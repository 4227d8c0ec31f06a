/** The sticky-element decision engine as values: the component's state and
    the read-only properties derived from it (sticky mode, the offset to the
    bottom, and the two inline style strings). */
module StickyState {
  import opened Wrappers
  import opened Decimal
  import opened Css

  /** Where a parent boundary sentinel is relative to the viewport: inside
      it (`'in'`), past its top (`'top'`) or past its bottom (`'bottom'`). */
  datatype Boundary = In | Top | Bottom

  /** Every field the component reads: the configured `top` offset, the
      `bottom` offset (`None` for `null`, which disables sticking to the
      bottom), the two boundary trackers and the last measured dimensions. */
  datatype State = State(
    top: int,
    bottom: Option<int>,
    parentTop: Boundary,
    parentBottom: Boundary,
    ownHeight: int,
    ownWidth: int,
    windowHeight: int)

  /** How the element is laid out. */
  datatype Mode = Flowing | StuckToTop | StuckToBottom

  /** The state a freshly created component is in: both trackers at
      `'bottom'` and nothing measured yet. */
  function Initial(top: int, bottom: Option<int>): State {
    State(top, bottom, Bottom, Bottom, 0, 0, 0)
  }

  /** `stickToBottom`: the `bottom` offset is present; 0 counts as present. */
  predicate StickToBottom(s: State) {
    s.bottom.Some?
  }

  /** `isStickyBottom` */
  predicate IsStickyBottom(s: State) {
    s.parentBottom == Bottom && s.parentTop != In && StickToBottom(s)
  }

  /** `isStickyTop` */
  predicate IsStickyTop(s: State) {
    s.parentTop == Top && !IsStickyBottom(s)
  }

  /** `isSticky` */
  predicate IsSticky(s: State) {
    IsStickyTop(s) || IsStickyBottom(s)
  }

  /** The layout decision, by cases on the top tracker: inside the viewport
      nothing sticks; otherwise the bottom takes precedence once its boundary
      is past the bottom and sticking to it is enabled. */
  function StickyMode(s: State): (m: Mode)
    ensures m == StuckToTop <==> IsStickyTop(s)
    ensures m == StuckToBottom <==> IsStickyBottom(s)
    ensures m == Flowing <==> !IsSticky(s)
  {
    var bottomReached := s.parentBottom == Bottom && s.bottom.Some?;
    match s.parentTop
    case In => Flowing
    case Top => if bottomReached then StuckToBottom else StuckToTop
    case Bottom => if bottomReached then StuckToBottom else Flowing
  }

  /** JavaScript's `null` reads as 0 in arithmetic. */
  function NumericValue(x: Option<int>): int {
    if x.Some? then x.value else 0
  }

  /** `offsetBottom` */
  function OffsetBottom(s: State): (r: int)
    ensures s.bottom.Some? ==> r == s.windowHeight - s.top - s.ownHeight - s.bottom.value
    ensures s.bottom.None? ==> r == s.windowHeight - s.top - s.ownHeight
  {
    s.windowHeight - s.top - s.ownHeight - NumericValue(s.bottom)
  }

  /** `style`: the placeholder keeps the measured size while the element is
      sticky, provided a positive height was measured. */
  function Style(s: State): (r: Option<string>)
    ensures r.Some? <==> s.ownHeight > 0 && StickyMode(s) != Flowing
    ensures r.Some? ==> r.value == ElementStyle(s.ownHeight, s.ownWidth)
    ensures r.Some? ==> ParseElementStyle(r.value) == Some((s.ownHeight, s.ownWidth))
  {
    if s.ownHeight > 0 && IsSticky(s) then
      ElementStyleRoundTrip(s.ownHeight, s.ownWidth);
      Some(ElementStyle(s.ownHeight, s.ownWidth))
    else
      None
  }

  /** The fixed box the container becomes in each sticky mode. */
  function Anchor(s: State): Option<Fixed> {
    match StickyMode(s)
    case Flowing => None
    case StuckToTop => Some(Fixed(TopEdge, s.top, s.ownWidth))
    case StuckToBottom => Some(Fixed(BottomEdge, NumericValue(s.bottom), s.ownWidth))
  }

  /** `containerStyle`: bottom first, then top, otherwise nothing. */
  function ContainerStyle(s: State): (r: Option<string>)
    ensures r.Some? <==> IsSticky(s)
    ensures r.Some? ==> ParseFixedStyle(r.value) == Anchor(s)
    ensures IsStickyBottom(s) ==> r == Some(FixedStyle(Fixed(BottomEdge, s.bottom.value, s.ownWidth)))
    ensures IsStickyTop(s) ==> r == Some(FixedStyle(Fixed(TopEdge, s.top, s.ownWidth)))
  {
    if IsStickyBottom(s) then
      var f := Fixed(BottomEdge, s.bottom.value, s.ownWidth);
      FixedStyleRoundTrip(f);
      Some(FixedStyle(f))
    else if IsStickyTop(s) then
      var f := Fixed(TopEdge, s.top, s.ownWidth);
      FixedStyleRoundTrip(f);
      Some(FixedStyle(f))
    else
      None
  }

  /** The distance from the viewport's top edge to the top of a fixed box of
      the given height. */
  function BoxTop(f: Fixed, height: int, windowHeight: int): int {
    match f.edge
    case TopEdge => f.offset
    case BottomEdge => windowHeight - f.offset - height
  }

  // ---------------------------------------------------------------------
  // Properties of the derived values

  /** Sticking to the top and to the bottom exclude each other, bottom wins,
      and `isSticky` is exactly one of them holding. */
  lemma MutualExclusion(s: State)
    ensures !(IsStickyTop(s) && IsStickyBottom(s))
    ensures s.parentTop == Top && s.parentBottom == Bottom && StickToBottom(s) ==> IsStickyBottom(s) && !IsStickyTop(s)
    ensures IsSticky(s) <==> (IsStickyTop(s) != IsStickyBottom(s))
  {
  }

  /** With `bottom` null nothing sticks to the bottom, and the element is
      sticky exactly when the top boundary is past the top. */
  lemma BottomDisabled(s: State)
    requires s.bottom.None?
    ensures !StickToBottom(s) && !IsStickyBottom(s)
    ensures IsSticky(s) <==> s.parentTop == Top
    ensures ContainerStyle(s) == if s.parentTop == Top then Some(FixedStyle(Fixed(TopEdge, s.top, s.ownWidth))) else None
  {
  }

  /** A `bottom` of 0 enables sticking to the bottom: the container is then
      fixed flush with the viewport's bottom edge. */
  lemma ZeroBottomEnables(s: State)
    requires s.bottom == Some(0)
    ensures StickToBottom(s)
    ensures s.parentTop != In && s.parentBottom == Bottom ==>
      IsStickyBottom(s) && ParseFixedStyle(ContainerStyle(s).value) == Some(Fixed(BottomEdge, 0, s.ownWidth))
  {
  }

  /** While the top boundary is inside the viewport nothing is sticky and
      neither style is set, whatever the bottom tracker says. */
  lemma TopInsideSuppresses(s: State)
    requires s.parentTop == In
    ensures !IsStickyTop(s) && !IsStickyBottom(s)
    ensures Style(s) == None && ContainerStyle(s) == None
  {
  }

  /** A fresh component is never sticky to the top, is sticky to the bottom
      exactly when `bottom` is set, and has no placeholder style. */
  lemma InitialState(top: int, bottom: Option<int>)
    ensures !IsStickyTop(Initial(top, bottom))
    ensures IsStickyBottom(Initial(top, bottom)) == bottom.Some?
    ensures Style(Initial(top, bottom)) == None
    ensures bottom.Some? ==> ContainerStyle(Initial(top, bottom)) == Some(FixedStyle(Fixed(BottomEdge, bottom.value, 0)))
  {
  }

  /** The placeholder is emitted only while the container is fixed, and then
      both carry the same width. */
  lemma StyleFollowsContainer(s: State)
    ensures Style(s).Some? <==> s.ownHeight > 0 && ContainerStyle(s).Some?
    ensures Style(s).Some? ==> ParseElementStyle(Style(s).value).value.1 == ParseFixedStyle(ContainerStyle(s).value).value.width
  {
  }

  /** `offsetBottom` is how far below its top-sticky position the element's
      top edge sits when it is fixed to the bottom. */
  lemma OffsetBottomIsDrop(s: State)
    requires StickToBottom(s)
    ensures OffsetBottom(s)
      == BoxTop(Fixed(BottomEdge, s.bottom.value, s.ownWidth), s.ownHeight, s.windowHeight)
       - BoxTop(Fixed(TopEdge, s.top, s.ownWidth), s.ownHeight, s.windowHeight)
    ensures IsStickyBottom(s) ==>
      BoxTop(ParseFixedStyle(ContainerStyle(s).value).value, s.ownHeight, s.windowHeight) == s.top + OffsetBottom(s)
  {
  }

  /** The text of the three numbers the sticky-top example renders. */
  lemma RenderedNumbers()
    ensures IntToString(10) == "10" && IntToString(50) == "50" && IntToString(200) == "200"
  {
    assert NatToString(1) == "1" && NatToString(5) == "5" && NatToString(2) == "2";
    assert DigitChar(0) == '0';
  }

  /** The placeholder style of a 50 by 200 element. */
  lemma ElementStyleExample()
    ensures ElementStyle(50, 200) == "height: 50px; width: 200px"
  {
    RenderedNumbers();
  }

  /** The container style of a 200 wide element fixed 10 below the top. */
  lemma FixedStyleExample()
    ensures FixedStyle(Fixed(TopEdge, 10, 200)) == "position: fixed; top: 10px; width: 200px"
  {
    RenderedNumbers();
  }

  /** A fixed-top element with a known size, and no bottom offset. */
  lemma StickyTopExample()
    ensures var s := State(10, None, Top, Bottom, 50, 200, 800);
      && IsSticky(s)
      && Style(s) == Some("height: 50px; width: 200px")
      && ContainerStyle(s) == Some("position: fixed; top: 10px; width: 200px")
  {
    ElementStyleExample();
    FixedStyleExample();
  }

  /** The top boundary inside the viewport keeps the element flowing even
      when the bottom boundary is past the bottom. */
  lemma TopInsideExample()
    ensures var s := State(0, Some(20), In, Bottom, 0, 0, 0);
      !IsStickyBottom(s) && !IsSticky(s)
  {
  }
}
