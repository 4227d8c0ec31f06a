/** The component object: its configuration and tracked fields, updated in
    place by the boundary actions and by `updateDimension`. The derived
    properties are the functions of `StickyState` applied to `Snapshot()`. */
module StickyElementComponent {
  import opened Wrappers
  import opened Css
  import opened StickyState

  class StickyElement {
    const top: int
    const bottom: Option<int>
    var parentTop: Boundary
    var parentBottom: Boundary
    var ownHeight: int
    var ownWidth: int
    var windowHeight: int

    /** The component's current fields as a value. */
    function Snapshot(): State
      reads this
    {
      State(top, bottom, parentTop, parentBottom, ownHeight, ownWidth, windowHeight)
    }

    /** A component with the given offsets (the defaults are 0 and null),
        both trackers at `'bottom'` and nothing measured. With `bottom` set
        it starts out stuck to the bottom. */
    constructor (top: int, bottom: Option<int>)
      ensures Snapshot() == Initial(top, bottom)
      ensures !IsStickyTop(Snapshot()) && IsStickyBottom(Snapshot()) == bottom.Some?
      ensures Style(Snapshot()) == None
    {
      this.top := top;
      this.bottom := bottom;
      parentTop := Bottom;
      parentBottom := Bottom;
      ownHeight := 0;
      ownWidth := 0;
      windowHeight := 0;
      InitialState(top, bottom);
    }

    /** `updateDimension`: stores the window height and the element's own
        height and width, as measured by the caller. */
    method UpdateDimension(measuredWindowHeight: int, measuredHeight: int, measuredWidth: int)
      modifies this
      ensures windowHeight == measuredWindowHeight && ownHeight == measuredHeight && ownWidth == measuredWidth
      ensures parentTop == old(parentTop) && parentBottom == old(parentBottom)
      ensures StickyMode(Snapshot()) == StickyMode(old(Snapshot()))
    {
      windowHeight := measuredWindowHeight;
      ownHeight := measuredHeight;
      ownWidth := measuredWidth;
    }

    /** `parentTopEntered`: the top boundary is inside the viewport, so the
        element flows normally; a repeated signal changes nothing. */
    method ParentTopEntered()
      modifies this
      ensures parentTop == In
      ensures Snapshot() == old(Snapshot()).(parentTop := In)
      ensures old(parentTop) == In ==> Snapshot() == old(Snapshot())
      ensures StickyMode(Snapshot()) == Flowing
      ensures Style(Snapshot()) == None && ContainerStyle(Snapshot()) == None
    {
      parentTop := In;
      TopInsideSuppresses(Snapshot());
    }

    /** `parentTopExited(top)`: re-measures first, then records whether the
        top boundary left past the top of the viewport (`top` true) or past
        its bottom. Leaving past the top makes the element sticky, with
        styles built from the fresh measurements. */
    method ParentTopExited(exitedAtTop: bool, measuredWindowHeight: int, measuredHeight: int, measuredWidth: int)
      modifies this
      ensures parentTop == (if exitedAtTop then Top else Bottom)
      ensures windowHeight == measuredWindowHeight && ownHeight == measuredHeight && ownWidth == measuredWidth
      ensures parentBottom == old(parentBottom)
      ensures exitedAtTop ==> IsSticky(Snapshot())
      ensures exitedAtTop ==> ParseFixedStyle(ContainerStyle(Snapshot()).value).value.width == measuredWidth
      ensures exitedAtTop && measuredHeight > 0 ==> Style(Snapshot()) == Some(ElementStyle(measuredHeight, measuredWidth))
      ensures !exitedAtTop ==> !IsStickyTop(Snapshot())
    {
      UpdateDimension(measuredWindowHeight, measuredHeight, measuredWidth);
      parentTop := if exitedAtTop then Top else Bottom;
    }

    /** `parentBottomEntered`: the bottom boundary is inside the viewport, so
        the element does not stick to the bottom. */
    method ParentBottomEntered()
      modifies this
      ensures Snapshot() == old(Snapshot()).(parentBottom := In)
      ensures old(parentBottom) == In ==> Snapshot() == old(Snapshot())
      ensures !IsStickyBottom(Snapshot())
      ensures IsSticky(Snapshot()) <==> parentTop == Top
    {
      parentBottom := In;
    }

    /** `parentBottomExited(top)`: records whether the bottom boundary left
        past the top of the viewport or past its bottom. Unlike the top
        action it does not re-measure: every other field keeps its value. */
    method ParentBottomExited(exitedAtTop: bool)
      modifies this
      ensures parentBottom == (if exitedAtTop then Top else Bottom)
      ensures Snapshot() == old(Snapshot()).(parentBottom := parentBottom)
      ensures old(parentBottom) == parentBottom ==> Snapshot() == old(Snapshot())
      ensures exitedAtTop ==> !IsStickyBottom(Snapshot())
      ensures !exitedAtTop ==> IsStickyBottom(Snapshot()) == (parentTop != In && StickToBottom(Snapshot()))
    {
      parentBottom := if exitedAtTop then Top else Bottom;
    }
  }

  /** A page that configures `top` 10 and no bottom offset, scrolls past the
      top boundary and is measured on the way. */
  method ScrollPastTop() returns (element: StickyElement)
    ensures ContainerStyle(element.Snapshot()) == Some("position: fixed; top: 10px; width: 200px")
    ensures Style(element.Snapshot()) == Some("height: 50px; width: 200px")
  {
    element := new StickyElement(10, None);
    element.ParentTopExited(true, 800, 50, 200);
    StickyTopExample();
  }
}
