/** The two inline style strings the component renders, and a reader for
    each that recovers the geometry a style string carries. */
module Css {
  import opened Wrappers
  import opened Decimal

  /** The viewport edge a `position: fixed` container is anchored to. */
  datatype Edge = TopEdge | BottomEdge

  /** A fixed-position box: its anchoring edge, the offset from that edge
      and its width, all in pixels. */
  datatype Fixed = Fixed(edge: Edge, offset: int, width: int)

  function EdgeName(e: Edge): string {
    match e
    case TopEdge => "top"
    case BottomEdge => "bottom"
  }

  /** The `{length}px; width: {width}px` ending both style strings share. */
  function LengthAndWidth(length: int, width: int): string {
    IntToString(length) + "px; width: " + IntToString(width) + "px"
  }

  /** The placeholder style that keeps the element's size while its content is fixed. */
  function ElementStyle(height: int, width: int): string {
    "height: " + LengthAndWidth(height, width)
  }

  /** The style of the container once it is fixed to an edge of the viewport. */
  function FixedStyle(f: Fixed): string {
    "position: fixed; " + EdgeName(f.edge) + ": " + LengthAndWidth(f.offset, f.width)
  }

  /** What follows the literal `lit` at the head of `s`, if `s` starts with it. */
  function Expect(lit: string, s: string): (r: Option<string>)
    ensures r.Some? ==> s == lit + r.value
  {
    if |lit| <= |s| && s[..|lit|] == lit then Some(s[|lit|..]) else None
  }

  /** The length and width a `{length}px; width: {width}px` string sets. */
  function ParseLengthAndWidth(s: string): Option<(int, int)> {
    match ReadInt(s)
    case None => None
    case Some((length, s1)) =>
      match Expect("px; width: ", s1)
      case None => None
      case Some(s2) =>
        match ReadInt(s2)
        case None => None
        case Some((width, s3)) => if s3 == "px" then Some((length, width)) else None
  }

  /** The height and width an element style string sets. */
  function ParseElementStyle(s: string): Option<(int, int)> {
    match Expect("height: ", s)
    case None => None
    case Some(s1) => ParseLengthAndWidth(s1)
  }

  /** Reads an edge name and the colon after it at the head of `s`. */
  function ReadEdge(s: string): Option<(Edge, string)> {
    match Expect("top: ", s)
    case Some(t) => Some((TopEdge, t))
    case None =>
      match Expect("bottom: ", s)
      case Some(t) => Some((BottomEdge, t))
      case None => None
  }

  /** The anchoring edge, offset and width a fixed container style string sets. */
  function ParseFixedStyle(s: string): Option<Fixed> {
    match Expect("position: fixed; ", s)
    case None => None
    case Some(s1) =>
      match ReadEdge(s1)
      case None => None
      case Some((edge, s2)) =>
        match ParseLengthAndWidth(s2)
        case None => None
        case Some((offset, width)) => Some(Fixed(edge, offset, width))
  }

  lemma ExpectPrefix(lit: string, rest: string)
    ensures Expect(lit, lit + rest) == Some(rest)
  {
    assert (lit + rest)[..|lit|] == lit;
    assert (lit + rest)[|lit|..] == rest;
  }

  lemma LengthAndWidthRoundTrip(length: int, width: int)
    ensures ParseLengthAndWidth(LengthAndWidth(length, width)) == Some((length, width))
  {
    var l, w := IntToString(length), IntToString(width);
    var tail := "px; width: " + (w + "px");
    assert LengthAndWidth(length, width) == l + tail;
    assert tail[0] == 'p';
    ReadIntRoundTrip(length, tail);
    ExpectPrefix("px; width: ", w + "px");
    assert "px"[0] == 'p';
    ReadIntRoundTrip(width, "px");
  }

  /** The placeholder style determines the height and width it was built from. */
  lemma ElementStyleRoundTrip(height: int, width: int)
    ensures ParseElementStyle(ElementStyle(height, width)) == Some((height, width))
  {
    ExpectPrefix("height: ", LengthAndWidth(height, width));
    LengthAndWidthRoundTrip(height, width);
  }

  lemma ReadEdgeRoundTrip(e: Edge, rest: string)
    ensures ReadEdge(EdgeName(e) + ": " + rest) == Some((e, rest))
  {
    var s := EdgeName(e) + ": " + rest;
    match e
    case TopEdge =>
      assert s == "top: " + rest;
      ExpectPrefix("top: ", rest);
    case BottomEdge =>
      assert s == "bottom: " + rest;
      assert s[..5][0] == 'b';
      ExpectPrefix("bottom: ", rest);
  }

  /** The container style determines the edge, offset and width it was built from. */
  lemma FixedStyleRoundTrip(f: Fixed)
    ensures ParseFixedStyle(FixedStyle(f)) == Some(f)
  {
    var tail := LengthAndWidth(f.offset, f.width);
    var afterPosition := EdgeName(f.edge) + ": " + tail;
    assert FixedStyle(f) == "position: fixed; " + afterPosition;
    ExpectPrefix("position: fixed; ", afterPosition);
    ReadEdgeRoundTrip(f.edge, tail);
    LengthAndWidthRoundTrip(f.offset, f.width);
  }
}
