/** Integer box arithmetic shared by blocks, block groups and the layout.
    Boxes are written as PIL writes them: (x0, y0, x1, y1), with (x1, y1)
    one past the last pixel, so width and height are plain differences. */
module Geometry {

  datatype Option<T> = None | Some(value: T)

  /** The reading direction of a text fragment, TYPE_ORIENTATION_HORIZONTAL or
      TYPE_ORIENTATION_VERTICAL. */
  datatype Orientation = Horizontal | Vertical

  datatype Point = Point(x: int, y: int)

  datatype Box = Box(x0: int, y0: int, x1: int, y1: int)
  {
    function Width(): int { x1 - x0 }
    function Height(): int { y1 - y0 }
  }

  /** The background image: only its pixel dimensions matter to the layout logic. */
  datatype Canvas = Canvas(width: nat, height: nat)

  /** True when `outer` covers every pixel of `inner`. */
  predicate Contains(outer: Box, inner: Box)
  {
    outer.x0 <= inner.x0 && outer.y0 <= inner.y0 && inner.x1 <= outer.x1 && inner.y1 <= outer.y1
  }

  /** The box of a w-by-h image whose top-left pixel is at (x, y). */
  function BoxAt(x: int, y: int, w: nat, h: nat): (b: Box)
    ensures b.x0 == x && b.y0 == y
    ensures b.Width() == w && b.Height() == h
  {
    Box(x, y, x + w, y + h)
  }

  /** `b` grown by `m` on each of its four sides. */
  function Expand(b: Box, m: int): (r: Box)
    ensures r.Width() == b.Width() + 2 * m && r.Height() == b.Height() + 2 * m
    ensures r.x0 + m == b.x0 && r.y0 + m == b.y0
    ensures m >= 0 ==> Contains(r, b)
  {
    Box(b.x0 - m, b.y0 - m, b.x1 + m, b.y1 + m)
  }

  /** Placing an image by the outer corner of its expanded box puts its own
      corner back where it was: locating by the outer box is the inverse of
      reading the outer box off an inner placement. */
  lemma OuterCornerRoundTrip(x: int, y: int, w: nat, h: nat, m: int)
    ensures var outer := Expand(BoxAt(x, y, w, h), m);
      BoxAt(outer.x0 + m, outer.y0 + m, w, h) == BoxAt(x, y, w, h)
      && Expand(BoxAt(outer.x0 + m, outer.y0 + m, w, h), m) == outer
  {
  }
}
