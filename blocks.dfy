/** Block and TextBlock: one placed fragment with its inner box (the tight
    bounds of the rotated image) and its outer box (the inner box grown by
    the margin). TextBlock is the variant `BlockKind.Text`, which carries
    the rendered text and the orientation tag it was rendered with. */
module Blocks {
  import opened Geometry

  /** What the text-image supplier hands over: the text and the
      orientation it was laid out in before any rotation. */
  datatype TextImg = TextImg(text: string, orientation: Orientation)

  /** Plain `Block` or `TextBlock`. */
  datatype BlockKind = Plain | Text(textImg: TextImg)

  /** The observable state of a block, as a value. */
  datatype BlockValue = BlockValue(
    innerWidth: nat, innerHeight: nat, margin: int, kind: BlockKind,
    innerBox: Box, outerBox: Box)

  /** A block is located when its inner box has exactly the image's size
      and its outer box is the inner box grown by the margin. */
  predicate Located(v: BlockValue)
  {
    v.innerBox == BoxAt(v.innerBox.x0, v.innerBox.y0, v.innerWidth, v.innerHeight)
    && v.outerBox == Expand(v.innerBox, v.margin)
  }

  /** The value of a block of the given kind and size placed with its inner corner at p. */
  function PlacedAt(kind: BlockKind, w: nat, h: nat, margin: int, p: Point): (v: BlockValue)
    ensures v.innerWidth == w && v.innerHeight == h && v.margin == margin && v.kind == kind
    ensures Located(v)
    ensures v.innerBox.x0 == p.x && v.innerBox.y0 == p.y
    ensures v.outerBox.x0 == p.x - margin && v.outerBox.y0 == p.y - margin
  {
    var inner := BoxAt(p.x, p.y, w, h);
    BlockValue(w, h, margin, kind, inner, Expand(inner, margin))
  }

  class Block {
    /** Width and height of the image after `rotate(expand=True)`; the
        rotation itself is raster work and the two sizes are taken as given. */
    const innerWidth: nat
    const innerHeight: nat
    const margin: int
    const outerWidth: int
    const outerHeight: int
    const kind: BlockKind
    var innerBox: Box
    var outerBox: Box

    ghost predicate Valid()
      reads this
    {
      outerWidth == innerWidth + 2 * margin && outerHeight == innerHeight + 2 * margin
      && Located(Value())
    }

    function Value(): BlockValue
      reads this
    {
      BlockValue(innerWidth, innerHeight, margin, kind, innerBox, outerBox)
    }

    /** `Block(img, inner_x, inner_y, margin, rotate_angle)` and
        `TextBlock(text_img, ...)`: `rotatedWidth` and `rotatedHeight` are
        the dimensions of the image once rotated by `rotate_angle`. */
    constructor (kind: BlockKind, rotatedWidth: nat, rotatedHeight: nat, innerX: int, innerY: int, margin: int)
      ensures Valid()
      ensures Value() == PlacedAt(kind, rotatedWidth, rotatedHeight, margin, Point(innerX, innerY))
    {
      this.kind := kind;
      innerWidth := rotatedWidth;
      innerHeight := rotatedHeight;
      this.margin := margin;
      outerWidth := rotatedWidth + 2 * margin;
      outerHeight := rotatedHeight + 2 * margin;
      new;
      LocateByInner(innerX, innerY);
    }

    /** `locate_by_inner`: move the block so that its image starts at (x, y). */
    method LocateByInner(x: int, y: int)
      modifies this
      ensures innerBox == BoxAt(x, y, innerWidth, innerHeight)
      ensures outerBox == Box(x - margin, y - margin, x + innerWidth + margin, y + innerHeight + margin)
      ensures Located(Value())
    {
      innerBox := Box(x, y, x + innerWidth, y + innerHeight);
      outerBox := Box(x - margin, y - margin, x + innerWidth + margin, y + innerHeight + margin);
    }

    /** `locate_by_outter`: move the block so that its outer box starts at (x, y). */
    method LocateByOuter(x: int, y: int)
      requires Valid()
      modifies this
      ensures Valid()
      ensures outerBox == Box(x, y, x + outerWidth, y + outerHeight)
      ensures innerBox == BoxAt(x + margin, y + margin, innerWidth, innerHeight)
    {
      LocateByInner(x + margin, y + margin);
    }

    /** `get_orientation`: a plain block is horizontal exactly when it is
        strictly wider than high (so a square one is vertical); a text
        block reports the tag its text was rendered with, whatever shape
        rotation gave its box. */
    function GetOrientation(): (o: Orientation)
      ensures kind.Plain? ==> (o == Horizontal <==> innerWidth > innerHeight)
      ensures kind.Text? ==> o == kind.textImg.orientation
    {
      match kind
      case Plain => if innerWidth > innerHeight then Horizontal else Vertical
      case Text(t) => t.orientation
    }

    /** `get_data`: nothing (`None`) for a plain block, the text for a text block. */
    function GetData(): (d: Option<string>)
      ensures d.Some? <==> kind.Text?
      ensures kind.Text? ==> d.value == kind.textImg.text
    {
      match kind
      case Plain => None
      case Text(t) => Some(t.text)
    }

    /** The class name, `block.__class__.__name__`. */
    function TypeName(): (n: string)
      ensures n == "TextBlock" <==> kind.Text?
      ensures n == "Block" <==> kind.Plain?
    {
      if kind.Text? then "TextBlock" else "Block"
    }
  }

  /** Moving a block by its outer corner to where its outer box already is
      leaves both boxes as they were. */
  method LocateByOwnOuterCorner(b: Block)
    requires b.Valid()
    modifies b
    ensures b.Valid()
    ensures b.innerBox == old(b.innerBox) && b.outerBox == old(b.outerBox)
  {
    b.LocateByOuter(b.outerBox.x0, b.outerBox.y0);
  }
}
