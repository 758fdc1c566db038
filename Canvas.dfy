/**
 * The PIL images the generators, the compositor and the overlays draw on.
 * Pixels are not modelled: an image is its size and the log of drawing
 * operations applied to it, in order. A paste covers the rectangle of the
 * pasted raster's size at the paste offset, and a later paste covers an
 * earlier one where they overlap.
 */
module Canvas {
  import opened Basics

  datatype Color = Rgba(r: int, g: int, b: int, a: int)

  const White: Color := Rgba(255, 255, 255, 255)

  /** One `ImageDraw.text` call on a label image. */
  datatype TextDraw = TextDraw(x: real, y: int, text: string, fontSize: int, anchor: string, outlineWidth: int, color: Color)

  /** What a paste puts down. */
  datatype Raster =
    | FileImage(path: string, size: Point)                // `Image.open(path)`
    | Snapshot(size: Point, ops: seq<DrawOp>)            // another canvas, as drawn so far
    | LabelImage(size: Point, texts: seq<TextDraw>)      // a transparent label image with text drawn on it

  /** `paste(image, at)` and `rectangle(rect, outline, width[, fill])`; rect corners are inclusive. */
  datatype DrawOp =
    | Paste(image: Raster, at: Point)
    | Rectangle(rect: Rect, width: int, outline: Color, fill: Option<Color>)

  function RasterSize(r: Raster): Point
  {
    match r
    case FileImage(_, size) => size
    case Snapshot(size, _) => size
    case LabelImage(size, _) => size
  }

  /** The pixels a paste of a raster of `size` at `at` covers. */
  predicate InFootprint(at: Point, size: Point, p: Point)
  {
    at.x <= p.x < at.x + size.x && at.y <= p.y < at.y + size.y
  }

  predicate Covers(op: DrawOp, p: Point)
  {
    op.Paste? && InFootprint(op.at, RasterSize(op.image), p)
  }

  /** The index of the last paste covering pixel `p`: the one whose pixels show there. */
  function TopmostPaste(ops: seq<DrawOp>, p: Point): (r: Option<nat>)
    ensures r.Some? ==> r.value < |ops| && Covers(ops[r.value], p)
    ensures r.Some? ==> forall j :: r.value < j < |ops| ==> !Covers(ops[j], p)
    ensures r.None? ==> forall j :: 0 <= j < |ops| ==> !Covers(ops[j], p)
  {
    if |ops| == 0 then None
    else if Covers(ops[|ops| - 1], p) then Some(|ops| - 1)
    else TopmostPaste(ops[..|ops| - 1], p)
  }

  class Image {
    var size: Point
    var ops: seq<DrawOp>

    /** `Image.new(mode, size)`: blank. */
    constructor (size: Point)
      ensures this.size == size && ops == []
    {
      this.size := size;
      ops := [];
    }

    method Paste(image: Raster, at: Point)
      modifies this
      ensures size == old(size)
      ensures ops == old(ops) + [DrawOp.Paste(image, at)]
    {
      ops := ops + [DrawOp.Paste(image, at)];
    }

    method DrawRectangle(rect: Rect, width: int, outline: Color, fill: Option<Color>)
      modifies this
      ensures size == old(size)
      ensures ops == old(ops) + [Rectangle(rect, width, outline, fill)]
    {
      ops := ops + [Rectangle(rect, width, outline, fill)];
    }

    /** The image as a raster to paste elsewhere. */
    function AsRaster(): (r: Raster)
      reads this
      ensures RasterSize(r) == size
    {
      Snapshot(size, ops)
    }
  }
}
