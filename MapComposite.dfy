/**
 * The compositor of mapgen/map_composite.py: the parts of a multi-sector
 * layout, each an image at a pixel offset, are drawn onto one canvas that
 * bounds them all, each part after a 7-pixel translucent white outline
 * around it, in list order.
 */
module MapComposite {
  import opened Basics
  import opened Canvas

  const OutlineWidth: int := 7
  const OutlineColor: Color := Rgba(255, 255, 255, 95)

  /** A part: its top-left offset and its image. */
  type Part = (Point, Raster)

  /** Where a part ends on both axes: offset plus size. */
  function PartEnd(part: Part): Point
  {
    Point(part.0.x + RasterSize(part.1).x, part.0.y + RasterSize(part.1).y)
  }

  /** The canvas size: per axis, the largest end over the parts. */
  function Extent(parts: seq<Part>): (size: Point)
    requires |parts| > 0
    ensures forall i :: 0 <= i < |parts| ==> PartEnd(parts[i]).x <= size.x && PartEnd(parts[i]).y <= size.y
    ensures exists i :: 0 <= i < |parts| && PartEnd(parts[i]).x == size.x
    ensures exists i :: 0 <= i < |parts| && PartEnd(parts[i]).y == size.y
  {
    var last := PartEnd(parts[|parts| - 1]);
    if |parts| == 1 then last
    else
      var init := parts[..|parts| - 1];
      var rest := Extent(init);
      assert forall i :: 0 <= i < |init| ==> init[i] == parts[i];
      Point(Max(rest.x, last.x), Max(rest.y, last.y))
  }

  /** `max(...)` over no parts raises: the size is an error for an empty list. */
  function TotalSize(parts: seq<Part>): (r: Result<Point>)
    ensures r.Err? <==> parts == []
    ensures r.Err? ==> r.error == EmptyParts
    ensures r.Ok? ==> r.value == Extent(parts)
  {
    if |parts| == 0 then Err(EmptyParts) else Ok(Extent(parts))
  }

  /** The outline rectangle: the part's footprint grown by the outline width, corners inclusive. */
  function OutlineRect(at: Point, size: Point): Rect
  {
    Rect(Point(at.x - OutlineWidth, at.y - OutlineWidth),
         Point(at.x + size.x + OutlineWidth - 1, at.y + size.y + OutlineWidth - 1))
  }

  /** What one loop iteration draws: the outline, then the part on top. */
  function PartDraws(part: Part): seq<DrawOp>
  {
    [Rectangle(OutlineRect(part.0, RasterSize(part.1)), OutlineWidth, OutlineColor, None),
     DrawOp.Paste(part.1, part.0)]
  }

  /** The draws of the loop over `parts`, in list order. */
  function PartOps(parts: seq<Part>): seq<DrawOp>
  {
    if |parts| == 0 then [] else PartOps(parts[..|parts| - 1]) + PartDraws(parts[|parts| - 1])
  }

  /** `combine_part_images`. */
  method CombinePartImages(parts: seq<Part>) returns (r: Result<Image>)
    ensures r.Err? <==> parts == []
    ensures r.Err? ==> r.error == EmptyParts
    ensures r.Ok? ==> fresh(r.value) && r.value.size == Extent(parts) && r.value.ops == PartOps(parts)
  {
    var total := TotalSize(parts);
    if total.Err? {
      return Err(total.error);
    }
    var fullImage := new Image(total.value);
    for i := 0 to |parts|
      invariant fullImage.size == total.value
      invariant fullImage.ops == PartOps(parts[..i])
    {
      var partTopLeft := parts[i].0;
      var partImage := parts[i].1;
      var size := RasterSize(partImage);
      var partRect := Rect(Point(partTopLeft.x - OutlineWidth, partTopLeft.y - OutlineWidth),
                           Point(partTopLeft.x + size.x + OutlineWidth - 1, partTopLeft.y + size.y + OutlineWidth - 1));
      fullImage.DrawRectangle(partRect, OutlineWidth, OutlineColor, None);
      fullImage.Paste(partImage, partTopLeft);
      assert parts[..i + 1][..i] == parts[..i];
    }
    assert parts[..|parts|] == parts;
    return Ok(fullImage);
  }

  /** A single part at the origin gives a canvas of exactly its size. */
  lemma SinglePartAtOrigin(image: Raster)
    ensures TotalSize([(Point(0, 0), image)]) == Ok(RasterSize(image))
  {
  }

  /** With non-negative offsets every part's footprint lies inside the canvas. */
  lemma FootprintsInCanvas(parts: seq<Part>, i: int, p: Point)
    requires 0 <= i < |parts|
    requires parts[i].0.x >= 0 && parts[i].0.y >= 0
    requires InFootprint(parts[i].0, RasterSize(parts[i].1), p)
    ensures InFootprint(Point(0, 0), Extent(parts), p)
  {
  }

  /**
   * The outline frames the part: a pixel is in the part's footprint exactly
   * when it is at least the outline width inside the outline rectangle.
   */
  lemma OutlineFramesPart(at: Point, size: Point, p: Point)
    ensures var r := OutlineRect(at, size);
            InFootprint(at, size, p) <==>
              (r.topLeft.x + OutlineWidth <= p.x <= r.bottomRight.x - OutlineWidth
               && r.topLeft.y + OutlineWidth <= p.y <= r.bottomRight.y - OutlineWidth)
  {
  }

  /** Part j's outline is draw 2j and its paste draw 2j + 1. */
  lemma {:induction false} PartOpsAt(parts: seq<Part>, j: int)
    requires 0 <= j < |parts|
    ensures |PartOps(parts)| == 2 * |parts|
    ensures PartOps(parts)[2 * j] == PartDraws(parts[j])[0]
    ensures PartOps(parts)[2 * j + 1] == DrawOp.Paste(parts[j].1, parts[j].0)
    decreases |parts|
  {
    var init := parts[..|parts| - 1];
    if |parts| > 1 {
      PartOpsLength(init);
    }
    if j < |parts| - 1 {
      PartOpsAt(init, j);
    }
  }

  lemma {:induction false} PartOpsLength(parts: seq<Part>)
    ensures |PartOps(parts)| == 2 * |parts|
    decreases |parts|
  {
    if |parts| > 0 {
      PartOpsLength(parts[..|parts| - 1]);
    }
  }

  /**
   * Later parts are drawn over earlier ones: where part j is the last part
   * covering a pixel, the pixel shows part j's paste (outlines are not
   * counted as covering).
   */
  lemma LaterPartsOnTop(parts: seq<Part>, j: int, p: Point)
    requires 0 <= j < |parts|
    requires InFootprint(parts[j].0, RasterSize(parts[j].1), p)
    requires forall k :: j < k < |parts| ==> !InFootprint(parts[k].0, RasterSize(parts[k].1), p)
    ensures TopmostPaste(PartOps(parts), p) == Some(2 * j + 1)
  {
    var ops := PartOps(parts);
    PartOpsAt(parts, j);
    forall i | 2 * j + 1 < i < |ops|
      ensures !Covers(ops[i], p)
    {
      var k := i / 2;
      PartOpsAt(parts, k);
      assert i == 2 * k || i == 2 * k + 1;
    }
  }
}
