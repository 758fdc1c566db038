/**
 * The older whole-continent generator of map/map_generator.py: after the
 * zoom check, the canvas is the tile count times the tile image size, and
 * tile (x, y) of the whole grid is pasted at (x, y) times the tile size.
 * The tile source and its local file layout are the ones of MapGenerator.
 */
module ContinentMapGenerator {
  import opened Basics
  import opened Canvas
  import opened TileGrid
  import opened MapGenerator
  import Continents

  /** Tile (x, y) goes to (x * size, y * size). */
  function GridOffsets(size: int): (int, int) -> Point
  {
    (x, y) => Point(x * size, y * size)
  }

  /** The pastes of the loops over the whole `count` grid, x outer. */
  function ContinentPastes(source: TileKey -> Raster, p: Continents.MapParameters, continent: int, floor: int, zoom: int,
                           count: Point): seq<DrawOp>
  {
    Grid(0, count.x, 0, count.y, Pastes(TileFetch(source, continent, floor, zoom), GridOffsets(p.tileImageSize)))
  }

  /** `MapGenerator.generate_map_image`: ValueError for a zoom out of range, before any tile is fetched. */
  method GenerateMapImage(p: Continents.MapParameters, source: TileKey -> Raster, continent: int, floor: int, zoom: int)
    returns (r: Result<Image>)
    ensures r.Err? <==> Continents.CheckZoom(p, zoom).Some?
    ensures r.Err? ==> r.error == InvalidZoom
    ensures r.Ok? ==>
      && Continents.GetTileCount(p, zoom).Ok?
      && var count := Continents.GetTileCount(p, zoom).value;
      && fresh(r.value)
      && r.value.size == Point(count.x * p.tileImageSize, count.y * p.tileImageSize)
      && r.value.ops == ContinentPastes(source, p, continent, floor, zoom, count)
  {
    var check := Continents.CheckZoom(p, zoom);
    if check.Some? {
      return Err(check.value);
    }
    var tileDimensions := Continents.GetTileCount(p, zoom).value;
    var image := new Image(Point(tileDimensions.x * p.tileImageSize, tileDimensions.y * p.tileImageSize));
    PasteGrid(image, 0, tileDimensions.x, 0, tileDimensions.y,
              TileFetch(source, continent, floor, zoom), GridOffsets(p.tileImageSize));
    return Ok(image);
  }

  /** On one axis, tile t covers pixel q exactly when t is q's tile. */
  lemma AxisCover(t: int, s: int, q: int)
    requires s > 0
    ensures (t * s <= q < t * s + s) <==> t == q / s
  {
    FloorDivBounds(q, s);
    if t * s <= q < t * s + s {
      FloorDivUnique(q, s, t);
    }
  }

  /** Row-major indices: i is tx * n + ty exactly when its quotient and remainder are tx and ty. */
  lemma IndexDecompose(i: int, n: int, tx: int, ty: int)
    requires n > 0 && 0 <= ty < n
    ensures i == tx * n + ty <==> (i / n == tx && i % n == ty)
  {
    FloorDivBounds(i, n);
    if i == tx * n + ty {
      FloorDivUnique(i, n, tx);
    }
  }

  /** Paste i of the grid covers pixel q exactly when i is the index of q's tile. */
  lemma PasteCoversIff(f: (int, int) -> DrawOp, s: int, cx: int, cy: int, q: Point, i: nat)
    requires s > 0 && 0 <= q.x / s < cx && 0 <= q.y / s < cy
    requires forall x, y :: f(x, y).Paste? && f(x, y).at == Point(x * s, y * s)
    requires forall x, y :: RasterSize(f(x, y).image) == Point(s, s)
    requires i < cx * cy
    ensures |Grid(0, cx, 0, cy, f)| == cx * cy
    ensures Covers(Grid(0, cx, 0, cy, f)[i], q) <==> i == (q.x / s) * cy + q.y / s
  {
    GridAt(0, cx, 0, cy, f, i);
    var x, y := i / cy, i % cy;
    var op := f(x, y);
    assert Grid(0, cx, 0, cy, f)[i] == op;
    assert op.at == Point(x * s, y * s) && RasterSize(op.image) == Point(s, s);
    AxisCover(x, s, q.x);
    AxisCover(y, s, q.y);
    assert Covers(op, q) <==> (x == q.x / s && y == q.y / s);
    IndexDecompose(i, cy, q.x / s, q.y / s);
  }

  /**
   * With square tiles of the configured size, the pastes partition the
   * canvas: each pixel is covered by exactly one paste, that of its tile.
   */
  lemma TilesPartitionCanvas(source: TileKey -> Raster, p: Continents.MapParameters, continent: int, floor: int,
                             zoom: int, count: Point, q: Point)
    requires p.tileImageSize > 0
    requires forall k :: RasterSize(source(k)) == Point(p.tileImageSize, p.tileImageSize)
    requires 0 <= q.x < count.x * p.tileImageSize && 0 <= q.y < count.y * p.tileImageSize
    ensures var ops := ContinentPastes(source, p, continent, floor, zoom, count);
            var home := (q.x / p.tileImageSize) * count.y + q.y / p.tileImageSize;
            && 0 <= home < |ops|
            && forall i :: 0 <= i < |ops| ==> (Covers(ops[i], q) <==> i == home)
  {
    var s := p.tileImageSize;
    var f := Pastes(TileFetch(source, continent, floor, zoom), GridOffsets(s));
    var tx, ty := q.x / s, q.y / s;
    FloorDivBounds(q.x, s);
    FloorDivBounds(q.y, s);
    assert tx < count.x by {
      if tx >= count.x { MulLeftMonotone(s, count.x, tx); }
    }
    assert ty < count.y by {
      if ty >= count.y { MulLeftMonotone(s, count.y, ty); }
    }
    GridIndexOf(0, count.x, 0, count.y, f, tx, ty);
    GridLength(0, count.x, 0, count.y, f);
    forall i | 0 <= i < count.x * count.y
      ensures Covers(Grid(0, count.x, 0, count.y, f)[i], q) <==> i == tx * count.y + ty
    {
      PasteCoversIff(f, s, count.x, count.y, q, i);
    }
  }
}
