/**
 * The sector map generator of mapgen/map_generator.py: the canvas is the
 * sector's size in full-image pixels, and every tile between the tiles of
 * the sector's two corners is fetched and pasted at its own pixel offset,
 * measured from the sector's top-left pixel.
 *
 * The tile source is a function from tile keys to rasters; the local source
 * reads `dir/continent/floor/zoom/x/y.jpg`.
 */
module MapGenerator {
  import opened Basics
  import opened Text
  import opened Canvas
  import opened MapCoordinates
  import opened TileGrid

  /** The arguments of `get_tile_image`. */
  datatype TileKey = TileKey(continent: int, floor: int, zoom: int, x: int, y: int)

  /** `LocalMapTileSource.get_tile_image`'s path: `{dir}/{continent}/{floor}/{zoom}/{x}/{y}.jpg`. */
  function LocalTilePath(dir: string, k: TileKey): string
  {
    dir + "/" + IntToString(k.continent) + "/" + IntToString(k.floor) + "/" + IntToString(k.zoom)
        + "/" + IntToString(k.x) + "/" + IntToString(k.y) + ".jpg"
  }

  /** The path components after the directory; the last carries the extension. */
  function TilePathParts(k: TileKey): seq<string>
  {
    [IntToString(k.continent), IntToString(k.floor), IntToString(k.zoom), IntToString(k.x), IntToString(k.y) + ".jpg"]
  }

  /** The path is the directory, then the five components joined with '/'. */
  lemma LocalTilePathParts(dir: string, k: TileKey)
    ensures LocalTilePath(dir, k) == dir + "/" + Join(TilePathParts(k), "/")
  {
    var c, f, z, x := IntToString(k.continent), IntToString(k.floor), IntToString(k.zoom), IntToString(k.x);
    var y, last := IntToString(k.y), IntToString(k.y) + ".jpg";
    var a0 := dir + "/";
    var j2 := c + "/" + f;
    var j3 := j2 + "/" + z;
    var j4 := j3 + "/" + x;
    Join5(c, f, z, x, last, "/");
    PrefixSep(a0, c, "/", f);
    PrefixSep(a0, j2, "/", z);
    PrefixSep(a0, j3, "/", x);
    PrefixSep(a0, j4, "/", last);
    ConcatAssoc(a0 + j4 + "/", y, ".jpg");
  }

  /** No path component contains the '/' separator. */
  lemma TilePathPartsPlain(k: TileKey)
    ensures forall j, i :: 0 <= j < |TilePathParts(k)| && 0 <= i < |TilePathParts(k)[j]| ==> TilePathParts(k)[j][i] != '/'
  {
    var parts := TilePathParts(k);
    var y := IntToString(k.y);
    forall i | 0 <= i < |parts[4]|
      ensures parts[4][i] != '/'
    {
      if i >= |y| {
        assert parts[4][i] == ".jpg"[i - |y|];
      }
    }
  }

  /** Different tiles are read from different files of one directory. */
  lemma LocalTilePathInjective(dir: string, a: TileKey, b: TileKey)
    requires LocalTilePath(dir, a) == LocalTilePath(dir, b)
    ensures a == b
  {
    LocalTilePathParts(dir, a);
    LocalTilePathParts(dir, b);
    var pa, pb := TilePathParts(a), TilePathParts(b);
    var n := |dir| + 1;
    assert Join(pa, "/") == LocalTilePath(dir, a)[n..];
    assert Join(pb, "/") == LocalTilePath(dir, b)[n..];
    TilePathPartsPlain(a);
    TilePathPartsPlain(b);
    JoinSplitOn(pa, '/');
    JoinSplitOn(pb, '/');
    assert pa == pb;
    IntToStringInjective(a.continent, b.continent);
    IntToStringInjective(a.floor, b.floor);
    IntToStringInjective(a.zoom, b.zoom);
    IntToStringInjective(a.x, b.x);
    var ya, yb := IntToString(a.y), IntToString(b.y);
    assert |ya| == |yb|;
    assert ya == pa[4][..|ya|];
    assert yb == pb[4][..|yb|];
    IntToStringInjective(a.y, b.y);
  }

  /** `LocalMapTileSource`: each tile is the image file at its local path (tiles are 256 x 256). */
  function LocalTileSource(dir: string): (source: TileKey -> Raster)
  {
    k => FileImage(LocalTilePath(dir, k), Point(TileImageSize, TileImageSize))
  }

  /** The tiles of the sector's top-left and bottom-right corners: the inclusive range of the loops. */
  function TileRange(cs: CoordinateSystem): (r: Rect)
    requires Valid(cs)
    ensures r.topLeft == ContinentToTile(cs, cs.sectorTopLeft)
    ensures r.bottomRight == ContinentToTile(cs, cs.sectorBottomRight)
    ensures r.topLeft.x <= r.bottomRight.x && r.topLeft.y <= r.bottomRight.y
  {
    TileMonotone(cs, cs.sectorTopLeft, cs.sectorBottomRight);
    Rect(ContinentToTile(cs, cs.sectorTopLeft), ContinentToTile(cs, cs.sectorBottomRight))
  }

  /** The fetch of tile (x, y) at the coordinate system's zoom. */
  function TileFetch(source: TileKey -> Raster, continent: int, floor: int, zoom: int): (int, int) -> Raster
  {
    (x, y) => source(TileKey(continent, floor, zoom, x, y))
  }

  /** Tile (x, y) goes to its full-image pixel minus `origin`. */
  function TileOffsets(origin: Point): (int, int) -> Point
  {
    (x, y) => Point(x * TileImageSize - origin.x, y * TileImageSize - origin.y)
  }

  /** The sector's top-left corner in full-image pixels. */
  function SectorOrigin(cs: CoordinateSystem): Point
    requires Valid(cs)
  {
    ContinentToFullImage(cs, cs.sectorTopLeft)
  }

  /** The canvas: the sector's dimensions in full-image pixels. */
  function CanvasSize(cs: CoordinateSystem): Point
    requires Valid(cs)
  {
    ContinentToFullImage(cs, cs.sectorDimensions)
  }

  /** The pastes the loops make, in order: x outer, y inner, both ranges inclusive. */
  function TilePastes(source: TileKey -> Raster, continent: int, floor: int, cs: CoordinateSystem): seq<DrawOp>
    requires Valid(cs)
  {
    var tiles := TileRange(cs);
    Grid(tiles.topLeft.x, tiles.bottomRight.x + 1, tiles.topLeft.y, tiles.bottomRight.y + 1,
         Pastes(TileFetch(source, continent, floor, cs.zoom), TileOffsets(SectorOrigin(cs))))
  }

  /** `MapGenerator.generate_map_image`. */
  method GenerateMapImage(source: TileKey -> Raster, continent: int, floor: int, cs: CoordinateSystem)
    returns (image: Image)
    requires Valid(cs)
    ensures fresh(image)
    ensures image.size == CanvasSize(cs)
    ensures image.ops == TilePastes(source, continent, floor, cs)
  {
    image := new Image(ContinentToFullImage(cs, cs.sectorDimensions));
    var topLeftTile := ContinentToTile(cs, cs.sectorTopLeft);
    var bottomRightTile := ContinentToTile(cs, cs.sectorBottomRight);
    var topLeftImageCoord := ContinentToFullImage(cs, cs.sectorTopLeft);
    PasteGrid(image, topLeftTile.x, bottomRightTile.x + 1, topLeftTile.y, bottomRightTile.y + 1,
              TileFetch(source, continent, floor, cs.zoom), TileOffsets(topLeftImageCoord));
  }

  /**
   * Every tile of the range is fetched once, at the coordinate system's zoom,
   * and pasted at the offset computed from its own indices.
   */
  lemma TilePasteOf(source: TileKey -> Raster, continent: int, floor: int, cs: CoordinateSystem, x: int, y: int)
    requires Valid(cs)
    requires TileRange(cs).topLeft.x <= x <= TileRange(cs).bottomRight.x
    requires TileRange(cs).topLeft.y <= y <= TileRange(cs).bottomRight.y
    ensures var tiles := TileRange(cs);
            var i := (x - tiles.topLeft.x) * (tiles.bottomRight.y + 1 - tiles.topLeft.y) + (y - tiles.topLeft.y);
            var origin := ContinentToFullImage(cs, cs.sectorTopLeft);
            && 0 <= i < |TilePastes(source, continent, floor, cs)|
            && TilePastes(source, continent, floor, cs)[i]
               == DrawOp.Paste(source(TileKey(continent, floor, cs.zoom, x, y)),
                               Point(x * TileImageSize - origin.x, y * TileImageSize - origin.y))
  {
    var tiles := TileRange(cs);
    GridIndexOf(tiles.topLeft.x, tiles.bottomRight.x + 1, tiles.topLeft.y, tiles.bottomRight.y + 1,
                Pastes(TileFetch(source, continent, floor, cs.zoom), TileOffsets(SectorOrigin(cs))), x, y);
  }

  /**
   * The first tile is pasted at most one tile up and left of the canvas
   * origin: pixels and tiles are floored at the same scale.
   */
  lemma FirstTileOffset(cs: CoordinateSystem)
    requires Valid(cs)
    ensures var tl := TileRange(cs).topLeft;
            var off := TileOffsets(SectorOrigin(cs))(tl.x, tl.y);
            -TileImageSize < off.x <= 0 && -TileImageSize < off.y <= 0
  {
    FullImagePixelInTile(cs, cs.sectorTopLeft);
    var o := SectorOrigin(cs);
    FloorDivBounds(o.x, TileImageSize);
    FloorDivBounds(o.y, TileImageSize);
  }

  /**
   * One axis of the coverage argument: a pixel p of the canvas, shifted to
   * the full image, falls in a tile between the corners' tiles.
   */
  lemma AxisCovered(td: int, a: int, b: int, p: int)
    requires td > 0 && a <= b
    requires 0 <= p < (TileImageSize * (b - a + 1)) / td
    ensures a / td <= (p + (TileImageSize * a) / td) / TileImageSize <= b / td
  {
    var o := (TileImageSize * a) / td;
    var w := (TileImageSize * (b - a + 1)) / td;
    PixelTileAxis(a, td);
    FloorDivMonotone(o, p + o, TileImageSize);
    // w + o pixels reach at most to the pixel of b + 1.
    FloorDivBounds(TileImageSize * a, td);
    FloorDivBounds(TileImageSize * (b - a + 1), td);
    assert td * (w + o) <= TileImageSize * (b + 1);
    FloorDivLowerBound(TileImageSize * (b + 1), td, w + o);
    // The pixel of b + 1 is at most the first pixel of the tile after b's.
    var q := b / td;
    FloorDivBounds(b, td);
    assert TileImageSize * (b + 1) <= td * (TileImageSize * (q + 1));
    FloorDivMonotone(TileImageSize * (b + 1), td * (TileImageSize * (q + 1)), td);
    MulDivCancel(TileImageSize * (q + 1), td);
    assert p + o <= TileImageSize * q + TileImageSize - 1;
    FloorDivMonotone(p + o, TileImageSize * q + TileImageSize - 1, TileImageSize);
    FloorDivUnique(TileImageSize * q + TileImageSize - 1, TileImageSize, q);
  }

  /**
   * With 256 x 256 tiles, every pixel of the canvas is covered by the paste
   * of the tile its full-image pixel falls in, and that tile is in the range.
   */
  lemma TilesCoverCanvas(source: TileKey -> Raster, continent: int, floor: int, cs: CoordinateSystem, p: Point)
    requires Valid(cs)
    requires forall k :: RasterSize(source(k)) == Point(TileImageSize, TileImageSize)
    requires 0 <= p.x < CanvasSize(cs).x && 0 <= p.y < CanvasSize(cs).y
    ensures exists i :: 0 <= i < |TilePastes(source, continent, floor, cs)| && Covers(TilePastes(source, continent, floor, cs)[i], p)
  {
    var o := SectorOrigin(cs);
    var tiles := TileRange(cs);
    var tl, br := cs.sectorTopLeft, cs.sectorBottomRight;
    AxisCovered(cs.tileDimensions, tl.x, br.x, p.x);
    AxisCovered(cs.tileDimensions, tl.y, br.y, p.y);
    var x, y := (p.x + o.x) / TileImageSize, (p.y + o.y) / TileImageSize;
    TilePasteOf(source, continent, floor, cs, x, y);
    var i := (x - tiles.topLeft.x) * (tiles.bottomRight.y + 1 - tiles.topLeft.y) + (y - tiles.topLeft.y);
    FloorDivBounds(p.x + o.x, TileImageSize);
    FloorDivBounds(p.y + o.y, TileImageSize);
    assert Covers(TilePastes(source, continent, floor, cs)[i], p);
  }
}
