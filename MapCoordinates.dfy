/**
 * The map coordinate system of mapgen/map_coordinates.py: continent
 * coordinates, tile indices at one zoom level, pixels of the whole
 * continent image and pixels of a sector (a cropped rectangle of the
 * continent).
 *
 * The source computes `floor(c * (256 / tile_dimensions))` on floats; the
 * tile edge is 2^k times the max-zoom tile edge, so the product is exact
 * and the model uses integer floor division throughout.
 */
module MapCoordinates {
  import opened Basics

  /** Pixel edge of one tile image. */
  const TileImageSize: int := 256

  /** Zoom levels double the resolution. */
  const ZoomFactor: int := 2

  /**
   * `dimensions` is the extent of the continent in continent units;
   * `maxZoomTileDimensions` the continent units one tile covers at `maxZoom`
   * (the source's default is `TileImageSize`).
   */
  datatype MapParameters = MapParameters(
    continentId: int,
    dimensions: Point,
    minZoom: int,
    maxZoom: int,
    maxZoomTileDimensions: int)

  /** A rectangle of a continent; `None` stands for the whole continent. */
  datatype MapSector = MapSector(continentId: int, continentRect: Option<Rect>)
  {
    function Width(): int
      requires continentRect.Some?
    {
      continentRect.value.bottomRight.x - continentRect.value.topLeft.x
    }

    function Height(): int
      requires continentRect.Some?
    {
      continentRect.value.bottomRight.y - continentRect.value.topLeft.y
    }
  }

  /** Sectors placed at offsets (in continent units) of one composite map. */
  datatype MapLayout = MapLayout(parts: seq<(Point, MapSector)>)

  /** `MapLayout.single_sector`: the sector alone, at offset (0, 0). */
  function SingleSector(sector: MapSector): (layout: MapLayout)
    ensures |layout.parts| == 1
    ensures layout.parts[0].0 == Point(0, 0) && layout.parts[0].1 == sector
  {
    MapLayout([(Point(0, 0), sector)])
  }

  /**
   * The fields `MapCoordinateSystem.__init__` computes; only
   * `NewCoordinateSystem` produces values that satisfy `Valid`.
   */
  datatype CoordinateSystem = CoordinateSystem(
    params: MapParameters,
    zoom: int,
    tileDimensions: int,
    sectorDimensions: Point,
    sectorTopLeft: Point,
    sectorBottomRight: Point)

  /** ((0, 0), dimensions - 1): the whole continent, corners inclusive. */
  function FullDimRect(p: MapParameters): Rect
  {
    Rect(Point(0, 0), Point(p.dimensions.x - 1, p.dimensions.y - 1))
  }

  /** The rectangle the coordinate system crops to. */
  function SectorRect(p: MapParameters, sector: Option<MapSector>): Rect
  {
    if sector.None? || sector.value.continentRect.None? then FullDimRect(p)
    else sector.value.continentRect.value
  }

  predicate ZoomInRange(p: MapParameters, zoom: int)
  {
    p.minZoom <= zoom <= p.maxZoom
  }

  /** No corner of `r` lies outside `bounds` (corners inclusive). */
  predicate WithinBounds(r: Rect, bounds: Rect)
  {
    && bounds.topLeft.x <= r.topLeft.x
    && bounds.topLeft.y <= r.topLeft.y
    && r.bottomRight.x <= bounds.bottomRight.x
    && r.bottomRight.y <= bounds.bottomRight.y
  }

  /** Top-left strictly before bottom-right on both axes. */
  predicate StrictlyOrdered(r: Rect)
  {
    r.topLeft.x < r.bottomRight.x && r.topLeft.y < r.bottomRight.y
  }

  function TileDimensions(p: MapParameters, zoom: int): int
    requires zoom <= p.maxZoom
  {
    Pow2(p.maxZoom - zoom) * p.maxZoomTileDimensions
  }

  ghost predicate Valid(cs: CoordinateSystem)
  {
    && cs.params.maxZoomTileDimensions > 0
    && ZoomInRange(cs.params, cs.zoom)
    && cs.tileDimensions == TileDimensions(cs.params, cs.zoom)
    && cs.tileDimensions > 0
    && var r := Rect(cs.sectorTopLeft, cs.sectorBottomRight);
    && WithinBounds(r, FullDimRect(cs.params))
    && StrictlyOrdered(r)
    && cs.sectorDimensions == Point(cs.sectorBottomRight.x - cs.sectorTopLeft.x + 1,
                                    cs.sectorBottomRight.y - cs.sectorTopLeft.y + 1)
  }

  /**
   * `MapCoordinateSystem(map_params, zoom, sector)`: the zoom check first,
   * then the bounds check, then the ordering check, each raising ValueError;
   * a zero tile edge then fails on `1 / tile_dimensions`.
   */
  function NewCoordinateSystem(p: MapParameters, zoom: int, sector: Option<MapSector>): (r: Result<CoordinateSystem>)
    requires p.maxZoomTileDimensions >= 0
    ensures r == Err(InvalidZoom) <==> !ZoomInRange(p, zoom)
    ensures r == Err(SectorOutOfBounds) <==>
      ZoomInRange(p, zoom) && !WithinBounds(SectorRect(p, sector), FullDimRect(p))
    ensures r == Err(SectorNotOrdered) <==>
      ZoomInRange(p, zoom) && WithinBounds(SectorRect(p, sector), FullDimRect(p)) && !StrictlyOrdered(SectorRect(p, sector))
    ensures r == Err(DivisionByZero) <==>
      ZoomInRange(p, zoom) && WithinBounds(SectorRect(p, sector), FullDimRect(p)) && StrictlyOrdered(SectorRect(p, sector))
      && p.maxZoomTileDimensions == 0
    ensures r.Err? ==> r.error in {InvalidZoom, SectorOutOfBounds, SectorNotOrdered, DivisionByZero}
    ensures r.Ok? ==> Valid(r.value)
    ensures r.Ok? ==> && r.value.params == p && r.value.zoom == zoom
                      && r.value.sectorTopLeft == SectorRect(p, sector).topLeft
                      && r.value.sectorBottomRight == SectorRect(p, sector).bottomRight
  {
    if zoom < p.minZoom || zoom > p.maxZoom then Err(InvalidZoom)
    else
      var full := FullDimRect(p);
      var s := SectorRect(p, sector);
      if s.topLeft.x < full.topLeft.x || s.topLeft.y < full.topLeft.y
         || s.bottomRight.x > full.bottomRight.x || s.bottomRight.y > full.bottomRight.y then
        Err(SectorOutOfBounds)
      else if s.topLeft.x >= s.bottomRight.x || s.topLeft.y >= s.bottomRight.y then
        Err(SectorNotOrdered)
      else if p.maxZoomTileDimensions == 0 then
        Err(DivisionByZero)
      else
        var td := Pow2(p.maxZoom - zoom) * p.maxZoomTileDimensions;
        Ok(CoordinateSystem(
          p, zoom, td,
          Point(s.bottomRight.x - s.topLeft.x + 1, s.bottomRight.y - s.topLeft.y + 1),
          s.topLeft, s.bottomRight))
  }

  /** An accepted sector is inclusive and at least 2 units on each axis. */
  lemma SectorDimensionsAtLeastTwo(p: MapParameters, zoom: int, sector: Option<MapSector>)
    requires p.maxZoomTileDimensions >= 0
    requires NewCoordinateSystem(p, zoom, sector).Ok?
    ensures var cs := NewCoordinateSystem(p, zoom, sector).value;
      && cs.sectorDimensions.x >= 2 && cs.sectorDimensions.y >= 2
      && (sector.Some? && sector.value.continentRect.Some? ==>
            cs.sectorDimensions == Point(sector.value.Width() + 1, sector.value.Height() + 1))
  {
  }

  /** Without a sector rect the whole continent is used, and accepted when it is at least 2 x 2. */
  lemma FullExtentSector(p: MapParameters, zoom: int, sector: Option<MapSector>)
    requires p.maxZoomTileDimensions > 0
    requires sector.None? || sector.value.continentRect.None?
    requires ZoomInRange(p, zoom)
    ensures NewCoordinateSystem(p, zoom, sector).Ok? <==> p.dimensions.x >= 2 && p.dimensions.y >= 2
    ensures NewCoordinateSystem(p, zoom, sector).Ok? ==>
      && NewCoordinateSystem(p, zoom, sector).value.sectorTopLeft == Point(0, 0)
      && NewCoordinateSystem(p, zoom, sector).value.sectorDimensions == p.dimensions
  {
  }

  /** `continent_to_tile_coord`: the tile whose edge range holds each coordinate. */
  function ContinentToTile(cs: CoordinateSystem, c: Point): (t: Point)
    requires Valid(cs)
    ensures cs.tileDimensions * t.x <= c.x < cs.tileDimensions * t.x + cs.tileDimensions
    ensures cs.tileDimensions * t.y <= c.y < cs.tileDimensions * t.y + cs.tileDimensions
  {
    FloorDivBounds(c.x, cs.tileDimensions);
    FloorDivBounds(c.y, cs.tileDimensions);
    Point(c.x / cs.tileDimensions, c.y / cs.tileDimensions)
  }

  /** `continent_to_full_image_coord`: floor(c * 256 / tile_dimensions) per axis. */
  function ContinentToFullImage(cs: CoordinateSystem, c: Point): (px: Point)
    requires Valid(cs)
    ensures cs.tileDimensions * px.x <= TileImageSize * c.x < cs.tileDimensions * px.x + cs.tileDimensions
    ensures cs.tileDimensions * px.y <= TileImageSize * c.y < cs.tileDimensions * px.y + cs.tileDimensions
  {
    FloorDivBounds(TileImageSize * c.x, cs.tileDimensions);
    FloorDivBounds(TileImageSize * c.y, cs.tileDimensions);
    Point((TileImageSize * c.x) / cs.tileDimensions, (TileImageSize * c.y) / cs.tileDimensions)
  }

  /** `continent_to_sector_image_coord`: the same scale, measured from the sector's top-left. */
  function ContinentToSectorImage(cs: CoordinateSystem, c: Point): (px: Point)
    requires Valid(cs)
    ensures cs.tileDimensions * px.x <= TileImageSize * (c.x - cs.sectorTopLeft.x) < cs.tileDimensions * px.x + cs.tileDimensions
    ensures cs.tileDimensions * px.y <= TileImageSize * (c.y - cs.sectorTopLeft.y) < cs.tileDimensions * px.y + cs.tileDimensions
  {
    var dx, dy := c.x - cs.sectorTopLeft.x, c.y - cs.sectorTopLeft.y;
    FloorDivBounds(TileImageSize * dx, cs.tileDimensions);
    FloorDivBounds(TileImageSize * dy, cs.tileDimensions);
    Point((TileImageSize * dx) / cs.tileDimensions, (TileImageSize * dy) / cs.tileDimensions)
  }

  /** `continent_to_sector_image_rect`: both corners through the point transform. */
  function ContinentToSectorImageRect(cs: CoordinateSystem, r: Rect): (img: Rect)
    requires Valid(cs)
    ensures img.topLeft == ContinentToSectorImage(cs, r.topLeft)
    ensures img.bottomRight == ContinentToSectorImage(cs, r.bottomRight)
  {
    Rect(ContinentToSectorImage(cs, r.topLeft), ContinentToSectorImage(cs, r.bottomRight))
  }

  /** `is_point_contained_in_sector`: strictly inside, the sector's edges excluded. */
  predicate IsPointContained(cs: CoordinateSystem, c: Point)
  {
    && cs.sectorTopLeft.x < c.x < cs.sectorBottomRight.x
    && cs.sectorTopLeft.y < c.y < cs.sectorBottomRight.y
  }

  /** `is_rect_contained_in_sector`: both corners strictly inside. */
  predicate IsRectContained(cs: CoordinateSystem, r: Rect)
  {
    IsPointContained(cs, r.topLeft) && IsPointContained(cs, r.bottomRight)
  }

  /** Points on an edge or corner of the sector are never contained. */
  lemma EdgeNotContained(cs: CoordinateSystem, c: Point)
    requires c.x == cs.sectorTopLeft.x || c.x == cs.sectorBottomRight.x
          || c.y == cs.sectorTopLeft.y || c.y == cs.sectorBottomRight.y
    ensures !IsPointContained(cs, c)
  {
  }

  /** A contained rect contains only contained points: nothing of it touches the sector's edge. */
  lemma ContainedRectInterior(cs: CoordinateSystem, r: Rect, c: Point)
    requires IsRectContained(cs, r)
    requires r.topLeft.x <= c.x <= r.bottomRight.x && r.topLeft.y <= c.y <= r.bottomRight.y
    ensures IsPointContained(cs, c)
  {
  }

  lemma TileMonotone(cs: CoordinateSystem, a: Point, b: Point)
    requires Valid(cs)
    requires a.x <= b.x && a.y <= b.y
    ensures ContinentToTile(cs, a).x <= ContinentToTile(cs, b).x
    ensures ContinentToTile(cs, a).y <= ContinentToTile(cs, b).y
  {
    FloorDivMonotone(a.x, b.x, cs.tileDimensions);
    FloorDivMonotone(a.y, b.y, cs.tileDimensions);
  }

  lemma SectorImageMonotone(cs: CoordinateSystem, a: Point, b: Point)
    requires Valid(cs)
    requires a.x <= b.x && a.y <= b.y
    ensures ContinentToSectorImage(cs, a).x <= ContinentToSectorImage(cs, b).x
    ensures ContinentToSectorImage(cs, a).y <= ContinentToSectorImage(cs, b).y
  {
    var tl := cs.sectorTopLeft;
    FloorDivMonotone(TileImageSize * (a.x - tl.x), TileImageSize * (b.x - tl.x), cs.tileDimensions);
    FloorDivMonotone(TileImageSize * (a.y - tl.y), TileImageSize * (b.y - tl.y), cs.tileDimensions);
  }

  /** The sector transform is the full-image transform of the offset from the sector's top-left. */
  lemma SectorImageIsShiftedFullImage(cs: CoordinateSystem, c: Point)
    requires Valid(cs)
    ensures ContinentToSectorImage(cs, c)
         == ContinentToFullImage(cs, Point(c.x - cs.sectorTopLeft.x, c.y - cs.sectorTopLeft.y))
  {
  }

  /** The sector's top-left corner is pixel (0, 0) of the sector image. */
  lemma SectorTopLeftIsOrigin(cs: CoordinateSystem)
    requires Valid(cs)
    ensures ContinentToSectorImage(cs, cs.sectorTopLeft) == Point(0, 0)
  {
  }

  /**
   * A contained point lands inside the sector image, whose size is the
   * full-image transform of the sector dimensions.
   */
  lemma ContainedPointInSectorImage(cs: CoordinateSystem, c: Point)
    requires Valid(cs)
    requires IsPointContained(cs, c)
    ensures var px := ContinentToSectorImage(cs, c);
            var size := ContinentToFullImage(cs, cs.sectorDimensions);
            0 <= px.x <= size.x && 0 <= px.y <= size.y
  {
    var tl := cs.sectorTopLeft;
    var td := cs.tileDimensions;
    FloorDivMonotone(0, TileImageSize * (c.x - tl.x), td);
    FloorDivMonotone(0, TileImageSize * (c.y - tl.y), td);
    FloorDivMonotone(TileImageSize * (c.x - tl.x), TileImageSize * cs.sectorDimensions.x, td);
    FloorDivMonotone(TileImageSize * (c.y - tl.y), TileImageSize * cs.sectorDimensions.y, td);
  }

  /** The first continent coordinate of a tile maps back to that tile. */
  lemma TileRoundTrip(cs: CoordinateSystem, t: Point)
    requires Valid(cs)
    ensures ContinentToTile(cs, Point(cs.tileDimensions * t.x, cs.tileDimensions * t.y)) == t
  {
    MulDivCancel(t.x, cs.tileDimensions);
    MulDivCancel(t.y, cs.tileDimensions);
  }

  /** Pixels and tiles share one scale: the pixel's tile index is the coordinate's tile. */
  lemma FullImagePixelInTile(cs: CoordinateSystem, c: Point)
    requires Valid(cs)
    ensures ContinentToFullImage(cs, c).x / TileImageSize == ContinentToTile(cs, c).x
    ensures ContinentToFullImage(cs, c).y / TileImageSize == ContinentToTile(cs, c).y
  {
    PixelTileAxis(c.x, cs.tileDimensions);
    PixelTileAxis(c.y, cs.tileDimensions);
  }

  lemma PixelTileAxis(a: int, td: int)
    requires td > 0
    ensures ((TileImageSize * a) / td) / TileImageSize == a / td
  {
    FloorDivNested(TileImageSize * a, td, TileImageSize);
    var q := a / td;
    FloorDivBounds(a, td);
    assert (td * TileImageSize) * q <= TileImageSize * a < (td * TileImageSize) * q + td * TileImageSize;
    FloorDivUnique(TileImageSize * a, td * TileImageSize, q);
  }
}
