/**
 * The older continent parameters of data/continents.py: the tile grid at the
 * minimum zoom, how it grows with zoom, and the continent's full extent.
 */
module Continents {
  import opened Basics

  /**
   * `tileCoordSizeMinZoom` continent units per tile at `minZoom`, and a grid
   * of `tileDimensionsMinZoom` tiles at that zoom. The source's float
   * `zoom_factor` field (1/2) is never read and is left out.
   */
  datatype MapParameters = MapParameters(
    tileCoordSizeMinZoom: int,
    tileDimensionsMinZoom: Point,
    minZoom: int,
    maxZoom: int,
    tileImageSize: int)

  /** `MapParameters(2 ** 14, (5, 7), 1, 7)`, the only entry of `continent_map_params`. */
  const Continent1: MapParameters := MapParameters(Pow2(14), Point(5, 7), 1, 7, 256)

  /** `continent_map_params`: continent id to parameters. */
  const ContinentMapParams: map<int, MapParameters> := map[1 := Continent1]

  /** `full_coord_size`: the extent of the continent in continent units. */
  function FullCoordSize(p: MapParameters): (size: Point)
  {
    Point(p.tileDimensionsMinZoom.x * p.tileCoordSizeMinZoom, p.tileDimensionsMinZoom.y * p.tileCoordSizeMinZoom)
  }

  /** `check_zoom`: the error it raises, if any. */
  function CheckZoom(p: MapParameters, zoom: int): (r: Option<Error>)
    ensures r.Some? <==> zoom < p.minZoom || zoom > p.maxZoom
    ensures r.Some? ==> r.value == InvalidZoom
  {
    if zoom < p.minZoom || zoom > p.maxZoom then Some(InvalidZoom) else None
  }

  /** `get_tile_count`: checks the zoom, then scales the min-zoom grid by 2^(zoom - minZoom). */
  function GetTileCount(p: MapParameters, zoom: int): (r: Result<Point>)
    ensures r.Err? <==> CheckZoom(p, zoom).Some?
    ensures r.Err? ==> r.error == InvalidZoom
  {
    match CheckZoom(p, zoom)
    case Some(e) => Err(e)
    case None =>
      var k := Pow2(zoom - p.minZoom);
      Ok(Point(p.tileDimensionsMinZoom.x * k, p.tileDimensionsMinZoom.y * k))
  }

  /** At the minimum zoom the grid is the configured one. */
  lemma TileCountAtMinZoom(p: MapParameters)
    requires p.minZoom <= p.maxZoom
    ensures GetTileCount(p, p.minZoom) == Ok(p.tileDimensionsMinZoom)
  {
  }

  /** Each zoom step doubles the grid on both axes. */
  lemma TileCountDoubles(p: MapParameters, zoom: int)
    requires p.minZoom <= zoom < p.maxZoom
    ensures GetTileCount(p, zoom).Ok? && GetTileCount(p, zoom + 1).Ok?
    ensures GetTileCount(p, zoom + 1).value.x == 2 * GetTileCount(p, zoom).value.x
    ensures GetTileCount(p, zoom + 1).value.y == 2 * GetTileCount(p, zoom).value.y
  {
    assert Pow2(zoom + 1 - p.minZoom) == 2 * Pow2(zoom - p.minZoom);
  }

  /**
   * The continent's extent does not depend on zoom: tile count times the
   * units one tile covers at that zoom (the min-zoom size halved per step)
   * is the full size.
   */
  lemma {:induction false} FullSizeAtEveryZoom(p: MapParameters, zoom: int)
    requires p.minZoom <= zoom <= p.maxZoom
    requires p.tileCoordSizeMinZoom % Pow2(zoom - p.minZoom) == 0
    ensures var count := GetTileCount(p, zoom).value;
            var unitsPerTile := p.tileCoordSizeMinZoom / Pow2(zoom - p.minZoom);
            Point(count.x * unitsPerTile, count.y * unitsPerTile) == FullCoordSize(p)
  {
    var k := Pow2(zoom - p.minZoom);
    var u := p.tileCoordSizeMinZoom / k;
    assert u * k == p.tileCoordSizeMinZoom;
    var d := p.tileDimensionsMinZoom;
    assert (d.x * k) * u == d.x * (u * k);
    assert (d.y * k) * u == d.y * (u * k);
  }

  lemma Continent1Values()
    ensures GetTileCount(Continent1, 1) == Ok(Point(5, 7))
    ensures GetTileCount(Continent1, 7) == Ok(Point(320, 448))
    ensures GetTileCount(Continent1, 0).Err? && GetTileCount(Continent1, 8).Err?
    ensures FullCoordSize(Continent1) == Point(81920, 114688)
  {
    assert Pow2(6) == 64;
    assert Pow2(14) == 16384;
  }
}
