/**
 * The stand-alone tile script main.py: `get_tile_path` builds a tile path
 * from the leading given arguments, and `generate_maps` assembles, for each
 * requested zoom, the whole tile grid of continent 1, floor 1 into one image.
 * The tile counts come from scanning the tile directories, which is I/O:
 * they are a parameter here.
 */
module TileScript {
  import opened Basics
  import opened Text
  import opened Canvas
  import opened TileGrid
  import MapGenerator
  import ContinentMapGenerator

  const TileSize: int := 256
  const ScriptContinent: int := 1
  const ScriptFloor: int := 1

  /** The leading given arguments, as strings, up to the first missing one. */
  function LeadingParts(args: seq<Option<int>>): (parts: seq<string>)
    ensures |parts| <= |args|
  {
    if |args| == 0 || args[0].None? then []
    else [IntToString(args[0].value)] + LeadingParts(args[1..])
  }

  /** Each leading part is the string of a given argument, and the first argument past them is missing. */
  lemma {:induction false} LeadingPartsGiven(args: seq<Option<int>>)
    ensures var parts := LeadingParts(args);
            (forall k :: 0 <= k < |parts| ==> args[k].Some? && parts[k] == IntToString(args[k].value)) &&
            (|parts| < |args| ==> args[|parts|].None?)
  {
    if |args| > 0 && args[0].Some? {
      LeadingPartsGiven(args[1..]);
    }
  }

  /** The path `get_tile_path` returns. */
  function TilePath(tiles: string, continent: Option<int>, floor: Option<int>, zoom: Option<int>,
                    x: Option<int>, y: Option<int>): string
  {
    var joined := Join([tiles] + LeadingParts([continent, floor, zoom, x, y]), "/");
    if y.None? then joined else joined + ".jpg"
  }

  /** `get_tile_path`: appends each argument until the first missing one, '.jpg' when y is given. */
  method GetTilePath(tiles: string, continent: Option<int>, floor: Option<int>, zoom: Option<int>,
                     x: Option<int>, y: Option<int>) returns (path: string)
    ensures path == TilePath(tiles, continent, floor, zoom, x, y)
  {
    var args := [continent, floor, zoom, x, y];
    ghost var leading := LeadingParts(args);
    LeadingPartsGiven(args);
    var parts := [tiles];
    var i := 0;
    while i < |args|
      invariant 0 <= i <= |leading|
      invariant parts == [tiles] + leading[..i]
    {
      if args[i].None? {
        break;
      }
      parts := parts + [IntToString(args[i].value)];
      i := i + 1;
    }
    assert leading[..i] == leading;
    if y.None? {
      path := Join(parts, "/");
    } else {
      path := Join(parts, "/") + ".jpg";
    }
  }

  /** A missing continent leaves the tiles directory alone (with '.jpg' when y is given). */
  lemma TilePathWithoutContinent(tiles: string, floor: Option<int>, zoom: Option<int>, x: Option<int>, y: Option<int>)
    ensures TilePath(tiles, None, floor, zoom, x, y) == if y.None? then tiles else tiles + ".jpg"
  {
  }

  /** The path ends in '.jpg' exactly when y is given, whatever came before it. */
  lemma TilePathExtension(tiles: string, continent: Option<int>, floor: Option<int>, zoom: Option<int>,
                          x: Option<int>, y: Option<int>)
    ensures var path := TilePath(tiles, continent, floor, zoom, x, y);
            y.Some? ==> |path| >= 4 && path[|path| - 4..] == ".jpg"
  {
  }

  /** With every argument given, each one becomes a component. */
  lemma LeadingPartsAllGiven(continent: int, floor: int, zoom: int, x: int, y: int)
    ensures LeadingParts([Some(continent), Some(floor), Some(zoom), Some(x), Some(y)])
         == [IntToString(continent), IntToString(floor), IntToString(zoom), IntToString(x), IntToString(y)]
  {
    var args := [Some(continent), Some(floor), Some(zoom), Some(x), Some(y)];
    assert args[1..][1..][1..][1..][1..] == [];
    assert LeadingParts(args[1..][1..][1..][1..]) == [IntToString(y)];
    assert LeadingParts(args[1..][1..][1..]) == [IntToString(x), IntToString(y)];
    assert LeadingParts(args[1..][1..]) == [IntToString(zoom), IntToString(x), IntToString(y)];
  }

  /**
   * With all five arguments the path is "tiles/c/f/z/x/y.jpg", the local
   * tile layout the map generators read.
   */
  lemma FullTilePath(tiles: string, continent: int, floor: int, zoom: int, x: int, y: int)
    ensures TilePath(tiles, Some(continent), Some(floor), Some(zoom), Some(x), Some(y))
         == MapGenerator.LocalTilePath(tiles, MapGenerator.TileKey(continent, floor, zoom, x, y))
  {
    var k := MapGenerator.TileKey(continent, floor, zoom, x, y);
    var leading := LeadingParts([Some(continent), Some(floor), Some(zoom), Some(x), Some(y)]);
    var ys := IntToString(y);
    var rest := MapGenerator.TilePathParts(k);
    var init := rest[..4];
    LeadingPartsAllGiven(continent, floor, zoom, x, y);
    assert leading == init + [ys];
    assert rest == init + [ys + ".jpg"];
    MapGenerator.LocalTilePathParts(tiles, k);
    JoinCons(tiles, leading, "/");
    JoinSnoc(init, ys, "/");
    JoinSnoc(init, ys + ".jpg", "/");
    var j := Join(init, "/");
    assert Join([tiles] + leading, "/") + ".jpg" == tiles + "/" + (j + "/" + ys) + ".jpg";
    assert tiles + "/" + (j + "/" + ys) + ".jpg" == tiles + "/" + (j + "/" + (ys + ".jpg"));
  }

  /** The tile file a zoom's grid reads: `Image.open(get_tile_path(...))`, 256 x 256. */
  function TileFile(tiles: string, z: int): (int, int) -> Raster
  {
    (x, y) => FileImage(TilePath(tiles, Some(ScriptContinent), Some(ScriptFloor), Some(z), Some(x), Some(y)),
                        Point(TileSize, TileSize))
  }

  /** The paste of tile (x, y) of one zoom. */
  function ZoomTilePaste(tiles: string, z: int): (int, int) -> DrawOp
  {
    Pastes(TileFile(tiles, z), ContinentMapGenerator.GridOffsets(TileSize))
  }

  /** The pastes of one zoom: every tile of the grid at (x * 256, y * 256), x outer. */
  function ZoomPastes(tiles: string, z: int, maxX: int, maxY: int): seq<DrawOp>
  {
    Grid(0, maxX, 0, maxY, ZoomTilePaste(tiles, z))
  }

  /** One step of the inner loop: `paste(Image.open(get_tile_path(...)), (x * 256, y * 256))`. */
  method PasteTile(image: Image, tiles: string, z: int, x: int, y: int)
    modifies image
    ensures image.size == old(image.size)
    ensures image.ops == old(image.ops) + [ZoomTilePaste(tiles, z)(x, y)]
  {
    var path := GetTilePath(tiles, Some(ScriptContinent), Some(ScriptFloor), Some(z), Some(x), Some(y));
    image.Paste(FileImage(path, Point(TileSize, TileSize)), Point(x * TileSize, y * TileSize));
  }

  /** The inner loop of `generate_maps`: column x of one zoom. */
  method RenderColumn(image: Image, tiles: string, z: int, x: int, maxY: int)
    modifies image
    ensures image.size == old(image.size)
    ensures image.ops == old(image.ops) + Column(x, 0, maxY, ZoomTilePaste(tiles, z))
  {
    ghost var f := ZoomTilePaste(tiles, z);
    var y := 0;
    while y < maxY
      invariant maxY <= 0 ==> y == 0
      invariant 0 < maxY ==> 0 <= y <= maxY
      invariant image.size == old(image.size)
      invariant image.ops == old(image.ops) + Column(x, 0, y, f)
    {
      PasteTile(image, tiles, z, x, y);
      ColumnSnoc(x, 0, y, f);
      ConcatAssoc(old(image.ops), Column(x, 0, y, f), [f(x, y)]);
      y := y + 1;
    }
  }

  /** The body of `generate_maps`' zoom loop, up to the save: a canvas of 256 * max_x by 256 * max_y. */
  method RenderZoom(tiles: string, z: int, maxX: int, maxY: int) returns (image: Image)
    ensures fresh(image)
    ensures image.size == Point(TileSize * maxX, TileSize * maxY)
    ensures image.ops == ZoomPastes(tiles, z, maxX, maxY)
  {
    ghost var f := ZoomTilePaste(tiles, z);
    image := new Image(Point(TileSize * maxX, TileSize * maxY));
    ghost var size := image.size;
    var x := 0;
    while x < maxX
      invariant maxX <= 0 ==> x == 0
      invariant 0 < maxX ==> 0 <= x <= maxX
      invariant image.size == size
      invariant image.ops == Grid(0, x, 0, maxY, f)
    {
      RenderColumn(image, tiles, z, x, maxY);
      GridSnoc(0, x, 0, maxY, f);
      x := x + 1;
    }
  }

  /** The output file of one zoom. */
  function OutputFile(output: string, z: int): string
  {
    output + "/map_" + IntToString(z) + ".png"
  }

  /** What one zoom saves: its file name and the assembled image. */
  function ZoomOutput(tiles: string, output: string, z: int, count: (int, int)): (string, Raster)
  {
    (OutputFile(output, z),
     Snapshot(Point(TileSize * count.0, TileSize * count.1), ZoomPastes(tiles, z, count.0, count.1)))
  }

  /**
   * `generate_maps`' loop over the requested zooms: each zoom's image, saved
   * under `{output}/map_{z}.png`, in request order. `counts` stands for the
   * directory scan of `get_tile_count`.
   */
  method GenerateMaps(tiles: string, output: string, zooms: seq<int>, counts: int -> (int, int))
    returns (saved: seq<(string, Raster)>)
    ensures |saved| == |zooms|
    ensures forall k :: 0 <= k < |zooms| ==> saved[k] == ZoomOutput(tiles, output, zooms[k], counts(zooms[k]))
  {
    saved := [];
    for i := 0 to |zooms|
      invariant |saved| == i
      invariant forall k :: 0 <= k < i ==> saved[k] == ZoomOutput(tiles, output, zooms[k], counts(zooms[k]))
    {
      var out := SaveZoom(tiles, output, zooms[i], counts(zooms[i]));
      saved := saved + [out];
    }
  }

  /** One iteration of `generate_maps`' zoom loop: the file name and the image it saves. */
  method SaveZoom(tiles: string, output: string, z: int, count: (int, int)) returns (out: (string, Raster))
    ensures out == ZoomOutput(tiles, output, z, count)
  {
    var image := RenderZoom(tiles, z, count.0, count.1);
    out := (OutputFile(output, z), image.AsRaster());
  }
}
