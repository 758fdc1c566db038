# gw2-zone-map in Dafny

A model of the core of gw2-zone-map, a Python tool that renders large map
images of a game world. It stitches map tiles into a canvas, composes
multi-sector layouts, and draws zone boundaries, wrapped zone labels and
portal icons on top. The model covers these parts:

- **The map coordinate system** (`MapCoordinates`, `Continents`): the
  constructor's zoom and sector checks; the transforms from continent
  coordinates to tile indices, whole-continent pixels and sector pixels,
  as exact integer floor divisions; strict containment.
- **Tile assembly** (`TileGrid`, `MapGenerator`, `ContinentMapGenerator`,
  `TileScript`): the nested tile loops, each tile fetched once and pasted
  at an offset computed from its own indices; the local tile path formats;
  `get_tile_path` of the stand-alone script.
- **The compositor** (`MapComposite`): the bounding canvas, the 7-pixel
  seam outlines and the paste order.
- **The label layout engine** (`OverlayUtil`, `ZoneOverlay`,
  `MasteryOverlay`, `LegacyOverlay`): the clamped sizes, both greedy word
  wraps and the wrap-width choice; anchor validation and paste positions;
  sub-label composition and segment offsets; pie-slice angles of blended
  icons; zone selection and the draw order of the three overlays.
- **Zone-data preparation** (`DataApi`, `Zones`, `ZoneMap`): list chunking,
  category tagging and per-zone overrides when loading; blacklist filtering,
  override precedence and custom zones; layout choice, overlay lookup and
  output names.

Shared helpers: `Basics` covers Option/Result, points, rectangles, floor
division, clamps and Python's round. `Canvas` models an image as its size
plus the log of drawing operations. `Sorting` is an in-place sort by an
(order, id) key. `Text` holds Python's join, split, strip, splitlines and
str.

Each module says in its header which source file it models. The conventions:

- Python exceptions become `Err` values of a `Result`, or an
  `Option<Error>`.
- Objects the source mutates are Dafny classes (`Canvas.Image`) or arrays.
  This covers the zone lists sorted in place and the custom zones whose
  ids are written.
- Fonts enter only through their measurements. `getlength` is an
  uninterpreted function; `getmetrics` gives an ascent and a descent.
- The tile source, the map API, the label images' ink boxes and the
  scanned tile counts are parameters.

## Model

| member | source | states |
|---|---|---|
| MapCoordinates.SingleSector | mapgen/map_coordinates.py:33-35 | the layout has exactly one part: the given sector, at offset (0, 0) |
| MapCoordinates.NewCoordinateSystem | mapgen/map_coordinates.py:39-58 | the zoom error exactly when the zoom is outside [min_zoom, max_zoom]; otherwise the bounds error exactly when the sector leaves the full rect; otherwise the ordering error exactly when the sector is not strictly ordered; otherwise a division by zero exactly when the max-zoom tile edge is 0; else a valid system with the sector's corners, the given parameters and zoom |
| MapCoordinates.SectorDimensionsAtLeastTwo | mapgen/map_coordinates.py:47-56 | an accepted sector is at least 2 units on each axis, and its dimensions are the sector's width and height plus one |
| MapCoordinates.FullExtentSector | mapgen/map_coordinates.py:43-44 | with no sector rect the whole continent is used: accepted exactly when it is at least 2 x 2, with top-left (0, 0) and the continent's dimensions |
| MapCoordinates.ContinentToTile | mapgen/map_coordinates.py:60-62 | the tile index is the one whose range of continent units [td * t, td * t + td) holds the coordinate, on each axis |
| MapCoordinates.ContinentToFullImage | mapgen/map_coordinates.py:64-66 | the pixel is the floor of 256 * c / td on each axis |
| MapCoordinates.ContinentToSectorImage | mapgen/map_coordinates.py:68-70 | the pixel is the floor of 256 * (c - sector top-left) / td on each axis |
| MapCoordinates.ContinentToSectorImageRect | mapgen/map_coordinates.py:72-74 | both corners are transformed by the sector transform |
| MapCoordinates.EdgeNotContained | mapgen/map_coordinates.py:76-77 | a point on the sector's left or right edge is not contained (the test is strict) |
| MapCoordinates.ContainedRectInterior | mapgen/map_coordinates.py:79-80 | every point between the corners of a contained rect is contained |
| MapCoordinates.TileMonotone | mapgen/map_coordinates.py:60-62 | the tile transform is monotone on each axis |
| MapCoordinates.SectorImageMonotone | mapgen/map_coordinates.py:68-70 | the sector-image transform is monotone on each axis |
| MapCoordinates.SectorImageIsShiftedFullImage | mapgen/map_coordinates.py:64-70 | the sector transform is the full-image transform of the offset from the sector's top-left |
| MapCoordinates.SectorTopLeftIsOrigin | mapgen/map_coordinates.py:68-70 | the sector's top-left corner maps to pixel (0, 0) |
| MapCoordinates.ContainedPointInSectorImage | mapgen/map_coordinates.py:68-77 | a contained point lands inside the image of the sector dimensions |
| MapCoordinates.TileRoundTrip | mapgen/map_coordinates.py:53-62 | the first continent unit of tile t maps back to tile t |
| MapCoordinates.FullImagePixelInTile | mapgen/map_coordinates.py:55-66 | the full-image pixel lies in the 256-pixel tile the tile transform names |
| Continents.CheckZoom | data/continents.py:21-23 | an error exactly when the zoom is below min_zoom or above max_zoom, and it is the zoom error |
| Continents.GetTileCount | data/continents.py:17-19 | fails exactly when check_zoom does, with the same error |
| Continents.TileCountAtMinZoom | data/continents.py:17-19 | at min_zoom the count is the min-zoom tile dimensions |
| Continents.TileCountDoubles | data/continents.py:17-19 | each zoom step doubles the count on both axes |
| Continents.FullSizeAtEveryZoom | data/continents.py:14-19 | tile count times the units per tile at that zoom is full_coord_size, at every valid zoom |
| Continents.Continent1Values | data/continents.py:26-28 | continent 1: 5 x 7 tiles at zoom 1, 320 x 448 at zoom 7, zooms 0 and 8 rejected, 81920 x 114688 units |
| ContinentMapGenerator.GenerateMapImage | map/map_generator.py:29-40 | the zoom error exactly when check_zoom fails, before any tile is read; otherwise a fresh canvas of count * tile_image_size per axis holding one paste per tile, x outer, tile (x, y) at (x * size, y * size) |
| ContinentMapGenerator.AxisCover | map/map_generator.py:38 | on one axis, tile t's paste covers pixel q exactly when t is q's tile (q floor-divided by the size) |
| ContinentMapGenerator.PasteCoversIff | map/map_generator.py:35-38 | in the paste sequence, paste i covers pixel q exactly when i is the index of q's tile |
| ContinentMapGenerator.TilesPartitionCanvas | map/map_generator.py:32-38 | with square tiles of the configured size, every pixel of the canvas is covered by exactly one paste, that of its tile |
| TileGrid.PasteGrid | map/map_generator.py:35-38 | the nested loops append one paste per (x, y) of the range, x outer, y inner, each tile at its offset; the size is unchanged |
| TileGrid.PasteColumn | map/map_generator.py:36-38 | the inner loop appends the pastes of column x, y ascending |
| TileGrid.GridLength | map/map_generator.py:35-36 | the loops make (x1 - x0) * (y1 - y0) steps |
| TileGrid.GridAt | map/map_generator.py:35-36 | step i is tile (x0 + i / n, y0 + i % n), n the column height |
| TileGrid.GridIndexOf | map/map_generator.py:35-36 | tile (x, y) of the range is step (x - x0) * n + (y - y0): every tile is visited |
| TileGrid.ColumnAt | map/map_generator.py:36 | step k of a column is tile (x, y0 + k) |
| TileGrid.GridSnoc | map/map_generator.py:35-36 | one more x appends one whole column |
| TileGrid.ColumnSnoc | map/map_generator.py:36 | one more y appends one tile |
| MapGenerator.LocalTilePathParts | mapgen/map_generator.py:20-21 | the local tile path is the directory, then continent, floor, zoom, x and y + ".jpg" joined with '/' |
| MapGenerator.TilePathPartsPlain | mapgen/map_generator.py:20-21 | no component of the path after the directory contains '/' |
| MapGenerator.LocalTilePathInjective | mapgen/map_generator.py:20-21 | two tile keys with the same local path are the same key |
| MapGenerator.TileRange | mapgen/map_generator.py:32-33 | the tile range runs from the tile of the sector's top-left to the tile of its bottom-right, and is ordered on both axes |
| MapGenerator.GenerateMapImage | mapgen/map_generator.py:28-41 | a fresh canvas of the full-image size of the sector dimensions, holding one paste per tile of the range, x outer, each at its tile pixel minus the sector's top-left pixel |
| MapGenerator.TilePasteOf | mapgen/map_generator.py:36-39 | tile (x, y) of the range is pasted once, at step (x - x0) * height + (y - y0), at (x * 256 - origin.x, y * 256 - origin.y) |
| MapGenerator.FirstTileOffset | mapgen/map_generator.py:32-39 | the first tile lands at most one tile up and left of the canvas origin |
| MapGenerator.AxisCovered | mapgen/map_generator.py:29-36 | on one axis, every canvas pixel falls in a tile between the corners' tiles |
| MapGenerator.TilesCoverCanvas | mapgen/map_generator.py:28-41 | with 256 x 256 tiles every canvas pixel is covered by some paste: the sector image has no gap |
| MapComposite.Extent | mapgen/map_composite.py:5-6 | the total size bounds every part's far corner on each axis, and some part reaches it on each axis |
| MapComposite.TotalSize | mapgen/map_composite.py:5-6 | `max` over no parts raises: an error exactly for the empty list; otherwise the extent of the parts |
| MapComposite.CombinePartImages | mapgen/map_composite.py:4-22 | fails exactly for the empty list; otherwise a fresh canvas of the total size holding, per part in list order, its outline rectangle then its paste |
| MapComposite.SinglePartAtOrigin | mapgen/map_composite.py:5-6 | one part at (0, 0) gives a canvas of exactly its size |
| MapComposite.FootprintsInCanvas | mapgen/map_composite.py:5-20 | a part at a non-negative offset lies inside the canvas |
| MapComposite.OutlineFramesPart | mapgen/map_composite.py:10-19 | a pixel is in the part's footprint exactly when it is at least the outline width inside the outline rectangle |
| MapComposite.PartOpsAt | mapgen/map_composite.py:12-20 | part j's outline is draw 2j and its paste draw 2j + 1 |
| MapComposite.PartOpsLength | mapgen/map_composite.py:12-20 | each part draws twice |
| MapComposite.LaterPartsOnTop | mapgen/map_composite.py:12-20 | a pixel shows the last part in list order whose footprint holds it |
| DataApi.SplitList | mapgen/data_api.py:30-31 | `range` with step 0 raises: an error exactly when the size is 0; a negative size gives no chunks; a positive size gives ceil(len / n) chunks, chunk k being xs[k*n : k*n + n] clipped to the list |
| DataApi.ChunkStartInside | mapgen/data_api.py:31 | every chunk starts inside the list |
| DataApi.ChunkCountCovers | mapgen/data_api.py:31 | the chunks reach the end of the list, and there are none exactly when the list is empty |
| DataApi.ConcatChunksPrefix | mapgen/data_api.py:31 | the first m chunks concatenated are the list's first min(m * n, len) elements |
| DataApi.SplitListRoundTrip | mapgen/data_api.py:30-31 | concatenating the chunks gives back the list |
| DataApi.SplitListSizes | mapgen/data_api.py:30-31 | no chunks exactly for the empty list; every chunk but the last has exactly n elements, the last between 1 and n |
| DataApi.RequestsCoverIds | mapgen/data_api.py:9-20 | the pages of at most 200 ids requested, in order, are exactly all the listed ids |
| DataApi.AllZoneIdsMembers | mapgen/data_api.py:15 | an id is listed exactly when some category lists it |
| DataApi.CategoriesByIdDomain | mapgen/data_api.py:15-16 | the category map has exactly the listed ids as keys |
| DataApi.CategoriesByIdLastWins | mapgen/data_api.py:16 | an id listed under several categories gets the last one, as the dict comprehension overwrites |
| DataApi.LoadedZone | mapgen/data_api.py:22-24 | a missing id or an id without a category is a missing-key error; otherwise the category is set, and the record is merged with its override exactly when overrides are used and there is one (the override's fields win) |
| DataApi.LoadZonesMeaning | mapgen/data_api.py:21-25 | loading fails exactly when one record fails, and otherwise record i of the result is record i loaded |
| DataApi.LoadFailsAt | mapgen/data_api.py:21-25 | one bad record fails the whole load |
| DataApi.LoadZonesPrefixError | mapgen/data_api.py:20-25 | a failure in earlier records is a failure of the whole load |
| DataApi.FetchedAppend | mapgen/data_api.py:20-21 | the records of two runs of requests are those of each run, in order |
| DataApi.LoadZonesSnoc | mapgen/data_api.py:25 | a good record appends its loaded form |
| DataApi.PagesSizes | mapgen/data_api.py:9-20 | every prefix of the requests is made of pages of 1 to 200 ids |
| DataApi.LoadRecord | mapgen/data_api.py:22-24 | the loop body computes the loaded record, or the missing-key error |
| DataApi.LoadPage | mapgen/data_api.py:21-25 | the inner loop over one page's records extends the load of the records before it by the page's records, or fails exactly as loading all of them would |
| DataApi.LoadNextPage | mapgen/data_api.py:20-25 | one outer iteration: on success the load of the pages so far, on error an error that the whole load also gives |
| DataApi.LoadZoneData | mapgen/data_api.py:12-27 | the requests sent are a prefix of the pages of at most 200 ids (all of them on success); the result is the load of every returned record in request order, and an error only when that load fails |
| DataApi.LoadFailsForAll | mapgen/data_api.py:20-25 | a failure in the first pages is a failure of the whole load |
| Zones.Merge | mapgen/data_api.py:23 | the dict union `z \| o`: every key the override sets takes the override's value |
| Zones.MergeKeepsUnset | gw2_zone_map.py:137-140 | every key the override leaves unset keeps the record's value |
| Zones.MergeNothing | gw2_zone_map.py:137 | the union with an empty override is the record itself |
| Zones.MergeTwice | gw2_zone_map.py:137-140 | merging two overrides in turn is merging their union once, the later one winning |
| Zones.MergeIdempotent | gw2_zone_map.py:137-140 | merging the same override twice is merging it once |
| ZoneMap.LookUpOverlay | gw2_zone_map.py:85-87 | an error exactly for a name not in the registry; otherwise the registered overlay |
| ZoneMap.DefaultOverlaysRegistered | gw2_zone_map.py:85-87 | the default overlays `zone_access` and `mastery` are registered |
| ZoneMap.Overridden | gw2_zone_map.py:137-140 | with neither a general nor a conditional override the record is unchanged |
| ZoneMap.OverridePrecedence | gw2_zone_map.py:137-140 | each key takes the conditional override's value if set, else the general override's, else the loaded record's |
| ZoneMap.OverrideLoaded | gw2_zone_map.py:133-141 | an error exactly when some loaded record has no id (the lookups raise); otherwise at most one record per input record |
| ZoneMap.OverrideLoadedAppend | gw2_zone_map.py:133-141 | the loop is a map over a filter: two runs of records are overridden run by run, in order |
| ZoneMap.OverrideLoadedSnoc | gw2_zone_map.py:133-141 | one more record adds nothing when blacklisted and its overridden form otherwise |
| ZoneMap.OverrideLoadedOne | gw2_zone_map.py:134-141 | a blacklisted record is dropped; any other gives exactly its overridden record |
| ZoneMap.OverriddenZonesHaveIds | gw2_zone_map.py:133-141 | every record that comes out has an id |
| ZoneMap.WithDefaultId | gw2_zone_map.py:145-146 | a custom zone without an id gets -1; one with an id is unchanged |
| ZoneMap.WithDefaultIdIdempotent | gw2_zone_map.py:145-146 | giving the default id twice is giving it once |
| ZoneMap.OverrideLoadedZones | gw2_zone_map.py:131-141 | the first loop computes the overridden loaded records, or the missing-key error |
| ZoneMap.DefaultCustomIds | gw2_zone_map.py:143-147 | each custom zone is given the default id in place, and all are returned in table order |
| ZoneMap.OverrideZoneData | gw2_zone_map.py:130-149 | an error exactly when a loaded record has no id, leaving the custom table untouched; otherwise the overridden loaded records, then the overlay's custom zones (each now with an id, written back into the table) |
| ZoneMap.NamedLayouts | gw2_zone_map.py:120-125 | an error exactly when some requested name is unknown; otherwise the requested layouts in request order, each paired with its name |
| ZoneMap.ChosenLayouts | gw2_zone_map.py:116-127 | a non-zero continent gives its single layout; with neither a continent nor layouts, the no-choice error |
| ZoneMap.ChooseMapLayouts | gw2_zone_map.py:116-127 | the loop over the requested names computes the chosen layouts, with the error on the first unknown name |
| ZoneMap.NamedLayoutsPrefixError | gw2_zone_map.py:121-123 | an unknown name among the first n fails the whole list |
| ZoneMap.ContinentLayoutShape | gw2_zone_map.py:117-118 | a continent's layout is one whole-continent sector at (0, 0) named "continent" + its id, and different continents get different names |
| ZoneMap.OutputName | gw2_zone_map.py:100-101 | the name is the output directory and '/', then the base name, ending in '.' + format, with no '.' left in the zoom part |
| ZoneMap.OutputNameZoomCollision | gw2_zone_map.py:100-101 | zoom texts "3.4" and "3-4" name the same file |
| ZoneMap.AssembleOverlayImage | gw2_zone_map.py:103-106 | one part is written as it is; several are combined into an image of their extent; none is the compositor's error |
| TileScript.LeadingParts | main.py:55-58 | at most one part per argument |
| TileScript.LeadingPartsGiven | main.py:55-58 | part k is `str` of argument k, and the first argument after the parts is missing: the loop stops at the first None |
| TileScript.GetTilePath | main.py:53-59 | the loop computes the tiles directory followed by the leading given arguments joined with '/', plus ".jpg" exactly when y is given |
| TileScript.TilePathWithoutContinent | main.py:53-59 | with no continent the path is the tiles directory (with ".jpg" when y is given) |
| TileScript.TilePathExtension | main.py:59 | the path ends in ".jpg" whenever y is given |
| TileScript.LeadingPartsAllGiven | main.py:54-58 | with all five arguments each becomes a component |
| TileScript.FullTilePath | main.py:53-59 | with all five arguments the path is the layout "dir/c/f/z/x/y.jpg" the local tile source of mapgen/map_generator.py reads |
| TileScript.PasteTile | main.py:37-38 | one inner step appends the paste of tile (x, y) of continent 1, floor 1, at (256 x, 256 y) |
| TileScript.RenderColumn | main.py:36-38 | the inner loop appends column x's pastes, y ascending |
| TileScript.RenderZoom | main.py:34-38 | a fresh canvas of 256 max_x by 256 max_y holding every tile's paste, x outer |
| TileScript.SaveZoom | main.py:33-40 | one zoom saves the assembled image under `{output}/map_{z}.png` |
| TileScript.GenerateMaps | main.py:32-41 | one saved image per requested zoom, in request order, each that zoom's file name and image |
| OverlayUtil.ZoomSizeMultiplier | mapgen/overlay/overlay_util.py:20-22 | the zoom-scaled multiplier is positive for a positive base multiplier and zero for a zero one |
| OverlayUtil.ZoomSizeMultiplierDoubles | mapgen/overlay/overlay_util.py:20-22 | one more zoom level doubles the multiplier (the zoom factor is 2) |
| OverlayUtil.ClampedSize | mapgen/overlay/overlay_util.py:25-47 | a clamped size lies in [lo, hi] and equals the rounded scaled value whenever that value is already inside the bounds |
| OverlayUtil.ClampedSizeMonotone | mapgen/overlay/overlay_util.py:25-47 | a larger multiplier never gives a smaller clamped size |
| OverlayUtil.MainLabelFontSize | mapgen/overlay/overlay_util.py:25-27 | the main label font size is between 8 and 64 |
| OverlayUtil.SubLabelFontSize | mapgen/overlay/overlay_util.py:30-32 | the sub label font size is between 8 and 32 |
| OverlayUtil.LegendFontSize | mapgen/overlay/overlay_util.py:35-37 | the legend font size is between 10 and 28 |
| OverlayUtil.IconSize | mapgen/overlay/overlay_util.py:40-42 | the icon size is between 12 and 32 |
| OverlayUtil.LineWidth | mapgen/overlay/overlay_util.py:45-47 | the boundary line width is between 1 and 32 |
| OverlayUtil.TextOutlineWidth | mapgen/overlay/overlay_util.py:50-52 | the text outline width is between 1 and 8 |
| OverlayUtil.MainLabelFontSizeMonotone | mapgen/overlay/overlay_util.py:25-27 | a larger scale factor never shrinks the main label font |
| OverlayUtil.WrapGroupsShape | mapgen/overlay/overlay_util.py:55-63 | wrapping only regroups words: concatenating the groups gives back the words, and no group is empty |
| OverlayUtil.WrapBreakRule | mapgen/overlay/overlay_util.py:59-62 | a new line is started only when the previous line has at least 3 characters and the joined line would be wider than the limit |
| OverlayUtil.WrapAcceptRule | mapgen/overlay/overlay_util.py:59-60 | every word kept on a line was accepted because the joined line fits the width or the line was shorter than 3 characters |
| OverlayUtil.JoinFlatten | mapgen/overlay/overlay_util.py:58-60 | joining the wrapped lines with spaces equals joining all the words with spaces |
| OverlayUtil.WrapTextRoundTrip | mapgen/overlay/overlay_util.py:55-63 | the wrapped lines joined with single spaces give back the original text |
| OverlayUtil.WrapTextEmpty | mapgen/overlay/overlay_util.py:56-57 | the empty text wraps to a single empty line |
| OverlayUtil.WrapStep | mapgen/overlay/overlay_util.py:58-62 | one more word either extends the last line or opens a new line holding just that word, following the fit rule |
| OverlayUtil.WrapLoopStep | mapgen/overlay/overlay_util.py:57-62 | one loop iteration turns the lines of the first i words into the lines of the first i + 1 words |
| OverlayUtil.GetWrappedTextLines | mapgen/overlay/overlay_util.py:55-63 | the loop's lines are exactly the wrapping of the text's space-separated words |
| OverlayUtil.WidthFactor | mapgen/overlay/overlay_util.py:73-76 | the clamped width factor (2 minus the clamped height ratio) lies between 1 and 2 |
| OverlayUtil.WidthFactorEnds | mapgen/overlay/overlay_util.py:73-76 | boxes no taller than the max-width height get factor 2, boxes at least as tall as the min-width height get factor 1 |
| OverlayUtil.WidthFactorMonotone | mapgen/overlay/overlay_util.py:75-76 | a taller box never gets a wider factor |
| OverlayUtil.IdealWidth | mapgen/overlay/overlay_util.py:76 | the ideal width lies between one and two box widths, less the zoom-scaled reserve |
| OverlayUtil.WrapWidth | mapgen/overlay/overlay_util.py:77-78 | the bounded width never exceeds the image width; below it, it is at least 4 ascents, at least the tolerance share of the box and at least the ideal lower bound; and it is at most the largest of those candidates |
| OverlayUtil.WrapPiecesAppend | mapgen/overlay/overlay_util.py:80-84 | wrapping a concatenation of input lines gives the concatenation of their wrappings |
| OverlayUtil.WrapPiecesLength | mapgen/overlay/overlay_util.py:80-84 | each input line yields at least one wrapped line |
| OverlayUtil.WrapLabelLines | mapgen/overlay/overlay_util.py:66-84 | no label gives no lines; a label fails exactly when the font ascent plus margin is 0 (a division by zero); otherwise it is wrapped line by line |
| OverlayUtil.WrapLabel | mapgen/overlay/overlay_util.py:66-84 | the loop over input lines returns exactly the wrapped label lines |
| OverlayUtil.WrapLabelSingleLine | mapgen/overlay/overlay_util.py:81-82 | a label without line breaks wraps as a single input line (no lines for the empty label) |
| OverlayUtil.ZoneLabelPastePosition | mapgen/overlay/overlay_util.py:100-117 | per anchor letter: left/right align the label with the rect's sides, middle centres it to within rounding, top/bottom align the text box with the rect's top/bottom (4 pixels up at the bottom), an unknown letter leaves 0 |
| OverlayUtil.LegendPastePosition | mapgen/overlay/overlay_util.py:120-132 | the legend box has the legend's size and sits the layout offset away from the left/top or right/bottom edge, or at 0 for other letters |
| OverlayUtil.LegendMirror | mapgen/overlay/overlay_util.py:120-132 | a right-bottom legend is the mirror image of a left-top legend with the same offset |
| OverlayUtil.BoundaryOutlineGrowth | mapgen/overlay/zone_overlay.py:107-109 | the boundary outline grows the zone rectangle by line width - 1 on each axis, at most one pixel more at the bottom-right, and encloses it for widths of at least 1 |
| OverlayUtil.GetZonePos | mapgen/overlay/overlay_util.py:135-146 | an invalid label anchor is an error exactly when one is given and is not two letters from lmr and tmb; otherwise the anchor defaults to mm and the rect to the label rect mapped to image coordinates, or else the zone's image rect |
| ZoneOverlay.KnownCategoriesPrefix | mapgen/overlay/zone_overlay.py:99-111 | every prefix of a zone list whose categories are all known has known categories |
| ZoneOverlay.SelectDrawn | mapgen/overlay/zone_overlay.py:100-114 | the drawn zones are never more than the input zones |
| ZoneOverlay.SelectDrawnMembers | mapgen/overlay/zone_overlay.py:103-114 | a zone entry is drawn exactly when some input zone lies inside the sector and maps to that entry |
| ZoneOverlay.SelectDrawnAppend | mapgen/overlay/zone_overlay.py:100-114 | selecting from a concatenation is the concatenation of the selections, so the order of the input is kept |
| ZoneOverlay.BoundaryOps | mapgen/overlay/zone_overlay.py:107-116 | one rectangle is drawn per drawn zone, in order, with that zone's outline rect, line width and colour |
| ZoneOverlay.SelectFirstIsPrefix | mapgen/overlay/zone_overlay.py:100-114 | the zones selected by the first n loop iterations are the selection of the first n zones |
| ZoneOverlay.OutlineZone | mapgen/overlay/zone_overlay.py:106-116 | one boundary step appends exactly the zone's outline rectangle and returns its drawn entry |
| ZoneOverlay.DrawBoundaries | mapgen/overlay/zone_overlay.py:100-116 | the boundary loop returns the selection of the zones inside the sector and appends exactly one outline per selected zone |
| ZoneOverlay.DrawOverlay | mapgen/overlay/zone_overlay.py:94-133 | a zone without a boundary order is an error (KeyError) that leaves zones and image unchanged; otherwise the zones are sorted by (boundary order, id) as a permutation, their outlines are drawn in that order, and the returned label list is a permutation of the drawn zones sorted by (label order, id) |
| ZoneOverlay.LabelSizeMultiplier | mapgen/overlay/zone_overlay.py:136 | the label scale is the zone's label size if given, else 0.85 for special categories and 1 otherwise, times the scale factor |
| ZoneOverlay.SubLabelLineMargin | mapgen/overlay/zone_overlay.py:143 | the sub-label margin `size // -8` is minus the size's eighth rounded up, between -4 and -1 for every sub-label font size |
| ZoneOverlay.SpecialLabelsNotLarger | mapgen/overlay/zone_overlay.py:136-137 | without a label size, a special category's main label font is never larger than an ordinary one's |
| ZoneOverlay.CollectTextLines | mapgen/overlay/zone_overlay.py:167-178 | one text line per name line then per sub line, each name line at i times (ascent + margin), the sub lines after the descent gap, spaced by ascent + descent + sub margin |
| ZoneOverlay.LineDraws | mapgen/overlay/zone_overlay.py:223-233 | one text draw per segment of the line, in order |
| ZoneOverlay.DrawTextLine | mapgen/overlay/zone_overlay.py:223-233 | the segment loop draws exactly the line's segment draws |
| ZoneOverlay.SegmentsLengthAdditive | mapgen/overlay/zone_overlay.py:226-233 | for an additive length measure, the sum of the segment lengths equals the length of the joined text |
| ZoneOverlay.AlignedLineEnds | mapgen/overlay/zone_overlay.py:224-233 | the segments cover exactly the full line length; a left-aligned line starts at the position, a right-aligned one ends there and a centred one is symmetric around it |
| ZoneOverlay.DrawLabelLines | mapgen/overlay/zone_overlay.py:181-182 | the lines are drawn in reverse order of collection |
| ZoneOverlay.FirstLineOnTop | mapgen/overlay/zone_overlay.py:161-181 | the first collected line's segments are the last draws, so it is painted on top |
| ZoneOverlay.ReversedDrawsEnd | mapgen/overlay/zone_overlay.py:181-182 | the draws end with exactly the first line's draws |
| ZoneOverlay.LevelTextDash | mapgen/overlay/zone_overlay.py:195 | the level text holds an en dash exactly when the minimum and maximum levels differ |
| ZoneOverlay.TypeText | mapgen/overlay/zone_overlay.py:189-195 | the category's label if it is non-empty, else the level text when levels are shown, else nothing |
| ZoneOverlay.OneSegmentLines | mapgen/overlay/zone_overlay.py:201-219 | one single-segment line per wrapped text line, with the given colour |
| ZoneOverlay.OneLine | mapgen/overlay/zone_overlay.py:209-213 | the single sub line starts with the access label in its colour, continues uncoloured, and reads as the single-line text |
| ZoneOverlay.AccessLinesFrom | mapgen/overlay/zone_overlay.py:209-220 | when the combined text fits on one line that line alone; otherwise the access lines in the access colour followed by the uncoloured type lines |
| ZoneOverlay.AccessSubLines | mapgen/overlay/zone_overlay.py:205-220 | fails exactly on a zero font ascent plus margin; otherwise the first sub line starts with the access label in the access colour |
| ZoneOverlay.WrapNonEmpty | mapgen/overlay/zone_overlay.py:207-208 | a non-empty text wraps to at least one line |
| ZoneOverlay.AccessTextsNonEmpty | mapgen/overlay/zone_overlay.py:31-43 | every access setting has a non-empty label |
| ZoneOverlay.GetSubLabelLines | mapgen/overlay/zone_overlay.py:188-220 | a missing or unknown access requirement is a KeyError when access is shown; without access, no type text gives no lines and a type text gives its wrapped lines uncoloured; with access, the first line starts with the access label in its colour |
| ZoneOverlay.GetPortalIcon | mapgen/overlay/zone_overlay.py:262-280 | a plain portal type gives its resized icon; a combined type gives a blend with one slice per part, slice i spanning the angles i and i + 1 of the equal division starting at -90 |
| ZoneOverlay.SlicesTileTurn | mapgen/overlay/zone_overlay.py:271-276 | the slices start at -90 degrees, end at 270 and each spans 360 / n degrees |
| ZoneOverlay.Ceil | mapgen/overlay/zone_overlay.py:284 | the ceiling is the least integer not below the value |
| ZoneOverlay.PortalLineMargin | mapgen/overlay/zone_overlay.py:284 | the connection line margin is at least 1 |
| ZoneOverlay.PortalLineBoxHoldsEnds | mapgen/overlay/zone_overlay.py:286-297 | both portals lie inside the line image at least the margin away from its sides, and the top-left corner is the margin away from the nearer portal on each axis |
| MasteryOverlay.KnownCategoriesPrefix | mapgen/overlay/mastery_overlay.py:45-62 | every prefix of a zone list whose categories are all known has known categories |
| MasteryOverlay.SelectKept | mapgen/overlay/mastery_overlay.py:47-62 | the kept zones are never more than the input zones |
| MasteryOverlay.KeptFirstIsPrefix | mapgen/overlay/mastery_overlay.py:47-62 | the zones kept by the first n loop iterations are the selection of the first n zones |
| MasteryOverlay.SelectKeptSound | mapgen/overlay/mastery_overlay.py:50-62 | every kept entry is an input zone inside the sector and not blacklisted, paired with its sector image rect |
| MasteryOverlay.MasteryOps | mapgen/overlay/mastery_overlay.py:54-59 | one filled, outlined rectangle per kept zone, in order, coloured by its mastery region |
| MasteryOverlay.DrawBoundaries | mapgen/overlay/mastery_overlay.py:47-62 | the loop fails (KeyError) exactly when a kept zone has an unknown mastery region, after drawing the outlines before it; otherwise it returns the kept selection and draws exactly one rectangle per kept zone |
| MasteryOverlay.OutlineKept | mapgen/overlay/mastery_overlay.py:53-62 | one boundary step appends exactly the zone's mastery rectangle and returns its kept entry |
| MasteryOverlay.LabelSizeMultiplier | mapgen/overlay/mastery_overlay.py:66 | the label scale is the zone's label size if given, else the category's, times the scale factor |
| MasteryOverlay.LabelImageSize | mapgen/overlay/mastery_overlay.py:84-85 | each side of the label image is the largest of 250, the rounded name extent and twice the rect's far corner plus 20 |
| MasteryOverlay.LabelPosX | mapgen/overlay/mastery_overlay.py:97 | the text x is the rounded middle for 'm', 2 for 'l' and width - 2 otherwise |
| MasteryOverlay.LabelPosXMirror | mapgen/overlay/mastery_overlay.py:97 | left and right label positions are mirror images in the label image |
| MasteryOverlay.LineYMonotone | mapgen/overlay/mastery_overlay.py:98-109 | each collected line sits no higher than the one before |
| MasteryOverlay.CollectLines | mapgen/overlay/mastery_overlay.py:96-109 | one label line per name line then per region line, at the accumulated y positions, with their fonts, outlines and colours |
| MasteryOverlay.DrawLines | mapgen/overlay/mastery_overlay.py:112-113 | the lines are drawn in reverse order |
| MasteryOverlay.FirstLineDrawnLast | mapgen/overlay/mastery_overlay.py:90-112 | the first collected line is drawn last, so it is on top |
| MasteryOverlay.MasteryLabelErrors | mapgen/overlay/mastery_overlay.py:64-116 | a label fails exactly when the anchor is invalid or a wrap divides by zero (the name's, or the region's when the zone has one); the error is ValueError exactly for an invalid anchor, and a division by zero otherwise |
| MasteryOverlay.MasteryLabelContent | mapgen/overlay/mastery_overlay.py:83-116 | a made label is an image of the label image size holding the name wrapped at tolerance 1 and the region at 1.25, collected top to bottom and drawn in reverse at the anchor's x with the anchor letter + 'a', pasted at the zone label paste position of its ink box |
| MasteryOverlay.NameDrawnOnTop | mapgen/overlay/mastery_overlay.py:90-113 | a named zone's label ends with its name's first line, at y 0, in the bold font at the name size and the base text colour, so it is on top |
| MasteryOverlay.LayoutLabel | mapgen/overlay/mastery_overlay.py:64-116 | the loop body computes exactly the zone's label; an invalid anchor is ValueError, any other failure a division by zero; the label image is at least 250 x 250 |
| MasteryOverlay.MadeLabelsAt | mapgen/overlay/mastery_overlay.py:64-116 | label i of the loop is the label of kept zone i |
| MasteryOverlay.LabelFailsAll | mapgen/overlay/mastery_overlay.py:64-116 | one kept zone whose label cannot be made means not all labels are made |
| MasteryOverlay.DrawLabels | mapgen/overlay/mastery_overlay.py:64-117 | no error exactly when every kept zone's label can be made; without an error, the image log gains exactly the paste of each kept zone's label at its position, in order; an error is the first failing zone's, after the pastes of the zones before it |
| MasteryOverlay.DrawOverlay | mapgen/overlay/mastery_overlay.py:40-117 | a zone with an unknown category is a KeyError that changes nothing; zones end up a permutation; when every zone has its sort key they end sorted by (order, id), and the overlay succeeds exactly when every kept zone's region is known and every label can be made: an unknown region is a KeyError after the outlines before it, otherwise all kept zones are outlined and then their labels pasted in order up to the first one that fails |
| LegacyOverlay.TextZoomMultiplier | mapgen/map_overlay.py:18-19 | the text multiplier 1.5^zoom is positive, and at least 1 from zoom 0 up |
| LegacyOverlay.TextZoomStep | mapgen/map_overlay.py:18-19 | one more zoom level multiplies the text multiplier by 1.5 (the mean of the zoom factor 2 and 1) |
| LegacyOverlay.MainFontSize | mapgen/map_overlay.py:22-23 | the main label font size is between 8 and 32 |
| LegacyOverlay.SubFontSize | mapgen/map_overlay.py:26-27 | the sub label font size is between 8 and 28 |
| LegacyOverlay.FontSizesMonotone | mapgen/map_overlay.py:18-27 | zooming in never shrinks either font |
| LegacyOverlay.MainFontAtLeastSub | mapgen/map_overlay.py:22-27 | the main label font is never smaller than the sub label font |
| LegacyOverlay.LegacyGetWrappedTextLines | mapgen/map_overlay.py:117-125 | the loop's lines are exactly the wrapping of the text's whitespace-separated words |
| LegacyOverlay.StrippedCandidate | mapgen/map_overlay.py:120 | stripping the joined candidate only removes the leading space of the first word, and keeps every line free of outer spaces |
| LegacyOverlay.LegacyWrapRoundTrip | mapgen/map_overlay.py:117-125 | the wrapped lines joined with spaces give back the words of the text joined with single spaces |
| LegacyOverlay.LegacyWrapBlank | mapgen/map_overlay.py:117-119 | a blank text wraps to one empty line |
| LegacyOverlay.LegacyBreakRule | mapgen/map_overlay.py:121-124 | a line break follows a line of at least 3 characters whose extension by the next word would be too wide |
| LegacyOverlay.SelectDrawn | mapgen/map_overlay.py:59-67 | the drawn zones are at most the input zones and all lie inside the sector |
| LegacyOverlay.SelectFirstIsPrefix | mapgen/map_overlay.py:59-67 | the zones drawn by the first n loop iterations are the selection of the first n zones |
| LegacyOverlay.BoundaryOps | mapgen/map_overlay.py:65-69 | one 1-pixel rectangle per drawn zone, in order, in its category colour |
| LegacyOverlay.OutlineZone | mapgen/map_overlay.py:65-69 | one boundary step appends exactly the zone's rectangle and returns its entry |
| LegacyOverlay.DrawBoundaries | mapgen/map_overlay.py:59-69 | the loop returns the selection of the zones inside the sector and draws one rectangle per selected zone |
| LegacyOverlay.OrderZones | mapgen/map_overlay.py:58-72 | a zone with an unknown category is a KeyError that changes nothing; otherwise zones are sorted by (boundary order, id) as a permutation, outlined in that order, and the label list is a permutation of the drawn zones sorted by (label order, id) |
| LegacyOverlay.LegacyWrapWidth | mapgen/map_overlay.py:82-89 | fails exactly on a zero ascent plus margin (a division by zero); otherwise the width is at most the image width, at least 4 ascents capped by it, at most the larger of 4 ascents and twice the zone width less 8, and at least the zone width less 8 when the image allows |
| LegacyOverlay.LegacyLabelImageSize | mapgen/map_overlay.py:76-77 | each side of the label image is the largest of 250, the name extent and twice the zone's far corner |
| LegacyOverlay.LegacyLevelTextMisencoded | mapgen/map_overlay.py:107 | for differing levels the text as written holds no en dash but a euro sign from the mis-decoded separator, so it differs from the intended level text |
| LegacyOverlay.LegacyDraws | mapgen/map_overlay.py:92-108 | one draw per name line at i times (ascent + margin), then the type label if any below the descent, then the level text as the file spells it below that, all centred in the category colour |
| LegacyOverlay.LegacyLabelDraws | mapgen/map_overlay.py:92-108 | the drawing loop with its running y gives exactly those draws |
| LegacyOverlay.LegacyPastePosition | mapgen/map_overlay.py:111-113 | the label image is centred horizontally and its ink box vertically on the zone bounds, to within rounding |
| LegacyOverlay.LegacyLabel | mapgen/map_overlay.py:74-113 | a zero ascent plus margin is a division by zero; otherwise the label image is at least 250 x 250 and is pasted at the centred position |
| LegacyOverlay.LegacyLayoutLabel | mapgen/map_overlay.py:74-113 | computes exactly that label: an image of the legacy label size holding the draws of the name wrapped at the bounded wrap width for half the zoom, centred at half the image width |
| LegacyOverlay.DrawLabels | mapgen/map_overlay.py:73-114 | fails exactly when there is a label to lay out and ascent plus margin is zero, leaving the image unchanged; otherwise it keeps the earlier draws and pastes each drawn zone's label at its position, in order |
| LegacyOverlay.OutlinedFirstKept | mapgen/map_overlay.py:56-114 | appending labels after the outlines keeps the outlines at the front of the image log |
| LegacyOverlay.DrawOverlay | mapgen/map_overlay.py:46-114 | a KeyError exactly when some zone has an unknown category, changing nothing; otherwise zones end up a sorted permutation, every drawn zone is outlined first, and on success each drawn zone's label paste follows, in (label order, id) order |
| Basics.Round | mapgen/overlay/overlay_util.py:27 | Python's round: the nearest integer, ties going to the even one |
| Basics.RoundUnique | mapgen/overlay/overlay_util.py:27 | that nearest-with-ties-to-even integer is unique |
| Basics.RoundMonotone | mapgen/map_overlay.py:23 | rounding never reverses the order of two values |
| Basics.RoundOfInt | mapgen/map_overlay.py:112-113 | rounding an integer gives it back |
| Basics.Clamp | mapgen/overlay/overlay_util.py:27 | min(hi, max(lo, v)) lies in [lo, hi], is v inside the bounds and the nearer bound outside them |
| Basics.ClampMonotone | mapgen/overlay/overlay_util.py:27 | clamping never reverses the order of two values |
| Basics.FloorDiv | mapgen/overlay/zone_overlay.py:143 | Python's // rounds toward minus infinity for either sign of divisor |
| Canvas.TopmostPaste | mapgen/map_composite.py:20 | the paste a pixel shows is the last paste whose footprint holds it: no later paste covers it, and none at all when the result is empty |
| Canvas.Image.Paste | mapgen/map_generator.py:39 | pasting appends one paste at the given position and keeps the image size |
| Canvas.Image.DrawRectangle | mapgen/overlay/zone_overlay.py:116 | drawing a rectangle appends exactly that rectangle and keeps the image size |
| Sorting.SortBy | mapgen/map_overlay.py:72 | sorting a list in place by a (order, id) key leaves it sorted by the key and a permutation of the input |
| Sorting.InsertAt | mapgen/map_overlay.py:72 | one insertion step extends the sorted prefix by one element, permutes the array and leaves the rest alone |
| Sorting.SortZones | mapgen/overlay/zone_overlay.py:99 | the zone sort fails with a KeyError, leaving the list untouched, exactly when some zone lacks a category order or an id; otherwise the list is sorted by (order, id) and is a permutation of the input |
| Sorting.PermutationKeepsKeys | mapgen/overlay/zone_overlay.py:99 | reordering zones that all have a category order and an id keeps every zone's key parts |
| Sorting.SortedZonesOrder | mapgen/overlay/zone_overlay.py:99 | in the sorted list an earlier zone never has a larger category order, nor a larger id within the same order |
| Text.SplitOn | mapgen/overlay/zone_overlay.py:270 | s.split(c) gives at least one piece and no piece holds the separator |
| Text.SplitOnJoin | mapgen/overlay/overlay_util.py:57 | joining the pieces of s.split(c) with c gives back s |
| Text.JoinSplitOn | mapgen/overlay/zone_overlay.py:270 | splitting a join of separator-free pieces gives back the pieces |
| Text.SplitWhitespace | mapgen/map_overlay.py:119 | s.split() gives non-empty words free of whitespace |
| Text.SplitWhitespaceOfBlank | mapgen/map_overlay.py:119 | a blank string has no words |
| Text.StripTrimmed | mapgen/map_overlay.py:120 | strip leaves a string without outer whitespace unchanged |
| Text.StripLeadingSpace | mapgen/map_overlay.py:120 | strip removes the space put in front of a word |
| Text.TrimmedJoin | mapgen/map_overlay.py:120 | two trimmed strings joined by a space are trimmed |
| Text.SplitLines | mapgen/overlay/overlay_util.py:81 | s.splitlines() gives lines without line breaks, and no lines exactly for the empty string |
| Text.SplitLinesSingle | mapgen/overlay/overlay_util.py:81 | a non-empty string without line breaks is one line |
| Text.SplitLinesJoin | mapgen/overlay/overlay_util.py:81 | for text whose only breaks are newlines and that does not end in one, joining the lines with newlines gives it back |
| Text.IntToString | main.py:54-58 | str(n) is non-empty and made of digits and a minus sign |
| Text.NatToStringInjective | main.py:54-58 | different natural numbers print differently |
| Text.IntToStringInjective | main.py:54-58 | different integers print differently |
| Text.IntToStringSign | main.py:54-58 | str(n) starts with a minus exactly for negative n, followed by the digits of -n |
| Text.JoinAppend | main.py:59 | joining a concatenation is joining each part, separated once more |
| Text.ReplaceChar | gw2_zone_map.py:100 | replace keeps the length and swaps exactly the matching characters |

## Left out

- Pixels. Drawing is a log of paste and rectangle operations. Alpha blending, rasterising rectangles, pie slices and lines, LANCZOS resampling, supersampling and text rendering are not modelled. Neither is the blending of icon slices by `Image.composite`.
- Fonts and file I/O. Font loading, icon downloads, `Image.open`, `image.save`, directory creation and the map API client are left out. Font measurements are uninterpreted functions, and the API's answers and the tile sources are parameters.
- Empty label images. `getbbox` is modelled as always returning a box. The source's `None` for a fully transparent label image is not modelled.
- Fractional zoom. Zoom levels are integers, as in mapgen/map_coordinates.py. Scale factors and zoom multipliers are exact reals, so float rounding error is not modelled.
- The tile-directory scan of main.py:44-50. The tile counts it finds are a parameter of `TileScript.GenerateMaps`.
- Command-line parsing and defaults of gw2_zone_map.py and main.py.
- The driver loop of `generate_maps` in gw2_zone_map.py. Its steps are modelled one by one: layout choice, overlay lookup, zone overrides, output name and image assembly. Calling the generators in sequence is not modelled.
- `draw_title` and both overlays' `draw_legend`. These are text-bbox-driven drawing; only their paste position is modelled (`OverlayUtil.LegendPastePosition`).
- The portal loop of the zone overlay (mapgen/overlay/zone_overlay.py:119-130). It iterates a static data table. Its pieces are modelled: the icon slices, the connection-line box and the margin.
- The per-zone label loop of mapgen/overlay/zone_overlay.py:134-186. It is modelled step by step: the size multiplier, lines, sub-lines, segment draws, reverse draw order and paste position. It is not assembled into one method; the mastery overlay's loop of the same shape is (`MasteryOverlay.DrawLabels`).
- The `debug` rectangles of the overlays.
- `@cache`, which is transparent. The cached functions are pure functions here.
- Static data tables (data/zones.py, data/portals.py, data/maps.py, data/layouts.py, data/sectors.py). The layouts and overrides are parameters.
- map/map_overlay.py and sandbox.py. They are not part of this model.
- mapgen/overlay/__init__.py: only its overlay registry is modelled, as the constant `ZoneMap.OverlayNames`; the overlay objects it builds are the overlay kinds.
- Mismatches between source revisions. Each function keeps the signature of its own file. The overlay-only layout fields (zone blacklist, legend alignment and offset) are added in a layout record of their own.
- MapCoordinates.NewCoordinateSystem: requires a non-negative max-zoom tile edge. A zero edge is the source's ZeroDivisionError. A negative edge, which no continent has, is not modelled.
- MasteryOverlay.DrawOverlay and LegacyOverlay.DrawOverlay: state which label images are pasted where, not the pixels those images hold (see Pixels).
- Sorting.SortBy: states sorted and a permutation, not that equal keys keep their input order as Python's stable sort does. Custom zones all have id -1, so their relative order within a category is not stated.
- OverlayUtil.LegendPastePosition: requires an alignment of at least two letters. The source's IndexError for a shorter alignment in the static layout table is not modelled.
- ZoneOverlay.GetPortalIcon: every portal type maps to its icon. The source's KeyError for a type missing from the static icon table is not modelled.

## Findings

| source | as written | input that shows it | evidently intended | confidence | as-written member | corrected member |
|---|---|---|---|---|---|---|
| mapgen/map_overlay.py:107 | the level range separator is the three characters U+00E2 U+20AC U+201C, an en dash decoded as Windows-1252 | a zone with min_level 1 and max_level 80 gets the sub label "1â€“80" (1, U+00E2, U+20AC, U+201C, 80) | "1–80", with the en dash U+2013 as in mapgen/overlay/zone_overlay.py:195 | high; not executed | LegacyOverlay.LegacyLevelTextMisencoded | ZoneOverlay.LevelTextDash |

The legacy overlay's label draws (`LegacyOverlay.LegacyDraws`) keep the level text as written, since that is what the file draws; the intended text with the en dash is the one the newer zone overlay draws (`ZoneOverlay.LevelText`).
