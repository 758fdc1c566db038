/**
 * The mastery-region overlay of mapgen/overlay/mastery_overlay.py: zones
 * are sorted by (category order, id); every zone that is not blacklisted
 * and lies inside the sector is outlined in white and filled with its
 * mastery region's colour; then each of those zones gets a label image
 * holding its wrapped name and, below it, its wrapped mastery region,
 * pasted at the zone's label anchor.
 */
module MasteryOverlay {
  import opened Basics
  import opened Canvas
  import opened Zones
  import Text
  import opened Sorting
  import opened OverlayUtil
  import MapCoordinates

  const MasteryColors: map<string, Color> := map[
    "Central Tyria" := Rgba(240, 51, 7, 160),
    "Heart of Thorns" := Rgba(0, 255, 92, 160),
    "Path of Fire" := Rgba(202, 5, 237, 160),
    "Icebrood Saga" := Rgba(20, 153, 255, 160),
    "End of Dragons" := Rgba(10, 240, 221, 160),
    "Secrets of the Obscure" := Rgba(255, 207, 13, 160),
    "Janthir Wilds" := Rgba(28, 44, 116, 160),
    "Visions of Eternity" := Rgba(235, 118, 9, 160)]

  /** A category's sort order and default label size. */
  datatype MasteryCategory = MasteryCategory(order: int, labelSize: real)

  const Categories: map<string, MasteryCategory> := map[
    "city" := MasteryCategory(1, 1.0),
    "lobby" := MasteryCategory(1, 1.0),
    "outpost" := MasteryCategory(1, 1.0),
    "open_world" := MasteryCategory(0, 1.0),
    "festival" := MasteryCategory(1, 0.8),
    "homestead" := MasteryCategory(1, 0.8),
    "guild_hall" := MasteryCategory(1, 0.8),
    "dungeon" := MasteryCategory(3, 0.8),
    "raid" := MasteryCategory(3, 0.8),
    "raid_convergence" := MasteryCategory(3, 0.8),
    "strike" := MasteryCategory(3, 0.75),
    "story" := MasteryCategory(0, 0.8),
    "public_instance" := MasteryCategory(2, 0.8),
    "lounge" := MasteryCategory(0, 0.75),
    "misc" := MasteryCategory(1, 0.75)]

  const CategoryOrders: map<string, int> := map c | c in Categories :: Categories[c].order

  const BaseTextColor: Color := Rgba(255, 255, 255, 255)
  const SubTextColor: Color := Rgba(255, 255, 255, 255)

  // ---------------------------------------------------------------- boundaries

  /** A zone kept for labelling: the zone, its rectangle in the sector image, its category settings. */
  datatype Kept = Kept(zone: Zone, imageRect: Rect, settings: MasteryCategory)

  predicate KnownCategories(zones: seq<Zone>)
  {
    forall i :: 0 <= i < |zones| ==> zones[i].category in Categories
  }

  lemma KnownCategoriesPrefix(zones: seq<Zone>, n: int)
    requires KnownCategories(zones) && 0 <= n <= |zones|
    ensures KnownCategories(zones[..n])
  {
    assert forall k :: 0 <= k < n ==> zones[..n][k] == zones[k];
  }


  /** A zone is outlined and labelled when its id is not blacklisted and its rectangle lies inside the sector. */
  predicate IsKept(cs: MapCoordinates.CoordinateSystem, blacklist: set<int>, z: Zone)
  {
    !(z.id.Some? && z.id.value in blacklist) && MapCoordinates.IsRectContained(cs, z.continentRect)
  }

  /** The zone's mastery region has a colour. */
  predicate RegionKnown(z: Zone)
  {
    z.masteryRegion.Some? && z.masteryRegion.value in MasteryColors
  }

  /** The entry a kept zone becomes. */
  function KeptEntry(cs: MapCoordinates.CoordinateSystem, z: Zone): Kept
    requires MapCoordinates.Valid(cs) && z.category in Categories
  {
    Kept(z, MapCoordinates.ContinentToSectorImageRect(cs, z.continentRect), Categories[z.category])
  }

  /** The kept zones, in order. */
  function SelectKept(zones: seq<Zone>, blacklist: set<int>, cs: MapCoordinates.CoordinateSystem): (kept: seq<Kept>)
    requires MapCoordinates.Valid(cs) && KnownCategories(zones)
    ensures |kept| <= |zones|
  {
    if |zones| == 0 then []
    else
      var z := zones[|zones| - 1];
      SelectKept(zones[..|zones| - 1], blacklist, cs)
        + (if IsKept(cs, blacklist, z)
           then [KeptEntry(cs, z)]
           else [])
  }

  /** The kept zones among the first `n`, counted by index rather than by slicing. */
  function KeptFirst(zones: seq<Zone>, n: nat, blacklist: set<int>, cs: MapCoordinates.CoordinateSystem): seq<Kept>
    requires MapCoordinates.Valid(cs) && KnownCategories(zones) && n <= |zones|
  {
    if n == 0 then []
    else KeptFirst(zones, n - 1, blacklist, cs) + (if IsKept(cs, blacklist, zones[n - 1]) then [KeptEntry(cs, zones[n - 1])] else [])
  }

  /** Counting by index keeps what the selection of the prefix does. */
  lemma {:induction false} KeptFirstIsPrefix(zones: seq<Zone>, n: nat, blacklist: set<int>, cs: MapCoordinates.CoordinateSystem)
    requires MapCoordinates.Valid(cs) && KnownCategories(zones) && n <= |zones|
    ensures KnownCategories(zones[..n]) && KeptFirst(zones, n, blacklist, cs) == SelectKept(zones[..n], blacklist, cs)
  {
    KnownCategoriesPrefix(zones, n);
    if n > 0 {
      KeptFirstIsPrefix(zones, n - 1, blacklist, cs);
      assert zones[..n][..n - 1] == zones[..n - 1];
    }
  }

  /** One more kept zone adds its outline after those already drawn. */
  lemma MasteryOpsSnoc(before: seq<DrawOp>, kept: seq<Kept>, k: Kept, lineWidth: int)
    requires AllRegionsKnown(kept) && RegionKnown(k.zone)
    ensures AllRegionsKnown(kept + [k])
    ensures before + MasteryOps(kept, lineWidth) + [MasteryOp(k, lineWidth)] == before + MasteryOps(kept + [k], lineWidth)
  {
    assert (kept + [k])[..|kept|] == kept;
  }

  /** A kept entry comes from a zone that is not blacklisted and lies inside the sector. */
  lemma {:induction false} SelectKeptSound(zones: seq<Zone>, blacklist: set<int>, cs: MapCoordinates.CoordinateSystem, k: int)
    requires MapCoordinates.Valid(cs) && KnownCategories(zones)
    requires 0 <= k < |SelectKept(zones, blacklist, cs)|
    ensures var e := SelectKept(zones, blacklist, cs)[k];
            && e.zone in zones && IsKept(cs, blacklist, e.zone)
            && e.imageRect == MapCoordinates.ContinentToSectorImageRect(cs, e.zone.continentRect)
            && (e.zone.id.Some? ==> e.zone.id.value !in blacklist)
    decreases |zones|
  {
    var init := zones[..|zones| - 1];
    KnownCategoriesPrefix(zones, |zones| - 1);
    if k < |SelectKept(init, blacklist, cs)| {
      SelectKeptSound(init, blacklist, cs, k);
      var e := SelectKept(init, blacklist, cs)[k];
      assert e.zone in init;
    }
  }

  /** The outline of a kept zone: white, filled with its mastery region's colour. */
  function MasteryOp(k: Kept, lineWidth: int): DrawOp
    requires RegionKnown(k.zone)
  {
    Rectangle(BoundaryOutline(k.imageRect, lineWidth), lineWidth, White, Some(MasteryColors[k.zone.masteryRegion.value]))
  }

  predicate AllRegionsKnown(kept: seq<Kept>)
  {
    forall i :: 0 <= i < |kept| ==> RegionKnown(kept[i].zone)
  }

  function MasteryOps(kept: seq<Kept>, lineWidth: int): (ops: seq<DrawOp>)
    requires AllRegionsKnown(kept)
    ensures |ops| == |kept|
    ensures forall i :: 0 <= i < |kept| ==> ops[i] == MasteryOp(kept[i], lineWidth)
  {
    if |kept| == 0 then [] else MasteryOps(kept[..|kept| - 1], lineWidth) + [MasteryOp(kept[|kept| - 1], lineWidth)]
  }

  /**
   * The state after a failed boundary loop: zone `n` is kept but its region
   * has no colour, and the kept zones before it have been outlined.
   */
  predicate StoppedAt(zones: seq<Zone>, blacklist: set<int>, cs: MapCoordinates.CoordinateSystem, scale: real, n: int,
                      before: seq<DrawOp>, after: seq<DrawOp>)
    requires MapCoordinates.Valid(cs)
  {
    && 0 <= n < |zones| && IsKept(cs, blacklist, zones[n]) && !RegionKnown(zones[n])
    && KnownCategories(zones[..n]) && AllRegionsKnown(SelectKept(zones[..n], blacklist, cs))
    && after == before + MasteryOps(SelectKept(zones[..n], blacklist, cs), LineWidth(cs.zoom, scale))
  }

  /**
   * The boundary loop: outlines every kept zone in order. A kept zone
   * whose mastery region has no colour raises KeyError after the zones
   * before it have been drawn.
   */
  method DrawBoundaries(image: Image, zones: seq<Zone>, blacklist: set<int>, cs: MapCoordinates.CoordinateSystem, scale: real)
    returns (r: Result<seq<Kept>>)
    requires MapCoordinates.Valid(cs) && KnownCategories(zones)
    modifies image
    ensures image.size == old(image.size)
    ensures r.Ok? <==> forall i :: 0 <= i < |zones| && IsKept(cs, blacklist, zones[i]) ==> RegionKnown(zones[i])
    ensures r.Ok? ==> r.value == SelectKept(zones, blacklist, cs) && AllRegionsKnown(r.value)
    ensures r.Ok? ==> image.ops == old(image.ops) + MasteryOps(r.value, LineWidth(cs.zoom, scale))
    ensures r.Err? ==> r.error == MissingKey
    ensures r.Err? ==> exists n :: StoppedAt(zones, blacklist, cs, scale, n, old(image.ops), image.ops)
  {
    var kept: seq<Kept> := [];
    var lineWidth := LineWidth(cs.zoom, scale);
    for i := 0 to |zones|
      invariant kept == KeptFirst(zones, i, blacklist, cs)
      invariant forall j :: 0 <= j < i && IsKept(cs, blacklist, zones[j]) ==> RegionKnown(zones[j])
      invariant AllRegionsKnown(kept)
      invariant image.size == old(image.size)
      invariant image.ops == old(image.ops) + MasteryOps(kept, lineWidth)
    {
      var zone := zones[i];
      if (zone.id.Some? && zone.id.value in blacklist) || !MapCoordinates.IsRectContained(cs, zone.continentRect) {
        continue;
      }
      if zone.masteryRegion.None? || zone.masteryRegion.value !in MasteryColors {
        KeptFirstIsPrefix(zones, i, blacklist, cs);
        assert StoppedAt(zones, blacklist, cs, scale, i, old(image.ops), image.ops);
        return Err(MissingKey);
      }
      var entry := OutlineKept(image, zone, cs, lineWidth);
      MasteryOpsSnoc(old(image.ops), kept, entry, lineWidth);
      kept := kept + [entry];
    }
    KeptFirstIsPrefix(zones, |zones|, blacklist, cs);
    assert zones[..|zones|] == zones;
    return Ok(kept);
  }

  /** The body of the boundary loop for a kept zone with a known region: outline it and return its entry. */
  method OutlineKept(image: Image, zone: Zone, cs: MapCoordinates.CoordinateSystem, lineWidth: int) returns (entry: Kept)
    requires MapCoordinates.Valid(cs) && zone.category in Categories && RegionKnown(zone)
    modifies image
    ensures entry == KeptEntry(cs, zone) && RegionKnown(entry.zone)
    ensures image.size == old(image.size)
    ensures image.ops == old(image.ops) + [MasteryOp(entry, lineWidth)]
  {
    var zoneImageRect := MapCoordinates.ContinentToSectorImageRect(cs, zone.continentRect);
    var outlineRect := BoundaryOutline(zoneImageRect, lineWidth);
    var bgColor := MasteryColors[zone.masteryRegion.value];
    image.DrawRectangle(outlineRect, lineWidth, White, Some(bgColor));
    entry := Kept(zone, zoneImageRect, Categories[zone.category]);
  }

  // ---------------------------------------------------------------- labels

  /** The label size multiplier: the zone's own label size, else its category's, times the scale. */
  function LabelSizeMultiplier(zone: Zone, settings: MasteryCategory, scale: real): (m: real)
    ensures zone.labelSize.Some? ==> m == scale * zone.labelSize.value
    ensures zone.labelSize.None? ==> m == scale * settings.labelSize
  {
    scale * (if zone.labelSize.Some? then zone.labelSize.value else settings.labelSize)
  }

  /**
   * The temporary label image: wide enough for the name's bounding box plus
   * 10, tall enough for ten times its height plus 10, at least twice the
   * label rectangle's far corner plus 20, and never under 250 either way.
   */
  function LabelImageSize(nameRight: real, nameBottom: real, rect: Rect): (size: Point)
    ensures size.x >= 250 && size.x >= Round(nameRight + 10.0) && size.x >= 2 * rect.bottomRight.x + 20
    ensures size.x == 250 || size.x == Round(nameRight + 10.0) || size.x == 2 * rect.bottomRight.x + 20
    ensures size.y >= 250 && size.y >= Round(10.0 * nameBottom + 10.0) && size.y >= 2 * rect.bottomRight.y + 20
    ensures size.y == 250 || size.y == Round(10.0 * nameBottom + 10.0) || size.y == 2 * rect.bottomRight.y + 20
  {
    Point(Max(Max(250, Round(nameRight + 10.0)), 2 * rect.bottomRight.x + 20),
          Max(Max(250, Round(10.0 * nameBottom + 10.0)), 2 * rect.bottomRight.y + 20))
  }

  /** The x the lines are anchored at: the rounded middle for 'm', 2 for 'l', two short of the width otherwise. */
  function LabelPosX(hAlign: char, width: int): (x: int)
    ensures hAlign == 'm' ==> 2 * x - 1 <= width <= 2 * x + 1
    ensures hAlign == 'l' ==> x == 2
    ensures hAlign != 'm' && hAlign != 'l' ==> x == width - 2
  {
    if hAlign == 'm' then Round(width as real / 2.0) else if hAlign == 'l' then 2 else width - 2
  }

  /** Left and right anchoring keep the same 2-pixel distance from their edges. */
  lemma LabelPosXMirror(width: int)
    ensures LabelPosX('l', width) + LabelPosX('r', width) == width
  {
  }

  /** One collected line: its text, y position, font, outline width and colour. */
  datatype LabelLine = LabelLine(text: string, posY: int, font: Font, outlineWidth: int, color: Color)

  /**
   * The y of line k of a label with n name lines: name lines step by
   * `nameStep`, the first region line sits `gap` below the last step, and
   * region lines step by `regionStep`.
   */
  function LineY(k: int, n: int, nameStep: int, gap: int, regionStep: int): int
  {
    if k < n then k * nameStep else n * nameStep + gap + (k - n) * regionStep
  }

  /** With non-negative steps, every line is at or below the one before it. */
  lemma LineYMonotone(k: int, n: int, nameStep: int, gap: int, regionStep: int)
    requires 0 <= k && 0 <= n && nameStep >= 0 && gap >= 0 && regionStep >= 0
    ensures LineY(k, n, nameStep, gap, regionStep) <= LineY(k + 1, n, nameStep, gap, regionStep)
  {
    if k + 1 < n {
      assert (k + 1) * nameStep == k * nameStep + nameStep;
    } else if k + 1 == n {
      assert n * nameStep == k * nameStep + nameStep;
    } else {
      assert (k + 1 - n) * regionStep == (k - n) * regionStep + regionStep;
    }
  }

  /**
   * The lines a label collects, in closed form: name line k at
   * `LineY(k, ..)` in the bold font and base colour, then region line j
   * at `LineY(n + j, ..)` in the italic font and sub-label colour.
   */
  function CollectedLines(nameLines: seq<string>, nameFont: Font, nameMargin: int, nameOutline: int,
                          regionLines: seq<string>, regionFont: Font, regionMargin: int, regionOutline: int)
    : (lines: seq<LabelLine>)
    ensures |lines| == |nameLines| + |regionLines|
  {
    var n := |nameLines|;
    seq(n + |regionLines|, k requires 0 <= k < n + |regionLines| =>
      var y := LineY(k, n, nameFont.ascent + nameMargin, Max(0, nameFont.descent - nameMargin),
                     regionFont.ascent + regionMargin);
      if k < n then LabelLine(nameLines[k], y, nameFont, nameOutline, BaseTextColor)
      else LabelLine(regionLines[k - n], y, regionFont, regionOutline, SubTextColor))
  }

  /**
   * The line collection of `draw_overlay`: the name lines from y = 0, each
   * ascent plus margin below the last; then the descent less the margin
   * (never negative); then the mastery-region lines, each the region
   * font's ascent plus its margin below the last.
   */
  method CollectLines(nameLines: seq<string>, nameFont: Font, nameMargin: int, nameOutline: int,
                      regionLines: seq<string>, regionFont: Font, regionMargin: int, regionOutline: int)
    returns (lines: seq<LabelLine>)
    ensures lines == CollectedLines(nameLines, nameFont, nameMargin, nameOutline,
                                    regionLines, regionFont, regionMargin, regionOutline)
    ensures |lines| == |nameLines| + |regionLines|
    ensures forall k :: 0 <= k < |lines| ==>
      lines[k].posY == LineY(k, |nameLines|, nameFont.ascent + nameMargin, Max(0, nameFont.descent - nameMargin),
                             regionFont.ascent + regionMargin)
    ensures forall k :: 0 <= k < |nameLines| ==>
      lines[k] == LabelLine(nameLines[k], lines[k].posY, nameFont, nameOutline, BaseTextColor)
    ensures forall j :: 0 <= j < |regionLines| ==>
      lines[|nameLines| + j] == LabelLine(regionLines[j], lines[|nameLines| + j].posY, regionFont, regionOutline, SubTextColor)
  {
    var n := |nameLines|;
    var nameStep := nameFont.ascent + nameMargin;
    var gap := Max(0, nameFont.descent - nameMargin);
    var regionStep := regionFont.ascent + regionMargin;
    var labelPosY := 0;
    lines := [];
    for i := 0 to n
      invariant |lines| == i && labelPosY == i * nameStep
      invariant forall k :: 0 <= k < i ==> lines[k] == LabelLine(nameLines[k], k * nameStep, nameFont, nameOutline, BaseTextColor)
    {
      lines := lines + [LabelLine(nameLines[i], labelPosY, nameFont, nameOutline, BaseTextColor)];
      labelPosY := labelPosY + nameFont.ascent + nameMargin;
    }
    labelPosY := labelPosY + Max(0, nameFont.descent - nameMargin);
    var base := labelPosY;
    assert base == n * nameStep + gap;
    for j := 0 to |regionLines|
      invariant |lines| == n + j && labelPosY == base + j * regionStep
      invariant forall k :: 0 <= k < n ==> lines[k] == LabelLine(nameLines[k], k * nameStep, nameFont, nameOutline, BaseTextColor)
      invariant forall k :: 0 <= k < j ==> lines[n + k] == LabelLine(regionLines[k], base + k * regionStep, regionFont, regionOutline, SubTextColor)
    {
      lines := lines + [LabelLine(regionLines[j], labelPosY, regionFont, regionOutline, SubTextColor)];
      labelPosY := labelPosY + regionFont.ascent + regionMargin;
    }
    forall k | 0 <= k < |lines| ensures lines[k].posY == LineY(k, n, nameStep, gap, regionStep) {
      if k >= n {
        var j := k - n;
        assert lines[n + j] == LabelLine(regionLines[j], base + j * regionStep, regionFont, regionOutline, SubTextColor);
      }
    }
  }

  /** The text call for one collected line. */
  function LineDraw(line: LabelLine, posX: int, anchor: string): TextDraw
  {
    TextDraw(posX as real, line.posY, line.text, line.font.size, anchor, line.outlineWidth, line.color)
  }

  /** The text calls for the collected lines, last line first. */
  function ReversedDraws(lines: seq<LabelLine>, posX: int, anchor: string): (draws: seq<TextDraw>)
    ensures |draws| == |lines|
  {
    seq(|lines|, k requires 0 <= k < |lines| => LineDraw(lines[|lines| - 1 - k], posX, anchor))
  }

  /** The draw loop: the collected lines from last to first, so that earlier lines end up on top. */
  method DrawLines(lines: seq<LabelLine>, posX: int, anchor: string) returns (draws: seq<TextDraw>)
    ensures draws == ReversedDraws(lines, posX, anchor)
    ensures |draws| == |lines|
    ensures forall k :: 0 <= k < |lines| ==> draws[k] == LineDraw(lines[|lines| - 1 - k], posX, anchor)
  {
    draws := [];
    var i := |lines|;
    while i > 0
      invariant 0 <= i <= |lines| && |draws| == |lines| - i
      invariant forall k :: 0 <= k < |draws| ==> draws[k] == LineDraw(lines[|lines| - 1 - k], posX, anchor)
    {
      i := i - 1;
      draws := draws + [LineDraw(lines[i], posX, anchor)];
    }
  }

  /** The first collected line, the zone name's first line, is the last one drawn. */
  lemma FirstLineDrawnLast(lines: seq<LabelLine>, draws: seq<TextDraw>, posX: int, anchor: string)
    requires |lines| >= 1 && |draws| == |lines|
    requires forall k :: 0 <= k < |lines| ==> draws[k] == LineDraw(lines[|lines| - 1 - k], posX, anchor)
    ensures draws[|draws| - 1] == LineDraw(lines[0], posX, anchor)
  {
  }

  /** What a label comes to: the label image and where it is pasted. */
  datatype LabelPaste = LabelPaste(raster: Raster, at: Point)

  /** The size of the bold name font of a kept zone's label. */
  function NameFontSize(k: Kept, zoom: int, scale: real): (n: int)
    ensures 8 <= n <= 64
  {
    MainLabelFontSize(zoom, 1.0 * LabelSizeMultiplier(k.zone, k.settings, scale))
  }

  /** The size of the italic mastery-region font of a kept zone's label. */
  function RegionFontSize(k: Kept, zoom: int, scale: real): (n: int)
    ensures 8 <= n <= 32
  {
    SubLabelFontSize(zoom, 1.0 * LabelSizeMultiplier(k.zone, k.settings, scale))
  }

  /**
   * The label of one kept zone as the label loop builds it: the name is
   * wrapped at width tolerance 1 and the mastery region at 1.25 for a
   * label image of `LabelImageSize`; the lines are collected top to
   * bottom, drawn bottom to top at `LabelPosX`, and the image is pasted at
   * the zone label position of the anchor. Fonts come from `boldFont` and
   * `italicFont` by size, the name's bounding box from `nameBox`, and the
   * drawn label's ink box from `inkBox`.
   */
  function MasteryLabel(k: Kept, cs: MapCoordinates.CoordinateSystem, scale: real,
                        boldFont: int -> Font, italicFont: int -> Font,
                        nameBox: (string, Font) -> (real, real), inkBox: Raster -> Rect): Result<LabelPaste>
    requires MapCoordinates.Valid(cs)
  {
    var mainSize := NameFontSize(k, cs.zoom, scale);
    var regionSize := RegionFontSize(k, cs.zoom, scale);
    var mainFont := boldFont(mainSize);
    var regionFont := italicFont(regionSize);
    var pos := GetZonePos(cs, k.zone, k.imageRect);
    if pos.Err? then Err(pos.error)
    else
      var anchor := pos.value.0;
      var rect := pos.value.1;
      var box := nameBox(k.zone.name, mainFont);
      var size := LabelImageSize(box.0, box.1, rect);
      var nameLines := WrapLabelLines(Some(k.zone.name), mainFont, mainSize / 8, rect, size, cs.zoom, scale, 1.0);
      var regionLines := WrapLabelLines(k.zone.masteryRegion, regionFont, regionSize / 8, rect, size, cs.zoom, scale, 1.25);
      if nameLines.Err? then Err(nameLines.error)
      else if regionLines.Err? then Err(regionLines.error)
      else
        var lines := CollectedLines(nameLines.value, mainFont, mainSize / 8, TextOutlineWidth(mainSize),
                                    regionLines.value, regionFont, regionSize / 8, TextOutlineWidth(regionSize));
        var raster := LabelImage(size, ReversedDraws(lines, LabelPosX(anchor[0], size.x), [anchor[0]] + "a"));
        Ok(LabelPaste(raster, ZoneLabelPastePosition(anchor, size, inkBox(raster), rect)))
  }

  /**
   * A label fails exactly when its anchor is invalid (ValueError) or when a
   * wrap divides by zero: the name font's ascent and margin cancel out, or
   * the zone has a mastery region and the region font's do.
   */
  lemma MasteryLabelErrors(k: Kept, cs: MapCoordinates.CoordinateSystem, scale: real,
                            boldFont: int -> Font, italicFont: int -> Font,
                            nameBox: (string, Font) -> (real, real), inkBox: Raster -> Rect)
    requires MapCoordinates.Valid(cs)
    ensures var r := MasteryLabel(k, cs, scale, boldFont, italicFont, nameBox, inkBox);
            var mainSize := NameFontSize(k, cs.zoom, scale);
            var regionSize := RegionFontSize(k, cs.zoom, scale);
            r.Err? <==> || GetZonePos(cs, k.zone, k.imageRect).Err?
                        || boldFont(mainSize).ascent + mainSize / 8 == 0
                        || (k.zone.masteryRegion.Some? && italicFont(regionSize).ascent + regionSize / 8 == 0)
    ensures var r := MasteryLabel(k, cs, scale, boldFont, italicFont, nameBox, inkBox);
            r.Err? ==> (r.error == InvalidLabelAnchor <==> k.zone.labelAnchor.Some? && !ValidAnchor(k.zone.labelAnchor.value))
    ensures var r := MasteryLabel(k, cs, scale, boldFont, italicFont, nameBox, inkBox);
            r.Err? ==> r.error == InvalidLabelAnchor || r.error == DivisionByZero
  {
  }

  /**
   * The content of a label: the name wrapped at tolerance 1 and the
   * mastery region at tolerance 1.25 for an image of `LabelImageSize`,
   * collected top to bottom with their fonts, outlines and colours, drawn
   * in reverse at `LabelPosX` with the anchor's horizontal letter, and the
   * image pasted at the zone label position.
   */
  lemma MasteryLabelContent(k: Kept, cs: MapCoordinates.CoordinateSystem, scale: real,
                             boldFont: int -> Font, italicFont: int -> Font,
                             nameBox: (string, Font) -> (real, real), inkBox: Raster -> Rect)
    requires MapCoordinates.Valid(cs)
    ensures var r := MasteryLabel(k, cs, scale, boldFont, italicFont, nameBox, inkBox);
      r.Ok? ==>
      var mainSize := NameFontSize(k, cs.zoom, scale);
      var regionSize := RegionFontSize(k, cs.zoom, scale);
      var mainFont := boldFont(mainSize);
      var regionFont := italicFont(regionSize);
      var anchor := GetZonePos(cs, k.zone, k.imageRect).value.0;
      var rect := GetZonePos(cs, k.zone, k.imageRect).value.1;
      var size := LabelImageSize(nameBox(k.zone.name, mainFont).0, nameBox(k.zone.name, mainFont).1, rect);
      var nameLines := WrapLabelLines(Some(k.zone.name), mainFont, mainSize / 8, rect, size, cs.zoom, scale, 1.0).value;
      var regionLines := WrapLabelLines(k.zone.masteryRegion, regionFont, regionSize / 8, rect, size, cs.zoom, scale, 1.25).value;
      && r.value.raster == LabelImage(size, ReversedDraws(
           CollectedLines(nameLines, mainFont, mainSize / 8, TextOutlineWidth(mainSize),
                          regionLines, regionFont, regionSize / 8, TextOutlineWidth(regionSize)),
           LabelPosX(anchor[0], size.x), [anchor[0]] + "a"))
      && r.value.at == ZoneLabelPastePosition(anchor, size, inkBox(r.value.raster), rect)
  {
  }

  /**
   * The label of one kept zone (the body of the label loop). An invalid
   * label anchor raises ValueError; a font whose ascent and margin cancel
   * out makes its wrap divide by zero, for the region font only when the
   * zone has a mastery region.
   */
  method LayoutLabel(k: Kept, cs: MapCoordinates.CoordinateSystem, scale: real,
                     boldFont: int -> Font, italicFont: int -> Font,
                     nameBox: (string, Font) -> (real, real), inkBox: Raster -> Rect)
    returns (r: Result<LabelPaste>)
    requires MapCoordinates.Valid(cs)
    ensures r == MasteryLabel(k, cs, scale, boldFont, italicFont, nameBox, inkBox)
    ensures k.zone.labelAnchor.Some? && !ValidAnchor(k.zone.labelAnchor.value) ==> r == Err(InvalidLabelAnchor)
    ensures r.Err? ==> r.error == InvalidLabelAnchor || r.error == DivisionByZero
    ensures r.Ok? ==> r.value.raster.LabelImage? && r.value.raster.size.x >= 250 && r.value.raster.size.y >= 250
  {
    var m := LabelSizeMultiplier(k.zone, k.settings, scale);
    var mainSize := MainLabelFontSize(cs.zoom, 1.0 * m);
    var mainFont := boldFont(mainSize);
    var mainMargin := mainSize / 8;
    var mainOutline := TextOutlineWidth(mainSize);
    var regionSize := SubLabelFontSize(cs.zoom, 1.0 * m);
    var regionFont := italicFont(regionSize);
    var regionMargin := regionSize / 8;
    var regionOutline := TextOutlineWidth(regionSize);
    var pos := GetZonePos(cs, k.zone, k.imageRect);
    if pos.Err? {
      return Err(pos.error);
    }
    var (anchor, rect) := pos.value;
    var (nameRight, nameBottom) := nameBox(k.zone.name, mainFont);
    var size := LabelImageSize(nameRight, nameBottom, rect);
    var textAnchor := [anchor[0]] + "a";
    var nameLines := WrapLabel(Some(k.zone.name), mainFont, mainMargin, rect, size, cs.zoom, scale, 1.0);
    if nameLines.Err? {
      return Err(nameLines.error);
    }
    var posX := LabelPosX(anchor[0], size.x);
    var regionLines := WrapLabel(k.zone.masteryRegion, regionFont, regionMargin, rect, size, cs.zoom, scale, 1.25);
    if regionLines.Err? {
      return Err(regionLines.error);
    }
    var lines := CollectLines(nameLines.value, mainFont, mainMargin, mainOutline,
                              regionLines.value, regionFont, regionMargin, regionOutline);
    var draws := DrawLines(lines, posX, textAnchor);
    var raster := LabelImage(size, draws);
    return Ok(LabelPaste(raster, ZoneLabelPastePosition(anchor, size, inkBox(raster), rect)));
  }

  /**
   * A zone with a name keeps its name on top: the last text drawn on its
   * label image is the name's first line, at the top of the image, in the
   * bold font and the base text colour.
   */
  lemma NameDrawnOnTop(k: Kept, cs: MapCoordinates.CoordinateSystem, scale: real,
                       boldFont: int -> Font, italicFont: int -> Font,
                       nameBox: (string, Font) -> (real, real), inkBox: Raster -> Rect)
    requires MapCoordinates.Valid(cs) && k.zone.name != []
    requires MasteryLabel(k, cs, scale, boldFont, italicFont, nameBox, inkBox).Ok?
    ensures var texts := MasteryLabel(k, cs, scale, boldFont, italicFont, nameBox, inkBox).value.raster.texts;
            var mainSize := NameFontSize(k, cs.zoom, scale);
            && |texts| >= 1
            && texts[|texts| - 1].y == 0
            && texts[|texts| - 1].fontSize == boldFont(mainSize).size
            && texts[|texts| - 1].color == BaseTextColor
  {
    var mainSize := NameFontSize(k, cs.zoom, scale);
    var mainFont := boldFont(mainSize);
    var pos := GetZonePos(cs, k.zone, k.imageRect).value;
    var box := nameBox(k.zone.name, mainFont);
    var size := LabelImageSize(box.0, box.1, pos.1);
    var width := WrapWidth(mainFont, mainSize / 8, pos.1, size, cs.zoom, scale, 1.0);
    WrapPiecesLength(Text.SplitLines(k.zone.name), mainFont, width);
    var nameLines := WrapLabelLines(Some(k.zone.name), mainFont, mainSize / 8, pos.1, size, cs.zoom, scale, 1.0).value;
    assert |nameLines| >= 1;
    var regionSize := RegionFontSize(k, cs.zoom, scale);
    var regionLines := WrapLabelLines(k.zone.masteryRegion, italicFont(regionSize), regionSize / 8, pos.1, size,
                                      cs.zoom, scale, 1.25).value;
    var lines := CollectedLines(nameLines, mainFont, mainSize / 8, TextOutlineWidth(mainSize),
                                regionLines, italicFont(regionSize), regionSize / 8, TextOutlineWidth(regionSize));
    assert lines[0].posY == 0 && lines[0].font == mainFont && lines[0].color == BaseTextColor;
    var texts := ReversedDraws(lines, LabelPosX(pos.0[0], size.x), [pos.0[0]] + "a");
    assert texts[|texts| - 1] == LineDraw(lines[0], LabelPosX(pos.0[0], size.x), [pos.0[0]] + "a");
    assert MasteryLabel(k, cs, scale, boldFont, italicFont, nameBox, inkBox).value.raster.texts == texts;
  }

  /** The label of each zone of `kept`, in order. */
  function MadeLabels(kept: seq<Kept>, cs: MapCoordinates.CoordinateSystem, scale: real,
                      boldFont: int -> Font, italicFont: int -> Font,
                      nameBox: (string, Font) -> (real, real), inkBox: Raster -> Rect): seq<Result<LabelPaste>>
    requires MapCoordinates.Valid(cs)
    decreases |kept|
  {
    if |kept| == 0 then []
    else MadeLabels(kept[..|kept| - 1], cs, scale, boldFont, italicFont, nameBox, inkBox) + [MasteryLabel(kept[|kept| - 1], cs, scale, boldFont, italicFont, nameBox, inkBox)]
  }

  /** Label i is the label of zone i. */
  lemma {:induction false} MadeLabelsAt(kept: seq<Kept>, cs: MapCoordinates.CoordinateSystem, scale: real,
                                        boldFont: int -> Font, italicFont: int -> Font,
                                        nameBox: (string, Font) -> (real, real), inkBox: Raster -> Rect)
    requires MapCoordinates.Valid(cs)
    ensures |MadeLabels(kept, cs, scale, boldFont, italicFont, nameBox, inkBox)| == |kept|
    ensures forall i :: 0 <= i < |kept| ==> MadeLabels(kept, cs, scale, boldFont, italicFont, nameBox, inkBox)[i] == MasteryLabel(kept[i], cs, scale, boldFont, italicFont, nameBox, inkBox)
    decreases |kept|
  {
    if |kept| > 0 {
      var init := kept[..|kept| - 1];
      MadeLabelsAt(init, cs, scale, boldFont, italicFont, nameBox, inkBox);
      assert forall i :: 0 <= i < |init| ==> init[i] == kept[i];
    }
  }

  /** Every label was made. */
  predicate AllMade(made: seq<Result<LabelPaste>>)
  {
    forall i :: 0 <= i < |made| ==> made[i].Ok?
  }

  /** The paste of each made label, in order. */
  function Pastes(made: seq<Result<LabelPaste>>): seq<DrawOp>
    requires AllMade(made)
  {
    seq(|made|, i requires 0 <= i < |made| => Paste(made[i].value.raster, made[i].value.at))
  }

  /** One more made label appends its paste. */
  lemma PastesSnoc(made: seq<Result<LabelPaste>>, r: Result<LabelPaste>)
    requires AllMade(made) && r.Ok?
    ensures AllMade(made + [r])
    ensures Pastes(made + [r]) == Pastes(made) + [Paste(r.value.raster, r.value.at)]
  {
  }

  /** One label that cannot be made means not all labels were made. */
  lemma LabelFailsAll(kept: seq<Kept>, j: int, cs: MapCoordinates.CoordinateSystem, scale: real,
                      boldFont: int -> Font, italicFont: int -> Font,
                      nameBox: (string, Font) -> (real, real), inkBox: Raster -> Rect)
    requires MapCoordinates.Valid(cs) && 0 <= j < |kept| && MasteryLabel(kept[j], cs, scale, boldFont, italicFont, nameBox, inkBox).Err?
    ensures !AllMade(MadeLabels(kept, cs, scale, boldFont, italicFont, nameBox, inkBox))
  {
    MadeLabelsAt(kept, cs, scale, boldFont, italicFont, nameBox, inkBox);
  }

  /**
   * The label loop: the label of each kept zone pasted in order; the first
   * zone whose label fails stops it with that label's error, after the
   * labels before it.
   */
  method DrawLabels(image: Image, kept: seq<Kept>, cs: MapCoordinates.CoordinateSystem, scale: real,
                    boldFont: int -> Font, italicFont: int -> Font,
                    nameBox: (string, Font) -> (real, real), inkBox: Raster -> Rect)
    returns (err: Option<Error>)
    requires MapCoordinates.Valid(cs)
    modifies image
    ensures image.size == old(image.size)
    ensures err.None? <==> AllMade(MadeLabels(kept, cs, scale, boldFont, italicFont, nameBox, inkBox))
    ensures err.None? ==>
      var made := MadeLabels(kept, cs, scale, boldFont, italicFont, nameBox, inkBox);
      AllMade(made) && image.ops == old(image.ops) + Pastes(made)
    ensures err.Some? ==>
      exists j :: 0 <= j < |kept| &&
        var made := MadeLabels(kept[..j], cs, scale, boldFont, italicFont, nameBox, inkBox);
        && AllMade(made) && image.ops == old(image.ops) + Pastes(made)
        && MasteryLabel(kept[j], cs, scale, boldFont, italicFont, nameBox, inkBox) == Err(err.value)
  {
    for i := 0 to |kept|
      invariant image.size == old(image.size)
      invariant AllMade(MadeLabels(kept[..i], cs, scale, boldFont, italicFont, nameBox, inkBox))
      invariant image.ops == old(image.ops) + Pastes(MadeLabels(kept[..i], cs, scale, boldFont, italicFont, nameBox, inkBox))
    {
      var placed := LayoutLabel(kept[i], cs, scale, boldFont, italicFont, nameBox, inkBox);
      if placed.Err? {
        LabelFailsAll(kept, i, cs, scale, boldFont, italicFont, nameBox, inkBox);
        return Some(placed.error);
      }
      assert kept[..i + 1][..i] == kept[..i];
      PastesSnoc(MadeLabels(kept[..i], cs, scale, boldFont, italicFont, nameBox, inkBox), placed);
      image.Paste(placed.value.raster, placed.value.at);
    }
    assert kept[..|kept|] == kept;
    return None;
  }

  /** `ops` is `before`, then the outlines of the kept zones, then the label of each kept zone. */
  predicate OutlinedThenLabelled(ops: seq<DrawOp>, before: seq<DrawOp>, kept: seq<Kept>, lineWidth: int,
                                 cs: MapCoordinates.CoordinateSystem, scale: real,
                                 boldFont: int -> Font, italicFont: int -> Font,
                                 nameBox: (string, Font) -> (real, real), inkBox: Raster -> Rect)
    requires AllRegionsKnown(kept) && MapCoordinates.Valid(cs)
  {
    var made := MadeLabels(kept, cs, scale, boldFont, italicFont, nameBox, inkBox);
    AllMade(made) && ops == before + MasteryOps(kept, lineWidth) + Pastes(made)
  }

  /**
   * What the overlay does to zones whose sort keys are all present: a kept
   * zone with an unknown mastery region is a KeyError after the outlines
   * before it; otherwise every kept zone is outlined, then the label loop
   * pastes the labels until the first one that cannot be made. It succeeds
   * exactly when every region is known and every label can be made.
   */
  ghost predicate OverlayOutcome(err: Option<Error>, ops: seq<DrawOp>, before: seq<DrawOp>, zones: seq<Zone>,
                                 blacklist: set<int>, cs: MapCoordinates.CoordinateSystem, scale: real,
                                 boldFont: int -> Font, italicFont: int -> Font,
                                 nameBox: (string, Font) -> (real, real), inkBox: Raster -> Rect)
    requires MapCoordinates.Valid(cs) && KnownCategories(zones)
  {
    var regionsKnown := forall i :: 0 <= i < |zones| && IsKept(cs, blacklist, zones[i]) ==> RegionKnown(zones[i]);
    var kept := SelectKept(zones, blacklist, cs);
    && (err.None? <==> regionsKnown && AllRegionsKnown(kept) && AllMade(MadeLabels(kept, cs, scale, boldFont, italicFont, nameBox, inkBox)))
    && (!regionsKnown ==> err == Some(MissingKey) && exists n :: StoppedAt(zones, blacklist, cs, scale, n, before, ops))
    && (regionsKnown ==>
          && AllRegionsKnown(kept)
          && LabelsOutcome(err, ops, before + MasteryOps(kept, LineWidth(cs.zoom, scale)), kept, cs, scale, boldFont, italicFont, nameBox, inkBox))
  }

  /**
   * What the label loop leaves: every label pasted after `before`, or the
   * error of the first label that cannot be made after the labels before it.
   */
  ghost predicate LabelsOutcome(err: Option<Error>, ops: seq<DrawOp>, before: seq<DrawOp>, kept: seq<Kept>,
                                cs: MapCoordinates.CoordinateSystem, scale: real,
                                boldFont: int -> Font, italicFont: int -> Font,
                                nameBox: (string, Font) -> (real, real), inkBox: Raster -> Rect)
    requires MapCoordinates.Valid(cs)
  {
    && (err.None? ==> AllMade(MadeLabels(kept, cs, scale, boldFont, italicFont, nameBox, inkBox)) && ops == before + Pastes(MadeLabels(kept, cs, scale, boldFont, italicFont, nameBox, inkBox)))
    && (err.Some? ==>
          exists j :: 0 <= j < |kept| &&
            var made := MadeLabels(kept[..j], cs, scale, boldFont, italicFont, nameBox, inkBox);
            && AllMade(made) && ops == before + Pastes(made)
            && MasteryLabel(kept[j], cs, scale, boldFont, italicFont, nameBox, inkBox) == Err(err.value))
  }

  /** Zones that all have a category order have known categories. */
  lemma KeyedZonesKnown(zones: seq<Zone>)
    requires forall i :: 0 <= i < |zones| ==> HasSortKey(CategoryOrders, zones[i])
    ensures KnownCategories(zones)
  {
  }

  /**
   * `draw_overlay`: sorts the zones in place by (category order, id),
   * outlines the kept zones, then pastes one label per kept zone, in the
   * same order.
   */
  method DrawOverlay(image: Image, zones: array<Zone>, blacklist: set<int>, cs: MapCoordinates.CoordinateSystem,
                     scale: real, boldFont: int -> Font, italicFont: int -> Font,
                     nameBox: (string, Font) -> (real, real), inkBox: Raster -> Rect)
    returns (err: Option<Error>)
    requires MapCoordinates.Valid(cs)
    modifies image, zones
    ensures (exists i :: 0 <= i < zones.Length && !HasSortKey(CategoryOrders, old(zones[i]))) ==>
      err == Some(MissingKey) && zones[..] == old(zones[..]) && image.ops == old(image.ops)
    ensures multiset(zones[..]) == multiset(old(zones[..]))
    ensures err.None? ==> SortedBy(zones[..], ZoneKey(CategoryOrders)) && KnownCategories(zones[..])
    ensures (forall i :: 0 <= i < zones.Length ==> HasSortKey(CategoryOrders, old(zones[i]))) ==>
      && SortedBy(zones[..], ZoneKey(CategoryOrders)) && KnownCategories(zones[..])
      && OverlayOutcome(err, image.ops, old(image.ops), zones[..], blacklist, cs, scale, boldFont, italicFont, nameBox, inkBox)
    ensures err.None? ==>
      var kept := SelectKept(zones[..], blacklist, cs);
      AllRegionsKnown(kept)
      && OutlinedThenLabelled(image.ops, old(image.ops), kept, LineWidth(cs.zoom, scale),
                              cs, scale, boldFont, italicFont, nameBox, inkBox)
  {
    ghost var before := zones[..];
    err := SortZones(zones, CategoryOrders);
    if err.Some? {
      return;
    }
    assert forall i :: 0 <= i < |before| ==> HasSortKey(CategoryOrders, before[i]);
    PermutationKeepsKeys(CategoryOrders, before, zones[..]);
    KeyedZonesKnown(zones[..]);
    ghost var sorted := zones[..];
    ghost var beforeOutlines := image.ops;
    var kept := DrawBoundaries(image, zones[..], blacklist, cs, scale);
    if kept.Err? {
      assert OverlayOutcome(Some(kept.error), image.ops, beforeOutlines, sorted, blacklist, cs, scale, boldFont, italicFont, nameBox, inkBox);
      return Some(kept.error);
    }
    ghost var outlined := image.ops;
    err := DrawLabels(image, kept.value, cs, scale, boldFont, italicFont, nameBox, inkBox);
    assert LabelsOutcome(err, image.ops, outlined, kept.value, cs, scale, boldFont, italicFont, nameBox, inkBox);
    assert OverlayOutcome(err, image.ops, beforeOutlines, sorted, blacklist, cs, scale, boldFont, italicFont, nameBox, inkBox);
    assert zones[..] == sorted;
  }
}
