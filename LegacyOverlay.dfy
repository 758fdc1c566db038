/**
 * The older zone overlay of mapgen/map_overlay.py: font sizes grow with
 * 1.5^zoom and are clamped; zone rectangles inside the sector are outlined
 * one pixel wide in (boundary order, id) order; labels follow in (label
 * order, id) order, each the zone name wrapped at whitespace, the category
 * label and the level range, stacked and centred on the zone.
 */
module LegacyOverlay {
  import opened Basics
  import opened Text
  import opened Canvas
  import opened Zones
  import opened Sorting
  import opened OverlayUtil
  import ZoneOverlay
  import MapCoordinates

  // ---------------------------------------------------------------- font sizes

  function Pow15(n: nat): (r: real)
    ensures r >= 1.0
  {
    if n == 0 then 1.0 else 1.5 * Pow15(n - 1)
  }

  /** `((zoom_factor + 1) / 2) ** zoom` with a zoom factor of 2. */
  function TextZoomMultiplier(zoom: int): (m: real)
    ensures m > 0.0
    ensures zoom >= 0 ==> m >= 1.0
  {
    if zoom >= 0 then Pow15(zoom) else 1.0 / Pow15(-zoom)
  }

  /** One zoom level more makes the text half as large again. */
  lemma TextZoomStep(zoom: int)
    requires zoom >= 0
    ensures TextZoomMultiplier(zoom + 1) == 1.5 * TextZoomMultiplier(zoom)
  {
  }

  function MainFontSize(zoom: int): (n: int)
    ensures 8 <= n <= 32
  {
    Min(32, Max(8, Round(6.0 * TextZoomMultiplier(zoom))))
  }

  function SubFontSize(zoom: int): (n: int)
    ensures 8 <= n <= 28
  {
    Min(28, Max(8, Round(4.75 * TextZoomMultiplier(zoom))))
  }

  /** The font sizes never shrink as the zoom grows. */
  lemma FontSizesMonotone(zoom: int)
    requires zoom >= 0
    ensures MainFontSize(zoom) <= MainFontSize(zoom + 1)
    ensures SubFontSize(zoom) <= SubFontSize(zoom + 1)
  {
    var m := TextZoomMultiplier(zoom);
    TextZoomStep(zoom);
    RoundMonotone(6.0 * m, 6.0 * (1.5 * m));
    RoundMonotone(4.75 * m, 4.75 * (1.5 * m));
  }

  /** The name is never set smaller than the lines below it. */
  lemma MainFontAtLeastSub(zoom: int)
    ensures SubFontSize(zoom) <= MainFontSize(zoom)
  {
    RoundMonotone(4.75 * TextZoomMultiplier(zoom), 6.0 * TextZoomMultiplier(zoom));
  }

  // ---------------------------------------------------------------- whitespace wrap

  /** The lines of the old `get_wrapped_text_lines`: the greedy wrap of the text's whitespace-separated words. */
  function LegacyWrapText(text: string, font: Font, width: real): seq<string>
  {
    JoinEach(WrapGroups(SplitWhitespace(text), font.getLength, width))
  }

  /**
   * The old `get_wrapped_text_lines`: words come from `text.split()` and
   * each candidate line is `f'{last} {word}'.strip()`; the append rule is
   * the same as the newer wrap's.
   */
  method LegacyGetWrappedTextLines(text: string, font: Font, lineLength: real) returns (lines: seq<string>)
    ensures lines == LegacyWrapText(text, font, lineLength)
  {
    var words := SplitWhitespace(text);
    lines := [""];
    assert words[..0] == [];
    assert JoinEach([[]]) == [Join([], " ")];
    for i := 0 to |words|
      invariant lines == JoinEach(WrapGroups(words[..i], font.getLength, lineLength))
      invariant i == 0 ==> lines == [""]
      invariant i > 0 ==> AllTrimmed(lines)
    {
      var word := words[i];
      var last := lines[|lines| - 1];
      var line := Strip(last + " " + word);
      var next := if font.getLength(line) <= lineLength || |last| < 3 then lines[|lines| - 1 := line] else lines + [word];
      StrippedCandidate(lines, word, i == 0);
      WrapLoopStep(words, i, lines, font.getLength, lineLength);
      lines := next;
    }
    assert words[..|words|] == words;
  }

  predicate AllTrimmed(lines: seq<string>)
  {
    forall k :: 0 <= k < |lines| ==> Trimmed(lines[k])
  }

  /**
   * The stripped candidate line: the word alone after the initial empty
   * line, the last line, a space and the word otherwise; both possible
   * next line lists keep every line trimmed.
   */
  lemma StrippedCandidate(lines: seq<string>, word: string, first: bool)
    requires Word(word)
    requires first ==> lines == [""]
    requires !first ==> |lines| >= 1 && AllTrimmed(lines)
    ensures var last := lines[|lines| - 1];
            var line := if first then word else last + " " + word;
            && Strip(last + " " + word) == line
            && AllTrimmed(lines[|lines| - 1 := line])
            && (!first ==> AllTrimmed(lines + [word]))
  {
    var last := lines[|lines| - 1];
    assert Trimmed(word);
    if first {
      assert last + " " + word == " " + word;
      StripLeadingSpace(word);
    } else {
      TrimmedJoin(last, word);
      StripTrimmed(last + " " + word);
    }
  }

  /** Joining the lines with single spaces gives the words of the text joined with single spaces. */
  lemma LegacyWrapRoundTrip(text: string, font: Font, width: real)
    ensures Join(LegacyWrapText(text, font, width), " ") == Join(SplitWhitespace(text), " ")
  {
    var words := SplitWhitespace(text);
    if |words| == 0 {
      assert WrapGroups(words, font.getLength, width) == [[]];
      assert JoinEach([[]]) == [Join([], " ")];
    } else {
      WrapGroupsShape(words, font.getLength, width);
      JoinFlatten(WrapGroups(words, font.getLength, width));
    }
  }

  /** An empty or blank text wraps to one empty line. */
  lemma LegacyWrapBlank(text: string, font: Font, width: real)
    requires forall i :: 0 <= i < |text| ==> IsSpace(text[i])
    ensures LegacyWrapText(text, font, width) == [""]
  {
    SplitWhitespaceOfBlank(text);
    assert JoinEach([[]]) == [Join([], " ")];
  }

  /** Every line but the last has at least 3 characters, and the next line's first word did not fit after it. */
  lemma LegacyBreakRule(text: string, font: Font, width: real, l: int)
    requires 1 <= l < |LegacyWrapText(text, font, width)|
    ensures var lines := LegacyWrapText(text, font, width);
            var groups := WrapGroups(SplitWhitespace(text), font.getLength, width);
            && |lines[l - 1]| >= 3
            && |groups[l]| >= 1
            && font.getLength(lines[l - 1] + " " + groups[l][0]) > width
  {
    var words := SplitWhitespace(text);
    var groups := WrapGroups(words, font.getLength, width);
    WrapBreakRule(words, font.getLength, width);
    assert BreakBefore(groups, l, font.getLength, width);
  }

  // ---------------------------------------------------------------- boundaries

  /** A category's orders, colour, level switch and type label. */
  datatype LegacyCategory = LegacyCategory(
    boundaryOrder: int, labelOrder: int, color: Color, showLevel: bool, typeLabel: Option<string>)

  const Orange: Color := Rgba(255, 160, 0, 255)

  const Categories: map<string, LegacyCategory> := map[
    "city" := LegacyCategory(0, 2, White, false, Some("City")),
    "open_world" := LegacyCategory(0, 1, White, true, None),
    "guild_hall" := LegacyCategory(1, 0, Orange, false, Some("Guild hall")),
    "dungeon" := LegacyCategory(1, 0, Orange, false, Some("Dungeon")),
    "raid" := LegacyCategory(1, 0, Orange, false, Some("Raid")),
    "story" := LegacyCategory(1, 0, Orange, false, Some("Story"))]

  const BoundaryOrders: map<string, int> := map c | c in Categories :: Categories[c].boundaryOrder

  datatype Drawn = Drawn(zone: Zone, imageRect: Rect, settings: LegacyCategory)

  predicate KnownCategories(zones: seq<Zone>)
  {
    forall i :: 0 <= i < |zones| ==> zones[i].category in Categories
  }


  /** The entry a zone inside the sector becomes. */
  function DrawnEntry(cs: MapCoordinates.CoordinateSystem, z: Zone): Drawn
    requires MapCoordinates.Valid(cs) && z.category in Categories
  {
    Drawn(z, MapCoordinates.ContinentToSectorImageRect(cs, z.continentRect), Categories[z.category])
  }

  /** The zones inside the sector, in order. */
  function SelectDrawn(zones: seq<Zone>, cs: MapCoordinates.CoordinateSystem): (drawn: seq<Drawn>)
    requires MapCoordinates.Valid(cs) && KnownCategories(zones)
    ensures |drawn| <= |zones|
    ensures forall k :: 0 <= k < |drawn| ==> MapCoordinates.IsRectContained(cs, drawn[k].zone.continentRect)
  {
    if |zones| == 0 then []
    else
      var z := zones[|zones| - 1];
      SelectDrawn(zones[..|zones| - 1], cs)
        + (if MapCoordinates.IsRectContained(cs, z.continentRect)
           then [DrawnEntry(cs, z)]
           else [])
  }

  /** The drawn zones among the first `n`, counted by index rather than by slicing. */
  function SelectFirst(zones: seq<Zone>, n: nat, cs: MapCoordinates.CoordinateSystem): seq<Drawn>
    requires MapCoordinates.Valid(cs) && KnownCategories(zones) && n <= |zones|
  {
    if n == 0 then []
    else
      SelectFirst(zones, n - 1, cs)
        + (if MapCoordinates.IsRectContained(cs, zones[n - 1].continentRect) then [DrawnEntry(cs, zones[n - 1])] else [])
  }

  /** Counting by index selects what the selection of the prefix does. */
  lemma {:induction false} SelectFirstIsPrefix(zones: seq<Zone>, n: nat, cs: MapCoordinates.CoordinateSystem)
    requires MapCoordinates.Valid(cs) && KnownCategories(zones) && n <= |zones|
    ensures KnownCategories(zones[..n]) && SelectFirst(zones, n, cs) == SelectDrawn(zones[..n], cs)
  {
    assert forall k :: 0 <= k < n ==> zones[..n][k] == zones[k];
    if n > 0 {
      SelectFirstIsPrefix(zones, n - 1, cs);
      assert zones[..n][..n - 1] == zones[..n - 1];
    }
  }

  /** The one-pixel outline of a zone's own image rectangle, in its category colour. */
  function BoundaryOp(d: Drawn): DrawOp
  {
    Rectangle(d.imageRect, 1, d.settings.color, None)
  }

  function BoundaryOps(drawn: seq<Drawn>): (ops: seq<DrawOp>)
    ensures |ops| == |drawn|
    ensures forall k :: 0 <= k < |drawn| ==> ops[k] == BoundaryOp(drawn[k])
  {
    if |drawn| == 0 then [] else BoundaryOps(drawn[..|drawn| - 1]) + [BoundaryOp(drawn[|drawn| - 1])]
  }

  /** One more drawn zone adds its outline after those already drawn. */
  lemma BoundaryOpsSnoc(before: seq<DrawOp>, drawn: seq<Drawn>, d: Drawn)
    ensures before + BoundaryOps(drawn) + [BoundaryOp(d)] == before + BoundaryOps(drawn + [d])
  {
    assert (drawn + [d])[..|drawn|] == drawn;
  }

  /** The body of the boundary loop for a zone inside the sector: outline it and return its entry. */
  method OutlineZone(image: Image, zone: Zone, cs: MapCoordinates.CoordinateSystem) returns (entry: Drawn)
    requires MapCoordinates.Valid(cs) && zone.category in Categories
    modifies image
    ensures entry == DrawnEntry(cs, zone)
    ensures image.size == old(image.size)
    ensures image.ops == old(image.ops) + [BoundaryOp(entry)]
  {
    var zoneImageBounds := MapCoordinates.ContinentToSectorImageRect(cs, zone.continentRect);
    var settings := Categories[zone.category];
    image.DrawRectangle(zoneImageBounds, 1, settings.color, None);
    entry := Drawn(zone, zoneImageBounds, settings);
  }

  method DrawBoundaries(image: Image, zones: seq<Zone>, cs: MapCoordinates.CoordinateSystem) returns (drawn: seq<Drawn>)
    requires MapCoordinates.Valid(cs) && KnownCategories(zones)
    modifies image
    ensures drawn == SelectDrawn(zones, cs)
    ensures image.size == old(image.size)
    ensures image.ops == old(image.ops) + BoundaryOps(drawn)
  {
    drawn := [];
    for i := 0 to |zones|
      invariant drawn == SelectFirst(zones, i, cs)
      invariant image.size == old(image.size)
      invariant image.ops == old(image.ops) + BoundaryOps(drawn)
    {
      var zone := zones[i];
      if !MapCoordinates.IsRectContained(cs, zone.continentRect) {
        continue;
      }
      var entry := OutlineZone(image, zone, cs);
      BoundaryOpsSnoc(old(image.ops), drawn, entry);
      drawn := drawn + [entry];
    }
    SelectFirstIsPrefix(zones, |zones|, cs);
    assert zones[..|zones|] == zones;
  }

  function LabelKey(d: Drawn): (int, int)
  {
    (d.settings.labelOrder, if d.zone.id.Some? then d.zone.id.value else 0)
  }

  method LabelArray(drawn: seq<Drawn>) returns (labels: array<Drawn>)
    ensures fresh(labels) && labels[..] == drawn
  {
    labels := new Drawn[|drawn|](k requires 0 <= k < |drawn| => drawn[k]);
  }

  /**
   * The ordering of `ZoneBoundaryOverlay.draw_overlay`: sorts the zones by
   * (boundary order, id), outlines those inside the sector, and returns
   * them in label order (label order, id).
   */
  method OrderZones(image: Image, zones: array<Zone>, cs: MapCoordinates.CoordinateSystem)
    returns (r: Result<seq<Drawn>>)
    requires MapCoordinates.Valid(cs)
    modifies image, zones
    ensures r.Err? <==> exists i :: 0 <= i < zones.Length && !HasSortKey(BoundaryOrders, old(zones[i]))
    ensures r.Err? ==> r.error == MissingKey && zones[..] == old(zones[..]) && image.ops == old(image.ops)
    ensures r.Ok? ==> SortedBy(zones[..], ZoneKey(BoundaryOrders)) && multiset(zones[..]) == multiset(old(zones[..]))
    ensures r.Ok? ==> KnownCategories(zones[..])
    ensures r.Ok? ==> image.ops == old(image.ops) + BoundaryOps(SelectDrawn(zones[..], cs))
    ensures r.Ok? ==> SortedBy(r.value, LabelKey) && multiset(r.value) == multiset(SelectDrawn(zones[..], cs))
    ensures r.Ok? ==> |r.value| == |SelectDrawn(zones[..], cs)|
  {
    ghost var before := zones[..];
    var err := SortZones(zones, BoundaryOrders);
    if err.Some? {
      return Err(err.value);
    }
    assert forall i :: 0 <= i < |before| ==> HasSortKey(BoundaryOrders, before[i]);
    PermutationKeepsKeys(BoundaryOrders, before, zones[..]);
    ghost var sorted := zones[..];
    var drawn := DrawBoundaries(image, zones[..], cs);
    var labels := LabelArray(drawn);
    SortBy(labels, LabelKey);
    assert zones[..] == sorted;
    return Ok(labels[..]);
  }

  // ---------------------------------------------------------------- labels

  /** The metrics the layout reads from the two fonts. */
  datatype Metrics = Metrics(mainAscent: int, mainDescent: int, subAscent: int, subDescent: int)

  /**
   * The bounded wrap width: the zone width stretched by up to twice for
   * flat zones, less 8, at least four name ascents, at most the label image
   * width. When the name ascent plus the margin is 0 the two reference
   * heights coincide and the ratio divides by zero.
   */
  function LegacyWrapWidth(m: Metrics, margin: int, bounds: Rect, imageWidth: int): (r: Result<real>)
    ensures r.Err? <==> m.mainAscent + margin == 0
    ensures r.Err? ==> r.error == DivisionByZero
    ensures r.Ok? ==> r.value <= imageWidth as real
    ensures r.Ok? ==> r.value >= MinReal(imageWidth as real, (4 * m.mainAscent) as real)
    ensures r.Ok? && bounds.topLeft.x <= bounds.bottomRight.x ==>
      var w := (bounds.bottomRight.x - bounds.topLeft.x) as real;
      r.value <= MaxReal((4 * m.mainAscent) as real, 2.0 * w - 8.0)
      && (imageWidth as real >= w - 8.0 ==> r.value >= w - 8.0)
  {
    var width := (bounds.bottomRight.x - bounds.topLeft.x) as real;
    var height := (bounds.bottomRight.y - bounds.topLeft.y) as real;
    var heightForMaxWidth := 2 * (m.mainAscent + m.mainDescent + margin) + m.subAscent + m.subDescent;
    var heightForMinWidth := 1 * (m.mainAscent + margin) + heightForMaxWidth;
    if heightForMinWidth == heightForMaxWidth then Err(DivisionByZero)
    else
      var f := WidthFactor(height, heightForMaxWidth as real, heightForMinWidth as real);
      var ideal := f * width - 8.0;
      assert bounds.topLeft.x <= bounds.bottomRight.x ==> width - 8.0 <= ideal <= 2.0 * width - 8.0 by {
        if bounds.topLeft.x <= bounds.bottomRight.x { ScaleBetween(f, width); }
      }
      var minWidth := (4 * m.mainAscent) as real;
      Ok(MinReal(imageWidth as real, MaxReal(minWidth, ideal)))
  }

  /**
   * The temporary label image: at least 250 each way, wide enough for the
   * name box plus 10 and twice the zone's far x, tall enough for ten name
   * boxes plus 10 and twice the zone's far y.
   */
  function LegacyLabelImageSize(nameRight: int, nameBottom: int, bounds: Rect): (size: Point)
    ensures size.x >= 250 && size.x >= nameRight + 10 && size.x >= 2 * bounds.bottomRight.x
    ensures size.x == 250 || size.x == nameRight + 10 || size.x == 2 * bounds.bottomRight.x
    ensures size.y >= 250 && size.y >= 10 * nameBottom + 10 && size.y >= 2 * bounds.bottomRight.y
    ensures size.y == 250 || size.y == 10 * nameBottom + 10 || size.y == 2 * bounds.bottomRight.y
  {
    Point(Max(Max(250, nameRight + 10), 2 * bounds.bottomRight.x),
          Max(Max(250, 10 * nameBottom + 10), 2 * bounds.bottomRight.y))
  }

  /** The level text as the file spells it: the en dash saved in one encoding and read back in another. */
  function LegacyLevelTextAsWritten(minLevel: int, maxLevel: int): string
  {
    if minLevel == maxLevel then IntToString(minLevel)
    else IntToString(minLevel) + "\U{00E2}\U{20AC}\U{201C}" + IntToString(maxLevel)
  }

  /** For a level range the text as written has no en dash, unlike the range text of the newer overlay. */
  lemma LegacyLevelTextMisencoded(minLevel: int, maxLevel: int)
    requires minLevel != maxLevel
    ensures '\U{2013}' !in LegacyLevelTextAsWritten(minLevel, maxLevel)
    ensures '\U{20AC}' in LegacyLevelTextAsWritten(minLevel, maxLevel)
    ensures LegacyLevelTextAsWritten(minLevel, maxLevel) != ZoneOverlay.LevelText(minLevel, maxLevel)
  {
    var a := IntToString(minLevel);
    var b := IntToString(maxLevel);
    var t := LegacyLevelTextAsWritten(minLevel, maxLevel);
    assert t == a + "\U{00E2}\U{20AC}\U{201C}" + b;
    assert t[|a| + 1] == '\U{20AC}';
    forall i | 0 <= i < |t| ensures t[i] != '\U{2013}' {
      if i < |a| { assert t[i] == a[i]; }
      else if i >= |a| + 3 { assert t[i] == b[i - |a| - 3]; }
    }
    ZoneOverlay.LevelTextDash(minLevel, maxLevel);
  }

  /**
   * The draws of one label, top to bottom: the name lines one ascent plus
   * margin apart; below them, after the name descent, the category label
   * when there is one; then the level text, spelled as the file spells it,
   * when levels are shown; all centred on `posX` in the category colour.
   */
  function LegacyDraws(nameLines: seq<string>, zone: Zone, settings: LegacyCategory, m: Metrics, margin: int,
                       mainSize: int, subSize: int, posX: real): (draws: seq<TextDraw>)
    ensures var n := |nameLines|;
            var typeLine := if settings.typeLabel.Some? && settings.typeLabel.value != "" then 1 else 0;
            var levelLine := if settings.showLevel then 1 else 0;
            var subTop := n * (m.mainAscent + margin) + m.mainDescent;
            && |draws| == n + typeLine + levelLine
            && (forall i :: 0 <= i < n ==>
                  draws[i] == TextDraw(posX, i * (m.mainAscent + margin), nameLines[i], mainSize, "ma", 2, settings.color))
            && (typeLine == 1 ==>
                  draws[n] == TextDraw(posX, subTop, settings.typeLabel.value, subSize, "ma", 2, settings.color))
            && (levelLine == 1 ==>
                  draws[|draws| - 1] == TextDraw(posX, subTop + typeLine * (m.subAscent + m.subDescent + margin),
                                                 LegacyLevelTextAsWritten(zone.minLevel, zone.maxLevel), subSize, "ma", 2,
                                                 settings.color))
  {
    var step := m.mainAscent + margin;
    var names := seq(|nameLines|, i requires 0 <= i < |nameLines| =>
                       TextDraw(posX, i * step, nameLines[i], mainSize, "ma", 2, settings.color));
    var subTop := |nameLines| * step + m.mainDescent;
    var hasType := settings.typeLabel.Some? && settings.typeLabel.value != "";
    var typeDraw := if hasType then [TextDraw(posX, subTop, settings.typeLabel.value, subSize, "ma", 2, settings.color)] else [];
    var levelTop := if hasType then subTop + m.subAscent + m.subDescent + margin else subTop;
    var levelDraw := if settings.showLevel
                     then [TextDraw(posX, levelTop, LegacyLevelTextAsWritten(zone.minLevel, zone.maxLevel), subSize, "ma", 2,
                                    settings.color)]
                     else [];
    names + typeDraw + levelDraw
  }

  /** The drawing loop of one label, with a running vertical position. */
  method LegacyLabelDraws(nameLines: seq<string>, zone: Zone, settings: LegacyCategory, m: Metrics, margin: int,
                          mainSize: int, subSize: int, posX: real)
    returns (draws: seq<TextDraw>)
    ensures draws == LegacyDraws(nameLines, zone, settings, m, margin, mainSize, subSize, posX)
  {
    var step := m.mainAscent + margin;
    var labelPosY := 0;
    draws := [];
    for i := 0 to |nameLines|
      invariant |draws| == i && labelPosY == i * step
      invariant forall k :: 0 <= k < i ==> draws[k] == TextDraw(posX, k * step, nameLines[k], mainSize, "ma", 2, settings.color)
    {
      draws := draws + [TextDraw(posX, labelPosY, nameLines[i], mainSize, "ma", 2, settings.color)];
      labelPosY := labelPosY + m.mainAscent + margin;
    }
    labelPosY := labelPosY + m.mainDescent;
    if settings.typeLabel.Some? && settings.typeLabel.value != "" {
      draws := draws + [TextDraw(posX, labelPosY, settings.typeLabel.value, subSize, "ma", 2, settings.color)];
      labelPosY := labelPosY + m.subAscent + m.subDescent + margin;
    }
    if settings.showLevel {
      var levelText := LegacyLevelTextAsWritten(zone.minLevel, zone.maxLevel);
      draws := draws + [TextDraw(posX, labelPosY, levelText, subSize, "ma", 2, settings.color)];
    }
  }

  /** Where a label is pasted: centred on the zone, horizontally by image width, vertically by its ink height. */
  function LegacyPastePosition(bounds: Rect, size: Point, ink: Rect): (pos: Point)
    ensures var cx := bounds.topLeft.x + bounds.bottomRight.x;
            cx - 1 <= 2 * pos.x + size.x <= cx + 1
    ensures var cy := bounds.topLeft.y + bounds.bottomRight.y;
            var h := ink.bottomRight.y - ink.topLeft.y;
            cy - 1 <= 2 * pos.y + h <= cy + 1
  {
    Point(Round((bounds.topLeft.x + bounds.bottomRight.x - size.x) as real / 2.0),
          Round((bounds.topLeft.y + bounds.bottomRight.y - ink.bottomRight.y + ink.topLeft.y) as real / 2.0))
  }

  /**
   * The label of one drawn zone: the name wrapped at the bounded wrap width
   * for the zoom's half margin, drawn centred on an image of the legacy
   * size, pasted centred on the zone. The name box and the label's ink box
   * come from the fonts and the rendered image, as `nameBox` and `inkBox`.
   */
  function LegacyLabel(d: Drawn, mainFont: Font, subFont: Font, zoom: int,
                       nameBox: (string, Font) -> (int, int), inkBox: Raster -> Rect): (r: Result<ZoneLabel>)
    ensures r.Err? <==> mainFont.ascent + zoom / 2 == 0
    ensures r.Err? ==> r.error == DivisionByZero
    ensures r.Ok? ==> r.value.raster.LabelImage? && r.value.raster.size.x >= 250 && r.value.raster.size.y >= 250
    ensures r.Ok? ==> r.value.at == LegacyPastePosition(d.imageRect, r.value.raster.size, inkBox(r.value.raster))
  {
    var m := Metrics(mainFont.ascent, mainFont.descent, subFont.ascent, subFont.descent);
    var box := nameBox(d.zone.name, mainFont);
    var size := LegacyLabelImageSize(box.0, box.1, d.imageRect);
    var width := LegacyWrapWidth(m, zoom / 2, d.imageRect, size.x);
    if width.Err? then Err(width.error)
    else
      var draws := LegacyDraws(LegacyWrapText(d.zone.name, mainFont, width.value), d.zone, d.settings, m, zoom / 2,
                               mainFont.size, subFont.size, size.x as real / 2.0);
      var raster := LabelImage(size, draws);
      Ok(ZoneLabel(raster, LegacyPastePosition(d.imageRect, size, inkBox(raster))))
  }

  /** `ZoneBoundaryOverlay.draw_label`. */
  method LegacyLayoutLabel(d: Drawn, mainFont: Font, subFont: Font, zoom: int,
                           nameBox: (string, Font) -> (int, int), inkBox: Raster -> Rect)
    returns (r: Result<ZoneLabel>)
    ensures r == LegacyLabel(d, mainFont, subFont, zoom, nameBox, inkBox)
    ensures r.Ok? ==>
      var m := Metrics(mainFont.ascent, mainFont.descent, subFont.ascent, subFont.descent);
      var size := LegacyLabelImageSize(nameBox(d.zone.name, mainFont).0, nameBox(d.zone.name, mainFont).1, d.imageRect);
      var width := LegacyWrapWidth(m, zoom / 2, d.imageRect, size.x);
      && width.Ok?
      && r.value.raster == LabelImage(size, LegacyDraws(LegacyWrapText(d.zone.name, mainFont, width.value), d.zone,
                                                        d.settings, m, zoom / 2, mainFont.size, subFont.size,
                                                        size.x as real / 2.0))
  {
    var m := Metrics(mainFont.ascent, mainFont.descent, subFont.ascent, subFont.descent);
    var labelMargin := zoom / 2;
    var (nameRight, nameBottom) := nameBox(d.zone.name, mainFont);
    var size := LegacyLabelImageSize(nameRight, nameBottom, d.imageRect);
    var width := LegacyWrapWidth(m, labelMargin, d.imageRect, size.x);
    if width.Err? {
      return Err(width.error);
    }
    var nameLines := LegacyGetWrappedTextLines(d.zone.name, mainFont, width.value);
    var draws := LegacyLabelDraws(nameLines, d.zone, d.settings, m, labelMargin, mainFont.size, subFont.size,
                                  size.x as real / 2.0);
    var raster := LabelImage(size, draws);
    return Ok(ZoneLabel(raster, LegacyPastePosition(d.imageRect, size, inkBox(raster))));
  }

  /** A finished label and where it goes. */
  datatype ZoneLabel = ZoneLabel(raster: Raster, at: Point)

  /** `op` pastes the label of `d` where it goes. */
  predicate PastedLabel(op: DrawOp, d: Drawn, mainFont: Font, subFont: Font, zoom: int,
                        nameBox: (string, Font) -> (int, int), inkBox: Raster -> Rect)
  {
    var r := LegacyLabel(d, mainFont, subFont, zoom, nameBox, inkBox);
    r.Ok? && op == Paste(r.value.raster, r.value.at)
  }

  /** Every drawn zone's label, in order, pasted from position `from` of `ops`. */
  predicate LabelsPasted(ops: seq<DrawOp>, from: nat, drawn: seq<Drawn>, mainFont: Font, subFont: Font, zoom: int,
                         nameBox: (string, Font) -> (int, int), inkBox: Raster -> Rect)
  {
    && |ops| == from + |drawn|
    && forall i :: 0 <= i < |drawn| ==> PastedLabel(ops[from + i], drawn[i], mainFont, subFont, zoom, nameBox, inkBox)
  }

  /**
   * The label loop: one label pasted per drawn zone, in the given order.
   * The only failure is the wrap-width division by zero, which depends on
   * the fonts and the zoom alone, so it stops the loop at its first zone.
   */
  method DrawLabels(image: Image, drawn: seq<Drawn>, mainFont: Font, subFont: Font, zoom: int,
                    nameBox: (string, Font) -> (int, int), inkBox: Raster -> Rect)
    returns (err: Option<Error>)
    modifies image
    ensures err.Some? <==> |drawn| > 0 && mainFont.ascent + zoom / 2 == 0
    ensures err.Some? ==> err.value == DivisionByZero && image.ops == old(image.ops)
    ensures image.size == old(image.size)
    ensures err.None? ==> LabelsPasted(image.ops, |old(image.ops)|, drawn, mainFont, subFont, zoom, nameBox, inkBox)
    ensures err.None? ==> image.ops[..|old(image.ops)|] == old(image.ops)
  {
    for i := 0 to |drawn|
      invariant image.size == old(image.size)
      invariant |image.ops| == |old(image.ops)| + i && image.ops[..|old(image.ops)|] == old(image.ops)
      invariant i > 0 ==> mainFont.ascent + zoom / 2 != 0
      invariant forall j :: 0 <= j < i ==> PastedLabel(image.ops[|old(image.ops)| + j], drawn[j], mainFont, subFont, zoom, nameBox, inkBox)
    {
      var placed := LegacyLayoutLabel(drawn[i], mainFont, subFont, zoom, nameBox, inkBox);
      if placed.Err? {
        return Some(placed.error);
      }
      ghost var prev := image.ops;
      image.Paste(placed.value.raster, placed.value.at);
      assert forall j :: 0 <= j < |prev| ==> image.ops[j] == prev[j];
      assert PastedLabel(image.ops[|old(image.ops)| + i], drawn[i], mainFont, subFont, zoom, nameBox, inkBox);
    }
    return None;
  }

  /** From position `from` on, `ops` pastes the labels of the zones of `drawn`, in label order. */
  ghost predicate LabelledInOrder(ops: seq<DrawOp>, from: nat, drawn: seq<Drawn>, mainFont: Font, subFont: Font,
                                  zoom: int, nameBox: (string, Font) -> (int, int), inkBox: Raster -> Rect)
  {
    exists labels :: SortedBy(labels, LabelKey) && multiset(labels) == multiset(drawn)
                     && LabelsPasted(ops, from, labels, mainFont, subFont, zoom, nameBox, inkBox)
  }

  lemma LabelledInOrderIntro(ops: seq<DrawOp>, from: nat, drawn: seq<Drawn>, labels: seq<Drawn>,
                             mainFont: Font, subFont: Font, zoom: int,
                             nameBox: (string, Font) -> (int, int), inkBox: Raster -> Rect)
    requires SortedBy(labels, LabelKey) && multiset(labels) == multiset(drawn)
    requires LabelsPasted(ops, from, labels, mainFont, subFont, zoom, nameBox, inkBox)
    ensures LabelledInOrder(ops, from, drawn, mainFont, subFont, zoom, nameBox, inkBox)
  {
  }

  /** `ops` begins with `before` followed by the outlines of the drawn zones. */
  predicate OutlinedFirst(ops: seq<DrawOp>, before: seq<DrawOp>, drawn: seq<Drawn>)
  {
    |ops| >= |before| + |drawn| && ops[..|before| + |drawn|] == before + BoundaryOps(drawn)
  }

  /** Appending after an outlined prefix keeps it outlined. */
  lemma OutlinedFirstKept(ops: seq<DrawOp>, outlined: seq<DrawOp>, before: seq<DrawOp>, drawn: seq<Drawn>)
    requires outlined == before + BoundaryOps(drawn)
    requires |ops| >= |outlined| && ops[..|outlined|] == outlined
    ensures OutlinedFirst(ops, before, drawn)
  {
  }

  /**
   * `ZoneBoundaryOverlay.draw_overlay`: the fonts are the bold and regular
   * faces at the zoom's two clamped sizes; the zones are sorted and
   * outlined, then labelled in label order.
   */
  method DrawOverlay(image: Image, zones: array<Zone>, cs: MapCoordinates.CoordinateSystem,
                     fontOf: (int, bool) -> Font, nameBox: (string, Font) -> (int, int), inkBox: Raster -> Rect)
    returns (err: Option<Error>)
    requires MapCoordinates.Valid(cs)
    modifies image, zones
    ensures (exists i :: 0 <= i < zones.Length && !HasSortKey(BoundaryOrders, old(zones[i]))) ==>
      err == Some(MissingKey) && zones[..] == old(zones[..]) && image.ops == old(image.ops)
    ensures err == Some(MissingKey) ==> exists i :: 0 <= i < zones.Length && !HasSortKey(BoundaryOrders, old(zones[i]))
    ensures multiset(zones[..]) == multiset(old(zones[..]))
    ensures err != Some(MissingKey) ==> SortedBy(zones[..], ZoneKey(BoundaryOrders)) && KnownCategories(zones[..])
    ensures err != Some(MissingKey) && KnownCategories(zones[..]) ==>
      var drawn := SelectDrawn(zones[..], cs);
      && OutlinedFirst(image.ops, old(image.ops), drawn)
      && (err.Some? <==> |drawn| > 0 && fontOf(MainFontSize(cs.zoom), true).ascent + cs.zoom / 2 == 0)
      && (err.None? ==> |image.ops| == |old(image.ops)| + 2 * |drawn|)
      && (err.None? ==>
            LabelledInOrder(image.ops, |old(image.ops)| + |drawn|, drawn, fontOf(MainFontSize(cs.zoom), true),
                            fontOf(SubFontSize(cs.zoom), false), cs.zoom, nameBox, inkBox))
  {
    var mainFont := fontOf(MainFontSize(cs.zoom), true);
    var subFont := fontOf(SubFontSize(cs.zoom), false);
    var ordered := OrderZones(image, zones, cs);
    if ordered.Err? {
      return Some(ordered.error);
    }
    ghost var sorted := zones[..];
    ghost var drawn := SelectDrawn(sorted, cs);
    ghost var outlined := image.ops;
    assert |outlined| == |old(image.ops)| + |drawn|;
    err := DrawLabels(image, ordered.value, mainFont, subFont, cs.zoom, nameBox, inkBox);
    assert zones[..] == sorted;
    assert err != Some(MissingKey);
    assert |image.ops| >= |outlined| && image.ops[..|outlined|] == outlined;
    OutlinedFirstKept(image.ops, outlined, old(image.ops), drawn);
    assert err.Some? <==> |drawn| > 0 && mainFont.ascent + cs.zoom / 2 == 0;
    assert err.None? ==> |image.ops| == |old(image.ops)| + 2 * |drawn|;
    if err.None? {
      LabelledInOrderIntro(image.ops, |outlined|, drawn, ordered.value, mainFont, subFont, cs.zoom,
                           nameBox, inkBox);
    }
  }
}
