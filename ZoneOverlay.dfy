/**
 * The zone overlay of mapgen/overlay/zone_overlay.py: zone boundaries are
 * drawn in (boundary order, id) order for the zones inside the sector, and
 * their labels afterwards in (label order, id) order. A label is a stack of
 * text lines (the wrapped zone name, then the type, level and access lines)
 * whose y positions accumulate line by line; each line is a row of coloured
 * segments laid out left to right. Composite portal icons are split into
 * equal pie slices, and a connection line between two portals is drawn on
 * an image padded by a margin around both ends.
 */
module ZoneOverlay {
  import opened Basics
  import opened Text
  import opened Canvas
  import opened Zones
  import opened Sorting
  import opened OverlayUtil
  import MapCoordinates

  /** A zone category's entry in the category table. */
  datatype CategorySettings = CategorySettings(
    boundaryOrder: int, labelOrder: int, special: bool, showLevel: bool, typeLabel: Option<string>)

  const Categories: map<string, CategorySettings> := map[
    "city" := CategorySettings(0, 2, false, false, Some("City")),
    "lobby" := CategorySettings(0, 2, false, false, Some("Lobby")),
    "outpost" := CategorySettings(0, 2, false, false, Some("Outpost")),
    "open_world" := CategorySettings(0, 1, false, true, None),
    "festival" := CategorySettings(1, 0, true, false, Some("Festival zone")),
    "guild_hall" := CategorySettings(1, 0, true, false, Some("Guild hall")),
    "dungeon" := CategorySettings(1, 0, true, false, Some("Dungeon")),
    "raid" := CategorySettings(1, 0, true, false, Some("Raid")),
    "strike" := CategorySettings(1, 0, true, false, Some("Strike mission")),
    "story" := CategorySettings(1, 0, true, false, Some("Story")),
    "hybrid_instance" := CategorySettings(1, 0, true, false, Some("Boss instance")),
    "lounge" := CategorySettings(0, 0, false, false, Some("Lounge")),
    "misc" := CategorySettings(1, 0, true, false, None)]

  /** An access requirement's label and colour. */
  datatype Access = Access(text: string, color: Color)

  const AccessSettings: map<string, Access> := map[
    "gw2" := Access("Core", Rgba(255, 157, 140, 255)),
    "lw1" := Access("Core", Rgba(255, 157, 140, 255)),
    "lw2" := Access("Core", Rgba(255, 157, 140, 255)),
    "hot" := Access("Heart\U{00A0}of\U{00A0}Thorns", Rgba(153, 255, 164, 255)),
    "lw3" := Access("Living\U{00A0}World Season\U{00A0}3", Rgba(186, 255, 193, 255)),
    "pof" := Access("Path\U{00A0}of\U{00A0}Fire", Rgba(239, 153, 255, 255)),
    "lw4" := Access("Living\U{00A0}World Season\U{00A0}4", Rgba(246, 196, 255, 255)),
    "lw5" := Access("The\U{00A0}Icebrood Saga", Rgba(180, 217, 240, 255)),
    "eod" := Access("End\U{00A0}of Dragons", Rgba(140, 255, 245, 255)),
    "soto" := Access("Secrets\U{00A0}of the\U{00A0}Obscure", Rgba(255, 226, 115, 255)),
    "gem" := Access("Gem\U{00A0}Store", Rgba(182, 196, 204, 255))]

  const BaseLineColor: Color := Rgba(255, 255, 255, 255)
  const SpecialLineColor: Color := Rgba(255, 174, 0, 255)

  /** The boundary order of each category. */
  const BoundaryOrders: map<string, int> := map c | c in Categories :: Categories[c].boundaryOrder

  // ---------------------------------------------------------------- boundaries

  /** A zone kept for drawing: the zone, its rectangle in the sector image, its category settings. */
  datatype DrawnZone = DrawnZone(zone: Zone, imageRect: Rect, settings: CategorySettings)

  predicate KnownCategories(zones: seq<Zone>)
  {
    forall i :: 0 <= i < |zones| ==> zones[i].category in Categories
  }

  lemma KnownCategoriesPrefix(zones: seq<Zone>, n: int)
    requires KnownCategories(zones) && 0 <= n <= |zones|
    ensures KnownCategories(zones[..n])
  {
    assert forall k :: 0 <= k < n ==> zones[..n][k] == zones[k];
  }


  /** The entry a zone becomes when it is kept. */
  function Drawn(cs: MapCoordinates.CoordinateSystem, z: Zone): DrawnZone
    requires MapCoordinates.Valid(cs) && z.category in Categories
  {
    DrawnZone(z, MapCoordinates.ContinentToSectorImageRect(cs, z.continentRect), Categories[z.category])
  }

  /** The zones whose rectangle lies strictly inside the sector, in order, as drawn entries. */
  function SelectDrawn(zones: seq<Zone>, cs: MapCoordinates.CoordinateSystem): (drawn: seq<DrawnZone>)
    requires MapCoordinates.Valid(cs) && KnownCategories(zones)
    ensures |drawn| <= |zones|
  {
    if |zones| == 0 then []
    else
      var z := zones[|zones| - 1];
      SelectDrawn(zones[..|zones| - 1], cs)
        + (if MapCoordinates.IsRectContained(cs, z.continentRect) then [Drawn(cs, z)] else [])
  }

  /** An entry is drawn exactly when it comes from a zone that lies inside the sector. */
  lemma {:induction false} SelectDrawnMembers(zones: seq<Zone>, cs: MapCoordinates.CoordinateSystem, d: DrawnZone)
    requires MapCoordinates.Valid(cs) && KnownCategories(zones)
    ensures d in SelectDrawn(zones, cs) <==>
      exists i :: 0 <= i < |zones| && MapCoordinates.IsRectContained(cs, zones[i].continentRect) && d == Drawn(cs, zones[i])
    decreases |zones|
  {
    if |zones| > 0 {
      var init := zones[..|zones| - 1];
      SelectDrawnMembers(init, cs, d);
      if exists i :: 0 <= i < |init| && MapCoordinates.IsRectContained(cs, init[i].continentRect) && d == Drawn(cs, init[i]) {
        var i :| 0 <= i < |init| && MapCoordinates.IsRectContained(cs, init[i].continentRect) && d == Drawn(cs, init[i]);
        assert zones[i] == init[i];
      }
      if exists i :: 0 <= i < |zones| && MapCoordinates.IsRectContained(cs, zones[i].continentRect) && d == Drawn(cs, zones[i]) {
        var i :| 0 <= i < |zones| && MapCoordinates.IsRectContained(cs, zones[i].continentRect) && d == Drawn(cs, zones[i]);
        if i < |zones| - 1 {
          assert init[i] == zones[i];
        }
      }
    }
  }

  /** Selection keeps the input order: the selection of a concatenation is the concatenation of the selections. */
  lemma {:induction false} SelectDrawnAppend(a: seq<Zone>, b: seq<Zone>, cs: MapCoordinates.CoordinateSystem)
    requires MapCoordinates.Valid(cs) && KnownCategories(a) && KnownCategories(b)
    ensures KnownCategories(a + b)
    ensures SelectDrawn(a + b, cs) == SelectDrawn(a, cs) + SelectDrawn(b, cs)
    decreases |b|
  {
    assert KnownCategories(a + b) by {
      forall i | 0 <= i < |a + b| ensures (a + b)[i].category in Categories {
        if i < |a| { assert (a + b)[i] == a[i]; } else { assert (a + b)[i] == b[i - |a|]; }
      }
    }
    if |b| == 0 {
      assert a + b == a;
    } else {
      var init := b[..|b| - 1];
      assert (a + b)[..|a + b| - 1] == a + init;
      assert KnownCategories(init) by {
        forall i | 0 <= i < |init| ensures init[i].category in Categories { assert init[i] == b[i]; }
      }
      SelectDrawnAppend(a, init, cs);
    }
  }

  /** The colour of a zone's boundary and label: orange for special categories, white otherwise. */
  function LineColor(settings: CategorySettings): Color
  {
    if settings.special then SpecialLineColor else BaseLineColor
  }

  /** The rectangle drawn for one kept zone. */
  function BoundaryOp(d: DrawnZone, lineWidth: int): DrawOp
  {
    Rectangle(BoundaryOutline(d.imageRect, lineWidth), lineWidth, LineColor(d.settings), None)
  }

  /** The boundary rectangles, one per kept zone, in order. */
  function BoundaryOps(drawn: seq<DrawnZone>, lineWidth: int): (ops: seq<DrawOp>)
    ensures |ops| == |drawn|
    ensures forall k :: 0 <= k < |drawn| ==> ops[k] == BoundaryOp(drawn[k], lineWidth)
  {
    if |drawn| == 0 then [] else BoundaryOps(drawn[..|drawn| - 1], lineWidth) + [BoundaryOp(drawn[|drawn| - 1], lineWidth)]
  }

  /** The selection of the first `n` zones, counted by index rather than by slicing. */
  function SelectFirst(zones: seq<Zone>, n: nat, cs: MapCoordinates.CoordinateSystem): seq<DrawnZone>
    requires MapCoordinates.Valid(cs) && KnownCategories(zones) && n <= |zones|
  {
    if n == 0 then []
    else
      SelectFirst(zones, n - 1, cs)
        + (if MapCoordinates.IsRectContained(cs, zones[n - 1].continentRect) then [Drawn(cs, zones[n - 1])] else [])
  }

  /** Counting by index selects what the selection of the prefix does. */
  lemma {:induction false} SelectFirstIsPrefix(zones: seq<Zone>, n: nat, cs: MapCoordinates.CoordinateSystem)
    requires MapCoordinates.Valid(cs) && KnownCategories(zones) && n <= |zones|
    ensures KnownCategories(zones[..n]) && SelectFirst(zones, n, cs) == SelectDrawn(zones[..n], cs)
  {
    KnownCategoriesPrefix(zones, n);
    if n > 0 {
      SelectFirstIsPrefix(zones, n - 1, cs);
      assert zones[..n][..n - 1] == zones[..n - 1];
    }
  }

  /** One more kept zone adds its rectangle after those already drawn. */
  lemma BoundaryOpsSnoc(before: seq<DrawOp>, drawn: seq<DrawnZone>, d: DrawnZone, lineWidth: int)
    ensures before + BoundaryOps(drawn, lineWidth) + [BoundaryOp(d, lineWidth)] == before + BoundaryOps(drawn + [d], lineWidth)
  {
    assert (drawn + [d])[..|drawn|] == drawn;
  }

  /** The body of the boundary loop for a zone inside the sector: outline it and return its entry. */
  method OutlineZone(image: Image, zone: Zone, cs: MapCoordinates.CoordinateSystem, scale: real)
    returns (entry: DrawnZone)
    requires MapCoordinates.Valid(cs) && zone.category in Categories
    modifies image
    ensures entry == Drawn(cs, zone)
    ensures image.size == old(image.size)
    ensures image.ops == old(image.ops) + [BoundaryOp(entry, LineWidth(cs.zoom, scale))]
  {
    var zoneImageRect := MapCoordinates.ContinentToSectorImageRect(cs, zone.continentRect);
    var lineWidth := LineWidth(cs.zoom, scale);
    var outlineRect := BoundaryOutline(zoneImageRect, lineWidth);
    var settings := Categories[zone.category];
    var lineColor := if settings.special then SpecialLineColor else BaseLineColor;
    entry := DrawnZone(zone, zoneImageRect, settings);
    image.DrawRectangle(outlineRect, lineWidth, lineColor, None);
  }

  /** The boundary loop of `draw_overlay`: skips zones outside the sector, outlines the others. */
  method DrawBoundaries(image: Image, zones: seq<Zone>, cs: MapCoordinates.CoordinateSystem, scale: real)
    returns (drawn: seq<DrawnZone>)
    requires MapCoordinates.Valid(cs) && KnownCategories(zones)
    modifies image
    ensures drawn == SelectDrawn(zones, cs)
    ensures image.size == old(image.size)
    ensures image.ops == old(image.ops) + BoundaryOps(drawn, LineWidth(cs.zoom, scale))
  {
    drawn := [];
    var lineWidth := LineWidth(cs.zoom, scale);
    for i := 0 to |zones|
      invariant drawn == SelectFirst(zones, i, cs)
      invariant image.size == old(image.size)
      invariant image.ops == old(image.ops) + BoundaryOps(drawn, lineWidth)
    {
      var zone := zones[i];
      if !MapCoordinates.IsRectContained(cs, zone.continentRect) {
        continue;
      }
      var entry := OutlineZone(image, zone, cs, scale);
      BoundaryOpsSnoc(old(image.ops), drawn, entry, lineWidth);
      drawn := drawn + [entry];
    }
    SelectFirstIsPrefix(zones, |zones|, cs);
    assert zones[..|zones|] == zones;
  }

  /** The label sort key `(label_order, id)` of a kept zone. */
  function LabelKey(d: DrawnZone): (int, int)
  {
    (d.settings.labelOrder, if d.zone.id.Some? then d.zone.id.value else 0)
  }

  /**
   * The boundary and label ordering of `draw_overlay`: sorts the zones in
   * place by (boundary order, id), outlines those inside the sector, and
   * returns them in the order their labels are drawn, (label order, id).
   * A zone of unknown category or without id raises KeyError before
   * anything is drawn.
   */
  method DrawOverlay(image: Image, zones: array<Zone>, cs: MapCoordinates.CoordinateSystem, scale: real)
    returns (r: Result<seq<DrawnZone>>)
    requires MapCoordinates.Valid(cs)
    modifies image, zones
    ensures r.Err? <==> exists i :: 0 <= i < zones.Length && !HasSortKey(BoundaryOrders, old(zones[i]))
    ensures r.Err? ==> r.error == MissingKey && zones[..] == old(zones[..]) && image.ops == old(image.ops)
    ensures r.Ok? ==> SortedBy(zones[..], ZoneKey(BoundaryOrders))
    ensures r.Ok? ==> multiset(zones[..]) == multiset(old(zones[..]))
    ensures r.Ok? ==> KnownCategories(zones[..])
    ensures r.Ok? ==> image.ops == old(image.ops) + BoundaryOps(SelectDrawn(zones[..], cs), LineWidth(cs.zoom, scale))
    ensures r.Ok? ==> SortedBy(r.value, LabelKey)
    ensures r.Ok? ==> multiset(r.value) == multiset(SelectDrawn(zones[..], cs))
  {
    ghost var before := zones[..];
    var err := SortZones(zones, BoundaryOrders);
    if err.Some? {
      return Err(err.value);
    }
    assert forall i :: 0 <= i < |before| ==> HasSortKey(BoundaryOrders, before[i]);
    PermutationKeepsKeys(BoundaryOrders, before, zones[..]);
    ghost var sorted := zones[..];
    var drawn := DrawBoundaries(image, zones[..], cs, scale);
    ghost var outlined := image.ops;
    var labels := LabelArray(drawn);
    SortBy(labels, LabelKey);
    assert zones[..] == sorted && image.ops == outlined;
    return Ok(labels[..]);
  }

  /** A fresh array holding the kept zones, to be sorted for the label pass. */
  method LabelArray(drawn: seq<DrawnZone>) returns (labels: array<DrawnZone>)
    ensures fresh(labels) && labels[..] == drawn
  {
    labels := new DrawnZone[|drawn|](k requires 0 <= k < |drawn| => drawn[k]);
  }

  // ---------------------------------------------------------------- labels

  /** The label size multiplier: the zone's own size, else 0.85 for special categories, else 1, times the scale. */
  function LabelSizeMultiplier(zone: Zone, settings: CategorySettings, scale: real): (m: real)
    ensures zone.labelSize.Some? ==> m == scale * zone.labelSize.value
    ensures zone.labelSize.None? && settings.special ==> m == 0.85 * scale
    ensures zone.labelSize.None? && !settings.special ==> m == scale
  {
    scale * (if zone.labelSize.Some? then zone.labelSize.value else if settings.special then 0.85 else 1.0)
  }

  /**
   * The sub-label line margin `size // -8`: a floor division by a negative
   * divisor, so it is minus the size's eighth rounded up, and the sub-label
   * lines overlap by it; for every sub-label font size it is -1 to -4.
   */
  function SubLabelLineMargin(subSize: int): (margin: int)
    ensures -8 * margin - 8 < subSize <= -8 * margin
    ensures 8 <= subSize <= 32 ==> -4 <= margin <= -1
  {
    FloorDiv(subSize, -8)
  }

  /** Without a size of its own, a special zone's name is never set in a larger font than an ordinary zone's. */
  lemma SpecialLabelsNotLarger(zone: Zone, special: CategorySettings, ordinary: CategorySettings, zoom: int, scale: real)
    requires zone.labelSize.None? && special.special && !ordinary.special && scale >= 0.0
    ensures MainLabelFontSize(zoom, LabelSizeMultiplier(zone, special, scale))
         <= MainLabelFontSize(zoom, LabelSizeMultiplier(zone, ordinary, scale))
  {
    MainLabelFontSizeMonotone(zoom, LabelSizeMultiplier(zone, special, scale), LabelSizeMultiplier(zone, ordinary, scale));
  }

  /** A run of text in one colour; no colour means the label's default colour. */
  datatype Segment = Segment(text: string, color: Option<Color>)

  /** One line of a label: its segments, its y position, its font and outline width. */
  datatype TextLine = TextLine(segments: seq<Segment>, posY: int, font: Font, outlineWidth: int)

  /**
   * The label's lines with their y positions: the name lines, each one
   * ascent plus margin below the previous; then a gap of the name font's
   * descent less the margin (never negative); then the sub-label lines,
   * each one full sub font height plus its margin below the previous.
   */
  method CollectTextLines(nameLines: seq<string>, mainFont: Font, mainMargin: int, mainOutline: int,
                          subLines: seq<seq<Segment>>, subFont: Font, subMargin: int, subOutline: int)
    returns (lines: seq<TextLine>)
    ensures |lines| == |nameLines| + |subLines|
    ensures forall i :: 0 <= i < |nameLines| ==>
      lines[i] == TextLine([Segment(nameLines[i], None)], i * (mainFont.ascent + mainMargin), mainFont, mainOutline)
    ensures forall j :: 0 <= j < |subLines| ==>
      lines[|nameLines| + j] == TextLine(subLines[j],
        |nameLines| * (mainFont.ascent + mainMargin) + Max(0, mainFont.descent - mainMargin)
          + j * (subFont.ascent + subFont.descent + subMargin),
        subFont, subOutline)
  {
    var n := |nameLines|;
    var mainStep := mainFont.ascent + mainMargin;
    var labelPosY := 0;
    lines := [];
    for i := 0 to n
      invariant |lines| == i
      invariant labelPosY == i * mainStep
      invariant forall k :: 0 <= k < i ==> lines[k] == TextLine([Segment(nameLines[k], None)], k * mainStep, mainFont, mainOutline)
    {
      lines := lines + [TextLine([Segment(nameLines[i], None)], labelPosY, mainFont, mainOutline)];
      labelPosY := labelPosY + mainFont.ascent + mainMargin;
    }
    labelPosY := labelPosY + Max(0, mainFont.descent - mainMargin);
    var base := labelPosY;
    var subStep := subFont.ascent + subFont.descent + subMargin;
    for j := 0 to |subLines|
      invariant |lines| == n + j
      invariant labelPosY == base + j * subStep
      invariant forall k :: 0 <= k < n ==> lines[k] == TextLine([Segment(nameLines[k], None)], k * mainStep, mainFont, mainOutline)
      invariant forall k :: 0 <= k < j ==> lines[n + k] == TextLine(subLines[k], base + k * subStep, subFont, subOutline)
    {
      lines := lines + [TextLine(subLines[j], labelPosY, subFont, subOutline)];
      labelPosY := labelPosY + subFont.ascent + subFont.descent + subMargin;
    }
  }

  /** The sum of the measured lengths of the segments. */
  function SegmentsLength(segments: seq<Segment>, getLength: string -> real): real
  {
    if |segments| == 0 then 0.0
    else SegmentsLength(segments[..|segments| - 1], getLength) + getLength(segments[|segments| - 1].text)
  }

  /** The segments' texts, concatenated. */
  function SegmentsText(segments: seq<Segment>): string
  {
    if |segments| == 0 then "" else SegmentsText(segments[..|segments| - 1]) + segments[|segments| - 1].text
  }

  /** Where the first segment starts relative to the anchor x: 0, half the line length back, or the whole length back. */
  function StartOffset(hAlign: char, fullLength: real): real
  {
    if hAlign == 'l' then 0.0 else if hAlign == 'm' then -fullLength / 2.0 else -fullLength
  }

  /** The draw of segment k of a line. */
  function SegmentDraw(line: TextLine, k: int, posX: real, defaultColor: Color, textAnchor: string): TextDraw
    requires 0 <= k < |line.segments| && |textAnchor| >= 1
  {
    var start := StartOffset(textAnchor[0], line.font.getLength(SegmentsText(line.segments)));
    var segment := line.segments[k];
    TextDraw(posX + start + SegmentsLength(line.segments[..k], line.font.getLength), line.posY, segment.text,
             line.font.size, "l" + textAnchor[1..], line.outlineWidth,
             if segment.color.Some? then segment.color.value else defaultColor)
  }

  /** The draws of one line, one per segment. */
  function LineDraws(line: TextLine, posX: real, defaultColor: Color, textAnchor: string): (draws: seq<TextDraw>)
    requires |textAnchor| >= 1
    ensures |draws| == |line.segments|
    ensures forall k :: 0 <= k < |draws| ==> draws[k] == SegmentDraw(line, k, posX, defaultColor, textAnchor)
  {
    seq(|line.segments|, k requires 0 <= k < |line.segments| => SegmentDraw(line, k, posX, defaultColor, textAnchor))
  }

  /**
   * `draw_text_line`: the segments are drawn left-anchored one after the
   * other, each starting where the previous one's measured length ends,
   * the first at the alignment's start offset.
   */
  method DrawTextLine(line: TextLine, posX: real, defaultColor: Color, textAnchor: string) returns (draws: seq<TextDraw>)
    requires |textAnchor| >= 1
    ensures draws == LineDraws(line, posX, defaultColor, textAnchor)
  {
    var hAlign := textAnchor[0];
    var anchor := "l" + textAnchor[1..];
    var fullLineLength := line.font.getLength(SegmentsText(line.segments));
    var posXOffset := if hAlign == 'l' then 0.0 else if hAlign == 'm' then -fullLineLength / 2.0 else -fullLineLength;
    draws := [];
    for k := 0 to |line.segments|
      invariant |draws| == k
      invariant posXOffset == StartOffset(hAlign, fullLineLength) + SegmentsLength(line.segments[..k], line.font.getLength)
      invariant forall j :: 0 <= j < k ==> draws[j] == SegmentDraw(line, j, posX, defaultColor, textAnchor)
    {
      var segment := line.segments[k];
      var color := if segment.color.Some? then segment.color.value else defaultColor;
      draws := draws + [TextDraw(posX + posXOffset, line.posY, segment.text, line.font.size, anchor, line.outlineWidth, color)];
      posXOffset := posXOffset + line.font.getLength(segment.text);
      assert line.segments[..k + 1][..k] == line.segments[..k];
    }
  }

  /** A measure that adds up over concatenation, as glyph advances without kerning do. */
  ghost predicate Additive(getLength: string -> real)
  {
    getLength("") == 0.0 && forall a: string, b: string :: getLength(a + b) == getLength(a) + getLength(b)
  }

  lemma {:induction false} SegmentsLengthAdditive(segments: seq<Segment>, getLength: string -> real)
    requires Additive(getLength)
    ensures SegmentsLength(segments, getLength) == getLength(SegmentsText(segments))
    decreases |segments|
  {
    if |segments| > 0 {
      SegmentsLengthAdditive(segments[..|segments| - 1], getLength);
    }
  }

  /**
   * With an additive measure the segments make up the aligned line: a
   * left-aligned line starts at the anchor x, a right-aligned one ends
   * there, and a centred one is split evenly around it.
   */
  lemma AlignedLineEnds(line: TextLine, posX: real, defaultColor: Color, textAnchor: string)
    requires |textAnchor| >= 1 && |line.segments| >= 1 && Additive(line.font.getLength)
    ensures var n := |line.segments|;
            var full := line.font.getLength(SegmentsText(line.segments));
            var first := SegmentDraw(line, 0, posX, defaultColor, textAnchor).x;
            var end := SegmentDraw(line, n - 1, posX, defaultColor, textAnchor).x
                       + line.font.getLength(line.segments[n - 1].text);
            && end - first == full
            && (textAnchor[0] == 'l' ==> first == posX)
            && (textAnchor[0] == 'r' ==> end == posX)
            && (textAnchor[0] == 'm' ==> posX - first == end - posX)
  {
    var n := |line.segments|;
    assert line.segments[..0] == [];
    assert line.segments[..n - 1] + [line.segments[n - 1]] == line.segments;
    SegmentsLengthAdditive(line.segments, line.font.getLength);
  }

  /** The lines of a label, drawn from the last to the first so that earlier lines end up on top. */
  function ReversedDraws(lines: seq<TextLine>, posX: real, defaultColor: Color, textAnchor: string): seq<TextDraw>
    requires |textAnchor| >= 1
  {
    if |lines| == 0 then []
    else
      LineDraws(lines[|lines| - 1], posX, defaultColor, textAnchor) + ReversedDraws(lines[..|lines| - 1], posX, defaultColor, textAnchor)
  }

  /** The reversed draw loop of `draw_overlay`. */
  method DrawLabelLines(lines: seq<TextLine>, posX: real, defaultColor: Color, textAnchor: string)
    returns (draws: seq<TextDraw>)
    requires |textAnchor| >= 1
    ensures draws == ReversedDraws(lines, posX, defaultColor, textAnchor)
  {
    draws := [];
    var i := |lines|;
    assert lines[..i] == lines;
    while i > 0
      invariant 0 <= i <= |lines|
      invariant draws + ReversedDraws(lines[..i], posX, defaultColor, textAnchor)
             == ReversedDraws(lines, posX, defaultColor, textAnchor)
    {
      var lineDraws := DrawTextLine(lines[i - 1], posX, defaultColor, textAnchor);
      assert lines[..i][..i - 1] == lines[..i - 1];
      draws := draws + lineDraws;
      i := i - 1;
    }
    assert lines[..0] == [];
  }

  /** The first line's draws come last, over everything drawn before them. */
  lemma FirstLineOnTop(lines: seq<TextLine>, posX: real, defaultColor: Color, textAnchor: string)
    requires |textAnchor| >= 1 && |lines| >= 1
    ensures var draws := ReversedDraws(lines, posX, defaultColor, textAnchor);
            var n := |lines[0].segments|;
            |draws| >= n
            && forall k :: 0 <= k < n ==>
                 draws[|draws| - n + k] == SegmentDraw(lines[0], k, posX, defaultColor, textAnchor)
  {
    ReversedDrawsEnd(lines, posX, defaultColor, textAnchor);
  }

  lemma {:induction false} ReversedDrawsEnd(lines: seq<TextLine>, posX: real, defaultColor: Color, textAnchor: string)
    requires |textAnchor| >= 1 && |lines| >= 1
    ensures var draws := ReversedDraws(lines, posX, defaultColor, textAnchor);
            var n := |lines[0].segments|;
            |draws| >= n
            && draws[|draws| - n..] == LineDraws(lines[0], posX, defaultColor, textAnchor)
    decreases |lines|
  {
    if |lines| > 1 {
      var init := lines[..|lines| - 1];
      assert init[0] == lines[0];
      ReversedDrawsEnd(init, posX, defaultColor, textAnchor);
    }
  }

  // ---------------------------------------------------------------- sub-labels

  /** Python truthiness of an optional string: present and non-empty. */
  predicate Truthy(s: Option<string>)
  {
    s.Some? && s.value != ""
  }

  /** The level text: one number, or "min–max" with an en dash. */
  function LevelText(minLevel: int, maxLevel: int): string
  {
    if minLevel == maxLevel then IntToString(minLevel) else IntToString(minLevel) + "\U{2013}" + IntToString(maxLevel)
  }

  /** The en dash appears exactly for a level range. */
  lemma LevelTextDash(minLevel: int, maxLevel: int)
    ensures '\U{2013}' in LevelText(minLevel, maxLevel) <==> minLevel != maxLevel
  {
    var a := IntToString(minLevel);
    var b := IntToString(maxLevel);
    if minLevel == maxLevel {
      assert forall i :: 0 <= i < |a| ==> a[i] != '\U{2013}';
    } else {
      assert (a + "\U{2013}" + b)[|a|] == '\U{2013}';
    }
  }

  /** The type text: the category's label when it has one, else the level text when levels are shown. */
  function TypeText(zone: Zone, settings: CategorySettings): (t: Option<string>)
    ensures Truthy(settings.typeLabel) ==> t == settings.typeLabel
    ensures !Truthy(settings.typeLabel) && settings.showLevel ==> t == Some(LevelText(zone.minLevel, zone.maxLevel))
    ensures !Truthy(settings.typeLabel) && !settings.showLevel ==> t.None?
  {
    if Truthy(settings.typeLabel) then settings.typeLabel
    else if settings.showLevel then Some(LevelText(zone.minLevel, zone.maxLevel))
    else None
  }

  /** Each line as one segment of the given colour. */
  function OneSegmentLines(lines: seq<string>, color: Option<Color>): (r: seq<seq<Segment>>)
    ensures |r| == |lines|
    ensures forall i :: 0 <= i < |lines| ==> r[i] == [Segment(lines[i], color)]
  {
    seq(|lines|, i requires 0 <= i < |lines| => [Segment(lines[i], color)])
  }

  /** The wrap of a sub-label text with the label's fonts and box. */
  function WrapSub(text: Option<string>, font: Font, margin: int, rect: Rect, imageSize: Point, zoom: int, scale: real,
                   tolerance: real): Result<seq<string>>
  {
    WrapLabelLines(text, font, margin, rect, imageSize, zoom, scale, tolerance)
  }

  /** The separator between the access label and the type text. */
  const Dot: string := " \U{00B7} "

  /** The one-line sub-label text: "access · type", or the access label alone. */
  function SingleText(access: Access, typeText: Option<string>): string
  {
    if Truthy(typeText) then access.text + Dot + typeText.value else access.text
  }

  /** The one-line sub-label: the access label in its colour, then " · type" in the default colour. */
  function OneLine(access: Access, typeText: Option<string>): (line: seq<Segment>)
    ensures |line| >= 1 && line[0] == Segment(access.text, Some(access.color))
    ensures forall k :: 1 <= k < |line| ==> line[k].color.None?
    ensures SegmentsText(line) == SingleText(access, typeText)
  {
    var head := [Segment(access.text, Some(access.color))];
    assert head[..0] == [];
    if Truthy(typeText) then
      var line := head + [Segment(Dot + typeText.value, None)];
      assert line[..1] == head;
      assert SegmentsText(head) == access.text;
      assert SegmentsText(line) == access.text + (Dot + typeText.value);
      line
    else head
  }

  /**
   * The sub-label lines from the three wraps: the one-line form when the
   * one-line text wrapped to a single line, else the access lines in the
   * access colour followed by the type lines in the default colour.
   */
  function AccessLinesFrom(access: Access, typeText: Option<string>, singleLines: seq<string>,
                           accessLines: seq<string>, typeLines: seq<string>): (r: seq<seq<Segment>>)
    ensures |singleLines| == 1 ==> r == [OneLine(access, typeText)]
    ensures |singleLines| != 1 ==> |r| == |accessLines| + |typeLines|
    ensures |singleLines| != 1 ==> forall i :: 0 <= i < |accessLines| ==> r[i] == [Segment(accessLines[i], Some(access.color))]
    ensures |singleLines| != 1 ==> forall j :: 0 <= j < |typeLines| ==> r[|accessLines| + j] == [Segment(typeLines[j], None)]
  {
    if |singleLines| == 1 then [OneLine(access, typeText)]
    else OneSegmentLines(accessLines, Some(access.color)) + OneSegmentLines(typeLines, None)
  }

  /**
   * The sub-label lines once the access requirement is known: the one-line
   * text is wrapped with 20% width tolerance, the access and type texts
   * without; a zero line height makes the wrap divide by zero.
   */
  function AccessSubLines(access: Access, typeText: Option<string>, font: Font, margin: int, rect: Rect,
                          imageSize: Point, zoom: int, scale: real): (r: Result<seq<seq<Segment>>>)
    ensures r.Err? <==> font.ascent + margin == 0
    ensures r.Err? ==> r.error == DivisionByZero
    ensures r.Ok? && access.text != "" ==>
      |r.value| >= 1 && |r.value[0]| >= 1 && r.value[0][0].color == Some(access.color)
  {
    if font.ascent + margin == 0 then Err(DivisionByZero)
    else
      var singleLines := WrapSub(Some(SingleText(access, typeText)), font, margin, rect, imageSize, zoom, scale, 1.2).value;
      var accessLines := WrapSub(Some(access.text), font, margin, rect, imageSize, zoom, scale, 1.0).value;
      var typeLines := WrapSub(typeText, font, margin, rect, imageSize, zoom, scale, 1.0).value;
      assert access.text != "" ==> |accessLines| >= 1 by {
        if access.text != "" { WrapNonEmpty(access.text, font, margin, rect, imageSize, zoom, scale); }
      }
      Ok(AccessLinesFrom(access, typeText, singleLines, accessLines, typeLines))
  }

  /** A non-empty text wraps to at least one line. */
  lemma WrapNonEmpty(text: string, font: Font, margin: int, rect: Rect, imageSize: Point, zoom: int, scale: real)
    requires text != "" && font.ascent + margin != 0
    ensures |WrapSub(Some(text), font, margin, rect, imageSize, zoom, scale, 1.0).value| >= 1
  {
    WrapPiecesLength(SplitLines(text), font, WrapWidth(font, margin, rect, imageSize, zoom, scale, 1.0));
  }

  /** No access label is empty. */
  lemma AccessTextsNonEmpty(key: string)
    requires key in AccessSettings
    ensures AccessSettings[key].text != ""
  {
  }

  /**
   * `get_sub_label_lines`: without access requirements, the wrapped type
   * text in the default colour. With them, the access sub-lines, whose
   * first line starts in the access colour. An unknown access
   * requirement raises KeyError.
   */
  function GetSubLabelLines(zone: Zone, settings: CategorySettings, showAccess: bool, font: Font, margin: int,
                            rect: Rect, imageSize: Point, zoom: int, scale: real): (r: Result<seq<seq<Segment>>>)
    ensures showAccess && (zone.accessReq.None? || zone.accessReq.value !in AccessSettings) ==> r == Err(MissingKey)
    ensures !showAccess && !Truthy(TypeText(zone, settings)) ==> r == Ok([])
    ensures !showAccess && Truthy(TypeText(zone, settings)) && font.ascent + margin != 0 ==>
      r.Ok? && r.value == OneSegmentLines(WrapSub(TypeText(zone, settings), font, margin, rect, imageSize, zoom, scale, 1.0).value, None)
    ensures r.Err? ==> r.error == MissingKey || (r.error == DivisionByZero && font.ascent + margin == 0)
    ensures showAccess && zone.accessReq.Some? && zone.accessReq.value in AccessSettings && font.ascent + margin != 0 ==>
      var access := AccessSettings[zone.accessReq.value];
      r.Ok? && |r.value| >= 1 && |r.value[0]| >= 1 && r.value[0][0].color == Some(access.color)
  {
    var typeText := TypeText(zone, settings);
    if !showAccess then
      if Truthy(typeText) then
        var wrapped := WrapSub(typeText, font, margin, rect, imageSize, zoom, scale, 1.0);
        if wrapped.Err? then Err(wrapped.error) else Ok(OneSegmentLines(wrapped.value, None))
      else Ok([])
    else if zone.accessReq.None? || zone.accessReq.value !in AccessSettings then Err(MissingKey)
    else
      AccessTextsNonEmpty(zone.accessReq.value);
      AccessSubLines(AccessSettings[zone.accessReq.value], typeText, font, margin, rect, imageSize, zoom, scale)
  }

  // ---------------------------------------------------------------- portals

  /** The start angle of slice i of n: i turns of 360 / n degrees from the top (-90). */
  function SliceStart(i: int, n: int): real
    requires n >= 1
  {
    i as real * (360.0 / n as real) - 90.0
  }

  datatype Slice = Slice(portalType: string, startAngle: real, endAngle: real)

  /** A portal icon: one resized template, or several blended as pie slices. */
  datatype PortalIcon = Resized(portalType: string, size: int) | Blended(size: int, slices: seq<Slice>)

  /**
   * `get_portal_icon`: a plain type gives its resized icon; a '/'-joined
   * type gives one slice per part, slice i covering
   * [i * 360 / n - 90, (i + 1) * 360 / n - 90] degrees.
   */
  method GetPortalIcon(portalType: string, iconSize: int) returns (icon: PortalIcon)
    ensures '/' !in portalType ==> icon == Resized(portalType, iconSize)
    ensures '/' in portalType ==>
      var parts := SplitOn(portalType, '/');
      && icon.Blended? && icon.size == iconSize && |icon.slices| == |parts|
      && forall i :: 0 <= i < |parts| ==>
           icon.slices[i] == Slice(parts[i], SliceStart(i, |parts|), SliceStart(i + 1, |parts|))
  {
    if '/' !in portalType {
      return Resized(portalType, iconSize);
    }
    var portalTypes := SplitOn(portalType, '/');
    var n := |portalTypes|;
    var arcAngle := 360.0 / n as real;
    var slices := [];
    for i := 0 to n
      invariant |slices| == i
      invariant forall k :: 0 <= k < i ==> slices[k] == Slice(portalTypes[k], SliceStart(k, n), SliceStart(k + 1, n))
    {
      var startAngle := i as real * arcAngle - 90.0;
      var endAngle := (i + 1) as real * arcAngle - 90.0;
      slices := slices + [Slice(portalTypes[i], startAngle, endAngle)];
    }
    return Blended(iconSize, slices);
  }

  /** The slices tile one full turn starting at the top: each starts where the previous ended, all of equal arc. */
  lemma SlicesTileTurn(n: int, i: int)
    requires n >= 1 && 0 <= i < n
    ensures SliceStart(0, n) == -90.0
    ensures SliceStart(n, n) == 270.0
    ensures SliceStart(i + 1, n) - SliceStart(i, n) == 360.0 / n as real
  {
    assert n as real * (360.0 / n as real) == 360.0;
  }

  /** `math.ceil`. */
  function Ceil(r: real): (n: int)
    ensures r <= n as real < r + 1.0
  {
    -((-r).Floor)
  }

  /** The padding around a portal connection line: the zoom-scaled multiplier rounded up, at least 1. */
  function PortalLineMargin(zoom: int, scale: real): (m: int)
    ensures m >= 1
  {
    Ceil(MaxReal(1.0, ZoomSizeMultiplier(zoom, scale)))
  }

  /**
   * The image a connection line is drawn on: its paste position is the
   * top-left end less the margin, and its size the span between the ends
   * plus the margin on both sides.
   */
  function PortalLineBox(p1: Point, p2: Point, margin: int): (box: (Point, Point))
  {
    (Point(Min(p1.x, p2.x) - margin, Min(p1.y, p2.y) - margin),
     Point(Max(p1.x - p2.x, p2.x - p1.x) + 2 * margin, Max(p1.y - p2.y, p2.y - p1.y) + 2 * margin))
  }

  /** Both ends of the line lie inside the pasted image, each at least the margin from every edge. */
  lemma PortalLineBoxHoldsEnds(p1: Point, p2: Point, margin: int)
    ensures var (at, size) := PortalLineBox(p1, p2, margin);
            && at.x + margin <= p1.x <= at.x + size.x - margin && at.y + margin <= p1.y <= at.y + size.y - margin
            && at.x + margin <= p2.x <= at.x + size.x - margin && at.y + margin <= p2.y <= at.y + size.y - margin
            && (at.x + margin == p1.x || at.x + margin == p2.x)
            && (at.y + margin == p1.y || at.y + margin == p2.y)
  {
  }
}
