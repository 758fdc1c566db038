/**
 * The driver of gw2_zone_map.py: which layouts to render, how the zone
 * records are overridden for one overlay, which overlay names exist, and
 * how the output files are named and assembled.
 */
module ZoneMap {
  import opened Basics
  import opened Text
  import opened Zones
  import opened Canvas
  import MapCoordinates
  import MapComposite

  // ---------------------------------------------------------------- overlays

  /** The class of an overlay object: the override tables are keyed by it. */
  datatype OverlayKind = ZoneMapKind | MasteryKind | NoOverlayKind

  /** The registry `map_overlays`: two names per drawing overlay (without and with access) and `none`. */
  const OverlayNames: map<string, OverlayKind> := map[
    "zone" := ZoneMapKind,
    "zone_access" := ZoneMapKind,
    "mastery" := MasteryKind,
    "mastery_access" := MasteryKind,
    "none" := NoOverlayKind]

  /** The overlay-name check of `generate_maps`: an unregistered name is an error. */
  function LookUpOverlay(name: string): (r: Result<OverlayKind>)
    ensures r.Err? <==> name !in OverlayNames
    ensures r.Err? ==> r.error == InvalidOverlayName
    ensures r.Ok? ==> r.value == OverlayNames[name]
  {
    if name in OverlayNames then Ok(OverlayNames[name]) else Err(InvalidOverlayName)
  }

  /** The default overlays `zone_access` and `mastery` both pass the check. */
  lemma DefaultOverlaysRegistered()
    ensures LookUpOverlay("zone_access") == Ok(ZoneMapKind)
    ensures LookUpOverlay("mastery") == Ok(MasteryKind)
  {
  }

  // ---------------------------------------------------------------- overrides

  /**
   * The override tables of data/zones.py, keyed by overlay class: ids to
   * drop, overrides for every overlay, overrides for one overlay, and the
   * custom zones one overlay adds. The custom zones are records the
   * function writes into, so they are arrays.
   */
  datatype OverrideTables = OverrideTables(
    blacklist: map<OverlayKind, set<int>>,
    general: map<int, ZoneOverride>,
    conditional: map<OverlayKind, map<int, ZoneOverride>>,
    custom: map<OverlayKind, array<Zone>>)

  predicate Blacklisted(t: OverrideTables, kind: OverlayKind, id: int)
  {
    kind in t.blacklist && id in t.blacklist[kind]
  }

  /** `z | general[id]` when there is one, then `| conditional[kind][id]` when there is one. */
  function Overridden(t: OverrideTables, kind: OverlayKind, z: Zone, id: int): (d: Zone)
    ensures id !in t.general && (kind !in t.conditional || id !in t.conditional[kind]) ==> d == z
  {
    var d := if id in t.general then Merge(z, t.general[id]) else z;
    if kind in t.conditional && id in t.conditional[kind] then Merge(d, t.conditional[kind][id]) else d
  }

  /**
   * The loop over the loaded zones: blacklisted zones are dropped, the
   * others overridden, in input order. Every zone is looked up by its id,
   * so a zone without one is a missing-key error.
   */
  function OverrideLoaded(t: OverrideTables, kind: OverlayKind, zones: seq<Zone>): (r: Result<seq<Zone>>)
    ensures r.Err? <==> exists i :: 0 <= i < |zones| && zones[i].id.None?
    ensures r.Err? ==> r.error == MissingKey
    ensures r.Ok? ==> |r.value| <= |zones|
  {
    if |zones| == 0 then Ok([])
    else
      var init := zones[..|zones| - 1];
      var z := zones[|zones| - 1];
      assert forall i :: 0 <= i < |init| ==> init[i] == zones[i];
      var rest := OverrideLoaded(t, kind, init);
      if rest.Err? then rest
      else if z.id.None? then Err(MissingKey)
      else if Blacklisted(t, kind, z.id.value) then rest
      else Ok(rest.value + [Overridden(t, kind, z, z.id.value)])
  }

  /** The loop is a map over a filter: zones in two runs are overridden run by run, order kept. */
  lemma {:induction false} OverrideLoadedAppend(t: OverrideTables, kind: OverlayKind, a: seq<Zone>, b: seq<Zone>)
    requires OverrideLoaded(t, kind, a).Ok? && OverrideLoaded(t, kind, b).Ok?
    ensures OverrideLoaded(t, kind, a + b) == Ok(OverrideLoaded(t, kind, a).value + OverrideLoaded(t, kind, b).value)
    decreases |b|
  {
    if |b| == 0 {
      assert a + b == a;
      assert OverrideLoaded(t, kind, b) == Ok([]);
      assert OverrideLoaded(t, kind, a).value + [] == OverrideLoaded(t, kind, a).value;
    } else {
      var init := b[..|b| - 1];
      var x := b[|b| - 1];
      assert b == init + [x];
      assert a + b == (a + init) + [x];
      assert x.id.Some? by {
        assert b[|b| - 1].id == x.id;
      }
      assert OverrideLoaded(t, kind, init).Ok? by {
        assert forall i :: 0 <= i < |init| ==> init[i] == b[i];
      }
      OverrideLoadedAppend(t, kind, a, init);
      OverrideLoadedSnoc(t, kind, init, x);
      OverrideLoadedSnoc(t, kind, a + init, x);
      ConcatAssoc(OverrideLoaded(t, kind, a).value, OverrideLoaded(t, kind, init).value, OverriddenTail(t, kind, x));
    }
  }

  /** What one zone with an id adds to the loop's output: nothing when blacklisted, else its overridden record. */
  function OverriddenTail(t: OverrideTables, kind: OverlayKind, x: Zone): seq<Zone>
    requires x.id.Some?
  {
    if Blacklisted(t, kind, x.id.value) then [] else [Overridden(t, kind, x, x.id.value)]
  }

  lemma OverrideLoadedSnoc(t: OverrideTables, kind: OverlayKind, ms: seq<Zone>, x: Zone)
    requires OverrideLoaded(t, kind, ms).Ok? && x.id.Some?
    ensures OverrideLoaded(t, kind, ms + [x]) == Ok(OverrideLoaded(t, kind, ms).value + OverriddenTail(t, kind, x))
  {
    assert (ms + [x])[..|ms|] == ms;
    assert OverrideLoaded(t, kind, ms).value + [] == OverrideLoaded(t, kind, ms).value;
  }

  /** A blacklisted zone contributes nothing; any other contributes exactly its overridden record. */
  lemma OverrideLoadedOne(t: OverrideTables, kind: OverlayKind, z: Zone)
    requires z.id.Some?
    ensures Blacklisted(t, kind, z.id.value) ==> OverrideLoaded(t, kind, [z]) == Ok([])
    ensures !Blacklisted(t, kind, z.id.value) ==> OverrideLoaded(t, kind, [z]) == Ok([Overridden(t, kind, z, z.id.value)])
  {
    assert [z][..0] == [];
    assert OverrideLoaded(t, kind, []) == Ok([]);
    assert [] + [Overridden(t, kind, z, z.id.value)] == [Overridden(t, kind, z, z.id.value)];
  }

  /** The conditional override wins over the general one, which wins over the loaded record. */
  lemma OverridePrecedence(t: OverrideTables, kind: OverlayKind, z: Zone, id: int)
    ensures var d := Overridden(t, kind, z, id);
            var cond := if kind in t.conditional && id in t.conditional[kind] then t.conditional[kind][id] else NoOverride;
            var gen := if id in t.general then t.general[id] else NoOverride;
            && d.id == PickOpt(cond.id, PickOpt(gen.id, z.id))
            && d.name == Pick(cond.name, Pick(gen.name, z.name))
            && d.category == Pick(cond.category, Pick(gen.category, z.category))
            && d.continentRect == Pick(cond.continentRect, Pick(gen.continentRect, z.continentRect))
            && d.minLevel == Pick(cond.minLevel, Pick(gen.minLevel, z.minLevel))
            && d.maxLevel == Pick(cond.maxLevel, Pick(gen.maxLevel, z.maxLevel))
            && d.labelRect == PickOpt(cond.labelRect, PickOpt(gen.labelRect, z.labelRect))
            && d.labelAnchor == PickOpt(cond.labelAnchor, PickOpt(gen.labelAnchor, z.labelAnchor))
            && d.labelSize == PickOpt(cond.labelSize, PickOpt(gen.labelSize, z.labelSize))
            && d.accessReq == PickOpt(cond.accessReq, PickOpt(gen.accessReq, z.accessReq))
            && d.masteryRegion == PickOpt(cond.masteryRegion, PickOpt(gen.masteryRegion, z.masteryRegion))
  {
    if id in t.general { MergeKeepsUnset(z, t.general[id]); } else { MergeNothing(z); }
    var d := if id in t.general then Merge(z, t.general[id]) else z;
    if kind in t.conditional && id in t.conditional[kind] {
      MergeKeepsUnset(d, t.conditional[kind][id]);
    } else {
      MergeNothing(d);
    }
  }

  /** A custom zone with no `id` gets id -1. */
  function WithDefaultId(z: Zone): (r: Zone)
    ensures r.id.Some?
    ensures z.id.Some? ==> r == z
    ensures z.id.None? ==> r.id == Some(-1) && r == z.(id := Some(-1))
  {
    if z.id.None? then z.(id := Some(-1)) else z
  }

  /** The custom-zone table of an overlay, or none. */
  function CustomZones(t: OverrideTables, kind: OverlayKind): set<array<Zone>>
  {
    if kind in t.custom then {t.custom[kind]} else {}
  }

  /**
   * `override_zone_data`: the overridden loaded zones, then the overlay's
   * custom zones, each given id -1 in the table itself when it has no id.
   */
  method OverrideZoneData(zones: seq<Zone>, t: OverrideTables, kind: OverlayKind) returns (r: Result<seq<Zone>>)
    modifies CustomZones(t, kind)
    ensures r.Err? <==> exists i :: 0 <= i < |zones| && zones[i].id.None?
    ensures r.Err? ==> r.error == MissingKey && forall a :: a in CustomZones(t, kind) ==> a[..] == old(a[..])
    ensures r.Ok? && kind !in t.custom ==> r == OverrideLoaded(t, kind, zones)
    ensures r.Ok? && kind in t.custom ==>
      var custom := t.custom[kind];
      && |custom[..]| == |old(custom[..])|
      && (forall j :: 0 <= j < custom.Length ==> custom[j] == WithDefaultId(old(custom[j])))
      && r.value == OverrideLoaded(t, kind, zones).value + custom[..]
  {
    r := OverrideLoadedZones(zones, t, kind);
    if r.Err? {
      return;
    }
    if kind in t.custom {
      var added := DefaultCustomIds(t.custom[kind]);
      r := Ok(r.value + added);
    }
  }

  /** The first loop of `override_zone_data`, over the loaded zones. */
  method OverrideLoadedZones(zones: seq<Zone>, t: OverrideTables, kind: OverlayKind) returns (r: Result<seq<Zone>>)
    ensures r == OverrideLoaded(t, kind, zones)
  {
    var customData := [];
    for i := 0 to |zones|
      invariant OverrideLoaded(t, kind, zones[..i]) == Ok(customData)
    {
      var z := zones[i];
      assert zones[..i + 1][..i] == zones[..i];
      assert zones[..i + 1][i] == z;
      if z.id.None? {
        assert zones[i].id.None?;
        return Err(MissingKey);
      }
      if Blacklisted(t, kind, z.id.value) {
        continue;
      }
      var d := if z.id.value in t.general then Merge(z, t.general[z.id.value]) else z;
      if kind in t.conditional && z.id.value in t.conditional[kind] {
        d := Merge(d, t.conditional[kind][z.id.value]);
      }
      customData := customData + [d];
    }
    assert zones[..|zones|] == zones;
    return Ok(customData);
  }

  /** The second loop of `override_zone_data`: each custom zone without an id gets -1 in place, and all are added. */
  method DefaultCustomIds(custom: array<Zone>) returns (added: seq<Zone>)
    modifies custom
    ensures forall j :: 0 <= j < custom.Length ==> custom[j] == WithDefaultId(old(custom[j]))
    ensures added == custom[..]
  {
    added := [];
    for j := 0 to custom.Length
      invariant added == custom[..j]
      invariant forall k :: 0 <= k < j ==> custom[k] == WithDefaultId(old(custom[k]))
      invariant forall k :: j <= k < custom.Length ==> custom[k] == old(custom[k])
    {
      if custom[j].id.None? {
        custom[j] := custom[j].(id := Some(-1));
      }
      added := added + [custom[j]];
      assert custom[..j + 1] == custom[..j] + [custom[j]];
    }
    assert custom[..custom.Length] == custom[..];
  }

  /** After overriding, every zone has an id: loaded zones keep theirs, custom zones get -1. */
  lemma {:induction false} OverriddenZonesHaveIds(t: OverrideTables, kind: OverlayKind, zones: seq<Zone>)
    requires OverrideLoaded(t, kind, zones).Ok?
    ensures forall k :: 0 <= k < |OverrideLoaded(t, kind, zones).value| ==> OverrideLoaded(t, kind, zones).value[k].id.Some?
    decreases |zones|
  {
    if |zones| > 0 {
      var init := zones[..|zones| - 1];
      assert forall i :: 0 <= i < |init| ==> init[i] == zones[i];
      OverriddenZonesHaveIds(t, kind, init);
    }
  }

  /** Giving default ids twice is giving them once: overriding again leaves the custom table as it is. */
  lemma WithDefaultIdIdempotent(z: Zone)
    ensures WithDefaultId(WithDefaultId(z)) == WithDefaultId(z)
  {
  }

  // ---------------------------------------------------------------- layouts

  /** The two mutually exclusive choices of the command line; Python truthiness makes 0 and [] count as absent. */
  datatype LayoutChoice = LayoutChoice(continent: Option<int>, layout: Option<seq<string>>)

  /** The requested layouts in the requested order, each a known name. */
  function NamedLayouts(names: seq<string>, layouts: map<string, MapCoordinates.MapLayout>)
    : (r: Result<seq<(string, MapCoordinates.MapLayout)>>)
    ensures r.Err? <==> exists i :: 0 <= i < |names| && names[i] !in layouts
    ensures r.Err? ==> r.error == InvalidLayoutName
    ensures r.Ok? ==> (|r.value| == |names|
      && forall i :: 0 <= i < |names| ==> names[i] in layouts && r.value[i] == (names[i], layouts[names[i]]))
  {
    if |names| == 0 then Ok([])
    else
      var init := names[..|names| - 1];
      var name := names[|names| - 1];
      assert forall i :: 0 <= i < |init| ==> init[i] == names[i];
      var rest := NamedLayouts(init, layouts);
      if rest.Err? then rest
      else if name !in layouts then Err(InvalidLayoutName)
      else Ok(rest.value + [(name, layouts[name])])
  }

  /** The name and the one-part layout of a whole continent. */
  function ContinentLayout(id: int): (string, MapCoordinates.MapLayout)
  {
    ("continent" + IntToString(id), MapCoordinates.SingleSector(MapCoordinates.MapSector(id, None)))
  }

  function ChosenLayouts(choice: LayoutChoice, layouts: map<string, MapCoordinates.MapLayout>)
    : (r: Result<seq<(string, MapCoordinates.MapLayout)>>)
    ensures choice.continent.Some? && choice.continent.value != 0 ==>
      r == Ok([ContinentLayout(choice.continent.value)])
    ensures (choice.continent.None? || choice.continent.value == 0) && (choice.layout.None? || choice.layout.value == []) ==>
      r == Err(NoLayoutChosen)
  {
    if choice.continent.Some? && choice.continent.value != 0 then Ok([ContinentLayout(choice.continent.value)])
    else if choice.layout.Some? && choice.layout.value != [] then NamedLayouts(choice.layout.value, layouts)
    else Err(NoLayoutChosen)
  }

  /** `choose_map_layouts`: the named layouts are checked and collected in a loop. */
  method ChooseMapLayouts(choice: LayoutChoice, layouts: map<string, MapCoordinates.MapLayout>)
    returns (r: Result<seq<(string, MapCoordinates.MapLayout)>>)
    ensures r == ChosenLayouts(choice, layouts)
  {
    if choice.continent.Some? && choice.continent.value != 0 {
      return Ok([ContinentLayout(choice.continent.value)]);
    } else if choice.layout.Some? && choice.layout.value != [] {
      var names := choice.layout.value;
      var chosen := [];
      for i := 0 to |names|
        invariant NamedLayouts(names[..i], layouts) == Ok(chosen)
      {
        assert names[..i + 1][..i] == names[..i];
        if names[i] !in layouts {
          assert NamedLayouts(names[..i + 1], layouts).Err?;
          NamedLayoutsPrefixError(names, i + 1, layouts);
          return Err(InvalidLayoutName);
        }
        chosen := chosen + [(names[i], layouts[names[i]])];
      }
      assert names[..|names|] == names;
      return Ok(chosen);
    } else {
      return Err(NoLayoutChosen);
    }
  }

  /** A bad name in a prefix makes the whole list fail. */
  lemma NamedLayoutsPrefixError(names: seq<string>, n: int, layouts: map<string, MapCoordinates.MapLayout>)
    requires 0 <= n <= |names|
    requires NamedLayouts(names[..n], layouts).Err?
    ensures NamedLayouts(names, layouts) == Err(InvalidLayoutName)
  {
    var i :| 0 <= i < n && names[..n][i] !in layouts;
    assert names[i] !in layouts;
  }

  /** A continent's layout is one sector, the whole continent, at offset (0, 0), and its name tells the continent. */
  lemma ContinentLayoutShape(id: int, other: int)
    ensures var (name, layout) := ContinentLayout(id);
            && |layout.parts| == 1
            && layout.parts[0].0 == Point(0, 0)
            && layout.parts[0].1 == MapCoordinates.MapSector(id, None)
            && name[..9] == "continent"
    ensures other != id ==> ContinentLayout(other).0 != ContinentLayout(id).0
  {
    if other != id && ContinentLayout(other).0 == ContinentLayout(id).0 {
      var a := ContinentLayout(other).0;
      assert a[9..] == IntToString(other);
      assert ContinentLayout(id).0[9..] == IntToString(id);
      IntToStringInjective(other, id);
    }
  }

  // ---------------------------------------------------------------- output

  /** `'{out}/{layout}_{overlay}_z{zoom}_{lang}.{format}'`, with every '.' of the zoom text turned into '-'. */
  function OutputName(out: string, layout: string, overlay: string, zoomText: string, lang: string, format: string)
    : (name: string)
    ensures |name| == |out| + |layout| + |overlay| + |zoomText| + |lang| + |format| + 6
    ensures name[..|out| + 1] == out + "/"
    ensures name[|name| - |format| - 1..] == "." + format
    ensures var start := |out| + |layout| + |overlay| + 4;
            forall i :: start <= i < start + |zoomText| ==> name[i] != '.'
  {
    var zoomPart := ReplaceChar(zoomText, '.', '-');
    assert forall i :: 0 <= i < |zoomPart| ==> zoomPart[i] != '.';
    out + "/" + layout + "_" + overlay + "_z" + zoomPart + "_" + lang + "." + format
  }

  /** Two zoom levels that differ only where one has a '.' and the other a '-' name the same file. */
  lemma OutputNameZoomCollision(out: string, layout: string, overlay: string, lang: string, format: string)
    ensures OutputName(out, layout, overlay, "3.4", lang, format) == OutputName(out, layout, overlay, "3-4", lang, format)
  {
    assert ReplaceChar("3.4", '.', '-') == "3-4" == ReplaceChar("3-4", '.', '-');
  }

  /** The image written for one overlay: a single part as it is, several combined by the compositor. */
  method AssembleOverlayImage(parts: seq<MapComposite.Part>) returns (r: Result<Raster>)
    ensures |parts| == 1 ==> r == Ok(parts[0].1)
    ensures r.Err? <==> parts == []
    ensures r.Err? ==> r.error == EmptyParts
    ensures |parts| > 1 ==> r.Ok? && RasterSize(r.value) == MapComposite.Extent(parts)
  {
    if |parts| == 1 {
      return Ok(parts[0].1);
    }
    var combined := MapComposite.CombinePartImages(parts);
    if combined.Err? {
      return Err(combined.error);
    }
    return Ok(combined.value.AsRaster());
  }
}
