/**
 * Zone records: the dictionaries the map API returns, extended by the
 * override tables. Keys every zone has are plain fields; keys a zone may
 * lack (an `id` on a custom zone, the label and access keys) are `Option`s.
 * An override is a partial record, and `Merge` is the dictionary union
 * `zone | override`, where the right-hand side wins.
 */
module Zones {
  import opened Basics

  datatype Zone = Zone(
    id: Option<int>,
    name: string,
    category: string,
    continentRect: Rect,
    minLevel: int,
    maxLevel: int,
    labelRect: Option<Rect>,
    labelAnchor: Option<string>,
    labelSize: Option<real>,
    accessReq: Option<string>,
    masteryRegion: Option<string>)

  /** A partial zone record: only the keys it sets are `Some`. */
  datatype ZoneOverride = ZoneOverride(
    id: Option<int>,
    name: Option<string>,
    category: Option<string>,
    continentRect: Option<Rect>,
    minLevel: Option<int>,
    maxLevel: Option<int>,
    labelRect: Option<Rect>,
    labelAnchor: Option<string>,
    labelSize: Option<real>,
    accessReq: Option<string>,
    masteryRegion: Option<string>)

  const NoOverride: ZoneOverride :=
    ZoneOverride(None, None, None, None, None, None, None, None, None, None, None)

  function Pick<T>(over: Option<T>, base: T): T
  {
    if over.Some? then over.value else base
  }

  function PickOpt<T>(over: Option<T>, base: Option<T>): Option<T>
  {
    if over.Some? then over else base
  }

  /** `z | o`: each key the override sets replaces the zone's. */
  function Merge(z: Zone, o: ZoneOverride): (r: Zone)
    ensures o.id.Some? ==> r.id == o.id
    ensures o.name.Some? ==> r.name == o.name.value
    ensures o.category.Some? ==> r.category == o.category.value
    ensures o.continentRect.Some? ==> r.continentRect == o.continentRect.value
    ensures o.minLevel.Some? ==> r.minLevel == o.minLevel.value
    ensures o.maxLevel.Some? ==> r.maxLevel == o.maxLevel.value
    ensures o.labelRect.Some? ==> r.labelRect == o.labelRect
    ensures o.labelAnchor.Some? ==> r.labelAnchor == o.labelAnchor
    ensures o.labelSize.Some? ==> r.labelSize == o.labelSize
    ensures o.accessReq.Some? ==> r.accessReq == o.accessReq
    ensures o.masteryRegion.Some? ==> r.masteryRegion == o.masteryRegion
  {
    Zone(PickOpt(o.id, z.id), Pick(o.name, z.name), Pick(o.category, z.category),
         Pick(o.continentRect, z.continentRect), Pick(o.minLevel, z.minLevel), Pick(o.maxLevel, z.maxLevel),
         PickOpt(o.labelRect, z.labelRect), PickOpt(o.labelAnchor, z.labelAnchor),
         PickOpt(o.labelSize, z.labelSize), PickOpt(o.accessReq, z.accessReq),
         PickOpt(o.masteryRegion, z.masteryRegion))
  }

  /** `a | b` on two overrides. */
  function Combine(a: ZoneOverride, b: ZoneOverride): ZoneOverride
  {
    ZoneOverride(PickOpt(b.id, a.id), PickOpt(b.name, a.name), PickOpt(b.category, a.category),
                 PickOpt(b.continentRect, a.continentRect), PickOpt(b.minLevel, a.minLevel),
                 PickOpt(b.maxLevel, a.maxLevel), PickOpt(b.labelRect, a.labelRect),
                 PickOpt(b.labelAnchor, a.labelAnchor), PickOpt(b.labelSize, a.labelSize),
                 PickOpt(b.accessReq, a.accessReq), PickOpt(b.masteryRegion, a.masteryRegion))
  }

  /** Keys no override sets keep the zone's value: the union only adds or replaces. */
  lemma MergeKeepsUnset(z: Zone, o: ZoneOverride)
    ensures o.id.None? ==> Merge(z, o).id == z.id
    ensures o.name.None? ==> Merge(z, o).name == z.name
    ensures o.category.None? ==> Merge(z, o).category == z.category
    ensures o.continentRect.None? ==> Merge(z, o).continentRect == z.continentRect
    ensures o.minLevel.None? ==> Merge(z, o).minLevel == z.minLevel
    ensures o.maxLevel.None? ==> Merge(z, o).maxLevel == z.maxLevel
    ensures o.labelRect.None? ==> Merge(z, o).labelRect == z.labelRect
    ensures o.labelAnchor.None? ==> Merge(z, o).labelAnchor == z.labelAnchor
    ensures o.labelSize.None? ==> Merge(z, o).labelSize == z.labelSize
    ensures o.accessReq.None? ==> Merge(z, o).accessReq == z.accessReq
    ensures o.masteryRegion.None? ==> Merge(z, o).masteryRegion == z.masteryRegion
  {
  }

  /** The empty override changes nothing. */
  lemma MergeNothing(z: Zone)
    ensures Merge(z, NoOverride) == z
  {
  }

  /** Merging twice is merging once with the combined override, the later one winning. */
  lemma MergeTwice(z: Zone, a: ZoneOverride, b: ZoneOverride)
    ensures Merge(Merge(z, a), b) == Merge(z, Combine(a, b))
  {
  }

  /** Merging the same override again changes nothing more. */
  lemma MergeIdempotent(z: Zone, o: ZoneOverride)
    ensures Merge(Merge(z, o), o) == Merge(z, o)
  {
  }
}
