/**
 * Loading the zone records, after mapgen/data_api.py: the ids of all
 * listed zones are requested from the map API in pages of at most 200,
 * each returned record is overridden when asked to and tagged with the
 * category it is listed under.
 */
module DataApi {
  import opened Basics
  import opened Zones

  const MaxPageSize: int := 200

  // ---------------------------------------------------------------- chunking

  /** The chunks put back together, in order. */
  function Concat<T>(chunks: seq<seq<T>>): seq<T>
  {
    if |chunks| == 0 then [] else Concat(chunks[..|chunks| - 1]) + chunks[|chunks| - 1]
  }

  /** The length of `range(0, len, n)`. */
  function ChunkCount(len: nat, n: int): nat
    requires n > 0
  {
    (len + n - 1) / n
  }

  /** Every chunk starts inside the list. */
  lemma ChunkStartInside(len: nat, n: int, k: int)
    requires n > 0 && 0 <= k < ChunkCount(len, n)
    ensures 0 <= k * n < len
  {
    var q := ChunkCount(len, n);
    var r := (len + n - 1) % n;
    assert len + n - 1 == q * n + r;
    assert (k + 1) * n <= q * n by {
      assert k + 1 <= q;
    }
  }

  /** The chunks reach the end of the list, and there are none exactly when the list is empty. */
  lemma ChunkCountCovers(len: nat, n: int)
    requires n > 0
    ensures ChunkCount(len, n) * n >= len
    ensures ChunkCount(len, n) == 0 <==> len == 0
  {
    var q := ChunkCount(len, n);
    var r := (len + n - 1) % n;
    assert len + n - 1 == q * n + r;
    if len > 0 {
      assert q * n > 0;
    }
  }

  function Chunk<T>(xs: seq<T>, n: int, k: int): (c: seq<T>)
    requires n > 0 && 0 <= k < ChunkCount(|xs|, n)
  {
    ChunkStartInside(|xs|, n, k);
    xs[k * n .. Min(k * n + n, |xs|)]
  }

  /**
   * `split_list`: the slices `xs[i:i + n]` for `i` in `range(0, len(xs), n)`.
   * A step of 0 is an error of `range`; a negative step gives no chunks.
   */
  function SplitList<T>(xs: seq<T>, n: int): (r: Result<seq<seq<T>>>)
    ensures r.Err? <==> n == 0
    ensures r.Err? ==> r.error == ZeroRangeStep
    ensures n < 0 ==> r == Ok([])
    ensures n > 0 ==> r.Ok? && |r.value| == ChunkCount(|xs|, n)
    ensures n > 0 ==> forall k :: 0 <= k < |r.value| ==> r.value[k] == Chunk(xs, n, k)
  {
    if n == 0 then Err(ZeroRangeStep)
    else if n < 0 then Ok([])
    else Ok(seq(ChunkCount(|xs|, n), k requires 0 <= k < ChunkCount(|xs|, n) => Chunk(xs, n, k)))
  }

  /** The first `m` chunks put together are the list up to the `m`-th chunk boundary. */
  lemma {:induction false} ConcatChunksPrefix<T>(xs: seq<T>, n: int, m: int)
    requires n > 0 && 0 <= m <= ChunkCount(|xs|, n)
    ensures Concat(SplitList(xs, n).value[..m]) == xs[..Min(m * n, |xs|)]
  {
    var chunks := SplitList(xs, n).value;
    if m == 0 {
      assert chunks[..0] == [];
    } else {
      ConcatChunksPrefix(xs, n, m - 1);
      assert chunks[..m][..m - 1] == chunks[..m - 1];
      ChunkStartInside(|xs|, n, m - 1);
      assert Min((m - 1) * n, |xs|) == (m - 1) * n;
      assert (m - 1) * n + n == m * n;
      assert xs[..(m - 1) * n] + xs[(m - 1) * n .. Min(m * n, |xs|)] == xs[..Min(m * n, |xs|)];
    }
  }

  /** Putting the chunks back together gives the list. */
  lemma SplitListRoundTrip<T>(xs: seq<T>, n: int)
    requires n > 0
    ensures Concat(SplitList(xs, n).value) == xs
  {
    var chunks := SplitList(xs, n).value;
    ConcatChunksPrefix(xs, n, |chunks|);
    ChunkCountCovers(|xs|, n);
    assert chunks[..|chunks|] == chunks;
    assert |xs| <= |chunks| * n;
  }

  /** Every chunk but the last has exactly `n` elements, the last between 1 and `n`; an empty list has no chunks. */
  lemma SplitListSizes<T>(xs: seq<T>, n: int)
    requires n > 0
    ensures xs == [] <==> SplitList(xs, n).value == []
    ensures forall k :: 0 <= k < |SplitList(xs, n).value| - 1 ==> |SplitList(xs, n).value[k]| == n
    ensures |SplitList(xs, n).value| > 0 ==> 1 <= |SplitList(xs, n).value[|SplitList(xs, n).value| - 1]| <= n
  {
    var chunks := SplitList(xs, n).value;
    ChunkCountCovers(|xs|, n);
    forall k | 0 <= k < |chunks| - 1
      ensures |chunks[k]| == n
    {
      ChunkStartInside(|xs|, n, k + 1);
      assert k * n + n == (k + 1) * n;
    }
    if |chunks| > 0 {
      ChunkStartInside(|xs|, n, |chunks| - 1);
    }
  }

  // ---------------------------------------------------------------- zone ids

  /** The `zone_ids` table: category names with their zone ids, in insertion order. */
  type ZoneIdTable = seq<(string, seq<int>)>

  /** All listed ids: category by category, each list in order. */
  function AllZoneIds(table: ZoneIdTable): seq<int>
  {
    if |table| == 0 then [] else AllZoneIds(table[..|table| - 1]) + table[|table| - 1].1
  }

  /** The id-to-category dictionary; a later listing of an id replaces an earlier one. */
  function CategoriesById(table: ZoneIdTable): map<int, string>
  {
    if |table| == 0 then map[]
    else
      var last := table[|table| - 1];
      CategoriesById(table[..|table| - 1]) + map id | id in last.1 :: last.0
  }

  /** An id is in the flattened list exactly when some category lists it. */
  lemma {:induction false} AllZoneIdsMembers(table: ZoneIdTable, id: int)
    ensures id in AllZoneIds(table) <==> exists j :: 0 <= j < |table| && id in table[j].1
  {
    if |table| > 0 {
      var init := table[..|table| - 1];
      AllZoneIdsMembers(init, id);
      assert forall j :: 0 <= j < |init| ==> init[j] == table[j];
    }
  }

  /** Every listed id has a category, and no other id has one. */
  lemma {:induction false} CategoriesByIdDomain(table: ZoneIdTable, id: int)
    ensures id in CategoriesById(table) <==> id in AllZoneIds(table)
  {
    if |table| > 0 {
      CategoriesByIdDomain(table[..|table| - 1], id);
    }
  }

  /** An id's category is the one of the last category that lists it. */
  lemma {:induction false} CategoriesByIdLastWins(table: ZoneIdTable, j: int, id: int)
    requires 0 <= j < |table| && id in table[j].1
    requires forall k :: j < k < |table| ==> id !in table[k].1
    ensures id in CategoriesById(table) && CategoriesById(table)[id] == table[j].0
  {
    var init := table[..|table| - 1];
    if j < |table| - 1 {
      assert forall k :: j < k < |init| ==> init[k] == table[k];
      CategoriesByIdLastWins(init, j, id);
    }
  }

  // ---------------------------------------------------------------- loading

  /**
   * One returned record: overridden when overrides are on and there is one
   * for its id, then tagged with its listed category. A record without an
   * id, or with one no category lists, is a missing-key error.
   */
  function LoadedZone(m: Zone, overrides: map<int, ZoneOverride>, useOverrides: bool, categories: map<int, string>)
    : (r: Result<Zone>)
    ensures r.Err? <==> m.id.None? || m.id.value !in categories
    ensures r.Err? ==> r.error == MissingKey
    ensures r.Ok? ==> r.value.category == categories[m.id.value]
    ensures r.Ok? && !(useOverrides && m.id.value in overrides) ==> r.value == m.(category := categories[m.id.value])
    ensures r.Ok? && useOverrides && m.id.value in overrides ==>
      var o := overrides[m.id.value];
      && (o.name.Some? ==> r.value.name == o.name.value)
      && (o.continentRect.Some? ==> r.value.continentRect == o.continentRect.value)
      && (o.labelRect.Some? ==> r.value.labelRect == o.labelRect)
      && (o.labelAnchor.Some? ==> r.value.labelAnchor == o.labelAnchor)
      && (o.name.None? ==> r.value.name == m.name)
  {
    if m.id.None? then Err(MissingKey)
    else
      var zoneData := if useOverrides && m.id.value in overrides then Merge(m, overrides[m.id.value]) else m;
      if m.id.value !in categories then Err(MissingKey)
      else Ok(zoneData.(category := categories[m.id.value]))
  }

  /** All returned records, in order; the first bad one stops the load. */
  function LoadZones(ms: seq<Zone>, overrides: map<int, ZoneOverride>, useOverrides: bool, categories: map<int, string>)
    : (r: Result<seq<Zone>>)
    ensures r.Err? ==> r.error == MissingKey
    ensures r.Ok? ==> |r.value| == |ms|
  {
    if |ms| == 0 then Ok([])
    else
      var rest := LoadZones(ms[..|ms| - 1], overrides, useOverrides, categories);
      if rest.Err? then rest
      else
        var z := LoadedZone(ms[|ms| - 1], overrides, useOverrides, categories);
        if z.Err? then Err(z.error) else Ok(rest.value + [z.value])
  }

  /** The load fails exactly when one record fails, and otherwise holds every record loaded, in order. */
  lemma {:induction false} LoadZonesMeaning(ms: seq<Zone>, overrides: map<int, ZoneOverride>, useOverrides: bool,
                                            categories: map<int, string>)
    ensures var r := LoadZones(ms, overrides, useOverrides, categories);
            && (r.Err? <==> exists i :: 0 <= i < |ms| && LoadedZone(ms[i], overrides, useOverrides, categories).Err?)
            && (r.Ok? ==> forall i :: 0 <= i < |ms| ==> LoadedZone(ms[i], overrides, useOverrides, categories) == Ok(r.value[i]))
  {
    if |ms| > 0 {
      var init := ms[..|ms| - 1];
      assert forall i :: 0 <= i < |init| ==> init[i] == ms[i];
      LoadZonesMeaning(init, overrides, useOverrides, categories);
    }
  }

  /** One bad record makes the whole load fail. */
  lemma LoadFailsAt(ms: seq<Zone>, i: int, overrides: map<int, ZoneOverride>, useOverrides: bool,
                    categories: map<int, string>)
    requires 0 <= i < |ms| && LoadedZone(ms[i], overrides, useOverrides, categories).Err?
    ensures LoadZones(ms, overrides, useOverrides, categories) == Err(MissingKey)
  {
    LoadZonesMeaning(ms, overrides, useOverrides, categories);
  }

  /** What the API returns for the requests, in request order. */
  function Fetched(requests: seq<seq<int>>, fetch: seq<int> -> seq<Zone>): seq<Zone>
  {
    if |requests| == 0 then [] else Fetched(requests[..|requests| - 1], fetch) + fetch(requests[|requests| - 1])
  }

  lemma LoadZonesPrefixError(a: seq<Zone>, b: seq<Zone>, overrides: map<int, ZoneOverride>, useOverrides: bool,
                             categories: map<int, string>)
    requires LoadZones(a, overrides, useOverrides, categories).Err?
    ensures LoadZones(a + b, overrides, useOverrides, categories).Err?
  {
    LoadZonesMeaning(a, overrides, useOverrides, categories);
    var i :| 0 <= i < |a| && LoadedZone(a[i], overrides, useOverrides, categories).Err?;
    assert (a + b)[i] == a[i];
    LoadFailsAt(a + b, i, overrides, useOverrides, categories);
  }

  /** The records for two runs of requests are the records for each run, in order. */
  lemma {:induction false} FetchedAppend(a: seq<seq<int>>, b: seq<seq<int>>, fetch: seq<int> -> seq<Zone>)
    ensures Fetched(a + b, fetch) == Fetched(a, fetch) + Fetched(b, fetch)
    decreases |b|
  {
    if |b| == 0 {
      assert a + b == a;
    } else {
      var init := b[..|b| - 1];
      var last := b[|b| - 1];
      assert (a + b)[..|a + b| - 1] == a + init;
      assert (a + b)[|a + b| - 1] == last;
      FetchedAppend(a, init, fetch);
      calc {
        Fetched(a + b, fetch);
        Fetched(a + init, fetch) + fetch(last);
        (Fetched(a, fetch) + Fetched(init, fetch)) + fetch(last);
        Fetched(a, fetch) + (Fetched(init, fetch) + fetch(last));
      }
    }
  }

  lemma LoadZonesSnoc(ms: seq<Zone>, m: Zone, overrides: map<int, ZoneOverride>, useOverrides: bool,
                      categories: map<int, string>)
    requires LoadZones(ms, overrides, useOverrides, categories).Ok?
    requires LoadedZone(m, overrides, useOverrides, categories).Ok?
    ensures LoadZones(ms + [m], overrides, useOverrides, categories)
      == Ok(LoadZones(ms, overrides, useOverrides, categories).value + [LoadedZone(m, overrides, useOverrides, categories).value])
  {
    assert (ms + [m])[..|ms|] == ms;
  }

  /** The id lists of the API requests: all listed ids in pages of at most 200. */
  function Pages(table: ZoneIdTable): seq<seq<int>>
  {
    SplitList(AllZoneIds(table), MaxPageSize).value
  }

  /** No request is empty and none carries more than 200 ids. */
  predicate PageSized(requests: seq<seq<int>>)
  {
    forall k :: 0 <= k < |requests| ==> 1 <= |requests[k]| <= MaxPageSize
  }

  lemma PagesSizes(table: ZoneIdTable, n: int)
    requires 0 <= n <= |Pages(table)|
    ensures Pages(table)[..n] <= Pages(table) && PageSized(Pages(table)[..n])
  {
    SplitListSizes(AllZoneIds(table), MaxPageSize);
  }

  /**
   * The inner loop of `load_zone_data` over one page of returned records:
   * each is loaded and appended to `zones`, the records loaded so far.
   */
  method LoadPage(ghost before: seq<Zone>, zones: seq<Zone>, batch: seq<Zone>, overrides: map<int, ZoneOverride>,
                  useOverrides: bool, categories: map<int, string>)
    returns (r: Result<seq<Zone>>)
    requires LoadZones(before, overrides, useOverrides, categories) == Ok(zones)
    ensures r == LoadZones(before + batch, overrides, useOverrides, categories)
  {
    var loaded := zones;
    assert before + batch[..0] == before;
    for j := 0 to |batch|
      invariant LoadZones(before + batch[..j], overrides, useOverrides, categories) == Ok(loaded)
    {
      ghost var done := before + batch[..j];
      var z := LoadRecord(batch[j], overrides, useOverrides, categories);
      assert before + batch[..j + 1] == done + [batch[j]];
      if z.Err? {
        assert (before + batch)[|before| + j] == batch[j];
        LoadFailsAt(before + batch, |before| + j, overrides, useOverrides, categories);
        return Err(MissingKey);
      }
      LoadZonesSnoc(done, batch[j], overrides, useOverrides, categories);
      loaded := loaded + [z.value];
    }
    assert batch[..|batch|] == batch;
    return Ok(loaded);
  }

  /**
   * The body of the record loop: the record's id must have a category; the
   * override for the id, when overrides are used, is merged in; the category
   * name is set.
   */
  method LoadRecord(m: Zone, overrides: map<int, ZoneOverride>, useOverrides: bool, categories: map<int, string>)
    returns (r: Result<Zone>)
    ensures r == LoadedZone(m, overrides, useOverrides, categories)
  {
    if m.id.None? || m.id.value !in categories {
      return Err(MissingKey);
    }
    var zoneId := m.id.value;
    var zoneData := if useOverrides && zoneId in overrides then Merge(m, overrides[zoneId]) else m;
    zoneData := zoneData.(category := categories[zoneId]);
    return Ok(zoneData);
  }

  /** One iteration of the page loop: request page `c` and load what comes back. */
  method LoadNextPage(pages: seq<seq<int>>, c: int, zones: seq<Zone>, fetch: seq<int> -> seq<Zone>,
                      overrides: map<int, ZoneOverride>, useOverrides: bool, categories: map<int, string>)
    returns (page: Result<seq<Zone>>)
    requires 0 <= c < |pages|
    requires LoadZones(Fetched(pages[..c], fetch), overrides, useOverrides, categories) == Ok(zones)
    ensures page.Ok? ==> LoadZones(Fetched(pages[..c + 1], fetch), overrides, useOverrides, categories) == page
    ensures page.Err? ==> page.error == MissingKey && LoadZones(Fetched(pages, fetch), overrides, useOverrides, categories).Err?
  {
    var ids := pages[c];
    var batch := fetch(ids);
    ghost var before := Fetched(pages[..c], fetch);
    assert pages[..c + 1][..c] == pages[..c];
    assert Fetched(pages[..c + 1], fetch) == before + batch;
    page := LoadPage(before, zones, batch, overrides, useOverrides, categories);
    if page.Err? {
      LoadFailsForAll(pages, c, fetch, overrides, useOverrides, categories);
    }
  }

  /**
   * `load_zone_data`: requests the listed ids page by page (`fetch` is the
   * map API) and loads every returned record. `requests` are the id lists
   * sent, in order.
   */
  method LoadZoneData(table: ZoneIdTable, overrides: map<int, ZoneOverride>, useOverrides: bool,
                      fetch: seq<int> -> seq<Zone>)
    returns (r: Result<seq<Zone>>, requests: seq<seq<int>>)
    ensures requests <= Pages(table) && PageSized(requests)
    ensures r.Ok? ==> requests == Pages(table)
    ensures r.Ok? ==> r == LoadZones(Fetched(Pages(table), fetch), overrides, useOverrides, CategoriesById(table))
    ensures r.Err? ==> (r.error == MissingKey
      && LoadZones(Fetched(Pages(table), fetch), overrides, useOverrides, CategoriesById(table)).Err?)
  {
    var categories := CategoriesById(table);
    var pages := Pages(table);
    var zones := [];
    requests := [];
    for c := 0 to |pages|
      invariant requests == pages[..c]
      invariant LoadZones(Fetched(requests, fetch), overrides, useOverrides, categories) == Ok(zones)
    {
      var page := LoadNextPage(pages, c, zones, fetch, overrides, useOverrides, categories);
      requests := pages[..c + 1];
      if page.Err? {
        PagesSizes(table, c + 1);
        return Err(MissingKey), requests;
      }
      zones := page.value;
    }
    assert pages[..|pages|] == pages;
    PagesSizes(table, |pages|);
    return Ok(zones), requests;
  }

  /** A load that fails on the first `c + 1` pages fails on all of them. */
  lemma LoadFailsForAll(pages: seq<seq<int>>, c: int, fetch: seq<int> -> seq<Zone>, overrides: map<int, ZoneOverride>,
                        useOverrides: bool, categories: map<int, string>)
    requires 0 <= c < |pages|
    requires LoadZones(Fetched(pages[..c + 1], fetch), overrides, useOverrides, categories).Err?
    ensures LoadZones(Fetched(pages, fetch), overrides, useOverrides, categories).Err?
  {
    assert pages == pages[..c + 1] + pages[c + 1..];
    FetchedAppend(pages[..c + 1], pages[c + 1..], fetch);
    LoadZonesPrefixError(Fetched(pages[..c + 1], fetch), Fetched(pages[c + 1..], fetch), overrides, useOverrides,
                         categories);
  }

  /** Every request is one of the pages and together they ask for every listed id once, in order. */
  lemma RequestsCoverIds(table: ZoneIdTable)
    ensures Concat(SplitList(AllZoneIds(table), MaxPageSize).value) == AllZoneIds(table)
  {
    SplitListRoundTrip(AllZoneIds(table), MaxPageSize);
  }
}
