/**
 * Python's `list.sort(key=...)` with a key of two integers, compared
 * lexicographically, as the overlays sort their zones: an in-place
 * insertion sort over an array.
 */
module Sorting {
  import opened Basics
  import opened Zones

  /** Lexicographic order on key pairs. */
  predicate KeyLe(a: (int, int), b: (int, int))
  {
    a.0 < b.0 || (a.0 == b.0 && a.1 <= b.1)
  }

  ghost predicate SortedBy<T>(s: seq<T>, key: T -> (int, int))
  {
    forall i, j :: 0 <= i < j < |s| ==> KeyLe(key(s[i]), key(s[j]))
  }

  lemma KeyLeTotal(a: (int, int), b: (int, int))
    ensures KeyLe(a, b) || KeyLe(b, a)
  {
  }

  lemma KeyLeTransitive(a: (int, int), b: (int, int), c: (int, int))
    requires KeyLe(a, b) && KeyLe(b, c)
    ensures KeyLe(a, c)
  {
  }

  /** `s[..n + 1]` is sorted by key except around position j, which is below everything after it. */
  ghost predicate SortedAround<T>(s: seq<T>, n: int, j: int, key: T -> (int, int))
    requires 0 <= j <= n < |s|
  {
    && (forall p, q :: 0 <= p < q <= n && p != j && q != j ==> KeyLe(key(s[p]), key(s[q])))
    && (forall q :: j < q <= n ==> KeyLe(key(s[j]), key(s[q])))
  }

  /** Swapping an out-of-order j with its left neighbour moves the gap one step left. */
  lemma SwapStep<T>(s: seq<T>, t: seq<T>, n: int, j: int, key: T -> (int, int))
    requires 0 < j <= n < |s| == |t|
    requires SortedAround(s, n, j, key)
    requires !KeyLe(key(s[j - 1]), key(s[j]))
    requires t == s[j - 1 := s[j]][j := s[j - 1]]
    ensures SortedAround(t, n, j - 1, key)
  {
    KeyLeTotal(key(s[j - 1]), key(s[j]));
    forall q | j - 1 < q <= n
      ensures KeyLe(key(t[j - 1]), key(t[q]))
    {
      if q > j {
        assert KeyLe(key(s[j - 1]), key(s[q]));
        KeyLeTransitive(key(s[j]), key(s[j - 1]), key(s[q]));
      }
    }
  }

  /** Once the gap is in order with its left neighbour, the whole prefix is sorted. */
  lemma GapClosed<T>(s: seq<T>, n: int, j: int, key: T -> (int, int))
    requires 0 <= j <= n < |s|
    requires SortedAround(s, n, j, key)
    requires j == 0 || KeyLe(key(s[j - 1]), key(s[j]))
    ensures SortedBy(s[..n + 1], key)
  {
    forall p, q | 0 <= p < q <= n
      ensures KeyLe(key(s[p]), key(s[q]))
    {
      if q == j && p < j - 1 {
        KeyLeTransitive(key(s[p]), key(s[j - 1]), key(s[j]));
      }
    }
  }

  /** Moves `a[i]` left past every larger element; `a[..i]` is sorted before and `a[..i + 1]` after. */
  method InsertAt<T>(a: array<T>, i: int, key: T -> (int, int))
    requires 0 <= i < a.Length
    requires SortedBy(a[..i], key)
    modifies a
    ensures SortedBy(a[..i + 1], key)
    ensures multiset(a[..]) == multiset(old(a[..]))
    ensures a[i + 1..] == old(a[i + 1..])
  {
    var j := i;
    assert SortedAround(a[..], i, i, key) by {
      assert forall p :: 0 <= p < i ==> a[..i][p] == a[p];
    }
    while j > 0 && !KeyLe(key(a[j - 1]), key(a[j]))
      invariant 0 <= j <= i
      invariant multiset(a[..]) == multiset(old(a[..]))
      invariant a[i + 1..] == old(a[i + 1..])
      invariant SortedAround(a[..], i, j, key)
    {
      ghost var before := a[..];
      a[j - 1], a[j] := a[j], a[j - 1];
      SwapStep(before, a[..], i, j, key);
      j := j - 1;
    }
    GapClosed(a[..], i, j, key);
    assert a[..][..i + 1] == a[..i + 1];
  }

  /** `a.sort(key=key)`: afterwards sorted by key, holding the same elements. */
  method SortBy<T>(a: array<T>, key: T -> (int, int))
    modifies a
    ensures SortedBy(a[..], key)
    ensures multiset(a[..]) == multiset(old(a[..]))
  {
    for i := 0 to a.Length
      invariant SortedBy(a[..i], key)
      invariant multiset(a[..]) == multiset(old(a[..]))
    {
      InsertAt(a, i, key);
    }
    assert a[..a.Length] == a[..];
  }

  /** The zone sort key `(order[zone['category']], zone['id'])`, with placeholders where a key is missing. */
  function ZoneKey(order: map<string, int>): Zone -> (int, int)
  {
    (z: Zone) => (if z.category in order then order[z.category] else 0, if z.id.Some? then z.id.value else 0)
  }

  /** Both parts of the sort key can be looked up. */
  predicate HasSortKey(order: map<string, int>, z: Zone)
  {
    z.category in order && z.id.Some?
  }

  /**
   * `zone_data.sort(key=lambda z: (order[z['category']], z['id']))`. The
   * keys are all computed before anything moves, so a missing key raises
   * KeyError with the list untouched.
   */
  method SortZones(zones: array<Zone>, order: map<string, int>) returns (err: Option<Error>)
    modifies zones
    ensures err.Some? <==> exists i :: 0 <= i < zones.Length && !HasSortKey(order, old(zones[i]))
    ensures err.Some? ==> err.value == MissingKey && zones[..] == old(zones[..])
    ensures err.None? ==> SortedBy(zones[..], ZoneKey(order))
    ensures err.None? ==> multiset(zones[..]) == multiset(old(zones[..]))
  {
    for i := 0 to zones.Length
      invariant forall j :: 0 <= j < i ==> HasSortKey(order, zones[j])
    {
      if !HasSortKey(order, zones[i]) {
        return Some(MissingKey);
      }
    }
    SortBy(zones, ZoneKey(order));
    return None;
  }

  /** Every element of a permutation of zones that all have a sort key has one too. */
  lemma PermutationKeepsKeys(order: map<string, int>, before: seq<Zone>, after: seq<Zone>)
    requires forall i :: 0 <= i < |before| ==> HasSortKey(order, before[i])
    requires multiset(after) == multiset(before)
    ensures forall i :: 0 <= i < |after| ==> HasSortKey(order, after[i])
  {
    forall i | 0 <= i < |after| ensures HasSortKey(order, after[i]) {
      assert after[i] in multiset(before);
      var j :| 0 <= j < |before| && before[j] == after[i];
    }
  }

  /** Sorted by the zone key means ordered by category order, then by id within a category. */
  lemma SortedZonesOrder(zones: seq<Zone>, order: map<string, int>, i: int, j: int)
    requires SortedBy(zones, ZoneKey(order))
    requires 0 <= i < j < |zones| && HasSortKey(order, zones[i]) && HasSortKey(order, zones[j])
    ensures order[zones[i].category] <= order[zones[j].category]
    ensures order[zones[i].category] == order[zones[j].category] ==> zones[i].id.value <= zones[j].id.value
  {
    assert KeyLe(ZoneKey(order)(zones[i]), ZoneKey(order)(zones[j]));
  }
}
