/**
 * The era filter: entries whose creation year (local time) lies within an optional,
 * inclusive range of years. A bound counts as set only when it is truthy, so a year
 * of 0 behaves like no bound; an entry whose timestamp does not parse has no year and
 * fails every comparison.
 */
module EraFilter {
  import opened Wrappers
  import opened Diary

  /** A bound takes part in the filter only when it is truthy (present and non-zero). */
  predicate BoundSet(b: Option<int>) {
    b.Some? && b.value != 0
  }

  predicate InEra(e: Entry, start: Option<int>, end: Option<int>) {
    var year := e.createdAt.localYear;
    (BoundSet(start) ==> year.Some? && year.value >= start.value) &&
    (BoundSet(end) ==> year.Some? && year.value <= end.value)
  }

  /** The entries inside the era, in their original order. */
  function Filter(entries: seq<Entry>, start: Option<int>, end: Option<int>): (r: seq<Entry>)
    ensures |r| <= |entries|
    ensures forall e :: e in r <==> e in entries && InEra(e, start, end)
    decreases |entries|
  {
    if entries == [] then []
    else
      var p := entries[..|entries| - 1];
      var e := entries[|entries| - 1];
      assert entries == p + [e];
      Filter(p, start, end) + (if InEra(e, start, end) then [e] else [])
  }

  /** `getEntriesByEra`: every entry when neither bound is set, the filtered ones otherwise. */
  function EntriesByEra(entries: seq<Entry>, start: Option<int>, end: Option<int>): seq<Entry> {
    if !BoundSet(start) && !BoundSet(end) then entries else Filter(entries, start, end)
  }

  /** Filtering one more entry appends it exactly when it is inside the era. */
  lemma FilterSnoc(entries: seq<Entry>, e: Entry, start: Option<int>, end: Option<int>)
    ensures Filter(entries + [e], start, end) ==
      Filter(entries, start, end) + (if InEra(e, start, end) then [e] else [])
  {
    assert (entries + [e])[..|entries|] == entries;
  }

  /** Filtering distributes over concatenation, so relative order is kept. */
  lemma {:induction false} FilterAppend(a: seq<Entry>, b: seq<Entry>, start: Option<int>, end: Option<int>)
    ensures Filter(a + b, start, end) == Filter(a, start, end) + Filter(b, start, end)
    decreases |b|
  {
    if b == [] {
      assert a + b == a;
    } else {
      var q := b[..|b| - 1];
      var e := b[|b| - 1];
      assert b == q + [e];
      var x := if InEra(e, start, end) then [e] else [];
      calc {
        Filter(a + b, start, end);
        { assert a + b == (a + q) + [e]; FilterSnoc(a + q, e, start, end); }
        Filter(a + q, start, end) + x;
        { FilterAppend(a, q, start, end); }
        (Filter(a, start, end) + Filter(q, start, end)) + x;
        Filter(a, start, end) + (Filter(q, start, end) + x);
        { FilterSnoc(q, e, start, end); }
        Filter(a, start, end) + Filter(b, start, end);
      }
    }
  }

  /** A sequence lying wholly within the era is kept unchanged. */
  lemma {:induction false} FilterKeepsAll(entries: seq<Entry>, start: Option<int>, end: Option<int>)
    requires forall i :: 0 <= i < |entries| ==> InEra(entries[i], start, end)
    ensures Filter(entries, start, end) == entries
    decreases |entries|
  {
    if entries != [] {
      var p := entries[..|entries| - 1];
      assert entries == p + [entries[|entries| - 1]];
      FilterKeepsAll(p, start, end);
    }
  }

  /** Returning the entries unfiltered when no bound is set is the same as filtering. */
  lemma ShortcutAgrees(entries: seq<Entry>, start: Option<int>, end: Option<int>)
    ensures EntriesByEra(entries, start, end) == Filter(entries, start, end)
  {
    if !BoundSet(start) && !BoundSet(end) {
      FilterKeepsAll(entries, start, end);
    }
  }

  /** An entry is returned exactly when it is stored and inside the era. */
  lemma EntriesByEraMembership(entries: seq<Entry>, start: Option<int>, end: Option<int>, e: Entry)
    ensures e in EntriesByEra(entries, start, end) <==> e in entries && InEra(e, start, end)
  {
    ShortcutAgrees(entries, start, end);
  }
}
