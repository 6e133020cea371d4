/**
 * The SQLite persistence layer of the Streamlit app: a key/value profile table, a
 * journal table with autoincremented ids and a knowledge-graph table of typed tags.
 * The three tables are fields of a `Database` object; SQL statements become updates
 * of those fields and the clock is a parameter.
 */
module MemoriesDb {
  import opened Wrappers
  import opened Diary
  import opened Knowledge
  import SqlOrder
  import Text

  /** A row of `profile`: the value and the time of its last write. */
  datatype ProfileRow = ProfileRow(value: string, updatedAt: string)

  /** A row of `journal_entries`. */
  datatype EntryRow = EntryRow(id: int, content: string, aiResponse: string, createdAt: string)

  /** A row of `knowledge_graph` (its own id is never read and is not modelled). */
  datatype TagRow = TagRow(entryId: int, kind: string, value: string, createdAt: string)

  /** A tag as the extractor hands it over: `type` and `value` may be missing. */
  datatype PyTag = PyTag(kind: Option<string>, value: Option<string>)

  const OnboardingKey: string := "onboarding_complete"

  function EntryCreated(r: EntryRow): string { r.createdAt }
  function TagCreated(r: TagRow): string { r.createdAt }

  /** `t.get(k, d)`. */
  function GetOr(o: Option<string>, d: string): (r: string)
    ensures o.Some? ==> r == o.value
    ensures o.None? ==> r == d
  {
    if o.Some? then o.value else d
  }

  /** The rows `save_tags` inserts: one per tag, defaults for missing members. */
  function TagRows(entryId: int, tags: seq<PyTag>, now: string): (rows: seq<TagRow>)
    ensures |rows| == |tags|
    ensures forall i :: 0 <= i < |tags| ==>
      rows[i] == TagRow(entryId, GetOr(tags[i].kind, "Unknown"), GetOr(tags[i].value, ""), now)
  {
    seq(|tags|, i requires 0 <= i < |tags| =>
      TagRow(entryId, GetOr(tags[i].kind, "Unknown"), GetOr(tags[i].value, ""), now))
  }

  /** The `(tag_type, tag_value)` pairs of tag rows. */
  function TagsOfRows(rows: seq<TagRow>): (tags: seq<Tag>)
    ensures |tags| == |rows|
    ensures forall i :: 0 <= i < |rows| ==> tags[i] == Tag(rows[i].kind, rows[i].value)
  {
    seq(|rows|, i requires 0 <= i < |rows| => Tag(rows[i].kind, rows[i].value))
  }

  // ---------------------------------------------------------------------------
  // The summary as the Python code builds it

  /** `grouped.setdefault(type, []).append(value)`: values kept with their repeats. */
  function RawAdd(gs: seq<Group>, t: Tag): seq<Group> {
    match FindGroup(gs, t.kind)
    case None => gs + [Group(t.kind, [t.value])]
    case Some(i) => gs[i := Group(t.kind, gs[i].values + [t.value])]
  }

  /** The `grouped` dictionary after the first loop, in key insertion order. */
  function RawGroupsOf(tags: seq<Tag>): seq<Group>
    decreases |tags|
  {
    if tags == [] then [] else RawAdd(RawGroupsOf(tags[..|tags| - 1]), tags[|tags| - 1])
  }

  /** Every group with its values deduplicated (the `seen` loop). */
  function DedupeGroups(gs: seq<Group>): (ds: seq<Group>)
    ensures |ds| == |gs|
    ensures forall i :: 0 <= i < |gs| ==> ds[i] == Group(gs[i].kind, Dedupe(gs[i].values))
  {
    seq(|gs|, i requires 0 <= i < |gs| => Group(gs[i].kind, Dedupe(gs[i].values)))
  }

  /** `get_knowledge_summary` on the ordered tags: the sentinel when there are none. */
  function PySummary(tags: seq<Tag>): string {
    if tags == [] then NoMemories else Text.Join(RenderLines(DedupeGroups(RawGroupsOf(tags))), "\n")
  }

  /** Groups with the same types in the same order are searched alike. */
  lemma FindGroupSameKinds(a: seq<Group>, b: seq<Group>, kind: string)
    requires |a| == |b| && forall i :: 0 <= i < |a| ==> a[i].kind == b[i].kind
    ensures FindGroup(a, kind) == FindGroup(b, kind)
    decreases |a|
  {
    if a != [] {
      FindGroupSameKinds(a[..|a| - 1], b[..|b| - 1], kind);
    }
  }

  /** One step of the raw grouping, deduplicated, is one step of the deduplicating grouping. */
  lemma RawAddStep(raw: seq<Group>, t: Tag)
    ensures DedupeGroups(RawAdd(raw, t)) == AddTag(DedupeGroups(raw), t)
  {
    var ded := DedupeGroups(raw);
    FindGroupSameKinds(raw, ded, t.kind);
    match FindGroup(raw, t.kind)
    case None =>
      assert Dedupe([t.value]) == [t.value] by {
        assert [t.value][..0] == [];
      }
      assert DedupeGroups(RawAdd(raw, t)) == ded + [Group(t.kind, [t.value])];
    case Some(i) =>
      DedupeSnoc(raw[i].values, t.value);
      var lhs := DedupeGroups(RawAdd(raw, t));
      var rhs := AddTag(ded, t);
      assert |lhs| == |rhs|;
      forall j | 0 <= j < |lhs| ensures lhs[j] == rhs[j] {
      }
  }

  /** Deduplicating the raw groups gives the same groups as the web app's Sets. */
  lemma {:induction false} RawGroupsDeduped(tags: seq<Tag>)
    ensures DedupeGroups(RawGroupsOf(tags)) == GroupsOf(tags)
    decreases |tags|
  {
    if tags != [] {
      var front := tags[..|tags| - 1];
      RawGroupsDeduped(front);
      RawAddStep(RawGroupsOf(front), tags[|tags| - 1]);
    }
  }

  /** The sentinel is returned exactly when the table holds no tag. */
  lemma PySentinelIffNoTags(tags: seq<Tag>)
    ensures PySummary(tags) == NoMemories <==> tags == []
  {
    if tags != [] {
      RawGroupsDeduped(tags);
      GroupsOfIsReference(tags);
      assert tags[0].kind in Kinds(tags);
      JoinedLinesShape(GroupsOf(tags));
      assert PySummary(tags)[0] == '[' && NoMemories[0] == 'N';
    }
  }

  /**
   * With at least one tag and no tag type that is an array index, both apps render
   * the same lines in the same order.
   */
  lemma PySummaryMatchesWeb(tags: seq<Tag>)
    requires tags != []
    requires forall i :: 0 <= i < |tags| ==> !IsArrayIndex(tags[i].kind)
    ensures PySummary(tags) == SummaryOfTags(tags)
  {
    RawGroupsDeduped(tags);
    GroupsOfIsReference(tags);
    var gs := GroupsOf(tags);
    var ts := TypesInOrder(tags);
    forall i | 0 <= i < |gs| ensures !IsArrayIndex(gs[i].kind) {
      assert gs[i].kind == ts[i] && ts[i] in Kinds(tags);
      var j :| 0 <= j < |tags| && Kinds(tags)[j] == ts[i];
    }
    NoIndexKeysKeepOrder(gs);
  }

  /** Two tags of different types make one group each, in tag order. */
  lemma TwoTypesTwoGroups(first: Tag, second: Tag)
    requires first.kind != second.kind
    ensures GroupsOf([first, second]) == [Group(first.kind, [first.value]), Group(second.kind, [second.value])]
  {
    var one := [Group(first.kind, [first.value])];
    assert [first, second][..1] == [first];
    assert [first][..0] == [];
    assert GroupsOf([first]) == AddTag([], first) == one;
    assert FindGroup(one, second.kind) == None;
  }

  /** The Python dictionary keeps a named type before an array-index type seen after it. */
  lemma PyKeepsInsertionOrder(named: Tag, index: Tag)
    requires named.kind != index.kind
    ensures DedupeGroups(RawGroupsOf([named, index])) ==
      [Group(named.kind, [named.value]), Group(index.kind, [index.value])]
  {
    RawGroupsDeduped([named, index]);
    TwoTypesTwoGroups(named, index);
  }

  /** The object enumerates an array-index type before a named type seen before it. */
  lemma WebPutsIndexFirst(named: Tag, index: Tag)
    requires !IsArrayIndex(named.kind) && IsArrayIndex(index.kind)
    ensures ObjectEntries(GroupsOf([named, index])) ==
      [Group(index.kind, [index.value]), Group(named.kind, [named.value])]
  {
    TwoTypesTwoGroups(named, index);
    IndexKeyEnumeratedFirst(Group(named.kind, [named.value]), Group(index.kind, [index.value]));
  }

  /** Of two groups, the one with an array-index key is enumerated first. */
  lemma IndexKeyEnumeratedFirst(ng: Group, ig: Group)
    requires !IsArrayIndex(ng.kind) && IsArrayIndex(ig.kind)
    ensures ObjectEntries([ng, ig]) == [ig, ng]
  {
    var both := [ng, ig];
    assert both[1..] == [ig] && [ig][1..] == [];
    assert IndexGroups([ig]) == [ig] && NamedGroups([ig]) == [];
    assert IndexGroups(both) == [ig];
    assert NamedGroups(both) == [ng];
    assert SortByIndex([ig]) == [ig];
  }

  /**
   * Where the order differs: a tag type that is an array index comes first on the web,
   * since an object enumerates such keys first, but keeps its first-seen place in the
   * Python dictionary.
   */
  lemma IndexTypeOrderDiffers(named: Tag, index: Tag)
    requires !IsArrayIndex(named.kind) && IsArrayIndex(index.kind)
    ensures var n := RenderGroup(Group(named.kind, [named.value]));
      var i := RenderGroup(Group(index.kind, [index.value]));
      SummaryOfTags([named, index]) == i + "\n" + n && PySummary([named, index]) == n + "\n" + i
  {
    var ng := Group(named.kind, [named.value]);
    var ig := Group(index.kind, [index.value]);
    WebPutsIndexFirst(named, index);
    PyKeepsInsertionOrder(named, index);
    RenderPair(ig, ng);
    RenderPair(ng, ig);
  }

  /** A tag type such as `2020` is an array index and `Event` is not, so the two apps order them differently. */
  lemma YearTypeIsArrayIndex()
    ensures IsArrayIndex("2020") && !IsArrayIndex("Event")
  {
    assert !('0' <= "Event"[0] <= '9');
    assert "2020"[..3] == "202" && "202"[..2] == "20" && "20"[..1] == "2" && "2"[..0] == "";
    assert DigitsValue("2020") == 2020;
  }

  /** Two groups render as their two lines joined by a newline. */
  lemma RenderPair(g: Group, h: Group)
    ensures Text.Join(RenderLines([g, h]), "\n") == RenderGroup(g) + "\n" + RenderGroup(h)
  {
    var lines := RenderLines([g, h]);
    assert lines == [RenderGroup(g), RenderGroup(h)];
    JoinPair(RenderGroup(g), RenderGroup(h), "\n");
  }

  lemma JoinPair(a: string, b: string, sep: string)
    ensures Text.Join([a, b], sep) == a + sep + b
  {
    assert [a, b][1..] == [b];
  }

  /**
   * Where the two apps differ: a journal whose entries carry no tags is summarised as
   * the empty string by the web app and as the sentinel by the Streamlit app.
   */
  lemma UntaggedJournalsDiffer(entries: seq<Entry>)
    requires entries != [] && Flatten(entries) == []
    ensures EntriesSummary(entries) == "" && PySummary(Flatten(entries)) == NoMemories
  {
    UntaggedEntriesSummary(entries);
  }

  // ---------------------------------------------------------------------------
  // The database

  class Database {
    var profile: map<string, ProfileRow>
    var entries: seq<EntryRow>
    var tags: seq<TagRow>
    /** The largest id `AUTOINCREMENT` has handed out for `journal_entries`. */
    var lastEntryId: int

    /** `init_db` on a new file: empty tables. */
    constructor ()
      ensures profile == map[] && entries == [] && tags == [] && lastEntryId == 0
    {
      profile := map[];
      entries := [];
      tags := [];
      lastEntryId := 0;
    }

    /** `{row["key"]: row["value"] for row in rows}`. */
    function ProfileView(): (p: map<string, string>)
      reads this
      ensures p.Keys == profile.Keys
      ensures forall k :: k in p ==> p[k] == profile[k].value
    {
      map k | k in profile :: profile[k].value
    }

    /** The entry rows as `get_all_entries` returns them. */
    function OrderedEntries(): (es: seq<EntryRow>)
      reads this
      ensures SqlOrder.SortedBy(es, EntryCreated) && multiset(es) == multiset(entries)
    {
      SqlOrder.SortBySorted(entries, EntryCreated);
      SqlOrder.SortBy(entries, EntryCreated)
    }

    /** The tag rows as `get_all_tags` returns them. */
    function OrderedTags(): (ts: seq<TagRow>)
      reads this
      ensures SqlOrder.SortedBy(ts, TagCreated) && multiset(ts) == multiset(tags)
    {
      SqlOrder.SortBySorted(tags, TagCreated);
      SqlOrder.SortBy(tags, TagCreated)
    }

    /** `set_profile`: insert the key, or overwrite its value and time (upsert). */
    method SetProfile(key: string, value: string, now: string)
      modifies this
      ensures profile == old(profile)[key := ProfileRow(value, now)]
      ensures entries == old(entries) && tags == old(tags) && lastEntryId == old(lastEntryId)
    {
      profile := profile[key := ProfileRow(value, now)];
    }

    /** `get_profile`. */
    method GetProfile() returns (p: map<string, string>)
      ensures p == ProfileView()
    {
      p := map k | k in profile :: profile[k].value;
    }

    /** `profile_is_complete`: the stored value is exactly the text `true`. */
    method ProfileIsComplete() returns (b: bool)
      ensures b <==> OnboardingKey in profile && profile[OnboardingKey].value == "true"
    {
      var p := GetProfile();
      b := OnboardingKey in p && p[OnboardingKey] == "true";
    }

    /** `save_entry`: appends a row under the next id and returns that id. */
    method SaveEntry(content: string, aiResponse: string, now: string) returns (id: int)
      modifies this
      ensures id == old(lastEntryId) + 1 && lastEntryId == id
      ensures entries == old(entries) + [EntryRow(id, content, aiResponse, now)]
      ensures profile == old(profile) && tags == old(tags)
    {
      id := lastEntryId + 1;
      lastEntryId := id;
      entries := entries + [EntryRow(id, content, aiResponse, now)];
    }

    /** `get_all_entries`: every row, ascending by creation time. */
    method GetAllEntries() returns (es: seq<EntryRow>)
      ensures es == OrderedEntries()
    {
      es := SqlOrder.SortBy(entries, EntryCreated);
    }

    /** `get_entry_count`. */
    method GetEntryCount() returns (n: int)
      ensures n == |entries|
    {
      n := |entries|;
    }

    /** `save_tags`: one row per tag, all stamped with the same time. */
    method SaveTags(entryId: int, newTags: seq<PyTag>, now: string)
      modifies this
      ensures tags == old(tags) + TagRows(entryId, newTags, now)
      ensures profile == old(profile) && entries == old(entries) && lastEntryId == old(lastEntryId)
    {
      tags := tags + TagRows(entryId, newTags, now);
    }

    /** `get_all_tags`: every tag row, ascending by creation time. */
    method GetAllTags() returns (ts: seq<TagRow>)
      ensures ts == OrderedTags()
    {
      ts := SqlOrder.SortBy(tags, TagCreated);
    }

    /**
     * `get_knowledge_summary`: groups the ordered tags' values by type, keeping repeats,
     * then renders each group with its values deduplicated.
     */
    method GetKnowledgeSummary() returns (s: string)
      ensures s == PySummary(TagsOfRows(OrderedTags()))
    {
      var rows := GetAllTags();
      if |rows| == 0 {
        return NoMemories;
      }
      var grouped := GroupValues(TagsOfRows(rows));
      var lines: seq<string> := [];
      for i := 0 to |grouped|
        invariant lines == RenderLines(DedupeGroups(grouped[..i]))
      {
        var seen := DistinctValues(grouped[i].values);
        lines := lines + ["[" + grouped[i].kind + "]: " + Text.Join(seen, " | ")];
        RenderDedupedSnoc(grouped, i);
      }
      assert grouped[..|grouped|] == grouped;
      s := Text.Join(lines, "\n");
    }
  }

  /** The first loop: `grouped.setdefault(t["tag_type"], []).append(t["tag_value"])`. */
  method GroupValues(all: seq<Tag>) returns (grouped: seq<Group>)
    ensures grouped == RawGroupsOf(all)
  {
    grouped := [];
    for i := 0 to |all|
      invariant grouped == RawGroupsOf(all[..i])
    {
      grouped := SetDefaultAppend(grouped, all[i]);
      assert all[..i + 1][..i] == all[..i];
    }
    assert all[..|all|] == all;
  }

  /** The `seen` loop: each value appended unless already seen. */
  method DistinctValues(values: seq<string>) returns (seen: seq<string>)
    ensures seen == Dedupe(values)
  {
    seen := [];
    for j := 0 to |values|
      invariant seen == Dedupe(values[..j])
    {
      if values[j] !in seen {
        seen := seen + [values[j]];
      }
      assert values[..j + 1][..j] == values[..j];
    }
    assert values[..|values|] == values;
  }

  /** One more group adds its rendered line. */
  lemma RenderDedupedSnoc(gs: seq<Group>, i: nat)
    requires i < |gs|
    ensures RenderLines(DedupeGroups(gs[..i + 1])) ==
      RenderLines(DedupeGroups(gs[..i])) + ["[" + gs[i].kind + "]: " + Text.Join(Dedupe(gs[i].values), " | ")]
  {
    var a := RenderLines(DedupeGroups(gs[..i + 1]));
    var b := RenderLines(DedupeGroups(gs[..i])) + ["[" + gs[i].kind + "]: " + Text.Join(Dedupe(gs[i].values), " | ")];
    assert |a| == |b|;
    forall k | 0 <= k < |a| ensures a[k] == b[k] {
      assert gs[..i + 1][k] == gs[k];
    }
  }

  /** One pass of the first loop: the type's list is created if missing, then appended to. */
  method SetDefaultAppend(grouped: seq<Group>, tag: Tag) returns (r: seq<Group>)
    ensures r == RawAdd(grouped, tag)
  {
    var found := FindGroup(grouped, tag.kind);
    if found.None? {
      r := grouped + [Group(tag.kind, [tag.value])];
    } else {
      var k := found.value;
      r := grouped[k := Group(tag.kind, grouped[k].values + [tag.value])];
    }
  }

  /** After `set_profile(k, v)`, `get_profile()[k] == v` and every other key is unchanged. */
  lemma UpsertThenGet(profile: map<string, ProfileRow>, key: string, value: string, now: string)
    ensures var after := profile[key := ProfileRow(value, now)];
      key in after && after[key].value == value &&
      forall k :: k in profile && k != key ==> k in after && after[k] == profile[k]
  {
  }
}
