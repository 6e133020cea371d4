/**
 * The tag aggregator: the "knowledge summary" that groups tag values by tag type,
 * keeping each type's values once in first-seen order, and the flat list of all tags
 * with a back-reference to their entry. Both are pure functions of the entries; the
 * stores and the sidebar compute them with loops that are proved equal to these.
 */
module Knowledge {
  import opened Wrappers
  import opened Text
  import opened Diary

  /** What the summary says when there is nothing to summarise. */
  const NoMemories: string := "No memories recorded yet."

  // ---------------------------------------------------------------------------
  // First-seen deduplication

  predicate NoDuplicates(s: seq<string>) {
    forall i, j :: 0 <= i < j < |s| ==> s[i] != s[j]
  }

  /** The distinct elements of `s`, each kept at its first occurrence. */
  function Dedupe(s: seq<string>): (d: seq<string>)
    ensures forall x :: x in d <==> x in s
    ensures NoDuplicates(d)
    ensures |d| <= |s|
    decreases |s|
  {
    if s == [] then []
    else
      var d := Dedupe(s[..|s| - 1]);
      assert s == s[..|s| - 1] + [s[|s| - 1]];
      if s[|s| - 1] in d then d else d + [s[|s| - 1]]
  }

  /** Position of the first occurrence of `x` in `s`. */
  function IndexOf(s: seq<string>, x: string): (i: nat)
    requires x in s
    ensures i < |s| && s[i] == x && x !in s[..i]
  {
    if s[0] == x then 0 else 1 + IndexOf(s[1..], x)
  }

  /** The first occurrence is the only position holding `x` with no `x` before it. */
  lemma IndexOfUnique(s: seq<string>, x: string, k: nat)
    requires k < |s| && s[k] == x && x !in s[..k]
    ensures IndexOf(s, x) == k
  {
    assert forall j :: 0 <= j < k ==> s[j] in s[..k];
    var i := IndexOf(s, x);
    assert forall j :: 0 <= j < i ==> s[j] in s[..i];
  }

  /** Extending a sequence does not move the first occurrence of an element already in it. */
  lemma IndexOfExtend(s: seq<string>, y: string, x: string)
    requires x in s
    ensures IndexOf(s + [y], x) == IndexOf(s, x)
  {
    var k := IndexOf(s, x);
    assert (s + [y])[..k] == s[..k];
    IndexOfUnique(s + [y], x, k);
  }

  /** Deduplication lists the elements in the order of their first occurrences. */
  lemma {:induction false} DedupeFirstSeenOrder(s: seq<string>)
    ensures forall i, j :: 0 <= i < j < |Dedupe(s)| ==>
      IndexOf(s, Dedupe(s)[i]) < IndexOf(s, Dedupe(s)[j])
    decreases |s|
  {
    if s != [] {
      var p := s[..|s| - 1];
      var x := s[|s| - 1];
      assert s == p + [x];
      DedupeFirstSeenOrder(p);
      var dp := Dedupe(p);
      forall y | y in dp ensures IndexOf(s, y) == IndexOf(p, y) {
        IndexOfExtend(p, x, y);
      }
      if x !in dp {
        IndexOfUnique(s, x, |p|);
      }
    }
  }

  /** A sequence without duplicates is its own deduplication. */
  lemma {:induction false} DedupeOfDistinct(s: seq<string>)
    requires NoDuplicates(s)
    ensures Dedupe(s) == s
    decreases |s|
  {
    if s != [] {
      var p := s[..|s| - 1];
      DedupeOfDistinct(p);
      assert s[|s| - 1] !in p;
      assert s == p + [s[|s| - 1]];
    }
  }

  /** Deduplication is idempotent. */
  lemma DedupeIdempotent(s: seq<string>)
    ensures Dedupe(Dedupe(s)) == Dedupe(s)
  {
    DedupeOfDistinct(Dedupe(s));
  }

  // ---------------------------------------------------------------------------
  // Tags of all entries

  /** All tags of all entries: entry order, then tag order within an entry. */
  function Flatten(entries: seq<Entry>): (tags: seq<Tag>)
    decreases |entries|
  {
    if entries == [] then []
    else Flatten(entries[..|entries| - 1]) + TagsOf(entries[|entries| - 1])
  }

  /** The tag types of a tag sequence, one per tag. */
  function Kinds(tags: seq<Tag>): (ks: seq<string>)
    ensures |ks| == |tags|
    ensures forall i :: 0 <= i < |tags| ==> ks[i] == tags[i].kind
    decreases |tags|
  {
    if tags == [] then [] else Kinds(tags[..|tags| - 1]) + [tags[|tags| - 1].kind]
  }

  /** The values of the tags of type `kind`, in order, repeats included. */
  function ValuesOf(tags: seq<Tag>, kind: string): (vs: seq<string>)
    decreases |tags|
  {
    if tags == [] then []
    else
      var t := tags[|tags| - 1];
      ValuesOf(tags[..|tags| - 1], kind) + (if t.kind == kind then [t.value] else [])
  }

  /** Every tag's value is among the values of its type. */
  lemma {:induction false} ValueOfTag(tags: seq<Tag>, t: Tag)
    requires t in tags
    ensures t.value in ValuesOf(tags, t.kind)
    decreases |tags|
  {
    var p := tags[..|tags| - 1];
    assert tags == p + [tags[|tags| - 1]];
    if t != tags[|tags| - 1] {
      ValueOfTag(p, t);
    }
  }

  /** A type that no tag has has no values. */
  lemma {:induction false} ValuesOfAbsentKind(tags: seq<Tag>, kind: string)
    requires kind !in Kinds(tags)
    ensures ValuesOf(tags, kind) == []
    decreases |tags|
  {
    if tags != [] {
      var p := tags[..|tags| - 1];
      assert Kinds(tags)[..|p|] == Kinds(p);
      ValuesOfAbsentKind(p, kind);
    }
  }

  /** The distinct tag types in first-seen order. */
  function TypesInOrder(tags: seq<Tag>): seq<string> {
    Dedupe(Kinds(tags))
  }

  // ---------------------------------------------------------------------------
  // Grouping

  /** One tag type with its distinct values: a key of the grouping object and its Set. */
  datatype Group = Group(kind: string, values: seq<string>)

  /** The groups as the summary describes them: one per type, in first-seen type order. */
  function ReferenceGroups(tags: seq<Tag>): (gs: seq<Group>)
    ensures |gs| == |TypesInOrder(tags)|
    ensures forall i :: 0 <= i < |gs| ==>
      gs[i] == Group(TypesInOrder(tags)[i], Dedupe(ValuesOf(tags, TypesInOrder(tags)[i])))
  {
    var ts := TypesInOrder(tags);
    seq(|ts|, i requires 0 <= i < |ts| => Group(ts[i], Dedupe(ValuesOf(tags, ts[i]))))
  }

  /** The group with key `kind` (`grouped[kind]`), if there is one. */
  function FindGroup(gs: seq<Group>, kind: string): (r: Option<nat>)
    ensures r.Some? ==> r.value < |gs| && gs[r.value].kind == kind
    ensures r.None? ==> forall i :: 0 <= i < |gs| ==> gs[i].kind != kind
    decreases |gs|
  {
    if gs == [] then None
    else if gs[|gs| - 1].kind == kind then Some(|gs| - 1)
    else FindGroup(gs[..|gs| - 1], kind)
  }

  /**
   * One step of the grouping loops: create the type's group if it is missing, then add
   * the value unless it is already there.
   */
  function AddTag(gs: seq<Group>, t: Tag): (r: seq<Group>)
  {
    match FindGroup(gs, t.kind)
    case None => gs + [Group(t.kind, [t.value])]
    case Some(i) =>
      if t.value in gs[i].values then gs
      else gs[i := Group(t.kind, gs[i].values + [t.value])]
  }

  /** The grouping of a tag sequence, tag by tag. */
  function GroupsOf(tags: seq<Tag>): seq<Group>
    decreases |tags|
  {
    if tags == [] then [] else AddTag(GroupsOf(tags[..|tags| - 1]), tags[|tags| - 1])
  }

  /** Deduplicating one more element either keeps it out or appends it. */
  lemma DedupeSnoc(s: seq<string>, x: string)
    ensures Dedupe(s + [x]) == if x in Dedupe(s) then Dedupe(s) else Dedupe(s) + [x]
  {
    assert (s + [x])[..|s|] == s;
  }

  lemma KindsSnoc(tags: seq<Tag>, t: Tag)
    ensures Kinds(tags + [t]) == Kinds(tags) + [t.kind]
  {
  }

  lemma ValuesOfSnoc(tags: seq<Tag>, t: Tag, kind: string)
    ensures ValuesOf(tags + [t], kind) == ValuesOf(tags, kind) + (if t.kind == kind then [t.value] else [])
  {
    assert (tags + [t])[..|tags|] == tags;
  }

  lemma ValuesOfOtherKind(tags: seq<Tag>, t: Tag, kind: string)
    requires t.kind != kind
    ensures ValuesOf(tags + [t], kind) == ValuesOf(tags, kind)
  {
    ValuesOfSnoc(tags, t, kind);
  }

  /** A tag's group keeps its place; a tag of a new type opens a group at the end. */
  lemma TypesSnoc(tags: seq<Tag>, t: Tag)
    ensures TypesInOrder(tags + [t]) ==
      if t.kind in TypesInOrder(tags) then TypesInOrder(tags) else TypesInOrder(tags) + [t.kind]
  {
    KindsSnoc(tags, t);
    DedupeSnoc(Kinds(tags), t.kind);
  }

  /** The group of a type other than the added tag's is unchanged. */
  lemma OtherGroupUnchanged(tags: seq<Tag>, t: Tag, j: nat)
    requires j < |TypesInOrder(tags)| && TypesInOrder(tags)[j] != t.kind
    ensures j < |ReferenceGroups(tags + [t])| && ReferenceGroups(tags + [t])[j] == ReferenceGroups(tags)[j]
  {
    TypesSnoc(tags, t);
    ValuesOfOtherKind(tags, t, TypesInOrder(tags)[j]);
  }

  /** The added tag's own group gains its value unless the value is already there. */
  lemma OwnGroupExtended(tags: seq<Tag>, t: Tag, i: nat)
    requires i < |TypesInOrder(tags)| && TypesInOrder(tags)[i] == t.kind
    ensures var vs := Dedupe(ValuesOf(tags, t.kind));
      i < |ReferenceGroups(tags + [t])| &&
      ReferenceGroups(tags + [t])[i] == Group(t.kind, if t.value in vs then vs else vs + [t.value])
  {
    TypesSnoc(tags, t);
    ValuesOfSnoc(tags, t, t.kind);
    DedupeSnoc(ValuesOf(tags, t.kind), t.value);
  }

  /** A tag of a new type gets a group holding just its value. */
  lemma NewGroupAppended(tags: seq<Tag>, t: Tag)
    requires t.kind !in TypesInOrder(tags)
    ensures |ReferenceGroups(tags + [t])| == |TypesInOrder(tags)| + 1
    ensures ReferenceGroups(tags + [t])[|TypesInOrder(tags)|] == Group(t.kind, [t.value])
  {
    TypesSnoc(tags, t);
    ValuesOfSnoc(tags, t, t.kind);
    ValuesOfAbsentKind(tags, t.kind);
    DedupeSnoc([], t.value);
  }

  /** A tag of a new type leaves the existing groups and appends its own. */
  lemma NewKindGroups(tags: seq<Tag>, t: Tag)
    requires t.kind !in TypesInOrder(tags)
    ensures ReferenceGroups(tags + [t]) == ReferenceGroups(tags) + [Group(t.kind, [t.value])]
  {
    var g' := ReferenceGroups(tags + [t]);
    var grown := ReferenceGroups(tags) + [Group(t.kind, [t.value])];
    NewGroupAppended(tags, t);
    forall j | 0 <= j < |g'| ensures g'[j] == grown[j] {
      NewKindGroupAt(tags, t, j);
    }
    SameGroups(g', grown);
  }

  /** Two group sequences that agree at every position are equal. */
  lemma SameGroups(a: seq<Group>, b: seq<Group>)
    requires |a| == |b| && forall j :: 0 <= j < |a| ==> a[j] == b[j]
    ensures a == b
  {
  }

  /** Position `j` of the groups after a tag of a new type. */
  lemma NewKindGroupAt(tags: seq<Tag>, t: Tag, j: nat)
    requires t.kind !in TypesInOrder(tags) && j <= |TypesInOrder(tags)|
    ensures j < |ReferenceGroups(tags + [t])|
    ensures ReferenceGroups(tags + [t])[j] == (ReferenceGroups(tags) + [Group(t.kind, [t.value])])[j]
  {
    NewGroupAppended(tags, t);
    if j < |TypesInOrder(tags)| {
      OtherGroupUnchanged(tags, t, j);
    }
  }

  /** No group has a type that does not occur. */
  lemma NewKindNotFound(tags: seq<Tag>, t: Tag)
    requires t.kind !in TypesInOrder(tags)
    ensures FindGroup(ReferenceGroups(tags), t.kind) == None
  {
    var g := ReferenceGroups(tags);
    var ts := TypesInOrder(tags);
    forall j | 0 <= j < |g| ensures g[j].kind != t.kind {
      assert g[j].kind == ts[j] && ts[j] in ts;
    }
  }

  /** Adding a tag of a type not seen before appends a one-value group. */
  lemma AddTagNewKind(tags: seq<Tag>, t: Tag)
    requires t.kind !in TypesInOrder(tags)
    ensures AddTag(ReferenceGroups(tags), t) == ReferenceGroups(tags + [t])
  {
    NewKindGroups(tags, t);
    NewKindNotFound(tags, t);
  }

  /** With a known type, the grouping keeps its length and the type's group gains the value. */
  lemma KnownKindOwnGroup(tags: seq<Tag>, t: Tag, i: nat)
    requires FindGroup(ReferenceGroups(tags), t.kind) == Some(i)
    ensures |ReferenceGroups(tags + [t])| == |ReferenceGroups(tags)|
    ensures |AddTag(ReferenceGroups(tags), t)| == |ReferenceGroups(tags)|
    ensures ReferenceGroups(tags + [t])[i] == AddTag(ReferenceGroups(tags), t)[i]
  {
    var g := ReferenceGroups(tags);
    var ts := TypesInOrder(tags);
    assert i < |ts| && ts[i] == t.kind;
    TypesSnoc(tags, t);
    OwnGroupExtended(tags, t, i);
  }

  /** A tag whose type has a group leaves every other group where it is. */
  lemma AddTagOtherIndex(gs: seq<Group>, t: Tag, i: nat, j: nat)
    requires FindGroup(gs, t.kind) == Some(i)
    requires j < |gs| && j != i
    ensures |AddTag(gs, t)| == |gs| && AddTag(gs, t)[j] == gs[j]
  {
  }

  /** Two positions of the type order hold two different types. */
  lemma TypesDistinct(tags: seq<Tag>, i: nat, j: nat)
    requires i < |TypesInOrder(tags)| && j < |TypesInOrder(tags)| && i != j
    ensures TypesInOrder(tags)[i] != TypesInOrder(tags)[j]
  {
    var ts := TypesInOrder(tags);
    assert NoDuplicates(ts);
    if i < j {
      assert ts[i] != ts[j];
    } else {
      assert ts[j] != ts[i];
    }
  }

  /** With a known type, every other type's group stays as it was. */
  lemma KnownKindOtherGroup(tags: seq<Tag>, t: Tag, i: nat, j: nat)
    requires FindGroup(ReferenceGroups(tags), t.kind) == Some(i)
    requires j < |ReferenceGroups(tags)| && j != i
    ensures j < |ReferenceGroups(tags + [t])| && j < |AddTag(ReferenceGroups(tags), t)|
    ensures ReferenceGroups(tags + [t])[j] == AddTag(ReferenceGroups(tags), t)[j]
  {
    var g := ReferenceGroups(tags);
    var ts := TypesInOrder(tags);
    assert ts[i] == t.kind;
    TypesDistinct(tags, i, j);
    OtherGroupUnchanged(tags, t, j);
    AddTagOtherIndex(g, t, i, j);
  }

  /** With a known type, all groups but the type's own stay as they were. */
  lemma KnownKindOtherGroups(tags: seq<Tag>, t: Tag, i: nat)
    requires FindGroup(ReferenceGroups(tags), t.kind) == Some(i)
    ensures |ReferenceGroups(tags + [t])| == |ReferenceGroups(tags)| == |AddTag(ReferenceGroups(tags), t)|
    ensures forall j :: 0 <= j < |ReferenceGroups(tags)| && j != i ==>
      ReferenceGroups(tags + [t])[j] == AddTag(ReferenceGroups(tags), t)[j]
  {
    var before := ReferenceGroups(tags);
    var after := ReferenceGroups(tags + [t]);
    var added := AddTag(before, t);
    KnownKindOwnGroup(tags, t, i);
    forall j | 0 <= j < |before| && j != i
      ensures after[j] == added[j]
    {
      KnownKindOtherGroup(tags, t, i, j);
    }
  }

  /** Two group sequences that agree at every position are equal. */
  lemma GroupsPointwise(a: seq<Group>, b: seq<Group>, i: nat)
    requires |a| == |b| && i < |a| && a[i] == b[i]
    requires forall j :: 0 <= j < |a| && j != i ==> a[j] == b[j]
    ensures a == b
  {
    assert forall j :: 0 <= j < |a| ==> a[j] == b[j];
  }

  /** Adding a tag of a known type touches only that type's group. */
  lemma AddTagKnownKind(tags: seq<Tag>, t: Tag, i: nat)
    requires FindGroup(ReferenceGroups(tags), t.kind) == Some(i)
    ensures AddTag(ReferenceGroups(tags), t) == ReferenceGroups(tags + [t])
  {
    KnownKindOwnGroup(tags, t, i);
    KnownKindOtherGroups(tags, t, i);
    GroupsPointwise(ReferenceGroups(tags + [t]), AddTag(ReferenceGroups(tags), t), i);
  }

  /**
   * Grouping tag by tag gives one group per tag type, in first-seen type order, each
   * holding that type's values deduplicated in first-seen order.
   */
  lemma {:induction false} GroupsOfIsReference(tags: seq<Tag>)
    ensures GroupsOf(tags) == ReferenceGroups(tags)
    decreases |tags|
  {
    if tags != [] {
      var p := tags[..|tags| - 1];
      var t := tags[|tags| - 1];
      assert tags == p + [t];
      GroupsOfIsReference(p);
      match FindGroup(ReferenceGroups(p), t.kind)
      case None =>
        AddTagNewKind(p, t);
      case Some(i) =>
        AddTagKnownKind(p, t, i);
    }
  }

  /** Grouping never produces two groups with the same type. */
  lemma GroupKindsDistinct(tags: seq<Tag>)
    ensures forall i, j :: 0 <= i < j < |GroupsOf(tags)| ==> GroupsOf(tags)[i].kind != GroupsOf(tags)[j].kind
  {
    GroupsOfIsReference(tags);
  }

  /** A group exists for exactly the types that occur among the tags. */
  lemma GroupKindsPresent(tags: seq<Tag>, kind: string)
    ensures FindGroup(GroupsOf(tags), kind).Some? <==> exists t :: t in tags && t.kind == kind
  {
    GroupsOfIsReference(tags);
    var ts := TypesInOrder(tags);
    if FindGroup(GroupsOf(tags), kind).Some? {
      var i := FindGroup(GroupsOf(tags), kind).value;
      assert ts[i] in Kinds(tags);
      var j :| 0 <= j < |tags| && Kinds(tags)[j] == kind;
      assert tags[j] in tags && tags[j].kind == kind;
    }
    if exists t :: t in tags && t.kind == kind {
      var t :| t in tags && t.kind == kind;
      var j :| 0 <= j < |tags| && tags[j] == t;
      assert Kinds(tags)[j] == kind;
      assert kind in Kinds(tags);
      assert kind in ts;
      var i :| 0 <= i < |ts| && ts[i] == kind;
      assert GroupsOf(tags)[i].kind == kind;
    }
  }

  /** A tag already recorded leaves the grouping unchanged (aggregation is idempotent). */
  lemma RepeatedTagChangesNothing(tags: seq<Tag>, t: Tag)
    requires t in tags
    ensures GroupsOf(tags + [t]) == GroupsOf(tags)
  {
    var s := tags + [t];
    assert s[..|s| - 1] == tags;
    GroupsOfIsReference(tags);
    ValueOfTag(tags, t);
    var g := GroupsOf(tags);
    GroupKindsPresent(tags, t.kind);
    var i := FindGroup(g, t.kind).value;
    assert g[i].values == Dedupe(ValuesOf(tags, t.kind));
  }

  // ---------------------------------------------------------------------------
  // Key order of a JavaScript object

  /** The value of a string of decimal digits, read left to right. */
  function DigitsValue(s: string): int
    decreases |s|
  {
    if s == [] then 0 else 10 * DigitsValue(s[..|s| - 1]) + (s[|s| - 1] as int - '0' as int)
  }

  /**
   * An array index: a canonical decimal numeral (no leading zero except `0` itself)
   * below 2^32 - 1. An object enumerates such keys before all others.
   */
  predicate IsArrayIndex(k: string) {
    |k| > 0 && (forall i :: 0 <= i < |k| ==> '0' <= k[i] <= '9') &&
    (k[0] != '0' || |k| == 1) && DigitsValue(k) < 0xFFFF_FFFF
  }

  /** The groups' keys ascend by numeric value. */
  predicate AscendingIndices(gs: seq<Group>) {
    forall i, j :: 0 <= i < j < |gs| ==> DigitsValue(gs[i].kind) <= DigitsValue(gs[j].kind)
  }

  /** `g` placed before the first group whose key is numerically larger. */
  function InsertByIndex(g: Group, sorted: seq<Group>): (r: seq<Group>)
    ensures multiset(r) == multiset(sorted) + multiset{g}
    ensures forall x :: x in r <==> x == g || x in sorted
    decreases |sorted|
  {
    if sorted == [] || DigitsValue(g.kind) <= DigitsValue(sorted[0].kind) then [g] + sorted
    else
      assert sorted == [sorted[0]] + sorted[1..];
      [sorted[0]] + InsertByIndex(g, sorted[1..])
  }

  /** A group no larger than every key of an ascending sequence can go in front of it. */
  lemma ConsAscending(h: Group, rest: seq<Group>)
    requires AscendingIndices(rest)
    requires forall i :: 0 <= i < |rest| ==> DigitsValue(h.kind) <= DigitsValue(rest[i].kind)
    ensures AscendingIndices([h] + rest)
  {
    var r := [h] + rest;
    forall i, j | 0 <= i < j < |r| ensures DigitsValue(r[i].kind) <= DigitsValue(r[j].kind) {
      assert r[j] == rest[j - 1];
      if i > 0 {
        assert r[i] == rest[i - 1];
      }
    }
  }

  /** Insertion keeps the keys ascending. */
  lemma {:induction false} InsertKeepsAscending(g: Group, sorted: seq<Group>)
    requires AscendingIndices(sorted)
    ensures AscendingIndices(InsertByIndex(g, sorted))
    decreases |sorted|
  {
    if sorted == [] || DigitsValue(g.kind) <= DigitsValue(sorted[0].kind) {
      ConsAscending(g, sorted);
    } else {
      var head := sorted[0];
      var tail := sorted[1..];
      var rest := InsertByIndex(g, tail);
      InsertKeepsAscending(g, tail);
      forall i | 0 <= i < |rest| ensures DigitsValue(head.kind) <= DigitsValue(rest[i].kind) {
        assert rest[i] in rest;
        if rest[i] != g {
          var k :| 0 <= k < |tail| && tail[k] == rest[i];
          assert sorted[k + 1] == rest[i];
        }
      }
      ConsAscending(head, rest);
    }
  }

  /** The groups in ascending numeric order of their keys. */
  function SortByIndex(gs: seq<Group>): (r: seq<Group>)
    ensures multiset(r) == multiset(gs)
    ensures AscendingIndices(r)
    decreases |gs|
  {
    if gs == [] then []
    else
      assert gs == [gs[0]] + gs[1..];
      InsertKeepsAscending(gs[0], SortByIndex(gs[1..]));
      InsertByIndex(gs[0], SortByIndex(gs[1..]))
  }

  /** The groups whose key is an array index, in their order. */
  function IndexGroups(gs: seq<Group>): (r: seq<Group>)
    ensures forall i :: 0 <= i < |r| ==> IsArrayIndex(r[i].kind)
    decreases |gs|
  {
    if gs == [] then []
    else (if IsArrayIndex(gs[0].kind) then [gs[0]] else []) + IndexGroups(gs[1..])
  }

  /** The groups whose key is not an array index, in their order. */
  function NamedGroups(gs: seq<Group>): (r: seq<Group>)
    ensures forall i :: 0 <= i < |r| ==> !IsArrayIndex(r[i].kind)
    decreases |gs|
  {
    if gs == [] then []
    else (if IsArrayIndex(gs[0].kind) then [] else [gs[0]]) + NamedGroups(gs[1..])
  }

  /** Splitting the groups by key kind loses and adds nothing. */
  lemma {:induction false} SplitIsPermutation(gs: seq<Group>)
    ensures multiset(IndexGroups(gs)) + multiset(NamedGroups(gs)) == multiset(gs)
    decreases |gs|
  {
    if gs != [] {
      var tail := gs[1..];
      SplitIsPermutation(tail);
      assert gs == [gs[0]] + tail;
      assert multiset(gs) == multiset{gs[0]} + multiset(tail);
      if IsArrayIndex(gs[0].kind) {
        assert IndexGroups(gs) == [gs[0]] + IndexGroups(tail);
        assert NamedGroups(gs) == NamedGroups(tail);
      } else {
        assert IndexGroups(gs) == IndexGroups(tail);
        assert NamedGroups(gs) == [gs[0]] + NamedGroups(tail);
      }
    }
  }

  /**
   * `Object.entries` of an object whose keys were added in the order of `gs`: the
   * array-index keys in ascending numeric order, then the other keys in insertion order.
   */
  function ObjectEntries(gs: seq<Group>): (r: seq<Group>)
    ensures multiset(r) == multiset(gs)
    ensures |r| == |gs|
  {
    SplitIsPermutation(gs);
    assert |multiset(gs)| == |gs|;
    SortByIndex(IndexGroups(gs)) + NamedGroups(gs)
  }

  /**
   * The enumeration is a permutation of the groups: first the `n` groups with an
   * array-index key, ascending, then the others exactly as they were inserted.
   */
  lemma ObjectEntriesOrder(gs: seq<Group>)
    ensures var n := |IndexGroups(gs)|; var r := ObjectEntries(gs);
      n <= |r| &&
      (forall i :: 0 <= i < n ==> IsArrayIndex(r[i].kind)) &&
      AscendingIndices(r[..n]) &&
      r[n..] == NamedGroups(gs)
  {
    var n := |IndexGroups(gs)|;
    var sorted := SortByIndex(IndexGroups(gs));
    var r := ObjectEntries(gs);
    assert |sorted| == |multiset(sorted)| == n;
    assert r[..n] == sorted && r[n..] == NamedGroups(gs);
    forall i | 0 <= i < n ensures IsArrayIndex(r[i].kind) {
      assert r[i] in multiset(sorted);
    }
  }

  /** A first group without an array-index key stays first among the named groups. */
  lemma NamedHead(gs: seq<Group>)
    requires gs != [] && !IsArrayIndex(gs[0].kind)
    ensures IndexGroups(gs) == IndexGroups(gs[1..])
    ensures NamedGroups(gs) == [gs[0]] + NamedGroups(gs[1..])
  {
  }

  /** Without array-index keys the enumeration is the insertion order. */
  lemma {:induction false} NoIndexKeysKeepOrder(gs: seq<Group>)
    requires forall i :: 0 <= i < |gs| ==> !IsArrayIndex(gs[i].kind)
    ensures IndexGroups(gs) == [] && NamedGroups(gs) == gs
    ensures ObjectEntries(gs) == gs
    decreases |gs|
  {
    if gs != [] {
      var tail := gs[1..];
      forall i | 0 <= i < |tail| ensures !IsArrayIndex(tail[i].kind) {
        assert tail[i] == gs[i + 1];
      }
      NoIndexKeysKeepOrder(tail);
      NamedHead(gs);
      assert gs == [gs[0]] + tail;
    }
  }

  // ---------------------------------------------------------------------------
  // Rendering

  /** `[type]: v1 | v2 | ...`. */
  function RenderGroup(g: Group): string {
    "[" + g.kind + "]: " + Join(g.values, " | ")
  }

  function RenderLines(gs: seq<Group>): (lines: seq<string>)
    ensures |lines| == |gs|
    ensures forall i :: 0 <= i < |gs| ==> lines[i] == RenderGroup(gs[i])
  {
    seq(|gs|, i requires 0 <= i < |gs| => RenderGroup(gs[i]))
  }

  /** Rendered groups joined by newlines: empty for no group, else starting with `[`. */
  lemma JoinedLinesShape(gs: seq<Group>)
    ensures gs == [] ==> Join(RenderLines(gs), "\n") == ""
    ensures gs != [] ==> Join(RenderLines(gs), "\n") != [] && Join(RenderLines(gs), "\n")[0] == '['
  {
    if gs != [] {
      var lines := RenderLines(gs);
      assert lines[0][0] == '[';
      JoinStartsWithFirst(lines, "\n");
    }
  }

  /**
   * The summary text of a tag sequence: one line per entry of the grouping object, in
   * the object's key order, joined by newlines.
   */
  function SummaryOfTags(tags: seq<Tag>): string {
    Join(RenderLines(ObjectEntries(GroupsOf(tags))), "\n")
  }

  /** The summary of a non-empty tag sequence is non-empty and starts with `[`. */
  lemma SummaryOfTagsShape(tags: seq<Tag>)
    ensures tags == [] ==> SummaryOfTags(tags) == ""
    ensures tags != [] ==> SummaryOfTags(tags) != [] && SummaryOfTags(tags)[0] == '['
  {
    ObjectEntriesOrder(GroupsOf(tags));
    if tags != [] {
      GroupsOfIsReference(tags);
      assert tags[0].kind in Kinds(tags);
    }
    JoinedLinesShape(ObjectEntries(GroupsOf(tags)));
  }

  /** Each enumerated group is the group of one tag type, holding its distinct values. */
  lemma ObjectEntryIsTypeGroup(tags: seq<Tag>, i: nat)
    requires i < |ObjectEntries(GroupsOf(tags))|
    ensures var g := ObjectEntries(GroupsOf(tags))[i];
      g.kind in TypesInOrder(tags) && g == Group(g.kind, Dedupe(ValuesOf(tags, g.kind)))
  {
    var ts := TypesInOrder(tags);
    var ref := GroupsOf(tags);
    var gs := ObjectEntries(ref);
    var g := gs[i];
    assert g in multiset(gs);
    assert g in ref;
    var m :| 0 <= m < |ref| && ref[m] == g;
    GroupsOfIsReference(tags);
    assert ref[m] == Group(ts[m], Dedupe(ValuesOf(tags, ts[m])));
  }


  /** Every tag type is enumerated. */
  lemma TypeIsEnumerated(tags: seq<Tag>, k: string)
    requires k in TypesInOrder(tags)
    ensures exists i :: 0 <= i < |ObjectEntries(GroupsOf(tags))| && ObjectEntries(GroupsOf(tags))[i].kind == k
  {
    var ts := TypesInOrder(tags);
    var ref := GroupsOf(tags);
    GroupsOfIsReference(tags);
    var gs := ObjectEntries(ref);
    var m :| 0 <= m < |ts| && ts[m] == k;
    assert ref[m] in multiset(gs);
    var i :| 0 <= i < |gs| && gs[i] == ref[m];
    assert gs[i].kind == k;
  }

  /**
   * The summary's lines: one line per tag type, each `[type]: ` followed by that
   * type's distinct values in first-seen order, in the key order of `ObjectEntries`.
   */
  lemma SummaryLines(tags: seq<Tag>)
    ensures var ts := TypesInOrder(tags); var gs := ObjectEntries(GroupsOf(tags));
      |gs| == |ts| &&
      (forall i :: 0 <= i < |gs| ==>
        gs[i].kind in ts && RenderLines(gs)[i] == "[" + gs[i].kind + "]: " + Join(Dedupe(ValuesOf(tags, gs[i].kind)), " | ")) &&
      (forall k :: k in ts ==> exists i :: 0 <= i < |gs| && gs[i].kind == k)
  {
    var ts := TypesInOrder(tags);
    var gs := ObjectEntries(GroupsOf(tags));
    var lines := RenderLines(gs);
    assert |GroupsOf(tags)| == |ts| by {
      GroupsOfIsReference(tags);
    }
    forall i | 0 <= i < |gs|
      ensures gs[i].kind in ts && lines[i] == "[" + gs[i].kind + "]: " + Join(Dedupe(ValuesOf(tags, gs[i].kind)), " | ")
    {
      ObjectEntryIsTypeGroup(tags, i);
    }
    forall k | k in ts ensures exists i :: 0 <= i < |gs| && gs[i].kind == k {
      TypeIsEnumerated(tags, k);
    }
  }

  /** When no tag type is an array index, the summary's lines are in first-seen type order. */
  lemma SummaryLinesFirstSeen(tags: seq<Tag>)
    requires forall k :: k in TypesInOrder(tags) ==> !IsArrayIndex(k)
    ensures var ts := TypesInOrder(tags);
      |RenderLines(ObjectEntries(GroupsOf(tags)))| == |ts| &&
      forall i :: 0 <= i < |ts| ==>
        RenderLines(ObjectEntries(GroupsOf(tags)))[i] == "[" + ts[i] + "]: " + Join(Dedupe(ValuesOf(tags, ts[i])), " | ")
  {
    var ts := TypesInOrder(tags);
    var ref := GroupsOf(tags);
    GroupsOfIsReference(tags);
    forall i | 0 <= i < |ref| ensures !IsArrayIndex(ref[i].kind) {
      assert ref[i].kind == ts[i];
    }
    NoIndexKeysKeepOrder(ref);
  }

  /** `getKnowledgeSummary`: the sentinel for an empty store, the rendered groups otherwise. */
  function EntriesSummary(entries: seq<Entry>): string {
    if |entries| == 0 then NoMemories else SummaryOfTags(Flatten(entries))
  }

  /** The sentinel is returned exactly when there are no entries. */
  lemma SentinelIffNoEntries(entries: seq<Entry>)
    ensures EntriesSummary(entries) == NoMemories <==> entries == []
  {
    SummaryOfTagsShape(Flatten(entries));
  }

  /** Entries that carry no tags summarise to the empty string, not to the sentinel. */
  lemma UntaggedEntriesSummary(entries: seq<Entry>)
    requires entries != [] && Flatten(entries) == []
    ensures EntriesSummary(entries) == ""
  {
    SummaryOfTagsShape([]);
  }

  // ---------------------------------------------------------------------------
  // All tags with provenance

  /** A tag with the id and creation time of the entry that owns it. */
  datatype TagRecord = TagRecord(tag: Tag, entryId: int, date: string)

  /** The records contributed by one entry, in tag order. */
  function EntryRecords(e: Entry): (rs: seq<TagRecord>)
    ensures |rs| == |TagsOf(e)|
  {
    seq(|TagsOf(e)|, j requires 0 <= j < |TagsOf(e)| => TagRecord(TagsOf(e)[j], e.id, e.createdAt.iso))
  }

  /** `getAllTags`: every tag of every entry, with its back-reference. */
  function AllTagRecords(entries: seq<Entry>): seq<TagRecord>
    decreases |entries|
  {
    if entries == [] then []
    else AllTagRecords(entries[..|entries| - 1]) + EntryRecords(entries[|entries| - 1])
  }

  /** There is one record per tag. */
  lemma {:induction false} AllTagRecordsLength(entries: seq<Entry>)
    ensures |AllTagRecords(entries)| == |Flatten(entries)|
    decreases |entries|
  {
    if entries != [] {
      AllTagRecordsLength(entries[..|entries| - 1]);
    }
  }

  /** The records list exactly the flattened tags, in the same order. */
  lemma {:induction false} AllTagRecordsAreFlatten(entries: seq<Entry>)
    ensures |AllTagRecords(entries)| == |Flatten(entries)|
    ensures forall k :: 0 <= k < |Flatten(entries)| ==> AllTagRecords(entries)[k].tag == Flatten(entries)[k]
    decreases |entries|
  {
    if entries != [] {
      var p := entries[..|entries| - 1];
      var e := entries[|entries| - 1];
      AllTagRecordsAreFlatten(p);
      var rs := AllTagRecords(entries);
      var ts := Flatten(entries);
      assert rs == AllTagRecords(p) + EntryRecords(e);
      assert ts == Flatten(p) + TagsOf(e);
      forall k | 0 <= k < |ts| ensures rs[k].tag == ts[k] {
        if k >= |Flatten(p)| {
          assert rs[k] == EntryRecords(e)[k - |Flatten(p)|];
        }
      }
    }
  }

  /**
   * The `j`-th tag of entry `i` is recorded with entry `i`'s id and creation time,
   * right after the records of the entries before it.
   */
  lemma {:induction false} AllTagRecordsAt(entries: seq<Entry>, i: nat, j: nat)
    requires i < |entries| && j < |TagsOf(entries[i])|
    ensures |Flatten(entries[..i])| + j < |AllTagRecords(entries)|
    ensures AllTagRecords(entries)[|Flatten(entries[..i])| + j] ==
      TagRecord(TagsOf(entries[i])[j], entries[i].id, entries[i].createdAt.iso)
    decreases |entries|
  {
    var p := entries[..|entries| - 1];
    if i == |entries| - 1 {
      LastEntryRecordAt(entries, j);
    } else {
      AllTagRecordsAt(p, i, j);
      PrefixOfInit(entries, i);
      EarlierRecordKept(entries, |Flatten(entries[..i])| + j);
    }
  }

  /** The records of the last entry follow those of the entries before it. */
  lemma LastEntryRecordAt(entries: seq<Entry>, j: nat)
    requires entries != [] && j < |TagsOf(entries[|entries| - 1])|
    ensures var e := entries[|entries| - 1]; var k := |Flatten(entries[..|entries| - 1])| + j;
      k < |AllTagRecords(entries)| && AllTagRecords(entries)[k] == TagRecord(TagsOf(e)[j], e.id, e.createdAt.iso)
  {
    AllTagRecordsLength(entries[..|entries| - 1]);
  }

  /** Dropping the last entry keeps every shorter prefix and every earlier entry. */
  lemma PrefixOfInit(entries: seq<Entry>, i: nat)
    requires i < |entries| - 1
    ensures entries[..|entries| - 1][..i] == entries[..i] && entries[..|entries| - 1][i] == entries[i]
  {
  }

  /** One more entry leaves the earlier records where they were. */
  lemma EarlierRecordKept(entries: seq<Entry>, k: nat)
    requires entries != [] && k < |AllTagRecords(entries[..|entries| - 1])|
    ensures k < |AllTagRecords(entries)| && AllTagRecords(entries)[k] == AllTagRecords(entries[..|entries| - 1])[k]
  {
  }

  /** `r` carries one of `e`'s tags and `e`'s id and creation time. */
  predicate OwnedBy(r: TagRecord, e: Entry) {
    r.tag in TagsOf(e) && r.entryId == e.id && r.date == e.createdAt.iso
  }

  /** Each record points at an entry that owns its tag. */
  lemma {:induction false} AllTagRecordsOwned(entries: seq<Entry>)
    ensures forall k :: 0 <= k < |AllTagRecords(entries)| ==>
      exists i :: 0 <= i < |entries| && OwnedBy(AllTagRecords(entries)[k], entries[i])
    decreases |entries|
  {
    if entries != [] {
      var p := entries[..|entries| - 1];
      var e := entries[|entries| - 1];
      AllTagRecordsOwned(p);
      var rs := AllTagRecords(entries);
      var n := |AllTagRecords(p)|;
      assert rs == AllTagRecords(p) + EntryRecords(e);
      forall k | 0 <= k < |rs|
        ensures exists i :: 0 <= i < |entries| && OwnedBy(rs[k], entries[i])
      {
        if k < n {
          assert rs[k] == AllTagRecords(p)[k];
          var i :| 0 <= i < |p| && OwnedBy(AllTagRecords(p)[k], p[i]);
          assert entries[i] == p[i];
        } else {
          assert rs[k] == EntryRecords(e)[k - n];
          assert TagsOf(e)[k - n] in TagsOf(e);
          assert OwnedBy(rs[k], entries[|entries| - 1]);
        }
      }
      assert forall k :: 0 <= k < |rs| ==> exists i :: 0 <= i < |entries| && OwnedBy(rs[k], entries[i]);
    } else {
      assert AllTagRecords(entries) == [];
    }
  }
}
