/**
 * The sidebar's memory snapshot: tags grouped by type with their distinct values in
 * first-seen order, at most five shown per type, long values cut to 22 characters plus
 * an ellipsis, and a colour triple per type with a default for unknown types.
 */
module Sidebar {
  import opened Wrappers
  import opened Diary
  import opened Knowledge

  /** A colour triple: background, border, text. */
  datatype Colors = Colors(bg: string, border: string, text: string)

  const TagColors: map<string, Colors> := map[
    "Event" := Colors("#fef3e2", "#C8933A", "#7a4e10"),
    "Entity" := Colors("#f0f4ff", "#8A9BB5", "#3a4a6a"),
    "Sentiment/Trigger" := Colors("#f0fff4", "#6B8F71", "#2d5a35"),
    "Core Belief" := Colors("#fff0f0", "#c0604a", "#7a2a1a"),
    "Syntax" := Colors("#f8f0ff", "#9a7abf", "#4a2a7a")
  ]

  const DefaultColors: Colors := Colors("#f5f5f5", "#ccc", "#333")

  /** `TAG_COLORS[type] || default`. */
  function ColorFor(kind: string): (c: Colors)
    ensures kind in TagColors ==> c == TagColors[kind]
    ensures kind !in TagColors ==> c == DefaultColors
  {
    if kind in TagColors then TagColors[kind] else DefaultColors
  }

  /** The reducer's body: create the type's list if missing, push the value unless included. */
  method Accumulate(acc: seq<Group>, t: Tag) returns (r: seq<Group>)
    ensures r == AddTag(acc, t)
  {
    var k := FindGroup(acc, t.kind);
    if k.None? {
      var created := Group(t.kind, []);
      assert created.values + [t.value] == [t.value];
      r := acc + [Group(t.kind, created.values + [t.value])];
    } else {
      var i := k.value;
      r := acc;
      if t.value !in acc[i].values {
        r := acc[i := Group(t.kind, acc[i].values + [t.value])];
      }
    }
  }

  /** `tags.reduce(...)`: the values of each type, distinct, in first-seen order. */
  method TagsByType(tags: seq<Tag>) returns (acc: seq<Group>)
    ensures acc == GroupsOf(tags)
  {
    acc := [];
    for i := 0 to |tags|
      invariant acc == GroupsOf(tags[..i])
    {
      acc := Accumulate(acc, tags[i]);
      assert tags[..i + 1][..i] == tags[..i];
    }
    assert tags[..|tags|] == tags;
  }

  /**
   * The grouping has a key for exactly the types present, and each list holds the
   * type's values once each, in the order they first appear.
   */
  lemma TagsByTypeShape(tags: seq<Tag>)
    ensures forall kind :: FindGroup(GroupsOf(tags), kind).Some? <==> exists t :: t in tags && t.kind == kind
    ensures forall i :: 0 <= i < |GroupsOf(tags)| ==>
      NoDuplicates(GroupsOf(tags)[i].values) &&
      GroupsOf(tags)[i].values == Dedupe(ValuesOf(tags, GroupsOf(tags)[i].kind))
  {
    forall kind ensures FindGroup(GroupsOf(tags), kind).Some? <==> exists t :: t in tags && t.kind == kind {
      GroupKindsPresent(tags, kind);
    }
    GroupsOfIsReference(tags);
  }

  /** `v.length > 22 ? v.slice(0, 22) + '…' : v`. */
  function Truncate(v: string): (r: string)
    ensures |v| <= 22 ==> r == v
    ensures |v| > 22 ==> |r| == 23 && r[..22] == v[..22] && r[22] == '…'
  {
    if |v| > 22 then v[..22] + "…" else v
  }

  /** What the snapshot shows for one type. */
  datatype TypeView = TypeView(kind: string, colors: Colors, shown: seq<string>)

  /** `values.slice(0, 5)`, each truncated. */
  function Shown(values: seq<string>): (s: seq<string>)
    ensures |s| == if |values| < 5 then |values| else 5
    ensures forall i :: 0 <= i < |s| ==> s[i] == Truncate(values[i])
  {
    var n := if |values| < 5 then |values| else 5;
    seq(n, i requires 0 <= i < n => Truncate(values[i]))
  }

  /**
   * The memory snapshot over the grouping object: one view per key, in the object's
   * key order (`Object.entries`).
   */
  function Snapshot(groups: seq<Group>): (vs: seq<TypeView>)
    ensures |vs| == |groups|
    ensures forall i :: 0 <= i < |groups| ==>
      var g := ObjectEntries(groups)[i];
      vs[i] == TypeView(g.kind, ColorFor(g.kind), Shown(g.values))
  {
    ObjectEntriesOrder(groups);
    var es := ObjectEntries(groups);
    seq(|es|, i requires 0 <= i < |es| => TypeView(es[i].kind, ColorFor(es[i].kind), Shown(es[i].values)))
  }

  /** No type shows more than five values, and no shown value is longer than 23 characters. */
  lemma SnapshotBounds(groups: seq<Group>)
    ensures forall i :: 0 <= i < |Snapshot(groups)| ==>
      |Snapshot(groups)[i].shown| <= 5 &&
      forall j :: 0 <= j < |Snapshot(groups)[i].shown| ==> |Snapshot(groups)[i].shown[j]| <= 23
  {
  }

  /** The snapshot section is rendered exactly when there is at least one tag. */
  lemma {:induction false} SnapshotIffTags(tags: seq<Tag>)
    ensures |GroupsOf(tags)| > 0 <==> tags != []
  {
    GroupsOfIsReference(tags);
    if tags != [] {
      assert tags[0].kind in Kinds(tags);
      assert tags[0].kind in Dedupe(Kinds(tags));
    }
  }
}
