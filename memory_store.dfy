/**
 * The JavaScript persistence layer: a profile object and an array of entries, each kept
 * as a JSON document. A missing document reads as empty, and so does one that does not
 * parse. Reading and writing the files is modelled by the two document fields.
 */
module MemoryStore {
  import opened Wrappers
  import opened JsValues
  import opened Diary
  import opened Knowledge
  import EraFilter
  import Text

  /** A JSON document on disk: absent, present but unparseable, or holding a value. */
  datatype Document<T> = Missing | Unparseable | Parsed(value: T)

  /** The member `setProfile` and `setProfileBulk` stamp on every write. */
  const UpdatedAt: string := "updatedAt"

  /** `{ ...base, ...data, updatedAt: now }`. */
  function MergeProfile(base: Object, data: Object, now: string): (m: Object)
    ensures forall k :: k in m <==> k in base || k in data || k == UpdatedAt
    ensures m[UpdatedAt] == Str(now)
    ensures forall k :: k in data && k != UpdatedAt ==> m[k] == data[k]
    ensures forall k :: k in base && k !in data && k != UpdatedAt ==> m[k] == base[k]
  {
    base + data + map[UpdatedAt := Str(now)]
  }

  /** The profile member `onboardingComplete` is exactly `true`. */
  predicate OnboardingDone(profile: Object) {
    "onboardingComplete" in profile && profile["onboardingComplete"] == Bool(true)
  }

  /** The two JSON documents of the data directory. */
  class Store {
    var profileFile: Document<Object>
    var entriesFile: Document<seq<Entry>>

    /** A fresh data directory holds neither document. */
    constructor ()
      ensures profileFile == Missing && entriesFile == Missing
    {
      profileFile := Missing;
      entriesFile := Missing;
    }

    /** The profile as `getProfile` reads it. */
    function Profile(): (p: Object)
      reads this
      ensures !profileFile.Parsed? ==> p == map[]
    {
      if profileFile.Parsed? then profileFile.value else map[]
    }

    /** The entries as `getEntries` reads them. */
    function Entries(): (es: seq<Entry>)
      reads this
      ensures !entriesFile.Parsed? ==> es == []
    {
      if entriesFile.Parsed? then entriesFile.value else []
    }

    /** `getProfile`: the stored object, or `{}` when it is missing or unparseable. */
    method GetProfile() returns (p: Object)
      ensures profileFile.Parsed? ==> p == profileFile.value
      ensures !profileFile.Parsed? ==> p == map[]
    {
      match profileFile
      case Parsed(v) => p := v;
      case _ => p := map[];
    }

    /** `setProfile`: one member is set and the write time stamped; nothing else changes. */
    method SetProfile(key: string, value: Value, now: string) returns (p: Object)
      modifies this
      ensures p == old(Profile())[key := value][UpdatedAt := Str(now)]
      ensures profileFile == Parsed(p) && entriesFile == old(entriesFile)
    {
      var profile := GetProfile();
      profile := profile[key := value];
      profile := profile[UpdatedAt := Str(now)];
      profileFile := Parsed(profile);
      p := profile;
    }

    /** `setProfileBulk`: the given members override the stored ones. */
    method SetProfileBulk(data: Object, now: string) returns (p: Object)
      modifies this
      ensures p == MergeProfile(old(Profile()), data, now)
      ensures profileFile == Parsed(p) && entriesFile == old(entriesFile)
    {
      var profile := GetProfile();
      p := MergeProfile(profile, data, now);
      profileFile := Parsed(p);
    }

    /** `isOnboardingComplete`: strict comparison with `true`. */
    method IsOnboardingComplete() returns (b: bool)
      ensures b <==> OnboardingDone(Profile())
    {
      var profile := GetProfile();
      b := "onboardingComplete" in profile && profile["onboardingComplete"] == Bool(true);
    }

    /** `getEntries`: the stored array, or `[]` when it is missing or unparseable. */
    method GetEntries() returns (es: seq<Entry>)
      ensures entriesFile.Parsed? ==> es == entriesFile.value
      ensures !entriesFile.Parsed? ==> es == []
    {
      match entriesFile
      case Parsed(v) => es := v;
      case _ => es := [];
    }

    /**
     * `addEntry`: appends an entry with the given id (the current time in milliseconds)
     * and creation time; the stored entries are the old ones plus the new one at the end.
     */
    method AddEntry(content: string, aiResponse: string, tags: seq<Tag>, id: int, now: Timestamp)
      returns (e: Entry)
      modifies this
      ensures e == Entry(id, content, aiResponse, Some(tags), now)
      ensures entriesFile == Parsed(old(Entries()) + [e]) && profileFile == old(profileFile)
    {
      var entries := GetEntries();
      e := Entry(id, content, aiResponse, Some(tags), now);
      entries := entries + [e];
      entriesFile := Parsed(entries);
    }

    /**
     * `getKnowledgeSummary`: walks every tag of every entry into per-type groups of
     * distinct values, then renders one line per group in the object's key order.
     */
    method GetKnowledgeSummary() returns (s: string)
      ensures s == EntriesSummary(Entries())
    {
      var entries := GetEntries();
      if |entries| == 0 {
        return NoMemories;
      }
      var grouped: seq<Group> := [];
      for i := 0 to |entries|
        invariant grouped == GroupsOf(Flatten(entries[..i]))
      {
        grouped := AddEntryTags(grouped, Flatten(entries[..i]), TagsOf(entries[i]));
        FlattenPrefix(entries, i);
      }
      assert entries[..|entries|] == entries;
      s := Text.Join(RenderLines(ObjectEntries(grouped)), "\n");
    }

    /** `getAllTags`: every tag of every entry, tagged with the entry's id and date. */
    method GetAllTags() returns (all: seq<TagRecord>)
      ensures all == AllTagRecords(Entries())
    {
      var entries := GetEntries();
      all := [];
      for i := 0 to |entries|
        invariant all == AllTagRecords(entries[..i])
      {
        var entry := entries[i];
        var tags := TagsOf(entry);
        for j := 0 to |tags|
          invariant all == AllTagRecords(entries[..i]) + EntryRecords(entry)[..j]
        {
          all := all + [TagRecord(tags[j], entry.id, entry.createdAt.iso)];
          assert EntryRecords(entry)[..j + 1] == EntryRecords(entry)[..j] + [EntryRecords(entry)[j]];
        }
        assert EntryRecords(entry)[..|tags|] == EntryRecords(entry);
        assert entries[..i + 1][..i] == entries[..i];
      }
      assert entries[..|entries|] == entries;
    }

    /** `getEntriesByEra`: the stored entries inside the era, in stored order. */
    method GetEntriesByEra(yearStart: Option<int>, yearEnd: Option<int>) returns (r: seq<Entry>)
      ensures r == EraFilter.EntriesByEra(Entries(), yearStart, yearEnd)
    {
      var entries := GetEntries();
      r := EraFilter.EntriesByEra(entries, yearStart, yearEnd);
    }
  }

  /** The inner loop: one entry's tags folded, in order, into the groups built so far. */
  method AddEntryTags(grouped: seq<Group>, ghost seen: seq<Tag>, tags: seq<Tag>) returns (r: seq<Group>)
    requires grouped == GroupsOf(seen)
    ensures r == GroupsOf(seen + tags)
  {
    r := grouped;
    PrefixEnds(seen, tags);
    for j := 0 to |tags|
      invariant r == GroupsOf(seen + tags[..j])
    {
      r := AddToGroups(r, tags[j]);
      GroupsOfNextTag(seen, tags, j);
    }
  }

  /** The empty and the full prefix of `tags`. */
  lemma PrefixEnds(seen: seq<Tag>, tags: seq<Tag>)
    ensures seen + tags[..0] == seen && seen + tags[..|tags|] == seen + tags
  {
    assert tags[..|tags|] == tags;
  }

  /**
   * One pass of the inner loop: `grouped[type]` is created as an empty Set when it is
   * missing, then the value is added to it.
   */
  method AddToGroups(grouped: seq<Group>, tag: Tag) returns (r: seq<Group>)
    ensures r == AddTag(grouped, tag)
  {
    var found := FindGroup(grouped, tag.kind);
    if found.None? {
      var created := Group(tag.kind, []);
      r := grouped + [Group(created.kind, created.values + [tag.value])];
      assert created.values + [tag.value] == [tag.value];
    } else {
      var k := found.value;
      var g := grouped[k];
      r := grouped;
      if tag.value !in g.values {
        r := r[k := Group(g.kind, g.values + [tag.value])];
      }
    }
  }

  /** The grouping loop's body is one step of `GroupsOf`. */
  lemma GroupsOfSnoc(tags: seq<Tag>, t: Tag)
    ensures GroupsOf(tags + [t]) == AddTag(GroupsOf(tags), t)
  {
    assert (tags + [t])[..|tags|] == tags;
  }

  /** Grouping one more of an entry's tags is one more `AddTag`. */
  lemma GroupsOfNextTag(seen: seq<Tag>, tags: seq<Tag>, j: nat)
    requires j < |tags|
    ensures GroupsOf(seen + tags[..j + 1]) == AddTag(GroupsOf(seen + tags[..j]), tags[j])
  {
    assert seen + tags[..j + 1] == seen + tags[..j] + [tags[j]];
    GroupsOfSnoc(seen + tags[..j], tags[j]);
  }

  /** The tags of the first `i + 1` entries extend those of the first `i`. */
  lemma FlattenPrefix(entries: seq<Entry>, i: nat)
    requires i < |entries|
    ensures Flatten(entries[..i + 1]) == Flatten(entries[..i]) + TagsOf(entries[i])
  {
    assert entries[..i + 1][..i] == entries[..i];
  }

  /** Setting a profile member makes it readable, except `updatedAt`, which is overwritten. */
  lemma SetThenGet(base: Object, key: string, value: Value, now: string)
    ensures var p := base[key := value][UpdatedAt := Str(now)];
      p[UpdatedAt] == Str(now) && (key != UpdatedAt ==> p[key] == value) &&
      forall k :: k in base && k != key && k != UpdatedAt ==> k in p && p[k] == base[k]
  {
  }

  /** Completing onboarding with a bulk write makes `isOnboardingComplete` hold. */
  lemma BulkCompletesOnboarding(base: Object, data: Object, now: string)
    requires "onboardingComplete" in data && data["onboardingComplete"] == Bool(true)
    ensures OnboardingDone(MergeProfile(base, data, now))
  {
  }
}
