/**
 * The Streamlit app's model layer: the three onboarding questions, the journaling and
 * past-self prompts with their defaults, the ten-turn history the chat is started with
 * and the tag extraction. Persona preambles are parameters; replies are opaque outcomes.
 */
module AiEnginePy {
  import opened Wrappers
  import opened Text
  import opened Diary
  import AiEngine
  import MemoriesDb
  import Knowledge

  /** An onboarding question: its id and the profile key its answer is stored under. */
  datatype Question = Question(key: string, storeKey: string)

  const OnboardingQuestions: seq<Question> := [
    Question("q1", "name_and_life_stage"),
    Question("q2", "foundational_memory"),
    Question("q3", "linguistic_style")
  ]

  /** The questions are three, stored under three different profile keys. */
  lemma OnboardingKeys()
    ensures |OnboardingQuestions| == 3
    ensures forall i, j :: 0 <= i < j < 3 ==> OnboardingQuestions[i].storeKey != OnboardingQuestions[j].storeKey
  {
  }

  /** `profile.get(k, d)`. */
  function Get(p: map<string, string>, k: string, d: string): (r: string)
    ensures k in p ==> r == p[k]
    ensures k !in p ==> r == d
  {
    if k in p then p[k] else d
  }

  // ---------------------------------------------------------------------------
  // Journaling

  /** `profile_context`: empty for an empty profile, else each field or `Unknown`. */
  function ProfileContext(profile: map<string, string>): (s: string)
    ensures s == "" <==> profile == map[]
  {
    if profile == map[] then ""
    else
      "\nThe user's profile baseline:\n- Name / Life stage: " + Get(profile, "name_and_life_stage", "Unknown") +
      "\n- Foundational memory: " + Get(profile, "foundational_memory", "Unknown") +
      "\n- Linguistic style: " + Get(profile, "linguistic_style", "Unknown") + "\n"
  }

  /** `knowledge_context`: present whenever the summary is non-empty, sentinel included. */
  function KnowledgeContext(summary: string): (s: string)
    ensures s == "" <==> summary == ""
    ensures s != "" ==> |summary| < |s| && s[|s| - |summary|..] == summary
  {
    if summary != "" then "\nKnowledge graph (accumulated memories):\n" + summary else ""
  }

  /** The Streamlit app quotes the sentinel to the model where the web app leaves the block out. */
  lemma SentinelQuoted()
    ensures KnowledgeContext(Knowledge.NoMemories) != "" && AiEngine.KnowledgeContext(Knowledge.NoMemories) == ""
  {
  }

  /** The turns passed through with their roles: `{"role": role, "parts": [text]}`. */
  function PassThrough(h: seq<Turn>): (cs: seq<ChatContent>)
    ensures |cs| == |h|
    ensures forall i :: 0 <= i < |h| ==> cs[i] == ChatContent(h[i].role, h[i].content)
  {
    seq(|h|, i requires 0 <= i < |h| => ChatContent(h[i].role, h[i].content))
  }

  /** The history loop over `conversation_history[-10:]`. */
  method BuildHistory(conversation: seq<Turn>) returns (history: seq<ChatContent>)
    ensures history == PassThrough(AiEngine.Window(conversation, 10))
  {
    var recent := AiEngine.Window(conversation, 10);
    history := [];
    for i := 0 to |recent|
      invariant history == PassThrough(recent[..i])
    {
      history := history + [ChatContent(recent[i].role, recent[i].content)];
    }
    assert recent[..|recent|] == recent;
  }

  /** The built history holds the last ten turns, roles untouched, with no user anchoring. */
  lemma HistoryKeepsRoles(conversation: seq<Turn>)
    ensures var h := PassThrough(AiEngine.Window(conversation, 10));
      |h| == (if |conversation| < 10 then |conversation| else 10) &&
      forall i :: 0 <= i < |h| ==> h[i].role == conversation[|conversation| - |h| + i].role
  {
  }

  /** A window that opens with a model turn is sent as it is, unlike in the web app. */
  lemma LeadingModelTurnKept(conversation: seq<Turn>)
    requires 0 < |conversation| <= 10 && conversation[0].role == "model"
    ensures PassThrough(AiEngine.Window(conversation, 10))[0].role == "model"
  {
  }

  /** The heading the entry is written under. */
  const JournalHeading := "\n\n---\nUser's journal entry:\n"

  /** The system prompt, the profile and knowledge blocks, then the entry under its own heading. */
  function JournalingMessage(persona: string, profile: map<string, string>, summary: string, entry: string): (m: string)
    ensures |persona| <= |m| && m[..|persona|] == persona
    ensures |JournalHeading + entry| <= |m| && m[|m| - |JournalHeading + entry|..] == JournalHeading + entry
    ensures |entry| <= |m| && m[|m| - |entry|..] == entry
    ensures summary != "" ==> |persona| + |JournalHeading + entry| < |m|
    ensures m == persona + ProfileContext(profile) + KnowledgeContext(summary) + JournalHeading + entry
  {
    var profileBlock := ProfileContext(profile);
    var knowledge := KnowledgeContext(summary);
    var blocks := profileBlock + knowledge;
    assert |knowledge| <= |blocks|;
    assert persona + blocks == persona + profileBlock + knowledge;
    Compose(persona, blocks, JournalHeading, entry)
  }

  /** `get_journaling_response` up to the chat call. */
  method JournalingRequest(apiKey: string, persona: string, entry: string, profile: map<string, string>,
                           conversation: seq<Turn>, summary: string) returns (r: AiEngine.ChatRequest)
    ensures r.model == AiEngine.Model(apiKey, AiEngine.ModelName)
    ensures r.history == PassThrough(AiEngine.Window(conversation, 10))
    ensures r.message == JournalingMessage(persona, profile, summary, entry)
  {
    var history := BuildHistory(conversation);
    r := AiEngine.ChatRequest(AiEngine.Model(apiKey, AiEngine.ModelName), history,
                              JournalingMessage(persona, profile, summary, entry));
  }

  // ---------------------------------------------------------------------------
  // Past self

  /** `[created_at[:10]]: content`. */
  function EntryLine(e: MemoriesDb.EntryRow): string {
    "[" + Prefix(e.createdAt, 10) + "]: " + e.content
  }

  /** One line per entry among the last twenty, oldest first. */
  function RecentLines(entries: seq<MemoriesDb.EntryRow>): (ls: seq<string>)
    ensures |ls| == (if |entries| < 20 then |entries| else 20)
    ensures forall i :: 0 <= i < |ls| ==> ls[i] == EntryLine(entries[|entries| - |ls| + i])
  {
    var w := AiEngine.Window(entries, 20);
    seq(|w|, i requires 0 <= i < |w| => EntryLine(w[i]))
  }

  /** `profile_str`: each field, `?` when missing. */
  function ProfileBlock(profile: map<string, string>): string {
    "Name/Life stage: " + Get(profile, "name_and_life_stage", "?") +
    "\nFoundational memory: " + Get(profile, "foundational_memory", "?") +
    "\nLinguistic style: " + Get(profile, "linguistic_style", "?")
  }

  function PastSelfMessage(persona: string, message: string, profile: map<string, string>,
                           summary: string, entries: seq<MemoriesDb.EntryRow>): string {
    persona + "\n\nProfile baseline:\n" + ProfileBlock(profile) + "\n\nKnowledge graph:\n" + summary +
    "\n\nJournal entries (most recent 20):\n" + Join(RecentLines(entries), "\n\n") +
    "\n\n---\nUser says: " + message
  }

  /** `get_past_self_response` up to the chat call. */
  method PastSelfRequest(apiKey: string, persona: string, message: string, profile: map<string, string>,
                         summary: string, entries: seq<MemoriesDb.EntryRow>, conversation: seq<Turn>)
    returns (r: AiEngine.ChatRequest)
    ensures r.model == AiEngine.Model(apiKey, AiEngine.ModelName)
    ensures r.history == PassThrough(AiEngine.Window(conversation, 10))
    ensures r.message == PastSelfMessage(persona, message, profile, summary, entries)
  {
    var history := BuildHistory(conversation);
    r := AiEngine.ChatRequest(AiEngine.Model(apiKey, AiEngine.ModelName), history,
                              PastSelfMessage(persona, message, profile, summary, entries));
  }

  // ---------------------------------------------------------------------------
  // Tag extraction

  /**
   * The reply stripped and, when it opens with a fence, cut to the text after the first
   * fence (up to the next one), minus a leading `json`; not stripped again.
   */
  function Unfence(reply: string): string {
    var raw := Trim(reply);
    if StartsWith(raw, AiEngine.Fence) then
      assert OccursAt(raw, AiEngine.Fence, 0);
      DropPrefix(SecondField(raw, AiEngine.Fence), "json")
    else raw
  }

  /** The tags a reply yields: the parsed list, `[]` on any failure or a non-list result. */
  function Extracted(reply: Result<string, string>, parse: string -> Parsed<MemoriesDb.PyTag>): seq<MemoriesDb.PyTag> {
    if reply.Err? then []
    else match parse(Unfence(reply.value))
      case Array(items) => items
      case _ => []
  }

  /** `extract_knowledge_tags`, step by step on the reply text. */
  method ExtractKnowledgeTags(reply: Result<string, string>, parse: string -> Parsed<MemoriesDb.PyTag>)
    returns (tags: seq<MemoriesDb.PyTag>)
    ensures tags == Extracted(reply, parse)
    ensures reply.Err? ==> tags == []
    ensures reply.Ok? && parse(Unfence(reply.value)).Array? ==> tags == parse(Unfence(reply.value)).items
    ensures reply.Ok? && !parse(Unfence(reply.value)).Array? ==> tags == []
  {
    if reply.Err? {
      return [];
    }
    var raw := Trim(reply.value);
    if StartsWith(raw, AiEngine.Fence) {
      assert OccursAt(raw, AiEngine.Fence, 0);
      raw := SecondField(raw, AiEngine.Fence);
      if StartsWith(raw, "json") {
        raw := raw[4..];
      }
    }
    match parse(raw)
    case Array(items) => tags := items;
    case _ => tags := [];
  }

  /** A `json` code block is cut to its body with the surrounding newlines still on. */
  lemma UnfenceRoundTrip(body: string)
    requires forall q: nat :: q < |body| ==> !OccursAt(body, AiEngine.Fence, q)
    ensures Unfence(AiEngine.FencedBlock("json", body)) == ['\n'] + body + ['\n']
  {
    AiEngine.JsonTagHasNoBacktick();
    AiEngine.FencedInside("json", body);
    DropPrefixOf("json", ['\n'] + body + ['\n']);
  }

  /** The web app's extraction text is the Streamlit app's, trimmed. */
  lemma WebStripIsTrimmedUnfence(reply: string)
    ensures AiEngine.StripFence(reply) == Trim(Unfence(reply))
  {
    if !StartsWith(Trim(reply), AiEngine.Fence) {
      TrimIdempotent(reply);
    }
  }
}
