/**
 * The logic around the chat model in the web app's engine: the key check, the history
 * normalisation the chat service requires (a transcript must open with a user turn),
 * the prompt texts and the tag extraction with its code-fence stripping. The persona
 * preambles are taken as parameters; the model's replies are opaque inputs.
 */
module AiEngine {
  import opened Wrappers
  import opened Text
  import opened JsValues
  import opened Diary
  import Knowledge

  const ModelName: string := "gemini-2.0-flash"
  const MissingKey: string := "API_KEY_REQUIRED"

  /** A generative model bound to a key. */
  datatype Model = Model(apiKey: string, name: string)

  /** One chat call: the model, the prior transcript and the new message. */
  datatype ChatRequest = ChatRequest(model: Model, history: seq<ChatContent>, message: string)

  /** `getModel`: a falsy key is refused before any model is built. */
  function GetModel(apiKey: Option<string>): (r: Result<Model, string>)
    ensures r.Err? <==> !NonEmpty(apiKey)
    ensures r.Err? ==> r.error == MissingKey
    ensures r.Ok? ==> r.value.apiKey == apiKey.value && r.value.name == ModelName
  {
    if NonEmpty(apiKey) then Ok(Model(apiKey.value, ModelName)) else Err(MissingKey)
  }

  // ---------------------------------------------------------------------------
  // History

  /** `s.slice(-n)`: the last `n` elements, or all of them when there are fewer. */
  function Window<T>(s: seq<T>, n: nat): (w: seq<T>)
    ensures |w| == if |s| <= n then |s| else n
    ensures w == s[|s| - |w|..]
  {
    if |s| <= n then s else s[|s| - n..]
  }

  /** `m.role === 'user' ? 'user' : 'model'`. */
  function RoleOf(t: Turn): string {
    if t.role == "user" then "user" else "model"
  }

  function ToContents(h: seq<Turn>): (cs: seq<ChatContent>)
    ensures |cs| == |h|
    ensures forall i :: 0 <= i < |h| ==> cs[i] == ChatContent(RoleOf(h[i]), h[i].content)
  {
    seq(|h|, i requires 0 <= i < |h| => ChatContent(RoleOf(h[i]), h[i].content))
  }

  /** `findIndex(m => m.role === 'user')`: -1 when there is no user turn. */
  function FirstUser(cs: seq<ChatContent>): (i: int)
    ensures -1 <= i < |cs|
    ensures i >= 0 ==> cs[i].role == "user"
    ensures forall j :: 0 <= j < |cs| && (i == -1 || j < i) ==> cs[j].role != "user"
  {
    if cs == [] then -1
    else if cs[0].role == "user" then 0
    else
      var k := FirstUser(cs[1..]);
      if k == -1 then -1 else k + 1
  }

  /**
   * Leading model turns are dropped up to the first user turn; a transcript without a
   * user turn becomes empty.
   */
  function AnchorAtUser(raw: seq<ChatContent>): (r: seq<ChatContent>)
    ensures |r| <= |raw| && r == raw[|raw| - |r|..]
    ensures r == [] || r[0].role == "user"
    ensures forall j :: 0 <= j < |raw| - |r| ==> raw[j].role != "user"
  {
    var k := FirstUser(raw);
    if k > 0 then raw[k..] else if k == 0 then raw else []
  }

  /**
   * The history sent with a chat call: the last `n` turns with roles mapped to `user`
   * or `model`, minus any leading model turns.
   */
  function NormalizeHistory(history: seq<Turn>, n: nat): (r: seq<ChatContent>)
    ensures |r| <= n && |r| <= |history|
    ensures r == ToContents(history[|history| - |r|..])
    ensures r == [] || r[0].role == "user"
    ensures forall j :: |history| - |Window(history, n)| <= j < |history| - |r| ==>
      history[j].role != "user"
  {
    AnchoredSuffix(history, n);
    AnchoredDropsOnlyModelTurns(history, n);
    AnchorAtUser(ToContents(Window(history, n)))
  }

  /** What anchoring keeps is the tail of the history, mapped. */
  lemma AnchoredSuffix(history: seq<Turn>, n: nat)
    ensures var r := AnchorAtUser(ToContents(Window(history, n)));
      |r| <= |history| && r == ToContents(history[|history| - |r|..])
  {
    var w := Window(history, n);
    var raw := ToContents(w);
    var r := AnchorAtUser(raw);
    var tail := ToContents(history[|history| - |r|..]);
    forall i | 0 <= i < |r| ensures r[i] == tail[i] {
      assert r[i] == raw[|raw| - |r| + i];
      assert w[|w| - |r| + i] == history[|history| - |r| + i];
    }
  }

  /** What anchoring drops are turns whose role is not `user`. */
  lemma AnchoredDropsOnlyModelTurns(history: seq<Turn>, n: nat)
    ensures var r := AnchorAtUser(ToContents(Window(history, n)));
      forall j :: |history| - |Window(history, n)| <= j < |history| - |r| ==> history[j].role != "user"
  {
    var w := Window(history, n);
    var raw := ToContents(w);
    var r := AnchorAtUser(raw);
    var base := |history| - |w|;
    forall j | base <= j < |history| - |r| ensures history[j].role != "user" {
      assert raw[j - base].role != "user";
      assert w[j - base] == history[j];
    }
  }

  /** The normalised history is empty exactly when the window holds no user turn. */
  lemma NormalizedEmptyIffNoUser(history: seq<Turn>, n: nat)
    ensures NormalizeHistory(history, n) == [] <==>
      forall j :: |history| - |Window(history, n)| <= j < |history| ==> history[j].role != "user"
  {
    var w := Window(history, n);
    var r := NormalizeHistory(history, n);
    if r != [] {
      var j := |history| - |r|;
      assert ToContents(history[j..])[0].role == "user";
      assert history[j..][0] == history[j];
    }
  }

  /** A window that opens with a user turn is kept whole. */
  lemma WindowFromUserKept(history: seq<Turn>, n: nat)
    requires Window(history, n) != [] && Window(history, n)[0].role == "user"
    ensures NormalizeHistory(history, n) == ToContents(Window(history, n))
  {
    assert ToContents(Window(history, n))[0].role == "user";
  }

  // ---------------------------------------------------------------------------
  // Journaling prompt

  /** `profileCtx`: empty only without a profile; a missing field reads `?`. */
  function ProfileContext(profile: Option<Object>): (s: string)
    ensures s == "" <==> profile.None?
  {
    match profile
    case None => ""
    case Some(p) =>
      "\nUser profile: Name/life stage: " + FieldOr(p, "nameAndLifeStage", "?") +
      " | Foundational memory: " + FieldOr(p, "foundationalMemory", "?") +
      " | Voice: " + FieldOr(p, "linguisticStyle", "?")
  }

  /** `knowledgeCtx`: the summary block, left out when the summary is empty or the sentinel. */
  function KnowledgeContext(summary: string): (s: string)
    ensures s == "" <==> summary == "" || summary == Knowledge.NoMemories
    ensures s != "" ==> |summary| < |s| && s[|s| - |summary|..] == summary
  {
    if summary != "" && summary != Knowledge.NoMemories then "\nKnowledge graph:\n" + summary else ""
  }

  /** The heading the entry is written under. */
  const JournalHeading := "\n\n---\nJournal entry:\n"

  /** The message of a journaling call: system prompt, profile block, knowledge block, heading, then the entry. */
  function JournalingMessage(persona: string, profile: Option<Object>, summary: string, entry: string): (m: string)
    ensures |persona| <= |m| && m[..|persona|] == persona
    ensures |JournalHeading + entry| <= |m| && m[|m| - |JournalHeading + entry|..] == JournalHeading + entry
    ensures |entry| <= |m| && m[|m| - |entry|..] == entry
    ensures summary != "" && summary != Knowledge.NoMemories ==> |persona| + |JournalHeading + entry| < |m|
    ensures m == persona + ProfileContext(profile) + KnowledgeContext(summary) + JournalHeading + entry
  {
    var profileBlock := ProfileContext(profile);
    var knowledge := KnowledgeContext(summary);
    var blocks := profileBlock + knowledge;
    assert |knowledge| <= |blocks|;
    assert persona + blocks == persona + profileBlock + knowledge;
    Compose(persona, blocks, JournalHeading, entry)
  }

  /** `getJournalingResponse` up to the chat call: refused without a key, 8 turns of history. */
  function JournalingRequest(apiKey: Option<string>, persona: string, entry: string,
                             profile: Option<Object>, summary: string, history: seq<Turn>): (r: Result<ChatRequest, string>)
    ensures r.Err? <==> !NonEmpty(apiKey)
    ensures r.Ok? ==> (r.value.history == NormalizeHistory(history, 8) &&
                       r.value.message == JournalingMessage(persona, profile, summary, entry))
  {
    match GetModel(apiKey)
    case Err(e) => Err(e)
    case Ok(model) => Ok(ChatRequest(model, NormalizeHistory(history, 8), JournalingMessage(persona, profile, summary, entry)))
  }

  // ---------------------------------------------------------------------------
  // Past-self prompt

  /** `[yyyy-mm-dd]: content`, the date being the first ten characters of `createdAt`. */
  function EntryLine(e: Entry): string {
    "[" + Prefix(e.createdAt.iso, 10) + "]: " + e.content
  }

  /** One line per entry among the last `n`, oldest first. */
  function EntryLines(entries: seq<Entry>, n: nat): (ls: seq<string>)
    ensures |ls| == |Window(entries, n)| && |ls| <= n
    ensures forall i :: 0 <= i < |ls| ==> ls[i] == EntryLine(Window(entries, n)[i])
  {
    var w := Window(entries, n);
    seq(|w|, i requires 0 <= i < |w| => EntryLine(w[i]))
  }

  /** The lines are those of the latest entries, oldest first: line `i` is entry `|entries| - |ls| + i`. */
  lemma EntryLinesAreLatest(entries: seq<Entry>, n: nat, i: nat)
    requires i < |EntryLines(entries, n)|
    ensures var ls := EntryLines(entries, n);
      |ls| <= |entries| && ls[i] == EntryLine(entries[|entries| - |ls| + i])
  {
    var w := Window(entries, n);
    assert w[i] == entries[|entries| - |w| + i];
  }

  /** `profileStr`: each field, `?` when missing or when there is no profile at all. */
  function ProfileBlock(profile: Option<Object>): string {
    var p := if profile.Some? then profile.value else map[];
    "Name/Life stage: " + FieldOr(p, "nameAndLifeStage", "?") +
    "\nFoundational memory: " + FieldOr(p, "foundationalMemory", "?") +
    "\nVoice: " + FieldOr(p, "linguisticStyle", "?")
  }

  /**
   * A profile field that is missing or falsy is rendered exactly as if it held the text
   * `?`, in both the journaling context and the past-self block.
   */
  lemma MissingFieldAsQuestionMark(p: Object, k: string)
    requires k !in p || !Truthy(p[k])
    ensures ProfileContext(Some(p)) == ProfileContext(Some(p[k := Str("?")]))
    ensures ProfileBlock(Some(p)) == ProfileBlock(Some(p[k := Str("?")]))
  {
    FieldAsQuestionMark(p, k, "nameAndLifeStage");
    FieldAsQuestionMark(p, k, "foundationalMemory");
    FieldAsQuestionMark(p, k, "linguisticStyle");
  }

  lemma FieldAsQuestionMark(p: Object, k: string, f: string)
    requires k !in p || !Truthy(p[k])
    ensures FieldOr(p, f, "?") == FieldOr(p[k := Str("?")], f, "?")
  {
    if f == k {
      assert FieldOr(p[k := Str("?")], f, "?") == "?";
    }
  }

  /** Without a profile, the past-self block is the one of an empty profile object. */
  lemma NoProfileBlockLikeEmpty()
    ensures ProfileBlock(None) == ProfileBlock(Some(map[]))
  {
  }

  function PastSelfMessage(persona: string, message: string, profile: Option<Object>,
                           summary: string, recentEntries: seq<Entry>): string {
    persona + "\n\nProfile:\n" + ProfileBlock(profile) + "\n\nKnowledge graph:\n" + summary +
    "\n\nJournal entries:\n" + Join(EntryLines(recentEntries, 15), "\n\n") +
    "\n\n---\nUser says: " + message
  }

  /** `getPastSelfResponse` up to the chat call: the last 15 entries, 8 turns of history. */
  function PastSelfRequest(apiKey: Option<string>, persona: string, message: string, profile: Option<Object>,
                           summary: string, recentEntries: seq<Entry>, history: seq<Turn>): (r: Result<ChatRequest, string>)
    ensures r.Err? <==> !NonEmpty(apiKey)
    ensures r.Ok? ==> (r.value.history == NormalizeHistory(history, 8) &&
                       r.value.message == PastSelfMessage(persona, message, profile, summary, recentEntries))
  {
    match GetModel(apiKey)
    case Err(e) => Err(e)
    case Ok(model) => Ok(ChatRequest(model, NormalizeHistory(history, 8),
                                     PastSelfMessage(persona, message, profile, summary, recentEntries)))
  }

  // ---------------------------------------------------------------------------
  // Tag extraction

  const Fence: string := "```"

  /**
   * The reply trimmed and, when it opens with a fence, cut to the text between the
   * first two fences, a leading `json` removed, trimmed again.
   */
  function StripFence(reply: string): string {
    var raw := Trim(reply);
    if StartsWith(raw, Fence) then
      assert OccursAt(raw, Fence, 0);
      Trim(DropPrefix(SecondField(raw, Fence), "json"))
    else raw
  }

  /**
   * `extractTags`: the parsed array, and `[]` on a missing key, a failed call, an
   * unparseable reply or a reply that is not an array.
   */
  function ExtractTags(apiKey: Option<string>, reply: Result<string, string>, parse: string -> Parsed<Tag>): (tags: seq<Tag>)
    ensures !NonEmpty(apiKey) || reply.Err? ==> tags == []
    ensures NonEmpty(apiKey) && reply.Ok? ==>
      tags == (if parse(StripFence(reply.value)).Array? then parse(StripFence(reply.value)).items else [])
  {
    match GetModel(apiKey)
    case Err(_) => []
    case Ok(_) =>
      match reply
      case Err(_) => []
      case Ok(text) =>
        match parse(StripFence(text))
        case Array(items) => items
        case _ => []
  }

  /** A text that contains no fence and does not start or end with white space. */
  predicate FencedBody(body: string) {
    body != [] && !IsSpace(body[0]) && !IsSpace(body[|body| - 1]) &&
    forall q: nat :: q < |body| ==> !OccursAt(body, Fence, q)
  }

  /** A window with a non-backtick character is not a fence. */
  lemma NotFenceAt(s: string, q: nat, m: nat)
    requires q + 3 <= |s| && m < 3 && s[q + m] != '`'
    ensures !OccursAt(s, Fence, q)
  {
    assert s[q..q + 3][m] == s[q + m];
  }

  /**
   * In `pre + body + "\n```"` the first fence is the closing one when neither `pre`
   * nor `body` holds a fence: every earlier window covers a character of `pre`, lies
   * inside `body`, or covers the newline.
   */
  lemma ClosingFence(pre: string, body: string)
    requires forall i :: 0 <= i < |pre| ==> pre[i] != '`'
    requires forall q: nat :: q < |body| ==> !OccursAt(body, Fence, q)
    ensures Find(pre + body + ['\n'] + Fence, Fence) == Some(|pre| + |body| + 1)
  {
    var rest := pre + body + ['\n'] + Fence;
    var k := |pre| + |body| + 1;
    assert rest[k..k + 3] == Fence;
    forall q: nat | q < k ensures !OccursAt(rest, Fence, q) {
      NoEarlierFence(pre, body, q);
    }
    FindAt(rest, Fence, k);
  }

  /** No window of `pre + body + "\n```"` that starts before the newline is a fence. */
  lemma NoEarlierFence(pre: string, body: string, q: nat)
    requires forall i :: 0 <= i < |pre| ==> pre[i] != '`'
    requires forall q: nat :: q < |body| ==> !OccursAt(body, Fence, q)
    requires q < |pre| + |body| + 1
    ensures !OccursAt(pre + body + ['\n'] + Fence, Fence, q)
  {
    var rest := pre + body + ['\n'] + Fence;
    if q < |pre| {
      assert rest[q] == pre[q];
      NotFenceAt(rest, q, 0);
    } else if q + 3 <= |pre| + |body| {
      assert rest[q..q + 3] == body[q - |pre|..q - |pre| + 3];
      assert !OccursAt(body, Fence, q - |pre|);
    } else {
      assert rest[|pre| + |body|] == '\n';
      NotFenceAt(rest, q, |pre| + |body| - q);
    }
  }

  /** `s.split(sep)[1]` on text that opens with `sep`: up to the next `sep`. */
  lemma SecondFieldAfterOpening(rest: string, j: nat)
    requires Find(rest, Fence) == Some(j)
    ensures Find(Fence + rest, Fence) == Some(0)
    ensures SecondField(Fence + rest, Fence) == rest[..j]
  {
    var s := Fence + rest;
    assert s[..3] == Fence;
    FindAt(s, Fence, 0);
    assert s[3..] == rest;
  }

  /** What follows the opening fence of a block tagged `tag` around `body`. */
  function FencedRest(tag: string, body: string): string {
    tag + (['\n'] + body + ['\n']) + Fence
  }

  /** `body` inside a code block whose opening fence carries the language tag `tag`. */
  function FencedBlock(tag: string, body: string): string {
    Fence + FencedRest(tag, body)
  }

  /** Text that opens with a fence and ends with a backtick is already trimmed. */
  lemma OpenedBlockTrimmed(rest: string)
    requires rest != [] && rest[|rest| - 1] == '`'
    ensures Trim(Fence + rest) == Fence + rest
    ensures StartsWith(Fence + rest, Fence)
  {
    var block := Fence + rest;
    assert |block| == 3 + |rest| && block[..3] == Fence;
    assert Trim(block) == block by {
      assert block[0] == '`' && block[|block| - 1] == '`';
      TrimOfTrimmed(block);
    }
  }

  /** After the opening fence, the first fence is the closing one. */
  lemma FencedRestClosing(tag: string, body: string)
    requires forall i :: 0 <= i < |tag| ==> tag[i] != '`'
    requires forall q: nat :: q < |body| ==> !OccursAt(body, Fence, q)
    ensures Find(FencedRest(tag, body), Fence) == Some(|tag| + |body| + 2)
  {
    var pre := tag + ['\n'];
    assert forall i :: 0 <= i < |pre| ==> pre[i] != '`' by {
      assert forall i :: 0 <= i < |tag| ==> pre[i] == tag[i];
    }
    assert FencedRest(tag, body) == pre + body + ['\n'] + Fence;
    ClosingFence(pre, body);
  }

  /** The second field of a fenced block is the tag and the body between two newlines. */
  lemma FencedInside(tag: string, body: string)
    requires forall i :: 0 <= i < |tag| ==> tag[i] != '`'
    requires forall q: nat :: q < |body| ==> !OccursAt(body, Fence, q)
    ensures Trim(FencedBlock(tag, body)) == FencedBlock(tag, body)
    ensures StartsWith(FencedBlock(tag, body), Fence)
    ensures SecondField(FencedBlock(tag, body), Fence) == tag + (['\n'] + body + ['\n'])
  {
    var rest := FencedRest(tag, body);
    var j := |tag| + |body| + 2;
    assert SecondField(Fence + rest, Fence) == rest[..j] by {
      FencedRestClosing(tag, body);
      SecondFieldAfterOpening(rest, j);
    }
    assert rest[..j] == tag + (['\n'] + body + ['\n']);
    OpenedBlockTrimmed(rest);
  }

  lemma JsonTagHasNoBacktick()
    ensures forall i :: 0 <= i < |"json"| ==> "json"[i] != '`'
  {
  }

  /** A reply fenced as a `json` code block is unwrapped to exactly its body. */
  lemma StripFenceRoundTrip(body: string)
    requires FencedBody(body)
    ensures StripFence(FencedBlock("json", body)) == body
  {
    var tail := ['\n'] + body + ['\n'];
    JsonTagHasNoBacktick();
    FencedInside("json", body);
    DropPrefixOf("json", tail);
    TrimAround('\n', body, '\n');
  }

  /** A reply without a fence is only trimmed. */
  lemma StripFenceUnfenced(reply: string)
    requires !StartsWith(Trim(reply), Fence)
    ensures StripFence(reply) == Trim(reply)
  {
  }
}
