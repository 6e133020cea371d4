/**
 * The Streamlit journaling app as a session-state machine: a consent screen and three
 * onboarding questions, then journaling with a margin-note reply and silent tag
 * extraction, and a past-self chat that is entered only once entries exist. Each button
 * press is a method; model replies arrive as outcomes (`Err` is the raised exception).
 */
module StreamlitApp {
  import opened Wrappers
  import opened Text
  import opened Diary
  import AiEngine
  import AiEnginePy
  import MemoriesDb

  datatype Phase = OnboardingPhase | Journaling | PastSelfPhase

  /** The margin note written when the model call raises. */
  function FailureNote(error: string): string {
    "*(Something went wrong: " + error + ")*"
  }

  /** The reply text stored and shown: the model's text, or the failure note. */
  function ReplyText(reply: Result<string, string>): (r: string)
    ensures reply.Ok? ==> r == reply.value
    ensures reply.Err? ==> r == FailureNote(reply.error)
  {
    match reply
    case Ok(text) => text
    case Err(e) => FailureNote(e)
  }

  /** `history_for_ai`: every role other than `user` is sent as `model`. */
  function ForModel(h: seq<Turn>): (r: seq<Turn>)
    ensures |r| == |h|
    ensures forall i :: 0 <= i < |h| ==> r[i].content == h[i].content
    ensures forall i :: 0 <= i < |h| ==> (r[i].role == "user" <==> h[i].role == "user")
    ensures forall i :: 0 <= i < |h| ==> r[i].role == "user" || r[i].role == "model"
  {
    seq(|h|, i requires 0 <= i < |h| => Turn(if h[i].role == "user" then "user" else "model", h[i].content))
  }

  /** Mapping the roles a second time changes nothing. */
  lemma ForModelIdempotent(h: seq<Turn>)
    ensures ForModel(ForModel(h)) == ForModel(h)
  {
    var once := ForModel(h);
    forall i | 0 <= i < |h| ensures ForModel(once)[i] == once[i] {
      assert once[i].role == "user" || once[i].role == "model";
    }
  }

  /** The history sent with a request only ever carries the roles `user` and `model`. */
  lemma SentRolesAreChatRoles(h: seq<Turn>)
    ensures var sent := AiEnginePy.PassThrough(AiEngine.Window(ForModel(h), 10));
      forall i :: 0 <= i < |sent| ==> sent[i].role == "user" || sent[i].role == "model"
  {
    var m := ForModel(h);
    var w := AiEngine.Window(m, 10);
    forall i | 0 <= i < |w| ensures w[i].role == "user" || w[i].role == "model" {
      assert w[i] == m[|m| - |w| + i];
    }
  }

  const NoEntriesYet: string := "no entries yet"

  /** The banner's date range: first and last `created_at[:10]`, or a fixed text. */
  function BannerRange(entries: seq<MemoriesDb.EntryRow>): string {
    if entries == [] then NoEntriesYet
    else Prefix(entries[0].createdAt, 10) + " – " + Prefix(entries[|entries| - 1].createdAt, 10)
  }

  /** The fixed text appears exactly when there are no entries, whatever the dates hold. */
  lemma BannerRangeIffEntries(entries: seq<MemoriesDb.EntryRow>)
    ensures BannerRange(entries) == NoEntriesYet <==> entries == []
  {
    if entries != [] {
      var first := Prefix(entries[0].createdAt, 10);
      var r := BannerRange(entries);
      assert r[|first| + 1] == '–';
      assert forall k :: 0 <= k < |NoEntriesYet| ==> NoEntriesYet[k] != '–';
    }
  }

  /** The database counts onboarding as complete. */
  predicate ProfileComplete(profile: map<string, MemoriesDb.ProfileRow>) {
    MemoriesDb.OnboardingKey in profile && profile[MemoriesDb.OnboardingKey].value == "true"
  }

  class Session {
    const db: MemoriesDb.Database
    var phase: Phase
    var onboardingStep: nat
    var chatHistory: seq<Turn>
    var pastSelfHistory: seq<Turn>
    var consentGiven: bool

    /** The defaults of a fresh session: a complete profile skips consent and onboarding. */
    constructor (database: MemoriesDb.Database)
      ensures db == database
      ensures phase == (if ProfileComplete(database.profile) then Journaling else OnboardingPhase)
      ensures consentGiven == ProfileComplete(database.profile)
      ensures onboardingStep == 0 && chatHistory == [] && pastSelfHistory == []
    {
      db := database;
      var complete := database.ProfileIsComplete();
      phase := if complete then Journaling else OnboardingPhase;
      onboardingStep := 0;
      chatHistory := [];
      pastSelfHistory := [];
      consentGiven := complete;
    }

    /** Ticking the consent box records consent in the session and in the profile. */
    method GiveConsent(now: string)
      requires phase == OnboardingPhase && !consentGiven
      modifies this, db
      ensures consentGiven && db.profile == old(db.profile)["consent" := MemoriesDb.ProfileRow("true", now)]
      ensures db.entries == old(db.entries) && db.tags == old(db.tags) && db.lastEntryId == old(db.lastEntryId)
      ensures phase == old(phase) && onboardingStep == old(onboardingStep)
      ensures chatHistory == old(chatHistory) && pastSelfHistory == old(pastSelfHistory)
    {
      consentGiven := true;
      db.SetProfile("consent", "true", now);
    }

    /** Continue on an onboarding question: a non-blank answer is stored stripped and the step advances. */
    method AnswerQuestion(answer: string, now: string)
      requires phase == OnboardingPhase && consentGiven && onboardingStep < |AiEnginePy.OnboardingQuestions|
      modifies this, db
      ensures IsBlank(answer) ==> onboardingStep == old(onboardingStep) && db.profile == old(db.profile)
      ensures !IsBlank(answer) ==>
        onboardingStep == old(onboardingStep) + 1 &&
        db.profile == old(db.profile)[AiEnginePy.OnboardingQuestions[old(onboardingStep)].storeKey :=
                                        MemoriesDb.ProfileRow(Trim(answer), now)]
      ensures db.entries == old(db.entries) && db.tags == old(db.tags) && db.lastEntryId == old(db.lastEntryId)
      ensures phase == old(phase) && consentGiven == old(consentGiven)
      ensures chatHistory == old(chatHistory) && pastSelfHistory == old(pastSelfHistory)
    {
      TrimEmptyIffBlank(answer);
      if Trim(answer) != "" {
        var key := AiEnginePy.OnboardingQuestions[onboardingStep].storeKey;
        db.SetProfile(key, Trim(answer), now);
        onboardingStep := onboardingStep + 1;
      }
    }

    /** The onboarding screen once every question is answered: mark complete, go journaling. */
    method FinishOnboarding(now: string)
      requires phase == OnboardingPhase && consentGiven && onboardingStep >= |AiEnginePy.OnboardingQuestions|
      modifies this, db
      ensures phase == Journaling && chatHistory == []
      ensures db.profile == old(db.profile)[MemoriesDb.OnboardingKey := MemoriesDb.ProfileRow("true", now)]
      ensures ProfileComplete(db.profile)
      ensures db.entries == old(db.entries) && db.tags == old(db.tags) && db.lastEntryId == old(db.lastEntryId)
      ensures onboardingStep == old(onboardingStep) && consentGiven == old(consentGiven)
      ensures pastSelfHistory == old(pastSelfHistory)
    {
      db.SetProfile(MemoriesDb.OnboardingKey, "true", now);
      phase := Journaling;
      chatHistory := [];
    }

    /** The past-self button: refused with a warning while no entry exists; else a fresh chat opens. */
    method ActivatePastSelf() returns (warned: bool)
      requires phase == Journaling
      modifies this
      ensures warned <==> db.entries == []
      ensures warned ==> phase == old(phase) && pastSelfHistory == old(pastSelfHistory)
      ensures !warned ==> phase == PastSelfPhase && pastSelfHistory == []
      ensures onboardingStep == old(onboardingStep) && chatHistory == old(chatHistory) && consentGiven == old(consentGiven)
    {
      var count := db.GetEntryCount();
      warned := count == 0;
      if !warned {
        phase := PastSelfPhase;
        pastSelfHistory := [];
      }
    }

    /** "Return to Journal". */
    method ReturnToJournal()
      requires phase == PastSelfPhase
      modifies this
      ensures phase == Journaling
      ensures onboardingStep == old(onboardingStep) && consentGiven == old(consentGiven)
      ensures chatHistory == old(chatHistory) && pastSelfHistory == old(pastSelfHistory)
    {
      phase := Journaling;
    }

    /**
     * "Add to Diary". Without a key or with a blank entry nothing happens. Otherwise the
     * request is built from the stored profile, the knowledge summary and the chat so far;
     * the entry is saved with the reply or the failure note; the extracted tags are saved
     * when there are any; and the chat gains the entry and the reply.
     */
    method SubmitEntry(apiKey: string, persona: string, entry: string, reply: Result<string, string>,
                       tagReply: Result<string, string>, parse: string -> Parsed<MemoriesDb.PyTag>, now: string)
      returns (sent: Option<AiEngine.ChatRequest>)
      requires phase == Journaling
      modifies this, db
      ensures apiKey == "" || IsBlank(entry) ==>
        sent.None? && chatHistory == old(chatHistory) &&
        db.entries == old(db.entries) && db.tags == old(db.tags) && db.lastEntryId == old(db.lastEntryId)
      ensures apiKey != "" && !IsBlank(entry) ==>
        sent.Some? &&
        sent.value.model == AiEngine.Model(apiKey, AiEngine.ModelName) &&
        sent.value.history == AiEnginePy.PassThrough(AiEngine.Window(ForModel(old(chatHistory)), 10)) &&
        sent.value.message == AiEnginePy.JournalingMessage(persona, old(db.ProfileView()),
          MemoriesDb.PySummary(MemoriesDb.TagsOfRows(old(db.OrderedTags()))), entry) &&
        db.lastEntryId == old(db.lastEntryId) + 1 &&
        db.entries == old(db.entries) + [MemoriesDb.EntryRow(db.lastEntryId, entry, ReplyText(reply), now)] &&
        db.tags == old(db.tags) + MemoriesDb.TagRows(db.lastEntryId, AiEnginePy.Extracted(tagReply, parse), now) &&
        chatHistory == old(chatHistory) + [Turn("user", entry), Turn("assistant", ReplyText(reply))]
      ensures phase == old(phase) && db.profile == old(db.profile) && pastSelfHistory == old(pastSelfHistory)
      ensures onboardingStep == old(onboardingStep) && consentGiven == old(consentGiven)
    {
      TrimEmptyIffBlank(entry);
      if apiKey == "" || Trim(entry) == "" {
        return None;
      }
      var request := JournalingRequest(apiKey, persona, entry);
      sent := Some(request);
      var response := ReplyText(reply);
      SaveExchange(entry, response, tagReply, parse, now);
    }

    /**
     * "Send" in past-self mode. The banner range is computed first; without a key or
     * with a blank message nothing else happens; otherwise the request quotes the stored
     * profile, the summary and the ordered entries, and the chat gains the message and the reply.
     */
    method SubmitPastSelf(apiKey: string, persona: string, message: string, reply: Result<string, string>)
      returns (banner: string, sent: Option<AiEngine.ChatRequest>)
      requires phase == PastSelfPhase
      modifies this
      ensures banner == BannerRange(old(db.OrderedEntries()))
      ensures apiKey == "" || IsBlank(message) ==> sent.None? && pastSelfHistory == old(pastSelfHistory)
      ensures apiKey != "" && !IsBlank(message) ==>
        sent.Some? &&
        sent.value.model == AiEngine.Model(apiKey, AiEngine.ModelName) &&
        sent.value.history == AiEnginePy.PassThrough(AiEngine.Window(ForModel(old(pastSelfHistory)), 10)) &&
        sent.value.message == AiEnginePy.PastSelfMessage(persona, message, old(db.ProfileView()),
          MemoriesDb.PySummary(MemoriesDb.TagsOfRows(old(db.OrderedTags()))), old(db.OrderedEntries())) &&
        pastSelfHistory == old(pastSelfHistory) + [Turn("user", message), Turn("assistant", ReplyText(reply))]
      ensures phase == old(phase) && chatHistory == old(chatHistory)
      ensures onboardingStep == old(onboardingStep) && consentGiven == old(consentGiven)
    {
      var request;
      banner, request := PastSelfView(apiKey, persona, message);
      TrimEmptyIffBlank(message);
      if apiKey == "" || Trim(message) == "" {
        return banner, None;
      }
      sent := Some(request);
      AppendPastSelf(message, ReplyText(reply));
    }

    /** The past-self chat gains the message and the reply. */
    method AppendPastSelf(message: string, response: string)
      modifies this
      ensures pastSelfHistory == old(pastSelfHistory) + [Turn("user", message), Turn("assistant", response)]
      ensures phase == old(phase) && chatHistory == old(chatHistory)
      ensures onboardingStep == old(onboardingStep) && consentGiven == old(consentGiven)
    {
      pastSelfHistory := pastSelfHistory + [Turn("user", message), Turn("assistant", response)];
    }

    /** What the past-self screen reads from the database: the banner range and the request it would send. */
    method PastSelfView(apiKey: string, persona: string, message: string)
      returns (banner: string, r: AiEngine.ChatRequest)
      ensures banner == BannerRange(db.OrderedEntries())
      ensures r.model == AiEngine.Model(apiKey, AiEngine.ModelName)
      ensures r.history == AiEnginePy.PassThrough(AiEngine.Window(ForModel(pastSelfHistory), 10))
      ensures r.message == AiEnginePy.PastSelfMessage(persona, message, db.ProfileView(),
        MemoriesDb.PySummary(MemoriesDb.TagsOfRows(db.OrderedTags())), db.OrderedEntries())
    {
      var profile := db.GetProfile();
      var allEntries := db.GetAllEntries();
      var summary := db.GetKnowledgeSummary();
      banner := BannerRange(allEntries);
      r := AiEnginePy.PastSelfRequest(apiKey, persona, message, profile, summary, allEntries,
                                      ForModel(pastSelfHistory));
    }

    /** The request for the margin note, built from the stored profile, the summary and the chat. */
    method JournalingRequest(apiKey: string, persona: string, entry: string) returns (r: AiEngine.ChatRequest)
      ensures r.model == AiEngine.Model(apiKey, AiEngine.ModelName)
      ensures r.history == AiEnginePy.PassThrough(AiEngine.Window(ForModel(chatHistory), 10))
      ensures r.message == AiEnginePy.JournalingMessage(persona, db.ProfileView(),
        MemoriesDb.PySummary(MemoriesDb.TagsOfRows(db.OrderedTags())), entry)
    {
      var profile := db.GetProfile();
      var summary := db.GetKnowledgeSummary();
      r := AiEnginePy.JournalingRequest(apiKey, persona, entry, profile, ForModel(chatHistory), summary);
    }

    /** The entry is saved with its reply, the extracted tags when there are any, and the chat grows by both. */
    method SaveExchange(entry: string, response: string, tagReply: Result<string, string>,
                        parse: string -> Parsed<MemoriesDb.PyTag>, now: string)
      modifies this, db
      ensures db.lastEntryId == old(db.lastEntryId) + 1
      ensures db.entries == old(db.entries) + [MemoriesDb.EntryRow(db.lastEntryId, entry, response, now)]
      ensures db.tags == old(db.tags) + MemoriesDb.TagRows(db.lastEntryId, AiEnginePy.Extracted(tagReply, parse), now)
      ensures chatHistory == old(chatHistory) + [Turn("user", entry), Turn("assistant", response)]
      ensures phase == old(phase) && db.profile == old(db.profile) && pastSelfHistory == old(pastSelfHistory)
      ensures onboardingStep == old(onboardingStep) && consentGiven == old(consentGiven)
    {
      var entryId := db.SaveEntry(entry, response, now);
      var tags := AiEnginePy.ExtractKnowledgeTags(tagReply, parse);
      if |tags| > 0 {
        db.SaveTags(entryId, tags, now);
      }
      chatHistory := chatHistory + [Turn("user", entry), Turn("assistant", response)];
    }
  }
}
