/**
 * The `/api/journal` route: validates the entry and the key, asks the model for a
 * reply and for tags at the same time, and stores the entry only when both have
 * answered. The reply and the tag call are opaque outcomes; the tag call cannot fail
 * from the handler's point of view, because `extractTags` turns every failure into `[]`.
 */
module JournalApi {
  import opened Wrappers
  import opened Text
  import opened JsValues
  import opened Diary
  import Knowledge
  import AiEngine
  import ApiKey
  import MemoryStore

  /** The destructured body: `content` as sent (absent when missing), `history` defaulting to `[]`. */
  datatype JournalBody = JournalBody(content: Option<string>, history: seq<Turn>)

  datatype Request = Request(verb: string, body: JournalBody, keys: ApiKey.KeySources)

  /** Why a request is refused with 400. */
  datatype Refusal = MissingContent | MissingApiKey

  /** The HTTP answer: the stored entry, the reply and the tags on 200. */
  datatype Response = Response(status: int, entry: Option<Entry>, aiResponse: Option<string>,
                               tags: seq<Tag>, refusal: Option<Refusal>, failure: Option<string>)

  /** The validation of the handler: 405, then blank content, then a blank key. */
  function Validate(req: Request): (r: Result<string, Option<Refusal>>)
    ensures r.Err? && r.error.None? <==> req.verb != "POST"
    ensures r.Err? && r.error == Some(MissingContent) <==>
      req.verb == "POST" && (req.body.content.None? || IsBlank(req.body.content.value))
    ensures r.Err? && r.error == Some(MissingApiKey) <==>
      req.verb == "POST" && req.body.content.Some? && !IsBlank(req.body.content.value) &&
      IsBlank(ApiKey.ResolveKey(req.keys))
    ensures r.Ok? ==> r.value == ApiKey.ResolveKey(req.keys) && !IsBlank(r.value)
  {
    if req.verb != "POST" then Err(None)
    else
      var key := ApiKey.ResolveKey(req.keys);
      TrimEmptyIffBlank(if req.body.content.Some? then req.body.content.value else "");
      TrimEmptyIffBlank(key);
      if req.body.content.None? || Trim(req.body.content.value) == "" then Err(Some(MissingContent))
      else if Trim(key) == "" then Err(Some(MissingApiKey))
      else Ok(key)
  }

  /** The journaling call the handler makes with a validated key and the stored data. */
  function ReplyRequest(key: string, persona: string, content: string, history: seq<Turn>,
                        profile: Object, entries: seq<Entry>): (c: AiEngine.ChatRequest)
    requires key != ""
    ensures c.model.apiKey == key && c.history == AiEngine.NormalizeHistory(history, 8)
    ensures c.message == AiEngine.JournalingMessage(persona, Some(profile), Knowledge.EntriesSummary(entries), content)
  {
    AiEngine.JournalingRequest(Some(key), persona, content, Some(profile),
                               Knowledge.EntriesSummary(entries), history).value
  }

  /**
   * The handler. `reply` is the outcome of the journaling call, `tagReply` that of the
   * extraction call and `parse` the JSON parser; `id` and `now` are the clock readings
   * `addEntry` takes. The entry is written only when the reply arrived.
   */
  method HandleJournal(store: MemoryStore.Store, req: Request, persona: string,
                       reply: Result<string, string>, tagReply: Result<string, string>,
                       parse: string -> Parsed<Tag>, id: int, now: Timestamp)
    returns (resp: Response, sent: Option<AiEngine.ChatRequest>)
    modifies store
    ensures resp.status == 405 <==> req.verb != "POST"
    ensures resp.status == 400 <==> Validate(req).Err? && req.verb == "POST"
    ensures resp.status == 400 ==> resp.refusal == Validate(req).error
    ensures Validate(req).Ok? ==>
      sent == Some(ReplyRequest(Validate(req).value, persona, req.body.content.value, req.body.history,
                                old(store.Profile()), old(store.Entries())))
    ensures Validate(req).Err? ==> sent.None?
    ensures resp.status == 200 <==> Validate(req).Ok? && reply.Ok?
    ensures resp.status == 200 ==> (
      var tags := AiEngine.ExtractTags(Some(Validate(req).value), tagReply, parse);
      var e := Entry(id, req.body.content.value, reply.value, Some(tags), now);
      resp.entry == Some(e) && resp.aiResponse == Some(reply.value) && resp.tags == tags &&
      store.entriesFile == MemoryStore.Parsed(old(store.Entries()) + [e]))
    ensures resp.status == 500 <==> Validate(req).Ok? && reply.Err?
    ensures resp.status == 500 ==> resp.failure == Some("Error de la IA: " + reply.error)
    ensures resp.status != 200 ==> store.entriesFile == old(store.entriesFile)
    ensures store.profileFile == old(store.profileFile)
  {
    sent := None;
    var checked := Validate(req);
    if checked.Err? {
      var status := if checked.error.None? then 405 else 400;
      resp := Response(status, None, None, [], checked.error, None);
      return;
    }
    var key := checked.value;
    var content := req.body.content.value;
    var profile := store.GetProfile();
    var entries := store.GetEntries();
    sent := Some(ReplyRequest(key, persona, content, req.body.history, profile, entries));
    var tags := AiEngine.ExtractTags(Some(key), tagReply, parse);
    if reply.Err? {
      resp := Response(500, None, None, [], None, Some("Error de la IA: " + reply.error));
      return;
    }
    var e := store.AddEntry(content, reply.value, tags, id, now);
    resp := Response(200, Some(e), Some(reply.value), tags, None, None);
  }

  /** A request with blank content is refused even when no key is configured either. */
  lemma ContentCheckedBeforeKey(req: Request)
    requires req.verb == "POST" && req.body.content.Some? && IsBlank(req.body.content.value)
    ensures Validate(req) == Err(Some(MissingContent))
  {
  }

  /** A key made of white space only is refused although it is non-empty. */
  lemma BlankKeyRefused(req: Request)
    requires req.verb == "POST" && req.body.content.Some? && !IsBlank(req.body.content.value)
    requires ApiKey.ResolveKey(req.keys) == " "
    ensures Validate(req) == Err(Some(MissingApiKey))
  {
  }
}
