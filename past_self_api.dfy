/**
 * The `/api/past-self` route: validates the request, picks the memories the prompt
 * quotes (an era of the journal, or all of it; the last three entries in the default
 * persona), windows the transcript to six turns and sends one chat message. The data
 * directory is read as the entry list it holds; the chat reply is an opaque outcome.
 */
module PastSelfApi {
  import opened Wrappers
  import opened Text
  import opened JsValues
  import opened Diary
  import Knowledge
  import EraFilter
  import AiEngine
  import ApiKey

  /** The destructured request body, with the handler's defaults already applied. */
  datatype PastSelfBody = PastSelfBody(
    message: Value,
    history: seq<Turn>,
    pastSelfMode: Value,
    eraYearStart: Option<int>,
    eraYearEnd: Option<int>,
    eraLabel: Option<string>)

  datatype Request = Request(verb: string, body: PastSelfBody, keys: ApiKey.KeySources)

  /** Why a request is refused with 400. */
  datatype Refusal = MissingApiKey | EmptyMessage

  /**
   * The system prompt, by its variable parts: in past-self mode the optional era notice,
   * the quoted memories and the life summary; otherwise the recent entries and the
   * general context.
   */
  datatype SystemPrompt =
    | PastSelfPrompt(eraNotice: Option<string>, memories: string, summary: string)
    | RoccoPrompt(recent: string, summary: string)

  /** The chat call the handler makes. */
  datatype Call = Call(apiKey: string, model: string, history: seq<ChatContent>,
                       system: SystemPrompt, message: string)

  /** What the handler decides before the chat call. */
  datatype Plan = MethodNotAllowed | BadRequest(refusal: Refusal) | Send(call: Call)

  /** The HTTP answer. */
  datatype Response = Response(status: int, response: Option<string>, error: Option<Refusal>, failure: Option<string>)

  /** The memory lines: `[date]: content`, separated by blank lines. */
  function MemoryText(entries: seq<Entry>): string {
    Join(AiEngine.EntryLines(entries, |entries|), "\n\n")
  }

  /** The entries quoted in past-self mode: the era when a bound is set, else all. */
  function PastSelfEntries(entries: seq<Entry>, start: Option<int>, end: Option<int>): (r: seq<Entry>)
    ensures !EraFilter.BoundSet(start) && !EraFilter.BoundSet(end) ==> r == entries
    ensures forall e :: e in r <==> e in entries && EraFilter.InEra(e, start, end)
  {
    if EraFilter.BoundSet(start) || EraFilter.BoundSet(end) then
      EraFilter.EntriesByEra(entries, start, end)
    else
      EraFilter.ShortcutAgrees(entries, start, end);
      entries
  }

  function Prompt(body: PastSelfBody, entries: seq<Entry>): SystemPrompt {
    var summary := Knowledge.EntriesSummary(entries);
    if Truthy(body.pastSelfMode) then
      PastSelfPrompt(if NonEmpty(body.eraLabel) then body.eraLabel else None,
                     MemoryText(PastSelfEntries(entries, body.eraYearStart, body.eraYearEnd)),
                     summary)
    else
      RoccoPrompt(MemoryText(AiEngine.Window(entries, 3)), summary)
  }

  /** `SYSTEM: <prompt>\n\nUSER: <message>` around the rendered system prompt. */
  function Framed(system: string, message: Value): (m: string)
    ensures |m| >= |Display(message)| && m[|m| - |Display(message)|..] == Display(message)
  {
    "SYSTEM: " + system + "\n\nUSER: " + Display(message)
  }

  /**
   * The handler up to the chat call: 405 for anything but POST, then 400 for a missing
   * key, then 400 for a falsy message; otherwise the call.
   */
  function PlanRequest(req: Request, entries: seq<Entry>, render: SystemPrompt -> string): (p: Plan)
    ensures p.MethodNotAllowed? <==> req.verb != "POST"
    ensures p.BadRequest? && p.refusal == MissingApiKey <==>
      req.verb == "POST" && ApiKey.ResolveKey(req.keys) == ""
    ensures p.BadRequest? && p.refusal == EmptyMessage <==>
      req.verb == "POST" && ApiKey.ResolveKey(req.keys) != "" && !Truthy(req.body.message)
    ensures p.Send? ==> (
      p.call.apiKey == ApiKey.ResolveKey(req.keys) && p.call.apiKey != "" &&
      p.call.model == AiEngine.ModelName &&
      p.call.history == AiEngine.NormalizeHistory(req.body.history, 6) &&
      p.call.system == Prompt(req.body, entries) &&
      p.call.message == Framed(render(p.call.system), req.body.message))
  {
    if req.verb != "POST" then MethodNotAllowed
    else
      var key := ApiKey.ResolveKey(req.keys);
      if key == "" then BadRequest(MissingApiKey)
      else if !Truthy(req.body.message) then BadRequest(EmptyMessage)
      else
        var system := Prompt(req.body, entries);
        Send(Call(key, AiEngine.ModelName, AiEngine.NormalizeHistory(req.body.history, 6),
                  system, Framed(render(system), req.body.message)))
  }

  /** The answer: the plan's status, or 200 with the reply / 500 with the failure. */
  function Respond(p: Plan, reply: Result<string, string>): (r: Response)
    ensures p.MethodNotAllowed? ==> r == Response(405, None, None, None)
    ensures p.BadRequest? ==> r == Response(400, None, Some(p.refusal), None)
    ensures p.Send? && reply.Ok? ==> r == Response(200, Some(reply.value), None, None)
    ensures p.Send? && reply.Err? ==> r.status == 500 && r.failure == Some("Error de la IA: " + reply.error)
  {
    match p
    case MethodNotAllowed => Response(405, None, None, None)
    case BadRequest(why) => Response(400, None, Some(why), None)
    case Send(_) =>
      match reply
      case Ok(text) => Response(200, Some(text), None, None)
      case Err(msg) => Response(500, None, None, Some("Error de la IA: " + msg))
  }

  /** A missing key is reported even when the message is empty too. */
  lemma KeyCheckedBeforeMessage(req: Request, entries: seq<Entry>, render: SystemPrompt -> string)
    requires req.verb == "POST" && ApiKey.ResolveKey(req.keys) == "" && !Truthy(req.body.message)
    ensures PlanRequest(req, entries, render) == BadRequest(MissingApiKey)
  {
  }

  /**
   * In past-self mode with an era bound set, every quoted memory lies in the era; with
   * neither bound set, every entry is quoted.
   */
  lemma EraSelection(body: PastSelfBody, entries: seq<Entry>)
    requires Truthy(body.pastSelfMode)
    ensures var quoted := PastSelfEntries(entries, body.eraYearStart, body.eraYearEnd);
      Prompt(body, entries).PastSelfPrompt? &&
      Prompt(body, entries).memories == MemoryText(quoted) &&
      (EraFilter.BoundSet(body.eraYearStart) || EraFilter.BoundSet(body.eraYearEnd) ==>
         quoted == EraFilter.Filter(entries, body.eraYearStart, body.eraYearEnd)) &&
      (!EraFilter.BoundSet(body.eraYearStart) && !EraFilter.BoundSet(body.eraYearEnd) ==>
         quoted == entries)
  {
  }

  /** The era notice is present exactly when the era label is a non-empty string. */
  lemma EraNoticeIffLabel(body: PastSelfBody, entries: seq<Entry>)
    requires Truthy(body.pastSelfMode)
    ensures Prompt(body, entries).eraNotice.Some? <==> NonEmpty(body.eraLabel)
  {
  }

  /** The default persona quotes the three latest entries (all of them when fewer), oldest first. */
  lemma RoccoQuotesLastThree(body: PastSelfBody, entries: seq<Entry>)
    requires !Truthy(body.pastSelfMode)
    ensures var k := if |entries| < 3 then |entries| else 3;
      Prompt(body, entries) ==
        RoccoPrompt(MemoryText(entries[|entries| - k..]), Knowledge.EntriesSummary(entries))
  {
  }

  /** The history sent never opens with a model turn and holds at most six turns. */
  lemma SentHistoryShape(req: Request, entries: seq<Entry>, render: SystemPrompt -> string)
    requires PlanRequest(req, entries, render).Send?
    ensures var h := PlanRequest(req, entries, render).call.history;
      |h| <= 6 && (h == [] || h[0].role == "user")
  {
  }
}
