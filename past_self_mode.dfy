/**
 * The chat screen: a transcript of user and assistant turns, the input box, the
 * loading flags and an error line, driven by the opening call, by sending a message
 * and by choosing an era. A server call is split into the synchronous part that starts
 * it and a later completion with its outcome; calls still outstanding are kept in
 * order, since a restart does not cancel them.
 */
module PastSelfMode {
  import opened Wrappers
  import opened Text
  import opened JsValues
  import opened Diary
  import PastSelfApi
  import EraFilter

  /** An era of the picker: its id, label and inclusive year bounds. */
  datatype Era = Era(id: string, title: string, start: Option<int>, end: Option<int>)

  const Eras: seq<Era> := [
    Era("all", "Toda mi vida", None, None),
    Era("2010", "Juventud (2010)", Some(2010), Some(2010)),
    Era("2015", "Peak Amsterdam (2015)", Some(2015), Some(2015)),
    Era("2020", "Confinamiento (2020)", Some(2020), Some(2020)),
    Era("2026", "Valencia Hoy (2026)", Some(2026), Some(2026))
  ]

  /** The first message of a conversation, by its variable parts. */
  datatype Opening =
    | PastSelfOpening(eraLabel: string)   // talk to the past self of this era
    | EntryOpening(content: string)       // Rocco asks about the entry just written
    | ChatOpening                         // Rocco opens the chat without an entry

  function OpeningFor(pastSelfMode: bool, era: Era, entry: Option<Entry>): (o: Opening)
    ensures pastSelfMode ==> o == PastSelfOpening(era.title)
    ensures !pastSelfMode && entry.Some? ==> o == EntryOpening(entry.value.content)
    ensures !pastSelfMode && entry.None? ==> o == ChatOpening
  {
    if pastSelfMode then PastSelfOpening(era.title)
    else if entry.Some? then EntryOpening(entry.value.content)
    else ChatOpening
  }

  /** What the route answers, as the client sees it. */
  datatype ServerReply =
    | NetworkFailure(message: string)
    | Reply(ok: bool, error: Option<string>, response: Option<string>)

  datatype CallError = NoApiKey | Failed(message: string)

  /**
   * `llamarApi`: no key stored means no request at all; a non-OK status fails with the
   * server's error or a default; an empty response reads as `…`.
   */
  function CallOutcome(storedKey: string, reply: ServerReply): (r: Result<string, CallError>)
    ensures storedKey == "" ==> r == Err(NoApiKey)
    ensures storedKey != "" && reply.Reply? && reply.ok ==>
      r == Ok(if NonEmpty(reply.response) then reply.response.value else "…")
    ensures storedKey != "" && reply.Reply? && !reply.ok ==>
      r == Err(Failed(if NonEmpty(reply.error) then reply.error.value else "Error del servidor"))
    ensures storedKey != "" && reply.NetworkFailure? ==> r == Err(Failed(reply.message))
    ensures r.Ok? ==> r.value != ""
  {
    if storedKey == "" then Err(NoApiKey)
    else match reply
      case NetworkFailure(m) => Err(Failed(m))
      case Reply(ok, error, response) =>
        if !ok then Err(Failed(if NonEmpty(error) then error.value else "Error del servidor"))
        else Ok(if NonEmpty(response) then response.value else "…")
  }

  /** The body `llamarApi` posts: the message, the history, the key and the era. */
  function RequestBody(message: string, history: seq<Turn>, pastSelfMode: bool, era: Era): (b: PastSelfApi.PastSelfBody)
    ensures b.history == history && b.eraYearStart == era.start && b.eraYearEnd == era.end
    ensures b.eraLabel == Some(era.title) && b.message == Str(message) && b.pastSelfMode == Bool(pastSelfMode)
  {
    PastSelfApi.PastSelfBody(Str(message), history, Bool(pastSelfMode), era.start, era.end, Some(era.title))
  }

  /** Every era of the picker, `all` included, sends a label, so the route adds its era notice. */
  lemma EveryEraSendsNotice(message: string, history: seq<Turn>, i: nat, entries: seq<Entry>)
    requires i < |Eras|
    ensures PastSelfApi.Prompt(RequestBody(message, history, true, Eras[i]), entries).eraNotice ==
      Some(Eras[i].title)
  {
    var era := Eras[i];
    assert |era.title| > 0 by {
      assert i == 0 || i == 1 || i == 2 || i == 3 || i == 4;
    }
    var body := RequestBody(message, history, true, era);
    assert NonEmpty(body.eraLabel);
  }

  /**
   * Every other era of the picker is a single year: its call quotes exactly the
   * entries written in that year (local time), in their original order.
   */
  lemma YearEraQuotesItsYear(message: string, history: seq<Turn>, i: nat, entries: seq<Entry>)
    requires 1 <= i < |Eras|
    ensures Eras[i].start.Some? && Eras[i].start == Eras[i].end
    ensures var quoted := EraFilter.Filter(entries, Eras[i].start, Eras[i].end);
      PastSelfApi.Prompt(RequestBody(message, history, true, Eras[i]), entries).memories ==
        PastSelfApi.MemoryText(quoted) &&
      forall e :: e in quoted <==> e in entries && e.createdAt.localYear == Eras[i].start
  {
  }

  /** The `all` era quotes every entry. */
  lemma AllEraQuotesEverything(message: string, history: seq<Turn>, entries: seq<Entry>)
    ensures PastSelfApi.Prompt(RequestBody(message, history, true, Eras[0]), entries).memories ==
      PastSelfApi.MemoryText(entries)
  {
  }

  /**
   * A call in flight: the opening call with its opening message, or a sent message
   * with the transcript sent as history; both with the era chosen when they started.
   */
  datatype Pending =
    | OpenCall(opening: Opening, era: Era)
    | SendCall(text: string, history: seq<Turn>, era: Era)

  const NoKeyOpeningError: string := "⚠️ Añade tu clave API de Gemini con el botón 🔑 (abajo a la derecha)."
  const NoKeyReply: string := "⚠️ Añade tu clave API de Gemini (botón 🔑)."

  /** The text shown for a failed call: a fixed text without a key, else the message or a default. */
  function FailureText(e: CallError, noKey: string, fallback: string): string {
    match e
    case NoApiKey => noKey
    case Failed(m) => "⚠️ " + (if m != "" then m else fallback)
  }

  class Session {
    var messages: seq<Turn>
    var input: string
    var loading: bool
    var typing: bool
    var era: Era
    var error: string
    const pastSelfMode: bool
    /** Calls started and not yet completed, oldest first. */
    var pending: seq<Pending>

    /** The component as first rendered, before its opening effect runs. */
    constructor (pastSelfMode: bool)
      ensures this.pastSelfMode == pastSelfMode
      ensures messages == [] && input == "" && !loading && !typing && era == Eras[0] && error == "" && pending == []
    {
      this.pastSelfMode := pastSelfMode;
      messages := [];
      input := "";
      loading := false;
      typing := false;
      era := Eras[0];
      error := "";
      pending := [];
    }

    /** `iniciarConversacion` up to its call: clears the transcript and the error, starts the call. */
    method Open(entry: Option<Entry>)
      modifies this
      ensures messages == [] && error == "" && loading && typing
      ensures pending == old(pending) + [OpenCall(OpeningFor(pastSelfMode, era, entry), era)]
      ensures input == old(input) && era == old(era)
    {
      messages := [];
      error := "";
      loading := true;
      typing := true;
      pending := pending + [OpenCall(OpeningFor(pastSelfMode, era, entry), era)];
    }

    /**
     * Choosing an era restarts the conversation; choosing the era already active
     * changes no state, so the opening effect does not run again. The era picker is
     * only shown in past-self mode.
     */
    method SelectEra(e: Era, entry: Option<Entry>)
      requires pastSelfMode
      modifies this
      ensures e != old(era) ==>
        era == e && messages == [] && error == "" && loading && typing &&
        pending == old(pending) + [OpenCall(OpeningFor(pastSelfMode, e, entry), e)]
      ensures e == old(era) ==>
        era == old(era) && messages == old(messages) && pending == old(pending) &&
        loading == old(loading) && typing == old(typing) && error == old(error)
      ensures input == old(input)
    {
      if e != era {
        era := e;
        Open(entry);
      }
    }

    /** Typing in the box, which is disabled while a call is loading. */
    method SetInput(s: string)
      requires !loading
      modifies this
      ensures input == s
      ensures messages == old(messages) && loading == old(loading) && typing == old(typing) &&
        pending == old(pending) && error == old(error) && era == old(era)
    {
      input := s;
    }

    /**
     * `enviarMensaje` up to its call: ignored with blank input or while loading;
     * otherwise the trimmed text is appended as a user turn and sent with the
     * transcript as it was before.
     */
    method Send()
      modifies this
      ensures IsBlank(old(input)) || old(loading) ==>
        messages == old(messages) && input == old(input) && loading == old(loading) &&
        typing == old(typing) && pending == old(pending) && error == old(error)
      ensures !IsBlank(old(input)) && !old(loading) ==>
        messages == old(messages) + [Turn("user", Trim(old(input)))] &&
        pending == old(pending) + [SendCall(Trim(old(input)), old(messages), era)] &&
        input == "" && error == "" && loading && typing
      ensures era == old(era)
    {
      var text := Trim(input);
      TrimEmptyIffBlank(input);
      if text == "" || loading {
        return;
      }
      var before := messages;
      messages := messages + [Turn("user", text)];
      input := "";
      error := "";
      loading := true;
      typing := true;
      pending := pending + [SendCall(text, before, era)];
    }

    /**
     * The `k`-th outstanding call completes. An opening call replaces the transcript
     * with the reply or sets the error; a sent message gets exactly one assistant turn,
     * the reply or an error text. The loading flags are cleared either way.
     */
    method Complete(k: nat, outcome: Result<string, CallError>)
      requires k < |pending|
      modifies this
      ensures pending == old(pending[..k] + pending[k + 1..])
      ensures !loading && !typing
      ensures old(pending[k]).OpenCall? && outcome.Ok? ==>
        messages == [Turn("assistant", outcome.value)] && error == old(error)
      ensures old(pending[k]).OpenCall? && outcome.Err? ==>
        messages == old(messages) &&
        error == FailureText(outcome.error, NoKeyOpeningError, "Error al conectar. Comprueba tu clave API.")
      ensures old(pending[k]).SendCall? ==>
        messages == old(messages) + [Turn("assistant",
          if outcome.Ok? then outcome.value else FailureText(outcome.error, NoKeyReply, "Error de conexión."))] &&
        error == old(error)
      ensures input == old(input) && era == old(era)
    {
      var call := pending[k];
      pending := pending[..k] + pending[k + 1..];
      match call {
        case OpenCall(_, _) =>
          if outcome.Ok? {
            messages := [Turn("assistant", outcome.value)];
          } else {
            error := FailureText(outcome.error, NoKeyOpeningError, "Error al conectar. Comprueba tu clave API.");
          }
        case SendCall(_, _, _) =>
          var reply := if outcome.Ok? then outcome.value else FailureText(outcome.error, NoKeyReply, "Error de conexión.");
          messages := messages + [Turn("assistant", reply)];
      }
      loading := false;
      typing := false;
    }
  }

  /** A message sent and answered with nothing else in between adds a user and an assistant turn. */
  method SendThenAnswer(s: Session, outcome: Result<string, CallError>)
    requires !s.loading && !IsBlank(s.input)
    modifies s
    ensures s.messages == old(s.messages) + [Turn("user", Trim(old(s.input))),
      Turn("assistant", if outcome.Ok? then outcome.value else FailureText(outcome.error, NoKeyReply, "Error de conexión."))]
    ensures !s.loading && s.pending == old(s.pending)
  {
    ghost var before := s.messages;
    s.Send();
    var queued := s.pending;
    assert queued == old(s.pending) + [SendCall(Trim(old(s.input)), before, s.era)];
    assert queued[|queued| - 1].SendCall?;
    s.Complete(|queued| - 1, outcome);
    assert queued[..|queued| - 1] + queued[|queued|..] == old(s.pending);
  }

  /** Opening a conversation and receiving the reply leaves exactly that reply. */
  method OpenThenAnswer(s: Session, entry: Option<Entry>, reply: string)
    requires s.pending == []
    modifies s
    ensures s.messages == [Turn("assistant", reply)] && s.error == "" && !s.loading && s.pending == []
  {
    s.Open(entry);
    s.Complete(0, Ok(reply));
  }
}
