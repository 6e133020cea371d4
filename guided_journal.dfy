/**
 * The guided journal ("Echoes"): an identity form, a daily interview of two or three
 * rounds of generated questions with empathetic feedback, and a chat with the past self
 * over retrieved recollections. The vector store is a sequence of saved documents; model
 * replies are outcomes (`Err` is the raised exception) and JSON parsing is a parameter.
 */
module GuidedJournal {
  import opened Wrappers
  import opened Text

  /** The identity saved to the profile file. */
  datatype Profile = Profile(name: string, age: int, occupation: string, interests: string)

  /** A generated question: `tipo`, `pregunta` and `opciones`. */
  datatype Question = Question(kind: string, text: string, options: seq<string>)

  /** A document saved to the store, with its `tipo` metadata. */
  datatype Memory = Memory(text: string, kind: string)

  /** A retrieved document with its `fecha` metadata. */
  datatype Recollection = Recollection(date: string, doc: string)

  /** A chat message of the past-self tab. */
  datatype Message = Message(role: string, content: string)

  /** The question asked whenever generation or parsing fails. */
  const FallbackQuestion: Question :=
    Question("abierta", "Y cambiando un poco de tema, ¿qué más destacarías de hoy?", [])

  const NoRecollections: string := "No hay recuerdos relacionados en tu base de datos."

  /** The reply with every "```json" and then every "```" removed, stripped. */
  function CleanReply(text: string): string {
    Trim(ReplaceAll(ReplaceAll(text, "```json", ""), "```", ""))
  }

  /** `generar_pregunta_dinamica`: the parsed question, or the fallback on any failure. */
  function NextQuestion(reply: Result<string, string>, parse: string -> Option<Question>): Question {
    if reply.Err? then FallbackQuestion
    else match parse(CleanReply(reply.value))
      case Some(q) => q
      case None => FallbackQuestion
  }

  /** The form offers a choice of options only for an `opciones` question that has some. */
  predicate OffersOptions(q: Question) {
    q.kind == "opciones" && q.options != []
  }

  /** A failed generation or parse yields the fixed open question, answered in free text. */
  lemma FailureAsksOpenQuestion(reply: Result<string, string>, parse: string -> Option<Question>)
    requires reply.Err? || parse(CleanReply(reply.value)).None?
    ensures NextQuestion(reply, parse) == FallbackQuestion
    ensures !OffersOptions(NextQuestion(reply, parse))
  {
  }

  /** A successfully parsed question is asked as the model wrote it. */
  lemma ParsedQuestionKept(reply: Result<string, string>, parse: string -> Option<Question>)
    requires reply.Ok? && parse(CleanReply(reply.value)).Some?
    ensures NextQuestion(reply, parse) == parse(CleanReply(reply.value)).value
  {
  }

  /** One line per recollection: `- [fecha]: doc`. */
  function RecollectionLines(rs: seq<Recollection>): string {
    if rs == [] then ""
    else RecollectionLines(rs[..|rs| - 1]) + "- [" + rs[|rs| - 1].date + "]: " + rs[|rs| - 1].doc + "\n"
  }

  /** `recuerdos_str`: the lines, or the fixed text when nothing was retrieved. */
  function RecollectionsText(rs: seq<Recollection>): string {
    if rs == [] then NoRecollections else RecollectionLines(rs)
  }

  /** Each recollection adds a line that ends the text so far. */
  lemma RecollectionLinesShape(rs: seq<Recollection>)
    ensures rs == [] <==> RecollectionLines(rs) == ""
    ensures rs != [] ==> RecollectionLines(rs)[|RecollectionLines(rs)| - 1] == '\n'
    ensures rs != [] ==> StartsWith(RecollectionLines(rs), "- [")
  {
    if rs != [] {
      LastLineEnds(rs);
      FirstLineStarts(rs);
    }
  }

  /** The text of a non-empty result ends with the last line's newline. */
  lemma LastLineEnds(rs: seq<Recollection>)
    requires rs != []
    ensures |RecollectionLines(rs)| > 0 && RecollectionLines(rs)[|RecollectionLines(rs)| - 1] == '\n'
  {
    var line := "- [" + rs[|rs| - 1].date + "]: " + rs[|rs| - 1].doc + "\n";
    assert RecollectionLines(rs) == RecollectionLines(rs[..|rs| - 1]) + line;
  }

  /** The text of a non-empty result starts with the first line's marker. */
  lemma {:induction false} FirstLineStarts(rs: seq<Recollection>)
    requires rs != []
    ensures StartsWith(RecollectionLines(rs), "- [")
    decreases |rs|
  {
    var prefix := rs[..|rs| - 1];
    var line := "- [" + rs[|rs| - 1].date + "]: " + rs[|rs| - 1].doc + "\n";
    assert RecollectionLines(rs) == RecollectionLines(prefix) + line;
    if prefix != [] {
      FirstLineStarts(prefix);
      assert RecollectionLines(rs)[..3] == RecollectionLines(prefix)[..3];
    }
  }

  /** The fixed text is given exactly when nothing was retrieved. */
  lemma RecollectionsTextIffNone(rs: seq<Recollection>)
    ensures RecollectionsText(rs) == NoRecollections <==> rs == []
  {
    if rs != [] {
      RecollectionLinesShape(rs);
      var t := RecollectionLines(rs);
      assert t[|t| - 1] == '\n';
      assert NoRecollections[|NoRecollections| - 1] == '.';
    }
  }

  /** The string-accumulating loop over the query results. */
  method FormatRecollections(rs: seq<Recollection>) returns (s: string)
    ensures s == RecollectionsText(rs)
  {
    if |rs| > 0 {
      s := "";
      for i := 0 to |rs|
        invariant s == RecollectionLines(rs[..i])
      {
        assert rs[..i + 1][..i] == rs[..i];
        s := s + "- [" + rs[i].date + "]: " + rs[i].doc + "\n";
      }
      assert rs[..|rs|] == rs;
    } else {
      s := NoRecollections;
    }
  }

  /** `contexto_perfil` of the past-self prompt. */
  function ProfileLine(p: Profile): string {
    "Nombre: " + p.name + ", Edad: " + IntToString(p.age) + ", Ocupación: " + p.occupation
  }

  /** What the past-self prompt is made of: the profile line, the recollections and the message. */
  datatype PastPrompt = PastPrompt(profile: string, recollections: string, message: string)

  class Journal {
    var profile: Option<Profile>
    var memories: seq<Memory>
    var active: bool
    var round: int
    var maxRounds: int
    var context: seq<string>
    var question: Option<Question>
    var awaitingNext: bool
    var feedback: Option<string>
    var pendingAnswer: Option<string>
    var pastMessages: seq<Message>

    /**
     * The day's interview: two or three rounds; no round count or context outside an
     * active day; a question is always ready while rounds remain.
     */
    ghost predicate Valid()
      reads this
    {
      2 <= maxRounds <= 3 && 0 <= round <= maxRounds &&
      (!active ==> round == 0 && context == [] && !awaitingNext) &&
      (active && round < maxRounds ==> question.Some?) &&
      (awaitingNext ==> active && round < maxRounds)
    }

    /** A fresh session; `draw` is the `random.randint(2, 3)` round count. */
    constructor (saved: Option<Profile>, stored: seq<Memory>, draw: int)
      requires 2 <= draw <= 3
      ensures Valid()
      ensures profile == saved && memories == stored && maxRounds == draw
      ensures !active && round == 0 && context == [] && question.None? && !awaitingNext
      ensures feedback.None? && pendingAnswer.None? && pastMessages == []
    {
      profile := saved;
      memories := stored;
      active := false;
      round := 0;
      maxRounds := draw;
      context := [];
      question := None;
      awaitingNext := false;
      feedback := None;
      pendingAnswer := None;
      pastMessages := [];
    }

    /** "Guardar Identidad": saved only with both a name and an occupation. */
    method SaveProfile(name: string, age: int, occupation: string, interests: string)
      requires age >= 10
      modifies this
      ensures name != "" && occupation != "" ==> profile == Some(Profile(name, age, occupation, interests))
      ensures name == "" || occupation == "" ==> profile == old(profile)
      ensures memories == old(memories) && active == old(active) && round == old(round)
      ensures maxRounds == old(maxRounds) && context == old(context) && question == old(question)
      ensures awaitingNext == old(awaitingNext) && pastMessages == old(pastMessages)
      ensures feedback == old(feedback) && pendingAnswer == old(pendingAnswer)
    {
      if name != "" && occupation != "" {
        profile := Some(Profile(name, age, occupation, interests));
      }
    }

    /**
     * "Comenzar análisis": a non-empty entry is saved as the day's summary, opens the
     * context and draws the first question; an empty entry does nothing.
     */
    method Start(entry: string, reply: Result<string, string>, parse: string -> Option<Question>)
      requires Valid() && profile.Some? && !active
      modifies this
      ensures Valid()
      ensures entry == "" ==>
        active == old(active) && round == old(round) && memories == old(memories) &&
        context == old(context) && question == old(question)
      ensures entry != "" ==>
        active && round == 0 &&
        memories == old(memories) + [Memory("Resumen del día: " + entry, "resumen_dia")] &&
        context == ["Usuario: " + entry] &&
        question == Some(NextQuestion(reply, parse))
      ensures maxRounds == old(maxRounds) && awaitingNext == old(awaitingNext)
      ensures profile == old(profile) && pastMessages == old(pastMessages)
      ensures feedback == old(feedback) && pendingAnswer == old(pendingAnswer)
    {
      if entry != "" {
        var first := NextQuestion(reply, parse);
        Open(Memory("Resumen del día: " + entry, "resumen_dia"), "Usuario: " + entry, first);
      }
    }

    /** The state change of a started analysis: the summary saved, the context opened, the first question shown. */
    method Open(summary: Memory, said: string, first: Question)
      requires Valid() && !active
      modifies this
      ensures Valid()
      ensures active && round == 0 && memories == old(memories) + [summary]
      ensures context == [said] && question == Some(first)
      ensures maxRounds == old(maxRounds) && awaitingNext == old(awaitingNext)
      ensures profile == old(profile) && pastMessages == old(pastMessages)
      ensures feedback == old(feedback) && pendingAnswer == old(pendingAnswer)
    {
      memories := memories + [summary];
      context := [said];
      question := Some(first);
      active := true;
    }

    /**
     * "Enviar" on a round: a non-empty answer is saved with its question, the question and
     * the answer join the context, and the feedback is requested. A raised feedback call
     * leaves the saved document and the context grown but the round still open.
     */
    method Answer(answer: string, feedbackReply: Result<string, string>)
      requires Valid() && profile.Some? && active && round < maxRounds && !awaitingNext
      requires OffersOptions(question.value) ==> answer == "" || answer in question.value.options
      modifies this
      ensures Valid()
      ensures answer == "" ==>
        memories == old(memories) && context == old(context) && awaitingNext == old(awaitingNext) &&
        feedback == old(feedback) && pendingAnswer == old(pendingAnswer)
      ensures answer != "" ==>
        memories == old(memories) + [Memory("Pregunta: " + old(question).value.text + " | Respuesta: " + answer, "reflexion_guiada")] &&
        context == old(context) + ["IA: " + old(question).value.text, "Usuario: " + answer]
      ensures answer != "" && feedbackReply.Ok? ==>
        awaitingNext && feedback == Some(feedbackReply.value) && pendingAnswer == Some(answer)
      ensures answer != "" && feedbackReply.Err? ==>
        awaitingNext == old(awaitingNext) && feedback == old(feedback) && pendingAnswer == old(pendingAnswer)
      ensures active == old(active) && round == old(round) && maxRounds == old(maxRounds) && question == old(question)
      ensures profile == old(profile) && pastMessages == old(pastMessages)
    {
      if answer != "" {
        var q := question.value;
        memories := memories + [Memory("Pregunta: " + q.text + " | Respuesta: " + answer, "reflexion_guiada")];
        context := context + ["IA: " + q.text, "Usuario: " + answer];
        match feedbackReply {
          case Ok(text) =>
            feedback := Some(text);
            pendingAnswer := Some(answer);
            awaitingNext := true;
          case Err(_) =>
        }
      }
    }

    /**
     * "Continuar": the round count goes up, a new question is drawn only while rounds
     * remain, and the feedback and the shown answer are cleared.
     */
    method Continue(reply: Result<string, string>, parse: string -> Option<Question>)
      requires Valid() && profile.Some? && active && awaitingNext
      modifies this
      ensures Valid()
      ensures round == old(round) + 1
      ensures round < maxRounds ==> question == Some(NextQuestion(reply, parse))
      ensures round == maxRounds ==> question == old(question)
      ensures !awaitingNext && feedback.None? && pendingAnswer.None?
      ensures active == old(active) && maxRounds == old(maxRounds) && context == old(context)
      ensures memories == old(memories) && profile == old(profile) && pastMessages == old(pastMessages)
    {
      var next := round + 1;
      if next < maxRounds {
        question := Some(NextQuestion(reply, parse));
      }
      round := next;
      awaitingNext := false;
      feedback := None;
      pendingAnswer := None;
    }

    /** "Cerrar diario de hoy": the day ends; the round count is not drawn again. */
    method Close()
      requires Valid() && profile.Some? && active && round >= maxRounds
      modifies this
      ensures Valid()
      ensures !active && round == 0 && context == []
      ensures maxRounds == old(maxRounds) && question == old(question) && memories == old(memories)
      ensures profile == old(profile) && pastMessages == old(pastMessages)
      ensures awaitingNext == old(awaitingNext) && feedback == old(feedback) && pendingAnswer == old(pendingAnswer)
    {
      active := false;
      round := 0;
      context := [];
    }

    /**
     * A message to the past self: it is shown at once, the recollections retrieved for it
     * are formatted into the prompt, and the reply follows it; a raised call leaves the
     * message without a reply.
     */
    method AskPast(message: string, retrieved: seq<Recollection>, reply: Result<string, string>)
      returns (prompt: Option<PastPrompt>)
      requires profile.Some?
      modifies this
      ensures message == "" ==> prompt.None? && pastMessages == old(pastMessages)
      ensures message != "" ==>
        prompt == Some(PastPrompt(ProfileLine(old(profile).value), RecollectionsText(retrieved), message))
      ensures message != "" && reply.Ok? ==>
        pastMessages == old(pastMessages) + [Message("user", message), Message("assistant", reply.value)]
      ensures message != "" && reply.Err? ==> pastMessages == old(pastMessages) + [Message("user", message)]
      ensures profile == old(profile) && memories == old(memories) && active == old(active)
      ensures round == old(round) && maxRounds == old(maxRounds) && context == old(context)
      ensures question == old(question) && awaitingNext == old(awaitingNext)
      ensures feedback == old(feedback) && pendingAnswer == old(pendingAnswer)
    {
      if message == "" {
        return None;
      }
      pastMessages := pastMessages + [Message("user", message)];
      var recollections := FormatRecollections(retrieved);
      prompt := Some(PastPrompt(ProfileLine(profile.value), recollections, message));
      if reply.Ok? {
        pastMessages := pastMessages + [Message("assistant", reply.value)];
      }
    }
  }
}
