/**
 * The three-question onboarding of the web app: one answer per step, a continue button
 * that needs more than five non-blank characters, a back button from the second step,
 * and a final submission of all answers with `onboardingComplete: true`. The profile
 * write is a pending request completed by a later event.
 */
module OnboardingFlow {
  import opened Wrappers
  import opened Text
  import opened JsValues
  import MemoryStore

  /** The profile keys of the three steps, in order. */
  const StepKeys: seq<string> := ["nameAndLifeStage", "foundationalMemory", "linguisticStyle"]

  /** `{ ...answers, onboardingComplete: true }`. */
  function SubmitBody(answers: map<string, string>): Object
  {
    (map k | k in answers :: Str(answers[k]))["onboardingComplete" := Bool(true)]
  }

  /** The submitted body carries every answer as a string and the completion flag. */
  lemma SubmitBodyFields(answers: map<string, string>)
    ensures forall k :: k in answers && k != "onboardingComplete" ==>
      k in SubmitBody(answers) && SubmitBody(answers)[k] == Str(answers[k])
    ensures "onboardingComplete" in SubmitBody(answers) && SubmitBody(answers)["onboardingComplete"] == Bool(true)
  {
  }

  /** Storing the submitted body completes onboarding in the store's strict sense. */
  lemma SubmitCompletesOnboarding(base: Object, answers: map<string, string>, now: string)
    ensures MemoryStore.OnboardingDone(MemoryStore.MergeProfile(base, SubmitBody(answers), now))
  {
    MemoryStore.BulkCompletesOnboarding(base, SubmitBody(answers), now);
  }

  class Flow {
    var step: int
    var answers: map<string, string>
    var loading: bool
    /** The body of the profile write in flight, if any. */
    var submitting: Option<Object>
    /** `onComplete` has been called. */
    var completed: bool

    ghost predicate Valid()
      reads this
    {
      1 <= step <= 3 && StepKeys[0] in answers && StepKeys[1] in answers && StepKeys[2] in answers
    }

    constructor ()
      ensures Valid()
      ensures step == 1 && answers == map["nameAndLifeStage" := "", "foundationalMemory" := "", "linguisticStyle" := ""]
      ensures !loading && submitting.None? && !completed
    {
      step := 1;
      answers := map["nameAndLifeStage" := "", "foundationalMemory" := "", "linguisticStyle" := ""];
      loading := false;
      submitting := None;
      completed := false;
    }

    /** The key the current step edits. */
    function CurrentKey(): string
      reads this
      requires Valid()
    {
      StepKeys[step - 1]
    }

    /** `canContinue`: the current answer, trimmed, is longer than five characters. */
    predicate CanContinue()
      reads this
      requires Valid()
    {
      |Trim(answers[CurrentKey()])| > 5
    }

    /** The continue button is enabled. */
    predicate NextEnabled()
      reads this
      requires Valid()
    {
      CanContinue() && !loading
    }

    /** Typing into the answer box changes the current step's answer only. */
    method Edit(text: string)
      requires Valid()
      modifies this
      ensures Valid()
      ensures answers == old(answers)[old(CurrentKey()) := text]
      ensures step == old(step) && loading == old(loading) && submitting == old(submitting) && completed == old(completed)
    {
      answers := answers[CurrentKey() := text];
    }

    /**
     * A click on continue: ignored while the button is disabled; before the last step
     * it advances, at the last step it starts the profile write.
     */
    method Next()
      requires Valid()
      modifies this
      ensures Valid()
      ensures !old(NextEnabled()) ==>
        step == old(step) && loading == old(loading) && submitting == old(submitting)
      ensures old(NextEnabled()) && old(step) < 3 ==>
        step == old(step) + 1 && loading == old(loading) && submitting == old(submitting)
      ensures old(NextEnabled()) && old(step) == 3 ==>
        step == 3 && loading && submitting == Some(SubmitBody(answers))
      ensures answers == old(answers) && completed == old(completed)
    {
      var enabled := NextEnabled();
      if !enabled {
        return;
      }
      if step < 3 {
        step := step + 1;
      } else {
        BeginSubmit();
      }
    }

    /** The last step's continue: the profile write goes out with every answer. */
    method BeginSubmit()
      requires Valid() && step == 3
      modifies this
      ensures Valid() && step == 3 && loading && submitting == Some(SubmitBody(answers))
      ensures answers == old(answers) && completed == old(completed)
    {
      loading := true;
      submitting := Some(SubmitBody(answers));
    }

    /**
     * The profile write settles. On success the flag is cleared and `onComplete` runs;
     * a rejected request leaves `loading` set, so the button stays disabled.
     */
    method SubmitSettles(ok: bool)
      requires Valid() && submitting.Some?
      modifies this
      ensures Valid()
      ensures ok ==> !loading && completed
      ensures !ok ==> loading == old(loading) && completed == old(completed)
      ensures submitting.None? && step == old(step) && answers == old(answers)
    {
      submitting := None;
      if ok {
        loading := false;
        completed := true;
      }
    }

    /** The back button exists from the second step on and goes one step back. */
    method Back()
      requires Valid()
      modifies this
      ensures Valid()
      ensures old(step) > 1 ==> step == old(step) - 1
      ensures old(step) == 1 ==> step == 1
      ensures answers == old(answers) && loading == old(loading) && submitting == old(submitting) && completed == old(completed)
    {
      if step > 1 {
        step := step - 1;
      }
    }
  }

  /** Pressing continue on an answer of at most five characters changes nothing. */
  method ShortAnswerBlocks(f: Flow)
    requires f.Valid() && |f.answers[f.CurrentKey()]| <= 5
    modifies f
    ensures f.step == old(f.step) && f.loading == old(f.loading) && f.submitting == old(f.submitting)
    ensures f.answers == old(f.answers) && f.completed == old(f.completed)
  {
    f.Next();
  }

  /** Answering the current step sufficiently and pressing continue records the answer and moves on. */
  method AnswerStep(f: Flow, a: string)
    requires f.Valid() && !f.loading && f.step < 3 && |Trim(a)| > 5
    modifies f
    ensures f.Valid() && !f.loading && f.step == old(f.step) + 1
    ensures f.answers == old(f.answers)[StepKeys[old(f.step) - 1] := a]
    ensures f.submitting == old(f.submitting)
  {
    f.Edit(a);
    assert f.answers[f.CurrentKey()] == a;
    assert f.NextEnabled();
    f.Next();
  }

  /** Three sufficient answers, each followed by continue, submit all three answers. */
  method AnswerAll(a1: string, a2: string, a3: string) returns (f: Flow)
    requires |Trim(a1)| > 5 && |Trim(a2)| > 5 && |Trim(a3)| > 5
    ensures f.Valid() && f.loading && f.step == 3
    ensures f.submitting == Some(SubmitBody(map["nameAndLifeStage" := a1, "foundationalMemory" := a2, "linguisticStyle" := a3]))
  {
    f := new Flow();
    AnswerStep(f, a1);
    AnswerStep(f, a2);
    f.Edit(a3);
    assert f.answers == map["nameAndLifeStage" := a1, "foundationalMemory" := a2, "linguisticStyle" := a3];
    f.Next();
  }
}
