/**
 * The PIN pad in front of the diary: digits are collected up to four, the PIN is
 * checked as soon as the fourth arrives, a wrong PIN shows an error and is cleared a
 * moment later, the right one unlocks a moment later. Each delayed action is a pending
 * timer that fires as a later event; pending timers are counted, so a second wrong PIN
 * typed before the first reset fires starts a second reset of its own.
 */
module LockScreen {
  const CorrectPin: string := "0000"

  class PinPad {
    var pin: string
    var error: bool
    var unlocking: bool
    /** The number of pending timers that will clear the PIN; each wrong PIN starts one. */
    var resetsDue: nat
    /** The number of pending timers that will call `onUnlock`. */
    var unlocksDue: nat
    /** `onUnlock` has been called. */
    var unlocked: bool

    /** The PIN never holds more than four characters. */
    ghost predicate Valid()
      reads this
    {
      |pin| <= 4
    }

    constructor ()
      ensures Valid()
      ensures pin == "" && !error && !unlocking && resetsDue == 0 && unlocksDue == 0 && !unlocked
    {
      pin := "";
      error := false;
      unlocking := false;
      resetsDue := 0;
      unlocksDue := 0;
      unlocked := false;
    }

    /** `checkPin`: unlock on the right PIN, else flag the error and schedule the reset. */
    method CheckPin(p: string)
      modifies this
      ensures p == CorrectPin ==>
        unlocking && unlocksDue == old(unlocksDue) + 1 && error == old(error) && resetsDue == old(resetsDue)
      ensures p != CorrectPin ==>
        error && resetsDue == old(resetsDue) + 1 && unlocking == old(unlocking) && unlocksDue == old(unlocksDue)
      ensures pin == old(pin) && unlocked == old(unlocked)
    {
      if p == CorrectPin {
        unlocking := true;
        unlocksDue := unlocksDue + 1;
      } else {
        error := true;
        resetsDue := resetsDue + 1;
      }
    }

    /**
     * `handleDigit`: ignored once four characters are in; otherwise the digit is
     * appended, the error cleared, and the PIN checked when it reaches four.
     */
    method HandleDigit(d: char)
      requires Valid()
      modifies this
      ensures Valid()
      ensures |old(pin)| >= 4 ==>
        pin == old(pin) && error == old(error) && unlocking == old(unlocking) &&
        resetsDue == old(resetsDue) && unlocksDue == old(unlocksDue)
      ensures |old(pin)| < 4 ==> pin == old(pin) + [d]
      ensures |old(pin)| < 3 ==>
        !error && unlocking == old(unlocking) && resetsDue == old(resetsDue) && unlocksDue == old(unlocksDue)
      ensures |old(pin)| == 3 && pin == CorrectPin ==>
        unlocking && unlocksDue == old(unlocksDue) + 1 && !error && resetsDue == old(resetsDue)
      ensures |old(pin)| == 3 && pin != CorrectPin ==>
        error && resetsDue == old(resetsDue) + 1 && unlocking == old(unlocking) && unlocksDue == old(unlocksDue)
      ensures unlocked == old(unlocked)
    {
      if |pin| >= 4 {
        return;
      }
      var next := pin + [d];
      pin := next;
      error := false;
      if |next| == 4 {
        CheckPin(next);
      }
    }

    /** `handleDelete`: the last character removed (nothing on an empty PIN), the error cleared. */
    method HandleDelete()
      requires Valid()
      modifies this
      ensures Valid()
      ensures old(pin) == "" ==> pin == ""
      ensures old(pin) != "" ==> pin == old(pin)[..|old(pin)| - 1]
      ensures !error
      ensures unlocking == old(unlocking) && resetsDue == old(resetsDue) && unlocksDue == old(unlocksDue) && unlocked == old(unlocked)
    {
      if pin != "" {
        pin := pin[..|pin| - 1];
      }
      error := false;
    }

    /** One pending reset timer fires: the PIN is emptied, whatever was typed since. */
    method ResetFires()
      requires resetsDue > 0
      modifies this
      ensures Valid() && pin == "" && resetsDue == old(resetsDue) - 1
      ensures error == old(error) && unlocking == old(unlocking) && unlocksDue == old(unlocksDue) && unlocked == old(unlocked)
    {
      pin := "";
      resetsDue := resetsDue - 1;
    }

    /** One pending unlock timer fires: `onUnlock` is called. */
    method UnlockFires()
      requires unlocksDue > 0
      modifies this
      ensures unlocked && unlocksDue == old(unlocksDue) - 1
      ensures pin == old(pin) && error == old(error) && unlocking == old(unlocking) && resetsDue == old(resetsDue)
    {
      unlocked := true;
      unlocksDue := unlocksDue - 1;
    }

    /** The bypass button: unlocks whatever the PIN, with a timer of its own. */
    method Bypass()
      modifies this
      ensures unlocking && unlocksDue == old(unlocksDue) + 1
      ensures pin == old(pin) && error == old(error) && resetsDue == old(resetsDue) && unlocked == old(unlocked)
    {
      unlocking := true;
      unlocksDue := unlocksDue + 1;
    }
  }

  /** Typing `0000` on a fresh pad and letting the timer fire unlocks it. */
  method EnterCorrectPin() returns (pad: PinPad)
    ensures pad.unlocked && pad.pin == CorrectPin && !pad.error
  {
    pad := new PinPad();
    pad.HandleDigit('0');
    pad.HandleDigit('0');
    pad.HandleDigit('0');
    pad.HandleDigit('0');
    assert pad.unlocksDue == 1;
    pad.UnlockFires();
  }

  /** Any other four digits leave the pad locked, flag the error, and clear the PIN. */
  method EnterWrongPin(a: char, b: char, c: char, d: char) returns (pad: PinPad)
    requires [a, b, c, d] != CorrectPin
    ensures !pad.unlocked && !pad.unlocking && pad.error && pad.pin == ""
  {
    pad := new PinPad();
    pad.HandleDigit(a);
    pad.HandleDigit(b);
    pad.HandleDigit(c);
    pad.HandleDigit(d);
    assert pad.pin == [a, b, c, d];
    pad.ResetFires();
  }

  /**
   * Two wrong PINs whose reset timers overlap: after `1234`, a delete and `5`, two resets
   * are pending. The first clears the PIN; a digit typed before the second fires is
   * cleared by it too, and that digit had already cleared the error.
   */
  method OverlappingResets() returns (pad: PinPad)
    ensures pad.pin == "" && pad.resetsDue == 0 && !pad.error && !pad.unlocked
  {
    pad := new PinPad();
    pad.HandleDigit('1');
    pad.HandleDigit('2');
    pad.HandleDigit('3');
    pad.HandleDigit('4');
    pad.HandleDelete();
    pad.HandleDigit('5');
    assert pad.pin == "1235" && pad.resetsDue == 2;
    pad.ResetFires();
    pad.HandleDigit('0');
    assert pad.pin == "0" && pad.resetsDue == 1;
    pad.ResetFires();
  }
}
