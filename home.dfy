/**
 * The page that orchestrates the web app: a loading screen until the profile arrives,
 * then the lock screen (onboarding done) or the onboarding flow, then the main app with
 * three modes (diary, chat with Rocco, past self). Rocco is reachable only once an
 * entry is known. Every fetch is an event whose outcome is a parameter.
 */
module Home {
  import opened Wrappers
  import opened JsValues
  import opened Diary
  import MemoryStore

  datatype AppState = Loading | Locked | Onboarding | App
  datatype Mode = DiaryMode | Rocco | PastSelf

  /** The screen a loaded profile leads to: `prof.onboardingComplete` is tested for truthiness. */
  function StateForProfile(prof: Object): (s: AppState)
    ensures s == Locked <==> "onboardingComplete" in prof && Truthy(prof["onboardingComplete"])
    ensures s == Locked || s == Onboarding
  {
    if "onboardingComplete" in prof && Truthy(prof["onboardingComplete"]) then Locked else Onboarding
  }

  /** Whatever the store counts as completed onboarding also opens the lock screen. */
  lemma StoreCompleteLocks(prof: Object)
    requires MemoryStore.OnboardingDone(prof)
    ensures StateForProfile(prof) == Locked
  {
  }

  /**
   * The converse fails: the page tests truthiness while the store demands `true`, so a
   * profile holding the string "false" leads to the lock screen although the store
   * reports onboarding as incomplete.
   */
  lemma TruthyStringLocks()
    ensures var prof := map["onboardingComplete" := Str("false")];
      StateForProfile(prof) == Locked && !MemoryStore.OnboardingDone(prof)
  {
    var prof := map["onboardingComplete" := Str("false")];
    assert prof["onboardingComplete"] == Str("false");
  }

  /** The navigation bar disables the Rocco button while no entry is available. */
  predicate NavDisabled(m: Mode, lastEntry: Option<Entry>) {
    m == Rocco && lastEntry.None?
  }

  class Page {
    var appState: AppState
    var profile: Object
    var mode: Mode
    var lastEntry: Option<Entry>

    /** Rocco is only ever shown with an entry to talk about. */
    ghost predicate Valid()
      reads this
    {
      mode == Rocco ==> lastEntry.Some?
    }

    constructor ()
      ensures Valid()
      ensures appState == Loading && profile == map[] && mode == DiaryMode && lastEntry.None?
    {
      appState := Loading;
      profile := map[];
      mode := DiaryMode;
      lastEntry := None;
    }

    /**
     * The first profile fetch settles: a profile object is stored and decides between
     * lock screen and onboarding; a failed fetch (or a reply that is not an object)
     * leads to onboarding.
     */
    method ProfileLoaded(fetched: Option<Object>)
      requires Valid()
      modifies this
      ensures Valid()
      ensures fetched.Some? ==> profile == fetched.value && appState == StateForProfile(fetched.value)
      ensures fetched.None? ==> profile == old(profile) && appState == Onboarding
      ensures mode == old(mode) && lastEntry == old(lastEntry)
    {
      match fetched {
        case Some(prof) =>
          profile := prof;
          appState := StateForProfile(prof);
        case None =>
          appState := Onboarding;
      }
    }

    /** The entries fetch settles: a non-empty list makes its last entry the current one. */
    method EntriesLoaded(fetched: Option<seq<Entry>>)
      requires Valid()
      modifies this
      ensures Valid()
      ensures fetched.Some? && |fetched.value| > 0 ==> lastEntry == Some(fetched.value[|fetched.value| - 1])
      ensures !(fetched.Some? && |fetched.value| > 0) ==> lastEntry == old(lastEntry)
      ensures appState == old(appState) && profile == old(profile) && mode == old(mode)
    {
      if fetched.Some? && |fetched.value| > 0 {
        lastEntry := Some(fetched.value[|fetched.value| - 1]);
      }
    }

    /** The lock screen reports the right PIN. */
    method Unlock()
      requires Valid()
      modifies this
      ensures Valid()
      ensures appState == App && profile == old(profile) && mode == old(mode) && lastEntry == old(lastEntry)
    {
      appState := App;
    }

    /**
     * The profile is re-read after onboarding: on success it replaces the profile and the
     * app opens; a failed re-read has no handler and nothing changes.
     */
    method OnboardingFinished(reread: Option<Object>)
      requires Valid()
      modifies this
      ensures Valid()
      ensures reread.Some? ==> appState == App && profile == reread.value
      ensures reread.None? ==> appState == old(appState) && profile == old(profile)
      ensures mode == old(mode) && lastEntry == old(lastEntry)
    {
      if reread.Some? {
        profile := reread.value;
        appState := App;
      }
    }

    /** The diary saved an entry: it becomes current and the chat with Rocco opens. */
    method EntrySaved(e: Entry)
      requires Valid()
      modifies this
      ensures Valid()
      ensures lastEntry == Some(e) && mode == Rocco
      ensures appState == old(appState) && profile == old(profile)
    {
      lastEntry := Some(e);
      mode := Rocco;
    }

    /** A click on a navigation button; a disabled button does nothing. */
    method NavClick(m: Mode)
      requires Valid()
      modifies this
      ensures Valid()
      ensures NavDisabled(m, old(lastEntry)) ==> mode == old(mode)
      ensures !NavDisabled(m, old(lastEntry)) ==> mode == m
      ensures appState == old(appState) && profile == old(profile) && lastEntry == old(lastEntry)
    {
      if !NavDisabled(m, lastEntry) {
        mode := m;
      }
    }
  }

  /** A completed profile and the right PIN open the app; Rocco stays disabled until an entry exists. */
  method StartReturningUser(prof: Object) returns (p: Page)
    requires MemoryStore.OnboardingDone(prof)
    ensures p.Valid() && p.appState == App && p.profile == prof
    ensures NavDisabled(Rocco, p.lastEntry)
  {
    p := new Page();
    p.ProfileLoaded(Some(prof));
    StoreCompleteLocks(prof);
    assert p.appState == Locked;
    p.Unlock();
    p.NavClick(Rocco);
  }
}
