/** The PWA About page's hidden admin unlock: seven clicks on the Kaos
    Forge logo, with a three-second timer that resets the count whenever
    the clicks pause. The timer firing is an event of its own. */
module WebAbout {
  import opened WebStorage
  import opened AdminStore

  const TapCountRequired: int := 7
  const TapWindowMs: int := 3000
  const NavigateDelayMs: int := 500

  /** The tap count and whether a reset timer is pending. */
  datatype ClickState = ClickState(tapCount: int, timerArmed: bool)

  function InitialClickState(): ClickState { ClickState(0, false) }

  /** Between events the count is 0..6 and a reset timer is pending
      exactly when some clicks have been counted. */
  predicate ClickValid(s: ClickState) {
    0 <= s.tapCount < TapCountRequired && (s.timerArmed <==> s.tapCount > 0)
  }

  /** A click: while admin is already unlocked it navigates to the admin
      page at once; otherwise it counts, and the seventh unlocks and
      schedules the navigation. */
  datatype ClickEffect = NavigateNow | UnlockAndNavigateLater | Counted

  function Click(s: ClickState, unlocked: bool): (r: (ClickState, ClickEffect))
    ensures unlocked ==> r == (s, NavigateNow)
    ensures !unlocked && s.tapCount + 1 >= TapCountRequired ==> r == (ClickState(0, false), UnlockAndNavigateLater)
    ensures !unlocked && s.tapCount + 1 < TapCountRequired ==> r == (ClickState(s.tapCount + 1, true), Counted)
  {
    if unlocked then (s, NavigateNow)
    else if s.tapCount + 1 >= TapCountRequired then (ClickState(0, false), UnlockAndNavigateLater)
    else (ClickState(s.tapCount + 1, true), Counted)
  }

  /** The reset timer firing. */
  function TimerFires(s: ClickState): ClickState
    requires s.timerArmed
  {
    ClickState(0, false)
  }

  /** Both events keep the count within 0..6 and the timer pending
      exactly while clicks are counted. */
  lemma EventsKeepValid(s: ClickState, unlocked: bool)
    requires ClickValid(s)
    ensures ClickValid(Click(s, unlocked).0)
    ensures s.timerArmed ==> ClickValid(TimerFires(s))
  {
  }

  /** `n` clicks while locked, with no pause long enough for the timer. */
  function Clicks(s: ClickState, n: nat): ClickState {
    if n == 0 then s else Click(Clicks(s, n - 1), false).0
  }

  /** From a count of zero, clicks count one by one up to six, and the
      seventh unlocks. */
  lemma {:induction false} ClicksCount(n: nat)
    requires n < TapCountRequired
    ensures Clicks(InitialClickState(), n) == ClickState(n, n > 0)
  {
    if n > 0 {
      ClicksCount(n - 1);
    }
  }

  lemma SeventhClickUnlocks()
    ensures Click(Clicks(InitialClickState(), 6), false).1 == UnlockAndNavigateLater
  {
    ClicksCount(6);
  }

  /** The page: its click state over the browser's storage. */
  class AboutPage {
    var tapCount: int
    var timerArmed: bool
    const storage: LocalStorage
    /** Navigations to the admin page, with their delay in milliseconds. */
    var navigations: seq<int>

    ghost predicate Valid()
      reads this
    {
      ClickValid(ClickState(tapCount, timerArmed))
    }

    constructor (storage: LocalStorage)
      ensures Valid()
      ensures tapCount == 0 && !timerArmed && navigations == [] && this.storage == storage
    {
      tapCount := 0;
      timerArmed := false;
      this.storage := storage;
      navigations := [];
    }

    /** `handleKaosForgeClick`. */
    method OnClick()
      requires Valid()
      modifies this, storage
      ensures Valid()
      ensures var (s, effect) := Click(ClickState(old(tapCount), old(timerArmed)),
                                       Truthy(IsAdminUnlocked(old(storage.items))));
        ClickState(tapCount, timerArmed) == s
        && (effect == NavigateNow ==> navigations == old(navigations) + [0] && storage.items == old(storage.items))
        && (effect == UnlockAndNavigateLater ==>
              navigations == old(navigations) + [NavigateDelayMs]
              && storage.items == WithAdminFlag(old(storage.items), true))
        && (effect == Counted ==> navigations == old(navigations) && storage.items == old(storage.items))
    {
      var settings := LoadAdminSettings(storage);
      if Truthy(settings.adminUnlocked) {
        navigations := navigations + [0];
        return;
      }
      var newCount := tapCount + 1;
      timerArmed := false;
      if newCount >= TapCountRequired {
        UnlockAdmin(storage);
        navigations := navigations + [NavigateDelayMs];
        tapCount := 0;
        return;
      }
      timerArmed := true;
      tapCount := newCount;
    }

    /** The pending reset timer fires. */
    method OnTimer()
      requires Valid() && timerArmed
      modifies this
      ensures Valid()
      ensures ClickState(tapCount, timerArmed) == TimerFires(old(ClickState(tapCount, timerArmed)))
      ensures navigations == old(navigations)
    {
      tapCount := 0;
      timerArmed := false;
    }
  }
}
