/** The hidden admin unlock of the Android About screen: seven taps on
    the logo, each within three seconds of the one before, unlock the admin
    panel. The clock is a parameter: each tap carries its time in
    milliseconds. */
module AboutUnlock {

  const TapsRequired: int := 7
  const TapWindowMs: int := 3000

  /** The remembered tap counter and the time of the last tap (0 before
      the first one). */
  datatype TapState = TapState(tapCount: int, lastTapTime: int)

  function InitialTapState(): TapState { TapState(0, 0) }

  /** What a tap does besides updating the counter: unlock, show how
      many taps remain, or nothing. */
  datatype TapEffect = Unlock | RemainingHint(remaining: int) | NoEffect

  datatype TapOutcome = TapOutcome(state: TapState, effect: TapEffect)

  /** The logo's click handler. */
  function Tap(s: TapState, now: int): (r: TapOutcome)
    ensures r.state.lastTapTime == now
    ensures r.effect.Unlock? <==>
      (if now - s.lastTapTime > TapWindowMs then 1 else s.tapCount + 1) >= TapsRequired
    ensures r.effect.Unlock? ==> r.state.tapCount == 0
    ensures r.effect.RemainingHint? ==> r.effect.remaining == TapsRequired - r.state.tapCount
  {
    var count := if now - s.lastTapTime > TapWindowMs then 1 else s.tapCount + 1;
    if count >= TapsRequired then TapOutcome(TapState(0, now), Unlock)
    else if count >= 4 then TapOutcome(TapState(count, now), RemainingHint(TapsRequired - count))
    else TapOutcome(TapState(count, now), NoEffect)
  }

  /** The counter stays within 0..6 between taps, and the hint, shown
      from the fourth tap on, counts down 3, 2, 1. */
  lemma TapKeepsRange(s: TapState, now: int)
    requires 0 <= s.tapCount < TapsRequired
    ensures 0 <= Tap(s, now).state.tapCount < TapsRequired
    ensures Tap(s, now).effect.RemainingHint? <==> 4 <= Tap(s, now).state.tapCount <= 6
    ensures Tap(s, now).effect.RemainingHint? ==> 1 <= Tap(s, now).effect.remaining <= 3
    ensures Tap(s, now).effect.Unlock? ==> s.tapCount == 6 && now - s.lastTapTime <= TapWindowMs
  {
  }

  /** The state after taps at the given times, from the initial state. */
  function Run(times: seq<int>): TapState
  {
    if times == [] then InitialTapState()
    else Tap(Run(times[..|times| - 1]), times[|times| - 1]).state
  }

  /** The last `n` taps form a run: each of them after the first came
      within the window of the one before. */
  predicate QuickRun(times: seq<int>, n: nat) {
    n <= |times|
    && forall k :: |times| - n < k < |times| ==> times[k] - times[k - 1] <= TapWindowMs
  }

  /** After any taps, the counter is the length of a run of quick taps
      ending with the last tap, in 0..6, and the time of the last tap is
      remembered. */
  lemma {:induction false} RunInvariant(times: seq<int>)
    ensures 0 <= Run(times).tapCount < TapsRequired
    ensures QuickRun(times, Run(times).tapCount)
    ensures Run(times).lastTapTime == if times == [] then 0 else times[|times| - 1]
  {
    if times != [] {
      var prefix := times[..|times| - 1];
      var now := times[|times| - 1];
      RunInvariant(prefix);
      var s := Run(prefix);
      var c := Run(times).tapCount;
      if now - s.lastTapTime <= TapWindowMs && s.tapCount + 1 < TapsRequired {
        assert c == s.tapCount + 1;
        forall k | |times| - c < k < |times|
          ensures times[k] - times[k - 1] <= TapWindowMs
        {
          if k < |times| - 1 {
            assert times[k] == prefix[k] && times[k - 1] == prefix[k - 1];
          } else {
            assert prefix != [];
          }
        }
      }
    }
  }

  /** Only seven quick taps unlock: when a tap unlocks, it and the six
      taps before it were each within the window of their predecessor. */
  lemma UnlockNeedsSevenQuickTaps(times: seq<int>, now: int)
    requires Tap(Run(times), now).effect.Unlock?
    ensures QuickRun(times + [now], 7)
  {
    RunInvariant(times);
    var all := times + [now];
    TapKeepsRange(Run(times), now);
    assert times != [];
    forall k | |all| - 7 < k < |all|
      ensures all[k] - all[k - 1] <= TapWindowMs
    {
      if k < |all| - 1 {
        assert all[k] == times[k] && all[k - 1] == times[k - 1];
      }
    }
  }

  /** A run of up to six quick taps from the start counts them all; the
      first tap always counts 1, since the counter starts at 0. */
  lemma {:induction false} QuickTapsCount(times: seq<int>)
    requires 1 <= |times| < TapsRequired
    requires QuickRun(times, |times|)
    ensures Run(times).tapCount == |times|
  {
    var prefix := times[..|times| - 1];
    if |prefix| >= 1 {
      assert QuickRun(prefix, |prefix|) by {
        forall k | |prefix| - |prefix| < k < |prefix|
          ensures prefix[k] - prefix[k - 1] <= TapWindowMs
        {
          assert prefix[k] == times[k] && prefix[k - 1] == times[k - 1];
        }
      }
      QuickTapsCount(prefix);
      RunInvariant(prefix);
    }
  }

  /** Seven quick taps from the start unlock on the seventh. */
  lemma SevenQuickTapsUnlock(times: seq<int>, now: int)
    requires |times| == 6 && QuickRun(times + [now], 7)
    ensures Tap(Run(times), now).effect.Unlock?
  {
    var all := times + [now];
    assert QuickRun(times, 6) by {
      forall k | 0 < k < 6 ensures times[k] - times[k - 1] <= TapWindowMs {
        assert all[k] == times[k] && all[k - 1] == times[k - 1];
      }
    }
    QuickTapsCount(times);
    RunInvariant(times);
    assert all[6] - all[5] <= TapWindowMs;
  }

  /** The screen's tap handler with the admin flag it sets in the app
      settings and the unlock callback it invokes. */
  class AboutLogo {
    var tapCount: int
    var lastTapTime: int
    /** The persisted admin-unlocked setting. */
    var adminUnlocked: bool
    /** How often the unlock callback has been invoked. */
    var unlockCallbacks: nat

    ghost predicate Valid()
      reads this
    {
      0 <= tapCount < TapsRequired
    }

    constructor (adminUnlocked: bool)
      ensures Valid()
      ensures tapCount == 0 && lastTapTime == 0
      ensures this.adminUnlocked == adminUnlocked && unlockCallbacks == 0
    {
      tapCount := 0;
      lastTapTime := 0;
      this.adminUnlocked := adminUnlocked;
      unlockCallbacks := 0;
    }

    /** One tap at time `now`. */
    method OnClick(now: int) returns (effect: TapEffect)
      requires Valid()
      modifies this
      ensures Valid()
      ensures TapOutcome(TapState(tapCount, lastTapTime), effect)
           == Tap(TapState(old(tapCount), old(lastTapTime)), now)
      ensures effect.Unlock? ==> adminUnlocked && unlockCallbacks == old(unlockCallbacks) + 1
      ensures !effect.Unlock? ==>
        adminUnlocked == old(adminUnlocked) && unlockCallbacks == old(unlockCallbacks)
    {
      if now - lastTapTime > TapWindowMs {
        tapCount := 1;
      } else {
        tapCount := tapCount + 1;
      }
      lastTapTime := now;
      if tapCount >= TapsRequired {
        tapCount := 0;
        adminUnlocked := true;
        unlockCallbacks := unlockCallbacks + 1;
        effect := Unlock;
      } else if tapCount >= 4 {
        effect := RemainingHint(TapsRequired - tapCount);
      } else {
        effect := NoEffect;
      }
    }
  }
}
