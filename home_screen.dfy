/** `HomeViewModel`: the dashboard built from three server fetches (the
    totals, the active sessions and the flagged results), and the
    processed percentage shown beside the totals. */
module Home {
  import opened Wrappers
  import opened Text
  import opened Seqs
  import opened Models

  datatype UiState = UiState(
    stats: Stats,
    activeSession: Option<ScanSession>,
    recentFindings: seq<ScanResult>,
    isLoading: bool,
    error: Option<string>)

  /** `HomeUiState()`. */
  function InitialState(): (s: UiState)
    ensures s.stats == DefaultStats() && s.activeSession == None && s.recentFindings == []
    ensures s.isLoading && s.error == None
  {
    UiState(DefaultStats(), None, [], true, None)
  }

  const ConnectError: string := "Unable to connect to server"

  /** `takeLast(3).reversed()` over the flagged results, none when that
      fetch failed. */
  function RecentFindings(nsfw: Result<seq<ScanResult>>): seq<ScanResult> {
    Reverse(TakeLast(nsfw.GetOrDefault([]), 3))
  }

  /** The dashboard lists the newest three flagged results, newest first:
      entry `i` is the `i`-th from the end of the server's list. */
  lemma RecentFindingsSpec(nsfw: Result<seq<ScanResult>>)
    ensures var s := nsfw.GetOrDefault([]);
      |RecentFindings(nsfw)| == (if |s| < 3 then |s| else 3)
      && forall i :: 0 <= i < |RecentFindings(nsfw)| ==> RecentFindings(nsfw)[i] == s[|s| - 1 - i]
    ensures nsfw.Err? ==> RecentFindings(nsfw) == []
  {
    NewestFirst(nsfw.GetOrDefault([]));
  }

  lemma NewestFirst(s: seq<ScanResult>)
    ensures |Reverse(TakeLast(s, 3))| == (if |s| < 3 then |s| else 3)
    ensures forall i :: 0 <= i < |Reverse(TakeLast(s, 3))| ==> Reverse(TakeLast(s, 3))[i] == s[|s| - 1 - i]
  {
    var last := TakeLast(s, 3);
    forall i | 0 <= i < |Reverse(last)| ensures Reverse(last)[i] == s[|s| - 1 - i] {
      NewestAt(s, last, i);
    }
  }

  lemma NewestAt(s: seq<ScanResult>, last: seq<ScanResult>, i: nat)
    requires last == TakeLast(s, 3) && i < |last|
    ensures Reverse(last)[i] == s[|s| - 1 - i]
  {
    ReverseAt(last, i);
    var k := |last| - 1 - i;
    assert last[k] == s[|s| - |last| + k];
  }

  /** `getOrNull()?.firstOrNull()`. */
  function ActiveSession(active: Result<seq<ScanSession>>): (r: Option<ScanSession>)
    ensures r.Some? <==> active.Ok? && active.value != []
    ensures r.Some? ==> r.value == active.value[0]
  {
    match active
    case Err(_) => None
    case Ok(sessions) => if sessions == [] then None else Some(sessions[0])
  }

  /** The error shown: only when neither the totals nor the active
      sessions could be fetched. */
  function RefreshError<A, B>(stats: Result<A>, active: Result<B>): (r: Option<string>)
    ensures r.Some? <==> stats.Err? && active.Err?
    ensures r.Some? ==> r.value == ConnectError
  {
    if stats.Err? && active.Err? then Some(ConnectError) else None
  }

  /** The state once the three fetches returned. */
  function Refreshed(stats: Result<Stats>, active: Result<seq<ScanSession>>,
                     nsfw: Result<seq<ScanResult>>): UiState
  {
    UiState(stats.GetOrDefault(DefaultStats()), ActiveSession(active), RecentFindings(nsfw),
            false, RefreshError(stats, active))
  }

  /** Each part of the dashboard falls back on its own: failed totals
      show zeros, a failed session fetch shows no session, failed findings
      show none, and one working fetch out of the first two hides the
      error. */
  lemma RefreshFallbacks(stats: Result<Stats>, active: Result<seq<ScanSession>>,
                         nsfw: Result<seq<ScanResult>>)
    ensures var s := Refreshed(stats, active, nsfw);
      !s.isLoading
      && (stats.Err? ==> s.stats == DefaultStats())
      && (stats.Ok? ==> s.stats == stats.value && s.error == None)
      && (active.Ok? ==> s.error == None)
      && (nsfw.Err? ==> s.recentFindings == [])
      && |s.recentFindings| <= 3
  {
    RecentFindingsSpec(nsfw);
  }

  // ---------------------------------------------------------------------
  // The processed percentage
  // ---------------------------------------------------------------------

  const Int32Min: int := -0x8000_0000
  const Int32Max: int := 0x7FFF_FFFF

  predicate IsInt32(x: int) { Int32Min <= x <= Int32Max }

  /** Kotlin `Int` arithmetic: the result reduced to 32 bits, two's
      complement. */
  function Wrap32(x: int): (r: int)
    ensures IsInt32(r)
    ensures IsInt32(x) ==> r == x
  {
    var m := x % 0x1_0000_0000;
    if m > Int32Max then m - 0x1_0000_0000 else m
  }

  /** Kotlin integer division, truncating toward zero. */
  function TruncDiv(a: int, b: int): (r: int)
    requires b > 0
    ensures a >= 0 ==> r == a / b
    ensures a < 0 ==> r == -((-a) / b)
  {
    if a >= 0 then a / b else -((-a) / b)
  }

  /** The percentage as the dashboard computes it, in `Int`:
      `processed * 100` is taken modulo 2^32 before the division. */
  function ProcessedPercentAsWritten(stats: Stats): int
    requires IsInt32(stats.processed) && IsInt32(stats.totalFiles)
  {
    if stats.totalFiles > 0 then TruncDiv(Wrap32(stats.processed * 100), stats.totalFiles) else 0
  }

  /** With more than 21474836 processed files the product leaves the
      32-bit range and a fully processed scan shows as -99%. */
  lemma PercentOverflows()
    ensures ProcessedPercentAsWritten(Stats(21474837, 0, 21474837)) == -99
  {
    assert Wrap32(2147483700) == -2147483596;
    assert TruncDiv(-2147483596, 21474837) == -99;
  }

  /** The percentage of processed files, rounded toward zero, with the
      product computed without overflow; "0%" for an empty scan. */
  function ProcessedPercent(stats: Stats): int {
    if stats.totalFiles > 0 then TruncDiv(stats.processed * 100, stats.totalFiles) else 0
  }

  /** The figure the dashboard shows, e.g. "42%", from the `Int`
      arithmetic as written: it is the true percentage wherever the
      product does not overflow, and "0%" for an empty scan. */
  function ProcessedLabel(stats: Stats): (r: string)
    requires IsInt32(stats.processed) && IsInt32(stats.totalFiles)
    ensures |r| >= 2 && r[|r| - 1] == '%'
    ensures stats.totalFiles <= 0 ==> r == "0%"
    ensures IsInt32(stats.processed * 100) ==> r == IntToString(ProcessedPercent(stats)) + "%"
  {
    var shown := ProcessedPercentAsWritten(stats);
    assert IsInt32(stats.processed * 100) ==> shown == ProcessedPercent(stats) by {
      if IsInt32(stats.processed * 100) {
        PercentAgreesWithoutOverflow(stats);
      }
    }
    assert IntToString(0) == "0";
    IntToString(shown) + "%"
  }

  /** The overflowing scan of `PercentOverflows` is labelled "-99%". */
  lemma OverflowLabel()
    ensures ProcessedLabel(Stats(21474837, 0, 21474837)) == "-99%"
  {
    PercentOverflows();
    assert IntToString(-99) == "-99";
  }

  /** For totals the server can report (nothing processed beyond the
      total), the percentage lies in 0..100, is 100 exactly when every
      file is processed, and is 0 for an empty scan. */
  lemma ProcessedPercentBounds(stats: Stats)
    requires 0 <= stats.processed <= stats.totalFiles || stats.totalFiles <= 0
    ensures 0 <= ProcessedPercent(stats) <= 100
    ensures stats.totalFiles > 0 ==> (ProcessedPercent(stats) == 100 <==> stats.processed == stats.totalFiles)
    ensures stats.totalFiles <= 0 ==> ProcessedPercent(stats) == 0
  {
    if stats.totalFiles > 0 {
      PercentOfPositive(stats.processed, stats.totalFiles);
    }
  }

  /** The quotient behind the percentage for a positive total. */
  lemma PercentOfPositive(p: int, t: int)
    requires 0 <= p <= t && 0 < t
    ensures 0 <= (p * 100) / t <= 100
    ensures (p * 100) / t == 100 <==> p == t
  {
    var x := p * 100;
    if p < t {
      assert x < 100 * t;
      DivBelow(x, t, 100);
    } else {
      assert x == t * 100;
      DivExact(t, 100);
    }
  }

  /** Below `k * t`, a quotient by `t` stays below `k`. */
  lemma DivBelow(x: int, t: int, k: int)
    requires 0 <= x < k * t && t > 0
    ensures x / t < k
  {
  }

  lemma DivExact(t: int, k: int)
    requires t > 0
    ensures (t * k) / t == k
  {
    var q, r := (t * k) / t, (t * k) % t;
    assert (k - q) * t == r;
    if k - q >= 1 {
      MulAtLeast(k - q, t);
    } else if k - q <= -1 {
      MulAtLeast(q - k, t);
    }
  }

  lemma MulAtLeast(a: int, t: int)
    requires a >= 1 && t > 0
    ensures a * t >= t
  {
  }

  /** Wherever the product stays within 32 bits the dashboard's figure is
      the intended one. */
  lemma PercentAgreesWithoutOverflow(stats: Stats)
    requires IsInt32(stats.processed) && IsInt32(stats.totalFiles)
    requires IsInt32(stats.processed * 100)
    ensures ProcessedPercentAsWritten(stats) == ProcessedPercent(stats)
  {
  }

  class HomeViewModel {
    var uiState: UiState

    constructor ()
      ensures uiState == InitialState()
    {
      uiState := InitialState();
    }

    /** The first half of `refresh`: loading, error cleared, the rest of
        the dashboard kept on screen. */
    method BeginRefresh()
      modifies this
      ensures uiState == old(uiState).(isLoading := true, error := None)
    {
      uiState := uiState.(isLoading := true, error := None);
    }

    /** The second half of `refresh`, once the three fetches returned:
        every field is replaced. */
    method CompleteRefresh(stats: Result<Stats>, active: Result<seq<ScanSession>>,
                           nsfw: Result<seq<ScanResult>>)
      modifies this
      ensures uiState == Refreshed(stats, active, nsfw)
    {
      uiState := uiState.(stats := stats.GetOrDefault(DefaultStats()),
                          activeSession := ActiveSession(active),
                          recentFindings := RecentFindings(nsfw),
                          isLoading := false,
                          error := RefreshError(stats, active));
    }

    method Refresh(stats: Result<Stats>, active: Result<seq<ScanSession>>,
                   nsfw: Result<seq<ScanResult>>)
      modifies this
      ensures uiState == Refreshed(stats, active, nsfw)
    {
      BeginRefresh();
      CompleteRefresh(stats, active, nsfw);
    }
  }
}
