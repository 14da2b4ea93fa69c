/** `ScanLandingViewModel`: the page of one scan session, its first
    flagged files, and the pause/resume/stop controls. Server answers are
    parameters; a control returns the status update it asks the server
    for. */
module ScanLanding {
  import opened Wrappers
  import opened Seqs
  import opened Models

  datatype UiState = UiState(
    session: Option<ScanSession>,
    flaggedResults: seq<ScanResult>,
    isLoading: bool,
    error: Option<string>)

  /** `ScanLandingUiState()`: nothing loaded, loading. */
  function InitialState(): (s: UiState)
    ensures s.session == None && s.flaggedResults == [] && s.isLoading && s.error == None
  {
    UiState(None, [], true, None)
  }

  predicate IsNsfw(r: ScanResult) { r.isNsfw }

  /** At most ten flagged results, each one NSFW. */
  predicate FlaggedValid(state: UiState) {
    |state.flaggedResults| <= 10
    && forall i :: 0 <= i < |state.flaggedResults| ==> state.flaggedResults[i].isNsfw
  }

  /** `filter { it.isNsfw }.take(10)` over the fetched results, none when
      that fetch failed. */
  function Flagged(results: Result<seq<ScanResult>>): seq<ScanResult> {
    Take(Filter(IsNsfw, results.GetOrDefault([])), 10)
  }

  /** The flagged list is the first ten NSFW results in server order: no
      more than ten, all NSFW, a prefix of the NSFW results, and as many
      of them as there are, up to ten. */
  lemma FlaggedSpec(results: Result<seq<ScanResult>>)
    ensures |Flagged(results)| <= 10
    ensures var nsfw := Filter(IsNsfw, results.GetOrDefault([]));
      |Flagged(results)| == if |nsfw| < 10 then |nsfw| else 10
    ensures Flagged(results) <= Filter(IsNsfw, results.GetOrDefault([]))
    ensures forall i :: 0 <= i < |Flagged(results)| ==> Flagged(results)[i].isNsfw
    ensures results.Err? ==> Flagged(results) == []
  {
    var all := Filter(IsNsfw, results.GetOrDefault([]));
    FilterMembers(IsNsfw, results.GetOrDefault([]));
    forall i | 0 <= i < |Flagged(results)| ensures Flagged(results)[i].isNsfw {
      assert Flagged(results)[i] == all[i];
      assert all[i] in all;
    }
  }

  /** The state once both fetches returned: the error is that of the
      session fetch only. */
  function Refreshed(session: Result<ScanSession>, results: Result<seq<ScanResult>>): UiState {
    UiState(session.GetOrNull(), Flagged(results), false, session.ExceptionMessage())
  }

  /** A failed result fetch leaves an empty flagged list and no error; the
      error is set only by a failed session fetch, with its message. */
  lemma RefreshErrorRule(session: Result<ScanSession>, results: Result<seq<ScanResult>>)
    ensures Refreshed(session, results).error.Some? ==> session.Err?
    ensures session.Ok? ==> Refreshed(session, results).error == None
    ensures results.Err? ==> Refreshed(session, results).flaggedResults == []
    ensures !Refreshed(session, results).isLoading
    ensures FlaggedValid(Refreshed(session, results))
  {
    FlaggedSpec(results);
  }

  /** The status `pauseResume` asks for: "active" pauses, anything else
      resumes. */
  function ToggledStatus(status: string): (r: string)
    ensures r == "paused" <==> status == "active"
    ensures r == "active" || r == "paused"
  {
    if status == "active" then "paused" else "active"
  }

  /** Pausing and resuming undo each other on the two states the controls
      are shown in; a session in any other state is switched to active and
      then toggles between the two. */
  lemma ToggleTwice(status: string)
    ensures status == "active" || status == "paused" ==> ToggledStatus(ToggledStatus(status)) == status
    ensures status != "active" ==> ToggledStatus(ToggledStatus(status)) == "paused"
  {
  }

  /** Pause and Stop are shown only for an active or paused session. */
  predicate ShowControls(session: ScanSession) {
    session.status == "active" || session.status == "paused"
  }

  /** The offer to organise flagged files: a completed scan that flagged
      something. */
  predicate ShowOrganizePrompt(session: ScanSession) {
    session.status == "completed" && session.nsfwFound > 0
  }

  /** The controls and the organise offer never show together. */
  lemma ControlsExcludeOrganizePrompt(session: ScanSession)
    ensures !(ShowControls(session) && ShowOrganizePrompt(session))
  {
  }

  /** What the screen shows, in order of precedence. */
  datatype View = LoadingView | ErrorView(message: string) | SessionView(session: ScanSession)

  function ViewOf(state: UiState): (v: View)
    ensures v.LoadingView? <==> state.isLoading
    ensures v.ErrorView? <==> !state.isLoading && state.session.None?
    ensures v.ErrorView? && state.error.None? ==> v.message == "Session not found"
  {
    if state.isLoading then LoadingView
    else if state.session.None? then ErrorView(state.error.GetOr("Session not found"))
    else SessionView(state.session.value)
  }

  /** A status update sent to the server. */
  datatype StatusUpdate = StatusUpdate(sessionId: int, status: string)

  class ScanLandingViewModel {
    var uiState: UiState
    var sessionId: int

    ghost predicate Valid()
      reads this
    {
      FlaggedValid(uiState)
    }

    constructor ()
      ensures Valid()
      ensures uiState == InitialState() && sessionId == 0
    {
      uiState := InitialState();
      sessionId := 0;
    }

    /** The first half of `refresh`: the loading indicator is raised only
        while no session has been loaded. */
    method BeginRefresh()
      requires Valid()
      modifies this
      ensures Valid()
      ensures uiState == old(uiState).(isLoading := old(uiState).session.None?)
      ensures sessionId == old(sessionId)
    {
      uiState := uiState.(isLoading := uiState.session == None);
    }

    /** The second half of `refresh`, once both fetches returned. */
    method CompleteRefresh(session: Result<ScanSession>, results: Result<seq<ScanResult>>)
      modifies this
      ensures Valid()
      ensures uiState == Refreshed(session, results)
      ensures sessionId == old(sessionId)
    {
      RefreshErrorRule(session, results);
      uiState := Refreshed(session, results);
    }

    /** `refresh` run to completion. */
    method Refresh(session: Result<ScanSession>, results: Result<seq<ScanResult>>)
      requires Valid()
      modifies this
      ensures Valid()
      ensures uiState == Refreshed(session, results)
      ensures sessionId == old(sessionId)
    {
      BeginRefresh();
      CompleteRefresh(session, results);
    }

    /** `loadSession`. */
    method LoadSession(id: int, session: Result<ScanSession>, results: Result<seq<ScanResult>>)
      requires Valid()
      modifies this
      ensures Valid()
      ensures sessionId == id && uiState == Refreshed(session, results)
    {
      sessionId := id;
      Refresh(session, results);
    }

    /** `pauseResume`: without a loaded session nothing happens; otherwise
        the toggled status is requested and the page refreshed with the
        server's new answers. */
    method PauseResume(session: Result<ScanSession>, results: Result<seq<ScanResult>>)
      returns (update: Option<StatusUpdate>)
      requires Valid()
      modifies this
      ensures Valid()
      ensures old(uiState).session.None? ==> update == None && uiState == old(uiState)
      ensures old(uiState).session.Some? ==>
        update == Some(StatusUpdate(sessionId, ToggledStatus(old(uiState).session.value.status)))
        && uiState == Refreshed(session, results)
      ensures sessionId == old(sessionId)
    {
      if uiState.session.None? {
        return None;
      }
      var newStatus := if uiState.session.value.status == "active" then "paused" else "active";
      update := Some(StatusUpdate(sessionId, newStatus));
      Refresh(session, results);
    }

    /** `stopScan`: "completed" is requested whatever the current status,
        then the page is refreshed. */
    method StopScan(session: Result<ScanSession>, results: Result<seq<ScanResult>>)
      returns (update: StatusUpdate)
      requires Valid()
      modifies this
      ensures Valid()
      ensures update == StatusUpdate(sessionId, "completed")
      ensures uiState == Refreshed(session, results)
      ensures sessionId == old(sessionId)
    {
      update := StatusUpdate(sessionId, "completed");
      Refresh(session, results);
    }
  }
}
