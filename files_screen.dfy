/** `FilesViewModel` and the file list: all results and the flagged ones
    fetched from the server, shown through one of three filters. */
module Files {
  import opened Wrappers
  import opened Seqs
  import opened Models

  datatype UiState = UiState(
    allResults: seq<ScanResult>,
    nsfwResults: seq<ScanResult>,
    isLoading: bool,
    error: Option<string>)

  /** `FilesUiState()`. */
  function InitialState(): (s: UiState)
    ensures s.allResults == [] && s.nsfwResults == [] && s.isLoading && s.error == None
  {
    UiState([], [], true, None)
  }

  /** The state once both fetches returned. The error comes from the
      all-results fetch only, and is its exception's message, which may be
      null. */
  function Refreshed(all: Result<seq<ScanResult>>, nsfw: Result<seq<ScanResult>>): UiState {
    UiState(all.GetOrDefault([]), nsfw.GetOrDefault([]), false,
            if all.Err? then all.ExceptionMessage() else None)
  }

  /** A failed flagged fetch only empties the flagged list; an error is
      shown only for a failed all-results fetch, but not every such
      failure shows one: an exception without a message leaves the error
      null. */
  lemma RefreshErrorRule(all: Result<seq<ScanResult>>, nsfw: Result<seq<ScanResult>>)
    ensures Refreshed(all, nsfw).error.Some? <==> all.Err? && all.message.Some?
    ensures nsfw.Err? ==> Refreshed(all, nsfw).nsfwResults == []
    ensures all.Err? ==> Refreshed(all, nsfw).allResults == []
    ensures !Refreshed(all, nsfw).isLoading
  {
  }

  datatype FileFilter = All | Flagged | Safe {
    function Label(): string {
      match this
      case All => "All"
      case Flagged => "Flagged"
      case Safe => "Safe"
    }
  }

  predicate IsSafe(r: ScanResult) { !r.isNsfw }

  /** `filteredFiles`. */
  function FilteredFiles(state: UiState, filter: FileFilter): seq<ScanResult> {
    match filter
    case All => state.allResults
    case Flagged => state.nsfwResults
    case Safe => Filter(IsSafe, state.allResults)
  }

  /** All shows every result as fetched, Flagged the separately fetched
      list, and Safe exactly the results not flagged, in server order. */
  lemma FilteredFilesSpec(state: UiState)
    ensures FilteredFiles(state, All) == state.allResults
    ensures FilteredFiles(state, Flagged) == state.nsfwResults
    ensures forall r :: r in FilteredFiles(state, Safe) <==> r in state.allResults && !r.isNsfw
    ensures |FilteredFiles(state, Safe)| == |state.allResults|
        <==> forall i :: 0 <= i < |state.allResults| ==> !state.allResults[i].isNsfw
  {
    FilterMembers(IsSafe, state.allResults);
    FilterKeepsAllIff(IsSafe, state.allResults);
  }

  /** What the list area shows, in order of precedence. */
  datatype View = LoadingView | ErrorView(message: string) | EmptyView | ListView(files: seq<ScanResult>)

  function ViewOf(state: UiState, filter: FileFilter): (v: View)
    ensures v.LoadingView? <==> state.isLoading
    ensures v.ErrorView? <==> !state.isLoading && state.error.Some?
    ensures v.EmptyView? <==> !state.isLoading && state.error.None? && FilteredFiles(state, filter) == []
    ensures v.ListView? ==> v.files == FilteredFiles(state, filter) != []
  {
    if state.isLoading then LoadingView
    else if state.error.Some? then ErrorView(state.error.value)
    else if FilteredFiles(state, filter) == [] then EmptyView
    else ListView(FilteredFiles(state, filter))
  }

  /** A failed all-results fetch whose exception has no message shows the
      empty state under the All filter, not an error. */
  lemma SilentFailureShowsEmpty(nsfw: Result<seq<ScanResult>>)
    ensures ViewOf(Refreshed(Err(None), nsfw), All) == EmptyView
  {
  }

  /** The second line of a file entry. */
  function Subtitle(r: ScanResult): (s: string)
    ensures s == "Organized" <==> r.actionTaken != "none" || r.filepath == "Organized"
    ensures r.actionTaken == "none" ==> s == r.filepath
  {
    if r.actionTaken != "none" then "Organized" else r.filepath
  }

  class FilesViewModel {
    var uiState: UiState
    /** The selected filter chip; All at first. */
    var selectedFilter: FileFilter

    constructor ()
      ensures uiState == InitialState() && selectedFilter == All
    {
      uiState := InitialState();
      selectedFilter := All;
    }

    method BeginRefresh()
      modifies this
      ensures uiState == old(uiState).(isLoading := true, error := None)
      ensures selectedFilter == old(selectedFilter)
    {
      uiState := uiState.(isLoading := true, error := None);
    }

    method CompleteRefresh(all: Result<seq<ScanResult>>, nsfw: Result<seq<ScanResult>>)
      modifies this
      ensures uiState == Refreshed(all, nsfw)
      ensures selectedFilter == old(selectedFilter)
    {
      var error := if all.Err? then all.message else None;
      uiState := UiState(all.GetOrDefault([]), nsfw.GetOrDefault([]), false, error);
    }

    method Refresh(all: Result<seq<ScanResult>>, nsfw: Result<seq<ScanResult>>)
      modifies this
      ensures uiState == Refreshed(all, nsfw)
      ensures selectedFilter == old(selectedFilter)
    {
      BeginRefresh();
      CompleteRefresh(all, nsfw);
    }

    method SelectFilter(filter: FileFilter)
      modifies this
      ensures selectedFilter == filter && uiState == old(uiState)
    {
      selectedFilter := filter;
    }

    /** What the screen shows for the current state and the selected
        chip: the spinner, the error text, the empty message, or the list
        the chip selects. */
    method Shown() returns (v: View)
      ensures v.LoadingView? <==> uiState.isLoading
      ensures v.ErrorView? <==> !uiState.isLoading && uiState.error.Some?
      ensures v.ErrorView? ==> v.message == uiState.error.value
      ensures v.ListView? ==> v.files != []
      ensures v.ListView? && selectedFilter == All ==> v.files == uiState.allResults
      ensures v.ListView? && selectedFilter == Flagged ==> v.files == uiState.nsfwResults
      ensures v.ListView? && selectedFilter == Safe ==>
        forall r :: r in v.files <==> r in uiState.allResults && !r.isNsfw
      ensures v.EmptyView? && selectedFilter == All ==> uiState.allResults == []
      ensures v.EmptyView? && selectedFilter == Flagged ==> uiState.nsfwResults == []
      ensures v.EmptyView? && selectedFilter == Safe ==> forall r :: r in uiState.allResults ==> r.isNsfw
    {
      FilteredFilesSpec(uiState);
      v := ViewOf(uiState, selectedFilter);
    }
  }
}
