/** `OsintSearchViewModel`: the state behind the username search and the
    OSINT Industries lookup. The search job is modelled by the sites it
    still has to emit; each `Step` is one result collected from the
    repository's stream, or the end of the stream. */
module OsintSearch {
  import opened Wrappers
  import opened Seqs
  import opened Models
  import opened OsintRepository

  /** A site carries at least one of the selected tags. */
  predicate HasSelectedTag(site: MaigretSite, selectedTags: set<string>) {
    exists t :: t in site.tags && t in selectedTags
  }

  /** The sites a search covers: all loaded sites when no tag is selected,
      otherwise those carrying at least one selected tag, compared exactly. */
  function SelectSites(loaded: seq<MaigretSite>, selectedTags: set<string>): (r: seq<MaigretSite>)
    ensures |r| <= |loaded|
  {
    if selectedTags == {} then loaded
    else Filter((s: MaigretSite) => HasSelectedTag(s, selectedTags), loaded)
  }

  /** No selected tag selects the whole list; otherwise a site is selected
      exactly when it carries a selected tag, in list order. */
  lemma SelectSitesSpec(loaded: seq<MaigretSite>, selectedTags: set<string>)
    ensures selectedTags == {} ==> SelectSites(loaded, selectedTags) == loaded
    ensures selectedTags != {} ==>
      SelectSites(loaded, selectedTags)
      == Filter((s: MaigretSite) => HasSelectedTag(s, selectedTags), loaded)
    ensures forall s :: s in SelectSites(loaded, selectedTags) <==>
      (s in loaded && (selectedTags == {} || HasSelectedTag(s, selectedTags)))
  {
    FilterMembers((s: MaigretSite) => HasSelectedTag(s, selectedTags), loaded);
  }

  predicate IsFound(r: UsernameCheckResult) { r.status == FOUND }

  /** The counter shown as "found". */
  function FoundCount(results: seq<UsernameCheckResult>): nat {
    Count(IsFound, results)
  }

  /** The progress counter reaches the number of selected sites only when
      every selected site has a "{username}" template: the others are
      dropped by the repository and never reported. */
  lemma CheckedReachesTotalIff(net: Network, username: string, sites: seq<MaigretSite>)
    ensures |CheckUsernameBatch(net, username, sites)| == |sites|
        <==> forall i :: 0 <= i < |sites| ==> Templated(sites[i])
  {
    FilterKeepsAllIff(Templated, sites);
  }

  /** Result `i` is the probe of target `i` for `username`. */
  ghost predicate ResultsMatch(results: seq<UsernameCheckResult>, targets: seq<MaigretSite>,
                               username: string)
  {
    |results| <= |targets|
    && forall i :: 0 <= i < |results| ==>
         results[i].site == targets[i] && results[i].url == ProbeUrl(username, targets[i])
  }

  /** The OSINT Industries response, passed through as received. */
  type JsonObject = string

  class OsintSearchViewModel {
    var usernameResults: seq<UsernameCheckResult>
    var isSearching: bool
    var totalSites: int
    var checkedCount: int
    var foundCount: int

    /** The search job: whether it runs, the username it probes and the
        target sites it has not emitted yet. */
    var jobActive: bool
    var jobUsername: string
    var pending: seq<MaigretSite>
    /** All target sites of the last search, in emission order. */
    ghost var targets: seq<MaigretSite>

    var osintResult: Option<JsonObject>
    var osintLoading: bool
    var osintError: Option<string>

    ghost predicate Valid()
      reads this
    {
      SearchValid() && LookupValid()
    }

    /** The counters agree with the results; the results are the probes
        of a prefix of the targets, and a running job still owes exactly
        the rest. */
    ghost predicate SearchValid()
      reads this
    {
      checkedCount == |usernameResults|
      && foundCount == FoundCount(usernameResults)
      && |usernameResults| + |pending| <= |targets| <= totalSites
      && (isSearching <==> jobActive)
      && (jobActive ==> pending == targets[|usernameResults|..])
      && (!jobActive ==> pending == [])
      && ResultsMatch(usernameResults, targets, jobUsername)
    }

    /** Never both a lookup result and an error; neither while loading. */
    ghost predicate LookupValid()
      reads this
    {
      !(osintResult.Some? && osintError.Some?)
      && (osintLoading ==> osintResult.None? && osintError.None?)
    }

    constructor ()
      ensures Valid()
      ensures usernameResults == [] && !isSearching && totalSites == 0
      ensures checkedCount == 0 && foundCount == 0
      ensures osintResult == None && !osintLoading && osintError == None
    {
      usernameResults := [];
      isSearching := false;
      totalSites := 0;
      checkedCount := 0;
      foundCount := 0;
      jobActive := false;
      jobUsername := "";
      pending := [];
      targets := [];
      osintResult := None;
      osintLoading := false;
      osintError := None;
    }

    /** `searchUsername`: cancels the running job, clears the results and
        counters, selects the sites and starts a job over their templated
        ones. */
    method SearchUsername(username: string, selectedTags: set<string>, loaded: seq<MaigretSite>)
      requires Valid()
      modifies this
      ensures Valid()
      ensures usernameResults == [] && isSearching
      ensures checkedCount == 0 && foundCount == 0
      ensures totalSites == |SelectSites(loaded, selectedTags)|
      ensures jobActive && jobUsername == username
      ensures pending == targets == Filter(Templated, SelectSites(loaded, selectedTags))
      ensures osintResult == old(osintResult) && osintLoading == old(osintLoading)
      ensures osintError == old(osintError)
    {
      ClearSearch();
      Launch(username, SelectSites(loaded, selectedTags));
    }

    /** The first half of `searchUsername`: the old job is cancelled and
        the results and counters emptied. */
    method ClearSearch()
      requires Valid()
      modifies this
      ensures Valid()
      ensures usernameResults == [] && checkedCount == 0 && foundCount == 0 && !jobActive
      ensures osintResult == old(osintResult) && osintLoading == old(osintLoading)
      ensures osintError == old(osintError)
    {
      jobActive, pending, isSearching := false, [], false;
      usernameResults, checkedCount, foundCount := [], 0, 0;
      assert FoundCount([]) == 0;
    }

    /** The second half: the job over the templated sites among `sites`
        is launched. */
    method Launch(username: string, sites: seq<MaigretSite>)
      requires Valid() && usernameResults == [] && checkedCount == 0 && foundCount == 0
      modifies this
      ensures Valid()
      ensures usernameResults == [] && isSearching && checkedCount == 0 && foundCount == 0
      ensures totalSites == |sites| && jobActive && jobUsername == username
      ensures pending == targets == Filter(Templated, sites)
      ensures osintResult == old(osintResult) && osintLoading == old(osintLoading)
      ensures osintError == old(osintError)
    {
      var t := Filter(Templated, sites);
      totalSites, targets, pending := |sites|, t, t;
      jobUsername, jobActive, isSearching := username, true, true;
      FreshSearchValid();
    }

    /** A search that has just started, owing every target, is valid. */
    lemma FreshSearchValid()
      requires usernameResults == [] && checkedCount == 0 && foundCount == 0
      requires |targets| <= totalSites && pending == targets && jobActive && isSearching
      requires LookupValid()
      ensures Valid()
    {
      assert targets[|usernameResults|..] == targets;
      assert FoundCount(usernameResults) == 0;
      assert ResultsMatch(usernameResults, targets, jobUsername);
    }

    /** One event of the running job: the next probe result is appended
        and counted, or, when none is left, the stream ends and the search
        stops. Nothing happens once the job is gone. */
    method Step(net: Network)
      requires Valid()
      modifies this
      ensures Valid()
      ensures targets == old(targets) && totalSites == old(totalSites)
      ensures jobUsername == old(jobUsername)
      ensures !old(jobActive) ==> usernameResults == old(usernameResults) && !jobActive
      ensures old(jobActive) && old(pending) == [] ==>
        usernameResults == old(usernameResults) && !jobActive && !isSearching
      ensures old(jobActive) && old(pending) != [] ==>
        var r := CheckSingleSite(net, jobUsername, old(pending)[0]).result;
        usernameResults == old(usernameResults) + [r]
        && foundCount == old(foundCount) + (if r.status == FOUND then 1 else 0)
        && pending == old(pending)[1..] && jobActive
      ensures osintResult == old(osintResult) && osintLoading == old(osintLoading)
      ensures osintError == old(osintError)
    {
      if !jobActive {
        return;
      }
      if pending == [] {
        EndStream();
      } else {
        Collect(CheckSingleSite(net, jobUsername, pending[0]).result);
      }
    }

    /** The stream is exhausted: the job ends and the search stops. */
    method EndStream()
      requires Valid() && jobActive && pending == []
      modifies this
      ensures Valid()
      ensures !jobActive && !isSearching
      ensures usernameResults == old(usernameResults) && foundCount == old(foundCount)
      ensures targets == old(targets) && totalSites == old(totalSites) && jobUsername == old(jobUsername)
      ensures osintResult == old(osintResult) && osintLoading == old(osintLoading)
      ensures osintError == old(osintError)
    {
      isSearching, jobActive := false, false;
    }

    /** One emitted result `r`, the probe of the next pending site: it is
        appended, counted, and the site leaves the pending list. */
    method Collect(r: UsernameCheckResult)
      requires Valid() && jobActive && pending != []
      requires r.site == pending[0] && r.url == ProbeUrl(jobUsername, pending[0])
      modifies this
      ensures Valid()
      ensures usernameResults == old(usernameResults) + [r]
      ensures foundCount == old(foundCount) + (if r.status == FOUND then 1 else 0)
      ensures pending == old(pending)[1..] && jobActive
      ensures targets == old(targets) && totalSites == old(totalSites) && jobUsername == old(jobUsername)
      ensures osintResult == old(osintResult) && osintLoading == old(osintLoading)
      ensures osintError == old(osintError)
    {
      CountSnoc(IsFound, usernameResults, r);
      usernameResults := usernameResults + [r];
      checkedCount := |usernameResults|;
      if r.status == FOUND {
        foundCount := foundCount + 1;
      }
      pending := pending[1..];
    }

    /** A search left to run until its stream ends reports exactly the
        repository's batch result for the selected sites, in order, with
        both counters matching it. */
    method SearchToCompletion(net: Network, username: string, selectedTags: set<string>,
                              loaded: seq<MaigretSite>)
      requires Valid()
      modifies this
      ensures Valid()
      ensures usernameResults == CheckUsernameBatch(net, username, SelectSites(loaded, selectedTags))
      ensures checkedCount == |usernameResults| <= totalSites
      ensures totalSites == |SelectSites(loaded, selectedTags)|
      ensures foundCount == FoundCount(usernameResults)
      ensures !isSearching
    {
      SearchUsername(username, selectedTags, loaded);
      ghost var batch := CheckUsernameBatch(net, username, SelectSites(loaded, selectedTags));
      while jobActive
        invariant Valid()
        invariant jobUsername == username
        invariant targets == Filter(Templated, SelectSites(loaded, selectedTags))
        invariant totalSites == |SelectSites(loaded, selectedTags)|
        invariant jobActive ==> usernameResults == batch[..|usernameResults|]
        invariant !jobActive ==> usernameResults == batch
        decreases |pending| + (if jobActive then 1 else 0)
      {
        Step(net);
      }
    }

    /** `cancelSearch`: the job stops; results so far stay. */
    method CancelSearch()
      requires Valid()
      modifies this
      ensures Valid()
      ensures !isSearching && !jobActive
      ensures usernameResults == old(usernameResults)
      ensures checkedCount == old(checkedCount) && foundCount == old(foundCount)
      ensures totalSites == old(totalSites)
      ensures osintResult == old(osintResult) && osintLoading == old(osintLoading)
      ensures osintError == old(osintError)
    {
      jobActive := false;
      pending := [];
      isSearching := false;
    }

    /** `searchOsintIndustries`, up to the launch: loading, with the
        previous result and error cleared. */
    method SearchOsintIndustries()
      requires Valid()
      modifies this
      ensures Valid()
      ensures osintLoading && osintResult == None && osintError == None
      ensures usernameResults == old(usernameResults) && isSearching == old(isSearching)
    {
      osintLoading := true;
      osintError := None;
      osintResult := None;
    }

    /** The end of the launched lookup: the result or the error message
        ("Unknown error" when the exception has none) is stored, and
        loading stops. The search button is disabled while loading, so
        at most one lookup is in flight. */
    method CompleteOsintIndustries(outcome: Result<JsonObject>)
      requires Valid()
      requires osintLoading
      modifies this
      ensures Valid()
      ensures !osintLoading
      ensures outcome.Ok? ==> osintResult == Some(outcome.value) && osintError == None
      ensures outcome.Err? ==>
        osintResult == None && osintError == Some(outcome.message.GetOr("Unknown error"))
      ensures usernameResults == old(usernameResults) && isSearching == old(isSearching)
    {
      osintLoading := false;
      match outcome
      case Ok(payload) =>
        osintResult := Some(payload);
      case Err(message) =>
        osintError := Some(message.GetOr("Unknown error"));
    }
  }
}
