/** `EnvironmentChecker`: six start-up checks and the report summarising
    them. Platform answers (SDK level, granted permissions, connectivity,
    settings) and HTTP outcomes are parameters. */
module Environment {
  import opened Wrappers
  import opened Text
  import opened Seqs
  import opened Models
  import OsintRepository
  import SiteLoader

  datatype CheckResult = CheckResult(name: string, passed: bool, detail: string)

  /** The report with its three derived fields, which the Kotlin class
      computes as constructor defaults from `checks`. */
  datatype EnvironmentReport = EnvironmentReport(
    checks: seq<CheckResult>,
    allPassed: bool,
    passedCount: int,
    totalCount: int)

  predicate Passed(c: CheckResult) { c.passed }

  /** `checks.all { it.passed }`. */
  predicate AllPassed(checks: seq<CheckResult>) {
    checks == [] || (checks[0].passed && AllPassed(checks[1..]))
  }

  lemma {:induction false} AllPassedIff(checks: seq<CheckResult>)
    ensures AllPassed(checks) <==> forall i :: 0 <= i < |checks| ==> checks[i].passed
  {
    if checks != [] {
      AllPassedIff(checks[1..]);
      assert forall i :: 1 <= i < |checks| ==> checks[i] == checks[1..][i - 1];
    }
  }

  /** `EnvironmentReport(checks)`. */
  function MakeReport(checks: seq<CheckResult>): (r: EnvironmentReport)
    ensures r.checks == checks
  {
    EnvironmentReport(checks, AllPassed(checks), Count(Passed, checks), |checks|)
  }

  /** The derived fields agree: every check passed exactly when the
      passed count is the total, and the count never exceeds the total. */
  lemma ReportConsistent(checks: seq<CheckResult>)
    ensures var r := MakeReport(checks);
      0 <= r.passedCount <= r.totalCount
      && (r.allPassed <==> forall i :: 0 <= i < |checks| ==> checks[i].passed)
      && (r.allPassed <==> r.passedCount == r.totalCount)
  {
    AllPassedIff(checks);
    FilterKeepsAllIff(Passed, checks);
  }

  // ---------------------------------------------------------------------
  // Permissions
  // ---------------------------------------------------------------------

  /** Android 13, from which media and notification permissions apply. */
  const Tiramisu: int := 33

  datatype Permission = ReadMediaImages | ReadMediaVideo | PostNotifications | ReadExternalStorage {
    function Name(): string {
      match this
      case ReadMediaImages => "READ_MEDIA_IMAGES"
      case ReadMediaVideo => "READ_MEDIA_VIDEO"
      case PostNotifications => "POST_NOTIFICATIONS"
      case ReadExternalStorage => "READ_EXTERNAL_STORAGE"
    }
  }

  /** `getRequiredPermissions`. */
  function RequiredPermissions(sdk: int): (r: seq<Permission>)
    ensures sdk >= Tiramisu ==> |r| == 3 && ReadExternalStorage !in r
    ensures sdk < Tiramisu ==> r == [ReadExternalStorage]
  {
    if sdk >= Tiramisu then [ReadMediaImages, ReadMediaVideo, PostNotifications]
    else [ReadExternalStorage]
  }

  /** The names of the required permissions not granted, in order. */
  function MissingNames(required: seq<Permission>, granted: set<Permission>): (r: seq<string>)
    ensures r == [] <==> forall i :: 0 <= i < |required| ==> required[i] in granted
  {
    if required == [] then []
    else
      (if required[0] in granted then [] else [required[0].Name()])
      + MissingNames(required[1..], granted)
  }

  /** `checkPermissions`: passes exactly when every permission the SDK
      level requires is granted; otherwise lists the missing ones. */
  method CheckPermissions(sdk: int, granted: set<Permission>) returns (r: CheckResult)
    ensures r.name == "Permissions"
    ensures r.passed <==> forall p :: p in RequiredPermissions(sdk) ==> p in granted
    ensures r.passed ==> r.detail == "All required permissions granted"
    ensures !r.passed ==>
      r.detail == "Missing: " + JoinToString(MissingNames(RequiredPermissions(sdk), granted), ", ")
  {
    var required := RequiredPermissions(sdk);
    var missing: seq<string> := [];
    if sdk >= Tiramisu {
      assert required[1..] == [ReadMediaVideo, PostNotifications];
      assert required[1..][1..] == [PostNotifications];
      assert required[1..][1..][1..] == [];
      if ReadMediaImages !in granted { missing := missing + ["READ_MEDIA_IMAGES"]; }
      if ReadMediaVideo !in granted { missing := missing + ["READ_MEDIA_VIDEO"]; }
      if PostNotifications !in granted { missing := missing + ["POST_NOTIFICATIONS"]; }
      var m3 := MissingNames(required[1..][1..], granted);
      assert m3 == (if PostNotifications in granted then [] else ["POST_NOTIFICATIONS"]);
      var m2 := MissingNames(required[1..], granted);
      assert m2 == (if ReadMediaVideo in granted then [] else ["READ_MEDIA_VIDEO"]) + m3;
      assert MissingNames(required, granted)
          == (if ReadMediaImages in granted then [] else ["READ_MEDIA_IMAGES"]) + m2;
    } else {
      assert required[1..] == [];
      if ReadExternalStorage !in granted { missing := missing + ["READ_EXTERNAL_STORAGE"]; }
      assert MissingNames(required, granted)
          == (if ReadExternalStorage in granted then [] else ["READ_EXTERNAL_STORAGE"]) + [];
    }
    assert missing == MissingNames(RequiredPermissions(sdk), granted);
    if missing == [] {
      r := CheckResult("Permissions", true, "All required permissions granted");
    } else {
      r := CheckResult("Permissions", false, "Missing: " + JoinToString(missing, ", "));
    }
  }

  // ---------------------------------------------------------------------
  // Network and catalogue
  // ---------------------------------------------------------------------

  /** `checkNetworkConnectivity`, given whether the active network has
      internet capability. */
  function CheckNetwork(hasInternet: bool): (r: CheckResult)
    ensures r.name == "Network" && (r.passed <==> hasInternet)
  {
    if hasInternet then CheckResult("Network", true, "Internet connection available")
    else CheckResult("Network", false, "No internet connection detected")
  }

  /** The number of sites with a "{username}" template. */
  function SearchableCount(sites: seq<MaigretSite>): (r: nat)
    ensures r <= |sites|
  {
    Count(OsintRepository.Templated, sites)
  }

  /** `checkMaigretSites`: loading the catalogue (through the shared,
      caching loader) passes and reports both counts; a failed load fails. */
  method CheckMaigretSites(loader: SiteLoader.MaigretSiteLoader) returns (r: CheckResult)
    requires loader.Valid()
    modifies loader
    ensures loader.Valid()
    ensures r.name == "Maigret Database"
    ensures r.passed <==> loader.asset.Ok?
    ensures loader.asset.Ok? ==>
      r.detail == NatToString(|loader.asset.value|) + " sites loaded ("
                  + NatToString(SearchableCount(loader.asset.value)) + " searchable)"
    ensures loader.asset.Err? ==> r.detail == "Failed to load: " + MessageText(loader.asset.message)
  {
    var loaded := loader.LoadSites();
    if loaded.Err? {
      return CheckResult("Maigret Database", false, "Failed to load: " + MessageText(loaded.message));
    }
    var sites := loaded.value;
    r := CheckResult("Maigret Database", true,
                     NatToString(|sites|) + " sites loaded (" + NatToString(SearchableCount(sites)) + " searchable)");
  }

  // ---------------------------------------------------------------------
  // HTTP checks
  // ---------------------------------------------------------------------

  /** A HEAD request either returns a status code or throws; an
      exception's message may be null, which Kotlin renders as "null". */
  datatype HeadOutcome = Code(code: int) | Threw(message: Option<string>)

  function MessageText(message: Option<string>): string {
    message.GetOr("null")
  }

  predicate Reachable(code: int) { 200 <= code <= 399 }

  const ReachabilityUrl: string := "https://github.com"

  /** `checkMaigretReachability`: HEAD of github.com passes on any 2xx or
      3xx status. */
  function CheckReachability(outcome: HeadOutcome): (r: CheckResult)
    ensures r.name == "Site Reachability"
    ensures r.passed <==> outcome.Code? && 200 <= outcome.code <= 399
  {
    match outcome
    case Code(code) =>
      if Reachable(code) then CheckResult("Site Reachability", true, "External sites reachable (tested github.com)")
      else CheckResult("Site Reachability", false, "github.com returned HTTP " + IntToString(code))
    case Threw(message) =>
      CheckResult("Site Reachability", false, "Cannot reach external sites: " + MessageText(message))
  }

  /** The URL the server check requests: "api/stats" joined to the server
      URL with exactly one '/' added only when it is not already there. */
  function TestUrl(url: string): (r: string)
    ensures url <= r
    ensures EndsWith(r, "/api/stats")
    ensures |r| == |url| + (if EndsWith(url, "/") then 9 else 10)
  {
    if EndsWith(url, "/") then url + "api/stats" else url + "/api/stats"
  }

  /** With or without its trailing slash, a server URL is tested at the
      same address. */
  lemma TestUrlIgnoresTrailingSlash(url: string)
    requires !EndsWith(url, "/")
    ensures TestUrl(url + "/") == TestUrl(url)
  {
    assert EndsWith(url + "/", "/") by {
      assert (url + "/")[|url + "/"| - 1..] == "/";
    }
    assert url + "/" + "api/stats" == url + "/api/stats";
  }

  /** A server check: its result, and the URL it requested, if any. */
  datatype ServerCheck = ServerCheck(result: CheckResult, requested: Option<string>)

  /** `checkServerUrl`: a blank URL passes without a request; otherwise
      HEAD of the test URL passes on any 2xx or 3xx status. */
  function CheckServerUrl(url: string, head: string -> HeadOutcome): (s: ServerCheck)
    ensures s.result.name == "Server URL"
    ensures s.requested.None? <==> IsBlank(url)
    ensures IsBlank(url) ==> s.result.passed
    ensures s.requested.Some? ==> s.requested.value == TestUrl(url)
    ensures !IsBlank(url) ==>
      (s.result.passed <==> head(TestUrl(url)).Code? && 200 <= head(TestUrl(url)).code <= 399)
  {
    if IsBlank(url) then
      ServerCheck(CheckResult("Server URL", true, "Not configured (optional for OSINT)"), None)
    else
      var test := TestUrl(url);
      var result :=
        match head(test)
        case Code(code) =>
          if Reachable(code) then CheckResult("Server URL", true, "Reachable (" + url + ")")
          else CheckResult("Server URL", false, "HTTP " + IntToString(code) + " from " + url)
        case Threw(message) =>
          CheckResult("Server URL", false, "Unreachable: " + MessageText(message));
      ServerCheck(result, Some(test))
  }

  // ---------------------------------------------------------------------
  // OSINT Industries key
  // ---------------------------------------------------------------------

  /** The blank-key detail as the source spells it: an em dash whose UTF-8
      bytes were read as Windows-1252, giving the three characters U+00E2,
      U+20AC and U+201D. */
  const NotConfiguredDetailAsWritten: string :=
    "Not configured (optional \U{E2}\U{20AC}\U{201D} username search works without it)"

  /** The intended detail, with the em dash. */
  const NotConfiguredDetail: string :=
    "Not configured (optional \U{2014} username search works without it)"

  /** `checkOsintApiKey` as written. */
  function CheckOsintApiKeyAsWritten(key: string): (r: CheckResult)
    ensures r.name == "OSINT Industries API" && r.passed
  {
    if IsBlank(key) then CheckResult("OSINT Industries API", true, NotConfiguredDetailAsWritten)
    else CheckResult("OSINT Industries API", true, "API key configured")
  }

  /** The as-written detail for a missing key shows a euro sign where a
      dash belongs. */
  lemma MisencodedDetail()
    ensures '\U{20AC}' in CheckOsintApiKeyAsWritten("").detail
    ensures CheckOsintApiKeyAsWritten("").detail != CheckOsintApiKey("").detail
  {
    assert NotConfiguredDetailAsWritten[26] == '\U{20AC}';
    assert NotConfiguredDetail[25] != NotConfiguredDetailAsWritten[25];
  }

  /** `checkOsintApiKey`: optional, so it passes whether or not a key is
      set; the detail says which. */
  function CheckOsintApiKey(key: string): (r: CheckResult)
    ensures r.name == "OSINT Industries API" && r.passed
    ensures r.detail == "API key configured" <==> !IsBlank(key)
    ensures IsBlank(key) ==> '\U{2014}' in r.detail
  {
    assert NotConfiguredDetail[25] == '\U{2014}';
    if IsBlank(key) then CheckResult("OSINT Industries API", true, NotConfiguredDetail)
    else CheckResult("OSINT Industries API", true, "API key configured")
  }

  // ---------------------------------------------------------------------
  // The full check
  // ---------------------------------------------------------------------

  const CheckNames: seq<string> :=
    ["Permissions", "Network", "Maigret Database", "Site Reachability", "Server URL",
     "OSINT Industries API"]

  /** `runFullCheck`: the six checks, appended in a fixed order, and the
      report over them. The key check is the one the source runs, with its
      misencoded detail. */
  method RunFullCheck(sdk: int, granted: set<Permission>, hasInternet: bool,
                      loader: SiteLoader.MaigretSiteLoader, reachability: HeadOutcome,
                      serverUrl: string, head: string -> HeadOutcome, apiKey: string)
    returns (report: EnvironmentReport)
    requires loader.Valid()
    modifies loader
    ensures loader.Valid()
    ensures report == MakeReport(report.checks)
    ensures |report.checks| == 6
    ensures forall i :: 0 <= i < 6 ==> report.checks[i].name == CheckNames[i]
    ensures report.checks[1] == CheckNetwork(hasInternet)
    ensures report.checks[3] == CheckReachability(reachability)
    ensures report.checks[4] == CheckServerUrl(serverUrl, head).result
    ensures report.checks[5] == CheckOsintApiKeyAsWritten(apiKey)
    ensures report.checks[0].passed <==> forall p :: p in RequiredPermissions(sdk) ==> p in granted
    ensures report.checks[0].passed ==> report.checks[0].detail == "All required permissions granted"
    ensures !report.checks[0].passed ==>
      report.checks[0].detail == "Missing: " + JoinToString(MissingNames(RequiredPermissions(sdk), granted), ", ")
    ensures report.checks[2].passed <==> loader.asset.Ok?
    ensures loader.asset.Ok? ==>
      report.checks[2].detail == NatToString(|loader.asset.value|) + " sites loaded ("
                                 + NatToString(SearchableCount(loader.asset.value)) + " searchable)"
    ensures loader.asset.Err? ==> report.checks[2].detail == "Failed to load: " + MessageText(loader.asset.message)
  {
    var permissions := CheckPermissions(sdk, granted);
    var maigret := CheckMaigretSites(loader);
    var checks := [permissions, CheckNetwork(hasInternet), maigret, CheckReachability(reachability),
                   CheckServerUrl(serverUrl, head).result, CheckOsintApiKeyAsWritten(apiKey)];
    report := MakeReport(checks);
  }
}
