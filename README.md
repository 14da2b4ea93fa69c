# SecureScanner (Kaos) core in Dafny

This project models the core of SecureScanner, whose interface is branded "Kaos". It covers the Android app and the browser app (a PWA) that ships beside it.

On the Android side it models:

- the data classes;
- the username probe of `OsintRepository`;
- the bundled Maigret site catalogue (`MaigretSiteLoader`);
- the size-bounded `AppLogger`;
- the start-up `EnvironmentChecker`;
- the view models and form state of these screens:
  - the home dashboard;
  - the scan landing page;
  - the file list;
  - the username search;
  - the scan configuration and file organiser forms;
  - the bug report form;
  - the hidden admin unlock on the About screen;
  - the API-key mask on the settings screen.

On the browser side it models:

- the admin settings store over `localStorage`;
- the About page's seven-click unlock;
- the bug report and feature request pages, which share one stored list of reports.

Pure code is modelled as datatypes, functions and lemmas. View models, form screens, the logger and the catalogue cache update their state in place, so each is a class. Each class method states its new state in terms of a specification function. The properties that function has are proved as lemmas beside it.

Some things are passed in as parameters rather than modelled:

- Network calls become a function from request to response or failure.
- Clocks become explicit time values.
- Repository fetches become `Result` values handed to the second half of each refresh.
- `localStorage` is a class holding a map from keys to stored text. The text is abstracted as "the encoding of a JSON value" or "text that is not JSON".

Kotlin's 32-bit `Int` and truncating division are written out where the results differ from unbounded arithmetic.

Modules:

- `Wrappers`, `Text` and `Seqs` are shared helpers:
  - `Result` and `Option`, with Kotlin's `getOrDefault` and `getOrNull`;
  - ASCII lower-casing, `replace`, `isBlank`, and JavaScript's `trim`;
  - filtering, `distinct` and sorting of strings.
- `Models` holds the data classes.
- Each other module follows one source file.

## Model

| member | source | states |
|---|---|---|
| Models.DefaultSite | android/app/src/main/java/com/securescanner/app/data/model/Models.kt:108-115 | A catalogue entry with no arguments checks by status code, has no tags and no error text, and has empty name and URLs. |
| Models.NewCheckResult | android/app/src/main/java/com/securescanner/app/data/model/Models.kt:118-124 | A probe result built from site, verdict and URL starts as PENDING with no HTTP status. |
| Models.DefaultSession | android/app/src/main/java/com/securescanner/app/data/model/Models.kt:6-21 | A default session is an active full scan with zero counts, empty lists, no user and no custom settings. |
| Models.DefaultStats | android/app/src/main/java/com/securescanner/app/data/model/Models.kt:43-47 | Default dashboard totals are all zero. |
| Models.DefaultLocalReport | android/app/src/main/java/com/securescanner/app/data/model/Models.kt:94-104 | A default local report has empty strings, no optional fields and time 0. |
| OsintRepository.SearchableSites | android/app/src/main/java/com/securescanner/app/data/repository/OsintRepository.kt:44-45 | Exactly the loaded sites whose URL template holds "{username}", never more sites than were loaded. |
| OsintRepository.RequestFor | android/app/src/main/java/com/securescanner/app/data/repository/OsintRepository.kt:99-120 | The probe goes to the template with the username substituted, and uses GET exactly for "message" sites (HEAD otherwise). |
| OsintRepository.CheckSingleSite | android/app/src/main/java/com/securescanner/app/data/repository/OsintRepository.kt:98-167 | A URL not starting with "http" is an ERROR with no request sent. Otherwise the request is RequestFor's. The verdict is always FOUND, NOT_FOUND or ERROR; `found` holds exactly when it is FOUND; an HTTP status is present exactly when it is not ERROR; a failed call is an ERROR; a response is judged by the site's check type. |
| OsintRepository.CheckUsernameBatch | android/app/src/main/java/com/securescanner/app/data/repository/OsintRepository.kt:84-96 | One result per templated site, in list order; result i is the probe of the i-th templated site. |
| OsintRepository.CheckUsername | android/app/src/main/java/com/securescanner/app/data/repository/OsintRepository.kt:59-79 | The loop emits, in order, exactly the batch result for the given sites, or for the searchable catalogue when no list is given. |
| OsintRepository.DefaultTargetsAreSearchable | android/app/src/main/java/com/securescanner/app/data/repository/OsintRepository.kt:59-65 | With no explicit list, the template filter keeps every searchable site, so nothing is probed twice or skipped. |
| OsintRepository.HttpTemplateStaysHttp | android/app/src/main/java/com/securescanner/app/data/repository/OsintRepository.kt:99-107 | A template starting with "http" still does after substitution, so such sites always get a request. |
| OsintRepository.ProbeUrlSubstitutes | android/app/src/main/java/com/securescanner/app/data/repository/OsintRepository.kt:99 | A template with one placeholder probes prefix + username + suffix. |
| OsintRepository.MessageWithoutErrorMsgIsStatusCode | android/app/src/main/java/com/securescanner/app/data/repository/OsintRepository.kt:130-143 | A "message" site without an error text decides FOUND exactly on a 2xx status. |
| SiteLoader.SitesByTag | android/app/src/main/java/com/securescanner/app/data/repository/MaigretSiteLoader.kt:32-36 | A site is listed exactly when it is loaded and has the tag, ignoring case. |
| SiteLoader.AllTagsSpec | android/app/src/main/java/com/securescanner/app/data/repository/MaigretSiteLoader.kt:38-43 | The tag list is strictly increasing (so it has no repeats) and holds exactly the tags some site carries. |
| SiteLoader.AllTagsCanonical | android/app/src/main/java/com/securescanner/app/data/repository/MaigretSiteLoader.kt:38-43 | Any strictly increasing list of exactly those tags equals the computed list: the result depends only on which tags occur. |
| SiteLoader.SearchSites | android/app/src/main/java/com/securescanner/app/data/repository/MaigretSiteLoader.kt:45-52 | A site is found exactly when it is loaded and the lower-cased query occurs in its lower-cased name, main URL or one of its tags. |
| SiteLoader.SearchEmptyKeepsAll | android/app/src/main/java/com/securescanner/app/data/repository/MaigretSiteLoader.kt:45-52 | An empty query keeps every site, in order. |
| SiteLoader.TaggedSitesAreFound | android/app/src/main/java/com/securescanner/app/data/repository/MaigretSiteLoader.kt:32-52 | Every site listed under a tag is also found by searching for that tag. |
| SiteLoader.MaigretSiteLoader.constructor | android/app/src/main/java/com/securescanner/app/data/repository/MaigretSiteLoader.kt:20-21 | The cache starts empty and the asset has not been read. |
| SiteLoader.MaigretSiteLoader.LoadSites | android/app/src/main/java/com/securescanner/app/data/repository/MaigretSiteLoader.kt:20-30 | Returns the decoded asset (or its failure). The asset is read only while nothing is cached. A successful decode is cached, so the asset is read at most once. A failure is not cached. |
| SiteLoader.MaigretSiteLoader.GetSitesByTag | android/app/src/main/java/com/securescanner/app/data/repository/MaigretSiteLoader.kt:32-36 | SitesByTag over the loaded sites, or the load failure. |
| SiteLoader.MaigretSiteLoader.GetAllTags | android/app/src/main/java/com/securescanner/app/data/repository/MaigretSiteLoader.kt:38-43 | The sorted distinct tag list of the loaded sites, or the load failure. |
| SiteLoader.MaigretSiteLoader.Search | android/app/src/main/java/com/securescanner/app/data/repository/MaigretSiteLoader.kt:45-52 | SearchSites over the loaded sites, or the load failure. |
| SiteLoader.MaigretSiteLoader.TotalSiteCount | android/app/src/main/java/com/securescanner/app/data/repository/MaigretSiteLoader.kt:54-55 | The number of loaded sites, or the load failure. |
| AppLogging.LogLine | android/app/src/main/java/com/securescanner/app/data/logging/AppLogger.kt:45-49 | An entry is "[ts] LEVEL/tag: message" plus a newline: it opens with '[', ends with a newline, and is 7 characters longer than its parts. |
| AppLogging.RotatedSize | android/app/src/main/java/com/securescanner/app/data/logging/AppLogger.kt:63-73 | A rotated file (marker, the kept tail, the notice) is well within the 1 MiB limit. |
| AppLogging.WriteBounded | android/app/src/main/java/com/securescanner/app/data/logging/AppLogger.kt:45-73 | Whatever the file held and however long the entry, the file after a write never exceeds 1 MiB. |
| AppLogging.WriteAppends | android/app/src/main/java/com/securescanner/app/data/logging/AppLogger.kt:45-61 | Below the limit, a write appends the entry and keeps the earlier content as a prefix. |
| AppLogging.RotationKeepsNewest | android/app/src/main/java/com/securescanner/app/data/logging/AppLogger.kt:63-73 | Above the limit, the file becomes the marker, the newest 512 KiB of the old content with the entry, and the rotation notice. |
| AppLogging.AppLogger.constructor | android/app/src/main/java/com/securescanner/app/data/logging/AppLogger.kt:32-36 | An absent file starts empty, and the start-up entry is written to it. |
| AppLogging.AppLogger.Write | android/app/src/main/java/com/securescanner/app/data/logging/AppLogger.kt:45-61 | The file is the old file after writing the entry, and the live copy equals the file. |
| AppLogging.AppLogger.Rotate | android/app/src/main/java/com/securescanner/app/data/logging/AppLogger.kt:63-73 | The file becomes the marker, the newest 512 KiB and the notice; the live copy follows. |
| AppLogging.AppLogger.I | android/app/src/main/java/com/securescanner/app/data/logging/AppLogger.kt:38 | Writes one INFO entry. |
| AppLogging.AppLogger.W | android/app/src/main/java/com/securescanner/app/data/logging/AppLogger.kt:39 | Writes one WARN entry. |
| AppLogging.AppLogger.E | android/app/src/main/java/com/securescanner/app/data/logging/AppLogger.kt:40 | Writes one ERROR entry. |
| AppLogging.AppLogger.D | android/app/src/main/java/com/securescanner/app/data/logging/AppLogger.kt:41 | Writes one DEBUG entry. |
| AppLogging.AppLogger.S | android/app/src/main/java/com/securescanner/app/data/logging/AppLogger.kt:42 | Writes one SUCCESS entry. |
| AppLogging.AppLogger.ClearLog | android/app/src/main/java/com/securescanner/app/data/logging/AppLogger.kt:95-99 | After clearing, the file holds exactly the entry recording the clear. |
| AppLogging.AppLogger.LogSizeKb | android/app/src/main/java/com/securescanner/app/data/logging/AppLogger.kt:91-93 | The size in whole KiB, rounded down: r*1024 <= size < (r+1)*1024. |
| Environment.AllPassedIff | android/app/src/main/java/com/securescanner/app/data/logging/EnvironmentChecker.kt:28-33 | `allPassed` holds exactly when every check passed. |
| Environment.MakeReport | android/app/src/main/java/com/securescanner/app/data/logging/EnvironmentChecker.kt:28-33 | The report keeps the checks it was given. |
| Environment.ReportConsistent | android/app/src/main/java/com/securescanner/app/data/logging/EnvironmentChecker.kt:28-33 | The derived fields agree: the passed count never exceeds the total, and all passed exactly when every check passed, which is exactly when the passed count is the total. |
| Environment.RequiredPermissions | android/app/src/main/java/com/securescanner/app/data/logging/EnvironmentChecker.kt:176-186 | From Android 13, three permissions (media images, media video, notifications) and not external storage. Before Android 13, external storage alone. |
| Environment.MissingNames | android/app/src/main/java/com/securescanner/app/data/logging/EnvironmentChecker.kt:64-77 | No name is missing exactly when every required permission is granted. |
| Environment.CheckPermissions | android/app/src/main/java/com/securescanner/app/data/logging/EnvironmentChecker.kt:63-85 | Passes exactly when every permission the SDK level requires is granted. The detail says so, or lists the missing ones. |
| Environment.CheckNetwork | android/app/src/main/java/com/securescanner/app/data/logging/EnvironmentChecker.kt:87-100 | Passes exactly when the active network has internet capability. |
| Environment.SearchableCount | android/app/src/main/java/com/securescanner/app/data/logging/EnvironmentChecker.kt:106 | The number of templated sites never exceeds the catalogue size. |
| Environment.CheckMaigretSites | android/app/src/main/java/com/securescanner/app/data/logging/EnvironmentChecker.kt:102-112 | Passes exactly when the catalogue loads. On success the detail gives the site and searchable counts; on failure it gives the load error. |
| Environment.CheckReachability | android/app/src/main/java/com/securescanner/app/data/logging/EnvironmentChecker.kt:114-136 | Passes exactly when the HEAD request answers 200 to 399. A thrown exception fails. |
| Environment.TestUrl | android/app/src/main/java/com/securescanner/app/data/logging/EnvironmentChecker.kt:146 | The tested URL extends the server URL and ends in "/api/stats", adding one slash only when there is none. |
| Environment.TestUrlIgnoresTrailingSlash | android/app/src/main/java/com/securescanner/app/data/logging/EnvironmentChecker.kt:146 | A server URL with or without its trailing slash is tested at the same address. |
| Environment.CheckServerUrl | android/app/src/main/java/com/securescanner/app/data/logging/EnvironmentChecker.kt:138-163 | A blank URL passes with no request sent. Otherwise TestUrl is requested, and the check passes exactly when the request answers 200 to 399; a thrown exception fails. |
| Environment.CheckOsintApiKeyAsWritten | android/app/src/main/java/com/securescanner/app/data/logging/EnvironmentChecker.kt:165-174 | The key check as written always passes. |
| Environment.MisencodedDetail | android/app/src/main/java/com/securescanner/app/data/logging/EnvironmentChecker.kt:169 | The as-written detail for a missing key holds a euro sign and differs from the intended one. |
| Environment.CheckOsintApiKey | android/app/src/main/java/com/securescanner/app/data/logging/EnvironmentChecker.kt:165-174 | Always passes, since the key is optional. The detail reads "API key configured" exactly when the key is not blank; otherwise it carries an em dash. |
| Environment.RunFullCheck | android/app/src/main/java/com/securescanner/app/data/logging/EnvironmentChecker.kt:47-61 | Six checks in fixed order: permissions, network, Maigret database, reachability, server URL, API key. Each is the result of its own check: the permission and catalogue checks with their pass rules and detail texts, and the key check as written, with its misencoded detail. The report's derived fields agree with them. |
| Home.InitialState | android/app/src/main/java/com/securescanner/app/ui/screens/HomeScreen.kt:61-67 | The dashboard opens loading, with zero totals, no session, no findings and no error. |
| Home.RecentFindingsSpec | android/app/src/main/java/com/securescanner/app/ui/screens/HomeScreen.kt:90 | The newest three flagged results, newest first; none when the fetch failed. |
| Home.NewestFirst | android/app/src/main/java/com/securescanner/app/ui/screens/HomeScreen.kt:90 | Entry i of `takeLast(3).reversed()` is the i-th newest result, and there are min(3, n) entries. |
| Home.ActiveSession | android/app/src/main/java/com/securescanner/app/ui/screens/HomeScreen.kt:89 | A session shows exactly when the fetch succeeded with a non-empty list, and it is the first one. |
| Home.RefreshError | android/app/src/main/java/com/securescanner/app/ui/screens/HomeScreen.kt:92 | The connection error shows exactly when both the totals and the active-session fetch failed. |
| Home.RefreshFallbacks | android/app/src/main/java/com/securescanner/app/ui/screens/HomeScreen.kt:80-95 | Each part of the dashboard falls back on its own (zero totals, no session, no findings), and loading ends. |
| Home.Wrap32 | android/app/src/main/java/com/securescanner/app/ui/screens/HomeScreen.kt:138 | Kotlin Int arithmetic lands in the 32-bit range and leaves in-range values alone. |
| Home.TruncDiv | android/app/src/main/java/com/securescanner/app/ui/screens/HomeScreen.kt:138 | Kotlin integer division truncates toward zero for either sign of the dividend. |
| Home.PercentOverflows | android/app/src/main/java/com/securescanner/app/ui/screens/HomeScreen.kt:136-140 | As written, a fully processed scan of 21474837 files shows -99%. |
| Home.ProcessedPercentBounds | android/app/src/main/java/com/securescanner/app/ui/screens/HomeScreen.kt:136-140 | For reachable totals the corrected percentage lies in 0..100, is 100 exactly when everything is processed, and is 0 for an empty scan. |
| Home.ProcessedLabel | android/app/src/main/java/com/securescanner/app/ui/screens/HomeScreen.kt:136-140 | The label shown, from the 32-bit arithmetic as written: "0%" for an empty scan, and the corrected percentage followed by "%" wherever processed * 100 fits in 32 bits. |
| Home.OverflowLabel | android/app/src/main/java/com/securescanner/app/ui/screens/HomeScreen.kt:136-140 | A fully processed scan of 21474837 files is labelled "-99%". |
| Home.PercentOfPositive | android/app/src/main/java/com/securescanner/app/ui/screens/HomeScreen.kt:138 | For 0 <= p <= t with t > 0, (p*100)/t is in 0..100 and is 100 exactly when p == t. |
| Home.PercentAgreesWithoutOverflow | android/app/src/main/java/com/securescanner/app/ui/screens/HomeScreen.kt:136-140 | Wherever the product fits in 32 bits, the as-written figure equals the corrected one. |
| Home.HomeViewModel.constructor | android/app/src/main/java/com/securescanner/app/ui/screens/HomeScreen.kt:74-78 | The state starts as InitialState. |
| Home.HomeViewModel.BeginRefresh | android/app/src/main/java/com/securescanner/app/ui/screens/HomeScreen.kt:82 | Loading is raised, the error is cleared, and the rest stays. |
| Home.HomeViewModel.CompleteRefresh | android/app/src/main/java/com/securescanner/app/ui/screens/HomeScreen.kt:83-93 | The state becomes the one built from the three fetch outcomes. |
| Home.HomeViewModel.Refresh | android/app/src/main/java/com/securescanner/app/ui/screens/HomeScreen.kt:80-95 | A completed refresh leaves the state built from the three fetch outcomes. |
| ScanLanding.InitialState | android/app/src/main/java/com/securescanner/app/ui/screens/ScanLandingScreen.kt:63-68 | Nothing is loaded, loading is on and there is no error. |
| ScanLanding.FlaggedSpec | android/app/src/main/java/com/securescanner/app/ui/screens/ScanLandingScreen.kt:91 | The first ten NSFW results in server order: a prefix of the NSFW results, all NSFW, exactly min(10, number of NSFW results) long, and none when the fetch failed. |
| ScanLanding.RefreshErrorRule | android/app/src/main/java/com/securescanner/app/ui/screens/ScanLandingScreen.kt:87-95 | An error shows only when the session fetch failed, never when it succeeded. A failed results fetch leaves the flagged list empty. Loading ends. |
| ScanLanding.ToggledStatus | android/app/src/main/java/com/securescanner/app/ui/screens/ScanLandingScreen.kt:101 | The requested status is "paused" exactly when the session is active, and "active" otherwise. |
| ScanLanding.ToggleTwice | android/app/src/main/java/com/securescanner/app/ui/screens/ScanLandingScreen.kt:101 | Pause then resume (or the reverse) restores an active or paused status. |
| ScanLanding.ControlsExcludeOrganizePrompt | android/app/src/main/java/com/securescanner/app/ui/screens/ScanLandingScreen.kt:206-239 | The pause and stop controls and the organise offer never show together. |
| ScanLanding.ViewOf | android/app/src/main/java/com/securescanner/app/ui/screens/ScanLandingScreen.kt:137-150 | Loading shows exactly while loading. The error view shows exactly when no session is loaded, with "Session not found" when there is no message. |
| ScanLanding.ScanLandingViewModel.constructor | android/app/src/main/java/com/securescanner/app/ui/screens/ScanLandingScreen.kt:70-76 | The state starts as InitialState, with session id 0. |
| ScanLanding.ScanLandingViewModel.BeginRefresh | android/app/src/main/java/com/securescanner/app/ui/screens/ScanLandingScreen.kt:85 | The loading indicator is raised only when no session is shown yet. |
| ScanLanding.ScanLandingViewModel.CompleteRefresh | android/app/src/main/java/com/securescanner/app/ui/screens/ScanLandingScreen.kt:86-95 | The state becomes the one built from both fetches. |
| ScanLanding.ScanLandingViewModel.Refresh | android/app/src/main/java/com/securescanner/app/ui/screens/ScanLandingScreen.kt:83-96 | A completed refresh leaves the state built from both fetches. |
| ScanLanding.ScanLandingViewModel.LoadSession | android/app/src/main/java/com/securescanner/app/ui/screens/ScanLandingScreen.kt:78-81 | The id is set, then refreshed. |
| ScanLanding.ScanLandingViewModel.PauseResume | android/app/src/main/java/com/securescanner/app/ui/screens/ScanLandingScreen.kt:98-105 | Without a loaded session nothing happens. Otherwise the toggled status is sent, then refreshed. |
| ScanLanding.ScanLandingViewModel.StopScan | android/app/src/main/java/com/securescanner/app/ui/screens/ScanLandingScreen.kt:107-112 | "completed" is sent whatever the status, then refreshed. |
| Files.InitialState | android/app/src/main/java/com/securescanner/app/ui/screens/FilesScreen.kt:56-61 | No results, loading on, no error. |
| Files.RefreshErrorRule | android/app/src/main/java/com/securescanner/app/ui/screens/FilesScreen.kt:78-83 | An error shows exactly when the all-results fetch failed with a message. Each failed fetch empties its own list. Loading ends. |
| Files.FilteredFilesSpec | android/app/src/main/java/com/securescanner/app/ui/screens/FilesScreen.kt:95-99 | All shows every result and Flagged the NSFW fetch. Safe shows exactly the non-NSFW results, and is as long as All exactly when no result is flagged. |
| Files.ViewOf | android/app/src/main/java/com/securescanner/app/ui/screens/FilesScreen.kt:126-149 | Loading, then error, then empty, then the list, in that precedence. The list is the filtered results and is never empty. |
| Files.SilentFailureShowsEmpty | android/app/src/main/java/com/securescanner/app/ui/screens/FilesScreen.kt:82 | A failed fetch whose exception has no message shows the empty view, not an error. |
| Files.Subtitle | android/app/src/main/java/com/securescanner/app/ui/screens/FilesScreen.kt:175 | "Organized" for a file the organiser touched, otherwise its path. |
| Files.FilesViewModel.constructor | android/app/src/main/java/com/securescanner/app/ui/screens/FilesScreen.kt:63-70 | The state starts as InitialState and the filter as All. |
| Files.FilesViewModel.BeginRefresh | android/app/src/main/java/com/securescanner/app/ui/screens/FilesScreen.kt:74 | Loading is raised and the error cleared; the filter stays. |
| Files.FilesViewModel.CompleteRefresh | android/app/src/main/java/com/securescanner/app/ui/screens/FilesScreen.kt:78-83 | The state becomes the one built from both fetches; the filter stays. |
| Files.FilesViewModel.Refresh | android/app/src/main/java/com/securescanner/app/ui/screens/FilesScreen.kt:72-85 | A completed refresh leaves the state built from both fetches. |
| Files.FilesViewModel.SelectFilter | android/app/src/main/java/com/securescanner/app/ui/screens/FilesScreen.kt:93 | Only the filter changes. |
| Files.FilesViewModel.Shown | android/app/src/main/java/com/securescanner/app/ui/screens/FilesScreen.kt:126-149 | Spinner exactly while loading, and the error text exactly when loading ended with an error. Under All the list is every result, under Flagged the flagged fetch, and under Safe exactly the unflagged results. The empty message appears only when the chip's selection is empty. |
| OsintSearch.SelectSites | android/app/src/main/java/com/securescanner/app/ui/screens/OsintSearchScreen.kt:144-150 | The selection is never larger than the catalogue. |
| OsintSearch.SelectSitesSpec | android/app/src/main/java/com/securescanner/app/ui/screens/OsintSearchScreen.kt:144-150 | With no tag selected, every site in order. Otherwise exactly the sites carrying a selected tag, in catalogue order. |
| OsintSearch.CheckedReachesTotalIff | android/app/src/main/java/com/securescanner/app/ui/screens/OsintSearchScreen.kt:151-158 | The checked counter reaches the total exactly when every selected site has a template, since untemplated sites are counted in the total but never probed. |
| OsintSearch.OsintSearchViewModel.constructor | android/app/src/main/java/com/securescanner/app/ui/screens/OsintSearchScreen.kt:100-128 | No results, not searching, zero counters, and no lookup result, load or error. |
| OsintSearch.OsintSearchViewModel.SearchUsername | android/app/src/main/java/com/securescanner/app/ui/screens/OsintSearchScreen.kt:137-166 | The old job is cancelled and the results and counters cleared. The total is the number of selected sites. A job over their templated ones runs for the username. The lookup state is unchanged. |
| OsintSearch.OsintSearchViewModel.ClearSearch | android/app/src/main/java/com/securescanner/app/ui/screens/OsintSearchScreen.kt:138-142 | The job stops and the results and counters are cleared. |
| OsintSearch.OsintSearchViewModel.Launch | android/app/src/main/java/com/securescanner/app/ui/screens/OsintSearchScreen.kt:151-153 | The total is set and the job starts owing every templated site. |
| OsintSearch.OsintSearchViewModel.FreshSearchValid | android/app/src/main/java/com/securescanner/app/ui/screens/OsintSearchScreen.kt:138-153 | A search that has just started satisfies the view model's invariant. |
| OsintSearch.OsintSearchViewModel.Step | android/app/src/main/java/com/securescanner/app/ui/screens/OsintSearchScreen.kt:154-164 | One job event: the probe of the next pending site is appended and counted (and counted as found when FOUND), or, with nothing pending, the search ends. |
| OsintSearch.OsintSearchViewModel.EndStream | android/app/src/main/java/com/securescanner/app/ui/screens/OsintSearchScreen.kt:164 | The stream is done: the job and the searching flag stop, and the results stay. |
| OsintSearch.OsintSearchViewModel.Collect | android/app/src/main/java/com/securescanner/app/ui/screens/OsintSearchScreen.kt:155-161 | The result is appended, the found counter rises exactly on FOUND, and the next site is consumed. |
| OsintSearch.OsintSearchViewModel.SearchToCompletion | android/app/src/main/java/com/securescanner/app/ui/screens/OsintSearchScreen.kt:137-166 | A search run to its end shows exactly the repository's batch result for the selected sites. The checked counter equals the results and never passes the total, and the found counter is the number of FOUND results. |
| OsintSearch.OsintSearchViewModel.CancelSearch | android/app/src/main/java/com/securescanner/app/ui/screens/OsintSearchScreen.kt:168-171 | The job and the searching flag stop, and the results and counters so far stay. |
| OsintSearch.OsintSearchViewModel.SearchOsintIndustries | android/app/src/main/java/com/securescanner/app/ui/screens/OsintSearchScreen.kt:173-179 | Loading starts with the result and the error cleared; the username search is untouched. |
| OsintSearch.OsintSearchViewModel.CompleteOsintIndustries | android/app/src/main/java/com/securescanner/app/ui/screens/OsintSearchScreen.kt:180-182 | Loading ends. On success the result is shown with no error. On failure the message, or "Unknown error", is shown with no result. |
| FormLists.RemoveFirst | android/app/src/main/java/com/securescanner/app/ui/screens/ScanConfigScreen.kt:168 | `remove` of an absent element changes nothing. Otherwise it shortens the list by one and adds nothing. |
| FormLists.RemoveFirstAt | android/app/src/main/java/com/securescanner/app/ui/screens/ScanConfigScreen.kt:168 | Removing the first occurrence at i cuts exactly entry i and keeps the rest in order. |
| FormLists.ToggledSpec | android/app/src/main/java/com/securescanner/app/ui/screens/ScanConfigScreen.kt:166-169 | In a list without repeats, a click flips exactly the clicked item, appends a new one at the end, removes an old one in place, and keeps the list free of repeats. |
| FormLists.DeleteAt | android/app/src/main/java/com/securescanner/app/ui/screens/ScanConfigScreen.kt:148 | Deleting entry i removes exactly that value from a list without repeats. |
| FormLists.ToggleTwiceRestores | android/app/src/main/java/com/securescanner/app/ui/screens/ScanConfigScreen.kt:166-169 | Two clicks on a clear box restore the list. |
| FormLists.LowerAll | android/app/src/main/java/com/securescanner/app/ui/screens/ScanConfigScreen.kt:241-242 | Each label is lower-cased in place; order and length are kept. |
| FormLists.RequestLabelSpec | android/app/src/main/java/com/securescanner/app/ui/screens/ScanConfigScreen.kt:239 | The label has the same length; spaces become underscores and every other character is lower-cased. |
| FormLists.FileTypeLabel | android/app/src/main/java/com/securescanner/app/ui/screens/FileOrganizerScreen.kt:210 | The "File Type" mode is sent as "file_type". |
| ScanConfig.BuildRequest | android/app/src/main/java/com/securescanner/app/ui/screens/ScanConfigScreen.kt:237-244 | The folders go out as typed, with no custom settings and one entry per selected type and action. |
| ScanConfig.BuildRequestSpec | android/app/src/main/java/com/securescanner/app/ui/screens/ScanConfigScreen.kt:237-244 | The scan type is lower-cased with underscores for spaces, character by character. File types and actions are lower-cased in selection order. |
| ScanConfig.ScanConfigForm.constructor | android/app/src/main/java/com/securescanner/app/ui/screens/ScanConfigScreen.kt:70-75 | The form opens as a full scan of images and videos, with no folders and no actions. |
| ScanConfig.ScanConfigForm.SelectScanType | android/app/src/main/java/com/securescanner/app/ui/screens/ScanConfigScreen.kt:70 | Only the scan type changes. |
| ScanConfig.ScanConfigForm.EditNewFolder | android/app/src/main/java/com/securescanner/app/ui/screens/ScanConfigScreen.kt:72 | Only the folder field changes. |
| ScanConfig.ScanConfigForm.AddFolder | android/app/src/main/java/com/securescanner/app/ui/screens/ScanConfigScreen.kt:126-130 | A non-blank entry is appended as typed and the field cleared. A blank one changes nothing. |
| ScanConfig.ScanConfigForm.RemoveFolder | android/app/src/main/java/com/securescanner/app/ui/screens/ScanConfigScreen.kt:148 | Exactly the clicked entry is removed. |
| ScanConfig.ScanConfigForm.ToggleFileType | android/app/src/main/java/com/securescanner/app/ui/screens/ScanConfigScreen.kt:166-169 | The clicked type's membership flips, the list stays free of repeats, and nothing else changes. |
| ScanConfig.ScanConfigForm.ToggleAutoAction | android/app/src/main/java/com/securescanner/app/ui/screens/ScanConfigScreen.kt:219-221 | The clicked action's membership flips, the list stays free of repeats, and nothing else changes. |
| ScanConfig.ScanConfigForm.StartScan | android/app/src/main/java/com/securescanner/app/ui/screens/ScanConfigScreen.kt:237-244 | The folders go out as listed, with no custom settings. The scan type is lower-cased with spaces made underscores, character by character. The checked file types and actions are lower-cased, in the order they were checked. |
| FileOrganizer.PresetDestination | android/app/src/main/java/com/securescanner/app/ui/screens/FileOrganizerScreen.kt:76-86 | "Date" and "File Type" set their own folders; any other mode keeps the entered destination. |
| FileOrganizer.BuildRequest | android/app/src/main/java/com/securescanner/app/ui/screens/FileOrganizerScreen.kt:208-214 | The destination and session go out as held, with one filter per selected category and type. |
| FileOrganizer.BuildRequestSpec | android/app/src/main/java/com/securescanner/app/ui/screens/FileOrganizerScreen.kt:208-214 | The filters are lower-cased in selection order, and the mode "File Type" is sent as "file_type". |
| FileOrganizer.OrganizerForm.constructor | android/app/src/main/java/com/securescanner/app/ui/screens/FileOrganizerScreen.kt:68-73 | Empty destination, mode "Category", no filters, not organising, no result. |
| FileOrganizer.OrganizerForm.ApplyPreset | android/app/src/main/java/com/securescanner/app/ui/screens/FileOrganizerScreen.kt:76-86 | The mode is set and the destination becomes PresetDestination; the filters stay. |
| FileOrganizer.OrganizerForm.EditDestination | android/app/src/main/java/com/securescanner/app/ui/screens/FileOrganizerScreen.kt:68 | Only the destination changes. |
| FileOrganizer.OrganizerForm.ToggleCategory | android/app/src/main/java/com/securescanner/app/ui/screens/FileOrganizerScreen.kt:177 | The clicked category's membership flips and the list stays free of repeats. |
| FileOrganizer.OrganizerForm.ToggleFileType | android/app/src/main/java/com/securescanner/app/ui/screens/FileOrganizerScreen.kt:194 | The clicked type's membership flips and the list stays free of repeats. |
| FileOrganizer.OrganizerForm.PressOrganize | android/app/src/main/java/com/securescanner/app/ui/screens/FileOrganizerScreen.kt:204-214 | Pressable only while idle on the form. It sends BuildRequest of the form and sets the in-progress flag. |
| FileOrganizer.OrganizerForm.CompleteOrganize | android/app/src/main/java/com/securescanner/app/ui/screens/FileOrganizerScreen.kt:215-221 | The flag drops. A response is shown; a failure leaves the form up. |
| FileOrganizer.OrganizerForm.OrganizeMore | android/app/src/main/java/com/securescanner/app/ui/screens/FileOrganizerScreen.kt:105 | Back to the form with its fields kept. |
| BugReportScreen.Existing | android/app/src/main/java/com/securescanner/app/ui/screens/BugReportScreen.kt:143-145 | Stored text that does not decode counts as no reports. |
| BugReportScreen.BlankToNull | android/app/src/main/java/com/securescanner/app/ui/screens/BugReportScreen.kt:155 | `ifBlank { null }`: None exactly for blank text, otherwise the text unchanged. |
| BugReportScreen.NewBugReport | android/app/src/main/java/com/securescanner/app/ui/screens/BugReportScreen.kt:147-157 | A "bug" report with title and description as typed, lower-cased severity, steps only when not blank, no category or priority, and the current time. |
| BugReportScreen.AppendedSpec | android/app/src/main/java/com/securescanner/app/ui/screens/BugReportScreen.kt:143-158 | The new report goes last, after every earlier decodable report in order. Undecodable text is replaced by a list of just the new report. |
| BugReportScreen.ReportIdIsClock | android/app/src/main/java/com/securescanner/app/ui/screens/BugReportScreen.kt:148 | The report id is the decimal text of the clock reading. |
| BugReportScreen.BugReportForm.constructor | android/app/src/main/java/com/securescanner/app/ui/screens/BugReportScreen.kt:55-61 | An empty form with severity "Medium", not submitted, over the stored list. |
| BugReportScreen.BugReportForm.Submit | android/app/src/main/java/com/securescanner/app/ui/screens/BugReportScreen.kt:139-169 | With a blank title or description nothing is stored. Otherwise the stored list gains the new report and the confirmation shows. |
| BugReportScreen.BugReportForm.SubmitAnother | android/app/src/main/java/com/securescanner/app/ui/screens/BugReportScreen.kt:76 | An empty form again; the severity and the stored list stay. |
| SettingsMask.MaskKey | android/app/src/main/java/com/securescanner/app/ui/screens/SettingsScreen.kt:123 | Keys of six characters or fewer show as "***". Longer keys show their first and last three characters around "***". |
| SettingsMask.MaskLength | android/app/src/main/java/com/securescanner/app/ui/screens/SettingsScreen.kt:123 | The mask is 3 or 9 characters, and 9 exactly for keys longer than six. |
| SettingsMask.MaskHidesMiddle | android/app/src/main/java/com/securescanner/app/ui/screens/SettingsScreen.kt:123 | Keys differing only in the middle mask alike, and all short keys mask alike. |
| SettingsMask.MaskRevealsLittle | android/app/src/main/java/com/securescanner/app/ui/screens/SettingsScreen.kt:123 | A revealed key shows six characters, fewer than it has. |
| AboutUnlock.Tap | android/app/src/main/java/com/securescanner/app/ui/screens/AboutScreen.kt:69-92 | The tap time is recorded. The unlock fires exactly when the count reaches seven and resets it. The hint names the taps still needed. |
| AboutUnlock.TapKeepsRange | android/app/src/main/java/com/securescanner/app/ui/screens/AboutScreen.kt:71-90 | Between taps the count stays in 0..6. The hint shows exactly at counts 4 to 6 and asks for 1 to 3 more. An unlock needs a count of 6 and a tap within 3 s. |
| AboutUnlock.RunInvariant | android/app/src/main/java/com/securescanner/app/ui/screens/AboutScreen.kt:70-86 | After any taps, the count is the length of the current run of taps no more than 3 s apart, and the last tap time is remembered. |
| AboutUnlock.UnlockNeedsSevenQuickTaps | android/app/src/main/java/com/securescanner/app/ui/screens/AboutScreen.kt:71-86 | An unlock happens only on the seventh of seven taps, each within 3 s of the one before. |
| AboutUnlock.QuickTapsCount | android/app/src/main/java/com/securescanner/app/ui/screens/AboutScreen.kt:71-76 | Up to six quick taps from the start are all counted. |
| AboutUnlock.SevenQuickTapsUnlock | android/app/src/main/java/com/securescanner/app/ui/screens/AboutScreen.kt:71-86 | Seven quick taps from the start unlock on the seventh. |
| AboutUnlock.AboutLogo.constructor | android/app/src/main/java/com/securescanner/app/ui/screens/AboutScreen.kt:52-53 | Count and last tap time start at 0. |
| AboutUnlock.AboutLogo.OnClick | android/app/src/main/java/com/securescanner/app/ui/screens/AboutScreen.kt:69-92 | The state follows Tap. An unlock stores the admin flag and calls the callback once; otherwise neither happens. |
| WebStorage.Parse | client/src/lib/admin-store.ts:23 | `JSON.parse` gives back exactly the encoded value, and throws on text that is not JSON. |
| WebStorage.GetItemOr | client/src/pages/bug-report.tsx:37 | `getItem(key) \|\| fallback`: an absent key gives the fallback, and any other stored text except "" is returned. |
| WebStorage.LocalStorage.constructor | client/src/lib/admin-store.ts:22 | The storage holds the given entries. |
| WebStorage.LocalStorage.GetItem | client/src/lib/admin-store.ts:22 | null exactly for an absent key, otherwise the stored text. |
| WebStorage.LocalStorage.SetItem | client/src/lib/admin-store.ts:29 | Only the given key changes. |
| AdminStore.Defaults | client/src/lib/admin-store.ts:12-18 | All five flags are false. |
| AdminStore.ToJson | client/src/lib/admin-store.ts:29 | Settings are stored as a JSON object of the five flags. |
| AdminStore.LoadFallsBack | client/src/lib/admin-store.ts:20-26 | Nothing stored, or text that does not parse, loads as the defaults. |
| AdminStore.LoadOverrides | client/src/lib/admin-store.ts:23 | Each stored field overrides its default, and a missing field keeps it. |
| AdminStore.SaveLoadRoundTrip | client/src/lib/admin-store.ts:20-30 | Saving then loading gives back the saved settings, and other keys are untouched. |
| AdminStore.FlagChangesOneField | client/src/lib/admin-store.ts:32-46 | Unlocking or locking changes the admin flag only, and `isAdminUnlocked` then reports it. |
| AdminStore.FlagIdempotent | client/src/lib/admin-store.ts:36-46 | Of several unlocks and locks in a row, the last decides. |
| AdminStore.SaveAdminSettings | client/src/lib/admin-store.ts:28-30 | The store becomes Saved of the settings. |
| AdminStore.LoadAdminSettings | client/src/lib/admin-store.ts:20-26 | Returns Load of the store. |
| AdminStore.UnlockAdmin | client/src/lib/admin-store.ts:36-40 | The store after setting the admin flag. |
| AdminStore.LockAdmin | client/src/lib/admin-store.ts:42-46 | The store after clearing the admin flag. |
| WebAbout.Click | client/src/pages/about.tsx:18-42 | When already unlocked, navigate at once. Otherwise the seventh click unlocks, resets the count and navigates after a delay; earlier clicks count and arm the reset timer. |
| WebAbout.EventsKeepValid | client/src/pages/about.tsx:24-40 | Clicks and the timer keep the count in 0..6, with a timer pending exactly while it is positive. |
| WebAbout.ClicksCount | client/src/pages/about.tsx:24-40 | From zero, up to six clicks count one by one. |
| WebAbout.SeventhClickUnlocks | client/src/pages/about.tsx:29-37 | The seventh quick click unlocks. |
| WebAbout.AboutPage.constructor | client/src/pages/about.tsx:13-14 | Count 0, no timer, no navigation. |
| WebAbout.AboutPage.OnClick | client/src/pages/about.tsx:18-42 | The state follows Click. An unlock writes the admin flag to storage and navigates after 500 ms; an unlocked click navigates at once. |
| WebAbout.AboutPage.OnTimer | client/src/pages/about.tsx:39 | The pending timer resets the count. |
| WebReports.ReadList | client/src/pages/bug-report.tsx:37-38 | An absent or empty entry reads as an empty list, and a stored array reads as its items. Anything else throws. |
| WebReports.PushedSpec | client/src/pages/bug-report.tsx:37-39 | A push succeeds exactly when the list reads. It appends the entry after the earlier ones in order, and touches no other key. |
| WebReports.FormsShareTheList | client/src/pages/feature-request.tsx:36-38 | A bug report then a feature request end the shared list, in that order. |
| WebReports.MissingFieldsSpec | client/src/pages/bug-report.tsx:22-25 | A field is missing exactly when it is empty or all white space. |
| WebReports.BugReportJson | client/src/pages/bug-report.tsx:27-35 | Exactly seven fields: type "bug", the fields as typed, an ISO timestamp and the user agent. |
| WebReports.FeatureRequestJson | client/src/pages/feature-request.tsx:27-34 | Exactly six fields: type "feature", the fields as typed and an ISO timestamp. |
| WebReports.PushReport | client/src/pages/bug-report.tsx:37-39 | The store becomes Pushed, or is untouched when reading the list throws. |
| WebReports.BugReportPage.constructor | client/src/pages/bug-report.tsx:13-17 | Empty fields, severity "medium", not submitted. |
| WebReports.BugReportPage.HandleSubmit | client/src/pages/bug-report.tsx:19-43 | Missing fields store nothing. Otherwise the report is pushed and the page shows it was submitted. A throw stores nothing and changes nothing. |
| WebReports.BugReportPage.Reset | client/src/pages/bug-report.tsx:54 | Every field back to its default; the store stays. |
| WebReports.FeatureRequestPage.constructor | client/src/pages/feature-request.tsx:13-17 | Empty fields, category "enhancement", priority "nice-to-have". |
| WebReports.FeatureRequestPage.HandleSubmit | client/src/pages/feature-request.tsx:19-42 | Missing fields store nothing. Otherwise the request is pushed and the page shows it was submitted. A throw stores nothing. |
| WebReports.FeatureRequestPage.Reset | client/src/pages/feature-request.tsx:53 | Title and description cleared, category and priority back to their defaults. |

## Left out

- HTTP, retrofit and the OSINT Industries API: a call is a function from request to response or failure (`Network`), or the `Result` of a repository fetch. Timeouts, redirects and headers are not modelled.
- Concurrency: coroutine jobs, the probe semaphore and the parallel probing inside `checkUsername`. The results are modelled in emission order (the sites' order). The job's cancellation is a flag.
- OsintSearch.OsintSearchViewModel.SearchUsername: a catalogue that fails to load inside `getAllSites` is not modelled; the loaded list is a parameter.
- The `searchProgress` float and the scan configuration's confidence slider, because floating point is not modelled.
- `loadCredits` and `osintIndustriesSearch`: they are calls into the remote API. Only their effect on the view model's state is modelled.
- Case mapping is ASCII only, and strings are sequences of characters, not bytes.
- The JSON text itself is not modelled. Stored text is either the encoding of a JSON value or text that is not JSON, so `JSON.stringify` and `JSON.parse` round-trip by construction.
- The kotlinx decoding of the Maigret asset is a parameter: the decoded list or the failure.
- Logging side effects of `EnvironmentChecker` and `OsintRepository`: they write to the `AppLogger`, which is modelled on its own.
- AppLogging.AppLogger.Write: exceptions caught inside `write` and `rotate` (a failed file write) are not modelled. The rotation notice reuses the write's timestamp.
- AppLogging.AppLogger.LogSizeKb: a file deleted from outside, and so `getLogText` and the 0 branch of `getLogSizeKb`, are not modelled.
- OsintSearch.OsintSearchViewModel.CompleteOsintIndustries: requires that a lookup is in flight. Two overlapping lookups, whose completions can arrive in either order, are not modelled.
- FileOrganizer.BuildRequest: the mode goes out as the source builds it ("file_type"). The comment at Models.kt:58 spells it "filetype".
- The "Custom Folders" scan type is covered only by the general RequestLabelSpec (it is sent as "custom_folders").
- AppLogging.RotatedSize, AppLogging.WriteBounded: the bounds are in characters, while `write` compares the file's length in bytes and `rotate` keeps the last 524288 characters. With text of more than two UTF-8 bytes per character, the marker and kept tail already exceed 1048576 bytes. The notice written by `rotate` would then rotate again, nesting write and rotate once per notice. That byte-level behaviour is not modelled.
- OsintRepository.CheckUsername: with no site list, a catalogue load failure inside `getSearchableSites` is not modelled; the loaded catalogue is a parameter.
- AdminStore.LoadOverrides: only the five settings fields are carried through. Extra stored keys, and the spread of a stored array or string, are not modelled. `ADMIN_UNLOCKED_KEY` is declared but never used.
- React rendering, StrictMode double invocation, toasts, navigation timing beyond the recorded delay, and the periodic refresh timer of the scan landing page.
- BugReportScreen.BugReportForm.Submit: the two clock readings (id and timestamp) are parameters. A stale copy of the stored list captured by the coroutine is not modelled.

## Findings

| source | as written | input that shows it | evidently intended | confidence | as-written member | corrected member |
|---|---|---|---|---|---|---|
| android/app/src/main/java/com/securescanner/app/data/logging/EnvironmentChecker.kt:169 | The detail for a missing API key contains "â€”": an em dash whose UTF-8 bytes were decoded as Windows-1252. | an empty API key | "Not configured (optional — username search works without it)" with an em dash | not executed | Environment.MisencodedDetail | Environment.CheckOsintApiKey |
| android/app/src/main/java/com/securescanner/app/ui/screens/HomeScreen.kt:136-140 | `processed * 100 / totalFiles` is computed in 32-bit `Int`, so the product wraps above 21474836 processed files. | Stats(totalFiles = 21474837, nsfwFound = 0, processed = 21474837) shows "-99%" | the percentage of processed files, 0 to 100 ("100%" here) | not executed | Home.PercentOverflows | Home.ProcessedPercentBounds |
