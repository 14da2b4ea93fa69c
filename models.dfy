/** The app's data classes. Every Kotlin default value is written out
    as a function building the default instance; nullable fields are
    `Option`s, and `Float` fields are left out. */
module Models {
  import opened Wrappers

  /** Progress of the probe of one site. */
  datatype CheckStatus = PENDING | CHECKING | FOUND | NOT_FOUND | ERROR

  /** One entry of the bundled Maigret catalogue. `url` is a template in
      which "{username}" marks where the username goes; `checkType` is
      "status_code", "message" or "response_url" (any other text falls
      back to the status-code rule). */
  datatype MaigretSite = MaigretSite(
    name: string,
    url: string,
    urlMain: string,
    checkType: string,
    tags: seq<string>,
    errorMsg: Option<string>)

  /** `MaigretSite()` with every argument defaulted. */
  function DefaultSite(): (s: MaigretSite)
    ensures s.checkType == "status_code" && s.tags == [] && s.errorMsg == None
    ensures s.name == "" && s.url == "" && s.urlMain == ""
  {
    MaigretSite("", "", "", "status_code", [], None)
  }

  /** The verdict for one site: the probed URL, whether a profile was
      found, the probe's status and the HTTP status code if one came back. */
  datatype UsernameCheckResult = UsernameCheckResult(
    site: MaigretSite,
    found: bool,
    url: string,
    status: CheckStatus,
    httpStatus: Option<int>)

  /** `UsernameCheckResult(site, found, url)`: status and HTTP status take
      their defaults. */
  function NewCheckResult(site: MaigretSite, found: bool, url: string): (r: UsernameCheckResult)
    ensures r.status == PENDING && r.httpStatus == None
    ensures r.site == site && r.found == found && r.url == url
  {
    UsernameCheckResult(site, found, url, PENDING, None)
  }

  /** A scan session as the server reports it. `status` is "active",
      "completed", "paused" or "failed". */
  datatype ScanSession = ScanSession(
    id: int,
    userId: Option<int>,
    startTime: Option<string>,
    endTime: Option<string>,
    status: string,
    totalFiles: int,
    processedFiles: int,
    nsfwFound: int,
    scanType: string,
    targetFolders: seq<string>,
    fileTypes: seq<string>,
    autoActions: seq<string>,
    customSettings: Option<string>)

  function DefaultSession(): (s: ScanSession)
    ensures s.status == "active" && s.scanType == "full"
    ensures s.totalFiles == 0 && s.processedFiles == 0 && s.nsfwFound == 0
    ensures s.targetFolders == [] && s.fileTypes == [] && s.autoActions == []
    ensures s.userId == None && s.customSettings == None
  {
    ScanSession(0, None, None, None, "active", 0, 0, 0, "full", [], [], [], None)
  }

  /** One scanned file. `actionTaken` is "none" until the organiser moved,
      renamed, backed up, deleted or copied it. */
  datatype ScanResult = ScanResult(
    id: int,
    sessionId: int,
    filename: string,
    filepath: string,
    fileType: string,
    isNsfw: bool,
    processed: bool,
    flagCategory: Option<string>,
    originalPath: string,
    newPath: Option<string>,
    actionTaken: string,
    isProjectFile: bool,
    relativePath: string,
    createdAt: Option<string>)

  /** Dashboard totals. */
  datatype Stats = Stats(totalFiles: int, nsfwFound: int, processed: int)

  /** `Stats()`: all zero. */
  function DefaultStats(): (s: Stats)
    ensures s.totalFiles == 0 && s.nsfwFound == 0 && s.processed == 0
  {
    Stats(0, 0, 0)
  }

  /** Body of the organise call; `sessionId` None organises every file. */
  datatype OrganizeRequest = OrganizeRequest(
    destinationFolder: string,
    mode: string,
    filterCategories: seq<string>,
    filterFileTypes: seq<string>,
    sessionId: Option<int>)

  datatype OrganizeResponse = OrganizeResponse(moved: int, renamed: int, copied: int)

  /** Body of the create-session call. */
  datatype CreateSessionRequest = CreateSessionRequest(
    scanType: string,
    targetFolders: seq<string>,
    fileTypes: seq<string>,
    autoActions: seq<string>,
    customSettings: Option<string>)

  /** A bug report or feature request kept on the device. `reportType` is
      "bug" or "feature" (the Kotlin field is named `type`). */
  datatype LocalReport = LocalReport(
    id: string,
    reportType: string,
    title: string,
    description: string,
    severity: Option<string>,
    category: Option<string>,
    priority: Option<string>,
    stepsToReproduce: Option<string>,
    timestamp: int)

  /** `LocalReport()`: empty strings, no optional fields, time 0. */
  function DefaultLocalReport(): (r: LocalReport)
    ensures r.id == "" && r.reportType == "" && r.title == "" && r.description == ""
    ensures r.severity == None && r.category == None && r.priority == None
    ensures r.stepsToReproduce == None && r.timestamp == 0
  {
    LocalReport("", "", "", "", None, None, None, None, 0)
  }
}
