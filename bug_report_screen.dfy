/** The Android bug report form. Reports are kept on the device as one
    JSON list of `LocalReport`s in the app settings; a submit decodes the
    list, appends the new report and stores the list again. */
module BugReportScreen {
  import opened Wrappers
  import opened Text
  import opened Models

  const Severities: seq<string> := ["Low", "Medium", "High", "Critical"]

  /** The stored report list: text that decodes to a list of reports, or
      text that does not. */
  datatype StoredReports = Decodable(reports: seq<LocalReport>) | Undecodable(text: string)

  /** The decoded list; undecodable text counts as no reports. */
  function Existing(stored: StoredReports): (r: seq<LocalReport>)
    ensures stored.Undecodable? ==> r == []
  {
    match stored
    case Decodable(reports) => reports
    case Undecodable(_) => []
  }

  /** Kotlin `ifBlank { null }`. */
  function BlankToNull(s: string): (r: Option<string>)
    ensures r.None? <==> IsBlank(s)
    ensures r.Some? ==> r.value == s
  {
    if IsBlank(s) then None else Some(s)
  }

  /** The report a submit creates; `idMillis` and `now` are the two clock
      readings it makes. */
  function NewBugReport(idMillis: nat, now: int, title: string, description: string,
                        severity: string, steps: string): (r: LocalReport)
    ensures r.reportType == "bug" && r.title == title && r.description == description
    ensures r.severity == Some(Lower(severity)) && r.stepsToReproduce == BlankToNull(steps)
    ensures r.category.None? && r.priority.None? && r.timestamp == now
  {
    LocalReport(NatToString(idMillis), "bug", title, description, Some(Lower(severity)),
                None, None, BlankToNull(steps), now)
  }

  /** The store after a report is appended. */
  function Appended(stored: StoredReports, report: LocalReport): StoredReports {
    Decodable(Existing(stored) + [report])
  }

  /** The new report goes last and every decodable earlier report stays,
      in order; undecodable text is replaced by a list of just the new
      report. */
  lemma AppendedSpec(stored: StoredReports, report: LocalReport)
    ensures Appended(stored, report).Decodable?
    ensures Existing(Appended(stored, report)) == Existing(stored) + [report]
    ensures |Existing(Appended(stored, report))| == |Existing(stored)| + 1
    ensures stored.Undecodable? ==> Existing(Appended(stored, report)) == [report]
  {
  }

  /** The report's id is the decimal text of the clock reading. */
  lemma ReportIdIsClock(idMillis: nat, now: int, title: string, description: string,
                        severity: string, steps: string)
    ensures DecimalValue(NewBugReport(idMillis, now, title, description, severity, steps).id) == idMillis
  {
    DecimalRoundTrip(idMillis);
  }

  class BugReportForm {
    var title: string
    var severity: string
    var description: string
    var stepsToReproduce: string
    var submitted: bool
    /** The app setting holding the report list. */
    var reportsJson: StoredReports

    constructor (reportsJson: StoredReports)
      ensures title == "" && severity == "Medium" && description == "" && stepsToReproduce == ""
      ensures !submitted && this.reportsJson == reportsJson
    {
      title := "";
      severity := "Medium";
      description := "";
      stepsToReproduce := "";
      submitted := false;
      this.reportsJson := reportsJson;
    }

    /** The submit button, enabled only when title and description are
        not blank: the report is appended and the form gives way to the
        confirmation. */
    method Submit(idMillis: nat, now: int)
      requires !submitted
      modifies this
      ensures IsBlank(old(title)) || IsBlank(old(description)) ==>
        reportsJson == old(reportsJson) && !submitted
      ensures !IsBlank(old(title)) && !IsBlank(old(description)) ==>
        reportsJson == Appended(old(reportsJson),
                                NewBugReport(idMillis, now, title, description, severity, stepsToReproduce))
        && submitted
      ensures title == old(title) && description == old(description)
      ensures severity == old(severity) && stepsToReproduce == old(stepsToReproduce)
    {
      if !IsBlank(title) && !IsBlank(description) {
        var reports := Existing(reportsJson);
        reports := reports + [NewBugReport(idMillis, now, title, description, severity, stepsToReproduce)];
        reportsJson := Decodable(reports);
        submitted := true;
      }
    }

    /** "Submit Another": an empty form again, with the severity kept. */
    method SubmitAnother()
      requires submitted
      modifies this
      ensures !submitted && title == "" && description == "" && stepsToReproduce == ""
      ensures severity == old(severity) && reportsJson == old(reportsJson)
    {
      submitted := false;
      title := "";
      description := "";
      stepsToReproduce := "";
    }
  }
}
