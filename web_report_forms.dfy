/** The PWA's bug report and feature request pages. Both append a JSON
    object to the one list kept under "securescanner-reports" in the
    browser's storage. The submit handler does not catch exceptions: text
    that is not JSON, or JSON that is not a list, makes it throw before
    anything is written. */
module WebReports {
  import opened Wrappers
  import opened Text
  import opened WebStorage

  const ReportsKey: string := "securescanner-reports"

  /** `JSON.parse(getItem(key) || "[]")` as a list to push onto: an absent
      or empty entry reads as an empty list, other text throws in
      `JSON.parse`, a value other than a list throws in `push`. */
  function ReadList(items: map<string, Stored>): (r: Result<seq<JsonValue>>)
    ensures ReportsKey !in items ==> r == Ok([])
    ensures ReportsKey in items && items[ReportsKey] == Raw("") ==> r == Ok([])
    ensures ReportsKey in items && items[ReportsKey].Encoded? && items[ReportsKey].value.JArr? ==>
      r == Ok(items[ReportsKey].value.items)
    ensures r.Err? <==>
      ReportsKey in items && items[ReportsKey] != Raw("")
      && !(items[ReportsKey].Encoded? && items[ReportsKey].value.JArr?)
    ensures ReportsKey in items && items[ReportsKey].Encoded? && !items[ReportsKey].value.JArr? ==>
      r == Err(Some("existing.push is not a function"))
  {
    match Parse(GetItemOr(items, ReportsKey, Encoded(JArr([]))))
    case Ok(v) => if v.JArr? then Ok(v.items) else Err(Some("existing.push is not a function"))
    case Err(m) => Err(m)
  }

  /** The store after pushing `entry`, or the exception thrown. */
  function Pushed(items: map<string, Stored>, entry: JsonValue): Result<map<string, Stored>> {
    match ReadList(items)
    case Ok(list) => Ok(items[ReportsKey := Encoded(JArr(list + [entry]))])
    case Err(m) => Err(m)
  }

  /** A push appends the entry to the end of the stored list, keeps the
      earlier entries in order, and touches no other key. */
  lemma PushedSpec(items: map<string, Stored>, entry: JsonValue)
    ensures Pushed(items, entry).Ok? <==> ReadList(items).Ok?
    ensures Pushed(items, entry).Ok? ==>
      ReadList(Pushed(items, entry).value) == Ok(ReadList(items).value + [entry])
      && forall k :: k in items && k != ReportsKey ==>
           k in Pushed(items, entry).value && Pushed(items, entry).value[k] == items[k]
  {
  }

  /** Bug reports and feature requests share the list: a bug report then
      a feature request leave both at its end, in that order. */
  lemma FormsShareTheList(items: map<string, Stored>, bug: JsonValue, feature: JsonValue)
    requires ReadList(items).Ok?
    ensures Pushed(items, bug).Ok?
    ensures Pushed(Pushed(items, bug).value, feature).Ok?
    ensures ReadList(Pushed(Pushed(items, bug).value, feature).value)
         == Ok(ReadList(items).value + [bug, feature])
  {
    PushedSpec(items, bug);
    PushedSpec(Pushed(items, bug).value, feature);
    assert ReadList(items).value + [bug] + [feature] == ReadList(items).value + [bug, feature];
  }

  /** `!title.trim() || !description.trim()`: a field of white space
      only is missing. */
  predicate MissingFields(title: string, description: string) {
    JsTrim(title) == [] || JsTrim(description) == []
  }

  /** A field counts as missing exactly when it is empty or white space. */
  lemma MissingFieldsSpec(title: string, description: string)
    ensures MissingFields(title, description) <==>
      (forall i :: 0 <= i < |title| ==> JsWhitespace(title[i]))
      || (forall i :: 0 <= i < |description| ==> JsWhitespace(description[i]))
  {
    JsTrimEmpty(title);
    JsTrimEmpty(description);
  }

  /** The object `v` has `key` set to `value`. */
  predicate HasField(v: JsonValue, key: string, value: JsonValue) {
    v.JObj? && key in v.fields && v.fields[key] == value
  }

  /** The stored bug report: the fields as typed, untrimmed, the steps
      even when empty, an ISO timestamp and the browser's user agent. */
  function BugReportJson(title: string, description: string, severity: string, steps: string,
                         isoTime: string, userAgent: string): (v: JsonValue)
    ensures HasField(v, "type", JStr("bug"))
    ensures HasField(v, "title", JStr(title)) && HasField(v, "description", JStr(description))
    ensures HasField(v, "severity", JStr(severity)) && HasField(v, "stepsToReproduce", JStr(steps))
    ensures HasField(v, "timestamp", JStr(isoTime)) && HasField(v, "userAgent", JStr(userAgent))
    ensures |v.fields| == 7
  {
    JObj(map[
      "type" := JStr("bug"),
      "title" := JStr(title),
      "description" := JStr(description),
      "severity" := JStr(severity),
      "stepsToReproduce" := JStr(steps),
      "timestamp" := JStr(isoTime),
      "userAgent" := JStr(userAgent)])
  }

  /** The stored feature request. */
  function FeatureRequestJson(title: string, description: string, category: string,
                              priority: string, isoTime: string): (v: JsonValue)
    ensures HasField(v, "type", JStr("feature"))
    ensures HasField(v, "title", JStr(title)) && HasField(v, "description", JStr(description))
    ensures HasField(v, "category", JStr(category)) && HasField(v, "priority", JStr(priority))
    ensures HasField(v, "timestamp", JStr(isoTime))
    ensures |v.fields| == 6
  {
    JObj(map[
      "type" := JStr("feature"),
      "title" := JStr(title),
      "description" := JStr(description),
      "category" := JStr(category),
      "priority" := JStr(priority),
      "timestamp" := JStr(isoTime)])
  }

  /** How a submit ended: rejected for missing fields, saved, or thrown
      while reading the stored list. */
  datatype SubmitOutcome = Missing | Saved | Threw(message: Option<string>)

  /** Appends `entry` to the stored list, writing nothing if that throws. */
  method PushReport(storage: LocalStorage, entry: JsonValue) returns (ok: Result<()>)
    modifies storage
    ensures Pushed(old(storage.items), entry).Ok? ==>
      ok.Ok? && storage.items == Pushed(old(storage.items), entry).value
    ensures Pushed(old(storage.items), entry).Err? ==>
      ok == Err(Pushed(old(storage.items), entry).message) && storage.items == old(storage.items)
  {
    var existing := ReadList(storage.items);
    if existing.Err? {
      return Err(existing.message);
    }
    storage.SetItem(ReportsKey, Encoded(JArr(existing.value + [entry])));
    ok := Ok(());
  }

  class BugReportPage {
    var submitted: bool
    var title: string
    var description: string
    var severity: string
    var steps: string
    const storage: LocalStorage

    constructor (storage: LocalStorage)
      ensures !submitted && title == "" && description == "" && severity == "medium" && steps == ""
      ensures this.storage == storage
    {
      submitted := false;
      title := "";
      description := "";
      severity := "medium";
      steps := "";
      this.storage := storage;
    }

    /** `handleSubmit`. */
    method HandleSubmit(isoTime: string, userAgent: string) returns (outcome: SubmitOutcome)
      modifies this, storage
      ensures title == old(title) && description == old(description)
      ensures severity == old(severity) && steps == old(steps)
      ensures MissingFields(title, description) ==>
        outcome == Missing && storage.items == old(storage.items) && submitted == old(submitted)
      ensures !MissingFields(title, description) ==>
        var pushed := Pushed(old(storage.items), BugReportJson(title, description, severity, steps, isoTime, userAgent));
        (pushed.Ok? ==> outcome == Saved && storage.items == pushed.value && submitted)
        && (pushed.Err? ==> outcome == Threw(pushed.message) && storage.items == old(storage.items)
                            && submitted == old(submitted))
    {
      if JsTrim(title) == [] || JsTrim(description) == [] {
        return Missing;
      }
      var report := BugReportJson(title, description, severity, steps, isoTime, userAgent);
      var ok := PushReport(storage, report);
      if ok.Err? {
        return Threw(ok.message);
      }
      submitted := true;
      outcome := Saved;
    }

    /** "Submit Another Report": every field back to its default. */
    method Reset()
      modifies this
      ensures !submitted && title == "" && description == "" && steps == "" && severity == "medium"
      ensures storage.items == old(storage.items)
    {
      submitted := false;
      title := "";
      description := "";
      steps := "";
      severity := "medium";
    }
  }

  class FeatureRequestPage {
    var submitted: bool
    var title: string
    var description: string
    var category: string
    var priority: string
    const storage: LocalStorage

    constructor (storage: LocalStorage)
      ensures !submitted && title == "" && description == ""
      ensures category == "enhancement" && priority == "nice-to-have"
      ensures this.storage == storage
    {
      submitted := false;
      title := "";
      description := "";
      category := "enhancement";
      priority := "nice-to-have";
      this.storage := storage;
    }

    /** `handleSubmit`. */
    method HandleSubmit(isoTime: string) returns (outcome: SubmitOutcome)
      modifies this, storage
      ensures title == old(title) && description == old(description)
      ensures category == old(category) && priority == old(priority)
      ensures MissingFields(title, description) ==>
        outcome == Missing && storage.items == old(storage.items) && submitted == old(submitted)
      ensures !MissingFields(title, description) ==>
        var pushed := Pushed(old(storage.items), FeatureRequestJson(title, description, category, priority, isoTime));
        (pushed.Ok? ==> outcome == Saved && storage.items == pushed.value && submitted)
        && (pushed.Err? ==> outcome == Threw(pushed.message) && storage.items == old(storage.items)
                            && submitted == old(submitted))
    {
      if JsTrim(title) == [] || JsTrim(description) == [] {
        return Missing;
      }
      var request := FeatureRequestJson(title, description, category, priority, isoTime);
      var ok := PushReport(storage, request);
      if ok.Err? {
        return Threw(ok.message);
      }
      submitted := true;
      outcome := Saved;
    }

    /** "Submit Another Request": title and description cleared, category
        and priority back to their defaults. */
    method Reset()
      modifies this
      ensures !submitted && title == "" && description == ""
      ensures category == "enhancement" && priority == "nice-to-have"
      ensures storage.items == old(storage.items)
    {
      submitted := false;
      title := "";
      description := "";
      category := "enhancement";
      priority := "nice-to-have";
    }
  }
}
