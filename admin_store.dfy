/** The PWA's admin settings: five flags kept as one JSON object under
    "securescanner-admin", merged over all-false defaults when read. A
    field holds whatever JSON value the stored object gives it. */
module AdminStore {
  import opened WebStorage

  const AdminStoreKey: string := "securescanner-admin"

  datatype AdminSettings = AdminSettings(
    premiumUnlocked: JsonValue,
    sentisightEnabled: JsonValue,
    bugReportVisible: JsonValue,
    featureRequestVisible: JsonValue,
    adminUnlocked: JsonValue)

  /** `DEFAULT_ADMIN_SETTINGS`. */
  function Defaults(): (d: AdminSettings)
    ensures d.premiumUnlocked == d.sentisightEnabled == d.bugReportVisible
         == d.featureRequestVisible == d.adminUnlocked == JBool(false)
  {
    AdminSettings(JBool(false), JBool(false), JBool(false), JBool(false), JBool(false))
  }

  /** `{ ...defaults, ...parsed }` restricted to the five fields: an
      object's own field wins, anything else leaves the default. */
  function FieldOr(parsed: JsonValue, name: string, default: JsonValue): JsonValue {
    if parsed.JObj? && name in parsed.fields then parsed.fields[name] else default
  }

  function Merge(parsed: JsonValue): AdminSettings {
    var d := Defaults();
    AdminSettings(
      FieldOr(parsed, "premiumUnlocked", d.premiumUnlocked),
      FieldOr(parsed, "sentisightEnabled", d.sentisightEnabled),
      FieldOr(parsed, "bugReportVisible", d.bugReportVisible),
      FieldOr(parsed, "featureRequestVisible", d.featureRequestVisible),
      FieldOr(parsed, "adminUnlocked", d.adminUnlocked))
  }

  /** `loadAdminSettings`. */
  function Load(items: map<string, Stored>): AdminSettings {
    if AdminStoreKey in items && items[AdminStoreKey].Encoded? then Merge(items[AdminStoreKey].value)
    else Defaults()
  }

  /** `JSON.stringify(settings)`, as the value it encodes. */
  function ToJson(s: AdminSettings): (v: JsonValue)
    ensures v.JObj?
  {
    JObj(map[
      "premiumUnlocked" := s.premiumUnlocked,
      "sentisightEnabled" := s.sentisightEnabled,
      "bugReportVisible" := s.bugReportVisible,
      "featureRequestVisible" := s.featureRequestVisible,
      "adminUnlocked" := s.adminUnlocked])
  }

  /** The store after `saveAdminSettings(s)`. */
  function Saved(items: map<string, Stored>, s: AdminSettings): map<string, Stored> {
    items[AdminStoreKey := Encoded(ToJson(s))]
  }

  /** `isAdminUnlocked`. */
  function IsAdminUnlocked(items: map<string, Stored>): JsonValue {
    Load(items).adminUnlocked
  }

  /** The store after `unlockAdmin` (flag true) or `lockAdmin` (false). */
  function WithAdminFlag(items: map<string, Stored>, flag: bool): map<string, Stored> {
    Saved(items, Load(items).(adminUnlocked := JBool(flag)))
  }

  /** Nothing stored, or text that is not JSON, reads as the defaults. */
  lemma LoadFallsBack(items: map<string, Stored>)
    requires AdminStoreKey !in items || items[AdminStoreKey].Raw?
    ensures Load(items) == Defaults()
  {
  }

  /** A stored object's fields override the defaults one by one; fields
      it lacks keep their defaults. */
  lemma LoadOverrides(items: map<string, Stored>, fields: map<string, JsonValue>)
    requires AdminStoreKey in items && items[AdminStoreKey] == Encoded(JObj(fields))
    ensures "adminUnlocked" in fields ==> Load(items).adminUnlocked == fields["adminUnlocked"]
    ensures "adminUnlocked" !in fields ==> Load(items).adminUnlocked == JBool(false)
    ensures "premiumUnlocked" in fields ==> Load(items).premiumUnlocked == fields["premiumUnlocked"]
    ensures "premiumUnlocked" !in fields ==> Load(items).premiumUnlocked == JBool(false)
    ensures "sentisightEnabled" in fields ==> Load(items).sentisightEnabled == fields["sentisightEnabled"]
    ensures "sentisightEnabled" !in fields ==> Load(items).sentisightEnabled == JBool(false)
    ensures "bugReportVisible" in fields ==> Load(items).bugReportVisible == fields["bugReportVisible"]
    ensures "bugReportVisible" !in fields ==> Load(items).bugReportVisible == JBool(false)
    ensures "featureRequestVisible" in fields ==> Load(items).featureRequestVisible == fields["featureRequestVisible"]
    ensures "featureRequestVisible" !in fields ==> Load(items).featureRequestVisible == JBool(false)
  {
  }

  /** Saving then loading gives back the saved settings, and leaves every
      other key of the store alone. */
  lemma SaveLoadRoundTrip(items: map<string, Stored>, s: AdminSettings)
    ensures Load(Saved(items, s)) == s
    ensures forall k :: k in items && k != AdminStoreKey ==> k in Saved(items, s) && Saved(items, s)[k] == items[k]
  {
  }

  /** Unlocking and locking change the admin flag only: the other four
      settings read back as before, and the flag reads back as set. */
  lemma FlagChangesOneField(items: map<string, Stored>, flag: bool)
    ensures Load(WithAdminFlag(items, flag)) == Load(items).(adminUnlocked := JBool(flag))
    ensures Truthy(IsAdminUnlocked(WithAdminFlag(items, flag))) == flag
  {
    SaveLoadRoundTrip(items, Load(items).(adminUnlocked := JBool(flag)));
  }

  /** Unlocking twice is unlocking once, and so for locking; the last
      call decides. */
  lemma FlagIdempotent(items: map<string, Stored>, first: bool, second: bool)
    ensures WithAdminFlag(WithAdminFlag(items, first), second) == WithAdminFlag(items, second)
  {
    FlagChangesOneField(items, first);
  }

  /** `saveAdminSettings` on the browser's storage. */
  method SaveAdminSettings(storage: LocalStorage, s: AdminSettings)
    modifies storage
    ensures storage.items == Saved(old(storage.items), s)
  {
    storage.SetItem(AdminStoreKey, Encoded(ToJson(s)));
  }

  /** `loadAdminSettings` on the browser's storage. */
  method LoadAdminSettings(storage: LocalStorage) returns (s: AdminSettings)
    ensures s == Load(storage.items)
  {
    var saved := storage.GetItem(AdminStoreKey);
    if saved.Some? && saved.value != Raw("") {
      var parsed := Parse(saved.value);
      if parsed.Ok? {
        return Merge(parsed.value);
      }
    }
    s := Defaults();
  }

  /** `unlockAdmin`: load, set the flag, save. */
  method UnlockAdmin(storage: LocalStorage)
    modifies storage
    ensures storage.items == WithAdminFlag(old(storage.items), true)
  {
    var settings := LoadAdminSettings(storage);
    settings := settings.(adminUnlocked := JBool(true));
    SaveAdminSettings(storage, settings);
  }

  /** `lockAdmin`: load, clear the flag, save. */
  method LockAdmin(storage: LocalStorage)
    modifies storage
    ensures storage.items == WithAdminFlag(old(storage.items), false)
  {
    var settings := LoadAdminSettings(storage);
    settings := settings.(adminUnlocked := JBool(false));
    SaveAdminSettings(storage, settings);
  }
}
