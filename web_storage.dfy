/** The browser's `localStorage` as the PWA uses it: a string-keyed
    store whose values are either JSON text (represented by the value it
    encodes, so that `JSON.parse(JSON.stringify(v))` gives `v` back) or
    other text that `JSON.parse` rejects. */
module WebStorage {
  import opened Wrappers

  /** A JSON value. Numbers are integers here. */
  datatype JsonValue =
    | JNull
    | JBool(b: bool)
    | JNum(n: int)
    | JStr(s: string)
    | JArr(items: seq<JsonValue>)
    | JObj(fields: map<string, JsonValue>)

  /** What a key holds: the text `JSON.stringify` made of a value, or some
      other text that is not valid JSON. */
  datatype Stored = Encoded(value: JsonValue) | Raw(text: string)

  /** JavaScript truthiness of a parsed value. */
  predicate Truthy(v: JsonValue) {
    match v
    case JNull => false
    case JBool(b) => b
    case JNum(n) => n != 0
    case JStr(s) => s != ""
    case JArr(_) => true
    case JObj(_) => true
  }

  /** `JSON.parse`: the encoded value, or the SyntaxError it throws on
      other text. */
  function Parse(stored: Stored): (r: Result<JsonValue>)
    ensures r.Ok? <==> stored.Encoded?
    ensures r.Ok? ==> r.value == stored.value
  {
    match stored
    case Encoded(v) => Ok(v)
    case Raw(_) => Err(Some("Unexpected token"))
  }

  /** `getItem(key) || fallback`: an absent key and the empty string are
      both falsy. JSON text is never empty. */
  function GetItemOr(items: map<string, Stored>, key: string, fallback: Stored): (r: Stored)
    ensures key !in items ==> r == fallback
    ensures key in items && items[key] != Raw("") ==> r == items[key]
  {
    if key !in items || items[key] == Raw("") then fallback else items[key]
  }

  class LocalStorage {
    var items: map<string, Stored>

    constructor (items: map<string, Stored>)
      ensures this.items == items
    {
      this.items := items;
    }

    /** `getItem`: null for an absent key. */
    method GetItem(key: string) returns (r: Option<Stored>)
      ensures r.Some? <==> key in items
      ensures r.Some? ==> r.value == items[key]
    {
      if key in items {
        r := Some(items[key]);
      } else {
        r := None;
      }
    }

    /** `setItem`: only `key` changes. */
    method SetItem(key: string, value: Stored)
      modifies this
      ensures items == old(items)[key := value]
    {
      items := items[key := value];
    }
  }
}
