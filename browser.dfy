/** The browser state the front end reads and writes: localStorage and the
    page location, plus the JSON documents that JSON.stringify stores.

    localStorage holds strings. A string written by JSON.stringify is kept as
    the document it encodes, so that JSON.parse can give it back; any other
    string is kept as text. */
module BrowserStorage {
  import opened Common

  datatype Json =
    | JNull
    | JBool(b: bool)
    | JNumber(n: int)
    | JString(s: string)
    | JArray(items: seq<Json>)
    | JObject(fields: seq<JsonField>)

  datatype JsonField = JsonField(name: string, value: Json)

  /** JSON.stringify (string escapes are not modelled). */
  function JsonText(j: Json): (t: string)
    ensures |t| > 0
    decreases j, 1
  {
    match j
    case JNull => "null"
    case JBool(b) => if b then "true" else "false"
    case JNumber(n) => IntToString(n)
    case JString(s) => "\"" + s + "\""
    case JArray(items) => "[" + ItemsText(items) + "]"
    case JObject(fields) => "{" + FieldsText(fields) + "}"
  }

  function ItemsText(items: seq<Json>): string
    decreases items, 0
  {
    if items == [] then ""
    else JsonText(items[0]) + (if |items| > 1 then "," else "") + ItemsText(items[1..])
  }

  function FieldsText(fields: seq<JsonField>): string
    decreases fields, 0
  {
    if fields == [] then ""
    else
      assert fields[0] in fields;
      "\"" + fields[0].name + "\":" + JsonText(fields[0].value) + (if |fields| > 1 then "," else "") + FieldsText(fields[1..])
  }

  /** JavaScript truthiness of a parsed document. */
  predicate JsonTruthy(j: Json) {
    match j
    case JNull => false
    case JBool(b) => b
    case JNumber(n) => n != 0
    case JString(s) => s != ""
    case _ => true
  }

  /** A localStorage value. */
  datatype StoredValue = Text(text: string) | Serialized(doc: Json)

  /** The string localStorage.getItem returns for a stored value. */
  function ItemText(v: StoredValue): string {
    match v
    case Text(t) => t
    case Serialized(doc) => JsonText(doc)
  }

  /** JSON.parse of a stored value: the document for a stringified value; a
      plain text value counts as malformed JSON. */
  function Parse(v: StoredValue): Result<Json, string> {
    match v
    case Serialized(doc) => Ok(doc)
    case Text(_) => Err("SyntaxError")
  }

  /** What localStorage.setItem stores for a JavaScript value that may be
      undefined: setItem turns undefined into the text "undefined". */
  function TextOrUndefined(v: Option<string>): StoredValue {
    if v.Some? then Text(v.value) else Text("undefined")
  }

  /** setItem(key, JSON.stringify(v)): JSON.stringify(undefined) is undefined,
      which setItem stores as the text "undefined". */
  function StringifiedOrUndefined(v: Option<Json>): StoredValue {
    if v.Some? then Serialized(v.value) else Text("undefined")
  }

  /** !!localStorage.getItem(key): present and not the empty string. */
  predicate ItemTruthy(storage: map<string, StoredValue>, key: string) {
    key in storage && ItemText(storage[key]) != ""
  }

  const ACCESS_TOKEN_KEY: string := "cinequest_access_token"
  const REFRESH_TOKEN_KEY: string := "cinequest_refresh_token"
  const USER_KEY: string := "cinequest_user"
  const LOGIN_PATH: string := "/login"

  /** The three session keys. */
  const SESSION_KEYS: set<string> := {ACCESS_TOKEN_KEY, REFRESH_TOKEN_KEY, USER_KEY}

  /** The storage after the three session keys are removed. */
  function ClearSession(storage: map<string, StoredValue>): (r: map<string, StoredValue>)
    ensures forall k :: k in r <==> k in storage && k !in SESSION_KEYS
    ensures forall k :: k in r ==> r[k] == storage[k]
  {
    storage - SESSION_KEYS
  }

  /** window.localStorage and window.location. */
  class Browser {
    var storage: map<string, StoredValue>
    var location: string

    constructor (storage0: map<string, StoredValue>, location0: string)
      ensures storage == storage0 && location == location0
    {
      storage, location := storage0, location0;
    }

    function GetItem(key: string): Option<StoredValue>
      reads this
    {
      if key in storage then Some(storage[key]) else None
    }

    method SetItem(key: string, value: StoredValue)
      modifies this
      ensures storage == old(storage)[key := value] && location == old(location)
    {
      storage := storage[key := value];
    }

    method RemoveItem(key: string)
      modifies this
      ensures storage == old(storage) - {key} && location == old(location)
    {
      storage := storage - {key};
    }

    /** The three removeItem calls for the session keys. */
    method RemoveSession()
      modifies this
      ensures storage == ClearSession(old(storage)) && location == old(location)
    {
      RemoveItem(ACCESS_TOKEN_KEY);
      RemoveItem(REFRESH_TOKEN_KEY);
      RemoveItem(USER_KEY);
    }
  }
}
