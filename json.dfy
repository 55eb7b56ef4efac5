/**
 * The slice of JSON the handlers read and write: scalar event fields are strings or
 * null, and the before/after states they publish are nested objects.
 */
module Json {
  import opened Wrappers

  /** A scalar event field's value: JSON `null` (Python `None`) or a string. */
  datatype Value = Null | Str(s: string)

  /** A JSON document of the shapes the handlers build: null, booleans, strings and objects. */
  datatype Json = JNull | JBool(b: bool) | JStr(str: string) | JObj(fields: map<string, Json>)

  /** Python's `d.get(k)`: the value when the key is present, `None` otherwise. */
  function Get(field: Option<Value>): Value {
    field.GetOr(Null)
  }

  /** Python's `d.get(k, default)` with a string default. */
  function GetOr(field: Option<Value>, default: string): Value {
    field.GetOr(Str(default))
  }

  /** Python truthiness of a scalar: `None` and `''` are falsy. */
  predicate Truthy(v: Value) {
    v.Str? && v.s != ""
  }

  /** Python's `v or default` on a scalar. */
  function OrElse(v: Value, default: string): (r: string)
    ensures Truthy(v) ==> r == v.s
    ensures !Truthy(v) ==> r == default
    ensures default != "" ==> r != ""
  {
    if Truthy(v) then v.s else default
  }

  /** Python's `str(v)`, as an f-string renders it. */
  function Show(v: Value): string {
    match v
    case Null => "None"
    case Str(s) => s
  }

  /** A scalar as a JSON document. */
  function ValueJson(v: Value): Json {
    match v
    case Null => JNull
    case Str(s) => JStr(s)
  }

  /** A string-to-string dict as a JSON object. */
  function StringsJson(m: map<string, string>): (j: Json)
    ensures j.JObj? && j.fields.Keys == m.Keys
  {
    JObj(map k | k in m :: JStr(m[k]))
  }

  /** Reads a JSON object of strings back into a dict; `None` for anything else. */
  function JsonStrings(j: Json): Option<map<string, string>> {
    if j.JObj? && forall k | k in j.fields :: j.fields[k].JStr? then
      Some(map k | k in j.fields :: j.fields[k].str)
    else
      None
  }

  /** Encoding a dict of strings as JSON loses nothing. */
  lemma StringsRoundTrip(m: map<string, string>)
    ensures JsonStrings(StringsJson(m)) == Some(m)
  {
    var j := StringsJson(m);
    var back := map k | k in j.fields :: j.fields[k].str;
    assert back == m;
  }
}
