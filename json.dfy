/** A decoded JSON value, as `JSON.parse` returns it, and the few JavaScript operations the
    Spotify layer applies to one: property access, truthiness and conversion to a string.
    Numbers are integers here. */
module Json {
  import opened Wrappers
  import JsText

  datatype Json =
    | JNull
    | JBool(b: bool)
    | JNumber(n: int)
    | JString(s: string)
    | JArray(elems: seq<Json>)
    | JObject(fields: map<string, Json>)

  /** `typeof v === "object" && v !== null`: arrays count as records too. */
  predicate IsRecord(v: Json) {
    v.JArray? || v.JObject?
  }

  /** `v[key]` on a non-null value; `None` is `undefined`. A JSON array has no named keys. */
  function Get(v: Json, key: string): (r: Option<Json>)
    ensures r.Some? ==> v.JObject? && key in v.fields && r.value == v.fields[key]
    ensures v.JObject? && key in v.fields ==> r.Some?
  {
    if v.JObject? && key in v.fields then Some(v.fields[key]) else None
  }

  /** JavaScript truthiness of a possibly-undefined value. */
  predicate Truthy(v: Option<Json>) {
    match v
    case None => false
    case Some(JNull) => false
    case Some(JBool(b)) => b
    case Some(JNumber(n)) => n != 0
    case Some(JString(s)) => s != ""
    case Some(_) => true
  }

  /** `String(v)`, as a template literal converts a value. */
  function ToJsString(v: Json): (r: string)
    ensures v.JString? ==> r == v.s
    decreases v
  {
    match v
    case JNull => "null"
    case JBool(b) => if b then "true" else "false"
    case JNumber(n) => JsText.IntToString(n)
    case JString(s) => s
    case JArray(elems) =>
      // Array.prototype.toString joins the elements with "," and writes null as ""
      JsText.Join(seq(|elems|, i requires 0 <= i < |elems| =>
        if elems[i].JNull? then "" else ToJsString(elems[i])), ",")
    case JObject(_) => "[object Object]"
  }
}
