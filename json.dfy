/**
 * The JSON values that the Google Ads API returns as result rows, and
 * Python's subscript `value[key]` on them.
 */
module Json {
  import opened Wrappers

  datatype Json =
    | JNull
    | JBool(b: bool)
    | JInt(i: int)
    | JNum(r: real)   // a number written with a fraction or an exponent, decoded as a float
    | JStr(s: string)
    | JArray(items: seq<Json>)
    | JObject(fields: map<string, Json>)

  /** The exceptions Python raises for `value[key]` with a string key. */
  datatype LookupError =
    | KeyError(key: string)   // a dict without that key
    | TypeError               // None, a bool, a number, a string or a list

  /** Python's `value[key]` for a string `key`. */
  function Get(v: Json, key: string): (r: Result<Json, LookupError>)
    ensures r.Ok? <==> v.JObject? && key in v.fields
    ensures r.Ok? ==> r.value == v.fields[key]
    ensures r == Err(TypeError) <==> !v.JObject?
  {
    match v
    case JObject(fields) => if key in fields then Ok(fields[key]) else Err(KeyError(key))
    case _ => Err(TypeError)
  }

  /**
   * Python's `v == True` on a decoded JSON value: `True == True`, and also
   * `1 == True` and `1.0 == True`, because `bool` is a subclass of `int`
   * and numbers compare by value.
   */
  predicate EqualsTrue(v: Json) {
    v == JBool(true) || v == JInt(1) || v == JNum(1.0)
  }
}
