/**
 * JSON values as the services exchange them: request bodies, RunPod job inputs and the
 * objects `json.loads` produces. Numbers are kept as exact reals; the double-precision
 * rounding of JavaScript and Python numbers is not modelled.
 */
module JsonValue {
  datatype Json =
    | JNull
    | JBool(b: bool)
    | JNum(n: real)
    | JStr(s: string)
    | JArray(items: seq<Json>)
    | JObject(fields: map<string, Json>)

  /** A JSON number with no fractional part (`Number.isInteger` in JavaScript). */
  predicate IsInteger(x: real) {
    x.Floor as real == x
  }
}
