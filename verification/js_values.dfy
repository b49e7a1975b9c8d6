/** JavaScript values as they reach the portfolio's logic: parsed JSON bodies, truthiness tests,
    optional-chaining reads, and the values a `catch` clause receives. */
module JsValues {
  import opened Wrappers

  /** A value produced by `JSON.parse`, with finite numbers as reals. */
  datatype Json =
    | JNull
    | JBool(b: bool)
    | JNumber(n: real)
    | JString(s: string)
    | JArray(items: seq<Json>)
    | JObject(fields: map<string, Json>)

  /** JavaScript truthiness of a JSON value: `null`, `false`, `0` and `""` are falsy, everything else truthy. */
  predicate Truthy(v: Json) {
    match v
    case JNull => false
    case JBool(b) => b
    case JNumber(n) => n != 0.0
    case JString(s) => s != ""
    case JArray(_) => true
    case JObject(_) => true
  }

  /** Truthiness of a value that may be `undefined` (`None`), which is falsy. */
  predicate IsTruthy(v: Option<Json>) {
    v.Some? && Truthy(v.value)
  }

  /** Truthiness of an optional string such as an environment variable or a nullable column. */
  predicate TextTruthy(s: Option<string>) {
    s.Some? && s.value != ""
  }

  /** `v?.key` (and, for a `v` that is neither null nor undefined, `v.key`): an own property of a
      JSON object. Arrays, strings, numbers and booleans have no property of the names read here. */
  function Member(v: Option<Json>, key: string): Option<Json> {
    match v
    case Some(JObject(fields)) => if key in fields then Some(fields[key]) else None
    case _ => None
  }

  /** `v?.[0]`: the first element of an array, the property "0" of an object, the first character of a
      string; `undefined` otherwise. */
  function Index0(v: Option<Json>): Option<Json> {
    match v
    case Some(JArray(items)) => if items != [] then Some(items[0]) else None
    case Some(JObject(fields)) => if "0" in fields then Some(fields["0"]) else None
    case Some(JString(s)) => if s != [] then Some(JString([s[0]])) else None
    case _ => None
  }

  /** What a `catch (error)` clause receives: an `Error` instance with its `message`, or any other
      value, carried as its `String(error)` rendering. */
  datatype Thrown = ErrorObject(message: string) | OtherValue(text: string)

  /** `error instanceof Error ? error.message : String(error)`. */
  function ThrownText(t: Thrown): string {
    match t
    case ErrorObject(m) => m
    case OtherValue(s) => s
  }
}
