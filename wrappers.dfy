/** Small value types shared by every module: optional values, results,
    and the JSON-like dictionaries that the tools exchange. */
module Wrappers {

  datatype Option<+T> = None | Some(value: T)

  datatype Result<+T, +E> = Ok(value: T) | Err(error: E)

  /** A JSON-like value: what a Python `dict[str, Any]` payload holds. */
  datatype Json =
    | JNull
    | JBool(b: bool)
    | JInt(i: int)
    | JStr(s: string)
    | JArr(items: seq<Json>)
    | JObj(fields: map<string, Json>)

  /** Python truthiness of an optional string argument: `None` and `""` are falsy. */
  predicate Truthy(s: Option<string>) {
    s.Some? && s.value != ""
  }

  /** Python's `a or b` for an optional string with a string fallback. */
  function OrElse(s: Option<string>, fallback: string): string {
    if Truthy(s) then s.value else fallback
  }

  /** An optional string as JSON: `None` becomes `null`. */
  function OptStr(s: Option<string>): Json {
    if s.Some? then JStr(s.value) else JNull
  }

  /** An optional integer as JSON: `None` becomes `null`. */
  function OptInt(n: Option<int>): Json {
    if n.Some? then JInt(n.value) else JNull
  }
}
