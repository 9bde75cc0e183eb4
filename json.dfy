/** Values as the backend sees them after `json.loads`: an optional parse
    result and the JSON value tree that Python represents with dicts, lists,
    strings, numbers, booleans and None. */
module Json {

  /** The result of a parse that may fail: `None` stands for the exception
      `json.loads` raises on text that is not JSON. */
  datatype Option<+T> = None | Some(value: T)

  /** A JSON value. Objects are keyed by their member names; numbers are
      integers (the model never needs a fractional JSON number). */
  datatype Json =
    | JNull
    | JBool(b: bool)
    | JNumber(n: int)
    | JString(s: string)
    | JArray(items: seq<Json>)
    | JObject(fields: map<string, Json>)

  /** Python's `d.get(key, default)` on a dict. */
  function Get(d: map<string, Json>, key: string, default: Json): Json
  {
    if key in d then d[key] else default
  }

  /** True when Python's built-in `len()` accepts the value: strings, lists
      and dicts. On None, booleans and numbers `len()` raises `TypeError`. */
  predicate HasLen(j: Json)
  {
    j.JString? || j.JArray? || j.JObject?
  }
}
