/** A JSON value after `json.loads`: the shape the quiz validator and the
    question buffer work on. Objects are maps (Python dicts; key order plays
    no part in anything modelled here). */
module Json {
  import opened Text
  import opened Wrappers

  datatype Json =
    | JNull
    | JBool(b: bool)
    | JNumber(n: int)
    | JString(s: string)
    | JArray(items: seq<Json>)
    | JObject(fields: map<string, Json>)

  /** Python `key in v` for a string `key` and a parsed JSON value `v`: key
      membership for a dict, element equality for a list, substring search for
      a str; `None` where Python raises TypeError (number, bool, None). */
  function PyIn(key: string, v: Json): Option<bool> {
    match v
    case JObject(f) => Some(key in f)
    case JArray(xs) => Some(JString(key) in xs)
    case JString(s) => Some(Contains(s, key))
    case _ => None
  }
}
