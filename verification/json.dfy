/** The untyped documents the archive client hands over, as Python's
    `json.load` produces them, except that integers and floats are one
    real-valued `JNum`. `JNull` is Python's `None`, so a key that is present
    with a null value and a `get` that falls back to `None` look the same, as
    they do in the source. Objects are maps: when a document repeats a key the
    last value wins, as in `json.load`. */
module JsonValues {

  datatype Json =
    | JNull
    | JBool(b: bool)
    | JNum(n: real)
    | JStr(s: string)
    | JArr(items: seq<Json>)
    | JObj(fields: map<string, Json>)

  /** Python truthiness: `not j` holds exactly when this is false. */
  predicate Truthy(j: Json) {
    match j
    case JNull => false
    case JBool(b) => b
    case JNum(n) => n != 0.0
    case JStr(s) => |s| > 0
    case JArr(items) => |items| > 0
    case JObj(fields) => |fields| > 0
  }

  /** `fields.get(key, default)` on a dict. */
  function Get(fields: map<string, Json>, key: string, default: Json): Json {
    if key in fields then fields[key] else default
  }
}
