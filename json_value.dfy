/** Parsed JSON values as the relay's handlers see them, with the two
    Python operations the handlers apply to them: `len(...)` and truth
    testing (`if not ...`). */
module JsonValue {
  import opened Wrappers

  /** A parsed JSON document. Numbers are kept as reals (integers and
      fractions alike); an object is a mapping from keys to values. */
  datatype Json =
    | JNull
    | JBool(b: bool)
    | JNum(n: real)
    | JStr(s: string)
    | JArr(items: seq<Json>)
    | JObj(fields: map<string, Json>)

  /** A request body as `await request.json()` delivers it: either the body
      could not be parsed, or it parsed to a JSON value. */
  datatype Body = Malformed | Parsed(value: Json)

  /** Python's truth value of a parsed JSON value: `None`, `False`, zero,
      and the empty string, list and dict are false. */
  predicate Truthy(j: Json)
    ensures Truthy(j) <==>
              j !in {JNull, JBool(false), JNum(0.0), JStr(""), JArr([]), JObj(map[])}
  {
    match j
    case JNull => false
    case JBool(b) => b
    case JNum(n) => n != 0.0
    case JStr(s) => |s| != 0
    case JArr(items) => |items| != 0
    case JObj(fields) => |fields| != 0
  }

  /** Python's `len(...)` on a parsed JSON value: strings, lists and dicts
      have a length; `len` of anything else raises, modelled as `None`. */
  function Length(j: Json): (r: Option<nat>)
    ensures r.Some? <==> (j.JStr? || j.JArr? || j.JObj?)
    ensures r.Some? ==> (Truthy(j) <==> r.value > 0)
  {
    match j
    case JStr(s) => Some(|s|)
    case JArr(items) => Some(|items|)
    case JObj(fields) => Some(|fields|)
    case _ => None
  }

  /** `fields.get(key, default)` on a parsed JSON object. */
  function Get(fields: map<string, Json>, key: string, default: Json): (r: Json)
    ensures r == (map[key := default] + fields)[key]
  {
    if key in fields then fields[key] else default
  }
}
