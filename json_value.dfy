/**
 * The values `json.loads` can produce, and the outcome of a call to it.
 * Parsing itself is not modelled: a caller supplies the outcome.
 */
module JsonValue {

  /** A parsed JSON document as Python sees it: `None`, `bool`, `int`,
      `float` (kept as its literal), `str`, `list` and `dict`. */
  datatype Json =
    | JNull
    | JBool(b: bool)
    | JInt(i: int)
    | JFloat(literal: string)
    | JString(s: string)
    | JArray(items: seq<Json>)
    | JObject(fields: map<string, Json>)

  /** What `json.loads(text)` did: returned a value, raised
      `json.JSONDecodeError`, or raised some other exception (for instance
      `RecursionError` on deeply nested input). */
  datatype ParseOutcome =
    | Parsed(value: Json)
    | DecodeError
    | OtherError(message: string)

  /** Python's `type(v).__name__` for each kind of parsed value. */
  function TypeName(v: Json): string {
    match v
    case JNull => "NoneType"
    case JBool(_) => "bool"
    case JInt(_) => "int"
    case JFloat(_) => "float"
    case JString(_) => "str"
    case JArray(_) => "list"
    case JObject(_) => "dict"
  }

  /** `len(v)` for a list or dict, 1 for every other value. */
  function ElementCount(v: Json): nat {
    match v
    case JArray(items) => |items|
    case JObject(fields) => |fields|
    case _ => 1
  }
}
