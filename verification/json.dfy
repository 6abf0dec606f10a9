/** Decoded JSON values, as Python's `json` module hands them to the services. */
module JsonValues {
  import opened Wrappers

  /** A JSON value. Objects are unordered: insertion order of Python dicts is not modelled. */
  datatype Json =
    | JNull
    | JBool(b: bool)
    | JInt(i: int)
    | JString(s: string)
    | JArray(items: seq<Json>)
    | JObject(fields: map<string, Json>)

  /** A JSON object body, the shape of every request payload. */
  type JsonObject = map<string, Json>

  /** The name of the Python type a decoded value has (`None`, `bool`, `int`, `str`, `list`, `dict`). */
  function PyTypeName(j: Json): string {
    match j
    case JNull => "NoneType"
    case JBool(_) => "bool"
    case JInt(_) => "int"
    case JString(_) => "str"
    case JArray(_) => "list"
    case JObject(_) => "dict"
  }

  /** An optional Python `str` as it lands in a payload: `None` becomes JSON `null`. */
  function OptionalString(v: Option<string>): (r: Json)
    ensures v.None? <==> r == JNull
    ensures v.Some? ==> r == JString(v.value)
  {
    match v
    case None => JNull
    case Some(s) => JString(s)
  }
}
