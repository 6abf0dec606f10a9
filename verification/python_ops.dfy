/**
 * The Python operations the legacy handler applies to a decoded hub reply (`len`, `x[0]`,
 * `x['key']`, `'key' in x`), with the exception each raises on a value of the wrong type.
 * Messages are CPython 3.11's `str(e)`.
 */
module PyOps {
  import opened Wrappers
  import opened JsonValues
  import opened Strings

  /** A raised exception: its class name and `str(e)`. */
  datatype PyError = PyError(kind: string, message: string)

  /** The outcome of a Python expression: a value or the exception it raised. */
  type Py<T> = Result<T, PyError>

  function TypeError(message: string): PyError {
    PyError("TypeError", message)
  }

  /** `KeyError(k)` for a string key: `str(e)` is the key's repr. */
  function KeyError(key: string): PyError {
    PyError("KeyError", "'" + key + "'")
  }

  /** Whether `len` is defined on the value's Python type. */
  predicate Sized(j: Json) {
    j.JString? || j.JArray? || j.JObject?
  }

  /** `len(j)`. */
  function Len(j: Json): (r: Py<nat>)
    ensures r.Success? <==> Sized(j)
    ensures j.JString? ==> r == Success(|j.s|)
    ensures j.JArray? ==> r == Success(|j.items|)
    ensures j.JObject? ==> r == Success(|j.fields|)
    ensures r.Failure? ==> r.error == TypeError("object of type '" + PyTypeName(j) + "' has no len()")
  {
    match j
    case JString(s) => Success(|s|)
    case JArray(items) => Success(|items|)
    case JObject(fields) => Success(|fields|)
    case _ => Failure(TypeError("object of type '" + PyTypeName(j) + "' has no len()"))
  }

  /**
   * `j[0]` on a value whose length is positive: the first element of a list, the first
   * character of a string; a dict has only string keys, so the integer key 0 is never found.
   */
  function Index0(j: Json): (r: Py<Json>)
    requires Len(j).Success? && Len(j).value > 0
    ensures r.Success? <==> !j.JObject?
    ensures j.JArray? ==> r == Success(j.items[0])
    ensures j.JString? ==> r == Success(JString(j.s[..1]))
    ensures j.JObject? ==> r == Failure(PyError("KeyError", "0"))
  {
    match j
    case JArray(items) => Success(items[0])
    case JString(s) => Success(JString(s[..1]))
    case JObject(_) => Failure(PyError("KeyError", "0"))
  }

  /** `j[key]` with a string key. */
  function Subscript(j: Json, key: string): (r: Py<Json>)
    ensures r.Success? <==> j.JObject? && key in j.fields
    ensures r.Success? ==> r.value == j.fields[key]
    ensures j.JObject? && key !in j.fields ==> r == Failure(KeyError(key))
    ensures !j.JObject? ==> r.Failure? && r.error.kind == "TypeError"
  {
    match j
    case JObject(fields) => if key in fields then Success(fields[key]) else Failure(KeyError(key))
    case JArray(_) => Failure(TypeError("list indices must be integers or slices, not str"))
    case JString(_) => Failure(TypeError("string indices must be integers, not 'str'"))
    case _ => Failure(TypeError("'" + PyTypeName(j) + "' object is not subscriptable"))
  }

  /** `item in j` for a string `item`: key membership, element equality or substring. */
  function Contains(j: Json, item: string): (r: Py<bool>)
    ensures r.Success? <==> Sized(j)
    ensures j.JObject? ==> r == Success(item in j.fields)
    ensures j.JArray? ==> r == Success(JString(item) in j.items)
    ensures j.JString? ==> r == Success(exists i :: 0 <= i <= |j.s| && item <= j.s[i..])
    ensures r.Failure? ==> r.error == TypeError("argument of type '" + PyTypeName(j) + "' is not iterable")
  {
    match j
    case JObject(fields) => Success(item in fields)
    case JArray(items) => Success(JString(item) in items)
    case JString(s) => Success(IsSubstring(item, s))
    case _ => Failure(TypeError("argument of type '" + PyTypeName(j) + "' is not iterable"))
  }
}
