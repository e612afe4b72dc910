/** JSON values as the client sees them after `json.loads`, together with the
    handful of Python dict/list/str operations the client applies to them
    (`.get`, `[key]`, `in`, iteration, truthiness). Each operation returns the
    exception Python raises when the receiver has the wrong shape, so that
    every branch of the client can be stated over these values. */
module JsonValues {

  /** A decoded JSON value. Objects are dicts; their key order is not modelled. */
  datatype Json =
    | JNull
    | JBool(b: bool)
    | JInt(i: int)
    | JFloat(r: real)
    | JString(s: string)
    | JArray(items: seq<Json>)
    | JObject(fields: map<string, Json>)

  /** A raised Python exception: its class name and `str(e)`. */
  datatype PyError = PyError(kind: string, message: string)

  /** What a Python expression evaluates to, or the exception it raises. */
  datatype Result<T> = Ok(value: T) | Err(error: PyError) {
    predicate IsFailure() { Err? }
    function PropagateFailure<U>(): Result<U> requires Err? { Err(error) }
    function Extract(): T requires Ok? { value }
  }

  datatype Option<T> = None | Some(value: T)

  const EmptyObject: Json := JObject(map[])

  /** Python truthiness of a decoded value (`bool(v)`). */
  predicate Truthy(v: Json)
  {
    match v
    case JNull => false
    case JBool(b) => b
    case JInt(i) => i != 0
    case JFloat(r) => r != 0.0
    case JString(s) => s != ""
    case JArray(items) => items != []
    case JObject(fields) => fields != map[]
  }

  /** The falsy values are exactly `None`, `False`, zero, and the empty
      string, list and dict. */
  lemma FalsyValues(v: Json)
    ensures !Truthy(v) <==>
      v == JNull || v == JBool(false) || v == JInt(0) || v == JFloat(0.0) ||
      v == JString("") || v == JArray([]) || v == EmptyObject
  {
  }

  /** The Python type name of a decoded value, as it appears in error messages. */
  function TypeName(v: Json): string
  {
    match v
    case JNull => "NoneType"
    case JBool(_) => "bool"
    case JInt(_) => "int"
    case JFloat(_) => "float"
    case JString(_) => "str"
    case JArray(_) => "list"
    case JObject(_) => "dict"
  }

  /** `AttributeError` for calling a str/dict method on a value of another type. */
  function NoAttribute(v: Json, attribute: string): PyError
  {
    PyError("AttributeError", "'" + TypeName(v) + "' object has no attribute '" + attribute + "'")
  }

  /** `v.get(key, default)`. */
  function Get(v: Json, key: string, default: Json): (r: Result<Json>)
    ensures v.JObject? <==> r.Ok?
    ensures v.JObject? && key in v.fields ==> r == Ok(v.fields[key])
    ensures v.JObject? && key !in v.fields ==> r == Ok(default)
    ensures !v.JObject? ==> r == Err(NoAttribute(v, "get")) && r.error.kind == "AttributeError"
  {
    match v
    case JObject(fields) => Ok(if key in fields then fields[key] else default)
    case _ => Err(NoAttribute(v, "get"))
  }

  /** `v[key]` with a string key. */
  function Subscript(v: Json, key: string): (r: Result<Json>)
    ensures r.Ok? <==> v.JObject? && key in v.fields
    ensures r.Ok? ==> r.value == v.fields[key]
    ensures v.JObject? && key !in v.fields ==> r == Err(PyError("KeyError", "'" + key + "'"))
    ensures !v.JObject? ==> r.error.kind == "TypeError"
  {
    match v
    case JObject(fields) =>
      if key in fields then Ok(fields[key]) else Err(PyError("KeyError", "'" + key + "'"))
    case JString(_) => Err(PyError("TypeError", "string indices must be integers, not 'str'"))
    case JArray(_) => Err(PyError("TypeError", "list indices must be integers or slices, not str"))
    case _ => Err(PyError("TypeError", "'" + TypeName(v) + "' object is not subscriptable"))
  }

  /** `sub` occurs in `s` at some position (Python's `sub in s` on strings). */
  predicate IsSubstring(sub: string, s: string)
  {
    exists i :: 0 <= i <= |s| && sub <= s[i..]
  }

  /** `key in v`: key membership for a dict, element equality for a list,
      substring search for a str; every other type raises. */
  function Contains(key: string, v: Json): (r: Result<bool>)
    ensures r.Ok? <==> v.JObject? || v.JArray? || v.JString?
    ensures v.JObject? ==> r == Ok(key in v.fields)
    ensures v.JArray? ==> r == Ok(JString(key) in v.items)
    ensures v.JString? ==> r == Ok(IsSubstring(key, v.s))
  {
    match v
    case JObject(fields) => Ok(key in fields)
    case JArray(items) => Ok(JString(key) in items)
    case JString(s) => Ok(IsSubstring(key, s))
    case _ => Err(PyError("TypeError", "argument of type '" + TypeName(v) + "' is not iterable"))
  }

  /** The entries a `for t in v: ... t["name"] ...` loop visits before it stops.
      A list yields its items. An empty str or dict yields nothing. A non-empty
      str or dict yields str items, and subscripting the first one with a string
      raises before anything is done with it, which is reported here as the
      error of the whole iteration. Every other type is not iterable. */
  function IterateForSubscript(v: Json): (r: Result<seq<Json>>)
    ensures v.JArray? ==> r == Ok(v.items)
    ensures v == JString("") || v == EmptyObject ==> r == Ok([])
    ensures r.Ok? <==> v.JArray? || v == JString("") || v == EmptyObject
    ensures (v.JString? || v.JObject?) && Truthy(v) ==>
              r == Err(PyError("TypeError", "string indices must be integers, not 'str'"))
    ensures !(v.JArray? || v.JString? || v.JObject?) ==>
              r == Err(PyError("TypeError", "'" + TypeName(v) + "' object is not iterable"))
  {
    match v
    case JArray(items) => Ok(items)
    case JString(s) =>
      if s == "" then Ok([]) else Err(PyError("TypeError", "string indices must be integers, not 'str'"))
    case JObject(fields) =>
      if fields == map[] then Ok([]) else Err(PyError("TypeError", "string indices must be integers, not 'str'"))
    case _ => Err(PyError("TypeError", "'" + TypeName(v) + "' object is not iterable"))
  }
}
