/** Option, the one failure-carrying wrapper the model needs. */
module Wrappers {
  datatype Option<+T> = None | Some(value: T)
}

/**
 * The decoded JSON documents the handler works on, with the parts of Python's
 * dynamic semantics that decide its control flow: `d[k]` on a dict (anything
 * else raises), truthiness in `if`, iteration in `for`, and `str()` in `%s`.
 */
module Json {
  import opened Wrappers

  /** A value as `json.loads` returns it. Numbers are integers; floats are not modelled. */
  datatype Json =
    | JNull
    | JBool(b: bool)
    | JNumber(n: int)
    | JString(s: string)
    | JArray(items: seq<Json>)
    | JObject(fields: map<string, Json>)

  /** `j[key]`: only a dict holding `key` answers; a missing key raises KeyError, a non-dict TypeError. */
  function Field(j: Json, key: string): (r: Option<Json>)
    ensures r.Some? <==> j.JObject? && key in j.fields
  {
    if j.JObject? && key in j.fields then Some(j.fields[key]) else None
  }

  /** `j[k1][k2][k3]`, failing when any step fails. */
  function Path(j: Json, k1: string, k2: string, k3: string): (r: Option<Json>)
    ensures r.Some? ==> Field(j, k1).Some? && Field(Field(j, k1).value, k2).Some?
  {
    match Field(j, k1)
    case None => None
    case Some(a) =>
      match Field(a, k2)
      case None => None
      case Some(b) => Field(b, k3)
  }

  /** Python truthiness: None, False, 0 and empty containers are false. */
  predicate Truthy(j: Json) {
    match j
    case JNull => false
    case JBool(b) => b
    case JNumber(n) => n != 0
    case JString(s) => |s| > 0
    case JArray(a) => |a| > 0
    case JObject(m) => |m| > 0
  }

  /** A dict key must be hashable: lists and dicts raise TypeError in `k in d`. */
  predicate Hashable(j: Json) {
    !j.JArray? && !j.JObject?
  }

  /**
   * `str(j)` as `"%s" % j` produces it. Strings, None and booleans are spelled
   * out; numbers and containers go through `repr`, the interpreter's own
   * formatting, which the model takes as given.
   */
  function Str(j: Json, repr: Json -> string): (r: string)
    ensures j.JString? ==> r == j.s
  {
    match j
    case JNull => "None"
    case JBool(b) => if b then "True" else "False"
    case JString(s) => s
    case _ => repr(j)
  }
}
