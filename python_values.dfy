/** Option and Result, for values that may be absent and computations that may raise. */
module Wrappers {
  datatype Option<+T> = None | Some(value: T)

  datatype Result<+T, +E> = Ok(value: T) | Err(error: E)
}

/**
 * The Python values the request handler works on: the decoded JSON body of a
 * POST request, Python's truthiness and equality on those values, and the two
 * numeric built-ins (float() on a string, round(x, 2)) that the model keeps
 * abstract.
 */
module PyValues {
  import opened Wrappers

  /** A value of the decoded JSON body (`request.json`). JSON numbers become reals. */
  datatype Json =
    | JNull
    | JBool(b: bool)
    | JNum(x: real)
    | JStr(s: string)
    | JArray(items: seq<Json>)
    | JObject(members: map<string, Json>)

  /** The parts of the Python runtime that the model does not reproduce. */
  datatype Runtime = Runtime(
    // float(s) for a str s; None where Python raises ValueError
    parseFloat: string -> Option<real>,
    // round(x, 2) on a float
    round2: real -> real)

  /** Python truthiness: None, False, 0, "" and empty containers are false, every other value is true. */
  predicate Truthy(v: Json): (r: bool)
    ensures !r <==> v == JNull || v == JBool(false) || v == JNum(0.0) || v == JStr("") || v == JArray([]) || v == JObject(map[])
  {
    match v
    case JNull => false
    case JBool(b) => b
    case JNum(x) => x != 0.0
    case JStr(s) => s != ""
    case JArray(items) => items != []
    case JObject(members) => members != map[]
  }

  /** float(v); None where Python raises (TypeError for None, list, dict; ValueError for a bad string). */
  function ToFloat(rt: Runtime, v: Json): (r: Option<real>)
    ensures r.None? ==> v.JNull? || v.JStr? || v.JArray? || v.JObject?
    ensures v.JNull? || v.JArray? || v.JObject? ==> r.None?
    ensures v.JNum? || v.JBool? ==> r.Some? && (r.value != 0.0 <==> Truthy(v))
    ensures v.JNum? ==> r == Some(v.x)
    ensures v.JBool? ==> r == Some(if v.b then 1.0 else 0.0)
    ensures v.JStr? ==> r == rt.parseFloat(v.s)
  {
    match v
    case JBool(b) => Some(if b then 1.0 else 0.0)
    case JNum(x) => Some(x)
    case JStr(s) => rt.parseFloat(s)
    case _ => None
  }

  /** The Python comparison `v == n` for an int literal n: numbers compare by value, and True == 1, False == 0. */
  predicate EqualsInt(v: Json, n: int): (r: bool)
    ensures r ==> v.JNum? || v.JBool?
    ensures v == JBool(true) ==> (r <==> n == 1)
    ensures v == JBool(false) ==> (r <==> n == 0)
    ensures v.JNum? ==> (r <==> v.x == n as real)
  {
    match v
    case JNum(x) => x == n as real
    case JBool(b) => (if b then 1 else 0) == n
    case _ => false
  }
}
