/** The decoded-JSON values the bot handles, and the handful of Python
    operations it applies to them (subscript, `in`, `.get`, `json.loads`,
    truthiness). A Python exception is an explicit `Raise` outcome, so a
    function that "never raises" is one whose result is always `Ok`.
 */
module PyJson {

  datatype Option<+T> = None | Some(value: T)

  /** A value produced by Python's `json.loads`. Floats are not modelled:
      every number is an integer. */
  datatype Json =
    | JNull
    | JBool(b: bool)
    | JNum(n: int)
    | JStr(s: string)
    | JArr(items: seq<Json>)
    | JObj(fields: map<string, Json>)

  /** The cause behind a `requests.exceptions.RequestException`. */
  datatype RequestCause =
    | Transport      // connection refused, timeout, proxy failure, ...
    | HttpError      // raised by Response.raise_for_status
    | InvalidJson    // Response.json() on a body that is not JSON

  /** The exceptions the modelled code can raise. */
  datatype Exc =
    | RequestException(cause: RequestCause)
    | KeyError
    | IndexError
    | TypeError
    | AttributeError
    | JsonDecodeError                      // json.JSONDecodeError from json.loads
    | ValueError                           // int() on a non-numeral
    | OSError                              // open() on an unreadable path
    | CityNotFoundError(message: string)

  /** Python evaluation: a value, or an exception on its way up. */
  datatype Py<+T> = Ok(value: T) | Raise(exc: Exc) {

    predicate IsFailure() {
      Raise?
    }

    function PropagateFailure<U>(): Py<U>
      requires Raise?
    {
      Raise(exc)
    }

    function Extract(): T
      requires Ok?
    {
      value
    }
  }

  /** Python's `bool(v)` for a decoded JSON value. */
  predicate Truthy(v: Json) {
    match v
    case JNull => false
    case JBool(b) => b
    case JNum(n) => n != 0
    case JStr(s) => |s| > 0
    case JArr(a) => |a| > 0
    case JObj(m) => |m| > 0
  }

  /** Python's `v == "text"`: only a string with the same characters is equal. */
  predicate IsText(v: Json, text: string) {
    v == JStr(text)
  }

  /** `v[key]` with a string key. */
  function GetItem(v: Json, key: string): (r: Py<Json>)
    ensures r.Ok? <==> v.JObj? && key in v.fields
    ensures r.Ok? ==> r.value == v.fields[key]
    ensures r.Raise? ==> r.exc == KeyError || r.exc == TypeError
  {
    match v
    case JObj(m) => if key in m then Ok(m[key]) else Raise(KeyError)
    // lists and strings want integer indices; None, bools and numbers are not subscriptable
    case _ => Raise(TypeError)
  }

  /** `v[0]`. The keys of a decoded object are strings, so `0` is never one of them. */
  function First(v: Json): (r: Py<Json>)
    ensures r.Ok? <==> (v.JArr? && |v.items| > 0) || (v.JStr? && |v.s| > 0)
    ensures r.Ok? && v.JArr? ==> r.value == v.items[0]
    ensures r.Ok? && v.JStr? ==> r.value == JStr([v.s[0]])
    ensures r.Raise? ==> r.exc == (if v.JArr? || v.JStr? then IndexError else if v.JObj? then KeyError else TypeError)
  {
    match v
    case JArr(a) => if |a| > 0 then Ok(a[0]) else Raise(IndexError)
    case JStr(s) => if |s| > 0 then Ok(JStr([s[0]])) else Raise(IndexError)
    case JObj(_) => Raise(KeyError)
    case _ => Raise(TypeError)
  }

  /** `needle` occurs as a contiguous run of `hay`. */
  predicate IsSubstring(needle: string, hay: string) {
    exists i | 0 <= i <= |hay| - |needle| :: OccursAt(needle, hay, i)
  }

  predicate OccursAt(needle: string, hay: string, i: int)
    requires 0 <= i <= |hay| - |needle|
  {
    hay[i..i + |needle|] == needle
  }

  /** `x` occurs in `a + x + b` right after `a`. */
  lemma OccursAfter(a: string, x: string, b: string)
    ensures |a| <= |a + x + b| - |x| && OccursAt(x, a + x + b, |a|)
  {
    assert (a + x + b)[|a|..|a| + |x|] == x;
  }

  /** An occurrence in `m` is an occurrence in `a + m`, shifted by `|a|`. */
  lemma OccursShifted(a: string, x: string, m: string, i: int)
    requires 0 <= i <= |m| - |x| && OccursAt(x, m, i)
    ensures |a| + i <= |a + m| - |x| && OccursAt(x, a + m, |a| + i)
  {
    assert (a + m)[|a| + i..|a| + i + |x|] == m[i..i + |x|];
  }

  /** Python's `key in v`: key membership for an object, element membership
      for a list, substring search for a string; other values are not iterable. */
  function Contains(v: Json, key: string): (r: Py<bool>)
    ensures r.Ok? <==> v.JObj? || v.JArr? || v.JStr?
    ensures r.Ok? ==> (r.value <==>
      (v.JObj? && key in v.fields) || (v.JArr? && JStr(key) in v.items) || (v.JStr? && IsSubstring(key, v.s)))
    ensures r.Raise? ==> r.exc == TypeError
  {
    match v
    case JObj(m) => Ok(key in m)
    case JArr(a) => Ok(JStr(key) in a)
    case JStr(s) => Ok(IsSubstring(key, s))
    case _ => Raise(TypeError)
  }

  /** `v.get(key, default)`: only an object has a `get` method. */
  function Get(v: Json, key: string, default: Json): (r: Py<Json>)
    ensures r.Ok? <==> v.JObj?
    ensures r.Ok? && key in v.fields ==> r.value == v.fields[key]
    ensures r.Ok? && key !in v.fields ==> r.value == default
    ensures r.Raise? ==> r.exc == AttributeError
  {
    match v
    case JObj(m) => Ok(if key in m then m[key] else default)
    case _ => Raise(AttributeError)
  }

  /** `json.loads(v)`, with the JSON text grammar left to `parse`. A decoded
      value that is not a string (a list, say) is a `TypeError`. */
  function Loads(parse: string -> Option<Json>, v: Json): (r: Py<Json>)
    ensures r.Ok? <==> v.JStr? && parse(v.s).Some?
    ensures r.Ok? ==> r.value == parse(v.s).value
    ensures r.Raise? ==> r.exc == (if v.JStr? then JsonDecodeError else TypeError)
  {
    match v
    case JStr(s) =>
      (match parse(s)
       case Some(x) => Ok(x)
       case None => Raise(JsonDecodeError))
    case _ => Raise(TypeError)
  }
}
