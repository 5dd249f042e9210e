/** Python values as they travel through the server: decoded JSON, with
    Python's `None` as `Null`. */
module Json {

  datatype Option<+T> = None | Some(value: T)

  /** A decoded JSON value. JSON numbers are modelled as integers only. */
  datatype JsonValue =
    | Null
    | Bool(b: bool)
    | Int(i: int)
    | Str(s: string)
    | List(items: seq<JsonValue>)
    | Object(fields: map<string, JsonValue>)

  /** The outcome of a Python call: the value it returned, or `str(e)` of
      the exception `e` it raised. */
  datatype Result = Ok(value: JsonValue) | Err(message: string)

  /** Python truthiness (`if v:`) of a value. */
  predicate Truthy(v: JsonValue)
  {
    match v
    case Null => false
    case Bool(b) => b
    case Int(i) => i != 0
    case Str(s) => |s| > 0
    case List(xs) => |xs| > 0
    case Object(m) => |m| > 0
  }

  /** The falsy values are exactly None, False, 0, "", [] and {}. */
  lemma FalsyValues(v: JsonValue)
    ensures !Truthy(v) <==>
      v == Null || v == Bool(false) || v == Int(0) || v == Str("") || v == List([]) || v == Object(map[])
  {
  }

  /** The name Python gives the type of a value (`type(v).__name__`). */
  function TypeName(v: JsonValue): string
  {
    match v
    case Null => "NoneType"
    case Bool(_) => "bool"
    case Int(_) => "int"
    case Str(_) => "str"
    case List(_) => "list"
    case Object(_) => "dict"
  }

  /** Python's `len(v)`: defined on strings, lists and dicts, a TypeError
      (here `None`) on everything else. */
  function Len(v: JsonValue): (n: Option<nat>)
    ensures n.Some? <==> (v.Str? || v.List? || v.Object?)
    ensures v.Str? ==> n == Some(|v.s|)
  {
    match v
    case Str(s) => Some(|s|)
    case List(xs) => Some(|xs|)
    case Object(m) => Some(|m|)
    case _ => None
  }

  /** Python's `str(e)` of the TypeError that `len(v)` raises. */
  function NoLenMessage(v: JsonValue): string
  {
    "object of type '" + TypeName(v) + "' has no len()"
  }

  /** A list of strings as a Python value. */
  function Strings(ts: seq<string>): (r: seq<JsonValue>)
    ensures |r| == |ts| && forall i :: 0 <= i < |ts| ==> r[i] == Str(ts[i])
  {
    seq(|ts|, i requires 0 <= i < |ts| => Str(ts[i]))
  }
}
