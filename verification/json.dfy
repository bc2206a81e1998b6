/**
 * Decoded JSON values as Python's `json` module hands them over (dict, list,
 * str, int/float, bool, None), and the few Python operations the batch job
 * applies to them, each of which may raise.
 */
module Json {
  import opened Optional
  import opened Text

  /** A decoded JSON value; numbers are kept exactly, as reals. */
  datatype Json =
    | Null
    | Bool(b: bool)
    | Num(n: real)
    | Str(s: string)
    | Arr(elems: seq<Json>)
    | Obj(fields: map<string, Json>)

  /** The outcome of evaluating a Python expression: a value, or an exception. */
  datatype Py<+T> = Value(v: T) | Raised

  /** Python's truth value of a decoded value (`bool(v)`). */
  predicate Truthy(v: Json) {
    match v
    case Null => false
    case Bool(b) => b
    case Num(n) => n != 0.0
    case Str(s) => s != ""
    case Arr(elems) => |elems| > 0
    case Obj(fields) => |fields| > 0
  }

  /**
   * `v.get(key)`: only a dict has `get`, so anything else raises; a dict
   * answers with the entry, or with `None` (here `Option.None`) when the key
   * is missing.
   */
  function Get(v: Json, key: string): (r: Py<Option<Json>>)
    ensures r.Raised? <==> !v.Obj?
    ensures v.Obj? && key in v.fields ==> r == Value(Some(v.fields[key]))
    ensures v.Obj? && key !in v.fields ==> r == Value(None)
  {
    match v
    case Obj(fields) => Value(if key in fields then Some(fields[key]) else None)
    case _ => Raised
  }

  /**
   * `key in v` for a string `key`: key membership in a dict, element
   * membership in a list, substring in a string; a TypeError otherwise.
   */
  function In(key: string, v: Json): (r: Py<bool>)
    ensures r.Raised? <==> !(v.Obj? || v.Arr? || v.Str?)
    ensures v.Obj? ==> r == Value(key in v.fields)
    ensures v.Arr? ==> r == Value(exists i :: 0 <= i < |v.elems| && v.elems[i] == Str(key))
    ensures v.Str? ==> r == Value(exists i :: OccursAt(v.s, key, i))
  {
    match v
    case Obj(fields) => Value(key in fields)
    case Arr(elems) => Value(Str(key) in elems)
    case Str(s) =>
      ContainsIffOccurs(s, key);
      Value(Contains(s, key))
    case _ => Raised
  }

  /** `v[key]` for a string `key`: only a dict holding `key` answers. */
  function Index(v: Json, key: string): (r: Py<Json>)
    ensures r.Value? <==> v.Obj? && key in v.fields
  {
    match v
    case Obj(fields) => if key in fields then Value(fields[key]) else Raised
    case _ => Raised
  }

  /**
   * `v.get(key)` and `v[key]` agree wherever the subscript answers; on a dict
   * without the key, the subscript raises and `get` gives `None`.
   */
  lemma GetAgreesWithIndex(v: Json, key: string)
    ensures Index(v, key).Value? ==> Get(v, key) == Value(Some(Index(v, key).v))
    ensures v.Obj? && Index(v, key).Raised? ==> Get(v, key) == Value(None)
  {
  }

  /**
   * `len(v)`: defined for strings, lists and dicts. For those values, the
   * truth value is exactly "the length is not zero".
   */
  function Len(v: Json): (r: Py<nat>)
    ensures r.Value? <==> v.Str? || v.Arr? || v.Obj?
    ensures r.Value? ==> (Truthy(v) <==> r.v != 0)
  {
    match v
    case Str(s) => Value(|s|)
    case Arr(elems) => Value(|elems|)
    case Obj(fields) => Value(|fields|)
    case _ => Raised
  }

  /**
   * How an f-string shows a value (`str(v)`): a string as itself, `None`,
   * `True` and `False` by name, and a number, list or dict as `format` says.
   */
  function Display(v: Json, format: Json -> string): string
  {
    match v
    case Str(s) => s
    case Null => "None"
    case Bool(b) => if b then "True" else "False"
    case _ => format(v)
  }
}
