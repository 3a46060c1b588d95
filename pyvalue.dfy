/**
 * The Python values that `json.loads` produces and that the core inspects,
 * with the three Python operations the core applies to them: truthiness
 * (`if x:` / `not x`), membership (`key in x`) and subscription (`x[i]`,
 * `x[key]`), including the exceptions these raise.
 */
module PyValue {

  import opened Wrappers
  import opened Text

  /** A decoded JSON value; Python ints and floats are both `Num`. */
  datatype Value =
    | Null
    | Bool(b: bool)
    | Num(n: real)
    | Str(s: string)
    | Arr(items: seq<Value>)
    | Obj(fields: map<string, Value>)

  /** A Python dict decoded from a JSON object. */
  type Object = map<string, Value>

  /** The built-in exceptions the core can raise while walking a response. */
  datatype PyErr = KeyError | IndexError | TypeError

  /** A subscript: `x["key"]` or `x[0]`. */
  datatype Index = Key(k: string) | Pos(i: nat)

  /** Python truthiness: None, False, 0, and empty str/list/dict are falsy. */
  predicate Truthy(v: Value) {
    match v
    case Null => false
    case Bool(b) => b
    case Num(n) => n != 0.0
    case Str(s) => |s| > 0
    case Arr(xs) => |xs| > 0
    case Obj(m) => |m| > 0
  }

  /** `isinstance(v, (int, float))`; a bool is an int in Python. */
  predicate IsNumber(v: Value) {
    v.Num? || v.Bool?
  }

  /** The numeric value of a number, with True == 1 and False == 0. */
  function AsNumber(v: Value): real
    requires IsNumber(v)
  {
    if v.Bool? then (if v.b then 1.0 else 0.0) else v.n
  }

  /** `len(v)` is defined. */
  predicate Sized(v: Value) {
    v.Str? || v.Arr? || v.Obj?
  }

  /** `key in v` for a string key: dict membership, list element or substring test. */
  function In(key: string, v: Value): (r: Result<bool, PyErr>)
    ensures r.Failure? <==> !Sized(v)
    ensures v.Obj? ==> r == Success(key in v.fields)
  {
    match v
    case Obj(m) => Success(key in m)
    case Arr(xs) => Success(Str(key) in xs)
    case Str(s) => Success(IsSubstring(key, s))
    case _ => Failure(TypeError)
  }

  /** `v[idx]`: a dict lookup, a list or string position, or the error Python raises. */
  function Subscript(v: Value, idx: Index): (r: Result<Value, PyErr>)
    ensures v.Obj? && idx.Key? ==> (r.Success? <==> idx.k in v.fields)
    ensures v.Arr? && idx.Pos? ==> (r.Success? <==> idx.i < |v.items|)
    ensures !Sized(v) ==> r == Failure(TypeError)
  {
    match (v, idx)
    case (Obj(m), Key(k)) => if k in m then Success(m[k]) else Failure(KeyError)
    case (Obj(m), Pos(_)) => Failure(KeyError)
    case (Arr(xs), Pos(i)) => if i < |xs| then Success(xs[i]) else Failure(IndexError)
    case (Str(s), Pos(i)) => if i < |s| then Success(Str([s[i]])) else Failure(IndexError)
    case _ => Failure(TypeError)
  }

  /** `v[p0][p1]...`: subscripts applied left to right; the first error wins. */
  function Lookup(v: Value, path: seq<Index>): Result<Value, PyErr>
    decreases |path|
  {
    if path == [] then Success(v)
    else match Subscript(v, path[0])
      case Failure(e) => Failure(e)
      case Success(w) => Lookup(w, path[1..])
  }

  /** `m.get(k, default)`. */
  function Get(m: Object, k: string, default: Value): (r: Value)
    ensures k in m ==> r == m[k]
    ensures k !in m ==> r == default
  {
    if k in m then m[k] else default
  }
}
