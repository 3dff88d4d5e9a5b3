/** JSON values as Python's `json` module hands them over (objects are dicts,
    numbers are modelled as reals), with the few dict and truth operations
    the core relies on. */
module Json {
  import opened Wrappers

  datatype Value =
    | Null
    | Bool(b: bool)
    | Num(n: real)
    | Str(s: string)
    | Arr(items: seq<Value>)
    | Obj(fields: map<string, Value>)

  /** Python truthiness of a decoded JSON value (`if not x:`). */
  predicate Truthy(v: Value)
  {
    match v
    case Null => false
    case Bool(b) => b
    case Num(n) => n != 0.0
    case Str(s) => s != ""
    case Arr(xs) => xs != []
    case Obj(m) => m != map[]
  }

  /** Python `v == 0` (also true of `False`, since `False == 0`). */
  predicate EqualsZero(v: Value)
  {
    v == Num(0.0) || v == Bool(false)
  }

  /** `v.get(key, default)`: a dict lookup with a default; any other value has
      no `.get` and raises AttributeError. */
  function Get(v: Value, key: string, default: Value): (r: Result<Value>)
    ensures r.Ok? <==> v.Obj?
    ensures v.Obj? && key in v.fields ==> r == Ok(v.fields[key])
    ensures v.Obj? && key !in v.fields ==> r == Ok(default)
  {
    match v
    case Obj(m) => Ok(if key in m then m[key] else default)
    case _ => Raised("AttributeError: object has no attribute 'get'")
  }

  /** `v.get(key)` with the implicit default None. */
  function Lookup(v: Value, key: string): Result<Value>
  {
    Get(v, key, Null)
  }
}
