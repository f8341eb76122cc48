/** JSON values as the client sees them after `json.loads`, together with the
    few Python built-ins the core applies to them: truthiness, `dict.get`,
    `float()` and `len()`. */
module Json {

  datatype Option<+T> = None | Some(value: T)

  /** A decoded JSON value. `Null` is Python's `None`; objects are dicts. */
  datatype Value =
    | Null
    | Bool(b: bool)
    | Num(r: real)
    | Str(s: string)
    | Arr(items: seq<Value>)
    | Obj(fields: map<string, Value>)

  /** Python truthiness: `None`, `False`, zero and empty containers are false. */
  predicate Truthy(v: Value)
  {
    match v
    case Null => false
    case Bool(b) => b
    case Num(r) => r != 0.0
    case Str(s) => s != []
    case Arr(items) => items != []
    case Obj(fields) => fields != map[]
  }

  /** `v.get(key, default)` on a value already known to be a dict. */
  function Get(v: Value, key: string, default: Value): (r: Value)
    requires v.Obj?
    ensures key in v.fields ==> r == v.fields[key]
    ensures key !in v.fields ==> r == default
  {
    if key in v.fields then v.fields[key] else default
  }

  /** `float(v)`: numbers convert, booleans become 1.0 or 0.0, anything else raises. */
  function ToFloat(v: Value): (r: Option<real>)
    ensures v.Num? ==> r == Some(v.r)
    ensures r.Some? <==> v.Num? || v.Bool?
  {
    match v
    case Num(x) => Some(x)
    case Bool(b) => Some(if b then 1.0 else 0.0)
    case _ => None
  }

  /** `len(v)`: defined on strings, lists and dicts; raises on anything else. */
  function PyLen(v: Value): (r: Option<nat>)
    ensures v.Arr? ==> r == Some(|v.items|)
    ensures r.Some? <==> v.Str? || v.Arr? || v.Obj?
  {
    match v
    case Str(s) => Some(|s|)
    case Arr(items) => Some(|items|)
    case Obj(fields) => Some(|fields.Keys|)
    case _ => None
  }
}
