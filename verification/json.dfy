/**
  The Python values the assistant passes around: decoded JSON (None, bools,
  integers, strings, lists, dicts) plus the `datetime.date` that a parsed
  date carries. The module also gives the few Python operations the core
  applies to them (truthiness, `key in v`, `v.get(key, default)`, `v[key]`,
  f-string rendering) together with the exception each raises on a value of
  the wrong type. Dict key order is not kept.
*/
module Json {
  import opened Wrappers
  import opened Text
  import Calendar

  datatype Value =
    | Null
    | Bool(b: bool)
    | Int(i: int)
    | Str(s: string)
    | List(items: seq<Value>)
    | Obj(fields: map<string, Value>)
    | DateObj(day: Calendar.Ordinal)

  type Dict = map<string, Value>

  /** The exceptions Python raises in the modelled code; `Message` is `str(e)`. */
  datatype PyError =
    | KeyError(key: string)
    | AttributeError(typeName: string, attribute: string)
    | TypeError(text: string)
  {
    function Message(): string {
      match this
      case KeyError(k) => "'" + k + "'"
      case AttributeError(t, a) => "'" + t + "' object has no attribute '" + a + "'"
      case TypeError(t) => t
    }
  }

  /** `bool(v)` */
  predicate Truthy(v: Value) {
    match v
    case Null => false
    case Bool(b) => b
    case Int(i) => i != 0
    case Str(s) => s != ""
    case List(xs) => xs != []
    case Obj(m) => m != map[]
    case DateObj(_) => true
  }

  /** The type name Python's `TypeError` and `AttributeError` messages
      print (the C-level `tp_name`, so a date is `datetime.date`). */
  function TypeName(v: Value): string {
    match v
    case Null => "NoneType"
    case Bool(_) => "bool"
    case Int(_) => "int"
    case Str(_) => "str"
    case List(_) => "list"
    case Obj(_) => "dict"
    case DateObj(_) => "datetime.date"
  }

  /** `d.get(key, default)` on a dict. */
  function Get(d: Dict, key: string, default: Value): (r: Value)
    ensures key in d ==> r == d[key]
    ensures key !in d ==> r == default
  {
    if key in d then d[key] else default
  }

  /** `key in v` */
  function In(key: string, v: Value): (r: Result<bool, PyError>)
    ensures v.Obj? ==> r == Success(key in v.fields)
    ensures v.Str? ==> r == Success(Contains(v.s, key))
    ensures r.Failure? <==> !(v.Obj? || v.Str? || v.List?)
  {
    match v
    case Obj(m) => Success(key in m)
    case List(xs) => Success(Str(key) in xs)
    case Str(s) => Success(Contains(s, key))
    case _ => Failure(TypeError("argument of type '" + TypeName(v) + "' is not iterable"))
  }

  /** `v.get(key, default)` on any value: only a dict has `get`. */
  function PyGet(v: Value, key: string, default: Value): (r: Result<Value, PyError>)
    ensures v.Obj? <==> r.Success?
    ensures v.Obj? ==> r.value == Get(v.fields, key, default)
  {
    match v
    case Obj(m) => Success(Get(m, key, default))
    case _ => Failure(AttributeError(TypeName(v), "get"))
  }

  /** `v[key]` with a string key. */
  function Index(v: Value, key: string): (r: Result<Value, PyError>)
    ensures r.Success? <==> v.Obj? && key in v.fields
    ensures r.Success? ==> r.value == v.fields[key]
  {
    match v
    case Obj(m) => if key in m then Success(m[key]) else Failure(KeyError(key))
    case List(_) => Failure(TypeError("list indices must be integers or slices, not str"))
    case Str(_) => Failure(TypeError("string indices must be integers, not 'str'"))
    case _ => Failure(TypeError("'" + TypeName(v) + "' object is not subscriptable"))
  }

  /** `f"{v}"`: scalars are rendered here; the rendering of a list or dict
      (Python's `repr`, which depends on key order) is supplied by the caller. */
  function Show(v: Value, reprContainer: Value -> string): string {
    match v
    case Null => "None"
    case Bool(b) => if b then "True" else "False"
    case Int(i) => IntToString(i)
    case Str(s) => s
    case DateObj(d) => Calendar.IsoFormat(d)
    case _ => reprContainer(v)
  }

  /** A dict whose values are all strings, as a `Value`. */
  function StrDict(m: map<string, string>): (d: Dict)
    ensures d.Keys == m.Keys
    ensures forall k :: k in m ==> d[k] == Str(m[k])
  {
    map k | k in m :: Str(m[k])
  }

  /** `v[key] = value` with a string key: only a dict accepts it. */
  function SetItem(v: Value, key: string, value: Value): (r: Result<Value, PyError>)
    ensures r.Success? <==> v.Obj?
    ensures v.Obj? ==> r.value == Obj(v.fields[key := value])
  {
    match v
    case Obj(m) => Success(Obj(m[key := value]))
    case List(_) => Failure(TypeError("list indices must be integers or slices, not str"))
    case _ => Failure(TypeError("'" + TypeName(v) + "' object does not support item assignment"))
  }

  /** `json.dumps(v)` succeeds: no `datetime.date` anywhere inside. */
  predicate Serializable(v: Value) {
    match v
    case DateObj(_) => false
    case List(xs) => forall i :: 0 <= i < |xs| ==> Serializable(xs[i])
    case Obj(m) => forall k :: k in m ==> Serializable(m[k])
    case _ => true
  }

  /** The message of the `TypeError` `json.dumps` raises on a date. */
  const DateNotSerializable := "Object of type date is not JSON serializable"
}
