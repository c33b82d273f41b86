/** Python values as the modelled code sees them: decoded JSON bodies, optional
    arguments that may be `None`, and the truthiness tests (`if x:`, `if not x:`)
    the code applies to them. */
module PyValue {
  import opened Wrappers

  datatype Value =
    | Null
    | Bool(b: bool)
    | Int(i: int)
    | Str(s: string)
    | List(items: seq<Value>)
    | Dict(fields: map<string, Value>)

  /** Python truthiness: `None`, `False`, `0`, `""`, `[]` and `{}` are false. */
  predicate Truthy(v: Value) {
    match v
    case Null => false
    case Bool(b) => b
    case Int(i) => i != 0
    case Str(s) => s != ""
    case List(items) => items != []
    case Dict(fields) => fields != map[]
  }

  /** Python's name of the value's type, as its error messages quote it. */
  function TypeName(v: Value): string {
    match v
    case Null => "NoneType"
    case Bool(_) => "bool"
    case Int(_) => "int"
    case Str(_) => "str"
    case List(_) => "list"
    case Dict(_) => "dict"
  }

  /** `d.get(key)`: the value, or `None` when the key is absent; calling `.get` on
      anything but a dict raises AttributeError. */
  function DictGet(v: Value, key: string): (r: Result<Value>)
    ensures r.Ok? <==> v.Dict?
    ensures v.Dict? && key in v.fields ==> r == Ok(v.fields[key])
    ensures v.Dict? && key !in v.fields ==> r == Ok(Null)
    ensures !v.Dict? ==> r == Err(AttributeError("'" + TypeName(v) + "' object has no attribute 'get'"))
  {
    match v
    case Dict(fields) => Ok(if key in fields then fields[key] else Null)
    case _ => Err(AttributeError("'" + TypeName(v) + "' object has no attribute 'get'"))
  }

  /** `v[key]` with a string key: KeyError for a dict without the key; TypeError
      for anything else, with the message Python gives for that type. */
  function Subscript(v: Value, key: string): (r: Result<Value>)
    ensures r.Ok? <==> v.Dict? && key in v.fields
    ensures r.Ok? ==> r.value == v.fields[key]
    ensures v.Dict? && key !in v.fields ==> r == Err(KeyError(key))
    ensures !v.Dict? ==> r.Err? && r.error.TypeError?
  {
    match v
    case Dict(fields) => if key in fields then Ok(fields[key]) else Err(KeyError(key))
    case Str(_) => Err(TypeError("string indices must be integers, not 'str'"))
    case List(_) => Err(TypeError("list indices must be integers or slices, not str"))
    case _ => Err(TypeError("'" + TypeName(v) + "' object is not subscriptable"))
  }

  /** A Python `str` or `None` argument as a value. */
  function OfOption(o: Option<string>): Value {
    match o
    case Some(s) => Str(s)
    case None => Null
  }
}
