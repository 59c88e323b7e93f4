/** Python's dynamic values as they travel through payloads, metadata and the
    shared context: `None`, `bool`, `int`, `float`, `str`, `list` and `dict`
    with string keys. */
module Values {
  import opened Results
  import Text

  datatype Value =
    | Null
    | Bool(b: bool)
    | Int(i: int)
    | Real(x: real)
    | Str(s: string)
    | List(items: seq<Value>)
    | Map(fields: Fields)

  /** A `Dict[str, Any]`. */
  type Fields = map<string, Value>

  /** `d.get(key, default)` on a dict. */
  function Get(d: Fields, key: string, default: Value): Value {
    if key in d then d[key] else default
  }

  /** Python truthiness: `None`, `False`, zero and empty containers are false. */
  predicate Truthy(v: Value) {
    match v
    case Null => false
    case Bool(b) => b
    case Int(i) => i != 0
    case Real(x) => x != 0.0
    case Str(s) => s != []
    case List(xs) => xs != []
    case Map(m) => m != map[]
  }

  /** `type(v).__name__`. */
  function TypeName(v: Value): string {
    match v
    case Null => "NoneType"
    case Bool(_) => "bool"
    case Int(_) => "int"
    case Real(_) => "float"
    case Str(_) => "str"
    case List(_) => "list"
    case Map(_) => "dict"
  }

  /** `str(v)`, also what an f-string renders. Exact for `None`, `bool`, `int`
      and `str`; floats, lists and dicts get a fixed placeholder. */
  function ToStr(v: Value): string {
    match v
    case Null => "None"
    case Bool(b) => if b then "True" else "False"
    case Int(i) => Text.IntToDecimal(i)
    case Real(_) => "<float>"
    case Str(s) => s
    case List(_) => "[...]"
    case Map(_) => "{...}"
  }

  /** The `AttributeError` Python raises for `v.<attr>` on a value that lacks it. */
  function NoAttribute(v: Value, attr: string): (e: Exc)
    ensures e.kind == "AttributeError"
  {
    Raise("AttributeError", "'" + TypeName(v) + "' object has no attribute '" + attr + "'")
  }

  /** `repr(s)` of a string: single quotes unless it holds a single quote
      and no double one (escape sequences are not modelled). */
  function Repr(s: string): string {
    if '\'' in s && '"' !in s then "\"" + s + "\"" else "'" + s + "'"
  }

  /** `KeyError(arg)`, whose `str` is the repr of its argument. */
  function KeyError(arg: string): (e: Exc)
    ensures e.kind == "KeyError"
  {
    Raise("KeyError", Repr(arg))
  }

  /** `v.get(key, default)` where `v` need not be a dict. */
  function GetFrom(v: Value, key: string, default: Value): (r: Result<Value>)
    ensures r.Ok? <==> v.Map?
    ensures r.Ok? ==> r.value == Get(v.fields, key, default)
    ensures r.Err? ==> r.error == NoAttribute(v, "get")
  {
    if v.Map? then Ok(Get(v.fields, key, default)) else Err(NoAttribute(v, "get"))
  }

  /** `v.lower()` where `v` need not be a string. */
  function LowerOf(v: Value): (r: Result<string>)
    ensures r.Ok? <==> v.Str?
    ensures r.Ok? ==> r.value == Text.Lower(v.s)
    ensures r.Err? ==> r.error == NoAttribute(v, "lower")
  {
    if v.Str? then Ok(Text.Lower(v.s)) else Err(NoAttribute(v, "lower"))
  }

  /** `v[0]` where `v` is truthy: the first element of a list, the first
      character of a string; a dict has no key `0` (its keys are strings) and
      scalars are not subscriptable. */
  function FirstItem(v: Value): (r: Result<Value>)
    requires Truthy(v)
    ensures v.List? ==> r == Ok(v.items[0])
    ensures v.Str? ==> r == Ok(Str([v.s[0]]))
    ensures !v.List? && !v.Str? ==> r.Err?
  {
    match v
    case List(xs) => Ok(xs[0])
    case Str(s) => Ok(Str([s[0]]))
    case Map(_) => Err(Raise("KeyError", "0"))
    case _ => Err(Raise("TypeError", "'" + TypeName(v) + "' object is not subscriptable"))
  }
}
