/** What the backend's Python expressions do with JSON values: `key in v`, `v[key]`,
    `isinstance(v, (int, float))`, arithmetic on those numbers, and str(). The wording of the
    exceptions is CPython 3.11's. */
module Python {
  import opened Wrappers
  import opened Json
  import opened Text

  /** A Python number: its value and whether it is a float (otherwise an int or a bool). */
  datatype Number = Number(isFloat: bool, val: real)

  datatype PyError =
    | TypeError(detail: string)
    | KeyError(key: string)
    | ValueError(detail: string)
    | ZeroDivisionError(detail: string)

  /** str(e) for an exception. */
  function ErrorText(e: PyError): string {
    match e
    case TypeError(d) => d
    case KeyError(k) => "'" + k + "'"
    case ValueError(d) => d
    case ZeroDivisionError(d) => d
  }

  /** type(v).__name__ */
  function TypeName(v: Value): string {
    match v
    case Null => "NoneType"
    case Bool(_) => "bool"
    case Int(_) => "int"
    case Float(_) => "float"
    case Str(_) => "str"
    case Arr(_) => "list"
    case Obj(_) => "dict"
  }

  function NumberType(n: Number): string {
    if n.isFloat then "float" else "int"
  }

  /** `key in v` for a string key: a dict tests its keys, a list its elements, a string its
      substrings; any other value cannot be searched. */
  function In(key: string, v: Value): Result<bool, PyError> {
    match v
    case Obj(m) => Ok(key in m)
    case Arr(items) => Ok(Str(key) in items)
    case Str(s) => Ok(Contains(s, key))
    case _ => Err(TypeError("argument of type '" + TypeName(v) + "' is not iterable"))
  }

  /** `v[key]` for a string key. */
  function Index(v: Value, key: string): (r: Result<Value, PyError>)
    ensures r.Ok? <==> v.Obj? && key in v.fields
    ensures r.Ok? ==> r.value == v.fields[key]
  {
    match v
    case Obj(m) => if key in m then Ok(m[key]) else Err(KeyError(key))
    case Arr(_) => Err(TypeError("list indices must be integers or slices, not str"))
    case Str(_) => Err(TypeError("string indices must be integers, not 'str'"))
    case _ => Err(TypeError("'" + TypeName(v) + "' object is not subscriptable"))
  }

  /** The number behind `v` when `isinstance(v, (int, float))` holds; bool is a subclass of int. */
  function AsNumber(v: Value): (r: Option<Number>)
    ensures r.Some? <==> v.Int? || v.Float? || v.Bool?
  {
    match v
    case Int(i) => Some(Number(false, i as real))
    case Float(f) => Some(Number(true, f))
    case Bool(b) => Some(Number(false, if b then 1.0 else 0.0))
    case _ => None
  }

  function Plus(a: Number, b: Number): Number {
    Number(a.isFloat || b.isFloat, a.val + b.val)
  }

  function Times(a: Number, b: Number): Number {
    Number(a.isFloat || b.isFloat, a.val * b.val)
  }

  function Abs(r: real): real {
    if r < 0.0 then -r else r
  }

  /** str(f) for a float: integral values end in ".0"; the exponent notation Python uses beyond 1e16
      and below 1e-4 is not modelled. */
  function FloatText(f: real): string {
    if IsIntegral(f) then IntText(f.Floor) + ".0" else DecimalText(f)
  }

  function NumberText(n: Number): string {
    if n.isFloat then FloatText(n.val) else IntText(n.val.Floor)
  }

  /** str(v) as an f-string writes it. Lists and dicts are not spelled out element by element. */
  function PyStr(v: Value): string {
    match v
    case Null => "None"
    case Bool(b) => if b then "True" else "False"
    case Int(i) => IntText(i)
    case Float(f) => FloatText(f)
    case Str(s) => s
    case Arr(_) => "[...]"
    case Obj(_) => "{...}"
  }
}
