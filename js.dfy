/** What the browser code does with the JSON it receives: truthiness, `||`, property reads (plain and
    optional), String(), the numeric conversion of `*`, and the text React renders for `{v}`. */
module Js {
  import opened Wrappers
  import opened Json
  import opened Text

  /** Truthiness of a JSON value; NaN, the only other falsy number, cannot come out of JSON. */
  predicate Truthy(v: Value) {
    match v
    case Null => false
    case Bool(b) => b
    case Int(i) => i != 0
    case Float(f) => f != 0.0
    case Str(s) => s != ""
    case Arr(_) => true
    case Obj(_) => true
  }

  /** A property that is there and truthy; None stands for `undefined`. */
  predicate Present(p: Option<Value>) {
    p.Some? && Truthy(p.value)
  }

  /** `a || b`: the first operand when it is truthy, otherwise the second. */
  function Or(a: Option<Value>, b: Value): (r: Value)
    ensures Present(a) ==> r == a.value
    ensures !Present(a) ==> r == b
  {
    if Present(a) then a.value else b
  }

  /** `v.key` where `v` is not undefined: reading a property of null throws a TypeError (V8's
      wording); other values without the property give undefined. */
  function Field(v: Value, key: string): (r: Result<Option<Value>, string>)
    ensures r.Err? <==> v.Null?
    ensures r.Ok? && r.value.Some? <==> v.Obj? && key in v.fields
  {
    match v
    case Null => Err("Cannot read properties of null (reading '" + key + "')")
    case Obj(m) => Ok(if key in m then Some(m[key]) else None)
    case _ => Ok(None)
  }

  /** `v?.key` */
  function OptionalField(v: Option<Value>, key: string): (r: Option<Value>)
    ensures r.Some? <==> v.Some? && v.value.Obj? && key in v.value.fields
  {
    match v
    case None => None
    case Some(Obj(m)) => if key in m then Some(m[key]) else None
    case Some(_) => None
  }

  /** Number.prototype.toString for a value in positional notation. */
  function NumeralText(r: real): string {
    if IsIntegral(r) then IntText(r.Floor) else DecimalText(r)
  }

  /** String(v): objects print as "[object Object]", arrays as their elements joined by commas with
      null shown as nothing. */
  function JsText(v: Value): string
    decreases v
  {
    match v
    case Null => "null"
    case Bool(b) => if b then "true" else "false"
    case Int(i) => IntText(i)
    case Float(f) => NumeralText(f)
    case Str(s) => s
    case Obj(_) => "[object Object]"
    case Arr(items) =>
      Join(seq(|items|, k requires 0 <= k < |items| => if items[k].Null? then "" else JsText(items[k])), ",")
  }

  /** ToNumber as `*` applies it; None where the model does not follow the conversion (strings,
      arrays and objects, which give a parsed number or NaN). */
  function ToNumber(v: Value): (r: Option<real>)
    ensures r.Some? <==> !(v.Str? || v.Arr? || v.Obj?)
  {
    match v
    case Null => Some(0.0)
    case Bool(b) => Some(if b then 1.0 else 0.0)
    case Int(i) => Some(i as real)
    case Float(f) => Some(f)
    case _ => None
  }

  const ObjectChild: string := "Objects are not valid as a React child"

  /** The first failure among rendered children, or their texts in order. */
  function Concat(parts: seq<Result<string, string>>): (r: Result<string, string>)
    ensures r.Err? <==> exists k :: 0 <= k < |parts| && parts[k].Err?
  {
    if parts == [] then Ok("")
    else match parts[0]
      case Err(e) => Err(e)
      case Ok(s) =>
        match Concat(parts[1..])
        case Err(e) => Err(e)
        case Ok(rest) =>
          assert forall k :: 1 <= k < |parts| ==> parts[k] == parts[1..][k - 1];
          Ok(s + rest)
  }

  /** What React renders for `{v}`: strings and numbers as text, nothing for undefined, null and
      booleans, an array child by child; an object child throws. */
  function ChildText(v: Option<Value>): (r: Result<string, string>)
    ensures v.None? || v.value.Null? || v.value.Bool? ==> r == Ok("")
    ensures v.Some? && v.value.Str? ==> r == Ok(v.value.s)
    ensures v.Some? && v.value.Obj? ==> r == Err(ObjectChild)
  {
    if v.None? then Ok("") else ValueText(v.value)
  }

  function ValueText(v: Value): Result<string, string>
    decreases v
  {
    match v
    case Null => Ok("")
    case Bool(_) => Ok("")
    case Int(i) => Ok(IntText(i))
    case Float(f) => Ok(NumeralText(f))
    case Str(s) => Ok(s)
    case Obj(_) => Err(ObjectChild)
    case Arr(items) =>
      Concat(seq(|items|, k requires 0 <= k < |items| => ValueText(items[k])))
  }
}
