/** JSON values, as the backend (after json.loads) and the browser (after response.json()) hold them. */
module Json {
  /** Python's json.loads keeps integer and float literals apart (`3` is an int, `3.0` a float);
      the browser does not, and the browser-side functions treat Int and Float alike. An object's
      key order is not kept: no modelled behaviour depends on it. */
  datatype Value =
    | Null
    | Bool(b: bool)
    | Int(i: int)
    | Float(f: real)
    | Str(s: string)
    | Arr(items: seq<Value>)
    | Obj(fields: map<string, Value>)

  /** What a JSON parser makes of a text: json.loads in the backend, response.json() in the browser.
      The parser itself is a parameter of every operation that uses it. */
  datatype Parsed = Parsed(value: Value) | Malformed(message: string)
}
