/** Request bodies as the web framework hands them to the handlers: decoded JSON values. */
module Json {

  /** A decoded JSON value. Integer literals decode to `Int`, other numbers to `Float`;
      objects are finite maps from keys to values. */
  datatype Value =
    | Null
    | Bool(b: bool)
    | Int(i: int)
    | Float(f: real)
    | Str(s: string)
    | Array(items: seq<Value>)
    | Object(fields: map<string, Value>)

  /** Python truthiness of a decoded value: `not v` holds exactly when this is false.
      Empty containers, empty strings, zero, `false` and `null` are falsy. */
  predicate Truthy(v: Value)
  {
    match v
    case Null => false
    case Bool(b) => b
    case Int(i) => i != 0
    case Float(f) => f != 0.0
    case Str(s) => |s| > 0
    case Array(items) => |items| > 0
    case Object(fields) => |fields| > 0
  }
}
