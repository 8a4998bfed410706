/** Python values as the configuration layer sees them: what a TOML document
    decodes to (booleans, integers, floats, dates and times, strings, lists,
    string-keyed tables), plus `None`. Rule lists and rules are loosely typed in the source, so every
    operation that receives them receives a `Value`. */
module Values {

  datatype Option<+T> = None | Some(value: T)

  datatype Value =
    | VNone
    | VBool(b: bool)
    | VInt(i: int)
    | VFloat(r: real)             // a float, with its NaN and infinities left out
    | VDateTime(text: string)     // a TOML date, time or date-time, kept as written
    | VStr(s: string)
    | VList(items: seq<Value>)
    | VDict(fields: map<string, Value>)

  /** Python's truth value of an object, `bool(v)`: false for None, False, 0,
      0.0 and the empty string, list and dict; a date or time is always true. */
  predicate Truthy(v: Value) {
    match v
    case VNone => false
    case VBool(b) => b
    case VInt(i) => i != 0
    case VFloat(r) => r != 0.0
    case VDateTime(_) => true
    case VStr(s) => s != ""
    case VList(items) => items != []
    case VDict(fields) => fields != map[]
  }

  /** `d.get(key, default)` */
  function Get(fields: map<string, Value>, key: string, default: Value): Value {
    if key in fields then fields[key] else default
  }

  /** Python's `sub in s` on two strings: a substring test. */
  predicate Contains(s: string, sub: string) {
    sub <= s || (s != [] && Contains(s[1..], sub))
  }
}
