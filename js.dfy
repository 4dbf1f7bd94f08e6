/** The JavaScript values the cache decorator looks at, and JavaScript's truthiness. */
module Js {

  datatype Option<+T> = None | Some(value: T)

  /** A JavaScript value, as far as this model needs to tell values apart.
      Numbers are reals (NaN separately; -0 behaves like 0 everywhere it matters here),
      objects and arrays are opaque references. */
  datatype JsValue =
    | Undefined
    | Null
    | Bool(b: bool)
    | Num(n: real)
    | NaN
    | Str(s: string)
    | Obj(ref: nat)

  /** JavaScript's ToBoolean: what `if (v)` and `v || w` test. */
  predicate Truthy(v: JsValue) {
    match v
    case Undefined => false
    case Null => false
    case Bool(b) => b
    case Num(n) => n != 0.0
    case NaN => false
    case Str(s) => s != ""
    case Obj(_) => true
  }
}
