/**
 * The JavaScript values that Backbone attributes and plain configuration
 * objects hold. `Undefined` is a value a map may store (Backbone's `set`
 * stores it); a key that is absent reads as `Undefined` too.
 */
module Values {
  datatype Value = Undefined | Null | Num(n: real) | Str(s: string) | Bool(b: bool) | Obj(id: nat)

  /** JavaScript truthiness (NaN is not modelled). */
  predicate Truthy(v: Value) {
    match v
    case Undefined => false
    case Null => false
    case Num(n) => n != 0.0
    case Str(s) => s != ""
    case Bool(b) => b
    case Obj(_) => true
  }

  /** Property access `obj[key]` on a plain object. */
  function Lookup(m: map<string, Value>, key: string): Value {
    if key in m then m[key] else Undefined
  }

  /** A plain `{ x, y }` object: a pixel position, a pixel delta or a
      sequence coordinate pair. */
  datatype Point = Point(x: real, y: real)
}
