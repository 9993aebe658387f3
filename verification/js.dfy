/** Option, for values that may be absent (the component's `error: null`). */
module Wrappers {
  datatype Option<+T> = None | Some(value: T)
}

/**
 * The slice of JavaScript's value semantics that the scanner component relies on:
 * plain values, object literals as finite maps from property names to values,
 * truthiness, the `!`, `&&` and `||` operators, property access and object spread.
 * Functions are not values here; where the component asks `typeof f === 'function'`
 * the model takes the answer as a boolean.
 */
module Js {

  datatype Value =
    | Undefined
    | Null
    | Bool(b: bool)
    | Num(n: real)
    | Str(s: string)
    | Arr(items: seq<Value>)
    | Obj(props: map<string, Value>)

  /** How a JavaScript expression completes: with a value, or by throwing a TypeError. */
  datatype Completion = Normal(value: Value) | TypeError

  /** `undefined` or `null`: the values that destructuring refuses. */
  predicate Nullish(v: Value) {
    v.Undefined? || v.Null?
  }

  /** ToBoolean: the falsy values are undefined, null, false, 0, and the empty string. */
  predicate Truthy(v: Value) {
    match v
    case Undefined => false
    case Null => false
    case Bool(b) => b
    case Num(n) => n != 0.0
    case Str(s) => s != ""
    case Arr(_) => true
    case Obj(_) => true
  }

  /** `!a` */
  function Not(a: Value): (r: Value)
    ensures r.Bool? && (r.b <==> !Truthy(a))
  {
    Bool(!Truthy(a))
  }

  /** `a && b`: `a` when it is falsy, otherwise `b`. */
  function And(a: Value, b: Value): (r: Value)
    ensures Truthy(r) <==> Truthy(a) && Truthy(b)
    ensures r == a || r == b
    ensures !Truthy(a) ==> r == a
  {
    if Truthy(a) then b else a
  }

  /** `a || b`: `a` when it is truthy, otherwise `b`. */
  function Or(a: Value, b: Value): (r: Value)
    ensures Truthy(r) <==> Truthy(a) || Truthy(b)
    ensures r == a || r == b
    ensures Truthy(a) ==> r == a
  {
    if Truthy(a) then a else b
  }

  /**
   * `v.key` for a `v` that is not nullish: an object's own property, and
   * `undefined` for a missing one. None of the property names the component
   * reads exists on a primitive or an array, so those give `undefined` too.
   */
  function Get(v: Value, key: string): Value {
    if v.Obj? && key in v.props then v.props[key] else Undefined
  }

  /** The properties `...v` copies into an object literal. */
  function OwnProperties(v: Value): map<string, Value> {
    if v.Obj? then v.props else map[]
  }
}
