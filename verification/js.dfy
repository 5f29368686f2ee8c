/** The JavaScript values the order pipeline reads out of an upstream purchase,
    and the truthiness rule behind its `!x` guards and `x || fallback` defaults. */
module Js {

  /** A scalar JSON value as JavaScript sees it. Numbers are modelled as
      integers. `NaN` cannot come out of a JSON body; it is kept so that
      `Truthy` is the whole of ToBoolean on numbers. */
  datatype Scalar = Undefined | Null | Bool(b: bool) | Num(n: int) | NaN | Str(s: string)

  /** ToBoolean: `undefined`, `null`, `false`, `0`, `NaN` and `""` are falsy,
      everything else is truthy. */
  predicate Truthy(v: Scalar) {
    match v
    case Undefined => false
    case Null => false
    case Bool(b) => b
    case Num(n) => n != 0
    case NaN => false
    case Str(s) => s != ""
  }

  /** The value of `v || fallback`. */
  function Or(v: Scalar, fallback: Scalar): Scalar {
    if Truthy(v) then v else fallback
  }
}
