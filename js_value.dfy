/**
 The slice of JavaScript's value semantics that the parameter and request
 logic depends on: the values a parameter can hold, truthiness (`if (v)`,
 `a || b`), nullish coalescing (`a ?? b`) and property lookup on a plain
 object used as a dictionary (a missing key reads as `undefined`).
 */
module JsValue {

  datatype Option<+T> = None | Some(value: T)

  /** A parameter value. Numbers are exact reals: IEEE rounding is not modelled;
      `NaN` is what `parseInt`/`parseFloat` yield for non-numeric input. */
  datatype Value = Undefined | Null | NaN | Num(n: real) | Str(s: string)

  /** `v === undefined || v === null`, the values `??` replaces. */
  predicate IsNullish(v: Value) {
    v.Undefined? || v.Null?
  }

  /** JavaScript's ToBoolean on the values above. */
  predicate Truthy(v: Value) {
    match v
    case Undefined => false
    case Null => false
    case NaN => false
    case Num(n) => n != 0.0
    case Str(s) => s != ""
  }

  /** `a ?? b` */
  function Coalesce(a: Value, b: Value): Value {
    if IsNullish(a) then b else a
  }

  /** `a || b` */
  function Or(a: Value, b: Value): Value {
    if Truthy(a) then a else b
  }

  /** `v > 0`. A string operand would be converted with ToNumber; that
      conversion is not modelled and a string is taken as not positive. */
  predicate Positive(v: Value) {
    v.Num? && v.n > 0.0
  }

  type Dict = map<string, Value>

  /** `d[k]` on a plain object. */
  function Get(d: Dict, k: string): Value {
    if k in d then d[k] else Undefined
  }
}
