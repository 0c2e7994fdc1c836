/**
 * The few JavaScript value semantics that the shoe card's variant rule relies on:
 * the kinds of value a prop can hold and what the `typeof` operator reports for
 * each (section 13.5.3 of ECMAScript 2023, "The typeof Operator").
 */
module JsValues {

  /** A JavaScript number: an IEEE 754 double, reduced here to what `typeof` can tell apart. */
  datatype JsNumber = Finite(value: real) | NaN | PositiveInfinity | NegativeInfinity

  /** A JavaScript value as a component prop may carry it. */
  datatype JsValue =
    | Undefined
    | Null
    | Boolean(b: bool)
    | Number(n: JsNumber)
    | BigInt(i: int)
    | String(s: string)
    | Symbol(description: string)
    | PlainObject
    | Callable

  /** Every string that `typeof` can produce for the values above. */
  const TypeofResults: set<string> :=
    {"undefined", "object", "boolean", "number", "bigint", "string", "symbol", "function"}

  /**
   * The result of `typeof v`. `null` reports "object"; every number, including
   * zero, NaN and the infinities, reports "number"; a BigInt does not.
   */
  function TypeOf(v: JsValue): (t: string)
    ensures t in TypeofResults
    ensures t == "number" <==> v.Number?
    ensures t == "undefined" <==> v.Undefined?
    ensures t == "object" <==> v.Null? || v.PlainObject?
  {
    match v
    case Undefined => "undefined"
    case Null => "object"
    case Boolean(_) => "boolean"
    case Number(_) => "number"
    case BigInt(_) => "bigint"
    case String(_) => "string"
    case Symbol(_) => "symbol"
    case PlainObject => "object"
    case Callable => "function"
  }

  /**
   * JavaScript truthiness (section 7.1.2 of ECMAScript 2023, "ToBoolean"):
   * `undefined`, `null`, `false`, zero, NaN, the empty string and the zero BigInt
   * are falsy; every object, function and symbol is truthy.
   */
  function ToBoolean(v: JsValue): (b: bool)
    ensures v.Undefined? || v.Null? ==> !b
    ensures v.PlainObject? || v.Callable? || v.Symbol? ==> b
    ensures v.Number? ==> (b <==> v.n.PositiveInfinity? || v.n.NegativeInfinity? || (v.n.Finite? && v.n.value != 0.0))
    ensures v.String? ==> (b <==> |v.s| > 0)
    ensures v.Boolean? ==> (b <==> v.b)
    ensures v.BigInt? ==> (b <==> v.i != 0)
  {
    match v
    case Undefined => false
    case Null => false
    case Boolean(x) => x
    case Number(n) => !(n.NaN? || n == Finite(0.0))
    case BigInt(i) => i != 0
    case String(str) => str != ""
    case Symbol(_) => true
    case PlainObject => true
    case Callable => true
  }
}
