/** The fragment of JavaScript value semantics that the quote renderer relies on:
    numbers with their special values, the dynamic values a quote field can hold,
    truthiness, the two null-coalescing idioms, and the implicit conversions that
    string concatenation and comparison perform. Everything whose result depends on
    floating-point digits or on the host's locale and clock is a field of `Host`,
    a record of functions that every definition below takes as a parameter, so
    each fact proved holds whatever those functions are. */
module Js {

  datatype Option<+T> = None | Some(value: T)

  /** A double as the renderer can tell it apart: its order on the real line,
      whether it is zero and whether it is NaN. */
  datatype Number = Finite(value: real) | PosInfinity | NegInfinity | NaN

  /** A value that a field of the provider's reply or of the `stock` dictionary
      can hold. `Undefined` is also what reading an absent key gives. */
  datatype Value = Undefined | Null | Bool(b: bool) | Num(n: Number) | Text(s: string)

  /** The host functions whose output is left unspecified. */
  datatype Host = Host(
    numberToString: Number -> string,           // Number::toString, used by `"..." + n`
    stringToNumber: string -> Number,           // StringToNumber, used by `+s`, `<`, `-`
    toFixed: (Number, nat) -> string,           // x.toFixed(k)
    spreadPercent: (Number, Number) -> Number,  // ((ask - bid) / ask) * 100, given bid and ask
    toLocaleString: Value -> string,            // v.toLocaleString("en-US")
    dateToString: Value -> string)              // String(new Date(v))

  predicate NumberTruthy(n: Number) {
    match n
    case Finite(v) => v != 0.0
    case NaN => false
    case _ => true
  }

  /** JavaScript truthiness: undefined, null, false, 0, NaN and "" are falsy. */
  predicate Truthy(v: Value) {
    match v
    case Undefined => false
    case Null => false
    case Bool(b) => b
    case Num(n) => NumberTruthy(n)
    case Text(s) => s != ""
  }

  predicate Nullish(v: Value) {
    v.Undefined? || v.Null?
  }

  /** `v ?? null`: only undefined and null are replaced, so 0, NaN, false and ""
      are kept as they are. */
  function OrNull(v: Value): (r: Value)
    ensures !r.Undefined?
    ensures r.Null? <==> Nullish(v)
    ensures !Nullish(v) ==> r == v
    ensures Truthy(r) == Truthy(v)
  {
    if Nullish(v) then Null else v
  }

  /** `v ? v : null`: every falsy value becomes null. */
  function TruthyOrNull(v: Value): (r: Value)
    ensures Truthy(r) == Truthy(v)
    ensures Truthy(v) ==> r == v
    ensures !Truthy(v) ==> r == Null
  {
    if Truthy(v) then v else Null
  }

  /** `n < c` for a finite constant `c`; every comparison with NaN is false. */
  predicate LessThan(n: Number, c: real) {
    match n
    case Finite(v) => v < c
    case NegInfinity => true
    case _ => false
  }

  /** `n >= c` for a finite constant `c`. */
  predicate AtLeast(n: Number, c: real) {
    match n
    case Finite(v) => v >= c
    case PosInfinity => true
    case _ => false
  }

  /** `n / d` for a positive constant `d`. The quotient is exact: whatever rounding
      the double division does is absorbed by the unspecified `Host.toFixed` that
      every quotient here is passed to. */
  function Quotient(n: Number, d: real): (r: Number)
    requires d > 0.0
    ensures r.Finite? <==> n.Finite?
    ensures n.Finite? ==> r.value * d == n.value
    ensures !n.Finite? ==> r == n
  {
    match n
    case Finite(v) => Finite(v / d)
    case _ => n
  }

  /** ToNumber, the conversion `<`, `-` and unary `+` apply to their operands. */
  function ToNumber(h: Host, v: Value): Number {
    match v
    case Undefined => NaN
    case Null => Finite(0.0)
    case Bool(b) => if b then Finite(1.0) else Finite(0.0)
    case Num(n) => n
    case Text(s) => h.stringToNumber(s)
  }

  /** ToString, the conversion `"..." + v` applies to `v`. */
  function ToString(h: Host, v: Value): string {
    match v
    case Undefined => "undefined"
    case Null => "null"
    case Bool(b) => if b then "true" else "false"
    case Num(n) => h.numberToString(n)
    case Text(s) => s
  }
}
