/** The market-cap formatter `formatLongNumber`: one of three magnitude tiers,
    the value scaled to that tier and rounded, and the tier's letter. */
module LongNumber {
  import opened Js

  datatype Tier = Millions | Billions | Trillions

  function Suffix(t: Tier): char {
    match t
    case Millions => 'M'
    case Billions => 'B'
    case Trillions => 'T'
  }

  function Scale(t: Tier): (d: real)
    ensures d > 0.0
  {
    match t
    case Millions => 1000000.0
    case Billions => 1000000000.0
    case Trillions => 1000000000000.0
  }

  /** Decimals kept by `toFixed` in each tier. */
  function Decimals(t: Tier): nat {
    match t
    case Millions => 3
    case Billions => 3
    case Trillions => 1
  }

  /** Reference classification of a number by magnitude, written as one
      descent along the real line. Only NaN has no tier. */
  function TierOf(n: Number): Option<Tier> {
    match n
    case NaN => None
    case NegInfinity => Some(Millions)
    case PosInfinity => Some(Trillions)
    case Finite(v) =>
      if v < 1000000000.0 then Some(Millions)
      else if v < 1000000000000.0 then Some(Billions)
      else Some(Trillions)
  }

  /** `+(x).toFixed(k)` placed in a string: the fixed-point text is read back as a
      number (dropping trailing zeros) and printed again. */
  function Rounded(h: Host, x: Number, k: nat): string {
    ToString(h, Num(h.stringToNumber(h.toFixed(x, k))))
  }

  function Last(s: string): char
    requires |s| > 0
  {
    s[|s| - 1]
  }

  /** `formatLongNumber(n)`. Its three guards are evaluated one after the other and
      none holds for NaN, in which case the arrow function falls off its end and
      yields `undefined`, modelled as `None`. */
  function FormatLongNumber(h: Host, n: Number): (r: Option<string>)
    ensures r.Some? <==> !n.NaN?
    ensures r.Some? ==> |r.value| > 0
    ensures r.Some? ==> (Last(r.value) == 'M' <==> LessThan(n, 1e9))
    ensures r.Some? ==> (Last(r.value) == 'B' <==> AtLeast(n, 1e9) && LessThan(n, 1e12))
    ensures r.Some? ==> (Last(r.value) == 'T' <==> AtLeast(n, 1e12))
    ensures r.Some? ==> (TierOf(n).Some? &&
      var t := TierOf(n).value;
      r.value == Rounded(h, Quotient(n, Scale(t)), Decimals(t)) + [Suffix(t)])
  {
    if LessThan(n, 1e9) then Some(Rounded(h, Quotient(n, 1e6), 3) + "M")
    else if AtLeast(n, 1e9) && LessThan(n, 1e12) then Some(Rounded(h, Quotient(n, 1e9), 3) + "B")
    else if AtLeast(n, 1e12) then Some(Rounded(h, Quotient(n, 1e12), 1) + "T")
    else None
  }
}
