/** JavaScript values as the dashboard uses them: optional fields and numbers.

    A JavaScript number is modelled without rounding: it is NaN, a signed
    infinity or a finite real. Signed zero is not distinguished. */
module JsValues {

  /** A field that may be absent (`undefined`) or hold a value. */
  datatype Option<+T> = None | Some(value: T)

  /** A JavaScript number. */
  datatype Num = NaN | Infinity(negative: bool) | Finite(v: real)

  /** `a === b` on numbers: NaN is equal to nothing, not even to itself. */
  predicate StrictEq(a: Num, b: Num)
  {
    match (a, b)
    case (Finite(x), Finite(y)) => x == y
    case (Infinity(n), Infinity(m)) => n == m
    case _ => false
  }

  /** Truthiness of a number: 0 and NaN are falsy, everything else is truthy. */
  predicate Truthy(a: Num)
  {
    a != NaN && a != Finite(0.0)
  }

  /** Truthiness of an optional number: `undefined` is falsy. */
  predicate TruthyOpt(a: Option<Num>)
  {
    a.Some? && Truthy(a.value)
  }

  /** `a >= 0`; false for NaN. */
  predicate AtLeastZero(a: Num)
  {
    match a
    case NaN => false
    case Infinity(neg) => !neg
    case Finite(x) => x >= 0.0
  }

  /** `a < 1`; false for NaN. */
  predicate BelowOne(a: Num)
  {
    match a
    case NaN => false
    case Infinity(neg) => neg
    case Finite(x) => x < 1.0
  }

  /** `a < 0`; false for NaN. */
  predicate Negative(a: Num)
  {
    match a
    case NaN => false
    case Infinity(neg) => neg
    case Finite(x) => x < 0.0
  }

  /** `a > 0`; false for NaN. */
  predicate Positive(a: Num)
  {
    match a
    case NaN => false
    case Infinity(neg) => !neg
    case Finite(x) => x > 0.0
  }

  /** `a - b` under the IEEE 754 rules for NaN and infinities. */
  function Sub(a: Num, b: Num): (r: Num)
    ensures a.Finite? && b.Finite? ==> r == Finite(a.v - b.v)
    ensures a == NaN || b == NaN ==> r == NaN
  {
    match (a, b)
    case (NaN, _) => NaN
    case (_, NaN) => NaN
    case (Infinity(n), Infinity(m)) => if n == m then NaN else Infinity(n)
    case (Infinity(n), Finite(_)) => Infinity(n)
    case (Finite(_), Infinity(m)) => Infinity(!m)
    case (Finite(x), Finite(y)) => Finite(x - y)
  }

  /** `a / b` under the IEEE 754 rules for NaN, infinities and division by zero. */
  function Div(a: Num, b: Num): (r: Num)
    ensures a.Finite? && b.Finite? && b.v != 0.0 ==> r == Finite(a.v / b.v)
    ensures a == Finite(0.0) && b == Finite(0.0) ==> r == NaN
    ensures a == NaN || b == NaN ==> r == NaN
  {
    match (a, b)
    case (NaN, _) => NaN
    case (_, NaN) => NaN
    case (Infinity(_), Infinity(_)) => NaN
    case (Infinity(n), Finite(y)) => if y < 0.0 then Infinity(!n) else Infinity(n)
    case (Finite(_), Infinity(_)) => Finite(0.0)
    case (Finite(x), Finite(y)) =>
      if y != 0.0 then Finite(x / y)
      else if x == 0.0 then NaN
      else Infinity(x < 0.0)
  }

  /** `a * k` for a positive finite factor `k`. */
  function Scale(a: Num, k: real): (r: Num)
    requires k > 0.0
    ensures a.Finite? ==> r.Finite? && r.v == a.v * k
  {
    match a
    case NaN => NaN
    case Infinity(n) => Infinity(n)
    case Finite(x) => Finite(x * k)
  }

  /** `((close - open) / open) * 100`, the open-to-close percentage of a chart. */
  function PercentChange(open: Num, close: Num): (r: Num)
    ensures open.Finite? && close.Finite? && open.v != 0.0 ==>
              r == Finite((close.v - open.v) / open.v * 100.0)
    ensures open == Finite(0.0) && close == Finite(0.0) ==> r == NaN
  {
    Scale(Div(Sub(close, open), open), 100.0)
  }

  /** Over a positive open price, the percentage is positive exactly when the close is higher. */
  lemma PercentChangeSign(open: real, close: real)
    requires open > 0.0
    ensures Positive(PercentChange(Finite(open), Finite(close))) <==> close > open
  {
    var d := (close - open) / open;
    assert d > 0.0 <==> close - open > 0.0;
    assert d * 100.0 > 0.0 <==> d > 0.0;
  }

  /** An unchanged finite price gives a percentage that is not above zero:
      zero, or NaN when the price is zero. */
  lemma PercentChangeFlat(a: Num)
    requires a.Finite?
    ensures !Positive(PercentChange(a, a))
  {
    assert Sub(a, a) == Finite(0.0);
    if a.v != 0.0 {
      assert 0.0 / a.v == 0.0;
    }
  }

  /** Strict equality is reflexive on every number except NaN. */
  lemma StrictEqReflexive(a: Num)
    ensures StrictEq(a, a) <==> a != NaN
  {
  }
}
