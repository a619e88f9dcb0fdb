/** The arithmetic of bignumber.js that the amount model relies on.

    A BigNumber is an exact decimal, or +-Infinity, or NaN. Sums, differences and
    products of finite values are exact, so they are modelled on `real`. A quotient is
    rounded to 20 decimal places by the library; here it is exact. Infinity arises
    from dividing a nonzero value by zero, NaN from `0/0`, `Infinity - Infinity`,
    `0 * Infinity`, and from building a BigNumber out of `undefined`. The sign of
    zero is not distinguished. */
module BigNumbers {
  import opened Wrappers

  datatype Big = Finite(v: real) | Infinite(negative: bool) | NaN

  /** The result of comparing two BigNumbers that are not NaN. */
  datatype Ordering = Less | Equal | Greater

  function Neg(a: Big): Big
  {
    match a
    case Finite(x) => Finite(-x)
    case Infinite(n) => Infinite(!n)
    case NaN => NaN
  }

  /** `a.plus(b)` */
  function Plus(a: Big, b: Big): (r: Big)
    ensures a.Finite? && b.Finite? ==> r == Finite(a.v + b.v)
    ensures r.NaN? <==> a.NaN? || b.NaN? || (a.Infinite? && b.Infinite? && a.negative != b.negative)
  {
    match (a, b)
    case (NaN, _) => NaN
    case (_, NaN) => NaN
    case (Infinite(p), Infinite(q)) => if p == q then a else NaN
    case (Infinite(_), _) => a
    case (_, Infinite(_)) => b
    case (Finite(x), Finite(y)) => Finite(x + y)
  }

  /** `a.minus(b)` */
  function Minus(a: Big, b: Big): (r: Big)
    ensures a.Finite? && b.Finite? ==> r == Finite(a.v - b.v)
    ensures r.NaN? <==> a.NaN? || b.NaN? || (a.Infinite? && b.Infinite? && a.negative == b.negative)
  {
    Plus(a, Neg(b))
  }

  /** True when `x` counts as negative for the sign of a product or quotient. */
  predicate NegativeSign(x: Big)
  {
    match x
    case Finite(v) => v < 0.0
    case Infinite(n) => n
    case NaN => false
  }

  /** `a.multipliedBy(b)` */
  function Times(a: Big, b: Big): (r: Big)
    ensures a.Finite? && b.Finite? ==> r == Finite(a.v * b.v)
    ensures r.NaN? <==> a.NaN? || b.NaN? || (a.Infinite? && b == Finite(0.0)) || (b.Infinite? && a == Finite(0.0))
  {
    if a.NaN? || b.NaN? then NaN
    else if a.Finite? && b.Finite? then Finite(a.v * b.v)
    else if a == Finite(0.0) || b == Finite(0.0) then NaN
    else Infinite(NegativeSign(a) != NegativeSign(b))
  }

  /** `a.dividedBy(b)`, without the library's rounding of finite quotients. */
  function DividedBy(a: Big, b: Big): (r: Big)
    ensures a.Finite? && b.Finite? && b.v != 0.0 ==> r == Finite(a.v / b.v)
    ensures r.NaN? <==> a.NaN? || b.NaN? || (a.Infinite? && b.Infinite?) || (a == Finite(0.0) && b == Finite(0.0))
    ensures a.Finite? && b.Infinite? ==> r == Finite(0.0)
  {
    match (a, b)
    case (NaN, _) => NaN
    case (_, NaN) => NaN
    case (Infinite(_), Infinite(_)) => NaN
    case (Finite(x), Infinite(_)) => Finite(0.0)
    case (Finite(x), Finite(y)) =>
      if y != 0.0 then Finite(x / y)
      else if x == 0.0 then NaN
      else Infinite(x < 0.0)
    case (Infinite(p), Finite(y)) => Infinite(p != (y < 0.0))
  }

  /** bignumber.js `compare`: None when either side is NaN; infinities are
      equal to themselves and beyond every finite value. */
  function Compare(a: Big, b: Big): (r: Option<Ordering>)
    ensures r.None? <==> a.NaN? || b.NaN?
    ensures a.Finite? && b.Finite? ==>
      r == Some(if a.v < b.v then Less else if a.v == b.v then Equal else Greater)
  {
    match (a, b)
    case (NaN, _) => None
    case (_, NaN) => None
    case (Infinite(p), Infinite(q)) => Some(if p == q then Equal else if p then Less else Greater)
    case (Infinite(p), Finite(_)) => Some(if p then Less else Greater)
    case (Finite(_), Infinite(q)) => Some(if q then Greater else Less)
    case (Finite(x), Finite(y)) => Some(if x < y then Less else if x == y then Equal else Greater)
  }

  predicate IsGreaterThanOrEqualTo(a: Big, b: Big) { Compare(a, b) == Some(Greater) || Compare(a, b) == Some(Equal) }
  predicate IsGreaterThan(a: Big, b: Big) { Compare(a, b) == Some(Greater) }
  predicate IsLessThanOrEqualTo(a: Big, b: Big) { Compare(a, b) == Some(Less) || Compare(a, b) == Some(Equal) }
  predicate IsLessThan(a: Big, b: Big) { Compare(a, b) == Some(Less) }
  predicate IsEqualTo(a: Big, b: Big) { Compare(a, b) == Some(Equal) }

  /** Comparison is antisymmetric: swapping the operands reverses the outcome. */
  lemma CompareSwapped(a: Big, b: Big)
    ensures Compare(b, a) == (match Compare(a, b)
                              case None => None
                              case Some(Less) => Some(Greater)
                              case Some(Equal) => Some(Equal)
                              case Some(Greater) => Some(Less))
  {
  }

  /** Adding a finite value and subtracting it again gives back what was there. */
  lemma PlusMinusCancel(a: Big, b: Big)
    requires b.Finite?
    ensures Minus(Plus(a, b), b) == a
  {
  }

  /** Dividing by a nonzero finite value and multiplying back is the identity. */
  lemma DividedByTimesCancel(a: Big, d: real)
    requires d != 0.0
    ensures Times(DividedBy(a, Finite(d)), Finite(d)) == a
  {
    match a
    case Finite(x) =>
      calc {
        Times(DividedBy(a, Finite(d)), Finite(d));
        Finite((x / d) * d);
        { assert (x / d) * d == x; }
        Finite(x);
      }
    case Infinite(n) =>
    case NaN =>
  }

  /** Multiplying by a nonzero finite value and dividing back is the identity. */
  lemma TimesDividedByCancel(a: Big, d: real)
    requires d != 0.0
    ensures DividedBy(Times(a, Finite(d)), Finite(d)) == a
  {
    match a
    case Finite(x) =>
      assert (x * d) / d == x;
    case Infinite(n) =>
    case NaN =>
  }
}
