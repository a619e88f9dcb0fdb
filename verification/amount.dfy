/** `Amount` of src/entities/amount.ts: a value held both in base units and in asset
    units, together with the `decimal` that relates the two.

    As written, the constructor relates the two by the factor `decimal` itself
    (base = asset * decimal), not by 10^decimal. Several call sites leave `decimal`
    out; the argument is then `undefined`, modelled as `None`, and the side derived
    from it becomes NaN. */
module Amounts {
  import opened Wrappers
  import opened BigNumbers

  /** Which representation the constructor is given. */
  datatype AmountType = BaseUnits | AssetUnits

  datatype Rounding = RoundDown | RoundHalfUp | RoundUp

  /** The `decimal` argument; `None` where a call site omits it. */
  type Decimal = Option<int>

  datatype Amount = Amount(assetAmount: Big, baseAmount: Big, decimal: Decimal)

  /** A failed `invariant(...)`, or a digit count that bignumber.js refuses with
      "Argument out of range": a programming error, not a recoverable condition. */
  datatype Violation =
    | DecimalMismatch
    | NotInteger(digits: real)
    | NotPositive(digits: real)
    | OutOfRange(digits: real)

  type Checked<T> = Result<T, Violation>

  /** The right operand of `mul` and `div`: a plain BigNumber value or another Amount. */
  datatype Operand = Plain(value: Big) | OfAmount(amount: Amount)

  /** The BigNumber formatting options; only the group separator is modelled. */
  datatype Format = Format(groupSeparator: string)

  datatype Style = Significant | Fixed

  /** What a renderer hands to bignumber.js: the asset-unit value and the checked
      digit count, with the format and rounding mode to apply. */
  datatype Rendering = Rendering(style: Style, value: Big, digits: nat, format: Format, rounding: Rounding)

  /** The BigNumber a JavaScript number `decimal` becomes when used as an operand. */
  function Factor(decimal: Decimal): Big
  {
    match decimal
    case Some(d) => Finite(d as real)
    case None => NaN
  }

  /** How the two representations of an amount built by the constructor relate. */
  predicate Coherent(a: Amount)
  {
    match a.decimal
    case None => a.assetAmount.NaN? || a.baseAmount.NaN?
    case Some(d) =>
      && (d != 0 ==> a.baseAmount == Times(a.assetAmount, Finite(d as real)))
      && (d == 0 && a.assetAmount.Finite? ==> a.baseAmount == Finite(0.0))
  }

  /** `new Amount(amount, type, decimal)` */
  function New(amount: Big, kind: AmountType, decimal: Decimal): (r: Amount)
    ensures r.decimal == decimal
    ensures kind == BaseUnits ==> r.baseAmount == amount
    ensures kind == AssetUnits ==> r.assetAmount == amount
    ensures Coherent(r)
  {
    match kind
    case BaseUnits =>
      var r := Amount(DividedBy(amount, Factor(decimal)), amount, decimal);
      if decimal.Some? && decimal.value != 0 then
        DividedByTimesCancel(amount, decimal.value as real);
        r
      else r
    case AssetUnits =>
      Amount(amount, Times(amount, Factor(decimal)), decimal)
  }

  /** `Amount.fromBaseAmount(amount, decimal)` */
  function FromBaseAmount(amount: Big, decimal: Decimal): (r: Amount)
    ensures r.baseAmount == amount && r.decimal == decimal
    ensures amount.Finite? && decimal.Some? && decimal.value != 0 ==>
      r.assetAmount == Finite(amount.v / decimal.value as real)
    ensures decimal.None? ==> r.assetAmount.NaN?
    ensures Coherent(r)
  {
    New(amount, BaseUnits, decimal)
  }

  /** `Amount.fromAssetAmount(amount, decimal)` */
  function FromAssetAmount(amount: Big, decimal: Decimal): (r: Amount)
    ensures r.assetAmount == amount && r.decimal == decimal
    ensures amount.Finite? && decimal.Some? ==> r.baseAmount == Finite(amount.v * decimal.value as real)
    ensures decimal.None? ==> r.baseAmount.NaN?
    ensures Coherent(r)
  {
    New(amount, AssetUnits, decimal)
  }

  /** The scale factor is `decimal` itself: one asset unit at decimal 8 is 8 base
      units, not 10^8. */
  lemma ScaleIsDecimalNotPowerOfTen()
    ensures FromAssetAmount(Finite(1.0), Some(8)).baseAmount == Finite(8.0)
    ensures FromBaseAmount(Finite(100000000.0), Some(8)).assetAmount == Finite(12500000.0)
  {
  }

  /** The `_0_AMOUNT` getter: a zero carrying this amount's decimal. */
  function Zero(a: Amount): (r: Amount)
    ensures r.assetAmount == Finite(0.0) && r.decimal == a.decimal
    ensures a.decimal.Some? ==> r.baseAmount == Finite(0.0)
    ensures a.decimal.None? ==> r.baseAmount.NaN?
  {
    New(Finite(0.0), AssetUnits, a.decimal)
  }

  /** `a.add(b)` */
  function Add(a: Amount, b: Amount): (r: Checked<Amount>)
    ensures r.Err? <==> a.decimal != b.decimal
    ensures r.Err? ==> r.error == DecimalMismatch
    ensures r.Ok? ==> r.value.baseAmount == Plus(a.baseAmount, b.baseAmount)
    ensures r.Ok? ==> r.value.decimal == a.decimal && Coherent(r.value)
  {
    if a.decimal != b.decimal then Err(DecimalMismatch)
    else Ok(New(Plus(a.baseAmount, b.baseAmount), BaseUnits, a.decimal))
  }

  /** `a.sub(b)` */
  function Sub(a: Amount, b: Amount): (r: Checked<Amount>)
    ensures r.Err? <==> a.decimal != b.decimal
    ensures r.Err? ==> r.error == DecimalMismatch
    ensures r.Ok? ==> r.value.baseAmount == Minus(a.baseAmount, b.baseAmount)
    ensures r.Ok? ==> r.value.decimal == a.decimal && Coherent(r.value)
  {
    if a.decimal != b.decimal then Err(DecimalMismatch)
    else Ok(New(Minus(a.baseAmount, b.baseAmount), BaseUnits, a.decimal))
  }

  /** The value an operand of `mul`/`div` contributes: an Amount contributes its
      asset-unit value only. */
  function OperandValue(x: Operand): Big
  {
    match x
    case Plain(v) => v
    case OfAmount(b) => b.assetAmount
  }

  /** `a.mul(x)`: no decimal check; works on asset units and keeps `a.decimal`. */
  function Mul(a: Amount, x: Operand): (r: Amount)
    ensures r.assetAmount == Times(a.assetAmount, OperandValue(x))
    ensures r.decimal == a.decimal && Coherent(r)
  {
    match x
    case OfAmount(b) => New(Times(a.assetAmount, b.assetAmount), AssetUnits, a.decimal)
    case Plain(v) => New(Times(a.assetAmount, v), AssetUnits, a.decimal)
  }

  /** `a.div(x)`: no decimal check; works on asset units and keeps `a.decimal`. */
  function Div(a: Amount, x: Operand): (r: Amount)
    ensures r.assetAmount == DividedBy(a.assetAmount, OperandValue(x))
    ensures r.decimal == a.decimal && Coherent(r)
  {
    match x
    case OfAmount(b) => New(DividedBy(a.assetAmount, b.assetAmount), AssetUnits, a.decimal)
    case Plain(v) => New(DividedBy(a.assetAmount, v), AssetUnits, a.decimal)
  }

  /** `a.gte(b)` */
  function Gte(a: Amount, b: Amount): (r: Checked<bool>)
    ensures r.Err? <==> a.decimal != b.decimal
    ensures r.Err? ==> r.error == DecimalMismatch
    ensures r.Ok? ==> (r.value <==> IsGreaterThanOrEqualTo(a.baseAmount, b.baseAmount))
  {
    if a.decimal != b.decimal then Err(DecimalMismatch)
    else Ok(IsGreaterThanOrEqualTo(a.baseAmount, b.baseAmount))
  }

  /** `a.gt(b)` */
  function Gt(a: Amount, b: Amount): (r: Checked<bool>)
    ensures r.Err? <==> a.decimal != b.decimal
    ensures r.Err? ==> r.error == DecimalMismatch
    ensures r.Ok? ==> (r.value <==> IsGreaterThan(a.baseAmount, b.baseAmount))
  {
    if a.decimal != b.decimal then Err(DecimalMismatch)
    else Ok(IsGreaterThan(a.baseAmount, b.baseAmount))
  }

  /** `a.lte(b)` */
  function Lte(a: Amount, b: Amount): (r: Checked<bool>)
    ensures r.Err? <==> a.decimal != b.decimal
    ensures r.Err? ==> r.error == DecimalMismatch
    ensures r.Ok? ==> (r.value <==> IsLessThanOrEqualTo(a.baseAmount, b.baseAmount))
  {
    if a.decimal != b.decimal then Err(DecimalMismatch)
    else Ok(IsLessThanOrEqualTo(a.baseAmount, b.baseAmount))
  }

  /** `a.lt(b)` */
  function Lt(a: Amount, b: Amount): (r: Checked<bool>)
    ensures r.Err? <==> a.decimal != b.decimal
    ensures r.Err? ==> r.error == DecimalMismatch
    ensures r.Ok? ==> (r.value <==> IsLessThan(a.baseAmount, b.baseAmount))
  {
    if a.decimal != b.decimal then Err(DecimalMismatch)
    else Ok(IsLessThan(a.baseAmount, b.baseAmount))
  }

  /** `a.eq(b)` */
  function Eq(a: Amount, b: Amount): (r: Checked<bool>)
    ensures r.Err? <==> a.decimal != b.decimal
    ensures r.Err? ==> r.error == DecimalMismatch
    ensures r.Ok? ==> (r.value <==> IsEqualTo(a.baseAmount, b.baseAmount))
  {
    if a.decimal != b.decimal then Err(DecimalMismatch)
    else Ok(IsEqualTo(a.baseAmount, b.baseAmount))
  }

  /** With equal decimals and base values that are not NaN, the five comparisons
      agree with one another as a total order does. */
  lemma ComparisonsAreDual(a: Amount, b: Amount)
    requires a.decimal == b.decimal
    requires !a.baseAmount.NaN? && !b.baseAmount.NaN?
    ensures Gte(a, b).Ok? && Lt(a, b).Ok? && Lte(a, b).Ok? && Gt(a, b).Ok? && Eq(a, b).Ok?
    ensures Gte(a, b).value <==> !Lt(a, b).value
    ensures Lte(a, b).value <==> !Gt(a, b).value
    ensures Eq(a, b).value <==> Gte(a, b).value && Lte(a, b).value
    ensures Gte(a, b).value <==> Lte(b, a).value
  {
    CompareSwapped(a.baseAmount, b.baseAmount);
  }

  /** A NaN base value (an amount whose decimal was omitted, built from asset
      units) compares false every way, so gte and lt are not complements. */
  lemma NaNComparesFalse(a: Amount, b: Amount)
    requires a.decimal == b.decimal
    requires a.baseAmount.NaN? || b.baseAmount.NaN?
    ensures Gte(a, b) == Ok(false) && Gt(a, b) == Ok(false)
    ensures Lte(a, b) == Ok(false) && Lt(a, b) == Ok(false) && Eq(a, b) == Ok(false)
  {
  }

  /** Every decimal-guarded operation fails on mismatched decimals, and on nothing else. */
  lemma MismatchedDecimalsFail(a: Amount, b: Amount)
    ensures a.decimal != b.decimal <==> Add(a, b) == Err(DecimalMismatch)
    ensures a.decimal != b.decimal <==> Sub(a, b) == Err(DecimalMismatch)
    ensures a.decimal != b.decimal <==> Gte(a, b) == Err(DecimalMismatch)
    ensures a.decimal != b.decimal <==> Gt(a, b) == Err(DecimalMismatch)
    ensures a.decimal != b.decimal <==> Lte(a, b) == Err(DecimalMismatch)
    ensures a.decimal != b.decimal <==> Lt(a, b) == Err(DecimalMismatch)
    ensures a.decimal != b.decimal <==> Eq(a, b) == Err(DecimalMismatch)
  {
  }

  /** `a.add(b).sub(b)` gives back `a`'s base value, so it is `eq` to `a`. */
  lemma AddSubRoundTrip(a: Amount, b: Amount)
    requires a.decimal == b.decimal
    requires b.baseAmount.Finite?
    ensures Add(a, b).Ok? && Sub(Add(a, b).value, b).Ok?
    ensures Sub(Add(a, b).value, b).value.baseAmount == a.baseAmount
    ensures !a.baseAmount.NaN? ==> Eq(Sub(Add(a, b).value, b).value, a) == Ok(true)
  {
    PlusMinusCancel(a.baseAmount, b.baseAmount);
  }

  /** Adding is commutative on base values; the result carries the common decimal. */
  lemma AddCommutes(a: Amount, b: Amount)
    requires a.decimal == b.decimal
    ensures Add(a, b) == Add(b, a)
  {
    assert Plus(a.baseAmount, b.baseAmount) == Plus(b.baseAmount, a.baseAmount);
  }

  /** An Amount operand of `mul`/`div` contributes only its asset value: its base
      value and its decimal are never read. */
  lemma OperandDecimalIgnored(a: Amount, b: Amount)
    ensures Mul(a, OfAmount(b)) == Mul(a, Plain(b.assetAmount))
    ensures Div(a, OfAmount(b)) == Div(a, Plain(b.assetAmount))
    ensures Mul(a, OfAmount(b)) == FromAssetAmount(Times(a.assetAmount, b.assetAmount), a.decimal)
  {
  }

  /** `fromAssetAmount(2, d).mul(3)` has asset value 6 whatever `d` is. */
  lemma MulOnAssetUnits(d: Decimal)
    ensures Mul(FromAssetAmount(Finite(2.0), d), Plain(Finite(3.0))).assetAmount == Finite(6.0)
  {
  }

  /** Dividing by the value just multiplied by restores the amount, when that value
      is finite and nonzero and the amount is coherent with a nonzero decimal. */
  lemma MulDivRoundTrip(a: Amount, x: Operand)
    requires a.decimal.Some? && a.decimal.value != 0 && Coherent(a)
    requires OperandValue(x).Finite? && OperandValue(x).v != 0.0
    ensures Div(Mul(a, x), x) == a
  {
    TimesDividedByCancel(a.assetAmount, OperandValue(x).v);
  }

  /** Comparing an amount with its own `_0_AMOUNT` never trips the decimal check. */
  lemma ZeroIsDecimalSafe(a: Amount)
    ensures Lte(a, Zero(a)).Ok? && Gte(a, Zero(a)).Ok? && Lt(a, Zero(a)).Ok? && Gt(a, Zero(a)).Ok?
    ensures a.decimal.Some? && a.baseAmount.Finite? ==>
      (Lte(a, Zero(a)).value <==> a.baseAmount.v <= 0.0)
  {
  }

  predicate IsPositiveInteger(x: real)
  {
    x.Floor as real == x && x > 0.0
  }

  /** The two `invariant` checks of the renderers, in their order. */
  function CheckDigits(digits: real): (r: Checked<nat>)
    ensures r.Ok? <==> IsPositiveInteger(digits)
    ensures r.Ok? ==> r.value as real == digits
    ensures digits.Floor as real != digits ==> r == Err(NotInteger(digits))
    ensures digits.Floor as real == digits && digits <= 0.0 ==> r == Err(NotPositive(digits))
  {
    if digits.Floor as real != digits then Err(NotInteger(digits))
    else if digits <= 0.0 then Err(NotPositive(digits))
    else Ok(digits.Floor)
  }

  /** `MAX` of bignumber.js: the largest digit count `toPrecision`, `toFixed` and
      `toFormat` accept. */
  const MaxDigits: nat := 1000000000

  /** The digit counts both renderers accept: the invariants first, then the range
      bignumber.js enforces. */
  predicate Renderable(digits: real)
  {
    IsPositiveInteger(digits) && digits <= MaxDigits as real
  }

  /** The library's range check on a digit count that passed the invariants. */
  function CheckRange(n: nat): (r: Checked<nat>)
    ensures r.Ok? <==> n <= MaxDigits
    ensures r.Ok? ==> r.value == n
    ensures r.Err? ==> r.error == OutOfRange(n as real)
  {
    if n <= MaxDigits then Ok(n) else Err(OutOfRange(n as real))
  }

  /** `a.toSignificant(digits, format, rounding)`, up to the string the library produces. */
  function ToSignificant(a: Amount, digits: real := 8.0, format: Format := Format(""),
                         rounding: Rounding := RoundDown): (r: Checked<Rendering>)
    ensures r.Ok? <==> Renderable(digits)
    ensures !IsPositiveInteger(digits) ==> r == Err(CheckDigits(digits).error)
    ensures IsPositiveInteger(digits) && digits > MaxDigits as real ==> r == Err(OutOfRange(digits))
    ensures r.Ok? ==> r.value.value == a.assetAmount && r.value.digits as real == digits
    ensures r.Ok? ==> r.value.style == Significant && r.value.format == format && r.value.rounding == rounding
  {
    match CheckDigits(digits)
    case Err(e) => Err(e)
    case Ok(n) =>
      match CheckRange(n)
      case Err(e) => Err(e)
      case Ok(k) => Ok(Rendering(Significant, a.assetAmount, k, format, rounding))
  }

  /** `a.toFixed(places, format, rounding)`, up to the string the library produces. */
  function ToFixed(a: Amount, places: real := 8.0, format: Format := Format(""),
                   rounding: Rounding := RoundDown): (r: Checked<Rendering>)
    ensures r.Ok? <==> Renderable(places)
    ensures !IsPositiveInteger(places) ==> r == Err(CheckDigits(places).error)
    ensures IsPositiveInteger(places) && places > MaxDigits as real ==> r == Err(OutOfRange(places))
    ensures r.Ok? ==> r.value.value == a.assetAmount && r.value.digits as real == places
    ensures r.Ok? ==> r.value.style == Fixed && r.value.format == format && r.value.rounding == rounding
  {
    match CheckDigits(places)
    case Err(e) => Err(e)
    case Ok(n) =>
      match CheckRange(n)
      case Err(e) => Err(e)
      case Ok(k) => Ok(Rendering(Fixed, a.assetAmount, k, format, rounding))
  }

  /** Called without arguments, both renderers use 8 digits, no group separator
      and ROUND_DOWN. */
  lemma RenderDefaults(a: Amount)
    ensures ToSignificant(a) == Ok(Rendering(Significant, a.assetAmount, 8, Format(""), RoundDown))
    ensures ToFixed(a) == Ok(Rendering(Fixed, a.assetAmount, 8, Format(""), RoundDown))
  {
  }

  /** The largest digit count bignumber.js accepts renders; one more is refused by
      the library even though it passes both invariants. */
  lemma DigitLimit(a: Amount)
    ensures ToFixed(a, MaxDigits as real).Ok? && ToSignificant(a, MaxDigits as real).Ok?
    ensures ToFixed(a, MaxDigits as real + 1.0) == Err(OutOfRange(MaxDigits as real + 1.0))
    ensures ToSignificant(a, MaxDigits as real + 1.0) == Err(OutOfRange(MaxDigits as real + 1.0))
  {
  }

  function Pow10(k: nat): (r: nat)
    ensures r >= 1
  {
    if k == 0 then 1 else 10 * Pow10(k - 1)
  }

  /** How many units of the last kept place a non-negative magnitude `t` rounds to. */
  function RoundUnits(t: real, mode: Rounding): (m: nat)
    requires t >= 0.0
    ensures mode == RoundDown ==> m as real <= t < m as real + 1.0
    ensures mode == RoundUp ==> m as real - 1.0 < t <= m as real
    ensures mode == RoundHalfUp ==> m as real - 0.5 <= t < m as real + 0.5
  {
    match mode
    case RoundDown => t.Floor
    case RoundUp => if t.Floor as real == t then t.Floor else t.Floor + 1
    case RoundHalfUp => (t + 0.5).Floor
  }

  /** The magnitude `u` rounded to a whole number of units `1/s`. */
  function RoundMagnitude(u: real, s: real, mode: Rounding): real
    requires u >= 0.0 && s >= 1.0
  {
    RoundUnits(u * s, mode) as real / s
  }

  /** The value of `new BigNumber(x.toFixed(places, mode))`: `x` rounded to `places`
      decimal places, symmetrically about zero; NaN and infinities are unchanged. */
  function RoundedToPlaces(x: Big, places: nat, mode: Rounding): Big
  {
    match x
    case Finite(v) =>
      var s := Pow10(places) as real;
      if v < 0.0 then Finite(-RoundMagnitude(-v, s, mode))
      else Finite(RoundMagnitude(v, s, mode))
    case _ => x
  }

  /** The numeric value a fixed-point rendering denotes. */
  function RenderedValue(r: Rendering): Big
    requires r.style == Fixed
  {
    RoundedToPlaces(r.value, r.digits, r.rounding)
  }

  /** ROUND_DOWN truncates a magnitude: no larger, and less than one unit of the
      last kept place below it. */
  lemma RoundDownMagnitude(u: real, s: real)
    requires u >= 0.0 && s >= 1.0
    ensures 0.0 <= RoundMagnitude(u, s, RoundDown) <= u
    ensures u - RoundMagnitude(u, s, RoundDown) < 1.0 / s
  {
    ScaledTruncation(u, s, RoundUnits(u * s, RoundDown) as real);
  }

  /** ROUND_DOWN truncates toward zero: the result keeps the sign of `v`, is no
      larger in magnitude, and is less than one unit of the last place away. */
  lemma RoundDownTruncates(v: real, places: nat)
    ensures RoundedToPlaces(Finite(v), places, RoundDown).Finite?
    ensures var w := RoundedToPlaces(Finite(v), places, RoundDown).v;
      && (v >= 0.0 ==> 0.0 <= w <= v && v - w < 1.0 / Pow10(places) as real)
      && (v < 0.0 ==> v <= w <= 0.0 && w - v < 1.0 / Pow10(places) as real)
  {
    var s := Pow10(places) as real;
    if v < 0.0 {
      RoundDownMagnitude(-v, s);
    } else {
      RoundDownMagnitude(v, s);
    }
  }

  /** A magnitude `u` whose scaled value `u * s` truncates to `m` lies within one
      unit `1/s` above `m / s`. */
  lemma ScaledTruncation(u: real, s: real, m: real)
    requires u >= 0.0 && s > 0.0 && m >= 0.0
    requires m <= u * s < m + 1.0
    ensures 0.0 <= m / s <= u
    ensures u - m / s < 1.0 / s
  {
    assert m / s <= (u * s) / s;
    assert (u * s) / s == u;
    assert u - m / s == (u * s - m) / s;
    assert (u * s - m) / s < 1.0 / s;
  }
}
