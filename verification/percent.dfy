/** `Percent` of src/entities/percent.ts: an Amount holding a fraction, rendered as a
    percentage. Arithmetic and comparisons are those of `Amounts` applied to the
    wrapped amount; only the two renderers differ, scaling the value by 100 first. */
module Percents {
  import opened Wrappers
  import opened BigNumbers
  import opened Amounts

  datatype Percent = Percent(amount: Amount)

  /** `_100_`: built without a decimal, so its base value is NaN. */
  function Hundred(): (h: Amount)
    ensures h.assetAmount == Finite(100.0)
    ensures h.decimal.None? && h.baseAmount.NaN?
  {
    New(Finite(100.0), AssetUnits, None)
  }

  /** `this.mul(_100_)`: the amount a Percent renders. */
  function Displayed(p: Percent): (a: Amount)
    ensures a.assetAmount == Times(p.amount.assetAmount, Finite(100.0))
    ensures a.decimal == p.amount.decimal
  {
    Mul(p.amount, OfAmount(Hundred()))
  }

  /** `Percent.toSignificant`: renders 100 times the asset value, with the same
      defaults and the same digit checks and range as `Amount.toSignificant`. */
  function ToSignificant(p: Percent, digits: real := 8.0, format: Format := Format(""),
                         rounding: Rounding := RoundDown): (r: Checked<Rendering>)
    ensures r.Ok? <==> Renderable(digits)
    ensures !IsPositiveInteger(digits) ==> r == Err(CheckDigits(digits).error)
    ensures IsPositiveInteger(digits) && digits > MaxDigits as real ==> r == Err(OutOfRange(digits))
    ensures r.Ok? ==> r.value == Rendering(Significant, Times(p.amount.assetAmount, Finite(100.0)),
                                           digits.Floor, format, rounding)
  {
    Amounts.ToSignificant(Displayed(p), digits, format, rounding)
  }

  /** `Percent.toFixed`: renders 100 times the asset value, with the same defaults
      and the same digit checks and range as `Amount.toFixed`. */
  function ToFixed(p: Percent, places: real := 8.0, format: Format := Format(""),
                   rounding: Rounding := RoundDown): (r: Checked<Rendering>)
    ensures r.Ok? <==> Renderable(places)
    ensures !IsPositiveInteger(places) ==> r == Err(CheckDigits(places).error)
    ensures IsPositiveInteger(places) && places > MaxDigits as real ==> r == Err(OutOfRange(places))
    ensures r.Ok? ==> r.value == Rendering(Fixed, Times(p.amount.assetAmount, Finite(100.0)),
                                           places.Floor, format, rounding)
  {
    Amounts.ToFixed(Displayed(p), places, format, rounding)
  }

  /** Each Percent renderer is the Amount renderer applied to the amount whose asset
      value is 100 times the percent's and whose decimal is the percent's. The
      decimal of `_100_` plays no part: scaling by a plain 100 is the same. */
  lemma RenderersDelegateToScaledAmount(p: Percent, k: real, f: Format, m: Rounding)
    ensures Displayed(p) == FromAssetAmount(Times(p.amount.assetAmount, Finite(100.0)), p.amount.decimal)
    ensures Displayed(p) == Mul(p.amount, Plain(Finite(100.0)))
    ensures ToFixed(p, k, f, m) == Amounts.ToFixed(FromAssetAmount(Times(p.amount.assetAmount, Finite(100.0)), p.amount.decimal), k, f, m)
    ensures ToSignificant(p, k, f, m) == Amounts.ToSignificant(FromAssetAmount(Times(p.amount.assetAmount, Finite(100.0)), p.amount.decimal), k, f, m)
  {
  }

  /** A stored fraction of 0.3065 renders with two places, rounding down, as 30.65. */
  lemma FractionRendersAsPercentage()
    ensures ToFixed(Percent(FromAssetAmount(Finite(0.3065), Some(8))), 2.0).Ok?
    ensures RenderedValue(ToFixed(Percent(FromAssetAmount(Finite(0.3065), Some(8))), 2.0).value) == Finite(30.65)
  {
    var r := ToFixed(Percent(FromAssetAmount(Finite(0.3065), Some(8))), 2.0).value;
    assert r.value == Finite(30.65) && r.digits == 2 && r.rounding == RoundDown;
    assert Pow10(2) == 100;
    assert RoundUnits(30.65 * 100.0, RoundDown) == 3065;
  }
}
