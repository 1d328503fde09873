/**
 * The three display formatters. Each picks a branch (placeholder, "Free",
 * a precision, a unit suffix) from threshold comparisons; the digits that
 * `Number.prototype.toFixed` and `toString` would print are left abstract.
 */
module Format {
  import opened Wrappers

  /** `value.toFixed(digits)`: the number and the precision it is printed with. */
  datatype Fixed = Fixed(value: real, digits: nat)

  /** `formatPrice`: "-", "Free", or "$" followed by a fixed-precision number. */
  datatype PriceText = PriceDash | Free | Dollars(amount: Fixed)

  /** `formatTokens`: "-", one-decimal millions + "M", rounded thousands + "K", or the integer. */
  datatype TokensText = TokensDash | MTokens(amount: Fixed) | KTokens(thousands: int) | Count(n: int)

  /** `formatParameters`: whole millions + "M" below one billion, else the count + "B". */
  datatype ParamsText = MParams(scaled: Fixed) | BParams(billions: real)

  function FormatPrice(price: Option<real>): (t: PriceText)
    ensures t == PriceDash <==> price.None?
    ensures t == Free <==> price == Some(0.0)
    ensures t.Dollars? ==> t.amount.value == price.value && 2 <= t.amount.digits <= 4
    ensures t.Dollars? ==> (t.amount.digits == 4 <==> price.value < 0.01)
    ensures t.Dollars? ==> (t.amount.digits == 2 <==> price.value >= 0.1)
  {
    match price
    case None => PriceDash
    case Some(p) =>
      if p == 0.0 then Free
      else if p < 0.01 then Dollars(Fixed(p, 4))
      else if p < 0.1 then Dollars(Fixed(p, 3))
      else Dollars(Fixed(p, 2))
  }

  function Pow10(n: nat): (r: real)
    ensures r >= 1.0
  {
    if n == 0 then 1.0 else 10.0 * Pow10(n - 1)
  }

  /**
   * The precision thresholds keep at least two significant digits for every
   * price of a tenth of a cent or more: the printed amount has at least two
   * digits after scaling to its last decimal place.
   */
  lemma PriceKeepsTwoSignificantDigits(p: real)
    requires p >= 0.001
    ensures FormatPrice(Some(p)).Dollars?
    ensures p * Pow10(FormatPrice(Some(p)).amount.digits) >= 10.0
  {
  }

  /** Cheaper positive prices never get fewer decimals than dearer ones. */
  lemma PricePrecisionMonotone(a: real, b: real)
    requires 0.0 < a <= b
    ensures FormatPrice(Some(a)).amount.digits >= FormatPrice(Some(b)).amount.digits
  {
  }

  /** `Math.round`: the nearest integer, halves rounded up. */
  function RoundHalfUp(x: real): (n: int)
    ensures n as real - 0.5 <= x < n as real + 0.5
  {
    (x + 0.5).Floor
  }

  function FormatTokens(tokens: Option<int>): (t: TokensText)
    ensures t == TokensDash <==> tokens.None?
    ensures t.MTokens? <==> tokens.Some? && tokens.value >= 1000000
    ensures t.MTokens? ==> t.amount == Fixed(tokens.value as real / 1000000.0, 1)
    ensures t.KTokens? <==> tokens.Some? && 1000 <= tokens.value < 1000000
    ensures t.Count? ==> tokens.Some? && t.n == tokens.value < 1000
  {
    match tokens
    case None => TokensDash
    case Some(n) =>
      if n >= 1000000 then MTokens(Fixed(n as real / 1000000.0, 1))
      else if n >= 1000 then KTokens(RoundHalfUp(n as real / 1000.0))
      else Count(n)
  }

  /**
   * The "K" branch is exactly integer division after adding half a thousand,
   * and its value lies between 1 and 1000.
   */
  lemma ThousandsRoundHalfUp(t: int)
    requires 1000 <= t < 1000000
    ensures FormatTokens(Some(t)) == KTokens((t + 500) / 1000)
    ensures 1 <= (t + 500) / 1000 <= 1000
  {
  }

  /** Just below one million tokens the "K" branch prints "1000K", not a millions value. */
  lemma ThousandsReachOneThousand(t: int)
    requires 999500 <= t < 1000000
    ensures FormatTokens(Some(t)) == KTokens(1000)
  {
  }

  lemma TokensExamples()
    ensures FormatTokens(Some(1500000)) == MTokens(Fixed(1.5, 1))
    ensures FormatTokens(Some(2500)) == KTokens(3)
    ensures FormatTokens(Some(500)) == Count(500)
    ensures FormatTokens(None) == TokensDash
  {
  }

  function FormatParameters(count: Option<real>): (t: Option<ParamsText>)
    ensures t.None? <==> count.None?
    ensures t.Some? ==> (t.value.MParams? <==> count.value < 1.0)
    ensures t.Some? && t.value.MParams? ==> t.value.scaled == Fixed(count.value * 1000.0, 0)
    ensures t.Some? && t.value.BParams? ==> t.value.billions == count.value
  {
    match count
    case None => None
    case Some(p) => if p < 1.0 then Some(MParams(Fixed(p * 1000.0, 0))) else Some(BParams(p))
  }

  /**
   * A sub-billion parameter count takes the millions branch, and the number
   * handed to `toFixed(0)` is below one thousand (it is rounded when printed).
   */
  lemma SubBillionShownInMillions(p: real)
    requires 0.0 <= p < 1.0
    ensures FormatParameters(Some(p)).value.MParams?
    ensures 0.0 <= FormatParameters(Some(p)).value.scaled.value < 1000.0
  {
  }

  /**
   * `toFixed(0)` rounds half up for these positive values, so counts from
   * 0.9995 up to one billion are printed as "1000M" rather than in billions.
   */
  lemma SubBillionCanPrintOneThousand(p: real)
    requires 0.9995 <= p < 1.0
    ensures FormatParameters(Some(p)).value.MParams?
    ensures RoundHalfUp(FormatParameters(Some(p)).value.scaled.value) == 1000
  {
  }

  lemma ParametersExamples()
    ensures FormatParameters(Some(0.7)) == Some(MParams(Fixed(700.0, 0)))
    ensures FormatParameters(Some(7.0)) == Some(BParams(7.0))
    ensures FormatParameters(None) == None
  {
  }

  lemma PriceExamples()
    ensures FormatPrice(Some(0.0)) == Free
    ensures FormatPrice(None) == PriceDash
    ensures FormatPrice(Some(0.005)) == Dollars(Fixed(0.005, 4))
    ensures FormatPrice(Some(0.05)) == Dollars(Fixed(0.05, 3))
    ensures FormatPrice(Some(1.5)) == Dollars(Fixed(1.5, 2))
  {
  }
}
