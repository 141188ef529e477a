/**
 * Competition position sizing (components/PositionCalculator.tsx): the
 * largest whole number of shares that fits in the position limit after the
 * flat trading fee, the cost and the cash left over, and whether the price
 * meets the competition's minimum. Prices are exact reals; `toFixed(2)`
 * happens only at display time and is not part of the calculation.
 */
module PositionCalculator {
  import opened Types

  const MaxPosition: real := 10000.0
  const TradingFee: real := 10.0
  const MinPrice: real := 10.0

  datatype Sizing = Sizing(shares: int, totalCost: real, leftover: real, meetsMinimum: bool)

  /**
   * `stockPrice >= MIN_PRICE`: the boundary price itself qualifies, and an
   * eligible price is never one `calculate` rejects.
   */
  function MeetsMinimum(price: real): (b: bool)
    ensures price >= MinPrice ==> b
    ensures price < MinPrice ==> !b
    ensures b ==> price > 0.0
  {
    price >= MinPrice
  }

  /**
   * `calculate` on the parsed price: `None` stands for `NaN` from
   * `parseFloat`. A NaN or non-positive price is rejected; any other price is
   * sized, whether or not it meets the minimum.
   */
  function Calculate(price: Option<real>): (r: Option<Sizing>)
    ensures r.None? <==> price.None? || price.value <= 0.0
    ensures r.Some? ==>
      var p, s := price.value, r.value;
      && 0 <= s.shares
      && s.shares as real * p <= MaxPosition - TradingFee < (s.shares + 1) as real * p
      && s.totalCost == s.shares as real * p + TradingFee <= MaxPosition
      && s.leftover == MaxPosition - s.totalCost
      && 0.0 <= s.leftover < p
      && (s.meetsMinimum <==> p >= MinPrice)
  {
    if price.None? || price.value <= 0.0 then None
    else
      var p := price.value;
      var available := MaxPosition - TradingFee;
      var shares := (available / p).Floor;
      FloorBounds(available, p);
      var totalCost := shares as real * p + TradingFee;
      Some(Sizing(shares, totalCost, MaxPosition - totalCost, MeetsMinimum(p)))
  }

  /** `Math.floor(a / p)` times p stays within a, and one more share would not. */
  lemma FloorBounds(a: real, p: real)
    requires a >= 0.0 && p > 0.0
    ensures 0 <= (a / p).Floor
    ensures (a / p).Floor as real * p <= a < ((a / p).Floor + 1) as real * p
  {
    var q := a / p;
    var n := q.Floor;
    assert q * p == a;
    assert n as real <= q < n as real + 1.0;
    MulMono(n as real, q, p);
    var m := (n + 1) as real;
    assert m == n as real + 1.0;
    MulStrict(q, m, p);
    assert a < m * p;
  }

  lemma MulMono(x: real, y: real, p: real)
    requires x <= y && p > 0.0
    ensures x * p <= y * p
  {
  }

  lemma MulStrict(x: real, y: real, p: real)
    requires x < y && p > 0.0
    ensures x * p < y * p
  {
  }

  /** Prices 5 and 100 from the competition rules, and 10 exactly at the boundary. */
  lemma CalculateExamples()
    ensures Calculate(Some(5.0)) == Some(Sizing(1998, 10000.0, 0.0, false))
    ensures Calculate(Some(100.0)) == Some(Sizing(99, 9910.0, 90.0, true))
    ensures Calculate(Some(10.0)) == Some(Sizing(999, 10000.0, 0.0, true))
  {
    assert (9990.0 / 5.0).Floor == 1998;
    assert (9990.0 / 100.0).Floor == 99;
    assert (9990.0 / 10.0).Floor == 999;
  }

  /** A price above the capital left after the fee buys nothing: only the fee is spent. */
  lemma PriceAboveAvailableBuysNothing(p: real)
    requires p > MaxPosition - TradingFee
    ensures Calculate(Some(p)) == Some(Sizing(0, TradingFee, MaxPosition - TradingFee, true))
  {
    var r := Calculate(Some(p)).value;
    assert r.shares as real * p <= 9990.0;
    if r.shares >= 1 {
      MulMono(1.0, r.shares as real, p);
    }
  }

  /** What the calculator holds: the price field's text and the last result shown. */
  datatype Calculator = Calculator(priceText: string, result: Option<Sizing>)

  /**
   * Submitting the form: `parsed` is `parseFloat(priceText)`, `None` for NaN.
   * A rejected price only raises an alert; the previous result stays on screen.
   */
  function Submit(c: Calculator, parsed: Option<real>): (c': Calculator)
    ensures c'.priceText == c.priceText
    ensures Calculate(parsed).None? ==> c' == c
    ensures Calculate(parsed).Some? ==> c'.result == Calculate(parsed)
  {
    match Calculate(parsed)
    case None => c
    case Some(s) => c.(result := Some(s))
  }

  /** `reset` clears the price field and the result, whatever was there. */
  function Reset(c: Calculator): (c': Calculator)
    ensures c'.priceText == "" && c'.result.None?
  {
    Calculator("", None)
  }
}
