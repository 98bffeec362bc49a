/**
 * App\Service\MoneyConversionCalculator::convertAmount: two guards, then the amount times the
 * ratio of the two EUR rates, rounded to cents. Amounts and rates are exact reals.
 */
module Calculator {
  import opened Wrappers
  import opened Errors

  /** y has no fractional part. */
  predicate IsWhole(y: real) {
    y.Floor as real == y
  }

  /** r is x rounded to k decimals, half away from zero: r·10^k is a whole number within
      one half of x·10^k, and the half itself rounds up (x is never negative here). */
  predicate IsRoundingOf(r: real, x: real, k: nat) {
    && IsWhole(r * Scale(k))
    && r * Scale(k) - 0.5 <= x * Scale(k) < r * Scale(k) + 0.5
  }

  /** round(x, k) for x >= 0. */
  function Round(x: real, k: nat): (r: real)
    requires x >= 0.0
    ensures r >= 0.0
    ensures IsRoundingOf(r, x, k)
  {
    var m := (x * Scale(k) + 0.5).Floor;
    FloorIsRounding(x, k, m);
    m as real / Scale(k)
  }

  lemma FloorIsRounding(x: real, k: nat, m: int)
    requires x >= 0.0 && m == (x * Scale(k) + 0.5).Floor
    ensures m as real / Scale(k) >= 0.0
    ensures IsRoundingOf(m as real / Scale(k), x, k)
  {
    var p := Scale(k);
    var r := m as real / p;
    assert r * p == m as real;
    assert (r * p).Floor == m;
    assert r >= 0.0 by {
      if r < 0.0 {
        NegativeTimesPositive(r, p);
      }
    }
  }

  lemma NegativeTimesPositive(a: real, p: real)
    requires a < 0.0 && p > 0.0
    ensures a * p < 0.0
  {
  }

  /** Multiplying by the same positive number tells numbers apart. */
  lemma CancelPositive(a: real, b: real, p: real)
    requires p > 0.0 && a * p == b * p
    ensures a == b
  {
  }

  /** There is only one rounding of a number to k decimals. */
  lemma RoundingUnique(r1: real, r2: real, x: real, k: nat)
    requires IsRoundingOf(r1, x, k) && IsRoundingOf(r2, x, k)
    ensures r1 == r2
  {
    WholeNearSame(r1 * Scale(k), r2 * Scale(k), x * Scale(k));
    CancelPositive(r1, r2, Scale(k));
  }

  /** Two whole numbers within one half of the same number, on the same side conventions, are equal. */
  lemma WholeNearSame(u: real, v: real, y: real)
    requires IsWhole(u) && u - 0.5 <= y < u + 0.5
    requires IsWhole(v) && v - 0.5 <= y < v + 0.5
    ensures u == v
  {
    assert u.Floor < v.Floor + 1 && v.Floor < u.Floor + 1;
  }

  lemma RoundingIsWhole(r: real, x: real, k: nat)
    requires IsRoundingOf(r, x, k)
    ensures IsWhole(r * Scale(k))
  {
  }

  /** A number that already has at most k decimals is its own rounding. */
  lemma RoundKeepsRounded(x: real, k: nat)
    requires x >= 0.0
    requires IsWhole(x * Scale(k))
    ensures Round(x, k) == x
  {
    RoundingUnique(Round(x, k), x, x, k);
  }

  /** Rounding twice to the same precision changes nothing. */
  lemma RoundIdempotent(x: real, k: nat)
    requires x >= 0.0
    ensures Round(Round(x, k), k) == Round(x, k)
  {
    var r := Round(x, k);
    RoundingIsWhole(r, x, k);
    RoundKeepsRounded(r, k);
  }

  /** convertAmount(amount, eurToSourceRate, eurToTargetRate). */
  function ConvertAmount(amount: real, eurToSource: real, eurToTarget: real): (r: Result<real, Exception>)
    ensures amount < 0.0 ==> r == Failure(InvalidArgument(NegativeAmount))
    ensures amount >= 0.0 && (eurToSource <= 0.0 || eurToTarget <= 0.0) ==>
      r == Failure(Conversion(InvalidRates(eurToSource, eurToTarget)))
    ensures r.Success? <==> amount >= 0.0 && eurToSource > 0.0 && eurToTarget > 0.0
    ensures r.Success? ==> r.value >= 0.0 && IsRoundingOf(r.value, amount * (eurToTarget / eurToSource), 2)
  {
    if amount < 0.0 then
      Failure(InvalidArgument(NegativeAmount))
    else if eurToSource <= 0.0 || eurToTarget <= 0.0 then
      Failure(Conversion(InvalidRates(eurToSource, eurToTarget)))
    else
      assert eurToTarget / eurToSource > 0.0;
      Success(Round(amount * (eurToTarget / eurToSource), 2))
  }

  /** Every converted amount is a whole number of cents. */
  lemma ConvertAmountInCents(amount: real, eurToSource: real, eurToTarget: real)
    requires ConvertAmount(amount, eurToSource, eurToTarget).Success?
    ensures var v := ConvertAmount(amount, eurToSource, eurToTarget).value;
      v >= 0.0 && IsWhole(v * 100.0)
  {
    assert Scale(2) == 100.0 by {
      assert Pow10(2) == 100;
    }
  }

  /** The amount guard comes first: a negative amount is refused as such whatever the rates. */
  lemma NegativeAmountBeforeRates(amount: real, eurToSource: real, eurToTarget: real)
    requires amount < 0.0 && (eurToSource <= 0.0 || eurToTarget <= 0.0)
    ensures ConvertAmount(amount, eurToSource, eurToTarget).error.InvalidArgument?
  {
  }

  /** Converting between two currencies with the same EUR rate only rounds the amount. */
  lemma ConvertAtEqualRates(amount: real, rate: real)
    requires amount >= 0.0 && rate > 0.0
    ensures ConvertAmount(amount, rate, rate) == Success(Round(amount, 2))
  {
    assert rate / rate == 1.0;
    assert amount * (rate / rate) == amount;
  }

  /** 100 at EUR→source 1.1 and EUR→target 0.9 converts to 81.82. */
  lemma ConvertAmountExample()
    ensures ConvertAmount(100.0, 1.1, 0.9) == Success(81.82)
  {
    var x := 100.0 * (0.9 / 1.1);
    assert Scale(2) == 100.0 by {
      assert Pow10(2) == 100;
    }
    assert (81.82 * 100.0).Floor == 8182;
    assert 8181.5 <= x * 100.0 < 8182.5;
    RoundingUnique(Round(x, 2), 81.82, x, 2);
  }

  /** 10^k. */
  function Pow10(k: nat): (p: nat)
    ensures p >= 1
  {
    if k == 0 then 1 else 10 * Pow10(k - 1)
  }

  /** 10^k as a real, the factor that shifts k decimals. */
  function Scale(k: nat): (p: real)
    ensures p >= 1.0
  {
    Pow10(k) as real
  }
}
