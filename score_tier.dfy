/**
 * Score bucketing. The pages compute `value / maxValue * 100` and compare it
 * with 80 and 60; `TierOfPercentage(Percentage(..))` is that computation over
 * exact reals, and `Classify` the same decision made by integer
 * cross-multiplication.
 */
module ScoreTier {
  /** Good is shown green, Fair yellow and Poor red. */
  datatype Tier = Good | Fair | Poor

  /** The percentage the pages compute, as an exact real number. */
  function Percentage(value: int, maxValue: int): (p: real)
    requires maxValue > 0
    ensures p * maxValue as real == (value * 100) as real
    ensures 0 <= value <= maxValue ==> 0.0 <= p <= 100.0
  {
    value as real / maxValue as real * 100.0
  }

  /** The chained conditional the pages apply to the percentage. */
  function TierOfPercentage(p: real): (t: Tier)
    ensures t == Good <==> p >= 80.0
    ensures t == Fair <==> 60.0 <= p < 80.0
    ensures t == Poor <==> p < 60.0
  {
    if p >= 80.0 then Good else if p >= 60.0 then Fair else Poor
  }

  /** The percentage reaches threshold `t` exactly when `value * 100 >= t * maxValue`. */
  lemma PercentageAtLeast(value: int, maxValue: int, t: int)
    requires maxValue > 0
    ensures Percentage(value, maxValue) >= t as real <==> value * 100 >= t * maxValue
  {
    var m := maxValue as real;
    var q := value as real / m;
    assert q * m == value as real;
    assert Percentage(value, maxValue) == q * 100.0;
    assert (value * 100) as real == q * 100.0 * m;
    assert (t * maxValue) as real == t as real * m;
    if q * 100.0 >= t as real {
      assert q * 100.0 * m >= t as real * m;
    } else {
      assert q * 100.0 * m < t as real * m;
    }
  }

  /** Integer classification of `value` out of `maxValue`. */
  function Classify(value: int, maxValue: int): (t: Tier)
    requires maxValue > 0
    ensures t == TierOfPercentage(Percentage(value, maxValue))
    ensures t == Good <==> value * 100 >= 80 * maxValue
    ensures t == Fair <==> 60 * maxValue <= value * 100 < 80 * maxValue
    ensures t == Poor <==> value * 100 < 60 * maxValue
  {
    PercentageAtLeast(value, maxValue, 80);
    PercentageAtLeast(value, maxValue, 60);
    if value * 100 >= 80 * maxValue then Good
    else if value * 100 >= 60 * maxValue then Fair
    else Poor
  }

  /** Rank of a tier: higher is better. */
  function Rank(t: Tier): nat
  {
    match t
    case Poor => 0
    case Fair => 1
    case Good => 2
  }

  /** With `maxValue` fixed, a larger `value` never gives a worse tier. */
  lemma TierMonotone(v1: int, v2: int, maxValue: int)
    requires maxValue > 0 && v1 <= v2
    ensures Rank(Classify(v1, maxValue)) <= Rank(Classify(v2, maxValue))
  {
  }

  /** The boundaries: 80/100 is green, 79/100 and 60/100 yellow, 59/100 red. */
  lemma TierBoundaries()
    ensures Classify(80, 100) == Good
    ensures Classify(79, 100) == Fair && Classify(60, 100) == Fair
    ensures Classify(59, 100) == Poor
  {
  }

  /** The tier depends only on the ratio: scaling both parts leaves it unchanged. */
  lemma TierScaleInvariant(value: int, maxValue: int, k: int)
    requires maxValue > 0 && k > 0
    ensures Classify(k * value, k * maxValue) == Classify(value, maxValue)
  {
    assert k * value * 100 == k * (value * 100);
    assert 80 * (k * maxValue) == k * (80 * maxValue);
    assert 60 * (k * maxValue) == k * (60 * maxValue);
    MulMonotone(k, value * 100, 80 * maxValue);
    MulMonotone(k, value * 100, 60 * maxValue);
  }

  lemma MulMonotone(k: int, a: int, b: int)
    requires k > 0
    ensures k * a >= k * b <==> a >= b
  {
    if a >= b {
      assert k * a - k * b == k * (a - b);
    } else {
      assert k * b - k * a == k * (b - a);
    }
  }
}
