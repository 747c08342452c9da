/**
 * The metrics calculator of helpers.py: ROI, budget usage, budget alert,
 * click-through rate and conversion rate. Money is an exact `real`, counts
 * are `int`. Every function is total: a zero denominator yields 0.
 */
module Metrics {

  /** ROI's default value of one conversion (`avg_conversion_value=50`). */
  const DefaultConversionValue: real := 50.0

  /** Default alert threshold of `check_budget_alert` (`threshold=80`). */
  const DefaultAlertThreshold: real := 80.0

  /** `x` is a whole number of hundredths. */
  predicate IsCents(x: real) {
    (x * 100.0).Floor as real == x * 100.0
  }

  /** The integer nearest to `q`; a tie goes to the even neighbour. */
  function RoundHalfEven(q: real): (k: int)
    ensures -0.5 <= k as real - q <= 0.5
    ensures k as real - q == 0.5 || k as real - q == -0.5 ==> k % 2 == 0
  {
    var n := q.Floor;
    var f := q - n as real;
    if f < 0.5 then n
    else if f > 0.5 then n + 1
    else if n % 2 == 0 then n
    else n + 1
  }

  /**
   * Python's `round(x, 2)` on an exact real: the nearest multiple of 0.01,
   * a tie going to the even number of hundredths.
   */
  function Round2(x: real): (r: real)
    ensures IsCents(r)
    ensures -0.005 <= r - x <= 0.005
  {
    RoundHalfEven(x * 100.0) as real / 100.0
  }

  /** No integer lies strictly nearer to `q` than `RoundHalfEven(q)`. */
  lemma RoundHalfEvenNearest(q: real, k: int)
    ensures var d := RoundHalfEven(q) as real - q;
            var e := k as real - q;
            (if d < 0.0 then -d else d) <= (if e < 0.0 then -e else e)
  {
    var n := RoundHalfEven(q);
    if k < n {
      assert k as real <= n as real - 1.0;
    } else if k > n {
      assert k as real >= n as real + 1.0;
    }
  }

  /** No multiple of 0.01 lies strictly nearer to `x` than `Round2(x)`. */
  lemma Round2Nearest(x: real, k: int)
    ensures var d := Round2(x) - x;
            var e := k as real / 100.0 - x;
            (if d < 0.0 then -d else d) <= (if e < 0.0 then -e else e)
  {
    RoundHalfEvenNearest(x * 100.0, k);
  }

  lemma RoundHalfEvenMonotone(p: real, q: real)
    requires p <= q
    ensures RoundHalfEven(p) <= RoundHalfEven(q)
  {
  }

  /** Rounding never swaps the order of two values. */
  lemma Round2Monotone(x: real, y: real)
    requires x <= y
    ensures Round2(x) <= Round2(y)
  {
    RoundHalfEvenMonotone(x * 100.0, y * 100.0);
  }

  /** A value already at two decimals is unchanged by rounding. */
  lemma Round2Exact(k: int)
    ensures Round2(k as real / 100.0) == k as real / 100.0
  {
    var q := k as real / 100.0 * 100.0;
    assert q == k as real;
    assert q.Floor == k;
  }

  /** `calculate_roi`: 0 when nothing was spent, else the rounded percentage return. */
  function CalculateRoi(totalConversions: int, totalSpend: real, avgConversionValue: real): (roi: real)
    ensures totalSpend == 0.0 ==> roi == 0.0
    ensures totalSpend != 0.0 ==>
      IsCents(roi) &&
      -0.005 <= roi - (totalConversions as real * avgConversionValue - totalSpend) / totalSpend * 100.0 <= 0.005
  {
    if totalSpend == 0.0 then 0.0
    else
      var revenue := totalConversions as real * avgConversionValue;
      Round2((revenue - totalSpend) / totalSpend * 100.0)
  }

  /** `calculate_budget_usage`: 0 for a zero budget, else the rounded percentage; never clamped. */
  function CalculateBudgetUsage(budget: real, totalSpend: real): (usage: real)
    ensures budget == 0.0 ==> usage == 0.0
    ensures budget != 0.0 ==> IsCents(usage) && -0.005 <= usage - totalSpend / budget * 100.0 <= 0.005
  {
    if budget == 0.0 then 0.0
    else Round2(totalSpend / budget * 100.0)
  }

  /** `check_budget_alert`: the usage has reached the threshold (inclusive). */
  function CheckBudgetAlert(budget: real, totalSpend: real, threshold: real): (alert: bool)
    ensures budget == 0.0 ==> (alert <==> threshold <= 0.0)
    ensures budget != 0.0 && alert ==> totalSpend / budget * 100.0 >= threshold - 0.005
    ensures budget != 0.0 && totalSpend / budget * 100.0 >= threshold + 0.005 ==> alert
  {
    CalculateBudgetUsage(budget, totalSpend) >= threshold
  }

  /** `calculate_ctr`: 0 without impressions, else the rounded percentage of clicks. */
  function CalculateCtr(clicks: int, impressions: int): (ctr: real)
    ensures impressions == 0 ==> ctr == 0.0
    ensures impressions != 0 ==>
      IsCents(ctr) && -0.005 <= ctr - clicks as real / impressions as real * 100.0 <= 0.005
  {
    if impressions == 0 then 0.0
    else Round2(clicks as real / impressions as real * 100.0)
  }

  /** `calculate_conversion_rate`: 0 without clicks, else the rounded percentage of conversions. */
  function CalculateConversionRate(conversions: int, clicks: int): (rate: real)
    ensures clicks == 0 ==> rate == 0.0
    ensures clicks != 0 ==>
      IsCents(rate) && -0.005 <= rate - conversions as real / clicks as real * 100.0 <= 0.005
  {
    if clicks == 0 then 0.0
    else Round2(conversions as real / clicks as real * 100.0)
  }

  /** With 0 <= part <= whole and whole > 0, the rounded percentage lies in [0, 100]. */
  lemma {:induction false} PercentBounds(part: int, whole: int)
    requires 0 <= part <= whole && whole > 0
    ensures 0.0 <= Round2(part as real / whole as real * 100.0) <= 100.0
  {
    var u := part as real / whole as real * 100.0;
    assert part as real / whole as real <= 1.0;
    Round2Monotone(0.0, u);
    Round2Monotone(u, 100.0);
    Round2Exact(0);
    Round2Exact(10000);
  }

  /** CTR lies in [0, 100] whenever clicks do not exceed impressions. */
  lemma CtrBounded(clicks: int, impressions: int)
    requires 0 <= clicks <= impressions
    ensures 0.0 <= CalculateCtr(clicks, impressions) <= 100.0
  {
    if impressions != 0 {
      PercentBounds(clicks, impressions);
    }
  }

  /** The conversion rate lies in [0, 100] whenever conversions do not exceed clicks. */
  lemma ConversionRateBounded(conversions: int, clicks: int)
    requires 0 <= conversions <= clicks
    ensures 0.0 <= CalculateConversionRate(conversions, clicks) <= 100.0
  {
    if clicks != 0 {
      PercentBounds(conversions, clicks);
    }
  }

  /** For a positive budget, spending more never lowers the usage. */
  lemma BudgetUsageMonotone(budget: real, s1: real, s2: real)
    requires budget > 0.0 && s1 <= s2
    ensures CalculateBudgetUsage(budget, s1) <= CalculateBudgetUsage(budget, s2)
  {
    assert s1 / budget <= s2 / budget;
    Round2Monotone(s1 / budget * 100.0, s2 / budget * 100.0);
  }

  /** For a positive budget, once the alert fires, spending more keeps it on. */
  lemma BudgetAlertMonotone(budget: real, s1: real, s2: real, threshold: real)
    requires budget > 0.0 && s1 <= s2
    requires CheckBudgetAlert(budget, s1, threshold)
    ensures CheckBudgetAlert(budget, s2, threshold)
  {
    BudgetUsageMonotone(budget, s1, s2);
  }

  /**
   * The boundary is inclusive: for a threshold at two decimals, spending
   * exactly that percentage of the budget raises the alert.
   */
  lemma BudgetAlertAtThreshold(budget: real, spend: real, threshold: real)
    requires budget > 0.0 && IsCents(threshold)
    requires spend == budget * threshold / 100.0
    ensures CheckBudgetAlert(budget, spend, threshold)
  {
    var k := (threshold * 100.0).Floor;
    assert threshold == k as real / 100.0;
    assert spend / budget * 100.0 == threshold;
    Round2Exact(k);
  }

  /** ROI for zero spend is 0 for any conversions and conversion value. */
  lemma RoiZeroSpend(conversions: int, value: real)
    ensures CalculateRoi(conversions, 0.0, value) == 0.0
  {
  }

  /** The test vectors of the helper functions. */
  lemma HelperVectors()
    ensures CalculateRoi(10, 200.0, 50.0) == 150.0
    ensures CalculateRoi(2, 200.0, 50.0) == -50.0
    ensures CalculateRoi(10, 0.0, 50.0) == 0.0
    ensures CalculateBudgetUsage(1000.0, 750.0) == 75.0
    ensures CalculateBudgetUsage(1000.0, 1200.0) == 120.0
    ensures CalculateBudgetUsage(0.0, 100.0) == 0.0
    ensures CheckBudgetAlert(1000.0, 850.0, DefaultAlertThreshold)
    ensures !CheckBudgetAlert(1000.0, 700.0, DefaultAlertThreshold)
    ensures CheckBudgetAlert(1000.0, 800.0, DefaultAlertThreshold)
    ensures CalculateCtr(100, 10000) == 1.0
    ensures CalculateCtr(100, 0) == 0.0
    ensures CalculateConversionRate(10, 200) == 5.0
    ensures CalculateConversionRate(10, 0) == 0.0
  {
    Round2Exact(15000);
    Round2Exact(-5000);
    Round2Exact(7500);
    Round2Exact(12000);
    Round2Exact(8500);
    Round2Exact(7000);
    Round2Exact(8000);
    Round2Exact(100);
    Round2Exact(500);
  }
}
