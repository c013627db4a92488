/** Properties of the trend prediction and the ROE guard of app.py that relate
    several inputs or several calls. */
module AppProperties {
  import opened Wrappers
  import opened App

  // ---------------------------------------------------------------------
  // Which inputs matter
  // ---------------------------------------------------------------------

  /** The prediction depends on its inputs only through their emptiness, the
      two metrics and the most recent revenue. */
  lemma PredictDependsOnMetrics(income0: seq<IncomeRecord>, prices0: seq<PricePoint>,
                                income1: seq<IncomeRecord>, prices1: seq<PricePoint>)
    requires |income0| > 0 && |income1| > 0 && |prices0| > 0 && |prices1| > 0
    requires income0[0].revenue == income1[0].revenue
    requires RevenueGrowth(income0) == RevenueGrowth(income1)
    requires PriceTrend(prices0) == PriceTrend(prices1)
    ensures PredictFutureTrend(income0, prices0) == PredictFutureTrend(income1, prices1)
  {
  }

  /** Income records after the second never affect the revenue growth. */
  lemma RevenueGrowthIgnoresOlderIncome(income: seq<IncomeRecord>, older: seq<IncomeRecord>)
    requires |income| >= 2
    ensures RevenueGrowth(income + older) == RevenueGrowth(income)
  {
    assert RecentRevenues(income + older) == RecentRevenues(income);
  }

  /** Income records after the second never affect the prediction. */
  lemma PredictIgnoresOlderIncome(income: seq<IncomeRecord>, older: seq<IncomeRecord>,
                                  prices: seq<PricePoint>)
    requires |income| >= 2
    ensures PredictFutureTrend(income + older, prices) == PredictFutureTrend(income, prices)
  {
    RevenueGrowthIgnoresOlderIncome(income, older);
    if |prices| > 0 {
      PredictDependsOnMetrics(income + older, prices, income, prices);
    }
  }

  /** Price points before the trailing 30 never affect the price trend. */
  lemma PriceTrendIgnoresOlderPrices(older: seq<PricePoint>, prices: seq<PricePoint>)
    requires |prices| >= TrendWindow
    ensures PriceTrend(older + prices) == PriceTrend(prices)
  {
    var all := older + prices;
    assert WindowStart(all) == |older| + WindowStart(prices);
    assert RecentCloses(all) == RecentCloses(prices);
  }

  /** Price points before the trailing 30 never affect the prediction. */
  lemma PredictIgnoresOlderPrices(income: seq<IncomeRecord>, older: seq<PricePoint>,
                                  prices: seq<PricePoint>)
    requires |prices| >= TrendWindow
    ensures PredictFutureTrend(income, older + prices) == PredictFutureTrend(income, prices)
  {
    PriceTrendIgnoresOlderPrices(older, prices);
    if |income| > 0 {
      PredictDependsOnMetrics(income, older + prices, income, prices);
    }
  }

  // ---------------------------------------------------------------------
  // When the label must be neutral
  // ---------------------------------------------------------------------

  /** A growth within ten percent either way always yields a neutral, low
      confidence prediction. */
  lemma NeutralWhenGrowthInBand(income: seq<IncomeRecord>, prices: seq<PricePoint>)
    requires PredictFutureTrend(income, prices).Some?
    requires -10.0 <= PredictFutureTrend(income, prices).value.revenueGrowth <= 10.0
    ensures PredictFutureTrend(income, prices).value.trend == Neutral
    ensures PredictFutureTrend(income, prices).value.confidence == Low
  {
  }

  /** Too little data for either metric forces a neutral, low confidence
      prediction. */
  lemma NeutralWithoutEnoughData(income: seq<IncomeRecord>, prices: seq<PricePoint>)
    requires PredictFutureTrend(income, prices).Some?
    requires |income| < 2 || |prices| - WindowStart(prices) < MinTrendPoints
    ensures PredictFutureTrend(income, prices).value.trend == Neutral
    ensures PredictFutureTrend(income, prices).value.confidence == Low
  {
  }

  // ---------------------------------------------------------------------
  // What a signal says about the underlying data
  // ---------------------------------------------------------------------

  /** A bullish label means revenue rose by more than ten percent over a
      positive prior period, and the window's last close is above its first. */
  lemma BullishMeansRising(income: seq<IncomeRecord>, prices: seq<PricePoint>)
    requires PredictFutureTrend(income, prices).Some?
    requires PredictFutureTrend(income, prices).value.trend == Bullish
    ensures |income| >= 2 && |prices| - WindowStart(prices) >= MinTrendPoints
    ensures income[1].revenue > 0.0 ==> 100.0 * income[0].revenue > 110.0 * income[1].revenue
    ensures prices[WindowStart(prices)].close > 0.0 ==>
      prices[|prices| - 1].close > prices[WindowStart(prices)].close
  {
    var g, t := RevenueGrowth(income).value, PriceTrend(prices).value;
    assert g > 10.0 && t > 0.0;
    var k := WindowStart(prices);
    assert |income| >= 2 && |prices| - k >= MinTrendPoints;
    if income[1].revenue > 0.0 {
      ChangeAboveBound(income[1].revenue, income[0].revenue, 10.0);
    }
    if prices[k].close > 0.0 {
      ChangeAboveBound(prices[k].close, prices[|prices| - 1].close, 0.0);
    }
  }

  /** A strongly bullish label means revenue rose by more than twenty percent
      and the price by more than ten percent, over positive bases. */
  lemma StrongBullishMeansStrongRise(income: seq<IncomeRecord>, prices: seq<PricePoint>)
    requires PredictFutureTrend(income, prices).Some?
    requires PredictFutureTrend(income, prices).value.trend == StrongBullish
    ensures |income| >= 2 && |prices| - WindowStart(prices) >= MinTrendPoints
    ensures income[1].revenue > 0.0 ==> 100.0 * income[0].revenue > 120.0 * income[1].revenue
    ensures prices[WindowStart(prices)].close > 0.0 ==>
      100.0 * prices[|prices| - 1].close > 110.0 * prices[WindowStart(prices)].close
  {
    var g, t := RevenueGrowth(income).value, PriceTrend(prices).value;
    assert g > 20.0 && t > 10.0;
    var k := WindowStart(prices);
    assert |income| >= 2 && |prices| - k >= MinTrendPoints;
    if income[1].revenue > 0.0 {
      ChangeAboveBound(income[1].revenue, income[0].revenue, 20.0);
    }
    if prices[k].close > 0.0 {
      ChangeAboveBound(prices[k].close, prices[|prices| - 1].close, 10.0);
    }
  }

  /** A bearish label means revenue fell by more than ten percent and the
      price by more than five percent, over positive bases. */
  lemma BearishMeansFalling(income: seq<IncomeRecord>, prices: seq<PricePoint>)
    requires PredictFutureTrend(income, prices).Some?
    requires PredictFutureTrend(income, prices).value.trend == Bearish
    ensures |income| >= 2 && |prices| - WindowStart(prices) >= MinTrendPoints
    ensures income[1].revenue > 0.0 ==> 100.0 * income[0].revenue < 90.0 * income[1].revenue
    ensures prices[WindowStart(prices)].close > 0.0 ==>
      100.0 * prices[|prices| - 1].close < 95.0 * prices[WindowStart(prices)].close
  {
    var g, t := RevenueGrowth(income).value, PriceTrend(prices).value;
    assert g < -10.0 && t < -5.0;
    var k := WindowStart(prices);
    assert |income| >= 2 && |prices| - k >= MinTrendPoints;
    if income[1].revenue > 0.0 {
      ChangeBelowBound(income[1].revenue, income[0].revenue, -10.0);
    }
    if prices[k].close > 0.0 {
      ChangeBelowBound(prices[k].close, prices[|prices| - 1].close, -5.0);
    }
  }

  /** Over a positive base, a percentage change above `bound` means the new
      value exceeds the base scaled by `1 + bound/100`. */
  lemma ChangeAboveBound(base: real, current: real, bound: real)
    requires base > 0.0
    requires PercentChange(base, current).value > bound
    ensures 100.0 * current > (100.0 + bound) * base
  {
    var change := PercentChange(base, current).value;
    assert change * base > bound * base;
  }

  /** Over a positive base, a percentage change below `bound` means the new
      value is under the base scaled by `1 + bound/100`. */
  lemma ChangeBelowBound(base: real, current: real, bound: real)
    requires base > 0.0
    requires PercentChange(base, current).value < bound
    ensures 100.0 * current < (100.0 + bound) * base
  {
    var change := PercentChange(base, current).value;
    assert change * base < bound * base;
  }

  /** Over a positive first close, the price trend is positive exactly when
      the last close of the window is above the first. */
  lemma PriceTrendSign(prices: seq<PricePoint>)
    requires |prices| - WindowStart(prices) >= MinTrendPoints
    requires prices[WindowStart(prices)].close > 0.0
    ensures PriceTrend(prices).Some?
    ensures PriceTrend(prices).value > 0.0 <==> prices[|prices| - 1].close > prices[WindowStart(prices)].close
    ensures PriceTrend(prices).value < 0.0 <==> prices[|prices| - 1].close < prices[WindowStart(prices)].close
  {
    var t := PriceTrend(prices).value;
    var first := prices[WindowStart(prices)].close;
    var last := prices[|prices| - 1].close;
    if t > 0.0 { assert t * first > 0.0; }
    if t < 0.0 { assert t * first < 0.0; }
    if t == 0.0 { assert t * first == 0.0; }
  }

  // ---------------------------------------------------------------------
  // The classifier
  // ---------------------------------------------------------------------

  /** Raising growth or trend never makes the label less bullish. */
  lemma ClassifyMonotone(g0: real, t0: real, g1: real, t1: real)
    requires g0 <= g1 && t0 <= t1
    ensures Rank(Classify(g0, t0)) <= Rank(Classify(g1, t1))
  {
  }

  /** The thresholds are strict: growth of exactly 20 or a trend of exactly
      10 is never strongly bullish, and growth of exactly 10 or a trend of
      exactly 0 is never bullish. */
  lemma ThresholdsAreStrict(growth: real, trend: real)
    ensures Classify(20.0, trend) != StrongBullish && Classify(growth, 10.0) != StrongBullish
    ensures Classify(10.0, trend) != Bullish && Classify(growth, 0.0) != Bullish
    ensures Classify(-10.0, trend) != Bearish && Classify(growth, -5.0) != Bearish
  {
  }

  /** The four explanation sentences differ, so the explanation determines
      the label. */
  lemma ExplanationDeterminesLabel(l0: Label, l1: Label)
    ensures Explanation(l0) == Explanation(l1) ==> l0 == l1
  {
  }

  /** No row of the table is shadowed by the rows above it: every label is
      the prediction for some income and price history. */
  lemma EveryLabelReachable(l: Label)
    ensures exists income: seq<IncomeRecord>, prices: seq<PricePoint> ::
      PredictFutureTrend(income, prices).Some? && PredictFutureTrend(income, prices).value.trend == l
  {
    // Growth and trend in percent of a base of 100: 30/20, 15/5, -20/-10, 0/0.
    var (latest, last) :=
      match l
      case StrongBullish => (130.0, 120.0)
      case Bullish => (115.0, 105.0)
      case Bearish => (80.0, 90.0)
      case Neutral => (100.0, 100.0);
    SampleMetrics(latest, last);
    assert PredictFutureTrend(SampleIncome(latest), SamplePrices(last)).value.trend == l;
  }

  /** Two income records, the older with revenue 100. */
  function SampleIncome(latest: real): seq<IncomeRecord>
  {
    [IncomeRecord(latest, None), IncomeRecord(100.0, None)]
  }

  /** Ten price points, all closing at 100 except the last. */
  function SamplePrices(last: real): seq<PricePoint>
  {
    seq(MinTrendPoints, i => PricePoint(if i == MinTrendPoints - 1 then last else 100.0))
  }

  /** Over a base of 100 both metrics are the plain differences. */
  lemma SampleMetrics(latest: real, last: real)
    ensures RevenueGrowth(SampleIncome(latest)) == Some(latest - 100.0)
    ensures PriceTrend(SamplePrices(last)) == Some(last - 100.0)
    ensures PredictFutureTrend(SampleIncome(latest), SamplePrices(last)).Some?
  {
    var prices := SamplePrices(last);
    assert WindowStart(prices) == 0 && prices[0].close == 100.0 && prices[|prices| - 1].close == last;
  }

  // ---------------------------------------------------------------------
  // The next-period projection
  // ---------------------------------------------------------------------

  /** With a single income record the projection is that record's revenue. */
  lemma ProjectionWithOneRecord(income: seq<IncomeRecord>, prices: seq<PricePoint>)
    requires |income| == 1
    requires PredictFutureTrend(income, prices).Some?
    ensures PredictFutureTrend(income, prices).value.nextRevenue == income[0].revenue
  {
  }

  /** With two or more records the projection repeats the last period's ratio:
      next / r0 == r0 / r1. */
  lemma ProjectionKeepsRatio(income: seq<IncomeRecord>, prices: seq<PricePoint>)
    requires |income| >= 2
    requires PredictFutureTrend(income, prices).Some?
    ensures PredictFutureTrend(income, prices).value.nextRevenue * income[1].revenue
         == income[0].revenue * income[0].revenue
  {
    var p := PredictFutureTrend(income, prices).value;
    var r0, r1 := income[0].revenue, income[1].revenue;
    var g := p.revenueGrowth;
    assert p.nextRevenue == r0 * (1.0 + g / 100.0);
    assert g * r1 == (r0 - r1) * 100.0;
    calc {
      p.nextRevenue * r1;
      r0 * (r1 + g * r1 / 100.0);
      r0 * (r1 + (r0 - r1));
      r0 * r0;
    }
  }

  // ---------------------------------------------------------------------
  // Return on equity
  // ---------------------------------------------------------------------

  /** A present ROE is never zero and has the sign of the net income, so a
      loss yields a negative ROE. */
  lemma RoeHasSignOfNetIncome(valuation: Option<ValuationSnapshot>, balance: Option<BalanceSheet>,
                              income: seq<IncomeRecord>)
    requires ReturnOnEquity(valuation, balance, income).Some?
    ensures ReturnOnEquity(valuation, balance, income).value != 0.0
    ensures ReturnOnEquity(valuation, balance, income).value < 0.0 <==> income[0].nIncome.value < 0.0
  {
    var r := ReturnOnEquity(valuation, balance, income).value;
    var equity := balance.value.totalEquity.value;
    if r < 0.0 { assert r * equity < 0.0; }
    if r > 0.0 { assert r * equity > 0.0; }
  }

  /** Income records after the first never affect ROE. */
  lemma RoeIgnoresOlderIncome(valuation: Option<ValuationSnapshot>, balance: Option<BalanceSheet>,
                              income: seq<IncomeRecord>, older: seq<IncomeRecord>)
    requires |income| >= 1
    ensures ReturnOnEquity(valuation, balance, income + older)
         == ReturnOnEquity(valuation, balance, income)
  {
    assert (income + older)[0] == income[0];
  }

  // ---------------------------------------------------------------------
  // Worked examples
  // ---------------------------------------------------------------------

  /** Growth of exactly 20 percent is not strongly bullish: the thresholds
      are strict. Revenues 120 then 100 and a window rising from 10 to 12. */
  lemma BoundaryGrowthIsOnlyBullish()
    ensures var income := [IncomeRecord(120.0, None), IncomeRecord(100.0, None)];
            var prices := seq(30, i => PricePoint(if i == 29 then 12.0 else 10.0));
            PredictFutureTrend(income, prices)
            == Some(Prediction(Bullish, Medium, Explanation(Bullish), 20.0, 20.0, 144.0))
  {
    var income := [IncomeRecord(120.0, None), IncomeRecord(100.0, None)];
    var prices := seq(30, i => PricePoint(if i == 29 then 12.0 else 10.0));
    assert RevenueGrowth(income) == Some(20.0);
    assert PriceTrend(prices) == Some(20.0);
  }
}
