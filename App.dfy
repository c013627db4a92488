/** The arithmetic core of the stock-analysis service (app.py): the heuristic
    trend prediction built from income-statement and daily-price history, and
    the guarded return-on-equity ratio. Everything is exact `real` arithmetic;
    a Python `ZeroDivisionError` that app.py catches becomes `None`. */
module App {
  import opened Wrappers

  // ---------------------------------------------------------------------
  // Data model
  // ---------------------------------------------------------------------

  /** One income-statement period, most recent first in every sequence. */
  datatype IncomeRecord = IncomeRecord(revenue: real, nIncome: Option<real>)

  /** One trading day's price point, oldest first in every sequence. */
  datatype PricePoint = PricePoint(close: real)

  /** The latest daily valuation snapshot; only its presence matters here. */
  datatype ValuationSnapshot = ValuationSnapshot(close: real, pe: Option<real>, pb: Option<real>)

  /** The balance-sheet snapshot; every figure may be missing. */
  datatype BalanceSheet = BalanceSheet(
    totalAssets: Option<real>, totalLiabilities: Option<real>, totalEquity: Option<real>)

  datatype Label = StrongBullish | Bullish | Bearish | Neutral

  datatype Confidence = High | Medium | Low

  /** The trend prediction handed back to the client. */
  datatype Prediction = Prediction(
    trend: Label,
    confidence: Confidence,
    explanation: string,
    revenueGrowth: real,
    priceTrend: real,
    nextRevenue: real)

  // ---------------------------------------------------------------------
  // Constants of the decision rule
  // ---------------------------------------------------------------------

  /** Number of leading income records the growth metric looks at. */
  const GrowthRecords: nat := 2
  /** Number of trailing price points the trend metric looks at. */
  const TrendWindow: nat := 30
  /** Fewest points in the trailing window for the trend to be computed. */
  const MinTrendPoints: nat := 10

  // ---------------------------------------------------------------------
  // Metric derivation
  // ---------------------------------------------------------------------

  /** Percentage change from `base` to `current`; `None` where Python's
      division by a zero `base` raises. */
  function PercentChange(base: real, current: real): (r: Option<real>)
    ensures r.Some? <==> base != 0.0
    ensures r.Some? ==> r.value * base == (current - base) * 100.0
  {
    if base == 0.0 then None else Some((current - base) / base * 100.0)
  }

  /** The revenues of the leading income records, as `income[:2]` selects them. */
  function RecentRevenues(income: seq<IncomeRecord>): (r: seq<real>)
    ensures |r| == if |income| < GrowthRecords then |income| else GrowthRecords
    ensures forall i :: 0 <= i < |r| ==> r[i] == income[i].revenue
  {
    var head := if |income| < GrowthRecords then income else income[..GrowthRecords];
    seq(|head|, i requires 0 <= i < |head| => head[i].revenue)
  }

  /** Revenue growth in percent of the most recent period over the one before
      it; 0 when fewer than two periods are known. */
  function RevenueGrowth(income: seq<IncomeRecord>): (r: Option<real>)
    ensures |income| < 2 ==> r == Some(0.0)
    ensures |income| >= 2 ==> (r.Some? <==> income[1].revenue != 0.0)
    ensures |income| >= 2 ==> r == PercentChange(income[1].revenue, income[0].revenue)
  {
    var revenues := RecentRevenues(income);
    if |revenues| >= 2 then PercentChange(revenues[1], revenues[0]) else Some(0.0)
  }

  /** Index of the first price point of the trailing window `prices[-30:]`. */
  function WindowStart(prices: seq<PricePoint>): (k: nat)
    ensures k <= |prices|
    ensures |prices| - k == if |prices| < TrendWindow then |prices| else TrendWindow
  {
    if |prices| < TrendWindow then 0 else |prices| - TrendWindow
  }

  /** The closing prices of the trailing window, oldest first. */
  function RecentCloses(prices: seq<PricePoint>): (r: seq<real>)
    ensures |r| == |prices| - WindowStart(prices)
    ensures forall i :: 0 <= i < |r| ==> r[i] == prices[WindowStart(prices) + i].close
  {
    var window := prices[WindowStart(prices)..];
    seq(|window|, i requires 0 <= i < |window| => window[i].close)
  }

  /** Price trend in percent across the trailing window, from its first to
      its last close; 0 when the window holds fewer than ten points. */
  function PriceTrend(prices: seq<PricePoint>): (r: Option<real>)
    ensures |prices| - WindowStart(prices) < MinTrendPoints ==> r == Some(0.0)
    ensures |prices| - WindowStart(prices) >= MinTrendPoints ==>
      (r.Some? <==> prices[WindowStart(prices)].close != 0.0)
    ensures |prices| - WindowStart(prices) >= MinTrendPoints ==>
      r == PercentChange(prices[WindowStart(prices)].close, prices[|prices| - 1].close)
  {
    var closes := RecentCloses(prices);
    if |closes| >= MinTrendPoints then PercentChange(closes[0], closes[|closes| - 1])
    else Some(0.0)
  }

  // ---------------------------------------------------------------------
  // Trend classifier
  // ---------------------------------------------------------------------

  /** The four-row threshold table, first match wins. Each label is
      characterised by its own conditions, with the rows above it folded in. */
  function Classify(growth: real, trend: real): (l: Label)
    ensures l == StrongBullish <==> growth > 20.0 && trend > 10.0
    ensures l == Bullish <==> growth > 10.0 && trend > 0.0 && !(growth > 20.0 && trend > 10.0)
    ensures l == Bearish <==> growth < -10.0 && trend < -5.0
    ensures l == Neutral <==> !(growth > 10.0 && trend > 0.0) && !(growth < -10.0 && trend < -5.0)
  {
    if growth > 20.0 && trend > 10.0 then StrongBullish
    else if growth > 10.0 && trend > 0.0 then Bullish
    else if growth < -10.0 && trend < -5.0 then Bearish
    else Neutral
  }

  /** The confidence tag each label carries. */
  function ConfidenceOf(l: Label): (c: Confidence)
    ensures c == High <==> l == StrongBullish
    ensures c == Medium <==> l == Bullish || l == Bearish
    ensures c == Low <==> l == Neutral
  {
    match l
    case StrongBullish => High
    case Bullish => Medium
    case Bearish => Medium
    case Neutral => Low
  }

  /** The fixed explanatory sentence of each label (rendered in English here). */
  function Explanation(l: Label): string
  {
    match l
    case StrongBullish => "Strong earnings growth and a rising price; good performance expected"
    case Bullish => "Steady earnings growth and an upward price trend; promising outlook"
    case Bearish => "Declining earnings and a weakening price; invest with caution"
    case Neutral => "Earnings and price are flat; wait and see"
  }

  /** Bullishness order of the labels, used to state monotonicity. */
  function Rank(l: Label): (n: nat)
    ensures n <= 3
  {
    match l
    case Bearish => 0
    case Neutral => 1
    case Bullish => 2
    case StrongBullish => 3
  }

  /** The prediction built from the two metrics and the most recent revenue:
      the classified label with its confidence and explanation, and a
      projection that applies the same percentage change once more. */
  function Assess(latestRevenue: real, growth: real, trend: real): (p: Prediction)
    ensures p.trend == Classify(growth, trend)
    ensures p.confidence == ConfidenceOf(p.trend) && p.explanation == Explanation(p.trend)
    ensures p.revenueGrowth == growth && p.priceTrend == trend
    ensures latestRevenue != 0.0 ==> PercentChange(latestRevenue, p.nextRevenue) == Some(growth)
  {
    var l := Classify(growth, trend);
    var p := Prediction(l, ConfidenceOf(l), Explanation(l), growth, trend,
                        latestRevenue * (1.0 + growth / 100.0));
    assert latestRevenue != 0.0 ==>
      PercentChange(latestRevenue, p.nextRevenue).value * latestRevenue == growth * latestRevenue;
    p
  }

  /** True when the division by the second revenue or by the first close of
      the trailing window would raise. */
  predicate HasZeroDivisor(income: seq<IncomeRecord>, prices: seq<PricePoint>)
    ensures HasZeroDivisor(income, prices) <==> RevenueGrowth(income).None? || PriceTrend(prices).None?
  {
    (|income| >= 2 && income[1].revenue == 0.0)
    || (|prices| - WindowStart(prices) >= MinTrendPoints && prices[WindowStart(prices)].close == 0.0)
  }

  /** `predict_future_trend`: absent for empty inputs or a zero divisor,
      otherwise the classified label with both metrics and the projection of
      next-period revenue. */
  function PredictFutureTrend(income: seq<IncomeRecord>, prices: seq<PricePoint>): (r: Option<Prediction>)
    ensures r.None? <==> |income| == 0 || |prices| == 0 || HasZeroDivisor(income, prices)
    ensures r.Some? ==>
      r.value == Assess(income[0].revenue, RevenueGrowth(income).value, PriceTrend(prices).value)
  {
    if |income| == 0 || |prices| == 0 then None
    else
      var growth := RevenueGrowth(income);
      var trend := PriceTrend(prices);
      if growth.None? || trend.None? then None
      else Some(Assess(income[0].revenue, growth.value, trend.value))
  }

  // ---------------------------------------------------------------------
  // Return on equity
  // ---------------------------------------------------------------------

  /** The ROE guard of `analyze_stock`: net income of the most recent period
      over total equity, in percent, when both snapshots are present, the net
      income is present and non-zero and the equity is present and positive. */
  function ReturnOnEquity(valuation: Option<ValuationSnapshot>, balance: Option<BalanceSheet>,
                          income: seq<IncomeRecord>): (r: Option<real>)
    ensures r.Some? <==>
      && valuation.Some? && balance.Some? && |income| > 0
      && income[0].nIncome.Some? && income[0].nIncome.value != 0.0
      && balance.value.totalEquity.Some? && balance.value.totalEquity.value > 0.0
    ensures r.Some? ==>
      r.value * balance.value.totalEquity.value == income[0].nIncome.value * 100.0
  {
    if valuation.Some? && balance.Some? then
      var net := if |income| > 0 then income[0].nIncome else None;
      var equity := balance.value.totalEquity;
      if net.Some? && net.value != 0.0 && equity.Some? && equity.value > 0.0
      then Some(net.value / equity.value * 100.0)
      else None
    else None
  }
}
