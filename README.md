# Stock analysis: trend prediction and ROE

This project models the arithmetic core of a small Flask service that looks up
one stock through the Tushare data API and returns its data as JSON. Two pieces
of `app.py` are modelled, over exact `real` arithmetic:

- **Trend prediction** (`predict_future_trend`). It takes the income history
  (most recent period first) and the daily prices (oldest first). It computes:
  - revenue growth, the percentage change between the first two income records;
  - price trend, the percentage change across the last 30 price points.
  A four-row threshold table (first match wins) turns the two metrics into a
  label (strong bullish, bullish, bearish, neutral). Each label carries a fixed
  confidence and explanation. The prediction also holds a naive projection of
  next-period revenue. It is absent when either input list is empty, or when a
  division by zero would raise and the `except` of app.py catches it.
- **Return on equity** (the guarded assignment inside `analyze_stock`). This is
  the net income of the most recent period divided by total equity, times 100.
  It is computed only when several presence and sign guards hold, and is
  absent otherwise.

`Wrappers.dfy` holds the `Option` type. `App.dfy` (module `App`) holds the data
model and the operations. `AppProperties.dfy` (module `AppProperties`) holds the
lemmas that relate several inputs or calls.

Details of app.py that the model keeps:
- app.py computes ROE only when the valuation snapshot is present and the net
  income is non-zero (Python truthiness of `net_income`), so a zero net income
  gives no ROE rather than an ROE of 0.
- The `else None` branch of `next_quarter_prediction` (app.py:145) cannot be
  reached, because an empty income list already returns None at app.py:103-104.
  The projection is therefore a plain `real`.
- Growth is `(r0 - r1) / r1 * 100`, with `r0` the most recent revenue, exactly
  in the code's subtraction order.

## Model

| member | source | states |
|---|---|---|
| `App.PercentChange` | app.py:110 | Present exactly when the base is non-zero; the result times the base equals (current - base) * 100 |
| `App.RecentRevenues` | app.py:108 | `income[:2]`: at most two revenues, the leading records' in order |
| `App.RevenueGrowth` | app.py:108-112 | 0 with fewer than two records; otherwise present exactly when the second revenue is non-zero, and it is the percentage change from r1 to r0 |
| `App.WindowStart` | app.py:115 | The trailing window `prices[-30:]` starts where exactly min(n, 30) points remain |
| `App.RecentCloses` | app.py:115 | The closes of the last min(n, 30) price points, oldest first |
| `App.PriceTrend` | app.py:115-119 | 0 when the window has fewer than 10 points; otherwise present exactly when its first close is non-zero, and it is the percentage change from the window's first close to the last close of the list |
| `App.Classify` | app.py:122-137 | Each label is characterised by its own thresholds: strong bullish iff growth > 20 and trend > 10; bullish iff growth > 10 and trend > 0 and not strong bullish; bearish iff growth < -10 and trend < -5; neutral iff neither bullish nor bearish thresholds hold |
| `App.ConfidenceOf` | app.py:122-137 | The label fixes the confidence: high iff strong bullish, medium iff bullish or bearish, low iff neutral |
| `App.Assess` | app.py:122-146 | The prediction built from the metrics: label by the table with its confidence and explanation, and a projection that applies the same percentage change to r0 once more (for r0 != 0, the change from r0 to the projection is the growth) |
| `App.HasZeroDivisor` | app.py:110-119 | A zero divisor (second revenue, or first close of a window of at least 10 points) is present exactly when growth or trend is absent, i.e. when a division raises and line 147 catches it |
| `App.PredictFutureTrend` | app.py:101-149 | Absent iff an input list is empty or a divisor (second revenue, first close of a window of at least 10 points) is zero; otherwise it is the assessment of the most recent revenue, the growth and the trend |
| `App.ReturnOnEquity` | app.py:190-196 | Present iff valuation and balance sheet are present, income is non-empty, the first net income is present and non-zero, and equity is present and positive; then roe * equity == net * 100 |
| `AppProperties.PredictDependsOnMetrics` | app.py:101-149 | Two input pairs with the same emptiness, metrics and most recent revenue give the same prediction |
| `AppProperties.RevenueGrowthIgnoresOlderIncome` | app.py:108-112 | Appending records after the first two leaves the growth unchanged |
| `AppProperties.PredictIgnoresOlderIncome` | app.py:108-145 | Appending income records after the first two leaves the prediction unchanged |
| `AppProperties.PriceTrendIgnoresOlderPrices` | app.py:115-119 | Prepending points before the last 30 leaves the trend unchanged |
| `AppProperties.PredictIgnoresOlderPrices` | app.py:115-145 | Prepending price points before the last 30 leaves the prediction unchanged |
| `AppProperties.NeutralWhenGrowthInBand` | app.py:122-137 | Growth within [-10, 10] always gives neutral with low confidence |
| `AppProperties.NeutralWithoutEnoughData` | app.py:109-137 | Fewer than two income records or fewer than 10 window points always gives neutral with low confidence |
| `AppProperties.BullishMeansRising` | app.py:110-129 | A bullish label needs both metrics computed from data; over positive bases, revenue rose by more than 10% and the last close is above the first |
| `AppProperties.StrongBullishMeansStrongRise` | app.py:110-125 | Strong bullish means, over positive bases, revenue up more than 20% and price up more than 10% |
| `AppProperties.BearishMeansFalling` | app.py:110-133 | Bearish needs both metrics computed from data; over positive bases, revenue down more than 10% and price down more than 5% |
| `AppProperties.PriceTrendSign` | app.py:115-119 | Over a positive first close, the trend is positive iff the last close is higher, negative iff it is lower |
| `AppProperties.EveryLabelReachable` | app.py:122-137 | No row of the first-match table is shadowed: each of the four labels is the prediction for some income and price history |
| `AppProperties.ChangeAboveBound` | app.py:110 | Over a positive base, a percentage change above b means current * 100 > base * (100 + b) |
| `AppProperties.ChangeBelowBound` | app.py:110 | Over a positive base, a percentage change below b means current * 100 < base * (100 + b) |
| `AppProperties.ThresholdsAreStrict` | app.py:122-133 | For every other metric, growth exactly 20 or trend exactly 10 is never strong bullish; growth 10 or trend 0 never bullish; growth -10 or trend -5 never bearish |
| `AppProperties.ExplanationDeterminesLabel` | app.py:125-137 | The four fixed explanation sentences differ, so equal explanations mean equal labels |
| `AppProperties.ClassifyMonotone` | app.py:122-137 | Raising growth or trend never gives a less bullish label |
| `AppProperties.ProjectionWithOneRecord` | app.py:145 | With one income record the projection equals that record's revenue |
| `AppProperties.ProjectionKeepsRatio` | app.py:145 | With two or more records, projection * r1 == r0 * r0: the last period's ratio is repeated |
| `AppProperties.RoeHasSignOfNetIncome` | app.py:195-196 | A present ROE is non-zero and negative exactly when net income is negative |
| `AppProperties.RoeIgnoresOlderIncome` | app.py:193 | Only the first income record affects ROE |
| `AppProperties.BoundaryGrowthIsOnlyBullish` | app.py:108-146 | Revenues 120 then 100 and a window rising from 10 to 12 give growth 20, trend 20, label bullish (thresholds are strict) and projection 144 |

## Left out

- The Tushare fetchers (`get_stock_basic`, `get_income_data`, `get_daily_basic`, `get_balance_sheet`, `get_historical_prices`): remote API calls plus pandas sorting and truncation; the model takes their outputs as input sequences and options.
- The Flask routes, request parsing and JSON assembly of `analyze_stock`, including the early error replies for a missing or unknown stock code: request I/O around remote calls.
- Token and configuration loading (`config.py`, environment variables): environment lookups and constants.
- Date windows built from the wall clock: I/O.
- `round(..., 2)` on the three numeric outputs: presentation only; the model keeps exact reals.
- Floating point: NaN, infinity, and numpy scalars that divide to infinity instead of raising. A zero divisor is modelled as the raised and caught `ZeroDivisionError`.
- Missing revenue or close values: pandas gives these as NaN floats, so they are not modelled as options. `IncomeRecord.revenue` and `PricePoint.close` are plain reals.
- The explanation sentences: `App.Explanation` holds English paraphrases of the four Chinese sentences of app.py:125-137, one fixed string per label; only their being distinct is stated.
- Log output (`print`) in the error paths.
