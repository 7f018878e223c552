# FYP trading core in Dafny

This project models the signal-and-decision core of a long-only,
single-position technical-indicator backtester (ruichen02/FYP) and proves
properties of that model. It covers the following parts:

- **Indicator strategies** (OBV, MACD, CCI, ADX, Bollinger Bands). Each turns
  per-bar prices into boolean `BuySignal`/`SellSignal` columns. A pandas value
  that may be NaN is an `Option<real>`. Every comparison with NaN is false,
  which is how the strategies stay silent during warm-up.
- **`combine_signals`**, the per-bar conjunction of the selected strategies'
  tagged signal columns.
- **The four grid-search optimisers** (`optimize_macd`,
  `optimize_bollinger_bands`, `optimize_cci`, `optimize_adx`). The backtest
  return is an oracle function. Ranking is a stable descending insertion
  sort. The top five are kept, and the first of them is returned, or a fixed
  fallback when there are no candidates. The MACD optimiser's memo cache is
  threaded through as a map.
- **`CustomStrategy.init`/`next`** of the three wrapper variants:
  - immediate;
  - forecast-gated;
  - delta/ATR-gated.

  It also covers the zero-division fallback record and `extract_statistics`
  with and without ROI. A bar-by-bar replay shows that the two-state (flat,
  long) machine behaves as intended.
- **`StrategyProcessor.process_data`**, which decides when an optimiser's
  answer replaces a strategy's parameters and then applies the strategy.

The modules follow the program:

- `Wrappers`: Option, Result and the escaping Python exceptions;
- `Series`: bars, windows, rolling means;
- `Obv`, `Macd`, `Cci`, `Adx`, `Bollinger`;
- `Combine`;
- `Ranking`, `Grid` and `Optimize`, for utils.py;
- `Engine`, for backtesting_wrapper.py;
- `Gating`, for the two model wrappers;
- `Simulator`;
- `Processor`.

The CCI mean deviation follows the code rather than the textbook indicator.
The code takes the rolling mean of |tp[j] - SMA[j]|, where each bar uses its
own SMA. The textbook indicator measures every value in the window against
the current SMA.

The MACD exponential smoothing is modelled concretely, using pandas'
`adjust=True` weights. The Bollinger rolling standard deviation is a
function parameter, which is assumed non-negative where a proof needs it.

The Bollinger branch of `process_data` reads `min_std_dev`, which the
constructor never sets. It therefore raises AttributeError whenever both
length bounds are truthy, and the model keeps that behaviour.

## Model

| member | source | states |
|---|---|---|
| Series.RollingMeanFirst | strategies/bollinger.py:25 | With min_periods=1 the rolling mean of the first bar is that bar's value. |
| Series.RollingMeanBounds | strategies/bollinger.py:25 | Every min_periods=1 rolling mean lies between the smallest and largest values averaged. |
| Series.RollingMeanNonNegative | strategies/cci.py:59 | The rolling mean of non-negative values is non-negative. |
| Series.RollingMeanFullBounds | strategies/adx.py:25-27 | A full-window rolling mean is defined only once a whole window exists, and then lies within the bounds of the defined values. |
| Series.RollingMeanFullNeedsWindow | strategies/adx.py:25-34 | A full-window rolling mean is defined only when every value of its window is defined. |
| Obv.CalculateObv | strategies/obv.py:7-17 | OBV starts at 0 and has one value per bar (one value for an empty frame). Each step changes it by +volume on a rising close, -volume on a falling close and 0 on an unchanged close. The append loop equals the reference running sum ObvAt. |
| Obv.Apply | strategies/obv.py:19-29 | A missing Close or Volume column raises ValueError; otherwise it succeeds. The frame has one row per OBV value: an empty frame is re-indexed to the single OBV row [0], with no signal. Bar 0 never signals, Buy[i] holds iff bar i's flow is positive and Sell[i] iff it is negative. |
| Obv.ApplyBars | strategies/obv.py:19-29 | On a bar frame the strategy always succeeds, with one row per bar (a single silent row for an empty frame), and the signals never coincide. |
| Obv.SignalsFollowPrice | strategies/obv.py:10-29 | With positive volume, Buy[i] holds iff the close rose and Sell[i] iff it fell. |
| Obv.ZeroVolumeSilent | strategies/obv.py:10-29 | A zero-volume bar never signals. |
| Macd.Lines | strategies/macd.py:21-27 | MACD, Signal and Histogram cover every bar, and Histogram = MACD - Signal. |
| Macd.Crossovers | strategies/macd.py:30-31 | The crossover signals are aligned, mutually exclusive and false on bar 0. |
| Macd.Apply | strategies/macd.py:21-31 | Succeeds iff all three spans are at least 1; otherwise raises pandas' span ValueError. Buy[i] holds iff the histogram turns positive from at most 0, and Sell[i] iff it turns negative from at least 0. Never both, never on bar 0. |
| Macd.EwmNumConstant | strategies/macd.py:9-13 | The weighted EWM sum of a constant series is the constant times the sum of the weights. |
| Macd.EwmConstant | strategies/macd.py:9-13 | ewm(span).mean() of a constant series is that constant. |
| Macd.DoubleSmoothConstant | strategies/macd.py:9-19 | The double smoothing 2*s1 - s2 of a constant series is that constant. |
| Macd.FlatCloseSilent | strategies/macd.py:21-31 | On a flat close, MACD and Signal are identically 0 and the strategy never signals. |
| Cci.New | strategies/cci.py:5-15 | A length <= 0 becomes 20, and a positive length is truncated. A constant <= 0 becomes 0.015, otherwise it is kept. The constant is always positive. |
| Cci.MeanDeviation | strategies/cci.py:48-59 | The mean deviation is never negative. |
| Cci.QuotientSign | strategies/cci.py:78-81 | With a positive constant, a CCI below -100 needs tp < SMA, and one above 100 needs tp > SMA. |
| Cci.FirstBarUndefined | strategies/cci.py:46-81 | The CCI of bar 0 is always NaN: a one-bar window has zero mean deviation, which is replaced by NaN before the division. |
| Cci.SignalSide | strategies/cci.py:73-112 | Zero mean deviation makes the CCI NaN. A CCI past -100 or 100 puts tp below or above its SMA. |
| Cci.Signal | strategies/cci.py:111-112 | Buy[i] iff CCI[i] < -100 and Sell[i] iff CCI[i] > 100; NaN never signals. |
| Cci.Apply | strategies/cci.py:92-112 | Buy[i] iff CCI[i] < -100 and Sell[i] iff CCI[i] > 100. The signals are aligned and exclusive and false on bar 0. Zero mean deviation gives no signal. Buy needs tp < SMA and Sell needs tp > SMA. A truncated zero length gives no signal at all. |
| Adx.New | strategies/adx.py:4-7 | A length <= 0 becomes 14, and a positive length is truncated. The threshold is kept. |
| Adx.TrueRangeAt | strategies/adx.py:9-13 | The true range is the largest of H-L, \|H-prevC\| and \|L-prevC\|: it dominates all three and equals one of them, so it is non-negative. |
| Adx.DirectionalMovementExclusive | strategies/adx.py:15-21 | +DM and -DM are non-negative, and at most one of them is positive on any bar. |
| Adx.DxValueBounds | strategies/adx.py:30-33 | A defined DX on non-negative movements lies in [0, 100]. |
| Adx.AdxBounds | strategies/adx.py:30-34 | Every defined ADX lies in [0, 100]. |
| Adx.AdxWarmup | strategies/adx.py:23-34 | ADX is NaN before bar 2*length - 2, and everywhere when length is 0. |
| Adx.Signal | strategies/adx.py:59-61 | Buy[i] holds iff i > 0, ADX > threshold and the close rose; Sell[i] iff i > 0, ADX > threshold and the close fell. Never both. |
| Adx.Apply | strategies/adx.py:37-63 | Buy[i] iff ADX > threshold and the close rose against bar i-1, Sell[i] iff ADX > threshold and it fell. Hence signals fire only after warm-up, with a defined ADX in (threshold, 100], and are exclusive. |
| Bollinger.New | strategies/bollinger.py:6-9 | A length <= 0 becomes 20, and a positive length is truncated. The multiplier is kept. |
| Bollinger.StdAt | strategies/bollinger.py:25-26 | The rolling std is defined iff the window holds at least two closes, and is then the deviation of that window. |
| Bollinger.BandsOrdered | strategies/bollinger.py:24-33 | The bands are defined exactly from bar 1 when length >= 2. With multiplier >= 0 and std >= 0, upper >= middle >= lower. |
| Bollinger.SignalsSeparated | strategies/bollinger.py:57-58 | Under ordered bands Buy and Sell never coincide. Buy puts the close below the rolling mean and Sell above it. |
| Bollinger.Apply | strategies/bollinger.py:35-60 | Succeeds iff the window is positive; a zero window raises pandas' ValueError. Buy[i] iff the close is below the lower band and Sell[i] iff above the upper band, NaN bands never signalling. Bar 0 is silent, and length 1 is silent everywhere. With multiplier >= 0 and std >= 0 the signals are exclusive and on opposite sides of the mean. |
| Bollinger.Signal | strategies/bollinger.py:57-58 | Buy[i] iff the close is below the lower band and Sell[i] iff above the upper band; a NaN band never signals. |
| Bollinger.ZeroMultiplierCollapses | strategies/bollinger.py:28-58 | With multiplier 0, Buy holds iff the close is below its rolling mean and Sell iff above, once the bands are defined. |
| Combine.Conjoin | utils.py:19-28 | The accumulated column at row i holds iff every selected tag with a column is true there. |
| Combine.TaggedColumnsDistinct | utils.py:23-28 | A tagged signal column never collides with a combined column. |
| Combine.CombineSignals | utils.py:17-30 | The result keeps every input column and adds CommonBuySignal/CommonSellSignal. Nothing else changes. Each combined column is true at i iff every selected tag whose column exists is true there. |
| Combine.NothingSelectedAllTrue | utils.py:19-28 | With no matching tagged column, both combined columns are all true. |
| Combine.OrderIrrelevant | utils.py:22-28 | Reordering or repeating the selected tags changes nothing. |
| Combine.Idempotent | utils.py:17-30 | Combining twice with the same tags equals combining once. |
| Ranking.Insert | utils.py:49 | Insertion keeps the length and the multiset and places the new element first or behind the old head. |
| Ranking.InsertSorted | utils.py:49 | Insertion keeps a list sorted by non-increasing return. |
| Ranking.SortDesc | utils.py:49 | `sorted(reverse=True)` returns a sorted permutation. |
| Ranking.InsertStable | utils.py:49 | Insertion appends the new element after the equal-return elements already present. |
| Ranking.SortStable | utils.py:49 | The sort is stable: candidates with the same return keep their enumeration order. |
| Ranking.FirstMax | utils.py:49-56 | The first position holding the largest return. |
| Ranking.SortHeadIsFirstMax | utils.py:49-56 | The head of the sorted list is the first candidate with the largest return. |
| Ranking.Top5 | utils.py:49 | The top list has min(n, 5) entries, is sorted and is drawn from the candidates. Its head beats every candidate, and any candidate above its last entry is in it. |
| Ranking.TopLeadsWithFirstMax | utils.py:49-56 | The top list leads with the first maximum. |
| Grid.Range | utils.py:38 | `range(lo, hi + 1)` holds lo, lo + 1, …, hi. |
| Grid.Product | utils.py:38 | `product` has \|xs\|·\|ys\| pairs. |
| Grid.ProductIndex | utils.py:109-110 | Pair (i, j) of the product sits at position i·\|ys\| + j (first factor major). |
| Grid.ProductMembers | utils.py:109-110 | Every product pair is made of the factors' elements. |
| Grid.GridFromPairs | utils.py:38-39 | Filtering the product of [a..hi] and [lo..hi] to fast < slow leaves exactly the triangle from a, in the same order. |
| Grid.MacdGridIsPairs | utils.py:38-39 | The filtered square product equals the triangular enumeration. |
| Grid.PairsMembers | utils.py:38-39 | The triangle holds exactly the pairs lo <= fast < slow <= hi. |
| Grid.PairsCount | utils.py:38-39 | The triangle over m lengths has m(m-1)/2 pairs. |
| Grid.PairsIncreasing | utils.py:38-39 | The triangle is enumerated in strictly increasing lexicographic order. |
| Grid.MacdGridShape | utils.py:38-39 | The MACD grid is exactly the pairs lo <= fast < slow <= hi, in strictly increasing lexicographic order, n(n-1)/2 of them. |
| Grid.TableShape | utils.py:109-110 | The ADX/Bollinger table has (maxL-minL+1)(maxT-minT+1) entries, each in range, and every in-range pair occurs. |
| Optimize.Positive | utils.py:69-74 | Only candidates with a strictly positive return are kept, and all of them are. |
| Optimize.Select | utils.py:49-56 | At most 5 sorted records, drawn from the candidates. No candidates gives the fallback. Otherwise the answer is the top record and is the first maximum. |
| Optimize.Beats | utils.py:49-56 | The answer beats or ties every grid point and strictly beats every earlier one. |
| Optimize.Reported | utils.py:49 | Every reported record is an evaluated grid point with its return. |
| Optimize.TableIncreasing | utils.py:109-110 | The length-major table is strictly increasing in lexicographic order. |
| Optimize.MacdReported | utils.py:37-49 | Every reported MACD record is a triangle pair with its own return. |
| Optimize.MacdBest | utils.py:49-56 | Fewer than two lengths give the fallback (min, min + 1) and an empty top list. Otherwise the answer is a triangle pair with the largest return, and every lexicographically earlier pair does strictly worse. |
| Optimize.MacdPoint | utils.py:49-56 | Any one triangle pair does at most as well as the answer, and strictly worse if it comes earlier. |
| Optimize.BollingerReported | utils.py:63-83 | Reported records are in-range points with positive returns. When no point has a positive return, the answer is the fallback and the top list is empty. |
| Optimize.BollingerPoint | utils.py:69-83 | Any in-range point with a positive return does at most as well as the answer, which is itself in range. |
| Optimize.CciParamGrid | utils.py:88-89 | One CCI candidate per length lo, lo + 1, …, hi. |
| Optimize.AdxReported | utils.py:109-127 | Reported records are in-range points with their returns. An empty table gives the fallback and an empty top list. |
| Optimize.AdxBest | utils.py:120-127 | The answer is in range, has the largest return, and every earlier point does strictly worse. |
| Optimize.AdxPoint | utils.py:120-127 | Any one in-range point does at most as well as the answer, and strictly worse if it comes earlier. |
| Optimize.SearchMacd | utils.py:37-56 | On bounds where every pair has spans of at least 1: reported pairs are in the triangle with their returns. With fewer than two lengths the answer is the fallback (min, min + 1). Otherwise it is a triangle pair with the largest return, and every lexicographically earlier pair does strictly worse. |
| Optimize.OptimizeMacd | utils.py:32-58 | A cache hit returns the stored answer, evaluates nothing and leaves the cache alone. On a miss with min < 1 and at least two lengths, the first pair's `ewm(span=min)` raises the span ValueError before the cache is written. Otherwise the whole grid is evaluated and the search's answer is returned and stored under ("MACD", min, max). |
| Optimize.Memoised | utils.py:33-35 | After a successful call, a repeated call with the same bounds returns the first answer whatever the returns are now, and evaluates nothing. A call that raised leaves no entry, so it raises again. |
| Optimize.BollingerCandidates | utils.py:63-74 | Recorded candidates are in-range grid points with their strictly positive returns. |
| Optimize.OptimizeBollinger | utils.py:61-83 | Every reported record has a return > 0. With no positive return the answer is the fallback (min_length, min_std). Otherwise the answer is in range and beats or ties every positive grid point. |
| Optimize.OptimizeCci | utils.py:86-104 | An empty range gives the fallback min_length. Otherwise the answer is the shortest length with the largest return. |
| Optimize.OptimizeAdx | utils.py:107-127 | An empty table gives the fallback (min_length, min_threshold). Otherwise the answer has the largest return and every length-major earlier point does strictly worse. |
| Engine.SelectSignals | backtesting_wrapper.py:10-19 | `init` succeeds iff a buy and a sell column can each be found. They are chosen independently, and the buy column's KeyError comes first. |
| Engine.CombinedFramesUseCommonColumns | backtesting_wrapper.py:10-19 | After combine_signals the strategy trades on the per-bar conjunction of the selected strategies. |
| Engine.ChoicesIndependent | backtesting_wrapper.py:11-19 | The buy and sell choices are made separately: a frame may mix a combined buy column with a plain sell column. |
| Engine.FloorDivision | backtesting_wrapper.py:28 | floor(equity/price)·price <= equity < (floor(equity/price) + 1)·price. |
| Engine.OrderSize | backtesting_wrapper.py:28 | `equity // price` is the largest whole number of units the equity pays for. |
| Engine.StepImmediate | backtesting_wrapper.py:21-29 | Close iff long and sell. Buy iff flat and buy, of floor(equity/price) units, with no size > 0 guard. |
| Engine.QuietBarHolds | backtesting_wrapper.py:21-29 | A bar with no signal issues nothing. |
| Engine.OffSideSignalIgnored | backtesting_wrapper.py:22-29 | While long the buy signal is ignored; while flat the sell signal is. |
| Engine.FallbackStats | backtesting_wrapper.py:40-46 | The zero-division record is {0 trades, final equity = initial cash, return 0, Sharpe 0}. |
| Engine.ExtractStatistics | backtesting_wrapper.py:51-57 | Missing entries count as 0. Trade percentages become pct·cash/100. |
| Engine.FallbackReportNeutral | backtesting_wrapper.py:40-57 | The fallback record reports no trades, no return and no trade amounts. |
| Engine.ExtractStatisticsRoi | backtesting_wrapper_model.py:91-100 | ROI·cash = (final - cash)·100, with final defaulting to cash, which gives ROI 0. An initial cash of 0 raises ZeroDivisionError. |
| Engine.RoiSign | backtesting_wrapper_model.py:92-93 | With positive cash, ROI > 0 iff the final equity exceeds it, and ROI < 0 iff it falls short. |
| Engine.FallbackRoiZero | backtesting_wrapper_model_delta.py:111-129 | The fallback record yields ROI 0 and an all-zero report. |
| Gating.DayShift | backtesting_wrapper_model.py:13-14 | Moving a timestamp back by d whole days moves its calendar day back by d. |
| Gating.Request | backtesting_wrapper_model.py:12-22 | The forecast window ends on the signal's day and starts exactly `lookback` days earlier. |
| Gating.AffordableIffPositive | backtesting_wrapper_model.py:65-66 | `equity // price > 0` iff equity >= price. |
| Gating.GateForecast | backtesting_wrapper_model.py:39-71 | Close iff long ∧ sell ∧ forecast < price. Buy iff flat ∧ buy ∧ forecast > price ∧ equity >= price, with size >= 1. A None forecast never trades. |
| Gating.ForecastRefinesImmediate | backtesting_wrapper_model.py:39-71 | Whenever the forecast-gated step acts, it does what the plain step does. |
| Gating.NoForecastHolds | backtesting_wrapper_model.py:44-62 | A None forecast leaves the bar idle. |
| Gating.FlatForecastHolds | backtesting_wrapper_model.py:50-64 | A forecast equal to the price never trades. |
| Gating.RecentTrueRanges | backtesting_wrapper_model_delta.py:46-59 | The 14 true ranges the ATR averages are those of the last 14 bars of the history, measured against each previous close, and are non-negative. |
| Gating.Atr | backtesting_wrapper_model_delta.py:46-62 | The ATR computed on the last 15 bars equals the mean of the 14 most recent true ranges of the whole history, and is non-negative. |
| Gating.AdaptiveThreshold | backtesting_wrapper_model_delta.py:43-68 | The threshold is >= 0.005 on every bar, exactly 0.005 with fewer than 15 bars, otherwise the larger of 0.005 and 1.5·ATR/close. |
| Gating.CalmMarketFloor | backtesting_wrapper_model_delta.py:60-66 | If every recent true range is at most 0.005·close/1.5, the threshold is exactly 0.005. |
| Gating.GateDelta | backtesting_wrapper_model_delta.py:71-102 | Close iff long ∧ sell ∧ forecast < price ∧ delta < -threshold. Buy iff flat ∧ buy ∧ forecast > price ∧ delta > threshold ∧ equity >= price. A None forecast never trades. |
| Gating.DeltaRefinesForecast | backtesting_wrapper_model_delta.py:71-102 | Whenever the delta step acts, the forecast-gated step acts the same way. |
| Gating.DeltaMargins | backtesting_wrapper_model_delta.py:78-99 | With a non-negative threshold, a buy happens iff forecast > price·(1 + threshold) (plus signal and cash), and a close iff forecast < price·(1 - threshold). |
| Gating.ZeroThresholdIsForecast | backtesting_wrapper_model_delta.py:80-95 | With threshold 0 the delta step is the forecast-gated step. |
| Simulator.Decide | backtesting_wrapper_model.py:39-71 | A forecast is requested iff a gated variant sees a consulting bar, and the request is the variant's lookback window. A trade happens only on a consulting bar. Close only while long, buy only while flat. |
| Simulator.OpensAndClosesAlternate | backtesting_wrapper.py:21-29 | Over any replay, the opens exceed the closes by one exactly when the strategy ends long. |
| Simulator.ReplayDecisions | backtesting_wrapper.py:21-29 | Each recorded decision is `next` on that bar in the position the replay held then. |
| Simulator.SilentFeedsIdle | backtesting_wrapper.py:21-29 | All-false signal feeds issue no order, request no forecast and stay flat. |
| Simulator.ImmediateRequestsNothing | backtesting_wrapper.py:21-29 | The plain variant never asks for a forecast. |
| Simulator.RequestsSpanLookback | backtesting_wrapper_model_delta.py:12-14 | Every forecast request ends on its bar's day and spans the variant's lookback (332 or 325 days). |
| Simulator.NoForecastNoTrades | backtesting_wrapper_model.py:39-62 | An always-failing forecaster keeps a gated strategy flat, holding on every bar. |
| Processor.ApplyStrategy | strategy_processor_model.py:33-70 | Fails exactly on a MACD span < 1 or a zero Bollinger window. Otherwise the signals cover every row of the resulting frame (one row for an empty OBV frame). They are exclusive for every strategy except Bollinger, where exclusivity needs a non-negative multiplier and deviation. |
| Processor.Configure | strategy_processor_model.py:25-70 | MACD and CCI are re-optimised only when both lengths are truthy, and ADX only when all four bounds are: a falsy threshold bound leaves the ADX strategy and the cache unchanged. OBV never is. Bollinger raises AttributeError('min_std_dev') when both lengths are truthy. MACD raises the span ValueError when an uncached search starts below length 1. A re-built CCI always has the constant 0.015. Only MACD touches the cache. |
| Processor.ProcessData | strategy_processor_model.py:25-72 | A configure error is raised as it is, with the cache as it was; otherwise the configured strategy is applied. CCI, ADX and OBV always succeed; Bollinger fails iff the lengths are truthy or its window is 0. |
| Processor.UnboundedAppliesAsIs | strategy_processor_model.py:25-70 | Without two truthy lengths the held strategy is applied unchanged, and the cache is untouched. |
| Processor.BollingerBoundsRaise | strategy_processor_model.py:35-36 | With both lengths truthy the Bollinger branch raises before applying anything. |
| Processor.MacdOptimised | strategy_processor_model.py:26-33 | With a fresh key and at least two lengths from 1 up, the new MACD uses a best triangle pair (ties to the earliest) and signal span 9, and the cache records it. |
| Processor.MacdSpanRaises | strategy_processor_model.py:26-28 | An uncached MACD search from a truthy minimum below 1 raises the span ValueError: nothing is applied and the cache is unchanged. |
| Processor.MacdCached | strategy_processor_model.py:27-33 | A cached MACD answer is reused as it is. |
| Processor.CciOptimised | strategy_processor_model.py:47-51 | With positive bounds min <= max, the new CCI uses the shortest best length, with the constant 0.015. |
| Processor.CciRebuilt | strategy_processor_model.py:47-50 | For any truthy lengths the re-built CCI has the constant 0.015. With min > max the length is the fallback min, or 20 when min is not positive. |
| Processor.AdxOptimised | strategy_processor_model.py:53-66 | The new ADX uses a best (length, threshold) of the table, with ties going to the earliest. |
| Processor.Backtest | strategy_processor_model.py:74-77 | The processor's report is `extract_statistics` of the plain wrapper's run with 10000 of cash: trades and return as recorded, best and worst trade as pct·100, each 0 when missing. A zero-division run reports all zeros. |

## Left out

- The external backtesting engine is outside the model: order fills at the next open, the 0.002 commission, equity marking, trade records and the Sharpe/return statistics. Its statistics and per-bar equity are inputs, and a ZeroDivisionError run is a distinct input value.
- Simulator.Replay: an issued close or buy of at least one unit is assumed to take effect before the next bar. Cancelled or rejected engine orders (for example a size of 0 in the plain variant) are not modelled.
- The LSTM forecaster (lstm_close.py) and data_loader.py are not part of this model. The forecaster is an oracle from a request to `Option<real>`, where None stands for a missing forecast: `predict_stock` returned None (no data, or fewer than 10 rows) or raised an exception that the wrapper caught.
- Timestamps are whole seconds. A calendar day is the timestamp divided by 86400, so time zones and `strftime` formatting are not modelled.
- All `print` output and the printed top-5 tables.
- Floating point is replaced by real arithmetic. The Bollinger grid's `np.arange(min_std, max_std + 0.1, 0.1)` with `round(std, 2)` is modelled as an integer range of tenths, which ignores the float stepping's extra or missing last element.
- Bollinger.StdAt: the sample standard deviation (a square root) is a function parameter. Only its non-negativity is assumed, and only where a lemma needs it.
- Closing prices are assumed positive on every bar (`price > 0` preconditions and `ValidMarket`): the source divides by the close without a guard.
- Missing High/Low/Close columns for MACD, CCI, ADX and Bollinger are not modelled; a bar always carries all four values. For the same reason the CCI outer exception handler, which only catches such lookups, is not modelled. The missing-column ValueError of OBV is modelled in Obv.Apply.
- In-place mutation of the caller's frame by MACD and OBV, and the copies the other strategies make, are not modelled: every operation returns a new value.
- The behaviour of pandas for a zero-width `rolling(window=0)` in ADX (all NaN) is assumed, not derived.
- Optimize.OptimizeBollinger: maximality is stated over the positive-return grid points. The tie-break among equal returns is not restated for this optimiser; it follows from Select, which holds for all four.
- Optimize.OptimizeMacd: the memo key ignores the data frame, so a cached answer is reused for different data. Optimize.Memoised states this, and it is not treated as an error.
- Only the plain wrapper's `backtest`/`extract_statistics` are used by `StrategyProcessor.backtest`, as in the source. The gated wrappers' `backtest` is the replay in `Simulator` plus the same fallback record.
