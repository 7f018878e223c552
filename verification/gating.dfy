/** The forecast-gated decision steps of `CustomStrategy.next`
    (backtesting_wrapper_model.py and backtesting_wrapper_model_delta.py).

    Both variants consult the forecaster only on a bar where the plain
    strategy would act: while long with a sell signal, or while flat with a
    buy signal.  The forecaster is an input: `run_forecast_and_read` turns
    every exception into None, so a forecast is an `Option<real>`.  The
    delta variant additionally asks for a relative move larger than a
    volatility-adapted threshold derived from the average true range.
 */
module Gating {
  import opened Wrappers
  import opened Series
  import Adx
  import opened Engine

  // ------------------------------------------------------- forecast window

  const SecondsPerDay := 86400
  /** Days of history the forecast-gated wrapper hands to the forecaster. */
  const ForecastLookback := 332
  /** Days of history the delta-gated wrapper hands to the forecaster. */
  const DeltaLookback := 325

  /** The calendar day (`strftime("%Y-%m-%d")`) of a bar timestamp given in
      seconds. */
  function DayOf(time: int): int {
    time / SecondsPerDay
  }

  /** The arguments of one `predict_stock` call. */
  datatype ForecastRequest = ForecastRequest(ticker: string, startDay: int, endDay: int, interval: string)

  /** A forecaster: the predicted price for a request, or None when the
      forecast raised. */
  type Forecaster = ForecastRequest -> Option<real>

  /** Shifting a timestamp by whole days shifts its calendar day by as many. */
  lemma DayShift(time: int, days: int)
    ensures DayOf(time - days * SecondsPerDay) == DayOf(time) - days
  {
    var q := time / SecondsPerDay;
    var r := time % SecondsPerDay;
    assert time == q * SecondsPerDay + r && 0 <= r < SecondsPerDay;
    assert time - days * SecondsPerDay == (q - days) * SecondsPerDay + r;
  }

  /** `run_forecast_and_read`'s request: from `lookback` days before the
      signal's day up to the signal's day itself. */
  function Request(ticker: string, time: int, interval: string, lookback: nat): (q: ForecastRequest)
    ensures q.ticker == ticker && q.interval == interval
    ensures q.endDay == DayOf(time)
    ensures q.endDay - q.startDay == lookback
  {
    DayShift(time, lookback);
    ForecastRequest(ticker, DayOf(time - lookback * SecondsPerDay), DayOf(time), interval)
  }

  /** The bars on which a gated variant runs the forecaster. */
  predicate Consults(long: bool, buy: bool, sell: bool) {
    (long && sell) || (!long && buy)
  }

  // ----------------------------------------------------- forecast-gated step

  /** `next` of backtesting_wrapper_model.py, given the forecast obtained on
      a consulting bar.  A missing forecast leaves the bar idle; a close
      needs a forecast below the price; a buy needs a forecast above the
      price and at least one affordable unit. */
  function GateForecast(long: bool, buy: bool, sell: bool, forecast: Option<real>, equity: real, price: real): (a: Action)
    requires price > 0.0
    ensures a == ClosePosition <==> long && sell && forecast.Some? && forecast.value < price
    ensures a.BuyOrder? <==> !long && buy && forecast.Some? && forecast.value > price && equity >= price
    ensures a.BuyOrder? ==> a.size >= 1 && a.size as real * price <= equity < (a.size as real + 1.0) * price
  {
    if long && sell then
      if forecast.Some? && forecast.value < price then ClosePosition else Hold
    else if !long && buy then
      if forecast.Some? && forecast.value > price then
        var size := OrderSize(equity, price);
        AffordableIffPositive(equity, price, size);
        if size > 0 then BuyOrder(size) else Hold
      else Hold
    else Hold
  }

  /** `equity // price` is positive exactly when one unit is affordable. */
  lemma AffordableIffPositive(equity: real, price: real, size: int)
    requires price > 0.0
    requires size as real * price <= equity < (size as real + 1.0) * price
    ensures size > 0 <==> equity >= price
  {
    if size > 0 {
      MultiplyMonotone(1.0, size as real, price);
    } else {
      MultiplyMonotone(size as real + 1.0, 1.0, price);
    }
  }

  /** The forecast only vetoes: whenever the gated step acts, it does what
      the plain step does on the same bar. */
  lemma ForecastRefinesImmediate(long: bool, buy: bool, sell: bool, forecast: Option<real>, equity: real, price: real)
    requires price > 0.0
    ensures var a := GateForecast(long, buy, sell, forecast, equity, price);
      a != Hold ==> a == StepImmediate(long, buy, sell, equity, price)
  {
  }

  /** Without a forecast the gated step never trades. */
  lemma NoForecastHolds(long: bool, buy: bool, sell: bool, equity: real, price: real)
    requires price > 0.0
    ensures GateForecast(long, buy, sell, None, equity, price) == Hold
  {
  }

  /** A forecast equal to the current price neither buys nor sells. */
  lemma FlatForecastHolds(long: bool, buy: bool, sell: bool, equity: real, price: real)
    requires price > 0.0
    ensures GateForecast(long, buy, sell, Some(price), equity, price) == Hold
  {
  }

  // ------------------------------------------------ volatility threshold

  /** Bars in the average-true-range window. */
  const AtrWindow := 14
  /** Lower bound of the adaptive threshold. */
  const MinThreshold := 0.005
  const VolatilityFactor := 1.5

  /** The true ranges of the last `AtrWindow` bars of the history. */
  function RecentTrueRanges(history: seq<Bar>): (tr: seq<real>)
    requires |history| >= AtrWindow + 1
    ensures |tr| == AtrWindow
    ensures forall k :: 0 <= k < AtrWindow ==> tr[k] == Adx.TrueRangeAt(history, |history| - AtrWindow + k)
    ensures forall k :: 0 <= k < AtrWindow ==> tr[k] >= 0.0
  {
    seq(AtrWindow, k requires 0 <= k < AtrWindow => Adx.TrueRangeAt(history, |history| - AtrWindow + k))
  }

  /** The ATR of the delta variant, computed as the source does on the last
      AtrWindow + 1 bars only.  The first of these has no previous close;
      its row of the true-range frame is dropped by the 14-bar rolling
      mean, whose last value averages the remaining 14 rows. */
  function Atr(history: seq<Bar>): (atr: real)
    requires |history| >= AtrWindow + 1
    ensures atr >= 0.0
    ensures atr == Mean(RecentTrueRanges(history))
  {
    var w := history[|history| - (AtrWindow + 1)..];
    var tr := seq(AtrWindow, k requires 0 <= k < AtrWindow => Adx.TrueRangeAt(w, k + 1));
    assert tr == RecentTrueRanges(history) by {
      forall k | 0 <= k < AtrWindow
        ensures tr[k] == RecentTrueRanges(history)[k]
      {
        assert w[k + 1] == history[|history| - AtrWindow + k];
        assert w[k] == history[|history| - AtrWindow + k - 1];
      }
    }
    MeanBounds(tr, 0.0, MaxOf(tr));
    Mean(tr)
  }

  /** `adaptive_thresh`: the larger of 0.5% and 1.5 ATR as a fraction of the
      current close, or 0.5% while fewer than AtrWindow + 1 bars exist. */
  function AdaptiveThreshold(history: seq<Bar>): (t: real)
    requires |history| > 0 && history[|history| - 1].close > 0.0
    ensures t >= MinThreshold
    ensures |history| < AtrWindow + 1 ==> t == MinThreshold
    ensures |history| >= AtrWindow + 1 ==>
      t * history[|history| - 1].close >= VolatilityFactor * Atr(history) &&
      (t == MinThreshold || t * history[|history| - 1].close == VolatilityFactor * Atr(history))
  {
    if |history| >= AtrWindow + 1 then
      Max(MinThreshold, Atr(history) / history[|history| - 1].close * VolatilityFactor)
    else MinThreshold
  }

  /** A calm market, whose recent true ranges are all small against the
      price, keeps the threshold at its floor. */
  lemma CalmMarketFloor(history: seq<Bar>)
    requires |history| >= AtrWindow + 1 && history[|history| - 1].close > 0.0
    requires forall k :: 0 <= k < AtrWindow ==>
      VolatilityFactor * RecentTrueRanges(history)[k] <= MinThreshold * history[|history| - 1].close
    ensures AdaptiveThreshold(history) == MinThreshold
  {
    var tr := RecentTrueRanges(history);
    var c := history[|history| - 1].close;
    MeanBounds(tr, 0.0, MinThreshold * c / VolatilityFactor);
    SmallRangeSmallRatio(Atr(history), c);
  }

  lemma SmallRangeSmallRatio(atr: real, c: real)
    requires c > 0.0 && atr <= MinThreshold * c / VolatilityFactor
    ensures atr / c * VolatilityFactor <= MinThreshold
  {
    var x := atr / c;
    assert x * c == atr;
    if x * VolatilityFactor > MinThreshold {
      MultiplyMonotone(MinThreshold / VolatilityFactor, x, c);
    }
  }

  // -------------------------------------------------------- delta-gated step

  /** The forecast's relative move against the current price. */
  function Delta(forecast: real, price: real): real
    requires price > 0.0
  {
    (forecast - price) / price
  }

  /** `next` of backtesting_wrapper_model_delta.py: as the forecast-gated
      step, with the relative move also required to beat the threshold. */
  function GateDelta(long: bool, buy: bool, sell: bool, forecast: Option<real>, equity: real, price: real, threshold: real): (a: Action)
    requires price > 0.0
    ensures a == ClosePosition <==>
      long && sell && forecast.Some? && forecast.value < price && Delta(forecast.value, price) < -threshold
    ensures a.BuyOrder? <==>
      !long && buy && forecast.Some? && forecast.value > price && Delta(forecast.value, price) > threshold && equity >= price
    ensures a.BuyOrder? ==> a.size >= 1 && a.size as real * price <= equity < (a.size as real + 1.0) * price
  {
    if long && sell then
      if forecast.Some? && forecast.value < price && Delta(forecast.value, price) < -threshold
      then ClosePosition else Hold
    else if !long && buy then
      if forecast.Some? && forecast.value > price && Delta(forecast.value, price) > threshold then
        var size := OrderSize(equity, price);
        AffordableIffPositive(equity, price, size);
        if size > 0 then BuyOrder(size) else Hold
      else Hold
    else Hold
  }

  /** The threshold only vetoes further: whenever the delta step acts, the
      forecast-gated step acts the same way on the same bar. */
  lemma DeltaRefinesForecast(long: bool, buy: bool, sell: bool, forecast: Option<real>, equity: real, price: real, threshold: real)
    requires price > 0.0
    ensures var a := GateDelta(long, buy, sell, forecast, equity, price, threshold);
      a != Hold ==> a == GateForecast(long, buy, sell, forecast, equity, price)
  {
  }

  /** With a non-negative threshold the price comparisons are implied by the
      delta tests: a buy needs a forecast above price * (1 + threshold) and
      a close one below price * (1 - threshold), and these bounds are also
      sufficient. */
  lemma DeltaMargins(long: bool, buy: bool, sell: bool, forecast: Option<real>, equity: real, price: real, threshold: real)
    requires price > 0.0 && threshold >= 0.0
    ensures var a := GateDelta(long, buy, sell, forecast, equity, price, threshold);
      && (a == ClosePosition <==> long && sell && forecast.Some? && forecast.value < price * (1.0 - threshold))
      && (a.BuyOrder? <==> !long && buy && forecast.Some? && forecast.value > price * (1.0 + threshold) && equity >= price)
  {
    if forecast.Some? {
      var f := forecast.value;
      var d := Delta(f, price);
      assert d * price == f - price;
      if d > threshold {
        MultiplyMonotone(threshold, d, price);
      }
      if f > price * (1.0 + threshold) {
        assert d * price > threshold * price;
        if d <= threshold {
          MultiplyMonotone(d, threshold, price);
        }
      }
      if d < -threshold {
        MultiplyMonotone(d, -threshold, price);
      }
      if f < price * (1.0 - threshold) {
        assert d * price < -threshold * price;
        if d >= -threshold {
          MultiplyMonotone(-threshold, d, price);
        }
      }
    }
  }

  /** A zero threshold makes the delta step the forecast-gated step. */
  lemma ZeroThresholdIsForecast(long: bool, buy: bool, sell: bool, forecast: Option<real>, equity: real, price: real)
    requires price > 0.0
    ensures GateDelta(long, buy, sell, forecast, equity, price, 0.0) == GateForecast(long, buy, sell, forecast, equity, price)
  {
    if forecast.Some? {
      var f := forecast.value;
      var d := Delta(f, price);
      assert d * price == f - price;
      if f > price {
        if d <= 0.0 {
          MultiplyMonotone(d, 0.0, price);
        }
      }
      if f < price {
        if d >= 0.0 {
          MultiplyMonotone(0.0, d, price);
        }
      }
    }
  }
}
