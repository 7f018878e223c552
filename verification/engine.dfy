/** The part of `BacktestingWrapper` (backtesting_wrapper.py) that is not
    the external backtesting engine: which signal columns the strategy
    reads, the per-bar decision of the plain variant, the record returned
    when the engine divides by zero, and `extract_statistics`.

    The engine itself (order fills, commission, equity marking, statistics)
    is not modelled: its per-bar equity and its final statistics are
    inputs.
 */
module Engine {
  import opened Wrappers
  import opened Combine

  /** What `next` does on one bar. */
  datatype Action = Hold | ClosePosition | BuyOrder(size: int)

  const PlainBuySignal := "BuySignal"
  const PlainSellSignal := "SellSignal"

  /** The two signal series `init` registers. */
  datatype Feeds = Feeds(buy: seq<bool>, sell: seq<bool>)

  /** One column choice of `init`: the combined column when the frame has
      it, else the strategy's own one; with neither, pandas raises
      KeyError for the plain name. */
  function SelectColumn(f: Frame, common: string, plain: string): (r: Result<seq<bool>>)
    ensures r.Ok? <==> common in f.columns || plain in f.columns
    ensures r.Ok? ==> r.value == if common in f.columns then f.columns[common] else f.columns[plain]
    ensures r.Err? ==> r.error == KeyError(plain)
  {
    if common in f.columns then Ok(f.columns[common])
    else if plain in f.columns then Ok(f.columns[plain])
    else Err(KeyError(plain))
  }

  /** `CustomStrategy.init`: the buy series is chosen first, then the sell
      series, each on its own. */
  function SelectSignals(f: Frame): (r: Result<Feeds>)
    ensures r.Ok? <==>
      (CommonBuySignal in f.columns || PlainBuySignal in f.columns) &&
      (CommonSellSignal in f.columns || PlainSellSignal in f.columns)
    ensures r.Err? && CommonBuySignal !in f.columns && PlainBuySignal !in f.columns ==>
      r.error == KeyError(PlainBuySignal)
    ensures r.Ok? ==> r.value.buy == SelectColumn(f, CommonBuySignal, PlainBuySignal).value
    ensures r.Ok? ==> r.value.sell == SelectColumn(f, CommonSellSignal, PlainSellSignal).value
  {
    var buy := SelectColumn(f, CommonBuySignal, PlainBuySignal);
    var sell := SelectColumn(f, CommonSellSignal, PlainSellSignal);
    if buy.Err? then Err(buy.error)
    else if sell.Err? then Err(sell.error)
    else Ok(Feeds(buy.value, sell.value))
  }

  /** After combine_signals the strategy always trades on the combined
      columns, whatever else the frame holds: a bar is a buy bar iff every
      selected strategy with a BuySignal column says buy there. */
  lemma CombinedFramesUseCommonColumns(f: Frame, tags: seq<string>)
    requires WellFormed(f)
    ensures var r := SelectSignals(CombineSignals(f, tags));
      && r.Ok? && |r.value.buy| == f.rows && |r.value.sell| == f.rows
      && (forall i :: 0 <= i < f.rows ==> (r.value.buy[i] <==> AllSelected(f, BuyPrefix, tags, i)))
      && (forall i :: 0 <= i < f.rows ==> (r.value.sell[i] <==> AllSelected(f, SellPrefix, tags, i)))
  {
  }

  /** A single strategy's frame, without combined columns, trades on its own
      BuySignal/SellSignal columns; the two choices are independent, so a
      frame with only CommonBuySignal mixes it with the plain SellSignal. */
  lemma ChoicesIndependent(f: Frame)
    requires CommonBuySignal in f.columns && CommonSellSignal !in f.columns && PlainSellSignal in f.columns
    ensures SelectSignals(f) == Ok(Feeds(f.columns[CommonBuySignal], f.columns[PlainSellSignal]))
  {
  }

  /** `equity // price`: the largest whole number of units the equity
      pays for. */
  function OrderSize(equity: real, price: real): (size: int)
    requires price > 0.0
    ensures size as real * price <= equity
    ensures equity < (size as real + 1.0) * price
  {
    FloorDivision(equity, price);
    (equity / price).Floor
  }

  lemma FloorDivision(equity: real, price: real)
    requires price > 0.0
    ensures var n := (equity / price).Floor;
      n as real * price <= equity < (n as real + 1.0) * price
  {
    var q := equity / price;
    var n := q.Floor;
    var m := n as real + 1.0;
    assert q * price == equity;
    assert n as real <= q < m;
    MultiplyMonotone(n as real, q, price);
    MultiplyMonotone(q, m, price);
    assert equity < m * price;
  }

  lemma MultiplyMonotone(a: real, b: real, c: real)
    requires a <= b && c > 0.0
    ensures a * c <= b * c
    ensures a < b ==> a * c < b * c
  {
  }

  /** `CustomStrategy.next` of the plain variant.  While long only the sell
      signal matters and closes the position; while flat only the buy
      signal matters and orders `equity // price` units, with no check that
      this is positive. */
  function StepImmediate(long: bool, buy: bool, sell: bool, equity: real, price: real): (a: Action)
    requires price > 0.0
    ensures a == ClosePosition <==> long && sell
    ensures a.BuyOrder? <==> !long && buy
    ensures a.BuyOrder? ==> a.size as real * price <= equity < (a.size as real + 1.0) * price
  {
    if long then (if sell then ClosePosition else Hold)
    else if buy then BuyOrder(OrderSize(equity, price))
    else Hold
  }

  /** Signals that are false on a bar leave that bar idle, in either state. */
  lemma QuietBarHolds(long: bool, equity: real, price: real)
    requires price > 0.0
    ensures StepImmediate(long, false, false, equity, price) == Hold
  {
  }

  /** A buy signal while long and a sell signal while flat are ignored. */
  lemma OffSideSignalIgnored(buy: bool, sell: bool, equity: real, price: real)
    requires price > 0.0
    ensures StepImmediate(true, buy, sell, equity, price) == StepImmediate(true, false, sell, equity, price)
    ensures StepImmediate(false, buy, sell, equity, price) == StepImmediate(false, buy, false, equity, price)
  {
  }

  // ------------------------------------------------------------ statistics

  /** The statistics the engine returns, by name. */
  type Stats = map<string, real>

  const Trades := "# Trades"
  const EquityFinal := "Equity Final [$]"
  const ReturnPct := "Return [%]"
  const SharpeRatio := "Sharpe Ratio"
  const BestTradePct := "Best Trade [%]"
  const WorstTradePct := "Worst Trade [%]"

  const DefaultCash := 10000.0

  /** How one engine run ends: with its statistics, or with
      ZeroDivisionError (the only exception the wrapper catches). */
  datatype EngineRun = Finished(stats: Stats) | ZeroDivision

  /** The record `backtest` substitutes for a run that divided by zero. */
  function FallbackStats(cash: real): (s: Stats)
    ensures s.Keys == {Trades, EquityFinal, ReturnPct, SharpeRatio}
    ensures s[Trades] == 0.0 && s[EquityFinal] == cash && s[ReturnPct] == 0.0 && s[SharpeRatio] == 0.0
  {
    map[Trades := 0.0, EquityFinal := cash, ReturnPct := 0.0, SharpeRatio := 0.0]
  }

  /** `backtest`: the engine's statistics, or the fallback record. */
  function Backtest(run: EngineRun, cash: real): (s: Stats)
    ensures run.Finished? ==> s == run.stats
    ensures run.ZeroDivision? ==> s == FallbackStats(cash)
  {
    match run
    case Finished(stats) => stats
    case ZeroDivision => FallbackStats(cash)
  }

  /** `stats.get(key, default)`. */
  function Get(s: Stats, key: string, default: real): real {
    if key in s then s[key] else default
  }

  datatype Report = Report(trades: real, returnPct: real, bestTrade: real, worstTrade: real)

  /** `extract_statistics` of the plain wrapper: missing entries count as
      0, and the best/worst trade percentages become amounts of the
      initial cash. */
  function ExtractStatistics(s: Stats, cash: real): (r: Report)
    ensures Trades !in s ==> r.trades == 0.0
    ensures ReturnPct !in s ==> r.returnPct == 0.0
    ensures BestTradePct !in s ==> r.bestTrade == 0.0
    ensures WorstTradePct !in s ==> r.worstTrade == 0.0
    ensures Trades in s ==> r.trades == s[Trades]
    ensures ReturnPct in s ==> r.returnPct == s[ReturnPct]
    ensures BestTradePct in s ==> r.bestTrade * 100.0 == s[BestTradePct] * cash
    ensures WorstTradePct in s ==> r.worstTrade * 100.0 == s[WorstTradePct] * cash
  {
    Report(
      Get(s, Trades, 0.0),
      Get(s, ReturnPct, 0.0),
      Get(s, BestTradePct, 0.0) * cash / 100.0,
      Get(s, WorstTradePct, 0.0) * cash / 100.0)
  }

  /** A run that divided by zero reports no trades, no return and no
      trade amounts. */
  lemma FallbackReportNeutral(cash: real)
    ensures ExtractStatistics(Backtest(ZeroDivision, cash), cash) == Report(0.0, 0.0, 0.0, 0.0)
  {
  }

  datatype RoiReport = RoiReport(report: Report, roi: real)

  /** `extract_statistics` of the forecast-gated wrappers: the same report
      plus ROI = (final - initial) / initial * 100, the final equity
      defaulting to the initial cash.  An initial cash of 0 divides by
      zero outside the engine, so the error escapes. */
  function ExtractStatisticsRoi(s: Stats, cash: real): (r: Result<RoiReport>)
    ensures r.Ok? <==> cash != 0.0
    ensures r.Err? ==> r.error == ZeroDivisionError
    ensures r.Ok? ==> r.value.report == ExtractStatistics(s, cash)
    ensures r.Ok? ==> r.value.roi * cash == (Get(s, EquityFinal, cash) - cash) * 100.0
    ensures r.Ok? && EquityFinal !in s ==> r.value.roi == 0.0
  {
    if cash == 0.0 then Err(ZeroDivisionError)
    else
      var final := Get(s, EquityFinal, cash);
      Ok(RoiReport(ExtractStatistics(s, cash), (final - cash) / cash * 100.0))
  }

  /** With a positive initial cash the ROI is positive exactly when the
      final equity exceeds it, negative exactly when it falls short. */
  lemma RoiSign(s: Stats, cash: real)
    requires cash > 0.0 && EquityFinal in s
    ensures var r := ExtractStatisticsRoi(s, cash).value;
      && (r.roi > 0.0 <==> s[EquityFinal] > cash)
      && (r.roi < 0.0 <==> s[EquityFinal] < cash)
  {
    var r := ExtractStatisticsRoi(s, cash).value;
    var d := s[EquityFinal] - cash;
    assert r.roi * cash == d * 100.0;
    if r.roi > 0.0 {
      MultiplyMonotone(0.0, r.roi, cash);
    }
    if r.roi < 0.0 {
      MultiplyMonotone(r.roi, 0.0, cash);
    }
    if d > 0.0 || d < 0.0 {
      assert r.roi != 0.0;
      if r.roi < 0.0 {
        MultiplyMonotone(r.roi, 0.0, cash);
      }
    }
  }

  /** The fallback record of a run that divided by zero has ROI 0 and an
      all-zero report, in every wrapper variant. */
  lemma FallbackRoiZero(cash: real)
    requires cash != 0.0
    ensures ExtractStatisticsRoi(Backtest(ZeroDivision, cash), cash) == Ok(RoiReport(Report(0.0, 0.0, 0.0, 0.0), 0.0))
  {
    var r := ExtractStatisticsRoi(FallbackStats(cash), cash);
    assert r.value.roi * cash == 0.0;
  }
}
