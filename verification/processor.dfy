/** `StrategyProcessor` (strategy_processor_model.py): re-parameterise the
    configured strategy by grid search when the bounds the caller supplied
    are truthy, then apply it to the price frame.

    The bounds are Python values that may be None; a bound is "truthy" when
    it is present and non-zero.  The backtest return of every parameter
    choice on the frame is an oracle, one per optimiser, and the MACD memo
    cache is threaded through explicitly.
 */
module Processor {
  import opened Wrappers
  import opened Series
  import Macd
  import Bollinger
  import Cci
  import Adx
  import Obv
  import opened Ranking
  import opened Optimize
  import Engine

  /** The strategy object the processor holds. */
  datatype Strategy =
    | MacdStrategy(macd: Macd.MacdConfig)
    | BollingerStrategy(bollinger: Bollinger.BollingerConfig)
    | CciStrategy(cci: Cci.CciConfig)
    | AdxStrategy(adx: Adx.AdxConfig)
    | ObvStrategy

  /** What the strategies' constructors guarantee: a CCI constant is always
      positive. */
  predicate ValidStrategy(s: Strategy) {
    s.CciStrategy? ==> s.cci.constant > 0.0
  }

  /** `min_length`, `max_length`, `min_threshold`, `max_threshold`. */
  datatype Bounds = Bounds(minLength: Option<int>, maxLength: Option<int>, minThreshold: Option<int>, maxThreshold: Option<int>)

  /** Python truthiness of an optional integer. */
  predicate Truthy(o: Option<int>) {
    o.Some? && o.value != 0
  }

  /** The backtest return of each parameter choice on the processor's frame. */
  datatype Backtests = Backtests(
    macd: MacdParams -> real,
    bollinger: BollingerParams -> real,
    cci: CciParams -> real,
    adx: AdxParams -> real)

  /** The attribute the Bollinger branch reads but the constructor never sets. */
  const MissingAttribute := "min_std_dev"

  /** Rows of the frame a strategy leaves behind: OBV turns an empty frame
      into a one-row frame, every other strategy keeps the frame's rows. */
  function Rows(s: Strategy, n: nat): nat {
    if s.ObvStrategy? then Obv.ObvLength(n) else n
  }

  /** `apply_strategy` of whichever strategy is held, reduced to its signal
      columns.  It fails exactly on a MACD span below 1 and a Bollinger
      window of 0; otherwise the signals cover every row of the resulting
      frame and, except for Bollinger Bands with a negative multiplier,
      never buy and sell on the same bar. */
  function ApplyStrategy(s: Strategy, bars: seq<Bar>, sd: Bollinger.Deviation): (r: Result<Signals>)
    requires ValidStrategy(s)
    ensures r.Err? <==>
      || (s.MacdStrategy? && (s.macd.fast < 1 || s.macd.slow < 1 || s.macd.signal < 1))
      || (s.BollingerStrategy? && s.bollinger.length == 0)
    ensures r.Ok? ==> Aligned(r.value, Rows(s, |bars|))
    ensures r.Ok? && !s.BollingerStrategy? ==> Exclusive(r.value)
    ensures r.Ok? && s.BollingerStrategy? && s.bollinger.multiplier >= 0.0 && Bollinger.NonNegative(sd) ==>
      Exclusive(r.value)
  {
    match s
    case MacdStrategy(cfg) =>
      (match Macd.Apply(Closes(bars), cfg)
       case Ok(v) => Ok(v.1)
       case Err(e) => Err(e))
    case BollingerStrategy(cfg) => Bollinger.Apply(Closes(bars), cfg, sd)
    case CciStrategy(cfg) => Ok(Cci.Apply(bars, cfg))
    case AdxStrategy(cfg) => Ok(Adx.Apply(bars, cfg))
    case ObvStrategy => Obv.ApplyBars(bars)
  }

  /** The strategy the processor holds after the optimisation step of
      `process_data`, with the memo cache after it. */
  datatype Configured = Configured(strategy: Strategy, cache: Cache)

  /** The optimisation step of `process_data`.  MACD and CCI are optimised
      when both lengths are truthy, ADX when all four bounds are, OBV never;
      the Bollinger branch raises AttributeError as soon as both lengths
      are truthy, because it reads `min_std_dev`, which is never set.  The
      MACD branch raises the optimiser's span ValueError when the search
      has to run with a minimum length below 1.  A re-built strategy gets
      every other parameter from its constructor's defaults. */
  function Configure(s: Strategy, b: Bounds, bt: Backtests, cache: Cache): (r: Result<Configured>)
    requires ValidStrategy(s)
    ensures r.Err? <==>
      || (s.BollingerStrategy? && Truthy(b.minLength) && Truthy(b.maxLength))
      || (s.MacdStrategy? && Truthy(b.minLength) && Truthy(b.maxLength)
          && MacdKey(b.minLength.value, b.maxLength.value) !in cache
          && b.minLength.value < 1 && b.minLength.value < b.maxLength.value)
    ensures r.Err? && s.BollingerStrategy? ==> r.error == AttributeError(MissingAttribute)
    ensures r.Err? && s.MacdStrategy? ==> r.error == ValueError(Macd.SpanError)
    ensures r.Ok? ==> ValidStrategy(r.value.strategy)
    ensures r.Ok? && !s.MacdStrategy? ==> r.value.cache == cache
    ensures r.Ok? ==> r.value.cache.Keys >= cache.Keys
    ensures r.Ok? && !(Truthy(b.minLength) && Truthy(b.maxLength)) ==> r.value == Configured(s, cache)
    ensures s.ObvStrategy? ==> r == Ok(Configured(s, cache))
    ensures s.AdxStrategy? && !(Truthy(b.minThreshold) && Truthy(b.maxThreshold)) ==> r == Ok(Configured(s, cache))
    ensures r.Ok? ==> (s.MacdStrategy? <==> r.value.strategy.MacdStrategy?)
    ensures r.Ok? ==> (s.CciStrategy? <==> r.value.strategy.CciStrategy?)
    ensures r.Ok? ==> (s.AdxStrategy? <==> r.value.strategy.AdxStrategy?)
    ensures r.Ok? && s.CciStrategy? && Truthy(b.minLength) && Truthy(b.maxLength) ==>
      r.value.strategy.cci.constant == Cci.DefaultConstant
  {
    var lengths := Truthy(b.minLength) && Truthy(b.maxLength);
    match s
    case MacdStrategy(_) =>
      if lengths then
        match OptimizeMacd(cache, b.minLength.value, b.maxLength.value, bt.macd)
        case Err(e) => Err(e)
        case Ok(run) =>
          Ok(Configured(MacdStrategy(Macd.MacdConfig(run.best.fast, run.best.slow, Macd.Default.signal)), run.cache))
      else Ok(Configured(s, cache))
    case BollingerStrategy(_) =>
      if lengths then Err(AttributeError(MissingAttribute)) else Ok(Configured(s, cache))
    case CciStrategy(_) =>
      if lengths then
        var o := OptimizeCci(b.minLength.value, b.maxLength.value, bt.cci);
        Ok(Configured(CciStrategy(Cci.New(o.best.length as real, Cci.DefaultConstant)), cache))
      else Ok(Configured(s, cache))
    case AdxStrategy(_) =>
      if lengths && Truthy(b.minThreshold) && Truthy(b.maxThreshold) then
        var o := OptimizeAdx(b.minLength.value, b.maxLength.value, b.minThreshold.value, b.maxThreshold.value, bt.adx);
        Ok(Configured(AdxStrategy(Adx.New(o.best.length as real, o.best.threshold as real)), cache))
      else Ok(Configured(s, cache))
    case ObvStrategy => Ok(Configured(s, cache))
  }

  /** What `process_data` leaves behind: the strategy and the frame's
      signals, or the exception it raised, and the memo cache (which keeps a
      MACD search even when applying the re-built strategy then fails). */
  datatype Processing = Processing(outcome: Result<(Strategy, Signals)>, cache: Cache)

  /** `process_data`: configure, then apply. */
  function ProcessData(s: Strategy, bars: seq<Bar>, b: Bounds, bt: Backtests, sd: Bollinger.Deviation, cache: Cache): (r: Processing)
    requires ValidStrategy(s)
    ensures Configure(s, b, bt, cache).Err? ==> r == Processing(Err(Configure(s, b, bt, cache).error), cache)
    ensures Configure(s, b, bt, cache).Ok? ==>
      var c := Configure(s, b, bt, cache).value;
      && r.cache == c.cache
      && (r.outcome.Ok? <==> ApplyStrategy(c.strategy, bars, sd).Ok?)
      && (r.outcome.Ok? ==> r.outcome.value == (c.strategy, ApplyStrategy(c.strategy, bars, sd).value))
      && (r.outcome.Err? ==> r.outcome.error == ApplyStrategy(c.strategy, bars, sd).error)
    ensures r.outcome.Ok? ==> Aligned(r.outcome.value.1, Rows(s, |bars|))
    ensures r.outcome.Ok? && !s.BollingerStrategy? ==> Exclusive(r.outcome.value.1)
    ensures s.CciStrategy? || s.AdxStrategy? || s.ObvStrategy? ==> r.outcome.Ok?
    ensures s.BollingerStrategy? ==>
      (r.outcome.Err? <==> (Truthy(b.minLength) && Truthy(b.maxLength)) || s.bollinger.length == 0)
  {
    match Configure(s, b, bt, cache)
    case Err(e) => Processing(Err(e), cache)
    case Ok(c) =>
      match ApplyStrategy(c.strategy, bars, sd)
      case Ok(signals) => Processing(Ok((c.strategy, signals)), c.cache)
      case Err(e) => Processing(Err(e), c.cache)
  }

  /** Without truthy length bounds the held strategy is applied as it is,
      and the cache is untouched. */
  lemma UnboundedAppliesAsIs(s: Strategy, bars: seq<Bar>, b: Bounds, bt: Backtests, sd: Bollinger.Deviation, cache: Cache)
    requires ValidStrategy(s)
    requires !Truthy(b.minLength) || !Truthy(b.maxLength)
    ensures var r := ProcessData(s, bars, b, bt, sd, cache);
      && r.cache == cache
      && (r.outcome.Ok? <==> ApplyStrategy(s, bars, sd).Ok?)
      && (r.outcome.Ok? ==> r.outcome.value == (s, ApplyStrategy(s, bars, sd).value))
  {
  }

  /** The Bollinger branch cannot be optimised: with both lengths truthy it
      raises before anything is applied. */
  lemma BollingerBoundsRaise(cfg: Bollinger.BollingerConfig, bars: seq<Bar>, b: Bounds, bt: Backtests, sd: Bollinger.Deviation, cache: Cache)
    requires Truthy(b.minLength) && Truthy(b.maxLength)
    ensures ProcessData(BollingerStrategy(cfg), bars, b, bt, sd, cache) ==
      Processing(Err(AttributeError(MissingAttribute)), cache)
  {
  }

  /** With a fresh cache and at least two lengths from 1 up, the MACD
      branch trades on a pair of the triangle min <= fast < slow <= max with
      the largest backtest return, ties going to the pair enumerated first,
      with the default signal span 9; the cache then remembers that pair. */
  lemma MacdOptimised(cfg: Macd.MacdConfig, b: Bounds, bt: Backtests, cache: Cache)
    requires Truthy(b.minLength) && Truthy(b.maxLength)
    requires 1 <= b.minLength.value < b.maxLength.value
    requires MacdKey(b.minLength.value, b.maxLength.value) !in cache
    ensures var lo := b.minLength.value;
      var hi := b.maxLength.value;
      var c := Configure(MacdStrategy(cfg), b, bt, cache).value;
      var m := c.strategy.macd;
      && m.signal == 9
      && lo <= m.fast < m.slow <= hi
      && (forall f, s :: lo <= f < s <= hi ==> bt.macd(MacdParams(f, s)) <= bt.macd(MacdParams(m.fast, m.slow)))
      && (forall f, s :: (lo <= f < s <= hi && Grid.LexLess((f, s), (m.fast, m.slow))) ==>
            bt.macd(MacdParams(f, s)) < bt.macd(MacdParams(m.fast, m.slow)))
      && c.cache == cache[MacdKey(lo, hi) := MacdParams(m.fast, m.slow)]
  {
  }

  /** A fresh MACD search from a minimum length below 1 raises the span
      ValueError of its first pair: nothing is applied and the cache keeps
      no entry for the bounds. */
  lemma MacdSpanRaises(cfg: Macd.MacdConfig, bars: seq<Bar>, b: Bounds, bt: Backtests, sd: Bollinger.Deviation, cache: Cache)
    requires Truthy(b.minLength) && Truthy(b.maxLength)
    requires b.minLength.value < 1 && b.minLength.value < b.maxLength.value
    requires MacdKey(b.minLength.value, b.maxLength.value) !in cache
    ensures ProcessData(MacdStrategy(cfg), bars, b, bt, sd, cache) ==
      Processing(Err(ValueError(Macd.SpanError)), cache)
  {
  }

  /** A remembered MACD answer is reused as it is, whatever the returns on
      the current frame. */
  lemma MacdCached(cfg: Macd.MacdConfig, b: Bounds, bt: Backtests, cache: Cache)
    requires Truthy(b.minLength) && Truthy(b.maxLength)
    requires MacdKey(b.minLength.value, b.maxLength.value) in cache
    ensures var p := cache[MacdKey(b.minLength.value, b.maxLength.value)];
      Configure(MacdStrategy(cfg), b, bt, cache) ==
        Ok(Configured(MacdStrategy(Macd.MacdConfig(p.fast, p.slow, 9)), cache))
  {
  }

  /** With positive length bounds the CCI branch trades on the shortest
      length with the largest return, and the constant reverts to 0.015. */
  lemma CciOptimised(cfg: Cci.CciConfig, b: Bounds, bt: Backtests, cache: Cache)
    requires cfg.constant > 0.0
    requires Truthy(b.minLength) && Truthy(b.maxLength)
    requires 1 <= b.minLength.value <= b.maxLength.value
    ensures var lo := b.minLength.value;
      var hi := b.maxLength.value;
      var c := Configure(CciStrategy(cfg), b, bt, cache).value.strategy.cci;
      && c.constant == Cci.DefaultConstant
      && lo <= c.length <= hi
      && (forall l :: lo <= l <= hi ==> bt.cci(CciParams(l)) <= bt.cci(CciParams(c.length)))
      && (forall l :: lo <= l < c.length ==> bt.cci(CciParams(l)) < bt.cci(CciParams(c.length)))
  {
    var o := OptimizeCci(b.minLength.value, b.maxLength.value, bt.cci);
    var c := Cci.New(o.best.length as real, Cci.DefaultConstant);
    assert c.length == o.best.length;
  }

  /** Whatever the truthy length bounds, the re-built CCI strategy has the
      default constant 0.015.  With min > max the search has no candidate
      and the fallback length is min itself, which the constructor turns
      into 20 when it is not positive. */
  lemma CciRebuilt(cfg: Cci.CciConfig, b: Bounds, bt: Backtests, cache: Cache)
    requires cfg.constant > 0.0
    requires Truthy(b.minLength) && Truthy(b.maxLength)
    ensures var c := Configure(CciStrategy(cfg), b, bt, cache).value.strategy.cci;
      var lo := b.minLength.value;
      && c.constant == Cci.DefaultConstant
      && (b.maxLength.value < lo && lo >= 1 ==> c.length == lo)
      && (b.maxLength.value < lo && lo <= 0 ==> c.length == Cci.DefaultLength)
  {
  }

  /** With all four bounds truthy, a positive minimum length and a
      non-empty table, the ADX branch trades on the (length, threshold)
      with the largest return, ties going to the one enumerated first. */
  lemma AdxOptimised(cfg: Adx.AdxConfig, b: Bounds, bt: Backtests, cache: Cache)
    requires Truthy(b.minLength) && Truthy(b.maxLength) && Truthy(b.minThreshold) && Truthy(b.maxThreshold)
    requires 1 <= b.minLength.value <= b.maxLength.value
    requires b.minThreshold.value <= b.maxThreshold.value
    ensures var minL := b.minLength.value;
      var maxL := b.maxLength.value;
      var minT := b.minThreshold.value;
      var maxT := b.maxThreshold.value;
      var a := Configure(AdxStrategy(cfg), b, bt, cache).value.strategy.adx;
      exists best: AdxParams ::
        && a.length == best.length && a.threshold == best.threshold as real
        && minL <= best.length <= maxL && minT <= best.threshold <= maxT
        && (forall l, t :: minL <= l <= maxL && minT <= t <= maxT ==>
              bt.adx(AdxParams(l, t)) <= bt.adx(best))
        && (forall l, t :: (minL <= l <= maxL && minT <= t <= maxT && Grid.LexLess((l, t), (best.length, best.threshold))) ==>
              bt.adx(AdxParams(l, t)) < bt.adx(best))
  {
    var minL := b.minLength.value;
    var maxL := b.maxLength.value;
    var minT := b.minThreshold.value;
    var maxT := b.maxThreshold.value;
    var o := OptimizeAdx(minL, maxL, minT, maxT, bt.adx);
    var a := Adx.New(o.best.length as real, o.best.threshold as real);
    assert bt.adx(AdxParams(minL, minT)) <= bt.adx(o.best);
    assert a.length == o.best.length && a.threshold == o.best.threshold as real;
  }

  /** `StrategyProcessor.backtest`: the plain wrapper's statistics for the
      engine's run with the default 10000 of cash.  A run that divided by
      zero reports nothing. */
  function Backtest(run: Engine.EngineRun): (r: Engine.Report)
    ensures run.ZeroDivision? ==> r == Engine.Report(0.0, 0.0, 0.0, 0.0)
    ensures run.Finished? ==> r == Engine.ExtractStatistics(run.stats, Engine.DefaultCash)
    ensures run.Finished? && Engine.Trades in run.stats ==> r.trades == run.stats[Engine.Trades]
    ensures run.Finished? && Engine.ReturnPct in run.stats ==> r.returnPct == run.stats[Engine.ReturnPct]
    ensures run.Finished? && Engine.BestTradePct in run.stats ==>
      r.bestTrade == run.stats[Engine.BestTradePct] * 100.0
    ensures run.Finished? && Engine.WorstTradePct in run.stats ==>
      r.worstTrade == run.stats[Engine.WorstTradePct] * 100.0
    ensures run.Finished? && Engine.Trades !in run.stats ==> r.trades == 0.0
    ensures run.Finished? && Engine.ReturnPct !in run.stats ==> r.returnPct == 0.0
    ensures run.Finished? && Engine.BestTradePct !in run.stats ==> r.bestTrade == 0.0
    ensures run.Finished? && Engine.WorstTradePct !in run.stats ==> r.worstTrade == 0.0
  {
    Engine.FallbackReportNeutral(Engine.DefaultCash);
    Engine.ExtractStatistics(Engine.Backtest(run, Engine.DefaultCash), Engine.DefaultCash)
  }
}
