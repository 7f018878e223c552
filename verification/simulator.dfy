/** The bar-by-bar replay of `CustomStrategy.next` in each of the three
    wrapper variants, as seen by the strategy: its position state, the
    actions it issues and the forecasts it asks for.

    The engine's fill model is not part of this: an issued order is taken
    to hold before the next bar (a close leaves the position flat, a buy of
    at least one unit makes it long), and the equity the strategy reads on
    each bar is an input.
 */
module Simulator {
  import opened Wrappers
  import opened Series
  import opened Engine
  import opened Gating

  /** Which wrapper's `next` runs. */
  datatype Policy = Immediate | ForecastGated | DeltaGated

  /** The history length each gated variant requests. */
  function Lookback(p: Policy): nat {
    match p
    case Immediate => 0
    case ForecastGated => ForecastLookback
    case DeltaGated => DeltaLookback
  }

  /** What `backtest` is called with besides the frame. */
  datatype Context = Context(ticker: string, interval: string, forecaster: Forecaster)

  /** The bars the engine reveals, the timestamps of their index, the
      signal feeds `init` registered and the engine's equity on each bar. */
  datatype Market = Market(bars: seq<Bar>, times: seq<int>, feeds: Feeds, equity: seq<real>)

  predicate ValidMarket(m: Market) {
    && |m.times| == |m.bars| && |m.feeds.buy| == |m.bars|
    && |m.feeds.sell| == |m.bars| && |m.equity| == |m.bars|
    && forall i :: 0 <= i < |m.bars| ==> m.bars[i].close > 0.0
  }

  /** The outcome of one bar: the action and the forecast request, if any. */
  datatype Decision = Decision(action: Action, request: Option<ForecastRequest>)

  /** One call of `next` on bar i, the strategy being long or flat. */
  function Decide(p: Policy, ctx: Context, m: Market, i: nat, long: bool): (d: Decision)
    requires ValidMarket(m) && i < |m.bars|
    ensures d.request.Some? <==> p != Immediate && Consults(long, m.feeds.buy[i], m.feeds.sell[i])
    ensures d.request.Some? ==>
      d.request.value == Request(ctx.ticker, m.times[i], ctx.interval, Lookback(p))
    ensures d.action != Hold ==> Consults(long, m.feeds.buy[i], m.feeds.sell[i])
    ensures d.action == ClosePosition ==> long
    ensures d.action.BuyOrder? ==> !long
  {
    var buy := m.feeds.buy[i];
    var sell := m.feeds.sell[i];
    var price := m.bars[i].close;
    var equity := m.equity[i];
    match p
    case Immediate =>
      Decision(StepImmediate(long, buy, sell, equity, price), None)
    case ForecastGated =>
      if Consults(long, buy, sell) then
        var q := Request(ctx.ticker, m.times[i], ctx.interval, ForecastLookback);
        Decision(GateForecast(long, buy, sell, ctx.forecaster(q), equity, price), Some(q))
      else Decision(Hold, None)
    case DeltaGated =>
      var threshold := AdaptiveThreshold(m.bars[..i + 1]);
      if Consults(long, buy, sell) then
        var q := Request(ctx.ticker, m.times[i], ctx.interval, DeltaLookback);
        Decision(GateDelta(long, buy, sell, ctx.forecaster(q), equity, price, threshold), Some(q))
      else Decision(Hold, None)
  }

  /** Whether the strategy holds a position after an action. */
  function After(long: bool, a: Action): bool {
    match a
    case Hold => long
    case ClosePosition => false
    case BuyOrder(size) => if size >= 1 then true else long
  }

  /** The replay of the first n bars: the position before each bar, the
      decisions, and the final position. */
  datatype Trace = Trace(positions: seq<bool>, decisions: seq<Decision>, long: bool)

  function Replay(p: Policy, ctx: Context, m: Market, n: nat): (t: Trace)
    requires ValidMarket(m) && n <= |m.bars|
    ensures |t.positions| == n && |t.decisions| == n
    ensures n == 0 ==> !t.long
  {
    if n == 0 then Trace([], [], false)
    else
      var prev := Replay(p, ctx, m, n - 1);
      var d := Decide(p, ctx, m, n - 1, prev.long);
      Trace(prev.positions + [prev.long], prev.decisions + [d], After(prev.long, d.action))
  }

  /** Opened positions: buy orders of at least one unit. */
  function Opens(ds: seq<Decision>): nat {
    if |ds| == 0 then 0
    else Opens(ds[..|ds| - 1]) + (if ds[|ds| - 1].action.BuyOrder? && ds[|ds| - 1].action.size >= 1 then 1 else 0)
  }

  function Closes(ds: seq<Decision>): nat {
    if |ds| == 0 then 0
    else Closes(ds[..|ds| - 1]) + (if ds[|ds| - 1].action == ClosePosition then 1 else 0)
  }

  /** Positions alternate: every close follows an open, so the opens
      exceed the closes by one exactly when the strategy ends long. */
  lemma {:induction false} OpensAndClosesAlternate(p: Policy, ctx: Context, m: Market, n: nat)
    requires ValidMarket(m) && n <= |m.bars|
    ensures var t := Replay(p, ctx, m, n);
      Opens(t.decisions) == Closes(t.decisions) + (if t.long then 1 else 0)
  {
    if n > 0 {
      OpensAndClosesAlternate(p, ctx, m, n - 1);
      var t := Replay(p, ctx, m, n);
      assert t.decisions[..n - 1] == Replay(p, ctx, m, n - 1).decisions;
    }
  }

  /** Each recorded position is the one the replay held before that bar,
      and every decision is the decision for that bar in that position. */
  lemma {:induction false} ReplayDecisions(p: Policy, ctx: Context, m: Market, n: nat)
    requires ValidMarket(m) && n <= |m.bars|
    ensures var t := Replay(p, ctx, m, n);
      forall i :: 0 <= i < n ==> t.decisions[i] == Decide(p, ctx, m, i, t.positions[i])
    ensures var t := Replay(p, ctx, m, n);
      forall i :: 0 <= i < n ==> t.positions[i] == Replay(p, ctx, m, i).long
  {
    if n > 0 {
      ReplayDecisions(p, ctx, m, n - 1);
      var prev := Replay(p, ctx, m, n - 1);
      var t := Replay(p, ctx, m, n);
      assert t.decisions == prev.decisions + [Decide(p, ctx, m, n - 1, prev.long)];
      assert t.positions == prev.positions + [prev.long];
      forall i | 0 <= i < n
        ensures t.decisions[i] == Decide(p, ctx, m, i, t.positions[i])
        ensures t.positions[i] == Replay(p, ctx, m, i).long
      {
        if i < n - 1 {
          assert t.decisions[i] == prev.decisions[i];
          assert t.positions[i] == prev.positions[i];
        }
      }
    }
  }

  /** With silent signal feeds nothing ever happens: every bar holds, no
      forecast is requested and the strategy stays flat. */
  lemma {:induction false} SilentFeedsIdle(p: Policy, ctx: Context, m: Market, n: nat)
    requires ValidMarket(m) && n <= |m.bars|
    requires forall i :: 0 <= i < |m.bars| ==> !m.feeds.buy[i] && !m.feeds.sell[i]
    ensures var t := Replay(p, ctx, m, n);
      && !t.long
      && forall i :: 0 <= i < n ==> t.decisions[i] == Decision(Hold, None)
  {
    if n > 0 {
      SilentFeedsIdle(p, ctx, m, n - 1);
    }
  }

  /** The plain variant never asks for a forecast. */
  lemma {:induction false} ImmediateRequestsNothing(ctx: Context, m: Market, n: nat)
    requires ValidMarket(m) && n <= |m.bars|
    ensures forall i :: 0 <= i < n ==> Replay(Immediate, ctx, m, n).decisions[i].request.None?
  {
    if n > 0 {
      ImmediateRequestsNothing(ctx, m, n - 1);
      var prev := Replay(Immediate, ctx, m, n - 1);
      var t := Replay(Immediate, ctx, m, n);
      assert t.decisions == prev.decisions + [Decide(Immediate, ctx, m, n - 1, prev.long)];
    }
  }

  /** Every forecast a gated variant asks for ends on the signal bar's day
      and spans the variant's lookback. */
  lemma RequestsSpanLookback(p: Policy, ctx: Context, m: Market, n: nat)
    requires ValidMarket(m) && n <= |m.bars|
    ensures var t := Replay(p, ctx, m, n);
      forall i :: 0 <= i < n && t.decisions[i].request.Some? ==>
        && t.decisions[i].request.value.endDay == DayOf(m.times[i])
        && t.decisions[i].request.value.endDay - t.decisions[i].request.value.startDay == Lookback(p)
  {
    ReplayDecisions(p, ctx, m, n);
  }

  /** A forecaster that is always unavailable keeps a gated strategy out of
      the market for the whole run. */
  lemma {:induction false} NoForecastNoTrades(p: Policy, ctx: Context, m: Market, n: nat)
    requires ValidMarket(m) && n <= |m.bars| && p != Immediate
    requires forall q :: ctx.forecaster(q) == None
    ensures var t := Replay(p, ctx, m, n);
      && !t.long
      && forall i :: 0 <= i < n ==> t.decisions[i].action == Hold
  {
    if n > 0 {
      NoForecastNoTrades(p, ctx, m, n - 1);
      var prev := Replay(p, ctx, m, n - 1);
      var i := n - 1;
      var price := m.bars[i].close;
      if p == DeltaGated {
        var threshold := AdaptiveThreshold(m.bars[..i + 1]);
        var q := Request(ctx.ticker, m.times[i], ctx.interval, DeltaLookback);
        assert GateDelta(prev.long, m.feeds.buy[i], m.feeds.sell[i], None, m.equity[i], price, threshold) == Hold;
      }
    }
  }
}
