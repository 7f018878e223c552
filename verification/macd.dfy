/** MACD strategy (strategies/macd.py).

    Both the fast/slow lines and the signal line use the same "double"
    smoothing 2*s1 - s2, where s1 is pandas' ewm(span).mean() of the input and
    s2 the same smoothing applied to s1.  MACD = fast - slow, Signal is the
    double smoothing of MACD, Histogram = MACD - Signal.  Buy on an upward
    crossing of MACD over Signal, Sell on a downward crossing; bar 0 compares
    against the shifted NaN row and never signals.
 */
module Macd {
  import opened Wrappers
  import opened Series

  /** The source stores the three spans without any validation. */
  datatype MacdConfig = MacdConfig(fast: int, slow: int, signal: int)

  const Default := MacdConfig(12, 26, 9)

  /** pandas ewm(span) with adjust=True weighs the value k bars back by
      decay^k, where decay = 1 - 2/(span + 1). */
  function Decay(span: int): (d: real)
    requires span >= 1
    ensures 0.0 <= d < 1.0
  {
    (span - 1) as real / (span + 1) as real
  }

  /** Weighted sum of the values up to bar t: x_t + decay * (sum up to t-1). */
  function EwmNum(xs: seq<real>, d: real, t: nat): real
    requires t < |xs|
  {
    if t == 0 then xs[0] else xs[t] + d * EwmNum(xs, d, t - 1)
  }

  /** Sum of the weights up to bar t; never below 1. */
  function EwmDen(d: real, t: nat): (r: real)
    requires 0.0 <= d
    ensures r >= 1.0
  {
    if t == 0 then 1.0 else 1.0 + d * EwmDen(d, t - 1)
  }

  /** `Series.ewm(span=span).mean()` on a NaN-free series. */
  function Ewm(xs: seq<real>, span: int): (r: seq<real>)
    requires span >= 1
    ensures |r| == |xs|
  {
    seq(|xs|, t requires 0 <= t < |xs| =>
      EwmNum(xs, Decay(span), t) / EwmDen(Decay(span), t))
  }

  /** `ema` and `calculate_signal`: 2 * ewm(x) - ewm(ewm(x)). */
  function DoubleSmooth(xs: seq<real>, span: int): (r: seq<real>)
    requires span >= 1
    ensures |r| == |xs|
  {
    var s1 := Ewm(xs, span);
    var s2 := Ewm(s1, span);
    seq(|xs|, t requires 0 <= t < |xs| => 2.0 * s1[t] - s2[t])
  }

  datatype MacdLines = MacdLines(macd: seq<real>, signal: seq<real>, histogram: seq<real>)

  /** The MACD, Signal and Histogram columns. */
  function Lines(close: seq<real>, cfg: MacdConfig): (r: MacdLines)
    requires cfg.fast >= 1 && cfg.slow >= 1 && cfg.signal >= 1
    ensures |r.macd| == |close| && |r.signal| == |close| && |r.histogram| == |close|
    ensures forall i :: 0 <= i < |close| ==> r.histogram[i] == r.macd[i] - r.signal[i]
  {
    var fast := DoubleSmooth(close, cfg.fast);
    var slow := DoubleSmooth(close, cfg.slow);
    var macd := seq(|close|, i requires 0 <= i < |close| => fast[i] - slow[i]);
    var signal := DoubleSmooth(macd, cfg.signal);
    var histogram := seq(|close|, i requires 0 <= i < |close| => macd[i] - signal[i]);
    MacdLines(macd, signal, histogram)
  }

  /** The crossover rule: Buy when MACD was at or below Signal on the previous
      bar and is above it now; Sell on the mirror-image crossing. */
  function Crossovers(macd: seq<real>, signal: seq<real>): (r: Signals)
    requires |macd| == |signal|
    ensures Aligned(r, |macd|) && Exclusive(r)
    ensures |macd| > 0 ==> !r.buy[0] && !r.sell[0]
  {
    var n := |macd|;
    Signals(
      seq(n, i requires 0 <= i < n => i > 0 && macd[i] > signal[i] && macd[i - 1] <= signal[i - 1]),
      seq(n, i requires 0 <= i < n => i > 0 && macd[i] < signal[i] && macd[i - 1] >= signal[i - 1]))
  }

  const SpanError := "span must satisfy: span >= 1"

  /** apply_strategy.  pandas rejects a span below 1, so a configuration
      with such a span raises; otherwise the signals are the histogram's
      sign changes: Buy where the histogram turns positive from at most zero,
      Sell where it turns negative from at least zero, never both, and never
      on bar 0. */
  function Apply(close: seq<real>, cfg: MacdConfig): (r: Result<(MacdLines, Signals)>)
    ensures r.Ok? <==> cfg.fast >= 1 && cfg.slow >= 1 && cfg.signal >= 1
    ensures r.Err? ==> r.error == ValueError(SpanError)
    ensures r.Ok? ==> Aligned(r.value.1, |close|) && |r.value.0.histogram| == |close|
    ensures r.Ok? ==> |r.value.0.macd| == |close| && |r.value.0.signal| == |close|
    ensures r.Ok? ==> Exclusive(r.value.1)
    ensures r.Ok? && |close| > 0 ==> !r.value.1.buy[0] && !r.value.1.sell[0]
    ensures r.Ok? ==> forall i :: 0 <= i < |close| ==>
      r.value.0.histogram[i] == r.value.0.macd[i] - r.value.0.signal[i]
    ensures r.Ok? ==> forall i :: 1 <= i < |close| ==>
      (r.value.1.buy[i] <==> r.value.0.histogram[i] > 0.0 && r.value.0.histogram[i - 1] <= 0.0)
    ensures r.Ok? ==> forall i :: 1 <= i < |close| ==>
      (r.value.1.sell[i] <==> r.value.0.histogram[i] < 0.0 && r.value.0.histogram[i - 1] >= 0.0)
  {
    if cfg.fast < 1 || cfg.slow < 1 || cfg.signal < 1 then Err(ValueError(SpanError))
    else
      var lines := Lines(close, cfg);
      var s := Crossovers(lines.macd, lines.signal);
      assert forall i :: 1 <= i < |close| ==>
        (s.buy[i] <==> lines.histogram[i] > 0.0 && lines.histogram[i - 1] <= 0.0);
      Ok((lines, s))
  }

  /** The weighted sum of a constant series is that constant times the sum
      of the weights. */
  lemma {:induction false} EwmNumConstant(xs: seq<real>, d: real, t: nat, c: real)
    requires 0.0 <= d && t < |xs|
    requires forall k :: 0 <= k < |xs| ==> xs[k] == c
    ensures EwmNum(xs, d, t) == c * EwmDen(d, t)
  {
    if t > 0 {
      EwmNumConstant(xs, d, t - 1, c);
      calc {
        EwmNum(xs, d, t);
        c + d * (c * EwmDen(d, t - 1));
        c * (1.0 + d * EwmDen(d, t - 1));
      }
    }
  }

  /** Exponential smoothing leaves a constant series unchanged. */
  lemma EwmConstant(xs: seq<real>, span: int, c: real)
    requires span >= 1
    requires forall k :: 0 <= k < |xs| ==> xs[k] == c
    ensures forall t :: 0 <= t < |xs| ==> Ewm(xs, span)[t] == c
  {
    forall t | 0 <= t < |xs|
      ensures Ewm(xs, span)[t] == c
    {
      EwmNumConstant(xs, Decay(span), t, c);
    }
  }

  /** So does the double smoothing 2*s1 - s2. */
  lemma DoubleSmoothConstant(xs: seq<real>, span: int, c: real)
    requires span >= 1
    requires forall k :: 0 <= k < |xs| ==> xs[k] == c
    ensures forall t :: 0 <= t < |xs| ==> DoubleSmooth(xs, span)[t] == c
  {
    EwmConstant(xs, span, c);
    EwmConstant(Ewm(xs, span), span, c);
  }

  /** On a flat close MACD and Signal are both identically 0, nothing ever
      crosses, and the strategy issues no signal at all. */
  lemma FlatCloseSilent(close: seq<real>, cfg: MacdConfig, c: real)
    requires cfg.fast >= 1 && cfg.slow >= 1 && cfg.signal >= 1
    requires forall k :: 0 <= k < |close| ==> close[k] == c
    ensures Apply(close, cfg).Ok? && Silent(Apply(close, cfg).value.1)
  {
    var lines := Lines(close, cfg);
    DoubleSmoothConstant(close, cfg.fast, c);
    DoubleSmoothConstant(close, cfg.slow, c);
    assert forall k :: 0 <= k < |close| ==> lines.macd[k] == 0.0;
    DoubleSmoothConstant(lines.macd, cfg.signal, 0.0);
  }
}
