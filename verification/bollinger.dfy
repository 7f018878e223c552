/** Bollinger Bands strategy (strategies/bollinger.py).

    Middle band = min_periods=1 rolling mean of Close over `length` bars;
    upper/lower = middle +/- multiplier * rolling sample standard deviation.
    The sample standard deviation of a single value is NaN, so the bands are
    NaN on bar 0 (and on every bar when length is 1).  Buy when
    Close < LowerBand, Sell when Close > UpperBand.

    The square root inside the standard deviation is not modelled: it is a
    parameter `sd` applied to each window of at least two closes.
 */
module Bollinger {
  import opened Wrappers
  import opened Series

  datatype BollingerConfig = BollingerConfig(length: nat, multiplier: real)

  const DefaultLength := 20

  /** `__init__`: a non-positive length becomes 20, a positive one is
      truncated by int(); the multiplier is taken as given. */
  function New(length: real, multiplier: real): (c: BollingerConfig)
    ensures length <= 0.0 ==> c.length == DefaultLength
    ensures length > 0.0 ==> c.length as real <= length < c.length as real + 1.0
    ensures c.multiplier == multiplier
  {
    BollingerConfig(if length > 0.0 then length.Floor else DefaultLength, multiplier)
  }

  /** The rolling sample standard deviation of a window of closes. */
  type Deviation = seq<real> -> real

  ghost predicate NonNegative(sd: Deviation) {
    forall w :: sd(w) >= 0.0
  }

  datatype Bands = Bands(middle: seq<real>, upper: seq<Option<real>>, lower: seq<Option<real>>)

  /** One row of `rolling(window=length, min_periods=1).std()`: NaN while
      the window holds a single value. */
  function StdAt(close: seq<real>, length: nat, sd: Deviation, i: nat): (r: Option<real>)
    requires i < |close|
    ensures r.Some? <==> MinNat(i + 1, length) >= 2
    ensures r.Some? ==> r.value == sd(Window(close, length, i))
  {
    var w := Window(close, length, i);
    if |w| >= 2 then Some(sd(w)) else None
  }

  /** `rolling_mean + (rolling_std * k)`: NaN where the deviation is. */
  function Above(mean: real, std: Option<real>, k: real): Option<real> {
    if std.Some? then Some(mean + std.value * k) else None
  }

  /** `rolling_mean - (rolling_std * k)`: NaN where the deviation is. */
  function Below(mean: real, std: Option<real>, k: real): Option<real> {
    if std.Some? then Some(mean - std.value * k) else None
  }

  /** `calculate_bollinger_bands`. */
  function CalculateBands(close: seq<real>, cfg: BollingerConfig, sd: Deviation): (b: Bands)
    requires cfg.length >= 1
    ensures |b.middle| == |close| && |b.upper| == |close| && |b.lower| == |close|
    ensures forall i :: 0 <= i < |close| ==> b.middle[i] == Mean(Window(close, cfg.length, i))
    ensures forall i :: 0 <= i < |close| ==>
      && b.upper[i] == Above(b.middle[i], StdAt(close, cfg.length, sd, i), cfg.multiplier)
      && b.lower[i] == Below(b.middle[i], StdAt(close, cfg.length, sd, i), cfg.multiplier)
  {
    var middle := RollingMean(close, cfg.length);
    Bands(
      middle,
      seq(|close|, i requires 0 <= i < |close| =>
        Above(middle[i], StdAt(close, cfg.length, sd, i), cfg.multiplier)),
      seq(|close|, i requires 0 <= i < |close| =>
        Below(middle[i], StdAt(close, cfg.length, sd, i), cfg.multiplier)))
  }

  /** With a non-negative multiplier and deviation the bands are ordered
      upper >= middle >= lower, and they are defined exactly from the second
      bar on when the window holds at least two values. */
  lemma BandsOrdered(close: seq<real>, cfg: BollingerConfig, sd: Deviation)
    requires cfg.length >= 1 && cfg.multiplier >= 0.0 && NonNegative(sd)
    ensures var b := CalculateBands(close, cfg, sd);
      forall i :: 0 <= i < |close| ==>
        && (b.upper[i].Some? <==> i >= 1 && cfg.length >= 2)
        && (b.lower[i].Some? <==> i >= 1 && cfg.length >= 2)
        && (b.upper[i].Some? ==> b.upper[i].value >= b.middle[i])
        && (b.lower[i].Some? ==> b.lower[i].value <= b.middle[i])
  {
    var b := CalculateBands(close, cfg, sd);
    forall i | 0 <= i < |close|
      ensures b.upper[i].Some? <==> i >= 1 && cfg.length >= 2
      ensures b.lower[i].Some? <==> i >= 1 && cfg.length >= 2
      ensures b.upper[i].Some? ==> b.upper[i].value >= b.middle[i]
      ensures b.lower[i].Some? ==> b.lower[i].value <= b.middle[i]
    {
      BandsOrderedAt(close, cfg, sd, i);
    }
  }

  /** The ordering of the bands on one bar. */
  lemma BandsOrderedAt(close: seq<real>, cfg: BollingerConfig, sd: Deviation, i: nat)
    requires cfg.length >= 1 && cfg.multiplier >= 0.0 && NonNegative(sd) && i < |close|
    ensures var b := CalculateBands(close, cfg, sd);
      && (b.upper[i].Some? <==> i >= 1 && cfg.length >= 2)
      && (b.lower[i].Some? <==> i >= 1 && cfg.length >= 2)
      && (b.upper[i].Some? ==> b.upper[i].value >= b.middle[i])
      && (b.lower[i].Some? ==> b.lower[i].value <= b.middle[i])
  {
    var std := StdAt(close, cfg.length, sd, i);
    assert std.Some? <==> i >= 1 && cfg.length >= 2;
    if std.Some? {
      assert std.value >= 0.0;
      assert std.value * cfg.multiplier >= 0.0;
    }
  }

  /** Buy where the close is below the lower band, Sell where it is above
      the upper band; a NaN band never signals. */
  function Signal(close: seq<real>, b: Bands): (s: Signals)
    requires |b.upper| == |close| && |b.lower| == |close|
    ensures Aligned(s, |close|)
    ensures forall i :: 0 <= i < |close| ==>
      (s.buy[i] <==> Lt(Some(close[i]), b.lower[i])) && (s.sell[i] <==> Gt(Some(close[i]), b.upper[i]))
  {
    Signals(
      seq(|close|, i requires 0 <= i < |close| => Lt(Some(close[i]), b.lower[i])),
      seq(|close|, i requires 0 <= i < |close| => Gt(Some(close[i]), b.upper[i])))
  }

  const WindowError := "min_periods 1 must be <= window 0"

  /** apply_strategy.  A zero window (a length in (0, 1) truncates to 0) is
      rejected by pandas.  Otherwise Buy holds exactly where the close is
      below the lower band and Sell exactly where it is above the upper
      band.  Nothing fires on bar 0 or anywhere when length is 1 (the bands
      are NaN); with a non-negative multiplier and deviation the two never
      coincide, and each signal puts the close on its side of the middle
      band. */
  function Apply(close: seq<real>, cfg: BollingerConfig, sd: Deviation): (r: Result<Signals>)
    ensures r.Ok? <==> cfg.length >= 1
    ensures r.Err? ==> r.error == ValueError(WindowError)
    ensures r.Ok? ==> Aligned(r.value, |close|)
    ensures r.Ok? ==> forall i :: 0 <= i < |close| ==>
      && (r.value.buy[i] <==> Lt(Some(close[i]), CalculateBands(close, cfg, sd).lower[i]))
      && (r.value.sell[i] <==> Gt(Some(close[i]), CalculateBands(close, cfg, sd).upper[i]))
    ensures r.Ok? && |close| > 0 ==> !r.value.buy[0] && !r.value.sell[0]
    ensures r.Ok? && cfg.length == 1 ==> Silent(r.value)
    ensures r.Ok? && cfg.multiplier >= 0.0 && NonNegative(sd) ==>
      && Exclusive(r.value)
      && (forall i :: 0 <= i < |close| && r.value.buy[i] ==>
            close[i] < Mean(Window(close, cfg.length, i)))
      && (forall i :: 0 <= i < |close| && r.value.sell[i] ==>
            close[i] > Mean(Window(close, cfg.length, i)))
  {
    if cfg.length == 0 then Err(ValueError(WindowError))
    else
      SignalsSeparated(close, cfg, sd);
      Ok(Signal(close, CalculateBands(close, cfg, sd)))
  }

  /** Under ordered bands a close cannot be both below the lower band and
      above the upper one, and each signal puts the close on its side of the
      middle band. */
  lemma SignalsSeparated(close: seq<real>, cfg: BollingerConfig, sd: Deviation)
    requires cfg.length >= 1
    ensures var s := Signal(close, CalculateBands(close, cfg, sd));
      cfg.multiplier >= 0.0 && NonNegative(sd) ==>
      && Exclusive(s)
      && (forall i :: 0 <= i < |close| && s.buy[i] ==> close[i] < Mean(Window(close, cfg.length, i)))
      && (forall i :: 0 <= i < |close| && s.sell[i] ==> close[i] > Mean(Window(close, cfg.length, i)))
  {
    if cfg.multiplier >= 0.0 && NonNegative(sd) {
      BandsOrdered(close, cfg, sd);
    }
  }

  /** With multiplier 0 both bands collapse onto the middle band wherever
      they are defined: Buy is exactly "close below its rolling mean" and
      Sell "close above it". */
  lemma ZeroMultiplierCollapses(close: seq<real>, length: nat, sd: Deviation, i: nat)
    requires length >= 2 && 1 <= i < |close|
    ensures var s := Apply(close, BollingerConfig(length, 0.0), sd).value;
      var m := Mean(Window(close, length, i));
      && (s.buy[i] <==> close[i] < m)
      && (s.sell[i] <==> close[i] > m)
  {
    var cfg := BollingerConfig(length, 0.0);
    var b := CalculateBands(close, cfg, sd);
    var std := StdAt(close, length, sd, i);
    assert std.Some?;
    assert b.lower[i] == Some(b.middle[i] - std.value * 0.0);
    assert b.upper[i] == Some(b.middle[i] + std.value * 0.0);
  }
}
