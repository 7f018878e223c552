/** Average Directional Index strategy (strategies/adx.py).

    True range and directional movement per bar; their full-window rolling
    means over `length` bars; DX = |+DM - -DM| / (+DM + -DM) * 100 on the
    smoothed movements; ADX = full-window rolling mean of DX.  Buy when
    ADX > threshold and the close rose against the previous bar, Sell when
    ADX > threshold and the close fell.  Every comparison with NaN is False.
 */
module Adx {
  import opened Wrappers
  import opened Series

  datatype AdxConfig = AdxConfig(length: nat, threshold: real)

  const DefaultLength := 14

  /** `__init__`: a non-positive length becomes 14, a positive one is
      truncated by int(); the threshold is taken as given. */
  function New(length: real, threshold: real): (c: AdxConfig)
    ensures length <= 0.0 ==> c.length == DefaultLength
    ensures length > 0.0 ==> c.length as real <= length < c.length as real + 1.0
    ensures c.threshold == threshold
  {
    AdxConfig(if length > 0.0 then length.Floor else DefaultLength, threshold)
  }

  /** One true-range value for a bar with a previous close: the largest of
      H - L, |H - prevC| and |L - prevC| (it dominates all three and is one
      of them), hence never negative. */
  function TrueRangeAt(bars: seq<Bar>, i: nat): (tr: real)
    requires 1 <= i < |bars|
    ensures tr >= bars[i].high - bars[i].low
    ensures tr >= Abs(bars[i].high - bars[i - 1].close)
    ensures tr >= Abs(bars[i].low - bars[i - 1].close)
    ensures || tr == bars[i].high - bars[i].low
            || tr == Abs(bars[i].high - bars[i - 1].close)
            || tr == Abs(bars[i].low - bars[i - 1].close)
    ensures tr >= 0.0
  {
    Max(Max(bars[i].high - bars[i].low, Abs(bars[i].high - bars[i - 1].close)),
        Abs(bars[i].low - bars[i - 1].close))
  }

  /** `true_range`: np.maximum propagates the NaN of the shifted close, so
      bar 0 is NaN; every later bar is defined. */
  function TrueRange(bars: seq<Bar>): (tr: seq<Option<real>>)
    ensures |tr| == |bars|
    ensures |bars| > 0 ==> tr[0] == None
    ensures forall i :: 1 <= i < |bars| ==> tr[i] == Some(TrueRangeAt(bars, i))
  {
    seq(|bars|, i requires 0 <= i < |bars| => if i == 0 then None else Some(TrueRangeAt(bars, i)))
  }

  /** Upward move of the high and downward move of the low against the
      previous bar. */
  function UpMove(bars: seq<Bar>, i: nat): real
    requires 1 <= i < |bars|
  {
    bars[i].high - bars[i - 1].high
  }

  function DownMove(bars: seq<Bar>, i: nat): real
    requires 1 <= i < |bars|
  {
    bars[i - 1].low - bars[i].low
  }

  /** +DM: the up-move where it beats the down-move (floored at 0), else 0.
      On bar 0 np.where compares against NaN, which is False, giving 0. */
  function PlusDm(bars: seq<Bar>): (dm: seq<real>)
    ensures |dm| == |bars|
  {
    seq(|bars|, i requires 0 <= i < |bars| =>
      if i > 0 && UpMove(bars, i) > DownMove(bars, i) then Max(UpMove(bars, i), 0.0) else 0.0)
  }

  /** -DM: the down-move where it beats the up-move (floored at 0), else 0. */
  function MinusDm(bars: seq<Bar>): (dm: seq<real>)
    ensures |dm| == |bars|
  {
    seq(|bars|, i requires 0 <= i < |bars| =>
      if i > 0 && DownMove(bars, i) > UpMove(bars, i) then Max(DownMove(bars, i), 0.0) else 0.0)
  }

  /** Both directional movements are non-negative and at most one of them is
      positive on any bar. */
  lemma DirectionalMovementExclusive(bars: seq<Bar>)
    ensures forall i :: 0 <= i < |bars| ==>
      && PlusDm(bars)[i] >= 0.0 && MinusDm(bars)[i] >= 0.0
      && !(PlusDm(bars)[i] > 0.0 && MinusDm(bars)[i] > 0.0)
  {
  }

  function Defined(xs: seq<real>): (r: seq<Option<real>>)
    ensures |r| == |xs|
    ensures forall i :: 0 <= i < |xs| ==> r[i] == Some(xs[i])
  {
    seq(|xs|, i requires 0 <= i < |xs| => Some(xs[i]))
  }

  datatype Smoothed = Smoothed(trueRange: seq<Option<real>>, plus: seq<Option<real>>, minus: seq<Option<real>>)

  /** `smoothed_values`: full-window rolling means.  The smoothed true range
      is computed but, as in the source, DX does not use it. */
  function SmoothedValues(bars: seq<Bar>, length: nat): (s: Smoothed)
    ensures |s.trueRange| == |bars| && |s.plus| == |bars| && |s.minus| == |bars|
  {
    Smoothed(
      RollingMeanFull(TrueRange(bars), length),
      RollingMeanFull(Defined(PlusDm(bars)), length),
      RollingMeanFull(Defined(MinusDm(bars)), length))
  }

  /** One DX value; a zero denominator (0/0 in pandas) is NaN. */
  function DxValue(p: Option<real>, m: Option<real>): Option<real> {
    if p.Some? && m.Some? && p.value + m.value != 0.0
    then Some(Abs(p.value - m.value) / (p.value + m.value) * 100.0)
    else None
  }

  /** Where DX is defined on non-negative movements it lies in [0, 100]. */
  lemma DxValueBounds(p: Option<real>, m: Option<real>)
    requires p.Some? ==> p.value >= 0.0
    requires m.Some? ==> m.value >= 0.0
    ensures DxValue(p, m).Some? ==> 0.0 <= DxValue(p, m).value <= 100.0
  {
    if DxValue(p, m).Some? {
      var d := p.value + m.value;
      assert d > 0.0;
      var a := Abs(p.value - m.value);
      assert 0.0 <= a <= d;
      var q := a / d;
      assert q * d == a;
      if q > 1.0 {
        assert false;
      }
    }
  }

  function Dx(s: Smoothed): (dx: seq<Option<real>>)
    requires |s.minus| == |s.plus|
    ensures |dx| == |s.plus|
    ensures forall i :: 0 <= i < |dx| ==> dx[i] == DxValue(s.plus[i], s.minus[i])
  {
    seq(|s.plus|, i requires 0 <= i < |s.plus| => DxValue(s.plus[i], s.minus[i]))
  }

  /** `calculate_adx`: the ADX column. */
  function AdxSeries(bars: seq<Bar>, length: nat): (adx: seq<Option<real>>)
    ensures |adx| == |bars|
  {
    RollingMeanFull(Dx(SmoothedValues(bars, length)), length)
  }

  /** Every defined DX, and hence every defined ADX, lies in [0, 100]. */
  lemma AdxBounds(bars: seq<Bar>, length: nat)
    ensures forall i :: 0 <= i < |bars| && AdxSeries(bars, length)[i].Some? ==>
      0.0 <= AdxSeries(bars, length)[i].value <= 100.0
  {
    var sm := SmoothedValues(bars, length);
    var plus := Defined(PlusDm(bars));
    var minus := Defined(MinusDm(bars));
    DirectionalMovementExclusive(bars);
    if |bars| > 0 {
      RollingMeanFullBounds(plus, length, 0.0, MaxOf(PlusDm(bars)));
      RollingMeanFullBounds(minus, length, 0.0, MaxOf(MinusDm(bars)));
    }
    var dx := Dx(sm);
    forall i | 0 <= i < |bars|
      ensures dx[i].Some? ==> 0.0 <= dx[i].value <= 100.0
    {
      DxValueBounds(sm.plus[i], sm.minus[i]);
    }
    RollingMeanFullBounds(dx, length, 0.0, 100.0);
  }

  /** ADX needs a full window of DX values, each of which needs a full
      window of directional movements: it is NaN before bar 2*length - 2,
      and everywhere when length is 0. */
  lemma AdxWarmup(bars: seq<Bar>, length: nat)
    ensures forall i :: 0 <= i < |bars| && AdxSeries(bars, length)[i].Some? ==>
      length >= 1 && i + 2 >= 2 * length
  {
    var sm := SmoothedValues(bars, length);
    var dx := Dx(sm);
    forall i | 0 <= i < |bars| && AdxSeries(bars, length)[i].Some?
      ensures length >= 1 && i + 2 >= 2 * length
    {
      var k := i + 1 - length;
      RollingMeanFullNeedsWindow(dx, length, i, k);
      assert sm.plus[k].Some?;
    }
  }

  /** The signal rule on an ADX column and the closes: Buy exactly where
      ADX is above the threshold and the close rose against the previous
      bar, Sell exactly where ADX is above it and the close fell.  The
      shifted close of bar 0 is NaN, so bar 0 never signals. */
  function Signal(bars: seq<Bar>, adx: seq<Option<real>>, threshold: real): (s: Signals)
    requires |adx| == |bars|
    ensures Aligned(s, |bars|) && Exclusive(s)
    ensures forall i :: 0 <= i < |bars| ==>
      (s.buy[i] <==> i > 0 && Gt(adx[i], Some(threshold)) && bars[i].close > bars[i - 1].close)
    ensures forall i :: 0 <= i < |bars| ==>
      (s.sell[i] <==> i > 0 && Gt(adx[i], Some(threshold)) && bars[i].close < bars[i - 1].close)
  {
    Signals(
      seq(|bars|, i requires 0 <= i < |bars| =>
        Gt(adx[i], Some(threshold)) && i > 0 && bars[i].close > bars[i - 1].close),
      seq(|bars|, i requires 0 <= i < |bars| =>
        Gt(adx[i], Some(threshold)) && i > 0 && bars[i].close < bars[i - 1].close))
  }

  /** apply_strategy.  Buy exactly where ADX is above the threshold and
      the close rose, Sell exactly where ADX is above it and the close fell.
      So a signal needs a defined ADX above the threshold (none fires during
      the 2*length - 2 bar warm-up, and none at all when the threshold is
      100 or more) and a moving close: never both, never on an unchanged
      close. */
  function Apply(bars: seq<Bar>, cfg: AdxConfig): (s: Signals)
    ensures Aligned(s, |bars|) && Exclusive(s)
    ensures var adx := AdxSeries(bars, cfg.length);
      forall i :: 0 <= i < |bars| ==>
        && (s.buy[i] <==> i > 0 && Gt(adx[i], Some(cfg.threshold)) && bars[i].close > bars[i - 1].close)
        && (s.sell[i] <==> i > 0 && Gt(adx[i], Some(cfg.threshold)) && bars[i].close < bars[i - 1].close)
    ensures var adx := AdxSeries(bars, cfg.length);
      forall i :: 0 <= i < |bars| && (s.buy[i] || s.sell[i]) ==>
        && i > 0 && i + 2 >= 2 * cfg.length && cfg.length >= 1
        && adx[i].Some? && cfg.threshold < adx[i].value <= 100.0
    ensures forall i :: 0 <= i < |bars| && s.buy[i] ==> bars[i].close > bars[i - 1].close
    ensures forall i :: 0 <= i < |bars| && s.sell[i] ==> bars[i].close < bars[i - 1].close
  {
    AdxBounds(bars, cfg.length);
    AdxWarmup(bars, cfg.length);
    Signal(bars, AdxSeries(bars, cfg.length), cfg.threshold)
  }
}
