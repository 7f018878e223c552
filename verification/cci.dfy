/** Commodity Channel Index strategy (strategies/cci.py).

    Typical price tp = (H + L + C) / 3; SMA is its min_periods=1 rolling mean;
    the mean deviation is the min_periods=1 rolling mean of |tp[j] - SMA[j]|
    (each bar's distance from its OWN average, as the code computes it);
    CCI = (tp - SMA) / (constant * meanDeviation), with a zero mean deviation
    (and any infinite quotient) turned into NaN.  Buy when CCI < -100, Sell
    when CCI > 100; NaN fires neither.
 */
module Cci {
  import opened Wrappers
  import opened Series

  datatype CciConfig = CciConfig(length: nat, constant: real)

  const DefaultLength := 20
  const DefaultConstant := 0.015

  /** `__init__`: a non-positive length becomes 20 and a non-positive constant
      0.015; a positive length is truncated to an integer by int(). */
  function New(length: real, constant: real): (c: CciConfig)
    ensures length <= 0.0 ==> c.length == DefaultLength
    ensures length > 0.0 ==> c.length as real <= length < c.length as real + 1.0
    ensures constant <= 0.0 ==> c.constant == DefaultConstant
    ensures constant > 0.0 ==> c.constant == constant
    ensures c.constant > 0.0
  {
    CciConfig(
      if length > 0.0 then length.Floor else DefaultLength,
      if constant > 0.0 then constant else DefaultConstant)
  }

  function TypicalPrice(bars: seq<Bar>): (tp: seq<real>)
    ensures |tp| == |bars|
  {
    seq(|bars|, i requires 0 <= i < |bars| => (bars[i].high + bars[i].low + bars[i].close) / 3.0)
  }

  function Sma(tp: seq<real>, length: nat): (r: seq<real>)
    requires length >= 1
    ensures |r| == |tp|
  {
    RollingMean(tp, length)
  }

  /** `mean_deviation`: never negative, and on the first bar the distance
      of that bar from its own average. */
  function MeanDeviation(tp: seq<real>, sma: seq<real>, length: nat): (r: seq<real>)
    requires length >= 1 && |sma| == |tp|
    ensures |r| == |tp|
    ensures forall i :: 0 <= i < |tp| ==> r[i] >= 0.0
    ensures |tp| > 0 ==> r[0] == Abs(tp[0] - sma[0])
  {
    var dev := Deviations(tp, sma);
    RollingMeanNonNegative(dev, length);
    RollingMeanFirst(dev, length);
    RollingMean(dev, length)
  }

  /** |tp[i] - sma[i]| on every bar. */
  function Deviations(tp: seq<real>, sma: seq<real>): (dev: seq<real>)
    requires |sma| == |tp|
    ensures |dev| == |tp|
    ensures forall i :: 0 <= i < |tp| ==> dev[i] == Abs(tp[i] - sma[i])
  {
    seq(|tp|, i requires 0 <= i < |tp| => Abs(tp[i] - sma[i]))
  }

  /** `calculate_cci`.  A zero length makes the rolling window invalid; the
      source's exception handler then returns an all-NaN series. */
  function CalculateCci(bars: seq<Bar>, cfg: CciConfig): (r: seq<Option<real>>)
    ensures |r| == |bars|
  {
    if cfg.length == 0 then seq(|bars|, i => None)
    else
      var tp := TypicalPrice(bars);
      var sma := Sma(tp, cfg.length);
      var md := MeanDeviation(tp, sma, cfg.length);
      Quotients(tp, sma, md, cfg.constant)
  }

  /** The CCI column bar by bar, from the typical price, its SMA and the
      mean deviation. */
  function Quotients(tp: seq<real>, sma: seq<real>, md: seq<real>, constant: real): (r: seq<Option<real>>)
    requires |sma| == |tp| && |md| == |tp|
    ensures |r| == |tp|
    ensures forall i :: 0 <= i < |tp| ==> r[i] == Quotient(tp[i] - sma[i], constant, md[i])
  {
    seq(|tp|, i requires 0 <= i < |tp| => Quotient(tp[i] - sma[i], constant, md[i]))
  }

  /** One CCI value: NaN where the mean deviation is zero (or the quotient
      would be infinite), otherwise dev / (constant * md). */
  function Quotient(dev: real, constant: real, md: real): Option<real> {
    if md == 0.0 || constant == 0.0 then None else Some(dev / (constant * md))
  }

  /** With a positive constant a defined CCI has the sign of tp - SMA. */
  lemma QuotientSign(dev: real, constant: real, md: real)
    requires constant > 0.0 && md >= 0.0
    ensures Lt(Quotient(dev, constant, md), Some(Oversold)) ==> dev < 0.0
    ensures Gt(Quotient(dev, constant, md), Some(Overbought)) ==> dev > 0.0
  {
    if md > 0.0 {
      var den := constant * md;
      assert den > 0.0;
      if dev >= 0.0 {
        assert dev / den >= 0.0;
      } else {
        assert dev / den < 0.0;
      }
    }
  }

  const Oversold := -100.0
  const Overbought := 100.0

  /** Buy where CCI is below -100, Sell where it is above 100; NaN never
      signals. */
  function Signal(cci: seq<Option<real>>): (s: Signals)
    ensures Aligned(s, |cci|)
    ensures forall i :: 0 <= i < |cci| ==>
      (s.buy[i] <==> Lt(cci[i], Some(Oversold))) && (s.sell[i] <==> Gt(cci[i], Some(Overbought)))
  {
    Signals(
      seq(|cci|, i requires 0 <= i < |cci| => Lt(cci[i], Some(Oversold))),
      seq(|cci|, i requires 0 <= i < |cci| => Gt(cci[i], Some(Overbought))))
  }

  /** apply_strategy: Buy exactly where CCI is below -100 and Sell exactly
      where it is above 100.  Buy and Sell are never both true, nothing fires on bar 0 or where the mean deviation is
      zero, and (with a positive constant) Buy only fires where the typical
      price is below its moving average and Sell only where it is above. */
  function Apply(bars: seq<Bar>, cfg: CciConfig): (s: Signals)
    requires cfg.constant > 0.0
    ensures Aligned(s, |bars|) && Exclusive(s)
    ensures forall i :: 0 <= i < |bars| ==>
      && (s.buy[i] <==> Lt(CalculateCci(bars, cfg)[i], Some(Oversold)))
      && (s.sell[i] <==> Gt(CalculateCci(bars, cfg)[i], Some(Overbought)))
    ensures |bars| > 0 ==> !s.buy[0] && !s.sell[0]
    ensures cfg.length >= 1 ==>
      var tp := TypicalPrice(bars);
      var sma := Sma(tp, cfg.length);
      var md := MeanDeviation(tp, sma, cfg.length);
      forall i :: 0 <= i < |bars| ==>
      && (md[i] == 0.0 ==> !s.buy[i] && !s.sell[i])
      && (s.buy[i] ==> tp[i] < sma[i])
      && (s.sell[i] ==> tp[i] > sma[i])
    ensures cfg.length == 0 ==> Silent(s)
  {
    var s := Signal(CalculateCci(bars, cfg));
    if cfg.length >= 1 && |bars| > 0 then
      FirstBarUndefined(bars, cfg);
      SignalSide(bars, cfg);
      s
    else if cfg.length >= 1 then
      SignalSide(bars, cfg);
      s
    else
      s
  }

  /** One CCI value, read off the series. */
  lemma CciAt(bars: seq<Bar>, cfg: CciConfig, i: nat)
    requires cfg.length >= 1 && i < |bars|
    ensures var tp := TypicalPrice(bars);
      var sma := Sma(tp, cfg.length);
      CalculateCci(bars, cfg)[i] == Quotient(tp[i] - sma[i], cfg.constant, MeanDeviation(tp, sma, cfg.length)[i])
  {
    var tp := TypicalPrice(bars);
    var sma := Sma(tp, cfg.length);
    var md := MeanDeviation(tp, sma, cfg.length);
    assert CalculateCci(bars, cfg) == Quotients(tp, sma, md, cfg.constant);
  }

  /** At bar 0 the SMA is the typical price itself, the deviation is 0, the
      mean deviation is 0 and the CCI is NaN. */
  lemma FirstBarUndefined(bars: seq<Bar>, cfg: CciConfig)
    requires cfg.length >= 1 && |bars| > 0
    ensures CalculateCci(bars, cfg)[0] == None
  {
    var tp := TypicalPrice(bars);
    var sma := Sma(tp, cfg.length);
    var md := MeanDeviation(tp, sma, cfg.length);
    assert md[0] == 0.0 by {
      RollingMeanFirst(tp, cfg.length);
    }
    CciAt(bars, cfg, 0);
    QuotientUndefined(tp[0] - sma[0], cfg.constant);
  }

  lemma QuotientUndefined(dev: real, constant: real)
    ensures Quotient(dev, constant, 0.0) == None
  {
  }

  /** Where CCI is defined and past a threshold, the typical price is on
      the same side of its moving average. */
  lemma SignalSide(bars: seq<Bar>, cfg: CciConfig)
    requires cfg.length >= 1 && cfg.constant > 0.0
    ensures
      var tp := TypicalPrice(bars);
      var sma := Sma(tp, cfg.length);
      var md := MeanDeviation(tp, sma, cfg.length);
      var cci := CalculateCci(bars, cfg);
      forall i :: 0 <= i < |bars| ==>
        && (md[i] == 0.0 ==> cci[i] == None)
        && (Lt(cci[i], Some(Oversold)) ==> tp[i] < sma[i])
        && (Gt(cci[i], Some(Overbought)) ==> tp[i] > sma[i])
  {
    var tp := TypicalPrice(bars);
    var sma := Sma(tp, cfg.length);
    var md := MeanDeviation(tp, sma, cfg.length);
    var cci := CalculateCci(bars, cfg);
    forall i | 0 <= i < |bars|
      ensures md[i] == 0.0 ==> cci[i] == None
      ensures Lt(cci[i], Some(Oversold)) ==> tp[i] < sma[i]
      ensures Gt(cci[i], Some(Overbought)) ==> tp[i] > sma[i]
    {
      CciAt(bars, cfg, i);
      QuotientSign(tp[i] - sma[i], cfg.constant, md[i]);
    }
  }
}
