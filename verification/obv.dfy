/** On-Balance Volume strategy (strategies/obv.py).

    OBV is an integer running sum seeded at 0: each later bar adds its volume
    when the close rose, subtracts it when the close fell, and leaves the sum
    unchanged on a tie.  BuySignal is "OBV rose against the previous bar",
    SellSignal "OBV fell"; the comparison with the shifted (NaN) first row is
    False, so bar 0 never signals.
 */
module Obv {
  import opened Wrappers
  import opened Series

  /** The signed volume bar i (i >= 1) contributes to the running sum. */
  function Flow(close: seq<real>, volume: seq<int>, i: nat): int
    requires 1 <= i < |close| && |volume| == |close|
  {
    if close[i] > close[i - 1] then volume[i]
    else if close[i] < close[i - 1] then -volume[i]
    else 0
  }

  /** Reference definition: OBV at bar i is the sum of the flows of bars 1..i. */
  function ObvAt(close: seq<real>, volume: seq<int>, i: nat): int
    requires |volume| == |close| && (i == 0 || i < |close|)
  {
    if i == 0 then 0 else ObvAt(close, volume, i - 1) + Flow(close, volume, i)
  }

  /** Number of rows calculate_obv produces: it always starts from [0], so an
      empty frame still yields one value. */
  function ObvLength(n: nat): nat {
    if n == 0 then 1 else n
  }

  /** calculate_obv: the append loop of the source, proved to compute the
      running sum of flows. */
  method CalculateObv(close: seq<real>, volume: seq<int>) returns (obv: seq<int>)
    requires |volume| == |close|
    ensures |obv| == ObvLength(|close|)
    ensures obv[0] == 0
    ensures forall i :: 1 <= i < |obv| ==> obv[i] - obv[i - 1] == Flow(close, volume, i)
    ensures forall i :: 0 <= i < |obv| ==> obv[i] == ObvAt(close, volume, i)
  {
    obv := [0];
    var i := 1;
    while i < |close|
      invariant 1 <= i <= ObvLength(|close|)
      invariant |obv| == i
      invariant obv[0] == 0
      invariant forall k :: 0 <= k < i ==> obv[k] == ObvAt(close, volume, k)
    {
      var last := obv[|obv| - 1];
      assert last == ObvAt(close, volume, i - 1);
      var next;
      if close[i] > close[i - 1] {
        next := last + volume[i];
      } else if close[i] < close[i - 1] {
        next := last - volume[i];
      } else {
        next := last;
      }
      assert next == last + Flow(close, volume, i);
      obv := obv + [next];
      i := i + 1;
    }
  }

  /** The OBV column as a value: the reference sums, row by row. */
  function ObvSeries(close: seq<real>, volume: seq<int>): (r: seq<int>)
    requires |volume| == |close|
    ensures |r| == ObvLength(|close|)
  {
    seq(ObvLength(|close|), i requires 0 <= i < ObvLength(|close|) => ObvAt(close, volume, i))
  }

  datatype ObvOutput = ObvOutput(obv: seq<int>, signals: Signals)

  const MissingColumns := "DataFrame must contain 'Close' and 'Volume' columns"

  /** apply_strategy.  A missing Close or Volume column raises before any
      computation.  Otherwise the frame gets one row per OBV value: on an
      empty frame the one-value OBV column re-indexes the frame to a single
      row, whose shifted comparisons are false.  OBV rises exactly on bars
      whose flow is positive, so Buy[i] holds exactly when the flow of bar i
      is positive and Sell[i] exactly when it is negative. */
  function Apply(close: Option<seq<real>>, volume: Option<seq<int>>): (r: Result<ObvOutput>)
    requires close.Some? && volume.Some? ==> |volume.value| == |close.value|
    ensures close.None? || volume.None? ==> r == Err(ValueError(MissingColumns))
    ensures r.Ok? <==> close.Some? && volume.Some?
    ensures r.Ok? ==>
      var n := ObvLength(|close.value|);
      && |r.value.obv| == n && Aligned(r.value.signals, n)
      && r.value.obv[0] == 0
      && !r.value.signals.buy[0] && !r.value.signals.sell[0]
      && (forall i :: 1 <= i < |close.value| ==>
            r.value.obv[i] - r.value.obv[i - 1] == Flow(close.value, volume.value, i))
      && (forall i :: 1 <= i < |close.value| ==>
            (r.value.signals.buy[i] <==> Flow(close.value, volume.value, i) > 0))
      && (forall i :: 1 <= i < |close.value| ==>
            (r.value.signals.sell[i] <==> Flow(close.value, volume.value, i) < 0))
    ensures r.Ok? && |close.value| == 0 ==>
      r.value.obv == [0] && r.value.signals == Signals([false], [false])
  {
    if close.None? || volume.None? then Err(ValueError(MissingColumns))
    else
      var obv := ObvSeries(close.value, volume.value);
      var n := |obv|;
      var buy := seq(n, i requires 0 <= i < n => i > 0 && obv[i] > obv[i - 1]);
      var sell := seq(n, i requires 0 <= i < n => i > 0 && obv[i] < obv[i - 1]);
      Ok(ObvOutput(obv, Signals(buy, sell)))
  }

  /** OBV applied to the Close and Volume columns of a bar frame: it always
      succeeds, with one signal row per bar (a single silent row for an
      empty frame), never buying and selling on the same bar. */
  function ApplyBars(bars: seq<Bar>): (r: Result<Signals>)
    ensures r.Ok?
    ensures Aligned(r.value, ObvLength(|bars|)) && Exclusive(r.value)
    ensures |bars| == 0 ==> r.value == Signals([false], [false])
  {
    var close := Closes(bars);
    var volume := seq(|bars|, i requires 0 <= i < |bars| => bars[i].volume);
    Ok(Apply(Some(close), Some(volume)).value.signals)
  }

  /** With strictly positive volume the OBV signals follow the close: Buy on
      a rise, Sell on a fall, nothing on an unchanged close. */
  lemma SignalsFollowPrice(close: seq<real>, volume: seq<int>, i: nat)
    requires |volume| == |close| && 1 <= i < |close|
    requires volume[i] > 0
    ensures var s := Apply(Some(close), Some(volume)).value.signals;
      (s.buy[i] <==> close[i] > close[i - 1]) && (s.sell[i] <==> close[i] < close[i - 1])
  {
  }

  /** A zero-volume bar moves OBV by nothing and so never signals. */
  lemma ZeroVolumeSilent(close: seq<real>, volume: seq<int>, i: nat)
    requires |volume| == |close| && 1 <= i < |close|
    requires volume[i] == 0
    ensures var s := Apply(Some(close), Some(volume)).value.signals;
      !s.buy[i] && !s.sell[i]
  {
  }
}
