/** Per-bar series shared by the indicator strategies.

    A price frame is a sequence of bars; a derived pandas column that may hold
    NaN is a `seq<Option<real>>` with `None` for NaN.  Every pandas comparison
    with NaN on either side is False, which is how the strategies suppress
    signals during warm-up and on degenerate inputs.
 */
module Series {
  import opened Wrappers

  /** One OHLCV row of the price frame. */
  datatype Bar = Bar(high: real, low: real, close: real, volume: int)

  /** The two boolean columns every strategy adds: BuySignal and SellSignal. */
  datatype Signals = Signals(buy: seq<bool>, sell: seq<bool>)

  predicate Aligned(s: Signals, n: nat) {
    |s.buy| == n && |s.sell| == n
  }

  /** Neither column is ever true on the same bar as the other. */
  predicate Exclusive(s: Signals)
    requires |s.buy| == |s.sell|
  {
    forall i :: 0 <= i < |s.buy| ==> !(s.buy[i] && s.sell[i])
  }

  predicate Silent(s: Signals) {
    (forall i :: 0 <= i < |s.buy| ==> !s.buy[i]) &&
    (forall i :: 0 <= i < |s.sell| ==> !s.sell[i])
  }

  function Closes(bars: seq<Bar>): (r: seq<real>)
    ensures |r| == |bars|
    ensures forall i :: 0 <= i < |bars| ==> r[i] == bars[i].close
  {
    seq(|bars|, i requires 0 <= i < |bars| => bars[i].close)
  }

  function Abs(x: real): real {
    if x < 0.0 then -x else x
  }

  /** numpy.maximum / Python max on two defined values. */
  function Max(a: real, b: real): real {
    if a < b then b else a
  }

  function MinNat(a: nat, b: nat): nat {
    if a < b then a else b
  }

  /** `a < b` in pandas: False whenever either side is NaN. */
  predicate Lt(a: Option<real>, b: Option<real>) {
    a.Some? && b.Some? && a.value < b.value
  }

  /** `a > b` in pandas: False whenever either side is NaN. */
  predicate Gt(a: Option<real>, b: Option<real>) {
    a.Some? && b.Some? && a.value > b.value
  }

  function Sum(xs: seq<real>): real {
    if |xs| == 0 then 0.0 else xs[0] + Sum(xs[1..])
  }

  function Mean(xs: seq<real>): real
    requires |xs| > 0
  {
    Sum(xs) / |xs| as real
  }

  lemma {:induction false} SumBounds(xs: seq<real>, lo: real, hi: real)
    requires forall k :: 0 <= k < |xs| ==> lo <= xs[k] <= hi
    ensures |xs| as real * lo <= Sum(xs) <= |xs| as real * hi
  {
    if |xs| > 0 {
      SumBounds(xs[1..], lo, hi);
    }
  }

  /** A mean lies between any bounds of the averaged values. */
  lemma MeanBounds(xs: seq<real>, lo: real, hi: real)
    requires |xs| > 0
    requires forall k :: 0 <= k < |xs| ==> lo <= xs[k] <= hi
    ensures lo <= Mean(xs) <= hi
  {
    SumBounds(xs, lo, hi);
    var n := |xs| as real;
    assert n * lo <= Sum(xs) <= n * hi;
    assert Mean(xs) * n == Sum(xs);
  }

  lemma MeanSingleton(x: real)
    ensures Mean([x]) == x
  {
    assert [x][1..] == [];
    assert Sum([x]) == x + Sum([]);
  }

  /** The trailing window `rolling(window=len)` sees at row i:
      the last min(i + 1, len) values up to and including row i. */
  function Window<T>(xs: seq<T>, len: nat, i: nat): (w: seq<T>)
    requires i < |xs|
    ensures |w| == MinNat(i + 1, len)
  {
    xs[i + 1 - MinNat(i + 1, len) .. i + 1]
  }

  /** `rolling(window=len, min_periods=1).mean()`: defined from the first
      row on, averaging however many rows are available. */
  function RollingMean(xs: seq<real>, len: nat): (r: seq<real>)
    requires len >= 1
    ensures |r| == |xs|
  {
    seq(|xs|, i requires 0 <= i < |xs| => Mean(Window(xs, len, i)))
  }

  /** Row 0 of a min_periods=1 rolling mean is the first value itself. */
  lemma RollingMeanFirst(xs: seq<real>, len: nat)
    requires len >= 1
    ensures |xs| > 0 ==> RollingMean(xs, len)[0] == xs[0]
  {
    if |xs| > 0 {
      assert Window(xs, len, 0) == [xs[0]];
      MeanSingleton(xs[0]);
    }
  }

  /** A min_periods=1 rolling mean of values in [lo, hi] stays in [lo, hi]. */
  lemma RollingMeanBounds(xs: seq<real>, len: nat, lo: real, hi: real)
    requires len >= 1
    requires forall k :: 0 <= k < |xs| ==> lo <= xs[k] <= hi
    ensures forall i :: 0 <= i < |xs| ==> lo <= RollingMean(xs, len)[i] <= hi
  {
    forall i | 0 <= i < |xs|
      ensures lo <= RollingMean(xs, len)[i] <= hi
    {
      var w := Window(xs, len, i);
      assert forall k :: 0 <= k < |w| ==> w[k] == xs[i + 1 - |w| + k];
      MeanBounds(w, lo, hi);
    }
  }

  /** Largest value of a non-empty sequence. */
  function MaxOf(xs: seq<real>): (m: real)
    requires |xs| > 0
    ensures forall k :: 0 <= k < |xs| ==> xs[k] <= m
  {
    if |xs| == 1 then xs[0] else Max(xs[0], MaxOf(xs[1..]))
  }

  /** A rolling mean of non-negative values is non-negative. */
  lemma RollingMeanNonNegative(xs: seq<real>, len: nat)
    requires len >= 1
    requires forall k :: 0 <= k < |xs| ==> xs[k] >= 0.0
    ensures forall i :: 0 <= i < |xs| ==> RollingMean(xs, len)[i] >= 0.0
  {
    if |xs| > 0 {
      RollingMeanBounds(xs, len, 0.0, MaxOf(xs));
    }
  }

  predicate AllDefined(w: seq<Option<real>>) {
    forall k :: 0 <= k < |w| ==> w[k].Some?
  }

  function Values(w: seq<Option<real>>): (r: seq<real>)
    requires AllDefined(w)
    ensures |r| == |w|
    ensures forall k :: 0 <= k < |w| ==> Some(r[k]) == w[k]
  {
    if |w| == 0 then [] else [w[0].value] + Values(w[1..])
  }

  /** `rolling(window=len).mean()` with pandas' default min_periods = len:
      row i is defined only when a full window of len defined (non-NaN)
      values ends at i.  A zero-width window has no values and is NaN. */
  function RollingMeanFull(xs: seq<Option<real>>, len: nat): (r: seq<Option<real>>)
    ensures |r| == |xs|
  {
    seq(|xs|, i requires 0 <= i < |xs| =>
      if len >= 1 && i + 1 >= len && AllDefined(Window(xs, len, i))
      then Some(Mean(Values(Window(xs, len, i))))
      else None)
  }

  /** A full-window rolling mean is NaN before a full window of defined
      values is available, and otherwise lies within the values' bounds. */
  lemma RollingMeanFullBounds(xs: seq<Option<real>>, len: nat, lo: real, hi: real)
    requires forall k :: 0 <= k < |xs| && xs[k].Some? ==> lo <= xs[k].value <= hi
    ensures forall i :: 0 <= i < |xs| && RollingMeanFull(xs, len)[i].Some? ==>
      len >= 1 && i + 1 >= len && lo <= RollingMeanFull(xs, len)[i].value <= hi
  {
    var r := RollingMeanFull(xs, len);
    forall i | 0 <= i < |xs| && r[i].Some?
      ensures len >= 1 && i + 1 >= len && lo <= r[i].value <= hi
    {
      var w := Window(xs, len, i);
      var v := Values(w);
      assert forall k :: 0 <= k < |w| ==> w[k] == xs[i + 1 - |w| + k];
      assert forall k :: 0 <= k < |v| ==> lo <= v[k] <= hi by {
        forall k | 0 <= k < |v| ensures lo <= v[k] <= hi {
          assert Some(v[k]) == xs[i + 1 - |w| + k];
        }
      }
      MeanBounds(v, lo, hi);
    }
  }

  /** A full-window rolling mean is defined only when every value of its
      window is defined. */
  lemma RollingMeanFullNeedsWindow(xs: seq<Option<real>>, len: nat, i: nat, k: nat)
    requires i < |xs| && RollingMeanFull(xs, len)[i].Some?
    requires i + 1 - len <= k <= i
    ensures xs[k].Some?
  {
    var w := Window(xs, len, i);
    assert w[k - (i + 1 - len)] == xs[k];
  }
}
