/** `combine_signals` (utils.py): per-bar conjunction of the selected
    strategies' signal columns.

    A frame is modelled by its boolean columns, keyed by column name; the
    numeric columns pass through untouched and are not represented.  The
    combiner works on a copy, so the caller's frame is never changed: here
    that is simply the fact that the result is a new value.
 */
module Combine {
  /** Boolean columns of a frame with `rows` rows. */
  datatype Frame = Frame(rows: nat, columns: map<string, seq<bool>>)

  predicate WellFormed(f: Frame) {
    forall c :: c in f.columns ==> |f.columns[c]| == f.rows
  }

  const BuyPrefix := "BuySignal"
  const SellPrefix := "SellSignal"
  const CommonBuySignal := "CommonBuySignal"
  const CommonSellSignal := "CommonSellSignal"

  /** The column a strategy tag selects, e.g. `BuySignalMACD`. */
  function Column(prefix: string, tag: string): string {
    prefix + tag
  }

  /** The value the combiner should produce at row i: every selected tag
      whose column exists is true there.  Tags without a column are ignored. */
  predicate AllSelected(f: Frame, prefix: string, tags: seq<string>, i: nat)
    requires WellFormed(f) && i < f.rows
  {
    forall t :: t in tags && Column(prefix, t) in f.columns ==> f.columns[Column(prefix, t)][i]
  }

  /** The loop `Common &= data[prefix + tag]` over the tags, starting from an
      all-true column. */
  function Conjoin(f: Frame, prefix: string, tags: seq<string>): (r: seq<bool>)
    requires WellFormed(f)
    ensures |r| == f.rows
    ensures forall i :: 0 <= i < f.rows ==> (r[i] <==> AllSelected(f, prefix, tags, i))
  {
    if |tags| == 0 then seq(f.rows, i => true)
    else
      var acc := Conjoin(f, prefix, tags[..|tags| - 1]);
      var c := Column(prefix, tags[|tags| - 1]);
      assert forall t :: t in tags <==> t in tags[..|tags| - 1] || t == tags[|tags| - 1];
      if c in f.columns
      then seq(f.rows, i requires 0 <= i < f.rows => acc[i] && f.columns[c][i])
      else acc
  }

  /** A tagged signal column never collides with the two combined columns,
      so the loop reads the strategies' own columns, never its accumulator. */
  lemma TaggedColumnsDistinct(t: string)
    ensures Column(BuyPrefix, t) != CommonBuySignal && Column(BuyPrefix, t) != CommonSellSignal
    ensures Column(SellPrefix, t) != CommonBuySignal && Column(SellPrefix, t) != CommonSellSignal
  {
    assert Column(BuyPrefix, t)[0] == 'B';
    assert Column(SellPrefix, t)[0] == 'S';
    assert CommonBuySignal[0] == 'C' && CommonSellSignal[0] == 'C';
  }

  /** combine_signals.  The result keeps every column of the input, adds (or
      overwrites) CommonBuySignal and CommonSellSignal, and changes nothing
      else.  CommonBuySignal[i] holds iff every selected tag with a
      `BuySignal{tag}` column is true at i, and likewise for selling. */
  function CombineSignals(f: Frame, tags: seq<string>): (r: Frame)
    requires WellFormed(f)
    ensures WellFormed(r) && r.rows == f.rows
    ensures r.columns.Keys == f.columns.Keys + {CommonBuySignal, CommonSellSignal}
    ensures forall c :: c in f.columns && c != CommonBuySignal && c != CommonSellSignal ==>
      r.columns[c] == f.columns[c]
    ensures forall i :: 0 <= i < f.rows ==>
      (r.columns[CommonBuySignal][i] <==>
        forall t :: t in tags && Column(BuyPrefix, t) in f.columns ==> f.columns[Column(BuyPrefix, t)][i])
    ensures forall i :: 0 <= i < f.rows ==>
      (r.columns[CommonSellSignal][i] <==>
        forall t :: t in tags && Column(SellPrefix, t) in f.columns ==> f.columns[Column(SellPrefix, t)][i])
  {
    var buy := Conjoin(f, BuyPrefix, tags);
    var sell := Conjoin(f, SellPrefix, tags);
    Frame(f.rows, f.columns[CommonBuySignal := buy][CommonSellSignal := sell])
  }

  /** With no selected tag that names an existing column, both combined
      columns are all true. */
  lemma NothingSelectedAllTrue(f: Frame, tags: seq<string>)
    requires WellFormed(f)
    requires forall t :: t in tags ==> Column(BuyPrefix, t) !in f.columns && Column(SellPrefix, t) !in f.columns
    ensures var r := CombineSignals(f, tags);
      forall i :: 0 <= i < f.rows ==> r.columns[CommonBuySignal][i] && r.columns[CommonSellSignal][i]
  {
  }

  /** The result depends only on the set of selected tags: reordering or
      repeating `selected_strategies` changes nothing. */
  lemma {:induction false} OrderIrrelevant(f: Frame, tags1: seq<string>, tags2: seq<string>)
    requires WellFormed(f)
    requires forall t :: t in tags1 <==> t in tags2
    ensures CombineSignals(f, tags1) == CombineSignals(f, tags2)
  {
    var r1 := CombineSignals(f, tags1);
    var r2 := CombineSignals(f, tags2);
    assert r1.columns[CommonBuySignal] == r2.columns[CommonBuySignal];
    assert r1.columns[CommonSellSignal] == r2.columns[CommonSellSignal];
  }

  /** Combining the same strategies again reproduces the same frame: the
      combined columns are rebuilt from the tagged ones, never from
      themselves. */
  lemma Idempotent(f: Frame, tags: seq<string>)
    requires WellFormed(f)
    ensures CombineSignals(CombineSignals(f, tags), tags) == CombineSignals(f, tags)
  {
    var r := CombineSignals(f, tags);
    var r2 := CombineSignals(r, tags);
    forall t | t in tags
      ensures Column(BuyPrefix, t) in r.columns <==> Column(BuyPrefix, t) in f.columns
      ensures Column(SellPrefix, t) in r.columns <==> Column(SellPrefix, t) in f.columns
      ensures Column(BuyPrefix, t) in f.columns ==> r.columns[Column(BuyPrefix, t)] == f.columns[Column(BuyPrefix, t)]
      ensures Column(SellPrefix, t) in f.columns ==> r.columns[Column(SellPrefix, t)] == f.columns[Column(SellPrefix, t)]
    {
      TaggedColumnsDistinct(t);
    }
    assert r2.columns[CommonBuySignal] == r.columns[CommonBuySignal];
    assert r2.columns[CommonSellSignal] == r.columns[CommonSellSignal];
  }
}
