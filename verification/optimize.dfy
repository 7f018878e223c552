/** The four grid-search optimisers of utils.py.

    Each one backtests every grid point, keeps `{params, return}` records in
    enumeration order, ranks them with a stable descending sort, keeps the
    top five and returns the first, or a fixed fallback when there is no
    record.  The backtest return of a parameter choice is an opaque oracle
    `ret`.  Only the MACD optimiser memoises its answer, keyed by
    ("MACD", min_length, max_length).
 */
module Optimize {
  import opened Wrappers
  import opened Ranking
  import opened Grid
  import Macd

  datatype MacdParams = MacdParams(fast: int, slow: int)
  /** The Bollinger multiplier is kept in integer tenths: `std = tenths / 10`. */
  datatype BollingerParams = BollingerParams(length: int, tenths: int)
  datatype CciParams = CciParams(length: int)
  datatype AdxParams = AdxParams(length: int, threshold: int)

  function Multiplier(p: BollingerParams): real {
    p.tenths as real / 10.0
  }

  /** What an optimiser produces: the parameters it returns and the ranked
      top list it reports. */
  datatype Outcome<P> = Outcome(best: P, top: seq<Candidate<P>>)

  /** Backtest every grid point, in order. */
  function Evaluate<P>(grid: seq<P>, ret: P -> real): (r: seq<Candidate<P>>)
    ensures |r| == |grid|
    ensures forall k :: 0 <= k < |grid| ==> r[k] == Candidate(grid[k], ret(grid[k]))
  {
    seq(|grid|, k requires 0 <= k < |grid| => Candidate(grid[k], ret(grid[k])))
  }

  /** The Bollinger filter: only records with a positive return are kept,
      in enumeration order. */
  function Positive<P>(cs: seq<Candidate<P>>): (r: seq<Candidate<P>>)
    ensures forall k :: 0 <= k < |r| ==> r[k].ret > 0.0
    ensures multiset(r) <= multiset(cs)
    ensures forall k :: 0 <= k < |cs| && cs[k].ret > 0.0 ==> cs[k] in r
  {
    if |cs| == 0 then []
    else
      var rest := Positive(cs[1..]);
      PositiveCons(cs, rest);
      if cs[0].ret > 0.0 then [cs[0]] + rest else rest
  }

  /** One step of the filter: the head is kept exactly when its return is
      positive, in front of the filtered tail. */
  lemma PositiveCons<P>(cs: seq<Candidate<P>>, rest: seq<Candidate<P>>)
    requires |cs| > 0
    requires forall k :: 0 <= k < |rest| ==> rest[k].ret > 0.0
    requires multiset(rest) <= multiset(cs[1..])
    requires forall k :: 1 <= k < |cs| && cs[k].ret > 0.0 ==> cs[k] in rest
    ensures var r := if cs[0].ret > 0.0 then [cs[0]] + rest else rest;
      && (forall k :: 0 <= k < |r| ==> r[k].ret > 0.0)
      && multiset(r) <= multiset(cs)
      && (forall k :: 0 <= k < |cs| && cs[k].ret > 0.0 ==> cs[k] in r)
  {
    assert cs == [cs[0]] + cs[1..];
    assert multiset(cs) == multiset{cs[0]} + multiset(cs[1..]);
  }

  /** The ranking tail shared by every optimiser: top five of a stable
      descending sort, and the first of them or the fallback. */
  function Select<P>(cands: seq<Candidate<P>>, fallback: P): (o: Outcome<P>)
    ensures |o.top| <= 5 && Sorted(o.top) && multiset(o.top) <= multiset(cands)
    ensures |cands| == 0 ==> o.best == fallback && o.top == []
    ensures |cands| > 0 ==> |o.top| > 0 && o.top[0].params == o.best
    ensures |cands| > 0 ==> o.best == cands[FirstMax(cands)].params
  {
    var top := Top5(cands);
    if |top| == 0 then Outcome(fallback, top)
    else
      TopLeadsWithFirstMax(cands, FirstMax(cands));
      Outcome(top[0].params, top)
  }

  /** Every reported record is a genuine record of the candidate list. */
  lemma {:induction false} TopFromCandidates<P>(top: seq<Candidate<P>>, cands: seq<Candidate<P>>, k: nat)
    requires multiset(top) <= multiset(cands) && k < |top|
    ensures exists i :: 0 <= i < |cands| && cands[i] == top[k]
  {
    assert top[k] in multiset(top);
    assert top[k] in multiset(cands);
    assert top[k] in cands;
  }

  /** In a strictly increasing enumeration a lexicographically smaller
      grid point sits at a smaller position. */
  lemma EarlierPosition(g: seq<(int, int)>, j: nat, k: nat)
    requires forall a, b :: 0 <= a < b < |g| ==> LexLess(g[a], g[b])
    requires j < |g| && k < |g| && LexLess(g[k], g[j])
    ensures k < j
  {
  }

  /** Pointwise facts of Select over an evaluated grid: the answer is the
      first maximum, it beats or ties grid point k, and strictly beats it
      when k comes first. */
  lemma Beats<P>(grid: seq<P>, ret: P -> real, fallback: P, k: nat)
    requires k < |grid|
    ensures var cands := Evaluate(grid, ret);
      var j := FirstMax(cands);
      var o := Select(cands, fallback);
      && o.best == grid[j]
      && ret(grid[k]) <= ret(o.best)
      && (k < j ==> ret(grid[k]) < ret(o.best))
  {
  }

  /** Every reported record is an evaluated grid point with its return. */
  lemma Reported<P>(grid: seq<P>, ret: P -> real, fallback: P, k: nat)
    requires k < |Select(Evaluate(grid, ret), fallback).top|
    ensures var o := Select(Evaluate(grid, ret), fallback);
      exists i :: 0 <= i < |grid| && o.top[k] == Candidate(grid[i], ret(grid[i]))
  {
    var cands := Evaluate(grid, ret);
    TopFromCandidates(Select(cands, fallback).top, cands, k);
  }

  // ---------------------------------------------------------------- MACD

  function MacdParamGrid(lo: int, hi: int): (ps: seq<MacdParams>)
    ensures |ps| == |MacdGrid(lo, hi)|
    ensures forall k :: 0 <= k < |ps| ==> ps[k] == MacdParams(MacdGrid(lo, hi)[k].0, MacdGrid(lo, hi)[k].1)
  {
    var g := MacdGrid(lo, hi);
    seq(|g|, k requires 0 <= k < |g| => MacdParams(g[k].0, g[k].1))
  }

  /** The uncached search of `optimize_macd`, on bounds where every
      backtested pair has spans of at least 1.  With fewer than two lengths
      there is no pair and the fallback (min, min + 1) is returned;
      otherwise the answer is a pair of the triangle with the largest
      return, and every lexicographically earlier pair has a strictly
      smaller one (ties go to the pair enumerated first). */
  function SearchMacd(lo: int, hi: int, ret: MacdParams -> real): (o: Outcome<MacdParams>)
    requires lo >= 1 || hi <= lo
    ensures |o.top| <= 5 && Sorted(o.top)
    ensures forall k :: 0 <= k < |o.top| ==>
      var p := o.top[k].params; lo <= p.fast < p.slow <= hi && o.top[k].ret == ret(p)
    ensures hi <= lo ==> o.best == MacdParams(lo, lo + 1) && o.top == []
    ensures lo < hi ==> lo <= o.best.fast < o.best.slow <= hi
    ensures lo < hi ==> forall f, s :: lo <= f < s <= hi ==> ret(MacdParams(f, s)) <= ret(o.best)
    ensures lo < hi ==> forall f, s :: (lo <= f < s <= hi && LexLess((f, s), (o.best.fast, o.best.slow))) ==>
      ret(MacdParams(f, s)) < ret(o.best)
  {
    MacdReported(lo, hi, ret);
    MacdBest(lo, hi, ret);
    Select(Evaluate(MacdParamGrid(lo, hi), ret), MacdParams(lo, lo + 1))
  }

  lemma MacdReported(lo: int, hi: int, ret: MacdParams -> real)
    ensures var o := Select(Evaluate(MacdParamGrid(lo, hi), ret), MacdParams(lo, lo + 1));
      forall k :: 0 <= k < |o.top| ==>
        var p := o.top[k].params; lo <= p.fast < p.slow <= hi && o.top[k].ret == ret(p)
  {
    var o := Select(Evaluate(MacdParamGrid(lo, hi), ret), MacdParams(lo, lo + 1));
    forall k | 0 <= k < |o.top|
      ensures var p := o.top[k].params; lo <= p.fast < p.slow <= hi && o.top[k].ret == ret(p)
    {
      MacdReportedAt(lo, hi, ret, k);
    }
  }

  /** One reported MACD record: a triangle pair with its return. */
  lemma MacdReportedAt(lo: int, hi: int, ret: MacdParams -> real, k: nat)
    requires k < |Select(Evaluate(MacdParamGrid(lo, hi), ret), MacdParams(lo, lo + 1)).top|
    ensures var o := Select(Evaluate(MacdParamGrid(lo, hi), ret), MacdParams(lo, lo + 1));
      var p := o.top[k].params; lo <= p.fast < p.slow <= hi && o.top[k].ret == ret(p)
  {
    var g := MacdGrid(lo, hi);
    var pg := MacdParamGrid(lo, hi);
    var o := Select(Evaluate(pg, ret), MacdParams(lo, lo + 1));
    Reported(pg, ret, MacdParams(lo, lo + 1), k);
    var i :| 0 <= i < |pg| && o.top[k] == Candidate(pg[i], ret(pg[i]));
    MacdGridShape(lo, hi);
    assert lo <= g[i].0 < g[i].1 <= hi;
    assert pg[i] == MacdParams(g[i].0, g[i].1);
  }

  lemma MacdBest(lo: int, hi: int, ret: MacdParams -> real)
    ensures var o := Select(Evaluate(MacdParamGrid(lo, hi), ret), MacdParams(lo, lo + 1));
      && (hi <= lo ==> o.best == MacdParams(lo, lo + 1) && o.top == [])
      && (lo < hi ==> lo <= o.best.fast < o.best.slow <= hi)
      && (lo < hi ==> forall f, s :: lo <= f < s <= hi ==> ret(MacdParams(f, s)) <= ret(o.best))
      && (lo < hi ==> forall f, s :: (lo <= f < s <= hi && LexLess((f, s), (o.best.fast, o.best.slow))) ==>
            ret(MacdParams(f, s)) < ret(o.best))
  {
    var g := MacdGrid(lo, hi);
    var pg := MacdParamGrid(lo, hi);
    var o := Select(Evaluate(pg, ret), MacdParams(lo, lo + 1));
    MacdGridShape(lo, hi);
    if hi <= lo {
      assert |g| == 0;
    } else {
      assert (lo, hi) in g;
      Beats(pg, ret, MacdParams(lo, lo + 1), 0);
      forall f, s | lo <= f < s <= hi
        ensures ret(MacdParams(f, s)) <= ret(o.best)
        ensures LexLess((f, s), (o.best.fast, o.best.slow)) ==> ret(MacdParams(f, s)) < ret(o.best)
      {
        MacdPoint(lo, hi, ret, f, s);
      }
    }
  }

  lemma MacdPoint(lo: int, hi: int, ret: MacdParams -> real, f: int, s: int)
    requires lo <= f < s <= hi
    ensures var o := Select(Evaluate(MacdParamGrid(lo, hi), ret), MacdParams(lo, lo + 1));
      && ret(MacdParams(f, s)) <= ret(o.best)
      && (LexLess((f, s), (o.best.fast, o.best.slow)) ==> ret(MacdParams(f, s)) < ret(o.best))
  {
    var g := MacdGrid(lo, hi);
    var pg := MacdParamGrid(lo, hi);
    var cands := Evaluate(pg, ret);
    var o := Select(cands, MacdParams(lo, lo + 1));
    MacdGridShape(lo, hi);
    assert (f, s) in g;
    var k :| 0 <= k < |g| && g[k] == (f, s);
    Beats(pg, ret, MacdParams(lo, lo + 1), k);
    var j := FirstMax(cands);
    assert g[j] == (o.best.fast, o.best.slow);
    if LexLess((f, s), (o.best.fast, o.best.slow)) {
      EarlierPosition(g, j, k);
    }
  }

  /** `parameter_cache`: best MACD parameters per ("MACD", min, max) key. */
  datatype CacheKey = CacheKey(name: string, lo: int, hi: int)

  type Cache = map<CacheKey, MacdParams>

  /** One call of `optimize_macd`: its answer, the grid points it
      backtested, the ranked top list it reported and the updated cache. */
  datatype MacdRun = MacdRun(best: MacdParams, evaluated: seq<MacdParams>, top: seq<Candidate<MacdParams>>, cache: Cache)

  function MacdKey(lo: int, hi: int): CacheKey {
    CacheKey("MACD", lo, hi)
  }

  /** `optimize_macd`: a cache hit returns the stored answer without
      backtesting anything and leaves the cache as it was.  On a miss the
      first pair backtested is (min, min + 1); when min is below 1 its
      `ewm(span=min)` raises pandas' span ValueError, which leaves the
      optimiser before the cache is written.  Otherwise the search runs over
      the whole grid and its answer is recorded. */
  function OptimizeMacd(cache: Cache, lo: int, hi: int, ret: MacdParams -> real): (r: Result<MacdRun>)
    ensures r.Err? <==> MacdKey(lo, hi) !in cache && lo < 1 && lo < hi
    ensures r.Err? ==> r.error == ValueError(Macd.SpanError)
    ensures r.Ok? && MacdKey(lo, hi) in cache ==>
      r.value.best == cache[MacdKey(lo, hi)] && r.value.evaluated == [] && r.value.cache == cache
    ensures r.Ok? && MacdKey(lo, hi) !in cache ==>
      && r.value.evaluated == MacdParamGrid(lo, hi)
      && r.value.cache == cache[MacdKey(lo, hi) := r.value.best]
      && r.value.best == SearchMacd(lo, hi, ret).best
    ensures r.Ok? ==> |r.value.top| <= 5 && Sorted(r.value.top)
    ensures r.Ok? ==> r.value.cache.Keys == cache.Keys + {MacdKey(lo, hi)}
  {
    var key := MacdKey(lo, hi);
    if key in cache then Ok(MacdRun(cache[key], [], [], cache))
    else if lo < 1 && lo < hi then Err(ValueError(Macd.SpanError))
    else
      var o := SearchMacd(lo, hi, ret);
      Ok(MacdRun(o.best, MacdParamGrid(lo, hi), o.top, cache[key := o.best]))
  }

  /** The memo ignores the data: after a call that succeeded, a second call
      with the same bounds returns the same answer whatever the backtest
      returns are now, evaluates nothing and changes nothing.  After a call
      that raised, the cache is as it was and a second call raises too. */
  lemma Memoised(cache: Cache, lo: int, hi: int, ret1: MacdParams -> real, ret2: MacdParams -> real)
    ensures var first := OptimizeMacd(cache, lo, hi, ret1);
      first.Ok? ==>
        var second := OptimizeMacd(first.value.cache, lo, hi, ret2);
        && second.Ok?
        && second.value.best == first.value.best
        && second.value.evaluated == []
        && second.value.cache == first.value.cache
    ensures OptimizeMacd(cache, lo, hi, ret1).Err? ==> OptimizeMacd(cache, lo, hi, ret2).Err?
  {
  }

  // -------------------------------------------------------- Bollinger Bands

  function BollingerParamGrid(minL: int, maxL: int, minT: int, maxT: int): (ps: seq<BollingerParams>)
    ensures var g := Product(Range(minL, maxL), Range(minT, maxT));
      |ps| == |g| && forall k :: 0 <= k < |g| ==> ps[k] == BollingerParams(g[k].0, g[k].1)
  {
    var g := Product(Range(minL, maxL), Range(minT, maxT));
    seq(|g|, k requires 0 <= k < |g| => BollingerParams(g[k].0, g[k].1))
  }

  /** `optimize_bollinger_bands` with the multiplier range in tenths.  Only
      strictly positive returns are recorded, so every reported record and,
      when some grid point earns a positive return, the answer itself have a
      positive return; the answer then beats or ties every grid point.  With
      no positive return the fallback (min_length, min_std) is returned. */
  function OptimizeBollinger(minL: int, maxL: int, minT: int, maxT: int, ret: BollingerParams -> real): (o: Outcome<BollingerParams>)
    ensures |o.top| <= 5 && Sorted(o.top)
    ensures forall k :: 0 <= k < |o.top| ==>
      var p := o.top[k].params;
      minL <= p.length <= maxL && minT <= p.tenths <= maxT && o.top[k].ret == ret(p) && o.top[k].ret > 0.0
    ensures (forall l, t :: minL <= l <= maxL && minT <= t <= maxT ==> ret(BollingerParams(l, t)) <= 0.0) ==>
      o.best == BollingerParams(minL, minT) && o.top == []
    ensures forall l, t :: minL <= l <= maxL && minT <= t <= maxT && ret(BollingerParams(l, t)) > 0.0 ==>
      && minL <= o.best.length <= maxL && minT <= o.best.tenths <= maxT
      && ret(BollingerParams(l, t)) <= ret(o.best)
  {
    var cands := BollingerCandidates(minL, maxL, minT, maxT, ret);
    var o := Select(cands, BollingerParams(minL, minT));
    BollingerReported(minL, maxL, minT, maxT, ret);
    forall l, t | minL <= l <= maxL && minT <= t <= maxT && ret(BollingerParams(l, t)) > 0.0
      ensures minL <= o.best.length <= maxL && minT <= o.best.tenths <= maxT
      ensures ret(BollingerParams(l, t)) <= ret(o.best)
    {
      BollingerPoint(minL, maxL, minT, maxT, ret, l, t);
    }
    o
  }

  /** The recorded candidates: the evaluated grid points with a positive
      return, in enumeration order. */
  function BollingerCandidates(minL: int, maxL: int, minT: int, maxT: int, ret: BollingerParams -> real): (cs: seq<Candidate<BollingerParams>>)
    ensures forall i :: 0 <= i < |cs| ==>
      var p := cs[i].params;
      minL <= p.length <= maxL && minT <= p.tenths <= maxT && cs[i].ret == ret(p) && cs[i].ret > 0.0
  {
    var all := Evaluate(BollingerParamGrid(minL, maxL, minT, maxT), ret);
    var cs := Positive(all);
    TableShape(minL, maxL, minT, maxT);
    forall i | 0 <= i < |cs|
      ensures var p := cs[i].params;
        minL <= p.length <= maxL && minT <= p.tenths <= maxT && cs[i].ret == ret(p)
    {
      assert cs[i] in multiset(all);
      assert cs[i] in all;
    }
    cs
  }

  lemma BollingerReported(minL: int, maxL: int, minT: int, maxT: int, ret: BollingerParams -> real)
    ensures var o := Select(BollingerCandidates(minL, maxL, minT, maxT, ret), BollingerParams(minL, minT));
      && (forall k :: 0 <= k < |o.top| ==>
            var p := o.top[k].params;
            minL <= p.length <= maxL && minT <= p.tenths <= maxT && o.top[k].ret == ret(p) && o.top[k].ret > 0.0)
      && ((forall l, t :: minL <= l <= maxL && minT <= t <= maxT ==> ret(BollingerParams(l, t)) <= 0.0) ==>
            o.best == BollingerParams(minL, minT) && o.top == [])
  {
    var cands := BollingerCandidates(minL, maxL, minT, maxT, ret);
    var o := Select(cands, BollingerParams(minL, minT));
    forall k | 0 <= k < |o.top|
      ensures var p := o.top[k].params;
        minL <= p.length <= maxL && minT <= p.tenths <= maxT && o.top[k].ret == ret(p) && o.top[k].ret > 0.0
    {
      TopFromCandidates(o.top, cands, k);
    }
    if |cands| > 0 {
      var p := cands[0].params;
      assert ret(BollingerParams(p.length, p.tenths)) > 0.0;
    }
  }

  lemma BollingerPoint(minL: int, maxL: int, minT: int, maxT: int, ret: BollingerParams -> real, l: int, t: int)
    requires minL <= l <= maxL && minT <= t <= maxT && ret(BollingerParams(l, t)) > 0.0
    ensures var o := Select(BollingerCandidates(minL, maxL, minT, maxT, ret), BollingerParams(minL, minT));
      && minL <= o.best.length <= maxL && minT <= o.best.tenths <= maxT
      && ret(BollingerParams(l, t)) <= ret(o.best)
  {
    var g := Product(Range(minL, maxL), Range(minT, maxT));
    var all := Evaluate(BollingerParamGrid(minL, maxL, minT, maxT), ret);
    var cands := BollingerCandidates(minL, maxL, minT, maxT, ret);
    TableShape(minL, maxL, minT, maxT);
    assert (l, t) in g;
    var k :| 0 <= k < |g| && g[k] == (l, t);
    assert all[k] in Positive(all);
    var i :| 0 <= i < |cands| && cands[i] == all[k];
    var j := FirstMax(cands);
    assert cands[i].ret <= cands[j].ret;
  }

  // -------------------------------------------------------------------- CCI

  function CciParamGrid(lo: int, hi: int): (ps: seq<CciParams>)
    ensures |ps| == |Range(lo, hi)|
    ensures forall k :: 0 <= k < |ps| ==> ps[k] == CciParams(lo + k)
  {
    var g := Range(lo, hi);
    seq(|g|, k requires 0 <= k < |g| => CciParams(g[k]))
  }

  /** `optimize_cci`: over lengths lo..hi, the answer is the shortest length
      with the largest return; an empty range gives the fallback lo. */
  function OptimizeCci(lo: int, hi: int, ret: CciParams -> real): (o: Outcome<CciParams>)
    ensures |o.top| <= 5 && Sorted(o.top)
    ensures forall k :: 0 <= k < |o.top| ==>
      lo <= o.top[k].params.length <= hi && o.top[k].ret == ret(o.top[k].params)
    ensures hi < lo ==> o.best == CciParams(lo) && o.top == []
    ensures lo <= hi ==> lo <= o.best.length <= hi
    ensures lo <= hi ==> forall l :: lo <= l <= hi ==> ret(CciParams(l)) <= ret(o.best)
    ensures lo <= hi ==> forall l :: lo <= l < o.best.length ==> ret(CciParams(l)) < ret(o.best)
  {
    var o := Select(Evaluate(CciParamGrid(lo, hi), ret), CciParams(lo));
    CciReported(lo, hi, ret);
    forall l | lo <= l <= hi
      ensures lo <= o.best.length <= hi
      ensures ret(CciParams(l)) <= ret(o.best)
      ensures l < o.best.length ==> ret(CciParams(l)) < ret(o.best)
    {
      CciPoint(lo, hi, ret, l);
    }
    o
  }

  lemma CciReported(lo: int, hi: int, ret: CciParams -> real)
    ensures var o := Select(Evaluate(CciParamGrid(lo, hi), ret), CciParams(lo));
      forall k :: 0 <= k < |o.top| ==>
        lo <= o.top[k].params.length <= hi && o.top[k].ret == ret(o.top[k].params)
  {
    var grid := CciParamGrid(lo, hi);
    var o := Select(Evaluate(grid, ret), CciParams(lo));
    forall k | 0 <= k < |o.top|
      ensures lo <= o.top[k].params.length <= hi && o.top[k].ret == ret(o.top[k].params)
    {
      Reported(grid, ret, CciParams(lo), k);
      var i :| 0 <= i < |grid| && o.top[k] == Candidate(grid[i], ret(grid[i]));
      assert grid[i] == CciParams(lo + i);
    }
  }

  /** One length against the answer: at most as good, strictly worse when
      shorter. */
  lemma CciPoint(lo: int, hi: int, ret: CciParams -> real, l: int)
    requires lo <= l <= hi
    ensures var o := Select(Evaluate(CciParamGrid(lo, hi), ret), CciParams(lo));
      && lo <= o.best.length <= hi
      && ret(CciParams(l)) <= ret(o.best)
      && (l < o.best.length ==> ret(CciParams(l)) < ret(o.best))
  {
    var grid := CciParamGrid(lo, hi);
    var cands := Evaluate(grid, ret);
    var o := Select(cands, CciParams(lo));
    var j := FirstMax(cands);
    Beats(grid, ret, CciParams(lo), l - lo);
    assert grid[l - lo] == CciParams(l);
    assert o.best == grid[j] == CciParams(lo + j);
  }

  // -------------------------------------------------------------------- ADX

  function AdxParamGrid(minL: int, maxL: int, minT: int, maxT: int): (ps: seq<AdxParams>)
    ensures var g := Product(Range(minL, maxL), Range(minT, maxT));
      |ps| == |g| && forall k :: 0 <= k < |g| ==> ps[k] == AdxParams(g[k].0, g[k].1)
  {
    var g := Product(Range(minL, maxL), Range(minT, maxT));
    seq(|g|, k requires 0 <= k < |g| => AdxParams(g[k].0, g[k].1))
  }

  /** The table of two ranges, like the triangle, is strictly increasing in
      lexicographic (length-major) order. */
  lemma {:induction false} TableIncreasing(lo1: int, hi1: int, lo2: int, hi2: int)
    ensures var g := Product(Range(lo1, hi1), Range(lo2, hi2));
      forall i, j :: 0 <= i < j < |g| ==> LexLess(g[i], g[j])
    decreases hi1 - lo1
  {
    if lo1 <= hi1 {
      var xs := Range(lo1, hi1);
      var ys := Range(lo2, hi2);
      var row := Row(lo1, ys);
      var rest := Product(Range(lo1 + 1, hi1), ys);
      var g := Product(xs, ys);
      assert xs[1..] == Range(lo1 + 1, hi1);
      assert g == row + rest;
      TableIncreasing(lo1 + 1, hi1, lo2, hi2);
      TableShape(lo1 + 1, hi1, lo2, hi2);
      forall i, j | 0 <= i < j < |g|
        ensures LexLess(g[i], g[j])
      {
        if j < |row| {
          assert g[i] == (lo1, lo2 + i) && g[j] == (lo1, lo2 + j);
        } else if i < |row| {
          assert g[j] == rest[j - |row|];
        } else {
          assert g[i] == rest[i - |row|] && g[j] == rest[j - |row|];
        }
      }
    }
  }

  /** `optimize_adx`: over the length-major table of (length, threshold)
      the answer has the largest return and every earlier point a strictly
      smaller one; an empty table gives the fallback (min_length,
      min_threshold). */
  function OptimizeAdx(minL: int, maxL: int, minT: int, maxT: int, ret: AdxParams -> real): (o: Outcome<AdxParams>)
    ensures |o.top| <= 5 && Sorted(o.top)
    ensures forall k :: 0 <= k < |o.top| ==>
      var p := o.top[k].params;
      minL <= p.length <= maxL && minT <= p.threshold <= maxT && o.top[k].ret == ret(p)
    ensures (maxL < minL || maxT < minT) ==> o.best == AdxParams(minL, minT) && o.top == []
    ensures forall l, t :: minL <= l <= maxL && minT <= t <= maxT ==>
      && minL <= o.best.length <= maxL && minT <= o.best.threshold <= maxT
      && ret(AdxParams(l, t)) <= ret(o.best)
      && (LexLess((l, t), (o.best.length, o.best.threshold)) ==> ret(AdxParams(l, t)) < ret(o.best))
  {
    AdxReported(minL, maxL, minT, maxT, ret);
    AdxBest(minL, maxL, minT, maxT, ret);
    Select(Evaluate(AdxParamGrid(minL, maxL, minT, maxT), ret), AdxParams(minL, minT))
  }

  lemma AdxReported(minL: int, maxL: int, minT: int, maxT: int, ret: AdxParams -> real)
    ensures var o := Select(Evaluate(AdxParamGrid(minL, maxL, minT, maxT), ret), AdxParams(minL, minT));
      && (forall k :: 0 <= k < |o.top| ==>
            var p := o.top[k].params;
            minL <= p.length <= maxL && minT <= p.threshold <= maxT && o.top[k].ret == ret(p))
      && ((maxL < minL || maxT < minT) ==> o.best == AdxParams(minL, minT) && o.top == [])
  {
    var grid := AdxParamGrid(minL, maxL, minT, maxT);
    var o := Select(Evaluate(grid, ret), AdxParams(minL, minT));
    TableShape(minL, maxL, minT, maxT);
    forall k | 0 <= k < |o.top|
      ensures var p := o.top[k].params;
        minL <= p.length <= maxL && minT <= p.threshold <= maxT && o.top[k].ret == ret(p)
    {
      Reported(grid, ret, AdxParams(minL, minT), k);
    }
  }

  lemma AdxBest(minL: int, maxL: int, minT: int, maxT: int, ret: AdxParams -> real)
    ensures var o := Select(Evaluate(AdxParamGrid(minL, maxL, minT, maxT), ret), AdxParams(minL, minT));
      forall l, t :: minL <= l <= maxL && minT <= t <= maxT ==>
        && minL <= o.best.length <= maxL && minT <= o.best.threshold <= maxT
        && ret(AdxParams(l, t)) <= ret(o.best)
        && (LexLess((l, t), (o.best.length, o.best.threshold)) ==> ret(AdxParams(l, t)) < ret(o.best))
  {
    var o := Select(Evaluate(AdxParamGrid(minL, maxL, minT, maxT), ret), AdxParams(minL, minT));
    forall l, t | minL <= l <= maxL && minT <= t <= maxT
      ensures minL <= o.best.length <= maxL && minT <= o.best.threshold <= maxT
      ensures ret(AdxParams(l, t)) <= ret(o.best)
      ensures LexLess((l, t), (o.best.length, o.best.threshold)) ==> ret(AdxParams(l, t)) < ret(o.best)
    {
      AdxPoint(minL, maxL, minT, maxT, ret, l, t);
    }
  }

  lemma AdxPoint(minL: int, maxL: int, minT: int, maxT: int, ret: AdxParams -> real, l: int, t: int)
    requires minL <= l <= maxL && minT <= t <= maxT
    ensures var o := Select(Evaluate(AdxParamGrid(minL, maxL, minT, maxT), ret), AdxParams(minL, minT));
      && minL <= o.best.length <= maxL && minT <= o.best.threshold <= maxT
      && ret(AdxParams(l, t)) <= ret(o.best)
      && (LexLess((l, t), (o.best.length, o.best.threshold)) ==> ret(AdxParams(l, t)) < ret(o.best))
  {
    var g := Product(Range(minL, maxL), Range(minT, maxT));
    var grid := AdxParamGrid(minL, maxL, minT, maxT);
    var cands := Evaluate(grid, ret);
    var o := Select(cands, AdxParams(minL, minT));
    TableShape(minL, maxL, minT, maxT);
    TableIncreasing(minL, maxL, minT, maxT);
    assert (l, t) in g;
    var k :| 0 <= k < |g| && g[k] == (l, t);
    Beats(grid, ret, AdxParams(minL, minT), k);
    var j := FirstMax(cands);
    assert g[j] == (o.best.length, o.best.threshold);
    if LexLess((l, t), (o.best.length, o.best.threshold)) {
      EarlierPosition(g, j, k);
    }
  }
}
