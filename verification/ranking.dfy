/** The ranking step shared by the four optimisers (utils.py):
    `sorted(results, key=return, reverse=True)[:5]` and `top_results[0]`.

    Python's sort is stable, also with reverse=True: candidates with equal
    returns keep their enumeration order.  The model sorts by insertion,
    placing each new candidate after every earlier one with a return at
    least as large.
 */
module Ranking {
  /** One entry of `results`: the parameters and the backtest return. */
  datatype Candidate<P> = Candidate(params: P, ret: real)

  predicate Sorted<P>(s: seq<Candidate<P>>) {
    forall i, j :: 0 <= i < j < |s| ==> s[i].ret >= s[j].ret
  }

  /** Insert x after every element whose return is at least x's. */
  function Insert<P>(x: Candidate<P>, s: seq<Candidate<P>>): (r: seq<Candidate<P>>)
    ensures |r| == |s| + 1
    ensures multiset(r) == multiset(s) + multiset{x}
    ensures r[0] == x || (|s| > 0 && r[0] == s[0])
  {
    if |s| == 0 then [x]
    else if s[0].ret >= x.ret then
      assert s == [s[0]] + s[1..];
      [s[0]] + Insert(x, s[1..])
    else [x] + s
  }

  lemma {:induction false} InsertSorted<P>(x: Candidate<P>, s: seq<Candidate<P>>)
    requires Sorted(s)
    ensures Sorted(Insert(x, s))
  {
    if |s| > 0 && s[0].ret >= x.ret {
      var rest := Insert(x, s[1..]);
      InsertSorted(x, s[1..]);
      assert rest[0].ret <= s[0].ret;
      assert Insert(x, s) == [s[0]] + rest;
    }
  }

  /** `sorted(..., reverse=True)`: insertion of the candidates in
      enumeration order. */
  function SortDesc<P>(s: seq<Candidate<P>>): (r: seq<Candidate<P>>)
    ensures |r| == |s|
    ensures multiset(r) == multiset(s)
    ensures Sorted(r)
  {
    if |s| == 0 then []
    else
      var init := SortDesc(s[..|s| - 1]);
      assert s == s[..|s| - 1] + [s[|s| - 1]];
      InsertSorted(s[|s| - 1], init);
      Insert(s[|s| - 1], init)
  }

  /** The candidates with return exactly v, in order. */
  function WithReturn<P>(s: seq<Candidate<P>>, v: real): seq<Candidate<P>> {
    if |s| == 0 then [] else Keep(s[0], v) + WithReturn(s[1..], v)
  }

  function Keep<P>(c: Candidate<P>, v: real): seq<Candidate<P>> {
    if c.ret == v then [c] else []
  }

  lemma WithReturnSingle<P>(c: Candidate<P>, v: real)
    ensures WithReturn([c], v) == Keep(c, v)
  {
    assert WithReturn([c], v) == Keep(c, v) + WithReturn([c][1..], v);
  }

  lemma {:induction false} WithReturnAppend<P>(a: seq<Candidate<P>>, b: seq<Candidate<P>>, v: real)
    ensures WithReturn(a + b, v) == WithReturn(a, v) + WithReturn(b, v)
  {
    if |a| > 0 {
      assert (a + b)[1..] == a[1..] + b;
      WithReturnAppend(a[1..], b, v);
    } else {
      assert a + b == b;
    }
  }

  lemma {:induction false} WithReturnNone<P>(s: seq<Candidate<P>>, v: real)
    requires forall k :: 0 <= k < |s| ==> s[k].ret < v
    ensures WithReturn(s, v) == []
  {
    if |s| > 0 {
      WithReturnNone(s[1..], v);
    }
  }

  lemma {:induction false} InsertStable<P>(x: Candidate<P>, s: seq<Candidate<P>>, v: real)
    requires Sorted(s)
    ensures WithReturn(Insert(x, s), v) == WithReturn(s, v) + Keep(x, v)
  {
    if |s| == 0 {
      WithReturnSingle(x, v);
    } else if s[0].ret >= x.ret {
      InsertStable(x, s[1..], v);
      InsertBehind(x, s, v);
    } else {
      InsertAhead(x, s, v);
    }
  }

  /** x goes behind s[0]: the kept elements are s[0]'s, then those of the
      insertion into the tail. */
  lemma {:induction false} InsertBehind<P>(x: Candidate<P>, s: seq<Candidate<P>>, v: real)
    requires |s| > 0 && s[0].ret >= x.ret
    requires WithReturn(Insert(x, s[1..]), v) == WithReturn(s[1..], v) + Keep(x, v)
    ensures WithReturn(Insert(x, s), v) == WithReturn(s, v) + Keep(x, v)
  {
    var rest := Insert(x, s[1..]);
    var h := Keep(s[0], v);
    var a := WithReturn(s[1..], v);
    assert WithReturn(Insert(x, s), v) == h + WithReturn(rest, v) by {
      InsertCons(x, s);
      WithReturnCons(s[0], rest, v);
    }
    assert WithReturn(s, v) == h + a;
    ConcatAssoc(h, a, Keep(x, v));
  }

  lemma ConcatAssoc<T>(a: seq<T>, b: seq<T>, c: seq<T>)
    ensures a + (b + c) == (a + b) + c
  {
  }

  lemma InsertCons<P>(x: Candidate<P>, s: seq<Candidate<P>>)
    requires |s| > 0 && s[0].ret >= x.ret
    ensures Insert(x, s) == [s[0]] + Insert(x, s[1..])
  {
  }

  lemma WithReturnCons<P>(c: Candidate<P>, t: seq<Candidate<P>>, v: real)
    ensures WithReturn([c] + t, v) == Keep(c, v) + WithReturn(t, v)
  {
    assert ([c] + t)[1..] == t;
  }

  /** x goes in front of a sorted s whose returns are all below x's. */
  lemma {:induction false} InsertAhead<P>(x: Candidate<P>, s: seq<Candidate<P>>, v: real)
    requires Sorted(s) && |s| > 0 && s[0].ret < x.ret
    ensures WithReturn(Insert(x, s), v) == WithReturn(s, v) + Keep(x, v)
  {
    assert Insert(x, s) == [x] + s;
    WithReturnAppend([x], s, v);
    WithReturnSingle(x, v);
    if x.ret == v {
      WithReturnNone(s, v);
    }
  }

  /** Stability: for every return value, the candidates with that return
      appear in the sorted list in their enumeration order. */
  lemma {:induction false} SortStable<P>(s: seq<Candidate<P>>, v: real)
    ensures WithReturn(SortDesc(s), v) == WithReturn(s, v)
  {
    if |s| > 0 {
      var init := s[..|s| - 1];
      var last := s[|s| - 1];
      var sortedInit := SortDesc(init);
      assert SortDesc(s) == Insert(last, sortedInit);
      SortStable(init, v);
      InsertStable(last, sortedInit, v);
      assert s == init + [last];
      WithReturnAppend(init, [last], v);
      WithReturnSingle(last, v);
      calc {
        WithReturn(SortDesc(s), v);
        WithReturn(sortedInit, v) + Keep(last, v);
        WithReturn(init, v) + WithReturn([last], v);
        WithReturn(s, v);
      }
    }
  }

  /** j is the first position holding the largest return. */
  predicate IsFirstMax<P>(s: seq<Candidate<P>>, j: nat) {
    && j < |s|
    && (forall k :: 0 <= k < |s| ==> s[k].ret <= s[j].ret)
    && (forall k :: 0 <= k < j ==> s[k].ret < s[j].ret)
  }

  /** Position of the first largest return, scanning in enumeration order. */
  function FirstMax<P>(s: seq<Candidate<P>>): (j: nat)
    requires |s| > 0
    ensures IsFirstMax(s, j)
  {
    if |s| == 1 then 0
    else
      var j := FirstMax(s[..|s| - 1]);
      if s[|s| - 1].ret > s[j].ret then |s| - 1 else j
  }

  lemma {:induction false} WithReturnHead<P>(s: seq<Candidate<P>>, j: nat)
    requires j < |s|
    requires forall k :: 0 <= k < j ==> s[k].ret != s[j].ret
    ensures |WithReturn(s, s[j].ret)| > 0 && WithReturn(s, s[j].ret)[0] == s[j]
  {
    if j > 0 {
      WithReturnHead(s[1..], j - 1);
    }
  }

  /** The head of the sorted list is the first candidate, in enumeration
      order, with the largest return. */
  lemma SortHeadIsFirstMax<P>(s: seq<Candidate<P>>, j: nat)
    requires IsFirstMax(s, j)
    ensures SortDesc(s)[0] == s[j]
  {
    var r := SortDesc(s);
    var m := s[j].ret;
    assert r[0] in multiset(s);
    assert s[j] in multiset(r);
    assert r[0].ret == m;
    SortStable(s, m);
    WithReturnHead(s, j);
    WithReturnHead(r, 0);
  }

  /** `sorted(...)[:5]`. */
  function Top5<P>(s: seq<Candidate<P>>): (r: seq<Candidate<P>>)
    ensures |r| == if |s| < 5 then |s| else 5
    ensures Sorted(r)
    ensures multiset(r) <= multiset(s)
    ensures forall k :: 0 <= k < |s| ==> r == [] || s[k].ret <= r[0].ret
    ensures forall k :: 0 <= k < |s| && |r| > 0 && s[k].ret > r[|r| - 1].ret ==> s[k] in r
  {
    var sorted := SortDesc(s);
    var n := if |s| < 5 then |s| else 5;
    var r := sorted[..n];
    PrefixSorted(sorted, n);
    PrefixMultiset(sorted, n);
    forall k | 0 <= k < |s|
      ensures r == [] || s[k].ret <= r[0].ret
      ensures |r| > 0 && s[k].ret > r[|r| - 1].ret ==> s[k] in r
    {
      TopCovers(s, n, k);
    }
    r
  }

  lemma PrefixSorted<P>(s: seq<Candidate<P>>, n: nat)
    requires Sorted(s) && n <= |s|
    ensures Sorted(s[..n])
  {
    assert forall i :: 0 <= i < n ==> s[..n][i] == s[i];
  }

  lemma PrefixMultiset<T>(s: seq<T>, n: nat)
    requires n <= |s|
    ensures multiset(s[..n]) <= multiset(s)
  {
    assert s == s[..n] + s[n..];
  }

  /** Each candidate appears somewhere in the sorted list, so it does no
      better than the head and, if it beats the n-th entry, sits among the
      first n. */
  lemma TopCovers<P>(s: seq<Candidate<P>>, n: nat, k: nat)
    requires n <= |s| && k < |s|
    ensures var sorted := SortDesc(s);
      && (n > 0 ==> s[k].ret <= sorted[0].ret)
      && (n > 0 && s[k].ret > sorted[n - 1].ret ==> s[k] in sorted[..n])
  {
    var sorted := SortDesc(s);
    assert s[k] in multiset(sorted);
    var p :| 0 <= p < |sorted| && sorted[p] == s[k];
    if n > 0 && s[k].ret > sorted[n - 1].ret {
      assert p < n;
      assert sorted[..n][p] == s[k];
    }
  }

  /** The top list leads with the first maximum. */
  lemma TopLeadsWithFirstMax<P>(s: seq<Candidate<P>>, j: nat)
    requires IsFirstMax(s, j)
    ensures |Top5(s)| > 0 && Top5(s)[0] == s[j]
  {
    SortHeadIsFirstMax(s, j);
  }
}
