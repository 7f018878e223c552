/** The parameter grids the optimisers enumerate (utils.py): Python's
    `range(lo, hi + 1)`, `itertools.product` of two ranges (first factor
    major), and the MACD filter `fast < slow` on the square product.
 */
module Grid {
  /** `range(lo, hi + 1)`: lo, lo + 1, ..., hi. */
  function Range(lo: int, hi: int): (r: seq<int>)
    ensures |r| == if lo <= hi then hi - lo + 1 else 0
    ensures forall k :: 0 <= k < |r| ==> r[k] == lo + k
    decreases hi - lo
  {
    if lo > hi then [] else [lo] + Range(lo + 1, hi)
  }

  /** The pairs (x, y) for y in ys, in order. */
  function Row(x: int, ys: seq<int>): (r: seq<(int, int)>)
    ensures |r| == |ys|
    ensures forall k :: 0 <= k < |ys| ==> r[k] == (x, ys[k])
  {
    seq(|ys|, k requires 0 <= k < |ys| => (x, ys[k]))
  }

  /** `itertools.product(xs, ys)`: one row per x, in order. */
  function Product(xs: seq<int>, ys: seq<int>): (r: seq<(int, int)>)
    ensures |r| == |xs| * |ys|
  {
    if |xs| == 0 then [] else Row(xs[0], ys) + Product(xs[1..], ys)
  }

  /** Element (i, j) of the product sits at position i * |ys| + j: the
      enumeration is first-factor major. */
  lemma {:induction false} ProductIndex(xs: seq<int>, ys: seq<int>, i: nat, j: nat)
    requires i < |xs| && j < |ys|
    ensures i * |ys| + j < |Product(xs, ys)|
    ensures Product(xs, ys)[i * |ys| + j] == (xs[i], ys[j])
  {
    var p := Product(xs, ys);
    assert p == Row(xs[0], ys) + Product(xs[1..], ys);
    if i > 0 {
      ProductIndex(xs[1..], ys, i - 1, j);
      assert i * |ys| + j == |ys| + ((i - 1) * |ys| + j);
    }
  }

  /** Every element of the product is a pair of the factors' elements. */
  lemma {:induction false} ProductMembers(xs: seq<int>, ys: seq<int>, k: nat)
    requires k < |Product(xs, ys)|
    ensures Product(xs, ys)[k].0 in xs && Product(xs, ys)[k].1 in ys
  {
    var p := Product(xs, ys);
    assert p == Row(xs[0], ys) + Product(xs[1..], ys);
    if k >= |ys| {
      ProductMembers(xs[1..], ys, k - |ys|);
    }
  }

  /** The MACD filter: keep the pairs whose first element is smaller. */
  function Ascending(ps: seq<(int, int)>): (r: seq<(int, int)>)
    ensures forall k :: 0 <= k < |r| ==> r[k].0 < r[k].1
  {
    if |ps| == 0 then []
    else (if ps[0].0 < ps[0].1 then [ps[0]] else []) + Ascending(ps[1..])
  }

  lemma {:induction false} AscendingAppend(a: seq<(int, int)>, b: seq<(int, int)>)
    ensures Ascending(a + b) == Ascending(a) + Ascending(b)
  {
    if |a| == 0 {
      assert a + b == b;
    } else {
      assert (a + b)[1..] == a[1..] + b;
      AscendingAppend(a[1..], b);
    }
  }

  /** The MACD grid: product(range(lo, hi + 1), repeat=2) filtered by
      fast < slow. */
  function MacdGrid(lo: int, hi: int): seq<(int, int)> {
    Ascending(Product(Range(lo, hi), Range(lo, hi)))
  }

  /** Reference enumeration of the pairs lo <= fast < slow <= hi, row by
      row: fast = a with every slow above it, then the rows above a. */
  function Pairs(a: int, hi: int): seq<(int, int)>
    decreases hi - a
  {
    if a > hi then [] else Row(a, Range(a + 1, hi)) + Pairs(a + 1, hi)
  }

  /** Filtering one row keeps exactly the slows above x. */
  lemma {:induction false} AscendingRow(x: int, b: int, hi: int)
    ensures Ascending(Row(x, Range(b, hi))) == Row(x, Range(if b < x + 1 then x + 1 else b, hi))
    decreases hi - b
  {
    if b <= hi {
      var rest := Range(b + 1, hi);
      assert Range(b, hi) == [b] + rest;
      assert Row(x, Range(b, hi)) == [(x, b)] + Row(x, rest);
      AscendingAppend([(x, b)], Row(x, rest));
      assert Ascending([(x, b)]) == (if x < b then [(x, b)] else []) + Ascending([]);
      AscendingRow(x, b + 1, hi);
      if x < b {
        assert Row(x, Range(b, hi)) == [(x, b)] + Row(x, Range(b + 1, hi));
      }
    } else {
      assert Row(x, Range(b, hi)) == [];
    }
  }

  lemma {:induction false} GridFromPairs(a: int, lo: int, hi: int)
    requires lo <= a
    ensures Ascending(Product(Range(a, hi), Range(lo, hi))) == Pairs(a, hi)
    decreases hi - a
  {
    if a <= hi {
      var ys := Range(lo, hi);
      var xs := Range(a, hi);
      assert xs[1..] == Range(a + 1, hi);
      assert Product(xs, ys) == Row(a, ys) + Product(Range(a + 1, hi), ys);
      AscendingAppend(Row(a, ys), Product(Range(a + 1, hi), ys));
      AscendingRow(a, lo, hi);
      GridFromPairs(a + 1, lo, hi);
    }
  }

  /** The filtered product is the triangular enumeration. */
  lemma MacdGridIsPairs(lo: int, hi: int)
    ensures MacdGrid(lo, hi) == Pairs(lo, hi)
  {
    GridFromPairs(lo, lo, hi);
  }

  /** Every pair of the triangular enumeration lies in the triangle, and
      every pair of the triangle occurs. */
  lemma {:induction false} PairsMembers(a: int, hi: int)
    ensures forall k :: 0 <= k < |Pairs(a, hi)| ==> a <= Pairs(a, hi)[k].0 < Pairs(a, hi)[k].1 <= hi
    ensures forall f, s :: a <= f < s <= hi ==> (f, s) in Pairs(a, hi)
    decreases hi - a
  {
    if a <= hi {
      var row := Row(a, Range(a + 1, hi));
      PairsMembers(a + 1, hi);
      assert Pairs(a, hi) == row + Pairs(a + 1, hi);
      forall f, s | a <= f < s <= hi
        ensures (f, s) in Pairs(a, hi)
      {
        if f == a {
          assert row[s - a - 1] == (f, s);
        } else {
          assert (f, s) in Pairs(a + 1, hi);
        }
      }
    }
  }

  /** The triangle with m = hi - a + 1 rows holds m(m - 1)/2 pairs. */
  lemma {:induction false} PairsCount(a: int, hi: int)
    ensures var m := if a <= hi then hi - a + 1 else 0;
      2 * |Pairs(a, hi)| == m * (m - 1)
    decreases hi - a
  {
    if a <= hi {
      PairsCount(a + 1, hi);
      var m := hi - a + 1;
      assert |Pairs(a, hi)| == (m - 1) + |Pairs(a + 1, hi)|;
      assert 2 * |Pairs(a + 1, hi)| == (m - 1) * (m - 2);
      assert m * (m - 1) == 2 * (m - 1) + (m - 1) * (m - 2);
    }
  }

  predicate LexLess(p: (int, int), q: (int, int)) {
    p.0 < q.0 || (p.0 == q.0 && p.1 < q.1)
  }

  /** The enumeration is strictly increasing in lexicographic order. */
  lemma {:induction false} PairsIncreasing(a: int, hi: int)
    ensures forall i, j :: 0 <= i < j < |Pairs(a, hi)| ==> LexLess(Pairs(a, hi)[i], Pairs(a, hi)[j])
    decreases hi - a
  {
    if a <= hi {
      var row := Row(a, Range(a + 1, hi));
      var rest := Pairs(a + 1, hi);
      var p := Pairs(a, hi);
      assert p == row + rest;
      PairsIncreasing(a + 1, hi);
      PairsMembers(a + 1, hi);
      forall i, j | 0 <= i < j < |p|
        ensures LexLess(p[i], p[j])
      {
        if j < |row| {
          assert p[i] == (a, a + 1 + i) && p[j] == (a, a + 1 + j);
        } else if i < |row| {
          assert p[j] == rest[j - |row|];
        } else {
          assert p[i] == rest[i - |row|] && p[j] == rest[j - |row|];
        }
      }
    }
  }

  /** `optimize_macd` evaluates exactly the pairs lo <= fast < slow <= hi,
      in strictly increasing lexicographic order, n(n - 1)/2 of them for
      n = hi - lo + 1 lengths. */
  lemma MacdGridShape(lo: int, hi: int)
    ensures var g := MacdGrid(lo, hi);
      && (forall k :: 0 <= k < |g| ==> lo <= g[k].0 < g[k].1 <= hi)
      && (forall f, s :: lo <= f < s <= hi ==> (f, s) in g)
      && (forall i, j :: 0 <= i < j < |g| ==> LexLess(g[i], g[j]))
      && (var n := if lo <= hi then hi - lo + 1 else 0; 2 * |g| == n * (n - 1))
  {
    MacdGridIsPairs(lo, hi);
    PairsMembers(lo, hi);
    PairsIncreasing(lo, hi);
    PairsCount(lo, hi);
  }

  /** The product of two ranges is the full table: it has one entry per
      pair, holds every pair of the two ranges and nothing else. */
  lemma TableShape(lo1: int, hi1: int, lo2: int, hi2: int)
    ensures var g := Product(Range(lo1, hi1), Range(lo2, hi2));
      && |g| == |Range(lo1, hi1)| * |Range(lo2, hi2)|
      && (forall k :: 0 <= k < |g| ==> lo1 <= g[k].0 <= hi1 && lo2 <= g[k].1 <= hi2)
      && (forall x, y :: lo1 <= x <= hi1 && lo2 <= y <= hi2 ==> (x, y) in g)
  {
    var xs := Range(lo1, hi1);
    var ys := Range(lo2, hi2);
    var g := Product(xs, ys);
    forall k | 0 <= k < |g|
      ensures lo1 <= g[k].0 <= hi1 && lo2 <= g[k].1 <= hi2
    {
      ProductMembers(xs, ys, k);
    }
    forall x, y | lo1 <= x <= hi1 && lo2 <= y <= hi2
      ensures (x, y) in g
    {
      ProductIndex(xs, ys, x - lo1, y - lo2);
    }
  }
}
