/**
 The theory behind the greedy diversity sample, for any distance that is
 symmetric and satisfies the triangle inequality up to a factor of two. Squared
 Euclidean distance between bins is one, so no square root is needed: comparing
 roots is comparing squares.
 */
module FarthestPoint {

  type Metric<!T> = (T, T) -> nat

  ghost predicate Relaxed<T(!new)>(d: Metric<T>) {
    forall x, y, z :: RelaxedAt(d, x, y, z)
  }

  ghost predicate RelaxedAt<T>(d: Metric<T>, x: T, y: T, z: T) {
    d(x, y) == d(y, x) && d(x, z) <= 2 * d(x, y) + 2 * d(y, z)
  }

  /** Distance from `x` to the nearest of the first `n` of `s`. */
  function MinDist<T>(d: Metric<T>, x: T, s: seq<T>, n: nat): nat
    requires 0 < n <= |s|
  {
    if n == 1 then d(x, s[0])
    else
      var rest, last := MinDist(d, x, s, n - 1), d(x, s[n - 1]);
      if last < rest then last else rest
  }

  lemma {:induction false} NearestOf<T>(d: Metric<T>, x: T, s: seq<T>, n: nat) returns (k: nat)
    requires 0 < n <= |s|
    ensures k < n && MinDist(d, x, s, n) == d(x, s[k])
  {
    if n == 1 {
      k := 0;
    } else {
      k := NearestOf(d, x, s, n - 1);
      k := if d(x, s[n - 1]) < MinDist(d, x, s, n - 1) then n - 1 else k;
    }
  }

  lemma {:induction false} MinDistAtMost<T>(d: Metric<T>, x: T, s: seq<T>, n: nat, k: nat)
    requires k < n <= |s|
    ensures MinDist(d, x, s, n) <= d(x, s[k])
  {
    if k < n - 1 {
      MinDistAtMost(d, x, s, n - 1, k);
    }
  }

  /** Only the first `n` members matter. */
  lemma {:induction false} MinDistPrefix<T>(d: Metric<T>, x: T, s: seq<T>, y: T, n: nat)
    requires 0 < n <= |s|
    ensures MinDist(d, x, s + [y], n) == MinDist(d, x, s, n)
  {
    if 1 < n {
      MinDistPrefix(d, x, s, y, n - 1);
    }
  }

  /** The smallest distance between two of the first `n` of `s`: the spread of a selection. */
  function Spread<T>(d: Metric<T>, s: seq<T>, n: nat): nat
    requires 2 <= n <= |s|
  {
    var last := MinDist(d, s[n - 1], s, n - 1);
    if n == 2 then last
    else
      var rest := Spread(d, s, n - 1);
      if last < rest then last else rest
  }

  /** The spread is attained by a pair and is a lower bound of all pairs. */
  lemma {:induction false} SpreadIsMinimum<T>(d: Metric<T>, s: seq<T>, n: nat) returns (i: nat, j: nat)
    requires 2 <= n <= |s|
    ensures i < j < n && Spread(d, s, n) == d(s[j], s[i])
    ensures forall a, b :: 0 <= a < b < n ==> Spread(d, s, n) <= d(s[b], s[a])
  {
    var k := NearestOf(d, s[n - 1], s, n - 1);
    forall a | 0 <= a < n - 1 ensures Spread(d, s, n) <= d(s[n - 1], s[a]) {
      MinDistAtMost(d, s[n - 1], s, n - 1, a);
    }
    i, j := k, n - 1;
    if 2 < n {
      var i', j' := SpreadIsMinimum(d, s, n - 1);
      if Spread(d, s, n - 1) <= MinDist(d, s[n - 1], s, n - 1) {
        i, j := i', j';
      }
    }
  }

  ghost predicate AllDistinct<T>(s: seq<T>) {
    forall i, j :: 0 <= i < j < |s| ==> s[i] != s[j]
  }

  /** Pick `k` is a cell, and at least as far from all earlier picks as any cell is. */
  ghost predicate FarthestPick<T>(d: Metric<T>, cells: set<T>, s: seq<T>, k: nat)
    requires 0 < k < |s|
  {
    s[k] in cells && forall x :: x in cells ==> MinDist(d, x, s, k) <= MinDist(d, s[k], s, k)
  }

  ghost predicate Greedy<T>(d: Metric<T>, cells: set<T>, s: seq<T>) {
    forall k {:trigger FarthestPick(d, cells, s, k)} :: 0 < k < |s| ==> FarthestPick(d, cells, s, k)
  }

  lemma {:induction false} Pigeonhole(f: seq<nat>, holes: nat) returns (i: nat, j: nat)
    requires holes < |f| && forall k :: 0 <= k < |f| ==> f[k] < holes
    ensures i < j < |f| && f[i] == f[j]
  {
    if AllDistinct(f) {
      InRange(f, holes);
    }
    i, j :| 0 <= i < j < |f| && f[i] == f[j];
  }

  /** Distinct naturals below `holes` are at most `holes` many. */
  lemma {:induction false} InRange(f: seq<nat>, holes: nat)
    requires AllDistinct(f) && forall i :: 0 <= i < |f| ==> f[i] < holes
    ensures |f| <= holes
  {
    if f != [] {
      assert f[0] < holes;
      if i :| 0 <= i < |f| && f[i] == holes - 1 {
        var g := f[..i] + f[i + 1..];
        forall k | 0 <= k < |g| ensures g[k] == f[if k < i then k else k + 1] {}
        InRange(g, holes - 1);
      } else {
        InRange(f, holes - 1);
      }
    }
  }

  /** With greedy picks the distance of the last pick is the spread of the whole selection. */
  lemma {:induction false} GreedySpread<T>(d: Metric<T>, cells: set<T>, s: seq<T>, n: nat)
    requires 2 <= n <= |s| && Greedy(d, cells, s)
    ensures Spread(d, s, n) == MinDist(d, s[n - 1], s, n - 1)
  {
    if 2 < n {
      GreedySpread(d, cells, s, n - 1);
      assert FarthestPick(d, cells, s, n - 2) && FarthestPick(d, cells, s, n - 1);
    }
  }

  /** Two of any |s| cells are near the same one of the first |s|-1 picks, within the last pick's distance. */
  lemma {:induction false} SharedPick<T>(d: Metric<T>, cells: set<T>, s: seq<T>, t: seq<T>)
    returns (i: nat, j: nat, c: T)
    requires 2 <= |s| == |t| && FarthestPick(d, cells, s, |s| - 1)
    requires forall k :: 0 <= k < |t| ==> t[k] in cells
    ensures i < j < |t|
    ensures var r := MinDist(d, s[|s| - 1], s, |s| - 1); d(t[i], c) <= r && d(t[j], c) <= r
  {
    var n := |s| - 1;
    var near := NearestPicks(d, t, s, n, |t|);
    i, j := Pigeonhole(near, n);
    c := s[near[i]];
    assert t[i] in cells && MinDist(d, t[i], s, n) <= MinDist(d, s[n], s, n);
    assert t[j] in cells && MinDist(d, t[j], s, n) <= MinDist(d, s[n], s, n);
    assert s[near[j]] == c;
  }

  lemma {:induction false} NearestPicks<T>(d: Metric<T>, t: seq<T>, s: seq<T>, n: nat, m: nat) returns (near: seq<nat>)
    requires 0 < n <= |s| && m <= |t|
    ensures |near| == m && forall i :: 0 <= i < m ==> near[i] < n
    ensures forall i :: 0 <= i < m ==> d(t[i], s[near[i]]) == MinDist(d, t[i], s, n)
  {
    near := [];
    if 0 < m {
      near := NearestPicks(d, t, s, n, m - 1);
      var k := NearestOf(d, t[m - 1], s, n);
      near := near + [k];
    }
  }

  lemma {:induction false} Close<T(!new)>(d: Metric<T>, x: T, y: T, c: T, r: nat)
    requires Relaxed(d) && d(x, c) <= r && d(y, c) <= r
    ensures d(x, y) <= 4 * r
  {
    assert RelaxedAt(d, x, c, y) && RelaxedAt(d, y, c, x);
  }

  /**
   The greedy selection has at least a quarter of the best squared spread, that
   is half of it in unsquared distance, among all equally large choices of cells.
   */
  lemma {:induction false} HalfApproximation<T(!new)>(d: Metric<T>, cells: set<T>, s: seq<T>, t: seq<T>)
    requires Relaxed(d)
    requires 2 <= |s| == |t| && Greedy(d, cells, s)
    requires forall k :: 0 <= k < |t| ==> t[k] in cells
    ensures Spread(d, t, |t|) <= 4 * Spread(d, s, |s|)
  {
    GreedySpread(d, cells, s, |s|);
    assert FarthestPick(d, cells, s, |s| - 1);
    var i, j, c := SharedPick(d, cells, s, t);
    Close(d, t[j], t[i], c, Spread(d, s, |s|));
    var _, _ := SpreadIsMinimum(d, t, |t|);
  }
}
