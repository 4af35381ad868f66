/**
 Python's `sorted`: stable, here by a real key in ascending order. A sort with
 `reverse=True` keeps the input order of equal elements too, so it is the
 ascending sort by the negated key.
 */
module Sorting {

  function Filter<T(!new)>(xs: seq<T>, p: T -> bool): (r: seq<T>)
    ensures |r| <= |xs|
  {
    if xs == [] then []
    else
      var init := Filter(xs[..|xs| - 1], p);
      if p(xs[|xs| - 1]) then init + [xs[|xs| - 1]] else init
  }

  /** Inserts behind every element whose key is at most the new one. */
  function Insert<T(!new)>(s: seq<T>, x: T, key: T -> real): (r: seq<T>)
    ensures |r| == |s| + 1
  {
    if s == [] then [x]
    else if key(s[0]) <= key(x) then
      [s[0]] + Insert(s[1..], x, key)
    else [x] + s
  }

  function SortBy<T(!new)>(xs: seq<T>, key: T -> real): (r: seq<T>)
    ensures |r| == |xs|
  {
    if xs == [] then []
    else
      Insert(SortBy(xs[..|xs| - 1], key), xs[|xs| - 1], key)
  }

  lemma {:induction false} FilterMember<T(!new)>(xs: seq<T>, p: T -> bool, x: T)
    ensures x in Filter(xs, p) <==> x in xs && p(x)
  {
    if xs != [] {
      FilterMember(xs[..|xs| - 1], p, x);
      assert xs == xs[..|xs| - 1] + [xs[|xs| - 1]];
    }
  }

  lemma {:induction false} InsertMember<T(!new)>(s: seq<T>, x: T, key: T -> real, y: T)
    ensures y in Insert(s, x, key) <==> y == x || y in s
  {
    if s != [] {
      InsertMember(s[1..], x, key, y);
      assert s == [s[0]] + s[1..];
    }
  }

  lemma {:induction false} SortMember<T(!new)>(xs: seq<T>, key: T -> real, y: T)
    ensures y in SortBy(xs, key) <==> y in xs
  {
    if xs != [] {
      SortMember(xs[..|xs| - 1], key, y);
      InsertMember(SortBy(xs[..|xs| - 1], key), xs[|xs| - 1], key, y);
      assert xs == xs[..|xs| - 1] + [xs[|xs| - 1]];
    }
  }

  ghost predicate Ascending<T>(s: seq<T>, key: T -> real) {
    forall i, j :: 0 <= i < j < |s| ==> key(s[i]) <= key(s[j])
  }

  lemma {:induction false} InsertAscending<T(!new)>(s: seq<T>, x: T, key: T -> real)
    requires Ascending(s, key)
    ensures Ascending(Insert(s, x, key), key)
  {
    if s != [] && key(s[0]) <= key(x) {
      InsertAscending(s[1..], x, key);
      var t := Insert(s[1..], x, key);
      forall y | y in t ensures key(s[0]) <= key(y)
      {
        InsertMember(s[1..], x, key, y);
        if y != x { var i :| 0 <= i < |s[1..]| && s[1..][i] == y; assert s[i + 1] == y; }
      }
      forall i, j | 0 <= i < j < |t| + 1 ensures key(([s[0]] + t)[i]) <= key(([s[0]] + t)[j]) {
        assert t[j - 1] in t;
      }
    }
  }

  lemma {:induction false} SortAscending<T(!new)>(xs: seq<T>, key: T -> real)
    ensures Ascending(SortBy(xs, key), key)
  {
    if xs != [] {
      SortAscending(xs[..|xs| - 1], key);
      InsertAscending(SortBy(xs[..|xs| - 1], key), xs[|xs| - 1], key);
    }
  }

  lemma {:induction false} FilterAll<T(!new)>(xs: seq<T>, p: T -> bool)
    requires forall i :: 0 <= i < |xs| ==> p(xs[i])
    ensures Filter(xs, p) == xs
  {
    if xs != [] {
      FilterAll(xs[..|xs| - 1], p);
    }
  }

  lemma {:induction false} FilterSnoc<T(!new)>(xs: seq<T>, x: T, p: T -> bool)
    ensures Filter(xs + [x], p) == if p(x) then Filter(xs, p) + [x] else Filter(xs, p)
  {
    assert (xs + [x])[..|xs|] == xs;
  }

  lemma {:induction false} FilterConcat<T(!new)>(xs: seq<T>, ys: seq<T>, p: T -> bool)
    ensures Filter(xs + ys, p) == Filter(xs, p) + Filter(ys, p)
  {
    if ys == [] {
      assert xs + ys == xs;
    } else {
      var init, last := ys[..|ys| - 1], ys[|ys| - 1];
      assert ys == init + [last] && xs + ys == (xs + init) + [last];
      FilterSnoc(xs + init, last, p);
      FilterConcat(xs, init, p);
    }
  }

  /** Two filters that agree on the elements keep the same ones. */
  lemma {:induction false} FilterCongruent<T(!new)>(xs: seq<T>, p: T -> bool, q: T -> bool)
    requires forall x :: x in xs ==> p(x) == q(x)
    ensures Filter(xs, p) == Filter(xs, q)
  {
    if xs != [] {
      assert forall x :: x in xs[..|xs| - 1] ==> x in xs;
      FilterCongruent(xs[..|xs| - 1], p, q);
    }
  }

  /** A filter does not see changes among elements it drops. */
  lemma {:induction false} FilterPointwise<T(!new)>(xs: seq<T>, ys: seq<T>, p: T -> bool)
    requires |xs| == |ys| && forall i :: 0 <= i < |xs| ==> xs[i] == ys[i] || (!p(xs[i]) && !p(ys[i]))
    ensures Filter(xs, p) == Filter(ys, p)
  {
    if xs != [] {
      FilterPointwise(xs[..|xs| - 1], ys[..|ys| - 1], p);
    }
  }

  function Both<T(!new)>(p: T -> bool, q: T -> bool): T -> bool { x => p(x) && q(x) }

  function UpTo<T(!new)>(key: T -> real, t: real): T -> bool { x => key(x) <= t }

  function Beyond<T(!new)>(key: T -> real, t: real): T -> bool { x => t < key(x) }

  /** Filtering twice is filtering by both. */
  lemma {:induction false} FilterFilter<T(!new)>(xs: seq<T>, p: T -> bool, q: T -> bool)
    ensures Filter(Filter(xs, p), q) == Filter(xs, Both(p, q))
  {
    if xs != [] {
      var init, last := xs[..|xs| - 1], xs[|xs| - 1];
      FilterFilter(init, p, q);
      if p(last) { FilterSnoc(Filter(init, p), last, q); }
    }
  }

  /** Sorting loses and duplicates nothing: any property holds of as many elements as before. */
  lemma {:induction false} SortKeepsCount<T(!new)>(xs: seq<T>, key: T -> real, p: T -> bool)
    ensures |Filter(SortBy(xs, key), p)| == |Filter(xs, p)|
  {
    if xs != [] {
      SortKeepsCount(xs[..|xs| - 1], key, p);
      InsertCount(SortBy(xs[..|xs| - 1], key), xs[|xs| - 1], key, p);
    }
  }

  lemma {:induction false} InsertCount<T(!new)>(s: seq<T>, x: T, key: T -> real, p: T -> bool)
    ensures |Filter(Insert(s, x, key), p)| == |Filter(s, p)| + if p(x) then 1 else 0
  {
    if s == [] {
      assert [x][..0] == [];
    } else if key(s[0]) <= key(x) {
      InsertCount(s[1..], x, key, p);
      FilterConcat([s[0]], Insert(s[1..], x, key), p);
      FilterConcat([s[0]], s[1..], p);
      assert s == [s[0]] + s[1..];
    } else {
      FilterConcat([x], s, p);
      assert [x] == [] + [x];
      FilterSnoc([], x, p);
    }
  }

  lemma {:induction false} InsertIntoConcat<T(!new)>(a: seq<T>, b: seq<T>, x: T, key: T -> real, t: real)
    requires forall y :: y in a ==> key(y) <= t
    requires forall y :: y in b ==> t < key(y)
    ensures key(x) <= t ==> Insert(a + b, x, key) == Insert(a, x, key) + b
    ensures t < key(x) ==> Insert(a + b, x, key) == a + Insert(b, x, key)
  {
    if a == [] {
      assert a + b == b;
      if key(x) <= t && b != [] { assert b[0] in b; }
    } else {
      assert (a + b)[1..] == a[1..] + b;
      assert a[0] in a;
      InsertIntoConcat(a[1..], b, x, key, t);
      if t < key(x) {
        assert [a[0]] + (a[1..] + Insert(b, x, key)) == a + Insert(b, x, key);
      } else if key(a[0]) <= key(x) {
        assert [a[0]] + (Insert(a[1..], x, key) + b) == ([a[0]] + Insert(a[1..], x, key)) + b;
      }
    }
  }

  /** A stable sort can be split at any pivot: first the elements up to it, then the rest. */
  lemma {:induction false} SortSplits<T(!new)>(xs: seq<T>, key: T -> real, t: real)
    ensures SortBy(xs, key) == SortBy(Filter(xs, UpTo(key, t)), key) + SortBy(Filter(xs, Beyond(key, t)), key)
  {
    if xs != [] {
      var init, last := xs[..|xs| - 1], xs[|xs| - 1];
      SortSplits(init, key, t);
      var lo, hi := Filter(init, UpTo(key, t)), Filter(init, Beyond(key, t));
      forall y ensures y in SortBy(lo, key) ==> key(y) <= t ensures y in SortBy(hi, key) ==> t < key(y)
      {
        SortMember(lo, key, y);
        SortMember(hi, key, y);
        FilterMember(init, UpTo(key, t), y);
        FilterMember(init, Beyond(key, t), y);
      }
      InsertIntoConcat(SortBy(lo, key), SortBy(hi, key), last, key, t);
      assert (lo + [last])[..|lo|] == lo && (hi + [last])[..|hi|] == hi;
    }
  }

  // ---- where an element ends up -------------------------------------------------------

  /** Element `j` comes after element `i` in a stable ascending order. */
  predicate Later<T(!new)>(xs: seq<T>, key: T -> real, i: nat, j: nat)
    requires i < |xs| && j < |xs|
  {
    key(xs[i]) < key(xs[j]) || (key(xs[i]) == key(xs[j]) && i < j)
  }

  /** How many of the first `m` elements come after element `i`. */
  function LaterCount<T(!new)>(xs: seq<T>, key: T -> real, i: nat, m: nat): (c: nat)
    requires i < |xs| && m <= |xs|
    ensures c <= m && (i < m ==> c < m)
  {
    if m == 0 then 0 else LaterCount(xs, key, i, m - 1) + if Later(xs, key, i, m - 1) then 1 else 0
  }

  lemma {:induction false} LaterCountInit<T(!new)>(xs: seq<T>, key: T -> real, i: nat, m: nat)
    requires i < |xs| - 1 && m <= |xs| - 1
    ensures LaterCount(xs, key, i, m) == LaterCount(xs[..|xs| - 1], key, i, m)
  {
    if m > 0 { LaterCountInit(xs, key, i, m - 1); }
  }

  lemma {:induction false} LaterThanLast<T(!new)>(xs: seq<T>, key: T -> real, m: nat)
    requires m < |xs|
    ensures LaterCount(xs, key, |xs| - 1, m) == |Filter(xs[..m], Beyond(key, key(xs[|xs| - 1])))|
  {
    if m > 0 {
      LaterThanLast(xs, key, m - 1);
      assert xs[..m] == xs[..m - 1] + [xs[m - 1]];
      FilterSnoc(xs[..m - 1], xs[m - 1], Beyond(key, key(xs[|xs| - 1])));
    }
  }

  /** The position `Insert` chooses. */
  function Slot<T(!new)>(s: seq<T>, x: T, key: T -> real): (p: nat)
    ensures p <= |s|
  {
    if s == [] || key(x) < key(s[0]) then 0 else 1 + Slot(s[1..], x, key)
  }

  lemma {:induction false} InsertAtSlot<T(!new)>(s: seq<T>, x: T, key: T -> real)
    ensures var p := Slot(s, x, key); Insert(s, x, key) == s[..p] + [x] + s[p..]
  {
    if s != [] && key(s[0]) <= key(x) {
      InsertAtSlot(s[1..], x, key);
      var p := Slot(s[1..], x, key);
      assert s == [s[0]] + s[1..];
      assert s[..p + 1] == [s[0]] + s[1..][..p] && s[p + 1..] == s[1..][p..];
    }
  }

  lemma {:induction false} SlotSplits<T(!new)>(s: seq<T>, x: T, key: T -> real)
    requires Ascending(s, key)
    ensures forall q :: 0 <= q < |s| ==> (q < Slot(s, x, key) <==> key(s[q]) <= key(x))
    ensures Slot(s, x, key) + |Filter(s, Beyond(key, key(x)))| == |s|
  {
    if s != [] {
      assert s == [s[0]] + s[1..];
      FilterConcat([s[0]], s[1..], Beyond(key, key(x)));
      if key(s[0]) <= key(x) {
        SlotSplits(s[1..], x, key);
        assert forall q :: 0 < q < |s| ==> s[q] == s[1..][q - 1];
        assert Filter([s[0]], Beyond(key, key(x))) == [];
      } else {
        FilterAll(s, Beyond(key, key(x)));
      }
    }
  }

  lemma {:induction false} InsertShifts<T(!new)>(s: seq<T>, x: T, key: T -> real, q: nat)
    requires Ascending(s, key) && q < |s|
    ensures Insert(s, x, key)[if key(s[q]) <= key(x) then q else q + 1] == s[q]
  {
    InsertAtSlot(s, x, key);
    SlotSplits(s, x, key);
  }

  lemma {:induction false} InsertLands<T(!new)>(s: seq<T>, x: T, key: T -> real)
    requires Ascending(s, key)
    ensures Insert(s, x, key)[|s| - |Filter(s, Beyond(key, key(x)))|] == x
  {
    InsertAtSlot(s, x, key);
    SlotSplits(s, x, key);
  }

  lemma {:induction false} LastInSort<T(!new)>(xs: seq<T>, key: T -> real)
    requires xs != []
    ensures SortBy(xs, key)[|xs| - 1 - LaterCount(xs, key, |xs| - 1, |xs|)] == xs[|xs| - 1]
  {
    var n := |xs| - 1;
    SortAscending(xs[..n], key);
    LaterThanLast(xs, key, n);
    SortKeepsCount(xs[..n], key, Beyond(key, key(xs[n])));
    InsertLands(SortBy(xs[..n], key), xs[n], key);
  }

  /** One element more pushes back exactly those with a greater key. */
  lemma {:induction false} PlaceShifts<T(!new)>(xs: seq<T>, key: T -> real, i: nat, q: nat)
    requires i < |xs| - 1 && q < |xs| - 1 && SortBy(xs[..|xs| - 1], key)[q] == xs[i]
    ensures SortBy(xs, key)[if key(xs[i]) <= key(xs[|xs| - 1]) then q else q + 1] == xs[i]
  {
    SortAscending(xs[..|xs| - 1], key);
    InsertShifts(SortBy(xs[..|xs| - 1], key), xs[|xs| - 1], key, q);
  }

  /** A stable sort puts an element before exactly those that come after it. */
  lemma {:induction false} PlaceInSort<T(!new)>(xs: seq<T>, key: T -> real, i: nat)
    requires i < |xs|
    ensures SortBy(xs, key)[|xs| - 1 - LaterCount(xs, key, i, |xs|)] == xs[i]
  {
    var n := |xs| - 1;
    if i < n {
      PlaceInSort(xs[..n], key, i);
      LaterCountInit(xs, key, i, n);
      PlaceShifts(xs, key, i, n - 1 - LaterCount(xs[..n], key, i, n));
    } else {
      LastInSort(xs, key);
    }
  }

  ghost predicate NoRepeats<T(!new)>(xs: seq<T>) { forall i, j :: 0 <= i < j < |xs| ==> xs[i] != xs[j] }

  lemma {:induction false} SortNoRepeats<T(!new)>(xs: seq<T>, key: T -> real)
    requires NoRepeats(xs)
    ensures NoRepeats(SortBy(xs, key))
  {
    if xs != [] {
      var n := |xs| - 1;
      var s := SortBy(xs[..n], key);
      SortNoRepeats(xs[..n], key);
      SortMember(xs[..n], key, xs[n]);
      InsertAtSlot(s, xs[n], key);
      assert forall q :: 0 <= q < |s| ==> s[q] in s;
    }
  }
}
