/**
 Adding under an id that is already in use: `_entries` replaces the old entry,
 the grid may go on holding it. When exactly the grid is still the index.
 */
module ReusedIds {
  import opened OrderedDict
  import opened Sorting
  import opened MapElites
  import opened Compaction
  import opened EvolutionArchives

  // ---- the index, read off the whole entry list ---------------------------

  /** Entry `i` bears fitness and is the earliest of the fittest bearing entries in cell `c`. */
  ghost predicate Leads(n: int, vs: seq<Entry>, c: Cell, i: int) {
    && 0 <= i < |vs| && Bears(vs[i]) && CellOf(n, vs[i]) == c
    && forall j :: 0 <= j < |vs| && Bears(vs[j]) && CellOf(n, vs[j]) == c ==>
         W(vs[j]) <= W(vs[i]) && (j < i ==> W(vs[j]) < W(vs[i]))
  }

  ghost predicate Indexes(n: int, vs: seq<Entry>, cells: Cells) {
    && (forall j :: 0 <= j < |vs| && Bears(vs[j]) ==> Has(cells, CellOf(n, vs[j])))
    && (forall c :: Has(cells, c) ==> HoldsLeader(n, vs, cells, c))
  }

  ghost predicate HoldsLeader(n: int, vs: seq<Entry>, cells: Cells, c: Cell)
    requires Has(cells, c)
  {
    exists i :: Leads(n, vs, c, i) && Get(cells, c) == WithCoords(vs[i])
  }

  /** Where the element at position `i` ends up in the filtered sequence. */
  function Rank(vs: seq<Entry>, i: nat): nat
    requires i <= |vs|
  {
    |Filter(vs[..i], Bears)|
  }

  lemma {:induction false} RankLaws(vs: seq<Entry>, i: nat)
    requires i < |vs| && Bears(vs[i])
    ensures Rank(vs, i) < |Filter(vs, Bears)| && Filter(vs, Bears)[Rank(vs, i)] == vs[i]
  {
    var last := |vs| - 1;
    if i < last {
      RankLaws(vs[..last], i);
      assert vs[..last][..i] == vs[..i];
    }
  }

  lemma {:induction false} RankMonotone(vs: seq<Entry>, i: nat, j: nat)
    requires i < j < |vs| && Bears(vs[i])
    ensures Rank(vs, i) < Rank(vs, j)
  {
    RankLaws(vs[..j], i);
    assert vs[..j][..i] == vs[..i];
  }

  lemma {:induction false} RankOnto(vs: seq<Entry>, k: nat) returns (i: nat)
    requires k < |Filter(vs, Bears)|
    ensures i < |vs| && Bears(vs[i]) && Rank(vs, i) == k
  {
    var last := |vs| - 1;
    if k < |Filter(vs[..last], Bears)| {
      i := RankOnto(vs[..last], k);
      assert vs[..last][..i] == vs[..i];
    } else {
      i := last;
    }
  }

  lemma {:induction false} LeaderIsChampion(n: int, vs: seq<Entry>, c: Cell, i: nat)
    requires Leads(n, vs, c, i)
    ensures Champion(n, Filter(vs, Bears), c, Rank(vs, i))
  {
    var f, r := Filter(vs, Bears), Rank(vs, i);
    RankLaws(vs, i);
    forall k | 0 <= k < |f| && CellOf(n, f[k]) == c ensures W(f[k]) <= W(f[r]) && (k < r ==> W(f[k]) < W(f[r])) {
      var j := RankOnto(vs, k);
      RankLaws(vs, j);
      if i < j { RankMonotone(vs, i, j); }
    }
  }

  lemma {:induction false} ChampionIsLeader(n: int, vs: seq<Entry>, c: Cell, i: nat)
    requires i < |vs| && Bears(vs[i]) && Champion(n, Filter(vs, Bears), c, Rank(vs, i))
    ensures Leads(n, vs, c, i)
  {
    RankLaws(vs, i);
    forall j | 0 <= j < |vs| && Bears(vs[j]) && CellOf(n, vs[j]) == c
      ensures W(vs[j]) <= W(vs[i]) && (j < i ==> W(vs[j]) < W(vs[i]))
    {
      RankLaws(vs, j);
      if j < i { RankMonotone(vs, j, i); }
    }
  }

  /** Reading the index off all entries or off the bearing ones is the same. */
  lemma {:induction false} IndexesIff(n: int, vs: seq<Entry>, cells: Cells)
    requires Distinct(cells)
    ensures Indexes(n, vs, cells) <==> IsIndexOf(n, Filter(vs, Bears), cells)
  {
    var f := Filter(vs, Bears);
    if Indexes(n, vs, cells) {
      forall k | 0 <= k < |f| ensures Has(cells, CellOf(n, f[k])) {
        var j := RankOnto(vs, k);
        RankLaws(vs, j);
      }
      forall c | Has(cells, c) ensures HoldsChampion(n, f, cells, c) {
        assert HoldsLeader(n, vs, cells, c);
        var i: nat :| Leads(n, vs, c, i) && Get(cells, c) == WithCoords(vs[i]);
        LeaderIsChampion(n, vs, c, i);
        RankLaws(vs, i);
      }
    }
    if IsIndexOf(n, f, cells) {
      forall j | 0 <= j < |vs| && Bears(vs[j]) ensures Has(cells, CellOf(n, vs[j])) {
        RankLaws(vs, j);
      }
      forall c | Has(cells, c) ensures HoldsLeader(n, vs, cells, c) {
        assert HoldsChampion(n, f, cells, c);
        var k: nat :| Champion(n, f, c, k) && Get(cells, c) == WithCoords(f[k]);
        var i := RankOnto(vs, k);
        RankLaws(vs, i);
        ChampionIsLeader(n, vs, c, i);
      }
    }
  }

  // ---- replacing one entry --------------------------------------------------

  /** The old entry occupies its cell. */
  predicate Occupies(n: int, cells: Cells, e: Entry) {
    Bears(e) && Has(cells, CellOf(n, e)) && Get(cells, CellOf(n, e)) == e
  }

  /** The grid after inserting the replacement, if it bears fitness. */
  function Reinserted(n: int, cells: Cells, e: Entry): Cells {
    if Bears(e) then TryInsert(n, cells, e) else cells
  }

  /**
   Replacing `vs[i]` by `e`: nothing changes; or an occupant is displaced by a
   strictly fitter entry in its own cell, and `e` does not tie with an occupant
   that comes later than position `i`.
   */
  ghost predicate SafeReuse(n: int, vs: seq<Entry>, cells: Cells, i: nat, e: Entry)
    requires i < |vs|
  {
    e == vs[i] || (Displaces(n, vs, cells, i, e) && !TiesWithLater(n, vs, cells, i, e))
  }

  ghost predicate Displaces(n: int, vs: seq<Entry>, cells: Cells, i: nat, e: Entry)
    requires i < |vs|
  {
    Occupies(n, cells, vs[i]) ==> Bears(e) && CellOf(n, e) == CellOf(n, vs[i]) && W(vs[i]) < W(e)
  }

  ghost predicate TiesWithLater(n: int, vs: seq<Entry>, cells: Cells, i: nat, e: Entry) {
    && Bears(e) && Has(cells, CellOf(n, e)) && W(Get(cells, CellOf(n, e))) == W(e)
    && exists m :: i < m < |vs| && vs[m] == Get(cells, CellOf(n, e))
  }

  /** Entries with distinct ids and coordinates filled in, and a replacement for position `i` under the same id. */
  ghost predicate Replacement(vs: seq<Entry>, i: nat, e: Entry) {
    && i < |vs| && e.id == vs[i].id && Fill(e) == e
    && (forall j :: 0 <= j < |vs| ==> Fill(vs[j]) == vs[j])
    && (forall j, k :: 0 <= j < k < |vs| ==> vs[j].id != vs[k].id)
  }

  lemma {:induction false} SafeReuseKeepsIndex(n: int, vs: seq<Entry>, cells: Cells, i: nat, e: Entry)
    requires Replacement(vs, i, e) && Distinct(cells) && Indexes(n, vs, cells) && SafeReuse(n, vs, cells, i, e)
    ensures Indexes(n, vs[i := e], Reinserted(n, cells, e))
  {
    var r, vs' := Reinserted(n, cells, e), vs[i := e];
    PutLaws(cells, CellOf(n, e), e);
    forall j | 0 <= j < |vs'| && Bears(vs'[j]) ensures Has(r, CellOf(n, vs'[j])) {
      if j != i { assert vs'[j] == vs[j]; }
    }
    forall c | Has(r, c) ensures HoldsLeader(n, vs', r, c) {
      SafeCell(n, vs, cells, i, e, c);
    }
  }

  lemma {:induction false} SafeCell(n: int, vs: seq<Entry>, cells: Cells, i: nat, e: Entry, c: Cell)
    requires Replacement(vs, i, e) && Distinct(cells) && Indexes(n, vs, cells) && SafeReuse(n, vs, cells, i, e)
    requires Has(Reinserted(n, cells, e), c)
    ensures HoldsLeader(n, vs[i := e], Reinserted(n, cells, e), c)
  {
    var r, vs' := Reinserted(n, cells, e), vs[i := e];
    PutLaws(cells, CellOf(n, e), e);
    if !Has(cells, c) {
      assert Leads(n, vs', c, i);
    } else {
      assert HoldsLeader(n, vs, cells, c);
      var m: nat :| Leads(n, vs, c, m) && Get(cells, c) == WithCoords(vs[m]);
      assert Fill(vs[m]) == vs[m];
      if e == vs[i] {
        assert vs' == vs;
        assert r == cells;
      } else if m == i || (Bears(e) && CellOf(n, e) == c && W(vs[m]) < W(e)) {
        assert Leads(n, vs', c, i) && Get(r, c) == e;
      } else {
        assert Leads(n, vs', c, m) && Get(r, c) == WithCoords(vs'[m]);
      }
    }
  }

  /** An undisplaced occupant stays in its cell, and no entry is it any more. */
  lemma {:induction false} StaleOccupant(n: int, vs: seq<Entry>, cells: Cells, i: nat, e: Entry)
    requires Replacement(vs, i, e) && Distinct(cells) && e != vs[i] && !Displaces(n, vs, cells, i, e)
    ensures var r, c := Reinserted(n, cells, e), CellOf(n, vs[i]); Has(r, c) && !HoldsLeader(n, vs[i := e], r, c)
  {
    var r, c, vs' := Reinserted(n, cells, e), CellOf(n, vs[i]), vs[i := e];
    PutLaws(cells, CellOf(n, e), e);
    forall m | Leads(n, vs', c, m) ensures Get(r, c) != WithCoords(vs'[m]) {
      assert WithCoords(vs'[m]) == Fill(vs'[m]) == vs'[m];
      assert m != i ==> vs'[m].id != vs[i].id;
    }
  }

  /** An occupant from a later position keeps a cell that an equal now comes first in. */
  lemma {:induction false} LaterTieStays(n: int, vs: seq<Entry>, cells: Cells, i: nat, e: Entry)
    requires Replacement(vs, i, e) && Distinct(cells) && TiesWithLater(n, vs, cells, i, e)
    ensures var r, c := Reinserted(n, cells, e), CellOf(n, e); Has(r, c) && !HoldsLeader(n, vs[i := e], r, c)
  {
    var r, c, vs' := Reinserted(n, cells, e), CellOf(n, e), vs[i := e];
    var k :| i < k < |vs| && vs[k] == Get(cells, c);
    assert vs'[i] == e && vs'[k] == vs[k] && r == cells;
    forall m | Leads(n, vs', c, m) ensures Get(r, c) != WithCoords(vs'[m]) {
      assert WithCoords(vs'[m]) == Fill(vs'[m]) == vs'[m];
      assert m != k ==> vs'[m].id != vs'[k].id;
    }
  }

  /**
   From a consistent archive, adding an entry under an id in use keeps the grid
   the index of the bearing entries if and only if the reuse is safe.
   */
  lemma {:induction false} ReuseKeepsIndexIff(s: State, e: Entry, root: string)
    requires Consistent(s) && Has(s.entries, e.id)
    ensures var after := Added(s, e, root);
            var stored := Fill(Linked(s.entries, e, root));
            IsIndexOf(s.nBins, BearingOf(after.entries), after.cells) <==>
            SafeReuse(s.nBins, Values(s.entries), s.cells, Find(s.entries, e.id), stored)
  {
    var after, stored, vs := Added(s, e, root), Fill(Linked(s.entries, e, root)), Values(s.entries);
    FillTwice(Linked(s.entries, e, root));
    ConsistentIsReplaceable(s, stored);
    assert Values(after.entries) == vs[Find(s.entries, e.id) := stored];
    ReuseIff(s.nBins, vs, s.cells, Find(s.entries, e.id), stored);
  }

  lemma {:induction false} ConsistentIsReplaceable(s: State, e: Entry)
    requires Consistent(s) && Has(s.entries, e.id) && Fill(e) == e
    ensures Replacement(Values(s.entries), Find(s.entries, e.id), e)
    ensures Distinct(s.cells) && Indexes(s.nBins, Values(s.entries), s.cells)
  {
    forall j | 0 <= j < |s.entries| ensures Fill(s.entries[j].1) == s.entries[j].1 { FillTwice(s.lines[j]); }
    RebuiltIsIndex(s.nBins, BearingOf(s.entries));
    IndexesIff(s.nBins, Values(s.entries), s.cells);
  }

  lemma {:induction false} ReuseIff(n: int, vs: seq<Entry>, cells: Cells, i: nat, e: Entry)
    requires Replacement(vs, i, e) && Distinct(cells) && Indexes(n, vs, cells)
    ensures IsIndexOf(n, Filter(vs[i := e], Bears), Reinserted(n, cells, e)) <==> SafeReuse(n, vs, cells, i, e)
  {
    PutLaws(cells, CellOf(n, e), WithCoords(e));
    IndexesIff(n, vs[i := e], Reinserted(n, cells, e));
    if SafeReuse(n, vs, cells, i, e) {
      SafeReuseKeepsIndex(n, vs, cells, i, e);
    } else if !Displaces(n, vs, cells, i, e) {
      StaleOccupant(n, vs, cells, i, e);
    } else {
      LaterTieStays(n, vs, cells, i, e);
    }
  }

  /**
   A concrete unsafe reuse: an applied entry is replaced, under its own id, by a
   proposed one. No entry bears fitness any more, yet the grid has an occupant.
   */
  lemma {:induction false} ReuseCanLeaveStaleOccupant(n: int, e: Entry)
    requires e.status == "applied"
    ensures var s := Added(Load(n, []), e, "m1");
            var after := Added(s, e.(status := "proposed"), "m2");
            && BearingOf(after.entries) == [] && |after.cells| == 1
            && !IsIndexOf(n, BearingOf(after.entries), after.cells)
  {
    var s := Added(Load(n, []), e, "m1");
    var after := Added(s, e.(status := "proposed"), "m2");
    assert FITNESS_BEARING[0] == "applied";
    FillTwice(Linked([], e, "m1"));
    FillTwice(Linked(s.entries, e.(status := "proposed"), "m2"));
    assert s.entries[0].0 == e.id;
    assert |after.entries| == 1 && !Bears(after.entries[0].1);
    assert Values(after.entries) == [] + [after.entries[0].1];
    FilterSnoc([], after.entries[0].1, Bears);
    assert after.cells == s.cells && |s.cells| == 1;
    assert Has(after.cells, after.cells[0].0);
  }
}
