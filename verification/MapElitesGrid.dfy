/** The mutable grid object of `dharma_swarm/archive.py`, proved against the functions of `MapElites`. */
module MapElitesGrids {
  import opened Options
  import opened OrderedDict
  import opened FarthestPoint
  import opened MapElites

  class MAPElitesGrid {
    var nBins: int
    var cells: Cells

    ghost predicate Valid()
      reads this
    {
      3 <= nBins && Distinct(cells)
    }

    /** No bin count, or a zero one, means the default of five. */
    constructor (n: Option<int>)
      ensures Valid() && cells == []
      ensures nBins == Bins(n)
    {
      var k := if n.Some? && n.value != 0 then n.value else 5;
      nBins := if 3 < k then k else 3;
      cells := [];
    }

    /** Returns the entry as it leaves the call, with its feature coordinates filled in. */
    method TryInsert(entry: Entry) returns (inserted: bool, filled: Entry)
      requires Valid()
      modifies this`cells
      ensures Valid() && filled == WithCoords(entry)
      ensures cells == MapElites.TryInsert(nBins, old(cells), entry)
      ensures inserted <==> Has(cells, CellOf(nBins, entry)) && Get(cells, CellOf(nBins, entry)) == filled
                            && (Has(old(cells), CellOf(nBins, entry)) ==>
                                W(Get(old(cells), CellOf(nBins, entry))) < W(entry))
    {
      filled := entry;
      if filled.coords == map[] {
        filled := filled.(coords := ComputeCoords(filled));
      }
      var binKey := CellOf(nBins, filled);
      WithCoordsLaws(nBins, entry);
      PutLaws(cells, binKey, filled);
      inserted := !Has(cells, binKey) || W(Get(cells, binKey)) < W(filled);
      if inserted {
        cells := Put(cells, binKey, filled);
      }
    }

    /** Clears the grid and re-inserts. */
    method Rebuild(entries: seq<Entry>)
      requires Valid()
      modifies this`cells
      ensures Valid() && cells == Rebuilt(nBins, entries)
      ensures IsIndexOf(nBins, entries, cells)
    {
      cells := [];
      for i := 0 to |entries|
        invariant Valid() && cells == Rebuilt(nBins, entries[..i])
      {
        var _, _ := TryInsert(entries[i]);
        assert entries[..i + 1][..i] == entries[..i];
      }
      assert entries[..|entries|] == entries;
      RebuiltIsIndex(nBins, entries);
    }
  }

  /** The first cell of maximal fitness, as Python's `max` finds it. */
  method FittestCell(cells: Cells) returns (best: nat)
    requires cells != []
    ensures best < |cells|
    ensures forall i :: 0 <= i < |cells| ==> W(cells[i].1) <= W(cells[best].1)
    ensures forall i :: 0 <= i < best ==> W(cells[i].1) < W(cells[best].1)
  {
    best := 0;
    for i := 1 to |cells|
      invariant best < i
      invariant forall j :: 0 <= j < i ==> W(cells[j].1) <= W(cells[best].1)
      invariant forall j :: 0 <= j < best ==> W(cells[j].1) < W(cells[best].1)
    {
      if W(cells[best].1) < W(cells[i].1) {
        best := i;
      }
    }
  }

  /** The first remaining cell that is farthest from the picks made so far. */
  method FarthestCell(remaining: Cells, picks: seq<Cell>) returns (far: nat)
    requires remaining != [] && picks != []
    ensures far < |remaining| && FarthestRemaining(remaining, picks, far)
  {
    var farthestDist: int := -1;
    far := 0;
    for i := 0 to |remaining|
      invariant farthestDist == -1 <==> i == 0
      invariant 0 < i ==> far < i && farthestDist == MinDist(Dist2, remaining[far].0, picks, |picks|)
      invariant forall j :: 0 <= j < i ==> MinDist(Dist2, remaining[j].0, picks, |picks|) <= farthestDist
    {
      var minDist := MinDist(Dist2, remaining[i].0, picks, |picks|);
      if farthestDist < minDist {
        farthestDist := minDist;
        far := i;
      }
    }
  }

  ghost function KeySet(cells: Cells): set<Cell> {
    set i | 0 <= i < |cells| :: cells[i].0
  }

  /** The cells still to choose from after some picks. */
  ghost predicate RemainingAfter(cells: Cells, remaining: Cells, picks: seq<Cell>) {
    && Distinct(remaining) && |remaining| == |cells| - |picks|
    && (forall c :: Has(remaining, c) <==> Has(cells, c) && c !in picks)
    && (forall c :: Has(remaining, c) ==> Get(remaining, c) == Get(cells, c))
  }

  /** Distinct occupied cells with their occupants, chosen greedily. */
  ghost predicate GoodPicks(cells: Cells, selected: seq<Entry>, picks: seq<Cell>) {
    && |selected| == |picks| && AllDistinct(picks)
    && (forall i :: 0 <= i < |picks| ==> Has(cells, picks[i]) && selected[i] == Get(cells, picks[i]))
    && Greedy(Dist2, KeySet(cells), picks)
  }

  /**
   `sample_diverse`. The picks are distinct occupied cells, as many as asked for
   and available, the first one fittest and each later one as far from its
   predecessors as any cell is; so their spread is within a factor of four
   (squared) of the best that any equally many cells reach.
   */
  method SampleDiverse(cells: Cells, n: int) returns (selected: seq<Entry>, picks: seq<Cell>)
    requires Distinct(cells)
    ensures |picks| == if n <= 0 then 0 else if n < |cells| then n else |cells|
    ensures GoodPicks(cells, selected, picks)
    ensures selected != [] ==> forall i :: 0 <= i < |cells| ==> W(cells[i].1) <= W(selected[0])
    ensures 2 <= |picks| ==> NearBestSpread(cells, picks)
  {
    var m := if n < |cells| then n else |cells|;
    if m <= 0 {
      return [], [];
    }
    var best := FittestCell(cells);
    picks, selected := [cells[best].0], [cells[best].1];
    var remaining := Remove(cells, cells[best].0);
    FirstPick(cells, best);
    for k := 1 to m
      invariant |picks| == k && selected != [] && selected[0] == cells[best].1
      invariant GoodPicks(cells, selected, picks) && RemainingAfter(cells, remaining, picks)
    {
      var far := FarthestCell(remaining, picks);
      NextPick(cells, remaining, selected, picks, far);
      picks, selected, remaining :=
        picks + [remaining[far].0], selected + [remaining[far].1], Remove(remaining, remaining[far].0);
    }
    if 2 <= |picks| {
      GreedyIsNearBest(cells, picks);
    }
  }

  lemma {:induction false} FirstPick(cells: Cells, best: nat)
    requires Distinct(cells) && best < |cells|
    ensures GoodPicks(cells, [cells[best].1], [cells[best].0])
    ensures RemainingAfter(cells, Remove(cells, cells[best].0), [cells[best].0])
  {
    FindAt(cells, best);
    RemoveLaws(cells, cells[best].0);
  }

  lemma {:induction false} NextPick(cells: Cells, remaining: Cells, selected: seq<Entry>, picks: seq<Cell>, far: nat)
    requires picks != [] && GoodPicks(cells, selected, picks) && RemainingAfter(cells, remaining, picks)
    requires far < |remaining| && FarthestRemaining(remaining, picks, far)
    ensures GoodPicks(cells, selected + [remaining[far].1], picks + [remaining[far].0])
    ensures RemainingAfter(cells, Remove(remaining, remaining[far].0), picks + [remaining[far].0])
  {
    FindAt(remaining, far);
    ExtendGreedy(cells, remaining, picks, far);
    RemoveLaws(remaining, remaining[far].0);
  }

  ghost predicate FarthestRemaining(remaining: Cells, picks: seq<Cell>, far: nat)
    requires picks != [] && far < |remaining|
  {
    forall i :: 0 <= i < |remaining| ==>
      MinDist(Dist2, remaining[i].0, picks, |picks|) <= MinDist(Dist2, remaining[far].0, picks, |picks|)
  }

  /** No equally many cells have more than four times the squared spread of these. */
  ghost predicate NearBestSpread(cells: Cells, picks: seq<Cell>)
    requires 2 <= |picks|
  {
    forall t: seq<Cell> :: |t| == |picks| && (forall k :: 0 <= k < |t| ==> Has(cells, t[k])) ==>
      Spread(Dist2, t, |t|) <= 4 * Spread(Dist2, picks, |picks|)
  }

  lemma {:induction false} GreedyIsNearBest(cells: Cells, picks: seq<Cell>)
    requires 2 <= |picks| && Greedy(Dist2, KeySet(cells), picks)
    ensures NearBestSpread(cells, picks)
  {
    Dist2Relaxed();
    forall t: seq<Cell> | |t| == |picks| && (forall k :: 0 <= k < |t| ==> Has(cells, t[k]))
      ensures Spread(Dist2, t, |t|) <= 4 * Spread(Dist2, picks, |picks|)
    {
      forall k | 0 <= k < |t| ensures t[k] in KeySet(cells) {
        assert cells[Find(cells, t[k])].0 == t[k];
      }
      HalfApproximation(Dist2, KeySet(cells), picks, t);
    }
  }

  /** A pick farthest among the remaining cells is farthest among all: a chosen cell has distance zero. */
  lemma {:induction false} ExtendGreedy(cells: Cells, remaining: Cells, picks: seq<Cell>, far: nat)
    requires picks != [] && RemainingAfter(cells, remaining, picks) && Greedy(Dist2, KeySet(cells), picks)
    requires far < |remaining|
    requires FarthestRemaining(remaining, picks, far)
    ensures Greedy(Dist2, KeySet(cells), picks + [remaining[far].0])
  {
    var c, n, r := remaining[far].0, |picks|, picks + [remaining[far].0];
    assert Has(remaining, c);
    assert cells[Find(cells, c)].0 == c;
    forall k | 0 < k < |r| ensures FarthestPick(Dist2, KeySet(cells), r, k) {
      if k < n {
        assert FarthestPick(Dist2, KeySet(cells), picks, k);
      }
      forall x | x in KeySet(cells) ensures MinDist(Dist2, x, r, k) <= MinDist(Dist2, r[k], r, k) {
        PrefixDist(picks, c, x, k);
        PrefixDist(picks, c, r[k], k);
        if k == n {
          if x in picks {
            var i :| 0 <= i < n && picks[i] == x;
            MinDistAtMost(Dist2, x, picks, n, i);
          } else {
            assert Has(remaining, x);
            assert remaining[Find(remaining, x)].0 == x;
          }
        }
      }
    }
  }

  lemma {:induction false} PrefixDist(picks: seq<Cell>, c: Cell, x: Cell, k: nat)
    requires 0 < k <= |picks|
    ensures MinDist(Dist2, x, picks + [c], k) == MinDist(Dist2, x, picks, k)
  {
    MinDistPrefix(Dist2, x, picks, c, k);
  }
}
