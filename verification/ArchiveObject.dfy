/** The archive object of `dharma_swarm/archive.py`, method by method against the step function. */
module ArchiveObjects {
  import opened Options
  import opened OrderedDict
  import opened Fitness
  import opened Sorting
  import opened MapElites
  import opened MapElitesGrids
  import opened Compaction
  import opened EvolutionArchives
  import opened ArchiveEffects

  class EvolutionArchive {
    const enforceOneWire: bool
    var entries: Entries
    var grid: MAPElitesGrid
    /** The JSONL file. */
    var lines: seq<Entry>

    ghost predicate Valid()
      reads this, grid
    {
      grid.Valid() && Keyed(entries)
    }

    ghost function View(): State
      reads this, grid
    {
      State(grid.nBins, entries, grid.cells, lines)
    }

    /** An archive over an existing file, before `load`. */
    constructor (bins: Option<int>, enforce: bool, existing: seq<Entry>)
      ensures Valid() && fresh(grid) && enforceOneWire == enforce
      ensures View() == State(Bins(bins), [], [], existing)
    {
      enforceOneWire := enforce;
      entries := [];
      lines := existing;
      grid := new MAPElitesGrid(bins);
    }

    method LoadFile()
      requires Valid()
      modifies this`entries, grid`cells
      ensures Valid() && grid == old(grid) && View() == EvolutionArchives.Load(old(grid.nBins), old(lines))
    {
      entries := [];
      grid.Rebuild([]);
      for i := 0 to |lines|
        invariant Valid() && grid == old(grid) && lines == old(lines) && grid.nBins == old(grid.nBins)
        invariant entries == ReplayEntries(lines[..i])
        invariant grid.cells == Rebuilt(grid.nBins, Filter(lines[..i], Bears))
      {
        LoadSnoc(grid.nBins, lines, i);
        LoadLine(lines[i]);
      }
      assert lines[..|lines|] == lines;
    }

    method LoadLine(line: Entry)
      requires Valid()
      modifies this`entries, grid`cells
      ensures Valid()
      ensures entries == Put(old(entries), line.id, Fill(line))
      ensures grid.cells ==
              if Bears(line) then MapElites.TryInsert(grid.nBins, old(grid.cells), line) else old(grid.cells)
    {
      var entry := line;
      if Bears(entry) {
        var _, filled := grid.TryInsert(entry);
        entry := filled;
      }
      PutKeyed(entries, entry);
      entries := Put(entries, entry.id, entry);
    }

    method AddEntry(entry: Entry, root: string, approved: bool) returns (outcome: Outcome)
      requires Valid()
      modifies this`entries, this`lines, grid`cells
      ensures Valid() && grid == old(grid)
      ensures outcome == OutcomeOf(enforceOneWire, old(View()), Add(entry, root, approved))
      ensures View() == Step(enforceOneWire, old(View()), Add(entry, root, approved))
      ensures outcome == if enforceOneWire && !approved && entry.fitness != ZERO_FITNESS then Refused else Done
      ensures if outcome == Done then EntryAdded(old(View()), View(), entry, root) else View() == old(View())
    {
      AddSteps(enforceOneWire, View(), entry, root, approved);
      if enforceOneWire && Moves(entry.fitness) && !approved {
        return Refused;
      }
      Store(entry, root);
      return Done;
    }

    method Store(entry: Entry, root: string)
      requires Valid()
      modifies this`entries, this`lines, grid`cells
      ensures Valid() && grid == old(grid) && View() == Added(old(View()), entry, root)
      ensures EntryAdded(old(View()), View(), entry, root)
    {
      AddedAddsEntry(View(), entry, root);
      var e := Link(entry, root);
      InsertIgnoresFilling(grid.nBins, grid.cells, e);
      if Bears(e) {
        var _, filled := grid.TryInsert(e);
        e := filled;
      }
      PutKeyed(entries, e);
      entries := Put(entries, e.id, e);
      lines := lines + [e];
    }

    /** Gives a new entry its Merkle root and its parent's. */
    method Link(entry: Entry, root: string) returns (e: Entry)
      ensures e == Linked(entries, entry, root)
    {
      e := entry;
      if Truthy(e.parentId) && Has(entries, e.parentId.value) {
        var parent := Get(entries, e.parentId.value);
        if Truthy(parent.merkleRoot) {
          e := e.(parentMerkleRoot := parent.merkleRoot);
        }
      }
      e := e.(merkleRoot := Some(root));
    }

    /** `_rebuild_grid`: the grid and the archive share the entry objects, so both see the coordinates filled in. */
    method RebuildGrid()
      requires Valid()
      modifies this`entries, grid`cells
      ensures Valid() && grid == old(grid) && grid.nBins == old(grid.nBins)
      ensures entries == FillAll(old(entries)) && grid.cells == Rebuilt(grid.nBins, BearingOf(old(entries)))
    {
      grid.Rebuild(BearingOf(entries));
      entries := FillAll(entries);
    }

    /** Sets the status of a present entry; rebuilds when fitness is involved, and always rewrites. */
    method SetStatus(id: string, status: string, reason: Option<string>)
      requires Valid() && Has(entries, id)
      modifies this`entries, this`lines, grid`cells
      ensures Valid() && grid == old(grid) && View() == Updated(old(View()), id, status, reason)
      ensures StatusSet(old(entries), entries, id, status, reason)
    {
      UpdatedSetsStatus(View(), id, status, reason);
      var entry := Get(entries, id);
      PutLaws(entries, id, WithStatus(entry, status, reason));
      entries := Put(entries, id, WithStatus(entry, status, reason));
      if Bears(entry) || BearingStatus(status) {
        RebuildGrid();
      }
      lines := Values(entries);
    }

    method UpdateStatusOf(id: string, status: string, reason: Option<string>, approved: bool) returns (outcome: Outcome)
      requires Valid()
      modifies this`entries, this`lines, grid`cells
      ensures Valid() && grid == old(grid)
      ensures outcome == OutcomeOf(enforceOneWire, old(View()), UpdateStatus(id, status, reason, approved))
      ensures View() == Step(enforceOneWire, old(View()), UpdateStatus(id, status, reason, approved))
      ensures outcome == Absent <==> !Has(old(entries), id)
      ensures outcome == Refused <==>
              Has(old(entries), id) && enforceOneWire && !approved && Get(old(entries), id).fitness != ZERO_FITNESS
              && (IsBearing(Get(old(entries), id).status) || IsBearing(status))
      ensures outcome in {Done, Absent, Refused}
      ensures if outcome == Done then StatusSet(old(entries), entries, id, status, reason) else View() == old(View())
    {
      if !Has(entries, id) {
        return Absent;
      }
      var entry := Get(entries, id);
      UpdateSteps(enforceOneWire, View(), id, status, reason, approved);
      if (Bears(entry) || BearingStatus(status)) && !Authorized(enforceOneWire, approved, entry) {
        return Refused;
      }
      SetStatus(id, status, reason);
      return Done;
    }

    method RollbackEntry(id: string, why: string, approved: bool) returns (outcome: Outcome)
      requires Valid()
      modifies this`entries, this`lines, grid`cells
      ensures Valid() && grid == old(grid)
      ensures outcome == OutcomeOf(enforceOneWire, old(View()), Rollback(id, why, approved))
      ensures View() == Step(enforceOneWire, old(View()), Rollback(id, why, approved))
      ensures outcome == Absent <==> !Has(old(entries), id)
      ensures outcome == Refused <==>
              Has(old(entries), id) && enforceOneWire && !approved && Get(old(entries), id).fitness != ZERO_FITNESS
      ensures outcome in {Done, Absent, Refused}
      ensures if outcome == Done then StatusSet(old(entries), entries, id, "rolled_back", Some(why))
              else View() == old(View())
    {
      if !Has(entries, id) {
        return Absent;
      }
      RollbackSteps(enforceOneWire, View(), id, why, approved);
      if !Authorized(enforceOneWire, approved, Get(entries, id)) {
        return Refused;
      }
      SetStatus(id, "rolled_back", Some(why));
      return Done;
    }

    /** Composts the doomed entries one after the other, once all of them are authorized. */
    method CompactEntries(minAge: int, percentile: real, approved: bool) returns (outcome: Outcome, composted: nat)
      requires Valid()
      modifies this`entries, this`lines, grid`cells
      ensures Valid() && grid == old(grid)
      ensures outcome == OutcomeOf(enforceOneWire, old(View()), Compact(minAge, percentile, approved))
      ensures View() == Step(enforceOneWire, old(View()), Compact(minAge, percentile, approved))
      ensures var plan := PlanFor(Values(old(entries)), minAge, percentile);
              composted == if outcome == Done && plan.Compost? then |plan.candidates| else 0
    {
      var values := Values(entries);
      if |values| < minAge {
        return Done, 0;
      }
      var bearing := BearingOf(entries);
      if bearing == [] {
        return Done, 0;
      }
      var threshold := Threshold(bearing, percentile);
      if threshold.None? {
        return IndexOutOfRange, 0;
      }
      var candidates := DoomedAmong(values, OldEntries(values, minAge), threshold.value);
      var authorized := CheckAll(enforceOneWire, approved, candidates);
      if !authorized {
        return Refused, 0;
      }
      composted := |candidates|;
      if composted > 0 {
        Compost(candidates);
      }
      return Done, composted;
    }

    method Compost(doomed: seq<Entry>)
      requires Valid()
      modifies this`entries, this`lines, grid`cells
      ensures Valid() && grid == old(grid)
      ensures View() == Settled(grid.nBins, WithComposted(old(entries), doomed))
    {
      entries := WithComposted(entries, doomed);
      RebuildGrid();
      lines := Values(entries);
    }

    method ReconfigureGrid(bins: Option<int>)
      requires Valid()
      modifies this`entries, this`grid
      ensures Valid() && fresh(grid)
      ensures View() == Step(enforceOneWire, old(View()), Reconfigure(bins))
    {
      grid := new MAPElitesGrid(bins);
      RebuildGrid();
    }

    /** `get_lineage`: the chain of parents from an entry, each ancestor once. */
    method GetLineage(id: string) returns (lineage: seq<Entry>)
      requires Valid()
      ensures lineage == [] <==> !Has(entries, id)
      ensures lineage != [] ==> lineage[0] == Get(entries, id) && IsLineage(entries, lineage)
    {
      if !Has(entries, id) {
        return [];
      }
      FindAt(entries, Find(entries, id));
      lineage := [Get(entries, id)];
      var seen := {id};
      while true
        invariant lineage != [] && lineage[0] == Get(entries, id) && IsChain(entries, lineage)
        invariant seen == Ids(lineage) && seen <= KeysOf(entries)
        decreases KeysOf(entries) - seen
      {
        var current := lineage[|lineage| - 1];
        if !Truthy(current.parentId) || !Has(entries, current.parentId.value) || current.parentId.value in seen {
          return;
        }
        var parent := Get(entries, current.parentId.value);
        FindAt(entries, Find(entries, current.parentId.value));
        ExtendChain(entries, lineage, parent);
        lineage, seen := lineage + [parent], seen + {parent.id};
      }
    }
  }

  ghost function Ids(l: seq<Entry>): set<string> { set i | 0 <= i < |l| :: l[i].id }

  lemma {:induction false} ExtendChain(d: Entries, l: seq<Entry>, parent: Entry)
    requires l != [] && IsChain(d, l) && LinkedTo(l[|l| - 1], parent) && parent.id !in Ids(l)
    requires Has(d, parent.id) && Get(d, parent.id) == parent
    ensures IsChain(d, l + [parent]) && Ids(l + [parent]) == Ids(l) + {parent.id}
    ensures parent.id in KeysOf(d)
  {
    var l' := l + [parent];
    assert d[Find(d, parent.id)].0 == parent.id;
    forall i | 0 <= i < |l| ensures l'[i] == l[i] && l[i].id in Ids(l) {}
    assert Ids(l') == Ids(l) + {parent.id} by {
      assert l'[|l|] == parent;
      forall x | x in Ids(l) ensures x in Ids(l') {
        var i :| 0 <= i < |l| && l[i].id == x;
        assert l'[i].id == x;
      }
    }
  }

  /** The entries of `aged` that the forgetting law dooms. */
  method DoomedAmong(values: seq<Entry>, aged: seq<Entry>, threshold: real) returns (candidates: seq<Entry>)
    ensures candidates == Filter(aged, DoomedUnder(values, threshold))
  {
    var parents := ParentIds(values);
    candidates := [];
    for i := 0 to |aged|
      invariant candidates == Filter(aged[..i], DoomedUnder(values, threshold))
    {
      var e := aged[i];
      if (Bears(e) || e.status == "proposed") && W(e) < threshold && e.id !in parents {
        candidates := candidates + [e];
      }
      assert aged[..i + 1] == aged[..i] + [e];
      FilterSnoc(aged[..i], e, DoomedUnder(values, threshold));
    }
    assert aged[..|aged|] == aged;
  }

  method CheckAll(enforce: bool, approved: bool, es: seq<Entry>) returns (ok: bool)
    ensures ok <==> AllAuthorized(enforce, approved, es)
  {
    for i := 0 to |es|
      invariant forall j :: 0 <= j < i ==> Authorized(enforce, approved, es[j])
    {
      if !Authorized(enforce, approved, es[i]) {
        return false;
      }
    }
    return true;
  }

  /** `has_children`: the ids some entry names as its parent. */
  method ParentIds(values: seq<Entry>) returns (ids: set<string>)
    ensures forall id :: id in ids <==> HasChildren(values, id)
  {
    ids := {};
    for i := 0 to |values|
      invariant forall id :: id in ids <==> HasChildren(values[..i], id)
    {
      if Truthy(values[i].parentId) {
        ids := ids + {values[i].parentId.value};
      }
      ChildrenSnoc(values, i);
    }
    assert values[..|values|] == values;
  }

  lemma {:induction false} ChildrenSnoc(values: seq<Entry>, i: nat)
    requires i < |values|
    ensures forall id :: HasChildren(values[..i + 1], id) <==>
              HasChildren(values[..i], id) || (Truthy(values[i].parentId) && values[i].parentId.value == id)
  {
    forall id ensures HasChildren(values[..i + 1], id) <==>
                        HasChildren(values[..i], id) || (Truthy(values[i].parentId) && values[i].parentId.value == id)
    {
      if HasChildren(values[..i], id) {
        var k :| 0 <= k < i && Truthy(values[..i][k].parentId) && values[..i][k].parentId.value == id;
        assert values[..i + 1][k] == values[..i][k];
      }
      if Truthy(values[i].parentId) && values[i].parentId.value == id {
        assert values[..i + 1][i] == values[i];
      }
    }
  }

  ghost function KeysOf(d: Entries): set<string> { set i | 0 <= i < |d| :: d[i].0 }

  ghost predicate LinkedTo(child: Entry, parent: Entry) {
    Truthy(child.parentId) && child.parentId.value == parent.id
  }

  /** Archive entries with distinct ids, each the child of the next. */
  ghost predicate IsChain(d: Entries, l: seq<Entry>) {
    && (forall i :: 0 <= i < |l| ==> Has(d, l[i].id) && Get(d, l[i].id) == l[i])
    && (forall i, j :: 0 <= i < j < |l| ==> l[i].id != l[j].id)
    && (forall i :: 0 <= i < |l| - 1 ==> LinkedTo(l[i], l[i + 1]))
  }

  /** A chain that cannot go on: its last member has no archived parent, or one already in the chain. */
  ghost predicate IsLineage(d: Entries, l: seq<Entry>)
    requires l != []
  {
    && IsChain(d, l)
    && (var last := l[|l| - 1];
        Truthy(last.parentId) && Has(d, last.parentId.value) ==>
            exists i :: 0 <= i < |l| && l[i].id == last.parentId.value)
  }
}
