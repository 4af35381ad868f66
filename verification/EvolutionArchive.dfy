/**
 The evolution archive of `dharma_swarm/archive.py` as a state machine: an
 ordered dictionary of entries, the grid that indexes them, and the JSONL file
 that is appended to and rewritten. `approved` says whether the guardian receipt
 grants authority at the time of the call, `root` is what the Merkle log returns.
 */
module EvolutionArchives {
  import opened Options
  import opened OrderedDict
  import opened Fitness
  import opened Sorting
  import opened MapElites
  import opened Compaction

  type Entries = Dict<string, Entry>

  datatype State = State(nBins: int, entries: Entries, cells: Cells, lines: seq<Entry>)

  datatype Outcome = Done | Absent | Refused | IndexOutOfRange

  datatype Op =
    | Add(entry: Entry, root: string, approved: bool)
    | UpdateStatus(id: string, status: string, reason: Option<string>, approved: bool)
    | Rollback(id: string, why: string, approved: bool)
    | Compact(minAge: int, percentile: real, approved: bool)
    | Reconfigure(bins: Option<int>)
    | Reload

  // ---- the operations ------------------------------------------------------

  /** The grid fills in the coordinates of the entry objects it is given, and those are the archive's own. */
  function Fill(e: Entry): Entry { if Bears(e) then WithCoords(e) else e }

  function FillAll(d: Entries): (r: Entries)
    ensures |r| == |d| && forall i :: 0 <= i < |d| ==> r[i] == (d[i].0, Fill(d[i].1))
  {
    seq(|d|, i requires 0 <= i < |d| => (d[i].0, Fill(d[i].1)))
  }

  function BearingOf(d: Entries): seq<Entry> { Filter(Values(d), Bears) }

  /** `_assert_fitness_authority`. */
  predicate Authorized(enforce: bool, approved: bool, e: Entry) {
    !enforce || !Moves(e.fitness) || approved
  }

  function ReplayEntries(lines: seq<Entry>): Entries {
    if lines == [] then []
    else
      var last := lines[|lines| - 1];
      Put(ReplayEntries(lines[..|lines| - 1]), last.id, Fill(last))
  }

  /** What `load` makes of a file. */
  function Load(n: int, lines: seq<Entry>): State {
    State(n, ReplayEntries(lines), Rebuilt(n, Filter(lines, Bears)), lines)
  }

  /** The entry `add_entry` stores: linked to its parent's Merkle root and given its own. */
  function Linked(d: Entries, e: Entry, root: string): Entry {
    var l := if Truthy(e.parentId) && Has(d, e.parentId.value) && Truthy(Get(d, e.parentId.value).merkleRoot)
             then e.(parentMerkleRoot := Get(d, e.parentId.value).merkleRoot) else e;
    l.(merkleRoot := Some(root))
  }

  function Added(s: State, e: Entry, root: string): State {
    var stored := Fill(Linked(s.entries, e, root));
    State(s.nBins, Put(s.entries, e.id, stored),
          if Bears(e) then TryInsert(s.nBins, s.cells, stored) else s.cells,
          s.lines + [stored])
  }

  /** Rebuild the grid from changed entries, then rewrite the file. */
  function Settled(n: int, d: Entries): State {
    State(n, FillAll(d), Rebuilt(n, BearingOf(d)), Values(FillAll(d)))
  }

  function WithStatus(e: Entry, status: string, reason: Option<string>): Entry {
    e.(status := status, rollbackReason := if reason.Some? then reason else e.rollbackReason)
  }

  function Updated(s: State, id: string, status: string, reason: Option<string>): State
    requires Has(s.entries, id)
  {
    var d := Put(s.entries, id, WithStatus(Get(s.entries, id), status, reason));
    if Bears(Get(s.entries, id)) || BearingStatus(status) then Settled(s.nBins, d)
    else State(s.nBins, d, s.cells, Values(d))
  }

  function WithComposted(d: Entries, doomed: seq<Entry>): (r: Entries)
    ensures |r| == |d|
    ensures forall i :: 0 <= i < |d| ==>
              r[i] == (d[i].0, if d[i].1 in doomed then d[i].1.(status := "composted") else d[i].1)
  {
    seq(|d|, i requires 0 <= i < |d| => (d[i].0, if d[i].1 in doomed then d[i].1.(status := "composted") else d[i].1))
  }

  predicate AllAuthorized(enforce: bool, approved: bool, es: seq<Entry>) {
    forall i :: 0 <= i < |es| ==> Authorized(enforce, approved, es[i])
  }

  /** Whether a call goes through, and if not why; a call that does not changes nothing. */
  function OutcomeOf(enforce: bool, s: State, op: Op): Outcome {
    match op
    case Add(e, _, approved) => if Authorized(enforce, approved, e) then Done else Refused
    case UpdateStatus(id, status, _, approved) =>
      if !Has(s.entries, id) then Absent
      else
        var e := Get(s.entries, id);
        if (Bears(e) || BearingStatus(status)) && !Authorized(enforce, approved, e) then Refused else Done
    case Rollback(id, _, approved) =>
      if !Has(s.entries, id) then Absent
      else if Authorized(enforce, approved, Get(s.entries, id)) then Done else Refused
    case Compact(minAge, percentile, approved) =>
      (match PlanFor(Values(s.entries), minAge, percentile)
       case Nothing => Done
       case IndexError => IndexOutOfRange
       case Compost(doomed) => if AllAuthorized(enforce, approved, doomed) then Done else Refused)
    case Reconfigure(_) => Done
    case Reload => Done
  }

  function Step(enforce: bool, s: State, op: Op): State {
    if OutcomeOf(enforce, s, op) != Done then s
    else
      match op
      case Add(e, root, _) => Added(s, e, root)
      case UpdateStatus(id, status, reason, _) => Updated(s, id, status, reason)
      case Rollback(id, why, _) => Updated(s, id, "rolled_back", Some(why))
      case Compact(minAge, percentile, _) =>
        (match PlanFor(Values(s.entries), minAge, percentile)
         case Compost(doomed) => if doomed == [] then s else Settled(s.nBins, WithComposted(s.entries, doomed))
         case _ => s)
      case Reconfigure(n) => State(Bins(n), FillAll(s.entries), Rebuilt(Bins(n), BearingOf(s.entries)), s.lines)
      case Reload => Load(s.nBins, s.lines)
  }

  /** A whole run, from the left. */
  function Run(enforce: bool, s: State, ops: seq<Op>): State {
    if ops == [] then s else Step(enforce, Run(enforce, s, ops[..|ops| - 1]), ops[|ops| - 1])
  }

  // ---- what every run keeps ------------------------------------------------

  ghost predicate Keyed(d: Entries) {
    Distinct(d) && forall i :: 0 <= i < |d| ==> d[i].0 == d[i].1.id
  }

  /** The dictionary is the file line by line, with coordinates filled in. */
  ghost predicate Mirrors(lines: seq<Entry>, d: Entries) {
    |lines| == |d| && forall i :: 0 <= i < |d| ==> d[i] == (lines[i].id, Fill(lines[i]))
  }

  /** Entries are keyed by id, the file mirrors them, and the grid is the index of the bearing ones. */
  ghost predicate Consistent(s: State) {
    && Keyed(s.entries) && Mirrors(s.lines, s.entries)
    && s.cells == Rebuilt(s.nBins, BearingOf(s.entries))
  }

  /** Ids given to `add_entry` are not in use. */
  ghost predicate FreshRun(enforce: bool, s: State, ops: seq<Op>) {
    ops == [] || (FreshRun(enforce, s, ops[..|ops| - 1]) && FreshOp(Run(enforce, s, ops[..|ops| - 1]), ops[|ops| - 1]))
  }

  ghost predicate FreshOp(s: State, op: Op) {
    op.Add? ==> !Has(s.entries, op.entry.id)
  }

  lemma {:induction false} FillTwice(e: Entry)
    ensures Fill(Fill(e)) == Fill(e) && Fill(e).id == e.id && Bears(Fill(e)) == Bears(e)
  {
    WithCoordsLaws(5, e);
  }

  lemma {:induction false} ReplayMirrors(lines: seq<Entry>, d: Entries)
    requires Distinct(d) && Mirrors(lines, d)
    ensures ReplayEntries(lines) == d
  {
    if lines != [] {
      ReplayMirrors(lines[..|lines| - 1], d[..|d| - 1]);
    }
  }

  /** Filled or not, the entries index alike. */
  lemma {:induction false} RebuiltIgnoresFilling(n: int, xs: seq<Entry>, ys: seq<Entry>)
    requires |xs| == |ys| && forall i :: 0 <= i < |xs| ==> ys[i] == Fill(xs[i])
    ensures Rebuilt(n, Filter(ys, Bears)) == Rebuilt(n, Filter(xs, Bears))
  {
    if xs != [] {
      var k := |xs| - 1;
      RebuiltIgnoresFilling(n, xs[..k], ys[..k]);
      WithCoordsLaws(n, xs[k]);
      if Bears(xs[k]) {
        RebuiltSnoc(n, Filter(xs[..k], Bears), xs[k]);
        RebuiltSnoc(n, Filter(ys[..k], Bears), ys[k]);
      }
    }
  }

  lemma {:induction false} RebuiltSnoc(n: int, es: seq<Entry>, e: Entry)
    ensures Rebuilt(n, es + [e]) == TryInsert(n, Rebuilt(n, es), e)
  {
    assert (es + [e])[..|es|] == es;
  }

  /** One more line: one more assignment, and one more insertion if it bears fitness. */
  lemma {:induction false} LoadSnoc(n: int, lines: seq<Entry>, i: nat)
    requires i < |lines|
    ensures ReplayEntries(lines[..i + 1]) == Put(ReplayEntries(lines[..i]), lines[i].id, Fill(lines[i]))
    ensures Rebuilt(n, Filter(lines[..i + 1], Bears)) ==
            if Bears(lines[i]) then TryInsert(n, Rebuilt(n, Filter(lines[..i], Bears)), lines[i])
            else Rebuilt(n, Filter(lines[..i], Bears))
  {
    assert lines[..i + 1] == lines[..i] + [lines[i]] && lines[..i + 1][..i] == lines[..i];
    FilterSnoc(lines[..i], lines[i], Bears);
    RebuiltSnoc(n, Filter(lines[..i], Bears), lines[i]);
  }

  lemma {:induction false} PutKeyed(d: Entries, e: Entry)
    requires Keyed(d)
    ensures Keyed(Put(d, e.id, e))
  {
    PutLaws(d, e.id, e);
  }

  lemma {:induction false} InsertIgnoresFilling(n: int, cells: Cells, e: Entry)
    ensures TryInsert(n, cells, Fill(e)) == TryInsert(n, cells, e)
  {
    WithCoordsLaws(n, e);
  }

  lemma {:induction false} SettledIsConsistent(n: int, d: Entries)
    requires Keyed(d)
    ensures Consistent(Settled(n, d))
  {
    var s := Settled(n, d);
    forall i | 0 <= i < |d| ensures s.entries[i] == (s.lines[i].id, Fill(s.lines[i])) {
      FillTwice(d[i].1);
    }
    RebuiltIgnoresFilling(n, Values(d), Values(s.entries));
  }

  /** Loading a file with distinct ids gives a consistent archive. */
  lemma {:induction false} LoadIsConsistent(n: int, lines: seq<Entry>)
    requires forall i, j :: 0 <= i < j < |lines| ==> lines[i].id != lines[j].id
    ensures Consistent(Load(n, lines))
  {
    var d: Entries := seq(|lines|, i requires 0 <= i < |lines| => (lines[i].id, Fill(lines[i])));
    ReplayMirrors(lines, d);
    RebuiltIgnoresFilling(n, lines, Values(d));
  }

  /** Reloading a consistent archive changes nothing: same entries in the same order, same grid in the same order. */
  lemma {:induction false} ReloadIsIdentity(s: State)
    requires Consistent(s)
    ensures Load(s.nBins, s.lines) == s
  {
    ReplayMirrors(s.lines, s.entries);
    RebuiltIgnoresFilling(s.nBins, s.lines, Values(s.entries));
  }

  lemma {:induction false} StepKeepsConsistent(enforce: bool, s: State, op: Op)
    requires Consistent(s) && FreshOp(s, op)
    ensures Consistent(Step(enforce, s, op))
  {
    if OutcomeOf(enforce, s, op) == Done {
      match op
      case Add(e, root, _) => AddKeepsConsistent(s, e, root);
      case UpdateStatus(id, status, reason, _) => UpdateKeepsConsistent(s, id, status, reason);
      case Rollback(id, why, _) => UpdateKeepsConsistent(s, id, "rolled_back", Some(why));
      case Compact(minAge, percentile, _) =>
        var plan := PlanFor(Values(s.entries), minAge, percentile);
        if plan.Compost? && plan.candidates != [] {
          SettledIsConsistent(s.nBins, WithComposted(s.entries, plan.candidates));
        }
      case Reconfigure(n) => ReconfigureKeepsConsistent(s, n);
      case Reload => ReloadIsIdentity(s);
    }
  }

  lemma {:induction false} AddKeepsConsistent(s: State, e: Entry, root: string)
    requires Consistent(s) && !Has(s.entries, e.id)
    ensures Consistent(Added(s, e, root))
  {
    FillTwice(Linked(s.entries, e, root));
    AppendKeepsConsistent(s, Fill(Linked(s.entries, e, root)));
  }

  lemma {:induction false} AppendKeepsConsistent(s: State, e: Entry)
    requires Consistent(s) && !Has(s.entries, e.id) && Fill(e) == e
    ensures Consistent(State(s.nBins, Put(s.entries, e.id, e),
                             if Bears(e) then TryInsert(s.nBins, s.cells, e) else s.cells, s.lines + [e]))
  {
    BearingOfAppend(s.entries, e);
    RebuiltSnoc(s.nBins, BearingOf(s.entries), e);
    assert Keyed(s.entries + [(e.id, e)]);
    assert Mirrors(s.lines + [e], s.entries + [(e.id, e)]);
  }

  lemma {:induction false} BearingOfAppend(d: Entries, e: Entry)
    ensures BearingOf(d + [(e.id, e)]) == if Bears(e) then BearingOf(d) + [e] else BearingOf(d)
  {
    assert Values(d + [(e.id, e)]) == Values(d) + [e];
    FilterSnoc(Values(d), e, Bears);
  }

  lemma {:induction false} UpdateKeepsConsistent(s: State, id: string, status: string, reason: Option<string>)
    requires Consistent(s) && Has(s.entries, id)
    ensures Consistent(Updated(s, id, status, reason))
  {
    var e' := WithStatus(Get(s.entries, id), status, reason);
    var d := Put(s.entries, id, e');
    PutLaws(s.entries, id, e');
    if Bears(Get(s.entries, id)) || BearingStatus(status) {
      SettledIsConsistent(s.nBins, d);
    } else {
      FilterPointwise(Values(s.entries), Values(d), Bears);
      forall i | 0 <= i < |d| ensures d[i] == (d[i].1.id, Fill(d[i].1)) {
        FillTwice(s.lines[i]);
      }
    }
  }

  lemma {:induction false} ReconfigureKeepsConsistent(s: State, n: Option<int>)
    requires Consistent(s)
    ensures Consistent(State(Bins(n), FillAll(s.entries), Rebuilt(Bins(n), BearingOf(s.entries)), s.lines))
  {
    forall i | 0 <= i < |s.entries| ensures FillAll(s.entries)[i] == s.entries[i] {
      FillTwice(s.lines[i]);
    }
    assert FillAll(s.entries) == s.entries;
  }

  lemma {:induction false} RunKeepsConsistent(enforce: bool, s: State, ops: seq<Op>)
    requires Consistent(s) && FreshRun(enforce, s, ops)
    ensures Consistent(Run(enforce, s, ops))
  {
    if ops != [] {
      RunKeepsConsistent(enforce, s, ops[..|ops| - 1]);
      StepKeepsConsistent(enforce, Run(enforce, s, ops[..|ops| - 1]), ops[|ops| - 1]);
    }
  }

  /**
   After every run with fresh ids from a file with distinct ids, the grid holds
   exactly the champions of the fitness-bearing entries, and reloading the file
   restores the archive as it is in memory.
   */
  lemma {:induction false} EveryRunIsIndexedAndReloadable(enforce: bool, n: int, lines: seq<Entry>, ops: seq<Op>)
    requires forall i, j :: 0 <= i < j < |lines| ==> lines[i].id != lines[j].id
    requires FreshRun(enforce, Load(n, lines), ops)
    ensures var s := Run(enforce, Load(n, lines), ops);
            && IsIndexOf(s.nBins, BearingOf(s.entries), s.cells)
            && s.cells == Rebuilt(s.nBins, BearingOf(s.entries))
            && Load(s.nBins, s.lines) == s
  {
    LoadIsConsistent(n, lines);
    RunKeepsConsistent(enforce, Load(n, lines), ops);
    var s := Run(enforce, Load(n, lines), ops);
    RebuiltIsIndex(s.nBins, BearingOf(s.entries));
    ReloadIsIdentity(s);
  }
}
