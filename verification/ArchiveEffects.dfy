/**
 What the operations of the archive in `dharma_swarm/archive.py` do to its entries, field
 by field.
 */
module ArchiveEffects {
  import opened Options
  import opened OrderedDict
  import opened Fitness
  import opened MapElites
  import opened Compaction
  import opened EvolutionArchives

  predicate IsBearing(status: string) { status in ["applied", "evaluated", "shadow", "gated", "rolled_back"] }

  /** An entry with its coordinates filled in where it bears fitness and has none. */
  function Located(e: Entry): Entry {
    if IsBearing(e.status) && e.coords == map[] then
      e.(coords := map[
        "dharmic_alignment" := e.fitness.dharmicAlignment,
        "elegance" := e.fitness.elegance,
        "complexity" := if e.diffLines < 500 then e.diffLines as real / 500.0 else 1.0])
    else e
  }

  lemma {:induction false} FillIsLocated(e: Entry)
    ensures Fill(e) == Located(e) && BearingStatus(e.status) == IsBearing(e.status)
  {
  }

  /** The score that is let through without approval. */
  lemma {:induction false} AuthorizedIff(enforce: bool, approved: bool, e: Entry)
    ensures Authorized(enforce, approved, e) <==> !(enforce && !approved && e.fitness != ZERO_FITNESS)
  {
    OnlyZeroIsHarmless(e.fitness);
  }

  /** When an addition goes through, and that it changes nothing otherwise. */
  lemma {:induction false} AddSteps(enforce: bool, s: State, e: Entry, root: string, approved: bool)
    ensures var op, refused := Add(e, root, approved), enforce && !approved && e.fitness != ZERO_FITNESS;
            && OutcomeOf(enforce, s, op) == (if refused then Refused else Done)
            && Step(enforce, s, op) == (if refused then s else Added(s, e, root))
    ensures enforce && Moves(e.fitness) && !approved <==> enforce && !approved && e.fitness != ZERO_FITNESS
  {
    AuthorizedIff(enforce, approved, e);
    OnlyZeroIsHarmless(e.fitness);
  }

  /** The same for a status change of a present entry: it is guarded where fitness is involved before or after. */
  lemma {:induction false} UpdateSteps(enforce: bool, s: State, id: string, status: string, reason: Option<string>,
                                       approved: bool)
    requires Has(s.entries, id)
    ensures var op, e := UpdateStatus(id, status, reason, approved), Get(s.entries, id);
            var bears := IsBearing(e.status) || IsBearing(status);
            var refused := enforce && !approved && e.fitness != ZERO_FITNESS && bears;
            && OutcomeOf(enforce, s, op) == (if refused then Refused else Done)
            && Step(enforce, s, op) == (if refused then s else Updated(s, id, status, reason))
            && (refused <==> (Bears(e) || BearingStatus(status)) && !Authorized(enforce, approved, e))
  {
    AuthorizedIff(enforce, approved, Get(s.entries, id));
  }

  lemma {:induction false} RollbackSteps(enforce: bool, s: State, id: string, why: string, approved: bool)
    requires Has(s.entries, id)
    ensures var op, e := Rollback(id, why, approved), Get(s.entries, id);
            var refused := enforce && !approved && e.fitness != ZERO_FITNESS;
            && OutcomeOf(enforce, s, op) == (if refused then Refused else Done)
            && Step(enforce, s, op) == (if refused then s else Updated(s, id, "rolled_back", Some(why)))
            && (refused <==> !Authorized(enforce, approved, e))
  {
    AuthorizedIff(enforce, approved, Get(s.entries, id));
  }

  // ---- status changes -----------------------------------------------------------------

  /**
   The entry under the id has the status, and the reason if one is given; the others are as
   they were, up to coordinates.
   */
  ghost predicate StatusSet(before: Entries, after: Entries, id: string, status: string, reason: Option<string>) {
    && |after| == |before|
    && forall i :: 0 <= i < |before| ==>
         && after[i].0 == before[i].0
         && StatusSetAt(before[i], after[i].1, id, status, reason)
  }

  ghost predicate StatusSetAt(b: (string, Entry), a: Entry, id: string, status: string, reason: Option<string>) {
    if b.0 == id then
      a == Located(b.1.(status := status, rollbackReason := if reason.None? then b.1.rollbackReason else reason))
    else a == b.1 || a == Located(b.1)
  }

  lemma {:induction false} UpdatedSetsStatus(s: State, id: string, status: string, reason: Option<string>)
    requires Keyed(s.entries) && Has(s.entries, id)
    ensures StatusSet(s.entries, Updated(s, id, status, reason).entries, id, status, reason)
  {
    var e', after := WithStatus(Get(s.entries, id), status, reason), Updated(s, id, status, reason).entries;
    forall i | 0 <= i < |s.entries|
      ensures after[i].0 == s.entries[i].0 && StatusSetAt(s.entries[i], after[i].1, id, status, reason)
    {
      FindAt(s.entries, i);
      FillIsLocated(s.entries[i].1);
      FillIsLocated(e');
    }
  }

  // ---- a new entry -------------------------------------------------------------------------

  /** The given entry with its own Merkle root, and its parent's where the parent is known and has one. */
  function Chained(d: Entries, e: Entry, root: string): Entry {
    if e.parentId.Some? && e.parentId.value != "" && Has(d, e.parentId.value)
       && Get(d, e.parentId.value).merkleRoot.Some? && Get(d, e.parentId.value).merkleRoot.value != ""
    then e.(merkleRoot := Some(root), parentMerkleRoot := Get(d, e.parentId.value).merkleRoot)
    else e.(merkleRoot := Some(root))
  }

  /** The entry stands under its id, at the end unless the id was in use, and as one more line of the file. */
  ghost predicate EntryAdded(before: State, after: State, e: Entry, root: string) {
    var stored := Located(Chained(before.entries, e, root));
    && after.lines == before.lines + [stored]
    && (!Has(before.entries, e.id) ==> after.entries == before.entries + [(e.id, stored)])
    && (Has(before.entries, e.id) ==>
          && |after.entries| == |before.entries|
          && forall i :: 0 <= i < |before.entries| ==>
               after.entries[i] == if before.entries[i].0 == e.id then (e.id, stored) else before.entries[i])
  }

  lemma {:induction false} AddedAddsEntry(s: State, e: Entry, root: string)
    requires Keyed(s.entries)
    ensures EntryAdded(s, Added(s, e, root), e, root)
  {
    FillIsLocated(Linked(s.entries, e, root));
    assert Linked(s.entries, e, root) == Chained(s.entries, e, root);
    if Has(s.entries, e.id) {
      forall i | 0 <= i < |s.entries| && s.entries[i].0 == e.id ensures i == Find(s.entries, e.id) {
        FindAt(s.entries, i);
      }
    }
  }

  // ---- loading -----------------------------------------------------------------------------

  /** Line `i` is the last one with its id. */
  ghost predicate LastLine(lines: seq<Entry>, i: int) {
    0 <= i < |lines| && forall j :: i < j < |lines| ==> lines[j].id != lines[i].id
  }

  /** A loaded archive holds the last line of every id, with its coordinates, and nothing else. */
  lemma {:induction false} LoadHoldsLastLines(lines: seq<Entry>, id: string)
    ensures Keyed(ReplayEntries(lines))
    ensures Has(ReplayEntries(lines), id) <==> exists i :: LastLine(lines, i) && lines[i].id == id
    ensures forall i :: LastLine(lines, i) && lines[i].id == id ==> Get(ReplayEntries(lines), id) == Located(lines[i])
  {
    if lines != [] {
      var n := |lines| - 1;
      var init := lines[..n];
      LoadHoldsLastLines(init, id);
      FillIsLocated(lines[n]);
      PutLaws(ReplayEntries(init), lines[n].id, Fill(lines[n]));
      if lines[n].id == id {
        assert LastLine(lines, n);
      } else {
        forall i ensures LastLine(lines, i) && lines[i].id == id <==> LastLine(init, i) && init[i].id == id {
          assert 0 <= i < n ==> init[i] == lines[i];
          assert LastLine(init, i) && init[i].id == id ==> LastLine(lines, i);
          assert LastLine(lines, i) && i < n ==> LastLine(init, i);
        }
      }
    }
  }

  /** Distinct ids keep the order of the lines. */
  lemma {:induction false} LoadKeepsOrder(lines: seq<Entry>)
    requires forall i, j :: 0 <= i < j < |lines| ==> lines[i].id != lines[j].id
    ensures |ReplayEntries(lines)| == |lines|
    ensures forall i :: 0 <= i < |lines| ==> ReplayEntries(lines)[i] == (lines[i].id, Located(lines[i]))
  {
    if lines != [] {
      var n := |lines| - 1;
      var d := ReplayEntries(lines[..n]);
      LoadKeepsOrder(lines[..n]);
      FillIsLocated(lines[n]);
      assert forall i :: 0 <= i < |d| ==> d[i].0 == lines[i].id;
      PutNew(d, lines[n].id, Fill(lines[n]));
    }
  }

  lemma {:induction false} PutNew(d: Entries, id: string, e: Entry)
    requires forall i :: 0 <= i < |d| ==> d[i].0 != id
    ensures Put(d, id, e) == d + [(id, e)]
  {
  }
}
