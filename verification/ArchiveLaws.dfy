/** Consequences for whole runs of the evolution archive: authority over fitness, the champions, and reused ids. */
module ArchiveLaws {
  import opened Options
  import opened OrderedDict
  import opened Fitness
  import opened Sorting
  import opened MapElites
  import opened Compaction
  import opened EvolutionArchives

  // ---- no fitness moves without approval -------------------------------

  predicate MovingBearing(e: Entry) { Bears(e) && Moves(e.fitness) }

  /** The fitness-bearing entries whose fitness moves the archive, in order. */
  function MovingOf(s: State): seq<Entry> { Filter(Values(s.entries), MovingBearing) }

  predicate Approved(op: Op) {
    match op
    case Add(_, _, approved) => approved
    case UpdateStatus(_, _, _, approved) => approved
    case Rollback(_, _, approved) => approved
    case Compact(_, _, approved) => approved
    case Reconfigure(_) => false
    case Reload => false
  }

  /** What holds of a state after any run at all, reused ids included. */
  ghost predicate Sound(s: State) {
    && Keyed(s.entries)
    && (forall i :: 0 <= i < |s.entries| ==> Fill(s.entries[i].1) == s.entries[i].1)
    && ReplayEntries(s.lines) == s.entries
  }

  lemma {:induction false} ReplayIsKeyed(lines: seq<Entry>)
    ensures Keyed(ReplayEntries(lines))
    ensures forall i :: 0 <= i < |ReplayEntries(lines)| ==> Fill(ReplayEntries(lines)[i].1) == ReplayEntries(lines)[i].1
  {
    if lines != [] {
      var last := lines[|lines| - 1];
      ReplayIsKeyed(lines[..|lines| - 1]);
      FillTwice(last);
      PutLaws(ReplayEntries(lines[..|lines| - 1]), last.id, Fill(last));
    }
  }

  lemma {:induction false} LoadIsSound(n: int, lines: seq<Entry>)
    ensures Sound(Load(n, lines))
  {
    ReplayIsKeyed(lines);
  }

  lemma {:induction false} SettledIsSound(n: int, d: Entries)
    requires Keyed(d)
    ensures Sound(Settled(n, d))
  {
    SettledIsConsistent(n, d);
    ConsistentIsSound(Settled(n, d));
  }

  lemma {:induction false} ConsistentIsSound(s: State)
    requires Consistent(s)
    ensures Sound(s)
  {
    ReplayMirrors(s.lines, s.entries);
    forall i | 0 <= i < |s.entries| ensures Fill(s.entries[i].1) == s.entries[i].1 {
      FillTwice(s.lines[i]);
    }
  }

  /** The dictionary after one status change; fresh values go where the old ones were. */
  lemma {:induction false} PutStatus(d: Entries, id: string, e': Entry)
    requires Keyed(d) && Has(d, id) && e'.id == id
    ensures Keyed(Put(d, id, e')) && |Put(d, id, e')| == |d|
    ensures forall i :: 0 <= i < |d| ==> Put(d, id, e')[i] == if d[i].0 == id then (id, e') else d[i]
  {
    PutLaws(d, id, e');
    FindAt(d, Find(d, id));
  }

  lemma {:induction false} StepKeepsSound(enforce: bool, s: State, op: Op)
    requires Sound(s)
    ensures Sound(Step(enforce, s, op))
  {
    if OutcomeOf(enforce, s, op) == Done {
      match op
      case Add(e, root, _) =>
        FillTwice(Linked(s.entries, e, root));
        AddKeepsSound(s, e, root);
      case UpdateStatus(id, status, reason, _) => UpdateKeepsSound(s, id, status, reason);
      case Rollback(id, why, _) => UpdateKeepsSound(s, id, "rolled_back", Some(why));
      case Compact(minAge, percentile, approved) =>
        CompactSteps(enforce, s, minAge, percentile, approved);
        if Step(enforce, s, op) != s { CompactKeepsSound(s, minAge, percentile); }
      case Reconfigure(n) => assert FillAll(s.entries) == s.entries;
      case Reload => ReplayIsKeyed(s.lines);
    }
  }

  lemma {:induction false} CompactKeepsSound(s: State, minAge: int, percentile: real)
    requires Sound(s) && PlanFor(Values(s.entries), minAge, percentile).Compost?
    ensures Sound(Forgotten(s, minAge, percentile))
  {
    SettledIsSound(s.nBins, WithComposted(s.entries, PlanFor(Values(s.entries), minAge, percentile).candidates));
  }

  lemma {:induction false} AddKeepsSound(s: State, e: Entry, root: string)
    requires Sound(s)
    ensures Sound(Added(s, e, root))
  {
    var stored := Fill(Linked(s.entries, e, root));
    FillTwice(Linked(s.entries, e, root));
    ReplaySnoc(s.lines, stored);
    ReplayIsKeyed(s.lines + [stored]);
  }

  lemma {:induction false} ReplaySnoc(lines: seq<Entry>, e: Entry)
    ensures ReplayEntries(lines + [e]) == Put(ReplayEntries(lines), e.id, Fill(e))
  {
    assert (lines + [e])[..|lines|] == lines;
  }

  lemma {:induction false} UpdateKeepsSound(s: State, id: string, status: string, reason: Option<string>)
    requires Sound(s) && Has(s.entries, id)
    ensures Sound(Updated(s, id, status, reason))
  {
    var e' := WithStatus(Get(s.entries, id), status, reason);
    var d := Put(s.entries, id, e');
    PutStatus(s.entries, id, e');
    if Bears(Get(s.entries, id)) || BearingStatus(status) {
      SettledIsSound(s.nBins, d);
    } else {
      ReplayMirrors(Values(d), d);
    }
  }

  /**
   For every run whatever, the file replays to the entries in memory, in order;
   ids may be reused and duplicated at will.
   */
  lemma {:induction false} EveryRunReloadsItsEntries(enforce: bool, n: int, lines: seq<Entry>, ops: seq<Op>)
    ensures var s := Run(enforce, Load(n, lines), ops);
            Sound(s) && Load(s.nBins, s.lines).entries == s.entries
  {
    if ops == [] {
      LoadIsSound(n, lines);
    } else {
      EveryRunReloadsItsEntries(enforce, n, lines, ops[..|ops| - 1]);
      StepKeepsSound(enforce, Run(enforce, Load(n, lines), ops[..|ops| - 1]), ops[|ops| - 1]);
    }
  }

  /** Filling changes no entry that bore fitness before a single status change. */
  lemma {:induction false} UpdateKeepsMoving(s: State, id: string, status: string, reason: Option<string>)
    requires Sound(s) && Has(s.entries, id)
    requires !Moves(Get(s.entries, id).fitness) || !(Bears(Get(s.entries, id)) || BearingStatus(status))
    ensures MovingOf(Updated(s, id, status, reason)) == MovingOf(s)
  {
    var e' := WithStatus(Get(s.entries, id), status, reason);
    PutStatus(s.entries, id, e');
    FilterPointwise(Values(s.entries), Values(Updated(s, id, status, reason).entries), MovingBearing);
  }

  lemma {:induction false} CompostKeepsMoving(s: State, doomed: seq<Entry>)
    requires Sound(s) && AllAuthorized(true, false, doomed)
    ensures MovingOf(Settled(s.nBins, WithComposted(s.entries, doomed))) == MovingOf(s)
  {
    var after := Settled(s.nBins, WithComposted(s.entries, doomed)).entries;
    forall i | 0 <= i < |after| && after[i] != s.entries[i]
      ensures !MovingBearing(after[i].1) && !MovingBearing(s.entries[i].1)
    {
      var k :| 0 <= k < |doomed| && doomed[k] == s.entries[i].1;
      assert Authorized(true, false, doomed[k]);
    }
    FilterPointwise(Values(s.entries), Values(after), MovingBearing);
  }

  /**
   One unapproved step under enforcement changes the moving entries only when it
   adds, under an id already held by a moving fitness-bearing entry, an entry that
   is let through; and then it does change them.
   */
  lemma {:induction false} UnapprovedStepMovesNothingIff(s: State, op: Op)
    requires Sound(s) && !Approved(op)
    ensures MovingOf(Step(true, s, op)) == MovingOf(s) <==>
            !(op.Add? && !Moves(op.entry.fitness) && Has(s.entries, op.entry.id)
              && MovingBearing(Get(s.entries, op.entry.id)))
  {
    if OutcomeOf(true, s, op) == Done {
      match op
      case Add(e, root, _) => UnapprovedAdd(s, e, root);
      case UpdateStatus(id, status, reason, _) => UpdateKeepsMoving(s, id, status, reason);
      case Rollback(id, why, _) => UpdateKeepsMoving(s, id, "rolled_back", Some(why));
      case Compact(minAge, percentile, _) =>
        var plan := PlanFor(Values(s.entries), minAge, percentile);
        if plan.Compost? && plan.candidates != [] {
          CompostKeepsMoving(s, plan.candidates);
        }
      case Reconfigure(n) => assert FillAll(s.entries) == s.entries;
      case Reload =>
    }
  }

  lemma {:induction false} UnapprovedAdd(s: State, e: Entry, root: string)
    requires Sound(s) && !Moves(e.fitness)
    ensures MovingOf(Added(s, e, root)) == MovingOf(s) <==>
            !(Has(s.entries, e.id) && MovingBearing(Get(s.entries, e.id)))
  {
    var stored := Fill(Linked(s.entries, e, root));
    FillTwice(Linked(s.entries, e, root));
    var before, after := Values(s.entries), Values(Added(s, e, root).entries);
    if Has(s.entries, e.id) {
      var i := Find(s.entries, e.id);
      assert after == before[..i] + [stored] + before[i + 1..];
      assert before == before[..i] + [before[i]] + before[i + 1..];
      FilterAround(before[..i], stored, before[i + 1..], MovingBearing);
      FilterAround(before[..i], before[i], before[i + 1..], MovingBearing);
    } else {
      assert after == before + [stored];
      FilterSnoc(before, stored, MovingBearing);
    }
  }

  lemma {:induction false} FilterAround(a: seq<Entry>, x: Entry, b: seq<Entry>, p: Entry -> bool)
    ensures Filter(a + [x] + b, p) == Filter(a, p) + (if p(x) then [x] else []) + Filter(b, p)
  {
    FilterConcat(a + [x], b, p);
    FilterSnoc(a, x, p);
  }

  /** With fresh ids and enforcement on, a run without approval leaves every moving entry as it is. */
  lemma {:induction false} NoFitnessMovesWithoutApproval(s: State, ops: seq<Op>)
    requires Sound(s) && FreshRun(true, s, ops)
    requires forall k :: 0 <= k < |ops| ==> !Approved(ops[k])
    ensures Sound(Run(true, s, ops)) && MovingOf(Run(true, s, ops)) == MovingOf(s)
  {
    if ops != [] {
      var init, last := ops[..|ops| - 1], ops[|ops| - 1];
      NoFitnessMovesWithoutApproval(s, init);
      StepKeepsSound(true, Run(true, s, init), last);
      UnapprovedStepMovesNothingIff(Run(true, s, init), last);
    }
  }

  // ---- the forgetting law -------------------------------------------------

  /** For a percentile from zero on, the rank is the floor of m*p, capped at m-1. */
  lemma {:induction false} ThresholdRankIsFloor(m: nat, percentile: real)
    requires 0 < m && 0.0 <= percentile
    ensures var k := (m as real * percentile).Floor;
            ThresholdRank(m, percentile) == Some(if k < m - 1 then k else m - 1)
  {
    assert 0.0 <= m as real * percentile;
  }

  /**
   A compaction leaves the first m-k results of `get_best` as they were, where m
   counts the fitness-bearing entries and k is the rank of the threshold.
   */
  lemma {:induction false} CompactKeepsChampions(enforce: bool, s: State, minAge: int, percentile: real,
                                                 approved: bool, k: nat)
    requires Sound(s) && k < |BearingOf(s.entries)|
    requires ThresholdRank(|BearingOf(s.entries)|, percentile) == Some(k)
    ensures SameTop(Values(s.entries), Values(Step(enforce, s, Compact(minAge, percentile, approved)).entries),
                    |BearingOf(s.entries)| - k)
  {
    CompactSteps(enforce, s, minAge, percentile, approved);
    if Step(enforce, s, Compact(minAge, percentile, approved)) != s {
      ForgettingKeepsChampions(s, minAge, percentile, k);
    }
  }

  /** What `compact` leaves when it does anything. */
  function Forgotten(s: State, minAge: int, percentile: real): State
    requires PlanFor(Values(s.entries), minAge, percentile).Compost?
  {
    Settled(s.nBins, WithComposted(s.entries, PlanFor(Values(s.entries), minAge, percentile).candidates))
  }

  lemma {:induction false} CompactSteps(enforce: bool, s: State, minAge: int, percentile: real, approved: bool)
    ensures var after := Step(enforce, s, Compact(minAge, percentile, approved));
            after == s || (PlanFor(Values(s.entries), minAge, percentile).Compost?
                           && after == Forgotten(s, minAge, percentile))
  {
  }

  lemma {:induction false} ForgettingKeepsChampions(s: State, minAge: int, percentile: real, k: nat)
    requires Sound(s) && k < |BearingOf(s.entries)|
    requires ThresholdRank(|BearingOf(s.entries)|, percentile) == Some(k)
    requires PlanFor(Values(s.entries), minAge, percentile).Compost?
    ensures SameTop(Values(s.entries), Values(Forgotten(s, minAge, percentile).entries), |BearingOf(s.entries)| - k)
  {
    var t := SortBy(WeightedValues(BearingOf(s.entries)), Identity)[k];
    var after := Forgotten(s, minAge, percentile).entries;
    assert Composted(Values(s.entries), Values(after), t) by { CompostedBelow(s, minAge, percentile, k, t); }
    ChampionsStayIn(s.entries, after, k, t);
  }

  lemma {:induction false} ChampionsStayIn(d: Entries, d': Entries, k: nat, t: real)
    requires k < |BearingOf(d)| && t == SortBy(WeightedValues(BearingOf(d)), Identity)[k]
    requires Composted(Values(d), Values(d'), t)
    ensures SameTop(Values(d), Values(d'), |BearingOf(d)| - k)
  {
    ChampionsStay(Values(d), Values(d'), k);
  }

  lemma {:induction false} CompostedBelow(s: State, minAge: int, percentile: real, k: nat, t: real)
    requires Sound(s) && k < |BearingOf(s.entries)|
    requires ThresholdRank(|BearingOf(s.entries)|, percentile) == Some(k)
    requires PlanFor(Values(s.entries), minAge, percentile).Compost?
    requires t == SortBy(WeightedValues(BearingOf(s.entries)), Identity)[k]
    ensures Composted(Values(s.entries), Values(Forgotten(s, minAge, percentile).entries), t)
  {
    var vs := Values(s.entries);
    var doomed := PlanFor(vs, minAge, percentile).candidates;
    forall i | 0 <= i < |vs| && vs[i] in doomed ensures W(vs[i]) < t {
      FilterMember(OldEntries(vs, minAge), DoomedUnder(vs, t), vs[i]);
    }
  }

  lemma {:induction false} EntriesDiffer(d: Entries)
    requires Keyed(d)
    ensures NoRepeats(Values(d))
  {
  }

  /**
   With the rank of the threshold at k, an entry is newly composted if and only if it is
   nobody's parent, weighs less than the bearing entry of rank k, has a bearing status or
   is proposed, and at least `minAge` entries come after it in time; nothing else changes.
   */
  lemma {:induction false} CompactForgetsExactly(enforce: bool, s: State, minAge: int, percentile: real,
                                                 approved: bool, k: nat, i: nat)
    requires Sound(s) && i < |s.entries| && minAge <= |s.entries| && k < |BearingOf(s.entries)|
    requires ThresholdRank(|BearingOf(s.entries)|, percentile) == Some(k)
    requires OutcomeOf(enforce, s, Compact(minAge, percentile, approved)) == Done
    ensures var after := Step(enforce, s, Compact(minAge, percentile, approved)).entries;
            var t := SortBy(WeightedValues(BearingOf(s.entries)), Identity)[k];
            && |after| == |s.entries|
            && after[i] == if Forgettable(Values(s.entries), t, i, minAge)
                           then (s.entries[i].0, s.entries[i].1.(status := "composted"))
                           else s.entries[i]
  {
    var vs := Values(s.entries);
    EntriesDiffer(s.entries);
    CandidateIff(vs, minAge, percentile, i, k);
    CompostedAt(enforce, s, minAge, percentile, approved, i);
  }

  lemma {:induction false} CompostedAt(enforce: bool, s: State, minAge: int, percentile: real, approved: bool, i: nat)
    requires Sound(s) && i < |s.entries| && PlanFor(Values(s.entries), minAge, percentile).Compost?
    requires OutcomeOf(enforce, s, Compact(minAge, percentile, approved)) == Done
    ensures var after := Step(enforce, s, Compact(minAge, percentile, approved)).entries;
            && |after| == |s.entries|
            && after[i] == if s.entries[i].1 in PlanFor(Values(s.entries), minAge, percentile).candidates
                           then (s.entries[i].0, s.entries[i].1.(status := "composted"))
                           else s.entries[i]
  {
    assert Fill(s.entries[i].1) == s.entries[i].1 && !BearingStatus("composted");
  }

  /** Some forgettable entry has a score that is not zero throughout. */
  ghost predicate Guarded(vs: seq<Entry>, t: real, minAge: int) {
    exists i :: 0 <= i < |vs| && Forgettable(vs, t, i, minAge) && vs[i].fitness != ZERO_FITNESS
  }

  /** A compaction is refused exactly when it is enforced, not approved and guarded. */
  lemma {:induction false} CompactOutcomeIff(enforce: bool, s: State, minAge: int, percentile: real,
                                             approved: bool, k: nat)
    requires Sound(s) && minAge <= |s.entries| && k < |BearingOf(s.entries)|
    requires ThresholdRank(|BearingOf(s.entries)|, percentile) == Some(k)
    ensures var t := SortBy(WeightedValues(BearingOf(s.entries)), Identity)[k];
            OutcomeOf(enforce, s, Compact(minAge, percentile, approved)) ==
            if enforce && !approved && Guarded(Values(s.entries), t, minAge) then Refused else Done
  {
    var vs := Values(s.entries);
    CandidateAt(vs, minAge, percentile, k);
    var doomed := PlanFor(vs, minAge, percentile).candidates;
    EntriesDiffer(s.entries);
    assert Guarded(vs, SortBy(WeightedValues(BearingOf(s.entries)), Identity)[k], minAge) <==>
           !AllAuthorized(true, false, doomed) by { GuardedIff(vs, minAge, percentile, k); }
    OutcomeOfCompost(enforce, s, minAge, percentile, approved, doomed);
  }

  lemma {:induction false} OutcomeOfCompost(enforce: bool, s: State, minAge: int, percentile: real,
                                            approved: bool, doomed: seq<Entry>)
    requires PlanFor(Values(s.entries), minAge, percentile) == Compost(doomed)
    ensures OutcomeOf(enforce, s, Compact(minAge, percentile, approved)) ==
            if enforce && !approved && !AllAuthorized(true, false, doomed) then Refused else Done
  {
    assert AllAuthorized(enforce, approved, doomed) <==> !enforce || approved || AllAuthorized(true, false, doomed);
  }

  lemma {:induction false} GuardedIff(vs: seq<Entry>, minAge: int, percentile: real, k: nat)
    requires NoRepeats(vs) && minAge <= |vs| && k < |Filter(vs, Bears)|
    requires ThresholdRank(|Filter(vs, Bears)|, percentile) == Some(k) && PlanFor(vs, minAge, percentile).Compost?
    ensures Guarded(vs, SortBy(WeightedValues(Filter(vs, Bears)), Identity)[k], minAge) <==>
            !AllAuthorized(true, false, PlanFor(vs, minAge, percentile).candidates)
  {
    var t := SortBy(WeightedValues(Filter(vs, Bears)), Identity)[k];
    var doomed := PlanFor(vs, minAge, percentile).candidates;
    if Guarded(vs, t, minAge) {
      var i :| 0 <= i < |vs| && Forgettable(vs, t, i, minAge) && vs[i].fitness != ZERO_FITNESS;
      CandidateIff(vs, minAge, percentile, i, k);
      OnlyZeroIsHarmless(vs[i].fitness);
      assert vs[i] in doomed;
    }
    if !AllAuthorized(true, false, doomed) {
      var j :| 0 <= j < |doomed| && !Authorized(true, false, doomed[j]);
      CandidateIsEntry(vs, minAge, percentile, doomed[j]);
      var i :| 0 <= i < |vs| && vs[i] == doomed[j];
      CandidateIff(vs, minAge, percentile, i, k);
      OnlyZeroIsHarmless(vs[i].fitness);
    }
  }

  lemma {:induction false} CandidateAt(vs: seq<Entry>, minAge: int, percentile: real, k: nat)
    requires minAge <= |vs| && k < |Filter(vs, Bears)| && ThresholdRank(|Filter(vs, Bears)|, percentile) == Some(k)
    ensures PlanFor(vs, minAge, percentile).Compost?
  {
  }

  lemma {:induction false} CandidateIsEntry(vs: seq<Entry>, minAge: int, percentile: real, e: Entry)
    requires PlanFor(vs, minAge, percentile).Compost? && e in PlanFor(vs, minAge, percentile).candidates
    ensures exists i :: 0 <= i < |vs| && vs[i] == e
  {
    var t := Threshold(Filter(vs, Bears), percentile).value;
    FilterMember(OldEntries(vs, minAge), DoomedUnder(vs, t), e);
    SortMember(vs, Timestamp, e);
    assert e in SortBy(vs, Timestamp);
  }

  /** Nothing happens to an archive that is too small or bears no fitness; a rank off the list raises. */
  lemma {:induction false} CompactDoesNothing(enforce: bool, s: State, minAge: int, percentile: real, approved: bool)
    ensures var op, m := Compact(minAge, percentile, approved), |BearingOf(s.entries)|;
            && (|s.entries| < minAge || m == 0 ==> OutcomeOf(enforce, s, op) == Done && Step(enforce, s, op) == s)
            && (minAge <= |s.entries| && 0 < m ==>
                  (OutcomeOf(enforce, s, op) == IndexOutOfRange <==> ThresholdRank(m, percentile).None?))
  {
  }

  /** An archive whose `coverage` exceeds one, loaded from a file of 28 applied entries with distinct ids. */
  lemma {:induction false} ArchiveCoverageCanExceedOne()
    ensures var s := Load(3, Negatives(28)); Consistent(s) && |s.cells| == 28 > s.nBins * s.nBins * s.nBins
  {
    CoverageCanExceedOne();
    LoadIsConsistent(3, Negatives(28));
    forall i | 0 <= i < |Negatives(28)| ensures Bears(Negatives(28)[i]) {
      NegativesLength(28);
      NegativeCell(28, i);
    }
    FilterAll(Negatives(28), Bears);
  }
}
