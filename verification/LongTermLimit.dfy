/**
 The long-term limit of `dharma_swarm/agent_memory_manager.py`: exactly when a step
 carries an agent beyond it, and runs that do.
 */
module LongTermLimits {
  import opened Options
  import opened Sorting
  import opened AgentMemoryManagers

  /** No long-term row of the agent has the row's key. */
  predicate Unmatched(rows: seq<Row>, r: Row) { FindRow(rows, r.agent, r.key, LongTerm) == |rows| }

  function UnmatchedIn(rows: seq<Row>): Row -> bool { (r: Row) => Unmatched(rows, r) }

  // ---- how many rows promotion adds --------------------------------------------------

  /** Deleting short-term rows leaves the long-term count alone. */
  lemma {:induction false} DeletionKeepsCount(rows: seq<Row>, id: nat, agent: string)
    requires forall x :: x in rows && x.id == id ==> x.scope != LongTerm
    ensures Count(Filter(rows, OtherId(id)), agent, LongTerm) == Count(rows, agent, LongTerm)
  {
    FilterFilter(rows, OtherId(id), InScope(agent, LongTerm));
    FilterCongruent(rows, Both(OtherId(id), InScope(agent, LongTerm)), InScope(agent, LongTerm));
  }

  /** A promotion adds a long-term row exactly when there is none under the key. */
  lemma {:induction false} PromotedOneExactly(db: Db, r: Row, now: int)
    requires Unique(db) && Pending(db.rows, r)
    ensures Count(PromotedOne(db, r, now).rows, r.agent, LongTerm)
            == Count(db.rows, r.agent, LongTerm) + if Unmatched(db.rows, r) then 1 else 0
  {
    var copied := Copied(db, r, now);
    var k := OnlyOne(db, r, now);
    DeletionKeepsCount(copied.rows, r.id, r.agent);
    if Unmatched(db.rows, r) {
      AppendCount(db.rows, copied.rows[|db.rows|], r.agent, LongTerm);
    } else {
      SameIdentityCount(copied.rows, db.rows, r.agent, LongTerm);
    }
  }

  /** And it matches or unmatches no other key. */
  lemma {:induction false} PromotionKeepsUnmatched(db: Db, r: Row, o: Row, now: int)
    requires Unique(db) && Pending(db.rows, r) && r.key != o.key
    ensures Unmatched(PromotedOne(db, r, now).rows, o) <==> Unmatched(db.rows, o)
  {
    var copied, f := Copied(db, r, now).rows, PromotedOne(db, r, now).rows;
    var k := OnlyOne(db, r, now);
    var i, j := FindRow(db.rows, o.agent, o.key, LongTerm), FindRow(f, o.agent, o.key, LongTerm);
    if i < |db.rows| {
      assert IsRow(copied[i], o.agent, o.key, LongTerm) && i != k;
      FilterMember(copied, OtherId(r.id), copied[i]);
      assert copied[i] in f;
    }
    if j < |f| {
      FilterMember(copied, OtherId(r.id), f[j]);
      assert f[j] in f;
      var m :| 0 <= m < |copied| && copied[m] == f[j];
      assert m < |db.rows| && IsRow(db.rows[m], o.agent, o.key, LongTerm);
    }
  }

  /** Rows whose turn has not come are still pending. */
  lemma {:induction false} StillPending(db: Db, rs: seq<Row>, n: nat, i: nat, agent: string, now: int)
    requires Unique(db) && Batch(rs, agent) && n <= i < |rs|
    requires forall i :: 0 <= i < |rs| ==> Pending(db.rows, rs[i])
    ensures Unique(PromotedAll(db, rs[..n], now)) && Pending(PromotedAll(db, rs[..n], now).rows, rs[i])
  {
    AllPromotionsLand(db, rs, n, agent, now);
    PromotedAllCounts(db, rs[..n], agent, now);
  }

  lemma {:induction false} PromotedLast(db: Db, rs: seq<Row>, n: nat, now: int)
    requires 0 < n <= |rs|
    ensures rs[..n] == rs[..n - 1] + [rs[n - 1]]
    ensures PromotedAll(db, rs[..n], now) == PromotedOne(PromotedAll(db, rs[..n - 1], now), rs[n - 1], now)
  {
    assert rs[..n][..n - 1] == rs[..n - 1];
  }

  lemma {:induction false} StillUnmatched(db: Db, rs: seq<Row>, n: nat, i: nat, agent: string, now: int)
    requires Unique(db) && Batch(rs, agent) && n <= i < |rs|
    requires forall i :: 0 <= i < |rs| ==> Pending(db.rows, rs[i])
    ensures Unmatched(PromotedAll(db, rs[..n], now).rows, rs[i]) <==> Unmatched(db.rows, rs[i])
  {
    if n > 0 {
      var before := PromotedAll(db, rs[..n - 1], now);
      StillUnmatched(db, rs, n - 1, i, agent, now);
      assert Unique(before) && Pending(before.rows, rs[n - 1]) by { StillPending(db, rs, n - 1, n - 1, agent, now); }
      PromotedLast(db, rs, n, now);
      PromotionKeepsUnmatched(before, rs[n - 1], rs[i], now);
    }
  }

  lemma {:induction false} PromotedAllExactly(db: Db, rs: seq<Row>, n: nat, agent: string, now: int)
    requires Unique(db) && Batch(rs, agent) && n <= |rs|
    requires forall i :: 0 <= i < |rs| ==> Pending(db.rows, rs[i])
    ensures Count(PromotedAll(db, rs[..n], now).rows, agent, LongTerm)
            == Count(db.rows, agent, LongTerm) + |Filter(rs[..n], UnmatchedIn(db.rows))|
  {
    if n > 0 {
      PromotedAllExactly(db, rs, n - 1, agent, now);
      StillPending(db, rs, n - 1, n - 1, agent, now);
      StillUnmatched(db, rs, n - 1, n - 1, agent, now);
      PromotedLast(db, rs, n, now);
      FilterSnoc(rs[..n - 1], rs[n - 1], UnmatchedIn(db.rows));
      PromotedOneExactly(PromotedAll(db, rs[..n - 1], now), rs[n - 1], now);
    }
  }

  /** The long-term rows of an agent, and its rows due for promotion that have no long-term namesake. */
  function LongTermAfter(rows: seq<Row>, agent: string, now: int): nat {
    Count(rows, agent, LongTerm) + |Filter(Filter(rows, Promotable(agent, now)), UnmatchedIn(rows))|
  }

  /** The exact long-term count after a consolidation, from what expiry and trimming leave. */
  lemma {:induction false} ConsolidatedExactly(db: Db, agent: string, now: int)
    requires Ok(db)
    ensures Count(Consolidated(db, agent, now).rows, agent, LongTerm)
              == LongTermAfter(Swept(db, agent, now).rows, agent, now)
  {
    var swept := Swept(db, agent, now);
    var rs := Filter(swept.rows, Promotable(agent, now));
    SweptFits(db, agent, now);
    PromotablesAreABatch(swept, agent, now);
    PromotedAllExactly(swept, rs, |rs|, agent, now);
    assert rs[..|rs|] == rs;
  }

  lemma {:induction false} TrimsNothing(rows: seq<Row>, agent: string)
    requires Count(rows, agent, Working) <= MAX_WORKING && Count(rows, agent, ShortTerm) <= MAX_SHORT_TERM
    requires Count(rows, agent, LongTerm) <= MAX_LONG_TERM
    ensures TrimmedAll(rows, agent) == rows
  {
  }

  function Unexpired(rows: seq<Row>, now: int): seq<Row> { Filter(rows, Current(now)) }

  /** Within the limits, sweeping is expiry alone. */
  lemma {:induction false} SweepIsExpiry(db: Db, agent: string, now: int)
    requires Ok(db) && Count(db.rows, agent, LongTerm) <= MAX_LONG_TERM
    ensures Swept(db, agent, now).rows == Unexpired(db.rows, now)
  {
    var live := Unexpired(db.rows, now);
    FilterIsSubrows(db.rows, Current(now));
    FewerRows(live, db.rows, agent, Working, MAX_WORKING);
    FewerRows(live, db.rows, agent, ShortTerm, MAX_SHORT_TERM);
    FewerRows(live, db.rows, agent, LongTerm, MAX_LONG_TERM);
    TrimsNothing(live, agent);
  }

  lemma {:induction false} FewerRows(rows: seq<Row>, before: seq<Row>, agent: string, s: Scope, limit: nat)
    requires Subrows(rows, before) && Count(before, agent, s) <= limit
    ensures Count(rows, agent, s) <= limit
  {
    SubrowsCount(rows, before, InScope(agent, s));
  }

  // ---- which steps exceed the limit ----------------------------------------------------

  lemma {:induction false} RememberKeepsLimit(db: Db, who: string, s: Scope, m: Memo, now: int, agent: string)
    requires Count(db.rows, agent, LongTerm) <= MAX_LONG_TERM
    ensures Count(Remembered(db, who, s, m, now).rows, agent, LongTerm) <= MAX_LONG_TERM
  {
    var rows := Enforced(db.rows, who, s);
    EnforcedCount(db.rows, who, s, agent);
    UpsertedCount(db.(rows := rows), who, s, m, now, agent);
  }

  lemma {:induction false} EnforcedCount(rows: seq<Row>, who: string, s: Scope, agent: string)
    requires Count(rows, agent, LongTerm) <= MAX_LONG_TERM
    ensures var n := Count(Enforced(rows, who, s), agent, LongTerm);
            n <= MAX_LONG_TERM && (who == agent && s == LongTerm ==> n < MAX_LONG_TERM)
  {
    var k := if Limit(s) / 10 < 1 then 1 else Limit(s) / 10;
    EvictIsSubrows(rows, InScope(who, s), k);
    SubrowsCount(Evict(rows, InScope(who, s), k), rows, InScope(agent, LongTerm));
    if who == agent && s == LongTerm { EvictLaws(rows, InScope(who, s), k); }
  }

  lemma {:induction false} UpsertedCount(db: Db, who: string, s: Scope, m: Memo, now: int, agent: string)
    ensures Count(Upserted(db, who, s, m, now).rows, agent, LongTerm)
            <= Count(db.rows, agent, LongTerm) + if who == agent && s == LongTerm then 1 else 0
  {
    var after := Upserted(db, who, s, m, now).rows;
    if FindRow(db.rows, who, m.key, s) < |db.rows| {
      SameIdentityCount(after, db.rows, agent, LongTerm);
    } else {
      AppendCount(db.rows, after[|db.rows|], agent, LongTerm);
    }
  }

  lemma {:induction false} OthersKeepLimit(db: Db, who: string, now: int, agent: string)
    requires Ok(db) && who != agent && Count(db.rows, agent, LongTerm) <= MAX_LONG_TERM
    ensures Count(Consolidated(db, who, now).rows, agent, LongTerm) <= MAX_LONG_TERM
  {
    var swept := Swept(db, who, now);
    SweptFits(db, who, now);
    SubrowsCount(swept.rows, db.rows, InScope(agent, LongTerm));
    var rs := Filter(swept.rows, Promotable(who, now));
    PromotablesAreABatch(swept, who, now);
    PromotedAllCounts(swept, rs, who, now);
  }

  lemma {:induction false} RecallKeepsLimit(db: Db, found: set<nat>, now: int, agent: string)
    ensures Count(Touched(db.rows, found, now), agent, LongTerm) == Count(db.rows, agent, LongTerm)
  {
    SameIdentityCount(Touched(db.rows, found, now), db.rows, agent, LongTerm);
  }

  lemma {:induction false} ForgetKeepsLimit(db: Db, who: string, key: string, place: Place, agent: string)
    requires Count(db.rows, agent, LongTerm) <= MAX_LONG_TERM
    ensures Count(Forgotten(db, who, key, place).rows, agent, LongTerm) <= MAX_LONG_TERM
  {
    FilterIsSubrows(db.rows, Unnamed(who, key, place));
    FewerRows(Filter(db.rows, Unnamed(who, key, place)), db.rows, agent, LongTerm, MAX_LONG_TERM);
  }

  /** No operation but a consolidation exceeds the limit. */
  lemma {:induction false} OthersKeepWithin(db: Db, op: Op, agent: string)
    requires !op.Consolidate? && Count(db.rows, agent, LongTerm) <= MAX_LONG_TERM
    ensures Count(Step(db, op).rows, agent, LongTerm) <= MAX_LONG_TERM
  {
    match op
    case Remember(who, s, m, now) => RememberKeepsLimit(db, who, s, m, now, agent);
    case Share(_, _, _, _, _) =>
    case Recall(found, now) => RecallKeepsLimit(db, found, now, agent);
    case Forget(who, key, place) => ForgetKeepsLimit(db, who, key, place, agent);
  }

  lemma {:induction false} ConsolidatedUnexpired(db: Db, agent: string, now: int)
    requires Ok(db) && Count(db.rows, agent, LongTerm) <= MAX_LONG_TERM
    ensures Count(Consolidated(db, agent, now).rows, agent, LongTerm)
              == LongTermAfter(Unexpired(db.rows, now), agent, now)
  {
    ConsolidatedExactly(db, agent, now);
    SweepIsExpiry(db, agent, now);
  }

  /**
   A step carries an agent beyond the limit if and only if it is the agent's own
   consolidation, and its unexpired long-term rows and its unexpired rows due for
   promotion without a long-term namesake are together more.
   */
  lemma {:induction false} LimitExceededIff(db: Db, op: Op, agent: string)
    requires Ok(db) && Count(db.rows, agent, LongTerm) <= MAX_LONG_TERM
    ensures MAX_LONG_TERM < Count(Step(db, op).rows, agent, LongTerm) <==>
            op.Consolidate? && op.agent == agent
                && MAX_LONG_TERM < LongTermAfter(Unexpired(db.rows, op.now), agent, op.now)
  {
    if !op.Consolidate? {
      OthersKeepWithin(db, op, agent);
    } else if op.agent == agent {
      ConsolidatedUnexpired(db, agent, op.now);
    } else {
      OthersKeepLimit(db, op.agent, op.now, agent);
    }
  }

  // ---- runs that exceed it --------------------------------------------------------------

  /** A key of length `k`. */
  function Mark(k: nat): string { seq(k, _ => 'k') }

  function FillRow(agent: string, n: nat, i: nat, accesses: nat): Row {
    Row(i, agent, Mark(i), "", if i < n then LongTerm else ShortTerm, 0, 0, accesses, None, "")
  }

  /** Rows under different keys, the first `n` of them long-term, the others short-term. */
  ghost predicate FillRows(rows: seq<Row>, agent: string, n: nat, accesses: nat) {
    forall i :: 0 <= i < |rows| ==> rows[i] == FillRow(agent, n, i, accesses)
  }

  ghost predicate Filled(db: Db, agent: string, n: nat, t: nat, accesses: nat) {
    |db.rows| == db.nextId == t && db.shared == [] && FillRows(db.rows, agent, n, accesses)
  }

  function FillOp(agent: string, n: nat, i: nat): Op {
    Remember(agent, if i < n then LongTerm else ShortTerm, Memo(Mark(i), "", "", None), 0)
  }

  function FillOps(agent: string, n: nat, t: nat): seq<Op> {
    if t == 0 then [] else FillOps(agent, n, t - 1) + [FillOp(agent, n, t - 1)]
  }

  function AllIds(t: nat): (ids: set<nat>)
    ensures forall i: nat :: i in ids <==> i < t
  {
    if t == 0 then {} else AllIds(t - 1) + {t - 1}
  }

  /** Fill, and recall everything `k` times. */
  function RecallOps(agent: string, n: nat, t: nat, k: nat): seq<Op> {
    if k == 0 then FillOps(agent, n, t) else RecallOps(agent, n, t, k - 1) + [Recall(AllIds(t), 0)]
  }

  /** Fill, recall everything three times, and consolidate after an hour. */
  function Overfill(agent: string, n: nat, m: nat): seq<Op> {
    RecallOps(agent, n, n + m, 3) + [Consolidate(agent, 3601)]
  }

  lemma {:induction false} FillCounts(rows: seq<Row>, agent: string, n: nat, accesses: nat)
    requires FillRows(rows, agent, n, accesses)
    ensures Count(rows, agent, LongTerm) == if |rows| < n then |rows| else n
    ensures Count(rows, agent, ShortTerm) == if |rows| < n then 0 else |rows| - n
    ensures Count(rows, agent, Working) == 0
  {
    if rows != [] {
      var init, r := rows[..|rows| - 1], rows[|rows| - 1];
      FillCounts(init, agent, n, accesses);
      assert rows == init + [r];
      AppendCount(init, r, agent, LongTerm);
      AppendCount(init, r, agent, ShortTerm);
      AppendCount(init, r, agent, Working);
    }
  }

  lemma {:induction false} RunSnoc(ops: seq<Op>, op: Op)
    ensures Run(Db([], [], 0), ops + [op]) == Step(Run(Db([], [], 0), ops), op)
  {
    assert (ops + [op])[..|ops|] == ops;
  }

  lemma {:induction false} FillRun(agent: string, n: nat, t: nat)
    requires n <= MAX_LONG_TERM && t <= n + MAX_SHORT_TERM
    ensures Filled(Run(Db([], [], 0), FillOps(agent, n, t)), agent, n, t, 0)
  {
    if t > 0 {
      FillRun(agent, n, t - 1);
      FillStep(Run(Db([], [], 0), FillOps(agent, n, t - 1)), agent, n, t - 1);
      RunSnoc(FillOps(agent, n, t - 1), FillOp(agent, n, t - 1));
    }
  }

  /** Another memory finds room and no namesake. */
  lemma {:induction false} FillStep(db: Db, agent: string, n: nat, t: nat)
    requires n <= MAX_LONG_TERM && t < n + MAX_SHORT_TERM && Filled(db, agent, n, t, 0)
    ensures Filled(Step(db, FillOp(agent, n, t)), agent, n, t + 1, 0)
  {
    var s := if t < n then LongTerm else ShortTerm;
    FillCounts(db.rows, agent, n, 0);
    NewKey(db.rows, agent, n, s);
    assert Step(db, FillOp(agent, n, t)) == Db(db.rows + [FillRow(agent, n, t, 0)], [], t + 1);
  }

  lemma {:induction false} NewKey(rows: seq<Row>, agent: string, n: nat, s: Scope)
    requires FillRows(rows, agent, n, 0)
    ensures FindRow(rows, agent, Mark(|rows|), s) == |rows|
  {
    assert forall i :: 0 <= i < |rows| ==> |rows[i].key| == i;
  }

  lemma {:induction false} RecallRun(agent: string, n: nat, t: nat, k: nat)
    requires n <= MAX_LONG_TERM && t <= n + MAX_SHORT_TERM
    ensures Filled(Run(Db([], [], 0), RecallOps(agent, n, t, k)), agent, n, t, k)
  {
    if k == 0 {
      FillRun(agent, n, t);
    } else {
      RecallRun(agent, n, t, k - 1);
      RecallStep(Run(Db([], [], 0), RecallOps(agent, n, t, k - 1)), agent, n, t, k - 1);
      RunSnoc(RecallOps(agent, n, t, k - 1), Recall(AllIds(t), 0));
    }
  }

  lemma {:induction false} RecallStep(db: Db, agent: string, n: nat, t: nat, accesses: nat)
    requires Filled(db, agent, n, t, accesses)
    ensures Filled(Step(db, Recall(AllIds(t), 0)), agent, n, t, accesses + 1)
  {
  }

  /** All short-term rows are due for promotion, and none has a long-term namesake. */
  lemma {:induction false} FilledIsDue(rows: seq<Row>, agent: string, n: nat)
    requires FillRows(rows, agent, n, 3)
    ensures |Filter(Filter(rows, Promotable(agent, 3601)), UnmatchedIn(rows))| == Count(rows, agent, ShortTerm)
  {
    forall x | x in rows ensures Promotable(agent, 3601)(x) == InScope(agent, ShortTerm)(x) {}
    FilterCongruent(rows, Promotable(agent, 3601), InScope(agent, ShortTerm));
    var due := Filter(rows, InScope(agent, ShortTerm));
    forall i | 0 <= i < |due| ensures UnmatchedIn(rows)(due[i]) {
      FilterMember(rows, InScope(agent, ShortTerm), due[i]);
      assert due[i] in due;
      KeysDiffer(rows, agent, n, due[i]);
    }
    FilterAll(due, UnmatchedIn(rows));
  }

  lemma {:induction false} KeysDiffer(rows: seq<Row>, agent: string, n: nat, r: Row)
    requires FillRows(rows, agent, n, 3) && r in rows && r.scope == ShortTerm
    ensures Unmatched(rows, r)
  {
    assert forall i :: 0 <= i < |rows| ==> |rows[i].key| == i == rows[i].id;
  }

  /** Nothing is expired, and every short-term row becomes a new long-term one. */
  lemma {:induction false} FilledAfter(rows: seq<Row>, agent: string, n: nat, m: nat)
    requires |rows| == n + m && FillRows(rows, agent, n, 3)
    ensures LongTermAfter(Unexpired(rows, 3601), agent, 3601) == n + m
  {
    FilterAll(rows, Current(3601));
    FilledIsDue(rows, agent, n);
    FillCounts(rows, agent, n, 3);
  }

  /**
   The limit is exceeded in reachable states, by any number up to the 500 that the
   bound allows: from the empty database, 10000 long-term and `m` short-term memories,
   three recalls and one consolidation leave 10000 + m long-term rows.
   */
  lemma {:induction false} RunsExceedTheLimit(agent: string, m: nat)
    requires m <= MAX_SHORT_TERM
    ensures Count(Run(Db([], [], 0), Overfill(agent, MAX_LONG_TERM, m)).rows, agent, LongTerm) == MAX_LONG_TERM + m
  {
    OverfillCount(agent, MAX_LONG_TERM, m);
  }

  lemma {:induction false} OverfillCount(agent: string, n: nat, m: nat)
    requires n <= MAX_LONG_TERM && m <= MAX_SHORT_TERM
    ensures Count(Run(Db([], [], 0), Overfill(agent, n, m)).rows, agent, LongTerm) == n + m
  {
    var ops := Overfill(agent, n, m);
    assert ops[..|ops| - 1] == RecallOps(agent, n, n + m, 3);
    RecalledCount(agent, n, m);
    CountOfLast(ops, agent, n + m);
  }

  lemma {:induction false} CountOfLast(ops: seq<Op>, agent: string, count: nat)
    requires ops != [] && ops[|ops| - 1] == Consolidate(agent, 3601)
    requires Count(Consolidated(Run(Db([], [], 0), ops[..|ops| - 1]), agent, 3601).rows, agent, LongTerm) == count
    ensures Count(Run(Db([], [], 0), ops).rows, agent, LongTerm) == count
  {
    assert Run(Db([], [], 0), ops) == Step(Run(Db([], [], 0), ops[..|ops| - 1]), ops[|ops| - 1]);
  }

  lemma {:induction false} RecalledCount(agent: string, n: nat, m: nat)
    requires n <= MAX_LONG_TERM && m <= MAX_SHORT_TERM
    ensures var db := Run(Db([], [], 0), RecallOps(agent, n, n + m, 3));
            Count(Consolidated(db, agent, 3601).rows, agent, LongTerm) == n + m
  {
    var ops := RecallOps(agent, n, n + m, 3);
    RecallRun(agent, n, n + m, 3);
    EveryRunIsBounded(ops);
    ConsolidatedCount(Run(Db([], [], 0), ops), agent, n, m);
  }

  lemma {:induction false} ConsolidatedCount(db: Db, agent: string, n: nat, m: nat)
    requires n <= MAX_LONG_TERM && m <= MAX_SHORT_TERM && Filled(db, agent, n, n + m, 3) && Ok(db)
    ensures Count(Consolidated(db, agent, 3601).rows, agent, LongTerm) == n + m
  {
    assert Count(db.rows, agent, LongTerm) <= MAX_LONG_TERM by { FillCounts(db.rows, agent, n, 3); }
    assert LongTermAfter(Unexpired(db.rows, 3601), agent, 3601) == n + m by { FilledAfter(db.rows, agent, n, m); }
    ConsolidatedUnexpired(db, agent, 3601);
  }
}
