/**
 What the operations of `dharma_swarm/agent_memory_manager.py` do to the rows of the two
 tables, column by column.
 */
module AgentMemoryEffects {
  import opened Options
  import opened Sorting
  import opened AgentMemoryManagers

  function LimitOf(s: Scope): nat {
    match s
    case Working => 50
    case ShortTerm => 500
    case LongTerm => 10000
  }

  /** How many rows an agent has in a scope. */
  function HowMany(rows: seq<Row>, agent: string, s: Scope): nat {
    if rows == [] then 0
    else HowMany(rows[..|rows| - 1], agent, s)
         + if rows[|rows| - 1].agent == agent && rows[|rows| - 1].scope == s then 1 else 0
  }

  lemma {:induction false} CountIsHowMany(rows: seq<Row>, agent: string, s: Scope)
    ensures Count(rows, agent, s) == HowMany(rows, agent, s)
  {
    if rows != [] { CountIsHowMany(rows[..|rows| - 1], agent, s); }
  }

  predicate NoMoreUsed(r: Row, x: Row) {
    r.accessCount < x.accessCount || (r.accessCount == x.accessCount && r.accessedAt <= x.accessedAt)
  }

  /** The row stands under this agent, key and scope. */
  predicate Under(r: Row, agent: string, key: string, s: Scope) { r.agent == agent && r.key == key && r.scope == s }

  // ---- eviction ------------------------------------------------------------------------

  /** Only the agent's rows of the scope go, each used no more than any that stays. */
  ghost predicate Evicted(before: seq<Row>, after: seq<Row>, agent: string, s: Scope) {
    && (forall r :: r in after ==> r in before)
    && (forall r :: r in before && r !in after ==> r.agent == agent && r.scope == s)
    && (forall r, x :: r in before && r !in after && x in after && x.agent == agent && x.scope == s ==>
          NoMoreUsed(r, x))
  }

  lemma {:induction false} EvictsIsEvicted(before: seq<Row>, after: seq<Row>, agent: string, s: Scope)
    requires EvictsLeastUsed(before, after, InScope(agent, s))
    ensures Evicted(before, after, agent, s)
  {
  }

  /** A full scope loses a tenth of its limit, its least used rows; any other nothing. */
  lemma {:induction false} EnforceEffects(rows: seq<Row>, agent: string, s: Scope)
    ensures var n, after := HowMany(rows, agent, s), Enforced(rows, agent, s);
            && Subrows(after, rows) && Evicted(rows, after, agent, s)
            && (n < LimitOf(s) ==> after == rows)
            && (LimitOf(s) <= n ==> HowMany(after, agent, s) == n - LimitOf(s) / 10)
  {
    CountIsHowMany(rows, agent, s);
    CountIsHowMany(Enforced(rows, agent, s), agent, s);
    SubrowsSelf(rows);
    var k := if Limit(s) / 10 < 1 then 1 else Limit(s) / 10;
    EvictLaws(rows, InScope(agent, s), k);
    EvictIsSubrows(rows, InScope(agent, s), k);
    if LimitOf(s) <= HowMany(rows, agent, s) {
      EvictsIsEvicted(rows, Enforced(rows, agent, s), agent, s);
    }
  }

  // ---- remember ---------------------------------------------------------------------------

  /** The row under agent, key and scope is written: kept with new content, or new with no accesses. */
  ghost predicate Written(before: seq<Row>, after: seq<Row>, agent: string, s: Scope, m: Memo, now: int) {
    && (exists r :: r in after && Under(r, agent, m.key, s))
    && (forall r :: r in after && Under(r, agent, m.key, s) ==>
          && r.content == m.content && r.ttl == m.ttl && r.contentHash == m.contentHash && r.accessedAt == now
          && (forall o :: o in before && Under(o, agent, m.key, s) ==>
                r.id == o.id && r.createdAt == o.createdAt && r.accessCount == o.accessCount)
          && ((forall o :: o in before ==> !Under(o, agent, m.key, s)) ==> r.createdAt == now && r.accessCount == 0))
    && (forall r :: !Under(r, agent, m.key, s) ==> (r in after <==> r in before))
  }

  lemma {:induction false} UpsertWrites(db: Db, agent: string, s: Scope, m: Memo, now: int)
    requires Unique(db)
    ensures Written(db.rows, Upserted(db, agent, s, m, now).rows, agent, s, m, now)
    ensures Upserted(db, agent, s, m, now).shared == db.shared
  {
    var rows, after, i := db.rows, Upserted(db, agent, s, m, now).rows, FindRow(db.rows, agent, m.key, s);
    assert after[i] in after;
    forall j | 0 <= j < |rows| && j != i && i < |rows| ensures Differ(rows[j], rows[i]) { DifferAt(db, j, i); }
    assert forall j :: 0 <= j < |rows| && j != i ==> after[j] == rows[j];
    forall r | r in after && Under(r, agent, m.key, s) ensures r == after[i] {
      var j :| 0 <= j < |after| && after[j] == r;
    }
    forall o | o in rows && Under(o, agent, m.key, s) ensures i < |rows| && o == rows[i] {
      var j :| 0 <= j < |rows| && rows[j] == o;
    }
    UpsertOthers(db, agent, s, m, now);
  }

  lemma {:induction false} UpsertOthers(db: Db, agent: string, s: Scope, m: Memo, now: int)
    ensures forall r :: !Under(r, agent, m.key, s) ==> (r in Upserted(db, agent, s, m, now).rows <==> r in db.rows)
  {
    var rows, after, i := db.rows, Upserted(db, agent, s, m, now).rows, FindRow(db.rows, agent, m.key, s);
    forall r | !Under(r, agent, m.key, s) ensures r in after <==> r in rows {
      if r in rows {
        var j :| 0 <= j < |rows| && rows[j] == r;
        assert after[j] == r;
      }
      if r in after {
        var j :| 0 <= j < |after| && after[j] == r;
        assert j != i && rows[j] == r;
      }
    }
  }

  /** `remember` evicts within the scope if that is full, writes one row, and leaves all others. */
  lemma {:induction false} RememberEffects(db: Db, agent: string, s: Scope, m: Memo, now: int)
    requires Unique(db)
    ensures exists kept: seq<Row> ::
              && Evicted(db.rows, kept, agent, s) && Subrows(kept, db.rows)
              && (HowMany(db.rows, agent, s) < LimitOf(s) ==> kept == db.rows)
              && Written(kept, Remembered(db, agent, s, m, now).rows, agent, s, m, now)
    ensures Remembered(db, agent, s, m, now).shared == db.shared
  {
    var kept := Enforced(db.rows, agent, s);
    EnforceEffects(db.rows, agent, s);
    SubrowsUnique(db, kept);
    UpsertWrites(db.(rows := kept), agent, s, m, now);
  }

  // ---- share ------------------------------------------------------------------------------

  /** One of the oldest shared rows goes, if there are 50000. */
  ghost predicate SharedRoom(shared: seq<SharedRow>, kept: seq<SharedRow>) {
    if |shared| < 50000 then kept == shared
    else exists i :: OldestAt(shared, i) && kept == shared[..i] + shared[i + 1..]
  }

  ghost predicate OldestAt(shared: seq<SharedRow>, i: int) {
    0 <= i < |shared| && forall r :: r in shared ==> shared[i].createdAt <= r.createdAt
  }

  /** The row under the key is written in its place, or a new one at the end. */
  ghost predicate SharedWritten(kept: seq<SharedRow>, after: seq<SharedRow>, agent: string, key: string,
                                content: string, tags: string, now: int)
  {
    exists i :: SharedWrittenAt(kept, after, agent, key, content, tags, now, i)
  }

  ghost predicate SharedWrittenAt(kept: seq<SharedRow>, after: seq<SharedRow>, agent: string, key: string,
                                  content: string, tags: string, now: int, i: int)
  {
    && 0 <= i < |after|
    && after[i] == SharedRow(after[i].id, agent, key, content, now, tags)
    && (if i < |kept| then kept[i].key == key && after == kept[i := after[i]] && after[i].id == kept[i].id
        else (forall r :: r in kept ==> r.key != key) && after == kept + [after[i]])
  }

  lemma {:induction false} ShareWrites(db: Db, kept: seq<SharedRow>, agent: string, key: string, content: string,
                                       tags: string, now: int)
    requires kept == WithSharedRoom(db.shared)
    ensures SharedWritten(kept, Shared(db, agent, key, content, tags, now).shared, agent, key, content, tags, now)
  {
    var i := FindShared(kept, key);
    if i == |kept| {
      forall r | r in kept ensures r.key != key {}
    }
    assert SharedWrittenAt(kept, Shared(db, agent, key, content, tags, now).shared, agent, key, content, tags, now, i);
  }

  lemma {:induction false} SharedRoomIsMade(shared: seq<SharedRow>)
    ensures SharedRoom(shared, WithSharedRoom(shared))
  {
    if 50000 <= |shared| {
      var i := Oldest(shared);
      assert OldestAt(shared, i);
    }
  }

  /** `share` makes room by dropping one of the oldest, and writes the row under the key. */
  lemma {:induction false} ShareEffects(db: Db, agent: string, key: string, content: string, tags: string, now: int)
    ensures var after := Shared(db, agent, key, content, tags, now);
            && after.rows == db.rows
            && exists kept :: SharedRoom(db.shared, kept)
                              && SharedWritten(kept, after.shared, agent, key, content, tags, now)
  {
    SharedRoomIsMade(db.shared);
    ShareWrites(db, WithSharedRoom(db.shared), agent, key, content, tags, now);
  }

  // ---- forget -----------------------------------------------------------------------------

  /** Some shared rows, in their order. */
  ghost predicate SharedSubrows(a: seq<SharedRow>, b: seq<SharedRow>) {
    exists at: seq<nat> :: SharedEmbeds(at, a, b)
  }

  ghost predicate SharedEmbeds(at: seq<nat>, a: seq<SharedRow>, b: seq<SharedRow>) {
    && |at| == |a|
    && (forall i :: 0 <= i < |a| ==> at[i] < |b| && a[i] == b[at[i]])
    && (forall i, j :: 0 <= i < j < |a| ==> at[i] < at[j])
  }

  lemma {:induction false} FilterSharedOrder(b: seq<SharedRow>, p: SharedRow -> bool)
    ensures SharedSubrows(Filter(b, p), b)
  {
    if b == [] {
      assert SharedEmbeds([], [], b);
    } else {
      var n := |b| - 1;
      FilterSharedOrder(b[..n], p);
      SubrowsSnoc(Filter(b[..n], p), b);
    }
  }

  lemma {:induction false} SubrowsSnoc(a: seq<SharedRow>, b: seq<SharedRow>)
    requires b != [] && SharedSubrows(a, b[..|b| - 1])
    ensures SharedSubrows(a, b) && SharedSubrows(a + [b[|b| - 1]], b)
  {
    var n := |b| - 1;
    var at: seq<nat> :| SharedEmbeds(at, a, b[..n]);
    assert SharedEmbeds(at, a, b);
    assert SharedEmbeds(at + [n], a + [b[n]], b);
  }

  /** The row with one access more, at this time, and otherwise the same. */
  predicate IsStamped(before: Row, after: Row, now: int) {
    after == Row(before.id, before.agent, before.key, before.content, before.scope, before.createdAt, now,
                 before.accessCount + 1, before.ttl, before.contentHash)
  }

  /** What `forget` is asked to delete. */
  predicate Asked(r: Row, agent: string, key: string, place: Place) {
    r.agent == agent && r.key == key && (place.Everywhere? || (place.In? && r.scope == place.scope))
  }

  /** Exactly the rows asked for go, in the table of memories and, unless a scope is given, in the shared one. */
  lemma {:induction false} ForgetEffects(db: Db, agent: string, key: string, place: Place)
    ensures var after := Forgotten(db, agent, key, place);
            && (forall r :: r in after.rows <==> r in db.rows && !Asked(r, agent, key, place))
            && Subrows(after.rows, db.rows)
            && (if place.In? then after.shared == db.shared
                else (forall r :: r in after.shared <==> r in db.shared && r.key != key)
                     && SharedSubrows(after.shared, db.shared))
  {
    forall r
      ensures r in Filter(db.rows, Unnamed(agent, key, place)) <==> r in db.rows && !Asked(r, agent, key, place)
    {
      FilterMember(db.rows, Unnamed(agent, key, place), r);
      assert Named(agent, key, place)(r) == Asked(r, agent, key, place);
    }
    forall r ensures r in Filter(db.shared, OtherShared(key)) <==> r in db.shared && r.key != key {
      FilterMember(db.shared, OtherShared(key), r);
    }
    FilterIsSubrows(db.rows, Unnamed(agent, key, place));
    FilterSharedOrder(db.shared, OtherShared(key));
  }

  /** Fewer elements are left exactly when one did not pass. */
  lemma {:induction false} FilterShorterIff<T(!new)>(xs: seq<T>, p: T -> bool)
    ensures |Filter(xs, p)| < |xs| <==> exists x :: x in xs && !p(x)
  {
    if xs != [] {
      FilterShorterIff(xs[..|xs| - 1], p);
      assert forall x :: x in xs <==> x in xs[..|xs| - 1] || x == xs[|xs| - 1];
    }
  }

  // ---- consolidate --------------------------------------------------------------------------

  predicate Outlived(r: Row, now: int) { r.ttl.Some? && r.createdAt + r.ttl.value < now }

  /** A short-term row of the agent with three accesses that is more than an hour old. */
  predicate Due(r: Row, agent: string, now: int) {
    r.agent == agent && r.scope == ShortTerm && 3 <= r.accessCount && r.createdAt < now - 3600
  }

  /** Copying a due row and deleting it, row by row. */
  lemma {:induction false} PromotedOneRows(db: Db, o: Row, now: int, r: Row)
    requires Unique(db) && Pending(db.rows, o)
    ensures r in PromotedOne(db, o, now).rows && r !in db.rows ==>
              Under(r, o.agent, o.key, LongTerm) && r.content == o.content && r.accessedAt == now
    ensures r in db.rows && r != o && !Under(r, o.agent, o.key, LongTerm) ==> r in PromotedOne(db, o, now).rows
    ensures o !in PromotedOne(db, o, now).rows
  {
    var copied := Copied(db, o, now);
    var k := OnlyOne(db, o, now);
    FilterMember(copied.rows, OtherId(o.id), r);
    FilterMember(copied.rows, OtherId(o.id), o);
    if r in db.rows && !Under(r, o.agent, o.key, LongTerm) {
      var j :| 0 <= j < |db.rows| && db.rows[j] == r;
      assert copied.rows[j] == r;
      if r != o { assert j != k; }
    }
    assert forall j :: 0 <= j < |db.rows| && j != FindRow(db.rows, o.agent, o.key, LongTerm) ==>
             copied.rows[j] == db.rows[j] && db.rows[j] in db.rows;
  }

  /** The row holds, in the long term, what one of the rows holds. */
  ghost predicate BroughtBy(rs: seq<Row>, n: nat, agent: string, r: Row)
    requires n <= |rs|
  {
    exists i :: 0 <= i < n && Under(r, agent, rs[i].key, LongTerm) && r.content == rs[i].content
  }

  /** The row is none of the rows, nor the long-term namesake of one. */
  ghost predicate SparedBy(rs: seq<Row>, n: nat, agent: string, r: Row)
    requires n <= |rs|
  {
    forall i :: 0 <= i < n ==> r != rs[i] && !Under(r, agent, rs[i].key, LongTerm)
  }

  lemma {:induction false} OneMoreBrought(rs: seq<Row>, n: nat, agent: string, r: Row)
    requires 0 < n <= |rs|
    requires BroughtBy(rs, n - 1, agent, r)
             || (Under(r, agent, rs[n - 1].key, LongTerm) && r.content == rs[n - 1].content)
    ensures BroughtBy(rs, n, agent, r)
  {
  }

  /** What the next promotion does to a row. */
  lemma {:induction false} NextPromotion(db: Db, rs: seq<Row>, n: nat, agent: string, now: int, r: Row)
    requires Unique(db) && Batch(rs, agent) && 0 < n <= |rs|
    requires forall i :: 0 <= i < |rs| ==> Pending(db.rows, rs[i])
    ensures var before, after := PromotedAll(db, rs[..n - 1], now).rows, PromotedAll(db, rs[..n], now).rows;
            var o := rs[n - 1];
            && (r in after && r !in before ==> Under(r, agent, o.key, LongTerm) && r.content == o.content)
            && (r in before && r != o && !Under(r, agent, o.key, LongTerm) ==> r in after)
  {
    var before := PromotedAll(db, rs[..n - 1], now);
    assert rs[..n][..n - 1] == rs[..n - 1] && rs[n - 1].agent == agent;
    NextPromotionLands(db, rs, n, agent, now, before);
    PromotedOneRows(before, rs[n - 1], now, r);
  }

  lemma {:induction false} PromotedAllBrings(db: Db, rs: seq<Row>, n: nat, agent: string, now: int, r: Row)
    requires Unique(db) && Batch(rs, agent) && n <= |rs|
    requires forall i :: 0 <= i < |rs| ==> Pending(db.rows, rs[i])
    requires r in PromotedAll(db, rs[..n], now).rows && r !in db.rows
    ensures BroughtBy(rs, n, agent, r)
  {
    if n > 0 {
      NextPromotion(db, rs, n, agent, now, r);
      if r in PromotedAll(db, rs[..n - 1], now).rows {
        PromotedAllBrings(db, rs, n - 1, agent, now, r);
      }
      OneMoreBrought(rs, n, agent, r);
    }
  }

  lemma {:induction false} PromotedAllKeeps(db: Db, rs: seq<Row>, n: nat, agent: string, now: int, r: Row)
    requires Unique(db) && Batch(rs, agent) && n <= |rs|
    requires forall i :: 0 <= i < |rs| ==> Pending(db.rows, rs[i])
    requires r in db.rows && SparedBy(rs, n, agent, r)
    ensures r in PromotedAll(db, rs[..n], now).rows
  {
    if n > 0 {
      PromotedAllKeeps(db, rs, n - 1, agent, now, r);
      NextPromotion(db, rs, n, agent, now, r);
    }
  }

  lemma {:induction false} NextPromotionLands(db: Db, rs: seq<Row>, n: nat, agent: string, now: int, before: Db)
    requires Unique(db) && Batch(rs, agent) && 0 < n <= |rs|
    requires forall i :: 0 <= i < |rs| ==> Pending(db.rows, rs[i])
    requires before == PromotedAll(db, rs[..n - 1], now)
    ensures Unique(before) && Pending(before.rows, rs[n - 1])
  {
    AllPromotionsLand(db, rs, n - 1, agent, now);
    PromotedAllCounts(db, rs[..n - 1], agent, now);
  }

  /**
   Expiry and trimming: what is left was there and is not outlived; what goes was outlived,
   or in a full scope of the agent.
   */
  lemma {:induction false} SweptRows(db: Db, agent: string, now: int, r: Row)
    requires Unique(db)
    ensures r in Swept(db, agent, now).rows ==> r in db.rows && !Outlived(r, now)
    ensures r in db.rows && !Outlived(r, now) && r.agent != agent ==> r in Swept(db, agent, now).rows
    ensures r in db.rows && !Outlived(r, now) && HowMany(db.rows, agent, r.scope) <= LimitOf(r.scope) ==>
              r in Swept(db, agent, now).rows
  {
    var a := Filter(db.rows, Current(now));
    FilterMember(db.rows, Current(now), r);
    FilterIsSubrows(db.rows, Current(now));
    var b := Trimmed(a, agent, Working);
    var c := Trimmed(b, agent, ShortTerm);
    TrimRow(a, db.rows, agent, Working, r);
    TrimRow(b, db.rows, agent, ShortTerm, r);
    TrimRow(c, db.rows, agent, LongTerm, r);
  }

  lemma {:induction false} TrimRow(rows: seq<Row>, before: seq<Row>, agent: string, s: Scope, r: Row)
    requires Subrows(rows, before)
    ensures Subrows(Trimmed(rows, agent, s), before)
    ensures r in Trimmed(rows, agent, s) ==> r in rows
    ensures r in rows && (r.agent != agent || r.scope != s || HowMany(before, agent, s) <= LimitOf(s)) ==>
              r in Trimmed(rows, agent, s)
  {
    TrimmedIsSubrows(rows, agent, s);
    SubrowsTransitive(Trimmed(rows, agent, s), rows, before);
    TrimmedEvictsLeastUsed(rows, agent, s);
    EvictsIsEvicted(rows, Trimmed(rows, agent, s), agent, s);
    SubrowsCount(rows, before, InScope(agent, s));
    CountIsHowMany(before, agent, s);
  }

  /** The rows promoted are the due ones that are not outlived and not trimmed away. */
  lemma {:induction false} PromotedAreDue(db: Db, agent: string, now: int, i: nat)
    requires Ok(db) && i < |Filter(Swept(db, agent, now).rows, Promotable(agent, now))|
    ensures var o := Filter(Swept(db, agent, now).rows, Promotable(agent, now))[i];
            o in db.rows && Due(o, agent, now) && !Outlived(o, now)
  {
    var swept := Swept(db, agent, now);
    var rs := Filter(swept.rows, Promotable(agent, now));
    FilterMember(swept.rows, Promotable(agent, now), rs[i]);
    assert rs[i] in rs;
    SweptRows(db, agent, now, rs[i]);
  }

  /** A row after the consolidation was left by the sweep, or brought by a promotion. */
  lemma {:induction false} SweptOrBrought(db: Db, agent: string, now: int, r: Row)
    requires Ok(db)
    ensures var swept := Swept(db, agent, now);
            var rs, after := Filter(swept.rows, Promotable(agent, now)), Consolidated(db, agent, now).rows;
            && (r in after && r !in swept.rows ==> BroughtBy(rs, |rs|, agent, r))
            && (r in swept.rows && SparedBy(rs, |rs|, agent, r) ==> r in after)
  {
    var swept := Swept(db, agent, now);
    var rs := Filter(swept.rows, Promotable(agent, now));
    SweptFits(db, agent, now);
    PromotablesAreABatch(swept, agent, now);
    assert rs[..|rs|] == rs;
    if r in swept.rows && SparedBy(rs, |rs|, agent, r) {
      PromotedAllKeeps(swept, rs, |rs|, agent, now, r);
    }
    if r in Consolidated(db, agent, now).rows && r !in swept.rows {
      PromotedAllBrings(swept, rs, |rs|, agent, now, r);
    }
  }

  /** Consolidation brings only copies of due rows. */
  lemma {:induction false} ConsolidatedBrings(db: Db, agent: string, now: int, r: Row)
    requires Ok(db) && r in Consolidated(db, agent, now).rows && (r !in db.rows || Outlived(r, now))
    ensures exists o :: o in db.rows && Due(o, agent, now) && !Outlived(o, now)
              && Under(r, agent, o.key, LongTerm) && r.content == o.content
  {
    var rs := Filter(Swept(db, agent, now).rows, Promotable(agent, now));
    assert r !in Swept(db, agent, now).rows by { SweptFits(db, agent, now); SweptRows(db, agent, now, r); }
    SweptOrBrought(db, agent, now, r);
    var i :| 0 <= i < |rs| && Under(r, agent, rs[i].key, LongTerm) && r.content == rs[i].content;
    PromotedAreDue(db, agent, now, i);
  }

  lemma {:induction false} NotDueIsSpared(db: Db, agent: string, now: int, r: Row)
    requires Ok(db) && !Due(r, agent, now)
    requires forall o :: o in db.rows && Due(o, agent, now) ==> !Under(r, agent, o.key, LongTerm)
    ensures var rs := Filter(Swept(db, agent, now).rows, Promotable(agent, now)); SparedBy(rs, |rs|, agent, r)
  {
    var rs := Filter(Swept(db, agent, now).rows, Promotable(agent, now));
    forall i | 0 <= i < |rs| ensures r != rs[i] && !Under(r, agent, rs[i].key, LongTerm) {
      PromotedAreDue(db, agent, now, i);
    }
  }

  /**
   It leaves alone every row that is not outlived, unless it is due, the namesake of a due row,
   or in a full scope.
   */
  lemma {:induction false} ConsolidatedKeeps(db: Db, agent: string, now: int, r: Row)
    requires Ok(db) && r in db.rows && !Outlived(r, now)
    requires r.agent == agent ==> HowMany(db.rows, agent, r.scope) <= LimitOf(r.scope)
    requires !Due(r, agent, now) && forall o :: o in db.rows && Due(o, agent, now) ==> !Under(r, agent, o.key, LongTerm)
    ensures r in Consolidated(db, agent, now).rows
  {
    SweptRows(db, agent, now, r);
    NotDueIsSpared(db, agent, now, r);
    SweptOrBrought(db, agent, now, r);
  }

  /**
   Every due row that is not outlived, in a scope within its limit, ends as one long-term row
   and no short-term one.
   */
  lemma {:induction false} ConsolidatedPromotes(db: Db, agent: string, now: int, o: Row)
    requires Ok(db) && o in db.rows && Due(o, agent, now) && !Outlived(o, now)
    ensures var after := Consolidated(db, agent, now).rows;
            && LandedOnce(after, o) && forall r :: r in after ==> !Under(r, agent, o.key, ShortTerm)
  {
    assert Count(db.rows, agent, ShortTerm) <= Bound(ShortTerm);
    CountIsHowMany(db.rows, agent, ShortTerm);
    SweptRows(db, agent, now, o);
    assert Promotable(agent, now)(o);
    ConsolidationPromotes(db, agent, now, o);
  }
}
