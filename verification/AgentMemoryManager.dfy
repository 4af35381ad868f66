/**
 The scoped memory store of `dharma_swarm/agent_memory_manager.py`: the two
 SQLite tables as row sequences, shared by all agents. The clock is a parameter;
 rows that tie in a query are taken in row order.
 */
module AgentMemoryManagers {
  import opened Options
  import opened Sorting

  datatype Scope = Working | ShortTerm | LongTerm

  datatype Row = Row(
    id: nat, agent: string, key: string, content: string, scope: Scope,
    createdAt: int, accessedAt: int, accessCount: nat, ttl: Option<int>, contentHash: string)

  datatype SharedRow = SharedRow(id: nat, agent: string, key: string, content: string, createdAt: int, tags: string)

  datatype Db = Db(rows: seq<Row>, shared: seq<SharedRow>, nextId: nat)

  /** The scope argument of a lookup or deletion: one scope, shared memory alone, or none given. */
  datatype Place = In(scope: Scope) | SharedOnly | Everywhere

  const MAX_WORKING := 50
  const MAX_SHORT_TERM := 500
  const MAX_LONG_TERM := 10000
  const MAX_SHARED := 50000

  function Limit(s: Scope): nat {
    match s
    case Working => MAX_WORKING
    case ShortTerm => MAX_SHORT_TERM
    case LongTerm => MAX_LONG_TERM
  }

  // ---- queries ----------------------------------------------------------------

  function InScope(agent: string, s: Scope): Row -> bool { (r: Row) => r.agent == agent && r.scope == s }

  function Count(rows: seq<Row>, agent: string, s: Scope): nat { |Filter(rows, InScope(agent, s))| }

  predicate IsRow(r: Row, agent: string, key: string, s: Scope) { r.agent == agent && r.key == key && r.scope == s }

  /** The position of the row with this agent, key and scope, or the length. */
  function FindRow(rows: seq<Row>, agent: string, key: string, s: Scope): (i: nat)
    ensures i <= |rows| && (i < |rows| ==> IsRow(rows[i], agent, key, s))
    ensures forall j :: 0 <= j < i ==> !IsRow(rows[j], agent, key, s)
  {
    if rows == [] || IsRow(rows[0], agent, key, s) then 0 else 1 + FindRow(rows[1..], agent, key, s)
  }

  /** The eviction order: access count first, then last access. */
  predicate LessUsed(a: Row, b: Row) {
    a.accessCount < b.accessCount || (a.accessCount == b.accessCount && a.accessedAt < b.accessedAt)
  }

  /** The first least used row of a scope, or the length when the scope is empty. */
  function LeastUsed(rows: seq<Row>, p: Row -> bool): (i: nat)
    ensures i <= |rows|
    ensures i < |rows| ==> p(rows[i]) && forall j :: 0 <= j < |rows| && p(rows[j]) ==> !LessUsed(rows[j], rows[i])
    ensures i == |rows| ==> forall j :: 0 <= j < |rows| ==> !p(rows[j])
  {
    if rows == [] then 0
    else
      var n := |rows| - 1;
      var i := LeastUsed(rows[..n], p);
      if p(rows[n]) then (if i == n || LessUsed(rows[n], rows[i]) then n else i)
      else if i == n then |rows| else i
  }

  function Without(rows: seq<Row>, i: nat): (r: seq<Row>)
    requires i < |rows|
    ensures |r| == |rows| - 1
  {
    rows[..i] + rows[i + 1..]
  }

  /** `DELETE ... WHERE id IN (SELECT ... ORDER BY access_count, accessed_at LIMIT k)`: the least used row, k times. */
  function Evict(rows: seq<Row>, p: Row -> bool, k: nat): seq<Row> {
    var i := LeastUsed(rows, p);
    if k == 0 || i == |rows| then rows else Evict(Without(rows, i), p, k - 1)
  }

  // ---- operations ----------------------------------------------------------------

  /** `_enforce_limit`, before an insertion. */
  function Enforced(rows: seq<Row>, agent: string, s: Scope): seq<Row> {
    if Limit(s) <= Count(rows, agent, s) then
      Evict(rows, InScope(agent, s), if Limit(s) / 10 < 1 then 1 else Limit(s) / 10)
    else rows
  }

  datatype Memo = Memo(key: string, content: string, contentHash: string, ttl: Option<int>)

  function Upserted(db: Db, agent: string, s: Scope, m: Memo, now: int): Db {
    var i := FindRow(db.rows, agent, m.key, s);
    if i < |db.rows| then
      var r := db.rows[i].(content := m.content, accessedAt := now, ttl := m.ttl, contentHash := m.contentHash);
      db.(rows := db.rows[i := r])
    else
      Db(db.rows + [Row(db.nextId, agent, m.key, m.content, s, now, now, 0, m.ttl, m.contentHash)], db.shared,
         db.nextId + 1)
  }

  function Remembered(db: Db, agent: string, s: Scope, m: Memo, now: int): Db {
    Upserted(db.(rows := Enforced(db.rows, agent, s)), agent, s, m, now)
  }

  function FindShared(rows: seq<SharedRow>, key: string): (i: nat)
    ensures i <= |rows| && (i < |rows| ==> rows[i].key == key)
    ensures forall j :: 0 <= j < i ==> rows[j].key != key
  {
    if rows == [] || rows[0].key == key then 0 else 1 + FindShared(rows[1..], key)
  }

  function Oldest(rows: seq<SharedRow>): (i: nat)
    requires rows != []
    ensures i < |rows| && forall j :: 0 <= j < |rows| ==> rows[i].createdAt <= rows[j].createdAt
  {
    if |rows| == 1 then 0
    else
      var n := |rows| - 1;
      var i := Oldest(rows[..n]);
      if rows[n].createdAt < rows[i].createdAt then n else i
  }

  function WithSharedRoom(shared: seq<SharedRow>): (r: seq<SharedRow>)
    ensures |r| == if MAX_SHARED <= |shared| then |shared| - 1 else |shared|
  {
    if MAX_SHARED <= |shared| then
      var i := Oldest(shared);
      shared[..i] + shared[i + 1..]
    else shared
  }

  /** `share`: at most one, the oldest, makes room. */
  function Shared(db: Db, agent: string, key: string, content: string, tags: string, now: int): Db {
    var kept := WithSharedRoom(db.shared);
    var i := FindShared(kept, key);
    if i < |kept| then
      db.(shared := kept[i := kept[i].(content := content, agent := agent, createdAt := now, tags := tags)])
    else
      Db(db.rows, kept + [SharedRow(db.nextId, agent, key, content, now, tags)], db.nextId + 1)
  }

  function Stamped(r: Row, now: int): Row { r.(accessedAt := now, accessCount := r.accessCount + 1) }

  /** `recall` and `recall_by_key` stamp the rows they find; which ones those are is left open. */
  function Touched(rows: seq<Row>, found: set<nat>, now: int): (r: seq<Row>)
    ensures |r| == |rows|
    ensures forall i :: 0 <= i < |rows| ==>
              r[i] == if rows[i].id in found then Stamped(rows[i], now) else rows[i]
  {
    seq(|rows|, i requires 0 <= i < |rows| =>
      if rows[i].id in found then Stamped(rows[i], now) else rows[i])
  }

  /** The rows that a place, an agent and a key name; shared memory is not among the rows. */
  function Named(agent: string, key: string, place: Place): Row -> bool {
    (r: Row) => r.agent == agent && r.key == key && (place.Everywhere? || (place.In? && r.scope == place.scope))
  }

  function Unnamed(agent: string, key: string, place: Place): Row -> bool { (r: Row) => !Named(agent, key, place)(r) }

  /** `forget` in one scope, in shared memory, or in all of them. */
  function Forgotten(db: Db, agent: string, key: string, place: Place): Db {
    db.(rows := Filter(db.rows, Unnamed(agent, key, place)),
        shared := if place.In? then db.shared else Filter(db.shared, OtherShared(key)))
  }

  /** The first most recently accessed row with a property, or the length when there is none. */
  function Latest(rows: seq<Row>, p: Row -> bool): (i: nat)
    ensures i <= |rows|
    ensures i < |rows| ==> p(rows[i]) && forall j :: 0 <= j < |rows| && p(rows[j]) ==>
              rows[j].accessedAt <= rows[i].accessedAt
    ensures i == |rows| ==> forall j :: 0 <= j < |rows| ==> !p(rows[j])
  {
    if rows == [] then 0
    else
      var n := |rows| - 1;
      var i := Latest(rows[..n], p);
      if !p(rows[n]) then if i < n then i else |rows|
      else if i < n && rows[n].accessedAt <= rows[i].accessedAt then i else n
  }

  ghost predicate IsLatest(rows: seq<Row>, p: Row -> bool, r: Row) {
    p(r) && forall o :: o in rows && p(o) ==> o.accessedAt <= r.accessedAt
  }

  function OtherShared(key: string): SharedRow -> bool { (r: SharedRow) => r.key != key }

  function Current(now: int): Row -> bool { (r: Row) => !(r.ttl.Some? && r.createdAt + r.ttl.value < now) }

  function Trimmed(rows: seq<Row>, agent: string, s: Scope): seq<Row> {
    if Limit(s) < Count(rows, agent, s) then Evict(rows, InScope(agent, s), Count(rows, agent, s) - Limit(s)) else rows
  }

  function TrimmedAll(rows: seq<Row>, agent: string): seq<Row> {
    Trimmed(Trimmed(Trimmed(rows, agent, Working), agent, ShortTerm), agent, LongTerm)
  }

  function Promotable(agent: string, now: int): Row -> bool {
    (r: Row) => r.agent == agent && r.scope == ShortTerm && 3 <= r.accessCount && r.createdAt < now - 3600
  }

  function OtherId(id: nat): Row -> bool { (r: Row) => r.id != id }

  /** Copies a row over its long-term namesake, or to a new long-term row. */
  function Copied(db: Db, r: Row, now: int): Db {
    var i := FindRow(db.rows, r.agent, r.key, LongTerm);
    if i < |db.rows| then db.(rows := db.rows[i := db.rows[i].(content := r.content, accessedAt := now)])
    else Db(db.rows + [Row(db.nextId, r.agent, r.key, r.content, LongTerm, now, now, 0, None, r.contentHash)],
            db.shared, db.nextId + 1)
  }

  /** Copies a short-term row to long-term memory and deletes it. */
  function PromotedOne(db: Db, r: Row, now: int): Db {
    var copied := Copied(db, r, now);
    copied.(rows := Filter(copied.rows, OtherId(r.id)))
  }

  function PromotedAll(db: Db, rs: seq<Row>, now: int): Db {
    if rs == [] then db else PromotedOne(PromotedAll(db, rs[..|rs| - 1], now), rs[|rs| - 1], now)
  }

  /** Expiry for everybody, trimming of one agent's scopes. */
  function Swept(db: Db, agent: string, now: int): Db {
    db.(rows := TrimmedAll(Filter(db.rows, Current(now)), agent))
  }

  function Consolidated(db: Db, agent: string, now: int): Db {
    var swept := Swept(db, agent, now);
    PromotedAll(swept, Filter(swept.rows, Promotable(agent, now)), now)
  }

  datatype Op =
    | Remember(agent: string, scope: Scope, memo: Memo, now: int)
    | Share(agent: string, key: string, content: string, tags: string, now: int)
    | Recall(found: set<nat>, now: int)
    | Forget(agent: string, key: string, place: Place)
    | Consolidate(agent: string, now: int)

  function Step(db: Db, op: Op): Db {
    match op
    case Remember(agent, s, m, now) => Remembered(db, agent, s, m, now)
    case Share(agent, key, content, tags, now) => Shared(db, agent, key, content, tags, now)
    case Recall(found, now) => db.(rows := Touched(db.rows, found, now))
    case Forget(agent, key, s) => Forgotten(db, agent, key, s)
    case Consolidate(agent, now) => Consolidated(db, agent, now)
  }

  function Run(db: Db, ops: seq<Op>): Db {
    if ops == [] then db else Step(Run(db, ops[..|ops| - 1]), ops[|ops| - 1])
  }

  // ---- eviction -------------------------------------------------------------------

  lemma {:induction false} FilterWithout(rows: seq<Row>, i: nat, p: Row -> bool)
    requires i < |rows|
    ensures |Filter(Without(rows, i), p)| == |Filter(rows, p)| - if p(rows[i]) then 1 else 0
  {
    assert rows == rows[..i] + ([rows[i]] + rows[i + 1..]);
    FilterConcat(rows[..i], [rows[i]] + rows[i + 1..], p);
    FilterConcat([rows[i]], rows[i + 1..], p);
    FilterConcat(rows[..i], rows[i + 1..], p);
    assert [rows[i]] == [] + [rows[i]];
    FilterSnoc([], rows[i], p);
  }

  lemma {:induction false} NoneLeft(rows: seq<Row>, p: Row -> bool)
    requires forall j :: 0 <= j < |rows| ==> !p(rows[j])
    ensures Filter(rows, p) == []
  {
    if rows != [] {
      NoneLeft(rows[..|rows| - 1], p);
    }
  }

  /** Every row that went was in the scope and no more used than any row of the scope that stayed. */
  ghost predicate EvictsLeastUsed(before: seq<Row>, after: seq<Row>, p: Row -> bool) {
    && (forall r :: r in after ==> r in before)
    && (forall r :: r in before && r !in after ==> p(r))
    && (forall r, s :: r in before && r !in after && s in after && p(s) ==> !LessUsed(s, r))
  }

  lemma {:induction false} WithoutMember(rows: seq<Row>, i: nat, r: Row)
    requires i < |rows|
    ensures r in Without(rows, i) ==> r in rows
    ensures r in rows && r != rows[i] ==> r in Without(rows, i)
  {
    assert rows == rows[..i] + [rows[i]] + rows[i + 1..];
  }

  /** An eviction takes as many rows of the scope as asked for and there are, the least used ones, and no others. */
  lemma {:induction false} EvictLaws(rows: seq<Row>, p: Row -> bool, k: nat)
    ensures var n := |Filter(rows, p)|; |Filter(Evict(rows, p, k), p)| == if k < n then n - k else 0
    ensures |Evict(rows, p, k)| - |Filter(Evict(rows, p, k), p)| == |rows| - |Filter(rows, p)|
    ensures EvictsLeastUsed(rows, Evict(rows, p, k), p)
    decreases k
  {
    var i := LeastUsed(rows, p);
    if i == |rows| {
      NoneLeft(rows, p);
    } else if k > 0 {
      FilterWithout(rows, i, p);
      EvictLaws(Without(rows, i), p, k - 1);
      EvictOneMore(rows, p, i, Evict(Without(rows, i), p, k - 1));
    }
  }

  lemma {:induction false} EvictOneMore(rows: seq<Row>, p: Row -> bool, i: nat, after: seq<Row>)
    requires i < |rows| && p(rows[i]) && forall j :: 0 <= j < |rows| && p(rows[j]) ==> !LessUsed(rows[j], rows[i])
    requires EvictsLeastUsed(Without(rows, i), after, p)
    ensures EvictsLeastUsed(rows, after, p)
  {
    forall r ensures r in after ==> r in rows { WithoutMember(rows, i, r); }
    forall r | r in rows && r !in after ensures p(r) { WithoutMember(rows, i, r); }
    forall r, s | r in rows && r !in after && s in after && p(s) ensures !LessUsed(s, r) {
      WithoutMember(rows, i, r);
      WithoutMember(rows, i, s);
    }
  }

  // ---- what every run keeps ----------------------------------------------------------

  /** Row ids are distinct and used up in order; agent, key and scope identify a row. */
  ghost predicate Unique(db: Db) {
    && (forall i :: 0 <= i < |db.rows| ==> db.rows[i].id < db.nextId)
    && (forall i, j :: 0 <= i < j < |db.rows| ==> Differ(db.rows[i], db.rows[j]))
  }

  ghost predicate Differ(a: Row, b: Row) {
    a.id != b.id && !(a.agent == b.agent && a.key == b.key && a.scope == b.scope)
  }

  lemma {:induction false} DifferAt(db: Db, i: nat, j: nat)
    requires Unique(db) && i < |db.rows| && j < |db.rows| && i != j
    ensures Differ(db.rows[i], db.rows[j])
  {
    if j < i {
      assert Differ(db.rows[j], db.rows[i]);
    }
  }

  /** What each scope of each agent may hold. */
  function Bound(s: Scope): nat { if s == LongTerm then MAX_LONG_TERM + MAX_SHORT_TERM else Limit(s) }

  ghost predicate Bounded(db: Db) {
    && |db.shared| <= MAX_SHARED
    && forall agent, s :: Count(db.rows, agent, s) <= Bound(s)
  }

  /** `rows` is what is left of `before`: some rows are gone, the order is the same. */
  ghost predicate Subrows(rows: seq<Row>, before: seq<Row>) {
    exists at: seq<nat> :: Embeds(at, rows, before)
  }

  ghost predicate Embeds(at: seq<nat>, rows: seq<Row>, before: seq<Row>) {
    && |at| == |rows|
    && (forall i :: 0 <= i < |rows| ==> at[i] < |before| && rows[i] == before[at[i]])
    && (forall i, j :: 0 <= i < j < |rows| ==> at[i] < at[j])
  }

  lemma {:induction false} SubrowsTransitive(a: seq<Row>, b: seq<Row>, c: seq<Row>)
    requires Subrows(a, b) && Subrows(b, c)
    ensures Subrows(a, c)
  {
    var f :| Embeds(f, a, b);
    var g :| Embeds(g, b, c);
    assert Embeds(seq(|a|, i requires 0 <= i < |a| => g[f[i]]), a, c);
  }

  lemma {:induction false} SubrowsSelf(a: seq<Row>)
    ensures Subrows(a, a)
  {
    assert Embeds(seq(|a|, i => i), a, a);
  }

  lemma {:induction false} WithoutIsSubrows(rows: seq<Row>, i: nat)
    requires i < |rows|
    ensures Subrows(Without(rows, i), rows)
  {
    assert Embeds(seq(|rows| - 1, k => if k < i then k else k + 1), Without(rows, i), rows);
  }

  lemma {:induction false} EvictIsSubrows(rows: seq<Row>, p: Row -> bool, k: nat)
    ensures Subrows(Evict(rows, p, k), rows)
    decreases k
  {
    var i := LeastUsed(rows, p);
    if k == 0 || i == |rows| {
      SubrowsSelf(rows);
    } else {
      EvictIsSubrows(Without(rows, i), p, k - 1);
      WithoutIsSubrows(rows, i);
      SubrowsTransitive(Evict(Without(rows, i), p, k - 1), Without(rows, i), rows);
    }
  }

  lemma {:induction false} FilterIsSubrows(rows: seq<Row>, p: Row -> bool)
    ensures Subrows(Filter(rows, p), rows)
  {
    if rows == [] {
      SubrowsSelf(rows);
    } else {
      var n := |rows| - 1;
      FilterIsSubrows(rows[..n], p);
      SubrowsSnoc(Filter(rows[..n], p), rows[..n], rows[n]);
      assert rows == rows[..n] + [rows[n]];
    }
  }

  lemma {:induction false} SubrowsSnoc(a: seq<Row>, b: seq<Row>, r: Row)
    requires Subrows(a, b)
    ensures Subrows(a, b + [r]) && Subrows(a + [r], b + [r])
  {
    var at: seq<nat> :| Embeds(at, a, b);
    assert Embeds(at, a, b + [r]);
    assert Embeds(at + [|b|], a + [r], b + [r]);
  }

  /** Fewer rows count for no more, and stay unique. */
  lemma {:induction false} SubrowsCount(rows: seq<Row>, before: seq<Row>, p: Row -> bool)
    requires Subrows(rows, before)
    ensures |Filter(rows, p)| <= |Filter(before, p)|
  {
    var at :| Embeds(at, rows, before);
    EmbeddedCount(at, rows, before, p);
  }

  lemma {:induction false} EmbeddedCount(at: seq<nat>, rows: seq<Row>, before: seq<Row>, p: Row -> bool)
    requires Embeds(at, rows, before)
    ensures |Filter(rows, p)| <= |Filter(before, p)|
    decreases |before|
  {
    if rows != [] {
      var n, m := |before| - 1, |rows| - 1;
      if at[m] == n {
        EmbeddedCount(at[..m], rows[..m], before[..n], p);
      } else {
        EmbeddedCount(at, rows, before[..n], p);
      }
    }
  }

  lemma {:induction false} SubrowsUnique(db: Db, rows: seq<Row>)
    requires Unique(db) && Subrows(rows, db.rows)
    ensures Unique(db.(rows := rows))
  {
    var at :| Embeds(at, rows, db.rows);
  }

  lemma {:induction false} SubrowsBounded(db: Db, rows: seq<Row>)
    requires Bounded(db) && Subrows(rows, db.rows)
    ensures Bounded(db.(rows := rows))
  {
    forall agent, s ensures Count(rows, agent, s) <= Bound(s) {
      SubrowsCount(rows, db.rows, InScope(agent, s));
      assert Count(db.rows, agent, s) <= Bound(s);
    }
  }

  /** Rows changed in place, but not in what identifies them. */
  ghost predicate SameIdentity(a: seq<Row>, b: seq<Row>) {
    && |a| == |b|
    && forall i :: 0 <= i < |a| ==>
         a[i].id == b[i].id && a[i].agent == b[i].agent && a[i].key == b[i].key && a[i].scope == b[i].scope
  }

  lemma {:induction false} SameIdentityCount(a: seq<Row>, b: seq<Row>, agent: string, s: Scope)
    requires SameIdentity(a, b)
    ensures Count(a, agent, s) == Count(b, agent, s)
  {
    if a != [] {
      SameIdentityCount(a[..|a| - 1], b[..|b| - 1], agent, s);
    }
  }

  lemma {:induction false} SameIdentityKeeps(db: Db, rows: seq<Row>)
    requires Unique(db) && Bounded(db) && SameIdentity(rows, db.rows)
    ensures Unique(db.(rows := rows)) && Bounded(db.(rows := rows))
  {
    forall i, j | 0 <= i < j < |rows| ensures Differ(rows[i], rows[j]) {
      assert Differ(db.rows[i], db.rows[j]);
    }
    forall agent, s ensures Count(rows, agent, s) <= Bound(s) {
      SameIdentityCount(rows, db.rows, agent, s);
      assert Count(db.rows, agent, s) <= Bound(s);
    }
  }

  lemma {:induction false} AppendCount(rows: seq<Row>, r: Row, agent: string, s: Scope)
    ensures Count(rows + [r], agent, s) == Count(rows, agent, s) + if r.agent == agent && r.scope == s then 1 else 0
  {
    FilterSnoc(rows, r, InScope(agent, s));
  }

  lemma {:induction false} AppendUnique(db: Db, r: Row)
    requires Unique(db) && r.id == db.nextId && FindRow(db.rows, r.agent, r.key, r.scope) == |db.rows|
    ensures Unique(Db(db.rows + [r], db.shared, db.nextId + 1))
  {
    forall i | 0 <= i < |db.rows| ensures Differ(db.rows[i], r) {
      assert !IsRow(db.rows[i], r.agent, r.key, r.scope);
    }
  }

  /** Making room before an insertion leaves the scope strictly below its limit. */
  lemma {:induction false} EnforcedLeavesRoom(rows: seq<Row>, agent: string, s: Scope)
    requires Count(rows, agent, s) <= Bound(s)
    ensures Subrows(Enforced(rows, agent, s), rows) && Count(Enforced(rows, agent, s), agent, s) < Bound(s)
    ensures EvictsLeastUsed(rows, Enforced(rows, agent, s), InScope(agent, s))
  {
    var k := if Limit(s) / 10 < 1 then 1 else Limit(s) / 10;
    EvictLaws(rows, InScope(agent, s), k);
    EvictIsSubrows(rows, InScope(agent, s), k);
    SubrowsSelf(rows);
  }

  ghost predicate Ok(db: Db) { Unique(db) && Bounded(db) }

  lemma {:induction false} UpsertKeepsOk(db: Db, agent: string, s: Scope, m: Memo, now: int)
    requires Ok(db) && Count(db.rows, agent, s) < Bound(s)
    ensures Ok(Upserted(db, agent, s, m, now))
  {
    var after := Upserted(db, agent, s, m, now);
    if FindRow(db.rows, agent, m.key, s) < |db.rows| {
      SameIdentityKeeps(db, after.rows);
    } else {
      var r := after.rows[|db.rows|];
      AppendUnique(db, r);
      forall a, sc ensures Count(after.rows, a, sc) <= Bound(sc) {
        AppendCount(db.rows, r, a, sc);
        assert Count(db.rows, a, sc) <= Bound(sc);
      }
    }
  }

  lemma {:induction false} RememberKeepsOk(db: Db, agent: string, s: Scope, m: Memo, now: int)
    requires Ok(db)
    ensures Ok(Remembered(db, agent, s, m, now))
  {
    assert Count(db.rows, agent, s) <= Bound(s);
    EnforcedLeavesRoom(db.rows, agent, s);
    SubrowsUnique(db, Enforced(db.rows, agent, s));
    SubrowsBounded(db, Enforced(db.rows, agent, s));
    UpsertKeepsOk(db.(rows := Enforced(db.rows, agent, s)), agent, s, m, now);
  }

  lemma {:induction false} DeleteKeepsOk(db: Db, p: Row -> bool)
    requires Ok(db)
    ensures Ok(db.(rows := Filter(db.rows, p)))
  {
    FilterIsSubrows(db.rows, p);
    SubrowsUnique(db, Filter(db.rows, p));
    SubrowsBounded(db, Filter(db.rows, p));
  }

  // ---- consolidation ------------------------------------------------------------------

  lemma {:induction false} TrimmedFits(rows: seq<Row>, agent: string, s: Scope)
    ensures Subrows(Trimmed(rows, agent, s), rows) && Count(Trimmed(rows, agent, s), agent, s) <= Limit(s)
    ensures EvictsLeastUsed(rows, Trimmed(rows, agent, s), InScope(agent, s))
  {
    TrimmedIsSubrows(rows, agent, s);
    TrimmedCount(rows, agent, s);
    TrimmedEvictsLeastUsed(rows, agent, s);
  }

  lemma {:induction false} TrimmedIsSubrows(rows: seq<Row>, agent: string, s: Scope)
    ensures Subrows(Trimmed(rows, agent, s), rows)
  {
    if Limit(s) < Count(rows, agent, s) {
      EvictIsSubrows(rows, InScope(agent, s), Count(rows, agent, s) - Limit(s));
    } else {
      SubrowsSelf(rows);
    }
  }

  lemma {:induction false} TrimmedCount(rows: seq<Row>, agent: string, s: Scope)
    ensures Count(Trimmed(rows, agent, s), agent, s) <= Limit(s)
  {
    if Limit(s) < Count(rows, agent, s) {
      EvictLaws(rows, InScope(agent, s), Count(rows, agent, s) - Limit(s));
    }
  }

  lemma {:induction false} TrimmedEvictsLeastUsed(rows: seq<Row>, agent: string, s: Scope)
    ensures EvictsLeastUsed(rows, Trimmed(rows, agent, s), InScope(agent, s))
  {
    if Limit(s) < Count(rows, agent, s) {
      EvictLaws(rows, InScope(agent, s), Count(rows, agent, s) - Limit(s));
    } else {
      NothingEvicted(rows, InScope(agent, s));
    }
  }

  lemma {:induction false} NothingEvicted(rows: seq<Row>, p: Row -> bool)
    ensures EvictsLeastUsed(rows, rows, p)
  {
  }

  /** After expiry and trimming every scope of the agent is within its own limit. */
  lemma {:induction false} SweptFits(db: Db, agent: string, now: int)
    requires Ok(db)
    ensures Ok(Swept(db, agent, now)) && Subrows(Swept(db, agent, now).rows, db.rows)
    ensures forall s :: Count(Swept(db, agent, now).rows, agent, s) <= Limit(s)
  {
    var a := Filter(db.rows, Current(now));
    var b := Trimmed(a, agent, Working);
    var c := Trimmed(b, agent, ShortTerm);
    var d := Trimmed(c, agent, LongTerm);
    FilterIsSubrows(db.rows, Current(now));
    TrimmedFits(a, agent, Working);
    TrimmedFits(b, agent, ShortTerm);
    TrimmedFits(c, agent, LongTerm);
    ThreeTrims(a, b, c, d, agent);
    SubrowsTransitive(d, a, db.rows);
    SubrowsUnique(db, d);
    SubrowsBounded(db, d);
  }

  /** Later trims undo no earlier one. */
  lemma {:induction false} ThreeTrims(a: seq<Row>, b: seq<Row>, c: seq<Row>, d: seq<Row>, agent: string)
    requires Subrows(b, a) && Subrows(c, b) && Subrows(d, c)
    requires Count(b, agent, Working) <= Limit(Working) && Count(c, agent, ShortTerm) <= Limit(ShortTerm)
    requires Count(d, agent, LongTerm) <= Limit(LongTerm)
    ensures Subrows(d, a) && forall s :: Count(d, agent, s) <= Limit(s)
  {
    SubrowsTransitive(d, c, b);
    SubrowsTransitive(d, b, a);
    SubrowsCount(d, b, InScope(agent, Working));
    SubrowsCount(d, c, InScope(agent, ShortTerm));
    forall s ensures Count(d, agent, s) <= Limit(s) {
      assert s == Working || s == ShortTerm || s == LongTerm;
    }
  }

  lemma {:induction false} CopiedUnique(db: Db, r: Row, now: int)
    requires Unique(db)
    ensures Unique(Copied(db, r, now))
    ensures |Copied(db, r, now).shared| == |db.shared|
    ensures forall a, s :: Count(Copied(db, r, now).rows, a, s)
              <= Count(db.rows, a, s) + if a == r.agent && s == LongTerm then 1 else 0
  {
    var after := Copied(db, r, now);
    if FindRow(db.rows, r.agent, r.key, LongTerm) < |db.rows| {
      forall i, j | 0 <= i < j < |db.rows| ensures Differ(after.rows[i], after.rows[j]) {
        assert Differ(db.rows[i], db.rows[j]);
      }
      forall a, s { SameIdentityCount(after.rows, db.rows, a, s); }
    } else {
      AppendUnique(db, after.rows[|db.rows|]);
      forall a, s { AppendCount(db.rows, after.rows[|db.rows|], a, s); }
    }
  }

  /** One promotion adds at most one long-term row, and nothing to any other scope. */
  lemma {:induction false} PromotedOneCounts(db: Db, r: Row, now: int)
    requires Unique(db)
    ensures Unique(PromotedOne(db, r, now)) && |PromotedOne(db, r, now).shared| == |db.shared|
    ensures forall a, s :: Count(PromotedOne(db, r, now).rows, a, s)
              <= Count(db.rows, a, s) + if a == r.agent && s == LongTerm then 1 else 0
  {
    var copied := Copied(db, r, now);
    CopiedUnique(db, r, now);
    FilterIsSubrows(copied.rows, OtherId(r.id));
    SubrowsUnique(copied, Filter(copied.rows, OtherId(r.id)));
    forall a, s ensures Count(PromotedOne(db, r, now).rows, a, s) <= Count(copied.rows, a, s) {
      SubrowsCount(Filter(copied.rows, OtherId(r.id)), copied.rows, InScope(a, s));
    }
  }

  lemma {:induction false} PromotedAllCounts(db: Db, rs: seq<Row>, agent: string, now: int)
    requires Unique(db) && forall i :: 0 <= i < |rs| ==> rs[i].agent == agent
    ensures Unique(PromotedAll(db, rs, now)) && |PromotedAll(db, rs, now).shared| == |db.shared|
    ensures forall a, s :: Count(PromotedAll(db, rs, now).rows, a, s)
              <= Count(db.rows, a, s) + if a == agent && s == LongTerm then |rs| else 0
  {
    if rs != [] {
      PromotedAllCounts(db, rs[..|rs| - 1], agent, now);
      PromotedOneCounts(PromotedAll(db, rs[..|rs| - 1], now), rs[|rs| - 1], now);
    }
  }

  lemma {:induction false} ConsolidateKeepsOk(db: Db, agent: string, now: int)
    requires Ok(db)
    ensures Ok(Consolidated(db, agent, now))
  {
    var swept := Swept(db, agent, now);
    var rs := Filter(swept.rows, Promotable(agent, now));
    SweptFits(db, agent, now);
    forall i | 0 <= i < |rs| ensures rs[i].agent == agent {
      FilterMember(swept.rows, Promotable(agent, now), rs[i]);
      assert rs[i] in rs;
    }
    FewerPass(swept.rows, Promotable(agent, now), InScope(agent, ShortTerm));
    PromotedAllCounts(swept, rs, agent, now);
    forall a, s ensures Count(Consolidated(db, agent, now).rows, a, s) <= Bound(s) {
      assert Count(swept.rows, agent, s) <= Limit(s) && Count(swept.rows, a, s) <= Bound(s);
      assert Count(swept.rows, agent, ShortTerm) <= Limit(ShortTerm);
    }
  }

  lemma {:induction false} FewerPass(rows: seq<Row>, p: Row -> bool, q: Row -> bool)
    requires forall r :: p(r) ==> q(r)
    ensures |Filter(rows, p)| <= |Filter(rows, q)|
  {
    if rows != [] {
      FewerPass(rows[..|rows| - 1], p, q);
    }
  }

  lemma {:induction false} StepKeepsOk(db: Db, op: Op)
    requires Ok(db)
    ensures Ok(Step(db, op))
  {
    match op
    case Remember(agent, s, m, now) => RememberKeepsOk(db, agent, s, m, now);
    case Share(_, _, _, _, _) =>
    case Recall(found, now) => SameIdentityKeeps(db, Touched(db.rows, found, now));
    case Forget(agent, key, place) => DeleteKeepsOk(db, Unnamed(agent, key, place));
    case Consolidate(agent, now) => ConsolidateKeepsOk(db, agent, now);
  }

  /**
   In every state reachable from the empty database, by any agents in any order:
   working memory holds at most 50 rows an agent, short-term 500, shared memory
   50000 in all, and long-term 10000 plus what one consolidation can promote.
   */
  lemma {:induction false} EveryRunIsBounded(ops: seq<Op>)
    ensures Ok(Run(Db([], [], 0), ops))
  {
    if ops != [] {
      EveryRunIsBounded(ops[..|ops| - 1]);
      StepKeepsOk(Run(Db([], [], 0), ops[..|ops| - 1]), ops[|ops| - 1]);
    }
  }

  // ---- promotion ------------------------------------------------------------------------

  /** Exactly one long-term row under the key, with the promoted content. */
  ghost predicate LandedOnce(rows: seq<Row>, r: Row) {
    exists i :: LandsAt(rows, r, i)
  }

  ghost predicate LandsAt(rows: seq<Row>, r: Row, i: int) {
    && 0 <= i < |rows| && IsRow(rows[i], r.agent, r.key, LongTerm) && rows[i].content == r.content
    && forall j :: 0 <= j < |rows| && j != i ==> !IsRow(rows[j], r.agent, r.key, LongTerm)
  }

  ghost predicate NoShortTermCopy(rows: seq<Row>, r: Row) {
    forall i :: 0 <= i < |rows| ==> !IsRow(rows[i], r.agent, r.key, ShortTerm)
  }

  lemma {:induction false} CopyLands(db: Db, r: Row, now: int)
    requires Unique(db)
    ensures LandedOnce(Copied(db, r, now).rows, r)
  {
    var i, after := FindRow(db.rows, r.agent, r.key, LongTerm), Copied(db, r, now).rows;
    forall j | 0 <= j < |after| && j != i ensures !IsRow(after[j], r.agent, r.key, LongTerm) {
      if i < |db.rows| { DifferAt(db, i, j); }
    }
    assert LandsAt(after, r, i);
  }

  /** Deleting a short-term row by its id disturbs no long-term landing. */
  lemma {:induction false} DeletionKeepsLanding(rows: seq<Row>, id: nat, r: Row)
    requires LandedOnce(rows, r)
    requires forall i :: 0 <= i < |rows| && rows[i].id == id ==> rows[i].scope != LongTerm
    ensures LandedOnce(Filter(rows, OtherId(id)), r)
  {
    var i :| LandsAt(rows, r, i);
    var f := Filter(rows, OtherId(id));
    FilterMember(rows, OtherId(id), rows[i]);
    FilterIsSubrows(rows, OtherId(id));
    var at :| Embeds(at, f, rows);
    var k :| 0 <= k < |f| && f[k] == rows[i];
    forall j | 0 <= j < |f| && j != k ensures !IsRow(f[j], r.agent, r.key, LongTerm) {
      assert at[j] != at[k];
    }
    assert LandsAt(f, r, k);
  }

  /** The row is in the table, and it is short-term. */
  ghost predicate Pending(rows: seq<Row>, r: Row) {
    r.scope == ShortTerm && r in rows
  }

  /** One promotion lands its row and removes its short-term copy. */
  lemma {:induction false} PromotionLands(db: Db, r: Row, now: int)
    requires Unique(db) && Pending(db.rows, r)
    ensures LandedOnce(PromotedOne(db, r, now).rows, r) && NoShortTermCopy(PromotedOne(db, r, now).rows, r)
  {
    var copied := Copied(db, r, now);
    CopiedUnique(db, r, now);
    CopyLands(db, r, now);
    var k := OnlyOne(db, r, now);
    DeletionKeepsLanding(copied.rows, r.id, r);
    var f := PromotedOne(db, r, now).rows;
    forall i | 0 <= i < |f| ensures !IsRow(f[i], r.agent, r.key, ShortTerm) {
      FilterMember(copied.rows, OtherId(r.id), f[i]);
      assert f[i] in f;
      var j :| 0 <= j < |copied.rows| && copied.rows[j] == f[i];
      if j != k { DifferAt(copied, j, k); }
    }
  }

  /** The pending row survives the copying, and is the only one with its id. */
  lemma {:induction false} OnlyOne(db: Db, r: Row, now: int) returns (k: nat)
    requires Unique(db) && Pending(db.rows, r)
    ensures k < |Copied(db, r, now).rows| && Copied(db, r, now).rows[k] == r
    ensures forall i :: 0 <= i < |Copied(db, r, now).rows| && Copied(db, r, now).rows[i].id == r.id ==> i == k
  {
    var copied := Copied(db, r, now);
    CopiedUnique(db, r, now);
    k :| 0 <= k < |db.rows| && db.rows[k] == r;
    assert copied.rows[k] == r;
    forall i | 0 <= i < |copied.rows| && copied.rows[i].id == r.id ensures i == k {
      if i != k { DifferAt(copied, i, k); }
    }
  }

  /** A promotion leaves the landings of other keys alone. */
  lemma {:induction false} PromotionKeepsLandings(db: Db, r: Row, o: Row, now: int)
    requires Unique(db) && Pending(db.rows, r) && r.agent == o.agent && r.key != o.key
    requires LandedOnce(db.rows, o) && NoShortTermCopy(db.rows, o)
    ensures LandedOnce(PromotedOne(db, r, now).rows, o) && NoShortTermCopy(PromotedOne(db, r, now).rows, o)
  {
    var copied := Copied(db, r, now);
    var k := OnlyOne(db, r, now);
    var i :| LandsAt(db.rows, o, i);
    assert LandsAt(copied.rows, o, i);
    DeletionKeepsLanding(copied.rows, r.id, o);
    PromotionCopiesNothing(db, r, o, now);
  }

  lemma {:induction false} PromotionCopiesNothing(db: Db, r: Row, o: Row, now: int)
    requires r.key != o.key && NoShortTermCopy(db.rows, o)
    ensures NoShortTermCopy(PromotedOne(db, r, now).rows, o)
  {
    var copied, f := Copied(db, r, now).rows, PromotedOne(db, r, now).rows;
    assert NoShortTermCopy(copied, o);
    forall j | 0 <= j < |f| ensures !IsRow(f[j], o.agent, o.key, ShortTerm) {
      FilterMember(copied, OtherId(r.id), f[j]);
      assert f[j] in f;
    }
  }

  /** And it leaves the pending rows of other keys alone. */
  lemma {:induction false} PromotionKeepsPending(db: Db, r: Row, o: Row, now: int)
    requires Unique(db) && Pending(db.rows, r) && Pending(db.rows, o) && r.key != o.key
    ensures Pending(PromotedOne(db, r, now).rows, o)
  {
    var copied := Copied(db, r, now);
    var k := OnlyOne(db, r, now);
    var m :| 0 <= m < |db.rows| && db.rows[m] == o;
    assert copied.rows[m] == o && m != k;
    FilterMember(copied.rows, OtherId(r.id), o);
  }

  /** Short-term rows of one agent under pairwise different keys. */
  ghost predicate Batch(rs: seq<Row>, agent: string) {
    && (forall i :: 0 <= i < |rs| ==> rs[i].agent == agent)
    && (forall i, j :: 0 <= i < j < |rs| ==> rs[i].key != rs[j].key)
  }

  lemma {:induction false} AllPromotionsLand(db: Db, rs: seq<Row>, n: nat, agent: string, now: int)
    requires Unique(db) && Batch(rs, agent) && n <= |rs|
    requires forall i :: 0 <= i < |rs| ==> Pending(db.rows, rs[i])
    ensures var rows := PromotedAll(db, rs[..n], now).rows;
            && (forall i :: 0 <= i < n ==> LandedOnce(rows, rs[i]) && NoShortTermCopy(rows, rs[i]))
            && (forall i :: n <= i < |rs| ==> Pending(rows, rs[i]))
  {
    if n > 0 {
      var before := PromotedAll(db, rs[..n - 1], now);
      AllPromotionsLand(db, rs, n - 1, agent, now);
      PromotedAllCounts(db, rs[..n - 1], agent, now);
      assert rs[..n][..n - 1] == rs[..n - 1];
      PromotionLands(before, rs[n - 1], now);
      forall i | 0 <= i < |rs| && i != n - 1
        ensures i < n - 1 ==> LandedOnce(PromotedOne(before, rs[n - 1], now).rows, rs[i])
        ensures i < n - 1 ==> NoShortTermCopy(PromotedOne(before, rs[n - 1], now).rows, rs[i])
        ensures n <= i ==> Pending(PromotedOne(before, rs[n - 1], now).rows, rs[i])
      {
        if i < n {
          PromotionKeepsLandings(before, rs[n - 1], rs[i], now);
        } else {
          PromotionKeepsPending(before, rs[n - 1], rs[i], now);
        }
      }
    }
  }

  /**
   After a consolidation every memory that was due for promotion is in long-term
   memory exactly once, with its content, and no longer in short-term memory.
   */
  lemma {:induction false} ConsolidationPromotes(db: Db, agent: string, now: int, r: Row)
    requires Ok(db) && r in Swept(db, agent, now).rows && Promotable(agent, now)(r)
    ensures LandedOnce(Consolidated(db, agent, now).rows, r) && NoShortTermCopy(Consolidated(db, agent, now).rows, r)
  {
    var swept := Swept(db, agent, now);
    var rs := Filter(swept.rows, Promotable(agent, now));
    SweptFits(db, agent, now);
    PromotablesAreABatch(swept, agent, now);
    FilterMember(swept.rows, Promotable(agent, now), r);
    AllPromotionsLand(swept, rs, |rs|, agent, now);
    assert rs[..|rs|] == rs;
  }

  lemma {:induction false} PromotablesAreABatch(db: Db, agent: string, now: int)
    requires Unique(db)
    ensures var rs := Filter(db.rows, Promotable(agent, now));
            Batch(rs, agent) && forall i :: 0 <= i < |rs| ==> Pending(db.rows, rs[i])
  {
    var rs := Filter(db.rows, Promotable(agent, now));
    FilterIsSubrows(db.rows, Promotable(agent, now));
    var at :| Embeds(at, rs, db.rows);
    forall i | 0 <= i < |rs| ensures Pending(db.rows, rs[i]) && rs[i].agent == agent {
      FilterMember(db.rows, Promotable(agent, now), rs[i]);
      assert rs[i] in rs;
    }
    forall i, j | 0 <= i < j < |rs| ensures rs[i].key != rs[j].key {
      assert Differ(db.rows[at[i]], db.rows[at[j]]);
      assert Pending(db.rows, rs[i]) && Pending(db.rows, rs[j]);
    }
  }
}
