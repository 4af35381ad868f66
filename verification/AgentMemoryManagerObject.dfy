/** Managers of one shared database, after `dharma_swarm/agent_memory_manager.py`, against the step function. */
module AgentMemoryManagerObjects {
  import opened Options
  import opened Sorting
  import opened AgentMemoryManagers
  import opened AgentMemoryEffects

  /** The SQLite file all managers work on. */
  class Database {
    var db: Db

    constructor ()
      ensures db == Db([], [], 0)
    {
      db := Db([], [], 0);
    }
  }

  class AgentMemoryManager {
    const agentId: string
    const store: Database

    constructor (agentId: string, store: Database)
      ensures this.agentId == agentId && this.store == store
    {
      this.agentId, this.store := agentId, store;
    }

    /** `remember` outside shared memory: make room, insert or overwrite, read back. */
    method RememberMemo(s: Scope, m: Memo, now: int) returns (stored: Row)
      modifies store
      ensures store.db == Step(old(store.db), Remember(agentId, s, m, now))
      ensures stored in store.db.rows && IsRow(stored, agentId, m.key, s) && stored.content == m.content
                && stored.ttl == m.ttl
      ensures old(Ok(store.db)) ==> Ok(store.db)
      ensures old(Unique(store.db)) ==>
                exists kept: seq<Row> ::
                  && Evicted(old(store.db.rows), kept, agentId, s) && Subrows(kept, old(store.db.rows))
                  && (HowMany(old(store.db.rows), agentId, s) < LimitOf(s) ==> kept == old(store.db.rows))
                  && Written(kept, store.db.rows, agentId, s, m, now)
      ensures store.db.shared == old(store.db.shared)
    {
      ghost var before := store.db;
      stored := StoreMemo(s, m, now);
      if Ok(before) { RememberKeepsOk(before, agentId, s, m, now); }
      if Unique(before) { RememberEffects(before, agentId, s, m, now); }
    }

    method StoreMemo(s: Scope, m: Memo, now: int) returns (stored: Row)
      modifies store
      ensures store.db == Step(old(store.db), Remember(agentId, s, m, now))
      ensures stored in store.db.rows && IsRow(stored, agentId, m.key, s) && stored.content == m.content
                && stored.ttl == m.ttl && store.db.shared == old(store.db.shared)
    {
      EnforceLimit(s);
      var i := FindRow(store.db.rows, agentId, m.key, s);
      if i < |store.db.rows| {
        stored := store.db.rows[i].(content := m.content, accessedAt := now, ttl := m.ttl,
                                    contentHash := m.contentHash);
        store.db := store.db.(rows := store.db.rows[i := stored]);
      } else {
        stored := Row(store.db.nextId, agentId, m.key, m.content, s, now, now, 0, m.ttl, m.contentHash);
        store.db := Db(store.db.rows + [stored], store.db.shared, store.db.nextId + 1);
      }
      assert store.db.rows[i] == stored;
    }

    method EnforceLimit(s: Scope)
      modifies store
      ensures store.db == old(store.db).(rows := Enforced(old(store.db.rows), agentId, s))
    {
      if Limit(s) <= Count(store.db.rows, agentId, s) {
        var evictCount := if Limit(s) / 10 < 1 then 1 else Limit(s) / 10;
        store.db := store.db.(rows := Evict(store.db.rows, InScope(agentId, s), evictCount));
      }
    }

    method ShareMemory(key: string, content: string, tags: string, now: int)
      modifies store
      ensures store.db == Step(old(store.db), Share(agentId, key, content, tags, now))
      ensures old(|store.db.shared|) <= MAX_SHARED ==> |store.db.shared| <= MAX_SHARED
      ensures store.db.rows == old(store.db.rows)
      ensures exists kept ::
                SharedRoom(old(store.db.shared), kept)
                && SharedWritten(kept, store.db.shared, agentId, key, content, tags, now)
    {
      ShareEffects(store.db, agentId, key, content, tags, now);
      var kept := WithSharedRoom(store.db.shared);
      var i := FindShared(kept, key);
      if i < |kept| {
        var row := kept[i].(content := content, agent := agentId, createdAt := now, tags := tags);
        store.db := store.db.(shared := kept[i := row]);
      } else {
        store.db := Db(store.db.rows, kept + [SharedRow(store.db.nextId, agentId, key, content, now, tags)],
                       store.db.nextId + 1);
      }
    }

    /**
     `recall_by_key`: stamps the most recently accessed row the place names and returns it
     as stamped, or looks in shared memory. One scope holds at most one such row.
     */
    method RecallByKey(key: string, place: Place, now: int) returns (row: Option<Row>, shared: Option<SharedRow>)
      requires Unique(store.db)
      modifies store
      ensures row.Some? <==> exists r :: r in old(store.db.rows) && Asked(r, agentId, key, place)
      ensures row.Some? ==> row.value in store.db.rows && Asked(row.value, agentId, key, place)
                            && store.db == Step(old(store.db), Recall({row.value.id}, now))
      ensures row.Some? ==>
                exists r :: r in old(store.db.rows) && IsStamped(r, row.value, now) && Asked(r, agentId, key, place)
                    && forall o :: o in old(store.db.rows) && Asked(o, agentId, key, place) ==>
                         o.accessedAt <= r.accessedAt
      ensures row.Some? ==> |store.db.rows| == |old(store.db.rows)|
      ensures row.Some? ==>
                forall i :: 0 <= i < |store.db.rows| ==>
                  if old(store.db.rows)[i].id == row.value.id then store.db.rows[i] == row.value
                  else store.db.rows[i] == old(store.db.rows)[i]
      ensures row.None? ==> store.db == old(store.db)
      ensures row.None? ==> (shared.Some? <==> exists r :: r in store.db.shared && r.key == key)
      ensures shared.Some? ==> row.None? && shared.value in store.db.shared && shared.value.key == key
    {
      row, shared := None, None;
      var rows := store.db.rows;
      var i := Latest(rows, Named(agentId, key, place));
      assert forall r :: Named(agentId, key, place)(r) == Asked(r, agentId, key, place);
      if i == |rows| {
        var j := FindShared(store.db.shared, key);
        if j < |store.db.shared| {
          shared := Some(store.db.shared[j]);
        }
        return;
      }
      row := Some(Stamped(rows[i], now));
      Stamp(i, now);
      assert rows[i] in rows && store.db.rows[i] == row.value;
    }

    method Stamp(i: nat, now: int)
      requires Unique(store.db) && i < |store.db.rows|
      modifies store
      ensures store.db == Step(old(store.db), Recall({old(store.db.rows)[i].id}, now))
      ensures store.db.rows == old(store.db.rows)[i := Stamped(old(store.db.rows)[i], now)]
      ensures forall j :: 0 <= j < |store.db.rows| && j != i ==> old(store.db.rows)[j].id != old(store.db.rows)[i].id
    {
      var rows := store.db.rows;
      var stamped := Stamped(rows[i], now);
      forall j | 0 <= j < |rows| ensures rows[i := stamped][j] == Touched(rows, {stamped.id}, now)[j] {
        if j != i { DifferAt(store.db, i, j); }
      }
      assert rows[i := stamped] == Touched(rows, {stamped.id}, now);
      store.db := store.db.(rows := rows[i := stamped]);
      assert store.db.rows[i] == stamped;
    }

    /** `forget` in one scope, in shared memory, or everywhere. */
    method ForgetMemory(key: string, place: Place) returns (found: bool)
      modifies store
      ensures store.db == Step(old(store.db), Forget(agentId, key, place))
      ensures forall r :: r in store.db.rows <==>
                r in old(store.db.rows) && !(r.agent == agentId && r.key == key
                                             && (place.Everywhere? || (place.In? && r.scope == place.scope)))
      ensures Subrows(store.db.rows, old(store.db.rows))
      ensures place.In? ==> store.db.shared == old(store.db.shared)
      ensures !place.In? ==> (forall r :: r in store.db.shared <==> r in old(store.db.shared) && r.key != key)
                             && SharedSubrows(store.db.shared, old(store.db.shared))
      ensures found <==>
                (exists r :: r in old(store.db.rows) && r.agent == agentId && r.key == key
                             && (place.Everywhere? || (place.In? && r.scope == place.scope)))
                || (!place.In? && exists r :: r in old(store.db.shared) && r.key == key)
    {
      var before := store.db;
      ForgetEffects(before, agentId, key, place);
      FoundIff(before, agentId, key, place);
      var deleted, sharedDeleted := 0, 0;
      if !place.In? {
        var shared := Filter(before.shared, OtherShared(key));
        sharedDeleted := |before.shared| - |shared|;
        store.db := store.db.(shared := shared);
      }
      NoneShared(before.rows, agentId, key);
      if !place.SharedOnly? {
        var rows := Filter(before.rows, Unnamed(agentId, key, place));
        deleted := |before.rows| - |rows|;
        store.db := store.db.(rows := rows);
      }
      found := 0 < deleted + sharedDeleted;
    }

    /** Expiry, trimming and promotion, counting the rows concerned. */
    method ConsolidateMemories(now: int) returns (affected: int)
      modifies store
      ensures store.db == Step(old(store.db), Consolidate(agentId, now))
      ensures var swept := Swept(old(store.db), agentId, now);
              affected == |old(store.db.rows)| - |swept.rows| + |Filter(swept.rows, Promotable(agentId, now))|
      ensures old(Ok(store.db)) ==> Ok(store.db)
    {
      ghost var before := store.db;
      var rows := Filter(store.db.rows, Current(now));
      affected := |store.db.rows| - |rows|;
      var evicted: int;
      rows, evicted := TrimScopes(rows);
      affected := affected + evicted;
      store.db := store.db.(rows := rows);
      var promotable := Filter(rows, Promotable(agentId, now));
      PromoteRows(promotable, now);
      affected := affected + |promotable|;
      if Ok(before) { ConsolidateKeepsOk(before, agentId, now); }
    }

    /** Trims the three scopes in turn to their limits. */
    method TrimScopes(rows: seq<Row>) returns (trimmed: seq<Row>, evicted: int)
      ensures trimmed == TrimmedAll(rows, agentId) && evicted == |rows| - |trimmed|
    {
      trimmed, evicted := rows, 0;
      var scopes := [Working, ShortTerm, LongTerm];
      ghost var steps := [rows, Trimmed(rows, agentId, Working),
                          Trimmed(Trimmed(rows, agentId, Working), agentId, ShortTerm), TrimmedAll(rows, agentId)];
      for i := 0 to |scopes|
        invariant trimmed == steps[i] && evicted == |rows| - |trimmed|
      {
        var count := Count(trimmed, agentId, scopes[i]);
        if Limit(scopes[i]) < count {
          var rest := Evict(trimmed, InScope(agentId, scopes[i]), count - Limit(scopes[i]));
          evicted := evicted + |trimmed| - |rest|;
          trimmed := rest;
        }
      }
    }

    method PromoteRows(promotable: seq<Row>, now: int)
      modifies store
      ensures store.db == PromotedAll(old(store.db), promotable, now)
    {
      for i := 0 to |promotable|
        invariant store.db == PromotedAll(old(store.db), promotable[..i], now)
      {
        assert promotable[..i + 1][..i] == promotable[..i];
        PromoteRow(promotable[i], now);
      }
      assert promotable[..|promotable|] == promotable;
    }

    method PromoteRow(row: Row, now: int)
      modifies store
      ensures store.db == PromotedOne(old(store.db), row, now)
    {
      var i := FindRow(store.db.rows, row.agent, row.key, LongTerm);
      if i < |store.db.rows| {
        store.db := store.db.(rows := store.db.rows[i := store.db.rows[i].(content := row.content, accessedAt := now)]);
      } else {
        store.db := Db(store.db.rows + [Row(store.db.nextId, row.agent, row.key, row.content, LongTerm, now, now, 0,
                                            None, row.contentHash)],
                       store.db.shared, store.db.nextId + 1);
      }
      store.db := store.db.(rows := Filter(store.db.rows, OtherId(row.id)));
    }
  }

  lemma {:induction false} NoneShared(rows: seq<Row>, agent: string, key: string)
    ensures Filter(rows, Unnamed(agent, key, SharedOnly)) == rows
  {
    forall i | 0 <= i < |rows| ensures Unnamed(agent, key, SharedOnly)(rows[i]) {
      assert !Named(agent, key, SharedOnly)(rows[i]);
    }
    FilterAll(rows, Unnamed(agent, key, SharedOnly));
  }

  lemma {:induction false} FoundIff(db: Db, agent: string, key: string, place: Place)
    ensures |Filter(db.rows, Unnamed(agent, key, place))| < |db.rows| <==>
            exists r :: r in db.rows && Asked(r, agent, key, place)
    ensures |Filter(db.shared, OtherShared(key))| < |db.shared| <==> exists r :: r in db.shared && r.key == key
  {
    FilterShorterIff(db.rows, Unnamed(agent, key, place));
    FilterShorterIff(db.shared, OtherShared(key));
    forall r: Row ensures Unnamed(agent, key, place)(r) == !Asked(r, agent, key, place) {
      assert Named(agent, key, place)(r) == Asked(r, agent, key, place);
    }
    assert forall r :: OtherShared(key)(r) == (r.key != key);
  }
}
