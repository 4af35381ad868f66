/**
 The self-editing memory bank of `dharma_swarm/agent_memory.py`: three bounded
 tiers of entries, with eviction, promotion, demotion and consolidation. The
 clock is a parameter.
 */
module AgentMemoryBanks {
  import opened Options
  import opened OrderedDict
  import opened Sorting

  datatype MemoryEntry = MemoryEntry(
    value: string, category: string, importance: real, accessCount: nat,
    createdAt: int, updatedAt: int, expiresAt: Option<int>, source: string)

  type Tier = Dict<string, MemoryEntry>

  datatype TierName = Working | Archival | Persona

  const WORKING_MAX := 10
  const ARCHIVAL_MAX := 100
  const PERSONA_MAX := 5

  datatype Bank = Bank(working: Tier, archival: Tier, persona: Tier)

  /** `_category_to_tier`. */
  function TierOf(category: string): TierName {
    if category == "persona" then Persona
    else if category in ["archival", "lesson", "pattern"] then Archival
    else Working
  }

  function TierMax(t: TierName): nat {
    match t
    case Working => WORKING_MAX
    case Archival => ARCHIVAL_MAX
    case Persona => PERSONA_MAX
  }

  function TierIn(b: Bank, t: TierName): Tier {
    match t
    case Working => b.working
    case Archival => b.archival
    case Persona => b.persona
  }

  function WithTier(b: Bank, t: TierName, d: Tier): Bank {
    match t
    case Working => b.(working := d)
    case Archival => b.(archival := d)
    case Persona => b.(persona := d)
  }

  // ---- the operations ---------------------------------------------------------

  /** The eviction order: importance first, then access count. */
  predicate Lower(a: MemoryEntry, b: MemoryEntry) {
    a.importance < b.importance || (a.importance == b.importance && a.accessCount < b.accessCount)
  }

  /** The first lowest entry, as Python's `min` finds it. */
  function Lowest(d: Tier): (i: nat)
    requires d != []
    ensures i < |d|
    ensures forall j :: 0 <= j < |d| ==> !Lower(d[j].1, d[i].1)
    ensures forall j :: 0 <= j < i ==> Lower(d[i].1, d[j].1)
  {
    if |d| == 1 then 0
    else
      var i := Lowest(d[..|d| - 1]);
      if Lower(d[|d| - 1].1, d[i].1) then |d| - 1 else i
  }

  function Moved(e: MemoryEntry, category: string, now: int): MemoryEntry {
    e.(category := category, updatedAt := now)
  }

  /** `_evict_lowest`: out of working memory an entry falls into archival, if there is room. */
  function Evicted(b: Bank, t: TierName, now: int): Bank {
    var d := TierIn(b, t);
    if d == [] then b
    else
      var (k, e) := d[Lowest(d)];
      var b' := WithTier(b, t, Remove(d, k));
      if t.Working? && |b.archival| < ARCHIVAL_MAX then b'.(archival := Put(b.archival, k, Moved(e, "archival", now)))
      else b'
  }

  function WithRoom(b: Bank, t: TierName, now: int): Bank {
    if TierMax(t) <= |TierIn(b, t)| then Evicted(b, t, now) else b
  }

  function Stored(b: Bank, t: TierName, key: string, e: MemoryEntry): Bank {
    WithTier(b, t, Put(TierIn(b, t), key, e))
  }

  /** The tier, other than `t`, that holds the key, if any. */
  function OtherHome(b: Bank, t: TierName, key: string): Option<TierName> {
    if !t.Working? && Has(b.working, key) then Some(Working)
    else if !t.Archival? && Has(b.archival, key) then Some(Archival)
    else if !t.Persona? && Has(b.persona, key) then Some(Persona)
    else None
  }

  datatype Note = Note(key: string, value: string, category: string, importance: real, source: string)

  function Rewritten(e: MemoryEntry, n: Note, now: int): MemoryEntry {
    e.(value := n.value, importance := n.importance, source := if n.source != "" then n.source else e.source,
       updatedAt := now, category := n.category)
  }

  function Remembered(b: Bank, n: Note, now: int): Bank {
    var t := TierOf(n.category);
    if Has(TierIn(b, t), n.key) then
      Stored(b, t, n.key, Rewritten(Get(TierIn(b, t), n.key), n, now))
    else
      match OtherHome(b, t, n.key)
      case Some(o) =>
        var e := Rewritten(Get(TierIn(b, o), n.key), n, now);
        Stored(WithRoom(WithTier(b, o, Remove(TierIn(b, o), n.key)), t, now), t, n.key, e)
      case None =>
        Stored(WithRoom(b, t, now), t, n.key,
               MemoryEntry(n.value, n.category, n.importance, 0, now, now, None, n.source))
  }

  function Home(b: Bank, key: string): Option<TierName> {
    if Has(b.working, key) then Some(Working)
    else if Has(b.archival, key) then Some(Archival)
    else if Has(b.persona, key) then Some(Persona)
    else None
  }

  function Forgotten(b: Bank, key: string): Bank {
    match Home(b, key)
    case None => b
    case Some(t) => WithTier(b, t, Remove(TierIn(b, t), key))
  }

  function Recalled(b: Bank, key: string): Bank {
    match Home(b, key)
    case None => b
    case Some(t) =>
      var e := Get(TierIn(b, t), key);
      Stored(b, t, key, e.(accessCount := e.accessCount + 1))
  }

  /** `promote` and `demote`: from one tier to another, making room there first. */
  function Transferred(b: Bank, from: TierName, to: TierName, category: string, key: string, now: int): Bank {
    if !Has(TierIn(b, from), key) then b
    else
      var e := Get(TierIn(b, from), key);
      Stored(WithRoom(WithTier(b, from, Remove(TierIn(b, from), key)), to, now), to, key, Moved(e, category, now))
  }

  function Promoted(b: Bank, key: string, now: int): Bank { Transferred(b, Archival, Working, "working", key, now) }

  function Demoted(b: Bank, key: string, now: int): Bank { Transferred(b, Working, Archival, "archival", key, now) }

  type Item = (string, MemoryEntry)

  predicate IsExpired(e: MemoryEntry, now: int) { e.expiresAt.Some? && e.expiresAt.value <= now }

  function Alive(now: int): Item -> bool { (x: Item) => !IsExpired(x.1, now) }

  predicate IsIdle(e: MemoryEntry) { e.accessCount == 0 && e.importance < 0.3 }

  predicate Idle(x: Item) { IsIdle(x.1) }

  predicate Busy(x: Item) { !IsIdle(x.1) }

  function Expired(b: Bank, now: int): Bank {
    Bank(Filter(b.working, Alive(now)), Filter(b.archival, Alive(now)), Filter(b.persona, Alive(now)))
  }

  function AsArchival(d: Tier, now: int): (r: Tier)
    ensures |r| == |d| && forall i :: 0 <= i < |d| ==> r[i] == (d[i].0, Moved(d[i].1, "archival", now))
  {
    seq(|d|, i requires 0 <= i < |d| => (d[i].0, Moved(d[i].1, "archival", now)))
  }

  function Room(b: Bank): nat { if |b.archival| < ARCHIVAL_MAX then ARCHIVAL_MAX - |b.archival| else 0 }

  function Kept(b: Bank): nat {
    var n := |Filter(b.working, Idle)|;
    if n < Room(b) then n else Room(b)
  }

  /** The idle working entries move to archival in order, as far as there is room; the rest are dropped. */
  function IdleDemoted(b: Bank, now: int): Bank {
    Bank(Filter(b.working, Busy), b.archival + AsArchival(Filter(b.working, Idle)[..Kept(b)], now), b.persona)
  }

  function Consolidated(b: Bank, now: int): Bank { IdleDemoted(Expired(b, now), now) }

  datatype Op =
    | Remember(note: Note, now: int)
    | Forget(key: string)
    | Recall(key: string)
    | Promote(key: string, now: int)
    | Demote(key: string, now: int)
    | Consolidate(now: int)

  function Step(b: Bank, op: Op): Bank {
    match op
    case Remember(n, now) => Remembered(b, n, now)
    case Forget(key) => Forgotten(b, key)
    case Recall(key) => Recalled(b, key)
    case Promote(key, now) => Promoted(b, key, now)
    case Demote(key, now) => Demoted(b, key, now)
    case Consolidate(now) => Consolidated(b, now)
  }

  function Run(b: Bank, ops: seq<Op>): Bank {
    if ops == [] then b else Step(Run(b, ops[..|ops| - 1]), ops[|ops| - 1])
  }

  // ---- the invariant ------------------------------------------------------------

  ghost predicate TierOk(d: Tier, t: TierName) {
    && Distinct(d) && |d| <= TierMax(t)
    && forall i :: 0 <= i < |d| ==> TierOf(d[i].1.category) == t
  }

  ghost predicate Apart(c: Tier, d: Tier) {
    forall k :: !(Has(c, k) && Has(d, k))
  }

  /** Disjoint tiers within their bounds, each entry in the tier of its category. */
  ghost predicate Ok(b: Bank) {
    && TierOk(b.working, Working) && TierOk(b.archival, Archival) && TierOk(b.persona, Persona)
    && Apart(b.working, b.archival) && Apart(b.working, b.persona) && Apart(b.archival, b.persona)
  }

  /** The key is somewhere in the bank. */
  predicate Knows(b: Bank, key: string) { Has(b.working, key) || Has(b.archival, key) || Has(b.persona, key) }

  function Size(b: Bank): nat { |b.working| + |b.archival| + |b.persona| }

  lemma {:induction false} CategoriesFit()
    ensures TierOf("working") == Working && TierOf("archival") == Archival && TierOf("lesson") == Archival
  {
    assert ["archival", "lesson", "pattern"][0] == "archival" && ["archival", "lesson", "pattern"][1] == "lesson";
  }

  lemma {:induction false} RemoveOk(d: Tier, t: TierName, key: string)
    requires TierOk(d, t)
    ensures TierOk(Remove(d, key), t)
  {
    RemoveLaws(d, key);
    if Has(d, key) {
      forall i | 0 <= i < |Remove(d, key)| ensures TierOf(Remove(d, key)[i].1.category) == t {
        RemoveAt(d, key, i);
      }
    }
  }

  lemma {:induction false} PutOk(d: Tier, t: TierName, key: string, e: MemoryEntry)
    requires TierOk(d, t) && TierOf(e.category) == t && (Has(d, key) || |d| < TierMax(t))
    ensures TierOk(Put(d, key, e), t)
  {
    PutLaws(d, key, e);
  }

  /** Storing keeps the invariant when the key is at home there or nowhere, and there is room. */
  lemma {:induction false} StoredOk(b: Bank, t: TierName, key: string, e: MemoryEntry)
    requires Ok(b) && TierOf(e.category) == t
    requires Has(TierIn(b, t), key) || (!Knows(b, key) && |TierIn(b, t)| < TierMax(t))
    ensures Ok(Stored(b, t, key, e))
    ensures forall k :: Knows(Stored(b, t, key, e), k) <==> k == key || Knows(b, k)
  {
    var d := TierIn(b, t);
    assert !Has(d, key) ==> !Knows(b, key);
    PutOk(d, t, key, e);
    PutApart(d, b.working, key, e);
    PutApart(d, b.archival, key, e);
    PutApart(d, b.persona, key, e);
    forall k ensures Knows(Stored(b, t, key, e), k) <==> k == key || Knows(b, k) { PutLaws(d, key, e); }
  }

  lemma {:induction false} PutApart(c: Tier, d: Tier, key: string, e: MemoryEntry)
    requires Distinct(c)
    ensures Apart(c, d) && !Has(d, key) ==> Apart(Put(c, key, e), d) && Apart(d, Put(c, key, e))
  {
    PutLaws(c, key, e);
  }

  lemma {:induction false} RemovedOk(b: Bank, t: TierName, key: string)
    requires Ok(b) && Has(TierIn(b, t), key)
    ensures Ok(WithTier(b, t, Remove(TierIn(b, t), key)))
    ensures forall k :: Knows(WithTier(b, t, Remove(TierIn(b, t), key)), k) <==> k != key && Knows(b, k)
  {
    RemoveOk(TierIn(b, t), t, key);
    RemoveLaws(TierIn(b, t), key);
  }

  /** The key an eviction from `t` would drop for good, if it drops one. */
  function Victim(b: Bank, t: TierName): Option<string> {
    var d := TierIn(b, t);
    if TierMax(t) <= |d| && d != [] && !(t.Working? && |b.archival| < ARCHIVAL_MAX) then Some(d[Lowest(d)].0) else None
  }

  /** Making room leaves room, keeps the invariant, and loses the victim only. */
  lemma {:induction false} WithRoomOk(b: Bank, t: TierName, now: int)
    requires Ok(b)
    ensures Ok(WithRoom(b, t, now)) && |TierIn(WithRoom(b, t, now), t)| < TierMax(t)
    ensures forall k :: Knows(WithRoom(b, t, now), k) <==> Knows(b, k) && Victim(b, t) != Some(k)
  {
    var d := TierIn(b, t);
    if TierMax(t) <= |d| {
      var (k, e) := d[Lowest(d)];
      FindAt(d, Lowest(d));
      RemovedOk(b, t, k);
      var b' := WithTier(b, t, Remove(d, k));
      if t.Working? && |b.archival| < ARCHIVAL_MAX {
        CategoriesFit();
        StoredOk(b', Archival, k, Moved(e, "archival", now));
        assert Evicted(b, t, now) == Stored(b', Archival, k, Moved(e, "archival", now));
      }
    }
  }

  /** Removing a key here and storing it there, with room made in between. */
  lemma {:induction false} RehousedOk(b: Bank, from: TierName, to: TierName, key: string, e: MemoryEntry, now: int)
    requires Ok(b) && from != to && Has(TierIn(b, from), key) && TierOf(e.category) == to
    ensures var cleared := WithTier(b, from, Remove(TierIn(b, from), key));
            var after := Stored(WithRoom(cleared, to, now), to, key, e);
            && Ok(after) && Has(TierIn(after, to), key)
            && forall k :: Knows(after, k) <==> Knows(b, k) && Victim(cleared, to) != Some(k)
  {
    var cleared := WithTier(b, from, Remove(TierIn(b, from), key));
    RemovedOk(b, from, key);
    WithRoomOk(cleared, to, now);
    StoredOk(WithRoom(cleared, to, now), to, key, e);
    PutLaws(TierIn(WithRoom(cleared, to, now), to), key, e);
    if Victim(cleared, to) == Some(key) {
      FindAt(TierIn(cleared, to), Lowest(TierIn(cleared, to)));
    }
  }

  /** The key that `remember` drops for good, besides the one it stores. */
  function RememberDrops(b: Bank, n: Note): Option<string> {
    var t := TierOf(n.category);
    if Has(TierIn(b, t), n.key) then None
    else
      match OtherHome(b, t, n.key)
      case Some(o) => Victim(WithTier(b, o, Remove(TierIn(b, o), n.key)), t)
      case None => Victim(b, t)
  }

  /**
   `remember` ends with the new key known and drops at most one other: the
   lowest of the target tier, when that tier is full and, for working memory,
   archival is full too.
   */
  lemma {:induction false} RememberKeepsAllButOne(b: Bank, n: Note, now: int)
    requires Ok(b)
    ensures Ok(Remembered(b, n, now))
    ensures forall k :: Knows(Remembered(b, n, now), k) <==>
              k == n.key || (Knows(b, k) && RememberDrops(b, n) != Some(k))
  {
    var t := TierOf(n.category);
    if Has(TierIn(b, t), n.key) {
      StoredOk(b, t, n.key, Rewritten(Get(TierIn(b, t), n.key), n, now));
    } else if OtherHome(b, t, n.key).Some? {
      var o := OtherHome(b, t, n.key).value;
      RehousedOk(b, o, t, n.key, Rewritten(Get(TierIn(b, o), n.key), n, now), now);
    } else {
      WithRoomOk(b, t, now);
      StoredOk(WithRoom(b, t, now), t, n.key,
               MemoryEntry(n.value, n.category, n.importance, 0, now, now, None, n.source));
    }
  }

  /** The entry `remember` stores and returns. */
  function RememberedEntry(b: Bank, n: Note, now: int): MemoryEntry {
    var t := TierOf(n.category);
    if Has(TierIn(b, t), n.key) then Rewritten(Get(TierIn(b, t), n.key), n, now)
    else
      match OtherHome(b, t, n.key)
      case Some(o) => Rewritten(Get(TierIn(b, o), n.key), n, now)
      case None => MemoryEntry(n.value, n.category, n.importance, 0, now, now, None, n.source)
  }

  lemma {:induction false} RememberedHolds(b: Bank, n: Note, now: int)
    requires Ok(b)
    ensures var d, e := TierIn(Remembered(b, n, now), TierOf(n.category)), RememberedEntry(b, n, now);
            Has(d, n.key) && Get(d, n.key) == e && e.value == n.value && e.category == n.category
                && e.importance == n.importance
  {
    var t := TierOf(n.category);
    if Has(TierIn(b, t), n.key) {
      PutLaws(TierIn(b, t), n.key, RememberedEntry(b, n, now));
    } else if OtherHome(b, t, n.key).Some? {
      var o := OtherHome(b, t, n.key).value;
      RemovedOk(b, o, n.key);
      var cleared := WithTier(b, o, Remove(TierIn(b, o), n.key));
      WithRoomOk(cleared, t, now);
      PutLaws(TierIn(WithRoom(cleared, t, now), t), n.key, RememberedEntry(b, n, now));
    } else {
      WithRoomOk(b, t, now);
      PutLaws(TierIn(WithRoom(b, t, now), t), n.key, RememberedEntry(b, n, now));
    }
  }

  /** What is dropped is a lowest entry of the target tier, and only when there is nowhere to put it. */
  lemma {:induction false} DroppedIsLowest(b: Bank, n: Note)
    requires Ok(b) && RememberDrops(b, n).Some?
    ensures var t, k := TierOf(n.category), RememberDrops(b, n).value;
            && |TierIn(b, t)| == TierMax(t) && Has(TierIn(b, t), k)
            && (forall j :: 0 <= j < |TierIn(b, t)| ==> !Lower(TierIn(b, t)[j].1, Get(TierIn(b, t), k)))
            && (t.Working? ==> |b.archival| == ARCHIVAL_MAX && !Has(b.archival, n.key))
  {
    var t := TierOf(n.category);
    match OtherHome(b, t, n.key)
    case Some(o) =>
      RemovedOk(b, o, n.key);
      VictimIsLowest(WithTier(b, o, Remove(TierIn(b, o), n.key)), t);
    case None => VictimIsLowest(b, t);
  }

  lemma {:induction false} VictimIsLowest(b: Bank, t: TierName)
    requires Ok(b) && Victim(b, t).Some?
    ensures var d, k := TierIn(b, t), Victim(b, t).value;
            && |d| == TierMax(t) && Has(d, k) && (forall j :: 0 <= j < |d| ==> !Lower(d[j].1, Get(d, k)))
            && (t.Working? ==> |b.archival| == ARCHIVAL_MAX)
  {
    FindAt(TierIn(b, t), Lowest(TierIn(b, t)));
  }

  /** `promote` never loses a key: the slot it frees in archival takes what working memory evicts. */
  lemma {:induction false} PromoteLosesNothing(b: Bank, key: string, now: int)
    requires Ok(b)
    ensures Ok(Promoted(b, key, now)) && forall k :: Knows(Promoted(b, key, now), k) <==> Knows(b, k)
    ensures Has(b.archival, key) ==> Has(Promoted(b, key, now).working, key)
  {
    if Has(b.archival, key) {
      var e, cleared := Moved(Get(b.archival, key), "working", now), WithTier(b, Archival, Remove(b.archival, key));
      CategoriesFit();
      RehousedOk(b, Archival, Working, key, e, now);
      assert Victim(cleared, Working).None?;
      assert Promoted(b, key, now) == Stored(WithRoom(cleared, Working, now), Working, key, e);
    }
  }

  /** `demote` loses a key exactly when archival is full, and then archival's lowest. */
  lemma {:induction false} DemoteLoses(b: Bank, key: string, now: int)
    requires Ok(b)
    ensures Ok(Demoted(b, key, now))
    ensures forall k :: Knows(Demoted(b, key, now), k) <==>
              Knows(b, k) && !(Has(b.working, key) && |b.archival| == ARCHIVAL_MAX
                               && k == b.archival[Lowest(b.archival)].0)
  {
    if Has(b.working, key) {
      CategoriesFit();
      RehousedOk(b, Working, Archival, key, Moved(Get(b.working, key), "archival", now), now);
    }
  }

  // ---- consolidation ---------------------------------------------------------------

  lemma {:induction false} FilterTier(d: Tier, p: Item -> bool)
    requires Distinct(d)
    ensures Distinct(Filter(d, p))
    ensures forall k :: Has(Filter(d, p), k) <==> Has(d, k) && p((k, Get(d, k)))
  {
    var f := Filter(d, p);
    FilterDistinct(d, p);
    forall k ensures Has(f, k) <==> Has(d, k) && p((k, Get(d, k))) {
      if Has(f, k) {
        var x := f[Find(f, k)];
        FilterMember(d, p, x);
        var i :| 0 <= i < |d| && d[i] == x;
        FindAt(d, i);
      }
      if Has(d, k) && p((k, Get(d, k))) {
        assert d[Find(d, k)] == (k, Get(d, k));
        FilterMember(d, p, (k, Get(d, k)));
        var i :| 0 <= i < |f| && f[i] == (k, Get(d, k));
      }
    }
  }

  lemma {:induction false} FilterDistinct(d: Tier, p: Item -> bool)
    requires Distinct(d)
    ensures Distinct(Filter(d, p))
  {
    if d != [] {
      var n := |d| - 1;
      FilterDistinct(d[..n], p);
      var f := Filter(d[..n], p);
      forall i | 0 <= i < |f| ensures f[i].0 != d[n].0 {
        FilterMember(d[..n], p, f[i]);
        assert f[i] in f;
      }
    }
  }

  lemma {:induction false} FilterOk(d: Tier, t: TierName, p: Item -> bool)
    requires TierOk(d, t)
    ensures TierOk(Filter(d, p), t)
  {
    var f := Filter(d, p);
    FilterDistinct(d, p);
    forall i | 0 <= i < |f| ensures TierOf(f[i].1.category) == t {
      FilterMember(d, p, f[i]);
      assert f[i] in f;
    }
  }

  lemma {:induction false} ExpiredOk(b: Bank, now: int)
    requires Ok(b)
    ensures Ok(Expired(b, now))
  {
    FilterOk(b.working, Working, Alive(now));
    FilterOk(b.archival, Archival, Alive(now));
    FilterOk(b.persona, Persona, Alive(now));
    FilterTier(b.working, Alive(now));
    FilterTier(b.archival, Alive(now));
    FilterTier(b.persona, Alive(now));
  }

  /** Appending some idle entries of working memory to archival, under the archival category. */
  lemma {:induction false} AppendArchivalOk(b: Bank, m: nat, now: int)
    requires Ok(b) && m <= |Filter(b.working, Idle)| && |b.archival| + m <= ARCHIVAL_MAX
    ensures TierOk(b.archival + AsArchival(Filter(b.working, Idle)[..m], now), Archival)
    ensures forall k :: Has(b.archival + AsArchival(Filter(b.working, Idle)[..m], now), k) ==>
              Has(b.archival, k) || (Has(b.working, k) && !Has(Filter(b.working, Busy), k))
  {
    var moved := Filter(b.working, Idle)[..m];
    var a := b.archival + AsArchival(moved, now);
    CategoriesFit();
    FilterTier(b.working, Idle);
    FilterTier(b.working, Busy);
    forall i | 0 <= i < m ensures Has(Filter(b.working, Idle), moved[i].0) && Has(b.working, moved[i].0) {
      FindAt(Filter(b.working, Idle), i);
    }
    forall i, j | 0 <= i < j < |a| ensures a[i].0 != a[j].0 {
      if j >= |b.archival| {
        assert Has(b.working, moved[j - |b.archival|].0);
        if i < |b.archival| { FindAt(b.archival, i); }
      }
    }
    forall k | Has(a, k) ensures Has(b.archival, k) || (Has(b.working, k) && !Has(Filter(b.working, Busy), k)) {
      var i := Find(a, k);
      if i < |b.archival| { FindAt(b.archival, i); } else { assert a[i].0 == moved[i - |b.archival|].0; }
    }
  }

  /**
   `consolidate` keeps the invariant and shrinks the bank by exactly the expired
   entries and the demoted ones beyond archival's free slots.
   */
  lemma {:induction false} ConsolidateShrinksExactly(b: Bank, now: int)
    requires Ok(b)
    ensures Ok(Consolidated(b, now))
    ensures var e := Expired(b, now);
            var demoted, free := |Filter(e.working, Idle)|, ARCHIVAL_MAX - |e.archival|;
            Size(b) == Size(Consolidated(b, now)) + ExpiredCount(b, now) + if free < demoted then demoted - free else 0
  {
    var e := Expired(b, now);
    ExpiredOk(b, now);
    FilterOk(e.working, Working, Busy);
    FilterTier(e.working, Busy);
    AppendArchivalOk(e, Kept(e), now);
    IdleOrBusy(e.working);
    DeadOrAlive(b.working, now);
    DeadOrAlive(b.archival, now);
    DeadOrAlive(b.persona, now);
  }

  function Dead(now: int): Item -> bool { (x: Item) => IsExpired(x.1, now) }

  function ExpiredCount(b: Bank, now: int): nat {
    |Filter(b.working, Dead(now))| + |Filter(b.archival, Dead(now))| + |Filter(b.persona, Dead(now))|
  }

  lemma {:induction false} DeadOrAlive(d: Tier, now: int)
    ensures |Filter(d, Dead(now))| + |Filter(d, Alive(now))| == |d|
  {
    if d != [] {
      DeadOrAlive(d[..|d| - 1], now);
    }
  }

  lemma {:induction false} IdleOrBusy(d: Tier)
    ensures |Filter(d, Idle)| + |Filter(d, Busy)| == |d|
  {
    if d != [] {
      IdleOrBusy(d[..|d| - 1]);
    }
  }

  // ---- runs --------------------------------------------------------------------------

  lemma {:induction false} StepKeepsOk(b: Bank, op: Op)
    requires Ok(b)
    ensures Ok(Step(b, op))
  {
    match op
    case Remember(n, now) => RememberKeepsAllButOne(b, n, now);
    case Forget(key) => ForgetRemovesOne(b, key);
    case Recall(key) => RecallKeepsKeys(b, key);
    case Promote(key, now) => PromoteLosesNothing(b, key, now);
    case Demote(key, now) => DemoteLoses(b, key, now);
    case Consolidate(now) => ConsolidateShrinksExactly(b, now);
  }

  lemma {:induction false} ForgetRemovesOne(b: Bank, key: string)
    requires Ok(b)
    ensures Ok(Forgotten(b, key)) && forall k :: Knows(Forgotten(b, key), k) <==> k != key && Knows(b, k)
  {
    if Home(b, key).Some? { RemovedOk(b, Home(b, key).value, key); }
  }

  lemma {:induction false} HomeFits(b: Bank, key: string)
    requires Ok(b) && Home(b, key).Some?
    ensures var t := Home(b, key).value; Has(TierIn(b, t), key) && TierOf(Get(TierIn(b, t), key).category) == t
  {
  }

  lemma {:induction false} RecallKeepsKeys(b: Bank, key: string)
    requires Ok(b)
    ensures Ok(Recalled(b, key)) && forall k :: Knows(Recalled(b, key), k) <==> Knows(b, k)
  {
    if Home(b, key).Some? {
      var t := Home(b, key).value;
      var e := Get(TierIn(b, t), key);
      HomeFits(b, key);
      StoredOk(b, t, key, e.(accessCount := e.accessCount + 1));
      forall k ensures Knows(Recalled(b, key), k) <==> Knows(b, k) {}
    }
  }

  /** From an empty bank, every run keeps the tiers disjoint, bounded and sorted by category. */
  lemma {:induction false} EveryRunIsOk(ops: seq<Op>)
    ensures Ok(Run(Bank([], [], []), ops))
  {
    if ops != [] {
      EveryRunIsOk(ops[..|ops| - 1]);
      StepKeepsOk(Run(Bank([], [], []), ops[..|ops| - 1]), ops[|ops| - 1]);
    }
  }
}
