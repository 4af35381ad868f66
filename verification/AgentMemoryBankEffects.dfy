/**
 What the operations of the memory bank do to its entries, position by position and
 field by field: what is evicted, what moves where, what is rewritten and what stays.
 */
module AgentMemoryBankEffects {
  import opened Options
  import opened OrderedDict
  import opened Sorting
  import opened AgentMemoryBanks

  ghost predicate HeldAt(d: Tier, key: string, i: int) { 0 <= i < |d| && d[i].0 == key }

  ghost predicate Missing(d: Tier, key: string) { forall i :: !HeldAt(d, key, i) }

  /** The tier without the entry at a position. */
  ghost predicate CutAt(d: Tier, i: int, d': Tier) { 0 <= i < |d| && d' == d[..i] + d[i + 1..] }

  ghost predicate Without(d: Tier, key: string, d': Tier) {
    (Missing(d, key) && d' == d) || exists i :: HeldAt(d, key, i) && CutAt(d, i, d')
  }

  /** The entry under a new category at a new time; all else is kept. */
  ghost predicate Refiled(e: MemoryEntry, category: string, now: int, e': MemoryEntry) {
    e' == MemoryEntry(e.value, category, e.importance, e.accessCount, e.createdAt, now, e.expiresAt, e.source)
  }

  /** No entry is less important, or as important and less often recalled; and it is the first such. */
  ghost predicate FirstLowest(d: Tier, i: int) {
    && 0 <= i < |d|
    && forall j :: 0 <= j < |d| ==> RanksBefore(d, i, j)
  }

  ghost predicate RanksBefore(d: Tier, i: int, j: int)
    requires 0 <= i < |d| && 0 <= j < |d|
  {
    var e, o := d[i].1, d[j].1;
    || e.importance < o.importance
    || (e.importance == o.importance && e.accessCount < o.accessCount)
    || (e.importance == o.importance && e.accessCount == o.accessCount && i <= j)
  }

  /** The entry at `i` leaves working memory, for the end of archival if there is room. */
  ghost predicate FallsOut(b: Bank, now: int, b': Bank, i: int) {
    && FirstLowest(b.working, i) && CutAt(b.working, i, b'.working) && b'.persona == b.persona
    && (|b.archival| >= 100 ==> b'.archival == b.archival)
    && (|b.archival| < 100 ==>
          |b'.archival| == |b.archival| + 1 && b.archival <= b'.archival
          && b'.archival[|b.archival|].0 == b.working[i].0
          && Refiled(b.working[i].1, "archival", now, b'.archival[|b.archival|].1))
  }

  ghost predicate EvictedTo(b: Bank, t: TierName, now: int, b': Bank) {
    match t
    case Working => if b.working == [] then b' == b else exists i :: FallsOut(b, now, b', i)
    case Archival =>
      if b.archival == [] then b' == b
      else b'.working == b.working && b'.persona == b.persona
           && exists i :: FirstLowest(b.archival, i) && CutAt(b.archival, i, b'.archival)
    case Persona =>
      if b.persona == [] then b' == b
      else b'.working == b.working && b'.archival == b.archival
           && exists i :: FirstLowest(b.persona, i) && CutAt(b.persona, i, b'.persona)
  }

  ghost predicate MakesRoom(b: Bank, t: TierName, now: int, b': Bank) {
    var full := match t case Working => |b.working| >= 10
                        case Archival => |b.archival| >= 100
                        case Persona => |b.persona| >= 5;
    if full then EvictedTo(b, t, now, b') else b' == b
  }

  /** The key goes from its position in archival to the end of working memory. */
  ghost predicate PromotedAt(b: Bank, key: string, now: int, b': Bank, i: int, cleared: Bank, room: Bank,
                             e: MemoryEntry)
  {
    && HeldAt(b.archival, key, i) && CutAt(b.archival, i, cleared.archival)
    && cleared.working == b.working && cleared.persona == b.persona
    && MakesRoom(cleared, Working, now, room)
    && Refiled(b.archival[i].1, "working", now, e)
    && b' == Bank(room.working + [(key, e)], room.archival, room.persona)
  }

  ghost predicate PromotedTo(b: Bank, key: string, now: int, b': Bank) {
    || (Missing(b.archival, key) && b' == b)
    || exists i, cleared, room, e :: PromotedAt(b, key, now, b', i, cleared, room, e)
  }

  ghost predicate DemotedAt(b: Bank, key: string, now: int, b': Bank, i: int, cleared: Bank, room: Bank,
                            e: MemoryEntry)
  {
    && HeldAt(b.working, key, i) && CutAt(b.working, i, cleared.working)
    && cleared.archival == b.archival && cleared.persona == b.persona
    && MakesRoom(cleared, Archival, now, room)
    && Refiled(b.working[i].1, "archival", now, e)
    && b' == Bank(room.working, room.archival + [(key, e)], room.persona)
  }

  ghost predicate DemotedTo(b: Bank, key: string, now: int, b': Bank) {
    || (Missing(b.working, key) && b' == b)
    || exists i, cleared, room, e :: DemotedAt(b, key, now, b', i, cleared, room, e)
  }

  /** Every entry is as it was, but the key's has been recalled once more. */
  ghost predicate RecalledIn(d: Tier, key: string, d': Tier) {
    |d'| == |d| && forall i :: 0 <= i < |d| ==>
      var e := d[i].1;
      var e' := MemoryEntry(e.value, e.category, e.importance, e.accessCount + 1, e.createdAt, e.updatedAt,
                            e.expiresAt, e.source);
      d'[i] == (d[i].0, if d[i].0 == key then e' else e)
  }

  ghost predicate RecalledTo(b: Bank, key: string, b': Bank) {
    && RecalledIn(b.working, key, b'.working) && RecalledIn(b.archival, key, b'.archival)
    && RecalledIn(b.persona, key, b'.persona)
  }

  /** What a note makes of the entry under its key. */
  ghost predicate Renewed(e: MemoryEntry, n: Note, now: int, e': MemoryEntry) {
    e' == MemoryEntry(n.value, n.category, n.importance, e.accessCount, e.createdAt, now, e.expiresAt,
                      if n.source == "" then e.source else n.source)
  }

  ghost predicate ReplacedAt(d: Tier, key: string, i: int, e: MemoryEntry, d': Tier) {
    HeldAt(d, key, i) && d' == d[i := (key, e)]
  }

  /** Where an entry of the category belongs. */
  ghost predicate Belongs(category: string, t: TierName) {
    match t
    case Working => category != "persona" && category != "archival" && category != "lesson" && category != "pattern"
    case Archival => category == "archival" || category == "lesson" || category == "pattern"
    case Persona => category == "persona"
  }

  ghost predicate Appended(b: Bank, t: TierName, key: string, e: MemoryEntry, b': Bank) {
    match t
    case Working => b' == Bank(b.working + [(key, e)], b.archival, b.persona)
    case Archival => b' == Bank(b.working, b.archival + [(key, e)], b.persona)
    case Persona => b' == Bank(b.working, b.archival, b.persona + [(key, e)])
  }

  ghost predicate Replaced(b: Bank, t: TierName, key: string, i: int, e: MemoryEntry, b': Bank) {
    match t
    case Working => ReplacedAt(b.working, key, i, e, b'.working) && b' == Bank(b'.working, b.archival, b.persona)
    case Archival => ReplacedAt(b.archival, key, i, e, b'.archival) && b' == Bank(b.working, b'.archival, b.persona)
    case Persona => ReplacedAt(b.persona, key, i, e, b'.persona) && b' == Bank(b.working, b.archival, b'.persona)
  }

  ghost predicate Cleared(b: Bank, key: string, b': Bank) {
    && Without(b.working, key, b'.working) && Without(b.archival, key, b'.archival)
    && Without(b.persona, key, b'.persona)
  }

  ghost predicate Holds(b: Bank, key: string, e: MemoryEntry) {
    (key, e) in b.working || (key, e) in b.archival || (key, e) in b.persona
  }

  /** The entry a note leaves under its key: a new one, or the old one renewed. */
  ghost predicate EntryFor(b: Bank, n: Note, now: int, e: MemoryEntry) {
    || (exists o :: Holds(b, n.key, o) && Renewed(o, n, now, e))
    || ((forall o :: !Holds(b, n.key, o))
        && e == MemoryEntry(n.value, n.category, n.importance, 0, now, now, None, n.source))
  }

  /** It keeps its place in the tier it belongs to, or goes to the end of it, after room was made there. */
  ghost predicate RememberedTo(b: Bank, n: Note, now: int, b': Bank, t: TierName, e: MemoryEntry) {
    && Belongs(n.category, t) && EntryFor(b, n, now, e)
    && ((exists i :: Replaced(b, t, n.key, i, e, b'))
        || exists cleared, room :: StoredAnew(b, n, now, b', t, e, cleared, room))
  }

  ghost predicate StoredAnew(b: Bank, n: Note, now: int, b': Bank, t: TierName, e: MemoryEntry,
                             cleared: Bank, room: Bank)
  {
    && Missing(TierIn(b, t), n.key) && Cleared(b, n.key, cleared)
    && MakesRoom(cleared, t, now, room) && Appended(room, t, n.key, e, b')
  }

  function Unexpired(now: int): Item -> bool { (x: Item) => x.1.expiresAt.None? || now < x.1.expiresAt.value }

  function Overdue(now: int): Item -> bool { (x: Item) => x.1.expiresAt.Some? && x.1.expiresAt.value <= now }

  function Idling(now: int): Item -> bool {
    (x: Item) => Unexpired(now)(x) && x.1.accessCount == 0 && x.1.importance < 0.3
  }

  function Needed(now: int): Item -> bool {
    (x: Item) => Unexpired(now)(x) && (x.1.accessCount != 0 || x.1.importance >= 0.3)
  }

  /**
   Expired entries are gone everywhere. Of the others, those of working memory that were never
   recalled and are of an importance below 0.3 follow those of archival, as many as fit in 100.
   */
  ghost predicate ConsolidatedTo(b: Bank, now: int, b': Bank) {
    var a, m := Filter(b.archival, Unexpired(now)), Filter(b.working, Idling(now));
    && b'.working == Filter(b.working, Needed(now)) && b'.persona == Filter(b.persona, Unexpired(now))
    && FilledUp(a, m, now, b'.archival)
  }

  ghost predicate FilledUp(a: Tier, m: Tier, now: int, a': Tier) {
    && a <= a' && |a'| == (if |a| + |m| <= 100 then |a| + |m| else 100)
    && forall i :: |a| <= i < |a'| ==> RefiledItem(m[i - |a|], now, a'[i])
  }

  ghost predicate RefiledItem(x: Item, now: int, x': Item) { x'.0 == x.0 && Refiled(x.1, "archival", now, x'.1) }

  // ---- the operations do just that -------------------------------------------------------

  lemma {:induction false} RemoveIsWithout(d: Tier, key: string)
    ensures Without(d, key, Remove(d, key))
    ensures Has(d, key) <==> !Missing(d, key)
  {
    if Has(d, key) {
      var i := Find(d, key);
      assert HeldAt(d, key, i) && CutAt(d, i, Remove(d, key));
    } else {
      assert forall i :: 0 <= i < |d| ==> d[i].0 != key;
    }
  }

  lemma {:induction false} LowestIsFirst(d: Tier)
    requires d != []
    ensures FirstLowest(d, Lowest(d))
  {
    forall j | 0 <= j < |d| ensures RanksBefore(d, Lowest(d), j) {
      if j < Lowest(d) { assert Lower(d[Lowest(d)].1, d[j].1); }
    }
  }

  lemma {:induction false} EvictEffects(b: Bank, t: TierName, now: int)
    requires Ok(b)
    ensures EvictedTo(b, t, now, Evicted(b, t, now))
  {
    var d, b' := TierIn(b, t), Evicted(b, t, now);
    if d != [] {
      var i := Lowest(d);
      LowestIsFirst(d);
      FindAt(d, i);
      if t.Working? {
        assert FallsOut(b, now, b', i);
      } else {
        assert FirstLowest(d, i) && CutAt(d, i, TierIn(b', t));
      }
    }
  }

  lemma {:induction false} RoomEffects(b: Bank, t: TierName, now: int)
    requires Ok(b)
    ensures MakesRoom(b, t, now, WithRoom(b, t, now))
  {
    EvictEffects(b, t, now);
  }

  lemma {:induction false} PromoteEffects(b: Bank, key: string, now: int)
    requires Ok(b)
    ensures PromotedTo(b, key, now, Promoted(b, key, now))
  {
    RemoveIsWithout(b.archival, key);
    if Has(b.archival, key) {
      var i, cleared := Find(b.archival, key), b.(archival := Remove(b.archival, key));
      var room, e := WithRoom(cleared, Working, now), Moved(Get(b.archival, key), "working", now);
      RemovedOk(b, Archival, key);
      RoomEffects(cleared, Working, now);
      WithRoomOk(cleared, Working, now);
      assert !Knows(room, key);
      assert PromotedAt(b, key, now, Promoted(b, key, now), i, cleared, room, e);
    }
  }

  lemma {:induction false} DemoteEffects(b: Bank, key: string, now: int)
    requires Ok(b)
    ensures DemotedTo(b, key, now, Demoted(b, key, now))
  {
    RemoveIsWithout(b.working, key);
    if Has(b.working, key) {
      var i, cleared := Find(b.working, key), b.(working := Remove(b.working, key));
      var room, e := WithRoom(cleared, Archival, now), Moved(Get(b.working, key), "archival", now);
      RemovedOk(b, Working, key);
      RoomEffects(cleared, Archival, now);
      WithRoomOk(cleared, Archival, now);
      assert !Knows(room, key);
      assert DemotedAt(b, key, now, Demoted(b, key, now), i, cleared, room, e);
    }
  }

  lemma {:induction false} ForgetEffects(b: Bank, key: string)
    requires Ok(b)
    ensures Cleared(b, key, Forgotten(b, key))
  {
    RemoveIsWithout(b.working, key);
    RemoveIsWithout(b.archival, key);
    RemoveIsWithout(b.persona, key);
  }

  lemma {:induction false} RecalledOnce(d: Tier, key: string)
    requires Distinct(d) && Has(d, key)
    ensures var e := Get(d, key); RecalledIn(d, key, Put(d, key, e.(accessCount := e.accessCount + 1)))
  {
    forall i | 0 <= i < |d| && d[i].0 == key ensures i == Find(d, key) { FindAt(d, i); }
  }

  lemma {:induction false} NotRecalled(d: Tier, key: string)
    requires !Has(d, key)
    ensures RecalledIn(d, key, d)
  {
    assert forall i :: 0 <= i < |d| ==> d[i].0 != key;
  }

  lemma {:induction false} RecallEffects(b: Bank, key: string)
    requires Ok(b)
    ensures RecalledTo(b, key, Recalled(b, key))
  {
    var home := Home(b, key);
    if home != Some(Working) { NotRecalled(b.working, key); } else { RecalledOnce(b.working, key); }
    if home != Some(Archival) { NotRecalled(b.archival, key); } else { RecalledOnce(b.archival, key); }
    if home != Some(Persona) { NotRecalled(b.persona, key); } else { RecalledOnce(b.persona, key); }
  }

  lemma {:induction false} CategoryBelongs(category: string)
    ensures Belongs(category, TierOf(category))
  {
    var three := ["archival", "lesson", "pattern"];
    assert three[0] == "archival" && three[1] == "lesson" && three[2] == "pattern";
  }

  lemma {:induction false} HeldInTier(d: Tier, key: string)
    requires Distinct(d)
    ensures Has(d, key) ==> (key, Get(d, key)) in d
    ensures forall e :: (key, e) in d ==> Has(d, key) && e == Get(d, key)
  {
    if Has(d, key) { assert d[Find(d, key)] == (key, Get(d, key)); }
    forall e | (key, e) in d ensures Has(d, key) && e == Get(d, key) {
      var i :| 0 <= i < |d| && d[i] == (key, e);
      FindAt(d, i);
    }
  }

  /** What `recall` returns. */
  function RecalledEntry(b: Bank, key: string): Option<MemoryEntry> {
    match Home(b, key)
    case None => None
    case Some(t) => var e := Get(TierIn(b, t), key); Some(e.(accessCount := e.accessCount + 1))
  }

  lemma {:induction false} RecalledHolds(b: Bank, key: string)
    requires Ok(b)
    ensures RecalledEntry(b, key).Some? <==> Knows(b, key)
    ensures RecalledEntry(b, key).Some? ==> Holds(Recalled(b, key), key, RecalledEntry(b, key).value)
  {
    if Home(b, key).Some? {
      var d, e := TierIn(b, Home(b, key).value), RecalledEntry(b, key).value;
      PutLaws(d, key, e);
      HeldInTier(Put(d, key, e), key);
    }
  }

  lemma {:induction false} EntryForNote(b: Bank, n: Note, now: int)
    requires Ok(b)
    ensures EntryFor(b, n, now, RememberedEntry(b, n, now))
  {
    HeldInTier(b.working, n.key);
    HeldInTier(b.archival, n.key);
    HeldInTier(b.persona, n.key);
    var t, e := TierOf(n.category), RememberedEntry(b, n, now);
    if Has(TierIn(b, t), n.key) {
      assert Holds(b, n.key, Get(TierIn(b, t), n.key)) && Renewed(Get(TierIn(b, t), n.key), n, now, e);
    } else if OtherHome(b, t, n.key).Some? {
      var o := OtherHome(b, t, n.key).value;
      assert Holds(b, n.key, Get(TierIn(b, o), n.key)) && Renewed(Get(TierIn(b, o), n.key), n, now, e);
    } else {
      assert forall o :: !Holds(b, n.key, o);
    }
  }

  lemma {:induction false} RememberEffects(b: Bank, n: Note, now: int)
    requires Ok(b)
    ensures RememberedTo(b, n, now, Remembered(b, n, now), TierOf(n.category), RememberedEntry(b, n, now))
  {
    var t, e, b' := TierOf(n.category), RememberedEntry(b, n, now), Remembered(b, n, now);
    CategoryBelongs(n.category);
    EntryForNote(b, n, now);
    RemoveIsWithout(TierIn(b, t), n.key);
    if Has(TierIn(b, t), n.key) {
      assert Replaced(b, t, n.key, Find(TierIn(b, t), n.key), e, b');
    } else {
      StoredElsewhere(b, n, now);
    }
  }

  lemma {:induction false} StoredElsewhere(b: Bank, n: Note, now: int)
    requires Ok(b) && !Has(TierIn(b, TierOf(n.category)), n.key)
    ensures var t, e, b' := TierOf(n.category), RememberedEntry(b, n, now), Remembered(b, n, now);
            exists cleared, room :: StoredAnew(b, n, now, b', t, e, cleared, room)
  {
    var t, e, b', cleared := TierOf(n.category), RememberedEntry(b, n, now), Remembered(b, n, now), Forgotten(b, n.key);
    var room := WithRoom(cleared, t, now);
    ForgetEffects(b, n.key);
    ForgetRemovesOne(b, n.key);
    RemoveIsWithout(TierIn(b, t), n.key);
    assert cleared == match OtherHome(b, t, n.key)
                      case Some(o) => WithTier(b, o, Remove(TierIn(b, o), n.key))
                      case None => b;
    RoomEffects(cleared, t, now);
    WithRoomOk(cleared, t, now);
    assert !Knows(room, n.key);
    assert StoredAnew(b, n, now, b', t, e, cleared, room);
  }

  lemma {:induction false} AliveFilters(d: Tier, now: int)
    ensures Filter(d, Alive(now)) == Filter(d, Unexpired(now))
    ensures Filter(Filter(d, Alive(now)), Idle) == Filter(d, Idling(now))
    ensures Filter(Filter(d, Alive(now)), Busy) == Filter(d, Needed(now))
  {
    FilterCongruent(d, Alive(now), Unexpired(now));
    FilterFilter(d, Alive(now), Idle);
    FilterFilter(d, Alive(now), Busy);
    FilterCongruent(d, Both(Alive(now), Idle), Idling(now));
    FilterCongruent(d, Both(Alive(now), Busy), Needed(now));
  }

  lemma {:induction false} OverdueAreDead(b: Bank, now: int)
    ensures ExpiredCount(b, now) == |Filter(b.working, Overdue(now))| + |Filter(b.archival, Overdue(now))|
                                    + |Filter(b.persona, Overdue(now))|
  {
    FilterCongruent(b.working, Dead(now), Overdue(now));
    FilterCongruent(b.archival, Dead(now), Overdue(now));
    FilterCongruent(b.persona, Dead(now), Overdue(now));
  }

  lemma {:induction false} ArchivalFilledUp(b: Bank, now: int)
    requires Ok(b)
    ensures FilledUp(b.archival, Filter(b.working, Idle), now, IdleDemoted(b, now).archival)
  {
  }

  lemma {:induction false} ConsolidateEffects(b: Bank, now: int)
    requires Ok(b)
    ensures ConsolidatedTo(b, now, Consolidated(b, now))
  {
    ExpiredOk(b, now);
    AliveFilters(b.working, now);
    AliveFilters(b.archival, now);
    AliveFilters(b.persona, now);
    ArchivalFilledUp(Expired(b, now), now);
  }

  // ---- what every operation keeps of an entry, wherever it moves --------------------------

  /** The same but for category and time of update, recalled so many times more. */
  ghost predicate Alike(e: MemoryEntry, e': MemoryEntry, recalls: int) {
    && e'.value == e.value && e'.importance == e.importance && e'.accessCount == e.accessCount + recalls
    && e'.createdAt == e.createdAt && e'.expiresAt == e.expiresAt && e'.source == e.source
  }

  ghost predicate ComesFrom(b: Bank, key: string, e': MemoryEntry, recalls: int) {
    exists e :: Holds(b, key, e) && Alike(e, e', recalls)
  }

  lemma {:induction false} Stays(b: Bank, key: string, e: MemoryEntry)
    requires Holds(b, key, e)
    ensures ComesFrom(b, key, e, 0)
  {
    assert Alike(e, e, 0);
  }

  lemma {:induction false} CutKeeps(d: Tier, i: int, d': Tier, x: Item)
    requires CutAt(d, i, d') && x in d'
    ensures x in d
  {
  }

  lemma {:induction false} FallKeeps(b: Bank, now: int, b': Bank, i: int, key: string, e: MemoryEntry)
    requires FallsOut(b, now, b', i) && Holds(b', key, e)
    ensures ComesFrom(b, key, e, 0)
  {
    if (key, e) in b'.working {
      CutKeeps(b.working, i, b'.working, (key, e));
      Stays(b, key, e);
    } else if (key, e) in b.archival || (key, e) in b.persona {
      Stays(b, key, e);
    } else {
      var n := |b.archival|;
      assert b'.archival[..n] == b.archival && (key, e) == b'.archival[n];
      assert b.working[i] in b.working;
      assert Holds(b, key, b.working[i].1) && Alike(b.working[i].1, e, 0);
    }
  }

  lemma {:induction false} RoomKeeps(b: Bank, t: TierName, now: int, b': Bank, key: string, e: MemoryEntry)
    requires MakesRoom(b, t, now, b') && Holds(b', key, e)
    ensures ComesFrom(b, key, e, 0)
  {
    if b' == b {
      Stays(b, key, e);
    } else {
      match t
      case Working =>
        var i :| FallsOut(b, now, b', i);
        FallKeeps(b, now, b', i, key, e);
      case Archival =>
        var i :| CutAt(b.archival, i, b'.archival);
        if (key, e) in b'.archival { CutKeeps(b.archival, i, b'.archival, (key, e)); }
        Stays(b, key, e);
      case Persona =>
        var i :| CutAt(b.persona, i, b'.persona);
        if (key, e) in b'.persona { CutKeeps(b.persona, i, b'.persona, (key, e)); }
        Stays(b, key, e);
    }
  }

  lemma {:induction false} ClearedKeeps(b: Bank, key: string, b': Bank, k: string, e: MemoryEntry)
    requires Cleared(b, key, b') && Holds(b', k, e)
    ensures Holds(b, k, e)
  {
    if (k, e) in b'.working { WithoutKeeps(b.working, key, b'.working, (k, e)); }
    if (k, e) in b'.archival { WithoutKeeps(b.archival, key, b'.archival, (k, e)); }
    if (k, e) in b'.persona { WithoutKeeps(b.persona, key, b'.persona, (k, e)); }
  }

  lemma {:induction false} WithoutKeeps(d: Tier, key: string, d': Tier, x: Item)
    requires Without(d, key, d') && x in d'
    ensures x in d
  {
    if d' != d {
      var i :| CutAt(d, i, d');
      CutKeeps(d, i, d', x);
    }
  }

  /** An entry that comes from one of a bank made from this by moves alone comes from one of this. */
  lemma {:induction false} MovedKeeps(b: Bank, b': Bank, key: string, e: MemoryEntry)
    requires ComesFrom(b', key, e, 0) && (forall o :: Holds(b', key, o) ==> Holds(b, key, o))
    ensures ComesFrom(b, key, e, 0)
  {
    var o :| Holds(b', key, o) && Alike(o, e, 0);
    assert Holds(b, key, o);
  }

  lemma {:induction false} PromoteKeeps(b: Bank, key: string, now: int, b': Bank, k: string, e: MemoryEntry)
    requires PromotedTo(b, key, now, b') && Holds(b', k, e)
    ensures ComesFrom(b, k, e, 0)
  {
    if b' == b {
      Stays(b, k, e);
    } else {
      var i, cleared, room, o :| PromotedAt(b, key, now, b', i, cleared, room, o);
      if Holds(room, k, e) {
        RoomKeeps(cleared, Working, now, room, k, e);
        forall x | Holds(cleared, k, x) ensures Holds(b, k, x) {
          if (k, x) in cleared.archival { CutKeeps(b.archival, i, cleared.archival, (k, x)); }
        }
        MovedKeeps(b, cleared, k, e);
      } else {
        assert b.archival[i] in b.archival;
        assert Holds(b, k, b.archival[i].1) && Alike(b.archival[i].1, e, 0);
      }
    }
  }

  lemma {:induction false} DemoteKeeps(b: Bank, key: string, now: int, b': Bank, k: string, e: MemoryEntry)
    requires DemotedTo(b, key, now, b') && Holds(b', k, e)
    ensures ComesFrom(b, k, e, 0)
  {
    if b' == b {
      Stays(b, k, e);
    } else {
      var i, cleared, room, o :| DemotedAt(b, key, now, b', i, cleared, room, o);
      if Holds(room, k, e) {
        RoomKeeps(cleared, Archival, now, room, k, e);
        forall x | Holds(cleared, k, x) ensures Holds(b, k, x) {
          if (k, x) in cleared.working { CutKeeps(b.working, i, cleared.working, (k, x)); }
        }
        MovedKeeps(b, cleared, k, e);
      } else {
        assert b.working[i] in b.working;
        assert Holds(b, k, b.working[i].1) && Alike(b.working[i].1, e, 0);
      }
    }
  }

  lemma {:induction false} RecallKeeps(b: Bank, key: string, b': Bank, k: string, e: MemoryEntry)
    requires RecalledTo(b, key, b') && Holds(b', k, e)
    ensures ComesFrom(b, k, e, if k == key then 1 else 0)
  {
    if (k, e) in b'.working { RecalledKeeps(b.working, key, b'.working, k, e); }
    if (k, e) in b'.archival { RecalledKeeps(b.archival, key, b'.archival, k, e); }
    if (k, e) in b'.persona { RecalledKeeps(b.persona, key, b'.persona, k, e); }
  }

  lemma {:induction false} RecalledKeeps(d: Tier, key: string, d': Tier, k: string, e: MemoryEntry)
    requires RecalledIn(d, key, d') && (k, e) in d'
    ensures exists o :: (k, o) in d && Alike(o, e, if k == key then 1 else 0)
  {
    var i :| 0 <= i < |d'| && d'[i] == (k, e);
    assert d[i] in d && d[i] == (k, d[i].1);
    assert Alike(d[i].1, e, if k == key then 1 else 0);
  }

  lemma {:induction false} RememberKeeps(b: Bank, n: Note, now: int, b': Bank, t: TierName, o: MemoryEntry,
                                         k: string, e: MemoryEntry)
    requires RememberedTo(b, n, now, b', t, o) && Holds(b', k, e) && k != n.key
    ensures ComesFrom(b, k, e, 0)
  {
    if i :| Replaced(b, t, n.key, i, o, b') {
      assert Holds(b, k, e);
      Stays(b, k, e);
    } else {
      var cleared, room :| StoredAnew(b, n, now, b', t, o, cleared, room);
      assert Holds(room, k, e);
      RoomKeeps(cleared, t, now, room, k, e);
      forall x | Holds(cleared, k, x) ensures Holds(b, k, x) { ClearedKeeps(b, n.key, cleared, k, x); }
      MovedKeeps(b, cleared, k, e);
    }
  }

  lemma {:induction false} ConsolidateKeeps(b: Bank, now: int, b': Bank, k: string, e: MemoryEntry)
    requires ConsolidatedTo(b, now, b') && Holds(b', k, e)
    ensures ComesFrom(b, k, e, 0)
  {
    FilterMember(b.working, Needed(now), (k, e));
    FilterMember(b.persona, Unexpired(now), (k, e));
    FilterMember(b.archival, Unexpired(now), (k, e));
    var a, m := Filter(b.archival, Unexpired(now)), Filter(b.working, Idling(now));
    if (k, e) in b.working || (k, e) in b.archival || (k, e) in b.persona {
      Stays(b, k, e);
    } else {
      FilledFrom(a, m, now, b'.archival, k, e);
      var o :| (k, o) in m && Alike(o, e, 0);
      FilterMember(b.working, Idling(now), (k, o));
    }
  }

  lemma {:induction false} FilledFrom(a: Tier, m: Tier, now: int, a': Tier, k: string, e: MemoryEntry)
    requires FilledUp(a, m, now, a') && (k, e) in a' && (k, e) !in a
    ensures exists o :: (k, o) in m && Alike(o, e, 0)
  {
    var i :| 0 <= i < |a'| && a'[i] == (k, e);
    assert a'[..|a|] == a;
    assert forall j :: 0 <= j < |a| ==> a'[j] == a[j];
    var x := m[i - |a|];
    assert RefiledItem(x, now, a'[i]);
    assert x in m && x == (k, x.1) && Alike(x.1, e, 0);
  }

  ghost predicate Writes(op: Op, key: string) { op.Remember? && op.note.key == key }

  /**
   What any operation leaves under a key comes from what was there: value, importance, source
   and times of creation and expiry are as they were, whatever moved, and a recall of the key
   counts once. Only `remember` writes, and only its own key.
   */
  lemma {:induction false} StepKeepsContent(b: Bank, op: Op, key: string, e: MemoryEntry)
    requires Ok(b) && Holds(Step(b, op), key, e)
    ensures if Writes(op, key) then EntryFor(b, op.note, op.now, e)
            else ComesFrom(b, key, e, if op == Recall(key) then 1 else 0)
  {
    var b' := Step(b, op);
    match op
    case Remember(n, now) =>
      RememberEffects(b, n, now);
      if n.key == key { RememberHoldsOne(b, n, now, e); }
      else { RememberKeeps(b, n, now, b', TierOf(n.category), RememberedEntry(b, n, now), key, e); }
    case Forget(k) =>
      ForgetEffects(b, k);
      ClearedKeeps(b, k, b', key, e);
      Stays(b, key, e);
    case Recall(k) =>
      RecallEffects(b, k);
      RecallKeeps(b, k, b', key, e);
    case Promote(k, now) =>
      PromoteEffects(b, k, now);
      PromoteKeeps(b, k, now, b', key, e);
    case Demote(k, now) =>
      DemoteEffects(b, k, now);
      DemoteKeeps(b, k, now, b', key, e);
    case Consolidate(now) =>
      ConsolidateEffects(b, now);
      ConsolidateKeeps(b, now, b', key, e);
  }

  lemma {:induction false} OneEntry(b: Bank, key: string, e: MemoryEntry, o: MemoryEntry)
    requires Ok(b) && Holds(b, key, e) && Holds(b, key, o)
    ensures e == o
  {
    HeldInTier(b.working, key);
    HeldInTier(b.archival, key);
    HeldInTier(b.persona, key);
  }

  lemma {:induction false} RememberHoldsOne(b: Bank, n: Note, now: int, e: MemoryEntry)
    requires Ok(b) && Holds(Remembered(b, n, now), n.key, e)
    ensures e == RememberedEntry(b, n, now)
  {
    var b' := Remembered(b, n, now);
    RememberKeepsAllButOne(b, n, now);
    RememberedHolds(b, n, now);
    HeldInTier(TierIn(b', TierOf(n.category)), n.key);
    OneEntry(b', n.key, e, RememberedEntry(b, n, now));
  }

  // ---- runs --------------------------------------------------------------------------------

  ghost predicate LastWrites(ops: seq<Op>, key: string, j: int) {
    0 <= j < |ops| && Writes(ops[j], key) && forall i :: j < i < |ops| ==> !Writes(ops[i], key)
  }

  ghost predicate WrittenLast(ops: seq<Op>, key: string, value: string, importance: real) {
    exists j :: LastWrites(ops, key, j) && ops[j].note.value == value && ops[j].note.importance == importance
  }

  lemma {:induction false} WrittenBefore(ops: seq<Op>, op: Op, key: string, value: string, importance: real)
    requires WrittenLast(ops, key, value, importance) && !Writes(op, key)
    ensures WrittenLast(ops + [op], key, value, importance)
  {
    var j :| LastWrites(ops, key, j) && ops[j].note.value == value && ops[j].note.importance == importance;
    assert LastWrites(ops + [op], key, j);
  }

  /** After any run, what is held under a key is what the last `remember` of the key wrote. */
  lemma {:induction false} HeldIsLastWritten(ops: seq<Op>, key: string, e: MemoryEntry)
    requires Holds(Run(Bank([], [], []), ops), key, e)
    ensures WrittenLast(ops, key, e.value, e.importance)
    decreases |ops|, 0
  {
    if ops != [] {
      var init, op := ops[..|ops| - 1], ops[|ops| - 1];
      assert ops == init + [op];
      EveryRunIsOk(init);
      StepKeepsContent(Run(Bank([], [], []), init), op, key, e);
      if Writes(op, key) {
        assert LastWrites(ops, key, |ops| - 1);
      } else {
        LastWrittenStays(init, op, key, e);
      }
    }
  }

  lemma {:induction false} LastWrittenStays(ops: seq<Op>, op: Op, key: string, e: MemoryEntry)
    requires ComesFrom(Run(Bank([], [], []), ops), key, e, if op == Recall(key) then 1 else 0) && !Writes(op, key)
    ensures WrittenLast(ops + [op], key, e.value, e.importance)
    decreases |ops|, 1
  {
    var o :| Holds(Run(Bank([], [], []), ops), key, o) && Alike(o, e, if op == Recall(key) then 1 else 0);
    HeldIsLastWritten(ops, key, o);
    WrittenBefore(ops, op, key, e.value, e.importance);
  }
}
