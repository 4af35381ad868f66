/** The memory bank object of `dharma_swarm/agent_memory.py`, method by method against the step function. */
module AgentMemoryObjects {
  import opened Options
  import opened OrderedDict
  import opened Sorting
  import opened AgentMemoryBanks
  import Effects = AgentMemoryBankEffects

  class AgentMemoryBank {
    var working: Tier
    var archival: Tier
    var persona: Tier

    function View(): Bank
      reads this
    {
      Bank(working, archival, persona)
    }

    constructor ()
      ensures View() == Bank([], [], []) && Ok(View())
    {
      working, archival, persona := [], [], [];
    }

    function TierNamed(t: TierName): Tier
      reads this
    {
      match t
      case Working => working
      case Archival => archival
      case Persona => persona
    }

    method SetTier(t: TierName, d: Tier)
      modifies this
      ensures View() == WithTier(old(View()), t, d)
    {
      match t
      case Working => working := d;
      case Archival => archival := d;
      case Persona => persona := d;
    }

    /** `_evict_lowest`. */
    method EvictLowest(t: TierName, now: int) returns (evicted: Option<string>)
      modifies this
      ensures View() == Evicted(old(View()), t, now)
      ensures old(Ok(View())) ==> Effects.EvictedTo(old(View()), t, now, View())
      ensures evicted == if old(TierNamed(t)) == [] then None else Some(old(TierNamed(t))[Lowest(old(TierNamed(t)))].0)
    {
      var tier := TierNamed(t);
      ghost var b := View();
      if Ok(b) {
        Effects.EvictEffects(b, t, now);
      }
      if tier == [] {
        return None;
      }
      var (worstKey, entry) := tier[Lowest(tier)];
      SetTier(t, Remove(tier, worstKey));
      if t.Working? && |archival| < ARCHIVAL_MAX {
        archival := Put(archival, worstKey, entry.(category := "archival", updatedAt := now));
      }
      return Some(worstKey);
    }

    method MakeRoom(t: TierName, now: int)
      modifies this
      ensures View() == WithRoom(old(View()), t, now)
    {
      if TierMax(t) <= |TierNamed(t)| {
        var _ := EvictLowest(t, now);
      }
    }

    method RememberNote(n: Note, now: int) returns (entry: MemoryEntry)
      requires Ok(View())
      modifies this
      ensures Ok(View()) && View() == Remembered(old(View()), n, now)
      ensures Has(TierNamed(TierOf(n.category)), n.key) && Get(TierNamed(TierOf(n.category)), n.key) == entry
      ensures entry.value == n.value && entry.category == n.category && entry.importance == n.importance
      ensures exists t :: Effects.RememberedTo(old(View()), n, now, View(), t, entry)
    {
      ghost var b := View();
      Effects.RememberEffects(b, n, now);
      entry := StoreNote(n, now);
      assert Ok(View()) by { RememberKeepsAllButOne(b, n, now); }
      RememberedHolds(b, n, now);
    }

    method StoreNote(n: Note, now: int) returns (entry: MemoryEntry)
      modifies this
      ensures View() == Remembered(old(View()), n, now) && entry == RememberedEntry(old(View()), n, now)
    {
      var t := TierOf(n.category);
      var home := OtherHome(View(), t, n.key);
      if Has(TierNamed(t), n.key) {
        entry := Rewritten(Get(TierNamed(t), n.key), n, now);
      } else if home.Some? {
        entry := Rewritten(Get(TierNamed(home.value), n.key), n, now);
        SetTier(home.value, Remove(TierNamed(home.value), n.key));
        MakeRoom(t, now);
      } else {
        MakeRoom(t, now);
        entry := MemoryEntry(n.value, n.category, n.importance, 0, now, now, None, n.source);
      }
      SetTier(t, Put(TierNamed(t), n.key, entry));
    }

    /** `learn_lesson`, under the key made from the clock. */
    method LearnLesson(key: string, lesson: string, source: string, now: int) returns (entry: MemoryEntry)
      requires Ok(View())
      modifies this
      ensures Ok(View()) && View() == Remembered(old(View()), Note(key, lesson, "lesson", 0.9, source), now)
      ensures Has(archival, key)
      ensures exists t ::
                Effects.RememberedTo(old(View()), Note(key, lesson, "lesson", 0.9, source), now, View(), t, entry)
    {
      CategoriesFit();
      entry := RememberNote(Note(key, lesson, "lesson", 0.9, source), now);
    }

    method ForgetKey(key: string) returns (found: bool)
      requires Ok(View())
      modifies this
      ensures Ok(View()) && View() == Forgotten(old(View()), key) && (found <==> Knows(old(View()), key))
      ensures !Knows(View(), key) && Effects.Cleared(old(View()), key, View())
    {
      ForgetRemovesOne(View(), key);
      Effects.ForgetEffects(View(), key);
      var home := Home(View(), key);
      found := home.Some?;
      if found {
        SetTier(home.value, Remove(TierNamed(home.value), key));
      }
    }

    method CountAccess(key: string) returns (entry: Option<MemoryEntry>)
      modifies this
      ensures View() == Recalled(old(View()), key) && entry == Effects.RecalledEntry(old(View()), key)
    {
      var home := Home(View(), key);
      if home.None? {
        return None;
      }
      var e := Get(TierNamed(home.value), key);
      e := e.(accessCount := e.accessCount + 1);
      SetTier(home.value, Put(TierNamed(home.value), key, e));
      return Some(e);
    }

    /** A recall counts as an access. */
    method RecallKey(key: string) returns (entry: Option<MemoryEntry>)
      requires Ok(View())
      modifies this
      ensures Ok(View()) && View() == Recalled(old(View()), key) && Effects.RecalledTo(old(View()), key, View())
      ensures entry.Some? <==> Knows(old(View()), key)
      ensures entry.Some? ==> Effects.Holds(View(), key, entry.value)
    {
      ghost var b := View();
      entry := CountAccess(key);
      assert Ok(View()) by { RecallKeepsKeys(b, key); }
      Effects.RecallEffects(b, key);
      Effects.RecalledHolds(b, key);
    }

    method PromoteKey(key: string, now: int) returns (done: bool)
      requires Ok(View())
      modifies this
      ensures Ok(View()) && View() == Promoted(old(View()), key, now) && (done <==> Has(old(archival), key))
      ensures Effects.PromotedTo(old(View()), key, now, View())
    {
      Effects.PromoteEffects(View(), key, now);
      PromoteLosesNothing(View(), key, now);
      done := Has(archival, key);
      if done {
        var entry := Get(archival, key);
        archival := Remove(archival, key);
        MakeRoom(Working, now);
        working := Put(working, key, entry.(category := "working", updatedAt := now));
      }
    }

    method DemoteKey(key: string, now: int) returns (done: bool)
      requires Ok(View())
      modifies this
      ensures Ok(View()) && View() == Demoted(old(View()), key, now) && (done <==> Has(old(working), key))
      ensures Effects.DemotedTo(old(View()), key, now, View())
    {
      Effects.DemoteEffects(View(), key, now);
      DemoteLoses(View(), key, now);
      done := Has(working, key);
      if done {
        var entry := Get(working, key);
        working := Remove(working, key);
        MakeRoom(Archival, now);
        archival := Put(archival, key, entry.(category := "archival", updatedAt := now));
      }
    }

    /** Expiry in all tiers, then demotion of idle working entries. */
    method ConsolidateAll(now: int) returns (affected: nat)
      requires Ok(View())
      modifies this
      ensures Ok(View()) && View() == Consolidated(old(View()), now)
      ensures Effects.ConsolidatedTo(old(View()), now, View())
      ensures affected == |Filter(old(working), Effects.Overdue(now))| + |Filter(old(archival), Effects.Overdue(now))|
                          + |Filter(old(persona), Effects.Overdue(now))| + |Filter(old(working), Effects.Idling(now))|
    {
      ghost var before := View();
      Effects.ConsolidateEffects(before, now);
      Effects.AliveFilters(before.working, now);
      Effects.OverdueAreDead(before, now);
      ConsolidateShrinksExactly(before, now);
      ExpiredOk(before, now);
      var w, a, p: nat;
      working, w := ExpireTier(working, now);
      archival, a := ExpireTier(archival, now);
      persona, p := ExpireTier(persona, now);
      affected := w + a + p;
      assert View() == Expired(before, now);
      var demoted := DemoteIdle(now);
      affected := affected + demoted;
      // The original goes on to prune archival down to its maximum, which it cannot exceed here.
      assert |archival| <= ARCHIVAL_MAX;
    }

    method DemoteItem(k: string, e: MemoryEntry, now: int)
      modifies this
      ensures working == Remove(old(working), k) && persona == old(persona)
      ensures archival ==
              if |old(archival)| < ARCHIVAL_MAX then Put(old(archival), k, Moved(e, "archival", now)) else old(archival)
    {
      working := Remove(working, k);
      if |archival| < ARCHIVAL_MAX {
        archival := Put(archival, k, e.(category := "archival", updatedAt := now));
      }
    }

    /** Takes the idle entries out of working memory one by one; each goes to archival while there is room. */
    method DemoteIdle(now: int) returns (demoted: nat)
      requires Ok(View())
      modifies this
      ensures View() == IdleDemoted(old(View()), now) && demoted == |Filter(old(working), Idle)|
    {
      ghost var before := View();
      var idle := Filter(working, Idle);
      FilterDistinct(working, Idle);
      demoted := 0;
      NothingTakenOut(working);
      assert idle[..0] == [] && View() == PartlyDemoted(before, idle, 0, now);
      for i := 0 to |idle|
        invariant demoted == i && View() == PartlyDemoted(before, idle, i, now)
      {
        var (k, e) := idle[i];
        DemoteOneMore(before, idle, i, now);
        DemoteItem(k, e, now);
        demoted := demoted + 1;
      }
      AllTakenOut(before.working, idle);
    }
  }

  /** The bank after the first `i` idle entries have been demoted. */
  function PartlyDemoted(b: Bank, idle: Tier, i: nat, now: int): Bank
    requires i <= |idle|
  {
    Bank(Filter(b.working, NotAmong(idle[..i])), b.archival + AsArchival(idle[..Least(i, Room(b))], now), b.persona)
  }

  lemma {:induction false} DemoteOneMore(b: Bank, idle: Tier, i: nat, now: int)
    requires Ok(b) && idle == Filter(b.working, Idle) && i < |idle|
    ensures var p, e := PartlyDemoted(b, idle, i, now), Moved(idle[i].1, "archival", now);
            PartlyDemoted(b, idle, i + 1, now) ==
            Bank(Remove(p.working, idle[i].0),
                 if |p.archival| < ARCHIVAL_MAX then Put(p.archival, idle[i].0, e) else p.archival,
                 b.persona)
  {
    TakeOut(b.working, idle, i);
    if i < Room(b) {
      PutAppends(b, idle, i, now);
    }
  }

  function Least(a: nat, b: nat): nat { if a < b then a else b }

  /** The item's key is not the key of any of these. */
  function NotAmong(d: Tier): Item -> bool { (x: Item) => !Has(d, x.0) }

  /** Deletes the expired keys one after the other. */
  method ExpireTier(tier: Tier, now: int) returns (rest: Tier, count: nat)
    requires Distinct(tier)
    ensures rest == Filter(tier, Alive(now)) && count == |Filter(tier, Dead(now))|
  {
    var expired := Filter(tier, Dead(now));
    FilterDistinct(tier, Dead(now));
    rest, count := tier, 0;
    NothingTakenOut(tier);
    for i := 0 to |expired|
      invariant count == i && rest == Filter(tier, NotAmong(expired[..i]))
    {
      TakeOut(tier, expired, i);
      rest := Remove(rest, expired[i].0);
      count := count + 1;
    }
    assert expired[..|expired|] == expired;
    forall x | x in tier ensures NotAmong(expired)(x) == Alive(now)(x) {
      var i :| 0 <= i < |tier| && tier[i] == x;
      FindAt(tier, i);
      FilterTier(tier, Dead(now));
    }
    FilterCongruent(tier, NotAmong(expired), Alive(now));
  }

  lemma {:induction false} NothingTakenOut(d: Tier)
    ensures Filter(d, NotAmong([])) == d
  {
    if d != [] {
      NothingTakenOut(d[..|d| - 1]);
    }
  }

  /** Deleting a key is filtering it out. */
  lemma {:induction false} RemoveIsFilter(d: Tier, k: string)
    requires Distinct(d)
    ensures Remove(d, k) == Filter(d, OtherThan(k))
  {
    if d != [] {
      var n := |d| - 1;
      RemoveIsFilter(d[..n], k);
      if d[n].0 == k {
        RemoveLast(d);
        FilterAll(d[..n], OtherThan(k));
      } else {
        RemoveEarlier(d[..n], d[n], k);
        assert d[..n] + [d[n]] == d;
      }
    }
  }

  lemma {:induction false} RemoveLast(d: Tier)
    requires Distinct(d) && d != []
    ensures Remove(d, d[|d| - 1].0) == d[..|d| - 1]
  {
    FindAt(d, |d| - 1);
  }

  lemma {:induction false} RemoveEarlier(d: Tier, x: Item, k: string)
    requires x.0 != k
    ensures Remove(d + [x], k) == Remove(d, k) + [x]
  {
    FindEarlier(d, x, k);
    if Has(d, k) {
      var f := Find(d, k);
      assert (d + [x])[..f] == d[..f] && (d + [x])[f + 1..] == d[f + 1..] + [x];
    }
  }

  lemma {:induction false} FindEarlier(d: Tier, x: Item, k: string)
    requires x.0 != k
    ensures Find(d + [x], k) == if Has(d, k) then Find(d, k) else |d| + 1
  {
    var f := Find(d + [x], k);
    assert forall j :: 0 <= j < |d| ==> (d + [x])[j] == d[j];
  }

  function OtherThan(k: string): Item -> bool { (x: Item) => x.0 != k }

  /** Removing the next key of a list extends what has been filtered out. */
  lemma {:induction false} TakeOut(d: Tier, gone: Tier, i: nat)
    requires Distinct(d) && i < |gone|
    ensures Remove(Filter(d, NotAmong(gone[..i])), gone[i].0) == Filter(d, NotAmong(gone[..i + 1]))
  {
    var f := Filter(d, NotAmong(gone[..i]));
    FilterDistinct(d, NotAmong(gone[..i]));
    RemoveIsFilter(f, gone[i].0);
    FilterFilter(d, NotAmong(gone[..i]), OtherThan(gone[i].0));
    forall x: Item ensures Both(NotAmong(gone[..i]), OtherThan(gone[i].0))(x) == NotAmong(gone[..i + 1])(x) {
      if Has(gone[..i + 1], x.0) {
        var j := Find(gone[..i + 1], x.0);
        if j < i { assert gone[..i][j] == gone[j]; }
      }
      if Has(gone[..i], x.0) {
        var j := Find(gone[..i], x.0);
        assert gone[..i + 1][j] == gone[j];
      }
      assert gone[..i + 1][i] == gone[i];
    }
    FilterCongruent(d, Both(NotAmong(gone[..i]), OtherThan(gone[i].0)), NotAmong(gone[..i + 1]));
  }

  /** With all idle keys out, the busy entries remain. */
  lemma {:induction false} AllTakenOut(d: Tier, idle: Tier)
    requires Distinct(d) && idle == Filter(d, Idle)
    ensures Filter(d, NotAmong(idle[..|idle|])) == Filter(d, Busy)
  {
    assert idle[..|idle|] == idle;
    FilterTier(d, Idle);
    forall x | x in d ensures NotAmong(idle)(x) == Busy(x) {
      var i :| 0 <= i < |d| && d[i] == x;
      FindAt(d, i);
    }
    FilterCongruent(d, NotAmong(idle), Busy);
  }

  /** A demoted key is new to archival, so it goes to the end. */
  lemma {:induction false} PutAppends(b: Bank, idle: Tier, i: nat, now: int)
    requires Ok(b) && idle == Filter(b.working, Idle) && i < |idle| && i < Room(b)
    ensures var e := Moved(idle[i].1, "archival", now);
            Put(b.archival + AsArchival(idle[..i], now), idle[i].0, e) == b.archival + AsArchival(idle[..i + 1], now)
  {
    var a := b.archival + AsArchival(idle[..i], now);
    FilterDistinct(b.working, Idle);
    FilterTier(b.working, Idle);
    FindAt(idle, i);
    forall j | 0 <= j < |a| ensures a[j].0 != idle[i].0 {
      if j < |b.archival| { FindAt(b.archival, j); }
    }
    assert idle[..i + 1] == idle[..i] + [idle[i]];
    assert AsArchival(idle[..i + 1], now) == AsArchival(idle[..i], now)
        + [(idle[i].0, Moved(idle[i].1, "archival", now))];
  }
}
