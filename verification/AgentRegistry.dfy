/**
 The agent registry of `dharma_swarm/agent_registry.py`: the identity summary of an agent
 against its task log and its prompt files. Times are seconds, costs are reals.
 */
module AgentRegistries {
  import opened Options
  import opened Sorting

  datatype Entry = Entry(task: string, success: bool, tokens: int, latency: real, cost: real,
                         stamp: int, preview: string, flagged: bool)

  datatype Identity = Identity(name: string, role: string, model: string, prompt: string, lastActive: int,
                               completed: int, failed: int, tokens: int, calls: int, generation: nat,
                               history: seq<Entry>)

  datatype Evolution = Evolution(generation: nat, reason: string, stamp: int, preview: string)

  /** An agent's directory: identity, task log, generation files, active prompt, evolution log. */
  datatype Dir = Dir(identity: Option<Identity>, log: seq<Entry>, gens: map<nat, string>,
                     active: Option<string>, evolutions: seq<Evolution>)

  const EmptyDir := Dir(None, [], map[], None, [])

  /** Prices by model and the two budgets. */
  datatype Config = Config(price: string -> real, daily: real, weekly: real)

  function Clip(s: string, n: nat): string { if n < |s| then s[..n] else s }

  function Last<T>(s: seq<T>, n: nat): seq<T> { if n < |s| then s[|s| - n..] else s }

  // ---- spending ------------------------------------------------------------------------

  function Midnight(now: int): int { now - now % 86400 }
  function WeekAgo(now: int): int { now - 604800 }

  /** The cost of the entries stamped at or after `cutoff`. */
  function Spend(log: seq<Entry>, cutoff: int): real {
    if log == [] then 0.0
    else
      var e := log[|log| - 1];
      Spend(log[..|log| - 1], cutoff) + if cutoff <= e.stamp then e.cost else 0.0
  }

  predicate Exceeded(c: Config, log: seq<Entry>, now: int) {
    c.daily <= Spend(log, Midnight(now)) || c.weekly <= Spend(log, WeekAgo(now))
  }

  /** Costs that are not negative never make a longer log cheaper, nor an earlier cutoff. */
  lemma {:induction false} SpendGrows(log: seq<Entry>, k: nat, from: int, cutoff: int)
    requires k <= |log| && cutoff <= from && forall e :: e in log ==> 0.0 <= e.cost
    ensures 0.0 <= Spend(log[..k], from) <= Spend(log, cutoff)
  {
    if log == [] {
      assert log[..k] == [];
    } else {
      var init := log[..|log| - 1];
      assert log[|log| - 1] in log && forall e :: e in init ==> e in log;
      if k < |log| {
        assert init[..k] == log[..k];
        SpendGrows(init, k, from, cutoff);
      } else {
        assert log[..k] == log && init[..|init|] == init;
        SpendGrows(init, |init|, from, cutoff);
      }
    }
  }

  /** The kill switch holds for the day: spent over the daily budget, every later check of that day says so. */
  lemma {:induction false} ExceededForTheDay(c: Config, log: seq<Entry>, k: nat, now: int, later: int)
    requires k <= |log| && Midnight(later) == Midnight(now) && forall e :: e in log ==> 0.0 <= e.cost
    requires c.daily <= Spend(log[..k], Midnight(now))
    ensures Exceeded(c, log, later)
  {
    SpendGrows(log, k, Midnight(now), Midnight(later));
  }

  // ---- the operations on one directory ------------------------------------------------------

  datatype Act =
    | Register(name: string, role: string, model: string, prompt: string)
    | LogTask(task: string, success: bool, tokens: int, latency: real, preview: string)
    | Evolve(next: string, reason: string)

  function EntryFor(c: Config, d: Dir, act: Act, now: int): Entry
    requires act.LogTask?
  {
    var model := if d.identity.Some? then d.identity.value.model else "";
    Entry(act.task, act.success, act.tokens, act.latency, act.tokens as real * c.price(model), now,
          Clip(act.preview, 500), Exceeded(c, d.log, now))
  }

  function Counted(i: Identity, e: Entry): Identity {
    i.(completed := i.completed + (if e.success then 1 else 0), failed := i.failed + (if e.success then 0 else 1),
       tokens := i.tokens + e.tokens, calls := i.calls + 1, lastActive := e.stamp, history := Last(i.history + [e], 50))
  }

  function Archived(d: Dir, generation: nat): map<nat, string> {
    if d.active.Some? && generation !in d.gens then d.gens[generation := d.active.value] else d.gens
  }

  function Apply(c: Config, d: Dir, act: Act, now: int): Dir {
    match act
    case Register(name, role, model, prompt) =>
      if d.identity.Some? then d
      else Dir(Some(Identity(name, role, model, prompt, now, 0, 0, 0, 0, 0, [])),
               d.log, d.gens[0 := prompt], Some(prompt),
               d.evolutions + [Evolution(0, "initial registration", now, Clip(prompt, 200))])
    case LogTask(_, _, _, _, _) =>
      var e := EntryFor(c, d, act, now);
      d.(log := d.log + [e], identity := if d.identity.Some? then Some(Counted(d.identity.value, e)) else None)
    case Evolve(next, reason) =>
      if d.identity.None? then d
      else
        var i := d.identity.value;
        Dir(Some(i.(generation := i.generation + 1, prompt := next, lastActive := now)), d.log,
            Archived(d, i.generation)[i.generation + 1 := next], Some(next),
            d.evolutions + [Evolution(i.generation + 1, reason, now, Clip(next, 200))])
  }

  // ---- what a run did, read off its operations --------------------------------------------------

  datatype Op = Op(agent: string, act: Act, now: int)

  type Dirs = map<string, Dir>

  function At(s: Dirs, agent: string): Dir { if agent in s then s[agent] else EmptyDir }

  function Step(c: Config, s: Dirs, op: Op): Dirs {
    if op.act.Evolve? && At(s, op.agent).identity.None? then s
    else s[op.agent := Apply(c, At(s, op.agent), op.act, op.now)]
  }

  function Run(c: Config, ops: seq<Op>): Dirs {
    if ops == [] then map[] else Step(c, Run(c, ops[..|ops| - 1]), ops[|ops| - 1])
  }

  /** The prompts an agent was given: the first registration's, then one for each evolution. */
  function Prompts(ops: seq<Op>, agent: string): seq<string> {
    if ops == [] then []
    else
      var before, op := Prompts(ops[..|ops| - 1], agent), ops[|ops| - 1];
      if op.agent != agent then before
      else if op.act.Register? && before == [] then [op.act.prompt]
      else if op.act.Evolve? && before != [] then before + [op.act.next]
      else before
  }

  /** How many tasks were logged for an agent before it was registered. */
  function Early(ops: seq<Op>, agent: string): nat {
    if ops == [] then 0
    else
      var before, op := Early(ops[..|ops| - 1], agent), ops[|ops| - 1];
      if op.agent == agent && op.act.LogTask? && Prompts(ops[..|ops| - 1], agent) == [] then before + 1 else before
  }

  function Successes(log: seq<Entry>): int {
    if log == [] then 0 else Successes(log[..|log| - 1]) + if log[|log| - 1].success then 1 else 0
  }

  function Tokens(log: seq<Entry>): int {
    if log == [] then 0 else Tokens(log[..|log| - 1]) + log[|log| - 1].tokens
  }

  function Cost(log: seq<Entry>): real {
    if log == [] then 0.0 else Cost(log[..|log| - 1]) + log[|log| - 1].cost
  }

  // ---- the invariant ------------------------------------------------------------------------------

  /** The summary counts exactly the entries logged since registration. */
  ghost predicate SummaryAgrees(d: Dir, early: nat) {
    early <= |d.log|
    && (d.identity.None? ==> early == |d.log|)
    && (d.identity.Some? ==>
      var i, mine := d.identity.value, d.log[early..];
      && i.calls == |mine| == i.completed + i.failed
      && i.completed == Successes(mine)
      && i.tokens == Tokens(mine)
      && i.history == Last(mine, 50))
  }

  /** Every generation file holds the prompt of its generation, and the newest one is active. */
  ghost predicate PromptsAgree(d: Dir, prompts: seq<string>) {
    && (d.identity.Some? <==> prompts != [])
    && |d.evolutions| == |prompts|
    && (forall k: nat :: k in d.gens <==> k < |prompts|)
    && (forall k | 0 <= k < |prompts| :: d.gens[k] == prompts[k])
    && (forall k | 0 <= k < |prompts| :: d.evolutions[k].generation == k)
    && (forall k | 0 <= k < |prompts| :: d.evolutions[k].preview == Clip(prompts[k], 200))
    && (if prompts == [] then d.active.None?
        else
          var newest := prompts[|prompts| - 1];
          d.active == Some(newest) && d.identity.value.prompt == newest && d.identity.value.generation == |prompts| - 1)
  }

  /** An entry carries the budget flag exactly when what was logged before it had spent a budget. */
  ghost predicate FlagsAgree(c: Config, d: Dir) {
    forall k | 0 <= k < |d.log| :: d.log[k].flagged <==> Exceeded(c, d.log[..k], d.log[k].stamp)
  }

  /** Since registration, the money spent is the tokens counted at the model's price. */
  ghost predicate CostAgrees(c: Config, d: Dir, early: nat) {
    early <= |d.log|
    && (d.identity.Some? ==> Cost(d.log[early..]) == d.identity.value.tokens as real * c.price(d.identity.value.model))
  }

  lemma {:induction false} LastOfLast<T>(s: seq<T>, e: T, n: nat)
    requires 0 < n
    ensures Last(Last(s, n) + [e], n) == Last(s + [e], n)
  {
  }

  lemma {:induction false} LogKeepsSummary(c: Config, d: Dir, early: nat, act: Act, now: int)
    requires SummaryAgrees(d, early) && act.LogTask?
    ensures SummaryAgrees(Apply(c, d, act, now), if d.identity.Some? then early else early + 1)
  {
    if d.identity.Some? {
      var e, mine := EntryFor(c, d, act, now), d.log[early..];
      assert (d.log + [e])[early..] == mine + [e];
      assert (mine + [e])[..|mine|] == mine;
      LastOfLast(mine, e, 50);
    }
  }

  lemma {:induction false} OtherKeepsSummary(c: Config, d: Dir, early: nat, act: Act, now: int)
    requires SummaryAgrees(d, early) && !act.LogTask?
    ensures SummaryAgrees(Apply(c, d, act, now), early)
  {
  }

  lemma {:induction false} LogKeepsCost(c: Config, d: Dir, early: nat, act: Act, now: int)
    requires CostAgrees(c, d, early) && act.LogTask?
    ensures CostAgrees(c, Apply(c, d, act, now), if d.identity.Some? then early else early + 1)
  {
    if d.identity.Some? {
      var e, mine := EntryFor(c, d, act, now), d.log[early..];
      assert (d.log + [e])[early..] == mine + [e];
      assert (mine + [e])[..|mine|] == mine;
      Distribute(d.identity.value.tokens as real, act.tokens as real, c.price(d.identity.value.model));
    }
  }

  lemma {:induction false} Distribute(a: real, b: real, p: real)
    ensures (a + b) * p == a * p + b * p
  {
  }

  lemma {:induction false} OtherKeepsCost(c: Config, d: Dir, early: nat, act: Act, now: int)
    requires CostAgrees(c, d, early) && !act.LogTask? && (d.identity.None? ==> early == |d.log|)
    ensures CostAgrees(c, Apply(c, d, act, now), early)
  {
  }

  lemma {:induction false} ActKeepsFlags(c: Config, d: Dir, act: Act, now: int)
    requires FlagsAgree(c, d)
    ensures FlagsAgree(c, Apply(c, d, act, now))
  {
    var log := Apply(c, d, act, now).log;
    forall k | 0 <= k < |log| ensures log[k].flagged <==> Exceeded(c, log[..k], log[k].stamp) {
      assert log[..k] == if k < |d.log| then d.log[..k] else d.log;
    }
  }

  /** Evolving never rewrites an earlier generation: it writes the next one only. */
  lemma {:induction false} ActKeepsPrompts(c: Config, d: Dir, prompts: seq<string>, act: Act, now: int)
    requires PromptsAgree(d, prompts)
    ensures var after :=
              if act.Register? && prompts == [] then [act.prompt]
              else if act.Evolve? && prompts != [] then prompts + [act.next] else prompts;
            PromptsAgree(Apply(c, d, act, now), after)
  {
  }

  ghost predicate Agrees(c: Config, ops: seq<Op>, agent: string) {
    var d, early := At(Run(c, ops), agent), Early(ops, agent);
    SummaryAgrees(d, early) && CostAgrees(c, d, early) && PromptsAgree(d, Prompts(ops, agent)) && FlagsAgree(c, d)
  }

  lemma {:induction false} NothingAgrees(c: Config)
    ensures SummaryAgrees(EmptyDir, 0) && CostAgrees(c, EmptyDir, 0) && PromptsAgree(EmptyDir, [])
              && FlagsAgree(c, EmptyDir)
  {
    assert forall k: nat :: k !in EmptyDir.gens;
  }

  /** After every run from nothing, for every agent, summary, prompt files, costs and flags agree with the logs. */
  lemma {:induction false} EveryRunAgrees(c: Config, ops: seq<Op>, agent: string)
    ensures Agrees(c, ops, agent)
  {
    if ops == [] {
      NothingAgrees(c);
    } else {
      var init, op := ops[..|ops| - 1], ops[|ops| - 1];
      EveryRunAgrees(c, init, agent);
      if op.agent == agent {
        var d, early, prompts := At(Run(c, init), agent), Early(init, agent), Prompts(init, agent);
        assert At(Run(c, ops), agent) == Apply(c, d, op.act, op.now);
        ActKeepsPrompts(c, d, prompts, op.act, op.now);
        ActKeepsFlags(c, d, op.act, op.now);
        if op.act.LogTask? {
          LogKeepsSummary(c, d, early, op.act, op.now);
          LogKeepsCost(c, d, early, op.act, op.now);
        } else {
          OtherKeepsSummary(c, d, early, op.act, op.now);
          OtherKeepsCost(c, d, early, op.act, op.now);
        }
      } else {
        assert At(Run(c, ops), agent) == At(Run(c, init), agent);
      }
    }
  }

  /** Later operations only append prompts, so that no generation file ever changes. */
  lemma {:induction false} PromptsGrow(ops: seq<Op>, n: nat, agent: string)
    requires n <= |ops|
    ensures Prompts(ops[..n], agent) <= Prompts(ops, agent)
  {
    if n < |ops| {
      assert ops[..|ops| - 1][..n] == ops[..n];
      PromptsGrow(ops[..|ops| - 1], n, agent);
    } else {
      assert ops[..n] == ops;
    }
  }

  lemma {:induction false} GenerationsAreNeverRewritten(c: Config, ops: seq<Op>, n: nat, agent: string, generation: nat)
    requires n <= |ops| && generation in At(Run(c, ops[..n]), agent).gens
    ensures generation in At(Run(c, ops), agent).gens
    ensures At(Run(c, ops), agent).gens[generation] == At(Run(c, ops[..n]), agent).gens[generation]
  {
    EveryRunAgrees(c, ops[..n], agent);
    EveryRunAgrees(c, ops, agent);
    PromptsGrow(ops, n, agent);
  }

  // ---- fitness ---------------------------------------------------------------------------------------

  datatype Fitness = Fitness(calls: nat, tokens: int, cost: real, successRate: real, speed: real, composite: real)

  function TotalLatency(log: seq<Entry>): real {
    if log == [] then 0.0 else TotalLatency(log[..|log| - 1]) + log[|log| - 1].latency
  }

  function Speed(latency: real): real {
    if latency <= 5000.0 then 1.0
    else if 120000.0 <= latency then 0.0
    else 1.0 - (latency - 5000.0) / (120000.0 - 5000.0)
  }

  /** `get_agent_fitness`; entries of `log_task` carry no quality, so that each counts one half. */
  function FitnessOf(c: Config, d: Dir): Fitness {
    if d.log == [] then Fitness(0, 0, 0.0, 0.0, 0.0, 0.0)
    else
      var model := if d.identity.Some? then d.identity.value.model else "";
      var rate := Successes(d.log) as real / |d.log| as real;
      var speed := Speed(TotalLatency(d.log) / |d.log| as real);
      Fitness(|d.log|, Tokens(d.log), Tokens(d.log) as real * c.price(model), rate, speed,
              rate * 0.4 + speed * 0.3 + 0.5 * 0.3)
  }

  lemma {:induction false} SuccessesBounded(log: seq<Entry>)
    ensures 0 <= Successes(log) <= |log|
  {
    if log != [] { SuccessesBounded(log[..|log| - 1]); }
  }

  /** Full speed up to five seconds on average, none from two minutes on, and a straight line in between. */
  lemma {:induction false} SpeedIs(latency: real)
    ensures Speed(latency) == 1.0 <==> latency <= 5000.0
    ensures Speed(latency) == 0.0 <==> 120000.0 <= latency
    ensures 5000.0 <= latency <= 120000.0 ==> 115000.0 * Speed(latency) == 120000.0 - latency
  {
  }

  lemma {:induction false} Ratio(a: real, n: real)
    requires 0.0 <= a <= n && 0.0 < n
    ensures 0.0 <= a / n <= 1.0 && a / n * n == a
  {
  }

  lemma {:induction false} FitnessBounded(c: Config, d: Dir)
    ensures var f := FitnessOf(c, d);
            0.0 <= f.successRate <= 1.0 && 0.0 <= f.speed <= 1.0 && 0.0 <= f.composite <= 0.85
            && f.successRate * f.calls as real == Successes(d.log) as real
            && (d.log != [] ==> 20.0 * f.composite == 8.0 * f.successRate + 6.0 * f.speed + 3.0)
  {
    SuccessesBounded(d.log);
    if d.log != [] { Ratio(Successes(d.log) as real, |d.log| as real); }
  }

  /**
   The summary and the fitness computed from the log report the same calls, tokens and
   successes, and the fitness's cost is what the log was charged, after every run in
   which a registered agent had no task logged before its registration; the calls agree
   in no other run.
   */
  lemma {:induction false} SummaryMatchesFitnessIff(c: Config, ops: seq<Op>, agent: string)
    requires At(Run(c, ops), agent).identity.Some?
    ensures var d := At(Run(c, ops), agent); var i, f := d.identity.value, FitnessOf(c, d);
            && (i.calls == f.calls <==> Early(ops, agent) == 0)
            && (Early(ops, agent) == 0 ==>
                  i.tokens == f.tokens && i.completed == Successes(d.log) && f.cost == Cost(d.log))
  {
    EveryRunAgrees(c, ops, agent);
    var d := At(Run(c, ops), agent);
    if Early(ops, agent) == 0 {
      assert d.log[0..] == d.log;
    }
  }

  // ---- the object ----------------------------------------------------------------------------------------

  datatype Status = Ok | Warning | Over

  /** The spend of several agents since a cutoff. */
  function FleetSpend(s: Dirs, names: seq<string>, cutoff: int): real {
    if names == [] then 0.0
    else FleetSpend(s, names[..|names| - 1], cutoff) + Spend(At(s, names[|names| - 1]).log, cutoff)
  }

  /** The last midnight: a whole number of days, not yet a day ago. */
  ghost predicate StartOfDay(m: int, now: int) { m % 86400 == 0 && m <= now < m + 86400 }

  lemma {:induction false} MidnightIff(m: int, now: int)
    ensures StartOfDay(m, now) <==> m == Midnight(now)
  {
    assert now == 86400 * (now / 86400) + now % 86400;
    if m % 86400 == 0 {
      assert m == 86400 * (m / 86400);
    }
  }

  function From(cutoff: int): Entry -> bool { (e: Entry) => cutoff <= e.stamp }

  /** The logs of several agents, one behind the other. */
  function Logs(s: Dirs, names: seq<string>): seq<Entry> {
    if names == [] then [] else Logs(s, names[..|names| - 1]) + At(s, names[|names| - 1]).log
  }

  lemma {:induction false} CostConcat(a: seq<Entry>, b: seq<Entry>)
    ensures Cost(a + b) == Cost(a) + Cost(b)
  {
    if b == [] {
      assert a + b == a;
    } else {
      var init := b[..|b| - 1];
      assert (a + b)[..|a + b| - 1] == a + init;
      CostConcat(a, init);
    }
  }

  /** What is spent since a cutoff is the cost of the entries stamped at or after it. */
  lemma {:induction false} SpendIsCost(log: seq<Entry>, cutoff: int)
    ensures Spend(log, cutoff) == Cost(Filter(log, From(cutoff)))
  {
    if log != [] {
      var init, last := log[..|log| - 1], log[|log| - 1];
      SpendIsCost(init, cutoff);
      var f := Filter(init, From(cutoff));
      assert (f + [last])[..|f|] == f;
    }
  }

  lemma {:induction false} FleetSpendIsCost(s: Dirs, names: seq<string>, cutoff: int)
    ensures FleetSpend(s, names, cutoff) == Cost(Filter(Logs(s, names), From(cutoff)))
  {
    if names != [] {
      var init, log := names[..|names| - 1], At(s, names[|names| - 1]).log;
      FleetSpendIsCost(s, init, cutoff);
      SpendIsCost(log, cutoff);
      FilterConcat(Logs(s, init), log, From(cutoff));
      CostConcat(Filter(Logs(s, init), From(cutoff)), Filter(log, From(cutoff)));
    }
  }

  /** A budget is spent by the entries of its period: since the last midnight, or in the last seven days. */
  ghost predicate OverBudget(c: Config, entries: seq<Entry>, now: int) {
    || (exists m :: StartOfDay(m, now) && c.daily <= Cost(Filter(entries, From(m))))
    || c.weekly <= Cost(Filter(entries, From(now - 7 * 24 * 3600)))
  }

  lemma {:induction false} OverBudgetIff(c: Config, entries: seq<Entry>, now: int)
    ensures OverBudget(c, entries, now) <==>
              c.daily <= Cost(Filter(entries, From(Midnight(now))))
              || c.weekly <= Cost(Filter(entries, From(WeekAgo(now))))
  {
    MidnightIff(Midnight(now), now);
    forall m | StartOfDay(m, now) ensures m == Midnight(now) { MidnightIff(m, now); }
  }

  lemma {:induction false} ExceededIff(c: Config, s: Dirs, names: seq<string>, now: int)
    ensures OverBudget(c, Logs(s, names), now) <==>
              c.daily <= FleetSpend(s, names, Midnight(now)) || c.weekly <= FleetSpend(s, names, WeekAgo(now))
  {
    FleetSpendIsCost(s, names, Midnight(now));
    FleetSpendIsCost(s, names, WeekAgo(now));
    OverBudgetIff(c, Logs(s, names), now);
  }

  lemma {:induction false} ExceededAlone(c: Config, log: seq<Entry>, now: int)
    ensures Exceeded(c, log, now) <==> OverBudget(c, log, now)
  {
    SpendIsCost(log, Midnight(now));
    SpendIsCost(log, WeekAgo(now));
    OverBudgetIff(c, log, now);
  }

  /** Of the agents' directories, only this one is written. */
  ghost predicate OnlyWrites(s: Dirs, name: string, s': Dirs) {
    s'.Keys == s.Keys + {name} && forall other :: other in s && other != name ==> s'[other] == s[other]
  }

  /** The entry a task leaves: priced by the agent's model, and flagged if a budget was spent before. */
  ghost predicate IsLogged(c: Config, d: Dir, e: Entry, task: string, success: bool, tokens: int, latency: real,
                           preview: string, now: int)
  {
    && e.task == task && e.success == success && e.tokens == tokens && e.latency == latency && e.stamp == now
    && e.cost == (tokens as real) * c.price(if d.identity.Some? then d.identity.value.model else "")
    && e.preview <= preview && |e.preview| == (if |preview| < 500 then |preview| else 500)
    && (e.flagged <==> OverBudget(c, d.log, now))
  }

  /** The entry goes to the end of the log, and a registered agent's summary counts it. */
  ghost predicate CountsIn(d: Dir, e: Entry, d': Dir) {
    && d'.log == d.log + [e] && d'.gens == d.gens && d'.active == d.active && d'.evolutions == d.evolutions
    && (d.identity.None? ==> d'.identity.None?)
    && (d.identity.Some? ==> d'.identity.Some? && IsCounted(d.identity.value, e, d'.identity.value))
  }

  ghost predicate IsCounted(i: Identity, e: Entry, i': Identity) {
    && i'.name == i.name && i'.role == i.role && i'.model == i.model && i'.prompt == i.prompt
    && i'.generation == i.generation && i'.lastActive == e.stamp && i'.calls == i.calls + 1
    && i'.tokens == i.tokens + e.tokens
    && (e.success ==> i'.completed == i.completed + 1 && i'.failed == i.failed)
    && (!e.success ==> i'.completed == i.completed && i'.failed == i.failed + 1)
    && exists dropped :: IsHistory(i.history, e, i'.history, dropped)
  }

  /** The newest fifty entries. */
  ghost predicate IsHistory(h: seq<Entry>, e: Entry, h': seq<Entry>, dropped: seq<Entry>) {
    h + [e] == dropped + h' && |h'| <= 50 && (dropped != [] ==> |h'| == 50)
  }

  lemma {:induction false} LogEffects(c: Config, s: Dirs, name: string, task: string, success: bool, tokens: int,
                                      latency: real, preview: string, now: int)
    ensures var act := Act.LogTask(task, success, tokens, latency, preview);
            var d, s' := At(s, name), Step(c, s, Op(name, act, now));
            && OnlyWrites(s, name, s') && s'[name].log != []
            && var e := s'[name].log[|s'[name].log| - 1];
               IsLogged(c, d, e, task, success, tokens, latency, preview, now) && CountsIn(d, e, s'[name])
  {
    var act, d := Act.LogTask(task, success, tokens, latency, preview), At(s, name);
    ExceededAlone(c, d.log, now);
    if d.identity.Some? {
      var i, e := d.identity.value, EntryFor(c, d, act, now);
      var n := |i.history| + 1;
      assert IsHistory(i.history, e, Last(i.history + [e], 50), (i.history + [e])[..if 50 < n then n - 50 else 0]);
    }
  }

  /** A first registration: counters at zero, and the prompt as generation zero, active and noted. */
  ghost predicate IsRegistered(d: Dir, name: string, role: string, model: string, prompt: string, now: int, d': Dir) {
    && d'.identity == Some(Identity(name, role, model, prompt, now, 0, 0, 0, 0, 0, []))
    && d'.log == d.log && d'.active == Some(prompt) && Wrote(d.gens, 0, prompt, d'.gens)
    && Noted(d.evolutions, 0, "initial registration", now, prompt, d'.evolutions)
  }

  ghost predicate Wrote(gens: map<nat, string>, n: nat, prompt: string, gens': map<nat, string>) {
    && gens'.Keys == gens.Keys + {n} && gens'[n] == prompt
    && forall k :: k in gens && k != n ==> gens'[k] == gens[k]
  }

  ghost predicate Noted(notes: seq<Evolution>, n: nat, reason: string, now: int, prompt: string,
                        notes': seq<Evolution>)
  {
    && |notes'| == |notes| + 1 && notes <= notes'
    && var e := notes'[|notes|];
       e.generation == n && e.reason == reason && e.stamp == now && e.preview <= prompt
       && |e.preview| == (if |prompt| < 200 then |prompt| else 200)
  }

  lemma {:induction false} RegisterEffects(c: Config, s: Dirs, name: string, role: string, model: string,
                                           prompt: string, now: int)
    ensures var d, s' := At(s, name), Step(c, s, Op(name, Register(name, role, model, prompt), now));
            && (d.identity.Some? ==> s' == s)
            && (d.identity.None? ==>
                  OnlyWrites(s, name, s') && IsRegistered(d, name, role, model, prompt, now, s'[name]))
  {
    if At(s, name).identity.Some? {
      assert s[name := At(s, name)] == s;
    }
  }

  /**
   The next generation: the prompt until now stays archived under its own number, the next one
   is archived under the next number, active and noted.
   */
  ghost predicate IsEvolved(d: Dir, next: string, reason: string, now: int, d': Dir)
    requires d.identity.Some?
  {
    var i := d.identity.value;
    && d'.identity.Some?
    && d'.identity.value == Identity(i.name, i.role, i.model, next, now, i.completed, i.failed, i.tokens, i.calls,
                                     i.generation + 1, i.history)
    && d'.log == d.log && d'.active == Some(next)
    && Noted(d.evolutions, i.generation + 1, reason, now, next, d'.evolutions)
    && exists archived :: FilesEvolved(d, i.generation, next, archived, d'.gens)
  }

  ghost predicate FilesEvolved(d: Dir, n: nat, next: string, archived: map<nat, string>, gens: map<nat, string>) {
    && Wrote(archived, n + 1, next, gens)
    && if d.active.None? || n in d.gens then archived == d.gens else Wrote(d.gens, n, d.active.value, archived)
  }

  lemma {:induction false} EvolveEffects(c: Config, s: Dirs, name: string, next: string, reason: string, now: int)
    ensures var d, s' := At(s, name), Step(c, s, Op(name, Evolve(next, reason), now));
            && (d.identity.None? ==> s' == s)
            && (d.identity.Some? ==> OnlyWrites(s, name, s') && IsEvolved(d, next, reason, now, s'[name]))
  {
    var d := At(s, name);
    if d.identity.Some? {
      var n := d.identity.value.generation;
      assert FilesEvolved(d, n, next, Archived(d, n), Step(c, s, Op(name, Evolve(next, reason), now))[name].gens);
    }
  }

  class AgentRegistry {
    var dirs: Dirs
    const config: Config

    constructor (config: Config)
      ensures dirs == map[] && this.config == config
    {
      dirs, this.config := map[], config;
    }

    /** `_aggregate_spend` over one agent or over the registered ones. */
    method AggregateSpend(names: seq<string>, cutoff: int) returns (total: real)
      ensures total == FleetSpend(dirs, names, cutoff) == Cost(Filter(Logs(dirs, names), From(cutoff)))
    {
      FleetSpendIsCost(dirs, names, cutoff);
      total := 0.0;
      for i := 0 to |names|
        invariant total == FleetSpend(dirs, names[..i], cutoff)
      {
        var entries := At(dirs, names[i]).log;
        ghost var before := total;
        for j := 0 to |entries|
          invariant total == before + Spend(entries[..j], cutoff)
        {
          assert entries[..j + 1][..j] == entries[..j];
          if cutoff <= entries[j].stamp { total := total + entries[j].cost; }
        }
        assert entries[..|entries|] == entries && names[..i + 1][..i] == names[..i];
      }
      assert names[..|names|] == names;
    }

    /** `is_budget_exceeded`, the kill switch; the week is added up only if the day is within budget. */
    method IsBudgetExceeded(names: seq<string>, now: int) returns (exceeded: bool)
      ensures exceeded <==>
                config.daily <= FleetSpend(dirs, names, Midnight(now)) ||
                config.weekly <= FleetSpend(dirs, names, WeekAgo(now))
      ensures exceeded <==> OverBudget(config, Logs(dirs, names), now)
    {
      ExceededIff(config, dirs, names, now);
      var daily := AggregateSpend(names, Midnight(now));
      if config.daily <= daily { return true; }
      var weekly := AggregateSpend(names, WeekAgo(now));
      exceeded := config.weekly <= weekly;
    }

    /** `check_budget`: over budget exactly when the kill switch says so, and nothing remains then of one budget. */
    method CheckBudget(names: seq<string>, now: int) returns (status: Status, dailyLeft: real, weeklyLeft: real)
      ensures status == Over <==>
                config.daily <= FleetSpend(dirs, names, Midnight(now)) ||
                config.weekly <= FleetSpend(dirs, names, WeekAgo(now))
      ensures status == Over <==> OverBudget(config, Logs(dirs, names), now)
      ensures status == Ok <==> status != Over && FleetSpend(dirs, names, Midnight(now)) < config.daily * 0.8
                                && FleetSpend(dirs, names, WeekAgo(now)) < config.weekly * 0.8
      ensures status == Over || (dailyLeft + FleetSpend(dirs, names, Midnight(now)) == config.daily
                                 && weeklyLeft + FleetSpend(dirs, names, WeekAgo(now)) == config.weekly)
      ensures 0.0 <= dailyLeft && 0.0 <= weeklyLeft && (status == Over <==> dailyLeft == 0.0 || weeklyLeft == 0.0)
      ensures 0.0 < config.daily && 0.0 < config.weekly && status == Ok ==>
                config.daily * 0.2 < dailyLeft && config.weekly * 0.2 < weeklyLeft
    {
      ExceededIff(config, dirs, names, now);
      var daily := AggregateSpend(names, Midnight(now));
      var weekly := AggregateSpend(names, WeekAgo(now));
      dailyLeft := if config.daily - daily > 0.0 then config.daily - daily else 0.0;
      weeklyLeft := if config.weekly - weekly > 0.0 then config.weekly - weekly else 0.0;
      if config.daily <= daily || config.weekly <= weekly {
        status := Over;
      } else if config.daily * 0.8 <= daily || config.weekly * 0.8 <= weekly {
        status := Warning;
      } else {
        status := Ok;
      }
    }

    method RegisterAgent(name: string, role: string, model: string, prompt: string, now: int)
      returns (identity: Identity)
      modifies this
      ensures dirs == Step(config, old(dirs), Op(name, Register(name, role, model, prompt), now))
      ensures dirs[name].identity == Some(identity)
      ensures At(old(dirs), name).identity.Some? ==> identity == old(dirs)[name].identity.value && dirs == old(dirs)
      ensures At(old(dirs), name).identity.None? ==>
                OnlyWrites(old(dirs), name, dirs)
                && IsRegistered(At(old(dirs), name), name, role, model, prompt, now, dirs[name])
    {
      RegisterEffects(config, dirs, name, role, model, prompt, now);
      var d := At(dirs, name);
      if d.identity.Some? {
        assert dirs == dirs[name := d];
        return d.identity.value;
      }
      identity := Identity(name, role, model, prompt, now, 0, 0, 0, 0, 0, []);
      d := d.(identity := Some(identity));
      d := d.(active := Some(prompt), gens := d.gens[0 := prompt]);
      d := d.(evolutions := d.evolutions + [Evolution(0, "initial registration", now, Clip(prompt, 200))]);
      dirs := dirs[name := d];
    }

    method LogTask(name: string, task: string, success: bool, tokens: int, latency: real, preview: string, now: int)
      modifies this
      ensures dirs == Step(config, old(dirs), Op(name, Act.LogTask(task, success, tokens, latency, preview), now))
      ensures OnlyWrites(old(dirs), name, dirs) && dirs[name].log != []
      ensures var d, e := At(old(dirs), name), dirs[name].log[|dirs[name].log| - 1];
              IsLogged(config, d, e, task, success, tokens, latency, preview, now) && CountsIn(d, e, dirs[name])
    {
      LogEffects(config, dirs, name, task, success, tokens, latency, preview, now);
      WriteTask(name, task, success, tokens, latency, preview, now);
    }

    method WriteTask(name: string, task: string, success: bool, tokens: int, latency: real, preview: string, now: int)
      modifies this
      ensures dirs == Step(config, old(dirs), Op(name, Act.LogTask(task, success, tokens, latency, preview), now))
    {
      var d := At(dirs, name);
      var model := if d.identity.Some? then d.identity.value.model else "";
      var cost := tokens as real * config.price(model);
      var entry := Entry(task, success, tokens, latency, cost, now, Clip(preview, 500), false);
      var exceeded := IsBudgetExceeded([name], now);
      SpendOfOne(dirs, name, Midnight(now));
      SpendOfOne(dirs, name, WeekAgo(now));
      if exceeded {
        entry := entry.(flagged := true);
      }
      assert entry == EntryFor(config, d, Act.LogTask(task, success, tokens, latency, preview), now);
      d := d.(log := d.log + [entry]);
      if d.identity.Some? {
        var i := CountEntry(d.identity.value, entry);
        d := d.(identity := Some(i));
      }
      dirs := dirs[name := d];
    }

    method CountEntry(identity: Identity, entry: Entry) returns (i: Identity)
      ensures i == Counted(identity, entry)
    {
      i := identity;
      if entry.success {
        i := i.(completed := i.completed + 1);
      } else {
        i := i.(failed := i.failed + 1);
      }
      i := i.(tokens := i.tokens + entry.tokens, calls := i.calls + 1, lastActive := entry.stamp);
      var history := i.history + [entry];
      if |history| > 50 { history := history[|history| - 50..]; }
      i := i.(history := history);
    }

    /** `evolve_prompt`: false where the source raises. */
    method EvolvePrompt(name: string, next: string, reason: string, now: int) returns (registered: bool)
      modifies this
      ensures registered <==> At(old(dirs), name).identity.Some?
      ensures dirs == Step(config, old(dirs), Op(name, Evolve(next, reason), now))
      ensures !registered ==> dirs == old(dirs)
      ensures registered ==> OnlyWrites(old(dirs), name, dirs)
                             && IsEvolved(At(old(dirs), name), next, reason, now, dirs[name])
    {
      EvolveEffects(config, dirs, name, next, reason, now);
      var d := At(dirs, name);
      if d.identity.None? { return false; }
      var i := d.identity.value;
      var current := i.generation;
      if d.active.Some? && current !in d.gens {
        d := d.(gens := d.gens[current := d.active.value]);
      }
      d := d.(active := Some(next));
      d := d.(gens := d.gens[current + 1 := next]);
      d := d.(identity := Some(i.(generation := current + 1, prompt := next, lastActive := now)));
      d := d.(evolutions := d.evolutions + [Evolution(current + 1, reason, now, Clip(next, 200))]);
      dirs := dirs[name := d];
      registered := true;
    }
  }

  lemma {:induction false} SpendOfOne(s: Dirs, name: string, cutoff: int)
    ensures FleetSpend(s, [name], cutoff) == Spend(At(s, name).log, cutoff)
  {
    assert [name][..0] == [];
  }
}
