/**
 The bounded completion loops of `dharma_swarm/agent_runner.py` and
 `dharma_swarm/agent_runner_quality.py`: repair attempts around a tool loop
 around a provider. Provider, tools and assessor are arbitrary functions of every
 request sent so far, and provider and tools may raise or time out; the parser of
 tool calls and the test for provider failures are arbitrary functions of a text.
 */
module CompletionLoops {
  import opened Options
  import opened Numbers

  datatype ToolCall = ToolCall(id: Option<string>, name: string, arguments: string)

  /** A call as it is put into an assistant message. */
  datatype Call = Call(id: string, name: string, arguments: string)

  datatype Message =
    | User(content: string)
    | Assistant(content: string, calls: seq<Call>)
    | Tool(callId: string, content: string)

  type Request = seq<Message>

  datatype Reply = Response(content: string, toolCalls: seq<ToolCall>) | ProviderTimedOut | ProviderRaised

  datatype ToolResult = Output(text: string) | ToolTimedOut | ToolRaised

  datatype Assessment = Assessment(accepted: bool, reason: string)

  /** The surroundings. */
  datatype World = World(
    provider: seq<Request> -> Reply,
    parse: string -> seq<ToolCall>,
    tool: (seq<Request>, nat, ToolCall) -> ToolResult,
    looksFailed: string -> bool,
    assess: (seq<Request>, string) -> Assessment)

  // ---- settings ------------------------------------------------------------------

  /** A metadata value: nothing, a number, a string that reads as an integer, or something else truthy. */
  datatype Setting = Absent | Number(x: real) | Numeral(n: int) | Junk

  predicate IsSet(s: Setting) {
    match s
    case Absent => false
    case Number(x) => x != 0.0
    case Numeral(_) => true
    case Junk => true
  }

  /** `a or b or default`. */
  function FirstTruthy(a: Setting, b: Setting, default: Setting): Setting {
    if IsSet(a) then a else if IsSet(b) then b else default
  }

  function Clamp(lo: int, hi: int, n: int): int {
    if (if hi < n then hi else n) < lo then lo else if hi < n then hi else n
  }

  /** `_tool_loop_max_rounds`. */
  function MaxRounds(task: Setting, config: Setting): (r: nat)
    ensures 1 <= r <= 32
  {
    match FirstTruthy(task, config, Number(8.0))
    case Number(x) => Clamp(1, 32, Trunc(x))
    case Numeral(n) => Clamp(1, 32, n)
    case _ => 8
  }

  /** `semantic_repair_attempts`; analytical tasks get one more by default. */
  function RepairAttempts(task: Setting, config: Setting, analytical: bool): (r: nat)
    ensures r <= 3
  {
    match FirstTruthy(task, config, Number(if analytical then 2.0 else 1.0))
    case Number(x) => Clamp(0, 3, Trunc(x))
    case Numeral(n) => Clamp(0, 3, n)
    case _ => 1
  }

  /**
   Repairs are off exactly when the first setting that counts as set is a number below
   one or a numeral not above zero; the number zero itself counts as not set.
   */
  lemma {:induction false} RepairsOffIff(task: Setting, config: Setting, analytical: bool)
    ensures RepairAttempts(task, config, analytical) == 0 <==>
            var s := if IsSet(task) then task else config;
            (s.Number? && s.x != 0.0 && s.x < 1.0) || (s.Numeral? && s.n <= 0)
  {
  }

  /** The whole part of a number, or the numeral itself, brought between the bounds. */
  ghost predicate Within(lo: int, hi: int, s: Setting, r: int)
    requires s.Number? || s.Numeral?
  {
    && lo <= r <= hi
    && (s.Numeral? ==> (lo <= s.n <= hi ==> r == s.n) && (s.n < lo ==> r == lo) && (hi < s.n ==> r == hi))
    && (s.Number? ==>
          (lo as real < s.x < (hi + 1) as real ==> r as real <= s.x < (r + 1) as real)
          && (s.x <= lo as real ==> r == lo) && (hi as real < s.x ==> r == hi))
  }

  /** The first setting that counts as set decides; there are eight rounds when none does, or it is no number. */
  lemma {:induction false} MaxRoundsIs(task: Setting, config: Setting)
    ensures var s, r := if IsSet(task) then task else config, MaxRounds(task, config);
            if !IsSet(s) || s.Junk? then r == 8 else Within(1, 32, s, r)
  {
  }

  /** One repair by default, two for analytical tasks, and one when the setting is no number. */
  lemma {:induction false} RepairAttemptsIs(task: Setting, config: Setting, analytical: bool)
    ensures var s, r := if IsSet(task) then task else config, RepairAttempts(task, config, analytical);
            if !IsSet(s) then r == (if analytical then 2 else 1)
            else if s.Junk? then r == 1 else Within(0, 3, s, r)
  {
  }

  /** `semantic_attempt_timeout_seconds`: `explicit` and `total` are what the metadata say. */
  function AttemptTimeout(explicit: Option<real>, total: Option<real>, remaining: int): Option<real> {
    if explicit.Some? then Some(if explicit.value < 0.01 then 0.01 else explicit.value)
    else if remaining <= 0 || total.None? || total.value <= 0.0 then None
    else
      var slice := 30.0 * remaining as real;
      var floor := if slice < total.value * 0.25 then total.value * 0.25 else slice;
      var reserve := if floor < total.value * 0.75 then floor else total.value * 0.75;
      var attempt := total.value - reserve;
      if attempt <= 0.0 then None else if attempt < 5.0 then Some(5.0) else Some(attempt)
  }

  /**
   When an attempt has no time of its own it gets a quarter to three quarters of the total,
   or five seconds. Its time is within the total exactly when a time of its own, and the
   hundredth of a second it is raised to, are; or without one, from a total of five seconds on.
   */
  lemma {:induction false} AttemptTimeoutFitsIff(explicit: Option<real>, total: real, remaining: int)
    ensures var t := AttemptTimeout(explicit, Some(total), remaining);
            && (t.None? <==> explicit.None? && (remaining <= 0 || total <= 0.0))
            && (t.Some? ==>
                  (t.value <= total <==>
                   if explicit.Some? then explicit.value <= total && 0.01 <= total else 5.0 <= total))
            && (explicit.None? && t.Some? ==> total * 0.25 <= t.value && (t.value <= total * 0.75 || t.value == 5.0))
  {
  }

  /** What is held back of the total for the attempts left: 30 seconds each, between a quarter and three quarters. */
  ghost predicate HeldBack(total: real, remaining: int, back: real) {
    && total * 0.25 <= back <= total * 0.75
    && (total * 0.25 <= 30.0 * remaining as real <= total * 0.75 ==> back == 30.0 * remaining as real)
    && (30.0 * remaining as real < total * 0.25 ==> back == total * 0.25)
    && (total * 0.75 < 30.0 * remaining as real ==> back == total * 0.75)
  }

  lemma {:induction false} AttemptTimeoutIs(explicit: Option<real>, total: real, remaining: int)
    requires 0.0 < total && 0 < remaining
    ensures var t := AttemptTimeout(explicit, Some(total), remaining);
            && t.Some?
            && (explicit.Some? ==> explicit.value <= t.value && 0.01 <= t.value
                                   && (t.value == explicit.value || t.value == 0.01))
            && (explicit.None? ==> exists back :: HeldBack(total, remaining, back)
                                     && t.value == if total - back < 5.0 then 5.0 else total - back)
  {
    var slice := 30.0 * remaining as real;
    var back := if total * 0.75 < slice then total * 0.75 else if slice < total * 0.25 then total * 0.25 else slice;
    assert HeldBack(total, remaining, back);
  }

  // ---- messages ------------------------------------------------------------------

  function Digit(n: nat): char
    requires n < 10
  {
    "0123456789"[n]
  }

  function Decimal(n: nat): string {
    if n < 10 then [Digit(n)] else Decimal(n / 10) + [Digit(n % 10)]
  }

  /** The id used both in the assistant message and in the tool message; ordinals count from one. */
  function CallId(c: ToolCall, ordinal: nat): string {
    if Truthy(c.id) then c.id.value else "tool-call-" + Decimal(ordinal)
  }

  function Normalized(cs: seq<ToolCall>): (r: seq<Call>)
    ensures |r| == |cs| && forall i :: 0 <= i < |cs| ==> r[i] == Call(CallId(cs[i], i + 1), cs[i].name, cs[i].arguments)
  {
    seq(|cs|, i requires 0 <= i < |cs| => Call(CallId(cs[i], i + 1), cs[i].name, cs[i].arguments))
  }

  predicate HasOwnId(c: ToolCall) { Truthy(c.id) }

  lemma {:induction false} DecimalInjective(m: nat, n: nat)
    requires Decimal(m) == Decimal(n)
    ensures m == n
  {
    DecimalEnds(m);
    DecimalEnds(n);
    if 10 <= m && 10 <= n {
      var d := Decimal(m);
      assert d[..|d| - 1] == Decimal(m / 10) == Decimal(n / 10);
      DecimalInjective(m / 10, n / 10);
    }
  }

  lemma {:induction false} DecimalEnds(n: nat)
    ensures var d := Decimal(n);
            d != [] && d[|d| - 1] == Digit(n % 10) && (10 <= n ==> 2 <= |d| && d[..|d| - 1] == Decimal(n / 10))
            && (n < 10 ==> |d| == 1)
  {
    if 10 <= n { DecimalEnds(n / 10); }
  }

  ghost predicate DistinctIds(cs: seq<Call>) { forall i, j :: 0 <= i < j < |cs| ==> cs[i].id != cs[j].id }

  ghost predicate OwnIdsDiffer(cs: seq<ToolCall>) {
    forall i, j :: 0 <= i < j < |cs| && HasOwnId(cs[i]) && HasOwnId(cs[j]) ==> cs[i].id != cs[j].id
  }

  /** Some call's own id reads like the one made up for another call. */
  ghost predicate OwnIdLooksMadeUp(cs: seq<ToolCall>) {
    exists i, j :: 0 <= i < |cs| && 0 <= j < |cs| && HasOwnId(cs[i]) && !HasOwnId(cs[j])
        && cs[i].id.value == CallId(cs[j], j + 1)
  }

  /**
   The ids of one message tell its calls apart if and only if the calls' own ids do and
   none of them reads like one made up for another call; made-up ids never coincide.
   */
  lemma {:induction false} IdsDistinctIff(cs: seq<ToolCall>)
    ensures DistinctIds(Normalized(cs)) <==> OwnIdsDiffer(cs) && !OwnIdLooksMadeUp(cs)
  {
    if DistinctIds(Normalized(cs)) { DistinctOwnIds(cs); }
    if OwnIdsDiffer(cs) && !OwnIdLooksMadeUp(cs) { DistinctNormalizedIds(cs); }
  }

  lemma {:induction false} DistinctOwnIds(cs: seq<ToolCall>)
    requires DistinctIds(Normalized(cs))
    ensures OwnIdsDiffer(cs) && !OwnIdLooksMadeUp(cs)
  {
    var ns := Normalized(cs);
    forall i, j | 0 <= i < |cs| && 0 <= j < |cs| && HasOwnId(cs[i]) && !HasOwnId(cs[j])
      ensures cs[i].id.value != CallId(cs[j], j + 1)
    {
      assert ns[i].id == cs[i].id.value && ns[j].id == CallId(cs[j], j + 1);
      assert if i < j then ns[i].id != ns[j].id else ns[j].id != ns[i].id;
    }
    forall i, j | 0 <= i < j < |cs| && HasOwnId(cs[i]) && HasOwnId(cs[j]) ensures cs[i].id != cs[j].id {
      assert ns[i].id != ns[j].id;
    }
  }

  lemma {:induction false} DistinctNormalizedIds(cs: seq<ToolCall>)
    requires OwnIdsDiffer(cs) && !OwnIdLooksMadeUp(cs)
    ensures DistinctIds(Normalized(cs))
  {
    forall i, j | 0 <= i < j < |cs| ensures Normalized(cs)[i].id != Normalized(cs)[j].id {
      if !HasOwnId(cs[i]) && !HasOwnId(cs[j]) {
        MadeUpIdsDiffer(cs[i], i + 1, cs[j], j + 1);
      }
    }
  }

  lemma {:induction false} MadeUpIdsDiffer(a: ToolCall, m: nat, b: ToolCall, n: nat)
    requires !HasOwnId(a) && !HasOwnId(b) && m != n
    ensures CallId(a, m) != CallId(b, n)
  {
    if CallId(a, m) == CallId(b, n) {
      var prefix := "tool-call-";
      assert CallId(a, m)[|prefix|..] == Decimal(m) && CallId(b, n)[|prefix|..] == Decimal(n);
      DecimalInjective(m, n);
    }
  }

  /** An own id can collide with a made-up one. */
  lemma {:induction false} OwnIdCanCollide(name: string, arguments: string)
    ensures !DistinctIds(Normalized([ToolCall(Some("tool-call-2"), name, arguments), ToolCall(None, name, arguments)]))
  {
    var cs := [ToolCall(Some("tool-call-2"), name, arguments), ToolCall(None, name, arguments)];
    assert Decimal(2) == "2";
    assert Normalized(cs)[0].id == Normalized(cs)[1].id;
  }

  function Cut(s: string, n: nat): string { if n < |s| then s[..n] else s }

  /** The part of the critique that varies; the fixed instructions are left out. */
  function Critique(reason: string, attempt: nat, failed: string): string {
    "Failure reason: " + reason + "\nRepair attempt: " + Decimal(attempt) + "\nPrevious response:\n" + Cut(failed, 6000)
  }

  /** `build_semantic_repair_request`. */
  function RepairRequest(r: Request, failed: string, reason: string, attempt: nat): Request {
    r + [Assistant(Cut(failed, 12000), []), User(Critique(reason, attempt, failed))]
  }

  /** User and assistant strictly in turn, user first, no tool traffic. */
  ghost predicate Alternating(r: Request) {
    forall i :: 0 <= i < |r| ==> if i % 2 == 0 then r[i].User? else r[i].Assistant? && r[i].calls == []
  }

  /** One tool round: an assistant message with calls, answered by one tool message a call, same ids, same order. */
  ghost predicate Exchange(ms: seq<Message>) {
    && ms != [] && ms[0].Assistant? && ms[0].calls != [] && |ms| == 1 + |ms[0].calls|
    && forall i :: 0 <= i < |ms[0].calls| ==> ms[1 + i].Tool? && ms[1 + i].callId == ms[0].calls[i].id
  }

  /** Nothing but complete tool rounds, at most `n` of them. */
  ghost predicate Exchanges(ms: seq<Message>, n: nat)
    decreases n
  {
    ms == [] || (n > 0 && exists k :: 0 <= k < |ms| && LastExchange(ms, n, k))
  }

  ghost predicate LastExchange(ms: seq<Message>, n: nat, k: nat)
    requires k < |ms| && n > 0
    decreases n, 0
  {
    Exchange(ms[k..]) && Exchanges(ms[..k], n - 1)
  }

  lemma {:induction false} OneExchangeMore(ms: seq<Message>, n: nat, block: seq<Message>)
    requires Exchanges(ms, n) && Exchange(block)
    ensures Exchanges(ms + block, n + 1)
  {
    var all := ms + block;
    assert all[|ms|..] == block && all[..|ms|] == ms;
    assert LastExchange(all, n + 1, |ms|);
  }

  /** A request of an attempt: the attempt's opening, then complete tool rounds. */
  ghost predicate BelongsTo(r: Request, opening: Request, rounds: nat) {
    opening <= r && Exchanges(r[|opening|..], rounds)
  }

  // ---- the tool loop ----------------------------------------------------------------

  datatype Attempt = Answered(content: string) | TimedOut | Raised

  /** What running the calls from the i-th on comes to, behind the answers so far. */
  function ToolsFrom(w: World, log: seq<Request>, calls: seq<ToolCall>, i: nat, answers: seq<Message>)
    : (Attempt, seq<Message>)
    requires i <= |calls|
    decreases |calls| - i
  {
    if i == |calls| then (Answered(""), answers)
    else
      match w.tool(log, i, calls[i])
      case Output(text) => ToolsFrom(w, log, calls, i + 1, answers + [Tool(CallId(calls[i], i + 1), Cut(text, 16000))])
      case ToolTimedOut => (TimedOut, answers)
      case ToolRaised => (Raised, answers)
  }

  /** Runs the calls of one response and answers each with a tool message, up to the first that fails. */
  method RunTools(w: World, log: seq<Request>, calls: seq<ToolCall>) returns (outcome: Attempt, answers: seq<Message>)
    ensures (outcome, answers) == ToolsFrom(w, log, calls, 0, [])
    ensures outcome.Answered? ==> Answers(answers, calls)
  {
    answers := [];
    for i := 0 to |calls|
      invariant |answers| == i && ToolsFrom(w, log, calls, 0, []) == ToolsFrom(w, log, calls, i, answers)
      invariant forall j :: 0 <= j < i ==> answers[j].Tool? && answers[j].callId == Normalized(calls)[j].id
    {
      match w.tool(log, i, calls[i])
      case Output(text) => answers := answers + [Tool(CallId(calls[i], i + 1), Cut(text, 16000))];
      case ToolTimedOut => return TimedOut, answers;
      case ToolRaised => return Raised, answers;
    }
    return Answered(""), answers;
  }

  /** All requests from position `from` on belong to the attempt that opens with `opening`. */
  ghost predicate SentFor(log: seq<Request>, from: nat, opening: Request) {
    forall i :: from <= i < |log| ==> BelongsTo(log[i], opening, i - from)
  }

  function CallsOf(w: World, content: string, calls: seq<ToolCall>): seq<ToolCall> {
    if calls != [] then calls else w.parse(content)
  }

  /** What a tool loop with so many rounds left comes to, and the requests sent by then. */
  function RoundsFrom(w: World, current: Request, left: nat, log: seq<Request>): (Attempt, seq<Request>)
    decreases left
  {
    if left == 0 then (Raised, log)
    else
      var sent := log + [current];
      match w.provider(sent)
      case ProviderTimedOut => (TimedOut, sent)
      case ProviderRaised => (Raised, sent)
      case Response(content, toolCalls) =>
        var calls := CallsOf(w, content, toolCalls);
        if calls == [] then (Answered(content), sent)
        else
          var (tools, answers) := ToolsFrom(w, sent, calls, 0, []);
          if !tools.Answered? then (tools, sent)
          else RoundsFrom(w, current + [Assistant(content, Normalized(calls))] + answers, left - 1, sent)
  }

  /**
   `_complete_with_tool_loop`: at most `maxRounds` provider calls, the i-th of
   them behind at most i complete tool rounds.
   */
  method CompleteWithToolLoop(w: World, opening: Request, maxRounds: nat, log: seq<Request>)
    returns (outcome: Attempt, log': seq<Request>)
    ensures (outcome, log') == RoundsFrom(w, opening, maxRounds, log)
    ensures log <= log' && |log'| <= |log| + maxRounds
    ensures SentFor(log', |log|, opening)
    ensures outcome.Answered? ==> |log| < |log'| && AnsweredBy(w, log', outcome.content)
  {
    log' := log;
    var current := opening;
    assert current[|opening|..] == [];
    for round := 0 to maxRounds
      invariant log <= log' && |log'| == |log| + round && SentFor(log', |log|, opening)
      invariant BelongsTo(current, opening, round)
      invariant RoundsFrom(w, opening, maxRounds, log) == RoundsFrom(w, current, maxRounds - round, log')
    {
      SentOneMore(log', |log|, opening, current);
      log' := log' + [current];
      var reply := w.provider(log');
      if reply.ProviderTimedOut? {
        return TimedOut, log';
      }
      if reply.ProviderRaised? {
        return Raised, log';
      }
      var calls := CallsOf(w, reply.content, reply.toolCalls);
      if calls == [] {
        return Answered(reply.content), log';
      }
      var tools, answers := RunTools(w, log', calls);
      if !tools.Answered? {
        return tools, log';
      }
      RoundDone(opening, current, round, reply.content, calls, answers);
      current := current + [Assistant(reply.content, Normalized(calls))] + answers;
    }
    return Raised, log';
  }

  lemma {:induction false} SentOneMore(log: seq<Request>, from: nat, opening: Request, r: Request)
    requires from <= |log| && SentFor(log, from, opening) && BelongsTo(r, opening, |log| - from)
    ensures SentFor(log + [r], from, opening)
  {
    forall i | from <= i < |log| + 1 ensures BelongsTo((log + [r])[i], opening, i - from) {
      assert i < |log| ==> BelongsTo(log[i], opening, i - from);
    }
  }

  ghost predicate Answers(answers: seq<Message>, calls: seq<ToolCall>) {
    && |answers| == |calls|
    && forall i :: 0 <= i < |calls| ==> answers[i].Tool? && answers[i].callId == Normalized(calls)[i].id
  }

  /** A response with calls and their answers make one more complete round. */
  lemma {:induction false} RoundDone(opening: Request, current: Request, round: nat, content: string,
                                     calls: seq<ToolCall>, answers: seq<Message>)
    requires BelongsTo(current, opening, round) && calls != [] && Answers(answers, calls)
    ensures BelongsTo(current + [Assistant(content, Normalized(calls))] + answers, opening, round + 1)
  {
    var block := [Assistant(content, Normalized(calls))] + answers;
    RoundIsExchange(content, calls, answers);
    assert current + [Assistant(content, Normalized(calls))] + answers == current + block;
    AppendExchange(opening, current, round, block);
  }

  lemma {:induction false} RoundIsExchange(content: string, calls: seq<ToolCall>, answers: seq<Message>)
    requires calls != [] && Answers(answers, calls)
    ensures Exchange([Assistant(content, Normalized(calls))] + answers)
  {
    var cs := Normalized(calls);
    var block := [Assistant(content, cs)] + answers;
    forall i | 0 <= i < |cs| ensures block[1 + i].Tool? && block[1 + i].callId == cs[i].id {
      assert block[1 + i] == answers[i];
    }
  }

  lemma {:induction false} AppendExchange(opening: Request, current: Request, round: nat, block: seq<Message>)
    requires BelongsTo(current, opening, round) && Exchange(block)
    ensures BelongsTo(current + block, opening, round + 1)
  {
    OneExchangeMore(current[|opening|..], round, block);
    assert (current + block)[|opening|..] == current[|opening|..] + block;
  }

  /** The text is what the provider said to the last request. */
  ghost predicate AnsweredBy(w: World, log: seq<Request>, content: string) {
    w.provider(log).Response? && w.provider(log).content == content
  }

  // ---- the tool loop, round by round ----------------------------------------------------

  function Shortened(s: string, n: nat): string { if n < |s| then s[..n] else s }

  /**
   The last request was answered with calls, of its own or else parsed from its text; each was
   run, and the next request carries the calls and one tool message with the output for each.
   */
  ghost predicate RoundFollows(w: World, sent: seq<Request>, next: Request)
    requires sent != []
  {
    var reply := w.provider(sent);
    reply.Response? && exists calls, answers :: RoundOf(w, sent, reply, calls, answers, next)
  }

  ghost predicate RoundOf(w: World, sent: seq<Request>, reply: Reply, calls: seq<ToolCall>, answers: seq<Message>,
                          next: Request)
    requires sent != [] && reply.Response?
  {
    && calls == (if reply.toolCalls != [] then reply.toolCalls else w.parse(reply.content)) && calls != []
    && next == sent[|sent| - 1] + [Assistant(reply.content, Normalized(calls))] + answers
    && |answers| == |calls|
    && forall j :: 0 <= j < |calls| ==>
         && w.tool(sent, j, calls[j]).Output?
         && answers[j] == Tool(CallId(calls[j], j + 1), Shortened(w.tool(sent, j, calls[j]).text, 16000))
  }

  /** Why a tool loop that was allowed so many requests in all ended behind its last one. */
  ghost predicate LoopEnds(w: World, sent: seq<Request>, outcome: Attempt, allowed: nat) {
    var reply := w.provider(sent);
    match outcome
    case Answered(content) => reply == Response(content, []) && w.parse(content) == []
    case TimedOut => reply.ProviderTimedOut? || (reply.Response? && ToolFails(w, sent, reply, true))
    case Raised => reply.ProviderRaised? || (reply.Response? && (ToolFails(w, sent, reply, false) || |sent| == allowed))
  }

  /** Some call times out, or raises, and all calls before it have an output. */
  ghost predicate ToolFails(w: World, sent: seq<Request>, reply: Reply, timeout: bool)
    requires reply.Response?
  {
    var calls := if reply.toolCalls != [] then reply.toolCalls else w.parse(reply.content);
    exists j :: 0 <= j < |calls| && FailsAt(w, sent, calls, j, timeout)
  }

  ghost predicate FailsAt(w: World, sent: seq<Request>, calls: seq<ToolCall>, j: int, timeout: bool)
    requires 0 <= j < |calls|
  {
    && (if timeout then w.tool(sent, j, calls[j]).ToolTimedOut? else w.tool(sent, j, calls[j]).ToolRaised?)
    && forall i :: 0 <= i < j ==> w.tool(sent, i, calls[i]).Output?
  }

  lemma {:induction false} ToolsDone(w: World, sent: seq<Request>, calls: seq<ToolCall>, i: nat, answers: seq<Message>)
    requires i <= |calls| && |answers| == i
    requires forall j :: 0 <= j < i ==>
               w.tool(sent, j, calls[j]).Output?
               && answers[j] == Tool(CallId(calls[j], j + 1), Shortened(w.tool(sent, j, calls[j]).text, 16000))
    ensures var (o, r) := ToolsFrom(w, sent, calls, i, answers);
            && (o.Answered? ==> |r| == |calls| && forall j :: 0 <= j < |calls| ==>
                  w.tool(sent, j, calls[j]).Output?
                  && r[j] == Tool(CallId(calls[j], j + 1), Shortened(w.tool(sent, j, calls[j]).text, 16000)))
            && (o.TimedOut? ==> exists j :: 0 <= j < |calls| && FailsAt(w, sent, calls, j, true))
            && (o.Raised? ==> exists j :: 0 <= j < |calls| && FailsAt(w, sent, calls, j, false))
    decreases |calls| - i
  {
    if i < |calls| {
      match w.tool(sent, i, calls[i])
      case Output(text) =>
        ToolsDone(w, sent, calls, i + 1, answers + [Tool(CallId(calls[i], i + 1), Cut(text, 16000))]);
      case ToolTimedOut => assert FailsAt(w, sent, calls, i, true);
      case ToolRaised => assert FailsAt(w, sent, calls, i, false);
    }
  }

  /** The requests behind a log: the given one first, each next one a round further. */
  ghost predicate RoundByRound(w: World, log: seq<Request>, log': seq<Request>, opening: Request) {
    && log <= log'
    && (|log| < |log'| ==> log'[|log|] == opening)
    && forall i :: |log| <= i < |log'| - 1 ==> RoundAt(w, log', i)
  }

  ghost predicate RoundAt(w: World, log: seq<Request>, i: nat)
    requires i < |log| - 1
  {
    RoundFollows(w, log[..i + 1], log[i + 1])
  }

  lemma {:induction false} RoundsGoOn(w: World, current: Request, left: nat, log: seq<Request>, allowed: nat)
    requires |log| + left == allowed
    ensures var (outcome, log') := RoundsFrom(w, current, left, log);
            && RoundByRound(w, log, log', current)
            && (0 < left ==> |log| < |log'| <= allowed && LoopEnds(w, log', outcome, allowed))
    decreases left
  {
    if 0 < left {
      var sent := log + [current];
      var reply := w.provider(sent);
      if reply.Response? {
        var calls := CallsOf(w, reply.content, reply.toolCalls);
        if calls != [] {
          var (tools, answers) := ToolsFrom(w, sent, calls, 0, []);
          ToolsDone(w, sent, calls, 0, []);
          if !tools.Answered? {
            assert ToolFails(w, sent, reply, tools.TimedOut?);
          } else {
            var next := current + [Assistant(reply.content, Normalized(calls))] + answers;
            RoundsGoOn(w, next, left - 1, sent, allowed);
            RoundGoesOn(w, current, next, log, RoundsFrom(w, next, left - 1, sent).1, calls, answers);
            assert RoundsFrom(w, next, 0, sent) == (Raised, sent);
          }
        }
      }
    }
  }

  lemma {:induction false} RoundGoesOn(w: World, current: Request, next: Request, log: seq<Request>, log': seq<Request>,
                                       calls: seq<ToolCall>, answers: seq<Message>)
    requires RoundByRound(w, log + [current], log', next) && w.provider(log + [current]).Response?
    requires RoundOf(w, log + [current], w.provider(log + [current]), calls, answers, next)
    ensures RoundByRound(w, log, log', current)
  {
    forall i | |log| <= i < |log'| - 1 ensures RoundAt(w, log', i) {
      if i == |log| {
        assert log'[..i + 1] == log + [current] && log'[i + 1] == next;
      }
    }
  }

  // ---- the repair loop -----------------------------------------------------------------

  datatype Outcome = Accepted(content: string) | Failed

  function AttemptFrom(w: World, opening: Request, useTools: bool, maxRounds: nat, log: seq<Request>)
    : (Attempt, seq<Request>)
  {
    if useTools then RoundsFrom(w, opening, maxRounds, log)
    else
      var sent := log + [opening];
      match w.provider(sent)
      case Response(content, _) => (Answered(content), sent)
      case ProviderTimedOut => (TimedOut, sent)
      case ProviderRaised => (Raised, sent)
  }

  /** What an attempt comes to and the requests sent by then, from its opening and the requests sent before. */
  type Attempter = (Request, seq<Request>) -> (Attempt, seq<Request>)

  function AttempterOf(w: World, useTools: bool, maxRounds: nat): Attempter {
    (opening: Request, log: seq<Request>) => AttemptFrom(w, opening, useTools, maxRounds, log)
  }

  /** One attempt, with or without the tool loop. */
  method ExecuteAttempt(w: World, opening: Request, useTools: bool, maxRounds: nat, log: seq<Request>)
    returns (outcome: Attempt, log': seq<Request>)
    requires 1 <= maxRounds
    ensures (outcome, log') == AttemptFrom(w, opening, useTools, maxRounds, log)
    ensures log <= log' && |log'| <= |log| + maxRounds
    ensures SentFor(log', |log|, opening)
    ensures outcome.Answered? ==> |log| < |log'| && AnsweredBy(w, log', outcome.content)
  {
    if useTools {
      outcome, log' := CompleteWithToolLoop(w, opening, maxRounds, log);
    } else {
      log' := log + [opening];
      assert opening[|opening|..] == [];
      match w.provider(log')
      case Response(content, _) => outcome := Answered(content);
      case ProviderTimedOut => outcome := TimedOut;
      case ProviderRaised => outcome := Raised;
    }
  }

  /** What the attempts opened with, and where in the log each begins. */
  datatype Trace = Trace(openings: seq<Request>, starts: seq<nat>)

  /** Attempt k opens with the first message and k pairs of failed answer and critique. */
  ghost predicate WellOpened(t: Trace, first: Message) {
    && |t.starts| == |t.openings|
    && forall k :: 0 <= k < |t.openings| ==> GoodOpening(t.openings[k], first, k)
  }

  /** Every request was sent by an attempt it belongs to, and no attempt sent more than `maxRounds`. */
  ghost predicate WellSent(t: Trace, log: seq<Request>, maxRounds: nat)
    requires |t.starts| == |t.openings|
  {
    && (t.starts != [] ==> t.starts[0] == 0)
    && (forall k :: 0 <= k < |t.starts| ==> SentWell(t, log, maxRounds, k))
  }

  ghost predicate SentWell(t: Trace, log: seq<Request>, maxRounds: nat, k: nat)
    requires k < |t.starts| == |t.openings|
  {
    && t.starts[k] <= EndOf(t, log, k) <= t.starts[k] + maxRounds
    && EndOf(t, log, k) <= |log|
    && forall i :: t.starts[k] <= i < EndOf(t, log, k) ==> BelongsTo(log[i], t.openings[k], i - t.starts[k])
  }

  ghost function EndOf(t: Trace, log: seq<Request>, k: nat): nat
    requires k < |t.starts|
  {
    if k + 1 < |t.starts| then t.starts[k + 1] else |log|
  }

  // ---- the repair loop, attempt by attempt -------------------------------------------------

  /** What attempt `k` came to. */
  ghost function ResultOf(w: World, t: Trace, log: seq<Request>, f: Attempter, k: nat): Attempt
    requires k < |t.starts| == |t.openings| && t.starts[k] <= |log|
  {
    f(t.openings[k], log[..t.starts[k]]).0
  }

  /** Attempt `k` sent the requests from its start to the next attempt's. */
  ghost predicate Tried(w: World, t: Trace, log: seq<Request>, f: Attempter, k: nat)
    requires k < |t.starts| == |t.openings|
  {
    t.starts[k] <= EndOf(t, log, k) <= |log|
    && f(t.openings[k], log[..t.starts[k]]).1 == log[..EndOf(t, log, k)]
  }

  /** It timed out, or its answer does not look failed and is not accepted. */
  ghost predicate Rejects(w: World, result: Attempt, sent: seq<Request>) {
    || result.TimedOut?
    || (result.Answered? && !w.looksFailed(result.content) && !w.assess(sent, result.content).accepted)
  }

  ghost predicate Contains(s: string, part: string) {
    exists i :: ContainsAt(s, part, i)
  }

  ghost predicate ContainsAt(s: string, part: string, i: int) {
    0 <= i && i + |part| <= |s| && s[i..i + |part|] == part
  }

  /** The next opening: the answer, shortened, and a user message that carries the reason. */
  ghost predicate RepairedTo(w: World, opening: Request, result: Attempt, sent: seq<Request>, next: Request) {
    var text := if result.Answered? then result.content else "ATTEMPT TIMED OUT";
    var reason := if result.Answered? then w.assess(sent, result.content).reason else "attempt timeout";
    exists u :: next == opening + [Assistant(Shortened(text, 12000), []), User(u)] && Contains(u, reason)
  }

  /** Attempt `k` was rejected, and the one after it, if any, opens with its repair. */
  ghost predicate RejectedAt(w: World, t: Trace, log: seq<Request>, f: Attempter, k: nat)
    requires k < |t.starts| == |t.openings|
  {
    && Tried(w, t, log, f, k)
    && var result, sent := ResultOf(w, t, log, f, k), log[..EndOf(t, log, k)];
       && Rejects(w, result, sent)
       && (k + 1 < |t.openings| ==> RepairedTo(w, t.openings[k], result, sent, t.openings[k + 1]))
  }

  ghost predicate AllRejected(w: World, t: Trace, log: seq<Request>, f: Attempter, n: nat)
    requires n <= |t.starts| == |t.openings|
  {
    forall k :: 0 <= k < n ==> RejectedAt(w, t, log, f, k)
  }

  /** What the next attempt is to open with. */
  ghost predicate Upcoming(w: World, t: Trace, log: seq<Request>, f: Attempter, current: Request)
    requires |t.starts| == |t.openings|
  {
    t.openings != [] ==>
      var k := |t.openings| - 1;
      Tried(w, t, log, f, k)
      && RepairedTo(w, t.openings[k], ResultOf(w, t, log, f, k), log, current)
  }

  /** Another attempt leaves what happened as it was, and is itself the last. */
  lemma {:induction false} OneAttemptMore(w: World, t: Trace, log: seq<Request>, f: Attempter,
                                          current: Request, log': seq<Request>)
    requires |t.starts| == |t.openings| && AllRejected(w, t, log, f, |t.openings|)
    requires Upcoming(w, t, log, f, current)
    requires log' == f(current, log).1 && log <= log'
    ensures var t', n := Trace(t.openings + [current], t.starts + [|log|]), |t.openings|;
            && AllRejected(w, t', log', f, n)
            && Tried(w, t', log', f, n)
            && ResultOf(w, t', log', f, n) == f(current, log).0
  {
    var t', n := Trace(t.openings + [current], t.starts + [|log|]), |t.openings|;
    assert log'[..|log|] == log && log'[..|log'|] == log';
    forall k | 0 <= k < n ensures RejectedAt(w, t', log', f, k) {
      StaysRejected(w, t, log, f, current, log', k);
    }
  }

  lemma {:induction false} StaysRejected(w: World, t: Trace, log: seq<Request>, f: Attempter,
                                         current: Request, log': seq<Request>, k: nat)
    requires k < |t.starts| == |t.openings| && RejectedAt(w, t, log, f, k)
    requires Upcoming(w, t, log, f, current) && log <= log'
    ensures RejectedAt(w, Trace(t.openings + [current], t.starts + [|log|]), log', f, k)
  {
    var t' := Trace(t.openings + [current], t.starts + [|log|]);
    assert EndOf(t', log', k) == EndOf(t, log, k) <= |log|;
    assert log'[..t.starts[k]] == log[..t.starts[k]];
    assert log'[..EndOf(t, log, k)] == log[..EndOf(t, log, k)];
    assert k == |t.openings| - 1 ==> log[..EndOf(t, log, k)] == log;
  }

  /** The critique carries the reason. */
  lemma {:induction false} CritiqueContains(reason: string, attempt: nat, failed: string)
    ensures Contains(Critique(reason, attempt, failed), reason)
  {
    var head, u := "Failure reason: ", Critique(reason, attempt, failed);
    var tail := "\nRepair attempt: " + Decimal(attempt) + "\nPrevious response:\n" + Cut(failed, 6000);
    assert u == head + reason + tail;
    assert ContainsAt(u, reason, |head|);
  }

  /** A rejection is repaired. */
  lemma {:induction false} RejectionRepairs(w: World, opening: Request, result: Attempt, sent: seq<Request>,
                                            attempt: nat)
    requires Judged(w, result, sent).Rejected?
    ensures var v := Judged(w, result, sent);
            Rejects(w, result, sent)
            && RepairedTo(w, opening, result, sent, RepairRequest(opening, v.failed, v.reason, attempt))
  {
    var v := Judged(w, result, sent);
    CritiqueContains(v.reason, attempt, v.failed);
    assert RepairRequest(opening, v.failed, v.reason, attempt)
        == opening + [Assistant(Shortened(v.failed, 12000), []), User(Critique(v.reason, attempt, v.failed))];
  }

  lemma {:induction false} NextRepair(r: Request, first: Message, k: nat, failed: string, reason: string, attempt: nat)
    requires GoodOpening(r, first, k)
    ensures GoodOpening(RepairRequest(r, failed, reason, attempt), first, k + 1)
  {
    var r' := RepairRequest(r, failed, reason, attempt);
    forall i | 0 <= i < |r'| ensures if i % 2 == 0 then r'[i].User? else r'[i].Assistant? && r'[i].calls == [] {
      if i < |r| { assert r'[i] == r[i]; }
    }
  }

  /** What an attempt asks to be repaired, if anything. */
  datatype Verdict = Final(outcome: Outcome) | Rejected(failed: string, reason: string)

  function Judged(w: World, answer: Attempt, log: seq<Request>): Verdict {
    match answer
    case Raised => Final(Failed)
    case TimedOut => Rejected("ATTEMPT TIMED OUT", "attempt timeout")
    case Answered(content) =>
      if w.looksFailed(content) then Final(Failed)
      else if w.assess(log, content).accepted then Final(Accepted(content))
      else Rejected(content, w.assess(log, content).reason)
  }

  /** What a task comes to from an attempt on, with so many repairs left; and the requests sent by then. */
  function AttemptsFrom(w: World, current: Request, attempt: nat, left: nat, f: Attempter,
                        log: seq<Request>)
    : (Outcome, seq<Request>)
    decreases left
  {
    var (answer, sent) := f(current, log);
    match Judged(w, answer, sent)
    case Final(outcome) => (outcome, sent)
    case Rejected(failed, reason) =>
      if left == 0 then (Failed, sent)
      else AttemptsFrom(w, RepairRequest(current, failed, reason, attempt), attempt + 1, left - 1, f, sent)
  }

  /** The trace of the same, behind the trace so far. */
  function TraceFrom(w: World, current: Request, attempt: nat, left: nat, f: Attempter,
                     log: seq<Request>, t: Trace)
    : Trace
    decreases left
  {
    var (answer, sent) := f(current, log);
    var t' := Trace(t.openings + [current], t.starts + [|log|]);
    match Judged(w, answer, sent)
    case Final(_) => t'
    case Rejected(failed, reason) =>
      if left == 0 then t'
      else TraceFrom(w, RepairRequest(current, failed, reason, attempt), attempt + 1, left - 1, f, sent, t')
  }

  /** The provider gave the answer last; it does not look failed, and the assessor accepts it. */
  ghost predicate AcceptedLast(w: World, log: seq<Request>, content: string) {
    log != [] && AnsweredBy(w, log, content) && !w.looksFailed(content) && w.assess(log, content).accepted
  }

  /**
   The attempt loop of `run_task`: it ends, after at most one more attempt than
   there are repairs and at most `maxRounds` provider calls an attempt, and it
   ends well only on an answer that the assessor accepted.
   */
  method RunTask(w: World, first: string, repairs: nat, useTools: bool, maxRounds: nat)
    returns (outcome: Outcome, log: seq<Request>, trace: Trace)
    requires 1 <= maxRounds
    ensures (outcome, log) == AttemptsFrom(w, [User(first)], 1, repairs, AttempterOf(w, useTools, maxRounds), [])
    ensures trace == TraceFrom(w, [User(first)], 1, repairs, AttempterOf(w, useTools, maxRounds), [], Trace([], []))
    ensures |trace.openings| <= repairs + 1 && |log| <= |trace.openings| * maxRounds
    ensures WellOpened(trace, User(first)) && WellSent(trace, log, maxRounds)
    ensures outcome.Accepted? ==> AcceptedLast(w, log, outcome.content)
  {
    hide AttempterOf;
    ghost var f := AttempterOf(w, useTools, maxRounds);
    ghost var task := AttemptsFrom(w, [User(first)], 1, repairs, f, []);
    ghost var history := TraceFrom(w, [User(first)], 1, repairs, f, [], Trace([], []));
    log, trace := [], Trace([], []);
    var current := [User(first)];
    var remaining := repairs;
    var attempt := 1;
    while true
      invariant remaining + attempt == repairs + 1 && |trace.openings| == attempt - 1
      invariant GoodOpening(current, User(first), attempt - 1)
      invariant task == AttemptsFrom(w, current, attempt, remaining, f, log)
      invariant history == TraceFrom(w, current, attempt, remaining, f, log, trace)
      invariant Accounted(trace, log, User(first), maxRounds)
      decreases remaining
    {
      ghost var before, sent := trace, log;
      trace := Trace(trace.openings + [current], trace.starts + [|log|]);
      var verdict;
      verdict, log := AttemptAndJudge(w, current, useTools, maxRounds, log);
      AttemptAccounted(before, sent, log, current, User(first), maxRounds);
      LogBounded(trace, log, User(first), maxRounds);
      if verdict.Final? {
        return verdict.outcome, log, trace;
      }
      if remaining == 0 {
        return Failed, log, trace;
      }
      NextRepair(current, User(first), attempt - 1, verdict.failed, verdict.reason, attempt);
      current := RepairRequest(current, verdict.failed, verdict.reason, attempt);
      remaining, attempt := remaining - 1, attempt + 1;
    }
  }

  /**
   How the last attempt ends the task: with an answer that does not look failed and is
   accepted; or by raising, by an answer that looks failed, or rejected with no repair left.
   */
  ghost predicate Concludes(w: World, t: Trace, log: seq<Request>, f: Attempter, repairs: nat, outcome: Outcome)
    requires |t.starts| == |t.openings|
  {
    && t.openings != [] && Tried(w, t, log, f, |t.openings| - 1)
    && var result := ResultOf(w, t, log, f, |t.openings| - 1);
       match outcome
       case Accepted(content) =>
         result == Answered(content) && !w.looksFailed(content) && w.assess(log, content).accepted
       case Failed =>
         || result.Raised?
         || (result.Answered? && w.looksFailed(result.content))
         || (|t.openings| == repairs + 1 && Rejects(w, result, log))
  }

  ghost predicate Extends(f: Attempter) { forall r, log :: log <= f(r, log).1 }

  lemma {:induction false} AttempterExtends(w: World, useTools: bool, maxRounds: nat)
    ensures Extends(AttempterOf(w, useTools, maxRounds))
  {
    var f := AttempterOf(w, useTools, maxRounds);
    forall r, log ensures log <= f(r, log).1 {
      RoundsGoOn(w, r, maxRounds, log, |log| + maxRounds);
    }
  }

  /** A trace of rejected attempts, of which the last may conclude the task. */
  ghost predicate GoodHistory(w: World, t: Trace, log: seq<Request>, f: Attempter, repairs: nat, outcome: Outcome) {
    && |t.starts| == |t.openings| && t.openings != []
    && AllRejected(w, t, log, f, |t.openings| - 1)
    && Concludes(w, t, log, f, repairs, outcome)
  }

  /** What holds when an attempt is about to be made. */
  ghost predicate Ongoing(w: World, t: Trace, log: seq<Request>, f: Attempter, current: Request) {
    && |t.starts| == |t.openings|
    && AllRejected(w, t, log, f, |t.openings|)
    && Upcoming(w, t, log, f, current)
  }

  lemma {:induction false} AttemptEnds(w: World, t: Trace, log: seq<Request>, f: Attempter, current: Request,
                                       answer: Attempt, sent: seq<Request>, repairs: nat, outcome: Outcome)
    requires Extends(f) && Ongoing(w, t, log, f, current) && |t.openings| <= repairs
    requires (answer, sent) == f(current, log)
    requires Judged(w, answer, sent) == Final(outcome)
             || (Judged(w, answer, sent).Rejected? && |t.openings| == repairs && outcome == Failed)
    ensures GoodHistory(w, Trace(t.openings + [current], t.starts + [|log|]), sent, f, repairs, outcome)
  {
    OneAttemptMore(w, t, log, f, current, sent);
  }

  lemma {:induction false} AttemptGoesOn(w: World, t: Trace, log: seq<Request>, f: Attempter, current: Request,
                                         answer: Attempt, sent: seq<Request>, attempt: nat)
    requires Extends(f) && Ongoing(w, t, log, f, current)
    requires (answer, sent) == f(current, log) && Judged(w, answer, sent).Rejected?
    ensures var v := Judged(w, answer, sent);
            Ongoing(w, Trace(t.openings + [current], t.starts + [|log|]), sent, f,
                    RepairRequest(current, v.failed, v.reason, attempt))
  {
    OneAttemptMore(w, t, log, f, current, sent);
    RejectionRepairs(w, current, answer, sent, attempt);
    LastIsRejected(w, Trace(t.openings + [current], t.starts + [|log|]), sent, f);
  }

  /** What holds before an attempt still holds after one that is rejected, and can conclude after any. */
  ghost predicate Leads(w: World, f: Attempter, repairs: nat, before: (Trace, seq<Request>, Request) -> bool,
                        after: (Trace, seq<Request>, Outcome) -> bool)
  {
    forall t, log, current, attempt :: LeadsOn(w, f, repairs, before, after, t, log, current, attempt)
  }

  ghost predicate LeadsOn(w: World, f: Attempter, repairs: nat, before: (Trace, seq<Request>, Request) -> bool,
                          after: (Trace, seq<Request>, Outcome) -> bool,
                          t: Trace, log: seq<Request>, current: Request, attempt: nat)
  {
    before(t, log, current) && |t.openings| <= repairs ==>
      var (answer, sent) := f(current, log);
      var v, t' := Judged(w, answer, sent), Trace(t.openings + [current], t.starts + [|log|]);
      if v.Final? then after(t', sent, v.outcome)
      else if |t.openings| == repairs then after(t', sent, Failed)
      else before(t', sent, RepairRequest(current, v.failed, v.reason, attempt))
  }

  lemma {:induction false} HistoryLeads(w: World, f: Attempter, repairs: nat)
    requires Extends(f)
    ensures Leads(w, f, repairs, (t, log, current) => Ongoing(w, t, log, f, current),
                  (t, log, outcome) => GoodHistory(w, t, log, f, repairs, outcome))
  {
    var before := (t: Trace, log: seq<Request>, current: Request) => Ongoing(w, t, log, f, current);
    var after := (t: Trace, log: seq<Request>, outcome: Outcome) => GoodHistory(w, t, log, f, repairs, outcome);
    forall t, log, current, attempt ensures LeadsOn(w, f, repairs, before, after, t, log, current, attempt) {
      if before(t, log, current) && |t.openings| <= repairs {
        var (answer, sent) := f(current, log);
        var v := Judged(w, answer, sent);
        if v.Rejected? && |t.openings| < repairs {
          AttemptGoesOn(w, t, log, f, current, answer, sent, attempt);
        } else {
          AttemptEnds(w, t, log, f, current, answer, sent, repairs, if v.Final? then v.outcome else Failed);
        }
      }
    }
  }

  /** From rejected attempts to a conclusion. */
  lemma {:induction false} HistoryFrom(w: World, current: Request, attempt: nat, left: nat, f: Attempter,
                                       log: seq<Request>, t: Trace, repairs: nat,
                                       before: (Trace, seq<Request>, Request) -> bool,
                                       after: (Trace, seq<Request>, Outcome) -> bool)
    requires Leads(w, f, repairs, before, after) && |t.openings| + left == repairs && before(t, log, current)
    ensures var (outcome, all) := AttemptsFrom(w, current, attempt, left, f, log);
            after(TraceFrom(w, current, attempt, left, f, log, t), all, outcome)
    decreases left
  {
    var (answer, sent) := f(current, log);
    var v := Judged(w, answer, sent);
    assert LeadsOn(w, f, repairs, before, after, t, log, current, attempt);
    if v.Rejected? && left > 0 {
      HistoryFrom(w, RepairRequest(current, v.failed, v.reason, attempt), attempt + 1, left - 1, f, sent,
                  Trace(t.openings + [current], t.starts + [|log|]), repairs, before, after);
    }
  }

  lemma {:induction false} FirstOpening(w: World, current: Request, attempt: nat, left: nat, f: Attempter,
                                        log: seq<Request>, t: Trace)
    ensures t.openings + [current] <= TraceFrom(w, current, attempt, left, f, log, t).openings
    decreases left
  {
    var (answer, sent) := f(current, log);
    var v := Judged(w, answer, sent);
    if v.Rejected? && left > 0 {
      FirstOpening(w, RepairRequest(current, v.failed, v.reason, attempt), attempt + 1, left - 1, f, sent,
                   Trace(t.openings + [current], t.starts + [|log|]));
    }
  }

  lemma {:induction false} LastIsRejected(w: World, t: Trace, log: seq<Request>, f: Attempter)
    requires |t.starts| == |t.openings| && t.openings != []
    requires AllRejected(w, t, log, f, |t.openings| - 1)
    requires Tried(w, t, log, f, |t.openings| - 1)
    requires Rejects(w, ResultOf(w, t, log, f, |t.openings| - 1), log)
    ensures AllRejected(w, t, log, f, |t.openings|)
  {
    var k := |t.openings| - 1;
    assert log[..EndOf(t, log, k)] == log;
    assert RejectedAt(w, t, log, f, k);
  }

  /**
   The history of a task. The first attempt opens with the first message. Every attempt but
   the last timed out, or was answered by a text that does not look failed and is not accepted,
   and the next one opens with its repair. The last one is accepted, raises, looks failed, or
   is rejected when there are as many attempts as repairs and one.
   */
  lemma {:induction false} TaskHistory(w: World, first: string, repairs: nat, useTools: bool, maxRounds: nat)
    ensures var f := AttempterOf(w, useTools, maxRounds);
            var t := TraceFrom(w, [User(first)], 1, repairs, f, [], Trace([], []));
            var (outcome, log) := AttemptsFrom(w, [User(first)], 1, repairs, f, []);
            GoodHistory(w, t, log, f, repairs, outcome) && t.openings[0] == [User(first)]
  {
    var f := AttempterOf(w, useTools, maxRounds);
    AttempterExtends(w, useTools, maxRounds);
    HistoryLeads(w, f, repairs);
    HistoryFrom(w, [User(first)], 1, repairs, f, [], Trace([], []), repairs,
                (t, log, current) => Ongoing(w, t, log, f, current),
                (t, log, outcome) => GoodHistory(w, t, log, f, repairs, outcome));
    FirstOpening(w, [User(first)], 1, repairs, f, [], Trace([], []));
  }

  /** One turn of the loop: an attempt, and what the provider-failure test and the assessor make of it. */
  method AttemptAndJudge(w: World, opening: Request, useTools: bool, maxRounds: nat, log: seq<Request>)
    returns (verdict: Verdict, log': seq<Request>)
    requires 1 <= maxRounds
    ensures log' == AttempterOf(w, useTools, maxRounds)(opening, log).1
    ensures verdict == Judged(w, AttempterOf(w, useTools, maxRounds)(opening, log).0, log')
    ensures log <= log' && |log'| <= |log| + maxRounds && SentFor(log', |log|, opening)
    ensures verdict.Final? && verdict.outcome.Accepted? ==> AcceptedLast(w, log', verdict.outcome.content)
  {
    var answer;
    answer, log' := ExecuteAttempt(w, opening, useTools, maxRounds, log);
    if answer.Raised? {
      return Final(Failed), log';
    }
    if answer.TimedOut? {
      return Rejected("ATTEMPT TIMED OUT", "attempt timeout"), log';
    }
    if w.looksFailed(answer.content) {
      return Final(Failed), log';
    }
    var assessment := w.assess(log', answer.content);
    if assessment.accepted {
      return Final(Accepted(answer.content)), log';
    }
    return Rejected(answer.content, assessment.reason), log';
  }

  ghost predicate GoodOpening(r: Request, first: Message, k: nat) {
    |r| == 1 + 2 * k && Alternating(r) && r[0] == first
  }

  ghost predicate Accounted(t: Trace, log: seq<Request>, first: Message, maxRounds: nat) {
    && WellOpened(t, first) && WellSent(t, log, maxRounds)
    && (t.starts == [] ==> log == [])
  }

  lemma {:induction false} AttemptAccounted(t: Trace, log: seq<Request>, log': seq<Request>, opening: Request,
                                            first: Message, maxRounds: nat)
    requires Accounted(t, log, first, maxRounds) && GoodOpening(opening, first, |t.openings|)
    requires log <= log' && |log'| <= |log| + maxRounds && SentFor(log', |log|, opening)
    ensures Accounted(Trace(t.openings + [opening], t.starts + [|log|]), log', first, maxRounds)
  {
    AttemptSent(t, log, log', opening, maxRounds);
  }

  /** Attempts of at most `maxRounds` requests add up. */
  lemma {:induction false} StartsBounded(t: Trace, log: seq<Request>, maxRounds: nat, k: nat)
    requires k < |t.starts| == |t.openings| && WellSent(t, log, maxRounds)
    ensures t.starts[k] <= k * maxRounds && EndOf(t, log, k) <= (k + 1) * maxRounds
  {
    assert SentWell(t, log, maxRounds, k);
    if k > 0 { StartsBounded(t, log, maxRounds, k - 1); }
  }

  lemma {:induction false} LogBounded(t: Trace, log: seq<Request>, first: Message, maxRounds: nat)
    requires Accounted(t, log, first, maxRounds)
    ensures |log| <= |t.openings| * maxRounds
  {
    if t.starts != [] { StartsBounded(t, log, maxRounds, |t.starts| - 1); }
  }

  /** One attempt more keeps the log accounted for. */
  lemma {:induction false} AttemptSent(t: Trace, log: seq<Request>, log': seq<Request>, opening: Request,
                                       maxRounds: nat)
    requires |t.starts| == |t.openings| && WellSent(t, log, maxRounds)
    requires t.starts == [] ==> log == []
    requires log <= log' && |log'| <= |log| + maxRounds && SentFor(log', |log|, opening)
    ensures WellSent(Trace(t.openings + [opening], t.starts + [|log|]), log', maxRounds)
  {
    var t' := Trace(t.openings + [opening], t.starts + [|log|]);
    forall k | 0 <= k < |t'.starts| ensures SentWell(t', log', maxRounds, k) {
      if k < |t.starts| {
        assert SentWell(t, log, maxRounds, k) && EndOf(t', log', k) == EndOf(t, log, k);
      }
    }
  }

  lemma {:induction false} RoundsAreBounded(w: World, current: Request, left: nat, log: seq<Request>)
    ensures |RoundsFrom(w, current, left, log).1| <= |log| + left
    decreases left
  {
    var sent := log + [current];
    if left > 0 && w.provider(sent).Response? {
      var reply := w.provider(sent);
      var calls := CallsOf(w, reply.content, reply.toolCalls);
      var answers := ToolsFrom(w, sent, calls, 0, []).1;
      RoundsAreBounded(w, current + [Assistant(reply.content, Normalized(calls))] + answers, left - 1, sent);
    }
  }

  lemma {:induction false} AttemptsAreBounded(w: World, current: Request, attempt: nat, left: nat, f: Attempter,
                                              maxRounds: nat, log: seq<Request>)
    requires forall r, log :: |f(r, log).1| <= |log| + maxRounds
    ensures |AttemptsFrom(w, current, attempt, left, f, log).1| <= |log| + (left + 1) * maxRounds
    decreases left
  {
    var (answer, sent) := f(current, log);
    assert |sent| <= |log| + maxRounds;
    assert (left + 1) * maxRounds == left * maxRounds + maxRounds;
    var verdict := Judged(w, answer, sent);
    if verdict.Rejected? && left > 0 {
      AttemptsAreBounded(w, RepairRequest(current, verdict.failed, verdict.reason, attempt), attempt + 1, left - 1,
                         f, maxRounds, sent);
    }
  }

  lemma {:induction false} AttempterIsBounded(w: World, useTools: bool, maxRounds: nat)
    requires 1 <= maxRounds
    ensures forall r, log :: |AttempterOf(w, useTools, maxRounds)(r, log).1| <= |log| + maxRounds
  {
    forall r, log ensures |AttempterOf(w, useTools, maxRounds)(r, log).1| <= |log| + maxRounds {
      RoundsAreBounded(w, r, maxRounds, log);
    }
  }

  /** In any surroundings and under any settings, one task makes at most 128 provider calls. */
  lemma {:induction false} CallsAreBounded(w: World, first: string, useTools: bool, analytical: bool,
                                           taskRounds: Setting, configRounds: Setting,
                                           taskRepairs: Setting, configRepairs: Setting)
    ensures var repairs := RepairAttempts(taskRepairs, configRepairs, analytical);
            var rounds := MaxRounds(taskRounds, configRounds);
            |AttemptsFrom(w, [User(first)], 1, repairs, AttempterOf(w, useTools, rounds), []).1| <= 128
  {
    var repairs, rounds := RepairAttempts(taskRepairs, configRepairs, analytical), MaxRounds(taskRounds, configRounds);
    AttempterIsBounded(w, useTools, rounds);
    AttemptsAreBounded(w, [User(first)], 1, repairs, AttempterOf(w, useTools, rounds), rounds, []);
    assert (repairs + 1) * rounds <= 4 * rounds;
  }
}
