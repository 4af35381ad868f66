/**
 The context builder of `dharma_swarm/agent_memory_manager.py`: headings and
 lines under a character budget, with a running count. Query results are inputs.
 */
module MemoryContexts {
  import opened Sorting
  import opened AgentMemoryManagers

  const WORKING_HEADING := "\n### Working Memory"
  const RECENT_HEADING := "\n### Recent"
  const LONG_TERM_HEADING := "\n### Long-term Knowledge"
  const SHARED_HEADING := "\n### Shared (Swarm)"

  /** `"\n".join(lines)`. */
  function Join(lines: seq<string>): string {
    if lines == [] then ""
    else if |lines| == 1 then lines[0]
    else Join(lines[..|lines| - 1]) + "\n" + lines[|lines| - 1]
  }

  function Header(agent: string): string { "## Memory Context (" + agent + ")" }

  function Cut(s: string, n: nat): string { if n < |s| then s[..n] else s }

  function WorkingLine(r: Row): string { "- **" + r.key + "**: " + r.content }

  function BriefLine(r: Row): string { "- " + r.key + ": " + Cut(r.content, 200) }

  function SharedLine(r: SharedRow): string {
    "- " + r.key + ": " + Cut(r.content, 150) + if r.tags != "" then " [" + r.tags + "]" else ""
  }

  function Lines<T>(rows: seq<T>, f: T -> string): (r: seq<string>)
    ensures |r| == |rows| && forall i :: 0 <= i < |rows| ==> r[i] == f(rows[i])
  {
    seq(|rows|, i requires 0 <= i < |rows| => f(rows[i]))
  }

  /** How many leading lines fit when `used` characters are taken, each with a newline before it. */
  function Fitting(items: seq<string>, used: int, budget: int): (n: nat)
    ensures n <= |items|
  {
    if items == [] || budget < used + |items[0]| + 1 then 0
    else 1 + Fitting(items[1..], used + |items[0]| + 1, budget)
  }

  /** A section appended: its heading and as many of its lines as fit behind it. */
  function WithSection(lines: seq<string>, heading: string, items: seq<string>, budget: int): seq<string> {
    var headed := lines + [heading];
    headed + items[..Fitting(items, |Join(headed)|, budget)]
  }

  /** A section that is only started when more than 100 characters are left. */
  function WithLaterSection(lines: seq<string>, heading: string, items: seq<string>, present: bool, budget: int)
    : seq<string>
  {
    if present && |Join(lines)| < budget - 100 then WithSection(lines, heading, items, budget) else lines
  }

  datatype Found = Found(working: seq<Row>, recent: seq<Row>, longTerm: seq<Row>, shared: seq<SharedRow>)

  function ContextLines(agent: string, f: Found, budget: int, now: int): seq<string> {
    var a := if f.working == [] then [Header(agent)]
             else WithSection([Header(agent)], WORKING_HEADING, Lines(Filter(f.working, Current(now)), WorkingLine),
                              budget);
    WithLaterSections(a, f, budget, now)
  }

  function WithLaterSections(a: seq<string>, f: Found, budget: int, now: int): seq<string> {
    var b := WithLaterSection(a, RECENT_HEADING, Lines(Filter(f.recent, Current(now)), BriefLine), f.recent != [],
                              budget);
    var c := WithLaterSection(b, LONG_TERM_HEADING, Lines(f.longTerm, BriefLine), f.longTerm != [], budget);
    WithLaterSection(c, SHARED_HEADING, Lines(f.shared, SharedLine), f.shared != [], budget)
  }

  // ---- the accounting ------------------------------------------------------------

  lemma {:induction false} JoinSnoc(lines: seq<string>, line: string)
    requires lines != []
    ensures |Join(lines + [line])| == |Join(lines)| + |line| + 1
  {
    assert (lines + [line])[..|lines|] == lines;
  }

  /** The literals 20, 12, 25 and 20 are the headings and their newlines. */
  lemma {:induction false} HeadingLengths()
    ensures |WORKING_HEADING| + 1 == 20 && |RECENT_HEADING| + 1 == 12
    ensures |LONG_TERM_HEADING| + 1 == 25 && |SHARED_HEADING| + 1 == 20
  {
  }

  lemma {:induction false} TakeOneMore(lines: seq<string>, items: seq<string>, n: nat)
    requires n < |items|
    ensures lines + items[..n + 1] == lines + [items[0]] + items[1..][..n]
  {
    assert items[..n + 1] == [items[0]] + items[1..][..n];
  }

  /** Appending what fits never goes over the budget, unless the lines were over it before. */
  lemma {:induction false} FittingFits(lines: seq<string>, items: seq<string>, budget: int)
    requires lines != []
    ensures var after := lines + items[..Fitting(items, |Join(lines)|, budget)];
            |Join(lines)| <= |Join(after)| && (|Join(after)| <= budget || |Join(after)| == |Join(lines)|)
    decreases |items|
  {
    var used := |Join(lines)|;
    if items != [] && used + |items[0]| + 1 <= budget {
      JoinSnoc(lines, items[0]);
      FittingFits(lines + [items[0]], items[1..], budget);
      var n := Fitting(items[1..], used + |items[0]| + 1, budget);
      TakeOneMore(lines, items, n);
    } else {
      assert lines + items[..0] == lines;
    }
  }

  lemma {:induction false} SectionFits(lines: seq<string>, heading: string, items: seq<string>, budget: int)
    requires lines != []
    ensures var after := WithSection(lines, heading, items, budget);
            var headed := |Join(lines)| + |heading| + 1;
            after != [] && headed <= |Join(after)| && (|Join(after)| <= budget || |Join(after)| == headed)
  {
    JoinSnoc(lines, heading);
    FittingFits(lines + [heading], items, budget);
  }

  lemma {:induction false} LaterSectionFits(lines: seq<string>, heading: string, items: seq<string>, present: bool,
                                            budget: int)
    requires lines != [] && |heading| <= 99
    ensures var after := WithLaterSection(lines, heading, items, present, budget);
            after != [] && |Join(lines)| <= |Join(after)| && (|Join(after)| <= budget || after == lines)
  {
    SectionFits(lines, heading, items, budget);
  }

  /** Header, and the working heading whenever there is a working memory, whether they fit or not. */
  function Unconditional(agent: string, f: Found): nat {
    |Header(agent)| + if f.working == [] then 0 else 20
  }

  /**
   The context is within the budget exactly when its unconditional part is; and
   when it is not, that part is all there is.
   */
  lemma {:induction false} WithinBudgetIff(agent: string, f: Found, budget: int, now: int)
    ensures var n := |Join(ContextLines(agent, f, budget, now))|;
            (n <= budget <==> Unconditional(agent, f) <= budget) && (budget < n ==> n == Unconditional(agent, f))
  {
    HeadingLengths();
    var w := Lines(Filter(f.working, Current(now)), WorkingLine);
    var a := if f.working == [] then [Header(agent)] else WithSection([Header(agent)], WORKING_HEADING, w, budget);
    SectionFits([Header(agent)], WORKING_HEADING, w, budget);
    var recent := Lines(Filter(f.recent, Current(now)), BriefLine);
    var b := WithLaterSection(a, RECENT_HEADING, recent, f.recent != [], budget);
    LaterSectionFits(a, RECENT_HEADING, recent, f.recent != [], budget);
    var c := WithLaterSection(b, LONG_TERM_HEADING, Lines(f.longTerm, BriefLine), f.longTerm != [], budget);
    LaterSectionFits(b, LONG_TERM_HEADING, Lines(f.longTerm, BriefLine), f.longTerm != [], budget);
    LaterSectionFits(c, SHARED_HEADING, Lines(f.shared, SharedLine), f.shared != [], budget);
  }

  // ---- the text, section by section ----------------------------------------------

  /** The longest run of leading items that can follow the lines within the budget. */
  ghost predicate Longest(lines: seq<string>, items: seq<string>, budget: int, n: nat) {
    && n <= |items|
    && forall k :: 0 < k <= |items| ==> (|Join(lines + items[..k])| <= budget <==> k <= n)
  }

  lemma {:induction false} JoinGrows(lines: seq<string>, items: seq<string>, i: nat, k: nat)
    requires lines != [] && i <= k <= |items|
    ensures |Join(lines + items[..i])| <= |Join(lines + items[..k])|
  {
    if i < k {
      JoinGrows(lines, items, i, k - 1);
      assert lines + items[..k] == lines + items[..k - 1] + [items[k - 1]];
      JoinSnoc(lines + items[..k - 1], items[k - 1]);
    }
  }

  lemma {:induction false} FittingIsLongest(lines: seq<string>, items: seq<string>, budget: int)
    requires lines != []
    ensures Longest(lines, items, budget, Fitting(items, |Join(lines)|, budget))
    decreases |items|
  {
    if items != [] {
      JoinSnoc(lines, items[0]);
      assert lines + items[..1] == lines + [items[0]];
      if |Join(lines)| + |items[0]| + 1 <= budget {
        var rest := items[1..];
        FittingIsLongest(lines + [items[0]], rest, budget);
        forall k | 0 < k <= |items|
          ensures |Join(lines + items[..k])| <= budget <==> k <= Fitting(items, |Join(lines)|, budget)
        {
          TakeOneMore(lines, items, k - 1);
        }
      } else {
        forall k | 0 < k <= |items| ensures |Join(lines + items[..k])| > budget { JoinGrows(lines, items, 1, k); }
      }
    }
  }

  /** The heading, and behind it the longest run of items that fits. */
  ghost predicate Section(lines: seq<string>, heading: string, items: seq<string>, budget: int, lines': seq<string>) {
    exists n: nat :: Longest(lines + [heading], items, budget, n) && lines' == lines + [heading] + items[..n]
  }

  /** A section, if there are rows for it and more than 100 characters left. */
  ghost predicate LaterSectionOf(lines: seq<string>, heading: string, items: seq<string>, present: bool, budget: int,
                                 lines': seq<string>)
  {
    if present && |Join(lines)| + 100 < budget then Section(lines, heading, items, budget, lines') else lines' == lines
  }

  lemma {:induction false} WithSectionIs(lines: seq<string>, heading: string, items: seq<string>, budget: int)
    ensures Section(lines, heading, items, budget, WithSection(lines, heading, items, budget))
  {
    FittingIsLongest(lines + [heading], items, budget);
  }

  predicate Lasts(r: Row, now: int) { r.ttl.None? || now <= r.createdAt + r.ttl.value }

  /** A line for each row: its key in bold, and its content. */
  ghost predicate WorkingItems(rows: seq<Row>, items: seq<string>) {
    |items| == |rows| && forall i :: 0 <= i < |rows| ==> items[i] == "- **" + rows[i].key + "**: " + rows[i].content
  }

  /** A line for each row: its key, and 200 characters of its content. */
  ghost predicate BriefItems(rows: seq<Row>, items: seq<string>) {
    |items| == |rows| && forall i :: 0 <= i < |rows| ==> BriefItem(rows[i], items[i])
  }

  ghost predicate BriefItem(r: Row, item: string) {
    item == "- " + r.key + ": " + if |r.content| <= 200 then r.content else r.content[..200]
  }

  ghost predicate SharedItems(rows: seq<SharedRow>, items: seq<string>) {
    |items| == |rows| && forall i :: 0 <= i < |rows| ==> SharedItem(rows[i], items[i])
  }

  ghost predicate SharedItem(r: SharedRow, item: string) {
    var brief := "- " + r.key + ": " + if |r.content| <= 150 then r.content else r.content[..150];
    item == if r.tags == "" then brief else brief + (" [" + r.tags + "]")
  }

  /** The rows that have not outlived their time, in order. */
  ghost predicate Lasting(rows: seq<Row>, now: int, lasting: seq<Row>) {
    lasting == Filter(rows, (r: Row) => Lasts(r, now))
  }

  ghost predicate WorkingPart(agent: string, f: Found, budget: int, now: int, a: seq<string>) {
    exists lasting, items :: WorkingPartOf(agent, f, budget, now, a, lasting, items)
  }

  ghost predicate WorkingPartOf(agent: string, f: Found, budget: int, now: int, a: seq<string>, lasting: seq<Row>,
                                items: seq<string>)
  {
    var header := "## Memory Context (" + agent + ")";
    && Lasting(f.working, now, lasting) && WorkingItems(lasting, items)
    && if f.working == [] then a == [header] else Section([header], "\n### Working Memory", items, budget, a)
  }

  ghost predicate RecentPart(a: seq<string>, f: Found, budget: int, now: int, b: seq<string>) {
    exists lasting, items :: Lasting(f.recent, now, lasting) && BriefItems(lasting, items)
                             && LaterSectionOf(a, "\n### Recent", items, f.recent != [], budget, b)
  }

  ghost predicate LongTermPart(b: seq<string>, f: Found, budget: int, c: seq<string>) {
    exists items :: BriefItems(f.longTerm, items)
                    && LaterSectionOf(b, "\n### Long-term Knowledge", items, f.longTerm != [], budget, c)
  }

  ghost predicate SharedPart(c: seq<string>, f: Found, budget: int, d: seq<string>) {
    exists items :: SharedItems(f.shared, items)
                    && LaterSectionOf(c, "\n### Shared (Swarm)", items, f.shared != [], budget, d)
  }

  /** Header and working memory first, then recent, long-term and shared memories. */
  ghost predicate InFourParts(agent: string, f: Found, budget: int, now: int, lines: seq<string>) {
    exists a, b, c :: WorkingPart(agent, f, budget, now, a) && RecentPart(a, f, budget, now, b)
                      && LongTermPart(b, f, budget, c) && SharedPart(c, f, budget, lines)
  }

  lemma {:induction false} CurrentLasts(rows: seq<Row>, now: int)
    ensures Lasting(rows, now, Filter(rows, Current(now)))
  {
    FilterCongruent(rows, Current(now), (r: Row) => Lasts(r, now));
  }

  lemma {:induction false} WorkingPartIs(agent: string, f: Found, budget: int, now: int)
    ensures var w := Lines(Filter(f.working, Current(now)), WorkingLine);
            WorkingPart(agent, f, budget, now, if f.working == [] then [Header(agent)]
                                               else WithSection([Header(agent)], WORKING_HEADING, w, budget))
  {
    var lasting := Filter(f.working, Current(now));
    var w := Lines(lasting, WorkingLine);
    var a := if f.working == [] then [Header(agent)] else WithSection([Header(agent)], WORKING_HEADING, w, budget);
    CurrentLasts(f.working, now);
    WithSectionIs([Header(agent)], WORKING_HEADING, w, budget);
    assert WorkingPartOf(agent, f, budget, now, a, lasting, w);
  }

  lemma {:induction false} BriefLines(rows: seq<Row>)
    ensures BriefItems(rows, Lines(rows, BriefLine))
  {
    var items := Lines(rows, BriefLine);
    forall i | 0 <= i < |rows| ensures BriefItem(rows[i], items[i]) {
      assert items[i] == BriefLine(rows[i]);
    }
  }

  lemma {:induction false} RecentPartIs(a: seq<string>, f: Found, budget: int, now: int)
    ensures var recent := Lines(Filter(f.recent, Current(now)), BriefLine);
            RecentPart(a, f, budget, now, WithLaterSection(a, RECENT_HEADING, recent, f.recent != [], budget))
  {
    var lasting := Filter(f.recent, Current(now));
    CurrentLasts(f.recent, now);
    BriefLines(lasting);
    WithSectionIs(a, RECENT_HEADING, Lines(lasting, BriefLine), budget);
  }

  lemma {:induction false} LongTermPartIs(b: seq<string>, f: Found, budget: int)
    ensures var items := Lines(f.longTerm, BriefLine);
            LongTermPart(b, f, budget, WithLaterSection(b, LONG_TERM_HEADING, items, f.longTerm != [], budget))
  {
    BriefLines(f.longTerm);
    WithSectionIs(b, LONG_TERM_HEADING, Lines(f.longTerm, BriefLine), budget);
  }

  lemma {:induction false} SharedPartIs(c: seq<string>, f: Found, budget: int)
    ensures var items := Lines(f.shared, SharedLine);
            SharedPart(c, f, budget, WithLaterSection(c, SHARED_HEADING, items, f.shared != [], budget))
  {
    var items := Lines(f.shared, SharedLine);
    forall i | 0 <= i < |f.shared| ensures SharedItem(f.shared[i], items[i]) {
      assert items[i] == SharedLine(f.shared[i]);
    }
    assert SharedItems(f.shared, items);
    WithSectionIs(c, SHARED_HEADING, items, budget);
  }

  /** The context is made of its four parts, each as full as the budget allows. */
  lemma {:induction false} ContextHasFourParts(agent: string, f: Found, budget: int, now: int)
    ensures InFourParts(agent, f, budget, now, ContextLines(agent, f, budget, now))
  {
    var w := Lines(Filter(f.working, Current(now)), WorkingLine);
    var a := if f.working == [] then [Header(agent)] else WithSection([Header(agent)], WORKING_HEADING, w, budget);
    var recent := Lines(Filter(f.recent, Current(now)), BriefLine);
    var b := WithLaterSection(a, RECENT_HEADING, recent, f.recent != [], budget);
    var c := WithLaterSection(b, LONG_TERM_HEADING, Lines(f.longTerm, BriefLine), f.longTerm != [], budget);
    WorkingPartIs(agent, f, budget, now);
    RecentPartIs(a, f, budget, now);
    LongTermPartIs(b, f, budget);
    SharedPartIs(c, f, budget);
  }

  // ---- the builder ----------------------------------------------------------------

  lemma {:induction false} FittingStep(items: seq<string>, i: nat, used: int, budget: int)
    requires i < |items|
    ensures var width := |items[i]| + 1;
            Fitting(items[i..], used, budget) ==
            if budget < used + width then 0 else 1 + Fitting(items[i + 1..], used + width, budget)
  {
    assert items[i..][0] == items[i] && items[i..][1..] == items[i + 1..];
  }

  lemma {:induction false} OneLineMore(lines: seq<string>, items: seq<string>, i: nat)
    requires i < |items|
    ensures lines + items[..i] + [items[i]] == lines + items[..i + 1]
  {
    assert items[..i + 1] == items[..i] + [items[i]];
  }

  /** One of the four loops: appends lines until the first that does not fit. */
  method AppendFitting(lines: seq<string>, used: nat, items: seq<string>, budget: int)
    returns (lines': seq<string>, used': nat)
    requires lines != [] && used == |Join(lines)|
    ensures lines' == lines + items[..Fitting(items, used, budget)] && used' == |Join(lines')|
  {
    lines', used' := lines, used;
    var i := 0;
    while i < |items|
      invariant 0 <= i <= |items| && lines' == lines + items[..i] && lines' != [] && used' == |Join(lines')|
      invariant Fitting(items, used, budget) == i + Fitting(items[i..], used', budget)
    {
      FittingStep(items, i, used', budget);
      if budget < used' + |items[i]| + 1 {
        return;
      }
      JoinSnoc(lines', items[i]);
      OneLineMore(lines, items, i);
      lines', used' := lines' + [items[i]], used' + |items[i]| + 1;
      i := i + 1;
    }
  }

  /** `get_context`, for a budget in tokens of four characters. */
  method GetContext(agent: string, f: Found, budgetTokens: int, now: int) returns (context: string)
    ensures context == Join(ContextLines(agent, f, 4 * budgetTokens, now))
    ensures exists lines :: InFourParts(agent, f, 4 * budgetTokens, now, lines) && context == Join(lines)
    ensures |context| <= 4 * budgetTokens || |context| == Unconditional(agent, f)
  {
    var lines := BuildLines(agent, f, budgetTokens * 4, now);
    WithinBudgetIff(agent, f, 4 * budgetTokens, now);
    ContextHasFourParts(agent, f, 4 * budgetTokens, now);
    context := Join(lines);
  }

  method BuildLines(agent: string, f: Found, budget: int, now: int) returns (lines: seq<string>)
    ensures lines == ContextLines(agent, f, budget, now)
  {
    lines := [Header(agent)];
    var used := |lines[0]|;
    assert Join(lines) == lines[0];
    if f.working != [] {
      HeadingLengths();
      JoinSnoc(lines, WORKING_HEADING);
      lines, used := AppendFitting(lines + [WORKING_HEADING], used + 20,
                                   Lines(Filter(f.working, Current(now)), WorkingLine), budget);
    }
    lines := LaterSections(lines, used, f, budget, now);
  }

  method LaterSections(lines: seq<string>, used: nat, f: Found, budget: int, now: int) returns (lines': seq<string>)
    requires lines != [] && used == |Join(lines)|
    ensures lines' == WithLaterSections(lines, f, budget, now)
  {
    HeadingLengths();
    var used' := used;
    lines', used' := LaterSection(lines, used', RECENT_HEADING, 12, Lines(Filter(f.recent, Current(now)), BriefLine),
                                  f.recent != [], budget);
    lines', used' := LaterSection(lines', used', LONG_TERM_HEADING, 25, Lines(f.longTerm, BriefLine),
                                  f.longTerm != [], budget);
    lines', used' := LaterSection(lines', used', SHARED_HEADING, 20, Lines(f.shared, SharedLine), f.shared != [],
                                  budget);
  }

  /** The three guarded sections, each with the literal it charges for its heading. */
  method LaterSection(lines: seq<string>, used: nat, heading: string, cost: nat, items: seq<string>, present: bool,
                      budget: int)
    returns (lines': seq<string>, used': nat)
    requires lines != [] && used == |Join(lines)| && cost == |heading| + 1
    ensures lines' == WithLaterSection(lines, heading, items, present, budget)
    ensures lines' != [] && used' == |Join(lines')|
  {
    lines', used' := lines, used;
    if present && used < budget - 100 {
      JoinSnoc(lines, heading);
      lines', used' := AppendFitting(lines + [heading], used + cost, items, budget);
    }
  }
}
