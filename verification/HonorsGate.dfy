/**
 The honors gate of `dharma_swarm/agent_runner_quality.py`: matching of required
 references and the arithmetic of the four gate scores. What the text heuristics
 extract from the completion is an input; `says` tells whether the lower-cased completion
 contains a lower-cased text.
 */
module HonorsGates {

  predicate Space(c: char) { c in " \t\n\r" }

  function LStrip(s: string): (r: string)
    ensures r == "" || !Space(r[0])
    ensures s == "" || !Space(s[0]) ==> r == s
  {
    if s == "" || !Space(s[0]) then s else LStrip(s[1..])
  }

  function RStrip(s: string): (r: string)
    ensures r <= s && (r == "" || !Space(r[|r| - 1]))
    ensures s == "" || !Space(s[|s| - 1]) ==> r == s
  {
    if s == "" || !Space(s[|s| - 1]) then s else RStrip(s[..|s| - 1])
  }

  function Strip(s: string): string { RStrip(LStrip(s)) }

  lemma {:induction false} StripTwice(s: string)
    ensures Strip(Strip(s)) == Strip(s)
  {
    var l, r := LStrip(s), Strip(s);
    if r != "" {
      assert r[0] == l[0];
    }
  }

  // ---- deduplication ---------------------------------------------------------------

  /** `_dedupe_keep_order`: stripped, without blanks and repetitions, first occurrences first. */
  function Dedupe(items: seq<string>): (r: seq<string>)
    ensures |r| <= |items|
  {
    if items == [] then []
    else
      var init, text := Dedupe(items[..|items| - 1]), Strip(items[|items| - 1]);
      if text == "" || text in init then init else init + [text]
  }

  method DedupeKeepOrder(items: seq<string>) returns (out: seq<string>)
    ensures out == Dedupe(items)
  {
    var seen: set<string> := {};
    out := [];
    for i := 0 to |items|
      invariant out == Dedupe(items[..i]) && seen == set x | x in out
    {
      var text := Strip(items[i]);
      assert items[..i + 1][..i] == items[..i];
      if text != "" && text !in seen {
        seen := seen + {text};
        out := out + [text];
      }
    }
    assert items[..|items|] == items;
  }

  ghost predicate Distinct(s: seq<string>) { forall i, j :: 0 <= i < j < |s| ==> s[i] != s[j] }

  /** `x` is what a non-blank item reads once stripped. */
  ghost predicate Wanted(items: seq<string>, x: string) {
    x != "" && exists i :: 0 <= i < |items| && Strip(items[i]) == x
  }

  lemma {:induction false} WantedSnoc(items: seq<string>, x: string)
    requires items != []
    ensures var n := |items| - 1;
            Wanted(items, x) <==> Wanted(items[..n], x) || (x != "" && x == Strip(items[n]))
  {
    var n := |items| - 1;
    assert forall k :: 0 <= k < n ==> items[..n][k] == items[k];
    if Wanted(items[..n], x) {
      var k :| 0 <= k < n && Strip(items[..n][k]) == x;
      assert Strip(items[k]) == x;
    }
    if Wanted(items, x) {
      var k :| 0 <= k < |items| && Strip(items[k]) == x;
      assert k < n ==> Strip(items[..n][k]) == x;
    }
  }

  /** Deduplication keeps exactly the stripped non-blank items. */
  lemma {:induction false} DedupeMember(items: seq<string>, x: string)
    ensures x in Dedupe(items) <==> Wanted(items, x)
  {
    if items != [] {
      DedupeMember(items[..|items| - 1], x);
      WantedSnoc(items, x);
    }
  }

  /** And each of them once. */
  lemma {:induction false} DedupeDistinct(items: seq<string>)
    ensures Distinct(Dedupe(items))
  {
    if items != [] {
      var init := Dedupe(items[..|items| - 1]);
      DedupeDistinct(items[..|items| - 1]);
      assert forall k :: 0 <= k < |init| ==> init[k] in init;
    }
  }

  /** Non-blank and pairwise different once stripped: what a validated contract's lists are. */
  ghost predicate Clean(items: seq<string>) {
    && (forall i :: 0 <= i < |items| ==> Strip(items[i]) != "")
    && (forall i, j :: 0 <= i < j < |items| ==> Strip(items[i]) != Strip(items[j]))
  }

  lemma {:induction false} CleanSnoc(items: seq<string>)
    requires items != []
    ensures var n := |items| - 1;
            Clean(items) <==> Clean(items[..n]) && Strip(items[n]) != "" && !Wanted(items[..n], Strip(items[n]))
  {
    var n := |items| - 1;
    var init, last := items[..n], Strip(items[n]);
    assert forall k :: 0 <= k < n ==> init[k] == items[k];
    if Clean(init) && last != "" && !Wanted(init, last) {
      forall i, j | 0 <= i < j < |items| ensures Strip(items[i]) != Strip(items[j]) {
        assert Strip(init[i]) != last;
        if j < n { assert Strip(init[i]) != Strip(init[j]); }
      }
      forall i | 0 <= i < |items| ensures Strip(items[i]) != "" {
        if i < n { assert Strip(init[i]) != ""; }
      }
    }
  }

  /** Deduplication drops nothing exactly from clean lists. */
  lemma {:induction false} DedupeKeepsAllIff(items: seq<string>)
    ensures |Dedupe(items)| == |items| <==> Clean(items)
  {
    if items != [] {
      var n := |items| - 1;
      DedupeKeepsAllIff(items[..n]);
      DedupeMember(items[..n], Strip(items[n]));
      CleanSnoc(items);
    }
  }

  /** A deduplicated list is clean. */
  lemma {:induction false} DedupedIsClean(items: seq<string>)
    ensures Clean(Dedupe(items))
  {
    var d := Dedupe(items);
    DedupeDistinct(items);
    forall i | 0 <= i < |d| ensures Strip(d[i]) == d[i] && d[i] != "" {
      WantedIsStripped(items, d[i]);
    }
  }

  lemma {:induction false} WantedIsStripped(items: seq<string>, x: string)
    requires x in Dedupe(items)
    ensures x != "" && Strip(x) == x
  {
    DedupeMember(items, x);
    var k :| 0 <= k < |items| && Strip(items[k]) == x;
    StripTwice(items[k]);
  }

  // ---- matching -----------------------------------------------------------------------

  function Keep(s: seq<string>, p: string -> bool): (r: seq<string>)
    ensures |r| <= |s|
  {
    if s == [] then []
    else
      var last := s[|s| - 1];
      Keep(s[..|s| - 1], p) + if p(last) then [last] else []
  }

  lemma {:induction false} KeepMember(s: seq<string>, p: string -> bool, x: string)
    ensures x in Keep(s, p) <==> x in s && p(x)
  {
    if s != [] { KeepMember(s[..|s| - 1], p, x); }
  }

  lemma {:induction false} KeepSnoc(s: seq<string>, x: string, p: string -> bool)
    ensures Keep(s + [x], p) == Keep(s, p) + if p(x) then [x] else []
  {
    assert (s + [x])[..|s|] == s;
  }

  /** Keeping and dropping split a list. */
  lemma {:induction false} KeepSplits(s: seq<string>, p: string -> bool, q: string -> bool)
    requires forall x :: x in s ==> (p(x) <==> !q(x))
    ensures |Keep(s, p)| + |Keep(s, q)| == |s|
    ensures |Keep(s, q)| == 0 <==> forall x :: x in s ==> p(x)
  {
    if s != [] {
      var init, last := s[..|s| - 1], s[|s| - 1];
      KeepSplits(init, p, q);
      assert forall x :: x in s <==> x in init || x == last;
    }
  }

  /** The completion: what its lower-cased text contains. */
  datatype Text = Text(lower: string -> string, says: string -> bool)

  predicate Found(t: Text, observed: seq<string>, text: string) {
    (exists i :: 0 <= i < |observed| && observed[i] != "" && t.lower(observed[i]) == t.lower(text))
        || t.says(t.lower(text))
  }

  function Present(t: Text, observed: seq<string>): string -> bool { (x: string) => Found(t, observed, x) }

  function Absent(t: Text, observed: seq<string>): string -> bool { (x: string) => !Found(t, observed, x) }

  /** The deduplicated requirements that are found. */
  function Matched(t: Text, required: seq<string>, observed: seq<string>): seq<string> {
    Keep(Dedupe(required), Present(t, observed))
  }

  /** And those that are not. */
  function Missing(t: Text, required: seq<string>, observed: seq<string>): seq<string> {
    Keep(Dedupe(required), Absent(t, observed))
  }

  ghost predicate AllFound(t: Text, required: seq<string>, observed: seq<string>) {
    forall x :: x in Dedupe(required) ==> Found(t, observed, x)
  }

  /** `_match_required_references`: sorts first and deduplicates afterwards, to the same effect. */
  method MatchRequired(t: Text, required: seq<string>, observed: seq<string>)
    returns (matched: seq<string>, missing: seq<string>)
    ensures matched == Matched(t, required, observed) && missing == Missing(t, required, observed)
  {
    var m: seq<string>, n: seq<string> := [], [];
    for i := 0 to |required|
      invariant Dedupe(m) == Matched(t, required[..i], observed)
      invariant Dedupe(n) == Missing(t, required[..i], observed)
    {
      var text := Strip(required[i]);
      SortOneMore(required, i, m, Present(t, observed));
      SortOneMore(required, i, n, Absent(t, observed));
      if text != "" {
        if Found(t, observed, text) {
          m := m + [text];
        } else {
          n := n + [text];
        }
      }
    }
    assert required[..|required|] == required;
    matched := DedupeKeepOrder(m);
    missing := DedupeKeepOrder(n);
  }

  /** One requirement more: appended and deduplicated, or deduplicated and kept. */
  lemma {:induction false} SortOneMore(required: seq<string>, i: nat, m: seq<string>, p: string -> bool)
    requires i < |required| && Dedupe(m) == Keep(Dedupe(required[..i]), p)
    ensures var text := Strip(required[i]);
            Keep(Dedupe(required[..i + 1]), p) == Dedupe(if text != "" && p(text) then m + [text] else m)
  {
    assert required[..i + 1] == required[..i] + [required[i]];
    DedupeSnoc(required[..i], required[i]);
    StripTwice(required[i]);
    AppendKept(Dedupe(required[..i]), Strip(required[i]), m, p);
  }

  /** One text more, on both sides. */
  lemma {:induction false} AppendKept(d: seq<string>, text: string, m: seq<string>, p: string -> bool)
    requires Strip(text) == text && Dedupe(m) == Keep(d, p)
    ensures Keep(if text == "" || text in d then d else d + [text], p)
              == Dedupe(if text != "" && p(text) then m + [text] else m)
  {
    DedupeSnoc(m, text);
    KeepSnoc(d, text, p);
    KeepMember(d, p, text);
  }

  lemma {:induction false} DedupeSnoc(items: seq<string>, item: string)
    ensures Dedupe(items + [item]) ==
            if Strip(item) == "" || Strip(item) in Dedupe(items) then Dedupe(items) else Dedupe(items) + [Strip(item)]
  {
    assert (items + [item])[..|items|] == items;
  }

  /** Matched and missing add up to the requirements; none is missing exactly when all are found. */
  lemma {:induction false} MatchCounts(t: Text, required: seq<string>, observed: seq<string>)
    ensures |Matched(t, required, observed)| + |Missing(t, required, observed)| == |Dedupe(required)|
    ensures |Missing(t, required, observed)| == 0 <==> AllFound(t, required, observed)
  {
    KeepSplits(Dedupe(required), Present(t, observed), Absent(t, observed));
  }

  /** A requirement is matched if it is found, and missing otherwise. */
  lemma {:induction false} MatchedIff(t: Text, required: seq<string>, observed: seq<string>, x: string)
    ensures x in Matched(t, required, observed) <==> x in Dedupe(required) && Found(t, observed, x)
    ensures x in Missing(t, required, observed) <==> x in Dedupe(required) && !Found(t, observed, x)
  {
    KeepMember(Dedupe(required), Present(t, observed), x);
    KeepMember(Dedupe(required), Absent(t, observed), x);
  }

  // ---- the gates ------------------------------------------------------------------------

  datatype Contract = Contract(
    requiredSections: seq<string>, requiredContextRefs: seq<string>, requiredEvidence: seq<string>,
    requiredFiles: seq<string>, requiredTests: seq<string>, stakeholders: seq<string>,
    minFiles: int, minTests: int, minFixes: int, minContext: int, minMeta: int, minSupported: int,
    maxUnsupported: real, requireSystemEffects: bool)

  /** The counts of a defense packet; the missing lists as counts. */
  datatype Packet = Packet(
    missingSections: nat, files: nat, tests: nat, fixes: nat, matchedFiles: nat, missingFiles: nat,
    matchedTests: nat, missingTests: nat, contextRefs: nat, missingContext: nat, matchedEvidence: nat,
    missingEvidence: nat, strongClaims: nat, supportedClaims: nat, metaObservations: nat, systemEffects: nat,
    stakeholderMentions: nat, missingStakeholders: nat)

  function Min(a: real, b: real): real { if a < b then a else b }

  function Clamp01(x: real): real { if x < 0.0 then 0.0 else if x < 1.0 then x else 1.0 }

  /** A count against a minimum that may be nothing. */
  function Reached(n: nat, minimum: int): real {
    if minimum <= 0 then 1.0 else Min(n as real / minimum as real, 1.0)
  }

  /** A count against the length of a list of requirements. */
  function Covered(n: nat, total: nat): real {
    if total == 0 then 1.0 else Min(n as real / total as real, 1.0)
  }

  function UnsupportedRatio(p: Packet): real {
    if p.strongClaims == 0 then 0.0 else Clamp01((p.strongClaims - p.supportedClaims) as real / p.strongClaims as real)
  }

  function RequiredSupported(c: Contract, p: Packet): int {
    var m := if c.minSupported < 1 then 1 else c.minSupported;
    if p.strongClaims <= 0 then 0 else if p.strongClaims < m then p.strongClaims else m
  }

  function UnsupportedScore(c: Contract, p: Packet): real {
    if UnsupportedRatio(p) <= c.maxUnsupported then 1.0
    else
      var width := if 1.0 - c.maxUnsupported < 0.01 then 0.01 else 1.0 - c.maxUnsupported;
      var s := 1.0 - (UnsupportedRatio(p) - c.maxUnsupported) / width;
      if s < 0.0 then 0.0 else s
  }

  function SectionScore(c: Contract, p: Packet): real {
    if |c.requiredSections| == 0 then 1.0
    else (|c.requiredSections| - p.missingSections) as real / |c.requiredSections| as real
  }

  datatype Gate = Gate(passed: bool, score: real)

  function Responsiveness(c: Contract, p: Packet): Gate {
    Gate(p.missingSections == 0, Clamp01(SectionScore(c, p)))
  }

  function Auditability(c: Contract, p: Packet): Gate {
    Gate(c.minFiles <= p.files && c.minTests <= p.tests && c.minFixes <= p.fixes && p.missingFiles == 0
         && p.missingTests == 0,
         Clamp01((Reached(p.files, c.minFiles) + Reached(p.tests, c.minTests) + Reached(p.fixes, c.minFixes)
                  + Covered(p.matchedFiles, |c.requiredFiles|) + Covered(p.matchedTests, |c.requiredTests|)) / 5.0))
  }

  function Grounding(c: Contract, p: Packet): Gate {
    Gate(RequiredSupported(c, p) <= p.supportedClaims && UnsupportedRatio(p) <= c.maxUnsupported
         && c.minContext <= p.contextRefs && p.missingContext == 0 && p.missingEvidence == 0,
         Clamp01((UnsupportedScore(c, p) + Reached(p.contextRefs, c.minContext)
                  + Covered(p.matchedEvidence, |c.requiredEvidence|)
                  + Reached(p.supportedClaims, RequiredSupported(c, p))) / 4.0))
  }

  function CausalAwareness(c: Contract, p: Packet): Gate {
    Gate(c.minMeta <= p.metaObservations && (!c.requireSystemEffects || 0 < p.systemEffects)
         && p.missingStakeholders == 0,
         Clamp01((Reached(p.metaObservations, c.minMeta)
                  + (if !c.requireSystemEffects || 0 < p.systemEffects then 1.0 else 0.0)
                  + Covered(p.stakeholderMentions, |c.stakeholders|)) / 3.0))
  }

  datatype Verdict = Verdict(accepted: bool, finalScore: real, quality: real)

  /** `assess_honors_checkpoint` under an honors contract. */
  function Assess(c: Contract, p: Packet, semantic: real): Verdict {
    var a, b, d, e := Responsiveness(c, p), Grounding(c, p), Auditability(c, p), CausalAwareness(c, p);
    var final := (a.score + b.score + d.score + e.score) / 4.0;
    Verdict(a.passed && b.passed && d.passed && e.passed, final, Clamp01((semantic + final) / 2.0))
  }

  /**
   How the counts come about: each requirement is either met or missing, stakeholders
   and context references without deduplication, the reference lists with it.
   */
  ghost predicate Counted(c: Contract, p: Packet) {
    && p.missingSections <= |c.requiredSections|
    && p.stakeholderMentions + p.missingStakeholders == |c.stakeholders|
    && p.matchedFiles + p.missingFiles == |Dedupe(c.requiredFiles)|
    && p.matchedTests + p.missingTests == |Dedupe(c.requiredTests)|
    && p.matchedEvidence + p.missingEvidence == |Dedupe(c.requiredEvidence)|
    && p.supportedClaims <= p.strongClaims
  }

  lemma {:induction false} FullReach(n: nat, minimum: int)
    requires minimum <= n
    ensures Reached(n, minimum) == 1.0
  {
    if 0 < minimum {
      assert 1.0 <= n as real / minimum as real;
    }
  }

  lemma {:induction false} FullCover(n: nat, total: nat)
    requires n <= total
    ensures Covered(n, total) <= 1.0 && (Covered(n, total) == 1.0 <==> n == total)
  {
    if 0 < total {
      var q := n as real / total as real;
      assert q * total as real == n as real;
      assert (1.0 - q) * total as real == (total - n) as real;
    }
  }

  /** Scores are fractions, whatever the completion and the contract. */
  lemma {:induction false} ScoresAreFractions(c: Contract, p: Packet, semantic: real)
    ensures var v := Assess(c, p, semantic); 0.0 <= v.finalScore <= 1.0 && 0.0 <= v.quality <= 1.0
  {
  }

  /** A mean of five that are at most one is one only when all are. */
  lemma {:induction false} MeanOfFive(a: real, b: real)
    requires a <= 1.0 && b <= 1.0
    ensures Clamp01((3.0 + a + b) / 5.0) == 1.0 <==> a == 1.0 && b == 1.0
  {
  }

  lemma {:induction false} PassedAuditability(c: Contract, p: Packet)
    requires Counted(c, p) && Auditability(c, p).passed
    ensures Auditability(c, p).score == 1.0 <==> Clean(c.requiredFiles) && Clean(c.requiredTests)
  {
    DedupeKeepsAllIff(c.requiredFiles);
    DedupeKeepsAllIff(c.requiredTests);
    FullReach(p.files, c.minFiles);
    FullReach(p.tests, c.minTests);
    FullReach(p.fixes, c.minFixes);
    FullCover(p.matchedFiles, |c.requiredFiles|);
    FullCover(p.matchedTests, |c.requiredTests|);
    MeanOfFive(Covered(p.matchedFiles, |c.requiredFiles|), Covered(p.matchedTests, |c.requiredTests|));
  }

  lemma {:induction false} PassedGrounding(c: Contract, p: Packet)
    requires Counted(c, p) && Grounding(c, p).passed
    ensures Grounding(c, p).score == 1.0 <==> Clean(c.requiredEvidence)
  {
    DedupeKeepsAllIff(c.requiredEvidence);
    FullReach(p.contextRefs, c.minContext);
    FullReach(p.supportedClaims, RequiredSupported(c, p));
    FullCover(p.matchedEvidence, |c.requiredEvidence|);
  }

  lemma {:induction false} PassedOthers(c: Contract, p: Packet)
    requires Counted(c, p)
    ensures Responsiveness(c, p).passed ==> Responsiveness(c, p).score == 1.0
    ensures CausalAwareness(c, p).passed ==> CausalAwareness(c, p).score == 1.0
  {
    if CausalAwareness(c, p).passed {
      FullReach(p.metaObservations, c.minMeta);
      FullCover(p.stakeholderMentions, |c.stakeholders|);
    }
    if p.missingSections == 0 { assert SectionScore(c, p) == 1.0; }
  }

  /**
   An accepted checkpoint scores exactly one if and only if the required evidence,
   file and test lists are clean; then its quality is the mean of the semantic score and one.
   */
  lemma {:induction false} AcceptedScoresOneIff(c: Contract, p: Packet, semantic: real)
    requires Counted(c, p) && Assess(c, p, semantic).accepted
    ensures Assess(c, p, semantic).finalScore == 1.0 <==>
            Clean(c.requiredFiles) && Clean(c.requiredTests) && Clean(c.requiredEvidence)
    ensures Assess(c, p, semantic).finalScore == 1.0 ==>
              Assess(c, p, semantic).quality == Clamp01((semantic + 1.0) / 2.0)
  {
    PassedOthers(c, p);
    PassedGrounding(c, p);
    PassedAuditability(c, p);
    var b, d := Grounding(c, p).score, Auditability(c, p).score;
    assert Assess(c, p, semantic).finalScore == (1.0 + b + d + 1.0) / 4.0;
    assert b <= 1.0 && d <= 1.0;
  }

  // ---- from a completion to its verdict ---------------------------------------------------

  /** What the text heuristics find in a completion. */
  datatype Extracted = Extracted(
    files: seq<string>, tests: seq<string>, evidenceItems: seq<string>, fixes: nat, findings: nat,
    systemEffects: nat, metaObservations: nat, namesClaims: bool)

  function Mentioned(t: Text): string -> bool { (x: string) => t.says(t.lower(x)) }

  function Headed(t: Text): string -> bool { (x: string) => t.says(t.lower(x) + ":") }

  function Headless(t: Text): string -> bool { (x: string) => !t.says(t.lower(x) + ":") }

  function Outside(s: seq<string>): string -> bool { (x: string) => x !in s }

  function Evidence(x: Extracted): seq<string> { Dedupe(x.evidenceItems + x.files + x.tests) }

  /** Findings and system effects, at least one when the completion names claims. */
  function Claims(x: Extracted): nat {
    var n := x.findings + x.systemEffects;
    if n == 0 && x.namesClaims then 1 else n
  }

  /** The distinct references that support claims. */
  function Signals(c: Contract, t: Text, x: Extracted): seq<string> {
    Dedupe(Evidence(x) + Keep(c.requiredContextRefs, Mentioned(t))
           + Matched(t, c.requiredEvidence, Evidence(x))
           + Matched(t, c.requiredFiles, x.files + Evidence(x))
           + Matched(t, c.requiredTests, x.tests + Evidence(x)))
  }

  function Supported(c: Contract, t: Text, x: Extracted): nat {
    if Claims(x) < |Signals(c, t, x)| then Claims(x) else |Signals(c, t, x)|
  }

  function NotMentioned(t: Text, s: seq<string>): seq<string> { Keep(s, Outside(Keep(s, Mentioned(t)))) }

  function PacketOf(c: Contract, t: Text, x: Extracted): Packet {
    Packet(|Keep(c.requiredSections, Headless(t))|, |x.files|, |x.tests|, x.fixes,
           |Matched(t, c.requiredFiles, x.files + Evidence(x))|, |Missing(t, c.requiredFiles, x.files + Evidence(x))|,
           |Matched(t, c.requiredTests, x.tests + Evidence(x))|, |Missing(t, c.requiredTests, x.tests + Evidence(x))|,
           |Keep(c.requiredContextRefs, Mentioned(t))|, |NotMentioned(t, c.requiredContextRefs)|,
           |Matched(t, c.requiredEvidence, Evidence(x))|, |Missing(t, c.requiredEvidence, Evidence(x))|,
           Claims(x), Supported(c, t, x), x.metaObservations, x.systemEffects,
           |Keep(c.stakeholders, Mentioned(t))|, |NotMentioned(t, c.stakeholders)|)
  }

  /** `_build_honors_defense_packet`, list by list. */
  method BuildPacket(c: Contract, t: Text, x: Extracted) returns (p: Packet)
    ensures p == PacketOf(c, t, x)
  {
    var missingSections := Keep(c.requiredSections, Headless(t));
    var context := Keep(c.requiredContextRefs, Mentioned(t));
    var stakeholders := Keep(c.stakeholders, Mentioned(t));
    var missingContext := Keep(c.requiredContextRefs, Outside(context));
    var missingStakeholders := Keep(c.stakeholders, Outside(stakeholders));
    var evidence := DedupeKeepOrder(x.evidenceItems + x.files + x.tests);
    var matchedEvidence, missingEvidence := MatchRequired(t, c.requiredEvidence, evidence);
    var matchedFiles, missingFiles := MatchRequired(t, c.requiredFiles, x.files + evidence);
    var matchedTests, missingTests := MatchRequired(t, c.requiredTests, x.tests + evidence);
    var claims := x.findings + x.systemEffects;
    if claims == 0 && x.namesClaims { claims := 1; }
    var signals := DedupeKeepOrder(evidence + context + matchedEvidence + matchedFiles + matchedTests);
    assert evidence == Evidence(x) && signals == Signals(c, t, x) && claims == Claims(x);
    p := Packet(|missingSections|, |x.files|, |x.tests|, x.fixes, |matchedFiles|, |missingFiles|,
                |matchedTests|, |missingTests|, |context|, |missingContext|, |matchedEvidence|,
                |missingEvidence|, claims, if claims < |signals| then claims else |signals|,
                x.metaObservations, x.systemEffects, |stakeholders|, |missingStakeholders|);
  }

  ghost predicate AllHeaded(t: Text, s: seq<string>) { forall x :: x in s ==> t.says(t.lower(x) + ":") }

  ghost predicate AllSaid(t: Text, s: seq<string>) { forall x :: x in s ==> t.says(t.lower(x)) }

  lemma {:induction false} MentionSplits(t: Text, s: seq<string>)
    ensures |Keep(s, Mentioned(t))| + |NotMentioned(t, s)| == |s|
    ensures |NotMentioned(t, s)| == 0 <==> AllSaid(t, s)
  {
    var used := Keep(s, Mentioned(t));
    forall x | x in s ensures Mentioned(t)(x) <==> !Outside(used)(x) {
      KeepMember(s, Mentioned(t), x);
    }
    KeepSplits(s, Mentioned(t), Outside(used));
  }

  lemma {:induction false} ReferencesAddUp(c: Contract, t: Text, x: Extracted)
    ensures var p := PacketOf(c, t, x);
            && p.matchedFiles + p.missingFiles == |Dedupe(c.requiredFiles)|
            && p.matchedTests + p.missingTests == |Dedupe(c.requiredTests)|
            && p.matchedEvidence + p.missingEvidence == |Dedupe(c.requiredEvidence)|
  {
    MatchCounts(t, c.requiredEvidence, Evidence(x));
    MatchCounts(t, c.requiredFiles, x.files + Evidence(x));
    MatchCounts(t, c.requiredTests, x.tests + Evidence(x));
  }

  /** The counts of a packet add up to the requirements. */
  lemma {:induction false} PacketIsCounted(c: Contract, t: Text, x: Extracted)
    ensures Counted(c, PacketOf(c, t, x))
  {
    ReferencesAddUp(c, t, x);
    MentionSplits(t, c.stakeholders);
  }

  /** What the completion must contain, requirement by requirement. */
  ghost predicate Meets(c: Contract, t: Text, x: Extracted) {
    && AllHeaded(t, c.requiredSections)
    && AllSaid(t, c.requiredContextRefs)
    && AllSaid(t, c.stakeholders)
    && AllFound(t, c.requiredEvidence, Evidence(x))
    && AllFound(t, c.requiredFiles, x.files + Evidence(x))
    && AllFound(t, c.requiredTests, x.tests + Evidence(x))
  }

  /** How much of everything it must contain. */
  predicate Enough(c: Contract, x: Extracted) {
    && c.minFiles <= |x.files| && c.minTests <= |x.tests| && c.minFixes <= x.fixes
    && c.minMeta <= x.metaObservations && c.minContext <= |c.requiredContextRefs|
    && (c.requireSystemEffects ==> 0 < x.systemEffects)
  }

  /** There are as many signals as claims need support, and few enough claims in excess of the signals. */
  predicate WellSupported(c: Contract, t: Text, x: Extracted) {
    var claims, signals := Claims(x), |Signals(c, t, x)|;
    EnoughSignals(c, claims, signals) && Excess(claims, signals) <= c.maxUnsupported
  }

  predicate EnoughSignals(c: Contract, claims: nat, signals: nat) {
    claims == 0 || claims <= signals || (1 <= signals && c.minSupported <= signals)
  }

  /** The share of the claims that exceeds the signals. */
  function Excess(claims: nat, signals: nat): real {
    if claims <= signals then 0.0 else (claims - signals) as real / claims as real
  }

  /** The two support conditions of the grounding gate, for a packet whose signals are so many. */
  lemma {:induction false} SupportIff(c: Contract, p: Packet, signals: nat)
    requires p.supportedClaims == if p.strongClaims < signals then p.strongClaims else signals
    ensures RequiredSupported(c, p) <= p.supportedClaims <==> EnoughSignals(c, p.strongClaims, signals)
    ensures UnsupportedRatio(p) == Excess(p.strongClaims, signals)
  {
    if signals < p.strongClaims {
      var n, all := p.strongClaims - signals, p.strongClaims;
      assert n as real / all as real * all as real == n as real;
      assert 0.0 <= n as real / all as real <= 1.0;
    }
  }

  predicate NothingMissing(p: Packet) {
    p.missingSections == 0 && p.missingContext == 0 && p.missingStakeholders == 0
    && p.missingEvidence == 0 && p.missingFiles == 0 && p.missingTests == 0
  }

  lemma {:induction false} ReferencesMissingIff(c: Contract, t: Text, x: Extracted)
    ensures var p := PacketOf(c, t, x);
            && (p.missingEvidence == 0 <==> AllFound(t, c.requiredEvidence, Evidence(x)))
            && (p.missingFiles == 0 <==> AllFound(t, c.requiredFiles, x.files + Evidence(x)))
            && (p.missingTests == 0 <==> AllFound(t, c.requiredTests, x.tests + Evidence(x)))
  {
    MatchCounts(t, c.requiredEvidence, Evidence(x));
    MatchCounts(t, c.requiredFiles, x.files + Evidence(x));
    MatchCounts(t, c.requiredTests, x.tests + Evidence(x));
  }

  lemma {:induction false} MentionsMissingIff(c: Contract, t: Text, x: Extracted)
    ensures var p := PacketOf(c, t, x);
            && (p.missingContext == 0 <==> AllSaid(t, c.requiredContextRefs))
            && (p.missingStakeholders == 0 <==> AllSaid(t, c.stakeholders))
            && p.contextRefs + p.missingContext == |c.requiredContextRefs|
  {
    MentionSplits(t, c.requiredContextRefs);
    MentionSplits(t, c.stakeholders);
  }

  lemma {:induction false} HeadlessIff(t: Text, sections: seq<string>)
    ensures |Keep(sections, Headless(t))| == 0 <==> AllHeaded(t, sections)
  {
    KeepSplits(sections, Headed(t), Headless(t));
  }

  lemma {:induction false} NothingMissingIff(c: Contract, t: Text, x: Extracted)
    ensures NothingMissing(PacketOf(c, t, x)) <==> Meets(c, t, x)
    ensures AllSaid(t, c.requiredContextRefs) ==> PacketOf(c, t, x).contextRefs == |c.requiredContextRefs|
  {
    ReferencesMissingIff(c, t, x);
    MentionsMissingIff(c, t, x);
    HeadlessIff(t, c.requiredSections);
  }

  /** Counts that let a packet pass, when its signals are so many. */
  predicate Passes(c: Contract, p: Packet, signals: nat) {
    && NothingMissing(p)
    && EnoughSignals(c, p.strongClaims, signals) && Excess(p.strongClaims, signals) <= c.maxUnsupported
    && c.minFiles <= p.files && c.minTests <= p.tests && c.minFixes <= p.fixes
    && c.minMeta <= p.metaObservations && c.minContext <= p.contextRefs
    && (c.requireSystemEffects ==> 0 < p.systemEffects)
  }

  lemma {:induction false} AcceptedCounts(c: Contract, p: Packet, signals: nat, semantic: real)
    requires p.supportedClaims == if p.strongClaims < signals then p.strongClaims else signals
    ensures Assess(c, p, semantic).accepted <==> Passes(c, p, signals)
  {
    SupportIff(c, p, signals);
  }

  lemma {:induction false} PassesWhen(c: Contract, p: Packet, x: Extracted, signals: nat, meets: bool)
    requires p.files == |x.files| && p.tests == |x.tests| && p.fixes == x.fixes && p.strongClaims == Claims(x)
    requires p.metaObservations == x.metaObservations && p.systemEffects == x.systemEffects
    requires (NothingMissing(p) <==> meets) && (meets ==> p.contextRefs == |c.requiredContextRefs|)
    ensures Passes(c, p, signals) <==>
              meets && Enough(c, x) && EnoughSignals(c, Claims(x), signals)
              && Excess(Claims(x), signals) <= c.maxUnsupported
  {
  }

  lemma {:induction false} PassesIff(c: Contract, t: Text, x: Extracted)
    ensures Passes(c, PacketOf(c, t, x), |Signals(c, t, x)|) <==>
              Meets(c, t, x) && Enough(c, x) && WellSupported(c, t, x)
  {
    NothingMissingIff(c, t, x);
    PassesWhen(c, PacketOf(c, t, x), x, |Signals(c, t, x)|, Meets(c, t, x));
  }

  /** A completion is accepted if and only if it contains all and enough of what is required, well supported. */
  lemma {:induction false} AcceptedIff(c: Contract, t: Text, x: Extracted, semantic: real)
    ensures Assess(c, PacketOf(c, t, x), semantic).accepted <==>
              Meets(c, t, x) && Enough(c, x) && WellSupported(c, t, x)
  {
    PassesIff(c, t, x);
    AcceptedCounts(c, PacketOf(c, t, x), |Signals(c, t, x)|, semantic);
  }

  /** A contract as its validation leaves it: lists stripped, without blanks and repetitions. */
  function Validated(c: Contract): Contract {
    c.(requiredSections := Dedupe(c.requiredSections), requiredContextRefs := Dedupe(c.requiredContextRefs),
       requiredEvidence := Dedupe(c.requiredEvidence), requiredFiles := Dedupe(c.requiredFiles),
       requiredTests := Dedupe(c.requiredTests), stakeholders := Dedupe(c.stakeholders))
  }

  /** Under a validated contract an accepted checkpoint scores exactly one. */
  lemma {:induction false} ValidatedScoresOne(c: Contract, t: Text, x: Extracted, semantic: real)
    ensures var v := Assess(Validated(c), PacketOf(Validated(c), t, x), semantic);
            v.accepted ==> v.finalScore == 1.0 && v.quality == Clamp01((semantic + 1.0) / 2.0)
  {
    var d := Validated(c);
    if Assess(d, PacketOf(d, t, x), semantic).accepted {
      PacketIsCounted(d, t, x);
      AcceptedScoresOneIff(d, PacketOf(d, t, x), semantic);
      DedupedIsClean(c.requiredFiles);
      DedupedIsClean(c.requiredTests);
      DedupedIsClean(c.requiredEvidence);
    }
  }

  // ---- what is found -------------------------------------------------------------------------

  /** The observed text is not empty and reads like the required one, in lower case. */
  ghost predicate Reads(t: Text, observed: string, text: string) {
    observed != "" && t.lower(observed) == t.lower(text)
  }

  /** An evidence item, a file or a test that reads so once stripped. */
  ghost predicate Cited(x: Extracted, s: string) {
    s != "" && (OneStrips(x.evidenceItems, s) || OneStrips(x.files, s) || OneStrips(x.tests, s))
  }

  ghost predicate OneStrips(items: seq<string>, s: string) { exists i :: i in items && Strip(i) == s }

  lemma {:induction false} EvidenceIff(x: Extracted, s: string)
    ensures s in Evidence(x) <==> Cited(x, s)
  {
    var all := x.evidenceItems + x.files + x.tests;
    DedupeMember(all, s);
    assert Wanted(all, s) <==> s != "" && OneStrips(all, s);
    assert forall i :: i in all <==> i in x.evidenceItems || i in x.files || i in x.tests;
  }

  /** A text is found when the completion says it, or something observed or cited reads like it. */
  ghost predicate Sought(t: Text, x: Extracted, observed: seq<string>, text: string) {
    || t.says(t.lower(text))
    || (exists o :: o in observed && Reads(t, o, text))
    || (exists o :: Cited(x, o) && Reads(t, o, text))
  }

  lemma {:induction false} FoundIff(t: Text, x: Extracted, observed: seq<string>, text: string)
    ensures Found(t, observed + Evidence(x), text) <==> Sought(t, x, observed, text)
  {
    var all := observed + Evidence(x);
    forall o ensures o in all <==> o in observed || Cited(x, o) { EvidenceIff(x, o); }
    if o :| o in all && Reads(t, o, text) {
      var i :| 0 <= i < |all| && all[i] == o;
      assert Found(t, all, text);
    }
    if i :| 0 <= i < |all| && all[i] != "" && t.lower(all[i]) == t.lower(text) {
      assert all[i] in all && Reads(t, all[i], text);
    }
  }

  /** What the completion must contain, in terms of its own text and of what was extracted from it. */
  ghost predicate Contains(c: Contract, t: Text, x: Extracted) {
    && (forall s :: s in c.requiredSections ==> t.says(t.lower(s) + ":"))
    && (forall s :: s in c.requiredContextRefs ==> t.says(t.lower(s)))
    && (forall s :: s in c.stakeholders ==> t.says(t.lower(s)))
    && AllSought(t, x, [], c.requiredEvidence)
    && AllSought(t, x, x.files, c.requiredFiles) && AllSought(t, x, x.tests, c.requiredTests)
  }

  ghost predicate AllSought(t: Text, x: Extracted, observed: seq<string>, required: seq<string>) {
    forall i :: i in required && Strip(i) != "" ==> Sought(t, x, observed, Strip(i))
  }

  lemma {:induction false} AllFoundIff(t: Text, x: Extracted, observed: seq<string>, required: seq<string>)
    ensures AllFound(t, required, observed + Evidence(x)) <==> AllSought(t, x, observed, required)
  {
    if AllFound(t, required, observed + Evidence(x)) {
      forall i | i in required && Strip(i) != "" ensures Sought(t, x, observed, Strip(i)) {
        DedupeMember(required, Strip(i));
        FoundIff(t, x, observed, Strip(i));
      }
    }
    if AllSought(t, x, observed, required) {
      forall s | s in Dedupe(required) ensures Found(t, observed + Evidence(x), s) {
        DedupeMember(required, s);
        FoundIff(t, x, observed, s);
      }
    }
  }

  lemma {:induction false} MeetsIff(c: Contract, t: Text, x: Extracted)
    ensures Meets(c, t, x) <==> Contains(c, t, x)
  {
    assert [] + Evidence(x) == Evidence(x);
    AllFoundIff(t, x, [], c.requiredEvidence);
    AllFoundIff(t, x, x.files, c.requiredFiles);
    AllFoundIff(t, x, x.tests, c.requiredTests);
  }

  /** What counts as support: what is cited, and the requirements that are found. */
  ghost predicate Supports(c: Contract, t: Text, x: Extracted, s: string) {
    || Cited(x, s)
    || (s != "" && exists r :: r in c.requiredContextRefs && t.says(t.lower(r)) && Strip(r) == s)
    || (s != "" && OneStrips(c.requiredEvidence, s) && Sought(t, x, [], s))
    || (s != "" && OneStrips(c.requiredFiles, s) && Sought(t, x, x.files, s))
    || (s != "" && OneStrips(c.requiredTests, s) && Sought(t, x, x.tests, s))
  }

  lemma {:induction false} MatchedMeans(t: Text, x: Extracted, observed: seq<string>, required: seq<string>, s: string)
    ensures s in Matched(t, required, observed + Evidence(x)) <==>
              s != "" && OneStrips(required, s) && Sought(t, x, observed, s)
    ensures s in Matched(t, required, observed + Evidence(x)) ==> Strip(s) == s
  {
    MatchedIff(t, required, observed + Evidence(x), s);
    DedupeMember(required, s);
    FoundIff(t, x, observed, s);
    if s in Dedupe(required) { WantedIsStripped(required, s); }
  }

  /** Wanted of a concatenation whose later parts are stripped already. */
  lemma {:induction false} WantedOf(a: seq<string>, b: seq<string>, s: string)
    ensures Wanted(a + b, s) <==> Wanted(a, s) || Wanted(b, s)
  {
    if Wanted(a, s) {
      var i :| 0 <= i < |a| && Strip(a[i]) == s;
      assert Strip((a + b)[i]) == s;
    }
    if Wanted(b, s) {
      var i :| 0 <= i < |b| && Strip(b[i]) == s;
      assert Strip((a + b)[|a| + i]) == s;
    }
  }

  lemma {:induction false} WantedStripped(d: seq<string>, s: string)
    requires forall r :: r in d ==> r != "" && Strip(r) == r
    ensures Wanted(d, s) <==> s in d
  {
    if s in d {
      var i :| 0 <= i < |d| && d[i] == s;
      assert Strip(d[i]) == s;
    }
  }

  /** The signals are the texts that support claims, each once. */
  lemma {:induction false} SignalsIff(c: Contract, t: Text, x: Extracted, s: string)
    ensures s in Signals(c, t, x) <==> Supports(c, t, x, s)
    ensures Distinct(Signals(c, t, x))
  {
    var e, k := Evidence(x), Keep(c.requiredContextRefs, Mentioned(t));
    var m, f, g := Matched(t, c.requiredEvidence, e), Matched(t, c.requiredFiles, x.files + e),
                   Matched(t, c.requiredTests, x.tests + e);
    DedupeDistinct(e + k + m + f + g);
    DedupeMember(e + k + m + f + g, s);
    WantedOf(e + k + m + f, g, s);
    WantedOf(e + k + m, f, s);
    WantedOf(e + k, m, s);
    WantedOf(e, k, s);
    EvidenceWanted(x, s);
    KeptWanted(c.requiredContextRefs, t, s);
    assert [] + e == e;
    MatchedWanted(t, x, [], c.requiredEvidence, s);
    MatchedWanted(t, x, x.files, c.requiredFiles, s);
    MatchedWanted(t, x, x.tests, c.requiredTests, s);
  }

  lemma {:induction false} EvidenceWanted(x: Extracted, s: string)
    ensures Wanted(Evidence(x), s) <==> Cited(x, s)
  {
    EvidenceIff(x, s);
    forall r | r in Evidence(x) ensures r != "" && Strip(r) == r {
      WantedIsStripped(x.evidenceItems + x.files + x.tests, r);
    }
    WantedStripped(Evidence(x), s);
  }

  lemma {:induction false} MatchedWanted(t: Text, x: Extracted, observed: seq<string>, required: seq<string>, s: string)
    ensures Wanted(Matched(t, required, observed + Evidence(x)), s) <==>
              s != "" && OneStrips(required, s) && Sought(t, x, observed, s)
  {
    var d := Matched(t, required, observed + Evidence(x));
    forall r | r in d ensures r != "" && Strip(r) == r { MatchedMeans(t, x, observed, required, r); }
    WantedStripped(d, s);
    MatchedMeans(t, x, observed, required, s);
  }

  lemma {:induction false} KeptWanted(refs: seq<string>, t: Text, s: string)
    ensures Wanted(Keep(refs, Mentioned(t)), s) <==>
              s != "" && exists r :: r in refs && t.says(t.lower(r)) && Strip(r) == s
  {
    var k := Keep(refs, Mentioned(t));
    if Wanted(k, s) {
      var i :| 0 <= i < |k| && Strip(k[i]) == s;
      KeepMember(refs, Mentioned(t), k[i]);
    }
    if s != "" {
      if r :| r in refs && t.says(t.lower(r)) && Strip(r) == s {
        KeepMember(refs, Mentioned(t), r);
        var i :| 0 <= i < |k| && k[i] == r;
        assert Strip(k[i]) == s;
      }
    }
  }

  // ---- what is missing costs -------------------------------------------------------------------

  function Share(missing: nat, total: nat): real { if total == 0 then 0.0 else missing as real / total as real }

  /** By how much, of the minimum, a count falls short. */
  function Lack(n: nat, minimum: int): real {
    if minimum <= n then 0.0 else (minimum - n) as real / minimum as real
  }

  /** By how much the unsupported share exceeds what is allowed, of all that could. */
  function Overdrawn(excess: real, allowed: real): real {
    if excess <= allowed then 0.0
    else
      var width := if 0.99 < allowed then 0.01 else 1.0 - allowed;
      if width < excess - allowed then 1.0 else (excess - allowed) / width
  }

  lemma {:induction false} ZeroFactor(a: real, w: real)
    requires a * w == 0.0 && w != 0.0
    ensures a == 0.0
  {
    assert a * w / w == a;
  }

  lemma {:induction false} CoveredIs(n: nat, missing: nat, total: nat)
    requires n + missing == total
    ensures Covered(n, total) == 1.0 - Share(missing, total) && 0.0 <= Share(missing, total) <= 1.0
  {
    if 0 < total {
      var q, r, w := n as real / total as real, missing as real / total as real, total as real;
      assert q * w == n as real && r * w == missing as real;
      assert 0.0 <= q && 0.0 <= r;
      assert (q + r - 1.0) * w == 0.0;
      ZeroFactor(q + r - 1.0, w);
    }
  }

  lemma {:induction false} ReachedIs(n: nat, minimum: int)
    ensures Reached(n, minimum) == 1.0 - Lack(n, minimum) && 0.0 <= Lack(n, minimum) <= 1.0
  {
    FullReach(n, if minimum <= n then minimum else n);
    if n < minimum {
      CoveredIs(n, minimum - n, minimum);
    } else {
      FullReach(n, minimum);
    }
  }

  lemma {:induction false} OverdrawnIs(c: Contract, p: Packet)
    ensures UnsupportedScore(c, p) == 1.0 - Overdrawn(UnsupportedRatio(p), c.maxUnsupported)
    ensures 0.0 <= Overdrawn(UnsupportedRatio(p), c.maxUnsupported) <= 1.0
  {
    var excess, allowed := UnsupportedRatio(p), c.maxUnsupported;
    if allowed < excess {
      var d, width := excess - allowed, if 0.99 < allowed then 0.01 else 1.0 - allowed;
      assert d / width * width == d;
      assert width < d <==> 1.0 < d / width;
    }
  }

  ghost predicate CleanLists(c: Contract) {
    Clean(c.requiredFiles) && Clean(c.requiredTests) && Clean(c.requiredEvidence)
  }

  /** How many claims must be supported. */
  function Needed(c: Contract, claims: nat): int {
    if claims == 0 then 0
    else if c.minSupported < 1 then 1
    else if claims < c.minSupported then claims
    else c.minSupported
  }

  lemma {:induction false} AuditabilityCosts(c: Contract, p: Packet)
    requires Counted(c, p) && CleanLists(c)
    ensures Auditability(c, p).score ==
            1.0 - (Lack(p.files, c.minFiles) + Lack(p.tests, c.minTests) + Lack(p.fixes, c.minFixes)
                   + Share(p.missingFiles, |c.requiredFiles|) + Share(p.missingTests, |c.requiredTests|)) / 5.0
  {
    DedupeKeepsAllIff(c.requiredFiles);
    DedupeKeepsAllIff(c.requiredTests);
    ReachedIs(p.files, c.minFiles);
    ReachedIs(p.tests, c.minTests);
    ReachedIs(p.fixes, c.minFixes);
    CoveredIs(p.matchedFiles, p.missingFiles, |c.requiredFiles|);
    CoveredIs(p.matchedTests, p.missingTests, |c.requiredTests|);
  }

  lemma {:induction false} ResponsivenessCosts(c: Contract, p: Packet)
    requires Counted(c, p)
    ensures Responsiveness(c, p).score == 1.0 - Share(p.missingSections, |c.requiredSections|)
  {
    CoveredIs(|c.requiredSections| - p.missingSections, p.missingSections, |c.requiredSections|);
  }

  lemma {:induction false} CausalAwarenessCosts(c: Contract, p: Packet)
    requires Counted(c, p)
    ensures CausalAwareness(c, p).score ==
            1.0 - (Lack(p.metaObservations, c.minMeta) + Share(p.missingStakeholders, |c.stakeholders|)
                   + if c.requireSystemEffects && p.systemEffects == 0 then 1.0 else 0.0) / 3.0
  {
    ReachedIs(p.metaObservations, c.minMeta);
    CoveredIs(p.stakeholderMentions, p.missingStakeholders, |c.stakeholders|);
  }

  lemma {:induction false} GroundingCosts(c: Contract, p: Packet, signals: nat)
    requires Counted(c, p) && CleanLists(c)
    requires p.supportedClaims == if p.strongClaims < signals then p.strongClaims else signals
    ensures Grounding(c, p).score ==
            1.0 - (Overdrawn(Excess(p.strongClaims, signals), c.maxUnsupported) + Lack(p.contextRefs, c.minContext)
                   + Share(p.missingEvidence, |c.requiredEvidence|)
                   + Lack(p.supportedClaims, Needed(c, p.strongClaims))) / 4.0
  {
    SupportIff(c, p, signals);
    OverdrawnIs(c, p);
    DedupeKeepsAllIff(c.requiredEvidence);
    ReachedIs(p.contextRefs, c.minContext);
    CoveredIs(p.matchedEvidence, p.missingEvidence, |c.requiredEvidence|);
    ReachedIs(p.supportedClaims, RequiredSupported(c, p));
  }

  /** One, less the cost of each thing missing: the gates weigh alike, and so do the parts of a gate. */
  ghost predicate Costs(c: Contract, p: Packet, signals: nat, score: real) {
    score == 1.0
      - Share(p.missingSections, |c.requiredSections|) / 4.0
      - (Lack(p.files, c.minFiles) + Lack(p.tests, c.minTests) + Lack(p.fixes, c.minFixes)
         + Share(p.missingFiles, |c.requiredFiles|) + Share(p.missingTests, |c.requiredTests|)) / 20.0
      - (Overdrawn(Excess(p.strongClaims, signals), c.maxUnsupported) + Lack(p.contextRefs, c.minContext)
         + Share(p.missingEvidence, |c.requiredEvidence|)
         + Lack(p.supportedClaims, Needed(c, p.strongClaims))) / 16.0
      - (Lack(p.metaObservations, c.minMeta) + Share(p.missingStakeholders, |c.stakeholders|)
         + if c.requireSystemEffects && p.systemEffects == 0 then 1.0 else 0.0) / 12.0
  }

  /** Under clean lists that is the score. */
  lemma {:induction false} MissingCosts(c: Contract, p: Packet, signals: nat, semantic: real)
    requires Counted(c, p) && CleanLists(c)
    requires p.supportedClaims == if p.strongClaims < signals then p.strongClaims else signals
    ensures Costs(c, p, signals, Assess(c, p, semantic).finalScore)
  {
    ResponsivenessCosts(c, p);
    AuditabilityCosts(c, p);
    CausalAwarenessCosts(c, p);
    GroundingCosts(c, p, signals);
  }

  lemma {:induction false} KeepDistinct(s: seq<string>, p: string -> bool)
    requires Distinct(s)
    ensures Distinct(Keep(s, p))
  {
    if s != [] {
      var n := |s| - 1;
      KeepDistinct(s[..n], p);
      var k := Keep(s[..n], p);
      forall i | 0 <= i < |k| ensures k[i] != s[n] {
        KeepMember(s[..n], p, k[i]);
        assert k[i] in k;
      }
    }
  }

  /** What counts as missing: each requirement that is not found, once. */
  lemma {:induction false} MissingMeans(t: Text, x: Extracted, observed: seq<string>, required: seq<string>, s: string)
    ensures s in Missing(t, required, observed + Evidence(x)) <==>
              s != "" && OneStrips(required, s) && !Sought(t, x, observed, s)
    ensures Distinct(Missing(t, required, observed + Evidence(x)))
  {
    MatchedIff(t, required, observed + Evidence(x), s);
    DedupeMember(required, s);
    FoundIff(t, x, observed, s);
    DedupeDistinct(required);
    KeepDistinct(Dedupe(required), Absent(t, observed + Evidence(x)));
  }

  /**
   The checkpoint, from completion to verdict: exactly the completions that contain what
   is required are accepted, and under clean requirement lists with a score of one.
   */
  method AssessHonorsCheckpoint(c: Contract, t: Text, x: Extracted, semantic: real) returns (v: Verdict)
    ensures v == Assess(c, PacketOf(c, t, x), semantic)
    ensures v.accepted <==> Contains(c, t, x) && Enough(c, x) && WellSupported(c, t, x)
    ensures v.accepted ==> (v.finalScore == 1.0 <==>
                            Clean(c.requiredFiles) && Clean(c.requiredTests) && Clean(c.requiredEvidence))
    ensures CleanLists(c) ==> Costs(c, PacketOf(c, t, x), |Signals(c, t, x)|, v.finalScore)
    ensures 0.0 <= v.finalScore <= 1.0 && 0.0 <= v.quality <= 1.0
  {
    var p := BuildPacket(c, t, x);
    v := Assess(c, p, semantic);
    ScoresAreFractions(c, p, semantic);
    AcceptedIff(c, t, x, semantic);
    MeetsIff(c, t, x);
    PacketIsCounted(c, t, x);
    if v.accepted { AcceptedScoresOneIff(c, p, semantic); }
    if CleanLists(c) { MissingCosts(c, p, |Signals(c, t, x)|, semantic); }
  }
}
