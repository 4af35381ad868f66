/**
 `invariant_issues` and the unit-wise totals of the reciprocity ledger, and what
 a clean bill of issues says about the totals.
 */
module ReciprocityInvariants {
  import opened OrderedDict
  import opened ReciprocityLedgers

  const TOLERANCE := 0.000000001

  datatype Code =
    | ActivityMissingActor | ObligationMissingActivity | FulfilledWithoutRouting | RoutingExceedsObligation
    | RoutingMissingObligation | RoutingMissingProject | LivelihoodMissingProject | LivelihoodMissingTargetGroup
    | OutcomeMissingProject | VerifiedEcologyMissingEvidence | VerifiedEcologyMissingAudit
    | ExperimentalProjectVerifiedClaim

  datatype Issue = Issue(code: Code, subject: string)

  // ---- sums -----------------------------------------------------------------

  predicate RoutesTo(r: Record, id: string, u: QuantityUnit) {
    r.RoutingRecord? && r.obligationId == id && r.routedUnit == u
  }

  /** What the given routings send to obligation `id` in unit `u`. */
  function Routed(routings: seq<Record>, id: string, u: QuantityUnit): real {
    if routings == [] then 0.0
    else
      var last := routings[|routings| - 1];
      Routed(routings[..|routings| - 1], id, u) + if RoutesTo(last, id, u) then last.routedValue else 0.0
  }

  /** `total_routed`. */
  function TotalRouted(routings: seq<Record>, u: QuantityUnit): real {
    if routings == [] then 0.0
    else
      var last := routings[|routings| - 1];
      TotalRouted(routings[..|routings| - 1], u)
      + if last.RoutingRecord? && last.routedUnit == u then last.routedValue else 0.0
  }

  predicate InUnit(o: Record, u: QuantityUnit) { o.ObligationRecord? && o.obligationUnit == u }

  /** `total_obligation`. */
  function TotalObligation(obligations: seq<Record>, u: QuantityUnit): real {
    if obligations == [] then 0.0
    else
      var last := obligations[|obligations| - 1];
      TotalObligation(obligations[..|obligations| - 1], u) + if InUnit(last, u) then last.quantity else 0.0
  }

  function CountInUnit(obligations: seq<Record>, u: QuantityUnit): nat {
    if obligations == [] then 0
    else CountInUnit(obligations[..|obligations| - 1], u) + if InUnit(obligations[|obligations| - 1], u) then 1 else 0
  }

  // ---- the issues ------------------------------------------------------------

  predicate Blank(s: string) { forall i :: 0 <= i < |s| ==> s[i] in " \t\n\r" }

  predicate Ecological(t: OutcomeType) { t.Carbon? || t.Biodiversity? || t.Watershed? || t.Methane? }

  predicate Claimed(s: OutcomeStatus) { s.Verified? || s.Challenged? || s.Reversed? }

  predicate Routes(routings: seq<Record>, id: string) {
    exists i :: 0 <= i < |routings| && routings[i].RoutingRecord? && routings[i].obligationId == id
  }

  predicate RoutesInUnit(routings: seq<Record>, id: string, u: QuantityUnit) {
    exists i :: 0 <= i < |routings| && RoutesTo(routings[i], id, u)
  }

  predicate HasEvidence(evidence: seq<Record>, id: string) {
    exists i :: 0 <= i < |evidence| && evidence[i].EvidenceRecord? && evidence[i].subjectType.OfOutcome?
        && evidence[i].subjectId == id
  }

  predicate HasAudit(audits: seq<Record>, id: string) {
    exists i :: 0 <= i < |audits| && audits[i].AuditRecord? && audits[i].scope.ScopeOutcome? && audits[i].scopeId == id
  }

  /** When each kind of issue is raised about a record. */
  predicate Raised(t: Tables, code: Code, r: Record) {
    match code
    case ActivityMissingActor => r.ActivityRecord? && !Has(t.actors, r.actorId)
    case ObligationMissingActivity => r.ObligationRecord? && !Has(t.activities, r.activityId)
    case FulfilledWithoutRouting => r.ObligationRecord? && r.obligationStatus.Fulfilled?
        && !Routes(Values(t.routings), r.id)
    case RoutingExceedsObligation =>
      r.ObligationRecord? && RoutesInUnit(Values(t.routings), r.id, r.obligationUnit)
      && r.quantity + TOLERANCE < Routed(Values(t.routings), r.id, r.obligationUnit)
    case RoutingMissingObligation => r.RoutingRecord? && !Has(t.obligations, r.obligationId)
    case RoutingMissingProject => r.RoutingRecord? && !Has(t.projects, r.projectId)
    case LivelihoodMissingProject => r.LivelihoodRecord? && !Has(t.projects, r.projectId)
    case LivelihoodMissingTargetGroup => r.LivelihoodRecord? && Blank(r.targetGroup)
    case OutcomeMissingProject => r.OutcomeRecord? && !Has(t.projects, r.projectId)
    case VerifiedEcologyMissingEvidence => EcologicalClaim(t, r) && !HasEvidence(Values(t.evidence), r.id)
    case VerifiedEcologyMissingAudit => EcologicalClaim(t, r) && !HasAudit(Values(t.audits), r.id)
    case ExperimentalProjectVerifiedClaim =>
      EcologicalClaim(t, r) && Get(t.projects, r.projectId).ProjectRecord?
          && Get(t.projects, r.projectId).integrity.Experimental?
  }

  predicate EcologicalClaim(t: Tables, r: Record) {
    r.OutcomeRecord? && Has(t.projects, r.projectId) && Ecological(r.outcomeType) && Claimed(r.outcomeStatus)
  }

  /** The codes checked for each record of a table, in the order they are checked. */
  function CodesFor(k: Kind): seq<Code> {
    match k
    case Activity => [ActivityMissingActor]
    case Obligation => [ObligationMissingActivity, FulfilledWithoutRouting, RoutingExceedsObligation]
    case Routing => [RoutingMissingObligation, RoutingMissingProject]
    case Livelihood => [LivelihoodMissingProject, LivelihoodMissingTargetGroup]
    case Outcome => [OutcomeMissingProject, VerifiedEcologyMissingEvidence, VerifiedEcologyMissingAudit,
                     ExperimentalProjectVerifiedClaim]
    case Actor => []
    case Project => []
    case Evidence => []
    case Audit => []
  }

  const CHECKED := [Activity, Obligation, Routing, Livelihood, Outcome]

  /** The issue is raised about a record of some checked table. */
  ghost predicate Justified(t: Tables, issue: Issue) {
    exists k, r :: JustifiedBy(t, issue, k, r)
  }

  ghost predicate JustifiedBy(t: Tables, issue: Issue, k: Kind, r: Record) {
    r in Values(TableOf(t, k)) && issue.code in CodesFor(k) && Raised(t, issue.code, r) && issue.subject == r.id
  }

  /** `invariant_issues`: exactly the issues some record of a checked table gives rise to. */
  method InvariantIssues(t: Tables) returns (issues: seq<Issue>)
    ensures forall issue :: issue in issues <==> Justified(t, issue)
    ensures forall issue :: issue in issues <==> exists r :: Flawed(t, issue.code, r) && r.id == issue.subject
  {
    issues := [];
    for i := 0 to |CHECKED|
      invariant forall issue :: issue in issues <==>
                  exists j, r :: 0 <= j < i && JustifiedBy(t, issue, CHECKED[j], r)
    {
      var more := TableIssues(t, CHECKED[i]);
      issues := issues + more;
    }
    forall issue
      ensures issue in issues <==> Justified(t, issue)
      ensures Justified(t, issue) <==> exists r :: Flawed(t, issue.code, r) && r.id == issue.subject
    {
      IssueMeans(t, issue);
      if Justified(t, issue) {
        var k, r :| JustifiedBy(t, issue, k, r);
        CheckedKinds(k);
        var j :| 0 <= j < |CHECKED| && CHECKED[j] == k;
      }
    }
  }

  lemma {:induction false} CheckedKinds(k: Kind)
    requires CodesFor(k) != []
    ensures exists j :: 0 <= j < |CHECKED| && CHECKED[j] == k
  {
    assert CHECKED[0].Activity? && CHECKED[1].Obligation? && CHECKED[2].Routing? && CHECKED[3].Livelihood?
        && CHECKED[4].Outcome?;
  }

  method TableIssues(t: Tables, k: Kind) returns (issues: seq<Issue>)
    ensures forall issue :: issue in issues <==> exists r :: JustifiedBy(t, issue, k, r)
  {
    issues := [];
    var records := Values(TableOf(t, k));
    for i := 0 to |records|
      invariant forall issue :: issue in issues <==> exists r :: r in records[..i] && JustifiedBy(t, issue, k, r)
    {
      var more := RecordIssues(t, k, records[i]);
      assert records[..i + 1] == records[..i] + [records[i]];
      forall issue
        ensures issue in issues + more <==> exists r :: r in records[..i + 1] && JustifiedBy(t, issue, k, r)
      {
        assert issue in more <==> JustifiedBy(t, issue, k, records[i]);
        if r :| r in records[..i] && JustifiedBy(t, issue, k, r) { assert r in records[..i + 1]; }
        assert records[i] in records[..i + 1];
      }
      issues := issues + more;
    }
    assert records[..|records|] == records;
  }

  method RecordIssues(t: Tables, k: Kind, r: Record) returns (issues: seq<Issue>)
    ensures forall issue :: issue in issues <==>
              issue.code in CodesFor(k) && Raised(t, issue.code, r) && issue.subject == r.id
  {
    issues := [];
    var codes := CodesFor(k);
    for i := 0 to |codes|
      invariant forall issue :: issue in issues <==>
                  issue.code in codes[..i] && Raised(t, issue.code, r) && issue.subject == r.id
    {
      if Raised(t, codes[i], r) {
        issues := issues + [Issue(codes[i], r.id)];
      }
      assert codes[..i + 1] == codes[..i] + [codes[i]];
    }
    assert codes[..|codes|] == codes;
  }

  // ---- what the issues say ------------------------------------------------------

  ghost predicate KeyAt(d: Table, i: int, id: string) { 0 <= i < |d| && d[i].0 == id }

  ghost predicate Known(d: Table, id: string) { exists i :: KeyAt(d, i, id) }

  ghost predicate FirstAt(d: Table, i: int, id: string) { KeyAt(d, i, id) && forall j :: 0 <= j < i ==> d[j].0 != id }

  /** An outcome of one of the four ecological kinds, verified, challenged or reversed, of a known project. */
  ghost predicate Ecology(t: Tables, r: Record) {
    && r.OutcomeRecord? && r.outcomeType in {Carbon, Biodiversity, Watershed, Methane}
    && r.outcomeStatus in {OutcomeStatus.Verified, Challenged, Reversed} && Known(t.projects, r.projectId)
  }

  ghost predicate Evidenced(t: Tables, id: string) {
    exists e :: e in Values(t.evidence) && e.EvidenceRecord? && e.subjectType.OfOutcome? && e.subjectId == id
  }

  ghost predicate Audited(t: Tables, id: string) {
    exists a :: a in Values(t.audits) && a.AuditRecord? && a.scope.ScopeOutcome? && a.scopeId == id
  }

  ghost predicate Experimental(t: Tables, id: string) {
    exists i :: FirstAt(t.projects, i, id) && t.projects[i].1.ProjectRecord? && t.projects[i].1.integrity.Experimental?
  }

  /** What is wrong with a record of its table, by code. */
  ghost predicate Flawed(t: Tables, code: Code, r: Record) {
    match code
    case ActivityMissingActor => r in Values(t.activities) && r.ActivityRecord? && !Known(t.actors, r.actorId)
    case ObligationMissingActivity =>
      r in Values(t.obligations) && r.ObligationRecord? && !Known(t.activities, r.activityId)
    case FulfilledWithoutRouting =>
      r in Values(t.obligations) && r.ObligationRecord? && r.obligationStatus.Fulfilled?
      && forall x :: x in Values(t.routings) && x.RoutingRecord? ==> x.obligationId != r.id
    case RoutingExceedsObligation =>
      r in Values(t.obligations) && r.ObligationRecord?
      && (exists x :: x in Values(t.routings) && RoutesTo(x, r.id, r.obligationUnit))
      && r.quantity + 0.000000001 < Routed(Values(t.routings), r.id, r.obligationUnit)
    case RoutingMissingObligation =>
      r in Values(t.routings) && r.RoutingRecord? && !Known(t.obligations, r.obligationId)
    case RoutingMissingProject => r in Values(t.routings) && r.RoutingRecord? && !Known(t.projects, r.projectId)
    case LivelihoodMissingProject =>
      r in Values(t.livelihoods) && r.LivelihoodRecord? && !Known(t.projects, r.projectId)
    case LivelihoodMissingTargetGroup =>
      r in Values(t.livelihoods) && r.LivelihoodRecord?
      && forall c :: c in r.targetGroup ==> c == ' ' || c == '\t' || c == '\n' || c == '\r'
    case OutcomeMissingProject => r in Values(t.outcomes) && r.OutcomeRecord? && !Known(t.projects, r.projectId)
    case VerifiedEcologyMissingEvidence => r in Values(t.outcomes) && Ecology(t, r) && !Evidenced(t, r.id)
    case VerifiedEcologyMissingAudit => r in Values(t.outcomes) && Ecology(t, r) && !Audited(t, r.id)
    case ExperimentalProjectVerifiedClaim =>
      r in Values(t.outcomes) && Ecology(t, r) && Experimental(t, r.projectId)
  }

  lemma {:induction false} KnownIff(d: Table, id: string)
    ensures Has(d, id) <==> Known(d, id)
    ensures Has(d, id) ==> FirstAt(d, Find(d, id), id)
    ensures forall i :: FirstAt(d, i, id) ==> Has(d, id) && d[i].1 == Get(d, id)
  {
    if Has(d, id) { assert KeyAt(d, Find(d, id), id); }
    forall i | FirstAt(d, i, id) ensures Has(d, id) && d[i].1 == Get(d, id) {
      assert d[i].0 == id && !(Find(d, id) < i);
    }
  }

  lemma {:induction false} BlankIff(s: string)
    ensures Blank(s) <==> forall c :: c in s ==> c == ' ' || c == '\t' || c == '\n' || c == '\r'
  {
    var white := " \t\n\r";
    assert white[0] == ' ' && white[1] == '\t' && white[2] == '\n' && white[3] == '\r';
    assert forall c :: c in white <==> c == ' ' || c == '\t' || c == '\n' || c == '\r';
    if Blank(s) {
      forall c | c in s ensures c == ' ' || c == '\t' || c == '\n' || c == '\r' {
        var i :| 0 <= i < |s| && s[i] == c;
      }
    }
    if forall c :: c in s ==> c in white {
      forall i | 0 <= i < |s| ensures s[i] in white { assert s[i] in s; }
    }
  }

  lemma {:induction false} RoutesIff(routings: seq<Record>, id: string, u: QuantityUnit)
    ensures Routes(routings, id) <==> exists x :: x in routings && x.RoutingRecord? && x.obligationId == id
    ensures RoutesInUnit(routings, id, u) <==> exists x :: x in routings && RoutesTo(x, id, u)
  {
    if x :| x in routings && x.RoutingRecord? && x.obligationId == id {
      var i :| 0 <= i < |routings| && routings[i] == x;
    }
    if x :| x in routings && RoutesTo(x, id, u) {
      var i :| 0 <= i < |routings| && routings[i] == x;
    }
  }

  lemma {:induction false} BackedIff(t: Tables, id: string)
    ensures HasEvidence(Values(t.evidence), id) <==> Evidenced(t, id)
    ensures HasAudit(Values(t.audits), id) <==> Audited(t, id)
  {
    var es, audits := Values(t.evidence), Values(t.audits);
    if e :| e in es && e.EvidenceRecord? && e.subjectType.OfOutcome? && e.subjectId == id {
      var i :| 0 <= i < |es| && es[i] == e;
    }
    if a :| a in audits && a.AuditRecord? && a.scope.ScopeOutcome? && a.scopeId == id {
      var i :| 0 <= i < |audits| && audits[i] == a;
    }
  }

  lemma {:induction false} EcologyIff(t: Tables, r: Record)
    ensures EcologicalClaim(t, r) <==> Ecology(t, r)
    ensures EcologicalClaim(t, r) ==>
              (Raised(t, ExperimentalProjectVerifiedClaim, r) <==> Experimental(t, r.projectId))
  {
    if r.OutcomeRecord? {
      KnownIff(t.projects, r.projectId);
    }
  }

  lemma {:induction false} OutcomeRaisedIff(t: Tables, code: Code, r: Record)
    requires code in CodesFor(Outcome)
    ensures r in Values(t.outcomes) && Raised(t, code, r) <==> Flawed(t, code, r)
  {
    if r.OutcomeRecord? {
      KnownIff(t.projects, r.projectId);
      BackedIff(t, r.id);
      EcologyIff(t, r);
    }
  }

  lemma {:induction false} ObligationRaisedIff(t: Tables, code: Code, r: Record)
    requires code in CodesFor(Obligation)
    ensures r in Values(t.obligations) && Raised(t, code, r) <==> Flawed(t, code, r)
  {
    if r.ObligationRecord? {
      KnownIff(t.activities, r.activityId);
      RoutesIff(Values(t.routings), r.id, r.obligationUnit);
    }
  }

  lemma {:induction false} RoutingRaisedIff(t: Tables, code: Code, r: Record)
    requires code in CodesFor(Routing)
    ensures r in Values(t.routings) && Raised(t, code, r) <==> Flawed(t, code, r)
  {
    if r.RoutingRecord? {
      KnownIff(t.obligations, r.obligationId);
      KnownIff(t.projects, r.projectId);
    }
  }

  lemma {:induction false} LivelihoodRaisedIff(t: Tables, code: Code, r: Record)
    requires code in CodesFor(Livelihood)
    ensures r in Values(t.livelihoods) && Raised(t, code, r) <==> Flawed(t, code, r)
  {
    if r.LivelihoodRecord? {
      KnownIff(t.projects, r.projectId);
      BlankIff(r.targetGroup);
    }
  }

  /** A record of the code's table raises the code exactly when it is so flawed. */
  lemma {:induction false} RaisedIff(t: Tables, k: Kind, code: Code, r: Record)
    requires code in CodesFor(k)
    ensures r in Values(TableOf(t, k)) && Raised(t, code, r) <==> Flawed(t, code, r)
  {
    match k
    case Activity => if r.ActivityRecord? { KnownIff(t.actors, r.actorId); }
    case Obligation => ObligationRaisedIff(t, code, r);
    case Routing => RoutingRaisedIff(t, code, r);
    case Livelihood => LivelihoodRaisedIff(t, code, r);
    case Outcome => OutcomeRaisedIff(t, code, r);
  }

  ghost function TableFor(code: Code): (k: Kind)
    ensures code in CodesFor(k)
    ensures forall j :: code in CodesFor(j) ==> j == k
  {
    match code
    case ActivityMissingActor => Activity
    case ObligationMissingActivity => Obligation
    case FulfilledWithoutRouting => Obligation
    case RoutingExceedsObligation => Obligation
    case RoutingMissingObligation => Routing
    case RoutingMissingProject => Routing
    case LivelihoodMissingProject => Livelihood
    case LivelihoodMissingTargetGroup => Livelihood
    case OutcomeMissingProject => Outcome
    case VerifiedEcologyMissingEvidence => Outcome
    case VerifiedEcologyMissingAudit => Outcome
    case ExperimentalProjectVerifiedClaim => Outcome
  }

  /** An issue names a code and a record that is flawed in that way. */
  lemma {:induction false} IssueMeans(t: Tables, issue: Issue)
    ensures Justified(t, issue) <==> exists r :: Flawed(t, issue.code, r) && r.id == issue.subject
  {
    var k := TableFor(issue.code);
    if Justified(t, issue) {
      var j, r :| JustifiedBy(t, issue, j, r);
      RaisedIff(t, k, issue.code, r);
    }
    if r :| Flawed(t, issue.code, r) && r.id == issue.subject {
      RaisedIff(t, k, issue.code, r);
      assert JustifiedBy(t, issue, k, r);
    }
  }

  predicate MissesReference(code: Code) {
    || code.ActivityMissingActor? || code.ObligationMissingActivity? || code.RoutingMissingObligation?
    || code.RoutingMissingProject? || code.LivelihoodMissingProject? || code.OutcomeMissingProject?
  }

  /** Every record's references lead to records that are held. */
  ghost predicate ReferencesClose(t: Tables) {
    && (forall r :: r in Values(t.activities) && r.ActivityRecord? ==> Known(t.actors, r.actorId))
    && (forall r :: r in Values(t.obligations) && r.ObligationRecord? ==> Known(t.activities, r.activityId))
    && (forall r :: r in Values(t.routings) && r.RoutingRecord? ==>
          Known(t.obligations, r.obligationId) && Known(t.projects, r.projectId))
    && (forall r :: r in Values(t.livelihoods) && r.LivelihoodRecord? ==> Known(t.projects, r.projectId))
    && (forall r :: r in Values(t.outcomes) && r.OutcomeRecord? ==> Known(t.projects, r.projectId))
  }

  /** Ecological claims have evidence and an audit, and no experimental project makes one. */
  ghost predicate EcologyIsBacked(t: Tables) {
    forall r :: r in Values(t.outcomes) && Ecology(t, r) ==>
      Evidenced(t, r.id) && Audited(t, r.id) && !Experimental(t, r.projectId)
  }

  predicate DoubtsEcology(code: Code) {
    || code.VerifiedEcologyMissingEvidence? || code.VerifiedEcologyMissingAudit?
    || code.ExperimentalProjectVerifiedClaim?
  }

  ghost predicate NoneRaised(t: Tables, among: Code -> bool) {
    forall issue :: Justified(t, issue) ==> !among(issue.code)
  }

  lemma {:induction false} NoneRaisedIff(t: Tables, among: Code -> bool)
    ensures NoneRaised(t, among) <==> forall code, r :: Flawed(t, code, r) ==> !among(code)
  {
    if NoneRaised(t, among) {
      forall code, r | Flawed(t, code, r) ensures !among(code) { IssueMeans(t, Issue(code, r.id)); }
    } else {
      var issue :| Justified(t, issue) && among(issue.code);
      IssueMeans(t, issue);
    }
  }

  lemma {:induction false} NoneFlawedCloses(t: Tables)
    requires forall r :: !Flawed(t, ActivityMissingActor, r)
    requires forall r :: !Flawed(t, ObligationMissingActivity, r)
    requires forall r :: !Flawed(t, RoutingMissingObligation, r)
    requires forall r :: !Flawed(t, RoutingMissingProject, r)
    requires forall r :: !Flawed(t, LivelihoodMissingProject, r)
    requires forall r :: !Flawed(t, OutcomeMissingProject, r)
    ensures ReferencesClose(t)
  {
    forall r | r in Values(t.activities) ensures r.ActivityRecord? ==> Known(t.actors, r.actorId) {
      assert !Flawed(t, ActivityMissingActor, r);
    }
    forall r | r in Values(t.obligations) ensures r.ObligationRecord? ==> Known(t.activities, r.activityId) {
      assert !Flawed(t, ObligationMissingActivity, r);
    }
    forall r | r in Values(t.routings)
      ensures r.RoutingRecord? ==> Known(t.obligations, r.obligationId) && Known(t.projects, r.projectId)
    {
      assert !Flawed(t, RoutingMissingObligation, r) && !Flawed(t, RoutingMissingProject, r);
    }
    forall r | r in Values(t.livelihoods) ensures r.LivelihoodRecord? ==> Known(t.projects, r.projectId) {
      assert !Flawed(t, LivelihoodMissingProject, r);
    }
    forall r | r in Values(t.outcomes) ensures r.OutcomeRecord? ==> Known(t.projects, r.projectId) {
      assert !Flawed(t, OutcomeMissingProject, r);
    }
  }

  /** No reference is reported missing exactly when all lead somewhere. */
  lemma {:induction false} ReferencesCloseIff(t: Tables)
    ensures NoneRaised(t, MissesReference) <==> ReferencesClose(t)
  {
    NoneRaisedIff(t, MissesReference);
    if NoneRaised(t, MissesReference) {
      forall r ensures !Flawed(t, ActivityMissingActor, r) && !Flawed(t, ObligationMissingActivity, r)
        ensures !Flawed(t, RoutingMissingObligation, r) && !Flawed(t, RoutingMissingProject, r)
        ensures !Flawed(t, LivelihoodMissingProject, r) && !Flawed(t, OutcomeMissingProject, r)
      {
        assert MissesReference(ActivityMissingActor) && MissesReference(ObligationMissingActivity);
        assert MissesReference(RoutingMissingObligation) && MissesReference(RoutingMissingProject);
        assert MissesReference(LivelihoodMissingProject) && MissesReference(OutcomeMissingProject);
      }
      NoneFlawedCloses(t);
    }
  }

  /** No ecological claim is doubted exactly when all are backed. */
  lemma {:induction false} EcologyIsBackedIff(t: Tables)
    ensures NoneRaised(t, DoubtsEcology) <==> EcologyIsBacked(t)
  {
    NoneRaisedIff(t, DoubtsEcology);
    if NoneRaised(t, DoubtsEcology) {
      forall r | r in Values(t.outcomes) && Ecology(t, r)
        ensures Evidenced(t, r.id) && Audited(t, r.id) && !Experimental(t, r.projectId)
      {
        assert !Flawed(t, VerifiedEcologyMissingEvidence, r) && !Flawed(t, VerifiedEcologyMissingAudit, r);
        assert !Flawed(t, ExperimentalProjectVerifiedClaim, r);
      }
    }
  }

  // ---- conservation -----------------------------------------------------------

  /** Routings in unit `u` whose obligation exists but is stated in another unit. */
  function CrossRouted(t: Table, routings: seq<Record>, u: QuantityUnit): real {
    if routings == [] then 0.0
    else
      var last := routings[|routings| - 1];
      CrossRouted(t, routings[..|routings| - 1], u)
      + if last.RoutingRecord? && last.routedUnit == u && !TargetsUnit(t, last, u) then last.routedValue else 0.0
  }

  predicate TargetsUnit(t: Table, r: Record, u: QuantityUnit) {
    r.RoutingRecord? && Has(t, r.obligationId) && InUnit(Get(t, r.obligationId), u)
  }

  /** The routed amounts of all obligations in a unit, added up obligation by obligation. */
  function RoutedOverall(obligations: seq<Record>, routings: seq<Record>, u: QuantityUnit): real {
    if obligations == [] then 0.0
    else
      var last := obligations[|obligations| - 1];
      RoutedOverall(obligations[..|obligations| - 1], routings, u)
      + if InUnit(last, u) then Routed(routings, last.id, u) else 0.0
  }

  ghost predicate KeyedById(t: Table) {
    Distinct(t) && forall i :: 0 <= i < |t| ==> t[i].0 == t[i].1.id
  }

  lemma {:induction false} NothingRouted(obligations: seq<Record>, u: QuantityUnit)
    ensures RoutedOverall(obligations, [], u) == 0.0
  {
    if obligations != [] {
      NothingRouted(obligations[..|obligations| - 1], u);
    }
  }

  /** One routing more counts for exactly the one obligation it targets. */
  lemma {:induction false} OneRoutingMore(t: Table, n: nat, routings: seq<Record>, r: Record, u: QuantityUnit)
    requires KeyedById(t) && n <= |t|
    requires r.RoutingRecord?
    ensures RoutedOverall(Values(t)[..n], routings + [r], u) == RoutedOverall(Values(t)[..n], routings, u)
            + if r.routedUnit == u && (exists i :: 0 <= i < n && t[i].0 == r.obligationId && InUnit(t[i].1, u))
              then r.routedValue else 0.0
  {
    if n > 0 {
      OneRoutingMore(t, n - 1, routings, r, u);
      assert Values(t)[..n][..n - 1] == Values(t)[..n - 1];
      assert (routings + [r])[..|routings|] == routings;
      var o := t[n - 1].1;
      if InUnit(o, u) && RoutesTo(r, o.id, u) {
        assert t[n - 1].0 == r.obligationId;
        forall i | 0 <= i < n - 1 ensures t[i].0 != r.obligationId {}
      }
    }
  }

  /** Adding up by obligation and adding up by routing is the same, but for the cross-unit routings. */
  lemma {:induction false} DoubleSum(t: Table, routings: seq<Record>, u: QuantityUnit)
    requires KeyedById(t)
    requires forall i :: 0 <= i < |routings| ==> routings[i].RoutingRecord?
    ensures TotalRouted(routings, u) == RoutedOverall(Values(t), routings, u) + CrossRouted(t, routings, u)
  {
    if routings == [] {
      NothingRouted(Values(t), u);
    } else {
      var init, r := routings[..|routings| - 1], routings[|routings| - 1];
      DoubleSum(t, init, u);
      assert init + [r] == routings && Values(t)[..|t|] == Values(t);
      OneRoutingMore(t, |t|, init, r, u);
      TargetsUnitIff(t, r, u);
    }
  }

  lemma {:induction false} TargetsUnitIff(t: Table, r: Record, u: QuantityUnit)
    requires KeyedById(t) && r.RoutingRecord?
    ensures TargetsUnit(t, r, u) <==> exists i :: 0 <= i < |t| && t[i].0 == r.obligationId && InUnit(t[i].1, u)
  {
    if i :| 0 <= i < |t| && t[i].0 == r.obligationId && InUnit(t[i].1, u) {
      FindAt(t, i);
    }
  }

  lemma {:induction false} UnroutedIsZero(routings: seq<Record>, id: string, u: QuantityUnit)
    requires !RoutesInUnit(routings, id, u)
    ensures Routed(routings, id, u) == 0.0
  {
    if routings != [] {
      var n := |routings| - 1;
      assert !RoutesTo(routings[n], id, u);
      forall i | 0 <= i < n ensures !RoutesTo(routings[..n][i], id, u) { assert !RoutesTo(routings[i], id, u); }
      UnroutedIsZero(routings[..n], id, u);
    }
  }

  lemma {:induction false} NoExcess(obligations: seq<Record>, routings: seq<Record>, u: QuantityUnit)
    requires forall i :: 0 <= i < |obligations| && InUnit(obligations[i], u) ==>
               Routed(routings, obligations[i].id, u) <= obligations[i].quantity + TOLERANCE
    ensures RoutedOverall(obligations, routings, u)
              <= TotalObligation(obligations, u) + TOLERANCE * CountInUnit(obligations, u) as real
  {
    if obligations != [] {
      NoExcess(obligations[..|obligations| - 1], routings, u);
    }
  }

  /** Routing and obligation tables as recording leaves them: keyed, of one kind, quantities positive. */
  ghost predicate ValidTables(t: Tables) {
    && KeyedById(t.obligations)
    && (forall i :: 0 <= i < |t.routings| ==> t.routings[i].1.RoutingRecord?)
    && (forall i :: 0 <= i < |t.obligations| ==>
        t.obligations[i].1.ObligationRecord? && 0.0 < t.obligations[i].1.quantity)
  }

  ghost predicate Logs(log: seq<LedgerEntry>, recs: seq<Recording>) {
    |log| == |recs| && forall i :: 0 <= i < |log| ==> log[i].payload.record == recs[i].record
  }

  lemma {:induction false} LogsOneMore(log: seq<LedgerEntry>, e: LedgerEntry, recs: seq<Recording>)
    requires recs != [] && Logs(log, recs[..|recs| - 1]) && e.payload.record == recs[|recs| - 1].record
    ensures Logs(log + [e], recs)
  {
    forall i | 0 <= i < |recs| ensures (log + [e])[i].payload.record == recs[i].record {
      if i < |log| { assert log[i].payload.record == recs[..|recs| - 1][i].record; }
    }
  }

  lemma {:induction false} RunLogsItsRecords(h: Digest, digest: Payload -> string, recs: seq<Recording>)
    ensures Logs(Run(h, digest, State([], NO_RECORDS), recs).log, recs)
  {
    if recs != [] {
      RunLogsItsRecords(h, digest, recs[..|recs| - 1]);
      var before := Run(h, digest, State([], NO_RECORDS), recs[..|recs| - 1]);
      LogsOneMore(before.log, NewEntry(h, digest, before.log, recs[|recs| - 1]), recs);
    }
  }

  /** Every ledger recorded from obligations of positive quantity, as the original insists, has valid tables. */
  lemma {:induction false} RunTablesAreValid(h: Digest, digest: Payload -> string, recs: seq<Recording>)
    requires forall i :: 0 <= i < |recs| && recs[i].record.ObligationRecord? ==> 0.0 < recs[i].record.quantity
    ensures ValidTables(Run(h, digest, State([], NO_RECORDS), recs).tables)
  {
    var s := Run(h, digest, State([], NO_RECORDS), recs);
    EveryRunIsWellKept(h, digest, recs);
    RunLogsItsRecords(h, digest, recs);
    assert forall i :: 0 <= i < |s.log| ==> WellFormed(digest, s.log[i], i);
    ReplayTablesAreValid(s.log);
  }

  lemma {:induction false} ReplayTablesAreValid(log: seq<LedgerEntry>)
    requires forall i :: 0 <= i < |log| ==> log[i].kind == KindOf(log[i].payload.record)
    requires forall i :: 0 <= i < |log| && log[i].payload.record.ObligationRecord? ==>
               0.0 < log[i].payload.record.quantity
    ensures ValidTables(Replay(NO_RECORDS, log))
  {
    var t := Replay(NO_RECORDS, log);
    ReplayIsWellFiled(log, Obligation);
    ReplayIsWellFiled(log, Routing);
    forall i | 0 <= i < |t.routings| ensures t.routings[i].1.RoutingRecord? {
      assert KindOf(TableOf(t, Routing)[i].1) == Routing;
    }
    forall i | 0 <= i < |t.obligations|
      ensures t.obligations[i].1.ObligationRecord? && 0.0 < t.obligations[i].1.quantity
    {
      assert KindOf(TableOf(t, Obligation)[i].1) == Obligation;
      FindAt(t.obligations, i);
      var j := HeldWasWritten(log, Obligation, t.obligations[i].0);
      LastWriterWins(log, Obligation, t.obligations[i].0, j);
    }
  }

  /**
   If no routing total exceeds its obligation, then in every unit the routed total
   is covered by the obligations of that unit, up to the tolerance and to what is
   routed across units. No condition on the routings is needed.
   */
  lemma {:induction false} Conservation(t: Tables, u: QuantityUnit)
    requires ValidTables(t)
    requires forall issue :: Justified(t, issue) ==> !issue.code.RoutingExceedsObligation?
    ensures TotalRouted(Values(t.routings), u) <=
            TotalObligation(Values(t.obligations), u) + TOLERANCE * CountInUnit(Values(t.obligations), u) as real
            + CrossRouted(t.obligations, Values(t.routings), u)
  {
    var os, rs := Values(t.obligations), Values(t.routings);
    forall i | 0 <= i < |os| && InUnit(os[i], u) ensures Routed(rs, os[i].id, u) <= os[i].quantity + TOLERANCE {
      assert os[i] in Values(TableOf(t, Obligation));
      if Raised(t, RoutingExceedsObligation, os[i]) {
        assert JustifiedBy(t, Issue(RoutingExceedsObligation, os[i].id), Obligation, os[i]);
      }
      if !RoutesInUnit(rs, os[i].id, u) { UnroutedIsZero(rs, os[i].id, u); }
    }
    NoExcess(os, rs, u);
    DoubleSum(t.obligations, rs, u);
  }

  /** When every routing in the unit targets an obligation in the unit, nothing crosses. */
  lemma {:induction false} NothingCrosses(t: Table, routings: seq<Record>, u: QuantityUnit)
    requires forall i :: 0 <= i < |routings| && routings[i].RoutingRecord? && routings[i].routedUnit == u ==>
               TargetsUnit(t, routings[i], u)
    ensures CrossRouted(t, routings, u) == 0.0
  {
    if routings != [] {
      NothingCrosses(t, routings[..|routings| - 1], u);
    }
  }

  lemma {:induction false} ConservationWithinUnit(t: Tables, u: QuantityUnit)
    requires ValidTables(t)
    requires forall issue :: Justified(t, issue) ==>
               !issue.code.RoutingExceedsObligation? && !issue.code.RoutingMissingObligation?
    requires forall i ::
               0 <= i < |t.routings| && t.routings[i].1.routedUnit == u &&
               Has(t.obligations, t.routings[i].1.obligationId) ==>
               Get(t.obligations, t.routings[i].1.obligationId).obligationUnit == u
    ensures TotalRouted(Values(t.routings), u) <=
            TotalObligation(Values(t.obligations), u) + TOLERANCE * CountInUnit(Values(t.obligations), u) as real
  {
    var rs := Values(t.routings);
    forall i | 0 <= i < |rs| && rs[i].routedUnit == u ensures TargetsUnit(t.obligations, rs[i], u) {
      assert rs[i] in Values(TableOf(t, Routing));
      if !Has(t.obligations, rs[i].obligationId) {
        assert JustifiedBy(t, Issue(RoutingMissingObligation, rs[i].id), Routing, rs[i]);
      }
      assert t.obligations[Find(t.obligations, rs[i].obligationId)].1.ObligationRecord?;
    }
    NothingCrosses(t.obligations, rs, u);
    Conservation(t, u);
  }

  /**
   The condition on units cannot be dropped: dollars routed to an obligation
   stated in points raise neither issue, and exceed the dollars obliged, which are none.
   */
  lemma {:induction false} CrossUnitRoutingIsNotCounted(amount: real)
    requires 0.0 < amount
    ensures var t := CrossUnitTables(amount);
            && ValidTables(t)
            && (forall issue :: Justified(t, issue) ==>
                !issue.code.RoutingExceedsObligation? && !issue.code.RoutingMissingObligation?)
            && TotalRouted(Values(t.routings), Usd) == amount && TotalObligation(Values(t.obligations), Usd) == 0.0
            && CountInUnit(Values(t.obligations), Usd) == 0
  {
    var t := CrossUnitTables(amount);
    var o, r := t.obligations[0].1, t.routings[0].1;
    assert Values(t.obligations) == [o] && Values(t.routings) == [r];
    assert [o][..0] == [] && [r][..0] == [];
    CrossUnitIsClean(amount);
  }

  lemma {:induction false} CrossUnitIsClean(amount: real)
    ensures forall issue :: Justified(CrossUnitTables(amount), issue) ==>
              !issue.code.RoutingExceedsObligation? && !issue.code.RoutingMissingObligation?
  {
    var t := CrossUnitTables(amount);
    var o, r := t.obligations[0].1, t.routings[0].1;
    assert Values(t.obligations) == [o] && Values(t.routings) == [r] && [r][..0] == [];
    assert t.obligations[0].0 == "o" && Has(t.obligations, "o") && !RoutesTo(r, "o", Points);
    forall issue | Justified(t, issue)
      ensures !issue.code.RoutingExceedsObligation? && !issue.code.RoutingMissingObligation?
    {
      var k, x :| JustifiedBy(t, issue, k, x);
      assert (k == Obligation ==> x == o) && (k == Routing ==> x == r);
    }
  }

  function CrossUnitTables(amount: real): Tables {
    NO_RECORDS.(obligations := [("o", ObligationRecord("o", "a", 1.0, Points, Active, ""))],
                routings := [("r", RoutingRecord("r", "o", "p", amount, Usd, ""))])
  }
}
