/**
 The append-only, hash-chained reciprocity ledger of
 `dharma_swarm/ai_reciprocity_ledger.py`. The digest of an entry and the digest
 of a payload are parameters; no property of them is assumed unless stated.
 */
module ReciprocityLedgers {
  import opened Options
  import opened OrderedDict

  datatype QuantityUnit = Usd | Tco2e | Points | Mixed

  datatype ObligationStatus = Proposed | Active | Fulfilled | Disputed | Retired

  datatype IntegrityClass = Experimental | Emerging | HighIntegrity

  datatype OutcomeType = Carbon | Biodiversity | Watershed | Methane | Income | Training | Ownership | OtherOutcome

  datatype OutcomeStatus = Estimated | Measured | Verified | Challenged | Reversed

  datatype SubjectType = OfActivity | OfProject | OfOutcome | OfLivelihood | OfAudit

  datatype AuditScope = ScopeActivity | ScopeObligation | ScopeProject | ScopeOutcome | ScopeLedgerSlice

  /** The nine record types; `rest` stands for the fields nothing here reads. */
  datatype Record =
    | AIActor(id: string, rest: string)
    | ActivityRecord(id: string, actorId: string, rest: string)
    | ObligationRecord(id: string, activityId: string, quantity: real, obligationUnit: QuantityUnit,
                       obligationStatus: ObligationStatus, rest: string)
    | ProjectRecord(id: string, integrity: IntegrityClass, rest: string)
    | RoutingRecord(id: string, obligationId: string, projectId: string, routedValue: real, routedUnit: QuantityUnit,
                    rest: string)
    | LivelihoodRecord(id: string, projectId: string, targetGroup: string, rest: string)
    | EvidenceRecord(id: string, subjectType: SubjectType, subjectId: string, rest: string)
    | OutcomeRecord(id: string, projectId: string, outcomeType: OutcomeType, outcomeStatus: OutcomeStatus, rest: string)
    | AuditRecord(id: string, scope: AuditScope, scopeId: string, rest: string)

  /** The entry types, one per table. */
  datatype Kind = Actor | Activity | Obligation | Project | Routing | Livelihood | Evidence | Outcome | Audit

  function KindOf(r: Record): Kind {
    match r
    case AIActor(_, _) => Actor
    case ActivityRecord(_, _, _) => Activity
    case ObligationRecord(_, _, _, _, _, _) => Obligation
    case ProjectRecord(_, _, _) => Project
    case RoutingRecord(_, _, _, _, _, _) => Routing
    case LivelihoodRecord(_, _, _, _) => Livelihood
    case EvidenceRecord(_, _, _, _) => Evidence
    case OutcomeRecord(_, _, _, _, _) => Outcome
    case AuditRecord(_, _, _, _) => Audit
  }

  /** A record as JSON, with the correlation ids that were in force. */
  datatype Payload = Payload(record: Record, traceId: Option<string>, cellId: Option<string>)

  datatype LedgerEntry = LedgerEntry(
    id: string, sequence: int, kind: Kind, payload: Payload, payloadHash: string, prevHash: string, timestamp: int)

  /** What `compute_hash` covers: everything but the entry's id and the payload itself. */
  datatype Hashed = Hashed(sequence: int, kind: Kind, payloadHash: string, prevHash: string, timestamp: int)

  function HashedOf(e: LedgerEntry): Hashed {
    Hashed(e.sequence, e.kind, e.payloadHash, e.prevHash, e.timestamp)
  }

  type Digest = Hashed -> string

  type Table = Dict<string, Record>

  datatype Tables = Tables(
    actors: Table, activities: Table, obligations: Table, projects: Table, routings: Table,
    livelihoods: Table, evidence: Table, outcomes: Table, audits: Table)

  const NO_RECORDS := Tables([], [], [], [], [], [], [], [], [])

  function TableOf(t: Tables, k: Kind): Table {
    match k
    case Actor => t.actors
    case Activity => t.activities
    case Obligation => t.obligations
    case Project => t.projects
    case Routing => t.routings
    case Livelihood => t.livelihoods
    case Evidence => t.evidence
    case Outcome => t.outcomes
    case Audit => t.audits
  }

  /** Files a record in the table of kind `k` under its own id. */
  function Filed(t: Tables, k: Kind, r: Record): Tables {
    match k
    case Actor => t.(actors := Put(t.actors, r.id, r))
    case Activity => t.(activities := Put(t.activities, r.id, r))
    case Obligation => t.(obligations := Put(t.obligations, r.id, r))
    case Project => t.(projects := Put(t.projects, r.id, r))
    case Routing => t.(routings := Put(t.routings, r.id, r))
    case Livelihood => t.(livelihoods := Put(t.livelihoods, r.id, r))
    case Evidence => t.(evidence := Put(t.evidence, r.id, r))
    case Outcome => t.(outcomes := Put(t.outcomes, r.id, r))
    case Audit => t.(audits := Put(t.audits, r.id, r))
  }

  /** `_rebuild_from_entry` over a log, starting from some tables. */
  function Replay(t: Tables, log: seq<LedgerEntry>): Tables {
    if log == [] then t
    else
      var last := log[|log| - 1];
      Filed(Replay(t, log[..|log| - 1]), last.kind, last.payload.record)
  }

  function ChainHead(h: Digest, log: seq<LedgerEntry>): string {
    if log == [] then "" else h(HashedOf(log[|log| - 1]))
  }

  /** Entry `i` names the digest of its predecessor. */
  predicate LinksBack(h: Digest, log: seq<LedgerEntry>, i: nat)
    requires i < |log|
  {
    log[i].prevHash == if i == 0 then "" else h(HashedOf(log[i - 1]))
  }

  /** `verify_chain_integrity`. */
  predicate Verifies(h: Digest, log: seq<LedgerEntry>) {
    forall i {:trigger LinksBack(h, log, i)} :: 0 <= i < |log| ==> LinksBack(h, log, i)
  }

  datatype State = State(log: seq<LedgerEntry>, tables: Tables)

  /** One `record_*` call, with everything it takes from its surroundings. */
  datatype Recording = Recording(record: Record, traceId: Option<string>, cellId: Option<string>, entryId: string,
                                 now: int)

  function NewEntry(h: Digest, digest: Payload -> string, log: seq<LedgerEntry>, rec: Recording): LedgerEntry {
    var payload := Payload(rec.record, rec.traceId, rec.cellId);
    LedgerEntry(rec.entryId, |log|, KindOf(rec.record), payload, digest(payload), ChainHead(h, log), rec.now)
  }

  /** The kind that files the record, by its shape. */
  ghost predicate OfKind(r: Record, k: Kind) {
    match k
    case Actor => r.AIActor?
    case Activity => r.ActivityRecord?
    case Obligation => r.ObligationRecord?
    case Project => r.ProjectRecord?
    case Routing => r.RoutingRecord?
    case Livelihood => r.LivelihoodRecord?
    case Evidence => r.EvidenceRecord?
    case Outcome => r.OutcomeRecord?
    case Audit => r.AuditRecord?
  }

  /** The entry a record makes: next in number, of its kind, digested, and naming the one before. */
  ghost predicate IsRecorded(h: Digest, digest: Payload -> string, log: seq<LedgerEntry>, rec: Recording,
                             e: LedgerEntry)
  {
    && e.id == rec.entryId && e.sequence == |log| && OfKind(rec.record, e.kind) && e.timestamp == rec.now
    && e.payload.record == rec.record && e.payload.traceId == rec.traceId && e.payload.cellId == rec.cellId
    && e.payloadHash == digest(e.payload)
    && (log == [] ==> e.prevHash == "")
    && (log != [] ==>
          var p := log[|log| - 1];
          e.prevHash == h(Hashed(p.sequence, p.kind, p.payloadHash, p.prevHash, p.timestamp)))
  }

  function Recorded(h: Digest, digest: Payload -> string, s: State, rec: Recording): State {
    State(s.log + [NewEntry(h, digest, s.log, rec)], Filed(s.tables, KindOf(rec.record), rec.record))
  }

  function Run(h: Digest, digest: Payload -> string, s: State, recs: seq<Recording>): State {
    if recs == [] then s else Recorded(h, digest, Run(h, digest, s, recs[..|recs| - 1]), recs[|recs| - 1])
  }

  /** `load`: the file's entries go behind those already there. */
  function Loaded(s: State, file: seq<LedgerEntry>): State {
    State(s.log + file, Replay(s.tables, file))
  }

  // ---- the chain ------------------------------------------------------------

  ghost predicate WellFormed(digest: Payload -> string, e: LedgerEntry, i: nat) {
    e.sequence == i && e.payloadHash == digest(e.payload) && e.kind == KindOf(e.payload.record)
  }

  /** What recording keeps: chained, numbered, digested, filed. */
  ghost predicate WellKept(h: Digest, digest: Payload -> string, s: State) {
    && Verifies(h, s.log)
    && (forall i :: 0 <= i < |s.log| ==> WellFormed(digest, s.log[i], i))
    && s.tables == Replay(NO_RECORDS, s.log)
  }

  lemma {:induction false} RecordingKeepsBooks(h: Digest, digest: Payload -> string, s: State, rec: Recording)
    requires WellKept(h, digest, s)
    ensures WellKept(h, digest, Recorded(h, digest, s, rec))
  {
    var log' := Recorded(h, digest, s, rec).log;
    forall i | 0 <= i < |log'| ensures LinksBack(h, log', i) {
      assert i < |s.log| ==> LinksBack(h, s.log, i);
    }
    forall i | 0 <= i < |log'| ensures WellFormed(digest, log'[i], i) {
      assert i < |s.log| ==> WellFormed(digest, s.log[i], i);
    }
    assert log'[..|s.log|] == s.log;
  }

  /**
   Every run of `record_*` verifies, numbers its entries from zero, and keeps the
   tables equal to the replay of the log.
   */
  lemma {:induction false} EveryRunIsWellKept(h: Digest, digest: Payload -> string, recs: seq<Recording>)
    ensures WellKept(h, digest, Run(h, digest, State([], NO_RECORDS), recs))
  {
    if recs != [] {
      EveryRunIsWellKept(h, digest, recs[..|recs| - 1]);
      RecordingKeepsBooks(h, digest, Run(h, digest, State([], NO_RECORDS), recs[..|recs| - 1]), recs[|recs| - 1]);
    }
  }

  /** The logs agree on everything the digest covers. */
  ghost predicate Agree(a: seq<LedgerEntry>, b: seq<LedgerEntry>) {
    |a| == |b| && forall i :: 0 <= i < |a| ==> AgreeOn(a[i], b[i])
  }

  /** Sequence number, kind, payload digest, predecessor and timestamp are the same. */
  ghost predicate AgreeOn(x: LedgerEntry, y: LedgerEntry) {
    && x.sequence == y.sequence && x.kind == y.kind && x.payloadHash == y.payloadHash && x.prevHash == y.prevHash
    && x.timestamp == y.timestamp
  }

  /** Two entries, one of each log, that the digest fails to tell apart. */
  ghost predicate Collision(h: Digest, a: seq<LedgerEntry>, b: seq<LedgerEntry>) {
    exists i, j :: 0 <= i < |a| && 0 <= j < |b| && HashedOf(a[i]) != HashedOf(b[j])
        && h(HashedOf(a[i])) == h(HashedOf(b[j]))
  }

  ghost predicate EmptyDigest(h: Digest, log: seq<LedgerEntry>) {
    exists i :: 0 <= i < |log| && h(HashedOf(log[i])) == ""
  }

  /**
   Tamper evidence, for any digest: two verifying logs with the same head agree
   entry by entry, unless they exhibit a collision or an empty digest.
   */
  lemma {:induction false} SameHeadSameLog(h: Digest, a: seq<LedgerEntry>, b: seq<LedgerEntry>)
    requires Verifies(h, a) && Verifies(h, b) && ChainHead(h, a) == ChainHead(h, b)
    ensures Agree(a, b) || Defective(h, a, b)
  {
    if a == [] || b == [] {
      OneEmpty(h, a, b);
    } else if HashedOf(a[|a| - 1]) != HashedOf(b[|b| - 1]) {
      assert Collision(h, a, b);
    } else {
      var a', b' := a[..|a| - 1], b[..|b| - 1];
      InitVerifies(h, a);
      InitVerifies(h, b);
      SameHeadSameLog(h, a', b');
      LiftDefects(h, a', b', a[|a| - 1], b[|b| - 1]);
      assert a == a' + [a[|a| - 1]] && b == b' + [b[|b| - 1]];
    }
  }

  /** The digest lets the two logs down. */
  ghost predicate Defective(h: Digest, a: seq<LedgerEntry>, b: seq<LedgerEntry>) {
    Collision(h, a, b) || EmptyDigest(h, a) || EmptyDigest(h, b)
  }

  lemma {:induction false} OneEmpty(h: Digest, a: seq<LedgerEntry>, b: seq<LedgerEntry>)
    requires a == [] || b == []
    requires ChainHead(h, a) == ChainHead(h, b)
    ensures Agree(a, b) || Defective(h, a, b)
  {
    if a != [] {
      assert h(HashedOf(a[|a| - 1])) == "";
    }
    if b != [] {
      assert h(HashedOf(b[|b| - 1])) == "";
    }
  }

  lemma {:induction false} InitVerifies(h: Digest, log: seq<LedgerEntry>)
    requires log != [] && Verifies(h, log)
    ensures Verifies(h, log[..|log| - 1]) && log[|log| - 1].prevHash == ChainHead(h, log[..|log| - 1])
  {
    var init := log[..|log| - 1];
    forall i | 0 <= i < |init| ensures LinksBack(h, init, i) {
      assert LinksBack(h, log, i);
    }
    assert LinksBack(h, log, |log| - 1);
  }

  lemma {:induction false} LiftDefects(h: Digest, a: seq<LedgerEntry>, b: seq<LedgerEntry>, x: LedgerEntry,
                                       y: LedgerEntry)
    ensures Defective(h, a, b) ==> Defective(h, a + [x], b + [y])
  {
    if Collision(h, a, b) {
      var i, j :| 0 <= i < |a| && 0 <= j < |b| && HashedOf(a[i]) != HashedOf(b[j])
          && h(HashedOf(a[i])) == h(HashedOf(b[j]));
      assert (a + [x])[i] == a[i] && (b + [y])[j] == b[j];
    }
    if EmptyDigest(h, a) {
      var i :| 0 <= i < |a| && h(HashedOf(a[i])) == "";
      assert (a + [x])[i] == a[i];
    }
    if EmptyDigest(h, b) {
      var i :| 0 <= i < |b| && h(HashedOf(b[i])) == "";
      assert (b + [y])[i] == b[i];
    }
  }

  ghost predicate SamePayloads(a: seq<LedgerEntry>, b: seq<LedgerEntry>) {
    |a| == |b| && forall i :: 0 <= i < |a| ==> a[i].payload == b[i].payload
  }

  /** Different payloads at the same place of the two logs that the payload digest fails to tell apart. */
  ghost predicate PayloadCollision(digest: Payload -> string, a: seq<LedgerEntry>, b: seq<LedgerEntry>) {
    exists i :: 0 <= i < |a| && i < |b| && a[i].payload != b[i].payload && digest(a[i].payload) == digest(b[i].payload)
  }

  /**
   For any digests: two recorded ledgers with the same head hold the same payloads and
   the same tables, unless they exhibit a collision or an empty digest.
   */
  lemma {:induction false} SameHeadSamePayloads(h: Digest, digest: Payload -> string, a: State, b: State)
    requires WellKept(h, digest, a) && WellKept(h, digest, b) && ChainHead(h, a.log) == ChainHead(h, b.log)
    ensures (SamePayloads(a.log, b.log) && a.tables == b.tables)
            || Defective(h, a.log, b.log) || PayloadCollision(digest, a.log, b.log)
  {
    SameHeadSameLog(h, a.log, b.log);
    if Agree(a.log, b.log) && !PayloadCollision(digest, a.log, b.log) {
      forall i | 0 <= i < |a.log| ensures a.log[i].payload == b.log[i].payload {
        assert AgreeOn(a.log[i], b.log[i]);
        assert WellFormed(digest, a.log[i], i) && WellFormed(digest, b.log[i], i);
        assert digest(a.log[i].payload) == digest(b.log[i].payload);
      }
      SamePayloadsReplayAlike(a.log, b.log);
    }
  }

  lemma {:induction false} SamePayloadsReplayAlike(a: seq<LedgerEntry>, b: seq<LedgerEntry>)
    requires |a| == |b| && forall i :: 0 <= i < |a| ==> a[i].payload == b[i].payload && a[i].kind == b[i].kind
    ensures Replay(NO_RECORDS, a) == Replay(NO_RECORDS, b)
  {
    if a != [] {
      SamePayloadsReplayAlike(a[..|a| - 1], b[..|b| - 1]);
    }
  }

  /** The chain binds payload digests, not payloads: verification cannot see a payload changed behind its digest. */
  lemma {:induction false} PayloadsAreNotVerified(h: Digest, log: seq<LedgerEntry>, i: nat, p: Payload)
    requires i < |log|
    ensures var log' := log[i := log[i].(payload := p)];
            Verifies(h, log') == Verifies(h, log) && ChainHead(h, log') == ChainHead(h, log)
  {
    var log' := log[i := log[i].(payload := p)];
    forall j | 0 <= j < |log| ensures LinksBack(h, log', j) == LinksBack(h, log, j) {
      assert HashedOf(log'[j]) == HashedOf(log[j]) && (j > 0 ==> HashedOf(log'[j - 1]) == HashedOf(log[j - 1]));
    }
    if Verifies(h, log) { assert Verifies(h, log'); }
    if Verifies(h, log') { forall j | 0 <= j < |log| ensures LinksBack(h, log, j) { assert LinksBack(h, log', j); } }
  }

  // ---- save and load --------------------------------------------------------

  lemma {:induction false} ReplayConcat(t: Tables, a: seq<LedgerEntry>, b: seq<LedgerEntry>)
    ensures Replay(t, a + b) == Replay(Replay(t, a), b)
  {
    if b == [] {
      assert a + b == a;
    } else {
      var init := b[..|b| - 1];
      ReplayConcat(t, a, init);
      assert (a + b)[..|a + b| - 1] == a + init;
    }
  }

  /** Saving and loading into a fresh ledger restores the log, the tables and the verdict on the chain. */
  lemma {:induction false} SaveThenLoad(h: Digest, digest: Payload -> string, recs: seq<Recording>)
    ensures var s := Run(h, digest, State([], NO_RECORDS), recs);
            Loaded(State([], NO_RECORDS), s.log) == s && WellKept(h, digest, Loaded(State([], NO_RECORDS), s.log))
  {
    EveryRunIsWellKept(h, digest, recs);
    var s := Run(h, digest, State([], NO_RECORDS), recs);
    assert [] + s.log == s.log;
  }

  /**
   Loading a verifying file into a ledger that verifies leaves a verifying chain
   exactly when one of the two was empty; the tables follow the log regardless.
   */
  lemma {:induction false} LoadKeepsChainIff(h: Digest, s: State, file: seq<LedgerEntry>)
    requires Verifies(h, s.log) && Verifies(h, file) && !EmptyDigest(h, s.log)
    requires s.tables == Replay(NO_RECORDS, s.log)
    ensures Verifies(h, Loaded(s, file).log) <==> s.log == [] || file == []
    ensures Loaded(s, file).tables == Replay(NO_RECORDS, Loaded(s, file).log)
  {
    ReplayConcat(NO_RECORDS, s.log, file);
    var log := s.log + file;
    if s.log == [] {
      assert log == file;
    } else if file == [] {
      assert log == s.log;
    } else {
      var n := |s.log|;
      assert LinksBack(h, file, 0) && h(HashedOf(s.log[n - 1])) != "";
      assert !LinksBack(h, log, n);
    }
  }

  lemma {:induction false} LoadOneMore(s: State, file: seq<LedgerEntry>, i: nat)
    requires i < |file|
    ensures var before := Loaded(s, file[..i]);
            Loaded(s, file[..i + 1])
            == State(before.log + [file[i]], Filed(before.tables, file[i].kind, file[i].payload.record))
  {
    assert file[..i + 1] == file[..i] + [file[i]] && file[..i + 1][..i] == file[..i];
  }

  // ---- the tables -----------------------------------------------------------

  lemma {:induction false} FiledLaws(t: Tables, k: Kind, r: Record, j: Kind)
    ensures TableOf(Filed(t, k, r), j) == if j == k then Put(TableOf(t, j), r.id, r) else TableOf(t, j)
  {
  }

  /** Entry `i` is the last one filed in table `k` under `id`. */
  ghost predicate LastWriter(log: seq<LedgerEntry>, k: Kind, id: string, i: int) {
    && 0 <= i < |log| && Writes(log[i], k, id)
    && forall j :: i < j < |log| ==> !Writes(log[j], k, id)
  }

  predicate Writes(e: LedgerEntry, k: Kind, id: string) { e.kind == k && e.payload.record.id == id }

  lemma {:induction false} TablesAreDictionaries(log: seq<LedgerEntry>, k: Kind)
    ensures Distinct(TableOf(Replay(NO_RECORDS, log), k))
  {
    if log != [] {
      var e, t := log[|log| - 1], Replay(NO_RECORDS, log[..|log| - 1]);
      TablesAreDictionaries(log[..|log| - 1], k);
      FiledLaws(t, e.kind, e.payload.record, k);
      PutLaws(TableOf(t, k), e.payload.record.id, e.payload.record);
    }
  }

  /** A table holds a record only if some entry wrote it. */
  lemma {:induction false} HeldWasWritten(log: seq<LedgerEntry>, k: Kind, id: string) returns (i: nat)
    requires Has(TableOf(Replay(NO_RECORDS, log), k), id)
    ensures LastWriter(log, k, id, i)
  {
    var n := |log| - 1;
    var e, t := log[n], Replay(NO_RECORDS, log[..n]);
    TablesAreDictionaries(log[..n], k);
    FiledLaws(t, e.kind, e.payload.record, k);
    PutLaws(TableOf(t, k), e.payload.record.id, e.payload.record);
    if Writes(e, k, id) {
      i := n;
    } else {
      i := HeldWasWritten(log[..n], k, id);
      forall j | i < j < |log| ensures !Writes(log[j], k, id) {
        if j < n { assert log[..n][j] == log[j]; }
      }
    }
  }

  /** And what it holds is what the last such entry says. */
  lemma {:induction false} LastWriterWins(log: seq<LedgerEntry>, k: Kind, id: string, i: nat)
    requires LastWriter(log, k, id, i)
    ensures Has(TableOf(Replay(NO_RECORDS, log), k), id)
    ensures Get(TableOf(Replay(NO_RECORDS, log), k), id) == log[i].payload.record
  {
    var n := |log| - 1;
    var e, t := log[n], Replay(NO_RECORDS, log[..n]);
    TablesAreDictionaries(log[..n], k);
    FiledLaws(t, e.kind, e.payload.record, k);
    PutLaws(TableOf(t, k), e.payload.record.id, e.payload.record);
    if i < n {
      assert LastWriter(log[..n], k, id, i);
      LastWriterWins(log[..n], k, id, i);
      assert !Writes(log[n], k, id);
    }
  }

  /** Keys are ids, and the table holds records of its own kind. */
  ghost predicate WellFiled(t: Tables, k: Kind) {
    && Distinct(TableOf(t, k))
    && forall i :: 0 <= i < |TableOf(t, k)| ==>
         TableOf(t, k)[i].0 == TableOf(t, k)[i].1.id && KindOf(TableOf(t, k)[i].1) == k
  }

  lemma {:induction false} ReplayIsWellFiled(log: seq<LedgerEntry>, k: Kind)
    requires forall i :: 0 <= i < |log| ==> log[i].kind == KindOf(log[i].payload.record)
    ensures WellFiled(Replay(NO_RECORDS, log), k)
  {
    if log != [] {
      var e := log[|log| - 1];
      var t := Replay(NO_RECORDS, log[..|log| - 1]);
      ReplayIsWellFiled(log[..|log| - 1], k);
      FiledLaws(t, e.kind, e.payload.record, k);
      PutLaws(TableOf(t, k), e.payload.record.id, e.payload.record);
    }
  }

  // ---- the object -----------------------------------------------------------

  class AIReciprocityLedger {
    const h: Digest
    const digest: Payload -> string
    var log: seq<LedgerEntry>
    var tables: Tables
    /** The saved file. */
    var file: seq<LedgerEntry>

    ghost function View(): State
      reads this
    {
      State(log, tables)
    }

    constructor (h: Digest, digest: Payload -> string, file: seq<LedgerEntry>)
      ensures this.h == h && this.digest == digest && this.file == file
      ensures View() == State([], NO_RECORDS)
    {
      this.h, this.digest, this.file := h, digest, file;
      log, tables := [], NO_RECORDS;
    }

    /** The nine `record_*` methods, which differ only in the table they file in. */
    method Record(rec: Recording) returns (entry: LedgerEntry)
      modifies this`log, this`tables
      ensures View() == Recorded(h, digest, old(View()), rec)
      ensures log == old(log) + [entry] && (old(Verifies(h, log)) ==> Verifies(h, log))
      ensures IsRecorded(h, digest, old(log), rec, entry)
      ensures forall k :: TableOf(tables, k) == if k != entry.kind then old(TableOf(tables, k))
                                                else Put(old(TableOf(tables, k)), rec.record.id, rec.record)
    {
      tables := Filed(tables, KindOf(rec.record), rec.record);
      var payload := Payload(rec.record, rec.traceId, rec.cellId);
      entry := LedgerEntry(rec.entryId, |log|, KindOf(rec.record), payload, digest(payload), ChainHead(h, log),
                           rec.now);
      ghost var before := log;
      log := log + [entry];
      forall i | 0 <= i < |log| && Verifies(h, before) ensures LinksBack(h, log, i) {
        assert i < |before| ==> LinksBack(h, before, i);
      }
    }

    method VerifyChainIntegrity() returns (ok: bool)
      ensures ok <==> Verifies(h, log)
    {
      for index := 0 to |log|
        invariant forall i {:trigger LinksBack(h, log, i)} :: 0 <= i < index ==> LinksBack(h, log, i)
      {
        if index == 0 {
          if log[0].prevHash != "" {
            assert !LinksBack(h, log, 0);
            return false;
          }
        } else if log[index].prevHash != h(HashedOf(log[index - 1])) {
          assert !LinksBack(h, log, index);
          return false;
        }
      }
      return true;
    }

    method Save()
      modifies this`file
      ensures file == log
    {
      file := log;
    }

    method LoadFile() returns (count: nat)
      modifies this`log, this`tables
      ensures View() == Loaded(old(View()), file) && count == |file|
    {
      ghost var before := View();
      count := 0;
      for i := 0 to |file|
        invariant count == i && file == old(file) && View() == Loaded(before, file[..i])
      {
        log := log + [file[i]];
        tables := Filed(tables, file[i].kind, file[i].payload.record);
        LoadOneMore(before, file, i);
        count := count + 1;
      }
      assert file[..|file|] == file;
    }
  }
}
