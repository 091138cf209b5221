/**
  The terminal calls on what they are given: which check answers a call, in the order the checks are
  made, and what the constraints of the tables keep out over every schedule.
 */
module TerminalCalls {
  import opened Wrappers
  import opened Numbers
  import opened Tables
  import opened Transactions
  import opened Protocol
  import opened RunSafety
  import opened RunTheorems

  // ----- what a stored row may hold

  predicate OwnBlob(b: BlobRef) { b.ownerService == "ratatoskr-extractor" && b.algorithm.Sha256? }

  predicate Fits63(n: nat) { n < 0x8000_0000_0000_0000 }

  /** The numbers of a fetch that the columns can hold. */
  predicate NumbersFit(f: CompletedFetch) { Fits63(f.wireBytes) && Fits63(f.decodedBytes) && f.attempts < 0x8000_0000 }

  predicate StatusFits(f: CompletedFetch) { 100 <= f.httpStatus <= 599 && f.attempts >= 1 }

  predicate CandidateFits(c: Candidate) { 1 <= |c.strategy| <= 64 && c.score <= 1000 }

  predicate KnownStep(s: Step) {
    s.kind == "provider_attempt" || s.kind == "resolved_target" || s.kind == "html_fallback" || s.kind == "render_policy"
  }

  predicate ArtifactHolds(row: ArtifactRow) { OwnBlob(row.blob) && Fits63(row.blob.length) }

  predicate FetchHolds(row: FetchRow) { NumbersFit(row.fetch) && StatusFits(row.fetch) }

  /** Every stored fact satisfies the constraints of its table. */
  ghost predicate RowsHold(t: Tables) {
    && (forall i :: 0 <= i < |t.artifacts| ==> ArtifactHolds(t.artifacts[i]))
    && (forall i :: 0 <= i < |t.fetches| ==> FetchHolds(t.fetches[i]))
    && (forall i :: 0 <= i < |t.candidates| ==> CandidateFits(t.candidates[i].candidate))
    && (forall i :: 0 <= i < |t.steps| ==> KnownStep(t.steps[i].step))
  }

  lemma FailHolds(t: Tables, at: nat, r: RunId, failureClass: string, retryable: bool, steps: seq<Step>, id: MessageId)
    requires RowsHold(t)
    ensures RowsHold(FailRun(t, at, r, failureClass, retryable, steps, id).tables)
  {
  }

  lemma RejectHolds(t: Tables, at: nat, r: RunId, x: Rejection, id: MessageId)
    requires RowsHold(t)
    ensures RowsHold(RejectRun(t, at, r, x, id).tables)
  {
  }

  lemma CompleteHolds(cfg: Config, t: Tables, at: nat, r: RunId, maxEventBytes: nat, x: Success, docId: MessageId, reportId: MessageId)
    requires RowsHold(t)
    ensures RowsHold(CompleteRun(cfg, t, at, r, maxEventBytes, x, docId, reportId).tables)
  {
  }

  lemma RecordFetchHolds(t: Tables, r: RunId, f: CompletedFetch)
    requires RowsHold(t)
    ensures RowsHold(RecordFetch(t, r, f).tables)
  {
  }

  lemma DiagnosticsHold(t: Tables, r: RunId, blob: BlobRef)
    requires RowsHold(t)
    ensures RowsHold(RecordDiagnostics(t, r, blob).tables)
  {
  }

  lemma FinishHolds<T>(io: Io, t: Tables, a: Attempt<T>)
    requires RowsHold(t) && RowsHold(a.tables)
    ensures RowsHold(Finish(io, t, a).tables)
  {
  }

  lemma TerminalCallHolds(cfg: Config, t: Tables, held: QueuedRun, a: Action)
    requires RowsHold(t) && IsTerminalCall(a)
    ensures RowsHold(WorkerCall(cfg, t, held, a).tables)
  {
    match a
    case CallFail(_, at, failureClass, retryable, steps, id, io) =>
      FailHolds(t, at, held.runId, failureClass, retryable, steps, id);
      FinishHolds(io, t, FailRun(t, at, held.runId, failureClass, retryable, steps, id));
    case CallReject(_, at, x, id, io) =>
      RejectHolds(t, at, held.runId, x, id);
      FinishHolds(io, t, RejectRun(t, at, held.runId, x, id));
    case CallComplete(_, at, x, docId, reportId, io) =>
      CompleteHolds(cfg, t, at, held.runId, held.maxEventBytes, x, docId, reportId);
      FinishHolds(io, t, CompleteRun(cfg, t, at, held.runId, held.maxEventBytes, x, docId, reportId));
  }

  lemma CallHolds(cfg: Config, t: Tables, held: QueuedRun, a: Action)
    requires RowsHold(t) && IsWorkerCall(a)
    ensures RowsHold(CalledTables(cfg, t, held, a))
  {
    match a
    case CallRecordFetch(_, f, io) =>
      RecordFetchHolds(t, held.runId, f);
      FinishHolds(io, t, RecordFetch(t, held.runId, f));
    case CallDiagnose(_, blob, io) =>
      DiagnosticsHold(t, held.runId, blob);
      FinishHolds(io, t, RecordDiagnostics(t, held.runId, blob));
    case _ => TerminalCallHolds(cfg, t, held, a);
  }

  lemma OthersKeepFacts(cfg: Config, s: System, a: Action)
    requires !IsWorkerCall(a)
    ensures var t' := Apply(cfg, s, a).tables;
            t'.artifacts == s.tables.artifacts && t'.fetches == s.tables.fetches
            && t'.candidates == s.tables.candidates && t'.steps == s.tables.steps
  {
    if IsRelayStep(a) { RelayFacts(cfg, s, a); }
  }

  /**
    Over every schedule, whatever workers, parsers and stores hand in: every stored artifact is an own
    SHA-256 blob, and every fetch, candidate and step satisfies the constraints of its table.
   */
  lemma {:induction false} StoredRowsHold(cfg: Config, maxPayload: nat, schedule: seq<Action>)
    ensures RowsHold(Execute(cfg, Init(maxPayload), schedule).tables)
    decreases |schedule|
  {
    if schedule != [] {
      var init, a := schedule[..|schedule| - 1], schedule[|schedule| - 1];
      var s := Execute(cfg, Init(maxPayload), init);
      StoredRowsHold(cfg, maxPayload, init);
      if !IsWorkerCall(a) {
        OthersKeepFacts(cfg, s, a);
      } else if a.worker in s.workers {
        CallHolds(cfg, s.tables, s.workers[a.worker], a);
      }
    }
  }

  // ----- the check that answers a call

  datatype Check = Check(holds: bool, otherwise: Result<Completion, ConsumeError>)

  /** The answer of the first check that does not hold, and `Applied` when all do. */
  function Answer(checks: seq<Check>): Result<Completion, ConsumeError> {
    if checks == [] then Ok(Applied) else if !checks[0].holds then checks[0].otherwise else Answer(checks[1..])
  }

  lemma {:induction false} AnswerIs(checks: seq<Check>, i: nat)
    requires i <= |checks| && (forall j :: 0 <= j < i ==> checks[j].holds) && (i < |checks| ==> !checks[i].holds)
    ensures Answer(checks) == if i < |checks| then checks[i].otherwise else Ok(Applied)
  {
    if i > 0 { AnswerIs(checks[1..], i - 1); }
  }

  function FirstFailing(checks: seq<Check>): (i: nat)
    ensures i <= |checks| && (forall j :: 0 <= j < i ==> checks[j].holds) && (i < |checks| ==> !checks[i].holds)
  {
    if checks == [] || !checks[0].holds then 0 else FirstFailing(checks[1..]) + 1
  }

  predicate Runs(t: Tables, r: RunId) { r in t.runs && t.runs[r].status == Running }

  predicate Unused(t: Tables, id: MessageId) { forall i :: 0 <= i < |t.outbox| ==> t.outbox[i].message != id }

  predicate AllKnown(steps: seq<Step>) { forall i :: 0 <= i < |steps| ==> KnownStep(steps[i]) }

  function FailChecks(t: Tables, r: RunId, failureClass: string, steps: seq<Step>, id: MessageId): seq<Check> {
    [Check(1 <= |failureClass| <= 64, Err(InvalidRunState)),
     Check(Runs(t, r), Ok(Duplicate)),
     Check(AllKnown(steps), Err(Database)),
     Check(Unused(t, id), Err(Database))]
  }

  /** A fetch too large for its columns is the caller's error, one its checks refuse the database's. */
  function FetchChecks(fetch: Option<CompletedFetch>): seq<Check> {
    [Check(fetch.Some? ==> NumbersFit(fetch.value), Err(InvalidArtifact)),
     Check(fetch.Some? ==> StatusFits(fetch.value), Err(Database))]
  }

  /** The new candidates pass their checks and both unique indexes. */
  predicate Admitted(rows: seq<CandidateRow>, r: RunId, candidates: seq<Candidate>) {
    && (forall i :: 0 <= i < |candidates| ==> CandidateFits(candidates[i]))
    && (forall i, j :: 0 <= i < j < |candidates| ==> candidates[i].strategy != candidates[j].strategy)
    && (forall i, j :: 0 <= i < |rows| && 0 <= j < |candidates| && rows[i].run == r ==> rows[i].candidate.strategy != candidates[j].strategy)
    && (SelectedIn(candidates) > 0 ==> SelectedIn(candidates) == 1 && CountSelected(rows, r) == 0)
  }

  function RejectChecks(t: Tables, r: RunId, x: Rejection, id: MessageId): seq<Check> {
    [Check(1 <= |x.failureClass| <= 64, Err(InvalidRunState)),
     Check(OwnBlob(x.rawBlob), Err(InvalidArtifact)),
     Check(x.candidates != [] && SelectedIn(x.candidates) == 0, Err(InvalidRunState)),
     Check(Fits63(x.rawBlob.length), Err(InvalidArtifact)),
     Check(Runs(t, r), Ok(Duplicate))]
    + FetchChecks(x.fetch)
    + [Check(Admitted(t.candidates, r, x.candidates) && AllKnown(x.steps), Err(Database)),
       Check(Unused(t, id), Err(Database))]
  }

  /** A late completion of a run that succeeded is a duplicate, of a run that failed an error. */
  function CompleteChecks(cfg: Config, t: Tables, r: RunId, maxEventBytes: nat, x: Success, docId: MessageId, reportId: MessageId): seq<Check> {
    var ingested := cfg.eventBytes(Extracted(x.document, x.irBlob)) <= maxEventBytes;
    [Check(OwnBlob(x.irBlob) && OwnBlob(x.rawBlob), Err(InvalidArtifact)),
     Check(Fits63(x.irBlob.length) && Fits63(x.rawBlob.length), Err(InvalidArtifact)),
     Check(x.candidates != [] && SelectedIn(x.candidates) == 1, Err(InvalidRunState)),
     Check(Runs(t, r) || (r in t.runs && t.runs[r].status == Succeeded), Err(InvalidRunState)),
     Check(Runs(t, r), Ok(Duplicate))]
    + FetchChecks(x.fetch)
    + [Check(Admitted(t.candidates, r, x.candidates) && AllKnown(x.steps), Err(Database)),
       Check(cfg.factValid(x.document, x.irBlob), Err(InvalidArtifact)),
       Check(ingested ==> docId != reportId && Unused(t, docId), Err(Database)),
       Check(Unused(t, reportId), Err(Database))]
  }

  /** The checks before the first that fails, spelled out. */
  lemma FirstNine(checks: seq<Check>, i: nat)
    requires |checks| >= 9 && i <= |checks| && forall j :: 0 <= j < i ==> checks[j].holds
    ensures (i > 0 ==> checks[0].holds) && (i > 1 ==> checks[1].holds) && (i > 2 ==> checks[2].holds)
    ensures (i > 3 ==> checks[3].holds) && (i > 4 ==> checks[4].holds) && (i > 5 ==> checks[5].holds)
    ensures (i > 6 ==> checks[6].holds) && (i > 7 ==> checks[7].holds) && (i > 8 ==> checks[8].holds)
    ensures i == 0 || i == 1 || i == 2 || i == 3 || i == 4 || i == 5 || i == 6 || i == 7 || i == 8 || i >= 9
  {
  }

  lemma StepsAgree(steps: seq<Step>)
    ensures StepsChecked(steps) <==> AllKnown(steps)
  {
    forall i | 0 <= i < |steps| ensures StepChecked(steps[i]) <==> KnownStep(steps[i]) { }
  }

  lemma FetchesAgree(f: CompletedFetch)
    ensures FetchConverts(f) <==> NumbersFit(f)
    ensures FetchChecked(f) <==> StatusFits(f)
  {
  }

  lemma CandidatesAgree(rows: seq<CandidateRow>, r: RunId, candidates: seq<Candidate>)
    ensures CandidatesInsertable(rows, r, candidates) <==> Admitted(rows, r, candidates)
  {
    assert CandidatesChecked(candidates) <==> forall i :: 0 <= i < |candidates| ==> CandidateFits(candidates[i]);
  }

  /** `fail_run` answers for its first check that does not hold, and changes nothing unless all hold. */
  lemma FailAnswers(t: Tables, at: nat, r: RunId, failureClass: string, retryable: bool, steps: seq<Step>, id: MessageId)
    ensures var done := FailRun(t, at, r, failureClass, retryable, steps, id);
            done.answer == Answer(FailChecks(t, r, failureClass, steps, id)) && (done.answer != Ok(Applied) ==> done.tables == t)
  {
    var checks := FailChecks(t, r, failureClass, steps, id);
    var i := FirstFailing(checks);
    AnswerIs(checks, i);
    StepsAgree(steps);
    assert i == 0 || i == 1 || i == 2 || i == 3 || i == 4;
    assert i > 0 ==> checks[0].holds;
    assert i > 1 ==> checks[1].holds;
    assert i > 2 ==> checks[2].holds;
    assert i > 3 ==> checks[3].holds;
  }

  /** `reject_run` likewise: the class, the blob, the candidates, its length, and then the transaction's own. */
  lemma RejectAnswers(t: Tables, at: nat, r: RunId, x: Rejection, id: MessageId)
    ensures var done := RejectRun(t, at, r, x, id);
            done.answer == Answer(RejectChecks(t, r, x, id)) && (done.answer != Ok(Applied) ==> done.tables == t)
  {
    var checks := RejectChecks(t, r, x, id);
    var i := FirstFailing(checks);
    AnswerIs(checks, i);
    StepsAgree(x.steps);
    CandidatesAgree(t.candidates, r, x.candidates);
    if x.fetch.Some? { FetchesAgree(x.fetch.value); }
    FirstNine(checks, i);
  }

  /** `complete_run` likewise. */
  lemma CompleteAnswers(cfg: Config, t: Tables, at: nat, r: RunId, maxEventBytes: nat, x: Success, docId: MessageId, reportId: MessageId)
    ensures var done := CompleteRun(cfg, t, at, r, maxEventBytes, x, docId, reportId);
            done.answer == Answer(CompleteChecks(cfg, t, r, maxEventBytes, x, docId, reportId))
            && (done.answer != Ok(Applied) ==> done.tables == t)
  {
    var checks := CompleteChecks(cfg, t, r, maxEventBytes, x, docId, reportId);
    var i := FirstFailing(checks);
    AnswerIs(checks, i);
    StepsAgree(x.steps);
    CandidatesAgree(t.candidates, r, x.candidates);
    if x.fetch.Some? { FetchesAgree(x.fetch.value); }
    FirstNine(checks, i);
    assert i > 9 ==> checks[9].holds;
    assert i > 10 ==> checks[10].holds;
    assert i <= 8 || i == 9 || i == 10 || i == 11;
  }
}
