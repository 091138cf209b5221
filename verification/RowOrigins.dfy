/**
  Where every row of the outbox and every record of a run comes from: the step that enqueued it, with
  what that step was given.
 */
module RowOrigins {
  import opened Wrappers
  import opened Tables
  import opened Transactions
  import opened Protocol
  import opened RunSafety
  import opened RunTheorems
  import Intake

  // ----- the step that enqueued a row

  /** The closed classes have their own public codes; every other class reports the generic failure. */
  predicate PublicCodeFor(failureClass: string, code: string) {
    && (failureClass == "pdf_no_text_layer" ==> code == "content.extraction.no_text_layer")
    && (failureClass == "pdf_encrypted" ==> code == "content.extraction.encrypted")
    && (failureClass == "unsupported_media" ==> code == "content.extraction.unsupported_media")
    && (failureClass in {"blob_owner", "blob_missing", "blob_unreadable", "blob_mismatch"}
        ==> code == "content.extraction.source_unavailable")
    && (failureClass !in {"pdf_no_text_layer", "pdf_encrypted", "unsupported_media",
                          "blob_owner", "blob_missing", "blob_unreadable", "blob_mismatch"}
        ==> code == "content.extraction.failed")
  }

  /** The step is a worker's terminal call that takes the run it holds out of running. */
  predicate SettlesOwn(cfg: Config, s: System, a: Action) {
    IsTerminalCall(a) && a.worker in s.workers && Settles(cfg, s, a, s.workers[a.worker].runId)
  }

  /** The row belongs to the run the step settled. */
  predicate OfSettledRun(cfg: Config, s: System, a: Action, row: OutboxRow) {
    && SettlesOwn(cfg, s, a)
    && var run := s.tables.runs[s.workers[a.worker].runId];
       row.command == run.command && row.operation == run.operation && row.enqueuedAt == a.at
  }

  /** What the step that enqueued a row was given is what the row says. */
  predicate Explains(cfg: Config, s: System, a: Action, row: OutboxRow) {
    match row.event
    case ReportedQueued =>
      && a.Deliver? && Intake.AllFit(cfg, a.message) && Intake.HasRequest(a.message)
      && row.command == a.message.envelope.value.commandId
      && row.operation == a.message.envelope.value.request.value.operation
      && row.message == a.id && row.enqueuedAt == a.at
    case ReportedFailed(code, retryable) =>
      && OfSettledRun(cfg, s, a, row)
      && (|| (a.CallFail? && retryable == a.retryable && PublicCodeFor(a.failureClass, code) && row.message == a.id)
          || (a.CallReject? && !retryable && PublicCodeFor(a.rejection.failureClass, code) && row.message == a.id))
    case ReportedSucceeded(document, blob, warnings) =>
      && OfSettledRun(cfg, s, a, row) && a.CallComplete? && row.message == a.reportId
      && document == a.success.document && blob == a.success.irBlob && warnings == []
    case ReportedPartially(document, blob, warnings) =>
      && OfSettledRun(cfg, s, a, row) && a.CallComplete? && row.message == a.reportId
      && document == a.success.document && blob == a.success.irBlob && warnings == ["content.document.not_ingested"]
    case Extracted(document, blob) =>
      && OfSettledRun(cfg, s, a, row) && a.CallComplete? && row.message == a.docId
      && document == a.success.document && blob == a.success.irBlob
  }

  lemma DeliverExplains(cfg: Config, s: System, a: Action, i: nat)
    requires a.Deliver? && |s.tables.outbox| <= i < |ApplyDeliver(cfg, s, a).tables.outbox|
    ensures Explains(cfg, s, a, ApplyDeliver(cfg, s, a).tables.outbox[i])
  {
    Intake.DecodesExactly(cfg, a.message);
  }

  lemma PublicCodeIs(failureClass: string)
    ensures PublicCodeFor(failureClass, PublicCode(failureClass))
  {
  }

  /** A failure or a rejection leaves the tables alone, or settles its run and appends one report. */
  predicate FailsRun(t: Tables, t': Tables, r: RunId, at: nat, failureClass: string, retryable: bool, id: MessageId) {
    || t' == t
    || (&& IsRunning(t, r)
        && t'.runs == t.runs[r := FailedRun(t.runs[r], at, failureClass)]
        && t'.outbox == t.outbox + [NewRow(id, t.runs[r].command, t.runs[r].operation,
                                           ReportedFailed(PublicCode(failureClass), retryable), at)])
  }

  lemma FailTables(cfg: Config, t: Tables, held: QueuedRun, a: Action)
    requires a.CallFail?
    ensures FailsRun(t, WorkerCall(cfg, t, held, a).tables, held.runId, a.at, a.failureClass, a.retryable, a.id)
  {
  }

  lemma RejectTables(cfg: Config, t: Tables, held: QueuedRun, a: Action)
    requires a.CallReject?
    ensures FailsRun(t, WorkerCall(cfg, t, held, a).tables, held.runId, a.at, a.rejection.failureClass, false, a.id)
  {
  }

  lemma FailExplains(cfg: Config, s: System, a: Action, i: nat)
    requires a.CallFail? && a.worker in s.workers && |s.tables.outbox| <= i < |ApplyCall(cfg, s, a).tables.outbox|
    ensures Explains(cfg, s, a, ApplyCall(cfg, s, a).tables.outbox[i])
  {
    FailTables(cfg, s.tables, s.workers[a.worker], a);
    PublicCodeIs(a.failureClass);
  }

  lemma RejectExplains(cfg: Config, s: System, a: Action, i: nat)
    requires a.CallReject? && a.worker in s.workers && |s.tables.outbox| <= i < |ApplyCall(cfg, s, a).tables.outbox|
    ensures Explains(cfg, s, a, ApplyCall(cfg, s, a).tables.outbox[i])
  {
    RejectTables(cfg, s.tables, s.workers[a.worker], a);
    PublicCodeIs(a.rejection.failureClass);
  }

  lemma CompleteExplains(cfg: Config, s: System, a: Action, i: nat)
    requires a.CallComplete? && a.worker in s.workers && |s.tables.outbox| <= i < |ApplyCall(cfg, s, a).tables.outbox|
    ensures Explains(cfg, s, a, ApplyCall(cfg, s, a).tables.outbox[i])
  {
    var held := s.workers[a.worker];
    CompletionTables(cfg, s.tables, held, a);
  }

  /** A completion leaves the tables alone, or settles its run and appends what it was given. */
  lemma CompletionTables(cfg: Config, t: Tables, held: QueuedRun, a: Action)
    requires a.CallComplete?
    ensures var t' := WorkerCall(cfg, t, held, a).tables;
            t' == t || (IsRunning(t, held.runId)
                        && t' == SucceededTables(cfg, t, a.at, held.runId, held.maxEventBytes, a.success, a.docId, a.reportId))
  {
  }

  lemma NewRowExplained(cfg: Config, s: System, a: Action, i: nat)
    requires |s.tables.outbox| <= i < |Apply(cfg, s, a).tables.outbox|
    ensures Explains(cfg, s, a, Apply(cfg, s, a).tables.outbox[i])
  {
    if a.Deliver? {
      DeliverExplains(cfg, s, a, i);
    } else if IsRelayStep(a) {
      RelayFacts(cfg, s, a);
    } else if a.CallFail? {
      FailExplains(cfg, s, a, i);
    } else if a.CallReject? {
      RejectExplains(cfg, s, a, i);
    } else if a.CallComplete? {
      CompleteExplains(cfg, s, a, i);
    }
  }

  /** Row `i` of the schedule's outbox was enqueued by its step `k`. */
  predicate OriginAt(cfg: Config, maxPayload: nat, schedule: seq<Action>, row: OutboxRow, k: nat) {
    k < |schedule| && Explains(cfg, Before(cfg, Init(maxPayload), schedule, k), schedule[k], row)
  }

  lemma OriginLater(cfg: Config, maxPayload: nat, schedule: seq<Action>, a: Action, row: OutboxRow, row': OutboxRow, k: nat)
    requires OriginAt(cfg, maxPayload, schedule, row, k) && row' == row.(delivery := row'.delivery)
    ensures OriginAt(cfg, maxPayload, schedule + [a], row', k)
  {
    assert (schedule + [a])[..k] == schedule[..k] && (schedule + [a])[k] == schedule[k];
  }

  /**
    Over every schedule, every row of the outbox was enqueued by a step that was given exactly what
    the row says: a queued report by a well-formed delivery, a failed report by the call that failed
    the run, and a success or a document event by the completion that settled it.
   */
  lemma {:induction false} RowOrigin(cfg: Config, maxPayload: nat, schedule: seq<Action>, i: nat) returns (k: nat)
    requires i < |Execute(cfg, Init(maxPayload), schedule).tables.outbox|
    ensures OriginAt(cfg, maxPayload, schedule, Execute(cfg, Init(maxPayload), schedule).tables.outbox[i], k)
    decreases |schedule|
  {
    assert schedule != [];
    var init, a := schedule[..|schedule| - 1], schedule[|schedule| - 1];
    var s := Execute(cfg, Init(maxPayload), init);
    assert schedule == init + [a];
    if i < |s.tables.outbox| {
      k := RowOrigin(cfg, maxPayload, init, i);
      ReachableInv(cfg, maxPayload, init);
      StepKeeps(cfg, s, a);
      OriginLater(cfg, maxPayload, init, a, s.tables.outbox[i], Apply(cfg, s, a).tables.outbox[i], k);
    } else {
      k := |init|;
      NewRowExplained(cfg, s, a, i);
      assert schedule[..k] == init;
    }
  }

  // ----- the artifacts a success names

  predicate IsSuccess(e: Event) { e.ReportedSucceeded? || e.ReportedPartially? || e.Extracted? }

  function DocumentOf(e: Event): Document
    requires IsSuccess(e)
  {
    if e.Extracted? then e.document else e.result
  }

  function BlobOf(e: Event): BlobRef
    requires IsSuccess(e)
  {
    if e.Extracted? then e.documentBlob else e.blob
  }

  /** Rows of `artifacts` and `fetches` are only ever appended. */
  ghost predicate RecordsKept(t: Tables, t': Tables) {
    && (forall row :: row in t.artifacts ==> row in t'.artifacts)
    && (forall row :: row in t.fetches ==> row in t'.fetches)
  }

  lemma CallKeepsRecords(cfg: Config, t: Tables, held: QueuedRun, a: Action)
    requires IsWorkerCall(a)
    ensures RecordsKept(t, CalledTables(cfg, t, held, a))
  {
  }

  lemma StepKeepsRecords(cfg: Config, s: System, a: Action)
    ensures RecordsKept(s.tables, Apply(cfg, s, a).tables)
  {
    if IsWorkerCall(a) && a.worker in s.workers {
      CallKeepsRecords(cfg, s.tables, s.workers[a.worker], a);
    }
  }

  lemma {:induction false} RecordsKeptFrom(cfg: Config, s: System, schedule: seq<Action>)
    ensures RecordsKept(s.tables, Execute(cfg, s, schedule).tables)
    decreases |schedule|
  {
    if schedule != [] {
      RecordsKeptFrom(cfg, s, schedule[..|schedule| - 1]);
      StepKeepsRecords(cfg, Execute(cfg, s, schedule[..|schedule| - 1]), schedule[|schedule| - 1]);
    }
  }

  lemma RecordsKeptAfter(cfg: Config, maxPayload: nat, schedule: seq<Action>, k: nat)
    requires k <= |schedule|
    ensures RecordsKept(Before(cfg, Init(maxPayload), schedule, k).tables, Execute(cfg, Init(maxPayload), schedule).tables)
  {
    RecordsKeptFrom(cfg, Before(cfg, Init(maxPayload), schedule, k), schedule[k..]);
    ExecuteConcat(cfg, Init(maxPayload), schedule[..k], schedule[k..]);
    assert schedule[..k] + schedule[k..] == schedule;
  }

  lemma {:induction false} OneArtifact(rows: seq<ArtifactRow>, r: RunId, kind: ArtifactKind)
    ensures CountArtifacts(rows, r, kind) == 0 <==> forall row :: row in rows ==> !(row.run == r && row.kind == kind)
    ensures CountArtifacts(rows, r, kind) <= 1 ==>
              forall a, b :: a in rows && b in rows && a.run == r && a.kind == kind && b.run == r && b.kind == kind ==> a == b
  {
    if rows != [] {
      var init, last := rows[..|rows| - 1], rows[|rows| - 1];
      OneArtifact(init, r, kind);
      assert forall row :: row in rows <==> row in init || row == last;
    }
  }

  /** The artifacts and the fetch a settling call was given are stored for its run. */
  predicate Stored(t: Tables, r: RunId, a: Action) {
    && (a.CallComplete? ==>
          && ArtifactRow(r, DocumentIr, a.success.irBlob) in t.artifacts
          && ArtifactRow(r, RawSource, a.success.rawBlob) in t.artifacts
          && (a.success.fetch.Some? ==> FetchRow(r, a.success.fetch.value) in t.fetches))
    && (a.CallReject? ==>
          && ArtifactRow(r, RawSource, a.rejection.rawBlob) in t.artifacts
          && (a.rejection.fetch.Some? ==> FetchRow(r, a.rejection.fetch.value) in t.fetches))
  }

  lemma SettlingCallStores(cfg: Config, t: Tables, held: QueuedRun, a: Action)
    requires IsTerminalCall(a) && IsRunning(t, held.runId)
    requires var t' := WorkerCall(cfg, t, held, a).tables; held.runId in t'.runs && t'.runs[held.runId].status.Terminal()
    ensures Stored(WorkerCall(cfg, t, held, a).tables, held.runId, a)
  {
    if a.CallComplete? {
      SettlingTables(cfg, t, held, a);
    }
  }

  lemma StoredStays(cfg: Config, maxPayload: nat, schedule: seq<Action>, k: nat)
    requires k < |schedule| && SettlesOwn(cfg, Before(cfg, Init(maxPayload), schedule, k), schedule[k])
    ensures Stored(Execute(cfg, Init(maxPayload), schedule).tables,
                   Before(cfg, Init(maxPayload), schedule, k).workers[schedule[k].worker].runId, schedule[k])
  {
    var s, a := Before(cfg, Init(maxPayload), schedule, k), schedule[k];
    SettlingCallStores(cfg, s.tables, s.workers[a.worker], a);
    BeforeNext(cfg, Init(maxPayload), schedule, k);
    RecordsKeptAfter(cfg, maxPayload, schedule, k + 1);
  }

  /** What a `fetches` row holds: an own SHA-256 blob, and numbers the columns and their checks admit. */
  predicate Recordable(f: CompletedFetch) {
    && f.rawBlob.ownerService == "ratatoskr-extractor" && f.rawBlob.algorithm.Sha256?
    && f.rawBlob.length < 0x8000_0000_0000_0000 && f.wireBytes < 0x8000_0000_0000_0000
    && f.decodedBytes < 0x8000_0000_0000_0000 && 0 < f.attempts < 0x8000_0000
    && 100 <= f.httpStatus <= 599
  }

  predicate FetchStored(t: Tables, r: RunId, f: CompletedFetch) {
    FetchRow(r, f) in t.fetches && ArtifactRow(r, RawSource, f.rawBlob) in t.artifacts
  }

  lemma FetchRecorded(t: Tables, r: RunId, f: CompletedFetch)
    requires r in t.runs
    ensures RecordFetch(t, r, f).answer.Ok? <==> Recordable(f)
    ensures Recordable(f) ==> FetchStored(RecordFetch(t, r, f).tables, r, f)
  {
    var t' := RecordFetch(t, r, f).tables;
    assert Recordable(f) ==> t'.fetches == t.fetches + [FetchRow(r, f)];
  }

  /** A fetch is recorded exactly when it is recordable, and both its rows stay from then on. */
  lemma RecordedFetchStays(cfg: Config, maxPayload: nat, schedule: seq<Action>, k: nat)
    requires k < |schedule| && schedule[k].CallRecordFetch? && schedule[k].io.Commits?
    requires schedule[k].worker in Before(cfg, Init(maxPayload), schedule, k).workers
    ensures var s, f := Before(cfg, Init(maxPayload), schedule, k), schedule[k].fetch;
            var r := s.workers[schedule[k].worker].runId;
            && (RecordFetch(s.tables, r, f).answer.Ok? <==> Recordable(f))
            && (Recordable(f) ==> FetchStored(Execute(cfg, Init(maxPayload), schedule).tables, r, f))
  {
    var s := Before(cfg, Init(maxPayload), schedule, k);
    ReachableInv(cfg, maxPayload, schedule[..k]);
    FetchRecorded(s.tables, s.workers[schedule[k].worker].runId, schedule[k].fetch);
    BeforeNext(cfg, Init(maxPayload), schedule, k);
    RecordsKeptAfter(cfg, maxPayload, schedule, k + 1);
  }

  /**
    Over every schedule, a success report and a document event carry the document and the blob of
    the completion that settled their run, and that blob is the one of the run's only Document IR.
   */
  lemma SuccessNamesItsDocumentIr(cfg: Config, maxPayload: nat, schedule: seq<Action>, i: nat) returns (k: nat)
    requires var o := Execute(cfg, Init(maxPayload), schedule).tables.outbox; i < |o| && IsSuccess(o[i].event)
    ensures k < |schedule| && schedule[k].CallComplete?
    ensures var s := Before(cfg, Init(maxPayload), schedule, k);
            var t := Execute(cfg, Init(maxPayload), schedule).tables;
            && OfSettledRun(cfg, s, schedule[k], t.outbox[i])
            && DocumentOf(t.outbox[i].event) == schedule[k].success.document
            && BlobOf(t.outbox[i].event) == schedule[k].success.irBlob
            && var r := s.workers[schedule[k].worker].runId;
               && ArtifactRow(r, DocumentIr, BlobOf(t.outbox[i].event)) in t.artifacts
               && forall row :: row in t.artifacts && row.run == r && row.kind.DocumentIr? ==> row.blob == BlobOf(t.outbox[i].event)
  {
    k := RowOrigin(cfg, maxPayload, schedule, i);
    var s, a := Before(cfg, Init(maxPayload), schedule, k), schedule[k];
    var held := s.workers[a.worker];
    StoredStays(cfg, maxPayload, schedule, k);
    ReachableInv(cfg, maxPayload, schedule);
    SettledStays(cfg, maxPayload, schedule, k, held.runId);
    var t := Execute(cfg, Init(maxPayload), schedule).tables;
    assert RecordsMatchStatus(t, held.runId);
    OneArtifact(t.artifacts, held.runId, DocumentIr);
  }

  lemma SettledStays(cfg: Config, maxPayload: nat, schedule: seq<Action>, k: nat, r: RunId)
    requires k < |schedule| && Settles(cfg, Before(cfg, Init(maxPayload), schedule, k), schedule[k], r)
    ensures var t := Execute(cfg, Init(maxPayload), schedule).tables;
            r in t.runs && t.runs[r] == Apply(cfg, Before(cfg, Init(maxPayload), schedule, k), schedule[k]).tables.runs[r]
  {
    var history, rest := schedule[..k + 1], schedule[k + 1..];
    assert history + rest == schedule;
    BeforeNext(cfg, Init(maxPayload), schedule, k);
    TerminalIsAbsorbing(cfg, maxPayload, history, rest, r);
  }

  /** A run's document event and its success report agree on document and blob. */
  lemma SuccessRowsAgree(cfg: Config, maxPayload: nat, schedule: seq<Action>, i: nat, j: nat)
    requires var o := Execute(cfg, Init(maxPayload), schedule).tables.outbox;
             i < |o| && j < |o| && IsSuccess(o[i].event) && IsSuccess(o[j].event) && o[i].command == o[j].command
    ensures var o := Execute(cfg, Init(maxPayload), schedule).tables.outbox;
            DocumentOf(o[i].event) == DocumentOf(o[j].event) && BlobOf(o[i].event) == BlobOf(o[j].event)
  {
    var k := SuccessNamesItsDocumentIr(cfg, maxPayload, schedule, i);
    var l := SuccessNamesItsDocumentIr(cfg, maxPayload, schedule, j);
    SameSettling(cfg, maxPayload, schedule, k, l);
  }

  /** Two steps that settle runs of one command are one step. */
  lemma SameSettling(cfg: Config, maxPayload: nat, schedule: seq<Action>, k: nat, l: nat)
    requires k < |schedule| && SettlesOwn(cfg, Before(cfg, Init(maxPayload), schedule, k), schedule[k])
    requires l < |schedule| && SettlesOwn(cfg, Before(cfg, Init(maxPayload), schedule, l), schedule[l])
    requires var s, s' := Before(cfg, Init(maxPayload), schedule, k), Before(cfg, Init(maxPayload), schedule, l);
             s.tables.runs[s.workers[schedule[k].worker].runId].command
             == s'.tables.runs[s'.workers[schedule[l].worker].runId].command
    ensures k == l
  {
    var s, s' := Before(cfg, Init(maxPayload), schedule, k), Before(cfg, Init(maxPayload), schedule, l);
    var r, r' := s.workers[schedule[k].worker].runId, s'.workers[schedule[l].worker].runId;
    ReachableInv(cfg, maxPayload, schedule[..k]);
    ReachableInv(cfg, maxPayload, schedule[..l]);
    InitInv(cfg, maxPayload);
    if k < l {
      BeforeKeeps(cfg, Init(maxPayload), schedule, k, l);
      assert r == r';
      SettlesOnce(cfg, maxPayload, schedule, k, l, r);
    } else if l < k {
      BeforeKeeps(cfg, Init(maxPayload), schedule, l, k);
      assert r == r';
      SettlesOnce(cfg, maxPayload, schedule, l, k, r);
    }
  }

  // ----- the candidates and steps of a settled run

  function CandidatesOf(rows: seq<CandidateRow>, r: RunId): seq<Candidate> {
    if rows == [] then []
    else
      var last := rows[|rows| - 1];
      CandidatesOf(rows[..|rows| - 1], r) + if last.run == r then [last.candidate] else []
  }

  function StepsOf(rows: seq<StepRow>, r: RunId): seq<Step> {
    if rows == [] then []
    else
      var last := rows[|rows| - 1];
      StepsOf(rows[..|rows| - 1], r) + if last.run == r then [last.step] else []
  }

  lemma CandidateAdded(rows: seq<CandidateRow>, row: CandidateRow, r: RunId)
    ensures CandidatesOf(rows + [row], r) == CandidatesOf(rows, r) + if row.run == r then [row.candidate] else []
  {
    assert (rows + [row])[..|rows|] == rows;
  }

  lemma CandidateRowsSplit(rows: seq<CandidateRow>, r: RunId, candidates: seq<Candidate>)
    requires candidates != []
    ensures var n := |candidates| - 1;
            rows + CandidateRows(r, candidates) == rows + CandidateRows(r, candidates[..n]) + [CandidateRow(r, candidates[n])]
  {
  }

  lemma {:induction false} CandidatesAdded(rows: seq<CandidateRow>, r: RunId, candidates: seq<Candidate>, r': RunId)
    ensures CandidatesOf(rows + CandidateRows(r, candidates), r') == CandidatesOf(rows, r') + if r' == r then candidates else []
  {
    if candidates == [] {
      assert rows + CandidateRows(r, candidates) == rows;
    } else {
      var n := |candidates| - 1;
      CandidatesAdded(rows, r, candidates[..n], r');
      CandidateRowsSplit(rows, r, candidates);
      CandidateAdded(rows + CandidateRows(r, candidates[..n]), CandidateRow(r, candidates[n]), r');
      assert candidates == candidates[..n] + [candidates[n]];
    }
  }

  lemma StepAdded(rows: seq<StepRow>, row: StepRow, r: RunId)
    ensures StepsOf(rows + [row], r) == StepsOf(rows, r) + if row.run == r then [row.step] else []
  {
    assert (rows + [row])[..|rows|] == rows;
  }

  lemma StepRowsSplit(rows: seq<StepRow>, r: RunId, steps: seq<Step>)
    requires steps != []
    ensures var n := |steps| - 1; rows + StepRows(r, steps) == rows + StepRows(r, steps[..n]) + [StepRow(r, steps[n])]
  {
  }

  lemma {:induction false} StepsAdded(rows: seq<StepRow>, r: RunId, steps: seq<Step>, r': RunId)
    ensures StepsOf(rows + StepRows(r, steps), r') == StepsOf(rows, r') + if r' == r then steps else []
  {
    if steps == [] {
      assert rows + StepRows(r, steps) == rows;
    } else {
      var n := |steps| - 1;
      StepsAdded(rows, r, steps[..n], r');
      StepRowsSplit(rows, r, steps);
      StepAdded(rows + StepRows(r, steps[..n]), StepRow(r, steps[n]), r');
      assert steps == steps[..n] + [steps[n]];
    }
  }

  function GivenCandidates(a: Action): seq<Candidate>
    requires IsTerminalCall(a)
  {
    if a.CallReject? then a.rejection.candidates else if a.CallComplete? then a.success.candidates else []
  }

  function GivenSteps(a: Action): seq<Step>
    requires IsTerminalCall(a)
  {
    if a.CallFail? then a.steps else if a.CallReject? then a.rejection.steps else a.success.steps
  }

  /** The status, class and time a settled run has from the call that settled it. */
  predicate SettledAs(run: Run, a: Action)
    requires IsTerminalCall(a)
  {
    && run.completedAt == Some(a.at) && run.claimedUntil.None? && run.claimedBy.None?
    && (a.CallFail? ==> run.status.Failed? && run.errorClass == Some(a.failureClass))
    && (a.CallReject? ==> run.status.Failed? && run.errorClass == Some(a.rejection.failureClass))
    && (a.CallComplete? ==> run.status.Succeeded?)
  }

  /** What one terminal call adds: nothing, or exactly its candidates and steps to the run it settles. */
  predicate AddsGiven(t: Tables, t': Tables, r: RunId, a: Action)
    requires IsTerminalCall(a)
  {
    || (t'.runs == t.runs && t'.candidates == t.candidates && t'.steps == t.steps)
    || (&& IsRunning(t, r) && r in t'.runs && t'.runs == t.runs[r := t'.runs[r]] && SettledAs(t'.runs[r], a)
        && t'.candidates == t.candidates + CandidateRows(r, GivenCandidates(a)) && t'.steps == t.steps + StepRows(r, GivenSteps(a)))
  }

  lemma FailAdds(cfg: Config, t: Tables, held: QueuedRun, a: Action)
    requires a.CallFail?
    ensures AddsGiven(t, WorkerCall(cfg, t, held, a).tables, held.runId, a)
  {
    assert t.candidates + CandidateRows(held.runId, []) == t.candidates;
  }

  lemma RejectAdds(cfg: Config, t: Tables, held: QueuedRun, a: Action)
    requires a.CallReject?
    ensures AddsGiven(t, WorkerCall(cfg, t, held, a).tables, held.runId, a)
  {
  }

  lemma CompleteAdds(cfg: Config, t: Tables, held: QueuedRun, a: Action)
    requires a.CallComplete?
    ensures AddsGiven(t, WorkerCall(cfg, t, held, a).tables, held.runId, a)
  {
    CompletionTables(cfg, t, held, a);
  }

  lemma CallAdds(cfg: Config, s: System, a: Action)
    requires IsTerminalCall(a) && a.worker in s.workers
    ensures AddsGiven(s.tables, Apply(cfg, s, a).tables, s.workers[a.worker].runId, a)
  {
    if a.CallFail? {
      FailAdds(cfg, s.tables, s.workers[a.worker], a);
    } else if a.CallReject? {
      RejectAdds(cfg, s.tables, s.workers[a.worker], a);
    } else {
      CompleteAdds(cfg, s.tables, s.workers[a.worker], a);
    }
  }

  predicate Done(t: Tables, r: RunId) { r in t.runs && t.runs[r].status.Terminal() }

  /** Candidates and steps stay as they were, and no run settles. */
  ghost predicate AddsNothing(t: Tables, t': Tables) {
    && t'.candidates == t.candidates && t'.steps == t.steps
    && forall r :: Done(t', r) ==> Done(t, r)
  }

  lemma DeliveryAddsNothing(cfg: Config, t: Tables, a: Action)
    requires a.Deliver?
    ensures AddsNothing(t, Finish(a.io, t, ConsumeCapture(cfg, t, a.at, a.message, a.runId, a.id)).tables)
  {
  }

  lemma ClaimAddsNothing(s: System, a: Action)
    requires a.ClaimRun?
    ensures AddsNothing(s.tables, ApplyClaimRun(s, a).tables)
  {
  }

  lemma RecordingAddsNothing(cfg: Config, t: Tables, held: QueuedRun, a: Action)
    requires a.CallRecordFetch? || a.CallDiagnose?
    ensures AddsNothing(t, CalledTables(cfg, t, held, a))
  {
  }

  /** Every step but a worker's terminal call. */
  lemma OthersAddNothing(cfg: Config, s: System, a: Action)
    requires !(IsTerminalCall(a) && a.worker in s.workers)
    ensures AddsNothing(s.tables, Apply(cfg, s, a).tables)
  {
    if a.Deliver? {
      DeliveryAddsNothing(cfg, s.tables, a);
    } else if a.ClaimRun? {
      ClaimAddsNothing(s, a);
    } else if IsWorkerCall(a) && a.worker in s.workers {
      RecordingAddsNothing(cfg, s.tables, s.workers[a.worker], a);
    } else if IsRelayStep(a) {
      RelayFacts(cfg, s, a);
    }
  }

  /** Step `k` settled the run, and its records are what that step was given. */
  predicate RecordedBy(cfg: Config, maxPayload: nat, schedule: seq<Action>, t: Tables, r: RunId, k: nat) {
    && k < |schedule| && SettlesOwn(cfg, Before(cfg, Init(maxPayload), schedule, k), schedule[k])
    && Before(cfg, Init(maxPayload), schedule, k).workers[schedule[k].worker].runId == r
    && RecordsAre(t, r, schedule[k])
  }

  /** The run's own columns, its candidates and its steps are what the call was given. */
  predicate RecordsAre(t: Tables, r: RunId, a: Action) {
    && IsTerminalCall(a) && r in t.runs && SettledAs(t.runs[r], a)
    && CandidatesOf(t.candidates, r) == GivenCandidates(a) && StepsOf(t.steps, r) == GivenSteps(a)
  }

  predicate NothingRecorded(t: Tables, r: RunId) {
    CandidatesOf(t.candidates, r) == [] && StepsOf(t.steps, r) == []
  }

  /** One terminal call: the run it settles gets its records, every other run keeps its own. */
  lemma CallRecords(t: Tables, t': Tables, r0: RunId, a: Action, r: RunId)
    requires IsTerminalCall(a) && AddsGiven(t, t', r0, a)
    ensures var same := CandidatesOf(t'.candidates, r) == CandidatesOf(t.candidates, r) && StepsOf(t'.steps, r) == StepsOf(t.steps, r);
            || (same && (r in t'.runs <==> r in t.runs) && (r in t.runs ==> t'.runs[r] == t.runs[r]))
            || (r == r0 && IsRunning(t, r) && r in t'.runs && SettledAs(t'.runs[r], a)
                && CandidatesOf(t'.candidates, r) == CandidatesOf(t.candidates, r) + GivenCandidates(a)
                && StepsOf(t'.steps, r) == StepsOf(t.steps, r) + GivenSteps(a))
  {
    CandidatesAdded(t.candidates, r0, GivenCandidates(a), r);
    StepsAdded(t.steps, r0, GivenSteps(a), r);
  }

  lemma RecordedLater(cfg: Config, maxPayload: nat, schedule: seq<Action>, a: Action, t: Tables, t': Tables, r: RunId, k: nat)
    requires RecordedBy(cfg, maxPayload, schedule, t, r, k) && r in t'.runs && t'.runs[r] == t.runs[r]
    requires CandidatesOf(t'.candidates, r) == CandidatesOf(t.candidates, r) && StepsOf(t'.steps, r) == StepsOf(t.steps, r)
    ensures RecordedBy(cfg, maxPayload, schedule + [a], t', r, k)
  {
    assert (schedule + [a])[..k] == schedule[..k] && (schedule + [a])[k] == schedule[k];
  }

  /** What holds of every run: recorded by step `k`, or not settled and nothing recorded. */
  predicate Accounted(cfg: Config, maxPayload: nat, schedule: seq<Action>, t: Tables, r: RunId, k: nat) {
    if Done(t, r) then RecordedBy(cfg, maxPayload, schedule, t, r, k) else NothingRecorded(t, r)
  }

  lemma QuietStepAccounts(cfg: Config, maxPayload: nat, init: seq<Action>, a: Action, r: RunId, k: nat)
    requires var s := Execute(cfg, Init(maxPayload), init);
             && Inv(cfg, s) && !(IsTerminalCall(a) && a.worker in s.workers)
             && Accounted(cfg, maxPayload, init, s.tables, r, k)
    ensures Accounted(cfg, maxPayload, init + [a], Apply(cfg, Execute(cfg, Init(maxPayload), init), a).tables, r, k)
  {
    var s := Execute(cfg, Init(maxPayload), init);
    OthersAddNothing(cfg, s, a);
    StepKeeps(cfg, s, a);
    if Done(s.tables, r) {
      TerminalRowKept(s, Apply(cfg, s, a), r);
      RecordedLater(cfg, maxPayload, init, a, s.tables, Apply(cfg, s, a).tables, r, k);
    }
  }

  lemma CallAccounts(cfg: Config, maxPayload: nat, init: seq<Action>, a: Action, r: RunId, k: nat) returns (k': nat)
    requires var s := Execute(cfg, Init(maxPayload), init);
             && IsTerminalCall(a) && a.worker in s.workers
             && Accounted(cfg, maxPayload, init, s.tables, r, k)
    ensures Accounted(cfg, maxPayload, init + [a], Apply(cfg, Execute(cfg, Init(maxPayload), init), a).tables, r, k')
  {
    var s := Execute(cfg, Init(maxPayload), init);
    var t' := Apply(cfg, s, a).tables;
    CallAdds(cfg, s, a);
    CallRecords(s.tables, t', s.workers[a.worker].runId, a, r);
    if Done(s.tables, r) {
      k' := k;
      RecordedLater(cfg, maxPayload, init, a, s.tables, t', r, k);
    } else {
      k' := |init|;
      assert (init + [a])[..k'] == init && (init + [a])[k'] == a;
    }
  }

  lemma {:induction false} EveryRunAccounted(cfg: Config, maxPayload: nat, schedule: seq<Action>, r: RunId) returns (k: nat)
    ensures Accounted(cfg, maxPayload, schedule, Execute(cfg, Init(maxPayload), schedule).tables, r, k)
    decreases |schedule|
  {
    k := 0;
    if schedule != [] {
      var init, a := schedule[..|schedule| - 1], schedule[|schedule| - 1];
      var s := Execute(cfg, Init(maxPayload), init);
      k := EveryRunAccounted(cfg, maxPayload, init, r);
      assert schedule == init + [a];
      if IsTerminalCall(a) && a.worker in s.workers {
        k := CallAccounts(cfg, maxPayload, init, a, r, k);
      } else {
        ReachableInv(cfg, maxPayload, init);
        QuietStepAccounts(cfg, maxPayload, init, a, r, k);
      }
    }
  }

  /**
    Over every schedule, a settled run has one settling call: its status, class and time, its
    candidates and steps are exactly what that call was given, and its artifacts and fetch are
    stored. A run that has not settled has no candidate and no step.
   */
  lemma SettledRunRecords(cfg: Config, maxPayload: nat, schedule: seq<Action>, r: RunId) returns (k: nat)
    ensures var t := Execute(cfg, Init(maxPayload), schedule).tables;
            if Done(t, r) then RecordedBy(cfg, maxPayload, schedule, t, r, k) && Stored(t, r, schedule[k]) else NothingRecorded(t, r)
  {
    k := EveryRunAccounted(cfg, maxPayload, schedule, r);
    if Done(Execute(cfg, Init(maxPayload), schedule).tables, r) {
      StoredStays(cfg, maxPayload, schedule, k);
    }
  }
}
