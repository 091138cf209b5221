/**
  The transactions of the capture intake and of the terminal calls, as functions on the tables.

  A transaction is one atomic step. `Attempt` is what it leaves if it commits together with what
  it answers; `Finish` adds the three ways a database answers a transaction.
 */
module Transactions {
  import opened Wrappers
  import opened Numbers
  import opened Tables

  datatype ConsumeError =
    | InvalidSubject | InvalidCommandType | MalformedCommand | ForeignProducer | MissingTenant
    | AggregateMismatch | InvalidUrlScheme | UrlRefused | InvalidPayload | InvalidArtifact
    | InvalidRunState | Database

  datatype Reception = ReceptionApplied | ReceptionDuplicate

  datatype Completion = Applied | Duplicate

  /** `began` is false when the call answered before it opened a transaction. */
  datatype Attempt<+T> = Attempt(tables: Tables, answer: Result<T, ConsumeError>, began: bool := true)

  function Finish<T>(io: Io, before: Tables, a: Attempt<T>): Attempt<T> {
    if !a.began then a
    else
      match io
      case Commits => a
      case RollsBack => Attempt(before, Err(Database))
      case CommitsSilently => Attempt(a.tables, Err(Database))
  }

  function Refuse<T>(t: Tables, e: ConsumeError): Attempt<T> { Attempt(t, Err(e), false) }

  /** Library code this model takes as given functions of its inputs. */
  datatype Config = Config(
    isHttp: string -> bool,
    normalize: string -> Option<string>,
    classify: string -> string,
    factValid: (Document, BlobRef) -> bool,
    eventBytes: Event -> nat)

  // ----- decoding a delivery

  const CAPTURE_SUBJECT := "cmd.content.capture.requested.v1"
  const CAPTURE_COMMAND_TYPE := "content.capture.requested.v1"

  datatype Request = Request(operation: OperationId, url: Option<string>, blob: Option<BlobRef>)

  datatype Envelope = Envelope(commandType: string, producer: string, tenant: Option<OwnerId>,
                               aggregate: OperationId, commandId: CommandId, request: Option<Request>)

  datatype Message = Message(subject: string, envelope: Option<Envelope>)

  datatype CaptureSource = CaptureUrl(url: string) | CaptureBlob(blob: BlobRef)

  datatype CaptureCommand = CaptureCommand(commandId: CommandId, operation: OperationId,
                                           owner: OwnerId, source: CaptureSource)

  function DecodeCapture(cfg: Config, m: Message): Result<CaptureCommand, ConsumeError> {
    if m.subject != CAPTURE_SUBJECT then Err(InvalidSubject)
    else if m.envelope.None? then Err(MalformedCommand)
    else
      var e := m.envelope.value;
      if e.commandType != CAPTURE_COMMAND_TYPE then Err(InvalidCommandType)
      else if e.producer != "ratatoskr-platform" && e.producer != "ratatoskr-x" then Err(ForeignProducer)
      else if e.tenant.None? then Err(MissingTenant)
      else if e.request.None? then Err(MalformedCommand)
      else if e.aggregate != e.request.value.operation then Err(AggregateMismatch)
      else
        match (e.request.value.url, e.request.value.blob)
        case (Some(url), None) =>
          if cfg.isHttp(url)
          then Ok(CaptureCommand(e.commandId, e.aggregate, e.tenant.value, CaptureUrl(url)))
          else Err(InvalidUrlScheme)
        case (None, Some(blob)) =>
          if blob.algorithm.Sha256?
          then Ok(CaptureCommand(e.commandId, e.aggregate, e.tenant.value, CaptureBlob(blob)))
          else Err(InvalidArtifact)
        case _ => Err(InvalidPayload)
  }

  // ----- intake

  datatype IntakeSource = IntakeSource(address: Address, source: Source, claim: Option<BlobClaim>)

  /** The source row and the claim a command asks for; `url_source` and `blob_source`. */
  function IntakeSourceOf(cfg: Config, source: CaptureSource): Result<IntakeSource, ConsumeError> {
    match source
    case CaptureUrl(url) =>
      (match cfg.normalize(url)
       case None => Err(UrlRefused)
       case Some(normalized) => Ok(IntakeSource(Web(normalized), Source(cfg.classify(normalized), None), None)))
    case CaptureBlob(blob) =>
      if blob.length > I64_MAX then Err(InvalidArtifact)
      else Ok(IntakeSource(BlobUrn(blob.digest), Source("blob", Some(blob.digest)),
                           Some(BlobClaim(blob.ownerService, blob.mediaType, blob.length))))
  }

  /** `on conflict (owner_id, normalized_url) do update`: the first row of an address stays. */
  function UpsertSource(sources: map<SourceKey, Source>, key: SourceKey, source: Source): map<SourceKey, Source> {
    if key in sources then sources else sources[key := source]
  }

  predicate FreshMessage(t: Tables, m: MessageId) {
    forall i :: 0 <= i < |t.outbox| ==> t.outbox[i].message != m
  }

  function NewRow(m: MessageId, c: CommandId, o: OperationId, e: Event, at: nat): OutboxRow {
    OutboxRow(m, c, o, e, at, Delivery(at, 0, None, None, None, None))
  }

  function ConsumeCapture(cfg: Config, t: Tables, at: nat, m: Message, runId: RunId, id: MessageId): Attempt<Reception> {
    match DecodeCapture(cfg, m)
    case Err(e) => Refuse(t, e)
    case Ok(command) =>
      if command.commandId in t.inbox then Attempt(t, Ok(ReceptionDuplicate))
      else
        match IntakeSourceOf(cfg, command.source)
        case Err(e) => Attempt(t, Err(e))
        case Ok(intake) =>
          if runId in t.runs || !FreshMessage(t, id) then Attempt(t, Err(Database))
          else
            var key := SourceKey(command.owner, intake.address);
            Attempt(
              t.(sources := UpsertSource(t.sources, key, intake.source),
                 inbox := t.inbox[command.commandId := runId],
                 runs := t.runs[runId := Run(command.commandId, command.operation, key, intake.claim,
                                             Queued, at, None, None, None, None, None)],
                 outbox := t.outbox + [NewRow(id, command.commandId, command.operation, ReportedQueued, at)]),
              Ok(ReceptionApplied))
  }

  // ----- claiming

  predicate Claimable(run: Run, now: nat) {
    || run.status.Queued?
    || (run.status.Running? && (run.claimedUntil.None? || run.claimedUntil.value <= now))
  }

  /** The row `order by queued_at limit 1 for update skip locked` may pick. */
  predicate NextRun(t: Tables, now: nat, locked: set<RunId>, r: RunId) {
    && r in t.runs && r !in locked && Claimable(t.runs[r], now)
    && forall r' :: r' in t.runs && r' !in locked && Claimable(t.runs[r'], now)
                    ==> t.runs[r].queuedAt <= t.runs[r'].queuedAt
  }

  function LeaseSeconds(requested: int): nat {
    if requested < 1 then 1 else if requested > 3600 then 3600 else requested
  }

  function ClaimedTables(t: Tables, now: nat, r: RunId, worker: string, lease: int): Tables
    requires r in t.runs
  {
    var run := t.runs[r];
    t.(runs := t.runs[r := run.(
      status := Running, startedAt := if run.startedAt.Some? then run.startedAt else Some(now),
      claimedBy := Some(worker), claimedUntil := Some(now + LeaseSeconds(lease)))])
  }

  function QueuedRunOf(t: Tables, r: RunId, maxEventBytes: nat): QueuedRun
    requires r in t.runs && t.runs[r].source in t.sources
  {
    var run := t.runs[r];
    var source := t.sources[run.source];
    var blob :=
      if run.claim.Some? && source.blobDigest.Some?
      then Some(BlobRef(run.claim.value.owner, Sha256, source.blobDigest.value,
                        run.claim.value.mediaType, run.claim.value.length))
      else None;
    QueuedRun(r, run.source.owner, run.source.address, source.classification, blob, maxEventBytes)
  }

  // ----- terminal calls

  predicate OwnedSha256(b: BlobRef) { b.ownerService == PRODUCER && b.algorithm.Sha256? }

  predicate ValidClass(class_: string) { 1 <= |class_| <= 64 }

  predicate ValidCandidates(candidates: seq<Candidate>, selected: nat) {
    candidates != [] && SelectedIn(candidates) == selected
  }

  /** The integer conversions that come before the insert of a `fetches` row. */
  predicate FetchConverts(f: CompletedFetch) {
    f.wireBytes <= I64_MAX && f.decodedBytes <= I64_MAX && f.attempts <= I32_MAX
  }

  /** The check constraints of `fetches`. */
  predicate FetchChecked(f: CompletedFetch) { 100 <= f.httpStatus <= 599 && f.attempts > 0 }

  predicate FetchFits(f: CompletedFetch) { FetchConverts(f) && FetchChecked(f) }

  /** A failed conversion is the caller's error, a failed check the database's. */
  function FetchRefusal(f: CompletedFetch): ConsumeError {
    if !FetchConverts(f) then InvalidArtifact else Database
  }

  /** The check constraints of `candidates`; the stored score is the thousandth part. */
  predicate CandidateChecked(c: Candidate) { 1 <= |c.strategy| <= 64 && c.score <= 1000 }

  predicate CandidatesChecked(candidates: seq<Candidate>) {
    forall i :: 0 <= i < |candidates| ==> CandidateChecked(candidates[i])
  }

  /** `unique (run_id, strategy, extractor_version)`, among the new rows and against the stored ones. */
  predicate StrategiesFit(rows: seq<CandidateRow>, r: RunId, candidates: seq<Candidate>) {
    && (forall i, j :: 0 <= i < j < |candidates| ==> candidates[i].strategy != candidates[j].strategy)
    && (forall i, j :: 0 <= i < |rows| && 0 <= j < |candidates| && rows[i].run == r
                       ==> rows[i].candidate.strategy != candidates[j].strategy)
  }

  /** The index of at most one selected row for a run. */
  predicate SelectionFits(rows: seq<CandidateRow>, r: RunId, candidates: seq<Candidate>) {
    SelectedIn(candidates) == 0 || CountSelected(rows, r) + SelectedIn(candidates) <= 1
  }

  /** The list as a whole passes the checks and the two unique indexes. */
  predicate CandidatesInsertable(rows: seq<CandidateRow>, r: RunId, candidates: seq<Candidate>) {
    CandidatesChecked(candidates) && StrategiesFit(rows, r, candidates) && SelectionFits(rows, r, candidates)
  }

  /** `provider_resolution_kind_is_known` */
  predicate StepChecked(s: Step) { s.kind in {"provider_attempt", "resolved_target", "html_fallback", "render_policy"} }

  predicate StepsChecked(steps: seq<Step>) { forall i :: 0 <= i < |steps| ==> StepChecked(steps[i]) }

  function PublicCode(failureClass: string): string {
    if failureClass == "pdf_no_text_layer" then "content.extraction.no_text_layer"
    else if failureClass == "pdf_encrypted" then "content.extraction.encrypted"
    else if failureClass == "unsupported_media" then "content.extraction.unsupported_media"
    else if failureClass in {"blob_owner", "blob_missing", "blob_unreadable", "blob_mismatch"}
    then "content.extraction.source_unavailable"
    else "content.extraction.failed"
  }

  predicate IsRunning(t: Tables, r: RunId) { r in t.runs && t.runs[r].status.Running? }

  function FailedRun(run: Run, at: nat, failureClass: string): Run {
    run.(status := Failed, completedAt := Some(at), errorClass := Some(failureClass),
         claimedUntil := None, claimedBy := None)
  }

  function SucceededRun(run: Run, at: nat): Run {
    run.(status := Succeeded, completedAt := Some(at), claimedUntil := None, claimedBy := None)
  }

  function FailRun(t: Tables, at: nat, r: RunId, failureClass: string, retryable: bool, steps: seq<Step>,
                   id: MessageId): Attempt<Completion>
  {
    if !ValidClass(failureClass) then Refuse(t, InvalidRunState)
    else if !IsRunning(t, r) then Attempt(t, Ok(Duplicate))
    else if !StepsChecked(steps) || !FreshMessage(t, id) then Attempt(t, Err(Database))
    else
      var run := t.runs[r];
      Attempt(
        t.(runs := t.runs[r := FailedRun(run, at, failureClass)],
           steps := t.steps + StepRows(r, steps),
           outbox := t.outbox + [NewRow(id, run.command, run.operation,
                                        ReportedFailed(PublicCode(failureClass), retryable), at)]),
        Ok(Applied))
  }

  datatype Rejection = Rejection(rawBlob: BlobRef, fetch: Option<CompletedFetch>, candidates: seq<Candidate>,
                                 failureClass: string, steps: seq<Step>)

  function FetchRows(r: RunId, fetch: Option<CompletedFetch>): seq<FetchRow> {
    if fetch.Some? then [FetchRow(r, fetch.value)] else []
  }

  function RejectRun(t: Tables, at: nat, r: RunId, x: Rejection, id: MessageId): Attempt<Completion> {
    if !ValidClass(x.failureClass) then Refuse(t, InvalidRunState)
    else if !OwnedSha256(x.rawBlob) then Refuse(t, InvalidArtifact)
    else if !ValidCandidates(x.candidates, 0) then Refuse(t, InvalidRunState)
    else if x.rawBlob.length > I64_MAX then Refuse(t, InvalidArtifact)
    else if !IsRunning(t, r) then Attempt(t, Ok(Duplicate))
    else if x.fetch.Some? && !FetchFits(x.fetch.value) then Attempt(t, Err(FetchRefusal(x.fetch.value)))
    else if !CandidatesInsertable(t.candidates, r, x.candidates) || !StepsChecked(x.steps) then Attempt(t, Err(Database))
    else if !FreshMessage(t, id) then Attempt(t, Err(Database))
    else
      var run := t.runs[r];
      Attempt(
        t.(runs := t.runs[r := FailedRun(run, at, x.failureClass)],
           fetches := t.fetches + FetchRows(r, x.fetch),
           artifacts := t.artifacts + [ArtifactRow(r, RawSource, x.rawBlob)],
           candidates := t.candidates + CandidateRows(r, x.candidates),
           steps := t.steps + StepRows(r, x.steps),
           outbox := t.outbox + [NewRow(id, run.command, run.operation,
                                        ReportedFailed(PublicCode(x.failureClass), false), at)]),
        Ok(Applied))
  }

  datatype Success = Success(document: Document, irBlob: BlobRef, rawBlob: BlobRef,
                             fetch: Option<CompletedFetch>, candidates: seq<Candidate>, steps: seq<Step>)

  const NOT_INGESTED := "content.document.not_ingested"

  /** The fact is enqueued only when its serialized envelope fits the run's limit. */
  predicate Ingested(cfg: Config, x: Success, maxEventBytes: nat) {
    cfg.eventBytes(Extracted(x.document, x.irBlob)) <= maxEventBytes
  }

  function CompletionRows(cfg: Config, run: Run, x: Success, maxEventBytes: nat, docId: MessageId,
                          reportId: MessageId, at: nat): seq<OutboxRow>
  {
    if Ingested(cfg, x, maxEventBytes) then
      [NewRow(docId, run.command, run.operation, Extracted(x.document, x.irBlob), at)]
      + [NewRow(reportId, run.command, run.operation, ReportedSucceeded(x.document, x.irBlob, []), at)]
    else
      [NewRow(reportId, run.command, run.operation, ReportedPartially(x.document, x.irBlob, [NOT_INGESTED]), at)]
  }

  function SucceededTables(cfg: Config, t: Tables, at: nat, r: RunId, maxEventBytes: nat, x: Success,
                           docId: MessageId, reportId: MessageId): Tables
    requires IsRunning(t, r)
  {
    t.(runs := t.runs[r := SucceededRun(t.runs[r], at)],
       fetches := t.fetches + FetchRows(r, x.fetch),
       artifacts := t.artifacts + [ArtifactRow(r, RawSource, x.rawBlob)] + [ArtifactRow(r, DocumentIr, x.irBlob)],
       candidates := t.candidates + CandidateRows(r, x.candidates),
       steps := t.steps + StepRows(r, x.steps),
       outbox := t.outbox + CompletionRows(cfg, t.runs[r], x, maxEventBytes, docId, reportId, at))
  }

  function CompleteRun(cfg: Config, t: Tables, at: nat, r: RunId, maxEventBytes: nat, x: Success,
                       docId: MessageId, reportId: MessageId): Attempt<Completion>
  {
    if !OwnedSha256(x.irBlob) || !OwnedSha256(x.rawBlob) then Refuse(t, InvalidArtifact)
    else if x.irBlob.length > I64_MAX || x.rawBlob.length > I64_MAX then Refuse(t, InvalidArtifact)
    else if !ValidCandidates(x.candidates, 1) then Refuse(t, InvalidRunState)
    else if !IsRunning(t, r) then
      if r in t.runs && t.runs[r].status.Succeeded? then Attempt(t, Ok(Duplicate))
      else Attempt(t, Err(InvalidRunState))
    else if x.fetch.Some? && !FetchFits(x.fetch.value) then Attempt(t, Err(FetchRefusal(x.fetch.value)))
    else if !CandidatesInsertable(t.candidates, r, x.candidates) || !StepsChecked(x.steps) then Attempt(t, Err(Database))
    else if !cfg.factValid(x.document, x.irBlob) then Attempt(t, Err(InvalidArtifact))
    else if Ingested(cfg, x, maxEventBytes) && (docId == reportId || !FreshMessage(t, docId)) then Attempt(t, Err(Database))
    else if !FreshMessage(t, reportId) then Attempt(t, Err(Database))
    else Attempt(SucceededTables(cfg, t, at, r, maxEventBytes, x, docId, reportId), Ok(Applied))
  }

  // ----- facts recorded outside the terminal call

  function RecordFetch(t: Tables, r: RunId, f: CompletedFetch): Attempt<()> {
    if !OwnedSha256(f.rawBlob) || f.rawBlob.length > I64_MAX then Refuse(t, InvalidArtifact)
    else if !FetchFits(f) then Attempt(t, Err(FetchRefusal(f)))
    else if r !in t.runs then Attempt(t, Err(Database))
    else Attempt(t.(fetches := t.fetches + [FetchRow(r, f)],
                    artifacts := t.artifacts + [ArtifactRow(r, RawSource, f.rawBlob)]), Ok(()))
  }

  function RecordDiagnostics(t: Tables, r: RunId, blob: BlobRef): Attempt<()> {
    if !OwnedSha256(blob) || blob.length > I64_MAX then Refuse(t, InvalidArtifact)
    else if r !in t.runs then Attempt(t, Err(Database))
    else Attempt(t.(artifacts := t.artifacts + [ArtifactRow(r, Diagnostics, blob)]), Ok(()))
  }
}
