/**
  The extractor's PostgreSQL tables and the values its commands and events carry.

  Every `uuid` column is an identifier drawn by the caller; the primary-key and unique
  constraints of `schema.sql` decide whether an insert is accepted.
 */
module Tables {
  import opened Wrappers

  type CommandId = nat
  type RunId = nat
  type OperationId = nat
  type OwnerId = nat
  type MessageId = nat

  const PRODUCER := "ratatoskr-extractor"

  datatype DigestAlgorithm = Sha256 | OtherAlgorithm

  datatype BlobRef = BlobRef(ownerService: string, algorithm: DigestAlgorithm, digest: string,
                             mediaType: string, length: nat)

  // ----- sources, inbox and runs

  /** The `normalized_url` column: a web address or the URN of a peer-owned blob. */
  datatype Address = Web(url: string) | BlobUrn(digest: string)

  /** `unique (owner_id, normalized_url)`. */
  datatype SourceKey = SourceKey(owner: OwnerId, address: Address)

  datatype Source = Source(classification: string, blobDigest: Option<string>)

  datatype BlobClaim = BlobClaim(owner: string, mediaType: string, length: nat)

  datatype Status = Queued | Running | Succeeded | Failed
  {
    predicate Terminal() { Succeeded? || Failed? }
  }

  datatype Run = Run(
    command: CommandId, operation: OperationId, source: SourceKey, claim: Option<BlobClaim>,
    status: Status, queuedAt: nat, startedAt: Option<nat>, completedAt: Option<nat>,
    errorClass: Option<string>, claimedUntil: Option<nat>, claimedBy: Option<string>)

  /** The run a worker holds after claiming it. */
  datatype QueuedRun = QueuedRun(runId: RunId, owner: OwnerId, url: Address, classification: string,
                                 blob: Option<BlobRef>, maxEventBytes: nat)

  // ----- facts recorded with a run

  datatype CompletedFetch = CompletedFetch(finalUrl: string, httpStatus: nat, mediaType: string,
                                           wireBytes: nat, decodedBytes: nat, attempts: nat,
                                           rawBlob: BlobRef)

  datatype FetchRow = FetchRow(run: RunId, fetch: CompletedFetch)

  datatype ArtifactKind = RawSource | DocumentIr | Diagnostics

  datatype ArtifactRow = ArtifactRow(run: RunId, kind: ArtifactKind, blob: BlobRef)

  datatype Candidate = Candidate(strategy: string, score: nat, selected: bool)

  datatype CandidateRow = CandidateRow(run: RunId, candidate: Candidate)

  datatype Step = Step(ordinal: nat, kind: string, outcome: Option<string>,
                       failureClass: Option<string>, resolvedUrl: Option<string>)

  datatype StepRow = StepRow(run: RunId, step: Step)

  // ----- the outbox

  datatype Document = Document(id: string, content: string)

  datatype Event =
    | ReportedQueued
    | ReportedFailed(code: string, retryable: bool)
    | ReportedSucceeded(result: Document, blob: BlobRef, warnings: seq<string>)
    | ReportedPartially(result: Document, blob: BlobRef, warnings: seq<string>)
    | Extracted(document: Document, documentBlob: BlobRef)

  /** The columns only the relay writes. */
  datatype Delivery = Delivery(nextAttemptAt: nat, attempts: nat, claimedUntil: Option<nat>,
                               publishedAt: Option<nat>, deadLetteredAt: Option<nat>,
                               lastError: Option<string>)
  {
    /** Still in the retry set. */
    predicate Unsettled() { publishedAt.None? && deadLetteredAt.None? }
  }

  datatype OutboxRow = OutboxRow(message: MessageId, command: CommandId, operation: OperationId,
                                 event: Event, enqueuedAt: nat, delivery: Delivery)

  /**
    `inbox` holds one entry for every inbox row, all applied in the transaction that inserted them.
    The value is the row's entry in the unique index on `extraction_runs.command_id`.
   */
  datatype Tables = Tables(
    sources: map<SourceKey, Source>, inbox: map<CommandId, RunId>, runs: map<RunId, Run>,
    fetches: seq<FetchRow>, artifacts: seq<ArtifactRow>, candidates: seq<CandidateRow>,
    steps: seq<StepRow>, outbox: seq<OutboxRow>)

  const EMPTY := Tables(map[], map[], map[], [], [], [], [], [])

  // ----- counting rows

  datatype Tag = TagQueued | TagFailed | TagSucceeded | TagPartial | TagDocument

  function TagOf(e: Event): Tag {
    match e
    case ReportedQueued => TagQueued
    case ReportedFailed(_, _) => TagFailed
    case ReportedSucceeded(_, _, _) => TagSucceeded
    case ReportedPartially(_, _, _) => TagPartial
    case Extracted(_, _) => TagDocument
  }

  predicate TerminalReport(e: Event) {
    e.ReportedFailed? || e.ReportedSucceeded? || e.ReportedPartially?
  }

  function CountRows(rows: seq<OutboxRow>, c: CommandId, tag: Tag): nat {
    if rows == [] then 0
    else
      var last := rows[|rows| - 1];
      CountRows(rows[..|rows| - 1], c, tag) + if last.command == c && TagOf(last.event) == tag then 1 else 0
  }

  function CountArtifacts(rows: seq<ArtifactRow>, r: RunId, kind: ArtifactKind): nat {
    if rows == [] then 0
    else
      var last := rows[|rows| - 1];
      CountArtifacts(rows[..|rows| - 1], r, kind) + if last.run == r && last.kind == kind then 1 else 0
  }

  function CountSelected(rows: seq<CandidateRow>, r: RunId): nat {
    if rows == [] then 0
    else
      var last := rows[|rows| - 1];
      CountSelected(rows[..|rows| - 1], r) + if last.run == r && last.candidate.selected then 1 else 0
  }

  /** The number a run's terminal call validates before it writes anything. */
  function SelectedIn(candidates: seq<Candidate>): nat {
    if candidates == [] then 0
    else SelectedIn(candidates[..|candidates| - 1]) + if candidates[|candidates| - 1].selected then 1 else 0
  }

  function CandidateRows(r: RunId, candidates: seq<Candidate>): (rows: seq<CandidateRow>)
    ensures |rows| == |candidates|
    ensures forall i :: 0 <= i < |rows| ==> rows[i] == CandidateRow(r, candidates[i])
  {
    seq(|candidates|, i requires 0 <= i < |candidates| => CandidateRow(r, candidates[i]))
  }

  function StepRows(r: RunId, steps: seq<Step>): (rows: seq<StepRow>)
    ensures |rows| == |steps|
    ensures forall i :: 0 <= i < |rows| ==> rows[i] == StepRow(r, steps[i])
  {
    seq(|steps|, i requires 0 <= i < |steps| => StepRow(r, steps[i]))
  }

  lemma CountRowsAppend(rows: seq<OutboxRow>, row: OutboxRow)
    ensures forall c, tag ::
              CountRows(rows + [row], c, tag)
              == CountRows(rows, c, tag) + if row.command == c && TagOf(row.event) == tag then 1 else 0
  {
    assert (rows + [row])[..|rows|] == rows;
  }

  lemma CountArtifactsAppend(rows: seq<ArtifactRow>, row: ArtifactRow)
    ensures forall r, kind ::
              CountArtifacts(rows + [row], r, kind)
              == CountArtifacts(rows, r, kind) + if row.run == r && row.kind == kind then 1 else 0
  {
    assert (rows + [row])[..|rows|] == rows;
  }

  lemma {:induction false} CountSelectedAppend(rows: seq<CandidateRow>, r: RunId, candidates: seq<Candidate>)
    ensures forall r' ::
              CountSelected(rows + CandidateRows(r, candidates), r')
              == CountSelected(rows, r') + if r' == r then SelectedIn(candidates) else 0
  {
    var added := CandidateRows(r, candidates);
    if candidates == [] {
      assert rows + added == rows;
    } else {
      var init := candidates[..|candidates| - 1];
      CountSelectedAppend(rows, r, init);
      assert (rows + added)[..|rows + added| - 1] == rows + CandidateRows(r, init);
    }
  }

  /** Two versions of the outbox that hold the same facts, whatever the relay wrote on them. */
  predicate SameFacts(rows: seq<OutboxRow>, rows': seq<OutboxRow>) {
    && |rows| == |rows'|
    && forall i :: 0 <= i < |rows| ==> rows'[i] == rows[i].(delivery := rows'[i].delivery)
  }

  lemma {:induction false} CountRowsSameFacts(rows: seq<OutboxRow>, rows': seq<OutboxRow>)
    requires SameFacts(rows, rows')
    ensures forall c, tag :: CountRows(rows', c, tag) == CountRows(rows, c, tag)
  {
    if rows != [] {
      CountRowsSameFacts(rows[..|rows| - 1], rows'[..|rows| - 1]);
    }
  }

  lemma {:induction false} CountRowsZero(rows: seq<OutboxRow>, c: CommandId, tag: Tag)
    ensures CountRows(rows, c, tag) == 0
            <==> forall i :: 0 <= i < |rows| ==> !(rows[i].command == c && TagOf(rows[i].event) == tag)
  {
    if rows != [] {
      var init := rows[..|rows| - 1];
      CountRowsZero(init, c, tag);
      assert forall i :: 0 <= i < |init| ==> init[i] == rows[i];
    }
  }

  lemma {:induction false} CountRowsUnique(rows: seq<OutboxRow>, c: CommandId, tag: Tag, i: nat, j: nat)
    requires i < |rows| && rows[i].command == c && TagOf(rows[i].event) == tag
    requires j < |rows| && rows[j].command == c && TagOf(rows[j].event) == tag
    requires CountRows(rows, c, tag) <= 1
    ensures i == j
  {
    var n := |rows| - 1;
    var init := rows[..n];
    CountRowsZero(init, c, tag);
    if i < n && j < n {
      CountRowsUnique(init, c, tag, i, j);
    }
  }
}
