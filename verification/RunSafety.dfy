/**
  What holds in every state any schedule reaches: one run and one queued report for every command,
  one terminal transition for every run, and records that agree with the run's status.
 */
module RunSafety {
  import opened Wrappers
  import opened Tables
  import opened Transactions
  import opened Protocol

  // ----- the invariant, clause by clause

  /** One inbox row, one run, and each names the other. */
  predicate InboxMatches(inbox: map<CommandId, RunId>, runs: map<RunId, Run>) {
    && (forall r :: r in runs ==> runs[r].command in inbox && inbox[runs[r].command] == r)
    && (forall c :: c in inbox ==> inbox[c] in runs && runs[inbox[c]].command == c)
  }

  /** The `check` constraints of `extraction_runs`, none of which any transaction can violate. */
  predicate RowConstraints(run: Run) {
    && (run.startedAt.Some? <==> !run.status.Queued?)
    && (run.completedAt.Some? <==> run.status.Terminal())
    && (run.claimedUntil.Some? <==> run.claimedBy.Some?)
    && (run.errorClass.Some? ==> ValidClass(run.errorClass.value))
    && (run.errorClass.Some? <==> run.status.Failed?)
  }

  /** What the outbox, the artifacts and the candidates hold for a run in each status. */
  predicate RecordsMatchStatus(t: Tables, r: RunId)
    requires r in t.runs
  {
    var c := t.runs[r].command;
    var documents := CountRows(t.outbox, c, TagDocument);
    var succeeded := CountRows(t.outbox, c, TagSucceeded);
    var partial := CountRows(t.outbox, c, TagPartial);
    && CountRows(t.outbox, c, TagQueued) == 1
    && CountRows(t.outbox, c, TagFailed) == (if t.runs[r].status.Failed? then 1 else 0)
    && CountArtifacts(t.artifacts, r, DocumentIr) == (if t.runs[r].status.Succeeded? then 1 else 0)
    && CountSelected(t.candidates, r) == (if t.runs[r].status.Succeeded? then 1 else 0)
    && if t.runs[r].status.Succeeded?
       then (documents == 1 && succeeded == 1 && partial == 0) || (documents == 0 && succeeded == 0 && partial == 1)
       else documents == 0 && succeeded == 0 && partial == 0
  }

  /** Nothing is recorded for a command or a run that does not exist. */
  ghost predicate NoStrayRecords(t: Tables) {
    && (forall c, tag :: c !in t.inbox ==> CountRows(t.outbox, c, tag) == 0)
    && (forall r, kind :: r !in t.runs ==> CountArtifacts(t.artifacts, r, kind) == 0)
    && (forall r :: r !in t.runs ==> CountSelected(t.candidates, r) == 0)
  }

  predicate WarningsMatch(e: Event) {
    && (e.ReportedSucceeded? ==> e.warnings == [])
    && (e.ReportedPartially? ==> e.warnings == [NOT_INGESTED])
  }

  predicate EventsWellFormed(outbox: seq<OutboxRow>) {
    forall i :: 0 <= i < |outbox| ==> WarningsMatch(outbox[i].event)
  }

  predicate MessagesUnique(outbox: seq<OutboxRow>) {
    forall i, j :: 0 <= i < j < |outbox| ==> outbox[i].message != outbox[j].message
  }

  /** A source row carries a digest exactly for a URN, and a run a claim exactly for a URN. */
  predicate SourcesMatch(sources: map<SourceKey, Source>, runs: map<RunId, Run>) {
    && (forall k :: k in sources ==>
          sources[k].blobDigest == if k.address.BlobUrn? then Some(k.address.digest) else None)
    && (forall r :: r in runs ==>
          runs[r].source in sources && (runs[r].claim.Some? <==> runs[r].source.address.BlobUrn?))
  }

  predicate RowsValid(runs: map<RunId, Run>) {
    forall r :: r in runs ==> RowConstraints(runs[r])
  }

  /** The inbox, the sources and the runs, whatever else is recorded about them. */
  predicate RunTablesInv(t: Tables) {
    InboxMatches(t.inbox, t.runs) && RowsValid(t.runs) && SourcesMatch(t.sources, t.runs)
  }

  predicate RecordsInv(t: Tables) {
    forall r :: r in t.runs ==> RecordsMatchStatus(t, r)
  }

  ghost predicate TablesInv(t: Tables) {
    RunTablesInv(t) && RecordsInv(t) && NoStrayRecords(t) && EventsWellFormed(t.outbox) && MessagesUnique(t.outbox)
  }

  /** A worker holds a run that was claimed, and reads a blob exactly when its own command named one. */
  predicate HeldRunMatches(t: Tables, held: QueuedRun) {
    && held.runId in t.runs
    && !t.runs[held.runId].status.Queued?
    && held.owner == t.runs[held.runId].source.owner
    && held.url == t.runs[held.runId].source.address
    && (held.blob.Some? <==> t.runs[held.runId].claim.Some?)
    && (held.blob.Some? ==>
          && held.blob.value.algorithm.Sha256?
          && t.runs[held.runId].claim.value
             == BlobClaim(held.blob.value.ownerService, held.blob.value.mediaType, held.blob.value.length)
          && held.url == BlobUrn(held.blob.value.digest))
  }

  /** A message that no redelivery could ever apply. */
  predicate Poison(cfg: Config, m: Message) {
    match DecodeCapture(cfg, m)
    case Err(_) => true
    case Ok(command) => IntakeSourceOf(cfg, command.source).Err?
  }

  /** Only durable outcomes are acknowledged. */
  ghost predicate AckedAreDurable(cfg: Config, s: System) {
    forall m :: m in s.acked && !Poison(cfg, m) ==> DecodeCapture(cfg, m).value.commandId in s.tables.inbox
  }

  ghost predicate Inv(cfg: Config, s: System) {
    && TablesInv(s.tables)
    && (forall w :: w in s.workers ==> HeldRunMatches(s.tables, s.workers[w]))
    && AckedAreDurable(cfg, s)
  }

  // ----- what no step takes back

  /** Rows only accumulate, a run never returns to the queue, and a terminal row is final. */
  ghost predicate RunsKept(t: Tables, t': Tables) {
    && (forall c :: c in t.inbox ==> c in t'.inbox)
    && (forall r :: r in t.runs ==>
          && r in t'.runs
          && t'.runs[r].command == t.runs[r].command
          && t'.runs[r].operation == t.runs[r].operation
          && t'.runs[r].source == t.runs[r].source
          && t'.runs[r].claim == t.runs[r].claim
          && (t'.runs[r].status.Queued? ==> t.runs[r].status.Queued?)
          && (t.runs[r].status.Terminal() ==> t'.runs[r] == t.runs[r]))
  }

  /** A fact enqueued stays enqueued, and a settled row keeps the mark it was settled with. */
  ghost predicate OutboxKept(o: seq<OutboxRow>, o': seq<OutboxRow>) {
    && |o| <= |o'|
    && (forall i :: 0 <= i < |o| ==>
          && o'[i] == o[i].(delivery := o'[i].delivery)
          && (o[i].delivery.publishedAt.Some? ==> o'[i].delivery.publishedAt.Some?)
          && (o[i].delivery.deadLetteredAt.Some? ==> o'[i].delivery.deadLetteredAt.Some?))
  }

  ghost predicate TablesKept(t: Tables, t': Tables) {
    RunsKept(t, t') && OutboxKept(t.outbox, t'.outbox)
  }

  ghost predicate Kept(s: System, s': System) {
    && TablesKept(s.tables, s'.tables)
    && s.now <= s'.now
    && s.broker <= s'.broker
    && s.acked <= s'.acked
  }

  // ----- rows that do not change hands

  /** A new command brings a new run and leaves every other row alone. */
  lemma NewRunKeeps(t: Tables, t': Tables, r: RunId)
    requires RunTablesInv(t) && r !in t.runs && r in t'.runs
    requires t'.runs == t.runs[r := t'.runs[r]] && t'.runs[r].command !in t.inbox
    requires t'.inbox == t.inbox[t'.runs[r].command := r]
    requires t'.runs[r].source in t'.sources
    requires t'.sources == UpsertSource(t.sources, t'.runs[r].source, t'.sources[t'.runs[r].source])
    requires t'.sources[t'.runs[r].source].blobDigest
             == if t'.runs[r].source.address.BlobUrn? then Some(t'.runs[r].source.address.digest) else None
    requires t'.runs[r].claim.Some? <==> t'.runs[r].source.address.BlobUrn?
    requires RowConstraints(t'.runs[r])
    ensures RunTablesInv(t') && RunsKept(t, t')
  {
    NewRunInbox(t.inbox, t.runs, r, t'.runs[r]);
    NewRunSources(t.sources, t.runs, r, t'.runs[r], t'.sources[t'.runs[r].source]);
  }

  lemma NewRunInbox(inbox: map<CommandId, RunId>, runs: map<RunId, Run>, r: RunId, run: Run)
    requires InboxMatches(inbox, runs) && r !in runs && run.command !in inbox
    ensures InboxMatches(inbox[run.command := r], runs[r := run])
  {
  }

  lemma NewRunSources(sources: map<SourceKey, Source>, runs: map<RunId, Run>, r: RunId, run: Run, source: Source)
    requires SourcesMatch(sources, runs) && (run.claim.Some? <==> run.source.address.BlobUrn?)
    requires source.blobDigest == if run.source.address.BlobUrn? then Some(run.source.address.digest) else None
    ensures SourcesMatch(UpsertSource(sources, run.source, source), runs[r := run])
  {
  }

  /** One row changes its status and keeps what identifies it. */
  lemma RowUpdateKeeps(t: Tables, t': Tables, r: RunId)
    requires RunTablesInv(t) && r in t.runs && r in t'.runs
    requires t'.inbox == t.inbox && t'.sources == t.sources && t'.runs == t.runs[r := t'.runs[r]]
    requires t'.runs[r].command == t.runs[r].command && t'.runs[r].operation == t.runs[r].operation
    requires t'.runs[r].source == t.runs[r].source && t'.runs[r].claim == t.runs[r].claim
    requires !t'.runs[r].status.Queued? && !t.runs[r].status.Terminal()
    requires RowConstraints(t'.runs[r])
    ensures RunTablesInv(t') && RunsKept(t, t')
  {
  }

  /** Records of one run and its command change; those of every other run do not. */
  lemma RecordsOfOthersKept(t: Tables, t': Tables, r: RunId)
    requires InboxMatches(t.inbox, t.runs) && RecordsInv(t) && NoStrayRecords(t)
    requires r in t'.runs && t'.runs == t.runs[r := t'.runs[r]]
    requires t'.inbox.Keys == t.inbox.Keys + {t'.runs[r].command}
    requires r in t.runs ==> t'.runs[r].command == t.runs[r].command
    requires r !in t.runs ==> t'.runs[r].command !in t.inbox
    requires RecordsMatchStatus(t', r)
    requires forall c, tag :: c != t'.runs[r].command ==> CountRows(t'.outbox, c, tag) == CountRows(t.outbox, c, tag)
    requires forall r', kind :: r' != r ==> CountArtifacts(t'.artifacts, r', kind) == CountArtifacts(t.artifacts, r', kind)
    requires forall r' :: r' != r ==> CountSelected(t'.candidates, r') == CountSelected(t.candidates, r')
    ensures RecordsInv(t') && NoStrayRecords(t')
  {
    forall r' | r' in t'.runs ensures RecordsMatchStatus(t', r') {
      if r' != r {
        assert RecordsMatchStatus(t, r');
      }
    }
  }

  lemma OutboxAppended(o: seq<OutboxRow>, added: seq<OutboxRow>)
    requires EventsWellFormed(o) && MessagesUnique(o) && EventsWellFormed(added) && MessagesUnique(added)
    requires forall i, j :: 0 <= i < |o| && 0 <= j < |added| ==> o[i].message != added[j].message
    ensures EventsWellFormed(o + added) && MessagesUnique(o + added) && OutboxKept(o, o + added)
  {
  }

  // ----- each transaction keeps the run tables, the records and the outbox

  lemma CaptureRuns(cfg: Config, t: Tables, at: nat, m: Message, runId: RunId, id: MessageId)
    requires RunTablesInv(t)
    ensures var t' := ConsumeCapture(cfg, t, at, m, runId, id).tables; RunTablesInv(t') && RunsKept(t, t')
  {
    var t' := ConsumeCapture(cfg, t, at, m, runId, id).tables;
    if t' != t {
      NewRunKeeps(t, t', runId);
    }
  }

  lemma CaptureRecords(cfg: Config, t: Tables, at: nat, m: Message, runId: RunId, id: MessageId)
    requires InboxMatches(t.inbox, t.runs) && RecordsInv(t) && NoStrayRecords(t)
    ensures var t' := ConsumeCapture(cfg, t, at, m, runId, id).tables; RecordsInv(t') && NoStrayRecords(t')
  {
    var t' := ConsumeCapture(cfg, t, at, m, runId, id).tables;
    if t' != t {
      CountRowsAppend(t.outbox, t'.outbox[|t.outbox|]);
      assert t'.inbox.Keys == t.inbox.Keys + {t'.runs[runId].command};
      RecordsOfOthersKept(t, t', runId);
    }
  }

  lemma CaptureOutbox(cfg: Config, t: Tables, at: nat, m: Message, runId: RunId, id: MessageId)
    requires EventsWellFormed(t.outbox) && MessagesUnique(t.outbox)
    ensures var o := ConsumeCapture(cfg, t, at, m, runId, id).tables.outbox;
            EventsWellFormed(o) && MessagesUnique(o) && OutboxKept(t.outbox, o)
  {
    var t' := ConsumeCapture(cfg, t, at, m, runId, id).tables;
    if t' != t {
      OutboxAppended(t.outbox, [t'.outbox[|t.outbox|]]);
    }
  }

  lemma ConsumeCaptureKeeps(cfg: Config, t: Tables, at: nat, m: Message, runId: RunId, id: MessageId)
    requires TablesInv(t)
    ensures var t' := ConsumeCapture(cfg, t, at, m, runId, id).tables; TablesInv(t') && TablesKept(t, t')
  {
    CaptureRuns(cfg, t, at, m, runId, id);
    CaptureRecords(cfg, t, at, m, runId, id);
    CaptureOutbox(cfg, t, at, m, runId, id);
  }

  lemma ClaimRecords(t: Tables, now: nat, r: RunId, worker: string, lease: int)
    requires InboxMatches(t.inbox, t.runs) && RecordsInv(t) && NoStrayRecords(t)
    requires r in t.runs && Claimable(t.runs[r], now)
    ensures var t' := ClaimedTables(t, now, r, worker, lease); RecordsInv(t') && NoStrayRecords(t')
  {
    var t' := ClaimedTables(t, now, r, worker, lease);
    assert RecordsMatchStatus(t, r);
    assert t'.inbox.Keys == t.inbox.Keys + {t'.runs[r].command};
    RecordsOfOthersKept(t, t', r);
  }

  lemma ClaimKeeps(t: Tables, now: nat, r: RunId, worker: string, lease: int)
    requires TablesInv(t) && r in t.runs && Claimable(t.runs[r], now)
    ensures var t' := ClaimedTables(t, now, r, worker, lease); TablesInv(t') && TablesKept(t, t')
  {
    ClaimRecords(t, now, r, worker, lease);
    RowUpdateKeeps(t, ClaimedTables(t, now, r, worker, lease), r);
  }

  lemma FailRecords(t: Tables, at: nat, r: RunId, failureClass: string, retryable: bool, steps: seq<Step>, id: MessageId)
    requires InboxMatches(t.inbox, t.runs) && RecordsInv(t) && NoStrayRecords(t)
    ensures var t' := FailRun(t, at, r, failureClass, retryable, steps, id).tables; RecordsInv(t') && NoStrayRecords(t')
  {
    var t' := FailRun(t, at, r, failureClass, retryable, steps, id).tables;
    if t' != t {
      CountRowsAppend(t.outbox, t'.outbox[|t.outbox|]);
      assert RecordsMatchStatus(t, r);
      assert t'.inbox.Keys == t.inbox.Keys + {t'.runs[r].command};
      RecordsOfOthersKept(t, t', r);
    }
  }

  lemma FailRuns(t: Tables, at: nat, r: RunId, failureClass: string, retryable: bool, steps: seq<Step>, id: MessageId)
    requires RunTablesInv(t)
    ensures var t' := FailRun(t, at, r, failureClass, retryable, steps, id).tables; RunTablesInv(t') && RunsKept(t, t')
  {
    var t' := FailRun(t, at, r, failureClass, retryable, steps, id).tables;
    if t' != t {
      RowUpdateKeeps(t, t', r);
    }
  }

  lemma FailOutbox(t: Tables, at: nat, r: RunId, failureClass: string, retryable: bool, steps: seq<Step>, id: MessageId)
    requires EventsWellFormed(t.outbox) && MessagesUnique(t.outbox)
    ensures var o := FailRun(t, at, r, failureClass, retryable, steps, id).tables.outbox;
            EventsWellFormed(o) && MessagesUnique(o) && OutboxKept(t.outbox, o)
  {
    var t' := FailRun(t, at, r, failureClass, retryable, steps, id).tables;
    if t' != t {
      OutboxAppended(t.outbox, [t'.outbox[|t.outbox|]]);
    }
  }

  lemma FailRunKeeps(t: Tables, at: nat, r: RunId, failureClass: string, retryable: bool, steps: seq<Step>, id: MessageId)
    requires TablesInv(t)
    ensures var t' := FailRun(t, at, r, failureClass, retryable, steps, id).tables; TablesInv(t') && TablesKept(t, t')
  {
    FailRuns(t, at, r, failureClass, retryable, steps, id);
    FailRecords(t, at, r, failureClass, retryable, steps, id);
    FailOutbox(t, at, r, failureClass, retryable, steps, id);
  }

  lemma RejectRecords(t: Tables, at: nat, r: RunId, x: Rejection, id: MessageId)
    requires InboxMatches(t.inbox, t.runs) && RecordsInv(t) && NoStrayRecords(t)
    ensures var t' := RejectRun(t, at, r, x, id).tables; RecordsInv(t') && NoStrayRecords(t')
  {
    var t' := RejectRun(t, at, r, x, id).tables;
    if t' != t {
      CountRowsAppend(t.outbox, t'.outbox[|t.outbox|]);
      CountArtifactsAppend(t.artifacts, ArtifactRow(r, RawSource, x.rawBlob));
      CountSelectedAppend(t.candidates, r, x.candidates);
      assert RecordsMatchStatus(t, r);
      assert t'.inbox.Keys == t.inbox.Keys + {t'.runs[r].command};
      RecordsOfOthersKept(t, t', r);
    }
  }

  lemma RejectRuns(t: Tables, at: nat, r: RunId, x: Rejection, id: MessageId)
    requires RunTablesInv(t)
    ensures var t' := RejectRun(t, at, r, x, id).tables; RunTablesInv(t') && RunsKept(t, t')
  {
    var t' := RejectRun(t, at, r, x, id).tables;
    if t' != t {
      RowUpdateKeeps(t, t', r);
    }
  }

  lemma RejectOutbox(t: Tables, at: nat, r: RunId, x: Rejection, id: MessageId)
    requires EventsWellFormed(t.outbox) && MessagesUnique(t.outbox)
    ensures var o := RejectRun(t, at, r, x, id).tables.outbox;
            EventsWellFormed(o) && MessagesUnique(o) && OutboxKept(t.outbox, o)
  {
    var t' := RejectRun(t, at, r, x, id).tables;
    if t' != t {
      OutboxAppended(t.outbox, [t'.outbox[|t.outbox|]]);
    }
  }

  lemma RejectRunKeeps(t: Tables, at: nat, r: RunId, x: Rejection, id: MessageId)
    requires TablesInv(t)
    ensures var t' := RejectRun(t, at, r, x, id).tables; TablesInv(t') && TablesKept(t, t')
  {
    RejectRuns(t, at, r, x, id);
    RejectRecords(t, at, r, x, id);
    RejectOutbox(t, at, r, x, id);
  }

  lemma CompletionRowsCount(cfg: Config, rows: seq<OutboxRow>, run: Run, x: Success, limit: nat,
                            docId: MessageId, reportId: MessageId, at: nat)
    ensures var rows' := rows + CompletionRows(cfg, run, x, limit, docId, reportId, at);
            var fits := Ingested(cfg, x, limit);
            forall c, tag ::
              CountRows(rows', c, tag) == CountRows(rows, c, tag)
                + if c == run.command && (if fits then tag in {TagDocument, TagSucceeded} else tag == TagPartial)
                  then 1 else 0
  {
    var added := CompletionRows(cfg, run, x, limit, docId, reportId, at);
    CountRowsAppend(rows, added[0]);
    if Ingested(cfg, x, limit) {
      CountRowsAppend(rows + [added[0]], added[1]);
      assert rows + added == rows + [added[0]] + [added[1]];
    } else {
      assert added == [added[0]];
    }
  }

  /** What a completion records for its own run, and that it leaves every other run's counts alone. */
  lemma CompletionCounts(cfg: Config, t: Tables, at: nat, r: RunId, limit: nat, x: Success,
                         docId: MessageId, reportId: MessageId)
    requires IsRunning(t, r) && RecordsMatchStatus(t, r) && SelectedIn(x.candidates) == 1
    ensures var t' := SucceededTables(cfg, t, at, r, limit, x, docId, reportId);
            && RecordsMatchStatus(t', r)
            && (forall c, tag :: c != t.runs[r].command ==> CountRows(t'.outbox, c, tag) == CountRows(t.outbox, c, tag))
            && (forall r', kind :: r' != r ==> CountArtifacts(t'.artifacts, r', kind) == CountArtifacts(t.artifacts, r', kind))
            && (forall r' :: r' != r ==> CountSelected(t'.candidates, r') == CountSelected(t.candidates, r'))
  {
    CompletionRowsCount(cfg, t.outbox, t.runs[r], x, limit, docId, reportId, at);
    var raw := ArtifactRow(r, RawSource, x.rawBlob);
    CountArtifactsAppend(t.artifacts, raw);
    CountArtifactsAppend(t.artifacts + [raw], ArtifactRow(r, DocumentIr, x.irBlob));
    CountSelectedAppend(t.candidates, r, x.candidates);
  }

  lemma CompleteRecords(cfg: Config, t: Tables, at: nat, r: RunId, limit: nat, x: Success,
                        docId: MessageId, reportId: MessageId)
    requires InboxMatches(t.inbox, t.runs) && RecordsInv(t) && NoStrayRecords(t)
    ensures var t' := CompleteRun(cfg, t, at, r, limit, x, docId, reportId).tables; RecordsInv(t') && NoStrayRecords(t')
  {
    var t' := CompleteRun(cfg, t, at, r, limit, x, docId, reportId).tables;
    if t' != t {
      assert RecordsMatchStatus(t, r);
      CompletionCounts(cfg, t, at, r, limit, x, docId, reportId);
      assert t'.inbox.Keys == t.inbox.Keys + {t'.runs[r].command};
      RecordsOfOthersKept(t, t', r);
    }
  }

  lemma CompleteRuns(cfg: Config, t: Tables, at: nat, r: RunId, limit: nat, x: Success, docId: MessageId,
                     reportId: MessageId)
    requires RunTablesInv(t)
    ensures var t' := CompleteRun(cfg, t, at, r, limit, x, docId, reportId).tables; RunTablesInv(t') && RunsKept(t, t')
  {
    var t' := CompleteRun(cfg, t, at, r, limit, x, docId, reportId).tables;
    if t' != t {
      RowUpdateKeeps(t, t', r);
    }
  }

  lemma CompleteOutbox(cfg: Config, t: Tables, at: nat, r: RunId, limit: nat, x: Success, docId: MessageId,
                     reportId: MessageId)
    requires EventsWellFormed(t.outbox) && MessagesUnique(t.outbox)
    ensures var o := CompleteRun(cfg, t, at, r, limit, x, docId, reportId).tables.outbox;
            EventsWellFormed(o) && MessagesUnique(o) && OutboxKept(t.outbox, o)
  {
    var t' := CompleteRun(cfg, t, at, r, limit, x, docId, reportId).tables;
    if t' != t {
      OutboxAppended(t.outbox, CompletionRows(cfg, t.runs[r], x, limit, docId, reportId, at));
    }
  }

  lemma CompleteRunKeeps(cfg: Config, t: Tables, at: nat, r: RunId, limit: nat, x: Success, docId: MessageId,
                     reportId: MessageId)
    requires TablesInv(t)
    ensures var t' := CompleteRun(cfg, t, at, r, limit, x, docId, reportId).tables; TablesInv(t') && TablesKept(t, t')
  {
    CompleteRuns(cfg, t, at, r, limit, x, docId, reportId);
    CompleteRecords(cfg, t, at, r, limit, x, docId, reportId);
    CompleteOutbox(cfg, t, at, r, limit, x, docId, reportId);
  }

  lemma RecordKeeps(t: Tables, r: RunId, kind: ArtifactKind, blob: BlobRef, fetches: seq<FetchRow>)
    requires TablesInv(t) && r in t.runs && !kind.DocumentIr?
    ensures var t' := t.(fetches := t.fetches + fetches, artifacts := t.artifacts + [ArtifactRow(r, kind, blob)]);
            TablesInv(t') && TablesKept(t, t')
  {
    var t' := t.(fetches := t.fetches + fetches, artifacts := t.artifacts + [ArtifactRow(r, kind, blob)]);
    CountArtifactsAppend(t.artifacts, ArtifactRow(r, kind, blob));
    forall r' | r' in t'.runs ensures RecordsMatchStatus(t', r') {
      assert RecordsMatchStatus(t, r');
    }
  }

  /** The relay rewrites delivery columns and nothing else. */
  lemma DeliveryKeeps(t: Tables, outbox': seq<OutboxRow>)
    requires TablesInv(t) && SameFacts(t.outbox, outbox')
    ensures TablesInv(t.(outbox := outbox'))
  {
    var t' := t.(outbox := outbox');
    CountRowsSameFacts(t.outbox, outbox');
    forall r | r in t'.runs ensures RecordsMatchStatus(t', r) {
      assert RecordsMatchStatus(t, r);
    }
  }
}
