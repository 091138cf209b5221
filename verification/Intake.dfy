/** The capture intake on the message's own fields: what is accepted, how each defect is refused, and what a run carries. */
module Intake {
  import opened Wrappers
  import opened Numbers
  import opened Tables
  import opened Transactions
  import opened Protocol
  import opened RunSafety
  import opened RunTheorems

  // ----- the fields of a message, in the order they are judged

  datatype Field = Subject | EnvelopeJson | CommandType | Producer | Tenant | Payload | Aggregate | OneSource | SourceKind

  function Order(f: Field): nat {
    match f
    case Subject => 0
    case EnvelopeJson => 1
    case CommandType => 2
    case Producer => 3
    case Tenant => 4
    case Payload => 5
    case Aggregate => 6
    case OneSource => 7
    case SourceKind => 8
  }

  predicate HasRequest(m: Message) { m.envelope.Some? && m.envelope.value.request.Some? }

  predicate Fits(cfg: Config, m: Message, f: Field) {
    match f
    case Subject => m.subject == "cmd.content.capture.requested.v1"
    case EnvelopeJson => m.envelope.Some?
    case CommandType => m.envelope.Some? && m.envelope.value.commandType == "content.capture.requested.v1"
    case Producer => m.envelope.Some? && m.envelope.value.producer in {"ratatoskr-platform", "ratatoskr-x"}
    case Tenant => m.envelope.Some? && m.envelope.value.tenant.Some?
    case Payload => HasRequest(m)
    case Aggregate => HasRequest(m) && m.envelope.value.aggregate == m.envelope.value.request.value.operation
    case OneSource => HasRequest(m) && (m.envelope.value.request.value.url.Some? <==> m.envelope.value.request.value.blob.None?)
    case SourceKind =>
      HasRequest(m)
      && (m.envelope.value.request.value.url.Some? ==> cfg.isHttp(m.envelope.value.request.value.url.value))
      && (m.envelope.value.request.value.blob.Some? ==> m.envelope.value.request.value.blob.value.algorithm.Sha256?)
  }

  function ErrorOf(m: Message, f: Field): ConsumeError {
    match f
    case Subject => InvalidSubject
    case EnvelopeJson => MalformedCommand
    case CommandType => InvalidCommandType
    case Producer => ForeignProducer
    case Tenant => MissingTenant
    case Payload => MalformedCommand
    case Aggregate => AggregateMismatch
    case OneSource => InvalidPayload
    case SourceKind => if HasRequest(m) && m.envelope.value.request.value.url.Some? then InvalidUrlScheme else InvalidArtifact
  }

  predicate AllFit(cfg: Config, m: Message) { forall f: Field :: Fits(cfg, m, f) }

  predicate FirstMisfit(cfg: Config, m: Message, f: Field) {
    !Fits(cfg, m, f) && forall g: Field :: Order(g) < Order(f) ==> Fits(cfg, m, g)
  }

  /** The command names its envelope's id, operation and tenant, and the one source of its request. */
  predicate CommandOf(m: Message, c: CaptureCommand)
    requires HasRequest(m)
  {
    var e := m.envelope.value;
    var request := e.request.value;
    && c.commandId == e.commandId && c.operation == request.operation && e.tenant == Some(c.owner)
    && match c.source
       case CaptureUrl(url) => request.url == Some(url) && request.blob.None?
       case CaptureBlob(blob) => request.blob == Some(blob) && request.url.None?
  }

  /** A message decodes exactly when all its fields fit, and to the command its fields name. */
  lemma DecodesExactly(cfg: Config, m: Message)
    ensures DecodeCapture(cfg, m).Ok? <==> AllFit(cfg, m)
    ensures DecodeCapture(cfg, m).Ok? ==> HasRequest(m) && CommandOf(m, DecodeCapture(cfg, m).value)
  {
    var fields := [Subject, EnvelopeJson, CommandType, Producer, Tenant, Payload, Aggregate, OneSource, SourceKind];
    assert forall f: Field :: f == fields[Order(f)];
    if DecodeCapture(cfg, m).Ok? {
      forall f: Field ensures Fits(cfg, m, f) { }
    }
    if AllFit(cfg, m) {
      assert Fits(cfg, m, Subject) && Fits(cfg, m, EnvelopeJson) && Fits(cfg, m, CommandType) && Fits(cfg, m, Producer);
      assert Fits(cfg, m, Tenant) && Fits(cfg, m, Payload) && Fits(cfg, m, Aggregate);
      assert Fits(cfg, m, OneSource) && Fits(cfg, m, SourceKind);
    }
  }

  /** A message is refused with the error of its first field that does not fit. */
  lemma RefusedAtFirstMisfit(cfg: Config, m: Message, f: Field)
    requires FirstMisfit(cfg, m, f)
    ensures DecodeCapture(cfg, m) == Err(ErrorOf(m, f))
  {
    assert Order(Subject) < Order(f) ==> Fits(cfg, m, Subject);
    assert Order(EnvelopeJson) < Order(f) ==> Fits(cfg, m, EnvelopeJson);
    assert Order(CommandType) < Order(f) ==> Fits(cfg, m, CommandType);
    assert Order(Producer) < Order(f) ==> Fits(cfg, m, Producer);
    assert Order(Tenant) < Order(f) ==> Fits(cfg, m, Tenant);
    assert Order(Payload) < Order(f) ==> Fits(cfg, m, Payload);
    assert Order(Aggregate) < Order(f) ==> Fits(cfg, m, Aggregate);
    assert Order(OneSource) < Order(f) ==> Fits(cfg, m, OneSource);
  }

  // ----- what a run carries of the message that queued it

  /** The source a run reads: the normalized address, or the blob's digest with its own claim. */
  predicate SourceOf(cfg: Config, request: Request, address: Address, claim: Option<BlobClaim>) {
    || (request.url.Some? && cfg.normalize(request.url.value).Some?
        && address == Web(cfg.normalize(request.url.value).value) && claim.None?)
    || (request.blob.Some? && request.blob.value.length <= I64_MAX && address == BlobUrn(request.blob.value.digest)
        && claim == Some(BlobClaim(request.blob.value.ownerService, request.blob.value.mediaType, request.blob.value.length)))
  }

  predicate QueuedBy(cfg: Config, m: Message, run: Run) {
    && AllFit(cfg, m) && HasRequest(m)
    && run.command == m.envelope.value.commandId && run.operation == m.envelope.value.request.value.operation
    && m.envelope.value.tenant == Some(run.source.owner)
    && SourceOf(cfg, m.envelope.value.request.value, run.source.address, run.claim)
  }

  lemma RequestedIsQueuedBy(cfg: Config, a: Action, run: Run)
    requires RequestedBy(cfg, a, run)
    ensures QueuedBy(cfg, a.message, run)
  {
    DecodesExactly(cfg, a.message);
  }

  /** Every run of every reachable state was queued by a delivered message whose fields all fit, and carries them. */
  lemma EveryRunIsWellFormed(cfg: Config, maxPayload: nat, schedule: seq<Action>, r: RunId) returns (i: nat)
    requires r in Execute(cfg, Init(maxPayload), schedule).tables.runs
    ensures i < |schedule| && schedule[i].Deliver?
            && QueuedBy(cfg, schedule[i].message, Execute(cfg, Init(maxPayload), schedule).tables.runs[r])
  {
    EveryRunIsRequested(cfg, maxPayload, schedule, r);
    var run := Execute(cfg, Init(maxPayload), schedule).tables.runs[r];
    i :| 0 <= i < |schedule| && RequestedBy(cfg, schedule[i], run);
    RequestedIsQueuedBy(cfg, schedule[i], run);
  }

  /** The request names something that can be queued: an address that normalizes, or a blob of 63-bit length. */
  predicate Queueable(cfg: Config, request: Request) {
    && (request.url.Some? ==> cfg.normalize(request.url.value).Some?)
    && (request.blob.Some? ==> request.blob.value.length <= I64_MAX)
  }

  /**
    The converse: a message whose fields fit and whose source can be queued is applied when it is
    new and its identifiers are fresh, and answered as a duplicate when its command is known.
   */
  lemma WellFormedIsApplied(cfg: Config, t: Tables, at: nat, m: Message, runId: RunId, id: MessageId)
    requires AllFit(cfg, m) && HasRequest(m) && Queueable(cfg, m.envelope.value.request.value)
    requires runId !in t.runs && FreshMessage(t, id)
    ensures var done := ConsumeCapture(cfg, t, at, m, runId, id);
            var c := m.envelope.value.commandId;
            if c in t.inbox then done == Attempt(t, Ok(ReceptionDuplicate))
            else && done.answer == Ok(ReceptionApplied)
                 && done.tables.inbox == t.inbox[c := runId] && done.tables.runs.Keys == t.runs.Keys + {runId}
                 && QueuedBy(cfg, m, done.tables.runs[runId])
                 && done.tables.runs[runId].status.Queued? && done.tables.runs[runId].queuedAt == at
                 && done.tables.outbox == t.outbox + [OutboxRow(id, c, m.envelope.value.request.value.operation, ReportedQueued, at,
                                                               Delivery(at, 0, None, None, None, None))]
  {
    DecodesExactly(cfg, m);
    assert Fits(cfg, m, OneSource);
  }

  /**
    With fresh identifiers and an acknowledgement that arrives, a delivery leaves the stream exactly
    when no redelivery could change anything: its message is malformed, or its transaction committed.
   */
  lemma AcknowledgedExactly(cfg: Config, s: System, a: Action)
    requires a.Deliver? && a.ackArrives && a.message !in s.acked && a.runId !in s.tables.runs && FreshMessage(s.tables, a.id)
    ensures a.message in Apply(cfg, s, a).acked <==> !AllFit(cfg, a.message) || a.io.Commits?
    ensures !AllFit(cfg, a.message) || a.io.RollsBack? ==> Apply(cfg, s, a).tables == s.tables
  {
    DecodesExactly(cfg, a.message);
    NeverDatabase(cfg, s.tables, a.at, a.message, a.runId, a.id);
  }

  lemma NeverDatabase(cfg: Config, t: Tables, at: nat, m: Message, runId: RunId, id: MessageId)
    requires runId !in t.runs && FreshMessage(t, id)
    ensures ConsumeCapture(cfg, t, at, m, runId, id).answer != Err(Database)
    ensures ConsumeCapture(cfg, t, at, m, runId, id).began <==> DecodeCapture(cfg, m).Ok?
  {
  }

  // ----- the classification that routes a run

  function ClassOf(cfg: Config, address: Address): string {
    match address
    case Web(url) => cfg.classify(url)
    case BlobUrn(_) => "blob"
  }

  predicate SourcesClassified(cfg: Config, sources: map<SourceKey, Source>) {
    forall k :: k in sources ==> sources[k].classification == ClassOf(cfg, k.address)
  }

  predicate ClassInv(cfg: Config, s: System) {
    && SourcesClassified(cfg, s.tables.sources)
    && forall w :: w in s.workers ==> s.workers[w].classification == ClassOf(cfg, s.workers[w].url)
  }

  lemma IntakeClassified(cfg: Config, t: Tables, at: nat, m: Message, runId: RunId, id: MessageId)
    requires SourcesClassified(cfg, t.sources)
    ensures SourcesClassified(cfg, ConsumeCapture(cfg, t, at, m, runId, id).tables.sources)
  {
  }

  lemma OtherStepsKeepSources(cfg: Config, s: System, a: Action)
    requires !a.Deliver?
    ensures Apply(cfg, s, a).tables.sources == s.tables.sources
    ensures !a.ClaimRun? && !a.LeaveWorker? ==> Apply(cfg, s, a).workers == s.workers
  {
    if IsWorkerCall(a) && a.worker in s.workers {
      CallKeepsSources(cfg, s.tables, s.workers[a.worker], a);
    }
  }

  lemma CallKeepsSources(cfg: Config, t: Tables, held: QueuedRun, a: Action)
    requires IsWorkerCall(a)
    ensures CalledTables(cfg, t, held, a).sources == t.sources
  {
  }

  lemma ClassStep(cfg: Config, s: System, a: Action)
    requires ClassInv(cfg, s)
    ensures ClassInv(cfg, Apply(cfg, s, a))
  {
    if a.Deliver? {
      IntakeClassified(cfg, s.tables, a.at, a.message, a.runId, a.id);
    } else {
      OtherStepsKeepSources(cfg, s, a);
    }
  }

  lemma {:induction false} ReachableClassInv(cfg: Config, maxPayload: nat, schedule: seq<Action>)
    ensures ClassInv(cfg, Execute(cfg, Init(maxPayload), schedule))
    decreases |schedule|
  {
    if schedule != [] {
      ReachableClassInv(cfg, maxPayload, schedule[..|schedule| - 1]);
      ClassStep(cfg, Execute(cfg, Init(maxPayload), schedule[..|schedule| - 1]), schedule[|schedule| - 1]);
    }
  }

  /**
    What routes a claimed run is the class of its own address, or "blob", whichever command first
    stored the source row it shares.
   */
  lemma HeldRouteIsOwn(cfg: Config, maxPayload: nat, schedule: seq<Action>, w: nat)
    requires w in Execute(cfg, Init(maxPayload), schedule).workers
    ensures var held := Execute(cfg, Init(maxPayload), schedule).workers[w];
            held.classification == (match held.url case Web(url) => cfg.classify(url) case BlobUrn(_) => "blob")
  {
    ReachableClassInv(cfg, maxPayload, schedule);
  }

  /** Step `k` is the claim that handed worker `w` the run it holds, next in the queue, with the claim's own event limit. */
  predicate HandedAt(cfg: Config, maxPayload: nat, schedule: seq<Action>, w: nat, held: QueuedRun, k: nat) {
    && k < |schedule| && schedule[k].ClaimRun? && schedule[k].worker == w && schedule[k].io.Commits?
    && schedule[k].run == held.runId && schedule[k].maxEventBytes == held.maxEventBytes
    && var s := Before(cfg, Init(maxPayload), schedule, k); NextRun(s.tables, s.now, schedule[k].locked, held.runId)
  }

  lemma HandedLater(cfg: Config, maxPayload: nat, schedule: seq<Action>, a: Action, w: nat, held: QueuedRun, k: nat)
    requires HandedAt(cfg, maxPayload, schedule, w, held, k)
    ensures HandedAt(cfg, maxPayload, schedule + [a], w, held, k)
  {
    assert (schedule + [a])[..k] == schedule[..k] && (schedule + [a])[k] == schedule[k];
  }

  lemma HandedStep(cfg: Config, s: System, a: Action, w: nat)
    requires w in Apply(cfg, s, a).workers && !(w in s.workers && s.workers[w] == Apply(cfg, s, a).workers[w])
    ensures a.ClaimRun? && a.worker == w && a.io.Commits? && NextRun(s.tables, s.now, a.locked, a.run)
    ensures Apply(cfg, s, a).workers[w].runId == a.run && Apply(cfg, s, a).workers[w].maxEventBytes == a.maxEventBytes
  {
    if !a.Deliver? { OtherStepsKeepSources(cfg, s, a); }
  }

  /** Over every schedule, a worker holds the run and the event limit of a claim it made, of a run that was next then. */
  lemma {:induction false} HeldByClaim(cfg: Config, maxPayload: nat, schedule: seq<Action>, w: nat) returns (k: nat)
    requires w in Execute(cfg, Init(maxPayload), schedule).workers
    ensures HandedAt(cfg, maxPayload, schedule, w, Execute(cfg, Init(maxPayload), schedule).workers[w], k)
    decreases |schedule|
  {
    assert schedule != [];
    var init, a := schedule[..|schedule| - 1], schedule[|schedule| - 1];
    var s := Execute(cfg, Init(maxPayload), init);
    var held := Apply(cfg, s, a).workers[w];
    assert schedule == init + [a];
    if w in s.workers && s.workers[w] == held {
      k := HeldByClaim(cfg, maxPayload, init, w);
      HandedLater(cfg, maxPayload, init, a, w, held, k);
    } else {
      k := |init|;
      HandedStep(cfg, s, a, w);
      assert schedule[..k] == init;
    }
  }
}
