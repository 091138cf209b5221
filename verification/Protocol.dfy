/**
  The durable run and outbox protocol as a transition system.

  A state is the tables, the clock, the messages the broker accepted, the deliveries acknowledged,
  and what every worker and relay holds in memory. A schedule is any sequence of actions: an action
  that is not enabled changes nothing, so every schedule is an execution. Redeliveries, lease
  expiries with the old worker still running, rollbacks, lost answers, overlapping relays and
  crashes are all actions.
 */
module Protocol {
  import opened Wrappers
  import opened Numbers
  import opened Tables
  import opened Transactions

  const PAYLOAD_HEADROOM_BYTES: nat := 1024
  const OUTBOX_LEASE_SECONDS: nat := 30

  datatype Verdict = Acknowledged | TooLarge(limit: nat) | NotAcknowledged

  /** A relay pass in progress: rows still to attempt, and the row attempted but not yet marked. */
  datatype Relay = Attempting(todo: seq<nat>) | Marking(row: nat, verdict: Verdict, todo: seq<nat>)

  datatype System = System(
    now: nat, tables: Tables, workers: map<nat, QueuedRun>, relays: map<nat, Relay>,
    broker: set<MessageId>, acked: set<Message>, maxPayload: nat)

  datatype Action =
    | Tick(seconds: nat)
    | Deliver(message: Message, at: nat, runId: RunId, id: MessageId, io: Io, ackArrives: bool)
    | ClaimRun(worker: nat, locked: set<RunId>, run: RunId, lease: int, maxEventBytes: nat, io: Io)
    | CallFail(worker: nat, at: nat, failureClass: string, retryable: bool, steps: seq<Step>, id: MessageId, io: Io)
    | CallReject(worker: nat, at: nat, rejection: Rejection, id: MessageId, io: Io)
    | CallComplete(worker: nat, at: nat, success: Success, docId: MessageId, reportId: MessageId, io: Io)
    | CallRecordFetch(worker: nat, fetch: CompletedFetch, io: Io)
    | CallDiagnose(worker: nat, blob: BlobRef, io: Io)
    | LeaveWorker(worker: nat)
    | RelayClaim(relay: nat, rows: seq<nat>, io: Io)
    | RelayPublish(relay: nat, accepted: bool, acknowledged: bool)
    | RelayMark(relay: nat, io: Io)
    | RelayCrash(relay: nat)
    | SetMaxPayload(bytes: nat)

  function Init(maxPayload: nat): System {
    System(0, EMPTY, map[], map[], {}, {}, maxPayload)
  }

  // ----- the relay's row updates

  function Pow2(n: nat): nat { if n == 0 then 1 else 2 * Pow2(n - 1) }

  /** `least(300.0, power(2.0, least(attempts, 20)))` seconds. */
  function Backoff(attempts: nat): nat { Min(300, Pow2(Min(attempts, 20))) }

  lemma {:induction false} Pow2Positive(n: nat)
    ensures Pow2(n) >= 1
  {
    if n > 0 { Pow2Positive(n - 1); }
  }

  lemma BackoffBounds(attempts: nat)
    ensures 1 <= Backoff(attempts) <= 300
  {
    Pow2Positive(Min(attempts, 20));
  }

  predicate Due(d: Delivery, now: nat) {
    d.Unsettled() && d.nextAttemptAt <= now && (d.claimedUntil.None? || d.claimedUntil.value <= now)
  }

  predicate ClaimableRows(outbox: seq<OutboxRow>, rows: seq<nat>, now: nat) {
    && (forall k :: 0 <= k < |rows| ==> rows[k] < |outbox| && Due(outbox[rows[k]].delivery, now))
    && (forall j, k :: 0 <= j < k < |rows| ==> rows[j] != rows[k])
  }

  function LeaseRows(outbox: seq<OutboxRow>, rows: seq<nat>, now: nat): (leased: seq<OutboxRow>)
    ensures SameFacts(outbox, leased)
  {
    seq(|outbox|, i requires 0 <= i < |outbox| =>
      if i in rows
      then outbox[i].(delivery := outbox[i].delivery.(claimedUntil := Some(now + OUTBOX_LEASE_SECONDS)))
      else outbox[i])
  }

  /** `outbox_terminal_state_is_exclusive` refuses the update that would set both marks. */
  predicate MarkAllowed(d: Delivery, v: Verdict) {
    match v
    case Acknowledged => d.deadLetteredAt.None?
    case TooLarge(_) => d.publishedAt.None?
    case NotAcknowledged => true
  }

  function Mark(d: Delivery, v: Verdict, now: nat): Delivery {
    match v
    case Acknowledged => d.(publishedAt := Some(now), claimedUntil := None, lastError := None)
    case TooLarge(_) => d.(attempts := d.attempts + 1, lastError := Some("payload_too_large"),
                           claimedUntil := None, deadLetteredAt := Some(now))
    case NotAcknowledged => d.(attempts := d.attempts + 1, lastError := Some("publish_failed"),
                               claimedUntil := None, nextAttemptAt := now + Backoff(d.attempts))
  }

  function PayloadLimit(maxPayload: nat): nat {
    if maxPayload < PAYLOAD_HEADROOM_BYTES then 0 else maxPayload - PAYLOAD_HEADROOM_BYTES
  }

  /** What one publish answers: sized out before it is sent, or sent and acknowledged or not. */
  function PublishVerdict(bytes: nat, maxPayload: nat, accepted: bool, acknowledged: bool): Verdict {
    if bytes > PayloadLimit(maxPayload) then TooLarge(PayloadLimit(maxPayload))
    else if accepted && acknowledged then Acknowledged else NotAcknowledged
  }

  // ----- steps

  /** A delivery leaves the stream unless the answer was a database error. */
  predicate Acknowledges<T>(answer: Result<T, ConsumeError>) { answer != Err(Database) }

  function ApplyDeliver(cfg: Config, s: System, a: Action): System
    requires a.Deliver?
  {
    var done := Finish(a.io, s.tables, ConsumeCapture(cfg, s.tables, a.at, a.message, a.runId, a.id));
    s.(tables := done.tables,
       acked := if Acknowledges(done.answer) && a.ackArrives then s.acked + {a.message} else s.acked)
  }

  function ApplyClaimRun(s: System, a: Action): System
    requires a.ClaimRun?
  {
    if !NextRun(s.tables, s.now, a.locked, a.run) || s.tables.runs[a.run].source !in s.tables.sources then s
    else
      match a.io
      case RollsBack => s
      case CommitsSilently => s.(tables := ClaimedTables(s.tables, s.now, a.run, "extractor", a.lease))
      case Commits =>
        var t := ClaimedTables(s.tables, s.now, a.run, "extractor", a.lease);
        s.(tables := t, workers := s.workers[a.worker := QueuedRunOf(t, a.run, a.maxEventBytes)])
  }

  /** The call a worker makes on the run it holds, and its answer. */
  function WorkerCall(cfg: Config, t: Tables, held: QueuedRun, a: Action): Attempt<Completion>
    requires IsTerminalCall(a)
  {
    match a
    case CallFail(_, at, failureClass, retryable, steps, id, io) =>
      Finish(io, t, FailRun(t, at, held.runId, failureClass, retryable, steps, id))
    case CallReject(_, at, x, id, io) =>
      Finish(io, t, RejectRun(t, at, held.runId, x, id))
    case CallComplete(_, at, x, docId, reportId, io) =>
      Finish(io, t, CompleteRun(cfg, t, at, held.runId, held.maxEventBytes, x, docId, reportId))
  }

  function ApplyRelay(cfg: Config, s: System, a: Action): System
    requires IsRelayStep(a)
  {
    match a
    case RelayClaim(relay, rows, io) =>
      if relay in s.relays || !ClaimableRows(s.tables.outbox, rows, s.now) || io.RollsBack? then s
      else
        var t := s.tables.(outbox := LeaseRows(s.tables.outbox, rows, s.now));
        if io.Commits? then s.(tables := t, relays := s.relays[relay := Attempting(rows)]) else s.(tables := t)
    case RelayPublish(relay, accepted, acknowledged) =>
      if relay !in s.relays || !s.relays[relay].Attempting? then s
      else if s.relays[relay].todo == [] then s.(relays := s.relays - {relay})
      else
        var i := s.relays[relay].todo[0];
        if i >= |s.tables.outbox| then s
        else
          var row := s.tables.outbox[i];
          var verdict := PublishVerdict(cfg.eventBytes(row.event), s.maxPayload, accepted, acknowledged);
          s.(broker := if !verdict.TooLarge? && accepted then s.broker + {row.message} else s.broker,
             relays := s.relays[relay := Marking(i, verdict, s.relays[relay].todo[1..])])
    case RelayMark(relay, io) =>
      if relay !in s.relays || !s.relays[relay].Marking? then s
      else
        var work := s.relays[relay];
        if work.row >= |s.tables.outbox| then s
        else
          var row := s.tables.outbox[work.row];
          if io.RollsBack? || !MarkAllowed(row.delivery, work.verdict) then s.(relays := s.relays - {relay})
          else
            var t := s.tables.(outbox := s.tables.outbox[work.row := row.(delivery := Mark(row.delivery, work.verdict, s.now))]);
            if io.Commits?
            then s.(tables := t, relays := s.relays[relay := Attempting(work.todo)])
            else s.(tables := t, relays := s.relays - {relay})
    case RelayCrash(relay) => s.(relays := s.relays - {relay})
  }

  predicate IsTerminalCall(a: Action) { a.CallFail? || a.CallReject? || a.CallComplete? }

  predicate IsWorkerCall(a: Action) { IsTerminalCall(a) || a.CallRecordFetch? || a.CallDiagnose? }

  predicate IsRelayStep(a: Action) { a.RelayClaim? || a.RelayPublish? || a.RelayMark? || a.RelayCrash? }

  function CalledTables(cfg: Config, t: Tables, held: QueuedRun, a: Action): Tables
    requires IsWorkerCall(a)
  {
    match a
    case CallRecordFetch(_, f, io) => Finish(io, t, RecordFetch(t, held.runId, f)).tables
    case CallDiagnose(_, blob, io) => Finish(io, t, RecordDiagnostics(t, held.runId, blob)).tables
    case _ => WorkerCall(cfg, t, held, a).tables
  }

  function ApplyCall(cfg: Config, s: System, a: Action): System
    requires IsWorkerCall(a)
  {
    if a.worker in s.workers then s.(tables := CalledTables(cfg, s.tables, s.workers[a.worker], a)) else s
  }

  function ApplyEnvironment(s: System, a: Action): System
    requires a.Tick? || a.LeaveWorker? || a.SetMaxPayload?
  {
    match a
    case Tick(seconds) => s.(now := s.now + seconds)
    case LeaveWorker(w) => s.(workers := s.workers - {w})
    case SetMaxPayload(bytes) => s.(maxPayload := bytes)
  }

  function Apply(cfg: Config, s: System, a: Action): System {
    if a.Deliver? then ApplyDeliver(cfg, s, a)
    else if a.ClaimRun? then ApplyClaimRun(s, a)
    else if IsWorkerCall(a) then ApplyCall(cfg, s, a)
    else if IsRelayStep(a) then ApplyRelay(cfg, s, a)
    else ApplyEnvironment(s, a)
  }

  /** The state a schedule leads to. */
  function Execute(cfg: Config, s: System, schedule: seq<Action>): System
    decreases |schedule|
  {
    if schedule == [] then s
    else Apply(cfg, Execute(cfg, s, schedule[..|schedule| - 1]), schedule[|schedule| - 1])
  }

  lemma {:induction false} ExecuteConcat(cfg: Config, s: System, a: seq<Action>, b: seq<Action>)
    ensures Execute(cfg, s, a + b) == Execute(cfg, Execute(cfg, s, a), b)
    decreases |b|
  {
    if b == [] {
      assert a + b == a;
    } else {
      assert (a + b)[..|a + b| - 1] == a + b[..|b| - 1];
      ExecuteConcat(cfg, s, a, b[..|b| - 1]);
    }
  }
}
