/**
  The outbox relay over every schedule of overlapping relays, lost acknowledgements and crashes
  between the broker's acceptance and the row update.
 */
module RelaySafety {
  import opened Wrappers
  import opened Tables
  import opened Transactions
  import opened Protocol
  import opened RunSafety
  import opened RunTheorems

  ghost predicate Enqueued(outbox: seq<OutboxRow>, m: MessageId) {
    exists i :: 0 <= i < |outbox| && outbox[i].message == m
  }

  /** What a row's marks promise about the broker. */
  predicate MarksHonest(row: OutboxRow, broker: set<MessageId>) {
    && (row.delivery.publishedAt.Some? ==> row.message in broker)
    && (row.delivery.publishedAt.None? || row.delivery.deadLetteredAt.None?)
  }

  /** What a relay remembers is still true of the row it is about to mark. */
  predicate VerdictHonest(outbox: seq<OutboxRow>, broker: set<MessageId>, work: Relay) {
    && (forall k :: 0 <= k < |work.todo| ==> work.todo[k] < |outbox|)
    && (work.Marking? ==> work.row < |outbox|)
    && (work.Marking? && work.verdict.Acknowledged? ==> outbox[work.row].message in broker)
  }

  ghost predicate RelayInv(s: System) {
    && (forall m :: m in s.broker ==> Enqueued(s.tables.outbox, m))
    && (forall i :: 0 <= i < |s.tables.outbox| ==> MarksHonest(s.tables.outbox[i], s.broker))
    && (forall relay :: relay in s.relays ==> VerdictHonest(s.tables.outbox, s.broker, s.relays[relay]))
  }

  // ----- under a fixed broker limit, size alone decides what can be dead-lettered

  predicate MarksMatchSize(cfg: Config, limit: nat, row: OutboxRow) {
    && (row.delivery.deadLetteredAt.Some? ==> cfg.eventBytes(row.event) > limit)
    && (row.delivery.publishedAt.Some? ==> cfg.eventBytes(row.event) <= limit)
  }

  predicate VerdictMatchesSize(cfg: Config, limit: nat, outbox: seq<OutboxRow>, work: Relay) {
    work.Marking? ==>
      && work.row < |outbox|
      && (work.verdict.TooLarge? ==> cfg.eventBytes(outbox[work.row].event) > limit)
      && (work.verdict.Acknowledged? ==> cfg.eventBytes(outbox[work.row].event) <= limit)
  }

  ghost predicate SizeInv(cfg: Config, maxPayload: nat, s: System) {
    var limit := PayloadLimit(maxPayload);
    && s.maxPayload == maxPayload
    && (forall i :: 0 <= i < |s.tables.outbox| ==> MarksMatchSize(cfg, limit, s.tables.outbox[i]))
    && (forall relay :: relay in s.relays ==> VerdictMatchesSize(cfg, limit, s.tables.outbox, s.relays[relay]))
  }

  // ----- steps of the run protocol only append unsettled rows

  /** Every row past the old end is new: nothing published, nothing given up, nothing attempted. */
  predicate AppendsNew(o: seq<OutboxRow>, o': seq<OutboxRow>) {
    && |o| <= |o'|
    && (forall i :: 0 <= i < |o| ==> o'[i] == o[i])
    && (forall i :: |o| <= i < |o'| ==> o'[i].delivery.Unsettled() && o'[i].delivery.attempts == 0)
  }

  lemma DeliverAppends(cfg: Config, s: System, a: Action)
    requires a.Deliver?
    ensures var s' := ApplyDeliver(cfg, s, a);
            && AppendsNew(s.tables.outbox, s'.tables.outbox)
            && s'.relays == s.relays && s'.broker == s.broker && s'.maxPayload == s.maxPayload
  {
  }

  lemma CompleteAppends(cfg: Config, t: Tables, held: QueuedRun, a: Action)
    requires a.CallComplete?
    ensures AppendsNew(t.outbox, WorkerCall(cfg, t, held, a).tables.outbox)
  {
  }

  lemma WorkerCallAppends(cfg: Config, t: Tables, held: QueuedRun, a: Action)
    requires IsTerminalCall(a)
    ensures AppendsNew(t.outbox, WorkerCall(cfg, t, held, a).tables.outbox)
  {
    if a.CallComplete? {
      CompleteAppends(cfg, t, held, a);
    }
  }

  lemma OtherStepAppends(cfg: Config, s: System, a: Action)
    requires !IsRelayStep(a)
    ensures var s' := Apply(cfg, s, a);
            && AppendsNew(s.tables.outbox, s'.tables.outbox)
            && s'.relays == s.relays && s'.broker == s.broker
            && (!a.SetMaxPayload? ==> s'.maxPayload == s.maxPayload)
  {
    if a.Deliver? {
      DeliverAppends(cfg, s, a);
    } else if IsTerminalCall(a) && a.worker in s.workers {
      WorkerCallAppends(cfg, s.tables, s.workers[a.worker], a);
    }
  }

  lemma AppendKeepsRelayInv(s: System, s': System)
    requires RelayInv(s) && AppendsNew(s.tables.outbox, s'.tables.outbox)
    requires s'.relays == s.relays && s'.broker == s.broker
    ensures RelayInv(s')
  {
    forall m | m in s'.broker ensures Enqueued(s'.tables.outbox, m) {
      assert Enqueued(s.tables.outbox, m);
      var i :| 0 <= i < |s.tables.outbox| && s.tables.outbox[i].message == m;
      assert s'.tables.outbox[i].message == m;
    }
  }

  // ----- steps of the relay

  lemma ClaimKeepsRelayInv(s: System, cfg: Config, a: Action)
    requires RelayInv(s) && a.RelayClaim?
    ensures RelayInv(ApplyRelay(cfg, s, a))
  {
    EnqueuedKept(cfg, s, a);
  }

  lemma EnqueuedKept(cfg: Config, s: System, a: Action)
    requires IsRelayStep(a)
    ensures forall m :: Enqueued(s.tables.outbox, m) ==> Enqueued(ApplyRelay(cfg, s, a).tables.outbox, m)
  {
    var s' := ApplyRelay(cfg, s, a);
    RelayFacts(cfg, s, a);
    forall m | Enqueued(s.tables.outbox, m) ensures Enqueued(s'.tables.outbox, m) {
      var i :| 0 <= i < |s.tables.outbox| && s.tables.outbox[i].message == m;
      assert s'.tables.outbox[i].message == m;
    }
  }

  lemma PublishKeepsRelayInv(cfg: Config, s: System, a: Action)
    requires RelayInv(s) && a.RelayPublish?
    ensures RelayInv(ApplyRelay(cfg, s, a))
  {
    var s' := ApplyRelay(cfg, s, a);
    EnqueuedKept(cfg, s, a);
    if a.relay in s.relays && s.relays[a.relay].Attempting? && s.relays[a.relay].todo != [] {
      var i := s.relays[a.relay].todo[0];
      assert Enqueued(s.tables.outbox, s.tables.outbox[i].message);
    }
  }

  /** A mark the constraint admits keeps a row honest. */
  lemma MarkedRowHonest(row: OutboxRow, v: Verdict, now: nat, broker: set<MessageId>)
    requires MarksHonest(row, broker) && MarkAllowed(row.delivery, v)
    requires v.Acknowledged? ==> row.message in broker
    ensures MarksHonest(row.(delivery := Mark(row.delivery, v, now)), broker)
  {
  }

  lemma MarkKeepsRelayInv(cfg: Config, s: System, a: Action)
    requires RelayInv(s) && a.RelayMark?
    ensures RelayInv(ApplyRelay(cfg, s, a))
  {
    EnqueuedKept(cfg, s, a);
    RelayFacts(cfg, s, a);
    if a.relay in s.relays && s.relays[a.relay].Marking? {
      var work := s.relays[a.relay];
      var row := s.tables.outbox[work.row];
      if MarkAllowed(row.delivery, work.verdict) {
        MarkedRowHonest(row, work.verdict, s.now, s.broker);
      }
    }
  }

  lemma RelayStepKeepsRelayInv(cfg: Config, s: System, a: Action)
    requires RelayInv(s) && IsRelayStep(a)
    ensures RelayInv(ApplyRelay(cfg, s, a))
  {
    match a
    case RelayClaim(_, _, _) => ClaimKeepsRelayInv(s, cfg, a);
    case RelayPublish(_, _, _) => PublishKeepsRelayInv(cfg, s, a);
    case RelayMark(_, _) => MarkKeepsRelayInv(cfg, s, a);
    case RelayCrash(_) =>
  }

  lemma RelayStepKeepsSizeInv(cfg: Config, maxPayload: nat, s: System, a: Action)
    requires SizeInv(cfg, maxPayload, s) && IsRelayStep(a)
    ensures SizeInv(cfg, maxPayload, ApplyRelay(cfg, s, a))
  {
    RelayFacts(cfg, s, a);
    if a.RelayMark? {
      MarkKeepsSizeInv(cfg, maxPayload, s, a);
    }
  }

  lemma MarkKeepsSizeInv(cfg: Config, maxPayload: nat, s: System, a: Action)
    requires SizeInv(cfg, maxPayload, s) && a.RelayMark?
    ensures SizeInv(cfg, maxPayload, ApplyRelay(cfg, s, a))
  {
  }

  lemma {:induction false} ReachableRelayInv(cfg: Config, maxPayload: nat, schedule: seq<Action>)
    ensures RelayInv(Execute(cfg, Init(maxPayload), schedule))
    decreases |schedule|
  {
    if schedule != [] {
      var init, a := schedule[..|schedule| - 1], schedule[|schedule| - 1];
      ReachableRelayInv(cfg, maxPayload, init);
      var s := Execute(cfg, Init(maxPayload), init);
      if IsRelayStep(a) {
        RelayStepKeepsRelayInv(cfg, s, a);
      } else {
        OtherStepAppends(cfg, s, a);
        AppendKeepsRelayInv(s, Apply(cfg, s, a));
      }
    }
  }

  /** The broker's limit is the one the connection announced, for the whole schedule. */
  predicate FixedLimit(schedule: seq<Action>) {
    forall i :: 0 <= i < |schedule| ==> !schedule[i].SetMaxPayload?
  }

  lemma {:induction false} ReachableSizeInv(cfg: Config, maxPayload: nat, schedule: seq<Action>)
    requires FixedLimit(schedule)
    ensures SizeInv(cfg, maxPayload, Execute(cfg, Init(maxPayload), schedule))
    decreases |schedule|
  {
    if schedule != [] {
      var init, a := schedule[..|schedule| - 1], schedule[|schedule| - 1];
      ReachableSizeInv(cfg, maxPayload, init);
      var s := Execute(cfg, Init(maxPayload), init);
      if IsRelayStep(a) {
        RelayStepKeepsSizeInv(cfg, maxPayload, s, a);
      } else {
        OtherStepAppends(cfg, s, a);
        AppendKeepsSizeInv(cfg, maxPayload, s, Apply(cfg, s, a));
      }
    }
  }

  lemma AppendKeepsSizeInv(cfg: Config, maxPayload: nat, s: System, s': System)
    requires SizeInv(cfg, maxPayload, s) && AppendsNew(s.tables.outbox, s'.tables.outbox)
    requires s'.relays == s.relays && s'.maxPayload == s.maxPayload
    ensures SizeInv(cfg, maxPayload, s')
  {
  }

  // ----- the theorems

  /** No schedule, not even one that changes the broker's limit, leaves a row with both marks. */
  lemma NeverBothMarks(cfg: Config, maxPayload: nat, schedule: seq<Action>, i: nat)
    requires i < |Execute(cfg, Init(maxPayload), schedule).tables.outbox|
    ensures var d := Execute(cfg, Init(maxPayload), schedule).tables.outbox[i].delivery;
            d.publishedAt.None? || d.deadLetteredAt.None?
  {
    ReachableRelayInv(cfg, maxPayload, schedule);
  }

  /** A row leaves the retry set only when the broker holds its message or its payload can never be sent. */
  lemma LeavesRetrySetForCause(cfg: Config, maxPayload: nat, schedule: seq<Action>, i: nat)
    requires FixedLimit(schedule) && i < |Execute(cfg, Init(maxPayload), schedule).tables.outbox|
    ensures var s := Execute(cfg, Init(maxPayload), schedule);
            var row := s.tables.outbox[i];
            !row.delivery.Unsettled() ==>
              || (row.delivery.publishedAt.Some? && row.message in s.broker
                  && cfg.eventBytes(row.event) <= PayloadLimit(maxPayload))
              || (row.delivery.deadLetteredAt.Some? && cfg.eventBytes(row.event) > PayloadLimit(maxPayload))
  {
    ReachableRelayInv(cfg, maxPayload, schedule);
    ReachableSizeInv(cfg, maxPayload, schedule);
  }

  /** However many attempts failed, a row the broker could accept is never dead-lettered. */
  lemma TransientFailuresNeverDeadLetter(cfg: Config, maxPayload: nat, schedule: seq<Action>, i: nat)
    requires FixedLimit(schedule) && i < |Execute(cfg, Init(maxPayload), schedule).tables.outbox|
    requires cfg.eventBytes(Execute(cfg, Init(maxPayload), schedule).tables.outbox[i].event) <= PayloadLimit(maxPayload)
    ensures Execute(cfg, Init(maxPayload), schedule).tables.outbox[i].delivery.deadLetteredAt.None?
  {
    ReachableSizeInv(cfg, maxPayload, schedule);
  }

  /** Once a row carries a mark it carries that mark, and the same fact, for the rest of the schedule. */
  lemma MarksArePermanent(cfg: Config, maxPayload: nat, schedule: seq<Action>, k: nat, i: nat)
    requires k <= |schedule| && i < |Before(cfg, Init(maxPayload), schedule, k).tables.outbox|
    ensures var row := Before(cfg, Init(maxPayload), schedule, k).tables.outbox[i];
            var o' := Execute(cfg, Init(maxPayload), schedule).tables.outbox;
            && i < |o'| && o'[i].message == row.message && o'[i].event == row.event
            && (row.delivery.publishedAt.Some? ==> o'[i].delivery.publishedAt.Some? && o'[i].delivery.deadLetteredAt.None?)
            && (row.delivery.deadLetteredAt.Some? ==> o'[i].delivery.deadLetteredAt.Some? && o'[i].delivery.publishedAt.None?)
  {
    InitInv(cfg, maxPayload);
    assert schedule[..|schedule|] == schedule;
    BeforeKeeps(cfg, Init(maxPayload), schedule, k, |schedule|);
    ReachableRelayInv(cfg, maxPayload, schedule);
  }

  /** Under a fixed limit the exclusion constraint never refuses a mark, so it never ends a pass. */
  lemma ConstraintNeverRefuses(cfg: Config, maxPayload: nat, schedule: seq<Action>, relay: nat)
    requires FixedLimit(schedule)
    requires var s := Execute(cfg, Init(maxPayload), schedule); relay in s.relays && s.relays[relay].Marking?
    ensures var s := Execute(cfg, Init(maxPayload), schedule);
            && s.relays[relay].row < |s.tables.outbox|
            && MarkAllowed(s.tables.outbox[s.relays[relay].row].delivery, s.relays[relay].verdict)
  {
    ReachableRelayInv(cfg, maxPayload, schedule);
    ReachableSizeInv(cfg, maxPayload, schedule);
    var s := Execute(cfg, Init(maxPayload), schedule);
    assert MarksMatchSize(cfg, PayloadLimit(maxPayload), s.tables.outbox[s.relays[relay].row]);
  }

  /** The broker only ever holds committed facts: every message it accepted is a row of the outbox. */
  lemma BrokerHoldsCommittedFacts(cfg: Config, maxPayload: nat, schedule: seq<Action>, m: MessageId)
    requires m in Execute(cfg, Init(maxPayload), schedule).broker
    ensures Enqueued(Execute(cfg, Init(maxPayload), schedule).tables.outbox, m)
  {
    ReachableRelayInv(cfg, maxPayload, schedule);
  }

  /** At most one terminal report of a command ever reaches the broker. */
  lemma OneTerminalReportDelivered(cfg: Config, maxPayload: nat, schedule: seq<Action>, i: nat, j: nat)
    requires var s := Execute(cfg, Init(maxPayload), schedule);
             && i < |s.tables.outbox| && j < |s.tables.outbox|
             && s.tables.outbox[i].message in s.broker && s.tables.outbox[j].message in s.broker
             && s.tables.outbox[i].command == s.tables.outbox[j].command
             && TerminalReport(s.tables.outbox[i].event) && TerminalReport(s.tables.outbox[j].event)
    ensures i == j
  {
    ReachableInv(cfg, maxPayload, schedule);
    var t := Execute(cfg, Init(maxPayload), schedule).tables;
    var c := t.outbox[i].command;
    CountRowsZero(t.outbox, c, TagOf(t.outbox[i].event));
    assert c in t.inbox;
    TerminalReportCounts(t, t.inbox[c]);
    assert HasTerminalReport(t.outbox, c, i) && HasTerminalReport(t.outbox, c, j);
  }
}
