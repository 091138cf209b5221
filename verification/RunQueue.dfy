/**
  Progress of the run queue. A reclaimed run keeps its place in the queue, so a bound on how long a
  run waits holds only while the leases granted ahead of it do.
 */
module RunQueue {
  import opened Wrappers
  import opened Numbers
  import opened Tables
  import opened Transactions
  import opened Protocol
  import opened RunSafety
  import opened RunTheorems

  /** The step is a claim that took its run, whether or not the worker saw the answer. */
  predicate Takes(s: System, a: Action) {
    && a.ClaimRun? && !a.io.RollsBack?
    && NextRun(s.tables, s.now, a.locked, a.run) && s.tables.runs[a.run].source in s.tables.sources
  }

  /** The unsettled runs that were queued no later than `x`. */
  function Ahead(t: Tables, x: RunId): set<RunId>
    requires x in t.runs
  {
    set r | r in t.runs && r != x && !t.runs[r].status.Terminal() && t.runs[r].queuedAt <= t.runs[x].queuedAt
  }

  function TakeCount(cfg: Config, s: System, schedule: seq<Action>): nat
    decreases |schedule|
  {
    if schedule == [] then 0
    else
      var init := schedule[..|schedule| - 1];
      TakeCount(cfg, s, init) + if Takes(Execute(cfg, s, init), schedule[|schedule| - 1]) then 1 else 0
  }

  /** The runs taken in a schedule. */
  function Taken(cfg: Config, s: System, schedule: seq<Action>): set<RunId>
    decreases |schedule|
  {
    if schedule == [] then {}
    else
      var init, a := schedule[..|schedule| - 1], schedule[|schedule| - 1];
      Taken(cfg, s, init) + if Takes(Execute(cfg, s, init), a) then {a.run} else {}
  }

  /** Claims of a run that the same schedule had already taken: its lease ran out unsettled. */
  function Retakes(cfg: Config, s: System, schedule: seq<Action>): nat
    decreases |schedule|
  {
    if schedule == [] then 0
    else
      var init, a := schedule[..|schedule| - 1], schedule[|schedule| - 1];
      Retakes(cfg, s, init) + if Takes(Execute(cfg, s, init), a) && a.run in Taken(cfg, s, init) then 1 else 0
  }

  /** New commands are stamped after `x`, and no claim skips `x` as locked. */
  predicate Orderly(schedule: seq<Action>, x: RunId, queuedAt: nat) {
    forall i :: 0 <= i < |schedule| ==>
      (schedule[i].Deliver? ==> schedule[i].at > queuedAt) && (schedule[i].ClaimRun? ==> x !in schedule[i].locked)
  }

  lemma {:induction false} TakesAddUp(cfg: Config, s: System, schedule: seq<Action>)
    ensures TakeCount(cfg, s, schedule) == |Taken(cfg, s, schedule)| + Retakes(cfg, s, schedule)
    decreases |schedule|
  {
    if schedule != [] {
      var init, a := schedule[..|schedule| - 1], schedule[|schedule| - 1];
      TakesAddUp(cfg, s, init);
      if Takes(Execute(cfg, s, init), a) && a.run in Taken(cfg, s, init) {
        assert Taken(cfg, s, init) + {a.run} == Taken(cfg, s, init);
      }
    }
  }

  // ----- what one step does to one run

  /** A run's row is left alone, settled, or taken by the claim. */
  predicate RunStep(s: System, a: Action, run: Run, run': Run, r: RunId) {
    || run' == run
    || (run'.status.Terminal() && run'.queuedAt == run.queuedAt && run'.startedAt == run.startedAt)
    || (Takes(s, a) && a.run == r && run'.queuedAt == run.queuedAt && run'.status.Running?
        && run'.claimedUntil == Some(s.now + LeaseSeconds(a.lease))
        && run'.startedAt == if run.startedAt.Some? then run.startedAt else Some(s.now))
  }

  /** At most one run's row changes, and it is settled in its place. */
  predicate SettlesOnly(t: Tables, t': Tables, r: RunId) {
    || t'.runs == t.runs
    || (r in t.runs && r in t'.runs && t'.runs == t.runs[r := t'.runs[r]]
        && t'.runs[r].status.Terminal() && t'.runs[r].queuedAt == t.runs[r].queuedAt && t'.runs[r].startedAt == t.runs[r].startedAt)
  }

  lemma FailSettlesOnly(t: Tables, held: QueuedRun, a: Action)
    requires a.CallFail?
    ensures SettlesOnly(t, Finish(a.io, t, FailRun(t, a.at, held.runId, a.failureClass, a.retryable, a.steps, a.id)).tables, held.runId)
  {
  }

  lemma RejectSettlesOnly(t: Tables, held: QueuedRun, a: Action)
    requires a.CallReject?
    ensures SettlesOnly(t, Finish(a.io, t, RejectRun(t, a.at, held.runId, a.rejection, a.id)).tables, held.runId)
  {
  }

  lemma CompleteSettlesOnly(cfg: Config, t: Tables, held: QueuedRun, a: Action)
    requires a.CallComplete?
    ensures SettlesOnly(t, Finish(a.io, t, CompleteRun(cfg, t, a.at, held.runId, held.maxEventBytes, a.success,
                                                       a.docId, a.reportId)).tables, held.runId)
  {
  }

  lemma CallSettlesOnly(cfg: Config, t: Tables, held: QueuedRun, a: Action)
    requires IsWorkerCall(a)
    ensures SettlesOnly(t, CalledTables(cfg, t, held, a), held.runId)
  {
    if a.CallFail? {
      FailSettlesOnly(t, held, a);
    } else if a.CallReject? {
      RejectSettlesOnly(t, held, a);
    } else if a.CallComplete? {
      CompleteSettlesOnly(cfg, t, held, a);
    }
  }

  lemma OldRunStep(cfg: Config, s: System, a: Action, r: RunId)
    requires r in s.tables.runs
    ensures r in Apply(cfg, s, a).tables.runs && RunStep(s, a, s.tables.runs[r], Apply(cfg, s, a).tables.runs[r], r)
  {
    if IsWorkerCall(a) {
      if a.worker in s.workers { CallSettlesOnly(cfg, s.tables, s.workers[a.worker], a); }
    } else if a.Deliver? {
      DeliverRunStep(cfg, s, a, r);
    } else if a.ClaimRun? {
      ClaimRunStep(s, a, r);
    } else {
      OtherRunStep(cfg, s, a);
    }
  }

  lemma DeliverRunStep(cfg: Config, s: System, a: Action, r: RunId)
    requires a.Deliver? && r in s.tables.runs
    ensures var t' := ApplyDeliver(cfg, s, a).tables; r in t'.runs && t'.runs[r] == s.tables.runs[r]
  {
  }

  lemma ClaimRunStep(s: System, a: Action, r: RunId)
    requires a.ClaimRun? && r in s.tables.runs
    ensures var t' := ApplyClaimRun(s, a).tables; r in t'.runs && RunStep(s, a, s.tables.runs[r], t'.runs[r], r)
  {
  }

  lemma OtherRunStep(cfg: Config, s: System, a: Action)
    requires !IsWorkerCall(a) && !a.Deliver? && !a.ClaimRun?
    ensures Apply(cfg, s, a).tables.runs == s.tables.runs
  {
  }

  /**
    Whoever claims it again and however it ends, a run keeps the instant it was queued and the instant
    it was first claimed.
   */
  lemma {:induction false} StampsArePermanent(cfg: Config, s: System, schedule: seq<Action>, r: RunId)
    requires r in s.tables.runs
    ensures var runs := Execute(cfg, s, schedule).tables.runs;
            && r in runs && runs[r].queuedAt == s.tables.runs[r].queuedAt
            && (s.tables.runs[r].startedAt.Some? ==> runs[r].startedAt == s.tables.runs[r].startedAt)
    decreases |schedule|
  {
    if schedule != [] {
      var init := schedule[..|schedule| - 1];
      StampsArePermanent(cfg, s, init, r);
      OldRunStep(cfg, Execute(cfg, s, init), schedule[|schedule| - 1], r);
    }
  }

  lemma NewRunStamp(cfg: Config, s: System, a: Action, r: RunId)
    requires r !in s.tables.runs && r in Apply(cfg, s, a).tables.runs
    ensures a.Deliver? && Apply(cfg, s, a).tables.runs[r].queuedAt == a.at
  {
    if !a.Deliver? {
      OnlyDeliveryAddsRuns(cfg, s, a);
    }
  }

  lemma ClockStep(cfg: Config, s: System, a: Action)
    ensures s.now <= Apply(cfg, s, a).now
  {
  }

  // ----- who can be taken before `x`

  /** Every run is an old one with its old stamp, or stamped after `x`. */
  ghost predicate StampsKept(t: Tables, t': Tables, queuedAt: nat) {
    && (forall r :: r in t.runs ==> r in t'.runs && t'.runs[r].queuedAt == t.runs[r].queuedAt)
    && (forall r :: r in t'.runs && r !in t.runs ==> t'.runs[r].queuedAt > queuedAt)
  }

  lemma {:induction false} ScheduleStamps(cfg: Config, s: System, schedule: seq<Action>, x: RunId, queuedAt: nat)
    requires Orderly(schedule, x, queuedAt)
    ensures StampsKept(s.tables, Execute(cfg, s, schedule).tables, queuedAt)
    decreases |schedule|
  {
    if schedule != [] {
      var init, a := schedule[..|schedule| - 1], schedule[|schedule| - 1];
      ScheduleStamps(cfg, s, init, x, queuedAt);
      StampStep(cfg, s.tables, Execute(cfg, s, init), a, queuedAt);
    }
  }

  lemma StampStep(cfg: Config, t: Tables, s: System, a: Action, queuedAt: nat)
    requires StampsKept(t, s.tables, queuedAt) && (a.Deliver? ==> a.at > queuedAt)
    ensures StampsKept(t, Apply(cfg, s, a).tables, queuedAt)
  {
    var t' := Apply(cfg, s, a).tables;
    forall r | r in t.runs ensures r in t'.runs && t'.runs[r].queuedAt == t.runs[r].queuedAt {
      OldRunStep(cfg, s, a, r);
    }
    forall r | r in t'.runs && r !in t.runs ensures t'.runs[r].queuedAt > queuedAt {
      if r in s.tables.runs { OldRunStep(cfg, s, a, r); } else { NewRunStamp(cfg, s, a, r); }
    }
  }

  predicate Queues(t: Tables, x: RunId) { x in t.runs && t.runs[x].status.Queued? }

  /** While `x` waits, the query can only return a run that was ahead of it at the start. */
  lemma NextIsAhead(t: Tables, t': Tables, now: nat, locked: set<RunId>, r: RunId, x: RunId)
    requires Queues(t, x) && Queues(t', x) && x !in locked && r != x && NextRun(t', now, locked, r)
    requires StampsKept(t, t', t.runs[x].queuedAt) && RunsKept(t, t')
    ensures r in Ahead(t, x)
  {
    assert Claimable(t'.runs[x], now);
    assert r in t.runs;
  }

  lemma TakenIsAhead(cfg: Config, s: System, init: seq<Action>, a: Action, x: RunId)
    requires Inv(cfg, s) && Queues(s.tables, x) && Orderly(init, x, s.tables.runs[x].queuedAt)
    requires var t := Execute(cfg, s, init).tables; Queues(t, x) && Takes(Execute(cfg, s, init), a) && x !in a.locked
    requires Queues(Apply(cfg, Execute(cfg, s, init), a).tables, x)
    ensures a.run in Ahead(s.tables, x)
  {
    ScheduleStamps(cfg, s, init, x, s.tables.runs[x].queuedAt);
    ScheduleKeeps(cfg, s, init);
    TakenIsLeased(cfg, Execute(cfg, s, init), a);
    NextIsAhead(s.tables, Execute(cfg, s, init).tables, Execute(cfg, s, init).now, a.locked, a.run, x);
  }

  lemma QueuedBefore(cfg: Config, s: System, a: Action, x: RunId)
    requires Inv(cfg, s) && x in s.tables.runs && Queues(Apply(cfg, s, a).tables, x)
    ensures Queues(s.tables, x)
  {
    OldRunStep(cfg, s, a, x);
  }

  lemma QueuedAtPrefix(cfg: Config, s: System, init: seq<Action>, a: Action, x: RunId)
    requires Inv(cfg, s) && Queues(s.tables, x) && Queues(Apply(cfg, Execute(cfg, s, init), a).tables, x)
    ensures Queues(Execute(cfg, s, init).tables, x)
  {
    ScheduleKeeps(cfg, s, init);
    QueuedBefore(cfg, Execute(cfg, s, init), a, x);
  }

  lemma OrderlyPrefix(schedule: seq<Action>, x: RunId, queuedAt: nat)
    requires schedule != [] && Orderly(schedule, x, queuedAt)
    ensures Orderly(schedule[..|schedule| - 1], x, queuedAt)
    ensures schedule[|schedule| - 1].ClaimRun? ==> x !in schedule[|schedule| - 1].locked
  {
  }

  lemma {:induction false} TakenAreAhead(cfg: Config, s: System, schedule: seq<Action>, x: RunId)
    requires Inv(cfg, s) && Queues(s.tables, x) && Orderly(schedule, x, s.tables.runs[x].queuedAt)
    requires Queues(Execute(cfg, s, schedule).tables, x)
    ensures Taken(cfg, s, schedule) <= Ahead(s.tables, x)
    decreases |schedule|
  {
    if schedule != [] {
      var init, a := schedule[..|schedule| - 1], schedule[|schedule| - 1];
      OrderlyPrefix(schedule, x, s.tables.runs[x].queuedAt);
      QueuedAtPrefix(cfg, s, init, a, x);
      TakenAreAhead(cfg, s, init, x);
      if Takes(Execute(cfg, s, init), a) { TakenIsAhead(cfg, s, init, a, x); }
    }
  }

  /**
    Over every interleaving: while a queued run waits, the claims that take a run are at most the
    unsettled runs ahead of it plus the leases that ran out, so it is taken by the claim after those.
   */
  lemma WaitIsBounded(cfg: Config, s: System, schedule: seq<Action>, x: RunId)
    requires Inv(cfg, s) && Queues(s.tables, x) && Orderly(schedule, x, s.tables.runs[x].queuedAt)
    requires Queues(Execute(cfg, s, schedule).tables, x)
    ensures TakeCount(cfg, s, schedule) <= |Ahead(s.tables, x)| + Retakes(cfg, s, schedule)
  {
    TakesAddUp(cfg, s, schedule);
    TakenAreAhead(cfg, s, schedule, x);
    SubsetSize(Taken(cfg, s, schedule), Ahead(s.tables, x));
  }

  // ----- leases

  predicate LeasesAtLeast(schedule: seq<Action>, lease: nat) {
    forall i :: 0 <= i < |schedule| && schedule[i].ClaimRun? ==> LeaseSeconds(schedule[i].lease) >= lease
  }

  /** Settled, or leased at least until then. */
  predicate LeasedUntil(t: Tables, r: RunId, until: nat) {
    r in t.runs && (t.runs[r].status.Terminal()
                    || (t.runs[r].status.Running? && t.runs[r].claimedUntil.Some? && t.runs[r].claimedUntil.value >= until))
  }

  lemma LeaseStep(cfg: Config, s: System, a: Action, r: RunId, until: nat)
    requires LeasedUntil(s.tables, r, until) || (Takes(s, a) && a.run == r)
    requires Takes(s, a) ==> s.now + LeaseSeconds(a.lease) >= until
    ensures LeasedUntil(Apply(cfg, s, a).tables, r, until)
  {
    if Takes(s, a) && a.run == r {
      TakenIsLeased(cfg, s, a);
    } else {
      OldRunStep(cfg, s, a, r);
    }
  }

  /** A claim leases its run for the seconds asked for, but for at least one and at most 3600. */
  lemma TakenIsLeased(cfg: Config, s: System, a: Action)
    requires Takes(s, a)
    ensures var t' := Apply(cfg, s, a).tables;
            a.run in t'.runs && t'.runs[a.run].status.Running? && t'.runs[a.run].claimedUntil == Some(s.now + LeaseSeconds(a.lease))
    ensures 1 <= LeaseSeconds(a.lease) <= 3600 && (1 <= a.lease <= 3600 ==> LeaseSeconds(a.lease) == a.lease)
    ensures (a.lease < 1 ==> LeaseSeconds(a.lease) == 1) && (a.lease > 3600 ==> LeaseSeconds(a.lease) == 3600)
  {
  }

  lemma {:induction false} LeasesHold(cfg: Config, s: System, schedule: seq<Action>, lease: nat)
    requires LeasesAtLeast(schedule, lease)
    ensures s.now <= Execute(cfg, s, schedule).now
    ensures forall r :: r in Taken(cfg, s, schedule) ==> LeasedUntil(Execute(cfg, s, schedule).tables, r, s.now + lease)
    decreases |schedule|
  {
    if schedule != [] {
      var init, a := schedule[..|schedule| - 1], schedule[|schedule| - 1];
      LeasesHold(cfg, s, init, lease);
      ClockStep(cfg, Execute(cfg, s, init), a);
      forall r | r in Taken(cfg, s, schedule) ensures LeasedUntil(Execute(cfg, s, schedule).tables, r, s.now + lease) {
        assert r in Taken(cfg, s, init) || (Takes(Execute(cfg, s, init), a) && r == a.run);
        LeaseStep(cfg, Execute(cfg, s, init), a, r, s.now + lease);
      }
    }
  }

  /** Within one lease nothing is taken twice. */
  lemma {:induction false} NoRetakesWithinLease(cfg: Config, s: System, schedule: seq<Action>, lease: nat)
    requires LeasesAtLeast(schedule, lease) && Execute(cfg, s, schedule).now < s.now + lease
    ensures Retakes(cfg, s, schedule) == 0
    decreases |schedule|
  {
    if schedule != [] {
      var init, a := schedule[..|schedule| - 1], schedule[|schedule| - 1];
      LeasesHold(cfg, s, init, lease);
      ClockStep(cfg, Execute(cfg, s, init), a);
      NoRetakesWithinLease(cfg, s, init, lease);
      assert a.ClaimRun? && a.run in Taken(cfg, s, init) ==> LeasedUntil(Execute(cfg, s, init).tables, a.run, s.now + lease);
    }
  }

  // ----- the exact condition

  /**
    From a reachable state, more claims than runs ahead of it take a run while `x` stays queued,
    within `span` seconds and with no lease shorter than `lease`.
   */
  ghost predicate Overtaken(cfg: Config, maxPayload: nat, history: seq<Action>, schedule: seq<Action>, x: RunId, lease: nat, span: nat) {
    var s := Execute(cfg, Init(maxPayload), history);
    var s' := Execute(cfg, s, schedule);
    && Queues(s.tables, x) && Queues(s'.tables, x)
    && Orderly(schedule, x, s.tables.runs[x].queuedAt) && LeasesAtLeast(schedule, lease)
    && s'.now <= s.now + span
    && TakeCount(cfg, s, schedule) > |Ahead(s.tables, x)|
  }

  lemma NotOvertakenWithinLease(cfg: Config, maxPayload: nat, history: seq<Action>, schedule: seq<Action>, x: RunId, lease: nat, span: nat)
    requires span < lease
    ensures !Overtaken(cfg, maxPayload, history, schedule, x, lease, span)
  {
    var s := Execute(cfg, Init(maxPayload), history);
    if Overtaken(cfg, maxPayload, history, schedule, x, lease, span) {
      ReachableInv(cfg, maxPayload, history);
      NoRetakesWithinLease(cfg, s, schedule, lease);
      WaitIsBounded(cfg, s, schedule, x);
    }
  }

  // ----- a run that is never reached

  /** Two runs: `x` waits, and `p` ahead of it may be claimed again. */
  predicate Lagging(s: System, p: RunId, x: RunId) {
    && p != x && s.tables.runs.Keys == {p, x} && Queues(s.tables, x)
    && Claimable(s.tables.runs[p], s.now) && s.tables.runs[p].queuedAt <= s.tables.runs[x].queuedAt
    && s.tables.runs[p].source in s.tables.sources
  }

  function ClaimOf(p: RunId, lease: nat): Action { ClaimRun(0, {}, p, lease, 0, Commits) }

  lemma LaggingTakes(cfg: Config, s: System, p: RunId, x: RunId, lease: nat)
    requires Lagging(s, p, x)
    ensures Takes(s, ClaimOf(p, lease))
    ensures var s' := Apply(cfg, s, ClaimOf(p, lease));
            && s'.now == s.now && s'.tables.runs.Keys == {p, x} && s'.tables.sources == s.tables.sources
            && s'.tables.runs[x] == s.tables.runs[x]
            && s'.tables.runs[p].status.Running? && s'.tables.runs[p].claimedUntil == Some(s.now + LeaseSeconds(lease))
            && s'.tables.runs[p].queuedAt == s.tables.runs[p].queuedAt && s'.tables.runs[p].source == s.tables.runs[p].source
  {
  }

  lemma LaggingAgain(cfg: Config, s: System, p: RunId, x: RunId, lease: nat)
    requires Lagging(s, p, x)
    ensures var s' := Apply(cfg, Apply(cfg, s, ClaimOf(p, lease)), Tick(LeaseSeconds(lease)));
            Lagging(s', p, x) && s'.now == s.now + LeaseSeconds(lease)
  {
    LaggingTakes(cfg, s, p, x, lease);
  }

  lemma ExecuteAppend(cfg: Config, s: System, schedule: seq<Action>, a: Action)
    ensures Execute(cfg, s, schedule + [a]) == Apply(cfg, Execute(cfg, s, schedule), a)
    ensures TakeCount(cfg, s, schedule + [a]) == TakeCount(cfg, s, schedule) + if Takes(Execute(cfg, s, schedule), a) then 1 else 0
  {
    assert (schedule + [a])[..|schedule|] == schedule;
  }

  lemma RetakeRound(cfg: Config, s: System, before: seq<Action>, p: RunId, x: RunId, lease: nat)
    requires Lagging(Execute(cfg, s, before), p, x)
    ensures var after := before + [ClaimOf(p, lease)] + [Tick(LeaseSeconds(lease))];
            && TakeCount(cfg, s, after) == TakeCount(cfg, s, before) + 1
            && Lagging(Execute(cfg, s, after), p, x)
            && Execute(cfg, s, after).now == Execute(cfg, s, before).now + LeaseSeconds(lease)
  {
    var s' := Execute(cfg, s, before);
    LaggingTakes(cfg, s', p, x, lease);
    LaggingAgain(cfg, s', p, x, lease);
    ExecuteAppend(cfg, s, before, ClaimOf(p, lease));
    ExecuteAppend(cfg, s, before + [ClaimOf(p, lease)], Tick(LeaseSeconds(lease)));
  }

  predicate OnlyClaims(schedule: seq<Action>, p: RunId, lease: nat) {
    forall i :: 0 <= i < |schedule| ==> schedule[i] == ClaimOf(p, lease) || schedule[i].Tick?
  }

  /**
    However many claims are made, each may take the one run ahead again, one lease apart, while
    `x` waits: without a condition on the leases no number of claims reaches it.
   */
  lemma {:induction false} StarvedByRetakes(cfg: Config, s: System, p: RunId, x: RunId, lease: nat, n: nat) returns (schedule: seq<Action>)
    requires Lagging(s, p, x)
    ensures OnlyClaims(schedule, p, lease) && TakeCount(cfg, s, schedule) == n
    ensures Lagging(Execute(cfg, s, schedule), p, x) && Execute(cfg, s, schedule).now == s.now + n * LeaseSeconds(lease)
    decreases n
  {
    schedule := [];
    if n > 0 {
      var before := StarvedByRetakes(cfg, s, p, x, lease, n - 1);
      RetakeRound(cfg, s, before, p, x, lease);
      schedule := before + [ClaimOf(p, lease)] + [Tick(LeaseSeconds(lease))];
      assert n * LeaseSeconds(lease) == (n - 1) * LeaseSeconds(lease) + LeaseSeconds(lease);
    }
  }

  // ----- the witness and the exact condition

  const EXAMPLE := Config(_ => true, url => Some(url), _ => "generic_web", (_, _) => true, _ => 0)

  function CaptureOf(id: nat): Message {
    Message(CAPTURE_SUBJECT, Some(Envelope(CAPTURE_COMMAND_TYPE, "ratatoskr-platform", Some(1), id, id,
                                           Some(Request(id, Some("https://example.org/"), None)))))
  }

  function Delivery(id: nat): Action { Deliver(CaptureOf(id), id, id, id, Commits, true) }

  lemma Decoded(id: nat)
    ensures DecodeCapture(EXAMPLE, CaptureOf(id)) == Ok(CaptureCommand(id, id, 1, CaptureUrl("https://example.org/")))
  {
  }

  lemma Delivered(s: System, id: nat)
    requires id !in s.tables.inbox && id !in s.tables.runs && FreshMessage(s.tables, id)
    ensures var s' := Apply(EXAMPLE, s, Delivery(id));
            && s'.now == s.now && s'.tables.inbox.Keys == s.tables.inbox.Keys + {id}
            && s'.tables.runs.Keys == s.tables.runs.Keys + {id}
            && (forall r :: r in s.tables.runs ==> s'.tables.runs[r] == s.tables.runs[r])
            && (forall k :: k in s.tables.sources ==> k in s'.tables.sources)
            && s'.tables.runs[id].status.Queued? && s'.tables.runs[id].queuedAt == id
            && s'.tables.runs[id].source in s'.tables.sources
            && |s'.tables.outbox| == |s.tables.outbox| + 1 && s'.tables.outbox[|s.tables.outbox|].message == id
            && (forall i :: 0 <= i < |s.tables.outbox| ==> s'.tables.outbox[i] == s.tables.outbox[i])
  {
    Decoded(id);
  }

  /** Two commands, each delivered at the second the clock shows. */
  const TWO_COMMANDS := [Tick(1)] + [Delivery(1)] + [Tick(1)] + [Delivery(2)]

  lemma OneQueued(s: System)
    requires s == Execute(EXAMPLE, Init(0), [Tick(1)] + [Delivery(1)])
    ensures s.now == 1 && s.tables.inbox.Keys == {1} && s.tables.runs.Keys == {1}
    ensures s.tables.runs[1].status.Queued? && s.tables.runs[1].queuedAt == 1 && s.tables.runs[1].source in s.tables.sources
    ensures |s.tables.outbox| == 1 && s.tables.outbox[0].message == 1
  {
    ExecuteAppend(EXAMPLE, Init(0), [], Tick(1));
    assert [] + [Tick(1)] == [Tick(1)];
    ExecuteAppend(EXAMPLE, Init(0), [Tick(1)], Delivery(1));
    Delivered(Execute(EXAMPLE, Init(0), [Tick(1)]), 1);
  }

  lemma TwoQueued()
    ensures Lagging(Execute(EXAMPLE, Init(0), TWO_COMMANDS), 1, 2)
  {
    var one := [Tick(1)] + [Delivery(1)];
    OneQueued(Execute(EXAMPLE, Init(0), one));
    ExecuteAppend(EXAMPLE, Init(0), one, Tick(1));
    ExecuteAppend(EXAMPLE, Init(0), one + [Tick(1)], Delivery(2));
    Delivered(Execute(EXAMPLE, Init(0), one + [Tick(1)]), 2);
    assert {1} + {2} == {1, 2};
  }

  lemma LaggingAhead(s: System, p: RunId, x: RunId)
    requires Lagging(s, p, x)
    ensures |Ahead(s.tables, x)| <= 1
  {
    SubsetSize(Ahead(s.tables, x), {p});
  }

  /** One lease of delay is enough: the run ahead is taken twice, one lease apart. */
  lemma OvertakenAfterLease(lease: nat, span: nat) returns (history: seq<Action>, schedule: seq<Action>)
    requires 1 <= lease <= 3600 && lease <= span
    ensures Overtaken(EXAMPLE, 0, history, schedule, 2, lease, span)
  {
    history := TWO_COMMANDS;
    var s := Execute(EXAMPLE, Init(0), history);
    TwoQueued();
    LaggingAhead(s, 1, 2);
    var once := StarvedByRetakes(EXAMPLE, s, 1, 2, lease, 1);
    var s' := Execute(EXAMPLE, s, once);
    LaggingTakes(EXAMPLE, s', 1, 2, lease);
    ExecuteAppend(EXAMPLE, s, once, ClaimOf(1, lease));
    schedule := once + [ClaimOf(1, lease)];
    assert OnlyClaims(schedule, 1, lease);
  }

  /** No history and no schedule overtakes a waiting run. */
  ghost predicate NeverOvertaken(lease: nat, span: nat) {
    forall cfg, maxPayload, history, schedule, x :: !Overtaken(cfg, maxPayload, history, schedule, x, lease, span)
  }

  /**
    A queued run with k unsettled runs ahead is taken by the first k + 1 claims that take a run, on
    every history and schedule, exactly when those claims fall within one lease.
   */
  lemma PromptExactlyWithinLease(lease: nat, span: nat)
    requires 1 <= lease <= 3600
    ensures NeverOvertaken(lease, span) <==> span < lease
  {
    if span < lease {
      forall cfg, maxPayload, history, schedule, x ensures !Overtaken(cfg, maxPayload, history, schedule, x, lease, span) {
        NotOvertakenWithinLease(cfg, maxPayload, history, schedule, x, lease, span);
      }
    } else {
      var history, schedule := OvertakenAfterLease(lease, span);
    }
  }
}
