/**
  What one attempt to publish a row leaves on it, and what the number of attempts counts over every
  schedule.
 */
module RelayAttempts {
  import opened Wrappers
  import opened Numbers
  import opened Tables
  import opened Transactions
  import opened Protocol
  import opened RunTheorems
  import opened RelaySafety

  // ----- the wait before the next attempt

  lemma {:induction false} Pow2Grows(n: nat)
    requires n >= 9
    ensures Pow2(n) >= 512
    decreases n
  {
    if n == 9 {
      assert Pow2(5) == 32;
      assert Pow2(9) == 2 * (2 * (2 * (2 * Pow2(5))));
    } else {
      Pow2Grows(n - 1);
    }
  }

  /** One second after the first failure, and twice as long after each further one, up to five minutes. */
  lemma BackoffDoubles(attempts: nat)
    ensures Backoff(0) == 1
    ensures Backoff(attempts + 1) == Min(300, 2 * Backoff(attempts))
  {
    if attempts >= 9 {
      Pow2Grows(Min(attempts, 20));
      Pow2Grows(Min(attempts + 1, 20));
    } else {
      assert Pow2(attempts + 1) == 2 * Pow2(attempts);
    }
  }

  // ----- a claimed row is one relay's for half a minute

  /** After a claim, its rows are due for nobody for thirty seconds, and due again then; no other row changed. */
  lemma ClaimedRowsWait(cfg: Config, s: System, relay: nat, rows: seq<nat>, i: nat, later: nat)
    requires relay !in s.relays && ClaimableRows(s.tables.outbox, rows, s.now) && i < |s.tables.outbox| && s.now <= later
    ensures var s' := Apply(cfg, s, RelayClaim(relay, rows, Commits));
            && s'.relays == s.relays[relay := Attempting(rows)] && |s'.tables.outbox| == |s.tables.outbox|
            && (i in rows ==> (Due(s'.tables.outbox[i].delivery, later) <==> s.now + 30 <= later))
            && (i !in rows ==> s'.tables.outbox[i] == s.tables.outbox[i])
  {
    if i in rows {
      var k :| 0 <= k < |rows| && rows[k] == i;
      assert Due(s.tables.outbox[rows[k]].delivery, s.now);
    }
  }

  // ----- one attempt at one row

  /** The relay is about to attempt row `i`. */
  predicate AboutTo(s: System, relay: nat, i: nat) {
    && relay in s.relays && s.relays[relay].Attempting? && s.relays[relay].todo != [] && s.relays[relay].todo[0] == i
    && i < |s.tables.outbox|
  }

  /** What the relay writes on the row it attempted, with 1024 bytes kept free for the headers. */
  predicate AttemptLeaves(bytes: nat, maxPayload: nat, confirmed: bool, now: nat, d: Delivery, d': Delivery) {
    && d'.claimedUntil.None?
    && if bytes + 1024 > maxPayload && bytes > 0 then
         && d'.deadLetteredAt == Some(now) && d'.publishedAt == d.publishedAt && d'.attempts == d.attempts + 1
         && d'.nextAttemptAt == d.nextAttemptAt && d'.lastError == Some("payload_too_large")
       else if confirmed then
         && d'.publishedAt == Some(now) && d'.deadLetteredAt == d.deadLetteredAt && d'.attempts == d.attempts
         && d'.nextAttemptAt == d.nextAttemptAt && d'.lastError.None?
       else
         && d'.nextAttemptAt == now + Backoff(d.attempts) && d'.publishedAt == d.publishedAt && d'.deadLetteredAt == d.deadLetteredAt
         && d'.attempts == d.attempts + 1 && d'.lastError == Some("publish_failed")
  }

  /**
    A relay publishes an unsettled row and marks it. A message that cannot fit is not sent and given
    up; one the broker acknowledged is published; any other waits. The broker holds the message
    exactly when it fitted and was accepted, or was held before.
   */
  lemma AttemptOutcome(cfg: Config, s: System, relay: nat, i: nat, accepted: bool, acknowledged: bool)
    requires AboutTo(s, relay, i) && s.tables.outbox[i].delivery.Unsettled()
    ensures var sent := Apply(cfg, s, RelayPublish(relay, accepted, acknowledged));
            var s' := Apply(cfg, sent, RelayMark(relay, Commits));
            var row := s.tables.outbox[i];
            var bytes := cfg.eventBytes(row.event);
            && |s'.tables.outbox| == |s.tables.outbox|
            && AttemptLeaves(bytes, s.maxPayload, accepted && acknowledged, s.now, row.delivery, s'.tables.outbox[i].delivery)
            && (forall j :: 0 <= j < |s.tables.outbox| && j != i ==> s'.tables.outbox[j] == s.tables.outbox[j])
            && s'.broker == s.broker + (if accepted && (bytes + 1024 <= s.maxPayload || bytes == 0) then {row.message} else {})
            && s'.relays == s.relays[relay := Attempting(s.relays[relay].todo[1..])]
  {
    var sent := Apply(cfg, s, RelayPublish(relay, accepted, acknowledged));
    assert sent.relays[relay].Marking? && sent.relays[relay].row == i;
  }

  // ----- what the attempts count

  /** The step records one more attempt on row `i`: the row was too large, or it was not acknowledged. */
  predicate FailedMark(s: System, a: Action, i: nat) {
    && a.RelayMark? && a.relay in s.relays && s.relays[a.relay].Marking? && s.relays[a.relay].row == i
    && !s.relays[a.relay].verdict.Acknowledged? && !a.io.RollsBack?
    && i < |s.tables.outbox| && MarkAllowed(s.tables.outbox[i].delivery, s.relays[a.relay].verdict)
  }

  function FailedMarks(cfg: Config, s: System, schedule: seq<Action>, i: nat): nat
    decreases |schedule|
  {
    if schedule == [] then 0
    else
      var init := schedule[..|schedule| - 1];
      FailedMarks(cfg, s, init, i) + if FailedMark(Execute(cfg, s, init), schedule[|schedule| - 1], i) then 1 else 0
  }

  lemma MarkCounts(d: Delivery, v: Verdict, now: nat)
    ensures Mark(d, v, now).attempts == d.attempts + if v.Acknowledged? then 0 else 1
  {
  }

  /** The rows after the marking step: the marked row alone changed, or nothing did. */
  lemma MarkedRows(cfg: Config, s: System, a: Action)
    requires a.RelayMark? && a.relay in s.relays && s.relays[a.relay].Marking? && s.relays[a.relay].row < |s.tables.outbox|
    ensures var i, v := s.relays[a.relay].row, s.relays[a.relay].verdict;
            var row := s.tables.outbox[i];
            ApplyRelay(cfg, s, a).tables.outbox
            == if a.io.RollsBack? || !MarkAllowed(row.delivery, v) then s.tables.outbox
               else s.tables.outbox[i := row.(delivery := Mark(row.delivery, v, s.now))]
  {
  }

  lemma MarkAddsOne(cfg: Config, s: System, a: Action, i: nat)
    requires a.RelayMark? && i < |s.tables.outbox|
    ensures var o := ApplyRelay(cfg, s, a).tables.outbox;
            |o| == |s.tables.outbox| && o[i].delivery.attempts == s.tables.outbox[i].delivery.attempts + if FailedMark(s, a, i) then 1 else 0
  {
    if a.relay in s.relays && s.relays[a.relay].Marking? && s.relays[a.relay].row < |s.tables.outbox| {
      MarkedRows(cfg, s, a);
      MarkCounts(s.tables.outbox[s.relays[a.relay].row].delivery, s.relays[a.relay].verdict, s.now);
    }
  }

  lemma StepCounts(cfg: Config, s: System, a: Action, i: nat)
    requires i < |Apply(cfg, s, a).tables.outbox|
    ensures Apply(cfg, s, a).tables.outbox[i].delivery.attempts
            == (if i < |s.tables.outbox| then s.tables.outbox[i].delivery.attempts else 0) + if FailedMark(s, a, i) then 1 else 0
  {
    if !IsRelayStep(a) {
      OtherStepAppends(cfg, s, a);
    } else {
      RelayFacts(cfg, s, a);
      if a.RelayMark? { MarkAddsOne(cfg, s, a, i); }
    }
  }

  lemma {:induction false} NoMarksBefore(cfg: Config, maxPayload: nat, schedule: seq<Action>, i: nat)
    requires i >= |Execute(cfg, Init(maxPayload), schedule).tables.outbox|
    ensures FailedMarks(cfg, Init(maxPayload), schedule, i) == 0
    decreases |schedule|
  {
    if schedule != [] {
      var init := schedule[..|schedule| - 1];
      var s := Execute(cfg, Init(maxPayload), init);
      ReachableInv(cfg, maxPayload, init);
      StepKeeps(cfg, s, schedule[|schedule| - 1]);
      NoMarksBefore(cfg, maxPayload, init, i);
    }
  }

  /** Over every schedule, a row's attempts are exactly the failed marks on it; a confirmed publication adds none. */
  lemma {:induction false} AttemptsCountFailures(cfg: Config, maxPayload: nat, schedule: seq<Action>, i: nat)
    requires i < |Execute(cfg, Init(maxPayload), schedule).tables.outbox|
    ensures Execute(cfg, Init(maxPayload), schedule).tables.outbox[i].delivery.attempts == FailedMarks(cfg, Init(maxPayload), schedule, i)
    decreases |schedule|
  {
    if schedule != [] {
      var init, a := schedule[..|schedule| - 1], schedule[|schedule| - 1];
      var s := Execute(cfg, Init(maxPayload), init);
      StepCounts(cfg, s, a, i);
      if i < |s.tables.outbox| {
        AttemptsCountFailures(cfg, maxPayload, init, i);
      } else {
        NoMarksBefore(cfg, maxPayload, init, i);
      }
    }
  }
}
