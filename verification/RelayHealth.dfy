/** The publisher's health: the verdict folded from passes, and how it compares with its documentation. */
module RelayHealth {
  import opened Wrappers
  import opened Tables
  import opened Transactions
  import opened Protocol
  import opened RelayPass

  const UNHEALTHY_ATTEMPTS := 3
  const UNHEALTHY_AGE_SECONDS := 300

  /** `order by enqueued_at, outbox_id limit 1` over the retry set. */
  predicate IsOldest(rows: seq<OutboxRow>, h: nat) {
    && h < |rows| && rows[h].delivery.Unsettled()
    && forall i :: 0 <= i < |rows| && rows[i].delivery.Unsettled() ==>
         rows[h].enqueuedAt < rows[i].enqueuedAt || (rows[h].enqueuedAt == rows[i].enqueuedAt && h <= i)
  }

  predicate NoneLeft(rows: seq<OutboxRow>) { forall i :: 0 <= i < |rows| ==> !rows[i].delivery.Unsettled() }

  predicate Stuck(row: OutboxRow, now: nat) {
    row.delivery.attempts >= UNHEALTHY_ATTEMPTS || row.enqueuedAt + UNHEALTHY_AGE_SECONDS < now
  }

  function OldestOf(rows: seq<OutboxRow>): (r: Option<nat>)
    ensures r.Some? ==> IsOldest(rows, r.value)
    ensures r.None? <==> NoneLeft(rows)
  {
    if rows == [] then None
    else
      var n := |rows| - 1;
      var before := OldestOf(rows[..n]);
      assert forall i :: 0 <= i < n ==> rows[..n][i] == rows[i];
      if rows[n].delivery.Unsettled() && (before.None? || rows[n].enqueuedAt < rows[before.value].enqueuedAt)
      then Some(n) else before
  }

  method OldestUnpublished(rows: seq<OutboxRow>) returns (head: Option<nat>)
    ensures head.Some? ==> IsOldest(rows, head.value)
    ensures head.None? <==> NoneLeft(rows)
    ensures head == OldestOf(rows)
  {
    head := None;
    for i := 0 to |rows|
      invariant head == OldestOf(rows[..i])
    {
      assert rows[..i + 1][..i] == rows[..i];
      if rows[i].delivery.Unsettled() && (head.None? || rows[i].enqueuedAt < rows[head.value].enqueuedAt) {
        head := Some(i);
      }
    }
    assert rows[..|rows|] == rows;
  }

  /** The head of the retry set and whether it is stuck, as the verdict sees it. */
  datatype Head = NoHead | Head(stuck: bool)

  function HeadOf(rows: seq<OutboxRow>, now: nat): Head {
    match OldestOf(rows)
    case None => NoHead
    case Some(h) => Head(Stuck(rows[h], now))
  }

  function NextHealth(healthy: bool, head: Head, report: OutboxReport): bool {
    if report.failed > 0 then !(head.Head? && head.stuck)
    else if report.claimed == 0 then head.NoHead? || healthy
    else true
  }

  lemma OldestIsOne(rows: seq<OutboxRow>, h: nat)
    requires IsOldest(rows, h)
    ensures forall h': nat :: IsOldest(rows, h') ==> h' == h
  {
  }

  class OutboxHealth {
    var healthy: bool

    constructor ()
      ensures healthy
    {
      healthy := true;
    }

    /** `observe`: folds one finished pass into the verdict. */
    method Observe(rows: seq<OutboxRow>, now: nat, report: OutboxReport) returns (verdict: bool)
      modifies this`healthy
      ensures verdict == healthy == NextHealth(old(healthy), HeadOf(rows, now), report)
      ensures report.failed > 0 ==>
                (verdict <==> forall h: nat :: IsOldest(rows, h) ==> rows[h].delivery.attempts < 3 && now <= rows[h].enqueuedAt + 300)
      ensures report.failed == 0 && report.claimed == 0 ==> (verdict <==> NoneLeft(rows) || old(healthy))
      ensures report.failed == 0 && report.claimed > 0 ==> verdict
    {
      var oldest := OldestUnpublished(rows);
      if oldest.Some? { OldestIsOne(rows, oldest.value); }
      if report.failed > 0 {
        healthy := !(oldest.Some? && Stuck(rows[oldest.value], now));
      } else if report.claimed == 0 {
        healthy := oldest.None? || healthy;
      } else {
        healthy := true;
      }
      verdict := healthy;
    }
  }

  // ----- the verdict over a whole history

  datatype Observation = Observation(head: Head, report: OutboxReport)

  function VerdictAfter(history: seq<Observation>): bool
    decreases |history|
  {
    if history == [] then true
    else
      var last := history[|history| - 1];
      NextHealth(VerdictAfter(history[..|history| - 1]), last.head, last.report)
  }

  predicate FailedStuck(o: Observation) { o.report.failed > 0 && o.head.Head? && o.head.stuck }

  /** Nothing was due, and something is still waiting. */
  predicate Idle(o: Observation) { o.report.failed == 0 && o.report.claimed == 0 && o.head.Head? }

  ghost predicate FailedThenIdle(history: seq<Observation>, i: int) {
    0 <= i < |history| && FailedStuck(history[i]) && forall j :: i < j < |history| ==> Idle(history[j])
  }

  /** Over every history: unhealthy exactly when a failing pass with a stuck head was followed by idle passes only. */
  lemma {:induction false} UnhealthyExactly(history: seq<Observation>)
    ensures !VerdictAfter(history) <==> exists i :: FailedThenIdle(history, i)
    decreases |history|
  {
    if history != [] {
      var n := |history| - 1;
      var init := history[..n];
      UnhealthyExactly(init);
      if FailedStuck(history[n]) {
        assert FailedThenIdle(history, n);
      } else if Idle(history[n]) {
        if i :| FailedThenIdle(init, i) { assert FailedThenIdle(history, i); }
        if i :| FailedThenIdle(history, i) { assert FailedThenIdle(init, i); }
      } else {
        assert forall i :: 0 <= i < n ==> !FailedThenIdle(history, i) by {
          forall i | 0 <= i < n ensures !FailedThenIdle(history, i) { assert !Idle(history[n]); }
        }
      }
    }
  }

  // ----- the documented recovery

  /** The pass published every row that was due when it claimed. */
  predicate PublishedEveryDue(rows: seq<OutboxRow>, r: Round)
    requires |r.outcomes| == |r.claim|
  {
    forall i :: 0 <= i < |rows| && Due(rows[i].delivery, r.now) ==>
      exists k :: 0 <= k < |r.claim| && r.claim[k] == i && r.outcomes[k].verdict.Acknowledged?
  }

  /** The recovery the type documents, with the rows of the table after the pass. */
  predicate DocumentedRecovery(rows: seq<OutboxRow>, limit: int, r: Round)
    requires RoundAllowed(rows, limit, r)
  {
    PublishedEveryDue(rows, r) || NoneLeft(AfterRound(rows, limit, r))
  }

  /** The recovery of the code, observing the same table at `at`. */
  predicate CodeRecovers(rows: seq<OutboxRow>, limit: int, r: Round, at: nat)
    requires RoundAllowed(rows, limit, r)
  {
    NextHealth(false, HeadOf(AfterRound(rows, limit, r), at), ReportOf(r.outcomes))
  }

  predicate EveryDueClaimed(rows: seq<OutboxRow>, r: Round) {
    forall i :: 0 <= i < |rows| && Due(rows[i].delivery, r.now) ==> i in r.claim
  }

  predicate Occurs(outcomes: seq<Outcome>, v: Verdict -> bool) { exists k :: 0 <= k < |outcomes| && v(outcomes[k].verdict) }

  lemma {:induction false} CountPositive(outcomes: seq<Outcome>, v: Verdict -> bool)
    ensures CountVerdicts(outcomes, v) > 0 <==> Occurs(outcomes, v)
    decreases |outcomes|
  {
    if outcomes != [] {
      var init := outcomes[..|outcomes| - 1];
      CountPositive(init, v);
      if Occurs(init, v) {
        var k :| 0 <= k < |init| && v(init[k].verdict);
        assert v(outcomes[k].verdict);
      }
      if Occurs(outcomes, v) && !v(outcomes[|outcomes| - 1].verdict) {
        var k :| 0 <= k < |outcomes| && v(outcomes[k].verdict);
        assert v(init[k].verdict);
      }
    }
  }

  /** Claimed rows are due and distinct, so publishing every due row is claiming all and having all acknowledged. */
  lemma PublishedEveryDueIs(rows: seq<OutboxRow>, limit: int, r: Round)
    requires RoundAllowed(rows, limit, r)
    ensures PublishedEveryDue(rows, r)
            <==> EveryDueClaimed(rows, r) && !Occurs(r.outcomes, Refused) && !Occurs(r.outcomes, Oversized)
  {
    if PublishedEveryDue(rows, r) {
      forall k | 0 <= k < |r.outcomes| ensures r.outcomes[k].verdict.Acknowledged? {
        assert Due(rows[r.claim[k]].delivery, r.now);
        var j :| 0 <= j < |r.claim| && r.claim[j] == r.claim[k] && r.outcomes[j].verdict.Acknowledged?;
        assert j == k;
      }
    }
    if EveryDueClaimed(rows, r) && !Occurs(r.outcomes, Refused) && !Occurs(r.outcomes, Oversized) {
      forall i | 0 <= i < |rows| && Due(rows[i].delivery, r.now)
        ensures exists k :: 0 <= k < |r.claim| && r.claim[k] == i && r.outcomes[k].verdict.Acknowledged?
      {
        var k :| 0 <= k < |r.claim| && r.claim[k] == i;
        assert !Refused(r.outcomes[k].verdict) && !Oversized(r.outcomes[k].verdict);
      }
    }
  }

  lemma IdleMeansNothingDue(rows: seq<OutboxRow>, limit: int, r: Round)
    requires RoundAllowed(rows, limit, r) && r.claim == []
    ensures EveryDueClaimed(rows, r) && !Occurs(r.outcomes, Refused) && !Occurs(r.outcomes, Oversized)
  {
  }

  /**
    For every table and every pass over it: the code and the documentation agree on recovery
    exactly when nothing is left, or something was due and either a publish failed with the oldest
    row stuck, or none failed, none was given up and no due row was left behind by the batch.
   */
  lemma RecoveryAgreement(rows: seq<OutboxRow>, limit: int, r: Round, at: nat)
    requires RoundAllowed(rows, limit, r)
    ensures (CodeRecovers(rows, limit, r, at) <==> DocumentedRecovery(rows, limit, r))
            <==> (|| NoneLeft(AfterRound(rows, limit, r))
                  || (r.claim != []
                      && if Occurs(r.outcomes, Refused) then HeadOf(AfterRound(rows, limit, r), at) == Head(true)
                         else !Occurs(r.outcomes, Oversized) && EveryDueClaimed(rows, r)))
  {
    PublishedEveryDueIs(rows, limit, r);
    CountPositive(r.outcomes, Refused);
    if r.claim == [] { IdleMeansNothingDue(rows, limit, r); }
  }

  // ----- passes on which they differ, as the relay and the verdict perform them

  /** Two passes and the verdict after each, over a table that starts with a healthy verdict. */
  method ObserveTwo(rows: seq<OutboxRow>, limit: int, first: Round, second: Round, at: nat, later: nat)
    returns (before: bool, verdict: bool)
    requires RoundAllowed(rows, limit, first) && RoundAllowed(AfterRound(rows, limit, first), limit, second)
    ensures before == NextHealth(true, HeadOf(AfterRound(rows, limit, first), at), ReportOf(first.outcomes))
    ensures verdict == NextHealth(before, HeadOf(AfterRound(AfterRound(rows, limit, first), limit, second), later),
                                  ReportOf(second.outcomes))
  {
    var outbox := new Outbox(rows);
    var health := new OutboxHealth();
    var report := outbox.RunOnce(first.now, limit, first.claim, first.outcomes);
    outbox.rows := outbox.rows + first.enqueued;
    before := health.Observe(outbox.rows, at, report);
    report := outbox.RunOnce(second.now, limit, second.claim, second.outcomes);
    outbox.rows := outbox.rows + second.enqueued;
    verdict := health.Observe(outbox.rows, later, report);
  }

  const FIRST := NewRow(1, 1, 1, ReportedQueued, 0)
  const TWIN := NewRow(2, 2, 2, ReportedQueued, 0)
  const LATE := NewRow(3, 3, 3, ReportedQueued, 350)

  function Fails(at: nat): Outcome { Outcome(NotAcknowledged, at) }

  function Acks(at: nat): Outcome { Outcome(Acknowledged, at) }

  /** The first row after one failure at 301 seconds. */
  const FAILED_ONCE := MarkRow(FIRST, Fails(301))

  lemma FailedOnce()
    ensures Backoff(0) == 1
    ensures FAILED_ONCE.delivery == Delivery(302, 1, None, None, None, Some("publish_failed"))
    ensures FAILED_ONCE.enqueuedAt == 0
  {
    assert Pow2(0) == 1;
  }

  lemma OneClaimed(rows: seq<OutboxRow>, i: nat, o: Outcome)
    requires i < |rows|
    ensures MarkRows(rows, [i], [o]) == rows[i := MarkRow(rows[i], o)]
  {
    assert [i][..0] == [] && [o][..0] == [];
    assert MarkRows(rows, [], []) == rows;
  }

  lemma OldestOfTwo(a: OutboxRow, b: OutboxRow)
    ensures OldestOf([a, b]) == if a.delivery.Unsettled() && !(b.delivery.Unsettled() && b.enqueuedAt < a.enqueuedAt) then Some(0)
                                else if b.delivery.Unsettled() then Some(1) else None
  {
    assert [a, b][..1] == [a] && [a][..0] == [];
    assert OldestOf([a]) == if a.delivery.Unsettled() then Some(0) else None;
  }

  lemma OldestOfOne(a: OutboxRow)
    ensures OldestOf([a]) == if a.delivery.Unsettled() then Some(0) else None
  {
    assert [a][..0] == [];
  }

  lemma FirstPass(limit: int, rows: seq<OutboxRow>, enqueued: seq<OutboxRow>)
    requires rows == [FIRST] || (rows == [FIRST, TWIN] && limit == 1)
    requires StampedAfter(enqueued, 301)
    ensures var r := Round(301, [0], [Fails(301)], enqueued);
            RoundAllowed(rows, limit, r) && AfterRound(rows, limit, r) == rows[0 := FAILED_ONCE] + enqueued
  {
    OneClaimed(rows, 0, Fails(301));
    assert Due(rows[0].delivery, 301);
  }

  lemma BothClaimed(rows: seq<OutboxRow>, now: nat)
    requires |rows| == 2 && Due(rows[0].delivery, now) && Due(rows[1].delivery, now)
    ensures IsClaim(rows, now, 10, [0, 1])
  {
  }

  lemma BothMarked(rows: seq<OutboxRow>, o: Outcome, p: Outcome)
    requires |rows| == 2
    ensures MarkRows(rows, [0, 1], [o, p]) == [MarkRow(rows[0], o), MarkRow(rows[1], p)]
  {
    assert [0, 1][..1] == [0] && [o, p][..1] == [o];
    OneClaimed(rows, 0, o);
  }

  lemma HalfFailedPass(rows: seq<OutboxRow>, r: Round)
    requires rows == [FAILED_ONCE, LATE] && r == Round(400, [0, 1], [Acks(400), Fails(400)], [])
    ensures RoundAllowed(rows, 10, r) && Occurs(r.outcomes, Refused) && !DocumentedRecovery(rows, 10, r)
    ensures AfterRound(rows, 10, r) == [MarkRow(FAILED_ONCE, Acks(400)), MarkRow(LATE, Fails(400))]
  {
    FailedOnce();
    BothClaimed(rows, 400);
    BothMarked(rows, Acks(400), Fails(400));
    assert AfterRound(rows, 10, r)[1].delivery.Unsettled();
    assert Refused(r.outcomes[1].verdict);
    PublishedEveryDueIs(rows, 10, r);
  }

  /** One of two rows failed, and the verdict recovers: the row that failed is young. */
  method RecoversOnFailingPass() returns (rows: seq<OutboxRow>, r: Round, before: bool, verdict: bool)
    ensures RoundAllowed(rows, 10, r) && Occurs(r.outcomes, Refused) && !DocumentedRecovery(rows, 10, r)
    ensures !before && verdict == CodeRecovers(rows, 10, r, 400) == true
  {
    var first := Round(301, [0], [Fails(301)], [LATE]);
    FailedOnce();
    FirstPass(10, [FIRST], [LATE]);
    rows := [FAILED_ONCE, LATE];
    assert AfterRound([FIRST], 10, first) == rows;
    OldestOfTwo(FAILED_ONCE, LATE);
    r := Round(400, [0, 1], [Acks(400), Fails(400)], []);
    HalfFailedPass(rows, r);
    OldestOfTwo(MarkRow(FAILED_ONCE, Acks(400)), MarkRow(LATE, Fails(400)));
    CountPositive(r.outcomes, Refused);
    assert Refused(first.outcomes[0].verdict);
    CountPositive(first.outcomes, Refused);
    before, verdict := ObserveTwo([FIRST], 10, first, r, 301, 400);
  }

  /** A full batch was published, and the verdict recovers with a due and stuck row left behind. */
  method RecoversWithDueRowsLeft() returns (rows: seq<OutboxRow>, r: Round, before: bool, verdict: bool)
    ensures RoundAllowed(rows, 1, r) && !EveryDueClaimed(rows, r) && !DocumentedRecovery(rows, 1, r)
    ensures HeadOf(AfterRound(rows, 1, r), 400) == Head(true)
    ensures !before && verdict == CodeRecovers(rows, 1, r, 400) == true
  {
    var first := Round(301, [0], [Fails(301)], []);
    FailedOnce();
    FirstPass(1, [FIRST, TWIN], []);
    rows := [FAILED_ONCE, TWIN];
    assert AfterRound([FIRST, TWIN], 1, first) == rows;
    OldestOfTwo(FAILED_ONCE, TWIN);
    r := Round(400, [1], [Acks(400)], []);
    var published := MarkRow(TWIN, Acks(400));
    OneClaimed(rows, 1, Acks(400));
    assert Due(rows[0].delivery, 400) && 0 !in r.claim;
    assert AfterRound(rows, 1, r) == [FAILED_ONCE, published];
    OldestOfTwo(FAILED_ONCE, published);
    PublishedEveryDueIs(rows, 1, r);
    CountPositive(r.outcomes, Refused);
    assert Refused(first.outcomes[0].verdict);
    CountPositive(first.outcomes, Refused);
    before, verdict := ObserveTwo([FIRST, TWIN], 1, first, r, 301, 400);
  }

  /**
    Under one fixed broker limit: the only due row was always too large and was given up, and the
    verdict recovers with the row that failed before still waiting, stuck.
   */
  method RecoversOnDeadLetter() returns (rows: seq<OutboxRow>, r: Round, before: bool, verdict: bool)
    ensures RoundAllowed(rows, 1, r) && Occurs(r.outcomes, Oversized) && EveryDueClaimed(rows, r)
    ensures !DocumentedRecovery(rows, 1, r) && HeadOf(AfterRound(rows, 1, r), 301) == Head(true)
    ensures !before && verdict == CodeRecovers(rows, 1, r, 301) == true
  {
    var first := Round(301, [0], [Fails(301)], []);
    FailedOnce();
    FirstPass(1, [FIRST, TWIN], []);
    rows := [FAILED_ONCE, TWIN];
    assert AfterRound([FIRST, TWIN], 1, first) == rows;
    OldestOfTwo(FAILED_ONCE, TWIN);
    var oversized := Outcome(TooLarge(0), 301);
    r := Round(301, [1], [oversized], []);
    var dropped := MarkRow(TWIN, oversized);
    OneClaimed(rows, 1, oversized);
    assert Due(rows[1].delivery, 301) && !Due(rows[0].delivery, 301) && Oversized(r.outcomes[0].verdict);
    assert AfterRound(rows, 1, r) == [FAILED_ONCE, dropped];
    OldestOfTwo(FAILED_ONCE, dropped);
    PublishedEveryDueIs(rows, 1, r);
    CountPositive(r.outcomes, Refused);
    assert Refused(first.outcomes[0].verdict);
    CountPositive(first.outcomes, Refused);
    before, verdict := ObserveTwo([FIRST, TWIN], 1, first, r, 301, 301);
  }

  /** Nothing was due, so every due row was published, and the verdict does not recover. */
  method StaysUnhealthyWhenIdle() returns (rows: seq<OutboxRow>, r: Round, before: bool, verdict: bool)
    ensures RoundAllowed(rows, 10, r) && r.claim == [] && DocumentedRecovery(rows, 10, r)
    ensures !before && verdict == CodeRecovers(rows, 10, r, 301) == false
  {
    var first := Round(301, [0], [Fails(301)], []);
    FailedOnce();
    FirstPass(10, [FIRST], []);
    rows := [FAILED_ONCE];
    assert AfterRound([FIRST], 10, first) == rows;
    OldestOfOne(FAILED_ONCE);
    r := Round(301, [], [], []);
    assert !Due(rows[0].delivery, 301);
    assert AfterRound(rows, 10, r) == rows;
    assert Refused(first.outcomes[0].verdict);
    CountPositive(first.outcomes, Refused);
    before, verdict := ObserveTwo([FIRST], 10, first, r, 301, 301);
  }
}
