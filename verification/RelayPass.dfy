/**
  One relay pass as the program runs it, and what a sequence of passes guarantees a waiting row.
 */
module RelayPass {
  import opened Wrappers
  import opened Numbers
  import opened Tables
  import opened Protocol

  datatype OutboxReport = OutboxReport(claimed: nat, published: nat, failed: nat, deadLettered: nat)

  /** What the publisher answered for one claimed row, and the clock when the row was marked. */
  datatype Outcome = Outcome(verdict: Verdict, at: nat)

  // ----- the claiming query

  /** `limit.clamp(1, 1_000)` */
  function BatchSize(limit: int): nat {
    if limit < 1 then 1 else if limit > 1000 then 1000 else limit
  }

  /** `order by next_attempt_at, enqueued_at`; rows that tie come in either order. */
  predicate NotAfter(a: OutboxRow, b: OutboxRow) {
    || a.delivery.nextAttemptAt < b.delivery.nextAttemptAt
    || (a.delivery.nextAttemptAt == b.delivery.nextAttemptAt && a.enqueuedAt <= b.enqueuedAt)
  }

  /** The chosen rows come no later than any due row left behind. */
  predicate Lowest(rows: seq<OutboxRow>, claim: seq<nat>, now: nat)
    requires ClaimableRows(rows, claim, now)
  {
    forall i, k :: 0 <= i < |rows| && Due(rows[i].delivery, now) && i !in claim && 0 <= k < |claim|
                   ==> NotAfter(rows[claim[k]], rows[i])
  }

  /** What the claiming query may return at `now`. */
  predicate IsClaim(rows: seq<OutboxRow>, now: nat, limit: int, claim: seq<nat>) {
    && ClaimableRows(rows, claim, now)
    && |claim| <= BatchSize(limit)
    && (|claim| == BatchSize(limit) || forall i :: 0 <= i < |rows| && Due(rows[i].delivery, now) ==> i in claim)
    && Lowest(rows, claim, now)
  }

  lemma {:induction false} LeastRemaining(rows: seq<OutboxRow>, now: nat, claim: seq<nat>, n: nat) returns (least: nat)
    requires n <= |rows| && exists i :: 0 <= i < n && Due(rows[i].delivery, now) && i !in claim
    ensures least < n && Due(rows[least].delivery, now) && least !in claim
    ensures forall i :: 0 <= i < n && Due(rows[i].delivery, now) && i !in claim ==> NotAfter(rows[least], rows[i])
  {
    if exists i :: 0 <= i < n - 1 && Due(rows[i].delivery, now) && i !in claim {
      least := LeastRemaining(rows, now, claim, n - 1);
      if Due(rows[n - 1].delivery, now) && n - 1 !in claim && !NotAfter(rows[least], rows[n - 1]) {
        least := n - 1;
      }
    } else {
      least := n - 1;
    }
  }

  lemma {:induction false} LowestOfSize(rows: seq<OutboxRow>, now: nat, size: nat) returns (claim: seq<nat>)
    ensures ClaimableRows(rows, claim, now) && Lowest(rows, claim, now) && |claim| <= size
    ensures |claim| == size || forall i :: 0 <= i < |rows| && Due(rows[i].delivery, now) ==> i in claim
  {
    claim := [];
    if size > 0 {
      claim := LowestOfSize(rows, now, size - 1);
      if exists i :: 0 <= i < |rows| && Due(rows[i].delivery, now) && i !in claim {
        var least := LeastRemaining(rows, now, claim, |rows|);
        claim := claim + [least];
      }
    }
  }

  /** The query always has an answer. */
  lemma ClaimExists(rows: seq<OutboxRow>, now: nat, limit: int)
    ensures exists claim :: IsClaim(rows, now, limit, claim)
  {
    var claim := LowestOfSize(rows, now, BatchSize(limit));
    assert IsClaim(rows, now, limit, claim);
  }

  // ----- one pass

  predicate PassAllowed(rows: seq<OutboxRow>, now: nat, claim: seq<nat>, outcomes: seq<Outcome>) {
    && ClaimableRows(rows, claim, now)
    && |outcomes| == |claim|
    && (forall k :: 0 <= k < |outcomes| ==> now <= outcomes[k].at)
  }

  function MarkRow(row: OutboxRow, o: Outcome): OutboxRow {
    row.(delivery := Mark(row.delivery, o.verdict, o.at))
  }

  /** Marks the claimed rows one after the other. */
  function MarkRows(rows: seq<OutboxRow>, claim: seq<nat>, outcomes: seq<Outcome>): (rows': seq<OutboxRow>)
    requires |outcomes| == |claim| && forall k :: 0 <= k < |claim| ==> claim[k] < |rows|
    ensures |rows'| == |rows|
    decreases |claim|
  {
    if claim == [] then rows
    else
      var n := |claim| - 1;
      var before := MarkRows(rows, claim[..n], outcomes[..n]);
      before[claim[n] := MarkRow(before[claim[n]], outcomes[n])]
  }

  /** The rows after a pass that marked every row it claimed. */
  function AfterPass(rows: seq<OutboxRow>, now: nat, claim: seq<nat>, outcomes: seq<Outcome>): seq<OutboxRow>
    requires PassAllowed(rows, now, claim, outcomes)
  {
    MarkRows(rows, claim, outcomes)
  }

  /** Each claimed row carries its own outcome and every other row is as it was. */
  lemma {:induction false} MarkedRows(rows: seq<OutboxRow>, claim: seq<nat>, outcomes: seq<Outcome>)
    requires |outcomes| == |claim| && forall k :: 0 <= k < |claim| ==> claim[k] < |rows|
    requires forall j, k :: 0 <= j < k < |claim| ==> claim[j] != claim[k]
    ensures var rows' := MarkRows(rows, claim, outcomes);
            && (forall i :: 0 <= i < |rows| && i !in claim ==> rows'[i] == rows[i])
            && (forall k :: 0 <= k < |claim| ==> rows'[claim[k]] == MarkRow(rows[claim[k]], outcomes[k]))
    decreases |claim|
  {
    if claim != [] {
      var n := |claim| - 1;
      MarkedRows(rows, claim[..n], outcomes[..n]);
      assert claim[n] !in claim[..n];
      forall i | 0 <= i < |rows| && i !in claim ensures MarkRows(rows, claim, outcomes)[i] == rows[i] {
        assert i !in claim[..n];
      }
      forall k | 0 <= k < n ensures MarkRows(rows, claim, outcomes)[claim[k]] == MarkRow(rows[claim[k]], outcomes[k]) {
        assert claim[..n][k] == claim[k];
      }
    }
  }

  lemma MarkRowForgetsLease(row: OutboxRow, lease: Option<nat>, o: Outcome)
    ensures MarkRow(row.(delivery := row.delivery.(claimedUntil := lease)), o) == MarkRow(row, o)
  {
  }

  /** Marking rewrites the lease, so the rows it leaves do not depend on it. */
  lemma MarkForgetsLeases(rows: seq<OutboxRow>, now: nat, claim: seq<nat>, outcomes: seq<Outcome>)
    requires PassAllowed(rows, now, claim, outcomes)
    ensures MarkRows(LeaseRows(rows, claim, now), claim, outcomes) == MarkRows(rows, claim, outcomes)
  {
    var leased := LeaseRows(rows, claim, now);
    MarkedRows(rows, claim, outcomes);
    MarkedRows(leased, claim, outcomes);
    forall i | 0 <= i < |rows| ensures MarkRows(leased, claim, outcomes)[i] == MarkRows(rows, claim, outcomes)[i] {
      if i in claim {
        var k :| 0 <= k < |claim| && claim[k] == i;
        MarkRowForgetsLease(rows[i], Some(now + OUTBOX_LEASE_SECONDS), outcomes[k]);
      }
    }
  }

  function CountVerdicts(outcomes: seq<Outcome>, v: Verdict -> bool): nat {
    if outcomes == [] then 0
    else CountVerdicts(outcomes[..|outcomes| - 1], v) + if v(outcomes[|outcomes| - 1].verdict) then 1 else 0
  }

  function ReportOf(outcomes: seq<Outcome>): OutboxReport {
    OutboxReport(|outcomes|, CountVerdicts(outcomes, Published), CountVerdicts(outcomes, Refused),
                 CountVerdicts(outcomes, Oversized))
  }

  predicate Published(v: Verdict) { v.Acknowledged? }
  predicate Refused(v: Verdict) { v.NotAcknowledged? }
  predicate Oversized(v: Verdict) { v.TooLarge? }

  lemma {:induction false} ReportAddsUp(outcomes: seq<Outcome>)
    ensures var r := ReportOf(outcomes); r.claimed == r.published + r.failed + r.deadLettered
  {
    if outcomes != [] {
      ReportAddsUp(outcomes[..|outcomes| - 1]);
    }
  }

  /** The outbox table as one relay updates it. */
  class Outbox {
    var rows: seq<OutboxRow>

    constructor (rows: seq<OutboxRow>)
      ensures this.rows == rows
    {
      this.rows := rows;
    }

    method Lease(now: nat, claim: seq<nat>)
      requires ClaimableRows(rows, claim, now)
      modifies this`rows
      ensures rows == LeaseRows(old(rows), claim, now)
    {
      rows := LeaseRows(rows, claim, now);
    }

    /** Attempts the claimed rows in order, marks each with its outcome and counts it. */
    method MarkClaimed(claim: seq<nat>, outcomes: seq<Outcome>) returns (report: OutboxReport)
      requires |outcomes| == |claim| && forall k :: 0 <= k < |claim| ==> claim[k] < |rows|
      modifies this`rows
      ensures rows == MarkRows(old(rows), claim, outcomes)
      ensures report == ReportOf(outcomes)
    {
      ghost var before := rows;
      report := OutboxReport(|claim|, 0, 0, 0);
      for k := 0 to |claim|
        invariant |rows| == |before| && rows == MarkRows(before, claim[..k], outcomes[..k])
        invariant report == ReportOf(outcomes[..k]).(claimed := |claim|)
      {
        assert outcomes[..k + 1][..k] == outcomes[..k] && claim[..k + 1][..k] == claim[..k];
        match outcomes[k].verdict {
          case Acknowledged => report := report.(published := report.published + 1);
          case TooLarge(_) => report := report.(deadLettered := report.deadLettered + 1);
          case NotAcknowledged => report := report.(failed := report.failed + 1);
        }
        rows := rows[claim[k] := MarkRow(rows[claim[k]], outcomes[k])];
      }
      assert outcomes[..|claim|] == outcomes && claim[..|claim|] == claim;
    }

    /**
      `run_outbox_once` with every mark committed: the claim is what the query returned at `now`
      and `outcomes` what the publisher answered, in order.
     */
    method RunOnce(now: nat, limit: int, claim: seq<nat>, outcomes: seq<Outcome>) returns (report: OutboxReport)
      requires IsClaim(rows, now, limit, claim) && PassAllowed(rows, now, claim, outcomes)
      modifies this`rows
      ensures rows == AfterPass(old(rows), now, claim, outcomes)
      ensures report == ReportOf(outcomes)
      ensures report.claimed == report.published + report.failed + report.deadLettered <= BatchSize(limit) <= 1000
      ensures 1 <= limit <= 1000 ==> report.claimed <= limit
    {
      MarkForgetsLeases(rows, now, claim, outcomes);
      ReportAddsUp(outcomes);
      Lease(now, claim);
      report := MarkClaimed(claim, outcomes);
    }
  }

  // ----- progress

  /** One pass, followed by the rows other transactions enqueued before the next pass. */
  datatype Round = Round(now: nat, claim: seq<nat>, outcomes: seq<Outcome>, enqueued: seq<OutboxRow>)

  /** No lease is outstanding: a single relay marked every row it ever claimed. */
  predicate Quiet(rows: seq<OutboxRow>) {
    forall i :: 0 <= i < |rows| ==> rows[i].delivery.claimedUntil.None?
  }

  /** New rows are due at once, and their stamps follow the pass they come after. */
  predicate StampedAfter(rows: seq<OutboxRow>, now: nat) {
    forall i :: 0 <= i < |rows| ==>
      now < rows[i].enqueuedAt == rows[i].delivery.nextAttemptAt && rows[i].delivery.claimedUntil.None?
  }

  predicate RoundAllowed(rows: seq<OutboxRow>, limit: int, r: Round) {
    && IsClaim(rows, r.now, limit, r.claim)
    && PassAllowed(rows, r.now, r.claim, r.outcomes)
    && StampedAfter(r.enqueued, r.now)
  }

  function AfterRound(rows: seq<OutboxRow>, limit: int, r: Round): seq<OutboxRow>
    requires RoundAllowed(rows, limit, r)
  {
    AfterPass(rows, r.now, r.claim, r.outcomes) + r.enqueued
  }

  /** Passes that follow one another on a clock that never goes back. */
  predicate RoundsAllowed(rows: seq<OutboxRow>, limit: int, rounds: seq<Round>)
    decreases |rounds|
  {
    rounds == [] ||
    (&& RoundAllowed(rows, limit, rounds[0])
     && (|rounds| > 1 ==> rounds[0].now <= rounds[1].now)
     && RoundsAllowed(AfterRound(rows, limit, rounds[0]), limit, rounds[1..]))
  }

  /** The unsettled rows the query may put before row `x`. */
  function Ahead(rows: seq<OutboxRow>, x: nat): set<nat>
    requires x < |rows|
  {
    set i: nat | i < |rows| && i != x && rows[i].delivery.Unsettled() && NotAfter(rows[i], rows[x])
  }

  function Elements(s: seq<nat>): set<nat> { set i: nat | i in s }

  lemma {:induction false} DistinctSize(s: seq<nat>)
    requires forall j, k :: 0 <= j < k < |s| ==> s[j] != s[k]
    ensures |Elements(s)| == |s|
  {
    if s != [] {
      var n := |s| - 1;
      DistinctSize(s[..n]);
      assert s[n] !in Elements(s[..n]);
      assert Elements(s) == Elements(s[..n]) + {s[n]};
    }
  }

  /** A row that was attempted is settled, or comes back later than any row that was due. */
  lemma AttemptedMovesBehind(row: OutboxRow, o: Outcome, now: nat, x: OutboxRow)
    requires now <= o.at && x.delivery.nextAttemptAt <= now
    ensures !MarkRow(row, o).delivery.Unsettled() || !NotAfter(MarkRow(row, o), x)
  {
    BackoffBounds(row.delivery.attempts);
  }

  lemma RoundStaysQuiet(rows: seq<OutboxRow>, limit: int, r: Round)
    requires RoundAllowed(rows, limit, r) && Quiet(rows)
    ensures Quiet(AfterRound(rows, limit, r))
  {
    MarkedRows(rows, r.claim, r.outcomes);
    forall i | 0 <= i < |rows| ensures MarkRows(rows, r.claim, r.outcomes)[i].delivery.claimedUntil.None? {
      if i in r.claim {
        var k :| 0 <= k < |r.claim| && r.claim[k] == i;
      }
    }
  }

  /** Nothing a pass leaves behind, and nothing enqueued after it, gets in front of a row it did not reach. */
  lemma NothingOvertakes(rows: seq<OutboxRow>, limit: int, r: Round, x: nat, i: nat)
    requires RoundAllowed(rows, limit, r) && x < |rows| && x !in r.claim
    requires rows[x].delivery.Unsettled() && rows[x].delivery.nextAttemptAt <= r.now
    requires AfterRound(rows, limit, r)[x] == rows[x] && i in Ahead(AfterRound(rows, limit, r), x)
    ensures i in Ahead(rows, x) && i !in r.claim
  {
    MarkedRows(rows, r.claim, r.outcomes);
    if i < |rows| && i in r.claim {
      var k :| 0 <= k < |r.claim| && r.claim[k] == i;
      AttemptedMovesBehind(rows[i], r.outcomes[k], r.now, rows[x]);
    }
  }

  /** A pass that does not reach `x` takes a full batch out of its way and puts nothing into it. */
  lemma RoundShrinksAhead(rows: seq<OutboxRow>, limit: int, r: Round, x: nat)
    requires RoundAllowed(rows, limit, r) && Quiet(rows) && x < |rows|
    requires rows[x].delivery.Unsettled() && rows[x].delivery.nextAttemptAt <= r.now && x !in r.claim
    ensures var rows' := AfterRound(rows, limit, r);
            && x < |rows'| && rows'[x] == rows[x]
            && |Ahead(rows', x)| + BatchSize(limit) <= |Ahead(rows, x)|
  {
    var rows' := AfterRound(rows, limit, r);
    MarkedRows(rows, r.claim, r.outcomes);
    assert Due(rows[x].delivery, r.now);
    var claimed := Elements(r.claim);
    DistinctSize(r.claim);
    assert claimed <= Ahead(rows, x);
    forall i | i in Ahead(rows', x) ensures i in Ahead(rows, x) - claimed {
      NothingOvertakes(rows, limit, r, x, i);
    }
    SubsetSize(claimed, Ahead(rows, x));
    SubsetSize(Ahead(rows', x), Ahead(rows, x) - claimed);
  }

  lemma DivideDown(a: nat, b: nat, size: nat)
    requires size >= 1 && b + size <= a
    ensures b / size + 1 <= a / size
  {
    var p, q := b / size, a / size;
    assert (p + 1) * size <= b + size;
    assert a < (q + 1) * size;
    MulCancels(p + 1, q + 1, size);
  }

  lemma MulCancels(m: nat, n: nat, size: nat)
    requires m * size < n * size
    ensures m < n
  {
  }

  /** Passes that reach a row, counted from the first. */
  ghost predicate AttemptedWithin(rounds: seq<Round>, x: nat, passes: nat) {
    exists j :: 0 <= j < |rounds| && j < passes && x in rounds[j].claim
  }

  /** k / batch + 1, where k is the number of unsettled rows ordered ahead of `x`. */
  function Turns(rows: seq<OutboxRow>, limit: int, x: nat): nat
    requires x < |rows|
  {
    |Ahead(rows, x)| / BatchSize(limit) + 1
  }

  /** A pass that does not reach `x` brings its turn one pass closer. */
  lemma TurnComesCloser(rows: seq<OutboxRow>, limit: int, r: Round, x: nat)
    requires RoundAllowed(rows, limit, r) && Quiet(rows) && x < |rows|
    requires rows[x].delivery.Unsettled() && rows[x].delivery.nextAttemptAt <= r.now && x !in r.claim
    ensures var rows' := AfterRound(rows, limit, r);
            Quiet(rows') && x < |rows'| && rows'[x] == rows[x] && Turns(rows', limit, x) + 1 <= Turns(rows, limit, x)
  {
    var rows' := AfterRound(rows, limit, r);
    RoundStaysQuiet(rows, limit, r);
    RoundShrinksAhead(rows, limit, r, x);
    DivideDown(|Ahead(rows, x)|, |Ahead(rows', x)|, BatchSize(limit));
  }

  /** With one relay that marks what it claims, a due row is attempted within k / batch + 1 passes. */
  lemma {:induction false} WaitingRowIsAttempted(rows: seq<OutboxRow>, limit: int, rounds: seq<Round>, x: nat)
    requires RoundsAllowed(rows, limit, rounds) && Quiet(rows) && x < |rows| && rows[x].delivery.Unsettled()
    requires rounds != [] && |rounds| >= Turns(rows, limit, x)
    requires rows[x].delivery.nextAttemptAt <= rounds[0].now
    ensures AttemptedWithin(rounds, x, Turns(rows, limit, x))
    decreases |rounds|
  {
    if x in rounds[0].claim {
      assert Turns(rows, limit, x) >= 1;
    } else {
      var rows' := AfterRound(rows, limit, rounds[0]);
      TurnComesCloser(rows, limit, rounds[0], x);
      assert Turns(rows', limit, x) >= 1;
      WaitingRowIsAttempted(rows', limit, rounds[1..], x);
      LaterAttempt(rounds, x, Turns(rows', limit, x), Turns(rows, limit, x));
    }
  }

  lemma LaterAttempt(rounds: seq<Round>, x: nat, fewer: nat, passes: nat)
    requires rounds != [] && AttemptedWithin(rounds[1..], x, fewer) && fewer + 1 <= passes
    ensures AttemptedWithin(rounds, x, passes)
  {
    var j :| 0 <= j < |rounds[1..]| && j < fewer && x in rounds[1..][j].claim;
    assert rounds[j + 1] == rounds[1..][j];
  }
}
