/**
  The relay pass inside the whole system: one relay's claim, publish and mark actions, with any
  actions of everyone but other relays in between, change the outbox exactly as a pass does, so the
  progress bound of passes is a bound for the system.
 */
module RelaySystem {
  import opened Wrappers
  import opened Tables
  import opened Transactions
  import opened Protocol
  import opened RelayPass

  /** Rows enqueued by this action are stamped after `now`. */
  predicate StampsAfter(a: Action, now: nat) { a.Deliver? || IsTerminalCall(a) ==> a.at > now }

  /** Actions of a crash-free pass of `relay`: its own publishes and committed marks, and no other relay's. */
  predicate InPass(a: Action, relay: nat, now: nat) {
    if IsRelayStep(a)
    then (a.RelayPublish? && a.relay == relay) || (a.RelayMark? && a.relay == relay && a.io.Commits?)
    else StampsAfter(a, now)
  }

  predicate PassActions(actions: seq<Action>, relay: nat, now: nat) {
    forall i :: 0 <= i < |actions| ==> InPass(actions[i], relay, now)
  }

  // ----- actions of everyone else

  /** The old rows stay, and what is new is due at once and stamped after `now`. */
  predicate AppendsStamped(o: seq<OutboxRow>, o': seq<OutboxRow>, now: nat) {
    |o| <= |o'| && o'[..|o|] == o && StampedAfter(o'[|o|..], now)
  }

  lemma DeliverStamped(cfg: Config, s: System, a: Action, now: nat)
    requires a.Deliver? && a.at > now
    ensures AppendsStamped(s.tables.outbox, ApplyDeliver(cfg, s, a).tables.outbox, now)
  {
  }

  lemma FailStamped(t: Tables, held: QueuedRun, a: Action, now: nat)
    requires a.CallFail? && a.at > now
    ensures AppendsStamped(t.outbox, Finish(a.io, t, FailRun(t, a.at, held.runId, a.failureClass, a.retryable, a.steps, a.id)).tables.outbox, now)
  {
  }

  lemma RejectStamped(t: Tables, held: QueuedRun, a: Action, now: nat)
    requires a.CallReject? && a.at > now
    ensures AppendsStamped(t.outbox, Finish(a.io, t, RejectRun(t, a.at, held.runId, a.rejection, a.id)).tables.outbox, now)
  {
  }

  lemma CompleteStamped(cfg: Config, t: Tables, held: QueuedRun, a: Action, now: nat)
    requires a.CallComplete? && a.at > now
    ensures AppendsStamped(t.outbox, Finish(a.io, t, CompleteRun(cfg, t, a.at, held.runId, held.maxEventBytes, a.success,
                                                                 a.docId, a.reportId)).tables.outbox, now)
  {
  }

  lemma OtherStamped(cfg: Config, s: System, a: Action, now: nat)
    requires !IsRelayStep(a) && StampsAfter(a, now)
    ensures var s' := Apply(cfg, s, a);
            AppendsStamped(s.tables.outbox, s'.tables.outbox, now) && s'.relays == s.relays && s.now <= s'.now
  {
    if a.Deliver? {
      DeliverStamped(cfg, s, a, now);
    } else if IsTerminalCall(a) && a.worker in s.workers {
      if a.CallFail? {
        FailStamped(s.tables, s.workers[a.worker], a, now);
      } else if a.CallReject? {
        RejectStamped(s.tables, s.workers[a.worker], a, now);
      } else {
        CompleteStamped(cfg, s.tables, s.workers[a.worker], a, now);
      }
    }
  }

  // ----- how far a pass has come

  /** `outcomes` are those of the rows marked so far, `enqueued` the rows other actions added. */
  datatype Progress = Progress(outcomes: seq<Outcome>, enqueued: seq<OutboxRow>)

  /** What the relay holds when the first `k` rows of its claim are marked. */
  predicate RelayAt(relays: map<nat, Relay>, relay: nat, claim: seq<nat>, k: nat)
    requires k <= |claim|
  {
    || (relays == map[] && k == |claim|)
    || relays == map[relay := Attempting(claim[k..])]
    || (k < |claim| && relay in relays && relays[relay].Marking? && relays == map[relay := relays[relay]]
        && relays[relay].row == claim[k] && relays[relay].todo == claim[k + 1..])
  }

  predicate MarkedSince(outcomes: seq<Outcome>, now: nat) { forall i :: 0 <= i < |outcomes| ==> now <= outcomes[i].at }

  ghost predicate Describes(rows: seq<OutboxRow>, now: nat, relay: nat, claim: seq<nat>, s: System, p: Progress)
    requires ClaimableRows(rows, claim, now)
  {
    && |p.outcomes| <= |claim| && now <= s.now
    && MarkedSince(p.outcomes, now)
    && StampedAfter(p.enqueued, now)
    && s.tables.outbox == MarkRows(LeaseRows(rows, claim, now), claim[..|p.outcomes|], p.outcomes) + p.enqueued
    && RelayAt(s.relays, relay, claim, |p.outcomes|)
  }

  lemma StampedConcat(a: seq<OutboxRow>, b: seq<OutboxRow>, now: nat)
    requires StampedAfter(a, now) && StampedAfter(b, now)
    ensures StampedAfter(a + b, now)
  {
  }

  lemma Regrouped(marked: seq<OutboxRow>, enqueued: seq<OutboxRow>, o': seq<OutboxRow>)
    requires |marked + enqueued| <= |o'| && o'[..|marked + enqueued|] == marked + enqueued
    ensures o' == marked + (enqueued + o'[|marked + enqueued|..])
  {
    assert o' == o'[..|marked + enqueued|] + o'[|marked + enqueued|..];
  }

  lemma AppendProgress(rows: seq<OutboxRow>, now: nat, relay: nat, claim: seq<nat>, s: System, s': System, p: Progress)
    returns (p': Progress)
    requires ClaimableRows(rows, claim, now) && Describes(rows, now, relay, claim, s, p)
    requires AppendsStamped(s.tables.outbox, s'.tables.outbox, now) && s'.relays == s.relays && s.now <= s'.now
    ensures Describes(rows, now, relay, claim, s', p')
  {
    var marked := MarkRows(LeaseRows(rows, claim, now), claim[..|p.outcomes|], p.outcomes);
    var added := s'.tables.outbox[|s.tables.outbox|..];
    Regrouped(marked, p.enqueued, s'.tables.outbox);
    StampedConcat(p.enqueued, added, now);
    p' := p.(enqueued := p.enqueued + added);
  }

  lemma OtherProgress(cfg: Config, rows: seq<OutboxRow>, now: nat, relay: nat, claim: seq<nat>, s: System, p: Progress, a: Action)
    returns (p': Progress)
    requires ClaimableRows(rows, claim, now) && Describes(rows, now, relay, claim, s, p)
    requires !IsRelayStep(a) && StampsAfter(a, now)
    ensures Describes(rows, now, relay, claim, Apply(cfg, s, a), p')
  {
    OtherStamped(cfg, s, a, now);
    p' := AppendProgress(rows, now, relay, claim, s, Apply(cfg, s, a), p);
  }

  lemma PublishRelays(cfg: Config, s: System, a: Action, relay: nat, claim: seq<nat>, k: nat)
    requires a.RelayPublish? && a.relay == relay && k <= |claim| && RelayAt(s.relays, relay, claim, k)
    requires forall i :: 0 <= i < |claim| ==> claim[i] < |s.tables.outbox|
    ensures var s' := ApplyRelay(cfg, s, a);
            s'.tables == s.tables && s'.now == s.now && RelayAt(s'.relays, relay, claim, k)
  {
    if relay in s.relays && s.relays[relay].Attempting? {
      if k == |claim| {
        assert s.relays - {relay} == map[];
      } else {
        assert claim[k..][0] == claim[k] && claim[k..][1..] == claim[k + 1..];
      }
    }
  }

  lemma PublishProgress(cfg: Config, rows: seq<OutboxRow>, now: nat, relay: nat, claim: seq<nat>, s: System, p: Progress, a: Action)
    requires ClaimableRows(rows, claim, now) && Describes(rows, now, relay, claim, s, p)
    requires a.RelayPublish? && a.relay == relay
    ensures Describes(rows, now, relay, claim, Apply(cfg, s, a), p)
  {
    PublishRelays(cfg, s, a, relay, claim, |p.outcomes|);
  }

  /** The row a relay is about to mark is still as it was leased, so its mark is admitted. */
  lemma NextIsUnsettled(rows: seq<OutboxRow>, now: nat, claim: seq<nat>, outcomes: seq<Outcome>)
    requires ClaimableRows(rows, claim, now) && |outcomes| < |claim|
    ensures MarkRows(LeaseRows(rows, claim, now), claim[..|outcomes|], outcomes)[claim[|outcomes|]].delivery.Unsettled()
  {
    var k := |outcomes|;
    var leased := LeaseRows(rows, claim, now);
    MarkedRows(leased, claim[..k], outcomes);
    assert claim[k] !in claim[..k];
    assert leased[claim[k]].delivery.Unsettled();
  }

  lemma MarkStep(cfg: Config, s: System, a: Action, relay: nat)
    requires a.RelayMark? && a.relay == relay && a.io.Commits? && relay in s.relays && s.relays[relay].Marking?
    requires s.relays[relay].row < |s.tables.outbox| && s.tables.outbox[s.relays[relay].row].delivery.Unsettled()
    ensures var work := s.relays[relay];
            var row := s.tables.outbox[work.row];
            ApplyRelay(cfg, s, a)
            == s.(tables := s.tables.(outbox := s.tables.outbox[work.row := MarkRow(row, Outcome(work.verdict, s.now))]),
                  relays := s.relays[relay := Attempting(work.todo)])
  {
  }

  lemma UpdatePrefix(marked: seq<OutboxRow>, enqueued: seq<OutboxRow>, i: nat, row: OutboxRow)
    requires i < |marked|
    ensures (marked + enqueued)[i] == marked[i] && (marked + enqueued)[i := row] == marked[i := row] + enqueued
  {
  }

  lemma MarkProgress(cfg: Config, rows: seq<OutboxRow>, now: nat, relay: nat, claim: seq<nat>, s: System, p: Progress, a: Action)
    returns (p': Progress)
    requires ClaimableRows(rows, claim, now) && Describes(rows, now, relay, claim, s, p)
    requires a.RelayMark? && a.relay == relay && a.io.Commits?
    ensures Describes(rows, now, relay, claim, Apply(cfg, s, a), p')
  {
    if relay in s.relays && s.relays[relay].Marking? {
      var k := |p.outcomes|;
      var marked := MarkRows(LeaseRows(rows, claim, now), claim[..k], p.outcomes);
      var o := Outcome(s.relays[relay].verdict, s.now);
      NextIsUnsettled(rows, now, claim, p.outcomes);
      UpdatePrefix(marked, p.enqueued, claim[k], MarkRow(marked[claim[k]], o));
      MarkStep(cfg, s, a, relay);
      p' := MarkedOne(rows, now, relay, claim, s, Apply(cfg, s, a), p, o);
    } else {
      p' := p;
    }
  }

  /** The tables and the relay after one mark, described by one more outcome. */
  lemma MarkedOne(rows: seq<OutboxRow>, now: nat, relay: nat, claim: seq<nat>, s: System, s': System, p: Progress, o: Outcome)
    returns (p': Progress)
    requires ClaimableRows(rows, claim, now) && Describes(rows, now, relay, claim, s, p) && |p.outcomes| < |claim| && now <= o.at
    requires relay in s.relays && s.relays[relay].Marking? && s'.now == s.now
    requires s'.relays == s.relays[relay := Attempting(s.relays[relay].todo)]
    requires var marked := MarkRows(LeaseRows(rows, claim, now), claim[..|p.outcomes|], p.outcomes);
             var i := claim[|p.outcomes|];
             s'.tables.outbox == marked[i := MarkRow(marked[i], o)] + p.enqueued
    ensures Describes(rows, now, relay, claim, s', p')
  {
    p' := p.(outcomes := p.outcomes + [o]);
    MarkRowsNext(LeaseRows(rows, claim, now), claim, p.outcomes, o);
    RelayMarked(s.relays, relay, claim, |p.outcomes|);
  }

  lemma RelayMarked(relays: map<nat, Relay>, relay: nat, claim: seq<nat>, k: nat)
    requires k < |claim| && RelayAt(relays, relay, claim, k) && relay in relays && relays[relay].Marking?
    ensures RelayAt(relays[relay := Attempting(relays[relay].todo)], relay, claim, k + 1)
  {
    assert relays[relay := Attempting(relays[relay].todo)] == map[relay := Attempting(claim[k + 1..])];
  }

  lemma MarkRowsNext(rows: seq<OutboxRow>, claim: seq<nat>, outcomes: seq<Outcome>, o: Outcome)
    requires |outcomes| < |claim| && forall k :: 0 <= k < |claim| ==> claim[k] < |rows|
    ensures var before := MarkRows(rows, claim[..|outcomes|], outcomes);
            var i := claim[|outcomes|];
            MarkRows(rows, claim[..|outcomes| + 1], outcomes + [o]) == before[i := MarkRow(before[i], o)]
  {
    var k := |outcomes|;
    MarkRowsLast(rows, claim[..k + 1], outcomes + [o]);
    assert claim[..k + 1][..k] == claim[..k];
    assert (outcomes + [o])[..k] == outcomes;
  }

  lemma MarkRowsLast(rows: seq<OutboxRow>, claim: seq<nat>, outcomes: seq<Outcome>)
    requires claim != [] && |outcomes| == |claim| && forall k :: 0 <= k < |claim| ==> claim[k] < |rows|
    ensures var n := |claim| - 1;
            var before := MarkRows(rows, claim[..n], outcomes[..n]);
            MarkRows(rows, claim, outcomes) == before[claim[n] := MarkRow(before[claim[n]], outcomes[n])]
  {
  }

  lemma {:induction false} PassProgress(cfg: Config, s: System, relay: nat, claim: seq<nat>, actions: seq<Action>) returns (p: Progress)
    requires s.relays == map[] && ClaimableRows(s.tables.outbox, claim, s.now) && PassActions(actions, relay, s.now)
    ensures Describes(s.tables.outbox, s.now, relay, claim,
                      Execute(cfg, Apply(cfg, s, RelayClaim(relay, claim, Commits)), actions), p)
    decreases |actions|
  {
    var claimed := Apply(cfg, s, RelayClaim(relay, claim, Commits));
    if actions == [] {
      p := Progress([], []);
      assert claim[..0] == [] && claim[0..] == claim;
      assert claimed.tables.outbox + [] == claimed.tables.outbox;
    } else {
      var init, a := actions[..|actions| - 1], actions[|actions| - 1];
      p := PassProgress(cfg, s, relay, claim, init);
      var s' := Execute(cfg, claimed, init);
      if !IsRelayStep(a) {
        p := OtherProgress(cfg, s.tables.outbox, s.now, relay, claim, s', p, a);
      } else if a.RelayPublish? {
        PublishProgress(cfg, s.tables.outbox, s.now, relay, claim, s', p, a);
      } else {
        p := MarkProgress(cfg, s.tables.outbox, s.now, relay, claim, s', p, a);
      }
    }
  }

  // ----- a whole pass

  /** One pass of the relay: what its query returned, and the actions up to the end of the pass. */
  datatype Turn = Turn(claim: seq<nat>, actions: seq<Action>)

  function TurnSchedule(relay: nat, turn: Turn): seq<Action> { [RelayClaim(relay, turn.claim, Commits)] + turn.actions }

  function AfterTurn(cfg: Config, s: System, relay: nat, turn: Turn): System { Execute(cfg, s, TurnSchedule(relay, turn)) }

  /** No relay was at work, the claim is the query's, nothing crashed, and the pass came to its end. */
  predicate TurnAllowed(cfg: Config, s: System, limit: int, relay: nat, turn: Turn) {
    && s.relays == map[] && IsClaim(s.tables.outbox, s.now, limit, turn.claim)
    && PassActions(turn.actions, relay, s.now) && AfterTurn(cfg, s, relay, turn).relays == map[]
  }

  lemma AfterTurnIs(cfg: Config, s: System, relay: nat, turn: Turn)
    ensures AfterTurn(cfg, s, relay, turn)
            == Execute(cfg, Apply(cfg, s, RelayClaim(relay, turn.claim, Commits)), turn.actions)
  {
    var first := [RelayClaim(relay, turn.claim, Commits)];
    ExecuteConcat(cfg, s, first, turn.actions);
    assert first[..0] == [];
  }

  /**
    A crash-free pass in the system, whatever else happens during it, changes the outbox exactly as
    the pass model does: every claimed row is marked with its own outcome, and the rows enqueued
    meanwhile follow.
   */
  lemma TurnIsRound(cfg: Config, s: System, limit: int, relay: nat, turn: Turn) returns (r: Round)
    requires TurnAllowed(cfg, s, limit, relay, turn)
    ensures r.now == s.now && r.claim == turn.claim && RoundAllowed(s.tables.outbox, limit, r)
    ensures AfterTurn(cfg, s, relay, turn).tables.outbox == AfterRound(s.tables.outbox, limit, r)
    ensures s.now <= AfterTurn(cfg, s, relay, turn).now
  {
    AfterTurnIs(cfg, s, relay, turn);
    var p := PassProgress(cfg, s, relay, turn.claim, turn.actions);
    r := FinishedPass(s.tables.outbox, s.now, limit, relay, turn.claim, AfterTurn(cfg, s, relay, turn), p);
  }

  lemma FinishedPass(rows: seq<OutboxRow>, now: nat, limit: int, relay: nat, claim: seq<nat>, s: System, p: Progress) returns (r: Round)
    requires IsClaim(rows, now, limit, claim) && Describes(rows, now, relay, claim, s, p) && s.relays == map[]
    ensures r.now == now && r.claim == claim && RoundAllowed(rows, limit, r) && now <= s.now
    ensures s.tables.outbox == AfterRound(rows, limit, r)
  {
    NotAtWork(relay, claim, |p.outcomes|);
    assert claim[..|claim|] == claim;
    r := Round(now, claim, p.outcomes, p.enqueued);
    MarkForgetsLeases(rows, now, claim, p.outcomes);
  }

  lemma NotAtWork(relay: nat, claim: seq<nat>, k: nat)
    requires k <= |claim| && RelayAt(map[], relay, claim, k)
    ensures k == |claim|
  {
    assert relay in map[relay := Attempting(claim[k..])];
  }

  // ----- progress of the system

  predicate TurnsAllowed(cfg: Config, s: System, limit: int, relay: nat, turns: seq<Turn>)
    decreases |turns|
  {
    turns == [] ||
    (TurnAllowed(cfg, s, limit, relay, turns[0]) && TurnsAllowed(cfg, AfterTurn(cfg, s, relay, turns[0]), limit, relay, turns[1..]))
  }

  ghost predicate ReachedWithin(turns: seq<Turn>, x: nat, passes: nat) {
    exists j :: 0 <= j < |turns| && j < passes && x in turns[j].claim
  }

  lemma ReachedLater(turns: seq<Turn>, x: nat, fewer: nat, passes: nat)
    requires turns != [] && ReachedWithin(turns[1..], x, fewer) && fewer + 1 <= passes
    ensures ReachedWithin(turns, x, passes)
  {
    var j :| 0 <= j < |turns[1..]| && j < fewer && x in turns[1..][j].claim;
    assert turns[j + 1] == turns[1..][j];
  }

  /**
    In the system: with one relay whose passes come to their end, a due row with k unsettled rows
    ordered ahead of it is attempted and marked within k / batch + 1 passes, whatever deliveries,
    workers and clocks do during them.
   */
  lemma {:induction false} SystemRowIsAttempted(cfg: Config, s: System, limit: int, relay: nat, turns: seq<Turn>, x: nat)
    requires TurnsAllowed(cfg, s, limit, relay, turns) && Quiet(s.tables.outbox) && x < |s.tables.outbox|
    requires s.tables.outbox[x].delivery.Unsettled() && s.tables.outbox[x].delivery.nextAttemptAt <= s.now
    requires |turns| >= Turns(s.tables.outbox, limit, x)
    ensures ReachedWithin(turns, x, Turns(s.tables.outbox, limit, x))
    decreases |turns|
  {
    var rows := s.tables.outbox;
    assert Turns(rows, limit, x) >= 1;
    if x !in turns[0].claim {
      var r := TurnIsRound(cfg, s, limit, relay, turns[0]);
      var s' := AfterTurn(cfg, s, relay, turns[0]);
      TurnComesCloser(rows, limit, r, x);
      SystemRowIsAttempted(cfg, s', limit, relay, turns[1..], x);
      ReachedLater(turns, x, Turns(s'.tables.outbox, limit, x), Turns(rows, limit, x));
    }
  }
}
