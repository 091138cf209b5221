/**
  What following a plan leaves in the tables, with every other worker, relay, redelivery and lease
  expiry interleaved between its calls.
 */
module PlanRuns {
  import opened Wrappers
  import opened Tables
  import opened Transactions
  import opened Protocol
  import opened RunSafety
  import opened RunTheorems
  import opened Pipeline
  import PlanShape

  /** Steps that belong to worker `w`: its calls, and what would change the run it holds. */
  predicate Own(a: Action, w: nat) {
    || (IsWorkerCall(a) && a.worker == w)
    || (a.ClaimRun? && a.worker == w)
    || (a.LeaveWorker? && a.worker == w)
  }

  /** Action `a` is worker `w` making the call the effect names. */
  predicate Performs(a: Action, w: nat, e: Effect) {
    match e
    case Fail(failureClass, retryable, steps) =>
      a.CallFail? && a.worker == w && a.failureClass == failureClass && a.retryable == retryable && a.steps == steps
    case Reject(rejection) => a.CallReject? && a.worker == w && a.rejection == rejection
    case Complete(success) => a.CallComplete? && a.worker == w && a.success == success
    case Record(fetch) => a.CallRecordFetch? && a.worker == w && a.fetch == fetch
    case Diagnose(blob) => a.CallDiagnose? && a.worker == w && a.blob == blob
    case _ => false
  }

  /** The call returned to the worker without an error. */
  predicate Returned(cfg: Config, t: Tables, held: QueuedRun, a: Action)
    requires IsWorkerCall(a)
  {
    match a
    case CallRecordFetch(_, f, io) => Finish(io, t, RecordFetch(t, held.runId, f)).answer.Ok?
    case CallDiagnose(_, blob, io) => Finish(io, t, RecordDiagnostics(t, held.runId, blob)).answer.Ok?
    case _ => WorkerCall(cfg, t, held, a).answer.Ok?
  }

  /**
    In this schedule worker `w` follows plan `p` to its end and every call returns; any other
    action may come in between.
   */
  predicate Follows(cfg: Config, s: System, schedule: seq<Action>, w: nat, p: Plan)
    decreases |schedule|, p
  {
    if p.Do? && !IsTableCall(p.effect) then Follows(cfg, s, schedule, w, p.rest)
    else if schedule == [] then p.Return?
    else
      var a := schedule[0];
      if Own(a, w)
      then
        && p.Do? && Performs(a, w, p.effect) && w in s.workers && Returned(cfg, s.tables, s.workers[w], a)
        && Follows(cfg, Apply(cfg, s, a), schedule[1..], w, p.rest)
      else Follows(cfg, Apply(cfg, s, a), schedule[1..], w, p)
  }

  predicate CallApplied(cfg: Config, s: System, a: Action, w: nat) {
    IsTerminalCall(a) && a.worker == w && w in s.workers && WorkerCall(cfg, s.tables, s.workers[w], a).answer == Ok(Applied)
  }

  /** How many calls of worker `w` in the schedule answered that they settled the run. */
  function AppliedCalls(cfg: Config, s: System, schedule: seq<Action>, w: nat): nat
    decreases |schedule|
  {
    if schedule == [] then 0
    else
      (if CallApplied(cfg, s, schedule[0], w) then 1 else 0)
      + AppliedCalls(cfg, Apply(cfg, s, schedule[0]), schedule[1..], w)
  }

  predicate RunTerminal(t: Tables, r: RunId) { r in t.runs && t.runs[r].status.Terminal() }

  lemma ExecuteFirst(cfg: Config, s: System, schedule: seq<Action>)
    requires schedule != []
    ensures Execute(cfg, s, schedule) == Execute(cfg, Apply(cfg, s, schedule[0]), schedule[1..])
  {
    var first := [schedule[0]];
    assert schedule == first + schedule[1..];
    ExecuteConcat(cfg, s, first, schedule[1..]);
    assert first[..0] == [];
  }

  /** Nobody but the worker itself changes what it holds, and its calls do not. */
  lemma HolderStays(cfg: Config, s: System, a: Action, w: nat)
    requires w in s.workers && (!Own(a, w) || IsWorkerCall(a))
    ensures var s' := Apply(cfg, s, a); w in s'.workers && s'.workers[w] == s.workers[w]
  {
  }

  /** A terminal call that returns leaves the run terminal, whoever settled it. */
  lemma ReturnedCallSettles(cfg: Config, t: Tables, held: QueuedRun, a: Action)
    requires HeldRunMatches(t, held) && IsTerminalCall(a) && WorkerCall(cfg, t, held, a).answer.Ok?
    ensures RunTerminal(WorkerCall(cfg, t, held, a).tables, held.runId)
  {
  }

  /** A call settles the run only while it is running, and leaves it terminal. */
  lemma AppliedMovesToTerminal(cfg: Config, s: System, a: Action, w: nat)
    requires CallApplied(cfg, s, a, w)
    ensures !RunTerminal(s.tables, s.workers[w].runId) && RunTerminal(Apply(cfg, s, a).tables, s.workers[w].runId)
  {
    AppliedSettles(cfg, s, a);
  }

  lemma StepStaysTerminal(cfg: Config, s: System, a: Action, r: RunId)
    requires Inv(cfg, s) && RunTerminal(s.tables, r)
    ensures RunTerminal(Apply(cfg, s, a).tables, r)
  {
    StepKeeps(cfg, s, a);
  }

  /** A worker's own terminal call in the schedule, returned: the run is terminal from then on. */
  lemma CallStepSettles(cfg: Config, s: System, a: Action, w: nat, e: Effect)
    requires Inv(cfg, s) && w in s.workers && IsTerminal(e) && Performs(a, w, e)
    requires Returned(cfg, s.tables, s.workers[w], a)
    ensures RunTerminal(Apply(cfg, s, a).tables, s.workers[w].runId)
  {
    CallStepTables(cfg, s, a);
    ReturnedCallSettles(cfg, s.tables, s.workers[w], a);
  }

  lemma CallStepTables(cfg: Config, s: System, a: Action)
    requires IsTerminalCall(a) && a.worker in s.workers
    ensures Apply(cfg, s, a).tables == WorkerCall(cfg, s.tables, s.workers[a.worker], a).tables
  {
  }

  lemma {:induction false} FollowedPlanSettles(cfg: Config, s: System, schedule: seq<Action>, w: nat, p: Plan)
    requires Inv(cfg, s) && w in s.workers && Follows(cfg, s, schedule, w, p)
    requires PlanShape.Terminals(p) >= 1 || RunTerminal(s.tables, s.workers[w].runId)
    ensures RunTerminal(Execute(cfg, s, schedule).tables, s.workers[w].runId)
    decreases |schedule|, p
  {
    var r := s.workers[w].runId;
    if p.Do? && !IsTableCall(p.effect) {
      FollowedPlanSettles(cfg, s, schedule, w, p.rest);
    } else if schedule != [] {
      var a := schedule[0];
      var s' := Apply(cfg, s, a);
      ExecuteFirst(cfg, s, schedule);
      StepKeeps(cfg, s, a);
      HolderStays(cfg, s, a, w);
      if RunTerminal(s.tables, r) { StepStaysTerminal(cfg, s, a, r); }
      if Own(a, w) {
        if IsTerminal(p.effect) { CallStepSettles(cfg, s, a, w, p.effect); }
        FollowedPlanSettles(cfg, s', schedule[1..], w, p.rest);
      } else {
        FollowedPlanSettles(cfg, s', schedule[1..], w, p);
      }
    }
  }

  /** At most one call of the plan settles the run, and none once the run is terminal. */
  lemma {:induction false} AppliedAtMostOnce(cfg: Config, s: System, schedule: seq<Action>, w: nat, p: Plan)
    requires Inv(cfg, s) && w in s.workers && Follows(cfg, s, schedule, w, p)
    ensures AppliedCalls(cfg, s, schedule, w) <= if RunTerminal(s.tables, s.workers[w].runId) then 0 else 1
    decreases |schedule|, p
  {
    var r := s.workers[w].runId;
    if p.Do? && !IsTableCall(p.effect) {
      AppliedAtMostOnce(cfg, s, schedule, w, p.rest);
    } else if schedule != [] {
      var a := schedule[0];
      StepKeeps(cfg, s, a);
      HolderStays(cfg, s, a, w);
      if RunTerminal(s.tables, r) { StepStaysTerminal(cfg, s, a, r); }
      if CallApplied(cfg, s, a, w) { AppliedMovesToTerminal(cfg, s, a, w); }
      AppliedAtMostOnce(cfg, Apply(cfg, s, a), schedule[1..], w, if Own(a, w) then p.rest else p);
    }
  }

  /**
    Every way `process_run` returns without an error on a run its worker claimed, whatever the
    world answered and whoever else acted meanwhile: the run is terminal, it stays so, and at most
    one call of this worker settled it.
   */
  lemma ReturnedRunIsTerminal(cfg: Config, maxPayload: nat, history: seq<Action>, schedule: seq<Action>,
                              world: World, w: nat)
    requires var s := Execute(cfg, Init(maxPayload), history);
             && w in s.workers
             && Finishes(ProcessRun(world, s.workers[w]))
             && Follows(cfg, s, schedule, w, ProcessRun(world, s.workers[w]))
    ensures var s := Execute(cfg, Init(maxPayload), history);
            && RunTerminal(Execute(cfg, Init(maxPayload), history + schedule).tables, s.workers[w].runId)
            && AppliedCalls(cfg, s, schedule, w) <= 1
  {
    var s := Execute(cfg, Init(maxPayload), history);
    var p := ProcessRun(world, s.workers[w]);
    ReachableInv(cfg, maxPayload, history);
    PlanShape.PlanShape(world, s.workers[w]);
    FollowedPlanSettles(cfg, s, schedule, w, p);
    AppliedAtMostOnce(cfg, s, schedule, w, p);
    ExecuteConcat(cfg, Init(maxPayload), history, schedule);
  }

  // ----- a call on a running run is never refused for what an earlier one left behind

  /** Candidates are written only with the terminal transition of their run. */
  predicate CandidatesSettled(t: Tables) {
    forall i :: 0 <= i < |t.candidates| ==> RunTerminal(t, t.candidates[i].run)
  }

  lemma CallKeepsCandidates(cfg: Config, t: Tables, held: QueuedRun, a: Action)
    requires CandidatesSettled(t) && IsWorkerCall(a)
    ensures CandidatesSettled(CalledTables(cfg, t, held, a))
  {
    if a.CallReject? {
      RejectAdds(t, held, a);
      AddedAreSettled(t, CalledTables(cfg, t, held, a), held.runId, a.rejection.candidates);
    } else if a.CallComplete? {
      CompleteAdds(cfg, t, held, a);
      AddedAreSettled(t, CalledTables(cfg, t, held, a), held.runId, a.success.candidates);
    } else {
      OtherCallsAdd(cfg, t, held, a);
      SettledElsewhere(t, CalledTables(cfg, t, held, a));
    }
  }

  /** The candidates of one run are added together with its terminal status. */
  predicate AddsTerminal(t: Tables, t': Tables, r: RunId, candidates: seq<Candidate>) {
    t' == t || (t'.candidates == t.candidates + CandidateRows(r, candidates) && RunTerminal(t', r)
                && t'.runs == t.runs[r := t'.runs[r]])
  }

  lemma RejectAdds(t: Tables, held: QueuedRun, a: Action)
    requires a.CallReject?
    ensures AddsTerminal(t, Finish(a.io, t, RejectRun(t, a.at, held.runId, a.rejection, a.id)).tables,
                         held.runId, a.rejection.candidates)
  {
  }

  lemma CompleteAdds(cfg: Config, t: Tables, held: QueuedRun, a: Action)
    requires a.CallComplete?
    ensures AddsTerminal(t, Finish(a.io, t, CompleteRun(cfg, t, a.at, held.runId, held.maxEventBytes, a.success,
                                                        a.docId, a.reportId)).tables, held.runId, a.success.candidates)
  {
  }

  lemma OtherCallsAdd(cfg: Config, t: Tables, held: QueuedRun, a: Action)
    requires IsWorkerCall(a) && !a.CallReject? && !a.CallComplete?
    ensures var t' := CalledTables(cfg, t, held, a);
            && t'.candidates == t.candidates
            && forall r :: RunTerminal(t, r) ==> RunTerminal(t', r)
  {
  }

  lemma SettledElsewhere(t: Tables, t': Tables)
    requires CandidatesSettled(t) && t'.candidates == t.candidates && forall r :: RunTerminal(t, r) ==> RunTerminal(t', r)
    ensures CandidatesSettled(t')
  {
  }

  lemma AddedAreSettled(t: Tables, t': Tables, r: RunId, candidates: seq<Candidate>)
    requires CandidatesSettled(t) && AddsTerminal(t, t', r, candidates)
    ensures CandidatesSettled(t')
  {
  }

  lemma StepKeepsCandidates(cfg: Config, s: System, a: Action)
    requires Inv(cfg, s) && CandidatesSettled(s.tables)
    ensures CandidatesSettled(Apply(cfg, s, a).tables)
  {
    if IsWorkerCall(a) {
      if a.worker in s.workers { CallKeepsCandidates(cfg, s.tables, s.workers[a.worker], a); }
    } else {
      StepKeeps(cfg, s, a);
      OtherStepsKeepCandidates(cfg, s, a);
      SettledKept(s.tables, Apply(cfg, s, a).tables);
    }
  }

  lemma SettledKept(t: Tables, t': Tables)
    requires RunsKept(t, t') && t'.candidates == t.candidates && CandidatesSettled(t)
    ensures CandidatesSettled(t')
  {
  }

  lemma OtherStepsKeepCandidates(cfg: Config, s: System, a: Action)
    requires !IsWorkerCall(a)
    ensures Apply(cfg, s, a).tables.candidates == s.tables.candidates
  {
  }

  lemma {:induction false} ReachableCandidates(cfg: Config, maxPayload: nat, schedule: seq<Action>)
    ensures CandidatesSettled(Execute(cfg, Init(maxPayload), schedule).tables)
    decreases |schedule|
  {
    if schedule != [] {
      var init := schedule[..|schedule| - 1];
      ReachableCandidates(cfg, maxPayload, init);
      ReachableInv(cfg, maxPayload, init);
      StepKeepsCandidates(cfg, Execute(cfg, Init(maxPayload), init), schedule[|schedule| - 1]);
    }
  }

  lemma {:induction false} NoneSelected(rows: seq<CandidateRow>, r: RunId)
    requires forall i :: 0 <= i < |rows| ==> rows[i].run != r
    ensures CountSelected(rows, r) == 0
  {
    if rows != [] { NoneSelected(rows[..|rows| - 1], r); }
  }

  /** The identifiers drawn for the rows are fresh and the outgoing fact satisfies its contract. */
  predicate Unobstructed(cfg: Config, t: Tables, a: Action) {
    match a
    case CallFail(_, _, _, _, _, id, io) => io.Commits? && FreshMessage(t, id)
    case CallReject(_, _, _, id, io) => io.Commits? && FreshMessage(t, id)
    case CallComplete(_, _, x, docId, reportId, io) =>
      io.Commits? && docId != reportId && FreshMessage(t, docId) && FreshMessage(t, reportId) && cfg.factValid(x.document, x.irBlob)
    case _ => true
  }

  lemma AcceptableApplies(cfg: Config, t: Tables, held: QueuedRun, a: Action, w: nat, e: Effect)
    requires IsTerminal(e) && PlanShape.Acceptable(e) && PlanShape.Told(e) && Performs(a, w, e)
    requires IsRunning(t, held.runId) && CandidatesSettled(t) && Unobstructed(cfg, t, a)
    ensures WorkerCall(cfg, t, held, a).answer == Ok(Applied)
  {
    assert forall i :: 0 <= i < |t.candidates| ==> t.candidates[i].run != held.runId;
    NoneSelected(t.candidates, held.runId);
  }

  ghost predicate Mentions(p: Plan, e: Effect) { p.Do? && (p.effect == e || Mentions(p.rest, e)) }

  lemma {:induction false} MentionedIsAcceptable(p: Plan, e: Effect)
    requires PlanShape.AllAcceptable(p) && PlanShape.AllTold(p) && Mentions(p, e)
    ensures PlanShape.Acceptable(e) && PlanShape.Told(e)
  {
    if p.effect != e { MentionedIsAcceptable(p.rest, e); }
  }

  /**
    While the run is still running, a terminal call of any plan settles it: nothing that parsers,
    stores or earlier workers produced makes its own transaction refuse it.
   */
  lemma PlannedCallApplies(cfg: Config, maxPayload: nat, schedule: seq<Action>, world: World, w: nat, a: Action, e: Effect)
    requires PlanShape.PromisesKept(world)
    requires var s := Execute(cfg, Init(maxPayload), schedule);
             && w in s.workers && IsRunning(s.tables, s.workers[w].runId)
             && IsTerminal(e) && Mentions(ProcessRun(world, s.workers[w]), e) && Performs(a, w, e)
             && Unobstructed(cfg, s.tables, a)
    ensures var s := Execute(cfg, Init(maxPayload), schedule);
            WorkerCall(cfg, s.tables, s.workers[w], a).answer == Ok(Applied)
  {
    var s := Execute(cfg, Init(maxPayload), schedule);
    ReachableCandidates(cfg, maxPayload, schedule);
    PlanShape.PlanShape(world, s.workers[w]);
    MentionedIsAcceptable(ProcessRun(world, s.workers[w]), e);
    AcceptableApplies(cfg, s.tables, s.workers[w], a, w, e);
  }
}
