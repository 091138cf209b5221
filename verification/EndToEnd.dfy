/** From the answers of the world to the events a consumer reads. */
module EndToEnd {
  import opened Wrappers
  import opened Tables
  import opened Transactions
  import opened Protocol
  import opened RunTheorems
  import opened RowOrigins
  import Pipeline
  import PlanOutcome

  /** The worker whose call is step `k` holds this run. */
  predicate HolderAt(cfg: Config, maxPayload: nat, schedule: seq<Action>, k: nat, held: QueuedRun) {
    && k < |schedule| && IsTerminalCall(schedule[k])
    && var s := Before(cfg, Init(maxPayload), schedule, k); schedule[k].worker in s.workers && s.workers[schedule[k].worker] == held
  }

  /** Every completion a worker calls is one of the plan for the run it holds, in the world it saw. */
  ghost predicate CompletionsPlanned(cfg: Config, maxPayload: nat, schedule: seq<Action>, worlds: nat -> Pipeline.World) {
    forall k: nat, held ::
      HolderAt(cfg, maxPayload, schedule, k, held) && schedule[k].CallComplete? ==>
        Pipeline.Complete(schedule[k].success) in PlanOutcome.EffectsOf(Pipeline.ProcessRun(worlds(k), held))
  }

  /**
    Over every schedule whose completions are the workers' own plans: every success report and every
    document event carries the document of an extraction that was accepted on its run's path, the
    Document IR stored for it, and the operation of the run.
   */
  lemma PublishedIsAccepted(cfg: Config, maxPayload: nat, schedule: seq<Action>, worlds: nat -> Pipeline.World, i: nat)
    returns (k: nat, held: QueuedRun, x: PlanOutcome.Extraction)
    requires CompletionsPlanned(cfg, maxPayload, schedule, worlds)
    requires var o := Execute(cfg, Init(maxPayload), schedule).tables.outbox; i < |o| && IsSuccess(o[i].event)
    ensures HolderAt(cfg, maxPayload, schedule, k, held) && PlanOutcome.Accepted(worlds(k), held, x)
    ensures var row := Execute(cfg, Init(maxPayload), schedule).tables.outbox[i];
            var runs := Before(cfg, Init(maxPayload), schedule, k).tables.runs;
            && DocumentOf(row.event) == x.document && worlds(k).irBlob == Some(BlobOf(row.event))
            && held.runId in runs && row.command == runs[held.runId].command && row.operation == runs[held.runId].operation
  {
    k := SuccessNamesItsDocumentIr(cfg, maxPayload, schedule, i);
    var s := Before(cfg, Init(maxPayload), schedule, k);
    held := s.workers[schedule[k].worker];
    x := PlanOutcome.ExtractionOf(schedule[k].success);
    assert HolderAt(cfg, maxPayload, schedule, k, held);
    PlanOutcome.CompletesExactly(worlds(k), held, schedule[k].success);
  }
}
