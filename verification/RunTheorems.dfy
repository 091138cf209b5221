/** The run protocol over whole schedules: what every reachable state and every execution satisfies. */
module RunTheorems {
  import opened Wrappers
  import opened Tables
  import opened Transactions
  import opened Protocol
  import opened RunSafety

  // ----- one step

  lemma HeldKept(t: Tables, t': Tables, held: QueuedRun)
    requires RunsKept(t, t') && HeldRunMatches(t, held)
    ensures HeldRunMatches(t', held)
  {
  }

  lemma WorkersKept(cfg: Config, s: System, s': System)
    requires Inv(cfg, s) && TablesInv(s'.tables) && RunsKept(s.tables, s'.tables)
    requires s'.workers == s.workers && s'.acked == s.acked
    ensures Inv(cfg, s')
  {
    forall w | w in s'.workers ensures HeldRunMatches(s'.tables, s'.workers[w]) {
      HeldKept(s.tables, s'.tables, s.workers[w]);
    }
  }

  lemma KeptReflexive(t: Tables)
    ensures TablesKept(t, t)
  {
  }

  /** Committing, rolling back and losing the answer all keep what the transaction itself keeps. */
  lemma FinishKeeps<T>(io: Io, t: Tables, a: Attempt<T>)
    requires TablesInv(t) && TablesInv(a.tables) && TablesKept(t, a.tables)
    ensures var t' := Finish(io, t, a).tables; TablesInv(t') && TablesKept(t, t')
  {
    KeptReflexive(t);
  }

  lemma DeliverKeeps(cfg: Config, s: System, a: Action)
    requires Inv(cfg, s) && a.Deliver?
    ensures Inv(cfg, ApplyDeliver(cfg, s, a)) && Kept(s, ApplyDeliver(cfg, s, a))
  {
    var attempt := ConsumeCapture(cfg, s.tables, a.at, a.message, a.runId, a.id);
    var t' := Finish(a.io, s.tables, attempt).tables;
    ConsumeCaptureKeeps(cfg, s.tables, a.at, a.message, a.runId, a.id);
    FinishKeeps(a.io, s.tables, attempt);
    WorkersKept(cfg, s, s.(tables := t'));
    if !Poison(cfg, a.message) && Acknowledges(Finish(a.io, s.tables, attempt).answer) {
      AckIsDurable(cfg, s, a);
    }
  }

  /** What the consumer acknowledges now is poison, or already in the inbox it leaves. */
  lemma AckIsDurable(cfg: Config, s: System, a: Action)
    requires a.Deliver? && !Poison(cfg, a.message)
    requires Acknowledges(Finish(a.io, s.tables, ConsumeCapture(cfg, s.tables, a.at, a.message, a.runId, a.id)).answer)
    ensures DecodeCapture(cfg, a.message).value.commandId in ApplyDeliver(cfg, s, a).tables.inbox
  {
  }

  lemma ClaimRunKeeps(cfg: Config, s: System, a: Action)
    requires Inv(cfg, s) && a.ClaimRun?
    ensures Inv(cfg, ApplyClaimRun(s, a)) && Kept(s, ApplyClaimRun(s, a))
  {
    if ApplyClaimRun(s, a) == s {
      KeptReflexive(s.tables);
    } else {
      var t' := ClaimedTables(s.tables, s.now, a.run, "extractor", a.lease);
      ClaimKeeps(s.tables, s.now, a.run, "extractor", a.lease);
      WorkersKept(cfg, s, s.(tables := t'));
      NewHolder(s.tables, s.now, a.run, a.lease, a.maxEventBytes);
      HolderAdded(cfg, s.(tables := t'), a.worker, QueuedRunOf(t', a.run, a.maxEventBytes));
    }
  }

  lemma HolderAdded(cfg: Config, s: System, w: nat, held: QueuedRun)
    requires Inv(cfg, s) && HeldRunMatches(s.tables, held)
    ensures Inv(cfg, s.(workers := s.workers[w := held]))
  {
  }

  /** What a claim hands to the worker is what the run's own command asked for. */
  lemma NewHolder(t: Tables, now: nat, r: RunId, lease: int, limit: nat)
    requires RunTablesInv(t) && r in t.runs
    ensures var t' := ClaimedTables(t, now, r, "extractor", lease);
            t'.runs[r].source in t'.sources && HeldRunMatches(t', QueuedRunOf(t', r, limit))
  {
  }

  lemma WorkerCallTables(cfg: Config, t: Tables, held: QueuedRun, a: Action)
    requires TablesInv(t) && IsTerminalCall(a)
    ensures var t' := WorkerCall(cfg, t, held, a).tables; TablesInv(t') && TablesKept(t, t')
  {
    if a.CallFail? {
      FailRunKeeps(t, a.at, held.runId, a.failureClass, a.retryable, a.steps, a.id);
      FinishKeeps(a.io, t, FailRun(t, a.at, held.runId, a.failureClass, a.retryable, a.steps, a.id));
    } else if a.CallReject? {
      RejectRunKeeps(t, a.at, held.runId, a.rejection, a.id);
      FinishKeeps(a.io, t, RejectRun(t, a.at, held.runId, a.rejection, a.id));
    } else {
      CompleteRunKeeps(cfg, t, a.at, held.runId, held.maxEventBytes, a.success, a.docId, a.reportId);
      FinishKeeps(a.io, t, CompleteRun(cfg, t, a.at, held.runId, held.maxEventBytes, a.success, a.docId, a.reportId));
    }
  }

  lemma RecordFetchTables(t: Tables, r: RunId, f: CompletedFetch, io: Io)
    requires TablesInv(t)
    ensures var t' := Finish(io, t, RecordFetch(t, r, f)).tables; TablesInv(t') && TablesKept(t, t')
  {
    KeptReflexive(t);
    if r in t.runs {
      RecordKeeps(t, r, RawSource, f.rawBlob, [FetchRow(r, f)]);
    }
  }

  lemma DiagnosticsTables(t: Tables, r: RunId, blob: BlobRef, io: Io)
    requires TablesInv(t)
    ensures var t' := Finish(io, t, RecordDiagnostics(t, r, blob)).tables; TablesInv(t') && TablesKept(t, t')
  {
    KeptReflexive(t);
    if r in t.runs {
      RecordKeeps(t, r, Diagnostics, blob, []);
      assert t.fetches + [] == t.fetches;
    }
  }

  /** A call a worker makes changes the tables and nothing else. */
  lemma CallKeeps(cfg: Config, s: System, t': Tables)
    requires Inv(cfg, s) && TablesInv(t') && TablesKept(s.tables, t')
    ensures Inv(cfg, s.(tables := t')) && Kept(s, s.(tables := t'))
  {
    WorkersKept(cfg, s, s.(tables := t'));
  }

  lemma CalledTablesKeep(cfg: Config, t: Tables, held: QueuedRun, a: Action)
    requires TablesInv(t) && IsWorkerCall(a)
    ensures var t' := CalledTables(cfg, t, held, a); TablesInv(t') && TablesKept(t, t')
  {
    if a.CallRecordFetch? {
      RecordFetchTables(t, held.runId, a.fetch, a.io);
    } else if a.CallDiagnose? {
      DiagnosticsTables(t, held.runId, a.blob, a.io);
    } else {
      WorkerCallTables(cfg, t, held, a);
    }
  }

  lemma WorkerStepKeeps(cfg: Config, s: System, a: Action)
    requires Inv(cfg, s) && IsWorkerCall(a)
    ensures Inv(cfg, ApplyCall(cfg, s, a)) && Kept(s, ApplyCall(cfg, s, a))
  {
    if a.worker in s.workers {
      CalledTablesKeep(cfg, s.tables, s.workers[a.worker], a);
      CallKeeps(cfg, s, ApplyCall(cfg, s, a).tables);
    } else {
      KeptReflexive(s.tables);
    }
  }

  lemma RelayFacts(cfg: Config, s: System, a: Action)
    requires IsRelayStep(a)
    ensures var s' := ApplyRelay(cfg, s, a);
            && s' == s.(tables := s.tables.(outbox := s'.tables.outbox), relays := s'.relays, broker := s'.broker)
            && SameFacts(s.tables.outbox, s'.tables.outbox) && OutboxKept(s.tables.outbox, s'.tables.outbox)
            && s.broker <= s'.broker
  {
    if a.RelayClaim? {
      LeaseKeepsMarks(s.tables.outbox, a.rows, s.now);
    } else if a.RelayMark? && a.relay in s.relays && s.relays[a.relay].Marking? && s.relays[a.relay].row < |s.tables.outbox| {
      MarkKeepsMarks(s.tables.outbox, s.relays[a.relay].row, s.relays[a.relay].verdict, s.now);
    }
  }

  lemma LeaseKeepsMarks(outbox: seq<OutboxRow>, rows: seq<nat>, now: nat)
    ensures OutboxKept(outbox, LeaseRows(outbox, rows, now))
  {
  }

  lemma MarkKeepsMarks(outbox: seq<OutboxRow>, i: nat, verdict: Verdict, now: nat)
    requires i < |outbox|
    ensures var marked := outbox[i := outbox[i].(delivery := Mark(outbox[i].delivery, verdict, now))];
            SameFacts(outbox, marked) && OutboxKept(outbox, marked)
  {
  }

  lemma RelayKeeps(cfg: Config, s: System, a: Action)
    requires Inv(cfg, s) && IsRelayStep(a)
    ensures Inv(cfg, ApplyRelay(cfg, s, a)) && Kept(s, ApplyRelay(cfg, s, a))
  {
    var s' := ApplyRelay(cfg, s, a);
    RelayFacts(cfg, s, a);
    DeliveryKeeps(s.tables, s'.tables.outbox);
    WorkersKept(cfg, s, s');
  }

  lemma StepKeeps(cfg: Config, s: System, a: Action)
    requires Inv(cfg, s)
    ensures Inv(cfg, Apply(cfg, s, a)) && Kept(s, Apply(cfg, s, a))
  {
    if a.Deliver? {
      DeliverKeeps(cfg, s, a);
    } else if a.ClaimRun? {
      ClaimRunKeeps(cfg, s, a);
    } else if IsWorkerCall(a) {
      WorkerStepKeeps(cfg, s, a);
    } else if IsRelayStep(a) {
      RelayKeeps(cfg, s, a);
    } else {
      KeptReflexive(s.tables);
    }
  }

  // ----- whole schedules

  lemma KeptTransitive(s: System, s': System, s'': System)
    requires Kept(s, s') && Kept(s', s'')
    ensures Kept(s, s'')
  {
    assert OutboxKept(s.tables.outbox, s''.tables.outbox);
  }

  /** Every schedule keeps the invariant, and nothing it committed is ever taken back. */
  lemma {:induction false} ScheduleKeeps(cfg: Config, s: System, schedule: seq<Action>)
    requires Inv(cfg, s)
    ensures Inv(cfg, Execute(cfg, s, schedule)) && Kept(s, Execute(cfg, s, schedule))
    decreases |schedule|
  {
    if schedule == [] {
      KeptReflexive(s.tables);
    } else {
      var init := schedule[..|schedule| - 1];
      ScheduleKeeps(cfg, s, init);
      StepKeeps(cfg, Execute(cfg, s, init), schedule[|schedule| - 1]);
      KeptTransitive(s, Execute(cfg, s, init), Execute(cfg, s, schedule));
    }
  }

  lemma InitInv(cfg: Config, maxPayload: nat)
    ensures Inv(cfg, Init(maxPayload))
  {
  }

  lemma ReachableInv(cfg: Config, maxPayload: nat, schedule: seq<Action>)
    ensures Inv(cfg, Execute(cfg, Init(maxPayload), schedule))
  {
    InitInv(cfg, maxPayload);
    ScheduleKeeps(cfg, Init(maxPayload), schedule);
  }

  /** The state before step `i` of a schedule. */
  function Before(cfg: Config, s: System, schedule: seq<Action>, i: nat): System
    requires i <= |schedule|
  {
    Execute(cfg, s, schedule[..i])
  }

  lemma BeforeKeeps(cfg: Config, s: System, schedule: seq<Action>, i: nat, j: nat)
    requires Inv(cfg, s) && i <= j <= |schedule|
    ensures Inv(cfg, Before(cfg, s, schedule, i)) && Kept(Before(cfg, s, schedule, i), Before(cfg, s, schedule, j))
  {
    ScheduleKeeps(cfg, s, schedule[..i]);
    ScheduleKeeps(cfg, Before(cfg, s, schedule, i), schedule[i..j]);
    ExecuteConcat(cfg, s, schedule[..i], schedule[i..j]);
    assert schedule[..i] + schedule[i..j] == schedule[..j];
  }

  lemma BeforeNext(cfg: Config, s: System, schedule: seq<Action>, i: nat)
    requires i < |schedule|
    ensures Before(cfg, s, schedule, i + 1) == Apply(cfg, Before(cfg, s, schedule, i), schedule[i])
  {
    assert schedule[..i + 1][..i] == schedule[..i];
  }

  // ----- one run and one queued report for every command

  ghost predicate ExactlyOne(rows: seq<OutboxRow>, c: CommandId, tag: Tag) {
    && (exists i :: 0 <= i < |rows| && rows[i].command == c && TagOf(rows[i].event) == tag)
    && (forall i, j | 0 <= i < |rows| && 0 <= j < |rows| ::
          (rows[i].command == c && TagOf(rows[i].event) == tag && rows[j].command == c && TagOf(rows[j].event) == tag)
          ==> i == j)
  }

  lemma CountOneIsExactlyOne(rows: seq<OutboxRow>, c: CommandId, tag: Tag)
    requires CountRows(rows, c, tag) == 1
    ensures ExactlyOne(rows, c, tag)
  {
    CountRowsZero(rows, c, tag);
    forall i, j | 0 <= i < |rows| && 0 <= j < |rows|
                  && rows[i].command == c && TagOf(rows[i].event) == tag
                  && rows[j].command == c && TagOf(rows[j].event) == tag
      ensures i == j
    {
      CountRowsUnique(rows, c, tag, i, j);
    }
  }

  /** However often a command is delivered, the inbox holds exactly one run and one queued report of it. */
  lemma OneRunPerCommand(cfg: Config, maxPayload: nat, schedule: seq<Action>, c: CommandId)
    requires c in Execute(cfg, Init(maxPayload), schedule).tables.inbox
    ensures var t := Execute(cfg, Init(maxPayload), schedule).tables;
            && (exists r :: r in t.runs && t.runs[r].command == c)
            && (forall r, r' :: r in t.runs && r' in t.runs && t.runs[r].command == c && t.runs[r'].command == c ==> r == r')
            && ExactlyOne(t.outbox, c, TagQueued)
  {
    ReachableInv(cfg, maxPayload, schedule);
    var t := Execute(cfg, Init(maxPayload), schedule).tables;
    var r := t.inbox[c];
    assert r in t.runs && t.runs[r].command == c && RecordsMatchStatus(t, r);
    CountOneIsExactlyOne(t.outbox, c, TagQueued);
  }

  // ----- one terminal transition for every run

  /** Step `a` takes run `r` from running to a terminal status. */
  predicate Settles(cfg: Config, s: System, a: Action, r: RunId) {
    && IsRunning(s.tables, r)
    && r in Apply(cfg, s, a).tables.runs
    && Apply(cfg, s, a).tables.runs[r].status.Terminal()
  }

  /** A terminal call answers `Applied` only when it is the one that settled its run. */
  lemma AppliedSettles(cfg: Config, s: System, a: Action)
    requires IsTerminalCall(a)
    requires a.worker in s.workers && WorkerCall(cfg, s.tables, s.workers[a.worker], a).answer == Ok(Applied)
    ensures Settles(cfg, s, a, s.workers[a.worker].runId)
  {
  }

  /** No two steps of any schedule settle the same run, and the first one's row is final. */
  lemma SettlesOnce(cfg: Config, maxPayload: nat, schedule: seq<Action>, i: nat, j: nat, r: RunId)
    requires i < j < |schedule|
    requires Settles(cfg, Before(cfg, Init(maxPayload), schedule, i), schedule[i], r)
    ensures !Settles(cfg, Before(cfg, Init(maxPayload), schedule, j), schedule[j], r)
    ensures var first := Before(cfg, Init(maxPayload), schedule, i + 1).tables.runs;
            var later := Before(cfg, Init(maxPayload), schedule, j).tables.runs;
            r in first && r in later && later[r] == first[r]
  {
    InitInv(cfg, maxPayload);
    BeforeNext(cfg, Init(maxPayload), schedule, i);
    BeforeKeeps(cfg, Init(maxPayload), schedule, i + 1, j);
  }

  /** A run is settled when its worker, its lease or its lock is someone else's: the row decides. */
  lemma TerminalIsAbsorbing(cfg: Config, maxPayload: nat, history: seq<Action>, schedule: seq<Action>, r: RunId)
    requires var t := Execute(cfg, Init(maxPayload), history).tables; r in t.runs && t.runs[r].status.Terminal()
    ensures var t := Execute(cfg, Init(maxPayload), history).tables;
            var t' := Execute(cfg, Init(maxPayload), history + schedule).tables;
            r in t'.runs && t'.runs[r] == t.runs[r]
  {
    ReachableInv(cfg, maxPayload, history);
    TerminalStays(cfg, Execute(cfg, Init(maxPayload), history), schedule, r);
    ExecuteConcat(cfg, Init(maxPayload), history, schedule);
  }

  lemma TerminalStays(cfg: Config, s: System, schedule: seq<Action>, r: RunId)
    requires Inv(cfg, s) && r in s.tables.runs && s.tables.runs[r].status.Terminal()
    ensures var t' := Execute(cfg, s, schedule).tables; r in t'.runs && t'.runs[r] == s.tables.runs[r]
  {
    ScheduleKeeps(cfg, s, schedule);
    TerminalRowKept(s, Execute(cfg, s, schedule), r);
  }

  lemma TerminalRowKept(s: System, s': System, r: RunId)
    requires Kept(s, s') && r in s.tables.runs && s.tables.runs[r].status.Terminal()
    ensures r in s'.tables.runs && s'.tables.runs[r] == s.tables.runs[r]
  {
  }

  ghost predicate HasTerminalReport(rows: seq<OutboxRow>, c: CommandId, i: int) {
    0 <= i < |rows| && rows[i].command == c && TerminalReport(rows[i].event)
  }

  lemma TerminalReportCounts(t: Tables, r: RunId)
    requires TablesInv(t) && r in t.runs
    ensures forall i, j ::
              (HasTerminalReport(t.outbox, t.runs[r].command, i) && HasTerminalReport(t.outbox, t.runs[r].command, j))
              ==> i == j
    ensures t.runs[r].status.Terminal() <==> exists i :: HasTerminalReport(t.outbox, t.runs[r].command, i)
  {
    var c := t.runs[r].command;
    assert RecordsMatchStatus(t, r);
    CountRowsZero(t.outbox, c, TagFailed);
    CountRowsZero(t.outbox, c, TagSucceeded);
    CountRowsZero(t.outbox, c, TagPartial);
    forall i, j | HasTerminalReport(t.outbox, c, i) && HasTerminalReport(t.outbox, c, j) ensures i == j {
      CountRowsUnique(t.outbox, c, TagOf(t.outbox[i].event), i, j);
    }
    if t.runs[r].status.Terminal() {
      var tag := if t.runs[r].status.Failed? then TagFailed
                 else if CountRows(t.outbox, c, TagSucceeded) == 1 then TagSucceeded else TagPartial;
      CountOneIsExactlyOne(t.outbox, c, tag);
      var i :| 0 <= i < |t.outbox| && t.outbox[i].command == c && TagOf(t.outbox[i].event) == tag;
      assert HasTerminalReport(t.outbox, c, i);
    }
  }

  /** A run has exactly one terminal report when it is terminal and none otherwise. */
  lemma OneTerminalReport(cfg: Config, maxPayload: nat, schedule: seq<Action>, r: RunId)
    requires r in Execute(cfg, Init(maxPayload), schedule).tables.runs
    ensures var t := Execute(cfg, Init(maxPayload), schedule).tables;
            var c := t.runs[r].command;
            && (t.runs[r].status.Terminal() <==> exists i :: HasTerminalReport(t.outbox, c, i))
            && (forall i, j :: HasTerminalReport(t.outbox, c, i) && HasTerminalReport(t.outbox, c, j) ==> i == j)
  {
    ReachableInv(cfg, maxPayload, schedule);
    TerminalReportCounts(Execute(cfg, Init(maxPayload), schedule).tables, r);
  }

  // ----- the records of a settled run

  /** A succeeded run: one Document IR, one selected candidate, and a fact exactly with a plain success. */
  lemma SucceededRunRecords(cfg: Config, maxPayload: nat, schedule: seq<Action>, r: RunId)
    requires var t := Execute(cfg, Init(maxPayload), schedule).tables; r in t.runs && t.runs[r].status.Succeeded?
    ensures var t := Execute(cfg, Init(maxPayload), schedule).tables;
            var c := t.runs[r].command;
            && CountArtifacts(t.artifacts, r, DocumentIr) == 1
            && CountSelected(t.candidates, r) == 1
            && CountRows(t.outbox, c, TagFailed) == 0
            && (|| (ExactlyOne(t.outbox, c, TagDocument) && ExactlyOne(t.outbox, c, TagSucceeded)
                    && CountRows(t.outbox, c, TagPartial) == 0)
                || (CountRows(t.outbox, c, TagDocument) == 0 && CountRows(t.outbox, c, TagSucceeded) == 0
                    && ExactlyOne(t.outbox, c, TagPartial)))
            && (forall i :: 0 <= i < |t.outbox| ==> WarningsMatch(t.outbox[i].event))
  {
    ReachableInv(cfg, maxPayload, schedule);
    var t := Execute(cfg, Init(maxPayload), schedule).tables;
    var c := t.runs[r].command;
    assert RecordsMatchStatus(t, r);
    if CountRows(t.outbox, c, TagDocument) == 1 {
      CountOneIsExactlyOne(t.outbox, c, TagDocument);
      CountOneIsExactlyOne(t.outbox, c, TagSucceeded);
    } else {
      CountOneIsExactlyOne(t.outbox, c, TagPartial);
    }
  }

  /** A run that did not succeed has no Document IR, no document fact and no selected candidate. */
  lemma UnsuccessfulRunRecords(cfg: Config, maxPayload: nat, schedule: seq<Action>, r: RunId)
    requires var t := Execute(cfg, Init(maxPayload), schedule).tables; r in t.runs && !t.runs[r].status.Succeeded?
    ensures var t := Execute(cfg, Init(maxPayload), schedule).tables;
            var c := t.runs[r].command;
            && CountArtifacts(t.artifacts, r, DocumentIr) == 0
            && CountSelected(t.candidates, r) == 0
            && CountRows(t.outbox, c, TagDocument) == 0
            && CountRows(t.outbox, c, TagSucceeded) == 0 && CountRows(t.outbox, c, TagPartial) == 0
            && (t.runs[r].status.Failed? ==> ExactlyOne(t.outbox, c, TagFailed))
  {
    ReachableInv(cfg, maxPayload, schedule);
    var t := Execute(cfg, Init(maxPayload), schedule).tables;
    assert RecordsMatchStatus(t, r);
    if t.runs[r].status.Failed? {
      CountOneIsExactlyOne(t.outbox, t.runs[r].command, TagFailed);
    }
  }

  /**
    The completion that settled its run, whether or not its worker saw the answer: serialized size
    against the limit of that worker decides between a document event with a plain success and a
    partial success without one.
   */
  lemma SizeDecidesTheReport(cfg: Config, maxPayload: nat, schedule: seq<Action>, i: nat)
    requires i < |schedule| && schedule[i].CallComplete?
    requires var s := Before(cfg, Init(maxPayload), schedule, i);
             schedule[i].worker in s.workers && Settles(cfg, s, schedule[i], s.workers[schedule[i].worker].runId)
    ensures var held := Before(cfg, Init(maxPayload), schedule, i).workers[schedule[i].worker];
            var t := Before(cfg, Init(maxPayload), schedule, i + 1).tables;
            held.runId in t.runs && ReportedBySize(cfg, t, held, schedule[i].success)
  {
    var s := Before(cfg, Init(maxPayload), schedule, i);
    ReachableInv(cfg, maxPayload, schedule[..i]);
    BeforeNext(cfg, Init(maxPayload), schedule, i);
    SettlingCompletion(cfg, s.tables, s.workers[schedule[i].worker], schedule[i]);
  }

  /** Exactly one form of success is enqueued for the run, the one its size calls for. */
  predicate ReportedBySize(cfg: Config, t: Tables, held: QueuedRun, x: Success)
    requires held.runId in t.runs
  {
    var c := t.runs[held.runId].command;
    var fits := cfg.eventBytes(Extracted(x.document, x.irBlob)) <= held.maxEventBytes;
    && t.runs[held.runId].status.Succeeded?
    && CountRows(t.outbox, c, TagDocument) == (if fits then 1 else 0)
    && CountRows(t.outbox, c, TagSucceeded) == (if fits then 1 else 0)
    && CountRows(t.outbox, c, TagPartial) == (if fits then 0 else 1)
  }

  lemma SettlingCompletion(cfg: Config, t: Tables, held: QueuedRun, a: Action)
    requires RecordsInv(t) && a.CallComplete? && IsRunning(t, held.runId)
    requires var t' := WorkerCall(cfg, t, held, a).tables; held.runId in t'.runs && t'.runs[held.runId].status.Terminal()
    ensures var t' := WorkerCall(cfg, t, held, a).tables; held.runId in t'.runs && ReportedBySize(cfg, t', held, a.success)
  {
    assert RecordsMatchStatus(t, held.runId);
    SettlingTables(cfg, t, held, a);
    CompletionRowsCount(cfg, t.outbox, t.runs[held.runId], a.success, held.maxEventBytes, a.docId, a.reportId, a.at);
  }

  lemma SettlingTables(cfg: Config, t: Tables, held: QueuedRun, a: Action)
    requires a.CallComplete? && IsRunning(t, held.runId)
    requires var t' := WorkerCall(cfg, t, held, a).tables; held.runId in t'.runs && t'.runs[held.runId].status.Terminal()
    ensures WorkerCall(cfg, t, held, a).tables
            == SucceededTables(cfg, t, a.at, held.runId, held.maxEventBytes, a.success, a.docId, a.reportId)
  {
  }

  // ----- intake

  /** A message the consumer acknowledged is poison or its command is in the inbox for good. */
  lemma AcknowledgedIsDurable(cfg: Config, maxPayload: nat, schedule: seq<Action>, m: Message)
    requires m in Execute(cfg, Init(maxPayload), schedule).acked && !Poison(cfg, m)
    ensures DecodeCapture(cfg, m).value.commandId in Execute(cfg, Init(maxPayload), schedule).tables.inbox
  {
    ReachableInv(cfg, maxPayload, schedule);
  }

  /** The step delivered the very command whose run this is. */
  ghost predicate RequestedBy(cfg: Config, a: Action, run: Run) {
    && a.Deliver?
    && DecodeCapture(cfg, a.message).Ok?
    && var command := DecodeCapture(cfg, a.message).value;
       && command.commandId == run.command && command.operation == run.operation
       && IntakeSourceOf(cfg, command.source).Ok?
       && run.source == SourceKey(command.owner, IntakeSourceOf(cfg, command.source).value.address)
       && run.claim == IntakeSourceOf(cfg, command.source).value.claim
  }

  ghost predicate Requested(cfg: Config, schedule: seq<Action>, run: Run) {
    exists i :: 0 <= i < |schedule| && RequestedBy(cfg, schedule[i], run)
  }

  lemma RequestedLater(cfg: Config, schedule: seq<Action>, a: Action, run: Run, run': Run)
    requires run'.command == run.command && run'.operation == run.operation && run'.source == run.source && run'.claim == run.claim
    requires Requested(cfg, schedule, run)
    ensures Requested(cfg, schedule + [a], run')
  {
    var i :| 0 <= i < |schedule| && RequestedBy(cfg, schedule[i], run);
    assert (schedule + [a])[i] == schedule[i];
  }

  /** A run appears only by the delivery of its command. */
  lemma NewRunIsRequested(cfg: Config, s: System, a: Action, r: RunId)
    requires r !in s.tables.runs && r in Apply(cfg, s, a).tables.runs
    ensures RequestedBy(cfg, a, Apply(cfg, s, a).tables.runs[r])
  {
    if a.Deliver? {
      IntakeIsRequested(cfg, s.tables, a, r);
    } else {
      OnlyDeliveryAddsRuns(cfg, s, a);
    }
  }

  lemma OnlyDeliveryAddsRuns(cfg: Config, s: System, a: Action)
    requires !a.Deliver?
    ensures Apply(cfg, s, a).tables.runs.Keys == s.tables.runs.Keys
  {
    if IsWorkerCall(a) && a.worker in s.workers {
      CallsKeepRuns(cfg, s.tables, s.workers[a.worker], a);
    }
  }

  lemma CallsKeepRuns(cfg: Config, t: Tables, held: QueuedRun, a: Action)
    requires IsWorkerCall(a)
    ensures CalledTables(cfg, t, held, a).runs.Keys == t.runs.Keys
  {
  }

  lemma IntakeIsRequested(cfg: Config, t: Tables, a: Action, r: RunId)
    requires a.Deliver? && r !in t.runs
    requires r in Finish(a.io, t, ConsumeCapture(cfg, t, a.at, a.message, a.runId, a.id)).tables.runs
    ensures RequestedBy(cfg, a, Finish(a.io, t, ConsumeCapture(cfg, t, a.at, a.message, a.runId, a.id)).tables.runs[r])
  {
  }

  lemma {:induction false} EveryRunIsRequested(cfg: Config, maxPayload: nat, schedule: seq<Action>, r: RunId)
    requires r in Execute(cfg, Init(maxPayload), schedule).tables.runs
    ensures Requested(cfg, schedule, Execute(cfg, Init(maxPayload), schedule).tables.runs[r])
    decreases |schedule|
  {
    if schedule != [] {
      var init, a := schedule[..|schedule| - 1], schedule[|schedule| - 1];
      var s := Execute(cfg, Init(maxPayload), init);
      assert schedule == init + [a];
      if r in s.tables.runs {
        EveryRunIsRequested(cfg, maxPayload, init, r);
        ReachableInv(cfg, maxPayload, init);
        StepKeeps(cfg, s, a);
        RequestedLater(cfg, init, a, s.tables.runs[r], Apply(cfg, s, a).tables.runs[r]);
      } else {
        NewRunIsRequested(cfg, s, a, r);
        assert RequestedBy(cfg, schedule[|schedule| - 1], Apply(cfg, s, a).tables.runs[r]);
      }
    }
  }

  /** What a worker holds of the command that was delivered: its blob, or its normalized address. */
  predicate HeldAsRequested(cfg: Config, command: CaptureCommand, held: QueuedRun) {
    && held.owner == command.owner
    && match command.source
       case CaptureBlob(blob) => held.blob == Some(blob) && held.url == BlobUrn(blob.digest)
       case CaptureUrl(url) => held.blob.None? && cfg.normalize(url).Some? && held.url == Web(cfg.normalize(url).value)
  }

  lemma RequestedIsHeld(cfg: Config, a: Action, t: Tables, held: QueuedRun)
    requires HeldRunMatches(t, held) && RequestedBy(cfg, a, t.runs[held.runId])
    ensures HeldAsRequested(cfg, DecodeCapture(cfg, a.message).value, held)
  {
  }

  ghost predicate DeliveredFor(cfg: Config, a: Action, held: QueuedRun) {
    a.Deliver? && DecodeCapture(cfg, a.message).Ok? && HeldAsRequested(cfg, DecodeCapture(cfg, a.message).value, held)
  }

  /**
    Whatever else was delivered, shared its source or claimed its digest: a worker holds exactly
    the bytes or the address that some delivered command named, and that command is its run's.
   */
  lemma HeldBlobIsOwnClaim(cfg: Config, maxPayload: nat, schedule: seq<Action>, w: nat) returns (i: nat)
    requires w in Execute(cfg, Init(maxPayload), schedule).workers
    ensures i < |schedule|
    ensures var s := Execute(cfg, Init(maxPayload), schedule);
            && DeliveredFor(cfg, schedule[i], s.workers[w])
            && s.workers[w].runId in s.tables.runs
            && DecodeCapture(cfg, schedule[i].message).value.commandId == s.tables.runs[s.workers[w].runId].command
  {
    var s := Execute(cfg, Init(maxPayload), schedule);
    var held := s.workers[w];
    ReachableInv(cfg, maxPayload, schedule);
    assert HeldRunMatches(s.tables, held);
    EveryRunIsRequested(cfg, maxPayload, schedule, held.runId);
    i :| 0 <= i < |schedule| && RequestedBy(cfg, schedule[i], s.tables.runs[held.runId]);
    RequestedIsHeld(cfg, schedule[i], s.tables, held);
  }
}
