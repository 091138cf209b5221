/**
  The intake and the terminal calls as the program performs them, statement by statement: every
  statement changes the transaction's own view of the tables, any of them may fail on a conversion,
  a check constraint or a unique index with earlier rows already staged, a failure drops the view,
  and only the commit makes it the tables. Each method is proved against the transaction function.
 */
module DatabaseCalls {
  import opened Wrappers
  import opened Numbers
  import opened Tables
  import opened Transactions
  import RunSafety

  // ----- the inserts, each refused at its own row

  /** What the indexes and checks of `candidates` ask of one more row. */
  predicate RowAllowed(rows: seq<CandidateRow>, r: RunId, c: Candidate) {
    && CandidateChecked(c)
    && StrategyUnused(rows, r, c.strategy)
    && (c.selected ==> NoneSelected(rows, r))
  }

  predicate NoneSelected(rows: seq<CandidateRow>, r: RunId) {
    forall i :: 0 <= i < |rows| && rows[i].run == r ==> !rows[i].candidate.selected
  }

  lemma {:induction false} CountSelectedZero(rows: seq<CandidateRow>, r: RunId)
    ensures CountSelected(rows, r) == 0 <==> NoneSelected(rows, r)
  {
    if rows != [] {
      var init := rows[..|rows| - 1];
      CountSelectedZero(init, r);
      assert forall i :: 0 <= i < |init| ==> init[i] == rows[i];
    }
  }

  lemma SelectedInAppend(candidates: seq<Candidate>, c: Candidate)
    ensures SelectedIn(candidates + [c]) == SelectedIn(candidates) + if c.selected then 1 else 0
  {
    assert (candidates + [c])[..|candidates|] == candidates;
  }

  predicate StrategyUnused(rows: seq<CandidateRow>, r: RunId, strategy: string) {
    forall i :: 0 <= i < |rows| && rows[i].run == r ==> rows[i].candidate.strategy != strategy
  }

  /** The longer list repeats no strategy exactly when the shorter does not and its last row adds none. */
  lemma StrategiesAppend(rows: seq<CandidateRow>, r: RunId, candidates: seq<Candidate>, c: Candidate)
    requires StrategiesFit(rows, r, candidates)
    ensures StrategyUnused(rows + CandidateRows(r, candidates), r, c.strategy) <==> StrategiesFit(rows, r, candidates + [c])
  {
    var staged := rows + CandidateRows(r, candidates);
    var longer := candidates + [c];
    var n := |candidates|;
    assert longer[n] == c;
    assert forall i :: 0 <= i < n ==> staged[|rows| + i] == CandidateRow(r, longer[i]);
    if StrategiesFit(rows, r, longer) {
      forall i | 0 <= i < |staged| && staged[i].run == r ensures staged[i].candidate.strategy != c.strategy {
        if i < |rows| {
          assert rows[i].candidate.strategy != longer[n].strategy;
        } else {
          assert longer[i - |rows|].strategy != longer[n].strategy;
        }
      }
    }
    if StrategyUnused(staged, r, c.strategy) {
      forall i, j | 0 <= i < j < |longer| ensures longer[i].strategy != longer[j].strategy {
        assert staged[|rows| + i].run == r;
      }
      forall i, j | 0 <= i < |rows| && 0 <= j < |longer| && rows[i].run == r
        ensures rows[i].candidate.strategy != longer[j].strategy
      {
        assert staged[i] == rows[i];
      }
    }
  }

  lemma SelectedAppend(rows: seq<CandidateRow>, r: RunId, candidates: seq<Candidate>, c: Candidate)
    requires SelectionFits(rows, r, candidates)
    ensures SelectionFits(rows, r, candidates + [c]) <==> (c.selected ==> NoneSelected(rows + CandidateRows(r, candidates), r))
  {
    CountSelectedAppend(rows, r, candidates);
    CountSelectedZero(rows + CandidateRows(r, candidates), r);
    SelectedInAppend(candidates, c);
  }

  lemma CheckedAppend(candidates: seq<Candidate>, c: Candidate)
    requires CandidatesChecked(candidates)
    ensures CandidatesChecked(candidates + [c]) <==> CandidateChecked(c)
  {
    assert (candidates + [c])[|candidates|] == c;
  }

  /** Inserting a list row by row succeeds exactly when the list as a whole fits the indexes. */
  lemma InsertableByRow(rows: seq<CandidateRow>, r: RunId, candidates: seq<Candidate>, c: Candidate)
    requires CandidatesInsertable(rows, r, candidates)
    ensures CandidatesInsertable(rows, r, candidates + [c]) <==> RowAllowed(rows + CandidateRows(r, candidates), r, c)
  {
    CheckedAppend(candidates, c);
    StrategiesAppend(rows, r, candidates, c);
    SelectedAppend(rows, r, candidates, c);
  }

  lemma {:induction false} SelectedInPrefix(candidates: seq<Candidate>, n: nat)
    requires n <= |candidates|
    ensures SelectedIn(candidates[..n]) <= SelectedIn(candidates)
    decreases |candidates|
  {
    if n < |candidates| {
      var init := candidates[..|candidates| - 1];
      SelectedInPrefix(init, n);
      assert init[..n] == candidates[..n];
    } else {
      assert candidates[..n] == candidates;
    }
  }

  /** A list whose beginning is refused is refused. */
  lemma InsertablePrefix(rows: seq<CandidateRow>, r: RunId, candidates: seq<Candidate>, n: nat)
    requires n <= |candidates| && CandidatesInsertable(rows, r, candidates)
    ensures CandidatesInsertable(rows, r, candidates[..n])
  {
    SelectedInPrefix(candidates, n);
  }

  /** `insert_candidates`: stops at the first row an index or a check refuses. */
  method InsertCandidates(rows: seq<CandidateRow>, r: RunId, candidates: seq<Candidate>)
    returns (staged: Option<seq<CandidateRow>>)
    ensures staged == if CandidatesInsertable(rows, r, candidates) then Some(rows + CandidateRows(r, candidates)) else None
  {
    var inserted := rows;
    assert rows + CandidateRows(r, candidates[..0]) == rows;
    for i := 0 to |candidates|
      invariant inserted == rows + CandidateRows(r, candidates[..i])
      invariant CandidatesInsertable(rows, r, candidates[..i])
    {
      assert candidates[..i + 1] == candidates[..i] + [candidates[i]];
      InsertableByRow(rows, r, candidates[..i], candidates[i]);
      if !RowAllowed(inserted, r, candidates[i]) {
        if CandidatesInsertable(rows, r, candidates) { InsertablePrefix(rows, r, candidates, i + 1); }
        return None;
      }
      inserted := inserted + [CandidateRow(r, candidates[i])];
      assert CandidateRows(r, candidates[..i + 1]) == CandidateRows(r, candidates[..i]) + [CandidateRow(r, candidates[i])];
    }
    assert candidates[..|candidates|] == candidates;
    staged := Some(inserted);
  }

  /** `insert_resolution_steps` */
  method InsertSteps(rows: seq<StepRow>, r: RunId, steps: seq<Step>) returns (staged: Option<seq<StepRow>>)
    ensures staged == if StepsChecked(steps) then Some(rows + StepRows(r, steps)) else None
  {
    var inserted := rows;
    for i := 0 to |steps|
      invariant inserted == rows + StepRows(r, steps[..i]) && StepsChecked(steps[..i])
    {
      if !StepChecked(steps[i]) {
        return None;
      }
      inserted := inserted + [StepRow(r, steps[i])];
      assert StepRows(r, steps[..i + 1]) == StepRows(r, steps[..i]) + [StepRow(r, steps[i])];
    }
    assert steps[..|steps|] == steps;
    staged := Some(inserted);
  }

  /** `insert_fetch`, for a run that has one: conversions first, then the checks of the insert. */
  method InsertFetch(rows: seq<FetchRow>, r: RunId, fetch: Option<CompletedFetch>) returns (staged: Result<seq<FetchRow>, ConsumeError>)
    ensures staged == if fetch.Some? && !FetchFits(fetch.value) then Err(FetchRefusal(fetch.value))
                      else Ok(rows + FetchRows(r, fetch))
  {
    if fetch.None? {
      return Ok(rows + []);
    }
    var f := fetch.value;
    if f.wireBytes > I64_MAX || f.decodedBytes > I64_MAX || f.attempts > I32_MAX {
      return Err(InvalidArtifact);
    }
    if !FetchChecked(f) {
      return Err(ConsumeError.Database);
    }
    staged := Ok(rows + [FetchRow(r, f)]);
  }

  /** One outbox insert; `message_id` is unique among the rows the transaction sees. */
  method InsertEvent(rows: seq<OutboxRow>, row: OutboxRow) returns (staged: Option<seq<OutboxRow>>)
    ensures staged == if forall i :: 0 <= i < |rows| ==> rows[i].message != row.message then Some(rows + [row]) else None
  {
    if exists i :: 0 <= i < |rows| && rows[i].message == row.message {
      return None;
    }
    staged := Some(rows + [row]);
  }

  method SelectedCount(candidates: seq<Candidate>) returns (count: nat)
    ensures count == SelectedIn(candidates)
  {
    count := 0;
    for i := 0 to |candidates|
      invariant count == SelectedIn(candidates[..i])
    {
      assert candidates[..i + 1][..i] == candidates[..i];
      if candidates[i].selected {
        count := count + 1;
      }
    }
    assert candidates[..|candidates|] == candidates;
  }

  /** The rows of a rejection or a completion between its guarded update and its reports. */
  datatype Facts = Facts(fetches: seq<FetchRow>, artifacts: seq<ArtifactRow>, candidates: seq<CandidateRow>, steps: seq<StepRow>)

  /** The order of the inserts decides which refusal is answered. */
  function FactsRefusal(t: Tables, r: RunId, fetch: Option<CompletedFetch>, candidates: seq<Candidate>, steps: seq<Step>): Option<ConsumeError> {
    if fetch.Some? && !FetchFits(fetch.value) then Some(FetchRefusal(fetch.value))
    else if !CandidatesInsertable(t.candidates, r, candidates) || !StepsChecked(steps) then Some(ConsumeError.Database)
    else None
  }

  /** Fetch row, artifacts, candidates, steps, in the order of the program. */
  method InsertFacts(t: Tables, r: RunId, fetch: Option<CompletedFetch>, artifacts: seq<ArtifactRow>,
                     candidates: seq<Candidate>, steps: seq<Step>) returns (facts: Result<Facts, ConsumeError>)
    ensures FactsRefusal(t, r, fetch, candidates, steps).Some? ==> facts == Err(FactsRefusal(t, r, fetch, candidates, steps).value)
    ensures FactsRefusal(t, r, fetch, candidates, steps).None? ==>
              facts == Ok(Facts(t.fetches + FetchRows(r, fetch), t.artifacts + artifacts,
                                t.candidates + CandidateRows(r, candidates), t.steps + StepRows(r, steps)))
  {
    var fetches := InsertFetch(t.fetches, r, fetch);
    if fetches.Err? {
      return Err(fetches.error);
    }
    var stagedArtifacts := t.artifacts + artifacts;
    var stagedCandidates := InsertCandidates(t.candidates, r, candidates);
    if stagedCandidates.None? {
      return Err(ConsumeError.Database);
    }
    var stagedSteps := InsertSteps(t.steps, r, steps);
    if stagedSteps.None? {
      return Err(ConsumeError.Database);
    }
    facts := Ok(Facts(fetches.value, stagedArtifacts, stagedCandidates.value, stagedSteps.value));
  }

  function WithFacts(t: Tables, f: Facts): Tables {
    t.(fetches := f.fetches, artifacts := f.artifacts, candidates := f.candidates, steps := f.steps)
  }

  // ----- the calls

  class Database {
    const cfg: Config
    var tables: Tables

    constructor (cfg: Config)
      ensures this.cfg == cfg && tables == EMPTY
    {
      this.cfg := cfg;
      tables := EMPTY;
    }

    /** Makes a staged transaction visible, or not, as the database decides. */
    method Commit<T>(staged: Tables, answer: Result<T, ConsumeError>, io: Io) returns (r: Result<T, ConsumeError>)
      modifies this`tables
      ensures Attempt(tables, r) == Finish(io, old(tables), Attempt(staged, answer))
    {
      if io.RollsBack? {
        return Err(ConsumeError.Database);
      }
      tables := staged;
      r := if io.Commits? then answer else Err(ConsumeError.Database);
    }

    /** A failed statement drops the transaction: nothing it staged is kept. */
    method Drop<T>(error: ConsumeError, io: Io) returns (r: Result<T, ConsumeError>)
      ensures Attempt(tables, r) == Finish<T>(io, tables, Attempt(tables, Err(error)))
    {
      r := if io.Commits? then Err(error) else Err(ConsumeError.Database);
    }

    /** `consume_capture`: the inbox row first, so a refusal after it has to take it back. */
    method ConsumeCapture(at: nat, m: Message, runId: RunId, id: MessageId, io: Io) returns (r: Result<Reception, ConsumeError>)
      modifies this`tables
      ensures var done := Finish(io, old(tables), Transactions.ConsumeCapture(cfg, old(tables), at, m, runId, id));
              tables == done.tables && r == done.answer
    {
      var decoded := DecodeCapture(cfg, m);
      if decoded.Err? {
        return Err(decoded.error);
      }
      var command := decoded.value;
      if command.commandId in tables.inbox {
        r := Commit(tables, Ok(ReceptionDuplicate), io);
        return;
      }
      var staged := tables.(inbox := tables.inbox[command.commandId := runId]);
      var intake := IntakeSourceOf(cfg, command.source);
      if intake.Err? {
        r := Drop(intake.error, io);
        return;
      }
      var key := SourceKey(command.owner, intake.value.address);
      staged := staged.(sources := UpsertSource(staged.sources, key, intake.value.source));
      if runId in staged.runs {
        r := Drop(ConsumeError.Database, io);
        return;
      }
      staged := staged.(runs := staged.runs[runId := Run(command.commandId, command.operation, key, intake.value.claim,
                                                         Queued, at, None, None, None, None, None)]);
      var outbox := InsertEvent(staged.outbox, NewRow(id, command.commandId, command.operation, ReportedQueued, at));
      if outbox.None? {
        r := Drop(ConsumeError.Database, io);
        return;
      }
      staged := staged.(outbox := outbox.value);
      r := Commit(staged, Ok(ReceptionApplied), io);
    }

    /** `fail_run`: the guarded update first; a refused step or report takes it back. */
    method FailRun(at: nat, run: RunId, failureClass: string, retryable: bool, steps: seq<Step>, id: MessageId, io: Io)
      returns (r: Result<Completion, ConsumeError>)
      modifies this`tables
      ensures var done := Finish(io, old(tables),
                                 Transactions.FailRun(old(tables), at, run, failureClass, retryable, steps, id));
              tables == done.tables && r == done.answer
    {
      if |failureClass| == 0 || |failureClass| > 64 {
        return Err(InvalidRunState);
      }
      if !IsRunning(tables, run) {
        r := Commit(tables, Ok(Duplicate), io);
        return;
      }
      var row := tables.runs[run];
      var staged := tables.(runs := tables.runs[run := FailedRun(row, at, failureClass)]);
      var stepRows := InsertSteps(staged.steps, run, steps);
      if stepRows.None? {
        r := Drop(ConsumeError.Database, io);
        return;
      }
      staged := staged.(steps := stepRows.value);
      var report := NewRow(id, row.command, row.operation, ReportedFailed(PublicCode(failureClass), retryable), at);
      var outbox := InsertEvent(staged.outbox, report);
      if outbox.None? {
        r := Drop(ConsumeError.Database, io);
        return;
      }
      staged := staged.(outbox := outbox.value);
      r := Commit(staged, Ok(Applied), io);
    }

    /** `reject`: the guarded update, then every record of the rejection, or nothing of either. */
    method RejectRun(at: nat, run: RunId, x: Rejection, id: MessageId, io: Io) returns (r: Result<Completion, ConsumeError>)
      modifies this`tables
      ensures var done := Finish(io, old(tables), Transactions.RejectRun(old(tables), at, run, x, id));
              tables == done.tables && r == done.answer
    {
      if |x.failureClass| == 0 || |x.failureClass| > 64 {
        return Err(InvalidRunState);
      }
      if !OwnedSha256(x.rawBlob) {
        return Err(InvalidArtifact);
      }
      var selected := SelectedCount(x.candidates);
      if x.candidates == [] || selected != 0 {
        return Err(InvalidRunState);
      }
      if x.rawBlob.length > I64_MAX {
        return Err(InvalidArtifact);
      }
      if !IsRunning(tables, run) {
        r := Commit(tables, Ok(Duplicate), io);
        return;
      }
      var row := tables.runs[run];
      var staged := tables.(runs := tables.runs[run := FailedRun(row, at, x.failureClass)]);
      var facts := InsertFacts(staged, run, x.fetch, [ArtifactRow(run, RawSource, x.rawBlob)], x.candidates, x.steps);
      if facts.Err? {
        r := Drop(facts.error, io);
        return;
      }
      staged := WithFacts(staged, facts.value);
      var report := NewRow(id, row.command, row.operation, ReportedFailed(PublicCode(x.failureClass), false), at);
      var outbox := InsertEvent(staged.outbox, report);
      if outbox.None? {
        r := Drop(ConsumeError.Database, io);
        return;
      }
      staged := staged.(outbox := outbox.value);
      r := Commit(staged, Ok(Applied), io);
    }

    /** `complete`: the guarded update, the records, the fact when it fits, and the report, or nothing of them. */
    method CompleteRun(at: nat, run: RunId, maxEventBytes: nat, x: Success, docId: MessageId, reportId: MessageId, io: Io)
      returns (r: Result<Completion, ConsumeError>)
      modifies this`tables
      ensures var done := Finish(io, old(tables),
                                 Transactions.CompleteRun(cfg, old(tables), at, run, maxEventBytes, x, docId, reportId));
              tables == done.tables && r == done.answer
    {
      if !OwnedSha256(x.irBlob) || !OwnedSha256(x.rawBlob) || x.irBlob.length > I64_MAX || x.rawBlob.length > I64_MAX {
        return Err(InvalidArtifact);
      }
      var selected := SelectedCount(x.candidates);
      if x.candidates == [] || selected != 1 {
        return Err(InvalidRunState);
      }
      if !IsRunning(tables, run) {
        if run in tables.runs && tables.runs[run].status.Succeeded? {
          r := Commit(tables, Ok(Duplicate), io);
        } else {
          r := Commit(tables, Err(InvalidRunState), io);
        }
        return;
      }
      var row := tables.runs[run];
      var staged := tables.(runs := tables.runs[run := SucceededRun(row, at)]);
      var artifacts := [ArtifactRow(run, RawSource, x.rawBlob)] + [ArtifactRow(run, DocumentIr, x.irBlob)];
      var facts := InsertFacts(staged, run, x.fetch, artifacts, x.candidates, x.steps);
      if facts.Err? {
        r := Drop(facts.error, io);
        return;
      }
      staged := WithFacts(staged, facts.value);
      if !cfg.factValid(x.document, x.irBlob) {
        r := Drop(InvalidArtifact, io);
        return;
      }
      var outbox := InsertCompletion(cfg, staged.outbox, row, x, maxEventBytes, docId, reportId, at);
      if outbox.None? {
        r := Drop(ConsumeError.Database, io);
        return;
      }
      staged := staged.(outbox := outbox.value);
      CompletedTables(cfg, tables, at, run, maxEventBytes, x, docId, reportId, artifacts);
      r := Commit(staged, Ok(Applied), io);
    }
  }

  /** The fact, when its envelope fits, and the terminal report; the second insert sees the first. */
  method InsertCompletion(cfg: Config, rows: seq<OutboxRow>, run: Run, x: Success, maxEventBytes: nat,
                          docId: MessageId, reportId: MessageId, at: nat) returns (staged: Option<seq<OutboxRow>>)
    ensures staged == if EventsFresh(cfg, rows, x, maxEventBytes, docId, reportId)
                      then Some(rows + CompletionRows(cfg, run, x, maxEventBytes, docId, reportId, at)) else None
  {
    var inserted := rows;
    var ingested := cfg.eventBytes(Extracted(x.document, x.irBlob)) <= maxEventBytes;
    if ingested {
      var fact := InsertEvent(inserted, NewRow(docId, run.command, run.operation, Extracted(x.document, x.irBlob), at));
      if fact.None? {
        return None;
      }
      inserted := fact.value;
      assert inserted[|rows|].message == docId;
      assert forall i :: 0 <= i < |rows| ==> inserted[i] == rows[i];
    }
    var report := if ingested then ReportedSucceeded(x.document, x.irBlob, []) else ReportedPartially(x.document, x.irBlob, [NOT_INGESTED]);
    staged := InsertEvent(inserted, NewRow(reportId, run.command, run.operation, report, at));
    if staged.Some? {
      assert staged.value == rows + CompletionRows(cfg, run, x, maxEventBytes, docId, reportId, at);
    }
  }

  predicate MessageUnused(rows: seq<OutboxRow>, id: MessageId) { forall i :: 0 <= i < |rows| ==> rows[i].message != id }

  predicate EventsFresh(cfg: Config, rows: seq<OutboxRow>, x: Success, maxEventBytes: nat, docId: MessageId, reportId: MessageId) {
    && (Ingested(cfg, x, maxEventBytes) ==> docId != reportId && MessageUnused(rows, docId))
    && MessageUnused(rows, reportId)
  }

  lemma CompletedTables(cfg: Config, t: Tables, at: nat, r: RunId, maxEventBytes: nat, x: Success,
                        docId: MessageId, reportId: MessageId, artifacts: seq<ArtifactRow>)
    requires IsRunning(t, r) && artifacts == [ArtifactRow(r, RawSource, x.rawBlob)] + [ArtifactRow(r, DocumentIr, x.irBlob)]
    ensures SucceededTables(cfg, t, at, r, maxEventBytes, x, docId, reportId)
            == t.(runs := t.runs[r := SucceededRun(t.runs[r], at)], fetches := t.fetches + FetchRows(r, x.fetch),
                  artifacts := t.artifacts + artifacts, candidates := t.candidates + CandidateRows(r, x.candidates),
                  steps := t.steps + StepRows(r, x.steps),
                  outbox := t.outbox + CompletionRows(cfg, t.runs[r], x, maxEventBytes, docId, reportId, at))
  {
    assert t.artifacts + [ArtifactRow(r, RawSource, x.rawBlob)] + [ArtifactRow(r, DocumentIr, x.irBlob)] == t.artifacts + artifacts;
  }

  // ----- the command consumer

  datatype Report = Report(applied: nat, duplicates: nat, malformed: nat, failed: nat)

  /** One delivery off the stream with what the database and the broker will answer to it. */
  datatype Delivered =
    | Broken
    | Delivered(message: Message, at: nat, runId: RunId, id: MessageId, io: Io, ackArrives: bool)

  /** The tables one delivery leaves. */
  function AfterDelivery(cfg: Config, t: Tables, d: Delivered): Tables {
    match d
    case Broken => t
    case Delivered(m, at, runId, id, io, _) => Finish(io, t, Transactions.ConsumeCapture(cfg, t, at, m, runId, id)).tables
  }

  /** The tables a stream of deliveries leaves, whatever is acknowledged. */
  function AfterDeliveries(cfg: Config, t: Tables, deliveries: seq<Delivered>): Tables {
    if deliveries == [] then t
    else AfterDelivery(cfg, AfterDeliveries(cfg, t, deliveries[..|deliveries| - 1]), deliveries[|deliveries| - 1])
  }

  /** Poison, or its command is in the inbox. */
  predicate Durable(cfg: Config, t: Tables, m: Message) {
    RunSafety.Poison(cfg, m) || DecodeCapture(cfg, m).value.commandId in t.inbox
  }

  /** How a delivery ends: as its transaction answered, or failed and left for redelivery. */
  datatype Ending = Consumed | Duplicated | Malformed | LeftForRedelivery

  /** The ending of the delivery that comes when the tables are `t`. */
  function EndingOf(cfg: Config, t: Tables, d: Delivered): Ending {
    match d
    case Broken => LeftForRedelivery
    case Delivered(m, at, runId, id, io, _) =>
      EndingFor(Finish(io, t, Transactions.ConsumeCapture(cfg, t, at, m, runId, id)).answer)
  }

  function EndingFor(answer: Result<Reception, ConsumeError>): Ending {
    if answer == Ok(ReceptionApplied) then Consumed
    else if answer == Ok(ReceptionDuplicate) then Duplicated
    else if answer == Err(ConsumeError.Database) then LeftForRedelivery
    else Malformed
  }

  /** How many deliveries of a stream end so. */
  function Endings(cfg: Config, t: Tables, deliveries: seq<Delivered>, ending: Ending): nat {
    if deliveries == [] then 0
    else
      var init := deliveries[..|deliveries| - 1];
      Endings(cfg, t, init, ending)
      + if EndingOf(cfg, AfterDeliveries(cfg, t, init), deliveries[|deliveries| - 1]) == ending then 1 else 0
  }

  /** The messages of a stream that leave it: every one not left for redelivery whose acknowledgement arrives. */
  function Acknowledged(cfg: Config, t: Tables, deliveries: seq<Delivered>): seq<Message> {
    if deliveries == [] then []
    else
      var init, last := deliveries[..|deliveries| - 1], deliveries[|deliveries| - 1];
      Acknowledged(cfg, t, init)
      + if last.Delivered? && last.ackArrives && EndingOf(cfg, AfterDeliveries(cfg, t, init), last) != LeftForRedelivery
        then [last.message] else []
  }

  /** The counts of a report against the endings of its stream, a lost acknowledgement counted once more as failed. */
  predicate Tells(cfg: Config, t: Tables, deliveries: seq<Delivered>, report: Report, lost: nat) {
    && report.applied == Endings(cfg, t, deliveries, Consumed)
    && report.duplicates == Endings(cfg, t, deliveries, Duplicated)
    && report.malformed == Endings(cfg, t, deliveries, Malformed)
    && report.failed == Endings(cfg, t, deliveries, LeftForRedelivery) + lost
  }

  lemma EndedIsDurable(cfg: Config, t: Tables, d: Delivered)
    requires d.Delivered? && EndingOf(cfg, t, d) != LeftForRedelivery
    ensures Durable(cfg, AfterDelivery(cfg, t, d), d.message)
  {
  }

  lemma DurableStay(cfg: Config, t: Tables, d: Delivered, acked: seq<Message>)
    requires forall k :: 0 <= k < |acked| ==> Durable(cfg, t, acked[k])
    ensures forall k :: 0 <= k < |acked| ==> Durable(cfg, AfterDelivery(cfg, t, d), acked[k])
  {
  }

  function Counted(report: Report, ending: Ending): Report {
    match ending
    case Consumed => report.(applied := report.applied + 1)
    case Duplicated => report.(duplicates := report.duplicates + 1)
    case Malformed => report.(malformed := report.malformed + 1)
    case LeftForRedelivery => report.(failed := report.failed + 1)
  }

  /** What the loop has told and acknowledged after a stream of deliveries. */
  ghost predicate Progress(cfg: Config, t: Tables, deliveries: seq<Delivered>, tables: Tables, report: Report, acked: seq<Message>, lost: nat) {
    && tables == AfterDeliveries(cfg, t, deliveries) && Tells(cfg, t, deliveries, report, lost)
    && acked == Acknowledged(cfg, t, deliveries)
    && report.applied + report.duplicates + report.malformed + report.failed == |deliveries| + lost
    && |acked| + lost == report.applied + report.duplicates + report.malformed
    && forall k :: 0 <= k < |acked| ==> Durable(cfg, tables, acked[k])
  }

  lemma ProgressCounts(cfg: Config, t: Tables, init: seq<Delivered>, d: Delivered, tables: Tables, report: Report, lost: nat)
    requires tables == AfterDeliveries(cfg, t, init) && Tells(cfg, t, init, report, lost)
    ensures AfterDeliveries(cfg, t, init + [d]) == AfterDelivery(cfg, tables, d)
    ensures Tells(cfg, t, init + [d], Counted(report, EndingOf(cfg, tables, d)), lost)
    ensures Acknowledged(cfg, t, init + [d])
            == Acknowledged(cfg, t, init)
               + if d.Delivered? && d.ackArrives && EndingOf(cfg, tables, d) != LeftForRedelivery then [d.message] else []
  {
    assert (init + [d])[..|init|] == init;
  }

  /** The report, the acknowledged messages and the lost acknowledgements after one more delivery. */
  function Handled(d: Delivered, ending: Ending, report: Report, acked: seq<Message>, lost: nat): (Report, seq<Message>, nat) {
    var counted := Counted(report, ending);
    if ending.LeftForRedelivery? || d.Broken? then (counted, acked, lost)
    else if d.ackArrives then (counted, acked + [d.message], lost)
    else (counted.(failed := counted.failed + 1), acked, lost + 1)
  }

  lemma ProgressStep(cfg: Config, t: Tables, init: seq<Delivered>, d: Delivered, tables: Tables, report: Report, acked: seq<Message>,
                     lost: nat)
    requires Progress(cfg, t, init, tables, report, acked, lost)
    ensures var next := Handled(d, EndingOf(cfg, tables, d), report, acked, lost);
            Progress(cfg, t, init + [d], AfterDelivery(cfg, tables, d), next.0, next.1, next.2)
  {
    ProgressCounts(cfg, t, init, d, tables, report, lost);
    DurableStay(cfg, tables, d, acked);
    if d.Delivered? && EndingOf(cfg, tables, d) != LeftForRedelivery {
      EndedIsDurable(cfg, tables, d);
    }
  }

  /**
    The consumer loop: every delivery counts once under its own ending and a lost acknowledgement
    once more under `failed`; it acknowledges exactly what is not left for redelivery, all of it durable.
   */
  method RunCommandConsumer(db: Database, deliveries: seq<Delivered>) returns (report: Report, acked: seq<Message>, lost: nat)
    modifies db`tables
    ensures Progress(db.cfg, old(db.tables), deliveries, db.tables, report, acked, lost)
  {
    report, acked, lost := Report(0, 0, 0, 0), [], 0;
    for i := 0 to |deliveries|
      invariant Progress(db.cfg, old(db.tables), deliveries[..i], db.tables, report, acked, lost)
    {
      ProgressStep(db.cfg, old(db.tables), deliveries[..i], deliveries[i], db.tables, report, acked, lost);
      assert deliveries[..i + 1] == deliveries[..i] + [deliveries[i]];
      var ending := ConsumeOne(db, deliveries[i]);
      report := Counted(report, ending);
      if ending.LeftForRedelivery? || deliveries[i].Broken? {
        continue;
      }
      if deliveries[i].ackArrives {
        acked := acked + [deliveries[i].message];
      } else {
        report, lost := report.(failed := report.failed + 1), lost + 1;
      }
    }
    assert deliveries[..|deliveries|] == deliveries;
  }

  method ConsumeOne(db: Database, d: Delivered) returns (ending: Ending)
    modifies db`tables
    ensures db.tables == AfterDelivery(db.cfg, old(db.tables), d) && ending == EndingOf(db.cfg, old(db.tables), d)
  {
    if d.Broken? {
      return LeftForRedelivery;
    }
    var answer := db.ConsumeCapture(d.at, d.message, d.runId, d.id, d.io);
    ending := EndingFor(answer);
  }
}
