# Verified model of the Ratatoskr extractor

The extractor turns capture commands into documents. Commands arrive at least once; each becomes one
durable run; workers claim runs under leases that can expire while the old worker still runs; one
guarded update decides which terminal call wins; and a relay publishes the outbox rows those
transactions enqueued. Around that protocol stand the per-run pipeline, the fetcher, the blob store,
the transcript and page parsers, the quality evaluator, the content identity, the browser worker and
two durable budgets. This project models those parts in Dafny and proves what they keep.

`dafny verify dfyconfig.toml` checks everything.

## How the model is built

- **Tables, Transactions, Protocol** hold the PostgreSQL tables, every transaction as a function on
  them, and the system: tables, clock, broker, acknowledged deliveries, and what each worker and
  relay holds in memory. A schedule is any sequence of actions. Rollbacks, commits whose answer is
  lost, redeliveries, expired leases, overlapping relays and crashes are all actions, so a theorem
  about every schedule is a theorem about every interleaving. **Database** performs the transactions
  statement by statement, each insert refused at its own row and earlier rows rolled back with it,
  and is proved equal to those functions.
- **RunSafety, RunTheorems, RelaySafety** are the invariants and the theorems over whole schedules.
  **Intake** says on a message's own fields what is accepted and what a run carries of it,
  **TerminalCalls** which check answers a terminal call and what the stored rows may hold, and
  **RowOrigins** which step enqueued every row and recorded every fact, with what it was given.
- **RunQueue** is the progress of the run queue; **RelayPass** is one relay pass as a class with its
  progress bound, **RelaySystem** the same bound for the system's own steps, **RelayAttempts** what
  one attempt leaves and what attempts count, and **RelayHealth** the health verdict.
- **Pipeline** maps every answer of the network, the parsers, the stores and the browser worker to a
  plan of effects; **PlanOutcome** says from those answers alone which call a plan makes and with
  what, **PlanShape** proves what every plan keeps to, and **PlanRuns** what following a plan leaves
  in the tables while everyone else acts in between; **EndToEnd** joins the answers to the events.
  The bridge is that the answer of a table call never changes what the pipeline does next, except
  that an error ends it.
- **Drain** takes one atomic access per step, for any number of threads, under sequential
  consistency. **FetchAdmission** is the mutable admission class; **FetchMachine** the redirect and
  retry loops over a recorded trace, refining a walk that names the reply that settles a fetch;
  **BodyStore** the content-addressed store and **ResponseBody** the wire counter, the decoder's
  reads and the streaming of a response into the store.
- **Text, Player, TimedText, TranscriptXml** are the parsers over Unicode scalar values with explicit
  UTF-8 lengths; **Partition, Grouping** the block arithmetic; **Quality** and **Identity** scoring
  and content-derived identifiers; **BrowserWorker** and **Budgets** two more transition systems.
  **Numbers** and **Wrappers** hold what they share.

Integers are unbounded except where the code's width decides something: 64-bit lengths and timing
attributes, 32-bit counters and block indexes, the saturating sums, products and additions, and
`i64` budget sums are written out. Time is a number of seconds that never decreases. Library
results (URL parsing, JSON, SHA-256, DOM and PDF parsing, float seconds, serialized sizes) are
arbitrary functions or arbitrary answers, so the theorems hold for all of them.

## Where the code differs from its documentation or from the expected property

- `OutboxHealth` documents recovery on a pass that published every due row or on an empty retry set.
  The code also recovers on a failing pass whose oldest row is not stuck, on a full batch that leaves
  due rows behind and on a pass that only dead-lettered, and it does not recover on a pass with
  nothing due. `RelayHealth.RecoversOnFailingPass`, `RecoversWithDueRowsLeft`, `RecoversOnDeadLetter`
  and `StaysUnhealthyWhenIdle` are the passes; `RelayHealth.RecoveryAgreement` says exactly when the
  two agree.
- `reserve_media_archive` compares a saturated sum, so at the largest 64-bit budget (to which a larger
  configured budget is clamped) the comparison can no longer refuse. `Budgets.LargestBudgetOverspends`
  gives the history; `Budgets.NeverOverspentExactly` proves the budget holds exactly below it.
- `delete_expired_media` joins artifacts to expired archives by digest alone, so an unexpired archive
  of the same bytes loses its artifact row, and its statements take three timestamps, so an archive
  that expires in between leaves its artifact row behind. `Budgets.SharedDigestLosesArtifact` and
  `Budgets.ExpiryBetweenDeletesOrphans` give the histories; `Budgets.UnexpiredKeepsArtifactExactly`
  and `Budgets.SweepOrphansExactly` the exact conditions.
- The digests a sweep returns for removal are those expired when it selected them, so bytes archived
  again meanwhile are removed and bytes of an archive that expires meanwhile stay.
  `Budgets.ReservedDuringSweepLosesBytes` and `Budgets.ExpiryDuringSweepLeavesBytes` give the
  histories; `Budgets.SweepLosesBytesExactly` the exact condition.
- The browser worker takes a failed marker lookup for an absent marker and renders again.
  `BrowserWorker.MarkedRenderedAgain` gives the run; `BrowserWorker.DeduplicatedExactly` the exact
  condition.
- A reclaimed run keeps its place in the queue, so no number of claims bounds a waiting run's turn.
  `RunQueue.StarvedByRetakes` gives the schedules; `RunQueue.PromptExactlyWithinLease` the exact
  condition.
- `attribute_value` matches a key that merely ends with the name, so `id` is read as `d`.
  `TranscriptXml.LookalikeIsRead` gives the case; `TranscriptXml.LookupIsByNameExactly` the exact
  condition. The renderings of the round trip are not affected.
- `text_characters` counts bytes, not characters, and the block-id prefix ends in a backslash and a
  digit rather than in a zero byte; both are modelled as the code has them.

## Model

| member | source | states |
|---|---|---|
| `RunTheorems.OneRunPerCommand` | crates/eventing/src/capture.rs:118-159 | In every reachable state a command of the inbox has exactly one run and exactly one queued report, however often it was delivered. |
| `RunTheorems.AcknowledgedIsDurable` | crates/eventing/src/consumer.rs:32-110 | Every acknowledged message is poison or its command is in the inbox for good. |
| `RunTheorems.ScheduleKeeps` | crates/eventing/src/completion.rs:26-57 | Every schedule keeps the whole-table invariant, and takes back no row, no terminal status and no delivery mark. |
| `RunTheorems.AppliedSettles` | crates/eventing/src/completion.rs:199-265 | A terminal call answers applied only when it is the step that took its run from running to terminal. |
| `RunTheorems.SettlesOnce` | crates/eventing/src/completion.rs:199-378 | No two steps of any schedule settle the same run, with stale workers still running; the first settled row is final. |
| `RunTheorems.TerminalIsAbsorbing` | crates/eventing/src/completion.rs:333-378 | Once terminal, a run's row is unchanged by every continuation. |
| `RunTheorems.OneTerminalReport` | crates/eventing/src/completion.rs:86-131 | A run has exactly one terminal report if it is terminal and none otherwise. |
| `RunTheorems.SucceededRunRecords` | crates/eventing/src/completion.rs:199-265 | How many records a succeeded run has: one Document IR artifact, one selected candidate, and either a document event with a plain success or no document event with a partial success carrying the warning. |
| `RunTheorems.UnsuccessfulRunRecords` | crates/eventing/src/completion.rs:333-378 | Any other run has no Document IR artifact, no document event, no selected candidate and no success report. |
| `RunTheorems.SizeDecidesTheReport` | crates/eventing/src/completion.rs:502-605 | The completion that settled its run, whether or not its worker saw the answer, enqueued a document event with a plain success or a partial success without one, decided by its serialized size against the holder's limit. |
| `RunTheorems.HeldBlobIsOwnClaim` | crates/eventing/src/capture.rs:167-238 | What a worker holds is what some delivered command of its own run named: exactly that blob reference, or no blob and that command's normalized address. |
| `RunTheorems.EveryRunIsRequested` | crates/eventing/src/capture.rs:258-366 | Every run of every reachable state carries the operation, source and claim of a decoded command that was delivered; `Intake.EveryRunIsWellFormed` says what that command's message held. |
| `Intake.DecodesExactly` | crates/eventing/src/capture.rs:62-108 | A message decodes exactly when it has this subject, an envelope of the command type from one of the two producers with a tenant, a payload whose operation is the aggregate, and exactly one of an http address or a SHA-256 blob; the command is what those fields name. |
| `Intake.RefusedAtFirstMisfit` | crates/eventing/src/capture.rs:62-108 | Any other message is refused with the error of its first field that does not fit. |
| `Intake.EveryRunIsWellFormed` | crates/eventing/src/capture.rs:118-159 | Every run of every reachable state was queued by a delivered message whose fields all fit, and its command, operation, owner, address and claim are that message's. |
| `Intake.WellFormedIsApplied` | crates/eventing/src/capture.rs:118-159 | The converse: such a message with a queueable source is applied when new, with its run, inbox row and queued report, and a duplicate when known. |
| `Intake.AcknowledgedExactly` | crates/eventing/src/consumer.rs:32-110 | A delivery leaves the stream exactly when it is malformed or its transaction committed. |
| `Intake.HeldRouteIsOwn` | crates/eventing/src/capture.rs:167-238 | The classification that routes a claimed run is that of its own address, or that of a blob, whichever command first stored the shared source row. |
| `Intake.HeldByClaim` | crates/eventing/src/capture.rs:167-238 | Over every schedule, a worker holds the run and the event limit of a claim it made, and that run was next in the queue then. |
| `RowOrigins.RowOrigin` | crates/eventing/src/completion.rs:502-605 | Over every schedule, every outbox row was enqueued by a step that was given what the row says: a queued report by a well-formed delivery, a failed report by the failing call with its public code and retryable flag, a success or document event by the completion that settled the run, with its document, its Document IR blob and the run's operation. |
| `RowOrigins.SuccessNamesItsDocumentIr` | crates/eventing/src/completion.rs:502-605 | Every success report and document event carries the document and blob of the settling completion, and that blob is the one of the run's only Document IR artifact. |
| `RowOrigins.SuccessRowsAgree` | crates/eventing/src/completion.rs:502-605 | A run's document event and success report agree on document and blob. |
| `RowOrigins.PublicCodeIs` | crates/eventing/src/completion.rs:63-84 | Each closed failure class has its own public code, and every other class the generic one. |
| `RowOrigins.SettledRunRecords` | crates/eventing/src/completion.rs:199-378 | Over every schedule, a settled run's status, class, time, candidates and steps are exactly what its settling call was given, and its artifacts and fetch are stored; a run not settled has no candidate and no step. |
| `RowOrigins.RecordedFetchStays` | crates/eventing/src/completion.rs:403-423 | A fetch is recorded exactly when its blob is owned and its numbers fit, and both its rows stay. |
| `TerminalCalls.FailAnswers` | crates/eventing/src/completion.rs:26-57 | A failing call answers for its first check that does not hold, and changes nothing unless all hold. |
| `TerminalCalls.RejectAnswers` | crates/eventing/src/completion.rs:333-378 | A rejection answers for the first of class, blob owner, candidates, length, running, fetch numbers, fetch checks, indexes and message id, each with its own answer. |
| `TerminalCalls.CompleteAnswers` | crates/eventing/src/completion.rs:199-265 | A completion likewise, a late one being a duplicate of a success and an error on a failure. |
| `TerminalCalls.StoredRowsHold` | schema.sql:75-157 | Over every schedule every stored artifact is an own SHA-256 blob of 63-bit length, and every fetch, candidate and step satisfies the constraints of its table. |
| `RunQueue.WaitIsBounded` | crates/eventing/src/capture.rs:167-201 | Over every interleaving, while a queued run waits the claims that take a run are at most the unsettled runs ahead of it plus the leases that ran out. |
| `RunQueue.StampsArePermanent` | crates/eventing/src/capture.rs:167-201 | However often it is claimed again and however it ends, a run keeps the instant it was queued and the instant it was first claimed. |
| `RunQueue.StarvedByRetakes` | crates/eventing/src/capture.rs:167-201 | Any number of claims may take the one run ahead again, one lease apart, while the queued run waits. |
| `RunQueue.PromptExactlyWithinLease` | crates/eventing/src/capture.rs:167-201 | A queued run with k unsettled runs ahead is among the first k + 1 runs taken, on every history and schedule, exactly when the claims fall within one lease. |
| `DatabaseCalls.Database.ConsumeCapture` | crates/eventing/src/capture.rs:118-159 | Inbox row, source, run and report staged one statement at a time, a later refusal taking the earlier rows back, equals the transaction function for every way the database answers. |
| `DatabaseCalls.Database.FailRun` | crates/eventing/src/completion.rs:26-57 | The guarded update first, then steps and report; a refused row takes the update back; a run that is not running answers duplicate. |
| `DatabaseCalls.Database.RejectRun` | crates/eventing/src/completion.rs:333-378 | The validations in order, the guarded update, then every record, each insert refused at its own row; all of it or none, with the error of the first refusal. |
| `DatabaseCalls.Database.CompleteRun` | crates/eventing/src/completion.rs:199-265 | The same for a completion, with its duplicate and wrong-state answers, and a report insert that sees the document event before it. |
| `DatabaseCalls.InsertableByRow` | crates/eventing/src/terminal.rs:74-112 | One more candidate passes the checks and both unique indexes exactly when the longer list does as a whole. |
| `DatabaseCalls.InsertCandidates` | crates/eventing/src/terminal.rs:74-112 | The insert loop succeeds exactly on lists that fit the indexes and checks as a whole, and then appends them in order. |
| `DatabaseCalls.InsertFacts` | crates/eventing/src/completion.rs:243-254 | Fetch, artifacts, candidates and steps in order, answering the first refusal. |
| `DatabaseCalls.SelectedCount` | crates/eventing/src/terminal.rs:22-35 | The count the candidate validation compares. |
| `DatabaseCalls.RunCommandConsumer` | crates/eventing/src/consumer.rs:32-110 | Every delivery is counted once under its own ending and a lost acknowledgement once more as failed; exactly what is not left for redelivery is acknowledged, and all of it is durable. |
| `RelaySafety.LeavesRetrySetForCause` | crates/eventing/src/outbox.rs:346-460 | Under a fixed broker limit a row leaves the retry set only when the broker holds its message id or its payload can never be sent. |
| `RelaySafety.NeverBothMarks` | crates/eventing/src/outbox.rs:439-460 | No schedule leaves a row both published and dead-lettered, even one that changes the broker limit. |
| `RelaySafety.MarksArePermanent` | crates/eventing/src/outbox.rs:346-415 | A published or dead-lettered row stays so, and never gains the other mark. |
| `RelaySafety.TransientFailuresNeverDeadLetter` | crates/eventing/src/outbox.rs:418-436 | No number of failed attempts dead-letters a row the broker could accept. |
| `RelaySafety.ConstraintNeverRefuses` | schema.sql:180 | Under a fixed limit the exclusion of the two marks never refuses a relay's update. |
| `RelaySafety.BrokerHoldsCommittedFacts` | crates/eventing/src/outbox.rs:346-415 | Every message the broker accepted is a committed row of the outbox. |
| `RelaySafety.OneTerminalReportDelivered` | crates/eventing/src/outbox.rs:346-415 | The broker holds at most one terminal report of a command. |
| `RelayPass.ClaimExists` | crates/eventing/src/outbox.rs:352-378 | The claiming query, lowest rows first up to the clamped batch, always has an answer. |
| `RelayPass.Outbox.RunOnce` | crates/eventing/src/outbox.rs:346-415 | A pass marks each claimed row with its own outcome and leaves the rest; claimed equals published plus failed plus dead-lettered. |
| `RelayPass.WaitingRowIsAttempted` | crates/eventing/src/outbox.rs:352-436 | With one crash-free relay a due row with k unsettled rows ordered ahead of it is attempted within k divided by the batch size, plus one, passes. |
| `RelaySystem.TurnIsRound` | crates/eventing/src/outbox.rs:346-415 | In the whole system, a crash-free pass interleaved with anything but other relays changes the outbox exactly as the pass model does, with the rows enqueued meanwhile behind. |
| `RelaySystem.SystemRowIsAttempted` | crates/eventing/src/outbox.rs:346-436 | So the same bound holds of the system's own claim, publish and mark steps. |
| `Protocol.BackoffBounds` | crates/eventing/src/outbox.rs:418-436 | The backoff is always between 1 and 300 seconds. |
| `RelayAttempts.BackoffDoubles` | crates/eventing/src/outbox.rs:418-436 | The backoff is one second at first and doubles with every attempt up to 300. |
| `RelayAttempts.AttemptOutcome` | crates/eventing/src/outbox.rs:379-460 | Publishing and marking one row: sized out against the broker's limit less 1024 bytes it is given up unsent, acknowledged it is published, otherwise it waits its backoff; the broker holds it exactly when it fitted and was accepted, and no other row changes. |
| `RelayAttempts.AttemptsCountFailures` | crates/eventing/src/outbox.rs:418-460 | Over every schedule, a row's attempts are exactly the failed and oversized marks on it. |
| `RelayAttempts.ClaimedRowsWait` | crates/eventing/src/outbox.rs:352-378 | A claimed row is due for nobody for thirty seconds and due again then; no other row changes. |
| `RelayHealth.OldestUnpublished` | crates/eventing/src/outbox.rs:308-329 | The oldest row of the retry set, first of equals, or none exactly when nothing is left. |
| `RelayHealth.OutboxHealth.Observe` | crates/eventing/src/outbox.rs:274-300 | The verdict after a pass: a failing one is unhealthy exactly with an oldest row of three attempts or older than 300 seconds, an idle one recovers exactly with nothing left, any other is healthy. |
| `RelayHealth.UnhealthyExactly` | crates/eventing/src/outbox.rs:244-300 | Over every history the verdict is unhealthy exactly when a failing pass with a stuck oldest row was followed by idle passes only, with something still waiting. |
| `RelayHealth.RecoversOnFailingPass` | crates/eventing/src/outbox.rs:244-300 | Concrete rows and two passes: one of two rows failed and the verdict recovers, which the documentation excludes. |
| `RelayHealth.RecoversWithDueRowsLeft` | crates/eventing/src/outbox.rs:244-300 | Concrete rows and two passes: a full batch was published and the verdict recovers with a due and stuck row left behind. |
| `RelayHealth.RecoversOnDeadLetter` | crates/eventing/src/outbox.rs:244-300 | Concrete rows and two passes under one fixed limit: the only due row was given up as too large and the verdict recovers with a stuck row waiting. |
| `RelayHealth.StaysUnhealthyWhenIdle` | crates/eventing/src/outbox.rs:244-300 | Concrete rows and two passes: nothing was due, so every due row was published, and the verdict does not recover. |
| `RelayHealth.RecoveryAgreement` | crates/eventing/src/outbox.rs:244-300 | For every table and every pass over it, the exact condition under which code and documentation agree on recovery. |
| `PlanShape.PlanShape` | services/extractor/src/pipeline.rs:78-255 | For every answer of the world: no fetch for a blob run and at most two otherwise, at most one render command, a terminal call on every returning path, a second one only after a render, never more fetch rows than fetches, steps that tell the run's own outcome, only failed fetches reported retryable, each fetch recorded with its own artifact, and no call its transaction would refuse. |
| `PlanOutcome.PlanOutcome` | services/extractor/src/pipeline.rs:78-396 | From the world's answers alone: a plan's settling call is a completion exactly when the answers on its path are an accepted extraction (HTML, rendering, PDF, peer blob, provider, article, fallback, transcript) and the Document IR was stored, with that answer's document, candidates, bytes, fetch and steps; and for every refused answer it is a refusal with that answer's class, retryable flag, evidence and steps. |
| `PlanOutcome.CompletesExactly` | services/extractor/src/pipeline.rs:78-396 | Anywhere in a plan, a completion stands exactly for the accepted extraction of the run's path. |
| `PlanOutcome.PageDecides` | services/extractor/src/pipeline.rs:144-255 | The page route: media type, verification, HTML, the policy's denial by name, the rendering, or the PDF decide. |
| `PlanOutcome.BlobDecides` | services/extractor/src/pdf_run.rs:53-254 | The blob route: type, peer refusal, length, bytes that are the claim's, and the PDF's answer decide. |
| `PlanOutcome.FallbackDecides` | services/extractor/src/provider_continuation.rs:169-316 | The generic attempt decides by its own page and tells the provider's failure first. |
| `PlanOutcome.ArticleDecides` | services/extractor/src/provider_continuation.rs:24-159 | The article decides with the provider's candidates, a policy refusal named and never retryable. |
| `PlanOutcome.TrackDecides` | services/extractor/src/youtube_pipeline.rs:196-327 | The transcript track decides by type, verification, timed text and the transcript. |
| `PlanOutcome.PlanOpening` | services/extractor/src/pipeline.rs:78-396 | Before its settling call a plan fetches the route's own address, records that fetch and goes on to the article, the track or the run's address exactly when the answer says so, and spends a budget slot and renders exactly under an open policy. |
| `PlanOutcome.PlanClosing` | services/extractor/src/pipeline.rs:480-653 | After it comes nothing but the page's own rejection after a refused rendering, or a transcript's sidecar. |
| `PlanOutcome.PlanReturns` | services/extractor/src/pipeline.rs:78-396 | A plan returns exactly when it made its settling call and, after a transcript, its sidecar was stored. |
| `PlanShape.FallbackTellsBoth` | services/extractor/src/provider_continuation.rs:169-316 | The generic attempt fetches exactly once and, when it returns, makes one terminal call whose two steps tell the provider's failure and its own outcome. |
| `PlanShape.ArticleTellsBoth` | services/extractor/src/provider_continuation.rs:24-159 | Resolving an external article fetches exactly once and, when it returns, makes one terminal call whose two steps tell the provider's success and its own outcome. |
| `PlanShape.WatchShape` | services/extractor/src/youtube_pipeline.rs:93-327 | The degradation ladder after the watch page: at most one more fetch, no render, one terminal call on every returning path, no more fetch rows than fetches. |
| `PlanShape.FetchesRecordedOnce` | services/extractor/src/pipeline.rs:78-396 | In every plan each fetch is recorded at most once, with its own answer, and never another fetch's. |
| `PlanShape.BlobShape` | services/extractor/src/pdf_run.rs:53-101 | A peer blob run never fetches, never renders, writes no fetch row and ends in one terminal call. |
| `PlanShape.RenderEndsInOne` | services/extractor/src/pipeline.rs:480-653 | After a render: a process error, one completion exactly for an accepted rendering, or the worker's failure or rejection followed by the caller's own rejection. |
| `PlanShape.FirstClosedGateDenies` | services/extractor/src/escalation.rs:65-97 | The policy permits exactly when every gate is open, and otherwise names the first closed gate of the fixed order. |
| `PlanShape.RenderedExactlyWhenPermitted` | services/extractor/src/pipeline.rs:180-232 | A render command is sent exactly for a rejected empty shell with every gate open and a budget slot consumed. |
| `EndToEnd.PublishedIsAccepted` | services/extractor/src/pipeline.rs:78-396 | Over every schedule whose completions are the workers' own plans, every success report and document event carries the document of an extraction accepted on its run's path and the Document IR stored for it. |
| `PlanRuns.ReturnedRunIsTerminal` | services/extractor/src/pipeline.rs:78-255 | Every way the pipeline returns on a claimed run, with any other actions in between its calls, leaves the run terminal with at most one effective terminal call of this worker. |
| `PlanRuns.AppliedAtMostOnce` | services/extractor/src/pipeline.rs:480-653 | Of the calls of one followed plan at most one settles the run, and none once it is terminal. |
| `PlanRuns.PlannedCallApplies` | services/extractor/src/pipeline.rs:78-255 | While its run is running, any terminal call of any plan settles it once the database commits, the drawn message ids are fresh and a completion's fact validates: given what parsers and stores promise, no conversion, check or index refuses it. |
| `Drain.ActiveCountsHolders` | services/extractor/src/lib.rs:151-202 | In every reachable state the counter equals the live permits plus the threads between their increment and their decrement. |
| `Drain.DrainedMeansNoPermitEver` | services/extractor/src/lib.rs:170-202 | Once the drain returned, no permit is live and none is granted at any later point of any execution. |
| `Drain.NoLostWakeup` | services/extractor/src/lib.rs:183-202 | A waiter no notification has reached is waiting for a counted thread or a thread about to notify. |
| `Drain.DrainedNeverCancels` | services/extractor/src/lib.rs:244-256 | A shutdown whose drain returned never cancels in any continuation, deadline included. |
| `Drain.CancelFollowsExpiry` | services/extractor/src/lib.rs:244-256 | A cancellation follows a deadline that fired while the drain was awaited, and the drain never returned at any point. |
| `Drain.AdmissionDecided` | services/extractor/src/lib.rs:151-168 | With any other accesses in between, a thread that finds the gate open gets its permit exactly when no close comes before its second load, gives its count back otherwise, and is refused at once by a closed gate. |
| `Drain.ShutdownEnds` | services/extractor/src/lib.rs:244-256 | Every maximal execution of a closed gate ends drained or cancelled, and not both. |
| `Drain.DrainIsBounded` | services/extractor/src/lib.rs:170-202 | After closing, every execution that keeps moving is bounded by a number fixed at the closing state. |
| `Drain.DrainCompletes` | services/extractor/src/lib.rs:244-256 | Without a deadline every maximal execution of a closed gate ends with the drain returned. |
| `FetchAdmission.Admission.TryEnter` | crates/safe-fetch/src/admission.rs:47-86 | Admitted exactly when both limits have room; either way the reserved start is now or one interval after the host's last, whichever is later. |
| `FetchAdmission.Admission.DropGuard` | crates/safe-fetch/src/admission.rs:88-105 | One guard of the host fewer, and no zero entry left. |
| `FetchAdmission.Admission.CountersAgree` | crates/safe-fetch/src/admission.rs:47-105 | After any history the global counter is the sum of the per-host counters and the number of live guards. |
| `FetchAdmission.Admission.ReservationsApart` | crates/safe-fetch/src/admission.rs:47-70 | After any history, refused calls included, the starts reserved for one host are spaced by the interval over every window. |
| `FetchMachine.Fetch` | crates/safe-fetch/src/lib.rs:255-407 | Terminates for every sequence of replies. It answers what the first reply it neither retries within the shared budget nor follows within the limit settles it as: a success exactly for a 2xx with the body stored or a 304 with a prior, with that reply's status, and for every other reply its own error. Attempts are redirects plus retries plus one within both limits; every request was normalized, validated, resolved and guarded; the body is received under the guard; no guard remains. |
| `FetchMachine.SettledOnce` | crates/safe-fetch/src/lib.rs:255-407 | The settling attempt and its answer are fixed by the world and the limits. |
| `FetchMachine.EvidenceIsLed` | crates/safe-fetch/src/lib.rs:255-407 | A success names the normalized address first and then, in order, the joined and normalized location of every redirect, one attempt for each, with no address twice; the other attempts are the transient ones. |
| `FetchMachine.SafeRequestAt` | crates/safe-fetch/src/lib.rs:255-407 | At every point of such a trace, what a request or a body needs came before it. |
| `FetchMachine.AttemptHop` | crates/safe-fetch/src/lib.rs:298-350 | One hop's attempts share the retries of the whole fetch: all but the last were transient and waited for, and the last is a response, or fails as its reply or a missed wake-up says. |
| `FetchMachine.Follow` | crates/safe-fetch/src/lib.rs:351-379 | A redirect lands on its joined and normalized location exactly when that is vetted, admitted and not yet reached, with an error of its own for each refusal, under one guard at a time. |
| `FetchMachine.NeverTwoGuards` | crates/safe-fetch/src/lib.rs:255-407 | A trace that ends with at most one guard held at most one guard at every point. |
| `BodyStore.BlobStore.Store` | crates/blob-store/src/lib.rs:108-179 | Succeeds exactly for a valid media type and a whole stream whose writes, flush and link succeed or whose path already holds bytes of its length; then the digest path holds bytes of the stream's digest and length; no call changes a stored file, and the only file added is the whole stream. |
| `BodyStore.BlobStore.Verify` | crates/blob-store/src/lib.rs:195-218 | Accepts exactly an own reference whose path holds bytes of its length. |
| `BodyStore.BlobStore.Prepare` | crates/blob-store/src/lib.rs:89-101 | Exactly the entries with the part prefix and suffix seen before the first failure are removed; every other entry and every stored file stays; a success leaves no part. |
| `BodyStore.StoredStaysUntilRemoved` | crates/blob-store/src/lib.rs:108-234 | Over every later history a stored file stays byte for byte until its own digest is removed, and every file hashes to its path. |
| `BodyStore.ReferenceVerifiesUntilRemoved` | crates/blob-store/src/lib.rs:108-234 | A reference the store returned is accepted after every later history that does not remove its digest, and refused right after its removal. |
| `BodyStore.StoreThenVerify` | crates/blob-store/src/lib.rs:108-218 | Store, any number of other stores, verify: a returned reference is accepted with bytes of its digest and length. |
| `ResponseBody.WireGuard.Next` | crates/safe-fetch/src/lib.rs:444-463 | One wire item through the wrapping counter, the overflow check and the limit: handed on exactly when it is a chunk that keeps the true sum within the limit, and flagged exactly when it is a chunk that does not. |
| `ResponseBody.WireGuard.Consume` | crates/safe-fetch/src/lib.rs:444-463 | The items one read consumes, up to the first that fails: until then the 64-bit counter is the true sum, and the flag tells an overrun from a broken stream. |
| `ResponseBody.WireLimitDecides` | crates/safe-fetch/src/lib.rs:444-560 | The read that ends the body is reported as the wire limit exactly when it consumed the chunk that overruns it, and such a body is not acceptable. |
| `ResponseBody.ReadOnce` | crates/safe-fetch/src/lib.rs:493-538 | One decoder read: wire failures first, then its own outcome and the decoded limit, named as the flags are consulted. |
| `ResponseBody.StoreResponse` | crates/safe-fetch/src/lib.rs:414-596 | Succeeds exactly for a declared length within the limit, a supported encoding, an acceptable body and a store that lands it; a success stores exactly the decoded bytes in order within the decoded limit, and its wire bytes are the sum of the consumed chunks and within the wire limit; a body past either limit, broken or stalled is never committed; every refusal is attributed to the read that ended the body. |
| `Player.BalancedObjectText` | crates/youtube/src/player.rs:205-248 | Answers the prefix the brace scan closes on, exactly when it closes within the cap. |
| `Player.ObjectCloses` | crates/youtube/src/player.rs:205-248 | For every JSON object text (sections 2 to 7 of RFC 8259), leading white space and suffix, the scan closes on the object's own end and nowhere else. |
| `Player.EmbeddedTail` | crates/youtube/src/player.rs:178-198 | Characters counted before the tail plus those of the tail never exceed the bytes of the page. |
| `Player.PlayerPayload` | crates/youtube/src/player.rs:114-121 | Within the byte budget the character cap never rejects a page. |
| `Player.ObjectIsExtracted` | crates/youtube/src/player.rs:114-248 | A page that assigns any JSON object to its first marker yields exactly that object, whatever follows. |
| `TimedText.DecodeEntities` | crates/youtube/src/timedtext.rs:209-257 | The cursor loop computes the entity-by-entity decoding. |
| `TimedText.DecodeInvertsEscape` | crates/youtube/src/timedtext.rs:209-257 | Decoding inverts the five-entity escape on every string, decoding nothing twice. |
| `TimedText.NumericEntityDecodes` | crates/youtube/src/timedtext.rs:215-235 | The decimal entity of every character fits the window and decodes to it. |
| `TimedText.HexadecimalEntityDecodes` | crates/youtube/src/timedtext.rs:215-235 | So do its hexadecimal entities, with either x and digits in either case. |
| `TimedText.UnrecognizedStays` | crates/youtube/src/timedtext.rs:209-257 | An ampersand stays before an unknown name, before anything longer than the window, and where no semicolon follows. |
| `TranscriptXml.LookUp` | crates/youtube/src/timedtext.rs:105-118 | The attribute loop computes the lookup of the specification. |
| `TranscriptXml.LookupIsFirstEnding` | crates/youtube/src/timedtext.rs:105-118 | On every attribute list the lookup answers the first attribute whose key ends with the name. |
| `TranscriptXml.LookupIsByNameExactly` | crates/youtube/src/timedtext.rs:105-118 | That is the named attribute exactly when no other key ending like it comes first. |
| `TranscriptXml.LookalikeIsRead` | crates/youtube/src/timedtext.rs:105-118 | An `id` in front of `d` is read as `d`. |
| `TranscriptXml.XmlSegments` | crates/youtube/src/timedtext.rs:54-85 | The element loop computes the specification's segments and never exceeds the segment limits. |
| `TranscriptXml.ParseTimedText` | crates/youtube/src/timedtext.rs:34-52 | Byte budget, format sniff, and never an empty list. |
| `TranscriptXml.RenderingRoundTrip` | crates/youtube/src/timedtext.rs:34-118 | The rendering of any nonempty list of cues within the limits, with either element name and either form of times, parses back to exactly those segments in order. |
| `TranscriptXml.OverLimitRefused` | crates/youtube/src/timedtext.rs:187-206 | One cue too many or one character too many anywhere in a rendering refuses the whole payload. |
| `TranscriptXml.TruncatedRefused` | crates/youtube/src/timedtext.rs:54-85 | A payload that ends inside an element is refused, whatever came before it. |
| `Partition.BoundsSplit` | crates/youtube/src/convert.rs:91-103 | The ranges are nonempty, consecutive, cover everything, and differ in size by at most one. |
| `Partition.EveryItemOnce` | crates/youtube/src/convert.rs:91-103 | Every segment lies in exactly one group. |
| `Grouping.MergeGroup` | crates/youtube/src/convert.rs:104-119 | One group's text is its segments joined by spaces; its timing runs from the first start to the last saturated end. |
| `Grouping.GroupedBlocks` | crates/youtube/src/convert.rs:91-128 | Every block merges its group, and joining the block texts equals joining the segment texts. |
| `BrowserWorker.MarkerMeansEvent` | services/browser-worker/src/lib.rs:320-398 | Under redelivery, crashes and failed marker writes, a completion marker implies an accepted result event for its render. |
| `BrowserWorker.AcknowledgedMeansEvent` | services/browser-worker/src/lib.rs:320-398 | Every acknowledged well-formed command has such an event. |
| `BrowserWorker.EventsAreProduced` | services/browser-worker/src/lib.rs:320-398 | Over every run, every event tells the result of a render that was executed for its own command. |
| `BrowserWorker.JobDone` | services/browser-worker/src/lib.rs:320-398 | An uninterrupted delivery without a marker publishes its own result, stores its marker, is acknowledged and counts one job; one with a marker is acknowledged alone. |
| `BrowserWorker.RecycledAtBudget` | services/browser-worker/src/lib.rs:229-256 | A process recycles exactly at its budget of terminal jobs, a zero budget meaning its first. |
| `BrowserWorker.MarkedIsNotRenderedAgain` | services/browser-worker/src/lib.rs:320-398 | Once a marker is stored, over every later run, the events added for its render are at most the renders already past their lookup plus the lookups that were not answered. |
| `BrowserWorker.MarkedRenderedAgain` | services/browser-worker/src/lib.rs:320-398 | From any state a restarted process whose lookup fails publishes a marked render again. |
| `BrowserWorker.DeduplicatedExactly` | services/browser-worker/src/lib.rs:320-398 | From any state with the marker stored and the render not in flight, no run publishes it again exactly when no process's lookup may go unanswered. |
| `BrowserWorker.RunRenderConsumer` | services/browser-worker/src/lib.rs:229-256 | The loop stops right after the delivery that fills the budget and after no other. |
| `Budgets.RenderBudgets.ConsumeRenderBudget` | crates/eventing/src/render.rs:74-105 | One slot exactly while the day's counter is below the maximum; a maximum beyond 32 bits is refused. |
| `Budgets.SlotsWithinMaximum` | crates/eventing/src/render.rs:74-105 | Over every history the stored counter equals the slots taken and never exceeds the maximum. |
| `Budgets.MediaWithinBudget` | crates/persistence/src/records.rs:286-357 | Under every interleaving, with timestamps taken before the lock, unexpired bytes stay within a budget below the largest. |
| `Budgets.RowsReserved` | crates/persistence/src/records.rs:286-357 | A reservation that fits and that nothing interrupts appends its archive, expiring after its hours, and its artifact row. |
| `Budgets.NeverOverspentExactly` | crates/persistence/src/records.rs:286-357 | The budget holds at all times exactly for budgets below the largest 64-bit value. |
| `Budgets.LargestBudgetOverspends` | crates/persistence/src/records.rs:311-314 | At the largest budget two reservations exceed it. |
| `Budgets.UnexpiredKeepsArtifactExactly` | crates/persistence/src/records.rs:365-391 | An unexpired archive keeps its artifact row through the purge's delete exactly when no expired archive has its digest. |
| `Budgets.SweepOrphansExactly` | crates/persistence/src/records.rs:365-391 | A sweep of three statements with three timestamps leaves the artifact row of an archive it forgets exactly when the archive expired between the deletes with no expired archive of its digest, and returns exactly the digests expired at its select. |
| `Budgets.ExpiryBetweenDeletesOrphans` | crates/persistence/src/records.rs:365-391 | A history after which no archive is left and its artifact row is. |
| `Budgets.SweepLosesBytesExactly` | crates/persistence/src/records.rs:365-391 | For every sweep with anything interleaved, reservations of the same bytes included: an unexpired archive has lost its stored bytes exactly when an archive of its digest had expired at the select, and bytes no archive names stay exactly when none had. |
| `Budgets.ReservedDuringSweepLosesBytes` | crates/persistence/src/records.rs:365-391 | A history in which bytes archived again during a sweep are removed by it. |
| `Budgets.ExpiryDuringSweepLeavesBytes` | crates/persistence/src/records.rs:365-391 | A history after which the bytes of a forgotten archive stay. |
| `Budgets.SharedDigestLosesArtifact` | crates/persistence/src/records.rs:365-391 | A history after which an unexpired archive has lost its artifact row. |
| `Quality.ScoreIsExactSum` | crates/document-ir/src/lib.rs:378-418 | Every score is the unsaturated sum of its components, each within its weight, and at most 1000. |
| `Quality.ScoreIsWeighted` | crates/document-ir/src/lib.rs:378-418 | A score is one point a byte up to 300, 50 a paragraph up to four, 100 for the title and the two shares. |
| `Quality.ExclusionCosts` | crates/document-ir/src/lib.rs:438-447 | Excluded bytes cost their proportion of the weight, rounded up: nothing when nothing is excluded and all of it when everything is. |
| `Quality.ExclusionLowersScore` | crates/document-ir/src/lib.rs:378-447 | More links or boilerplate never raise a score and never make a text accepted. |
| `Quality.EvaluationIs` | crates/document-ir/src/lib.rs:335-418 | A candidate's components are those of its own text, paragraphs, links, boilerplate and headings, and it is accepted exactly from 120 bytes and a score of 350. |
| `Quality.ReasonsNameThresholds` | crates/document-ir/src/lib.rs:399-418 | Accepted exactly from 120 bytes and a score of 350, with the reasons naming exactly the thresholds missed. |
| `Quality.PlainTextAcceptedExactly` | crates/document-ir/src/lib.rs:360-376 | Plain text is accepted exactly from 120 bytes of text and below the score threshold exactly when it is empty. |
| `Quality.Winner` | crates/document-ir/src/lib.rs:420-431 | The accepted decision with the highest score, the earliest of equals, or none when none is accepted. |
| `Quality.Select` | crates/document-ir/src/lib.rs:175-198 | Exactly the winner is selected, or none. |
| `Quality.SelectionKeepsPromise` | crates/document-ir/src/lib.rs:175-198 | What the HTML selection hands on satisfies what the pipeline's terminal calls validate. |
| `Quality.PlainTextKeepsPromise` | crates/document-ir/src/lib.rs:360-376 | So does the one decision of a provider, a PDF or a transcript. |
| `Identity.IdentityDependsOnContentOnly` | crates/document-ir/src/lib.rs:228-264 | Digest, block ids and document id depend only on the owner and the kind, level and text of the blocks. |
| `Identity.DigestsEqualExactly` | crates/document-ir/src/lib.rs:228-308 | Where rendering and hash do not collide, two assembled documents have one digest exactly when their contents agree. |
| `Identity.DocumentIdsEqualExactly` | crates/document-ir/src/lib.rs:228-287 | Likewise one document id exactly when owner and contents agree: another owner or another text has another identity. |
| `Identity.BlockIdsEqualExactly` | crates/document-ir/src/lib.rs:228-333 | Blocks i and j of two assembled documents share an id exactly when the contents agree and i equals j. |
| `Identity.AssemblingAgainIsFixpoint` | crates/document-ir/src/lib.rs:228-264 | Assembling a document's own blocks gives the document back. |
| `Identity.AssembledForm` | crates/document-ir/src/lib.rs:228-264 | Every identifier is a version 8 UUID (section 5.8 of RFC 9562), provenance entry i names block i, block i keeps its kind, level and text, and address, title and language are the route's. |
| `Identity.Uuid8Bits` | crates/document-ir/src/lib.rs:274-287 | Version nibble and variant bits are fixed; every other bit is the digest's. |
| `Identity.AssignBlockIds` | crates/document-ir/src/lib.rs:310-333 | The in-place loop gives block i the id of index i, fails exactly on an unsupported block, and on failure has written exactly the ids before it. |
| `Identity.DocumentIdsDistinct` | crates/document-ir/src/lib.rs:274-287 | Where the hash does not collide, equal ids mean equal owner and equal digest. |
| `Identity.BlockIdsDistinct` | crates/document-ir/src/lib.rs:310-333 | Where the hash does not collide, two blocks of one document never share an id. |

## Left out

- HTML tree building, DOM candidates, PDF parsing, URL parsing, DNS and address classes: candidates, parse results and addresses come in as data.
- JSON decoding of envelopes, player responses, JSON3 transcripts and configuration: decoded values or arbitrary answers; track selection is an answer of the pipeline's world.
- NATS connections, stream creation, topology checks, telemetry, admin routes, process main and the Chromium and yt-dlp processes.
- Weak memory: the drain protocol is modelled under sequential consistency.
- Float seconds of the `start` and `dur` attributes are read by an arbitrary function; the integer millisecond form is exact. UTF-8 validation of payload bytes is taken as given, and payloads are decoded text.
- The pipeline is modelled on values: its continuations become one plan of effects, so the growing vector of resolution steps appears as the finished sequence.
- The browser worker's delivery handling and the media reservation are transition systems on values rather than classes, because their point is the interleaving.
- The cache revalidation that reuses a prior artifact, header evidence, media-type sniffing and the trusted test origin of the fetcher.
- Pacing across redirects: the fetcher waits for the reserved start of its first host only, so the spacing theorem is about reserved instants, not about requests after a redirect.
- Library errors between a claimed row and the run a worker receives (invalid stored URLs or digests).
- ResponseBody.StoreResponse: assumes that a decoder consumes its source in order and that a read that consumes a failed item fails; what it decodes is arbitrary.
- BodyStore.BlobStore.Store: that the path holds the body itself, and not another body of the same digest and length, needs the digest not to collide.
- EndToEnd.PublishedIsAccepted: assumes that workers call the completions of their own plans, which the protocol's schedules do not enforce.
- PlanRuns.PlannedCallApplies: assumes that the outgoing document fact satisfies its contract, whose validation is library code.
- Budgets.SweepLosesBytesExactly: other sweeps' removals do not interleave with the sweep it speaks of; the repository has no caller of the purge yet, so the removal follows its documentation.
- RelayPass.WaitingRowIsAttempted: needs one relay that marks what it claims and new rows stamped after the pass they follow.
- Quality.ExclusionCosts: for texts short enough that the weight times their length fits 64 bits; `Quality.ShareIsFloor` bounds the share for every text.
- Identity.DocumentIdsEqualExactly: needs the canonical rendering, the hex form and the hash not to collide on the two documents compared.
- Quality.PlainTextAcceptedExactly: for texts short enough that 200 times their length fits 64 bits.
