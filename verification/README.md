# Verified model of the transactional safety kernel

These Dafny modules model the small concurrent protocols over database rows on which the backend's
safety rests, and prove what they guarantee over whole runs. Every guarantee spans several files of
the program that never check each other.

| module | models |
|---|---|
| Queue, QueueRuns, QueueOutcomes, QueueScenarios | the durable job queue: leased dispatch, numbered attempts, retry budget, deferrals, dead letters |
| Locks | the leased conversation lock |
| Actions, ActionService, Approvals, ApprovalService, Execution | consequential actions, their event log, approval routes, requests and decisions, and the crash-tolerant execution worker |
| ActionRuns, ActionLog, ActionSafety, ActionOutcomes, ActionScenarios | all interleavings of every writer of an action, the log they leave, and what follows |
| ApprovalLinks, ApprovalLinkRuns, LinkOutcomes, ApprovalLinkScenarios | reviewers' links, one-time codes and their mail, with the unlocked updates between a locked read and its save |
| ReviewRuns, ReviewScenarios | one action and its reviewers' links in joint runs, from the mailed code to the executed action |
| Numerals, Tokens | the printer and parser of approval links |
| Provenance, Cases, CaseService, CaseOutcomes, CaseRuns, CaseTimers, CaseScenarios | deduplicated cases with the messages they rest on, revisions, receipts, histories, timers, response targets and the reopen window |
| Delivery | the claim-before-effect delivery ledger |
| Handoffs, HandoffOutcomes, HandoffRuns | human handoffs in lockstep with conversation control, and the messages and AI replies around them |
| Sorting, Compiler | canonical compilation of agent drafts |
| Wrappers, Clock | optional values, instants |

How to read them. Each database transaction is a function from old rows to new rows. A class holds the
rows and its methods run the transaction statement by statement; each is proved to do what the function
says. A `...Runs` module then takes arbitrary sequences of such transactions by arbitrary actors: an
actor that crashes is one whose next event never comes, and an event whose guard does not hold changes
nothing. An invariant is kept by every event, and the results follow for every reachable state. Where
the program reads, leaves the lock or calls out, and writes later, those are separate events. An
`...Outcomes` module says of each operation, in the columns and clocks it depends on, when it takes effect,
what it leaves and what refuses it: safety alone would be kept by an operation that does nothing.

Time is a number of microseconds that each event brings along; no clock is assumed monotone unless a
statement says so. Digests are symbolic: SHA-256 and HMAC values are equal exactly when their inputs
are, except in `Tokens`, where the keyed digest is any function to 64 hexadecimal digits. A transaction
that raises may commit or roll back where the program leaves that to its caller; both are modelled.

Run `dafny verify dfyconfig.toml` to check everything.

## Findings

Places where the code is weaker than it looks, each with a proof:

- A route edited under a pending request closes the request as INVALIDATED but not the action, which
  then stays in AWAITING_APPROVAL for ever (`ActionScenarios.EditedRouteInvalidates`). This happens
  exactly when somebody looks at the request, or decides, before its deadline while the route is not
  the one pinned (`ActionSafety.StrandsIff`), and only such an action waits for ever
  (`ActionSafety.WaitsForEverIff`). Listing the same mailboxes in another order is already such an edit
  (`ActionScenarios.ReorderedRouteInvalidates`).
- Saving a link writes the whole row as it was read, so it overwrites a mailer answer that landed in
  between; a delivered code is then never accepted. A run that does so is
  `ApprovalLinkScenarios.DeliveredCodeDies`; when it happens is `ApprovalLinkRuns.DeliverySurvivesIff`
  and `ApprovalLinkRuns.NoticeSaveKillsCode`.
- Single-session execution calls the provider before it commits, so it can write twice
  (`ActionScenarios.SingleSessionWritesTwice`): exactly when an earlier execution was rolled back after
  its call and the row, still CONFIRMED, revalidates (`ActionSafety.SecondWriteIff`).
- At most one write never depends on the advisory mutex, but recording the right answer does
  (`ActionSafety.AtMostOnce`, `ActionSafety.DuplicateDiscardsAnswer`); likewise in the delivery ledger
  (`Delivery.EffectAtMostOnce`, `Delivery.WithoutMutexAnswersDiffer`).
- A dead-letter record an operator has closed is never reopened, so a job that dies again is out of the
  operators' reach (`QueueScenarios.RetriedJobDiesForGood`, `QueueRuns.OutOfReachIff`).
- An operator's retry needs room for one more attempt, and max_attempts may not exceed 100. Deferrals
  cost no budget but count as attempts, so a job with 100 attempts can no longer be retried
  (`QueueScenarios.DeferredJobIsRetriableIff`, `QueueRuns.RetryTakesEffectIff`).
- A case configuration that passes validation can make the table refuse every new case of its priority:
  the approaching offset rounds up to the whole response time exactly when at most half a microsecond is
  left (`Cases.PinnedHasRoomIff`), and then no run ever opens a case (`CaseScenarios.NoCaseEverOpensIff`,
  `CaseScenarios.TightConfigurationIsAllowed`, `Cases.IntakeRefusedIff`, `Cases.RelatedCaseRefusedIff`).
- A case reopened under an offset that rounds down to nothing can lose its approaching alert, because the
  timer of that instant has been used up (`CaseScenarios.EagerAlertIsLost`); with one clock no other alert
  is ever lost (`CaseTimers.AlertsAreNotLost`).
- One lost lease while marking a job queued ends the dispatch of the rest of its batch, whose leases
  then have to expire (`QueueScenarios.LostLeaseEndsBatch`; in general `Queue.Outbox.DispatchBatch`).
- The leased lock excludes a second holder only while renewals are punctual, because the body keeps
  running after a failed renewal (`Locks.SecondHolderIff`).

## Model

| member | source | states |
|---|---|---|
| Queue.Outbox.Enqueue | apps/backend/src/agents_factory/common/outbox.py:61-94 | Enqueueing under a known idempotency key leaves the row exactly as it is; otherwise a pending row is added and no other row changes |
| Queue.Outbox.Claim | apps/backend/src/agents_factory/common/queue.py:214-255 | A claim takes at most `limit` unlocked due rows of its kinds, the first ones in the query's order, leases exactly those, and leaves due rows behind only when the batch is full |
| Queue.Outbox.ReleaseHold | apps/backend/src/agents_factory/common/queue.py:257-277 | The hold release returns the row to pending whenever the lease column matches, whatever the status says, and touches nothing else |
| Queue.Outbox.MarkQueued | apps/backend/src/agents_factory/common/queue.py:279-294 | Succeeds exactly for the current lease of a dispatching row; a lost lease changes nothing and is reported |
| Queue.Outbox.RecordDispatchFailure | apps/backend/src/agents_factory/common/queue.py:296-319 | Fails the row and frees its lease only while that lease is current |
| Queue.Outbox.DispatchBatch | apps/backend/src/agents_factory/common/queue.py:175-212 | Each job of the batch goes where its hold check and the queue's reply send it, each counter counts its fate, and the batch stops early exactly at the first job handed over under a lost lease |
| Queue.Outbox.DispatchJob | apps/backend/src/agents_factory/common/queue.py:183-205 | One job of the batch is released, failed or marked queued by its fate; a lost lease changes nothing and is reported |
| Queue.FateIff | apps/backend/src/agents_factory/common/queue.py:183-202 | A result is held exactly while a human has its conversation, sent exactly when it can be addressed, checked and handed over, and failed otherwise |
| Queue.TallyCounts | apps/backend/src/agents_factory/common/queue.py:180-212 | The batch's counters are the numbers of jobs that met each fate and add up to the jobs handled |
| QueueOutcomes.ClaimIff | apps/backend/src/agents_factory/common/queue.py:217-229 | A new lease takes a row exactly when it is pending or failed and due, or dispatching under a lease that has run out |
| QueueOutcomes.EnqueuedIsTakenIff | apps/backend/src/agents_factory/common/outbox.py:61-94 | An enqueued job is pending, with five attempts, and taken by a dispatcher exactly from its instant on |
| QueueOutcomes.CandidatesIff | apps/backend/src/agents_factory/common/queue.py:217-236 | The rows a batch is taken from: served topic, not locked by another dispatcher, due or abandoned |
| QueueOutcomes.OnlyTheBatchIsLeased | apps/backend/src/agents_factory/common/queue.py:237-255 | Claiming leases the rows of the batch and no other |
| QueueOutcomes.QueueOrder | apps/backend/src/agents_factory/common/queue.py:230-232 | The queue's order is total: due instant, then age, then id |
| QueueOutcomes.LeaseEndsAs | apps/backend/src/agents_factory/common/queue.py:257-319 | What a hold release, a failed hand-over and a marking leave of a leased row, to the column |
| QueueOutcomes.LosesLeaseIff | apps/backend/src/agents_factory/common/queue.py:203-205 | A batch ends early exactly at a job the queue took although the row no longer carries the lease |
| QueueOutcomes.DispatchedIs | apps/backend/src/agents_factory/common/queue.py:183-205 | Where each fate leaves a leased row, and when it is due again |
| QueueOutcomes.StartIff | apps/backend/src/agents_factory/common/queue.py:409-474 | Which rows a worker may start, which are answered as complete, and which refused; the permit's numbers |
| QueueOutcomes.StartingIs | apps/backend/src/agents_factory/common/queue.py:440-474 | A started attempt is the next number, running, without a lease, and its permit is the only open one |
| QueueOutcomes.FinishingIs | apps/backend/src/agents_factory/common/queue.py:476-641 | What success, deferral, failure and death leave of an owned row, to the column |
| QueueOutcomes.StrangerIsSpared | apps/backend/src/agents_factory/common/queue.py:476-641 | Whoever no longer owns the row changes no column of it, and at most its own attempt row and a missing dead-letter row |
| QueueOutcomes.EndingOutcome | apps/backend/src/agents_factory/common/queue.py:363-407 | The runner's report agrees with the row; a cancellation is charged but never fatal, an error is fatal exactly when not retryable or out of budget |
| QueueOutcomes.OperatedIff | apps/backend/src/agents_factory/modules/operations/admin.py:413-450 | What an operator's action does to any row: it needs an open record, a retry a dead-lettered row the CHECKs accept with room for one more attempt |
| Queue.Outbox.StartAttempt | apps/backend/src/agents_factory/common/queue.py:409-474 | Refuses finished, unready and mismatched rows without change; otherwise opens the next numbered attempt and drops the lease |
| Queue.Outbox.FinishDeferred | apps/backend/src/agents_factory/common/queue.py:476-514 | Only the owner's deferral changes the row; anybody else's rolls back |
| Queue.Outbox.FinishSuccess | apps/backend/src/agents_factory/common/queue.py:516-552 | Only the owner's success changes the row; anybody else's rolls back |
| Queue.Outbox.FinishFailure | apps/backend/src/agents_factory/common/queue.py:554-641 | The attempt row and a missing dead-letter row are written unconditionally, the job row only for its owner, and dead-lettering is decided by the permit's budget or a fatal error |
| Queue.Outbox.RunAttempt | apps/backend/src/agents_factory/common/queue.py:363-407 | An undisturbed run starts one attempt and ends it as its handler ended: success, free deferral, cancellation as a charged failure, or an error that is fatal when not retryable |
| Queue.Outbox.Operate | apps/backend/src/agents_factory/modules/operations/admin.py:397-460 | An operator's action closes an open dead-letter record; a retry also makes a dead-lettered job pending with room for one more attempt, and is rolled back when the table's CHECK refuses that many attempts |
| QueueRuns.EveryRunIsSafe | apps/backend/src/agents_factory/common/queue.py:175-641 | The lease, attempt, owner, budget and dead-letter invariant holds in every interleaving of dispatchers, workers and operators from an enqueue on |
| QueueRuns.OneAttemptInFlight | apps/backend/src/agents_factory/common/queue.py:409-474 | A processing row has exactly one open permit, its number is attempt_count, all earlier attempts are failed, and only finishing that permit can change the row; no conversation lock is assumed |
| QueueRuns.BudgetIsExact | apps/backend/src/agents_factory/common/queue.py:440-514 | attempt_count is deferrals plus charged failures plus one if processing or succeeded; charged failures never exceed max_attempts and stay below it unless dead-lettered; every row meets the table's CHECK constraints, max_attempts of at most 100 included |
| QueueRuns.RetryTakesEffectIff | apps/backend/src/agents_factory/modules/operations/admin.py:424-439 | A retry makes a dead-lettered job pending if and only if its record is open and it has had fewer than 100 attempts, free deferrals included; otherwise nothing changes |
| QueueRuns.DeadLetteredExactlyAtBudget | apps/backend/src/agents_factory/common/queue.py:554-641 | A failure dead-letters the job exactly when it is fatal or the charged failures reach max_attempts, and is otherwise retryable; it charges exactly one |
| QueueRuns.DeferralIsFree | apps/backend/src/agents_factory/common/queue.py:476-514 | A deferral leaves the charged failures as they were and the job claimable when due |
| QueueRuns.SetBackJobWaits | apps/backend/src/agents_factory/common/queue.py:257-319 | A job set back by a hold, a failed hand-over, a deferral or a failed attempt is claimed no earlier than the instant that set-back named |
| QueueRuns.SetBackJobReturns | apps/backend/src/agents_factory/common/queue.py:217-255 | A job set back by a hold, a failed hand-over, a deferral or a retryable failure is taken by a claim from the instant named on |
| QueueRuns.AttemptsAreBounded | apps/backend/src/agents_factory/common/queue.py:409-514 | Every run makes at most six attempts plus two per deferral, and at most five plus one per deferral until an operator closes its dead-letter record |
| QueueRuns.SucceededIsFinal | apps/backend/src/agents_factory/common/queue.py:516-552 | No later event of any actor changes a succeeded row |
| QueueRuns.DeadLetterIsFinal | apps/backend/src/agents_factory/common/queue.py:554-641 | A dead-lettered row changes only by an operator's retry |
| QueueRuns.DeadLetterRecordIsExact | apps/backend/src/agents_factory/common/queue.py:586-625 | Despite the unguarded insert, until an operator closes it a dead-letter record exists exactly for dead_letter rows, and every dead_letter row has one |
| QueueRuns.ClosedRecordIsNeverReopened | apps/backend/src/agents_factory/common/queue.py:601-612 | Once an operator has closed the record, no later event reopens it and no operator action touches the job again |
| QueueRuns.OutOfReachIff | apps/backend/src/agents_factory/common/queue.py:601-612 | A dead-lettered job stays dead in every run exactly when its record is closed or it has had 100 attempts |
| QueueScenarios.DeferredJobIsRetriableIff | supabase/migrations/20260827125824_async_job_coordination.sql:26-28 | From an enqueue on, n free deferrals and one fatal failure leave an open record that a retry can revive exactly when n is below 99 |
| QueueScenarios.RetriedJobDiesForGood | apps/backend/src/agents_factory/common/queue.py:601-612 | From an enqueue on, five failures, an operator's retry and a sixth failure leave the job dead in every continuation |
| QueueScenarios.LostLeaseEndsBatch | apps/backend/src/agents_factory/common/queue.py:203-205 | Of two claimed jobs the queue would take, the second is never handed over once the first's lease has been lost |
| QueueRuns.StaleLeaseIsPowerless | apps/backend/src/agents_factory/common/queue.py:257-319 | A dispatcher whose lease the row no longer carries can never again change it, not even through the status-free hold release |
| QueueRuns.LeaseMarksDispatching | apps/backend/src/agents_factory/common/queue.py:214-294 | The lease columns are set exactly while dispatching, and a row becomes queued only through the lease that handed it to the queue and still holds it |
| QueueRuns.CrashedDispatcherIsReplaced | apps/backend/src/agents_factory/common/queue.py:214-255 | A dispatching row whose lease has expired can be claimed anew, after which every earlier lease is powerless to mark it |
| Locks.ScriptsSpareOthers | apps/backend/src/agents_factory/common/locks.py:13-25 | Helper: renewing or releasing with one value never touches a lease held under another |
| Locks.Store.Acquire | apps/backend/src/agents_factory/common/locks.py:68-80 | The poll loop acquires at the first poll that finds no live lease, and gives up only at a poll at or past the deadline |
| Locks.Store.Renew | apps/backend/src/agents_factory/common/locks.py:100-115 | The renewal loop extends its own lease at each instant until the first one that does not find it |
| Locks.Store.Release | apps/backend/src/agents_factory/common/locks.py:92-96 | Deletes the key exactly when the caller still owns it |
| Locks.ScriptsServeTheOwner | apps/backend/src/agents_factory/common/locks.py:13-25 | The owner of a live lease extends it from now or deletes the key; a key is set exactly when no lease on it is live |
| Locks.RenewalsExtend | apps/backend/src/agents_factory/common/locks.py:100-115 | Renewals that all found their lease each came before it ran out, and the last one sets the expiry |
| Locks.PunctualHoldersExclude | apps/backend/src/agents_factory/common/locks.py:61-115 | At every moment of any run at which each holder has renewed within its lease, at most one body runs, and it owns the key |
| Locks.SecondHolderIff | apps/backend/src/agents_factory/common/locks.py:61-115 | Beside a lone holder a newcomer gets in if and only if that holder is a full lease late and nobody else's lease is live |
| Locks.EntersIff | apps/backend/src/agents_factory/common/locks.py:61-91 | A hold begins exactly when no lease is live, and then owns the key for one lease |
| Locks.RenewingIs | apps/backend/src/agents_factory/common/locks.py:100-115 | A renewal confirms its hold and moves the expiry exactly while that hold owns a live lease |
| Locks.LeavingFrees | apps/backend/src/agents_factory/common/locks.py:92-96 | A hold that ends while it owns the key frees it at once; otherwise it touches nothing but itself |
| Locks.LateHolderIsJoined | apps/backend/src/agents_factory/common/locks.py:100-115 | A run in which a body outlives its lease and a second one joins it |
| Locks.OnlyTheOwnerTouchesALiveLease | apps/backend/src/agents_factory/common/locks.py:13-25 | Helper: a live lease changes only by its owner's renewal or release |
| Locks.LostLeaseNeverReturns | apps/backend/src/agents_factory/common/locks.py:100-115 | A hold that has lost its lease never owns the key again |
| Actions.TerminalHasNoEdge | apps/backend/src/agents_factory/modules/actions/state_machine.py:10-33 | A state is terminal exactly when the transition table has no edge out of it |
| Actions.VersionsAreOneToN | apps/backend/src/agents_factory/modules/actions/repository.py:295-326 | In a chained log the highest version and the last version both equal the number of events |
| Actions.WriteKeepsFaithful | apps/backend/src/agents_factory/modules/actions/repository.py:116-152 | A write along a table edge, or the approve self-step, that the database guard accepts keeps the log faithful to the row |
| ActionService.Repository.AppendEvent | apps/backend/src/agents_factory/modules/actions/repository.py:295-326 | Appends one event numbered after the highest version present |
| ActionService.Repository.Create | apps/backend/src/agents_factory/modules/actions/repository.py:27-99 | Inserts a REQUESTED row with its first event, or leaves an existing row untouched |
| ActionService.Repository.Update | apps/backend/src/agents_factory/modules/actions/repository.py:116-293 | A compare-and-set write: succeeds exactly when the state is the expected one, and then appends the event |
| ActionService.Service.Request | apps/backend/src/agents_factory/modules/actions/service.py:99-201 | A missing approval route, a route without the requirement and a conflicting repeat are refused without change, an identical repeat returns the row; otherwise the new action is rejected, or moved to confirmation, approval or CONFIRMED as its requirement says, with a 15-minute confirmation deadline |
| ActionService.Service.Confirm | apps/backend/src/agents_factory/modules/actions/service.py:203-267 | Wrong state or customer changes nothing; too late expires; a wrong digest rejects; otherwise evidence over the action's own parameters is recorded before the deadline |
| ActionService.Service.ApproveReference | apps/backend/src/agents_factory/modules/actions/service.py:269-307 | Attaches the reference exactly when the action awaits approval, the digest matches, the verifier agrees and none is attached; otherwise nothing changes |
| ActionService.Service.PrepareExecution | apps/backend/src/agents_factory/modules/actions/service.py:322-407 | Terminal rows are returned, EXECUTING is settled as UNCERTAIN, failed checks end the action, and otherwise EXECUTING is claimed with one more attempt |
| ActionService.Service.CompleteExecution | apps/backend/src/agents_factory/modules/actions/service.py:447-486 | Settles an EXECUTING action by the connector's result; a response with sensitive fields counts as unconfirmed |
| Execution.Worker.Prepare | apps/backend/src/agents_factory/modules/approvals/execution.py:100-243 | One transaction decides between rolling back, settling the action, and committing EXECUTING with the decision attached |
| Execution.Worker.Invoke | apps/backend/src/agents_factory/modules/actions/service.py:409-445 | Calls once for a write and at most twice for a safe read, again only after a failure, and returns what the last reply means |
| Execution.Worker.Complete | apps/backend/src/agents_factory/modules/approvals/execution.py:245-282 | A successful receipt for another operation, or for a cancellation without an explicit not-cancelled flag, is recorded as uncertain |
| Execution.Worker.Execute | apps/backend/src/agents_factory/modules/approvals/execution.py:81-282 | An undisturbed run calls the provider only after EXECUTING was committed, then changes nothing but state and outcome, and ends SUCCEEDED exactly for a genuine success, told as such |
| Execution.ExplainedFaithfully | apps/backend/src/agents_factory/modules/approvals/result_schema.py:118-157 | What is told of any outcome but success is success, uncertainty or expiry exactly when that is the state |
| Execution.CompletionIsFaithful | apps/backend/src/agents_factory/modules/actions/service.py:447-486 | Completing with any reply ends in SUCCEEDED exactly for a genuine success and tells the customer accordingly |
| Execution.CompletionOutcome | apps/backend/src/agents_factory/modules/actions/service.py:409-486 | The state and evidence each last reply leaves: silence fails a safe read but leaves a write uncertain, as does a sensitive response; a malformed receipt is uncertain; otherwise the provider's word counts |
| Execution.CompletionElsewhere | apps/backend/src/agents_factory/modules/actions/service.py:447-460 | Completing what is not executing writes nothing: a finished action is left alone, any other state is an error |
| ActionRuns.StepKeeps | apps/backend/src/agents_factory/modules/approvals/execution.py:81-282 | Every writer's transaction keeps the joint invariant of row, request, decision, workers and provider calls |
| ActionRuns.CloseKeeps | apps/backend/src/agents_factory/modules/approvals/expiry.py:13-61 | Closing a request from any caller, with its decision already in place, keeps the joint invariant |
| ActionRuns.PrepareOutcome | apps/backend/src/agents_factory/modules/approvals/execution.py:100-243 | For a sound row with a request, a preparation rolls back, or moves the approved action along a table edge with a faithful explanation, or permits execution from AWAITING_APPROVAL only |
| ActionLog.EveryLogIsFaithful | apps/backend/src/agents_factory/modules/actions/repository.py:116-326 | In every run each committed write is a table edge or the approve self-step and is accepted by the database guard, versions are 1..n, events chain, and the last is the row |
| ActionLog.PrepareLogs | apps/backend/src/agents_factory/modules/approvals/execution.py:117-205 | The execution worker's writes, which bypass the table, are edges of it because a request implies AWAITING_APPROVAL or later |
| ActionLog.CloseLogs | apps/backend/src/agents_factory/modules/approvals/expiry.py:33-45 | Closing a request ends the action along a table edge |
| ActionLog.ExpireLogs | workers/scheduler/src/scheduler/lifecycle_jobs.py:58-76 | The lifecycle job's expiry write is a table edge the database accepts |
| ActionLog.LogAt | supabase/migrations/20260829130000_actions_policies.sql:74-91 | Event k is numbered k + 1 and follows event k - 1 by an accepted write |
| ActionLog.NothingFollowsTerminal | apps/backend/src/agents_factory/modules/actions/state_machine.py:10-33 | No event follows one that ended in a terminal state |
| ActionSafety.AtMostOnce | apps/backend/src/agents_factory/modules/approvals/execution.py:81-282 | Over any number of workers, repeats and crashes, with or without the mutex: at most one write (two safe reads), one permit, one attempt, and SUCCEEDED only after a genuine success was answered |
| ActionSafety.FailedWriteWasRefused | apps/backend/src/agents_factory/modules/actions/service.py:423-443 | In every run, an approved write that was called and is FAILED was refused or failed in the provider's own words |
| ActionSafety.RepeatsIff | apps/backend/src/agents_factory/modules/actions/service.py:409-445 | A worker's call is repeated exactly when it was the first of a safe read and not answered, or answered as failed |
| ActionSafety.ExecutingIsEnteredOnce | apps/backend/src/agents_factory/modules/actions/repository.py:226-255 | The log of any reachable action shows EXECUTING at most once |
| ActionSafety.InterruptedEndsUncertain | apps/backend/src/agents_factory/modules/approvals/execution.py:117-131 | An EXECUTING action without a live worker makes no further call and only ever ends UNCERTAIN |
| ActionSafety.AnswerIsRecorded | apps/backend/src/agents_factory/modules/approvals/execution.py:81-98 | With the mutex, a worker that does not crash records its answer: SUCCEEDED exactly when it was genuine |
| ActionSafety.DuplicateDiscardsAnswer | apps/backend/src/agents_factory/modules/approvals/execution.py:117-131 | Without the mutex, a duplicate that prepares before the worker completes turns any answer into UNCERTAIN |
| ActionSafety.DirectCallsAreCounted | apps/backend/src/agents_factory/modules/actions/service.py:309-320 | Single-session execution writes exactly as often as it commits attempts plus executions rolled back after the call |
| ActionSafety.DirectCallsIff | apps/backend/src/agents_factory/modules/actions/service.py:309-377 | A single-session execution calls the provider if and only if the row says CONFIRMED and the revalidation passes |
| ActionSafety.DirectExecutionOutcome | apps/backend/src/agents_factory/modules/actions/service.py:309-486 | A single-session execution repeats exactly a safe read that was not answered or answered as failed; the last reply decides the state, and a rollback keeps the row |
| ActionSafety.SecondWriteIff | apps/backend/src/agents_factory/modules/actions/service.py:309-320 | In any run, a single-session execution writes a second time if and only if an earlier one was rolled back after its call, the row says CONFIRMED and the revalidation passes |
| ActionSafety.KeptDirectIsAtMostOnce | apps/backend/src/agents_factory/modules/actions/service.py:309-320 | From the start of an action, single-session execution writes at most once in every run in which every execution commits |
| ActionSafety.RolledBackDirectCallsAgain | apps/backend/src/agents_factory/modules/actions/service.py:309-320 | A single-session execution rolled back after its call leaves the row CONFIRMED, and the next one calls again |
| ActionSafety.GatesHold | apps/backend/src/agents_factory/modules/actions/service.py:164-267 | Every action that has called or executed had the identity level, in-time confirmation with evidence over its own parameters if required, and if approval was required an APPROVE decision and an APPROVED request over the same digest |
| ActionSafety.ConfirmationOutcome | apps/backend/src/agents_factory/modules/actions/service.py:213-267 | Each outcome of a confirmation by who sent it, what they saw and when: only the requesting customer, with the digest of these parameters, before the deadline |
| ActionSafety.ConfirmationTakesEffectIff | apps/backend/src/agents_factory/modules/actions/service.py:203-267 | In any run a confirmation takes effect exactly when its own customer confirms these parameters in time, or when the write of the one that raises is committed |
| ActionSafety.OnlyWaitingConfirms | apps/backend/src/agents_factory/modules/actions/service.py:212-214 | No other state can be confirmed |
| ActionSafety.ExecutionWasConfirmed | apps/backend/src/agents_factory/modules/actions/service.py:213-267 | In every run, an executed action that required confirmation was confirmed by an event of its own customer, in time, over its own parameters |
| ActionSafety.RequestOutcome | apps/backend/src/agents_factory/modules/actions/service.py:155-201 | Where a request goes: rejected exactly without identity or authorisation, otherwise to the customer, a reviewer, or on |
| ActionSafety.OnlyAdmittedExecute | apps/backend/src/agents_factory/modules/actions/service.py:155-176 | A request that was not admitted stays REJECTED and calls nothing in every run |
| ActionOutcomes.EnteredFrom | apps/backend/src/agents_factory/modules/actions/state_machine.py:10-33 | The transition table by its targets: from where alone each state can be entered |
| ActionOutcomes.SameRequestIff | apps/backend/src/agents_factory/modules/actions/service.py:553-580 | A repeated request is the same exactly if conversation, customer, operation, parameters and binding agree |
| ActionOutcomes.DeadlineIs | apps/backend/src/agents_factory/modules/actions/service.py:143-147 | A quarter of an hour to confirm, and only where confirmation is wanted |
| ActionOutcomes.ExpiryIff | workers/scheduler/src/scheduler/lifecycle_jobs.py:58-76 | The lifecycle job expires exactly actions whose customer's time is up |
| ActionOutcomes.ExpiryAndConfirmationMeet | workers/scheduler/src/scheduler/lifecycle_jobs.py:58-76 | The lifecycle job and a late confirmation agree on the instant from which an action is expired |
| ActionOutcomes.DirectPreparationOutcome | apps/backend/src/agents_factory/modules/actions/service.py:322-407 | What a single-session preparation makes of each state of an action without approval |
| ActionOutcomes.OpenIff | apps/backend/src/agents_factory/modules/approvals/service.py:160-224 | Who may open a request, and the request that is opened |
| ActionOutcomes.PolicyLimits | apps/backend/src/agents_factory/modules/approvals/models.py:29-61 | The limits a route's own validation sets on mailboxes and numbers |
| ActionOutcomes.UsabilityIff | apps/backend/src/agents_factory/modules/approvals/service.py:299-313 | When a request can be used, and whether one that cannot expires or is invalidated: its time first, then its premises |
| ActionOutcomes.ClosedOnce | apps/backend/src/agents_factory/modules/approvals/expiry.py:13-45 | Closing what is closed already leaves request and decision as they are; only rejection and expiry end a waiting action |
| ActionOutcomes.ClosingTells | apps/backend/src/agents_factory/modules/approvals/expiry.py:33-45 | What a customer is told as a request closes without an execution |
| ActionOutcomes.PendingRowIsKept | apps/backend/src/agents_factory/modules/approvals/expiry.py:13-45 | While a request is pending, only a look, a decision and the expiry job write the action |
| ActionOutcomes.DecisionIs | apps/backend/src/agents_factory/modules/approvals/service.py:575-626 | A decision is stored with its verdict, its instant and the action's own parameters; an unproved one changes nothing |
| ActionOutcomes.VerifiedIff | apps/backend/src/agents_factory/modules/approvals/service.py:655-683 | The verifier accepts exactly the approving decision, over the same parameters, of an unexpired request on its unchanged, enabled route |
| ActionOutcomes.PreparationOutcome | apps/backend/src/agents_factory/modules/approvals/execution.py:143-243 | What a worker's preparation of an approved action comes to, check by check: permitted exactly when all four clock readings are in time, route and agent unchanged, connector and revalidation there |
| ActionOutcomes.PreparesIff | apps/backend/src/agents_factory/modules/actions/service.py:322-407 | From which rows the action service prepares at all, and which state and reason a refused approved one ends with |
| ActionOutcomes.PremisesIff | apps/backend/src/agents_factory/modules/approvals/execution.py:143-187 | What the worker asks of any row, request and route before it goes on, besides time and connector |
| ActionOutcomes.AttachedOnce | apps/backend/src/agents_factory/modules/approvals/execution.py:206-216 | A decision attached already is not attached again |
| ActionOutcomes.OtherPreparations | apps/backend/src/agents_factory/modules/approvals/execution.py:100-142 | A preparation in any other state leaves finished actions alone, settles an interrupted one, and rolls back otherwise |
| ActionOutcomes.ToldIs | apps/backend/src/agents_factory/modules/approvals/result_schema.py:118-157 | What the customer is told, by the state and the recorded code |
| ActionOutcomes.CrashLeavesTheRow | apps/backend/src/agents_factory/modules/approvals/execution.py:81-98 | A worker's crash leaves row, request and provider log as they were and frees the mutex |
| ActionSafety.EnteringExecution | apps/backend/src/agents_factory/modules/approvals/execution.py:143-243 | EXECUTING is entered only by the worker from AWAITING_APPROVAL with the request unexpired at each of its four clock readings, the route enabled and unchanged, the active spec permitting and the revalidation valid |
| ActionSafety.PermitNeeds | apps/backend/src/agents_factory/modules/approvals/execution.py:164-187 | Helper of EnteringExecution: a permit requires each of the worker's checks to have passed |
| ActionSafety.ClosedIsFinal | apps/backend/src/agents_factory/modules/approvals/expiry.py:22-27 | First response wins: a closed request and its decision never change |
| ActionSafety.DecisionMatchesRequest | apps/backend/src/agents_factory/modules/approvals/service.py:575-626 | A request is APPROVED or REJECTED exactly when a decision with that verdict exists, over the action's own parameters |
| ActionSafety.TerminalIsFinal | apps/backend/src/agents_factory/modules/actions/service.py:331-333 | No actor ever writes a terminal action again |
| ActionSafety.OutcomeIsTold | apps/backend/src/agents_factory/modules/approvals/execution.py:284-313 | A terminal action that went through a request always carries what the customer is told, truthfully, so queueing its result cannot fail |
| ActionSafety.StrayExecutionSettlesIff | apps/backend/src/agents_factory/modules/actions/service.py:331-343 | Single-session execution run on an action that needs approval would change it exactly while it is EXECUTING, settling it as UNCERTAIN with nothing told |
| ActionSafety.StrandsIff | apps/backend/src/agents_factory/modules/approvals/service.py:299-313 | An event on a pending request strands its action, closing the request as INVALIDATED, if and only if it is a look or a decision before the deadline while the route is not the one pinned |
| ActionSafety.RequestAndActionCloseTogether | apps/backend/src/agents_factory/modules/approvals/expiry.py:13-61 | What any event makes of a pending request follows from its kind, the deadline, the route and the verdict, and it ends the action exactly when the request expires or is rejected |
| ActionSafety.InvalidatedStrandsTheAction | apps/backend/src/agents_factory/modules/approvals/expiry.py:33-36 | An INVALIDATED request leaves its action in AWAITING_APPROVAL in every continuation, whoever acts |
| ActionSafety.WaitsForEverIff | apps/backend/src/agents_factory/modules/approvals/expiry.py:33-36 | Once its request is closed, an action waits for ever if and only if the request was INVALIDATED |
| ActionSafety.OpenedRequestLasts | apps/backend/src/agents_factory/modules/approvals/service.py:206-224 | An opened request expires after its creation, no later than the route allows, despite flooring to seconds |
| ActionScenarios.SingleSessionWritesTwice | apps/backend/src/agents_factory/modules/actions/service.py:309-320 | A concrete run family in which single-session execution writes twice, whatever the provider answers |
| ActionScenarios.EditedRouteInvalidates | apps/backend/src/agents_factory/modules/approvals/service.py:305-312 | A concrete run family in which any edit of a route, however small, strands the action pending under it |
| ActionScenarios.ReorderedRouteInvalidates | apps/backend/src/agents_factory/modules/actions/models.py:45-56 | Listing the same mailboxes in another order stores a new revision and strands the action pending under the old one |
| ActionScenarios.DuplicateTurnsSuccessUncertain | apps/backend/src/agents_factory/modules/approvals/execution.py:81-131 | A concrete run family, without the mutex, in which the provider succeeded, nobody crashed, and the action ends UNCERTAIN |
| ApprovalService.SecondEditIsRefused | apps/backend/src/agents_factory/modules/approvals/service.py:127-140 | Helper of SaveRoute: of two different route edits based on one revision the second is refused, and succeeds when based on the new one |
| ApprovalService.Rows.SaveRoute | apps/backend/src/agents_factory/modules/approvals/service.py:104-153 | Saving a route needs a mailbox if enabled, ignores an identical configuration, mailbox order included, and is refused on a stale revision |
| ActionOutcomes.SaveRouteIff | apps/backend/src/agents_factory/modules/approvals/service.py:104-153 | A route is stored exactly when it differs, can be mailed if enabled, and was edited from its current revision |
| ApprovalService.Rows.OpenRequest | apps/backend/src/agents_factory/modules/approvals/service.py:160-259 | Opens the action's only request, on a matching enabled route with standing confirmation, with exactly one untouched link for each mailbox of that route; otherwise nothing changes |
| ApprovalService.Rows.Close | apps/backend/src/agents_factory/modules/approvals/expiry.py:13-61 | Closes a pending request, invalidates every link and its code, and ends a waiting action on rejection or expiry only |
| ApprovalService.Rows.Usable | apps/backend/src/agents_factory/modules/approvals/service.py:299-313 | True exactly for a pending, unexpired request whose route and action are unchanged; otherwise closes it as EXPIRED or INVALIDATED when still pending |
| ApprovalService.Rows.Decide | apps/backend/src/agents_factory/modules/approvals/service.py:575-626 | Records a decision exactly on a usable request with a link, claim and code that prove, closing request and links with it; a wrong code is counted on its link, and a request that must close closes |
| ApprovalService.Rows.Lapse | workers/scheduler/src/scheduler/lifecycle_jobs.py:77-93 | The expiry job closes exactly pending requests that are due, with their links |
| ApprovalService.Rows.ExpireConfirmation | workers/scheduler/src/scheduler/lifecycle_jobs.py:58-76 | The confirmation job expires exactly actions awaiting confirmation that are due, keeping their result |
| ApprovalLinks.OpenLinks | apps/backend/src/agents_factory/modules/approvals/service.py:225-239 | Makes exactly one untouched link for each authorised mailbox of the route, under the ids given |
| ApprovalLinks.Desk.StartOtp | apps/backend/src/agents_factory/modules/approvals/service.py:419-458 | Issues a code exactly when the link is live, matches the caller, is below both limits and past its cooldown |
| ApprovalLinks.Desk.Verify | apps/backend/src/agents_factory/modules/approvals/service.py:496-541 | True exactly for the right, delivered, unexpired code of a matching live link; a wrong one is counted, and shuts the link at the limit |
| ApprovalLinks.Desk.SendNotices | apps/backend/src/agents_factory/modules/approvals/service.py:365-417 | One pass claims, mails and records unsent notices of live links and gives up interrupted claims |
| ApprovalLinks.PassMailsOnce | apps/backend/src/agents_factory/modules/approvals/service.py:365-417 | A pass mails each claimable link it visits exactly once, however often it is listed, and no other |
| LinkOutcomes.MayStartIff | apps/backend/src/agents_factory/modules/approvals/service.py:419-440 | Who is sent a code: the live link's own authorised mailbox, below both limits and past the cooldown |
| LinkOutcomes.NewLinkIs | apps/backend/src/agents_factory/modules/approvals/service.py:225-239 | A link as it is made: nothing sent, tried, claimed or coded |
| LinkOutcomes.StartedIs | apps/backend/src/agents_factory/modules/approvals/service.py:441-458 | A new code replaces the old one and lives its seconds or until the request's deadline, whichever is first |
| LinkOutcomes.VerificationOutcome | apps/backend/src/agents_factory/modules/approvals/service.py:496-541 | What a presented code comes to: nothing for a stranger or a spent link, a proof, or a counted miss that shuts the link at the limit |
| LinkOutcomes.AnsweredIs | apps/backend/src/agents_factory/modules/approvals/service.py:321-333 | Only a link of this request can prove a decision |
| LinkOutcomes.NoticedIs | apps/backend/src/agents_factory/modules/approvals/service.py:380-395 | A notice job claims a fresh live link, gives up an unfinished claim, and leaves the rest |
| LinkOutcomes.AnswersLandIff | apps/backend/src/agents_factory/modules/approvals/service.py:405-418 | An answer lands only on a claim still waiting for it, a code's only on its own challenge |
| LinkOutcomes.MailStatusIs | apps/backend/src/agents_factory/modules/approvals/service.py:344-363 | The mailer's clear answers are taken as they are, everything else as unclear |
| LinkOutcomes.ClosingShuts | apps/backend/src/agents_factory/modules/approvals/expiry.py:28-32 | A closing request shuts each of its links and forgets its code |
| LinkOutcomes.PassLeaves | apps/backend/src/agents_factory/modules/approvals/service.py:365-417 | What one pass leaves of a link, given the mailer's answer |
| ApprovalLinkRuns.StepKeeps | apps/backend/src/agents_factory/modules/approvals/service.py:273-313 | Every locked look, save, abort, mailing and unlocked answer keeps the joint invariant of request, links, holder and mail |
| LinkOutcomes.LookTakesIff | apps/backend/src/agents_factory/modules/approvals/service.py:273-313 | A look takes the lock and the row exactly when the request is usable and nobody holds it |
| LinkOutcomes.LookCloses | apps/backend/src/agents_factory/modules/approvals/service.py:299-313 | A look at a request that must close closes it, as expired or as invalidated, and shuts its links |
| LinkOutcomes.SaveWrites | apps/backend/src/agents_factory/modules/approvals/service.py:365-541 | What a save writes for each thing a transaction can be doing with the row it read |
| LinkOutcomes.MailIff | apps/backend/src/agents_factory/modules/approvals/service.py:395-410 | What is owed is handed to the mailer, once |
| LinkOutcomes.LandingIff | apps/backend/src/agents_factory/modules/approvals/service.py:411-418 | A final answer lands once for what was mailed, and only on a claim still waiting for it, a code's only on its own challenge |
| ApprovalLinkRuns.ClosedShutsAllLinks | apps/backend/src/agents_factory/modules/approvals/expiry.py:28-32 | Once the request is closed every link is invalidated and no code is left |
| ApprovalLinkRuns.FirstResponseWins | apps/backend/src/agents_factory/modules/approvals/expiry.py:22-27 | A closed request never leaves its state, its decision never changes, and its verdict is its state |
| ApprovalLinkRuns.OtpBounds | apps/backend/src/agents_factory/modules/approvals/service.py:419-541 | Wrong codes counted and codes issued equal the link's counters and never exceed the limits of the policy pinned at request time |
| ApprovalLinkRuns.MailedAtMostOnce | apps/backend/src/agents_factory/modules/approvals/service.py:365-417 | Each notice and each code is handed to the mailer at most once in any interleaving, despite the unlocked answers |
| ApprovalLinkRuns.InvalidatedForever | apps/backend/src/agents_factory/modules/approvals/repository.py:166-182 | An invalidated link never becomes valid and its counters never change, though a save may write NULL there |
| ApprovalLinkRuns.DecisionNeedsProof | apps/backend/src/agents_factory/modules/approvals/service.py:496-524 | A decision is recorded only for the latest code of a live, matching link of the pinned route, delivered and unexpired, before the request's deadline |
| ApprovalLinkRuns.IssuingFollowsPolicy | apps/backend/src/agents_factory/modules/approvals/service.py:419-458 | A code is issued only below both limits and past the cooldown, for a fresh challenge, and expires within its seconds and no later than the request |
| ApprovalLinkRuns.DeliverySurvivesIff | apps/backend/src/agents_factory/modules/approvals/repository.py:166-182 | The answer for a link's current code landing between a holder's read and its save survives if and only if that save does not rewrite the row |
| ApprovalLinkRuns.DeadCodeNeverProves | apps/backend/src/agents_factory/modules/approvals/service.py:507-519 | A delivered code whose answer was overwritten is accepted in no later run |
| ApprovalLinkRuns.NoticeSaveKillsCode | apps/backend/src/agents_factory/modules/approvals/service.py:380-389 | A notice pass that read the row before a code's answer landed kills the delivered code if and only if it rewrites the row |
| ApprovalLinkScenarios.DeliveredCodeDies | apps/backend/src/agents_factory/modules/approvals/repository.py:166-182 | From a request just opened, a run in which a code is mailed once and reported delivered, its link stays live, and yet no continuation ever accepts it |
| ReviewRuns.StepKeeps | apps/backend/src/agents_factory/modules/approvals/service.py:273-313 | Any event on an action with its request and links keeps both sides agreed on request and decision, each side doing only what it could do alone |
| ReviewRuns.BothSidesAreReachable | apps/backend/src/agents_factory/modules/approvals/service.py:273-313 | In every joint run the action's side and the links' side are reachable on their own, so all their properties hold together, and request and decision agree |
| ReviewRuns.DecisionWasProved | apps/backend/src/agents_factory/modules/approvals/service.py:575-626 | Every decision in a joint run was brought by one save of a reviewer holding a live link of a mailbox the pinned route authorises, with its mailed, delivered, unexpired code, before the deadline |
| ReviewRuns.ExecutionWasApprovedByCode | apps/backend/src/agents_factory/modules/approvals/execution.py:143-243 | No action that needs approval calls the provider or begins to execute unless such a save approved it; the decision attached is that one, over the action's own parameters |
| ReviewScenarios.ReviewerLetsActionExecute | apps/backend/src/agents_factory/modules/approvals/service.py:575-626 | A joint run from request to EXECUTING exists for every plain action, serving route and reviewer: the guarantees are not empty |
| Tokens.RoundTripIff | apps/backend/src/agents_factory/modules/approvals/tokens.py:51-76 | verify_link(issue_link(c)) is c if and only if the expiry is a whole second in 0..99999999999 |
| Tokens.AcceptedIsIssued | apps/backend/src/agents_factory/modules/approvals/tokens.py:55-76 | An accepted string is exactly what issuing its claims prints |
| Tokens.AcceptsExactlyIssued | apps/backend/src/agents_factory/modules/approvals/tokens.py:55-76 | The accepted strings are exactly the issued ones: no leading zeros and no other spelling |
| Tokens.ExpiryText | apps/backend/src/agents_factory/modules/approvals/tokens.py:51-60 | The printed expiry has the accepted shape exactly for 0..99999999999 seconds and reads back |
| Tokens.IssuedSplits | apps/backend/src/agents_factory/modules/approvals/tokens.py:51-64 | Splitting an issued link gives its fields and its signature back |
| Tokens.MintedLinkMatches | apps/backend/src/agents_factory/modules/approvals/service.py:206-233 | A link minted for any instant reads back to the floored expiry stored with the request, and printing from the stored one gives the same string |
| Clock.FlooredIsClose | apps/backend/src/agents_factory/modules/approvals/service.py:206-215 | Flooring to whole seconds loses less than a second and is stable |
| Cases.TerminalHasNoEdge | apps/backend/src/agents_factory/modules/cases/state_machine.py:5-41 | A case status is terminal exactly when no transition leaves it |
| CaseOutcomes.EnteredFrom | apps/backend/src/agents_factory/modules/cases/state_machine.py:5-41 | The case table by its targets: from where alone each status can be entered |
| Cases.TransitionIff | apps/backend/src/agents_factory/modules/cases/service.py:347-395 | Which backoffice moves are applied and what refuses the others: no reopening or closing, a result only with a decision, the row's revision, an approval step's reference, an edge of the table; and what an applied one writes |
| CaseOutcomes.ResolvingIs | apps/backend/src/agents_factory/modules/cases/service.py:294-345 | A move keeps targets and content, is logged, and schedules the closing timer exactly when it resolves |
| CaseOutcomes.IntakeOpensIff | apps/backend/src/agents_factory/modules/cases/service.py:232-292 | An intake that finds no case to go on with is refused without change, or opens a new one beside the closed one, to the column |
| CaseOutcomes.IntakeGoesOnIff | apps/backend/src/agents_factory/modules/cases/service.py:240-292 | An intake for an open case: each refusal, and what an accepted one writes |
| CaseOutcomes.PersistingOutcome | apps/backend/src/agents_factory/modules/cases/service.py:418-463 | A persisting issue reopens inside the window, opens a related case after it, reuses any other open case, and is refused on other terminal ones; what each writes |
| CaseOutcomes.UnknownCaseIsRefused | apps/backend/src/agents_factory/modules/cases/service.py:412-416 | A report, response or move for a case nobody can find changes nothing |
| CaseOutcomes.ResponseOutcome | apps/backend/src/agents_factory/modules/cases/service.py:486-527 | A response restarts the silence window exactly inside it, with a new timer, and is only recorded outside it |
| CaseOutcomes.TimerOutcome | apps/backend/src/agents_factory/modules/cases/service.py:529-573 | A timer closes a resolved case that is due, raises the alert its instant calls for, and does nothing else |
| CaseOutcomes.ReplayIff | apps/backend/src/agents_factory/modules/cases/repository.py:92-126 | A repeated operation is answered as it was, another one under its id refused, and neither changes anything |
| CaseOutcomes.LookTakesIff | apps/backend/src/agents_factory/modules/cases/repository.py:50-67 | The query under the dedupe lock finds an open case if there is one and nothing otherwise, a case whose reopen window is over not counting for the report on it |
| CaseOutcomes.RowEventTakesEffectIff | apps/backend/src/agents_factory/modules/cases/service.py:362-395 | In any interleaving a response is recorded exactly on a known case that nobody holds, a transition exactly if it is also accepted, each once for its operation |
| Cases.AllowedLimits | apps/backend/src/agents_factory/modules/cases/models.py:22-36 | The limits the configuration's own validation sets |
| CaseService.Desk.Equivalent | apps/backend/src/agents_factory/modules/cases/repository.py:50-67 | Finds the open case, and meets two exactly when two different cases are open |
| CaseService.Desk.Schedule | apps/backend/src/agents_factory/modules/cases/service.py:141-156 | Puts timers at the row's current instants and removes none |
| CaseService.Desk.Save | apps/backend/src/agents_factory/modules/cases/repository.py:69-90 | Saves the row and appends the event from its old status to its new one |
| CaseService.Desk.Change | apps/backend/src/agents_factory/modules/cases/service.py:294-345 | Refused exactly when the table has no such edge; otherwise revision, close and target instants, customer result and timers follow the target |
| CaseService.Desk.Create | apps/backend/src/agents_factory/modules/cases/service.py:174-192 | Adds a case of revision 1 with its CREATED event and both timers, or changes nothing when the policy leaves no room between the two target instants |
| Cases.PinnedHasRoomIff | apps/backend/src/agents_factory/modules/cases/targets.py:6-13 | An allowed configuration leaves room between the two target instants exactly when more than half a microsecond is left after the exact product, ties rounding to even |
| Cases.ScaledIsNearest | apps/backend/src/agents_factory/modules/cases/targets.py:13-13 | The approaching offset is rounded to the nearest microsecond, ties to even |
| Cases.IntakeRefusedIff | apps/backend/src/agents_factory/modules/cases/service.py:170-192 | An intake that would open a case is refused by the table, changing nothing, if and only if its configuration leaves no room, and answered otherwise |
| Cases.RelatedCaseRefusedIff | apps/backend/src/agents_factory/modules/cases/service.py:424-454 | The same for a report that would open a related case |
| CaseScenarios.NoCaseEverOpensIff | supabase/migrations/20260831033300_cases.sql:181-181 | Under one configuration no run ever opens a case if and only if it leaves no room |
| CaseScenarios.TightConfigurationIsAllowed | apps/backend/src/agents_factory/modules/cases/models.py:19-34 | Such a configuration passes the model's own validation: one minute and the fraction 1 - 2^-27 |
| CaseService.Desk.FindOrCreate | apps/backend/src/agents_factory/modules/cases/service.py:194-292 | A repeat is answered from its receipt; otherwise the elapsed case is closed first, and the intake creates, reuses or merges into the open case, or is refused, also for conflicting or too many messages, with everything rolled back |
| CaseService.Desk.Transition | apps/backend/src/agents_factory/modules/cases/service.py:347-395 | A backoffice move is answered from its receipt, refused on a stale revision, a missing approval, a misplaced result or no edge, and otherwise applied with a receipt |
| CaseService.Desk.ReportPersisting | apps/backend/src/agents_factory/modules/cases/service.py:397-463 | Reopens inside the window, closes and opens a related case after it, reuses an open one, and refuses other terminal cases |
| CaseService.Desk.RecordResponse | apps/backend/src/agents_factory/modules/cases/service.py:465-527 | Restarts the silence window inside it, and is only recorded outside it |
| CaseService.Desk.ProcessTimer | apps/backend/src/agents_factory/modules/cases/service.py:529-573 | Closes a resolved case that is due, raises a response-target alert that is new, and otherwise changes nothing |
| Provenance.MergeProvenance | apps/backend/src/agents_factory/modules/cases/service.py:49-65 | For claims, a conflict when a message comes with two contents, too many when more than 1000 remain, and otherwise the merged contributions; any other capability takes the new intake as it is |
| Provenance.MergeRefusedIff | apps/backend/src/agents_factory/modules/cases/service.py:49-65 | A merge of claims is refused exactly for a message with two contents or more than a thousand contributions in all; any other capability is replaced |
| Provenance.MergeKeepsAll | apps/backend/src/agents_factory/modules/cases/service.py:49-65 | A successful merge of claims holds exactly the union, one contribution per message, the stored ones first and unchanged |
| Provenance.Collect | apps/backend/src/agents_factory/modules/cases/service.py:57-57 | Stored contributions as a dictionary lists them: one per message, in order of first appearance, with its last content |
| Provenance.MergingIsIdempotent | apps/backend/src/agents_factory/modules/cases/service.py:49-65 | Merging again what a merged intake already holds adds nothing |
| CaseRuns.ContributionsAreKept | apps/backend/src/agents_factory/modules/cases/service.py:258-277 | No contribution to a claims case is lost, moved or rewritten in any later run |
| CaseRuns.StepKeeps | apps/backend/src/agents_factory/modules/cases/service.py:194-573 | Every locked step and every row-level transaction keeps the invariant of rows, histories, timers and the holder's query result |
| CaseRuns.OneOpenCase | apps/backend/src/agents_factory/modules/cases/repository.py:50-67 | At most one case is open per key in every interleaving, so the equivalence query has one answer, and the dedupe-lock holder's stays right until it commits |
| CaseRuns.HistoryReplays | apps/backend/src/agents_factory/modules/cases/service.py:275-345 | The history starts with CREATED, chains status to status by legal moves without lowering the revision, and ends at the row |
| CaseRuns.ColumnsFollowStatus | supabase/migrations/20260831033300_cases.sql:181-189 | Closing columns are set exactly in RESOLVED and CLOSED, a customer result only in RESOLVED, REJECTED or CLOSED and always with its author, and target_at is strictly after approaching_at |
| CaseRuns.ReopenWindowIsExact | apps/backend/src/agents_factory/modules/cases/service.py:311-318 | A resolved case can be reopened, or is due to close, exactly by its policy's window of at least an hour, counted from the resolution or the last response |
| CaseRuns.TimersExist | apps/backend/src/agents_factory/modules/cases/service.py:141-156 | Every open case has outbox timers at the instants it currently carries |
| CaseTimers.CloseTimerIsStillToCome | apps/backend/src/agents_factory/modules/cases/service.py:294-345 | With one clock for all row-level transactions, a resolved case's closing timer is in the outbox and has not been processed yet |
| CaseTimers.AlertsAreNotLost | apps/backend/src/agents_factory/modules/cases/service.py:529-573 | With one clock, a target timer that was processed has raised its alert on a case still waiting, however often it was resolved and reopened, unless the approaching offset is nothing |
| CaseScenarios.EagerAlertIsLost | apps/backend/src/agents_factory/modules/cases/service.py:141-156 | The exception is real: with an offset rounded down to nothing, a run on one clock in which a reopened case never gets its approaching alert |
| CaseRuns.ClosingAndReopening | apps/backend/src/agents_factory/modules/cases/service.py:420-436 | CLOSED is entered only from RESOLVED at or after close_at, REOPENED only from RESOLVED before it |
| CaseRuns.TerminalIsFinal | apps/backend/src/agents_factory/modules/cases/state_machine.py:5-46 | A terminal case keeps its row in every run, and no case's revision ever falls |
| CaseRuns.ApprovalStepNeedsReference | apps/backend/src/agents_factory/modules/cases/service.py:379-384 | In every run, a case leaves PENDING_APPROVAL for IN_PROGRESS or REJECTED only by a move of its own that carries the approval's reference |
| CaseRuns.SecondWriterIsRefused | apps/backend/src/agents_factory/modules/cases/service.py:371-376 | Of two transitions prepared against one revision the second is refused, however much later it comes |
| CaseRuns.TargetMovesForward | apps/backend/src/agents_factory/modules/cases/targets.py:16-23 | With timers firing in clock order the response target only moves forward, unless the case is reopened |
| CaseRuns.AlertTakenBackIff | apps/backend/src/agents_factory/modules/cases/service.py:549-561 | A timer takes an alert back exactly when the case is overdue and the timer reads a clock before the target |
| CaseRuns.ReceiptIsFinal | apps/backend/src/agents_factory/modules/cases/repository.py:92-126 | A receipt never changes, so a repeated operation is answered as the first time |
| CaseRuns.StepEvolves | apps/backend/src/agents_factory/modules/cases/service.py:294-573 | Every event changes every existing case by one of the few legal row steps |
| Delivery.Ledger.Once | apps/backend/src/agents_factory/modules/cases/delivery.py:66-139 | An undisturbed call runs the effect only for a new key, answers a finished one unchanged, rejects another payload, and settles an interrupted claim as uncertain |
| Delivery.Ledger.Finish | apps/backend/src/agents_factory/modules/cases/delivery.py:50-64 | Records an outcome only on a claimed row |
| Delivery.ConfirmationOutcome | apps/backend/src/agents_factory/modules/cases/delivery.py:104-118 | An effect is confirmed only by its own operation's presentable answer; anything else is uncertain |
| Delivery.OnceWithoutEffect | apps/backend/src/agents_factory/modules/cases/delivery.py:82-127 | What a caller is told when the effect was not run for it: refused, the recorded outcome, or interrupted |
| Delivery.OnceIsARun | apps/backend/src/agents_factory/modules/cases/delivery.py:66-139 | The ledger's single call is exactly an undisturbed run of its two transactions with the effect between them |
| Delivery.CrashedCallerIsReplaced | apps/backend/src/agents_factory/modules/cases/delivery.py:82-127 | A crashed caller blocks nobody: the next is admitted and settles an unfinished claim as interrupted |
| Delivery.EffectAtMostOnce | apps/backend/src/agents_factory/modules/cases/delivery.py:66-139 | Over all retries and crashes, mutex or not, the effect runs at most once, and what is recorded is what it came to or that it was interrupted |
| Delivery.RecordIsFinal | apps/backend/src/agents_factory/modules/cases/delivery.py:89-103 | A recorded outcome never changes; later calls get it if they match, and a rejection if they do not |
| Delivery.AnswersAgree | apps/backend/src/agents_factory/modules/cases/delivery.py:82-139 | With the mutex, all matching callers that got an answer got the same, recorded one |
| Delivery.WithoutMutexAnswersDiffer | apps/backend/src/agents_factory/modules/cases/delivery.py:82-139 | Without the mutex, a retry during the effect records UNCERTAIN while the effect's own caller is told otherwise |
| Delivery.InterruptedClaimEndsUncertain | apps/backend/src/agents_factory/modules/cases/delivery.py:119-127 | A claim whose caller crashed runs no effect again and is only ever recorded as interrupted |
| Handoffs.Desk.Transition | apps/backend/src/agents_factory/modules/conversations/repository.py:246-288 | A control move happens exactly when the table of moves and the database guard accept it, and is logged with the next version |
| Handoffs.Desk.Append | apps/backend/src/agents_factory/modules/conversations/repository.py:165-205 | Appends a message numbered after the highest arrival |
| Handoffs.Desk.Ingest | apps/backend/src/agents_factory/modules/conversations/service.py:45-114 | A known webhook event changes nothing; a new one adds one message, reopens a closed conversation if configured, and queues one turn exactly when the AI may answer |
| Handoffs.Desk.PersistReply | apps/backend/src/agents_factory/modules/runtime/turn_service.py:388-500 | An AI reply is written exactly when the control version is the one the turn was loaded at, the AI may answer, and the message has no reply yet |
| Handoffs.Desk.Request | apps/backend/src/agents_factory/modules/handoffs/service.py:180-260 | A live handoff is returned; otherwise an AI-controlled conversation with an unchanged configuration gets a waiting notice, a REQUESTED handoff and AWAITING_HUMAN together |
| Handoffs.Desk.HandleEvent | apps/backend/src/agents_factory/modules/handoffs/service.py:301-383 | Out-of-scope events fail, old or late ones are ignored, activity before activation fails, and the rest moves handoff and control together |
| Handoffs.Desk.CloseIfInactive | apps/backend/src/agents_factory/modules/handoffs/service.py:385-426 | Ends handoff and conversation together once the revalidated deadline has passed |
| HandoffOutcomes.RequestIff | apps/backend/src/agents_factory/modules/handoffs/service.py:180-260 | When a request opens a handoff, what it leaves, and which error it gives otherwise |
| HandoffOutcomes.HumanEventIff | apps/backend/src/agents_factory/modules/handoffs/service.py:301-383 | A human's event by what it claims: out of scope, too early, old, or moving handoff and control, to the column |
| HandoffOutcomes.InactivityEnds | apps/backend/src/agents_factory/modules/handoffs/service.py:385-426 | Ending for inactivity closes the handoff and the conversation at that instant and changes nothing else |
| HandoffOutcomes.StrayControlIff | apps/backend/src/agents_factory/modules/conversations/repository.py:246-288 | Control moves on its own exactly between AI_ACTIVE and CLOSED and exactly while no handoff is live |
| HandoffOutcomes.ConfigureIff | apps/backend/src/agents_factory/modules/handoffs/service.py:88-150 | A configuration is stored exactly on its current revision, as the next one |
| HandoffOutcomes.LastArrivalIsHighest | apps/backend/src/agents_factory/modules/conversations/repository.py:171-181 | A new message's number is one above every number given before |
| HandoffOutcomes.GuardRefusalsChangeNothing | supabase/migrations/20260831160756_handoffs.sql:172-199 | Were the tables out of step, the database guard would refuse to close the conversation and the transaction would change nothing |
| HandoffOutcomes.GuardedReopening | supabase/migrations/20260831160756_handoffs.sql:172-199 | A closed conversation with a live handoff would not be reopened by a message |
| HandoffOutcomes.GuardedActivation | supabase/migrations/20260831160756_handoffs.sql:172-199 | A human would not be let into a conversation that is not waiting for one |
| HandoffRuns.StepKeeps | apps/backend/src/agents_factory/modules/handoffs/service.py:180-426 | Every request, human event, inactivity check, inbound message and stray control call keeps the two tables in lockstep |
| HandoffRuns.ControlFollowsHandoff | apps/backend/src/agents_factory/modules/handoffs/service.py:180-426 | At most one live handoff; REQUESTED exactly when AWAITING_HUMAN and ACTIVE exactly when HUMAN_ACTIVE, in any order of events |
| HandoffRuns.GuardNeverRefuses | supabase/migrations/20260831160756_handoffs.sql:172-199 | In lockstep the database guard and the table of moves refuse none of the handoff service's own operations |
| HandoffRuns.StrayControlIsConfined | apps/backend/src/agents_factory/modules/conversations/state_machine.py:28-65 | Control moved without a handoff operation can only go between AI_ACTIVE and CLOSED |
| HandoffRuns.RedeliveryChangesNothing | apps/backend/src/agents_factory/modules/handoffs/service.py:331-339 | An accepted human event redelivered, or anything up to its sequence arriving late, changes nothing at any later time |
| HandoffRuns.HandoffsMoveOnward | apps/backend/src/agents_factory/modules/handoffs/service.py:331-361 | A handoff's sequence never falls and an ended one never changes |
| HandoffRuns.SilentWhileLive | apps/backend/src/agents_factory/modules/conversations/service.py:96-107 | Under the SILENT policy, while a handoff is live, an inbound message queues no turn and moves no control and no AI reply is written, whatever turn was loaded when |
| HandoffRuns.TurnQueuedIff | apps/backend/src/agents_factory/modules/conversations/service.py:83-114 | Who answers a new message: with a live handoff the AI exactly while it is REQUESTED and the policy not silent, otherwise the AI unless the conversation is closed for good |
| HandoffRuns.ReplyWrittenIff | apps/backend/src/agents_factory/modules/runtime/turn_service.py:417-437 | When a reply is written: for a received, unanswered message, at the current version, by the same rule |
| HandoffRuns.StaleTurnIsNeverAnswered | apps/backend/src/agents_factory/modules/runtime/turn_service.py:417-429 | A turn loaded before control moved or a handoff was requested is answered by no AI reply at any later time, under any policy, even when control came back meanwhile |
| HandoffRuns.MessagesAreExact | apps/backend/src/agents_factory/modules/conversations/repository.py:144-215 | One message and at most one turn for each webhook event, however often it is ingested, and turns only for messages received |
| HandoffRuns.RepliesAreExact | apps/backend/src/agents_factory/modules/runtime/turn_service.py:430-489 | At most one AI reply for each customer message, and only after it |
| HandoffRuns.ArrivalsAreGapless | apps/backend/src/agents_factory/modules/runtime/turn_service.py:438-449 | Messages of customer, assistant and notices together are numbered by arrival from 1 without gaps |
| HandoffRuns.InactivityClosesIff | apps/backend/src/agents_factory/modules/handoffs/service.py:385-426 | The check closes a live handoff and its conversation if and only if neither human nor customer has been heard for the configured hours |
| HandoffRuns.RecentActivityPreventsClosing | apps/backend/src/agents_factory/modules/handoffs/service.py:345-361 | An accepted human event protects the handoff from the inactivity check for its configured hours, whatever happens in between |
| HandoffRuns.RecentMessagePreventsClosing | apps/backend/src/agents_factory/modules/handoffs/service.py:398-407 | So does a customer's message |
| HandoffRuns.ControlHistoryReplays | supabase/migrations/20260827132213_conversations.sql:139-246 | In a logged history changes are numbered from 2, legal, chained, and end at the control state |
| HandoffRuns.EveryControlHistoryIsLogged | apps/backend/src/agents_factory/modules/conversations/repository.py:246-288 | In every run the control history is such a history and the version counts it |
| HandoffRuns.HandoffNeedsCurrentConfiguration | apps/backend/src/agents_factory/modules/handoffs/service.py:163-195 | A handoff is only ever created from AI_ACTIVE under an enabled configuration that was verified and whose revision is still current |
| Compiler.CompilationIsCanonical | apps/backend/src/agents_factory/modules/agent_factory/compiler.py:77-126 | For a valid configuration, compiled forms are equal if and only if the configurations differ only in the order of their collections and of the operations inside bindings |
| Compiler.CompilingReorders | apps/backend/src/agents_factory/modules/agent_factory/compiler.py:77-109 | Compiling loses nothing but order |
| Compiler.CompilingTwice | apps/backend/src/agents_factory/modules/agent_factory/compiler.py:77-109 | Compiling a compiled configuration changes nothing |
| Compiler.CompiledIsValid | apps/backend/src/agents_factory/modules/agent_factory/models.py:82-88 | The compiled configuration, built without revalidation, still satisfies the uniqueness validators |
| Compiler.SpecsAreCanonical | apps/backend/src/agents_factory/modules/agent_factory/compiler.py:110-123 | Drafts with one identity compile to the same spec exactly when their configurations differ in order only |
| Compiler.DuplicateActionsAreNotCanonical | apps/backend/src/agents_factory/modules/agent_factory/models.py:152-171 | Without the validators it fails: two overrides of one action compile to different forms in different orders |
| Compiler.BindingsAreCanonical | apps/backend/src/agents_factory/modules/agent_factory/compiler.py:92-103 | Sorting bindings and their operations is canonical when binding keys identify them |
| Sorting.SortOrders | apps/backend/src/agents_factory/modules/agent_factory/compiler.py:80-88 | Sorting gives a permutation of its input in key order |
| Sorting.SortIsCanonical | apps/backend/src/agents_factory/modules/agent_factory/compiler.py:80-88 | Where keys identify items, two inputs sort alike exactly when they are permutations of each other |

## Left out

- Recovery of rows stuck in `processing`, the queue's own redelivery and job-id deduplication: nothing in the modelled files does it, so safety only, no liveness.
- SQL, Redis, mail, WhatsApp and provider calls themselves: tables are maps, the queue is the set of leases that handed a job over, providers and mailers are arbitrary answers or none.
- Row and advisory locks as such: a locked transaction is one event, or holds an explicit lock from its read to its save; deadlock and lock waiting are not modelled.
- Several tenants, conversations or actions at once: each machine follows one row group, because every statement is scoped to one tenant and one action, request, key or conversation. Cases are those of one customer under one deduplication key.
- The policy evaluator and the identity guard: the requirement and the authorisation are arbitrary inputs; only the level comparison is modelled.
- Canonical JSON and the exact hash input strings: symbolic digests.
- Floats: the approaching fraction is any rational between 0 and 1, which includes every float; the product is rounded as the program rounds it.
- Evidence checks before an intake, the case key's computation, and actor and reason checks before any transaction: they refuse without touching a row.
- The equivalence query a persisting-issue report makes only in its closing branch: the model lets every report look, which locks at most one more row.
- Audit records, message wording, support hours, customer notification after an action's result, and the notices' mail bodies.
- Creating the conversation row for the first message: the model starts from a conversation in AI_ACTIVE at version 1.
- Format checks (qualified names, digest syntax, lengths, bounds on configuration fields beyond those named in ValidPolicy).
- Python's `sorted` as an algorithm: any stable sort by the same key; the compiler's optional validator and the JSON rendering of the spec.
- Control-plane, routers, onboarding, media, knowledge, evaluation suites and dashboards: no deep invariant.
- ActionSafety.OutcomeIsTold: single-session execution is taken to run only on actions that need no approval, or on terminal rows, which it leaves alone, as every caller in the capability tools checks first; both conditions stay true of a row. What it would do otherwise is ActionSafety.StrayExecutionSettlesIff.
- QueueRuns.DeadLetterRecordIsExact: speaks of records no operator has closed yet, because a closed one is never reopened.
- CaseRuns.TimersExist: says the timer rows exist; that they are still to fire, or have done their work, needs one clock and is CaseTimers.CloseTimerIsStillToCome and CaseTimers.AlertsAreNotLost.
- Execution.Worker.Execute: one undisturbed run with the provider's answers given in advance; interleavings are in ActionRuns.
- ApprovalLinks.Desk.SendNotices: one undisturbed pass over a usable request; interleavings and closing in between are in ApprovalLinkRuns.
