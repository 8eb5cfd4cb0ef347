# A verified model of the agent platform

The platform stores agent sessions in a database.  Workers with expiring leases claim session events,
run a handler on them and commit its outcome; other workers submit the operations an outcome asked for to
gateways, fetch their results, cancel and withdraw them.  Any worker may stall, crash, act late or lose an
acknowledgement.  The Codex harness is the handler that turns user messages, model replies and command
results into further operations.  This project models the three layers and proves what they promise.

`dafny verify dfyconfig.toml` verifies the project.

**The store** (`StoreModel`, `StoreRuns`, `Store`).  Each transaction of the store is a function from the rows
of one session and one instant of the database clock to the rows it leaves and the value it returns.
`StoreObject.Store` holds the tables as fields and has a method for each transaction, proved to leave exactly
those rows and to restore everything on an error.  A run is any sequence of transactions by any clients with
any claims the store ever handed out.  On runs stand `Sequential` (the concurrent store computes what a
sequential machine computes), `CommitLaws` (the tables hold what was committed), `InboxLaws` (keyed input is stored
once), `LeaseLaws` (who may claim what, and from when), `Settlement` (exactly-once completions, wait races, what is final),
`RetryBudget` (the retry policy, whose count is read outside the recording transaction), `Scheduler` (the
commit loop and truthful attempt statuses) and `UpdateLog` (gap-free replay of updates).

**The dispatcher** (`Dispatch`, `DispatchSafety`, `DispatchLaws`, `LeaseAssumption`, `Dispatcher`, `ResultWorker`).  Workers read, decide,
call the gateway and write back in separate steps, with anybody else in between; the gateway is a map from idempotency key to job
that may accept, refuse, or leave a call unanswered.  Calls are remembered with the worker that made them, lease
or no lease.  `DispatcherObject.Dispatcher` has the dispatcher's own methods; each is one schedule of the steps.
`ResultWorker` has the worker that fetches results.

**The harness** (`ToolPlan`, `ReplyLaws`, `ToolScheduling`, `ToolLaws`, `ToolPlanState`, `Turn`, `TurnSafety`, `TurnProjection`,
`TurnTranscript`, `TurnState`, `Cancellation`, `CancellationSafety`, `CancellationLaws`, `CancellationState`).  Functions say what each handler does
to the saved state; classes do it in place, statement by statement, and are proved to agree; the theorems are
about all sequences of events in which each completion arrives once, for an operation that is out, with the
kind of result it was staged for, which `Settlement` proves of the store.

**Patches and text** (`PatchChunks`, `PatchPlan`, `OutputText`, `Retained`).  Loops proved against recursive
definitions, and bounds and round trips proved about those.

The modules whose names end in `Laws`, and `TurnTranscript`, say what the transactions, handlers and hunks mean in
terms of rows, calls, paths and messages, with definitions of their own; `PatchPlan`,
`OutputText` and `Retained` hold such laws beside their functions.

## What the proofs found

- Cancellation: when a target execution completes with an unknown outcome that reports nothing before its
  withdrawal was answered, `handle_original_completion` overwrites the withdrawal control
  (packages/basic-codex-harness/src/cancellation.rs:368-372), and the withdrawal's own completion is then
  refused as belonging to no target.  `OvertakenWithdrawalIsRefused` is the case,
  `WithdrawalRefusedIffTrackWasLost` says that a withdrawal is refused in this case only, and
  `RefusedExactlyWhenOvertaken` that nothing but such a withdrawal is.
- Patches: `seek` clamps its start so that the pattern fits
  (packages/basic-codex-harness/src/filesystem_tools.rs:756-761).  A chunk can so be found inside the range of
  an earlier one.  Then the splices, made from the last to the first, either run out of range, which panics
  (`OverlappingChunksPanic`), or the earlier range replaces what the later chunk wrote, which is lost without
  an error (`OverlappingChunkIsLost`).  `InOrderIffRoom` is the exact condition for the located ranges to follow
  one another, `FittingChunksRewrite` the meaning of the update under it, and `UpdatePanicsIff` the exact
  condition for the panic.
- Command output: when a character of several bytes does not fit at the end of the head it goes to the tail,
  and a shorter one after it may still go to the head
  (packages/basic-codex-harness/src/shell_tools.rs:648-654).  `LaterLetterComesFirst` is the case,
  `InOrderIffNeverOvertaking` the exact condition.
- Compaction: an empty text part costs nothing, so a truncated message can be kept with fewer than the four
  tokens it costs.  `EmptyTextOverruns` is the case, `RetainedTokens` the exact condition.

## Assumptions

- Ids, lease tokens and attempts are drawn from a counter; database time never goes back, and one transaction
  sees one instant of it.
- Fingerprints and digests are the fingerprinted values, hence free of collisions; distinct path strings name
  distinct files.
- The gateway creates at most one job for a key; a definite error means that the call created nothing; a lookup
  that finds a job tells the truth, one that finds none may be out of date.
- Workers of continuations and of cancellations start no call after losing their lease.  The code does not
  enforce this: it only asks them to stop.  Workers of fresh model calls and of executions are under no such
  assumption.  `CallsKeepThePromiseIff` shows what it is needed for, and `LateCallBreaksThePromise` is a run
  in which a call against it would break the promise.
- In a cancellation, a withdrawn target's own completion is handled before that of its withdrawal, and an
  outcome has the type of its operation.  `WithdrawalAnnouncesTargetFirst` proves the first of the store.

## Model

| member | source | states |
|---|---|---|
| `Sequential.EveryRunIsSequential` | packages/agent-store/src/store.rs:536-993 | In every run of claims, renewals, expiries, failures, abandonments, operator retries and commits, the k-th committed outcome belongs to the k-th event in sequence order and was computed from the state and the whole history that commits 0..k-1 left; handled events are a prefix of the inbox, sequences are contiguous, and history is the concatenation of the committed outcomes |
| `Sequential.EveryRunReplaysSequentially` | packages/agent-store/src/store.rs:763-993 | With a deterministic handler the state and history of any concurrent run equal those of a machine that handles the events one at a time without leases or retries |
| `Sequential.CommittedClaimIsStaleForever` | packages/agent-store/src/store.rs:2534-2560 | Once an outcome was committed, its claim can neither commit again (a repeated commit after a lost acknowledgement), nor fail, abandon or renew: each is answered `StaleClaim` and changes nothing |
| `Sequential.HolderIsNeverStale` | packages/agent-store/src/store.rs:763-993 | A commit is refused as stale if and only if its claim no longer holds the session lease; the version and attempt checks never refuse a holder |
| `Sequential.HolderOwnsTheHead` | packages/agent-store/src/store.rs:536-638 | Whoever holds the session lease holds the oldest unhandled event, with the current state, version and history boundary, and has the only running attempt |
| `Sequential.RunKeepsHandlerInv` | packages/agent-store/src/store.rs:536-993 | The inductive invariant of sessions, events, attempts, history and outstanding claims holds in every reachable state |
| `StoreRuns.ProducersExtendTheInbox` | packages/agent-store/src/store.rs:290-366 | External input, operation completions, withdrawals, wait replies and wait expiries only append pending events with the next sequences and fresh ids; they never touch state, history or attempts |
| `Settlement.ExactlyOneCompletion` | packages/agent-store/src/store.rs:1714-1816 | In every reachable state an operation has exactly one `operation_completed` event if it is terminal and none otherwise, the event tells its kind and status, and an operation that is not terminal still has its original request |
| `Settlement.SettledForever` | packages/agent-store/src/store.rs:1398-1435 | Whatever happens later, terminal statuses and results, gateway job ids once set, stored request identities and announced events never change, and an accepted operation never goes back to an earlier status |
| `Settlement.WaitRacesHaveOneWinner` | packages/agent-store/src/store.rs:1820-1962 | However replies, expiry sweeps and handler cancellations interleave, a wait leaves `pending` at most once, has one `wait_resumed` event whose reason is its final status, is resolved or cancelled only before its deadline and expires only at or after it |
| `Settlement.ResendingReturnsTheOriginal` | packages/agent-store/src/store.rs:1820-1905 | At any later time re-sending the accepted reply returns the original event and changes nothing; any other key or response is answered `IdempotencyConflict` |
| `Settlement.AcknowledgedEvent` | packages/agent-store/src/store.rs:1820-1905 | An accepted reply, first or repeated, leaves the wait resolved with that key and response and returns a resumption event that is in the inbox |
| `Settlement.WithdrawalAnnouncesTargetFirst` | packages/agent-store/src/store.rs:1599-1664 | A successful withdrawal appends exactly two events: the cancellation of its target, then its own success |
| `StoreObject.Store.constructor` | packages/agent-store/src/store.rs:163-190 | A new session starts idle and enabled with sequences at 1, and the object holds nothing else |
| `StoreObject.Store.EnqueueExternalEvent` | packages/agent-store/src/store.rs:290-366 | Inserts one event at the next sequence, or returns the event stored under the same input key if the body agrees and `IdempotencyConflict` if not; a body that is not external is refused; the whole new state is the specified one |
| `StoreObject.Store.RetryBlockedEvent` | packages/agent-store/src/store.rs:409-534 | Unblocks exactly the blocked head event at the expected revision, with a fresh failure baseline; a repeated key answers with the recorded retry |
| `StoreObject.Store.ClaimNextEvent` | packages/agent-store/src/store.rs:536-638 | Claims the oldest unhandled event of an enabled session whose lease is free, abandons what ran before and starts one attempt at the current version and history boundary; otherwise changes nothing |
| `StoreObject.Store.RenewEventClaim` | packages/agent-store/src/store.rs:640-653 | Moves the lease deadline for the holder and answers `StaleClaim` to anyone else |
| `StoreObject.Store.RecordHandlerFailure` | packages/agent-store/src/store.rs:655-714 | Ends the attempt in error, requeues or blocks the event and releases the session; blocking disables processing and raises the revision; a non-holder changes nothing |
| `StoreObject.Store.AbandonHandlerAttempt` | packages/agent-store/src/store.rs:716-751 | Ends the attempt without counting it, requeues the event and releases the session |
| `StoreObject.Store.AppendHistory` | packages/agent-store/src/store.rs:775-796 | The loop stores the messages under consecutive history sequences from the next one on and returns the sequence after the last |
| `StoreObject.Store.InsertOperations` | packages/agent-store/src/store.rs:798-836 | The loop inserts every new operation pending, in order, and fails as soon as one repeats an id or refers to an operation that does not exist |
| `StoreObject.Store.InsertNewWaits` | packages/agent-store/src/store.rs:838-860 | The loop inserts every new wait pending and fails on a repeated id or a deadline that does not fit the mode |
| `StoreObject.Store.CancelPendingWaits` | packages/agent-store/src/store.rs:862-916 | Each listed pending wait finishes as cancelled, or as expired if its deadline has passed, with one resumption event; finished ones are left alone; an unknown id fails |
| `StoreObject.Store.StageOutcome` | packages/agent-store/src/store.rs:775-938 | The rows an outcome asks for, or the first error that a later step of the same transaction would roll back |
| `StoreObject.Store.CommitHandlerOutcome` | packages/agent-store/src/store.rs:763-993 | State, status, version, history, operations, waits, event and attempt change together or, on any error, not at all |
| `StoreObject.Store.ClaimOperationFor` | packages/agent-store/src/store.rs:1236-1359 | Leases an eligible operation of the phase, turns pending into submitting, and tells the claimant whether an earlier attempt may have reached the gateway |
| `StoreObject.Store.DeferClaimed` | packages/agent-store/src/store.rs:1361-1396 | Gives a submitting operation back as pending |
| `StoreObject.Store.RecordOperationAccepted` | packages/agent-store/src/store.rs:1398-1435 | Records the job id of a submitting operation that has none |
| `StoreObject.Store.RenewOperationClaim` | packages/agent-store/src/store.rs:1437-1454 | Moves the operation lease deadline for its holder only |
| `StoreObject.Store.RecordOperationRetry` | packages/agent-store/src/store.rs:1456-1518 | An uncertain attempt stays submitting, a certain one goes back to pending, a result check stays accepted; other combinations are refused |
| `StoreObject.Store.RecordOperationPendingResult` | packages/agent-store/src/store.rs:1520-1556 | Schedules the next result check of an accepted operation |
| `StoreObject.Store.CompleteClaimed` | packages/agent-store/src/store.rs:1714-1816 | Settles an operation and announces it in one transaction, only from the statuses the phase allows |
| `StoreObject.Store.CompleteWithdrawalFor` | packages/agent-store/src/store.rs:1558-1693 | Cancels the target only while it is pending and unleased, settles the withdrawal and reports which it was |
| `StoreObject.Store.DeleteExpiredOperationRequest` | packages/agent-store/src/store.rs:2283-2334 | Drops a request only when its deadline passed and the operation is terminal |
| `StoreObject.Store.ResolveWaitFor` | packages/agent-store/src/store.rs:1820-1905 | Resolves a pending wait before its deadline, answers a repeated reply with the original event, and refuses anything else |
| `StoreObject.Store.ExpireWaitFor` | packages/agent-store/src/store.rs:1907-1962 | Expires a pending wait whose deadline was reached and does nothing otherwise |
| `DispatchSafety.UncertaintyIsNeverDowngraded` | packages/agent-runtime/src/dispatch.rs:398-775 | Once a call for an operation is in flight from any worker, live or with a lost lease, or was answered otherwise than by a definite refusal, or a job exists under its key, the operation is not pending and has not ended as unsubmitted |
| `DispatchSafety.WithdrawnNeverRuns` | packages/agent-store/src/store.rs:1558-1693 | After a withdrawal reported `withdrawn: true` the gateway holds no job for the target and no call for it is in flight, then or at any later step of the run |
| `DispatchSafety.ResubmissionsAreIdentical` | packages/agent-runtime/src/dispatch.rs:368-474 | All gateway calls for one operation, by any workers at any time, go to the same connection with the same key and body |
| `DispatchSafety.AcceptedJobsExist` | packages/agent-runtime/src/dispatch.rs:504-518 | A job id the store recorded is the one job the gateway made under the operation's key |
| `DispatchSafety.CallsKeepThePromiseIff` | packages/agent-runtime/src/dispatch.rs:398-428 | A call that goes out keeps the promise exactly under a condition visible before it: this shows where the lease of a continuation or cancellation worker matters |
| `DispatchSafety.DecisionDefers` | packages/agent-runtime/src/dispatch.rs:413-428 | A decision to defer is one for a continuation or a cancellation whose dependency does not allow a call; a decision to look up or call carries the one body of the operation |
| `DispatchSafety.DeferringWasNeverSent` | packages/agent-runtime/src/dispatch.rs:413-428 | When a worker decides to give its operation back, no call for it that was not refused was ever made, by anyone |
| `LeaseAssumption.LateCallBreaksThePromise` | packages/agent-runtime/src/dispatch.rs:404-440 | A reachable run in which the assumption on continuations matters: a worker stalls past its lease, another defers, the parent succeeds and the stalled worker reads on; its call would be in flight for a pending operation |
| `DispatchSafety.MoveKeepsSafe` | packages/agent-runtime/src/dispatch.rs:316-792 | Every move of a worker, the gateway or anybody else keeps the inductive invariant that links rows, workers, calls and jobs |
| `DispatcherObject.Dispatcher.WriteBack` | packages/agent-runtime/src/dispatch.rs:504-518 | The decided action is one store transaction; a refused one changes nothing |
| `DispatcherObject.Dispatcher.FailValueOf` | packages/agent-runtime/src/dispatch.rs:765-792 | A claim that may follow an earlier call is retried as uncertain; only another one fails its operation |
| `DispatcherObject.Dispatcher.GatewayFailed` | packages/agent-runtime/src/dispatch.rs:654-703 | What a gateway error leaves of a held row: pending again if a first call may be retried, failed with one announcement if it was rejected, uncertain in every other case |
| `DispatcherObject.Dispatcher.SubmissionBodyOf` | packages/agent-runtime/src/dispatch.rs:368-474 | Either the one body of the operation, or the claim given back because its parent is unfinished or unreadable, or a failure left to the caller |
| `DispatcherObject.Dispatcher.FinishSubmission` | packages/agent-runtime/src/dispatch.rs:476-502 | A recovering claim looks its key up before it calls again, and the answer decides what is written; a failed lookup or call leaves of a held row what `FailureLeaves` says |
| `DispatcherObject.Dispatcher.SubmitClaimed` | packages/agent-runtime/src/dispatch.rs:316-366 | One submission from the stored request to the recorded action |
| `DispatcherObject.Dispatcher.CancelTarget` | packages/agent-runtime/src/dispatch.rs:520-642 | One cancellation from the target row to the recorded action |
| `DispatcherObject.Dispatcher.WithdrawTarget` | packages/agent-runtime/src/dispatch.rs:644-652 | One withdrawal |
| `DispatcherObject.WritingBackIsAMove` | packages/agent-runtime/src/dispatch.rs:727-792 | What a worker writes is what the corresponding move of the concurrent system does to the store |
| `DispatcherObject.MethodsAreSchedules` | packages/agent-runtime/src/dispatch.rs:316-642 | What `SubmitClaimed` and `CancelTarget` leave in the store is what a schedule of moves leaves, so the guarantees for all runs hold for the methods |
| `ResultRetrievalObject.ResultsAreFaithful` | packages/agent-runtime/src/completion.rs:343-604 | In every run the worker that holds an accepted operation settles it exactly if the gateway's answer is final, readable and of the machine asked for, with the job's own status and response and one announcement; otherwise the operation stays accepted and is only rescheduled; without the lease nothing changes |
| `ResultRetrievalObject.ResultClaimsAreComplete` | packages/agent-runtime/src/completion.rs:343-504 | In every run a result claim names its job and connection, and while its lease holds the operation is accepted and its request stored, so the retries for missing data are never taken by a holder |
| `ResultRetrievalObject.AskedJobIsTheOperationsOwn` | packages/agent-runtime/src/completion.rs:355-401 | The job a result worker asks for is the one the gateway made under the operation's key |
| `ResultRetrievalObject.ResultWorker.ProcessResultClaim` | packages/agent-runtime/src/completion.rs:343-454 | Each answer of the gateway is recorded as a retry, a pending result or a completion, after the identity checks |
| `ResultRetrievalObject.ResultWorker.CompleteSuccess` | packages/agent-runtime/src/completion.rs:506-532 | A response that does not decode is retried, not recorded |
| `ResultRetrievalObject.ResultWorker.CompleteFailure` | packages/agent-runtime/src/completion.rs:534-581 | A failed execution keeps its response, and is retried if that does not decode |
| `ResultRetrievalObject.ResultWorker.RetryResult` | packages/agent-runtime/src/completion.rs:606-626 | A retry leaves the operation accepted and releases it |
| `RetryBudget.BudgetIsNeverExceeded` | packages/agent-runtime/src/scheduler.rs:605-623 | An unblocked event has at most as many errored attempts since its baseline as there are retry delays, a blocked one at most one more |
| `RetryBudget.RetriesAreAllGranted` | packages/agent-runtime/src/scheduler.rs:605-623 | Although the count is read outside the recording transaction, a failure that is recorded blocks its event exactly when the budget is used up at that moment |
| `RetryBudget.DisabledExactlyWhenHeadBlocked` | packages/agent-store/src/store.rs:655-714 | Processing is disabled exactly while the oldest unhandled event is blocked |
| `RetryBudget.OperatorRetryRestoresBudget` | packages/agent-store/src/store.rs:409-534 | A new operator retry succeeds exactly on the blocked head at the exact revision, and gives it back the whole budget |
| `RetryBudget.FailureCountsOnce` | packages/agent-store/src/store.rs:655-714 | A recorded failure adds one to the failure count of its event and changes no other event's count or status |
| `RetryBudget.AbandoningCountsNothing` | packages/agent-store/src/store.rs:716-751 | Abandoned attempts never count as failures |
| `Scheduler.AttemptStatusIsTruthful` | packages/agent-store/src/store.rs:379-397 | In every run the recorded status of an attempt is `committed` exactly if its outcome was applied, so it settles a lost acknowledgement |
| `Scheduler.CommitPrepared` | packages/agent-runtime/src/scheduler.rs:485-576 | The retry loop takes at most one turn more than it has delays and reports truthfully: applied, stale without effect, rejected and blocked, given up and abandoned; when an acknowledgement is lost or the lease keeper stops the loop with a call under way, the outcome is either applied as a whole or not at all |
| `Scheduler.OneOutcomePerClaim` | packages/agent-runtime/src/scheduler.rs:485-576 | However the calls of the loop interleave with all other transactions, no claim has two outcomes applied or one outcome twice |
| `Scheduler.AppliedOutcomesEndTheClaim` | packages/agent-runtime/src/scheduler.rs:485-576 | After an applied outcome no further commit, failure report or abandonment of the same claim has any effect |
| `UpdateLog.LogIsGapFree` | packages/agent-store/src/inspection.rs:22-250 | In every interleaving of emits and sweeps the stored updates are exactly those emitted from `retained_update_sequence` to `next_update_sequence - 1` |
| `UpdateLog.ReplayIsGapFree` | packages/agent-store/src/inspection.rs:126-200 | A reader that pages from a cursor among emits and sweeps has received every update after its start up to its cursor exactly once and in order, and a finished one every update up to `through` |
| `UpdateLog.PagesExpireOrAdvance` | packages/agent-store/src/inspection.rs:126-200 | A valid page request answers `UpdateCursorExpired` exactly if the next update it needs was pruned, and otherwise advances as far as its limit allows |
| `UpdateLog.PruneDropsAPrefix` | packages/agent-store/src/inspection.rs:202-250 | A sweep removes a prefix of the log and raises the retained sequence to match |
| `UpdateLog.OldestExpiredRowsGo` | packages/agent-store/src/inspection.rs:202-250 | If fewer than a thousand rows are expired, no expired row survives the sweep |
| `UpdateLog.PagesHold` | packages/agent-store/src/inspection.rs:126-200 | A page holds the consecutive updates after the cursor, as many as the limit allows, and says whether any are left |
| `UpdateLog.UpdateStore.EmitUpdate` | packages/agent-store/src/inspection.rs:22-48 | The new row gets the next sequence of its session; other sessions keep their logs |
| `UpdateLog.UpdateStore.Updates` | packages/agent-store/src/inspection.rs:126-200 | Argument errors, unknown session, expired cursor and pages in the order the source checks them |
| `UpdateLog.UpdateStore.PruneUpdates` | packages/agent-store/src/inspection.rs:202-250 | Each listed session that is not locked is pruned once, all others keep their logs, and the number of removed rows is returned |
| `UpdateLog.UpdateStore.PruneOne` | packages/agent-store/src/inspection.rs:218-246 | One session loses the prefix up to the last of its oldest thousand expired rows, and the rows removed are counted |
| `ToolPlan.ParsedCallsAreFresh` | packages/basic-codex-harness/src/tool_plan.rs:23-93 | Parsed calls have distinct ids and are pending or already completed with an argument error |
| `ToolScheduling.SegmentsKeepTheOrder` | packages/basic-codex-harness/src/tool_plan.rs:182-208 | The segments, read in order, are the pending calls in order, and two parallel segments are never neighbours |
| `ToolScheduling.SegmentsAreCut` | packages/basic-codex-harness/src/tool_plan.rs:182-208 | Every segment is not empty, in order, disjoint from the others, parallel throughout or a single exclusive call |
| `ToolScheduling.SchedulingIsSafe` | packages/basic-codex-harness/src/tool_execution.rs:22-171 | In every state of every plan unfinished calls lie at or after the active segment, only it has submitted calls, an exclusive call is never beside another, no two submitted calls share a shell session, and the plan is complete or some call is submitted |
| `ToolScheduling.ScheduleNeverSticks` | packages/basic-codex-harness/src/tool_execution.rs:22-171 | After `schedule_ready` the plan is complete or some call is submitted |
| `ToolScheduling.SchedulingAddsNoWork` | packages/basic-codex-harness/src/tool_execution.rs:22-171 | Scheduling keeps the calls in place and never raises the termination measure |
| `ToolScheduling.CompletionsMakeProgress` | packages/basic-codex-harness/src/tool_execution.rs:173-288 | Every execution completion that is handled strictly decreases the termination measure |
| `ToolScheduling.CompletionAccepted` | packages/basic-codex-harness/src/tool_execution.rs:180-204 | A completion is refused exactly if no submitted call awaits it or it is no execution result |
| `ToolScheduling.PlansTerminate` | packages/basic-codex-harness/src/tool_plan.rs:229-265 | A plan takes at most 16 completions for each shell call, three for each patch and one for each image; when complete it has exactly one result for each call, in call order |
| `ToolPlanObject.BuildSegments` | packages/basic-codex-harness/src/tool_plan.rs:182-208 | The loop computes segments that hold the pending calls in order with no two parallel neighbours |
| `ToolPlanObject.ToolPlanState.AdvanceCompletedSegments` | packages/basic-codex-harness/src/tool_plan.rs:215-227 | The loop skips exactly the completed segments at the front |
| `ToolPlanObject.ToolPlanState.Consider` | packages/basic-codex-harness/src/tool_execution.rs:49-135 | One call is skipped, completed at once, or prepared and its shell session reserved |
| `ToolPlanObject.ToolPlanState.StagePrepared` | packages/basic-codex-harness/src/tool_execution.rs:145-168 | The prepared calls become submitted under consecutive operation ids |
| `ToolPlanObject.ToolPlanState.RunOnePass` | packages/basic-codex-harness/src/tool_execution.rs:45-135 | One pass over the active segment |
| `ToolPlanObject.ToolPlanState.Schedule` | packages/basic-codex-harness/src/tool_execution.rs:22-171 | The loop ends, and leaves the plan `ScheduleNeverSticks` speaks about |
| `ToolPlanObject.ToolPlanState.Apply` | packages/basic-codex-harness/src/tool_execution.rs:173-288 | A refused completion changes nothing; an accepted one updates its call, the shell sessions and the active segment |
| `TurnSafety.OutstandingIsWhatThePhaseAwaits` | packages/basic-codex-harness/src/handler.rs:109-165 | Before failure and cancellation the operations staged and not yet reported completed are exactly the awaited model or compaction operation, or exactly the submitted tool calls, or none when idle; after failure none |
| `TurnSafety.CompletionsAreExpected` | packages/basic-codex-harness/src/handler.rs:109-165 | With the store's exactly-once events the mismatch errors, the missing turn, the invalid plan and the changed compaction projection cannot occur; only a result of the wrong kind, the generation limit and a wait event are left |
| `TurnSafety.SteeringIsConserved` | packages/basic-codex-harness/src/handler.rs:227-305 | The inputs in arrival order equal those given to the model, then the held pre-turn input, then the pending steering, across tool turns, retries and compactions |
| `TurnProjection.GivenInputsAreProjected` | packages/basic-codex-harness/src/handler.rs:643-665 | In every session the inputs that stand in the projection after its last compaction item are exactly those given since that compaction, in order, and before the first compaction all that were ever given |
| `TurnProjection.CompactionGivesWhatWasHeld` | packages/basic-codex-harness/src/handler.rs:643-665 | A compaction that succeeds gives exactly the held pre-turn input and then the pending steering, and these are the inputs after its item |
| `TurnProjection.ArrivedInputsAreAccountedFor` | packages/basic-codex-harness/src/handler.rs:227-305 | The inputs in arrival order are those given before the last compaction, then those in the projection after it, then the held input, then the pending steering |
| `TurnSafety.RetriesAreBounded` | packages/basic-codex-harness/src/handler.rs:308-552 | A turn retries an uncertain model call at most once and an uncertain compaction at most once, and a compaction keeps the digest of the current projection |
| `TurnSafety.SchedulingSubmits` | packages/basic-codex-harness/src/tool_execution.rs:145-171 | Scheduling adds to the submitted operations exactly those it staged |
| `TurnSafety.CompletionSubmits` | packages/basic-codex-harness/src/tool_execution.rs:173-288 | A completion removes exactly its own operation from the submitted ones |
| `TurnObject.HarnessState.Handle` | packages/basic-codex-harness/src/handler.rs:16-199 | Every event leads to the state and staged operations that the session theorems speak about, and a failing one changes nothing |
| `TurnObject.HarnessState.UserMessage` | packages/basic-codex-harness/src/handler.rs:209-306 | Input during a turn is held as steering; otherwise it starts a turn or is held while the projection is compacted |
| `TurnObject.HarnessState.ExtendProjection` | packages/basic-codex-harness/src/handler.rs:960-971 | Messages are appended and the token estimate, if any, grows by theirs |
| `TurnObject.HarnessState.StageCompactionFor` | packages/basic-codex-harness/src/handler.rs:903-944 | One compaction operation is staged with the digest of the projection |
| `TurnObject.HarnessState.StageAfterBoundaryOf` | packages/basic-codex-harness/src/handler.rs:851-901 | At a turn boundary either a compaction is staged with steering held back, or steering is given and the model is asked |
| `TurnObject.HarnessState.FinishCompletedToolPlan` | packages/basic-codex-harness/src/handler.rs:814-849 | Only a complete plan gives its results to the projection |
| `TurnObject.HarnessState.ScheduleTools` | packages/basic-codex-harness/src/handler.rs:754-812 | Ready calls are staged and a plan that is complete leads on to the boundary |
| `TurnObject.HarnessState.LlmReply` | packages/basic-codex-harness/src/handler.rs:308-552 | A reply leads to its tool plan, to the next request, to the end of the turn or to failure, by its calls, stop reason and pending steering |
| `TurnObject.HarnessState.LlmOutcomeFor` | packages/basic-codex-harness/src/handler.rs:308-552 | An unknown outcome is retried once, other failures are terminal |
| `TurnObject.HarnessState.CompactionReply` | packages/basic-codex-harness/src/handler.rs:554-752 | A compaction replaces the projection, then gives the held input and the steering |
| `TurnObject.HarnessState.CompactionOutcomeFor` | packages/basic-codex-harness/src/handler.rs:554-752 | An unknown compaction is retried under the same digest until its second attempt |
| `TurnObject.HarnessState.LlmCompletion` | packages/basic-codex-harness/src/handler.rs:109-165 | A completion is matched with the operation its phase awaits |
| `TurnObject.HarnessState.ExecutionCompletion` | packages/basic-codex-harness/src/handler.rs:754-812 | A tool completion is applied to its plan, and what became ready is scheduled |
| `TurnObject.HarnessState.BeginCancellation` | packages/basic-codex-harness/src/cancellation.rs:19-124 | Cancellation takes over exactly the outstanding operations and drops steering |
| `TurnObject.HarnessState.ApplyTerminal` | packages/basic-codex-harness/src/failure.rs:83-106 | Failure ends the turn |
| `CancellationSafety.BeginIsOk` | packages/basic-codex-harness/src/cancellation.rs:19-124 | Beginning with exactly the outstanding operations as targets establishes the invariant of the cancellation |
| `CancellationSafety.CompletionsAreHandled` | packages/basic-codex-harness/src/cancellation.rs:127-211 | Every awaited completion is handled, keeps the invariant and strictly decreases the lexicographic measure of target controls, discovery attempts and process controls |
| `CancellationSafety.CancellationTerminates` | packages/basic-codex-harness/src/cancellation.rs:213-516 | Whichever completions arrive in whichever order, only finitely many are handled and only finitely many cleanup operations are staged |
| `CancellationSafety.CompleteForEver` | packages/basic-codex-harness/src/cancellation.rs:748-761 | Once `cancellation_complete` holds it holds for ever and nothing more is staged |
| `CancellationSafety.QuietMeansComplete` | packages/basic-codex-harness/src/cancellation.rs:734-761 | When every staged operation has completed, the cancellation is complete |
| `CancellationSafety.WithdrawalRefusedIffTrackWasLost` | packages/basic-codex-harness/src/cancellation.rs:213-382 | Whatever a cancellation has seen since it began, the completion of a withdrawal is refused if and only if the execution that is its target completed earlier with an unknown outcome that reported nothing |
| `CancellationSafety.RefusedExactlyWhenOvertaken` | packages/basic-codex-harness/src/cancellation.rs:213-265 | A completion is refused if and only if it is that of a withdrawal whose target was meanwhile set to await discovery |
| `CancellationSafety.OvertakenByUncertaintyOnly` | packages/basic-codex-harness/src/cancellation.rs:324-382 | A withdrawal is overtaken if and only if the completion handled is an execution of its target with an unknown outcome that reports nothing |
| `CancellationSafety.OvertakenWithdrawalIsRefused` | packages/basic-codex-harness/src/cancellation.rs:366-372 | The concrete case: an unknown execution outcome, then the ordinary answer to its withdrawal, which is refused |
| `CancellationObject.CancellationState.constructor` | packages/basic-codex-harness/src/cancellation.rs:19-124 | One withdrawal for each target and one interrupt for each tracked process, in order |
| `CancellationObject.CancellationState.Interrupt` | packages/basic-codex-harness/src/cancellation.rs:518-552 | A process is interrupted once, whoever reports it |
| `CancellationObject.CancellationState.InterruptActive` | packages/basic-codex-harness/src/cancellation.rs:518-552 | Every reported execution that has not finished is interrupted |
| `CancellationObject.CancellationState.Terminate` | packages/basic-codex-harness/src/cancellation.rs:554-579 | The process awaits a terminate operation of the given attempt |
| `CancellationObject.CancellationState.Discover` | packages/basic-codex-harness/src/cancellation.rs:581-611 | A discovery operation of the given attempt is staged |
| `CancellationObject.CancellationState.SetLifecycleStatus` | packages/basic-codex-harness/src/cancellation.rs:734-746 | Exactly a complete cancellation ends the turn and forgets the tracked processes |
| `CancellationObject.CancellationState.Withdrawn` | packages/basic-codex-harness/src/cancellation.rs:213-265 | A withdrawn target is settled; a model call that was not is cancelled at the gateway; an execution that was not is awaited or already done |
| `CancellationObject.CancellationState.LlmCancelled` | packages/basic-codex-harness/src/cancellation.rs:267-321 | A failed model cancellation is tried again once, then given up |
| `CancellationObject.CancellationState.OriginalCompleted` | packages/basic-codex-harness/src/cancellation.rs:324-382 | The target's own completion settles an awaited target, interrupts what it reports and starts discovery if its outcome is unknown |
| `CancellationObject.CancellationState.ProcessControlled` | packages/basic-codex-harness/src/cancellation.rs:384-458 | An interrupted process is settled if it finished and terminated otherwise, in at most two attempts |
| `CancellationObject.CancellationState.Settle` | packages/basic-codex-harness/src/cancellation.rs:708-717 | A settled process is tracked no longer |
| `CancellationObject.CancellationState.Discovered` | packages/basic-codex-harness/src/cancellation.rs:460-516 | Discovery settles the targets that await it and interrupts what it found, or is tried again once |
| `CancellationObject.CancellationState.Complete` | packages/basic-codex-harness/src/cancellation.rs:127-211 | A refused completion changes nothing; a handled one leaves the state the theorems speak about |
| `PatchPlan.PlanMutations` | packages/basic-codex-harness/src/filesystem_tools.rs:571-662 | Run in order on the files read, the planned mutations give exactly the files that the hunks give one after another, each hunk adding, removing, updating or moving the paths it names and no other; every precondition holds when its mutation runs, each path is mutated at most once, and exactly the paths that change are; errors are those of the first failing hunk, where a splice that panics in the source is one more error |
| `PatchPlan.RunHunks` | packages/basic-codex-harness/src/filesystem_tools.rs:577-634 | The virtual files follow the hunks, and the touched paths cover every change |
| `PatchPlan.MutationsOf` | packages/basic-codex-harness/src/filesystem_tools.rs:636-662 | One guarded mutation for each touched path that differs from its initial content |
| `PatchPlan.PatchPaths` | packages/basic-codex-harness/src/filesystem_tools.rs:546-569 | The paths in order of first mention; fails exactly on an invalid path or more than 32 of them |
| `PatchPlan.PathsAreMentioned` | packages/basic-codex-harness/src/filesystem_tools.rs:676-680 | The paths are exactly those the hunks mention, each once |
| `PatchPlan.ReconciledIffApplied` | packages/basic-codex-harness/src/filesystem_tools.rs:356-381 | Reading back after an unknown outcome confirms the patch if and only if every mutated path has the content the whole batch leaves |
| `PatchChunks.ApplyChunksTo` | packages/basic-codex-harness/src/filesystem_tools.rs:693-747 | The loops locate the chunks in order and splice from the last to the first |
| `PatchChunks.LocateChunk` | packages/basic-codex-harness/src/filesystem_tools.rs:704-740 | One chunk: context moves the cursor, a pure insertion goes to the end, old lines are sought with and without their empty last line |
| `PatchChunks.SpliceReverse` | packages/basic-codex-harness/src/filesystem_tools.rs:741-746 | Splicing from the last range to the first, with an out-of-range splice as an error |
| `PatchChunks.SeekLines` | packages/basic-codex-harness/src/filesystem_tools.rs:749-778 | The nested loops over comparison levels and positions compute `Seek` |
| `PatchChunks.SeekIsStrictest` | packages/basic-codex-harness/src/filesystem_tools.rs:749-778 | The result is the first match at the strictest comparison level that has any, and there is none only if no level has one |
| `PatchChunks.SplicingIsRewriting` | packages/basic-codex-harness/src/filesystem_tools.rs:741-746 | Splicing disjoint ranges in reverse equals rewriting the lines from left to right |
| `PatchChunks.OrderedChunksRewrite` | packages/basic-codex-harness/src/filesystem_tools.rs:693-747 | If each located range starts at or after the end of the previous one, the update keeps the untouched lines in order with each range replaced and appends pure insertions in chunk order |
| `PatchChunks.LocatedAfterCursorIffFits` | packages/basic-codex-harness/src/filesystem_tools.rs:749-761 | A chunk is located at or after the cursor its context left if and only if its old lines fit between there and the end of the file |
| `PatchChunks.InOrderIffRoom` | packages/basic-codex-harness/src/filesystem_tools.rs:702-740 | Every located range starts at or after the end of the previous one if and only if each chunk has room: the old lines found for it fit between the end of the last range and the end of the file |
| `PatchChunks.FittingChunksRewrite` | packages/basic-codex-harness/src/filesystem_tools.rs:693-747 | If every chunk has room, the updated text is that of the left-to-right rewrite |
| `PatchChunks.SplicesIffInRange` | packages/basic-codex-harness/src/filesystem_tools.rs:741-744 | Splicing in reverse succeeds if and only if each range ends within the lines left by the later ranges |
| `PatchChunks.UpdatePanicsIff` | packages/basic-codex-harness/src/filesystem_tools.rs:693-747 | An update panics if and only if its chunks are found and some range ends beyond the lines left by the later ones |
| `PatchChunks.RoomNeverPanics` | packages/basic-codex-harness/src/filesystem_tools.rs:693-747 | With room for every chunk an update never panics |
| `PatchChunks.OverlappingChunksPanic` | packages/basic-codex-harness/src/filesystem_tools.rs:756-761 | The concrete case where the clamped search start finds a chunk inside the previous range and the splice is out of range |
| `PatchChunks.OverlappingChunkIsLost` | packages/basic-codex-harness/src/filesystem_tools.rs:741-744 | The concrete case where such a chunk is lost without a panic: the earlier chunk overwrites it |
| `PatchChunks.JoinSplit` | packages/basic-codex-harness/src/filesystem_tools.rs:693-699 | Joining the split lines gives the text back |
| `PatchChunks.NoChunksKeepTheText` | packages/basic-codex-harness/src/filesystem_tools.rs:693-747 | Without chunks an update only adds the missing final newline of a file that is not empty |
| `OutputText.OutputIsBounded` | packages/basic-codex-harness/src/shell_tools.rs:644-664 | After any appends head and tail are each at most 24 KiB and head, tail and omitted bytes add up to the decoded bytes appended |
| `OutputText.SingleByteOutput` | packages/basic-codex-harness/src/shell_tools.rs:644-664 | For single-byte text head and tail are the true prefix and suffix, and the head is full before anything is dropped |
| `OutputText.InOrderIffNeverOvertaking` | packages/basic-codex-harness/src/shell_tools.rs:644-664 | Head, omission and tail are the text in order at every moment if and only if no append finds room in the head after text has gone to the tail |
| `OutputText.LaterLetterComesFirst` | packages/basic-codex-harness/src/shell_tools.rs:648-654 | The concrete case, three appends from an empty accumulator: a two-byte character at the edge of the head goes to the tail, and the letter after it is kept before it |
| `OutputText.ModelTextIsBounded` | packages/basic-codex-harness/src/shell_tools.rs:666-694 | The model sees at most 4 x max_tokens bytes: the whole text if it fits, otherwise a prefix and a suffix around the marker, or a prefix |
| `OutputText.OutputAccumulator.AppendText` | packages/basic-codex-harness/src/shell_tools.rs:644-664 | The fields after an append are those the bounds speak about |
| `OutputText.FloorCharBoundary` | packages/basic-codex-harness/src/shell_tools.rs:697-703 | The longest prefix of whole characters within the limit |
| `OutputText.CeilCharBoundary` | packages/basic-codex-harness/src/shell_tools.rs:705-711 | The shortest prefix of whole characters that covers the limit, or the whole text if the limit is beyond it |
| `Retained.RetainedTokens` | packages/basic-codex-harness/src/compaction.rs:126-148 | The retained messages hold at most 64,000 estimated tokens if and only if the budget does not run out with one to three tokens left on a message that ends with an empty text |
| `Retained.RetainedAreRecent` | packages/basic-codex-harness/src/compaction.rs:126-148 | The retained messages are the most recent user messages in their order, the oldest possibly cut down to its end |
| `Retained.EmptyTextOverruns` | packages/basic-codex-harness/src/compaction.rs:198-231 | The concrete case: a recent message leaves one token of the 64,000, an older one ends with an empty text, and 64,003 are retained |
| `Retained.RetainedUserMessages` | packages/basic-codex-harness/src/compaction.rs:126-148 | The backward loop, with its early exit, computes the retained messages |
| `Retained.TruncateUserMessage` | packages/basic-codex-harness/src/compaction.rs:198-231 | The backward loop over the parts keeps the end of a message within its budget |
| `CommitLaws.CommitStoresTheOutcome` | packages/agent-store/src/store.rs:763-993 | A commit that succeeds leaves exactly the old operations and waits plus those its outcome stages, finishes exactly the listed waits that were pending, and leaves the status asked for |
| `CommitLaws.HolderCommitsIffAcceptable` | packages/agent-store/src/store.rs:763-993 | In every run the holder's commit succeeds if and only if no id repeats, every reference and cancelled wait exists, deadlines fit and progress is small enough |
| `CommitLaws.TablesHoldWhatWasCommitted` | packages/agent-store/src/store.rs:798-860 | In every run an operation or wait is stored, with its request and for its event, if and only if a committed outcome staged it, and the session has the status the last commit that asked for one asked for |
| `InboxLaws.KeyedInputIsStoredOnce` | packages/agent-store/src/store.rs:312-333 | In every run no two external events share type and input key |
| `InboxLaws.AcceptedInputIsStored` | packages/agent-store/src/store.rs:290-366 | An accepted input is in the inbox with the body and key sent, at the end if it is new |
| `InboxLaws.ResentInputFindsTheFirst` | packages/agent-store/src/store.rs:312-333 | At any later time re-sending a keyed input returns the event stored first and changes nothing if the body is the same, and conflicts if not |
| `LeaseLaws.ClaimsAreExclusive` | packages/agent-store/src/store.rs:1236-1359 | A claimed operation can be claimed again if and only if the lease has run out, and the next claimant knows of the earlier attempt |
| `LeaseLaws.RenewedClaimsHoldOn` | packages/agent-store/src/store.rs:1437-1454 | A renewed lease keeps others out until its new deadline and not longer |
| `LeaseLaws.NewOperationsAreDue` | packages/agent-store/src/store.rs:798-836 | An operation a commit stored can be claimed at once, in the phase of its kind and no other, as never attempted |
| `LeaseLaws.DeferredOperationsComeBack` | packages/agent-store/src/store.rs:1361-1396 | A deferred operation is due from the time given on, as never attempted |
| `LeaseLaws.RetriedOperationsComeBack` | packages/agent-store/src/store.rs:1456-1518 | A retried operation is due from the time given on, and its next claimant is told of a possible submission if and only if the retry was uncertain |
| `LeaseLaws.AcceptedOperationsAwaitResults` | packages/agent-store/src/store.rs:1398-1435 | An accepted operation is due for its result only, under the job recorded |
| `LeaseLaws.PendingResultsComeBack` | packages/agent-store/src/store.rs:1520-1556 | A pending result is asked for again from the time given on |
| `LeaseLaws.CompletedOperationsAreOver` | packages/agent-store/src/store.rs:1714-1816 | A completed operation is never due again; its status, result and request deadline are those given, and it is announced once |
| `LeaseLaws.WithdrawalsTellTheTruth` | packages/agent-store/src/store.rs:1558-1693 | A withdrawal reports success if and only if its target was pending and unleased, and then the target is cancelled and never due again |
| `LeaseLaws.RequestsAreKeptUntilExpiry` | packages/agent-store/src/store.rs:2283-2334 | A request is dropped if and only if its operation is settled and its deadline has come |
| `LeaseLaws.EventClaimsAreExclusive` | packages/agent-store/src/store.rs:536-638 | A claimed event can be claimed again if and only if the session lease has run out |
| `LeaseLaws.FailedEventsComeBack` | packages/agent-store/src/store.rs:655-714 | A failed event is due again at the time given, and a blocked one not before an operator retries it |
| `LeaseLaws.AbandonedEventsComeBack` | packages/agent-store/src/store.rs:716-751 | An abandoned event is due again at the time given |
| `LeaseLaws.RetriedEventsComeBack` | packages/agent-store/src/store.rs:409-534 | An operator retry makes the blocked event due at once |
| `LeaseLaws.NextEventIsDue` | packages/agent-store/src/store.rs:940-993 | After a commit the next event of the inbox is due, if there is one |
| `LeaseLaws.RepliesAreTakenInTime` | packages/agent-store/src/store.rs:1820-1905 | A reply is taken if and only if the wait is pending, takes replies and has time left; its content is stored and its resumption announced |
| `LeaseLaws.DeadlinesFinishWaits` | packages/agent-store/src/store.rs:1907-1962 | A sweep expires a wait if and only if it is pending and its deadline has come |
| `DispatchLaws.FailedCallsLeave` | packages/agent-runtime/src/dispatch.rs:654-703 | Written back by a holder, a first call that was refused leaves its row pending at the time given if it may be retried and failed with one announcement if not; an unanswered call, and every failure of a recovering one, leaves it uncertain |
| `DispatchLaws.AcknowledgedCallsLeave` | packages/agent-runtime/src/dispatch.rs:504-518 | Written back by a holder, an acknowledged submission leaves its row accepted with the gateway's job, and an acknowledged cancellation succeeds and is announced |
| `DispatchLaws.DecisionCallsIff` | packages/agent-runtime/src/dispatch.rs:368-474 | A worker calls, or looks its key up first, if and only if its gateway is configured, its dependency was read, fits and allows the call, and something is left to do |
| `DispatchLaws.DecisionOtherwise` | packages/agent-runtime/src/dispatch.rs:398-474 | What it writes otherwise: given back, retried, failed or already done, by the state of its dependency |
| `DispatchLaws.OperationsFailForAReason` | packages/agent-runtime/src/dispatch.rs:654-792 | In every run an operation that failed without a job was doomed by a definite refusal of a first call or by a request the platform can never make |
| `DispatchLaws.RecoveriesLookFirst` | packages/agent-runtime/src/dispatch.rs:476-502 | In every run a worker that calls after an uncertain attempt has looked its key up before and found nothing |
| `DispatchLaws.CallsSayWhatWasAsked` | packages/agent-runtime/src/dispatch.rs:368-474 | In every run every call carries what the stored request asks for |
| `ReplyLaws.CallsAreParsed` | packages/basic-codex-harness/src/tool_plan.rs:31-71 | Every item that is a call becomes one call, in order, pending or already answered with what is wrong with its arguments; an error is that of the first item with a fault |
| `ReplyLaws.PlansHoldWhatWasCalled` | packages/basic-codex-harness/src/tool_plan.rs:73-93 | A reply has a plan if and only if it stopped for tools, calls some and no call has a fault; without calls it has none, and both other combinations of calls and stop reason are refused |
| `ToolLaws.CompletionsLead` | packages/basic-codex-harness/src/tool_execution.rs:173-288 | A completion changes only the call that awaits it, and for each tool and outcome the result is stated: mutating after a planned reading, reconciling after an unknown mutation, draining while pages are left and fewer than 16 were read, otherwise completed with a stated text; running processes are tracked under the handle observed and drained ones are not |
| `ToolLaws.SchedulingStartsCalls` | packages/basic-codex-harness/src/tool_execution.rs:22-171 | Scheduling leaves a call alone, starts a pending one as its tool asks or completes it with the reason why it cannot, or submits a ready one for the operation it is ready for; nothing else |
| `ToolLaws.PlannedPatchesAreCarriedOut` | packages/basic-codex-harness/src/filesystem_tools.rs:318-331 | In every plan a patch that was planned completes only after its mutations were submitted, in the generation its files were read in |
| `TurnTranscript.FinishedPlansSay` | packages/basic-codex-harness/src/handler.rs:814-849 | A finished plan adds one result for each call, in call order, then the steering unless the projection must be compacted first |
| `TurnTranscript.EventsExtendTheTranscript` | packages/basic-codex-harness/src/handler.rs:308-901 | Every event handled in a live session appends the reply, the results of a finished plan and the inputs given, in this order, or is the compaction that replaces the projection |
| `TurnTranscript.ProjectionIsTheTranscript` | packages/basic-codex-harness/src/handler.rs:960-971 | In every session what stands after the last compaction item is exactly the replies handled, the results of plans finished and the inputs given since, in the order of the events |
| `TurnTranscript.TurnsEndForAReason` | packages/basic-codex-harness/src/handler.rs:308-552 | A turn ends or fails exactly for the stated reasons and goes on in every other case |
| `TurnTranscript.UnknownOutcomesAreRetried` | packages/basic-codex-harness/src/handler.rs:308-752 | A first unknown outcome leaves the turn waiting for the second attempt of the same request or compaction |
| `TurnTranscript.InputIsHeldOrAsked` | packages/basic-codex-harness/src/handler.rs:209-306 | Input during a turn waits for its boundary; otherwise it starts a turn that asks the model, or compacts first and holds the input if the projection is at its limit |
| `CancellationLaws.BeginningSays` | packages/basic-codex-harness/src/cancellation.rs:19-124 | A cancellation begins with one withdrawal for each operation that is out, in order, and one interrupt for each tracked handle; with neither the turn is over at once |
| `CancellationLaws.CompletionsMoveOn` | packages/basic-codex-harness/src/cancellation.rs:213-516 | For every completion it awaits: what becomes of each target, each process, the search for processes, the recorded failures, the tracked sessions and the turn; every unfinished execution reported is interrupted under its own handle |
| `CancellationLaws.ProcessesSettleForAReason` | packages/basic-codex-harness/src/cancellation.rs:384-458 | After any completions a process is settled if and only if its interrupt reported it finished, a terminate of it succeeded or was cancelled, or two terminates of it failed |
| `CancellationLaws.ModelCallsSettleForAReason` | packages/basic-codex-harness/src/cancellation.rs:213-321 | After any completions a model call is settled if and only if it was withdrawn, its cancellation succeeded or was cancelled, or two cancellations failed |
| `CancellationLaws.ExecutionsSettleForAReason` | packages/basic-codex-harness/src/cancellation.rs:324-382 | After any completions an execution is settled if and only if it completed and its withdrawal was answered, or, if track of it was lost, a search for processes has ended since |
| `CancellationLaws.TurnEndsWithTheLastSettled` | packages/basic-codex-harness/src/cancellation.rs:734-761 | The turn goes on exactly as long as a target, a process or a search is unsettled |
| `PatchPlan.HunksMean` | packages/basic-codex-harness/src/filesystem_tools.rs:583-634 | What one hunk does to every path: an added path holds its text, a deleted one is absent, an updated one holds its updated text, a moved one does so under its new name only, and all other paths are as before; and exactly when it fails, with which error |
| `PatchPlan.HunksLead` | packages/basic-codex-harness/src/filesystem_tools.rs:577-634 | Hunks that can be applied lead from the first files to the last one after another; otherwise the first that cannot fails on what those before it left |
| `PatchChunks.ChunkIsLocated` | packages/basic-codex-harness/src/filesystem_tools.rs:704-740 | A located chunk replaces the old lines found after its context line by its new lines, or appends them if it has none, and the next chunk is sought from there |
| `PatchChunks.RefusedChunksAreNotThere` | packages/basic-codex-harness/src/filesystem_tools.rs:704-740 | A chunk is refused only if its context line, or its old lines after it, are nowhere to be found |
| `OutputText.NothingIsCutWithoutNeed` | packages/basic-codex-harness/src/shell_tools.rs:644-664 | Whatever is appended, text goes to the tail only once the head is full up to a character, and is dropped only once the tail is too |
| `OutputText.ModelTextWastesLittle` | packages/basic-codex-harness/src/shell_tools.rs:666-694 | A text that is too long is shown up to the last character that fits, its beginning and its end in equal parts around the marker |
| `Retained.RetainedAreMost` | packages/basic-codex-harness/src/compaction.rs:126-231 | All user messages from some point on are kept whole where one more does not fit, and of that one the last parts that still fit, the first of them cut to the last character that does |

## Left out

- One session at a time: the choice among claimable sessions and among eligible operations is not modelled; any eligible one may be claimed.
- Update rows, notifications and `harness.progress` entries written inside the store's transactions: `UpdateLog` models them as a log of its own.
- Attempt numbers, operation attempt rows, error and summary columns, retry delays and their values: no step depends on them but the scheduled times, which are arbitrary here.
- Callback receipts, expiry and cleanup polling: they call steps that are modelled, at times that are arbitrary.
- ResultRetrievalObject.ResultWorker.ProcessResultClaim: reads, asks and writes with nobody in between; any retrieval step at any time with any outcome is allowed in the runs of the other theorems.
- Lease keepers, channels and shutdown: a run may renew, or not, at any time.
- The handler's own execution: an outcome is any value, or that of a function of state, history and event.
- RetryBudget.BudgetIsNeverExceeded: counts failures recorded by `retry_handler`; a failure recorded unblocked by anyone else is not part of its runs, because the source has no such caller.
- DispatcherObject.Dispatcher.SubmitClaimed: reads, calls and writes with nobody in between and at one instant; the interleavings are those of `Dispatch`.
- Scheduler.CommitPrepared: nobody else uses the store between the turns of the loop; `OneOutcomePerClaim` speaks of the turns among all other transactions. The status read after a lost acknowledgement is only logged and not modelled.
- StoreObject.Store.ClaimOperationFor: the operation is named by the caller, because the order among eligible operations is left out.
- StoreObject.Store.CommitHandlerOutcome: a failed insert is reported as one kind of database error; oversized progress is measured in characters.
- Cleanup failures of a cancellation are counted, not described.
- PatchPlan.PlanMutations: mutation ids, base64 text and the summary shown to the model are left out; parsing a patch (`parse_patch`) and the limit on its size are not modelled.
- PatchPlan.ReconciledIffApplied: the file reads that answer the reconciliation are taken to be of one moment.
- OutputText.OutputIsBounded: decoding is not modelled; each append brings decoded text and its number of raw bytes, and counters do not saturate.
- Images: `view_image` gives a result or an error, nothing about pixels; image tokens are those of the source's constants.
- JSON shapes, schemas, prompts, tool catalogs, argument decoding: abstract values with a flag that says whether they are valid.
- HTTP routes, authentication, configuration and metrics.
- Integer widths other than the session id and generation limits: sequences, versions, byte and token counters do not overflow here.
- `source_through_sequence` of a compaction: audit data that drives no step.
- TurnObject.HarnessState.Handle: cancellation is entered here and continued by `CancellationState`; the text of failures and the messages shown to the user are not modelled.
