# Verification of the SafeAgent-Gov runtime

This project models the stateful core of SafeAgent-Gov in Dafny and proves what
that core is meant to guarantee. It has four parts.

**The distributed task runtime.** `RedisTaskStore` keeps a record map in step
with staging, per-pool queues and leases, terminal and dead-letter indexes, an
idempotency map, an outbox and counters, through optimistic WATCH/MULTI/EXEC
transactions. Submitters, reconcilers, workers and heartbeats drive it and may
stop anywhere.

- `store_state`, `store_transactions`: the keyspace, the effect of one EXEC, and
  each store call as a program that asks for keys and then commits or answers.
- `store_invariant`, `store_preservation`: the index invariant and why every
  committed block keeps it. `store_effects`, `store_times`: when each call commits,
  what it writes field by field, and the times behind the scores.
- `task_protocol`, `protocol_*`: all clients as one state machine with atomic
  store calls, its invariants over whole runs, wake-ups, order and counters.
- `watch_refinement`: the lower level, in which reads and EXEC are separate
  steps guarded by key versions; every interleaving refines the protocol.
- `task_guarantees`, `task_times`: the promises, stated over runs. `stranded_task`: a
  run that shows why the wake-up promise carries a condition. `task_progress`: from
  every reachable state submissions can be queued and queued tasks can succeed.
- `store_calls`, `store_reconciliation`: what each store call, `recover_expired`
  and `reconcile_staging` do to the database when nobody interferes.
- `member_order`, `member_text`: the order in which Redis lists equal scores, and that
  it is the byte order of the members.
- `redis_task_store`, `worker_runtime`, `distributed_dispatcher`: the store's
  methods, the worker's `execute_claimed` and the dispatcher's `submit` and
  reconciliation pass as imperative code proved against the same operations.

**The sub-agent router.** `router_layering` proves Kahn layering against paths
and cycles. `router_results` and `router_executor` run a plan under every
interleaving and any concurrency limit and prove that the results are those of a
sequential recursion. `router_aggregation` proves that the fan-in fails closed,
`router_planner` that every plan has the shape the executor relies on.
`router_outcomes`, `router_plan_outcomes` and `router_end_to_end` say what a run
reports in terms of its handlers, what each planned agent costs it that does not
deliver, and that the planned audit comes last and always runs.

**Approvals.** `approvals` models the approval table, one relation per
transaction, proves single use, expiry and idempotence over all runs, and
implements the store; `approval_runs` says what each call answers and leaves behind.

**Gateway, breakers, limiter.** `circuit_breakers` proves the two breakers of the
repository equivalent; `model_gateway`, `gateway_outcomes`, `response_cache` and
`rate_limit` prove selection, ordered fallback, the LRU+TTL cache and the sliding
window against their full histories.

`dafny verify dfyconfig.toml` checks everything. Nothing was executed.

## What the proofs found

Some properties do not hold as one might read them from the repository's intent.
The model follows the code, and a theorem says when the code meets the property.

- **A wake can be lost.** A message whose claim raised is not retried
  (`max_retries` is 0) and nobody re-notifies a task that is already queued, so
  such a claim can strand one queued task. `NoLostWakeUp` counts what raised
  claims can cost; `WakesSurviveNoRaise` says that in every pool with room the
  promise tolerates exactly zero of them, by the run of
  `ARaisedClaimStrandsATask`. Redelivery after a worker's death is harmless.
- **A replay at the record limit.** `create_or_replay` makes room before it looks
  up the idempotency key, so at the limit it can purge the very task it should
  replay, or refuse although the task is live.
  `ReplayExactlyUnlessRoomIsNeeded` gives the condition; `ALiveReplayIsRefused`
  and `AReplayPurgesItsTask` reach both failing sides at every limit.
- **Audit failures in the gateway.** The comment at
  `safeagent_gov/model_gateway/service.py:532` says audit failures end the
  request at once. The audits of an attempt run inside its try block, so an audit
  that times out, or whose hook raises one of the gateway's own provider errors,
  is charged to the provider and the request goes on.
  `AuditFailureEndsUnlessCaught` is the rule for every request, and
  `AnsweredDespiteExactly` says when a request can still be answered.
- **Probes without an outcome.** In the gateway, a breaker stays half-open when
  the attempt it let out of the open state ends in
  `ModelProviderUnavailableError` or aborts the request, or when a retry
  readmitted as the probe fails its audit; in the planner, when such an attempt
  ends in anything that is neither a plan nor a transport failure, be it another
  `PlanningError` or an exception nobody catches. It then refuses everything.
  `ProbeSticksExactlyWhenSilent`, `RequestStrandsExactly` and `StrandedExactly` are
  the exact conditions on history, outcomes and clock; each way has a concrete
  witness.
- **The sequence encoding** orders tasks like the in-memory queue for exactly the
  first 10^12 sequence numbers (`FaithfulExactlyUpToStride`).
- The override for an incomplete audit in the router never changes a run's
  decision or risk (`AuditOverrideIsRedundant`), and the index repairs of
  `claim_next`, `_recover_one` and `_purge_oldest_terminal` never take effect
  (`RepairsNeverCommit`).

## Reading the model

- Task ids are numbers in the order of their uuid; created ids are new. Worker
  ids are new for every claim. Hashes are injective on the tuples they digest.
- Clock readings are arguments and arbitrary in the task runtime and approvals;
  the limiter and the cache take a non-decreasing clock and serialised calls, as
  their locks do not cover the reading.
- Audits, handlers, providers, planners and the broker are free outcomes. In the
  router they are functions of the task and its result, which is what makes
  schedule independence a statement.
- WATCH and the read of the key are one step at the lower level. A client may
  stop in any stage, and a transaction may abort without effect.
- Reals stand for floating-point clocks and prices.

## Model

| member | source | states |
|---|---|---|
| `StoreState.Head` | safeagent_gov/task_runtime/redis_store.py:440-445 | ZRANGE 0 0 on a non-empty set is its member of least (score, id) |
| `StoreTransactions.ObservedDecisionIsAtomic` | safeagent_gov/task_runtime/redis_store.py:206-251 | for every store call, a program that has stopped asking for keys decides on what it observed exactly as on the whole current database: the watched keys cover everything the committed block depends on |
| `StoreTransactions.AtomicNeverWatches` | safeagent_gov/task_runtime/redis_store.py:206-251 | run on a complete view, every call commits, answers or draws a number; it never waits for another key |
| `WatchRefinement.ExecIsAtomic` | safeagent_gov/task_runtime/redis_store.py:337-368 | an EXEC that succeeds has only current observations, so its block is the one the call would compute in a single step, also for `activate`, which never writes the record key |
| `WatchRefinement.AnswerIsCurrent` | safeagent_gov/task_runtime/redis_store.py:440-448 | a call that ends without committing answers what the single-step call would answer on the database at its last read; only a full pool or record limit and a record missing behind a queue or lease also rest on an earlier read |
| `StoreTransactions.LastReadIsTrue` | safeagent_gov/task_runtime/redis_store.py:202-252 | the same for the call's program: reject, finish, heartbeat, update, purge, a replay and a recovery refused by its lease answer exactly what is true at the last read |
| `WatchRefinement.StepRefines` | safeagent_gov/task_runtime/redis_store.py:337-368 | every low-level step (begin, watch and read, draw, exec, conflict, outside step) is a protocol step or a stutter |
| `WatchRefinement.InterleavingsAreAtomic` | safeagent_gov/task_runtime/redis_store.py:206-251 | every interleaving of reads and EXECs of all clients is a run of the protocol with atomic store calls at their EXEC points |
| `StorePreservation.CreateCommit` | safeagent_gov/task_runtime/redis_store.py:202-252 | a committed creation keeps the index invariant and the record limit |
| `StorePreservation.PurgeCommit` | safeagent_gov/task_runtime/redis_store.py:263-290 | a committed purge deletes a terminal record from every index and frees its idempotency entry; it never merely repairs the terminal index |
| `StorePreservation.DropCommit` | safeagent_gov/task_runtime/redis_store.py:291-293 | dropping a stale index entry after a failed lookup changes nothing |
| `StorePreservation.UpdateCommit` | safeagent_gov/task_runtime/redis_store.py:304-330 | an update keeps the index invariant |
| `StorePreservation.ActivateCommit` | safeagent_gov/task_runtime/redis_store.py:337-368 | an activation moves a staged task into its pool's queue where there was room, or changes nothing; a queued task never holds a lease |
| `StorePreservation.RejectCommit` | safeagent_gov/task_runtime/redis_store.py:399-431 | a rejection takes a non-terminal task out of staging, queue and lease and keeps the invariant |
| `StorePreservation.ClaimCommit` | safeagent_gov/task_runtime/redis_store.py:437-476 | a committed claim takes the head of the queue, which is a live queued task of that pool; the branch that drops a non-queued head never commits |
| `StorePreservation.ClaimAnswer` | safeagent_gov/task_runtime/redis_store.py:440-448 | a claim that commits nothing found an empty queue; the head's record is never missing |
| `StorePreservation.HeartbeatCommit` | safeagent_gov/task_runtime/redis_store.py:482-498 | a heartbeat keeps the lease score equal to the record's expiry |
| `StorePreservation.RecoverCommit` | safeagent_gov/task_runtime/redis_store.py:515-554 | only an expired lease of a running task of that pool is recovered; the branch that drops a dangling lease never commits |
| `StorePreservation.FinishCommit` | safeagent_gov/task_runtime/redis_store.py:595-632 | a committed finish keeps the index invariant: the task leaves its pool's leases and joins the terminal and, if failed, the dead indexes |
| `StorePreservation.CommitKeepsValid` | safeagent_gov/task_runtime/redis_store.py:190-633 | every committed block of every store call keeps the index, idempotency and capacity invariants |
| `StoreEffects.CreateWrites` | safeagent_gov/task_runtime/redis_store.py:224-250 | a committed creation stores exactly the submitted fields, queued and untouched, in the pool of its kind, lists and stages the task under the millisecond of the call and binds its scope; nothing else changes |
| `StoreEffects.PurgeWrites` | safeagent_gov/task_runtime/redis_store.py:275-289 | a committed purge removes the record, all its index entries and its scope, and nothing else |
| `StoreEffects.ActivateWrites` | safeagent_gov/task_runtime/redis_store.py:349-368 | a committed activation queues the task at rank times 10^12 plus the number drawn, puts its member in the outbox due at the time of the call, unstages it and counts it; a task already queued is only unstaged |
| `StoreEffects.RejectWrites` | safeagent_gov/task_runtime/redis_store.py:399-431 | a committed rejection writes the reason, the shortened text and the time, ends the task in every index and counts it |
| `StoreEffects.ClaimWrites` | safeagent_gov/task_runtime/redis_store.py:448-470 | a committed claim hands the head of the queue to the worker until one lease from now, in record and index, and keeps the first start time |
| `StoreEffects.HeartbeatWrites` | safeagent_gov/task_runtime/redis_store.py:489-498 | a committed heartbeat moves the end of the holder's lease, in record and index, and nothing else |
| `StoreEffects.RecoverWrites` | safeagent_gov/task_runtime/redis_store.py:529-549 | a committed recovery takes an expired lease away, counts it on the record, and queues the task with a new number and the outbox member of its next generation |
| `StoreEffects.FinishWrites` | safeagent_gov/task_runtime/redis_store.py:606-631 | a committed finish writes status, result or error, and time, ends the lease, and dead-letters a failure globally and in its pool, with the counters that go with it |
| `StoreEffects.UpdateWrites` | safeagent_gov/task_runtime/redis_store.py:309-329 | a committed update counts one audit, or records the attempt of the holder, and changes nothing else |
| `StoreEffects.CreateExactly` | safeagent_gov/task_runtime/redis_store.py:202-220 | a creation replays the task its scope is bound to, is refused when the store is full, and commits otherwise |
| `StoreEffects.ActivateExactly` | safeagent_gov/task_runtime/redis_store.py:337-356 | an activation commits exactly for a queued task of the pool while queue and leases leave room; one that is queued already needs none |
| `StoreEffects.ClaimExactly` | safeagent_gov/task_runtime/redis_store.py:440-448 | a claim commits exactly when its pool's queue holds a task |
| `StoreEffects.HeartbeatExactly` | safeagent_gov/task_runtime/redis_store.py:483-488 | a heartbeat answers true exactly for the holder of a running task |
| `StoreEffects.RecoverExactly` | safeagent_gov/task_runtime/redis_store.py:515-530 | a recovery commits exactly when the lease has expired |
| `StoreEffects.FinishExactly` | safeagent_gov/task_runtime/redis_store.py:590-606 | a finish commits exactly for the holder of a running task; an ended task is returned, anyone else refused |
| `StoreEffects.RejectExactly` | safeagent_gov/task_runtime/redis_store.py:394-402 | a rejection commits exactly for a task that has not ended |
| `StoreTimes.CommitKeepsTimes` | safeagent_gov/task_runtime/redis_store.py:241-247 | every committed call keeps index, tenant and staging scores at the millisecond of the record's creation, and terminal and dead scores at that of its completion |
| `TaskStore.First` | safeagent_gov/task_runtime/redis_store.py:255-258 | the loop that finds the first member of a sorted set returns the least (score, id) |
| `TaskStore.Due` | safeagent_gov/task_runtime/redis_store.py:501-506 | the first `limit` members with score up to the bound, in order, and nothing left out that would come before one of them |
| `TaskStore.RedisTaskStore.PurgeOldestTerminal` | safeagent_gov/task_runtime/redis_store.py:254-296 | purges the head of the terminal index, or drops an entry that is not terminal; false exactly when the index is empty |
| `TaskStore.RedisTaskStore.CreateOrReplay` | safeagent_gov/task_runtime/redis_store.py:190-252 | the whole loop: purge when full, replay, create or refuse; a created task is queued, created and staged at the time of the call; submissions, replays and refusals are counted; on a consistent store it stays consistent and one round decides |
| `StoreCalls.InsertedSince` | safeagent_gov/task_runtime/redis_store.py:224-250 | whatever was purged on the way, an inserted record is stored as submitted and listed and staged under the millisecond of its creation, and exactly a replay or a refusal is counted |
| `StoreReconciliation.FreshIsNotDue` | safeagent_gov/task_runtime/redis_store.py:557-559 | a submission just inserted is in no due list of a cutoff before the millisecond of its creation, and in every one from then on that its limit does not cut short |
| `StoreCalls.ReplayExactlyUnlessRoomIsNeeded` | safeagent_gov/task_runtime/redis_store.py:202-220 | `create_or_replay` answers with the live task of its scope if and only if no room had to be made, or room was made by purging a different task |
| `StoreCalls.ALiveReplayIsRefused` | safeagent_gov/task_runtime/redis_store.py:202-205 | the failing side is reached: on a consistent store at its record limit a live task's replay is refused |
| `StoreCalls.AReplayPurgesItsTask` | safeagent_gov/task_runtime/redis_store.py:206-252 | ... and on another one the replay purges the very task it names and creates it anew |
| `TaskStore.RedisTaskStore.IncrementAudit` | safeagent_gov/task_runtime/redis_store.py:298-330 | adds one audit to the record, or reports it missing; this is the atomic operation |
| `TaskStore.RedisTaskStore.SetAttempts` | safeagent_gov/task_runtime/redis_store.py:304-330 | sets the attempt count only for the worker that holds the lease; this is the atomic operation |
| `StoreCalls.UpdatedIsAtomic` | safeagent_gov/task_runtime/redis_store.py:304-330 | `update` without interference is the atomic operation |
| `TaskStore.RedisTaskStore.Activate` | safeagent_gov/task_runtime/redis_store.py:332-370 | queues a queued, unqueued task when its pool has room, with a fresh sequence number and an outbox member; otherwise only unstages it, refuses, or reports a full pool |
| `StoreCalls.ActivatedIsAtomic` | safeagent_gov/task_runtime/redis_store.py:332-370 | `activate` without interference is the atomic operation with the number it draws |
| `TaskStore.RedisTaskStore.Reject` | safeagent_gov/task_runtime/redis_store.py:390-432 | rejects any non-terminal task and leaves a terminal one unchanged |
| `StoreCalls.RejectedIsAtomic` | safeagent_gov/task_runtime/redis_store.py:390-432 | `reject` without interference is the atomic operation |
| `TaskStore.RedisTaskStore.ClaimNext` | safeagent_gov/task_runtime/redis_store.py:434-477 | drops non-queued heads and claims the first queued one; on a consistent store it claims or finds an empty queue |
| `StoreCalls.ClaimRoundIsAtomic` | safeagent_gov/task_runtime/redis_store.py:437-476 | one round of the claim loop is the atomic claim, repeated while it only repaired the queue |
| `TaskStore.RedisTaskStore.Heartbeat` | safeagent_gov/task_runtime/redis_store.py:479-499 | extends the lease of a running task for its holder only |
| `StoreCalls.HeartbeatIsAtomic` | safeagent_gov/task_runtime/redis_store.py:479-499 | `heartbeat` without interference is the atomic operation |
| `TaskStore.RedisTaskStore.RecoverOne` | safeagent_gov/task_runtime/redis_store.py:512-555 | re-queues a running task whose lease expired, with a fresh number and the next generation in the outbox |
| `StoreCalls.RecoveredIsAtomic` | safeagent_gov/task_runtime/redis_store.py:512-555 | `_recover_one` without interference is the atomic operation with the number it draws |
| `TaskStore.RedisTaskStore.RecoverExpired` | safeagent_gov/task_runtime/redis_store.py:501-510 | recovers exactly the due leases of every pool, in order and with one clock reading each, and counts them; each task gets the next sequence number and the outbox member of its next generation, and no other task, queue entry, lease or member changes |
| `StoreReconciliation.ExpiredAreRequeued` | safeagent_gov/task_runtime/redis_store.py:512-555 | on a consistent store every expired lease that is recovered re-queues its task; sequence numbers follow the order due, and the outbox gains exactly the next members of the due tasks |
| `TaskStore.RedisTaskStore.Finish` | safeagent_gov/task_runtime/redis_store.py:581-633 | moves a running task of its holder to its terminal state; terminal tasks are returned unchanged, other callers refused |
| `StoreCalls.FinishedIsAtomic` | safeagent_gov/task_runtime/redis_store.py:581-633 | `finish` without interference is the atomic operation |
| `TaskStore.RedisTaskStore.ReconcileStaging` | safeagent_gov/task_runtime/redis_store.py:557-579 | every due staged task without a counted audit is rejected; every other one is queued with its outbox member unless its pool is full; the count is the number that left staging; tasks that were not due keep record, queue, lease and staging entry |
| `StoreReconciliation.StagedAreReconciled` | safeagent_gov/task_runtime/redis_store.py:557-579 | the same for any list of staged tasks of a consistent store, with the outbox gaining exactly the members of the tasks queued |
| `WorkerRuntime.RunAttempts` | safeagent_gov/task_runtime/worker_runtime.py:146-188 | the attempt loop stops at the first attempt that is not an audited transient failure within the budget; the record gains one fenced attempt update for each handler start and one audit for each retry, and `retried` counts the retries, the unaudited last one included |
| `WorkerRuntime.FinishFailure` | safeagent_gov/task_runtime/worker_runtime.py:75-107 | a failure is audited and committed; a failed audit replaces its error code |
| `WorkerRuntime.CloseSuccess` | safeagent_gov/task_runtime/worker_runtime.py:199-231 | a result is committed only after both closing audits were recorded; else the failed audit is the error, with the audits before it counted |
| `WorkerRuntime.ExecuteClaimed` | safeagent_gov/task_runtime/worker_runtime.py:110-235 | the whole record (state, result, error code and message, attempts, audits) and the counters end exactly as the audits and handler outcomes call for; the record is a success with a result if and only if the handler returned it within the budget while the lease was held and every audit was recorded; no other record changes |
| `WorkerRuntime.WinsExactly` | safeagent_gov/task_runtime/worker_runtime.py:156-231 | a delivery succeeds with a result if and only if start and closing audits were recorded, a handler is bound, and some attempt within the budget returned that result with the lease held, after nothing but transient failures whose retries were audited |
| `WorkerRuntime.LosesExactly` | safeagent_gov/task_runtime/worker_runtime.py:75-107 | a delivery that fails before the closing audits fails with the type and text of its error, or of the exception of the audit that should have reported it |
| `WorkerRuntime.ALostLeaseLoses` | safeagent_gov/task_runtime/worker_runtime.py:171-173 | if the lease was lost when the last attempt came back, with a result or without, the delivery fails with the runtime error, or with the failed audit of it |
| `WorkerRuntime.EndIsOneOf` | safeagent_gov/task_runtime/worker_runtime.py:110-235 | there is no other way to end than a success, such a failure, or an audit of the start or of the result that raised |
| `WorkerRuntime.DeliveredMeans` | safeagent_gov/task_runtime/worker_runtime.py:97-107 | the record a delivery leaves is terminal without holder or lease, with the result of a success or the code and shortened text of a failure, and otherwise unchanged but for attempts and audits |
| `WorkerRuntime.DeliveryCounts` | safeagent_gov/task_runtime/worker_runtime.py:146-188 | the attempts equal the handler starts, and the audits and retries counted are exactly those the outcomes call for, in every case |
| `WorkerRuntime.StartsWithinBudget` | safeagent_gov/task_runtime/worker_runtime.py:150-156 | a delivery starts at most as many handlers as attempts are left |
| `DistributedDispatcher.OutboxDue` | safeagent_gov/task_runtime/redis_store.py:375-385 | exactly the outbox members with score from 0 to the time, in order of score and then of the text of the member, all of them unless the limit is reached |
| `MemberOrder.DueIsDetermined` | safeagent_gov/task_runtime/redis_store.py:375-385 | score and member text order all members strictly, so the due list is unique, ties included |
| `MemberText.OrderedAsTexts` | safeagent_gov/task_runtime/redis_store.py:371-381 | the order of members is the byte order of their texts `pool|task-<32 hexadecimal digits>|generation` |
| `DistributedDispatcher.SentIsAcknowledged` | safeagent_gov/task_runtime/distributed.py:104-111 | a member leaves the outbox if and only if a message was sent for it |
| `DistributedDispatcher.EachIsSentOrCounted` | safeagent_gov/task_runtime/distributed.py:104-111 | every due member is either sent or counted as a failed notification, and messages go out in the order due |
| `DistributedDispatcher.RedisDistributedDispatcher.NotifyDue` | safeagent_gov/task_runtime/distributed.py:104-111 | messages are sent in the order due, the outbox loses exactly the members sent, each failed notification is counted, and nothing else in the store changes |
| `DistributedDispatcher.RedisDistributedDispatcher.ReconcileOnce` | safeagent_gov/task_runtime/distributed.py:101-111 | a pass recovers the due leases, then reconciles the due staged tasks, then notifies the earliest due members, each on what the one before left; the store and the messages sent are exactly what follows |
| `DistributedDispatcher.QueuedIsLeftAlone` | safeagent_gov/task_runtime/distributed.py:101-111 | a pass leaves a task that waits in its queue as it is, and every outbox member waits on unless its message was sent |
| `DistributedDispatcher.RedisDistributedDispatcher.Enqueue` | safeagent_gov/task_runtime/distributed.py:173-204 | in every case the answer, the messages sent and the whole store are those that the queue audit, the room in the pool, the audit of the rejection and the pass that follows call for; a failed audit's type is in the record's code |
| `DistributedDispatcher.EnqueuedMeans` | safeagent_gov/task_runtime/distributed.py:173-204 | what that means for the submitter: the answer and the record are decided by audits and room in both directions, and an accepted task is in its queue while its outbox member waits or its message was sent |
| `DistributedDispatcher.RejectionIsCounted` | safeagent_gov/task_runtime/distributed.py:173-204 | a new task that is not accepted counts as one rejection, and as a failed audit exactly when the queue audit or that of the rejection was not recorded |
| `DistributedDispatcher.RedisDistributedDispatcher.Submit` | safeagent_gov/task_runtime/distributed.py:140-204 | refused exactly when stopped or without a handler; in every other case, replays included, the answer, the messages sent and the whole store are those the creating loop and the queueing call for |
| `DistributedDispatcher.SubmittedMeans` | safeagent_gov/task_runtime/distributed.py:140-204 | a replay names a live task and creates nothing, a full store creates nothing, and a new record ends in the state that goes with its answer |
| `ProtocolRecords.CommitRecordEffect` | safeagent_gov/task_runtime/redis_store.py:190-633 | each committed call creates its record, purges a terminal one, makes its one documented change, or leaves all records alone |
| `ProtocolRecords.CommitQueueEffect` | safeagent_gov/task_runtime/redis_store.py:351-363 | a task enters a queue only together with its outbox member, from staging or from an expired lease, with the ticket drawn |
| `ProtocolInvariant.CommitKeepsCore` | safeagent_gov/task_runtime/distributed.py:140-204 | a commit by any client in any stage keeps the protocol invariant |
| `ProtocolInvariant.NextKeepsCore` | safeagent_gov/task_runtime/worker_runtime.py:110-235 | every step of submitters, reconcilers, workers and heartbeats keeps the protocol invariant |
| `ProtocolInvariant.RunKeepsCore` | safeagent_gov/task_runtime/worker_runtime.py:110-235 | the protocol invariant holds in every state of every run |
| `ProtocolWakes.InsertedOnce` | safeagent_gov/task_runtime/redis_store.py:371-373 | each (task, generation) outbox member is inserted at most once in a run |
| `ProtocolWakes.RunKeepsWakes` | safeagent_gov/task_runtime/distributed.py:101-111 | in every reachable state a pool's queue is covered by waiting outbox members, unconsumed wakes and wakes a raised claim consumed |
| `ProtocolOrder.ClaimTakesFirst` | safeagent_gov/task_runtime/redis_store.py:440-467 | a claim never takes a task while another one of its pool is before it in the in-memory queue's order (rank, sequence, id) |
| `ProtocolOrder.EnqueuesAtBack` | safeagent_gov/task_runtime/redis_store.py:355-359 | a task enqueued or re-queued with the newest number is behind every queued task of its own priority |
| `ScoreOrder.OrdersAgree` | safeagent_gov/task_runtime/dispatcher.py:290 | up to 10^12 sequence numbers the sorted-set score orders like the in-memory tuple |
| `ScoreOrder.FaithfulExactlyUpToStride` | safeagent_gov/task_runtime/redis_store.py:33 | the two orders agree on all sequence numbers up to a bound if and only if the bound is at most the stride |
| `ProtocolCounters.RunKeepsCounters` | safeagent_gov/task_runtime/redis_store.py:456-470 | without a metrics reset, `started`, `recovered`, `succeeded` and `failed` equal the sums over all tasks ever created, and every failure is dead-lettered |
| `TaskGuarantees.IndexesPartitionTasks` | safeagent_gov/task_runtime/redis_store.py:241-249 | in every reachable state queued tasks are exactly the disjoint union of staging and their pool's queue, running ones exactly the pool's leases, terminal and failed ones exactly their indexes |
| `TaskGuarantees.LeasesMatchRecords` | safeagent_gov/task_runtime/redis_store.py:447-467 | a leased task is running, has a holder, and its lease score is the record's expiry |
| `TaskGuarantees.RepairsNeverCommit` | safeagent_gov/task_runtime/redis_store.py:525-528 | the branches that repair a broken index never take effect in any run |
| `TaskGuarantees.RecordsOnlyAdvance` | safeagent_gov/task_runtime/redis_store.py:304-330 | between any two states of a run a task keeps its identity, its counts only grow, a terminal record only gains audits, and a purged task stays purged |
| `TaskGuarantees.TerminalOnce` | safeagent_gov/task_runtime/redis_store.py:600-604 | a task becomes terminal at most once; its status, result, error and completion time never change afterwards |
| `TaskGuarantees.FenceIsPermanent` | safeagent_gov/task_runtime/redis_store.py:317-319 | a worker that lost its lease never holds that task again |
| `TaskGuarantees.LostLeaseNeverWrites` | safeagent_gov/task_runtime/redis_store.py:485-488 | once a worker lost its lease, none of its finishes, heartbeats and attempt updates ever writes again |
| `TaskGuarantees.RecoveryFences` | safeagent_gov/task_runtime/redis_store.py:529-549 | recovering a lease fences the worker that held it |
| `TaskGuarantees.AFailedHeartbeatIsFinal` | safeagent_gov/task_runtime/redis_store.py:485-488 | a heartbeat that answers false is right and final: at its last read the worker does not hold the lease, and in no later state of the run does it hold the task again |
| `TaskGuarantees.AttemptBudget` | safeagent_gov/task_runtime/worker_runtime.py:150-163 | across all deliveries, crashes and recoveries a handler is started at most max_attempts times, each attempt number at most once |
| `TaskGuarantees.StartsAreAudited` | safeagent_gov/task_runtime/distributed.py:173-175 | a handler is only started after the queue audit and the start audit were counted |
| `TaskGuarantees.SuccessIsAudited` | safeagent_gov/task_runtime/worker_runtime.py:199-231 | a succeeded record has a result and at least four audit events |
| `TaskGuarantees.PoolsStayWithinRoom` | safeagent_gov/task_runtime/redis_store.py:351-354 | queue plus leases of a pool never exceeds queue capacity plus workers, and records never exceed the record limit |
| `TaskGuarantees.DeliveriesMatchStatus` | safeagent_gov/task_runtime/redis_store.py:529-549 | deliveries minus recoveries are 0 while queued, 1 while running or finished, 0 or 1 when rejected |
| `TaskGuarantees.IdempotencyBijection` | safeagent_gov/task_runtime/redis_store.py:241-250 | an idempotency entry maps a scope to a task if and only if that task is live and was created with that scope |
| `TaskGuarantees.ReplayCreatesNothing` | safeagent_gov/task_runtime/redis_store.py:213-219 | while a task created under a scope lives, the creating transaction for that scope writes nothing and answers with it |
| `TaskGuarantees.NoLostWakeUp` | safeagent_gov/task_runtime/distributed.py:101-111 | outbox members plus unconsumed wakes of a pool cover its queue in every reachable state in which no claim of the pool raised |
| `StrandedTask.ARaisedClaimStrandsATask` | safeagent_gov/task_runtime/worker_runtime.py:257-269 | in every pool with room, under any settings, a run in which one claim raises leaves a queued task with no outbox member and no wake |
| `StrandedTask.WakesSurviveNoRaise` | safeagent_gov/task_runtime/distributed.py:101-111 | outbox members and unconsumed wakes cover a pool's queue in all states reached with at most k raised claims if and only if k is 0 |
| `TaskTimes.ScoresAreTimes` | safeagent_gov/task_runtime/redis_store.py:241-247 | in every reachable state a live task is listed, and staged if it is, under the millisecond of its creation, and once ended under that of its completion |
| `TaskTimes.DueWhenOld` | safeagent_gov/task_runtime/redis_store.py:557-559 | in every reachable state a staged task is due exactly when it was created at the cutoff or before, as far as the limit goes |
| `TaskTimes.YoungSubmissionsStand` | safeagent_gov/task_runtime/redis_store.py:557-579 | in every run a reconciler only rejects a task that was created at its pass's cutoff or before, however the submission and the pass interleave |
| `TaskTimes.OldestIsPicked` | safeagent_gov/task_runtime/redis_store.py:254-258 | in every reachable state the task picked for purging is one of those that completed first |
| `TaskTimes.RunCountsInsertions` | safeagent_gov/task_runtime/redis_store.py:357-363 | in every reachable state the counters of acceptances and recoveries add up to the outbox members ever inserted |
| `TaskProgress.SubmissionsCanBeQueued` | safeagent_gov/task_runtime/distributed.py:140-204 | every run with a submitter about to create its task under a new id, room in store and pool and an unbound scope can go on until the task waits in its queue with its outbox member |
| `TaskProgress.QueuedTasksCanSucceed` | safeagent_gov/task_runtime/worker_runtime.py:110-235 | every run with a worker about to claim from a queue whose head has an attempt left can go on until that task succeeded with any given result, by one more attempt and handler start and three more audits |
| `RouterContracts.ByIdIsClosed` | safeagent_gov/router/contracts.py:59-71 | a validated plan is a dictionary closed under predecessors |
| `RouterLayering.Generations` | safeagent_gov/router/executor.py:43-52 | layering succeeds if and only if the dependencies have no cycle; every task then stands in exactly one generation, after all predecessors and no later than needed |
| `RouterLayering.LayeringExcludesCycles` | safeagent_gov/router/executor.py:50-51 | a layering excludes cycles |
| `RouterLayering.StuckMeansCycle` | safeagent_gov/router/executor.py:50-51 | tasks that all wait for each other contain a cycle |
| `RouterLayering.LayeringIsUnique` | safeagent_gov/router/executor.py:52 | a graph has at most one layering |
| `RouterResults.SolutionIsUnique` | safeagent_gov/router/executor.py:66-148 | the result equations of an acyclic plan have at most one solution |
| `RouterResults.SequentialSolves` | safeagent_gov/router/executor.py:66-148 | the sequential recursion over the dependencies solves the result equations |
| `RouterExecutor.ConcurrencyIsBounded` | safeagent_gov/router/executor.py:61-63 | in every state of every run the handlers running are counted by `active`, within `max_active`, within the semaphore limit |
| `RouterExecutor.LookupIsTotal` | safeagent_gov/router/executor.py:68-70 | when a task looks up its predecessors all of them have results |
| `RouterExecutor.EveryScheduleAgrees` | safeagent_gov/router/executor.py:150-152 | whatever the interleaving and the limit, a finished run holds exactly the results of the sequential recursion |
| `RouterExecutor.ModesAgree` | safeagent_gov/router/executor.py:61 | parallel and serial mode give the same results |
| `RouterExecutor.HandlersStarted` | safeagent_gov/router/executor.py:71-99 | a handler is started exactly for the tasks with a handler that no blocked predecessor stops |
| `RouterExecutor.NeverStuck` | safeagent_gov/router/executor.py:96-133 | until the run is finished some step is possible |
| `RouterExecutor.StepsRunOut` | safeagent_gov/router/executor.py:150-152 | every step finishes a generation or leaves strictly less to do in it |
| `RouterExecutor.EveryRunEnds` | safeagent_gov/router/executor.py:150-152 | a run has at most four steps for each task and one for each generation, and can go on if and only if it is not finished |
| `RouterOutcomes.TaskReports` | safeagent_gov/router/executor.py:66-148 | in every finished run each handler was started exactly if it is registered and no blocked predecessor stopped its task, and the task's result is what the handler returned, or the refusal its end calls for, as the audit callback let it stand |
| `RouterOutcomes.ReturnedOutcomeStands` | safeagent_gov/router/executor.py:101-109 | the decision, risk and output a started handler returned are those of its task's result, when the audit of it was recorded |
| `RouterOutcomes.RunDecides` | safeagent_gov/router/executor.py:154-165 | the final decision and risk are the largest that the handlers returned and the refusals of the other tasks, and the status follows from the decision |
| `RouterOutcomes.ABlockingHandlerBlocks` | safeagent_gov/router/executor.py:156-163 | a run in which a started handler returned BLOCK is blocked, audited or not |
| `RouterOutcomes.PassingMeansHandlersAllowed` | safeagent_gov/router/executor.py:161-165 | a run completes unmasked if and only if every handler was started, returned no more than logging and was audited; it passes at all if and only if none asked for more than masking |
| `RouterAggregation.MaxDecisionIsLargest` | safeagent_gov/router/executor.py:156 | the final decision is the decision of some result and no result is stricter |
| `RouterAggregation.MaxRiskIsLargest` | safeagent_gov/router/executor.py:157 | the final risk is the risk of some result and no result is riskier |
| `RouterAggregation.AuditOverrideIsRedundant` | safeagent_gov/router/executor.py:158-160 | results that carry their own floor already give BLOCK and CRITICAL when an audit is missing, so the override never changes the outcome |
| `RouterAggregation.RunIsFloored` | safeagent_gov/router/executor.py:111-148 | every result of a run carries its floor: BLOCK for a mandatory incomplete task or an unrecorded audit, REQUIRE_APPROVAL for any other incomplete task, else the decision of the completed result, which `RouterOutcomes.TaskReports` ties to the handler |
| `RouterAggregation.FailsClosed` | safeagent_gov/router/executor.py:154-165 | the run's decision is exactly the strictest floor of its tasks |
| `RouterAggregation.PassingMeansComplete` | safeagent_gov/router/executor.py:161-165 | a run ends completed or masked if and only if every task completed, was audited, and asked for no more than masking |
| `RouterAggregation.BlockTravels` | safeagent_gov/router/executor.py:68-82 | from a blocked task, every task along a path of mandatory tasks without always_run is stopped and blocked, and the end of such a path is stopped |
| `RouterAggregation.NoHandlerAfterBlock` | safeagent_gov/router/executor.py:68-82 | in every finished run no handler was started for the end of such a path |
| `RouterAggregation.AlwaysRunTasksRun` | safeagent_gov/router/executor.py:71 | an always_run task reaches its handler whatever was blocked before it |
| `RouterAggregation.AggregateIsScheduleFree` | safeagent_gov/router/executor.py:154-160 | parallel and serial mode report the same decision, risk and ordered results |
| `RouterPlanner.Sort` | safeagent_gov/router/service.py:107-110 | sorting by (priority rank, agent id) gives an ordered permutation |
| `RouterPlanner.SelectionIsTop` | safeagent_gov/router/service.py:105-115 | the plan takes the first candidates in order, all of them while there is room, and keeps a place for the audit agent when it is a candidate |
| `RouterPlanner.SelectAgents` | safeagent_gov/router/service.py:105-115 | the selection loop computes that selection |
| `RouterPlanner.BuildTasks` | safeagent_gov/router/service.py:116-162 | the construction loop gives analysis tasks without predecessors and the audit task that waits for all of them |
| `RouterPlanner.BuildPlan` | safeagent_gov/router/service.py:93-162 | every plan has between 1 and max_sub_agents tasks, unique ids and known predecessors; the audit is planned exactly when it was found or nothing else was |
| `RouterPlanner.PlansAreLayered` | safeagent_gov/router/service.py:146-161 | every plan is acyclic, and a planned audit is mandatory, always runs, and depends on every other task |
| `RouterPlanOutcomes.PlanHolds` | safeagent_gov/router/service.py:27-72 | every analysis task of a plan is for a known agent that was found, waits for nothing, can be stopped, and is mandatory unless it is the retrieval agent's |
| `RouterPlanOutcomes.PlanIsOrdered` | safeagent_gov/router/service.py:107-110 | the agents of a plan stand in the order of urgency, and of dictionary order where that is equal |
| `RouterPlanOutcomes.LeftOutForRoom` | safeagent_gov/router/service.py:111-115 | an agent found is left out only when the plan is full, and then nothing planned comes after it |
| `RouterPlanOutcomes.AuditIsPlanned` | safeagent_gov/router/service.py:111-145 | the audit is planned exactly when it was found or no known agent was |
| `RouterEndToEnd.PlansAreExecutable` | safeagent_gov/router/service.py:105-162 | every plan the planner builds can be executed under any concurrency limit |
| `RouterEndToEnd.AuditComesLast` | safeagent_gov/router/service.py:146-161 | in every interleaving the planned audit agent starts only when every other task has its result |
| `RouterEndToEnd.AuditAlwaysRuns` | safeagent_gov/router/executor.py:68-99 | in every finished run of a plan with an audit task its handler was started if and only if it is registered, whatever was blocked |
| `RouterPlanOutcomes.AgentsFailClosed` | safeagent_gov/router/executor.py:110-131 | in every finished run of a plan, a risk, supply-chain or compliance agent that does not deliver blocks the run, and the retrieval agent that does not forces at least an approval |
| `Approvals.SQLiteApprovalStore.CreateApproval` | research_technology/mcp/gateway/approvals.py:82-140 | inserts a request, returns the row already bound to its key or request when the intent is the same, refuses otherwise; keeps the UNIQUE constraints |
| `Approvals.SQLiteApprovalStore.Get` | research_technology/mcp/gateway/approvals.py:142-152 | a read that expires an overdue request |
| `Approvals.SQLiteApprovalStore.DecideApproval` | research_technology/mcp/gateway/approvals.py:164-235 | decides a requested row in time, once per decision key; expires an overdue one and reports it |
| `Approvals.SQLiteApprovalStore.ConsumeApproval` | research_technology/mcp/gateway/approvals.py:247-284 | consumes an approved row in time; on a valid table the fingerprint check never fails |
| `Approvals.SQLiteApprovalStore.RevokeApproval` | research_technology/mcp/gateway/approvals.py:286-308 | revokes exactly a row that is requested, approved or masked, writing status, actor and time, and leaves every other row |
| `Approvals.SQLiteApprovalStore.ExpireApproval` | research_technology/mcp/gateway/approvals.py:310-330 | expires a requested row that is overdue and leaves every other row |
| `Approvals.StepKeepsValid` | research_technology/mcp/gateway/approvals.py:53-80 | every transaction keeps the UNIQUE constraints and the agreement of status and timestamps |
| `Approvals.RowsPersist` | research_technology/mcp/gateway/approvals.py:193-215 | rows are never deleted, the request they stand for never changes, and a denied, expired, revoked or consumed row never changes at all |
| `Approvals.DecisionsAreRecorded` | research_technology/mcp/gateway/approvals.py:199-231 | an approved, masked, denied or consumed row was decided by an earlier call before expiry, and carries that call's time, actor, key, comment and arguments |
| `Approvals.ConsumeNeedsDecision` | research_technology/mcp/gateway/approvals.py:247-284 | a consume only succeeds before expiry after an earlier allow or mask decided before expiry; it hands out the approver's arguments when the decision gave any, and always after a mask |
| `Approvals.ConsumedAtMostOnce` | research_technology/mcp/gateway/approvals.py:259-275 | in any run of any calls at any clock readings an approval is consumed at most once |
| `Approvals.CreateIsIdempotent` | research_technology/mcp/gateway/approvals.py:101-112 | repeating a create for the same key and request changes nothing and returns that row if and only if the intent is the same |
| `Approvals.DecideIsIdempotent` | research_technology/mcp/gateway/approvals.py:193-197 | at any later time in any run, repeating a successful decision with its key changes nothing and is answered with the row as decided if and only if that row still stands; otherwise it is refused |
| `Approvals.ConsumedDecisionIsFinal` | research_technology/mcp/gateway/approvals.py:195-200 | once consumed, no decision is accepted |
| `ApprovalRuns.RevokeAnswers` | research_technology/mcp/gateway/approvals.py:295-300 | in every run a revocation succeeds exactly on a row that is requested, approved or masked, expired or not; else nothing changes |
| `ApprovalRuns.RevokedForGood` | research_technology/mcp/gateway/approvals.py:301-308 | from a successful revocation on the row is revoked in every later table, with the actor and the time of the call and the rest as it was |
| `ApprovalRuns.NothingAfterTheEnd` | research_technology/mcp/gateway/approvals.py:259-261 | on a denied, expired, revoked or consumed row no later consume, revocation or new decision succeeds, and nothing changes |
| `ApprovalRuns.ConsumeAnswers` | research_technology/mcp/gateway/approvals.py:254-284 | in every run a consume succeeds exactly on an approved or masked row before its expiry, and records the expiry of an overdue one |
| `ApprovalRuns.ConsumedForGood` | research_technology/mcp/gateway/approvals.py:273-280 | a consumed row stays consumed at the time of the call, with the rest as it was |
| `ApprovalRuns.DecideAnswers` | research_technology/mcp/gateway/approvals.py:175-220 | in every run a decision succeeds exactly as a repetition, or on an open request in time under a free key; every refusal has its one reason, and an overdue request expires |
| `ApprovalRuns.DecisionStands` | research_technology/mcp/gateway/approvals.py:207-231 | a decision is what the row says, field by field, until it is consumed, revoked or expires; a denial stays for good |
| `ApprovalRuns.ExpireAnswers` | research_technology/mcp/gateway/approvals.py:310-330 | a request is expired exactly when it is open and overdue; every other row is answered as it is |
| `ApprovalRuns.CreateAnswers` | research_technology/mcp/gateway/approvals.py:93-140 | a create inserts exactly when its lifetime is allowed and neither key nor request nor id is known, with expiry a whole lifetime after the call, and the request stands in every later table |
| `CircuitBreakers.BreakersAreSimilar` | safeagent_gov/model_gateway/resilience.py:34-57 | after any common history both breakers have the same opening time and probe, equal counts below the threshold while closed, and never probe while open |
| `CircuitBreakers.BreakersAgree` | agent_demo/planners/resilience.py:42-71 | after any common history both report the same state and admit or refuse the next call alike |
| `CircuitBreakers.FailuresAreCounted` | safeagent_gov/model_gateway/resilience.py:46-57 | the gateway's breaker counts exactly the failures since the last success and is closed exactly while they are below the threshold |
| `CircuitBreakers.AdmissionRule` | safeagent_gov/model_gateway/resilience.py:34-44 | both breakers admit a call if and only if failures since the last success are below the threshold, or a full recovery time has passed since the last failure and no probe was admitted since; their reported state follows from the same two quantities of the history |
| `CircuitBreakers.OneProbe` | agent_demo/planners/resilience.py:42-53 | an open breaker that admits a call is half-open and admits no other until an outcome is recorded, however long the wait, in both breakers |
| `CircuitBreakers.ProviderCircuitBreaker.AllowCall` | safeagent_gov/model_gateway/resilience.py:34-44 | answers as the admission rule says of all calls made on this object so far, and keeps the object in the state of its history |
| `CircuitBreakers.ProviderCircuitBreaker.RecordFailure` | safeagent_gov/model_gateway/resilience.py:52-57 | the object is in the state its history with one more failure calls for: open at that reading once the failures since the last success reach the threshold, closed below it |
| `CircuitBreakers.CircuitBreaker.BeforeCall` | agent_demo/planners/resilience.py:42-53 | answers by the same admission rule, though it keeps its count differently for a probe |
| `CircuitBreakers.CircuitBreaker.RecordFailure` | agent_demo/planners/resilience.py:61-66 | the object is in the state its history with one more failure calls for |
| `ResilientPlanning.ResilientPlanner.Plan` | agent_demo/planners/resilience.py:97-116 | the number of planner calls and the outcome, escaping exceptions included, are those that the breaker's history, the answers and the clock call for; the breaker ends half-open if and only if it was so before, or an attempt admitted out of the open state ended in anything that is neither a plan nor a transport failure |
| `ResilientPlanning.EndIsDetermined` | agent_demo/planners/resilience.py:97-116 | history, answers and clock leave one outcome and one number of calls among a plan, a planning error, a refusal, a transport failure and an escaping exception; the final raise is unreachable |
| `ResilientPlanning.StrandedExactly` | agent_demo/planners/resilience.py:97-116 | the condition for a stranded probe over the inputs alone: some reached attempt gives neither a plan nor a transport failure when the failures since the last success have reached the threshold |
| `ResilientPlanning.AnInvalidProbeStrands` | agent_demo/planners/resilience.py:110-113 | a concrete stranding input: three failures, a recovery time, a first answer that is not a plan |
| `ResilientPlanning.AnEscapedProbeStrands` | agent_demo/planners/resilience.py:99-116 | another: an exception that is no PlanningError, such as a connection closed before the response, escapes from the probe |
| `ResilientPlanning.AnInvalidRetryStrands` | agent_demo/planners/resilience.py:108-113 | another: the readmission between two attempts of one call is the probe |
| `ResilientPlanning.ResilientPlanner.PlanAll` | agent_demo/planners/resilience.py:97-116 | every call of a series, those that end in an escaping exception included, ends as the history before it calls for; once a call stranded a probe, every later one is refused without reaching the planner |
| `RateLimit.SlidingWindowLimiter.Check` | backend/rate_limit.py:36-53 | a call is admitted exactly when fewer than `limit` admissions of its key lie in the window of the full history; only an unknown key can be refused for want of room, and only when all max_keys stored keys are live |
| `RateLimit.SlidingWindowLimiter.Evict` | backend/rate_limit.py:41-43 | eviction removes exactly the keys whose last event left the window |
| `RateLimit.WindowsAreBounded` | backend/rate_limit.py:47-52 | no half-open window of the configured length, wherever it ends, holds more than `limit` admissions of a key |
| `RateLimit.RetryIsExact` | backend/rate_limit.py:49-51 | retry_after is positive and exact: at that time the window has room, at no earlier time it has |
| `RateLimit.LaterDeque` | backend/rate_limit.py:41-48 | popping or evicting what the window left behind never changes a later count |
| `RateLimit.EvictedAreDead` | backend/rate_limit.py:41-45 | after an eviction the stored keys are exactly those with an admission in the window |
| `ResponseCache.Cache.Get` | safeagent_gov/model_gateway/service.py:304-314 | a hit is the latest put of the key before its expiry; a miss means none, expired, caching off, or at least max_cache_entries other keys put or hit since |
| `ResponseCache.Cache.Put` | safeagent_gov/model_gateway/service.py:316-324 | stores the response as the latest, evicts the least recently used, and never exceeds the limit |
| `ResponseCache.PutIsFound` | safeagent_gov/model_gateway/service.py:304-324 | a response just put is what the next lookup of its key finds until it expires |
| `ResponseCache.Cache.ClearAll` | safeagent_gov/model_gateway/service.py:125-127 | clearing forgets every put |
| `ResponseCache.TouchKeepsOrder` | safeagent_gov/model_gateway/service.py:313 | moving a touched key to the end keeps the order by recency |
| `ResponseCache.FirstIsStale` | safeagent_gov/model_gateway/service.py:323-324 | the entry evicted from a full cache has had that many other keys touched since its own last touch |
| `ModelGateway.KeepIsFilter` | safeagent_gov/model_gateway/service.py:259-281 | selection keeps exactly the usable candidates, each once, in routing order |
| `ModelGateway.KnownCandidates` | safeagent_gov/model_gateway/service.py:228-246 | only a requested provider can be unknown, it is always a candidate, and without fallback there is at most one candidate |
| `ModelGateway.EligibleCandidates` | safeagent_gov/model_gateway/service.py:248-286 | the loop that passes over a candidate at the first limit it does not meet returns the routed candidates that meet all, or the error that tells an unknown provider, a budget refusal and no provider apart |
| `GatewayOutcomes.RoutingOrder` | safeagent_gov/model_gateway/service.py:228-246 | routing visits the requested provider, then those of the rule for the task type, of the general rule, or the default one, each once and in that order; without fallback only the first |
| `GatewayOutcomes.SelectedExactly` | safeagent_gov/model_gateway/service.py:259-281 | a provider is selected if and only if it is routed to, is enabled, private where request, data class or rule demand it, has every required capability, serves the task type, meets the output, context and latency limits, and its largest bill is within the server's and the request's budget |
| `GatewayOutcomes.PrivateStaysPrivate` | safeagent_gov/model_gateway/service.py:251-267 | in no request that is restricted, private-only or under a private rule is a provider asked that is not privately deployed |
| `GatewayOutcomes.AskedWithinLimits` | safeagent_gov/model_gateway/service.py:259-281 | every provider asked was listed for the request and meets all limits and both budgets |
| `GatewayOutcomes.RefusedExactly` | safeagent_gov/model_gateway/service.py:261-286 | a request is refused before anything is asked exactly when its own provider is unknown or no routed one fits, and for its budget exactly when some routed one met all else |
| `ModelGateway.AuditFailureEndsUnlessCaught` | safeagent_gov/model_gateway/service.py:513-534 | in every request, a failed audit inside an attempt ends it at once if and only if the hook raised neither a timeout nor one of the three provider errors; otherwise it is charged to the provider, and a response can only come from a later attempt |
| `ModelGateway.AnsweredDespiteExactly` | safeagent_gov/model_gateway/service.py:513-547 | for any candidates and any failure of the first attempt's audit, some request is still answered if and only if the failure is caught and another candidate, or for a timeout or transport error another attempt, is left |
| `ModelGateway.AnswersAreAudited` | safeagent_gov/model_gateway/service.py:447-511 | a response that was not cached had both audits of its last attempt recorded |
| `GatewayOutcomes.AttemptsEnd` | safeagent_gov/model_gateway/service.py:445-534 | every attempt succeeds with both audits and its text, or ends in exactly one way by the first thing that went wrong in it |
| `GatewayOutcomes.TriedMeans` | safeagent_gov/model_gateway/service.py:443-547 | another attempt follows exactly a timeout or transport error with attempts left, a breaker that readmits and a recorded retry audit; unavailability and bad responses are not retried; each way a candidate ends has its exact condition |
| `GatewayOutcomes.BreakerHears` | safeagent_gov/model_gateway/service.py:512-535 | the breaker hears every timeout, transport error and bad response as a failure and the answer as a success, nothing of unavailability and escaping exceptions, and is asked once before the first attempt and after every failure that may be retried |
| `ModelGateway.ProbeSticksExactlyWhenSilent` | safeagent_gov/model_gateway/service.py:523-526 | a candidate leaves its breaker half-open if and only if it was so before, or the inputs let an attempt out of the open state that ends in unavailability, aborts, or is a readmitted retry whose audit fails; then every later call is refused until an outcome is recorded |
| `ModelGateway.RequestStrandsExactly` | safeagent_gov/model_gateway/service.py:426-560 | after a whole request over any candidates, the breaker of any provider is half-open if and only if it was so before or the request strands a probe at that provider |
| `ModelGateway.AttemptsAreBounded` | safeagent_gov/model_gateway/service.py:443-444 | attempts never exceed the sum of max_attempts of the candidates reached |
| `ModelGateway.Gateway.TryProvider` | safeagent_gov/model_gateway/service.py:439-547 | the retry loop of one candidate: which attempt it ends at, every call made on its breaker in order, and which counters move |
| `ModelGateway.Gateway.Fallback` | safeagent_gov/model_gateway/service.py:426-560 | candidates are visited in order until one succeeds or something breaks; a candidate is skipped exactly when its breaker refused it |
| `ModelGateway.Gateway.Serve` | safeagent_gov/model_gateway/service.py:426-564 | a response comes from the first admitted candidate that succeeded; fallback_from is exactly the candidates before it |
| `ModelGateway.Gateway.Chat` | safeagent_gov/model_gateway/service.py:367-580 | without candidates the refusal says why; otherwise cache, routing audit and candidates decide; a cached answer is the latest put of its key before expiry, and the cache sees exactly one lookup and one put of an uncached answer; only usable providers are asked; an uncached answer had both audits of its attempt recorded; total = successful + failed and calls = successes + failures hold after every request |

## Left out

- Redis, SQLite, Dramatiq, asyncio and HTTP themselves: transactions are atomic, messages are delivered at least once, calls may time out.
- The cap of 64 retries under contention, except in `create_or_replay` and `claim_next`, where the loop does work: a conflict is a step without effect.
- Peak gauges, latencies, `reset_metrics`, `metrics`, `list`, `dead_letters`, `_get_many`: reporting only.
- DistributedDispatcher.RedisDistributedDispatcher.Submit: runs on a store nobody else touches, with one clock reading for the submission itself; interleavings with other clients are in the protocol. Failures of the background loop, counted as `reconcile_failures`, are not represented.
- DistributedDispatcher.OutboxDue: malformed members are not represented.
- `activate` reads the two set sizes of its pool after WATCH but outside MULTI; a spurious backpressure answer is possible in the model as in the code, and nothing is claimed about when it is given under interference. An activation reads its clock once, for the outbox score.
- Client stages store the pool an `activate` call read first; that a record's pool never changes is proved, the check for it is kept.
- TaskStore.RedisTaskStore.RecoverExpired: stated for a consistent store, which every reachable one is.
- TaskStore.RedisTaskStore.ReconcileStaging: the same restriction.
- ResilientPlanning.ResilientPlanner.Plan: one plan call at a time on its breaker; concurrent calls on a shared breaker are covered by the theorems about the breaker's call sequences.
- WorkerRuntime.ExecuteClaimed: runs on a store nobody else touches, with one clock reading; interference, lease loss and crashes at any point are covered by the protocol theorems. The runtime's own error texts are translated.
- The in-memory `TaskDispatcher`: only its queue order is used, as the reference for `claim_next`.
- Required skills, allowed tools, timeouts and names of sub-agent tasks, the capability search, and the plan's descriptive fields: carried along by the code without a decision of the executor.
- Cancellation of a router run or a gateway request; a cancelled attempt leaves its breaker as an aborted one does.
- ModelGateway.Gateway.Chat: the breakers' answers are inputs, so it holds under interference by other requests; `RequestStrandsExactly` says what the breakers do without it. Between lookup and put the cache is touched by nobody else.
- ModelGateway.ProbeSticksExactlyWhenSilent: speaks of one candidate alone on its breaker; with other requests beside it the breaker's history decides by the same admission rule.
- WatchRefinement.AnswerIsCurrent: says nothing more about a full pool reported by `activate` and a claim whose record is missing, which rest on an earlier read.
- The cost booked after a call and its rounding, token usage, and the concurrency slot of the gateway.
- TaskGuarantees.NoLostWakeUp: for a single state one direction only, since after a raised claim an older wake may still cover the pool; over all runs `WakesSurviveNoRaise` is the equivalence.
- ResponseCache.Cache.Get: the statement on misses is one-sided, since an entry may survive more touches when others expire first.
- Fingerprint collisions, JSON round trips, and the bearer ticket of an approval beyond being stored.
- `get_by_request` and `decide_by_request`: lookups in front of the modelled calls.
- Prompt, taint, task-graph, audit-chain, policy, capability-ledger and Skill modules.
