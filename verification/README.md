# Corpcron in Dafny

A model of the parts of Corpcron in which several programs change shared state at the same time, and
proofs of what holds over every run of them.

**The execution protocol** (`Tasks`, `Leases`, `Protocol`). Any number of control nodes scan one
`tasks` table, take a Redis lock with a time to live per task, claim the row by compare-and-set, run
the task, write history, complete by compare-and-set on the execution id and unlock; users submit,
cancel, enable, edit, delete and run tasks by hand; keys expire, nodes crash or shut down, storage
commands get lost, and other nodes recover stale rows. `Protocol` is one transition system: each SQL
statement, Redis script and critical section is one step, and steps of different parties interleave
freely. On top of it stand

- `Fencing`: who owns a row, over whole runs (`FencedExactly`, `EndedAtMostOnce`, `CancelSticks`,
  `OwnedRowFrozen`);
- `Ownership` and `Locking`: what the lock gives (`MutualExclusion`, `OwnershipKept`) and who may move
  its key (`OnlyRightfulMoves`, `HoldLasts`, `HolderShutsOut`);
- `Slots`, `Offers`, `Rearming` and `Sighting`: when a due slot is completed at most once and a claim
  is free of the ABA problem, exactly, and the four kinds of step that break both;
- `Leaks`: what a finished dispatch leaves behind (`NothingLeft`);
- `Outcomes` and `Requests`: what completions, enables, edits, manual runs, cancels and deletes make of
  every column of a row, however long ago they read it (`CompletionWrites`, `EnableWrites`,
  `RunNowWrites`, `DisabledStays`), and the history records (`EveryFiringIsRecorded`);
- `Progress`: every dispatch can end, no row stays RUNNING, and recovery is never early
  (`EveryDispatchCanEnd`, `NoRowIsStuck`, `RecoveryIsLate`);
- `Retries`: how many failures disable a task, and how long that takes (`BoundedRetries`);
- `Names`: the strings that name locks and executions.

**The lock renewer** (`Renewer`, `LeaseTiming`) and the **cancellation registry** (`Registry`).
**The RPC client pool** (`Breaker`, `ClientPool`), **the thread pool** (`ThreadPool`), **the wire and
the connection** (`Framing`, `Connection`) and **service discovery** (`Discovery`) each have their
own transition system or object, with the theorems beside it.

State that the program updates in place is a class whose methods are proved against functions of the
old state (`TaskTable`, `RedisLocks`, `LockRenewer`, `TaskCancellationRegistry`, `RpcClientPool`,
`DynamicThreadPool`, `FrameReader`, `RpcClient`, `RedisServices`); the run-wide theorems are about
the same functions.

## Properties that the code meets only under a condition

Six expected properties, and the fairness of the round robin, are false of the code as it stands.
Each has concrete inputs or runs that break it and a condition that is proved exact.

The first two are about a row offering a slot: an armed row offers the slot it carries, and an owner
that may still write back offers the slot and the retry count it would write. A step is calm
(`Offers.Calm`, a guard on the state before the step) unless it is an enable or an edit written after
the time it computed has passed, a manual claim of a scheduled row whose slot or retry count is no
longer the one read, or the recovery of an execution claimed from a disabled row.

- *A due slot is completed at most once.* It holds over every calm run (`SlotsNeverRepeat`). From any
  reachable state whose firings are apart, the calm continuations keep them apart if and only if no
  completed slot is offered (`ApartExactly`). Each of the four other kinds of step breaks it:
  `LateEnableRepeats`, `LateEditRepeats`, `StaleManualRepeats`, `DisabledRecoveryRepeats` and, by
  three ordinary failures, `ThirdFailureRepeats`; in the last two every request is written at once.
- *A claim sees the task its scan saw.* It holds over every calm run (`ClaimSeesScannedTask`). From
  any reachable state, the calm continuations keep it if and only if whatever offers the slot of an
  unclaimed scan offers the work scanned (`SightExactly`). The same four kinds of step break it:
  `LateEnableMisleads`, `LateEditMisleads`, `StaleManualMisleads`, `DisabledRecoveryMisleads`.
- *The lease survives delays that sum to less than ttl - period.* The time from one renewal to the
  next contains two batches, or the hand-over and one batch; the exact condition is
  `LeaseTiming.LeaseTimingExactly`.
- *A request passes the breaker's gate only when the circuit is closed.* Exactly when the cooldown is
  positive (`Breaker.GateSoundExactly`).
- *The k-th unary result is the reply to the k-th request.* Exactly when no unary call sends the
  StreamMetrics serial id (`Connection.PairingExactly`).
- *Discovery returns exactly the live endpoints.* Exactly when the names in use give distinct keys
  (`Discovery.DiscoveryExactly`); endpoints with one colon and service names with at most one do
  (`FewColonsAreClear`).
- *Of n calls in a row over n endpoints one starts with each.* Exactly when the 64-bit counter does
  not wrap on the way or n divides 2^64 (`ClientPool.FairTurnsExactly`).

## Assumptions

- Execution ids are new when they are used; the code builds them from task id, milliseconds and a
  per-process sequence number, without the node id. Task ids are never used twice.
- No node id is "recovery:" followed by another's: then, and only then, a dispatch's lock value could
  be a recovery's (`Names.LockValuesDistinct`).
- One clock that never goes back, in milliseconds; SQL compares whole seconds, and the conversion of
  a time to text never fails, so `next_run_at` is never NULL.
- `CronParser::nextExecution` is any function that gives nothing or a strictly later second.
- The stale limit is its least value, 120 s, and the misfire policy is the default `once`.
- A node that restarts has none of its old dispatches running.
- Integers are unbounded, except the round-robin counter (64 bits) and the wire's lengths and serial
  ids (32 bits).

## Model

| member | source | states |
|---|---|---|
| `Tasks.TaskTable.AddTask` | src/mysql/mysql_client.cpp:280-301 | succeeds exactly for a new id, and then inserts a row with the given columns and no owner; any other row stays |
| `Tasks.TaskTable.ClaimTaskExecution` | src/mysql/mysql_client.cpp:616-641 | succeeds exactly when status and, if given, slot match and the slot has come; then the row is RUNNING for that execution, node and second, nothing else changed |
| `Tasks.TaskTable.CompleteTaskExecution` | src/mysql/mysql_client.cpp:664-686 | succeeds exactly when the row is RUNNING for that execution; then writes the update and clears the owner |
| `Tasks.TaskTable.RecoverTaskExecution` | src/mysql/mysql_client.cpp:643-662 | succeeds exactly when the row is RUNNING for the given (or no) execution; then the row is SCHEDULED with no owner, its slot kept |
| `Tasks.TaskTable.CancelTask` | src/mysql/mysql_client.cpp:730-744 | any existing row becomes DISABLED with no owner |
| `Tasks.TaskTable.UpdateTaskDefinition` | src/mysql/mysql_client.cpp:303-325 | refused exactly for missing and RUNNING rows; otherwise definition and schedule are replaced |
| `Tasks.TaskTable.UpdateTaskRuntime` | src/mysql/mysql_client.cpp:708-728 | refused exactly for missing and RUNNING rows; otherwise schedule replaced, definition kept |
| `Tasks.TaskTable.DeleteTask` | src/mysql/mysql_client.cpp:327-340 | removes exactly rows that exist and are not RUNNING |
| `Tasks.TaskTable.AddHistory` | src/mysql/mysql_client.cpp:342-365 | one record per execution id, with node, result, error and times; a second write replaces all but the task |
| `Leases.RedisLocks.Acquire` | src/redis/redis_client.cpp:262-289 | whatever other clients do between the attempts and whichever commands get lost: succeeds exactly at the first answered attempt that finds no live key, and then holds it for the time to live; gives up only after the time limit; refuses empty names and no time to live without an attempt |
| `Leases.RedisLocks.RenewLock` | src/redis/redis_client.cpp:291-305 | extends exactly a live key that carries the caller's value |
| `Leases.RedisLocks.Unlock` | src/redis/redis_client.cpp:307-321 | deletes exactly a live key that carries the caller's value |
| `Registry.TaskCancellationRegistry.RegisterTask` | src/scheduler/task_cancellation_registry.cpp:10-15 | the task's entry becomes the new execution and source |
| `Registry.TaskCancellationRegistry.UnregisterTask` | src/scheduler/task_cancellation_registry.cpp:17-24 | removes the entry only if it names the same execution |
| `Registry.TaskCancellationRegistry.Cancel` | src/scheduler/task_cancellation_registry.cpp:26-32 | signals the registered source, or nothing |
| `Names.ExecutionIdColons` | src/scheduler/task_scheduler.cpp:65-71 | an execution id of colon-free parts has two colons |
| `Names.LockValuesDistinct` | src/scheduler/task_scheduler.cpp:209-211 | lock values of dispatches and of recoveries determine node and execution; the two kinds agree exactly when a node id is "recovery:" and the other's |
| `Fencing.StatementKeepsCore` | src/mysql/mysql_client.cpp:616-744 | every statement keeps the table's invariant: rows well formed, each owned row equal to what its claim made of it, owners equal to what the log says |
| `Fencing.StepKeepsFenced` | src/scheduler/task_scheduler.cpp:148-411 | every step of every party keeps the fencing invariant |
| `Fencing.RunKeepsFenced` | src/scheduler/task_scheduler.cpp:148-411 | so does every run |
| `Fencing.ReachableRowsWellFormed` | src/mysql/mysql_client.cpp:616-744 | in every reachable state a row is RUNNING exactly when execution id, node and start time are all set |
| `Fencing.FencedExactly` | src/mysql/mysql_client.cpp:643-686 | in every reachable state a completion or a recovery naming e changes the table exactly when the latest claim, completion, recovery or cancel of the task is e's claim |
| `Fencing.EndFollowsClaim` | src/mysql/mysql_client.cpp:643-686 | every accepted completion or recovery comes after its own claim with no entry of that task between |
| `Fencing.EndedAtMostOnce` | src/mysql/mysql_client.cpp:643-686 | no claim is ended twice |
| `Fencing.CancelSticks` | src/mysql/mysql_client.cpp:730-744 | whatever completes or recovers after a cancel was claimed after it |
| `Fencing.OwnedRowFrozen` | src/mysql/mysql_client.cpp:303-340 | over any run at whose two ends e owns the row, no column has changed |
| `Fencing.RecoveryRestoresSlot` | src/mysql/mysql_client.cpp:643-662 | a recovery gives the row back as its claim found it, but SCHEDULED |
| `Ownership.NoRegain` | src/redis/redis_client.cpp:262-321 | no step but e's own lock attempt can make e hold the lock |
| `Ownership.StepKeepsProtected` | src/scheduler/task_scheduler.cpp:209-264 | every step keeps: tokens name their dispatch, a holder is named by its node's registry, and by its renewer exactly until a renewal of its lease has failed, and a recovery under lock excludes every holder |
| `Ownership.RunKeepsProtected` | src/scheduler/task_scheduler.cpp:209-264 | so does every run |
| `Ownership.MutualExclusion` | src/scheduler/task_scheduler.cpp:209-264 | in every reachable state at most one dispatch of a task holds its lock; the registry of its node names it, and the renewer does exactly until a renewal of this lease has failed, whatever users cancel |
| `Ownership.OwnershipKept` | src/scheduler/task_scheduler.cpp:386-411 | while e holds the lock and owns the row, no step but e's own completion or a cancel changes any column of it |
| `Ownership.OwnershipOverRun` | src/scheduler/task_scheduler.cpp:386-411 | the same over a whole run |
| `Locking.OnlyRightfulMoves` | src/redis/redis_client.cpp:262-321 | a step changes a lock key only if nobody has it and the step locks it, if it carries the value of the party that renews or unlocks it, or if the key is lost |
| `Locking.LockSets` | src/redis/redis_client.cpp:262-289 | a dispatch gets the lock exactly when the key is free, with its own value and for 60 seconds |
| `Locking.RecoveryLocks` | src/scheduler/task_scheduler.cpp:391-400 | a recovery goes on exactly when it gets the lock, with its own value for 60 seconds, and its unlock deletes that key |
| `Locking.HoldKept` | src/redis/redis_client.cpp:307-321 | no step but time, the key's loss and the holder's own unlock takes the lock from its holder, and only its own renewal moves the expiry |
| `Locking.HoldLasts` | src/redis/redis_client.cpp:291-321 | over any run without its own unlock and without loss of the key, a holder keeps its lock until the expiry it had, or longer |
| `Locking.HolderShutsOut` | src/redis/redis_client.cpp:262-289 | and so long no other dispatch and no recovery of the task gets the lock, from every reachable state |
| `Locking.CancelReachesHolder` | src/scheduler/task_cancellation_registry.cpp:26-32 | in every reachable state a cancel on the node of the lock holder signals exactly that execution, and the loss of its lease does too |
| `Locking.CanceledIsNotQueued` | src/scheduler/task_scheduler.cpp:242-250 | over any run an execution canceled before it was queued is never queued |
| `Slots.StepKeepsBased` | src/scheduler/task_scheduler.cpp:148-411 | every step whatsoever keeps: scanned and completed slots have passed, a running row started no earlier, and an execution that owns its row writes back its own slot or a later one |
| `Offers.StepKeepsApart` | src/scheduler/task_scheduler.cpp:322-365 | every calm step keeps firings apart and completed slots not offered |
| `Offers.StepKeepsSight` | src/scheduler/task_scheduler.cpp:231-241 | every calm step keeps: whatever offers the slot of an unclaimed scan offers the work scanned |
| `Offers.RunKeepsSlots` | src/scheduler/task_scheduler.cpp:148-411 | over every calm run both hold, and an execution that owns its row works from that row |
| `Offers.SlotsNeverRepeat` | src/scheduler/task_scheduler.cpp:322-365 | over every calm run no two accepted, non-shutdown completions carry the same task and next_run_at, whatever locks expire and nodes crash |
| `Offers.ClaimSeesScannedTask` | src/scheduler/task_scheduler.cpp:231-241 | whenever a scheduled claim succeeds after a calm run, definition and retry count are those scanned, though the statement compares neither |
| `Rearming.FireRun` | src/scheduler/task_scheduler.cpp:148-365 | a due row can be dispatched, executed and completed from any state with an idle node and no live key |
| `Rearming.RecoverRun` | src/scheduler/task_scheduler.cpp:386-411 | a row left RUNNING can be recovered once its key has expired |
| `Rearming.RepeatFromOffer` | src/scheduler/task_scheduler.cpp:148-411 | a completed slot that is offered is completed again by calm steps |
| `Rearming.ApartExactly` | src/scheduler/task_scheduler.cpp:148-411 | from every reachable state with apart firings, calm continuations keep slots apart if and only if no completed slot is offered by an armed row or by a manual run that owns its row |
| `Rearming.LateEnableRepeats` | src/rpc/rpc_dispatcher.cpp:562-609 | a run, calm but for one late enable, completes a slot twice |
| `Rearming.LateEditRepeats` | src/rpc/rpc_dispatcher.cpp:491-560 | a run, calm but for one late edit, completes a slot twice |
| `Rearming.StaleManualRepeats` | src/rpc/rpc_dispatcher.cpp:643-732 | a run, calm but for one manual claim of a row that has moved on, completes a slot twice |
| `Rearming.DisabledRecoveryRepeats` | src/mysql/mysql_client.cpp:643-662 | a run, calm but for the recovery of a manual run of a disabled task, completes a slot twice |
| `Rearming.ThirdFailureRepeats` | src/scheduler/task_scheduler.cpp:339-354 | a run with three failures, the last within its due second, completes that slot twice after the recovery of a manual run |
| `Sighting.GiveBackRun` | src/scheduler/task_scheduler.cpp:216-225 | an owner that may give its row back can be brought to, by calm steps, with the slot and retry count it scanned |
| `Sighting.SightExactly` | src/mysql/mysql_client.cpp:616-641 | from every reachable state, in calm continuations every accepted claim sees the definition and retry count that were scanned if and only if whatever offers the slot of an unclaimed scan offers the work scanned |
| `Sighting.LateEditMisleads` | src/rpc/rpc_dispatcher.cpp:491-560 | a run, calm but for one late edit, has a claim accepted on another definition than the one scanned |
| `Sighting.LateEnableMisleads` | src/rpc/rpc_dispatcher.cpp:562-609 | the same with one late enable |
| `Sighting.StaleManualMisleads` | src/rpc/rpc_dispatcher.cpp:643-732 | the same with one manual claim of a row that has moved on |
| `Sighting.DisabledRecoveryMisleads` | src/mysql/mysql_client.cpp:643-662 | the same with the recovery of a manual run of a disabled task, every request written at once |
| `Leaks.StepKeepsTidy` | src/scheduler/task_scheduler.cpp:212-264 | without crash or lost command, every step keeps: what a dispatch has in registry, renewer, lock and row fits where it stands |
| `Leaks.RunKeepsTidy` | src/scheduler/task_scheduler.cpp:212-264 | so does every run |
| `Leaks.MemoryIsClean` | src/scheduler/task_scheduler.cpp:216-264 | after any run, whatever crashed or got lost, no registry and no renewer names an execution that has ended or died |
| `Leaks.NothingLeft` | src/scheduler/task_scheduler.cpp:212-264 | after any such run a dispatch that has ended, by whatever path, is in no registry, no renewer, no lock and no row |
| `Outcomes.EveryFiringIsRecorded` | src/scheduler/task_scheduler.cpp:305-364 | after any run without crash or lost command every accepted completion has its history record, with the same result |
| `Outcomes.CompletionWrites` | src/scheduler/task_scheduler.cpp:322-364 | after any calm run an accepted completion writes, column by column: a success is SCHEDULED at the next cron time, or DISABLED at its end if there is none, with retry count 0; a failure counts one more and is SCHEDULED at its end plus the backoff, or DISABLED at its end when the count reaches max_retries; a shutdown leaves slot and count; last_run_at is the end, the owner goes, the definition stays |
| `Outcomes.GiveBackWrites` | src/scheduler/task_scheduler.cpp:216-225 | in every reachable state a dispatch that was claimed and not executed gives the row back with the slot, last run and retry count it scanned |
| `Outcomes.OutcomeIsCarried` | src/scheduler/task_scheduler.cpp:283-320 | over any run the outcome on its way to the table has the result and the second of the moment the execution finished |
| `Outcomes.DecisionIsCarried` | src/scheduler/task_scheduler.cpp:322-338 | and the next time and the shutdown flag of the moment of its decision |
| `Outcomes.RecordStays` | src/mysql/mysql_client.cpp:342-365 | over any run the history record of a dispatched execution keeps its result |
| `Outcomes.ManualRecordStays` | src/rpc/rpc_dispatcher.cpp:704-717 | so does the record of a manual run |
| `Requests.RequestsExactly` | src/rpc/rpc_dispatcher.cpp:491-686 | which submits, enables, edits and manual runs get past their checks |
| `Requests.EnableWrites` | src/rpc/rpc_dispatcher.cpp:562-609 | over any run between read and write: refused exactly if the row is gone or RUNNING by then, otherwise SCHEDULED at the computed time with the last run and retry count that were read |
| `Requests.EditWrites` | src/rpc/rpc_dispatcher.cpp:491-560 | the same with the new definition, status and time; the owner columns are not written |
| `Requests.RunNowClaims` | src/rpc/rpc_dispatcher.cpp:658-686 | over any run between read and claim: accepted exactly if the row still has the status that was read, and then RUNNING for this execution, node and second |
| `Requests.RunNowWrites` | src/rpc/rpc_dispatcher.cpp:688-717 | over any run between finish and completion: if the manual run still owns the row, status, slot and retry count go back to what was read and the last run is the second it finished; otherwise nothing changes |
| `Requests.SubmitInserts` | src/rpc/rpc_dispatcher.cpp:254-300 | in every reachable state a submit inserts a scheduled row that never ran and has no owner, under an id that has none |
| `Requests.CancelWrites` | src/mysql/mysql_client.cpp:730-744 | a cancel disables the row and takes it from its owner; every other column and row stays |
| `Requests.DisabledStays` | src/mysql/mysql_client.cpp:616-744 | over any run a disabled row stays exactly as it is until somebody enables, edits, runs or deletes it, whatever old executions do |
| `Requests.DeleteIsFinal` | src/rpc/rpc_dispatcher.cpp:611-641 | a delete removes the row exactly if it is not RUNNING, and over any run it never comes back |
| `Progress.DueExactly` | src/mysql/mysql_client.cpp:572-590 | a scan takes exactly the scheduled rows whose second has come |
| `Progress.StaleExactly` | src/mysql/mysql_client.cpp:592-614 | a recovery takes exactly the running rows that started 120 seconds ago or earlier |
| `Progress.RecoveryIsLate` | src/scheduler/task_scheduler.cpp:386-411 | in every reachable state an accepted recovery ends a claim at least two lock lifetimes old |
| `Progress.EveryDispatchCanEnd` | src/scheduler/task_scheduler.cpp:148-365 | from every reachable state every dispatch that no crash has stopped can be brought to its end by its own, calm steps |
| `Progress.RecoveryCanEnd` | src/scheduler/task_scheduler.cpp:391-410 | a recovery that has the lock can always go on to its end, and then its value is on no live key |
| `Progress.NoRowIsStuck` | src/scheduler/task_scheduler.cpp:386-411 | from every reachable state every RUNNING row can become SCHEDULED with all other columns as they are |
| `Progress.RefusedIsOut` | src/scheduler/task_scheduler.cpp:231-240 | over any run a dispatch whose claim was refused or got no answer neither claims nor completes anything again |
| `Retries.BoundedRetries` | src/scheduler/task_scheduler.cpp:339-354 | from retry count 0, over any run in which nobody touches the task and none of its executions succeeds, the retry count is the number of executions accepted since, the task is disabled exactly at the m-th, and before that its slot has moved by at least the total backoff |
| `Retries.WaitsGrow` | src/scheduler/task_scheduler.cpp:48-51 | backoffs never shrink and lie in 5..300 seconds |
| `Retries.TotalWaitClosedForm` | src/scheduler/task_scheduler.cpp:48-51 | the sum of the first k backoffs is 5(2^k - 1) up to k = 6 and 315 + 300(k - 6) after |
| `Protocol.RetryDelay` | src/scheduler/task_scheduler.cpp:48-51 | a backoff is at least 5 and at most 300 seconds |
| `Renewer.LockRenewer.Stop` | src/scheduler/task_scheduler.cpp:531-540 | clears the leases of a running renewer, cancels nothing |
| `Renewer.LockRenewer.Add` | src/scheduler/task_scheduler.cpp:542-550 | the key's lease becomes the new one, due a period later |
| `Renewer.LockRenewer.Remove` | src/scheduler/task_scheduler.cpp:552-561 | removes the key's lease only if it carries the same value |
| `Renewer.LockRenewer.NextWake` | src/scheduler/task_scheduler.cpp:571-574 | the earliest renewal time of any lease |
| `Renewer.LockRenewer.CollectDue` | src/scheduler/task_scheduler.cpp:581-587 | copies of exactly the due leases, one per key |
| `Renewer.LockRenewer.Settle` | src/scheduler/task_scheduler.cpp:598-614 | table and cancellations after a batch are those of the batch's specification; every newly canceled source belongs to a registered lease with the key and value of a lost one |
| `Renewer.SettledElsewhere` | src/scheduler/task_scheduler.cpp:598-614 | settling a batch leaves every key outside it alone |
| `Renewer.SettledAt` | src/scheduler/task_scheduler.cpp:598-614 | a lease replaced meanwhile is left alone, a lost one goes, any other is re-armed |
| `Renewer.LostExactly` | src/scheduler/task_scheduler.cpp:590-603 | a lease of the batch counts as lost exactly when its own renewal failed |
| `Renewer.CanceledExactly` | src/scheduler/task_scheduler.cpp:598-614 | a source is canceled if and only if a renewal failed whose key the table at relock holds with the same value and that source |
| `Renewer.RenewerIdentity` | src/scheduler/task_scheduler.cpp:581-615 | whatever is added and removed while the mutex is free, a lease of the batch whose key and value are no longer registered changes and cancels nothing; one that is still registered is canceled and erased if its own renewal failed, and otherwise re-armed a third of its lifetime later and not canceled |
| `Renewer.CanceledOnlyAfterFailure` | src/scheduler/task_scheduler.cpp:563-616 | over every interleaving, every lease whose source the renewer canceled had a failed renewal of its own key and value |
| `LeaseTiming.TimelyKeysLast` | src/scheduler/task_scheduler.cpp:563-619 | while the longest gap is below the time to live, no renewal of any number of rounds finds the key expired |
| `LeaseTiming.WorstCaseExpires` | src/scheduler/task_scheduler.cpp:563-619 | otherwise rounds within the same bounds let it expire |
| `LeaseTiming.LeaseTimingExactly` | src/scheduler/task_scheduler.cpp:563-619 | so the key never expires if and only if max(hand-over, batch) + max(1 s, ttl/3) + wake-up + batch < ttl, in seconds of ttl |
| `LeaseTiming.SumOfDelaysIsNotEnough` | src/scheduler/task_scheduler.cpp:563-619 | delays that sum to less than time to live minus period can still lose the lease |
| `Breaker.Corrected` | src/rpc/rpc_client_pool.cpp:14-28 | corrected options are in range (threshold and idle limit at least 1, no negative cooldown, a positive health-check timeout), and options in range stay as they are |
| `Breaker.RunKeepsInv` | src/rpc/rpc_client_pool.cpp:62-94 | over every interleaving of callers: flag and state agree, probes are spaced, refused callers' samples precede the end of the cooldown |
| `Breaker.NeverStuck` | src/rpc/rpc_client_pool.cpp:162-186 | half-open exactly while a probe is marked in flight, with a caller whose turn it is to end it; not closed implies threshold failures; ending a probe never leaves it half-open |
| `Breaker.ClosedExactly` | src/rpc/rpc_client_pool.cpp:162-186 | in every reachable state the circuit is closed exactly when fewer failures than the threshold were recorded since the last success |
| `Breaker.ProbedExactly` | src/rpc/rpc_client_pool.cpp:73-86 | in every reachable state a caller gets the probe exactly if the circuit is open and a cooldown had passed since the last recorded failure when it sampled the clock |
| `Breaker.GatedExactly` | src/rpc/rpc_client_pool.cpp:275-281 | with a cooldown, in every reachable state a refused caller passes the gate exactly if the circuit is closed |
| `Breaker.ProbeSpacing` | src/rpc/rpc_client_pool.cpp:73-94 | the i-th and the j-th reservation are at least j - i cooldowns apart, under any late outcomes |
| `Breaker.ProbesDoNotOverlap` | src/rpc/rpc_client_pool.cpp:73-94 | while all probes in flight are younger than the cooldown there is at most one |
| `Breaker.NoCooldownPassesOpen` | src/rpc/rpc_client_pool.cpp:267-281 | without a cooldown a request passes the gate of an open circuit |
| `Breaker.GateSoundExactly` | src/rpc/rpc_client_pool.cpp:267-281 | requests pass only a closed circuit or after their own successful probe, over all runs, if and only if the cooldown is positive |
| `ClientPool.RpcClientPool.constructor` | src/rpc/rpc_client_pool.cpp:14-28 | an empty pool with corrected options |
| `ClientPool.RpcClientPool.StateFor` | src/rpc/rpc_client_pool.cpp:51-60 | the endpoint's state, created closed if it was never seen |
| `ClientPool.RpcClientPool.IsHealthyEnough` | src/rpc/rpc_client_pool.cpp:62-71 | the breaker's health predicate, states unchanged |
| `ClientPool.RpcClientPool.ReserveHalfOpenProbe` | src/rpc/rpc_client_pool.cpp:73-86 | succeeds exactly for an open circuit past its cooldown with no probe, and then marks one |
| `ClientPool.RpcClientPool.RecordSuccess` | src/rpc/rpc_client_pool.cpp:162-169 | the endpoint is closed with no failures |
| `ClientPool.RpcClientPool.RecordFailure` | src/rpc/rpc_client_pool.cpp:171-186 | one more failure; at the threshold the circuit opens for a cooldown |
| `ClientPool.RpcClientPool.FinishHalfOpenProbe` | src/rpc/rpc_client_pool.cpp:88-94 | success or failure is recorded for the endpoint |
| `ClientPool.RpcClientPool.Borrow` | src/rpc/rpc_client_pool.cpp:137-149 | takes the connection given back last, or a new one |
| `ClientPool.RpcClientPool.Release` | src/rpc/rpc_client_pool.cpp:151-160 | keeps a reusable connection while there is room, never more than the limit |
| `ClientPool.RpcClientPool.OrderedCandidates` | src/rpc/rpc_client_pool.cpp:188-213 | the specified order of candidates, the counter advanced modulo 2^64, no endpoint's state changed |
| `ClientPool.CandidatesExactly` | src/rpc/rpc_client_pool.cpp:188-213 | the candidates are exactly the given non-empty endpoints that are healthy enough, each once |
| `ClientPool.CandidatesInOrder` | src/rpc/rpc_client_pool.cpp:201-210 | the candidates follow the endpoints round, starting from the one whose turn it is |
| `ClientPool.UniqueInOrder` | src/rpc/rpc_client_pool.cpp:189-196 | the endpoints are taken in the order of their first occurrence |
| `ClientPool.FairTurnsExactly` | src/rpc/rpc_client_pool.cpp:188-213 | with all endpoints healthy, of n calls in a row over n endpoints exactly one gets candidates that start with each, if and only if the counter does not wrap on the way or n divides 2^64 |
| `ThreadPool.Corrected` | src/common/thread_pool.cpp:9-17 | 1 <= init <= max |
| `ThreadPool.DynamicThreadPool.constructor` | src/common/thread_pool.cpp:9-35 | the initial threads are started, listed and counted |
| `ThreadPool.DynamicThreadPool.StartWorker` | src/common/thread_pool.cpp:106-110 | one more ready thread, listed and counted |
| `ThreadPool.DynamicThreadPool.Enqueue` | src/common/thread_pool.cpp:56-63 | accepts exactly a non-empty task while not stopping and below the bound, and appends it |
| `ThreadPool.DynamicThreadPool.AdjustPoolSize` | src/common/thread_pool.cpp:112-149 | drops exactly the finished threads; with too long a backlog it starts min(2, max - current) threads, or as many as can be started, and otherwise none |
| `ThreadPool.DynamicThreadPool.EnterLoop` | src/common/thread_pool.cpp:72-94 | from the loop's top: take the first task, leave, or wait |
| `ThreadPool.DynamicThreadPool.LeaveWait` | src/common/thread_pool.cpp:78-94 | out of the wait: shrink, leave, go round, or take the first task |
| `ThreadPool.StepKeepsInv` | src/common/thread_pool.cpp:41-149 | every step keeps the pool's invariant |
| `ThreadPool.Conservation` | src/common/thread_pool.cpp:41-149 | over every run accepted = started + queued in order, counters count, threads stay between init and max until stop, the queue keeps its bound |
| `ThreadPool.AcceptsExactly` | src/common/thread_pool.cpp:56-63 | a task is accepted and queued exactly while the pool is not stopping and the queue is below its bound |
| `ThreadPool.GrowthExactly` | src/common/thread_pool.cpp:128-140 | an adjustment can start k threads exactly if k <= 2, the backlog is too long and the maximum is kept |
| `ThreadPool.GrowsToMax` | src/common/thread_pool.cpp:112-149 | from any state with too long a backlog, adjustments can bring the pool to its maximum |
| `ThreadPool.ShrinksExactly` | src/common/thread_pool.cpp:76-86 | a thread whose wait ends with nothing to do leaves exactly if another one waits and there are more than the initial threads |
| `ThreadPool.ShrinksToInit` | src/common/thread_pool.cpp:69-104 | an idle pool can shrink to its initial size |
| `ThreadPool.Drained` | src/common/thread_pool.cpp:41-54 | when stop can return nothing is queued, every accepted task was started and every thread has finished |
| `ThreadPool.SomeThreadCanStep` | src/common/thread_pool.cpp:69-104 | with a task queued, or a stop that cannot return yet, some thread can take a step |
| `ThreadPool.StopReturns` | src/common/thread_pool.cpp:41-54 | once stop has begun the threads' steps are bounded, and when none is left stop can return |
| `Framing.RoundTrip` | include/corpcron/rpc/protocol.hpp:53-95 | an encoded frame, whatever follows it, decodes to itself and its length |
| `Framing.EncodeLayout` | include/corpcron/rpc/protocol.hpp:55-66 | on the wire stand the length and the serial id, the highest byte first, and then the payload |
| `Framing.DecodeLayout` | include/corpcron/rpc/protocol.hpp:78-95 | verdict, size, serial id and payload as plain arithmetic of the first eight bytes and the limits 4 and 4194304 |
| `Framing.StreamMetricsBytes` | include/corpcron/rpc/protocol.hpp:53-95 | a StreamMetrics request is 00 00 00 04 00 00 00 1b, both ways |
| `Framing.OnlyEncodings` | include/corpcron/rpc/protocol.hpp:78-95 | what decodes is an encoding of the result |
| `Framing.PartIsIncomplete` | include/corpcron/rpc/protocol.hpp:78-95 | a proper part of a frame is incomplete and nothing else |
| `Framing.VerdictIsFinal` | include/corpcron/rpc/protocol.hpp:78-95 | more bytes do not change a verdict |
| `Framing.TryEncode` | include/corpcron/rpc/protocol.hpp:53-68 | succeeds exactly for payloads within the limit, with length and serial id written highest byte first and then the payload |
| `Framing.FrameReader.Feed` | src/net/tcp_server.cpp:195-213 | one read and its decode loop yield the specified frames and close exactly on an invalid one |
| `Framing.ParseExactly` | src/net/tcp_server.cpp:196-213 | any bytes are the encodings of the frames taken from them and a rest without a whole frame in front, and the connection is closed exactly when that rest can never become one |
| `Framing.ParseMore` | src/net/tcp_server.cpp:195-213 | decoding a prefix and then the rest with more bytes is decoding both together |
| `Framing.ChunkingDoesNotMatter` | src/net/tcp_server.cpp:180-261 | frames and verdict are the same for every way of cutting the stream into reads |
| `Framing.ParseInvertsEncoding` | include/corpcron/rpc/protocol.hpp:53-95 | a stream of encoded frames decodes to those frames with nothing left |
| `Framing.RecvExact` | src/rpc/rpc_client.cpp:85-100 | succeeds exactly when the stream and the recv results hold enough bytes, with exactly the next ones, however recv cuts them |
| `Connection.RpcClient.Call` | src/rpc/rpc_client.cpp:230-286 | succeeds exactly when connected or connecting, the request fits and is sent and a whole valid frame arrives; then returns that frame and leaves the rest unread; otherwise there is no connection afterwards |
| `Connection.StepKeepsInv` | src/rpc/rpc_client.cpp:230-286 | every step of client, server and network keeps: one request or one reply is under way, whole, or nothing is |
| `Connection.ResponsePairing` | src/rpc/rpc_client.cpp:230-286 | on every run without unary StreamMetrics the k-th result is the one reply to the k-th request, and nothing is left unread between calls |
| `Connection.LeftoverIsTaken` | src/rpc/rpc_dispatcher.cpp:141-147 | after a unary StreamMetrics the next call returns a leftover frame |
| `Connection.PairingExactly` | src/rpc/rpc_client.cpp:316-358 | results are paired on all runs if and only if no unary call uses StreamMetrics |
| `Discovery.RedisServices.RegisterService` | src/redis/redis_client.cpp:202-218 | sets the registration's key and adds the endpoint to the set; refuses empty names and no time to live |
| `Discovery.RedisServices.UnregisterService` | src/redis/redis_client.cpp:220-231 | removes the endpoint from the set, and its key |
| `Discovery.RedisServices.DiscoverServices` | src/redis/redis_client.cpp:237-260 | returns each member whose key exists once, and prunes exactly the others |
| `Discovery.FewColonsAreClear` | src/redis/redis_client.cpp:202-205 | endpoints with one colon and services with at most one give distinct keys |
| `Discovery.StepKeepsInv` | src/redis/redis_client.cpp:202-260 | with distinct keys every step keeps registrations, keys and sets in agreement |
| `Discovery.SharedKeyRevives` | src/redis/redis_client.cpp:202-218 | two registrations with one key: an expired endpoint is still found |
| `Discovery.SetKeyIsOverwritten` | src/redis/redis_client.cpp:202-218 | a registration on another service's set key hides a live endpoint |
| `Discovery.DiscoveryExactly` | src/redis/redis_client.cpp:202-260 | over all interleavings discovery returns exactly the live endpoints if and only if the keys are distinct |

## Left out

- Offers.Calm: is proved sufficient step by step and, for what it keeps, exact from every reachable state; of the steps it excludes, each kind is shown to break the properties, not each single step.
- Protocol.RetryDelay: does not model overflow of the 32-bit retry count.
- Mutual exclusion that includes manual runs: they take no lock, and the code does not give it.
- The misfire policy `skip`: it writes without comparing next_run_at.
- `RpcClientPool::call` as one sequential method, how `parseEndpoint` splits a name, and `clear`: what a call does to an endpoint, also when its name does not parse, is the transition system of `Breaker`.
- `RpcClient::callStream` frame by frame: the model keeps that every exit drops the connection.
- `handleExecuteTask`, the worker's side of a task, and the handlers themselves.
- A constructor of the thread pool that fails to start its first threads, and tasks that never end.
- Paging queries, connection pools, reconnects, schema migration and error classes of MySQL and Redis; a failed command is one that reports failure whether or not it took effect.
- Protobuf payloads, authentication, interceptors, metrics, logging, configuration, start-up and the Qt client.
- The epoll loop and the coroutine plumbing of the server.
- The cron library: only that a next time, if any, is later.
