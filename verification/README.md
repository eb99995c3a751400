# Execution lifecycle, credential inheritance and activation of n8n, in Dafny

This project models the parts of n8n's server (`packages/cli`) in which several activities work on
shared state at once, or in which a cache or a memo must agree with something simpler, and proves what
these parts keep. Each module follows one piece of the source:

- `ParentResume`: finished sub-workflows patch and resume the execution that waits for them. Any number
  of children and timers race on one database row; every database access is one atomic step.
- `WaitTimers`: the tracker's map of timers for waiting executions.
- `ConcurrencyQueues`: the counter and the waiting list that gate production executions.
- `ActiveExecutions`: one process's table of runs. A run object is known by a generation number, because
  the settle handler of an earlier object still runs after a resume has overwritten the table entry.
- `Cluster`: several such processes that share the rows of one database.
- `CredentialTypes`, `CredentialsOverwrites`: the list of ancestors that grows while it is walked, and the
  overwrite map that is flattened in place through a memo.
- `InvalidCredentials`: the repair pass over credential references, with its two caches.
- `NodeGroups`: the walk that validates node groups.
- `Webhooks`: registration with rollback, while other workflows change the same table and every step can fail.
- `ActivationRetry`: retries of failed activations with growing delays.
- `Deadlines`: timeouts, nested sub-workflow deadlines, and the stop timer of suspended executions.

Where the source updates objects in place, the module has a class whose methods are proved to change the
state as the module's functions say; the properties are then proved about those functions, for every
input, run or interleaving.

## Where the code does less than its comments or documentation say

Each of these is proved, most of them by a concrete run or input next to the exact condition under which the
promise does hold:

- A child's recorded error can be masked by a sibling's result, because the parent is written without a
  condition and resumed from an earlier read (`ErrorStaysExactly`, `StaleWriteMasksError`,
  `StaleResumeMasksError`). Children that do not overlap never mask it (`ExclusiveIsSerial`, `SerialKeepsErrors`).
- A child of an earlier wait can resume a later one with a head that no child has written on
  (`RestartsPatchedExactly`, `LateActorResumesUnpatchedHead`).
- A wait that a webhook or a child ends keeps its timer, which can end the next wait too early
  (`TimersMatchExactly`, `LeftTimerEndsNextWait`).
- `stopTracking` clears the timers but keeps the entries, so the process never arms those executions again when it
  becomes leader again (`AllArmedExactly`, `AbandonedForGood`, `SteppingDownAbandons`).
- Removing an execution from the queue while others are queued lets one through although no slot is free
  (`LimitRespectedExactly`, `RemoveExceedsLimit`).
- `shutdown` disables the concurrency control before it calls `removeAll`, which then does nothing: queued
  executions stay queued (`ShutdownLeavesQueue`). With the control enabled, `removeAll` takes only every second
  execution out and lets the others through (`RemoveAllEmptiesQueue`), and may leave an execution that is queued
  twice (`DrainEmptiesExactly`, `DrainCanLeaveOne`).
- A run that suspends itself during a shutdown without cancellation keeps its entry, and the wait does not
  end (`ShutdownEndsExactly`, `SuspendingKeepsShutdownWaiting`).
- A flattened entry can lack fields of its ancestors (`EntryIsCompleteExactly`, `EntryCanStayPartial`), and with
  several parents the two ways of reading overwrites prefer different ones (`LookupsAgreeExactly`,
  `SeveralParentsDisagree`).
- References to one missing credential id under different names are all answered with the first
  (`CachedEqualsIndependentExactly`, `InconsistentNamesGoWrong`).
- A node of a group whose name is empty may be in a second group (`EmptyNameSharesNodes`).
- On start-up a failing database insert is ignored and `addWebhooks` answers `true` (`TrueOwnsExactly`,
  `StartUpCanMissAWebhook`).
- Queuing a workflow while one of its retries is under way can leave a timer that removal does not clear
  (`AtMostOneExactly`, `QueuedAgainLeavesATimer`).
- With a maximum timeout that is not positive, main workflows run unbounded and sub-workflows do not
  (`MainDeadline`); and the soft deadline, unlike the stop timer, starts anew on every resume
  (`SoftDeadlineAndStop`).

## Model

| member | source | states |
|---|---|---|
| ParentResume.ResumesNeverExceedWaits | packages/cli/src/active-executions.ts:119-136 | For any number of actors and any interleaving, resumes never outnumber the times the row entered `waiting`, and each finished wait was ended exactly once, by one resume or one cancellation |
| ParentResume.EndedWaitIsLeftAlone | packages/cli/src/workflow-helpers.ts:552-554 | Once a wait is over and nobody is between reading and writing the parent, nothing that late children do changes its stack or resumes it |
| ParentResume.WithRetry | packages/cli/src/wait-tracker.ts:235-249 | Exactly the retryable failures before the last attempt are retried, at most `maxAttempts` attempts are made, and the sleeps add up to 100·(2^(n-1)-1) ms |
| ParentResume.AttemptsStayWithinLimit | packages/cli/src/wait-tracker.ts:201-219 | In every interleaving each step of each child is attempted at most three times, and a timer's resume once |
| ParentResume.ChildThatHasNotEndedLeavesParentAlone | packages/cli/src/wait-tracker.ts:197-199 | In every interleaving, over any number of waits: only timers and children whose run has completed ever patch or resume the parent; a child without a run or still waiting stops when its promise settles, and no step of it changes the row |
| ParentResume.CompletedChildGoesOn | packages/cli/src/workflow-helpers.ts:543-545 | A completed child with an error or an output updates the parent first, one with neither resumes it directly |
| ParentResume.PatchChangesFirstEntryOnly | packages/cli/src/workflow-helpers.ts:563-577 | An error goes into the metadata of the first entry, and only without one does the output replace its data; every other field and entry stays |
| ParentResume.RestOfStackIsKept | packages/cli/src/workflow-helpers.ts:556-582 | In every interleaving of one wait, the entries behind the first are the same on the row, in all that actors have read, and in what the parent restarts with |
| ParentResume.FailuresStartOver | packages/cli/src/wait-tracker.ts:201-219 | A passing failure starts the step over with the next attempt, the third one or any other failure gives up, and failures change nothing on the row |
| ParentResume.TimerFailsForGood | packages/cli/src/wait-tracker.ts:104-106 | The resume by the parent's own timer has a single attempt |
| ParentResume.SpawnedBegins | packages/cli/src/wait-tracker.ts:191-197 | A child starts out running, a timer with its first attempt to resume |
| ParentResume.AccessLeadsOn | packages/cli/src/wait-tracker.ts:120-168 | What each read and write leads to: a finished parent is refused, any other is read, and only a waiting one is restarted, with what was read; each step counts its attempts anew |
| ParentResume.OthersAreUntouched | packages/cli/src/wait-tracker.ts:191-226 | No actor is changed by what others do |
| ParentResume.ParentMoves | packages/cli/src/active-executions.ts:119-136 | The parent waits or ends only from running, with its stack kept, and is cancelled only from waiting |
| ParentResume.UndisturbedChildResumesParent | packages/cli/src/wait-tracker.ts:191-226 | A completed child that nobody disturbs restarts its waiting parent with the error or the output on the first entry and the rest of the stack as it was |
| ParentResume.RestartsPatchedExactly | packages/cli/src/workflow-helpers.ts:538-583 | In every interleaving, over any number of waits and whoever resumes: the parent restarts with the output or the error of a completed child if and only if, when the resumer last read the row, a child had written on that stack since the parent put it there; otherwise it restarts with its own head |
| ParentResume.ResumedHeadCarriesChildResult | packages/cli/src/workflow-helpers.ts:538-583 | As a consequence that needs no history: if no child that updated the row in one wait goes on to resume a later one, every parent resumed by a child with something to report restarts with a completed child's result |
| ParentResume.ResumedHeadWithinOnePeriod | packages/cli/src/wait-tracker.ts:191-219 | Within one waiting period this holds for every interleaving, and the head is never the one from before the children |
| ParentResume.LateActorResumesUnpatchedHead | packages/cli/src/wait-tracker.ts:213-219 | A run for the other side: a child of an earlier wait resumes a later one with an untouched head |
| ParentResume.EndedChildMeansResumedOnce | packages/cli/src/wait-tracker.ts:191-226 | As soon as one completed child has ended without running out of attempts, whatever timers and siblings do, the row is no longer `waiting` and was resumed exactly once, unless a user cancelled it |
| ParentResume.ErrorStaysExactly | packages/cli/src/workflow-helpers.ts:563-582 | From the first recorded child error on, the error stays on the parent and goes into the resumed run if and only if every actor that puts a stack back afterwards has read the row after that error, failed children writing their own error excepted |
| ParentResume.ExclusiveIsSerial | packages/cli/src/workflow-helpers.ts:547-582 | Schedules in which nobody puts a stack back between another actor's read and its put-back are serial |
| ParentResume.SerialKeepsErrors | packages/cli/src/workflow-helpers.ts:563-577 | In serial schedules no error is ever masked |
| ParentResume.SerialRecordsFailures | packages/cli/src/workflow-helpers.ts:563-571 | In serial schedules every failed child that has updated the waiting parent has left an error on it |
| ParentResume.StaleWriteMasksError | packages/cli/src/workflow-helpers.ts:579-582 | A run in which a sibling's unconditional write drops a recorded error before the parent restarts |
| ParentResume.StaleResumeMasksError | packages/cli/src/wait-tracker.ts:125-155 | A run in which the resume itself writes back a stack read before the error |
| WaitTimers.AllArmedExactly | packages/cli/src/wait-tracker.ts:82-118 | Every execution that the tracker knows keeps an armed timer throughout a run if and only if tracking never stops while one is known |
| WaitTimers.PolledExecutionsAreArmed | packages/cli/src/wait-tracker.ts:98-109 | As long as that has not happened, every execution that a poll finds has an armed timer afterwards: the one it had, or one for the end of the wait that was found |
| WaitTimers.StoppedIsDisarmed | packages/cli/src/wait-tracker.ts:112-122 | Stopping a known execution disarms its timer and forgets it and touches no other; starting one forgets it and leaves its timer armed |
| WaitTimers.FiredIsGone | packages/cli/src/wait-tracker.ts:104-122 | A timer that goes off disappears together with the entry of its execution, and nothing else does |
| WaitTimers.StoppedTrackingDisarms | packages/cli/src/wait-tracker.ts:252-261 | Stopping to track disarms exactly the timers that entries know, if tracking ever began, and forgets nothing |
| WaitTimers.TimersMatchExactly | packages/cli/src/wait-tracker.ts:98-122 | No timer is ever armed for an earlier wait than the one its execution is in, throughout a run of tracker and rows, if and only if no execution starts to wait again while a timer of it is armed |
| WaitTimers.PolledInTime | packages/cli/src/wait-tracker.ts:98-109 | In runs without that and without a stop, a poll leaves every execution it found with a timer for the end of its current wait |
| WaitTimers.LeftTimerEndsNextWait | packages/cli/src/wait-tracker.ts:120-155 | A run in which a wait is ended by something else, its timer stays, and goes off in the next, longer wait, which it ends too early |
| WaitTimers.AbandonedForGood | packages/cli/src/wait-tracker.ts:98-108 | An execution that is known without an armed timer is skipped by every later poll, in every run, until something else starts or stops it |
| WaitTimers.SteppingDownAbandons | packages/cli/src/wait-tracker.ts:252-261 | Stopping to track leaves such an execution behind |
| WaitTimers.WaitTracker.GetWaitingExecutions | packages/cli/src/wait-tracker.ts:82-110 | The loop arms one timer per execution not known yet, at the instant the row names |
| WaitTimers.WaitTracker.Stop | packages/cli/src/wait-tracker.ts:112-118 | Deletes the entry and the timer it knows, if there is one |
| WaitTimers.WaitTracker.GoOff | packages/cli/src/wait-tracker.ts:104-122 | A timer that goes off removes the entry of its execution |
| WaitTimers.WaitTracker.StopTracking | packages/cli/src/wait-tracker.ts:252-261 | Clears exactly the timers of the entries, in any order, and keeps the entries |
| ConcurrencyQueues.AlwaysConserved | packages/cli/src/concurrency/concurrency-queue.ts:21-74 | In every run free slots, used slots and waiting executions add up to the limit, and nobody waits beside a free slot |
| ConcurrencyQueues.LimitRespectedExactly | packages/cli/src/concurrency/concurrency-queue.ts:44-54 | The limit is respected throughout a run if and only if no execution is removed from the queue while another one is queued |
| ConcurrencyQueues.RemoveExceedsLimit | packages/cli/src/concurrency/concurrency-queue.ts:44-54 | A full queue on which a removal lets another execution through beside the running one |
| ConcurrencyQueues.DrainLetsEverySecondThrough | packages/cli/src/concurrency/concurrency-control.service.ts:208-214 | Emptying a queue in which every execution is queued once ends with an empty queue, and lets exactly every second execution through |
| ConcurrencyQueues.DrainEmptiesExactly | packages/cli/src/concurrency/concurrency-control.service.ts:208-214 | On every queue, it ends empty if and only if the ids still queued at their turn are at least half as many as the queued executions; so never with more than twice as many executions as ids |
| ConcurrencyQueues.DrainCanLeaveOne | packages/cli/src/concurrency/concurrency-control.service.ts:208-214 | A queue with one execution queued twice that is not emptied |
| ConcurrencyQueues.NobodyOvertakes | packages/cli/src/concurrency/concurrency-queue.ts:64-74 | Whoever is queued is let through before anybody who was queued behind, in every run |
| ConcurrencyQueues.RemovalExactly | packages/cli/src/concurrency/concurrency-queue.ts:44-54 | On every queue and for every id: the first execution with that id is taken out wherever it is, the first of the others is let through, the rest wait in their order; without such an execution nothing changes |
| ConcurrencyQueues.RemovedIsGone | packages/cli/src/concurrency/concurrency-queue.ts:44-54 | The one that was taken out is neither queued nor let through |
| ConcurrencyQueues.ConcurrencyQueue.Enqueue | packages/cli/src/concurrency/concurrency-queue.ts:21-32 | The new queue contents, and whether the caller may go on at once |
| ConcurrencyQueues.ConcurrencyQueue.Dequeue | packages/cli/src/concurrency/concurrency-queue.ts:38-42 | The new queue contents, and which execution is let through |
| ConcurrencyQueues.ConcurrencyQueue.Remove | packages/cli/src/concurrency/concurrency-queue.ts:44-54 | The same for a removal, which changes nothing when the execution is not queued |
| ActiveExecutions.CapacityAlwaysConserved | packages/cli/src/active-executions.ts:82-174 | For every sequence of operations, until the gate is disabled: free slots, slots of unfinished adds and unsettled runs, and waiting adds make up the limit |
| ActiveExecutions.StepDrivesQueue | packages/cli/src/active-executions.ts:104-165 | Each operation does to the queue exactly one arrival, departure or removal, or nothing |
| ActiveExecutions.SlotReturnedOnlyByHandler | packages/cli/src/active-executions.ts:158-165 | A run's slot is returned by its own settle handler and at no other moment, and never twice |
| ActiveExecutions.FailedAddRestoresTable | packages/cli/src/active-executions.ts:138-141 | An add that did not wait and is refused leaves the whole table, queue included, as it was |
| ActiveExecutions.NewAddExactly | packages/cli/src/active-executions.ts:66-117 | A new add waits at the end of the queue exactly when the gate is enabled, no slot is free, and its mode is neither evaluation nor one of those without a limit; with a slot free it takes it, otherwise it goes on without one |
| ActiveExecutions.AcceptedAddShowsRunningRun | packages/cli/src/active-executions.ts:143-156 | Every accepted add, fresh or resuming, shows a running and unsettled run with its reserved slot; a resuming one takes over start time and response promise and nothing else, and nothing else in the table changes |
| ActiveExecutions.AssignedExactly | packages/cli/src/active-executions.ts:185-194 | Each assignment to an entry changes one field of the shown run; a settled promise stays settled |
| ActiveExecutions.ResponseModesExactly | packages/cli/src/active-executions.ts:316-318 | A response mode is set for its execution only, dropped when a suspended execution is stopped, and kept by a shutdown without cancellation |
| ActiveExecutions.ThrottledStayQueued | packages/cli/src/active-executions.ts:327-331 | Once the gate is disabled, no queued execution ever goes on, whatever is released or removed |
| ActiveExecutions.CancelledIsStranded | packages/cli/src/concurrency/concurrency-control.service.ts:193-198 | Cancelling a queued execution strands its add and no other queued one |
| ActiveExecutions.StrandedForGood | packages/cli/src/concurrency/concurrency-queue.ts:44-54 | The add of a cancelled execution never goes on, whatever follows: it is neither accepted nor refused |
| ActiveExecutions.HeldWithinLimit | packages/cli/src/active-executions.ts:104-106 | As long as no queued execution is cancelled, never more slots are in use than the limit |
| ActiveExecutions.HandlersLeaveSuspended | packages/cli/src/active-executions.ts:159-174 | Once everything has settled, running the pending handlers in any order leaves exactly the suspended executions |
| ActiveExecutions.ShutdownCancellingEmptiesTable | packages/cli/src/active-executions.ts:335-344 | After a cancelling shutdown in regular mode, the pending handlers in any order leave the table empty |
| ActiveExecutions.ShutdownWaitsForRunning | packages/cli/src/active-executions.ts:335-344 | Otherwise exactly the entries that are neither waiting nor new survive the first pass, with their runs unchanged |
| ActiveExecutions.FinalizeSettlesOwnRunExactly | packages/cli/src/active-executions.ts:241-260 | Whatever happens between the moment at which a run is shown and its own finalizing, which looks it up by id: the run is settled by it if and only if it was settled before or its entry was neither taken away nor replaced in between, as by an accepted resume; otherwise it is never settled, never handled and keeps its slot, whatever follows |
| ActiveExecutions.ForgottenForGood | packages/cli/src/active-executions.ts:156-174 | An unsettled run that no entry shows is never settled by any later operation, and its slot never comes back |
| ActiveExecutions.RemoveAllEmptiesQueue | packages/cli/src/concurrency/concurrency-control.service.ts:205-214 | While the gate is enabled, `removeAll` on a queue of distinct executions gives every second one a slot, takes out the others, and leaves nobody queued |
| ActiveExecutions.ShutdownLeavesQueue | packages/cli/src/active-executions.ts:326-346 | In `shutdown` it comes after the gate is disabled and changes nothing: queue and adds stay as they were, whereas before the gate it would change the queue if and only if somebody is queued |
| ActiveExecutions.Service.StartAdd | packages/cli/src/active-executions.ts:62-117 | The part of `add` up to the reservation makes the table of `BeginAdd` |
| ActiveExecutions.Service.FinishAdd | packages/cli/src/active-executions.ts:138-179 | The rest of `add` commits a new run, which takes over start time and response promise, or restores the reservation |
| ActiveExecutions.Service.Release | packages/cli/src/active-executions.ts:164-165 | A held slot goes back and lets the longest waiting add go on; without one nothing happens |
| ActiveExecutions.Service.StopExecution | packages/cli/src/active-executions.ts:211-238 | A waiting entry is deleted at once, any other run is settled, an unknown execution changes nothing |
| ActiveExecutions.Service.FinalizeExecution | packages/cli/src/active-executions.ts:241-260 | The run that the table shows is settled and nothing else changes |
| ActiveExecutions.Service.SetStatus | packages/cli/src/active-executions.ts:308-310 | Only the status of the shown run changes, and an unknown execution is reported |
| ActiveExecutions.Service.HandleSettled | packages/cli/src/active-executions.ts:164-174 | The handler's steps make the table of `Handle` |
| ActiveExecutions.Service.BeginShutdown | packages/cli/src/active-executions.ts:325-346 | Disabling the gate, visiting the entries in any order and then emptying the queue makes the table of `Shutdown`, then `RemoveAll` |
| ActiveExecutions.Service.EmptyQueue | packages/cli/src/concurrency/concurrency-control.service.ts:205-214 | The loop over the queued ids, each removal letting an add go on, makes the table of `RemoveAll` |
| Cluster.AtMostOneHolder | packages/cli/src/active-executions.ts:127-136 | In every run of any number of processes, at most one process runs an execution, and its row cannot be resumed meanwhile |
| Cluster.AcceptedResumeRuns | packages/cli/src/active-executions.ts:127-156 | A resume is accepted only if the row is `waiting`; then nobody ran the execution before and the resuming process shows it as running afterwards, and otherwise neither rows nor runs change |
| Cluster.RefusedAddChangesNothing | packages/cli/src/active-executions.ts:133-141 | When the database fails, or the row to resume is not `waiting`, no row, entry or run changes in any process |
| Cluster.CreatedRowIsNotWaiting | packages/cli/src/active-executions.ts:83-111 | A created execution has a row that cannot be resumed |
| Cluster.CancelledWaitIsOver | packages/cli/src/active-executions.ts:127-136 | A cancelled wait is over for all processes |
| Cluster.SuspendedExactly | packages/cli/src/active-executions.ts:164-168 | Suspending makes the row and the shown run waiting and settles it, and changes no other row |
| Cluster.RunningStaysShown | packages/cli/src/active-executions.ts:335-344 | A run that was put in place stays shown and running through everything that all processes do, shutdowns without cancellation included, until it suspends itself, settles or is stopped |
| Cluster.HandlerSparesLaterRuns | packages/cli/src/active-executions.ts:158-174 | In every reachable state, the settle handler of an earlier run never removes the entry of a later run or of another execution |
| Cluster.CyclesKeepEntry | packages/cli/src/active-executions.ts:145-156 | Through any number of suspend and resume cycles the entry stays, with the first start time and the attached response promise |
| Cluster.ShutdownEndsExactly | packages/cli/src/active-executions.ts:325-357 | Whatever happens after the first pass of a shutdown, in this process and in others, adds that go on included: once every shown run has settled and been handled, the table shows exactly the executions that suspended themselves since, without an accepted resume, a stop or a further shutdown in this process afterwards; so the wait ends if and only if there is no such suspension |
| Cluster.SuspendingKeepsShutdownWaiting | packages/cli/src/active-executions.ts:340-357 | A run in which an execution suspends itself during the shutdown, everything has been handled, and its entry stays |
| CredentialTypes.ParentTypes | packages/cli/src/credential-types.ts:26-38 | On every acyclic hierarchy the walk ends, within a bound by rank and number of parents |
| CredentialTypes.GetParentTypes | packages/cli/src/credential-types.ts:26-38 | The loop over the growing list returns that walk |
| CredentialTypes.ParentTypesAreAncestors | packages/cli/src/credential-types.ts:33-37 | As a set, the result is exactly the strict ancestors |
| CredentialTypes.AncestorsRankLower | packages/cli/src/credential-types.ts:26-38 | A strict ancestor ranks lower, so no type is its own ancestor |
| CredentialTypes.ParentTypesOfChild | packages/cli/src/credential-types.ts:31-35 | On a single-parent chain the list is the parent, then the parent's list, then repetitions only |
| CredentialTypes.NearerAncestorsFirst | packages/cli/src/credential-types.ts:33-35 | On a single-parent chain the first occurrences come in the order of the chain |
| CredentialsOverwrites.GetIsFirstHit | packages/cli/src/credentials-overwrites.ts:210-223 | In any acyclic hierarchy `get` takes each field from the first type of its list that sets it |
| CredentialsOverwrites.GetIsNearest | packages/cli/src/credentials-overwrites.ts:210-223 | On single-parent hierarchies `get` returns exactly the nearest-ancestor values, and nothing if and only if no type has an entry |
| CredentialsOverwrites.ResolveReads | packages/cli/src/credentials-overwrites.ts:178-208 | In any acyclic hierarchy and under any memo, `getOverwrites` returns each field from the first type that sets it in the list of types it reads, later parents first, memoised types not followed further, and no other field |
| CredentialsOverwrites.LookupsAgreeExactly | packages/cli/src/credentials-overwrites.ts:178-223 | With any number of parents, `getOverwrites` and `get` agree on a type for all overwrite data if and only if the types read and the list of the type with its ancestors have the same order of first occurrences |
| CredentialsOverwrites.ResolveAgrees | packages/cli/src/credentials-overwrites.ts:178-208 | On single-parent hierarchies, whatever the memo holds, `getOverwrites` returns only nearest-ancestor values and every field of the type's own entry |
| CredentialsOverwrites.FlattenKeepsMeaning | packages/cli/src/credentials-overwrites.ts:103-116 | For any order of the keys, every entry stays between the raw and the fully resolved one, and `get` is the nearest-ancestor definition over the raw map |
| CredentialsOverwrites.ReloadKeepsGet | packages/cli/src/credentials-overwrites.ts:57-131 | Saving and reloading the flattened map any number of times leaves `get` the same for every type |
| CredentialsOverwrites.ResolveIsCompleteExactly | packages/cli/src/credentials-overwrites.ts:178-208 | A resolution is complete if and only if every field set on the type or an ancestor is in an entry that it reads |
| CredentialsOverwrites.FlattenedEntryReads | packages/cli/src/credentials-overwrites.ts:103-116 | For any order of the keys, every entry has exactly the raw fields of the types that this order makes it read |
| CredentialsOverwrites.EntryIsCompleteExactly | packages/cli/src/credentials-overwrites.ts:109-115 | Those types are the first ones of the line of ancestors, and the entry is complete if and only if no field is set only beyond them |
| CredentialsOverwrites.EntryCanStayPartial | packages/cli/src/credentials-overwrites.ts:179-182 | A hierarchy and an order in which a memoised entry lacks a field that `get` still finds |
| CredentialsOverwrites.SeveralParentsDisagree | packages/cli/src/credentials-overwrites.ts:196-222 | With two parents, flattening changes what `get` returns |
| CredentialsOverwrites.ApplyIsIdempotent | packages/cli/src/credentials-overwrites.ts:140-176 | Applying an overwrite twice is applying it once, for skip-list types too |
| CredentialsOverwrites.ApplyFollowsNearest | packages/cli/src/credentials-overwrites.ts:140-176 | From the raw map: non-empty fields never change, empty ones get the nearest value, others stay, and a customised credential of a skip-list type stays untouched |
| CredentialsOverwrites.ApplyFillsUnsetFields | packages/cli/src/credentials-overwrites.ts:140-176 | The same law in the terms of values: missing, null, undefined and empty-string fields take the nearest value, all others stay, and nothing changes for a skip-list type if the user has set an overwritten field to another value |
| CredentialsOverwrites.Service.GetOverwrites | packages/cli/src/credentials-overwrites.ts:178-208 | The recursion with its growing memo is `Resolve` |
| CredentialsOverwrites.Service.SetPlainData | packages/cli/src/credentials-overwrites.ts:103-116 | The loop that updates the map in place is `Flatten` |
| CredentialsOverwrites.Service.ApplyOverwrite | packages/cli/src/credentials-overwrites.ts:140-176 | The method is `Applied` on what `get` returns |
| CredentialsOverwrites.FillEmptyFields | packages/cli/src/credentials-overwrites.ts:166-173 | In any order of the keys, exactly the empty overwritten fields are filled |
| InvalidCredentials.CachedEqualsIndependentExactly | packages/cli/src/workflow-helpers.ts:366-487 | The cached pass equals resolving every reference on its own if and only if references that follow an unresolvable one with the same missing id repeat it |
| InvalidCredentials.VisitMeans | packages/cli/src/workflow-helpers.ts:402-482 | One visit, under any reachable cache, gives what the reference resolves to on its own, unless an earlier unresolvable reference to the same id answers first |
| InvalidCredentials.VisitKeepsKnowledge | packages/cli/src/workflow-helpers.ts:371-373 | What the caches know stays right: names and ids as the database has them, missing ids as first seen |
| InvalidCredentials.PassNodesIsPassSlots | packages/cli/src/workflow-helpers.ts:378-385 | The nested loops are one pass over all references of the enabled nodes, and disabled nodes stay as they are |
| InvalidCredentials.PassIsIdempotent | packages/cli/src/workflow-helpers.ts:366-487 | Running the pass twice equals running it once, for every workflow and database |
| InvalidCredentials.OutputIsRightByRows | packages/cli/src/workflow-helpers.ts:378-482 | Every reference of the output read off the database rows: by name it becomes the only row of its type and name that the project shares, by id it gets the name of its row, a missing id whose references are all the same becomes the only row under its name or stays, and managed, missing and unsafe ones and those of disabled nodes stay |
| InvalidCredentials.UnresolvedNameExactly | packages/cli/src/workflow-helpers.ts:427-437 | The first reference by a name that leads to no single row stays as it is, every later one becomes the object with a null id |
| InvalidCredentials.VisitRemembers | packages/cli/src/workflow-helpers.ts:370-376 | Nothing is forgotten, and after a visit its name, or its id unless only the name led to a row, is answered from a cache |
| InvalidCredentials.InconsistentNamesGoWrong | packages/cli/src/workflow-helpers.ts:474-482 | Two names for one missing id: the resolvable second one is replaced by the first |
| InvalidCredentials.QueryByName | packages/cli/src/workflow-helpers.ts:413-419 | A query by name counts exactly when it has a single result |
| InvalidCredentials.Workflow.RepairOld | packages/cli/src/workflow-helpers.ts:402-437 | The branch for references by name, with its cache |
| InvalidCredentials.Workflow.RepairById | packages/cli/src/workflow-helpers.ts:441-482 | The branch for references by id, with its cache |
| InvalidCredentials.Workflow.ReplaceInvalidCredentials | packages/cli/src/workflow-helpers.ts:366-487 | The loops leave in the workflow what the pass makes of its nodes |
| NodeGroups.Validate | packages/cli/src/workflow-helpers.ts:218-261 | Accepts, on every input, if and only if ids and names are unique, every node is known, and a node is repeated only after groups with the empty name; an error names a problem of the first group that breaks a rule |
| NodeGroups.CheckMentions | packages/cli/src/workflow-helpers.ts:244-260 | The inner loop: only the latest group of a node is stored, which is enough to find every repetition |
| NodeGroups.NamedGroupsFollowTheDocumentation | packages/cli/src/workflow-helpers.ts:204-206 | With non-empty group names the accepted inputs are exactly the documented ones: each node in at most one group, once |
| NodeGroups.EmptyNameSharesNodes | packages/cli/src/workflow-helpers.ts:253-259 | A node in a group with the empty name is accepted in a second group |
| Webhooks.OthersKeepTheirRows | packages/cli/src/active-workflow-manager.ts:170-224 | In every mode, whatever fails and whoever interferes, a row of another workflow changes only if the others change it |
| Webhooks.AllOrNothing | packages/cli/src/active-workflow-manager.ts:138-232 | `false` exactly without selected webhooks and then nothing changes; `true` outside of start-up means that every selected path and method is owned; an error after a successful cleanup means that nothing is |
| Webhooks.NormalisedExactly | packages/cli/src/active-workflow-manager.ts:167-172 | The stored path is the given one without one slash in front and one at the end, and with nothing else taken away |
| Webhooks.SelectedPathsAreOwned | packages/cli/src/active-workflow-manager.ts:154-232 | After `true` outside of the lenient modes, every selected webhook has its row under its method and its path without these slashes |
| Webhooks.OneWebhookExactly | packages/cli/src/webhooks/webhook.service.ts:152-176 | What comes of one webhook when nobody interferes, for every failure: inserted, refreshed, refused as taken, or the error of the step that failed, the external creation last |
| Webhooks.FirstFailureDecides | packages/cli/src/active-workflow-manager.ts:185-222 | A failed query is passed over on start-up and on a change of leadership only; any other failure clears the rows, ends the loop and is thrown, a failed query as a taken path |
| Webhooks.ClearedExactly | packages/cli/src/webhooks/webhook.service.ts:198-202 | The cleanup removes every row of the workflow and no other, or nothing if it fails |
| Webhooks.SuccessOwnsWhatWasStored | packages/cli/src/active-workflow-manager.ts:154-198 | In every mode, whatever is ignored: once the loop ends, a key has the row of the last webhook stored under it, and otherwise the row that the workflow had before |
| Webhooks.TrueOwnsExactly | packages/cli/src/active-workflow-manager.ts:154-232 | After `true` in any mode, all selected paths and methods are owned if and only if each was owned before or one of its webhooks was stored |
| Webhooks.SuccessOwnsAll | packages/cli/src/active-workflow-manager.ts:154-184 | Without ignored errors every webhook's row is there, with the node of the last webhook of its key, and nothing else was gained or lost |
| Webhooks.ThrownAfterCleanup | packages/cli/src/active-workflow-manager.ts:200-222 | After an error and a successful cleanup no key is owned |
| Webhooks.CalmFailsExactlyWhenTaken | packages/cli/src/webhooks/webhook.service.ts:152-176 | Without faults and interference, in every mode: registration fails if and only if a selected path is another workflow's, and reports the first such webhook |
| Webhooks.StartUpCanMissAWebhook | packages/cli/src/active-workflow-manager.ts:186-198 | On start-up a failing insert is ignored, the answer is `true`, and the path is not registered |
| Webhooks.WebhookTable.StoreWebhook | packages/cli/src/webhooks/webhook.service.ts:152-176 | Insert, refresh or refusal, with every failure, as `Store` says |
| Webhooks.WebhookTable.ClearWebhooks | packages/cli/src/webhooks/webhook.service.ts:198-202 | Removes exactly the workflow's rows, unless the cleanup fails before |
| Webhooks.WebhookTable.AddWebhooks | packages/cli/src/active-workflow-manager.ts:138-232 | The loop with its rollback is `Add` |
| ActivationRetry.DelayIsBackoff | packages/cli/src/active-workflow-manager.ts:828-845 | In every run, whatever interleaves, a queued workflow's delay is min(1000·2^k, 86400000) ms after k failures that were no isolate errors, and its timer was armed with it |
| ActivationRetry.BackoffGrows | packages/cli/src/constants.ts:90-91 | The delay grows with each failure until it reaches one day, and stays between one second and one day |
| ActivationRetry.QueuedExactly | packages/cli/src/active-workflow-manager.ts:854-864 | Queuing leaves one new timer of a second in place of the one the entry knew, and touches no other workflow |
| ActivationRetry.RemovedExactly | packages/cli/src/active-workflow-manager.ts:869-874 | Removing disarms the timer that the entry knows and changes nothing else |
| ActivationRetry.AllRemovedExactly | packages/cli/src/active-workflow-manager.ts:879-883 | Removing all disarms exactly the timers that entries know |
| ActivationRetry.FiredExactly | packages/cli/src/active-workflow-manager.ts:819-825 | A timer that goes off is gone, its retry is under way, its entry stays |
| ActivationRetry.FinishedExactly | packages/cli/src/active-workflow-manager.ts:824-851 | A retry that ends without an error changes neither entries nor timers |
| ActivationRetry.FailedExactly | packages/cli/src/active-workflow-manager.ts:826-847 | A failed retry with an entry arms one timer, with the delay doubled up to one day, or kept after an isolate error; without an entry it arms none |
| ActivationRetry.AtMostOneExactly | packages/cli/src/active-workflow-manager.ts:854-864 | A workflow has at most one retry, armed or under way, throughout a run if and only if it is never queued while a retry is under way |
| ActivationRetry.RemovalIsComplete | packages/cli/src/active-workflow-manager.ts:869-874 | Then removal leaves no timer of the workflow armed |
| ActivationRetry.QueuedKeepsTrying | packages/cli/src/active-workflow-manager.ts:807-846 | As long as a workflow is queued and no retry has ended without an error, its entry's retry is armed or under way |
| ActivationRetry.QueuedAgainLeavesATimer | packages/cli/src/active-workflow-manager.ts:844-872 | A run with two armed timers for one workflow, one of which survives removal |
| ActivationRetry.ActivationManager.AddQueuedWorkflowActivation | packages/cli/src/active-workflow-manager.ts:854-864 | Replaces the entry, clears its timer and arms a new one |
| ActivationRetry.ActivationManager.RemoveQueuedWorkflowActivation | packages/cli/src/active-workflow-manager.ts:869-874 | Deletes the entry and the timer it knows, if there is one |
| ActivationRetry.ActivationManager.RemoveAllQueuedWorkflowActivations | packages/cli/src/active-workflow-manager.ts:879-883 | Deletes all entries and exactly their timers, in any order |
| ActivationRetry.ActivationManager.BeginRetry | packages/cli/src/active-workflow-manager.ts:819-825 | A timer that goes off is no longer armed, and its retry is under way |
| ActivationRetry.ActivationManager.RetryEnded | packages/cli/src/active-workflow-manager.ts:848-851 | A retry that ends without an error arms nothing |
| ActivationRetry.ActivationManager.RetryFailed | packages/cli/src/active-workflow-manager.ts:826-847 | Re-arms with the longer delay; when the entry is gone the handler throws and nothing is armed |
| Deadlines.MainDeadline | packages/cli/src/workflow-runner.ts:348-372 | The main workflow's deadline, which agrees with the sub-workflow computation if and only if the maximum is positive or no positive timeout is set |
| Deadlines.DeadlineIsEarliest | packages/cli/src/workflow-execute-additional-data.ts:270-283 | At any depth the deadline is the earliest of all deadlines since the last detached call, with the root's if there is none |
| Deadlines.AwaitedCallsNeverPutOff | packages/cli/src/workflow-execute-additional-data.ts:535-543 | Awaited calls, however deep, never put the deadline off |
| Deadlines.DetachedCallForgets | packages/cli/src/workflow-execute-additional-data.ts:275-277 | Nothing above a detached call has an effect below it |
| Deadlines.SuspensionNeverMovesTheLimit | packages/cli/src/workflow-runner.ts:437-459 | However often an execution is suspended, each resumed stretch is stopped at max(now, first start + timeout), and the start time stays the first |
| Deadlines.FirstStop | packages/cli/src/workflow-runner.ts:437-457 | The first stretch is stopped one timeout, cut at the maximum, after the timer was armed, whatever start time is stored, and never if the timeout or the maximum is not positive |
| Deadlines.SubDeadlineCounts | packages/cli/src/workflow-execute-additional-data.ts:238-265 | A sub-workflow's own deadline from the timeouts themselves: none without a positive one, and cut at the maximum only if that is positive |
| Deadlines.SoftDeadlineAndStop | packages/cli/src/workflow-runner.ts:367-372 | The soft deadline starts anew each time; after a resume it precedes the stop only if the whole timeout passes during the set-up |
| Deadlines.Execution.RunMainProcess | packages/cli/src/workflow-runner.ts:348-459 | The steps that compute the timeouts and arm the timer set up what `Stretch` says |

## Left out

- HTTP, push, pub/sub, logging, telemetry, encryption, expression evaluation and the execution engine itself.
- Queue mode, workers and the evaluation queue: the modelled gate is the production queue in regular mode, and
  `unlimited` is the case in which the gate is off.
- The database is modelled by atomic reads and writes that either happen or fail; a write that happens although
  its caller sees an error is not. A run's suspension (row, in-memory status, settled promise) is one step;
  `FinalizeSettlesOwnRunExactly` says what happens otherwise. A poll of the wait tracker finds the rows as they are.
- Identity of objects: entries, overwrites and credential references are values, so sharing between the map passed
  to `setPlainData` and its caller, and `deepCopy`, are not captured. The JSON round trip of saved overwrites is
  taken to be exact.
- Property names that JavaScript objects inherit (`constructor`, `__proto__`) as credential names, ids or types.
- Cyclic credential hierarchies, on which `getParentTypes` does not return. The certificate of acyclicity is a
  ghost argument of the functions.
- ConcurrencyQueues.DrainEmptiesExactly: counts the ids that are found at their turn; a condition on the queue that does not follow
  the removals is only stated for distinct ids and as a bound.
- CredentialsOverwrites.ResolveAgrees: does not say which fields the result has; `ResolveReads` and
  `ResolveIsCompleteExactly` do.
- CredentialsOverwrites.GetIsNearest: says nothing about several parents, where `get` and `getOverwrites` use opposite
  precedence; `GetIsFirstHit` covers them.
- ParentResume.ResumedHeadCarriesChildResult: excludes children that resume a later wait than the one they updated;
  `RestartsPatchedExactly` covers every run.
- ParentResume.EndedChildMeansResumedOnce: is stated for one waiting period; over several, `ResumesNeverExceedWaits` counts.
- ActiveExecutions.Service.StopExecution: does not record that the response promise is rejected and the workflow execution
  cancelled, which happens to objects outside of the table.
- Webhooks.WebhookTable.StoreWebhook: does not model the write to the webhook cache, which follows a successful store and
  whose failure is only logged.
- `cancelMany`, the database write at the end of `removeAll`.
- Cluster.CyclesKeepEntry: leaves out finalizing, stopping, shutting down and attaching another response promise for
  the entry in question, which are meant to change it.
- The interval at which `WaitTracker` polls; a poll finds any rows, as the query in the repository is not modelled.
- The sleeping loop of `shutdown`: only when it can end is modelled, not its polling.
- The full checks of `validateWorkflowNodeGroups`, which need node types and connections.
- `webhookId` and `pathLength` of dynamic webhooks, the webhook cache, and the external calls behind
  `createWebhookIfNotExists` and the deregistration, which are outcomes that may fail.
- Wall-clock timers: a timer is a recorded instant or delay. The longest delay that a JavaScript timer can hold is
  not modelled. A workflow timeout of `null` is treated like a missing one.
- Retries when `add` fails after it has removed the entry are covered; what `add` does inside is an outcome.
