# Leasepool: the pool of leased executors and the work grinder, verified

leasepool hands out executors under time-limited leases. `LeasedExecutorManager` keeps
a queue of idle executors and a table of lease records; it grows and shrinks with a size
signal, drains a released lease before its executor is used again, revokes expired leases,
and retires broken executors. `WorkGrinder` sits on top: it queues single calls, forms
batches when enough wait or one waits too long, and runs each batch under one lease.

This project models both and proves what they promise over all their runs.

## How it is built

| files | content |
|---|---|
| `Sizing.dfy` | the sizing rule, with the binary64 division of section 4.3.1 of IEEE 754-2019 written out on integers |
| `PoolModel.dfy` | the pool as a value, and each lock-held section as a function on it |
| `Manager.dfy` | the classes `LeaseRecord` and `LeasedExecutorManager`, changed in place; every method is proved to do to the pool what its section function says |
| `PoolSafety.dfy`, `PoolEvolution.dfy`, `PoolLaws.dfy` | what one section keeps, and what it means for sizes and leases |
| `PoolSystem.dfy` | the state machine: sections, parked waiters, the event loop's queue, the checker's appointment, what actors outside the lock still owe, and the clock |
| `PoolEffects.dfy`, `PoolSteps.dfy` | what every step of that machine does to every field, in the fields' own terms |
| `PoolInvariant.dfy`, `PoolWakes.dfy`, `PoolHistory.dfy` | its invariant, kept by every step, and what only grows |
| `PoolTheorems.dfy`, `PoolGuarantees.dfy`, `PoolProgress.dfy`, `PoolTimeouts.dfy` | what holds in every run of the pool |
| `GrinderModel.dfy`, `WorkGrinding.dfy` | the grinder's data as values, and the class `WorkGrinder` with its result futures, changed in place and proved against them |
| `GrinderSystem.dfy`, `GrinderInvariant.dfy`, `GrinderSteps.dfy` | the grinder's state machine and its invariant |
| `GrinderEffects.dfy` | what every step of it does to every field, in the fields' own terms |
| `GrinderTheorems.dfy`, `GrinderOutcomes.dfy`, `GrinderStopping.dfy`, `GrinderWaiting.dfy` | what holds in every run of the grinder |
| `PoolExamples.dfy`, `GrinderExamples.dfy` | short concrete runs behind the findings below |
| `Runs.dfy`, `Reals.dfy`, `Options.dfy` | runs of a labelled transition system; instants; optional values |

A label of a state machine is one atomic step: a lock-held section, what a coroutine does
between two suspensions, or one action of an actor that has left the lock. A run is any
sequence of labels, each enabled where it is taken, from the state of a new object.

## Assumptions

- Lock-held sections are atomic, and the clock stands still inside one step.
- Lease ids are fresh. Ids of leases, futures and executors are numbers; a work item is
  named by its place in the history of accepted work.
- A future's callback runs once, after the future is done; it may run at once while it is
  being attached, inside the submitting section.
- For a waiter, the failed attempt and the parking are one step of the event loop; so are
  the work of `enqueue` and of a queue removal under the condition.
- Creating an executor succeeds, except in `start`, whose roll-back is modelled. `shutdown`
  calls and wakes do not raise.
- What an actor does after leaving the lock (shut an executor down, wake the waiters, wake
  the checker) it does in any order, interleaved with all others: more runs than the code
  has.
- Each reading of the size provider is a parameter of its own, so bounds hold for a signal
  that changes within one section. Only the exact sizing laws take one reading a section.
- Durations and instants are exact reals. The one place where rounding matters, the
  division in the sizing rule, is modelled as rounded.
- What the executor answers to a submission, how submitted calls end, and whether a lease
  can be had are parameters. A stop is not started twice at once, and after its locked part
  it finishes in one step.
- A stop's cancellation of the checker takes effect at once. In the code one that arrives
  while the checker is itself cancelling its wait (src/leasepool/manager.py:658-662) is
  suppressed together with the wait's own; the checker then goes round again, and the stop
  waits for it.
- A grinder is started again on the event loop it was started on before.
- Results that bound a time by d say of which run: the event loop gets to the checker, to the
  grinder's task, or to a waiter at most d after it can go on.
- No call raises or returns a `StopIteration` (see "Left out").

## Findings

Each is a place where a documented or natural expectation fails. The exact condition is
proved for all inputs, and one concrete input or run is shown.

- One work item that cannot be called fails its whole batch, although the guide promises
  that items are independent and that submitted work receives its real result
  (docs/source/guides/work-grinder.rst:143-153): the call is prepared outside the inner
  `try`, so the error takes the general branch with the lease in hand. Submitted items lose
  their own endings if and only if an item that cannot be called stands in the batch no
  later than the first refused one: `SpoiledBatch`, `SubmittedWorkIsLost`, and the run
  `NotCallableSpoilsBatch`.
- A graceful stop whose caller is cancelled, for example by a time-out around it, passes the
  cancellation on to the loop: the batch at work is cancelled, what is queued stays queued
  with open futures, and the grinder is left started and stopping without a loop. A second
  graceful stop then returns with that work still open. When the loop has ended, an item's
  future is open if and only if it was queued and open at the cancellation and no caller has
  settled it since: `CancelledStopStrands`, and the run `CancelledStopLeavesWork`. Every
  other stop settles everything: `StopSettlesEverything`. An item cancelled while the
  grinder has no loop is not taken out of the queue either: `CancelledItemLeavesTheQueue`.
- The sizing rule divides in floating point. The decision is the exact one if and only if
  the ceiling survives the rounding or the limits hide the difference: `SizingIsExact`, with
  the condition in `CeilingSurvives`, `Misrounded` and `LimitsHide`. It always holds below
  2^53 units (`RoundingIsHarmless`); with 2^53 units a pool and a limit of just two pools,
  2^53 + 1 units are given one pool (`OnePoolTooFew`). Coarser units do no harm while the
  limit is at most 2^53 pools (`SizingIsExactInReach`).
- A healthy lease that ends in time may cost its executor and have another created in its
  place, because the size signal is read twice: exactly when the first reading asks for less
  than the old total, and the second for at least as much. `HealthyEndWastes`, and the run
  `DippingSignalWastes`.
- A work item that is cancelled after its batch was formed is still submitted while the
  batch waits for its lease: `CancellationInTime`, and the run `LateCancellationIsSubmitted`.
- A call that *returns* an exception object has it raised in its caller, because gathered
  results are told from errors by their type: `DeliveredAsEnded`, `BatchOutcome`, and the
  run `ReturnedErrorIsRaised`.

## Model

| member | source | states |
|---|---|---|
| Sizing.Config.Desired | src/leasepool/manager.py:816-840 | the wanted number always lies between the two limits, for a missing provider, a raising one, and any count |
| Sizing.NoUnitsNeedTheLeast | src/leasepool/manager.py:828-840 | no provider, one that raises, and a count of nothing or less all give the least number of pools |
| Sizing.UnitsFit | src/leasepool/manager.py:816-826 | for every count below 2^53: the least number of pools within the limits with room for all units, or the most if none has; the exact formula in the count itself |
| Sizing.CeilDivIsLeast | src/leasepool/manager.py:823 | the exact ceiling is the least number of pools that the units fit into |
| Sizing.LeastQuotient | src/leasepool/manager.py:823 | where quotients begin to be rounded to nothing |
| Sizing.QuotientIsNearest | src/leasepool/manager.py:823 | the modelled quotient is correctly rounded: it is a value of the format, and none is nearer to the exact quotient |
| Sizing.RoundHalfEvenIsNearest | src/leasepool/manager.py:823 | the rounding takes a nearest multiple, and on a tie the even one |
| Sizing.RoundedCeiling | src/leasepool/manager.py:823 | for all numerators and divisors: the ceiling of the rounded quotient is the exact one if and only if a condition on numerator, divisor and unit of the quotient holds; else it is a stated other number |
| Sizing.SizingIsExact | src/leasepool/manager.py:816-840 | for every configuration and reading: the decision is that of exact arithmetic if and only if the ceiling survives or the limits hide that it does not |
| Sizing.SizingIsExactInReach | src/leasepool/manager.py:816-826 | with a limit of at most 2^53 pools the decision is exact if and only if the quotient's unit is two or more, or the ceiling survives, or quotient and ceiling lie outside the limits on one side |
| Sizing.RoundingKeepsCeiling | src/leasepool/manager.py:823 | below 2^precision, rounding leaves the ceiling alone, except that a quotient too small for the format may become zero |
| Sizing.RoundingIsHarmless | src/leasepool/manager.py:816-840 | below 2^53 units the decision is that of exact arithmetic |
| Sizing.RoundingBoundIsSharp | src/leasepool/manager.py:823 | at 2^precision + 1 the ceiling is one too small |
| Sizing.OnePoolTooFew | src/leasepool/manager.py:816-826 | with 2^53 units a pool and any limit from two on, 2^53 + 1 units are given one pool and need two |
| Sizing.OneUnitTooMany | src/leasepool/manager.py:816-826 | with one unit a pool, 2^53 + 1 units are given 2^53 pools |
| PoolLaws.AcquireIsSemaphore | src/leasepool/manager.py:461-504 | an attempt succeeds if and only if fewer than the maximum of unexpired leases are held; success adds one fresh lease with an executor no other lease has; failure changes nothing |
| PoolLaws.AcquireTakesOldestIdle | src/leasepool/manager.py:748-760 | the executor idle longest is leased, and nothing is created for it |
| PoolLaws.ReleaseQueuesLast | src/leasepool/manager.py:1058-1111 | an ended lease's executor goes to the end of the idle queue exactly when it is healthy, in time, and within the wanted size; else it alone is to be shut down |
| PoolLaws.ReleaseEndSize | src/leasepool/manager.py:1080-1111 | ending a drained lease leaves the wanted size, or one less than before if that is more |
| PoolLaws.SubmitEndSize | src/leasepool/manager.py:714-727 | so does a submission that finds its lease expired or its executor broken, and no other submission ends a lease |
| PoolLaws.DoneEndSize | src/leasepool/manager.py:1030-1049 | so does a callback, and it ends the lease if and only if it reports a broken executor or was the last of a released lease |
| PoolLaws.RevokeSize | src/leasepool/manager.py:777-802 | revoking k leases leaves the wanted size, or k less than before if that is more, and every unexpired lease |
| PoolLaws.HealthyEndWastes | src/leasepool/manager.py:1080-1111 | a healthy lease ended in time loses its executor and has one created if and only if the signal rises across the old total between its two readings |
| PoolLaws.HealthyReleaseWastes | src/leasepool/manager.py:533-568 | so it is for the release of a drained lease |
| PoolLaws.HealthyCallbackWastes | src/leasepool/manager.py:1045-1049 | and for the last callback of a released one |
| PoolExamples.DippingSignalWastes | src/leasepool/manager.py:1085-1106 | a reachable pool of two, a lease of which is released in health: executor 1 is out, executor 3 made |
| PoolLaws.TickConverges | src/leasepool/manager.py:675-680 | one round of the checker leaves the wanted size or the unexpired leases, whichever is more, and touches no unexpired lease |
| PoolLaws.TickKeepsOldest | src/leasepool/manager.py:769-775 | a round shortens or lengthens the idle queue at its end only |
| PoolEffects.FillIs | src/leasepool/manager.py:762-767 | filling appends exactly the missing number of executors, numbered on, and makes no others |
| PoolEffects.ShrinkIs | src/leasepool/manager.py:769-775 | shrinking shuts down exactly the newest idle executors there is no room for |
| PoolEffects.ReleaseEffect | src/leasepool/manager.py:542-568 | an id not held: nothing; a busy lease: only the request is recorded; a drained one ends, its executor last in the queue or owed a shutdown, waiters and checker owed a wake |
| PoolEffects.ReleaseIsRemembered | src/leasepool/manager.py:547 | after a release the lease is gone, or asked to end and draining |
| PoolEffects.ReleasedIsRejectedForGood | src/leasepool/manager.py:704-717 | after a release every submission under the id is rejected, in the rest of every run |
| PoolEffects.CallbackEffect | src/leasepool/manager.py:1022-1056 | a callback takes its future off the lease, or ends the lease; an executor is not kept past the lease's expiry |
| PoolEffects.SubmissionReplies | src/leasepool/manager.py:704-746 | which reply each submission gets |
| PoolEffects.SubmissionEffect | src/leasepool/manager.py:704-741 | what each submission does to lease, pool, debts and the record of work, also when its future is done at once |
| PoolSteps.RevokeIs | src/leasepool/manager.py:777-802 | exactly the leases whose time and grace are over go, their executors shut down, and the missing are made if any went |
| PoolSteps.AttemptEffect | src/leasepool/manager.py:460-531 | what an attempt does to pool, loop and record, whether it is refused, leases or is in vain |
| PoolSteps.WaitingAcquireWaits | src/leasepool/manager.py:461-531 | an attempt on a running manager is in vain if and only if the most leases are held in time; then the pool is as it was, and the acquirer waits if and only if it may |
| PoolSteps.RoundEffect | src/leasepool/manager.py:672-686 | a round revokes, fills to one reading and sheds to the next, clears the signal, wakes the waiters, and sleeps for the interval or to the first expiry |
| PoolSteps.StartEffect | src/leasepool/manager.py:339-373 | a start makes as many executors as wanted; one that fails after some shuts down exactly those |
| PoolSteps.StopBeginsEffect | src/leasepool/manager.py:391-400 | a stop sets its flag and ends the checker |
| PoolSteps.StopEndsEffect | src/leasepool/manager.py:402-418 | its end shuts down all that is owned, wakes the waiters and drops the events |
| PoolSteps.SmallStepEffect | src/leasepool/manager.py:1113-1160 | what giving up, wakes, event callbacks, scale changes, shutdowns and finishing work change, and nothing else |
| PoolSafety.AcquireSafe | src/leasepool/manager.py:461-499 | an attempt keeps one place for each executor, the bound, and one shutdown for each retired one |
| PoolSafety.ReleaseSafe | src/leasepool/manager.py:533-568 | so does a release, counting the shutdown it still owes |
| PoolSafety.SubmitSafe | src/leasepool/manager.py:704-741 | so does a submission, in every branch |
| PoolSafety.SubmitAtOnceSafe | src/leasepool/manager.py:729-736 | also when the callback runs inside the section |
| PoolSafety.FutureDoneSafe | src/leasepool/manager.py:1030-1056 | so does a done callback |
| PoolSafety.TickSafe | src/leasepool/manager.py:675-680 | so does a checker round; unexpired leases stay, and what becomes idle is newly made |
| PoolSafety.StartFailsSafe | src/leasepool/manager.py:351-373 | a start that fails after any number of creations leaves nothing owned and everything shut down once |
| PoolSafety.StopFinishSafe | src/leasepool/manager.py:402-418 | a stop leaves nothing owned and everything shut down once |
| PoolSystem.SubmitIsOneSection | src/leasepool/manager.py:704-741 | a submission step of the state machine is one section, callback included, and owes exactly what that leaves |
| PoolInvariant.SolventStep | src/leasepool/manager.py:339-418 | every step keeps the pool's invariant and the balance of retirements, shutdowns and debts |
| PoolInvariant.WorkStep | src/leasepool/manager.py:693-736 | every step keeps each unfinished future in its lease's pending set, or its executor retired |
| PoolWakes.WakeStep | src/leasepool/manager.py:460-531 | every step keeps a wake in flight for each waiter that could be served |
| PoolWakes.ExpiryStep | src/leasepool/manager.py:664-686 | every step keeps the checker due no later than the first hard expiry |
| PoolWakes.InvStep | src/leasepool/manager.py:339-1160 | every step keeps all four parts of the invariant |
| PoolHistory.LaterStep | src/leasepool/manager.py:339-1111 | every step leads to a later state: retired executors stay so, shutdowns and ids are never taken back, leases keep their terms |
| PoolHistory.RunsAge | src/leasepool/manager.py:402-408 | over any run: retired executors stay so, ids are issued once, a lease keeps its terms, a request to end is not taken back |
| PoolTheorems.NoLostWakeup | src/leasepool/manager.py:460-531 | in every reachable state a waiter is parked only while every pool is leased, or a wake for it is scheduled, owed, or to come from the checker or a stop |
| PoolTheorems.QuietWaitersFaceAFullPool | src/leasepool/manager.py:1144-1160 | with nothing in flight, waiting means that every pool is leased |
| PoolProgress.WakeIsNear | src/leasepool/manager.py:1144-1160 | while a unit is free a parked waiter is at most three from its wake |
| PoolProgress.PayingStep | src/leasepool/manager.py:563-568 | and a step of an actor already at work that pays the wake is enabled |
| PoolProgress.WakeArrives | src/leasepool/manager.py:563-568 | such steps alone bring the wake in as many steps as it is far |
| PoolProgress.WakeComesCloser | src/leasepool/manager.py:460-531 | each such step brings the waiter strictly closer or wakes it, and no other step of the whole system takes it farther |
| PoolProgress.EverySchedulePaysOff | src/leasepool/manager.py:563-568 | in every run from such a moment, whatever else happens in between, a waiter stays parked through at most two paying steps |
| PoolTimeouts.TimeoutIsKept | src/leasepool/manager.py:506-531 | with a loop at most d late, an acquire with a time-out is over when the time-out and d have passed, however often it is woken and waits again |
| PoolTimeouts.LastStepIsLast | src/leasepool/manager.py:506-531 | when its time is up, whatever a waiter does next ends it: the time-out, or an attempt that fails or succeeds |
| PoolTheorems.WorkNeverOverlaps | src/leasepool/manager.py:693-736 | two leases of one executor are disjoint in time, and all work of the earlier is done and accounted for when the later is held |
| PoolTheorems.UnfinishedWorkIsPending | src/leasepool/manager.py:1022-1049 | unfinished work is in the pending set of the lease it was submitted under, on the executor of that lease, or its executor is retired; an idle executor has none |
| PoolTheorems.GrantsAreDrained | src/leasepool/manager.py:466-478 | when a lease is granted, its executor has no unfinished work |
| PoolGuarantees.EveryExecutorIsInOnePlace | src/leasepool/manager.py:351-418 | every executor created is exactly one of idle, leased or retired, and shut down or owed a shutdown exactly once if retired, else never |
| PoolGuarantees.RetirementIsFinal | src/leasepool/manager.py:738-741 | once retired, never idle or leased again, and shut down exactly once when nothing is owed |
| PoolGuarantees.RejectionIsPermanent | src/leasepool/manager.py:704-717 | once a lease is gone, released or past its hard expiry, every later submission under its id is rejected, through restarts too |
| PoolGuarantees.StaleIdsAreHarmless | src/leasepool/manager.py:1030-1033 | a release or late callback under an id that has left the table changes nothing, whoever holds its executor |
| PoolGuarantees.HeldLeasesAreSound | src/leasepool/manager.py:542-561 | no held lease is broken, and one asked to end has work whose callback is still to come |
| PoolGuarantees.LastCallbackEndsLease | src/leasepool/manager.py:1035-1049 | a callback ends its lease if and only if it reports a broken executor, or is the last of a lease asked to end |
| PoolGuarantees.TotalIsBounded | src/leasepool/manager.py:748-767 | never more executors than the maximum, whatever the signal does within a section; none in a stopped manager |
| PoolGuarantees.StoppedPoolIsInert | src/leasepool/manager.py:402-419 | no late release, submission, callback, attempt or wake changes a stopped pool |
| PoolGuarantees.SteadySignalIsMet | src/leasepool/manager.py:762-767 | with a steady signal a started manager always owns at least what it asks for |
| PoolGuarantees.ExpiryIsPrompt | src/leasepool/manager.py:664-686 | the checker's appointment is not after any hard expiry unless it is signalled; with a loop at most d late no record outlives its hard expiry by more than d |
| PoolGuarantees.PoolRefinesSemaphore | src/leasepool/manager.py:421-568 | every step of every run is one of a bounded counting semaphore over lease ids, and ends exactly the leases that expiry, drained release, broken executor, last callback or stop end |
| Manager.LeasedExecutorManager.FillUpTo | src/leasepool/manager.py:766-767 | the loop appends new executors until the target is met, as the section function says |
| Manager.LeasedExecutorManager.ShrinkIdleIfAboveTarget | src/leasepool/manager.py:769-775 | the loop shuts idle executors down from the end while there are too many |
| Manager.LeasedExecutorManager.TakeOrCreateAvailable | src/leasepool/manager.py:748-760 | the first idle executor, a new one below the maximum, or none |
| Manager.LeasedExecutorManager.DropLeases | src/leasepool/manager.py:787-799 | leases popped one by one in any order are gone, and their executors each shut down once |
| Manager.LeasedExecutorManager.RevokeExpiredLeases | src/leasepool/manager.py:777-802 | exactly the expired leases go, then the minimum is filled, if any went |
| Manager.LeasedExecutorManager.SecondsUntilNextHardExpiry | src/leasepool/manager.py:804-814 | the least time to a hard expiry, or none without leases |
| Manager.LeasedExecutorManager.ShouldKeep | src/leasepool/manager.py:1085-1094 | whether the executor of a lease that left the table is wanted |
| Manager.LeasedExecutorManager.FinalizeReleasedRecord | src/leasepool/manager.py:1058-1111 | done, and reported done, exactly when released and drained |
| Manager.LeasedExecutorManager.RetireBrokenRecord | src/leasepool/manager.py:989-1020 | so does a broken one, and its record can no longer be reused |
| Manager.LeasedExecutorManager.TryAcquire | src/leasepool/manager.py:461-499 | one attempt, as the section function says, with the invariant kept |
| Manager.LeasedExecutorManager.Release | src/leasepool/manager.py:533-568 | one release, as the section function says; an executor to shut down becomes a debt |
| Manager.LeasedExecutorManager.SubmitForLease | src/leasepool/manager.py:693-746 | one submission and its reply, in every branch, with the callback that may run inside the section |
| Manager.LeasedExecutorManager.OnLeaseFutureDone | src/leasepool/manager.py:1022-1056 | one callback; whether to wake, and what to shut down |
| Manager.LeasedExecutorManager.ShutDownOwed | src/leasepool/manager.py:563-564 | what an actor owes outside the lock is paid by one shutdown, and the balance of retirements, shutdowns and debts is kept |
| Manager.LeasedExecutorManager.CheckerRound | src/leasepool/manager.py:675-684 | one round, and how long the checker then sleeps |
| Manager.LeasedExecutorManager.Start | src/leasepool/manager.py:339-373 | starts, or rolls back after any number of creations, or does nothing if started |
| Manager.LeasedExecutorManager.StopEnds | src/leasepool/manager.py:402-418 | everything owned is shut down once and forgotten |
| GrinderModel.SettleAllAt | src/leasepool/grinder.py:567-569 | settling a list of items sets exactly the futures in it that were not done |
| GrinderModel.ResolveEach | src/leasepool/grinder.py:586-593 | each item gets the result at its own place, unless its future was done |
| GrinderModel.ResolveAt | src/leasepool/grinder.py:586-593 | no future outside the list, and none already done, is touched |
| GrinderModel.DeliveredAsEnded | src/leasepool/grinder.py:581-593 | a call's own ending reaches its caller if and only if it does not return an exception object |
| GrinderModel.SpoiledMeans | src/leasepool/grinder.py:556-563 | a batch fails as a whole if and only if some item cannot be called and no refusal stands before it |
| GrinderModel.LiveAt | src/leasepool/grinder.py:526-529 | a batch is exactly the drained items that are not cancelled |
| GrinderModel.LiveWithin | src/leasepool/grinder.py:526 | in their order |
| GrinderModel.WithoutAt | src/leasepool/grinder.py:412-427 | a removal takes one item and keeps the order of all others |
| GrinderEffects.AcceptEffect | src/leasepool/grinder.py:205-242 | accepted work stands last in the queue with its time, its future open, and the loop is woken |
| GrinderEffects.SettledOutsideEffect | src/leasepool/grinder.py:400-410 | a caller's cancellation schedules the removal if there is a loop, and no other settlement does |
| GrinderEffects.RemovalEffect | src/leasepool/grinder.py:412-437 | the item is cut out where it stands and the loop woken, or there is none and nothing happens |
| GrinderEffects.LookEffect | src/leasepool/grinder.py:482-502 | queued work is taken if and only if there is enough of it, or the oldest waited long enough, or a stop is under way; else all is left and the loop sleeps until then |
| GrinderEffects.EmptyLookEffect | src/leasepool/grinder.py:504-508 | with nothing queued the loop ends if it is to stop, else sleeps until woken |
| GrinderEffects.TakeUpEffect | src/leasepool/grinder.py:510-532 | the whole queue is taken, in order, without the cancelled; a batch that is not empty is counted |
| GrinderEffects.LeaseEffect | src/leasepool/grinder.py:545-630 | for every batch and refusal: what is handed over, which futures get which error, and whether the loop waits for work or gives the lease back |
| GrinderEffects.RefusalSplitsBatch | src/leasepool/grinder.py:558-578 | the executor refuses one item: just those before it are handed over and stay open, it and all after it get the error |
| GrinderEffects.NoLeaseEffect | src/leasepool/grinder.py:617-630 | without a lease every open future of the batch gets the error, and nothing else changes |
| GrinderEffects.GatheredEffect | src/leasepool/grinder.py:580-630 | each submitted item gets what its own call ended with, no other future changes, the lease goes back |
| GrinderEffects.TaskCancelledEffect | src/leasepool/grinder.py:601-615 | the batch's open futures are cancelled and no others, the lease goes back, the loop ends |
| GrinderEffects.StopBeginsEffect | src/leasepool/grinder.py:133-151 | a stop wakes the loop; only if so asked it empties the queue, with its open futures cancelled, and cancels the loop |
| GrinderEffects.StopAgainEffect | src/leasepool/grinder.py:133-164 | a stop that finds no loop does the same to the queue and resets the flags |
| GrinderEffects.SmallStepEffect | src/leasepool/grinder.py:97-164 | what starts, ends of stops and their cancellation change, and nothing else |
| GrinderSteps.LineStep | src/leasepool/grinder.py:520-578 | every step keeps handed work, waiting batch and queue one line in the order of acceptance, nothing twice |
| GrinderSteps.OpenStep | src/leasepool/grinder.py:520-630 | every step keeps each open future in the queue or in the one batch |
| GrinderSteps.LeaseStep | src/leasepool/grinder.py:628-630 | every step keeps each lease given back once, except the one in use |
| GrinderSteps.TriggerStep | src/leasepool/grinder.py:474-508 | every step keeps the sleeping loop's appointment no later than the oldest item asks for |
| GrinderSteps.PendingIsSorted | src/leasepool/grinder.py:214-226 | the queue is sorted by time of submission |
| GrinderSteps.InvStep | src/leasepool/grinder.py:97-630 | every step keeps all parts of the grinder's invariant |
| GrinderTheorems.RunsAge | src/leasepool/grinder.py:567-615 | over any run accepted and handed work only grow, and a future once done never changes |
| GrinderTheorems.FirstInFirstOut | src/leasepool/grinder.py:226-240 | what executors were given is the accepted work in its order, some left out, none twice |
| GrinderTheorems.EachItemIsInOnePlace | src/leasepool/grinder.py:510-530 | every accepted item is queued, in the one batch, or done, and not in two places |
| GrinderTheorems.CancelledInQueueIsNeverSubmitted | src/leasepool/grinder.py:400-437 | an item cancelled while queued is never submitted, in the rest of the run |
| GrinderTheorems.CancelledItemLeavesTheQueue | src/leasepool/grinder.py:412-437 | its removal is scheduled if and only if there was a loop to schedule it on; it takes the item alone, in order, and wakes the loop |
| GrinderOutcomes.SubmissionSplits | src/leasepool/grinder.py:556-578 | a refusal at any index settles the refused item and all after it; a call that cannot be prepared settles all; no future that was done is touched |
| GrinderOutcomes.BatchOutcome | src/leasepool/grinder.py:520-630 | over a batch's whole way, with anything else in between: each submitted item gets its own call's ending, each other the refusal's error, done futures are untouched, and the lease goes back once; for a batch that got a lease and is neither spoiled nor cancelled |
| GrinderOutcomes.RefusedBatch | src/leasepool/grinder.py:563-578 | a batch refused at once: every item gets the error, nothing is handed out, the lease goes back |
| GrinderOutcomes.SpoiledBatch | src/leasepool/grinder.py:557-630 | the error exit with the lease in hand: the items before the one that cannot be called are with the executor, every item gets that error, no future of the batch stays open, the lease goes back once |
| GrinderOutcomes.SubmittedWorkIsLost | src/leasepool/grinder.py:556-578 | a submitted item keeps its own ending to wait for if and only if no item that cannot be called stands up to the first refused one |
| GrinderExamples.NotCallableSpoilsBatch | src/leasepool/grinder.py:556-557 | a run of five steps in which a good item, already submitted, gets another item's error |
| GrinderOutcomes.UnleasedBatch | src/leasepool/grinder.py:617-630 | no lease to be had: every item gets the error, and no lease is given back |
| GrinderOutcomes.CancelledBatch | src/leasepool/grinder.py:601-615 | a cancelled loop leaves no lease out and no future open but those of what is queued, and nothing is queued unless the stop's caller was cancelled |
| GrinderOutcomes.CancellationInTime | src/leasepool/grinder.py:526-578 | an item of a batch is submitted if and only if it was not cancelled when the batch was formed, and stands before the first refused or uncallable one |
| GrinderExamples.LateCancellationIsSubmitted | src/leasepool/grinder.py:526-578 | a run of six steps in which a cancelled item is handed to the executor |
| GrinderStopping.StopSettlesEverything | src/leasepool/grinder.py:127-164 | when the loop has ended, every lease is given back once and only queued futures are open; in either mode nothing is queued and every accepted future is done, unless the stop's caller was cancelled |
| GrinderStopping.CancelledStopStrands | src/leasepool/grinder.py:148-159 | after a cancelled graceful stop, and through a second one, a future is open if and only if its item was queued and open at the cancellation and no caller has settled it since |
| GrinderExamples.CancelledStopLeavesWork | src/leasepool/grinder.py:148-164 | a run of ten steps after which the grinder is stopped with an open item in its queue |
| GrinderStopping.StopIsShort | src/leasepool/grinder.py:449-459 | a stop accepts nothing more, begins at most one more batch, and leaves the loop at most five steps |
| GrinderStopping.StopIsNeverStuck | src/leasepool/grinder.py:127-164 | until it has ended, the loop can step, or waits for a lease or for running work; then the stop can return or raise, and after that another can be called |
| GrinderOutcomes.FullOrOverdueBatchIsTaken | src/leasepool/grinder.py:474-518 | an idle loop before a full or overdue queue, or a stop, can step and takes exactly the uncancelled items in order, unless the stop's caller was cancelled |
| GrinderOutcomes.SleepMissesNothing | src/leasepool/grinder.py:474-508 | not woken, the loop sleeps before an empty queue, or a short one with its appointment in time for every item |
| GrinderOutcomes.SleepIsShort | src/leasepool/grinder.py:484-502 | with a loop at most d late, no item waits through a sleep longer than the longest wait and d, nor a full queue longer than d |
| GrinderWaiting.WaitIsBounded | src/leasepool/grinder.py:439-508 | as long as the loop lives, with an event loop at most d late and batches no longer than a given length, no item is queued longer than the larger of longest wait and batch length, and d |
| GrinderExamples.ReturnedErrorIsRaised | src/leasepool/grinder.py:581-593 | a run of six steps in which a returned exception object is raised |
| WorkGrinding.WorkGrinder.SettleItems | src/leasepool/grinder.py:613-615 | the loop settles the items' open futures and no others |
| WorkGrinding.WorkGrinder.Enqueue | src/leasepool/grinder.py:205-242 | accepts exactly when started and not stopping, at the end of the queue, with a new open future |
| WorkGrinding.WorkGrinder.CancelPending | src/leasepool/grinder.py:139-144 | the loop empties the queue and cancels what was open in it |
| WorkGrinding.WorkGrinder.StopAgain | src/leasepool/grinder.py:133-164 | a stop that finds no loop cancels what is queued if so asked, and nothing else, and resets the flags |
| WorkGrinding.WorkGrinder.FindPending | src/leasepool/grinder.py:420-423 | the search finds the future's item, or there is none |
| WorkGrinding.WorkGrinder.RemoveCancelledPendingItem | src/leasepool/grinder.py:412-437 | that item leaves the queue; the loop is woken exactly if it was there |
| WorkGrinding.WorkGrinder.LookAtQueue | src/leasepool/grinder.py:484-508 | whether the loop takes a batch, leaves, or sleeps, and until when |
| WorkGrinding.WorkGrinder.LiveItems | src/leasepool/grinder.py:526 | the filter keeps what is not cancelled |
| WorkGrinding.WorkGrinder.TakeUpBatch | src/leasepool/grinder.py:526-532 | a batch is counted only if something in it is live |
| WorkGrinding.WorkGrinder.SubmitItems | src/leasepool/grinder.py:556-578 | the submitted items are those before the refusal or the call that cannot be prepared; a refused one and the rest get the error |
| WorkGrinding.WorkGrinder.SubmitBatch | src/leasepool/grinder.py:556-626 | the same with the general error branch behind it |
| WorkGrinding.WorkGrinder.DeliverResults | src/leasepool/grinder.py:581-593 | the loop gives each submitted item the result at its own place |

## Left out

- Executors, threads, processes and interpreters: an executor is a name; it accepts, is broken, or fails, and `shutdown` is an event that is counted.
- Backend selection and construction (src/leasepool/backends.py) and process-log forwarding (src/leasepool/_process_logging.py): plumbing without state that the proofs need.
- Checks of the owning loop, `submit_from_thread`, `stats` and its variants, logging, owner labels, argument coercion: guards and diagnostics of one branch each.
- asyncio itself: the queueing on a condition's lock, `wait_for` running its argument in a task of its own (Python 3.11), and cancellation of a waiter in the instant it is woken are not modelled beyond the steps named above.
- Failures of executor creation outside `start`, a second stop during a stop, errors from other executors' `shutdown`, the checker or grinder loop crashing (src/leasepool/manager.py:690-691, src/leasepool/grinder.py:463-472), and an event loop that closes down and cancels all its tasks.
- `StopIteration` from a call. Raised, it cannot be copied into the executor's asyncio future, so the gathering never ends, or newer Pythons turn it into `RuntimeError`; returned as an object, it is refused at src/leasepool/grinder.py:591 and the batch ends through the general error branch, or newer Pythons turn it into that item's `RuntimeError`.
- Size readings so large that the quotient overflows binary64, where Python raises `OverflowError`: the modelled exponent has no upper end.
- The cancellation of executor futures when a batch is cancelled (src/leasepool/grinder.py:608-609): it has no effect on the work items.
- The arguments of a work item and its owner: a call is one value, and all that is known of it is whether it can be called.
- Manager.LeasedExecutorManager.TryAcquire: one attempt; the loop around it, with its waiting and time-out, is the state machine of `PoolSystem.dfy`.
- WorkGrinding.WorkGrinder.LookAtQueue: one look; the loop around it, with its sleeps, is the state machine of `GrinderSystem.dfy`.
- GrinderStopping.StopIsShort: counts the loop's own steps; that a lease is had and running work ends is up to the pool and the executor.
