# Runcell concurrency limits: a Dafny model

Runcell limits how many provider requests run at the same time. A run asks a *limiter*
for a slot before each physical request, keeps the slot alive while the response
streams, and gives it back before the end of the response becomes visible. Slots belong
to *workloads* with ceilings, strict reservations and priorities. One limiter lives in
process memory, another in Postgres and is shared by any number of workers; both use the
same allocation pass.

This project models that subsystem and proves what it promises, from one allocation pass
up to whole runs of nested agents. Three smaller parts of the repository are modelled as
well: the path from model events to UI message chunks, the workspace mirror, and the
gates for tool images and attachment paths.

## Files

| file | contents |
|---|---|
| `Prelude.dfy` | options, results, sequences as sets, sums over maps |
| `Policy.dfy` | the allocation pass: the multi-queue loop and its meaning as one sweep in rank order (module `Policy`); fairness, reservations, optimality, truncated queues (module `PolicyTheorems`) |
| `Settings.dfy` | validation of limiter settings, workload lookup, fingerprints |
| `Allocator.dfy` | the abstract slot allocator that both limiters implement |
| `MemoryLimiter.dfy` | the in-memory limiter as a state machine, and as the object that performs it |
| `LimiterAnswers.dfy` | what callers of the in-memory limiter can rely on, by clock readings, counts and settings |
| `Postgres.dfy`, `PostgresProtocol.dfy` | the entries table and its transactions, the statements that perform them, and any number of workers |
| `PostgresAnswers.dfy` | what callers of the Postgres limiter can rely on, by columns and transaction times |
| `Controller.dfy` | the slot lifecycle of one run: admission, renewal, loss, release, disposal |
| `RequestAnswers.dfy` | what a run can rely on for each request, by times and announced events |
| `LeaseSafety.dfy` | in-memory limiter and permits together: lease expiry end to end |
| `RemoteLeases.dfy` | workers, table and permits together: lease expiry end to end for the Postgres limiter |
| `ProviderGate.dfy` | the forwarding stream and the order of admission, call, release and terminal event |
| `NestedRuns.dfy` | agents that start agents under one limiter |
| `ChatStream.dfy` | event translator, chunk converter and the grammar of a UI message |
| `ChatAnswers.dfy` | which tools, reasoning and ending reach the client |
| `Mirror.dfy` | the workspace mirror |
| `ToolContent.dfy` | base64 and the tool-content envelope |
| `Attachments.dfy` | attachment names and the workspace path check |

State that the source changes in place is a class whose methods change it in place; each
method's postcondition equates the new state with a function of the old one, and the
theorems are about that function and about runs of it. Code that only computes is
functions and lemmas. The modules whose names end in `Answers` say the same once more in
literal terms, without the functions that define the behaviour: clock readings, columns,
priorities, option values, announced events.

## Hypotheses

- Sequence numbers of waiting requests are distinct. Both limiters issue them from a counter.
- Progress needs room: the other workloads' reservations must add up to less than
  `maxConcurrent`. Validation accepts settings where they do not, and then the workload
  never runs (`Allocator.AcceptedSettingsMayStarve`).
- Clocks never go back, and limiter and permits of the in-memory case read the same clock;
  it may move on between the reading of a pass and the one `toLease` makes of its own. The
  statements about renewal timing also need timers that fire when due.
- In memory a fresh lease reaches its permit as soon as it is made out; renewals take any time.
- In Postgres a transaction is atomic and has its own `now()`, which need not follow the
  order of the commits. Conflicting fingerprints are rejected.
- End to end, workers and database read clocks that run alike, all workers use the same
  `leaseTtlMs`, a permit has one renewal at a time on its way, and the answer to a grant
  leaves at least a millisecond of its TTL.

## Where the code falls short of a plain statement

- Settings are accepted with a workload that can never run: `Allocator.AcceptedSettingsMayStarve`
  gives them for every limit, `Allocator.RunnableExactlyWhenOthersLeaveRoom` the exact condition.
- `dispose` covers the permits that exist. That no permit is live afterwards holds exactly
  when no earlier `admit` is still in flight: `Controller.DisposeCoversWhatExists`.
- A permit may be woken only after its local expiry. It is woken in time at every moment of
  every run exactly when each lease leaves time for it: round trip of the answer plus renewal
  delay within the TTL (`Controller.WakesInTimeExactlyWhenSuited`). `Controller.LateAnswers`
  has late leases of both kinds, a TTL cut short and a renewal delay too long. A limiter that
  sets no delay and never shortens the TTL always meets the condition
  (`Controller.HeldPermitsWakeInTime`).
- `toLease` reads the clock after the pass that granted the slot and never states less than
  a millisecond, so a lease made out too late outlives its slot. It does not exactly when it
  is made out before the slot expires: `LeaseSafety.LeaseIsConservativeWhenMadeOutInTime`.
- The same clamp lets a fresh lease outlive its row in Postgres, exactly when the round trip
  leaves less than a millisecond: `RemoteLeases.RemoteLeaseIsConservative`. Renewed leases
  need no such condition (`RemoteLeases.PermitStaysCovered`).
- A turn or assistant message that starts inside an open block breaks the chunk grammar as
  soon as the next block begins: `ChatStream.StartInsideABlockBreaksTheMessage`, with the
  exact condition in `ChatStream.WellFormedExactlyWhenClean`.
- The workspace path check looks for a drive letter at the start of the raw path only, so its
  result may start with one: `Attachments.DotHidesTheDrive` gives the family,
  `Attachments.AcceptedPathsAreStable` the exact condition on the raw path.
- A host that has a regular file called `.pi` or `.agents`, or a directory called like a
  context file, is not mirrored there: the sync leaves that entry alone, and fails when the
  sandbox has one of that name. `Mirror.Sync` has the exact conditions.
- The table of attachment extensions is a plain object, so the media types `constructor`
  and `__proto__` are found in it; the resulting names are odd but safe
  (`Attachments.AttachmentsHaveOwnSafePaths` covers them).

## Model

| member | source | states |
|---|---|---|
| Policy.SelectGrants | packages/agent/src/concurrency-policy.ts:259-332 | the multi-queue greedy loop returns exactly the grants of one left-to-right sweep over the known waiters in rank order (priority descending, then oldest); neither the order of the waiter array nor that of the workload keys matters |
| Policy.GrantLoop | packages/agent/src/concurrency-policy.ts:293-331 | the while loop, from any counts and queues, grants what the sweep over the queued waiters grants |
| Policy.PickBest | packages/agent/src/concurrency-policy.ts:295-322 | the head chosen is admissible, and no admissible queue head has a higher priority, or the same priority and an older request; none is chosen only when no head is admissible |
| Policy.BuildQueues | packages/agent/src/concurrency-policy.ts:270-281 | each known workload gets its FIFO queue, unknown workloads are dropped |
| Policy.UnmetReservations | packages/agent/src/concurrency-policy.ts:283-291 | the loop sums the unmet reservations of all workloads but one, for any key order |
| Policy.CopyActive | packages/agent/src/concurrency-policy.ts:264-269 | the active counts are copied and their total is their sum |
| Policy.GrantNeverMakesRoom | packages/agent/src/concurrency-policy.ts:249-258 | slots in use plus the other workloads' unmet reservations never go down when a slot is granted |
| Policy.StaysBlocked | packages/agent/src/concurrency-policy.ts:294-330 | a workload blocked during a pass stays blocked for the rest of it |
| PolicyTheorems.GrantsAreFairAndFifo | packages/agent/src/concurrency-policy.ts:254-255 | the grant list is in rank order, and each workload's grants are a prefix of its FIFO queue |
| PolicyTheorems.HigherPriorityGoesFirst | packages/agent/src/concurrency-policy.ts:254-255 | of two grants the earlier one has the higher priority, or the same priority and the older request |
| PolicyTheorems.OnlyBlockedRequestsArePassedOver | packages/agent/src/concurrency-policy.ts:254-258 | a request is passed over for one with a lower priority, or a younger one with the same, only while its workload had no room |
| PolicyTheorems.SweepKeepsBounds | packages/agent/src/concurrency-policy.ts:249-253 | a pass keeps every ceiling and keeps slots plus unmet reservations within the limit |
| PolicyTheorems.PassLeavesNobodyAdmissible | packages/agent/src/concurrency-policy.ts:294-330 | after a pass no waiter left in the queue could be granted |
| PolicyTheorems.ReservedIsAdmissible | packages/agent/src/concurrency-policy.ts:251-253 | in a bounded pool a workload below its reservation always has room |
| PolicyTheorems.OthersReservationsStayFree | packages/agent/src/concurrency-policy.ts:251-253 | in a bounded pool a workload's slots plus all other workloads' reservations fit under the limit |
| PolicyTheorems.PassIsOptimal | packages/agent/src/concurrency-policy.ts:283-330 | from any state that honours the reservations, no set of waiters that respects ceilings and reservations is larger than the set granted, whatever the priorities |
| PolicyTheorems.GrantsAreFeasible | packages/agent/src/concurrency-policy.ts:283-330 | the granted set itself respects ceilings and reservations, so the optimum is attained |
| PolicyTheorems.TruncatedQueueGivesSameGrants | packages/concurrency-postgres/src/index.ts:348-365 | reading only the first `maxConcurrent` waiters of each workload gives the same grants as reading all |
| LimiterSettings.ResolveLimits | packages/agent/src/concurrency-policy.ts:75-178 | validation accepts exactly the acceptable settings, fills the defaults, and blames a workload only if it is faulty |
| LimiterSettings.ResolveEntries | packages/agent/src/concurrency-policy.ts:98-146 | the loop accepts exactly when every entry is good, and accumulates settings and reservations |
| LimiterSettings.ResolveEntry | packages/agent/src/concurrency-policy.ts:100-145 | one workload's checks, in the source's order, accept exactly good entries |
| LimiterSettings.ResolvedLimitsStartBounded | packages/agent/src/concurrency-policy.ts:118-151 | accepted settings start every limiter in a state that honours ceilings and reservations |
| LimiterSettings.ResolvedWorkloadSaysWhatWasAsked | packages/agent/src/concurrency-policy.ts:100-145 | every workload has the ceiling, reservation, priority and wait limit it was given, and by default the whole limit, 0, 0 and none |
| LimiterSettings.ResolvedLimitsSayWhatWasAsked | packages/agent/src/concurrency-policy.ts:84-178 | limit, queue bound and workload names are those given; the default workload is the one named, else "default", else the only one |
| LimiterSettings.AcceptedSettingsAreInRange | packages/agent/src/concurrency-policy.ts:98-178 | whatever is accepted is within the documented ranges |
| LimiterSettings.SpelledOutLimitsResolveToThemselves | packages/agent/src/concurrency-policy.ts:75-178 | limits within those ranges, spelled out in full, are accepted and resolve to themselves |
| LimiterSettings.ResolveWorkload | packages/agent/src/concurrency-policy.ts:184-205 | a request resolves exactly when it or the default names a configured workload, and then to that workload's settings; otherwise the error names the workload that was asked for, if any |
| LimiterSettings.FingerprintIdentifiesLimits | packages/agent/src/concurrency-policy.ts:212-234 | two workers compute the same fingerprint exactly when they hold the same limits, whatever their key order |
| Allocator.StepKeepsInv | packages/agent/src/concurrency-policy.ts:249-258 | enqueue, cancel, release, expire, renew and allocate all keep ceilings and reservations |
| Allocator.ReachableStatesAreSafe | packages/agent/src/concurrency-policy.ts:249-258 | in every reachable state: slots within the limit, each workload within its ceiling and within the limit minus the others' reservations |
| Allocator.AllocateLeavesNobody | packages/agent/src/concurrency-limiter.ts:134-156 | after an allocation no queued request is admissible |
| Allocator.ReservationsAreServed | packages/agent/src/concurrency-policy.ts:251-253 | while nobody waits in vain, a workload with a waiting request has used up its reservation |
| Allocator.RunnableExactlyWhenOthersLeaveRoom | packages/agent/src/concurrency-policy.ts:294-322 | a workload can ever be served exactly when the other workloads' reservations add up to less than the limit |
| Allocator.AcceptedSettingsMayStarve | packages/agent/src/concurrency-policy.ts:118-151 | for every limit, validation accepts settings that reserve all of it for one workload, and the other is then never admissible |
| MemoryLimiter.ScheduleEstablishesInv | packages/agent/src/concurrency-limiter.ts:134-156 | one scheduling pass, from any sound state, leaves nobody waiting in vain and the timer armed, by abstract steps only |
| MemoryLimiter.EventKeepsInv | packages/agent/src/concurrency-limiter.ts:115-275 | acquire, abort, wait limit, timer, renew and release each keep the invariant (no admissible waiter, timer by the earliest expiry) and refine the abstract allocator, although removals start no pass |
| MemoryLimiter.EveryRunIsSafeAndLive | packages/agent/src/concurrency-limiter.ts:75-275 | every run from the start respects capacity, ceilings and reservations, serves reserved slots, loses no wake-up |
| MemoryLimiter.EventKeepsQueueBound | packages/agent/src/concurrency-limiter.ts:222-232 | no event leaves more than `maxQueued` requests waiting |
| MemoryLimiter.EventKeepsSlot | packages/agent/src/concurrency-limiter.ts:99-105 | a slot leaves before its expiry only by its own release, and is never shortened |
| MemoryLimiter.EventKeepsHorizon | packages/agent/src/concurrency-limiter.ts:147-151 | no slot outlives one lease time from now |
| MemoryLimiter.EventGrantsFullLeases | packages/agent/src/concurrency-limiter.ts:147-153 | every new slot lasts exactly one lease time |
| MemoryLimiter.EventKeepsBookkeeping | packages/agent/src/concurrency-limiter.ts:179-257 | every promise is pending or settled once, and every slot belongs to exactly one request, of its workload |
| MemoryLimiter.EventGrows | packages/agent/src/concurrency-limiter.ts:179-275 | settled promises stay settled, nobody leaves the queue unsettled, slot ids are not reused |
| LimiterAnswers.ExpiredSlotsAreFreed | packages/agent/src/concurrency-limiter.ts:99-105 | after an admitted acquire, the timer, a release or a late renewal every slot left expires after the clock reading |
| LimiterAnswers.NobodyWaitsForTheDead | packages/agent/src/concurrency-limiter.ts:134-156 | after such an event nobody waits who would be admissible if only unexpired slots counted |
| LimiterAnswers.EventKeepsTimerNotEarly | packages/agent/src/concurrency-limiter.ts:115-132 | the timer is set exactly while somebody waits and something is held, and not before the first expiry |
| LimiterAnswers.FiringFreesASlot | packages/agent/src/concurrency-limiter.ts:125-131 | when the timer fires there is an expired slot, and it is freed |
| LimiterAnswers.EventSettlesWithCause | packages/agent/src/concurrency-limiter.ts:107-257 | a lease is for the request's workload, with a slot for one lease time and the TTL left when it is made out; a refusal is this request's abort, its wait limit, an unknown workload, or a queue in which `maxQueued` others wait |
| LimiterAnswers.RefusalsTakeEffect | packages/agent/src/concurrency-limiter.ts:179-257 | an abort and a wait limit settle their request at once; an unknown workload or an aborted signal queues nothing |
| LimiterAnswers.EventSetsLimits | packages/agent/src/concurrency-limiter.ts:234-256 | a new request waits until its own limit or its workload's, whichever is sooner, and no event changes the limit of another |
| LimiterAnswers.TimesOutOnlyAfterItsLimit | packages/agent/src/concurrency-limiter.ts:234-256 | in every run a waiting request is told that it timed out only once its limit has passed, and never if it has none |
| MemoryLimiterClass.SweepSame | packages/agent/src/concurrency-policy.ts:264-269 | a pass depends on the active counts only, not on which zero counts are listed |
| MemoryLimiterClass.InMemoryLimiter.constructor | packages/agent/src/concurrency-limiter.ts:75-97 | a fresh limiter is empty and valid |
| MemoryLimiterClass.InMemoryLimiter.PurgeExpired | packages/agent/src/concurrency-limiter.ts:99-105 | the loop removes exactly the slots whose expiry is at or before the clock reading |
| MemoryLimiterClass.InMemoryLimiter.ArmExpiryTimer | packages/agent/src/concurrency-limiter.ts:115-132 | the timer is set to the earliest expiry, or cleared when nothing waits or is held |
| MemoryLimiterClass.InMemoryLimiter.CountActive | packages/agent/src/concurrency-limiter.ts:137-140 | the loop counts the slots of every workload |
| MemoryLimiterClass.InMemoryLimiter.GrantSlots | packages/agent/src/concurrency-limiter.ts:107-154 | the granted waiters leave the queue, get slots and have their promises settled with the TTL that is left at `toLease`'s own clock reading, at least a millisecond |
| MemoryLimiterClass.InMemoryLimiter.Schedule | packages/agent/src/concurrency-limiter.ts:134-156 | purge, count, select, grant and re-arm have the effect of one scheduling pass |
| MemoryLimiterClass.InMemoryLimiter.Acquire | packages/agent/src/concurrency-limiter.ts:179-257 | `acquire` in place equals the acquire event and keeps the invariant |
| MemoryLimiterClass.InMemoryLimiter.Abort | packages/agent/src/concurrency-limiter.ts:194-200 | the abort handler equals the abort event and keeps the invariant |
| MemoryLimiterClass.InMemoryLimiter.WaitTimeout | packages/agent/src/concurrency-limiter.ts:238-255 | the wait-limit timer equals its event and keeps the invariant |
| MemoryLimiterClass.InMemoryLimiter.TimerFires | packages/agent/src/concurrency-limiter.ts:125-131 | the expiry timer equals its event and keeps the invariant |
| MemoryLimiterClass.InMemoryLimiter.Renew | packages/agent/src/concurrency-limiter.ts:259-269 | `renew` extends a slot that has not expired, else schedules; it answers a lease exactly in the first case, with the TTL left when the lease is made out |
| MemoryLimiterClass.InMemoryLimiter.Release | packages/agent/src/concurrency-limiter.ts:271-275 | `release` in place equals the release event and keeps the invariant |
| Postgres.PurgedIsAbstract | packages/concurrency-postgres/src/index.ts:320-332 | the three clean-up statements are expire and cancel steps of the abstract allocator |
| Postgres.AllocateIsAbstract | packages/concurrency-postgres/src/index.ts:319-378 | `allocate` takes abstract steps only and leaves no admissible row waiting |
| Postgres.StartIsSound | packages/concurrency-postgres/src/index.ts:433-465 | the first transaction of `acquire` keeps the table sound and refines the allocator |
| Postgres.PollIsSound | packages/concurrency-postgres/src/index.ts:491-507 | a poll does, with or without the limiter's lock |
| Postgres.CancelIsSound | packages/concurrency-postgres/src/index.ts:395-405 | `cancelEntry` does, whether it removes a waiting or a granted row |
| Postgres.RenewIsSound | packages/concurrency-postgres/src/index.ts:563-573 | a renewal does, at any time and without the lock |
| Postgres.ReleaseIsSound | packages/concurrency-postgres/src/index.ts:586-595 | a release does |
| PostgresTransactions.QueryWaiting | packages/concurrency-postgres/src/index.ts:350-356 | the ranked query returns the first waiters of each workload, by age |
| PostgresTransactions.QueriesSuffice | packages/concurrency-postgres/src/index.ts:334-365 | what the two queries return determines the grants of the whole table, and a full limiter grants nothing |
| PostgresTransactions.GranteeIsGranted | packages/concurrency-postgres/src/index.ts:370-377 | the ids `allocate` returns are exactly the waiting entries that became granted |
| PostgresTransactions.EntriesTable.LockLimiter | packages/concurrency-postgres/src/index.ts:281-316 | the first fingerprint is registered, another one is rejected without effect |
| PostgresTransactions.EntriesTable.Allocate | packages/concurrency-postgres/src/index.ts:319-378 | the statements of `allocate` have its effect on the table and return its grantees |
| PostgresTransactions.EntriesTable.Start | packages/concurrency-postgres/src/index.ts:433-465 | insert, allocate, count and the full-queue deletion have the effect and result of the first transaction |
| PostgresTransactions.EntriesTable.Poll | packages/concurrency-postgres/src/index.ts:491-507 | the statements of one poll have its effect and result |
| PostgresTransactions.EntriesTable.Cancel | packages/concurrency-postgres/src/index.ts:395-405 | delete, and allocate if the entry was granted |
| PostgresTransactions.EntriesTable.Renew | packages/concurrency-postgres/src/index.ts:563-573 | extends exactly an unexpired granted entry and says so |
| PostgresTransactions.EntriesTable.Release | packages/concurrency-postgres/src/index.ts:586-595 | delete if granted, then allocate |
| PostgresProtocol.StepKeepsSound | packages/concurrency-postgres/src/index.ts:395-595 | any step of any call, under any worker, keeps the table sound under the limits registered first, refines the allocator, and moves entries only forward |
| PostgresProtocol.EveryRunIsSafe | packages/concurrency-postgres/src/index.ts:281-595 | every interleaving of transactions, aborts, renewals and releases of any number of workers keeps ceilings, reservations and the queue limit, leaves nobody waiting in vain, and is a run of the abstract allocator |
| PostgresProtocol.AcquireIsCancellationSafe | packages/concurrency-postgres/src/index.ts:415-546 | a rejected `acquire` has left no entry, a successful one has a granted entry or none, and an entry that left the queue never waits again |
| PostgresProtocol.EqualMarksEqualGrants | packages/agent/src/concurrency-policy.ts:207-234 | workers with equal fingerprints compute equal grants, from the truncated or the whole queue |
| PostgresProtocol.FleetExists | packages/concurrency-postgres/src/index.ts:299-315 | for any set of workers, fingerprints determine limits |
| PostgresAnswers.AllocatedRow | packages/concurrency-postgres/src/index.ts:319-378 | a granted row goes exactly when its lease has expired, a waiting or expired one exactly when its heartbeat has; a waiting one past its deadline becomes expired, and any other stays as it is or is granted until `expiry` |
| PostgresAnswers.AllocateLeavesOnlyValidRows | packages/concurrency-postgres/src/index.ts:319-332 | after `allocate` no row is left whose lease, heartbeat or deadline has passed, but for the expired mark |
| PostgresAnswers.CheckedRow | packages/concurrency-postgres/src/index.ts:497-507 | the second half of a poll answers with the state of the row, renews its heartbeat, and removes an expired one |
| PostgresAnswers.StartAnswers | packages/concurrency-postgres/src/index.ts:433-465 | the first transaction ends with a lease for its workload until `expiry`, a full queue of others, a waiting entry as asked, or different settings and no change |
| PostgresAnswers.RejectionHasCause | packages/concurrency-postgres/src/index.ts:415-546 | a call gives up only for its own abort, different settings, a full queue, or an entry found expired or gone |
| PostgresAnswers.StartDecides | packages/concurrency-postgres/src/index.ts:466-488 | what a call does with the answer of its first transaction |
| PostgresAnswers.PollDecides | packages/concurrency-postgres/src/index.ts:508-545 | what a call does with the answer of a poll |
| PostgresAnswers.AbortedCallsGetNoLease | packages/concurrency-postgres/src/index.ts:474-477 | once aborted, a call without a lease never gets one |
| PostgresAnswers.GrantedCallsGetTheLease | packages/concurrency-postgres/src/index.ts:467-519 | a call that was not aborted has its lease exactly when its transaction leaves its entry granted |
| PostgresAnswers.BeginSetsLimit | packages/concurrency-postgres/src/index.ts:415-430 | the wait limit of a call is the shorter of the caller's and the workload's, and an unknown workload or an aborted signal rejects it |
| PostgresAnswers.TimesOutOnlyAfterItsDeadline | packages/concurrency-postgres/src/index.ts:329-332 | in every run an `acquire` is rejected as timed out only if some transaction ran at or after the deadline its first transaction set |
| PostgresAnswers.DeadlineIsStartPlusLimit | packages/concurrency-postgres/src/index.ts:435-447 | that deadline is the start of the first transaction plus the wait limit |
| PostgresAnswers.ReleaseFrees | packages/concurrency-postgres/src/index.ts:586-595 | a release leaves no entry of its lease |
| PostgresAnswers.RenewExtends | packages/concurrency-postgres/src/index.ts:563-573 | a renewal extends an unexpired lease to `expiry`, and does nothing otherwise |
| Controller.SlotConservation | packages/agent/src/concurrency-controller.ts:205-361 | in every interleaving a valid lease handed over is kept by its request or returned by exactly one release call, never both, never neither |
| Controller.OneEndPerRequest | packages/agent/src/concurrency-controller.ts:154-260 | a request ends with exactly one verdict, or with one acquisition and one `released` event, which comes last |
| Controller.NothingAfterReleased | packages/agent/src/concurrency-controller.ts:347-361 | after `released` nothing is emitted, released or scheduled |
| Controller.HappeningKeepsInv | packages/agent/src/concurrency-controller.ts:205-361 | every event keeps the account of leases, release calls and events of a request |
| Controller.StepInTimeExactlyWhenSuited | packages/agent/src/concurrency-controller.ts:297-345 | with prompt timers, one event leaves a live permit with a wake-up by its local expiry exactly when the lease it brings, if any, leaves time for it: round trip plus renewal delay within the TTL |
| Controller.WakesInTimeExactlyWhenSuited | packages/agent/src/concurrency-controller.ts:262-345 | from the request on, a held permit has a wake-up by its local expiry at every moment of a run exactly when every lease it is given, the first and each renewed one, meets that condition |
| Controller.KeepingTheTtlSuits | packages/agent/src/concurrency-controller.ts:326-332 | a limiter that sets no renewal delay and never shortens the TTL meets the condition whatever the round trips |
| Controller.HeldPermitsWakeInTime | packages/agent/src/concurrency-controller.ts:262-345 | with such a limiter, from the request on, a held permit always has a wake-up pending by its local expiry, renewals being sent with at most half a TTL left |
| Controller.LateAnswers | packages/agent/src/concurrency-controller.ts:329-332 | complete runs in which a TTL cut to 100 ms is late after a round trip of 100 ms and in time after one of 10 ms, and a delay of 2000 ms in a TTL of 1000 ms is late |
| Controller.RetriesEndInLoss | packages/agent/src/concurrency-controller.ts:297-342 | a permit whose renewals only ever fail keeps its local expiry, is asked for again fewer times than there were milliseconds left at the first attempt, and after that many attempts and one more is lost: revoked, announced, and released once |
| Controller.AttemptRetriesOrLoses | packages/agent/src/concurrency-controller.ts:333-342 | a failing attempt before the local expiry sets the retry timer and changes nothing else of the permit, one after it loses the lease |
| RequestAnswers.FailedRenewalIsRetried | packages/agent/src/concurrency-controller.ts:333-342 | a renewal that fails with time left is announced and tried again after one second or half the time left, whichever is shorter, and nothing else of the permit changes; with no time left the lease is lost |
| RequestAnswers.OneFailureLosesNothing | packages/agent/src/concurrency-controller.ts:333-342 | a prompt timer after such a failure sends another renewal and does not lose the lease |
| RequestAnswers.TimerSendsOrLoses | packages/agent/src/concurrency-controller.ts:297-305 | the renewal timer sends a renewal exactly when it fires before the local expiry, and else loses the lease |
| RequestAnswers.FreshPermit | packages/agent/src/concurrency-controller.ts:262-275 | a fresh permit lasts its TTL from now and is renewed when the lease asks for it, or after half the TTL |
| RequestAnswers.RenewedPermit | packages/agent/src/concurrency-controller.ts:326-332 | a renewed lease lasts its TTL from when the renewal was sent |
| RequestAnswers.VerdictSaysWhy | packages/agent/src/concurrency-controller.ts:154-203 | exactly the refusals announce a verdict and record its failure: the deadline before a cancellation before the error, a cancellation being no failure |
| RequestAnswers.UnwantedLeasesGoBack | packages/agent/src/concurrency-controller.ts:229-243 | a lease that comes too late or is not valid is released under its id |
| RequestAnswers.AdmissionAtTheDoor | packages/agent/src/concurrency-controller.ts:105-120 | after a failure or a cancellation no request starts; after the deadline one times out at once |
| RequestAnswers.FirstReleaseDecides | packages/agent/src/concurrency-controller.ts:347-361 | whatever follows, `released` carries the outcome of the first release |
| RequestAnswers.LossDecides | packages/agent/src/concurrency-controller.ts:281-295 | a lost lease ends as lost |
| RequestAnswers.DisposeCancels | packages/agent/src/concurrency-controller.ts:372-378 | `dispose` ends every live permit as cancelled and changes no other request |
| RequestAnswers.ReleaseIsReported | packages/agent/src/concurrency-controller.ts:97-103 | a release that fails is announced before `released`, one that succeeds is not |
| Controller.StepKeepsAll | packages/agent/src/concurrency-controller.ts:92-108 | every step keeps every request's account; the first failure stays and denies every later request |
| Controller.StepKeepsFailureKnown | packages/agent/src/concurrency-controller.ts:154-203 | the run has a failure recorded exactly when one of its requests announced one; a cancellation is none |
| Controller.DisposeCoversWhatExists | packages/agent/src/concurrency-controller.ts:372-378 | `dispose` leaves no live permit; none is live ever after exactly when no `admit` was in flight |
| PermitClass.Permit.constructor | packages/agent/src/concurrency-controller.ts:262-275 | `createPermit` starts a live permit with its expiry and its first renewal scheduled |
| PermitClass.Permit.Renew | packages/agent/src/concurrency-controller.ts:297-311 | the renewal timer sends a renewal or gives the lease up, recording the failure |
| PermitClass.Permit.RenewalAnswered | packages/agent/src/concurrency-controller.ts:312-332 | the answer replaces the lease, counts from the send time, or loses or retries |
| PermitClass.Permit.RenewalFailed | packages/agent/src/concurrency-controller.ts:333-342 | a failed renewal is announced and retried, or the lease is lost |
| PermitClass.Permit.Lose | packages/agent/src/concurrency-controller.ts:281-295 | losing a live lease records the failure, revokes, and releases; otherwise nothing |
| PermitClass.Permit.Release | packages/agent/src/concurrency-controller.ts:347-361 | the first release clears the timer and calls the limiter once, later ones do nothing |
| PermitClass.Permit.Settled | packages/agent/src/concurrency-controller.ts:351-359 | when the call settles, `released` is emitted with the outcome of the first release |
| PermitClass.RunState.Fail | packages/agent/src/concurrency-controller.ts:92-95 | the first failure is kept |
| LeaseSafety.LocallyValidPermitsHoldSlots | packages/agent/src/concurrency-controller.ts:262-345 | in every reachable state of in-memory limiter and permits, each unreleased permit whose lease is valid on its own clock has an unexpired slot of its own that lasts at least as long, so they never number more than the limit |
| LeaseSafety.StepKeepsInv | packages/agent/src/concurrency-limiter.ts:259-269 | limiter events, renewals in flight, answers and permit events keep every local expiry covered by its slot |
| LeaseSafety.LeaseIsConservativeWhenMadeOutInTime | packages/agent/src/concurrency-limiter.ts:107-112 | with a second clock reading at most `lag` later, every lease ends with its slot, not later and not earlier, exactly when `lag` is less than the lease time |
| RemoteLeases.LocallyValidPermitsHoldRows | packages/concurrency-postgres/src/index.ts:380-392 | in every reachable state of workers, table and permits, each unreleased permit whose lease is valid on its own clock has a granted, unexpired row of its own that lasts at least as long, so they never number more than the registered limit |
| RemoteLeases.StepKeepsInv | packages/concurrency-postgres/src/index.ts:563-595 | transactions that commit in any order of their `now()`, answers on their way and permit events keep every local expiry covered by its row |
| RemoteLeases.TransactionKeepsGranted | packages/concurrency-postgres/src/index.ts:319-332 | no transaction takes away or changes a granted row that has not expired when it commits, except the one its call is about |
| RemoteLeases.PermitStaysCovered | packages/agent/src/concurrency-controller.ts:329-332 | a renewed lease counts from when the permit sent the renewal and so ends before the row, whatever the round trip and even when clamped |
| RemoteLeases.RunOfTheProtocol | packages/concurrency-postgres/src/index.ts:415-546 | the transactions of such an execution are a run of the worker protocol |
| RemoteLeases.RemoteLeaseIsConservative | packages/concurrency-postgres/src/index.ts:380-392 | the caller's expiry stays within the row's, whenever the transaction ran, exactly when the TTL exceeds the round trip by a millisecond |
| RemoteLeases.RemoteTtlIsLongest | packages/concurrency-postgres/src/index.ts:380-392 | no longer whole number of milliseconds would do |
| RemoteLeases.StartGrantIsTheAnswer | packages/concurrency-postgres/src/index.ts:467-473 | the lease of a first transaction is made of a whole lease time |
| RemoteLeases.PollGrantIsTheAnswer | packages/concurrency-postgres/src/index.ts:508-515 | the lease of a poll is made of what the poll read in the row |
| ProviderGate.OneConsumerGetsEverything | packages/harness-pi-raw/src/pi-provider-gate.ts:233-284 | for every interleaving of push, finish and reads one consumer receives the pushed events in order, nothing after the finish, and all of them once it has ended |
| ProviderGate.TerminalOnlyAfterRelease | packages/harness-pi-raw/src/pi-provider-gate.ts:123-200 | the provider is called at most once and only after admission; the terminal event or the end of an admitted request is seen only after its release settled |
| ProviderGate.ConsumerSeesTheProvider | packages/harness-pi-raw/src/pi-provider-gate.ts:170-200 | the consumer receives the provider's content in order, then its own terminal event; an error stands for a denial or failure, and nothing for a stream that just ended |
| ProviderGate.SlotIsReturnedForTheReason | packages/harness-pi-raw/src/pi-provider-gate.ts:166-195 | the permit is released as completed, failed or cancelled as the provider's side ended, or as cancelled because the caller aborted |
| ProviderGate.FirstReleaseCounts | packages/harness-pi-raw/src/pi-provider-gate.ts:164-169 | an abort of the caller gives the slot back at once, and the first release counts |
| ProviderGate.ForwardingStream.Push | packages/harness-pi-raw/src/pi-provider-gate.ts:242-250 | an event goes to the first waiting reader, else to the queue, and is dropped after the finish |
| ProviderGate.ForwardingStream.Finish | packages/harness-pi-raw/src/pi-provider-gate.ts:252-262 | the last event is delivered, then every waiting reader is told the end; only once |
| ProviderGate.ForwardingStream.Read | packages/harness-pi-raw/src/pi-provider-gate.ts:268-283 | one step of the iterator |
| NestedRuns.NestedAgentsNeverDeadlock | packages/agent/src/runtime.ts:1113-1126 | for any programs of nested runs under one limiter, one slot included, every reachable state is finished or has a run that can move on |
| NestedRuns.NeverStuck | packages/harness-pi-raw/src/pi-provider-gate.ts:170-191 | the last unfinished run waits for no other run, and if it waits for a slot its holder is in a provider request |
| NestedRuns.StepKeepsInv | packages/agent/src/runtime.ts:1113-1126 | every step keeps each slot attached to a run that is asking for it or calling the provider |
| NestedRuns.StepDoesWork | packages/agent/src/runtime.ts:1113-1126 | every step of a run uses up some of the work of all programs together, and background events add none |
| NestedRuns.EveryRunFinishes | packages/agent/src/runtime.ts:1113-1126 | no execution has more steps of runs than three for each act and one for each program, and one in which no run can move on has finished them all |
| ChatStream.WellFormedExactlyWhenClean | packages/agent/src/ui-message-stream.ts:292-507 | for every sequence of events and turns and either ending, translator and converter produce one well-formed message exactly when no block begins while the client has another one open |
| ChatStream.StartsBetweenBlocksIsClean | packages/harness-pi-raw/src/pi-translate.ts:148-162 | that is the case whenever no turn or assistant message starts inside an open block |
| ChatStream.StartInsideABlockBreaksTheMessage | packages/harness-pi-raw/src/pi-translate.ts:156-161 | without that condition it fails |
| ChatStream.ClientSeesTheMessageText | packages/harness-pi-raw/src/pi-translate.ts:221-249 | the client receives the text deltas of a message, completed to the full text when they are a prefix of it and the text block is open at its end |
| ChatStream.TerminalCloses | packages/agent/src/ui-message-stream.ts:461-506 | wherever the message is, `finish` and `fail` complete it |
| ChatStream.PartReads | packages/agent/src/ui-message-stream.ts:346-459 | a part leads to the place the converter's state says, exactly when it fits the open block |
| ChatStream.HostResultArrivesOnce | packages/harness-pi-raw/src/pi-translate.ts:262-299 | the result part of a call carries what the host submitted in place of the echoed text, whatever else the turn brings in between, and only once |
| ChatAnswers.ToolsAreShownAsSet | packages/agent/src/ui-message-stream.ts:408-444 | the tool chunks of any parts are exactly those `sendTools` allows, in order, each with the part's call id, name and payload, and without the payload under names-only |
| ChatAnswers.RunShowsToolsAsSet | packages/agent/src/ui-message-stream.ts:277-290 | the same for a whole run |
| ChatAnswers.NothingHiddenLeaves | packages/agent/src/ui-message-stream.ts:408-444 | under names-only no input or output of the tool leaves, and nothing of a tool that is switched off or internal |
| ChatAnswers.ClientSeesTheReasoning | packages/harness-pi-raw/src/pi-translate.ts:193-220 | the client receives exactly the thinking deltas of started turns, or nothing when `sendReasoning` is off |
| ChatAnswers.MessageEndsAsTheRunDid | packages/agent/src/ui-message-stream.ts:461-506 | a finished run ends in `finish`, a failed one in its error text, after its usage exactly if that is known |
| ChatAnswers.BlocksAreOpenedUnderFreshIds | packages/harness-pi-raw/src/pi-translate.ts:181-206 | in a whole run the translator opens no two blocks under the same id |
| ChatAnswers.BlocksKeepTheirIds | packages/agent/src/ui-message-stream.ts:346-407 | a block has the id of the part that opens it |
| ChatAnswers.CallsAreTranslated | packages/harness-pi-raw/src/pi-translate.ts:251-268 | a call goes by its common name, keeps its native one beside it, and is marked when it runs natively |
| ChatAnswers.ResultsAreTranslated | packages/harness-pi-raw/src/pi-translate.ts:270-310 | a result goes by the name of its call or its own, with its error mark |
| ChatAnswers.CompactionsAreReported | packages/harness-pi-raw/src/pi-translate.ts:312-337 | a compaction that took place is reported with its summary or a placeholder |
| ChatAnswers.TurnsStartAfresh | packages/harness-pi-raw/src/pi-translate.ts:66-83 | a turn starts with nothing of the one before but the ids in use |
| ChatStreamClass.PiTranslator.TranslateEvent | packages/harness-pi-raw/src/pi-translate.ts:143-337 | the translator in place emits the parts of each event, tool results with what the host stored and compactions included, and updates its state accordingly |
| ChatStreamClass.ChunkConverter.HandlePart | packages/agent/src/ui-message-stream.ts:346-459 | the converter in place emits the chunks of each part and updates its state accordingly |
| ChatStreamClass.ChunkConverter.EndMessage | packages/agent/src/ui-message-stream.ts:461-506 | `finish` and `fail` in place emit the closing chunks and leave the message started with no step or block open |
| Mirror.Sync | packages/harness-pi-raw/src/pi-workspace-mirror.ts:199-265 | for every host tree: it succeeds exactly when every listed file is still there and no stray entry is in the way of a remote one; then the scoped host entries equal the remote ones, file and directory swaps included, but for stray entries, so the trees are equal exactly when there were none; nothing out of scope is touched; a host that already agrees is not written to |
| Mirror.ScopeIsExactly | packages/harness-pi-raw/src/pi-workspace-mirror.ts:32-33 | the scope is everything in or under the two configuration directories and the two context files at the root |
| Mirror.BuildRequiredDirectories | packages/harness-pi-raw/src/pi-workspace-mirror.ts:181-197 | the result is the listed directories and every directory above a listed file |
| Mirror.CollectHostSubtree | packages/harness-pi-raw/src/pi-workspace-mirror.ts:132-150 | the walk finds every entry below a directory and nothing else |
| Mirror.CollectHostScopedEntries | packages/harness-pi-raw/src/pi-workspace-mirror.ts:158-179 | the lists are exactly the scoped directories and files, without configuration directories that are files or context files that are directories |
| Mirror.RemoveStaleFiles | packages/harness-pi-raw/src/pi-workspace-mirror.ts:216-220 | the loop removes exactly the files that do not exist remotely |
| Mirror.RemoveStaleDirs | packages/harness-pi-raw/src/pi-workspace-mirror.ts:222-230 | the loop removes exactly what lies at or under a stale directory |
| Mirror.MakeRequired | packages/harness-pi-raw/src/pi-workspace-mirror.ts:232-236 | the loop adds exactly the missing required directories, or fails when a file is in the place of one |
| Mirror.WriteFiles | packages/harness-pi-raw/src/pi-workspace-mirror.ts:238-264 | the loop leaves every listed file with the remote bytes and touches nothing else, writing only what differs; it fails exactly when a file has disappeared or a directory is in its place |
| Mirror.HostTree.MakeDirs | packages/harness-pi-raw/src/pi-workspace-mirror.ts:232-236 | a recursive mkdir creates the directory and those above it, or fails without effect when a file is in the way |
| ToolContent.CanonicalExactlyWhenEncoded | packages/harness-pi-raw/src/tool-content.ts:82-115 | a string passes the gate exactly when it is the base64 text of some non-empty byte string, and the computed size is that string's length |
| ToolContent.RefusesExactlyDirtyPadding | packages/harness-pi-raw/src/tool-content.ts:96-110 | among well-shaped strings the gate refuses exactly those with non-zero padding bits |
| ToolContent.DecodeOfEncode | packages/harness-pi-raw/src/tool-content.ts:106-109 | decoding undoes encoding |
| ToolContent.SymbolsAreTheAlphabet | packages/harness-pi-raw/src/tool-content.ts:106-109 | the digits are those of Table 1 of RFC 4648 |
| ToolContent.GroupIsOneNumber | packages/harness-pi-raw/src/tool-content.ts:106-109 | three bytes are one 24-bit number, most significant byte first, in four digits |
| ToolContent.StructuralIsGrouped | packages/harness-pi-raw/src/tool-content.ts:82-94 | the shape check, as a pattern on the whole string, says the same as one on groups of four |
| ToolContent.BuiltEnvelopesPassTheGuard | packages/harness-pi-raw/src/tool-content.ts:229-280 | `toolContent` accepts exactly the documented inputs and `isToolContent` accepts everything it builds |
| ToolContent.BuiltContentCarriesTheParts | packages/harness-pi-raw/src/tool-content.ts:140-179 | the envelope has one part for each it was given, in order, with the same text or the same image bytes under the normalized type |
| ToolContent.ErrorsNameTheFirstBadPart | packages/harness-pi-raw/src/tool-content.ts:117-206 | the error names the first part that is not acceptable, and says that it is too large exactly when it is |
| ToolContent.SupportedTypes | packages/harness-pi-raw/src/tool-content.ts:126-138 | PNG, JPEG, GIF and WebP are supported, in any case, and `image/jpg` is written `image/jpeg` |
| ToolContent.AcceptedImagesAreBounded | packages/harness-pi-raw/src/tool-content.ts:250-280 | every image of an accepted envelope decodes to between one byte and 5 MiB |
| ToolContent.RebuildingIsIdentity | packages/harness-pi-raw/src/tool-content.ts:140-179 | normalizing the parts of an accepted envelope again gives the same envelope |
| Attachments.AttachmentPath | packages/agent/src/ui-message-stream.ts:62-90 | the loop ends with the first candidate that is not in use, and marks it used |
| Attachments.SuffixedInjective | packages/agent/src/ui-message-stream.ts:81-87 | differently numbered candidates differ, which is why the loop ends |
| Attachments.CollectAttachments | packages/agent/src/ui-message-stream.ts:138-169 | the nested loops give the attachments of all user messages in order, or the first decoding error |
| Attachments.AttachmentsHaveOwnSafePaths | packages/agent/src/ui-message-stream.ts:138-169 | every attachment of a history has a path of its own, which the workspace check returns unchanged |
| Attachments.EarlierPathsAreStable | packages/agent/src/ui-message-stream.ts:193-199 | a longer history keeps every path of the shorter one |
| Attachments.AttachmentsAreTheFiles | packages/agent/src/ui-message-stream.ts:138-169 | every file of every user message becomes one attachment, in order, with its message, name, type and bytes, and nothing else does |
| Attachments.FreeNamesAreKept | packages/agent/src/ui-message-stream.ts:76-89 | a name that is not taken is used as it is |
| Attachments.CleanNamesAreKept | packages/agent/src/ui-message-stream.ts:67-70 | a name of safe characters is kept, whatever directories stand before it |
| Attachments.OtherCharactersBecomeUnderscores | packages/agent/src/ui-message-stream.ts:67-70 | any other character becomes an underscore |
| Attachments.NamelessFilesAreNumbered | packages/agent/src/ui-message-stream.ts:71-78 | a file without a name is numbered from 1, with the extension of its media type |
| Attachments.NumberGoesBeforeTheExtension | packages/agent/src/ui-message-stream.ts:79-87 | a further file of the same name gets its number before the extension |
| Attachments.AssertSafeWorkspacePath | packages/agent/src/paths.ts:14-62 | the check in place equals its specification, error cases in the source's order |
| Attachments.PathsAreAcceptedExactlyWhen | packages/agent/src/paths.ts:14-62 | a path is accepted exactly when it is not empty, absolute or with a drive letter, has no null byte, backslash or ".." segment, and names something; the result is relative and never climbs |
| Attachments.PathsAreRefusedFor | packages/agent/src/paths.ts:14-62 | each error is given only for its reason |
| Attachments.AcceptedPathsAreStable | packages/agent/src/paths.ts:41-61 | an accepted path has no empty, "." or ".." segment, and checking it again changes nothing exactly when the first segment of the raw path that is neither empty nor "." has no drive letter |
| Attachments.DotHidesTheDrive | packages/agent/src/paths.ts:35-46 | "./" in front of any clean path with a drive letter is accepted and gives that path, which is not |
| Attachments.DriveLetterCanSurface | packages/agent/src/paths.ts:35-46 | "./C:/x" becomes "C:/x" |

## Left out

- MemoryLimiter.EventKeepsInv: `stats()` is no event of the model. It purges expired slots without a scheduling pass, so the wake-up statement does not hold across it.
- MemoryLimiterClass.InMemoryLimiter.Acquire: one clock reading per operation, and one for each lease it makes out, where the source calls the clock more than once in a row.
- PostgresProtocol.EveryRunIsSafe: database errors, connection handling, SQL text, schema creation and poll jitter; `onConflict: 'replace'`, which changes the limits during a run.
- PostgresTransactions.EntriesTable.Start: statements run one at a time; row locks between overlapping transactions are represented by the atomicity of each transaction.
- LimiterSettings.FingerprintIdentifiesLimits: the fingerprint is the value that is serialized; that JSON text determines it is taken for granted. A workload named `__proto__` is treated like any other name.
- LimiterSettings.ResolveLimits: a JavaScript value is a safe integer, a text, null, undefined or something else; error wording is not modelled.
- Controller.SlotConservation: the 5 s bound on `release` is one of the ways in which a release settles without success. A limiter that resolves with null or undefined is released under no id; the error its missing id would raise is not modelled.
- Controller.OneEndPerRequest: admission is modelled on values, because it is one asynchronous function whose state is where it is suspended; `AbortSignal`, promises and timers are explicit events.
- RemoteLeases.LocallyValidPermitsHoldRows: workers with different `leaseTtlMs`, and a renewal that was reported failed but commits later, are outside the statement.
- ProviderGate.TerminalOnlyAfterRelease: requests of virtual models and sessions without a gate go straight to the provider and are not modelled.
- ProviderGate.OneConsumerGetsEverything: several consumers of one stream share its events and are not modelled; `result()` is not modelled.
- NestedRuns.EveryRunFinishes: a tool that never returns, and provider requests that never end, are outside the statement.
- ChatStream.WellFormedExactlyWhenClean: the harness layer between translator and converter is a renaming of fields; generated block ids are fresh; `compaction` parts have no chunk.
- ChatStream.HostResultArrivesOnce: values are opaque texts; picking the text out of the runtime's own result envelope is not modelled.
- Mirror.Sync: the shell listing is an input, and so are the bytes it reads; symbolic links and unreadable entries on the host, other processes that change the host, and the string order of the loops (every order is covered).
- ToolContent.BuiltEnvelopesPassTheGuard: objects are values, so freezing and foreign prototypes do not appear.
- Attachments.AttachmentPath: strings are sequences of Unicode scalar values; unpaired surrogates do not appear.
- Attachments.CollectAttachments: decoding of data URLs is an input of each file part; the transcript built from the paths is not modelled.
- `packages/harness-pi-raw/src/pi-session.ts`, `packages/agent/src/sandbox.ts` and the remaining adapters: file system, shell and SDK plumbing.
- Credential stores, model resolution, PDF rendering, SSE encoding and usage sums: foreign calls or simple lookups.
