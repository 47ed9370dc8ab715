# Verified model of smp-nostd

A Dafny model of the parts of smp-nostd whose correctness depends on more than one
function at a time: the locks, the work-stealing scheduler and the I/O APIC
redirection tables. `dafny verify dfyconfig.toml` checks everything.

## How it is built

**Locks** (`TicketLock.dfy`, `TicketLockWrap.dfy`, `SpinLock.dfy`, `SpinLockProgress.dfy`,
`RwLock.dfy`, `RwLockProgress.dfy`, `Once.dfy`). A function `Act` gives the effect of one atomic access on the lock's
memory and on the acting thread's locals. A class with the lock's own fields performs
each access in place and is proved equal to `Act`. A machine interleaves the actions of
any number of threads in any order; `Exec` is the state after a list of events, and a
theorem about `Exec` is a theorem about every run. Stale loads stay in the thread's
locals until they are used, a weak compare-exchange may fail for no reason, and reading
and writing the protected data are separate actions.

**Scheduler**. `RunQueue.dfy` and `Scheduler.dfy` are the run queue and the scheduler as
classes, with the loops of the source, proved against functions on sequences of queues.
`SchedulerProperties.dfy` proves what those functions guarantee over whole histories.
`SchedulerMachine.dfy` runs any number of concurrent calls, one lock acquisition, queue
change, counter access, release or counter reading at a time. `SchedulerScans.dfy` says
what the scans settle on while the counters move, `SchedulerProgress.dfy` that the machine
cannot deadlock or livelock, and `SchedulerSolo.dfy` that an uncontended call of it does
exactly what the value-level function says.

**I/O APIC** (`IoApic.dfy`). Redirection entries as bit vectors, chips with a select
register and a window, and the manager, whose calls are proved equal to functions on
chips as values; what an interrupt reads back as is then a theorem about those functions.

## Where the code and its documentation differ

* `TicketLock` compares 64-bit counters that wrap. A step goes wrong exactly when it compares
  counters that differ by a multiple of 2^64 (`StepRefines`, `MirrorsIffNeverFooled`). In
  `try_lock` this takes any positive multiple of 2^64 tickets issued while a call is stalled
  between its two loads or between the second load and the compare-exchange, which then
  succeeds on a lock that is held (`StaleTryLockBreaksExclusion`); with fewer than 2^64 tickets
  issued it never happens (`SafeIffFewerThan2To64Tickets`). Without `try_lock` the lock is safe,
  across any number of wraps, if and only if at most 2^64 tickets are outstanding at once
  (`LockIsSafeIffAtMost2To64Outstanding`).
* `RwLock` documents `u32::MAX` as "a writer holds the lock". With 2^32 - 1 read guards
  live the word has that value too (`ReadersCanSpellWriterBit`). Exclusion is not
  affected: `read` refuses to count further, and `WriterBitMeansWriterIff` says exactly
  when the documented reading is right.
* `SpinLock` promises interrupts off under a guard, but its guards restore the flag they
  found. Take lock 0 with interrupts on, then lock 1, and drop lock 0 first: interrupts are
  on under lock 1 (`OuterDropEnablesUnderInner`), and further drops out of order then leave
  them on. A CPU's interrupts have been off under its guards so far, with no restore pending
  that would turn them on, if and only if it never dropped a guard that saved an enabled flag
  while it held others, whatever other CPUs did (`OffUnderGuardsIffNeverHarmfulOn`). A CPU
  that in the whole run drops last-in first-out, or always keeps its outermost guard to the
  end, never does that (`DropsInOrderAreHarmless`). The flag itself is lost in neither case
  (`OutermostDropRestoresFlag`).
* `SpinLock::lock` "spins until available", which may be never: a CPU that locks a lock it
  holds waits for itself (`RelockingBlocksForever`), and two CPUs that lock two locks in
  opposite orders wait for each other (`OppositeOrdersBlockForever`). A waiting CPU can get in
  if and only if the chain from it to the CPU that holds the lock it wants, and so on, comes
  to a CPU that is not waiting or to a free lock (`CanGetInIffChainClears`).
* `Task::affinity` is documented as "this task can only run on the specified core".
  `steal_half` does not look at it; `StealKeepsAffinityIff` gives the exact condition
  under which a call of `schedule` keeps the promise.
* The u8 register arithmetic of the redirection table is right for exactly 120 entries
  (`TableIsSoundIffAtMost120`), although the version register can announce more. Entries
  120 to 127 land on registers 0x00 to 0x0F, which hold the chip's identification; from 129
  entries on, entries 128 apart share a pair (`PairsAreDistinctIffAtMost128`).

## Assumptions

* Every atomic access is sequentially consistent; the `Ordering` arguments are not modelled.
* Integer overflow wraps, as in a build without overflow checks. (`fetch_add` and
  `fetch_sub` always wrap; `next + 1` in `try_lock` and the u8 and u32 sums of the I/O
  APIC would panic in a checked build.)
* A guard is dropped exactly once and never leaked.
* Two `IoApic` values never stand for the same device.
* Task identifiers are distinct, as `NEXT_TASK_ID` makes them until it wraps.

## Model

| member | source | states |
|---|---|---|
| `TicketLocks.TicketLock.FetchAddNextTicket` | src/spinlock.rs:91 | takes the current ticket and advances the 64-bit counter, as the machine's TakeTicket |
| `TicketLocks.TicketLock.PollNowServing` | src/spinlock.rs:95 | one turn of the spin loop: lets the thread in exactly when its ticket is being served |
| `TicketLocks.TicketLock.TryLoadNowServing` | src/spinlock.rs:114 | the first load of try_lock: the value of now_serving at that moment |
| `TicketLocks.TicketLock.TryLoadNextTicket` | src/spinlock.rs:115-116 | the second load, and whether it agrees with the first |
| `TicketLocks.TicketLock.TryCompareExchange` | src/spinlock.rs:118-125 | takes the lock if the counter still has the expected value, changes nothing otherwise |
| `TicketLocks.TicketLock.DerefMutGuard` | src/spinlock.rs:149-153 | a write through the guard stores the function of the value read before |
| `TicketLocks.TicketLock.DropGuard` | src/spinlock.rs:155-160 | a drop advances now_serving and nothing else |
| `TicketLocks.EveryRunIsLinearised` | src/spinlock.rs:90-160 | in every interleaving of any number of threads: one holder at most, outstanding tickets are exactly [now_serving, next_ticket) with one owner each, and the data is the result of the run's writes applied whole, in the order of their writers' tickets |
| `TicketLocks.LogIsTheRunsWrites` | src/spinlock.rs:142-160 | each write is made under the ticket whose number is the count of releases before it |
| `TicketLocks.TryLockTakesOnlyAFreeLock` | src/spinlock.rs:113-129 | a try_lock whose CAS is about to succeed finds the lock free, however stale its two loads |
| `TicketLocks.TryLockAloneTakesIffFree` | src/spinlock.rs:113-129 | from any state, a try_lock that nobody interrupts takes the next ticket and the lock if and only if the lock is free, and otherwise changes nothing |
| `TicketLocks.FailedTryWasDisturbed` | src/spinlock.rs:113-129 | however it is interleaved, if a try_lock fails then at some moment of the call the lock was not free or a ticket had been issued since its start |
| `TicketLocks.GuardUpdatesData` | src/spinlock.rs:142-153 | a read followed by a write under the guard stores the function of the data and is logged |
| `TicketLocks.EntersAfterExactly` | src/spinlock.rs:90-110 | a waiter with ticket k gets in after exactly k - now_serving further releases |
| `TicketLocks.OldTicketsKeepOwners` | src/spinlock.rs:90-110 | tickets issued before a run stay with their owners through it |
| `TicketLocks.NobodyOvertakes` | src/spinlock.rs:65-69 | FIFO: while a thread waits, no thread that asked later holds the lock |
| `TicketLocks.EveryWaiterCanEnter` | src/spinlock.rs:90-110 | from every state of every run a waiter can be let in, with one release per ticket ahead of it |
| `TicketLockWrap.StepRefines` | src/spinlock.rs:91-95 | in any state the 64-bit machine can take the steps of the unbounded one, and with the same effect if and only if the step does not compare counters that differ but agree modulo 2^64 |
| `TicketLockWrap.WrappedRunRefines` | src/spinlock.rs:90-135 | runs with no such comparison are the same in both machines, however often the counters wrap |
| `TicketLockWrap.MirrorsIffNeverFooled` | src/spinlock.rs:90-135 | the two machines go through the same states if and only if the run has no such comparison |
| `TicketLockWrap.FitsIsNotFooled` | src/spinlock.rs:90-135 | a waiter cannot be fooled with at most 2^64 tickets outstanding, nor a try_lock before 2^64 tickets are issued since its first load |
| `TicketLockWrap.WrappedRunIsLinearised` | src/spinlock.rs:90-160 | the 64-bit lock excludes and loses no update in those runs |
| `TicketLockWrap.StaleTryLockBreaksExclusion` | src/spinlock.rs:113-129 | for every positive multiple of 2^64, and for a stall after the first load or after both, a run that issues so many tickets around a stalled try_lock ends with two holders |
| `TicketLockWrap.SafeIffFewerThan2To64Tickets` | src/spinlock.rs:113-129 | every step from a state with at most n tickets issued keeps mutual exclusion if and only if n < 2^64 |
| `TicketLockWrap.TooManyWaitersBreakExclusion` | src/spinlock.rs:90-95 | a run of 2^64 + 1 calls of lock in which the first and the last both get in |
| `TicketLockWrap.LockIsSafeIffAtMost2To64Outstanding` | src/spinlock.rs:90-110 | runs without try_lock and with at most n tickets outstanding at once keep mutual exclusion if and only if n is at most 2^64 |
| `SpinLocks.SpinLock.CompareExchange` | src/spinlock.rs:193-197 | takes the word if it was free, adds the guard with the flag found at the start |
| `SpinLocks.InterruptFlag.RestoreInterrupts` | src/spinlock.rs:53-59 | turns interrupts on only if they were on when the guard was begun |
| `SpinLocks.EveryRunExcludes` | src/spinlock.rs:188-266 | for any CPUs, nesting and drop order: a lock has at most one guard, and its word is set exactly while it has one (which lock an operation takes is `OperationStaysOnItsLock`) |
| `SpinLocks.OperationStaysOnItsLock` | src/spinlock.rs:188-234 | from any state and whatever the other CPUs do, an operation begun on a lock stays on that lock and ends with one new guard of it that saves the flag found at the start, or, for a try_lock only, with guards and flag as they were |
| `SpinLocks.SwapTakesIffFree` | src/spinlock.rs:193-197 | the exchange takes its lock if it is free and does not fail by itself; else a try_lock goes on to restore the flag, a lock to spin |
| `SpinLocks.TryLockAloneTakesIffFree` | src/spinlock.rs:216-234 | a try_lock that nobody interrupts takes exactly the lock it is called on if that is free, and otherwise changes nothing |
| `SpinLocks.DropFreesItsLock` | src/spinlock.rs:260-266 | a drop, completed, frees its lock and no other, keeps the other guards and puts back the flag it saved |
| `SpinLocks.InterruptsOnUnderGuardIffHarmful` | src/spinlock.rs:260-266 | in any state, dropping guard i leaves interrupts on under another guard if and only if other guards are live and the flag is on already or guard i saved it enabled; before any such drop, exactly the latter |
| `SpinLocks.OuterDropEnablesUnderInner` | src/spinlock.rs:166-169 | a run of one CPU with two locks that ends with interrupts on under a guard |
| `SpinLocks.OffUnderGuardsIffNeverHarmfulOn` | src/spinlock.rs:188-266 | a CPU's interrupts have been off under its guards at every moment of a run, with no restore pending that would change this, if and only if it never dropped a guard that saved an enabled flag under others |
| `SpinLocks.OffUnderGuardsIffNeverHarmful` | src/spinlock.rs:188-266 | the same for all CPUs together |
| `SpinLocks.KeepingTheOutermostIsHarmless` | src/spinlock.rs:260-266 | as long as the CPU has made no such drop, dropping its newest guard, or any but the outermost, is not one either |
| `SpinLocks.DropsInOrderAreHarmless` | src/spinlock.rs:260-266 | in any run, a CPU that always drops its newest guard, or always keeps its outermost to the end, makes no such drop |
| `SpinLocks.InterruptsOffWhileHolding` | src/spinlock.rs:166-169 | in every run in which the CPU itself makes no such drop, it has interrupts off at every moment it holds a guard |
| `SpinLocks.OutermostDropRestoresFlag` | src/spinlock.rs:188-266 | a stretch of nested acquisitions, failed try_locks and drops that starts and ends with nothing held leaves the flag as it was, whatever the order of the drops |
| `SpinLockProgress.CanGetInIffChainClears` | src/spinlock.rs:188-213 | from any reachable state, a CPU in lock can get in if and only if its chain of holders comes to a CPU that is not waiting or to a free lock; otherwise it waits through every further run |
| `SpinLockProgress.RelockingBlocksForever` | src/spinlock.rs:188-213 | a run in which a CPU locks a lock it holds, from where no run lets it in |
| `SpinLockProgress.OppositeOrdersBlockForever` | src/spinlock.rs:188-213 | a run in which two CPUs lock two locks in opposite orders, from where no run lets either in |
| `SpinLockProgress.GetIn` | src/spinlock.rs:188-266 | along a chain that clears, a run that lets the CPU in is built |
| `SpinLockProgress.StuckForever` | src/spinlock.rs:188-213 | CPUs that wait for one another do so in every further run |
| `RwLocks.RwLock.CompareExchangeRead` | src/spinlock.rs:311-323 | counts one more reader only if the word is still the loaded one |
| `RwLocks.RwLock.DropReadGuard` | src/spinlock.rs:391-396 | counts one reader less, wrapping on 32 bits |
| `RwLocks.ActCounts` | src/spinlock.rs:301-421 | every action keeps the word an exact count of the guards, given one writer alone or readers only |
| `RwLocks.EveryRunExcludes` | src/spinlock.rs:281-421 | in every run of any number of threads: at most one writer, never beside a reader; the word is the writer's value or the number of readers; writes are applied whole; every reader's guard shows the data as when it was taken |
| `RwLocks.DropReadNeverUnderflows` | src/spinlock.rs:391-396 | in every run the word is at least one when a read guard is dropped |
| `RwLocks.WriterBitMeansWriterIff` | src/spinlock.rs:277-281 | the word is WRITER_BIT exactly for a writer, if and only if there are not 2^32 - 1 readers |
| `RwLocks.DataFrozenUnderReadGuard` | src/spinlock.rs:384-396 | whatever the other threads do, the data does not change under a live read guard |
| `RwLocks.GuardUpdatesData` | src/spinlock.rs:398-414 | a read followed by a write under the write guard stores the function of the data and is logged |
| `RwLocks.ReadersCanSpellWriterBit` | src/spinlock.rs:301-325 | a run without writers reaches the writer's word |
| `RwLockProgress.WriteCanEnterIff` | src/spinlock.rs:345-363 | from any reachable state, a call of write can get in with given threads standing still if and only if none of those has a guard |
| `RwLockProgress.ReadCanEnterIff` | src/spinlock.rs:301-325 | a call of read can, if and only if none of those writes and fewer than 2^32 - 1 of them read |
| `RwLockProgress.Drain` | src/spinlock.rs:391-421 | the guards of all other threads can be dropped, one after another |
| `Onces.Once.CompareExchangeUninit` | src/spinlock.rs:455-458 | exactly the caller that finds UNINIT moves the word to RUNNING |
| `Onces.BodyRunsExactlyOnce` | src/spinlock.rs:449-471 | in every run the body starts at most once, and a call that has returned did so after the body finished |
| `Onces.StepInv` | src/spinlock.rs:449-471 | every action keeps the word either as it is or moves it one state forward, with exactly one runner while it says RUNNING |
| `Onces.WordOnlyMovesForward` | src/spinlock.rs:428-430 | the word never goes back, over any further run |
| `Onces.SpinnerCanReturn` | src/spinlock.rs:464-470 | a spinning caller can always return within four more actions of the runner and itself |
| `Onces.CallGoesTheRightWay` | src/spinlock.rs:449-471 | from any reachable state, a call that nobody interrupts returns after one load if the body is done, runs it if it has not begun, and else spins |
| `RunQueues.StealSplits` | src/scheduler.rs:297-318 | what is left and what is stolen are together the old queue; a steal leaves at least one and takes the newest first |
| `RunQueues.RunQueue.Push` | src/scheduler.rs:267-277 | appends at the back, counter in step |
| `RunQueues.RunQueue.Pop` | src/scheduler.rs:280-294 | takes the front, or reports an empty queue and changes nothing |
| `RunQueues.RunQueue.StealHalf` | src/scheduler.rs:297-318 | takes the back half one task at a time, newest first, and leaves the front half |
| `Schedulers.Scheduler.constructor` | src/scheduler.rs:352-369 | as many distinct empty queues as cores |
| `Schedulers.Scheduler.Spawn` | src/scheduler.rs:373-392 | a pinned task goes to its core, another to the least loaded one; panics exactly for a core that does not exist |
| `Schedulers.Scheduler.SpawnOnCore` | src/scheduler.rs:395-409 | appends to the given core's queue, panics exactly out of range |
| `Schedulers.Scheduler.Requeue` | src/scheduler.rs:499-520 | wake and preempt_current: the task is made ready and appended to the given core's queue |
| `Schedulers.Scheduler.LeastLoadedCore` | src/scheduler.rs:412-424 | the scan from u64::MAX computes LeastLoaded |
| `Schedulers.Scheduler.BusiestCore` | src/scheduler.rs:472-486 | the scan from 1 that skips the caller computes Busiest |
| `Schedulers.Scheduler.Schedule` | src/scheduler.rs:433-469 | leaves the queues of AfterSchedule and returns Dispatched; panics exactly out of range |
| `Schedulers.Scheduler.StealFrom` | src/scheduler.rs:449-464 | takes the victim's back half, keeps the first task taken and queues the others in the order taken |
| `Schedulers.Scheduler.TotalQueued` | src/scheduler.rs:523-525 | the sum of the queues' lengths |
| `Schedulers.TotalLengthCountsTasks` | src/scheduler.rs:523-525 | that sum is the number of tasks in the multiset of everything queued |
| `SchedulerProperties.LeastLoadedIsFirstShortest` | src/scheduler.rs:412-424 | the chosen core has a shortest queue, and the lowest index among those |
| `SchedulerProperties.BusiestIsFirstLongest` | src/scheduler.rs:472-486 | the victim is the lowest-indexed longest other queue; there is none exactly when no other queue has two tasks |
| `SchedulerProperties.IdleIffNothingToSteal` | src/scheduler.rs:433-486 | schedule returns None if and only if the own queue is empty and every other has at most one task; then fewer tasks are queued than there are cores |
| `SchedulerProperties.StealReversesBackHalf` | src/scheduler.rs:297-318 | the exact effect of a steal: the newest task runs, the thief's queue is the rest of the back half reversed |
| `SchedulerProperties.ScheduleConserves` | src/scheduler.rs:433-469 | a call neither loses nor copies a task |
| `SchedulerProperties.TrackFollows` | src/scheduler.rs:433-469 | a queued task's position never grows; it drops when its core calls schedule, and by two or more when it is stolen and queued again |
| `SchedulerProperties.TrackIsInjective` | src/scheduler.rs:433-469 | two queued tasks never come to the same place nor out of the same call |
| `SchedulerProperties.BoundedWaiting` | src/scheduler.rs:297-469 | over any history of arrivals and calls by any core, a task with p others ahead of it is returned by the (p+1)-st call that serves or moves it |
| `SchedulerProperties.BusyCoreReturnsTask` | src/scheduler.rs:433-469 | in a round of calls in any order, a core that starts it with a task gets one |
| `SchedulerProperties.RoundsDrainEverything` | src/scheduler.rs:433-486 | without arrivals, as many rounds as the longest queue is long empty every queue and return every task exactly once |
| `SchedulerProperties.SpawnKeepsBalance` | src/scheduler.rs:373-392 | an unpinned spawn never widens the gap between longest and shortest queue beyond max(old gap, 1) |
| `SchedulerProperties.SpawnsAreDealtRoundRobin` | src/scheduler.rs:373-424 | spawning into n empty queues leaves queue i with exactly the tasks i, i+n, i+2n, ... in order |
| `SchedulerProperties.StealKeepsAffinityIff` | src/scheduler.rs:164-165 | a call keeps pinned tasks on their cores if and only if the half it steals, if it steals, holds no pinned task |
| `SchedulerProperties.PinnedTaskCanBeStolen` | src/scheduler.rs:297-318 | two tasks pinned to core 0: an idle core 1 runs one of them |
| `SchedulerMachine.HolderStep` | src/scheduler.rs:267-318 | each step under a queue's lock carries the holder's operation on towards the atomic one, and a release leaves the queue as after it |
| `SchedulerMachine.ActConserves` | src/scheduler.rs:267-469 | no step changes the tasks in the target queue, the agent's hands and the result taken together |
| `SchedulerMachine.EveryRunConserves` | src/scheduler.rs:267-486 | in every interleaving each submitted task is counted exactly once over all queues, all agents' hands and all callers |
| `SchedulerMachine.QueuedTaskIsNowhereElse` | src/scheduler.rs:267-486 | a queued task occurs once in its queue, in no other queue, in no agent's buffer and with no caller |
| `SchedulerMachine.QueuesRefineAtomicDeques` | src/scheduler.rs:267-318 | every concurrent run gives a queue's operations the answers, and its free queue the contents, of running them one at a time in lock-acquisition order |
| `SchedulerMachine.CounterAgrees` | src/scheduler.rs:250-323 | the counter is the queue's length whenever the lock is free, off by exactly the holder's pending change otherwise, never negative |
| `SchedulerMachine.CounterMovesBy` | src/scheduler.rs:276-316 | a push raises the counter by one, a pop lowers it by one, a steal by the number of tasks taken, and no other step moves it |
| `SchedulerMachine.NoCounterUnderflows` | src/scheduler.rs:283-316 | no fetch_sub in any run goes below zero |
| `SchedulerMachine.NobodyRobsItself` | src/scheduler.rs:472-486 | in every run a thief's victim is an existing queue other than its own (which one is `ScansSettleOnReads`) |
| `SchedulerMachine.EveryCallCanBegin` | src/scheduler.rs:373-520 | in every run there are as many queues as cores, and an idle agent can call schedule for any of them and place any task that is new or was handed out |
| `SchedulerScans.ScansAgreeWithReads` | src/scheduler.rs:412-486 | in every run a scan's locals are the first least, or the first greatest above one at other cores, of the counter values it has read so far, one per queue in order |
| `SchedulerScans.ScansSettleOnReads` | src/scheduler.rs:412-486 | in every run a scan that ends has read every counter once; a spawn pushes to the first queue whose value was least, a thief robs the first other queue whose value was greatest, or returns nothing if and only if none of those was above one |
| `SchedulerMachine.LocksAreExclusive` | src/spinlock.rs:188-213 | two agents never hold the same queue's lock |
| `SchedulerProgress.StepUsesUpWork` | src/scheduler.rs:433-469 | every step of any agent lowers a non-negative measure of the work in flight |
| `SchedulerProgress.SomebodyCanStep` | src/scheduler.rs:433-469 | while a call is in flight some agent can step: no deadlock |
| `SchedulerProgress.RunsWithoutNewCallsAreBounded` | src/scheduler.rs:373-520 | without new calls, every run takes at most as many steps as the measure says, however it is interleaved |
| `SchedulerProgress.EveryCallCanComplete` | src/scheduler.rs:373-520 | from every state of every run, a continuation without new calls completes every call and frees every lock |
| `SchedulerSolo.SoloStepKeeps` | src/scheduler.rs:373-486 | each step of an uncontended call keeps the queues and the result that the call will come to |
| `SchedulerSolo.UncontendedCallRefines` | src/scheduler.rs:373-520 | every completed uncontended call leaves the queues and hands over the task of the value-level operation |
| `IoApics.NewReadsBack` | src/ioapic.rs:79-105 | vector and destination of a new entry read back if the modes keep clear of their bits |
| `IoApics.NewReadsBackModes` | src/ioapic.rs:79-105 | so do the mask and the mode bits if the modes keep clear of bit 16 too |
| `IoApics.SimpleDelivers` | src/ioapic.rs:108-118 | a simple entry is unmasked, delivers its vector to its destination, and has every mode bit clear |
| `IoApics.MaskedIsSilent` | src/ioapic.rs:121-123 | the masked entry is masked and otherwise empty |
| `IoApics.MaskBitIsSet` | src/ioapic.rs:136-142 | set_masked sets what is_masked reads |
| `IoApics.OnlyTheMaskBitFlips` | src/ioapic.rs:136-142 | set_masked flips at most bit 16 |
| `IoApics.MaskingIsUndone` | src/ioapic.rs:136-142 | unmasking undoes masking and conversely |
| `IoApics.JoinInvertsSplit` | src/ioapic.rs:258-290 | an entry written as two halves reads back whole |
| `IoApics.HalvesAreInPlace` | src/ioapic.rs:288-290 | the first register of a pair holds bits 0 to 31, the second bits 32 to 63 |
| `IoApics.TableIsSoundIffAtMost120` | src/ioapic.rs:258 | the entries below max have register pairs of their own, clear of the identification registers, if and only if max is at most 120 |
| `IoApics.PairsAreDistinctIffAtMost128` | src/ioapic.rs:258 | no two entries below max share a register if and only if max is at most 128 |
| `IoApics.TableIsARange` | src/ioapic.rs:258-260 | up to 120 entries, the registers that hold halves of entries are exactly the 2 * max from 0x10 on |
| `IoApics.SamePairIff128Apart` | src/ioapic.rs:258-260 | two entries share their registers if and only if they are a multiple of 128 apart; a low half never shares with a high half |
| `IoApics.PutWrites` | src/ioapic.rs:273-291 | writing a pair of registers changes exactly the entries kept there |
| `IoApics.IoApic.constructor` | src/ioapic.rs:169-189 | the number of entries is the version register's field plus one, on u8 |
| `IoApics.IoApic.ReadReg` | src/ioapic.rs:196-201 | select, then read the window: the register's value |
| `IoApics.IoApic.WriteReg` | src/ioapic.rs:204-209 | select, then write the window: that register and no other |
| `IoApics.IoApic.ReadRedirection` | src/ioapic.rs:251-270 | the table's entry, or a panic exactly out of range |
| `IoApics.IoApic.WriteRedirection` | src/ioapic.rs:273-291 | exactly the two registers of the pair change, so exactly the entries kept there, which is one on a chip of at most 128; a panic exactly out of range |
| `IoApics.IoApic.RouteIrq` | src/ioapic.rs:298-309 | the pin computed on u32 and u8 gets an unmasked entry with the given vector and destination, and no register but its two changes; a panic exactly out of range |
| `IoApics.IoApic.MaskIrq` | src/ioapic.rs:312-317 | read, modify, write back: only the registers of that entry, which is masked and otherwise as before |
| `IoApics.IoApic.UnmaskIrq` | src/ioapic.rs:320-325 | read, modify, write back: only the registers of that entry, which is unmasked and otherwise as before |
| `IoApics.IoApic.MaskAll` | src/ioapic.rs:328-333 | for any number of entries, every entry is masked and otherwise empty, and no register outside the table changes |
| `IoApics.CoversIffInReach` | src/ioapic.rs:367-371 | the test on wrapping u32 sums holds exactly for base <= gsi < base + entries < 2^32 |
| `IoApics.IoApicManager.FindForGsi` | src/ioapic.rs:367-371 | the first chip with base <= gsi < base + entries whose range ends below 2^32, and None if and only if there is none |
| `IoApics.RoutesAreByFirstInReach` | src/ioapic.rs:367-371 | an interrupt has a route if and only if some chip is in reach of it, and its route is its entry on the first of those |
| `IoApics.IoApicManager.RouteGsi` | src/ioapic.rs:374-380 | never panics; a covered interrupt then reads back unmasked with the given vector and destination; writes its place and no other; on chips of at most 128 entries exactly that route changes if it is covered, nothing otherwise |
| `IoApics.IoApicManager.MaskAll` | src/ioapic.rs:383-388 | every entry of every chip is masked and otherwise empty, so every covered interrupt is masked, and no interrupt becomes covered or uncovered |
| `IoApics.IoApicManager.ReadBack` | src/ioapic.rs:251-270 | find_for_gsi and read_redirection together read the entry the interrupt is looked up to, and change no register |
| `IoApics.IoApicManager.MaskThenRoute` | src/ioapic.rs:374-388 | after mask_all and any sequence of route_gsi calls on the devices, every covered interrupt reads back unmasked with vector and destination of the last request for its place, or masked and empty if there was none |
| `IoApics.WriteChangesOneRoute` | src/ioapic.rs:367-380 | writing the entry of an interrupt on its chip changes no other route, even if ranges overlap |
| `IoApics.LastRouteWins` | src/ioapic.rs:374-388 | after masking every chip, any history of routes leaves each covered interrupt with the entry of the last route to its place, or masked, and no other interrupt covered |
| `IoApics.LastOwnRouteWins` | src/ioapic.rs:374-388 | on chips of at most 128 entries that is the last route for the interrupt itself |
| `IoApics.RoutedLookup` | src/ioapic.rs:374-380 | one route changes what reads back for exactly the interrupts kept in the same place |

## Left out

- Memory orderings and the fence wrappers: atomics are sequentially consistent here.
- The spin loops of the locks as loops: each turn is a step of a machine, since whether a loop ends depends on the other threads. It can end from every reachable state for `TicketLock`, `Once` and the scheduler's queues, and under the exact conditions of `SpinLockProgress` and `RwLockProgress` for the other two; that it does end under a given schedule is not stated.
- A thread that takes a `TicketLock` it already holds, or an `RwLock` through two guards: a thread of these machines stands for one call and its guard, so the caller's other guards are other threads (`WriteCanEnterIff` says when they keep it out).
- Interrupt handlers that run between the reading and the clearing of the flag in `disable_interrupts`: a CPU is in one lock operation at a time.
- `TicketLock::is_locked`, `SpinLock::is_locked`, `Once::is_completed`, `RunQueue::is_empty`: single loads.
- Data under `SpinLock`: its linearisation is stated for the queue it protects, as `QueuesRefineAtomicDeques`.
- A closure passed to `Once` that calls the same `Once` again, or that panics.
- `block_current`: it is `schedule`. `queue_lengths`: the list behind `total_queued`.
- `current_tasks`, `assigned_core` and the states other than Ready: nothing in the scheduler drives them. The step-level machine carries task identifiers only, without the state byte.
- Positions and drain bounds with overlapping `schedule` calls: these take each call as one step.
- Task creation, stacks, `CpuContext` and `context_switch`.
- Hardware-owned bits of redirection entries and the moment between the two halves of a write.
- The local APIC, per-CPU pointers, the boot trampoline and the SMP controller: hardware access and orchestration.
- Logging and spin-count warnings.
- IoApics.IoApicManager.RouteGsi: that exactly one route changes is stated for chips of at most 128 entries. From 129 up, interrupts 128 apart on a chip share a register pair and change together, as `RoutedLookup` says.
- What the identification registers of a real chip do with a write: with 121 to 128 entries, entries 120 to 127 are kept in them, and here they are storage like the others.
- SchedulerProperties.SpawnsAreDealtRoundRobin: for at most n * (2^64 - 1) tasks on n queues, since the scan starts from `u64::MAX`.
- SchedulerProperties.LeastLoadedIsFirstShortest: for queues of at most 2^64 - 1 tasks, the range of the counter.
