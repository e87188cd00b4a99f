# Verification of the stuck runtime

`stuck` runs tasks made of coroutines on a few threads, with a timer, channels and
one-shot sessions between them. This project models the parts of it whose correctness is
not visible in any single function, and proves what they promise over every input and
every run.

| module | source | what it is |
|---|---|---|
| `WheelArithmetic`, `TimerWheel` | `src/time.rs` | the hierarchical timing wheel, as objects, arrays and linked nodes |
| `SessionProtocol`, `SessionAnswers` | `src/task/session.rs` | the lock-free one-shot rendezvous, one load, exchange, cell access or store at a time; where its outcome comes from |
| `TaskProtocol`, `TaskInvariant`, `TaskRuns`, `TaskActions`, `TaskState` | `src/task.rs` | one task among the threads and wakers that may hold it: the state machine, its invariant, what holds in every run, what each action does; its fields and methods |
| `SchedulerProtocol`, `SchedulerQueue`, `SchedulerState` | `src/runtime.rs` | run queue, registry and the two-phase shutdown; what goes through the queue; the sections under the lock |
| `ParallelChannel`, `ParallelChannelSenders`, `ParallelChannelWaiters`, `ParallelChannelAnswers`, `ParallelChannelState` | `src/channel/parallel.rs` | the bounded channel with select permits, what its senders are told, who waits beside what, what everybody is given; its fields and methods |
| `SerialChannel`, `SerialChannelState` | `src/channel/serial.rs` | the channel between coroutines of one task; its fields and methods |
| `SharedHandles`, `SharedState` | `src/channel/shared.rs` | counting senders and receivers; the handles as objects |
| `SelectProtocol` | `src/select.rs` | asking, registering and taking off again |
| `SuspensionProtocol`, `SuspensionState`, `SuspensionPool` | `src/coroutine/suspension.rs` | the rendezvous inside a task; its fields and methods; several rendezvous of one coroutine |
| `UringTable`, `UringAnswers` | `src/io/poller/uring.rs` | the request table and the poller that owns it; which answer each request gets |

Two forms occur side by side. A *protocol* module is a state machine: a state, `Enabled`
and `Apply` over events, an inductive invariant, and theorems over every run. Each
critical section, each atomic access, and each action of a coroutine is one event, so every
interleaving is a run. A *state* module is a class with the fields of the source; its
methods have the loops of the source, and each is proved to compute the step, or the
specification function, of the protocol module. The timer and the poller table have no
concurrency of their own and are proved directly.

`dafny verify dfyconfig.toml` checks everything.

## What was found

Where the code does not do what it says, the code is modelled as it is, a run or an input
shows it, and a theorem says exactly when it does.

* A task that is left when the runtime is dropped is aborted by the last thread outside of
  `Task::sched`, so `TASK` is not set (src/runtime.rs:307, src/task.rs:319). The closure of
  main asks for its task outside of `catch_unwind` (src/task.rs:99-105) and panics out of the
  coroutine's entry. A coroutine finds its task if and only if its abort was entered from
  `sched`: `TaskRuns.FindsItsTask`, `TaskRuns.MainParksExactlyInScope`. The run:
  `TaskRuns.ShutdownCrashes`. The abort of a shutdown never returns:
  `TaskRuns.ShutdownAbortNeverReturns`. So dropping the runtime comes to its end if and
  only if no task is left: `SchedulerProtocol.DropEndsIffNothingIsLeft`.
* `Suspension::suspend` guarantees that it returns and one value was sent, or panics and none
  was. If the value is there before the call, `join` takes it and leaves the state at
  `Joining` (src/coroutine/suspension.rs:144-154); a second resumption then reports success
  too. `SuspensionProtocol.SuspendKeepsItsGuarantee` gives the condition and
  `SuspensionProtocol.LateJoinIsReachable` a state. That resumption also resumes the coroutine
  wherever it is suspended by then, and `take` comes to `unreachable!` there:
  `SuspensionPool.TakeFailsExactlyAfterALateJoin`, `SuspensionPool.StrayResumptionBreaks`.
* `Scheduler::run` reads `task.id()` after `Task::sched` has returned, also when the flow was
  `Block` and the task may already have been run to its end by another thread
  (src/runtime.rs:264-265). `SchedulerProtocol.IdReadIsSafe`, and the run in
  `SchedulerProtocol.LateReadRun`.
* `unwatch_send_permit` of the parallel channel looks a position up among the senders and
  removes it from the receivers (src/channel/parallel.rs:345-346). It never takes a selector
  off, and it loses a receiver if and only if there is one at that position:
  `ParallelChannelWaiters.UnwatchSendMisses`, `ParallelChannelWaiters.UnwatchSendWorksOnlyOnNothing`. A run
  in which a parked task is faulted, or a parked thread forgotten, on an open channel:
  `ParallelChannelWaiters.UnwatchLosesAReceiver`.
* The loop of `Select::select` breaks before it counts the candidate it has just registered
  with (src/select.rs:260-263), so a serial channel that is asked after a parallel one can keep
  a stale selector; and senders of parallel channels keep theirs, as above.
  `SelectProtocol.WitnessUnwatchesAll` says for which candidates a select leaves nothing. The
  serial channel is proved not to lose wakeups in spite of stale selectors.
* A receiver that parks as a thread makes a parallel channel free a slot without waking a
  parked sender, so a later send may overtake (src/channel/parallel.rs:178-180):
  `ParallelChannelWaiters.StepKeepsOrder` and `ParallelChannelWaiters.OvertakingHappens`. And two steps leave
  a parked receiver beside a value that nobody has been promised: consuming a send permit of a
  closed channel, and consuming a receive permit of a full one when a parked value takes the
  slot (src/channel/parallel.rs:361-365, 384-385): `ParallelChannelWaiters.StepKeepsServed` and
  `ParallelChannelWaiters.ReceiverBesideAValue`.
* When a receive that was not parked takes the last value of a closed parallel channel, it does
  not close the receivers (src/channel/parallel.rs:314-319), so a receiver that is parked beside
  that value is never told the end. `ParallelChannelAnswers.StepTellsTheEnd` says that this is
  the one step that does so, and `ParallelChannelAnswers.ReceiverMissesTheEnd` is the run.
* A timeout of zero, which no caller passes, fires one turn of the least wheel later;
  `TimerWheel.Due` covers it. At the top level the shifted power of `queue_node` leaves the 64
  bits (src/time.rs:172-173): a build with overflow checks stops there, a build without
  works. `WheelArithmetic.TopLevelExactlyAcross` says for which deadlines.

## Model

| member | source | states |
|---|---|---|
| `TimerWheel.RunTimer` | src/time.rs:241-251 | for every sequence of messages whose ticks fit 64 bits, the wakeups made are exactly the calls that are due, each once, with its session, at exactly its tick, in tick order |
| `TimerWheel.SleepersSleepLongEnough` | src/time.rs:241-264 | every wakeup answers a timeout message of its session, at the tick one after its timeout has passed since the clock stood at when the message came |
| `TimerWheel.SleepersAreWoken` | src/time.rs:241-264 | a timeout message has had its wakeup if and only if that tick has come |
| `TimerWheel.EachTimeoutIsACall` | src/time.rs:244-246 | each timeout message is one call, at the clock then, due one tick after its timeout |
| `TimerWheel.ClockIsTheLatest` | src/time.rs:148-152 | the clock is the latest time announced and does not go back |
| `TimerWheel.ExactIsTheAnswers` | src/time.rs:148-152 | the log of an exact timer is the plain multiset of due deadlines: each due call's wakeup occurs once, nothing else occurs |
| `TimerWheel.ExactIsUnique` | src/time.rs:124-152 | two exact logs of the same calls differ only in the order within a tick |
| `TimerWheel.Timer.Update` | src/time.rs:148-152 | serves every tick up to the new time and keeps the wheel valid; never moves the clock back |
| `TimerWheel.Timer.Timeout` | src/time.rs:186-191 | records one more call and keeps the wheel valid, reusing a free node if there is one |
| `TimerWheel.Timer.Tick` | src/time.rs:124-146 | one tick: at a boundary one slot of one level is taken apart, then the least slot of the tick fires; no deadline before the new time stays pending |
| `TimerWheel.Timer.Cascade` | src/time.rs:126-143 | after the boundary every node is placed by its deadline again, requeued at most five times in its life, and no call is lost or doubled |
| `TimerWheel.Timer.QueueNode` | src/time.rs:161-184 | appends the node to the list of the slot of its deadline, and changes no other list |
| `TimerWheel.Timer.QueueList` | src/time.rs:154-159 | requeues every node of a list that was taken out of its slot |
| `TimerWheel.Timer.WakeList` | src/time.rs:116-122 | wakes each session of the list once and puts every node on the free list |
| `TimerWheel.Timer.NewNode` | src/time.rs:103-109 | takes the head of the free list, or allocates |
| `TimerWheel.Timer.FreeNode` | src/time.rs:111-114 | puts the node at the head of the free list |
| `TimerWheel.Timer.ValidIsExact` | src/time.rs:81-192 | the invariant of the wheel implies that its log is exact |
| `TimerWheel.Due` | src/time.rs:187-191 | a deadline lies after the call, and is the call's tick plus its timeout exactly for timeouts of at least one |
| `TimerWheel.BoundarySearch` | src/time.rs:128-141 | the level search of a boundary stops in range, at the lowest level whose digit is not zero; `value - 1` does not underflow |
| `TimerWheel.SearchLevel` | src/time.rs:168-184 | the mask search, in wrapping 64-bit words, stops in range at the slot that plain division gives |
| `TimerWheel.Insert` | src/time.rs:60-64 | appends through the tail pointer |
| `WheelArithmetic.SlotOf` | src/time.rs:161-184 | the slot of a deadline agrees with it above its level and lies strictly ahead in it; slot 0 of a level is never needed |
| `WheelArithmetic.CascadeDescends` | src/time.rs:154-159 | a node taken out of a level at its boundary goes to a strictly lower level or the least wheel |
| `WheelArithmetic.LevelStep` | src/time.rs:126-143 | crossing a boundary leaves every level node strictly ahead, or in the one slot that is cleared |
| `WheelArithmetic.BoundaryLevelExists` | src/time.rs:131-141 | a 64-bit boundary tick has a digit that is not zero on one of the five levels |
| `WheelArithmetic.OrMaskCompares` | src/time.rs:174 | comparing under the mask compares the bits above it |
| `WheelArithmetic.TopLevelExactlyAcross` | src/time.rs:171-173 | the search reaches the level whose mask has wrapped exactly for deadlines in another block of 2^54 ticks |
| `SessionProtocol.CellIsExclusive` | src/task/session.rs:131-293 | in every interleaving at most one agent is about to touch the cell; a reader finds the variant it takes, a writer overwrites nothing that is owned |
| `SessionProtocol.StepsAreSafe` | src/task/session.rs:131-293 | no step an agent can take finds the wrong variant in the cell or underflows the waker count |
| `SessionProtocol.UnreachableIsNotReached` | src/task/session.rs:211-234 | in no run does `join_value` come to its final `unreachable!` |
| `SessionProtocol.JoinGetsTheWinner` | src/task/session.rs:175-310 | the value the owner returns is that of the one successful call, for good, and every loser has its own value back |
| `SessionProtocol.PanicMeansNoWake` | src/task/session.rs:442-458 | if the wait panics no `wake` with a value has succeeded or ever will |
| `SessionProtocol.JoinerIsNotStranded` | src/task/session.rs:237-326 | when every waker has been used or dropped and every call made through one is over, the status is neither Empty nor Joining |
| `SessionProtocol.FaultMeansNoUse` | src/task/session.rs:318-326 | "no wakeup" is raised only if every waker was dropped unused; that it is a panic is `SessionAnswers.OnlyUsesBringValues` |
| `SessionAnswers.ReturnedValueWasSent` | src/task/session.rs:442-458 | if the owner returns a value, exactly one call has succeeded, it was made with a waker that was used, and an earlier use of that waker brought this value |
| `SessionAnswers.OnlyUsesBringValues` | src/task/session.rs:305-326 | a call that brings a value was started by using a waker with it; dropped wakers and interrupts bring panics |
| `SessionAnswers.EveryCallWasStarted` | src/task/session.rs:295-326 | every call was started by an earlier use, last drop or interrupt, with the outcome that this brings |
| `SessionAnswers.DroppedWakersPanic` | src/task/session.rs:318-326 | while no waker was used, an owner that returns has a panic |
| `SessionAnswers.LastDropFaults` | src/task/session.rs:322-326 | dropping a waker unused starts the faulting call if and only if all others were dropped too |
| `SessionAnswers.HandlesTell` | src/task/session.rs:479-513 | a copy can be used, a used or dropped waker is spent, and a use starts a call with what it brings |
| `SessionProtocol.UnparkedThreadStillJoins` | src/task/session.rs:281-287 | a thread is unparked before the release, so it is still inside its join |
| `SessionProtocol.WaitingOwnerIsAnnounced` | src/task/session.rs:188-217 | once a result is there, an owner that waits has been told of it or is about to be |
| `SessionProtocol.DroppedLeavesNothing` | src/task/session.rs:131-173 | from `drop_value` on, at every later point, the session is joined and a value that had been set is out of the cell |
| `SessionProtocol.DroppedRefusesCalls` | src/task/session.rs:131-173 | then and later no call is writing, and a call succeeds only if it had won before the drop |
| `SessionProtocol.StepRefinesOneShot` | src/task/session.rs:131-310 | every step is a step of an atomic one-shot cell, or none: a call fails only on a cell that is not open, and succeeds only on one it has decided |
| `SessionProtocol.StepKeepsInv` | src/task/session.rs:131-326 | every step of every agent keeps the invariant behind the theorems above |
| `TaskRuns.TaskOwnership` | src/task.rs:251-269 | in every run a task that is awake and not over is in exactly one place: queued once, with one waker on its way to `resume`, or with one thread; asleep it has nothing to unblock |
| `TaskRuns.EveryCoroutineHasOnePlace` | src/task.rs:171-199 | a live coroutine is in exactly one of current, running, yielding, suspending, blocking, parked; any other in none |
| `TaskRuns.SleepsOnlyWhenIdle` | src/task.rs:318-342 | a sleeping task has nothing to run, somebody blocked, and no pushed wakeup |
| `TaskRuns.WakeIsNotLost` | src/task.rs:401-412 | from `Task::wake` until the list is taken, the coroutine is listed and exactly one party is bound to run the task |
| `TaskRuns.SchedTakesTheList` | src/task.rs:318-321 | the next `sched` makes runnable, in order, what yielded and then what was pushed |
| `TaskActions.SpawnAddsTheChild` | src/task.rs:414-422 | in every run a spawned coroutine becomes runnable behind the others and alive, exactly if the task is running; otherwise nothing happens |
| `TaskActions.SpawnedStaysInOnePlace` | src/task.rs:171-199 | from its spawning until the step in which it ends itself, a coroutine is alive and in exactly one place |
| `TaskActions.StepEndsNobodyElse` | src/task.rs:239-249 | a live coroutine stays so in every step but its own end |
| `TaskActions.ActionTells` | src/task.rs:344-399 | what the task does with a coroutine that yields, suspends, blocks, parks or ends, and with one that is resumed |
| `TaskActions.FirstRunnableFirstRun` | src/task.rs:318-325 | coroutines run in the order in which they became runnable: every step adds behind the others or runs the head |
| `TaskActions.LoopTells` | src/task.rs:322-328 | the next coroutine is run if and only if the task neither yields nor completes and there is one |
| `TaskActions.FlowTells` | src/task.rs:329-342 | the flow of `sched`, each case with its exact condition |
| `TaskActions.RequeuedIsReady` | src/task.rs:329-342 | a task that goes back because somebody was pushed has all of them runnable |
| `TaskActions.AbortAsksEverybody` | src/task.rs:280-289 | when an abort has gone through the blocked coroutines, none is left whose session nobody has won |
| `TaskActions.InterruptTakesTheOpenOnes` | src/task.rs:280-288 | an interrupt makes a blocked coroutine runnable if and only if nobody has won its session |
| `TaskActions.WakeTells` | src/task.rs:401-412 | `wake` lists the coroutine behind the others and has the task queued exactly if it slept |
| `TaskActions.GrabTells` | src/task.rs:313-316 | `grab` has the task queued exactly if it slept |
| `TaskRuns.BlockEndsOnce` | src/task.rs:251-310 | each block ends in exactly one resumption, by the interrupt that won or by the waker that won, and makes a blocked coroutine runnable |
| `TaskRuns.NeverCeasesUnderAWaker` | src/task.rs:271-310 | when a task has ceased no waker that won one of its sessions has yet to call `wake` or `resume`, then or later |
| `TaskRuns.FlowIsRight` | src/task.rs:292-342 | `Block` only with nothing runnable, `Cease` only with main completed and no coroutine left; the last run of main in an `abort` happens only in one entered from `sched`, and finds main parked |
| `TaskInvariant.OnlyMainIsLeft` | src/task.rs:292-311 | a task that has not completed and has nothing left to run or wait for has main as its only live coroutine, parked for its last run; an abort comes there only if it was entered from `sched` |
| `TaskRuns.FindsItsTask` | src/task.rs:36-57 | in every run the running coroutine finds its current task if and only if it is run by `sched`, or by an abort entered from there |
| `TaskRuns.MainParksExactlyInScope` | src/task.rs:99-106 | main comes to its last suspension if and only if it finds its task; in the abort of a shutdown it panics out of its entry |
| `TaskRuns.ShutdownAbortNeverReturns` | src/task.rs:292-311 | the abort of a shutdown keeps its thread for good, main stays alive, and the two asserts are not reached |
| `TaskRuns.ShutdownCrashes` | src/runtime.rs:303-307 | the run of a task that was spawned, not run, and is aborted by a shutdown |
| `TaskInvariant.HandKeeps` | src/task.rs:263-267 | `unblock` makes exactly the listed coroutines runnable, in their order, and keeps the partition |
| `TaskInvariant.StepKeepsInv` | src/task.rs:239-422 | every step of holder, scheduler and wakers keeps the invariant |
| `TaskState.TaskCell.Unblock` | src/task.rs:251-269 | computes the step of the state machine, result included |
| `TaskState.TaskCell.Interrupt` | src/task.rs:271-290 | drains the three containers in any order of the hash maps and unblocks, as the state machine does |
| `TaskState.InterruptLeavesOnlyTheWon` | src/task.rs:271-290 | whatever the order of the hash maps, everybody who yielded or suspended is runnable, and who is still blocked waits on a session that is won |
| `TaskState.TaskCell.Wake` | src/task.rs:401-412 | raises `running` and answers true exactly when nobody is responsible for the task |
| `TaskState.TaskCell.Grab` | src/task.rs:313-316 | answers true exactly when the task was asleep |
| `TaskState.TaskCell.Resume` | src/task.rs:344-348 | makes a suspended coroutine runnable and ignores others |
| `TaskState.TaskCell.Spawn` | src/task.rs:414-422 | the method of `TaskActions.SpawnAddsTheChild`: queues the new coroutine while the task is running |
| `TaskState.TaskCell.YieldCoroutine` | src/task.rs:386-393 | makes the step of the state machine in which the running coroutine yields; the thread goes on without the coroutine exactly if the answer is true |
| `SchedulerProtocol.OneThreadIsLast` | src/runtime.rs:279-291 | for any number of threads exactly one sees the counter reach the parallelism |
| `SchedulerProtocol.SecondStopComesLast` | src/runtime.rs:142-152 | the second `stop` is given only after every thread has left the serving loop and the timer and ticker have ended |
| `SchedulerProtocol.AbortsAlone` | src/runtime.rs:294-316 | the final loop runs with every other thread gone and no task in other hands |
| `SchedulerProtocol.QueueIsSafe` | src/runtime.rs:244-277 | each entry of the run queue is a registered task, once, held by nobody; no task is held by two threads |
| `SchedulerProtocol.DropEndsEverything` | src/runtime.rs:142-158 | when `drop` has returned no thread serves, no task is registered, queued or held, and the timer and ticker have ended |
| `SchedulerProtocol.DropEndsIffNothingIsLeft` | src/runtime.rs:299-316 | once the serving is over, some continuation lets `drop` return if and only if no task is registered |
| `SchedulerProtocol.DropCannotEnd` | src/runtime.rs:299-316 | with a task left when the loop over the registry starts, `drop` does not return in any continuation |
| `SchedulerProtocol.TaskEndsInItsHolder` | src/runtime.rs:259-316 | a registered task stays registered until the thread that holds it removes it, for good; with which flow is `SchedulerQueue.TaskEndsExactlyOnCease` |
| `SchedulerQueue.TaskEndsExactlyOnCease` | src/runtime.rs:266-272 | in every run a task ends if and only if the step is that of a thread which has `Cease` back for it and takes the lock again |
| `SchedulerQueue.GivenBackRightly` | src/runtime.rs:266-272 | a task that yields is queued last and stays registered, one that blocks is left alone, one that ceases leaves the registry alone |
| `SchedulerQueue.RunQueueIsFifo` | src/runtime.rs:244-277 | in every run the tasks that threads have started, followed by the run queue, are the tasks queued by spawning, resuming, grabbing and yielding, in that order |
| `SchedulerQueue.ServingTakesTheFirst` | src/runtime.rs:259-297 | a serving thread starts the first queued task while its loop goes on, and leaves the loop exactly when the counter says so |
| `SchedulerQueue.GrabLeavesNobodyAsleep` | src/runtime.rs:299-302 | after a turn of the loop over the registry no task sleeps |
| `SchedulerQueue.TimerIsToldToStop` | src/runtime.rs:292-297 | the last thread goes on only after the stop message is out |
| `SchedulerProtocol.IdReadIsSafe` | src/runtime.rs:259-272 | the task whose id is read is still registered for exactly the flows other than `Block` |
| `SchedulerProtocol.LateReadRun` | src/runtime.rs:259-272 | the run in which it is not |
| `SchedulerProtocol.StepKeepsInv` | src/runtime.rs:142-316 | every step keeps counter and tasks in order |
| `SchedulerState.SharedState.ServeTurn` | src/runtime.rs:259-291 | a turn of the first loop, or its end, computes the step of the state machine |
| `SchedulerState.SharedState.LastTurn` | src/runtime.rs:294-297 | a turn of the second loop |
| `SchedulerState.SharedState.AbortTurn` | src/runtime.rs:299-302 | a turn of the loop over the registry: queues exactly the tasks that were asleep, each once |
| `SchedulerState.SharedState.AbortNextTurn` | src/runtime.rs:303-306 | a turn of the loop over the run queue |
| `SchedulerState.SharedState.GiveBack` | src/runtime.rs:267-272 | what `run` does with the flow |
| `SchedulerState.SharedState.Stop` | src/runtime.rs:222-226 | counts one up |
| `SchedulerState.SharedState.Sched` | src/runtime.rs:244-251 | registers and queues a task |
| `ParallelChannel.BoundAndPermits` | src/channel/parallel.rs:96-188 | buffer and send permits together stay within the bound; both counters equal the permits that are out, more receive permits than values only once closed with no send permit out, and no assert or unwrap on them fails |
| `ParallelChannel.FirstInFirstOut` | src/channel/parallel.rs:149-218 | what was popped, followed by the buffer, is what was pushed, at every point of every run; both only grow |
| `ParallelChannelAnswers.ReceiversGetWhatWasPushed` | src/channel/parallel.rs:173-188 | in every run, what receives return, what consumed permits bring and what parked threads are given, in order and followed by the buffer, is what was pushed |
| `ParallelChannelAnswers.RecvTells` | src/channel/parallel.rs:284-324 | a receive returns the oldest value nobody has got, exactly if one is not promised to a permit; else the end of a drained channel, nothing, or it parks |
| `ParallelChannelAnswers.PermitBringsTheOldest` | src/channel/parallel.rs:374-389 | a consumed permit brings the oldest value, exactly if there is one |
| `ParallelChannelAnswers.PermitPushesItsValue` | src/channel/parallel.rs:355-367 | a consumed send permit puts its value into the channel |
| `ParallelChannelAnswers.ParkedSendIsQueued` | src/channel/parallel.rs:410-437 | a blocking send parks exactly on an open full channel, at the end of the queue, with its value |
| `ParallelChannelAnswers.SendersAreServedInTurn` | src/channel/parallel.rs:149-171 | the first sender that can be woken is served and told, and those behind it stay |
| `ParallelChannelAnswers.ReceiversAreServedInTurn` | src/channel/parallel.rs:173-188 | the first parked receiver is served: a thread with the oldest value, any other with a permit |
| `ParallelChannelAnswers.SendPermitIsASlot` | src/channel/parallel.rs:115-124 | a send permit is there exactly while the channel is open and not full |
| `ParallelChannelAnswers.RecvPermitIsAValue` | src/channel/parallel.rs:126-143 | a receive permit is a value nobody is promised, or a share in the rest of a closed channel; the end exactly of a drained one |
| `ParallelChannelAnswers.WatchingIsTaking` | src/channel/parallel.rs:331-341 | watching takes the permit for a select that is open and tells it, gives it back for one that is not, and queues one if there is none |
| `ParallelChannelAnswers.UnwatchRecvTakesOff` | src/channel/parallel.rs:403-408 | takes one selector of the select off the receivers and nobody else |
| `ParallelChannelAnswers.CloseTellsEverybody` | src/channel/parallel.rs:190-239 | closing refuses every parked sender with its own value, and leaves no receiver on a drained channel |
| `ParallelChannelAnswers.StepTellsTheEnd` | src/channel/parallel.rs:284-324 | a step leaves a receiver parked on a drained channel if and only if it is a receive that takes the last value of a closed channel beside one |
| `ParallelChannelAnswers.EveryReceiverHearsTheEnd` | src/channel/parallel.rs:206-218 | in any other step that drains the channel, everybody who is parked to receive is told |
| `ParallelChannelAnswers.EndIsTold` | src/channel/parallel.rs:206-218 | in runs without such a step nobody is parked on a drained channel |
| `ParallelChannelAnswers.ReceiverMissesTheEnd` | src/channel/parallel.rs:284-324 | a run with one: a parked receiver is never told |
| `ParallelChannelSenders.SendTells` | src/channel/parallel.rs:410-437 | success means that the value is now the newest in the history, an error hands it back for good, and a send parks only on an open, full channel |
| `ParallelChannelSenders.ParkedSendersAreTold` | src/channel/parallel.rs:149-204 | in every step of every run a parked sender is told of success exactly if the step pushed its value, and of the end only with its own value, which is not in the channel |
| `ParallelChannel.DrainedIsAbsorbing` | src/channel/parallel.rs:105-143 | a drained channel stays drained in every step, and nothing is pushed any more |
| `ParallelChannel.DrainedForGood` | src/channel/parallel.rs:284-324 | after a drained state no value appears in the buffer |
| `ParallelChannel.EndIsTrue` | src/channel/parallel.rs:284-324 | a receiver is told the end exactly when the channel is closed with nothing buffered and nothing outstanding, and a consumed permit of an open channel brings the oldest value; a sender gets a Closed permit only from a closed channel |
| `ParallelChannel.EndNoticesAreFinal` | src/channel/parallel.rs:190-218 | whoever is told that the channel has ended, the channel is drained then and later, and nothing is pushed any more |
| `ParallelChannelSenders.AbandonedNeverArrives` | src/channel/parallel.rs:410-437 | a parked value whose session is gone stays abandoned in every continuation and is never pushed |
| `ParallelChannelSenders.AbortedSenderNeverArrives` | src/channel/parallel.rs:410-437 | from the abort of a task that is parked to send, in every continuation, its value is not pushed |
| `ParallelChannel.RunsGoForward` | src/channel/parallel.rs:149-218 | the history only grows, and what became of a value, once settled, stays |
| `ParallelChannelWaiters.StepKeepsOrder` | src/channel/parallel.rs:149-188 | a step leaves no sender parked beside a free slot exactly if it does not serve a parked thread silently |
| `ParallelChannelWaiters.ParkedMeansFull` | src/channel/parallel.rs:115-124 | outside such steps a sender is parked only while the channel is open and full, so no new send overtakes it |
| `ParallelChannelWaiters.NoThreadsNoSilence` | src/channel/parallel.rs:173-188 | without receivers that park as threads there are no such steps |
| `ParallelChannelWaiters.OvertakingHappens` | src/channel/parallel.rs:173-188 | with one, a later send overtakes |
| `ParallelChannelWaiters.ParkedBehindPermitIsReachable` | src/channel/parallel.rs:284-324 | the state from which it does is reached by three calls |
| `ParallelChannelWaiters.StepKeepsServed` | src/channel/parallel.rs:173-188 | a step leaves a parked receiver beside a value that nobody was promised if and only if it is one of two: a permit used to send on a closed channel, or used to receive from a full one whose slot a parked value takes |
| `ParallelChannelWaiters.ParkedMeansNothingToGet` | src/channel/parallel.rs:284-324 | outside such steps, while a receiver is parked every buffered value is promised to a permit |
| `ParallelChannelWaiters.ReceiverBesideAValue` | src/channel/parallel.rs:355-389 | runs in which each of the two happens |
| `ParallelChannelWaiters.UnwatchSendMisses` | src/channel/parallel.rs:343-348 | the senders never change, and a receiver is lost if and only if there is one at the position of the selector among the senders; a parked task loses its last waker and is faulted |
| `ParallelChannelWaiters.UnwatchSendWorksOnlyOnNothing` | src/channel/parallel.rs:343-348 | the selector is off the senders and no receiver is lost if and only if the selector was not there |
| `ParallelChannelWaiters.UnwatchLosesAReceiver` | src/channel/parallel.rs:343-348 | a run that faults a parked task, or forgets a parked thread, on an open channel while the selector stays |
| `ParallelChannel.StepKeepsInv` | src/channel/parallel.rs:96-437 | every locked method keeps the invariant |
| `ParallelChannelState.State.WakeSender` | src/channel/parallel.rs:149-171 | the loop over the queue serves the first sender that can still be woken: moves its value in, or reserves it a slot |
| `ParallelChannelState.State.WakeReceiver` | src/channel/parallel.rs:173-188 | the loop serves the first receiver that can still be woken: hands a value to a thread, or gives a permit |
| `ParallelChannelState.State.CloseSenders` | src/channel/parallel.rs:190-204 | refuses every parked sender that can still be told, with its own value, and empties the queue |
| `ParallelChannelState.State.CloseReceivers` | src/channel/parallel.rs:206-218 | tells every parked receiver the end and empties the queue |
| `ParallelChannelState.State.SelectSendPermit` | src/channel/parallel.rs:115-124 | a Closed permit when closed, a slot when there is one, else nothing: the step whose permit accounting is proved |
| `ParallelChannelState.State.SelectRecvPermit` | src/channel/parallel.rs:126-143 | a value not yet promised, or the end only when nothing can come any more |
| `ParallelChannelState.State.Send` | src/channel/parallel.rs:410-437 | refused, pushed with a receiver woken, handed back, or parked: the step and the reply of `ParallelChannelSenders.SendTells` |
| `ParallelChannelState.State.Recv` | src/channel/parallel.rs:284-324 | the end, nothing yet, parked, or the oldest value with a sender woken for its slot: the reply of `ParallelChannelAnswers.RecvTells` |
| `ParallelChannelState.State.ConsumeSendPermit` | src/channel/parallel.rs:355-367 | uses a permit up, pushes, and wakes a receiver, or closes the receivers of a channel that has run dry |
| `ParallelChannelState.State.ConsumeRecvPermit` | src/channel/parallel.rs:374-389 | uses a permit up and pops, refilling from a parked sender only from full |
| `ParallelChannelState.State.WatchSendPermit` | src/channel/parallel.rs:331-341 | applies a permit, taking it back if the selector loses, or queues the selector |
| `ParallelChannelState.State.WatchRecvPermit` | src/channel/parallel.rs:391-401 | applies a permit, taking it back if the selector loses, or queues the selector |
| `ParallelChannelState.State.UnwatchSendPermit` | src/channel/parallel.rs:343-348 | finds among senders, removes among receivers, as written; the dropped waker faults the session of a parked task |
| `SerialChannel.NoWakeupIsLost` | src/channel/serial.rs:84-108 | while a receiver is parked, every buffered value has a woken receiver that is not back yet; the same for parked senders and free slots; with everybody back a parked receiver means empty, a parked sender full |
| `SerialChannel.FirstInFirstOut` | src/channel/serial.rs:162-236 | what was popped, followed by the buffer, is what was pushed, within the bound |
| `SerialChannel.SendTells` | src/channel/serial.rs:162-180 | a send reports success exactly if it pushed its value once; it is refused exactly on a closed channel, told that it is full exactly if it only tries, and parked at the end of the queue exactly if it does not |
| `SerialChannel.RecvTells` | src/channel/serial.rs:220-236 | a receive gets the oldest value not popped; from an empty buffer it is told the end exactly on a closed channel, nothing exactly if it only tries, and is parked exactly if it does not |
| `SerialChannel.WakeReceiverWakes` | src/channel/serial.rs:92-98 | skips stale selectors and wakes exactly one live waker if there is one |
| `SerialChannel.ReceiversAreServedInTurn` | src/channel/serial.rs:92-98 | the first live receiver in the queue is woken, and those behind it stay |
| `SerialChannel.SendersAreServedInTurn` | src/channel/serial.rs:84-90 | the same for senders |
| `SerialChannel.WatchAndUnwatch` | src/channel/serial.rs:192-218 | watching queues the select last, unwatching takes it off once, and undoes watching |
| `SerialChannel.CloseKeeps` | src/channel/serial.rs:100-108 | closing leaves nobody parked, every parked coroutine woken, and the buffer as it was |
| `SerialChannel.StepKeepsInv` | src/channel/serial.rs:84-236 | every call keeps the invariant, stale selectors included |
| `SerialChannelState.State.WakeSender` | src/channel/serial.rs:84-90 | the loop skips stale selectors and wakes the first live sender |
| `SerialChannelState.State.WakeReceiver` | src/channel/serial.rs:92-98 | the loop skips stale selectors and wakes the first live receiver |
| `SerialChannelState.State.Close` | src/channel/serial.rs:100-108 | both loops wake everybody live and empty the queues |
| `SerialChannelState.State.SendTurn` | src/channel/serial.rs:162-180 | a turn of the loop of `send`, with the outcome of `SerialChannel.SendTells` |
| `SerialChannelState.State.RecvTurn` | src/channel/serial.rs:220-236 | a turn of the loop of `recv`, with the outcome of `SerialChannel.RecvTells` |
| `SerialChannelState.Without` | src/channel/serial.rs:206-218 | removes the first matching waker only |
| `SharedHandles.CountersAreHandles` | src/channel/shared.rs:69-128 | while open both counters are the numbers of live handles; no `fetch_sub` underflows, ever |
| `SharedHandles.LastHandleClosesOnce` | src/channel/parallel.rs:262-282 | a counter reaches zero at most once |
| `SharedHandles.ClosedExactlyWhenAnEndIsGone` | src/channel/parallel.rs:262-282 | closed if and only if an end has no handle left or a receiver closed by hand, up to a handle between `fetch_sub` and `close` |
| `SharedHandles.ClosedStays` | src/channel/parallel.rs:232-239 | closed for good |
| `SharedHandles.HandleTells` | src/channel/shared.rs:100-128 | a copy is live, a handle that lets go is not, the last of an end closes, and nobody else is touched |
| `SharedState.Peer.Finish` | src/channel/shared.rs:69-98 | the handle lets go exactly when the channel reports that it is closed |
| `SharedState.Peer.Release` | src/channel/shared.rs:100-128 | close, terminate and drop count the handle out once |
| `SharedState.Peer.ConsumeClosed` | src/channel/shared.rs:157-173 | a `Closed` permit lets go without counting |
| `SharedState.Peer.Clone` | src/channel/shared.rs:111-121 | the copy is counted, or empty |
| `SelectProtocol.EveryCandidateOnce` | src/select.rs:189-209 | a round visits each candidate exactly once |
| `SelectProtocol.RoundFollowsRand` | src/select.rs:189-209 | the round starts where `rand` says and goes on cyclically |
| `SelectProtocol.TrySelect` | src/select.rs:228-240 | the first permit in the order of the round; "completed" if and only if every candidate is disabled or completed |
| `SelectProtocol.WinnerIsACandidate` | src/select.rs:246-270 | the winner had a permit when asked or holds the selector; until somebody wins every selector is queued |
| `SelectProtocol.LeftoverIsTheBreakAndTheSenders` | src/select.rs:115-121 | after the witness is dropped there stay the selector of a serial candidate at which the loop broke, and those of senders between tasks that were visited and have not won |
| `SelectProtocol.WitnessUnwatchesAll` | src/select.rs:114-122 | a select takes itself off every candidate, whatever other threads do and whoever wins, if and only if no serial channel is asked after a channel between tasks and no sender between tasks is registered with beside another candidate that may win |
| `SelectProtocol.AbortLeavesTheSenders` | src/select.rs:114-122 | a wait that is aborted leaves exactly the selectors of the senders between tasks |
| `SelectProtocol.Enroll` | src/select.rs:252-268 | the loop computes the round in which the candidates are asked, a win by another thread making the waiter ready at once |
| `SuspensionProtocol.SuspendKeepsItsGuarantee` | src/coroutine/suspension.rs:142-160 | the documented guarantee holds in every continuation if and only if `join` finds no result or no resumption is left |
| `SuspensionProtocol.HowFarItGoes` | src/coroutine/suspension.rs:83-95 | at worst one value too many is accepted and one stray resumption made; the owner's value is always the first accepted |
| `SuspensionProtocol.NobodyIsStranded` | src/coroutine/suspension.rs:50-61 | the counter reaches zero exactly if every resumption was dropped unused, and without resumptions nobody waits |
| `SuspensionProtocol.SendTells` | src/coroutine/suspension.rs:83-95 | success exactly on a joint that is not settled; the value is then held, and the owner that waits or the select that watches is told |
| `SuspensionProtocol.FaultTells` | src/coroutine/suspension.rs:63-81 | the same for a panic, by a fault, the last unused resumption, an interrupt or a dropped owner |
| `SuspensionProtocol.WatchTells` | src/coroutine/suspension.rs:104-124 | a select is told at once if the result is there and else registered; unwatching leaves no trace |
| `SuspensionProtocol.OwnerTakesTheResult` | src/coroutine/suspension.rs:126-160 | the owner takes what the joint holds, at once, after the suspension or with a permit |
| `SuspensionProtocol.GotWhatWasSent` | src/coroutine/suspension.rs:142-160 | in every run the value that the owner gets was sent through a resumption |
| `SuspensionProtocol.TakeFindsAResult` | src/coroutine/suspension.rs:130-160 | no `unreachable!` of `take`, `join` or `watch_permit` is reached while no other rendezvous resumes the coroutine |
| `SuspensionPool.TakeFailsExactlyAfterALateJoin` | src/coroutine/suspension.rs:130-160 | for any number of rendezvous of a coroutine: others can resume it without a result, so that `take` comes to `unreachable!`, if and only if an earlier join was late and left a resumption |
| `SuspensionPool.StrayResumptionBreaks` | src/coroutine/suspension.rs:130-160 | a run of two rendezvous in which it does |
| `SuspensionProtocol.LateJoinIsReachable` | src/coroutine/suspension.rs:142-154 | a copy and one use of a resumption lead to a state in which `join` breaks the guarantee |
| `SuspensionProtocol.PermitMeansResult` | src/coroutine/suspension.rs:104-128 | a select gets a permit only with a result there, and finds it |
| `SuspensionProtocol.StepKeepsInv` | src/coroutine/suspension.rs:45-160 | every call keeps the invariant |
| `SuspensionState.SuspensionJoint.Wake` | src/coroutine/suspension.rs:83-95 | makes the step of the state machine, answer and waiter included |
| `SuspensionState.SuspensionJoint.Join` | src/coroutine/suspension.rs:142-160 | makes the step up to the suspension |
| `SuspensionState.SuspensionJoint.RemoveWaker` | src/coroutine/suspension.rs:55-61 | faults exactly when the counter reaches zero, and then tells exactly the waiter that is recorded |
| `SuspensionState.SuspensionJoint.WatchPermit` | src/coroutine/suspension.rs:104-116 | applies at once or keeps the selector |
| `UringTable.LookupNeverFails` | src/io/poller/uring.rs:135-147 | every completed entry is found in the table, in every run |
| `UringTable.PendingIsPreparedOrSubmitted` | src/io/poller/uring.rs:52-79 | pending keys are the disjoint union of prepared entries and submitted ones |
| `UringTable.EachWakerFiresOnce` | src/io/poller/uring.rs:52-147 | each request's waker fires exactly once, as it leaves the table, cancels included |
| `UringAnswers.CompletionReachesItsRequest` | src/io/poller/uring.rs:139-146 | in every run a completed request is woken with the result of the kernel, an error if it is below zero |
| `UringAnswers.WakeupsAreTheAnswers` | src/io/poller/uring.rs:52-147 | in every run the wakeups are the answers of the steps, in order: completions, cancels answered at once, and what these cancelled |
| `UringAnswers.EveryWakeupIsExplained` | src/io/poller/uring.rs:52-147 | every wakeup comes from its own completion, a cancel before submission, or is that of a cancel answered at once |
| `UringAnswers.RequestsGoToTheKernel` | src/io/poller/uring.rs:52-133 | what is not answered at once is prepared behind the others, and submitting hands all of it to the kernel |
| `UringAnswers.ConsumeAnswersEach` | src/io/poller/uring.rs:135-147 | `consume` wakes, in order, the request of each completion with its result |
| `UringAnswers.ResultsAreKept` | src/io/poller/uring.rs:143-144 | no two results give the same answer, and the errors are those below zero |
| `UringTable.EmptyMeansAllAnswered` | src/io/poller/uring.rs:103-105 | the table is empty if and only if every session has been woken |
| `UringTable.CancelAnsweredMeansGone` | src/io/poller/uring.rs:53-75 | a cancel is answered at once exactly if its target is not in the table afterwards; a prepared target gets `ECANCELED` |
| `UringTable.SwapRemove` | src/io/poller/uring.rs:67 | removes one occurrence and keeps the others |
| `UringTable.Uring.Push` | src/io/poller/uring.rs:52-79 | answers a cancel of a finished or merely prepared target at once and enters any other request, as the table step does |
| `UringTable.Uring.Submit` | src/io/poller/uring.rs:114-133 | pushes its request and some waiting ones in order, and hands them over; `push_multiple` fails exactly if the submission queue has no room at all for a request that has to go in |
| `UringTable.Uring.Consume` | src/io/poller/uring.rs:135-147 | the completions, in order, as `UringAnswers.ConsumeAnswersEach` says |

## Left out

- Memory ordering: every atomic access is sequentially consistent; relaxed, acquire and release are not distinguished.
- Context switching, stacks, foreign calls, the network and the file system: a coroutine is an agent that acts, suspends or completes; the kernel completes each submitted entry once.
- Wall-clock time, the ticker's clock and `RAND`: the times of the ticker's messages and the start of a select round are arbitrary.
- SessionProtocol.StepKeepsInv: the exchange loops of `src/task/session.rs` are steps of a state machine and not loops of a class, because other threads act between any two of them; whether a weak exchange that fails spuriously is ever retried to the end is not claimed.
- TaskInvariant.StepKeepsInv: the run loop of `sched` and the loops of `abort` call coroutines, which act between any two rounds; they are steps of the state machine, and `TaskState` holds the methods they call. The task is one of many: its occurrences in the run queue are counted, and the queue itself is in `SchedulerProtocol`.
- TaskRuns.BlockEndsOnce: joins with a cancellation closure are not modelled; they may be resumed spuriously by design.
- TaskRuns.FlowIsRight: the last run of main is taken to complete, which is what its closure does after it was resumed.
- TaskRuns.ShutdownAbortNeverReturns: without a current task a session blocks the thread instead of the coroutine; that, and the panics that a coroutine catches itself, are steps that change nothing. What becomes of the process after a panic has left the entry of a coroutine is not modelled.
- TimerWheel.RunTimer: sums of a tick and a timeout beyond 64 bits are not modelled; shifts by 14 and 10 bits are divisions by their powers of two; nodes of one tick fire in no particular order.
- TimerWheel.Timer.WakeList: dropping a timer with armed nodes is not modelled.
- ParallelChannel.BoundAndPermits: permits are used once, as the select macro does.
- SerialChannel.NoWakeupIsLost: coroutines that a task abort unwinds while they wait, or between their wakeup and their next turn, are not modelled; permits of serial selects are not reserved, so consuming one may find nothing.
- SharedState.Peer.Finish: the object model runs the two steps of the last handle together; `SharedHandles` has them apart.
- SchedulerProtocol.DropEndsIffNothingIsLeft: that condition variables wake the threads in time and that the polling threads stop is assumed; the timer is taken not to panic. The lines after `task.abort` in the final loop are not modelled, as they are not reached.
- SelectProtocol.WitnessUnwatchesAll: the candidates are handles of different channels; what a missed unwatch does to other waiters is in `ParallelChannelWaiters.UnwatchSendMisses`. Which value a permit carries is not modelled, nor is the parker of `src/select/thread.rs` beyond its being ready when it is won.
- SuspensionPool.TakeFailsExactlyAfterALateJoin: the rendezvous of one coroutine; others take part through the resumptions they hold.
- ParallelChannelWaiters.UnwatchSendMisses: a selector that is dropped shares its waker with the others of its select, so whether it was the last one is left to the environment.
- UringTable.EachWakerFiresOnce: the translation of requests to entries of the kernel interface is not modelled; addresses of sessions are unique among those alive.
- The `select!` and attribute macros, error formatting, file metadata, TCP wrappers, iterators and conversions: thin.
- The thread pool behind the requests that io_uring does not serve: it would repeat the table.
