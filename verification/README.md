# A verified model of the coroutine runtime

The repository is a coroutine library in the style of libco. This project models the
parts of it that carry the hard state, in Dafny, and proves what they promise. Six
parts build on each other where they meet:

1. **Lists, timing wheel, event loop.** `IntrusiveList`, `TimingWheel` and `EventLoop`
   are the pointer code on heap objects, each operation proved against a function on
   plain sequences. `TimerLog`, `TimerSlots` and `EpollLists` are those functions and
   what is proved about them: which timers a pass takes, in which order, and where a
   record is afterwards.
2. **The scheduler.** `Scheduler` is one thread as a state machine, built from the
   functions of part 1. A step is one call of the library or one stretch of
   `co_eventloop`. What epoll reports, what the clock reads and what the coroutines call
   is arbitrary. `SchedulerCalls` says what single calls do, without the functions that
   the machine is made of. `SchedulerInv`, `SchedulerLog`, `SchedulerReports`,
   `SchedulerTime`, `SchedulerOrder`, `SchedulerSignals`, `SchedulerMutex` and
   `SchedulerStack` are about every run, one subject each; `SchedulerRegs`,
   `SchedulerEdges` and `SchedulerLostSignal` say exactly when a promise is not kept.
3. **Shared stacks.** `SharedStack` is the machine of resumes, yields, resets and
   releases over private and shared stack buffers, `SharedStackInv` and
   `SharedStackRuns` prove that the copying is invisible and exactly when it is not,
   `SharedStackLoss` is a run in which it is not, and `CoRoutines` is the same on objects
   and byte arrays updated in place.
4. **Scheduler and stacks together.** `Runtime` runs the machines of parts 2 and 3 in
   step and gives each record, poll item and result array a place, on the heap or on some
   coroutine's stack, so that a step has a set of spans it writes and places it reads.
   `SchedulerShape` says what a step does to the call stack and the waits, `RuntimeInv`
   is the joint invariant, and `RuntimeRuns` is what holds of the bytes over every run.
   Conditions, mutexes and their queues are on the heap.
5. **The x86-64 context switch.** `ContextSwitch` executes `coctx_swap` push by push and
   pop by pop and fills a context as `coctx_make` does; `ContextRuns` proves both against
   System V AMD64 ABI sections 3.2.1 and 3.2.2 over any run.
6. **The hook layer.** `PollMerge` is the merging of duplicate fds in `poll` and
   `PollCounts` what its result says; `EnvNames`, `EnvTable`, `EnvCalls` and `EnvHooks`
   are the environment variables.

The functions of `Scheduler` and `SharedStack` have the names of the C functions they
model; their fields keep the C names too. History that no step looks at (who asked for a
mutex, how often a timer was put back, what was on a stack) is marked as such.

## What turned out false, and the exact condition

- A signal is not always served by the pass it was for. `co_cond_signal` puts the waiter
  on the active list, but if the wheel has just handed out the waiter's own long timer
  too early, the draining loop files it again (co_routine.cc:726) and the signal is gone.
  `SignalOutcome`: this happens exactly to waiters with `bTimeout` set before their
  expiry when they are signalled; `LostSignal` is such a run on the wheel of 60 * 1000
  slots that `AllocEpoll` makes, and `ShortWaitsAreNotLost` rules it out for timeouts
  within the span of the wheel.
- A displaced coroutine is not always restored. The guard at co_routine.cc:579 skips the
  copy when `occupy_co` is NULL, which `co_free` and `co_reset` make it.
  `RestoredExactlyIf`: a coroutine is safe exactly if its stack is its own or occupied;
  `FreedOccupant` is the failing family, `LostStack` one run of it, and
  `CarefulRunsOccupied` and `CarefulRunsIntact` the discipline that avoids it.
- `co_poll_inner` leaves its registrations in epoll when `AddTimeout` refuses the timer
  (`PollLeavesRegistrations`, `DanglingReport`).
- A condition waiter that is resumed by hand leaves its freed record on the wheel or the
  active list (`ResumeOfCondWaiter`).
- With duplicate fds the `poll` hook returns the number of ready fds, not of entries
  (`CountIsReady`), and drops errors and hang-ups that an entry did not ask for
  (`ShareIsAll`). `NumberIsCountExactlyIf`: the number is that of the entries with a
  result, whatever is ready, exactly if no fd occurs twice, or no entry had a result
  before and each fd has one entry that asks for errors and hang-ups while its other
  entries ask for nothing. `PositiveShowsExactlyIf`: a positive number means that some
  entry has a result exactly if no fd occurs twice, or errors and hang-ups are asked for
  on each fd; `PositiveYetNothing` is an input without.
- Two coroutines that poll the same fd share its registration, and the first poll to end
  deletes it (co_routine.cc:880-885). `KeepsRegistrationsExactlyIf`: a poll keeps its
  registrations exactly if no poll that ends meanwhile names one of its fds;
  `NeverReportedAgain` is what happens to one that has lost them all.
- A pass of the wheel counts its slots in an `int` (co_routine.cc:364). A count that
  comes out negative skips the pass (`NegativeCountSkips`), and `MiscountDelays`: one short
  leaves timers late by a multiple of 2^32 milliseconds, never if the gap fits.

One comment disagrees with its code: co_routine.cc:812 says that poll items are kept on
the stack for up to two fds and a shared stack; the code (line 811), which the model
follows, does so for fewer than two fds and a stack that is not shared.

## Model

| member | source | states |
|---|---|---|
| IntrusiveList.RemoveFromLink | co_routine.cc:123-155 | takes the node off the one list its `pLink` names and keeps the order of the rest; every other list and every other node's `pLink` is untouched; a node on no list is left alone |
| IntrusiveList.AddTail | co_routine.cc:158-175 | appends a free node; a node that is on some list already stays there; all other lists are untouched |
| IntrusiveList.PopHead | co_routine.cc:178-195 | drops the first node and leaves it free; nothing on an empty list |
| IntrusiveList.Join | co_routine.cc:196-217 | concatenates the second list to the first, relabels its nodes and empties it, with `head`, `tail`, `pPrev`, `pNext` and `pLink` consistent for all lists |
| TimingWheel.Timeout.constructor | co_routine.cc:311-317 | an empty wheel of the given size that starts at the given clock reading |
| TimingWheel.Timeout.AddTimeout | co_routine.cc:325-350 | the ring of slots does what `TimerLog.AddTimer` does to a plain log of timers, including both refusals, and no list outside the ring changes; an item that is on a list already stays where it is |
| TimingWheel.Timeout.Remove | co_routine.cc:124-155 | a node removed from whatever slot it is in is the timer removed from the log |
| TimingWheel.Timeout.TakeAllTimeout | co_routine.cc:355-378 | appends to the result list exactly what is due by the last slot that its `int` count reaches, in the order of `TimerLog.Expired`, and moves the origin of the ring to the clock; nothing happens if the count is negative |
| TimingWheel.CountFits | co_routine.cc:364-377 | as long as the gap fits the count, a pass does what `TimerLog.TakeTimers` says |
| TimingWheel.MiscountDelays | co_routine.cc:364-377 | when the count does not fit, what a pass leaves on the wheel is late by a multiple of 2^32 milliseconds, which is 0 exactly if the gap fits |
| TimingWheel.NegativeCountSkips | co_routine.cc:368-370 | after a gap whose count comes out negative a pass takes nothing and leaves the wheel as it is |
| TimingWheel.Timeout.PendingExactlyIfLinked | co_routine.cc:124-130 | a timer is pending exactly if its `pLink` names a slot of the ring, which is how RemoveFromLink finds it |
| TimingWheel.RingDistinct | co_routine.cc:348-348 | different distances from the origin are different slots of the ring |
| TimingWheel.RingPlace | co_routine.cc:373-373 | every slot of the ring lies at some distance below its size from the origin |
| TimerLog.AddTimerValid | co_routine.cc:326-349 | a timer is accepted exactly if start <= now <= expiry; it is due at its expiry, or earlier exactly if that is out of the span; all others stay as they were |
| TimerLog.RemoveTimerValid | co_routine.cc:124-155 | removing a timer removes that one only |
| TimerLog.TakeTimersExact | co_routine.cc:356-377 | a pass takes exactly the timers whose tick has come, each once, and what stays is due strictly later |
| TimerLog.SortIsStable | co_routine.cc:371-375 | what is taken is in the order of its ticks, and as added within a tick |
| TimerLog.StableSortUnique | co_routine.cc:371-375 | there is only one such order |
| TimerSlots.AgreesAdded | co_routine.cc:343-348 | appending to slot `diff` from the origin files the timer at tick start + diff |
| TimerSlots.AgreesRemoved | co_routine.cc:124-155 | removing a node from all slots removes its timer |
| TimerSlots.CollectedIsExpired | co_routine.cc:364-375 | the slots joined one after the other, with the count capped at the size of the ring, are the stable sort of what is due |
| TimerSlots.AdvancedIsRemaining | co_routine.cc:376-377 | after the origin moved by cnt - 1 slots the emptied ring holds exactly the timers that are not due |
| EpollLists.ReadyMoves | co_routine.cc:681-683 | a record made ready is off the wheel and once on the active list; all others are where they were |
| EpollLists.ReadyAllMoves | co_routine.cc:992-1003 | several records made ready one after the other are off the wheel and last on the active list in their order; all others are where they were |
| EpollLists.DetachMoves | co_routine.cc:878-878 | a detached record is on no list; all others are where they were |
| EpollLists.ArmMoves | co_routine.cc:854-856 | a record armed for a timeout is on the wheel at the tick it is filed under exactly if AddTimeout accepts it |
| EpollLists.CollectMoves | co_routine.cc:713-721 | a pass moves each due record from the wheel to the active list once |
| EpollLists.CollectTakesDue | co_routine.cc:713-721 | what is still on the wheel after the pass is due later than its clock |
| PollEvents.RoundTrip | co_routine.cc:614-636 | the six event bits survive the way to epoll and back, and a report is visible to the caller exactly if it carries one of them |
| PollEvents.SameBits | co_routine.cc:614-636 | in either direction each of the six bits is set exactly if its namesake is, and no other bit is |
| EventLoop.CoEpoll.MakeReady | co_routine.cc:985-988 | RemoveFromLink then AddTail on the active list, as `EpollLists.Ready` |
| EventLoop.CoEpoll.CollectTimeouts | co_routine.cc:701-721 | the timeout half of a pass on the objects: the wheel hands out what its count reaches, `bTimeout` is set on exactly those records and they end last on the active list; that is `EpollLists.Collect` if the clock gap fits the count |
| EventLoop.CoEpoll.NextActive | co_routine.cc:723-734 | one turn of the draining loop: the first active record is processed, or goes back to the wheel with `bTimeout` cleared exactly if it is early and accepted |
| EventLoop.OnPollPreparePfn | co_routine.cc:670-686 | stores the translated events, counts the report, and moves the poll to the active list the first time only |
| EventLoop.CondSignal | co_routine.cc:980-991 | wakes exactly the longest waiter, if there is one; the other queues are untouched |
| EventLoop.CondBroadcast | co_routine.cc:992-1003 | empties the queue; the timers of all its waiters are off the wheel and last on the active list, in queue order, after what was there otherwise; every other record is where it was |
| EventLoop.CondPop | co_routine.cc:1038-1044 | returns and drops the head of a condition queue |
| EventLoop.CoMutex.CoLock | co_comm.cc:12-19 | counts the request and queues it exactly if the counter was positive |
| EventLoop.CoMutex.CoUnLock | co_comm.cc:21-24 | counts down and wakes exactly the longest waiter |
| SchedulerInv.ResumeBlocked | co_routine.cc:472-486 | switching in a blocked coroutine ends its own wait and keeps the invariant: no list, queue or registration refers to its record any more, and every other wait is as before |
| SchedulerInv.StepKeeps | co_routine.cc:664-748 | each of the fourteen steps keeps the invariant on call stack, waits, wheel, active list, condition queues and epoll registrations |
| SchedulerInv.RunKeeps | co_routine.cc:664-748 | and so does every run of them |
| SchedulerInv.Safety | co_routine.cc:472-518 | in every reachable state no freed record was touched and no running or ended coroutine resumed; waits belong to different coroutines off the call stack; a record is on the wheel or the active list, not both; no poll with items on its stack belongs to a coroutine that shares its stack |
| SchedulerInv.PollKeeps | co_routine.cc:794-873 | co_poll_inner up to its yield keeps the invariant, provided the timer is accepted or nothing is registered |
| SchedulerInv.SignalKeeps | co_routine.cc:980-991 | co_cond_signal keeps it, whether the waiter is on the wheel, taken already, or without a timeout |
| SchedulerInv.ReportKeeps | co_routine.cc:670-686 | a report of epoll keeps it |
| SchedulerInv.TakeKeeps | co_routine.cc:713-721 | taking and marking timeouts keeps it |
| SchedulerInv.DrainKeeps | co_routine.cc:723-740 | each turn of the draining loop keeps it |
| SchedulerCalls.PollWaits | co_routine.cc:796-873 | a poll's caller is off the call stack with a timed wait of its own that expires at the call's clock plus the timeout, 40 seconds at most, and has seen nothing; or the call returns at once with nothing changed, exactly if the wheel has not started by then or the expiry is past |
| SchedulerCalls.TimedWaitWaits | co_routine.cc:1005-1024 | the caller of co_cond_timedwait is off the call stack and last in the queue, with a timer exactly if `ms` is positive; or returns at once for the same reasons |
| SchedulerCalls.SignalServes | co_routine.cc:980-991 | exactly the longest waiter leaves queue and wheel and is last on the active list |
| SchedulerCalls.SwitchesCallStack | co_routine.cc:472-518 | co_resume pushes its coroutine and ends that one's wait only, logged with the clock of that moment; yielding and ending pop the caller and concern no wait |
| SchedulerCalls.ReportNotes | co_routine.cc:670-686 | a report is written, as poll bits, into the entry that its registration points to, and that poll is active; no other entry and no other wait is concerned |
| SchedulerCalls.TakeMarks | co_routine.cc:713-720 | a pass marks as timed out exactly what it takes off the wheel |
| SchedulerCalls.EachCanBeReported | co_routine.cc:697-712 | once a pass has begun each registration can be reported, and the timeouts taken |
| SchedulerCalls.OthersCanBeReported | co_routine.cc:704-712 | and still after others have been reported |
| SchedulerCalls.PassGoesOn | co_routine.cc:713-740 | then the pass drains the active list until nothing is left on it, and is over |
| SchedulerLog.EveryWaitEndsOnce | co_routine.cc:670-740 | over any run each wait is live or has ended once; a poll's result is the number of its entries with something to report, and a poll resumed by the loop returns 0 exactly if its timeout woke it |
| SchedulerLog.PollReturnsClean | co_routine.cc:874-885 | when a poll's coroutine is switched in, its record is on no list and none of its fds is registered any more |
| SchedulerReports.PollSeesReports | co_routine.cc:670-679 | over any run, each entry of a poll shows, while it waits and when it ends, the latest report that epoll made for it since the call, or nothing |
| SchedulerReports.PollOutcome | co_routine.cc:796-895 | a poll from its call to its return, in any run with a clock that does not go back: its caller gets those reports, the result counts the entries that have one, and when the loop resumes it with 0 its timeout has passed |
| SchedulerTime.NeverEarly | co_routine.cc:726-734 | over any run with a clock that does not go back, no timeout fires before its expiry |
| SchedulerTime.NeverLate | co_routine.cc:713-740 | nor after the first pass whose clock reaches it |
| SchedulerTime.TimeoutsInOrder | co_routine.cc:713-721 | even for timers that were put back: while each pending one fits the wheel from its last filing, a pass appends the due ones by expiry after what is ready already |
| SchedulerOrder.StableTimeouts | co_routine.cc:713-721 | over every run with a clock that does not go back, while all timeouts fit the wheel, a pass is a stable sort: exactly the expired timeouts go last on the active list, by expiry and, where that is equal, in the order in which the waits began |
| SchedulerOrder.DrainsHead | co_routine.cc:723-740 | the draining loop runs the coroutine of the first active record, unless that is an early timer, and its wait is over |
| SchedulerTime.RefileSucceeds | co_routine.cc:726-733 | putting an early timer back always succeeds, and it does not come back in the same pass |
| SchedulerTime.RefileBound | co_routine.cc:343-349 | a wait that expires at E and was first filed when the wheel started at S is put back at most (E - S) / (iItemSize - 1) times |
| SchedulerTime.EarlyIsClamped | co_routine.cc:344-347 | a timer is taken early only if its filing was clamped, and then the start has moved on by all slots but one |
| SchedulerSignals.SignalOutcome | co_routine.cc:723-740 | a signalled waiter is resumed by the loop, in the pass the signal was for exactly if its own timer was not out early; what is left when a pass ends was early |
| SchedulerSignals.ShortWaitsAreNotLost | co_routine.cc:980-991 | a waiter whose timeout fits the wheel is never in that case |
| SchedulerSignals.BroadcastOrder | co_routine.cc:992-1003 | a broadcast puts all waiters, also timed-out ones that have not run yet, last on the active list in the order they waited, and off the wheel; every other timer stays |
| SchedulerLostSignal.LostSignal | co_routine.cc:726-733 | a concrete run, on a wheel of 60 * 1000 slots, in which a signalled waiter is put back on the wheel and is on no queue any more |
| SchedulerMutex.MutualExclusion | co_comm.cc:12-24 | read off the events of any run: CoLock returns to its callers in the order they called it; with u unlocks so far it has returned u times, or u + 1 times and the caller with u requests before it is the holder; the counter is the queue plus one if the mutex is held or handed over |
| SchedulerMutex.LockTakes | co_comm.cc:12-19 | with a counter of at most 0 the caller holds the mutex at once and goes on; else it is last in the queue and off the call stack, and the holder is as before |
| SchedulerMutex.UnlockHands | co_comm.cc:21-24 | the mutex is handed to the longest waiter, which leaves the queue and is last on the active list |
| SchedulerMutex.Granted | co_routine.cc:1022-1027 | the waiter that returns from its wait is the one the mutex was handed to, and owns it then |
| SchedulerStack.StepCalls | co_routine.cc:472-518 | each step pushes one coroutine, pops one, or leaves the call stack alone |
| SchedulerStack.CallsNest | co_routine.cc:735-738 | a call of co_resume, in particular the loop's call of pfnProcess, returns to the very call stack it was made from |
| SchedulerEdges.PollLeavesRegistrations | co_routine.cc:858-871 | the early exit of co_poll_inner keeps the invariant exactly if the timer is accepted or no fd was newly registered |
| SchedulerEdges.DanglingReport | co_routine.cc:858-871 | what it leaves points to a freed record that the next report touches |
| SchedulerEdges.NegativeTimeout | co_routine.cc:336-341 | a negative timeout takes that exit |
| SchedulerEdges.ResumeOfCondWaiter | co_routine.cc:1022-1027 | resuming a condition waiter by hand keeps the invariant exactly if it is neither on the wheel nor on the active list |
| SchedulerRegs.KeepsRegistrationsExactlyIf | co_routine.cc:880-885 | over any run, a poll keeps all its registrations exactly if no poll that ends meanwhile names one of its fds |
| SchedulerRegs.NeverReportedAgain | co_routine.cc:880-885 | a poll that has lost all its registrations gets no report any more |
| SchedulerRegs.PollRegisters | co_routine.cc:818-850 | a poll that waits has registered each of its fds that was not registered and that epoll takes, for its first entry for that fd, and has left the other registrations alone |
| SchedulerRegs.RegisteredWhileLive | co_routine.cc:818-885 | over any run, what is registered for a poll is what it registered when called, less the fds of the polls that ended since |
| SharedStackInv.DisplaceKeeps | co_routine.cc:554-569 | the new occupant displaces the old one into its save buffer; everything else that is switched out is intact |
| SharedStackInv.SwapInKeeps | co_routine.cc:574-583 | the second half of co_swap copies back exactly what was displaced, and nothing otherwise |
| SharedStackInv.SwapKeeps | co_routine.cc:546-585 | both halves together: everybody switched out is kept, and the one switched in finds its own bytes if its stack is occupied |
| SharedStackInv.StepKeeps | co_routine.cc:449-585 | every step keeps the invariant: a switched-out coroutine is intact in place if its stack is its own or it is the occupant, and in its save buffer otherwise |
| SharedStackRuns.SwitchedBackIntact | co_routine.cc:472-585 | whatever happened before and whatever the others do meanwhile, a coroutine switched back in on an occupied stack finds all bytes from stack_sp on as it left them, at the same stack_sp |
| SharedStackRuns.PrivateStackStays | co_routine.cc:528-585 | while a coroutine with a stack of its own is away its bytes stay in place |
| SharedStackRuns.RestoredExactlyIf | co_routine.cc:579-583 | for every state and every content of the buffer: the bytes are found exactly if the stack is private or has an occupant |
| SharedStackRuns.FreedOccupant | co_routine.cc:449-463 | freeing or resetting the occupant and then resuming the displaced coroutine shows it the occupant's bytes |
| SharedStackRuns.CarefulRunsOccupied | co_routine.cc:488-504 | if an occupant is only freed or reset when nobody else needs its stack, stacks are occupied whenever somebody is switched in |
| SharedStackRuns.CarefulRunsIntact | co_routine.cc:472-585 | so in every such run a coroutine that is switched back in finds all its bytes |
| SharedStackRuns.ResetStartsAnew | co_routine.cc:488-504 | a coroutine that was started and is reset has nothing on its stack, occupies none and starts anew; nobody else's record, bytes or occupancy change |
| SharedStackRuns.FreeForgets | co_routine.cc:449-463 | a freed coroutine is gone, with its stack if that was its own; a shared one stays, with its bytes but without that occupant |
| SharedStackLoss.LostStack | co_routine.cc:488-504 | a concrete run on a stack of 4096 bytes in which a coroutine leaves 7s on its stack and finds 9s |
| RuntimeInv.StepKeeps | co_routine.cc:449-895 | each step of scheduler and stacks together keeps both invariants and the objects of every wait: records and copies on the heap; poll items on a stack only if that stack is private, and then as they were filled; the caller's array inside the stack that its coroutine left |
| RuntimeRuns.WritesIsAll | co_routine.cc:528-585 | no byte of any stack changes in a step of the scheduler outside the spans of `Writes`: items that a poll fills, the stack of whoever is switched in, the array of the caller whose poll returns |
| RuntimeRuns.WritesExactlyIfSwitchedIn | co_routine.cc:670-686 | over every run, a step writes to the stack of a waiting coroutine, shared or not, exactly if it switches that coroutine in |
| RuntimeRuns.WaitingStackStays | co_routine.cc:874-895 | whatever the others do while a coroutine waits, what it has on its stack, in place or saved, its address, and what the caller's array on the heap holds stay as they are |
| RuntimeRuns.ItemsIntact | co_routine.cc:810-836 | poll items on a stack are found as they were filled, at the address that epoll has, in every state while the poll waits |
| RuntimeRuns.ReportReadsIntact | co_routine.cc:670-679 | the item that a report reads belongs to a live poll and, if it is on a stack, is intact there |
| RuntimeRuns.PollDelivers | co_routine.cc:874-895 | a poll from its call to its return, in any run: on an occupied stack the caller finds all that it left, with nothing changed but the `revents` of its own array, and those are the latest reports made for it |
| RuntimeRuns.ResultsReadBack | co_routine.cc:886-886 | and each entry of the array reads back the poll's `revents` of that entry |
| CoRoutines.Memcpy | co_routine.cc:540-540 | the loop leaves the destination with the source's bytes at the place and all others unchanged |
| CoRoutines.CoRoutine.SaveStackBuffer | co_routine.cc:528-541 | a fresh buffer with exactly the bytes from stack_sp to stack_bp |
| CoRoutines.CoRoutineEnv.constructor | co_routine.cc:640-657 | the environment starts as the machine does, with main on the call stack |
| CoRoutines.CoRoutineEnv.CoSwap | co_routine.cc:546-585 | the objects and buffers end as `SharedStack.Swap` says |
| CoRoutines.CoRoutineEnv.CoResume | co_routine.cc:472-486 | co_resume on the objects is the machine's step and keeps its invariant, so no copy leaves its buffer |
| CoRoutines.CoRoutineEnv.CoYieldEnv | co_routine.cc:507-518 | and so is co_yield_env |
| CoRoutines.CoRoutineEnv.CoEnd | co_routine.cc:384-387 | and so is the end of a coroutine |
| CoRoutines.CoRoutineEnv.CoReset | co_routine.cc:488-504 | and so is co_reset |
| CoRoutines.CoRoutineEnv.CoFree | co_routine.cc:449-463 | and so is co_free |
| CoRoutines.CoRoutineEnv.CoCreateShared | co_routine.cc:405-434 | a new coroutine on a shared stack |
| CoRoutines.CoRoutineEnv.CoCreatePrivate | co_routine.cc:405-434 | a new coroutine on a stack of its own |
| CoRoutines.CoRoutineEnv.CoAllocStackMem | co_routine.cc:220-228 | a new, unoccupied stack buffer |
| ContextSwitch.Machine.CoctxSwap | coctx_swap.S:49-95 | the pushes and pops save all registers, the return address and the caller's stack pointer into the block at rdi, in the layout of coctx.cc, and go on from the block at rsi |
| ContextSwitch.Machine.SaveRegisters | coctx_swap.S:49-70 | the fourteen pushes fill the block as laid down |
| ContextSwitch.Machine.LoadRegisters | coctx_swap.S:72-95 | the pops load what the block holds; only the word under the new stack pointer is written |
| ContextSwitch.Coctx.CoctxMake | coctx.cc:100-112 | the block whose loading starts the function with its two arguments on an aligned stack |
| ContextSwitch.Coctx.CoctxInit | coctx.cc:95-98 | all of the context is zero |
| ContextRuns.SwapReturns | coctx_swap.S:49-95 | over any run, control comes back to the return address with the callee-saved registers as they were and that address popped (System V AMD64 ABI 3.2.1) |
| ContextRuns.MadeStarts | coctx.cc:100-112 | over any run, a made context starts at its function with both arguments and rsp + 8 a multiple of 16 inside its own buffer (System V AMD64 ABI 3.2.2) |
| ContextRuns.StepKeeps | coctx_swap.S:49-95 | every suspended context's block holds what it must find, across switches, new contexts and whatever the running one does elsewhere |
| ContextRuns.LoadedStored | coctx_swap.S:54-90 | loading a block gives back the registers stored in it |
| EnvNames.DedupKeeps | co_hook_sys_call.cc:643-656 | squeezing a sorted list leaves exactly its names, in strict order |
| EnvNames.StrictlySortedUnique | co_hook_sys_call.cc:642-656 | which is the only such list |
| EnvTable.SysEnvArr.Squeeze | co_hook_sys_call.cc:643-656 | the two pointers compact the array in place to the list without duplicates |
| EnvTable.SysEnvArr.CoSetEnvList | co_hook_sys_call.cc:632-658 | the first call leaves exactly the given names that are neither NULL nor empty, strictly sorted and unset; a later call changes nothing |
| EnvTable.SysEnvArr.Bsearch | co_hook_sys_call.cc:673-673 | finds an entry exactly if its name is there |
| EnvTable.SysEnvArr.DupCoSysenvArr | co_hook_sys_call.cc:617-625 | a copy in fresh memory with equal entries |
| EnvHooks.Hooks.SetEnvList | co_hook_sys_call.cc:632-658 | a coroutine with a copy is not affected; one without sees the new names, all unset |
| EnvHooks.Hooks.SetEnv | co_hook_sys_call.cc:660-686 | sets a registered name under the overwrite rule in the caller's own table, nobody else's; any other name, or an unhooked coroutine, goes to the system |
| EnvHooks.Hooks.UnsetEnv | co_hook_sys_call.cc:688-710 | unsets a registered name in the caller's own table only |
| EnvHooks.Hooks.GetEnv | co_hook_sys_call.cc:712-729 | returns the caller's own value of a registered name and changes no table |
| EnvHooks.Hooks.Run | co_hook_sys_call.cc:660-729 | whatever the interleaving of calls that the coroutines make through the three hooks, each hooked coroutine's answers and table are those of its own calls made alone; the k-th call goes to the system exactly if its caller is not hooked or its name is not registered |
| EnvCalls.TableIsLatest | co_hook_sys_call.cc:676-684 | each registered name is a variable of its own: it holds what the last effective call gave it, and the set of names never changes |
| EnvHooks.Hooks.GetAfter | co_hook_sys_call.cc:712-729 | what getenv returns after any interleaving: the latest value that the coroutine itself gave to a registered name |
| PollMerge.MergeFds | co_hook_sys_call.cc:467-481 | the loop over the map builds the merged array and finds each fd's entry |
| PollMerge.MergeIsMerge | co_hook_sys_call.cc:469-481 | one entry for each distinct fd, in the order of first occurrence, asking for the union of what its duplicates ask for |
| PollMerge.ShareIsAlone | co_hook_sys_call.cc:492-492 | the share of an entry is, on the bits it asked for, what polling it alone would give |
| PollMerge.ShareIsAll | co_hook_sys_call.cc:492-492 | and all of that exactly if no error or hang-up is ready that it did not ask for |
| PollMerge.Poll | co_hook_sys_call.cc:456-499 | the inner poll only ever sees distinct fds; results, returned number and untouched entries in each of the four cases |
| PollMerge.ResultBits | co_hook_sys_call.cc:488-495 | bit by bit: each is set in the result of an entry exactly if it is ready and the entry asks for it; an error or hang-up that the entry does not ask for exactly if it is ready and no fd occurs twice |
| PollCounts.CountIsReady | co_hook_sys_call.cc:482-498 | with duplicates the returned number is that of the distinct ready fds |
| PollCounts.SharesShow | co_hook_sys_call.cc:488-495 | some entry shows something exactly if something that was asked for is ready |
| PollCounts.NumberIsCountExactlyIf | co_hook_sys_call.cc:456-499 | the returned number is that of the entries with a result, whatever is ready, exactly if no fd occurs twice, or all entries are clear before and each fd has one entry that asks for errors and hang-ups and no other that asks for anything |
| PollCounts.PositiveShowsExactlyIf | co_hook_sys_call.cc:456-499 | a positive number means that some entry has a result, whatever is ready, exactly if no fd occurs twice or errors and hang-ups are asked for on each |
| PollCounts.PositiveYetNothing | co_hook_sys_call.cc:482-498 | a positive result with no entry set |

## Left out

What the model takes for granted, because the code relies on it:

- Call depth below 128 (`pCallStack` is unchecked); no resumption of a coroutine that
  runs or has ended; main never yields; a mutex is unlocked by its holder. `Enabled`
  states these for each step.
- In `Scheduler` the gap between two takes fits the `int cnt` at co_routine.cc:364.
- What a coroutine passes to `poll` is on the heap or in its own frames; nobody frees or
  resets a coroutine that waits; and a stack holds `revents` low byte first.
- `AllocTimeout` is taken to return `lp`; its return statement is missing.
- Wait records get addresses that were never used before; reuse by `malloc` is not
  modelled.
- Epoll reports a registration at most once per batch and with a bit the code knows; a
  clock that goes back is allowed everywhere except in `SchedulerTime` and in what uses it.
- Whatever lies at or above `stack_sp` is a coroutine's stack, and the second half of
  `co_swap` reads the environment afresh, as its `curr_env` intends; co_routine.cc:575-577
  reads through a local that lives on the stack being restored.
- Memory of the context switch consists of aligned 64-bit words; `sp & -16` is rounding
  down to a multiple of 16; `r10` and `r11`, which the code does not move, are absent.
- A `coctx_t` is not placed on the stack of another context.
- `qsort`, `bsearch`, `strdup`, `std::map`, `malloc` and `memcpy` behave as specified;
  equal environment names are not told apart.

What the repository does and the model does not:

- TimingWheel.Timeout.TakeAllTimeout: leaves out a count of exactly 0, a gap of one millisecond less than a multiple of 2^32, after which `llStartIdx` may be -1, which names no slot.
- EventLoop.CoEpoll.CollectTimeouts: leaves out the same gap.
- PollMerge.CoPollInner: takes what epoll reports as one reading of each fd's readiness, without the waiting that `Scheduler` models.
- The EPERM exit of `co_poll_inner` for a single fd (co_routine.cc:838-849): it leaves nothing behind.
- Epoll items without `pfnPrepare` (co_routine.cc:708-710): the library registers none.
- Several event loops at once, nested event loops and threads: each thread has its own scheduler.
- The event loop's user callback (co_routine.cc:741-745) is any call in the main coroutine between two passes.
- Stack sizes and the round robin over the buffers of a shared stack (co_routine.cc:246-254, 396-404).
- The 32-bit halves of coctx.cc and coctx_swap.S, whose assembly has an invalid mnemonic.
- The hooks for sockets, files and name resolution, and the flag handling of `fcntl`.
- `co_epoll.cc`, `co_routine_specific.h` and the demonstrations under tests/.
