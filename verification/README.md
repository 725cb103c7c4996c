# PandOSsh in Dafny

A model of the PandOSsh microkernel and proofs about it, in three layers.

**Nucleus.** The state holds the PCB table, the free list, the ready queue, the active semaphore
list, the process tree, `currProc`, the two counters, the semaphore words and the clock. One step is
one exception, from its handler to the end of `dispatch`; handlers run with interrupts off. The clock
readings a handler makes are parameters of the step. `NucleusSpec.dfy` says what each handler does to
the state, `Machine.dfy` is the same nucleus as a class with the globals as fields and the loops as
loops, each method proved to do what the specification says; those of its methods that are not in the
table are the steps `Machine.Nucleus.Exception` is composed of. The main result is an equivalence: from
any state that satisfies the invariant, a step satisfies it again **if and only if** the event's guard
holds, a condition on the call that can be checked before it. On it rest, for every run: the partition
of the PCBs, the exact counters, the process tree, `dispatch`'s verdicts, the queue discipline of every
semaphore, the order of dispatching within each priority, conservation and mutual exclusion, DOIO
answered by its own device, what each process is told and keeps from its creation to its end, the bound
on charged time, round robin.

**Demand pager.** The pager blocks on the swap mutex and twice on the flash device. `Pager.dfy` is a
machine whose steps are the stretches between those points, interleaved with the loads, stores, TLB
refills, faults, exits and creations of every other process; a transfer in flight may leave anything in
the frame or the block it moves, and may fail; a process that has signalled the shell can be anywhere in
its exit while a successor with its ASID runs. The main result is a refinement: in every interleaving
whose failures and creations meet their guards, the U-procs see a plain memory that changes by their
stores and by nothing else, except that the pages of a process that gives up its frames revert to what is
in flash. Every fault is served and nobody is stuck (`PagerFlow.dfy`). The machine keeps the semaphore
protocol (value, queue, hand-over) explicitly, so mutual exclusion is a theorem about it;
`SwapSemaphore.dfy` shows that value and queue move as the nucleus moves the semaphore at that address.

**Intrusive lists.** `Rings.dfy` has the circular lists of `headers/listx.h` on the heap, refined to
sequences, and the stable priority insertion on top of them.

`Shell.dfy` is the handshake between the shell and the programs it launches.

Layout: `Queues`, `Rings` (lists); `NucleusSpec`, `Invariant`, `Handlers`, `Subtree`, `Termination`,
`Runs`, `Semaphores`, `Scheduling`, `Devices`, `Timing`, `Records`, `Lives`, `Departures`, `Machine`
(nucleus); `Pager`, `PagerProof`, `PagerRuns`, `PagerFlow`, `PagerDepartures`, `SwapPool`,
`SwapSemaphore` (paging); `Shell`.

## Where the code departs from its stated intent

- `removeBlocked` leaves `p_semAdd` set, and `terminateProcess` takes a set `p_semAdd` for "blocked".
  A ready process that was once blocked is then freed while still linked in the ready queue. This
  happens exactly when a ready victim has a stale `p_semAdd` (`Termination.TerminateInv`), and four legal
  calls from boot reach a state where the fifth does it (`Departures.StaleTerminationBreaks`); a process
  woken by a device is stale too (`Departures.DeviceLeavesStale`, `Lives.Lasting`). On the heap
  the queue is no ring any more, and a later scan of it never comes back to its head
  (`Rings.FreeWhileQueued`); in the state reached, `dispatch` runs the terminated child, which is missing
  from the free list while `readyQueue` still points to it (`Rings.StaleTermination`).
- `nsys2` dispatches even if the caller survives; the caller is then in no queue
  (`Termination.CallerNowhere`), and terminating an only child can panic (`Departures.SparedCallerPanics`).
- A user P on a device semaphore that is not positive, awaited or not, blocks without being counted
  (`Departures.PassDevicePanics`); a user V on an awaited device semaphore wakes without being counted
  (`Departures.SignalDeviceBreaks`); a DOIO outside the device registers counts a process that waits for
  no device (`Departures.DoioOutsideWaits`). A P on a non-positive word at address 0 breaks no counter: it
  leaves a descriptor with the key NULL, whose waiter `terminateProcess` will look for in the ready queue
  (`Departures.PassNullBreaks`). `Runs.StepInv` has the exact conditions.
- `nsys5` and `nsys7` block whatever the semaphore's value is, so a process can wait on a positive device
  semaphore (`Departures.WaiterAtPositive`). That is the only way the law that a positive value means no
  waiters is ever broken (`Semaphores.LawStep`); the invariant has it for the other semaphores.
- The interval-timer handler restarts the slice without charging it, so GETTIME goes backwards exactly
  when a tick interrupts a process part of whose slice has passed (`Timing.ReadingDrops`); total charged
  time is bounded, not exact.
- A failed flash read releases the mutex with the victim's swap entry unchanged; a failed write-back is
  ignored. Each is a step of the paging machine with a guard that says exactly when it does harm
  (`PagerRuns.StepKeeps`); `PagerDepartures.FailedReadStrandsEntry` and
  `PagerDepartures.FailedWriteLosesStore` reach the harm from boot.
- A program's ASID can be reused while its predecessor is still cleaning up (`Shell.SameAsidTwice`):
  `sys2` signals the shell before it takes the swap mutex. Starting the ASID again keeps the machine sound
  if and only if every predecessor is past the loop of `freeSwapFrames` (`PagerRuns.StepKeeps`). Otherwise
  it does harm at once when a page of the ASID is resident (`PagerRuns.EarlyCreate`,
  `PagerDepartures.EarlyCreateStrandsFrame`), or later, when the predecessor's loop takes frames that the
  successor has changed (`PagerRuns.LeaverView` says exactly when that is seen):
  `PagerDepartures.LeaverLosesStore` is a run from boot in which nothing is resident at the creation and a
  store of the successor is lost.
- For an address outside the 32 mapped pages the refill handler loads the entry of another page, and the
  access misses again (`SwapPool.RefillIsOwn`, `SwapPool.RefillPastData`).

## Model

| member | source | states |
|---|---|---|
| `Queues.Slot` | phase1/pcb.c:93-104 | the scan stops at the first entry of lower priority, everything before it having at least the new one's |
| `Queues.SlotUnique` | phase1/pcb.c:89-104 | in a descending queue that is the one position with all equals before it and only lower ones after it, and inserting there keeps the queue descending |
| `Rings.Link.constructor` | headers/listx.h:92-95 | a fresh node is an empty ring |
| `Rings.ListEmpty` | headers/listx.h:180-182 | true exactly for the ring of no members |
| `Rings.ListNext` | headers/listx.h:192-197 | the first member, or null for an empty ring |
| `Rings.ListInsert` | headers/listx.h:104-109 | linking between two neighbours turns the ring of s into the ring of s with the node inserted there, next and prev mutually inverse all the way round |
| `Rings.ListAdd` | headers/listx.h:119-121 | inserts after a given node of the ring |
| `Rings.ListAddTail` | headers/listx.h:131-133 | appends |
| `Rings.ListDel` | headers/listx.h:143-159 | removes the member at its index and leaves it a ring of its own |
| `Rings.InsertProcQ` | phase1/pcb.c:93-104 | the heap queue becomes the old one with p at the stable priority position |
| `Rings.RemoveProcQ` | phase1/pcb.c:119-126 | takes the head, null if empty |
| `Rings.OutProcQ` | phase1/pcb.c:131-144 | unlinks p wherever it is, returns null and changes nothing if it is not there |
| `Rings.MoveHead` | phase2/src/syscall.c:257-263 | moving the head of one ring into another refines both queues; disjoint rings do not disturb each other |
| `Rings.FreePcb` | phase1/pcb.c:20-24 | freePcb puts the PCB in front of the free list |
| `Rings.FreeWhileQueued` | phase2/src/syscall.c:59-72 | freeing a PCB still linked in a queue adds it to the free list, leaves pointers that form no ring at all, and sends every walk from the queue's head round the free list for ever, past neither the head nor anybody who was behind the PCB |
| `Rings.StaleTermination` | phase2/src/syscall.c:59-72 | freePcb of the stale head of the ready queue, freePcb of the caller and dispatch's removeProcQ leave the free list with the caller alone added, the terminated child as the next to run, and readyQueue pointing to it with no ring behind |
| `NucleusSpec.FindByPid` | phase2/src/syscall.c:114-147 | a live PCB with the pid, None exactly if there is none |
| `NucleusSpec.FirstPending` | phase2/src/interrupts.c:122-138 | the lowest-numbered device whose bit is set |
| `NucleusSpec.DequeueBlocked` | phase1/asl.c:56-75 | removeBlocked takes exactly the oldest waiter off the list |
| `Invariant.EnqueueKeys` | phase1/asl.c:27-51 | insertBlocked appends to the queue of its key and uses a new descriptor only if the key has none |
| `Invariant.EnqueueOther` | phase1/asl.c:27-51 | other semaphores' queues are untouched |
| `Invariant.DequeueKeys` | phase1/asl.c:56-75 | the queue loses its head and the descriptor goes when it was the last |
| `Invariant.DequeueOther` | phase1/asl.c:56-75 | other semaphores' queues are untouched |
| `Invariant.BlockingNeverFails` | phase1/asl.c:27-51 | with as many descriptors as PCBs, insertBlocked on the running process always finds one, so the callers that ignore its result lose nothing |
| `Invariant.PlaceOf` | phase2/src/syscall.c:38-47 | under the partition each PCB is in exactly one of free list, ready queue, a semaphore queue, currProc |
| `Handlers.BlockBase` | phase2/src/syscall.c:226-240 | blocking the running process keeps the invariant iff the key is not NULL and is a device's or not positive |
| `Handlers.WakeBase` | phase1/asl.c:56-75 | waking moves the oldest waiter to the ready queue and keeps the invariant |
| `Handlers.DispatchInv` | phase2/src/scheduler.c:15-34 | dispatch with no current process establishes the invariant with its verdict |
| `Handlers.PasserenInv` | phase2/src/syscall.c:220-242 | NSYS3 keeps the invariant iff it does not block, or blocks on a non-NULL address outside the device semaphores |
| `Handlers.VerhogenInv` | phase2/src/syscall.c:257-267 | NSYS4 keeps it iff nobody waits there or the address is not a device semaphore |
| `Handlers.SoftWaitInv` | phase2/src/syscall.c:310-361 | NSYS5 and NSYS7 keep it iff the semaphore index is inside the array |
| `Handlers.YieldInv` | phase2/src/syscall.c:399-413 | NSYS10 keeps it, the order of the ready queue included |
| `Handlers.LocalTimerInv` | phase2/src/interrupts.c:29-43 | the local timer keeps it |
| `Handlers.DrainBase` | phase2/src/interrupts.c:58-64 | the draining loop empties the clock's queue and keeps it |
| `Handlers.TickInv` | phase2/src/interrupts.c:55-77 | the interval timer keeps it |
| `Handlers.DeviceInv` | phase2/src/interrupts.c:90-226 | a device interrupt on lines 3-7 keeps it, running or idle |
| `Handlers.CreateInv` | phase2/src/syscall.c:159-181 | NSYS1 keeps it |
| `Handlers.CreateResult` | phase2/src/syscall.c:149-181 | NOPROC exactly when the pool is empty, else a pid no live process has, for a ready child of the caller with the requested priority and support; nobody else changes |
| `Subtree.UnlinkIsErase` | phase1/asl.c:80-102 | outBlocked removes p from every queue it is in, and an emptied descriptor with it |
| `Subtree.EraseWaiters` | phase1/asl.c:80-102 | survivors keep their order in every semaphore queue |
| `Termination.SubtreeTermination` | phase2/src/syscall.c:48-73 | with no stale ready victim, terminateProcess removes exactly p and its descendants from ready queue, semaphore queues, processor and tree, frees them, and drops processCount by their number and softBlock_count by those awaiting a device; order and links of all others stay |
| `Termination.TerminateBase` | phase2/src/syscall.c:48-73 | with no stale ready victim it keeps partition, counters, tree, order and semaphore law |
| `Termination.CallerNowhere` | phase2/src/syscall.c:206-207 | dispatching while the caller is still current leaves it in no place |
| `Termination.TerminateInv` | phase2/src/syscall.c:192-208 | NSYS2 on p keeps the invariant iff the caller descends from p and no ready descendant has a stale p_semAdd |
| `Termination.CountLive` | phase2/src/initial.c:15 | processCount is 0 exactly when no process is live |
| `Termination.FirstProcess` | phase2/src/initial.c:55-57 | every live process descends from pid 1, and processCount is 0 exactly when pid 1 is gone |
| `Runs.SyscallEvent` | phase2/src/exceptions.c:133-196 | a trap exactly for negative numbers from user mode and unknown numbers; from kernel mode each number of headers/const.h selects its own call with its own arguments |
| `Runs.StepInv` | phase2/src/exceptions.c:49-66 | every exception, from every state of the invariant, keeps it if and only if its guard holds |
| `Runs.BootInv` | phase2/src/initial.c:48-61 | main establishes the invariant, for every MAXPROC and every initial memory |
| `Runs.BootState` | phase2/src/initial.c:48-61 | main leaves the pool less one PCB, memory as it was, and the first process running with pid 1, priority 0, no parent and no support structure |
| `Runs.Run` | phase2/src/exceptions.c:49-66 | every guarded run ends in a state of the invariant with the PCB table and device semaphores where they were |
| `Runs.BootRun` | phase2/src/initial.c:48-61 | the invariant holds after every guarded run from boot |
| `Runs.Responds` | phase2/src/exceptions.c:49-66 | from every state of the invariant the nucleus handles every event while a process runs, the interval timer and the devices while it waits, and nothing once halted or panicked |
| `Runs.Verdicts` | phase2/src/scheduler.c:16-28 | HALT iff nobody is live; WAIT iff all live are blocked and somebody awaits a device or the tick; PANIC iff somebody is live and all the live wait on other semaphores |
| `Semaphores.QueueStep` | phase2/src/syscall.c:220-361 | one event changes the queue and value of every semaphore as the independent queue semantics says |
| `Semaphores.LawStep` | phase2/src/syscall.c:310-361 | where a positive value means no waiters, one event breaks that iff it queues a process on a semaphore whose value is positive |
| `Semaphores.Conservation` | phase2/src/syscall.c:220-267 | value = initial + Vs - completed Ps over every run, never negative if not at the start |
| `Semaphores.MutualExclusion` | phase3/src/vmSupport.c:35-44 | completed Ps minus Vs never exceed the initial value; a positive value means no waiters |
| `Semaphores.Fifo` | phase1/asl.c:20-75 | woken then waiting is waited then joined, in order, minus those terminated while waiting, whose number makes up the difference |
| `Semaphores.FifoExact` | phase1/asl.c:20-75 | with nobody terminated while waiting the two sequences are equal |
| `Scheduling.LevelInsert` | phase1/pcb.c:89-104 | insertProcQ puts the newcomer behind everybody of its priority and keeps the order within every priority |
| `Scheduling.ReadyStep` | phase2/src/scheduler.c:15-34 | after every guarded event, within each priority, the process dispatched and those still ready are those who were ready, less the terminated, in the same order, then those who became ready, in order |
| `Scheduling.HighestRuns` | phase2/src/scheduler.c:30-33 | every event that dispatches, NSYS10 apart, leaves the one dispatched and the ready queue in descending priority |
| `Scheduling.YieldRunsOther` | phase2/src/syscall.c:399-413 | the old head runs next, the others keep their order, the yielder stands behind everybody of its priority, the queue stays descending; alone, the yielder goes on |
| `Scheduling.ReadyFifo` | phase2/src/scheduler.c:15-34 | over every run, within each priority, those dispatched then those still ready are those who were ready then those who became so, in order, minus those terminated while ready, whose number makes up the difference |
| `Scheduling.ReadyFifoExact` | phase2/src/scheduler.c:15-34 | with nobody of the priority terminated while ready the two sequences are equal |
| `Devices.IndexInverse` | phase2/src/syscall.c:291-308 | NSYS5 maps the command register of each sub-device, by its address from 0x10000054 on, to the index the interrupt handler uses, never the clock's |
| `Devices.IndexInjective` | phase2/src/syscall.c:291-308 | no two sub-devices share an index |
| `Devices.IndexEverywhere` | phase2/src/syscall.c:291-308 | the index NSYS5 computes from any address at all, and the exact range of addresses for which it is inside the array |
| `Devices.OwnDevice` | phase2/src/interrupts.c:148-206 | an interrupt signals the semaphore of a command register iff it comes from that line, lowest pending device and half of the terminal, and then with that half's status |
| `Devices.SomeDevice` | phase2/src/interrupts.c:122-206 | an interrupt that signals a semaphore comes from the sub-device it belongs to, and one that signals none from no sub-device |
| `Devices.IoStep` | phase2/src/interrupts.c:208-219 | a waiter on a device semaphore leaves only as the oldest, by that device's interrupt, ready with its status in a0, or terminated; the rest of its PCB is in Records.RecordStep |
| `Devices.IoAnswered` | phase2/src/syscall.c:269-326 | the same over every run |
| `Devices.DoioServed` | phase2/src/syscall.c:269-326 | end to end: a DOIO on a command register queues its caller behind those waiting, and in every run from there it leaves only terminated or, as the oldest, by an interrupt of that line, that lowest pending device and that half, with its status in a0 |
| `Timing.ExactCharge` | phase2/src/interrupts.c:29-77 | each event adds to p_time the running slice of the running process or nothing, the tick nothing |
| `Timing.CpuTimeBound` | phase2/src/scheduler.c:32 | time charged to all PCBs plus the running slice never exceeds the time since the origin of the run, for a run from boot the time since boot |
| `Timing.BootTime` | phase2/src/initial.c:48-61 | boot at any time t meets the hypothesis of the bound with t as the origin |
| `Timing.SliceStep` | phase2/src/scheduler.c:30-33 | a slice goes on unless the event charges it or is a tick; whoever is dispatched starts one at the dispatcher's reading; with nobody running tod_start is left alone |
| `Timing.ReadingDrops` | phase2/src/interrupts.c:55-77 | for every event and every process it does not terminate, what GETTIME would answer goes down iff the event is a tick that interrupts that process after some of its slice has passed |
| `Timing.TickForgets` | phase2/src/interrupts.c:68-76 | a process alone that a tick interrupts reads less time after it than before |
| `Timing.TickAfterBoot` | phase2/src/interrupts.c:68-76 | the first process, interrupted by a tick at any time after boot, reads 0 after it and the time since boot before it |
| `Timing.RoundRobin` | phase2/src/interrupts.c:29-43 | with equal priorities n local-timer ticks rotate the schedule by n, and the one dispatched is the n-th in turn |
| `Timing.OncePerRound` | phase2/src/interrupts.c:29-43 | in any as many consecutive dispatches as there are scheduled processes, each of them is dispatched exactly once |
| `Departures.StaleRunReaches` | phase1/asl.c:56-75 | create, yield, P, V lead from boot to a ready child with a stale p_semAdd, every guard met |
| `Departures.StaleTerminationBreaks` | phase2/src/syscall.c:59-72 | there, the first process's own termination fails its guard and breaks the invariant |
| `Departures.DeviceLeavesStale` | phase2/src/interrupts.c:208-219 | a device leaves p_semAdd set too: create, yield, DOIO and its interrupt lead from boot to a ready child with the device's semaphore in p_semAdd, whose parent's termination breaks the invariant |
| `Departures.SparedCallerPanics` | phase2/src/syscall.c:192-208 | from boot and one creation, terminating the only child panics with the caller still current |
| `Departures.PassDevicePanics` | phase2/src/syscall.c:220-242 | from boot, a P on an unawaited device semaphore breaks the invariant: PANIC although the caller waits on a device semaphore |
| `Departures.PassNullBreaks` | phase2/src/syscall.c:220-242 | from boot, a P at address 0 breaks the invariant: its waiter's p_semAdd is NULL |
| `Departures.DoioOutsideWaits` | phase2/src/syscall.c:291-326 | from boot, a DOIO just past the array breaks the invariant: WAIT with softBlock_count 1 and nobody on a device semaphore |
| `Departures.SignalDeviceBreaks` | phase2/src/syscall.c:257-267 | from boot, a creation and the parent's DOIO, the child's V on that device's semaphore breaks the invariant |
| `Departures.WaiterAtPositive` | phase2/src/syscall.c:310-326 | from boot, an unawaited interrupt and a DOIO on the same device, both within their guards, leave a waiter on a semaphore of value 1 |
| `Records.RecordStep` | phase2/src/exceptions.c:49-66 | for every event and every live process it does not terminate: pid, priority, support structure and parent stay; p_semAdd becomes the semaphore the caller is queued on and is changed by nothing else; a creator gains its child in front, a parent loses the terminated ones; a0 changes only for those addressed, to the right result |
| `Records.UnknownPid` | phase2/src/syscall.c:192-208 | NSYS2 on a pid nobody live has puts -1 in the caller's a0 and does nothing else; otherwise its target is the caller for 0 and the live process with the pid |
| `Records.PassedUp` | phase2/src/exceptions.c:79-98 | a trap changes nothing in the nucleus if the process has a support structure, and is fatal to its subtree if not |
| `Lives.PoolStep` | phase1/pcb.c:20-72 | a creation takes the first free PCB and the next pid, a termination puts its victims on top of the free list with the root of the subtree first, nothing else touches pool or pid counter |
| `Lives.LiveStep` | phase2/src/syscall.c:48-73 | the live processes after every event are those before it, less the terminated, and the one created |
| `Lives.Lasting` | phase1/asl.c:56-75 | over every run a process that is not terminated keeps pid, priority, support structure and parent, and its p_semAdd is the semaphore it last waited on, woken since or not |
| `Lives.Traced` | phase1/pcb.c:48-49 | pids are never reused: whoever is live with a pid given out before the run has been live all along |
| `Lives.PidsInOrder` | phase1/pcb.c:48-49 | the n-th process created after boot gets pid n + 1, and its creator is told so |
| `Lives.ToldTheTruth` | phase2/src/syscall.c:371-392 | whenever in its life a process asks, GETSUPPORTPTR answers what its creator passed, GETPROCESSID(0) the pid its creator was told, GETPROCESSID(1) its creator's pid |
| `Lives.TrapFate` | phase2/src/exceptions.c:79-98 | whenever in its life a process traps, the trap is passed up with no other effect iff its creator gave it a support structure; otherwise it dies |
| `Lives.FirstLife` | phase2/src/initial.c:55-57 | the first process is told pid 1, parent 0 and no support structure as long as it lives, and dies of its first trap |
| `Machine.Nucleus.constructor` | phase2/src/initial.c:48-61 | main computes the boot state |
| `Machine.Nucleus.Insert` | phase1/pcb.c:93-104 | the scan computes the stable insertion |
| `Machine.Nucleus.OutReady` | phase1/pcb.c:131-144 | the scan unlinks p from the ready queue, or nothing |
| `Machine.Nucleus.InsertBlocked` | phase1/asl.c:27-51 | the search appends or activates a descriptor; TRUE and no change exactly when one is needed and none is left |
| `Machine.Nucleus.RemoveBlocked` | phase1/asl.c:56-75 | the search takes the oldest waiter and frees an emptied descriptor |
| `Machine.Nucleus.OutBlocked` | phase1/asl.c:80-102 | the nested search unlinks p from the queue of its own key |
| `Machine.Nucleus.HeadBlocked` | phase1/asl.c:107-118 | the oldest waiter, None if nobody waits |
| `Machine.Nucleus.TerminateProcess` | phase2/src/syscall.c:48-73 | loop and recursion compute the specified state; from a state of the invariant with no stale ready victim, exactly the subtree of p is gone from every list and both counters |
| `Machine.Nucleus.SearchInTree` | phase2/src/syscall.c:80-94 | finds a descendant with the pid iff there is one |
| `Machine.Nucleus.SearchBlockedByPid` | phase2/src/syscall.c:101-112 | finds a blocked process with the pid iff there is one |
| `Machine.Nucleus.FindPcbByPid` | phase2/src/syscall.c:123-147 | finds the one live process with the pid iff there is one, without descending below blocked processes |
| `Machine.Nucleus.NSys2` | phase2/src/syscall.c:192-208 | the specified termination, the target found by search |
| `Machine.Nucleus.NSys4` | phase2/src/syscall.c:257-267 | the specified V |
| `Machine.Nucleus.IntervalTimer` | phase2/src/interrupts.c:55-77 | the specified tick, with its draining loop |
| `Machine.Nucleus.Exception` | phase2/src/exceptions.c:49-66 | one step of the machine, after which the invariant holds iff the guard held before |
| `Pager.FirstFree` | phase3/src/vmSupport.c:157-165 | the first unoccupied frame, None iff all are occupied |
| `PagerProof.FreeMutex` | phase2/src/syscall.c:257-267 | releasing the swap mutex lets in the oldest waiter or raises the value, and keeps one holder at most |
| `PagerProof.AcquireMutex` | phase2/src/syscall.c:220-242 | acquiring it enters or queues, and keeps one holder at most |
| `PagerProof.BusyFrame` | phase3/src/vmSupport.c:176-238 | no valid entry points to a frame between its old and its new page |
| `PagerProof.OneOwner` | phase3/src/vmSupport.c:219-238 | two valid entries never share a frame |
| `PagerProof.EvictInv` | phase3/src/vmSupport.c:176-201 | the first interrupts-off window keeps tables and TLB in agreement |
| `PagerProof.EvictView` | phase3/src/vmSupport.c:176-205 | and changes nothing any U-proc sees |
| `PagerProof.InstallInv` | phase3/src/vmSupport.c:219-249 | the second window keeps them in agreement |
| `PagerProof.InstallView` | phase3/src/vmSupport.c:219-249 | and changes nothing any U-proc sees |
| `PagerProof.RefillInv` | phase2/src/exceptions.c:17-34 | a TLB refill, whatever it pushes out, keeps the TLB equal to the page tables |
| `PagerProof.FreeFramesTables` | phase3/src/vmSupport.c:53-76 | afterwards no entry of the ASID is valid, its frames are free, no other ASID's entry or frame changed, the TLB is empty, and pool and tables agree, whoever has the ASID by then |
| `PagerProof.WriteEndsView` | phase3/src/vmSupport.c:203-205 | leaving the write-back is invisible iff the block holds the frame's contents |
| `PagerRuns.StepKeeps` | phase3/src/vmSupport.c:135-257 | a step, failed transfers and reused ASIDs included, keeps the invariant and changes the visible memory by its stated effect only, if and only if its guard holds: a failed write-back found its contents already in the block, a failed read had a free frame, a created process has no predecessor before the loop of freeSwapFrames; where it takes each process is PagerFlow.FlowStep |
| `PagerRuns.PagingIsTransparent` | phase3/src/vmSupport.c:135-257 | over every interleaving of guarded steps the U-procs see the memory that their stores produce, with the pages of each process that gives up its frames reverting to flash |
| `PagerRuns.LoadReadsMemory` | phase2/src/exceptions.c:17-34 | a valid TLB hit reads the page it names, never a frame in transit |
| `PagerRuns.BootInv` | phase3/src/vmSupport.c:36-44 | initSwapPool establishes the invariant, memory being the flash contents |
| `PagerRuns.Bijection` | phase3/src/vmSupport.c:219-238 | each valid entry has a frame of its own naming it; with the mutex free each occupied frame is named back |
| `PagerRuns.SwapMutex` | phase3/src/vmSupport.c:149-151 | at most one process is inside, the value is 1 iff nobody is, and sys2 never finds its flag set |
| `PagerRuns.NoWildAccess` | phase3/src/vmSupport.c:174-238 | every frame, entry and block a pager follows exists, and a chosen victim's entry and block are its own |
| `PagerRuns.EvictsOnlyWhenFull` | phase3/src/vmSupport.c:157-172 | a frame is evicted iff none is free, and then the next in turn; otherwise the first free one is taken and the turn stays |
| `PagerFlow.FlowStep` | phase3/src/vmSupport.c:135-257 | every step takes the process that performs it to the next point of pager or sys2, a V lets the oldest waiter past its P, everybody else stays; a process goes to the trap handler only by its own failed read, and from the pager's last V back to user code |
| `PagerFlow.FaultServed` | phase3/src/vmSupport.c:207-256 | from every fault, in every guarded run in which the process's reads do not fail, the pager works on that page until the process is in user code again with the page valid in a frame of its own |
| `PagerFlow.HolderFinishes` | phase3/src/vmSupport.c:149-254 | no deadlock: wherever the holder of the swap mutex is, at most six of its own steps give it to the oldest waiter or free it |
| `PagerFlow.AccessProceeds` | phase2/src/exceptions.c:17-34 | an access of a running process to one of its pages hits, or misses and is refilled, or faults |
| `PagerFlow.NobodyStuck` | phase3/src/vmSupport.c:149-254 | a process that is not at its end waits in the swap mutex's queue or has a harmless step of its own |
| `PagerFlow.FreshStart` | phase3/src/helpers.c:116-133 | a created process starts in user code with a page table of fresh invalid entries, and nothing else of the machine changes |
| `PagerFlow.TurnStays` | phase3/src/vmSupport.c:167-172 | the turn of page replacement moves only when a frame is chosen |
| `PagerRuns.FailedReadInv` | phase3/src/vmSupport.c:212-217 | a failed read keeps the invariant iff the frame had been free |
| `PagerRuns.EarlyCreate` | phase3/src/helpers.c:116-133 | what a creation does at once: reinitialising a page table keeps TLB and swap pool in agreement iff no page of the ASID is resident and its TLB entries are blank |
| `PagerRuns.LeaverView` | phase3/src/vmSupport.c:53-76 | what a predecessor does later: the loop of freeSwapFrames is invisible to whoever has its ASID by then iff every page of the ASID in a frame equals its block |
| `PagerDepartures.FailedWriteLosesStore` | phase3/src/vmSupport.c:203-205 | with one frame, a run from boot reaches a write-back whose failure loses a store |
| `PagerDepartures.FailedReadStrandsEntry` | phase3/src/vmSupport.c:212-217 | with one frame, a run from boot reaches a read whose failure leaves the mutex free and the swap pool naming a page that is not resident |
| `PagerDepartures.EarlyCreateStrandsFrame` | phase3/src/helpers.c:116-133 | a run from boot reaches a program that has signalled the shell with a page resident, where starting its ASID again fails its guard and puts the swap pool at odds with the new page table |
| `PagerDepartures.LeaverLosesStore` | phase3/src/syscalls.c:116-126 | a run from boot reaches a program preempted between its V and its P with nothing resident; its ASID started again, the successor stores to its page, and the predecessor's freeSwapFrames loses the store |
| `SwapPool.Pool.constructor` | phase3/src/vmSupport.c:36-41 | the loop marks every frame free |
| `SwapPool.Pool.ChooseFrame` | phase3/src/vmSupport.c:157-172 | a free frame if there is one, else the next in turn, the counter moved on only then |
| `SwapPool.Pool.FreeSwapFrames` | phase3/src/vmSupport.c:53-73 | the loop frees the ASID's frames, clears the valid bit of the entries they name, and the TLB is cleared |
| `SwapPool.EntryHiInverse` | phase3/src/helpers.c:81-133 | the EntryHI of a page leads the refill handler, the pager and the flash block back to that page, and to its ASID |
| `SwapPool.RefillIsOwn` | phase2/src/exceptions.c:17-34 | for every user-space EntryHI the refill handler loads the entry of the missing page iff its page number is 0x80000 to 0x8001E or 0xBFFFF |
| `SwapPool.RefillPastData` | phase2/src/exceptions.c:17-34 | for the first page past the data it loads the stack's entry |
| `SwapPool.EntryLoInverse` | phase3/src/vmSupport.c:187-238 | EntryLO holds frame and valid bit, and clearing the bit clears nothing else |
| `SwapPool.InitPageTable` | phase3/src/helpers.c:116-133 | 32 invalid entries, each found again by the refill handler's index |
| `SwapSemaphore.PassIsAcquire` | phase2/src/syscall.c:220-242 | NSYS3 on swapSemaphore changes its value and queue in the nucleus as Acquire does in the paging machine |
| `SwapSemaphore.SignalIsFree` | phase2/src/syscall.c:257-267 | NSYS4 changes them as Free does, and wakes the process Free lets in |
| `SwapSemaphore.OthersKeep` | phase2/src/exceptions.c:49-66 | no other guarded event changes them, unless it terminates a waiter |
| `Shell.StepInv` | phase3/src/syscalls.c:108-127 | each step of shell and programs keeps the handshake invariant |
| `Shell.Handshake` | phase3/src/syscalls.c:205-230 | in every interleaving the semaphore is 0 or 1, at most one program has not signalled, each EXECUTE that returned consumed its own signal |
| `Shell.Refusals` | phase3/src/syscalls.c:205-225 | EXECUTE starts a program exactly for the ASIDs 2 to 8 if a process is left; any other request starts nobody and ends the shell |
| `Shell.ExecuteReturns` | phase3/src/syscalls.c:220-230 | EXECUTE returns when its program has signalled; the shell ends only by its exit or a refused request |
| `Shell.Programs` | phase3/src/syscalls.c:108-127 | over every run, the programs running and cleaning up, ASID by ASID, are those started less those that signalled, and those that signalled less those that finished |
| `Shell.SameAsidTwice` | phase3/src/syscalls.c:116-126 | the shell can launch an ASID again while its predecessor is still cleaning up |

## Left out

- Processor states, `copyState`, register loops of `initPcb` and support contexts: field-by-field copies. Of the registers only the a0 the nucleus stores is kept.
- BIOS and hardware calls (`LDST`, `LDCXT`, `WAIT`, timers, status registers): only their effect on the state is kept.
- Device registers, ACKs and terminal status bytes beyond the choice of sub-device; `sys4`, `sys5` and the terminal helpers: plumbing around DOIO.
- `klog.c`, the user programs under `testers/`, and the test drivers.
- Pids and clock values are unbounded integers; 32-bit wrap-around is not modelled.
- Semaphore words are whole: overlapping unaligned addresses and the store of DOIO's command into a register are not modelled. `DEVREGSIZE` and `DEVPERINT` are taken as 0x10 and 8.
- Runs continue only while the guards hold. For a termination with a stale ready victim the sequence functions serve only to show that the invariant fails: the lists are corrupt then, the code may not return (`Rings.FreeWhileQueued`), and what `Semaphores.QueueStep`, `Semaphores.LawStep` and `Timing.ExactCharge` say without a guard is, for that one event, about the sequences.
- Plain stores to semaphore words have no event: `test()` assigns four of them (phase3/src/initProc.c:65-69) before anybody uses them. `Semaphores.Conservation` counts from a state after the last such store.
- In the nucleus the lists are sequences; that the linked lists implement them is `Rings.dfy`, not repeated inside every handler.
- Accesses outside the 32 mapped pages are no steps of the paging machine; `SwapPool.RefillIsOwn` has what the refill handler does with them.
- The support structure of an ASID, its exception stacks included, is shared by a process and its successor; of that only the page table and holdingSwapMutex are modelled.
- That a creation waits for the predecessor's signal is a condition of the paging machine's Create; `Shell.Handshake` is where it is proved of the shell.
- U-procs killed from outside while they hold the swap mutex; the paging machine has only their own exits.
- Timing.CpuTimeBound: an upper bound, not exact accounting over runs, because the tick handler drops the slice it ends; `Timing.ExactCharge` has the exact effect of each event.
- Strict FIFO page replacement and fresh program images on re-execution: the code does not provide them.
- Semaphores.Fifo: does not speak of the pseudo-clock's queue, which every tick empties at once.
