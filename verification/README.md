# PandOSsh: the Nucleus and the Queues Manager, verified

A Dafny model of the PandOSsh kernel (phases 1 and 2) and of its ring log, with proofs of what the kernel keeps and
guarantees. `dafny verify dfyconfig.toml` checks the whole project.

The model has two layers.

**The code on its own data structures.** `Listx` has `struct list_head` as an object with `next` and `prev` and shows
that the list operations insert into and delete from sequences, on any family of disjoint rings. `QueuesManager` is
`pcb.c` and `asl.c`: PCB and semaphore-descriptor objects, the free lists, the ready queue, the process tree and the
sorted Active Semaphore List, rewired in place by the loops of the source. `Nucleus` is phase 2: the globals
(`processCount`, `softBlockCount`, `currentProcess`, `p_start`, the semaphores in memory) and one method per handler,
with the climb to the root, the depth-first search, the recursive termination, the clock's wake-up loop and the bitmap
scan as the source has them. `Klog` is the log's buffer. Pointers to structures inside structures (`container_of`)
are a list node's kind and table index.

**The state machine.** `KernelState` and `KernelSteps` describe the same kernel as a value and each handler as one
atomic step on it (handlers run with interrupts off). A step ends in an outcome: resume the caller, dispatch a process,
wait for an interrupt, halt, panic, or pass up. `KernelRuns` puts the steps together: an event is one of the ten
system calls, a trap, or one of the three kinds of interrupt; a run is any sequence of events, of any length, from
boot. The size of the PCB table is a symbolic n > 0.

The two layers are joined by `Nucleus.Nucleus.React` and `Run`: on every event the pointer-level code reaches exactly
the state and the outcome of the state machine and keeps its invariant. So each theorem about `Exec` below is one
about the code. A method's contract says what the method computes by the step it equals; what that step means is what
the lemmas about the step say.

The invariant is `KernelState.Inv`; `KernelMoves`, `KernelInvariant`, `KernelTree` and `KernelKill` show that every step
keeps it. `SubtreeKill` and `Refinement` show that the statements of a handler, one after the other, add up to its
step. The theorems over runs are in `KernelSafety` (places and counters), `ProcessTree` (one tree, exact subtree kill),
`SemaphoreRuns` and `SemaphoreQueues` (conservation, surplus, queues), `PseudoClock`, `DeviceMap` (I/O end to end),
`SchedulerVerdicts` (halt, deadlock, waiting) and `LostWakeups` (interrupts nobody hears), `ReadyQueue`, `ReadyOrder`
and `ReadyRuns` (order, overtaking and waiting time), `PriorityRuns` (priority order), `ProcessRuns` and
`ContextSwitches` (saved states), `CpuStays` and `CpuTime` (who holds the CPU, and who is charged for it), and
`ProcessIdentity` (pids, priorities and support structures). `CallNumbers` says what each system call does by its number,
its registers and its answer, and `ResumedStates` in which state every process goes on that keeps the CPU; both spell
numbers, addresses and offsets out.

## What the proofs rest on

- User programs P and V addresses that are non-null and outside `deviceSemaphores`; semaphores start at zero or more
  and are changed by the kernel only.
- DOIO gets the address of a device register; the clock never goes backwards; `*TIMESCALEADDR` is positive.
- No interrupt arrives after HALT or PANIC.
- Pids, semaphore values and times are unbounded integers.
- `LDST`, `WAIT`, `HALT` and `PANIC` do not return. `handleDevice` relies on that when no device is pending
  (phase2/interrupts.c:103-109).

## What the code does and does not guarantee

- PANIC is always right: once it happens, no sequence of interrupts could make a process run. Waiting is not always
  right: DOIO blocks even when its device has already interrupted, and an interrupt nobody waits for is counted but
  its status is lost. A system reached from boot by two events waits for ever (`LostWakeups.IdleForever`), and so does
  one in which a process that waits for a device is killed before the interrupt (`LostWakeups.KilledWaiter`).
  `SchedulerVerdicts.WakeableIff` gives the exact condition: some interrupt can wake somebody if and only if a process
  waits for the clock or some device semaphore is negative.
- A device interrupt wakes its oldest waiter if and only if more processes wait than the surplus, which is the number
  of its interrupts so far that woke nobody. The surplus never shrinks, so interrupts alone never wake the last
  min(surplus, queue length) waiters.
- A process that keeps the CPU goes on four bytes after its call, or exactly as a tick or a device interrupt found it; no
  register changes but the a0 of the four calls that answer.
- A pid is for life and is never used again. What CREATEPROCESS answers is -1 exactly without a free PCB.
- DOIO returns in a0 the status of an interrupt of the very device that was asked, the one that woke the caller. Every
  other way off the CPU leads back to exactly the state that was saved.
- The ready queue is never reordered. A process placed by `insertProcQ` is overtaken by strictly higher priorities only.
- `klog_print_dec` writes a zero before a single digit and any other number backwards: 5 and 50 look the same.
- GETTIME charges the interval since `p_start` without moving `p_start`, so the interval is charged again later. Apart
  from that the charged intervals are disjoint and lie inside the elapsed time. Every charged interval is time through
  which the charged process held the CPU, and a process that leaves the CPU alive has been charged all of it.
- The repository's README.md calls the scheduler round-robin. The code has priorities, and `Yield` ignores them. The
  ready queue stays sorted by priority exactly until a YIELD finds more than one process ready, the last of them of lower
  priority than the caller. While it is sorted each dispatch takes the process of the highest priority that has been ready
  longest, except exactly by a YIELD that finds a first process of lower priority than the caller. From boot three events
  lead to that exception (`PriorityRuns.YieldTakesLower`).
- `p_semAdd` stays set after a wake-up. That is harmless, because `outBlocked` does nothing for a process that is not
  in the queue its `p_semAdd` names.

## Model

| member | source | states |
|---|---|---|
| Listx.ListInsert | headers/listx.h:104-109 | a node put between two neighbours of a ring is inserted into the ring's sequence there, next and prev staying inverse |
| Listx.ListRemove | headers/listx.h:143-159 | unlinking removes exactly that element of the sequence and leaves the node linked to itself |
| Listx.ListAdd | headers/listx.h:119-121 | among disjoint rings, list_add prepends to its ring and leaves every other ring and every other node's ring alone |
| Listx.ListAddTail | headers/listx.h:131-133 | among disjoint rings, list_add_tail inserts before the given element and changes no other ring |
| Listx.ListDel | headers/listx.h:155-159 | among disjoint rings, list_del removes the entry from its ring and changes no other ring |
| Listx.InitListHead | headers/listx.h:92-95 | initialising an unused node disturbs no ring |
| Listx.EmptyIff | headers/listx.h:180-182 | list_empty holds exactly for the empty sequence |
| Listx.RingLinks | headers/listx.h:250-252 | following next from the sentinel visits the sequence in order and returns to the sentinel |
| KernelState.InsertPos | phase1/pcb.c:82-92 | the place insertProcQ picks has nobody of lower priority before it and a strictly lower one at it |
| QueuesManager.FirstLower | phase1/pcb.c:78-95 | the traversal ends, at the first element of strictly lower priority or at the sentinel |
| QueuesManager.InsertProcQ | phase1/pcb.c:78-95 | on pointers: the queue becomes the old one with p at that place; no other ring changes |
| QueuesManager.RemoveProcQ | phase1/pcb.c:108-117 | the head leaves and is returned; null exactly on an empty queue |
| QueuesManager.OutProcQ | phase1/pcb.c:120-134 | p leaves the queue if and only if it is in it, the others keeping their order; otherwise nothing changes |
| QueuesManager.Queues.FreePcb | phase1/pcb.c:18-21 | the PCB goes to the front of the free list and nothing else changes |
| QueuesManager.Queues.AllocPcb | phase1/pcb.c:24-63 | null exactly when the free list is empty; else its head, every field reset, with a fresh pid |
| QueuesManager.Queues.InsertReady | phase1/pcb.c:78-95 | insertProcQ on the ready queue changes the ready queue only |
| QueuesManager.Queues.RemoveReady | phase1/pcb.c:108-117 | removeProcQ on the ready queue changes the ready queue only |
| QueuesManager.Queues.OutReady | phase1/pcb.c:120-134 | outProcQ on the ready queue: non-null exactly when p was ready |
| QueuesManager.Queues.AppendReady | phase2/syscalls.c:432 | the process goes to the tail of the ready queue whatever its priority |
| QueuesManager.Queues.EmptyReady | phase1/pcb.c:72-75 | emptyProcQ on the ready queue holds exactly when nobody is ready |
| QueuesManager.Queues.EmptyChild | phase1/pcb.c:137-140 | emptyChild holds exactly when the PCB has no children |
| QueuesManager.Queues.InsertChild | phase1/pcb.c:143-148 | p becomes the last child of prnt, both links agreeing; no other PCB changes |
| QueuesManager.Queues.RemoveChild | phase1/pcb.c:151-163 | the first child is unlinked and loses its parent; null exactly without children |
| QueuesManager.Queues.OutChild | phase1/pcb.c:166-177 | p leaves its parent's children and loses its parent; null exactly without a parent |
| QueuesManager.Queues.MkEmptyReady | phase1/pcb.c:66-69 | initialising the empty ready queue leaves everything as it was |
| QueuesManager.Queues.InitPcbs | phase1/pcb.c:8-15 | all PCBs are free, in descending order of their index |
| QueuesManager.Queues.InitASL | phase1/asl.c:9-21 | no semaphore is active, every descriptor is free, and the lists are well formed |
| QueuesManager.Queues.GetSemd | phase1/asl.c:24-39 | the early exit is a full lookup: null exactly for inactive keys, else the descriptor of that key |
| QueuesManager.Queues.FirstAbove | phase1/asl.c:63-79 | the ordered-insertion search stops at the first strictly higher key |
| QueuesManager.Queues.InsertBlocked | phase1/asl.c:42-86 | fails exactly when the key is inactive and every descriptor is in use; otherwise p joins the tail of the key's queue and p_semAdd is the key |
| QueuesManager.Queues.RemoveBlocked | phase1/asl.c:89-109 | the first process of the key's queue leaves; an emptied queue gives up its descriptor; null exactly for inactive keys |
| QueuesManager.Queues.OutBlocked | phase1/asl.c:112-142 | p leaves the queue its p_semAdd names if it is in it; a stale or null p_semAdd changes nothing |
| QueuesManager.Queues.HeadBlocked | phase1/asl.c:145-156 | the first process of the key's queue, which stays there |
| QueuesManager.Queues.DescriptorsCounted | phase1/asl.c:4-6 | active semaphores plus free descriptors are always the whole table: no descriptor is lost |
| QueuesManager.Queues.Queued | phase1/pcb.c:78-134 | a PCB linked anywhere is on the free list, the ready queue or an active semaphore's queue |
| ActiveSemaphores.EarlyExit | phase1/asl.c:33-36 | in the sorted list, a higher key before any match means the key is not active |
| ActiveSemaphores.KeyInserted | phase1/asl.c:62-79 | inserting a new key before the first higher one keeps the list sorted and the map otherwise intact |
| ActiveSemaphores.KeyRemoved | phase1/asl.c:102-106 | dropping the descriptor of an emptied queue removes exactly that key from the map |
| KernelInvariant.FreeAtMost | phase1/pcb.c:3-5 | the free list never exceeds the table, is shorter while anybody runs or is ready, and is full only if nobody lives |
| KernelMoves.DescriptorFree | phase1/asl.c:47-52 | pigeonhole: while a process runs, fewer semaphores are active than there are descriptors |
| KernelSafety.BlockingSucceeds | phase2/syscalls.c:272 | insertBlocked of the running process never fails, so ignoring its result is sound |
| KernelSafety.WaiterExists | phase2/syscalls.c:288-296 | a negative semaphore has a waiter: the wake-up of V never comes back empty |
| KernelSafety.OnePlaceEach | phase2/syscalls.c:146-189 | every PCB is in exactly one of free list, ready queue, one semaphore queue (the one p_semAdd names), or the CPU |
| KernelSafety.CountersAreExact | phase2/scheduler.c:25-37 | in every reachable state processCount counts the PCBs in use and softBlockCount the processes queued on the 49 device and clock semaphores |
| KernelInvariant.ScheduleKeeps | phase2/scheduler.c:8-49 | the scheduler keeps the invariant, always acts, and dispatches exactly when somebody is ready |
| KernelInvariant.PasserenKeeps | phase2/syscalls.c:246-278 | P keeps the invariant |
| KernelInvariant.VerhogenKeeps | phase2/syscalls.c:280-302 | V keeps the invariant |
| KernelInvariant.SoftBlockKeeps | phase2/syscalls.c:325-345 | blocking on a device or the clock keeps the invariant |
| KernelInvariant.YieldKeeps | phase2/syscalls.c:421-437 | YIELD keeps the invariant |
| KernelInvariant.PLTKeeps | phase2/interrupts.c:42-57 | the time-slice interrupt keeps the invariant, and a preempted CPU always dispatches |
| KernelInvariant.DeviceKeeps | phase2/interrupts.c:85-165 | a device interrupt keeps the invariant, with or without a waiter |
| KernelInvariant.PseudoClockKeeps | phase2/interrupts.c:59-83 | a clock tick keeps the invariant |
| KernelTree.AddChildKeeps | phase2/syscalls.c:89-122 | process creation keeps one tree with distinct growing pids, the partition and the counters |
| KernelTree.PostMembers | phase2/syscalls.c:146-152 | the order in which terminateProcessTree frees lists p and its descendants, each once, and nobody else |
| KernelKill.KillKeeps | phase2/syscalls.c:146-189 | killing a set of processes closed under children keeps the whole invariant |
| KernelKill.KillTwice | phase2/syscalls.c:149-152 | killing one list of processes and then another is killing both at once, in that order |
| KernelKill.TerminateKeeps | phase2/syscalls.c:191-244 | TERMPROCESS keeps the invariant for any pid |
| KernelKill.PassUpOrDieKeeps | phase2/traps.c:8-28 | dying by a trap keeps the invariant |
| SubtreeKill.DetachKill | phase2/syscalls.c:226-230 | unlinking the target first makes no difference to what its termination does |
| SubtreeKill.ChildKilled | phase2/syscalls.c:148-152 | one round of the loop kills the first child's subtree, and what remains to be killed is the rest of the subtree |
| SubtreeKill.ReapKills | phase2/syscalls.c:154-188 | "not ready means blocked" is right: the code after the loop frees exactly p, from wherever it is, and raises the right semaphore |
| SubtreeKill.TakenOut | phase2/syscalls.c:154-183 | when p is freed it is on no list, and a blocked p's p_semAdd is a real semaphore |
| SubtreeKill.SearchEnds | phase2/syscalls.c:125-143 | what the search from the root returns is the live process with that pid, or nobody has it |
| ProcessTree.OneTree | phase2/syscalls.c:206-213 | all live processes are under one root, which the climb from any of them reaches |
| ProcessTree.SearchFromRoot | phase2/syscalls.c:125-143 | a pid is found in the root's subtree if and only if a live process has it |
| ProcessTree.TerminateNobody | phase2/syscalls.c:216-224 | TERMPROCESS on a pid nobody has changes nothing but the caller's PC |
| ProcessTree.PostIsSubtree | phase2/syscalls.c:146-189 | the freed processes are exactly the subtree of p |
| ProcessTree.KillLive | phase2/syscalls.c:146-189 | after termination exactly the processes outside the subtree live |
| ProcessTree.KillLinks | phase2/syscalls.c:146-189 | survivors keep their PCB; only p's parent loses a child, and only p |
| ProcessTree.KillOrder | phase2/syscalls.c:161-170 | survivors stay in every queue they were in, in the same order |
| ProcessTree.KillCounts | phase2/syscalls.c:155-188 | free list and processCount move by the subtree's size, softBlockCount by its soft-blocked members, and the CPU empties exactly if its process died |
| ProcessTree.KillRaises | phase2/syscalls.c:170-173 | each semaphore is raised by exactly the number of its waiters that died |
| KernelRuns.StepKeeps | phase2/syscalls.c:23-87 | every handler, on every event that can happen, keeps the whole invariant |
| KernelRuns.BootInv | phase2/initial.c:26-60 | main establishes the invariant and dispatches the first process |
| KernelRuns.BootState | phase2/initial.c:26-60 | what main leaves: one process with pid 1, priority 0 and no support structure on the CPU, every other PCB free from the highest down, nobody waiting, the 49 device and clock semaphores at zero |
| SemaphoreRuns.StepSem | phase2/syscalls.c:246-346 | value plus queue length of any semaphore changes only by a signal nobody hears (+1) or a P that does not wait (-1) |
| SemaphoreRuns.BalanceOverRuns | phase2/syscalls.c:161-181 | the same over runs of any length, kills included |
| SemaphoreRuns.Conservation | phase2/syscalls.c:246-302 | initial units plus V's minus completed P's are the units left, and exactly as many processes wait as units are missing, in every run |
| SemaphoreRuns.DeviceSurplus | phase2/interrupts.c:142-153 | from boot, a device semaphore plus its queue length is the number of its interrupts that woke nobody |
| SemaphoreRuns.SurplusGrows | phase2/interrupts.c:142-153 | over whole runs, kills and new requests included, a device's surplus never shrinks |
| SemaphoreRuns.InterruptWakes | phase2/interrupts.c:142-153 | a device interrupt wakes the oldest waiter, with the status in a0, if and only if more processes wait than the surplus; otherwise it only adds to the surplus |
| SemaphoreQueues.StepQueue | phase1/asl.c:84-109 | semaphore queues are first-in first-out: on every event who joins joins at the tail, and exactly the head leaves, on a signal, except that a tick empties the clock's queue and a kill takes out only processes that are then dead |
| SemaphoreQueues.BlockedBefore | phase2/syscalls.c:272-276 | nobody becomes blocked except by leaving the CPU |
| SemaphoreQueues.WokenOnce | phase2/interrupts.c:146-152 | off the CPU a process is woken by a device at most once, and only if it was blocked |
| PseudoClock.Tick | phase2/interrupts.c:65-75 | a tick leaves the clock semaphore at zero with an empty queue; exactly its waiters join the ready queue and softBlockCount drops by their number; no other semaphore changes |
| PseudoClock.TickOrder | phase2/interrupts.c:65-75 | waiters of equal priority become ready in the order in which they waited |
| SchedulerVerdicts.VerdictsHold | phase2/scheduler.c:8-49 | in every reachable state: HALT exactly if nobody lives, PANIC exactly if all are blocked on user semaphores, waiting exactly if the CPU is empty and somebody waits for a device or the clock; the loop never spins |
| SchedulerVerdicts.PanicIsDeadlock | phase2/scheduler.c:29-33 | when PANIC's condition holds no interrupt can wake anybody |
| SchedulerVerdicts.QuietForever | phase2/interrupts.c:42-165 | from such a state no sequence of interrupts of any length makes a process ready |
| SchedulerVerdicts.WakeableIff | phase2/interrupts.c:59-153 | with an empty CPU some sequence of interrupts, each of which can happen when its turn comes, makes a process run if and only if somebody waits for the clock or a device semaphore is negative |
| LostWakeups.InterruptsWake | phase2/interrupts.c:142-153 | interrupts alone, in any number and order: c interrupts of a device wake the first c of its waiters but never one of the last min(surplus, queue length); the others only add to the surplus |
| LostWakeups.LateRequest | phase2/syscalls.c:304-346 | the last runnable process asking for a device leaves the kernel idle, and beyond the reach of any interrupt if and only if it was quiet before and that device's semaphore is positive |
| LostWakeups.IdleForever | phase2/scheduler.c:34-46 | such a state is reached from boot by one early interrupt and one DOIO: waiting is not always right |
| LostWakeups.KilledWaiter | phase2/syscalls.c:170-173 | and by a process killed while it waits: its interrupt is heard by nobody, and the next DOIO on that device waits for ever |
| ReadyQueue.StepReady | phase2/scheduler.c:12-21 | for every event, what it does to the ready queue: which one process it inserts, which it appends (YIELD), the clock's waiters in their order, or exactly the dead subtree it deletes; then, if the scheduler dispatches, the head leaves |
| ReadyQueue.LeavesReady | phase2/scheduler.c:12-21 | a process leaves the ready queue only by being dispatched or by dying |
| ReadyQueue.NoReordering | phase1/pcb.c:78-134 | no event changes the relative order of two processes that both stay ready |
| ReadyOrder.NewcomersShielded | phase1/pcb.c:78-95 | whoever becomes ready other than by YIELD, the clock's waiters included, has only priorities at least its own ahead |
| ReadyOrder.StaysShielded | phase1/pcb.c:78-117 | and that stays so on every event that leaves it ready, whoever arrives |
| ReadyOrder.OnlyHigherOvertakes | phase1/pcb.c:85-94 | a process that becomes ready stands ahead of such a process if and only if its priority is strictly higher and it did not come by YIELD |
| ReadyOrder.OnlyHigherDispatched | phase2/scheduler.c:12-21 | an event that leaves such a process ready dispatches only one that stood ahead of it or a newcomer of strictly higher priority |
| ReadyRuns.ShieldedForLong | phase1/pcb.c:78-117 | over whole runs: until it leaves the queue, a process placed by insertProcQ has only priorities at least its own ahead |
| ReadyRuns.OvertakenOnlyByHigher | phase1/pcb.c:85-94 | over whole runs: whoever stands ahead of it stood there from the start or has strictly higher priority |
| ReadyRuns.WaitStep | phase1/pcb.c:78-117 | on an event that makes nobody of higher priority ready its rank never grows, and drops at a dispatch |
| ReadyRuns.BoundedWait | phase2/scheduler.c:12-21 | over whole runs in which nobody of higher priority becomes ready while it waits: it is dispatched or killed within rank + 1 dispatches |
| ReadyRuns.StaysAhead | phase1/pcb.c:78-117 | over whole runs a process keeps its place ahead of another while both stay ready |
| ReadyRuns.AheadServedFirst | phase2/scheduler.c:12-21 | over whole runs, whoever stands ahead of another is dispatched or killed before the other is dispatched, or killed by that event |
| ReadyRuns.YieldWaits | phase2/syscalls.c:421-437 | after YIELD everybody who was ready is dispatched at once or stands ahead of the yielder |
| ReadyRuns.YielderRunsLast | phase2/syscalls.c:431-436 | over whole runs, everybody ready at a YIELD is dispatched or killed before the yielder is dispatched again, or killed by the event that dispatches it |
| ReadyRuns.EarlierServedFirst | phase1/pcb.c:85-94 | over whole runs, a ready process is dispatched or killed before anybody of no higher priority who becomes ready later is dispatched |
| PriorityRuns.YieldSortedIff | phase2/syscalls.c:431-436 | YIELD on a sorted queue leaves it sorted if and only if at most one process was ready or the caller's priority is no higher than the last one's |
| PriorityRuns.YieldHighestIff | phase2/syscalls.c:431-436 | YIELD on a sorted queue dispatches the highest priority if and only if nobody was ready or the caller's priority is no higher than the first one's |
| PriorityRuns.SortedStepIff | phase2/scheduler.c:12-21 | every other event keeps a sorted queue sorted and dispatches the highest priority |
| PriorityRuns.SortedRunsIff | phase1/pcb.c:78-95 | over whole runs the queue is sorted by priority in every state if and only if every YIELD of the run meets the first of these conditions |
| PriorityRuns.NoYieldOrderly | phase2/syscalls.c:421-437 | so it is in runs without YIELD |
| PriorityRuns.AgeRuns | phase1/pcb.c:85-94 | such runs keep it sorted by priority and, among equals, by how long they have been ready |
| PriorityRuns.OldestOfHighestIff | phase2/scheduler.c:12-21 | in such runs a dispatch takes the oldest of the highest priority (who stays ready has lower priority, or equal priority and did not become ready earlier) if and only if it is not by a YIELD that fails the second condition |
| PriorityRuns.YieldTakesLower | phase2/syscalls.c:421-437 | reached from boot: a YIELD that dispatches priority 0 and leaves priority 1 ready |
| ProcessIdentity.StepIdentity | phase1/pcb.c:24-63 | no event changes a pid, a priority or a support structure; a new process gets the next pid and what was asked for |
| ProcessIdentity.IdentityForLife | phase1/pcb.c:24-63 | over whole runs the three are for life |
| ProcessIdentity.PidsNotReused | phase1/pcb.c:56-60 | over whole runs no pid is given twice: who has an old pid had it all along |
| CallNumbers.OtherwiseTrap | phase2/syscalls.c:74-86 | outside kernel mode, or with a number other than -1 to -10 in a0, the instruction is a trap |
| CallNumbers.TrapOutcome | phase2/traps.c:8-28 | a trap is passed up, changing nothing, exactly if the process has a support structure; else exactly the process and everybody under it die |
| CallNumbers.NoFreePcb | phase2/syscalls.c:94-98 | without a free PCB CREATEPROCESS answers -1 and changes nothing |
| CallNumbers.CreateByNumber | phase2/syscalls.c:89-122 | -1 makes one more live process, the caller's last child, ready, in the state a1 points to, with priority a2, support structure a3 and a new pid, which is the answer |
| CallNumbers.CreateReturnsPid | phase2/syscalls.c:94-115 | the answer is -1 exactly without a free PCB; else a search for it finds the new process |
| CallNumbers.CreatedForLife | phase2/syscalls.c:115 | over whole runs, while the child lives that pid finds it, with the priority and the support structure asked for |
| CallNumbers.ChildTraps | phase2/traps.c:8-28 | over whole runs, the a3 of CREATEPROCESS decides whether a trap of the child is passed up or kills it and all under it |
| CallNumbers.TermByNumber | phase2/syscalls.c:191-244 | -2 kills exactly the process with pid a1, or with 0 the caller, and everybody under it; a caller that survives goes on |
| CallNumbers.TermNobodyByNumber | phase2/syscalls.c:216-224 | -2 with a pid nobody has changes nothing |
| CallNumbers.CreateThenTerm | phase2/syscalls.c:89-244 | -2 on the pid that -1 answered takes back exactly the creation |
| CallNumbers.PasserenByNumber | phase2/syscalls.c:246-278 | -3 takes one from the semaphore a1; the caller goes on exactly if it was positive, else it waits there as the last |
| CallNumbers.VerhogenByNumber | phase2/syscalls.c:280-302 | -4 adds one to the semaphore a1 and makes its first waiter ready exactly if it was negative; the caller goes on |
| CallNumbers.RegisterIndex | phase2/syscalls.c:304-320 | DoIO's semaphore number for each of the sixteen bytes of each device's registers |
| CallNumbers.DoIoByNumber | phase2/syscalls.c:304-346 | -5 makes the caller the last waiter, soft-blocked, of the semaphore of the register at a1, which is one lower |
| CallNumbers.ClockWaitByNumber | phase2/syscalls.c:367-388 | -7 makes it the last waiter of semaphore 48 |
| CallNumbers.TruncDivIs | phase2/syscalls.c:356-358 | the division rounds towards zero |
| CallNumbers.GetTimeByNumber | phase2/syscalls.c:348-365 | -6 charges the caller the time since p_start and answers its CPU time in units of the scale, rounded towards zero |
| CallNumbers.GetSupportByNumber | phase2/syscalls.c:390-399 | -8 answers the caller's support structure and changes nothing |
| CallNumbers.GetPidByNumber | phase2/syscalls.c:401-419 | -9 answers the pid that finds the caller if a1 is zero, else the one that finds its parent, and zero exactly if it asks for the parent and has none |
| CallNumbers.YieldByNumber | phase2/syscalls.c:421-437 | -10 puts the caller behind everybody ready and dispatches the first |
| ResumedStates.StepResumes | phase2/syscalls.c:255-259 | only the process that ran goes on: four bytes further after a call that neither blocks nor yields, exactly as found after a tick or a device interrupt, with no register changed but the a0 of the four calls that answer |
| ResumedStates.InterruptedUnchanged | phase2/interrupts.c:77-82 | a tick or a device interrupt that finds a process on the CPU lets it go on exactly as it was |
| ResumedStates.StayResumes | phase2/interrupts.c:155-164 | over whole runs, between a dispatch and the event that takes the process off the CPU, each event lets it go on as it found it, after its call if it was one, or passes its trap up |
| ProcessRuns.StepPcb | phase2/syscalls.c:263-277 | an event saves the state of the process that leaves the CPU (PC+4 after a system call), hands a0 to the one a device wakes, and touches no other saved state or time |
| ProcessRuns.ContextKept | phase2/interrupts.c:50-55 | over whole runs a process off the CPU keeps the state saved when it left, but for a0, and is charged no time |
| ProcessRuns.ResumesAsSaved | phase2/scheduler.c:15-21 | when it is dispatched at last it resumes in exactly that state |
| ContextSwitches.QueueStep | phase2/interrupts.c:142-153 | off the CPU a process joins no semaphore queue, and it leaves a device's queue alive only woken by that device |
| ContextSwitches.LoadedAsSaved | phase2/syscalls.c:263-277 | from the event to the dispatch: a process that left the CPU by P, CLOCKWAIT, YIELD or the end of its time slice is loaded with exactly the state then saved |
| ContextSwitches.IoReturnsStatus | phase2/interrupts.c:142-153 | from the event to the dispatch: a process that left by DOIO is loaded with the state then saved, PC+4, and in a0 the status of an interrupt of that device, the one that woke it |
| ContextSwitches.LoadedAtOnce | phase2/syscalls.c:421-437 | a process that yields to nobody goes on at once with exactly the state saved |
| CpuStays.StepCpu | phase2/scheduler.c:12-21 | the CPU changes hands by a dispatch only, which sets p_start to the clock then; otherwise p_start moves to the time of a charge, GETTIME's apart, or of a time slice or tick that finds the CPU empty, and not at all on any other event |
| CpuStays.HeldSince | phase2/scheduler.c:12-21 | over whole runs: who holds the CPU has held it without a break since the last event that dispatched it, or since the start |
| CpuTime.Disjoint | phase2/utils.c:21-41 | apart from GETTIME the charged intervals of a run are disjoint, in order, and inside the elapsed time |
| CpuTime.ChargedWhileRunning | phase2/utils.c:21-41 | every charged interval, GETTIME's included, is time through which the charged process held the CPU without a break: it begins no earlier than the dispatch that gave it the CPU and ends at the charging event |
| CpuTime.NobodyElsesTime | phase2/utils.c:35-40 | with a clock that never goes backwards, no interval charged to a process overlaps the time between two events in which another held the CPU or nobody did |
| CpuTime.StayCharged | phase2/utils.c:21-41 | GETTIME apart, what is charged while a process keeps the CPU is charged to it alone and adds up to the time by which p_start moved |
| CpuTime.StayAccounted | phase2/utils.c:21-41 | from its dispatch to the event that takes it off the CPU alive, a process is charged, GETTIME apart, exactly the time between them, and nobody else anything |
| CpuTime.ChargedAtMostElapsed | phase2/utils.c:21-41 | apart from GETTIME the total charged never exceeds the elapsed time, and without GETTIME nothing else is charged |
| CpuTime.TimeIsShare | phase2/utils.c:30-33 | a process's p_time is the sum of the intervals charged to it, GETTIME's included |
| CpuTime.GetTimeReturns | phase2/syscalls.c:348-365 | GETTIME returns, scaled, the sum of all intervals charged to the caller so far and of its present one |
| CpuTime.GetTimeChargesTwice | phase2/syscalls.c:352-356 | the interval GETTIME charges is charged again when the caller is preempted |
| DeviceMap.SameIndex | phase2/syscalls.c:306-321 | DoIO and handleDevice compute the same semaphore for every sub-device, 8 for each line and after them 8 for the transmitters, never the clock's 48 |
| DeviceMap.IndexInjective | phase2/interrupts.c:111-136 | different sub-devices have different semaphores |
| DeviceMap.RaisedFrom | phase2/interrupts.c:88-136 | on raw registers: the device of lowest number counts; on line 7 the transmitter, with its whole status, exactly if the low byte of that is 5, else the receiver |
| DeviceMap.InterruptByRegisters | phase2/interrupts.c:111-153 | such an interrupt wakes the first waiter of semaphore 40 + d for a transmitter, else 8 (line - 3) + d, with that status in a0, if and only if more wait than the surplus |
| DeviceMap.IoJoins | phase2/syscalls.c:320-334 | DOIO makes the caller the last waiter of that sub-device |
| DeviceMap.MovesUp | phase2/interrupts.c:142-153 | first come, first served: over whole runs each interrupt that wakes somebody brings a waiter one place nearer the head |
| DeviceMap.IoDelivered | phase2/interrupts.c:111-153 | end to end, on raw registers: after the waiters before it are served, the next interrupt of that sub-device wakes the process that asked, with the status it reports in a0, if no interrupt is in surplus |
| Refinement.CreateSteps | phase2/syscalls.c:92-115 | allocate, make ready, adopt and count add up to the creation step although insertProcQ comes before insertChild |
| Refinement.DrainRound | phase2/interrupts.c:66-75 | one round of the clock's loop leaves the rest of the tick to be done |
| Nucleus.Nucleus.Scheduler | phase2/scheduler.c:8-49 | on pointers: the scheduler's step and outcome |
| Nucleus.Nucleus.UpdateTime | phase2/utils.c:21-41 | on pointers: the interval since p_start is charged to the running process, if any, and p_start is now |
| Nucleus.Nucleus.CreateProcess | phase2/syscalls.c:89-122 | on pointers: the creation step; -1 in a0 exactly without a free PCB, else the child's pid |
| Nucleus.Nucleus.Passeren | phase2/syscalls.c:246-278 | on pointers: the P step, blocking included |
| Nucleus.Nucleus.Verhogen | phase2/syscalls.c:280-302 | on pointers: the V step, for any state of the queue |
| Nucleus.Nucleus.DoIO | phase2/syscalls.c:304-346 | on pointers: the blocking step on the semaphore of the device register |
| Nucleus.Nucleus.GetCPUTime | phase2/syscalls.c:348-365 | on pointers: charges without moving p_start and returns the scaled time, division truncating |
| Nucleus.Nucleus.WaitForClock | phase2/syscalls.c:367-388 | on pointers: the blocking step on the clock semaphore |
| Nucleus.Nucleus.GetSupportData | phase2/syscalls.c:390-399 | on pointers: the caller's support pointer in a0; nothing changes |
| Nucleus.Nucleus.GetProcessId | phase2/syscalls.c:401-419 | on pointers: the caller's pid, or its parent's, or 0 at the root; nothing changes |
| Nucleus.Nucleus.Yield | phase2/syscalls.c:421-437 | on pointers: the caller goes to the tail and the head is dispatched |
| Nucleus.Nucleus.FindRoot | phase2/syscalls.c:206-213 | on pointers: the climb ends, at the root |
| Nucleus.Nucleus.FindPcbByPid | phase2/syscalls.c:125-143 | on pointers: the search ends; it returns a process of the subtree with that pid, or nobody in the subtree has it |
| Nucleus.Nucleus.Remove | phase2/syscalls.c:154-188 | on pointers: a childless process leaves whatever list holds it and is freed |
| Nucleus.Nucleus.TerminateProcessTree | phase2/syscalls.c:146-189 | on pointers: the recursion ends and kills exactly p's subtree, in the order in which it frees |
| Nucleus.Nucleus.KillSubtree | phase2/syscalls.c:226-230 | on pointers: outChild and terminateProcessTree together kill exactly the subtree of any live process |
| Nucleus.Nucleus.TerminateProcess | phase2/syscalls.c:191-244 | on pointers: the termination step for any pid, the caller's own included |
| Nucleus.Nucleus.PassUpOrDie | phase2/traps.c:8-28 | on pointers: without a support structure the running process and its progeny die |
| Nucleus.Nucleus.HandlePLT | phase2/interrupts.c:42-57 | on pointers: the interrupted process, if any, is charged, saved and made ready |
| Nucleus.Nucleus.WakeAll | phase2/interrupts.c:65-75 | on pointers: the loop ends and wakes exactly the waiters |
| Nucleus.Nucleus.HandlePseudoClock | phase2/interrupts.c:59-83 | on pointers: the tick step |
| Nucleus.Nucleus.HandleDevice | phase2/interrupts.c:85-165 | on pointers: the device step for the pending device of lowest number |
| Nucleus.Nucleus.SyscallExceptionHandler | phase2/syscalls.c:23-87 | on pointers: in kernel mode the number in a0 decides which handler's step is taken; an unknown number, or user mode, ends in passUpOrDie |
| Nucleus.Nucleus.React | phase2/syscalls.c:23-87 | the refinement: on every event the code reaches the state and outcome of the state machine and keeps the invariant |
| Nucleus.Nucleus.Run | phase2/scheduler.c:8-49 | the same for runs of any length |
| Nucleus.Nucleus.Boot | phase2/initial.c:26-60 | main builds the state machine's initial state on the pointers and dispatches the first process |
| Klog.LayoutNext | klog.c:22-35 | writing a character ends, fills or lengthens the last line of the unbounded log and touches no other |
| Klog.LinesFit | klog.c:72-77 | no line of the log is longer than a row or holds a newline |
| Klog.LayoutRoundTrip | klog.c:22-35 | nothing printed is lost or out of place: the lines, put together with newlines after those that are not full, give the text back |
| Klog.Klog.NextLine | klog.c:81-88 | the next row modulo 64 is cleaned and every other row kept |
| Klog.Klog.NextChar | klog.c:72-77 | one column on, or, at the end of a row, to the cleaned next row |
| Klog.Klog.KlogPrint | klog.c:22-35 | the ring shows the unbounded log of everything printed so far |
| Klog.Klog.KlogPrintHex | klog.c:60-68 | the hexadecimal digits are appended to that log |
| Klog.Klog.LastLinesShown | klog.c:60-88 | each of the last 64 lines of the log is in its row modulo 64, padded to the full width, zeros in the first line and spaces in the others |
| Klog.Klog.KlogPrintDec | klog.c:41-57 | what klog_print_dec writes is appended to that log |
| Klog.DigitsRoundTrip | klog.c:60-68 | read least significant first, the digits give the number back |
| Klog.DigitsInjective | klog.c:60-68 | no two numbers leave the same digits |
| Klog.DecRoundTripIff | klog.c:41-57 | what klog_print_dec writes reads back as the number exactly for zero and from ten on |
| Klog.DecCollision | klog.c:41-57 | two numbers print the same in decimal exactly if one is a digit from 1 to 9 and the other ten times it |

## Left out

- SyscallExceptionHandler: the PRIVINSTR cause that a call from user mode leaves in the saved state is not modelled, since passing that state up is not.
- PassUpOrDie: the pass-up branch is only reported as an outcome; copying the saved state into the support structure and loading its context are not modelled, because the support structure is memory of the user level.
- DoIO: what is written to the device register is not modelled; only the waiting is.
- Memory behind a semaphore's address: semaphores are the entries of a map from address to integer; overlap with other data is not modelled.
- HandleDevice: the acknowledgement written to the device's command register is not modelled.
- CreateProcess: the child's initial state is a value; the register file is a PC, an a0 and one value for the rest.
- Boot: the pass-up vector, the stack pointer, the status bits and the interval timer are not modelled.
- InitPcbs: static storage is modelled with every node linked to itself before the INIT_LIST_HEAD calls, since a Dafny object has no null links here.
- Cause decoding and dispatch (phase2/exceptions.c, phase2/tlb.c, phase2/interrupts.c:16-40): interrupts and traps name their handler; only system call numbers are decoded.
- The time-slice and interval timers, MIE and status bits: an interrupt may arrive at any moment the CPU is not in a handler.
- `memcpy` (phase2/utils.c:9-18): structure assignment is assignment.
- 32-bit overflow of pids, semaphore values, times and counters.
- User programs that assign to semaphores themselves, as phase2/p2test.c:329-335 does.
- The finite tests phase1/p1test.c and phase2/p2test.c.
