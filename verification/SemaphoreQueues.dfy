/** The semaphore queues are first-in first-out, and nobody who is ready blocks before running. */
module SemaphoreQueues {
  import opened Sequences
  import opened KernelState
  import opened KernelSteps
  import opened KernelMoves
  import opened KernelInvariant
  import opened KernelKill
  import opened KernelRuns
  import opened SemaphoreRuns
  import opened ProcessRuns

  predicate Kills(e: Event) { e.Trap? || (e.Syscall? && e.call.TermProcessCall?) }

  /** The caller blocks on a. */
  predicate Joins(k: Kernel, e: Event, a: Addr) { Leaves(k, e) && Waits(k, e, a) }

  /** Who a signal wakes: the head of the queue, while somebody waits. */
  function Woken(k: Kernel, e: Event, a: Addr): set<Slot> {
    if Signals(k, e, a) && a in k.mem && k.mem[a] < 0 && k.Q(a) != [] then {k.Q(a)[0]} else {}
  }

  /** Those gone leave the queue of a, and the caller joins it at the tail if it blocks on a; kills and clock ticks
      aside, exactly the head goes, and only when a is signalled; who goes by a kill is dead; a tick empties the
      clock's queue. */
  ghost predicate Fifo(k: Kernel, e: Event, l: Kernel, a: Addr, gone: set<Slot>) {
    && l.Q(a) == Without(k.Q(a), gone) + (if Joins(k, e, a) then [k.current.value] else [])
    && (Kills(e) ==> forall p :: p in gone ==> p in l.free)
    && (e.PseudoClock? && a == k.Dev(CLOCK) ==> l.Q(a) == [])
    && (!Kills(e) && !(e.PseudoClock? && a == k.Dev(CLOCK)) ==> gone == Woken(k, e, a))
  }

  lemma NoneGone(q: seq<Slot>)
    ensures Without(q, {}) == q
  {
    WithoutAbsent(q, {});
  }

  lemma HeadGone(q: seq<Slot>)
    requires q != [] && NoDup(q)
    ensures Without(q, {q[0]}) == q[1..]
  {
    WithoutOne(q, 0);
    assert q[..0] + q[1..] == q[1..];
  }

  lemma ScheduleQueue(k: Kernel, ctx: Context, t: int, a: Addr)
    ensures Schedule(k, t).k.Q(a) == k.Q(a) && ResumeOrSchedule(k, ctx, t).k.Q(a) == k.Q(a)
    ensures Schedule(k, t).k.free == k.free && ResumeOrSchedule(k, ctx, t).k.free == k.free
  {
  }

  lemma PasserenQueue(k: Kernel, e: Event, s: Addr, a: Addr)
    requires Partition(k) && k.current.Some? && s in k.mem && e.Syscall? && e.call == PasserenCall(s)
    ensures Fifo(k, e, Passeren(k, s, e.ctx, e.t1, e.t2).k, a, {})
  {
    hide Schedule;
    NoneGone(k.Q(a));
    DescriptorFree(k);
    ScheduleQueue(BlockCurrent(LeaveCpu(AddMem(k, s, -1), SavePc(e.ctx), e.t1), s), e.ctx, e.t2, a);
  }

  lemma SoftBlockQueue(k: Kernel, e: Event, s: Addr, a: Addr)
    requires Partition(k) && k.current.Some? && s in k.mem && e.Syscall? && (Waits(k, e, a) <==> a == s)
    requires e.call.DoIOCall? || e.call.ClockWaitCall?
    ensures Fifo(k, e, SoftBlock(k, s, e.ctx, e.t1, e.t2).k, a, {})
  {
    hide Schedule, SoftWait;
    NoneGone(k.Q(a));
    SoftWaitQueue(k, s, e.ctx, e.t1, a);
    ScheduleQueue(SoftWait(k, s, e.ctx, e.t1), e.ctx, e.t2, a);
  }

  lemma SoftWaitQueue(k: Kernel, s: Addr, ctx: Context, t: int, a: Addr)
    requires Partition(k) && k.current.Some? && s in k.mem
    ensures SoftWait(k, s, ctx, t).Q(a) == k.Q(a) + if a == s then [k.current.value] else []
  {
    DescriptorFree(k);
  }

  lemma VerhogenQueue(k: Kernel, e: Event, s: Addr, a: Addr) returns (gone: set<Slot>)
    requires Partition(k) && s in k.mem && e.Syscall? && e.call == VerhogenCall(s)
    ensures Fifo(k, e, Verhogen(k, s, e.ctx).k, a, gone)
  {
    if a == s && k.mem[s] < 0 && k.Q(s) != [] {
      gone := {k.Q(s)[0]};
      HeadGone(k.Q(s));
    } else {
      gone := {};
      NoneGone(k.Q(a));
    }
  }

  lemma KillTakes(k: Kernel, o: seq<Slot>, a: Addr)
    ensures Kill(k, o).Q(a) == Without(k.Q(a), Elems(o)) && forall p :: p in Elems(o) ==> p in Kill(k, o).free
  {
    KillQueuesAt(k.asl, Elems(o), a);
  }

  lemma KillQueue(k: Kernel, o: seq<Slot>, ctx: Context, t2: int, a: Addr)
    ensures KillAndGo(k, o, ctx, t2).k.Q(a) == Without(k.Q(a), Elems(o))
    ensures Die(k, o, t2).k.Q(a) == Without(k.Q(a), Elems(o))
    ensures forall p :: p in Elems(o) ==> p in KillAndGo(k, o, ctx, t2).k.free && p in Die(k, o, t2).k.free
  {
    hide Kill, Schedule;
    KillTakes(k, o, a);
    ScheduleQueue(Kill(k, o), SavePc(ctx), t2, a);
    ScheduleQueue(Kill(k, o).(current := None), SavePc(ctx), t2, a);
  }

  lemma TerminateQueue(k: Kernel, e: Event, a: Addr) returns (gone: set<Slot>)
    requires Core(k) && k.current.Some? && e.Syscall? && e.call.TermProcessCall?
    ensures Fifo(k, e, TerminateProcess(k, e.call.pid, e.ctx, e.t2).k, a, gone)
  {
    hide Core, Forest, Partition, KillAndGo, Post, Fifo, Kernel.Q;
    var target := if e.call.pid == 0 then k.current else FindPid(k, e.call.pid);
    RunningLives(k);
    if target.Some? {
      gone := Elems(Post(k, target.value));
      KillQueue(k, Post(k, target.value), e.ctx, e.t2, a);
      KillFifo(k, e, KillAndGo(k, Post(k, target.value), e.ctx, e.t2).k, a, gone);
    } else {
      gone := {};
      NoneGone(k.Q(a));
      KillFifo(k, e, k, a, gone);
    }
  }

  lemma KillFifo(k: Kernel, e: Event, l: Kernel, a: Addr, gone: set<Slot>)
    requires Kills(e) && l.Q(a) == Without(k.Q(a), gone) && forall p :: p in gone ==> p in l.free
    ensures Fifo(k, e, l, a, gone)
  {
  }

  lemma TrapQueue(k: Kernel, e: Event, a: Addr) returns (gone: set<Slot>)
    requires Core(k) && k.current.Some? && e.Trap?
    ensures Fifo(k, e, PassUpOrDie(k, e.t2).k, a, gone)
  {
    hide Core, Forest, Partition, Die, Post, Fifo, Kernel.Q;
    RunningLives(k);
    if k.pcb[k.current.value].support == NULL {
      gone := Elems(Post(k, k.current.value));
      KillQueue(k, Post(k, k.current.value), Context(0, 0, 0), e.t2, a);
      KillFifo(k, e, Die(k, Post(k, k.current.value), e.t2).k, a, gone);
    } else {
      gone := {};
      NoneGone(k.Q(a));
      KillFifo(k, e, k, a, gone);
    }
  }

  lemma ClockQueue(k: Kernel, e: Event, a: Addr) returns (gone: set<Slot>)
    requires Partition(k) && k.Dev(CLOCK) in k.mem && e.PseudoClock?
    ensures Fifo(k, e, HandlePseudoClock(k, e.ctx, e.t1, e.t2).k, a, gone)
    ensures HandlePseudoClock(k, e.ctx, e.t1, e.t2).k.Q(k.Dev(CLOCK)) == []
  {
    hide Schedule, EnqueueAll;
    ScheduleQueue(UpdateCpuTime(DrainClock(k), e.t1), e.ctx, e.t2, a);
    ScheduleQueue(UpdateCpuTime(DrainClock(k), e.t1), e.ctx, e.t2, k.Dev(CLOCK));
    if a == k.Dev(CLOCK) {
      gone := Elems(k.Q(a));
      WithoutAll(k.Q(a), gone);
    } else {
      gone := {};
      NoneGone(k.Q(a));
    }
  }

  lemma PLTQueue(k: Kernel, e: Event, a: Addr)
    requires Partition(k) && e.PLT?
    ensures Fifo(k, e, HandlePLT(k, e.ctx, e.t1, e.t2).k, a, {})
  {
    hide Schedule;
    NoneGone(k.Q(a));
    if k.current.Some? {
      ScheduleQueue(Enqueue(LeaveCpu(k, e.ctx, e.t1), k.current.value), e.ctx, e.t2, a);
    } else {
      ScheduleQueue(UpdateCpuTime(k, e.t1), e.ctx, e.t2, a);
    }
  }

  lemma DeviceQueue(k: Kernel, e: Event, a: Addr) returns (gone: set<Slot>)
    requires Partition(k) && Semaphores(k) && e.Device? && 3 <= e.line <= 7 && |e.pending| == 8
    ensures Fifo(k, e, HandleDevice(k, e.line, e.pending, e.regs, e.ctx, e.t1, e.t2).k, a, gone)
  {
    gone := {};
    NoneGone(k.Q(a));
    if FirstPending(e.pending).Some? {
      var s := IrqSem(k, e).value;
      DeviceKey(k, IrqIndex(e.line, FirstPending(e.pending).value, TransmitDone(e.line, e.regs)));
      gone := DoneQueue(k, e, s, a);
    } else {
      ScheduleQueue(k, e.ctx, e.t2, a);
    }
  }

  lemma DoneQueue(k: Kernel, e: Event, s: Addr, a: Addr) returns (gone: set<Slot>)
    requires Partition(k) && e.Device? && s in k.mem && IrqSem(k, e) == Some(s)
    ensures Fifo(k, e, DeviceDone(k, s, IrqStatus(e), e.ctx, e.t1, e.t2).k, a, gone)
  {
    hide Complete, Schedule;
    gone := {};
    NoneGone(k.Q(a));
    CompleteQueue(k, s, IrqStatus(e), a);
    ScheduleQueue(Complete(k, s, IrqStatus(e)), e.ctx, e.t2, a);
    if a == s && k.mem[s] < 0 && k.Q(s) != [] {
      gone := {k.Q(s)[0]};
      HeadGone(k.Q(s));
    }
  }

  lemma CompleteQueue(k: Kernel, s: Addr, status: int, a: Addr)
    requires Partition(k) && s in k.mem
    ensures Complete(k, s, status).Q(a) == if a == s && k.mem[s] < 0 && k.Q(s) != [] then k.Q(s)[1..] else k.Q(a)
  {
  }

  lemma QuietFifo(k: Kernel, e: Event, l: Kernel, a: Addr)
    requires e.Syscall? && !Kills(e) && !e.call.VerhogenCall? && !Joins(k, e, a) && l.Q(a) == k.Q(a)
    ensures Fifo(k, e, l, a, {})
  {
    NoneGone(k.Q(a));
  }

  lemma QuietQueue(k: Kernel, e: Event, a: Addr)
    requires Inv(k) && Enabled(k, e) && e.Syscall? && !e.call.TermProcessCall? && !e.call.PasserenCall?
    requires !e.call.VerhogenCall? && !e.call.DoIOCall? && !e.call.ClockWaitCall?
    ensures Fifo(k, e, Handle(k, e).k, a, {})
  {
    hide Fifo, Inv, Core, Semaphores, Forest, Schedule, InsertProc;
    SemParts(k);
    if e.call.YieldCall? {
      YieldQueue(k, e.ctx, e.t1, e.t2, a);
    }
    QuietFifo(k, e, Handle(k, e).k, a);
  }

  lemma YieldQueue(k: Kernel, ctx: Context, t1: int, t2: int, a: Addr)
    requires Partition(k) && k.current.Some?
    ensures Yield(k, ctx, t1, t2).k.Q(a) == k.Q(a)
  {
    hide Schedule;
    var k1 := LeaveCpu(k, SavePc(ctx), t1);
    ScheduleQueue(k1.(ready := k1.ready + [k.current.value], current := None), ctx, t2, a);
  }

  lemma SyscallQueue(k: Kernel, e: Event, a: Addr) returns (gone: set<Slot>)
    requires Inv(k) && Enabled(k, e) && e.Syscall?
    ensures Fifo(k, e, Handle(k, e).k, a, gone)
  {
    hide Passeren, Verhogen, SoftBlock, TerminateProcess, Core, Partition, Inv, Semaphores, Forest;
    hide CreateProcess, GetCpuTime, GetProcessId, Yield, Fifo;
    SemParts(k);
    gone := {};
    match e.call
    case TermProcessCall(_) => gone := TerminateQueue(k, e, a);
    case PasserenCall(s) => PasserenQueue(k, e, s, a);
    case VerhogenCall(s) => gone := VerhogenQueue(k, e, s, a);
    case DoIOCall(cmd) =>
      DeviceKey(k, IoIndex(cmd));
      SoftBlockQueue(k, e, k.Dev(IoIndex(cmd)), a);
    case ClockWaitCall =>
      DeviceKey(k, CLOCK);
      SoftBlockQueue(k, e, k.Dev(CLOCK), a);
    case _ => QuietQueue(k, e, a);
  }

  /** Every semaphore queue is first-in first-out: except for kills and clock ticks only its head leaves, and whoever
      joins it joins at the tail. */
  lemma StepQueue(k: Kernel, e: Event, a: Addr) returns (gone: set<Slot>)
    requires Inv(k) && Enabled(k, e)
    ensures Fifo(k, e, Handle(k, e).k, a, gone)
  {
    hide HandlePLT, HandlePseudoClock, HandleDevice, PassUpOrDie, Core, Partition, Inv, Semaphores, Forest;
    SemParts(k);
    match e
    case Syscall(_, _, _, _) => gone := SyscallQueue(k, e, a);
    case Trap(_, _) => gone := TrapQueue(k, e, a);
    case PLT(_, _, _) =>
      gone := {};
      PLTQueue(k, e, a);
    case PseudoClock(_, _, _) =>
      DeviceKey(k, CLOCK);
      gone := ClockQueue(k, e, a);
    case Device(_, _, _, _, _, _) => gone := DeviceQueue(k, e, a);
  }

  lemma CurrentNotQueued(k: Kernel, a: Addr)
    requires Inv(k)
    ensures k.current.Some? ==> k.Live(k.current.value) && k.current.value !in k.Q(a)
  {
    if k.current.Some? {
      var c := k.current.value;
      assert OnePlace(k, c);
      assert !k.Blocked(c);
      assert a in k.asl && c in k.asl[a] ==> k.pcb[c].semAdd == a;
    }
  }

  lemma StepDev(k: Kernel, e: Event)
    requires Inv(k)
    ensures Step(k, e).dev == k.dev
  {
    hide Handle;
    if Enabled(k, e) {
      DeviceKey(k, CLOCK);
      StepSem(k, e, k.Dev(CLOCK));
    }
  }

  /** Nobody starts to be blocked except by leaving the CPU. */
  lemma BlockedBefore(k: Kernel, e: Event, p: Slot)
    requires Inv(k) && Enabled(k, e) && Handle(k, e).k.Blocked(p) && k.current != Some(p) && p < |k.pcb|
    ensures k.Blocked(p)
  {
    hide Handle;
    var a := Handle(k, e).k.pcb[p].semAdd;
    var gone := StepQueue(k, e, a);
    assert p in k.Q(a);
    assert p in k.asl[a];
  }

  lemma WokenMoves(k: Kernel, e: Event, p: Slot)
    requires Inv(k) && Enabled(k, e) && WokenBy(k, e) == Some(p)
    ensures k.Blocked(p) && k.current != Some(p) && !Handle(k, e).k.Blocked(p)
  {
    hide Handle;
    var a := IrqSem(k, e).value;
    assert p in k.asl[a];
    assert k.Blocked(p) && OnePlace(k, p);
    InterruptWakes(k, e, a);
    StepKeeps(k, e);
    assert OnePlace(Handle(k, e).k, p);
  }

  function BlockedBit(k: Kernel, p: Slot): nat { if k.Blocked(p) then 1 else 0 }

  lemma WakeStep(k: Kernel, e: Event, p: Slot)
    requires Inv(k) && k.Live(p) && k.current != Some(p) && Step(k, e).Live(p)
    ensures BlockedBit(Step(k, e), p) + Bit(Enabled(k, e) && WokenBy(k, e) == Some(p)) <= BlockedBit(k, p)
  {
    hide Handle, Inv;
    if Enabled(k, e) {
      if Handle(k, e).k.Blocked(p) {
        BlockedBefore(k, e, p);
      }
      if WokenBy(k, e) == Some(p) {
        WokenMoves(k, e, p);
      }
    }
  }

  /** Off the CPU a process is woken by a device at most once, and only if it was blocked:
      at most one status reaches its a0 before it runs again. */
  lemma {:induction false} WokenOnce(k: Kernel, es: seq<Event>, p: Slot)
    requires Inv(k) && Away(k, es, p)
    ensures CountIf(k, es, Wakes(p)) + BlockedBit(Exec(k, es), p) <= BlockedBit(k, p)
  {
    hide Handle, Step, Inv;
    if es != [] {
      var n := |es| - 1;
      WokenOnce(k, es[..n], p);
      assert Away(k, es[..n], p);
      WakeStep(Exec(k, es[..n]), es[n], p);
    }
  }
}
