/** What a process keeps all its life: pid, priority and support structure; and that pids are never used again. */
module ProcessIdentity {
  import opened Sequences
  import opened KernelState
  import opened KernelSteps
  import opened KernelInvariant
  import opened KernelRuns
  import opened SemaphoreRuns
  import opened ProcessRuns

  /** Nobody's pid, priority or support structure changes, and nobody new lives. */
  ghost predicate SameIdentity(k: Kernel, l: Kernel) {
    && |l.pcb| == |k.pcb| && l.nextPid == k.nextPid
    && (forall p: Slot :: p < |k.pcb| ==>
          l.pcb[p].pid == k.pcb[p].pid && l.pcb[p].prio == k.pcb[p].prio && l.pcb[p].support == k.pcb[p].support)
    && (forall p :: p in k.free ==> p in l.free)
  }

  /** The same, but for the process that e creates. */
  ghost predicate IdentityEffect(k: Kernel, e: Event, l: Kernel) {
    && |l.pcb| == |k.pcb|
    && (forall p: Slot :: p < |k.pcb| ==>
          if Creates(k, e, p) then
            && l.pcb[p].pid == k.nextPid && l.pcb[p].prio == e.call.prio && l.pcb[p].support == e.call.support
            && l.nextPid == k.nextPid + 1
          else
            l.pcb[p].pid == k.pcb[p].pid && l.pcb[p].prio == k.pcb[p].prio && l.pcb[p].support == k.pcb[p].support)
    && (forall p: Slot :: l.Live(p) ==> k.Live(p) || Creates(k, e, p))
    && k.nextPid <= l.nextPid
  }

  lemma IdentityKept(k: Kernel, e: Event, l: Kernel)
    requires SameIdentity(k, l) && forall p :: !Creates(k, e, p)
    ensures IdentityEffect(k, e, l)
  {
  }

  lemma ScheduleIdentity(k: Kernel, l: Kernel, ctx: Context, t: int)
    requires SameIdentity(k, l)
    ensures SameIdentity(k, Schedule(l, t).k) && SameIdentity(k, ResumeOrSchedule(l, ctx, t).k)
  {
  }

  lemma PasserenIdentity(k: Kernel, a: Addr, ctx: Context, t1: int, t2: int)
    requires Partition(k) && k.current.Some? && a in k.mem
    ensures SameIdentity(k, Passeren(k, a, ctx, t1, t2).k)
  {
    hide Schedule;
    if k.mem[a] <= 0 {
      ScheduleIdentity(k, BlockCurrent(LeaveCpu(AddMem(k, a, -1), SavePc(ctx), t1), a), ctx, t2);
    }
  }

  lemma SoftBlockIdentity(k: Kernel, a: Addr, ctx: Context, t1: int, t2: int)
    requires Partition(k) && k.current.Some? && a in k.mem
    ensures SameIdentity(k, SoftBlock(k, a, ctx, t1, t2).k)
  {
    hide Schedule;
    ScheduleIdentity(k, SoftWait(k, a, ctx, t1), ctx, t2);
  }

  lemma YieldIdentity(k: Kernel, ctx: Context, t1: int, t2: int)
    requires Partition(k) && k.current.Some?
    ensures SameIdentity(k, Yield(k, ctx, t1, t2).k)
  {
    hide Schedule;
    var k1 := LeaveCpu(k, SavePc(ctx), t1);
    ScheduleIdentity(k, k1.(ready := k1.ready + [k.current.value], current := None), ctx, t2);
  }

  lemma KillIdentity(k: Kernel, o: seq<Slot>, ctx: Context, t2: int)
    ensures SameIdentity(k, KillAndGo(k, o, ctx, t2).k) && SameIdentity(k, Die(k, o, t2).k)
  {
    hide Schedule, KillQueues, KillMem;
    ScheduleIdentity(k, Kill(k, o), SavePc(ctx), t2);
    ScheduleIdentity(k, Kill(k, o).(current := None), ctx, t2);
  }

  lemma TerminateIdentity(k: Kernel, pid: int, ctx: Context, t2: int)
    requires Core(k) && k.current.Some?
    ensures SameIdentity(k, TerminateProcess(k, pid, ctx, t2).k)
  {
    hide Core, Forest, Partition, KillAndGo, Post;
    RunningLives(k);
    var target := if pid == 0 then k.current else FindPid(k, pid);
    if target.Some? {
      KillIdentity(k, Post(k, target.value), ctx, t2);
    }
  }

  lemma TrapIdentity(k: Kernel, t2: int)
    requires Core(k) && k.current.Some?
    ensures SameIdentity(k, PassUpOrDie(k, t2).k)
  {
    hide Core, Forest, Partition, Die, Post;
    RunningLives(k);
    KillIdentity(k, Post(k, k.current.value), Context(0, 0, 0), t2);
  }

  lemma PLTIdentity(k: Kernel, ctx: Context, t1: int, t2: int)
    requires Partition(k)
    ensures SameIdentity(k, HandlePLT(k, ctx, t1, t2).k)
  {
    hide Schedule;
    if k.current.Some? {
      ScheduleIdentity(k, Enqueue(LeaveCpu(k, ctx, t1), k.current.value), ctx, t2);
    } else {
      ScheduleIdentity(k, UpdateCpuTime(k, t1), ctx, t2);
    }
  }

  lemma ClockIdentity(k: Kernel, ctx: Context, t1: int, t2: int)
    requires Partition(k) && k.Dev(CLOCK) in k.mem
    ensures SameIdentity(k, HandlePseudoClock(k, ctx, t1, t2).k)
  {
    hide Schedule, EnqueueAll;
    ScheduleIdentity(k, UpdateCpuTime(DrainClock(k), t1), ctx, t2);
  }

  lemma CompleteIdentity(k: Kernel, a: Addr, status: int)
    requires Lists(k) && a in k.mem
    ensures SameIdentity(k, Complete(k, a, status))
  {
    if k.mem[a] < 0 && k.Q(a) != [] {
      assert k.Q(a)[0] in k.asl[a];
    }
  }

  lemma DeviceIdentity(k: Kernel, e: Event)
    requires Partition(k) && Semaphores(k) && e.Device? && 3 <= e.line <= 7 && |e.pending| == 8
    ensures SameIdentity(k, HandleDevice(k, e.line, e.pending, e.regs, e.ctx, e.t1, e.t2).k)
  {
    hide Schedule, Semaphores, TransmitDone, Complete;
    match FirstPending(e.pending)
    case None => ScheduleIdentity(k, k, e.ctx, e.t2);
    case Some(d) =>
      var a := k.Dev(IrqIndex(e.line, d, TransmitDone(e.line, e.regs)));
      DeviceKey(k, IrqIndex(e.line, d, TransmitDone(e.line, e.regs)));
      CompleteTable(k, a, IrqStatus(e));
      CompleteIdentity(k, a, IrqStatus(e));
      ScheduleIdentity(k, Complete(k, a, IrqStatus(e)), e.ctx, e.t2);
  }

  lemma CreateIdentity(k: Kernel, e: Event)
    requires Partition(k) && k.current.Some? && e.Syscall? && e.call.CreateProcessCall?
    ensures IdentityEffect(k, e, CreateProcess(k, e.call.child, e.call.prio, e.call.support, e.ctx).k)
  {
    hide InsertProc;
    if k.free != [] {
      assert k.free == [k.free[0]] + k.free[1..];
      assert k.free[0] in k.free && OnePlace(k, k.free[0]);
    }
  }

  lemma SyscallIdentity(k: Kernel, e: Event)
    requires Inv(k) && Enabled(k, e) && e.Syscall?
    ensures IdentityEffect(k, e, Handle(k, e).k)
  {
    hide Inv, Core, Partition, Semaphores, Passeren, SoftBlock, TerminateProcess, Yield, CreateProcess, SameIdentity;
    hide IdentityEffect, InsertProc;
    SemParts(k);
    match e.call
    case CreateProcessCall(_, _, _) => CreateIdentity(k, e);
    case _ =>
      OtherIdentity(k, e);
      IdentityKept(k, e, Handle(k, e).k);
  }

  lemma OtherIdentity(k: Kernel, e: Event)
    requires Inv(k) && Enabled(k, e) && e.Syscall? && !e.call.CreateProcessCall?
    ensures SameIdentity(k, Handle(k, e).k)
  {
    hide Inv, Core, Partition, Semaphores, Passeren, SoftBlock, TerminateProcess, Yield, InsertProc;
    SemParts(k);
    RunningLives(k);
    match e.call
    case TermProcessCall(pid) => TerminateIdentity(k, pid, e.ctx, e.t2);
    case PasserenCall(a) => PasserenIdentity(k, a, e.ctx, e.t1, e.t2);
    case DoIOCall(cmd) =>
      DeviceKey(k, IoIndex(cmd));
      SoftBlockIdentity(k, k.Dev(IoIndex(cmd)), e.ctx, e.t1, e.t2);
    case ClockWaitCall =>
      DeviceKey(k, CLOCK);
      SoftBlockIdentity(k, k.Dev(CLOCK), e.ctx, e.t1, e.t2);
    case YieldCall => YieldIdentity(k, e.ctx, e.t1, e.t2);
    case _ =>
  }

  /** Every event leaves every pid, priority and support structure alone; a new process gets the next pid, and the
      priority and the support structure that were asked for. */
  lemma StepIdentity(k: Kernel, e: Event)
    requires Inv(k) && Enabled(k, e)
    ensures IdentityEffect(k, e, Handle(k, e).k)
  {
    hide Inv, Core, Partition, Semaphores, PassUpOrDie, HandlePLT, HandlePseudoClock, HandleDevice, SameIdentity;
    hide IdentityEffect;
    SemParts(k);
    match e
    case Syscall(_, _, _, _) => SyscallIdentity(k, e);
    case Trap(_, t2) =>
      TrapIdentity(k, t2);
      IdentityKept(k, e, Handle(k, e).k);
    case PLT(ctx, t1, t2) =>
      PLTIdentity(k, ctx, t1, t2);
      IdentityKept(k, e, Handle(k, e).k);
    case PseudoClock(ctx, t1, t2) =>
      DeviceKey(k, CLOCK);
      ClockIdentity(k, ctx, t1, t2);
      IdentityKept(k, e, Handle(k, e).k);
    case Device(_, _, _, _, _, _) =>
      DeviceIdentity(k, e);
      IdentityKept(k, e, Handle(k, e).k);
  }

  // ---- whole runs ---------------------------------------------------------

  /** p lives in every state of the run. */
  ghost predicate LivesOn(k: Kernel, es: seq<Event>, p: Slot)
    requires Inv(k)
  {
    Exec(k, es).Live(p) && (es != [] ==> LivesOn(k, es[..|es| - 1], p))
  }

  /** The three fields are those p had at the start of the run. */
  ghost predicate SamePerson(k: Kernel, l: Kernel, p: Slot) {
    && p < |k.pcb| && p < |l.pcb|
    && l.pcb[p].pid == k.pcb[p].pid && l.pcb[p].prio == k.pcb[p].prio && l.pcb[p].support == k.pcb[p].support
  }

  lemma PersonStep(k: Kernel, e: Event, p: Slot)
    requires Inv(k) && k.Live(p)
    ensures SamePerson(k, Step(k, e), p)
  {
    hide Handle, Inv;
    if Enabled(k, e) {
      StepIdentity(k, e);
      assert Creates(k, e, p) ==> p in k.free;
    }
  }

  /** Pid, priority and support structure are for life. */
  lemma {:induction false} IdentityForLife(k: Kernel, es: seq<Event>, p: Slot)
    requires Inv(k) && LivesOn(k, es, p)
    ensures k.Live(p) && Exec(k, es).Live(p) && SamePerson(k, Exec(k, es), p)
  {
    hide Handle, Step, Inv;
    if es != [] {
      IdentityForLife(k, es[..|es| - 1], p);
      PersonStep(Exec(k, es[..|es| - 1]), es[|es| - 1], p);
    }
  }

  lemma PidStep(k: Kernel, e: Event, p: Slot)
    requires Inv(k) && Step(k, e).Live(p)
    ensures k.nextPid <= Step(k, e).nextPid && p < |k.pcb|
    ensures Step(k, e).pcb[p].pid < k.nextPid ==> k.Live(p) && k.pcb[p].pid == Step(k, e).pcb[p].pid
  {
    hide Handle, Inv;
    if Enabled(k, e) {
      StepIdentity(k, e);
    }
  }

  lemma GrowsStep(k: Kernel, e: Event)
    requires Inv(k)
    ensures k.nextPid <= Step(k, e).nextPid && |Step(k, e).pcb| == |k.pcb|
  {
    hide Handle, Inv;
    if Enabled(k, e) {
      StepIdentity(k, e);
    }
  }

  lemma {:induction false} PidsGrow(k: Kernel, es: seq<Event>)
    requires Inv(k)
    ensures k.nextPid <= Exec(k, es).nextPid && |Exec(k, es).pcb| == |k.pcb|
  {
    hide Handle, Step, Inv;
    if es != [] {
      PidsGrow(k, es[..|es| - 1]);
      GrowsStep(Exec(k, es[..|es| - 1]), es[|es| - 1]);
    }
  }

  lemma LivesNow(k: Kernel, p: Slot)
    requires Inv(k) && k.Live(p)
    ensures LivesOn(k, [], p) && Exec(k, []) == k
  {
  }

  lemma LivesMore(k: Kernel, es: seq<Event>, p: Slot)
    requires Inv(k) && es != [] && LivesOn(k, es[..|es| - 1], p) && Exec(k, es).Live(p)
    ensures LivesOn(k, es, p)
  {
    hide Handle, Step, Inv, Exec;
  }

  /** No pid is ever given twice: who has an old pid after the run had it all through the run. */
  lemma {:induction false} PidsNotReused(k: Kernel, es: seq<Event>, p: Slot)
    requires Inv(k) && Exec(k, es).Live(p)
    ensures p < |k.pcb| && p < |Exec(k, es).pcb|
    ensures Exec(k, es).pcb[p].pid < k.nextPid ==> LivesOn(k, es, p) && k.pcb[p].pid == Exec(k, es).pcb[p].pid
  {
    hide Handle, Step, Inv, LivesOn;
    if es == [] {
      LivesNow(k, p);
    } else {
      var t := es[..|es| - 1];
      PidStep(Exec(k, t), es[|es| - 1], p);
      PidsGrow(k, es);
      PidsGrow(k, t);
      if Exec(k, es).pcb[p].pid < k.nextPid {
        PidsNotReused(k, t, p);
        LivesMore(k, es, p);
      }
    }
  }
}
