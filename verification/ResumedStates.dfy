/** In which state a process goes on that keeps the CPU, and what its system calls answer. */
module ResumedStates {
  import opened Sequences
  import opened KernelState
  import opened KernelSteps
  import opened KernelInvariant
  import opened KernelRuns
  import opened SemaphoreRuns
  import opened ProcessRuns
  import opened CpuStays
  import opened SchedulerVerdicts

  /** The calls that return a value in a0 to a caller that goes on. */
  predicate Answers(c: Call) {
    c.CreateProcessCall? || c.GetTimeCall? || c.GetSupportPtrCall? || c.GetProcessIdCall?
  }

  /** c is the state the event found, after the call instruction if it is a call, but for the value returned. */
  predicate GoesOnAs(e: Event, c: Context) {
    match e
    case Syscall(call, ctx, _, _) => c.pc == ctx.pc + 4 && c.regs == ctx.regs && (Answers(call) || c.a0 == ctx.a0)
    case PseudoClock(ctx, _, _) => c == ctx
    case Device(_, _, _, ctx, _, _) => c == ctx
    case _ => false
  }

  /** If a process goes on it is the one that ran, in that state; an interrupt of the clock or a device lets it go on,
      and so does a call that neither blocks nor yields; only a trap is passed up, and that changes nothing. */
  ghost predicate ResumeEffect(k: Kernel, e: Event, r: Res) {
    && (r.out.Resume? ==> k.current.Some? && r.k.current == k.current && GoesOnAs(e, r.out.ctx))
    && (k.current.Some? && (e.PseudoClock? || e.Device?) ==> r.out.Resume?)
    && (e.Syscall? && !e.call.TermProcessCall? ==> (r.out.Resume? <==> !Leaves(k, e)))
    && (r.out.PassUp? ==> e.Trap? && r.k == k)
  }

  lemma NotResumed(k: Kernel, e: Event, l: Kernel)
    requires k.current.None? || !(e.PseudoClock? || e.Device?)
    requires e.Syscall? && !e.call.TermProcessCall? ==> Leaves(k, e)
    ensures ResumeEffect(k, e, Schedule(l, e.t2))
  {
  }

  lemma PasserenResumes(k: Kernel, e: Event, a: Addr)
    requires Partition(k) && k.current.Some? && a in k.mem && e.Syscall? && e.call == PasserenCall(a)
    ensures ResumeEffect(k, e, Passeren(k, a, e.ctx, e.t1, e.t2))
  {
    hide Schedule;
    if k.mem[a] <= 0 {
      NotResumed(k, e, BlockCurrent(LeaveCpu(AddMem(k, a, -1), SavePc(e.ctx), e.t1), a));
    }
  }

  lemma VerhogenResumes(k: Kernel, e: Event, a: Addr)
    requires k.current.Some? && a in k.mem && e.Syscall? && e.call == VerhogenCall(a)
    ensures ResumeEffect(k, e, Verhogen(k, a, e.ctx))
  {
    hide InsertProc, SetQ;
  }

  lemma BlockedNotResumed(k: Kernel, e: Event, a: Addr)
    requires Partition(k) && k.current.Some? && a in k.mem && e.Syscall?
    requires e.call.DoIOCall? || e.call.ClockWaitCall? || e.call.YieldCall?
    ensures ResumeEffect(k, e, SoftBlock(k, a, e.ctx, e.t1, e.t2)) && ResumeEffect(k, e, Yield(k, e.ctx, e.t1, e.t2))
  {
    hide Schedule, ResumeEffect;
    NotResumed(k, e, SoftWait(k, a, e.ctx, e.t1));
    var k1 := LeaveCpu(k, SavePc(e.ctx), e.t1);
    NotResumed(k, e, k1.(ready := k1.ready + [k.current.value], current := None));
  }

  lemma KillCurrent(k: Kernel, o: seq<Slot>)
    ensures Kill(k, o).current.None? || Kill(k, o).current == k.current
  {
  }

  lemma KillResumes(k: Kernel, e: Event, o: seq<Slot>)
    requires k.current.Some? && (e.Syscall? && e.call.TermProcessCall?)
    ensures ResumeEffect(k, e, KillAndGo(k, o, e.ctx, e.t2))
  {
    hide Schedule, Kill;
    KillCurrent(k, o);
    if Kill(k, o).current.None? {
      NotResumed(k, e, Kill(k, o));
    }
  }

  lemma TerminateResumes(k: Kernel, e: Event)
    requires Core(k) && k.current.Some? && e.Syscall? && e.call.TermProcessCall?
    ensures ResumeEffect(k, e, TerminateProcess(k, e.call.pid, e.ctx, e.t2))
  {
    hide Core, Forest, Partition, KillAndGo, Post;
    RunningLives(k);
    var target := if e.call.pid == 0 then k.current else FindPid(k, e.call.pid);
    if target.Some? {
      KillResumes(k, e, Post(k, target.value));
    }
  }

  lemma SyscallResumes(k: Kernel, e: Event)
    requires Inv(k) && Enabled(k, e) && e.Syscall?
    ensures ResumeEffect(k, e, Handle(k, e))
  {
    hide Inv, Core, Partition, Semaphores, Passeren, Verhogen, SoftBlock, TerminateProcess, Yield, AddChild;
    hide ResumeEffect;
    SemParts(k);
    match e.call
    case TermProcessCall(_) => TerminateResumes(k, e);
    case PasserenCall(a) => PasserenResumes(k, e, a);
    case VerhogenCall(a) => VerhogenResumes(k, e, a);
    case DoIOCall(cmd) =>
      DeviceKey(k, IoIndex(cmd));
      BlockedNotResumed(k, e, k.Dev(IoIndex(cmd)));
    case ClockWaitCall =>
      DeviceKey(k, CLOCK);
      BlockedNotResumed(k, e, k.Dev(CLOCK));
    case YieldCall =>
      DeviceKey(k, CLOCK);
      BlockedNotResumed(k, e, k.Dev(CLOCK));
    case _ => AnsweredResumes(k, e);
  }

  lemma AnsweredResumes(k: Kernel, e: Event)
    requires Inv(k) && Enabled(k, e) && e.Syscall? && Answers(e.call)
    ensures ResumeEffect(k, e, Handle(k, e)) && Handle(k, e).out.Resume?
  {
    hide Inv, Core, Semaphores, InsertProc;
    SemParts(k);
  }

  lemma TrapNotResumed(k: Kernel, e: Event)
    requires Core(k) && k.current.Some? && e.Trap?
    ensures ResumeEffect(k, e, PassUpOrDie(k, e.t2))
  {
    hide Core, Forest, Partition, Schedule, Post;
    RunningLives(k);
    NotResumed(k, e, Kill(k, Post(k, k.current.value)).(current := None));
  }

  lemma PLTNotResumed(k: Kernel, e: Event)
    requires Partition(k) && e.PLT?
    ensures ResumeEffect(k, e, HandlePLT(k, e.ctx, e.t1, e.t2))
  {
    hide Schedule, ResumeEffect;
    if k.current.Some? {
      NotResumed(k, e, Enqueue(LeaveCpu(k, e.ctx, e.t1), k.current.value));
    } else {
      NotResumed(k, e, UpdateCpuTime(k, e.t1));
    }
  }

  lemma ClockResumes(k: Kernel, e: Event)
    requires Partition(k) && k.Dev(CLOCK) in k.mem && e.PseudoClock?
    ensures ResumeEffect(k, e, HandlePseudoClock(k, e.ctx, e.t1, e.t2))
  {
    hide Schedule, EnqueueAll;
    if k.current.None? {
      NotResumed(k, e, UpdateCpuTime(DrainClock(k), e.t1));
    }
  }

  lemma DeviceResumes(k: Kernel, e: Event)
    requires Partition(k) && Semaphores(k) && e.Device? && 3 <= e.line <= 7 && |e.pending| == 8
    ensures ResumeEffect(k, e, HandleDevice(k, e.line, e.pending, e.regs, e.ctx, e.t1, e.t2))
  {
    hide Schedule, Semaphores, TransmitDone, Complete;
    match FirstPending(e.pending)
    case None =>
      if k.current.None? {
        NotResumed(k, e, k);
      }
    case Some(d) =>
      var a := k.Dev(IrqIndex(e.line, d, TransmitDone(e.line, e.regs)));
      DeviceKey(k, IrqIndex(e.line, d, TransmitDone(e.line, e.regs)));
      CompleteTable(k, a, IrqStatus(e));
      if k.current.None? {
        NotResumed(k, e, Complete(k, a, IrqStatus(e)));
      }
  }

  /** Only the process that ran goes on: four bytes further after a call, exactly as interrupted after a tick or a
      device interrupt, no register changed but the a0 of the four calls that answer. */
  lemma StepResumes(k: Kernel, e: Event)
    requires Inv(k) && Enabled(k, e)
    ensures ResumeEffect(k, e, Handle(k, e))
  {
    hide Inv, Core, Partition, Semaphores, PassUpOrDie, HandlePLT, HandlePseudoClock, HandleDevice, ResumeEffect;
    SemParts(k);
    match e
    case Syscall(_, _, _, _) => SyscallResumes(k, e);
    case Trap(_, _) => TrapNotResumed(k, e);
    case PLT(_, _, _) => PLTNotResumed(k, e);
    case PseudoClock(_, _, _) =>
      DeviceKey(k, CLOCK);
      ClockResumes(k, e);
    case Device(_, _, _, _, _, _) => DeviceResumes(k, e);
  }

  /** A tick or a device interrupt lets the interrupted process go on exactly as it was. */
  lemma InterruptedUnchanged(k: Kernel, e: Event)
    requires Inv(k) && Enabled(k, e) && k.current.Some? && (e.PseudoClock? || e.Device?)
    ensures Handle(k, e).out == Resume(e.ctx) && Handle(k, e).k.current == k.current
  {
    hide Handle, Inv;
    StepResumes(k, e);
  }

  /** If somebody holds the CPU after the event and nobody was dispatched, it went on, or its trap was passed up. */
  lemma KeepsOrResumes(k: Kernel, e: Event)
    requires Inv(k) && Enabled(k, e)
    ensures var r := Handle(k, e);
      r.k.current.Some? && !r.out.Dispatch? ==> if e.Trap? then r.out == PassUp else r.out.Resume?
  {
    hide Handle, Inv;
    StepShape(k, e);
    StepResumes(k, e);
  }

  lemma StaysAt(k: Kernel, es: seq<Event>, p: Slot, i: nat)
    requires Inv(k) && Stays(k, es, p) && i <= |es|
    ensures Stays(k, es[..i], p)
    decreases |es|
  {
    hide Handle, Step, Inv, Exec, Enabled;
    if i < |es| {
      StaysAt(k, es[..|es| - 1], p, i);
      assert es[..|es| - 1][..i] == es[..i];
    } else {
      assert es[..i] == es;
    }
  }

  lemma StaysCurrent(k: Kernel, es: seq<Event>, p: Slot)
    requires Inv(k) && Stays(k, es, p)
    ensures Exec(k, es).current == Some(p)
  {
    hide Handle, Step, Inv, Exec;
  }

  lemma StaysLast(k: Kernel, es: seq<Event>, p: Slot)
    requires Inv(k) && es != [] && Stays(k, es, p) && Enabled(Exec(k, es[..|es| - 1]), es[|es| - 1])
    ensures var r := Handle(Exec(k, es[..|es| - 1]), es[|es| - 1]); r.k.current == Some(p) && !r.out.Dispatch?
  {
    hide Handle, Inv;
  }

  /** Over whole runs: while p keeps the CPU every event finds it there, and after the event it goes on as that event
      found it, after its call if it was one, or its trap is passed up. */
  lemma StayResumes(k: Kernel, es: seq<Event>, p: Slot, i: nat)
    requires Inv(k) && Stays(k, es, p) && i < |es| && Enabled(Exec(k, es[..i]), es[i])
    ensures var m, e := Exec(k, es[..i]), es[i]; var r := Handle(m, e);
      && m.current == Some(p) && r.k.current == Some(p)
      && if e.Trap? then r.out == PassUp else r.out.Resume? && GoesOnAs(e, r.out.ctx)
  {
    hide Handle, Step, Inv, Exec, Enabled;
    StaysAt(k, es, p, i);
    StaysAt(k, es, p, i + 1);
    StaysCurrent(k, es[..i], p);
    assert es[..i + 1][..i] == es[..i];
    StaysLast(k, es[..i + 1], p);
    StepResumes(Exec(k, es[..i]), es[i]);
    KeepsOrResumes(Exec(k, es[..i]), es[i]);
  }
}
