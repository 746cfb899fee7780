/** What happens to a process's saved state and CPU time, over whole runs. */
module ProcessRuns {
  import opened Sequences
  import opened KernelState
  import opened KernelSteps
  import opened KernelInvariant
  import opened KernelRuns
  import opened SemaphoreRuns

  /** The event takes the running process off the CPU alive. */
  predicate Leaves(k: Kernel, e: Event) {
    k.current.Some? &&
    match e
    case Syscall(PasserenCall(a), _, _, _) => a in k.mem && k.mem[a] <= 0
    case Syscall(DoIOCall(_), _, _, _) => true
    case Syscall(ClockWaitCall, _, _, _) => true
    case Syscall(YieldCall, _, _, _) => true
    case PLT(_, _, _) => true
    case _ => false
  }

  /** The state that is then saved: after the call instruction, or as interrupted. */
  function Saved(e: Event): Context {
    match e
    case Syscall(_, ctx, _, _) => ctx.(pc := ctx.pc + 4)
    case PLT(ctx, _, _) => ctx
    case _ => Context(0, 0, 0)
  }

  /** The process a device interrupt wakes. */
  function WokenBy(k: Kernel, e: Event): Option<Slot> {
    var s := IrqSem(k, e);
    if s.Some? && s.value in k.mem && k.mem[s.value] < 0 && k.Q(s.value) != [] then Some(k.Q(s.value)[0]) else None
  }

  predicate Creates(k: Kernel, e: Event, p: Slot) {
    e.Syscall? && e.call.CreateProcessCall? && k.free != [] && k.free[0] == p
  }

  /** The event charges the running process for the time since p_start. */
  predicate Charges(k: Kernel, e: Event) {
    k.current.Some? &&
    (Leaves(k, e) || IsGetTime(e) || e.PseudoClock? || (e.Device? && FirstPending(e.pending).Some?))
  }

  predicate IsGetTime(e: Event) { e.Syscall? && e.call.GetTimeCall? }

  function NewCtx(k: Kernel, e: Event, p: Slot): Context
    requires p < |k.pcb|
  {
    if Creates(k, e, p) then e.call.child
    else if Leaves(k, e) && k.current == Some(p) then Saved(e)
    else if WokenBy(k, e) == Some(p) then k.pcb[p].ctx.(a0 := IrqStatus(e))
    else k.pcb[p].ctx
  }

  function NewTime(k: Kernel, e: Event, p: Slot): int
    requires p < |k.pcb|
  {
    if Creates(k, e, p) then 0
    else if Charges(k, e) && k.current == Some(p) then k.pcb[p].time + (e.t1 - k.pStart)
    else k.pcb[p].time
  }

  /** Every PCB's saved state and time after the event; and where the next interval starts. */
  ghost predicate PcbEffect(k: Kernel, e: Event, r: Res) {
    && |r.k.pcb| == |k.pcb|
    && (forall p: Slot :: p < |k.pcb| ==> r.k.pcb[p].ctx == NewCtx(k, e, p) && r.k.pcb[p].time == NewTime(k, e, p))
    && k.pStart <= r.k.pStart
    && (Charges(k, e) && !IsGetTime(e) ==> e.t1 <= r.k.pStart)
    && (r.out.Dispatch? ==> r.out.p < |k.pcb| ==> r.out.next == r.k.pcb[r.out.p].ctx)
  }

  lemma SchedulePcb(k: Kernel, ctx: Context, t: int)
    ensures Schedule(k, t).k.pcb == k.pcb && ResumeOrSchedule(k, ctx, t).k.pcb == k.pcb
    ensures k.pStart <= t ==> k.pStart <= Schedule(k, t).k.pStart && k.pStart <= ResumeOrSchedule(k, ctx, t).k.pStart
    ensures var r := Schedule(k, t); r.out.Dispatch? && r.out.p < |k.pcb| ==> r.out.next == k.pcb[r.out.p].ctx
  {
  }

  lemma PasserenPcb(k: Kernel, e: Event, a: Addr)
    requires Partition(k) && k.current.Some? && a in k.mem && e.Syscall? && k.pStart <= e.t1 <= e.t2
    requires e.call == PasserenCall(a)
    ensures PcbEffect(k, e, Passeren(k, a, e.ctx, e.t1, e.t2))
  {
    SchedulePcb(BlockCurrent(LeaveCpu(AddMem(k, a, -1), SavePc(e.ctx), e.t1), a), e.ctx, e.t2);
  }

  lemma SoftBlockPcb(k: Kernel, e: Event, a: Addr)
    requires Partition(k) && k.current.Some? && a in k.mem && e.Syscall? && k.pStart <= e.t1 <= e.t2
    requires e.call.DoIOCall? || e.call.ClockWaitCall?
    ensures PcbEffect(k, e, SoftBlock(k, a, e.ctx, e.t1, e.t2))
  {
    SchedulePcb(SoftWait(k, a, e.ctx, e.t1), e.ctx, e.t2);
  }

  lemma YieldPcb(k: Kernel, e: Event)
    requires Partition(k) && k.current.Some? && e.Syscall? && e.call == YieldCall && k.pStart <= e.t1 <= e.t2
    ensures PcbEffect(k, e, Yield(k, e.ctx, e.t1, e.t2))
  {
    var k1 := LeaveCpu(k, SavePc(e.ctx), e.t1);
    SchedulePcb(k1.(ready := k1.ready + [k.current.value], current := None), e.ctx, e.t2);
  }

  lemma PLTPcb(k: Kernel, e: Event)
    requires Partition(k) && e.PLT? && k.pStart <= e.t1 <= e.t2
    ensures PcbEffect(k, e, HandlePLT(k, e.ctx, e.t1, e.t2))
  {
    if k.current.Some? {
      SchedulePcb(Enqueue(LeaveCpu(k, e.ctx, e.t1), k.current.value), e.ctx, e.t2);
    }
  }

  lemma ClockPcb(k: Kernel, e: Event)
    requires Partition(k) && k.Dev(CLOCK) in k.mem && e.PseudoClock? && k.pStart <= e.t1 <= e.t2
    ensures PcbEffect(k, e, HandlePseudoClock(k, e.ctx, e.t1, e.t2))
  {
    SchedulePcb(UpdateCpuTime(DrainClock(k), e.t1), e.ctx, e.t2);
  }

  lemma DevicePcb(k: Kernel, e: Event)
    requires Partition(k) && Semaphores(k) && e.Device? && k.pStart <= e.t1 <= e.t2
    requires 3 <= e.line <= 7 && |e.pending| == 8
    ensures PcbEffect(k, e, HandleDevice(k, e.line, e.pending, e.regs, e.ctx, e.t1, e.t2))
  {
    if FirstPending(e.pending).Some? {
      var a := IrqSem(k, e).value;
      DeviceKey(k, IrqIndex(e.line, FirstPending(e.pending).value, TransmitDone(e.line, e.regs)));
      DonePcb(k, e, a);
    } else {
      SchedulePcb(k, e.ctx, e.t2);
    }
  }

  lemma DonePcb(k: Kernel, e: Event, a: Addr)
    requires Partition(k) && e.Device? && IrqSem(k, e) == Some(a) && a in k.mem && k.pStart <= e.t1 <= e.t2
    ensures PcbEffect(k, e, DeviceDone(k, a, IrqStatus(e), e.ctx, e.t1, e.t2))
  {
    hide Complete, InsertProc, Schedule;
    CompleteEffect(k, a, IrqStatus(e));
    CompleteTable(k, a, IrqStatus(e));
    var k1 := Complete(k, a, IrqStatus(e));
    SchedulePcb(k1, e.ctx, e.t2);
    if k.mem[a] < 0 && k.Q(a) != [] {
      var p := k.Q(a)[0];
      assert p in k.asl[a];
      assert k.Blocked(p) && OnePlace(k, p);
    }
  }

  lemma CreatePcb(k: Kernel, e: Event)
    requires Partition(k) && k.current.Some? && e.Syscall? && e.call.CreateProcessCall? && k.pStart <= e.t1
    ensures PcbEffect(k, e, CreateProcess(k, e.call.child, e.call.prio, e.call.support, e.ctx))
  {
    if k.free != [] {
      assert k.free[0] in k.free && OnePlace(k, k.free[0]);
    }
  }

  lemma KillTable(k: Kernel, o: seq<Slot>)
    ensures var l := Kill(k, o);
      && |l.pcb| == |k.pcb| && l.pStart == k.pStart
      && forall p: Slot :: p < |k.pcb| ==> l.pcb[p].ctx == k.pcb[p].ctx && l.pcb[p].time == k.pcb[p].time
  {
  }

  lemma KillPcb(k: Kernel, e: Event, o: seq<Slot>, ctx: Context)
    requires k.pStart <= e.t1 <= e.t2 && !Charges(k, e) && !Leaves(k, e) && WokenBy(k, e) == None
    requires forall p :: !Creates(k, e, p)
    ensures PcbEffect(k, e, KillAndGo(k, o, ctx, e.t2)) && PcbEffect(k, e, Die(k, o, e.t2))
  {
    hide Kill, Schedule, Charges, Leaves, Creates, WokenBy;
    KillTable(k, o);
    SchedulePcb(Kill(k, o), SavePc(ctx), e.t2);
    SchedulePcb(Kill(k, o).(current := None), SavePc(ctx), e.t2);
  }

  lemma TerminatePcb(k: Kernel, e: Event)
    requires Core(k) && k.current.Some? && e.Syscall? && e.call.TermProcessCall? && k.pStart <= e.t1 <= e.t2
    ensures PcbEffect(k, e, TerminateProcess(k, e.call.pid, e.ctx, e.t2))
  {
    hide Core, Forest, Partition, KillAndGo, Post;
    RunningLives(k);
    var target := if e.call.pid == 0 then k.current else FindPid(k, e.call.pid);
    if target.Some? {
      KillPcb(k, e, Post(k, target.value), e.ctx);
    }
  }

  lemma SyscallPcb(k: Kernel, e: Event)
    requires Inv(k) && Enabled(k, e) && e.Syscall?
    ensures PcbEffect(k, e, Handle(k, e))
  {
    match e.call
    case CreateProcessCall(_, _, _) => CreatePcb(k, e);
    case TermProcessCall(_) => TerminatePcb(k, e);
    case PasserenCall(a) => PasserenPcb(k, e, a);
    case DoIOCall(cmd) =>
      DeviceKey(k, IoIndex(cmd));
      SoftBlockPcb(k, e, k.Dev(IoIndex(cmd)));
    case ClockWaitCall =>
      DeviceKey(k, CLOCK);
      SoftBlockPcb(k, e, k.Dev(CLOCK));
    case YieldCall => YieldPcb(k, e);
    case _ =>
  }

  lemma TrapPcb(k: Kernel, e: Event)
    requires Core(k) && k.current.Some? && e.Trap? && k.pStart <= e.t1 <= e.t2
    ensures PcbEffect(k, e, PassUpOrDie(k, e.t2))
  {
    hide Core, Forest, Partition, Die, Post;
    RunningLives(k);
    KillPcb(k, e, Post(k, k.current.value), Context(0, 0, 0));
  }

  /** Each event saves the state of the process that leaves the CPU, hands a0 to the one a device wakes,
      and touches no other saved state; it charges the running process only. */
  lemma StepPcb(k: Kernel, e: Event)
    requires Inv(k) && Enabled(k, e)
    ensures PcbEffect(k, e, Handle(k, e))
  {
    match e
    case Syscall(_, _, _, _) => SyscallPcb(k, e);
    case Trap(_, _) => TrapPcb(k, e);
    case PLT(_, _, _) => PLTPcb(k, e);
    case PseudoClock(_, _, _) =>
      DeviceKey(k, CLOCK);
      ClockPcb(k, e);
    case Device(_, _, _, _, _, _) => DevicePcb(k, e);
  }

  // ---- context isolation --------------------------------------------------

  /** p lives and is off the CPU in every state of the run. */
  ghost predicate Away(k: Kernel, es: seq<Event>, p: Slot)
    requires Inv(k)
  {
    Exec(k, es).Live(p) && Exec(k, es).current != Some(p) && (es != [] ==> Away(k, es[..|es| - 1], p))
  }

  /** p's saved state with the device status of each interrupt that woke it in a0. */
  ghost function Expected(k: Kernel, es: seq<Event>, p: Slot): Context
    requires Inv(k) && p < |k.pcb|
  {
    if es == [] then k.pcb[p].ctx
    else
      var n := |es| - 1;
      var m, x := Exec(k, es[..n]), Expected(k, es[..n], p);
      if Enabled(m, es[n]) && WokenBy(m, es[n]) == Some(p) then x.(a0 := IrqStatus(es[n])) else x
  }

  ghost function Wakes(p: Slot): (Kernel, Event) -> bool { (k, e) => WokenBy(k, e) == Some(p) }

  lemma AwayStep(k: Kernel, e: Event, p: Slot)
    requires Inv(k) && k.Live(p) && k.current != Some(p)
    ensures |Step(k, e).pcb| == |k.pcb|
    ensures Step(k, e).pcb[p].ctx ==
      if Enabled(k, e) && WokenBy(k, e) == Some(p) then k.pcb[p].ctx.(a0 := IrqStatus(e)) else k.pcb[p].ctx
    ensures Step(k, e).pcb[p].time == k.pcb[p].time
  {
    hide Handle;
    if Enabled(k, e) {
      StepPcb(k, e);
      assert Creates(k, e, p) ==> p in k.free;
    }
  }

  /** Context isolation: whatever other processes do, a process that is off the CPU keeps the state saved
      when it left, but for a0; and no time is charged to it. */
  lemma {:induction false} ContextKept(k: Kernel, es: seq<Event>, p: Slot)
    requires Inv(k) && Away(k, es, p)
    ensures p < |k.pcb| && p < |Exec(k, es).pcb| && Exec(k, es).pcb[p].ctx == Expected(k, es, p)
    ensures Exec(k, es).pcb[p].time == k.pcb[p].time
  {
    hide Handle, Step;
    if es != [] {
      var n := |es| - 1;
      ContextKept(k, es[..n], p);
      assert Away(k, es[..n], p);
      AwayStep(Exec(k, es[..n]), es[n], p);
    }
  }

  /** When p is dispatched at last, it resumes in exactly that state. */
  lemma ResumesAsSaved(k: Kernel, es: seq<Event>, e: Event, p: Slot)
    requires Inv(k) && Away(k, es, p) && p < |k.pcb|
    requires Enabled(Exec(k, es), e) && Handle(Exec(k, es), e).out.Dispatch? && Handle(Exec(k, es), e).out.p == p
    ensures Handle(Exec(k, es), e).out.next == Expected(k, es + [e], p)
  {
    hide Handle, Inv;
    var m := Exec(k, es);
    ContextKept(k, es, p);
    StepPcb(m, e);
    assert (es + [e])[..|es|] == es;
    assert Creates(m, e, p) ==> p in m.free;
  }
}
