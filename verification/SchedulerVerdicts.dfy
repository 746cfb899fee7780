/** What the scheduler's verdicts mean: halt, deadlock, and waiting for an interrupt. */
module SchedulerVerdicts {
  import opened Sequences
  import opened KernelState
  import opened KernelSteps
  import opened KernelInvariant
  import opened KernelRuns
  import opened SemaphoreRuns

  /** The CPU's contents and the counters agree with the outcome. */
  ghost predicate OutShape(r: Res) {
    match r.out
    case Resume(_) => r.k.current.Some?
    case PassUp => r.k.current.Some?
    case Dispatch(p, ctx) => r.k.current == Some(p) && ctx == CtxOf(r.k, p)
    case Halt => r.k.current.None? && r.k.processCount == 0
    case Panic => r.k.current.None? && r.k.processCount > 0 && r.k.softBlockCount == 0
    case Idle => r.k.current.None? && r.k.processCount > 0 && r.k.softBlockCount > 0
    case Spin => r.k.current.None? && (r.k.processCount < 0 || r.k.softBlockCount < 0)
  }

  lemma ScheduleShape(k: Kernel, ctx: Context, t: int)
    ensures k.current.None? || k.ready != [] ==> OutShape(Schedule(k, t))
    ensures OutShape(ResumeOrSchedule(k, ctx, t))
  {
  }

  lemma TerminateShape(k: Kernel, pid: int, ctx: Context, t2: int)
    requires Core(k) && k.current.Some?
    ensures OutShape(TerminateProcess(k, pid, ctx, t2))
  {
    var target := if pid == 0 then k.current else FindPid(k, pid);
    assert OnePlace(k, k.current.value);
    if target.Some? {
      ScheduleShape(Kill(k, Post(k, target.value)), SavePc(ctx), t2);
    }
  }

  lemma PasserenShape(k: Kernel, a: Addr, ctx: Context, t1: int, t2: int)
    requires Partition(k) && k.current.Some? && a in k.mem
    ensures OutShape(Passeren(k, a, ctx, t1, t2))
  {
    ScheduleShape(BlockCurrent(LeaveCpu(AddMem(k, a, -1), SavePc(ctx), t1), a), ctx, t2);
  }

  lemma SoftBlockShape(k: Kernel, a: Addr, ctx: Context, t1: int, t2: int)
    requires Partition(k) && k.current.Some? && a in k.mem
    ensures OutShape(SoftBlock(k, a, ctx, t1, t2))
  {
    ScheduleShape(SoftWait(k, a, ctx, t1), ctx, t2);
  }

  lemma YieldShape(k: Kernel, ctx: Context, t1: int, t2: int)
    requires Partition(k) && k.current.Some?
    ensures OutShape(Yield(k, ctx, t1, t2))
  {
    var k1 := LeaveCpu(k, SavePc(ctx), t1);
    ScheduleShape(k1.(ready := k1.ready + [k.current.value], current := None), ctx, t2);
  }

  lemma PLTShape(k: Kernel, ctx: Context, t1: int, t2: int)
    requires Partition(k)
    ensures OutShape(HandlePLT(k, ctx, t1, t2))
  {
    if k.current.Some? {
      ScheduleShape(Enqueue(LeaveCpu(k, ctx, t1), k.current.value), ctx, t2);
    } else {
      ScheduleShape(UpdateCpuTime(k, t1), ctx, t2);
    }
  }

  lemma DeviceShape(k: Kernel, line: int, pending: seq<bool>, regs: DevRegs, ctx: Context, t1: int, t2: int)
    requires Partition(k) && Semaphores(k) && 3 <= line <= 7 && |pending| == 8
    ensures OutShape(HandleDevice(k, line, pending, regs, ctx, t1, t2))
  {
    if FirstPending(pending).Some? {
      var tx := TransmitDone(line, regs);
      var i := IrqIndex(line, FirstPending(pending).value, tx);
      DeviceKey(k, i);
      ScheduleShape(Complete(k, k.Dev(i), if tx then regs.transm else regs.status), ctx, t2);
    }
  }

  lemma TrapShape(k: Kernel, t2: int)
    requires Core(k) && k.current.Some?
    ensures OutShape(PassUpOrDie(k, t2))
  {
    assert OnePlace(k, k.current.value);
    ScheduleShape(Kill(k, Post(k, k.current.value)).(current := None), Context(0, 0, 0), t2);
  }

  lemma StepShape(k: Kernel, e: Event)
    requires Inv(k) && Enabled(k, e)
    ensures OutShape(Handle(k, e))
  {
    match e
    case Syscall(call, ctx, t1, t2) =>
      match call {
        case TermProcessCall(pid) => TerminateShape(k, pid, ctx, t2);
        case PasserenCall(a) => PasserenShape(k, a, ctx, t1, t2);
        case DoIOCall(cmd) =>
          DeviceKey(k, IoIndex(cmd));
          SoftBlockShape(k, k.Dev(IoIndex(cmd)), ctx, t1, t2);
        case ClockWaitCall =>
          DeviceKey(k, CLOCK);
          SoftBlockShape(k, k.Dev(CLOCK), ctx, t1, t2);
        case YieldCall => YieldShape(k, ctx, t1, t2);
        case _ =>
      }
    case Trap(_, t2) => TrapShape(k, t2);
    case Device(line, pending, regs, ctx, t1, t2) => DeviceShape(k, line, pending, regs, ctx, t1, t2);
    case PseudoClock(ctx, t1, t2) =>
      DeviceKey(k, CLOCK);
      ScheduleShape(UpdateCpuTime(DrainClock(k), t1), ctx, t2);
    case PLT(ctx, t1, t2) => PLTShape(k, ctx, t1, t2);
  }

  lemma LiveCount(k: Kernel)
    requires Partition(k) && Counters(k)
    ensures k.processCount == 0 <==> forall p: Slot :: !k.Live(p)
  {
    FreeAtMost(k);
    if forall p: Slot :: !k.Live(p) {
      NoDupCard(k.free);
      assert forall p: Slot :: p in Below(|k.pcb|) ==> k.Live(p) || p in k.free;
      SubsetCard(Below(|k.pcb|), Elems(k.free));
    }
  }

  /** With an empty CPU, after the scheduler ran, the live processes are the blocked ones. */
  lemma EmptyCpu(k: Kernel)
    requires Inv(k) && k.current.None?
    ensures forall p: Slot :: k.Live(p) <==> k.Blocked(p)
    ensures k.softBlockCount >= 0 && (k.softBlockCount > 0 <==> k.SoftSet() != {})
  {
    forall p: Slot
      ensures k.Live(p) <==> k.Blocked(p)
    {
      assert p < |k.pcb| ==> OnePlace(k, p);
    }
    if k.SoftSet() != {} {
      var p :| p in k.SoftSet();
      assert |k.SoftSet()| >= |{p}| by { SubsetCard({p}, k.SoftSet()); }
    }
  }

  /** What a verdict says about the state: HALT, nobody lives; PANIC, somebody lives and everybody is
      blocked on a user semaphore; Idle, everybody is blocked and somebody on a device or the clock. */
  ghost predicate Verdict(r: Res) {
    && r.out != Spin
    && (r.out.Halt? <==> forall p: Slot :: !r.k.Live(p))
    && (r.out.Panic? <==> r.k.current.None? && (exists p: Slot :: r.k.Live(p)) && r.k.SoftSet() == {})
    && (r.out.Idle? <==> r.k.current.None? && r.k.SoftSet() != {})
    && (r.k.current.None? ==> forall p: Slot :: r.k.Live(p) <==> r.k.Blocked(p))
  }

  lemma ShapeVerdict(r: Res)
    requires Inv(r.k) && OutShape(r)
    ensures Verdict(r)
  {
    var l := r.k;
    LiveCount(l);
    FreeAtMost(l);
    if l.current.Some? {
      assert OnePlace(l, l.current.value);
      assert l.Live(l.current.value);
    } else {
      EmptyCpu(l);
      if l.SoftSet() != {} {
        var p :| p in l.SoftSet();
        assert l.Live(p);
      }
    }
  }

  /** In every reachable state every handler's verdict is right, and the scheduler never spins. */
  lemma VerdictsHold(k: Kernel, es: seq<Event>, e: Event)
    requires Inv(k) && Enabled(Exec(k, es), e)
    ensures Verdict(Handle(Exec(k, es), e))
  {
    StepShape(Exec(k, es), e);
    StepKeeps(Exec(k, es), e);
    ShapeVerdict(Handle(Exec(k, es), e));
  }

  // ---- deadlock -----------------------------------------------------------

  predicate IsInterrupt(e: Event) {
    match e
    case PLT(_, _, _) => true
    case PseudoClock(_, _, _) => true
    case Device(line, pending, _, _, _, _) => 3 <= line <= 7 && |pending| == 8
    case _ => false
  }

  /** The interrupt handlers, whether or not the machine stopped. */
  ghost function Interrupt(k: Kernel, e: Event): (l: Kernel)
    requires Inv(k) && IsInterrupt(e)
    ensures Inv(l)
  {
    match e
    case PLT(ctx, t1, t2) => PLTKeeps(k, ctx, t1, t2); HandlePLT(k, ctx, t1, t2).k
    case PseudoClock(ctx, t1, t2) => PseudoClockKeeps(k, ctx, t1, t2); HandlePseudoClock(k, ctx, t1, t2).k
    case Device(line, pending, regs, ctx, t1, t2) =>
      DeviceKeeps(k, line, pending, regs, ctx, t1, t2);
      HandleDevice(k, line, pending, regs, ctx, t1, t2).k
  }

  /** The state after a sequence of interrupts. */
  ghost function Interrupts(k: Kernel, es: seq<Event>): (l: Kernel)
    requires Inv(k) && forall e :: e in es ==> IsInterrupt(e)
    ensures Inv(l)
  {
    if es == [] then k
    else
      assert es[|es| - 1] in es;
      Interrupt(Interrupts(k, es[..|es| - 1]), es[|es| - 1])
  }

  /** No interrupt can wake anybody: nobody waits for the clock, and no device queue exceeds its surplus. */
  ghost predicate Quiet(k: Kernel)
    requires Semaphores(k)
  {
    k.Q(k.Dev(CLOCK)) == [] && forall i :: 0 <= i < CLOCK ==> k.mem[k.Dev(i)] >= 0
  }

  lemma QuietDevice(k: Kernel, line: int, pending: seq<bool>, regs: DevRegs, ctx: Context, t1: int, t2: int)
    requires Inv(k) && k.current.None? && Quiet(k) && 3 <= line <= 7 && |pending| == 8
    ensures var l := HandleDevice(k, line, pending, regs, ctx, t1, t2).k; Inv(l) && l.current.None? && Quiet(l)
  {
    hide Inv, Core, Partition, Semaphores, Forest, DeviceDone, Schedule, Quiet, TransmitDone;
    DeviceKeeps(k, line, pending, regs, ctx, t1, t2);
    SemParts(k);
    SemParts(HandleDevice(k, line, pending, regs, ctx, t1, t2).k);
    match FirstPending(pending)
    case None => QuietSchedule(k, ctx, t2);
    case Some(d) =>
      var tx := TransmitDone(line, regs);
      DeviceKey(k, IrqIndex(line, d, tx));
      QuietDone(k, IrqIndex(line, d, tx), if tx then regs.transm else regs.status, ctx, t1, t2);
  }

  lemma QuietSchedule(k: Kernel, ctx: Context, t: int)
    requires Inv(k) && k.current.None? && Quiet(k)
    ensures var l := ResumeOrSchedule(k, ctx, t).k; l.current.None? && (Semaphores(l) ==> Quiet(l))
  {
    assert forall i :: Schedule(k, t).k.Dev(i) == k.Dev(i);
  }

  lemma QuietDone(k: Kernel, i: int, status: int, ctx: Context, t1: int, t2: int)
    requires Inv(k) && k.current.None? && Quiet(k) && 0 <= i < CLOCK && k.Dev(i) in k.mem
    ensures var l := DeviceDone(k, k.Dev(i), status, ctx, t1, t2).k; l.current.None? && (Semaphores(l) ==> Quiet(l))
  {
    hide Inv, Core, Partition, Semaphores, DeviceDone, Complete;
    SemParts(k);
    RunningSlot(k);
    IdleNotReady(k);
    CompleteEffect(k, k.Dev(i), status);
    CompleteTable(k, k.Dev(i), status);
    DoneKeeps(k, k.Dev(i), status, ctx, t1, t2);
    QuietRaised(k, DeviceDone(k, k.Dev(i), status, ctx, t1, t2).k, i);
  }

  /** One more signal leaves no device semaphore negative. */
  lemma QuietRaised(k: Kernel, l: Kernel, i: int)
    requires Semaphores(k) && Quiet(k) && l.dev == k.dev && l.asl == k.asl && 0 <= i < CLOCK
    requires l.mem == k.mem[k.Dev(i) := k.mem[k.Dev(i)] + 1]
    ensures Semaphores(l) ==> Quiet(l)
  {
    forall j | 0 <= j < CLOCK
      ensures l.Dev(j) == k.Dev(j) && l.Dev(j) in l.mem && l.mem[l.Dev(j)] >= 0
    {
      assert k.mem[k.Dev(j)] >= 0;
    }
  }

  lemma QuietClock(k: Kernel, ctx: Context, t1: int, t2: int)
    requires Inv(k) && k.current.None? && Quiet(k)
    ensures k.Dev(CLOCK) in k.mem
    ensures var l := HandlePseudoClock(k, ctx, t1, t2).k; Inv(l) && l.current.None? && Quiet(l)
  {
    hide Inv, Core, Partition, Semaphores, Forest, Quiet;
    SemParts(k);
    DeviceKey(k, CLOCK);
    PseudoClockKeeps(k, ctx, t1, t2);
    var l := HandlePseudoClock(k, ctx, t1, t2).k;
    SemParts(l);
    IdleNotReady(k);
    QuietClockQueue(k);
    QuietTick(k, ctx, t1, t2);
    QuietCarried(k, l);
  }

  lemma QuietClockQueue(k: Kernel)
    requires Semaphores(k) && Quiet(k)
    ensures k.Q(k.Dev(CLOCK)) == []
  {
  }

  /** With nobody waiting for the clock, and nobody ready, a tick changes nothing but the clock's value. */
  lemma QuietTick(k: Kernel, ctx: Context, t1: int, t2: int)
    requires k.current.None? && k.ready == [] && k.Dev(CLOCK) in k.mem && k.Q(k.Dev(CLOCK)) == [] && Partition(k)
    ensures var l := HandlePseudoClock(k, ctx, t1, t2).k;
      && l.current.None? && l.dev == k.dev && l.mem == k.mem[k.Dev(CLOCK) := 0] && l.Q(k.Dev(CLOCK)) == []
  {
  }

  lemma QuietCarried(k: Kernel, l: Kernel)
    requires Semaphores(k) && Semaphores(l) && Quiet(k) && l.dev == k.dev
    requires l.mem == k.mem[k.Dev(CLOCK) := 0] && l.Q(k.Dev(CLOCK)) == []
    ensures Quiet(l)
  {
    forall j | 0 <= j < CLOCK
      ensures l.mem[l.Dev(j)] >= 0
    {
      assert k.mem[k.Dev(j)] >= 0;
    }
  }

  /** A quiet kernel with an empty CPU stays so under any interrupt. */
  lemma QuietStep(k: Kernel, e: Event)
    requires Inv(k) && k.current.None? && Quiet(k) && IsInterrupt(e)
    ensures Interrupt(k, e).current.None? && Quiet(Interrupt(k, e))
  {
    match e
    case PLT(ctx, t1, t2) =>
      var l := Interrupt(k, e);
      assert forall i :: l.Dev(i) == k.Dev(i);
    case PseudoClock(ctx, t1, t2) => QuietClock(k, ctx, t1, t2);
    case Device(line, pending, regs, ctx, t1, t2) => QuietDevice(k, line, pending, regs, ctx, t1, t2);
  }

  lemma {:induction false} QuietForever(k: Kernel, es: seq<Event>)
    requires Inv(k) && k.current.None? && Quiet(k) && forall e :: e in es ==> IsInterrupt(e)
    ensures var l := Interrupts(k, es); l.current.None? && l.ready == [] && Quiet(l)
  {
    if es != [] {
      assert es[|es| - 1] in es;
      QuietForever(k, es[..|es| - 1]);
      QuietStep(Interrupts(k, es[..|es| - 1]), es[|es| - 1]);
    }
  }

  lemma QueuedIsSoft(k: Kernel, i: int)
    requires Inv(k) && 0 <= i < SEMDEVLEN && k.Q(k.Dev(i)) != []
    ensures k.SoftSet() != {}
  {
    DeviceKey(k, i);
    var p := k.Q(k.Dev(i))[0];
    assert p in k.asl[k.Dev(i)];
    assert p in k.SoftSet();
  }

  lemma {:induction false} EnqueueAllSome(ready: seq<Slot>, q: seq<Slot>, pcb: seq<Pcb>)
    requires q != [] || ready != []
    ensures EnqueueAll(ready, q, pcb) != []
    decreases |q|
  {
    if q != [] {
      EnqueueAllSome(InsertProc(ready, q[0], pcb), q[1..], pcb);
    }
  }

  /** The interrupt of sub-device i alone, at time t. */
  function DeviceEvent(i: int, t: int): Event
    requires 0 <= i < CLOCK
  {
    var tx := i >= 40;
    var j := if tx then i - 8 else i;
    Device(3 + j / 8, seq(8, x => x == j % 8), DevRegs(0, if tx then 5 else 0), Context(0, 0, 0), t, t)
  }

  lemma {:induction false} OnlyPending(pending: seq<bool>, d: nat)
    requires d < |pending| && forall x :: 0 <= x < |pending| ==> (pending[x] <==> x == d)
    ensures FirstPending(pending) == Some(d)
  {
    assert pending[d];
    assert true in pending;
  }

  lemma WakerDevice(k: Kernel, i: int, e: Event)
    requires Inv(k) && k.current.None? && 0 <= i < CLOCK && e == DeviceEvent(i, k.pStart)
    requires k.Dev(i) in k.mem && k.mem[k.Dev(i)] < 0 && k.Q(k.Dev(i)) != []
    ensures IsInterrupt(e) && Interrupt(k, e).current.Some?
  {
    var j := if i >= 40 then i - 8 else i;
    OnlyPending(e.pending, j % 8);
    assert IrqIndex(e.line, j % 8, TransmitDone(e.line, e.regs)) == i;
    CompleteEffect(k, k.Dev(i), if i >= 40 then 5 else 0);
  }

  lemma WakerClock(k: Kernel, e: Event)
    requires Inv(k) && k.current.None? && k.Q(k.Dev(CLOCK)) != []
    requires e == PseudoClock(Context(0, 0, 0), k.pStart, k.pStart)
    ensures IsInterrupt(e) && Interrupt(k, e).current.Some?
  {
    DeviceKey(k, CLOCK);
    EnqueueAllSome(k.ready, k.Q(k.Dev(CLOCK)), k.pcb);
  }

  /** Somebody waits for the clock or a device, so the machine is waiting and not stopped. */
  lemma WaitingAwake(k: Kernel, i: int)
    requires Inv(k) && k.current.None? && 0 <= i < SEMDEVLEN && k.Q(k.Dev(i)) != []
    ensures Awake(k)
  {
    hide Inv;
    QueuedIsSoft(k, i);
    EmptyCpu(k);
  }

  /** An interrupt that can happen and dispatches somebody, when one exists. */
  lemma Waker(k: Kernel) returns (e: Event)
    requires Inv(k) && k.current.None? && !Quiet(k)
    ensures IsInterrupt(e) && Enabled(k, e) && Interrupt(k, e).current.Some?
  {
    hide Interrupt, Inv;
    SemParts(k);
    if k.Q(k.Dev(CLOCK)) != [] {
      e := PseudoClock(Context(0, 0, 0), k.pStart, k.pStart);
      WakerClock(k, e);
      WaitingAwake(k, CLOCK);
    } else {
      var i :| 0 <= i < CLOCK && k.mem[k.Dev(i)] < 0;
      e := DeviceEvent(i, k.pStart);
      DeviceIndex(k, k.Dev(i));
      DeviceKey(k, i);
      WakerDevice(k, i, e);
      WaitingAwake(k, i);
    }
  }

  /** The events of es are interrupts, and each can happen in the state it meets. */
  ghost predicate InterruptRun(k: Kernel, es: seq<Event>)
    requires Inv(k)
  {
    es != [] ==>
      var n := |es| - 1;
      InterruptRun(k, es[..n]) && IsInterrupt(es[n]) && Enabled(Exec(k, es[..n]), es[n])
  }

  lemma InterruptIsStep(k: Kernel, e: Event)
    requires Inv(k) && IsInterrupt(e) && Enabled(k, e)
    ensures Step(k, e) == Interrupt(k, e)
  {
    hide Inv, HandlePLT, HandlePseudoClock, HandleDevice;
  }

  /** Such a run is one of the interrupt handlers. */
  lemma {:induction false} RunInterrupts(k: Kernel, es: seq<Event>)
    requires Inv(k) && InterruptRun(k, es)
    ensures forall e :: e in es ==> IsInterrupt(e)
    ensures Exec(k, es) == Interrupts(k, es)
  {
    hide Inv, IsInterrupt, Enabled, HandlePLT, HandlePseudoClock, HandleDevice;
    if es != [] {
      RunInterrupts(k, es[..|es| - 1]);
      assert es == es[..|es| - 1] + [es[|es| - 1]];
      InterruptIsStep(Exec(k, es[..|es| - 1]), es[|es| - 1]);
    }
  }

  lemma OneInterrupt(k: Kernel, e: Event)
    requires Inv(k) && IsInterrupt(e) && Enabled(k, e)
    ensures InterruptRun(k, [e]) && Exec(k, [e]) == Interrupt(k, e)
  {
    hide Inv, Step, Handle, Interrupt, IsInterrupt, Enabled;
    InterruptIsStep(k, e);
    assert [e][..0] == [] && [e] == [] + [e];
    ExecLast(k, [], e);
  }

  lemma QuietRun(k: Kernel, es: seq<Event>)
    requires Inv(k) && k.current.None? && Quiet(k) && InterruptRun(k, es)
    ensures Exec(k, es).current.None?
  {
    hide Inv, IsInterrupt, InterruptRun, Exec, Interrupts, Quiet;
    SemParts(k);
    RunInterrupts(k, es);
    QuietForever(k, es);
  }

  /** Whether some interrupts that can happen, in any number, make a process run: exactly when not quiet. */
  lemma WakeableIff(k: Kernel)
    requires Inv(k) && k.current.None?
    ensures (exists es :: InterruptRun(k, es) && Exec(k, es).current.Some?) <==> !Quiet(k)
  {
    hide Inv, Interrupt, Exec, Enabled, IsInterrupt, InterruptRun, Quiet;
    SemParts(k);
    if Quiet(k) {
      forall es: seq<Event> | InterruptRun(k, es)
        ensures Exec(k, es).current.None?
      {
        QuietRun(k, es);
      }
    } else {
      var e := Waker(k);
      OneInterrupt(k, e);
    }
  }

  /** PANIC is never wrong: when the scheduler panics no interrupts could ever make a process run. */
  lemma PanicIsDeadlock(k: Kernel)
    requires Inv(k) && k.current.None? && k.SoftSet() == {}
    ensures Quiet(k)
  {
    forall i | 0 <= i < SEMDEVLEN
      ensures k.Q(k.Dev(i)) == []
    {
      if k.Q(k.Dev(i)) != [] {
        QueuedIsSoft(k, i);
      }
    }
    assert forall i :: 0 <= i < CLOCK ==> k.mem[k.Dev(i)] + |k.Q(k.Dev(i))| >= 0;
  }
}
