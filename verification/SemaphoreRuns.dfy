/** What semaphores conserve over whole runs: signals, completed P's, and device interrupts nobody heard. */
module SemaphoreRuns {
  import opened Sequences
  import opened KernelState
  import opened KernelSteps
  import opened KernelMoves
  import opened KernelInvariant
  import opened KernelKill
  import opened KernelRuns

  /** Units available plus processes waiting. */
  function Balance(k: Kernel, a: Addr): int
    requires a in k.mem
  {
    k.mem[a] + |k.Q(a)|
  }

  /** The semaphore that an enabled device interrupt signals, if a device is pending. */
  function IrqSem(k: Kernel, e: Event): Option<Addr> {
    if !e.Device? then None
    else match FirstPending(e.pending)
      case None => None
      case Some(d) => Some(k.Dev(IrqIndex(e.line, d, TransmitDone(e.line, e.regs))))
  }

  predicate Signals(k: Kernel, e: Event, a: Addr) {
    (e.Syscall? && e.call == VerhogenCall(a)) || IrqSem(k, e) == Some(a)
  }

  /** e asks for a unit of a: a P, or an I/O request on that device. */
  predicate Waits(k: Kernel, e: Event, a: Addr) {
    e.Syscall? &&
    match e.call
    case PasserenCall(s) => s == a
    case DoIOCall(cmd) => a == k.Dev(IoIndex(cmd))
    case ClockWaitCall => a == k.Dev(CLOCK)
    case _ => false
  }

  /** A signal that wakes nobody. */
  predicate Unheard(k: Kernel, e: Event, a: Addr) { Signals(k, e, a) && a in k.mem && k.mem[a] >= 0 }

  /** A P that does not block. */
  predicate Immediate(k: Kernel, e: Event, a: Addr) {
    e.Syscall? && e.call == PasserenCall(a) && a in k.mem && k.mem[a] > 0
  }

  function Bit(b: bool): int { if b then 1 else 0 }

  /** How an event changes semaphore a and its queue. */
  ghost predicate SemEffect(k: Kernel, e: Event, l: Kernel, a: Addr)
    requires a in k.mem
  {
    && a in l.mem && l.dev == k.dev
    && Balance(l, a) == Balance(k, a) + Bit(Unheard(k, e, a)) - Bit(Immediate(k, e, a))
  }

  /** Nothing but the CPU's contents is decided after the semaphores changed. */
  lemma FinishSem(k: Kernel, ctx: Context, t1: int, t2: int, a: Addr)
    requires a in k.mem && (k.current.Some? ==> k.current.value < |k.pcb|)
    ensures var l := Schedule(k, t2).k; a in l.mem && l.dev == k.dev && Balance(l, a) == Balance(k, a)
    ensures var l := ResumeOrSchedule(k, ctx, t2).k; a in l.mem && l.dev == k.dev && Balance(l, a) == Balance(k, a)
    ensures var l := UpdateCpuTime(k, t1); a in l.mem && l.dev == k.dev && Balance(l, a) == Balance(k, a)
  {
  }

  lemma KillSem(k: Kernel, o: seq<Slot>, a: Addr)
    requires a in k.mem
    ensures a in Kill(k, o).mem && Balance(Kill(k, o), a) == Balance(k, a)
  {
    KillQueuesAt(k.asl, Elems(o), a);
  }

  lemma BlockSem(k: Kernel, s: Addr, ctx: Context, t: int, a: Addr)
    requires k.current.Some? && k.current.value < |k.pcb| && |k.asl| < |k.pcb|
    requires s in k.mem && a in k.mem
    ensures var l := BlockCurrent(LeaveCpu(AddMem(k, s, -1), ctx, t), s);
      a in l.mem && l.dev == k.dev && Balance(l, a) == Balance(k, a)
  {
  }

  lemma WakeSem(k: Kernel, s: Addr, a: Addr)
    requires s in k.mem && a in k.mem && k.Q(s) != []
    ensures var l := WakeOne(AddMem(k, s, 1), s); a in l.mem && l.dev == k.dev && Balance(l, a) == Balance(k, a)
  {
  }

  lemma CompleteSem(k: Kernel, s: Addr, status: int, a: Addr)
    requires Lists(k) && s in k.mem && a in k.mem && (k.mem[s] < 0 ==> k.Q(s) != [])
    ensures var l := Complete(k, s, status);
      && a in l.mem && l.dev == k.dev && l.current == k.current
      && Balance(l, a) == Balance(k, a) + if a == s && k.mem[s] >= 0 then 1 else 0
  {
  }

  lemma DrainSem(k: Kernel, a: Addr)
    requires k.Dev(CLOCK) in k.mem && Balance(k, k.Dev(CLOCK)) == 0 && a in k.mem
    ensures var l := DrainClock(k); a in l.mem && l.dev == k.dev && Balance(l, a) == Balance(k, a)
  {
  }

  lemma PasserenSem(k: Kernel, s: Addr, ctx: Context, t1: int, t2: int, a: Addr)
    requires Partition(k) && k.current.Some? && s in k.mem && a in k.mem
    ensures var l := Passeren(k, s, ctx, t1, t2).k;
      a in l.mem && l.dev == k.dev && Balance(l, a) == Balance(k, a) - if a == s && k.mem[s] > 0 then 1 else 0
  {
    DescriptorFree(k);
    if k.mem[s] <= 0 {
      BlockSem(k, s, SavePc(ctx), t1, a);
    }
  }

  lemma SoftBlockSem(k: Kernel, s: Addr, ctx: Context, t1: int, t2: int, a: Addr)
    requires Partition(k) && k.current.Some? && s in k.mem && a in k.mem
    ensures var l := SoftBlock(k, s, ctx, t1, t2).k; a in l.mem && l.dev == k.dev && Balance(l, a) == Balance(k, a)
  {
    DescriptorFree(k);
    BlockSem(k, s, SavePc(ctx), t1, a);
  }

  lemma VerhogenSem(k: Kernel, s: Addr, ctx: Context, a: Addr)
    requires s in k.mem && a in k.mem && (k.mem[s] < 0 ==> k.Q(s) != [])
    ensures var l := Verhogen(k, s, ctx).k;
      a in l.mem && l.dev == k.dev && Balance(l, a) == Balance(k, a) + if a == s && k.mem[s] >= 0 then 1 else 0
  {
    if k.mem[s] < 0 {
      WakeSem(k, s, a);
    }
  }

  lemma KillAndGoSem(k: Kernel, o: seq<Slot>, ctx: Context, t2: int, a: Addr)
    requires a in k.mem && (k.current.Some? ==> k.current.value < |k.pcb|)
    ensures var l := KillAndGo(k, o, ctx, t2).k; a in l.mem && l.dev == k.dev && Balance(l, a) == Balance(k, a)
  {
    KillSem(k, o, a);
    FinishSem(Kill(k, o), SavePc(ctx), t2, t2, a);
  }

  lemma DieSem(k: Kernel, o: seq<Slot>, t2: int, a: Addr)
    requires a in k.mem
    ensures var l := Die(k, o, t2).k; a in l.mem && l.dev == k.dev && Balance(l, a) == Balance(k, a)
  {
    KillSem(k, o, a);
    FinishSem(Kill(k, o).(current := None), Context(0, 0, 0), t2, t2, a);
  }

  lemma TerminateSem(k: Kernel, pid: int, ctx: Context, t2: int, a: Addr)
    requires Core(k) && k.current.Some? && a in k.mem
    ensures var l := TerminateProcess(k, pid, ctx, t2).k; a in l.mem && l.dev == k.dev && Balance(l, a) == Balance(k, a)
  {
    var target := if pid == 0 then k.current else FindPid(k, pid);
    assert OnePlace(k, k.current.value);
    if target.Some? {
      KillAndGoSem(k, Post(k, target.value), ctx, t2, a);
    }
  }

  lemma SyscallSem(k: Kernel, e: Event, a: Addr)
    requires Inv(k) && Enabled(k, e) && e.Syscall? && a in k.mem
    ensures SemEffect(k, e, Handle(k, e).k, a)
  {
    hide Passeren, Verhogen, SoftBlock, TerminateProcess, Core, Partition, Inv, Semaphores, Forest;
    SemParts(k);
    match e.call
    case TermProcessCall(pid) => TerminateSem(k, pid, e.ctx, e.t2, a);
    case PasserenCall(s) => PasserenSem(k, s, e.ctx, e.t1, e.t2, a);
    case VerhogenCall(s) => VerhogenSem(k, s, e.ctx, a);
    case DoIOCall(cmd) =>
      DeviceKey(k, IoIndex(cmd));
      SoftBlockSem(k, k.Dev(IoIndex(cmd)), e.ctx, e.t1, e.t2, a);
    case ClockWaitCall =>
      DeviceKey(k, CLOCK);
      SoftBlockSem(k, k.Dev(CLOCK), e.ctx, e.t1, e.t2, a);
    case _ =>
  }

  lemma DeviceSem(k: Kernel, e: Event, a: Addr)
    requires Inv(k) && Enabled(k, e) && e.Device? && a in k.mem
    ensures SemEffect(k, e, Handle(k, e).k, a)
  {
    hide Inv, Core, Partition, Semaphores, Forest, Complete, Schedule, UpdateCpuTime, TransmitDone;
    SemParts(k);
    var s := IrqSem(k, e);
    if s.Some? {
      var tx := TransmitDone(e.line, e.regs);
      DeviceKey(k, IrqIndex(e.line, FirstPending(e.pending).value, tx));
      DoneSem(k, s.value, if tx then e.regs.transm else e.regs.status, e.ctx, e.t1, e.t2, a);
    } else {
      RunningSlot(k);
      FinishSem(k, e.ctx, e.t1, e.t2, a);
    }
  }

  lemma RunningSlot(k: Kernel)
    requires Partition(k)
    ensures Lists(k) && (k.current.Some? ==> k.current.value < |k.pcb|)
  {
  }

  lemma DoneSem(k: Kernel, s: Addr, status: int, ctx: Context, t1: int, t2: int, a: Addr)
    requires Partition(k) && Semaphores(k) && s in k.mem && k.IsDevice(s) && (s - k.dev) % 4 == 0 && a in k.mem
    ensures var l := DeviceDone(k, s, status, ctx, t1, t2).k;
      a in l.mem && l.dev == k.dev && Balance(l, a) == Balance(k, a) + if a == s && k.mem[s] >= 0 then 1 else 0
  {
    hide Partition, Semaphores, Schedule, Complete, UpdateCpuTime;
    RunningSlot(k);
    DeviceIndex(k, s);
    CompleteSem(k, s, status, a);
    CompleteTable(k, s, status);
    FinishSem(Complete(k, s, status), ctx, t1, t2, a);
  }

  lemma CompleteTable(k: Kernel, s: Addr, status: int)
    requires Lists(k) && s in k.mem
    ensures var l := Complete(k, s, status);
      |l.pcb| == |k.pcb| && l.current == k.current && l.dev == k.dev && l.pStart == k.pStart
  {
    if k.mem[s] < 0 && k.Q(s) != [] {
      assert k.Q(s)[0] in k.asl[s];
    }
  }

  lemma ClockSem(k: Kernel, ctx: Context, t1: int, t2: int, a: Addr)
    requires Partition(k) && k.Dev(CLOCK) in k.mem && Balance(k, k.Dev(CLOCK)) == 0 && a in k.mem
    ensures var l := HandlePseudoClock(k, ctx, t1, t2).k;
      a in l.mem && l.dev == k.dev && Balance(l, a) == Balance(k, a)
  {
    DrainSem(k, a);
    FinishSem(DrainClock(k), ctx, t1, t2, a);
    FinishSem(UpdateCpuTime(DrainClock(k), t1), ctx, t1, t2, a);
  }

  lemma PLTSem(k: Kernel, ctx: Context, t1: int, t2: int, a: Addr)
    requires Partition(k) && a in k.mem
    ensures var l := HandlePLT(k, ctx, t1, t2).k; a in l.mem && l.dev == k.dev && Balance(l, a) == Balance(k, a)
  {
  }

  lemma TrapSem(k: Kernel, t2: int, a: Addr)
    requires Core(k) && k.current.Some? && a in k.mem
    ensures var l := PassUpOrDie(k, t2).k; a in l.mem && l.dev == k.dev && Balance(l, a) == Balance(k, a)
  {
    assert OnePlace(k, k.current.value);
    DieSem(k, Post(k, k.current.value), t2, a);
  }

  lemma StepSem(k: Kernel, e: Event, a: Addr)
    requires Inv(k) && Enabled(k, e) && a in k.mem
    ensures SemEffect(k, e, Handle(k, e).k, a)
  {
    hide HandlePLT, HandlePseudoClock, HandleDevice, PassUpOrDie, Inv, Core, Partition, Semaphores, SemEffect;
    hide CreateProcess, TerminateProcess, Passeren, Verhogen, SoftBlock, GetCpuTime, GetProcessId, Yield;
    SemParts(k);
    match e
    case Syscall(_, _, _, _) => SyscallSem(k, e, a);
    case Trap(_, t2) =>
      TrapSem(k, t2, a);
      NoSignal(k, e, PassUpOrDie(k, t2).k, a);
    case PLT(ctx, t1, t2) =>
      PLTSem(k, ctx, t1, t2, a);
      NoSignal(k, e, HandlePLT(k, ctx, t1, t2).k, a);
    case PseudoClock(ctx, t1, t2) =>
      ClockParts(k);
      ClockSem(k, ctx, t1, t2, a);
      NoSignal(k, e, HandlePseudoClock(k, ctx, t1, t2).k, a);
    case Device(_, _, _, _, _, _) => DeviceSem(k, e, a);
  }

  lemma ClockParts(k: Kernel)
    requires Semaphores(k)
    ensures k.Dev(CLOCK) in k.mem && Balance(k, k.Dev(CLOCK)) == 0
  {
  }

  lemma NoSignal(k: Kernel, e: Event, l: Kernel, a: Addr)
    requires !e.Syscall? && !e.Device? && a in k.mem
    requires a in l.mem && l.dev == k.dev && Balance(l, a) == Balance(k, a)
    ensures SemEffect(k, e, l, a)
  {
  }

  // ---- whole runs ---------------------------------------------------------

  /** How many events of a run satisfy f when they happen. */
  ghost function CountIf(k: Kernel, es: seq<Event>, f: (Kernel, Event) -> bool): nat
    requires Inv(k)
  {
    if es == [] then 0
    else
      var n := |es| - 1;
      var m := Exec(k, es[..n]);
      CountIf(k, es[..n], f) + if Enabled(m, es[n]) && f(m, es[n]) then 1 else 0
  }

  /** A P on a that completes now: at once, or because this V wakes its caller. */
  predicate Completes(k: Kernel, e: Event, a: Addr) {
    Immediate(k, e, a) || (e.Syscall? && e.call == VerhogenCall(a) && a in k.mem && k.mem[a] < 0)
  }

  predicate IsV(e: Event, a: Addr) { e.Syscall? && e.call == VerhogenCall(a) }

  // the same, as events to count
  function UnheardOn(a: Addr): (Kernel, Event) -> bool { (k, e) => Unheard(k, e, a) }
  function ImmediateOn(a: Addr): (Kernel, Event) -> bool { (k, e) => Immediate(k, e, a) }
  function CompletesOn(a: Addr): (Kernel, Event) -> bool { (k, e) => Completes(k, e, a) }
  function VOn(a: Addr): (Kernel, Event) -> bool { (k, e) => IsV(e, a) }

  function Units(v: int): nat { if v >= 0 then v else 0 }

  /** The balance of a moves by unheard signals and immediate P's only, whatever else happens. */
  lemma {:induction false} BalanceOverRuns(k: Kernel, es: seq<Event>, a: Addr)
    requires Inv(k) && a in k.mem
    ensures var l := Exec(k, es);
      && a in l.mem && l.dev == k.dev
      && Balance(l, a) == Balance(k, a)
           + CountIf(k, es, UnheardOn(a)) - CountIf(k, es, ImmediateOn(a))
  {
    if es != [] {
      var n := |es| - 1;
      BalanceOverRuns(k, es[..n], a);
      var m := Exec(k, es[..n]);
      if Enabled(m, es[n]) {
        StepSem(m, es[n], a);
      }
    }
  }

  lemma UserBalance(k: Kernel, a: Addr)
    requires Semaphores(k) && UserSem(k, a)
    ensures Balance(k, a) == Units(k.mem[a]) && |k.Q(a)| == Units(-k.mem[a])
  {
  }

  lemma UserIsNoDevice(k: Kernel, e: Event, a: Addr)
    requires Inv(k) && Enabled(k, e) && UserSem(k, a)
    ensures IrqSem(k, e) != Some(a)
  {
    if e.Device? && FirstPending(e.pending).Some? {
      DeviceKey(k, IrqIndex(e.line, FirstPending(e.pending).value, TransmitDone(e.line, e.regs)));
    }
  }

  lemma ConservationStep(k: Kernel, e: Event, a: Addr)
    requires Inv(k) && Enabled(k, e) && UserSem(k, a)
    ensures var l := Handle(k, e).k;
      UserSem(l, a) && Units(l.mem[a]) == Units(k.mem[a]) + Bit(IsV(e, a)) - Bit(Completes(k, e, a))
  {
    StepSem(k, e, a);
    UserIsNoDevice(k, e, a);
    UserBalance(k, a);
    StepKeeps(k, e);
    UserBalance(Handle(k, e).k, a);
  }

  /** The same for an event that may have been skipped. */
  lemma ConservationStepOrSkip(k: Kernel, e: Event, a: Addr)
    requires Inv(k) && UserSem(k, a)
    ensures var l := Step(k, e);
      && UserSem(l, a)
      && Units(l.mem[a]) == Units(k.mem[a]) + Bit(Enabled(k, e) && IsV(e, a)) - Bit(Enabled(k, e) && Completes(k, e, a))
  {
    if Enabled(k, e) {
      ConservationStep(k, e, a);
    }
  }

  lemma {:induction false} UnitsOverRuns(k: Kernel, es: seq<Event>, a: Addr)
    requires Inv(k) && UserSem(k, a)
    ensures var l := Exec(k, es);
      UserSem(l, a) && Units(l.mem[a]) == Units(k.mem[a]) + CountIf(k, es, VOn(a)) - CountIf(k, es, CompletesOn(a))
  {
    if es != [] {
      UnitsOverRuns(k, es[..|es| - 1], a);
      ConservationStepOrSkip(Exec(k, es[..|es| - 1]), es[|es| - 1], a);
    }
  }

  /** Semaphore conservation: initial units + V's - completed P's = units left, over every run;
      and exactly as many processes wait as units are missing. */
  lemma Conservation(k: Kernel, es: seq<Event>, a: Addr)
    requires Inv(k) && UserSem(k, a)
    ensures var l := Exec(k, es);
      && UserSem(l, a) && |l.Q(a)| == Units(-l.mem[a])
      && Units(l.mem[a]) == Units(k.mem[a]) + CountIf(k, es, VOn(a)) - CountIf(k, es, CompletesOn(a))
  {
    UnitsOverRuns(k, es, a);
    UserBalance(Exec(k, es), a);
  }

  /** After the run es from k, the value of a plus the length of its queue is the number of its interrupts
      in the run that woke nobody. */
  ghost predicate SurplusIs(k: Kernel, es: seq<Event>, a: Addr)
    requires Inv(k)
  {
    var l := Exec(k, es);
    a in l.mem && l.mem[a] + |l.Q(a)| == CountIf(k, es, UnheardOn(a))
  }

  lemma SurplusOverRuns(k: Kernel, es: seq<Event>, a: Addr)
    requires Inv(k) && a in k.mem && k.IsDevice(a) && Balance(k, a) == 0
    ensures SurplusIs(k, es, a)
  {
    BalanceOverRuns(k, es, a);
    NoImmediate(k, es, a);
  }

  /** Device surplus: from boot, value plus queue length is the number of interrupts that woke nobody. */
  lemma DeviceSurplus(n: nat, dev: Addr, mem: map<Addr, int>, init: Context, t: int, es: seq<Event>, i: int)
    requires BootOk(n, dev, mem) && 0 <= i < CLOCK
    ensures SurplusIs(Booted(n, dev, mem, init, t), es, dev + 4 * i)
  {
    hide Inv, BootOk, Booted, SurplusIs;
    var k := Booted(n, dev, mem, init, t);
    SurplusOverRuns(k, es, k.Dev(i));
  }

  lemma {:induction false} NoImmediate(k: Kernel, es: seq<Event>, a: Addr)
    requires Inv(k) && a in k.mem && k.IsDevice(a)
    ensures CountIf(k, es, ImmediateOn(a)) == 0
  {
    if es != [] {
      NoImmediate(k, es[..|es| - 1], a);
      BalanceOverRuns(k, es[..|es| - 1], a);
    }
  }

  /** The surplus of a device, value plus queue length, never shrinks, whatever happens. */
  lemma SurplusGrows(k: Kernel, es: seq<Event>, a: Addr)
    requires Inv(k) && a in k.mem && k.IsDevice(a)
    ensures a in Exec(k, es).mem && Balance(Exec(k, es), a) >= Balance(k, a)
  {
    hide Handle, Step, Inv;
    BalanceOverRuns(k, es, a);
    NoImmediate(k, es, a);
  }

  // ---- who hears a device -------------------------------------------------

  lemma CompleteEffect(k: Kernel, a: Addr, status: int)
    requires Lists(k) && a in k.mem
    ensures var l, q := Complete(k, a, status), k.Q(a);
      && l.mem == k.mem[a := k.mem[a] + 1] && l.current == k.current
      && if k.mem[a] < 0 && q != [] then
           && q[0] < |k.pcb| && l.Q(a) == q[1..] && l.ready == InsertProc(k.ready, q[0], l.pcb)
           && l.pcb == k.pcb[q[0] := k.pcb[q[0]].(ctx := k.pcb[q[0]].ctx.(a0 := status))]
         else l == k.(mem := l.mem)
  {
    if k.mem[a] < 0 && k.Q(a) != [] {
      assert k.Q(a)[0] in k.asl[a];
      InsertProcPrio(k.ready, k.Q(a)[0], k.pcb, Complete(k, a, status).pcb);
    }
  }

  /** The status handleDevice reads and acknowledges. */
  function IrqStatus(e: Event): int
    requires e.Device?
  {
    if TransmitDone(e.line, e.regs) then e.regs.transm else e.regs.status
  }

  /** A device interrupt wakes the oldest waiter, handing it the status, exactly when more processes
      wait than the surplus; otherwise it only adds to the surplus. */
  lemma InterruptWakes(k: Kernel, e: Event, a: Addr)
    requires Inv(k) && Enabled(k, e) && IrqSem(k, e) == Some(a)
    ensures a in k.mem && a in Handle(k, e).k.mem
    ensures var l, q := Handle(k, e).k, k.Q(a);
      if |q| > Balance(k, a) then
        && q != [] && l.Q(a) == q[1..] && Balance(l, a) == Balance(k, a)
        && q[0] < |k.pcb| && q[0] < |l.pcb| && l.pcb[q[0]].ctx == k.pcb[q[0]].ctx.(a0 := IrqStatus(e))
        && (q[0] in l.ready || l.current == Some(q[0]))
      else
        && l.Q(a) == q && Balance(l, a) == Balance(k, a) + 1
        && l.ready == k.ready && l.current == k.current
  {
    hide Inv, Core, Partition, Semaphores, Forest, DeviceDone, Complete, TransmitDone, InsertProc;
    SemParts(k);
    RunningSlot(k);
    DeviceKey(k, IrqIndex(e.line, FirstPending(e.pending).value, TransmitDone(e.line, e.regs)));
    DeviceIndex(k, a);
    CompleteEffect(k, a, IrqStatus(e));
    CompleteTable(k, a, IrqStatus(e));
    IdleNotReady(k);
    DoneKeeps(k, a, IrqStatus(e), e.ctx, e.t1, e.t2);
  }

  lemma IdleNotReady(k: Kernel)
    requires Inv(k)
    ensures k.current.None? ==> k.ready == []
  {
  }

  /** After the V handleDevice only charges time, or lets the scheduler take the head of the ready queue. */
  lemma DoneKeeps(k: Kernel, a: Addr, status: int, ctx: Context, t1: int, t2: int)
    requires Lists(k) && a in k.mem && |Complete(k, a, status).pcb| == |k.pcb|
    ensures var m, l := Complete(k, a, status), DeviceDone(k, a, status, ctx, t1, t2).k;
      && l.mem == m.mem && l.dev == m.dev && l.asl == m.asl && |l.pcb| == |m.pcb|
      && (forall p: Slot :: p < |m.pcb| ==> l.pcb[p].ctx == m.pcb[p].ctx)
      && (forall p :: p in m.ready ==> p in l.ready || l.current == Some(p))
      && (m.current.Some? || m.ready == [] ==> l.ready == m.ready && (m.current.Some? ==> l.current == m.current))
      && (m.current.None? && m.ready == [] ==> l.current == None)
  {
    hide Complete;
    CompleteTable(k, a, status);
    var m := Complete(k, a, status);
    if m.ready != [] {
      assert m.ready == [m.ready[0]] + m.ready[1..];
    }
  }
}
