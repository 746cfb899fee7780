/** Interrupts that find nobody waiting are counted, and whoever waits later may wait for ever. */
module LostWakeups {
  import opened Sequences
  import opened KernelState
  import opened KernelSteps
  import opened KernelMoves
  import opened KernelInvariant
  import opened KernelRuns
  import opened SemaphoreRuns
  import opened SchedulerVerdicts

  // ---- whom interrupts alone can wake -------------------------------------

  /** How many of es are interrupts of the device semaphore a. */
  function CountIrqs(k: Kernel, es: seq<Event>, a: Addr): nat {
    if es == [] then 0
    else CountIrqs(k, es[..|es| - 1], a) + if IrqSem(k, es[|es| - 1]) == Some(a) then 1 else 0
  }

  /** One interrupt: the queue of a device loses its head exactly if the interrupt is the device's and more wait than
      the surplus; if the interrupt is the device's and wakes nobody the surplus grows; else nothing changes there. */
  ghost predicate IrqEffect(k: Kernel, e: Event, l: Kernel, a: Addr)
    requires a in k.mem
  {
    && a in l.mem && l.dev == k.dev
    && if IrqSem(k, e) != Some(a) then l.Q(a) == k.Q(a) && Balance(l, a) == Balance(k, a)
       else if |k.Q(a)| > Balance(k, a) then k.Q(a) != [] && l.Q(a) == k.Q(a)[1..] && Balance(l, a) == Balance(k, a)
       else l.Q(a) == k.Q(a) && Balance(l, a) == Balance(k, a) + 1
  }

  lemma DeviceIrq(k: Kernel, e: Event, a: Addr)
    requires Inv(k) && IsInterrupt(e) && e.Device? && a in k.mem
    ensures IrqEffect(k, e, Interrupt(k, e), a)
  {
    hide Inv, Core, Partition, Semaphores, Forest, DeviceDone, Complete, Schedule, TransmitDone;
    SemParts(k);
    RunningSlot(k);
    match FirstPending(e.pending)
    case None => ScheduleMem(k, e.ctx, e.t2);
    case Some(d) =>
      var i := IrqIndex(e.line, d, TransmitDone(e.line, e.regs));
      DeviceKey(k, i);
      DeviceIndex(k, k.Dev(i));
      CompleteEffect(k, k.Dev(i), IrqStatus(e));
      CompleteTable(k, k.Dev(i), IrqStatus(e));
      DoneKeeps(k, k.Dev(i), IrqStatus(e), e.ctx, e.t1, e.t2);
      if a != k.Dev(i) {
        OtherQueues(k, k.Dev(i), IrqStatus(e), a);
      }
  }

  lemma ScheduleMem(k: Kernel, ctx: Context, t: int)
    ensures var l := ResumeOrSchedule(k, ctx, t).k; l.mem == k.mem && l.asl == k.asl && l.dev == k.dev
    ensures var l := Schedule(k, t).k; l.mem == k.mem && l.asl == k.asl && l.dev == k.dev
  {
  }

  lemma OtherQueues(k: Kernel, s: Addr, status: int, a: Addr)
    requires Lists(k) && s in k.mem && a != s
    ensures Complete(k, s, status).Q(a) == k.Q(a)
  {
  }

  lemma TimerIrq(k: Kernel, e: Event, a: Addr)
    requires Inv(k) && IsInterrupt(e) && !e.Device? && a in k.mem && a != k.Dev(CLOCK)
    ensures IrqEffect(k, e, Interrupt(k, e), a)
  {
    hide Inv, Core, Partition, Semaphores, Forest, HandlePLT, HandlePseudoClock, SetQ;
    SemParts(k);
    DeviceKey(k, CLOCK);
    match e
    case PLT(ctx, t1, t2) => PLTMem(k, ctx, t1, t2);
    case PseudoClock(ctx, t1, t2) => ClockMem(k, ctx, t1, t2);
  }

  lemma PLTMem(k: Kernel, ctx: Context, t1: int, t2: int)
    requires Partition(k)
    ensures var l := HandlePLT(k, ctx, t1, t2).k; l.mem == k.mem && l.asl == k.asl && l.dev == k.dev
  {
    hide Schedule;
    if k.current.Some? {
      ScheduleMem(Enqueue(LeaveCpu(k, ctx, t1), k.current.value), ctx, t2);
    } else {
      ScheduleMem(UpdateCpuTime(k, t1), ctx, t2);
    }
  }

  lemma ClockMem(k: Kernel, ctx: Context, t1: int, t2: int)
    requires Partition(k) && k.Dev(CLOCK) in k.mem
    ensures var l, clk := HandlePseudoClock(k, ctx, t1, t2).k, k.Dev(CLOCK);
      l.mem == k.mem[clk := 0] && l.asl == SetQ(k.asl, clk, []) && l.dev == k.dev
  {
    hide Schedule, SetQ;
    ScheduleMem(UpdateCpuTime(DrainClock(k), t1), ctx, t2);
  }

  /** How many of the waiters exceed the surplus. */
  function Excess(q: seq<Slot>, b: int): (n: nat)
    ensures n <= |q|
  {
    if 0 <= b <= |q| then |q| - b else 0
  }

  function Least(x: nat, y: nat): nat { if x <= y then x else y }

  lemma IrqRound(q: seq<Slot>, b: int, c: nat)
    requires b >= 0
    ensures var n := Least(c, Excess(q, b));
      && (|q[n..]| > b + c - n <==> c < Excess(q, b))
      && (c < Excess(q, b) ==> q[n..] != [] && q[n..][1..] == q[Least(c + 1, Excess(q, b))..])
  {
  }

  /** Interrupts alone, in any number and order: c interrupts of a device wake the first c of its waiters, but never
      one of the last min(surplus, queue length); all others only add to the surplus. */
  lemma {:induction false} InterruptsWake(k: Kernel, es: seq<Event>, i: int)
    requires Inv(k) && 0 <= i < CLOCK && forall e :: e in es ==> IsInterrupt(e)
    ensures k.Dev(i) in k.mem && Balance(k, k.Dev(i)) >= 0
    ensures var a, l := k.Dev(i), Interrupts(k, es);
      var b, c := Balance(k, a), CountIrqs(k, es, a);
      var n := Least(c, Excess(k.Q(a), b));
      a in l.mem && l.dev == k.dev && l.Q(a) == k.Q(a)[n..] && Balance(l, a) == b + c - n
  {
    hide Inv, Interrupt, IrqSem;
    var a := k.Dev(i);
    SemParts(k);
    DeviceKey(k, i);
    DeviceIndex(k, a);
    if es != [] {
      assert es[|es| - 1] in es;
      var t, e := es[..|es| - 1], es[|es| - 1];
      InterruptsWake(k, t, i);
      var m := Interrupts(k, t);
      SameIrq(k, m, e);
      IrqRound(k.Q(a), Balance(k, a), CountIrqs(k, t, a));
      if e.Device? {
        DeviceIrq(m, e, a);
      } else {
        TimerIrq(m, e, a);
      }
    }
  }

  lemma SameIrq(k: Kernel, l: Kernel, e: Event)
    requires l.dev == k.dev
    ensures IrqSem(l, e) == IrqSem(k, e)
  {
  }

  // ---- waiting for ever ---------------------------------------------------

  const BLANK := Context(0, 0, 0)

  const SPAWN := Syscall(CreateProcessCall(BLANK, 0, NULL), BLANK, 0, 0)
  const LET_CHILD_RUN := Syscall(YieldCall, BLANK, 0, 0)
  const DISK_REQUEST := Syscall(DoIOCall(START_DEVREG + 4), BLANK, 0, 0)
  const KILL_CHILD := Syscall(TermProcessCall(2), BLANK, 0, 0)
  const DISK_IRQ := Device(3, [true, false, false, false, false, false, false, false], DevRegs(1, 0), BLANK, 0, 0)

  lemma EarlyStep(k: Kernel)
    requires Inv(k) && k.current.Some? && k.pStart == 0 && k.asl == map[]
    requires k.Dev(0) in k.mem && k.mem[k.Dev(0)] == 0
    ensures var l := Step(k, DISK_IRQ);
      && l.current == k.current && l.ready == k.ready && l.pStart == 0 && l.asl == map[]
      && l.dev == k.dev && l.mem == k.mem[k.Dev(0) := 1]
  {
    assert FirstPending(DISK_IRQ.pending) == Some(0);
    DeviceKey(k, 0);
    CompleteEffect(k, k.Dev(0), 1);
  }

  lemma SoftBlockEffect(k: Kernel, a: Addr, ctx: Context, t1: int, t2: int)
    requires Partition(k) && k.current.Some? && k.ready == [] && a in k.mem
    ensures var l := SoftBlock(k, a, ctx, t1, t2).k;
      && l.current == None && l.dev == k.dev && l.mem == k.mem[a := k.mem[a] - 1]
      && l.Q(a) == k.Q(a) + [k.current.value] && forall x :: x != a ==> l.Q(x) == k.Q(x)
  {
    DescriptorFree(k);
  }

  lemma StillQuiet(k: Kernel, l: Kernel, i: int)
    requires Semaphores(k) && Semaphores(l) && l.dev == k.dev && 0 <= i < CLOCK && k.Dev(i) in k.mem
    requires l.mem == k.mem[k.Dev(i) := k.mem[k.Dev(i)] - 1] && l.Q(k.Dev(CLOCK)) == k.Q(k.Dev(CLOCK))
    ensures Quiet(l) <==> Quiet(k) && k.mem[k.Dev(i)] > 0
  {
    assert forall j :: l.Dev(j) == k.Dev(j);
    if Quiet(l) {
      assert l.mem[l.Dev(i)] >= 0;
      forall j | 0 <= j < CLOCK
        ensures k.mem[k.Dev(j)] >= 0
      {
        assert l.mem[l.Dev(j)] >= 0;
      }
    }
    if Quiet(k) && k.mem[k.Dev(i)] > 0 {
      forall j | 0 <= j < CLOCK
        ensures l.mem[l.Dev(j)] >= 0
      {
        assert k.mem[k.Dev(j)] >= 0;
      }
    }
  }

  /** The last runnable process asks for a device: the system idles, and it does so for ever exactly if it was quiet
      before and the device has a surplus. */
  lemma LateRequest(k: Kernel, i: int, ctx: Context, t1: int, t2: int)
    requires Inv(k) && k.current.Some? && k.ready == [] && 0 <= i < CLOCK
    ensures k.Dev(i) in k.mem
    ensures var l := SoftBlock(k, k.Dev(i), ctx, t1, t2).k;
      && Inv(l) && l.current.None? && l.SoftSet() != {}
      && (Quiet(l) <==> Quiet(k) && k.mem[k.Dev(i)] > 0)
  {
    hide Inv, Core, Partition, Semaphores, SoftBlock, Quiet, Kernel.SoftSet;
    var a := k.Dev(i);
    SemParts(k);
    DeviceKey(k, i);
    DeviceKey(k, CLOCK);
    SoftBlockEffect(k, a, ctx, t1, t2);
    SoftBlockKeeps(k, a, ctx, t1, t2);
    var l := SoftBlock(k, a, ctx, t1, t2).k;
    SemParts(l);
    QueuedIsSoft(l, i);
    StillQuiet(k, l, i);
  }

  lemma DiskRequestStep(k: Kernel)
    requires Inv(k) && k.current.Some? && k.pStart <= 0
    ensures k.Dev(0) in k.mem && Step(k, DISK_REQUEST) == SoftBlock(k, k.Dev(0), Context(0, 0, 0), 0, 0).k
  {
    DeviceKey(k, 0);
    assert IoIndex(START_DEVREG + 4) == 0;
  }

  lemma QuietUp(k: Kernel)
    requires Semaphores(k) && k.asl == map[]
    ensures Quiet(k)
  {
    assert forall i :: 0 <= i < CLOCK ==> k.mem[k.Dev(i)] + |k.Q(k.Dev(i))| >= 0;
  }

  /** Nobody is blocked, and only the running process can run. */
  ghost predicate AloneUnblocked(k: Kernel)
    requires Inv(k)
  {
    k.current.Some? && k.ready == [] && k.asl == map[] && k.pStart == 0 && k.Dev(0) in k.mem && k.mem[k.Dev(0)] == 0
  }

  /** The disk interrupts, and only then the only runnable process asks for it. */
  lemma UnheardThenAsked(k: Kernel)
    requires Inv(k) && AloneUnblocked(k)
    ensures var l := Step(Step(k, DISK_IRQ), DISK_REQUEST); l.current.None? && l.SoftSet() != {} && Quiet(l)
  {
    hide Inv, Handle;
    EarlyStep(k);
    var m := Step(k, DISK_IRQ);
    SemParts(m);
    DiskRequestStep(m);
    QuietUp(m);
    LateRequest(m, 0, BLANK, 0, 0);
  }

  lemma BootedOne(dev: Addr, init: Context)
    requires dev > 0
    ensures AloneUnblocked(Booted(1, dev, map[], init, 0))
  {
    BootInv(1, dev, map[], init, 0);
  }

  /** Reached from boot: Idle, since a process is soft-blocked, yet no interrupts will ever wake it. */
  lemma IdleForever(dev: Addr, init: Context)
    requires dev > 0
    ensures var l := Exec(Booted(1, dev, map[], init, 0), [DISK_IRQ, DISK_REQUEST]);
      l.current.None? && l.SoftSet() != {} && Quiet(l)
  {
    hide Handle, Step, Inv, Booted, AloneUnblocked;
    var k := Booted(1, dev, map[], init, 0);
    BootedOne(dev, init);
    UnheardThenAsked(k);
    assert [DISK_IRQ] == [] + [DISK_IRQ] && [DISK_IRQ, DISK_REQUEST] == [DISK_IRQ] + [DISK_REQUEST];
    ExecLast(k, [], DISK_IRQ);
    ExecLast(k, [DISK_IRQ], DISK_REQUEST);
  }

  // ---- the waiter dies before its interrupt -------------------------------

  /** The root, slot 1, and the child it will have, slot 0. */
  ghost predicate Parent(k: Kernel)
    requires Inv(k)
  {
    |k.pcb| == 2 && k.pStart == 0 && k.Dev(0) in k.mem
  }

  /** The child, with pid 2, has no children. */
  ghost predicate Child(k: Kernel)
    requires Inv(k)
  {
    Parent(k) && k.pcb[0].pid == 2 && k.pcb[0].children == []
  }

  lemma SpawnStep(k: Kernel)
    requires Inv(k) && Parent(k) && k.current == Some(1) && k.free == [0] && k.nextPid == 2
    requires k.ready == [] && k.asl == map[]
    ensures var l := Step(k, SPAWN);
      Child(l) && l.current == Some(1) && l.ready == [0] && l.asl == map[] && l.mem[l.Dev(0)] == k.mem[k.Dev(0)]
  {
  }

  lemma LetChildRunStep(k: Kernel)
    requires Inv(k) && Child(k) && k.current == Some(1) && k.ready == [0] && k.asl == map[]
    ensures var l := Step(k, LET_CHILD_RUN);
      Child(l) && l.current == Some(0) && l.ready == [1] && l.asl == map[] && l.mem[l.Dev(0)] == k.mem[k.Dev(0)]
  {
  }

  lemma ChildAsksStep(k: Kernel)
    requires Inv(k) && Child(k) && k.current == Some(0) && k.ready == [1] && k.asl == map[] && k.mem[k.Dev(0)] == 0
    ensures var l := Step(k, DISK_REQUEST);
      && Child(l) && l.current == Some(1) && l.ready == [] && l.asl == map[l.Dev(0) := [0]]
      && l.mem[l.Dev(0)] == -1
  {
    hide Inv, Handle, Step, SoftBlock;
    SemParts(k);
    DiskRequestStep(k);
    ChildWaits(k);
  }

  lemma ChildWaits(k: Kernel)
    requires Partition(k) && k.current == Some(0) && k.ready == [1] && k.asl == map[] && |k.pcb| == 2
    requires k.Dev(0) in k.mem && k.mem[k.Dev(0)] == 0
    ensures var l := SoftBlock(k, k.Dev(0), BLANK, 0, 0).k;
      && l.current == Some(1) && l.ready == [] && l.asl == map[k.Dev(0) := [0]] && l.dev == k.dev && l.pStart == 0
      && l.mem == k.mem[k.Dev(0) := -1] && |l.pcb| == 2
      && l.pcb[0].pid == k.pcb[0].pid && l.pcb[0].children == k.pcb[0].children
  {
    DescriptorFree(k);
    assert SetQ(map[], k.Dev(0), [0]) == map[k.Dev(0) := [0]];
    assert k.Q(k.Dev(0)) + [0] == [0];
  }

  lemma KillChildStep(k: Kernel)
    requires Inv(k) && Child(k) && k.current == Some(1) && k.ready == [] && k.asl == map[k.Dev(0) := [0]]
    requires k.mem[k.Dev(0)] == -1
    ensures AloneUnblocked(Step(k, KILL_CHILD))
  {
    hide Inv, Core, Forest, Kill;
    ChildFound(k);
    KillsChild(k);
  }

  lemma ChildFound(k: Kernel)
    requires Inv(k) && Child(k) && k.current == Some(1) && k.asl == map[k.Dev(0) := [0]]
    ensures Core(k) && Forest(k) && k.Live(1) && k.Live(0) && FindPid(k, 2) == Some(0) && Post(k, 0) == [0]
  {
    assert 0 in k.asl[k.Dev(0)];
    assert k.Blocked(0) && OnePlace(k, 0) && OnePlace(k, 1);
    assert k.Live(0);
  }

  lemma KillsChild(k: Kernel)
    requires k.current == Some(1) && k.ready == [] && k.asl == map[k.Dev(0) := [0]] && k.pStart == 0
    requires k.Dev(0) in k.mem && k.mem[k.Dev(0)] == -1
    ensures var l := Kill(k, [0]);
      && l.current == Some(1) && l.ready == [] && l.asl == map[] && l.pStart == 0 && l.dev == k.dev
      && k.Dev(0) in l.mem && l.mem[k.Dev(0)] == 0
  {
    assert Without([0], Elems([0])) == [];
    assert KillQueues(k.asl, Elems([0])) == map[];
  }

  /** The same end without an early interrupt: a child asks for the disk and is killed, the disk interrupts when nobody
      waits any more, and then the parent asks for the disk. */
  lemma KilledWaiter(dev: Addr, init: Context)
    requires dev > 0
    ensures var es := [SPAWN, LET_CHILD_RUN, DISK_REQUEST, KILL_CHILD, DISK_IRQ, DISK_REQUEST];
      var l := Exec(Booted(2, dev, map[], init, 0), es);
      l.current.None? && l.SoftSet() != {} && Quiet(l)
  {
    hide Handle, Step, Inv, Booted, Child, Parent, AloneUnblocked;
    var k := Booted(2, dev, map[], init, 0);
    BootedTwo(dev, init);
    SpawnStep(k);
    LetChildRunStep(Step(k, SPAWN));
    ChildAsksStep(Step(Step(k, SPAWN), LET_CHILD_RUN));
    KillChildStep(Step(Step(Step(k, SPAWN), LET_CHILD_RUN), DISK_REQUEST));
    UnheardThenAsked(Step(Step(Step(Step(k, SPAWN), LET_CHILD_RUN), DISK_REQUEST), KILL_CHILD));
    SixEvents(k, SPAWN, LET_CHILD_RUN, DISK_REQUEST, KILL_CHILD, DISK_IRQ, DISK_REQUEST);
  }

  lemma BootedTwo(dev: Addr, init: Context)
    requires dev > 0
    ensures var k := Booted(2, dev, map[], init, 0);
      Parent(k) && k.current == Some(1) && k.free == [0] && k.nextPid == 2 && k.ready == [] && k.asl == map[]
      && k.mem[k.Dev(0)] == 0
  {
    BootInv(2, dev, map[], init, 0);
    assert Down(2) == [1, 0];
  }

  lemma SixEvents(k: Kernel, a: Event, b: Event, c: Event, d: Event, e: Event, f: Event)
    requires Inv(k)
    ensures Exec(k, [a, b, c, d, e, f]) == Step(Step(Step(Step(Step(Step(k, a), b), c), d), e), f)
  {
    hide Handle, Step, Inv;
    assert [a] == [] + [a] && [a, b] == [a] + [b] && [a, b, c] == [a, b] + [c] && [a, b, c, d] == [a, b, c] + [d];
    assert [a, b, c, d, e] == [a, b, c, d] + [e] && [a, b, c, d, e, f] == [a, b, c, d, e] + [f];
    ExecLast(k, [], a);
    ExecLast(k, [a], b);
    ExecLast(k, [a, b], c);
    ExecLast(k, [a, b, c], d);
    ExecLast(k, [a, b, c, d], e);
    ExecLast(k, [a, b, c, d, e], f);
  }
}
