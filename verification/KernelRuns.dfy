/** Events, runs of any length from boot, and the invariant over all of them. */
module KernelRuns {
  import opened Sequences
  import opened KernelState
  import opened KernelSteps
  import opened KernelMoves
  import opened KernelInvariant
  import opened KernelTree
  import opened KernelKill

  datatype Call =
    | CreateProcessCall(child: Context, prio: int, support: int)
    | TermProcessCall(pid: int)
    | PasserenCall(sem: Addr)
    | VerhogenCall(sem: Addr)
    | DoIOCall(cmd: int)
    | GetTimeCall(scale: int)
    | ClockWaitCall
    | GetSupportPtrCall
    | GetProcessIdCall(ofParent: bool)
    | YieldCall

  /** t1 and t2 are the clock readings of the handler and of the scheduler it may end in. */
  datatype Event =
    | Syscall(call: Call, ctx: Context, t1: int, t2: int)
    | Trap(t1: int, t2: int)
    | PLT(ctx: Context, t1: int, t2: int)
    | PseudoClock(ctx: Context, t1: int, t2: int)
    | Device(line: int, pending: seq<bool>, regs: DevRegs, ctx: Context, t1: int, t2: int)

  const CREATEPROCESS := -1
  const TERMPROCESS := -2
  const PASSEREN := -3
  const VERHOGEN := -4
  const DOIO := -5
  const GETTIME := -6
  const CLOCKWAIT := -7
  const GETSUPPORTPTR := -8
  const GETPROCESSID := -9
  const YIELD := -10

  /** The system call with number id and arguments a1 to a3; child is the state a1 points to, scale the time scale. */
  function CallOf(id: int, a1: int, a2: int, a3: int, child: Context, scale: int): (r: Option<Call>)
    ensures r.Some? <==> YIELD <= id <= CREATEPROCESS
  {
    if id == CREATEPROCESS then Some(CreateProcessCall(child, a2, a3))
    else if id == TERMPROCESS then Some(TermProcessCall(a1))
    else if id == PASSEREN then Some(PasserenCall(a1))
    else if id == VERHOGEN then Some(VerhogenCall(a1))
    else if id == DOIO then Some(DoIOCall(a1))
    else if id == GETTIME then Some(GetTimeCall(scale))
    else if id == CLOCKWAIT then Some(ClockWaitCall)
    else if id == GETSUPPORTPTR then Some(GetSupportPtrCall)
    else if id == GETPROCESSID then Some(GetProcessIdCall(a1 != 0))
    else if id == YIELD then Some(YieldCall)
    else None
  }

  /** A system call instruction: the mode and the state it is executed in, the registers a1 to a3, the state that a1
      points to if it points to one, the time scale, and the clock readings. */
  datatype Ecall = Ecall(
    kernelMode: bool, ctx: Context, a1: int, a2: int, a3: int, child: Context, scale: int, t1: int, t2: int)

  /** Its event: outside kernel mode, or with an unknown number in a0, it is a trap. */
  function Raised(x: Ecall): Event {
    var call := CallOf(x.ctx.a0, x.a1, x.a2, x.a3, x.child, x.scale);
    if x.kernelMode && call.Some? then Syscall(call.value, x.ctx, x.t1, x.t2) else Trap(x.t1, x.t2)
  }

  /** The device registers seen by DoIO: five lines of eight devices of sixteen bytes. */
  predicate DeviceRegister(cmd: int) { 0 <= cmd - START_DEVREG < 5 * 0x80 }

  /** What the machine and the user programs guarantee about the next event. */
  predicate Enabled(k: Kernel, e: Event) {
    k.pStart <= e.t1 <= e.t2 &&
    match e
    case Syscall(call, _, _, _) =>
      k.current.Some? &&
      (match call
       case PasserenCall(a) => UserSem(k, a)
       case VerhogenCall(a) => UserSem(k, a)
       case DoIOCall(cmd) => DeviceRegister(cmd)
       case GetTimeCall(scale) => scale > 0
       case _ => true)
    case Trap(_, _) => k.current.Some?
    case Device(line, pending, _, _, _, _) => Awake(k) && 3 <= line <= 7 && |pending| == 8
    case _ => Awake(k)
  }

  /** Neither halted nor panicked. */
  predicate Awake(k: Kernel) { k.current.Some? || k.softBlockCount > 0 }

  ghost function Handle(k: Kernel, e: Event): Res
    requires Inv(k) && Enabled(k, e)
  {
    match e
    case Syscall(call, ctx, t1, t2) =>
      (match call
       case CreateProcessCall(child, prio, support) => CreateProcess(k, child, prio, support, ctx)
       case TermProcessCall(pid) => TerminateProcess(k, pid, ctx, t2)
       case PasserenCall(a) => Passeren(k, a, ctx, t1, t2)
       case VerhogenCall(a) => Verhogen(k, a, ctx)
       case DoIOCall(cmd) => SoftBlock(k, k.Dev(IoIndex(cmd)), ctx, t1, t2)
       case GetTimeCall(scale) => GetCpuTime(k, scale, ctx, t1)
       case ClockWaitCall => SoftBlock(k, k.Dev(CLOCK), ctx, t1, t2)
       case GetSupportPtrCall => Res(k, Resume(SavePc(ctx.(a0 := k.pcb[k.current.value].support))))
       case GetProcessIdCall(ofParent) => GetProcessId(k, ofParent, ctx)
       case YieldCall => Yield(k, ctx, t1, t2))
    case Trap(_, t2) => PassUpOrDie(k, t2)
    case PLT(ctx, t1, t2) => HandlePLT(k, ctx, t1, t2)
    case PseudoClock(ctx, t1, t2) => HandlePseudoClock(k, ctx, t1, t2)
    case Device(line, pending, regs, ctx, t1, t2) => HandleDevice(k, line, pending, regs, ctx, t1, t2)
  }

  lemma SyscallKeeps(k: Kernel, e: Event)
    requires Inv(k) && Enabled(k, e) && e.Syscall?
    ensures Inv(Handle(k, e).k)
  {
    hide Passeren, Verhogen, SoftBlock, TerminateProcess, Yield, AddChild, Core, Partition, Semaphores, Forest;
    SemParts(k);
    match e.call
    case CreateProcessCall(child, prio, support) =>
      if k.free != [] { AddChildKeeps(k, child, prio, support); }
    case TermProcessCall(pid) => TerminateKeeps(k, pid, e.ctx, e.t2);
    case PasserenCall(a) => PasserenKeeps(k, a, e.ctx, e.t1, e.t2);
    case VerhogenCall(a) => VerhogenKeeps(k, a, e.ctx);
    case DoIOCall(cmd) =>
      DeviceKey(k, IoIndex(cmd));
      SoftBlockKeeps(k, k.Dev(IoIndex(cmd)), e.ctx, e.t1, e.t2);
    case GetTimeCall(scale) => ChargeKeeps(k, e.t1);
    case ClockWaitCall =>
      DeviceKey(k, CLOCK);
      SoftBlockKeeps(k, k.Dev(CLOCK), e.ctx, e.t1, e.t2);
    case YieldCall => YieldKeeps(k, e.ctx, e.t1, e.t2);
    case _ =>
  }

  lemma ChargeKeeps(k: Kernel, t: int)
    requires Inv(k) && k.current.Some?
    ensures k.current.value < |k.pcb| && Inv(Charge(k, t))
  {
    CoreFrame(k, Charge(k, t));
  }

  lemma SemParts(k: Kernel)
    requires Inv(k)
    ensures Core(k) && Partition(k) && Semaphores(k)
    ensures forall a :: a in k.mem && k.mem[a] < 0 && UserSem(k, a) ==> k.Q(a) != []
  {
  }

  /** Every handler keeps the invariant. */
  lemma StepKeeps(k: Kernel, e: Event)
    requires Inv(k) && Enabled(k, e)
    ensures Inv(Handle(k, e).k)
  {
    match e
    case Syscall(_, _, _, _) => SyscallKeeps(k, e);
    case Trap(_, t2) => PassUpOrDieKeeps(k, t2);
    case PLT(ctx, t1, t2) => PLTKeeps(k, ctx, t1, t2);
    case PseudoClock(ctx, t1, t2) => PseudoClockKeeps(k, ctx, t1, t2);
    case Device(line, pending, regs, ctx, t1, t2) => DeviceKeeps(k, line, pending, regs, ctx, t1, t2);
  }

  /** One event; an event that cannot happen in k is skipped. */
  ghost function Step(k: Kernel, e: Event): (l: Kernel)
    requires Inv(k)
    ensures Inv(l)
  {
    if Enabled(k, e) then StepKeeps(k, e); Handle(k, e).k else k
  }

  /** The state after a run. */
  ghost function Exec(k: Kernel, es: seq<Event>): (l: Kernel)
    requires Inv(k)
    ensures Inv(l)
  {
    if es == [] then k else Step(Exec(k, es[..|es| - 1]), es[|es| - 1])
  }

  lemma ExecLast(k: Kernel, es: seq<Event>, e: Event)
    requires Inv(k)
    ensures Exec(k, es + [e]) == Step(Exec(k, es), e)
  {
    assert (es + [e])[..|es|] == es;
  }

  // ---- boot ---------------------------------------------------------------

  /** The state main builds before it calls the scheduler: n PCBs, user semaphores as in mem. */
  function Initial(n: nat, dev: Addr, mem: map<Addr, int>, init: Context, t: int): Kernel
    requires n > 0
  {
    var all := Down(n);
    Kernel(
      dev,
      seq(n, (i: nat) requires i < n => if i == all[0] then FreshPcb(1, init, 0, NULL, None) else BLANK_PCB),
      all[1..], 2, [all[0]], map[],
      map a | a in mem.Keys + DevKeys(dev, SEMDEVLEN) :: if a in DevKeys(dev, SEMDEVLEN) then 0 else mem[a],
      1, 0, None, t)
  }

  /** The addresses of the first n device semaphores. */
  function DevKeys(dev: Addr, n: nat): (s: set<Addr>)
    ensures forall i :: 0 <= i < n ==> dev + 4 * i in s
    ensures forall a :: a in s ==> dev <= a <= dev + 4 * (n - 1)
  {
    if n == 0 then {} else DevKeys(dev, n - 1) + {dev + 4 * (n - 1)}
  }

  function Boot(n: nat, dev: Addr, mem: map<Addr, int>, init: Context, t: int): Res
    requires n > 0
  {
    Schedule(Initial(n, dev, mem, init, t), t)
  }

  /** Boot's assumptions: a non-null device array, and user semaphores that start at zero or more. */
  predicate BootOk(n: nat, dev: Addr, mem: map<Addr, int>) {
    n > 0 && dev > 0 && forall a :: a in mem ==> mem[a] >= 0
  }

  lemma InitialPartition(n: nat, dev: Addr, mem: map<Addr, int>, init: Context, t: int)
    requires n > 0
    ensures var k := Initial(n, dev, mem, init, t); Partition(k) && Counters(k)
  {
    var k := Initial(n, dev, mem, init, t);
    forall p: Slot | p < n
      ensures p in k.free <==> p != n - 1
    {
      if p != n - 1 {
        assert Down(n)[1..][n - 2 - p] == p;
      }
    }
    assert forall p: Slot :: p < n ==> OnePlace(k, p);
    assert k.SoftSet() == {};
  }

  lemma InitialForest(n: nat, dev: Addr, mem: map<Addr, int>, init: Context, t: int)
    requires n > 0
    ensures var k := Initial(n, dev, mem, init, t); Forest(k) && OneRoot(k)
  {
    var k := Initial(n, dev, mem, init, t);
    forall p: Slot | p < n && p != n - 1
      ensures p in k.free
    {
      assert Down(n)[1..][n - 2 - p] == p;
    }
    assert forall p: Slot :: k.Live(p) ==> p == n - 1;
  }

  lemma InitialSemaphores(n: nat, dev: Addr, mem: map<Addr, int>, init: Context, t: int)
    requires BootOk(n, dev, mem)
    ensures Semaphores(Initial(n, dev, mem, init, t))
  {
    var k := Initial(n, dev, mem, init, t);
    assert forall i :: 0 <= i < SEMDEVLEN ==> k.Dev(i) in k.mem && k.mem[k.Dev(i)] == 0;
  }

  lemma InitialCore(n: nat, dev: Addr, mem: map<Addr, int>, init: Context, t: int)
    requires BootOk(n, dev, mem)
    ensures Core(Initial(n, dev, mem, init, t))
  {
    InitialPartition(n, dev, mem, init, t);
    InitialForest(n, dev, mem, init, t);
    InitialSemaphores(n, dev, mem, init, t);
  }

  lemma BootInv(n: nat, dev: Addr, mem: map<Addr, int>, init: Context, t: int)
    requires BootOk(n, dev, mem)
    ensures Inv(Boot(n, dev, mem, init, t).k)
    ensures Boot(n, dev, mem, init, t).out == Dispatch(n - 1, init)
  {
    InitialCore(n, dev, mem, init, t);
    ScheduleKeeps(Initial(n, dev, mem, init, t), t);
  }

  /** What main leaves: the first process alone, with pid 1, priority 0 and no support structure, on the CPU since t;
      the other PCBs free from the highest down; nobody waiting; the 49 device and clock semaphores at zero and the
      others as they were. */
  lemma BootState(n: nat, dev: Addr, mem: map<Addr, int>, init: Context, t: int)
    requires BootOk(n, dev, mem)
    ensures var k := Boot(n, dev, mem, init, t).k;
      && |k.pcb| == n && k.current == Some(n - 1) && k.pcb[n - 1] == Pcb(None, [], init, 0, 0, 0, 0, 1)
      && k.ready == [] && k.asl == map[] && |k.free| == n - 1 && (forall i :: 0 <= i < n - 1 ==> k.free[i] == n - 2 - i)
      && k.dev == dev && k.nextPid == 2 && k.processCount == 1 && k.softBlockCount == 0 && k.pStart == t
      && (forall i :: 0 <= i < 49 ==> dev + 4 * i in k.mem && k.mem[dev + 4 * i] == 0)
      && (forall a :: a in mem && (a < dev || a > dev + 4 * 48) ==> a in k.mem && k.mem[a] == mem[a])
  {
    var k := Initial(n, dev, mem, init, t);
    assert forall i :: 0 <= i < 49 ==> k.Dev(i) in k.mem && k.mem[k.Dev(i)] == 0;
    assert Down(n)[0] == n - 1;
  }

  /** The state in which the first process starts to run. */
  ghost function Booted(n: nat, dev: Addr, mem: map<Addr, int>, init: Context, t: int): (k: Kernel)
    requires BootOk(n, dev, mem)
    ensures Inv(k)
    ensures k.dev == dev && |k.pcb| == n && k.pStart == t && k.asl == map[]
    ensures forall i :: 0 <= i < SEMDEVLEN ==> k.Dev(i) in k.mem && k.mem[k.Dev(i)] == 0
  {
    BootInv(n, dev, mem, init, t);
    Boot(n, dev, mem, init, t).k
  }
}
