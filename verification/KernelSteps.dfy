/** One function per handler: the state it leaves and how it ends. */
module KernelSteps {
  import opened Sequences
  import opened KernelState

  /** How a handler gives up control. Spin: the scheduler's loop would go round without acting. */
  datatype Outcome =
    | Resume(ctx: Context)              // LDST of the interrupted or calling process
    | Dispatch(p: Slot, next: Context)  // LDST of the process the scheduler chose
    | Idle | Halt | Panic | Spin
    | PassUp

  datatype Res = Res(k: Kernel, out: Outcome)

  function SavePc(ctx: Context): Context { ctx.(pc := ctx.pc + 4) }

  // ---- phase 1 operations -------------------------------------------------

  function SetPcb(k: Kernel, p: Slot, r: Pcb): Kernel
    requires p < |k.pcb|
  {
    k.(pcb := k.pcb[p := r])
  }

  /** The table after p became the last child of c. */
  function Adopt(r: seq<Pcb>, c: Slot, p: Slot): seq<Pcb>
    requires c < |r| && p < |r| && c != p
  {
    r[p := r[p].(parent := Some(c))][c := r[c].(children := r[c].children + [p])]
  }

  /** The table after p left c's children. */
  function Orphan(r: seq<Pcb>, c: Slot, p: Slot): seq<Pcb>
    requires c < |r| && p < |r| && c != p
  {
    r[p := r[p].(parent := None)][c := r[c].(children := Without(r[c].children, {p}))]
  }

  function Enqueue(k: Kernel, p: Slot): Kernel {
    k.(ready := InsertProc(k.ready, p, k.pcb))
  }

  /** The queue of a becomes q; a queue that runs empty leaves the active list. */
  function SetQ(asl: map<Addr, seq<Slot>>, a: Addr, q: seq<Slot>): (r: map<Addr, seq<Slot>>)
    ensures a in r <==> q != []
    ensures q != [] ==> r[a] == q
    ensures forall x :: x != a ==> (x in r <==> x in asl) && (x in r ==> r[x] == asl[x])
  {
    if q == [] then map x | x in asl && x != a :: asl[x] else asl[a := q]
  }

  /** insertBlocked; false stands for its failure when no descriptor is left. */
  function InsertBlocked(k: Kernel, a: Addr, p: Slot): (Kernel, bool)
    requires p < |k.pcb|
  {
    if a !in k.asl && |k.asl| >= |k.pcb| then (k, false)
    else (SetPcb(k, p, k.pcb[p].(semAdd := a)).(asl := SetQ(k.asl, a, k.Q(a) + [p])), true)
  }

  function RemoveBlocked(k: Kernel, a: Addr): (Kernel, Option<Slot>) {
    if k.Q(a) == [] then (k, None)
    else (k.(asl := SetQ(k.asl, a, k.Q(a)[1..])), Some(k.Q(a)[0]))
  }

  // ---- CPU time and the scheduler -----------------------------------------

  function Charge(k: Kernel, t: int): Kernel
    requires k.current.Some? ==> k.current.value < |k.pcb|
  {
    if k.current.None? then k else
    var c := k.current.value;
    SetPcb(k, c, k.pcb[c].(time := k.pcb[c].time + (t - k.pStart)))
  }

  function UpdateCpuTime(k: Kernel, t: int): Kernel
    requires k.current.Some? ==> k.current.value < |k.pcb|
  {
    Charge(k, t).(pStart := t)
  }

  function CtxOf(k: Kernel, p: Slot): Context {
    if p < |k.pcb| then k.pcb[p].ctx else Context(0, 0, 0)
  }

  function Schedule(k: Kernel, t: int): Res {
    if k.ready != [] then
      var p := k.ready[0];
      Res(k.(ready := k.ready[1..], current := Some(p), pStart := t), Dispatch(p, CtxOf(k, p)))
    else if k.processCount == 0 then Res(k, Halt)
    else if k.processCount > 0 && k.softBlockCount == 0 then Res(k, Panic)
    else if k.processCount > 0 && k.softBlockCount > 0 then Res(k.(current := None), Idle)
    else Res(k, Spin)
  }

  /** The interrupted or calling process goes on, unless there is none. */
  function ResumeOrSchedule(k: Kernel, ctx: Context, t2: int): Res {
    if k.current.Some? then Res(k, Resume(ctx)) else Schedule(k, t2)
  }

  // ---- system calls -------------------------------------------------------

  function FreshPcb(pid: int, child: Context, prio: int, support: int, parent: Option<Slot>): Pcb {
    Pcb(parent, [], child, 0, NULL, support, prio, pid)
  }

  function AddChild(k: Kernel, c: Slot, child: Context, prio: int, support: int): Kernel
    requires c < |k.pcb| && k.free != [] && k.free[0] < |k.pcb|
  {
    var p := k.free[0];
    var k1 := k.(
      free := k.free[1..], nextPid := k.nextPid + 1, processCount := k.processCount + 1,
      pcb := k.pcb[p := FreshPcb(k.nextPid, child, prio, support, Some(c))]);
    Enqueue(SetPcb(k1, c, k1.pcb[c].(children := k1.pcb[c].children + [p])), p)
  }

  function CreateProcess(k: Kernel, child: Context, prio: int, support: int, ctx: Context): Res
    requires Partition(k) && k.current.Some?
  {
    if k.free == [] then Res(k, Resume(SavePc(ctx.(a0 := -1))))
    else
      assert k.free[0] in k.free;
      Res(AddChild(k, k.current.value, child, prio, support), Resume(SavePc(ctx.(a0 := k.nextPid))))
  }

  function AddMem(k: Kernel, a: Addr, d: int): Kernel
    requires a in k.mem
  {
    k.(mem := k.mem[a := k.mem[a] + d])
  }

  /** The caller leaves the CPU: its time is charged and its state saved. */
  function LeaveCpu(k: Kernel, ctx: Context, t: int): Kernel
    requires k.current.Some? && k.current.value < |k.pcb|
  {
    var k1 := UpdateCpuTime(k, t);
    var c := k.current.value;
    SetPcb(k1, c, k1.pcb[c].(ctx := ctx))
  }

  function BlockCurrent(k: Kernel, a: Addr): Kernel
    requires k.current.Some? && k.current.value < |k.pcb|
  {
    InsertBlocked(k, a, k.current.value).0.(current := None)
  }

  function Passeren(k: Kernel, a: Addr, ctx: Context, t1: int, t2: int): Res
    requires Partition(k) && k.current.Some? && a in k.mem
  {
    var k1 := AddMem(k, a, -1);
    if k1.mem[a] >= 0 then Res(k1, Resume(SavePc(ctx)))
    else Schedule(BlockCurrent(LeaveCpu(k1, SavePc(ctx), t1), a), t2)
  }

  /** removeBlocked followed by insertProcQ. */
  function WakeOne(k: Kernel, a: Addr): Kernel {
    var (k1, p) := RemoveBlocked(k, a);
    if p.None? then k else Enqueue(k1, p.value)
  }

  function Verhogen(k: Kernel, a: Addr, ctx: Context): Res
    requires a in k.mem
  {
    var k1 := AddMem(k, a, 1);
    Res(if k1.mem[a] <= 0 then WakeOne(k1, a) else k1, Resume(SavePc(ctx)))
  }

  const START_DEVREG := 0x10000054

  /** The semaphore index DoIO computes from a device register address. */
  function IoIndex(cmd: int): int {
    var d := (cmd - START_DEVREG) / 0x10;
    if d >= 32 && (cmd - START_DEVREG) % 0x10 == 0xC then d + 8 else d
  }

  /** The caller starts waiting on device semaphore a. */
  function SoftWait(k: Kernel, a: Addr, ctx: Context, t: int): Kernel
    requires Partition(k) && k.current.Some? && a in k.mem
  {
    var k1 := BlockCurrent(LeaveCpu(AddMem(k, a, -1), SavePc(ctx), t), a);
    k1.(softBlockCount := k1.softBlockCount + 1)
  }

  /** What DoIO and WaitForClock do once they know their semaphore. */
  function SoftBlock(k: Kernel, a: Addr, ctx: Context, t1: int, t2: int): Res
    requires Partition(k) && k.current.Some? && a in k.mem
  {
    Schedule(SoftWait(k, a, ctx, t1), t2)
  }

  /** C's division, which truncates. */
  function TruncDiv(x: int, y: int): int
    requires y > 0
  {
    if x >= 0 then x / y else -((-x) / y)
  }

  function GetCpuTime(k: Kernel, scale: int, ctx: Context, t: int): Res
    requires Partition(k) && k.current.Some? && scale > 0
  {
    var k1 := Charge(k, t);
    Res(k1, Resume(SavePc(ctx.(a0 := TruncDiv(k1.pcb[k.current.value].time, scale)))))
  }

  function GetProcessId(k: Kernel, ofParent: bool, ctx: Context): Res
    requires Partition(k) && k.current.Some?
  {
    var r := k.pcb[k.current.value];
    var pid :=
      if !ofParent then r.pid
      else if r.parent.Some? && r.parent.value < |k.pcb| then k.pcb[r.parent.value].pid
      else 0;
    Res(k, Resume(SavePc(ctx.(a0 := pid))))
  }

  function Yield(k: Kernel, ctx: Context, t1: int, t2: int): Res
    requires Partition(k) && k.current.Some?
  {
    var k1 := LeaveCpu(k, SavePc(ctx), t1);
    Schedule(k1.(ready := k1.ready + [k.current.value], current := None), t2)
  }

  // ---- termination --------------------------------------------------------

  /** The subtree of p in the order in which terminateProcessTree frees it. */
  ghost function Post(k: Kernel, p: Slot): seq<Slot>
    requires Forest(k) && k.Live(p)
    decreases k.nextPid - k.pcb[p].pid, 1, 0
  {
    assert NodeOk(k, p);
    PostFrom(k, p, 0) + [p]
  }

  /** The subtrees of p's children from the i-th on. */
  ghost function PostFrom(k: Kernel, p: Slot, i: nat): seq<Slot>
    requires Forest(k) && k.Live(p) && i <= |k.pcb[p].children|
    decreases k.nextPid - k.pcb[p].pid, 0, |k.pcb[p].children| - i
  {
    if i == |k.pcb[p].children| then []
    else
      var c := k.pcb[p].children[i];
      assert NodeOk(k, p) && c in k.pcb[p].children && NodeOk(k, c);
      Post(k, c) + PostFrom(k, p, i + 1)
  }

  /** The PCB table after dead were unlinked from the tree and emptied. */
  function KillPcbs(pcb: seq<Pcb>, dead: set<Slot>): (r: seq<Pcb>)
    ensures |r| == |pcb|
    ensures forall q: Slot :: q < |pcb| ==>
      r[q] == if q in dead then pcb[q].(parent := None, children := [])
              else pcb[q].(children := Without(pcb[q].children, dead))
  {
    seq(|pcb|, (q: nat) requires q < |pcb| =>
      if q in dead then pcb[q].(parent := None, children := [])
      else pcb[q].(children := Without(pcb[q].children, dead)))
  }

  /** The semaphore queues without dead; queues that run empty leave the active list. */
  function KillQueues(asl: map<Addr, seq<Slot>>, dead: set<Slot>): (r: map<Addr, seq<Slot>>)
    ensures forall a :: a in r <==> a in asl && Without(asl[a], dead) != []
    ensures forall a :: a in r ==> r[a] == Without(asl[a], dead)
  {
    map a | a in asl && Without(asl[a], dead) != [] :: Without(asl[a], dead)
  }

  /** Every semaphore raised by the number of its waiters that died. */
  function KillMem(mem: map<Addr, int>, asl: map<Addr, seq<Slot>>, dead: set<Slot>): (r: map<Addr, int>)
    ensures r.Keys == mem.Keys
    ensures forall a :: a in mem ==> r[a] == mem[a] + |QueueOf(asl, a)| - |Without(QueueOf(asl, a), dead)|
  {
    map a | a in mem :: mem[a] + |QueueOf(asl, a)| - |Without(QueueOf(asl, a), dead)|
  }

  /** The processes of o are terminated and freed, in this order. */
  ghost function Kill(k: Kernel, o: seq<Slot>): Kernel {
    var dead := Elems(o);
    k.(
      pcb := KillPcbs(k.pcb, dead),
      free := Reverse(o) + k.free,
      ready := Without(k.ready, dead),
      asl := KillQueues(k.asl, dead),
      mem := KillMem(k.mem, k.asl, dead),
      softBlockCount := k.softBlockCount - |k.SoftSet() * dead|,
      processCount := k.processCount - |o|,
      current := if k.current.Some? && k.current.value in dead then None else k.current)
  }

  /** The live process with this pid. */
  ghost function FindPid(k: Kernel, pid: int): (r: Option<Slot>)
    ensures r.Some? ==> k.Live(r.value) && k.pcb[r.value].pid == pid
    ensures r.None? ==> forall p: Slot :: k.Live(p) ==> k.pcb[p].pid != pid
  {
    if exists p: Slot :: k.Live(p) && k.pcb[p].pid == pid then
      var p: Slot :| k.Live(p) && k.pcb[p].pid == pid;
      Some(p)
    else None
  }

  ghost function KillAndGo(k: Kernel, o: seq<Slot>, ctx: Context, t2: int): Res {
    ResumeOrSchedule(Kill(k, o), SavePc(ctx), t2)
  }

  ghost function TerminateProcess(k: Kernel, pid: int, ctx: Context, t2: int): Res
    requires Core(k) && k.current.Some?
  {
    var target := if pid == 0 then k.current else FindPid(k, pid);
    if target.None? then Res(k, Resume(SavePc(ctx)))
    else
      assert OnePlace(k, k.current.value);
      KillAndGo(k, Post(k, target.value), ctx, t2)
  }

  ghost function Die(k: Kernel, o: seq<Slot>, t2: int): Res {
    Schedule(Kill(k, o).(current := None), t2)
  }

  /** passUpOrDie. */
  ghost function PassUpOrDie(k: Kernel, t2: int): Res
    requires Core(k) && k.current.Some?
  {
    var c := k.current.value;
    assert OnePlace(k, c);
    if k.pcb[c].support == NULL then Die(k, Post(k, c), t2)
    else Res(k, PassUp)
  }

  // ---- interrupts ---------------------------------------------------------

  function HandlePLT(k: Kernel, ctx: Context, t1: int, t2: int): Res
    requires Partition(k)
  {
    if k.current.Some? then
      var k1 := Enqueue(LeaveCpu(k, ctx, t1), k.current.value);
      Schedule(k1, t2)
    else Schedule(UpdateCpuTime(k, t1), t2)
  }

  function EnqueueAll(ready: seq<Slot>, q: seq<Slot>, pcb: seq<Pcb>): seq<Slot>
    decreases |q|
  {
    if q == [] then ready else EnqueueAll(InsertProc(ready, q[0], pcb), q[1..], pcb)
  }

  /** Every process waiting for the pseudo-clock becomes ready. */
  function DrainClock(k: Kernel): Kernel
    requires k.Dev(CLOCK) in k.mem
  {
    var clk := k.Dev(CLOCK);
    k.(
      mem := k.mem[clk := 0],
      asl := SetQ(k.asl, clk, []),
      ready := EnqueueAll(k.ready, k.Q(clk), k.pcb),
      softBlockCount := k.softBlockCount - |k.Q(clk)|)
  }

  function HandlePseudoClock(k: Kernel, ctx: Context, t1: int, t2: int): Res
    requires Partition(k) && k.Dev(CLOCK) in k.mem
  {
    ResumeOrSchedule(UpdateCpuTime(DrainClock(k), t1), ctx, t2)
  }

  /** The pending device of lowest number. */
  function FirstPending(pending: seq<bool>): (r: Option<nat>)
    ensures r.Some? ==> r.value < |pending| && pending[r.value] && true !in pending[..r.value]
    ensures r.None? ==> true !in pending
  {
    if pending == [] then None
    else if pending[0] then Some(0)
    else match FirstPending(pending[1..])
      case None => None
      case Some(i) =>
        assert pending[..i + 1] == [pending[0]] + pending[1..][..i];
        Some(i + 1)
  }

  /** The registers handleDevice reads: transm matters for terminals only. */
  datatype DevRegs = DevRegs(status: int, transm: int)

  predicate TransmitDone(line: int, regs: DevRegs) { line == 7 && regs.transm % 0x100 == 5 }

  function IrqIndex(line: int, dev: int, tx: bool): int {
    (line - 3) * 8 + dev + if tx then 8 else 0
  }

  /** The V of a device interrupt on semaphore a. */
  function Complete(k: Kernel, a: Addr, status: int): Kernel
    requires Lists(k) && a in k.mem
  {
    var k1 := AddMem(k, a, 1);
    if k1.mem[a] <= 0 && k1.Q(a) != [] then
      var p := k1.Q(a)[0];
      assert p in k.asl[a];
      var k2 := SetPcb(RemoveBlocked(k1, a).0, p, k.pcb[p].(ctx := k.pcb[p].ctx.(a0 := status)));
      Enqueue(k2, p).(softBlockCount := k.softBlockCount - 1)
    else k1
  }

  /** handleDevice once the semaphore and the status are known. */
  function DeviceDone(k: Kernel, a: Addr, status: int, ctx: Context, t1: int, t2: int): Res
    requires Lists(k) && a in k.mem
  {
    var k1 := Complete(k, a, status);
    if k1.current.Some? then Res(UpdateCpuTime(k1, t1), Resume(ctx)) else Schedule(k1, t2)
  }

  function HandleDevice(k: Kernel, line: int, pending: seq<bool>, regs: DevRegs, ctx: Context, t1: int, t2: int): Res
    requires 3 <= line <= 7 && |pending| == 8
    requires Partition(k) && Semaphores(k)
  {
    match FirstPending(pending)
    case None => ResumeOrSchedule(k, ctx, t2)
    case Some(d) =>
      var tx := TransmitDone(line, regs);
      DeviceDone(k, k.Dev(IrqIndex(line, d, tx)), if tx then regs.transm else regs.status, ctx, t1, t2)
  }
}
