/** The handlers' statements, one after the other, add up to the steps of the state machine. */
module Refinement {
  import opened Sequences
  import opened KernelState
  import opened KernelSteps
  import opened KernelMoves
  import opened KernelInvariant
  import opened KernelRuns

  /** p is nobody's child. */
  ghost predicate NoChild(pcb: seq<Pcb>, p: Slot) {
    forall q: Slot :: q < |pcb| ==> p !in pcb[q].children
  }

  lemma RootNoChild(k: Kernel, p: Slot)
    requires Forest(k) && p < |k.pcb| && k.pcb[p].parent == None
    ensures NoChild(k.pcb, p)
  {
    forall q: Slot | q < |k.pcb|
      ensures p !in k.pcb[q].children
    {
      if k.Live(q) {
        assert NodeOk(k, q);
      }
    }
  }

  /** A process in a semaphore's queue is blocked. */
  lemma QueuedBlocked(k: Kernel, c: Slot)
    requires AslOk(k) && c < |k.pcb| && !k.Blocked(c)
    ensures forall a :: a in k.asl ==> c !in k.asl[a]
  {
  }

  /** CREATEPROCESS in the order of the code: allocate, make ready, adopt, count. */
  lemma CreateSteps(k: Kernel, c: Slot, p: Slot, child: Context, prio: int, support: int, u: seq<Pcb>)
    requires c < |k.pcb| && k.free != [] && p == k.free[0] && p < |k.pcb| && c != p
    requires NoChild(k.pcb, p) && u == k.pcb[p := FreshPcb(k.nextPid, child, prio, support, None)]
    ensures NoChild(u, p) && p < |Adopt(u, c, p)| && Adopt(u, c, p)[p].pid == k.nextPid
    ensures AddChild(k, c, child, prio, support) == k.(
      free := k.free[1..], nextPid := k.nextPid + 1, pcb := Adopt(u, c, p), ready := InsertProc(k.ready, p, u),
      processCount := k.processCount + 1)
  {
    hide InsertProc;
    InsertProcPrio(k.ready, p, u, Adopt(u, c, p));
    assert AddChild(k, c, child, prio, support).pcb == Adopt(u, c, p);
  }

  /** Changing a semaphore's value and leaving the CPU move nobody between lists. */
  lemma SavePartition(k: Kernel, l: Kernel, ctx: Context, t: int)
    requires Partition(k) && k.current.Some? && l == k.(mem := l.mem)
    ensures k.current.value < |k.pcb| && Partition(LeaveCpu(l, ctx, t))
  {
    LeaveCpuFrame(l, ctx, t);
    PartitionFrame(k, LeaveCpu(l, ctx, t));
  }

  lemma AddMemIs(k: Kernel, a: Addr, d: int)
    requires a in k.mem
    ensures AddMem(k, a, d) == k.(mem := AddMem(k, a, d).mem) && a in AddMem(k, a, d).mem
  {
  }

  // ---- the pseudo-clock ---------------------------------------------------

  /** The clock semaphore is minus its queue length. */
  ghost predicate ClockOk(k: Kernel) {
    var clk := k.Dev(CLOCK);
    clk in k.mem && k.mem[clk] + |k.Q(clk)| == 0 && (clk in k.asl ==> k.asl[clk] != [])
  }

  /** One round of handlePseudoClock's loop. */
  function DrainOne(k: Kernel): Kernel
    requires ClockOk(k) && k.mem[k.Dev(CLOCK)] < 0
  {
    var clk := k.Dev(CLOCK);
    var k1 := AddMem(k, clk, 1);
    Enqueue(k1.(asl := SetQ(k.asl, clk, k.Q(clk)[1..])), k.Q(clk)[0]).(softBlockCount := k.softBlockCount - 1)
  }

  lemma DrainRound(k: Kernel)
    requires ClockOk(k) && k.mem[k.Dev(CLOCK)] < 0
    ensures ClockOk(DrainOne(k)) && DrainClock(DrainOne(k)) == DrainClock(k) && k.Q(k.Dev(CLOCK)) != []
    ensures DrainOne(k).mem[k.Dev(CLOCK)] == k.mem[k.Dev(CLOCK)] + 1
  {
    var clk, l := k.Dev(CLOCK), DrainOne(k);
    assert l.Dev(CLOCK) == clk && l.Q(clk) == k.Q(clk)[1..];
    assert l.mem[clk := 0] == k.mem[clk := 0];
    assert SetQ(l.asl, clk, []) == SetQ(k.asl, clk, []);
  }

  lemma DrainDone(k: Kernel)
    requires ClockOk(k) && k.mem[k.Dev(CLOCK)] >= 0
    ensures DrainClock(k) == k
  {
    var clk := k.Dev(CLOCK);
    assert k.Q(clk) == [];
    assert k.mem[clk := 0] == k.mem;
    assert SetQ(k.asl, clk, []) == k.asl;
  }

  lemma ClockIs(k: Kernel)
    requires Partition(k) && Semaphores(k)
    ensures ClockOk(k)
  {
    DeviceKey(k, CLOCK);
  }

  lemma {:induction false} FirstPendingIs(bitmap: seq<bool>, i: nat)
    requires i <= |bitmap| && (forall j :: 0 <= j < i ==> !bitmap[j]) && (i < |bitmap| ==> bitmap[i])
    ensures FirstPending(bitmap) == if i < |bitmap| then Some(i) else None
  {
    if i > 0 {
      assert forall j :: 0 <= j < i - 1 ==> bitmap[1..][j] == bitmap[j + 1];
      FirstPendingIs(bitmap[1..], i - 1);
    }
  }

  lemma DeviceLists(k: Kernel, i: int)
    requires Partition(k) && Semaphores(k) && 0 <= i < SEMDEVLEN
    ensures Lists(k) && k.Dev(i) in k.mem
  {
    DeviceKey(k, i);
  }

  /** Taking p out of a ready queue it is not in changes nothing. */
  lemma NotReady(k: Kernel, p: Slot)
    requires p !in k.ready
    ensures Without(k.ready, {p}) == k.ready && k.(ready := Without(k.ready, {p})) == k
  {
    WithoutAbsent(k.ready, {p});
  }

  // ---- boot ---------------------------------------------------------------

  /** The state after initPcbs and initASL. */
  function Empty(n: nat, dev: Addr, mem: map<Addr, int>): Kernel {
    Kernel(dev, seq(n, i => BLANK_PCB), Down(n), 1, [], map[], mem, 0, 0, None, 0)
  }

  /** A state with every PCB free. */
  lemma EmptyOk(n: nat, dev: Addr, k: Kernel, mem: map<Addr, int>)
    requires k.(pStart := 0) == Empty(n, dev, mem) && n > 0
    ensures Partition(k) && Forest(k) && k.free != []
  {
    forall p: Slot | p < n
      ensures p in k.free
    {
      assert Down(n)[n - 1 - p] == p;
    }
  }

  /** The semaphores of user programs, and the first n device semaphores at zero. */
  function Zeroed(mem: map<Addr, int>, dev: Addr, n: nat): map<Addr, int> {
    map a | a in mem.Keys + DevKeys(dev, n) :: if a in DevKeys(dev, n) then 0 else mem[a]
  }

  lemma ZeroNone(mem: map<Addr, int>, dev: Addr)
    ensures Zeroed(mem, dev, 0) == mem
  {
    assert mem.Keys + DevKeys(dev, 0) == mem.Keys;
  }

  lemma EmptyMem(n: nat, dev: Addr, k: Kernel, m: map<Addr, int>, l: map<Addr, int>)
    requires k.(pStart := 0) == Empty(n, dev, m)
    ensures k.(mem := l).(pStart := 0) == Empty(n, dev, l)
  {
  }

  lemma ZeroNext(mem: map<Addr, int>, dev: Addr, i: nat)
    ensures Zeroed(mem, dev, i)[dev + 4 * i := 0] == Zeroed(mem, dev, i + 1)
  {
    assert DevKeys(dev, i + 1) == DevKeys(dev, i) + {dev + 4 * i};
  }

  /** p leaves the free list, ready to start in state init. */
  function WithFirst(k: Kernel, p: Slot, init: Context): Kernel
    requires p < |k.pcb| && k.free != []
  {
    k.(free := k.free[1..], nextPid := k.nextPid + 1, pcb := k.pcb[p := FreshPcb(k.nextPid, init, 0, NULL, None)],
       ready := InsertProc(k.ready, p, k.pcb[p := FreshPcb(k.nextPid, init, 0, NULL, None)]),
       processCount := k.processCount + 1)
  }

  /** main makes the process ready before it fills in its state. */
  lemma FirstSteps(k: Kernel, p: Slot, init: Context)
    requires k.free != [] && p == k.free[0] && p < |k.pcb|
    ensures var u := k.pcb[p := FreshPcb(k.nextPid, Context(0, 0, 0), 0, NULL, None)];
      WithFirst(k, p, init) == k.(free := k.free[1..], nextPid := k.nextPid + 1, pcb := u[p := u[p].(ctx := init)],
        ready := InsertProc(k.ready, p, u), processCount := k.processCount + 1)
  {
    var u := k.pcb[p := FreshPcb(k.nextPid, Context(0, 0, 0), 0, NULL, None)];
    var w := u[p := u[p].(ctx := init)];
    assert w == k.pcb[p := FreshPcb(k.nextPid, init, 0, NULL, None)];
    InsertProcPrio(k.ready, p, u, w);
  }

  lemma InitialSteps(n: nat, dev: Addr, mem: map<Addr, int>, init: Context, t: int, k: Kernel)
    requires n > 0 && k.(pStart := 0) == Empty(n, dev, Zeroed(mem, dev, SEMDEVLEN))
    ensures k.free != [] && k.free[0] < |k.pcb|
    ensures Schedule(WithFirst(k, k.free[0], init), t) == Boot(n, dev, mem, init, t)
  {
    var l := WithFirst(k, k.free[0], init);
    assert l.ready == [n - 1];
    assert l.pcb == Initial(n, dev, mem, init, t).pcb;
    assert l.mem == Initial(n, dev, mem, init, t).mem;
  }
}
