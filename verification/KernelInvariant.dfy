/** Every handler except process creation and termination keeps the invariant. */
module KernelInvariant {
  import opened Sequences
  import opened KernelState
  import opened KernelSteps
  import opened KernelMoves

  lemma FreeAtMost(k: Kernel)
    requires Partition(k)
    ensures |k.free| <= |k.pcb|
    ensures |k.free| == |k.pcb| ==> forall p: Slot :: !k.Live(p)
    ensures k.current.Some? || k.ready != [] ==> |k.free| < |k.pcb|
  {
    NoDupCard(k.free);
    var all := Below(|k.pcb|);
    assert Elems(k.free) <= all;
    SubsetCard(Elems(k.free), all);
    if |k.free| == |k.pcb| {
      forall p: Slot | p < |k.pcb|
        ensures p in k.free
      {
        assert p in all;
      }
    }
    if k.current.Some? || k.ready != [] {
      var p := if k.current.Some? then k.current.value else k.ready[0];
      assert p in k.ready || k.current == Some(p);
      assert OnePlace(k, p);
      assert p in all && p !in Elems(k.free);
    }
  }

  /** The scheduler keeps the invariant and one of its three cases always applies. */
  lemma ScheduleKeeps(k: Kernel, t: int)
    requires Core(k) && k.current.None?
    ensures Inv(Schedule(k, t).k) && Schedule(k, t).out != Spin
    ensures Schedule(k, t).out.Dispatch? <==> k.ready != []
  {
    FreeAtMost(k);
    var l := Schedule(k, t).k;
    if k.ready != [] {
      DispatchParts(k, t);
      ForestFrame(k, l);
      SemaphoresFrame(k, l);
    }
  }

  lemma RequeueKeeps(k: Kernel, l: Kernel)
    requires Core(k) && k.current.Some? && SameLinks(k, l)
    requires l.dev == k.dev && l.free == k.free && l.asl == k.asl && l.current == None
    requires l.mem == k.mem && l.nextPid == k.nextPid
    requires l.processCount == k.processCount && l.softBlockCount == k.softBlockCount
    requires NoDup(l.ready) && forall p :: p in l.ready <==> p in k.ready || p == k.current.value
    ensures Core(l)
  {
    RequeueParts(k, l);
    ForestFrame(k, l);
    SemaphoresFrame(k, l);
  }

  lemma YieldKeeps(k: Kernel, ctx: Context, t1: int, t2: int)
    requires Inv(k) && k.current.Some?
    ensures Inv(Yield(k, ctx, t1, t2).k)
  {
    var k1 := LeaveCpu(k, SavePc(ctx), t1);
    LeaveCpuFrame(k, SavePc(ctx), t1);
    assert OnePlace(k, k.current.value);
    var l := k1.(ready := k1.ready + [k.current.value], current := None);
    RequeueKeeps(k, l);
    ScheduleKeeps(l, t2);
  }

  lemma PLTKeeps(k: Kernel, ctx: Context, t1: int, t2: int)
    requires Inv(k)
    ensures Inv(HandlePLT(k, ctx, t1, t2).k)
    ensures k.current.Some? ==> HandlePLT(k, ctx, t1, t2).out.Dispatch?
  {
    if k.current.Some? {
      LeaveCpuFrame(k, ctx, t1);
      assert OnePlace(k, k.current.value);
      var k1 := Enqueue(LeaveCpu(k, ctx, t1), k.current.value);
      InsertProcNoDup(k.ready, k.current.value, k1.pcb);
      var l := k1.(current := None);
      RequeueKeeps(k, l);
      ScheduleKeeps(l, t2);
      assert Schedule(k1, t2) == Schedule(l, t2);
    } else {
      var l := k.(pStart := t1);
      CoreFrame(k, l);
      ScheduleKeeps(l, t2);
    }
  }

  // ---- P and V ------------------------------------------------------------

  /** What the caller of P or V promises: a semaphore in memory that is no device's. */
  predicate UserSem(k: Kernel, a: Addr) { a in k.mem && a != NULL && !k.IsDevice(a) }

  /** Everything but the queue of a and the running process stays as it was. */
  ghost predicate OneQueue(k: Kernel, l: Kernel, a: Addr) {
    && SameTree(k, l) && l.dev == k.dev && l.free == k.free && l.nextPid == k.nextPid
    && l.processCount == k.processCount && a in k.mem && l.mem.Keys == k.mem.Keys
    && (forall x :: x in k.mem && x != a ==> l.mem[x] == k.mem[x])
  }

  lemma DeviceIndex(k: Kernel, a: Addr)
    requires Semaphores(k)
    ensures k.IsDevice(a) && (a - k.dev) % 4 == 0 ==> a in k.mem && k.mem[a] + |k.Q(a)| >= 0
  {
    if k.IsDevice(a) && (a - k.dev) % 4 == 0 {
      assert a == k.Dev((a - k.dev) / 4);
    }
  }

  lemma BlockKeeps(k: Kernel, l: Kernel, a: Addr)
    requires Core(k) && k.current.Some? && a != NULL && OneQueue(k, l, a)
    requires k.IsDevice(a) ==> (a - k.dev) % 4 == 0
    requires !k.IsDevice(a) ==> k.mem[a] <= 0
    requires l.ready == k.ready && l.current == None && l.mem[a] == k.mem[a] - 1
    requires l.softBlockCount == k.softBlockCount + if k.IsDevice(a) then 1 else 0
    requires l.asl == SetQ(k.asl, a, k.Q(a) + [k.current.value])
    requires forall p: Slot :: p < |k.pcb| ==>
      l.pcb[p].semAdd == if p == k.current.value then a else k.pcb[p].semAdd
    ensures Core(l)
  {
    var c := k.current.value;
    assert OnePlace(k, c);
    BlockMove(k, l, a);
    SoftSetMove(k, l, c, a);
    DeviceIndex(k, a);
    SemaphoreStep(k, l, a);
    ForestFrame(k, l);
  }

  lemma WakeKeeps(k: Kernel, l: Kernel, a: Addr)
    requires Core(k) && k.Q(a) != [] && OneQueue(k, l, a)
    requires l.current == k.current && l.mem[a] == k.mem[a] + 1
    requires l.softBlockCount == k.softBlockCount - if k.IsDevice(a) then 1 else 0
    requires l.asl == SetQ(k.asl, a, k.Q(a)[1..])
    requires forall p: Slot :: p < |k.pcb| ==> l.pcb[p].semAdd == k.pcb[p].semAdd
    requires l.ready == InsertProc(k.ready, k.Q(a)[0], k.pcb)
    ensures Core(l)
  {
    var p := k.Q(a)[0];
    assert p in k.asl[a];
    assert k.Blocked(p) && OnePlace(k, p);
    InsertProcNoDup(k.ready, p, k.pcb);
    WakeMove(k, l, a);
    SoftSetMove(k, l, p, a);
    DeviceIndex(k, a);
    SemaphoreStep(k, l, a);
    ForestFrame(k, l);
  }

  /** A value that may change alone. */
  lemma ValueKeeps(k: Kernel, l: Kernel, a: Addr)
    requires Core(k) && a in k.mem && l == k.(mem := l.mem) && OneQueue(k, l, a)
    requires !k.IsDevice(a) ==> k.Q(a) == [] && l.mem[a] >= 0
    requires k.IsDevice(a) ==> (a - k.dev) % 4 == 0 && a != k.Dev(CLOCK) && l.mem[a] >= k.mem[a]
    ensures Core(l)
  {
    PartitionFrame(k, l);
    ForestFrame(k, l);
    DeviceIndex(k, a);
    SemaphoreStep(k, l, a);
  }

  lemma PasserenKeeps(k: Kernel, a: Addr, ctx: Context, t1: int, t2: int)
    requires Inv(k) && k.current.Some? && UserSem(k, a)
    ensures Inv(Passeren(k, a, ctx, t1, t2).k)
  {
    hide Schedule;
    var k1 := AddMem(k, a, -1);
    if k1.mem[a] >= 0 {
      ValueKeeps(k, k1, a);
    } else {
      DescriptorFree(k);
      var l := BlockCurrent(LeaveCpu(k1, SavePc(ctx), t1), a);
      BlockKeeps(k, l, a);
      ScheduleKeeps(l, t2);
    }
  }

  lemma DeviceKey(k: Kernel, i: int)
    requires Semaphores(k) && 0 <= i < SEMDEVLEN
    ensures var a := k.Dev(i); a in k.mem && a != NULL && k.IsDevice(a) && (a - k.dev) % 4 == 0
  {
    assert k.Dev(i) - k.dev == 4 * i;
  }

  lemma SoftWaitKeeps(k: Kernel, a: Addr, ctx: Context, t: int)
    requires Inv(k) && k.current.Some? && a in k.mem && a != NULL && k.IsDevice(a) && (a - k.dev) % 4 == 0
    ensures Core(SoftWait(k, a, ctx, t)) && SoftWait(k, a, ctx, t).current == None
  {
    DescriptorFree(k);
    BlockKeeps(k, SoftWait(k, a, ctx, t), a);
  }

  lemma SoftBlockKeeps(k: Kernel, a: Addr, ctx: Context, t1: int, t2: int)
    requires Inv(k) && k.current.Some? && a in k.mem && a != NULL && k.IsDevice(a) && (a - k.dev) % 4 == 0
    ensures Inv(SoftBlock(k, a, ctx, t1, t2).k)
  {
    SoftWaitKeeps(k, a, ctx, t1);
    ScheduleKeeps(SoftWait(k, a, ctx, t1), t2);
  }

  lemma VerhogenKeeps(k: Kernel, a: Addr, ctx: Context)
    requires Inv(k) && k.current.Some? && UserSem(k, a)
    ensures Inv(Verhogen(k, a, ctx).k)
  {
    var k1 := AddMem(k, a, 1);
    if k1.mem[a] <= 0 {
      WakeKeeps(k, WakeOne(k1, a), a);
    } else {
      ValueKeeps(k, k1, a);
    }
  }

  // ---- interrupts ---------------------------------------------------------

  lemma ResumeOrScheduleKeeps(k: Kernel, ctx: Context, t2: int)
    requires Core(k)
    ensures Inv(ResumeOrSchedule(k, ctx, t2).k) && ResumeOrSchedule(k, ctx, t2).out != Spin
  {
    if k.current.None? {
      ScheduleKeeps(k, t2);
    }
  }

  lemma UpdateCpuTimeKeeps(k: Kernel, t: int)
    requires Core(k)
    ensures Core(UpdateCpuTime(k, t))
  {
    CoreFrame(k, UpdateCpuTime(k, t));
  }

  lemma CompleteWakes(k: Kernel, a: Addr, status: int)
    requires Core(k) && a in k.mem && k.IsDevice(a) && (a - k.dev) % 4 == 0 && k.mem[a] < 0 && k.Q(a) != []
    ensures Core(Complete(k, a, status))
  {
    hide Complete, Core, Lists, OneQueue, InsertProc, SetQ;
    CoreLists(k);
    CompleteMoves(k, a, status);
    WakeKeeps(k, Complete(k, a, status), a);
  }

  lemma RunningLives(k: Kernel)
    requires Core(k) && k.current.Some?
    ensures Partition(k) && Forest(k) && k.Live(k.current.value)
  {
    assert OnePlace(k, k.current.value);
  }

  lemma CoreLists(k: Kernel)
    requires Core(k)
    ensures Lists(k)
  {
  }

  /** The V of a device interrupt that wakes the head of its queue. */
  lemma CompleteMoves(k: Kernel, a: Addr, status: int)
    requires Lists(k) && a in k.mem && k.mem[a] < 0 && k.Q(a) != []
    requires k.IsDevice(a)
    ensures var l := Complete(k, a, status);
      && OneQueue(k, l, a) && l.current == k.current && l.mem[a] == k.mem[a] + 1
      && l.softBlockCount == k.softBlockCount - 1 && l.asl == SetQ(k.asl, a, k.Q(a)[1..])
      && (forall p: Slot :: p < |k.pcb| ==> l.pcb[p].semAdd == k.pcb[p].semAdd)
      && l.ready == InsertProc(k.ready, k.Q(a)[0], k.pcb)
  {
    hide InsertProc, SetQ;
    var p := k.Q(a)[0];
    assert p in k.asl[a];
    InsertProcPrio(k.ready, p, k.pcb, k.pcb[p := k.pcb[p].(ctx := k.pcb[p].ctx.(a0 := status))]);
  }

  lemma CompleteKeeps(k: Kernel, a: Addr, status: int)
    requires Core(k) && a in k.mem && k.IsDevice(a) && (a - k.dev) % 4 == 0 && a != k.Dev(CLOCK)
    ensures Core(Complete(k, a, status)) && Complete(k, a, status).current == k.current
  {
    if k.mem[a] < 0 && k.Q(a) != [] {
      CompleteWakes(k, a, status);
    } else {
      ValueKeeps(k, Complete(k, a, status), a);
    }
  }

  lemma DeviceKeeps(k: Kernel, line: int, pending: seq<bool>, regs: DevRegs, ctx: Context, t1: int, t2: int)
    requires Inv(k) && 3 <= line <= 7 && |pending| == 8
    ensures Inv(HandleDevice(k, line, pending, regs, ctx, t1, t2).k)
  {
    match FirstPending(pending)
    case None => ResumeOrScheduleKeeps(k, ctx, t2);
    case Some(d) =>
      var tx := TransmitDone(line, regs);
      var st := if tx then regs.transm else regs.status;
      var i := IrqIndex(line, d, tx);
      DeviceKey(k, i);
      CompleteKeeps(k, k.Dev(i), st);
      var k1 := Complete(k, k.Dev(i), st);
      if k1.current.Some? {
        UpdateCpuTimeKeeps(k1, t1);
      } else {
        ScheduleKeeps(k1, t2);
      }
  }

  // ---- the pseudo-clock ---------------------------------------------------

  lemma {:induction false} EnqueueAllOk(ready: seq<Slot>, q: seq<Slot>, pcb: seq<Pcb>)
    requires NoDup(ready) && NoDup(q) && forall x :: x in q ==> x !in ready
    ensures NoDup(EnqueueAll(ready, q, pcb))
    ensures forall x :: x in EnqueueAll(ready, q, pcb) <==> x in ready || x in q
    decreases |q|
  {
    if q != [] {
      var r := InsertProc(ready, q[0], pcb);
      InsertProcNoDup(ready, q[0], pcb);
      assert q == [q[0]] + q[1..];
      EnqueueAllOk(r, q[1..], pcb);
    }
  }

  /** Every process queued on a becomes ready. */
  lemma DrainMove(k: Kernel, l: Kernel, a: Addr)
    requires Partition(k) && a != NULL && l.pcb == k.pcb
    requires l.dev == k.dev && l.free == k.free && l.current == k.current
    requires l.asl == SetQ(k.asl, a, [])
    requires NoDup(l.ready) && forall x :: x in l.ready <==> x in k.Q(a) || x in k.ready
    ensures Partition(l) && l.Q(a) == [] && forall x :: x != a ==> l.Q(x) == k.Q(x)
    ensures forall p: Slot :: l.Blocked(p) <==> k.Blocked(p) && p !in k.Q(a)
  {
    SetQOk(k, l, a, []);
    assert forall p: Slot :: l.Blocked(p) <==> k.Blocked(p) && p !in k.Q(a);
    forall p: Slot | p < |l.pcb|
      ensures OnePlace(l, p)
    {
      assert OnePlace(k, p);
      assert p in k.Q(a) ==> k.Blocked(p);
    }
  }

  lemma DrainCount(k: Kernel, l: Kernel, a: Addr)
    requires AslOk(k) && k.IsDevice(a) && l.pcb == k.pcb && l.dev == k.dev
    requires forall p: Slot :: l.Blocked(p) <==> k.Blocked(p) && p !in k.Q(a)
    ensures |l.SoftSet()| == |k.SoftSet()| - |k.Q(a)|
  {
    var q := k.Q(a);
    NoDupCard(q);
    forall p | p in q
      ensures p < |k.pcb| && k.SoftBlocked(p)
    {
      assert p in k.asl[a];
    }
    forall p: Slot
      ensures p in l.SoftSet() <==> p in k.SoftSet() && p !in Elems(q)
    {
      assert l.SoftBlocked(p) <==> k.SoftBlocked(p) && p !in q;
    }
    MinusCard(k.SoftSet(), l.SoftSet(), Elems(q));
  }

  lemma DrainKeeps(k: Kernel)
    requires Core(k)
    ensures k.Dev(CLOCK) in k.mem && Core(DrainClock(k))
  {
    var clk, l := k.Dev(CLOCK), DrainClock(k);
    var q := k.Q(clk);
    DeviceKey(k, CLOCK);
    forall p | p in q
      ensures p !in k.ready
    {
      assert p in k.asl[clk];
      assert k.Blocked(p) && OnePlace(k, p);
    }
    assert q != [] ==> clk in k.asl;
    EnqueueAllOk(k.ready, q, k.pcb);
    DrainMove(k, l, clk);
    DrainCount(k, l, clk);
    SemaphoreStep(k, l, clk);
    ForestFrame(k, l);
  }

  lemma PseudoClockKeeps(k: Kernel, ctx: Context, t1: int, t2: int)
    requires Inv(k)
    ensures k.Dev(CLOCK) in k.mem && Inv(HandlePseudoClock(k, ctx, t1, t2).k)
  {
    DrainKeeps(k);
    UpdateCpuTimeKeeps(DrainClock(k), t1);
    ResumeOrScheduleKeeps(UpdateCpuTime(DrainClock(k), t1), ctx, t2);
  }
}
