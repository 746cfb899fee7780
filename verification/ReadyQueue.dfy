/** How each event changes the ready queue, and what that means for order, waiting and priority. */
module ReadyQueue {
  import opened Sequences
  import opened KernelState
  import opened KernelSteps
  import opened KernelMoves
  import opened KernelInvariant
  import opened KernelRuns
  import opened SemaphoreRuns

  /** What happens to the ready queue before the scheduler looks at it. */
  datatype Change =
    | Same
    | Insert(p: Slot)          // insertProcQ
    | Append(p: Slot)          // Yield
    | Delete(dead: set<Slot>)  // termination
    | Drain(q: seq<Slot>)      // the pseudo-clock's waiters, inserted in turn

  function Apply(c: Change, ready: seq<Slot>, pcb: seq<Pcb>): seq<Slot> {
    match c
    case Same => ready
    case Insert(p) => InsertProc(ready, p, pcb)
    case Append(p) => ready + [p]
    case Delete(dead) => Without(ready, dead)
    case Drain(q) => EnqueueAll(ready, q, pcb)
  }

  /** What an event does to the ready queue. */
  ghost function ChangeOf(k: Kernel, e: Event): Change
    requires Inv(k) && Enabled(k, e)
  {
    match e
    case Syscall(_, _, _, _) => CallChange(k, e)
    case Trap(_, _) =>
      assert OnePlace(k, k.current.value);
      if k.pcb[k.current.value].support == NULL then Delete(Elems(Post(k, k.current.value))) else Same
    case PLT(_, _, _) => if k.current.Some? then Insert(k.current.value) else Same
    case PseudoClock(_, _, _) => Drain(k.Q(k.Dev(CLOCK)))
    case Device(_, _, _, _, _, _) => if IrqSem(k, e).Some? then WakeChange(k, IrqSem(k, e).value) else Same
  }

  ghost function CallChange(k: Kernel, e: Event): Change
    requires Inv(k) && Enabled(k, e) && e.Syscall?
  {
    match e.call
    case CreateProcessCall(_, _, _) => if k.free == [] then Same else Insert(k.free[0])
    case TermProcessCall(pid) =>
      assert OnePlace(k, k.current.value);
      var target := if pid == 0 then k.current else FindPid(k, pid);
      if target.Some? then Delete(Elems(Post(k, target.value))) else Same
    case VerhogenCall(a) => WakeChange(k, a)
    case YieldCall => Append(k.current.value)
    case _ => Same
  }

  /** A signal on a wakes the first waiter, if the value says that somebody waits. */
  function WakeChange(k: Kernel, a: Addr): Change {
    if a in k.mem && k.mem[a] < 0 && k.Q(a) != [] then Insert(k.Q(a)[0]) else Same
  }

  /** The processes a change brings in. */
  function Arrivals(c: Change): seq<Slot> {
    match c
    case Insert(p) => [p]
    case Append(p) => [p]
    case Drain(q) => q
    case _ => []
  }

  ghost predicate NewTo(c: Change, ready: seq<Slot>) {
    NoDup(Arrivals(c)) && forall p :: p in Arrivals(c) ==> p !in ready
  }

  /** The ready queue m after the change, possibly without its dispatched head. */
  ghost predicate Scheduled(m: seq<Slot>, r: Res) {
    if r.out.Dispatch? then m != [] && r.out.p == m[0] && r.k.ready == m[1..] else r.k.ready == m
  }

  ghost predicate SamePrio(k: Kernel, l: Kernel, ready: seq<Slot>) {
    |l.pcb| == |k.pcb| && forall p :: p in ready ==> Prio(l.pcb, p) == Prio(k.pcb, p)
  }

  /** The change c describes what an event did to the ready queue. */
  ghost predicate Describes(k: Kernel, r: Res, c: Change) {
    && NewTo(c, k.ready) && SamePrio(k, r.k, k.ready)
    && Scheduled(Apply(c, k.ready, r.k.pcb), r)
  }

  lemma ScheduleReady(k: Kernel, ctx: Context, t: int)
    ensures Scheduled(k.ready, Schedule(k, t)) && Schedule(k, t).k.pcb == k.pcb
    ensures k.ready == [] || k.current.None? ==> Scheduled(k.ready, ResumeOrSchedule(k, ctx, t))
    ensures k.current.Some? ==> Scheduled(k.ready, ResumeOrSchedule(k, ctx, t))
    ensures ResumeOrSchedule(k, ctx, t).k.pcb == k.pcb
  {
  }

  lemma NothingHappened(k: Kernel, r: Res)
    requires r.k == k && !r.out.Dispatch?
    ensures Describes(k, r, Same)
  {
  }

  lemma CreateReady(k: Kernel, e: Event)
    requires Inv(k) && Enabled(k, e) && e.Syscall? && e.call.CreateProcessCall?
    ensures Describes(k, Handle(k, e), ChangeOf(k, e))
  {
    hide Inv, Core, Forest, AddChild, Apply, NewTo, SamePrio;
    SemParts(k);
    RunningLives(k);
    if k.free != [] {
      CreatedReady(k, e.call.child, e.call.prio, e.call.support);
    } else {
      NothingHappened(k, Handle(k, e));
    }
  }

  lemma CreatedReady(k: Kernel, child: Context, prio: int, support: int)
    requires Partition(k) && k.current.Some? && k.free != []
    ensures k.current.value < |k.pcb| && k.free[0] < |k.pcb|
    ensures var l, c := AddChild(k, k.current.value, child, prio, support), Insert(k.free[0]);
      NewTo(c, k.ready) && SamePrio(k, l, k.ready) && l.ready == Apply(c, k.ready, l.pcb)
  {
    hide InsertProc;
    assert k.free[0] in k.free && OnePlace(k, k.free[0]) && OnePlace(k, k.current.value);
  }

  lemma KillReady(k: Kernel, o: seq<Slot>, ctx: Context, t2: int)
    ensures Describes(k, KillAndGo(k, o, ctx, t2), Delete(Elems(o)))
    ensures forall p :: p in o ==> p in KillAndGo(k, o, ctx, t2).k.free
  {
    var l := Kill(k, o);
    ScheduleReady(l, SavePc(ctx), t2);
    hide Kill;
    KillIs(k, o);
  }

  lemma DieReady(k: Kernel, o: seq<Slot>, t2: int)
    ensures Describes(k, Die(k, o, t2), Delete(Elems(o)))
    ensures forall p :: p in o ==> p in Die(k, o, t2).k.free
  {
    var l := Kill(k, o).(current := None);
    ScheduleReady(l, Context(0, 0, 0), t2);
    hide Kill;
    KillIs(k, o);
  }

  lemma KillIs(k: Kernel, o: seq<Slot>)
    ensures var l := Kill(k, o); l.ready == Without(k.ready, Elems(o)) && SamePrio(k, l, k.ready)
    ensures forall p :: p in o ==> p in Kill(k, o).free
  {
  }

  lemma BlockReady(k: Kernel, a: Addr, ctx: Context, t1: int, t2: int)
    requires Partition(k) && k.current.Some? && a in k.mem
    ensures Describes(k, Passeren(k, a, ctx, t1, t2), Same)
  {
    ScheduleReady(BlockCurrent(LeaveCpu(AddMem(k, a, -1), SavePc(ctx), t1), a), ctx, t2);
  }

  lemma SoftBlockReady(k: Kernel, a: Addr, ctx: Context, t1: int, t2: int)
    requires Partition(k) && k.current.Some? && a in k.mem
    ensures Describes(k, SoftBlock(k, a, ctx, t1, t2), Same)
  {
    ScheduleReady(SoftWait(k, a, ctx, t1), ctx, t2);
  }

  lemma VerhogenReady(k: Kernel, a: Addr, ctx: Context)
    requires Partition(k) && a in k.mem
    ensures Describes(k, Verhogen(k, a, ctx), WakeChange(k, a))
  {
    if k.mem[a] < 0 && k.Q(a) != [] {
      var p := k.Q(a)[0];
      assert p in k.asl[a];
      assert k.Blocked(p) && OnePlace(k, p);
    }
  }

  lemma YieldReady(k: Kernel, ctx: Context, t1: int, t2: int)
    requires Partition(k) && k.current.Some?
    ensures Describes(k, Yield(k, ctx, t1, t2), Append(k.current.value))
  {
    assert OnePlace(k, k.current.value);
    var k1 := LeaveCpu(k, SavePc(ctx), t1);
    ScheduleReady(k1.(ready := k1.ready + [k.current.value], current := None), ctx, t2);
  }

  lemma PLTReady(k: Kernel, ctx: Context, t1: int, t2: int)
    requires Partition(k)
    ensures Describes(k, HandlePLT(k, ctx, t1, t2), if k.current.Some? then Insert(k.current.value) else Same)
  {
    if k.current.Some? {
      assert OnePlace(k, k.current.value);
      var l := LeaveCpu(k, ctx, t1);
      LeaveCpuFrame(k, ctx, t1);
      hide LeaveCpu, InsertProc;
      ScheduleReady(Enqueue(l, k.current.value), ctx, t2);
    } else {
      ScheduleReady(UpdateCpuTime(k, t1), ctx, t2);
    }
  }

  lemma {:induction false} EnqueueAllPrio(ready: seq<Slot>, q: seq<Slot>, t: seq<Pcb>, u: seq<Pcb>)
    requires forall x :: x in ready || x in q ==> Prio(t, x) == Prio(u, x)
    ensures EnqueueAll(ready, q, t) == EnqueueAll(ready, q, u)
    decreases |q|
  {
    if q != [] {
      assert q[0] in q && forall x :: x in q[1..] ==> x in q;
      InsertProcPrio(ready, q[0], t, u);
      EnqueueAllPrio(InsertProc(ready, q[0], t), q[1..], t, u);
    }
  }

  lemma ClockReady(k: Kernel, ctx: Context, t1: int, t2: int)
    requires Partition(k) && k.Dev(CLOCK) in k.mem
    ensures Describes(k, HandlePseudoClock(k, ctx, t1, t2), Drain(k.Q(k.Dev(CLOCK))))
  {
    hide DrainClock, UpdateCpuTime, Apply, NewTo;
    ClockNew(k);
    ClockApplied(k, t1);
    ScheduleReady(UpdateCpuTime(DrainClock(k), t1), ctx, t2);
  }

  lemma ClockNew(k: Kernel)
    requires Partition(k)
    ensures NewTo(Drain(k.Q(k.Dev(CLOCK))), k.ready)
  {
    var clk := k.Dev(CLOCK);
    forall p | p in k.Q(clk)
      ensures p !in k.ready
    {
      assert p in k.asl[clk];
      assert k.Blocked(p) && OnePlace(k, p);
    }
    assert k.Q(clk) != [] ==> clk in k.asl;
  }

  /** The ready queue once the clock's waiters joined it and the time was charged. */
  lemma ClockApplied(k: Kernel, t1: int)
    requires Lists(k) && k.Dev(CLOCK) in k.mem
    ensures DrainClock(k).current.Some? ==> DrainClock(k).current.value < |DrainClock(k).pcb|
    ensures var c, l := Drain(k.Q(k.Dev(CLOCK))), UpdateCpuTime(DrainClock(k), t1);
      SamePrio(k, l, k.ready) && l.ready == Apply(c, k.ready, l.pcb)
  {
    hide EnqueueAll, Lists;
    ListsCurrent(k);
    EnqueueAllPrio(k.ready, k.Q(k.Dev(CLOCK)), k.pcb, UpdateCpuTime(DrainClock(k), t1).pcb);
  }

  lemma ListsCurrent(k: Kernel)
    requires Lists(k)
    ensures k.current.Some? ==> k.current.value < |k.pcb|
  {
  }

  lemma DoneReady(k: Kernel, a: Addr, status: int, ctx: Context, t1: int, t2: int)
    requires Partition(k) && a in k.mem
    ensures Describes(k, DeviceDone(k, a, status, ctx, t1, t2), WakeChange(k, a))
  {
    var k1 := Complete(k, a, status);
    CompleteReady(k, a, status);
    ScheduleReady(k1, ctx, t2);
    if k1.current.Some? {
      ChangeRetimed(k, k1, UpdateCpuTime(k1, t1), WakeChange(k, a));
    }
    hide Complete, WakeChange, Apply, Schedule;
  }

  /** What a signal on a makes of the ready queue. */
  lemma CompleteReady(k: Kernel, a: Addr, status: int)
    requires Partition(k) && a in k.mem
    ensures var l, c := Complete(k, a, status), WakeChange(k, a);
      NewTo(c, k.ready) && SamePrio(k, l, k.ready) && l.ready == Apply(c, k.ready, l.pcb) && l.current == k.current
      && (c == Same || c.Insert?) && (l.current.Some? ==> l.current.value < |l.pcb|)
  {
    hide Complete, InsertProc;
    CompleteEffect(k, a, status);
    CompleteTable(k, a, status);
    if k.mem[a] < 0 && k.Q(a) != [] {
      var p := k.Q(a)[0];
      assert p in k.asl[a];
      assert k.Blocked(p) && OnePlace(k, p);
    }
  }

  /** Charging time does not change what was inserted where. */
  lemma ChangeRetimed(k: Kernel, l: Kernel, u: Kernel, c: Change)
    requires (c == Same || c.Insert?) && SamePrio(k, l, k.ready) && l.ready == Apply(c, k.ready, l.pcb)
    requires u.ready == l.ready && |u.pcb| == |l.pcb| && forall p: Slot :: Prio(u.pcb, p) == Prio(l.pcb, p)
    ensures SamePrio(k, u, k.ready) && u.ready == Apply(c, k.ready, u.pcb)
  {
    if c.Insert? {
      InsertProcPrio(k.ready, c.p, l.pcb, u.pcb);
    }
  }

  lemma DeviceReady(k: Kernel, e: Event)
    requires Inv(k) && Enabled(k, e) && e.Device?
    ensures Describes(k, Handle(k, e), ChangeOf(k, e))
  {
    if FirstPending(e.pending).Some? {
      DeviceKey(k, IrqIndex(e.line, FirstPending(e.pending).value, TransmitDone(e.line, e.regs)));
      DoneReady(k, IrqSem(k, e).value, IrqStatus(e), e.ctx, e.t1, e.t2);
    } else {
      ScheduleReady(k, e.ctx, e.t2);
    }
  }

  /** The processes a change deletes are dead. */
  ghost predicate DeadFreed(c: Change, l: Kernel) { c.Delete? ==> forall p :: p in c.dead ==> p in l.free }

  lemma TerminateReady(k: Kernel, e: Event)
    requires Inv(k) && Enabled(k, e) && e.Syscall? && e.call.TermProcessCall?
    ensures Describes(k, Handle(k, e), ChangeOf(k, e)) && DeadFreed(ChangeOf(k, e), Handle(k, e).k)
  {
    hide Inv, Core, Forest, Partition, KillAndGo, Post, Describes;
    SemParts(k);
    RunningLives(k);
    var target := if e.call.pid == 0 then k.current else FindPid(k, e.call.pid);
    if target.Some? {
      KillReady(k, Post(k, target.value), e.ctx, e.t2);
    } else {
      NothingHappened(k, Handle(k, e));
    }
  }

  lemma TrapReady(k: Kernel, e: Event)
    requires Inv(k) && Enabled(k, e) && e.Trap?
    ensures Describes(k, Handle(k, e), ChangeOf(k, e)) && DeadFreed(ChangeOf(k, e), Handle(k, e).k)
  {
    hide Inv, Core, Forest, Partition, Die, Post, Describes;
    SemParts(k);
    RunningLives(k);
    if k.pcb[k.current.value].support == NULL {
      DieReady(k, Post(k, k.current.value), e.t2);
    } else {
      NothingHappened(k, Handle(k, e));
    }
  }

  lemma SyscallReady(k: Kernel, e: Event)
    requires Inv(k) && Enabled(k, e) && e.Syscall?
    ensures Describes(k, Handle(k, e), ChangeOf(k, e)) && DeadFreed(ChangeOf(k, e), Handle(k, e).k)
  {
    match e.call
    case CreateProcessCall(child, prio, support) => CreateReady(k, e);
    case TermProcessCall(pid) => TerminateReady(k, e);
    case PasserenCall(a) => BlockReady(k, a, e.ctx, e.t1, e.t2);
    case VerhogenCall(a) => VerhogenReady(k, a, e.ctx);
    case DoIOCall(cmd) =>
      DeviceKey(k, IoIndex(cmd));
      SoftBlockReady(k, k.Dev(IoIndex(cmd)), e.ctx, e.t1, e.t2);
    case ClockWaitCall =>
      DeviceKey(k, CLOCK);
      SoftBlockReady(k, k.Dev(CLOCK), e.ctx, e.t1, e.t2);
    case YieldCall => YieldReady(k, e.ctx, e.t1, e.t2);
    case _ =>
  }

  /** ChangeOf is what every event does to the ready queue, before the scheduler may take its head;
      whoever it deletes is dead. */
  lemma StepReady(k: Kernel, e: Event)
    requires Inv(k) && Enabled(k, e)
    ensures Describes(k, Handle(k, e), ChangeOf(k, e)) && DeadFreed(ChangeOf(k, e), Handle(k, e).k)
  {
    match e
    case Syscall(_, _, _, _) => SyscallReady(k, e);
    case Trap(_, _) => TrapReady(k, e);
    case PLT(ctx, t1, t2) => PLTReady(k, ctx, t1, t2);
    case PseudoClock(ctx, t1, t2) =>
      DeviceKey(k, CLOCK);
      ClockReady(k, ctx, t1, t2);
    case Device(_, _, _, _, _, _) => DeviceReady(k, e);
  }

  // ---- leaving the queue --------------------------------------------------

  /** The event dispatches x, or x is dead after it. */
  ghost predicate Served(k: Kernel, e: Event, x: Slot)
    requires Inv(k)
  {
    Enabled(k, e) && (Dispatches(Handle(k, e), x) || x in Handle(k, e).k.free)
  }

  predicate Dispatches(r: Res, x: Slot) { r.out.Dispatch? && r.out.p == x }

  lemma {:induction false} EnqueueAllKeeps(ready: seq<Slot>, q: seq<Slot>, pcb: seq<Pcb>, x: Slot)
    requires x in ready
    ensures x in EnqueueAll(ready, q, pcb)
    decreases |q|
  {
    if q != [] {
      EnqueueAllKeeps(InsertProc(ready, q[0], pcb), q[1..], pcb, x);
    }
  }

  lemma StaysOrDies(c: Change, ready: seq<Slot>, pcb: seq<Pcb>, x: Slot)
    requires x in ready
    ensures x in Apply(c, ready, pcb) || (c.Delete? && x in c.dead)
  {
    hide InsertProc, EnqueueAll;
    if c.Drain? {
      EnqueueAllKeeps(ready, c.q, pcb, x);
    }
  }

  lemma LeavesBy(k: Kernel, r: Res, c: Change, x: Slot)
    requires Describes(k, r, c) && DeadFreed(c, r.k) && x in k.ready && x !in r.k.ready
    ensures Dispatches(r, x) || x in r.k.free
  {
    hide Apply, NewTo, SamePrio;
    var m := Apply(c, k.ready, r.k.pcb);
    StaysOrDies(c, k.ready, r.k.pcb, x);
    if r.out.Dispatch? {
      assert m == [m[0]] + m[1..];
    }
  }

  /** A process leaves the ready queue only by being dispatched or by dying. */
  lemma LeavesReady(k: Kernel, e: Event, x: Slot)
    requires Inv(k) && Enabled(k, e) && x in k.ready && x !in Handle(k, e).k.ready
    ensures Served(k, e, x)
  {
    hide Handle, ChangeOf, Describes, DeadFreed;
    StepReady(k, e);
    LeavesBy(k, Handle(k, e), ChangeOf(k, e), x);
  }

  // ---- no overtaking ------------------------------------------------------

  /** Whoever stays keeps their relative place. */
  ghost predicate SameOrder(q: seq<Slot>, r: seq<Slot>) {
    forall x, y :: x in q && y in q && x in r && y in r ==> (Before(q, x, y) <==> Before(r, x, y))
  }

  lemma PutOrder(q: seq<Slot>, r: seq<Slot>, p: Slot)
    requires NoDup(q + ([p] + r))
    ensures SameOrder(q + r, q + ([p] + r))
  {
    var s := q + ([p] + r);
    assert s[|q|] == p;
    forall x, y | x in q + r && y in q + r
      ensures Before(q + r, x, y) <==> Before(s, x, y)
    {
      assert forall i :: 0 <= i < |q + r| ==> (q + r)[i] == s[if i < |q| then i else i + 1];
      BeforeInsert(q, r, p, x, y);
    }
  }

  /** insertProcQ splits the queue: nobody of lower priority before p, and a lower one right after it. */
  lemma InsertSplit(q: seq<Slot>, p: Slot, pcb: seq<Pcb>) returns (a: seq<Slot>, b: seq<Slot>)
    ensures q == a + b && InsertProc(q, p, pcb) == a + ([p] + b)
    ensures forall x :: x in a ==> Prio(pcb, x) >= Prio(pcb, p)
    ensures b != [] ==> Prio(pcb, b[0]) < Prio(pcb, p)
  {
    var i := InsertPos(q, Prio(pcb, p), pcb);
    a, b := q[..i], q[i..];
  }

  lemma InsertOrder(q: seq<Slot>, p: Slot, pcb: seq<Pcb>)
    requires NoDup(q) && p !in q
    ensures SameOrder(q, InsertProc(q, p, pcb)) && NoDup(InsertProc(q, p, pcb))
  {
    InsertProcNoDup(q, p, pcb);
    var a, b := InsertSplit(q, p, pcb);
    PutOrder(a, b, p);
  }

  lemma {:induction false} DrainOrder(ready: seq<Slot>, q: seq<Slot>, pcb: seq<Pcb>)
    requires NoDup(ready) && NoDup(q) && forall x :: x in q ==> x !in ready
    ensures SameOrder(ready, EnqueueAll(ready, q, pcb))
    decreases |q|
  {
    if q != [] {
      var r := InsertProc(ready, q[0], pcb);
      assert q == [q[0]] + q[1..];
      InsertOrder(ready, q[0], pcb);
      DrainOrder(r, q[1..], pcb);
    }
  }

  lemma TailOrder(q: seq<Slot>)
    requires NoDup(q) && q != []
    ensures SameOrder(q, q[1..])
  {
    assert q == [q[0]] + q[1..];
    forall x, y | x in q[1..] && y in q[1..]
      ensures Before(q, x, y) <==> Before(q[1..], x, y)
    {
      BeforeAppend([q[0]], q[1..], x, y);
    }
  }

  lemma ApplyOrder(c: Change, ready: seq<Slot>, pcb: seq<Pcb>)
    requires NoDup(ready) && NewTo(c, ready)
    ensures NoDup(Apply(c, ready, pcb)) && SameOrder(ready, Apply(c, ready, pcb))
  {
    match c
    case Same =>
    case Insert(p) =>
      assert p in Arrivals(c);
      InsertOrder(ready, p, pcb);
    case Append(p) =>
      assert p in Arrivals(c);
      forall x, y | x in ready && y in ready
        ensures Before(ready, x, y) <==> Before(ready + [p], x, y)
      {
        BeforeAppend(ready, [p], x, y);
      }
    case Delete(dead) =>
      WithoutNoDup(ready, dead);
      forall x, y | x !in dead && y !in dead
        ensures Before(ready, x, y) <==> Before(Without(ready, dead), x, y)
      {
        BeforeWithout(ready, dead, x, y);
      }
    case Drain(q) =>
      EnqueueAllOk(ready, q, pcb);
      DrainOrder(ready, q, pcb);
  }

  /** No event changes the relative order of two processes that stay in the ready queue. */
  lemma NoReordering(k: Kernel, e: Event)
    requires Inv(k) && Enabled(k, e)
    ensures SameOrder(k.ready, Handle(k, e).k.ready)
  {
    hide Handle, ChangeOf, Describes;
    StepReady(k, e);
    ChangeOrder(k, Handle(k, e), ChangeOf(k, e));
  }

  lemma ChangeOrder(k: Kernel, r: Res, c: Change)
    requires NoDup(k.ready) && Describes(k, r, c)
    ensures SameOrder(k.ready, r.k.ready)
  {
    var m := Apply(c, k.ready, r.k.pcb);
    ApplyOrder(c, k.ready, r.k.pcb);
    if r.out.Dispatch? {
      TailOrder(m);
      assert forall x :: x in m[1..] ==> x in m;
    }
  }
}
