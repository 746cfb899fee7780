/** What one tick of the pseudo-clock does to its waiters. */
module PseudoClock {
  import opened Sequences
  import opened KernelState
  import opened KernelSteps
  import opened KernelInvariant
  import opened ReadyOrder

  /** Waiters of equal priority become ready in the order in which they waited. */
  lemma {:induction false} WaitersInOrder(ready: seq<Slot>, q: seq<Slot>, pcb: seq<Pcb>, x: Slot, y: Slot)
    requires NoDup(ready) && NoDup(q) && (forall p :: p in q ==> p !in ready)
    requires Before(q, x, y) && Prio(pcb, y) <= Prio(pcb, x)
    ensures Before(EnqueueAll(ready, q, pcb), x, y)
    decreases |q|
  {
    var r, t := InsertProc(ready, q[0], pcb), q[1..];
    assert q == [q[0]] + t;
    BeforeAppend([q[0]], t, x, y);
    InsertProcNoDup(ready, q[0], pcb);
    if x == q[0] {
      var at := InsertPos(ready, Prio(pcb, x), pcb);
      assert r[at] == x && Shield(pcb, r, at);
      DrainOvertakes(r, t, pcb, at, y);
    } else {
      WaitersInOrder(r, t, pcb, x, y);
    }
  }

  /** A tick wakes every waiter: the semaphore ends at zero with nobody queued, the soft-block count drops by the
      number of waiters, exactly they join the ready queue, and no other semaphore is touched. */
  lemma Tick(k: Kernel)
    requires Inv(k)
    ensures k.Dev(CLOCK) in k.mem
    ensures var l, clk := DrainClock(k), k.Dev(CLOCK);
      && k.mem[clk] == -|k.Q(clk)| && l.mem[clk] == 0 && l.Q(clk) == []
      && l.softBlockCount == k.softBlockCount - |k.Q(clk)| && |l.SoftSet()| == |k.SoftSet()| - |k.Q(clk)|
      && (forall p :: p in l.ready <==> p in k.ready || p in k.Q(clk)) && |l.ready| == |k.ready| + |k.Q(clk)|
      && (forall a :: a != clk ==> l.Q(a) == k.Q(a)) && (forall a :: a in k.mem && a != clk ==> l.mem[a] == k.mem[a])
  {
    DrainKeeps(k);
    ClockApart(k);
    EnqueueAllOk(k.ready, k.Q(k.Dev(CLOCK)), k.pcb);
    EnqueueAllLength(k.ready, k.Q(k.Dev(CLOCK)), k.pcb);
  }

  /** The order in which a tick makes its waiters ready. */
  lemma TickOrder(k: Kernel, x: Slot, y: Slot)
    requires Inv(k) && Before(k.Q(k.Dev(CLOCK)), x, y) && Prio(k.pcb, y) <= Prio(k.pcb, x)
    ensures k.Dev(CLOCK) in k.mem && Before(DrainClock(k).ready, x, y)
  {
    ClockApart(k);
    DeviceKey(k, CLOCK);
    WaitersInOrder(k.ready, k.Q(k.Dev(CLOCK)), k.pcb, x, y);
  }

  lemma ClockApart(k: Kernel)
    requires Inv(k)
    ensures NoDup(k.ready) && NoDup(k.Q(k.Dev(CLOCK))) && forall p :: p in k.Q(k.Dev(CLOCK)) ==> p !in k.ready
  {
    var clk := k.Dev(CLOCK);
    forall p | p in k.Q(clk)
      ensures p !in k.ready
    {
      assert p in k.asl[clk];
      assert k.Blocked(p) && OnePlace(k, p);
    }
  }

  lemma {:induction false} EnqueueAllLength(ready: seq<Slot>, q: seq<Slot>, pcb: seq<Pcb>)
    ensures |EnqueueAll(ready, q, pcb)| == |ready| + |q|
    decreases |q|
  {
    if q != [] {
      EnqueueAllLength(InsertProc(ready, q[0], pcb), q[1..], pcb);
    }
  }
}
