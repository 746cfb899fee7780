/** From a device's command register to its semaphore and back to the process that asked. */
module DeviceMap {
  import opened Sequences
  import opened KernelState
  import opened KernelSteps
  import opened CallNumbers
  import opened KernelInvariant
  import opened KernelRuns
  import opened SemaphoreRuns
  import opened SemaphoreQueues
  import opened ReadyOrder

  /** A sub-device: only terminals, on line 7, have a transmitter. */
  predicate SubDevice(line: int, dev: int, tx: bool) { 3 <= line <= 7 && 0 <= dev < 8 && (tx ==> line == 7) }

  /** Its command register: the third word of a terminal's transmitter half, the second of anything else. */
  function Command(line: int, dev: int, tx: bool): int { RegisterBase(line, dev) + Offset(tx) }

  function Offset(tx: bool): int { if tx then 0xC else 4 }

  /** DoIO and handleDevice agree on the semaphore of every sub-device, and it is never the clock's. */
  lemma SameIndex(line: int, dev: int, tx: bool)
    requires SubDevice(line, dev, tx)
    ensures DeviceRegister(Command(line, dev, tx))
    ensures IoIndex(Command(line, dev, tx)) == SemNumber(line, dev, Offset(tx)) == IrqIndex(line, dev, tx)
    ensures 0 <= IrqIndex(line, dev, tx) < 48 && CLOCK == 48
  {
    RegisterIndex(line, dev, Offset(tx));
  }

  /** Different sub-devices have different semaphores. */
  lemma IndexInjective(line: int, dev: int, tx: bool, line': int, dev': int, tx': bool)
    requires SubDevice(line, dev, tx) && SubDevice(line', dev', tx')
    requires IrqIndex(line, dev, tx) == IrqIndex(line', dev', tx')
    ensures line == line' && dev == dev' && tx == tx'
  {
  }

  /** c waits on a all through the run. */
  ghost predicate KeepsWaiting(k: Kernel, es: seq<Event>, a: Addr, c: Slot)
    requires Inv(k)
  {
    c in Exec(k, es).Q(a) && (es != [] ==> KeepsWaiting(k, es[..|es| - 1], a, c))
  }

  /** An interrupt on a that wakes somebody. */
  predicate WakesOn(k: Kernel, e: Event, a: Addr) {
    IrqSem(k, e) == Some(a) && a in k.mem && k.mem[a] < 0 && k.Q(a) != []
  }

  ghost function Wakings(a: Addr): (Kernel, Event) -> bool { (k, e) => WakesOn(k, e, a) }

  lemma {:induction false} RankWithout(q: seq<Slot>, dead: set<Slot>, c: Slot)
    requires c in q && c !in dead
    ensures Rank(Without(q, dead), c) <= Rank(q, c)
    ensures q[0] in dead ==> Rank(Without(q, dead), c) < Rank(q, c)
  {
    if q[0] != c {
      assert q == [q[0]] + q[1..];
      RankWithout(q[1..], dead, c);
      if q[0] !in dead {
        assert Without(q, dead)[1..] == Without(q[1..], dead);
      }
    }
  }

  lemma {:induction false} RankAppend(q: seq<Slot>, r: seq<Slot>, c: Slot)
    requires c in q
    ensures Rank(q + r, c) == Rank(q, c)
  {
    if q[0] != c {
      assert q == [q[0]] + q[1..] && (q + r)[1..] == q[1..] + r;
      RankAppend(q[1..], r, c);
    }
  }

  /** A waiter that stays is never pushed back, and an interrupt that wakes somebody moves it up. */
  lemma PlaceStep(k: Kernel, e: Event, a: Addr, c: Slot)
    requires Inv(k) && c in k.Q(a) && c in Step(k, e).Q(a) && a != k.Dev(CLOCK)
    ensures Step(k, e).dev == k.dev
    ensures Rank(Step(k, e).Q(a), c) + Bit(Enabled(k, e) && WakesOn(k, e, a)) <= Rank(k.Q(a), c)
  {
    hide Handle, Inv;
    StepDev(k, e);
    if Enabled(k, e) {
      var gone := StepQueue(k, e, a);
      CurrentNotQueued(k, a);
      var rest := Without(k.Q(a), gone);
      RankWithout(k.Q(a), gone, c);
      RankAppend(rest, if Joins(k, e, a) then [k.current.value] else [], c);
    }
  }

  /** First come, first served: every interrupt that wakes somebody brings a waiter one place nearer the head. */
  lemma {:induction false} MovesUp(k: Kernel, es: seq<Event>, a: Addr, c: Slot)
    requires Inv(k) && c in k.Q(a) && KeepsWaiting(k, es, a, c) && a != k.Dev(CLOCK)
    ensures Exec(k, es).dev == k.dev && c in Exec(k, es).Q(a)
    ensures Rank(Exec(k, es).Q(a), c) + CountIf(k, es, Wakings(a)) <= Rank(k.Q(a), c)
  {
    hide Handle, Step, Inv;
    if es != [] {
      MovesUp(k, es[..|es| - 1], a, c);
      PlaceStep(Exec(k, es[..|es| - 1]), es[|es| - 1], a, c);
    }
  }

  /** DOIO on a sub-device makes the caller the last of its waiters. */
  lemma IoJoins(k: Kernel, e: Event, line: int, dev: int, tx: bool)
    requires Inv(k) && SubDevice(line, dev, tx)
    requires Enabled(k, e) && e.Syscall? && e.call == DoIOCall(Command(line, dev, tx))
    ensures var a, l := k.Dev(IrqIndex(line, dev, tx)), Step(k, e);
      l.Q(a) == k.Q(a) + [k.current.value] && l.dev == k.dev && a in l.mem && a != l.Dev(CLOCK)
    ensures Rank(Step(k, e).Q(k.Dev(IrqIndex(line, dev, tx))), k.current.value) == |k.Q(k.Dev(IrqIndex(line, dev, tx)))|
  {
    hide Handle;
    var a := k.Dev(IrqIndex(line, dev, tx));
    SameIndex(line, dev, tx);
    DeviceKey(k, IrqIndex(line, dev, tx));
    StepSem(k, e, a);
    var gone := StepQueue(k, e, a);
    NoneGone(k.Q(a));
    CurrentNotQueued(k, a);
    RankLast(k.Q(a), k.current.value);
  }

  lemma {:induction false} RankLast(q: seq<Slot>, c: Slot)
    requires c !in q
    ensures Rank(q + [c], c) == |q|
  {
    if q != [] {
      assert q == [q[0]] + q[1..] && (q + [c])[1..] == q[1..] + [c];
      RankLast(q[1..], c);
    }
  }

  lemma InterruptStep(k: Kernel, e: Event, a: Addr)
    requires Inv(k) && Enabled(k, e) && IrqSem(k, e) == Some(a) && k.Q(a) != []
    requires a in k.mem && Balance(k, a) == 0
    ensures var l, c := Step(k, e), k.Q(a)[0];
      && c < |k.pcb| && c < |l.pcb| && l.pcb[c].ctx == k.pcb[c].ctx.(a0 := IrqStatus(e))
      && (c in l.ready || l.current == Some(c))
  {
    hide Handle, Inv;
    InterruptWakes(k, e, a);
  }

  /** d is the pending device of lowest number. */
  predicate LowestPending(pending: seq<bool>, d: int) {
    0 <= d < |pending| && pending[d] && forall j :: 0 <= j < d ==> !pending[j]
  }

  lemma {:induction false} LowestIsFirst(pending: seq<bool>, d: nat)
    requires LowestPending(pending, d)
    ensures FirstPending(pending) == Some(d)
  {
    if d > 0 {
      LowestIsFirst(pending[1..], d - 1);
    }
  }

  /** The half of the device that raised the interrupt: a terminal's transmitter exactly if the low byte b of the
      transmitter's status c:b is 5, else the receiver; other lines have one half. */
  predicate Raises(e: Event, line: int, d: int, tx: bool, c: int, b: int) {
    && e.Device? && e.line == line && LowestPending(e.pending, d)
    && e.regs.transm == 0x100 * c + b && 0 <= b < 0x100 && (tx <==> line == 7 && b == 5)
  }

  /** The status that half reports. */
  function Reported(e: Event, tx: bool): int
    requires e.Device?
  {
    if tx then e.regs.transm else e.regs.status
  }

  /** On raw registers: which semaphore handleDevice signals, and which status it hands on. */
  lemma RaisedFrom(k: Kernel, e: Event, line: int, d: int, tx: bool, c: int, b: int)
    requires 3 <= line <= 7 && 0 <= d < 8 && Raises(e, line, d, tx, c, b)
    ensures IrqSem(k, e) == Some(k.dev + 4 * if tx then 40 + d else 8 * (line - 3) + d)
    ensures IrqStatus(e) == Reported(e, tx) && FirstPending(e.pending) == Some(d) && TransmitDone(line, e.regs) == tx
  {
    LowestIsFirst(e.pending, d);
    assert e.regs.transm % 0x100 == b;
  }

  /** An interrupt of terminal d with low byte 5 in its transmitter's status wakes the first waiter of semaphore 40 + d
      with that status in a0, any other one of line 3 to 7 that of 8 (line - 3) + d with the device's status, if the
      waiters outnumber the surplus; else it wakes nobody. */
  lemma InterruptByRegisters(k: Kernel, e: Event, line: int, d: int, tx: bool, c: int, b: int)
    requires Inv(k) && Enabled(k, e) && Raises(e, line, d, tx, c, b)
    ensures k.dev + 4 * (if tx then 40 + d else 8 * (line - 3) + d) in k.mem
    ensures var a, l := k.dev + 4 * (if tx then 40 + d else 8 * (line - 3) + d), Handle(k, e).k;
      var q := k.Q(a);
      if |q| > Balance(k, a) then
        && q != [] && l.Q(a) == q[1..] && q[0] < |k.pcb| && q[0] < |l.pcb|
        && l.pcb[q[0]].ctx == k.pcb[q[0]].ctx.(a0 := Reported(e, tx))
        && (q[0] in l.ready || l.current == Some(q[0]))
      else l.Q(a) == q && l.ready == k.ready && l.current == k.current
  {
    hide Handle, Inv;
    RaisedFrom(k, e, line, d, tx, c, b);
    InterruptWakes(k, e, k.dev + 4 * (if tx then 40 + d else 8 * (line - 3) + d));
  }

  /** I/O end to end: once the interrupts of a sub-device have served as many waiters as stood before a process
      that asked for it, the next one, if no interrupt is in surplus, wakes that process with its status in a0. */
  lemma IoDelivered(
      k: Kernel, e: Event, es: seq<Event>, irq: Event, line: int, dev: int, tx: bool, c: int, b: int)
    requires Inv(k) && SubDevice(line, dev, tx)
    requires Enabled(k, e) && e.Syscall? && e.call == DoIOCall(Command(line, dev, tx))
    requires KeepsWaiting(Step(k, e), es, k.Dev(IrqIndex(line, dev, tx)), k.current.value)
    requires var a := k.Dev(IrqIndex(line, dev, tx)); CountIf(Step(k, e), es, Wakings(a)) >= |k.Q(a)|
    requires Enabled(Exec(Step(k, e), es), irq) && Raises(irq, line, dev, tx, c, b)
    requires var m, a := Exec(Step(k, e), es), k.Dev(IrqIndex(line, dev, tx)); a in m.mem && Balance(m, a) == 0
    ensures var m, p := Exec(Step(k, e), es), k.current.value; var l := Step(m, irq);
      && p < |m.pcb| && p < |l.pcb| && l.pcb[p].ctx == m.pcb[p].ctx.(a0 := Reported(irq, tx))
      && (p in l.ready || l.current == Some(p))
  {
    hide Handle, Inv, Step;
    var a, p := k.Dev(IrqIndex(line, dev, tx)), k.current.value;
    IoJoins(k, e, line, dev, tx);
    MovesUp(Step(k, e), es, a, p);
    RaisedFrom(Exec(Step(k, e), es), irq, line, dev, tx, c, b);
    InterruptStep(Exec(Step(k, e), es), irq, a);
  }
}
