/** From the event that takes a process off the CPU to the one that puts it back: which state is loaded. */
module ContextSwitches {
  import opened Sequences
  import opened KernelState
  import opened KernelSteps
  import opened KernelRuns
  import opened SemaphoreRuns
  import opened ReadyQueue
  import opened ProcessRuns
  import opened SchedulerVerdicts
  import opened SemaphoreQueues

  /** e takes p off the CPU, p stays off it all through es, and then f puts it back. */
  ghost predicate OffAndOn(k: Kernel, e: Event, es: seq<Event>, f: Event, p: Slot) {
    && Inv(k) && Enabled(k, e) && Leaves(k, e) && k.current == Some(p)
    && Away(Step(k, e), es, p)
    && Enabled(Exec(Step(k, e), es), f) && Dispatches(Handle(Exec(Step(k, e), es), f), p)
  }

  /** The state that f loads. */
  ghost function Loaded(k: Kernel, e: Event, es: seq<Event>, f: Event, p: Slot): Context
    requires OffAndOn(k, e, es, f, p)
  {
    Handle(Exec(Step(k, e), es), f).out.next
  }

  /** In state k the event f is an interrupt of the device of semaphore a, and it wakes p. */
  ghost predicate WakesFrom(k: Kernel, f: Event, a: Addr, p: Slot) {
    Enabled(k, f) && IrqSem(k, f) == Some(a) && WokenBy(k, f) == Some(p)
  }

  // ---- the queue of the process -------------------------------------------

  /** The process that leaves the CPU joins the queue it waits on, and no other. */
  lemma JoinsQueue(k: Kernel, e: Event, a: Addr)
    requires Inv(k) && Enabled(k, e) && Leaves(k, e)
    ensures k.current.value in Step(k, e).Q(a) <==> Waits(k, e, a)
    ensures Step(k, e).dev == k.dev
  {
    hide Handle, Inv;
    var gone := StepQueue(k, e, a);
    CurrentNotQueued(k, a);
    StepDev(k, e);
  }

  lemma GoneFrom(k: Kernel, e: Event, p: Slot, a: Addr, gone: set<Slot>)
    requires Inv(k) && Enabled(k, e) && Step(k, e).Live(p) && Fifo(k, e, Step(k, e), a, gone)
    requires k.IsDevice(a) && a != k.Dev(CLOCK) && p in k.Q(a) && p !in Step(k, e).Q(a)
    ensures WakesFrom(k, e, a, p)
  {
    hide Handle, Inv;
    assert p in gone;
    assert gone == Woken(k, e, a);
  }

  /** Off the CPU a process joins no queue, and it leaves that of a device only woken by that device. */
  lemma QueueStep(k: Kernel, e: Event, p: Slot, a: Addr)
    requires Inv(k) && k.Live(p) && Step(k, e).Live(p) && k.current != Some(p)
    ensures p in Step(k, e).Q(a) ==> p in k.Q(a)
    ensures k.IsDevice(a) && a != k.Dev(CLOCK) && p in k.Q(a) && p !in Step(k, e).Q(a) ==> WakesFrom(k, e, a, p)
  {
    hide Handle, Inv;
    if Enabled(k, e) {
      var gone := StepQueue(k, e, a);
      if k.IsDevice(a) && a != k.Dev(CLOCK) && p in k.Q(a) && p !in Step(k, e).Q(a) {
        GoneFrom(k, e, p, a, gone);
      }
    }
  }

  /** Whom a device wakes was in its queue. */
  lemma WokenFromQueue(k: Kernel, e: Event, p: Slot)
    requires Inv(k) && Enabled(k, e) && WokenBy(k, e) == Some(p)
    ensures IrqSem(k, e).Some? && p in k.Q(IrqSem(k, e).value)
    ensures exists i :: 0 <= i < CLOCK && IrqSem(k, e).value == k.Dev(i)
  {
    var i := IrqIndex(e.line, FirstPending(e.pending).value, TransmitDone(e.line, e.regs));
    assert 0 <= i < CLOCK && IrqSem(k, e).value == k.Dev(i);
  }

  // ---- while it is off the CPU --------------------------------------------

  lemma AwayPrefix(k: Kernel, es: seq<Event>, p: Slot)
    requires Inv(k) && Away(k, es, p) && es != []
    ensures var n := |es| - 1; Away(k, es[..n], p) && Exec(k, es[..n]).Live(p) && Exec(k, es[..n]).current != Some(p)
  {
    hide Handle, Step, Inv;
    assert Away(k, es[..|es| - 1], p);
  }

  lemma {:induction false} QueueAway(k: Kernel, es: seq<Event>, p: Slot, a: Addr)
    requires Inv(k) && Away(k, es, p) && p in Exec(k, es).Q(a)
    ensures p in k.Q(a)
  {
    hide Handle, Step, Inv;
    if es != [] {
      var n := |es| - 1;
      AwayPrefix(k, es, p);
      QueueStep(Exec(k, es[..n]), es[n], p, a);
      QueueAway(k, es[..n], p, a);
    }
  }

  lemma {:induction false} DevAway(k: Kernel, es: seq<Event>)
    requires Inv(k)
    ensures Exec(k, es).dev == k.dev
  {
    hide Handle, Step, Inv;
    if es != [] {
      DevAway(k, es[..|es| - 1]);
      StepDev(Exec(k, es[..|es| - 1]), es[|es| - 1]);
    }
  }

  /** p waits for no device. */
  ghost predicate NoDevice(k: Kernel, p: Slot) { forall i :: 0 <= i < CLOCK ==> p !in k.Q(k.Dev(i)) }

  lemma NoWakeNow(k: Kernel, es: seq<Event>, f: Event, p: Slot)
    requires Inv(k) && Away(k, es, p) && NoDevice(k, p) && Enabled(Exec(k, es), f)
    ensures WokenBy(Exec(k, es), f) != Some(p)
  {
    hide Handle, Step, Inv, WokenBy;
    var m := Exec(k, es);
    DevAway(k, es);
    assert forall i :: 0 <= i < CLOCK ==> m.Dev(i) == k.Dev(i) && p !in k.Q(m.Dev(i));
    if WokenBy(m, f) == Some(p) {
      WokenFromQueue(m, f, p);
      QueueAway(k, es, p, IrqSem(m, f).value);
    }
  }

  /** A process that waits for no device keeps its whole saved state. */
  lemma {:induction false} KeptWhole(k: Kernel, es: seq<Event>, p: Slot)
    requires Inv(k) && Away(k, es, p) && NoDevice(k, p) && p < |k.pcb|
    ensures Expected(k, es, p) == k.pcb[p].ctx
  {
    hide Handle, Step, Inv, WokenBy;
    if es != [] {
      var n := |es| - 1;
      AwayPrefix(k, es, p);
      KeptWhole(k, es[..n], p);
      if Enabled(Exec(k, es[..n]), es[n]) {
        NoWakeNow(k, es[..n], es[n], p);
      }
    }
  }

  // ---- what is loaded -----------------------------------------------------

  lemma SavedNow(k: Kernel, e: Event, p: Slot)
    requires Inv(k) && Enabled(k, e) && Leaves(k, e) && k.current == Some(p)
    ensures p < |Step(k, e).pcb| && Step(k, e).pcb[p].ctx == Saved(e)
  {
    hide Handle, Inv;
    CurrentNotQueued(k, NULL);
    StepPcb(k, e);
    assert Creates(k, e, p) ==> p in k.free;
  }

  lemma LoadedIs(k: Kernel, e: Event, es: seq<Event>, f: Event, p: Slot)
    requires OffAndOn(k, e, es, f, p)
    ensures p < |Step(k, e).pcb| && Loaded(k, e, es, f, p) == Expected(Step(k, e), es + [f], p)
  {
    hide Handle, Inv, Step;
    SavedNow(k, e, p);
    ResumesAsSaved(Step(k, e), es, f, p);
  }

  lemma ExpectedLast(k: Kernel, es: seq<Event>, f: Event, p: Slot)
    requires Inv(k) && p < |k.pcb| && Enabled(Exec(k, es), f)
    ensures Expected(k, es + [f], p) ==
      if WokenBy(Exec(k, es), f) == Some(p) then Expected(k, es, p).(a0 := IrqStatus(f)) else Expected(k, es, p)
  {
    hide Handle, Step, Inv;
    assert (es + [f])[..|es|] == es;
  }

  lemma WaitsForNoDevice(k: Kernel, e: Event)
    requires Inv(k) && Enabled(k, e) && Leaves(k, e) && !(e.Syscall? && e.call.DoIOCall?)
    ensures NoDevice(Step(k, e), k.current.value)
  {
    hide Handle, Inv, Step;
    forall i | 0 <= i < CLOCK
      ensures k.current.value !in Step(k, e).Q(Step(k, e).Dev(i))
    {
      JoinsQueue(k, e, k.Dev(i));
    }
  }

  /** A process that left the CPU by anything but DOIO is loaded exactly as it was saved. */
  lemma LoadedAsSaved(k: Kernel, e: Event, es: seq<Event>, f: Event, p: Slot)
    requires OffAndOn(k, e, es, f, p) && !(e.Syscall? && e.call.DoIOCall?)
    ensures Loaded(k, e, es, f, p) == Saved(e)
  {
    hide Handle, Inv, Step, Expected, WokenBy;
    var l := Step(k, e);
    SavedNow(k, e, p);
    LoadedIs(k, e, es, f, p);
    WaitsForNoDevice(k, e);
    KeptWhole(l, es, p);
    NoWakeNow(l, es, f, p);
    ExpectedLast(l, es, f, p);
  }

  /** The n-th event of the run is an interrupt of a that wakes p. */
  ghost predicate WokenAt(k: Kernel, es: seq<Event>, a: Addr, p: Slot, n: nat)
    requires Inv(k) && n < |es|
  {
    WakesFrom(Exec(k, es[..n]), es[n], a, p)
  }

  /** The device of a woke p in the run, and p is as it was at its start but for a0, the status of that interrupt. */
  ghost predicate Answered(k: Kernel, es: seq<Event>, a: Addr, p: Slot)
    requires Inv(k) && p < |k.pcb|
  {
    exists n: nat :: n < |es| && WokenAt(k, es, a, p, n) && Expected(k, es, p) == k.pcb[p].ctx.(a0 := IrqStatus(es[n]))
  }

  lemma AwayLives(k: Kernel, es: seq<Event>, p: Slot)
    requires Inv(k) && Away(k, es, p)
    ensures Exec(k, es).Live(p) && Exec(k, es).current != Some(p)
  {
    hide Handle, Step, Inv;
  }

  lemma ExpectedNone(k: Kernel, p: Slot)
    requires Inv(k) && p < |k.pcb|
    ensures Expected(k, [], p) == k.pcb[p].ctx && Exec(k, []) == k
  {
  }

  lemma AnsweredLast(k: Kernel, es: seq<Event>, f: Event, a: Addr, p: Slot)
    requires Inv(k) && p < |k.pcb| && WakesFrom(Exec(k, es), f, a, p) && Expected(k, es, p) == k.pcb[p].ctx
    ensures Answered(k, es + [f], a, p)
  {
    hide Handle, Step, Inv, WokenBy, Expected;
    ExpectedLast(k, es, f, p);
    assert (es + [f])[..|es|] == es;
    assert WokenAt(k, es + [f], a, p, |es|);
  }

  lemma AnsweredStill(k: Kernel, es: seq<Event>, f: Event, a: Addr, p: Slot)
    requires Inv(k) && p < |k.pcb| && Answered(k, es, a, p)
    requires Enabled(Exec(k, es), f) ==> WokenBy(Exec(k, es), f) != Some(p)
    ensures Answered(k, es + [f], a, p)
  {
    hide Handle, Step, Inv, WokenBy;
    var n: nat :| n < |es| && WokenAt(k, es, a, p, n) && Expected(k, es, p) == k.pcb[p].ctx.(a0 := IrqStatus(es[n]));
    assert (es + [f])[..|es|] == es && (es + [f])[..n] == es[..n];
    assert WokenAt(k, es + [f], a, p, n);
  }

  /** Only the device of a can wake p, and only from its queue. */
  lemma OnlyFrom(k: Kernel, es: seq<Event>, f: Event, a: Addr, p: Slot)
    requires Inv(k) && Away(k, es, p) && forall x :: p in k.Q(x) <==> x == a
    ensures Enabled(Exec(k, es), f) && WokenBy(Exec(k, es), f) == Some(p) ==>
      p in Exec(k, es).Q(a) && IrqSem(Exec(k, es), f) == Some(a)
  {
    hide Handle, Step, Inv, WokenBy;
    var m := Exec(k, es);
    if Enabled(m, f) && WokenBy(m, f) == Some(p) {
      WokenFromQueue(m, f, p);
      QueueAway(k, es, p, IrqSem(m, f).value);
    }
  }

  lemma WokenAway(k: Kernel, e: Event, p: Slot)
    requires Inv(k) && Enabled(k, e) && WokenBy(k, e) == Some(p)
    ensures !Step(k, e).Blocked(p)
  {
    hide Handle, Inv;
    WokenMoves(k, e, p);
  }

  lemma QueuedBlocked(k: Kernel, p: Slot, a: Addr)
    requires Inv(k) && p in k.Q(a)
    ensures k.Blocked(p)
  {
    assert p in k.asl[a];
  }

  lemma StillWaits(k: Kernel, es: seq<Event>, f: Event, a: Addr, p: Slot)
    requires Inv(k) && p < |k.pcb| && p in Exec(k, es).Q(a) && p in Step(Exec(k, es), f).Q(a)
    requires Expected(k, es, p) == k.pcb[p].ctx && Step(Exec(k, es), f).Live(p)
    ensures Expected(k, es + [f], p) == k.pcb[p].ctx
  {
    hide Handle, Step, Inv, WokenBy;
    var m := Exec(k, es);
    assert (es + [f])[..|es|] == es;
    if Enabled(m, f) && WokenBy(m, f) == Some(p) {
      WokenAway(m, f, p);
      QueuedBlocked(Step(m, f), p, a);
    }
  }

  /** One more event, p still off the CPU after it. */
  lemma OneMore(k: Kernel, es: seq<Event>, f: Event, a: Addr, p: Slot)
    requires Inv(k) && Away(k, es, p) && p < |k.pcb| && k.IsDevice(a) && a != k.Dev(CLOCK)
    requires forall x :: p in k.Q(x) <==> x == a
    requires if p in Exec(k, es).Q(a) then Expected(k, es, p) == k.pcb[p].ctx else Answered(k, es, a, p)
    requires Exec(k, es).dev == k.dev && Exec(k, es + [f]).Live(p)
    ensures if p in Exec(k, es + [f]).Q(a) then Expected(k, es + [f], p) == k.pcb[p].ctx
            else Answered(k, es + [f], a, p)
  {
    hide Handle, Step, Inv, WokenBy, Answered, Expected;
    var m := Exec(k, es);
    AwayLives(k, es, p);
    assert (es + [f])[..|es|] == es;
    QueueStep(m, f, p, a);
    if p !in m.Q(a) {
      OnlyFrom(k, es, f, a, p);
      AnsweredStill(k, es, f, a, p);
    } else if p !in Step(m, f).Q(a) {
      AnsweredLast(k, es, f, a, p);
    } else {
      StillWaits(k, es, f, a, p);
    }
  }

  /** While p is off the CPU after it joined the queue of device semaphore a: it waits, unchanged, or was answered. */
  lemma {:induction false} WaitsOrAnswered(k: Kernel, es: seq<Event>, a: Addr, p: Slot)
    requires Inv(k) && Away(k, es, p) && p < |k.pcb| && k.IsDevice(a) && a != k.Dev(CLOCK)
    requires forall x :: p in k.Q(x) <==> x == a
    ensures if p in Exec(k, es).Q(a) then Expected(k, es, p) == k.pcb[p].ctx else Answered(k, es, a, p)
  {
    hide Handle, Step, Inv, WokenBy, Answered, Expected, Away;
    if es == [] {
      ExpectedNone(k, p);
    } else {
      var n := |es| - 1;
      assert es == es[..n] + [es[n]];
      AwayPrefix(k, es, p);
      AwayLives(k, es, p);
      WaitsOrAnswered(k, es[..n], a, p);
      DevAway(k, es[..n]);
      OneMore(k, es[..n], es[n], a, p);
    }
  }

  lemma DispatchedRuns(k: Kernel, f: Event, p: Slot)
    requires Inv(k) && Enabled(k, f) && Dispatches(Handle(k, f), p)
    ensures Step(k, f).current == Some(p)
  {
    hide Handle, Inv;
    StepShape(k, f);
  }

  /** The event that dispatches p. */
  lemma DispatchedAnswered(k: Kernel, es: seq<Event>, f: Event, a: Addr, p: Slot)
    requires Inv(k) && Away(k, es, p) && p < |k.pcb| && k.IsDevice(a) && a != k.Dev(CLOCK)
    requires forall x :: p in k.Q(x) <==> x == a
    requires if p in Exec(k, es).Q(a) then Expected(k, es, p) == k.pcb[p].ctx else Answered(k, es, a, p)
    requires Enabled(Exec(k, es), f) && Dispatches(Handle(Exec(k, es), f), p)
    ensures Answered(k, es + [f], a, p)
  {
    hide Handle, Step, Inv, WokenBy, Answered, Expected, Dispatches;
    DevAway(k, es);
    DispatchedRuns(Exec(k, es), f, p);
    CurrentNotQueued(Step(Exec(k, es), f), a);
    ExecLast(k, es, f);
    OneMore(k, es, f, a, p);
  }

  lemma AnsweredIs(k: Kernel, es: seq<Event>, a: Addr, p: Slot)
    requires Inv(k) && p < |k.pcb| && Answered(k, es, a, p)
    ensures var x := Expected(k, es, p);
      exists n: nat :: n < |es| && WokenAt(k, es, a, p, n) && x == k.pcb[p].ctx.(a0 := IrqStatus(es[n]))
  {
  }

  lemma IoRange(cmd: int)
    requires DeviceRegister(cmd)
    ensures 0 <= IoIndex(cmd) < CLOCK
  {
  }

  lemma IoQueue(k: Kernel, e: Event, p: Slot)
    requires Inv(k) && Enabled(k, e) && e.Syscall? && e.call.DoIOCall? && k.current == Some(p)
    ensures var a, l := k.Dev(IoIndex(e.call.cmd)), Step(k, e);
      l.IsDevice(a) && a != l.Dev(CLOCK) && forall x :: p in l.Q(x) <==> x == a
  {
    hide Handle, Inv, Step, IoIndex;
    IoRange(e.call.cmd);
    StepDev(k, e);
    forall x
      ensures p in Step(k, e).Q(x) <==> x == k.Dev(IoIndex(e.call.cmd))
    {
      JoinsQueue(k, e, x);
    }
  }

  /** DOIO returns the device's status: the caller is loaded as it was saved, with a0 the status of an interrupt of
      the very device it asked, the one that woke it. */
  lemma IoReturnsStatus(k: Kernel, e: Event, es: seq<Event>, f: Event, p: Slot)
    requires OffAndOn(k, e, es, f, p) && e.Syscall? && e.call.DoIOCall?
    ensures var a, all := k.Dev(IoIndex(e.call.cmd)), es + [f];
      exists n: nat :: n < |all| && WokenAt(Step(k, e), all, a, p, n) &&
        Loaded(k, e, es, f, p) == Saved(e).(a0 := IrqStatus(all[n]))
  {
    hide Handle, Inv, Step, Expected, WokenBy, Answered, Exec, Away;
    var a, l := k.Dev(IoIndex(e.call.cmd)), Step(k, e);
    IoQueue(k, e, p);
    SavedNow(k, e, p);
    LoadedIs(k, e, es, f, p);
    WaitsOrAnswered(l, es, a, p);
    DispatchedAnswered(l, es, f, a, p);
    AnsweredIs(l, es + [f], a, p);
  }

  /** A process that yields to nobody is loaded again at once, as it was saved. */
  lemma LoadedAtOnce(k: Kernel, e: Event, p: Slot)
    requires Inv(k) && Enabled(k, e) && Leaves(k, e) && k.current == Some(p) && Dispatches(Handle(k, e), p)
    ensures Handle(k, e).out.next == Saved(e)
  {
    hide Handle, Inv;
    SavedNow(k, e, p);
    StepPcb(k, e);
  }
}
