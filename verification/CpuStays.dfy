/** Who holds the CPU, since when, and where the interval that is charged next starts. */
module CpuStays {
  import opened Sequences
  import opened KernelState
  import opened KernelSteps
  import opened KernelInvariant
  import opened KernelRuns
  import opened SemaphoreRuns
  import opened ReadyQueue
  import opened ProcessRuns

  /** The event resets p_start before the scheduler may: it charges, GETTIME apart, or finds the CPU empty at the end of
      a time slice or at a tick. */
  predicate Restarts(k: Kernel, e: Event) {
    (Charges(k, e) && !IsGetTime(e)) || (k.current.None? && (e.PLT? || e.PseudoClock?))
  }

  /** The CPU changes hands by a dispatch only, which starts an interval then; whoever goes on is charged from the last
      charge on, GETTIME's apart. */
  ghost predicate CpuEffect(k: Kernel, e: Event, r: Res) {
    if r.out.Dispatch? then r.k.current == Some(r.out.p) && r.k.pStart == e.t2
    else
      && (r.k.current.Some? ==> r.k.current == k.current)
      && r.k.pStart == if Restarts(k, e) then e.t1 else k.pStart
  }

  lemma ScheduleCpu(k: Kernel, e: Event, l: Kernel)
    requires l.current.None? || l.ready != []
    requires l.pStart == if Restarts(k, e) then e.t1 else k.pStart
    ensures CpuEffect(k, e, Schedule(l, e.t2))
  {
  }

  /** A handler that ends without the scheduler. */
  lemma GoesOn(k: Kernel, e: Event, r: Res)
    requires !r.out.Dispatch? && r.k.current == k.current && r.k.pStart == k.pStart
    requires !Restarts(k, e)
    ensures CpuEffect(k, e, r)
  {
  }

  lemma PasserenCpu(k: Kernel, e: Event, a: Addr)
    requires Partition(k) && k.current.Some? && a in k.mem && e.Syscall? && e.call == PasserenCall(a)
    ensures CpuEffect(k, e, Passeren(k, a, e.ctx, e.t1, e.t2))
  {
    hide Schedule, CpuEffect;
    if k.mem[a] > 0 {
      GoesOn(k, e, Passeren(k, a, e.ctx, e.t1, e.t2));
    } else {
      ScheduleCpu(k, e, BlockCurrent(LeaveCpu(AddMem(k, a, -1), SavePc(e.ctx), e.t1), a));
    }
  }

  lemma SoftBlockCpu(k: Kernel, e: Event, a: Addr)
    requires Partition(k) && k.current.Some? && a in k.mem && e.Syscall? && (e.call.DoIOCall? || e.call.ClockWaitCall?)
    ensures CpuEffect(k, e, SoftBlock(k, a, e.ctx, e.t1, e.t2))
  {
    hide Schedule, CpuEffect;
    ScheduleCpu(k, e, SoftWait(k, a, e.ctx, e.t1));
  }

  lemma YieldCpu(k: Kernel, e: Event)
    requires Partition(k) && k.current.Some? && e.Syscall? && e.call == YieldCall
    ensures CpuEffect(k, e, Yield(k, e.ctx, e.t1, e.t2))
  {
    hide Schedule, CpuEffect;
    var k1 := LeaveCpu(k, SavePc(e.ctx), e.t1);
    ScheduleCpu(k, e, k1.(ready := k1.ready + [k.current.value], current := None));
  }

  lemma KillCpu(k: Kernel, e: Event, o: seq<Slot>, ctx: Context)
    requires !Restarts(k, e)
    ensures CpuEffect(k, e, KillAndGo(k, o, ctx, e.t2)) && CpuEffect(k, e, Die(k, o, e.t2))
  {
    hide Schedule, CpuEffect, Restarts, KillPcbs, KillQueues, KillMem;
    if Kill(k, o).current.Some? {
      GoesOn(k, e, KillAndGo(k, o, ctx, e.t2));
    } else {
      ScheduleCpu(k, e, Kill(k, o));
    }
    ScheduleCpu(k, e, Kill(k, o).(current := None));
  }

  lemma TerminateCpu(k: Kernel, e: Event)
    requires Core(k) && k.current.Some? && e.Syscall? && e.call.TermProcessCall?
    ensures CpuEffect(k, e, TerminateProcess(k, e.call.pid, e.ctx, e.t2))
  {
    hide Core, Forest, Partition, KillAndGo, Post, CpuEffect;
    RunningLives(k);
    var target := if e.call.pid == 0 then k.current else FindPid(k, e.call.pid);
    if target.Some? {
      KillCpu(k, e, Post(k, target.value), e.ctx);
    } else {
      GoesOn(k, e, TerminateProcess(k, e.call.pid, e.ctx, e.t2));
    }
  }

  lemma TrapCpu(k: Kernel, e: Event)
    requires Core(k) && k.current.Some? && e.Trap?
    ensures CpuEffect(k, e, PassUpOrDie(k, e.t2))
  {
    hide Core, Forest, Partition, Die, Post, CpuEffect;
    RunningLives(k);
    if k.pcb[k.current.value].support == NULL {
      KillCpu(k, e, Post(k, k.current.value), Context(0, 0, 0));
    } else {
      GoesOn(k, e, PassUpOrDie(k, e.t2));
    }
  }

  lemma SyscallCpu(k: Kernel, e: Event)
    requires Inv(k) && Enabled(k, e) && e.Syscall?
    ensures CpuEffect(k, e, Handle(k, e))
  {
    hide Inv, Core, Partition, Semaphores, Passeren, SoftBlock, TerminateProcess, Yield, AddChild, CpuEffect;
    SemParts(k);
    match e.call
    case TermProcessCall(_) => TerminateCpu(k, e);
    case PasserenCall(a) => PasserenCpu(k, e, a);
    case DoIOCall(cmd) =>
      DeviceKey(k, IoIndex(cmd));
      SoftBlockCpu(k, e, k.Dev(IoIndex(cmd)));
    case ClockWaitCall =>
      DeviceKey(k, CLOCK);
      SoftBlockCpu(k, e, k.Dev(CLOCK));
    case YieldCall => YieldCpu(k, e);
    case _ => PlainCpu(k, e);
  }

  lemma PlainCpu(k: Kernel, e: Event)
    requires Inv(k) && Enabled(k, e) && e.Syscall? && !e.call.TermProcessCall? && !e.call.PasserenCall?
    requires !e.call.DoIOCall? && !e.call.ClockWaitCall? && !e.call.YieldCall?
    ensures CpuEffect(k, e, Handle(k, e))
  {
    hide Inv, Core, Semaphores, InsertProc, CpuEffect;
    SemParts(k);
    GoesOn(k, e, Handle(k, e));
  }

  lemma PLTCpu(k: Kernel, e: Event)
    requires Partition(k) && e.PLT?
    ensures CpuEffect(k, e, HandlePLT(k, e.ctx, e.t1, e.t2))
  {
    hide Schedule, CpuEffect;
    if k.current.Some? {
      ScheduleCpu(k, e, Enqueue(LeaveCpu(k, e.ctx, e.t1), k.current.value));
    } else {
      ScheduleCpu(k, e, UpdateCpuTime(k, e.t1));
    }
  }

  lemma ClockCpu(k: Kernel, e: Event)
    requires Partition(k) && k.Dev(CLOCK) in k.mem && e.PseudoClock?
    ensures CpuEffect(k, e, HandlePseudoClock(k, e.ctx, e.t1, e.t2))
  {
    hide Schedule, EnqueueAll;
    if k.current.None? {
      ScheduleCpu(k, e, UpdateCpuTime(DrainClock(k), e.t1));
    }
  }

  lemma DeviceCpu(k: Kernel, e: Event)
    requires Partition(k) && Semaphores(k) && e.Device? && 3 <= e.line <= 7 && |e.pending| == 8
    ensures CpuEffect(k, e, HandleDevice(k, e.line, e.pending, e.regs, e.ctx, e.t1, e.t2))
  {
    hide Schedule, Semaphores, TransmitDone, Complete;
    match FirstPending(e.pending)
    case None =>
      if k.current.None? {
        ScheduleCpu(k, e, k);
      }
    case Some(d) =>
      var a := k.Dev(IrqIndex(e.line, d, TransmitDone(e.line, e.regs)));
      DeviceKey(k, IrqIndex(e.line, d, TransmitDone(e.line, e.regs)));
      CompleteTable(k, a, IrqStatus(e));
      if k.current.None? {
        ScheduleCpu(k, e, Complete(k, a, IrqStatus(e)));
      }
  }

  /** The CPU changes hands by a dispatch only, and p_start is then the clock as the scheduler reads it. */
  lemma StepCpu(k: Kernel, e: Event)
    requires Inv(k) && Enabled(k, e)
    ensures CpuEffect(k, e, Handle(k, e))
  {
    hide HandlePLT, HandlePseudoClock, HandleDevice, PassUpOrDie, Inv, Core, Partition, Semaphores, CpuEffect;
    SemParts(k);
    match e
    case Syscall(_, _, _, _) => SyscallCpu(k, e);
    case Trap(_, _) => TrapCpu(k, e);
    case PLT(_, _, _) => PLTCpu(k, e);
    case PseudoClock(_, _, _) =>
      DeviceKey(k, CLOCK);
      ClockCpu(k, e);
    case Device(_, _, _, _, _, _) => DeviceCpu(k, e);
  }

  // ---- whole runs ---------------------------------------------------------

  /** After e, which may have been skipped, p holds the CPU: e dispatched it, or it held the CPU before. */
  lemma CpuOrSkip(k: Kernel, e: Event, p: Slot)
    requires Inv(k) && Step(k, e).current == Some(p)
    ensures k.pStart <= Step(k, e).pStart
    ensures if Enabled(k, e) && Handle(k, e).out.Dispatch?
            then Dispatches(Handle(k, e), p) && Step(k, e).pStart == e.t2
            else k.current == Some(p)
  {
    hide Handle, Inv;
    if Enabled(k, e) {
      StepCpu(k, e);
      StepPcb(k, e);
    }
  }

  lemma ExecAt(k: Kernel, es: seq<Event>, i: nat)
    requires Inv(k) && i < |es|
    ensures Exec(k, es[..i + 1]) == Step(Exec(k, es[..i]), es[i])
  {
    hide Handle, Step, Inv;
    assert es[..i + 1] == es[..i] + [es[i]];
    ExecLast(k, es[..i], es[i]);
  }

  /** The j-th event of the run dispatches p. */
  ghost predicate PutsOn(k: Kernel, es: seq<Event>, p: Slot, j: nat)
    requires Inv(k) && j < |es|
  {
    Enabled(Exec(k, es[..j]), es[j]) && Dispatches(Handle(Exec(k, es[..j]), es[j]), p)
  }

  /** p holds the CPU in every state from the n-th to the m-th, without a break, and it does so since the event before
      them dispatched it, at the time that event left in p_start, or else since the run began. */
  ghost predicate Holds(k: Kernel, es: seq<Event>, p: Slot, n: nat, m: nat)
    requires Inv(k) && n <= m <= |es|
  {
    && (forall i :: n <= i <= m ==> Exec(k, es[..i]).current == Some(p))
    && (forall j :: n <= j < m ==> !PutsOn(k, es, p, j))
    && Exec(k, es[..n]).pStart <= Exec(k, es[..m]).pStart
    && (n > 0 ==> PutsOn(k, es, p, n - 1) && Exec(k, es[..n]).pStart == es[n - 1].t2)
  }

  lemma HoldsMore(k: Kernel, es: seq<Event>, p: Slot, n: nat, m: nat)
    requires Inv(k) && n <= m < |es| && Holds(k, es, p, n, m) && !PutsOn(k, es, p, m)
    requires Exec(k, es[..m + 1]).current == Some(p) && Exec(k, es[..m]).pStart <= Exec(k, es[..m + 1]).pStart
    ensures Holds(k, es, p, n, m + 1)
  {
    hide Exec, PutsOn, Inv;
  }

  /** Whoever holds the CPU after m events was dispatched by one of them, and has held it ever since, or holds it since
      the run began. */
  lemma {:induction false} HeldSince(k: Kernel, es: seq<Event>, p: Slot, m: nat) returns (n: nat)
    requires Inv(k) && m <= |es| && Exec(k, es[..m]).current == Some(p)
    ensures n <= m && Holds(k, es, p, n, m)
    decreases m
  {
    hide Handle, Step, Inv, Exec, Enabled;
    n := m;
    if m > 0 {
      var j, e := Exec(k, es[..m - 1]), es[m - 1];
      ExecAt(k, es, m - 1);
      CpuOrSkip(j, e, p);
      if !PutsOn(k, es, p, m - 1) {
        n := HeldSince(k, es, p, m - 1);
        HoldsMore(k, es, p, n, m - 1);
      }
    }
  }

  /** p keeps the CPU all through the run, and is not dispatched anew. */
  ghost predicate Stays(k: Kernel, es: seq<Event>, p: Slot)
    requires Inv(k)
  {
    Exec(k, es).current == Some(p) &&
    (es != [] ==>
       var n := |es| - 1;
       Stays(k, es[..n], p) && !(Enabled(Exec(k, es[..n]), es[n]) && Handle(Exec(k, es[..n]), es[n]).out.Dispatch?))
  }
}
