/** What each system call does, by its number in a0 as the instruction set sees it. */
module CallNumbers {
  import opened Sequences
  import opened KernelState
  import opened KernelSteps
  import opened KernelMoves
  import opened KernelInvariant
  import opened KernelTree
  import opened KernelRuns
  import opened ProcessTree
  import opened ProcessIdentity

  /** The instruction is executed in kernel mode with this number in a0, by the running process c. */
  predicate Called(k: Kernel, x: Ecall, number: int, c: Slot) {
    x.kernelMode && x.ctx.a0 == number && Enabled(k, Raised(x)) && k.current == Some(c)
  }

  /** c goes on after the instruction, with this value in a0. */
  predicate ReturnsWith(r: Res, c: Slot, x: Ecall, a0: int) {
    r.out == Resume(Context(x.ctx.pc + 4, a0, x.ctx.regs)) && r.k.current == Some(c)
  }

  // ---- outside kernel mode, and unknown numbers ---------------------------

  /** Outside kernel mode, or with any other number, the instruction is a trap. */
  lemma OtherwiseTrap(k: Kernel, x: Ecall)
    requires !x.kernelMode || x.ctx.a0 < -10 || x.ctx.a0 > -1
    ensures Raised(x) == Trap(x.t1, x.t2)
  {
  }

  lemma DieLive(k: Kernel, p: Slot, t2: int)
    requires Forest(k) && k.Live(p)
    ensures var r := Die(k, Post(k, p), t2);
      r.out != PassUp && forall q: Slot :: r.k.Live(q) <==> k.Live(q) && !Under(k, q, p)
  {
    hide Forest, Kill, Post, IsSubtree, Under;
    PostIsSubtree(k, p);
    forall q: Slot
      ensures Kill(k, Post(k, p)).Live(q) <==> k.Live(q) && !Under(k, q, p)
    {
      KillLive(k, p, Post(k, p), q);
    }
  }

  /** A trap of a process with a support structure is passed up and changes nothing else; without one, the process and
      everybody under it dies. */
  lemma TrapOutcome(k: Kernel, e: Event, c: Slot)
    requires Inv(k) && Enabled(k, e) && e.Trap? && k.current == Some(c)
    ensures k.Live(c) && Forest(k)
    ensures var r := Handle(k, e);
      if k.pcb[c].support != 0 then r == Res(k, PassUp)
      else r.out != PassUp && forall q: Slot :: r.k.Live(q) <==> k.Live(q) && !Under(k, q, c)
  {
    hide Inv, Core, Partition, Forest, Die, Post, IsSubtree, Under;
    SemParts(k);
    RunningLives(k);
    if k.pcb[c].support == 0 {
      DieLive(k, c, e.t2);
    }
  }

  // ---- -1: CREATEPROCESS --------------------------------------------------

  /** p, not live before, is a process as asked for: the caller's last child, ready, with the next pid. */
  ghost predicate NewChild(k: Kernel, l: Kernel, x: Ecall, c: Slot, p: Slot) {
    && !k.Live(p) && l.Live(p) && p != c && c < |k.pcb| && c < |l.pcb| && p in l.ready
    && l.pcb[p].parent == Some(c) && l.pcb[p].children == [] && l.pcb[c].children == k.pcb[c].children + [p]
    && l.pcb[p].ctx == x.child && l.pcb[p].prio == x.a2 && l.pcb[p].support == x.a3
    && l.pcb[p].time == 0 && l.pcb[p].pid == k.nextPid
    && forall q: Slot :: l.Live(q) <==> k.Live(q) || q == p
  }

  lemma PidsPositive(k: Kernel)
    requires Inv(k)
    ensures k.nextPid > 0
  {
  }

  /** Whatever a0 held, CREATEPROCESS answers -1 in it, and changes nothing, if there is no free PCB. */
  lemma NoFreePcb(k: Kernel, e: Event)
    requires Inv(k) && Enabled(k, e) && e.Syscall? && e.call.CreateProcessCall? && k.free == []
    ensures Handle(k, e) == Res(k, Resume(Context(e.ctx.pc + 4, -1, e.ctx.regs)))
  {
    hide Inv, Core, Semaphores, AddChild;
    SemParts(k);
  }

  /** -1 creates a process in the state a1 points to, with priority a2 and support structure a3, and returns its pid;
      it returns -1, and changes nothing, exactly if there is no free PCB. */
  lemma CreateByNumber(k: Kernel, x: Ecall, c: Slot)
    requires Inv(k) && Called(k, x, -1, c)
    ensures var r := Handle(k, Raised(x));
      if k.free == [] then ReturnsWith(r, c, x, -1) && r.k == k
      else ReturnsWith(r, c, x, k.nextPid) && k.nextPid > 0 && NewChild(k, r.k, x, c, k.free[0])
  {
    hide Inv, Core, InsertProc, Semaphores;
    SemParts(k);
    RunningLives(k);
    PidsPositive(k);
    if k.free != [] {
      assert k.free == [k.free[0]] + k.free[1..];
      assert k.free[0] in k.free && OnePlace(k, k.free[0]);
    }
  }

  /** What CREATEPROCESS returns is -1 exactly if there is no free PCB; else it is the pid of the new process. */
  lemma CreateReturnsPid(k: Kernel, x: Ecall, c: Slot)
    requires Inv(k) && Called(k, x, -1, c)
    ensures var r := Handle(k, Raised(x));
      && r.out.Resume? && (r.out.ctx.a0 == -1 <==> k.free == [])
      && (k.free != [] ==> FindPid(r.k, r.out.ctx.a0) == Some(k.free[0]) && NewChild(k, r.k, x, c, k.free[0]))
  {
    hide Inv, Handle, FindPid, NewChild;
    CreateByNumber(k, x, c);
    if k.free != [] {
      StepKeeps(k, Raised(x));
      NewPid(k, Handle(k, Raised(x)).k, x, c, k.free[0]);
    }
  }

  lemma NewPid(k: Kernel, l: Kernel, x: Ecall, c: Slot, p: Slot)
    requires Inv(l) && NewChild(k, l, x, c, p)
    ensures FindPid(l, k.nextPid) == Some(p)
  {
    PidHolder(l, k.nextPid, p);
  }

  /** The live process with a pid is the one a search for it finds. */
  lemma PidHolder(k: Kernel, pid: int, p: Slot)
    requires Inv(k) && k.Live(p) && k.pcb[p].pid == pid
    ensures FindPid(k, pid) == Some(p)
  {
    assert exists q: Slot :: k.Live(q) && k.pcb[q].pid == pid;
  }

  /** For as long as it lives, that pid is its, and it keeps the priority and the support structure asked for. */
  lemma CreatedForLife(k: Kernel, x: Ecall, c: Slot, es: seq<Event>)
    requires Inv(k) && Called(k, x, -1, c) && k.free != [] && LivesOn(Step(k, Raised(x)), es, k.free[0])
    ensures var l, p := Exec(Step(k, Raised(x)), es), k.free[0];
      && FindPid(l, Handle(k, Raised(x)).out.ctx.a0) == Some(p)
      && p < |l.pcb| && l.pcb[p].prio == x.a2 && l.pcb[p].support == x.a3
  {
    hide Inv, Handle, FindPid, Exec, LivesOn;
    CreateByNumber(k, x, c);
    IdentityForLife(Step(k, Raised(x)), es, k.free[0]);
    PidHolder(Exec(Step(k, Raised(x)), es), k.nextPid, k.free[0]);
  }

  /** The a3 of CREATEPROCESS decides what a trap of the child does, whatever happened in between. */
  lemma ChildTraps(k: Kernel, x: Ecall, c: Slot, es: seq<Event>, e: Event)
    requires Inv(k) && Called(k, x, -1, c) && k.free != [] && LivesOn(Step(k, Raised(x)), es, k.free[0])
    requires var m := Exec(Step(k, Raised(x)), es); m.current == Some(k.free[0]) && Enabled(m, e) && e.Trap?
    ensures var m := Exec(Step(k, Raised(x)), es); var r := Handle(m, e);
      Forest(m) && if x.a3 != 0 then r == Res(m, PassUp)
      else r.out != PassUp && forall q: Slot :: r.k.Live(q) <==> m.Live(q) && !Under(m, q, k.free[0])
  {
    hide Inv, Handle, FindPid, Exec, LivesOn, Forest;
    CreatedForLife(k, x, c, es);
    TrapOutcome(Exec(Step(k, Raised(x)), es), e, k.free[0]);
  }

  // ---- -2: TERMPROCESS ----------------------------------------------------

  lemma KillGoLive(k: Kernel, p: Slot, ctx: Context, t2: int, c: Slot)
    requires Partition(k) && Forest(k) && k.Live(p) && k.current == Some(c) && k.Live(c)
    ensures var r := KillAndGo(k, Post(k, p), ctx, t2);
      && (forall q: Slot :: r.k.Live(q) <==> k.Live(q) && !Under(k, q, p))
      && if Under(k, c, p) then !r.out.Resume?
         else r.out == Resume(Context(ctx.pc + 4, ctx.a0, ctx.regs)) && r.k.current == Some(c)
  {
    hide Forest, Partition, Kill, Post, IsSubtree, Under;
    PostIsSubtree(k, p);
    KillCounts(k, p, Post(k, p));
    forall q: Slot
      ensures Kill(k, Post(k, p)).Live(q) <==> k.Live(q) && !Under(k, q, p)
    {
      KillLive(k, p, Post(k, p), q);
    }
  }

  /** -2 kills the process with pid a1, or with 0 the caller, and everybody under it, and nobody else; a caller that
      survives goes on. */
  lemma TermByNumber(k: Kernel, x: Ecall, c: Slot, p: Slot)
    requires Inv(k) && Called(k, x, -2, c) && k.Live(p) && if x.a1 == 0 then p == c else k.pcb[p].pid == x.a1
    ensures Forest(k) && k.Live(c)
    ensures var r := Handle(k, Raised(x));
      && (forall q: Slot :: r.k.Live(q) <==> k.Live(q) && !Under(k, q, p))
      && if Under(k, c, p) then !r.out.Resume? else ReturnsWith(r, c, x, -2)
  {
    hide Inv, Core, Partition, Forest, KillAndGo, Post, Under, FindPid;
    SemParts(k);
    RunningLives(k);
    if x.a1 != 0 {
      PidHolder(k, x.a1, p);
    }
    KillGoLive(k, p, x.ctx, x.t2, c);
  }

  /** -2 with a pid nobody has changes nothing. */
  lemma TermNobodyByNumber(k: Kernel, x: Ecall, c: Slot)
    requires Inv(k) && Called(k, x, -2, c) && x.a1 != 0 && forall p: Slot :: k.Live(p) ==> k.pcb[p].pid != x.a1
    ensures var r := Handle(k, Raised(x)); r.k == k && ReturnsWith(r, c, x, -2)
  {
    hide Inv, Core, Partition, Forest, KillAndGo, Post;
    SemParts(k);
    RunningLives(k);
    TerminateNobody(k, x.a1, x.ctx, x.t2);
  }

  /** A TERMPROCESS on the pid that CREATEPROCESS returned takes back exactly the creation. */
  lemma CreateThenTerm(k: Kernel, x: Ecall, c: Slot, y: Ecall)
    requires Inv(k) && Called(k, x, -1, c) && k.free != []
    requires Called(Step(k, Raised(x)), y, -2, c) && y.a1 == Handle(k, Raised(x)).out.ctx.a0
    ensures forall q: Slot :: Step(Step(k, Raised(x)), Raised(y)).Live(q) <==> k.Live(q)
  {
    hide Inv, Handle, Under;
    var l, p := Step(k, Raised(x)), k.free[0];
    CreateByNumber(k, x, c);
    TermByNumber(l, y, c, p);
    forall q: Slot | l.Live(q)
      ensures Under(l, q, p) <==> q == p
    {
      OnlyItself(l, q, p);
    }
  }

  /** Under a process without children is only itself. */
  lemma OnlyItself(k: Kernel, q: Slot, p: Slot)
    requires Inv(k) && k.Live(p) && k.Live(q) && k.pcb[p].children == []
    ensures Forest(k) && (Under(k, q, p) <==> q == p)
    decreases k.pcb[q].pid
  {
    ForestOf(k);
    hide Inv, Partition, Counters, Semaphores;
    assert NodeOk(k, q);
    if q != p && k.pcb[q].parent.Some? {
      assert k.pcb[q].parent.value != p;
      assert NodeOk(k, k.pcb[q].parent.value);
      OnlyItself(k, k.pcb[q].parent.value, p);
    }
  }

  lemma ForestOf(k: Kernel)
    requires Inv(k)
    ensures Forest(k)
  {
  }

  // ---- -3 and -4: P and V -------------------------------------------------

  lemma ScheduleKeepsQueues(k: Kernel, t: int)
    ensures var r := Schedule(k, t); r.k.mem == k.mem && r.k.asl == k.asl && r.k.dev == k.dev && !r.out.Resume?
    ensures var r := Schedule(k, t); r.k.softBlockCount == k.softBlockCount
  {
  }

  lemma PasserenBlocks(k: Kernel, a: Addr, ctx: Context, t1: int, t2: int)
    requires Partition(k) && k.current.Some? && a in k.mem && k.mem[a] <= 0
    ensures var r := Passeren(k, a, ctx, t1, t2);
      r.k.mem == k.mem[a := k.mem[a] - 1] && r.k.Q(a) == k.Q(a) + [k.current.value] && !r.out.Resume?
  {
    hide Schedule;
    DescriptorFree(k);
    ScheduleKeepsQueues(BlockCurrent(LeaveCpu(AddMem(k, a, -1), SavePc(ctx), t1), a), t2);
  }

  /** -3 takes one from the semaphore a1, whatever it is, and lets the caller go on exactly if something was there. */
  lemma PasserenByNumber(k: Kernel, x: Ecall, c: Slot)
    requires Inv(k) && Called(k, x, -3, c)
    ensures x.a1 in k.mem
    ensures var r := Handle(k, Raised(x));
      && r.k.mem == k.mem[x.a1 := k.mem[x.a1] - 1]
      && if k.mem[x.a1] > 0 then ReturnsWith(r, c, x, -3) && r.k.Q(x.a1) == k.Q(x.a1)
         else !r.out.Resume? && r.k.Q(x.a1) == k.Q(x.a1) + [c]
  {
    hide Inv, Core, Semaphores, Forest, Schedule;
    SemParts(k);
    DescriptorFree(k);
    if k.mem[x.a1] <= 0 {
      PasserenBlocks(k, x.a1, x.ctx, x.t1, x.t2);
    }
  }

  lemma VerhogenWakes(k: Kernel, a: Addr, ctx: Context)
    requires Partition(k) && a in k.mem && (k.mem[a] < 0 ==> k.Q(a) != [])
    ensures var r, q := Verhogen(k, a, ctx), k.Q(a);
      && r.k.mem == k.mem[a := k.mem[a] + 1] && r.k.current == k.current
      && r.out == Resume(Context(ctx.pc + 4, ctx.a0, ctx.regs))
      && if k.mem[a] < 0 then q[0] !in k.ready && q[0] in r.k.ready && r.k.Q(a) == q[1..]
         else r.k.ready == k.ready && r.k.Q(a) == q
  {
    hide InsertProc;
    if k.mem[a] < 0 {
      var p := k.Q(a)[0];
      assert p in k.asl[a];
      assert k.Blocked(p) && OnePlace(k, p);
    }
  }

  /** -4 adds one to the semaphore a1, and exactly if it was negative makes its first waiter ready. */
  lemma VerhogenByNumber(k: Kernel, x: Ecall, c: Slot)
    requires Inv(k) && Called(k, x, -4, c)
    ensures x.a1 in k.mem
    ensures var r := Handle(k, Raised(x)); var q := k.Q(x.a1);
      && r.k.mem == k.mem[x.a1 := k.mem[x.a1] + 1] && ReturnsWith(r, c, x, -4)
      && if k.mem[x.a1] < 0
         then q != [] && q[0] !in k.ready && q[0] in r.k.ready && r.k.Q(x.a1) == q[1..]
         else r.k.ready == k.ready && r.k.Q(x.a1) == q
  {
    hide Inv, Core, Semaphores, Forest, Verhogen, Partition;
    SemParts(k);
    VerhogenWakes(k, x.a1, x.ctx);
  }

  // ---- -5 and -7: waiting for a device or the clock -----------------------

  /** c waits as the last one on semaphore a, which is one lower, and counts as soft-blocked. */
  ghost predicate WaitsLast(k: Kernel, r: Res, a: Addr, c: Slot)
    requires a in k.mem
  {
    && r.k.Q(a) == k.Q(a) + [c] && r.k.mem == k.mem[a := k.mem[a] - 1] && (forall b :: b != a ==> r.k.Q(b) == k.Q(b))
    && r.k.softBlockCount == k.softBlockCount + 1 && !r.out.Resume?
  }

  lemma SoftBlockWaits(k: Kernel, a: Addr, ctx: Context, t1: int, t2: int)
    requires Partition(k) && k.current.Some? && a in k.mem
    ensures WaitsLast(k, SoftBlock(k, a, ctx, t1, t2), a, k.current.value)
  {
    hide Schedule;
    DescriptorFree(k);
    ScheduleKeepsQueues(SoftWait(k, a, ctx, t1), t2);
  }

  /** The registers of device d on a line start at this address. */
  function RegisterBase(line: int, d: int): int { 0x10000054 + 0x80 * (line - 3) + 0x10 * d }

  /** Its semaphore: eight for each line, and after the forty of the five lines eight for the terminals' transmitters,
      whose command register is at offset 0xC on line 7. */
  function SemNumber(line: int, d: int, off: int): int {
    8 * (line - 3) + d + if line == 7 && off == 0xC then 8 else 0
  }

  lemma RegisterIndex(line: int, d: int, off: int)
    requires 3 <= line <= 7 && 0 <= d < 8 && 0 <= off < 0x10
    ensures IoIndex(RegisterBase(line, d) + off) == SemNumber(line, d, off)
  {
    var v := RegisterBase(line, d) + off - START_DEVREG;
    assert v == 0x10 * (8 * (line - 3) + d) + off;
    assert v / 0x10 == 8 * (line - 3) + d && v % 0x10 == off;
  }

  /** After the call c is the last waiter of device semaphore i. */
  ghost predicate WaitsForDevice(k: Kernel, x: Ecall, i: int, c: Slot)
    requires Inv(k) && Enabled(k, Raised(x))
  {
    k.dev + 4 * i in k.mem && WaitsLast(k, Handle(k, Raised(x)), k.dev + 4 * i, c)
  }

  /** -5 makes the caller wait on the semaphore of the device whose register a1 is. */
  lemma DoIoByNumber(k: Kernel, x: Ecall, c: Slot, line: int, d: int, off: int)
    requires Inv(k) && Called(k, x, -5, c) && 3 <= line <= 7 && 0 <= d < 8 && 0 <= off < 0x10
    requires x.a1 == RegisterBase(line, d) + off
    ensures WaitsForDevice(k, x, SemNumber(line, d, off), c)
  {
    hide Inv, Core, Semaphores, Forest, SoftBlock, WaitsLast, Partition;
    SemParts(k);
    RegisterIndex(line, d, off);
    DeviceKey(k, IoIndex(x.a1));
    SoftBlockWaits(k, k.Dev(IoIndex(x.a1)), x.ctx, x.t1, x.t2);
  }

  /** -7 makes the caller wait on the last semaphore, the clock's. */
  lemma ClockWaitByNumber(k: Kernel, x: Ecall, c: Slot)
    requires Inv(k) && Called(k, x, -7, c)
    ensures WaitsForDevice(k, x, 48, c)
  {
    hide Inv, Core, Semaphores, Forest, SoftBlock, WaitsLast, Partition;
    SemParts(k);
    DeviceKey(k, CLOCK);
    SoftBlockWaits(k, k.Dev(CLOCK), x.ctx, x.t1, x.t2);
  }

  // ---- -6, -8 and -9: questions -------------------------------------------

  /** v is x / y rounded towards zero. */
  predicate Quotient(v: int, x: int, y: int) {
    y > 0 && if x >= 0 then 0 <= x - v * y < y else -y < x - v * y <= 0
  }

  lemma TruncDivIs(x: int, y: int)
    requires y > 0
    ensures Quotient(TruncDiv(x, y), x, y)
  {
    if x >= 0 {
      assert x == y * (x / y) + x % y;
    } else {
      var q := (-x) / y;
      assert -x == y * q + (-x) % y;
      assert TruncDiv(x, y) * y == -(y * q);
    }
  }

  /** -6 charges the caller the time since p_start and returns its CPU time in units of the scale. */
  lemma GetTimeByNumber(k: Kernel, x: Ecall, c: Slot)
    requires Inv(k) && Called(k, x, -6, c)
    ensures c < |k.pcb|
    ensures var r, used := Handle(k, Raised(x)), k.pcb[c].time + (x.t1 - k.pStart);
      && r.out.Resume? && ReturnsWith(r, c, x, r.out.ctx.a0) && Quotient(r.out.ctx.a0, used, x.scale)
      && r.k == k.(pcb := k.pcb[c := k.pcb[c].(time := used)])
  {
    hide Inv, Core, Semaphores, Forest, TruncDiv, Quotient;
    SemParts(k);
    TruncDivIs(k.pcb[c].time + (x.t1 - k.pStart), x.scale);
  }

  /** -8 returns the caller's support structure. */
  lemma GetSupportByNumber(k: Kernel, x: Ecall, c: Slot)
    requires Inv(k) && Called(k, x, -8, c)
    ensures c < |k.pcb|
    ensures var r := Handle(k, Raised(x)); r.k == k && ReturnsWith(r, c, x, k.pcb[c].support)
  {
    hide Inv, Core, Semaphores, Forest, Partition;
    hide CreateProcess, TerminateProcess, Passeren, Verhogen, SoftBlock, GetCpuTime, Yield, PassUpOrDie;
    SemParts(k);
    RunningLives(k);
  }

  lemma ParentLives(k: Kernel, c: Slot)
    requires Inv(k) && k.Live(c)
    ensures k.pcb[c].pid > 0
    ensures var p := k.pcb[c].parent; p.Some? ==> k.Live(p.value) && k.pcb[p.value].pid > 0
  {
    assert NodeOk(k, c);
    if k.pcb[c].parent.Some? {
      assert NodeOk(k, k.pcb[c].parent.value);
    }
  }

  lemma NobodyIsZero(k: Kernel)
    requires Inv(k)
    ensures FindPid(k, 0).None?
  {
    forall p: Slot | k.Live(p)
      ensures k.pcb[p].pid > 0
    {
      assert NodeOk(k, p);
    }
  }

  /** -9 returns the caller's pid if a1 is zero; else its parent's pid, or zero exactly if it has no parent. */
  lemma GetPidByNumber(k: Kernel, x: Ecall, c: Slot)
    requires Inv(k) && Called(k, x, -9, c)
    ensures c < |k.pcb|
    ensures var r := Handle(k, Raised(x));
      && r.k == k && r.out.Resume? && ReturnsWith(r, c, x, r.out.ctx.a0)
      && (x.a1 == 0 ==> FindPid(k, r.out.ctx.a0) == Some(c))
      && (x.a1 != 0 ==> FindPid(k, r.out.ctx.a0) == k.pcb[c].parent)
      && (r.out.ctx.a0 == 0 <==> x.a1 != 0 && k.pcb[c].parent.None?)
  {
    hide Inv, Core, Semaphores, Forest, Partition, FindPid;
    hide CreateProcess, TerminateProcess, Passeren, Verhogen, SoftBlock, GetCpuTime, Yield, PassUpOrDie;
    SemParts(k);
    RunningLives(k);
    ParentLives(k, c);
    PidHolder(k, k.pcb[c].pid, c);
    var p := k.pcb[c].parent;
    if p.Some? {
      PidHolder(k, k.pcb[p.value].pid, p.value);
    } else {
      NobodyIsZero(k);
    }
  }

  // ---- -10: YIELD ---------------------------------------------------------

  lemma YieldGoes(k: Kernel, ctx: Context, t1: int, t2: int)
    requires Partition(k) && k.current.Some?
    ensures var r, m := Yield(k, ctx, t1, t2), k.ready + [k.current.value];
      r.out.Dispatch? && r.out.p == m[0] && r.k.current == Some(m[0]) && r.k.ready == m[1..]
  {
    hide LeaveCpu;
    LeaveCpuFrame(k, SavePc(ctx), t1);
  }

  /** -10 puts the caller behind everybody who is ready and dispatches the first. */
  lemma YieldByNumber(k: Kernel, x: Ecall, c: Slot)
    requires Inv(k) && Called(k, x, -10, c)
    ensures var r, m := Handle(k, Raised(x)), k.ready + [c];
      r.out.Dispatch? && r.out.p == m[0] && r.k.current == Some(m[0]) && r.k.ready == m[1..]
  {
    hide Inv, Core, Semaphores, Forest, Partition, Yield;
    hide CreateProcess, TerminateProcess, Passeren, Verhogen, SoftBlock, GetCpuTime, GetProcessId, PassUpOrDie;
    SemParts(k);
    YieldGoes(k, x.ctx, x.t1, x.t2);
  }
}
