/** Phase 2 on top of the Queues Manager: every handler, as it changes the kernel's globals and lists. */
module Nucleus {
  import opened Sequences
  import opened KernelState
  import opened KernelSteps
  import opened KernelInvariant
  import opened KernelRuns
  import Listx
  import opened QueuesManager
  import opened Refinement
  import opened SubtreeKill
  import opened ProcessTree

  class Nucleus {
    const q: Queues
    const dev: Addr              // &deviceSemaphores[0]
    var mem: map<Addr, int>      // the semaphores, the devices' among them
    var processCount: int
    var softBlockCount: int
    var currentProcess: PcbT?
    var p_start: int

    /** The kernel's globals on top of the static storage of phase 1. */
    constructor (q: Queues, dev: Addr, mem: map<Addr, int>)
      requires q.Raw()
      ensures this.q == q && q.Raw() && (this as object) !in q.Repr()
      ensures this.dev == dev && this.mem == mem
    {
      hide Queues.Raw;
      this.q, this.dev, this.mem := q, dev, mem;
      processCount, softBlockCount, currentProcess, p_start := 0, 0, null, 0;
      new;
      Apart();
    }

    lemma Apart()
      ensures (this as object) !in q.Repr()
    {
    }

    ghost predicate Valid()
      reads this, q`asl, q.Repr()
    {
      (this as object) !in q.Repr() && q.Valid() && (currentProcess != null ==> currentProcess in q.pcbs)
    }

    /** The state as a value. */
    ghost function K(): Kernel
      requires Valid()
      reads this, q`asl, q`next_pid, q.Repr()
    {
      var v := q.View();
      Kernel(dev, v.pcb, v.free, v.nextPid, v.ready, v.asl, mem, processCount, softBlockCount,
             if currentProcess == null then None else Some(currentProcess.slot), p_start)
    }

    /** updateCpuTime, which reads the clock as t. */
    method UpdateTime(t: int)
      requires Valid()
      modifies this, q, q.Repr()
      ensures Valid() && K() == UpdateCpuTime(old(K()), t)
      ensures currentProcess == old(currentProcess)
    {
      hide Queues.Valid, Queues.Recs, Queues.PcbShape, Queues.Repr, Queues.View;
      q.ReprParts();
      if currentProcess != null {
        q.RecOf(currentProcess);
        q.ViewIs();
        q.AddTime(currentProcess, t - p_start);
        p_start := t;
      } else {
        p_start := t;
      }
    }

    /** scheduler, which reads the clock as t. */
    method Scheduler(t: int) returns (out: Outcome)
      requires Valid()
      modifies this, q, q.Repr()
      ensures Valid() && Res(K(), out) == Schedule(old(K()), t)
    {
      hide Queues.Valid, Queues.Recs, Queues.PcbShape, Queues.Repr, Queues.View;
      q.ReprParts();
      if !q.EmptyReady() {
        currentProcess := q.RemoveReady();
        p_start := t;
        q.RecOf(currentProcess);
        out := Dispatch(currentProcess.slot, currentProcess.p_s);
      } else if processCount == 0 {
        out := Halt;
      } else if processCount > 0 && softBlockCount == 0 {
        out := Panic;
      } else if processCount > 0 && softBlockCount > 0 {
        currentProcess := null;
        out := Idle;
      } else {
        out := Spin;
      }
    }

    // ---- system calls -------------------------------------------------------

    lemma LooseIs(p: PcbT)
      requires Valid() && p in q.pcbs && NoChild(K().pcb, p.slot)
      ensures q.PcbShape() && q.Loose(p.slot)
    {
      q.ViewIs();
    }

    /** The head of the free list is alone in the process tree. */
    lemma HeadLoose()
      requires Valid() && Partition(K()) && Forest(K())
      ensures q.PcbShape() && (q.Free() != [] ==> q.FreeLoose())
      ensures K().free != [] ==>
        K().free[0] < |K().pcb| && NoChild(K().pcb, K().free[0]) && K().current != Some(K().free[0])
    {
      hide Queues.Valid, Queues.Recs, Queues.PcbShape, Queues.Repr, Queues.View;
      q.ViewIs();
      if K().free != [] {
        var p := K().free[0];
        assert p in K().free && OnePlace(K(), p);
        RootNoChild(K(), p);
      }
    }

    lemma CurrentIs()
      requires Valid() && currentProcess != null
      ensures K().current == Some(currentProcess.slot) && currentProcess.slot < |K().pcb|
      ensures K().pcb[currentProcess.slot] == currentProcess.Rec()
    {
      q.RecOf(currentProcess);
    }

    /** allocPcb, and the fields CREATEPROCESS fills in. */
    method Allocate(child: Context, prio: int, support: int) returns (p: PcbT?)
      requires Valid() && Partition(K()) && Forest(K())
      modifies this, q, q.Repr()
      ensures Valid() && currentProcess == old(currentProcess)
      ensures old(K()).free == [] ==> p == null && K() == old(K())
      ensures var k := old(K()); k.free != [] ==>
        && p != null && p in q.pcbs && p.slot == k.free[0] && p.slot < |k.pcb| && p.p_list.home == null
        && K() == k.(free := k.free[1..], nextPid := k.nextPid + 1,
             pcb := k.pcb[p.slot := FreshPcb(k.nextPid, child, prio, support, None)])
    {
      hide Queues.Valid, Queues.Recs, Queues.PcbShape, Queues.Repr, Queues.View, Queues.Loose, Queues.FreeLoose;
      hide Partition, Forest, NoChild;
      HeadLoose();
      q.ReprParts();
      p := q.AllocPcb();
      if p != null {
        q.SetUp(p, child, prio, support);
      }
    }

    /** insertProcQ, insertChild and the count. */
    method Join(p: PcbT)
      requires Valid() && currentProcess != null && p in q.pcbs && p != currentProcess && p.p_list.home == null
      requires NoChild(K().pcb, p.slot)
      modifies this, q, q.Repr()
      ensures Valid() && currentProcess == old(currentProcess)
      ensures var k, c := old(K()), old(currentProcess).slot;
        c < |k.pcb| && p.slot < |k.pcb| && c != p.slot
        && K() == k.(pcb := Adopt(k.pcb, c, p.slot), ready := InsertProc(k.ready, p.slot, k.pcb),
             processCount := k.processCount + 1)
    {
      hide Queues.Valid, Queues.Recs, Queues.PcbShape, Queues.Repr, Queues.View, Queues.Loose;
      hide NoChild, Adopt, InsertProc;
      q.ReprParts();
      q.InsertReady(p);
      LooseIs(p);
      q.InsertChild(currentProcess, p);
      processCount := processCount + 1;
    }

    lemma PidIs(p: PcbT)
      requires Valid() && p in q.pcbs
      ensures p.slot < |K().pcb| && K().pcb[p.slot].pid == p.p_pid
    {
      q.RecOf(p);
    }

    lemma InvParts()
      requires Valid() && Inv(K())
      ensures Partition(K()) && Forest(K()) && Counters(K()) && Semaphores(K())
    {
    }

    /** CREATEPROCESS; ctx is the caller's saved state, which it goes on with. */
    method CreateProcess(child: Context, prio: int, support: int, ctx: Context) returns (out: Outcome)
      requires Valid() && Inv(K()) && currentProcess != null
      modifies this, q, q.Repr()
      ensures Valid() && Res(K(), out) == KernelSteps.CreateProcess(old(K()), child, prio, support, ctx)
    {
      hide Valid, Inv, Partition, Forest, AddChild, Adopt, NoChild, InsertProc, FreshPcb, K;
      hide Queues.Valid, Queues.Recs, Queues.PcbShape, Queues.Repr, Queues.View;
      InvParts();
      HeadLoose();
      CurrentIs();
      var caller := ctx;
      ghost var k, c := K(), currentProcess.slot;
      var p := Allocate(child, prio, support);
      if p == null {
        caller := caller.(a0 := -1);
      } else {
        CreateSteps(k, c, p.slot, child, prio, support, K().pcb);
        Join(p);
        PidIs(p);
        caller := caller.(a0 := p.p_pid);
      }
      out := Resume(SavePc(caller));
    }

    /** The processes on no list: a running one, for instance. */
    lemma OffLists(p: PcbT)
      requires Valid() && p in q.pcbs && p.slot !in K().free && p.slot !in K().ready
      requires forall a :: a in K().asl ==> p.slot !in K().asl[a]
      ensures p.p_list.home == null
    {
      hide Queues.Valid, Queues.Recs, Queues.PcbShape, Queues.Repr, Queues.View;
      q.ViewIs();
      q.Unqueued(p);
    }

    lemma CurrentOffLists()
      requires Valid() && Partition(K()) && currentProcess != null
      ensures currentProcess.p_list.home == null && currentProcess in q.pcbs
    {
      hide Queues.Valid, Queues.Recs, Queues.PcbShape, Queues.Repr, Queues.View;
      var k, c := K(), currentProcess.slot;
      CurrentIs();
      assert OnePlace(k, c);
      QueuedBlocked(k, c);
      OffLists(currentProcess);
    }

    /** (*a) += d, and a look at the new value. */
    method AddTo(a: Addr, d: int) returns (v: int)
      requires Valid() && a in mem
      modifies `mem
      ensures Valid() && a in old(K()).mem && K() == AddMem(old(K()), a, d) && v == K().mem[a]
      ensures a in mem && currentProcess == old(currentProcess)
    {
      hide Queues.Valid, Queues.Recs, Queues.PcbShape, Queues.Repr, Queues.View;
      mem := mem[a := mem[a] + d];
      v := mem[a];
    }

    /** updateCpuTime, and currentProcess->p_s = ctx. */
    method LeaveWith(ctx: Context, t: int)
      requires Valid() && currentProcess != null
      modifies this, q, q.Repr()
      ensures Valid() && currentProcess == old(currentProcess)
      ensures var k := old(K()); k.current.Some? && k.current.value < |k.pcb| && K() == LeaveCpu(k, ctx, t)
    {
      hide Queues.Valid, Queues.Recs, Queues.PcbShape, Queues.Repr, Queues.View;
      CurrentIs();
      UpdateTime(t);
      q.ReprParts();
      q.SetState(currentProcess, ctx);
    }

    /** insertBlocked(a, currentProcess), whose result nobody looks at, and currentProcess = NULL. */
    method BlockOn(a: Addr)
      requires Valid() && currentProcess != null && Partition(K())
      modifies this, q, q.Repr()
      ensures Valid() && currentProcess == null
      ensures var k := old(K()); k.current.Some? && k.current.value < |k.pcb| && K() == BlockCurrent(k, a)
    {
      hide Queues.Valid, Queues.Recs, Queues.PcbShape, Queues.Repr, Queues.View, Partition, SetQ;
      CurrentIs();
      CurrentOffLists();
      q.ReprParts();
      q.ViewIs();
      var failed := q.InsertBlocked(a, currentProcess);
      currentProcess := null;
    }

    /** PASSEREN on a; the clock is read as t1 and, by the scheduler, as t2. */
    method Passeren(a: Addr, ctx: Context, t1: int, t2: int) returns (out: Outcome)
      requires Valid() && Inv(K()) && currentProcess != null && a in mem
      modifies this, q, q.Repr()
      ensures Valid() && Res(K(), out) == KernelSteps.Passeren(old(K()), a, ctx, t1, t2)
    {
      hide Valid, Inv, Partition, Schedule, LeaveCpu, BlockCurrent, K;
      InvParts();
      CurrentIs();
      MemIs();
      ghost var k := K();
      var v := AddTo(a, -1);
      if v >= 0 {
        return Resume(SavePc(ctx));
      }
      SavePartition(k, K(), SavePc(ctx), t1);
      LeaveWith(SavePc(ctx), t1);
      BlockOn(a);
      out := Scheduler(t2);
    }

    lemma MemIs()
      requires Valid()
      ensures K().mem == mem && K().dev == dev
    {
    }

    /** DOIO and CLOCKWAIT, once they know their semaphore, up to the call of the scheduler. */
    method SoftWaitOn(a: Addr, ctx: Context, t: int)
      requires Valid() && Partition(K()) && currentProcess != null && a in mem
      modifies this, q, q.Repr()
      ensures Valid()
      ensures var k := old(K()); k.current.Some? && a in k.mem && K() == SoftWait(k, a, ctx, t)
    {
      hide Valid, Partition, LeaveCpu, BlockCurrent, AddMem, K;
      CurrentIs();
      MemIs();
      ghost var k := K();
      var v := AddTo(a, -1);
      AddMemIs(k, a, -1);
      SavePartition(k, K(), SavePc(ctx), t);
      LeaveWith(SavePc(ctx), t);
      BlockOn(a);
      CountSoft(1);
    }

    /** WaitForClock. */
    method WaitForClock(ctx: Context, t1: int, t2: int) returns (out: Outcome)
      requires Valid() && Inv(K()) && currentProcess != null
      modifies this, q, q.Repr()
      ensures Valid()
      ensures var k := old(K()); var a := k.Dev(CLOCK);
        k.current.Some? && Partition(k) && a in k.mem && Res(K(), out) == SoftBlock(k, a, ctx, t1, t2)
    {
      hide Valid, Inv, Partition, Semaphores, Schedule, SoftWait, K;
      InvParts();
      CurrentIs();
      MemIs();
      DeviceKey(K(), CLOCK);
      SoftWaitOn(dev + 4 * CLOCK, ctx, t1);
      out := Scheduler(t2);
    }

    /** DoIO on the device register at commandAddr; what is written there is left out. */
    method DoIO(commandAddr: int, ctx: Context, t1: int, t2: int) returns (out: Outcome)
      requires Valid() && Inv(K()) && currentProcess != null && DeviceRegister(commandAddr)
      modifies this, q, q.Repr()
      ensures Valid()
      ensures var k := old(K()); var a := k.Dev(IoIndex(commandAddr));
        k.current.Some? && Partition(k) && a in k.mem && Res(K(), out) == SoftBlock(k, a, ctx, t1, t2)
    {
      hide Valid, Inv, Partition, Semaphores, Schedule, SoftWait, K;
      InvParts();
      CurrentIs();
      MemIs();
      DeviceKey(K(), IoIndex(commandAddr));
      var devIndex := (commandAddr - START_DEVREG) / 0x10;
      if devIndex >= 32 {
        if (commandAddr - START_DEVREG) % 0x10 == 0xC {
          devIndex := devIndex + 8;
        }
      }
      SoftWaitOn(dev + 4 * devIndex, ctx, t1);
      out := Scheduler(t2);
    }

    /** softBlockCount += d. */
    method CountSoft(d: int)
      requires Valid()
      modifies `softBlockCount
      ensures Valid() && K() == old(K()).(softBlockCount := old(K()).softBlockCount + d)
      ensures currentProcess == old(currentProcess)
    {
      hide Queues.Valid, Queues.Recs, Queues.PcbShape, Queues.Repr, Queues.View;
      softBlockCount := softBlockCount + d;
    }

    /** currentProcess->p_time += d. */
    method AddToTime(d: int)
      requires Valid() && currentProcess != null
      modifies this, q, q.Repr()
      ensures Valid() && currentProcess == old(currentProcess)
      ensures var k, c := old(K()), old(currentProcess).slot;
        c < |k.pcb| && K() == SetPcb(k, c, k.pcb[c].(time := k.pcb[c].time + d))
    {
      hide Queues.Valid, Queues.Recs, Queues.PcbShape, Queues.Repr, Queues.View;
      CurrentIs();
      q.ReprParts();
      q.AddTime(currentProcess, d);
    }

    /** GETTIME, which reads the clock as t. */
    method GetCPUTime(scale: int, ctx: Context, t: int) returns (out: Outcome)
      requires Valid() && Inv(K()) && currentProcess != null && scale > 0
      modifies this, q, q.Repr()
      ensures Valid() && Res(K(), out) == KernelSteps.GetCpuTime(old(K()), scale, ctx, t)
    {
      hide Queues.Valid, Queues.Recs, Queues.PcbShape, Queues.Repr, Queues.View, Inv, Partition;
      InvParts();
      CurrentIs();
      AddToTime(t - p_start);
      CurrentIs();
      out := Resume(SavePc(ctx.(a0 := TruncDiv(currentProcess.p_time, scale))));
    }

    /** GETSUPPORTPTR. */
    method GetSupportData(ctx: Context) returns (out: Outcome)
      requires Valid() && Inv(K()) && currentProcess != null
      ensures Valid() && K() == old(K())
      ensures var k := old(K());
        && k.current.Some? && k.current.value < |k.pcb|
        && out == Resume(SavePc(ctx.(a0 := k.pcb[k.current.value].support)))
    {
      CurrentIs();
      out := Resume(SavePc(ctx.(a0 := currentProcess.p_supportStruct)));
    }

    /** GETPROCESSID; ofParent stands for a non-zero argument. */
    method GetProcessId(ofParent: bool, ctx: Context) returns (out: Outcome)
      requires Valid() && Inv(K()) && currentProcess != null
      ensures Valid()
      ensures var k := old(K());
        Partition(k) && k.current.Some? && Res(K(), out) == KernelSteps.GetProcessId(k, ofParent, ctx)
    {
      hide Queues.Valid, Queues.Recs, Queues.PcbShape, Queues.Repr, Queues.View, Inv, Partition;
      InvParts();
      CurrentIs();
      q.RecOf(currentProcess);
      var pid := currentProcess.p_pid;
      if ofParent {
        if currentProcess.p_parent == null {
          pid := 0;
        } else {
          q.RecOf(currentProcess.p_parent);
          pid := currentProcess.p_parent.p_pid;
        }
      }
      out := Resume(SavePc(ctx.(a0 := pid)));
    }

    /** list_add_tail(&currentProcess->p_list, &readyQueue), and currentProcess = NULL. */
    method AppendCurrent()
      requires Valid() && Partition(K()) && currentProcess != null
      modifies this, q, q.Repr()
      ensures Valid()
      ensures var k := old(K());
        k.current.Some? && K() == k.(ready := k.ready + [k.current.value], current := None)
    {
      hide Queues.Valid, Queues.Recs, Queues.PcbShape, Queues.Repr, Queues.View, Partition;
      CurrentIs();
      CurrentOffLists();
      q.ReprParts();
      q.AppendReady(currentProcess);
      currentProcess := null;
    }

    /** YIELD. */
    method Yield(ctx: Context, t1: int, t2: int) returns (out: Outcome)
      requires Valid() && Inv(K()) && currentProcess != null
      modifies this, q, q.Repr()
      ensures Valid()
      ensures var k := old(K()); k.current.Some? && Partition(k) && Res(K(), out) == KernelSteps.Yield(k, ctx, t1, t2)
    {
      hide Valid, Inv, Partition, Schedule, LeaveCpu;
      InvParts();
      CurrentIs();
      ghost var k := K();
      hide K;
      SavePartition(k, k, SavePc(ctx), t1);
      LeaveWith(SavePc(ctx), t1);
      AppendCurrent();
      out := Scheduler(t2);
    }

    // ---- waking -------------------------------------------------------------

    /** removeBlocked(a). */
    method TakeBlocked(a: Addr) returns (p: PcbT?)
      requires Valid()
      modifies this, q, q.Repr()
      ensures Valid() && currentProcess == old(currentProcess) && mem == old(mem)
      ensures var k := old(K());
        if k.Q(a) == [] then p == null && K() == k
        else p != null && p in q.pcbs && p.slot == k.Q(a)[0] && p.p_list.home == null
             && K() == k.(asl := SetQ(k.asl, a, k.Q(a)[1..]))
    {
      hide Queues.Valid, Queues.Recs, Queues.PcbShape, Queues.Repr, Queues.View, SetQ;
      q.ReprParts();
      q.ViewIs();
      p := q.RemoveBlocked(a);
    }

    /** insertProcQ(&readyQueue, p). */
    method MakeReady(p: PcbT)
      requires Valid() && p in q.pcbs && p.p_list.home == null
      modifies this, q, q.Repr()
      ensures Valid() && currentProcess == old(currentProcess) && mem == old(mem)
      ensures K() == Enqueue(old(K()), p.slot)
    {
      hide Queues.Valid, Queues.Recs, Queues.PcbShape, Queues.Repr, Queues.View, InsertProc;
      q.ReprParts();
      q.InsertReady(p);
    }

    /** VERHOGEN on a. */
    method Verhogen(a: Addr, ctx: Context) returns (out: Outcome)
      requires Valid() && a in mem
      modifies this, q, q.Repr()
      ensures Valid()
      ensures a in old(K()).mem && Res(K(), out) == KernelSteps.Verhogen(old(K()), a, ctx)
    {
      hide Valid, Enqueue, K;
      MemIs();
      var v := AddTo(a, 1);
      if v <= 0 {
        var p := TakeBlocked(a);
        if p != null {
          MakeReady(p);
        }
      }
      out := Resume(SavePc(ctx));
    }

    // ---- interrupts ---------------------------------------------------------

    /** p->p_s = s. */
    method SaveState(p: PcbT, s: Context)
      requires Valid() && p in q.pcbs
      modifies this, q, q.Repr()
      ensures Valid() && currentProcess == old(currentProcess) && mem == old(mem)
      ensures p.p_list.home == old(p.p_list.home)
      ensures var k := old(K()); p.slot < |k.pcb| && K() == SetPcb(k, p.slot, k.pcb[p.slot].(ctx := s))
    {
      hide Queues.Valid, Queues.Recs, Queues.PcbShape, Queues.Repr, Queues.View;
      q.ReprParts();
      q.SetState(p, s);
    }

    /** handlePLT: the interrupted process, if any, goes back to the ready queue. */
    method HandlePLT(saved: Context, t1: int, t2: int) returns (out: Outcome)
      requires Valid() && Partition(K())
      modifies this, q, q.Repr()
      ensures Valid() && Res(K(), out) == KernelSteps.HandlePLT(old(K()), saved, t1, t2)
    {
      hide Valid, Partition, Schedule, Enqueue, Charge, K, K;
      CurrentNone();
      if currentProcess != null {
        CurrentIs();
        SavePartition(K(), K(), saved, t1);
        LeaveWith(saved, t1);
        CurrentOffLists();
        MakeReady(currentProcess);
      } else {
        UpdateTime(t1);
      }
      out := Scheduler(t2);
    }

    lemma CurrentNone()
      requires Valid()
      ensures K().current == None <==> currentProcess == null
    {
    }

    /** One round of handlePseudoClock's loop. */
    method WakeRound(clockSem: Addr)
      requires Valid() && ClockOk(K()) && clockSem == dev + 4 * CLOCK && clockSem in mem && mem[clockSem] < 0
      modifies this, q, q.Repr()
      ensures Valid() && currentProcess == old(currentProcess)
      ensures var k := old(K()); ClockOk(k) && k.mem[k.Dev(CLOCK)] < 0 && K() == DrainOne(k)
    {
      hide Valid, InsertProc, SetQ, DrainClock, ClockOk, K;
      MemIs();
      DrainRound(K());
      ghost var k := K();
      var v := AddTo(clockSem, 1);
      var p := TakeBlocked(clockSem);
      if p != null {
        MakeReady(p);
        CountSoft(-1);
      }
      assert K() == DrainOne(k);
    }

    /** The loop of handlePseudoClock. */
    method WakeAll()
      requires Valid() && ClockOk(K())
      modifies this, q, q.Repr()
      ensures Valid() && ClockOk(old(K())) && K() == DrainClock(old(K()))
      ensures currentProcess == old(currentProcess)
    {
      hide Valid, DrainClock, DrainOne, K;
      MemIs();
      ghost var k := K();
      var clockSem := dev + 4 * CLOCK;
      while mem[clockSem] < 0
        invariant Valid() && K().mem == mem && K().dev == dev && ClockOk(K()) && DrainClock(K()) == DrainClock(k)
        invariant currentProcess == old(currentProcess)
        decreases -mem[clockSem]
      {
        DrainRound(K());
        WakeRound(clockSem);
        MemIs();
      }
      DrainDone(K());
    }

    /** handlePseudoClock. */
    method HandlePseudoClock(saved: Context, t1: int, t2: int) returns (out: Outcome)
      requires Valid() && Inv(K())
      modifies this, q, q.Repr()
      ensures Valid()
      ensures var k := old(K());
        Partition(k) && k.Dev(CLOCK) in k.mem && Res(K(), out) == KernelSteps.HandlePseudoClock(k, saved, t1, t2)
    {
      hide Valid, Inv, Partition, Semaphores, DrainClock, Schedule, UpdateCpuTime, ClockOk;
      InvParts();
      ClockIs(K());
      WakeAll();
      UpdateTime(t1);
      CurrentNone();
      if currentProcess != null {
        return Resume(saved);
      }
      out := Scheduler(t2);
    }

    /** The V of handleDevice, which hands status to the process it wakes. */
    method CompleteOn(semAddr: Addr, status: int)
      requires Valid() && Lists(K()) && semAddr in mem
      modifies this, q, q.Repr()
      ensures Valid() && currentProcess == old(currentProcess)
      ensures semAddr in old(K()).mem && K() == Complete(old(K()), semAddr, status)
    {
      hide Valid, Lists, Enqueue, SetQ, K;
      MemIs();
      ghost var k := K();
      var v := AddTo(semAddr, 1);
      if v <= 0 {
        var p := TakeBlocked(semAddr);
        if p != null {
          Wake(p, status);
        }
      }
    }

    /** A process taken off a device's queue gets its status and becomes ready. */
    method Wake(p: PcbT, status: int)
      requires Valid() && p in q.pcbs && p.p_list.home == null
      modifies this, q, q.Repr()
      ensures Valid() && currentProcess == old(currentProcess)
      ensures var k := old(K());
        p.slot < |k.pcb|
        && K() == Enqueue(SetPcb(k, p.slot, k.pcb[p.slot].(ctx := k.pcb[p.slot].ctx.(a0 := status))), p.slot)
                    .(softBlockCount := k.softBlockCount - 1)
    {
      hide Valid, InsertProc, K;
      StateIs(p);
      SaveState(p, p.p_s.(a0 := status));
      MakeReady(p);
      CountSoft(-1);
    }

    lemma StateIs(p: PcbT)
      requires Valid() && p in q.pcbs
      ensures p.slot < |K().pcb| && K().pcb[p.slot].ctx == p.p_s
    {
      q.RecOf(p);
    }

    /** handleDevice on an interrupt line, with the line's bitmap and the device's registers. */
    method HandleDevice(line: int, bitmap: seq<bool>, regs: DevRegs, saved: Context, t1: int, t2: int)
      returns (out: Outcome)
      requires Valid() && Inv(K()) && 3 <= line <= 7 && |bitmap| == 8
      modifies this, q, q.Repr()
      ensures Valid()
      ensures var k := old(K());
        Partition(k) && Semaphores(k) && Res(K(), out) == KernelSteps.HandleDevice(k, line, bitmap, regs, saved, t1, t2)
    {
      hide Valid, Inv, Partition, Lists, Semaphores, Complete, Schedule, UpdateCpuTime, FirstPending, Queues.Repr, K;
      InvParts();
      CurrentNone();
      MemIs();
      ghost var k := K();
      var devNo := -1;
      var i := 0;
      while i < 8
        invariant 0 <= i <= 8 && devNo == -1 && forall j :: 0 <= j < i ==> !bitmap[j]
      {
        if bitmap[i] {
          devNo := i;
          break;
        }
        i := i + 1;
      }
      FirstPendingIs(bitmap, i);
      if devNo == -1 {
        if currentProcess != null {
          return Resume(saved);
        }
        out := Scheduler(t2);
        return;
      }
      var semIndex := (line - 3) * 8 + devNo;
      var status;
      if line == 7 {
        if regs.transm % 0x100 == 5 {
          status := regs.transm;
          semIndex := semIndex + 8;
        } else {
          status := regs.status;
        }
      } else {
        status := regs.status;
      }
      DeviceLists(k, semIndex);
      CompleteOn(dev + 4 * semIndex, status);
      CurrentNone();
      if currentProcess != null {
        UpdateTime(t1);
        return Resume(saved);
      }
      out := Scheduler(t2);
    }

    // ---- termination --------------------------------------------------------

    /** outProcQ(&readyQueue, p). */
    method OutOfReady(p: PcbT) returns (r: PcbT?)
      requires Valid() && p in q.pcbs
      modifies this, q, q.Repr()
      ensures Valid() && currentProcess == old(currentProcess) && mem == old(mem)
      ensures r == if p.slot in old(K()).ready then p else null
      ensures K() == old(K()).(ready := Without(old(K()).ready, {p.slot}))
    {
      hide Queues.Valid, Queues.Recs, Queues.PcbShape, Queues.Repr, Queues.View, Without;
      q.ReprParts();
      r := q.OutReady(p);
    }

    /** outBlocked(p), (*p_semAdd)++ and, for a device, softBlockCount--. */
    method OutOfQueue(p: PcbT)
      requires Valid() && p in q.pcbs && p.p_semAdd != NULL && p.p_semAdd in mem
      modifies this, q, q.Repr()
      ensures Valid() && currentProcess == old(currentProcess)
      ensures var k, a := old(K()), old(p.p_semAdd); a in k.mem && K() == Unblock(k, p.slot, a)
    {
      hide Queues.Valid, Queues.Recs, Queues.PcbShape, Queues.Repr, Queues.View, Without, SetQ;
      q.ReprParts();
      q.ViewIs();
      var sem := p.p_semAdd;
      var r := q.OutBlocked(p);
      mem := mem[sem := mem[sem] + 1];
      if sem >= dev && sem <= dev + 4 * (SEMDEVLEN - 1) {
        softBlockCount := softBlockCount - 1;
      }
    }

    /** freePcb(p) and processCount--. */
    method Release(p: PcbT)
      requires Valid() && p in q.pcbs && p.p_list.home == null
      modifies this, q, q.Repr()
      ensures Valid() && currentProcess == old(currentProcess) && mem == old(mem)
      ensures var k := old(K()); K() == k.(free := [p.slot] + k.free, processCount := k.processCount - 1)
    {
      hide Queues.Valid, Queues.Recs, Queues.PcbShape, Queues.Repr, Queues.View;
      q.ReprParts();
      q.FreePcb(p);
      processCount := processCount - 1;
    }

    lemma SemAddIs(p: PcbT)
      requires Valid() && p in q.pcbs
      ensures p.slot < |K().pcb| && K().pcb[p.slot].semAdd == p.p_semAdd
      ensures K().current == Some(p.slot) <==> currentProcess == p
    {
      q.RecOf(p);
      if currentProcess != null {
        q.RecOf(currentProcess);
      }
    }

    /** The end of terminateProcessTree: p has no children left. */
    method Remove(p: PcbT)
      requires Valid() && p in q.pcbs && Stable(K()) && K().Live(p.slot)
      modifies this, q, q.Repr()
      ensures Valid() && K() == Reap(old(K()), p.slot)
    {
      hide Valid, Stable, Without, Unblock, Kernel.Blocked;
      SemAddIs(p);
      MemIs();
      TakenOut(K(), p.slot);
      ghost var k := K();
      hide K;
      if p == currentProcess {
        ClearCurrent();
      } else {
        var r := OutOfReady(p);
        if r == null {
          NotReady(k, p.slot);
          if p.p_semAdd != NULL {
            OutOfQueue(p);
          }
        }
      }
      OffLists(p);
      Release(p);
    }

    /** currentProcess = NULL. */
    method ClearCurrent()
      requires Valid()
      modifies `currentProcess
      ensures Valid() && K() == old(K()).(current := None) && currentProcess == null
    {
      hide Queues.Valid, Queues.Recs, Queues.PcbShape, Queues.Repr, Queues.View;
      currentProcess := null;
    }

    /** removeChild(p), when there is one. */
    method TakeChild(p: PcbT) returns (c: PcbT)
      requires Valid() && p in q.pcbs && Stable(K()) && K().Live(p.slot) && K().pcb[p.slot].children != []
      modifies this, q, q.Repr()
      ensures Valid() && c in q.pcbs && mem == old(mem)
      ensures var k := old(K()); var s := k.pcb[p.slot].children[0];
        c.slot == s && k.Live(s) && k.pcb[s].parent == Some(p.slot) && s != p.slot && K() == Detach(k, s)
    {
      hide Queues.Valid, Queues.Recs, Queues.PcbShape, Queues.Repr, Queues.View, Stable, Orphan;
      FirstOf(K(), p.slot);
      q.ReprParts();
      c := q.RemoveChild(p);
    }

    predicate HasNoChild(p: PcbT): (b: bool)
      requires Valid() && p in q.pcbs
      reads this, q`asl, q`next_pid, q.Repr()
      ensures p.slot < |K().pcb| && (b <==> K().pcb[p.slot].children == [])
    {
      q.EmptyChild(p)
    }

    /** terminateProcessTree(p), p having no parent any more. */
    method TerminateProcessTree(p: PcbT)
      requires Valid() && p in q.pcbs && Stable(K()) && K().Live(p.slot) && K().pcb[p.slot].parent == None
      modifies this, q, q.Repr()
      ensures Valid() && Forest(old(K())) && K() == Kill(old(K()), Post(old(K()), p.slot))
      decreases K().nextPid - K().pcb[p.slot].pid
    {
      hide Valid, Partition, Semaphores, Forest, Kill, Reap, K;
      ghost var k, x := K(), p.slot;
      while !HasNoChild(p)
        invariant Valid() && Stable(K()) && K().Live(x) && K().pcb[x].parent == None
        invariant K().nextPid == k.nextPid && K().pcb[x].pid == k.pcb[x].pid
        invariant Kill(K(), Post(K(), x)) == Kill(k, Post(k, x))
        decreases |K().pcb[x].children|
      {
        ghost var l := K();
        ChildKilled(l, x);
        var c := TakeChild(p);
        ChildDetached(l, x);
        TerminateProcessTree(c);
      }
      ReapKills(K(), x);
      Remove(p);
    }

    /** findPcbByPid: a depth-first search of root's subtree. */
    method FindPcbByPid(root: PcbT, pid: int) returns (r: PcbT?)
      requires Valid() && root in q.pcbs && Forest(K()) && K().Live(root.slot)
      ensures Valid() && K() == old(K())
      ensures r == null ==> Absent(old(K()), root.slot, pid)
      ensures r != null ==>
        r in q.pcbs && r.slot in Post(old(K()), root.slot) && K().Live(r.slot) && K().pcb[r.slot].pid == pid
      decreases K().nextPid - K().pcb[root.slot].pid
    {
      hide Valid, Forest, Absent, Queues.Repr, Queues.SibAt;
      ghost var k, x := K(), root.slot;
      ghost var ch := k.pcb[x].children;
      PidIs(root);
      if root.p_pid == pid {
        RootIn(k, x);
        return root;
      }
      ghost var i: nat := 0;
      ChildWalk(root, ch, 0);
      var iter := root.p_child.next;
      hide K;
      while iter != root.p_child
        invariant Valid() && K() == k && (forall c :: c in ch ==> c < |q.pcbs|)
        invariant i <= |ch| && iter == q.SibAt(root, ch, i)
        invariant forall j: nat :: j < i ==> k.Live(ch[j]) && Absent(k, ch[j], pid)
        decreases |ch| - i
      {
        ChildWalk(root, ch, i);
        ChildLive(k, x, i);
        var child := q.pcbs[iter.owner];
        r := FindPcbByPid(child, pid);
        if r != null {
          ChildPart(k, x, i, 0);
          RootIn(k, x);
          return;
        }
        ChildWalk(root, ch, i);
        iter := iter.next;
        i := i + 1;
      }
      ChildWalk(root, ch, i);
      AbsentFrom(k, x, pid);
      r := null;
    }

    lemma ChildWalk(p: PcbT, ch: seq<Slot>, i: nat)
      requires Valid() && p in q.pcbs && p.slot < |K().pcb| && ch == K().pcb[p.slot].children && i <= |ch|
      ensures forall c :: c in ch ==> c < |q.pcbs|
      ensures i == 0 ==> p.p_child.next == q.SibAt(p, ch, 0)
      ensures i == |ch| ==> q.SibAt(p, ch, i) == p.p_child
      ensures i < |ch| ==> var s := q.SibAt(p, ch, i);
        && s != p.p_child && s.owner == ch[i] && q.pcbs[ch[i]] in q.pcbs && q.pcbs[ch[i]].slot == ch[i]
        && s.next == q.SibAt(p, ch, i + 1)
    {
      q.SibWalk(p, ch, i);
    }

    /** The climb of TerminateProcess from the caller to the root. */
    method FindRoot() returns (root: PcbT)
      requires Valid() && Forest(K()) && currentProcess != null && K().Live(currentProcess.slot)
      ensures Valid() && K() == old(K()) && currentProcess == old(currentProcess)
      ensures root in q.pcbs && root.slot == Root(old(K()), old(currentProcess).slot)
    {
      ghost var k := K();
      q.ViewIs();
      ParentsIs();
      root := currentProcess;
      while root.p_parent != null
        invariant root in q.pcbs && k.Live(root.slot) && Root(k, root.slot) == Root(k, currentProcess.slot)
        decreases k.pcb[root.slot].pid
      {
        assert NodeOk(k, root.slot);
        root := root.p_parent;
      }
    }

    lemma ParentsIs()
      requires Valid()
      ensures forall p :: p in q.pcbs ==>
        && p.slot < |K().pcb|
        && (p.p_parent == null ==> K().pcb[p.slot].parent == None)
        && (p.p_parent != null ==> p.p_parent in q.pcbs && K().pcb[p.slot].parent == Some(p.p_parent.slot))
    {
      forall p | p in q.pcbs
        ensures p.slot < |K().pcb|
        ensures (p.p_parent == null ==> K().pcb[p.slot].parent == None)
          && (p.p_parent != null ==> p.p_parent in q.pcbs && K().pcb[p.slot].parent == Some(p.p_parent.slot))
      {
        q.RecOf(p);
      }
    }

    /** outChild(p) and terminateProcessTree(p). */
    method KillSubtree(p: PcbT)
      requires Valid() && p in q.pcbs && Stable(K()) && K().Live(p.slot)
      modifies this, q, q.Repr()
      ensures Valid() && Forest(old(K())) && K() == Kill(old(K()), Post(old(K()), p.slot))
    {
      hide Valid, Stable, Kill, Detach, Forest, K;
      StableParts(K());
      ParentApart(K(), p.slot);
      DetachStable(K(), p.slot);
      DetachKill(K(), p.slot);
      Unparent(p);
      TerminateProcessTree(p);
    }

    /** outChild(p). */
    method Unparent(p: PcbT)
      requires Valid() && p in q.pcbs && Stable(K()) && K().Live(p.slot)
      modifies this, q, q.Repr()
      ensures Valid() && mem == old(mem)
      ensures var k := old(K());
        && p.slot < |k.pcb|
        && (k.pcb[p.slot].parent.Some? ==> k.pcb[p.slot].parent.value < |k.pcb| && k.pcb[p.slot].parent.value != p.slot)
        && K() == Detach(k, p.slot)
    {
      hide Queues.Valid, Queues.Recs, Queues.PcbShape, Queues.Repr, Queues.View, Stable, Orphan;
      StableParts(K());
      ParentApart(K(), p.slot);
      q.ReprParts();
      var r := q.OutChild(p);
    }

    /** TERMPROCESS. */
    method TerminateProcess(pid: int, ctx: Context, t2: int) returns (out: Outcome)
      requires Valid() && Inv(K()) && currentProcess != null
      modifies this, q, q.Repr()
      ensures Valid()
      ensures var k := old(K());
        Core(k) && k.current.Some? && Res(K(), out) == KernelSteps.TerminateProcess(k, pid, ctx, t2)
    {
      hide Valid, Inv, Core, Stable, Kill, Schedule, K;
      InvParts();
      CurrentIs();
      CurrentLive();
      ghost var k := K();
      var target: PcbT? := currentProcess;
      if pid != 0 {
        var root := FindRoot();
        target := FindPcbByPid(root, pid);
        SearchEnds(k, currentProcess.slot, pid, if target == null then None else Some(target.slot));
      }
      if target == null {
        return Resume(SavePc(ctx));
      }
      KillSubtree(target);
      CurrentNone();
      if currentProcess == null {
        out := Scheduler(t2);
      } else {
        out := Resume(SavePc(ctx));
      }
    }

    lemma CurrentLive()
      requires Valid() && Inv(K()) && currentProcess != null
      ensures K().Live(currentProcess.slot) && Core(K()) && Stable(K()) && OneRoot(K()) && currentProcess in q.pcbs
    {
      CurrentIs();
      assert OnePlace(K(), currentProcess.slot);
    }

    /** passUpOrDie; the pass-up branch only reports that it was taken. */
    method PassUpOrDie(t2: int) returns (out: Outcome)
      requires Valid() && Inv(K()) && currentProcess != null
      modifies this, q, q.Repr()
      ensures Valid()
      ensures var k := old(K()); Core(k) && k.current.Some? && Res(K(), out) == KernelSteps.PassUpOrDie(k, t2)
    {
      hide Valid, Inv, Core, Stable, Kill, Schedule, K;
      InvParts();
      CurrentIs();
      CurrentLive();
      ghost var k := K();
      if currentProcess.p_supportStruct == NULL {
        KillSubtree(currentProcess);
        ClearCurrent();
        out := Scheduler(t2);
      } else {
        out := PassUp;
      }
    }

    // ---- every event, and boot ----------------------------------------------

    /** syscallExceptionHandler's switch. */
    method Syscall(call: Call, ctx: Context, t1: int, t2: int) returns (out: Outcome)
      requires Valid() && Inv(K()) && Enabled(K(), Event.Syscall(call, ctx, t1, t2))
      modifies this, q, q.Repr()
      ensures Valid() && Res(K(), out) == Handle(old(K()), Event.Syscall(call, ctx, t1, t2))
    {
      hide Valid, Inv, Core, Partition, Schedule, K;
      hide KernelSteps.CreateProcess, KernelSteps.Passeren, KernelSteps.Verhogen;
      hide KernelSteps.GetCpuTime, KernelSteps.SoftBlock, KernelSteps.GetProcessId, KernelSteps.Yield;
      hide KernelSteps.TerminateProcess;
      CurrentNone();
      MemIs();
      match call
      case CreateProcessCall(child, prio, support) => out := CreateProcess(child, prio, support, ctx);
      case TermProcessCall(pid) => out := TerminateProcess(pid, ctx, t2);
      case PasserenCall(a) => out := Passeren(a, ctx, t1, t2);
      case VerhogenCall(a) => out := Verhogen(a, ctx);
      case DoIOCall(cmd) => out := DoIO(cmd, ctx, t1, t2);
      case GetTimeCall(scale) => out := GetCPUTime(scale, ctx, t1);
      case ClockWaitCall => out := WaitForClock(ctx, t1, t2);
      case GetSupportPtrCall => out := GetSupportData(ctx);
      case GetProcessIdCall(ofParent) => out := GetProcessId(ofParent, ctx);
      case YieldCall => out := Yield(ctx, t1, t2);
    }

    /** syscallExceptionHandler. */
    method SyscallExceptionHandler(x: Ecall) returns (out: Outcome)
      requires Valid() && Inv(K()) && Enabled(K(), Raised(x))
      modifies this, q, q.Repr()
      ensures Valid() && Res(K(), out) == Handle(old(K()), Raised(x))
    {
      hide Valid, Inv, Core, Partition, Schedule, Counters, Forest, Semaphores, KernelSteps.PassUpOrDie, CallOf, K;
      InvParts();
      CurrentNone();
      var call := CallOf(x.ctx.a0, x.a1, x.a2, x.a3, x.child, x.scale);
      if x.kernelMode && call.Some? {
        out := Syscall(call.value, x.ctx, x.t1, x.t2);
      } else {
        out := PassUpOrDie(x.t2);
      }
    }

    /** The code on the lists and tables does what the state machine says, and keeps its invariant. */
    method React(e: Event) returns (out: Outcome)
      requires Valid() && Inv(K()) && Enabled(K(), e)
      modifies this, q, q.Repr()
      ensures Valid() && Res(K(), out) == Handle(old(K()), e) && Inv(K())
    {
      hide Valid, Inv, Core, Partition, Schedule, Counters, Forest, Semaphores, K;
      hide KernelSteps.HandlePLT, KernelSteps.HandlePseudoClock, KernelSteps.HandleDevice, KernelSteps.PassUpOrDie;
      StepKeeps(K(), e);
      InvParts();
      CurrentNone();
      match e
      case Syscall(call, ctx, t1, t2) => out := Syscall(call, ctx, t1, t2);
      case Trap(_, t2) => out := PassUpOrDie(t2);
      case PLT(ctx, t1, t2) => out := HandlePLT(ctx, t1, t2);
      case PseudoClock(ctx, t1, t2) => out := HandlePseudoClock(ctx, t1, t2);
      case Device(line, pending, regs, ctx, t1, t2) => out := HandleDevice(line, pending, regs, ctx, t1, t2);
    }

    /** A run of any length: every theorem about Exec is one about this. */
    method Run(es: seq<Event>)
      requires Valid() && Inv(K())
      requires forall i :: 0 <= i < |es| ==> Enabled(Exec(K(), es[..i]), es[i])
      modifies this, q, q.Repr()
      ensures Valid() && Inv(old(K())) && K() == Exec(old(K()), es)
    {
      hide Valid, Inv, Enabled, Handle, K;
      ghost var k := K();
      var i := 0;
      while i < |es|
        invariant 0 <= i <= |es| && Valid() && K() == Exec(k, es[..i]) && Inv(K())
      {
        assert es[..i + 1][..i] == es[..i];
        var out := React(es[i]);
        i := i + 1;
      }
      assert es[..i] == es;
    }

    /** initPcbs, initASL and the globals of main. */
    method Initialize()
      requires q.Raw() && (this as object) !in q.Repr()
      modifies this, q, q.Repr()
      ensures Valid() && currentProcess == null && mem == old(mem)
      ensures K().(pStart := 0) == Empty(|q.pcbs|, dev, old(mem))
    {
      hide Queues.Valid, Queues.Recs, Queues.Repr, Queues.View, Queues.Shape;
      hide Listx.Rings, Queues.Parents, Queues.RawSemds, Queues.Raw;
      q.ReprParts();
      q.RawParts();
      q.InitPcbs();
      q.InitASL();
      processCount := 0;
      softBlockCount := 0;
      q.MkEmptyReady();
      currentProcess := null;
    }

    /** deviceSemaphores[i] = 0 for every i. */
    method ZeroDevices()
      requires Valid()
      modifies `mem
      ensures Valid() && K() == old(K()).(mem := Zeroed(old(mem), dev, SEMDEVLEN))
      ensures currentProcess == old(currentProcess)
    {
      hide Queues.Valid, Queues.Recs, Queues.PcbShape, Queues.Repr, Queues.View;
      ghost var k, m := K(), mem;
      ZeroNone(m, dev);
      var i := 0;
      while i < SEMDEVLEN
        invariant 0 <= i <= SEMDEVLEN && Valid() && mem == Zeroed(m, dev, i) && K() == k.(mem := mem)
        invariant currentProcess == old(currentProcess)
      {
        ZeroNext(m, dev, i);
        mem := mem[dev + 4 * i := 0];
        i := i + 1;
      }
    }

    /** The first process: a PCB in the ready queue, and its initial state. */
    method FirstProcess(init: Context)
      requires Valid() && Partition(K()) && Forest(K()) && K().free != []
      modifies this, q, q.Repr()
      ensures Valid() && currentProcess == old(currentProcess)
      ensures var k := old(K()); var p := k.free[0];
        p < |k.pcb| && K() == WithFirst(k, p, init)
    {
      hide Valid, Partition, Forest, NoChild, InsertProc, FreshPcb, K;
      ghost var k := K();
      var p := Allocate(Context(0, 0, 0), 0, NULL);
      FirstSteps(k, p.slot, init);
      Launch(p, init);
    }

    /** insertProcQ, processCount++, and the state p starts in. */
    method Launch(p: PcbT, init: Context)
      requires Valid() && p in q.pcbs && p.p_list.home == null
      modifies this, q, q.Repr()
      ensures Valid() && currentProcess == old(currentProcess)
      ensures var k := old(K());
        p.slot < |k.pcb| && K() == k.(pcb := k.pcb[p.slot := k.pcb[p.slot].(ctx := init)],
          ready := InsertProc(k.ready, p.slot, k.pcb), processCount := k.processCount + 1)
    {
      hide Valid, InsertProc, K;
      MakeReady(p);
      CountProcess();
      SaveState(p, init);
    }

    /** processCount++. */
    method CountProcess()
      requires Valid()
      modifies `processCount
      ensures Valid() && K() == old(K()).(processCount := old(K()).processCount + 1)
      ensures currentProcess == old(currentProcess)
    {
      hide Queues.Valid, Queues.Recs, Queues.PcbShape, Queues.Repr, Queues.View;
      processCount := processCount + 1;
    }

    /** main: the first process runs. */
    method Boot(init: Context, t: int) returns (out: Outcome)
      requires q.Raw() && (this as object) !in q.Repr() && BootOk(|q.pcbs|, dev, mem)
      modifies this, q, q.Repr()
      ensures Valid() && Res(K(), out) == KernelRuns.Boot(|q.pcbs|, dev, old(mem), init, t)
      ensures Inv(K()) && out == Dispatch(|q.pcbs| - 1, init)
    {
      hide Valid, Queues.Raw, Queues.Repr, Partition, Forest, Inv, Initial, WithFirst, Zeroed, Empty;
      ghost var n, m := |q.pcbs|, mem;
      BootInv(n, dev, m, init, t);
      Initialize();
      EmptyMem(n, dev, K(), m, Zeroed(m, dev, SEMDEVLEN));
      ZeroDevices();
      EmptyOk(n, dev, K(), Zeroed(m, dev, SEMDEVLEN));
      InitialSteps(n, dev, m, init, t, K());
      hide K, Schedule, KernelRuns.Boot;
      FirstProcess(init);
      out := Scheduler(t);
    }
  }
}
