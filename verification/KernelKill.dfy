/** terminateProcessTree: what killing a set of processes does, and that killing one at a time adds up. */
module KernelKill {
  import opened Sequences
  import opened KernelState
  import opened KernelSteps
  import opened KernelInvariant
  import opened KernelTree

  /** o can be killed on its own: distinct live processes with all their children. */
  ghost predicate Killable(k: Kernel, o: seq<Slot>) {
    && NoDup(o)
    && (forall p :: p in o ==> k.Live(p))
    && (forall p, c {:trigger p in o, c in k.pcb[p].children} :: p in o && c in k.pcb[p].children ==> c in o)
  }

  lemma KillBlocked(k: Kernel, o: seq<Slot>, p: Slot)
    ensures Kill(k, o).Blocked(p) <==> k.Blocked(p) && p !in o
    ensures Kill(k, o).SoftBlocked(p) <==> k.SoftBlocked(p) && p !in o
  {
    if p < |k.pcb| {
      KillQueuesAt(k.asl, Elems(o), k.pcb[p].semAdd);
    }
  }

  lemma KillSoftSet(k: Kernel, o: seq<Slot>)
    ensures Kill(k, o).SoftSet() == k.SoftSet() - Elems(o)
  {
    forall p: Slot
      ensures Kill(k, o).SoftBlocked(p) <==> k.SoftBlocked(p) && p !in o
    {
      KillBlocked(k, o, p);
    }
  }

  lemma KillLists(k: Kernel, o: seq<Slot>)
    ensures forall a :: Kill(k, o).Q(a) == Without(k.Q(a), Elems(o))
    ensures forall p: Slot :: Kill(k, o).Blocked(p) <==> k.Blocked(p) && p !in o
  {
    forall a
      ensures Kill(k, o).Q(a) == Without(k.Q(a), Elems(o))
    {
      KillQueuesAt(k.asl, Elems(o), a);
    }
    forall p: Slot
      ensures Kill(k, o).Blocked(p) <==> k.Blocked(p) && p !in o
    {
      KillBlocked(k, o, p);
    }
  }

  lemma KillAsl(k: Kernel, o: seq<Slot>)
    requires AslOk(k)
    ensures AslOk(Kill(k, o))
  {
    var l, dead := Kill(k, o), Elems(o);
    forall a | a in l.asl
      ensures a != NULL && l.asl[a] != [] && NoDup(l.asl[a])
      ensures forall p :: p in l.asl[a] ==> p < |l.pcb| && l.pcb[p].semAdd == a
    {
      WithoutNoDup(k.asl[a], dead);
      forall p | p in l.asl[a]
        ensures p < |l.pcb| && l.pcb[p].semAdd == a
      {
        assert p in k.asl[a];
      }
    }
  }

  lemma KillPartition(k: Kernel, o: seq<Slot>)
    requires Partition(k) && NoDup(o) && forall p :: p in o ==> k.Live(p)
    ensures Partition(Kill(k, o))
  {
    var l, dead := Kill(k, o), Elems(o);
    KillLists(k, o);
    KillAsl(k, o);
    WithoutNoDup(k.ready, dead);
    ReverseNoDup(o);
    NoDupConcat(Reverse(o), k.free);
    forall p: Slot | p < |l.pcb|
      ensures OnePlace(l, p)
    {
      assert OnePlace(k, p);
      assert p in l.free <==> p in o || p in k.free;
    }
  }

  lemma KillForest(k: Kernel, o: seq<Slot>)
    requires Forest(k) && Killable(k, o)
    ensures Forest(Kill(k, o)) && (OneRoot(k) ==> OneRoot(Kill(k, o)))
  {
    var l, dead := Kill(k, o), Elems(o);
    assert forall p: Slot :: l.Live(p) <==> k.Live(p) && p !in o;
    forall p: Slot | l.Live(p)
      ensures NodeOk(l, p)
      ensures l.pcb[p].parent == k.pcb[p].parent
    {
      assert NodeOk(k, p);
      WithoutNoDup(k.pcb[p].children, dead);
      if k.pcb[p].parent.Some? {
        var q := k.pcb[p].parent.value;
        assert p in k.pcb[q].children;
        assert q !in o;
        assert l.pcb[q].children == Without(k.pcb[q].children, dead);
      }
      assert l.pcb[p].children == Without(k.pcb[p].children, dead);
    }
    forall p | p in l.free && p < |l.pcb|
      ensures l.pcb[p].parent == None && l.pcb[p].children == []
    {
    }
  }

  /** Queues shrink and values grow by the same amounts. */
  lemma SemaphoresShift(k: Kernel, l: Kernel)
    requires Semaphores(k) && l.dev == k.dev && l.mem.Keys == k.mem.Keys
    requires forall a :: a in l.asl ==> a in k.asl
    requires forall a :: a in k.mem ==> |l.Q(a)| <= |k.Q(a)| && l.mem[a] + |l.Q(a)| == k.mem[a] + |k.Q(a)|
    ensures Semaphores(l)
  {
    assert forall i :: l.Dev(i) == k.Dev(i);
    assert forall i :: 0 <= i < SEMDEVLEN ==> k.Dev(i) in k.mem && k.Dev(i) in l.mem;
  }

  lemma KillSemaphores(k: Kernel, o: seq<Slot>)
    requires Semaphores(k)
    ensures Semaphores(Kill(k, o))
  {
    var l := Kill(k, o);
    forall a | a in k.mem
      ensures |l.Q(a)| <= |k.Q(a)| && l.mem[a] + |l.Q(a)| == k.mem[a] + |k.Q(a)|
    {
      KillQueuesAt(k.asl, Elems(o), a);
    }
    SemaphoresShift(k, l);
  }

  lemma KillCounters(k: Kernel, o: seq<Slot>)
    requires Counters(k)
    ensures Counters(Kill(k, o))
  {
    hide KillPcbs, KillQueues, KillMem, Elems, Kernel.SoftSet;
    var s, dead := k.SoftSet(), Elems(o);
    KillSoftSet(k, o);
    assert s == (s - dead) + (s * dead);
  }

  lemma KillKeeps(k: Kernel, o: seq<Slot>)
    requires Core(k) && Killable(k, o)
    ensures Core(Kill(k, o))
  {
    KillPartition(k, o);
    KillForest(k, o);
    KillSemaphores(k, o);
    KillCounters(k, o);
  }

  lemma SubtreeKillable(k: Kernel, p: Slot)
    requires Forest(k) && k.Live(p)
    ensures Killable(k, Post(k, p))
  {
    PostMembers(k, p);
    var o := Post(k, p);
    forall q, c | q in o && c in k.pcb[q].children
      ensures c in o
    {
      assert NodeOk(k, q) && NodeOk(k, c);
      assert Under(k, c, p);
    }
  }

  lemma TerminateKeeps(k: Kernel, pid: int, ctx: Context, t2: int)
    requires Inv(k) && k.current.Some?
    ensures Inv(TerminateProcess(k, pid, ctx, t2).k)
  {
    var target := if pid == 0 then k.current else FindPid(k, pid);
    assert OnePlace(k, k.current.value);
    if target.Some? {
      SubtreeKillable(k, target.value);
      KillKeeps(k, Post(k, target.value));
      var k1 := Kill(k, Post(k, target.value));
      if k1.current.None? {
        ScheduleKeeps(k1, t2);
      }
    }
  }

  lemma PassUpOrDieKeeps(k: Kernel, t2: int)
    requires Inv(k) && k.current.Some?
    ensures Inv(PassUpOrDie(k, t2).k)
  {
    var c := k.current.value;
    assert OnePlace(k, c);
    if k.pcb[c].support == NULL {
      SubtreeKillable(k, c);
      PostMembers(k, c);
      KillKeeps(k, Post(k, c));
      ScheduleKeeps(Kill(k, Post(k, c)).(current := None), t2);
    }
  }

  // ---- killing one at a time ----------------------------------------------

  lemma {:induction false} KillPcbsTwice(pcb: seq<Pcb>, a: set<Slot>, b: set<Slot>)
    ensures KillPcbs(KillPcbs(pcb, a), b) == KillPcbs(pcb, a + b)
  {
    forall q: Slot | q < |pcb|
      ensures KillPcbs(KillPcbs(pcb, a), b)[q] == KillPcbs(pcb, a + b)[q]
    {
      WithoutTwice(pcb[q].children, a, b);
    }
  }

  lemma {:induction false} KillQueuesAt(asl: map<Addr, seq<Slot>>, dead: set<Slot>, x: Addr)
    ensures QueueOf(KillQueues(asl, dead), x) == Without(QueueOf(asl, x), dead)
  {
  }

  lemma {:induction false} KillQueuesTwice(asl: map<Addr, seq<Slot>>, a: set<Slot>, b: set<Slot>)
    ensures KillQueues(KillQueues(asl, a), b) == KillQueues(asl, a + b)
  {
    var l, m, n := KillQueues(asl, a), KillQueues(KillQueues(asl, a), b), KillQueues(asl, a + b);
    forall x
      ensures x in m <==> x in n
      ensures x in m ==> m[x] == n[x]
    {
      if x in asl {
        WithoutTwice(asl[x], a, b);
      }
    }
  }

  lemma {:induction false} KillMemTwice(mem: map<Addr, int>, asl: map<Addr, seq<Slot>>, a: set<Slot>, b: set<Slot>)
    ensures KillMem(KillMem(mem, asl, a), KillQueues(asl, a), b) == KillMem(mem, asl, a + b)
  {
    var m, n := KillMem(KillMem(mem, asl, a), KillQueues(asl, a), b), KillMem(mem, asl, a + b);
    forall x | x in mem
      ensures m[x] == n[x]
    {
      KillQueuesAt(asl, a, x);
      WithoutTwice(QueueOf(asl, x), a, b);
    }
    assert m == n;
  }

  lemma TwiceCard(s: set<Slot>, a: set<Slot>, b: set<Slot>)
    ensures |s * (a + b)| == |s * a| + |(s - a) * b|
  {
    assert s * (a + b) == s * a + (s - a) * b;
  }

  lemma KillTwiceFree(k: Kernel, o: seq<Slot>, r: seq<Slot>)
    ensures Kill(Kill(k, o), r).free == Kill(k, o + r).free
  {
    ReverseAppend(o, r);
    assert Reverse(r) + (Reverse(o) + k.free) == (Reverse(r) + Reverse(o)) + k.free;
  }

  lemma KillTwiceSoft(k: Kernel, o: seq<Slot>, r: seq<Slot>)
    ensures Kill(Kill(k, o), r).softBlockCount == Kill(k, o + r).softBlockCount
  {
    assert Elems(o + r) == Elems(o) + Elems(r);
    KillSoftSet(k, o);
    TwiceCard(k.SoftSet(), Elems(o), Elems(r));
  }

  /** Killing o and then r is killing o + r. */
  lemma KillTwice(k: Kernel, o: seq<Slot>, r: seq<Slot>)
    ensures Kill(Kill(k, o), r) == Kill(k, o + r)
  {
    var a, b := Elems(o), Elems(r);
    assert Elems(o + r) == a + b;
    KillPcbsTwice(k.pcb, a, b);
    KillTwiceFree(k, o, r);
    WithoutTwice(k.ready, a, b);
    KillQueuesTwice(k.asl, a, b);
    KillMemTwice(k.mem, k.asl, a, b);
    KillTwiceSoft(k, o, r);
  }
}
