/** Each way a process can move between the lists keeps the invariant's parts. */
module KernelMoves {
  import opened Sequences
  import opened KernelState
  import opened KernelSteps

  // ---- changes that touch no list -----------------------------------------

  ghost predicate SameTree(k: Kernel, l: Kernel) {
    && |k.pcb| == |l.pcb|
    && forall p: Slot :: p < |k.pcb| ==>
         && l.pcb[p].parent == k.pcb[p].parent
         && l.pcb[p].children == k.pcb[p].children && l.pcb[p].pid == k.pcb[p].pid
  }

  /** The tables agree on everything the invariant reads. */
  ghost predicate SameLinks(k: Kernel, l: Kernel) {
    SameTree(k, l) && forall p: Slot :: p < |k.pcb| ==> l.pcb[p].semAdd == k.pcb[p].semAdd
  }

  ghost predicate SameLists(k: Kernel, l: Kernel) {
    k.dev == l.dev && k.free == l.free && k.ready == l.ready && k.asl == l.asl && k.current == l.current
  }

  lemma PartitionFrame(k: Kernel, l: Kernel)
    requires Partition(k) && SameLists(k, l) && |k.pcb| == |l.pcb|
    requires forall p: Slot :: p < |k.pcb| ==> l.pcb[p].semAdd == k.pcb[p].semAdd
    ensures Partition(l) && l.SoftSet() == k.SoftSet()
  {
    forall p: Slot | p < |l.pcb|
      ensures OnePlace(l, p) && l.SoftBlocked(p) == k.SoftBlocked(p)
    {
      assert OnePlace(k, p);
    }
  }

  lemma ForestFrame(k: Kernel, l: Kernel)
    requires Forest(k) && SameTree(k, l) && k.free == l.free && k.nextPid == l.nextPid
    ensures Forest(l) && (OneRoot(k) ==> OneRoot(l))
  {
    forall p | l.Live(p)
      ensures NodeOk(l, p)
    {
      assert NodeOk(k, p);
    }
  }

  lemma LeaveCpuFrame(k: Kernel, ctx: Context, t: int)
    requires k.current.Some? && k.current.value < |k.pcb|
    ensures var l := LeaveCpu(k, ctx, t);
      SameLinks(k, l) && SameLists(k, l) && l.mem == k.mem && l.nextPid == k.nextPid
      && l.processCount == k.processCount && l.softBlockCount == k.softBlockCount
      && forall p: Slot :: p < |k.pcb| ==> l.pcb[p].prio == k.pcb[p].prio
  {
  }

  lemma SemaphoresFrame(k: Kernel, l: Kernel)
    requires Semaphores(k) && k.dev == l.dev && k.mem == l.mem && k.asl == l.asl
    ensures Semaphores(l)
  {
    assert forall i :: l.Dev(i) == k.Dev(i) && l.Q(l.Dev(i)) == k.Q(k.Dev(i));
  }

  lemma CoreFrame(k: Kernel, l: Kernel)
    requires Core(k) && SameLinks(k, l) && SameLists(k, l)
    requires k.mem == l.mem && k.nextPid == l.nextPid
    requires k.processCount == l.processCount && k.softBlockCount == l.softBlockCount
    ensures Core(l)
  {
    PartitionFrame(k, l);
    ForestFrame(k, l);
    SemaphoresFrame(k, l);
  }

  // ---- semaphore values ---------------------------------------------------

  /** One semaphore's value and queue change together. */
  lemma SemaphoreStep(k: Kernel, l: Kernel, a: Addr)
    requires Semaphores(k) && l.dev == k.dev && a in k.mem && l.mem.Keys == k.mem.Keys
    requires forall x :: x in k.mem && x != a ==> l.mem[x] == k.mem[x]
    requires forall x :: x != a ==> l.Q(x) == k.Q(x)
    requires forall x :: x in l.asl ==> x in k.asl || x == a
    requires k.IsDevice(a) ==> (a - k.dev) % 4 == 0
    requires !k.IsDevice(a) ==> |l.Q(a)| == if l.mem[a] < 0 then -l.mem[a] else 0
    requires k.IsDevice(a) ==> l.mem[a] + |l.Q(a)| >= 0
    requires a == k.Dev(CLOCK) ==> l.mem[a] + |l.Q(a)| == 0
    ensures Semaphores(l)
  {
    assert forall i :: l.Dev(i) == k.Dev(i);
    forall i | 0 <= i < CLOCK
      ensures l.mem[l.Dev(i)] + |l.Q(l.Dev(i))| >= 0
    {
      assert k.Dev(i) in k.mem;
    }
    assert k.Dev(CLOCK) in k.mem;
  }

  // ---- the ready queue ----------------------------------------------------

  /** insertProcQ looks at nothing but priorities. */
  lemma {:induction false} InsertPosPrio(q: seq<Slot>, prio: int, t: seq<Pcb>, u: seq<Pcb>)
    requires forall x :: x in q ==> Prio(t, x) == Prio(u, x)
    ensures InsertPos(q, prio, t) == InsertPos(q, prio, u)
  {
    if q != [] {
      assert q[0] in q;
      assert forall x :: x in q[1..] ==> x in q;
      InsertPosPrio(q[1..], prio, t, u);
    }
  }

  lemma InsertProcPrio(q: seq<Slot>, p: Slot, t: seq<Pcb>, u: seq<Pcb>)
    requires forall x :: x == p || x in q ==> Prio(t, x) == Prio(u, x)
    ensures InsertProc(q, p, t) == InsertProc(q, p, u)
  {
    InsertPosPrio(q, Prio(t, p), t, u);
  }

  // ---- moves between two lists --------------------------------------------

  /** Only p moved. */
  lemma PartitionMove(k: Kernel, l: Kernel, p: Slot)
    requires Partition(k) && Lists(l) && |l.pcb| == |k.pcb| && p < |k.pcb| && OnePlace(l, p)
    requires forall q :: q != p ==>
      && (q in l.free <==> q in k.free) && (q in l.ready <==> q in k.ready)
      && (l.Blocked(q) <==> k.Blocked(q)) && (l.current == Some(q) <==> k.current == Some(q))
    ensures Partition(l)
  {
    forall q: Slot | q < |l.pcb|
      ensures OnePlace(l, q)
    {
      if q != p {
        assert OnePlace(k, q);
      }
    }
  }

  lemma RequeueParts(k: Kernel, l: Kernel)
    requires Partition(k) && k.current.Some? && |l.pcb| == |k.pcb|
    requires forall p: Slot :: p < |k.pcb| ==> l.pcb[p].semAdd == k.pcb[p].semAdd
    requires l.dev == k.dev && l.free == k.free && l.asl == k.asl && l.current == None
    requires NoDup(l.ready) && forall p :: p in l.ready <==> p in k.ready || p == k.current.value
    ensures Partition(l) && l.SoftSet() == k.SoftSet()
  {
    assert OnePlace(k, k.current.value);
    assert forall p :: l.Blocked(p) == k.Blocked(p);
    PartitionMove(k, l, k.current.value);
  }

  lemma DispatchParts(k: Kernel, t: int)
    requires Partition(k) && k.current.None? && k.ready != []
    ensures var l := Schedule(k, t).k; Partition(l) && l.SoftSet() == k.SoftSet()
  {
    var l := Schedule(k, t).k;
    assert OnePlace(k, k.ready[0]);
    assert k.ready == [k.ready[0]] + l.ready;
    assert forall p :: p in l.ready ==> p in k.ready;
    assert forall p :: l.Blocked(p) == k.Blocked(p);
    PartitionMove(k, l, k.ready[0]);
  }

  /** The queue of a is replaced by one of processes that name a. */
  lemma SetQOk(k: Kernel, l: Kernel, a: Addr, q: seq<Slot>)
    requires AslOk(k) && a != NULL && NoDup(q) && |l.pcb| == |k.pcb|
    requires l.asl == SetQ(k.asl, a, q)
    requires forall p :: p in q ==> p < |l.pcb| && l.pcb[p].semAdd == a
    requires forall x, p :: x != a && p in k.Q(x) ==> l.pcb[p].semAdd == k.pcb[p].semAdd
    ensures AslOk(l) && l.Q(a) == q && forall x :: x != a ==> l.Q(x) == k.Q(x)
  {
    forall x | x in l.asl && x != a
      ensures l.asl[x] != [] && NoDup(l.asl[x])
      ensures forall p :: p in l.asl[x] ==> p < |l.pcb| && l.pcb[p].semAdd == x
    {
      assert l.asl[x] == k.asl[x] == k.Q(x);
    }
  }

  // ---- blocking never fails -----------------------------------------------

  /** While some process runs, a semaphore descriptor is free. */
  lemma DescriptorFree(k: Kernel)
    requires Partition(k) && k.current.Some?
    ensures |k.asl| < |k.pcb|
  {
    var c := k.current.value;
    var slots := Below(|k.pcb|) - {c};
    forall a | a in k.asl
      ensures k.asl[a][0] in slots && k.pcb[k.asl[a][0]].semAdd == a
    {
      var p := k.asl[a][0];
      assert p in k.asl[a];
      assert k.Blocked(p) && OnePlace(k, p);
    }
    Pigeonhole(map a | a in k.asl :: k.asl[a][0], k.asl.Keys, slots);
    assert |k.asl.Keys| == |k.asl|;
  }

  // ---- blocking and waking ------------------------------------------------

  /** The running process joins a's queue. */
  lemma BlockMove(k: Kernel, l: Kernel, a: Addr)
    requires Partition(k) && k.current.Some? && a != NULL && |l.pcb| == |k.pcb|
    requires l.dev == k.dev && l.free == k.free && l.ready == k.ready && l.current == None
    requires l.asl == SetQ(k.asl, a, k.Q(a) + [k.current.value])
    requires forall p: Slot :: p < |k.pcb| ==>
      l.pcb[p].semAdd == if p == k.current.value then a else k.pcb[p].semAdd
    ensures Partition(l)
    ensures l.Q(a) == k.Q(a) + [k.current.value] && forall x :: x != a ==> l.Q(x) == k.Q(x)
    ensures forall p: Slot :: l.Blocked(p) <==> k.Blocked(p) || p == k.current.value
  {
    var c := k.current.value;
    assert OnePlace(k, c);
    assert !k.Blocked(c);
    assert forall x :: x in k.asl && c in k.asl[x] ==> k.pcb[c].semAdd == x;
    SetQOk(k, l, a, k.Q(a) + [c]);
    assert forall p: Slot :: l.Blocked(p) <==> k.Blocked(p) || p == c;
    PartitionMove(k, l, c);
  }

  /** The head of a's queue becomes ready. */
  lemma WakeMove(k: Kernel, l: Kernel, a: Addr)
    requires Partition(k) && k.Q(a) != [] && |l.pcb| == |k.pcb|
    requires l.dev == k.dev && l.free == k.free && l.current == k.current
    requires l.asl == SetQ(k.asl, a, k.Q(a)[1..])
    requires forall p: Slot :: p < |k.pcb| ==> l.pcb[p].semAdd == k.pcb[p].semAdd
    requires NoDup(l.ready) && forall x :: x in l.ready <==> x == k.Q(a)[0] || x in k.ready
    ensures Partition(l)
    ensures l.Q(a) == k.Q(a)[1..] && forall x :: x != a ==> l.Q(x) == k.Q(x)
    ensures k.Blocked(k.Q(a)[0]) && k.pcb[k.Q(a)[0]].semAdd == a
    ensures forall p: Slot :: l.Blocked(p) <==> k.Blocked(p) && p != k.Q(a)[0]
  {
    var p, t := k.Q(a)[0], k.Q(a)[1..];
    assert k.asl[a] == [p] + t && p in k.asl[a];
    assert forall q :: q in t ==> q in k.asl[a];
    SetQOk(k, l, a, t);
    assert k.Blocked(p) && OnePlace(k, p);
    assert forall q: Slot :: l.Blocked(q) <==> k.Blocked(q) && q != p;
    assert OnePlace(l, p);
    PartitionMove(k, l, p);
  }

  /** p starts or stops being blocked, on a; nobody else does. */
  lemma SoftSetMove(k: Kernel, l: Kernel, p: Slot, a: Addr)
    requires l.dev == k.dev && |l.pcb| == |k.pcb| && p < |k.pcb|
    requires forall q: Slot :: q < |k.pcb| && q != p ==>
      l.pcb[q].semAdd == k.pcb[q].semAdd && (l.Blocked(q) <==> k.Blocked(q))
    requires (l.Blocked(p) && !k.Blocked(p) && l.pcb[p].semAdd == a)
          || (k.Blocked(p) && !l.Blocked(p) && k.pcb[p].semAdd == a)
    ensures !k.IsDevice(a) ==> l.SoftSet() == k.SoftSet()
    ensures k.IsDevice(a) ==> |l.SoftSet()| == |k.SoftSet()| + if l.Blocked(p) then 1 else -1
  {
    var s, t := k.SoftSet(), l.SoftSet();
    forall q: Slot
      ensures q != p ==> (q in t <==> q in s)
      ensures p in t <==> l.Blocked(p) && k.IsDevice(a)
      ensures p in s <==> k.Blocked(p) && k.IsDevice(a)
    {
      assert q != p ==> (l.SoftBlocked(q) <==> k.SoftBlocked(q));
    }
    hide Kernel.SoftSet;
    SetMove(s, t, p);
  }

  /** Sets that differ in p at most. */
  lemma SetMove(s: set<Slot>, t: set<Slot>, p: Slot)
    requires forall q: Slot :: q != p ==> (q in t <==> q in s)
    ensures p in s && p !in t ==> |t| == |s| - 1
    ensures p !in s && p in t ==> |t| == |s| + 1
    ensures (p in s <==> p in t) ==> s == t
  {
    if p in s && p !in t {
      assert s == t + {p};
    } else if p !in s && p in t {
      assert t == s + {p};
    } else {
      assert s == t;
    }
  }
}
