/** terminateProcessTree step by step: detaching, killing child by child and freeing the process itself add up to
    killing the whole subtree at once. */
module SubtreeKill {
  import opened Sequences
  import opened KernelState
  import opened KernelSteps
  import opened KernelMoves
  import opened KernelTree
  import opened KernelKill
  import opened ProcessTree

  /** What holds at every call of terminateProcessTree: the invariant but for the counters and the single root. */
  ghost predicate Stable(k: Kernel) { Partition(k) && Semaphores(k) && Forest(k) }

  lemma KillStable(k: Kernel, p: Slot)
    requires Stable(k) && k.Live(p)
    ensures Stable(Kill(k, Post(k, p)))
  {
    SubtreeKillable(k, p);
    KillPartition(k, Post(k, p));
    KillSemaphores(k, Post(k, p));
    KillForest(k, Post(k, p));
  }

  // ---- a subtree's list depends on its own links only ---------------------

  lemma {:induction false} PostFrame(k: Kernel, l: Kernel, p: Slot)
    requires Forest(k) && Forest(l) && k.Live(p) && l.Live(p)
    requires forall q :: q in Post(k, p) ==> k.Live(q) && l.Live(q) && l.pcb[q].children == k.pcb[q].children
    ensures Post(l, p) == Post(k, p)
    decreases k.nextPid - k.pcb[p].pid, 1, 0
  {
    assert NodeOk(k, p);
    assert p in Post(k, p);
    PostFromFrame(k, l, p, 0, 0);
  }

  lemma {:induction false} PostFromFrame(k: Kernel, l: Kernel, p: Slot, i: nat, j: nat)
    requires Forest(k) && Forest(l) && k.Live(p) && l.Live(p)
    requires i <= |l.pcb[p].children| && j <= |k.pcb[p].children| && l.pcb[p].children[i..] == k.pcb[p].children[j..]
    requires forall q :: q in PostFrom(k, p, j) ==> k.Live(q) && l.Live(q) && l.pcb[q].children == k.pcb[q].children
    ensures PostFrom(l, p, i) == PostFrom(k, p, j)
    decreases k.nextPid - k.pcb[p].pid, 0, |k.pcb[p].children| - j
  {
    if j < |k.pcb[p].children| {
      var c := k.pcb[p].children[j];
      assert l.pcb[p].children[i..][0] == c && l.pcb[p].children[i + 1..] == l.pcb[p].children[i..][1..];
      assert NodeOk(k, p) && c in k.pcb[p].children && NodeOk(k, c);
      assert c in Post(k, c);
      PostFrame(k, l, c);
      PostFromFrame(k, l, p, i + 1, j + 1);
    }
  }

  // ---- detaching ----------------------------------------------------------

  /** p leaves its parent's children. */
  function Detach(k: Kernel, p: Slot): Kernel
    requires p < |k.pcb| && (k.pcb[p].parent.Some? ==> k.pcb[p].parent.value < |k.pcb| && k.pcb[p].parent.value != p)
  {
    if k.pcb[p].parent.None? then k else k.(pcb := Orphan(k.pcb, k.pcb[p].parent.value, p))
  }

  lemma ParentApart(k: Kernel, p: Slot)
    requires Forest(k) && k.Live(p)
    ensures k.pcb[p].parent.Some? ==>
      var c := k.pcb[p].parent.value; c < |k.pcb| && c != p && k.Live(c) && p in k.pcb[c].children
  {
    assert NodeOk(k, p);
  }

  lemma DetachForest(k: Kernel, p: Slot)
    requires Forest(k) && k.Live(p) && k.pcb[p].parent.Some?
    requires var c := k.pcb[p].parent.value; c < |k.pcb| && c != p && k.Live(c) && p in k.pcb[c].children
    ensures Forest(Detach(k, p)) && Detach(k, p).pcb[p].parent == None
  {
    var c, l := k.pcb[p].parent.value, Detach(k, p);
    forall q: Slot | l.Live(q)
      ensures NodeOk(l, q)
    {
      assert NodeOk(k, q);
      if q == c {
        WithoutNoDup(k.pcb[c].children, {p});
      }
    }
  }

  lemma DetachStable(k: Kernel, p: Slot)
    requires Stable(k) && k.Live(p)
    requires k.pcb[p].parent.Some? ==>
      var c := k.pcb[p].parent.value; c < |k.pcb| && c != p && k.Live(c) && p in k.pcb[c].children
    ensures Stable(Detach(k, p)) && Detach(k, p).Live(p) && Detach(k, p).pcb[p].parent == None
  {
    if k.pcb[p].parent.Some? {
      DetachForest(k, p);
      PartitionFrame(k, Detach(k, p));
      SemaphoresFrame(k, Detach(k, p));
    }
  }

  lemma {:induction false} OrphanKilled(pcb: seq<Pcb>, c: Slot, p: Slot, dead: set<Slot>)
    requires c < |pcb| && p < |pcb| && c != p && p in dead
    ensures KillPcbs(Orphan(pcb, c, p), dead) == KillPcbs(pcb, dead)
  {
    WithoutTwice(pcb[c].children, {p}, dead);
    assert {p} + dead == dead;
  }

  /** Detaching first makes no difference to the killing. */
  lemma DetachKill(k: Kernel, p: Slot)
    requires Stable(k) && k.Live(p)
    requires k.pcb[p].parent.Some? ==>
      var c := k.pcb[p].parent.value; c < |k.pcb| && c != p && k.Live(c) && p in k.pcb[c].children
    ensures var l := Detach(k, p); Stable(l) && l.Live(p) && Kill(l, Post(l, p)) == Kill(k, Post(k, p))
  {
    hide Kill, Forest, Semaphores;
    var l, o := Detach(k, p), Post(k, p);
    DetachStable(k, p);
    DetachPost(k, p);
    if k.pcb[p].parent.Some? {
      DetachSame(k, p, o);
    }
  }

  lemma DetachSame(k: Kernel, p: Slot, o: seq<Slot>)
    requires Partition(k) && k.Live(p) && p in o && k.pcb[p].parent.Some?
    requires var c := k.pcb[p].parent.value; c < |k.pcb| && c != p
    ensures Kill(Detach(k, p), o) == Kill(k, o)
  {
    hide Kill, KillPcbs;
    OrphanKilled(k.pcb, k.pcb[p].parent.value, p, Elems(o));
    PartitionFrame(k, Detach(k, p));
    KillSame(k, Detach(k, p), o);
  }

  lemma DetachPost(k: Kernel, p: Slot)
    requires Stable(k) && k.Live(p)
    requires k.pcb[p].parent.Some? ==>
      var c := k.pcb[p].parent.value; c < |k.pcb| && c != p && k.Live(c) && p in k.pcb[c].children
    ensures var l := Detach(k, p); Forest(l) && l.Live(p) && Post(l, p) == Post(k, p)
  {
    var l, o := Detach(k, p), Post(k, p);
    DetachStable(k, p);
    PostMembers(k, p);
    forall q | q in o
      ensures k.Live(q) && l.Live(q) && l.pcb[q].children == k.pcb[q].children
    {
      UnderPid(k, q, p);
      assert NodeOk(k, p);
    }
    PostFrame(k, l, p);
  }

  lemma KillSame(k: Kernel, l: Kernel, o: seq<Slot>)
    requires l == k.(pcb := l.pcb) && l.SoftSet() == k.SoftSet()
    requires KillPcbs(l.pcb, Elems(o)) == KillPcbs(k.pcb, Elems(o))
    ensures Kill(l, o) == Kill(k, o)
  {
  }

  // ---- one child after the other ------------------------------------------

  lemma FirstChildOrder(k: Kernel, p: Slot)
    requires Forest(k) && k.Live(p) && k.pcb[p].children != []
    ensures var c := k.pcb[p].children[0];
      k.Live(c) && k.pcb[c].parent == Some(p) && Post(k, p) == Post(k, c) + (PostFrom(k, p, 1) + [p])
  {
    var c := k.pcb[p].children[0];
    assert NodeOk(k, p) && c in k.pcb[p].children && NodeOk(k, c);
    assert PostFrom(k, p, 0) == Post(k, c) + PostFrom(k, p, 1);
  }

  /** Killing p's first child's subtree leaves the links of the rest of p's subtree as they were. */
  lemma RestKept(k: Kernel, p: Slot, c: Slot, q: Slot)
    requires Forest(k) && k.Live(p) && k.pcb[p].children != [] && c == k.pcb[p].children[0] && k.Live(c)
    requires q in PostFrom(k, p, 1)
    ensures var l := Kill(k, Post(k, c)); l.Live(q) && l.pcb[q].children == k.pcb[q].children
  {
    var o := Post(k, c);
    FirstChildOrder(k, p);
    PostMembers(k, p);
    PostMembers(k, c);
    NoDupSplit(o, PostFrom(k, p, 1) + [p]);
    assert q in PostFrom(k, p, 1) + [p] && q !in o && q in Post(k, p);
    LastNotBefore(k, p);
    assert NodeOk(k, q);
    forall x | x in k.pcb[q].children
      ensures x !in o
    {
      ChildOutside(k, q, x, c, p);
    }
    WithoutAbsent(k.pcb[q].children, Elems(o));
  }

  /** A child of a process outside c's subtree is outside too, unless it is c. */
  lemma ChildOutside(k: Kernel, q: Slot, x: Slot, c: Slot, p: Slot)
    requires Forest(k) && k.Live(c) && k.pcb[c].parent == Some(p) && k.Live(q) && q != p && q !in Post(k, c)
    requires x in k.pcb[q].children && k.Live(x)
    ensures x !in Post(k, c)
  {
    PostMembers(k, c);
    assert NodeOk(k, q) && NodeOk(k, x);
  }

  lemma LastNotBefore(k: Kernel, p: Slot)
    requires Forest(k) && k.Live(p) && k.pcb[p].children != []
    ensures p !in PostFrom(k, p, 1)
  {
    FirstChildOrder(k, p);
    PostMembers(k, p);
    var c := k.pcb[p].children[0];
    assert Post(k, p) == (Post(k, c) + PostFrom(k, p, 1)) + [p];
    NoDupSplit(Post(k, c) + PostFrom(k, p, 1), [p]);
    assert p in [p];
  }

  lemma NoDupSplit(a: seq<Slot>, b: seq<Slot>)
    requires NoDup(a + b)
    ensures forall x :: x in b ==> x !in a
  {
    forall x | x in b
      ensures x !in a
    {
      var j :| 0 <= j < |b| && b[j] == x;
      assert (a + b)[|a| + j] == x;
      assert forall i :: 0 <= i < |a| ==> a[i] == (a + b)[i];
    }
  }

  lemma ChildPid(k: Kernel, p: Slot)
    requires Forest(k) && k.Live(p) && k.pcb[p].children != []
    ensures var c := k.pcb[p].children[0]; c < |k.pcb| && k.pcb[p].pid < k.pcb[c].pid < k.nextPid
    ensures forall o :: Kill(k, o).nextPid == k.nextPid
  {
    var c := k.pcb[p].children[0];
    assert NodeOk(k, p) && c in k.pcb[p].children && NodeOk(k, c);
  }

  /** One round of terminateProcessTree's loop: p's first child and all below it die. */
  lemma ChildKilled(k: Kernel, p: Slot)
    requires Stable(k) && k.Live(p) && k.pcb[p].children != [] && k.pcb[p].parent == None
    ensures var c := k.pcb[p].children[0];
      k.Live(c) && k.pcb[c].parent == Some(p) && c != p && c < |k.pcb| && k.pcb[p].pid < k.pcb[c].pid < k.nextPid
    ensures var l := Kill(k, Post(k, k.pcb[p].children[0]));
      && Stable(l) && l.Live(p) && l.pcb[p] == k.pcb[p].(children := k.pcb[p].children[1..]) && l.nextPid == k.nextPid
      && Kill(l, Post(l, p)) == Kill(k, Post(k, p))
  {
    hide Semaphores, Partition, Kill;
    FirstChildOrder(k, p);
    ChildPid(k, p);
    var c := k.pcb[p].children[0];
    ParentApart(k, c);
    var o, r := Post(k, c), PostFrom(k, p, 1);
    var l := Kill(k, o);
    KillStable(k, c);
    RootKept(k, p);
    forall q | q in r
      ensures k.Live(q) && l.Live(q) && l.pcb[q].children == k.pcb[q].children
    {
      PostMembers(k, p);
      RestKept(k, p, c, q);
    }
    PostFromFrame(k, l, p, 0, 1);
    KillTwice(k, o, r + [p]);
  }

  /** p itself loses just that child. */
  lemma RootKept(k: Kernel, p: Slot)
    requires Forest(k) && k.Live(p) && k.pcb[p].children != [] && k.pcb[p].parent == None
    ensures k.Live(k.pcb[p].children[0])
    ensures var l := Kill(k, Post(k, k.pcb[p].children[0]));
      l.Live(p) && l.pcb[p] == k.pcb[p].(children := k.pcb[p].children[1..])
  {
    var c, t := k.pcb[p].children[0], k.pcb[p].children[1..];
    FirstChildOrder(k, p);
    var o := Post(k, c);
    PostMembers(k, p);
    NoDupSplit(o, PostFrom(k, p, 1) + [p]);
    assert p in PostFrom(k, p, 1) + [p] && c in o;
    forall x | x in t
      ensures x !in o
    {
      var j :| 0 <= j < |t| && t[j] == x;
      assert k.pcb[p].children[j + 1] == x;
      InRest(k, p, j + 1, 1);
    }
    WithoutAbsent(t, Elems(o));
  }

  lemma {:induction false} InRest(k: Kernel, p: Slot, j: nat, i: nat)
    requires Forest(k) && k.Live(p) && i <= j < |k.pcb[p].children|
    ensures k.pcb[p].children[j] in PostFrom(k, p, i)
    decreases j - i
  {
    var c := k.pcb[p].children[i];
    assert NodeOk(k, p) && c in k.pcb[p].children && NodeOk(k, c);
    if i == j {
      assert c in Post(k, c);
    } else {
      InRest(k, p, j, i + 1);
    }
  }

  // ---- the process itself -------------------------------------------------

  /** p leaves the list it is on, or the CPU. */
  function TakeOut(k: Kernel, p: Slot): Kernel
    requires p < |k.pcb|
  {
    var a := k.pcb[p].semAdd;
    if k.current == Some(p) then k.(current := None)
    else if p in k.ready then k.(ready := Without(k.ready, {p}))
    else if a != NULL && a in k.mem then Unblock(k, p, a)
    else k
  }

  /** What terminateProcessTree does with p once it has no children. */
  function Reap(k: Kernel, p: Slot): Kernel
    requires p < |k.pcb|
  {
    var k1 := TakeOut(k, p);
    k1.(free := [p] + k1.free, processCount := k1.processCount - 1)
  }

  /** outBlocked, (*sem)++ and the soft-block count. */
  function Unblock(k: Kernel, p: Slot, a: Addr): Kernel
    requires a in k.mem
  {
    var k1 := if p in k.Q(a) then k.(asl := SetQ(k.asl, a, Without(k.Q(a), {p}))) else k;
    AddMem(k1, a, 1).(softBlockCount := k.softBlockCount - if k.IsDevice(a) then 1 else 0)
  }

  lemma AloneKilled(k: Kernel, p: Slot)
    requires Forest(k) && k.Live(p) && k.pcb[p].parent == None && k.pcb[p].children == []
    ensures KillPcbs(k.pcb, {p}) == k.pcb
  {
    forall q: Slot | q < |k.pcb|
      ensures KillPcbs(k.pcb, {p})[q] == k.pcb[q]
    {
      if q != p {
        if k.Live(q) {
          assert NodeOk(k, q);
        }
        WithoutAbsent(k.pcb[q].children, {p});
      }
    }
  }

  /** p is in the queue of a, or if a is nothing in none; it leaves, and the value of a grows by one. */
  lemma KillQueuesOne(asl: map<Addr, seq<Slot>>, a: Addr, p: Slot)
    requires forall x :: x in asl && x != a ==> asl[x] != [] && p !in asl[x]
    ensures KillQueues(asl, {p}) == SetQ(asl, a, Without(QueueOf(asl, a), {p}))
  {
    var m, n := KillQueues(asl, {p}), SetQ(asl, a, Without(QueueOf(asl, a), {p}));
    forall x
      ensures x in m <==> x in n
      ensures x in m ==> m[x] == n[x]
    {
      if x in asl && x != a {
        WithoutAbsent(asl[x], {p});
      }
    }
  }

  lemma KillMemOne(mem: map<Addr, int>, asl: map<Addr, seq<Slot>>, a: Addr, p: Slot)
    requires a in mem && forall x :: x in asl && x != a ==> p !in asl[x]
    ensures KillMem(mem, asl, {p}) == mem[a := mem[a] + |QueueOf(asl, a)| - |Without(QueueOf(asl, a), {p})|]
  {
    hide Without, KillMem;
    var m := KillMem(mem, asl, {p});
    var n := mem[a := mem[a] + |QueueOf(asl, a)| - |Without(QueueOf(asl, a), {p})|];
    forall x | x in mem
      ensures m[x] == n[x]
    {
      if x != a {
        WithoutAbsent(QueueOf(asl, x), {p});
      }
    }
    assert m.Keys == n.Keys;
  }

  lemma KillMemNone(mem: map<Addr, int>, asl: map<Addr, seq<Slot>>, p: Slot)
    requires forall x :: x in asl ==> p !in asl[x]
    ensures KillMem(mem, asl, {p}) == mem
  {
    hide Without, KillMem;
    var m := KillMem(mem, asl, {p});
    forall x | x in mem
      ensures m[x] == mem[x]
    {
      WithoutAbsent(QueueOf(asl, x), {p});
    }
    assert m.Keys == mem.Keys;
  }

  /** A process in no semaphore queue leaves queues and values alone. */
  lemma NotBlockedKilled(k: Kernel, p: Slot)
    requires AslOk(k) && p < |k.pcb| && !k.Blocked(p)
    ensures KillQueues(k.asl, {p}) == k.asl && KillMem(k.mem, k.asl, {p}) == k.mem && k.SoftSet() * {p} == {}
  {
    hide Without, KillQueues, KillMem;
    assert forall x :: x in k.asl ==> k.asl[x] != [] && p !in k.asl[x];
    KillMemNone(k.mem, k.asl, p);
    KillQueuesNone(k.asl, p);
  }

  lemma KillQueuesNone(asl: map<Addr, seq<Slot>>, p: Slot)
    requires forall x :: x in asl ==> asl[x] != [] && p !in asl[x]
    ensures KillQueues(asl, {p}) == asl
  {
    hide Without, KillQueues;
    var m := KillQueues(asl, {p});
    forall x
      ensures x in m <==> x in asl
      ensures x in m ==> m[x] == asl[x]
    {
      if x in asl {
        WithoutAbsent(asl[x], {p});
      }
    }
  }

  lemma BlockedKilled(k: Kernel, p: Slot)
    requires AslOk(k) && p < |k.pcb| && k.Blocked(p) && k.pcb[p].semAdd in k.mem
    ensures var a := k.pcb[p].semAdd;
      && KillQueues(k.asl, {p}) == SetQ(k.asl, a, Without(k.Q(a), {p}))
      && KillMem(k.mem, k.asl, {p}) == k.mem[a := k.mem[a] + 1]
      && |k.SoftSet() * {p}| == if k.IsDevice(a) then 1 else 0
  {
    hide Without, SetQ, KillQueues, KillMem, AslOk, Kernel.SoftSet;
    var a := k.pcb[p].semAdd;
    BlockedAt(k, p);
    KillMemOne(k.mem, k.asl, a, p);
    KillQueuesOne(k.asl, a, p);
  }

  /** A blocked process is in one queue only, once. */
  lemma BlockedAt(k: Kernel, p: Slot)
    requires AslOk(k) && p < |k.pcb| && k.Blocked(p)
    ensures var a := k.pcb[p].semAdd;
      && (forall x :: x in k.asl && x != a ==> k.asl[x] != [] && p !in k.asl[x])
      && |Without(k.Q(a), {p})| == |k.Q(a)| - 1
      && |k.SoftSet() * {p}| == if k.IsDevice(a) then 1 else 0
  {
    var a := k.pcb[p].semAdd;
    var i :| 0 <= i < |k.Q(a)| && k.Q(a)[i] == p;
    WithoutOne(k.Q(a), i);
    assert k.SoftSet() * {p} == if k.IsDevice(a) then {p} else {};
  }

  lemma ReapRunning(k: Kernel, p: Slot)
    requires Stable(k) && k.Live(p) && k.pcb[p].parent == None && k.pcb[p].children == [] && !k.Blocked(p)
    ensures Reap(k, p) == Kill(k, [p])
  {
    hide Partition, Semaphores, Without, SetQ, KillPcbs, KillQueues, KillMem, Elems, Reverse, Kernel.SoftSet, AslOk;
    RunningPlace(k, p);
    AloneKilled(k, p);
    NotBlockedKilled(k, p);
  }

  lemma RunningPlace(k: Kernel, p: Slot)
    requires Stable(k) && k.Live(p) && !k.Blocked(p)
    ensures if k.current == Some(p) then Without(k.ready, {p}) == k.ready else p in k.ready
    ensures AslOk(k) && Elems([p]) == {p} && Reverse([p]) == [p]
  {
    assert OnePlace(k, p);
    if k.current == Some(p) {
      WithoutAbsent(k.ready, {p});
    }
  }

  lemma ReapBlocked(k: Kernel, p: Slot)
    requires Stable(k) && k.Live(p) && k.pcb[p].parent == None && k.pcb[p].children == [] && k.Blocked(p)
    ensures Reap(k, p) == Kill(k, [p])
  {
    hide Partition, Semaphores, Without, SetQ, KillPcbs, KillQueues, KillMem, Elems, Reverse, Kernel.SoftSet, AslOk;
    ReapPlace(k, p);
    AloneKilled(k, p);
    BlockedKilled(k, p);
    assert Kill(k, [p]).asl == Reap(k, p).asl && Kill(k, [p]).mem == Reap(k, p).mem;
  }

  lemma ReapPlace(k: Kernel, p: Slot)
    requires Stable(k) && k.Live(p) && k.Blocked(p)
    ensures k.current != Some(p) && p !in k.ready && Without(k.ready, {p}) == k.ready
    ensures AslOk(k) && k.pcb[p].semAdd in k.mem && k.pcb[p].semAdd != NULL
    ensures Elems([p]) == {p} && Reverse([p]) == [p]
  {
    assert OnePlace(k, p);
    WithoutAbsent(k.ready, {p});
  }

  /** "Not ready means blocked" is right: freeing p alone is killing p alone. */
  lemma ReapKills(k: Kernel, p: Slot)
    requires Stable(k) && k.Live(p) && k.pcb[p].parent == None && k.pcb[p].children == []
    ensures Post(k, p) == [p] && Reap(k, p) == Kill(k, [p])
    ensures k.current != Some(p) && p !in k.ready ==>
      k.Blocked(p) && k.pcb[p].semAdd != NULL && k.pcb[p].semAdd in k.mem
  {
    hide Reap, Kill;
    assert OnePlace(k, p);
    if k.Blocked(p) {
      ReapBlocked(k, p);
    } else {
      ReapRunning(k, p);
    }
  }

  /** Once taken out, p is on no list. */
  lemma TakenOut(k: Kernel, p: Slot)
    requires Stable(k) && k.Live(p)
    ensures k.current != Some(p) && p !in k.ready ==>
      k.Blocked(p) && k.pcb[p].semAdd != NULL && k.pcb[p].semAdd in k.mem
    ensures var l := TakeOut(k, p); p !in l.free && p !in l.ready && forall a :: a in l.asl ==> p !in l.asl[a]
  {
    assert OnePlace(k, p);
    assert forall a :: a in k.asl && p in k.asl[a] ==> a == k.pcb[p].semAdd;
  }

  lemma FirstOf(k: Kernel, p: Slot)
    requires Stable(k) && k.Live(p) && k.pcb[p].children != []
    ensures p !in k.pcb[p].children && k.pcb[p].children[0] < |k.pcb|
    ensures var c := k.pcb[p].children[0]; k.Live(c) && k.pcb[c].parent == Some(p) && c != p
  {
    assert NodeOk(k, p);
    assert k.pcb[p].children[0] in k.pcb[p].children;
    forall c | c in k.pcb[p].children
      ensures c != p
    {
      assert NodeOk(k, c);
    }
  }

  /** removeChild, then the recursive call: the first child's subtree dies. */
  lemma ChildDetached(k: Kernel, p: Slot)
    requires Stable(k) && k.Live(p) && k.pcb[p].children != []
    ensures var c := k.pcb[p].children[0];
      && c < |k.pcb| && k.Live(c) && k.pcb[c].parent == Some(p) && c != p
      && var d := Detach(k, c);
         Stable(d) && d.Live(c) && d.pcb[c].parent == None && Kill(d, Post(d, c)) == Kill(k, Post(k, c))
         && d.nextPid == k.nextPid && d.pcb[c].pid == k.pcb[c].pid
  {
    hide Kill;
    FirstOf(k, p);
    var c := k.pcb[p].children[0];
    ParentApart(k, c);
    DetachStable(k, c);
    DetachKill(k, c);
  }

  // ---- searching ----------------------------------------------------------

  /** Nobody in p's subtree has this pid. */
  ghost predicate Absent(k: Kernel, p: Slot, pid: int)
    requires Forest(k) && k.Live(p)
  {
    forall q :: q in Post(k, p) ==> q < |k.pcb| && k.pcb[q].pid != pid
  }

  lemma RootIn(k: Kernel, p: Slot)
    requires Forest(k) && k.Live(p)
    ensures p in Post(k, p) && forall q :: q in PostFrom(k, p, 0) ==> q in Post(k, p)
  {
  }

  lemma ChildLive(k: Kernel, p: Slot, i: nat)
    requires Forest(k) && k.Live(p) && i < |k.pcb[p].children|
    ensures var c := k.pcb[p].children[i]; k.Live(c) && k.pcb[p].pid < k.pcb[c].pid < k.nextPid
  {
    var c := k.pcb[p].children[i];
    assert NodeOk(k, p) && c in k.pcb[p].children && NodeOk(k, c);
  }

  /** What is in a child's subtree is in the parent's. */
  lemma {:induction false} ChildPart(k: Kernel, p: Slot, i: nat, j: nat)
    requires Forest(k) && k.Live(p) && j <= i < |k.pcb[p].children|
    ensures k.Live(k.pcb[p].children[i])
    ensures forall q :: q in Post(k, k.pcb[p].children[i]) ==> q in PostFrom(k, p, j)
    decreases i - j
  {
    ChildLive(k, p, i);
    ChildLive(k, p, j);
    if j < i {
      ChildPart(k, p, i, j + 1);
    }
  }

  /** The children from the i-th on lack the pid. */
  lemma {:induction false} AbsentBelow(k: Kernel, p: Slot, pid: int, i: nat)
    requires Forest(k) && k.Live(p) && i <= |k.pcb[p].children|
    requires forall j: nat :: j < |k.pcb[p].children| ==>
      k.Live(k.pcb[p].children[j]) && Absent(k, k.pcb[p].children[j], pid)
    ensures forall q :: q in PostFrom(k, p, i) ==> q < |k.pcb| && k.pcb[q].pid != pid
    decreases |k.pcb[p].children| - i
  {
    if i < |k.pcb[p].children| {
      ChildLive(k, p, i);
      assert Absent(k, k.pcb[p].children[i], pid);
      AbsentBelow(k, p, pid, i + 1);
    }
  }

  lemma AbsentFrom(k: Kernel, p: Slot, pid: int)
    requires Forest(k) && k.Live(p) && k.pcb[p].pid != pid
    requires forall j: nat :: j < |k.pcb[p].children| ==>
      k.Live(k.pcb[p].children[j]) && Absent(k, k.pcb[p].children[j], pid)
    ensures Absent(k, p, pid)
  {
    AbsentBelow(k, p, pid, 0);
  }

  lemma StableParts(k: Kernel)
    requires Stable(k)
    ensures Partition(k) && Semaphores(k) && Forest(k)
  {
  }

  /** The search from the root has found the live process with this pid, or there is none. */
  lemma SearchEnds(k: Kernel, c: Slot, pid: int, r: Option<Slot>)
    requires Forest(k) && OneRoot(k) && k.Live(c)
    requires r == None ==> Absent(k, Root(k, c), pid)
    requires r.Some? ==> r.value in Post(k, Root(k, c)) && k.Live(r.value) && k.pcb[r.value].pid == pid
    ensures r == FindPid(k, pid)
  {
    SearchFromRoot(k, c, pid);
  }
}
