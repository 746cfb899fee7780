/** The live processes form one tree; finding a process, and what killing a subtree leaves. */
module ProcessTree {
  import opened Sequences
  import opened KernelState
  import opened KernelSteps
  import opened KernelTree
  import opened KernelKill

  /** Where TerminateProcess's climb from p ends. */
  ghost function Root(k: Kernel, p: Slot): (r: Slot)
    requires Forest(k) && k.Live(p)
    ensures k.Live(r) && k.pcb[r].parent == None && Under(k, p, r)
    decreases k.pcb[p].pid
  {
    assert NodeOk(k, p);
    if k.pcb[p].parent.None? then p else Root(k, k.pcb[p].parent.value)
  }

  /** Every live process lies under the root reached from any other. */
  lemma OneTree(k: Kernel, p: Slot, q: Slot)
    requires Forest(k) && OneRoot(k) && k.Live(p) && k.Live(q)
    ensures Root(k, p) == Root(k, q) && Under(k, q, Root(k, p))
  {
  }

  /** A search of the root's subtree finds a pid exactly when it is live. */
  lemma SearchFromRoot(k: Kernel, p: Slot, pid: int)
    requires Forest(k) && OneRoot(k) && k.Live(p)
    ensures FindPid(k, pid).Some? <==> exists q :: q in Post(k, Root(k, p)) && q < |k.pcb| && k.pcb[q].pid == pid
    ensures forall q :: q in Post(k, Root(k, p)) && q < |k.pcb| && k.pcb[q].pid == pid ==> FindPid(k, pid) == Some(q)
  {
    var r := Root(k, p);
    PostMembers(k, r);
    forall q: Slot | k.Live(q)
      ensures q in Post(k, r)
    {
      OneTree(k, p, q);
    }
  }

  /** TERMPROCESS on a pid nobody has changes nothing but the caller's PC. */
  lemma TerminateNobody(k: Kernel, pid: int, ctx: Context, t2: int)
    requires Inv(k) && k.current.Some? && (pid < 0 || pid >= k.nextPid || (pid != 0 && FindPid(k, pid).None?))
    ensures TerminateProcess(k, pid, ctx, t2) == Res(k, Resume(ctx.(pc := ctx.pc + 4)))
  {
    hide Inv, Core, Partition, Forest, KillAndGo, Post;
    SomePids(k);
  }

  lemma SomePids(k: Kernel)
    requires Inv(k)
    ensures Core(k) && 0 < k.nextPid && forall p: Slot :: k.Live(p) ==> 0 < k.pcb[p].pid < k.nextPid
  {
    forall p: Slot | k.Live(p)
      ensures 0 < k.pcb[p].pid < k.nextPid
    {
      assert NodeOk(k, p);
    }
  }

  /** o lists p and its descendants, each once. */
  ghost predicate IsSubtree(k: Kernel, p: Slot, o: seq<Slot>)
    requires Forest(k)
  {
    k.Live(p) && NoDup(o) && forall q :: q in o <==> k.Live(q) && Under(k, q, p)
  }

  /** The order in which terminateProcessTree frees is such a list. */
  lemma PostIsSubtree(k: Kernel, p: Slot)
    requires Forest(k) && k.Live(p)
    ensures IsSubtree(k, p, Post(k, p))
  {
    PostMembers(k, p);
  }

  /** Exactly the subtree dies. */
  lemma KillLive(k: Kernel, p: Slot, o: seq<Slot>, q: Slot)
    requires Forest(k) && IsSubtree(k, p, o)
    ensures Kill(k, o).Live(q) <==> k.Live(q) && !Under(k, q, p)
  {
    assert q in Kill(k, o).free <==> q in o || q in k.free;
  }

  /** A survivor keeps its PCB; only p's parent loses a child, and only p. */
  lemma KillLinks(k: Kernel, p: Slot, o: seq<Slot>, q: Slot)
    requires Forest(k) && IsSubtree(k, p, o) && k.Live(q) && !Under(k, q, p)
    ensures Kill(k, o).pcb[q] == k.pcb[q].(children :=
      if k.pcb[p].parent == Some(q) then Without(k.pcb[q].children, {p}) else k.pcb[q].children)
  {
    assert NodeOk(k, q) && NodeOk(k, p);
    forall c | c in k.pcb[q].children
      ensures c in o <==> c == p && k.pcb[p].parent == Some(q)
    {
      assert NodeOk(k, c);
    }
    WithoutSame(k.pcb[q].children, Elems(o), if k.pcb[p].parent == Some(q) then {p} else {});
    WithoutAbsent(k.pcb[q].children, {});
  }

  /** The dead leave every queue; everyone else keeps their place in it. */
  lemma KillOrder(k: Kernel, p: Slot, o: seq<Slot>, x: Slot, y: Slot, a: Addr)
    requires Partition(k) && Forest(k) && IsSubtree(k, p, o)
    requires k.Live(x) && k.Live(y) && !Under(k, x, p) && !Under(k, y, p)
    ensures var l := Kill(k, o);
      && (x in l.ready <==> x in k.ready) && (x in l.Q(a) <==> x in k.Q(a))
      && (Before(l.ready, x, y) <==> Before(k.ready, x, y))
      && (Before(l.Q(a), x, y) <==> Before(k.Q(a), x, y))
  {
    var dead := Elems(o);
    BeforeWithout(k.ready, dead, x, y);
    KillQueuesAt(k.asl, dead, a);
    BeforeWithout(k.Q(a), dead, x, y);
  }

  /** The counters drop by the number of dead and of soft-blocked dead; the CPU empties iff its process died. */
  lemma KillCounts(k: Kernel, p: Slot, o: seq<Slot>)
    requires Partition(k) && Forest(k) && IsSubtree(k, p, o)
    ensures var l := Kill(k, o);
      && |l.free| == |k.free| + |o| && k.processCount - l.processCount == |o|
      && k.softBlockCount - l.softBlockCount == |set q | q in k.SoftSet() && q in o|
      && l.SoftSet() == k.SoftSet() - Elems(o)
      && (k.current.Some? ==> k.Live(k.current.value))
      && (k.current.Some? ==> l.current == if Under(k, k.current.value, p) then None else k.current)
  {
    KillSoftSet(k, o);
    assert k.SoftSet() * Elems(o) == set q | q in k.SoftSet() && q in o;
    if k.current.Some? {
      assert OnePlace(k, k.current.value);
    }
  }

  /** Every semaphore is raised by the number of its waiters that died. */
  lemma KillRaises(k: Kernel, o: seq<Slot>, a: Addr)
    requires AslOk(k) && a in k.mem && NoDup(o)
    ensures a in Kill(k, o).mem && Kill(k, o).mem[a] - k.mem[a] == |set q | q in k.Q(a) && q in o|
  {
    var q, dead := k.Q(a), Elems(o);
    WithoutNoDup(q, dead);
    NoDupCard(q);
    NoDupCard(Without(q, dead));
    assert (set x | x in q && x in o) == Elems(q) - Elems(Without(q, dead));
    assert Elems(Without(q, dead)) <= Elems(q);
  }
}
