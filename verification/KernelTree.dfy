/** Process creation, the process tree, and the exact effect of killing a subtree. */
module KernelTree {
  import opened Sequences
  import opened KernelState
  import opened KernelSteps
  import opened KernelMoves

  // ---- creation -----------------------------------------------------------

  /** The links of c and its new child p; everybody else's stay. */
  ghost predicate Linked(k: Kernel, l: Kernel, c: Slot, p: Slot) {
    && |l.pcb| == |k.pcb| && c < |k.pcb| && p < |k.pcb| && c != p
    && l.pcb[p].parent == Some(c) && l.pcb[p].children == [] && l.pcb[p].pid == k.nextPid
    && l.pcb[c].parent == k.pcb[c].parent && l.pcb[c].children == k.pcb[c].children + [p]
    && l.pcb[c].pid == k.pcb[c].pid
    && forall q: Slot :: q < |k.pcb| && q != c && q != p ==>
         && l.pcb[q].parent == k.pcb[q].parent
         && l.pcb[q].children == k.pcb[q].children && l.pcb[q].pid == k.pcb[q].pid
  }

  /** After the creation every node of the tree is well formed. */
  lemma CreatedNodes(k: Kernel, l: Kernel, c: Slot, p: Slot)
    requires Forest(k) && Linked(k, l, c, p) && k.Live(c)
    requires k.free != [] && NoDup(k.free) && p == k.free[0] && l.free == k.free[1..] && l.nextPid == k.nextPid + 1
    ensures forall q: Slot :: l.Live(q) <==> k.Live(q) || q == p
    ensures forall q: Slot {:trigger NodeOk(l, q)} :: l.Live(q) ==> NodeOk(l, q)
    ensures forall q: Slot :: l.Live(q) && q != p ==>
      && l.pcb[q].pid == k.pcb[q].pid && l.pcb[q].pid < k.nextPid && l.pcb[q].parent == k.pcb[q].parent
  {
    assert k.free == [p] + l.free;
    assert forall q: Slot :: l.Live(q) <==> k.Live(q) || q == p;
    assert NodeOk(k, c);
    forall q: Slot | l.Live(q)
      ensures NodeOk(l, q)
      ensures q != p ==> l.pcb[q].pid < k.nextPid && l.pcb[q].parent == k.pcb[q].parent
    {
      if q != p {
        assert NodeOk(k, q);
        assert p !in k.pcb[q].children;
      }
    }
  }

  lemma CreateForest(k: Kernel, l: Kernel, c: Slot, p: Slot)
    requires Forest(k) && OneRoot(k) && Linked(k, l, c, p) && k.Live(c)
    requires k.free != [] && NoDup(k.free) && p == k.free[0] && l.free == k.free[1..] && l.nextPid == k.nextPid + 1
    ensures Forest(l) && OneRoot(l)
  {
    hide NodeOk;
    CreatedNodes(k, l, c, p);
    assert k.free == [p] + l.free;
  }

  lemma CreatePartition(k: Kernel, l: Kernel, p: Slot)
    requires Partition(k) && k.free != [] && p == k.free[0] && |l.pcb| == |k.pcb|
    requires l.free == k.free[1..] && l.asl == k.asl && l.current == k.current && l.dev == k.dev
    requires NoDup(l.ready) && forall x :: x in l.ready <==> x == p || x in k.ready
    requires p < |k.pcb| && l.pcb[p].semAdd == NULL
    requires forall q: Slot :: q < |k.pcb| && q != p ==> l.pcb[q].semAdd == k.pcb[q].semAdd
    ensures Partition(l) && l.SoftSet() == k.SoftSet()
  {
    assert k.free == [p] + l.free && p in k.free;
    assert OnePlace(k, p);
    forall a, q | a in k.asl && q in k.asl[a]
      ensures q != p
    {
      assert k.Blocked(q);
    }
    assert forall q :: q in l.free ==> q in k.free;
    assert forall q: Slot :: (l.Blocked(q) <==> k.Blocked(q)) && (l.SoftBlocked(q) <==> k.SoftBlocked(q));
    PartitionMove(k, l, p);
  }

  lemma AddChildKeeps(k: Kernel, child: Context, prio: int, support: int)
    requires Inv(k) && k.current.Some? && k.free != []
    ensures k.free[0] < |k.pcb| && Inv(AddChild(k, k.current.value, child, prio, support))
  {
    var c, p := k.current.value, k.free[0];
    assert p in k.free && OnePlace(k, p) && OnePlace(k, c);
    var l := AddChild(k, c, child, prio, support);
    InsertProcNoDup(k.ready, p, l.pcb);
    assert l.ready == InsertProc(k.ready, p, l.pcb);
    CreatePartition(k, l, p);
    CreateForest(k, l, c, p);
    SemaphoresFrame(k, l);
  }

  // ---- ancestors and subtrees ---------------------------------------------

  /** q is p or a descendant of p: climbing from q meets p. */
  ghost predicate Under(k: Kernel, q: Slot, p: Slot)
    requires Forest(k) && k.Live(q)
    decreases k.pcb[q].pid
  {
    assert NodeOk(k, q);
    q == p || (k.pcb[q].parent.Some? && Under(k, k.pcb[q].parent.value, p))
  }

  lemma {:induction false} UnderPid(k: Kernel, q: Slot, p: Slot)
    requires Forest(k) && k.Live(q) && Under(k, q, p)
    ensures k.Live(p) && k.pcb[p].pid <= k.pcb[q].pid
    decreases k.pcb[q].pid
  {
    assert NodeOk(k, q);
    if q != p {
      UnderPid(k, k.pcb[q].parent.value, p);
    }
  }

  /** A proper descendant is under exactly one child. */
  lemma {:induction false} UnderSomeChild(k: Kernel, q: Slot, p: Slot) returns (c: Slot)
    requires Forest(k) && k.Live(q) && Under(k, q, p) && q != p
    ensures k.Live(p) && c in k.pcb[p].children && k.Live(c) && Under(k, q, c)
    decreases k.pcb[q].pid
  {
    assert NodeOk(k, q);
    var r := k.pcb[q].parent.value;
    if r == p {
      c := q;
    } else {
      c := UnderSomeChild(k, r, p);
    }
  }

  lemma {:induction false} UnderChild(k: Kernel, q: Slot, c: Slot, p: Slot)
    requires Forest(k) && k.Live(q) && k.Live(c) && Under(k, q, c) && k.pcb[c].parent == Some(p)
    ensures Under(k, q, p) && q != p
    decreases k.pcb[q].pid
  {
    assert NodeOk(k, q) && NodeOk(k, c);
    if q != c {
      UnderChild(k, k.pcb[q].parent.value, c, p);
      UnderPid(k, q, c);
    }
  }

  lemma {:induction false} UnderOneChild(k: Kernel, q: Slot, c: Slot, d: Slot, p: Slot)
    requires Forest(k) && k.Live(q) && k.Live(c) && k.Live(d)
    requires k.pcb[c].parent == Some(p) && k.pcb[d].parent == Some(p)
    requires Under(k, q, c) && Under(k, q, d)
    ensures c == d
    decreases k.pcb[q].pid
  {
    assert NodeOk(k, q) && NodeOk(k, c) && NodeOk(k, d);
    if q != c && q != d {
      UnderOneChild(k, k.pcb[q].parent.value, c, d, p);
    } else if c != d {
      // one of them would lie under the other, hence under its own sibling's place
      UnderPid(k, p, if q == c then d else c);
    }
  }

  /** Post lists the subtree of p, each process once, p last. */
  lemma {:induction false} PostMembers(k: Kernel, p: Slot)
    requires Forest(k) && k.Live(p)
    ensures NoDup(Post(k, p))
    ensures forall q :: q in Post(k, p) <==> k.Live(q) && Under(k, q, p)
    decreases k.nextPid - k.pcb[p].pid, 1, 0
  {
    assert NodeOk(k, p);
    PostFromMembers(k, p, 0);
    forall q: Slot
      ensures q in Post(k, p) <==> k.Live(q) && Under(k, q, p)
    {
      if k.Live(q) && Under(k, q, p) && q != p {
        var c := UnderSomeChild(k, q, p);
        var j :| 0 <= j < |k.pcb[p].children| && k.pcb[p].children[j] == c;
        assert UnderFrom(k, q, p, 0);
      }
      if q in PostFrom(k, p, 0) {
        var j :| 0 <= j < |k.pcb[p].children| && Under(k, q, k.pcb[p].children[j]);
        UnderChild(k, q, k.pcb[p].children[j], p);
      }
    }
    assert p !in PostFrom(k, p, 0) by {
      if p in PostFrom(k, p, 0) {
        var j :| 0 <= j < |k.pcb[p].children| && Under(k, p, k.pcb[p].children[j]);
        UnderChild(k, p, k.pcb[p].children[j], p);
      }
    }
    NoDupConcat(PostFrom(k, p, 0), [p]);
  }

  ghost predicate UnderFrom(k: Kernel, q: Slot, p: Slot, i: nat)
    requires Forest(k) && k.Live(p)
  {
    k.Live(q) && exists j :: i <= j < |k.pcb[p].children| && Under(k, q, k.pcb[p].children[j])
  }

  lemma {:induction false} PostFromMembers(k: Kernel, p: Slot, i: nat)
    requires Forest(k) && k.Live(p) && i <= |k.pcb[p].children|
    ensures NoDup(PostFrom(k, p, i))
    ensures forall q :: q in PostFrom(k, p, i) <==> UnderFrom(k, q, p, i)
    decreases k.nextPid - k.pcb[p].pid, 0, |k.pcb[p].children| - i
  {
    if i < |k.pcb[p].children| {
      var c := k.pcb[p].children[i];
      assert NodeOk(k, p) && c in k.pcb[p].children && NodeOk(k, c);
      PostMembers(k, c);
      PostFromMembers(k, p, i + 1);
      assert forall q: Slot :: UnderFrom(k, q, p, i) <==> UnderFrom(k, q, p, i + 1) || (k.Live(q) && Under(k, q, c));
      forall q | q in Post(k, c) && q in PostFrom(k, p, i + 1)
        ensures false
      {
        var j :| i < j < |k.pcb[p].children| && Under(k, q, k.pcb[p].children[j]);
        var d := k.pcb[p].children[j];
        assert d in k.pcb[p].children;
        UnderOneChild(k, q, c, d, p);
      }
      NoDupConcat(Post(k, c), PostFrom(k, p, i + 1));
    }
  }
}
