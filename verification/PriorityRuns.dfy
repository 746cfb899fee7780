/** Priority order in the ready queue: exactly when YIELD breaks it, and who is dispatched while it holds. */
module PriorityRuns {
  import opened Sequences
  import opened KernelState
  import opened KernelSteps
  import opened KernelRuns
  import opened ReadyQueue
  import opened ReadyOrder
  import opened ReadyRuns
  import opened LostWakeups
  import opened CpuStays

  // ---- one event ----------------------------------------------------------

  ghost predicate Sorted(pcb: seq<Pcb>, q: seq<Slot>) {
    forall i, j :: 0 <= i < j < |q| ==> Prio(pcb, q[i]) >= Prio(pcb, q[j])
  }

  lemma InsertSorted(q: seq<Slot>, p: Slot, pcb: seq<Pcb>)
    requires Sorted(pcb, q)
    ensures Sorted(pcb, InsertProc(q, p, pcb))
  {
  }

  lemma {:induction false} DrainSorted(ready: seq<Slot>, q: seq<Slot>, pcb: seq<Pcb>)
    requires Sorted(pcb, ready)
    ensures Sorted(pcb, EnqueueAll(ready, q, pcb))
    decreases |q|
  {
    if q != [] {
      InsertSorted(ready, q[0], pcb);
      DrainSorted(InsertProc(ready, q[0], pcb), q[1..], pcb);
    }
  }

  lemma {:induction false} DeleteSorted(q: seq<Slot>, dead: set<Slot>, pcb: seq<Pcb>)
    requires Sorted(pcb, q)
    ensures Sorted(pcb, Without(q, dead))
  {
    if q != [] {
      var t := Without(q[1..], dead);
      DeleteSorted(q[1..], dead, pcb);
      forall i | 0 <= i < |t|
        ensures Prio(pcb, q[0]) >= Prio(pcb, t[i])
      {
        assert t[i] in q[1..];
      }
    }
  }

  lemma SortedCarried(k: Kernel, r: Res, c: Change)
    requires Describes(k, r, c) && Sorted(k.pcb, k.ready)
    ensures Sorted(r.k.pcb, k.ready)
  {
    var q := k.ready;
    forall i, j | 0 <= i < j < |q|
      ensures Prio(r.k.pcb, q[i]) >= Prio(r.k.pcb, q[j])
    {
      assert q[i] in q && q[j] in q;
    }
  }

  lemma SortedChange(k: Kernel, r: Res, c: Change)
    requires Describes(k, r, c) && !c.Append? && Sorted(k.pcb, k.ready)
    ensures Sorted(r.k.pcb, r.k.ready)
    ensures r.out.Dispatch? ==> forall x :: x in r.k.ready ==> Prio(r.k.pcb, x) <= Prio(r.k.pcb, r.out.p)
  {
    var q, pcb := k.ready, r.k.pcb;
    SortedCarried(k, r, c);
    match c
    case Insert(p) => InsertSorted(q, p, pcb);
    case Delete(dead) => DeleteSorted(q, dead, pcb);
    case Drain(d) => DrainSorted(q, d, pcb);
    case _ =>
  }

  /** Nobody left ready has a higher priority than the process that is dispatched, if one is. */
  ghost predicate TakesHighest(r: Res) {
    r.out.Dispatch? ==> forall x :: x in r.k.ready ==> Prio(r.k.pcb, x) <= Prio(r.k.pcb, r.out.p)
  }

  /** What a YIELD must find for the queue to stay sorted: at most one process ready, or none that is lower. */
  predicate KeepsOrder(k: Kernel) {
    |k.ready| <= 1 || (k.current.Some? && Prio(k.pcb, k.current.value) <= Prio(k.pcb, k.ready[|k.ready| - 1]))
  }

  /** What a YIELD must find to dispatch the highest priority: nobody ready, or a head that is no lower. */
  predicate HeadNoLower(k: Kernel) {
    k.ready == [] || (k.current.Some? && Prio(k.pcb, k.current.value) <= Prio(k.pcb, k.ready[0]))
  }

  lemma YieldPrio(k: Kernel, e: Event)
    requires Inv(k) && Enabled(k, e) && IsYield(e)
    ensures forall x: Slot :: Prio(Handle(k, e).k.pcb, x) == Prio(k.pcb, x)
  {
    assert OnePlace(k, k.current.value);
  }

  /** What YIELD leaves: the caller behind the others, and the head gone. */
  lemma YieldLeaves(k: Kernel, e: Event)
    requires Inv(k) && Enabled(k, e) && IsYield(e)
    ensures k.current.Some? && NoDup(k.ready)
    ensures var r, m := Handle(k, e), k.ready + [k.current.value];
      && Dispatches(r, m[0]) && r.k.ready == m[1..]
      && forall x :: x in m ==> Prio(r.k.pcb, x) == Prio(k.pcb, x)
  {
    hide InsertProc;
    var c := k.current.value;
    assert OnePlace(k, c);
    YieldReady(k, e.ctx, e.t1, e.t2);
    YieldPrio(k, e);
  }

  /** After a YIELD the queue is sorted exactly if at most one process was ready, or the caller's priority was no higher
      than that of the last one. */
  lemma YieldSortedIff(k: Kernel, e: Event)
    requires Inv(k) && Enabled(k, e) && IsYield(e) && Sorted(k.pcb, k.ready)
    ensures Sorted(Handle(k, e).k.pcb, Handle(k, e).k.ready) <==> KeepsOrder(k)
  {
    hide Handle, Inv;
    YieldLeaves(k, e);
    var l, q, c := Handle(k, e).k, k.ready, k.current.value;
    var m := q + [c];
    forall i | 0 <= i < |m|
      ensures Prio(l.pcb, m[i]) == Prio(k.pcb, m[i])
    {
      assert m[i] in m;
    }
    if |q| > 1 {
      assert m[1..][|q| - 2] == q[|q| - 1] && m[1..][|q| - 1] == c;
    }
  }

  /** A YIELD dispatches the highest priority exactly if nobody was ready, or the caller's priority was no higher than
      that of the first one. */
  lemma YieldHighestIff(k: Kernel, e: Event)
    requires Inv(k) && Enabled(k, e) && IsYield(e) && Sorted(k.pcb, k.ready)
    ensures TakesHighest(Handle(k, e)) <==> HeadNoLower(k)
  {
    hide Handle, Inv;
    YieldLeaves(k, e);
    var r, q, c := Handle(k, e), k.ready, k.current.value;
    var m := q + [c];
    forall x | x in r.k.ready
      ensures x in m
    {
      var i :| 0 <= i < |r.k.ready| && r.k.ready[i] == x;
      assert m[i + 1] == x;
    }
    if q != [] {
      assert m[0] == q[0] && r.k.ready[|q| - 1] == c;
      forall x | x in r.k.ready && x != c
        ensures Prio(k.pcb, x) <= Prio(k.pcb, q[0])
      {
        var i :| 0 <= i < |r.k.ready| && r.k.ready[i] == x;
        assert q[i + 1] == x;
      }
    }
  }

  /** For every event: a sorted queue stays sorted, and the highest priority is dispatched, except by a YIELD that does
      not find what it must. */
  lemma SortedStepIff(k: Kernel, e: Event)
    requires Inv(k) && Enabled(k, e) && Sorted(k.pcb, k.ready)
    ensures Sorted(Handle(k, e).k.pcb, Handle(k, e).k.ready) <==> (IsYield(e) ==> KeepsOrder(k))
    ensures TakesHighest(Handle(k, e)) <==> (IsYield(e) ==> HeadNoLower(k))
  {
    hide Handle, ChangeOf, Describes, Sorted, Inv;
    if IsYield(e) {
      YieldSortedIff(k, e);
      YieldHighestIff(k, e);
    } else {
      StepReady(k, e);
      OnlyYieldAppends(k, e);
      SortedChange(k, Handle(k, e), ChangeOf(k, e));
    }
  }

  // ---- whole runs ---------------------------------------------------------

  /** e, if it can happen and is a YIELD, finds what it must for the queue to stay sorted. */
  predicate Orderly(k: Kernel, e: Event) { Enabled(k, e) && IsYield(e) ==> KeepsOrder(k) }

  lemma SortedOrSkip(k: Kernel, e: Event)
    requires Inv(k) && Sorted(k.pcb, k.ready)
    ensures Sorted(Step(k, e).pcb, Step(k, e).ready) <==> Orderly(k, e)
  {
    hide Handle, Sorted, Inv;
    if Enabled(k, e) {
      SortedStepIff(k, e);
    }
  }

  /** Every YIELD of the run is orderly. */
  ghost predicate OrderlyRun(k: Kernel, es: seq<Event>)
    requires Inv(k)
  {
    es != [] ==> OrderlyRun(k, es[..|es| - 1]) && Orderly(Exec(k, es[..|es| - 1]), es[|es| - 1])
  }

  /** The ready queue is sorted by priority in every state of the run. */
  ghost predicate SortedAll(k: Kernel, es: seq<Event>)
    requires Inv(k)
  {
    Sorted(Exec(k, es).pcb, Exec(k, es).ready) && (es != [] ==> SortedAll(k, es[..|es| - 1]))
  }

  /** From boot, the ready queue is sorted in all states of a run exactly if every YIELD of the run is orderly. */
  lemma {:induction false} SortedRunsIff(k: Kernel, es: seq<Event>)
    requires Inv(k) && Sorted(k.pcb, k.ready)
    ensures SortedAll(k, es) <==> OrderlyRun(k, es)
  {
    hide Handle, Step, Sorted, Inv, Orderly;
    if es != [] {
      SortedRunsIff(k, es[..|es| - 1]);
      if SortedAll(k, es[..|es| - 1]) {
        SortedLast(k, es[..|es| - 1]);
        SortedOrSkip(Exec(k, es[..|es| - 1]), es[|es| - 1]);
      }
    }
  }

  lemma SortedLast(k: Kernel, es: seq<Event>)
    requires Inv(k) && SortedAll(k, es)
    ensures Sorted(Exec(k, es).pcb, Exec(k, es).ready)
  {
    hide Handle, Step, Sorted, Inv;
  }

  /** Runs without YIELD are orderly. */
  lemma {:induction false} NoYieldOrderly(k: Kernel, es: seq<Event>)
    requires Inv(k) && forall e :: e in es ==> !IsYield(e)
    ensures OrderlyRun(k, es)
  {
    hide Handle, Step, Inv, KeepsOrder;
    if es != [] {
      assert es[|es| - 1] in es;
      NoYieldOrderly(k, es[..|es| - 1]);
    }
  }

  // ---- the oldest of the highest priority ---------------------------------

  /** The number of events of the run after which x last became ready. */
  ghost function ReadySince(k: Kernel, es: seq<Event>, x: Slot): (n: nat)
    requires Inv(k)
    ensures n <= |es|
  {
    if es == [] then 0
    else if x in Exec(k, es[..|es| - 1]).ready then ReadySince(k, es[..|es| - 1], x)
    else |es|
  }

  /** Ahead are the higher priorities, and among equals those ready longer. */
  ghost predicate AgeSorted(k: Kernel, es: seq<Event>)
    requires Inv(k)
  {
    var l := Exec(k, es);
    forall x, y {:trigger Before(l.ready, x, y)} :: x in l.ready && y in l.ready && x != y && Before(l.ready, x, y) ==>
      Older(l.pcb, x, ReadySince(k, es, x), y, ReadySince(k, es, y))
  }

  predicate Older(pcb: seq<Pcb>, x: Slot, i: nat, y: Slot, j: nat) {
    Prio(pcb, x) > Prio(pcb, y) || (Prio(pcb, x) == Prio(pcb, y) && i <= j)
  }

  lemma SortedBefore(pcb: seq<Pcb>, q: seq<Slot>, x: Slot, y: Slot)
    requires Sorted(pcb, q) && Before(q, x, y)
    ensures Prio(pcb, x) >= Prio(pcb, y)
  {
  }

  lemma SortedShields(k: Kernel, x: Slot)
    requires Sorted(k.pcb, k.ready) && x in k.ready
    ensures Shielded(k, x)
  {
  }

  /** One event: x and y as they stand after it, with the ages they had before. */
  lemma AgeStep(k: Kernel, e: Event, x: Slot, y: Slot, i: nat, j: nat, n: nat)
    requires Inv(k) && Sorted(k.pcb, k.ready) && Orderly(k, e) && x != y && i <= n && j <= n
    requires x in k.ready && y in k.ready && Before(k.ready, x, y) ==> Older(k.pcb, x, i, y, j)
    requires x in Step(k, e).ready && y in Step(k, e).ready && Before(Step(k, e).ready, x, y)
    ensures Older(Step(k, e).pcb, x, if x in k.ready then i else n + 1, y, if y in k.ready then j else n + 1)
  {
    hide Handle, Sorted, Inv, Before, Shielded, Orderly;
    var l := Step(k, e);
    OrderOrSkip(k, e);
    SortedOrSkip(k, e);
    SortedBefore(l.pcb, l.ready, x, y);
    if x in k.ready {
      PrioKept(k, e, x);
      SortedShields(k, x);
    }
    if y in k.ready {
      PrioKept(k, e, y);
      SortedShields(k, y);
      if x !in k.ready && Enabled(k, e) {
        OnlyHigherOvertakes(k, e, y, x);
        BeforeOnce(l, x, y);
      }
    }
  }

  lemma BeforeOnce(k: Kernel, x: Slot, y: Slot)
    requires Inv(k) && x in k.ready && y in k.ready && x != y
    ensures Before(k.ready, x, y) <==> !Before(k.ready, y, x)
  {
    OneBefore(k.ready, x, y);
  }

  /** From boot, in orderly runs the ready queue is ordered by priority, and by age among equals. */
  lemma {:induction false} AgeRuns(k: Kernel, es: seq<Event>)
    requires Inv(k) && Sorted(k.pcb, k.ready) && OrderlyRun(k, es)
    ensures AgeSorted(k, es)
  {
    hide Handle, Step, Sorted, Inv, Before, Orderly;
    var l := Exec(k, es);
    if es != [] {
      var n := |es| - 1;
      var m := Exec(k, es[..n]);
      AgeRuns(k, es[..n]);
      SortedRunsIff(k, es[..n]);
      SortedLast(k, es[..n]);
      forall x, y | x in l.ready && y in l.ready && x != y && Before(l.ready, x, y)
        ensures Older(l.pcb, x, ReadySince(k, es, x), y, ReadySince(k, es, y))
      {
        AgeStep(m, es[n], x, y, ReadySince(k, es[..n], x), ReadySince(k, es[..n], y), n);
      }
    } else {
      forall x, y | x in l.ready && y in l.ready && x != y && Before(l.ready, x, y)
        ensures Prio(l.pcb, x) >= Prio(l.pcb, y)
      {
        SortedBefore(l.pcb, l.ready, x, y);
      }
    }
  }

  lemma BeforeOther(k: Kernel, x: Slot, y: Slot)
    requires Inv(k) && Before(k.ready, y, x)
    ensures x != y && x in k.ready && y in k.ready
  {
  }

  /** x, left ready by the dispatch of y, has lower priority, or equal priority and did not become ready earlier. */
  ghost predicate Yields(k: Kernel, es: seq<Event>, l: Kernel, x: Slot, y: Slot)
    requires Inv(k)
  {
    var m := Exec(k, es);
    && Prio(l.pcb, x) <= Prio(l.pcb, y)
    && (Prio(l.pcb, x) == Prio(l.pcb, y) && x in m.ready ==>
          y in m.ready && ReadySince(k, es, y) <= ReadySince(k, es, x))
  }

  lemma OlderFirst(k: Kernel, es: seq<Event>, e: Event, x: Slot, y: Slot)
    requires Inv(k) && Sorted(k.pcb, k.ready) && OrderlyRun(k, es)
    requires Enabled(Exec(k, es), e) && Dispatches(Handle(Exec(k, es), e), y) && x in Handle(Exec(k, es), e).k.ready
    requires TakesHighest(Handle(Exec(k, es), e))
    ensures Yields(k, es, Handle(Exec(k, es), e).k, x, y)
  {
    hide Handle, Sorted, Inv, Before, Shielded, Orderly;
    var m := Exec(k, es);
    SortedRunsIff(k, es);
    SortedLast(k, es);
    AgeRuns(k, es);
    if x in m.ready {
      SortedShields(m, x);
      OnlyHigherDispatched(m, e, x, y);
      PrioKept(m, e, x);
      if y in m.ready {
        PrioKept(m, e, y);
        BeforeOther(m, x, y);
      }
    }
  }

  /** From boot, in orderly runs each dispatch takes the oldest of the highest priority, except exactly those by a YIELD
      that finds a head of lower priority than its caller's. */
  lemma OldestOfHighestIff(k: Kernel, es: seq<Event>, e: Event, y: Slot)
    requires Inv(k) && Sorted(k.pcb, k.ready) && OrderlyRun(k, es)
    requires Enabled(Exec(k, es), e) && Dispatches(Handle(Exec(k, es), e), y)
    ensures var m, l := Exec(k, es), Handle(Exec(k, es), e).k;
      (forall x :: x in l.ready ==> Yields(k, es, l, x, y)) <==> (IsYield(e) ==> HeadNoLower(m))
  {
    hide Handle, Step, Sorted, Inv, Orderly, OrderlyRun, Exec, HeadNoLower;
    var m, r := Exec(k, es), Handle(Exec(k, es), e);
    SortedRunsIff(k, es);
    SortedLast(k, es);
    SortedStepIff(m, e);
    if TakesHighest(r) {
      forall x | x in r.k.ready
        ensures Yields(k, es, r.k, x, y)
      {
        OlderFirst(k, es, e, x, y);
      }
    } else {
      var x :| x in r.k.ready && Prio(r.k.pcb, x) > Prio(r.k.pcb, y);
      assert !Yields(k, es, r.k, x, y);
    }
  }

  // ---- a YIELD that breaks it ---------------------------------------------

  const SPAWN_HIGHER := Syscall(CreateProcessCall(BLANK, 1, NULL), BLANK, 0, 0)
  const GIVE_WAY := Syscall(YieldCall, BLANK, 0, 0)

  /** The root, slot 1, and its child, slot 0, which alone has priority 1. */
  ghost predicate HigherChild(k: Kernel, running: Slot, other: Slot) {
    && k.current == Some(running) && k.ready == [other] && k.pStart == 0
    && Prio(k.pcb, 0) == 1 && Prio(k.pcb, 1) == 0
  }

  lemma SpawnHigherStep(k: Kernel)
    requires Inv(k) && Parent(k) && k.current == Some(1) && k.free == [0] && k.ready == [] && Prio(k.pcb, 1) == 0
    ensures HigherChild(Step(k, SPAWN_HIGHER), 1, 0)
  {
  }

  lemma GiveWayStart(k: Kernel)
    requires Inv(k) && Enabled(k, GIVE_WAY) && k.ready != []
    ensures var l := Handle(k, GIVE_WAY).k; l.pStart == 0 && l.current == Some(k.ready[0])
    ensures forall x: Slot :: Prio(Handle(k, GIVE_WAY).k.pcb, x) == Prio(k.pcb, x)
  {
    hide Inv, Handle;
    YieldLeaves(k, GIVE_WAY);
    YieldPrio(k, GIVE_WAY);
    StepCpu(k, GIVE_WAY);
  }

  lemma GiveWayStep(k: Kernel, running: Slot, other: Slot)
    requires Inv(k) && HigherChild(k, running, other)
    ensures Enabled(k, GIVE_WAY) && Dispatches(Handle(k, GIVE_WAY), other)
    ensures HigherChild(Step(k, GIVE_WAY), other, running)
  {
    hide Inv, Handle;
    YieldLeaves(k, GIVE_WAY);
    GiveWayStart(k);
  }

  lemma RootPrio(dev: Addr, init: Context)
    requires dev > 0
    ensures Prio(Booted(2, dev, map[], init, 0).pcb, 1) == 0
  {
    assert Down(2) == [1, 0];
  }

  /** From boot: a process of priority 0 creates one of priority 1, and both yield in turn; the second YIELD dispatches
      the lower priority and leaves the higher ready. */
  lemma YieldTakesLower(dev: Addr, init: Context)
    requires dev > 0
    ensures var m := Exec(Booted(2, dev, map[], init, 0), [SPAWN_HIGHER, GIVE_WAY]);
      && Enabled(m, GIVE_WAY) && Dispatches(Handle(m, GIVE_WAY), 1)
      && HigherChild(Handle(m, GIVE_WAY).k, 1, 0) && !TakesHighest(Handle(m, GIVE_WAY))
  {
    hide Handle, Inv, Booted, Parent;
    var k := Booted(2, dev, map[], init, 0);
    BootedTwo(dev, init);
    RootPrio(dev, init);
    SpawnHigherStep(k);
    GiveWayStep(Step(k, SPAWN_HIGHER), 1, 0);
    assert [SPAWN_HIGHER] == [] + [SPAWN_HIGHER] && [SPAWN_HIGHER, GIVE_WAY] == [SPAWN_HIGHER] + [GIVE_WAY];
    ExecLast(k, [], SPAWN_HIGHER);
    ExecLast(k, [SPAWN_HIGHER], GIVE_WAY);
    GiveWayStep(Step(Step(k, SPAWN_HIGHER), GIVE_WAY), 0, 1);
  }
}
