/** Order and waiting time in the ready queue over whole runs. */
module ReadyRuns {
  import opened Sequences
  import opened KernelState
  import opened KernelSteps
  import opened KernelRuns
  import opened SemaphoreRuns
  import opened ReadyQueue
  import opened ReadyOrder

  /** p is ready in every state of the run. */
  ghost predicate ReadyAll(k: Kernel, es: seq<Event>, p: Slot)
    requires Inv(k)
  {
    p in Exec(k, es).ready && (es != [] ==> ReadyAll(k, es[..|es| - 1], p))
  }

  /** The n-th event of the run is the first that takes p out of the ready queue: it dispatches or kills it. */
  ghost predicate ServedAt(k: Kernel, es: seq<Event>, p: Slot, n: nat)
    requires Inv(k) && n < |es|
  {
    ReadyAll(k, es[..n], p) && Served(Exec(k, es[..n]), es[n], p)
  }

  lemma LeavesOrSkips(k: Kernel, e: Event, p: Slot)
    requires Inv(k) && p in k.ready && p !in Step(k, e).ready
    ensures Served(k, e, p)
  {
    hide Handle, Inv, Served;
    LeavesReady(k, e, p);
  }

  /** A ready process that is not ready all through a run was dispatched or killed in it. */
  lemma {:induction false} FirstServed(k: Kernel, es: seq<Event>, p: Slot) returns (n: nat)
    requires Inv(k) && p in k.ready && !ReadyAll(k, es, p)
    ensures n < |es| && ServedAt(k, es, p, n)
  {
    hide Handle, Step, Inv, Served;
    var m := |es| - 1;
    if ReadyAll(k, es[..m], p) {
      n := m;
      LeavesOrSkips(Exec(k, es[..m]), es[m], p);
    } else {
      n := FirstServed(k, es[..m], p);
      assert es[..m][..n] == es[..n];
    }
  }

  // ---- no overtaking ------------------------------------------------------

  lemma ShieldOrSkip(k: Kernel, e: Event, p: Slot)
    requires Inv(k) && Shielded(k, p) && p in Step(k, e).ready
    ensures Shielded(Step(k, e), p) && Prio(Step(k, e).pcb, p) == Prio(k.pcb, p)
  {
    hide Handle, Shielded, Inv;
    if Enabled(k, e) {
      StaysShielded(k, e, p);
    }
  }

  /** A process placed by insertProcQ always has only priorities at least its own ahead, until it leaves. */
  lemma {:induction false} ShieldedForLong(k: Kernel, es: seq<Event>, p: Slot)
    requires Inv(k) && Shielded(k, p) && ReadyAll(k, es, p)
    ensures Shielded(Exec(k, es), p) && Prio(Exec(k, es).pcb, p) == Prio(k.pcb, p)
  {
    hide Handle, Step, Inv, Shielded;
    if es != [] {
      ShieldedForLong(k, es[..|es| - 1], p);
      ShieldOrSkip(Exec(k, es[..|es| - 1]), es[|es| - 1], p);
    }
  }

  lemma PrioKept(k: Kernel, e: Event, p: Slot)
    requires Inv(k) && p in k.ready
    ensures Prio(Step(k, e).pcb, p) == Prio(k.pcb, p)
  {
    hide Handle, ChangeOf;
    if Enabled(k, e) {
      StepReady(k, e);
    }
  }

  lemma OvertakeStep(k: Kernel, e: Event, x: Slot, y: Slot)
    requires Inv(k) && Shielded(k, x)
    requires x in Step(k, e).ready && y in Step(k, e).ready && Before(Step(k, e).ready, y, x)
    ensures var l := Step(k, e);
      (y in k.ready && Before(k.ready, y, x)) || Prio(l.pcb, y) > Prio(l.pcb, x)
  {
    hide Handle, Before, Shielded, Inv;
    ShieldedReady(k, x);
    if Enabled(k, e) {
      if y in k.ready {
        NoReordering(k, e);
      } else {
        OnlyHigherOvertakes(k, e, x, y);
      }
    }
  }

  lemma ShieldedReady(k: Kernel, x: Slot)
    requires Shielded(k, x)
    ensures x in k.ready
  {
  }

  /** Whoever stands ahead of such a process stood there from the start or has strictly higher priority. */
  lemma {:induction false} OvertakenOnlyByHigher(k: Kernel, es: seq<Event>, x: Slot, y: Slot)
    requires Inv(k) && Shielded(k, x) && ReadyAll(k, es, x)
    requires y in Exec(k, es).ready && Before(Exec(k, es).ready, y, x)
    ensures Before(k.ready, y, x) || Prio(Exec(k, es).pcb, y) > Prio(Exec(k, es).pcb, x)
  {
    hide Handle, Step, Inv, Shielded, Before;
    if es != [] {
      var n := |es| - 1;
      var m, e := Exec(k, es[..n]), es[n];
      ShieldedForLong(k, es[..n], x);
      OvertakeStep(m, e, x, y);
      if y in m.ready && Before(m.ready, y, x) {
        OvertakenOnlyByHigher(k, es[..n], x, y);
        PrioKept(m, e, y);
        PrioKept(m, e, x);
      }
    }
  }

  // ---- bounded wait -------------------------------------------------------

  /** Whoever is newly ready, or newly ready and dispatched at once, has at most p's priority. */
  ghost predicate NoneAbove(k: Kernel, r: Res, p: Slot) {
    forall x :: (x in r.k.ready || Dispatches(r, x)) && x !in k.ready ==> Prio(r.k.pcb, x) <= Prio(k.pcb, p)
  }

  /** Nobody of strictly higher priority than p is inserted by the event. */
  ghost predicate NoHigher(k: Kernel, e: Event, p: Slot)
    requires Inv(k) && Enabled(k, e)
  {
    IsYield(e) || NoneAbove(k, Handle(k, e), p)
  }

  ghost function DispatchBit(k: Kernel, e: Event): nat
    requires Inv(k) && Enabled(k, e)
  {
    if Handle(k, e).out.Dispatch? then 1 else 0
  }

  lemma WaitChange(k: Kernel, r: Res, c: Change, p: Slot)
    requires NoDup(k.ready) && Describes(k, r, c) && Shielded(k, p) && p in r.k.ready
    requires c.Append? || NoneAbove(k, r, p)
    ensures Shielded(r.k, p) && Rank(r.k.ready, p) + (if r.out.Dispatch? then 1 else 0) <= Rank(k.ready, p)
  {
    var pcb := r.k.pcb;
    var m := Apply(c, k.ready, pcb);
    ApplyOrder(c, k.ready, pcb);
    ArrivalsIn(c, k.ready, pcb);
    MembersPresent(m, r);
    ShieldCarried(k, r, c, p);
    var j := ApplyWait(c, k.ready, pcb, Rank(k.ready, p));
    ShieldScheduled(m, r, j);
  }

  /** Then p, if it stays ready, moves up at every dispatch and is never pushed back. */
  lemma WaitStep(k: Kernel, e: Event, p: Slot)
    requires Inv(k) && Enabled(k, e) && Shielded(k, p) && NoHigher(k, e, p) && p in Handle(k, e).k.ready
    ensures p in k.ready && Rank(Handle(k, e).k.ready, p) + DispatchBit(k, e) <= Rank(k.ready, p)
  {
    hide Handle, ChangeOf, Describes, Shielded, Inv;
    ShieldedReady(k, p);
    StepReady(k, e);
    OnlyYieldAppends(k, e);
    WaitChange(k, Handle(k, e), ChangeOf(k, e), p);
  }

  ghost function Dispatching(): (Kernel, Event) -> bool {
    (k, e) => Inv(k) && Enabled(k, e) && Handle(k, e).out.Dispatch?
  }

  /** As long as p stays ready, nobody of strictly higher priority is inserted. */
  ghost predicate Undisturbed(k: Kernel, es: seq<Event>, p: Slot)
    requires Inv(k)
  {
    es != [] ==>
      var m, e := Exec(k, es[..|es| - 1]), es[|es| - 1];
      Undisturbed(k, es[..|es| - 1], p) && (ReadyAll(k, es[..|es| - 1], p) && Enabled(m, e) ==> NoHigher(m, e, p))
  }

  lemma WaitOrSkip(k: Kernel, e: Event, p: Slot)
    requires Inv(k) && Shielded(k, p) && (Enabled(k, e) ==> NoHigher(k, e, p)) && p in Step(k, e).ready
    ensures p in k.ready
    ensures Rank(Step(k, e).ready, p) + (if Enabled(k, e) then DispatchBit(k, e) else 0) <= Rank(k.ready, p)
  {
    hide Handle, Shielded, Inv;
    ShieldedReady(k, p);
    if Enabled(k, e) {
      WaitStep(k, e, p);
    }
  }

  /** While p waits, the dispatches so far and its rank never add up to more than its first rank. */
  lemma {:induction false} RankBound(k: Kernel, es: seq<Event>, p: Slot)
    requires Inv(k) && Shielded(k, p) && Undisturbed(k, es, p) && ReadyAll(k, es, p)
    ensures p in k.ready && CountIf(k, es, Dispatching()) + Rank(Exec(k, es).ready, p) <= Rank(k.ready, p)
  {
    hide Handle, Shielded, Step, Inv;
    ShieldedReady(k, p);
    if es != [] {
      RankBound(k, es[..|es| - 1], p);
      ShieldedForLong(k, es[..|es| - 1], p);
      WaitOrSkip(Exec(k, es[..|es| - 1]), es[|es| - 1], p);
    }
  }

  lemma {:induction false} UndisturbedPrefix(k: Kernel, es: seq<Event>, p: Slot, n: nat)
    requires Inv(k) && Undisturbed(k, es, p) && n <= |es|
    ensures Undisturbed(k, es[..n], p)
    decreases |es|
  {
    hide Handle, Step, Inv, NoHigher, ReadyAll;
    if n < |es| {
      UndisturbedPrefix(k, es[..|es| - 1], p, n);
      assert es[..|es| - 1][..n] == es[..n];
    } else {
      assert es[..n] == es;
    }
  }

  lemma CountNext(k: Kernel, es: seq<Event>, n: nat, f: (Kernel, Event) -> bool)
    requires Inv(k) && n < |es|
    ensures CountIf(k, es[..n + 1], f) <= CountIf(k, es[..n], f) + 1
  {
    assert es[..n + 1][..n] == es[..n];
  }

  /** p is dispatched or killed in the run, with at most b dispatches up to and including that event. */
  ghost predicate ServedWithin(k: Kernel, es: seq<Event>, p: Slot, b: int)
    requires Inv(k)
  {
    exists n: nat :: n < |es| && ServedAt(k, es, p, n) && CountIf(k, es[..n + 1], Dispatching()) <= b
  }

  /** Bounded wait: a process placed by insertProcQ, while nobody of higher priority is inserted, is dispatched or
      killed within rank + 1 dispatches; until then it waits. */
  lemma BoundedWait(k: Kernel, es: seq<Event>, p: Slot)
    requires Inv(k) && Shielded(k, p) && Undisturbed(k, es, p)
    ensures p in k.ready
    ensures ReadyAll(k, es, p) || ServedWithin(k, es, p, Rank(k.ready, p) + 1)
    ensures CountIf(k, es, Dispatching()) > Rank(k.ready, p) ==> ServedWithin(k, es, p, Rank(k.ready, p) + 1)
  {
    hide Handle, Shielded, Step, Inv, Undisturbed, ServedAt;
    ShieldedReady(k, p);
    if ReadyAll(k, es, p) {
      RankBound(k, es, p);
    } else {
      var n := FirstServed(k, es, p);
      UndisturbedPrefix(k, es, p, n);
      ServedWaited(k, es, p, n);
      RankBound(k, es[..n], p);
      CountNext(k, es, n, Dispatching());
    }
  }

  lemma ServedWaited(k: Kernel, es: seq<Event>, p: Slot, n: nat)
    requires Inv(k) && n < |es| && ServedAt(k, es, p, n)
    ensures ReadyAll(k, es[..n], p)
  {
  }

  // ---- whoever is ahead goes first ----------------------------------------

  lemma OrderOrSkip(k: Kernel, e: Event)
    requires Inv(k)
    ensures SameOrder(k.ready, Step(k, e).ready)
  {
    hide Handle;
    if Enabled(k, e) {
      NoReordering(k, e);
    }
  }

  /** x keeps its place ahead of y for as long as both stay ready. */
  lemma {:induction false} StaysAhead(k: Kernel, es: seq<Event>, x: Slot, y: Slot)
    requires Inv(k) && Before(k.ready, x, y) && ReadyAll(k, es, x) && ReadyAll(k, es, y)
    ensures Before(Exec(k, es).ready, x, y)
  {
    hide Handle, Step, Inv, Before;
    if es != [] {
      StaysAhead(k, es[..|es| - 1], x, y);
      OrderOrSkip(Exec(k, es[..|es| - 1]), es[|es| - 1]);
    }
  }

  /** While x is ahead of y no event dispatches y and leaves x ready. */
  lemma AheadGoesFirst(k: Kernel, e: Event, x: Slot, y: Slot)
    requires Inv(k) && Enabled(k, e) && Before(k.ready, x, y) && x in Handle(k, e).k.ready
    ensures !Dispatches(Handle(k, e), y)
  {
    hide Handle, ChangeOf;
    StepReady(k, e);
    AheadOfHead(k, Handle(k, e), ChangeOf(k, e), x, y);
  }

  lemma AheadOfHead(k: Kernel, r: Res, c: Change, x: Slot, y: Slot)
    requires NoDup(k.ready) && Describes(k, r, c) && Before(k.ready, x, y) && x in r.k.ready
    ensures !Dispatches(r, y)
  {
    var m := Apply(c, k.ready, r.k.pcb);
    ApplyOrder(c, k.ready, r.k.pcb);
    if r.out.Dispatch? && y in m {
      assert forall z :: z in m[1..] ==> z in m;
      assert Before(m, x, y);
      var i, j :| 0 <= i < j < |m| && m[i] == x && m[j] == y;
    }
  }

  /** x is dispatched or killed by an event of the run. */
  ghost predicate ServedIn(k: Kernel, es: seq<Event>, x: Slot)
    requires Inv(k)
  {
    exists n: nat :: n < |es| && ServedAt(k, es, x, n)
  }

  /** If x is ahead of y, and y stays ready until an event dispatches it, then x was dispatched or killed before,
      or that event kills it. */
  lemma AheadServedFirst(k: Kernel, es: seq<Event>, f: Event, x: Slot, y: Slot)
    requires Inv(k) && x in k.ready && Before(k.ready, x, y) && x != y && ReadyAll(k, es, y)
    requires Enabled(Exec(k, es), f) && Dispatches(Handle(Exec(k, es), f), y)
    ensures ServedIn(k, es, x) || x in Handle(Exec(k, es), f).k.free
  {
    hide Handle, Step, Inv, Before, ServedAt;
    if ReadyAll(k, es, x) {
      var m := Exec(k, es);
      StaysAhead(k, es, x, y);
      if x in Handle(m, f).k.ready {
        AheadGoesFirst(m, f, x, y);
      } else {
        LeavesReady(m, f, x);
      }
    } else {
      var n := FirstServed(k, es, x);
    }
  }

  // ---- after a Yield ------------------------------------------------------

  /** After a Yield everybody who was ready is dispatched at once or stands ahead of the yielder. */
  lemma YieldWaits(k: Kernel, e: Event, x: Slot)
    requires Inv(k) && Enabled(k, e) && IsYield(e) && x in k.ready
    ensures var r, c := Handle(k, e), k.current.value;
      && x != c
      && if k.ready[0] == x then Dispatches(r, x) else x in r.k.ready && c in r.k.ready && Before(r.k.ready, x, c)
  {
    YieldReady(k, e.ctx, e.t1, e.t2);
    assert OnePlace(k, k.current.value);
    var r, c := Handle(k, e), k.current.value;
    var m := k.ready + [c];
    if k.ready[0] != x {
      assert r.k.ready == m[1..] == k.ready[1..] + [c];
      assert k.ready == [k.ready[0]] + k.ready[1..];
      var i :| 0 <= i < |k.ready[1..]| && k.ready[1..][i] == x;
      assert r.k.ready[i] == x && r.k.ready[|k.ready| - 1] == c;
    }
  }

  /** When the yielder is dispatched again, everybody who was ready at its Yield was dispatched or killed before:
      by the Yield itself, since then, or, killed, by the event that dispatches the yielder. */
  lemma YielderRunsLast(k: Kernel, e: Event, es: seq<Event>, f: Event, x: Slot)
    requires Inv(k) && Enabled(k, e) && IsYield(e) && x in k.ready
    requires ReadyAll(Step(k, e), es, k.current.value)
    requires Enabled(Exec(Step(k, e), es), f) && Dispatches(Handle(Exec(Step(k, e), es), f), k.current.value)
    ensures Served(k, e, x) || ServedIn(Step(k, e), es, x) || x in Handle(Exec(Step(k, e), es), f).k.free
  {
    hide Handle, Inv, Before, ServedIn;
    YieldWaits(k, e, x);
    if k.ready[0] != x {
      AheadServedFirst(Step(k, e), es, f, x, k.current.value);
    }
  }

  /** The same between x and whoever becomes ready later with no higher priority: x is served first. */
  lemma EarlierServedFirst(k: Kernel, e: Event, es: seq<Event>, f: Event, x: Slot, y: Slot)
    requires Inv(k) && Enabled(k, e) && Shielded(k, x) && x in Handle(k, e).k.ready
    requires y !in k.ready && y in Handle(k, e).k.ready
    requires IsYield(e) || Prio(Handle(k, e).k.pcb, y) <= Prio(Handle(k, e).k.pcb, x)
    requires ReadyAll(Step(k, e), es, y)
    requires Enabled(Exec(Step(k, e), es), f) && Dispatches(Handle(Exec(Step(k, e), es), f), y)
    ensures ServedIn(Step(k, e), es, x) || x in Handle(Exec(Step(k, e), es), f).k.free
  {
    hide Handle, Inv, Before, ServedIn, Shielded;
    ShieldedReady(k, x);
    OnlyHigherOvertakes(k, e, x, y);
    AheadServedFirst(Step(k, e), es, f, x, y);
  }
}
