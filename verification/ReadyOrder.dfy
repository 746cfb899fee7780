/** Who may stand ahead of whom in the ready queue, and who may overtake. */
module ReadyOrder {
  import opened Sequences
  import opened KernelState
  import opened KernelSteps
  import opened KernelInvariant
  import opened KernelRuns
  import opened ReadyQueue

  function Rank(q: seq<Slot>, p: Slot): (i: nat)
    requires p in q
    ensures i < |q| && q[i] == p && p !in q[..i]
  {
    if q[0] == p then 0
    else
      assert q == [q[0]] + q[1..];
      var i := Rank(q[1..], p);
      assert q[..i + 1] == [q[0]] + q[1..][..i];
      i + 1
  }

  lemma RankIs(q: seq<Slot>, i: nat)
    requires NoDup(q) && i < |q|
    ensures Rank(q, q[i]) == i
  {
  }

  /** Nobody of lower priority stands before the i-th of q. */
  ghost predicate Shield(pcb: seq<Pcb>, q: seq<Slot>, i: nat)
    requires i < |q|
  {
    forall j :: 0 <= j < i ==> Prio(pcb, q[j]) >= Prio(pcb, q[i])
  }

  /** p is ready and has only priorities at least its own ahead. */
  ghost predicate Shielded(k: Kernel, p: Slot) { p in k.ready && Shield(k.pcb, k.ready, Rank(k.ready, p)) }

  predicate IsYield(e: Event) { e.Syscall? && e.call == YieldCall }

  // ---- one change ---------------------------------------------------------

  /** An insertion keeps a shield, and pushes back only who has lower priority. */
  lemma InsertWait(q: seq<Slot>, x: Slot, pcb: seq<Pcb>, i: nat) returns (j: nat)
    requires i < |q| && Shield(pcb, q, i)
    ensures var m := InsertProc(q, x, pcb);
      && j < |m| && m[j] == q[i] && Shield(pcb, m, j)
      && j == if Prio(pcb, x) <= Prio(pcb, q[i]) then i else i + 1
  {
    var at := InsertPos(q, Prio(pcb, x), pcb);
    j := if at <= i then i + 1 else i;
  }

  lemma {:induction false} DrainWait(ready: seq<Slot>, q: seq<Slot>, pcb: seq<Pcb>, i: nat) returns (j: nat)
    requires i < |ready| && Shield(pcb, ready, i)
    ensures var m := EnqueueAll(ready, q, pcb); j < |m| && m[j] == ready[i] && Shield(pcb, m, j)
    ensures (forall x :: x in q ==> Prio(pcb, x) <= Prio(pcb, ready[i])) ==> j == i
    decreases |q|
  {
    if q == [] {
      j := i;
    } else {
      assert q[0] in q && forall x :: x in q[1..] ==> x in q;
      j := InsertWait(ready, q[0], pcb, i);
      j := DrainWait(InsertProc(ready, q[0], pcb), q[1..], pcb, j);
    }
  }

  lemma DeleteWait(q: seq<Slot>, dead: set<Slot>, pcb: seq<Pcb>, i: nat) returns (j: nat)
    requires i < |q| && Shield(pcb, q, i) && q[i] !in dead
    ensures var m := Without(q, dead); j < |m| && m[j] == q[i] && j <= i && Shield(pcb, m, j)
  {
    assert q == q[..i] + ([q[i]] + q[i + 1..]);
    WithoutAppend(q[..i], [q[i]] + q[i + 1..], dead);
    WithoutAppend([q[i]], q[i + 1..], dead);
    var a := Without(q[..i], dead);
    j := |a|;
    forall n | 0 <= n < j
      ensures Prio(pcb, a[n]) >= Prio(pcb, q[i])
    {
      assert a[n] in q[..i];
    }
  }

  /** Every change keeps every shield; arrivals of no higher priority, and Yields, push nobody back. */
  lemma ApplyWait(c: Change, q: seq<Slot>, pcb: seq<Pcb>, i: nat) returns (j: nat)
    requires i < |q| && Shield(pcb, q, i) && q[i] in Apply(c, q, pcb)
    ensures var m := Apply(c, q, pcb); j < |m| && m[j] == q[i] && Shield(pcb, m, j)
    ensures c.Append? || (forall x :: x in Arrivals(c) ==> Prio(pcb, x) <= Prio(pcb, q[i])) ==> j <= i
  {
    match c
    case Same => j := i;
    case Insert(p) =>
      assert p in Arrivals(c);
      j := InsertWait(q, p, pcb, i);
    case Append(p) => j := i;
    case Delete(dead) => j := DeleteWait(q, dead, pcb, i);
    case Drain(d) => j := DrainWait(q, d, pcb, i);
  }

  lemma InsertPlace(q: seq<Slot>, p: Slot, pcb: seq<Pcb>) returns (j: nat)
    ensures var m := InsertProc(q, p, pcb); j < |m| && m[j] == p && Shield(pcb, m, j)
  {
    j := InsertPos(q, Prio(pcb, p), pcb);
  }

  lemma {:induction false} DrainPlace(ready: seq<Slot>, q: seq<Slot>, pcb: seq<Pcb>, p: Slot) returns (j: nat)
    requires p in q
    ensures var m := EnqueueAll(ready, q, pcb); j < |m| && m[j] == p && Shield(pcb, m, j)
    decreases |q|
  {
    var r := InsertProc(ready, q[0], pcb);
    if q[0] == p {
      j := InsertPlace(ready, p, pcb);
      j := DrainWait(r, q[1..], pcb, j);
    } else {
      assert q == [q[0]] + q[1..];
      j := DrainPlace(r, q[1..], pcb, p);
    }
  }

  /** insertProcQ, alone or in the clock's loop, puts a process behind nobody of lower priority. */
  lemma ArrivalPlace(c: Change, q: seq<Slot>, pcb: seq<Pcb>, p: Slot) returns (j: nat)
    requires p in Arrivals(c) && !c.Append?
    ensures var m := Apply(c, q, pcb); j < |m| && m[j] == p && Shield(pcb, m, j)
  {
    match c
    case Insert(_) => j := InsertPlace(q, p, pcb);
    case Drain(d) => j := DrainPlace(q, d, pcb, p);
  }

  lemma ShieldScheduled(m: seq<Slot>, r: Res, j: nat)
    requires NoDup(m) && Scheduled(m, r) && j < |m| && Shield(r.k.pcb, m, j) && m[j] in r.k.ready
    ensures Shielded(r.k, m[j]) && Rank(r.k.ready, m[j]) == if r.out.Dispatch? then j - 1 else j
  {
    if r.out.Dispatch? {
      assert forall x :: x in m[1..] ==> x != m[0];
      RankIs(m[1..], j - 1);
    } else {
      RankIs(m, j);
    }
  }

  /** The priorities of those who were ready are what they were. */
  lemma ShieldCarried(k: Kernel, r: Res, c: Change, p: Slot)
    requires Describes(k, r, c) && Shielded(k, p)
    ensures Shield(r.k.pcb, k.ready, Rank(k.ready, p)) && Prio(r.k.pcb, p) == Prio(k.pcb, p)
  {
    var i := Rank(k.ready, p);
    forall j | 0 <= j <= i
      ensures Prio(r.k.pcb, k.ready[j]) == Prio(k.pcb, k.ready[j])
    {
      assert k.ready[j] in k.ready;
    }
  }

  lemma ArrivalsIn(c: Change, q: seq<Slot>, pcb: seq<Pcb>)
    requires NoDup(q) && NewTo(c, q)
    ensures forall x :: x in Apply(c, q, pcb) && x !in q <==> x in Arrivals(c)
  {
    if c.Drain? {
      EnqueueAllOk(q, c.q, pcb);
    }
  }

  lemma MembersPresent(m: seq<Slot>, r: Res)
    requires Scheduled(m, r)
    ensures forall x :: x in m <==> x in r.k.ready || Dispatches(r, x)
  {
    if r.out.Dispatch? {
      assert m == [m[0]] + m[1..];
    }
  }

  lemma KeepsShield(k: Kernel, r: Res, c: Change, p: Slot)
    requires NoDup(k.ready) && Describes(k, r, c) && Shielded(k, p) && p in r.k.ready
    ensures Shielded(r.k, p) && Prio(r.k.pcb, p) == Prio(k.pcb, p)
  {
    var pcb := r.k.pcb;
    ApplyOrder(c, k.ready, pcb);
    ShieldCarried(k, r, c, p);
    MembersPresent(Apply(c, k.ready, pcb), r);
    var j := ApplyWait(c, k.ready, pcb, Rank(k.ready, p));
    ShieldScheduled(Apply(c, k.ready, pcb), r, j);
  }

  lemma GetsShield(k: Kernel, r: Res, c: Change, p: Slot)
    requires NoDup(k.ready) && Describes(k, r, c) && !c.Append? && p !in k.ready && p in r.k.ready
    ensures Shielded(r.k, p)
  {
    var pcb := r.k.pcb;
    ApplyOrder(c, k.ready, pcb);
    ArrivalsIn(c, k.ready, pcb);
    MembersPresent(Apply(c, k.ready, pcb), r);
    var j := ArrivalPlace(c, k.ready, pcb, p);
    ShieldScheduled(Apply(c, k.ready, pcb), r, j);
  }

  // ---- one event ----------------------------------------------------------

  lemma OnlyYieldAppends(k: Kernel, e: Event)
    requires Inv(k) && Enabled(k, e)
    ensures NoDup(k.ready) && (ChangeOf(k, e).Append? <==> IsYield(e))
  {
  }

  /** Whoever becomes ready other than by Yield has only priorities at least its own ahead. */
  lemma NewcomersShielded(k: Kernel, e: Event, p: Slot)
    requires Inv(k) && Enabled(k, e) && !IsYield(e) && p !in k.ready && p in Handle(k, e).k.ready
    ensures Shielded(Handle(k, e).k, p)
  {
    hide Handle, ChangeOf, Describes, Shielded, Inv;
    StepReady(k, e);
    OnlyYieldAppends(k, e);
    GetsShield(k, Handle(k, e), ChangeOf(k, e), p);
  }

  /** And that stays so for as long as it is ready, whatever happens. */
  lemma StaysShielded(k: Kernel, e: Event, p: Slot)
    requires Inv(k) && Enabled(k, e) && Shielded(k, p) && p in Handle(k, e).k.ready
    ensures Shielded(Handle(k, e).k, p) && Prio(Handle(k, e).k.pcb, p) == Prio(k.pcb, p)
  {
    hide Handle, ChangeOf, Describes, Shielded, Inv;
    StepReady(k, e);
    OnlyYieldAppends(k, e);
    KeepsShield(k, Handle(k, e), ChangeOf(k, e), p);
  }

  // ---- overtaking ---------------------------------------------------------

  lemma PlacesBefore(m: seq<Slot>, i: nat, j: nat)
    requires NoDup(m) && i < |m| && j < |m| && i != j
    ensures Before(m, m[i], m[j]) <==> i < j
  {
  }

  lemma InsertOvertakes(q: seq<Slot>, y: Slot, pcb: seq<Pcb>, i: nat)
    requires NoDup(q) && y !in q && i < |q| && Shield(pcb, q, i)
    ensures Before(InsertProc(q, y, pcb), q[i], y) <==> Prio(pcb, y) <= Prio(pcb, q[i])
  {
    var m, at := InsertProc(q, y, pcb), InsertPos(q, Prio(pcb, y), pcb);
    InsertProcNoDup(q, y, pcb);
    var j := InsertWait(q, y, pcb, i);
    assert m[at] == y;
    PlacesBefore(m, j, at);
  }

  lemma {:induction false} DrainOvertakes(ready: seq<Slot>, q: seq<Slot>, pcb: seq<Pcb>, i: nat, y: Slot)
    requires NoDup(ready) && NoDup(q) && (forall p :: p in q ==> p !in ready) && y in q
    requires i < |ready| && Shield(pcb, ready, i)
    ensures Before(EnqueueAll(ready, q, pcb), ready[i], y) <==> Prio(pcb, y) <= Prio(pcb, ready[i])
    decreases |q|
  {
    var r, t := InsertProc(ready, q[0], pcb), q[1..];
    assert q == [q[0]] + t;
    InsertProcNoDup(ready, q[0], pcb);
    if y == q[0] {
      InsertOvertakes(ready, y, pcb, i);
      DrainOrder(r, t, pcb);
      EnqueueAllOk(r, t, pcb);
      assert ready[i] in r;
    } else {
      var j := InsertWait(ready, q[0], pcb, i);
      DrainOvertakes(r, t, pcb, j, y);
    }
  }

  /** Before the scheduler acts: a newcomer is behind exactly those of at least its priority, or the last. */
  lemma ApplyOvertakes(c: Change, q: seq<Slot>, pcb: seq<Pcb>, i: nat, y: Slot)
    requires NoDup(q) && NewTo(c, q) && y in Arrivals(c) && i < |q| && Shield(pcb, q, i)
    ensures Before(Apply(c, q, pcb), q[i], y) <==> c.Append? || Prio(pcb, y) <= Prio(pcb, q[i])
  {
    match c
    case Insert(_) => InsertOvertakes(q, y, pcb, i);
    case Drain(d) => DrainOvertakes(q, d, pcb, i, y);
    case Append(_) =>
      assert (q + [y])[i] == q[i] && (q + [y])[|q|] == y;
  }

  lemma ChangeOvertakes(k: Kernel, r: Res, c: Change, x: Slot, y: Slot)
    requires NoDup(k.ready) && Describes(k, r, c) && Shielded(k, x) && x in r.k.ready
    requires y !in k.ready && y in r.k.ready
    ensures Before(r.k.ready, x, y) <==> c.Append? || Prio(r.k.pcb, y) <= Prio(r.k.pcb, x)
  {
    var m := Apply(c, k.ready, r.k.pcb);
    ApplyOrder(c, k.ready, r.k.pcb);
    ArrivalsIn(c, k.ready, r.k.pcb);
    MembersPresent(m, r);
    ShieldCarried(k, r, c, x);
    ApplyOvertakes(c, k.ready, r.k.pcb, Rank(k.ready, x), y);
    if r.out.Dispatch? {
      TailOrder(m);
    }
  }

  lemma ChangeDispatches(k: Kernel, r: Res, c: Change, x: Slot, y: Slot)
    requires NoDup(k.ready) && Describes(k, r, c) && Shielded(k, x) && x in r.k.ready && Dispatches(r, y)
    ensures if y in k.ready then Before(k.ready, y, x) else Prio(r.k.pcb, y) > Prio(r.k.pcb, x)
  {
    var m := Apply(c, k.ready, r.k.pcb);
    ApplyOrder(c, k.ready, r.k.pcb);
    ArrivalsIn(c, k.ready, r.k.pcb);
    MembersPresent(m, r);
    var j := Rank(r.k.ready, x);
    assert m[0] == y && m[j + 1] == x;
    PlacesBefore(m, 0, j + 1);
    PlacesBefore(m, j + 1, 0);
    if y !in k.ready {
      ShieldCarried(k, r, c, x);
      ApplyOvertakes(c, k.ready, r.k.pcb, Rank(k.ready, x), y);
    }
  }

  /** Of x, which was ready, and y, which becomes ready: y stands ahead of x exactly if its priority is strictly
      higher and it did not come by Yield. */
  lemma OnlyHigherOvertakes(k: Kernel, e: Event, x: Slot, y: Slot)
    requires Inv(k) && Enabled(k, e) && Shielded(k, x) && x in Handle(k, e).k.ready
    requires y !in k.ready && y in Handle(k, e).k.ready
    ensures var l := Handle(k, e).k;
      && (Before(l.ready, x, y) <==> IsYield(e) || Prio(l.pcb, y) <= Prio(l.pcb, x))
      && (Before(l.ready, y, x) <==> !IsYield(e) && Prio(l.pcb, y) > Prio(l.pcb, x))
  {
    hide Handle, ChangeOf, Describes, Shielded, Inv;
    StepReady(k, e);
    StepKeeps(k, e);
    OnlyYieldAppends(k, e);
    ChangeOvertakes(k, Handle(k, e), ChangeOf(k, e), x, y);
    ReadyOnce(Handle(k, e).k);
    OneBefore(Handle(k, e).k.ready, x, y);
  }

  lemma ReadyOnce(k: Kernel)
    requires Inv(k)
    ensures NoDup(k.ready)
  {
  }

  lemma OneBefore(q: seq<Slot>, x: Slot, y: Slot)
    requires NoDup(q) && x in q && y in q && x != y
    ensures Before(q, x, y) <==> !Before(q, y, x)
  {
    var i :| 0 <= i < |q| && q[i] == x;
    var j :| 0 <= j < |q| && q[j] == y;
    PlacesBefore(q, i, j);
    PlacesBefore(q, j, i);
  }

  /** An event that leaves x ready dispatches only who stood ahead of it, or a newcomer of strictly higher priority. */
  lemma OnlyHigherDispatched(k: Kernel, e: Event, x: Slot, y: Slot)
    requires Inv(k) && Enabled(k, e) && Shielded(k, x) && x in Handle(k, e).k.ready && Dispatches(Handle(k, e), y)
    ensures var l := Handle(k, e).k;
      if y in k.ready then Before(k.ready, y, x) else Prio(l.pcb, y) > Prio(l.pcb, x)
  {
    hide Handle, ChangeOf, Describes, Shielded, Inv, Before;
    StepReady(k, e);
    OnlyYieldAppends(k, e);
    ChangeDispatches(k, Handle(k, e), ChangeOf(k, e), x, y);
  }
}
