/** CPU time accounting: what is charged, to whom, and how it compares with elapsed time. */
module CpuTime {
  import opened Sequences
  import opened KernelState
  import opened KernelSteps
  import opened KernelRuns
  import opened ReadyQueue
  import opened ProcessIdentity
  import opened ProcessRuns
  import opened CpuStays

  /** A charge of to - from to process p. */
  datatype Interval = Interval(p: Slot, from: int, to: int)

  function Total(log: seq<Interval>): int {
    if log == [] then 0 else Total(log[..|log| - 1]) + (log[|log| - 1].to - log[|log| - 1].from)
  }

  /** The part of a log that was charged to p. */
  function Share(log: seq<Interval>, p: Slot): int {
    if log == [] then 0
    else
      var x := log[|log| - 1];
      Share(log[..|log| - 1], p) + if x.p == p then x.to - x.from else 0
  }

  /** The charge an event makes, if any. */
  function ChargeOf(k: Kernel, e: Event): seq<Interval> {
    if Charges(k, e) then [Interval(k.current.value, k.pStart, e.t1)] else []
  }

  /** The charges of a run, those made by GETTIME apart from the others. */
  ghost function Log(k: Kernel, es: seq<Event>, getTime: bool): seq<Interval>
    requires Inv(k)
  {
    if es == [] then []
    else
      var n := |es| - 1;
      var m := Exec(k, es[..n]);
      Log(k, es[..n], getTime) + if Enabled(m, es[n]) && IsGetTime(es[n]) == getTime then ChargeOf(m, es[n]) else []
  }

  lemma StartStep(k: Kernel, e: Event)
    requires Inv(k)
    ensures k.pStart <= Step(k, e).pStart
    ensures Enabled(k, e) && Charges(k, e) && !IsGetTime(e) ==> k.pStart <= e.t1 <= Step(k, e).pStart
  {
    hide Handle;
    if Enabled(k, e) {
      StepPcb(k, e);
    }
  }

  /** Disjoint intervals in time order between lo and hi. */
  ghost predicate InOrder(log: seq<Interval>, lo: int, hi: int) {
    && lo <= hi
    && (forall i :: 0 <= i < |log| ==> lo <= log[i].from <= log[i].to <= hi)
    && (forall i, j :: 0 <= i < j < |log| ==> log[i].to <= log[j].from)
  }

  lemma {:induction false} TotalInOrder(log: seq<Interval>, lo: int, hi: int)
    requires InOrder(log, lo, hi)
    ensures Total(log) <= hi - lo
  {
    if log != [] {
      TotalInOrder(log[..|log| - 1], lo, log[|log| - 1].from);
    }
  }

  lemma InOrderSnoc(log: seq<Interval>, lo: int, mid: int, hi: int, c: seq<Interval>)
    requires InOrder(log, lo, mid) && mid <= hi && |c| <= 1
    requires c != [] ==> mid <= c[0].from <= c[0].to <= hi
    ensures InOrder(log + c, lo, hi)
  {
  }

  /** Apart from GETTIME the charged intervals are disjoint and lie inside the run. */
  lemma {:induction false} Disjoint(k: Kernel, es: seq<Event>)
    requires Inv(k)
    ensures InOrder(Log(k, es, false), k.pStart, Exec(k, es).pStart)
  {
    hide Handle, Step, Inv, Charges, InOrder;
    if es != [] {
      var n := |es| - 1;
      var m := Exec(k, es[..n]);
      Disjoint(k, es[..n]);
      StartStep(m, es[n]);
      var c := if Enabled(m, es[n]) && !IsGetTime(es[n]) then ChargeOf(m, es[n]) else [];
      InOrderSnoc(Log(k, es[..n], false), k.pStart, m.pStart, Exec(k, es).pStart, c);
    } else {
      EmptyInOrder(k.pStart);
    }
  }

  lemma EmptyInOrder(t: int)
    ensures InOrder([], t, t)
  {
  }

  /** GETTIME apart, a run charges no more than the time that passed; without GETTIME nothing else is charged. */
  lemma ChargedAtMostElapsed(k: Kernel, es: seq<Event>)
    requires Inv(k)
    ensures Total(Log(k, es, false)) <= Exec(k, es).pStart - k.pStart
    ensures (forall e :: e in es ==> !IsGetTime(e)) ==> Log(k, es, true) == []
  {
    Disjoint(k, es);
    TotalInOrder(Log(k, es, false), k.pStart, Exec(k, es).pStart);
    NoGetTime(k, es);
  }

  lemma {:induction false} NoGetTime(k: Kernel, es: seq<Event>)
    requires Inv(k)
    ensures (forall e :: e in es ==> !IsGetTime(e)) ==> Log(k, es, true) == []
  {
    hide Handle, Step, Inv, Charges;
    if es != [] {
      NoGetTime(k, es[..|es| - 1]);
      assert es[|es| - 1] in es;
    }
  }

  // ---- whose time is charged ----------------------------------------------

  /** The m-th event of the run charges x, and from the n-th state to that event x.p held the CPU; x begins no earlier
      than that, and ends when that event is handled. */
  ghost predicate HeldThrough(k: Kernel, es: seq<Event>, x: Interval, n: nat, m: nat)
    requires Inv(k) && n <= m < |es|
  {
    && Enabled(Exec(k, es[..m]), es[m]) && ChargeOf(Exec(k, es[..m]), es[m]) == [x]
    && Holds(k, es, x.p, n, m) && Exec(k, es[..n]).pStart <= x.from <= x.to == es[m].t1
  }

  /** x is among the charges that the first m events made. */
  lemma {:induction false} EntryMade(k: Kernel, es: seq<Event>, getTime: bool, x: Interval, m: nat) returns (j: nat)
    requires Inv(k) && m <= |es| && x in Log(k, es[..m], getTime)
    ensures j < m && Enabled(Exec(k, es[..j]), es[j]) && ChargeOf(Exec(k, es[..j]), es[j]) == [x]
    decreases m
  {
    hide Handle, Step, Inv, Exec, Enabled, Charges;
    assert es[..m][..m - 1] == es[..m - 1];
    if x in Log(k, es[..m - 1], getTime) {
      j := EntryMade(k, es, getTime, x, m - 1);
    } else {
      j := m - 1;
    }
  }

  /** Every interval that is ever charged, GETTIME's included, is time through which the charged process held the CPU
      without a break, since a dispatch of the run or since its start. */
  lemma ChargedWhileRunning(k: Kernel, es: seq<Event>, getTime: bool, x: Interval)
    requires Inv(k) && x in Log(k, es, getTime)
    ensures exists n: nat, m: nat :: n <= m < |es| && HeldThrough(k, es, x, n, m)
  {
    hide Handle, Step, Inv, Exec, Log, Holds;
    assert es[..|es|] == es;
    var m := EntryMade(k, es, getTime, x, |es|);
    var n := HeldSince(k, es, x.p, m);
    HoldsFrom(k, es, x.p, n, m);
    assert HeldThrough(k, es, x, n, m);
  }

  lemma HoldsFrom(k: Kernel, es: seq<Event>, p: Slot, n: nat, m: nat)
    requires Inv(k) && n <= m <= |es| && Holds(k, es, p, n, m)
    ensures Exec(k, es[..n]).pStart <= Exec(k, es[..m]).pStart
  {
    hide Exec, Inv;
  }

  /** Readings of a clock that never goes backwards. */
  ghost predicate Clocked(es: seq<Event>) {
    && (forall i :: 0 <= i < |es| ==> es[i].t1 <= es[i].t2)
    && (forall i, j :: 0 <= i < j < |es| ==> es[i].t2 <= es[j].t1)
  }

  /** Nobody pays for others, or for an empty CPU: the time between the i-th event and the one before it is outside
      every interval charged to a process that did not hold the CPU then. */
  lemma NobodyElsesTime(k: Kernel, es: seq<Event>, getTime: bool, x: Interval, i: nat)
    requires Inv(k) && Clocked(es) && x in Log(k, es, getTime) && i <= |es| && Exec(k, es[..i]).current != Some(x.p)
    ensures (i < |es| && es[i].t1 <= x.from) || (i > 0 && x.to <= es[i - 1].t2)
  {
    hide Handle, Step, Inv, Exec, Log;
    ChargedWhileRunning(k, es, getTime, x);
    var n: nat, m: nat :| n <= m < |es| && HeldThrough(k, es, x, n, m);
  }

  lemma StayStep(k: Kernel, e: Event, p: Slot)
    requires Inv(k) && k.current == Some(p) && Step(k, e).current == Some(p)
    requires Enabled(k, e) ==> !Handle(k, e).out.Dispatch?
    ensures var c := if Enabled(k, e) && !IsGetTime(e) then ChargeOf(k, e) else [];
      Total(c) == Share(c, p) == Step(k, e).pStart - k.pStart
  {
    hide Handle, Inv;
    if Enabled(k, e) {
      StepCpu(k, e);
      if Charges(k, e) && !IsGetTime(e) {
        OneCharge(p, k.pStart, e.t1);
      }
    }
  }

  lemma OneCharge(p: Slot, from: int, to: int)
    ensures Total([Interval(p, from, to)]) == Share([Interval(p, from, to)], p) == to - from
  {
    assert [Interval(p, from, to)][..0] == [];
  }

  lemma ShareConcat(log: seq<Interval>, c: seq<Interval>, p: Slot)
    requires |c| <= 1
    ensures Share(log + c, p) == Share(log, p) + Share(c, p)
  {
    if c == [] {
      assert log + c == log;
    } else {
      assert (log + c)[..|log|] == log && c[..0] == [];
    }
  }

  lemma TotalConcat(log: seq<Interval>, c: seq<Interval>)
    requires |c| <= 1
    ensures Total(log + c) == Total(log) + Total(c)
  {
    if c == [] {
      assert log + c == log;
    } else {
      assert (log + c)[..|log|] == log && c[..0] == [];
    }
  }

  /** GETTIME apart, the charges made while p keeps the CPU are all p's, and add up to the time p_start moved. */
  lemma {:induction false} StayCharged(k: Kernel, es: seq<Event>, p: Slot)
    requires Inv(k) && Stays(k, es, p)
    ensures var log := Log(k, es, false); Total(log) == Share(log, p) == Exec(k, es).pStart - k.pStart
  {
    hide Handle, Step, Inv, Charges, Share, Total, ChargeOf;
    if es == [] {
      NoCharge(p);
    } else {
      var n := |es| - 1;
      var m := Exec(k, es[..n]);
      var c := if Enabled(m, es[n]) && !IsGetTime(es[n]) then ChargeOf(m, es[n]) else [];
      StayCharged(k, es[..n], p);
      StaysHolds(k, es[..n], p);
      StayStep(m, es[n], p);
      AtMostOne(m, es[n]);
      TotalConcat(Log(k, es[..n], false), c);
      ShareConcat(Log(k, es[..n], false), c, p);
    }
  }

  lemma NoCharge(p: Slot)
    ensures Total([]) == 0 && Share([], p) == 0
  {
  }

  lemma AtMostOne(k: Kernel, e: Event)
    ensures |ChargeOf(k, e)| <= 1
  {
  }

  lemma StaysHolds(k: Kernel, es: seq<Event>, p: Slot)
    requires Inv(k) && Stays(k, es, p)
    ensures Exec(k, es).current == Some(p)
  {
    hide Handle, Step, Inv, Exec;
  }

  /** Nothing is lost either: from its dispatch by d to the event e that takes it off the CPU alive, a process is
      charged, GETTIME apart, exactly the time from the one to the other, and nobody else is charged anything. */
  lemma StayAccounted(k: Kernel, d: Event, es: seq<Event>, e: Event, p: Slot)
    requires Inv(k) && Enabled(k, d) && Dispatches(Handle(k, d), p) && Stays(Step(k, d), es, p)
    requires Enabled(Exec(Step(k, d), es), e) && Leaves(Exec(Step(k, d), es), e)
    ensures var log := Log(Step(k, d), es + [e], false); Total(log) == Share(log, p) == e.t1 - d.t2
  {
    hide Handle, Step, Inv, Share, Total, Exec, Stays;
    var l := Step(k, d);
    var m := Exec(l, es);
    DispatchedAt(k, d, p);
    StaysHolds(l, es, p);
    StayCharged(l, es, p);
    LogLast(l, es, e);
    LeavesCharged(m, e, p);
    TotalConcat(Log(l, es, false), [Interval(p, m.pStart, e.t1)]);
    ShareConcat(Log(l, es, false), [Interval(p, m.pStart, e.t1)], p);
    OneCharge(p, m.pStart, e.t1);
  }

  lemma DispatchedAt(k: Kernel, d: Event, p: Slot)
    requires Inv(k) && Enabled(k, d) && Dispatches(Handle(k, d), p)
    ensures Step(k, d).pStart == d.t2 && Step(k, d).current == Some(p)
  {
    hide Handle, Inv;
    StepCpu(k, d);
  }

  lemma LeavesCharged(k: Kernel, e: Event, p: Slot)
    requires Leaves(k, e) && k.current == Some(p)
    ensures !IsGetTime(e) && ChargeOf(k, e) == [Interval(p, k.pStart, e.t1)]
  {
  }

  lemma LogLast(k: Kernel, es: seq<Event>, e: Event)
    requires Inv(k) && Enabled(Exec(k, es), e) && !IsGetTime(e)
    ensures Log(k, es + [e], false) == Log(k, es, false) + ChargeOf(Exec(k, es), e)
  {
    hide Handle, Step, Inv, Exec, ChargeOf;
    assert (es + [e])[..|es|] == es;
  }

  // ---- a process's share --------------------------------------------------

  lemma TimeStep(k: Kernel, e: Event, p: Slot)
    requires Inv(k) && k.Live(p)
    ensures p < |Step(k, e).pcb|
    ensures Step(k, e).pcb[p].time == k.pcb[p].time + if Enabled(k, e) then Share(ChargeOf(k, e), p) else 0
  {
    hide Handle;
    if Enabled(k, e) {
      StepPcb(k, e);
      assert Creates(k, e, p) ==> p in k.free;
    }
  }

  /** A process's CPU time is the sum of what was charged to it. */
  lemma {:induction false} TimeIsShare(k: Kernel, es: seq<Event>, p: Slot)
    requires Inv(k) && LivesOn(k, es, p)
    ensures p < |k.pcb|
    ensures Exec(k, es).pcb[p].time == k.pcb[p].time + Share(Log(k, es, false), p) + Share(Log(k, es, true), p)
  {
    if es != [] {
      hide Handle, Step, Inv, Charges, Share, Log;
      var n := |es| - 1;
      var m := Exec(k, es[..n]);
      TimeIsShare(k, es[..n], p);
      TimeStep(m, es[n], p);
      ShareStep(k, es, p, false);
      ShareStep(k, es, p, true);
    }
  }

  /** What the last event of a run adds to p's part of a log. */
  lemma ShareStep(k: Kernel, es: seq<Event>, p: Slot, getTime: bool)
    requires Inv(k) && es != []
    ensures var n := |es| - 1; var m := Exec(k, es[..n]);
      Share(Log(k, es, getTime), p) == Share(Log(k, es[..n], getTime), p)
        + if Enabled(m, es[n]) && IsGetTime(es[n]) == getTime then Share(ChargeOf(m, es[n]), p) else 0
  {
    hide Handle, Step, Inv, Charges, Enabled, Share;
    var n := |es| - 1;
    ShareConcat(Log(k, es[..n], getTime), ChargeOf(Exec(k, es[..n]), es[n]), p);
    assert Log(k, es[..n], getTime) + [] == Log(k, es[..n], getTime);
  }

  lemma GetTimeResult(k: Kernel, e: Event, p: Slot)
    requires Inv(k) && Enabled(k, e) && IsGetTime(e) && k.current == Some(p)
    ensures p < |k.pcb|
    ensures Handle(k, e).out ==
      Resume(SavePc(e.ctx.(a0 := TruncDiv(k.pcb[p].time + (e.t1 - k.pStart), e.call.scale))))
  {
    assert OnePlace(k, p);
  }

  /** GETTIME returns, scaled, all that was ever charged to the caller, its present interval included. */
  lemma GetTimeReturns(k: Kernel, es: seq<Event>, e: Event, p: Slot)
    requires Inv(k) && LivesOn(k, es, p) && Exec(k, es).current == Some(p)
    requires Enabled(Exec(k, es), e) && IsGetTime(e)
    ensures p < |k.pcb|
    ensures var m := Exec(k, es);
      var used := k.pcb[p].time + Share(Log(k, es, false), p) + Share(Log(k, es, true), p) + (e.t1 - m.pStart);
      Handle(m, e).out == Resume(SavePc(e.ctx.(a0 := TruncDiv(used, e.call.scale))))
  {
    hide Inv, Step, Exec, Log, Share, LivesOn;
    TimeIsShare(k, es, p);
    GetTimeResult(Exec(k, es), e, p);
  }

  /** GETTIME leaves p_start alone, so the interval it charged is charged again when the caller leaves. */
  lemma GetTimeChargesTwice(k: Kernel, e: Event, f: Event)
    requires Inv(k) && k.current.Some? && Enabled(k, e) && IsGetTime(e)
    requires f.PLT? && e.t1 <= f.t1 <= f.t2
    ensures var c := k.current.value; var l := Step(Step(k, e), f);
      c < |k.pcb| && c < |l.pcb| && l.pcb[c].time == k.pcb[c].time + (e.t1 - k.pStart) + (f.t1 - k.pStart)
  {
    var c := k.current.value;
    var m := Step(k, e);
    assert OnePlace(k, c) && OnePlace(m, c);
    TimeStep(k, e, c);
    assert m.current == k.current && m.pStart == k.pStart && m.free == k.free;
    TimeStep(m, f, c);
    assert Share([Interval(c, k.pStart, e.t1)], c) == e.t1 - k.pStart;
    assert Share([Interval(c, k.pStart, f.t1)], c) == f.t1 - k.pStart;
  }
}
