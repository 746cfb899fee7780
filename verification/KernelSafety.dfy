/** What holds in every state reachable from boot, in the terms of the source. */
module KernelSafety {
  import opened Sequences
  import opened KernelState
  import opened KernelSteps
  import opened KernelMoves
  import opened KernelInvariant
  import opened KernelRuns

  /** Where a PCB is. */
  datatype Place = InFree | InReady | InQueue(a: Addr) | OnCpu

  ghost predicate IsAt(k: Kernel, p: Slot, at: Place) {
    match at
    case InFree => p in k.free
    case InReady => p in k.ready
    case InQueue(a) => p in k.Q(a)
    case OnCpu => k.current == Some(p)
  }

  /** Every PCB is in exactly one place; when that is a semaphore queue, it is the one p_semAdd names. */
  lemma OnePlaceEach(k: Kernel, p: Slot)
    requires Partition(k) && p < |k.pcb|
    ensures exists at :: IsAt(k, p, at)
    ensures forall at, at' :: IsAt(k, p, at) && IsAt(k, p, at') ==> at == at'
    ensures forall a :: IsAt(k, p, InQueue(a)) ==> k.pcb[p].semAdd == a
  {
    assert OnePlace(k, p);
    forall a | p in k.Q(a)
      ensures k.pcb[p].semAdd == a && k.Blocked(p)
    {
      assert p in k.asl[a];
    }
    var at := if p in k.free then InFree else if p in k.ready then InReady
              else if k.Blocked(p) then InQueue(k.pcb[p].semAdd) else OnCpu;
    assert IsAt(k, p, at);
  }

  /** The lengths of the first n device queues. */
  ghost function QueueTotal(k: Kernel, n: nat): nat {
    if n == 0 then 0 else QueueTotal(k, n - 1) + |k.Q(k.Dev(n - 1))|
  }

  ghost function Queued(k: Kernel, n: nat): set<Slot> {
    set p: Slot | p < |k.pcb| && k.SoftBlocked(p) && k.pcb[p].semAdd < k.Dev(n)
  }

  lemma {:induction false} QueuedCard(k: Kernel, n: nat)
    requires Partition(k) && Semaphores(k) && n <= SEMDEVLEN
    ensures |Queued(k, n)| == QueueTotal(k, n)
  {
    if n == 0 {
      assert Queued(k, 0) == {};
    } else {
      QueuedCard(k, n - 1);
      QueuedNext(k, n);
    }
  }

  lemma QueuedNext(k: Kernel, n: nat)
    requires Partition(k) && Semaphores(k) && 0 < n <= SEMDEVLEN
    ensures |Queued(k, n)| == |Queued(k, n - 1)| + |k.Q(k.Dev(n - 1))|
  {
    var a := k.Dev(n - 1);
    var q := k.Q(a);
    assert q != [] ==> a in k.asl && NoDup(k.asl[a]);
    NoDupCard(q);
    forall p: Slot
      ensures p in Queued(k, n) <==> p in Queued(k, n - 1) || p in Elems(q)
      ensures p in Elems(q) ==> p !in Queued(k, n - 1)
    {
      QueuedAt(k, n, p);
    }
    assert Queued(k, n) == Queued(k, n - 1) + Elems(q);
    assert Queued(k, n - 1) !! Elems(q);
  }

  lemma QueuedAt(k: Kernel, n: nat, p: Slot)
    requires Partition(k) && Semaphores(k) && 0 < n <= SEMDEVLEN
    ensures p in k.Q(k.Dev(n - 1)) ==> p in Queued(k, n) && p !in Queued(k, n - 1)
    ensures p in Queued(k, n) ==> p in Queued(k, n - 1) || p in k.Q(k.Dev(n - 1))
  {
    if p in k.Q(k.Dev(n - 1)) {
      assert p in k.asl[k.Dev(n - 1)];
    }
    if p in Queued(k, n) {
      var a := k.pcb[p].semAdd;
      assert a in k.asl && (a - k.dev) % 4 == 0;
    }
  }

  /** In every state reachable from boot: processCount counts the PCBs in use, softBlockCount the
      processes queued on the 49 device and clock semaphores. */
  lemma CountersAreExact(k: Kernel, es: seq<Event>)
    requires Inv(k)
    ensures var l := Exec(k, es);
      l.processCount + |l.free| == |l.pcb| && l.softBlockCount == QueueTotal(l, SEMDEVLEN)
  {
    var l := Exec(k, es);
    QueuedCard(l, SEMDEVLEN);
    forall p: Slot
      ensures p in l.SoftSet() <==> p in Queued(l, SEMDEVLEN)
    {
    }
    assert l.SoftSet() == Queued(l, SEMDEVLEN);
  }

  /** Blocking never fails: whichever semaphore the running process blocks on, insertBlocked finds a
      descriptor, and the process ends up last in that queue. */
  lemma BlockingSucceeds(k: Kernel, a: Addr)
    requires Partition(k) && k.current.Some?
    ensures var (l, ok) := InsertBlocked(k, a, k.current.value);
      ok && l.Q(a) == k.Q(a) + [k.current.value] && l.pcb[k.current.value].semAdd == a
  {
    DescriptorFree(k);
  }

  /** A waiter counted by a negative value is really there: the wake-up of V never comes back empty. */
  lemma WaiterExists(k: Kernel, a: Addr)
    requires Inv(k) && a in k.mem && k.mem[a] < 0 && (k.IsDevice(a) ==> (a - k.dev) % 4 == 0)
    ensures RemoveBlocked(k, a).1.Some?
  {
    if k.IsDevice(a) {
      DeviceIndex(k, a);
    }
  }
}
