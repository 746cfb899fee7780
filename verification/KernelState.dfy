/** The state shared by the kernel's handlers, and the facts every handler keeps. */
module KernelState {
  import opened Sequences

  /** A PCB pointer: its index in pcbFree_table. */
  type Slot = nat
  /** The address of a semaphore (an int*). */
  type Addr = int

  const NULL: Addr := 0
  const SEMDEVLEN := 49
  const CLOCK := SEMDEVLEN - 1

  /** A saved processor state: the two fields the kernel writes, and the rest. */
  datatype Context = Context(pc: int, a0: int, regs: int)

  datatype Pcb = Pcb(
    parent: Option<Slot>, children: seq<Slot>,
    ctx: Context, time: int, semAdd: Addr, support: int, prio: int, pid: int)

  /** A PCB in static storage before its first use. */
  const BLANK_PCB := Pcb(None, [], Context(0, 0, 0), 0, NULL, NULL, 0, 0)

  /** The descending slot numbers below n: the free list initPcbs builds. */
  function Down(n: nat): (q: seq<Slot>)
    ensures |q| == n && forall i :: 0 <= i < n ==> q[i] == n - 1 - i
  {
    if n == 0 then [] else [n - 1] + Down(n - 1)
  }

  function QueueOf(asl: map<Addr, seq<Slot>>, a: Addr): seq<Slot> {
    if a in asl then asl[a] else []
  }

  datatype Kernel = Kernel(
    dev: Addr,                  // &deviceSemaphores[0]
    pcb: seq<Pcb>,              // pcbFree_table
    free: seq<Slot>,            // pcbFree_h
    nextPid: int,
    ready: seq<Slot>,           // readyQueue
    asl: map<Addr, seq<Slot>>,  // semd_h: the queue of every active semaphore
    mem: map<Addr, int>,        // the semaphores' values
    processCount: int,
    softBlockCount: int,
    current: Option<Slot>,
    pStart: int)
  {
    function Dev(i: int): Addr { dev + 4 * i }

    /** The address test of terminateProcessTree. */
    predicate IsDevice(a: Addr) { Dev(0) <= a <= Dev(SEMDEVLEN - 1) }

    /** The processes queued on a. */
    function Q(a: Addr): seq<Slot> { QueueOf(asl, a) }

    predicate Live(p: Slot) { p < |pcb| && p !in free }

    predicate Blocked(p: Slot) { p < |pcb| && p in Q(pcb[p].semAdd) }

    predicate SoftBlocked(p: Slot) { Blocked(p) && IsDevice(pcb[p].semAdd) }

    /** The processes blocked on a device or on the pseudo-clock. */
    ghost function SoftSet(): set<Slot> { set p: Slot | p < |pcb| && SoftBlocked(p) }
  }

  // ---- the priority queue -------------------------------------------------

  function Prio(pcb: seq<Pcb>, p: Slot): int { if p < |pcb| then pcb[p].prio else 0 }

  /** The place insertProcQ picks: the first entry of strictly lower priority. */
  function InsertPos(q: seq<Slot>, prio: int, pcb: seq<Pcb>): (i: nat)
    ensures i <= |q|
    ensures forall j :: 0 <= j < i ==> Prio(pcb, q[j]) >= prio
    ensures i < |q| ==> Prio(pcb, q[i]) < prio
  {
    if q == [] || prio > Prio(pcb, q[0]) then 0 else 1 + InsertPos(q[1..], prio, pcb)
  }

  function InsertProc(q: seq<Slot>, p: Slot, pcb: seq<Pcb>): (r: seq<Slot>)
    ensures |r| == |q| + 1
    ensures forall x :: x in r <==> x == p || x in q
  {
    var i := InsertPos(q, Prio(pcb, p), pcb);
    assert q == q[..i] + q[i..];
    q[..i] + [p] + q[i..]
  }

  lemma InsertProcNoDup(q: seq<Slot>, p: Slot, pcb: seq<Pcb>)
    requires NoDup(q) && p !in q
    ensures NoDup(InsertProc(q, p, pcb))
  {
  }

  // ---- the invariant ------------------------------------------------------

  ghost predicate AslOk(k: Kernel) {
    forall a :: a in k.asl ==>
      a != NULL && k.asl[a] != [] && NoDup(k.asl[a]) &&
      forall p :: p in k.asl[a] ==> p < |k.pcb| && k.pcb[p].semAdd == a
  }

  ghost predicate Lists(k: Kernel) {
    && NoDup(k.free) && (forall p :: p in k.free ==> p < |k.pcb|)
    && NoDup(k.ready) && (forall p :: p in k.ready ==> p < |k.pcb|)
    && (k.current.Some? ==> k.current.value < |k.pcb|)
    && AslOk(k)
  }

  /** p is in exactly one of: free list, ready queue, one semaphore queue, the CPU. */
  ghost predicate OnePlace(k: Kernel, p: Slot) {
    var f, r, b, c := p in k.free, p in k.ready, k.Blocked(p), k.current == Some(p);
    (f || r || b || c) && !(f && r) && !(f && b) && !(f && c) && !(r && b) && !(r && c) && !(b && c)
  }

  ghost predicate Partition(k: Kernel) {
    Lists(k) && forall p: Slot :: p < |k.pcb| ==> OnePlace(k, p)
  }

  ghost predicate Counters(k: Kernel) {
    && k.processCount + |k.free| == |k.pcb|
    && k.softBlockCount == |k.SoftSet()|
  }

  /** What the semaphores' values say about their queues. */
  ghost predicate Semaphores(k: Kernel) {
    && 0 < k.dev
    && (forall i :: 0 <= i < SEMDEVLEN ==> k.Dev(i) in k.mem)
    && (forall a :: a in k.asl ==> a in k.mem && (k.IsDevice(a) ==> (a - k.dev) % 4 == 0))
    && (forall a :: a in k.mem && !k.IsDevice(a) ==> |k.Q(a)| == if k.mem[a] < 0 then -k.mem[a] else 0)
    && (forall i :: 0 <= i < CLOCK ==> k.mem[k.Dev(i)] + |k.Q(k.Dev(i))| >= 0)
    && k.mem[k.Dev(CLOCK)] + |k.Q(k.Dev(CLOCK))| == 0
  }

  ghost predicate NodeOk(k: Kernel, p: Slot)
    requires p < |k.pcb|
  {
    var r := k.pcb[p];
    && 0 < r.pid < k.nextPid
    && (r.parent.Some? ==>
          k.Live(r.parent.value) && p in k.pcb[r.parent.value].children && k.pcb[r.parent.value].pid < r.pid)
    && NoDup(r.children)
    && (forall c :: c in r.children ==> k.Live(c) && k.pcb[c].parent == Some(p))
  }

  /** The live processes form trees whose links agree and whose pids grow downwards. */
  ghost predicate Forest(k: Kernel) {
    && 0 < k.nextPid
    && (forall p :: p in k.free && p < |k.pcb| ==> k.pcb[p].parent == None && k.pcb[p].children == [])
    && (forall p: Slot {:trigger NodeOk(k, p)} :: k.Live(p) ==> NodeOk(k, p))
    && (forall p: Slot, q: Slot {:trigger k.pcb[p].pid, k.pcb[q].pid} ::
          k.Live(p) && k.Live(q) && k.pcb[p].pid == k.pcb[q].pid ==> p == q)
  }

  ghost predicate OneRoot(k: Kernel) {
    forall p: Slot, q: Slot {:trigger k.pcb[p].parent, k.pcb[q].parent} ::
      k.Live(p) && k.Live(q) && k.pcb[p].parent == None && k.pcb[q].parent == None ==> p == q
  }

  /** Holds at every handler's entry; inside a handler the CPU may be empty before the scheduler ran. */
  ghost predicate Core(k: Kernel) {
    Partition(k) && Counters(k) && Semaphores(k) && Forest(k) && OneRoot(k)
  }

  ghost predicate Inv(k: Kernel) {
    Core(k) && (k.current.None? ==> k.ready == [])
  }
}
