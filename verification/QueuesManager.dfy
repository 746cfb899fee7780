/** The Queues Manager: pcb.c and asl.c on the lists of listx.h. */
module QueuesManager {
  import opened Sequences
  import opened KernelState
  import opened KernelSteps
  import opened Listx
  import opened ActiveSemaphores

  /** struct pcb_t. */
  class PcbT {
    const slot: Slot
    const p_list: ListHead
    const p_child: ListHead
    const p_sib: ListHead
    var p_parent: PcbT?
    var p_s: Context
    var p_time: int
    var p_semAdd: Addr
    var p_supportStruct: int
    var p_prio: int
    var p_pid: int

    constructor (slot: Slot)
      ensures this.slot == slot && p_parent == null
      ensures fresh(p_list) && fresh(p_child) && fresh(p_sib)
      ensures p_list.kind == PList && p_child.kind == PChild && p_sib.kind == PSib
      ensures p_list.owner == p_child.owner == p_sib.owner == slot
      ensures p_list.home == null && p_sib.home == null && p_child.elems == []
      ensures p_child.next == p_child == p_child.prev
      ensures Rec() == BLANK_PCB
    {
      this.slot := slot;
      p_list := new ListHead(PList, slot);
      p_child := new ListHead(PChild, slot);
      p_sib := new ListHead(PSib, slot);
      p_parent, p_s, p_time, p_semAdd, p_supportStruct, p_prio, p_pid := null, Context(0, 0, 0), 0, NULL, NULL, 0, 0;
    }

    /** The value of the structure, its links as slots. */
    ghost function Rec(): Pcb
      reads this, p_child
    {
      Pcb(if p_parent == null then None else Some(p_parent.slot), Owners(p_child),
          p_s, p_time, p_semAdd, p_supportStruct, p_prio, p_pid)
    }
  }

  /** struct semd_t. */
  class SemdT {
    const index: nat
    var s_key: Addr
    const s_procq: ListHead
    const s_link: ListHead

    constructor (index: nat)
      ensures this.index == index && s_key == NULL
      ensures fresh(s_procq) && fresh(s_link)
      ensures s_procq.kind == SProcq && s_link.kind == SLink && s_procq.owner == s_link.owner == index
      ensures s_link.home == null && s_procq.elems == [] && s_procq.next == s_procq == s_procq.prev
    {
      this.index := index;
      s_procq := new ListHead(SProcq, index);
      s_link := new ListHead(SLink, index);
      s_key := NULL;
    }
  }

  /** The structures a list holds, as table indices. */
  ghost function OwnersOf(e: seq<ListHead>): (q: seq<nat>)
    ensures |q| == |e| && forall i :: 0 <= i < |q| ==> q[i] == e[i].owner
  {
    seq(|e|, (i: nat) requires i < |e| => e[i].owner)
  }

  ghost function Owners(h: ListHead): seq<nat> reads h { OwnersOf(h.elems) }

  lemma OwnersInsert(e: seq<ListHead>, i: nat, x: ListHead)
    requires i <= |e|
    ensures OwnersOf(e[..i] + [x] + e[i..]) == OwnersOf(e)[..i] + [x.owner] + OwnersOf(e)[i..]
  {
  }

  lemma OwnersTail(e: seq<ListHead>, x: ListHead)
    ensures OwnersOf(e[..|e|] + [x] + e[|e|..]) == OwnersOf(e) + [x.owner]
  {
    assert e[..|e|] + [x] + e[|e|..] == e + [x];
  }

  lemma OwnersRemove(e: seq<ListHead>, i: nat)
    requires i < |e|
    ensures OwnersOf(e[..i] + e[i + 1..]) == OwnersOf(e)[..i] + OwnersOf(e)[i + 1..]
  {
  }

  lemma OwnersCons(x: ListHead, e: seq<ListHead>)
    ensures OwnersOf([x] + e) == [x.owner] + OwnersOf(e)
  {
  }

  // ---- pcb.c: queues of PCBs --------------------------------------------

  /** The nodes are the p_list fields of table's PCBs; recs are the PCBs' values. */
  ghost predicate Table(pcbs: seq<PcbT>, recs: seq<Pcb>, nodes: set<ListHead>)
    reads pcbs
  {
    && |recs| == |pcbs|
    && (forall i :: 0 <= i < |pcbs| ==>
          pcbs[i].slot == pcbs[i].p_list.owner == i && recs[i].prio == pcbs[i].p_prio)
    && (forall n :: n in nodes ==> n.owner < |pcbs| && pcbs[n.owner].p_list == n)
  }

  lemma InsertPosIs(q: seq<Slot>, prio: int, pcb: seq<Pcb>, i: nat)
    requires i <= |q| && (forall j :: 0 <= j < i ==> Prio(pcb, q[j]) >= prio) && (i < |q| ==> Prio(pcb, q[i]) < prio)
    ensures InsertPos(q, prio, pcb) == i
  {
  }

  /** insertProcQ's search: the first element of lower priority, or the sentinel. */
  method FirstLower(pcbs: seq<PcbT>, head: ListHead, prio: int,
                    ghost recs: seq<Pcb>, ghost heads: set<ListHead>, ghost nodes: set<ListHead>)
    returns (iter: ListHead, ghost i: nat)
    requires Table(pcbs, recs, nodes) && Rings(heads, nodes) && head in heads
    ensures i == InsertPos(Owners(head), prio, recs) && i <= |head.elems| && iter == Succ(head, head.elems, i)
  {
    RingOf(heads, nodes, head);
    assert forall n :: n in nodes ==> n.owner < |pcbs| && Prio(recs, n.owner) == pcbs[n.owner].p_prio;
    hide Rings, ListHead.Ring, Linked, Table, NoDup, InsertPos, OwnersOf, Pred;
    ghost var e, q := head.elems, Owners(head);
    i := 0;
    RingLinks(head, 0);
    iter := head.next;
    while iter != head
      invariant i <= |e| && iter == Succ(head, e, i)
      invariant forall j :: 0 <= j < i ==> Prio(recs, q[j]) >= prio
      decreases |e| - i
    {
      RingLinks(head, i);
      assert iter in nodes && iter.owner == q[i];
      if prio > pcbs[iter.owner].p_prio {
        break;
      }
      iter := iter.next;
      i := i + 1;
    }
    RingLinks(head, i);
    InsertPosIs(q, prio, recs, i);
  }

  /** insertProcQ: the queue becomes what InsertProc says. */
  method InsertProcQ(pcbs: seq<PcbT>, head: ListHead, p: PcbT,
                     ghost recs: seq<Pcb>, ghost heads: set<ListHead>, ghost nodes: set<ListHead>)
    requires Table(pcbs, recs, nodes) && Rings(heads, nodes) && head in heads
    requires p in pcbs && p.p_list in nodes && p.p_list.home == null
    modifies head, head.elems, p.p_list
    ensures Rings(heads, nodes) && Owners(head) == InsertProc(old(Owners(head)), p.slot, recs)
    ensures p.p_list.home == head && forall n :: n in nodes && n != p.p_list ==> n.home == old(n.home)
  {
    assert p.p_list.owner == p.slot && p.p_prio == Prio(recs, p.slot);
    hide Rings, Table, InsertPos, OwnersOf;
    var iter, i := FirstLower(pcbs, head, p.p_prio, recs, heads, nodes);
    OwnersInsert(head.elems, i, p.p_list);
    ListAddTail(p.p_list, iter, head, i, heads, nodes);
  }

  /** removeProcQ: the head leaves the queue. */
  method RemoveProcQ(pcbs: seq<PcbT>, head: ListHead,
                     ghost recs: seq<Pcb>, ghost heads: set<ListHead>, ghost nodes: set<ListHead>)
    returns (p: PcbT?)
    requires Table(pcbs, recs, nodes) && Rings(heads, nodes) && head in heads
    modifies head, head.elems
    ensures Rings(heads, nodes)
    ensures old(head.elems) == [] ==> p == null && head.elems == []
    ensures old(head.elems) != [] ==>
      && p != null && p in pcbs && p.slot == old(Owners(head))[0] && p.p_list.home == null
      && p.p_list == old(head.elems[0]) && Owners(head) == old(Owners(head))[1..]
    ensures forall n :: n in nodes && (p == null || n != p.p_list) ==> n.home == old(n.home)
  {
    RingOf(heads, nodes, head);
    RingLinks(head, 0);
    EmptyIff(head);
    if ListEmpty(head) {
      return null;
    }
    assert head.next == head.elems[0] && head.elems[0] in nodes;
    p := pcbs[head.next.owner];
    OwnersRemove(head.elems, 0);
    hide Rings, Table, OwnersOf;
    ListDel(p.p_list, head, 0, heads, nodes);
  }

  /** outProcQ's search for p. */
  method FindInQ(head: ListHead, p: PcbT, ghost heads: set<ListHead>, ghost nodes: set<ListHead>)
    returns (found: bool, ghost i: nat)
    requires Rings(heads, nodes) && head in heads && p.p_list in nodes
    ensures found <==> p.p_list in head.elems
    ensures found ==> i < |head.elems| && head.elems[i] == p.p_list
  {
    RingOf(heads, nodes, head);
    hide Rings, ListHead.Ring, Linked, NoDup, Pred;
    ghost var e := head.elems;
    i := 0;
    RingLinks(head, 0);
    var iter := head.next;
    while iter != head
      invariant i <= |e| && iter == Succ(head, e, i)
      invariant forall j :: 0 <= j < i ==> e[j] != p.p_list
      decreases |e| - i
    {
      RingLinks(head, i);
      if iter == p.p_list {
        return true, i;
      }
      iter := iter.next;
      i := i + 1;
    }
    RingLinks(head, i);
    found := false;
  }

  lemma OwnerIn(pcbs: seq<PcbT>, recs: seq<Pcb>, nodes: set<ListHead>, head: ListHead, p: PcbT)
    requires Table(pcbs, recs, nodes) && p in pcbs && p.p_list in nodes && forall n :: n in head.elems ==> n in nodes
    ensures p.slot in Owners(head) <==> p.p_list in head.elems
    ensures p.p_list.owner == p.slot
  {
    if p.slot in Owners(head) {
      var i :| 0 <= i < |Owners(head)| && Owners(head)[i] == p.slot;
      assert head.elems[i] in nodes && head.elems[i].owner == p.slot;
    }
    if p.p_list in head.elems {
      var i :| 0 <= i < |head.elems| && head.elems[i] == p.p_list;
      assert Owners(head)[i] == p.slot;
    }
  }

  lemma OwnersNoDup(pcbs: seq<PcbT>, recs: seq<Pcb>, nodes: set<ListHead>, e: seq<ListHead>)
    requires Table(pcbs, recs, nodes) && NoDup(e) && forall n :: n in e ==> n in nodes
    ensures NoDup(OwnersOf(e))
  {
    forall i, j | 0 <= i < j < |e|
      ensures e[i].owner != e[j].owner
    {
      assert e[i] in nodes && e[j] in nodes;
    }
  }

  /** outProcQ: p leaves the queue if it is there; otherwise nothing happens. */
  method OutProcQ(pcbs: seq<PcbT>, head: ListHead, p: PcbT,
                  ghost recs: seq<Pcb>, ghost heads: set<ListHead>, ghost nodes: set<ListHead>)
    returns (r: PcbT?)
    requires Table(pcbs, recs, nodes) && Rings(heads, nodes) && head in heads && p in pcbs && p.p_list in nodes
    modifies head, head.elems
    ensures Rings(heads, nodes) && Owners(head) == Without(old(Owners(head)), {p.slot})
    ensures if p.slot in old(Owners(head)) then r == p && p.p_list.home == null
            else r == null && head.elems == old(head.elems)
    ensures forall n :: n in nodes && (r == null || n != p.p_list) ==> n.home == old(n.home)
  {
    RingOf(heads, nodes, head);
    OwnerIn(pcbs, recs, nodes, head, p);
    OwnersNoDup(pcbs, recs, nodes, head.elems);
    hide Rings, Table, OwnersOf, Without, NoDup;
    var found, i := FindInQ(head, p, heads, nodes);
    if !found {
      WithoutAbsent(Owners(head), {p.slot});
      return null;
    }
    OwnersRemove(head.elems, i);
    WithoutOne(Owners(head), i);
    ListDel(p.p_list, head, i, heads, nodes);
    r := p;
  }

  ghost predicate NewPcb(p: PcbT, i: nat)
    reads p, p.p_list, p.p_child, p.p_sib
  {
    && p.slot == i && p.p_parent == null && p.Rec() == BLANK_PCB
    && p.p_list.kind == PList && p.p_child.kind == PChild && p.p_sib.kind == PSib
    && p.p_list.owner == p.p_child.owner == p.p_sib.owner == i
    && p.p_list.home == null && p.p_sib.home == null
    && p.p_child.elems == [] && p.p_child.next == p.p_child == p.p_child.prev
  }

  ghost predicate NewHead(h: ListHead, i: nat)
    reads h
  {
    h.kind == Head && h.owner == i && h.elems == [] && h.next == h == h.prev
  }

  method MakePcbs(n: nat) returns (ps: seq<PcbT>)
    ensures |ps| == n
    ensures forall i :: 0 <= i < n ==>
      NewPcb(ps[i], i) && fresh(ps[i]) && fresh(ps[i].p_list) && fresh(ps[i].p_child) && fresh(ps[i].p_sib)
  {
    ps := [];
    while |ps| < n
      invariant |ps| <= n
      invariant forall i :: 0 <= i < |ps| ==>
        NewPcb(ps[i], i) && fresh(ps[i]) && fresh(ps[i].p_list) && fresh(ps[i].p_child) && fresh(ps[i].p_sib)
    {
      var p := new PcbT(|ps|);
      ps := ps + [p];
    }
  }

  ghost predicate NewSemd(d: SemdT, i: nat)
    reads d, d.s_procq, d.s_link
  {
    && d.index == i && d.s_procq.kind == SProcq && d.s_link.kind == SLink
    && d.s_procq.owner == d.s_link.owner == i && d.s_link.home == null
    && d.s_procq.elems == [] && d.s_procq.next == d.s_procq == d.s_procq.prev
  }

  method MakeSemds(n: nat) returns (ss: seq<SemdT>)
    ensures |ss| == n
    ensures forall i :: 0 <= i < n ==> NewSemd(ss[i], i) && fresh(ss[i]) && fresh(ss[i].s_procq) && fresh(ss[i].s_link)
  {
    ss := [];
    while |ss| < n
      invariant |ss| <= n
      invariant forall i :: 0 <= i < |ss| ==>
        NewSemd(ss[i], i) && fresh(ss[i]) && fresh(ss[i].s_procq) && fresh(ss[i].s_link)
    {
      var d := new SemdT(|ss|);
      ss := ss + [d];
    }
  }

  datatype QueuesView = QueuesView(
    pcb: seq<Pcb>, free: seq<Slot>, nextPid: int, ready: seq<Slot>, asl: map<Addr, seq<Slot>>)

  /** The static data of both files, and the ready queue they work on. */
  class Queues {
    const pcbs: seq<PcbT>      // pcbFree_table
    const semds: seq<SemdT>    // semd_table
    const pcbFree_h: ListHead
    const readyQueue: ListHead
    const semdFree_h: ListHead
    const semd_h: ListHead
    var next_pid: int

    // the nodes by kind of list: queues, process tree, descriptors
    ghost const listHeads: set<ListHead>
    ghost const listNodes: set<ListHead>
    ghost const treeHeads: set<ListHead>
    ghost const treeNodes: set<ListHead>
    ghost const linkHeads: set<ListHead>
    ghost const linkNodes: set<ListHead>
    ghost var asl: map<Addr, seq<Slot>>

    ghost predicate PcbShape() {
      && (forall i :: 0 <= i < |pcbs| ==>
            pcbs[i].slot == i && pcbs[i].p_list in listNodes &&
            pcbs[i].p_child in treeHeads && pcbs[i].p_sib in treeNodes &&
            pcbs[i].p_list.owner == pcbs[i].p_child.owner == pcbs[i].p_sib.owner == i)
      && (forall h :: h in listNodes ==> h.kind == PList && h.owner < |pcbs| && pcbs[h.owner].p_list == h)
      && (forall h :: h in treeHeads ==> h.kind == PChild && h.owner < |pcbs| && pcbs[h.owner].p_child == h)
      && (forall h :: h in treeNodes ==> h.kind == PSib && h.owner < |pcbs| && pcbs[h.owner].p_sib == h)
    }

    ghost predicate SemdShape() {
      && |semds| == |pcbs|
      && (forall d :: 0 <= d < |semds| ==>
            semds[d].index == d && semds[d].s_procq in listHeads && semds[d].s_link in linkNodes &&
            semds[d].s_procq.kind == SProcq && semds[d].s_procq.owner == semds[d].s_link.owner == d)
      && (forall h :: h in linkNodes ==> h.kind == SLink && h.owner < |semds| && semds[h.owner].s_link == h)
      && linkHeads == {semdFree_h, semd_h}
    }

    /** How the structures are laid out; none of this ever changes. */
    ghost predicate Shape() {
      && PcbShape() && SemdShape()
      && (forall h :: h in listHeads ==>
            h == pcbFree_h || h == readyQueue || (h.kind == SProcq && h.owner < |semds| && semds[h.owner].s_procq == h))
      && pcbFree_h in listHeads && readyQueue in listHeads
      && pcbFree_h.kind == Head && readyQueue.kind == Head && semdFree_h.kind == Head && semd_h.kind == Head
      && pcbFree_h.owner == 0 && readyQueue.owner == 1 && semdFree_h.owner == 2 && semd_h.owner == 3
    }

    ghost function Repr(): set<object> {
      (set p: PcbT | p in pcbs) + (set d: SemdT | d in semds)
      + listHeads + listNodes + treeHeads + treeNodes + linkHeads + linkNodes
    }

    ghost function Free(): seq<Slot> reads pcbFree_h { Owners(pcbFree_h) }
    ghost function Ready(): seq<Slot> reads readyQueue { Owners(readyQueue) }

    /** The PCB table as values. */
    ghost function Recs(): (r: seq<Pcb>)
      requires PcbShape()
      reads pcbs, treeHeads
      ensures |r| == |pcbs| && forall i :: 0 <= i < |r| ==> r[i] == pcbs[i].Rec()
    {
      seq(|pcbs|, (i: nat) requires i < |pcbs| && PcbShape() reads pcbs, treeHeads => pcbs[i].Rec())
    }

    ghost predicate Parents()
      reads pcbs
    {
      forall i :: 0 <= i < |pcbs| && pcbs[i].p_parent != null ==>
        pcbs[i].p_parent.slot < |pcbs| && pcbs[pcbs[i].p_parent.slot] == pcbs[i].p_parent
    }

    ghost predicate Listed() reads semd_h { forall n :: n in semd_h.elems ==> n in linkNodes }

    /** The keys of the active descriptors, and their queues, in the order of semd_h. */
    ghost function Keys(): (r: seq<Addr>)
      requires SemdShape() && Listed()
      reads semd_h, semds
      ensures |r| == |semd_h.elems| && forall i :: 0 <= i < |r| ==> r[i] == semds[semd_h.elems[i].owner].s_key
    {
      seq(|semd_h.elems|, (i: nat) requires i < |semd_h.elems| && SemdShape() && semd_h.elems[i] in linkNodes
        reads semd_h, semds => semds[semd_h.elems[i].owner].s_key)
    }

    ghost function Waiting(): (r: seq<seq<Slot>>)
      requires SemdShape() && Listed()
      reads semd_h, listHeads
      ensures |r| == |semd_h.elems| && forall i :: 0 <= i < |r| ==> r[i] == Owners(semds[semd_h.elems[i].owner].s_procq)
    {
      seq(|semd_h.elems|, (i: nat) requires i < |semd_h.elems| && SemdShape() && semd_h.elems[i] in linkNodes
        reads semd_h, listHeads => Owners(semds[semd_h.elems[i].owner].s_procq))
    }

    /** A descriptor is active or free; a free one has an empty queue. */
    ghost predicate Idle()
      requires SemdShape()
      reads semds, listHeads, linkNodes
    {
      forall d :: 0 <= d < |semds| ==>
        semds[d].s_link.home == semd_h || (semds[d].s_link.home == semdFree_h && semds[d].s_procq.elems == [])
    }

    ghost predicate AslOk()
      requires SemdShape()
      reads `asl, semds, listHeads, linkHeads, linkNodes
    {
      && Listed() && Represents(Keys(), Waiting(), asl) && Idle()
    }

    ghost predicate Valid()
      reads `asl, Repr()
    {
      && Shape()
      && Rings(listHeads, listNodes) && Rings(treeHeads, treeNodes) && Rings(linkHeads, linkNodes)
      && Parents() && AslOk()
    }

    /** Static storage as the program is loaded. */
    ghost predicate Raw()
      reads this, Repr()
    {
      && |semds| == |pcbs| && next_pid == 1 && asl == map[]
      && listHeads == {pcbFree_h, readyQueue} + (set d | d in semds :: d.s_procq)
      && listNodes == (set p | p in pcbs :: p.p_list)
      && treeHeads == (set p | p in pcbs :: p.p_child)
      && treeNodes == (set p | p in pcbs :: p.p_sib)
      && linkHeads == {semdFree_h, semd_h}
      && linkNodes == (set d | d in semds :: d.s_link)
      && (forall i :: 0 <= i < |pcbs| ==> pcbs[i] in pcbs && NewPcb(pcbs[i], i))
      && (forall d :: 0 <= d < |semds| ==> semds[d] in semds && NewSemd(semds[d], d))
      && NewHead(pcbFree_h, 0) && NewHead(readyQueue, 1) && NewHead(semdFree_h, 2) && NewHead(semd_h, 3)
    }

    constructor (ps: seq<PcbT>, ss: seq<SemdT>)
      requires |ss| == |ps|
      requires forall i :: 0 <= i < |ps| ==> NewPcb(ps[i], i)
      requires forall d :: 0 <= d < |ss| ==> NewSemd(ss[d], d)
      ensures Raw() && pcbs == ps && semds == ss
      ensures fresh(pcbFree_h) && fresh(readyQueue) && fresh(linkHeads)
    {
      hide NewPcb, NewSemd;
      var h0 := new ListHead(Head, 0);
      var h1 := new ListHead(Head, 1);
      var h2 := new ListHead(Head, 2);
      var h3 := new ListHead(Head, 3);
      pcbs, semds, next_pid, asl := ps, ss, 1, map[];
      pcbFree_h, readyQueue, semdFree_h, semd_h := h0, h1, h2, h3;
      listHeads := {h0, h1} + (set d | d in ss :: d.s_procq);
      listNodes := set p | p in ps :: p.p_list;
      treeHeads := set p | p in ps :: p.p_child;
      treeNodes := set p | p in ps :: p.p_sib;
      linkHeads := {h2, h3};
      linkNodes := set d | d in ss :: d.s_link;
    }

    // ---- what an operation on the queues leaves alone -----------------------

    twostate lemma TreeFrame()
      requires PcbShape() && old(Rings(treeHeads, treeNodes) && Parents())
      requires forall h :: h in treeHeads ==> unchanged(h)
      requires forall h :: h in treeNodes ==> unchanged(h)
      requires forall p :: p in pcbs ==> unchanged(p)
      ensures Rings(treeHeads, treeNodes) && Parents() && Recs() == old(Recs())
    {
      assert forall i :: 0 <= i < |pcbs| ==> pcbs[i] in pcbs;
    }

    twostate lemma LinkFrame()
      requires SemdShape() && old(Rings(linkHeads, linkNodes) && AslOk()) && asl == old(asl)
      requires forall h :: h in linkHeads ==> unchanged(h)
      requires forall h :: h in linkNodes ==> unchanged(h)
      requires forall d :: d in semds ==> unchanged(d)
      requires forall d :: 0 <= d < |semds| ==> semds[d].s_procq.elems == old(semds[d].s_procq.elems)
      ensures Rings(linkHeads, linkNodes) && AslOk()
    {
      hide Represents, PcbShape;
      assert forall d :: 0 <= d < |semds| ==> semds[d] in semds;
      assert semd_h in linkHeads;
      assert Keys() == old(Keys());
      forall i | 0 <= i < |semd_h.elems|
        ensures Owners(semds[semd_h.elems[i].owner].s_procq) == old(Owners(semds[semd_h.elems[i].owner].s_procq))
      {
      }
      assert Waiting() == old(Waiting());
    }

    /** The nodes outside the queues. */
    ghost function Others(): set<ListHead> { treeHeads + treeNodes + linkHeads + linkNodes }

    lemma OthersApart()
      requires Shape()
      ensures forall h :: h in Others() ==> h !in listHeads && h !in listNodes
      ensures forall h :: h in treeHeads ==> h in Others()
      ensures forall h :: h in treeNodes ==> h in Others()
      ensures forall h :: h in linkHeads ==> h in Others()
      ensures forall h :: h in linkNodes ==> h in Others()
    {
    }

    /** The free list or the ready queue changed, and nothing else. */
    twostate lemma ListChange(head: ListHead)
      requires old(Valid()) && Shape() && head.kind == Head && asl == old(asl)
      requires Rings(listHeads, listNodes)
      requires forall h :: h in Others() ==> unchanged(h)
      requires forall p :: p in pcbs ==> unchanged(p)
      requires forall d :: d in semds ==> unchanged(d)
      requires forall h :: h in listHeads && h != head ==> h.elems == old(h.elems)
      ensures Valid() && Recs() == old(Recs())
      ensures Free() == Owners(pcbFree_h) && Ready() == Owners(readyQueue)
      ensures head != pcbFree_h ==> Free() == old(Free())
      ensures head != readyQueue ==> Ready() == old(Ready())
    {
      hide Rings, AslOk, Parents, Recs, Others;
      OthersApart();
      TreeFrame();
      LinkFrame();
    }

    /** What the methods on the queues need of a valid state. */
    lemma QueueFacts(p: PcbT)
      requires Valid() && p in pcbs
      ensures Shape() && Rings(listHeads, listNodes)
      ensures p.p_list in listNodes && p.p_list.owner == p.slot && p.slot < |pcbs| && pcbs[p.slot] == p
      ensures pcbFree_h in listHeads && readyQueue in listHeads && pcbFree_h != readyQueue
      ensures pcbFree_h.kind == Head && readyQueue.kind == Head
      ensures forall n :: n in pcbFree_h.elems || n in readyQueue.elems ==> n in listNodes
      ensures forall n :: n in listNodes ==> n !in listHeads
      ensures Free() == Owners(pcbFree_h) && Ready() == Owners(readyQueue)
      ensures forall h :: h in Others() ==> h !in listHeads && h !in listNodes
    {
      OthersApart();
    }

    lemma RawShape()
      requires Raw()
      ensures Shape() && next_pid == 1
    {
    }

    lemma RawLists()
      requires Raw()
      ensures Rings(listHeads, listNodes) && forall n :: n in listNodes ==> n.home == null
    {
      assert forall h :: h in listHeads ==> h.elems == [] && h.next == h == h.prev;
    }

    lemma RawTree()
      requires Raw() && PcbShape()
      ensures Rings(treeHeads, treeNodes) && Parents() && Recs() == seq(|pcbs|, i => BLANK_PCB)
    {
      assert forall h :: h in treeHeads ==> h.elems == [] && h.next == h == h.prev;
    }

    lemma RawLinks()
      requires Raw()
      ensures Rings(linkHeads, linkNodes) && forall n :: n in linkNodes ==> n.home == null
    {
    }

    /** What both files' data stand for. */
    ghost function View(): QueuesView
      requires Valid()
      reads `asl, `next_pid, Repr()
    {
      Shaped();
      QueuesView(Recs(), Free(), next_pid, Ready(), asl)
    }

    lemma Shaped()
      requires Valid()
      ensures PcbShape() && SemdShape() && Shape()
    {
    }

    // ---- pcb.c: the free list and the ready queue --------------------------

    lemma ListTable()
      requires Shape()
      ensures Table(pcbs, Recs(), listNodes)
    {
    }

    method FreePcb(p: PcbT)
      requires Valid() && p in pcbs && p.p_list.home == null
      modifies listHeads, listNodes
      ensures Valid() && View() == old(View()).(free := [p.slot] + old(View()).free)
    {
      hide Valid, Shape, Rings, AslOk, Parents, Recs, Table, InsertProc, OwnersOf;
      QueueFacts(p);
      ListAdd(p.p_list, pcbFree_h, listHeads, listNodes);
      ListChange(pcbFree_h);
    }

    /** insertProcQ(&readyQueue, p). */
    method InsertReady(p: PcbT)
      requires Valid() && p in pcbs && p.p_list.home == null
      modifies listHeads, listNodes
      ensures Valid() && View() == old(View()).(ready := InsertProc(old(View()).ready, p.slot, old(View()).pcb))
    {
      hide Valid, Shape, Rings, AslOk, Parents, Recs, Table, InsertProc, OwnersOf;
      QueueFacts(p);
      ListTable();
      InsertProcQ(pcbs, readyQueue, p, Recs(), listHeads, listNodes);
      ListChange(readyQueue);
    }

    /** list_add_tail(&p->p_list, &readyQueue), as Yield does. */
    method AppendReady(p: PcbT)
      requires Valid() && p in pcbs && p.p_list.home == null
      modifies listHeads, listNodes
      ensures Valid() && View() == old(View()).(ready := old(View()).ready + [p.slot])
    {
      hide Valid, Shape, Rings, AslOk, Parents, Recs, Table, OwnersOf;
      QueueFacts(p);
      ghost var e := readyQueue.elems;
      OwnersInsert(e, |e|, p.p_list);
      assert OwnersOf(e)[..|e|] + [p.slot] + OwnersOf(e)[|e|..] == OwnersOf(e) + [p.slot];
      ListAddTail(p.p_list, readyQueue, readyQueue, |e|, listHeads, listNodes);
      ListChange(readyQueue);
    }

    lemma ReadyFacts()
      requires Valid()
      ensures Shape() && Rings(listHeads, listNodes)
      ensures pcbFree_h in listHeads && readyQueue in listHeads && pcbFree_h != readyQueue && readyQueue.kind == Head
      ensures forall n :: n in readyQueue.elems ==> n in listNodes
      ensures forall n :: n in listNodes ==> n !in listHeads
      ensures Free() == Owners(pcbFree_h) && Ready() == Owners(readyQueue)
      ensures forall h :: h in Others() ==> h !in listHeads && h !in listNodes
    {
      OthersApart();
    }

    /** removeProcQ(&readyQueue). */
    method RemoveReady() returns (p: PcbT?)
      requires Valid()
      modifies listHeads, listNodes
      ensures Valid()
      ensures old(View()).ready == [] ==> p == null && View() == old(View())
      ensures old(View()).ready != [] ==>
        && p != null && p in pcbs && p.slot == old(View()).ready[0]
        && View() == old(View()).(ready := old(View()).ready[1..])
    {
      hide Valid, Shape, Rings, AslOk, Parents, Recs, Table, OwnersOf;
      ReadyFacts();
      ListTable();
      p := RemoveProcQ(pcbs, readyQueue, Recs(), listHeads, listNodes);
      ListChange(readyQueue);
    }

    /** outProcQ(&readyQueue, p). */
    method OutReady(p: PcbT) returns (r: PcbT?)
      requires Valid() && p in pcbs
      modifies listHeads, listNodes
      ensures Valid() && View() == old(View()).(ready := Without(old(View()).ready, {p.slot}))
      ensures r == if p.slot in old(View()).ready then p else null
    {
      hide Valid, Shape, Rings, AslOk, Parents, Recs, Table, OwnersOf, Without;
      ReadyFacts();
      QueueFacts(p);
      ListTable();
      r := OutProcQ(pcbs, readyQueue, p, Recs(), listHeads, listNodes);
      ListChange(readyQueue);
    }

    predicate EmptyReady(): (b: bool)
      requires Valid()
      reads `asl, Repr()
      ensures b <==> View().ready == []
    {
      RingOf(listHeads, listNodes, readyQueue);
      EmptyIff(readyQueue);
      ListEmpty(readyQueue)
    }

    // ---- pcb.c: allocation --------------------------------------------------

    /** Only fields of p changed; its parent pointer, if any, points into the table. */
    twostate lemma FieldChange(p: PcbT)
      requires old(Valid()) && Shape() && p in pcbs && asl == old(asl)
      requires p.p_parent == null || p.p_parent in pcbs
      requires forall h :: h in listHeads ==> unchanged(h)
      requires forall h :: h in listNodes ==> unchanged(h)
      requires forall h :: h in Others() ==> unchanged(h)
      requires forall q :: q in pcbs && q != p ==> unchanged(q)
      requires forall d :: d in semds ==> unchanged(d)
      ensures Valid() && Free() == old(Free()) && Ready() == old(Ready())
      ensures Recs() == old(Recs())[p.slot := p.Rec()]
    {
      assert forall i :: 0 <= i < |pcbs| ==> pcbs[i] in pcbs;
      OthersApart();
      FieldLinks(p);
      FieldTree(p);
    }

    twostate lemma FieldLinks(p: PcbT)
      requires SemdShape() && old(Rings(linkHeads, linkNodes) && AslOk()) && asl == old(asl)
      requires forall h :: h in listHeads ==> unchanged(h)
      requires forall h :: h in linkHeads ==> unchanged(h)
      requires forall h :: h in linkNodes ==> unchanged(h)
      requires forall d :: d in semds ==> unchanged(d)
      ensures Rings(linkHeads, linkNodes) && AslOk()
    {
      LinkFrame();
    }

    twostate lemma FieldTree(p: PcbT)
      requires PcbShape() && old(Rings(treeHeads, treeNodes) && Parents()) && p in pcbs
      requires p.p_parent == null || p.p_parent in pcbs
      requires forall h :: h in treeHeads ==> unchanged(h)
      requires forall h :: h in treeNodes ==> unchanged(h)
      requires forall i :: 0 <= i < |pcbs| && pcbs[i] != p ==> unchanged(pcbs[i])
      ensures Rings(treeHeads, treeNodes) && Parents() && Recs() == old(Recs())[p.slot := p.Rec()]
    {
      assert Recs() == old(Recs())[p.slot := p.Rec()];
    }

    /** Nothing but the process tree changed. */
    twostate lemma TreeChange()
      requires old(Valid()) && Shape() && asl == old(asl)
      requires Rings(treeHeads, treeNodes) && Parents()
      requires forall h :: h in listHeads ==> unchanged(h)
      requires forall h :: h in listNodes ==> unchanged(h)
      requires forall h :: h in linkHeads ==> unchanged(h)
      requires forall h :: h in linkNodes ==> unchanged(h)
      requires forall d :: d in semds ==> unchanged(d)
      ensures Valid() && Free() == old(Free()) && Ready() == old(Ready())
    {
      LinkFrame();
    }

    /** p is in no children list. */
    ghost predicate Loose(p: Slot)
      requires PcbShape()
      reads pcbs, treeHeads
    {
      forall q: Slot :: q < |pcbs| ==> p !in Recs()[q].children
    }

    lemma SibListed(p: PcbT)
      requires PcbShape() && Rings(treeHeads, treeNodes) && p in pcbs && p.p_sib.home != null
      ensures p.p_sib.home.owner < |pcbs| && p.slot in Recs()[p.p_sib.home.owner].children
    {
      var n, h := p.p_sib, p.p_sib.home;
      var i :| 0 <= i < |h.elems| && h.elems[i] == n;
      assert Owners(h)[i] == p.slot;
      assert Recs()[h.owner].children == Owners(h);
    }

    lemma LooseSib(p: PcbT)
      requires PcbShape() && Rings(treeHeads, treeNodes) && p in pcbs && Loose(p.slot)
      ensures p.p_sib.home == null
    {
      if p.p_sib.home != null {
        SibListed(p);
      }
    }

    /** The tree's links may have been rewritten, but no list's contents changed. */
    twostate lemma RecsSame()
      requires PcbShape() && old(Parents())
      requires forall q :: q in pcbs ==> unchanged(q)
      requires forall h :: h in treeHeads ==> h.elems == old(h.elems)
      ensures Recs() == old(Recs()) && Parents()
    {
      forall i | 0 <= i < |pcbs|
        ensures pcbs[i] in pcbs && pcbs[i].Rec() == old(pcbs[i].Rec())
      {
        assert pcbs[i] in pcbs && pcbs[i].p_child in treeHeads;
      }
      assert Recs() == old(Recs());
    }

    lemma TreeFacts(p: PcbT)
      requires Valid() && p in pcbs
      ensures Shape() && Rings(treeHeads, treeNodes) && Parents()
      ensures p.slot < |pcbs| && pcbs[p.slot] == p
      ensures p.p_child in treeHeads && p.p_sib in treeNodes && p.p_sib.owner == p.slot
      ensures p.p_child.owner == p.slot && forall n :: n in treeNodes ==> n !in treeHeads
      ensures forall n :: n in p.p_child.elems ==> n in treeNodes
      ensures forall h :: h in treeHeads ==> h !in listHeads && h !in listNodes && h !in linkHeads && h !in linkNodes
      ensures forall h :: h in treeNodes ==> h !in listHeads && h !in listNodes && h !in linkHeads && h !in linkNodes
      ensures Recs()[p.slot] == p.Rec() && Owners(p.p_child) == Recs()[p.slot].children
      ensures Loose(p.slot) ==> p.p_sib.home == null
    {
      if Loose(p.slot) {
        LooseSib(p);
      }
    }

    /** The INIT_LIST_HEADs of allocPcb. */
    method InitLinks(p: PcbT)
      requires Valid() && p in pcbs && p.p_list.home == null && Loose(p.slot) && Recs()[p.slot].children == []
      modifies p.p_list, p.p_child, p.p_sib
      ensures Valid() && Recs() == old(Recs()) && Free() == old(Free()) && Ready() == old(Ready())
      ensures p.p_list.home == null
    {
      hide Valid, Shape, Rings, AslOk, Parents, Recs, Loose;
      QueueFacts(p);
      TreeFacts(p);
      InitListHead(p.p_list, listHeads, listNodes);
      ListChange(readyQueue);
      InitTreeLinks(p);
    }

    method InitTreeLinks(p: PcbT)
      requires Valid() && p in pcbs && Loose(p.slot) && Recs()[p.slot].children == []
      modifies p.p_child, p.p_sib
      ensures Valid() && Recs() == old(Recs()) && Free() == old(Free()) && Ready() == old(Ready())
    {
      hide Valid, Shape, Rings, AslOk, Loose, Recs, Parents, PcbShape;
      TreeFacts(p);
      assert Owners(p.p_child) == Recs()[p.slot].children;
      InitListHead(p.p_child, treeHeads, treeNodes);
      InitListHead(p.p_sib, treeHeads, treeNodes);
      RecsSame();
      TreeChange();
    }

    method AllocPcb() returns (p: PcbT?)
      requires Valid() && (Free() != [] ==> FreeLoose())
      modifies `next_pid, pcbs, listHeads, listNodes, treeHeads, treeNodes
      ensures Valid()
      ensures old(View()).free == [] ==> p == null && View() == old(View())
      ensures old(View()).free != [] ==>
        && p != null && p in pcbs && p.slot == old(View()).free[0] && p.p_list.home == null
        && p.slot < |old(View()).pcb|
        && View() == old(View()).(free := old(View()).free[1..], nextPid := old(View()).nextPid + 1,
             pcb := old(View()).pcb[p.slot := FreshPcb(old(View()).nextPid, Context(0, 0, 0), 0, NULL, None)])
    {
      hide Valid, Shape, PcbShape, Rings, AslOk, Parents, Recs, Table, Loose, OwnersOf;
      ReadyFacts();
      p := TakeFree();
      if p == null {
        return;
      }
      QueueFacts(p);
      TreeFacts(p);
      InitLinks(p);
      ResetFields(p);
    }

    /** removeProcQ(&pcbFree_h). */
    method TakeFree() returns (p: PcbT?)
      requires Valid()
      modifies listHeads, listNodes
      ensures Valid() && Recs() == old(Recs()) && Ready() == old(Ready())
      ensures if old(Free()) == [] then p == null && Free() == []
              else
                && p != null && p in pcbs && p.p_list.home == null
                && p.slot == old(Free())[0] && Free() == old(Free())[1..]
    {
      hide Valid, Shape, PcbShape, Rings, AslOk, Parents, Recs, Table, OwnersOf;
      ReadyFacts();
      ListTable();
      p := RemoveProcQ(pcbs, pcbFree_h, Recs(), listHeads, listNodes);
      ListChange(pcbFree_h);
    }

    /** The head of the free list has no children and is nobody's child. */
    ghost predicate FreeLoose()
      requires PcbShape() && Free() != []
      reads pcbFree_h, pcbs, treeHeads
    {
      Free()[0] < |pcbs| && Loose(Free()[0]) && Recs()[Free()[0]].children == []
    }

    /** The field assignments of allocPcb. */
    method ResetFields(p: PcbT)
      requires Valid() && p in pcbs && Recs()[p.slot].children == []
      modifies p, `next_pid
      ensures Valid() && Free() == old(Free()) && Ready() == old(Ready()) && p.p_list.home == old(p.p_list.home)
      ensures Recs() == old(Recs())[p.slot := FreshPcb(old(next_pid), Context(0, 0, 0), 0, NULL, None)]
      ensures next_pid == old(next_pid) + 1
    {
      hide Valid, Shape, PcbShape, Rings, AslOk, Parents, Recs;
      TreeFacts(p);
      p.p_parent := null;
      p.p_semAdd := NULL;
      p.p_supportStruct := NULL;
      p.p_time := 0;
      p.p_prio := 0;
      p.p_s := Context(0, 0, 0);
      p.p_pid := next_pid;
      next_pid := next_pid + 1;
      FieldChange(p);
    }

    // ---- pcb.c: the process tree --------------------------------------------

    predicate EmptyChild(p: PcbT): (b: bool)
      requires Valid() && p in pcbs
      reads `asl, Repr()
      ensures p.slot < |View().pcb| && (b <==> View().pcb[p.slot].children == [])
    {
      TreeFacts(p);
      RingOf(treeHeads, treeNodes, p.p_child);
      EmptyIff(p.p_child);
      ListEmpty(p.p_child)
    }

    /** Only p's fields and q's children list changed. */
    twostate lemma TreeEdit(p: PcbT, new q: PcbT, new was: seq<Pcb>)
      requires PcbShape() && old(Parents())
      requires was == old(Recs())
      requires p in pcbs
      requires q in pcbs
      requires p.p_parent == null || p.p_parent in pcbs
      requires forall r :: r in pcbs && r != p ==> unchanged(r)
      requires forall h :: h in treeHeads && h != q.p_child ==> h.elems == old(h.elems)
      ensures Parents()
      ensures Recs() == was[p.slot := p.Rec()][q.slot := q.Rec()]
    {
      forall i | 0 <= i < |pcbs| && pcbs[i] != p && pcbs[i] != q
        ensures pcbs[i].Rec() == old(pcbs[i].Rec())
      {
        assert pcbs[i] in pcbs && pcbs[i].p_child in treeHeads;
      }
      forall i | 0 <= i < |pcbs|
        ensures pcbs[i].p_parent == null || pcbs[i].p_parent in pcbs
      {
        assert pcbs[i] in pcbs;
      }
      assert Recs() == was[p.slot := p.Rec()][q.slot := q.Rec()];
    }

    method InsertChild(prnt: PcbT, p: PcbT)
      requires Valid() && prnt in pcbs && p in pcbs && p != prnt && Loose(p.slot)
      modifies p, treeHeads, treeNodes
      ensures Valid() && prnt.slot < |old(View()).pcb| && p.slot < |old(View()).pcb| && prnt.slot != p.slot
      ensures View() == old(View()).(pcb := Adopt(old(View()).pcb, prnt.slot, p.slot))
    {
      hide Valid, Shape, PcbShape, Rings, AslOk, Parents, Recs, Loose, OwnersOf;
      TreeFacts(p);
      TreeFacts(prnt);
      ghost var e, was := prnt.p_child.elems, Recs();
      OwnersTail(e, p.p_sib);
      p.p_parent := prnt;
      ListAddTail(p.p_sib, prnt.p_child, prnt.p_child, |e|, treeHeads, treeNodes);
      TreeEdit(p, prnt, was);
      TreeChange();
    }

    /** p's place among c's children. */
    lemma SibPlace(c: PcbT, p: PcbT) returns (i: nat)
      requires PcbShape() && Rings(treeHeads, treeNodes) && c in pcbs && p in pcbs
      requires p.slot in Recs()[c.slot].children
      ensures i < |c.p_child.elems| && c.p_child.elems[i] == p.p_sib && p.p_sib.home == c.p_child
      ensures NoDup(Owners(c.p_child)) && Owners(c.p_child)[i] == p.slot
    {
      assert Recs()[c.slot].children == Owners(c.p_child);
      i :| 0 <= i < |c.p_child.elems| && Owners(c.p_child)[i] == p.slot;
      assert c.p_child in treeHeads && c.p_child.Ring();
      assert c.p_child.elems[i] in treeNodes;
      forall j, k | 0 <= j < k < |c.p_child.elems|
        ensures c.p_child.elems[j].owner != c.p_child.elems[k].owner
      {
        assert c.p_child.elems[j] in treeNodes && c.p_child.elems[k] in treeNodes;
      }
    }

    /** list_del of p's p_sib and the clearing of its parent pointer. */
    method Unlink(c: PcbT, p: PcbT)
      requires Valid() && c in pcbs && p in pcbs && p != c && p.slot in Recs()[c.slot].children
      modifies p, treeHeads, treeNodes
      ensures Valid() && Free() == old(Free()) && Ready() == old(Ready())
      ensures Recs() == Orphan(old(Recs()), c.slot, p.slot)
    {
      hide Valid, Shape, PcbShape, Rings, AslOk, Parents, Recs, OwnersOf, Without;
      TreeFacts(p);
      TreeFacts(c);
      ghost var i := SibPlace(c, p);
      ghost var e, was := c.p_child.elems, Recs();
      OwnersRemove(e, i);
      WithoutOne(OwnersOf(e), i);
      CutSib(p, c.p_child, i);
      p.p_parent := null;
      TreeEdit(p, c, was);
      TreeChange();
    }

    /** list_del(&p->p_sib), as a change of the tree's nodes. */
    method CutSib(p: PcbT, ghost head: ListHead, ghost i: nat)
      requires Rings(treeHeads, treeNodes) && head in treeHeads && i < |head.elems| && p.p_sib == head.elems[i]
      requires forall n :: n in treeNodes ==> n !in treeHeads
      modifies treeHeads, treeNodes
      ensures Rings(treeHeads, treeNodes)
      ensures head.elems == old(head.elems[..i]) + old(head.elems[i + 1..])
      ensures forall h :: h in treeHeads && h != head ==> h.elems == old(h.elems)
    {
      RingOf(treeHeads, treeNodes, head);
      hide Rings;
      ListDel(p.p_sib, head, i, treeHeads, treeNodes);
    }

    lemma FirstSib(p: PcbT)
      requires Valid() && p in pcbs && Recs()[p.slot].children != []
      ensures p.p_child.next.owner < |pcbs| && pcbs[p.p_child.next.owner].slot == Recs()[p.slot].children[0]
    {
      hide AslOk, Parents, SemdShape;
      TreeFacts(p);
      RingOf(treeHeads, treeNodes, p.p_child);
      RingLinks(p.p_child, 0);
      assert p.p_child.elems[0] in treeNodes;
    }

    /** removeChild: p's first child, which loses its parent. */
    method RemoveChild(p: PcbT) returns (c: PcbT?)
      requires Valid() && p in pcbs && p.slot < |View().pcb| && p.slot !in View().pcb[p.slot].children
      modifies pcbs, treeHeads, treeNodes
      ensures Valid()
      ensures old(View()).pcb[p.slot].children == [] ==> c == null && View() == old(View())
      ensures old(View()).pcb[p.slot].children != [] ==>
        && c != null && c in pcbs && c.slot == old(View()).pcb[p.slot].children[0]
        && c.slot != p.slot && c.slot < |old(View()).pcb|
        && View() == old(View()).(pcb := Orphan(old(View()).pcb, p.slot, c.slot))
    {
      hide Valid, Shape, PcbShape, Rings, AslOk, Parents, Recs, OwnersOf, Without;
      TreeFacts(p);
      ViewIs();
      if EmptyChild(p) {
        return null;
      }
      FirstSib(p);
      c := pcbs[p.p_child.next.owner];
      assert c.slot in Recs()[p.slot].children;
      RecOf(c);
      Unlink(p, c);
    }

    /** outChild: p leaves its parent's children. */
    method OutChild(p: PcbT) returns (r: PcbT?)
      requires Valid() && p in pcbs && p.slot < |View().pcb|
      requires View().pcb[p.slot].parent.Some? ==>
        var c := View().pcb[p.slot].parent.value;
        c < |View().pcb| && c != p.slot && p.slot in View().pcb[c].children
      modifies p, treeHeads, treeNodes
      ensures Valid()
      ensures old(View()).pcb[p.slot].parent == None ==> r == null && View() == old(View())
      ensures old(View()).pcb[p.slot].parent.Some? ==>
        r == p && View() == old(View()).(pcb := Orphan(old(View()).pcb, old(View()).pcb[p.slot].parent.value, p.slot))
    {
      hide Valid, Shape, Rings, AslOk, OwnersOf, Without;
      TreeFacts(p);
      assert Recs()[p.slot] == p.Rec();
      if p.p_parent == null {
        return null;
      }
      assert p.p_parent in pcbs;
      Unlink(p.p_parent, p);
      r := p;
    }

    /** Where a walk along the children ch of p stands at place i. */
    ghost function SibAt(p: PcbT, ch: seq<Slot>, i: nat): ListHead
      requires forall c :: c in ch ==> c < |pcbs|
    {
      if i < |ch| then assert ch[i] in ch; pcbs[ch[i]].p_sib else p.p_child
    }

    lemma SibWalk(p: PcbT, ch: seq<Slot>, i: nat)
      requires Valid() && p in pcbs && p.slot < |View().pcb| && ch == View().pcb[p.slot].children && i <= |ch|
      ensures forall c :: c in ch ==> c < |pcbs|
      ensures i == 0 ==> p.p_child.next == SibAt(p, ch, 0)
      ensures i < |ch| ==> var s := SibAt(p, ch, i);
        && s != p.p_child && s.owner == ch[i] && pcbs[ch[i]] in pcbs && pcbs[ch[i]].slot == ch[i]
        && s.next == SibAt(p, ch, i + 1)
    {
      TreeFacts(p);
      RingOf(treeHeads, treeNodes, p.p_child);
      var e := p.p_child.elems;
      assert ch == Owners(p.p_child);
      forall j | 0 <= j < |e|
        ensures ch[j] < |pcbs| && pcbs[ch[j]].p_sib == e[j] && pcbs[ch[j]].slot == ch[j] && e[j].owner == ch[j]
      {
        assert e[j] in treeNodes;
      }
      RingLinks(p.p_child, i);
    }

    // ---- asl.c --------------------------------------------------------------

    /** Both descriptor lists, and the descriptors on them. */
    lemma LinkFacts()
      requires Shape() && Rings(linkHeads, linkNodes)
      ensures semd_h in linkHeads && semdFree_h in linkHeads && semd_h != semdFree_h
      ensures semd_h.Ring() && semdFree_h.Ring() && Listed()
      ensures forall n :: n in linkNodes ==> n.owner < |semds| && semds[n.owner].s_link == n && n !in linkHeads
      ensures forall n :: n in semdFree_h.elems ==> n in linkNodes
    {
    }

    lemma LinksApart()
      requires Shape()
      ensures forall h :: h in linkHeads ==> h !in listHeads && h !in listNodes && h !in treeHeads && h !in treeNodes
      ensures forall h :: h in linkNodes ==> h !in listHeads && h !in listNodes && h !in treeHeads && h !in treeNodes
    {
    }

    /** The descriptor in the i-th place of semd_h. */
    ghost function At(i: nat): (d: SemdT)
      requires SemdShape() && Listed() && i < |semd_h.elems|
      reads semd_h
      ensures d in semds && d.s_link == semd_h.elems[i] && d.index < |semds| && semds[d.index] == d
      ensures d.s_procq in listHeads
      ensures d.s_procq.kind == SProcq
    {
      assert semd_h.elems[i] in semd_h.elems;
      semds[semd_h.elems[i].owner]
    }

    /** A descriptor's key and queue show at its place. */
    lemma AtShows(i: nat)
      requires SemdShape() && Listed() && i < |semd_h.elems|
      ensures Keys()[i] == At(i).s_key && Waiting()[i] == Owners(At(i).s_procq)
    {
    }

    lemma BothRings()
      requires Valid()
      ensures Shape() && SemdShape() && Rings(linkHeads, linkNodes) && Rings(listHeads, listNodes)
    {
    }

    lemma AslFacts()
      requires Valid()
      ensures Shape() && Rings(linkHeads, linkNodes) && Rings(listHeads, listNodes) && Listed()
      ensures Rings(treeHeads, treeNodes) && Parents()
      ensures Represents(Keys(), Waiting(), asl) && Idle()
    {
    }

    /** What a walk along semd_h meets at place i. */
    ghost predicate LinkAt(i: nat)
      requires SemdShape() && Listed()
      reads semd_h, linkNodes, semds
    {
      i < |semd_h.elems| ==>
        var l := Succ(semd_h, semd_h.elems, i);
        && l in linkNodes && l != semd_h && l.next == Succ(semd_h, semd_h.elems, i + 1)
        && l.owner < |semds| && semds[l.owner] == At(i) && Keys()[i] == At(i).s_key
    }

    lemma LinkWalk()
      requires Shape() && Rings(linkHeads, linkNodes) && Listed() && SemdShape()
      ensures semd_h.next == Succ(semd_h, semd_h.elems, 0)
      ensures forall i: nat :: i <= |semd_h.elems| ==> LinkAt(i)
    {
      LinkFacts();
      RingLinks(semd_h, 0);
      forall i: nat | i < |semd_h.elems|
        ensures LinkAt(i)
      {
        RingLinks(semd_h, i);
        assert semd_h.elems[i] in semd_h.elems;
      }
    }

    lemma KeysActive()
      requires Valid()
      ensures SemdShape() && Listed() && |Keys()| == |semd_h.elems|
      ensures forall j :: 0 <= j < |Keys()| ==> Keys()[j] in asl
    {
    }

    /** getSemd: the active descriptor of a, and its place in semd_h. */
    method GetSemd(a: Addr) returns (d: SemdT?, ghost i: nat)
      requires Valid()
      ensures Valid() && SemdShape() && Listed() && View() == old(View())
      ensures d == null ==> a !in asl
      ensures d != null ==> a in asl && i < |semd_h.elems| && d == At(i) && d.s_key == a
    {
      hide Valid, Shape, SemdShape, Listed, Rings, Represents, Idle, At, Keys, Waiting, View, PcbShape, Parents, AslOk;
      AslFacts();
      KeysActive();
      LinkWalk();
      ghost var e, keys, queues := semd_h.elems, Keys(), Waiting();
      i := 0;
      var iter := semd_h.next;
      while iter != semd_h
        invariant i <= |e| && iter == Succ(semd_h, e, i)
        invariant i > 0 ==> keys[i - 1] < a
        decreases |e| - i
      {
        assert LinkAt(i);
        d := semds[iter.owner];
        assert keys[i] == d.s_key && keys[i] in asl;
        if d.s_key == a {
          return;
        }
        if d.s_key > a {
          break;
        }
        iter := iter.next;
        i := i + 1;
      }
      assert LinkAt(i);
      EarlyExit(keys, queues, asl, i, a);
      d := null;
    }

    /** insertBlocked's search: the first active descriptor with a higher key, or the sentinel. */
    method FirstAbove(a: Addr) returns (iter: ListHead, ghost i: nat)
      requires Shape() && SemdShape() && Rings(linkHeads, linkNodes) && Listed()
      ensures i <= |semd_h.elems| && iter == Succ(semd_h, semd_h.elems, i)
      ensures (forall j :: 0 <= j < i ==> Keys()[j] <= a) && (i < |Keys()| ==> Keys()[i] > a)
    {
      hide Shape, SemdShape, Listed, Rings;
      LinkWalk();
      ghost var e, keys := semd_h.elems, Keys();
      i := 0;
      iter := semd_h.next;
      while iter != semd_h
        invariant i <= |e| && iter == Succ(semd_h, e, i)
        invariant forall j :: 0 <= j < i ==> keys[j] <= a
        decreases |e| - i
      {
        assert LinkAt(i);
        if semds[iter.owner].s_key > a {
          return;
        }
        iter := iter.next;
        i := i + 1;
      }
      assert LinkAt(i);
    }

    /** As Valid, but descriptor d is on neither list. */
    ghost predicate Taken(d: SemdT)
      reads `asl, Repr(), d, d.s_link, d.s_procq
    {
      && Shape() && SemdShape()
      && Rings(listHeads, listNodes) && Rings(treeHeads, treeNodes) && Rings(linkHeads, linkNodes)
      && Parents() && Listed() && Represents(Keys(), Waiting(), asl)
      && d in semds && d.s_link.home == null && d.s_procq.elems == [] && IdleBut(d)
    }

    ghost predicate IdleBut(d: SemdT)
      requires SemdShape()
      reads semds, listHeads, linkNodes
    {
      forall j :: 0 <= j < |semds| && semds[j] != d ==>
        semds[j].s_link.home == semd_h || (semds[j].s_link.home == semdFree_h && semds[j].s_procq.elems == [])
    }

    /** As Valid, but the queue of the i-th active descriptor is being changed. */
    ghost predicate Open(i: nat)
      reads `asl, Repr()
    {
      && Shape() && SemdShape()
      && Rings(listHeads, listNodes) && Rings(treeHeads, treeNodes) && Rings(linkHeads, linkNodes)
      && Parents() && Listed() && Idle() && RepresentsBut(Keys(), Waiting(), asl, i)
    }

    twostate lemma KeysSame()
      requires SemdShape() && old(Listed()) && semd_h.elems == old(semd_h.elems)
      requires forall d :: d in semds ==> d.s_key == old(d.s_key)
      requires forall h :: h in listHeads ==> h.elems == old(h.elems)
      ensures Listed() && Keys() == old(Keys()) && Waiting() == old(Waiting())
    {
      forall i | 0 <= i < |semd_h.elems|
        ensures At(i).s_key == old(At(i).s_key) && Owners(At(i).s_procq) == old(Owners(At(i).s_procq))
      {
        AtShows(i);
      }
      assert forall i :: 0 <= i < |semd_h.elems| ==> At(i) == semds[semd_h.elems[i].owner];
      assert Keys() == old(Keys());
      assert Waiting() == old(Waiting());
    }

    lemma FirstFree()
      requires Valid() && semdFree_h.elems != []
      ensures semdFree_h.next.owner < |semds|
      ensures var d := semds[semdFree_h.next.owner];
        && d.s_link == semdFree_h.elems[0] && d.s_procq.elems == [] && d.s_procq in listHeads && d.s_procq !in listNodes
        && d.s_procq !in treeHeads && d.s_procq !in treeNodes
        && d.s_link in linkNodes && d.s_link !in linkHeads && d in semds
    {
      AslFacts();
      LinkFacts();
      RingLinks(semdFree_h, 0);
      assert semdFree_h.elems[0] in semdFree_h.elems;
      assert semdFree_h.elems[0].home == semdFree_h;
    }

    /** The first free descriptor leaves the free list. */
    method TakeDescriptor() returns (d: SemdT)
      requires Valid() && semdFree_h.elems != []
      modifies listHeads, linkHeads, linkNodes
      ensures Taken(d) && Recs() == old(Recs())
      ensures forall h :: h in listHeads ==> h.elems == old(h.elems)
      ensures forall n :: n in listNodes ==> n.home == old(n.home)
    {
      hide Valid, Shape, SemdShape, Rings, Represents, ListHead.Ring, Idle, IdleBut, Listed, Taken, Parents;
      BothRings();
      LinkFacts();
      LinksApart();
      FirstFree();
      d := semds[semdFree_h.next.owner];
      ListDel(d.s_link, semdFree_h, 0, linkHeads, linkNodes);
      InitDescriptor(d);
      TakenFrom(d);
    }

    method InitDescriptor(d: SemdT)
      requires Rings(listHeads, listNodes) && Rings(linkHeads, linkNodes)
      requires d.s_procq in listHeads && d.s_procq !in listNodes && d.s_procq !in linkHeads && d.s_procq !in linkNodes
      requires d.s_link in linkNodes && d.s_link !in linkHeads && d.s_link !in listHeads && d.s_link !in listNodes
      requires d.s_procq.elems == [] && d.s_link.home == null
      modifies d.s_procq, d.s_link
      ensures Rings(listHeads, listNodes) && Rings(linkHeads, linkNodes)
      ensures d.s_procq.elems == [] && d.s_link.home == null
    {
      hide Rings;
      InitListHead(d.s_procq, listHeads, listNodes);
      InitListHead(d.s_link, linkHeads, linkNodes);
    }

    /** Nothing but the free descriptor list changed, which d left. */
    twostate lemma TakenFrom(d: SemdT)
      requires old(Valid()) && Shape() && SemdShape() && asl == old(asl)
      requires Rings(listHeads, listNodes) && Rings(linkHeads, linkNodes)
      requires forall h :: h in treeHeads ==> unchanged(h)
      requires forall h :: h in treeNodes ==> unchanged(h)
      requires forall p :: p in pcbs ==> unchanged(p)
      requires forall d :: d in semds ==> unchanged(d)
      requires forall h :: h in listHeads ==> h.elems == old(h.elems)
      requires forall n :: n in linkNodes && n != d.s_link ==> n.home == old(n.home)
      requires semd_h.elems == old(semd_h.elems)
      requires d in semds && d.s_link.home == null && d.s_procq.elems == []
      ensures Taken(d) && Recs() == old(Recs())
    {
      hide Rings, Represents, Idle, IdleBut, Parents, Recs, Keys, Waiting;
      TreeFrame();
      TakenIdle(d);
      KeysSame();
    }

    twostate lemma TakenIdle(d: SemdT)
      requires SemdShape() && old(Idle()) && d in semds
      requires forall n :: n in linkNodes && n != d.s_link ==> n.home == old(n.home)
      requires forall h :: h in listHeads ==> h.elems == old(h.elems)
      ensures IdleBut(d)
    {
    }

    lemma TakenFacts(d: SemdT)
      requires Taken(d)
      ensures Shape() && SemdShape() && Listed() && Rings(linkHeads, linkNodes)
      ensures semd_h in linkHeads && d.s_link in linkNodes && d.s_link !in linkHeads && d in semds
      ensures d.s_procq in listHeads && d.s_procq.elems == [] && d.s_link.home == null
      ensures d.s_link !in semd_h.elems
    {
    }

    /** The key of a descriptor that is not on semd_h is no active key. */
    twostate lemma KeysKeep(d: SemdT)
      requires SemdShape() && old(Listed()) && semd_h.elems == old(semd_h.elems) && d.s_link !in semd_h.elems
      requires forall x :: x in semds && x != d ==> x.s_key == old(x.s_key)
      ensures Listed() && Keys() == old(Keys())
    {
      forall i | 0 <= i < |semd_h.elems|
        ensures semds[semd_h.elems[i].owner].s_key == old(semds[semd_h.elems[i].owner].s_key)
      {
        assert At(i) != d;
      }
      assert Keys() == old(Keys());
    }

    /** d took place i of semd_h: what another place shows. */
    twostate lemma PutShows(d: SemdT, new i: nat, new j: nat, new o: nat)
      requires SemdShape() && old(Listed()) && Listed()
      requires old(d.s_link !in semd_h.elems) && i <= old(|semd_h.elems|)
      requires semd_h.elems == old(semd_h.elems[..i]) + [d.s_link] + old(semd_h.elems[i..])
      requires forall x :: x in semds && x != d ==> x.s_key == old(x.s_key)
      requires forall h :: h in listHeads ==> h.elems == old(h.elems)
      requires j != i && j < |semd_h.elems| && o == if j < i then j else j - 1
      ensures Keys()[j] == old(Keys())[o] && Waiting()[j] == old(Waiting())[o]
    {
      var n := semd_h.elems[j];
      assert n == old(semd_h.elems[o]) && n in old(semd_h.elems) && n in linkNodes;
      var x := semds[n.owner];
      assert x in semds && x != d && x.s_procq in listHeads;
    }

    /** d took place i of semd_h: the others moved up or stayed. */
    twostate lemma PutPlaces(d: SemdT, new i: nat, new a: Addr)
      requires SemdShape() && old(Listed()) && d in semds
      requires old(d.s_link !in semd_h.elems) && i <= old(|semd_h.elems|)
      requires semd_h.elems == old(semd_h.elems[..i]) + [d.s_link] + old(semd_h.elems[i..])
      requires forall x :: x in semds && x != d ==> x.s_key == old(x.s_key)
      requires forall h :: h in listHeads ==> h.elems == old(h.elems)
      requires d.s_key == a && d.s_procq.elems == []
      ensures Listed() && At(i) == d && Keys()[i] == a && Waiting()[i] == []
      ensures forall j :: 0 <= j < |semd_h.elems| && j != i ==>
        var o := if j < i then j else j - 1; Keys()[j] == old(Keys())[o] && Waiting()[j] == old(Waiting())[o]
    {
      assert semd_h.elems[i] == d.s_link && d.s_link in linkNodes;
      assert Listed();
      AtShows(i);
      forall j | 0 <= j < |semd_h.elems| && j != i
        ensures var o := if j < i then j else j - 1; Keys()[j] == old(Keys())[o] && Waiting()[j] == old(Waiting())[o]
      {
        PutShows(d, i, j, if j < i then j else j - 1);
      }
    }

    twostate lemma KeysPut(d: SemdT, new i: nat, new a: Addr)
      requires SemdShape() && old(Listed()) && d in semds
      requires old(d.s_link !in semd_h.elems) && i <= old(|semd_h.elems|)
      requires semd_h.elems == old(semd_h.elems[..i]) + [d.s_link] + old(semd_h.elems[i..])
      requires forall x :: x in semds && x != d ==> x.s_key == old(x.s_key)
      requires forall h :: h in listHeads ==> h.elems == old(h.elems)
      requires d.s_key == a && d.s_procq.elems == []
      ensures Listed() && At(i) == d
      ensures Keys() == old(Keys())[..i] + [a] + old(Keys())[i..]
      ensures Waiting() == old(Waiting())[..i] + [[]] + old(Waiting())[i..]
    {
      hide SemdShape, Keys, Waiting, At, Listed;
      PutPlaces(d, i, a);
      assert Keys() == old(Keys())[..i] + [a] + old(Keys())[i..];
      assert Waiting() == old(Waiting())[..i] + [[]] + old(Waiting())[i..];
    }

    /** Descriptor d went from nowhere to place i of semd_h, under the new key a. */
    twostate lemma PutAway(d: SemdT, new i: nat, new a: Addr)
      requires old(Taken(d)) && Shape() && SemdShape() && asl == old(asl) && a !in asl
      requires i <= old(|semd_h.elems|)
      requires semd_h.elems == old(semd_h.elems[..i]) + [d.s_link] + old(semd_h.elems[i..])
      requires (forall j :: 0 <= j < i ==> old(Keys())[j] <= a) && (i < |old(Keys())| ==> old(Keys())[i] > a)
      requires Rings(linkHeads, linkNodes) && d.s_link.home == semd_h && d.s_key == a
      requires forall n :: n in linkNodes && n != d.s_link ==> n.home == old(n.home)
      requires forall x :: x in semds && x != d ==> unchanged(x)
      requires forall h :: h in listHeads ==> unchanged(h)
      requires forall h :: h in listNodes ==> unchanged(h)
      requires forall h :: h in treeHeads ==> unchanged(h)
      requires forall h :: h in treeNodes ==> unchanged(h)
      requires forall p :: p in pcbs ==> unchanged(p)
      ensures Open(i) && At(i) == d && Recs() == old(Recs()) && d.s_procq.elems == []
    {
      hide Represents, RepresentsBut, Recs, Keys, Waiting, Parents;
      assert d.s_procq in listHeads;
      TreeFrame();
      KeysPut(d, i, a);
      KeyInserted(old(Keys()), old(Waiting()), asl, i, a);
    }

    /** The ordered insertion of a descriptor for a. */
    method PutDescriptor(d: SemdT, a: Addr) returns (ghost i: nat)
      requires Taken(d) && a !in asl
      modifies d, linkHeads, linkNodes
      ensures Open(i) && i < |semd_h.elems| && At(i) == d && d.s_key == a
      ensures d.s_procq.elems == [] && Recs() == old(Recs())
      ensures forall h :: h in listHeads ==> h.elems == old(h.elems)
      ensures forall n :: n in listNodes ==> n.home == old(n.home)
    {
      hide Shape, SemdShape, Rings, Represents, RepresentsBut, Idle, IdleBut, Listed, Taken, Parents, Open;
      TakenFacts(d);
      LinksApart();
      ghost var e := semd_h.elems;
      d.s_key := a;
      KeysKeep(d);
      var iter;
      iter, i := FirstAbove(a);
      ListAddTail(d.s_link, iter, semd_h, i, linkHeads, linkNodes);
      PutAway(d, i, a);
    }

    lemma OpenAt(i: nat)
      requires Valid() && SemdShape() && Listed() && i < |semd_h.elems|
      ensures Open(i) && At(i).s_key in asl && Owners(At(i).s_procq) == asl[At(i).s_key]
    {
      AtShows(i);
      QueueOpened(Keys(), Waiting(), asl, i);
    }

    lemma OpenFacts(i: nat)
      requires Open(i)
      ensures Shape() && SemdShape() && PcbShape() && Listed() && i < |semd_h.elems|
      ensures Rings(listHeads, listNodes) && Rings(treeHeads, treeNodes) && Rings(linkHeads, linkNodes) && Parents()
      ensures At(i).s_procq in listHeads && At(i).s_procq !in listNodes
      ensures At(i).s_procq != pcbFree_h && At(i).s_procq != readyQueue && At(i).s_link.home == semd_h
      ensures forall n :: n in At(i).s_procq.elems ==> n in listNodes
      ensures forall h :: h in Others() ==> h !in listHeads && h !in listNodes
    {
      OthersApart();
      assert semd_h.elems[i] in semd_h.elems;
    }

    /** Nothing but the queue of the i-th active descriptor changed. */
    twostate lemma OpenKept(new i: nat)
      requires old(Open(i)) && Shape() && SemdShape() && asl == old(asl)
      requires Rings(listHeads, listNodes)
      requires forall h :: h in Others() ==> unchanged(h)
      requires forall p :: p in pcbs ==> unchanged(p)
      requires forall d :: d in semds ==> unchanged(d)
      requires forall h :: h in listHeads && h != old(At(i).s_procq) ==> h.elems == old(h.elems)
      ensures Open(i) && At(i) == old(At(i)) && At(i).s_key == old(At(i).s_key) && Recs() == old(Recs())
    {
      hide Rings, Represents, Recs, Parents;
      OthersApart();
      TreeFrame();
      QueueKept(i);
    }

    twostate lemma LinkRingKept()
      requires Shape() && old(Rings(linkHeads, linkNodes))
      requires forall h :: h in linkHeads ==> unchanged(h)
      requires forall h :: h in linkNodes ==> unchanged(h)
      ensures Rings(linkHeads, linkNodes) && semd_h in linkHeads && semd_h.Ring()
    {
      RingOf(linkHeads, linkNodes, semd_h);
    }

    twostate lemma QueuesSame(new i: nat)
      requires Shape() && SemdShape() && old(Listed() && Idle()) && i < old(|semd_h.elems|)
      requires old(Rings(linkHeads, linkNodes))
      requires forall h :: h in linkHeads ==> unchanged(h)
      requires forall h :: h in linkNodes ==> unchanged(h)
      requires forall d :: d in semds ==> unchanged(d)
      requires forall h :: h in listHeads && h != old(At(i).s_procq) ==> h.elems == old(h.elems)
      ensures Listed() && Idle() && Rings(linkHeads, linkNodes)
      ensures Keys() == old(Keys()) && |Waiting()| == old(|Waiting()|)
      ensures forall j :: 0 <= j < |Waiting()| && j != i ==> Waiting()[j] == old(Waiting())[j]
    {
      assert forall d :: 0 <= d < |semds| ==> semds[d] in semds;
      LinkRingKept();
      assert semd_h.elems[i] in semd_h.elems;
      assert Keys() == old(Keys());
      forall j | 0 <= j < |semd_h.elems| && j != i
        ensures Waiting()[j] == old(Waiting())[j]
      {
        assert semd_h.elems[j] in semd_h.elems;
        AtShows(j);
      }
    }

    twostate lemma QueueKept(new i: nat)
      requires Shape() && SemdShape() && old(Listed() && Idle()) && i < old(|semd_h.elems|) && asl == old(asl)
      requires old(RepresentsBut(Keys(), Waiting(), asl, i)) && old(Rings(linkHeads, linkNodes))
      requires forall h :: h in linkHeads ==> unchanged(h)
      requires forall h :: h in linkNodes ==> unchanged(h)
      requires forall d :: d in semds ==> unchanged(d)
      requires forall h :: h in listHeads && h != old(At(i).s_procq) ==> h.elems == old(h.elems)
      ensures Listed() && Idle() && RepresentsBut(Keys(), Waiting(), asl, i) && Rings(linkHeads, linkNodes)
    {
      hide Shape, SemdShape, Listed, Idle, Rings, Keys, Waiting, At, RepresentsBut;
      QueuesSame(i);
      OneQueueChanged(Keys(), old(Waiting()), Waiting(), asl, i);
    }

    /** The queue of the i-th active descriptor is not empty: asl takes note of it. */
    ghost method CloseQueue(i: nat)
      requires Open(i) && i < |semd_h.elems| && SemdShape() && Listed() && PcbShape() && At(i).s_procq.elems != []
      modifies `asl
      ensures Valid() && Recs() == old(Recs())
      ensures asl == SetQ(old(asl), At(i).s_key, Owners(At(i).s_procq))
    {
      hide Rings, Represents, RepresentsBut, Parents, Idle, PcbShape;
      AtShows(i);
      QueueClosed(Keys(), Waiting(), asl, i);
      asl := SetQ(asl, At(i).s_key, Owners(At(i).s_procq));
    }

    /** The queue of the i-th active descriptor ran empty: the descriptor goes to the free list. */
    method Release(d: SemdT, ghost i: nat)
      requires Open(i) && i < |semd_h.elems| && SemdShape() && Listed() && PcbShape() && d == At(i)
      requires d.s_procq.elems == []
      modifies `asl, linkHeads, linkNodes
      ensures Valid() && Recs() == old(Recs()) && asl == SetQ(old(asl), old(d.s_key), [])
      ensures forall h :: h in listHeads ==> h.elems == old(h.elems)
      ensures forall n :: n in listNodes ==> n.home == old(n.home)
    {
      hide Shape, SemdShape, PcbShape, Rings, Represents, RepresentsBut, Idle, Listed, Valid, Parents, Open, Recs;
      OpenFacts(i);
      LinksApart();
      MoveLink(d, i);
      asl := SetQ(asl, d.s_key, []);
      Released(d, i);
    }

    /** list_del and list_add of d's link: from semd_h to semdFree_h. */
    method MoveLink(d: SemdT, ghost i: nat)
      requires Shape() && SemdShape() && Rings(linkHeads, linkNodes) && Listed() && i < |semd_h.elems| && d == At(i)
      modifies linkHeads, linkNodes
      ensures Rings(linkHeads, linkNodes) && d.s_link.home == semdFree_h
      ensures semd_h.elems == old(semd_h.elems[..i]) + old(semd_h.elems[i + 1..])
      ensures forall n :: n in linkNodes && n != d.s_link ==> n.home == old(n.home)
    {
      hide Shape, SemdShape, Rings, Listed;
      LinkFacts();
      ListDel(d.s_link, semd_h, i, linkHeads, linkNodes);
      ListAdd(d.s_link, semdFree_h, linkHeads, linkNodes);
    }

    twostate lemma Released(d: SemdT, new i: nat)
      requires old(Open(i)) && Shape() && SemdShape() && PcbShape() && old(Listed()) && i < old(|semd_h.elems|)
      requires d == old(At(i)) && asl == SetQ(old(asl), old(d.s_key), [])
      requires Rings(linkHeads, linkNodes) && d.s_link.home == semdFree_h
      requires semd_h.elems == old(semd_h.elems[..i]) + old(semd_h.elems[i + 1..])
      requires forall n :: n in linkNodes && n != d.s_link ==> n.home == old(n.home)
      requires forall h :: h in listHeads ==> unchanged(h)
      requires forall n :: n in listNodes ==> unchanged(n)
      requires forall h :: h in treeHeads ==> unchanged(h)
      requires forall h :: h in treeNodes ==> unchanged(h)
      requires forall p :: p in pcbs ==> unchanged(p)
      requires forall x :: x in semds ==> unchanged(x)
      requires d.s_procq.elems == []
      ensures Valid() && Recs() == old(Recs())
    {
      hide Represents, RepresentsBut, Recs, Keys, Waiting, Parents;
      TreeFrame();
      KeysCut(d, i);
      KeyRemoved(old(Keys()), old(Waiting()), old(asl), i);
    }

    /** d left place i of semd_h: the others moved down or stayed. */
    twostate lemma CutPlaces(d: SemdT, new i: nat)
      requires SemdShape() && old(Listed()) && i < old(|semd_h.elems|) && d == old(At(i))
      requires semd_h.elems == old(semd_h.elems[..i]) + old(semd_h.elems[i + 1..])
      requires forall x :: x in semds ==> x.s_key == old(x.s_key)
      requires forall h :: h in listHeads ==> h.elems == old(h.elems)
      ensures Listed() && old(Keys()[i]) == d.s_key
      ensures forall j :: 0 <= j < |semd_h.elems| ==>
        var o := if j < i then j else j + 1; Keys()[j] == old(Keys())[o] && Waiting()[j] == old(Waiting())[o]
    {
      forall j | 0 <= j < |semd_h.elems|
        ensures semd_h.elems[j] in linkNodes && semd_h.elems[j] == old(semd_h.elems[if j < i then j else j + 1])
      {
        assert semd_h.elems[j] in old(semd_h.elems);
      }
      assert Listed();
      forall j | 0 <= j < |semd_h.elems|
        ensures var o := if j < i then j else j + 1; Keys()[j] == old(Keys())[o] && Waiting()[j] == old(Waiting())[o]
      {
        AtShows(j);
      }
    }

    twostate lemma KeysCut(d: SemdT, new i: nat)
      requires SemdShape() && old(Listed()) && i < old(|semd_h.elems|) && d == old(At(i))
      requires semd_h.elems == old(semd_h.elems[..i]) + old(semd_h.elems[i + 1..])
      requires forall x :: x in semds ==> x.s_key == old(x.s_key)
      requires forall h :: h in listHeads ==> h.elems == old(h.elems)
      ensures Listed() && old(Keys()[i]) == d.s_key
      ensures Keys() == old(Keys())[..i] + old(Keys())[i + 1..]
      ensures Waiting() == old(Waiting())[..i] + old(Waiting())[i + 1..]
    {
      hide SemdShape, Keys, Waiting, At, Listed;
      CutPlaces(d, i);
      assert Keys() == old(Keys())[..i] + old(Keys())[i + 1..];
      assert Waiting() == old(Waiting())[..i] + old(Waiting())[i + 1..];
    }

    /** p.p_semAdd = a, while the i-th queue is being changed. */
    method SetSemAdd(p: PcbT, a: Addr, ghost i: nat)
      requires Open(i) && PcbShape() && p in pcbs
      modifies p
      ensures Open(i) && Recs() == old(Recs())[p.slot := old(Recs())[p.slot].(semAdd := a)]
    {
      hide Rings, Represents, RepresentsBut, Idle, Listed, SemdShape, Shape;
      p.p_semAdd := a;
      assert forall j :: 0 <= j < |pcbs| ==> pcbs[j] in pcbs;
      assert Recs() == old(Recs())[p.slot := old(Recs())[p.slot].(semAdd := a)];
    }

    /** The last part of insertBlocked: p joins the i-th queue. */
    method JoinQueue(d: SemdT, p: PcbT, a: Addr, ghost i: nat)
      requires Open(i) && PcbShape() && SemdShape() && Listed() && i < |semd_h.elems| && d == At(i) && d.s_key == a
      requires p in pcbs && p.p_list.home == null
      modifies p, `asl, listHeads, listNodes
      ensures Valid() && Recs() == old(Recs())[p.slot := old(Recs())[p.slot].(semAdd := a)]
      ensures asl == SetQ(old(asl), a, old(Owners(d.s_procq)) + [p.slot])
      ensures Free() == old(Free()) && Ready() == old(Ready())
    {
      hide Shape, SemdShape, PcbShape, Rings, Represents, RepresentsBut, Idle, Listed, Valid, Parents, Open, Recs;
      SetSemAdd(p, a, i);
      Append(d, p, i);
      OpenFacts(i);
      CloseQueue(i);
    }

    /** list_add_tail(&p->p_list, &sem->s_procq). */
    method Append(d: SemdT, p: PcbT, ghost i: nat)
      requires Open(i) && PcbShape() && SemdShape() && Listed() && i < |semd_h.elems| && d == At(i)
      requires p in pcbs && p.p_list.home == null
      modifies listHeads, listNodes
      ensures Open(i) && d == At(i) && Owners(d.s_procq) == old(Owners(d.s_procq)) + [p.slot]
      ensures Recs() == old(Recs()) && Free() == old(Free()) && Ready() == old(Ready())
    {
      hide Shape, SemdShape, PcbShape, Rings, Represents, RepresentsBut, Idle;
      hide Listed, Valid, Parents, Open, Recs, OwnersOf;
      OpenFacts(i);
      ListFacts(p);
      ghost var e := d.s_procq.elems;
      OwnersTail(e, p.p_list);
      ListAddTail(p.p_list, d.s_procq, d.s_procq, |e|, listHeads, listNodes);
      OpenKept(i);
    }

    lemma ListFacts(p: PcbT)
      requires Shape() && p in pcbs
      ensures p.p_list in listNodes && p.p_list.owner == p.slot
      ensures pcbFree_h in listHeads && readyQueue in listHeads && p.slot < |pcbs| && pcbs[p.slot] == p
    {
    }

    /** A free descriptor becomes the one of a, its queue still empty. */
    method NewDescriptor(a: Addr) returns (d: SemdT, ghost i: nat)
      requires Valid() && a !in asl && semdFree_h.elems != []
      modifies semds, listHeads, linkHeads, linkNodes
      ensures Open(i) && SemdShape() && Listed() && i < |semd_h.elems| && At(i) == d && d.s_key == a
      ensures d.s_procq.elems == []
      ensures Recs() == old(Recs()) && Free() == old(Free()) && Ready() == old(Ready())
      ensures forall n :: n in listNodes ==> n.home == old(n.home)
    {
      hide Shape, PcbShape, Rings, Represents, RepresentsBut, Idle, Valid, Parents, Open, Taken, Recs, At;
      ReadyFacts();
      d := TakeDescriptor();
      TakenFacts(d);
      i := PutDescriptor(d, a);
      OpenFacts(i);
    }

    /** insertBlocked: true stands for its failure. */
    method InsertBlocked(a: Addr, p: PcbT) returns (failed: bool)
      requires Valid() && p in pcbs && p.p_list.home == null
      modifies p, semds, `asl, listHeads, listNodes, linkHeads, linkNodes
      ensures Valid() && (failed <==> a !in old(asl) && |old(asl)| >= |pcbs|)
      ensures failed ==> View() == old(View())
      ensures !failed ==> p.slot < |old(View()).pcb| && View() == old(View()).(
        asl := SetQ(old(asl), a, QueueOf(old(asl), a) + [p.slot]),
        pcb := old(View()).pcb[p.slot := old(View()).pcb[p.slot].(semAdd := a)])
    {
      hide Shape, SemdShape, PcbShape, Rings, Represents, RepresentsBut, Idle, Listed;
      hide Valid, Parents, Open, Taken, Recs, At, SetQ, View;
      var d, i := GetSemd(a);
      PoolOf(p);
      if d == null {
        if ListEmpty(semdFree_h) {
          return true;
        }
        assert QueueOf(asl, a) + [p.slot] == [p.slot];
        JoinNew(a, p);
      } else {
        JoinOld(d, a, p, i);
      }
      failed := false;
    }

    lemma PoolOf(p: PcbT)
      requires Valid() && p in pcbs
      ensures p.slot < |View().pcb| && p.p_list in listNodes
      ensures ListEmpty(semdFree_h) <==> |asl| >= |pcbs|
    {
      BothRings();
      ListFacts(p);
      LinkFacts();
      EmptyIff(semdFree_h);
      DescriptorsCounted();
    }

    /** insertBlocked on an active semaphore. */
    method JoinOld(d: SemdT, a: Addr, p: PcbT, ghost i: nat)
      requires Valid() && SemdShape() && Listed() && i < |semd_h.elems| && d == At(i) && d.s_key == a
      requires p in pcbs && p.p_list.home == null
      modifies p, `asl, listHeads, listNodes
      ensures Valid() && a in old(asl) && p.slot < |old(View()).pcb|
      ensures View() == old(View()).(asl := SetQ(old(asl), a, old(asl)[a] + [p.slot]),
        pcb := old(View()).pcb[p.slot := old(View()).pcb[p.slot].(semAdd := a)])
    {
      hide Shape, SemdShape, PcbShape, Rings, Represents, RepresentsBut, Idle, Listed;
      hide Valid, Parents, Open, Recs, At, SetQ, View;
      ViewIs();
      PoolOf(p);
      OpenAt(i);
      OpenFacts(i);
      JoinQueue(d, p, a, i);
      ViewIs();
    }

    /** insertBlocked on a semaphore that takes a free descriptor. */
    method JoinNew(a: Addr, p: PcbT)
      requires Valid() && a !in asl && !ListEmpty(semdFree_h) && p in pcbs && p.p_list.home == null
      modifies p, semds, `asl, listHeads, listNodes, linkHeads, linkNodes
      ensures Valid() && p.slot < |old(View()).pcb|
      ensures View() == old(View()).(asl := SetQ(old(asl), a, [p.slot]),
        pcb := old(View()).pcb[p.slot := old(View()).pcb[p.slot].(semAdd := a)])
    {
      hide Shape, SemdShape, PcbShape, Rings, Represents, RepresentsBut, Idle, Listed;
      hide Valid, Parents, Open, Recs, At, SetQ, View;
      ViewIs();
      PoolOf(p);
      BothRings();
      LinkFacts();
      EmptyIff(semdFree_h);
      var d, i := NewDescriptor(a);
      OpenFacts(i);
      assert Owners(d.s_procq) + [p.slot] == [p.slot];
      JoinQueue(d, p, a, i);
      ViewIs();
    }

    /** The end of removeBlocked and outBlocked: an empty queue gives up its descriptor. */
    method Settle(d: SemdT, ghost i: nat)
      requires Open(i) && PcbShape() && SemdShape() && Listed() && i < |semd_h.elems| && d == At(i)
      modifies `asl, linkHeads, linkNodes
      ensures Valid() && Recs() == old(Recs()) && asl == SetQ(old(asl), old(d.s_key), old(Owners(d.s_procq)))
      ensures forall h :: h in listHeads ==> h.elems == old(h.elems)
      ensures forall n :: n in listNodes ==> n.home == old(n.home)
    {
      hide Shape, SemdShape, PcbShape, Rings, Represents, RepresentsBut, Idle;
      hide Listed, Valid, Parents, Open, Recs, At, SetQ;
      OpenFacts(i);
      LinksApart();
      RingOf(listHeads, listNodes, d.s_procq);
      EmptyIff(d.s_procq);
      if ListEmpty(d.s_procq) {
        assert Owners(d.s_procq) == [];
        Release(d, i);
      } else {
        CloseQueue(i);
      }
    }

    /** removeBlocked: the first process in a's queue. */
    method RemoveBlocked(a: Addr) returns (p: PcbT?)
      requires Valid()
      modifies `asl, listHeads, listNodes, linkHeads, linkNodes
      ensures Valid()
      ensures a !in old(asl) ==> p == null && View() == old(View())
      ensures a in old(asl) ==>
        && old(asl)[a] != [] && p != null && p in pcbs && p.p_list.home == null && p.slot == old(asl)[a][0]
        && View() == old(View()).(asl := SetQ(old(asl), a, old(asl)[a][1..]))
    {
      hide Shape, SemdShape, PcbShape, Rings, Represents, RepresentsBut, Idle, Listed;
      hide Valid, Parents, Open, Recs, At, View, SetQ;
      BothRings();
      ViewIs();
      var d, i := GetSemd(a);
      if d == null {
        return null;
      }
      OpenAt(i);
      QueueNotEmpty(a);
      p := PopFirst(d, i);
      ViewIs();
    }

    /** removeProcQ on an active queue, and the end of the descriptor if that empties it. */
    method PopFirst(d: SemdT, ghost i: nat) returns (p: PcbT)
      requires Open(i) && PcbShape() && SemdShape() && Listed() && i < |semd_h.elems| && d == At(i)
      requires Owners(d.s_procq) != []
      modifies `asl, listHeads, listNodes, linkHeads, linkNodes
      ensures Valid() && Recs() == old(Recs()) && Free() == old(Free()) && Ready() == old(Ready())
      ensures p in pcbs && p.p_list.home == null && p.slot == old(Owners(d.s_procq))[0]
      ensures asl == SetQ(old(asl), old(d.s_key), old(Owners(d.s_procq))[1..])
    {
      hide Shape, SemdShape, PcbShape, Rings, Represents, RepresentsBut, Idle, Listed;
      hide Valid, Parents, Open, Recs, At, SetQ, OwnersOf;
      p := TakeFirst(d, i);
      OpenFacts(i);
      Settle(d, i);
    }

    lemma QueueNotEmpty(a: Addr)
      requires Valid() && a in asl
      ensures asl[a] != []
    {
    }

    /** removeProcQ(&sem->s_procq). */
    method TakeFirst(d: SemdT, ghost i: nat) returns (p: PcbT)
      requires Open(i) && PcbShape() && SemdShape() && Listed() && i < |semd_h.elems| && d == At(i)
      requires Owners(d.s_procq) != []
      modifies listHeads, listNodes
      ensures Open(i) && d == At(i) && Recs() == old(Recs()) && Free() == old(Free()) && Ready() == old(Ready())
      ensures p in pcbs && p.p_list.home == null && p.slot == old(Owners(d.s_procq))[0]
      ensures Owners(d.s_procq) == old(Owners(d.s_procq))[1..]
    {
      hide Shape, SemdShape, PcbShape, Rings, Represents, RepresentsBut, Idle;
      hide Listed, Valid, Parents, Open, Recs, At, OwnersOf;
      OpenFacts(i);
      ListTable();
      assert d.s_procq.elems != [];
      p := RemoveProcQ(pcbs, d.s_procq, Recs(), listHeads, listNodes);
      OpenKept(i);
    }

    /** outProcQ(&sem->s_procq, p). */
    method TakeOut(d: SemdT, p: PcbT, ghost i: nat) returns (r: PcbT?)
      requires Open(i) && PcbShape() && SemdShape() && Listed() && i < |semd_h.elems| && d == At(i) && p in pcbs
      modifies listHeads, listNodes
      ensures Open(i) && d == At(i) && d.s_key == old(d.s_key) && Recs() == old(Recs())
      ensures Free() == old(Free()) && Ready() == old(Ready())
      ensures Owners(d.s_procq) == Without(old(Owners(d.s_procq)), {p.slot})
      ensures if p.slot in old(Owners(d.s_procq)) then r == p && p.p_list.home == null
              else r == null && d.s_procq.elems == old(d.s_procq.elems)
    {
      hide Shape, SemdShape, PcbShape, Rings, Represents, RepresentsBut, Idle, Listed;
      hide Valid, Parents, Open, Recs, At, OwnersOf, Without;
      OpenFacts(i);
      ListFacts(p);
      ListTable();
      r := OutProcQ(pcbs, d.s_procq, p, Recs(), listHeads, listNodes);
      OpenKept(i);
    }

    /** The queue was not changed after all. */
    lemma StillThere(i: nat)
      requires Open(i) && SemdShape() && Listed() && i < |semd_h.elems|
      requires At(i).s_key in asl && Owners(At(i).s_procq) == asl[At(i).s_key] != []
      ensures Valid()
    {
      hide Rings, Parents, Idle;
      AtShows(i);
    }

    /** outBlocked once the descriptor is known. */
    method OutOf(d: SemdT, p: PcbT, ghost i: nat) returns (r: PcbT?)
      requires Valid() && SemdShape() && Listed() && i < |semd_h.elems| && d == At(i) && p in pcbs && d.s_key in asl
      modifies `asl, listHeads, listNodes, linkHeads, linkNodes
      ensures Valid()
      ensures var a := old(d.s_key); var q := old(asl)[a];
        if p.slot in q then r == p && View() == old(View()).(asl := SetQ(old(asl), a, Without(q, {p.slot})))
        else r == null && View() == old(View())
    {
      hide Shape, SemdShape, PcbShape, Rings, Represents, RepresentsBut, Idle, Listed;
      hide Valid, Parents, Open, Recs, At, View, SetQ, Without;
      ViewIs();
      OpenAt(i);
      QueueNotEmpty(d.s_key);
      r := TakeOut(d, p, i);
      OpenFacts(i);
      if r != null {
        Settle(d, i);
      } else {
        StillThere(i);
      }
      ViewIs();
    }

    /** outBlocked: p leaves the queue it is in, if p_semAdd names it. */
    method OutBlocked(p: PcbT) returns (r: PcbT?)
      requires Valid() && p in pcbs
      modifies `asl, listHeads, listNodes, linkHeads, linkNodes
      ensures Valid()
      ensures var a, q := p.p_semAdd, QueueOf(old(asl), p.p_semAdd);
        if a != NULL && p.slot in q
        then r == p && View() == old(View()).(asl := SetQ(old(asl), a, Without(q, {p.slot})))
        else r == null && View() == old(View())
    {
      hide Shape, SemdShape, PcbShape, Rings, Represents, RepresentsBut, Idle, Listed;
      hide Valid, Parents, Open, Recs, At, View, SetQ, Without;
      if p.p_semAdd == NULL {
        return null;
      }
      var d, i := GetSemd(p.p_semAdd);
      if d == null {
        return null;
      }
      r := OutOf(d, p, i);
    }

    /** headBlocked: the first process in a's queue, which stays there. */
    method HeadBlocked(a: Addr) returns (p: PcbT?)
      requires Valid()
      ensures Valid()
      ensures if a in asl then asl[a] != [] && p != null && p in pcbs && p.slot == asl[a][0] else p == null
    {
      hide Shape, SemdShape, PcbShape, Rings, Represents, RepresentsBut, Idle, Listed;
      hide Valid, Parents, Open, Recs, At, Linked, ListHead.Ring;
      var d, i := GetSemd(a);
      if d == null {
        return null;
      }
      OpenAt(i);
      QueueNotEmpty(a);
      OpenFacts(i);
      RingOf(listHeads, listNodes, d.s_procq);
      RingLinks(d.s_procq, 0);
      EmptyIff(d.s_procq);
      assert d.s_procq.elems[0] in listNodes;
      OwnerInTable(d.s_procq.elems[0]);
      p := pcbs[d.s_procq.next.owner];
    }

    lemma OwnerInTable(n: ListHead)
      requires Shape() && n in listNodes
      ensures n.owner < |pcbs| && pcbs[n.owner] in pcbs && pcbs[n.owner].slot == n.owner && pcbs[n.owner].p_list == n
    {
    }

    /** No descriptor is lost: the active and the free ones are all there are. */
    lemma DescriptorsCounted()
      requires Valid()
      ensures |asl| + |semdFree_h.elems| == |pcbs|
    {
      AslFacts();
      LinkFacts();
      KeysCounted(Keys(), Waiting(), asl);
      var e, f := Owners(semd_h), Owners(semdFree_h);
      forall d: nat
        ensures d in e + f <==> d < |semds|
      {
        if d < |semds| {
          assert semds[d].s_link in linkNodes;
          OwnerAt(semds[d].s_link.home, semds[d].s_link);
        }
        if d in e + f {
          var i :| 0 <= i < |e + f| && (e + f)[i] == d;
          assert i < |e| ==> semd_h.elems[i] in semd_h.elems;
          assert i >= |e| ==> semdFree_h.elems[i - |e|] in semdFree_h.elems;
        }
      }
      assert Elems(e + f) == Below(|semds|);
      DescriptorOnce();
      NoDupCard(e + f);
    }

    lemma DescriptorOnce()
      requires Shape() && Rings(linkHeads, linkNodes)
      ensures NoDup(Owners(semd_h) + Owners(semdFree_h))
    {
      LinkFacts();
      var e := semd_h.elems + semdFree_h.elems;
      forall i, j | 0 <= i < j < |e|
        ensures e[i].owner != e[j].owner
      {
        assert e[i] in e && e[j] in e;
        assert i < |semd_h.elems| ==> e[i] in semd_h.elems;
        assert j >= |semd_h.elems| ==> e[j] in semdFree_h.elems;
      }
    }

    /** A p_list linked anywhere is on the free list, the ready queue or a semaphore's queue. */
    lemma Queued(p: PcbT)
      requires Valid() && p in pcbs && p.p_list.home != null
      ensures p.slot in Free() || p.slot in Ready() || exists a :: a in asl && p.slot in asl[a]
    {
      ListFacts(p);
      var h := p.p_list.home;
      OwnerAt(h, p.p_list);
      AslFacts();
      if h != pcbFree_h && h != readyQueue {
        var d := semds[h.owner];
        assert d.s_link.home == semd_h && d.s_link in semd_h.elems;
        var i :| 0 <= i < |semd_h.elems| && semd_h.elems[i] == d.s_link;
        AtShows(i);
        assert asl[Keys()[i]] == Owners(h);
      }
    }

    /** A process on no queue is linked into none. */
    lemma Unqueued(p: PcbT)
      requires Valid() && p in pcbs && p.slot !in View().free && p.slot !in View().ready
      requires forall a :: a in asl ==> p.slot !in asl[a]
      ensures p.p_list.home == null
    {
      if p.p_list.home != null {
        Queued(p);
      }
    }

    lemma OwnerAt(h: ListHead, n: ListHead)
      requires n in h.elems
      ensures n.owner in Owners(h)
    {
      var i :| 0 <= i < |h.elems| && h.elems[i] == n;
      assert Owners(h)[i] == n.owner;
    }

    // ---- phase 2's writes to a PCB's fields ------------------------------------

    lemma ViewIs()
      requires Valid()
      ensures PcbShape() && View() == QueuesView(Recs(), Free(), next_pid, Ready(), asl)
      ensures |View().pcb| == |pcbs|
    {
    }

    lemma RecOf(p: PcbT)
      requires Valid() && p in pcbs
      ensures PcbShape() && |View().pcb| == |pcbs| && p.slot < |pcbs| && pcbs[p.slot] == p
      ensures View().pcb == Recs() && View().pcb[p.slot] == p.Rec()
      ensures p.p_parent != null ==> p.p_parent in pcbs
    {
      TreeFacts(p);
    }

    lemma ReprParts()
      ensures forall p: PcbT :: p in pcbs ==> p in Repr()
      ensures forall d: SemdT :: d in semds ==> d in Repr()
      ensures forall h :: h in listHeads ==> h in Repr()
      ensures forall h :: h in listNodes ==> h in Repr()
      ensures forall h :: h in treeHeads ==> h in Repr()
      ensures forall h :: h in treeNodes ==> h in Repr()
      ensures forall h :: h in linkHeads ==> h in Repr()
      ensures forall h :: h in linkNodes ==> h in Repr()
    {
    }

    /** p->p_s = s. */
    method SetState(p: PcbT, s: Context)
      requires Valid() && p in pcbs
      modifies p
      ensures Valid() && p.slot < |old(View()).pcb|
      ensures View() == old(View()).(pcb := old(View()).pcb[p.slot := old(View()).pcb[p.slot].(ctx := s)])
    {
      hide Valid, Shape, PcbShape, Rings, AslOk, Parents, Recs;
      TreeFacts(p);
      p.p_s := s;
      FieldChange(p);
    }

    /** p->p_time += d. */
    method AddTime(p: PcbT, d: int)
      requires Valid() && p in pcbs
      modifies p
      ensures Valid() && p.slot < |old(View()).pcb|
      ensures View() == old(View()).(
        pcb := old(View()).pcb[p.slot := old(View()).pcb[p.slot].(time := old(View()).pcb[p.slot].time + d)])
    {
      hide Valid, Shape, PcbShape, Rings, AslOk, Parents, Recs;
      TreeFacts(p);
      p.p_time := p.p_time + d;
      FieldChange(p);
    }

    /** The initial state, priority and support structure of a new process. */
    method SetUp(p: PcbT, s: Context, prio: int, support: int)
      requires Valid() && p in pcbs
      modifies p
      ensures Valid() && p.slot < |old(View()).pcb|
      ensures View() == old(View()).(
        pcb := old(View()).pcb[p.slot := old(View()).pcb[p.slot].(ctx := s, prio := prio, support := support)])
    {
      hide Valid, Shape, PcbShape, Rings, AslOk, Parents, Recs;
      TreeFacts(p);
      p.p_s := s;
      p.p_prio := prio;
      p.p_supportStruct := support;
      FieldChange(p);
    }

    // ---- boot ---------------------------------------------------------------

    /** The descriptors as they are before initASL. */
    ghost predicate RawSemds()
      reads `asl, semds, listHeads, linkHeads, linkNodes
    {
      && asl == map[] && SemdShape()
      && (forall n :: n in linkNodes ==> n.home == null)
      && Rings(linkHeads, linkNodes) && semdFree_h.elems == [] && semd_h.elems == []
      && (forall d :: 0 <= d < |semds| ==> semds[d].s_procq.elems == [])
    }

    lemma RawIsRaw()
      requires Raw() && Shape()
      ensures RawSemds()
    {
      RawLinks();
      assert forall d :: 0 <= d < |semds| ==> NewSemd(semds[d], d);
    }

    /** initPcbs's loop. */
    method FreeAll()
      requires Rings(listHeads, listNodes) && pcbFree_h in listHeads && pcbFree_h !in listNodes && pcbFree_h.elems == []
      requires forall i, j :: 0 <= i < j < |pcbs| ==> pcbs[i].p_list != pcbs[j].p_list
      requires forall i :: 0 <= i < |pcbs| ==>
        pcbs[i].p_list in listNodes && pcbs[i].p_list.owner == i && pcbs[i].p_list.home == null
      modifies pcbFree_h, listNodes
      ensures Rings(listHeads, listNodes) && Owners(pcbFree_h) == Down(|pcbs|)
    {
      hide Rings, OwnersOf;
      InitListHead(pcbFree_h, listHeads, listNodes);
      var i := 0;
      while i < |pcbs|
        invariant i <= |pcbs| && Rings(listHeads, listNodes) && Owners(pcbFree_h) == Down(i)
        invariant forall j :: i <= j < |pcbs| ==> pcbs[j].p_list.home == null
      {
        RingOf(listHeads, listNodes, pcbFree_h);
        OwnersCons(pcbs[i].p_list, pcbFree_h.elems);
        ListAdd(pcbs[i].p_list, pcbFree_h, listHeads, listNodes);
        i := i + 1;
      }
    }

    /** initPcbs: every PCB goes to the free list. */
    method InitPcbs()
      requires Raw()
      modifies pcbFree_h, listNodes
      ensures Shape() && Rings(listHeads, listNodes) && Rings(treeHeads, treeNodes) && Parents() && RawSemds()
      ensures Free() == Down(|pcbs|) && Ready() == [] && Recs() == seq(|pcbs|, i => BLANK_PCB) && next_pid == 1
    {
      hide Raw, Rings, Shape, PcbShape, SemdShape, Parents, RawSemds, Recs, NewPcb, NewSemd, NewHead, OwnersOf, Down;
      RawShape();
      RawLists();
      RawTree();
      RawIsRaw();
      RawHeads();
      FreeAll();
      TreeFrame();
      RawKept();
    }

    twostate lemma RawKept()
      requires SemdShape() && Shape() && old(RawSemds()) && asl == old(asl)
      requires forall h :: h in listHeads && h != pcbFree_h ==> unchanged(h)
      requires forall h :: h in linkHeads ==> unchanged(h)
      requires forall h :: h in linkNodes ==> unchanged(h)
      ensures RawSemds()
    {
    }

    lemma RawParts()
      requires Raw()
      ensures pcbFree_h in listHeads && readyQueue in listHeads
    {
    }

    lemma RawHeads()
      requires Raw() && Shape()
      ensures pcbFree_h in listHeads && pcbFree_h !in listNodes && pcbFree_h.elems == [] && Ready() == []
      ensures readyQueue in listHeads && readyQueue != pcbFree_h
      ensures forall h :: h in listHeads ==> h !in listNodes
      ensures forall i, j :: 0 <= i < j < |pcbs| ==> pcbs[i].p_list != pcbs[j].p_list
      ensures forall i :: 0 <= i < |pcbs| ==>
        pcbs[i].p_list in listNodes && pcbs[i].p_list.owner == i && pcbs[i].p_list.home == null
      ensures forall h :: h in Others() ==> h !in listHeads && h !in listNodes
    {
      OthersApart();
    }

    /** The first n descriptors are on the free list, the others on none. */
    ghost predicate Pooled(n: nat)
      requires SemdShape() && n <= |semds|
      reads semds, listHeads, linkNodes
    {
      && (forall d :: 0 <= d < |semds| ==> semds[d].s_procq.elems == [])
      && (forall d :: 0 <= d < n ==> semds[d].s_link.home == semdFree_h)
      && (forall d :: n <= d < |semds| ==> semds[d].s_link.home == null)
    }

    lemma RawPool()
      requires Shape() && RawSemds()
      ensures SemdShape() && Pooled(0) && Rings(linkHeads, linkNodes) && asl == map[]
      ensures semd_h in linkHeads && semdFree_h in linkHeads && semd_h != semdFree_h
      ensures semdFree_h.elems == [] && semd_h.elems == [] && semd_h !in linkNodes && semdFree_h !in linkNodes
    {
    }

    /** One round of initASL's loop. */
    method PoolOne(i: nat)
      requires Shape() && SemdShape() && i < |semds| && Pooled(i)
      requires Rings(listHeads, listNodes) && Rings(linkHeads, linkNodes) && semd_h.elems == []
      modifies semds, listHeads, linkHeads, linkNodes
      ensures Pooled(i + 1) && Rings(listHeads, listNodes) && Rings(linkHeads, linkNodes) && semd_h.elems == []
      ensures forall h :: h in listHeads ==> h.elems == old(h.elems)
    {
      hide Rings, Shape, SemdShape, Pooled;
      PoolFacts(i);
      LinksApart();
      semds[i].s_key := NULL;
      InitDescriptor(semds[i]);
      RingOf(linkHeads, linkNodes, semdFree_h);
      ListAdd(semds[i].s_link, semdFree_h, linkHeads, linkNodes);
      PooledOne(i);
    }

    lemma PoolFacts(i: nat)
      requires Shape() && SemdShape() && i < |semds| && Pooled(i)
      ensures var d := semds[i];
        && d in semds && d.s_procq.elems == [] && d.s_link.home == null
        && d.s_procq in listHeads && d.s_procq !in listNodes && d.s_procq !in linkHeads && d.s_procq !in linkNodes
        && d.s_link in linkNodes && d.s_link !in linkHeads && d.s_link !in listHeads && d.s_link !in listNodes
      ensures semdFree_h in linkHeads && semd_h in linkHeads && semd_h != semdFree_h
      ensures semd_h !in linkNodes && semdFree_h !in linkNodes
    {
      LinksApart();
    }

    twostate lemma PooledOne(new i: nat)
      requires SemdShape() && i < |semds| && old(Pooled(i))
      requires forall n :: n in linkNodes && n != semds[i].s_link ==> n.home == old(n.home)
      requires semds[i].s_link.home == semdFree_h
      requires forall h :: h in listHeads ==> h.elems == old(h.elems)
      ensures Pooled(i + 1)
    {
    }

    /** initASL: no semaphore is active, every descriptor is free. */
    method InitASL()
      requires Shape() && Rings(listHeads, listNodes) && Rings(treeHeads, treeNodes) && Parents() && RawSemds()
      modifies semds, listHeads, linkHeads, linkNodes
      ensures Valid() && View() == QueuesView(old(Recs()), old(Free()), old(next_pid), old(Ready()), map[])
    {
      hide Rings, Shape, SemdShape, PcbShape, Pooled, Parents, RawSemds, Valid, Recs;
      RawPool();
      ReadyHeads();
      LinksApart();
      OthersApart();
      PoolAll();
      TreeFrame();
      PoolValid();
    }

    lemma ReadyHeads()
      requires Shape()
      ensures pcbFree_h in listHeads && readyQueue in listHeads && PcbShape()
    {
    }

    /** initASL's loop. */
    method PoolAll()
      requires Shape() && SemdShape() && Pooled(0)
      requires Rings(listHeads, listNodes) && Rings(linkHeads, linkNodes) && semd_h.elems == []
      requires semdFree_h.elems == []
      requires semd_h in linkHeads && semdFree_h in linkHeads && semd_h !in linkNodes && semdFree_h !in linkNodes
      modifies semds, listHeads, linkHeads, linkNodes
      ensures Pooled(|semds|) && Rings(listHeads, listNodes) && Rings(linkHeads, linkNodes) && semd_h.elems == []
      ensures forall h :: h in listHeads ==> h.elems == old(h.elems)
    {
      hide Rings, Shape, SemdShape, Pooled;
      LinksApart();
      InitListHead(semdFree_h, linkHeads, linkNodes);
      InitListHead(semd_h, linkHeads, linkNodes);
      PooledSame(0);
      var i := 0;
      while i < |semds|
        invariant i <= |semds| && Pooled(i) && semd_h.elems == []
        invariant Rings(listHeads, listNodes) && Rings(linkHeads, linkNodes)
        invariant forall h :: h in listHeads ==> h.elems == old(h.elems)
      {
        PoolOne(i);
        i := i + 1;
      }
    }

    twostate lemma PooledSame(new i: nat)
      requires SemdShape() && i <= |semds| && old(Pooled(i))
      requires forall n :: n in linkNodes ==> n.home == old(n.home)
      requires forall h :: h in listHeads ==> h.elems == old(h.elems)
      ensures Pooled(i)
    {
    }

    lemma PoolValid()
      requires Shape() && SemdShape() && Pooled(|semds|) && semd_h.elems == [] && asl == map[]
      requires Rings(listHeads, listNodes) && Rings(treeHeads, treeNodes) && Rings(linkHeads, linkNodes) && Parents()
      ensures Valid()
    {
      hide Rings, Parents;
      assert Keys() == [] && Waiting() == [];
    }

    /** mkEmptyProcQ(&readyQueue). */
    method MkEmptyReady()
      requires Valid() && View().ready == []
      modifies readyQueue
      ensures Valid() && View() == old(View())
    {
      hide Valid, Shape, Rings, AslOk, Parents, Recs, Table;
      ReadyFacts();
      assert readyQueue.elems == [];
      InitListHead(readyQueue, listHeads, listNodes);
      ListChange(readyQueue);
    }
  }

  /** The static storage of pcb.c and asl.c for n processes. */
  method NewQueues(n: nat) returns (q: Queues)
    ensures fresh(q) && fresh(q.Repr()) && q.Raw() && |q.pcbs| == n
  {
    hide NewPcb, NewSemd;
    var ps := MakePcbs(n);
    var ss := MakeSemds(n);
    q := new Queues(ps, ss);
  }
}
