/** The circular doubly linked lists of listx.h, on objects: the operations are sequence operations,
    and every other list stays as it was. */
module Listx {
  import opened Sequences

  /** Which field of which kind of structure a list_head is. */
  datatype Kind = Head | PList | PChild | PSib | SProcq | SLink

  /** struct list_head. Kind and owner stand for its address: container_of maps a list_head
      to the structure of that kind whose table index is owner. */
  class ListHead {
    const kind: Kind
    const owner: nat
    var next: ListHead
    var prev: ListHead
    ghost var elems: seq<ListHead>  // of a sentinel: the elements of its list
    ghost var home: ListHead?       // of an element: the sentinel of the list it is in

    constructor (kind: Kind, owner: nat)
      ensures this.kind == kind && this.owner == owner
      ensures next == this == prev && elems == [] && home == null
    {
      this.kind, this.owner := kind, owner;
      next, prev := this, this;
      elems, home := [], null;
    }

    predicate IsSentinel() { kind == Head || kind == PChild || kind == SProcq }

    /** next and prev run round exactly the elements, in opposite directions. */
    ghost predicate Ring()
      reads this, elems
    {
      && IsSentinel() && NoDup(elems)
      && (forall n :: n in elems ==> !n.IsSentinel() && n.home == this)
      && Linked(this, elems)
    }
  }

  /** The element before position i of e, and the one at it; the sentinel closes the ring at both ends. */
  ghost function Pred(h: ListHead, e: seq<ListHead>, i: nat): ListHead { if 0 < i <= |e| then e[i - 1] else h }

  ghost function Succ(h: ListHead, e: seq<ListHead>, i: nat): ListHead { if i < |e| then e[i] else h }

  ghost predicate Linked(h: ListHead, e: seq<ListHead>)
    reads h, e
  {
    forall i: nat {:trigger Succ(h, e, i)} :: i <= |e| ==>
      Pred(h, e, i).next == Succ(h, e, i) && Succ(h, e, i).prev == Pred(h, e, i)
  }

  /** The lists with these sentinels are rings over disjoint sets of these nodes. */
  ghost predicate Rings(heads: set<ListHead>, nodes: set<ListHead>)
    reads heads, nodes
  {
    && (forall h :: h in heads ==> (forall n :: n in h.elems ==> n in nodes) && h.Ring())
    && (forall n :: n in nodes ==> !n.IsSentinel() && (n.home != null ==> n.home in heads && n in n.home.elems))
  }

  /** __list_add: nw goes between prev and next, neighbours at position i. */
  method ListInsert(nw: ListHead, prev: ListHead, next: ListHead, ghost head: ListHead, ghost i: nat)
    requires head.Ring() && i <= |head.elems| && prev == Pred(head, head.elems, i) && next == Succ(head, head.elems, i)
    requires nw.home == null && !nw.IsSentinel()
    modifies head, prev, next, nw
    ensures head.Ring() && head.elems == old(head.elems[..i]) + [nw] + old(head.elems[i..])
    ensures nw.home == head && head.home == old(head.home)
  {
    ghost var e := head.elems;
    next.prev := nw;
    nw.next := next;
    nw.prev := prev;
    prev.next := nw;
    nw.home := head;
    head.elems := e[..i] + [nw] + e[i..];
    ghost var f := head.elems;
    forall k: nat | k <= |f|
      ensures Pred(head, f, k).next == Succ(head, f, k) && Succ(head, f, k).prev == Pred(head, f, k)
    {
      ghost var o := Succ(head, e, if k <= i then k else k - 1);
    }
  }

  /** __list_del followed by list_del's self-links. */
  method ListRemove(entry: ListHead, ghost head: ListHead, ghost i: nat)
    requires head.Ring() && i < |head.elems| && entry == head.elems[i]
    requires entry.prev == Pred(head, head.elems, i) && entry.next == Succ(head, head.elems, i + 1)
    modifies head, entry.prev, entry.next, entry
    ensures head.Ring() && head.elems == old(head.elems[..i]) + old(head.elems[i + 1..])
    ensures entry.home == null && entry.next == entry == entry.prev
    ensures head.home == old(head.home)
  {
    ghost var e := head.elems;
    entry.next.prev := entry.prev;
    entry.prev.next := entry.next;
    entry.next := entry;
    entry.prev := entry;
    entry.home := null;
    head.elems := e[..i] + e[i + 1..];
    ghost var f := head.elems;
    forall k: nat | k <= |f|
      ensures Pred(head, f, k).next == Succ(head, f, k) && Succ(head, f, k).prev == Pred(head, f, k)
    {
      ghost var o := Succ(head, e, if k < i then k else k + 1);
    }
  }

  // ---- the same on a family of disjoint lists -----------------------------

  /** list_add_tail(nw, pos): nw goes before pos, the i-th element of head's list or head itself. */
  method ListAddTail(nw: ListHead, pos: ListHead, ghost head: ListHead, ghost i: nat,
                     ghost heads: set<ListHead>, ghost nodes: set<ListHead>)
    requires Rings(heads, nodes) && head in heads && nw in nodes && nw.home == null
    requires i <= |head.elems| && pos == Succ(head, head.elems, i)
    modifies head, head.elems, nw
    ensures Rings(heads, nodes)
    ensures head.elems == old(head.elems[..i]) + [nw] + old(head.elems[i..])
    ensures nw.home == head && forall n :: n in nodes && n != nw ==> n.home == old(n.home)
  {
    ghost var e := head.elems;
    assert pos.prev == Pred(head, e, i);
    assert forall n :: n in e ==> n in nodes;
    ListInsert(nw, pos.prev, pos, head, i);
    forall h | h in heads && h != head
      ensures h.Ring() && h.elems == old(h.elems)
    {
      assert old(h.Ring());
      assert forall n :: n in h.elems ==> old(n.home) == h && n.next == old(n.next) && n.prev == old(n.prev);
      assert forall j :: 0 <= j < |h.elems| ==> h.elems[j] in h.elems;
    }
  }

  /** list_add(nw, head): nw becomes the first element. */
  method ListAdd(nw: ListHead, head: ListHead, ghost heads: set<ListHead>, ghost nodes: set<ListHead>)
    requires Rings(heads, nodes) && head in heads && nw in nodes && nw.home == null
    modifies head, head.elems, nw
    ensures Rings(heads, nodes)
    ensures head.elems == [nw] + old(head.elems)
    ensures nw.home == head && forall n :: n in nodes && n != nw ==> n.home == old(n.home)
  {
    ghost var e := head.elems;
    assert head.next == Succ(head, e, 0);
    assert forall n :: n in e ==> n in nodes;
    ListInsert(nw, head, head.next, head, 0);
    forall h | h in heads && h != head
      ensures h.Ring() && h.elems == old(h.elems)
    {
      assert old(h.Ring());
      assert forall n :: n in h.elems ==> old(n.home) == h && n.next == old(n.next) && n.prev == old(n.prev);
      assert forall j :: 0 <= j < |h.elems| ==> h.elems[j] in h.elems;
    }
  }

  /** list_del(entry): the i-th element of head's list leaves it. */
  method ListDel(entry: ListHead, ghost head: ListHead, ghost i: nat,
                 ghost heads: set<ListHead>, ghost nodes: set<ListHead>)
    requires Rings(heads, nodes) && head in heads && i < |head.elems| && entry == head.elems[i]
    modifies head, head.elems
    ensures Rings(heads, nodes)
    ensures head.elems == old(head.elems[..i]) + old(head.elems[i + 1..])
    ensures entry.home == null && forall n :: n in nodes && n != entry ==> n.home == old(n.home)
  {
    ghost var e := head.elems;
    assert entry == Succ(head, e, i) == Pred(head, e, i + 1);
    assert entry.next == Succ(head, e, i + 1);
    assert entry in e && forall n :: n in e ==> n in nodes;
    ListRemove(entry, head, i);
    forall h | h in heads && h != head
      ensures h.Ring() && h.elems == old(h.elems)
    {
      assert old(h.Ring());
      assert forall n :: n in h.elems ==> old(n.home) == h && n.next == old(n.next) && n.prev == old(n.prev);
      assert forall j :: 0 <= j < |h.elems| ==> h.elems[j] in h.elems;
    }
  }

  /** Following next and prev from the sentinel or an element. */
  lemma RingLinks(head: ListHead, i: nat)
    requires head.Ring() && i <= |head.elems|
    ensures head.next == Succ(head, head.elems, 0) && head.prev == Pred(head, head.elems, |head.elems|)
    ensures i < |head.elems| ==> head.elems[i].next == Succ(head, head.elems, i + 1)
    ensures i < |head.elems| ==> head.elems[i] != head && head.elems[i].home == head
  {
    assert head.next == Succ(head, head.elems, 0);
    assert head.prev == Pred(head, head.elems, |head.elems|) by {
      assert Succ(head, head.elems, |head.elems|) == head;
    }
    if i < |head.elems| {
      assert head.elems[i] == Pred(head, head.elems, i + 1);
      assert head.elems[i].next == Succ(head, head.elems, i + 1);
      assert head.elems[i] in head.elems;
    }
  }

  lemma RingOf(heads: set<ListHead>, nodes: set<ListHead>, head: ListHead)
    requires Rings(heads, nodes) && head in heads
    ensures head.Ring() && NoDup(head.elems) && forall n :: n in head.elems ==> n in nodes
  {
  }

  /** list_empty. */
  predicate ListEmpty(head: ListHead)
    reads head
  {
    head.next == head
  }

  lemma EmptyIff(head: ListHead)
    requires head.Ring()
    ensures ListEmpty(head) <==> head.elems == []
  {
    assert head.next == Succ(head, head.elems, 0);
  }

  /** INIT_LIST_HEAD on a list_head that is in use nowhere. */
  method InitListHead(l: ListHead, ghost heads: set<ListHead>, ghost nodes: set<ListHead>)
    requires Rings(heads, nodes) && (l in heads ==> l.elems == []) && (l in nodes ==> l.home == null)
    modifies l
    ensures Rings(heads, nodes) && l.next == l == l.prev && l.elems == old(l.elems) && l.home == old(l.home)
  {
    assert l in heads ==> Succ(l, l.elems, 0) == l == l.next;
    l.next := l;
    l.prev := l;
    forall h | h in heads && h != l
      ensures h.Ring()
    {
      assert old(h.Ring());
      assert forall n :: n in h.elems ==> n != l;
    }
  }
}
