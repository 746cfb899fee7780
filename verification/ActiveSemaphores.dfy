/** What the sorted list semd_h stands for: a map from key to non-empty queue. */
module ActiveSemaphores {
  import opened Sequences
  import opened KernelState
  import opened KernelSteps

  ghost predicate Sorted(keys: seq<Addr>) {
    forall i, j :: 0 <= i < j < |keys| ==> keys[i] < keys[j]
  }

  /** Sorted keys with non-empty queues stand for the map from key to queue. */
  ghost predicate Represents(keys: seq<Addr>, queues: seq<seq<Slot>>, asl: map<Addr, seq<Slot>>) {
    && |keys| == |queues| && Sorted(keys)
    && (forall i :: 0 <= i < |keys| ==> keys[i] in asl && asl[keys[i]] == queues[i] && queues[i] != [])
    && (forall a :: a in asl ==> a in keys)
  }

  /** The same, but the i-th queue is being changed: asl need not know it, and it may be empty. */
  ghost predicate RepresentsBut(keys: seq<Addr>, queues: seq<seq<Slot>>, asl: map<Addr, seq<Slot>>, i: nat) {
    && |keys| == |queues| && i < |keys| && Sorted(keys)
    && (forall j :: 0 <= j < |keys| && j != i ==> keys[j] in asl && asl[keys[j]] == queues[j] && queues[j] != [])
    && (forall a :: a in asl ==> a in keys)
  }

  /** getSemd's early exit: if the key before i is lower and the one at i is higher, a is not active. */
  lemma EarlyExit(keys: seq<Addr>, queues: seq<seq<Slot>>, asl: map<Addr, seq<Slot>>, i: nat, a: Addr)
    requires Represents(keys, queues, asl) && i <= |keys|
    requires (i > 0 ==> keys[i - 1] < a) && (i < |keys| ==> keys[i] > a)
    ensures a !in asl
  {
    if a in asl {
      var j :| 0 <= j < |keys| && keys[j] == a;
    }
  }

  lemma SortedInsert(keys: seq<Addr>, i: nat, a: Addr)
    requires Sorted(keys) && i <= |keys| && a !in keys
    requires (forall j :: 0 <= j < i ==> keys[j] <= a) && (i < |keys| ==> keys[i] > a)
    ensures Sorted(keys[..i] + [a] + keys[i..])
    ensures forall x :: x in keys ==> x in keys[..i] + [a] + keys[i..]
  {
    assert forall j :: 0 <= j < i ==> keys[j] < a;
    assert keys == keys[..i] + keys[i..];
  }

  /** A new key goes before the first higher one. */
  lemma KeyInserted(keys: seq<Addr>, queues: seq<seq<Slot>>, asl: map<Addr, seq<Slot>>, i: nat, a: Addr)
    requires Represents(keys, queues, asl) && i <= |keys| && a !in asl
    requires (forall j :: 0 <= j < i ==> keys[j] <= a) && (i < |keys| ==> keys[i] > a)
    ensures RepresentsBut(keys[..i] + [a] + keys[i..], queues[..i] + [[]] + queues[i..], asl, i)
  {
    var ks, qs := keys[..i] + [a] + keys[i..], queues[..i] + [[]] + queues[i..];
    SortedInsert(keys, i, a);
    hide Sorted;
    forall j | 0 <= j < |ks| && j != i
      ensures ks[j] in asl && asl[ks[j]] == qs[j] && qs[j] != []
    {
      var o := if j < i then j else j - 1;
      assert ks[j] == keys[o] && qs[j] == queues[o];
    }
  }

  /** What the i-th queue holds does not matter while it is being changed. */
  lemma OneQueueChanged(
      keys: seq<Addr>, queues: seq<seq<Slot>>, changed: seq<seq<Slot>>, asl: map<Addr, seq<Slot>>, i: nat)
    requires RepresentsBut(keys, queues, asl, i) && |changed| == |queues|
    requires forall j :: 0 <= j < |queues| && j != i ==> changed[j] == queues[j]
    ensures RepresentsBut(keys, changed, asl, i)
  {
  }

  lemma QueueOpened(keys: seq<Addr>, queues: seq<seq<Slot>>, asl: map<Addr, seq<Slot>>, i: nat)
    requires Represents(keys, queues, asl) && i < |keys|
    ensures RepresentsBut(keys, queues, asl, i) && keys[i] in asl && queues[i] == asl[keys[i]]
  {
  }

  lemma QueueClosed(keys: seq<Addr>, queues: seq<seq<Slot>>, asl: map<Addr, seq<Slot>>, i: nat)
    requires RepresentsBut(keys, queues, asl, i) && queues[i] != []
    ensures Represents(keys, queues, SetQ(asl, keys[i], queues[i]))
  {
  }

  lemma SortedRemove(keys: seq<Addr>, i: nat)
    requires Sorted(keys) && i < |keys|
    ensures Sorted(keys[..i] + keys[i + 1..])
    ensures forall x :: x in keys && x != keys[i] ==> x in keys[..i] + keys[i + 1..]
  {
    assert keys == keys[..i] + [keys[i]] + keys[i + 1..];
  }

  /** The descriptor of a queue that ran empty leaves the list. */
  lemma KeyRemoved(keys: seq<Addr>, queues: seq<seq<Slot>>, asl: map<Addr, seq<Slot>>, i: nat)
    requires RepresentsBut(keys, queues, asl, i)
    ensures Represents(keys[..i] + keys[i + 1..], queues[..i] + queues[i + 1..], SetQ(asl, keys[i], []))
  {
    var ks, qs, r := keys[..i] + keys[i + 1..], queues[..i] + queues[i + 1..], SetQ(asl, keys[i], []);
    SortedRemove(keys, i);
    RestRemains(keys, queues, asl, i);
    hide Sorted, SetQ, RepresentsBut;
    assert |ks| == |qs| && forall a :: a in r ==> a in asl && a != keys[i];
  }

  lemma RestRemains(keys: seq<Addr>, queues: seq<seq<Slot>>, asl: map<Addr, seq<Slot>>, i: nat)
    requires RepresentsBut(keys, queues, asl, i)
    ensures |keys| == |queues| && i < |keys| && forall a :: a in asl ==> a in keys
    ensures var ks, qs, r := keys[..i] + keys[i + 1..], queues[..i] + queues[i + 1..], SetQ(asl, keys[i], []);
      |ks| == |qs| && forall j :: 0 <= j < |ks| ==> ks[j] in r && r[ks[j]] == qs[j] && qs[j] != []
  {
    hide SetQ;
    var ks, qs, r := keys[..i] + keys[i + 1..], queues[..i] + queues[i + 1..], SetQ(asl, keys[i], []);
    forall j | 0 <= j < |ks|
      ensures ks[j] in r && r[ks[j]] == qs[j] && qs[j] != []
    {
      var o := if j < i then j else j + 1;
      assert ks[j] == keys[o] && qs[j] == queues[o];
      assert keys[o] != keys[i];
    }
  }

  /** There are as many active descriptors as active semaphores. */
  lemma KeysCounted(keys: seq<Addr>, queues: seq<seq<Slot>>, asl: map<Addr, seq<Slot>>)
    requires Represents(keys, queues, asl)
    ensures |asl| == |keys|
  {
    forall x
      ensures x in asl.Keys <==> x in Elems(keys)
    {
      if x in keys {
        var i :| 0 <= i < |keys| && keys[i] == x;
      }
    }
    assert asl.Keys == Elems(keys);
    NoDupCard(keys);
  }
}
