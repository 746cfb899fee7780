/** Facts about sequences without duplicates: deletion, reversal and relative order. */
module Sequences {

  datatype Option<+T> = None | Some(value: T)

  ghost predicate NoDup<T>(q: seq<T>) {
    forall i, j :: 0 <= i < j < |q| ==> q[i] != q[j]
  }

  lemma NoDupConcat<T(!new)>(q: seq<T>, r: seq<T>)
    requires NoDup(q) && NoDup(r) && forall x :: x in q ==> x !in r
    ensures NoDup(q + r)
  {
    forall i, j | 0 <= i < j < |q + r|
      ensures (q + r)[i] != (q + r)[j]
    {
      if i < |q| <= j {
        assert (q + r)[i] in q && (q + r)[j] in r;
      }
    }
  }

  function Elems<T>(q: seq<T>): set<T> {
    set x | x in q
  }

  /** q without the elements of dead, order kept. */
  function Without<T(==,!new)>(q: seq<T>, dead: set<T>): (r: seq<T>)
    ensures forall x :: x in r <==> x in q && x !in dead
    ensures |r| <= |q|
  {
    if q == [] then []
    else if q[0] in dead then Without(q[1..], dead)
    else [q[0]] + Without(q[1..], dead)
  }

  function Reverse<T(!new)>(q: seq<T>): (r: seq<T>)
    ensures |r| == |q|
    ensures forall x :: x in r <==> x in q
  {
    if q == [] then [] else Reverse(q[1..]) + [q[0]]
  }

  lemma {:induction false} ReverseAppend<T(!new)>(q: seq<T>, r: seq<T>)
    ensures Reverse(q + r) == Reverse(r) + Reverse(q)
  {
    if q == [] {
      assert q + r == r;
    } else {
      assert (q + r)[1..] == q[1..] + r;
      ReverseAppend(q[1..], r);
    }
  }

  lemma {:induction false} ReverseNoDup<T(!new)>(q: seq<T>)
    requires NoDup(q)
    ensures NoDup(Reverse(q))
  {
    if q != [] {
      ReverseNoDup(q[1..]);
      NoDupConcat(Reverse(q[1..]), [q[0]]);
    }
  }

  lemma {:induction false} WithoutAppend<T(!new)>(q: seq<T>, r: seq<T>, dead: set<T>)
    ensures Without(q + r, dead) == Without(q, dead) + Without(r, dead)
  {
    if q == [] {
      assert q + r == r;
    } else {
      assert (q + r)[1..] == q[1..] + r;
      WithoutAppend(q[1..], r, dead);
    }
  }

  lemma {:induction false} WithoutNoDup<T(!new)>(q: seq<T>, dead: set<T>)
    requires NoDup(q)
    ensures NoDup(Without(q, dead))
  {
    if q != [] {
      WithoutNoDup(q[1..], dead);
    }
  }

  lemma {:induction false} WithoutTwice<T(!new)>(q: seq<T>, a: set<T>, b: set<T>)
    ensures Without(Without(q, a), b) == Without(q, a + b)
  {
    if q != [] {
      WithoutTwice(q[1..], a, b);
    }
  }

  lemma {:induction false} WithoutAbsent<T(!new)>(q: seq<T>, dead: set<T>)
    requires forall x :: x in dead ==> x !in q
    ensures Without(q, dead) == q
  {
    if q != [] {
      assert q[0] in q;
      assert forall x :: x in q[1..] ==> x in q;
      WithoutAbsent(q[1..], dead);
    }
  }

  /** Only the part of dead that occurs in q matters. */
  lemma {:induction false} WithoutSame<T(!new)>(q: seq<T>, a: set<T>, b: set<T>)
    requires forall x :: x in q ==> (x in a <==> x in b)
    ensures Without(q, a) == Without(q, b)
  {
    if q != [] {
      assert q[0] in q;
      assert forall x :: x in q[1..] ==> x in q;
      WithoutSame(q[1..], a, b);
    }
  }

  lemma {:induction false} WithoutAll<T(!new)>(q: seq<T>, dead: set<T>)
    requires forall x :: x in q ==> x in dead
    ensures Without(q, dead) == []
  {
    if q != [] {
      assert q[0] in q && forall x :: x in q[1..] ==> x in q;
      WithoutAll(q[1..], dead);
    }
  }

  /** Deleting the one occurrence of q[i]. */
  lemma {:induction false} WithoutOne<T(!new)>(q: seq<T>, i: nat)
    requires NoDup(q) && i < |q|
    ensures Without(q, {q[i]}) == q[..i] + q[i + 1..]
  {
    assert q == q[..i] + ([q[i]] + q[i + 1..]);
    WithoutAppend(q[..i], [q[i]] + q[i + 1..], {q[i]});
    WithoutAppend([q[i]], q[i + 1..], {q[i]});
    WithoutAbsent(q[..i], {q[i]});
    WithoutAbsent(q[i + 1..], {q[i]});
  }

  /** x stands before y in q. */
  ghost predicate Before<T>(q: seq<T>, x: T, y: T) {
    exists i, j :: 0 <= i < j < |q| && q[i] == x && q[j] == y
  }

  lemma BeforeAppend<T(!new)>(q: seq<T>, r: seq<T>, x: T, y: T)
    requires NoDup(q + r)
    ensures Before(q + r, x, y) <==> Before(q, x, y) || Before(r, x, y) || (x in q && y in r)
  {
    var s := q + r;
    if Before(s, x, y) {
      var i, j :| 0 <= i < j < |s| && s[i] == x && s[j] == y;
      if i >= |q| {
        assert r[i - |q|] == x && r[j - |q|] == y;
      } else if j < |q| {
        assert q[i] == x && q[j] == y;
      }
    }
    if Before(q, x, y) {
      var i, j :| 0 <= i < j < |q| && q[i] == x && q[j] == y;
      assert s[i] == x && s[j] == y;
    }
    if Before(r, x, y) {
      var i, j :| 0 <= i < j < |r| && r[i] == x && r[j] == y;
      assert s[|q| + i] == x && s[|q| + j] == y;
    }
    if x in q && y in r {
      var i :| 0 <= i < |q| && q[i] == x;
      var j :| 0 <= j < |r| && r[j] == y;
      assert s[i] == x && s[|q| + j] == y;
    }
  }

  /** Putting p between q and r does not change the order of the others. */
  lemma BeforeInsert<T(!new)>(q: seq<T>, r: seq<T>, p: T, x: T, y: T)
    requires NoDup(q + ([p] + r)) && x != p && y != p
    ensures NoDup(q + r)
    ensures Before(q + ([p] + r), x, y) <==> Before(q + r, x, y)
  {
    var s := q + ([p] + r);
    assert forall i :: 0 <= i < |q + r| ==> (q + r)[i] == s[if i < |q| then i else i + 1];
    assert NoDup([p] + r) by { assert forall i :: 0 <= i < |r| + 1 ==> ([p] + r)[i] == s[|q| + i]; }
    BeforeAppend(q, [p] + r, x, y);
    BeforeAppend([p], r, x, y);
    BeforeAppend(q, r, x, y);
  }

  lemma {:induction false} BeforeWithout<T(!new)>(q: seq<T>, dead: set<T>, x: T, y: T)
    requires NoDup(q) && x !in dead && y !in dead
    ensures Before(Without(q, dead), x, y) <==> Before(q, x, y)
  {
    if q != [] {
      var t := q[1..];
      BeforeWithout(t, dead, x, y);
      assert q == [q[0]] + t;
      BeforeAppend([q[0]], t, x, y);
      if q[0] !in dead {
        WithoutNoDup(q, dead);
        BeforeAppend([q[0]], Without(t, dead), x, y);
      }
    }
  }

  lemma {:induction false} NoDupCard<T(!new)>(q: seq<T>)
    requires NoDup(q)
    ensures |Elems(q)| == |q|
  {
    if q != [] {
      NoDupCard(q[1..]);
      assert Elems(q) == Elems(q[1..]) + {q[0]};
      assert q[0] !in q[1..];
    }
  }

  /** The numbers below n. */
  ghost function Below(n: nat): (s: set<nat>)
    ensures forall i: nat :: i in s <==> i < n
    ensures |s| == n
  {
    if n == 0 then {} else Below(n - 1) + {n - 1}
  }

  lemma {:induction false} SubsetCard<T(!new)>(a: set<T>, b: set<T>)
    requires a <= b
    ensures |a| <= |b| && (|a| == |b| ==> a == b) && (a != b ==> |a| < |b|)
  {
    assert b == a + (b - a);
    assert |b| == |a| + |b - a|;
  }

  lemma MinusCard<T(!new)>(s: set<T>, t: set<T>, d: set<T>)
    requires d <= s && forall x :: x in t <==> x in s && x !in d
    ensures |t| == |s| - |d|
  {
    assert t == s - d;
  }

  /** An injection from keys into vals. */
  lemma {:induction false} Pigeonhole<K(!new), V(!new)>(m: map<K, V>, keys: set<K>, vals: set<V>)
    requires forall x :: x in keys ==> x in m && m[x] in vals
    requires forall x, y :: x in keys && y in keys && x != y ==> m[x] != m[y]
    ensures |keys| <= |vals|
  {
    if keys != {} {
      var x :| x in keys;
      Pigeonhole(m, keys - {x}, vals - {m[x]});
    }
  }
}
