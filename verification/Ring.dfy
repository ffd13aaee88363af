/** The kernel's circular doubly linked list (include/rtservice.h).

    Nodes are integers (addresses); `next` and `prev` hold the two link fields of
    every node.  A list is described by the sequence of nodes met when following
    `next` from its first node, so that "this is a well-formed list with exactly
    these nodes in this order" is one predicate, `IsRing`. */
module Ring {

  ghost predicate Distinct(s: seq<int>) {
    forall i, j :: 0 <= i < j < |s| ==> s[i] != s[j]
  }

  function Succ(n: nat, i: nat): nat {
    if i + 1 == n then 0 else i + 1
  }

  function Pred(n: nat, i: nat): int {
    if i == 0 then n - 1 else i - 1
  }

  /** Both links of the node at position i lead to its neighbours in s. */
  ghost predicate Linked(next: map<int, int>, prev: map<int, int>, s: seq<int>, i: int)
    requires 0 <= i < |s|
  {
    && s[i] in next && next[s[i]] == s[Succ(|s|, i)]
    && s[i] in prev && prev[s[i]] == s[Pred(|s|, i)]
  }

  ghost predicate IsRing(next: map<int, int>, prev: map<int, int>, s: seq<int>) {
    && Distinct(s)
    && (forall i :: 0 <= i < |s| ==> Linked(next, prev, s, i))
  }

  /** Two lists share no node. */
  ghost predicate Apart(s: seq<int>, t: seq<int>) {
    forall i, j :: 0 <= i < |s| && 0 <= j < |t| ==> s[i] != t[j]
  }

  /** A position of x in s, or |s| when there is none. */
  ghost function Index(s: seq<int>, x: int): nat {
    if x in s then var i :| 0 <= i < |s| && s[i] == x; i else |s|
  }

  lemma IndexUnique(s: seq<int>, i: nat)
    requires Distinct(s) && i < |s|
    ensures Index(s, s[i]) == i
  {
  }

  function InsertAt(s: seq<int>, k: nat, x: int): seq<int>
    requires k <= |s|
  {
    s[..k] + [x] + s[k..]
  }

  function RemoveAt(s: seq<int>, k: nat): seq<int>
    requires k < |s|
  {
    s[..k] + s[k + 1..]
  }

  lemma InsertAtIndex(s: seq<int>, k: nat, x: int, i: nat)
    requires k <= |s| && i <= |s|
    ensures |InsertAt(s, k, x)| == |s| + 1
    ensures InsertAt(s, k, x)[i] == if i < k then s[i] else if i == k then x else s[i - 1]
  {
  }

  lemma RemoveAtIndex(s: seq<int>, k: nat, i: nat)
    requires k < |s| && i + 1 < |s|
    ensures |RemoveAt(s, k)| == |s| - 1
    ensures RemoveAt(s, k)[i] == if i < k then s[i] else s[i + 1]
  {
  }

  // ---------------------------------------------------------------- extents

  /** A block runs from the header at x to the next header at e. */
  ghost predicate Extent(b: seq<int>, x: int, e: int) {
    exists i :: 0 <= i < |b| - 1 && At(b, i, x, e)
  }

  ghost predicate At(b: seq<int>, i: int, x: int, e: int)
    requires 0 <= i < |b| - 1
  {
    b[i] == x && b[i + 1] == e
  }

  /** The block at x is at least n long, header included. */
  ghost predicate Room(b: seq<int>, x: int, n: int) {
    exists e :: Extent(b, x, e) && e - x >= n
  }

  lemma InsertExtents(b: seq<int>, k: nat, x: int)
    requires k + 1 < |b|
    ensures Extent(InsertAt(b, k + 1, x), b[k], x)
    ensures forall y, e :: y != b[k] && Extent(b, y, e) ==> Extent(InsertAt(b, k + 1, x), y, e)
  {
    var d := InsertAt(b, k + 1, x);
    InsertAtIndex(b, k + 1, x, k);
    InsertAtIndex(b, k + 1, x, k + 1);
    assert At(d, k, b[k], x);
    forall y, e | y != b[k] && Extent(b, y, e) ensures Extent(d, y, e) {
      var i :| 0 <= i < |b| - 1 && At(b, i, y, e);
      var j := if i < k then i else i + 1;
      InsertAtIndex(b, k + 1, x, j);
      InsertAtIndex(b, k + 1, x, j + 1);
      assert At(d, j, y, e);
    }
  }

  lemma RemoveExtents(b: seq<int>, k: nat)
    requires k + 2 < |b|
    ensures forall y, e :: y != b[k] && y != b[k + 1] && Extent(b, y, e) ==> Extent(RemoveAt(b, k + 1), y, e)
  {
    var d := RemoveAt(b, k + 1);
    forall y, e | y != b[k] && y != b[k + 1] && Extent(b, y, e) ensures Extent(d, y, e) {
      var i :| 0 <= i < |b| - 1 && At(b, i, y, e);
      var j := if i < k then i else i - 1;
      RemoveAtIndex(b, k + 1, j);
      if j + 2 < |b| { RemoveAtIndex(b, k + 1, j + 1); }
      assert At(d, j, y, e);
    }
  }

  lemma InsertDistinct(s: seq<int>, k: nat, x: int)
    requires Distinct(s) && k <= |s| && x !in s
    ensures Distinct(InsertAt(s, k, x))
  {
    var t := InsertAt(s, k, x);
    forall i, j | 0 <= i < j < |t| ensures t[i] != t[j] {
      InsertAtIndex(s, k, x, i);
      InsertAtIndex(s, k, x, j);
    }
  }

  lemma RemoveDistinct(s: seq<int>, k: nat)
    requires Distinct(s) && k < |s|
    ensures Distinct(RemoveAt(s, k)) && s[k] !in RemoveAt(s, k)
  {
    var t := RemoveAt(s, k);
    forall i | 0 <= i < |t| ensures t[i] != s[k] {
      RemoveAtIndex(s, k, i);
    }
    forall i, j | 0 <= i < j < |t| ensures t[i] != t[j] {
      RemoveAtIndex(s, k, i);
      RemoveAtIndex(s, k, j);
    }
  }

  lemma InsertMembers(b: seq<int>, k: nat, x: int)
    requires k <= |b|
    ensures forall y :: y in InsertAt(b, k, x) <==> y in b || y == x
  {
    assert b == b[..k] + b[k..];
  }

  lemma RemoveMembers(b: seq<int>, k: nat)
    requires Distinct(b) && k < |b|
    ensures forall y :: y in RemoveAt(b, k) <==> y in b && y != b[k]
  {
    RemoveDistinct(b, k);
    assert b == b[..k] + [b[k]] + b[k + 1..];
  }

  /** The list after x, if it is there, has been unlinked. */
  ghost function Without(s: seq<int>, x: int): seq<int> {
    if x in s then RemoveAt(s, Index(s, x)) else s
  }

  lemma WithoutMembers(s: seq<int>, x: int)
    requires Distinct(s)
    ensures Distinct(Without(s, x)) && forall y :: y in Without(s, x) <==> y in s && y != x
  {
    if x in s {
      var k := Index(s, x);
      RemoveDistinct(s, k);
      assert s == s[..k] + [s[k]] + s[k + 1..];
    }
  }

  lemma WithoutLast(q: seq<int>, t: int)
    requires t !in q
    ensures Without(q + [t], t) == q
  {
    assert Index(q + [t], t) == |q|;
  }

  lemma WithoutFirst(q: seq<int>)
    requires q != [] && Distinct(q)
    ensures Without(q, q[0]) == q[1..]
  {
    IndexUnique(q, 0);
  }

  lemma PushDistinct(s: seq<int>, x: int)
    requires Distinct(s) && x !in s
    ensures Distinct([x] + s)
  {
    assert InsertAt(s, 0, x) == [x] + s;
    InsertDistinct(s, 0, x);
  }

  /** Linking a new node x behind position k of a ring. */
  lemma InsertAfterRing(next: map<int, int>, prev: map<int, int>, s: seq<int>, k: nat, x: int)
    requires IsRing(next, prev, s) && k < |s| && x !in s
    ensures Linked(next, prev, s, k)
    ensures IsRing(next[x := next[s[k]]][s[k] := x], prev[next[s[k]] := x][x := s[k]], InsertAt(s, k + 1, x))
  {
    assert Linked(next, prev, s, k);
    InsertDistinct(s, k + 1, x);
    var next', prev' := next[x := next[s[k]]][s[k] := x], prev[next[s[k]] := x][x := s[k]];
    var t := InsertAt(s, k + 1, x);
    forall i | 0 <= i < |t| ensures Linked(next', prev', t, i) {
      if i <= k {
        InsertLinked(next, prev, s, k, x, i);
      } else if i == k + 1 {
        InsertAtIndex(s, k + 1, x, i);
        InsertAtIndex(s, k + 1, x, Succ(|s| + 1, i));
        InsertAtIndex(s, k + 1, x, k);
      } else {
        InsertLinkedBehind(next, prev, s, k, x, i - 1);
      }
    }
  }

  lemma InsertLinked(next: map<int, int>, prev: map<int, int>, s: seq<int>, k: nat, x: int, i: nat)
    requires IsRing(next, prev, s) && i <= k < |s| && x !in s && Linked(next, prev, s, k)
    ensures Linked(next[x := next[s[k]]][s[k] := x], prev[next[s[k]] := x][x := s[k]], InsertAt(s, k + 1, x), i)
  {
    InsertAtIndex(s, k + 1, x, i);
    InsertAtIndex(s, k + 1, x, i + 1);
    InsertAtIndex(s, k + 1, x, Pred(|s| + 1, i));
    assert Linked(next, prev, s, i);
  }

  lemma InsertLinkedBehind(next: map<int, int>, prev: map<int, int>, s: seq<int>, k: nat, x: int, i: nat)
    requires IsRing(next, prev, s) && k < i < |s| && x !in s && Linked(next, prev, s, k)
    ensures Linked(next[x := next[s[k]]][s[k] := x], prev[next[s[k]] := x][x := s[k]], InsertAt(s, k + 1, x), i + 1)
  {
    InsertAtIndex(s, k + 1, x, i + 1);
    InsertAtIndex(s, k + 1, x, Succ(|s| + 1, i + 1));
    InsertAtIndex(s, k + 1, x, i);
    assert Linked(next, prev, s, i);
  }

  /** Unlinking the node at position k of a ring with at least two nodes. */
  lemma RemoveRing(next: map<int, int>, prev: map<int, int>, s: seq<int>, k: nat)
    requires IsRing(next, prev, s) && k < |s| && 2 <= |s|
    ensures Linked(next, prev, s, k)
    ensures IsRing(next[prev[s[k]] := next[s[k]]], prev[next[s[k]] := prev[s[k]]], RemoveAt(s, k))
  {
    assert Linked(next, prev, s, k);
    var t := RemoveAt(s, k);
    RemoveDistinct(s, k);
    var next', prev' := next[prev[s[k]] := next[s[k]]], prev[next[s[k]] := prev[s[k]]];
    forall i | 0 <= i < |t| ensures Linked(next', prev', t, i) {
      RemoveAtIndex(s, k, i);
      RemoveAtIndex(s, k, Succ(|t|, i));
      RemoveAtIndex(s, k, Pred(|t|, i));
      assert Linked(next, prev, s, if i < k then i else i + 1);
    }
  }

  /** A ring only depends on the links of its own nodes. */
  lemma RingFrame(next: map<int, int>, prev: map<int, int>, next': map<int, int>, prev': map<int, int>, s: seq<int>)
    requires IsRing(next, prev, s)
    requires forall x :: x in s && x in next ==> x in next' && next'[x] == next[x]
    requires forall x :: x in s && x in prev ==> x in prev' && prev'[x] == prev[x]
    ensures IsRing(next', prev', s)
  {
    forall i | 0 <= i < |s| ensures Linked(next', prev', s, i) {
      assert Linked(next, prev, s, i);
    }
  }

  class Links {
    var next: map<int, int>
    var prev: map<int, int>

    constructor ()
      ensures next == map[] && prev == map[]
    {
      next, prev := map[], map[];
    }

    /** rt_list_init: the node becomes a list of its own; every other list is untouched. */
    method Init(l: int)
      modifies this
      ensures IsRing(next, prev, [l])
      ensures forall t: seq<int> :: IsRing(old(next), old(prev), t) && l !in t ==> IsRing(next, prev, t)
    {
      next, prev := next[l := l], prev[l := l];
      forall t: seq<int> | IsRing(old(next), old(prev), t) && l !in t ensures IsRing(next, prev, t) {
        RingFrame(old(next), old(prev), next, prev, t);
      }
    }

    /** rt_list_insert_after, for the node l at position k of a list s. */
    method InsertAfter(l: int, n: int, ghost s: seq<int>, ghost k: nat)
      requires IsRing(next, prev, s) && k < |s| && s[k] == l && n !in s
      modifies this
      ensures IsRing(next, prev, InsertAt(s, k + 1, n))
      ensures forall t: seq<int> :: IsRing(old(next), old(prev), t) && Apart(s + [n], t) ==> IsRing(next, prev, t)
    {
      InsertAfterRing(next, prev, s, k, n);
      assert s[Succ(|s|, k)] == next[l];
      prev := prev[next[l] := n];
      next := next[n := next[l]];
      next := next[l := n];
      prev := prev[n := l];
      forall t: seq<int> | IsRing(old(next), old(prev), t) && Apart(s + [n], t) ensures IsRing(next, prev, t) {
        ApartMembers(s + [n], t);
        assert (s + [n])[k] == l && (s + [n])[|s|] == n && (s + [n])[Succ(|s|, k)] == old(next[l]);
        RingFrame(old(next), old(prev), next, prev, t);
      }
    }

    /** rt_list_insert_before: the same as inserting behind the predecessor, so inserting
        before a list head appends. */
    method InsertBefore(l: int, n: int, ghost s: seq<int>)
      requires IsRing(next, prev, s) && |s| > 0 && s[0] == l && n !in s
      modifies this
      ensures IsRing(next, prev, s + [n])
      ensures forall t: seq<int> :: IsRing(old(next), old(prev), t) && Apart(s + [n], t) ==> IsRing(next, prev, t)
    {
      assert Linked(next, prev, s, 0) && Linked(next, prev, s, |s| - 1);
      ghost var p := prev[l];
      assert p == s[|s| - 1] && next[p] == l;
      InsertAfterRing(next, prev, s, |s| - 1, n);
      assert InsertAt(s, |s|, n) == s + [n];
      next := next[prev[l] := n];
      prev := prev[n := prev[l]];
      prev := prev[l := n];
      next := next[n := l];
      assert next == old(next)[n := old(next)[p]][p := n] && prev == old(prev)[l := n][n := p];
      forall t: seq<int> | IsRing(old(next), old(prev), t) && Apart(s + [n], t) ensures IsRing(next, prev, t) {
        ApartMembers(s + [n], t);
        assert (s + [n])[0] == l && (s + [n])[|s|] == n && (s + [n])[|s| - 1] == p;
        RingFrame(old(next), old(prev), next, prev, t);
      }
    }

    /** rt_list_remove: the node leaves its list and is left self-linked, so removing it
        again is harmless. */
    method Remove(n: int, ghost s: seq<int>, ghost k: nat)
      requires IsRing(next, prev, s) && k < |s| && s[k] == n
      modifies this
      ensures |s| > 1 ==> IsRing(next, prev, RemoveAt(s, k))
      ensures IsRing(next, prev, [n])
      ensures forall t: seq<int> :: IsRing(old(next), old(prev), t) && Apart(s, t) ==> IsRing(next, prev, t)
    {
      ghost var r := RemoveAt(s, k);
      if |s| > 1 { RemoveRing(next, prev, s, k); }
      assert Linked(next, prev, s, k);
      prev := prev[next[n] := prev[n]];
      next := next[prev[n] := next[n]];
      ghost var next1, prev1 := next, prev;
      next, prev := next[n := n], prev[n := n];
      if |s| > 1 {
        assert next1 == old(next)[old(prev[n]) := old(next[n])];
        RingFrame(next1, prev1, next, prev, r);
      }
      forall t: seq<int> | IsRing(old(next), old(prev), t) && Apart(s, t) ensures IsRing(next, prev, t) {
        ApartMembers(s, t);
        assert s[Succ(|s|, k)] == old(next[n]) && s[Pred(|s|, k)] == old(prev[n]);
        RingFrame(old(next), old(prev), next, prev, t);
      }
    }

    /** rt_list_isempty */
    method IsEmpty(l: int, ghost s: seq<int>) returns (b: bool)
      requires IsRing(next, prev, s) && |s| > 0 && s[0] == l
      ensures b <==> |s| == 1
    {
      assert Linked(next, prev, s, 0);
      b := next[l] == l;
    }

    /** rt_list_len */
    method Len(l: int, ghost s: seq<int>) returns (len: nat)
      requires IsRing(next, prev, s) && |s| > 0 && s[0] == l
      ensures len == |s| - 1
    {
      len := 0;
      var p := l;
      assert Linked(next, prev, s, 0);
      while next[p] != l
        invariant 0 <= len < |s| && p == s[len] && Linked(next, prev, s, len)
        decreases |s| - len
      {
        p := next[p];
        len := len + 1;
        assert Linked(next, prev, s, len);
      }
    }
  }

  lemma ApartMembers(s: seq<int>, t: seq<int>)
    requires Apart(s, t)
    ensures forall x :: x in t ==> x !in s
  {
  }
}
