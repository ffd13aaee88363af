/** The list of suspended threads of an IPC object (rt_ipc_list_suspend in src/ipc.c). */
module WaitList {
  import opened Ring

  datatype Flag = Fifo | Prio

  function Get(m: map<int, nat>, t: int): nat {
    if t in m then m[t] else 0
  }

  /** Where a thread of priority p joins the waiters w. */
  function Place(flag: Flag, prio: map<int, nat>, w: seq<int>, p: nat): (k: nat)
    ensures k <= |w|
  {
    match flag
    case Fifo => |w|
    case Prio => if w == [] || p < Get(prio, w[0]) then 0 else 1 + Place(flag, prio, w[1..], p)
  }

  /** With the priority flag: behind every waiter that is as urgent, before the first that is less. */
  lemma {:induction false} PlaceSpec(prio: map<int, nat>, w: seq<int>, p: nat)
    ensures var k := Place(Prio, prio, w, p);
      && (forall i :: 0 <= i < k ==> Get(prio, w[i]) <= p)
      && (k < |w| ==> p < Get(prio, w[k]))
  {
    if w != [] && p >= Get(prio, w[0]) { PlaceSpec(prio, w[1..], p); }
  }

  lemma {:induction false} PlaceUnique(prio: map<int, nat>, w: seq<int>, p: nat, k: nat)
    requires k <= |w| && (forall i :: 0 <= i < k ==> Get(prio, w[i]) <= p) && (k < |w| ==> p < Get(prio, w[k]))
    ensures k == Place(Prio, prio, w, p)
  {
    if k > 0 { PlaceUnique(prio, w[1..], p, k - 1); }
  }

  /** The waiters after t has joined them. */
  function Joined(flag: Flag, prio: map<int, nat>, w: seq<int>, t: int): seq<int> {
    InsertAt(w, Place(flag, prio, w, Get(prio, t)), t)
  }

  predicate QueuedAt(flag: Flag, prio: map<int, nat>, w: seq<int>, w': seq<int>, t: int, k: nat) {
    && k <= |w| && w' == w[..k] + [t] + w[k..]
    && match flag
       case Fifo => k == |w|
       case Prio => (forall i :: 0 <= i < k ==> Get(prio, w[i]) <= Get(prio, t)) && (k < |w| ==> Get(prio, t) < Get(prio, w[k]))
  }

  /** The waiters w with t among them, the others in their order: at the end, or else behind all that are as
      urgent and before the first that is less. */
  ghost predicate Queued(flag: Flag, prio: map<int, nat>, w: seq<int>, w': seq<int>, t: int) {
    exists k: nat :: QueuedAt(flag, prio, w, w', t, k)
  }

  lemma JoinedQueues(flag: Flag, prio: map<int, nat>, w: seq<int>, t: int)
    ensures Queued(flag, prio, w, Joined(flag, prio, w, t), t) && t in Joined(flag, prio, w, t)
  {
    var k := Place(flag, prio, w, Get(prio, t));
    if flag == Prio { PlaceSpec(prio, w, Get(prio, t)); }
    assert QueuedAt(flag, prio, w, Joined(flag, prio, w, t), t, k);
    assert Joined(flag, prio, w, t)[k] == t;
  }

  /** The list w has lost t and nothing else. */
  ghost predicate Left(w: seq<int>, w': seq<int>, t: int) {
    exists k :: 0 <= k < |w| && LeftAt(w, w', t, k)
  }

  predicate LeftAt(w: seq<int>, w': seq<int>, t: int, k: nat)
    requires k < |w|
  {
    w[k] == t && w' == w[..k] + w[k + 1..]
  }

  lemma WithoutLeft(w: seq<int>, t: int)
    requires t in w
    ensures Left(w, Without(w, t), t)
  {
    assert LeftAt(w, Without(w, t), t, Index(w, t));
  }

  /** rt_ipc_list_suspend */
  method ListSuspend(flag: Flag, prio: map<int, nat>, list: seq<int>, t: int) returns (list': seq<int>)
    ensures list' == Joined(flag, prio, list, t)
  {
    match flag {
      case Fifo => list' := list + [t];
      case Prio =>
        var n := 0;
        while n < |list| && Get(prio, t) >= Get(prio, list[n])
          invariant 0 <= n <= |list|
          invariant forall i :: 0 <= i < n ==> Get(prio, list[i]) <= Get(prio, t)
        {
          n := n + 1;
        }
        PlaceUnique(prio, list, Get(prio, t), n);
        list' := InsertAt(list, n, t);
    }
  }

  lemma JoinedMembers(flag: Flag, prio: map<int, nat>, w: seq<int>, t: int)
    requires Distinct(w) && t !in w
    ensures Distinct(Joined(flag, prio, w, t)) && forall x :: x in Joined(flag, prio, w, t) <==> x in w || x == t
  {
    var k := Place(flag, prio, w, Get(prio, t));
    InsertDistinct(w, k, t);
    assert w == w[..k] + w[k..];
  }

  lemma RemoveOne(x: set<int>, t: int)
    ensures |x - {t}| >= |x| - 1
  {
    if t in x { assert x == (x - {t}) + {t}; } else { assert x - {t} == x; }
  }
}
