/** The message queue of src/ipc.c.  Its calls run in several interrupt-free sections with unprotected
    copying in between, so a node of the pool can be in the hands of a sender or a receiver.

    `MsgQueueSpec` is the state machine on lists of nodes, one section or copy per step; `MsgQueue` is the
    object with its link fields. */
module MsgQueueSpec {
  import opened Ring
  import opened WaitList

  /** What a caller in the middle of a call has in its hands: a node from the free list, one with a letter
      written into it (`front` for rt_mq_urgent), or one taken from the queue. */
  datatype Held = Grabbed(node: int) | Written(node: int, letter: seq<int>, front: bool) | Taken(node: int, letter: seq<int>)

  /** `queue` and `free` are the nodes on the two lists, `data` the bytes behind each node.
      History: who holds which node, the letters sent and not yet received, the receivers resumed but not
      yet run again. */
  datatype State = State(count: nat, msgSize: nat, queue: seq<int>, free: seq<int>, data: map<int, seq<int>>, entry: nat,
                         receivers: seq<int>, held: map<int, Held>, letters: seq<seq<int>>, woken: set<int>)

  datatype Outcome = Done | Full | Refused | Blocked | GivenUp

  // ---------------------------------------------------------------- the invariant

  ghost predicate Holds(held: map<int, Held>, n: int) {
    exists t :: t in held && held[t].node == n
  }

  ghost predicate HeldOnce(held: map<int, Held>) {
    forall t, u :: t in held && u in held && held[t].node == held[u].node ==> t == u
  }

  /** A node is in the queue, on the free list or in somebody's hands. */
  ghost predicate Somewhere(queue: seq<int>, free: seq<int>, held: map<int, Held>, n: int) {
    n in queue || n in free || Holds(held, n)
  }

  /** Each node of the pool is in one place, and once. */
  ghost predicate Partition(count: nat, queue: seq<int>, free: seq<int>, held: map<int, Held>) {
    && Distinct(queue) && Distinct(free) && HeldOnce(held)
    && (forall n :: n in queue ==> n !in free)
    && (forall n :: Holds(held, n) ==> n !in queue && n !in free)
    && (forall n :: 0 <= n < count <==> Somewhere(queue, free, held, n))
  }

  predicate Bytes(data: map<int, seq<int>>, size: nat, n: int) {
    n in data && |data[n]| == size
  }

  predicate Carries(data: map<int, seq<int>>, n: int, letter: seq<int>) {
    n in data && letter <= data[n]
  }

  predicate CarriesAll(data: map<int, seq<int>>, queue: seq<int>, letters: seq<seq<int>>)
    requires |letters| == |queue|
  {
    forall i :: 0 <= i < |queue| ==> Carries(data, queue[i], letters[i])
  }

  predicate CarriesHeld(data: map<int, seq<int>>, held: map<int, Held>) {
    forall t :: t in held && !held[t].Grabbed? ==> Carries(data, held[t].node, held[t].letter)
  }

  /** Every queued node, and every node in the hands of somebody who has written it or will read it,
      carries its letter. */
  ghost predicate LettersOk(s: State) {
    && (forall n :: 0 <= n < s.count ==> Bytes(s.data, s.msgSize, n))
    && |s.letters| == |s.queue| == s.entry
    && CarriesAll(s.data, s.queue, s.letters) && CarriesHeld(s.data, s.held)
  }

  /** While receivers wait, every message has a receiver on its way. */
  ghost predicate WaitersOk(s: State) {
    && Distinct(s.receivers)
    && (forall t :: t in s.receivers ==> t !in s.woken)
    && (s.receivers != [] ==> s.entry <= |s.woken|)
  }

  ghost predicate Inv(s: State) {
    Partition(s.count, s.queue, s.free, s.held) && LettersOk(s) && WaitersOk(s)
  }

  // ---------------------------------------------------------------- the steps

  /** The first section of rt_mq_send and rt_mq_urgent */
  function Grab(s: State, t: int, letter: seq<int>): (State, Outcome) {
    if |letter| > s.msgSize then (s, Refused)
    else if s.free == [] then (s, Full)
    else (s.(free := s.free[1..], held := s.held[t := Grabbed(s.free[0])]), Done)
  }

  /** Copying the letter into the node */
  function Write(s: State, t: int, letter: seq<int>, front: bool): State
    requires t in s.held && Bytes(s.data, s.msgSize, s.held[t].node) && |letter| <= s.msgSize
  {
    var n := s.held[t].node;
    s.(data := s.data[n := letter + s.data[n][|letter|..]], held := s.held[t := Written(n, letter, front)])
  }

  function Wake(s: State): State {
    if s.receivers == [] then s
    else s.(receivers := s.receivers[1..], woken := s.woken + {s.receivers[0]})
  }

  /** The last section of rt_mq_send and of rt_mq_urgent */
  function Link(s: State, t: int): State
    requires t in s.held && s.held[t].Written?
  {
    var Written(n, letter, front) := s.held[t];
    var s1 := if front then s.(queue := [n] + s.queue, letters := [letter] + s.letters)
              else s.(queue := s.queue + [n], letters := s.letters + [letter]);
    Wake(s1.(entry := s.entry + 1, held := s.held - {t}))
  }

  /** One round of the first section of rt_mq_recv */
  function Unlink(flag: Flag, prio: map<int, nat>, s: State, t: int, wait: bool): (State, Outcome)
    requires Inv(s)
  {
    var s1 := s.(woken := s.woken - {t});
    if s.entry == 0 then
      if wait then (s1.(receivers := Joined(flag, prio, s.receivers, t)), Blocked) else (s1, GivenUp)
    else
      (s1.(queue := s.queue[1..], letters := s.letters[1..], entry := s.entry - 1,
           held := s.held[t := Taken(s.queue[0], s.letters[0])]), Done)
  }

  /** What rt_mq_recv copies out for a caller with room for `size` bytes */
  function Read(s: State, t: int, size: nat): seq<int>
    requires t in s.held && Bytes(s.data, s.msgSize, s.held[t].node)
  {
    s.data[s.held[t].node][..if size > s.msgSize then s.msgSize else size]
  }

  /** The last section of rt_mq_recv */
  function GiveBack(s: State, t: int): State
    requires t in s.held
  {
    s.(free := [s.held[t].node] + s.free, held := s.held - {t})
  }

  ghost function Timeout(s: State, t: int): State {
    s.(receivers := Without(s.receivers, t))
  }

  function Reversed(q: seq<int>): seq<int> {
    if q == [] then [] else Reversed(q[1..]) + [q[0]]
  }

  /** rt_mq_control with RT_IPC_CMD_RESET: the queued nodes go to the free list one by one. */
  function Reset(s: State): State {
    s.(queue := [], free := Reversed(s.queue) + s.free, letters := [], entry := 0, receivers := [])
  }

  // ---------------------------------------------------------------- what the steps keep

  /** Somebody who had no node gets one that nobody holds. */
  lemma Hold(held: map<int, Held>, t: int, h: Held)
    requires t !in held && HeldOnce(held) && !Holds(held, h.node)
    ensures HeldOnce(held[t := h]) && forall n :: Holds(held[t := h], n) <==> Holds(held, n) || n == h.node
  {
    var held' := held[t := h];
    forall n ensures Holds(held', n) <==> Holds(held, n) || n == h.node {
      if Holds(held, n) { var u :| u in held && held[u].node == n; assert u in held' && held'[u].node == n; }
      if n == h.node { assert t in held' && held'[t].node == n; }
    }
    forall u, v | u in held' && v in held' && held'[u].node == held'[v].node ensures u == v {
      assert u != t ==> Holds(held, held'[u].node);
      assert v != t ==> Holds(held, held'[v].node);
    }
  }

  /** Somebody lets go of a node. */
  lemma LetGo(held: map<int, Held>, t: int)
    requires t in held && HeldOnce(held)
    ensures HeldOnce(held - {t}) && Holds(held, held[t].node)
    ensures forall n :: Holds(held - {t}, n) <==> Holds(held, n) && n != held[t].node
  {
    var held' := held - {t};
    forall n ensures Holds(held', n) <==> Holds(held, n) && n != held[t].node {
      if Holds(held', n) { var u :| u in held' && held'[u].node == n; assert u in held && held[u].node == n; }
      if Holds(held, n) && n != held[t].node {
        var u :| u in held && held[u].node == n;
        assert u in held' && held'[u].node == n;
      }
    }
  }

  lemma Head(q: seq<int>)
    requires q != [] && Distinct(q)
    ensures Distinct(q[1..]) && forall x :: x in q <==> x == q[0] || x in q[1..]
    ensures q[0] !in q[1..]
  {
    assert q == [q[0]] + q[1..];
  }

  lemma Push(q: seq<int>, n: int)
    requires Distinct(q) && n !in q
    ensures Distinct([n] + q) && Distinct(q + [n])
  {
  }

  lemma GrabInv(s: State, t: int, letter: seq<int>)
    requires Inv(s) && t !in s.held
    ensures Inv(Grab(s, t, letter).0)
  {
    var (s', out) := Grab(s, t, letter);
    if out == Done {
      hide Holds, HeldOnce, Carries, Bytes, Distinct;
      var n := s.free[0];
      Head(s.free);
      Hold(s.held, t, Grabbed(n));
      forall x ensures Somewhere(s'.queue, s'.free, s'.held, x) <==> Somewhere(s.queue, s.free, s.held, x) {}
    }
  }

  lemma WriteInv(s: State, t: int, letter: seq<int>, front: bool)
    requires Inv(s) && t in s.held && s.held[t].Grabbed? && |letter| <= s.msgSize
    ensures Bytes(s.data, s.msgSize, s.held[t].node) && Inv(Write(s, t, letter, front))
  {
    var n := s.held[t].node;
    assert Holds(s.held, n) && Somewhere(s.queue, s.free, s.held, n);
    var s' := Write(s, t, letter, front);
    assert letter <= s'.data[n];
    forall x ensures Holds(s'.held, x) <==> Holds(s.held, x) {
      if Holds(s.held, x) { var u :| u in s.held && s.held[u].node == x; assert s'.held[u].node == x; }
    }
    hide Holds, Distinct;
    forall x ensures Somewhere(s'.queue, s'.free, s'.held, x) <==> Somewhere(s.queue, s.free, s.held, x) {}
    forall x | 0 <= x < s'.count ensures Bytes(s'.data, s'.msgSize, x) { assert Bytes(s.data, s.msgSize, x); }
    forall i | 0 <= i < |s'.queue| ensures Carries(s'.data, s'.queue[i], s'.letters[i]) {
      assert Carries(s.data, s.queue[i], s.letters[i]);
      assert s.queue[i] in s.queue;
    }
    forall u | u in s'.held && !s'.held[u].Grabbed? ensures Carries(s'.data, s'.held[u].node, s'.held[u].letter) {
      assert u != t ==> Carries(s.data, s.held[u].node, s.held[u].letter);
    }
  }

  /** Linking without the wakeup. */
  lemma LinkLists(s: State, t: int)
    requires Inv(s) && t in s.held && s.held[t].Written?
    ensures var s' := Link(s, t); Partition(s'.count, s'.queue, s'.free, s'.held) && LettersOk(s')
  {
    hide Holds, HeldOnce, Carries, Bytes, Distinct;
    var s', n := Link(s, t), s.held[t].node;
    LetGo(s.held, t);
    Push(s.queue, n);
    forall x ensures Somewhere(s'.queue, s'.free, s'.held, x) <==> Somewhere(s.queue, s.free, s.held, x) {}
    assert Carries(s.data, n, s.held[t].letter);
    forall i | 0 <= i < |s'.queue| ensures Carries(s'.data, s'.queue[i], s'.letters[i]) {
      var front := s.held[t].front;
      if front && i > 0 { assert Carries(s.data, s.queue[i - 1], s.letters[i - 1]); }
      if !front && i < |s.queue| { assert Carries(s.data, s.queue[i], s.letters[i]); }
    }
  }

  lemma LinkInv(s: State, t: int)
    requires Inv(s) && t in s.held && s.held[t].Written?
    ensures Inv(Link(s, t))
  {
    LinkLists(s, t);
    hide Partition, LettersOk;
    if s.receivers != [] {
      Head(s.receivers);
      var r := s.receivers[0];
      assert r in s.receivers && r !in s.woken;
      assert |s.woken + {r}| == |s.woken| + 1;
    }
  }

  lemma UnlinkLists(flag: Flag, prio: map<int, nat>, s: State, t: int, wait: bool)
    requires Inv(s) && t !in s.held && s.entry > 0
    ensures var s' := Unlink(flag, prio, s, t, wait).0; Partition(s'.count, s'.queue, s'.free, s'.held) && LettersOk(s')
  {
    hide Holds, HeldOnce, Carries, Bytes, Distinct;
    var s', n := Unlink(flag, prio, s, t, wait).0, s.queue[0];
    Head(s.queue);
    Hold(s.held, t, Taken(n, s.letters[0]));
    forall x ensures Somewhere(s'.queue, s'.free, s'.held, x) <==> Somewhere(s.queue, s.free, s.held, x) {}
    forall i | 0 <= i < |s'.queue| ensures Carries(s'.data, s'.queue[i], s'.letters[i]) {
      assert Carries(s.data, s.queue[i + 1], s.letters[i + 1]);
    }
  }

  lemma UnlinkInv(flag: Flag, prio: map<int, nat>, s: State, t: int, wait: bool)
    requires Inv(s) && t !in s.held && t !in s.receivers
    ensures Inv(Unlink(flag, prio, s, t, wait).0)
  {
    hide Partition, CarriesAll, CarriesHeld, Joined, Bytes;
    if s.entry > 0 {
      UnlinkLists(flag, prio, s, t, wait);
      RemoveOne(s.woken, t);
      hide LettersOk;
    } else {
      UnlinkWaits(flag, prio, s, t, wait);
    }
  }

  lemma UnlinkWaits(flag: Flag, prio: map<int, nat>, s: State, t: int, wait: bool)
    requires Inv(s) && t !in s.receivers && s.entry == 0
    ensures Inv(Unlink(flag, prio, s, t, wait).0)
  {
    JoinedMembers(flag, prio, s.receivers, t);
    hide Partition, CarriesAll, CarriesHeld, Joined, Bytes;
  }

  /** The receiver is handed the letter as it was sent, as far as its buffer reaches. */
  lemma ReadsLetter(s: State, t: int, size: nat)
    requires Inv(s) && t in s.held && s.held[t].Taken?
    ensures Bytes(s.data, s.msgSize, s.held[t].node)
    ensures var letter, got := s.held[t].letter, Read(s, t, size);
      && |got| == (if size > s.msgSize then s.msgSize else size)
      && (if size <= |letter| then got == letter[..size] else letter <= got)
  {
    var n := s.held[t].node;
    assert Holds(s.held, n) && Somewhere(s.queue, s.free, s.held, n);
    assert Carries(s.data, n, s.held[t].letter);
  }

  lemma GiveBackInv(s: State, t: int)
    requires Inv(s) && t in s.held
    ensures Inv(GiveBack(s, t))
  {
    hide Holds, HeldOnce, Carries, Bytes, Distinct;
    var s', n := GiveBack(s, t), s.held[t].node;
    LetGo(s.held, t);
    Push(s.free, n);
    forall x ensures Somewhere(s'.queue, s'.free, s'.held, x) <==> Somewhere(s.queue, s.free, s.held, x) {}
  }

  lemma TimeoutInv(s: State, t: int)
    requires Inv(s)
    ensures Inv(Timeout(s, t))
  {
    hide Partition, CarriesAll, CarriesHeld, Bytes;
    WithoutMembers(s.receivers, t);
  }

  lemma {:induction false} ReversedMembers(q: seq<int>, rest: seq<int>)
    requires Distinct(q) && Distinct(rest) && forall n :: n in q ==> n !in rest
    ensures Distinct(Reversed(q) + rest) && forall n :: n in Reversed(q) + rest <==> n in q || n in rest
  {
    if q != [] {
      Head(q);
      Push(rest, q[0]);
      ReversedMembers(q[1..], [q[0]] + rest);
      assert Reversed(q) + rest == Reversed(q[1..]) + ([q[0]] + rest);
    } else {
      assert Reversed(q) + rest == rest;
    }
  }

  lemma ResetInv(s: State)
    requires Inv(s)
    ensures Inv(Reset(s))
  {
    hide Holds, HeldOnce, Carries, Bytes;
    var s' := Reset(s);
    ReversedMembers(s.queue, s.free);
    forall x ensures Somewhere(s'.queue, s'.free, s'.held, x) <==> Somewhere(s.queue, s.free, s.held, x) {}
  }

  // ---------------------------------------------------------------- runs

  /** One interrupt-free section or one copy; the priorities are those at that moment. */
  datatype Step =
    | GrabStep(t: int, letter: seq<int>) | WriteStep(t: int, letter: seq<int>, front: bool) | LinkStep(t: int)
    | UnlinkStep(t: int, wait: bool, prio: map<int, nat>) | GiveBackStep(t: int)
    | TimeoutStep(t: int) | ResetStep

  /** Each caller goes through the sections of its call in order. */
  predicate Allowed(s: State, x: Step) {
    match x
    case GrabStep(t, _) => t !in s.held && t !in s.receivers && t !in s.woken
    case WriteStep(t, letter, _) => t in s.held && s.held[t].Grabbed? && |letter| <= s.msgSize
    case LinkStep(t) => t in s.held && s.held[t].Written?
    case UnlinkStep(t, _, _) => t !in s.held && t !in s.receivers
    case GiveBackStep(t) => t in s.held && s.held[t].Taken?
    case _ => true
  }

  ghost function Do(flag: Flag, s: State, x: Step): (s': State)
    requires Inv(s) && Allowed(s, x)
    ensures Inv(s')
  {
    hide Partition, LettersOk, WaitersOk;
    match x
    case GrabStep(t, letter) => GrabInv(s, t, letter); Grab(s, t, letter).0
    case WriteStep(t, letter, front) => WriteInv(s, t, letter, front); Write(s, t, letter, front)
    case LinkStep(t) => LinkInv(s, t); Link(s, t)
    case UnlinkStep(t, wait, prio) => UnlinkInv(flag, prio, s, t, wait); Unlink(flag, prio, s, t, wait).0
    case GiveBackStep(t) => GiveBackInv(s, t); GiveBack(s, t)
    case TimeoutStep(t) => TimeoutInv(s, t); Timeout(s, t)
    case ResetStep => ResetInv(s); Reset(s)
  }

  ghost predicate AllAllowed(flag: Flag, s: State, run: seq<Step>)
    requires Inv(s)
    decreases |run|
  {
    run == [] || (Allowed(s, run[0]) && AllAllowed(flag, Do(flag, s, run[0]), run[1..]))
  }

  ghost function Run(flag: Flag, s: State, run: seq<Step>): (s': State)
    requires Inv(s) && AllAllowed(flag, s, run)
    ensures Inv(s')
    decreases |run|
  {
    if run == [] then s else Run(flag, Do(flag, s, run[0]), run[1..])
  }

  /** In every interleaving of senders, receivers, timeouts and resets each node is in one place, the
      entry counts the queued nodes, and no wakeup is lost. */
  lemma EveryRun(flag: Flag, s: State, run: seq<Step>)
    requires Inv(s) && AllAllowed(flag, s, run)
    ensures var s' := Run(flag, s, run);
      && s'.count == s.count && s'.entry == |s'.queue| <= s.count
      && (forall n :: 0 <= n < s.count ==> Somewhere(s'.queue, s'.free, s'.held, n))
      && (forall n :: n in s'.queue ==> n !in s'.free && !Holds(s'.held, n))
      && (forall n :: n in s'.free ==> !Holds(s'.held, n))
      && (s'.receivers != [] ==> s'.entry <= |s'.woken|)
  {
    RunCount(flag, s, run);
    hide Run, AllAllowed, CarriesAll, CarriesHeld;
    var s' := Run(flag, s, run);
    forall n | n in s'.queue ensures 0 <= n < s.count { assert Somewhere(s'.queue, s'.free, s'.held, n); }
    Pigeons(s'.queue, s.count);
  }

  lemma {:induction false} RunCount(flag: Flag, s: State, run: seq<Step>)
    requires Inv(s) && AllAllowed(flag, s, run)
    ensures Run(flag, s, run).count == s.count
    decreases |run|
  {
    hide Inv;
    if run != [] { RunCount(flag, Do(flag, s, run[0]), run[1..]); }
  }

  lemma {:induction false} Pigeons(q: seq<int>, n: nat)
    requires Distinct(q) && forall x :: x in q ==> 0 <= x < n
    ensures |q| <= n
  {
    if q != [] {
      assert q[0] in q;
      WithoutMembers(q, n - 1);
      Pigeons(Without(q, n - 1), n - 1);
    }
  }

  // ---------------------------------------------------------------- the order of the letters

  ghost function Sent(flag: Flag, s: State, run: seq<Step>): seq<seq<int>>
    requires Inv(s) && AllAllowed(flag, s, run)
    decreases |run|
  {
    if run == [] then [] else
    (if run[0].LinkStep? then [s.held[run[0].t].letter] else []) + Sent(flag, Do(flag, s, run[0]), run[1..])
  }

  ghost function Received(flag: Flag, s: State, run: seq<Step>): seq<seq<int>>
    requires Inv(s) && AllAllowed(flag, s, run)
    decreases |run|
  {
    if run == [] then [] else
    (if run[0].UnlinkStep? && s.entry > 0 then [s.letters[0]] else []) + Received(flag, Do(flag, s, run[0]), run[1..])
  }

  /** Neither urgent messages nor resets */
  ghost predicate Plain(flag: Flag, s: State, run: seq<Step>)
    requires Inv(s) && AllAllowed(flag, s, run)
    decreases |run|
  {
    run == [] ||
    (!run[0].ResetStep? && (run[0].LinkStep? ==> !s.held[run[0].t].front) && Plain(flag, Do(flag, s, run[0]), run[1..]))
  }

  /** Without urgent messages and resets the queue is first in, first out. */
  lemma {:induction false} FirstInFirstOut(flag: Flag, s: State, run: seq<Step>)
    requires Inv(s) && AllAllowed(flag, s, run) && Plain(flag, s, run)
    ensures s.letters + Sent(flag, s, run) == Received(flag, s, run) + Run(flag, s, run).letters
    decreases |run|
  {
    hide Do, Inv;
    if run != [] {
      var s1 := Do(flag, s, run[0]);
      FirstInFirstOut(flag, s1, run[1..]);
      StepLetters(flag, s, run[0]);
      var sent := if run[0].LinkStep? then [s.held[run[0].t].letter] else [];
      var got := if run[0].UnlinkStep? && s.entry > 0 then [s.letters[0]] else [];
      Splice(s.letters, sent, Sent(flag, s1, run[1..]), got, s1.letters, Received(flag, s1, run[1..]),
             Run(flag, s1, run[1..]).letters);
    }
  }

  lemma Splice<T>(a: seq<T>, sent: seq<T>, later: seq<T>, got: seq<T>, b: seq<T>, after: seq<T>, rest: seq<T>)
    requires a + sent == got + b && b + later == after + rest
    ensures a + (sent + later) == (got + after) + rest
  {
    assert a + (sent + later) == (a + sent) + later;
    assert (got + b) + later == got + (b + later);
    assert got + (after + rest) == (got + after) + rest;
  }

  lemma StepLetters(flag: Flag, s: State, x: Step)
    requires Inv(s) && Allowed(s, x) && !x.ResetStep? && (x.LinkStep? ==> !s.held[x.t].front)
    ensures s.letters + (if x.LinkStep? then [s.held[x.t].letter] else []) ==
            (if x.UnlinkStep? && s.entry > 0 then [s.letters[0]] else []) + Do(flag, s, x).letters
  {
    hide Partition, CarriesAll, CarriesHeld;
  }

  /** What a user sees of a step: a message linked at the back or, by rt_mq_urgent, at the front, an attempt
      to receive, a reset. */
  datatype Event = Back(letter: seq<int>) | Front(letter: seq<int>) | Pop | Clear

  ghost function EventOf(s: State, x: Step): seq<Event>
    requires Allowed(s, x)
  {
    match x
    case LinkStep(t) => [if s.held[t].front then Front(s.held[t].letter) else Back(s.held[t].letter)]
    case UnlinkStep(_, _, _) => [Pop]
    case ResetStep => [Clear]
    case _ => []
  }

  ghost function Events(flag: Flag, s: State, run: seq<Step>): seq<Event>
    requires Inv(s) && AllAllowed(flag, s, run)
    decreases |run|
  {
    if run == [] then [] else EventOf(s, run[0]) + Events(flag, Do(flag, s, run[0]), run[1..])
  }

  /** A deque, and what an event takes from its front */
  function Deque(d: seq<seq<int>>, e: Event): seq<seq<int>> {
    match e
    case Back(l) => d + [l]
    case Front(l) => [l] + d
    case Pop => if d == [] then [] else d[1..]
    case Clear => []
  }

  function DequeAll(d: seq<seq<int>>, es: seq<Event>): seq<seq<int>>
    decreases |es|
  {
    if es == [] then d else DequeAll(Deque(d, es[0]), es[1..])
  }

  function PopAll(d: seq<seq<int>>, es: seq<Event>): seq<seq<int>>
    decreases |es|
  {
    if es == [] then [] else (if es[0] == Pop && d != [] then [d[0]] else []) + PopAll(Deque(d, es[0]), es[1..])
  }

  /** In every run, with urgent messages and resets too, the queue is a deque: what is received and what is
      left are what a deque gives for the same messages. */
  lemma {:induction false} IsDeque(flag: Flag, s: State, run: seq<Step>)
    requires Inv(s) && AllAllowed(flag, s, run)
    ensures Run(flag, s, run).letters == DequeAll(s.letters, Events(flag, s, run))
    ensures Received(flag, s, run) == PopAll(s.letters, Events(flag, s, run))
    decreases |run|
  {
    hide Do, Inv, Deque, EventOf;
    if run != [] {
      var s1 := Do(flag, s, run[0]);
      IsDeque(flag, s1, run[1..]);
      StepDeque(flag, s, run[0]);
      FirstEvent(s.letters, EventOf(s, run[0]), Events(flag, s1, run[1..]));
    }
  }

  lemma FirstEvent(d: seq<seq<int>>, e: seq<Event>, es: seq<Event>)
    requires |e| <= 1
    ensures DequeAll(d, e + es) == DequeAll(DequeAll(d, e), es)
    ensures PopAll(d, e + es) == PopAll(d, e) + PopAll(DequeAll(d, e), es)
  {
    if e == [] {
      assert e + es == es;
    } else {
      assert (e + es)[1..] == es && e[1..] == [];
    }
  }

  lemma StepDeque(flag: Flag, s: State, x: Step)
    requires Inv(s) && Allowed(s, x)
    ensures |EventOf(s, x)| <= 1 && Do(flag, s, x).letters == DequeAll(s.letters, EventOf(s, x))
    ensures (if x.UnlinkStep? && s.entry > 0 then [s.letters[0]] else []) == PopAll(s.letters, EventOf(s, x))
  {
    hide Partition, CarriesAll, CarriesHeld, Bytes, Joined;
    assert DequeAll(Do(flag, s, x).letters, []) == Do(flag, s, x).letters;
    var e := EventOf(s, x);
    if e != [] { assert e[1..] == []; }
  }

  /** An urgent message is the next one received. */
  lemma UrgentIsNext(flag: Flag, prio: map<int, nat>, s: State, t: int, u: int, wait: bool)
    requires Inv(s) && t in s.held && s.held[t].Written? && s.held[t].front && u !in s.held && u !in s.receivers
    ensures var s1 := Link(s, t);
      && Inv(s1)
      && var (s2, out) := Unlink(flag, prio, s1, u, wait);
        out == Done && s2.held[u] == Taken(s.held[t].node, s.held[t].letter) && s2.queue == s.queue && s2.letters == s.letters
  {
    LinkInv(s, t);
    hide Partition, CarriesAll, CarriesHeld;
  }

  // ---------------------------------------------------------------- what the sections do

  /** Who holds what has not changed, t aside. */
  ghost predicate OthersHold(held: map<int, Held>, held': map<int, Held>, t: int) {
    forall u :: u != t ==> (u in held' <==> u in held) && (u in held && u in held' ==> held'[u] == held[u])
  }

  /** The first section of a send gets a free node exactly when the letter fits and there is one; the copy
      behind it changes this node only. */
  lemma GrabMeans(s: State, t: int, letter: seq<int>, front: bool)
    requires Inv(s) && t !in s.held
    ensures var (s', out) := Grab(s, t, letter);
      && (out == Refused <==> |letter| > s.msgSize) && (out == Full <==> |letter| <= s.msgSize && s.free == [])
      && (out == Done || out == Full || out == Refused) && (out != Done ==> s' == s)
      && (out == Done ==>
            && t in s'.held && s'.held[t].Grabbed? && s.free == [s'.held[t].node] + s'.free && OthersHold(s.held, s'.held, t)
            && s'.queue == s.queue && s'.letters == s.letters && s'.receivers == s.receivers
            && Bytes(s'.data, s'.msgSize, s'.held[t].node)
            && var s2, n := Write(s', t, letter, front), s'.held[t].node;
              && t in s2.held && s2.held[t] == Written(n, letter, front) && OthersHold(s'.held, s2.held, t)
              && s2.queue == s'.queue && s2.free == s'.free && s2.letters == s'.letters && s2.receivers == s'.receivers
              && Carries(s2.data, n, letter) && s2.data == s'.data[n := s2.data[n]])
  {
    GrabInv(s, t, letter);
    var (s', out) := Grab(s, t, letter);
    if out == Done {
      WriteInv(s', t, letter, front);
      WrittenIs(s', t, letter, front);
      hide Partition, LettersOk, WaitersOk, Bytes, Carries;
      assert s.free == [s.free[0]] + s.free[1..];
    }
  }

  lemma WrittenIs(s: State, t: int, letter: seq<int>, front: bool)
    requires t in s.held && Bytes(s.data, s.msgSize, s.held[t].node) && |letter| <= s.msgSize
    ensures Carries(Write(s, t, letter, front).data, s.held[t].node, letter)
  {
  }

  /** The last section of a send puts the node and its letter at one end of the queue and wakes the first
      receiver. */
  lemma LinkMeans(s: State, t: int)
    requires Inv(s) && t in s.held && s.held[t].Written?
    ensures var s', h := Link(s, t), s.held[t];
      && (if h.front then s'.queue == [h.node] + s.queue && s'.letters == [h.letter] + s.letters
          else s'.queue == s.queue + [h.node] && s'.letters == s.letters + [h.letter])
      && s'.free == s.free && s'.data == s.data && t !in s'.held && OthersHold(s.held, s'.held, t)
      && (if s.receivers == [] then s'.receivers == [] && s'.woken == s.woken
          else [s.receivers[0]] + s'.receivers == s.receivers && s'.woken == s.woken + {s.receivers[0]})
  {
    hide Partition, LettersOk, WaitersOk;
    assert s.receivers != [] ==> s.receivers == [s.receivers[0]] + s.receivers[1..];
  }

  /** A receiver gets the first node with its letter when there is one.  Otherwise it joins the waiting receivers
      when it may wait, and the queue stays as it is. */
  lemma UnlinkMeans(flag: Flag, prio: map<int, nat>, s: State, t: int, wait: bool)
    requires Inv(s) && t !in s.held && t !in s.receivers
    ensures var (s', out) := Unlink(flag, prio, s, t, wait);
      && (out == Done <==> s.queue != []) && (out == Blocked <==> s.queue == [] && wait)
      && (out == GivenUp <==> s.queue == [] && !wait)
      && s'.free == s.free && s'.data == s.data && s'.woken == s.woken - {t}
      && (out == Done ==>
            && t in s'.held && s'.held[t].Taken? && OthersHold(s.held, s'.held, t) && s'.receivers == s.receivers
            && [s'.held[t].node] + s'.queue == s.queue && [s'.held[t].letter] + s'.letters == s.letters)
      && (out != Done ==> s'.queue == s.queue && s'.letters == s.letters && s'.held == s.held)
      && (out == Blocked ==> Queued(flag, prio, s.receivers, s'.receivers, t) && t in s'.receivers)
      && (out == GivenUp ==> s'.receivers == s.receivers)
  {
    JoinedQueues(flag, prio, s.receivers, t);
    hide Partition, WaitersOk, CarriesAll, CarriesHeld, Bytes, Joined, Queued;
    if s.queue != [] { assert s.queue == [s.queue[0]] + s.queue[1..] && s.letters == [s.letters[0]] + s.letters[1..]; }
  }

  /** The last section of a receive frees the node. */
  lemma GiveBackMeans(s: State, t: int)
    requires t in s.held
    ensures var s' := GiveBack(s, t);
      && t !in s'.held && OthersHold(s.held, s'.held, t) && s'.free == [s.held[t].node] + s.free
      && s' == s.(held := s'.held, free := s'.free)
  {
  }

  /** A timeout takes just this thread out of the list; a reset frees all queued nodes, in whatever order, and
      nobody waits any more. */
  lemma OthersMean(s: State, t: int)
    requires Inv(s)
    ensures var s' := Timeout(s, t);
      && s' == s.(receivers := s'.receivers)
      && (if t in s.receivers then Left(s.receivers, s'.receivers, t) else s'.receivers == s.receivers)
    ensures var s' := Reset(s);
      && s'.queue == [] && s'.letters == [] && s'.entry == 0 && s'.receivers == [] && s'.held == s.held && s'.data == s.data
      && Distinct(s'.free) && forall n :: n in s'.free <==> n in s.queue || n in s.free
  {
    if t in s.receivers { WithoutLeft(s.receivers, t); }
    ReversedMembers(s.queue, s.free);
  }

  /** No timeout of t and no reset, and t is not woken. */
  ghost predicate Undisturbed(flag: Flag, s: State, run: seq<Step>, t: int)
    requires Inv(s) && AllAllowed(flag, s, run)
    decreases |run|
  {
    t !in s.woken &&
    (run == [] ||
     (run[0] != TimeoutStep(t) && !run[0].ResetStep? && Undisturbed(flag, Do(flag, s, run[0]), run[1..], t)))
  }

  lemma StepWaits(flag: Flag, s: State, x: Step, t: int)
    requires Inv(s) && Allowed(s, x) && t in s.receivers && x != TimeoutStep(t) && !x.ResetStep?
    ensures t in Do(flag, s, x).receivers || t in Do(flag, s, x).woken
  {
    hide Partition, LettersOk, Joined, Without;
    match x {
      case LinkStep(u) => LinkMeans(s, u);
      case UnlinkStep(u, wait, prio) =>
        UnlinkMeans(flag, prio, s, u, wait);
        JoinedMembers(flag, prio, s.receivers, u);
      case TimeoutStep(u) => WithoutMembers(s.receivers, u);
      case _ =>
    }
  }

  /** In every interleaving a receiver that blocked is in the wait list until its time is over, it is woken or
      the queue is reset. */
  lemma {:induction false} StaysWaiting(flag: Flag, s: State, run: seq<Step>, t: int)
    requires Inv(s) && AllAllowed(flag, s, run) && t in s.receivers && Undisturbed(flag, s, run, t)
    ensures t in Run(flag, s, run).receivers
    decreases |run|
  {
    hide Inv, Do, Allowed;
    if run != [] {
      StepWaits(flag, s, run[0], t);
      var s1 := Do(flag, s, run[0]);
      NotWoken(flag, s1, run[1..], t);
      StaysWaiting(flag, s1, run[1..], t);
    }
  }

  lemma NotWoken(flag: Flag, s: State, run: seq<Step>, t: int)
    requires Inv(s) && AllAllowed(flag, s, run) && Undisturbed(flag, s, run, t)
    ensures t !in s.woken
  {
    hide Inv, Do, Allowed, AllAllowed;
  }
}

module MsgQueue {
  import opened Arith
  import opened Ring
  import opened WaitList
  import opened MsgQueueSpec

  const NULL := -1 // RT_NULL; nodes are the numbers below `count`
  const ALIGN := 4 // RT_ALIGN_SIZE
  const HEADER := 4 // sizeof(struct rt_mq_message)

  const SHORT := 0x1_0000 // msg_size and max_msgs are rt_uint16_t

  /** RT_ALIGN of the message size, stored in 16 bits */
  function Aligned(size: nat): nat {
    (size + ALIGN - 1) / ALIGN * ALIGN % SHORT
  }

  /** How many nodes of m bytes are cut from a pool of p bytes, counted in 16 bits */
  function Slots(p: nat, m: nat): (n: nat)
    requires m > 0
    ensures n * m <= p && (p < SHORT * m ==> p < (n + 1) * m)
  {
    QuotientBounds(p, m);
    p / m % SHORT
  }

  function First(q: seq<int>): int {
    if q == [] then NULL else q[0]
  }

  function Last(q: seq<int>): int {
    if q == [] then NULL else q[|q| - 1]
  }

  predicate Hop(next: map<int, int>, q: seq<int>, i: nat)
    requires i < |q|
  {
    q[i] in next && next[q[i]] == if i + 1 < |q| then q[i + 1] else NULL
  }

  /** Following `next` from `head` meets the nodes of q and then NULL. */
  ghost predicate Chain(next: map<int, int>, head: int, q: seq<int>) {
    head == First(q) && forall i :: 0 <= i < |q| ==> Hop(next, q, i)
  }

  lemma ChainHead(next: map<int, int>, head: int, q: seq<int>)
    requires Chain(next, head, q)
    ensures head == First(q)
  {
  }

  lemma ChainPop(next: map<int, int>, q: seq<int>)
    requires q != [] && Chain(next, q[0], q)
    ensures q[0] in next && Chain(next, next[q[0]], q[1..])
  {
    assert Hop(next, q, 0);
    forall i | 0 <= i < |q[1..]| ensures Hop(next, q[1..], i) { assert Hop(next, q, i + 1); }
  }

  lemma ChainPush(next: map<int, int>, head: int, q: seq<int>, n: int)
    requires Chain(next, head, q) && n !in q
    ensures Chain(next[n := head], n, [n] + q)
  {
    var q', next' := [n] + q, next[n := head];
    forall i | 0 <= i < |q'| ensures Hop(next', q', i) {
      if i > 0 { assert Hop(next, q, i - 1) && q[i - 1] in q; }
    }
  }

  lemma ChainAppend(next: map<int, int>, head: int, q: seq<int>, n: int)
    requires Chain(next, head, q) && n !in q && Distinct(q) && n in next && next[n] == NULL
    ensures q == [] ==> Chain(next, n, q + [n])
    ensures q != [] ==> Chain(next[Last(q) := n], head, q + [n])
  {
    var q' := q + [n];
    var next' := if q == [] then next else next[Last(q) := n];
    forall i | 0 <= i < |q'| ensures Hop(next', q', i) {
      if i < |q| { assert Hop(next, q, i) && q[i] in q; }
    }
  }

  /** Changing the link of a node outside. */
  lemma ChainFrame(next: map<int, int>, head: int, q: seq<int>, n: int, m: int)
    requires Chain(next, head, q) && n !in q
    ensures Chain(next[n := m], head, q)
  {
    var next' := next[n := m];
    forall i | 0 <= i < |q| ensures Hop(next', q, i) { assert Hop(next, q, i) && q[i] in q; }
  }

  /** struct rt_messagequeue with the links of its nodes; the ghost fields are the lists that the links
      describe and the history. */
  class MessageQueue {
    const flag: Flag
    const count: nat
    const msgSize: nat
    var next: map<int, int>
    var head: int
    var tail: int
    var freeHead: int
    var data: map<int, seq<int>>
    var entry: nat
    var receivers: seq<int>
    ghost var queue: seq<int>
    ghost var free: seq<int>
    ghost var held: map<int, Held>
    ghost var letters: seq<seq<int>>
    ghost var woken: set<int>

    ghost function Abs(): State
      reads this
    {
      State(count, msgSize, queue, free, data, entry, receivers, held, letters, woken)
    }

    /** The head is NULL exactly when the tail is, and both lists are as the links say. */
    ghost predicate Linked()
      reads this`next, this`head, this`tail, this`freeHead, this`queue, this`free
    {
      Chain(next, head, queue) && tail == Last(queue) && Chain(next, freeHead, free)
    }

    /** A message written for rt_mq_send ends a list. */
    ghost predicate Ended()
      reads this`next, this`held
    {
      forall t :: t in held && held[t].Written? && !held[t].front ==> held[t].node in next && next[held[t].node] == NULL
    }

    ghost predicate Valid()
      reads this
    {
      Inv(Abs()) && Linked() && Ended()
    }

    /** rt_mq_init over `poolSize` bytes for messages of up to `size` bytes */
    constructor (flag: Flag, size: nat, poolSize: nat)
      ensures Valid() && this.flag == flag && entry == 0 && queue == [] && receivers == [] && held == map[]
      ensures msgSize == Aligned(size) && count == Slots(poolSize, msgSize + HEADER)
    {
      this.flag := flag;
      msgSize := Aligned(size);
      count := Slots(poolSize, Aligned(size) + HEADER);
      head, tail, freeHead, entry, receivers := NULL, NULL, NULL, 0, [];
      next, data, queue, free, held, letters, woken := map[], map[], [], [], map[], [], {};
      new;
      hide Inv, Distinct, Bytes, Slots, Aligned;
      LinkPool();
      NewInv(Abs());
    }

    /** The first section of rt_mq_send and rt_mq_urgent, which hands the caller the first free node */
    method Grab(ghost t: int, letter: seq<int>) returns (msg: int, out: Outcome)
      requires Valid() && Allowed(Abs(), GrabStep(t, letter))
      modifies this
      ensures (Abs(), out) == MsgQueueSpec.Grab(old(Abs()), t, letter) && Valid()
      ensures out == Done ==> held[t] == Grabbed(msg)
    {
      hide Inv;
      GrabInv(Abs(), t, letter);
      if |letter| > msgSize {
        return NULL, Refused;
      }
      msg := freeHead;
      FirstNull(Abs());
      if msg == NULL {
        return msg, Full;
      }
      ChainPop(next, free);
      freeHead := next[msg];
      held := held[t := Grabbed(msg)];
      free := free[1..];
      out := Done;
    }

    /** Between the sections: rt_mq_send ends the list with the node, and both calls copy the letter. */
    method Write(ghost t: int, msg: int, letter: seq<int>, front: bool)
      requires Valid() && Allowed(Abs(), WriteStep(t, letter, front)) && held[t].node == msg
      modifies this
      ensures Bytes(old(data), msgSize, msg) && Abs() == MsgQueueSpec.Write(old(Abs()), t, letter, front) && Valid()
    {
      WriteInv(Abs(), t, letter, front);
      HeldApart(Abs(), t);
      hide Inv, Chain;
      if !front {
        ChainFrame(next, head, queue, msg, NULL);
        ChainFrame(next, freeHead, free, msg, NULL);
        next := next[msg := NULL];
      }
      data := data[msg := letter + data[msg][|letter|..]];
      held := held[t := Written(msg, letter, front)];
    }

    /** The last section of rt_mq_send */
    method LinkBack(ghost t: int, msg: int)
      requires Valid() && Allowed(Abs(), LinkStep(t)) && held[t].node == msg && !held[t].front
      modifies this
      ensures Abs() == Link(old(Abs()), t) && Valid()
    {
      LinkInv(Abs(), t);
      HeldApart(Abs(), t);
      FirstNull(Abs());
      Lists(Abs());
      hide Inv, Linked;
      ghost var s := Abs();
      AppendNode(msg);
      Count(t);
    }

    /** Linking a node that ends a list behind the last node of the queue */
    method AppendNode(msg: int)
      requires Linked() && Distinct(queue) && msg !in queue && msg !in free && msg in next && next[msg] == NULL
      requires (First(queue) == NULL <==> queue == []) && (Last(queue) == NULL <==> queue == [])
      requires forall n :: n in queue ==> n !in free
      modifies this`next, this`head, this`tail, this`queue
      ensures Linked() && queue == old(queue) + [msg]
      ensures forall n :: n in old(next) && n !in old(queue) ==> n in next && next[n] == old(next)[n]
    {
      hide Chain;
      ChainHead(next, head, queue);
      ChainAppend(next, head, queue, msg);
      if tail != NULL {
        ChainFrame(next, freeHead, free, tail, msg);
        next := next[tail := msg];
      }
      tail := msg;
      if head == NULL {
        head := msg;
      }
      queue := queue + [msg];
    }

    /** The counting, the history and the wakeup after a node was linked */
    method Count(ghost t: int)
      requires t in held && held[t].Written?
      modifies this`entry, this`held, this`letters, this`receivers, this`woken
      ensures receivers == (if old(receivers) == [] then [] else old(receivers)[1..])
      ensures woken == (if old(receivers) == [] then old(woken) else old(woken) + {old(receivers)[0]})
      ensures entry == old(entry) + 1 && held == old(held) - {t}
      ensures var Written(_, letter, front) := old(held)[t];
        letters == if front then [letter] + old(letters) else old(letters) + [letter]
    {
      letters := if held[t].front then [held[t].letter] + letters else letters + [held[t].letter];
      entry := entry + 1;
      held := held - {t};
      if receivers != [] {
        woken := woken + {receivers[0]};
        receivers := receivers[1..];
      }
    }

    /** The last section of rt_mq_urgent */
    method LinkFront(ghost t: int, msg: int)
      requires Valid() && Allowed(Abs(), LinkStep(t)) && held[t].node == msg && held[t].front
      modifies this
      ensures Abs() == Link(old(Abs()), t) && Valid()
    {
      LinkInv(Abs(), t);
      HeldApart(Abs(), t);
      FirstNull(Abs());
      hide Inv, Linked, First, Last;
      PrependNode(msg);
      assert Ended();
      Count(t);
    }

    /** Linking a node before the first one of the queue */
    method PrependNode(msg: int)
      requires Linked() && msg !in queue && msg !in free && (Last(queue) == NULL <==> queue == [])
      modifies this`next, this`head, this`tail, this`queue
      ensures Linked() && queue == [msg] + old(queue)
      ensures forall n :: n in old(next) && n != msg ==> n in next && next[n] == old(next)[n]
    {
      hide Chain;
      ChainPush(next, head, queue, msg);
      ChainFrame(next, freeHead, free, msg, head);
      next := next[msg := head];
      head := msg;
      if tail == NULL {
        tail := msg;
      }
      queue := [msg] + queue;
    }

    /** One round of the first section of rt_mq_recv, which hands the caller the first node */
    method Unlink(t: int, wait: bool, prio: map<int, nat>) returns (msg: int, out: Outcome)
      requires Valid() && Allowed(Abs(), UnlinkStep(t, wait, prio))
      modifies this
      ensures (Abs(), out) == MsgQueueSpec.Unlink(flag, prio, old(Abs()), t, wait) && Valid()
      ensures out == Done ==> t in held && held[t].Taken? && held[t].node == msg
    {
      UnlinkInv(flag, prio, Abs(), t, wait);
      Counts(Abs());
      hide Inv, Linked, Distinct, MsgQueueSpec.Unlink;
      msg := NULL;
      if entry == 0 {
        out := Starve(t, wait, prio);
      } else {
        msg := TakeNode(t, wait, prio);
        out := Done;
      }
    }

    /** Nothing to receive */
    method Starve(t: int, wait: bool, prio: map<int, nat>) returns (out: Outcome)
      requires Inv(Abs()) && entry == 0
      modifies this`receivers, this`woken
      ensures (Abs(), out) == MsgQueueSpec.Unlink(flag, prio, old(Abs()), t, wait)
    {
      hide Inv;
      woken := woken - {t};
      if wait {
        receivers := ListSuspend(flag, prio, receivers, t);
        out := Blocked;
      } else {
        out := GivenUp;
      }
    }

    /** A message to receive */
    method TakeNode(t: int, wait: bool, prio: map<int, nat>) returns (msg: int)
      requires Inv(Abs()) && Linked() && Ended() && Distinct(queue) && |queue| == |letters| == entry && entry > 0
      modifies this`head, this`tail, this`queue, this`entry, this`held, this`letters, this`woken
      ensures (Abs(), Done) == MsgQueueSpec.Unlink(flag, prio, old(Abs()), t, wait)
      ensures Linked() && Ended() && t in held && held[t].Taken? && held[t].node == msg
    {
      hide Inv, Linked, Distinct;
      woken := woken - {t};
      msg := PopNode();
      entry := entry - 1;
      held := held[t := Taken(msg, letters[0])];
      letters := letters[1..];
    }

    /** Taking the first node off the queue */
    method PopNode() returns (msg: int)
      requires Linked() && queue != [] && Distinct(queue)
      modifies this`head, this`tail, this`queue
      ensures Linked() && msg == old(queue)[0] && queue == old(queue)[1..]
    {
      hide Chain;
      ChainHead(next, head, queue);
      msg := head;
      ChainPop(next, queue);
      head := next[msg];
      if tail == msg {
        tail := NULL;
      }
      queue := queue[1..];
    }

    /** Between the sections of rt_mq_recv: copying the message out */
    method ReadOut(ghost t: int, msg: int, size: nat) returns (bytes: seq<int>)
      requires Valid() && t in held && held[t].Taken? && held[t].node == msg
      ensures Bytes(data, msgSize, msg) && bytes == Read(Abs(), t, size)
    {
      ReadsLetter(Abs(), t, size);
      bytes := data[msg][..if size > msgSize then msgSize else size];
    }

    /** The last section of rt_mq_recv */
    method GiveBack(ghost t: int, msg: int)
      requires Valid() && Allowed(Abs(), GiveBackStep(t)) && held[t].node == msg
      modifies this
      ensures Abs() == MsgQueueSpec.GiveBack(old(Abs()), t) && Valid()
    {
      GiveBackInv(Abs(), t);
      HeldApart(Abs(), t);
      hide Inv, Chain;
      ChainPush(next, freeHead, free, msg);
      ChainFrame(next, head, queue, msg, freeHead);
      next := next[msg := freeHead];
      freeHead := msg;
      free := [msg] + free;
      held := held - {t};
    }

    /** rt_thread_timeout of a waiting receiver */
    method TimeoutThread(t: int)
      requires Valid()
      modifies this`receivers
      ensures Abs() == Timeout(old(Abs()), t) && Valid()
    {
      TimeoutInv(Abs(), t);
      hide Linked, Ended;
      if t in receivers {
        var i :| 0 <= i < |receivers| && receivers[i] == t;
        IndexUnique(receivers, i);
        receivers := RemoveAt(receivers, i);
      }
    }

    /** rt_mq_control with RT_IPC_CMD_RESET */
    method Control()
      requires Valid()
      modifies this
      ensures Abs() == Reset(old(Abs())) && Valid()
    {
      ResetInv(Abs());
      FirstNull(Abs());
      Lists(Abs());
      hide Inv, Linked;
      while receivers != []
        invariant unchanged(this`next, this`head, this`tail, this`freeHead, this`data, this`entry, this`queue, this`free)
        invariant unchanged(this`held, this`letters, this`woken)
      {
        receivers := receivers[1..];
      }
      FreeAll();
      entry := 0;
      letters := [];
    }

    /** The loop of the reset */
    method FreeAll()
      requires Linked() && Distinct(queue) && Distinct(free) && NULL !in queue
      requires forall n :: n in queue ==> n !in free
      modifies this`next, this`head, this`tail, this`freeHead, this`queue, this`free
      ensures Linked() && queue == [] && free == Reversed(old(queue)) + old(free)
      ensures forall n :: n in old(next) && n !in old(queue) ==> n in next && next[n] == old(next)[n]
    {
      hide Distinct;
      while head != NULL
        invariant Linked() && Distinct(queue) && NULL !in queue && Reversed(queue) + free == Reversed(old(queue)) + old(free)
        invariant (forall n :: n in queue ==> n !in free) && (forall n :: n in queue ==> n in old(queue))
        invariant forall n :: n in old(next) && n !in old(queue) ==> n in next && next[n] == old(next)[n]
        decreases |queue|
      {
        Head(queue);
        assert Reversed(queue[1..]) + ([queue[0]] + free) == Reversed(queue) + free;
        hide Chain, Reversed;
        ChainHead(next, head, queue);
        var msg := PopNode();
        ChainPush(next, freeHead, free, msg);
        ChainFrame(next, head, queue, msg, freeHead);
        next := next[msg := freeHead];
        freeHead := msg;
        free := [msg] + free;
      }
    }

    /** The loop of rt_mq_init */
    method LinkPool()
      requires next == map[] && freeHead == NULL && free == [] && data == map[]
      modifies this`next, this`freeHead, this`free, this`data
      ensures Chain(next, freeHead, free) && Distinct(free)
      ensures forall x :: x in free <==> 0 <= x < count
      ensures forall x :: 0 <= x < count ==> Bytes(data, msgSize, x)
    {
      var n := 0;
      while n < count
        invariant 0 <= n <= count
        invariant Chain(next, freeHead, free) && Distinct(free)
        invariant forall x :: x in free <==> 0 <= x < n
        invariant forall x :: 0 <= x < n ==> Bytes(data, msgSize, x)
      {
        hide Chain, Distinct;
        ChainPush(next, freeHead, free, n);
        Push(free, n);
        next := next[n := freeHead];
        ghost var before := data;
        data := data[n := seq(msgSize, _ => 0)]; // stands for what the pool held before
        BytesMore(before, msgSize, n, data[n], data);
        freeHead := n;
        free := [n] + free;
        n := n + 1;
      }
    }
  }

  lemma BytesMore(data: map<int, seq<int>>, size: nat, n: nat, bytes: seq<int>, data': map<int, seq<int>>)
    requires data' == data[n := bytes] && |bytes| == size && forall x :: 0 <= x < n ==> Bytes(data, size, x)
    ensures forall x :: 0 <= x < n + 1 ==> Bytes(data', size, x)
  {
    forall x | 0 <= x < n + 1 ensures Bytes(data', size, x) { assert x < n ==> Bytes(data, size, x); }
  }

  /** Nodes are not NULL. */
  lemma FirstNull(s: State)
    requires Inv(s)
    ensures (First(s.queue) == NULL <==> s.queue == []) && (First(s.free) == NULL <==> s.free == [])
    ensures Last(s.queue) == NULL <==> s.queue == []
  {
    assert Somewhere(s.queue, s.free, s.held, First(s.queue)) <== s.queue != [];
    assert Somewhere(s.queue, s.free, s.held, Last(s.queue)) <== s.queue != [];
    assert Somewhere(s.queue, s.free, s.held, First(s.free)) <== s.free != [];
  }

  /** A node in somebody's hands is in no list and in nobody else's hands. */
  lemma HeldApart(s: State, t: int)
    requires Inv(s) && t in s.held
    ensures s.held[t].node !in s.queue && s.held[t].node !in s.free
    ensures forall u :: u in s.held && u != t ==> s.held[u].node != s.held[t].node
  {
    assert Holds(s.held, s.held[t].node);
  }

  lemma Counts(s: State)
    requires Inv(s)
    ensures Distinct(s.queue) && |s.queue| == |s.letters| == s.entry
  {
  }

  lemma Lists(s: State)
    requires Inv(s)
    ensures Distinct(s.queue) && Distinct(s.free) && NULL !in s.queue && |s.queue| == |s.letters| == s.entry
    ensures forall n :: n in s.queue ==> n !in s.free && !Holds(s.held, n)
    ensures forall t :: t in s.held ==> s.held[t].node !in s.queue && s.held[t].node !in s.free
  {
    hide Distinct;
    assert NULL in s.queue ==> Somewhere(s.queue, s.free, s.held, NULL);
    forall t | t in s.held ensures s.held[t].node !in s.queue && s.held[t].node !in s.free { HeldApart(s, t); }
  }

  lemma QuotientBounds(p: nat, m: nat)
    requires m > 0
    ensures p / m >= 0 && p / m % SHORT * m <= p && (p < SHORT * m ==> p < (p / m % SHORT + 1) * m)
  {
    var q := p / m;
    assert p == q * m + p % m;
    MulLe(q % SHORT, q, m);
    MulLe(SHORT, q, m);
    assert p < (q + 1) * m by { assert (q + 1) * m == q * m + m; }
  }

  lemma NewInv(s: State)
    requires s.queue == [] && s.held == map[] && s.letters == [] && s.receivers == [] && s.entry == 0 && s.woken == {}
    requires Distinct(s.free) && (forall x :: x in s.free <==> 0 <= x < s.count)
    requires forall n :: 0 <= n < s.count ==> Bytes(s.data, s.msgSize, n)
    ensures Inv(s)
  {
    assert forall x :: !Holds(s.held, x);
  }
}
