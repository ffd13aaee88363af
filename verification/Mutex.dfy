/** The mutex of src/ipc.c with priority inheritance, one interrupt-free section per step.

    `MutexSpec` is the state machine; `Mutex` the object that rt_mutex_take and rt_mutex_release update. */
module MutexSpec {
  import opened Arith
  import opened Ring
  import opened WaitList

  const NOBODY := -1 // RT_NULL
  const BYTE := 256 // mutex->hold is an rt_uint8_t

  /** `prio` is current_priority of the threads.  The last five components record history only: the
      priorities the threads have without the mutex, how often its owner holds it, when each waiter
      came, how many came in all, and who came since the owner got the mutex. */
  datatype State = State(value: nat, owner: int, original: nat, hold: nat, waiters: seq<int>, prio: map<int, nat>,
                         base: map<int, nat>, depth: nat, arrival: map<int, nat>, arrivals: nat, came: set<int>)

  datatype Outcome = Taken | Blocked | TimedOut

  // ---------------------------------------------------------------- the steps

  /** rt_mutex_take up to the end of its first section; a blocked thread sleeps in the wait list. */
  function Take(flag: Flag, s: State, t: int, wait: bool): (State, Outcome) {
    if s.owner == t then (s.(hold := (s.hold + 1) % BYTE, depth := s.depth + 1), Taken)
    else if s.value > 0 then
      (s.(value := s.value - 1, owner := t, original := Get(s.prio, t), hold := (s.hold + 1) % BYTE,
          depth := 1, came := {}), Taken)
    else if !wait then (s, TimedOut)
    else
      var p := Get(s.prio, t);
      (s.(prio := if p < Get(s.prio, s.owner) then s.prio[s.owner := p] else s.prio,
          waiters := Joined(flag, s.prio, s.waiters, t),
          arrival := s.arrival[t := s.arrivals], arrivals := s.arrivals + 1, came := s.came + {t}), Blocked)
  }

  /** rt_mutex_release; the flag is RT_EOK */
  function Release(s: State, t: int): (State, bool) {
    if t != s.owner then (s, false) else
    var hold := (s.hold - 1) % BYTE;
    if hold != 0 then (s.(hold := hold, depth := if s.depth > 0 then s.depth - 1 else 0), true)
    else
      var prio := if s.original != Get(s.prio, s.owner) then s.prio[s.owner := s.original] else s.prio;
      if s.waiters != [] then
        var next := s.waiters[0];
        (s.(prio := prio, owner := next, original := Get(prio, next), hold := hold + 1, waiters := s.waiters[1..],
            depth := 1, came := {}), true)
      else
        (s.(prio := prio, value := s.value + 1, owner := NOBODY, original := 0xff, hold := hold, depth := 0, came := {}), true)
  }

  /** rt_thread_timeout of a thread in the wait list */
  ghost function Timeout(s: State, t: int): State {
    s.(waiters := Without(s.waiters, t))
  }

  // ---------------------------------------------------------------- the invariant

  /** Waiters are threads other than the owner, and each waits once. */
  ghost predicate WaitersOk(s: State) {
    && Distinct(s.waiters)
    && forall t :: t in s.waiters ==> t in s.prio && t != s.owner && t in s.arrival && s.arrival[t] < s.arrivals
  }

  /** Only the owner's priority may have been raised, and its own one is remembered. */
  ghost predicate BaseOk(s: State) {
    && s.base.Keys == s.prio.Keys
    && (forall t :: t in s.prio && t != s.owner ==> s.prio[t] == s.base[t])
    && (s.owner != NOBODY ==> s.owner in s.prio && s.prio[s.owner] <= s.base[s.owner] == s.original)
  }

  /** The mutex is free exactly when nobody owns it, and nobody waits for a free mutex. */
  ghost predicate OwnerOk(s: State) {
    && NOBODY !in s.prio && s.value <= 1 && s.hold == s.depth % BYTE
    && (s.value == 1 <==> s.owner == NOBODY)
    && (s.owner == NOBODY <==> s.depth == 0)
    && (s.owner == NOBODY ==> s.waiters == [])
  }

  /** The owner is exactly as urgent as the most urgent among itself and all who came since it got the
      mutex, whether they still wait or not. */
  ghost predicate BoostOk(s: State) {
    s.owner != NOBODY ==>
      && (forall t :: t in s.came ==> t in s.base && t != s.owner && Get(s.prio, s.owner) <= s.base[t])
      && (Get(s.prio, s.owner) == Get(s.base, s.owner) || exists t :: t in s.came && Get(s.base, t) == Get(s.prio, s.owner))
  }

  ghost predicate Inv(s: State) {
    WaitersOk(s) && BaseOk(s) && OwnerOk(s) && BoostOk(s)
  }

  /** More urgent, or as urgent and earlier. */
  predicate Ahead(s: State, t: int, u: int) {
    Get(s.prio, t) < Get(s.prio, u) || (Get(s.prio, t) == Get(s.prio, u) && Get(s.arrival, t) < Get(s.arrival, u))
  }

  ghost predicate Ordered(s: State) {
    forall i, j :: 0 <= i < j < |s.waiters| ==> Ahead(s, s.waiters[i], s.waiters[j])
  }

  /** The owner is at least as urgent as every waiter. */
  ghost predicate Inherits(s: State) {
    forall t :: t in s.waiters ==> Get(s.prio, s.owner) <= Get(s.prio, t)
  }

  /** What holds in addition for the priority-ordered flag. */
  ghost predicate PrioInv(s: State) {
    Inv(s) && Ordered(s) && Inherits(s)
  }

  /** With the other flag the waiters stand in the order they came. */
  ghost predicate FifoInv(s: State) {
    Inv(s) && forall i, j :: 0 <= i < j < |s.waiters| ==> Get(s.arrival, s.waiters[i]) < Get(s.arrival, s.waiters[j])
  }

  ghost predicate FlagInv(flag: Flag, s: State) {
    match flag
    case Prio => PrioInv(s)
    case Fifo => FifoInv(s)
  }

  lemma FlagIsInv(flag: Flag, s: State)
    requires FlagInv(flag, s)
    ensures Inv(s)
  {
  }

  // ---------------------------------------------------------------- what the steps keep

  /** A thread that can call: it exists and does not wait. */
  predicate Awake(s: State, t: int) {
    t in s.prio && t !in s.waiters
  }

  /** A take gets the mutex when nobody else owns it.  Otherwise the caller joins the waiters when it may wait,
      and the owner becomes as urgent as the caller unless it is already; or else nothing happens. */
  lemma TakeMeans(flag: Flag, s: State, t: int, wait: bool)
    requires Inv(s) && Awake(s, t)
    ensures var (s', out) := Take(flag, s, t, wait);
      && (out == Taken <==> s.owner == NOBODY || s.owner == t) && (out == Taken <==> s'.owner == t)
      && (out == Blocked <==> s.owner != NOBODY && s.owner != t && wait)
      && (out == TimedOut ==> s' == s)
      && (out == Taken ==> s'.waiters == s.waiters && s'.prio == s.prio && s'.depth == s.depth + 1 && s'.value == 0)
      && (out == Blocked ==>
            && Queued(flag, s.prio, s.waiters, s'.waiters, t) && t in s'.waiters
            && s'.owner == s.owner && s'.value == s.value && s'.depth == s.depth && s'.hold == s.hold
            && (forall u :: u != s.owner ==> Get(s'.prio, u) == Get(s.prio, u))
            && Get(s'.prio, s.owner) ==
               if Get(s.prio, t) < Get(s.prio, s.owner) then Get(s.prio, t) else Get(s.prio, s.owner))
  {
    hide BoostOk, Joined;
    JoinedQueues(flag, s.prio, s.waiters, t);
  }

  /** Only the owner can release.  As long as the hold count stays above zero nothing but the count changes; then
      the owner gets its own priority back, and the first waiter has the mutex, or nobody has. */
  lemma ReleaseMeans(s: State, t: int)
    requires Inv(s) && Awake(s, t)
    ensures var (s', ok) := Release(s, t);
      && (ok <==> t == s.owner) && (!ok ==> s' == s)
      && (ok && s.hold != 1 ==> s' == s.(hold := s'.hold, depth := s.depth - 1) && (s'.hold + 1) % BYTE == s.hold)
      && (ok && s.hold == 1 ==>
            && Get(s'.prio, t) == Get(s.base, t) && (forall u :: u != t ==> Get(s'.prio, u) == Get(s.prio, u))
            && (if s.waiters == [] then s'.owner == NOBODY && s'.value == 1 && s'.waiters == []
                else [s'.owner] + s'.waiters == s.waiters && s'.value == 0 && s'.depth == 1))
  {
    hide BoostOk;
  }

  /** A timeout takes just this thread out of the list. */
  lemma TimeoutMeans(s: State, t: int)
    requires t in s.waiters
    ensures Left(s.waiters, Timeout(s, t).waiters, t) && Timeout(s, t) == s.(waiters := Timeout(s, t).waiters)
  {
    WithoutLeft(s.waiters, t);
  }

  lemma TakeInv(flag: Flag, s: State, t: int, wait: bool)
    requires Inv(s) && Awake(s, t)
    ensures Inv(Take(flag, s, t, wait).0)
  {
    hide BoostOk;
    var (s', out) := Take(flag, s, t, wait);
    if out == Blocked {
      JoinedMembers(flag, s.prio, s.waiters, t);
    }
    TakeBoost(flag, s, t, wait);
  }

  lemma TakeBoost(flag: Flag, s: State, t: int, wait: bool)
    requires Inv(s) && Awake(s, t)
    ensures BoostOk(Take(flag, s, t, wait).0)
  {
    hide Joined, WaitersOk;
    var (s', out) := Take(flag, s, t, wait);
    if out == Blocked {
      assert t in s'.came && s.base[t] == s.prio[t];
      assert forall x :: x in s.came ==> x in s'.came;
    }
  }

  lemma TakeOrdered(s: State, t: int, wait: bool)
    requires PrioInv(s) && Awake(s, t)
    ensures Ordered(Take(Prio, s, t, wait).0)
  {
    Waiting(s);
    hide Inv, Inherits;
    var (s', out) := Take(Prio, s, t, wait);
    if out == Blocked {
      PlaceSpec(s.prio, s.waiters, s.prio[t]);
      JoinOrdered(s, s', t, Place(Prio, s.prio, s.waiters, s.prio[t]));
    }
  }

  lemma JoinOrdered(s: State, s': State, t: int, k: nat)
    requires Ordered(s) && k <= |s.waiters| && s'.waiters == InsertAt(s.waiters, k, t) && t !in s.waiters
    requires Get(s'.prio, t) == Get(s.prio, t) && Get(s'.arrival, t) == s.arrivals
    requires forall x :: x in s.waiters ==> Get(s.arrival, x) < s.arrivals && Get(s'.prio, x) == Get(s.prio, x)
                                            && Get(s'.arrival, x) == Get(s.arrival, x)
    requires forall i :: 0 <= i < k ==> Get(s.prio, s.waiters[i]) <= Get(s.prio, t)
    requires k < |s.waiters| ==> Get(s.prio, t) < Get(s.prio, s.waiters[k])
    ensures Ordered(s')
  {
    forall i, j | 0 <= i < j < |s'.waiters| ensures Ahead(s', s'.waiters[i], s'.waiters[j]) {
      InsertAtIndex(s.waiters, k, t, i);
      InsertAtIndex(s.waiters, k, t, j);
      if i == k && j > k + 1 { assert Ahead(s, s.waiters[k], s.waiters[j - 1]); }
    }
  }

  lemma TakeInherits(s: State, t: int, wait: bool)
    requires PrioInv(s) && Awake(s, t)
    ensures Inherits(Take(Prio, s, t, wait).0) && BoostOk(Take(Prio, s, t, wait).0)
  {
    TakeBoost(Prio, s, t, wait);
    var (s', out) := Take(Prio, s, t, wait);
    if out == Blocked {
      JoinedMembers(Prio, s.prio, s.waiters, t);
      assert forall x :: x in s.waiters ==> Get(s'.prio, x) == Get(s.prio, x);
    }
  }

  lemma TakeFifo(s: State, t: int, wait: bool)
    requires FifoInv(s) && Awake(s, t)
    ensures FifoInv(Take(Fifo, s, t, wait).0)
  {
    TakeInv(Fifo, s, t, wait);
    var (s', out) := Take(Fifo, s, t, wait);
    if out == Blocked {
      assert s'.waiters == s.waiters + [t];
      forall i | 0 <= i < |s.waiters| ensures s'.waiters[i] in s.waiters && s.waiters[i] != t {}
    }
  }

  lemma ReleaseInv(s: State, t: int)
    requires Inv(s) && Awake(s, t)
    ensures Inv(Release(s, t).0)
  {
  }

  lemma ReleaseOrdered(s: State, t: int)
    requires PrioInv(s) && Awake(s, t)
    ensures PrioInv(Release(s, t).0)
  {
    hide Inv;
    ReleaseInv(s, t);
    Waiting(s);
  }

  lemma Waiting(s: State)
    requires Inv(s)
    ensures forall x :: x in s.waiters ==> x != s.owner && x in s.prio && Get(s.arrival, x) < s.arrivals
    ensures s.owner != NOBODY ==> s.owner in s.prio && forall x :: x in s.prio && x != s.owner ==> s.prio[x] == Get(s.base, x)
  {
  }

  lemma ReleaseFifo(s: State, t: int)
    requires FifoInv(s) && Awake(s, t)
    ensures FifoInv(Release(s, t).0)
  {
    ReleaseInv(s, t);
  }

  lemma TimeoutInv(s: State, t: int)
    requires Inv(s) && t in s.waiters
    ensures Inv(Timeout(s, t)) && (PrioInv(s) ==> PrioInv(Timeout(s, t))) && (FifoInv(s) ==> FifoInv(Timeout(s, t)))
  {
    WithoutMembers(s.waiters, t);
    assert forall i :: 0 <= i < |s.waiters| - 1 ==> Without(s.waiters, t)[i] == s.waiters[if i < Index(s.waiters, t) then i else i + 1];
  }

  /** The owner gets back the priority it has without the mutex, and the mutex goes to the waiter that
      is most urgent and, among those, came first. */
  lemma HandOff(s: State, t: int)
    requires PrioInv(s) && s.owner == t && t != NOBODY && s.hold == 1 && s.waiters != []
    ensures var s' := Release(s, t).0;
      && s'.owner == s.waiters[0] && s'.waiters == s.waiters[1..] && s'.hold == 1 && s'.value == 0
      && Get(s'.prio, t) == Get(s.base, t)
      && forall u :: u in s'.waiters ==> Ahead(s, s'.owner, u)
  {
  }

  // ---------------------------------------------------------------- inheritance with the FIFO flag

  /** A release keeps the owner as urgent as the waiters exactly when the waiter that came first is as
      urgent as the others: the new owner inherits nothing from them. */
  lemma ReleaseInherits(s: State, t: int)
    requires FifoInv(s) && s.owner == t && t != NOBODY && s.hold == 1 && s.waiters != []
    ensures var s' := Release(s, t).0;
      && (forall u :: u in s'.waiters ==> u !in s'.came && Get(s.arrival, s'.owner) < Get(s.arrival, u))
      && (Inherits(s') <==> forall u :: u in s.waiters ==> Get(s.base, s.waiters[0]) <= Get(s.base, u))
  {
    Waiting(s);
    var s', w := Release(s, t).0, s.waiters;
    FirstAndRest(w);
    forall u | u in w[1..] ensures Get(s.arrival, w[0]) < Get(s.arrival, u) {
      var i :| 0 <= i < |w[1..]| && w[1..][i] == u;
      assert w[i + 1] == u;
    }
    hide FifoInv, Inv;
    assert forall u :: u in w ==> Get(s'.prio, u) == Get(s.base, u);
  }

  lemma FirstAndRest(w: seq<int>)
    requires w != []
    ensures forall u :: u in w <==> u == w[0] || u in w[1..]
  {
    assert w == [w[0]] + w[1..];
  }

  /** In every run with the FIFO flag the threads wait in the order they came, and only those that
      waited already when the owner got the mutex can be more urgent than it is. */
  lemma FifoRun(prio: map<int, nat>, run: seq<Step>)
    requires NOBODY !in prio && AllAllowed(Fifo, Initial(prio), run)
    ensures var s := Run(Fifo, Initial(prio), run);
      && (forall i, j :: 0 <= i < j < |s.waiters| ==> Get(s.arrival, s.waiters[i]) < Get(s.arrival, s.waiters[j]))
      && (forall u :: u in s.waiters && u in s.came ==> Get(s.prio, s.owner) <= Get(prio, u) == Get(s.prio, u))
      && (Inherits(s) <==> forall u :: u in s.waiters && u !in s.came ==> Get(s.prio, s.owner) <= Get(prio, u))
  {
    hide Take, Release, Timeout;
    RunInv(Fifo, Initial(prio), run);
    RunBase(Fifo, Initial(prio), run);
    Waiting(Run(Fifo, Initial(prio), run));
  }

  /** Such a run: thread 2 gets the mutex before the more urgent thread 3 and stays less urgent. */
  lemma FifoInversion()
    ensures var prio, run := map[1 := 20, 2 := 15, 3 := 5],
                             [TakeStep(1, true), TakeStep(2, true), TakeStep(3, true), ReleaseStep(1)];
      && AllAllowed(Fifo, Initial(prio), run)
      && var s := Run(Fifo, Initial(prio), run);
        s.owner == 2 && s.waiters == [3] && Get(s.prio, 2) == 15 > Get(s.prio, 3) == 5 && !Inherits(s)
  {
    hide Run, AllAllowed, Take, Release, Timeout;
    var m := map[1 := 20, 2 := 15, 3 := 5];
    var s3, s4 := ThirdWaits(m), HandedOver(m);
    TwoTakes(Fifo, m);
    ThirdTake(m);
    Handing(m);
    FourSteps(Fifo, Initial(m), FirstOwns(m), SecondWaits(m), s3, s4,
              TakeStep(1, true), TakeStep(2, true), TakeStep(3, true), ReleaseStep(1));
    assert 3 in s4.waiters;
  }

  /** Thread 1 has the mutex. */
  function FirstOwns(m: map<int, nat>): State {
    State(0, 1, Get(m, 1), 1, [], m, m, 1, map[], 0, {})
  }

  /** Thread 2, more urgent, waits for it. */
  function SecondWaits(m: map<int, nat>): State {
    State(0, 1, Get(m, 1), 1, [2], m[1 := Get(m, 2)], m, 1, map[2 := 0], 1, {2})
  }

  /** Thread 3, the most urgent, has come behind it with the FIFO flag. */
  function ThirdWaits(m: map<int, nat>): State {
    State(0, 1, Get(m, 1), 1, [2, 3], m[1 := Get(m, 3)], m, 1, map[2 := 0, 3 := 1], 2, {2, 3})
  }

  function HandedOver(m: map<int, nat>): State {
    State(0, 2, Get(m, 2), 1, [3], m, m, 1, map[2 := 0, 3 := 1], 2, {})
  }

  lemma JoinsFirst(flag: Flag, prio: map<int, nat>, t: int)
    ensures Joined(flag, prio, [], t) == [t]
  {
  }

  lemma TwoTakes(flag: Flag, m: map<int, nat>)
    requires 1 in m && 2 in m && m[2] < m[1]
    ensures Take(flag, Initial(m), 1, true).0 == FirstOwns(m) && Take(flag, FirstOwns(m), 2, true).0 == SecondWaits(m)
  {
    hide Joined;
    JoinsFirst(flag, m, 2);
    var s := FirstOwns(m);
    assert s.arrival[2 := 0] == map[2 := 0] && s.came + {2} == {2};
  }

  lemma ThirdTake(m: map<int, nat>)
    requires 1 in m && 2 in m && 3 in m && m[3] < m[2]
    ensures Take(Fifo, SecondWaits(m), 3, true).0 == ThirdWaits(m)
  {
    var s := SecondWaits(m);
    assert Joined(Fifo, s.prio, [2], 3) == [2, 3];
    assert s.prio[1 := m[3]] == m[1 := m[3]] && map[2 := 0][3 := 1] == map[2 := 0, 3 := 1] && {2} + {3} == {2, 3};
  }

  lemma Handing(m: map<int, nat>)
    requires 1 in m && 2 in m && 3 in m && m[3] < m[1]
    ensures Release(ThirdWaits(m), 1).0 == HandedOver(m)
  {
    var s := ThirdWaits(m);
    assert s.waiters[1..] == [3] && s.prio[1 := m[1]] == m;
  }

  lemma FourSteps(flag: Flag, s: State, s1: State, s2: State, s3: State, s4: State, a: Step, b: Step, c: Step, d: Step)
    requires Allowed(s, a) && Do(flag, s, a) == s1 && Allowed(s1, b) && Do(flag, s1, b) == s2
    requires Allowed(s2, c) && Do(flag, s2, c) == s3 && Allowed(s3, d) && Do(flag, s3, d) == s4
    ensures AllAllowed(flag, s, [a, b, c]) && Run(flag, s, [a, b, c]) == s3
    ensures AllAllowed(flag, s, [a, b, c, d]) && Run(flag, s, [a, b, c, d]) == s4
  {
    hide Run, AllAllowed, Allowed, Do;
    assert [] + [a] == [a] && [a] + [b] == [a, b] && [a, b] + [c] == [a, b, c] && [a, b, c] + [d] == [a, b, c, d];
    RunNone(flag, s);
    RunOne(flag, s, [], a, s, s1);
    RunOne(flag, s, [a], b, s1, s2);
    RunOne(flag, s, [a, b], c, s2, s3);
    RunOne(flag, s, [a, b, c], d, s3, s4);
  }

  lemma RunNone(flag: Flag, s: State)
    ensures AllAllowed(flag, s, []) && Run(flag, s, []) == s
  {
  }

  lemma RunOne(flag: Flag, s: State, run: seq<Step>, x: Step, before: State, after: State)
    requires AllAllowed(flag, s, run) && Run(flag, s, run) == before && Allowed(before, x) && Do(flag, before, x) == after
    ensures AllAllowed(flag, s, run + [x]) && Run(flag, s, run + [x]) == after
  {
    assert (run + [x])[..|run|] == run;
  }

  // ---------------------------------------------------------------- inheritance and timeouts

  /** The owner's urgency is its own or that of a thread that still waits. */
  ghost predicate Explained(s: State) {
    s.owner != NOBODY ==>
      Get(s.prio, s.owner) == Get(s.base, s.owner) || exists u :: u in s.waiters && Get(s.prio, u) == Get(s.prio, s.owner)
  }

  /** A timeout leaves the owner with the urgency of a thread that no longer waits exactly when the
      thread that gives up is the first waiter, strictly more urgent than the second, and the owner is
      raised.  Once that is so, further timeouts do not mend it. */
  lemma BoostOutlastsTimeout(s: State, t: int)
    requires PrioInv(s) && t in s.waiters
    ensures var s' := Timeout(s, t);
      && Get(s'.prio, s.owner) == Get(s.prio, s.owner)
      && (!Explained(s) ==> !Explained(s'))
      && (Explained(s) ==>
            (!Explained(s') <==> Get(s.prio, s.owner) < Get(s.base, s.owner) && t == s.waiters[0]
                                 && (|s.waiters| > 1 ==> Get(s.prio, t) < Get(s.prio, s.waiters[1]))))
  {
    WithoutMembers(s.waiters, t);
    var s', w := Timeout(s, t), s.waiters;
    assert w[0] in w && (|w| > 1 ==> w[1] in w && Ahead(s, w[0], w[1]));
    forall u | u in w ensures u == w[0] || (|w| > 1 && Get(s.prio, w[1]) <= Get(s.prio, u)) {
      var i :| 0 <= i < |w| && w[i] == u;
      assert i > 1 ==> Ahead(s, w[1], w[i]);
    }
    if Explained(s) && Get(s.prio, s.owner) < Get(s.base, s.owner) {
      assert Get(s.prio, w[0]) == Get(s.prio, s.owner);
      if t != w[0] { assert w[0] in s'.waiters; }
      else if |w| > 1 && Get(s.prio, t) == Get(s.prio, w[1]) { assert w[1] in s'.waiters; }
    }
  }

  /** With the FIFO flag the urgency is lost sight of exactly when the owner is raised to that of the thread
      that gives up, every other waiter that came since the owner got the mutex is less urgent, and none of
      the earlier ones is just as urgent. */
  lemma FifoBoostOutlastsTimeout(s: State, t: int)
    requires FifoInv(s) && t in s.waiters
    ensures var s' := Timeout(s, t);
      && Get(s'.prio, s.owner) == Get(s.prio, s.owner)
      && (!Explained(s) ==> !Explained(s'))
      && (Explained(s) ==>
            (!Explained(s') <==>
              && Get(s.prio, s.owner) == Get(s.prio, t) < Get(s.base, s.owner)
              && forall u :: u in s.waiters && u != t ==>
                   if u in s.came then Get(s.prio, t) < Get(s.prio, u) else Get(s.prio, u) != Get(s.prio, t)))
  {
    WithoutMembers(s.waiters, t);
    Waiting(s);
    hide Without, Distinct;
    var s' := Timeout(s, t);
    assert forall u :: u in s.waiters && u != t ==> u in s'.waiters;
    if Explained(s) && Explained(s') && Get(s.prio, s.owner) != Get(s.base, s.owner) {
      var u :| u in s'.waiters && Get(s.prio, u) == Get(s.prio, s.owner);
      assert u in s.waiters && u != t;
    }
  }

  /** The mutex stays with its owner in every state of the run. */
  ghost predicate Keeps(flag: Flag, s: State, run: seq<Step>) {
    Run(flag, s, run).owner == s.owner && (run == [] || Keeps(flag, s, run[..|run| - 1]))
  }

  /** As long as the owner has the mutex it loses none of its urgency, whatever the other threads do. */
  lemma {:induction false} BoostLasts(flag: Flag, s: State, run: seq<Step>)
    requires FlagInv(flag, s) && s.owner != NOBODY && AllAllowed(flag, s, run) && Keeps(flag, s, run)
    ensures Get(Run(flag, s, run).prio, s.owner) <= Get(s.prio, s.owner)
  {
    hide FlagInv;
    if run != [] {
      var before := run[..|run| - 1];
      BoostLasts(flag, s, before);
      RunInv(flag, s, before);
      StepKeepsBoost(flag, Run(flag, s, before), run[|run| - 1]);
    }
  }

  lemma StepKeepsBoost(flag: Flag, s: State, x: Step)
    requires FlagInv(flag, s) && s.owner != NOBODY && Allowed(s, x) && Do(flag, s, x).owner == s.owner
    ensures Get(Do(flag, s, x).prio, s.owner) <= Get(s.prio, s.owner)
  {
    assert Inv(s);
    hide Joined;
    if x.ReleaseStep? && x.t == s.owner && s.waiters != [] { assert s.waiters[0] in s.waiters; }
  }

  /** Such a run, with either flag: thread 1 keeps the priority of thread 2 after thread 2 has given up, until
      it lets the mutex go. */
  lemma TimeoutInversion(flag: Flag)
    ensures var prio, run := map[1 := 20, 2 := 5], [TakeStep(1, true), TakeStep(2, true), TimeoutStep(2)];
      && AllAllowed(flag, Initial(prio), run + [ReleaseStep(1)])
      && var s, s' := Run(flag, Initial(prio), run), Run(flag, Initial(prio), run + [ReleaseStep(1)]);
        && s.owner == 1 && s.waiters == [] && Get(s.prio, 1) == 5 && !Explained(s)
        && s'.owner == NOBODY && Get(s'.prio, 1) == 20
  {
    hide Run, AllAllowed, Take, Release, Timeout;
    var m := map[1 := 20, 2 := 5];
    TwoTakes(flag, m);
    GivingUp(m);
    FourSteps(flag, Initial(m), FirstOwns(m), SecondWaits(m), GaveUp(m), Released(m),
              TakeStep(1, true), TakeStep(2, true), TimeoutStep(2), ReleaseStep(1));
    assert [TakeStep(1, true), TakeStep(2, true), TimeoutStep(2)] + [ReleaseStep(1)]
        == [TakeStep(1, true), TakeStep(2, true), TimeoutStep(2), ReleaseStep(1)];
  }

  function GaveUp(m: map<int, nat>): State {
    SecondWaits(m).(waiters := [])
  }

  function Released(m: map<int, nat>): State {
    State(1, NOBODY, 0xff, 0, [], m, m, 0, map[2 := 0], 1, {})
  }

  lemma GivingUp(m: map<int, nat>)
    requires 1 in m && 2 in m && m[2] < m[1]
    ensures Timeout(SecondWaits(m), 2) == GaveUp(m) && Release(GaveUp(m), 1).0 == Released(m)
  {
    IndexUnique([2], 0);
    assert RemoveAt([2], 0) == [];
    assert m[1 := m[2]][1 := m[1]] == m;
  }

  // ---------------------------------------------------------------- the width of the hold count

  ghost function TakeTimes(flag: Flag, s: State, t: int, n: nat): State {
    if n == 0 then s else Take(flag, TakeTimes(flag, s, t, n - 1), t, true).0
  }

  /** n takes of a free mutex: the counter says whether somebody owns it, except when n is 256, 512, ... */
  lemma {:induction false} HoldTells(flag: Flag, s: State, t: int, n: nat)
    requires Inv(s) && s.owner == NOBODY && Awake(s, t) && n > 0
    ensures var s' := TakeTimes(flag, s, t, n);
      && Inv(s') && s'.owner == t && s'.depth == n && s'.waiters == []
      && s'.hold == n % BYTE && (s'.hold == 0 <==> n % BYTE == 0)
  {
    hide BaseOk, BoostOk, WaitersOk;
    if n > 1 {
      HoldTells(flag, s, t, n - 1);
      OwnerAwake(TakeTimes(flag, s, t, n - 1));
    }
    TakeInv(flag, TakeTimes(flag, s, t, n - 1), t, true);
  }

  lemma OwnerAwake(s: State)
    requires Inv(s) && s.owner != NOBODY
    ensures Awake(s, s.owner)
  {
  }

  ghost function ReleaseTimes(s: State, t: int, m: nat): State {
    if m == 0 then s else Release(ReleaseTimes(s, t, m - 1), t).0
  }

  /** An owner at a depth of n keeps the mutex for (n - 1) % 256 releases. */
  lemma {:induction false} KeepsDepth(s: State, t: int, m: nat)
    requires Inv(s) && s.owner == t && t != NOBODY && t !in s.waiters
    ensures Inv(ReleaseTimes(s, t, m))
    ensures ReleaseTimes(s, t, m).owner == t <==> m <= (s.depth - 1) % BYTE
    ensures m <= (s.depth - 1) % BYTE ==>
              ReleaseTimes(s, t, m).depth == s.depth - m && ReleaseTimes(s, t, m).waiters == s.waiters
  {
    hide Inv, Release;
    if m > 0 {
      KeepsDepth(s, t, m - 1);
      var s1 := ReleaseTimes(s, t, m - 1);
      if s1.owner == t {
        ReleaseOne(s1, t);
        SmallerRemainder(s.depth - 1, m - 1);
      } else {
        NotOwner(s1, t);
      }
    }
  }

  lemma NotOwner(s: State, t: int)
    requires s.owner != t
    ensures Release(s, t) == (s, false)
  {
  }

  lemma ReleaseOne(s: State, t: int)
    requires Inv(s) && s.owner == t && t != NOBODY && t !in s.waiters
    ensures var s' := Release(s, t).0;
      && Inv(s') && s.depth > 0 && (s'.owner == t <==> (s.depth - 1) % BYTE != 0)
      && (s'.owner == t ==> s'.depth == s.depth - 1 && s'.waiters == s.waiters)
  {
    ReleaseInv(s, t);
    CountDown(s);
    FirstWaits(s);
    hide Inv;
  }

  lemma CountDown(s: State)
    requires OwnerOk(s) && s.owner != NOBODY
    ensures s.depth > 0 && (s.hold - 1) % BYTE == (s.depth - 1) % BYTE
  {
    OneLess(s.depth, s.depth / BYTE, s.hold);
  }

  lemma OneLess(d: nat, q: nat, r: nat)
    requires r < BYTE && d == q * BYTE + r
    ensures (r - 1) % BYTE == (d - 1) % BYTE == if r > 0 then r - 1 else BYTE - 1
  {
    if r > 0 { DivModUnique(d - 1, BYTE, q, r - 1); } else { DivModUnique(d - 1, BYTE, q - 1, BYTE - 1); }
  }

  lemma FirstWaits(s: State)
    requires Inv(s)
    ensures (s.waiters != [] ==> s.waiters[0] != s.owner) && (s.owner != NOBODY ==> Awake(s, s.owner))
  {
    if s.waiters != [] { assert s.waiters[0] in s.waiters; }
  }

  lemma SmallerRemainder(d: int, j: nat)
    requires j <= d % BYTE
    ensures (d - j) % BYTE == d % BYTE - j
  {
    DivModUnique(d - j, BYTE, d / BYTE, d % BYTE - j);
  }

  /** A thread that takes a free mutex n times keeps it for (n - 1) % 256 releases. */
  lemma KeepsFor(flag: Flag, s: State, t: int, n: nat, m: nat)
    requires Inv(s) && s.owner == NOBODY && Awake(s, t) && n > 0
    ensures ReleaseTimes(TakeTimes(flag, s, t, n), t, m).owner == t <==> m <= (n - 1) % BYTE
  {
    hide Inv, ReleaseTimes, TakeTimes;
    HoldTells(flag, s, t, n);
    NobodyExists(s);
    KeepsDepth(TakeTimes(flag, s, t, n), t, m);
  }

  lemma NobodyExists(s: State)
    requires Inv(s)
    ensures NOBODY !in s.prio
  {
  }

  /** After n takes it is the n-th release that lets the mutex go exactly when n is at most 256. */
  lemma LastRelease(flag: Flag, s: State, t: int, n: nat)
    requires Inv(s) && s.owner == NOBODY && Awake(s, t) && n > 0
    ensures var s' := TakeTimes(flag, s, t, n);
      (ReleaseTimes(s', t, n).owner != t && ReleaseTimes(s', t, n - 1).owner == t) <==> n <= BYTE
  {
    hide Inv, ReleaseTimes, TakeTimes;
    KeepsFor(flag, s, t, n, n);
    KeepsFor(flag, s, t, n, n - 1);
    assert n <= BYTE <==> (n - 1) % BYTE == n - 1;
  }

  /** The shortest such run: 257 takes, and the first release lets the mutex go. */
  lemma LostAfter257()
    ensures var s := TakeTimes(Prio, Initial(map[1 := 10]), 1, 257); s.owner == 1 && Release(s, 1).0.owner == NOBODY
  {
    var s0 := Initial(map[1 := 10]);
    HoldTells(Prio, s0, 1, 257);
    hide TakeTimes;
    assert TakeTimes(Prio, s0, 1, 257).hold == 1;
  }

  // ---------------------------------------------------------------- runs

  datatype Step = TakeStep(t: int, wait: bool) | ReleaseStep(t: int) | TimeoutStep(t: int)

  predicate Allowed(s: State, x: Step) {
    match x
    case TimeoutStep(t) => t in s.waiters
    case _ => Awake(s, x.t)
  }

  ghost function Do(flag: Flag, s: State, x: Step): State {
    match x
    case TakeStep(t, wait) => Take(flag, s, t, wait).0
    case ReleaseStep(t) => Release(s, t).0
    case TimeoutStep(t) => Timeout(s, t)
  }

  /** rt_mutex_init, with threads at their own priorities */
  function Initial(prio: map<int, nat>): State {
    State(1, NOBODY, 0xff, 0, [], prio, prio, 0, map[], 0, {})
  }

  ghost function Run(flag: Flag, s: State, run: seq<Step>): State {
    if run == [] then s else Do(flag, Run(flag, s, run[..|run| - 1]), run[|run| - 1])
  }

  ghost predicate AllAllowed(flag: Flag, s: State, run: seq<Step>) {
    run == [] ||
    var before := run[..|run| - 1];
    AllAllowed(flag, s, before) && Allowed(Run(flag, s, before), run[|run| - 1])
  }

  lemma {:induction false} RunInv(flag: Flag, s: State, run: seq<Step>)
    requires AllAllowed(flag, s, run) && FlagInv(flag, s)
    ensures FlagInv(flag, Run(flag, s, run))
  {
    hide FlagInv, Take, Release, Timeout;
    if run != [] {
      RunInv(flag, s, run[..|run| - 1]);
      StepInv(flag, Run(flag, s, run[..|run| - 1]), run[|run| - 1]);
    }
  }

  lemma StepInv(flag: Flag, s: State, x: Step)
    requires Allowed(s, x) && FlagInv(flag, s)
    ensures FlagInv(flag, Do(flag, s, x))
  {
    hide Inv, Ordered, Inherits, Take, Release, Timeout;
    match x {
      case TakeStep(t, wait) =>
        TakeInv(flag, s, t, wait);
        if flag == Prio {
          TakeOrdered(s, t, wait);
          TakeInherits(s, t, wait);
        } else {
          TakeFifo(s, t, wait);
        }
      case ReleaseStep(t) =>
        ReleaseInv(s, t);
        if flag == Prio { ReleaseOrdered(s, t); } else { ReleaseFifo(s, t); }
      case TimeoutStep(t) => TimeoutInv(s, t);
    }
  }

  /** A waiter stays in the list until it gets the mutex or its time is over. */
  lemma StepWaits(flag: Flag, s: State, x: Step, t: int)
    requires Inv(s) && Allowed(s, x) && t in s.waiters && x != TimeoutStep(t)
    ensures t in Do(flag, s, x).waiters || Do(flag, s, x).owner == t
  {
    hide BoostOk, BaseOk, Joined, Without;
    match x {
      case TakeStep(u, wait) => JoinedMembers(flag, s.prio, s.waiters, u);
      case ReleaseStep(u) => ReleaseMeans(s, u);
      case TimeoutStep(u) => WithoutMembers(s.waiters, u);
    }
  }

  /** In every run a thread whose take blocked is in the wait list until its time is over or some release has
      made it the owner. */
  lemma {:induction false} BlockedWaits(flag: Flag, s: State, t: int, run: seq<Step>)
    requires FlagInv(flag, s) && Awake(s, t) && Take(flag, s, t, true).1 == Blocked
    requires AllAllowed(flag, Take(flag, s, t, true).0, run) && TimeoutStep(t) !in run
    ensures var s' := Take(flag, s, t, true).0;
      t in Run(flag, s', run).waiters || exists k :: 0 <= k <= |run| && Owns(flag, s', run, k, t)
  {
    hide FlagInv, Take, Do, Allowed, Inv;
    var s' := Take(flag, s, t, true).0;
    FlagIsInv(flag, s);
    TakeMeans(flag, s, t, true);
    TakeKeeps(flag, s, t);
    if run != [] {
      var before := run[..|run| - 1];
      BlockedWaits(flag, s, t, before);
      RunInv(flag, s', before);
      FlagIsInv(flag, Run(flag, s', before));
      if t in Run(flag, s', before).waiters {
        StepWaits(flag, Run(flag, s', before), run[|run| - 1], t);
        assert run[..|run|] == run;
        assert t in Run(flag, s', run).waiters || Owns(flag, s', run, |run|, t);
      } else {
        var k :| 0 <= k <= |before| && Owns(flag, s', before, k, t);
        assert before[..k] == run[..k];
        assert Owns(flag, s', run, k, t);
      }
    }
  }

  lemma TakeKeeps(flag: Flag, s: State, t: int)
    requires FlagInv(flag, s) && Awake(s, t)
    ensures FlagInv(flag, Take(flag, s, t, true).0)
  {
    hide FlagInv, Take;
    StepInv(flag, s, TakeStep(t, true));
  }

  /** t has the mutex after the first k steps. */
  ghost predicate Owns(flag: Flag, s: State, run: seq<Step>, k: nat, t: int)
    requires k <= |run|
  {
    Run(flag, s, run[..k]).owner == t
  }

  /** In every run of taking, taking again, releasing and timing out. */
  lemma EveryRun(prio: map<int, nat>, run: seq<Step>)
    requires NOBODY !in prio && AllAllowed(Prio, Initial(prio), run)
    ensures var s := Run(Prio, Initial(prio), run);
      && s.prio.Keys == prio.Keys && s.base == prio
      && (s.value == 1 <==> s.owner == NOBODY) && (s.depth < BYTE ==> (s.hold == 0 <==> s.owner == NOBODY))
      && (s.waiters != [] ==> s.owner != NOBODY)
      && Distinct(s.waiters) && Ordered(s)
      && (forall t :: t in s.waiters ==> t != s.owner && Get(s.prio, s.owner) <= Get(s.prio, t))
      && (forall t :: t in prio && t != s.owner ==> Get(s.prio, t) == prio[t])
      && (s.owner != NOBODY ==> Get(s.prio, s.owner) <= Get(prio, s.owner) == s.original)
      && (s.owner != NOBODY && Get(s.prio, s.owner) < Get(prio, s.owner) ==>
            exists t :: t in s.came && Get(prio, t) == Get(s.prio, s.owner))
  {
    hide Take, Release, Timeout;
    RunInv(Prio, Initial(prio), run);
    RunBase(Prio, Initial(prio), run);
  }

  lemma {:induction false} RunBase(flag: Flag, s: State, run: seq<Step>)
    ensures Run(flag, s, run).base == s.base
  {
    if run != [] { RunBase(flag, s, run[..|run| - 1]); }
  }
}

module Mutex {
  import opened Ring
  import opened WaitList
  import opened MutexSpec

  /** Raising the owner does not move the place of t among the waiters. */
  lemma PlaceBefore(flag: Flag, s: State, t: int)
    requires Inv(s)
    ensures Place(flag, s.prio[s.owner := Get(s.prio, t)], s.waiters, Get(s.prio, t)) ==
            Place(flag, s.prio, s.waiters, Get(s.prio, t))
  {
    var prio, p := s.prio[s.owner := Get(s.prio, t)], Get(s.prio, t);
    if flag == Prio {
      PlaceSpec(s.prio, s.waiters, p);
      forall x | x in s.waiters ensures Get(prio, x) == Get(s.prio, x) {}
      PlaceUnique(prio, s.waiters, p, Place(Prio, s.prio, s.waiters, p));
    }
  }

  /** struct rt_mutex, with the priorities of the threads that use it; `base` to `came` are history. */
  class Mutex {
    const flag: Flag
    var value: nat
    var owner: int
    var original: nat
    var hold: nat
    var waiters: seq<int>
    var prio: map<int, nat>
    ghost var base: map<int, nat>
    ghost var depth: nat
    ghost var arrival: map<int, nat>
    ghost var arrivals: nat
    ghost var came: set<int>

    ghost function Abs(): State
      reads this
    {
      State(value, owner, original, hold, waiters, prio, base, depth, arrival, arrivals, came)
    }

    ghost predicate Valid()
      reads this
    {
      FlagInv(flag, Abs())
    }

    /** rt_mutex_init */
    constructor (flag: Flag, prio: map<int, nat>)
      requires NOBODY !in prio
      ensures this.flag == flag && Abs() == Initial(prio) && Valid()
    {
      this.flag := flag;
      value, owner, original, hold, waiters := 1, NOBODY, 0xff, 0, [];
      this.prio, base, depth, arrival, arrivals, came := prio, prio, 0, map[], 0, {};
    }

    /** rt_mutex_take, up to where the caller goes to sleep */
    method TakeMutex(t: int, wait: bool) returns (out: Outcome)
      requires Valid() && Awake(Abs(), t)
      modifies this
      ensures (Abs(), out) == Take(flag, old(Abs()), t, wait) && Valid()
    {
      hide Inv, FlagInv;
      ghost var s := Abs();
      StepInv(flag, s, TakeStep(t, wait));
      if owner == t {
        hold, depth := (hold + 1) % BYTE, depth + 1;
        return Taken;
      }
      if value > 0 {
        value := value - 1;
        owner := t;
        original := Get(prio, t);
        hold := (hold + 1) % BYTE;
        depth, came := 1, {};
        return Taken;
      }
      if !wait {
        return TimedOut;
      }
      FlagIsInv(flag, s);
      PlaceBefore(flag, s, t);
      if Get(prio, t) < Get(prio, owner) {
        prio := prio[owner := Get(prio, t)];
      }
      waiters := ListSuspend(flag, prio, waiters, t);
      arrival, arrivals, came := arrival[t := arrivals], arrivals + 1, came + {t};
      return Blocked;
    }

    /** rt_mutex_release */
    method ReleaseMutex(t: int) returns (ok: bool)
      requires Valid() && Awake(Abs(), t)
      modifies this
      ensures (Abs(), ok) == Release(old(Abs()), t) && Valid()
    {
      hide Inv, FlagInv;
      StepInv(flag, Abs(), ReleaseStep(t));
      if t != owner {
        return false;
      }
      hold := (hold - 1) % BYTE;
      if hold == 0 {
        if original != Get(prio, owner) {
          prio := prio[owner := original];
        }
        if waiters != [] {
          var next := waiters[0];
          owner := next;
          original := Get(prio, next);
          hold := hold + 1;
          waiters := waiters[1..];
          depth, came := 1, {};
        } else {
          value := value + 1;
          owner := NOBODY;
          original := 0xff;
          depth, came := 0, {};
        }
      } else {
        depth := if depth > 0 then depth - 1 else 0;
      }
      ok := true;
    }

    /** rt_thread_timeout */
    method TimeoutThread(t: int)
      requires Valid() && t in waiters
      modifies this`waiters
      ensures Valid() && Abs() == Timeout(old(Abs()), t)
    {
      StepInv(flag, Abs(), TimeoutStep(t));
      var i :| 0 <= i < |waiters| && waiters[i] == t;
      IndexUnique(waiters, i);
      waiters := RemoveAt(waiters, i);
    }
  }
}
