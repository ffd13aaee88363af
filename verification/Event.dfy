/** The event sets of src/ipc.c, one interrupt-free section per step.

    `EventSpec` states what rt_event_send is for in terms of rt_event_recv and proves that the pass of
    rt_event_send over the waiters does that; `Event` is the object the calls update. */
module EventSpec {
  import opened Ring
  import opened WaitList

  /** RT_EVENT_FLAG_AND, RT_EVENT_FLAG_OR and RT_EVENT_FLAG_CLEAR */
  datatype Mode = Mode(all: bool, any: bool, clear: bool)

  /** event_set and event_info of a thread */
  datatype Wish = Wish(bits: bv32, mode: Mode)

  datatype State = State(bits: bv32, waiters: seq<int>, wishes: map<int, Wish>)

  /** A thread that stops waiting and the set it receives */
  datatype Wake = Wake(t: int, got: bv32)

  datatype Outcome = Received(got: bv32) | Blocked | TimedOut | Refused

  // The operators of the event sets, named so that proofs can leave them unopened.

  function And(a: bv32, b: bv32): bv32 { a & b }

  function Or(a: bv32, b: bv32): bv32 { a | b }

  function Less(a: bv32, b: bv32): bv32 { a & !b }

  predicate Satisfied(bits: bv32, w: Wish) {
    if w.mode.all then And(bits, w.bits) == w.bits else w.mode.any && And(bits, w.bits) != 0
  }

  /** RT_EVENT_FLAG_AND or RT_EVENT_FLAG_OR must be given, and a bit to wait for. */
  predicate Legal(w: Wish) {
    w.bits != 0 && (w.mode.all || w.mode.any)
  }

  // ---------------------------------------------------------------- rt_event_recv

  /** The test of rt_event_recv and what follows when it succeeds. */
  function TryRecv(bits: bv32, w: Wish): (bool, bv32, bv32) {
    if Satisfied(bits, w) then (true, And(bits, w.bits), if w.mode.clear then Less(bits, w.bits) else bits)
    else (false, 0, bits)
  }

  /** rt_event_recv up to the end of its first section */
  function Recv(flag: Flag, prio: map<int, nat>, s: State, t: int, w: Wish, wait: bool): (State, Outcome) {
    if w.bits == 0 then (s, Refused) else
    var (ok, got, bits) := TryRecv(s.bits, w);
    if ok then (s.(bits := bits), Received(got))
    else if !wait then (s, TimedOut)
    else (s.(wishes := s.wishes[t := w], waiters := Joined(flag, prio, s.waiters, t)), Blocked)
  }

  // ---------------------------------------------------------------- rt_event_send

  function WishOf(wishes: map<int, Wish>, t: int): Wish {
    if t in wishes then wishes[t] else Wish(0, Mode(false, true, false))
  }

  /** What rt_event_send does with one waiter: whether it wakes, its event_set, the set that is left. */
  function Visit(bits: bv32, w: Wish): (bool, bv32, bv32) {
    var ok := if w.mode.all then And(w.bits, bits) == w.bits else w.mode.any && And(w.bits, bits) != 0;
    var got := if w.mode.all then w.bits else And(w.bits, bits);
    (ok, got, if ok && w.mode.clear then Less(bits, got) else bits)
  }

  /** The pass of rt_event_send over the waiters: the set left, those still waiting, those woken. */
  function Pass(bits: bv32, waiters: seq<int>, wishes: map<int, Wish>): (bv32, seq<int>, seq<Wake>) {
    if waiters == [] then (bits, [], []) else
    var (ok, got, left) := Visit(bits, WishOf(wishes, waiters[0]));
    var (end, stay, woken) := Pass(left, waiters[1..], wishes);
    if ok then (end, stay, [Wake(waiters[0], got)] + woken) else (end, [waiters[0]] + stay, woken)
  }

  /** A rt_event_recv without waiting for each waiter in turn. */
  function Receptions(bits: bv32, waiters: seq<int>, wishes: map<int, Wish>): (bv32, seq<int>, seq<Wake>) {
    if waiters == [] then (bits, [], []) else
    var (ok, got, left) := TryRecv(bits, WishOf(wishes, waiters[0]));
    var (end, stay, woken) := Receptions(left, waiters[1..], wishes);
    if ok then (end, stay, [Wake(waiters[0], got)] + woken) else (end, [waiters[0]] + stay, woken)
  }

  /** rt_event_send; the flag is RT_EOK */
  function Send(s: State, bits: bv32): (State, seq<Wake>, bool) {
    if bits == 0 then (s, [], false) else
    var (end, stay, woken) := Pass(Or(s.bits, bits), s.waiters, s.wishes);
    (s.(bits := end, waiters := stay), woken, true)
  }

  lemma VisitIsTry(bits: bv32, w: Wish)
    requires Legal(w)
    ensures Visit(bits, w).0 == TryRecv(bits, w).0 && Visit(bits, w).2 == TryRecv(bits, w).2
    ensures Visit(bits, w).0 ==> Visit(bits, w).1 == TryRecv(bits, w).1
  {
    ClearMatched(bits, w.bits);
    hide And, Less;
  }

  lemma ClearMatched(bits: bv32, w: bv32)
    ensures And(w, bits) == And(bits, w) && Less(bits, And(w, bits)) == Less(bits, w)
  {
  }

  /** Sending has the effect of receiving for each waiter in queue order: on the set, on who wakes and
      on what each woken thread receives. */
  lemma {:induction false} SendIsReceptions(bits: bv32, waiters: seq<int>, wishes: map<int, Wish>)
    requires forall t :: t in waiters ==> Legal(WishOf(wishes, t))
    ensures Pass(bits, waiters, wishes) == Receptions(bits, waiters, wishes)
    decreases |waiters|
  {
    hide Visit, TryRecv, Legal, WishOf;
    if waiters != [] {
      var w := WishOf(wishes, waiters[0]);
      VisitIsTry(bits, w);
      SendIsReceptions(Visit(bits, w).2, waiters[1..], wishes);
    }
  }

  // ---------------------------------------------------------------- nobody is left behind

  /** Every bit of a is in b. */
  predicate Within(a: bv32, b: bv32) {
    And(a, b) == a
  }

  lemma WithinTrans(a: bv32, b: bv32, c: bv32)
    requires Within(a, b) && Within(b, c)
    ensures Within(a, c)
  {
    assert a & c == (a & b) & c;
  }

  lemma LessWithin(a: bv32, b: bv32)
    ensures Within(Less(a, b), a) && Within(a, a)
  {
  }

  lemma VisitWithin(bits: bv32, w: Wish)
    ensures Within(Visit(bits, w).2, bits)
  {
    LessWithin(bits, Visit(bits, w).1);
    hide And, Less, Within;
  }

  lemma MonoAll(a: bv32, b: bv32, w: bv32)
    requires Within(a, b) && And(a, w) == w
    ensures And(b, w) == w
  {
    assert b & w == b & (a & w);
    assert b & (a & w) == (a & b) & w;
  }

  lemma MonoAny(a: bv32, b: bv32, w: bv32)
    requires Within(a, b) && And(a, w) != 0
    ensures And(b, w) != 0
  {
    assert a & (b & w) == (a & b) & w;
    assert b & w == 0 ==> a & (b & w) == 0;
  }

  /** Fewer bits satisfy fewer wishes. */
  lemma SatisfiedMono(a: bv32, b: bv32, w: Wish)
    requires Within(a, b) && Satisfied(a, w)
    ensures Satisfied(b, w)
  {
    hide And, Within;
    if w.mode.all { MonoAll(a, b, w.bits); } else { MonoAny(a, b, w.bits); }
  }

  ghost predicate Woken(woken: seq<Wake>, t: int) {
    exists i :: 0 <= i < |woken| && woken[i].t == t
  }

  lemma WokenCons(woken: seq<Wake>, x: Wake, t: int)
    ensures Woken([x] + woken, t) <==> t == x.t || Woken(woken, t)
  {
    var all := [x] + woken;
    assert forall i :: 0 <= i < |woken| ==> all[i + 1] == woken[i];
    if t == x.t { assert all[0].t == t; }
  }

  /** The pass splits the waiters into those that wake and those that stay, in their old order; it only
      takes bits away, and none of those that stay is satisfied by what it leaves. */
  lemma {:induction false} PassLeaves(bits: bv32, waiters: seq<int>, wishes: map<int, Wish>)
    requires Distinct(waiters)
    ensures var (end, stay, woken) := Pass(bits, waiters, wishes);
      && Within(end, bits) && Distinct(stay)
      && (forall t :: t in stay ==> t in waiters && !Satisfied(end, WishOf(wishes, t)))
      && (forall t :: t in waiters ==> (t in stay <==> !Woken(woken, t)))
    decreases |waiters|
  {
    hide Visit, Satisfied, WishOf, Within;
    if waiters == [] {
      LessWithin(bits, 0);
    } else {
      var t := waiters[0];
      var w := WishOf(wishes, t);
      var (ok, got, left) := Visit(bits, w);
      var (end, stay, woken) := Pass(left, waiters[1..], wishes);
      PassLeaves(left, waiters[1..], wishes);
      VisitWithin(bits, w);
      WithinTrans(end, left, bits);
      assert t !in waiters[1..];
      if ok {
        forall x | x in waiters ensures x in stay <==> !Woken([Wake(t, got)] + woken, x) { WokenCons(woken, Wake(t, got), x); }
      } else {
        StaysUnsatisfied(bits, end, w);
        InsertDistinct(stay, 0, t);
        assert InsertAt(stay, 0, t) == [t] + stay;
        NotWoken(left, waiters[1..], wishes, t);
      }
    }
  }

  lemma StaysUnsatisfied(bits: bv32, end: bv32, w: Wish)
    requires !Visit(bits, w).0 && Within(end, bits)
    ensures !Satisfied(end, w)
  {
    ClearMatched(bits, w.bits);
    hide And, Within, Less;
    if Satisfied(end, w) { SatisfiedMono(end, bits, w); }
  }

  lemma {:induction false} NotWoken(bits: bv32, waiters: seq<int>, wishes: map<int, Wish>, t: int)
    requires t !in waiters
    ensures !Woken(Pass(bits, waiters, wishes).2, t)
    decreases |waiters|
  {
    hide Visit, WishOf;
    if waiters != [] {
      var (ok, got, left) := Visit(bits, WishOf(wishes, waiters[0]));
      NotWoken(left, waiters[1..], wishes, t);
      WokenCons(Pass(left, waiters[1..], wishes).2, Wake(waiters[0], got), t);
    }
  }

  /** The bits that woken threads with RT_EVENT_FLAG_CLEAR have taken. */
  function Consumed(woken: seq<Wake>, wishes: map<int, Wish>): bv32 {
    if woken == [] then 0 else
    var rest := Consumed(woken[1..], wishes);
    if WishOf(wishes, woken[0].t).mode.clear then Or(woken[0].got, rest) else rest
  }

  /** What a woken thread receives: all it asked for, or the part of it that is there. */
  ghost predicate Deserved(bits: bv32, w: Wish, got: bv32) {
    Within(got, bits) && Within(got, w.bits) && if w.mode.all then got == w.bits else got != 0
  }

  /** Bits are consumed once: what a clearing thread receives no later one receives, and what is left is
      what was there less everything consumed. */
  lemma {:induction false} PassConsumes(bits: bv32, waiters: seq<int>, wishes: map<int, Wish>)
    ensures var (end, stay, woken) := Pass(bits, waiters, wishes);
      && end == Less(bits, Consumed(woken, wishes))
      && (forall i :: 0 <= i < |woken| ==> Deserved(bits, WishOf(wishes, woken[i].t), woken[i].got))
      && (forall i, j :: 0 <= i < j < |woken| && WishOf(wishes, woken[i].t).mode.clear ==>
                           And(woken[i].got, woken[j].got) == 0)
    decreases |waiters|
  {
    hide Visit, WishOf, Less, And, Or, Within, Deserved;
    if waiters == [] {
      LessNone(bits);
    } else {
      var t := waiters[0];
      var w := WishOf(wishes, t);
      var (ok, got, left) := Visit(bits, w);
      var (end, stay, woken) := Pass(left, waiters[1..], wishes);
      PassConsumes(left, waiters[1..], wishes);
      VisitDeserved(bits, w);
      VisitWithin(bits, w);
      forall i | 0 <= i < |woken| ensures Deserved(bits, WishOf(wishes, woken[i].t), woken[i].got) {
        DeservedMono(left, bits, WishOf(wishes, woken[i].t), woken[i].got);
      }
      if ok {
        var all := [Wake(t, got)] + woken;
        assert all[1..] == woken;
        forall i, j | 0 <= i < j < |all| && WishOf(wishes, all[i].t).mode.clear ensures And(all[i].got, all[j].got) == 0 {
          if i == 0 {
            TakenOnce(bits, got, all[j].got, WishOf(wishes, all[j].t));
          } else {
            assert And(woken[i - 1].got, woken[j - 1].got) == 0;
          }
        }
        LessTwice(bits, got, Consumed(woken, wishes));
      }
    }
  }

  lemma LessNone(bits: bv32)
    ensures Less(bits, 0) == bits
  {
  }

  lemma VisitDeserved(bits: bv32, w: Wish)
    ensures var (ok, got, left) := Visit(bits, w);
      && (ok ==> Deserved(bits, w, got))
      && left == if ok && w.mode.clear then Less(bits, got) else bits
  {
    AndWithin(w.bits, bits);
    hide And, Less;
  }

  lemma AndWithin(a: bv32, b: bv32)
    ensures Within(And(a, b), a) && Within(And(a, b), b) && Within(a, a)
  {
    assert (a & b) & b == a & b;
    assert (a & b) & a == a & b;
  }

  lemma DeservedMono(a: bv32, b: bv32, w: Wish, got: bv32)
    requires Deserved(a, w, got) && Within(a, b)
    ensures Deserved(b, w, got)
  {
    WithinTrans(got, a, b);
    hide Within;
  }

  lemma TakenOnce(bits: bv32, got: bv32, later: bv32, w: Wish)
    requires Deserved(Less(bits, got), w, later)
    ensures And(got, later) == 0
  {
    assert Within(later, Less(bits, got));
    Disjoint(bits, got, later);
  }

  lemma Disjoint(bits: bv32, got: bv32, later: bv32)
    requires Within(later, Less(bits, got))
    ensures And(got, later) == 0
  {
    assert later & (bits & !got) == later;
    assert got & (later & (bits & !got)) == 0;
  }

  lemma LessTwice(bits: bv32, a: bv32, b: bv32)
    ensures Less(Less(bits, a), b) == Less(bits, Or(a, b))
  {
  }

  // ---------------------------------------------------------------- runs

  /** Each waiter waits once, and none of them could have its wish at once. */
  ghost predicate Inv(s: State) {
    && Distinct(s.waiters)
    && forall t :: t in s.waiters ==> t in s.wishes && Legal(s.wishes[t]) && !Satisfied(s.bits, s.wishes[t])
  }

  datatype Step =
    | RecvStep(t: int, w: Wish, wait: bool, prio: map<int, nat>) // priorities as they are at that moment
    | SendStep(bits: bv32) | TimeoutStep(t: int) | ResetStep

  /** The flags RT_EVENT_FLAG_AND or RT_EVENT_FLAG_OR are demanded, and a waiting thread cannot call. */
  predicate Allowed(s: State, x: Step) {
    match x
    case RecvStep(t, w, _, _) => t !in s.waiters && (w.mode.all || w.mode.any)
    case TimeoutStep(t) => t in s.waiters
    case _ => true
  }

  ghost function Do(flag: Flag, s: State, x: Step): State {
    match x
    case RecvStep(t, w, wait, prio) => Recv(flag, prio, s, t, w, wait).0
    case SendStep(bits) => Send(s, bits).0
    case TimeoutStep(t) => s.(waiters := Without(s.waiters, t))
    case ResetStep => s.(bits := 0, waiters := [])
  }

  lemma RecvInv(flag: Flag, s: State, t: int, w: Wish, wait: bool, prio: map<int, nat>)
    requires Inv(s) && t !in s.waiters && (w.mode.all || w.mode.any)
    ensures Inv(Recv(flag, prio, s, t, w, wait).0)
  {
    hide Satisfied, Less, And;
    var (s', out) := Recv(flag, prio, s, t, w, wait);
    if out == Blocked {
      JoinedMembers(flag, prio, s.waiters, t);
    } else {
      LessWithin(s.bits, w.bits);
      forall x | x in s.waiters ensures !Satisfied(s'.bits, s.wishes[x]) {
        if Satisfied(s'.bits, s.wishes[x]) { SatisfiedMono(s'.bits, s.bits, s.wishes[x]); }
      }
    }
  }

  /** The bits that a receiver wishes for are there: all of them, or one. */
  predicate Met(bits: bv32, w: Wish) {
    (w.mode.all ==> Within(w.bits, bits)) && (w.mode.any && !w.mode.all ==> And(w.bits, bits) != 0)
    && (w.mode.all || w.mode.any)
  }

  lemma MetIs(bits: bv32, w: Wish)
    ensures Satisfied(bits, w) <==> Met(bits, w)
  {
    ClearMatched(bits, w.bits);
    hide And;
  }

  /** A receiver gets what is there of its bits when its wish is met, and clears them if it asked for that.
      Otherwise it joins the waiters with its wish when it may wait, and nothing else changes. */
  lemma RecvMeans(flag: Flag, s: State, t: int, w: Wish, wait: bool, prio: map<int, nat>)
    ensures var (s', out) := Recv(flag, prio, s, t, w, wait);
      && (out == Refused <==> w.bits == 0)
      && (out.Received? <==> w.bits != 0 && Met(s.bits, w))
      && (out == TimedOut <==> w.bits != 0 && !Met(s.bits, w) && !wait)
      && (out == Blocked <==> w.bits != 0 && !Met(s.bits, w) && wait)
      && (out == Refused || out == TimedOut ==> s' == s)
      && (out.Received? ==>
            && out.got == And(s.bits, w.bits) && s'.waiters == s.waiters && s'.wishes == s.wishes
            && s'.bits == if w.mode.clear then Less(s.bits, w.bits) else s.bits)
      && (out == Blocked ==>
            && s'.bits == s.bits && Queued(flag, prio, s.waiters, s'.waiters, t) && t in s'.waiters
            && t in s'.wishes && s'.wishes[t] == w
            && forall u :: u != t ==> WishOf(s'.wishes, u) == WishOf(s.wishes, u))
  {
    MetIs(s.bits, w);
    JoinedQueues(flag, prio, s.waiters, t);
    hide Satisfied, Met, Joined, Queued, And, Less;
  }

  /** Sending adds its bits; the first waiter is woken when its wish is met then, and a send of no bits does
      nothing. */
  lemma SendMeans(s: State, bits: bv32)
    requires Inv(s)
    ensures var (s', woken, ok) := Send(s, bits);
      && (ok <==> bits != 0) && (!ok ==> s' == s && woken == []) && s'.wishes == s.wishes
      && (ok && s.waiters != [] ==>
            && (Met(Or(s.bits, bits), s.wishes[s.waiters[0]]) <==> woken != [] && woken[0].t == s.waiters[0])
            && (Met(Or(s.bits, bits), s.wishes[s.waiters[0]]) <==> s.waiters[0] !in s'.waiters))
  {
    if bits != 0 && s.waiters != [] {
      var t, now := s.waiters[0], Or(s.bits, bits);
      assert t in s.waiters;
      MetIs(now, s.wishes[t]);
      FirstVisit(now, s.wishes[t]);
      hide Visit, Satisfied, Met, Or;
      PassLeaves(now, s.waiters, s.wishes);
      WokenFirst(now, s.waiters, s.wishes);
    }
  }

  lemma FirstVisit(bits: bv32, w: Wish)
    requires Legal(w)
    ensures Visit(bits, w).0 <==> Satisfied(bits, w)
  {
    VisitIsTry(bits, w);
    hide And;
  }

  /** Who is woken first, when the first waiter is not, is somebody else. */
  lemma WokenFirst(bits: bv32, waiters: seq<int>, wishes: map<int, Wish>)
    requires Distinct(waiters) && waiters != []
    ensures var (end, stay, woken) := Pass(bits, waiters, wishes);
      var ok := Visit(bits, WishOf(wishes, waiters[0])).0;
      (ok <==> woken != [] && woken[0].t == waiters[0]) && (ok <==> waiters[0] !in stay)
  {
    hide Visit, Distinct;
    var t := waiters[0];
    var (ok, got, left) := Visit(bits, WishOf(wishes, t));
    var (end, stay, woken) := Pass(left, waiters[1..], wishes);
    assert t !in waiters[1..] by { NotAgain(waiters); }
    NotWoken(left, waiters[1..], wishes, t);
    StaySome(left, waiters[1..], wishes);
    if !ok && woken != [] { assert woken[0].t == t ==> Woken(woken, t); }
  }

  lemma NotAgain(w: seq<int>)
    requires Distinct(w) && w != []
    ensures w[0] !in w[1..]
  {
  }

  lemma {:induction false} StaySome(bits: bv32, waiters: seq<int>, wishes: map<int, Wish>)
    ensures forall x :: x in Pass(bits, waiters, wishes).1 ==> x in waiters
    decreases |waiters|
  {
    hide Visit;
    if waiters != [] { StaySome(Visit(bits, WishOf(wishes, waiters[0])).2, waiters[1..], wishes); }
  }

  /** A timeout takes just this thread out of the list; after a reset nobody waits, and nothing could be
      received. */
  lemma OthersMean(flag: Flag, s: State, t: int, w: Wish)
    ensures t in s.waiters ==>
      var s' := Do(flag, s, TimeoutStep(t)); Left(s.waiters, s'.waiters, t) && s' == s.(waiters := s'.waiters)
    ensures var s' := Do(flag, s, ResetStep); s'.waiters == [] && s'.bits == 0 && (Legal(w) ==> !Met(s'.bits, w))
  {
    if t in s.waiters { WithoutLeft(s.waiters, t); }
  }

  lemma StepInv(flag: Flag, s: State, x: Step)
    requires Inv(s) && Allowed(s, x)
    ensures Inv(Do(flag, s, x))
  {
    hide Satisfied;
    match x {
      case RecvStep(t, w, wait, prio) => RecvInv(flag, s, t, w, wait, prio);
      case SendStep(bits) => PassLeaves(Or(s.bits, bits), s.waiters, s.wishes);
      case TimeoutStep(t) => WithoutMembers(s.waiters, t);
      case ResetStep =>
    }
  }

  ghost function Run(flag: Flag, s: State, run: seq<Step>): State
    decreases |run|
  {
    if run == [] then s else Run(flag, Do(flag, s, run[0]), run[1..])
  }

  ghost predicate AllAllowed(flag: Flag, s: State, run: seq<Step>)
    decreases |run|
  {
    run == [] || (Allowed(s, run[0]) && AllAllowed(flag, Do(flag, s, run[0]), run[1..]))
  }

  /** In every run from rt_event_init no thread is left waiting for bits that are there. */
  lemma {:induction false} EveryRun(flag: Flag, s: State, run: seq<Step>)
    requires Inv(s) && AllAllowed(flag, s, run)
    ensures Inv(Run(flag, s, run))
    decreases |run|
  {
    hide Inv, Allowed, Do;
    if run != [] {
      StepInv(flag, s, run[0]);
      EveryRun(flag, Do(flag, s, run[0]), run[1..]);
    }
  }

  /** No timeout of t, no reset, and no send wakes it. */
  ghost predicate Undisturbed(flag: Flag, s: State, run: seq<Step>, t: int)
    decreases |run|
  {
    run == [] ||
    (run[0] != TimeoutStep(t) && !run[0].ResetStep? && (run[0].SendStep? ==> !Woken(Send(s, run[0].bits).1, t))
     && Undisturbed(flag, Do(flag, s, run[0]), run[1..], t))
  }

  lemma StepWaits(flag: Flag, s: State, x: Step, t: int)
    requires Inv(s) && Allowed(s, x) && t in s.waiters && Undisturbed(flag, s, [x], t)
    ensures t in Do(flag, s, x).waiters && WishOf(Do(flag, s, x).wishes, t) == WishOf(s.wishes, t)
  {
    hide Satisfied, Legal, Joined, Pass, Without;
    match x {
      case RecvStep(u, w, wait, prio) => JoinedMembers(flag, prio, s.waiters, u);
      case SendStep(bits) => if bits != 0 { PassLeaves(Or(s.bits, bits), s.waiters, s.wishes); }
      case TimeoutStep(u) => WithoutMembers(s.waiters, u);
      case ResetStep =>
    }
  }

  /** In every run a thread that blocked is in the wait list with its wish until its time is over, a send wakes
      it or the event is reset. */
  lemma {:induction false} StaysWaiting(flag: Flag, s: State, run: seq<Step>, t: int)
    requires Inv(s) && AllAllowed(flag, s, run) && t in s.waiters && Undisturbed(flag, s, run, t)
    ensures t in Run(flag, s, run).waiters && WishOf(Run(flag, s, run).wishes, t) == WishOf(s.wishes, t)
    decreases |run|
  {
    hide Inv, Do, Allowed, Send, WishOf;
    if run != [] {
      var x := run[0];
      assert [x][1..] == [];
      assert Undisturbed(flag, s, [x], t);
      StepInv(flag, s, x);
      StepWaits(flag, s, x, t);
      StaysWaiting(flag, Do(flag, s, x), run[1..], t);
    }
  }

  lemma BlockedWaits(flag: Flag, s: State, t: int, w: Wish, prio: map<int, nat>, run: seq<Step>)
    requires Inv(s) && Allowed(s, RecvStep(t, w, true, prio)) && Recv(flag, prio, s, t, w, true).1 == Blocked
    requires var s' := Recv(flag, prio, s, t, w, true).0; AllAllowed(flag, s', run) && Undisturbed(flag, s', run, t)
    ensures var s' := Run(flag, Recv(flag, prio, s, t, w, true).0, run);
      t in s'.waiters && t in s'.wishes && s'.wishes[t] == w
  {
    hide AllAllowed, Run, Undisturbed, Satisfied, Met;
    var s' := Recv(flag, prio, s, t, w, true).0;
    RecvMeans(flag, s, t, w, true, prio);
    RecvInv(flag, s, t, w, true, prio);
    StaysWaiting(flag, s', run, t);
    EveryRun(flag, s', run);
  }

  /** In every run, sending is receiving for every waiter. */
  lemma SendInRun(flag: Flag, run: seq<Step>, bits: bv32)
    requires AllAllowed(flag, Initial(), run) && bits != 0
    ensures var s := Run(flag, Initial(), run);
      var (end, stay, woken) := Receptions(Or(s.bits, bits), s.waiters, s.wishes);
      Send(s, bits) == (s.(bits := end, waiters := stay), woken, true)
  {
    hide Or, Run, Satisfied, Receptions, Pass, AllAllowed;
    EveryRun(flag, Initial(), run);
    var s := Run(flag, Initial(), run);
    SendIsReceptions(Or(s.bits, bits), s.waiters, s.wishes);
  }

  /** rt_event_init */
  function Initial(): State {
    State(0, [], map[])
  }
}

module Event {
  import opened Ring
  import opened WaitList
  import opened EventSpec

  /** struct rt_event with the event_set and event_info of the threads that wait for it. */
  class Event {
    const flag: Flag
    var bits: bv32
    var waiters: seq<int>
    var wishes: map<int, Wish>

    ghost function Abs(): State
      reads this
    {
      State(bits, waiters, wishes)
    }

    ghost predicate Valid()
      reads this
    {
      Inv(Abs())
    }

    /** rt_event_init */
    constructor (flag: Flag)
      ensures this.flag == flag && Abs() == Initial() && Valid()
    {
      this.flag, bits, waiters, wishes := flag, 0, [], map[];
    }

    /** rt_event_recv, up to where the caller goes to sleep */
    method Receive(t: int, w: Wish, wait: bool, prio: map<int, nat>) returns (out: Outcome)
      requires Valid() && Allowed(Abs(), RecvStep(t, w, wait, prio))
      modifies this
      ensures (Abs(), out) == Recv(flag, prio, old(Abs()), t, w, wait) && Valid()
    {
      hide And, Less;
      StepInv(flag, Abs(), RecvStep(t, w, wait, prio));
      if w.bits == 0 {
        return Refused;
      }
      var status := false;
      if w.mode.all {
        if And(bits, w.bits) == w.bits {
          status := true;
        }
      } else if w.mode.any {
        if And(bits, w.bits) != 0 {
          status := true;
        }
      }
      if status {
        out := Received(And(bits, w.bits));
        if w.mode.clear {
          bits := Less(bits, w.bits);
        }
      } else if !wait {
        out := TimedOut;
      } else {
        wishes := wishes[t := w];
        waiters := ListSuspend(flag, prio, waiters, t);
        out := Blocked;
      }
    }

    /** rt_event_send; `woken` lists the resumed threads with the event_set each of them keeps */
    method Signal(request: bv32) returns (woken: seq<Wake>, ok: bool)
      requires Valid()
      modifies this
      ensures (Abs(), woken, ok) == Send(old(Abs()), request) && Valid()
    {
      hide And, Or, Less;
      ghost var s := Abs();
      StepInv(flag, s, SendStep(request));
      woken := [];
      if request == 0 {
        return [], false;
      }
      bits := Or(bits, request);
      woken := Sweep();
      ok := true;
    }

    /** The loop of rt_event_send */
    method Sweep() returns (woken: seq<Wake>)
      requires forall t :: t in waiters ==> t in wishes && Legal(wishes[t])
      modifies this`bits, this`waiters
      ensures (bits, waiters, woken) == Pass(old(bits), old(waiters), wishes)
    {
      hide Visit, Pass, Legal;
      ghost var total := Pass(bits, waiters, wishes);
      var n := 0;
      woken := [];
      UnderwayStart(bits, waiters, wishes);
      while n < |waiters|
        invariant 0 <= n <= |waiters|
        invariant Underway(total, bits, waiters, wishes, n, woken)
        invariant forall t :: t in waiters ==> t in wishes && Legal(wishes[t])
        decreases |waiters| - n
      {
        var t := waiters[n];
        var w := wishes[t];
        PassStep(total, bits, waiters, n, wishes, woken);
        var status, got := Test(w);
        if status {
          if w.mode.clear {
            bits := Less(bits, got);
          }
          waiters := RemoveAt(waiters, n);
          woken := woken + [Wake(t, got)];
        } else {
          n := n + 1;
        }
      }
      UnderwayEnd(total, bits, waiters, wishes, woken);
    }

    /** The test of one waiter; an OR waiter's event_set becomes what is there of it. */
    method Test(w: Wish) returns (status: bool, got: bv32)
      ensures var (ok, g, left) := Visit(bits, w);
        status == ok && (ok ==> got == g && left == if w.mode.clear then Less(bits, g) else bits)
    {
      hide And, Less;
      status, got := false, w.bits;
      if w.mode.all {
        if And(w.bits, bits) == w.bits {
          status := true;
        }
      } else if w.mode.any {
        if And(w.bits, bits) != 0 {
          got := And(w.bits, bits);
          status := true;
        }
      }
    }

    /** rt_thread_timeout of a waiting thread */
    method Timeout(t: int)
      requires Valid() && t in waiters
      modifies this`waiters
      ensures Abs() == Do(flag, old(Abs()), TimeoutStep(t)) && Valid()
    {
      StepInv(flag, Abs(), TimeoutStep(t));
      var i :| 0 <= i < |waiters| && waiters[i] == t;
      IndexUnique(waiters, i);
      waiters := RemoveAt(waiters, i);
    }

    /** rt_event_control with RT_IPC_CMD_RESET */
    method Reset()
      requires Valid()
      modifies this`bits, this`waiters
      ensures Abs() == Do(flag, old(Abs()), ResetStep) && Valid()
    {
      while waiters != []
        invariant wishes == old(wishes)
      {
        waiters := waiters[1..];
      }
      bits := 0;
    }
  }

  /** The pass has dealt with the first n waiters of the list it works on. */
  ghost predicate Underway(total: (bv32, seq<int>, seq<Wake>), bits: bv32, waiters: seq<int>,
                           wishes: map<int, Wish>, n: nat, woken: seq<Wake>)
    requires n <= |waiters|
  {
    var rest := Pass(bits, waiters[n..], wishes);
    total == (rest.0, waiters[..n] + rest.1, woken + rest.2)
  }

  lemma UnderwayStart(bits: bv32, waiters: seq<int>, wishes: map<int, Wish>)
    ensures Underway(Pass(bits, waiters, wishes), bits, waiters, wishes, 0, [])
  {
    hide Pass;
    assert waiters[0..] == waiters;
    var rest := Pass(bits, waiters, wishes);
    assert waiters[..0] + rest.1 == rest.1 && [] + rest.2 == rest.2;
  }

  lemma UnderwayEnd(total: (bv32, seq<int>, seq<Wake>), bits: bv32, waiters: seq<int>, wishes: map<int, Wish>,
                    woken: seq<Wake>)
    requires Underway(total, bits, waiters, wishes, |waiters|, woken)
    ensures total == (bits, waiters, woken)
  {
    assert waiters[|waiters|..] == [] && waiters[..|waiters|] == waiters;
    assert waiters + [] == waiters && woken + [] == woken;
  }

  /** One round of the pass. */
  lemma PassStep(total: (bv32, seq<int>, seq<Wake>), bits: bv32, waiters: seq<int>, n: nat,
                 wishes: map<int, Wish>, woken: seq<Wake>)
    requires n < |waiters| && waiters[n] in wishes && Underway(total, bits, waiters, wishes, n, woken)
    ensures var (ok, got, left) := Visit(bits, wishes[waiters[n]]);
      if ok then Underway(total, left, RemoveAt(waiters, n), wishes, n, woken + [Wake(waiters[n], got)])
      else Underway(total, bits, waiters, wishes, n + 1, woken)
  {
    hide Visit;
    assert waiters[n..][1..] == waiters[n + 1..];
    assert RemoveAt(waiters, n)[n..] == waiters[n + 1..] && RemoveAt(waiters, n)[..n] == waiters[..n];
    var w := wishes[waiters[n]];
    var (ok, got, left) := Visit(bits, w);
    VisitKeeps(bits, w);
    var rest := Pass(left, waiters[n + 1..], wishes);
    if ok {
      assert woken + ([Wake(waiters[n], got)] + rest.2) == (woken + [Wake(waiters[n], got)]) + rest.2;
    } else {
      assert waiters[..n] + ([waiters[n]] + rest.1) == waiters[..n + 1] + rest.1;
    }
  }

  lemma VisitKeeps(bits: bv32, w: Wish)
    ensures !Visit(bits, w).0 ==> Visit(bits, w).2 == bits
  {
    hide And, Less;
  }
}
