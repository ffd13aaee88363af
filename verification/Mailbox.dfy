/** The mailbox of src/ipc.c: a ring of mails with waiting senders and receivers, one interrupt-free
    section per step, so that any interleaving of callers is a run.

    A resumed thread tries again only when it is scheduled; until then it is recorded as woken. */
module MailboxSpec {
  import opened Ring
  import opened WaitList

  /** `pool`, `inAt`, `outAt`, `entry` are the ring, `receivers` and `senders` the two wait lists.
      History: the threads resumed but not yet run again, and the mails sent and received since the
      last reset. */
  datatype State = State(pool: seq<int>, inAt: nat, outAt: nat, entry: nat, receivers: seq<int>, senders: seq<int>,
                         wokenReceivers: set<int>, wokenSenders: set<int>, sent: seq<int>, received: seq<int>)

  datatype Outcome = Done(mail: int) | Blocked | GivenUp

  function Size(s: State): nat { |s.pool| }

  /** The offset i places behind `from`. */
  function Wrap(size: nat, from: nat, i: nat): nat {
    if from + i >= size then from + i - size else from + i
  }

  // ---------------------------------------------------------------- the steps

  /** What rt_mb_send_wait does once there is room. */
  function Put(s: State, mail: int): State
    requires s.inAt < Size(s)
  {
    var s1 := s.(pool := s.pool[s.inAt := mail], inAt := Wrap(Size(s), s.inAt, 1), entry := s.entry + 1,
                 sent := s.sent + [mail]);
    if s.receivers == [] then s1
    else s1.(receivers := s.receivers[1..], wokenReceivers := s.wokenReceivers + {s.receivers[0]})
  }

  /** What rt_mb_recv does once there is a mail. */
  function TakeOut(s: State): State
    requires s.outAt < Size(s) && s.entry > 0
  {
    var s1 := s.(outAt := Wrap(Size(s), s.outAt, 1), entry := s.entry - 1,
                 received := s.received + [s.pool[s.outAt]]);
    if s.senders == [] then s1
    else s1.(senders := s.senders[1..], wokenSenders := s.wokenSenders + {s.senders[0]})
  }

  /** One round of rt_mb_send_wait by thread t, the first or one after being resumed; `wait` tells
      whether it has time left to wait. */
  function Send(flag: Flag, prio: map<int, nat>, s: State, t: int, mail: int, wait: bool): (State, Outcome)
    requires Inv(s)
  {
    var s1 := s.(wokenSenders := s.wokenSenders - {t});
    if s.entry == Size(s) then
      if wait then (s1.(senders := Joined(flag, prio, s.senders, t)), Blocked) else (s1, GivenUp)
    else (Put(s1, mail), Done(mail))
  }

  /** One round of rt_mb_recv */
  function Recv(flag: Flag, prio: map<int, nat>, s: State, t: int, wait: bool): (State, Outcome)
    requires Inv(s)
  {
    var s1 := s.(wokenReceivers := s.wokenReceivers - {t});
    if s.entry == 0 then
      if wait then (s1.(receivers := Joined(flag, prio, s.receivers, t)), Blocked) else (s1, GivenUp)
    else (TakeOut(s1), Done(s.pool[s.outAt]))
  }

  /** rt_thread_timeout of a thread in one of the wait lists */
  ghost function Timeout(s: State, t: int): State {
    s.(receivers := Without(s.receivers, t), senders := Without(s.senders, t))
  }

  /** rt_mb_control with RT_IPC_CMD_RESET; the threads it resumes return an error. */
  function Reset(s: State): State {
    s.(receivers := [], senders := [], entry := 0, inAt := 0, outAt := 0, sent := [], received := [])
  }

  // ---------------------------------------------------------------- the invariant

  /** The mails in the ring, oldest first. */
  function Contents(s: State): (c: seq<int>)
    requires RingOk(s)
  {
    seq(s.entry, i requires 0 <= i < s.entry => s.pool[Wrap(Size(s), s.outAt, i)])
  }

  predicate RingOk(s: State) {
    && s.entry <= Size(s)
    && (if Size(s) == 0 then s.inAt == s.outAt == 0
        else s.outAt < Size(s) && s.inAt == Wrap(Size(s), s.outAt, s.entry))
  }

  ghost predicate Disjoint(w: seq<int>, v: seq<int>, x: set<int>, y: set<int>) {
    && Distinct(w)
    && forall t :: t in w ==> t !in v && t !in x && t !in y
  }

  /** A thread waits in one list at most, and is not woken while it waits. */
  ghost predicate ThreadsOk(s: State) {
    && Disjoint(s.receivers, s.senders, s.wokenReceivers, s.wokenSenders)
    && Disjoint(s.senders, s.receivers, s.wokenSenders, s.wokenReceivers)
    && (forall t :: t in s.wokenReceivers ==> t !in s.wokenSenders)
  }

  /** Nothing is lost, invented or reordered. */
  ghost predicate MailsOk(s: State) {
    RingOk(s) && s.sent == s.received + Contents(s)
  }

  /** While receivers wait, every mail in the box has a receiver already on its way, and while senders
      wait, every free place has a sender on its way. */
  predicate NoLostWakeup(s: State) {
    && (s.receivers != [] ==> s.entry <= |s.wokenReceivers|)
    && (s.senders != [] ==> Size(s) <= s.entry + |s.wokenSenders|)
  }

  ghost predicate Inv(s: State) {
    ThreadsOk(s) && MailsOk(s) && NoLostWakeup(s)
  }

  // ---------------------------------------------------------------- what the steps keep

  lemma PutMails(s: State, mail: int)
    requires MailsOk(s) && s.entry < Size(s)
    ensures MailsOk(Put(s, mail)) && Contents(Put(s, mail)) == Contents(s) + [mail]
  {
    var s' := Put(s, mail);
    assert Contents(s') == Contents(s) + [mail];
    assert s'.sent == s'.received + Contents(s');
  }

  lemma TakeOutMails(s: State)
    requires MailsOk(s) && s.entry > 0
    ensures MailsOk(TakeOut(s)) && Contents(s) == [s.pool[s.outAt]] + Contents(TakeOut(s))
  {
    var s' := TakeOut(s);
    assert Contents(s) == [s.pool[s.outAt]] + Contents(s');
    assert s'.sent == s'.received + Contents(s');
  }

  /** A thread that calls is not in a wait list, and is not a woken caller of the other kind. */
  predicate Free(s: State, t: int, other: set<int>) {
    t !in s.receivers && t !in s.senders && t !in other
  }

  lemma WakeFirst(w: seq<int>, v: seq<int>, x: set<int>, y: set<int>)
    requires w != [] && Disjoint(w, v, x, y) && Disjoint(v, w, y, x)
    ensures Disjoint(w[1..], v, x + {w[0]}, y) && Disjoint(v, w[1..], y, x + {w[0]})
    ensures w[0] !in y && |x + {w[0]}| == |x| + 1
  {
    assert w[0] in w;
  }

  lemma PutThreads(s: State, mail: int)
    requires ThreadsOk(s) && s.inAt < Size(s)
    ensures ThreadsOk(Put(s, mail))
    ensures s.receivers != [] ==> |Put(s, mail).wokenReceivers| == |s.wokenReceivers| + 1
  {
    if s.receivers != [] { WakeFirst(s.receivers, s.senders, s.wokenReceivers, s.wokenSenders); }
  }

  lemma TakeOutThreads(s: State)
    requires ThreadsOk(s) && s.outAt < Size(s) && s.entry > 0
    ensures ThreadsOk(TakeOut(s))
    ensures s.senders != [] ==> |TakeOut(s).wokenSenders| == |s.wokenSenders| + 1
  {
    if s.senders != [] { WakeFirst(s.senders, s.receivers, s.wokenSenders, s.wokenReceivers); }
  }

  /** What a caller that had been woken leaves behind. */
  lemma RunAgain(s: State, t: int)
    requires Inv(s) && Free(s, t, {})
    ensures var s1 := s.(wokenSenders := s.wokenSenders - {t});
      ThreadsOk(s1) && MailsOk(s1) && Contents(s1) == Contents(s) && |s1.wokenSenders| >= |s.wokenSenders| - 1
    ensures var s1 := s.(wokenReceivers := s.wokenReceivers - {t});
      ThreadsOk(s1) && MailsOk(s1) && Contents(s1) == Contents(s) && |s1.wokenReceivers| >= |s.wokenReceivers| - 1
  {
    RemoveOne(s.wokenSenders, t);
    RemoveOne(s.wokenReceivers, t);
    assert Contents(s.(wokenSenders := s.wokenSenders - {t})) == Contents(s);
    assert Contents(s.(wokenReceivers := s.wokenReceivers - {t})) == Contents(s);
  }

  lemma SendInv(flag: Flag, prio: map<int, nat>, s: State, t: int, mail: int, wait: bool)
    requires Inv(s) && Free(s, t, s.wokenReceivers)
    ensures Inv(Send(flag, prio, s, t, mail, wait).0) && Size(Send(flag, prio, s, t, mail, wait).0) == Size(s)
  {
    hide Inv, Contents, Joined;
    if s.entry != Size(s) {
      SendPuts(s, t, mail);
    } else {
      SendWaits(flag, prio, s, t);
    }
  }

  lemma SendPuts(s: State, t: int, mail: int)
    requires Inv(s) && Free(s, t, s.wokenReceivers) && s.entry != Size(s)
    ensures s.inAt < Size(s) && Inv(Put(s.(wokenSenders := s.wokenSenders - {t}), mail))
  {
    hide Contents;
    var s1 := s.(wokenSenders := s.wokenSenders - {t});
    RunAgain(s, t);
    PutMails(s1, mail);
    PutThreads(s1, mail);
    PutWakeups(s, s1, mail);
  }

  lemma SendWaits(flag: Flag, prio: map<int, nat>, s: State, t: int)
    requires Inv(s) && Free(s, t, s.wokenReceivers) && s.entry == Size(s)
    ensures var s1 := s.(wokenSenders := s.wokenSenders - {t});
      Inv(s1) && Inv(s1.(senders := Joined(flag, prio, s.senders, t)))
  {
    hide Contents, Joined;
    var s1 := s.(wokenSenders := s.wokenSenders - {t});
    RunAgain(s, t);
    JoinThreads(flag, prio, s1.senders, s1.receivers, s1.wokenSenders, s1.wokenReceivers, t);
    SameMails(s1, s1.(senders := Joined(flag, prio, s.senders, t)));
    hide Disjoint, MailsOk;
  }

  lemma JoinThreads(flag: Flag, prio: map<int, nat>, w: seq<int>, v: seq<int>, x: set<int>, y: set<int>, t: int)
    requires Disjoint(w, v, x, y) && Disjoint(v, w, y, x) && t !in w && t !in v && t !in x && t !in y
    ensures Disjoint(Joined(flag, prio, w, t), v, x, y) && Disjoint(v, Joined(flag, prio, w, t), y, x)
  {
    JoinedMembers(flag, prio, w, t);
    hide Joined;
  }

  lemma PutWakeups(s: State, s1: State, mail: int)
    requires NoLostWakeup(s) && ThreadsOk(s1) && s.inAt < Size(s)
    requires s1 == s.(wokenSenders := s1.wokenSenders) && |s1.wokenSenders| >= |s.wokenSenders| - 1
    ensures NoLostWakeup(Put(s1, mail))
  {
    PutThreads(s1, mail);
    hide ThreadsOk;
  }

  lemma TakeOutWakeups(s: State, s1: State)
    requires NoLostWakeup(s) && ThreadsOk(s1) && s.outAt < Size(s) && s.entry > 0
    requires s1 == s.(wokenReceivers := s1.wokenReceivers) && |s1.wokenReceivers| >= |s.wokenReceivers| - 1
    ensures NoLostWakeup(TakeOut(s1))
  {
    TakeOutThreads(s1);
    hide ThreadsOk;
  }

  lemma SameMails(s: State, s': State)
    requires MailsOk(s) && s'.pool == s.pool && s'.inAt == s.inAt && s'.outAt == s.outAt && s'.entry == s.entry
    requires s'.sent == s.sent && s'.received == s.received
    ensures MailsOk(s')
  {
    assert Contents(s') == Contents(s);
  }

  lemma RecvInv(flag: Flag, prio: map<int, nat>, s: State, t: int, wait: bool)
    requires Inv(s) && Free(s, t, s.wokenSenders)
    ensures Inv(Recv(flag, prio, s, t, wait).0)
  {
    hide Inv, Contents, Joined;
    if s.entry > 0 {
      RecvTakes(s, t);
    } else {
      RecvWaits(flag, prio, s, t);
    }
  }

  lemma RecvTakes(s: State, t: int)
    requires Inv(s) && Free(s, t, s.wokenSenders) && s.entry > 0
    ensures s.outAt < Size(s) && Inv(TakeOut(s.(wokenReceivers := s.wokenReceivers - {t})))
  {
    hide Contents;
    var s1 := s.(wokenReceivers := s.wokenReceivers - {t});
    RunAgain(s, t);
    TakeOutMails(s1);
    TakeOutThreads(s1);
    TakeOutWakeups(s, s1);
  }

  lemma RecvWaits(flag: Flag, prio: map<int, nat>, s: State, t: int)
    requires Inv(s) && Free(s, t, s.wokenSenders) && s.entry == 0
    ensures var s1 := s.(wokenReceivers := s.wokenReceivers - {t});
      Inv(s1) && Inv(s1.(receivers := Joined(flag, prio, s.receivers, t)))
  {
    hide Contents, Joined;
    var s1 := s.(wokenReceivers := s.wokenReceivers - {t});
    RunAgain(s, t);
    JoinThreads(flag, prio, s1.receivers, s1.senders, s1.wokenReceivers, s1.wokenSenders, t);
    SameMails(s1, s1.(receivers := Joined(flag, prio, s.receivers, t)));
    hide Disjoint, MailsOk;
  }

  lemma TimeoutInv(s: State, t: int)
    requires Inv(s)
    ensures Inv(Timeout(s, t))
  {
    WithoutMembers(s.receivers, t);
    WithoutMembers(s.senders, t);
    assert Contents(Timeout(s, t)) == Contents(s);
  }

  lemma ResetInv(s: State)
    requires Inv(s)
    ensures Inv(Reset(s)) && Contents(Reset(s)) == []
  {
  }

  // ---------------------------------------------------------------- runs

  /** One interrupt-free section; the priorities are those at that moment. */
  datatype Step =
    | SendStep(t: int, mail: int, wait: bool, prio: map<int, nat>)
    | RecvStep(t: int, wait: bool, prio: map<int, nat>)
    | TimeoutStep(t: int)
    | ResetStep

  /** A thread that sleeps in a wait list cannot call, and one that was woken tries again what it began. */
  predicate Allowed(s: State, x: Step) {
    match x
    case SendStep(t, _, _, _) => Free(s, t, s.wokenReceivers)
    case RecvStep(t, _, _) => Free(s, t, s.wokenSenders)
    case _ => true
  }

  ghost function Do(flag: Flag, s: State, x: Step): (s': State)
    requires Inv(s) && Allowed(s, x)
    ensures Inv(s') && Size(s') == Size(s)
  {
    hide ThreadsOk, MailsOk, NoLostWakeup;
    match x
    case SendStep(t, mail, wait, prio) => SendInv(flag, prio, s, t, mail, wait); Send(flag, prio, s, t, mail, wait).0
    case RecvStep(t, wait, prio) => RecvInv(flag, prio, s, t, wait); Recv(flag, prio, s, t, wait).0
    case TimeoutStep(t) => TimeoutInv(s, t); Timeout(s, t)
    case ResetStep => ResetInv(s); Reset(s)
  }

  ghost predicate AllAllowed(flag: Flag, s: State, run: seq<Step>)
    requires Inv(s)
    decreases |run|
  {
    run == [] || (Allowed(s, run[0]) && AllAllowed(flag, Do(flag, s, run[0]), run[1..]))
  }

  ghost function Run(flag: Flag, s: State, run: seq<Step>): (s': State)
    requires Inv(s) && AllAllowed(flag, s, run)
    ensures Inv(s') && Size(s') == Size(s)
    decreases |run|
  {
    if run == [] then s else Run(flag, Do(flag, s, run[0]), run[1..])
  }

  /** rt_mb_init over a buffer for |pool| mails */
  function Initial(pool: seq<int>): State {
    State(pool, 0, 0, 0, [], [], {}, {}, [], [])
  }

  lemma InitialInv(pool: seq<int>)
    ensures Inv(Initial(pool)) && Contents(Initial(pool)) == []
  {
  }

  /** In every interleaving of senders, receivers, timeouts and resets: the mails received since the last
      reset are the first of those sent, the rest is in the box, and no wakeup is lost. */
  lemma EveryRun(flag: Flag, pool: seq<int>, run: seq<Step>)
    requires Inv(Initial(pool)) && AllAllowed(flag, Initial(pool), run)
    ensures var s := Run(flag, Initial(pool), run);
      && s.received <= s.sent && s.sent[|s.received|..] == Contents(s) && |Contents(s)| == s.entry <= |pool|
      && (s.receivers != [] ==> s.entry <= |s.wokenReceivers|)
      && (s.senders != [] ==> |pool| - s.entry <= |s.wokenSenders|)
  {
    hide Run, AllAllowed;
  }

  /** A mail never lies in the box while receivers wait and none of them is on its way; and a box with
      places never has waiting threads of both kinds and nobody on the way. */
  lemma NoDeadlock(s: State)
    requires Inv(s)
    ensures s.receivers != [] && s.entry > 0 ==> s.wokenReceivers != {}
    ensures s.senders != [] && s.entry < Size(s) ==> s.wokenSenders != {}
    ensures s.receivers != [] && s.senders != [] && Size(s) > 0 ==> s.wokenReceivers != {} || s.wokenSenders != {}
  {
    hide ThreadsOk;
    assert |s.wokenReceivers| > 0 ==> s.wokenReceivers != {};
    assert |s.wokenSenders| > 0 ==> s.wokenSenders != {};
  }

  /** A receiver that gets through gets the oldest mail in the box; a sender's mail goes behind the others. */
  lemma FirstInFirstOut(flag: Flag, prio: map<int, nat>, s: State, t: int, mail: int, wait: bool)
    requires Inv(s)
    ensures s.entry > 0 ==>
      var (s', out) := Recv(flag, prio, s, t, wait);
      RingOk(s') && out == Done(Contents(s)[0]) && Contents(s') == Contents(s)[1..]
    ensures s.entry < Size(s) ==>
      var (s', out) := Send(flag, prio, s, t, mail, wait);
      RingOk(s') && out == Done(mail) && Contents(s') == Contents(s) + [mail]
  {
    var s1, s2 := s.(wokenReceivers := s.wokenReceivers - {t}), s.(wokenSenders := s.wokenSenders - {t});
    SameMails(s, s1);
    SameMails(s, s2);
    assert Contents(s1) == Contents(s) && Contents(s2) == Contents(s);
    if s.entry > 0 { TakeOutMails(s1); }
    if s.entry < Size(s) { PutMails(s2, mail); }
  }

  // ---------------------------------------------------------------- who waits and who is woken

  /** The first of the waiters w, if there is one, is on its way afterwards, and nobody else. */
  predicate FirstWoken(w: seq<int>, woken: set<int>, w': seq<int>, woken': set<int>) {
    if w == [] then w' == [] && woken' == woken else w == [w[0]] + w' && woken' == woken + {w[0]}
  }

  /** A sender gets through when there is room, and then wakes the first receiver.  Otherwise it joins the waiting
      senders when it may wait, and the mails stay as they are. */
  lemma SendMeans(flag: Flag, prio: map<int, nat>, s: State, t: int, mail: int, wait: bool)
    requires Inv(s) && Free(s, t, s.wokenReceivers)
    ensures var (s', out) := Send(flag, prio, s, t, mail, wait);
      && RingOk(s') && (out.Done? <==> s.entry < Size(s)) && (out == Blocked <==> s.entry == Size(s) && wait)
      && (out.Done? ==>
            && out.mail == mail && Contents(s') == Contents(s) + [mail] && s'.senders == s.senders
            && FirstWoken(s.receivers, s.wokenReceivers, s'.receivers, s'.wokenReceivers))
      && (!out.Done? ==>
            Contents(s') == Contents(s) && s'.receivers == s.receivers && s'.wokenReceivers == s.wokenReceivers)
      && (out == Blocked ==> Queued(flag, prio, s.senders, s'.senders, t) && t in s'.senders)
      && (out == GivenUp ==> s'.senders == s.senders) && s'.wokenSenders == s.wokenSenders - {t}
  {
    hide Contents, ThreadsOk, NoLostWakeup;
    SendInv(flag, prio, s, t, mail, wait);
    JoinedQueues(flag, prio, s.senders, t);
    FirstInFirstOut(flag, prio, s, t, mail, wait);
    if s.entry == Size(s) { SameContents(s, Send(flag, prio, s, t, mail, wait).0); }
    hide Joined;
    assert s.receivers != [] ==> s.receivers == [s.receivers[0]] + s.receivers[1..];
  }

  /** The same for a receiver, which gets the oldest mail and wakes the first sender. */
  lemma RecvMeans(flag: Flag, prio: map<int, nat>, s: State, t: int, wait: bool)
    requires Inv(s) && Free(s, t, s.wokenSenders)
    ensures var (s', out) := Recv(flag, prio, s, t, wait);
      && RingOk(s') && (out.Done? <==> s.entry > 0) && (out == Blocked <==> s.entry == 0 && wait)
      && (out.Done? ==>
            && [out.mail] + Contents(s') == Contents(s) && s'.receivers == s.receivers
            && FirstWoken(s.senders, s.wokenSenders, s'.senders, s'.wokenSenders))
      && (!out.Done? ==> Contents(s') == Contents(s) && s'.senders == s.senders && s'.wokenSenders == s.wokenSenders)
      && (out == Blocked ==> Queued(flag, prio, s.receivers, s'.receivers, t) && t in s'.receivers)
      && (out == GivenUp ==> s'.receivers == s.receivers) && s'.wokenReceivers == s.wokenReceivers - {t}
  {
    hide Contents, ThreadsOk, NoLostWakeup;
    RecvInv(flag, prio, s, t, wait);
    JoinedQueues(flag, prio, s.receivers, t);
    FirstInFirstOut(flag, prio, s, t, 0, wait);
    if s.entry == 0 { SameContents(s, Recv(flag, prio, s, t, wait).0); }
    hide Joined;
    if s.entry > 0 { assert Contents(s) == [Contents(s)[0]] + Contents(s)[1..]; }
    assert s.senders != [] ==> s.senders == [s.senders[0]] + s.senders[1..];
  }

  lemma SameContents(s: State, s': State)
    requires RingOk(s) && s'.pool == s.pool && s'.inAt == s.inAt && s'.outAt == s.outAt && s'.entry == s.entry
    ensures RingOk(s') && Contents(s') == Contents(s)
  {
  }

  /** A timeout takes just this thread out of its list and leaves the mails; a reset empties box and lists. */
  lemma OthersMean(s: State, t: int)
    requires Inv(s)
    ensures var s' := Timeout(s, t);
      && RingOk(s') && Contents(s') == Contents(s)
      && (if t in s.receivers then Left(s.receivers, s'.receivers, t) else s'.receivers == s.receivers)
      && (if t in s.senders then Left(s.senders, s'.senders, t) else s'.senders == s.senders)
    ensures var s' := Reset(s); RingOk(s') && Contents(s') == [] && s'.receivers == [] && s'.senders == []
  {
    hide ThreadsOk, NoLostWakeup;
    SameContents(s, Timeout(s, t));
    ResetInv(s);
    if t in s.receivers { WithoutLeft(s.receivers, t); }
    if t in s.senders { WithoutLeft(s.senders, t); }
  }

  predicate Waits(s: State, t: int) {
    t in s.receivers || t in s.senders
  }

  predicate OnItsWay(s: State, t: int) {
    t in s.wokenReceivers || t in s.wokenSenders
  }

  /** No timeout of t and no reset, and t is not woken. */
  ghost predicate Undisturbed(flag: Flag, s: State, run: seq<Step>, t: int)
    requires Inv(s) && AllAllowed(flag, s, run)
    decreases |run|
  {
    !OnItsWay(s, t) &&
    (run == [] ||
     (run[0] != TimeoutStep(t) && !run[0].ResetStep? && Undisturbed(flag, Do(flag, s, run[0]), run[1..], t)))
  }

  lemma StepWaits(flag: Flag, s: State, x: Step, t: int)
    requires Inv(s) && Allowed(s, x) && Waits(s, t) && x != TimeoutStep(t) && !x.ResetStep?
    ensures Waits(Do(flag, s, x), t) || OnItsWay(Do(flag, s, x), t)
  {
    hide MailsOk, NoLostWakeup, Joined, Without, Put, TakeOut;
    match x {
      case SendStep(u, mail, wait, prio) =>
        SendMeans(flag, prio, s, u, mail, wait);
        JoinedMembers(flag, prio, s.senders, u);
      case RecvStep(u, wait, prio) =>
        RecvMeans(flag, prio, s, u, wait);
        JoinedMembers(flag, prio, s.receivers, u);
      case TimeoutStep(u) =>
        WithoutMembers(s.receivers, u);
        WithoutMembers(s.senders, u);
      case ResetStep =>
    }
  }

  /** In every interleaving a thread that blocked is in a wait list until its time is over, it is woken or the
      mailbox is reset. */
  lemma {:induction false} StaysWaiting(flag: Flag, s: State, run: seq<Step>, t: int)
    requires Inv(s) && AllAllowed(flag, s, run) && Waits(s, t) && Undisturbed(flag, s, run, t)
    ensures Waits(Run(flag, s, run), t)
    decreases |run|
  {
    hide Inv, Do, Allowed, Waits, OnItsWay;
    if run != [] {
      StepWaits(flag, s, run[0], t);
      var s1 := Do(flag, s, run[0]);
      assert Undisturbed(flag, s1, run[1..], t);
      NotOnItsWay(flag, s1, run[1..], t);
      StaysWaiting(flag, s1, run[1..], t);
    }
  }

  lemma NotOnItsWay(flag: Flag, s: State, run: seq<Step>, t: int)
    requires Inv(s) && AllAllowed(flag, s, run) && Undisturbed(flag, s, run, t)
    ensures !OnItsWay(s, t)
  {
    hide Inv, Do, Allowed, AllAllowed;
  }
}

module Mailbox {
  import opened Ring
  import opened WaitList
  import opened MailboxSpec

  /** struct rt_mailbox; `wokenReceivers` to `received` are history. */
  class Mailbox {
    const flag: Flag
    const pool: array<int>
    var inAt: nat
    var outAt: nat
    var entry: nat
    var receivers: seq<int>
    var senders: seq<int>
    ghost var wokenReceivers: set<int>
    ghost var wokenSenders: set<int>
    ghost var sent: seq<int>
    ghost var received: seq<int>

    ghost function Abs(): State
      reads this, pool
    {
      State(pool[..], inAt, outAt, entry, receivers, senders, wokenReceivers, wokenSenders, sent, received)
    }

    ghost predicate Valid()
      reads this, pool
    {
      Inv(Abs())
    }

    /** rt_mb_init */
    constructor (flag: Flag, pool: array<int>)
      ensures this.flag == flag && this.pool == pool && Abs() == Initial(pool[..]) && Valid()
    {
      this.flag, this.pool := flag, pool;
      inAt, outAt, entry, receivers, senders := 0, 0, 0, [], [];
      wokenReceivers, wokenSenders, sent, received := {}, {}, [], [];
      new;
      InitialInv(pool[..]);
    }

    /** One round of rt_mb_send_wait */
    method SendWait(t: int, mail: int, wait: bool, prio: map<int, nat>) returns (out: Outcome)
      requires Valid() && Allowed(Abs(), SendStep(t, mail, wait, prio))
      modifies this, pool
      ensures (Abs(), out) == Send(flag, prio, old(Abs()), t, mail, wait) && Valid()
    {
      hide ThreadsOk, NoLostWakeup;
      ghost var s := Abs();
      SendInv(flag, prio, s, t, mail, wait);
      wokenSenders := wokenSenders - {t};
      if entry == pool.Length {
        if !wait {
          return GivenUp;
        }
        senders := ListSuspend(flag, prio, senders, t);
        return Blocked;
      }
      pool[inAt] := mail;
      sent := sent + [mail];
      inAt := inAt + 1;
      if inAt >= pool.Length {
        inAt := 0;
      }
      entry := entry + 1;
      if receivers != [] {
        wokenReceivers := wokenReceivers + {receivers[0]};
        receivers := receivers[1..];
      }
      out := Done(mail);
    }

    /** One round of rt_mb_recv */
    method Receive(t: int, wait: bool, prio: map<int, nat>) returns (out: Outcome)
      requires Valid() && Allowed(Abs(), RecvStep(t, wait, prio))
      modifies this
      ensures (Abs(), out) == Recv(flag, prio, old(Abs()), t, wait) && Valid()
    {
      hide ThreadsOk, NoLostWakeup;
      ghost var s := Abs();
      RecvInv(flag, prio, s, t, wait);
      wokenReceivers := wokenReceivers - {t};
      if entry == 0 {
        if !wait {
          return GivenUp;
        }
        receivers := ListSuspend(flag, prio, receivers, t);
        return Blocked;
      }
      var mail := pool[outAt];
      received := received + [mail];
      outAt := outAt + 1;
      if outAt >= pool.Length {
        outAt := 0;
      }
      entry := entry - 1;
      if senders != [] {
        wokenSenders := wokenSenders + {senders[0]};
        senders := senders[1..];
      }
      out := Done(mail);
    }

    /** rt_thread_timeout of a waiting thread */
    method TimeoutThread(t: int)
      requires Valid()
      modifies this`receivers, this`senders
      ensures Abs() == Timeout(old(Abs()), t) && Valid()
    {
      TimeoutInv(Abs(), t);
      if t in receivers {
        var i :| 0 <= i < |receivers| && receivers[i] == t;
        IndexUnique(receivers, i);
        receivers := RemoveAt(receivers, i);
      }
      if t in senders {
        var i :| 0 <= i < |senders| && senders[i] == t;
        IndexUnique(senders, i);
        senders := RemoveAt(senders, i);
      }
    }

    /** rt_mb_control with RT_IPC_CMD_RESET */
    method Control()
      requires Valid()
      modifies this
      ensures Abs() == Reset(old(Abs())) && Valid()
    {
      ResetInv(Abs());
      while receivers != []
        invariant unchanged(this`entry, this`inAt, this`outAt, this`senders)
        invariant wokenReceivers == old(wokenReceivers) && wokenSenders == old(wokenSenders)
      {
        receivers := receivers[1..];
      }
      while senders != []
        invariant unchanged(this`entry, this`inAt, this`outAt) && receivers == []
        invariant wokenReceivers == old(wokenReceivers) && wokenSenders == old(wokenSenders)
      {
        senders := senders[1..];
      }
      entry, inAt, outAt := 0, 0, 0;
      sent, received := [], [];
    }
  }
}
