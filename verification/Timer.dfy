/** The hard-timer list of src/timer.c driven by the tick of src/clock.c.

    `TimerSpec` is the reference: one list of running timers ordered by absolute deadline, with
    the order of starting as tie-break, on an unbounded clock.  `Timer` is the source: ticks
    modulo 2^32 and a skip list with any number of rows. */
module TimerSpec {
  import opened Arith
  import Ring

  const WORD := 0x1_0000_0000
  const HALF := 0x7fff_ffff // RT_TICK_MAX / 2

  datatype Setting = Setting(init: int, periodic: bool)

  /** `list` holds the running timers, `due` the absolute deadlines, `serial` numbers the starts, `armed`
      are the timers whose rt_timer_start has read the tick and not yet linked them, `late` those linked
      since the last tick with their deadline already reached, `log` records who fired when.  `lag` bounds
      how many ticks past its deadline a timer is linked. */
  datatype State = State(now: int, lag: nat, list: seq<int>, due: map<int, int>, serial: map<int, int>, starts: int,
                         settings: map<int, Setting>, armed: set<int>, late: set<int>, log: seq<(int, int)>)

  function Get(m: map<int, int>, t: int): int {
    if t in m then m[t] else 0
  }

  function Due(s: State, t: int): int { Get(s.due, t) }

  /** Earlier deadline, or the same deadline and started earlier. */
  predicate Before(s: State, t: int, u: int) {
    Due(s, t) < Due(s, u) || (Due(s, t) == Due(s, u) && Get(s.serial, t) < Get(s.serial, u))
  }

  ghost predicate Ordered(s: State, l: seq<int>) {
    forall i, j :: 0 <= i < j < |l| ==> Before(s, l[i], l[j])
  }

  /** A legal setting: at least one tick, and RT_ASSERT(timer->init_tick < RT_TICK_MAX / 2) with room for
      the lag. */
  predicate LegalSetting(x: Setting, lag: nat) {
    1 <= x.init && x.init + lag < HALF
  }

  /** The deadlines lie within half the range of ticks. */
  ghost predicate Timely(s: State, t: int) {
    s.now - s.lag <= Due(s, t) < s.now - s.lag + HALF && Get(s.serial, t) < s.starts && t in s.settings && t !in s.armed
  }

  ghost predicate ArmedOk(s: State, t: int) {
    t in s.settings && Due(s, t) < s.now - s.lag + HALF
  }

  ghost predicate Sound(s: State) {
    && Ordered(s, s.list) && s.lag < HALF
    && (forall t :: t in s.list ==> Timely(s, t))
    && (forall t :: t in s.armed ==> ArmedOk(s, t))
    && (forall t :: t in s.settings ==> LegalSetting(s.settings[t], s.lag))
  }

  ghost predicate Pending(s: State, t: int) {
    Due(s, t) > s.now - s.lag && (Due(s, t) <= s.now <==> t in s.late)
  }

  /** Between two ticks no running timer is due, those linked late aside. */
  ghost predicate Inv(s: State) {
    Sound(s) && (forall t :: t in s.list ==> Pending(s, t)) && forall t :: t in s.late ==> t in s.list
  }

  // ---------------------------------------------------------------- the operations

  /** How many timers of l, from the front, are due at d or before. */
  function Position(due: map<int, int>, l: seq<int>, d: int): (k: nat)
    ensures k <= |l|
  {
    if l == [] || Get(due, l[0]) > d then 0 else 1 + Position(due, l[1..], d)
  }

  /** rt_timer_stop, and the first section of rt_timer_start */
  ghost function Stop(s: State, t: int): State {
    s.(list := Ring.Without(s.list, t), late := s.late - {t})
  }

  /** Line 324 of rt_timer_start, between its sections: the deadline from the tick as it is now */
  function Arm(s: State, t: int): State
    requires t in s.settings
  {
    s.(due := s.due[t := s.now + s.settings[t].init], armed := s.armed + {t})
  }

  /** The second section of rt_timer_start: behind every timer with the same or an earlier deadline. */
  function Link(s: State, t: int): State {
    var k := Position(s.due, s.list, Due(s, t));
    s.(list := s.list[..k] + [t] + s.list[k..], serial := s.serial[t := s.starts], starts := s.starts + 1,
       armed := s.armed - {t}, late := if Due(s, t) <= s.now then s.late + {t} else s.late - {t})
  }

  /** rt_timer_start, not interrupted */
  ghost function Start(s: State, t: int): State
    requires t in s.settings
  {
    Link(Arm(Stop(s, t), t), t)
  }

  /** One firing of rt_timer_check: a periodic timer starts again, a one-shot timer is done. */
  ghost function Fire(s: State, t: int): State
    requires t in s.settings
  {
    var s' := s.(log := s.log + [(t, s.now)]);
    if s.settings[t].periodic then Start(s', t) else Stop(s', t)
  }

  ghost function FireAll(s: State, ts: seq<int>): (s': State)
    requires forall i :: 0 <= i < |ts| ==> ts[i] in s.settings
    ensures s'.settings == s.settings && s'.now == s.now && s'.lag == s.lag
    decreases |ts|
  {
    if ts == [] then s else FireAll(Fire(s, ts[0]), ts[1..])
  }

  ghost predicate Configured(s: State) {
    forall i :: 0 <= i < |s.list| ==> s.list[i] in s.settings
  }

  /** rt_timer_check: everything due by now fires, in list order. */
  ghost function Check(s: State): State
    requires Configured(s)
  {
    FireAll(s, s.list[..Position(s.due, s.list, s.now)])
  }

  /** One tick: ++rt_tick, then rt_timer_check. */
  ghost function Tick(s: State): State
    requires Configured(s)
  {
    Check(s.(now := s.now + 1)).(late := {})
  }

  // ---------------------------------------------------------------- lists

  lemma WithoutOrdered(s: State, l: seq<int>, t: int)
    requires Ordered(s, l)
    ensures Ring.Distinct(l) && Ordered(s, Ring.Without(l, t))
  {
    OrderedDistinct(s, l);
    var w := Ring.Without(l, t);
    if t in l {
      var k := Ring.Index(l, t);
      forall i, j | 0 <= i < j < |w| ensures Before(s, w[i], w[j]) {
        assert Before(s, l[if i < k then i else i + 1], l[if j < k then j else j + 1]);
      }
    }
  }

  lemma {:induction false} PositionOther(due: map<int, int>, due': map<int, int>, l: seq<int>, d: int)
    requires forall u :: u in l ==> Get(due', u) == Get(due, u)
    ensures Position(due', l, d) == Position(due, l, d)
  {
    if l != [] && Get(due, l[0]) <= d {
      assert forall u :: u in l[1..] ==> u in l;
      PositionOther(due, due', l[1..], d);
    }
  }

  /** In an ordered list the position splits early from late. */
  lemma {:induction false} PositionSplits(s: State, l: seq<int>, d: int)
    requires Ordered(s, l)
    ensures var k := Position(s.due, l, d);
      && (forall i :: 0 <= i < k ==> Due(s, l[i]) <= d)
      && (forall i :: k <= i < |l| ==> Due(s, l[i]) > d)
  {
    if l != [] && Due(s, l[0]) <= d {
      assert forall i :: 0 <= i < |l[1..]| ==> l[1..][i] == l[i + 1];
      PositionSplits(s, l[1..], d);
    } else if l != [] {
      forall i | 0 <= i < |l| ensures Due(s, l[i]) > d {
        if i > 0 { assert Before(s, l[0], l[i]); }
      }
    }
  }

  lemma PositionUnique(s: State, l: seq<int>, d: int, k: nat)
    requires Ordered(s, l) && k <= |l|
    requires forall i :: 0 <= i < k ==> Due(s, l[i]) <= d
    requires k < |l| ==> Due(s, l[k]) > d
    ensures Position(s.due, l, d) == k
  {
    PositionSplits(s, l, d);
    var p := Position(s.due, l, d);
    assert p < |l| ==> Due(s, l[p]) > d;
  }

  /** Linking keeps the list ordered: the newcomer goes behind every equal deadline. */
  lemma LinkSound(s: State, t: int)
    requires Sound(s) && t in s.armed && t !in s.list && Due(s, t) >= s.now - s.lag
    ensures Sound(Link(s, t))
    ensures forall u :: u in Link(s, t).list <==> u in s.list || u == t
    ensures Inv(s) && Due(s, t) > s.now - s.lag ==> Inv(Link(s, t))
  {
    hide Position, Ordered;
    var l, d, s' := s.list, Due(s, t), Link(s, t);
    var k := Position(s.due, l, d);
    StartPlace(s, t, l, d);
    InsertOrdered(s, s', t, l, k);
    Ring.InsertMembers(l, k, t);
    assert s'.list == Ring.InsertAt(l, k, t);
    assert ArmedOk(s, t);
    forall u | u in s'.list ensures Timely(s', u) {
      if u != t { assert Timely(s, u); }
    }
    forall u | u in s'.armed ensures ArmedOk(s', u) { assert ArmedOk(s, u); }
    if Inv(s) { forall u | u in s'.list && u != t ensures Pending(s', u) { assert Pending(s, u); } }
  }

  /** Reading the tick moves no other timer. */
  lemma ArmSound(s: State, t: int)
    requires Sound(s) && t in s.settings && t !in s.list
    ensures Sound(Arm(s, t)) && (Inv(s) ==> Inv(Arm(s, t)))
    ensures s.now - s.lag < Due(Arm(s, t), t) == s.now + s.settings[t].init
  {
    var s' := Arm(s, t);
    assert LegalSetting(s.settings[t], s.lag);
    forall u | u in s'.list ensures Timely(s', u) { assert Timely(s, u); }
    forall u | u in s'.armed ensures ArmedOk(s', u) { assert u != t ==> ArmedOk(s, u); }
    forall i, j | 0 <= i < j < |s.list| ensures Before(s', s.list[i], s.list[j]) {
      assert Before(s, s.list[i], s.list[j]) && s.list[i] in s.list && s.list[j] in s.list;
    }
    if Inv(s) { forall u | u in s'.list ensures Pending(s', u) { assert Pending(s, u); } }
  }

  lemma StartSound(s: State, t: int)
    requires Sound(s) && t in s.settings && t !in s.armed
    ensures Sound(Start(s, t)) && (Inv(s) ==> Inv(Start(s, t)))
    ensures forall u :: u in Start(s, t).list <==> u in s.list || u == t
    ensures forall u :: u != t ==> Due(Start(s, t), u) == Due(s, u)
    ensures Due(Start(s, t), t) == s.now + s.settings[t].init > s.now && Start(s, t).armed == s.armed
  {
    hide Ring.Without, Position, Sound, Inv;
    StopSound(s, t);
    SettingLegal(s, t);
    ArmSound(Stop(s, t), t);
    LinkSound(Arm(Stop(s, t), t), t);
    assert Start(s, t).armed == s.armed;
  }

  lemma SettingLegal(s: State, t: int)
    requires Sound(s) && t in s.settings
    ensures LegalSetting(s.settings[t], s.lag)
  {
  }

  lemma StartPlace(s: State, t: int, l: seq<int>, d: int)
    requires Ordered(s, l) && (forall u :: u in l ==> Timely(s, u))
    ensures var k := Position(s.due, l, d);
      && (forall i :: 0 <= i < k ==> Due(s, l[i]) <= d && Get(s.serial, l[i]) < s.starts)
      && (forall i :: k <= i < |l| ==> Due(s, l[i]) > d)
  {
    PositionSplits(s, l, d);
    forall i | 0 <= i < |l| ensures Get(s.serial, l[i]) < s.starts { assert l[i] in l; }
  }

  lemma InsertOrdered(s: State, s': State, t: int, l: seq<int>, k: nat)
    requires Ordered(s, l) && k <= |l| && t !in l
    requires forall u :: u != t ==> Due(s', u) == Due(s, u) && Get(s'.serial, u) == Get(s.serial, u)
    requires forall i :: 0 <= i < k ==> Due(s, l[i]) <= Due(s', t) && Get(s.serial, l[i]) < Get(s'.serial, t)
    requires forall i :: k <= i < |l| ==> Due(s, l[i]) > Due(s', t)
    ensures Ordered(s', l[..k] + [t] + l[k..])
  {
    var m := Ring.InsertAt(l, k, t);
    forall i, j | 0 <= i < j < |m| ensures Before(s', m[i], m[j]) {
      Ring.InsertAtIndex(l, k, t, i);
      Ring.InsertAtIndex(l, k, t, j);
      if i != k && j != k {
        assert Before(s, l[if i < k then i else i - 1], l[if j < k then j else j - 1]);
      }
    }
  }

  lemma StopSound(s: State, t: int)
    requires Sound(s)
    ensures Sound(Stop(s, t)) && (Inv(s) ==> Inv(Stop(s, t)))
    ensures forall u :: u in Stop(s, t).list <==> u in s.list && u != t
  {
    var s' := Stop(s, t);
    WithoutOrdered(s, s.list, t);
    Ring.WithoutMembers(s.list, t);
    assert Ordered(s', s'.list);
    forall u | u in s'.list ensures Timely(s', u) { assert Timely(s, u); }
    forall u | u in s'.armed ensures ArmedOk(s', u) { assert ArmedOk(s, u); }
    if Inv(s) { forall u | u in s'.list ensures Pending(s', u) { assert Pending(s, u); } }
  }

  /** Writing the log disturbs nothing. */
  lemma LogSound(s: State, log: seq<(int, int)>)
    requires Sound(s)
    ensures Sound(s.(log := log))
  {
    var s' := s.(log := log);
    assert Ordered(s', s'.list) by {
      forall i, j | 0 <= i < j < |s.list| ensures Before(s', s.list[i], s.list[j]) { assert Before(s, s.list[i], s.list[j]); }
    }
    forall u | u in s'.list ensures Timely(s', u) { assert Timely(s, u); }
    forall u | u in s'.armed ensures ArmedOk(s', u) { assert ArmedOk(s, u); }
  }

  lemma FireSound(s: State, t: int)
    requires Sound(s) && t in s.settings && t !in s.armed
    ensures Sound(Fire(s, t)) && Fire(s, t).armed == s.armed
    ensures forall u :: u in Fire(s, t).list && u != t ==> u in s.list
    ensures forall u :: u != t ==> Due(Fire(s, t), u) == Due(s, u)
    ensures forall u :: u in s.list && u != t ==> u in Fire(s, t).list
    ensures t in Fire(s, t).list <==> s.settings[t].periodic
    ensures t in Fire(s, t).list ==> Due(Fire(s, t), t) == s.now + s.settings[t].init > s.now
    ensures Fire(s, t).now == s.now && Fire(s, t).settings == s.settings && Fire(s, t).lag == s.lag
  {
    hide Sound, Ring.Without, Position, Inv;
    var s' := s.(log := s.log + [(t, s.now)]);
    LogSound(s, s'.log);
    if s.settings[t].periodic { StartSound(s', t); } else { StopSound(s', t); }
  }

  // ---------------------------------------------------------------- what a check does

  /** What is fired when timers ts go off at time now. */
  function Entries(ts: seq<int>, now: int): seq<(int, int)> {
    if ts == [] then [] else [(ts[0], now)] + Entries(ts[1..], now)
  }

  /** Firing a list of distinct timers logs them in that order and leaves nothing of them due. */
  lemma {:induction false} FireAllSound(s: State, ts: seq<int>)
    requires Sound(s)
    requires forall i :: 0 <= i < |ts| ==> ts[i] in s.settings && ts[i] !in s.armed
    requires Ring.Distinct(ts)
    ensures var s' := FireAll(s, ts);
      && Sound(s') && s'.log == s.log + Entries(ts, s.now) && s'.armed == s.armed
      && (forall u :: u !in ts ==> Due(s', u) == Due(s, u))
      && (forall u :: u in s.list && u !in ts ==> u in s'.list)
      && (forall u :: u in s'.list && u !in ts ==> u in s.list)
      && (forall u :: u in s'.list && u in ts ==> Due(s', u) == s.now + s.settings[u].init > s.now)
      && (forall u :: u in ts && u in s.settings ==> (u in s'.list <==> s.settings[u].periodic))
    decreases |ts|
  {
    hide Fire, Sound;
    if ts != [] {
      FireSound(s, ts[0]);
      var rest := ts[1..];
      assert ts == [ts[0]] + rest;
      assert forall i :: 0 <= i < |rest| ==> rest[i] == ts[i + 1];
      assert ts[0] !in rest;
      FireAllSound(Fire(s, ts[0]), rest);
      FireLog(s, ts[0]);
      assert s.log + [(ts[0], s.now)] + Entries(rest, s.now) == s.log + Entries(ts, s.now);
    } else {
      assert s.log + Entries(ts, s.now) == s.log;
    }
  }

  lemma FireLog(s: State, t: int)
    requires t in s.settings
    ensures Fire(s, t).log == s.log + [(t, s.now)]
  {
  }

  /** A tick fires exactly the timers whose deadline is the new time and those linked late, in list order,
      that is by deadline and then by start; the others keep their deadlines; periodic ones are running
      again, one period later. */
  lemma TickFires(s: State)
    requires Inv(s)
    ensures Configured(s)
    ensures var s', now := Tick(s), s.now + 1;
      var k := Position(s.due, s.list, now);
      && (forall i :: 0 <= i < |s.list| ==> (i < k <==> Due(s, s.list[i]) == now || s.list[i] in s.late))
      && s'.log == s.log + Entries(s.list[..k], now)
      && Inv(s') && s'.now == now && s'.settings == s.settings && s'.lag == s.lag && s'.late == {} && s'.armed == s.armed
      && (forall u :: u in s'.list <==> (u in s.list && (u in s.list[..k] && u in s.settings ==> s.settings[u].periodic)))
      && (forall u :: u in s'.list && u in s.settings ==>
            Due(s', u) == if u in s.list[..k] then now + s.settings[u].init else Due(s, u))
      && (forall u :: u in s.armed ==> Due(s', u) == Due(s, u))
  {
    hide Sound, FireAll, Entries, Position, Ring.Distinct;
    var s1, now := s.(now := s.now + 1), s.now + 1;
    var k := Position(s.due, s.list, now);
    TickSplit(s, k);
    var ts := s.list[..k];
    assert s.list == ts + s.list[k..];
    FireAllSound(s1, ts);
    var s2 := FireAll(s1, ts);
    assert Tick(s) == s2.(late := {});
    forall u | u in s2.list ensures Due(s2, u) > now { assert u in ts || u in s.list; }
    NothingLate(s2);
  }

  lemma NothingLate(s: State)
    requires Sound(s) && forall u :: u in s.list ==> Due(s, u) > s.now
    ensures Inv(s.(late := {}))
  {
    var s' := s.(late := {});
    forall i, j | 0 <= i < j < |s.list| ensures Before(s', s.list[i], s.list[j]) { assert Before(s, s.list[i], s.list[j]); }
    forall u | u in s'.list ensures Timely(s', u) && Pending(s', u) { assert Timely(s, u); }
    forall u | u in s'.armed ensures ArmedOk(s', u) { assert ArmedOk(s, u); }
  }

  lemma TickSplit(s: State, k: nat)
    requires Inv(s) && k == Position(s.due, s.list, s.now + 1)
    ensures k <= |s.list| && Configured(s) && Sound(s.(now := s.now + 1)) && Ring.Distinct(s.list[..k])
    ensures forall i :: 0 <= i < |s.list| ==> (i < k <==> Due(s, s.list[i]) == s.now + 1 || s.list[i] in s.late)
    ensures forall u :: u in s.list && u !in s.list[..k] ==> Due(s, u) > s.now + 1
    ensures forall i :: 0 <= i < k ==> s.list[i] in s.settings
    ensures forall u :: u in s.list ==> u in s.settings && u !in s.armed
  {
    hide Position, Ordered;
    PositionSplits(s, s.list, s.now + 1);
    NextSound(s);
    OrderedDistinct(s, s.list);
    forall i | 0 <= i < |s.list|
      ensures s.list[i] in s.settings && (Due(s, s.list[i]) <= s.now <==> s.list[i] in s.late)
    {
      assert s.list[i] in s.list && Pending(s, s.list[i]);
    }
    SplitLate(s, k);
  }

  lemma SplitLate(s: State, k: nat)
    requires k <= |s.list| && forall i :: k <= i < |s.list| ==> Due(s, s.list[i]) > s.now + 1
    ensures forall u :: u in s.list && u !in s.list[..k] ==> Due(s, u) > s.now + 1
  {
    forall u | u in s.list && u !in s.list[..k] ensures Due(s, u) > s.now + 1 {
      assert s.list == s.list[..k] + s.list[k..];
      var i :| 0 <= i < |s.list[k..]| && s.list[k..][i] == u;
      assert s.list[k + i] == u;
    }
  }

  lemma OrderedDistinct(s: State, l: seq<int>)
    requires Ordered(s, l)
    ensures Ring.Distinct(l)
  {
    forall i, j | 0 <= i < j < |l| ensures l[i] != l[j] { assert Before(s, l[i], l[j]); }
  }

  lemma NextSound(s: State)
    requires Inv(s)
    ensures Sound(s.(now := s.now + 1))
  {
    var s1 := s.(now := s.now + 1);
    forall i, j | 0 <= i < j < |s.list| ensures Before(s1, s.list[i], s.list[j]) { assert Before(s, s.list[i], s.list[j]); }
    forall u | u in s1.list ensures Timely(s1, u) { assert Timely(s, u) && Pending(s, u); }
    forall u | u in s1.armed ensures ArmedOk(s1, u) { assert ArmedOk(s, u); }
  }

  // ---------------------------------------------------------------- whole runs

  datatype Op =
    | StartOp(t: int)
    | StopOp(t: int)
    | ArmOp(t: int) | LinkOp(t: int) // rt_timer_start with interrupts between its sections; the first is a StopOp
    | SetTimeOp(t: int, init: int) | SetPeriodicOp(t: int, on: bool)
    | TickOp

  /** A timer is started by one thread at a time, and linked at most `lag` ticks after its deadline. */
  ghost predicate Legal(s: State, op: Op) {
    match op
    case TickOp => true
    case SetTimeOp(t, init) => t in s.settings && LegalSetting(s.settings[t].(init := init), s.lag)
    case StartOp(t) => t in s.settings && t !in s.armed
    case ArmOp(t) => t in s.settings && t !in s.armed && t !in s.list
    case LinkOp(t) => t in s.armed && Due(s, t) > s.now - s.lag
    case _ => op.t in s.settings
  }

  ghost function Step(s: State, op: Op): State
    requires Configured(s) && Legal(s, op)
  {
    match op
    case StartOp(t) => Start(s, t)
    case StopOp(t) => Stop(s, t)
    case ArmOp(t) => Arm(s, t)
    case LinkOp(t) => Link(s, t)
    case SetTimeOp(t, init) => s.(settings := s.settings[t := s.settings[t].(init := init)])
    case SetPeriodicOp(t, on) => s.(settings := s.settings[t := s.settings[t].(periodic := on)])
    case TickOp => Tick(s)
  }

  lemma StepInv(s: State, op: Op)
    requires Inv(s) && Configured(s) && Legal(s, op)
    ensures Inv(Step(s, op)) && Configured(Step(s, op))
  {
    hide Ordered, Tick, Inv, Sound, Start, Stop, Arm, Link;
    InvSound(s);
    match op {
      case StartOp(t) => StartSound(s, t);
      case StopOp(t) => StopSound(s, t);
      case ArmOp(t) => ArmSound(s, t);
      case LinkOp(t) => NotListed(s, t); LinkSound(s, t);
      case SetTimeOp(t, init) => SettingSound(s, t, s.settings[t].(init := init));
      case SetPeriodicOp(t, on) => SettingLegal(s, t); SettingSound(s, t, s.settings[t].(periodic := on));
      case TickOp => TickFires(s);
    }
    InvConfigured(Step(s, op));
  }

  lemma InvSound(s: State)
    requires Inv(s)
    ensures Sound(s)
  {
  }

  lemma NotListed(s: State, t: int)
    requires Sound(s) && t in s.armed
    ensures t !in s.list && t in s.settings && Due(s, t) < s.now - s.lag + HALF
  {
    assert t in s.list ==> Timely(s, t);
    assert ArmedOk(s, t);
  }

  lemma InvConfigured(s: State)
    requires Inv(s)
    ensures Configured(s)
  {
    forall i | 0 <= i < |s.list| ensures s.list[i] in s.settings { assert s.list[i] in s.list; assert Timely(s, s.list[i]); }
  }

  lemma SettingSound(s: State, t: int, x: Setting)
    requires Inv(s) && LegalSetting(x, s.lag)
    ensures Inv(s.(settings := s.settings[t := x]))
  {
    var s' := s.(settings := s.settings[t := x]);
    forall i, j | 0 <= i < j < |s.list| ensures Before(s', s.list[i], s.list[j]) { assert Before(s, s.list[i], s.list[j]); }
    forall u | u in s'.list ensures Timely(s', u) && Pending(s', u) { assert Timely(s, u) && Pending(s, u); }
    forall u | u in s'.armed ensures ArmedOk(s', u) { assert ArmedOk(s, u); }
  }

  ghost predicate Possible(s: State, ops: seq<Op>)
    decreases |ops|
  {
    Configured(s) && (ops == [] || (Legal(s, ops[0]) && Possible(Step(s, ops[0]), ops[1..])))
  }

  ghost function Run(s: State, ops: seq<Op>): State
    requires Possible(s, ops)
    decreases |ops|
  {
    if ops == [] then s else Run(Step(s, ops[0]), ops[1..])
  }

  lemma {:induction false} RunInv(s: State, ops: seq<Op>)
    requires Inv(s) && Possible(s, ops)
    ensures Inv(Run(s, ops))
    decreases |ops|
  {
    hide Inv, Step, Legal;
    if ops != [] {
      StepInv(s, ops[0]);
      RunInv(Step(s, ops[0]), ops[1..]);
    }
  }

  /** When t fired. */
  function Fires(log: seq<(int, int)>, t: int): seq<int> {
    if log == [] then [] else (if log[0].0 == t then [log[0].1] else []) + Fires(log[1..], t)
  }

  lemma FiresNone(t: int)
    ensures Fires([], t) == []
  {
  }

  lemma FiresFirst(log: seq<(int, int)>, t: int)
    requires log != []
    ensures Fires(log, t) == (if log[0].0 == t then [log[0].1] else []) + Fires(log[1..], t)
  {
  }

  lemma {:induction false} FiresConcat(a: seq<(int, int)>, b: seq<(int, int)>, t: int)
    ensures Fires(a + b, t) == Fires(a, t) + Fires(b, t)
  {
    hide Fires;
    if a == [] {
      assert a + b == b;
      FiresNone(t);
    } else {
      var first := if a[0].0 == t then [a[0].1] else [];
      assert (a + b)[1..] == a[1..] + b && (a + b)[0] == a[0];
      FiresConcat(a[1..], b, t);
      FiresFirst(a + b, t);
      FiresFirst(a, t);
      assert first + (Fires(a[1..], t) + Fires(b, t)) == first + Fires(a[1..], t) + Fires(b, t);
    }
  }

  lemma {:induction false} FiresEntries(ts: seq<int>, now: int, t: int)
    requires Ring.Distinct(ts)
    ensures Fires(Entries(ts, now), t) == if t in ts then [now] else []
  {
    if ts != [] {
      var rest := ts[1..];
      assert forall i :: 0 <= i < |rest| ==> rest[i] == ts[i + 1];
      FiresEntries(rest, now, t);
      assert Entries(ts, now)[1..] == Entries(rest, now);
      assert t in ts <==> t == ts[0] || t in rest;
      assert t == ts[0] ==> t !in rest;
    }
  }

  /** from + period, from + 2 period, ..., from + m period */
  function Multiples(from: int, period: int, m: nat): seq<int> {
    if m == 0 then [] else Multiples(from, period, m - 1) + [from + m * period]
  }

  /** The full periods in a stretch of time */
  function Periods(time: int, period: int): nat {
    if time < 0 || period <= 0 then 0 else Quotients(time, period)
  }

  function Quotients(time: nat, period: nat): nat
    requires period > 0
  {
    time / period
  }

  ghost predicate Untouched(ops: seq<Op>, t: int) {
    forall i :: 0 <= i < |ops| ==> ops[i].TickOp? || ops[i].t != t
  }

  /** When a running timer fires next: at its deadline, or at the next tick if it was linked late. */
  function Next(s: State, t: int): int {
    if Due(s, t) <= s.now then s.now + 1 else Due(s, t)
  }

  /** A periodic timer in its n-th period since `from`. */
  ghost predicate Ticking(s: State, t: int, from: int, period: int, n: nat, past: seq<int>) {
    && t in s.list && t in s.settings && s.settings[t] == Setting(period, true)
    && Next(s, t) == from + (n + 1) * period
    && from + n * period <= s.now
    && Fires(s.log, t) == past + Multiples(from, period, n)
  }

  /** A timer between the sections of its rt_timer_start. */
  ghost predicate Starting(s: State, t: int, d: int, x: Setting, past: seq<int>) {
    && t in s.armed && t in s.settings && s.settings[t] == x && Due(s, t) == d && Fires(s.log, t) == past
  }

  /** A step that is not aimed at t leaves t and its record alone. */
  lemma StepKeeps(s: State, op: Op, t: int)
    requires Inv(s) && Configured(s) && Legal(s, op) && !op.TickOp? && op.t != t
    ensures var s' := Step(s, op);
      && (t in s'.list <==> t in s.list) && (t in s'.armed <==> t in s.armed) && Due(s', t) == Due(s, t)
      && s'.now == s.now && s'.log == s.log && (t in s.settings ==> t in s'.settings && s'.settings[t] == s.settings[t])
  {
    hide Ordered, Sound, Position;
    match op {
      case StartOp(u) => StartSound(s, u);
      case StopOp(u) => StopSound(s, u);
      case ArmOp(u) =>
      case LinkOp(u) => NotListed(s, u); LinkSound(s, u);
      case SetTimeOp(u, init) =>
      case SetPeriodicOp(u, on) =>
    }
  }

  /** One step not aimed at t, or a tick: t stays in step with its period. */
  lemma TickingStep(s: State, op: Op, t: int, from: int, period: int, n: nat, past: seq<int>)
    requires Inv(s) && Configured(s) && Legal(s, op) && Ticking(s, t, from, period, n, past)
    requires op.TickOp? || op.t != t
    ensures exists n': nat :: Ticking(Step(s, op), t, from, period, n', past)
  {
    if op.TickOp? {
      hide Tick;
      TickStep(s);
      TickingTick(s, t, from, period, n, past);
    } else {
      hide Step, Inv, Legal;
      StepKeeps(s, op, t);
      assert Ticking(Step(s, op), t, from, period, n, past);
    }
  }

  /** Whether the tick is one at which t fires, and that it leaves its mark in the log exactly then. */
  lemma TickLogs(s: State, t: int)
    requires Inv(s)
    ensures Configured(s)
    ensures Fires(Tick(s).log, t) == Fires(s.log, t) + if t in s.list && Next(s, t) == s.now + 1 then [s.now + 1] else []
    ensures Tick(s).now == s.now + 1 && Tick(s).settings == s.settings && Tick(s).armed == s.armed
    ensures t in s.armed ==> Due(Tick(s), t) == Due(s, t)
    ensures t in s.list && t in s.settings && s.settings[t].periodic ==>
              (t in Tick(s).list
               && Due(Tick(s), t) == if Next(s, t) == s.now + 1 then s.now + 1 + s.settings[t].init else Due(s, t))
  {
    hide Ordered, Tick, Entries, Sound, Fires, Position;
    TickFires(s);
    var k, now := Position(s.due, s.list, s.now + 1), s.now + 1;
    TickSplit(s, k);
    FiresConcat(s.log, Entries(s.list[..k], now), t);
    FiresEntries(s.list[..k], now, t);
    FrontIs(s, k, t);
  }

  lemma FrontIs(s: State, k: nat, t: int)
    requires Inv(s) && k <= |s.list|
    requires forall i :: 0 <= i < |s.list| ==> (i < k <==> Due(s, s.list[i]) == s.now + 1 || s.list[i] in s.late)
    requires forall u :: u in s.list && u !in s.list[..k] ==> Due(s, u) > s.now + 1
    ensures t in s.list[..k] <==> t in s.list && Next(s, t) == s.now + 1
  {
    if t in s.list[..k] {
      var i :| 0 <= i < k && s.list[..k][i] == t;
      assert s.list[i] == t && s.list[i] in s.list && Pending(s, t);
    } else if t in s.list {
      assert Pending(s, t);
    }
  }

  lemma TickingTick(s: State, t: int, from: int, period: int, n: nat, past: seq<int>)
    requires Inv(s) && Ticking(s, t, from, period, n, past)
    ensures Configured(s) && exists n': nat :: Ticking(Tick(s), t, from, period, n', past)
  {
    hide Tick, Sound, Fires;
    TickLogs(s, t);
    var s' := Tick(s);
    assert LegalSetting(s.settings[t], s.lag) by { SettingLegal(s, t); }
    assert (n + 2) * period == (n + 1) * period + period;
    if Next(s, t) == s.now + 1 {
      assert past + Multiples(from, period, n) + [s.now + 1] == past + Multiples(from, period, n + 1);
      assert Ticking(s', t, from, period, n + 1, past);
    } else {
      assert past + Multiples(from, period, n) + [] == past + Multiples(from, period, n);
      assert Ticking(s', t, from, period, n, past);
    }
  }

  lemma {:induction false} TickingRun(s: State, ops: seq<Op>, t: int, from: int, period: int, n: nat, past: seq<int>) returns (m: nat)
    requires Inv(s) && Possible(s, ops) && Untouched(ops, t) && Ticking(s, t, from, period, n, past)
    ensures Inv(Run(s, ops)) && Ticking(Run(s, ops), t, from, period, m, past)
    decreases |ops|
  {
    hide Inv, Ticking, Step, Legal;
    if ops == [] {
      m := n;
    } else {
      StepInv(s, ops[0]);
      TickingStep(s, ops[0], t, from, period, n, past);
      var n': nat :| Ticking(Step(s, ops[0]), t, from, period, n', past);
      assert Untouched(ops[1..], t);
      m := TickingRun(Step(s, ops[0]), ops[1..], t, from, period, n', past);
    }
  }

  /** While a start is interrupted its deadline stays and the timer does not fire. */
  lemma {:induction false} StartingRun(s: State, ops: seq<Op>, t: int, d: int, x: Setting, past: seq<int>)
    requires Inv(s) && Possible(s, ops) && Untouched(ops, t) && Starting(s, t, d, x, past)
    ensures Inv(Run(s, ops)) && Starting(Run(s, ops), t, d, x, past) && Run(s, ops).now >= s.now
    decreases |ops|
  {
    hide Inv, Step, Legal, Fires;
    if ops != [] {
      var op := ops[0];
      StepInv(s, op);
      InvSound(s);
      NotListed(s, t);
      if op.TickOp? {
        hide Tick;
        TickStep(s);
        TickLogs(s, t);
        assert Fires(s.log, t) + [] == Fires(s.log, t);
      } else {
        StepKeeps(s, op, t);
      }
      assert Untouched(ops[1..], t);
      StartingRun(Step(s, op), ops[1..], t, d, x, past);
    }
  }

  lemma TickStep(s: State)
    requires Configured(s)
    ensures Legal(s, TickOp) && Step(s, TickOp) == Tick(s)
  {
  }

  /** A start of t that reads the tick in state s and links the timer in state `linked`, after the steps of
      `gap`, and what has become of it after the steps of `ops`. */
  ghost predicate Interrupted(s: State, t: int, gap: seq<Op>, linked: State, ops: seq<Op>, s': State) {
    && t in s.settings && Legal(s, ArmOp(t)) && Untouched(gap, t) && Untouched(ops, t)
    && Possible(Arm(s, t), gap) && linked == Run(Arm(s, t), gap)
    && Legal(linked, LinkOp(t)) && Possible(Link(linked, t), ops) && s' == Run(Link(linked, t), ops)
  }

  /** A periodic timer with period P whose start reads the tick at time T and links the timer at time L, with
      ticks and calls for other timers in between, fires at exactly T+P, T+2P, ... when L lies before T+P,
      and otherwise at exactly L+1, L+1+P, ...; whatever happens to other timers. */
  lemma PeriodicTimes(s: State, t: int, gap: seq<Op>, linked: State, ops: seq<Op>, s': State)
    requires t in s.settings && s.settings[t].periodic && Inv(s) && Interrupted(s, t, gap, linked, ops, s')
    ensures var period := s.settings[t].init;
      var from := if linked.now < s.now + period then s.now else linked.now + 1 - period;
      period > 0 && s'.now >= from
      && Fires(s'.log, t) == Fires(s.log, t) + Multiples(from, period, Periods(s'.now - from, period))
      && (from == s.now <==> linked.now < s.now + period)
  {
    hide Interrupted, Ticking, Fires, Multiples, Inv, Run, Link, Possible, Untouched, Periods;
    var x, past := s.settings[t], Fires(s.log, t);
    var from := if linked.now < s.now + x.init then s.now else linked.now + 1 - x.init;
    FirstPeriod(s, t, gap, linked, ops, s', from);
    var m := TickingRun(Link(linked, t), ops, t, from, x.init, 0, past);
    PeriodsPast(s', t, from, x.init, m, past);
  }

  lemma FirstPeriod(s: State, t: int, gap: seq<Op>, linked: State, ops: seq<Op>, s': State, from: int)
    requires t in s.settings && s.settings[t].periodic && Inv(s) && Interrupted(s, t, gap, linked, ops, s')
    requires from == if linked.now < s.now + s.settings[t].init then s.now else linked.now + 1 - s.settings[t].init
    ensures s.settings[t].init > 0 && Inv(Link(linked, t))
    ensures Ticking(Link(linked, t), t, from, s.settings[t].init, 0, Fires(s.log, t))
    ensures Possible(Link(linked, t), ops) && Untouched(ops, t) && s' == Run(Link(linked, t), ops)
  {
    var x, past := s.settings[t], Fires(s.log, t);
    hide Ordered, Sound, Fires, Multiples, Legal, Inv, Possible, Run, Link, Ticking;
    Armed(s, t);
    StartingRun(Arm(s, t), gap, t, s.now + x.init, x, past);
    Linked(linked, t, s.now, from, x, past);
  }

  lemma PeriodsPast(s: State, t: int, from: int, period: int, m: nat, past: seq<int>)
    requires Ticking(s, t, from, period, m, past) && period > 0
    ensures s.now >= from && Fires(s.log, t) == past + Multiples(from, period, Periods(s.now - from, period))
  {
    hide Fires, Multiples;
    NextIsLater(s, t);
    Quotient(s.now - from, m, period);
  }

  /** The shortest start that is late: with a period of one tick, started at tick 0 and interrupted by a
      tick, the timer does not fire at tick 1 but at tick 2. */
  lemma LateStart()
    ensures exists linked, s' ::
      Interrupted(State(0, 1, [], map[], map[], 0, map[7 := Setting(1, true)], {}, {}, []), 7, [TickOp], linked, [TickOp], s')
      && Fires(s'.log, 7) == [2]
  {
    var s := State(0, 1, [], map[], map[], 0, map[7 := Setting(1, true)], {}, {}, []);
    var armed := Arm(s, 7);
    var linked := armed.(now := 1);
    ArmSound(s, 7);
    assert Tick(armed) == linked;
    OneTick(armed);
    TickFires(armed);
    LinkSound(linked, 7);
    hide Tick, Link, Inv, Sound;
    OneTick(Link(linked, 7));
    var s' := Tick(Link(linked, 7));
    assert Untouched([TickOp], 7) && Interrupted(s, 7, [TickOp], linked, [TickOp], s');
    PeriodicTimes(s, 7, [TickOp], linked, [TickOp], s');
    TickNow(Link(linked, 7));
    OneMultiple();
  }

  lemma TickNow(s: State)
    requires Inv(s)
    ensures Configured(s) && Tick(s).now == s.now + 1
  {
    hide Tick;
    TickFires(s);
  }

  lemma OneMultiple()
    ensures Multiples(1, 1, 1) == [2]
  {
    assert Multiples(1, 1, 0) == [];
  }

  lemma OneTick(s: State)
    requires Inv(s)
    ensures Possible(s, [TickOp]) && Run(s, [TickOp]) == Tick(s)
  {
    hide Tick;
    TickFires(s);
    InvConfigured(Tick(s));
    TickStep(s);
    assert [TickOp][1..] == [];
    assert Possible(Tick(s), []) && Run(Tick(s), []) == Tick(s);
  }

  lemma Armed(s: State, t: int)
    requires Inv(s) && Legal(s, ArmOp(t))
    ensures Inv(Arm(s, t)) && Starting(Arm(s, t), t, s.now + s.settings[t].init, s.settings[t], Fires(s.log, t))
    ensures s.settings[t].init > 0
  {
    ArmSound(s, t);
  }

  lemma Linked(s: State, t: int, read: int, from: int, x: Setting, past: seq<int>)
    requires Inv(s) && Legal(s, LinkOp(t)) && x.periodic && read <= s.now && x.init > 0
    requires Starting(s, t, read + x.init, x, past)
    requires from == if s.now < read + x.init then read else s.now + 1 - x.init
    ensures Inv(Link(s, t)) && Ticking(Link(s, t), t, from, x.init, 0, past)
  {
    hide Sound, Inv, Position, Fires;
    InvSound(s);
    NotListed(s, t);
    LinkSound(s, t);
    assert past + Multiples(from, x.init, 0) == past;
  }

  lemma NextIsLater(s: State, t: int)
    ensures Next(s, t) > s.now
  {
  }

  lemma Quotient(x: int, m: nat, period: int)
    requires period > 0 && m * period <= x < (m + 1) * period
    ensures x >= 0 && x / period == m
  {
    MulLe(0, m, period);
    DivModUnique(x, period, m, x - m * period);
  }

  /** A start that is not interrupted is the three steps one behind the other. */
  lemma StartIsSteps(s: State, t: int)
    requires Inv(s) && Legal(s, StartOp(t))
    ensures Possible(s, [StopOp(t), ArmOp(t), LinkOp(t)]) && Run(s, [StopOp(t), ArmOp(t), LinkOp(t)]) == Start(s, t)
  {
    hide Sound, Inv, Start, Stop, Arm, Link, Position;
    InvSound(s);
    InvConfigured(s);
    StopSound(s, t);
    Stopped(s, t);
    var s1 := Stop(s, t);
    InvSound(s1);
    InvConfigured(s1);
    ArmSound(s1, t);
    Stopped(s, t);
    var s2 := Arm(s1, t);
    InvConfigured(s2);
    InvSound(s2);
    LinkSound(s2, t);
    var s3 := Link(s2, t);
    InvConfigured(s3);
    var ops := [StopOp(t), ArmOp(t), LinkOp(t)];
    assert ops[1..] == [ArmOp(t), LinkOp(t)] && ops[1..][1..] == [LinkOp(t)] && [LinkOp(t)][1..] == [];
    assert Possible(s3, []) && Possible(s2, [LinkOp(t)]) && Possible(s1, ops[1..]);
    assert Run(s2, [LinkOp(t)]) == Run(s3, []) == s3;
    assert Run(s1, ops[1..]) == Run(s2, [LinkOp(t)]);
  }

  lemma Stopped(s: State, t: int)
    requires t in s.settings
    ensures var s1 := Stop(s, t);
      && s1.now == s.now && s1.lag == s.lag && s1.settings == s.settings && s1.armed == s.armed
      && t in Arm(s1, t).armed && Arm(s1, t).now == s.now && Arm(s1, t).lag == s.lag && Arm(s1, t).list == s1.list
      && Start(s, t) == Link(Arm(s1, t), t)
  {
  }
}

/** The timers as the source keeps them. */
module Timer {
  import opened Arith
  import Ring
  import opened TimerSpec

  /** init_tick, the PERIODIC and ACTIVATED flags, timeout_tick */
  datatype Record = Record(init: int, periodic: bool, active: bool, timeout: int)

  /** Subtraction of 32-bit tick counts. */
  function Sub(a: int, b: int): int {
    (a - b) % WORD
  }

  /** Lines 359-363 see deadlines in the right order although ticks wrap: two deadlines less than
      half the range after now compare as their 32-bit images do. */
  lemma Compare(d: int, e: int, now: int)
    requires now <= d < now + HALF && now <= e < now + HALF
    ensures Sub(d % WORD, e % WORD) == 0 <==> d == e
    ensures 0 < Sub(d % WORD, e % WORD) < HALF <==> d > e
  {
    SubMod(d, e);
    if d < e { assert (d - e) % WORD == d - e + WORD; } else { assert (d - e) % WORD == d - e; }
  }

  lemma SubMod(d: int, e: int)
    ensures Sub(d % WORD, e % WORD) == (d - e) % WORD
  {
  }

  /** Line 516 tells due from not yet due, for deadlines behind and ahead. */
  lemma DueNow(d: int, now: int, lag: nat)
    requires lag < HALF && now - lag <= d < now - lag + HALF
    ensures Sub(now % WORD, d % WORD) < HALF <==> d <= now
  {
    SubMod(now, d);
    if now < d { assert (now - d) % WORD == now - d + WORD; } else { assert (now - d) % WORD == now - d; }
  }

  /** a is b with some elements left out. */
  predicate Subsequence(a: seq<int>, b: seq<int>) {
    if a == [] then true
    else if b == [] then false
    else if a[0] == b[0] then Subsequence(a[1..], b[1..])
    else Subsequence(a, b[1..])
  }

  /** Rows in the same strict order, one contained in the other: an ordered subsequence. */
  lemma {:induction false} OrderedSubsequence(s: State, a: seq<int>, b: seq<int>)
    requires Ordered(s, a) && Ordered(s, b) && forall t :: t in a ==> t in b
    ensures Subsequence(a, b)
    decreases |b|
  {
    if a != [] {
      assert a[0] in a && a[0] in b;
      OrderedTail(s, a);
      OrderedTail(s, b);
      if a[0] == b[0] {
        forall t | t in a[1..] ensures t in b[1..] {
          assert t in a && t != a[0];
          assert b == [b[0]] + b[1..];
        }
        OrderedSubsequence(s, a[1..], b[1..]);
      } else {
        forall t | t in a ensures t in b[1..] { NotFirst(s, a, b, t); }
        OrderedSubsequence(s, a, b[1..]);
      }
    }
  }

  lemma OrderedTail(s: State, l: seq<int>)
    requires Ordered(s, l) && l != []
    ensures Ordered(s, l[1..]) && l[0] !in l[1..]
  {
    var m := l[1..];
    forall i, j | 0 <= i < j < |m| ensures Before(s, m[i], m[j]) { assert Before(s, l[i + 1], l[j + 1]); }
    forall i | 0 <= i < |m| ensures m[i] != l[0] { assert Before(s, l[0], l[i + 1]); }
  }

  lemma NotFirst(s: State, a: seq<int>, b: seq<int>, t: int)
    requires Ordered(s, a) && Ordered(s, b) && a != [] && b != [] && t in a && t in b
    requires a[0] in b && a[0] != b[0]
    ensures t in b[1..]
  {
    var j :| 0 <= j < |b| && b[j] == a[0];
    assert Before(s, b[0], b[j]);
    var i :| 0 <= i < |a| && a[i] == t;
    assert i > 0 ==> Before(s, a[0], a[i]);
    assert b == [b[0]] + b[1..];
  }

  /** Position of x in l, or |l|: following a row_head pointer into the next row. */
  function PlaceOf(l: seq<int>, x: int): (k: nat)
    ensures k <= |l| && (x in l <==> k < |l|) && (k < |l| ==> l[k] == x)
  {
    if l == [] || l[0] == x then 0 else 1 + PlaceOf(l[1..], x)
  }

  /** Row r is in order and contained in the row below. */
  ghost predicate RowOk(s: State, rows: seq<seq<int>>, r: int)
    requires 0 <= r < |rows|
  {
    Ordered(s, rows[r]) && (r + 1 < |rows| ==> forall t :: t in rows[r] ==> t in rows[r + 1])
  }

  /** The record of timer t says what the reference says. */
  ghost predicate TimerOk(s: State, x: Record, t: int) {
    && t in s.settings && s.settings[t] == Setting(x.init, x.periodic)
    && (t in s.list || t in s.armed ==> x.timeout == Due(s, t) % WORD)
  }

  ghost predicate InWindow(s: State, d: int) {
    s.now - s.lag <= d < s.now - s.lag + HALF
  }

  /** heads are the search positions of deadline d in all rows. */
  ghost predicate HeadsAt(s: State, rows: seq<seq<int>>, heads: seq<nat>, d: int) {
    |heads| == |rows| && forall q :: 0 <= q < |rows| ==> heads[q] == Position(s.due, rows[q], d) <= |rows[q]|
  }

  ghost predicate Absent(rows: seq<seq<int>>, t: int) {
    forall q :: 0 <= q < |rows| ==> t !in rows[q]
  }

  ghost predicate Earlier(s: State, rows: seq<seq<int>>) {
    forall q, u :: 0 <= q < |rows| && u in rows[q] ==> Get(s.serial, u) < s.starts
  }

  ghost predicate RowsOk(s: State, rows: seq<seq<int>>) {
    forall r :: 0 <= r < |rows| ==> RowOk(s, rows, r)
  }

  /** t went into the h lowest rows, at the search positions. */
  ghost predicate Entered(rows: seq<seq<int>>, rows': seq<seq<int>>, heads: seq<nat>, t: int, h: nat) {
    && |rows| == |rows'| == |heads| && 1 <= h <= |rows| && (forall q :: 0 <= q < |rows| ==> heads[q] <= |rows[q]|)
    && forall q :: 0 <= q < |rows| ==>
         rows'[q] == if q >= |rows| - h then rows[q][..heads[q]] + [t] + rows[q][heads[q]..] else rows[q]
  }

  class TimerList {
    const levels: nat
    /** RT_TIMER_SKIP_LIST_MASK, 1 or 3 */
    const mask: nat
    var rows: seq<seq<int>>
    var timers: map<int, Record>
    var rtTick: int
    var randomNr: int
    ghost var abs: State
    /** Timers whose rt_timer_stop has found the flag set and has not cleared it yet */
    ghost var stopping: set<int>

    /** The skip list represents the reference list, timer flags aside. */
    ghost predicate Linked()
      reads this
    {
      && levels >= 1 && (mask == 1 || mask == 3)
      && |rows| == levels && rows[levels - 1] == abs.list && Sound(abs)
      && RowsOk(abs, rows)
      && timers.Keys == abs.settings.Keys && (forall t :: t in timers ==> TimerOk(abs, timers[t], t))
      && rtTick == abs.now % WORD
    }

    /** The flag tells the running timers, those being stopped aside. */
    ghost predicate Flags()
      reads this
    {
      forall t :: t in timers ==> (t in abs.list ==> timers[t].active) && (timers[t].active ==> t in abs.list || t in stopping)
    }

    ghost predicate Valid()
      reads this
    {
      Linked() && Flags() && Inv(abs)
    }

    /** Timers with the given settings, none running. */
    constructor (levels: nat, mask: nat, settings: map<int, Setting>, ghost lag: nat)
      requires levels >= 1 && (mask == 1 || mask == 3) && lag < HALF
      requires forall t :: t in settings ==> LegalSetting(settings[t], lag)
      ensures Valid() && this.levels == levels && abs == State(0, lag, [], map[], map[], 0, settings, {}, {}, []) && stopping == {}
    {
      this.levels, this.mask := levels, mask;
      rows := seq(levels, i => []);
      timers := map t | t in settings :: Record(settings[t].init, settings[t].periodic, false, 0);
      rtTick, randomNr := 0, 0;
      abs, stopping := State(0, lag, [], map[], map[], 0, settings, {}, {}, []), {};
    }

    /** Each row is an ordered subsequence of the row below. */
    lemma RowsNested(r: int)
      requires Linked() && 0 <= r && r + 1 < levels
      ensures Subsequence(rows[r], rows[r + 1])
    {
      assert RowOk(abs, rows, r) && RowOk(abs, rows, r + 1);
      OrderedSubsequence(abs, rows[r], rows[r + 1]);
    }

    /** _rt_timer_remove */
    method Remove(t: int)
      requires Linked()
      modifies this`rows, this`abs
      ensures Linked()
      ensures abs == TimerSpec.Stop(old(abs), t)
      ensures Absent(rows, t)
    {
      hide Ordered, Sound;
      ghost var s := abs;
      StopSound(s, t);
      for i := 0 to levels
        invariant |rows| == levels
        invariant forall r :: 0 <= r < i ==> rows[r] == Ring.Without(old(rows)[r], t)
        invariant forall r :: i <= r < levels ==> rows[r] == old(rows)[r]
      {
        assert RowOk(s, old(rows), i);
        WithoutOrdered(s, rows[i], t);
        var k := PlaceOf(rows[i], t);
        if k < |rows[i]| {
          Ring.IndexUnique(rows[i], k);
          rows := rows[i := Ring.RemoveAt(rows[i], k)];
        }
      }
      abs := TimerSpec.Stop(s, t);
      forall r | 0 <= r < levels ensures RowOk(abs, rows, r) && t !in rows[r] {
        assert RowOk(s, old(rows), r);
        WithoutOrdered(s, old(rows)[r], t);
        Ring.WithoutMembers(old(rows)[r], t);
        if r + 1 < levels {
          assert RowOk(s, old(rows), r + 1);
          WithoutOrdered(s, old(rows)[r + 1], t);
          Ring.WithoutMembers(old(rows)[r + 1], t);
        }
        SameOrder(s, abs, rows[r]);
      }
      forall u | u in timers ensures TimerOk(abs, timers[u], u) { assert TimerOk(s, old(timers)[u], u); }
    }

    lemma SameOrder(s: State, s': State, l: seq<int>)
      requires Ordered(s, l) && forall u :: u in l ==> Due(s', u) == Due(s, u) && Get(s'.serial, u) == Get(s.serial, u)
      ensures Ordered(s', l)
    {
      forall i, j | 0 <= i < j < |l| ensures Before(s', l[i], l[j]) { assert Before(s, l[i], l[j]); }
    }

    /** Lines 345-367: walk row r from `from` to the first timer due after `tick`. */
    method Walk(r: nat, from: nat, tick: int, ghost d: int) returns (pos: nat)
      requires Linked() && r < levels && InWindow(abs, d) && tick == d % WORD
      requires from <= Position(abs.due, rows[r], d)
      ensures pos == Position(abs.due, rows[r], d)
    {
      hide Sound;
      assert RowOk(abs, rows, r);
      var row := rows[r];
      ghost var k := Position(abs.due, row, d);
      PositionSplits(abs, row, d);
      pos := from;
      while pos < |row|
        invariant from <= pos <= k
      {
        var t := row[pos];
        RowTimer(r, pos);
        Compare(Due(abs, t), d, abs.now - abs.lag);
        if Sub(timers[t].timeout, tick) == 0 {
          pos := pos + 1;
          continue;
        } else if Sub(timers[t].timeout, tick) < HALF {
          break;
        }
        pos := pos + 1;
      }
    }

    /** A timer found in any row is running. */
    lemma RowTimer(r: nat, i: nat)
      requires Linked() && r < levels && i < |rows[r]|
      ensures var t := rows[r][i];
        && t in abs.list && t in timers && timers[t].timeout == Due(abs, t) % WORD
        && InWindow(abs, Due(abs, t)) && abs.lag < HALF
    {
      var t := rows[r][i];
      assert t in rows[r];
      InBottom(r, t);
      assert Timely(abs, t) && TimerOk(abs, timers[t], t);
    }

    /** Whoever is in some row was started before. */
    lemma RowSerials()
      requires Linked()
      ensures Earlier(abs, rows)
    {
      forall q, u | 0 <= q < levels && u in rows[q] ensures Get(abs.serial, u) < abs.starts {
        InBottom(q, u);
        assert Timely(abs, u);
      }
    }

    lemma {:induction false} InBottom(r: nat, t: int)
      requires Linked() && r < levels && t in rows[r]
      ensures t in abs.list
      decreases levels - r
    {
      if r + 1 < levels {
        assert RowOk(abs, rows, r);
        InBottom(r + 1, t);
      }
    }

    /** Lines 342-370: one search position per row. */
    method Search(tick: int, ghost d: int) returns (heads: seq<nat>)
      requires Linked() && InWindow(abs, d) && tick == d % WORD
      ensures HeadsAt(abs, rows, heads, d)
    {
      hide Sound, Ordered;
      heads := [];
      var from: nat := 0;
      for r := 0 to levels
        invariant |heads| == r
        invariant forall q :: 0 <= q < r ==> heads[q] == Position(abs.due, rows[q], d)
        invariant r < levels ==> from <= Position(abs.due, rows[r], d)
      {
        var pos := Walk(r, from, tick, d);
        heads := heads + [pos];
        if r + 1 < levels {
          from := if pos == 0 then 0 else PlaceOf(rows[r + 1], rows[r][pos - 1]) + 1;
          if pos > 0 { Descend(r, pos, d); }
        }
      }
    }

    /** The row below has the timer in front of the search position, and it is not late there either. */
    lemma Descend(r: nat, pos: nat, d: int)
      requires Linked() && r + 1 < levels && 0 < pos == Position(abs.due, rows[r], d)
      ensures PlaceOf(rows[r + 1], rows[r][pos - 1]) + 1 <= Position(abs.due, rows[r + 1], d)
    {
      var t := rows[r][pos - 1];
      assert RowOk(abs, rows, r) && RowOk(abs, rows, r + 1) && t in rows[r];
      PositionSplits(abs, rows[r], d);
      PositionSplits(abs, rows[r + 1], d);
      var i := PlaceOf(rows[r + 1], t);
      assert rows[r + 1][i] == t;
    }

    /** Lines 376-391: the bottom row, and as many rows above as the counter has zero digits.
        h is the number of rows the timer enters. */
    method Insert(t: int, heads: seq<nat>) returns (ghost h: nat)
      requires levels >= 1 && |rows| == levels && |heads| == levels
      requires forall q :: 0 <= q < levels ==> heads[q] <= |rows[q]|
      modifies this`rows, this`randomNr
      ensures Entered(old(rows), rows, heads, t, h)
    {
      randomNr := (randomNr + 1) % WORD;
      var tst := randomNr;
      var b := levels - 1;
      rows := rows[b := rows[b][..heads[b]] + [t] + rows[b][heads[b]..]];
      h := 1;
      var lvl := 2;
      while lvl <= levels
        invariant 2 <= lvl == h + 1 <= levels + 1
        invariant Entered(old(rows), rows, heads, t, h)
      {
        if tst % (mask + 1) != 0 {
          break;
        }
        var r := levels - lvl;
        rows := rows[r := rows[r][..heads[r]] + [t] + rows[r][heads[r]..]];
        // shifting out the bits of a 1-bit or 2-bit mask
        tst := tst / (mask + 1);
        lvl := lvl + 1;
        h := h + 1;
      }
    }

    /** rt_timer_start, not interrupted: whatever rows the timer enters, the list underneath is the
        reference list after a stable insertion. */
    method Start(t: int)
      requires Linked() && t in timers && t !in abs.armed
      modifies this
      ensures Linked() && (old(Flags()) ==> Flags()) && (old(Valid()) ==> Valid())
      ensures abs == TimerSpec.Start(old(abs), t)
      ensures stopping == old(stopping)
      ensures timers == old(timers)[t := timers[t]] && timers[t].active
    {
      hide Sound, Ordered, Position, RowsOk, TimerOk, Inv;
      ghost var s := abs;
      TimerIn(t);
      StartSound(s, t);
      BeginStart(t);
      ReadTick(t);
      LinkTimer(t);
    }

    lemma TimerIn(t: int)
      requires Linked() && t in timers
      ensures t in abs.settings && Sound(abs)
    {
    }

    /** Lines 310-315: out of all rows, flag cleared. */
    method BeginStart(t: int)
      requires Linked() && t in timers
      modifies this`rows, this`timers, this`abs
      ensures Linked() && (old(Flags()) ==> Flags()) && (old(Valid()) ==> Valid())
      ensures abs == TimerSpec.Stop(old(abs), t) && t !in abs.list
      ensures timers == old(timers)[t := old(timers)[t].(active := false)]
    {
      hide Sound, Ordered, RowsOk, Inv;
      StopSound(abs, t);
      Remove(t);
      timers := timers[t := timers[t].(active := false)];
    }

    /** Line 324: the new deadline */
    method ReadTick(t: int)
      requires Linked() && t in timers && t !in abs.list
      modifies this`timers, this`abs
      ensures Linked() && (old(Flags()) ==> Flags()) && (old(Valid()) ==> Valid())
      ensures abs == Arm(old(abs), t) && Due(abs, t) > abs.now - abs.lag
      ensures timers == old(timers)[t := timers[t]] && timers[t].active == old(timers)[t].active
    {
      hide Sound, Ordered, Position, Inv;
      ghost var s := abs;
      TimerIn(t);
      assert TimerOk(s, timers[t], t);
      ArmSound(s, t);
      Absentees(t);
      timers := timers[t := timers[t].(timeout := (rtTick + timers[t].init) % WORD)];
      abs := Arm(s, t);
      assert (rtTick + timers[t].init) % WORD == (s.now + s.settings[t].init) % WORD;
      forall u | u in timers ensures TimerOk(abs, timers[u], u) { assert TimerOk(s, old(timers)[u], u); }
      forall r | 0 <= r < levels ensures RowOk(abs, rows, r) { assert RowOk(s, rows, r); SameOrder(s, abs, rows[r]); }
    }

    /** A timer that is not in the bottom row is in none. */
    lemma Absentees(t: int)
      requires Linked() && t !in abs.list
      ensures Absent(rows, t)
    {
      forall r | 0 <= r < levels ensures t !in rows[r] {
        if t in rows[r] { InBottom(r, t); }
      }
    }

    /** Lines 327-396: into the rows again, however many ticks later */
    method LinkTimer(t: int)
      requires Linked() && t in abs.armed && Due(abs, t) >= abs.now - abs.lag
      modifies this
      ensures Linked() && (old(Flags()) ==> Flags())
      ensures old(Valid()) && old(Due(abs, t) > abs.now - abs.lag) ==> Valid()
      ensures abs == Link(old(abs), t)
      ensures stopping == old(stopping)
      ensures t in old(timers) && timers == old(timers)[t := old(timers)[t].(active := true)]
    {
      hide Sound, Ordered, Position, RowsOk, TimerOk, Entered, HeadsAt, Absent, Earlier, Inv;
      ghost var s, d := abs, Due(abs, t);
      NotListed(s, t);
      LinkSound(s, t);
      ArmedTimer(t);
      Absentees(t);
      var heads := Search(timers[t].timeout, d);
      HeadsFit(d, heads);
      RowSerials();
      ghost var rows1 := rows;
      ghost var h := Insert(t, heads);
      timers := timers[t := timers[t].(active := true)];
      abs := Link(s, t);
      InsertedRows(s, rows1, t, d, h, heads, abs, rows);
      BottomRow(s, rows1, rows, heads, t, d, h);
      LinkedTimers(s, t, old(timers), timers);
    }

    lemma ArmedTimer(t: int)
      requires Linked() && t in abs.armed && t in abs.settings
      ensures t in timers && timers[t].timeout == Due(abs, t) % WORD
    {
      assert TimerOk(abs, timers[t], t);
    }

    lemma LinkedTimers(s: State, t: int, m: map<int, Record>, m': map<int, Record>)
      requires t in s.armed && t in m && m' == m[t := m[t].(active := true)] && forall u :: u in m ==> TimerOk(s, m[u], u)
      ensures forall u :: u in m' ==> TimerOk(Link(s, t), m'[u], u)
    {
      Ring.InsertMembers(s.list, Position(s.due, s.list, Due(s, t)), t);
      assert Link(s, t).list == Ring.InsertAt(s.list, Position(s.due, s.list, Due(s, t)), t);
      forall u | u in m' ensures TimerOk(Link(s, t), m'[u], u) { assert TimerOk(s, m[u], u); }
    }

    lemma HeadsFit(d: int, heads: seq<nat>)
      requires Linked() && HeadsAt(abs, rows, heads, d)
      ensures |heads| == levels && forall q :: 0 <= q < levels ==> heads[q] <= |rows[q]|
    {
    }

    /** The bottom row is always entered. */
    lemma BottomRow(s: State, rows1: seq<seq<int>>, rows': seq<seq<int>>, heads: seq<nat>, t: int, d: int, h: nat)
      requires Entered(rows1, rows', heads, t, h) && HeadsAt(s, rows1, heads, d) && |rows1| == levels >= 1
      ensures |rows'| == levels
      ensures var l := rows1[levels - 1]; var k := Position(s.due, l, d);
        rows'[levels - 1] == l[..k] + [t] + l[k..]
    {
    }

    /** RT_TIMER_CTRL_SET_TIME */
    method SetTime(t: int, init: int)
      requires Valid() && t in timers && LegalSetting(abs.settings[t].(init := init), abs.lag)
      modifies this`timers, this`abs
      ensures Valid()
      ensures abs == old(abs).(settings := old(abs).settings[t := old(abs).settings[t].(init := init)])
    {
      hide Sound, Ordered, Inv;
      TimerIn(t);
      assert TimerOk(abs, timers[t], t);
      SettingKeeps(t, abs.settings[t].(init := init));
      timers := timers[t := timers[t].(init := init)];
      abs := abs.(settings := abs.settings[t := abs.settings[t].(init := init)]);
    }

    /** RT_TIMER_CTRL_SET_PERIODIC and RT_TIMER_CTRL_SET_ONESHOT */
    method SetPeriodic(t: int, on: bool)
      requires Valid() && t in timers
      modifies this`timers, this`abs
      ensures Valid()
      ensures abs == old(abs).(settings := old(abs).settings[t := old(abs).settings[t].(periodic := on)])
    {
      hide Sound, Ordered, Inv;
      TimerIn(t);
      SettingLegal(abs, t);
      assert TimerOk(abs, timers[t], t);
      SettingKeeps(t, abs.settings[t].(periodic := on));
      timers := timers[t := timers[t].(periodic := on)];
      abs := abs.(settings := abs.settings[t := abs.settings[t].(periodic := on)]);
    }

    lemma SettingKeeps(t: int, x: Setting)
      requires Valid() && t in timers && LegalSetting(x, abs.lag)
      ensures var s := abs.(settings := abs.settings[t := x]);
        && Inv(s) && Sound(s) && RowsOk(s, rows)
        && forall u :: u in timers && u != t ==> TimerOk(s, timers[u], u)
    {
      var s := abs.(settings := abs.settings[t := x]);
      SettingSound(abs, t, x);
      forall r | 0 <= r < |rows| ensures RowOk(s, rows, r) { assert RowOk(abs, rows, r); SameOrder(abs, s, rows[r]); }
      forall u | u in timers && u != t ensures TimerOk(s, timers[u], u) { assert TimerOk(abs, timers[u], u); }
    }

    lemma InsertedRows(s: State, rows: seq<seq<int>>, t: int, d: int, h: nat, heads: seq<nat>, s': State, rows': seq<seq<int>>)
      requires RowsOk(s, rows) && Absent(rows, t) && HeadsAt(s, rows, heads, d) && Earlier(s, rows)
      requires Entered(rows, rows', heads, t, h)
      requires (forall u :: u != t ==> Due(s', u) == Due(s, u)) && Due(s', t) == d && s'.serial == s.serial[t := s.starts]
      ensures RowsOk(s', rows')
    {
      forall r | 0 <= r < |rows| ensures RowOk(s', rows', r) { InsertedRow(s, rows, t, d, h, heads, s', rows', r); }
    }

    /** A row after the insertion. */
    lemma InsertedRow(s: State, rows: seq<seq<int>>, t: int, d: int, h: nat, heads: seq<nat>,
                      s': State, rows': seq<seq<int>>, r: int)
      requires RowsOk(s, rows) && Absent(rows, t) && HeadsAt(s, rows, heads, d) && Earlier(s, rows)
      requires Entered(rows, rows', heads, t, h) && 0 <= r < |rows|
      requires (forall u :: u != t ==> Due(s', u) == Due(s, u)) && Due(s', t) == d && s'.serial == s.serial[t := s.starts]
      ensures RowOk(s', rows', r)
    {
      hide Ordered, Position;
      assert RowOk(s, rows, r);
      var row := rows[r];
      if r >= |rows| - h {
        PositionSplits(s, row, d);
        InsertOrdered(s, s', t, row, heads[r]);
      } else {
        SameOrder(s, s', row);
      }
      Ring.InsertMembers(row, heads[r], t);
      assert rows'[r] == (if r >= |rows| - h then Ring.InsertAt(row, heads[r], t) else row);
      if r + 1 < |rows| {
        Ring.InsertMembers(rows[r + 1], heads[r + 1], t);
        assert r + 1 >= |rows| - h ==> rows'[r + 1] == Ring.InsertAt(rows[r + 1], heads[r + 1], t);
      }
    }

    /** Lines 430-431 of rt_timer_stop: the flag, tested with interrupts enabled */
    method TestActive(t: int) returns (ok: bool)
      requires Valid() && t in timers
      modifies this`stopping
      ensures Valid() && stopping == if ok then old(stopping) + {t} else old(stopping)
      ensures ok == timers[t].active && (t !in old(stopping) ==> ok == (t in abs.list))
    {
      hide Sound, Ordered, RowsOk, Inv;
      ok := timers[t].active;
      if ok {
        stopping := stopping + {t};
      }
    }

    /** Lines 436-441, however many ticks later: out of all rows, if it has not gone off meanwhile */
    method StopSection(t: int)
      requires Valid() && t in timers && (t in stopping || t !in abs.list)
      modifies this`rows, this`abs
      ensures Valid()
      ensures abs == TimerSpec.Stop(old(abs), t) && t !in abs.list
    {
      hide Sound, Ordered, RowsOk, Inv;
      StopSound(abs, t);
      Remove(t);
    }

    /** Line 444, with interrupts enabled again: the flags still tell the running timers exactly when nobody
        has started the timer meanwhile. */
    method EndStop(t: int)
      requires Valid() && t in timers
      modifies this`timers, this`stopping
      ensures Linked() && Inv(abs) && (Flags() <==> t !in abs.list)
      ensures stopping == old(stopping) - {t}
      ensures timers == old(timers)[t := old(timers)[t].(active := false)]
    {
      hide Sound, Ordered, RowsOk, Inv;
      assert TimerOk(abs, timers[t], t);
      timers := timers[t := timers[t].(active := false)];
      stopping := stopping - {t};
    }

    /** rt_timer_stop, not interrupted; the result is false for -RT_ERROR. */
    method Stop(t: int) returns (ok: bool)
      requires Valid() && t in timers && t !in stopping
      modifies this
      ensures Valid() && stopping == old(stopping)
      ensures abs == TimerSpec.Stop(old(abs), t) && ok == (t in old(abs).list)
    {
      hide Sound, Ordered, RowsOk;
      ok := TestActive(t);
      if !ok {
        StopNothing(t);
        return;
      }
      StopSection(t);
      EndStop(t);
    }

    lemma StopNothing(t: int)
      requires Valid() && t !in abs.list
      ensures TimerSpec.Stop(abs, t) == abs
    {
    }

    /** rt_timer_list_next_timeout: the tick of the earliest deadline, RT_TICK_MAX when nothing runs. */
    method NextTimeout() returns (tick: int)
      requires Valid()
      ensures abs.list == [] ==> tick == WORD - 1
      ensures abs.list != [] ==> tick == Due(abs, abs.list[0]) % WORD
      ensures forall t :: t in abs.list ==> Due(abs, abs.list[0]) <= Due(abs, t)
    {
      forall t | t in abs.list ensures Due(abs, abs.list[0]) <= Due(abs, t) {
        var i :| 0 <= i < |abs.list| && abs.list[i] == t;
        assert i > 0 ==> Before(abs, abs.list[0], abs.list[i]);
      }
      if rows[levels - 1] == [] {
        return WORD - 1;
      }
      RowTimer(levels - 1, 0);
      tick := timers[rows[levels - 1][0]].timeout;
    }

    /** Lines 520-543: take the first timer out, call its function, restart it or leave it stopped. */
    method FireFirst(t: int)
      requires Linked() && Flags() && t in abs.list
      modifies this
      ensures Linked() && Flags()
      ensures abs == Fire(old(abs), t)
      ensures stopping == old(stopping)
    {
      hide Sound, Ordered, RowsOk, TimerSpec.Start;
      ghost var s := abs;
      InList(t);
      Remove(t);
      StopSound(s, t);
      LogKeeps(t);
      abs := abs.(log := abs.log + [(t, abs.now)]);
      assert TimerOk(s, old(timers)[t], t);
      if timers[t].periodic && timers[t].active {
        timers := timers[t := timers[t].(active := false)];
        ghost var s1 := abs;
        Start(t);
        RestartLog(s, t);
        StartSound(s1, t);
      } else {
        timers := timers[t := timers[t].(active := false)];
      }
    }

    lemma InList(t: int)
      requires Linked() && t in abs.list
      ensures t in timers && t in abs.settings && t !in abs.armed
    {
      assert Timely(abs, t);
    }

    /** Writing the log disturbs nothing. */
    lemma LogKeeps(t: int)
      requires Linked()
      ensures var s := abs.(log := abs.log + [(t, abs.now)]);
        Sound(s) && RowsOk(s, rows) && forall u :: u in timers ==> TimerOk(s, timers[u], u)
    {
      var s := abs.(log := abs.log + [(t, abs.now)]);
      LogSound(abs, s.log);
      forall r | 0 <= r < |rows| ensures RowOk(s, rows, r) { assert RowOk(abs, rows, r); SameOrder(abs, s, rows[r]); }
      forall u | u in timers ensures TimerOk(s, timers[u], u) { assert TimerOk(abs, timers[u], u); }
    }

    lemma RestartLog(s: State, t: int)
      requires Sound(s) && t in s.settings && s.settings[t].periodic
      ensures var s1 := TimerSpec.Stop(s, t);
        TimerSpec.Start(s1.(log := s1.log + [(t, s1.now)]), t) == Fire(s, t)
    {
      StopTwice(s, t);
      var s1 := TimerSpec.Stop(s, t);
      var s2, s3 := s1.(log := s1.log + [(t, s1.now)]), s.(log := s.log + [(t, s.now)]);
      LogSound(s, s3.log);
      StopTwice(s3, t);
      assert TimerSpec.Stop(s2, t) == TimerSpec.Stop(s3, t);
    }

    lemma StopTwice(s: State, t: int)
      requires Sound(s)
      ensures TimerSpec.Stop(TimerSpec.Stop(s, t), t) == TimerSpec.Stop(s, t)
    {
      StopSound(s, t);
    }

    /** rt_timer_check: the loop ends, and it fires exactly what the reference fires. */
    method Check()
      requires Linked() && Flags() && Configured(abs)
      modifies this
      ensures Linked() && Flags()
      ensures abs == TimerSpec.Check(old(abs))
      ensures stopping == old(stopping)
    {
      hide Sound, Ordered, RowsOk, Position, TimerOk, Fire;
      ghost var rest := abs.list[..Position(abs.due, abs.list, abs.now)];
      while rows[levels - 1] != []
        invariant Linked() && Flags() && stopping == old(stopping)
        invariant forall i :: 0 <= i < |rest| ==> rest[i] in abs.settings
        invariant rest == abs.list[..Position(abs.due, abs.list, abs.now)]
        invariant FireAll(abs, rest) == TimerSpec.Check(old(abs))
        decreases |rest|
      {
        var t := rows[levels - 1][0];
        RowTimer(levels - 1, 0);
        DueNow(Due(abs, t), abs.now, abs.lag);
        FirstDue(abs);
        if Sub(rtTick, timers[t].timeout) < HALF {
          FirePrefix(abs);
          assert rest[0] == t;
          FireFirst(t);
          rest := rest[1..];
        } else {
          assert rest == [];
          break;
        }
      }
    }

    lemma FirstDue(s: State)
      requires Sound(s) && s.list != []
      ensures Due(s, s.list[0]) <= s.now <==> Position(s.due, s.list, s.now) > 0
    {
      assert s.list[0] in s.list && Timely(s, s.list[0]);
    }

    /** Firing the first due timer leaves the others in front: a restarted one goes behind them. */
    lemma FirePrefix(s: State)
      requires Sound(s) && s.list != [] && Due(s, s.list[0]) <= s.now
      ensures var k, t := Position(s.due, s.list, s.now), s.list[0];
        && k > 0 && t in s.settings
        && var s' := Fire(s, t);
        && s'.now == s.now && s'.settings == s.settings
        && Position(s'.due, s'.list, s.now) == k - 1 && s'.list[..k - 1] == s.list[..k][1..]
    {
      hide Ordered, Position, Ring.Without, Fire;
      assert s.list[0] in s.list && Timely(s, s.list[0]);
      var t, k, s' := s.list[0], Position(s.due, s.list, s.now), Fire(s, s.list[0]);
      FirstDue(s);
      FireSound(s, t);
      FireList(s, k);
      FrontDues(s, k, s');
      PositionUnique(s', s'.list, s.now, k - 1);
    }

    /** The front of the list after the firing, and who comes behind it. */
    lemma FireList(s: State, k: nat)
      requires Sound(s) && s.list != [] && k == Position(s.due, s.list, s.now) > 0 && s.list[0] in s.settings
      ensures var s', t := Fire(s, s.list[0]), s.list[0];
        && k - 1 <= |s'.list| && s'.list[..k - 1] == s.list[..k][1..]
        && t !in s.list[1..]
        && (k - 1 < |s'.list| ==> s'.list[k - 1] == t || (k < |s.list| && s'.list[k - 1] == s.list[k]))
    {
      hide Position, Ordered, Ring.Without;
      var t, l := s.list[0], s.list[1..];
      assert LegalSetting(s.settings[t], s.lag);
      OrderedTail(s, s.list);
      OrderedDistinct(s, s.list);
      Ring.WithoutFirst(s.list);
      var d := s.now + s.settings[t].init;
      var j := Position(s.due, l, d);
      LaterPosition(s, d);
      PositionOther(s.due, s.due[t := d], l, d);
      if s.settings[t].periodic {
        var m := l[..j] + [t] + l[j..];
        assert Fire(s, t).list == m;
        assert m[..k - 1] == l[..k - 1];
      }
    }

    /** A deadline behind now comes behind everything due now. */
    lemma LaterPosition(s: State, d: int)
      requires Ordered(s, s.list) && s.list != [] && d > s.now
      ensures Position(s.due, s.list, s.now) - 1 <= Position(s.due, s.list[1..], d)
    {
      hide Position;
      OrderedTail(s, s.list);
      PositionSplits(s, s.list, s.now);
      PositionSplits(s, s.list[1..], d);
      var j := Position(s.due, s.list[1..], d);
      assert j < |s.list[1..]| ==> s.list[1..][j] == s.list[j + 1];
    }

    lemma FrontDues(s: State, k: nat, s': State)
      requires Sound(s) && s.list != [] && k == Position(s.due, s.list, s.now) > 0 && k - 1 <= |s'.list|
      requires s'.list[..k - 1] == s.list[..k][1..] && s.list[0] !in s.list[1..]
      requires k - 1 < |s'.list| ==> s'.list[k - 1] == s.list[0] || (k < |s.list| && s'.list[k - 1] == s.list[k])
      requires forall u :: u in s'.list && u != s.list[0] ==> Due(s', u) == Due(s, u)
      requires s.list[0] in s'.list ==> Due(s', s.list[0]) > s.now
      ensures forall i :: 0 <= i < k - 1 ==> Due(s', s'.list[i]) <= s.now
      ensures k - 1 < |s'.list| ==> Due(s', s'.list[k - 1]) > s.now
    {
      hide Position;
      PositionSplits(s, s.list, s.now);
      forall i | 0 <= i < k - 1 ensures Due(s', s'.list[i]) <= s.now {
        assert s'.list[i] == s'.list[..k - 1][i] == s.list[i + 1] == s.list[1..][i];
        assert s'.list[i] in s'.list && s.list[1..][i] in s.list[1..];
      }
      if k - 1 < |s'.list| {
        assert s'.list[k - 1] in s'.list;
        if s'.list[k - 1] != s.list[0] { assert s.list[k] == s.list[1..][k - 1]; }
      }
    }

    /** One tick (src/clock.c:72-98 without the time slice): count, then check. */
    method Tick()
      requires Valid()
      modifies this
      ensures Valid()
      ensures Configured(old(abs)) && abs == TimerSpec.Tick(old(abs))
      ensures stopping == old(stopping)
    {
      hide Sound, Ordered, RowsOk, Position, TimerSpec.Check, Configured;
      ghost var s := abs;
      TickKeeps(s);
      NowKeeps();
      rtTick := (rtTick + 1) % WORD;
      abs := abs.(now := abs.now + 1);
      Check();
      LateKeeps();
      abs := abs.(late := {});
    }

    lemma TickKeeps(s: State)
      requires Inv(s)
      ensures Configured(s) && Inv(TimerSpec.Tick(s))
    {
      TickFires(s);
    }

    /** Who was late is history. */
    lemma LateKeeps()
      requires Linked()
      ensures var s := abs.(late := {}); Sound(s) && RowsOk(s, rows) && forall u :: u in timers ==> TimerOk(s, timers[u], u)
    {
      var s := abs.(late := {});
      SameOrder(abs, s, s.list);
      forall u | u in s.list ensures Timely(s, u) { assert Timely(abs, u); }
      forall u | u in s.armed ensures ArmedOk(s, u) { assert ArmedOk(abs, u); }
      forall r | 0 <= r < |rows| ensures RowOk(s, rows, r) { assert RowOk(abs, rows, r); SameOrder(abs, s, rows[r]); }
      forall u | u in timers ensures TimerOk(s, timers[u], u) { assert TimerOk(abs, timers[u], u); }
    }

    /** Advancing the clock by one keeps the rows. */
    lemma NowKeeps()
      requires Linked() && Inv(abs)
      ensures var s := abs.(now := abs.now + 1);
        Sound(s) && Configured(s) && RowsOk(s, rows) && forall u :: u in timers ==> TimerOk(s, timers[u], u)
    {
      var s := abs.(now := abs.now + 1);
      NextSound(abs);
      InvConfigured(abs);
      forall r | 0 <= r < |rows| ensures RowOk(s, rows, r) { assert RowOk(abs, rows, r); SameOrder(abs, s, rows[r]); }
      forall u | u in timers ensures TimerOk(s, timers[u], u) { assert TimerOk(abs, timers[u], u); }
    }
  }
}