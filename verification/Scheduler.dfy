/** The single-core scheduler of src/scheduler.c and the thread states of src/thread.c.

    `SchedulerSpec` gives every call as a function on the scheduler's variables and proves what the
    calls keep; `Scheduler` holds the variables in an object and updates them as the source does. */
module SchedulerSpec {
  import opened Arith
  import opened Bits
  import opened Ring

  const WORD := 0x1_0000_0000
  const NOBODY := -1 // RT_NULL

  datatype Stat = Init | Ready | Suspended | Running | Closed

  datatype Thread = Thread(stat: Stat, initPrio: nat, prio: nat, number: nat, numberMask: nat, highMask: nat,
                           initTick: nat, remaining: nat)

  /** RT_THREAD_PRIORITY_MAX; above 32 levels the ready bits are kept in two levels. */
  datatype Config = Config(levels: nat)

  predicate Legal(c: Config) {
    1 <= c.levels <= 256
  }

  predicate Wide(c: Config) {
    c.levels > 32
  }

  /** `queues` is rt_thread_priority_table, `group` rt_thread_ready_priority_group, `table`
      rt_thread_ready_table and `lock` rt_scheduler_lock_nest. */
  datatype State = State(threads: map<int, Thread>, queues: seq<seq<int>>, group: nat, table: seq<nat>,
                         current: int, lock: nat)

  // ---------------------------------------------------------------- the invariant

  predicate ThreadSized(c: Config, th: Thread) {
    th.prio < c.levels && th.initPrio < c.levels && th.number < 32
  }

  ghost predicate Sized(c: Config, s: State) {
    && Legal(c) && NOBODY !in s.threads
    && |s.queues| == c.levels && |s.table| == 32
    && (forall t :: t in s.threads ==> ThreadSized(c, s.threads[t]))
  }

  /** The masks of a started thread belong to its priority. */
  predicate Masked(c: Config, th: Thread) {
    if Wide(c) then th.number == th.prio / 8 && th.numberMask == Shl(th.prio / 8) && th.highMask == Shl(th.prio % 8)
    else th.numberMask == Shl(th.prio)
  }

  predicate Started(th: Thread) {
    th.stat != Init && th.stat != Closed
  }

  predicate Filled(queues: seq<seq<int>>, p: nat) {
    p < |queues| && queues[p] != []
  }

  predicate FilledAt(queues: seq<seq<int>>, j: nat, k: nat) {
    Filled(queues, 8 * j + k)
  }

  /** A byte of the ready table has the bits of its eight queues. */
  ghost predicate ByteOk(queues: seq<seq<int>>, b: nat, j: nat) {
    b < 256 && forall k: nat :: k < 8 ==> (Bit(b, k) <==> FilledAt(queues, j, k))
  }

  predicate ByteUsed(table: seq<nat>, j: nat) {
    j < |table| && table[j] != 0
  }

  ghost predicate TableOk(queues: seq<seq<int>>, table: seq<nat>) {
    forall j: nat :: j < |table| ==> ByteOk(queues, table[j], j)
  }

  ghost predicate GroupOk(c: Config, queues: seq<seq<int>>, group: nat, table: seq<nat>) {
    && group < Shl(32)
    && forall k: nat :: Bit(group, k) <==> if Wide(c) then ByteUsed(table, k) else Filled(queues, k)
  }

  /** A bit is set exactly when its queue is not empty. */
  ghost predicate BitsOk(c: Config, queues: seq<seq<int>>, group: nat, table: seq<nat>) {
    GroupOk(c, queues, group, table) && (Wide(c) ==> TableOk(queues, table))
  }

  ghost predicate Entry(s: State, out: int, p: nat, t: int) {
    t != out && t in s.threads && s.threads[t].stat == Ready && s.threads[t].prio == p
  }

  ghost predicate QueueOk(s: State, out: int, p: nat)
    requires p < |s.queues|
  {
    Distinct(s.queues[p]) && forall t :: t in s.queues[p] ==> Entry(s, out, p, t)
  }

  /** A ready thread is in the queue of its priority, and a started one has its masks. */
  ghost predicate ThreadOk(c: Config, s: State, t: int)
    requires Sized(c, s) && t in s.threads
  {
    && (s.threads[t].stat == Ready ==> t in s.queues[s.threads[t].prio])
    && (Started(s.threads[t]) ==> Masked(c, s.threads[t]))
  }

  /** Queues, bits and states agree, for every thread except `out`, which is in no queue. */
  ghost predicate Core(c: Config, s: State, out: int) {
    && Sized(c, s)
    && (forall p: nat :: p < |s.queues| ==> QueueOk(s, out, p))
    && (forall t :: t in s.threads && t != out ==> ThreadOk(c, s, t))
    && BitsOk(c, s.queues, s.group, s.table)
  }

  /** Only the current thread runs; it is neither queued nor waiting to be started. */
  ghost predicate CurrentOk(s: State) {
    && (s.current != NOBODY ==> s.current in s.threads && !s.threads[s.current].stat.Ready?
                                && !s.threads[s.current].stat.Init?)
    && (forall t :: t in s.threads && s.threads[t].stat == Running ==> t == s.current)
  }

  ghost predicate Valid(c: Config, s: State) {
    Core(c, s, NOBODY) && CurrentOk(s)
  }

  // ---------------------------------------------------------------- the calls

  function SetThread(s: State, t: int, th: Thread): State {
    s.(threads := s.threads[t := th])
  }

  /** current_priority with number, number_mask and high_mask */
  function WithPriority(c: Config, th: Thread, p: nat): Thread {
    if Wide(c) then th.(prio := p, number := p / 8, numberMask := Shl(p / 8), highMask := Shl(p % 8))
    else th.(prio := p, numberMask := Shl(p))
  }

  /** rt_schedule_insert_thread */
  ghost function Insert(c: Config, s: State, t: int): State
    requires Sized(c, s) && t in s.threads
  {
    var th := s.threads[t];
    if t == s.current then SetThread(s, t, th.(stat := Running)) else
    s.(threads := s.threads[t := th.(stat := Ready)],
       queues := s.queues[th.prio := s.queues[th.prio] + [t]],
       table := if Wide(c) then s.table[th.number := Or(s.table[th.number], th.highMask)] else s.table,
       group := Or(s.group, th.numberMask))
  }

  /** rt_schedule_remove_thread */
  ghost function Remove(c: Config, s: State, t: int): State
    requires Sized(c, s) && t in s.threads
  {
    var th := s.threads[t];
    var q := Without(s.queues[th.prio], t);
    var s1 := s.(queues := s.queues[th.prio := q]);
    if q != [] then s1
    else if Wide(c) then
      var b := AndNot(s.table[th.number], th.highMask);
      s1.(table := s.table[th.number := b], group := if b == 0 then AndNot(s.group, th.numberMask) else s.group)
    else s1.(group := AndNot(s.group, th.numberMask))
  }

  /** The most urgent level with a ready thread. */
  ghost predicate IsTop(queues: seq<seq<int>>, p: nat) {
    Filled(queues, p) && forall j: nat :: j < p ==> !Filled(queues, j)
  }

  /** The level read off the bits. */
  function TopLevel(c: Config, queues: seq<seq<int>>, group: nat, table: seq<nat>): (p: nat)
    requires |table| == 32 && BitsOk(c, queues, group, table) && group != 0
    ensures IsTop(queues, p)
  {
    hide Bit, Ffs, Shl, TableOk, GroupOk;
    LookUp(c, queues, group, table);
    if Wide(c) then
      var number := Ffs(group) - 1;
      8 * number + Ffs(table[number]) - 1
    else Ffs(group) - 1
  }

  lemma LookUp(c: Config, queues: seq<seq<int>>, group: nat, table: seq<nat>)
    requires |table| == 32 && BitsOk(c, queues, group, table) && group != 0
    ensures 1 <= Ffs(group) <= 32 && group < Shl(32)
    ensures Wide(c) ==>
              && table[Ffs(group) - 1] < Shl(32) && Ffs(table[Ffs(group) - 1]) >= 1
              && IsTop(queues, 8 * (Ffs(group) - 1) + Ffs(table[Ffs(group) - 1]) - 1)
    ensures !Wide(c) ==> IsTop(queues, Ffs(group) - 1)
  {
    hide Bit, Ffs, Shl;
    LowestBit(group);
    if Wide(c) { LookUpWide(c, queues, group, table); }
  }

  lemma LowestBit(w: nat)
    requires 0 < w < Shl(32)
    ensures 1 <= Ffs(w) <= 32 && Bit(w, Ffs(w) - 1) && forall j: nat :: j < Ffs(w) - 1 ==> !Bit(w, j)
  {
    hide Bit, Ffs, Shl;
    FfsLowest(w);
  }

  lemma ByteLowestBit(w: nat)
    requires 0 < w < 256
    ensures w < Shl(32) && 1 <= Ffs(w) <= 8 && Bit(w, Ffs(w) - 1) && forall j: nat :: j < Ffs(w) - 1 ==> !Bit(w, j)
  {
    hide Bit, Ffs, Shl;
    ByteSizes();
    LowestBit(w);
    BitBound(w, Ffs(w) - 1);
    if Ffs(w) - 1 >= 8 { ShlMono(8, Ffs(w) - 1); }
  }

  /** The number of the first non-empty byte, and in it the first bit. */
  lemma LookUpWide(c: Config, queues: seq<seq<int>>, group: nat, table: seq<nat>)
    requires |table| == 32 && BitsOk(c, queues, group, table) && group != 0 && Wide(c)
    ensures 0 <= Ffs(group) - 1 < 32 && table[Ffs(group) - 1] < Shl(32) && Ffs(table[Ffs(group) - 1]) >= 1
    ensures IsTop(queues, 8 * (Ffs(group) - 1) + Ffs(table[Ffs(group) - 1]) - 1)
  {
    hide Bit, Ffs, Shl;
    LowestBit(group);
    var n := Ffs(group) - 1;
    assert ByteUsed(table, n) && ByteOk(queues, table[n], n);
    ByteLowestBit(table[n]);
    var k := Ffs(table[n]) - 1;
    forall j: nat | j < 8 * n + k ensures !Filled(queues, j) {
      assert j == 8 * (j / 8) + j % 8;
      assert ByteOk(queues, table[j / 8], j / 8);
      if j / 8 < n {
        assert !ByteUsed(table, j / 8);
        ZeroBits(j % 8);
      }
      assert FilledAt(queues, j / 8, j % 8) <==> Bit(table[j / 8], j % 8);
    }
  }

  /** The group word is zero exactly when nothing is ready. */
  lemma GroupZero(c: Config, queues: seq<seq<int>>, group: nat, table: seq<nat>)
    requires |table| == 32 && |queues| <= 256 && BitsOk(c, queues, group, table)
    ensures group == 0 <==> forall p: nat :: !Filled(queues, p)
  {
    hide Bit, Ffs, Shl;
    if group != 0 {
      assert IsTop(queues, TopLevel(c, queues, group, table));
    } else {
      forall p: nat ensures !Filled(queues, p) {
        if p < 256 {
          ZeroBits(p);
          ZeroBits(p / 8);
          ZeroBits(p % 8);
          if Wide(c) {
            assert !Bit(group, p / 8);
            assert ByteOk(queues, table[p / 8], p / 8);
            assert p == 8 * (p / 8) + p % 8;
          }
        }
      }
    }
  }

  // ---------------------------------------------------------------- the ready bits

  lemma SetBit(w: nat, k: nat, j: nat)
    ensures Bit(Or(w, Shl(k)), j) <==> Bit(w, j) || j == k
  {
    hide Bit, Or, Shl;
    OrBits(w, Shl(k), j);
    ShlBits(k, j);
  }

  lemma ClearBit(w: nat, k: nat, j: nat)
    ensures Bit(AndNot(w, Shl(k)), j) <==> Bit(w, j) && j != k
  {
    hide Bit, AndNot, Shl;
    AndNotBits(w, Shl(k), j);
    ShlBits(k, j);
  }

  lemma ShlBelow(k: nat, n: nat)
    requires k < n
    ensures Shl(k) < Shl(n)
  {
    ShlMono(k, n - 1);
  }

  /** The word with bit k set, or with bit k cleared, fits in the same number of bits. */
  lemma WordBounds(w: nat, k: nat, n: nat)
    requires w < Shl(n) && k < n
    ensures Or(w, Shl(k)) < Shl(n) && AndNot(w, Shl(k)) < Shl(n)
  {
    ShlBelow(k, n);
    OrBound(w, Shl(k), n);
    AndNotBound(w, Shl(k));
  }

  /** Linking a thread into queue p and setting its bits. */
  lemma FillBits(c: Config, queues: seq<seq<int>>, group: nat, table: seq<nat>, p: nat, q: seq<int>)
    requires Legal(c) && |queues| == c.levels && |table| == 32 && p < c.levels && q != []
    requires BitsOk(c, queues, group, table)
    ensures Wide(c) ==> BitsOk(c, queues[p := q], Or(group, Shl(p / 8)), table[p / 8 := Or(table[p / 8], Shl(p % 8))])
    ensures !Wide(c) ==> BitsOk(c, queues[p := q], Or(group, Shl(p)), table)
  {
    hide Bit, Or, AndNot, Shl;
    var n := if Wide(c) then p / 8 else p;
    var queues', group' := queues[p := q], Or(group, Shl(n));
    WordBounds(group, n, 32);
    if Wide(c) {
      var b := Or(table[n], Shl(p % 8));
      var table' := table[n := b];
      ByteFill(queues, table[n], p, q);
      forall j: nat | j < 32 ensures ByteOk(queues', table'[j], j) {
        assert ByteOk(queues, table[j], j);
        if j != n { OtherByte(queues, table[j], j, p, queues'[p]); }
      }
      forall k: nat ensures Bit(group', k) <==> ByteUsed(table', k) {
        SetBit(group, n, k);
        assert Bit(group, k) <==> ByteUsed(table, k);
      }
    } else {
      forall k: nat ensures Bit(group', k) <==> Filled(queues', k) { SetBit(group, n, k); }
    }
  }

  lemma OtherByte(queues: seq<seq<int>>, b: nat, j: nat, p: nat, q: seq<int>)
    requires p < |queues| && j != p / 8 && ByteOk(queues, b, j)
    ensures ByteOk(queues[p := q], b, j)
  {
    forall k: nat | k < 8 ensures FilledAt(queues[p := q], j, k) <==> FilledAt(queues, j, k) {
      assert (8 * j + k) / 8 == j;
    }
  }

  lemma ByteFill(queues: seq<seq<int>>, b: nat, p: nat, q: seq<int>)
    requires p < |queues| && q != [] && ByteOk(queues, b, p / 8)
    ensures Or(b, Shl(p % 8)) != 0 && ByteOk(queues[p := q], Or(b, Shl(p % 8)), p / 8)
  {
    hide Bit, Or, AndNot, Shl;
    ByteSizes();
    WordBounds(b, p % 8, 8);
    assert p == 8 * (p / 8) + p % 8;
    forall k: nat ensures Bit(Or(b, Shl(p % 8)), k) <==> Bit(b, k) || k == p % 8 { SetBit(b, p % 8, k); }
    ZeroBits(p % 8);
  }

  /** Unlinking the last thread of queue p and clearing its bits. */
  lemma DrainBits(c: Config, queues: seq<seq<int>>, group: nat, table: seq<nat>, p: nat)
    requires Legal(c) && |queues| == c.levels && |table| == 32 && p < c.levels
    requires BitsOk(c, queues, group, table)
    ensures Wide(c) ==>
              var b := AndNot(table[p / 8], Shl(p % 8));
              BitsOk(c, queues[p := []], if b == 0 then AndNot(group, Shl(p / 8)) else group, table[p / 8 := b])
    ensures !Wide(c) ==> BitsOk(c, queues[p := []], AndNot(group, Shl(p)), table)
  {
    hide Bit, Or, AndNot, Shl;
    var n := if Wide(c) then p / 8 else p;
    var queues' := queues[p := []];
    WordBounds(group, n, 32);
    if Wide(c) {
      var b := AndNot(table[n], Shl(p % 8));
      var table' := table[n := b];
      var group' := if b == 0 then AndNot(group, Shl(n)) else group;
      ByteDrain(queues, table[n], p);
      forall j: nat | j < 32 ensures ByteOk(queues', table'[j], j) {
        assert ByteOk(queues, table[j], j);
        if j != n { OtherByte(queues, table[j], j, p, queues'[p]); }
      }
      forall k: nat ensures Bit(group', k) <==> ByteUsed(table', k) {
        ClearBit(group, n, k);
        assert Bit(group, k) <==> ByteUsed(table, k);
      }
    } else {
      forall k: nat ensures Bit(AndNot(group, Shl(n)), k) <==> Filled(queues', k) { ClearBit(group, n, k); }
    }
  }

  lemma ByteDrain(queues: seq<seq<int>>, b: nat, p: nat)
    requires p < |queues| && ByteOk(queues, b, p / 8)
    ensures AndNot(b, Shl(p % 8)) <= b && ByteOk(queues[p := []], AndNot(b, Shl(p % 8)), p / 8)
  {
    hide Bit, Or, AndNot, Shl;
    AndNotBound(b, Shl(p % 8));
    assert p == 8 * (p / 8) + p % 8;
    forall k: nat ensures Bit(AndNot(b, Shl(p % 8)), k) <==> Bit(b, k) && k != p % 8 { ClearBit(b, p % 8, k); }
  }

  /** Bits that agree with the queues are determined by the queues. */
  lemma BitsUnique(c: Config, queues: seq<seq<int>>, g1: nat, t1: seq<nat>, g2: nat, t2: seq<nat>)
    requires |t1| == |t2| == 32 && (!Wide(c) ==> t1 == t2)
    requires BitsOk(c, queues, g1, t1) && BitsOk(c, queues, g2, t2)
    ensures g1 == g2 && t1 == t2
  {
    hide Bit;
    if Wide(c) {
      forall j: nat | j < 32 ensures t1[j] == t2[j] {
        assert ByteOk(queues, t1[j], j) && ByteOk(queues, t2[j], j);
        ByteUnique(queues, t1[j], t2[j], j);
      }
      assert t1 == t2;
    }
    SameBits(g1, g2);
  }

  lemma ByteUnique(queues: seq<seq<int>>, a: nat, b: nat, j: nat)
    requires ByteOk(queues, a, j) && ByteOk(queues, b, j)
    ensures a == b
  {
    hide Bit, Shl;
    forall k: nat ensures Bit(a, k) <==> Bit(b, k) {
      if k >= 8 {
        ByteSizes();
        ShlMono(8, k);
        if Bit(a, k) { BitBound(a, k); }
        if Bit(b, k) { BitBound(b, k); }
      }
    }
    SameBits(a, b);
  }

  // ---------------------------------------------------------------- inserting and removing a thread

  /** A thread that is not ready may be left out of the account. */
  lemma SetAside(c: Config, s: State, t: int)
    requires Core(c, s, NOBODY) && (t in s.threads ==> s.threads[t].stat != Ready)
    ensures Core(c, s, t)
  {
    forall p: nat | p < |s.queues| ensures QueueOk(s, t, p) {
      assert QueueOk(s, NOBODY, p);
      forall x | x in s.queues[p] ensures Entry(s, t, p, x) { assert Entry(s, NOBODY, p, x); }
    }
    forall x | x in s.threads && x != t ensures ThreadOk(c, s, x) { assert x != NOBODY; }
  }

  /** Giving the thread left out of the account a state other than ready. */
  lemma PutBack(c: Config, s: State, t: int, th: Thread)
    requires Core(c, s, t) && t != NOBODY
    requires ThreadSized(c, th) && th.stat != Ready && (Started(th) ==> Masked(c, th))
    ensures Core(c, SetThread(s, t, th), NOBODY)
  {
    hide BitsOk, Masked;
    var s' := SetThread(s, t, th);
    forall p: nat | p < |s'.queues| ensures QueueOk(s', NOBODY, p) {
      assert QueueOk(s, t, p);
      forall x | x in s.queues[p] ensures Entry(s', NOBODY, p, x) { assert Entry(s, t, p, x); }
    }
    forall x | x in s'.threads ensures ThreadOk(c, s', x) {
      if x != t { assert ThreadOk(c, s, x); }
    }
  }

  /** Changing the fields of the thread left out of the account. */
  lemma Touch(c: Config, s: State, t: int, th: Thread)
    requires Core(c, s, t) && ThreadSized(c, th) && t != NOBODY
    ensures Core(c, SetThread(s, t, th), t)
  {
    hide BitsOk, Masked;
    var s' := SetThread(s, t, th);
    forall p: nat | p < |s'.queues| ensures QueueOk(s', t, p) {
      assert QueueOk(s, t, p);
      forall x | x in s.queues[p] ensures Entry(s', t, p, x) { assert Entry(s, t, p, x); }
    }
    forall x | x in s'.threads && x != t ensures ThreadOk(c, s', x) { assert ThreadOk(c, s, x); }
  }

  /** rt_schedule_insert_thread queues a thread at its own priority. */
  lemma InsertCore(c: Config, s: State, t: int)
    requires Core(c, s, t) && t in s.threads && Masked(c, s.threads[t])
    ensures Core(c, Insert(c, s, t), NOBODY)
  {
    var th := s.threads[t];
    if t == s.current {
      PutBack(c, s, t, th.(stat := Running));
    } else {
      var p := th.prio;
      var q := s.queues[p] + [t];
      FillBits(c, s.queues, s.group, s.table, p, q);
      hide BitsOk;
      var s' := Insert(c, s, t);
      assert BitsOk(c, s'.queues, s'.group, s'.table);
      assert QueueOk(s, t, p);
      assert t in s.queues[p] ==> Entry(s, t, p, t);
      forall j: nat | j < |s'.queues| ensures QueueOk(s', NOBODY, j) {
        assert QueueOk(s, t, j);
        forall x | x in s'.queues[j] ensures Entry(s', NOBODY, j, x) {
          if x in s.queues[j] { assert Entry(s, t, j, x); }
        }
      }
      forall x | x in s'.threads ensures ThreadOk(c, s', x) {
        if x != t { assert ThreadOk(c, s, x); }
      }
    }
  }

  /** rt_schedule_remove_thread takes a thread out of its queue, and leaves the others. */
  lemma RemoveCore(c: Config, s: State, t: int)
    requires Core(c, s, NOBODY) && t in s.threads && Started(s.threads[t])
    ensures Core(c, Remove(c, s, t), t)
  {
    var th := s.threads[t];
    var p := th.prio;
    var q := Without(s.queues[p], t);
    var s' := Remove(c, s, t);
    assert ThreadOk(c, s, t) && QueueOk(s, NOBODY, p);
    WithoutMembers(s.queues[p], t);
    RemoveBits(c, s, t);
    hide BitsOk, Masked;
    forall j: nat | j < |s'.queues| ensures QueueOk(s', t, j) {
      assert QueueOk(s, NOBODY, j);
      forall x | x in s'.queues[j] ensures Entry(s', t, j, x) { assert Entry(s, NOBODY, j, x); }
    }
    forall x | x in s'.threads && x != t ensures ThreadOk(c, s', x) { assert ThreadOk(c, s, x); }
  }

  lemma RemoveBits(c: Config, s: State, t: int)
    requires Core(c, s, NOBODY) && t in s.threads && Started(s.threads[t])
    ensures var s' := Remove(c, s, t); BitsOk(c, s'.queues, s'.group, s'.table)
  {
    var p := s.threads[t].prio;
    assert ThreadOk(c, s, t) && QueueOk(s, NOBODY, p);
    WithoutMembers(s.queues[p], t);
    DrainBits(c, s.queues, s.group, s.table, p);
    if Without(s.queues[p], t) != [] { SameFilled(c, s.queues, s.group, s.table, p, Without(s.queues[p], t)); }
  }

  lemma SameFilled(c: Config, queues: seq<seq<int>>, group: nat, table: seq<nat>, p: nat, q: seq<int>)
    requires p < |queues| && q != [] && queues[p] != [] && BitsOk(c, queues, group, table)
    ensures BitsOk(c, queues[p := q], group, table)
  {
    hide Bit, Shl;
    var queues' := queues[p := q];
    assert forall k: nat :: Filled(queues', k) <==> Filled(queues, k);
    if Wide(c) {
      forall j: nat | j < |table| ensures ByteOk(queues', table[j], j) {
        assert ByteOk(queues, table[j], j);
        assert forall k: nat :: FilledAt(queues', j, k) <==> FilledAt(queues, j, k);
      }
    }
  }

  // ---------------------------------------------------------------- rt_schedule

  /** Takes t off its queue and lets it run. */
  ghost function Dispatch(c: Config, s: State, t: int): State
    requires Sized(c, s) && t in s.threads
  {
    SetThread(Remove(c, s, t), t, s.threads[t].(stat := Running))
  }

  predicate IsRunning(s: State, t: int) {
    t in s.threads && s.threads[t].stat == Running
  }

  predicate IsReady(s: State, t: int) {
    t in s.threads && s.threads[t].stat == Ready
  }

  /** The level and the thread that _get_highest_priority_thread finds. */
  ghost function Best(c: Config, s: State): (r: (nat, int))
    requires Valid(c, s) && s.group != 0
    ensures IsTop(s.queues, r.0) && r.1 == s.queues[r.0][0] && IsReady(s, r.1) && s.threads[r.1].prio == r.0
  {
    hide Bit, Shl, TableOk, GroupOk;
    var p := TopLevel(c, s.queues, s.group, s.table);
    assert QueueOk(s, NOBODY, p) && Entry(s, NOBODY, p, s.queues[p][0]);
    (p, s.queues[p][0])
  }

  ghost function Schedule(c: Config, s: State): State
    requires Valid(c, s) && s.current != NOBODY
  {
    if s.lock != 0 || s.group == 0 then s else
    var (level, to) := Best(c, s);
    if IsRunning(s, s.current) && s.threads[s.current].prio < level then Dispatch(c, s, s.current) else
    var s1 := s.(current := to);
    Dispatch(c, if IsRunning(s, s.current) then Insert(c, s1, s.current) else s1, to)
  }

  lemma DispatchCore(c: Config, s: State, t: int)
    requires Core(c, s, NOBODY) && t in s.threads && Started(s.threads[t])
    ensures Core(c, Dispatch(c, s, t), NOBODY)
  {
    hide BitsOk;
    assert ThreadOk(c, s, t);
    RemoveCore(c, s, t);
    PutBack(c, Remove(c, s, t), t, s.threads[t].(stat := Running));
  }

  lemma ScheduleValid(c: Config, s: State)
    requires Valid(c, s) && s.current != NOBODY
    ensures Valid(c, Schedule(c, s))
  {
    SizedOf(c, s);
    hide Core, Dispatch, Best, Insert;
    if s.lock == 0 && s.group != 0 {
      var (level, to) := Best(c, s);
      ReadyOrRunning(c, s, to);
      if IsRunning(s, s.current) && s.threads[s.current].prio < level {
        ReadyOrRunning(c, s, s.current);
        DispatchCore(c, s, s.current);
        DispatchCurrent(c, s, s.current);
      } else {
        SwitchCore(c, s, to);
      }
    }
  }

  lemma DispatchCurrent(c: Config, s: State, t: int)
    requires Sized(c, s) && t in s.threads
    ensures Dispatch(c, s, t).current == s.current
    ensures Dispatch(c, s, t).threads == s.threads[t := s.threads[t].(stat := Running)]
  {
  }

  lemma ReadyOrRunning(c: Config, s: State, t: int)
    requires Valid(c, s) && (IsReady(s, t) || IsRunning(s, t))
    ensures Started(s.threads[t]) && Masked(c, s.threads[t])
  {
    assert ThreadOk(c, s, t);
  }

  /** Letting `to` run, with the thread that runs now back in its queue. */
  lemma SwitchCore(c: Config, s: State, to: int)
    requires Valid(c, s) && s.current != NOBODY && IsReady(s, to)
    ensures var s1 := s.(current := to);
      && Sized(c, if IsRunning(s, s.current) then Insert(c, s1, s.current) else s1)
      && Valid(c, Dispatch(c, if IsRunning(s, s.current) then Insert(c, s1, s.current) else s1, to))
  {
    hide BitsOk, Masked, Dispatch;
    var cur, s1 := s.current, s.(current := to);
    assert ThreadOk(c, s, to) && to != NOBODY;
    DispatchCurrent(c, if IsRunning(s, cur) then Insert(c, s1, cur) else s1, to);
    SameCore(c, s, s1);
    ReadyOrRunning(c, s, to);
    if IsRunning(s, cur) {
      ReadyOrRunning(c, s, cur);
      SetAside(c, s1, cur);
      InsertCore(c, s1, cur);
      DispatchCore(c, Insert(c, s1, cur), to);
    } else {
      DispatchCore(c, s1, to);
    }
  }

  /** The account of queues, bits and states does not mention the other variables. */
  lemma SameCore(c: Config, s: State, s': State)
    requires Core(c, s, NOBODY)
    requires s'.threads == s.threads && s'.queues == s.queues && s'.group == s.group && s'.table == s.table
    ensures Core(c, s', NOBODY)
  {
    hide BitsOk, Masked;
    forall p: nat | p < |s'.queues| ensures QueueOk(s', NOBODY, p) {
      assert QueueOk(s, NOBODY, p);
      forall x | x in s'.queues[p] ensures Entry(s', NOBODY, p, x) { assert Entry(s, NOBODY, p, x); }
    }
    forall x | x in s'.threads ensures ThreadOk(c, s', x) { assert ThreadOk(c, s, x); }
  }

  /** What rt_schedule does, without the bits: nothing when locked, when no thread is ready or when
      the running thread is strictly more urgent; otherwise the first thread of the most urgent
      queue runs, and a running thread that gives way joins the end of its own queue. */
  ghost function Switched(s: State, level: nat): State
    requires IsTop(s.queues, level) && s.current in s.threads && s.queues[level][0] in s.threads
    requires s.threads[s.current].prio < |s.queues|
  {
    var cur, to := s.current, s.queues[level][0];
    var rest := s.queues[level := s.queues[level][1..]];
    var p := s.threads[cur].prio;
    if IsRunning(s, cur) then
      s.(current := to, queues := rest[p := rest[p] + [cur]],
         threads := s.threads[cur := s.threads[cur].(stat := Ready)][to := s.threads[to].(stat := Running)])
    else s.(current := to, queues := rest, threads := s.threads[to := s.threads[to].(stat := Running)])
  }

  lemma NotQueued(c: Config, s: State, t: int)
    requires Core(c, s, NOBODY) && !IsReady(s, t)
    ensures forall p: nat :: p < |s.queues| ==> t !in s.queues[p]
  {
    forall p: nat | p < |s.queues| ensures t !in s.queues[p] {
      assert QueueOk(s, NOBODY, p);
      assert t in s.queues[p] ==> Entry(s, NOBODY, p, t);
    }
  }

  lemma ScheduleStays(c: Config, s: State)
    requires Valid(c, s) && s.current != NOBODY
    requires s.lock != 0 || s.group == 0 || (IsRunning(s, s.current) && s.threads[s.current].prio < Best(c, s).0)
    ensures Schedule(c, s) == s
  {
    if s.lock == 0 && s.group != 0 {
      var cur := s.current;
      var s' := Dispatch(c, s, cur);
      var q := s.queues[s.threads[cur].prio];
      assert ThreadOk(c, s, cur);
      NotQueued(c, s, cur);
      assert s'.queues == s.queues;
      RemoveBits(c, s, cur);
      assert !Wide(c) ==> s'.table == s.table;
      BitsUnique(c, s.queues, s.group, s.table, s'.group, s'.table);
      assert s'.threads == s.threads;
    }
  }

  lemma ScheduleSwitches(c: Config, s: State)
    requires Valid(c, s) && s.current != NOBODY && s.lock == 0 && s.group != 0
    requires !IsRunning(s, s.current) || s.threads[s.current].prio >= Best(c, s).0
    ensures var w, s' := Switched(s, Best(c, s).0), Schedule(c, s);
      s'.current == w.current && s'.queues == w.queues && s'.threads == w.threads && s'.lock == w.lock
  {
    hide BitsOk, Masked;
    var (level, to) := Best(c, s);
    var cur := s.current;
    var s1 := s.(current := to);
    var q := s.queues[level];
    assert QueueOk(s, NOBODY, level);
    if IsRunning(s, cur) {
      var p := s.threads[cur].prio;
      NotQueued(c, s, cur);
      InsertDistinct(q, |q|, cur);
      assert InsertAt(q, |q|, cur) == q + [cur];
      var s2 := Insert(c, s1, cur);
      assert s2.queues == s.queues[p := s.queues[p] + [cur]];
      SwitchQueues(s.queues, level, p, cur);
      DispatchFirst(c, s2, level);
    } else {
      DispatchFirst(c, s1, level);
    }
  }

  /** Joining the end of a queue and leaving the front of one commute. */
  lemma SwitchQueues(queues: seq<seq<int>>, level: nat, p: nat, t: int)
    requires level < |queues| && p < |queues| && queues[level] != []
    ensures var after, rest := queues[p := queues[p] + [t]], queues[level := queues[level][1..]];
      after[level := after[level][1..]] == rest[p := rest[p] + [t]]
  {
    assert (queues[level] + [t])[1..] == queues[level][1..] + [t];
  }

  lemma DispatchFirst(c: Config, s: State, level: nat)
    requires Sized(c, s) && level < |s.queues| && s.queues[level] != [] && Distinct(s.queues[level])
    requires s.queues[level][0] in s.threads && s.threads[s.queues[level][0]].prio == level
    ensures var s', t := Dispatch(c, s, s.queues[level][0]), s.queues[level][0];
      && s'.queues == s.queues[level := s.queues[level][1..]] && s'.threads == s.threads[t := s.threads[t].(stat := Running)]
      && s'.current == s.current && s'.lock == s.lock
  {
    WithoutFirst(s.queues[level]);
  }

  /** After an unlocked rt_schedule the current thread is at least as urgent as every ready one, and
      it runs whenever some thread was ready. */
  lemma ScheduleUrgent(c: Config, s: State)
    requires Valid(c, s) && s.current != NOBODY && s.lock == 0
    ensures var s' := Schedule(c, s);
      && (forall t :: IsReady(s', t) ==> IsRunning(s', s'.current) && s'.threads[s'.current].prio <= s'.threads[t].prio)
      && ((exists t :: IsReady(s, t)) ==> IsRunning(s', s'.current))
  {
    hide BitsOk, Masked;
    var s' := Schedule(c, s);
    ScheduleValid(c, s);
    ReadyGroup(c, s);
    if s.group != 0 {
      var (level, to) := Best(c, s);
      if IsRunning(s, s.current) && s.threads[s.current].prio < level {
        ScheduleStays(c, s);
      } else {
        ScheduleSwitches(c, s);
      }
      forall t | IsReady(s', t) ensures s'.threads[s'.current].prio <= s'.threads[t].prio {
        assert IsReady(s, t) || t == s.current;
        if IsReady(s, t) {
          assert ThreadOk(c, s, t) && Filled(s.queues, s.threads[t].prio);
        }
      }
    }
  }

  /** The group word tells whether some thread is ready. */
  lemma ReadyGroup(c: Config, s: State)
    requires Valid(c, s)
    ensures s.group != 0 <==> exists t :: IsReady(s, t)
  {
    GroupZero(c, s.queues, s.group, s.table);
    hide BitsOk, Masked;
    if s.group != 0 {
      assert IsReady(s, Best(c, s).1);
    }
    if exists t :: IsReady(s, t) {
      var t :| IsReady(s, t);
      assert ThreadOk(c, s, t);
      assert Filled(s.queues, s.threads[t].prio);
    }
  }

  predicate Runnable(s: State, t: int) {
    IsReady(s, t) || IsRunning(s, t)
  }

  /** rt_schedule starts and stops no thread: the runnable ones stay the same, and no priority changes. */
  lemma ScheduleKeeps(c: Config, s: State, t: int)
    requires Valid(c, s) && s.current != NOBODY
    ensures var s' := Schedule(c, s); Runnable(s', t) <==> Runnable(s, t)
    ensures t in Schedule(c, s).threads <==> t in s.threads
    ensures t in s.threads ==> Schedule(c, s).threads[t].(stat := Init) == s.threads[t].(stat := Init)
  {
    hide BitsOk, Masked, TopLevel;
    if s.lock != 0 || s.group == 0 || (IsRunning(s, s.current) && s.threads[s.current].prio < Best(c, s).0) {
      ScheduleStays(c, s);
    } else {
      ScheduleSwitches(c, s);
    }
  }

  // ---------------------------------------------------------------- taking turns

  /** rt_thread_yield, n times */
  ghost function Yields(c: Config, s: State, n: nat): (s': State)
    requires Valid(c, s) && s.current != NOBODY
    ensures Valid(c, s') && s'.current != NOBODY
  {
    if n == 0 then s else
    var s1 := Yields(c, s, n - 1);
    ScheduleValid(c, s1);
    CurrentStays(c, s1);
    Schedule(c, s1)
  }

  lemma CurrentStays(c: Config, s: State)
    requires Valid(c, s) && s.current != NOBODY
    ensures Schedule(c, s).current != NOBODY
  {
    hide BitsOk, Masked, TopLevel;
    if s.lock != 0 || s.group == 0 || (IsRunning(s, s.current) && s.threads[s.current].prio < Best(c, s).0) {
      ScheduleStays(c, s);
    } else {
      ScheduleSwitches(c, s);
    }
  }

  function Prio(s: State): nat {
    if s.current in s.threads then s.threads[s.current].prio else 0
  }

  /** The current thread runs unlocked and no thread is more urgent. */
  ghost predicate Turn(c: Config, s: State) {
    && Valid(c, s) && s.lock == 0 && s.current != NOBODY && IsRunning(s, s.current)
    && forall p: nat :: p < Prio(s) ==> !Filled(s.queues, p)
  }

  /** The current thread and those waiting for their turn at its level. */
  ghost function Circle(c: Config, s: State): (r: seq<int>)
    requires Turn(c, s)
    ensures |r| > 0
  {
    assert ThreadOk(c, s, s.current);
    [s.current] + s.queues[Prio(s)]
  }

  function Rotated(r: seq<int>, n: nat): seq<int>
    requires |r| > 0
  {
    r[n % |r|..] + r[..n % |r|]
  }

  lemma RotateStep(r: seq<int>, n: nat)
    requires |r| > 0
    ensures |Rotated(r, n)| == |r| && Rotated(r, n + 1) == Rotated(r, n)[1..] + [Rotated(r, n)[0]]
  {
    var m, k := |r|, n % |r|;
    assert n == (n / m) * m + k;
    if k + 1 < m {
      NextRemainder(n, m);
      assert r[k..] == [r[k]] + r[k + 1..];
      assert r[..k + 1] == r[..k] + [r[k]];
    } else {
      NextRemainder(n, m);
      assert r[..k] + [r[k]] == r;
    }
  }

  lemma NextRemainder(n: nat, m: nat)
    requires m > 0
    ensures (n + 1) % m == if n % m + 1 < m then n % m + 1 else 0
  {
    var q, k := n / m, n % m;
    assert n == q * m + k;
    if k + 1 < m {
      DivModUnique(n + 1, m, q, k + 1);
    } else {
      assert n + 1 == (q + 1) * m + 0;
      DivModUnique(n + 1, m, q + 1, 0);
    }
  }

  lemma YieldOnce(c: Config, s: State)
    requires Turn(c, s)
    ensures Turn(c, Schedule(c, s)) && Prio(Schedule(c, s)) == Prio(s)
    ensures Circle(c, Schedule(c, s)) == Circle(c, s)[1..] + [Circle(c, s)[0]]
    ensures Schedule(c, s).queues[Prio(s) := []] == s.queues[Prio(s) := []]
  {
    hide BitsOk, Masked, TopLevel;
    var s', p := Schedule(c, s), Prio(s);
    ScheduleValid(c, s);
    GroupZero(c, s.queues, s.group, s.table);
    if Filled(s.queues, p) {
      assert Best(c, s).0 == p;
      ScheduleSwitches(c, s);
      assert s'.queues == s.queues[p := s.queues[p][1..] + [s.current]];
    } else {
      ScheduleStays(c, s);
    }
    forall j: nat | j < p ensures !Filled(s'.queues, j) { assert !Filled(s.queues, j); }
  }

  /** Yielding n times turns the circle n places and leaves the other queues alone. */
  lemma {:induction false} Rotation(c: Config, s: State, n: nat)
    requires Turn(c, s)
    ensures Turn(c, Yields(c, s, n)) && Prio(Yields(c, s, n)) == Prio(s)
    ensures Circle(c, Yields(c, s, n)) == Rotated(Circle(c, s), n)
    ensures Yields(c, s, n).queues[Prio(s) := []] == s.queues[Prio(s) := []]
  {
    hide Valid, Schedule;
    if n > 0 {
      Rotation(c, s, n - 1);
      YieldOnce(c, Yields(c, s, n - 1));
      RotateStep(Circle(c, s), n - 1);
    }
  }

  /** The thread at position i of the current thread's queue runs after i + 1 yields and no sooner. */
  lemma RunsAfter(c: Config, s: State, i: nat, n: nat)
    requires Turn(c, s) && i < |s.queues[Prio(s)]| && n <= i + 1
    ensures Yields(c, s, n).current == s.queues[Prio(s)][i] <==> n == i + 1
  {
    hide BitsOk, Masked;
    var r := Circle(c, s);
    Rotation(c, s, n);
    SmallRemainder(n, |r|);
    assert Rotated(r, n)[0] == r[n];
    NotQueued(c, s, s.current);
    assert QueueOk(s, NOBODY, Prio(s));
  }

  lemma SmallRemainder(n: nat, m: nat)
    requires n < m
    ensures n % m == n
  {
  }

  /** The part of rt_tick_increase that uses up the time slice. */
  ghost function Tick(c: Config, s: State): State
    requires Valid(c, s) && s.current != NOBODY
  {
    var th := s.threads[s.current];
    var left := (th.remaining - 1) % WORD;
    if left != 0 then SetThread(s, s.current, th.(remaining := left)) else
    RemainingValid(c, s, th.initTick);
    Schedule(c, SetThread(s, s.current, th.(remaining := th.initTick)))
  }

  lemma RemainingValid(c: Config, s: State, ticks: nat)
    requires Valid(c, s) && s.current != NOBODY
    ensures Valid(c, SetThread(s, s.current, s.threads[s.current].(remaining := ticks)))
  {
    hide BitsOk;
    assert ThreadOk(c, s, s.current);
    SetAside(c, s, s.current);
    PutBack(c, s, s.current, s.threads[s.current].(remaining := ticks));
  }

  lemma TickValid(c: Config, s: State)
    requires Valid(c, s) && s.current != NOBODY
    ensures Valid(c, Tick(c, s)) && Tick(c, s).current != NOBODY
  {
    hide Core;
    var th := s.threads[s.current];
    var left := (th.remaining - 1) % WORD;
    if left != 0 {
      RemainingValid(c, s, left);
    } else {
      RemainingValid(c, s, th.initTick);
      var s1 := SetThread(s, s.current, th.(remaining := th.initTick));
      ScheduleValid(c, s1);
      CurrentStays(c, s1);
    }
  }

  ghost function Ticks(c: Config, s: State, n: nat): (s': State)
    requires Valid(c, s) && s.current != NOBODY
    ensures Valid(c, s') && s'.current != NOBODY
  {
    if n == 0 then s else
    var s1 := Ticks(c, s, n - 1);
    TickValid(c, s1);
    Tick(c, s1)
  }

  /** With `remaining` ticks of its slice left, the current thread keeps the processor for one tick
      less; the last tick renews the slice and yields. */
  lemma {:induction false} Slice(c: Config, s: State, n: nat)
    requires Valid(c, s) && s.current != NOBODY && 1 <= s.threads[s.current].remaining < WORD
    requires n <= s.threads[s.current].remaining
    ensures var th := s.threads[s.current];
      && Valid(c, SetThread(s, s.current, th.(remaining := th.initTick)))
      && Ticks(c, s, n) ==
         if n < th.remaining then SetThread(s, s.current, th.(remaining := th.remaining - n))
         else Schedule(c, SetThread(s, s.current, th.(remaining := th.initTick)))
  {
    hide Core, Schedule;
    var th := s.threads[s.current];
    RemainingValid(c, s, th.initTick);
    if n == 0 {
      assert SetThread(s, s.current, th).threads == s.threads;
    } else {
      Slice(c, s, n - 1);
      var left := th.remaining - n;
      var s1 := Ticks(c, s, n - 1);
      assert s1 == SetThread(s, s.current, th.(remaining := left + 1));
      assert left % WORD == left;
      assert s1.threads[s.current := th.(remaining := left)] == s.threads[s.current := th.(remaining := left)];
      assert s1.threads[s.current := th.(remaining := th.initTick)] == s.threads[s.current := th.(remaining := th.initTick)];
    }
  }

  // ---------------------------------------------------------------- the calls of src/thread.c

  ghost function SetStat(s: State, t: int, stat: Stat): State
    requires t in s.threads
  {
    SetThread(s, t, s.threads[t].(stat := stat))
  }

  /** rt_thread_resume; the flag is RT_EOK */
  ghost function Resume(c: Config, s: State, t: int): (State, bool)
    requires Sized(c, s) && t in s.threads
  {
    if s.threads[t].stat != Suspended then (s, false) else (Insert(c, s, t), true)
  }

  /** rt_thread_suspend */
  ghost function Suspend(c: Config, s: State, t: int): (State, bool)
    requires Sized(c, s) && t in s.threads
  {
    if s.threads[t].stat != Ready && s.threads[t].stat != Running then (s, false)
    else (SetStat(Remove(c, s, t), t, Suspended), true)
  }

  /** rt_thread_control with RT_THREAD_CTRL_CHANGE_PRIORITY */
  ghost function ChangePriority(c: Config, s: State, t: int, p: nat): State
    requires Sized(c, s) && t in s.threads && p < c.levels
  {
    var th := WithPriority(c, s.threads[t], p);
    if s.threads[t].stat != Ready then SetThread(s, t, th) else Insert(c, SetThread(Remove(c, s, t), t, th), t)
  }

  /** The part of rt_thread_startup before the scheduler is called. */
  ghost function MakeReady(c: Config, s: State, t: int): State
    requires Sized(c, s) && t in s.threads
  {
    var th := WithPriority(c, s.threads[t], s.threads[t].initPrio).(stat := Suspended);
    Resume(c, SetThread(s, t, th), t).0
  }

  /** Closing a thread: rt_thread_detach, rt_thread_delete, and rt_thread_exit before it switches. */
  ghost function Close(c: Config, s: State, t: int): State
    requires Sized(c, s) && t in s.threads
  {
    SetStat(if s.threads[t].stat != Init then Remove(c, s, t) else s, t, Closed)
  }

  /** rt_system_scheduler_start */
  ghost function Start(c: Config, s: State): State
    requires Valid(c, s) && s.group != 0
  {
    var to := Best(c, s).1;
    Dispatch(c, s.(current := to), to)
  }

  lemma InsertValid(c: Config, s: State, t: int)
    requires Valid(c, s) && t in s.threads && s.threads[t].stat != Ready && Started(s.threads[t])
    ensures Valid(c, Insert(c, s, t))
  {
    hide BitsOk, Masked;
    assert ThreadOk(c, s, t);
    SetAside(c, s, t);
    InsertCore(c, s, t);
  }

  lemma SuspendValid(c: Config, s: State, t: int)
    requires Valid(c, s) && t in s.threads
    ensures Valid(c, Suspend(c, s, t).0)
  {
    if Suspend(c, s, t).1 { DropValid(c, s, t, Suspended); }
  }

  /** Taking a started thread off the queues for good. */
  lemma DropValid(c: Config, s: State, t: int, stat: Stat)
    requires Valid(c, s) && t in s.threads && Started(s.threads[t]) && (stat == Suspended || stat == Closed)
    ensures Valid(c, SetStat(Remove(c, s, t), t, stat))
  {
    hide BitsOk;
    assert ThreadOk(c, s, t);
    RemoveCore(c, s, t);
    PutBack(c, Remove(c, s, t), t, s.threads[t].(stat := stat));
  }

  lemma ChangePriorityValid(c: Config, s: State, t: int, p: nat)
    requires Valid(c, s) && t in s.threads && p < c.levels
    ensures Valid(c, ChangePriority(c, s, t, p))
  {
    hide BitsOk;
    assert ThreadOk(c, s, t);
    var th := WithPriority(c, s.threads[t], p);
    if s.threads[t].stat == Ready {
      RemoveCore(c, s, t);
      Touch(c, Remove(c, s, t), t, th);
      InsertCore(c, SetThread(Remove(c, s, t), t, th), t);
    } else {
      SetAside(c, s, t);
      PutBack(c, s, t, th);
    }
  }

  lemma MakeReadyValid(c: Config, s: State, t: int)
    requires Valid(c, s) && t in s.threads && s.threads[t].stat == Init
    ensures Valid(c, MakeReady(c, s, t)) && MakeReady(c, s, t).current == s.current
  {
    hide BitsOk;
    var th := WithPriority(c, s.threads[t], s.threads[t].initPrio).(stat := Suspended);
    SetAside(c, s, t);
    PutBack(c, s, t, th);
    InsertValid(c, SetThread(s, t, th), t);
  }

  lemma RemoveKeeps(c: Config, s: State, t: int)
    requires Sized(c, s) && t in s.threads
    ensures Remove(c, s, t).threads == s.threads && Remove(c, s, t).current == s.current
  {
  }

  lemma CloseValid(c: Config, s: State, t: int)
    requires Valid(c, s) && t in s.threads && s.threads[t].stat != Closed
    ensures Valid(c, Close(c, s, t)) && Close(c, s, t).current == s.current
  {
    hide BitsOk, Remove;
    if s.threads[t].stat != Init {
      DropValid(c, s, t, Closed);
      RemoveKeeps(c, s, t);
    } else {
      hide Masked;
      SetAside(c, s, t);
      PutBack(c, s, t, s.threads[t].(stat := Closed));
    }
  }

  lemma StartValid(c: Config, s: State)
    requires Valid(c, s) && s.group != 0 && s.current == NOBODY
    ensures Valid(c, Start(c, s)) && IsRunning(Start(c, s), Start(c, s).current)
  {
    hide BitsOk, Masked;
    var to := Best(c, s).1;
    SameCore(c, s, s.(current := to));
    DispatchCore(c, s.(current := to), to);
  }

  /** Suspending a thread that was just resumed puts back every variable, the bits included. */
  lemma SuspendUndoesResume(c: Config, s: State, t: int)
    requires Valid(c, s) && t in s.threads && s.threads[t].stat == Suspended && t != s.current
    ensures Resume(c, s, t).1 && Suspend(c, Resume(c, s, t).0, t) == (s, true)
  {
    hide BitsOk, Masked, Core;
    SizedOf(c, s);
    var s1 := Resume(c, s, t).0;
    InsertValid(c, s, t);
    SizedOf(c, s1);
    SuspendValid(c, s1, t);
    ResumedLists(c, s, t);
    SameBitsOf(c, s, Suspend(c, s1, t).0);
  }

  lemma ResumedLists(c: Config, s: State, t: int)
    requires Valid(c, s) && t in s.threads && s.threads[t].stat == Suspended && t != s.current
    requires Valid(c, Resume(c, s, t).0)
    ensures var (s1, ok) := Resume(c, s, t);
      && ok && t in s1.threads && s1.threads[t].stat == Ready
      && var (s2, ok2) := Suspend(c, s1, t);
        ok2 && s2 == s.(group := s2.group, table := s2.table) && (Wide(c) || s2.table == s.table)
  {
    hide BitsOk, Masked, Core;
    SizedOf(c, s);
    var s1 := Resume(c, s, t).0;
    SizedOf(c, s1);
    NotQueued(c, s, t);
    WithoutLast(s.queues[s.threads[t].prio], t);
    var s2 := Suspend(c, s1, t).0;
    assert s2.queues == s.queues && s2.threads == s.threads;
  }

  /** Two states with the same queues have the same bits. */
  lemma SameBitsOf(c: Config, s: State, s': State)
    requires Valid(c, s) && Valid(c, s') && s.queues == s'.queues && (!Wide(c) ==> s.table == s'.table)
    ensures s.group == s'.group && s.table == s'.table
  {
    BitsUnique(c, s.queues, s.group, s.table, s'.group, s'.table);
  }

  // ---------------------------------------------------------------- what the calls mean for a thread

  /** t aside, every thread is as before and every queue has the same threads in the same order. */
  ghost predicate OthersKeep(s: State, s': State, t: int) {
    && s'.current == s.current && s'.lock == s.lock && s'.threads.Keys == s.threads.Keys && |s'.queues| == |s.queues|
    && (forall u :: u in s.threads && u != t ==> u in s'.threads && s'.threads[u] == s.threads[u])
    && forall p: nat :: p < |s.queues| ==> SameButFor(s.queues, s'.queues, p, t)
  }

  ghost predicate SameButFor(queues: seq<seq<int>>, queues': seq<seq<int>>, p: nat, t: int)
    requires p < |queues| == |queues'|
  {
    Without(queues'[p], t) == Without(queues[p], t)
  }

  ghost predicate Nowhere(s: State, t: int) {
    forall p: nat :: p < |s.queues| ==> t !in s.queues[p]
  }

  /** t is the last thread of queue p and in no other place. */
  ghost predicate LastIn(s: State, t: int, p: nat) {
    && p < |s.queues| && s.queues[p] != [] && s.queues[p][|s.queues[p]| - 1] == t && t !in s.queues[p][..|s.queues[p]| - 1]
    && forall j: nat :: j < |s.queues| && j != p ==> t !in s.queues[j]
  }

  lemma OthersTrans(s: State, s1: State, s2: State, t: int)
    requires OthersKeep(s, s1, t) && OthersKeep(s1, s2, t)
    ensures OthersKeep(s, s2, t)
  {
    hide Without;
    forall p: nat | p < |s.queues| ensures SameButFor(s.queues, s2.queues, p, t) {
      assert SameButFor(s.queues, s1.queues, p, t) && SameButFor(s1.queues, s2.queues, p, t);
    }
  }

  lemma SetOthers(s: State, t: int, th: Thread)
    requires t in s.threads
    ensures OthersKeep(s, SetThread(s, t, th), t)
  {
    hide Without;
  }

  lemma NotQueuedNowhere(c: Config, s: State, t: int)
    requires Core(c, s, NOBODY) && !IsReady(s, t)
    ensures Nowhere(s, t)
  {
    hide Core;
    NotQueued(c, s, t);
  }

  /** The current thread runs again; any other joins the end of its queue. */
  lemma InsertMeans(c: Config, s: State, t: int)
    requires Sized(c, s) && t in s.threads && Nowhere(s, t)
    ensures var s', th := Insert(c, s, t), s.threads[t];
      && OthersKeep(s, s', t)
      && (t == s.current ==> s'.threads[t] == th.(stat := Running) && Nowhere(s', t))
      && (t != s.current ==> s'.threads[t] == th.(stat := Ready) && LastIn(s', t, th.prio))
  {
    hide Or;
    var s', q := Insert(c, s, t), s.queues[s.threads[t].prio];
    WithoutLast(q, t);
    assert (q + [t])[..|q|] == q;
    forall p: nat | p < |s.queues| ensures SameButFor(s.queues, s'.queues, p, t) {}
  }

  lemma WithoutTwice(q: seq<int>, t: int)
    requires Distinct(q)
    ensures t !in Without(q, t) && Without(Without(q, t), t) == Without(q, t)
  {
    WithoutMembers(q, t);
  }

  lemma RemoveMeans(c: Config, s: State, t: int)
    requires Core(c, s, NOBODY) && t in s.threads && Started(s.threads[t])
    ensures var s' := Remove(c, s, t); OthersKeep(s, s', t) && s'.threads == s.threads && Nowhere(s', t) && Sized(c, s')
  {
    hide BitsOk, Masked, AndNot;
    var s', prio := Remove(c, s, t), s.threads[t].prio;
    assert QueueOk(s, NOBODY, prio);
    WithoutTwice(s.queues[prio], t);
    hide Without;
    forall p: nat | p < |s.queues| ensures SameButFor(s.queues, s'.queues, p, t) && t !in s'.queues[p] {
      assert QueueOk(s, NOBODY, p);
      assert t in s.queues[p] ==> Entry(s, NOBODY, p, t);
    }
  }

  /** The thread has the new priority with its masks, in its old state; a ready one is the last of its new
      queue. */
  lemma ChangePriorityMeans(c: Config, s: State, t: int, p: nat)
    requires Valid(c, s) && t in s.threads && p < c.levels
    ensures var s' := ChangePriority(c, s, t, p);
      && OthersKeep(s, s', t) && t in s'.threads && s'.threads[t].prio == p && s'.threads[t].stat == s.threads[t].stat
      && s'.threads[t].initPrio == s.threads[t].initPrio && Masked(c, s'.threads[t])
      && (if IsReady(s, t) then LastIn(s', t, p) else Nowhere(s', t))
  {
    var th := WithPriority(c, s.threads[t], p);
    SetOthers(s, t, th);
    MaskedWith(c, s.threads[t], p);
    hide Core, Insert, Remove, Masked, WithPriority;
    assert ThreadSized(c, s.threads[t]) by { SizedThreads(c, s, t); }
    if IsReady(s, t) {
      RemoveMeans(c, s, t);
      var s1 := Remove(c, s, t);
      SetOthers(s1, t, th);
      var s2 := SetThread(s1, t, th);
      InsertMeans(c, s2, t);
      OthersTrans(s, s1, s2, t);
      OthersTrans(s, s2, Insert(c, s2, t), t);
    } else {
      NotQueuedNowhere(c, s, t);
    }
  }

  lemma SizedThreads(c: Config, s: State, t: int)
    requires Core(c, s, NOBODY) && t in s.threads
    ensures Sized(c, s) && ThreadSized(c, s.threads[t])
  {
  }

  lemma MaskedWith(c: Config, th: Thread, p: nat)
    requires ThreadSized(c, th) && Legal(c) && p < c.levels
    ensures var th' := WithPriority(c, th, p);
      && Masked(c, th') && ThreadSized(c, th') && th'.prio == p
      && th' == th.(prio := p, number := th'.number, numberMask := th'.numberMask, highMask := th'.highMask)
  {
    hide Shl;
  }

  /** A thread that is started has its initial priority and is the last of that queue. */
  lemma MakeReadyMeans(c: Config, s: State, t: int)
    requires Valid(c, s) && t in s.threads && s.threads[t].stat == Init
    ensures var s' := MakeReady(c, s, t);
      && OthersKeep(s, s', t) && IsReady(s', t) && s'.threads[t].prio == s.threads[t].initPrio
      && Masked(c, s'.threads[t]) && LastIn(s', t, s.threads[t].initPrio)
  {
    SizedThreads(c, s, t);
    MaskedWith(c, s.threads[t], s.threads[t].initPrio);
    NotQueuedNowhere(c, s, t);
    var th := WithPriority(c, s.threads[t], s.threads[t].initPrio).(stat := Suspended);
    hide Core, Insert, WithPriority;
    var s1 := SetThread(s, t, th);
    SetOthers(s, t, th);
    InsertMeans(c, s1, t);
    OthersTrans(s, s1, Insert(c, s1, t), t);
  }

  /** Resuming works on suspended threads only, and keeps the priority. */
  lemma ResumeMeans(c: Config, s: State, t: int)
    requires Valid(c, s) && t in s.threads
    ensures Sized(c, s)
    ensures var (s', ok) := Resume(c, s, t);
      && (ok <==> s.threads[t].stat == Suspended) && (!ok ==> s' == s)
      && (ok && t == s.current ==> OthersKeep(s, s', t) && s'.threads[t] == s.threads[t].(stat := Running))
      && (ok && t != s.current ==>
            OthersKeep(s, s', t) && s'.threads[t] == s.threads[t].(stat := Ready) && LastIn(s', t, s.threads[t].prio))
  {
    SizedThreads(c, s, t);
    if s.threads[t].stat == Suspended {
      NotQueuedNowhere(c, s, t);
      hide Core, Insert;
      InsertMeans(c, s, t);
    }
  }

  /** Suspending works on runnable threads only. */
  lemma SuspendMeans(c: Config, s: State, t: int)
    requires Valid(c, s) && t in s.threads
    ensures Sized(c, s)
    ensures var (s', ok) := Suspend(c, s, t);
      && (ok <==> Runnable(s, t)) && (!ok ==> s' == s)
      && (ok ==> OthersKeep(s, s', t) && s'.threads[t] == s.threads[t].(stat := Suspended) && Nowhere(s', t))
  {
    SizedThreads(c, s, t);
    if Runnable(s, t) { DropMeans(c, s, t, Suspended); }
  }

  lemma DropMeans(c: Config, s: State, t: int, stat: Stat)
    requires Core(c, s, NOBODY) && t in s.threads && Started(s.threads[t])
    ensures var s' := SetStat(Remove(c, s, t), t, stat);
      OthersKeep(s, s', t) && s'.threads[t] == s.threads[t].(stat := stat) && Nowhere(s', t)
  {
    hide Remove;
    RemoveMeans(c, s, t);
    var s1 := Remove(c, s, t);
    hide Core;
    SetOthers(s1, t, s1.threads[t].(stat := stat));
    OthersTrans(s, s1, SetStat(s1, t, stat), t);
  }

  /** A thread that is closed is in no queue any more. */
  lemma CloseMeans(c: Config, s: State, t: int)
    requires Valid(c, s) && t in s.threads && s.threads[t].stat != Closed
    ensures Sized(c, s)
    ensures var s' := Close(c, s, t);
      OthersKeep(s, s', t) && s'.threads[t] == s.threads[t].(stat := Closed) && Nowhere(s', t)
  {
    SizedThreads(c, s, t);
    if s.threads[t].stat != Init {
      DropMeans(c, s, t, Closed);
    } else {
      NotQueuedNowhere(c, s, t);
      hide Core;
      SetOthers(s, t, s.threads[t].(stat := Closed));
    }
  }

  // ---------------------------------------------------------------- runs

  datatype Call =
    | Creation(t: int, p: nat, ticks: nat) // rt_thread_init
    | Startup(t: int) | Suspension(t: int) | Resumption(t: int)
    | Timeout(t: int) // rt_thread_timeout
    | NewPriority(t: int, p: nat)
    | Closing(t: int) // rt_thread_detach, rt_thread_delete
    | Exit // rt_thread_exit
    | Yield // rt_schedule, rt_thread_yield
    | TimeTick // rt_tick_increase
    | Lock | Unlock // rt_enter_critical, rt_exit_critical
    | Launch // rt_system_scheduler_start

  /** What the calls demand of their callers. */
  predicate Allowed(c: Config, s: State, x: Call) {
    match x
    case Creation(t, p, _) => t !in s.threads && t != NOBODY && p < c.levels
    case Startup(t) => t in s.threads && s.threads[t].stat == Init
    case Timeout(t) => t in s.threads && s.threads[t].stat == Suspended && s.current != NOBODY
    case NewPriority(t, p) => t in s.threads && p < c.levels
    case Closing(t) => t in s.threads && s.threads[t].stat != Closed
    case Exit => s.current in s.threads && s.threads[s.current].stat != Closed
    case Launch => s.current == NOBODY && s.group != 0
    case Yield | TimeTick => s.current != NOBODY
    case Lock | Unlock => true
    case _ => x.t in s.threads
  }

  ghost function Do(c: Config, s: State, x: Call): (s': State)
    requires Valid(c, s) && Allowed(c, s, x)
    ensures Valid(c, s')
  {
    hide Core;
    match x
    case Creation(t, p, ticks) =>
      var th := Thread(Init, p, p, 0, 0, 0, ticks, ticks);
      CreateValid(c, s, t, th);
      SetThread(s, t, th)
    case Startup(t) =>
      SizedOf(c, s);
      MakeReadyValid(c, s, t);
      var s1 := MakeReady(c, s, t);
      if s1.current == NOBODY then s1 else ScheduleValid(c, s1); Schedule(c, s1)
    case Suspension(t) => SizedOf(c, s); SuspendValid(c, s, t); Suspend(c, s, t).0
    case Resumption(t) => SizedOf(c, s); ResumeValid(c, s, t); Resume(c, s, t).0
    case Timeout(t) =>
      SizedOf(c, s);
      InsertValid(c, s, t);
      var s1 := Insert(c, s, t);
      ScheduleValid(c, s1);
      Schedule(c, s1)
    case NewPriority(t, p) => SizedOf(c, s); ChangePriorityValid(c, s, t, p); ChangePriority(c, s, t, p)
    case Closing(t) => SizedOf(c, s); CloseValid(c, s, t); Close(c, s, t)
    case Exit =>
      SizedOf(c, s);
      CloseValid(c, s, s.current);
      var s1 := Close(c, s, s.current);
      ScheduleValid(c, s1);
      Schedule(c, s1)
    case Yield => ScheduleValid(c, s); Schedule(c, s)
    case TimeTick => TickValid(c, s); Tick(c, s)
    case Lock => LockValid(c, s, s.lock + 1); s.(lock := s.lock + 1)
    case Unlock =>
      LockValid(c, s, Left(s.lock));
      var s1 := s.(lock := Left(s.lock));
      if s1.lock != 0 || s1.current == NOBODY then s1 else ScheduleValid(c, s1); Schedule(c, s1)
    case Launch => StartValid(c, s); Start(c, s)
  }

  /** rt_exit_critical counts down and stops at zero. */
  function Left(lock: nat): nat {
    if lock <= 1 then 0 else lock - 1
  }

  lemma SizedOf(c: Config, s: State)
    requires Valid(c, s)
    ensures Sized(c, s) && (s.current != NOBODY ==> s.current in s.threads)
  {
  }

  lemma CreateValid(c: Config, s: State, t: int, th: Thread)
    requires Valid(c, s) && t !in s.threads && t != NOBODY && ThreadSized(c, th) && th.stat == Init
    ensures Valid(c, SetThread(s, t, th))
  {
    hide BitsOk, Masked;
    SetAside(c, s, t);
    PutBack(c, s, t, th);
  }

  lemma ResumeValid(c: Config, s: State, t: int)
    requires Valid(c, s) && t in s.threads
    ensures Valid(c, Resume(c, s, t).0)
  {
    if s.threads[t].stat == Suspended { InsertValid(c, s, t); }
  }

  lemma LockValid(c: Config, s: State, n: nat)
    requires Valid(c, s)
    ensures Valid(c, s.(lock := n))
  {
    SameCore(c, s, s.(lock := n));
  }

  /** rt_system_scheduler_init, before any thread exists */
  function Fresh(c: Config): State {
    State(map[], seq(c.levels, _ => []), 0, seq(32, _ => 0), NOBODY, 0)
  }

  lemma FreshValid(c: Config)
    requires Legal(c)
    ensures Valid(c, Fresh(c))
  {
    hide Bit;
    forall k: nat ensures !Bit(0, k) { ZeroBits(k); }
    ByteSizes();
  }

  ghost predicate AllAllowed(c: Config, s: State, run: seq<Call>)
    requires Valid(c, s)
    decreases |run|
  {
    run == [] || (Allowed(c, s, run[0]) && AllAllowed(c, Do(c, s, run[0]), run[1..]))
  }

  ghost function Run(c: Config, s: State, run: seq<Call>): (s': State)
    requires Valid(c, s) && AllAllowed(c, s, run)
    ensures Valid(c, s')
    decreases |run|
  {
    if run == [] then s else Run(c, Do(c, s, run[0]), run[1..])
  }

  /** Who becomes runnable by a call, and who stops being it. */
  predicate Starts(s: State, x: Call, t: int) {
    match x
    case Startup(u) => t == u
    case Resumption(u) => t == u && u in s.threads && s.threads[u].stat == Suspended
    case Timeout(u) => t == u
    case _ => false
  }

  predicate Stops(s: State, x: Call, t: int) {
    match x
    case Suspension(u) => t == u
    case Closing(u) => t == u
    case Exit => t == s.current
    case _ => false
  }

  function PrioAfter(x: Call, t: int, th: Thread): nat {
    match x
    case NewPriority(u, p) => if t == u then p else th.prio
    case Startup(u) => if t == u then th.initPrio else th.prio
    case _ => th.prio
  }

  lemma OthersRunnable(s: State, s': State, t: int)
    requires OthersKeep(s, s', t)
    ensures forall u :: u != t ==> (Runnable(s', u) <==> Runnable(s, u))
    ensures forall u :: u != t && u in s.threads ==> u in s'.threads && s'.threads[u].prio == s.threads[u].prio
  {
    hide SameButFor;
    assert forall u :: u in s'.threads <==> u in s.threads by { assert s'.threads.Keys == s.threads.Keys; }
  }

  ghost predicate AsCalled(s: State, x: Call, s': State, t: int) {
    && (Runnable(s', t) <==> (Runnable(s, t) && !Stops(s, x, t)) || Starts(s, x, t))
    && (t in s.threads ==> t in s'.threads && s'.threads[t].prio == PrioAfter(x, t, s.threads[t]))
  }

  /** Exactly the threads that a call starts become runnable, exactly those that it stops cease to be, and nobody
      else; priorities change only where a thread is started or given a new one. */
  lemma CallMeans(c: Config, s: State, x: Call, t: int)
    requires Valid(c, s) && Allowed(c, s, x)
    ensures AsCalled(s, x, Do(c, s, x), t)
  {
    hide Valid, Do, AsCalled;
    match x {
      case Startup(u) => StartupMeans(c, s, u, t);
      case Suspension(u) => SuspensionMeans(c, s, u, t);
      case Resumption(u) => ResumptionMeans(c, s, u, t);
      case Timeout(u) => TimeoutMeans(c, s, u, t);
      case NewPriority(u, p) => NewPriorityMeans(c, s, u, p, t);
      case Closing(u) => ClosingMeans(c, s, u, t);
      case Exit => ExitMeans(c, s, t);
      case _ => OthersCalled(c, s, x, t);
    }
  }

  lemma StartupMeans(c: Config, s: State, u: int, t: int)
    requires Valid(c, s) && Allowed(c, s, Startup(u))
    ensures AsCalled(s, Startup(u), Do(c, s, Startup(u)), t)
  {
    SizedOf(c, s);
    hide Core, MakeReady, Schedule, LastIn, OthersKeep;
    MakeReadyValid(c, s, u);
    MakeReadyMeans(c, s, u);
    var s1 := MakeReady(c, s, u);
    OthersRunnable(s, s1, u);
    if s1.current != NOBODY { AfterSchedule(c, s1, t); }
  }

  lemma SuspensionMeans(c: Config, s: State, u: int, t: int)
    requires Valid(c, s) && Allowed(c, s, Suspension(u))
    ensures AsCalled(s, Suspension(u), Do(c, s, Suspension(u)), t)
  {
    SizedOf(c, s);
    hide Core, Suspend, Nowhere, OthersKeep;
    SuspendMeans(c, s, u);
    if Suspend(c, s, u).1 { OthersRunnable(s, Suspend(c, s, u).0, u); }
  }

  lemma ResumptionMeans(c: Config, s: State, u: int, t: int)
    requires Valid(c, s) && Allowed(c, s, Resumption(u))
    ensures AsCalled(s, Resumption(u), Do(c, s, Resumption(u)), t)
  {
    SizedOf(c, s);
    hide Core, Resume, LastIn, OthersKeep;
    ResumeMeans(c, s, u);
    if Resume(c, s, u).1 { OthersRunnable(s, Resume(c, s, u).0, u); }
  }

  lemma NewPriorityMeans(c: Config, s: State, u: int, p: nat, t: int)
    requires Valid(c, s) && Allowed(c, s, NewPriority(u, p))
    ensures AsCalled(s, NewPriority(u, p), Do(c, s, NewPriority(u, p)), t)
  {
    SizedOf(c, s);
    hide Core, ChangePriority, LastIn, Nowhere, OthersKeep;
    ChangePriorityMeans(c, s, u, p);
    OthersRunnable(s, ChangePriority(c, s, u, p), u);
  }

  lemma TimeoutMeans(c: Config, s: State, u: int, t: int)
    requires Valid(c, s) && Allowed(c, s, Timeout(u))
    ensures AsCalled(s, Timeout(u), Do(c, s, Timeout(u)), t)
  {
    SizedOf(c, s);
    hide Core, Insert, Schedule, LastIn, Nowhere, OthersKeep;
    InsertValid(c, s, u);
    NotQueuedNowhere(c, s, u);
    InsertMeans(c, s, u);
    var s1 := Insert(c, s, u);
    CurrentKept(s, s1, u);
    OthersRunnable(s, s1, u);
    AfterSchedule(c, s1, t);
  }

  lemma CurrentKept(s: State, s': State, t: int)
    requires OthersKeep(s, s', t)
    ensures s'.current == s.current && s'.lock == s.lock
  {
    hide SameButFor;
  }

  lemma ClosedRunnable(c: Config, s: State, u: int, t: int)
    requires Valid(c, s) && u in s.threads && s.threads[u].stat != Closed
    ensures Sized(c, s)
    ensures var s' := Close(c, s, u);
      && (Runnable(s', t) <==> Runnable(s, t) && t != u)
      && (t in s.threads ==> t in s'.threads && s'.threads[t].prio == s.threads[t].prio)
  {
    SizedOf(c, s);
    hide Core, Close, Nowhere, OthersKeep;
    CloseMeans(c, s, u);
    OthersRunnable(s, Close(c, s, u), u);
  }

  lemma ClosingMeans(c: Config, s: State, u: int, t: int)
    requires Valid(c, s) && Allowed(c, s, Closing(u))
    ensures AsCalled(s, Closing(u), Do(c, s, Closing(u)), t)
  {
    hide Core, Close;
    ClosedRunnable(c, s, u, t);
  }

  lemma ExitMeans(c: Config, s: State, t: int)
    requires Valid(c, s) && Allowed(c, s, Exit)
    ensures AsCalled(s, Exit, Do(c, s, Exit), t)
  {
    SizedOf(c, s);
    hide Core, Close, Schedule;
    CloseValid(c, s, s.current);
    ClosedRunnable(c, s, s.current, t);
    AfterSchedule(c, Close(c, s, s.current), t);
  }

  /** The other calls start and stop nobody. */
  lemma OthersCalled(c: Config, s: State, x: Call, t: int)
    requires Valid(c, s) && Allowed(c, s, x)
    requires x.Creation? || x.Yield? || x.TimeTick? || x.Lock? || x.Unlock? || x.Launch?
    ensures AsCalled(s, x, Do(c, s, x), t)
  {
    hide Core, Schedule, Tick, Start;
    match x {
      case Yield => AfterSchedule(c, s, t);
      case TimeTick => TickRunnable(c, s, t);
      case Unlock =>
        var s1 := s.(lock := Left(s.lock));
        LockValid(c, s, Left(s.lock));
        if s1.lock == 0 && s1.current != NOBODY { AfterSchedule(c, s1, t); }
      case Launch => LaunchMeans(c, s);
      case _ =>
    }
  }

  lemma AfterSchedule(c: Config, s: State, t: int)
    requires Valid(c, s) && s.current != NOBODY
    ensures Valid(c, Schedule(c, s)) && (Runnable(Schedule(c, s), t) <==> Runnable(s, t))
    ensures t in s.threads ==> t in Schedule(c, s).threads && Schedule(c, s).threads[t].prio == s.threads[t].prio
  {
    hide Valid, Schedule;
    ScheduleValid(c, s);
    ScheduleKeeps(c, s, t);
    if t in s.threads { assert Schedule(c, s).threads[t].(stat := Init).prio == s.threads[t].(stat := Init).prio; }
  }

  lemma TickIs(c: Config, s: State)
    requires Valid(c, s) && s.current in s.threads && s.current != NOBODY
    ensures var th := s.threads[s.current];
      || Tick(c, s) == SetThread(s, s.current, th.(remaining := (th.remaining - 1) % WORD))
      || (Valid(c, SetThread(s, s.current, th.(remaining := th.initTick)))
          && Tick(c, s) == Schedule(c, SetThread(s, s.current, th.(remaining := th.initTick))))
  {
    hide Core, Schedule;
    RemainingValid(c, s, s.threads[s.current].initTick);
  }

  lemma TickRunnable(c: Config, s: State, t: int)
    requires Valid(c, s) && s.current != NOBODY
    ensures Runnable(Tick(c, s), t) <==> Runnable(s, t)
    ensures t in s.threads ==> t in Tick(c, s).threads && Tick(c, s).threads[t].prio == s.threads[t].prio
  {
    SizedOf(c, s);
    hide Valid, Schedule, Runnable, SetThread, Tick;
    TickIs(c, s);
    var th := s.threads[s.current];
    var left := (th.remaining - 1) % WORD;
    RemainingRunnable(s, left, t);
    RemainingRunnable(s, th.initTick, t);
    var s1 := SetThread(s, s.current, th.(remaining := th.initTick));
    if Valid(c, s1) { AfterSchedule(c, s1, t); }
  }

  lemma RemainingRunnable(s: State, ticks: nat, t: int)
    requires s.current in s.threads
    ensures var s' := SetThread(s, s.current, s.threads[s.current].(remaining := ticks));
      && s'.current == s.current && (Runnable(s', t) <==> Runnable(s, t))
      && (t in s.threads ==> t in s'.threads && s'.threads[t].prio == s.threads[t].prio)
  {
  }

  /** The first thread to run is the first of the most urgent ones. */
  lemma LaunchMeans(c: Config, s: State)
    requires Valid(c, s) && s.group != 0 && s.current == NOBODY
    ensures var s' := Start(c, s);
      && IsRunning(s', s'.current) && s'.threads == s.threads[s'.current := s.threads[s'.current].(stat := Running)]
      && IsReady(s, s'.current)
      && (forall t :: IsReady(s, t) ==> s.threads[s'.current].prio <= s.threads[t].prio)
      && s.queues[s.threads[s'.current].prio][0] == s'.current
  {
    hide BitsOk, Masked;
    StartValid(c, s);
    var to := Best(c, s).1;
    forall t | IsReady(s, t) ensures s.threads[to].prio <= s.threads[t].prio {
      assert ThreadOk(c, s, t) && Filled(s.queues, s.threads[t].prio);
    }
  }

  /** Calls that end in the scheduler leave no ready thread more urgent than the current one, unless the scheduler
      is locked. */
  lemma CallUrgent(c: Config, s: State, x: Call)
    requires Valid(c, s) && Allowed(c, s, x) && s.current != NOBODY
    requires x.Startup? || x.Timeout? || x.Exit? || x.Yield? || x.Unlock?
    ensures var s' := Do(c, s, x); s'.lock == 0 ==>
      forall t :: IsReady(s', t) ==> IsRunning(s', s'.current) && s'.threads[s'.current].prio <= s'.threads[t].prio
    ensures Do(c, s, x).lock == if x.Unlock? && s.lock > 0 then s.lock - 1 else s.lock
  {
    SizedOf(c, s);
    hide Core, Insert, MakeReady, Schedule, LastIn, Nowhere;
    match x {
      case Startup(u) => MakeReadyValid(c, s, u); MakeReadyMeans(c, s, u); Scheduled(c, MakeReady(c, s, u));
      case Timeout(u) =>
        InsertValid(c, s, u);
        NotQueuedNowhere(c, s, u);
        InsertMeans(c, s, u);
        Scheduled(c, Insert(c, s, u));
      case Exit => CloseValid(c, s, s.current); CloseMeans(c, s, s.current); Scheduled(c, Close(c, s, s.current));
      case Yield => Scheduled(c, s);
      case Unlock =>
        LockValid(c, s, Left(s.lock));
        if Left(s.lock) == 0 { Scheduled(c, s.(lock := 0)); }
    }
  }

  /** A locked scheduler switches to nobody, and locks nest. */
  lemma LockMeans(c: Config, s: State)
    requires Valid(c, s) && s.current != NOBODY
    ensures Do(c, s, Lock) == s.(lock := s.lock + 1)
    ensures s.lock > 0 ==> Schedule(c, s) == s && Do(c, s, Yield) == s && Do(c, Do(c, s, Lock), Unlock) == s
  {
    hide Core, Best, Dispatch, Insert;
    if s.lock > 0 { ScheduleStays(c, s); }
  }

  lemma Scheduled(c: Config, s: State)
    requires Valid(c, s) && s.current != NOBODY
    ensures Schedule(c, s).lock == s.lock
    ensures var s' := Schedule(c, s); s.lock == 0 ==>
      forall t :: IsReady(s', t) ==> IsRunning(s', s'.current) && s'.threads[s'.current].prio <= s'.threads[t].prio
  {
    if s.lock == 0 {
      ScheduleUrgent(c, s);
      LockStays(c, s);
    }
  }

  lemma LockStays(c: Config, s: State)
    requires Valid(c, s) && s.current != NOBODY && s.lock == 0
    ensures Schedule(c, s).lock == s.lock
  {
    hide BitsOk, Masked, TopLevel;
    if s.group == 0 || (IsRunning(s, s.current) && s.threads[s.current].prio < Best(c, s).0) {
      ScheduleStays(c, s);
    } else {
      ScheduleSwitches(c, s);
    }
  }

  /** In every run the ready threads are exactly the queued ones, each once and at its own priority;
      the bits say which queues hold threads; and only the current thread runs. */
  lemma EveryRun(c: Config, run: seq<Call>)
    requires Legal(c) && Valid(c, Fresh(c)) && AllAllowed(c, Fresh(c), run)
    ensures var s := Run(c, Fresh(c), run);
      && (forall t :: IsReady(s, t) <==> exists p: nat :: p < |s.queues| && t in s.queues[p])
      && (forall p: nat, t :: p < |s.queues| && t in s.queues[p] ==> IsReady(s, t) && s.threads[t].prio == p)
      && (forall p: nat :: p < |s.queues| ==> Distinct(s.queues[p]))
      && (forall t :: IsRunning(s, t) ==> t == s.current)
      && (forall p: nat :: p < c.levels && !Wide(c) ==> (Bit(s.group, p) <==> s.queues[p] != []))
      && (forall p: nat :: p < c.levels && Wide(c) ==> (Bit(s.table[p / 8], p % 8) <==> s.queues[p] != []))
  {
    hide Bit, Do;
    var s := Run(c, Fresh(c), run);
    forall p: nat | p < |s.queues|
      ensures Distinct(s.queues[p]) && forall t :: t in s.queues[p] ==> IsReady(s, t) && s.threads[t].prio == p
    {
      assert QueueOk(s, NOBODY, p);
      forall t | t in s.queues[p] ensures IsReady(s, t) && s.threads[t].prio == p { assert Entry(s, NOBODY, p, t); }
    }
    forall t | IsReady(s, t) ensures exists p: nat :: p < |s.queues| && t in s.queues[p] {
      assert ThreadOk(c, s, t);
      assert t in s.queues[s.threads[t].prio];
    }
    forall p: nat | p < c.levels && Wide(c) ensures Bit(s.table[p / 8], p % 8) <==> s.queues[p] != [] {
      assert ByteOk(s.queues, s.table[p / 8], p / 8);
      assert FilledAt(s.queues, p / 8, p % 8) <==> Filled(s.queues, p) by { assert p == 8 * (p / 8) + p % 8; }
    }
    forall p: nat | p < c.levels && !Wide(c) ensures Bit(s.group, p) <==> s.queues[p] != [] {
      assert Bit(s.group, p) <==> Filled(s.queues, p);
    }
  }
}

module Scheduler {
  import opened Bits
  import opened Ring
  import opened SchedulerSpec

  /** Every queue is free of repetitions, also after a thread that is not queued joins one. */
  lemma Queues(c: Config, s: State, t: int)
    requires SchedulerSpec.Valid(c, s) && t in s.threads
    ensures Sized(c, s) && forall p: nat :: p < |s.queues| ==> Distinct(s.queues[p])
    ensures !IsReady(s, t) ==> forall p: nat :: p < |s.queues| ==> Distinct(s.queues[p] + [t])
  {
    forall p: nat | p < |s.queues|
      ensures Distinct(s.queues[p]) && (!IsReady(s, t) ==> Distinct(s.queues[p] + [t]))
    {
      assert QueueOk(s, NOBODY, p);
      if !IsReady(s, t) {
        NotQueued(c, s, t);
        InsertDistinct(s.queues[p], |s.queues[p]|, t);
        assert InsertAt(s.queues[p], |s.queues[p]|, t) == s.queues[p] + [t];
      }
    }
  }

  lemma InitPrio(c: Config, s: State, t: int)
    requires Sized(c, s) && t in s.threads
    ensures s.threads[t].initPrio < c.levels
  {
  }

  lemma SizedStep(c: Config, s: State, t: int, th: Thread)
    requires Sized(c, s) && t in s.threads && ThreadSized(c, th)
    ensures Sized(c, SetThread(s, t, th))
  {
  }

  /** The scheduler's variables with the thread objects it works on. */
  class Kernel {
    const c: Config
    var threads: map<int, Thread>
    var queues: seq<seq<int>>
    var group: nat
    var table: seq<nat>
    var current: int
    var lock: nat

    ghost function Abs(): State
      reads this
    {
      State(threads, queues, group, table, current, lock)
    }

    ghost predicate Valid()
      reads this
    {
      SchedulerSpec.Valid(c, Abs())
    }

    /** rt_system_scheduler_init */
    constructor (c: Config)
      requires Legal(c)
      ensures this.c == c && Abs() == Fresh(c) && Valid()
    {
      this.c := c;
      threads, group, current, lock := map[], 0, NOBODY, 0;
      queues, table := seq(c.levels, _ => []), seq(32, _ => 0);
      new;
      FreshValid(c);
    }

    /** rt_thread_init */
    method Create(t: int, p: nat, ticks: nat)
      requires Valid() && Allowed(c, Abs(), Creation(t, p, ticks))
      modifies this
      ensures Valid() && Abs() == Do(c, old(Abs()), Creation(t, p, ticks))
    {
      ghost var s' := Do(c, Abs(), Creation(t, p, ticks));
      threads := threads[t := Thread(Init, p, p, 0, 0, 0, ticks, ticks)];
    }

    /** rt_schedule_insert_thread */
    method InsertThread(t: int)
      requires Sized(c, Abs()) && t in threads
      modifies this
      ensures Abs() == Insert(c, old(Abs()), t)
    {
      if t == current {
        threads := threads[t := threads[t].(stat := Running)];
        return;
      }
      threads := threads[t := threads[t].(stat := Ready)];
      var th := threads[t];
      queues := queues[th.prio := queues[th.prio] + [t]];
      if c.levels > 32 {
        table := table[th.number := Or(table[th.number], th.highMask)];
      }
      group := Or(group, th.numberMask);
    }

    /** rt_schedule_remove_thread */
    method RemoveThread(t: int)
      requires Sized(c, Abs()) && t in threads && Distinct(queues[threads[t].prio])
      modifies this
      ensures Abs() == Remove(c, old(Abs()), t)
    {
      var th := threads[t];
      var q := queues[th.prio];
      if t in q {
        var i :| 0 <= i < |q| && q[i] == t;
        IndexUnique(q, i);
        queues := queues[th.prio := RemoveAt(q, i)];
      }
      if queues[th.prio] == [] {
        if c.levels > 32 {
          table := table[th.number := AndNot(table[th.number], th.highMask)];
          if table[th.number] == 0 {
            group := AndNot(group, th.numberMask);
          }
        } else {
          group := AndNot(group, th.numberMask);
        }
      }
    }

    /** _get_highest_priority_thread */
    method GetHighest() returns (level: nat, t: int)
      requires Valid() && group != 0
      ensures (level, t) == Best(c, Abs())
    {
      hide Bit, Ffs, Shl, TableOk, GroupOk, QueueOk, ThreadOk, CurrentOk;
      LookUp(c, queues, group, table);
      if c.levels > 32 {
        var number := Ffs(group) - 1;
        level := 8 * number + Ffs(table[number]) - 1;
      } else {
        level := Ffs(group) - 1;
      }
      assert level == Best(c, Abs()).0;
      t := queues[level][0];
    }

    /** rt_schedule */
    method Reschedule()
      requires Valid() && current != NOBODY
      modifies this
      ensures Valid() && Abs() == Schedule(c, old(Abs()))
    {
      hide BitsOk, Masked;
      ghost var s := Abs();
      ScheduleValid(c, s);
      if lock == 0 && group != 0 {
        var insertFrom := false;
        var level, to := GetHighest();
        if threads[current].stat == Running {
          if threads[current].prio < level {
            to := current;
          } else {
            insertFrom := true;
          }
        }
        if to != current {
          var from := current;
          current := to;
          Queues(c, s, if insertFrom then from else to);
          if insertFrom {
            InsertThread(from);
          }
          RemoveThread(to);
          threads := threads[to := threads[to].(stat := Running)];
        } else {
          Queues(c, s, to);
          RemoveThread(current);
          threads := threads[current := threads[current].(stat := Running)];
        }
      }
    }

    /** current_priority and what is computed from it */
    method SetPriority(t: int, p: nat)
      requires t in threads && p < c.levels
      modifies this`threads
      ensures threads == old(threads)[t := WithPriority(c, old(threads)[t], p)]
    {
      threads := threads[t := threads[t].(prio := p)];
      if c.levels > 32 {
        var number := p / 8;
        threads := threads[t := threads[t].(number := number, numberMask := Shl(number), highMask := Shl(p % 8))];
      } else {
        threads := threads[t := threads[t].(numberMask := Shl(p))];
      }
    }

    /** rt_thread_resume */
    method ResumeThread(t: int) returns (ok: bool)
      requires Sized(c, Abs()) && t in threads
      modifies this
      ensures (Abs(), ok) == Resume(c, old(Abs()), t)
    {
      if threads[t].stat != Suspended {
        return false;
      }
      InsertThread(t);
      ok := true;
    }

    /** rt_thread_startup */
    method StartThread(t: int)
      requires Valid() && Allowed(c, Abs(), Call.Startup(t))
      modifies this
      ensures Valid() && Abs() == Do(c, old(Abs()), Call.Startup(t))
    {
      hide Core;
      ghost var s := Abs();
      SizedOf(c, s);
      MakeReadyValid(c, s, t);
      InitPrio(c, s, t);
      SetPriority(t, threads[t].initPrio);
      threads := threads[t := threads[t].(stat := Suspended)];
      assert threads == s.threads[t := WithPriority(c, s.threads[t], s.threads[t].initPrio).(stat := Suspended)];
      SizedStep(c, s, t, threads[t]);
      var ok := ResumeThread(t);
      if current != NOBODY {
        Reschedule();
      }
    }

    /** rt_thread_suspend */
    method SuspendThread(t: int) returns (ok: bool)
      requires Valid() && t in threads
      modifies this
      ensures Valid() && (Abs(), ok) == Suspend(c, old(Abs()), t)
    {
      hide BitsOk, Masked;
      ghost var s := Abs();
      SuspendValid(c, s, t);
      var stat := threads[t].stat;
      if stat != Ready && stat != Running {
        return false;
      }
      Queues(c, s, t);
      RemoveThread(t);
      threads := threads[t := threads[t].(stat := Suspended)];
      ok := true;
    }

    /** rt_thread_timeout */
    method TimeoutThread(t: int)
      requires Valid() && Allowed(c, Abs(), Call.Timeout(t))
      modifies this
      ensures Valid() && Abs() == Do(c, old(Abs()), Call.Timeout(t))
    {
      hide Core;
      SizedOf(c, Abs());
      InsertValid(c, Abs(), t);
      InsertThread(t);
      Reschedule();
    }

    /** The change-priority command of rt_thread_control */
    method ControlPriority(t: int, p: nat)
      requires Valid() && t in threads && p < c.levels
      modifies this
      ensures Valid() && Abs() == ChangePriority(c, old(Abs()), t, p)
    {
      hide BitsOk, Masked;
      ghost var s := Abs();
      ChangePriorityValid(c, s, t, p);
      if threads[t].stat == Ready {
        Queues(c, s, t);
        RemoveThread(t);
        SetPriority(t, p);
        InsertThread(t);
      } else {
        SetPriority(t, p);
      }
    }

    /** rt_thread_detach and rt_thread_delete */
    method CloseThread(t: int)
      requires Valid() && t in threads && threads[t].stat != Closed
      modifies this
      ensures Valid() && Abs() == Close(c, old(Abs()), t)
    {
      hide BitsOk, Masked;
      ghost var s := Abs();
      CloseValid(c, s, t);
      if threads[t].stat != Init {
        Queues(c, s, t);
        RemoveThread(t);
      }
      threads := threads[t := threads[t].(stat := Closed)];
    }

    /** rt_thread_exit */
    method ExitThread()
      requires Valid() && Allowed(c, Abs(), Call.Exit)
      modifies this
      ensures Valid() && Abs() == Do(c, old(Abs()), Call.Exit)
    {
      hide BitsOk, Masked;
      ghost var s := Abs();
      CloseValid(c, s, current);
      Queues(c, s, current);
      RemoveThread(current);
      threads := threads[current := threads[current].(stat := Closed)];
      Reschedule();
    }

    /** The time slice part of rt_tick_increase */
    method TickIncrease()
      requires Valid() && current != NOBODY
      modifies this
      ensures Valid() && Abs() == Tick(c, old(Abs()))
    {
      hide Core;
      ghost var s := Abs();
      SizedOf(c, s);
      TickValid(c, s);
      RemainingValid(c, s, threads[current].initTick);
      threads := threads[current := threads[current].(remaining := (threads[current].remaining - 1) % WORD)];
      if threads[current].remaining == 0 {
        threads := threads[current := threads[current].(remaining := threads[current].initTick)];
        assert threads == s.threads[current := s.threads[current].(remaining := s.threads[current].initTick)];
        Reschedule();
      }
    }

    /** rt_enter_critical */
    method EnterCritical()
      requires Valid()
      modifies this`lock
      ensures Valid() && Abs() == Do(c, old(Abs()), Call.Lock)
    {
      hide Core;
      LockValid(c, Abs(), lock + 1);
      lock := lock + 1;
    }

    /** rt_exit_critical */
    method ExitCritical()
      requires Valid()
      modifies this
      ensures Valid() && Abs() == Do(c, old(Abs()), Call.Unlock)
    {
      hide Core;
      LockValid(c, Abs(), Left(lock));
      var left: int := lock - 1;
      if left <= 0 {
        lock := 0;
        if current != NOBODY {
          Reschedule();
        }
      } else {
        lock := left;
      }
    }

    /** rt_system_scheduler_start */
    method StartScheduler()
      requires Valid() && Allowed(c, Abs(), Call.Launch)
      modifies this
      ensures Valid() && Abs() == Start(c, old(Abs()))
    {
      hide BitsOk, Masked;
      ghost var s := Abs();
      StartValid(c, s);
      var _, to := GetHighest();
      current := to;
      Queues(c, s, to);
      RemoveThread(to);
      threads := threads[to := threads[to].(stat := Running)];
    }
  }
}
