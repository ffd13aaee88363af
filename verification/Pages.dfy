/** The page allocator under the slab allocator (src/slab.c:236-334): a singly linked list of
    free page runs in address order.  Addresses are counted in pages. */
module PageList {

  datatype Run = Run(start: int, len: int)

  /** The n pages from s on. */
  function Interval(s: int, n: int): (pages: set<int>)
    ensures forall p :: p in pages <==> s <= p < s + n
    decreases n
  {
    if n <= 0 then {} else Interval(s, n - 1) + {s + n - 1}
  }

  lemma IntervalJoin(s: int, n: int, m: int)
    requires n >= 0 && m >= 0
    ensures Interval(s, n + m) == Interval(s, n) + Interval(s + n, m)
  {
  }

  /** The free pages a list stands for. */
  function PagesOf(runs: seq<Run>): set<int> {
    if runs == [] then {} else Interval(runs[0].start, runs[0].len) + PagesOf(runs[1..])
  }

  ghost predicate Separate(runs: seq<Run>, i: int)
    requires 0 <= i < |runs|
  {
    runs[i].len > 0 && (i + 1 < |runs| ==> runs[i].start + runs[i].len < runs[i + 1].start)
  }

  /** Non-empty runs in address order with a gap between neighbours: maximal runs. */
  ghost predicate Canonical(runs: seq<Run>) {
    forall i :: 0 <= i < |runs| ==> Separate(runs, i)
  }

  // ---------------------------------------------------------------- the list and its pages

  lemma {:induction false} PagesConcat(a: seq<Run>, b: seq<Run>)
    ensures PagesOf(a + b) == PagesOf(a) + PagesOf(b)
  {
    if a == [] {
      assert a + b == b;
    } else {
      assert (a + b)[1..] == a[1..] + b;
      PagesConcat(a[1..], b);
    }
  }

  lemma PagesOne(r: Run)
    ensures PagesOf([r]) == Interval(r.start, r.len)
  {
    assert [r][1..] == [];
  }

  lemma PagesAround(runs: seq<Run>, i: nat)
    requires i < |runs|
    ensures PagesOf(runs) == PagesOf(runs[..i]) + Interval(runs[i].start, runs[i].len) + PagesOf(runs[i + 1..])
  {
    assert runs == runs[..i] + ([runs[i]] + runs[i + 1..]);
    PagesConcat(runs[..i], [runs[i]] + runs[i + 1..]);
    PagesConcat([runs[i]], runs[i + 1..]);
    PagesOne(runs[i]);
  }

  lemma PagesTail(runs: seq<Run>)
    requires runs != []
    ensures PagesOf(runs) == Interval(runs[0].start, runs[0].len) + PagesOf(runs[1..])
  {
  }

  lemma CanonicalPart(runs: seq<Run>, i: nat)
    requires Canonical(runs) && i <= |runs|
    ensures Canonical(runs[..i]) && Canonical(runs[i..])
  {
    forall t | 0 <= t < i ensures Separate(runs[..i], t) {
      assert Separate(runs, t);
    }
    forall t | 0 <= t < |runs| - i ensures Separate(runs[i..], t) {
      assert Separate(runs, i + t);
    }
  }

  lemma {:induction false} Before(runs: seq<Run>, i: nat, j: nat)
    requires Canonical(runs) && i < j < |runs|
    ensures runs[i].start + runs[i].len < runs[j].start
    decreases j
  {
    assert Separate(runs, j - 1) && Separate(runs, i);
    if i + 1 < j { Before(runs, i, j - 1); }
  }

  /** Every page of a canonical list lies at or behind its first run. */
  lemma {:induction false} PagesFrom(runs: seq<Run>)
    requires Canonical(runs) && runs != []
    ensures forall p :: p in PagesOf(runs) ==> p >= runs[0].start
    decreases |runs|
  {
    assert Separate(runs, 0);
    if |runs| > 1 {
      CanonicalPart(runs, 1);
      PagesFrom(runs[1..]);
    } else {
      assert runs == [runs[0]];
      PagesOne(runs[0]);
    }
  }

  lemma {:induction false} PagesUpTo(runs: seq<Run>)
    requires Canonical(runs) && runs != []
    ensures forall p :: p in PagesOf(runs) ==> p < runs[|runs| - 1].start + runs[|runs| - 1].len
    decreases |runs|
  {
    assert Separate(runs, |runs| - 1);
    if |runs| > 1 {
      Before(runs, 0, |runs| - 1);
      CanonicalPart(runs, 1);
      PagesUpTo(runs[1..]);
    } else {
      assert runs == [runs[0]];
      PagesOne(runs[0]);
    }
  }

  /** The page right behind a run is not free. */
  lemma EndNotFree(runs: seq<Run>, i: nat)
    requires Canonical(runs) && i < |runs|
    ensures runs[i].start + runs[i].len !in PagesOf(runs)
    ensures runs[i].start - 1 !in PagesOf(runs)
    ensures Interval(runs[i].start, runs[i].len) <= PagesOf(runs)
  {
    PagesAround(runs, i);
    assert Separate(runs, i);
    if i > 0 {
      CanonicalPart(runs, i);
      PagesUpTo(runs[..i]);
      Before(runs, i - 1, i);
    }
    if i + 1 < |runs| {
      CanonicalPart(runs, i + 1);
      PagesFrom(runs[i + 1..]);
    }
  }

  /** The list is determined by its set of pages. */
  lemma {:induction false} Unique(r: seq<Run>, s: seq<Run>)
    requires Canonical(r) && Canonical(s) && PagesOf(r) == PagesOf(s)
    ensures r == s
    decreases |r|
  {
    if r == [] || s == [] {
      SomePages(r);
      SomePages(s);
    } else {
      FirstRun(r, s);
      CanonicalPart(r, 1);
      CanonicalPart(s, 1);
      RestPages(r);
      RestPages(s);
      Unique(r[1..], s[1..]);
      assert r == [r[0]] + r[1..] && s == [s[0]] + s[1..];
    }
  }

  lemma SomePages(r: seq<Run>)
    requires Canonical(r)
    ensures r == [] <==> PagesOf(r) == {}
  {
    if r != [] { assert Separate(r, 0) && r[0].start in Interval(r[0].start, r[0].len); }
  }

  lemma FirstRun(r: seq<Run>, s: seq<Run>)
    requires Canonical(r) && Canonical(s) && PagesOf(r) == PagesOf(s) && r != [] && s != []
    ensures r[0] == s[0]
  {
    PagesFrom(r);
    PagesFrom(s);
    EndNotFree(r, 0);
    EndNotFree(s, 0);
    assert Separate(r, 0) && Separate(s, 0);
    assert r[0].start in PagesOf(r) && s[0].start in PagesOf(s);
    assert r[0].start + r[0].len !in Interval(s[0].start, s[0].len);
    assert s[0].start + s[0].len !in Interval(r[0].start, r[0].len);
  }

  lemma RestPages(r: seq<Run>)
    requires Canonical(r) && r != []
    ensures PagesOf(r[1..]) == PagesOf(r) - Interval(r[0].start, r[0].len)
  {
    assert Separate(r, 0);
    if |r| > 1 {
      CanonicalPart(r, 1);
      PagesFrom(r[1..]);
    }
  }

  // ---------------------------------------------------------------- what the operations mean

  /** n free pages in a row from b on. */
  ghost predicate Room(free: set<int>, b: int, n: int) {
    Interval(b, n) <= free
  }

  /** rt_page_alloc took the lowest place with n free pages, or there was none. */
  ghost predicate AllocStep(runs: seq<Run>, n: int, runs': seq<Run>, ok: bool, b: int) {
    && Canonical(runs')
    && (ok ==> n > 0 && Room(PagesOf(runs), b, n) && (forall p :: p < b ==> !Room(PagesOf(runs), p, n))
               && PagesOf(runs') == PagesOf(runs) - Interval(b, n))
    && (!ok ==> runs' == runs && (n == 0 || forall p :: !Room(PagesOf(runs), p, n)))
  }

  /** rt_page_free gave n pages back. */
  ghost predicate FreeStep(runs: seq<Run>, b: int, n: int, runs': seq<Run>) {
    Canonical(runs') && PagesOf(runs') == PagesOf(runs) + Interval(b, n)
  }

  /** Freeing what was just allocated restores the identical list. */
  lemma FreeUndoesAlloc(r0: seq<Run>, n: int, r1: seq<Run>, b: int, r2: seq<Run>)
    requires Canonical(r0) && AllocStep(r0, n, r1, true, b) && FreeStep(r1, b, n, r2)
    ensures r2 == r0
  {
    assert PagesOf(r2) == PagesOf(r0);
    Unique(r2, r0);
  }

  /** A free place lies inside one run. */
  lemma RoomInRun(runs: seq<Run>, p: int, n: int) returns (i: nat)
    requires Canonical(runs) && n > 0 && Room(PagesOf(runs), p, n)
    ensures i < |runs| && runs[i].start <= p && p + n <= runs[i].start + runs[i].len
  {
    assert p in Interval(p, n);
    i := RunOf(runs, p);
    EndNotFree(runs, i);
    assert runs[i].start + runs[i].len !in Interval(p, n);
  }

  lemma {:induction false} RunOf(runs: seq<Run>, p: int) returns (i: nat)
    requires p in PagesOf(runs)
    ensures i < |runs| && runs[i].start <= p < runs[i].start + runs[i].len
  {
    if p in Interval(runs[0].start, runs[0].len) {
      i := 0;
    } else {
      i := RunOf(runs[1..], p);
      i := i + 1;
    }
  }

  /** Histories of the allocator from one free run of `size` pages at `start`; only pages of that
      run that are not free are given back. */
  datatype PageOp = AllocOp(n: int, ok: bool, b: int) | FreeOp(b: int, n: int)

  ghost predicate History(start: int, size: int, ops: seq<PageOp>, lists: seq<seq<Run>>) {
    && |lists| == |ops| + 1 && lists[0] == [Run(start, size)] && size > 0
    && forall i :: 0 <= i < |ops| ==> Follows(Interval(start, size), lists, ops[i], i)
  }

  ghost predicate Follows(all: set<int>, lists: seq<seq<Run>>, op: PageOp, i: int)
    requires 0 <= i < |lists| - 1
  {
    match op
    case AllocOp(n, ok, b) => AllocStep(lists[i], n, lists[i + 1], ok, b)
    case FreeOp(b, n) =>
      && Interval(b, n) <= all && Interval(b, n) !! PagesOf(lists[i])
      && FreeStep(lists[i], b, n, lists[i + 1])
  }

  lemma {:induction false} HistoryCanonical(start: int, size: int, ops: seq<PageOp>, lists: seq<seq<Run>>, i: nat)
    requires History(start, size, ops, lists) && i < |lists|
    ensures Canonical(lists[i]) && PagesOf(lists[i]) <= Interval(start, size)
  {
    if i == 0 {
      assert Separate(lists[0], 0);
      PagesOne(lists[0][0]);
    } else {
      HistoryCanonical(start, size, ops, lists, i - 1);
      assert Follows(Interval(start, size), lists, ops[i - 1], i - 1);
    }
  }

  /** Whatever happened before, equal live pages mean equal lists. */
  lemma HistoryIndependent(start: int, size: int, ops: seq<PageOp>, lists: seq<seq<Run>>,
                           ops': seq<PageOp>, lists': seq<seq<Run>>)
    requires History(start, size, ops, lists) && History(start, size, ops', lists')
    requires Interval(start, size) - PagesOf(lists[|ops|]) == Interval(start, size) - PagesOf(lists'[|ops'|])
    ensures lists[|ops|] == lists'[|ops'|]
  {
    HistoryCanonical(start, size, ops, lists, |ops|);
    HistoryCanonical(start, size, ops', lists', |ops'|);
    var r, s, all := PagesOf(lists[|ops|]), PagesOf(lists'[|ops'|]), Interval(start, size);
    assert r == all - (all - r) && s == all - (all - s);
    Unique(lists[|ops|], lists'[|ops'|]);
  }

  // ---------------------------------------------------------------- the operations

  class PageAllocator {
    var runs: seq<Run>

    ghost predicate Valid()
      reads this
    {
      Canonical(runs)
    }

    /** rt_page_init */
    constructor (start: int, npages: nat)
      requires npages > 0
      ensures Valid() && runs == [Run(start, npages)] && PagesOf(runs) == Interval(start, npages)
    {
      runs := [Run(start, npages)];
      new;
      assert Separate(runs, 0);
      PagesOne(runs[0]);
    }

    /** rt_page_alloc */
    method Alloc(npages: nat) returns (ok: bool, b: int)
      requires Valid()
      modifies this
      ensures Valid()
      ensures AllocStep(old(runs), npages, runs, ok, b)
    {
      ok, b := false, 0;
      if npages == 0 {
        return;
      }
      for i := 0 to |runs|
        invariant runs == old(runs)
        invariant forall j :: 0 <= j < i ==> runs[j].len < npages
      {
        if runs[i].len >= npages {
          ok, b := true, runs[i].start;
          FirstFit(runs, i, npages);
          if runs[i].len > npages {
            TakeFront(runs, i, npages);
            runs := runs[i := Run(b + npages, runs[i].len - npages)];
          } else {
            TakeAll(runs, i);
            runs := runs[..i] + runs[i + 1..];
          }
          return;
        }
      }
      forall p | Room(PagesOf(runs), p, npages) ensures false {
        var i := RoomInRun(runs, p, npages);
      }
    }

    /** rt_page_free of pages that are not free now. */
    method Free(b: int, npages: nat)
      requires Valid() && npages > 0 && Interval(b, npages) !! PagesOf(runs)
      modifies this
      ensures Valid()
      ensures FreeStep(old(runs), b, npages, runs)
    {
      hide PagesOf, Interval, Canonical;
      var i := 0;
      while i < |runs|
        invariant 0 <= i <= |runs| && runs == old(runs)
        invariant i > 0 ==> runs[i - 1].start + runs[i - 1].len < b
      {
        var r := runs[i];
        Apart(runs, i, b, npages);
        if r.start + r.len == b {
          if i + 1 < |runs| && r.start + r.len + npages == runs[i + 1].start {
            Bridge(runs, i, npages);
            runs := runs[..i] + [Run(r.start, r.len + npages + runs[i + 1].len)] + runs[i + 2..];
          } else {
            Append(runs, i, npages);
            runs := runs[i := Run(r.start, r.len + npages)];
          }
          return;
        }
        if r.start == b + npages {
          Prepend(runs, i, b, npages);
          runs := runs[i := Run(b, r.len + npages)];
          return;
        }
        if r.start > b + npages {
          break;
        }
        i := i + 1;
      }
      Between(runs, i, b, npages);
      runs := runs[..i] + [Run(b, npages)] + runs[i..];
    }
  }

  // ---------------------------------------------------------------- one list edit each

  lemma FirstFit(runs: seq<Run>, i: nat, n: int)
    requires Canonical(runs) && i < |runs| && 0 < n <= runs[i].len
    requires forall j :: 0 <= j < i ==> runs[j].len < n
    ensures Room(PagesOf(runs), runs[i].start, n)
    ensures forall p :: p < runs[i].start ==> !Room(PagesOf(runs), p, n)
  {
    EndNotFree(runs, i);
    assert Separate(runs, i);
    forall p | Room(PagesOf(runs), p, n) ensures p >= runs[i].start {
      var j := RoomInRun(runs, p, n);
      if i < j { Before(runs, i, j); }
    }
  }

  lemma TakeFront(runs: seq<Run>, i: nat, n: int)
    requires Canonical(runs) && i < |runs| && 0 < n < runs[i].len
    ensures var s := runs[i := Run(runs[i].start + n, runs[i].len - n)];
      Canonical(s) && PagesOf(s) == PagesOf(runs) - Interval(runs[i].start, n)
  {
    var s := runs[i := Run(runs[i].start + n, runs[i].len - n)];
    forall t | 0 <= t < |s| ensures Separate(s, t) {
      assert Separate(runs, t);
    }
    PagesAround(runs, i);
    PagesAround(s, i);
    assert s[..i] == runs[..i] && s[i + 1..] == runs[i + 1..];
    OthersApart(runs, i);
  }

  lemma TakeAll(runs: seq<Run>, i: nat)
    requires Canonical(runs) && i < |runs|
    ensures var s := runs[..i] + runs[i + 1..];
      Canonical(s) && PagesOf(s) == PagesOf(runs) - Interval(runs[i].start, runs[i].len)
  {
    var s := runs[..i] + runs[i + 1..];
    forall t | 0 <= t < |s| ensures Separate(s, t) {
      assert Separate(runs, if t < i then t else t + 1);
      if t + 1 == i && i + 1 < |runs| { Before(runs, i - 1, i + 1); }
    }
    PagesAround(runs, i);
    PagesConcat(runs[..i], runs[i + 1..]);
    OthersApart(runs, i);
  }

  /** Run i shares no page with the rest of the list. */
  lemma OthersApart(runs: seq<Run>, i: nat)
    requires Canonical(runs) && i < |runs|
    ensures Interval(runs[i].start, runs[i].len) !! (PagesOf(runs[..i]) + PagesOf(runs[i + 1..]))
  {
    if i > 0 {
      CanonicalPart(runs, i);
      PagesUpTo(runs[..i]);
      Before(runs, i - 1, i);
    }
    if i + 1 < |runs| {
      CanonicalPart(runs, i + 1);
      PagesFrom(runs[i + 1..]);
      Before(runs, i, i + 1);
    }
  }

  /** A free run and the pages being freed do not overlap. */
  lemma Apart(runs: seq<Run>, i: nat, b: int, n: int)
    requires Canonical(runs) && i < |runs| && n > 0 && Interval(b, n) !! PagesOf(runs)
    ensures runs[i].start + runs[i].len <= b || b + n <= runs[i].start
  {
    EndNotFree(runs, i);
    assert Separate(runs, i);
    var x := if b < runs[i].start then runs[i].start else b;
    assert b <= x < b + n ==> x in Interval(b, n);
    assert runs[i].start <= x < runs[i].start + runs[i].len ==> x in Interval(runs[i].start, runs[i].len);
  }

  lemma Append(runs: seq<Run>, i: nat, n: int)
    requires Canonical(runs) && i < |runs| && n > 0
    requires Interval(runs[i].start + runs[i].len, n) !! PagesOf(runs)
    requires i + 1 < |runs| ==> runs[i].start + runs[i].len + n != runs[i + 1].start
    ensures var s := runs[i := Run(runs[i].start, runs[i].len + n)];
      FreeStep(runs, runs[i].start + runs[i].len, n, s)
  {
    hide PagesOf, Interval;
    var s := runs[i := Run(runs[i].start, runs[i].len + n)];
    forall t | 0 <= t < |s| ensures Separate(s, t) {
      assert Separate(runs, t);
      if t == i && i + 1 < |runs| { assert Separate(runs, i + 1); Apart(runs, i + 1, runs[i].start + runs[i].len, n); }
    }
    PagesAround(runs, i);
    PagesAround(s, i);
    assert s[..i] == runs[..i] && s[i + 1..] == runs[i + 1..];
    assert Separate(runs, i);
    IntervalJoin(runs[i].start, runs[i].len, n);
  }

  lemma Prepend(runs: seq<Run>, i: nat, b: int, n: int)
    requires Canonical(runs) && i < |runs| && n > 0 && runs[i].start == b + n
    requires i > 0 ==> runs[i - 1].start + runs[i - 1].len < b
    ensures var s := runs[i := Run(b, runs[i].len + n)]; FreeStep(runs, b, n, s)
  {
    hide PagesOf, Interval;
    var s := runs[i := Run(b, runs[i].len + n)];
    forall t | 0 <= t < |s| ensures Separate(s, t) {
      assert Separate(runs, t);
    }
    PagesAround(runs, i);
    PagesAround(s, i);
    assert s[..i] == runs[..i] && s[i + 1..] == runs[i + 1..];
    assert Separate(runs, i);
    IntervalJoin(b, n, runs[i].len);
  }

  lemma Bridge(runs: seq<Run>, i: nat, n: int)
    requires Canonical(runs) && i + 1 < |runs| && n > 0
    requires runs[i].start + runs[i].len + n == runs[i + 1].start
    ensures var s := runs[..i] + [Run(runs[i].start, runs[i].len + n + runs[i + 1].len)] + runs[i + 2..];
      FreeStep(runs, runs[i].start + runs[i].len, n, s)
  {
    hide PagesOf, Interval;
    var r := Run(runs[i].start, runs[i].len + n + runs[i + 1].len);
    var s := runs[..i] + [r] + runs[i + 2..];
    forall t | 0 <= t < |s| ensures Separate(s, t) {
      assert Separate(runs, if t <= i then t else t + 1);
      assert Separate(runs, i + 1);
    }
    PagesAround(runs, i);
    PagesTail(runs[i + 1..]);
    PagesAround(s, i);
    assert runs[i + 1..][1..] == runs[i + 2..];
    assert s[..i] == runs[..i] && s[i + 1..] == runs[i + 2..];
    assert Separate(runs, i) && Separate(runs, i + 1);
    IntervalJoin(r.start, runs[i].len, n);
    IntervalJoin(r.start, runs[i].len + n, runs[i + 1].len);
  }

  lemma Between(runs: seq<Run>, i: nat, b: int, n: int)
    requires Canonical(runs) && i <= |runs| && n > 0
    requires i > 0 ==> runs[i - 1].start + runs[i - 1].len < b
    requires i < |runs| ==> b + n < runs[i].start
    ensures FreeStep(runs, b, n, runs[..i] + [Run(b, n)] + runs[i..])
  {
    hide PagesOf, Interval;
    var s := runs[..i] + [Run(b, n)] + runs[i..];
    forall t | 0 <= t < |s| ensures Separate(s, t) {
      if t != i { assert Separate(runs, if t < i then t else t - 1); }
    }
    PagesAround(s, i);
    assert s[..i] == runs[..i] && s[i + 1..] == runs[i..];
    PagesConcat(runs[..i], runs[i..]);
    assert runs[..i] + runs[i..] == runs;
  }
}
