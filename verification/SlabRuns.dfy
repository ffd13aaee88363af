/** Runs of several threads in rt_malloc and rt_free of src/slab.c.

    Both calls give up the heap semaphore around rt_page_alloc and rt_page_free, so a call is up to three
    sections, and between them its pages are neither free nor those of a zone or a block. */
module SlabRuns {
  import opened Arith
  import opened PageList
  import opened SlabSpec

  /** What a thread between two sections of its call has: pages for a large block, the wish for a zone of
      class k, pages for one, or pages to give back */
  datatype InHand =
    | ForLarge(b: int, n: int)
    | NeedsZone(k: int) | ForZone(p: int, k: int)
    | Surplus(b: int, n: int)

  datatype Moment = Moment(runs: seq<Run>, s: State, hands: map<int, InHand>)

  function Pages(c: Config, x: InHand): set<int> {
    match x
    case ForLarge(b, n) => Interval(b, n)
    case NeedsZone(_) => {}
    case ForZone(p, _) => Interval(p, c.zonePages)
    case Surplus(b, n) => Interval(b, n)
  }

  predicate HandOk(c: Config, x: InHand) {
    match x
    case ForLarge(_, n) => n > 0
    case NeedsZone(k) => 0 <= k < NZONES && 0 < ChunkOf(k) <= c.limit
    case ForZone(_, k) => 0 <= k < NZONES && 0 < ChunkOf(k) <= c.limit
    case Surplus(_, n) => n > 0
  }

  /** The pages in the thread's hands are nobody else's. */
  ghost predicate HandApart(c: Config, m: Moment, t: int)
    requires t in m.hands
  {
    && HandOk(c, m.hands[t])
    && Pages(c, m.hands[t]) !! m.s.owner.Keys && Pages(c, m.hands[t]) !! PagesOf(m.runs)
    && forall u :: u in m.hands && u != t ==> Pages(c, m.hands[t]) !! Pages(c, m.hands[u])
  }

  ghost predicate Ok(c: Config, m: Moment) {
    HeapOk(c, m.runs, m.s) && forall t :: t in m.hands ==> HandApart(c, m, t)
  }

  /** A page is owned, free or in somebody's hands. */
  ghost predicate Somewhere(c: Config, m: Moment, x: int) {
    x in m.s.owner || x in PagesOf(m.runs) || exists t :: t in m.hands && x in Pages(c, m.hands[t])
  }

  // ---------------------------------------------------------------- the sections

  datatype Section =
    | FromList(n: nat) | FromIdle(n: nat) // rt_malloc without a new zone
    | Want(t: int, n: nat) | TakeZone(t: int) | OpenNew(t: int) // lines 523-602, rt_page_alloc, lines 605-663
    | TakeLarge(t: int, n: nat) | MarkLarge(t: int) // rt_page_alloc, lines 501-520
    | FreeLarge(t: int, a: int) | FreeSmall(t: int, a: int) // rt_free up to where it gives up the semaphore
    | GivePages(t: int) // rt_page_free

  predicate Small(c: Config, n: nat) {
    0 < n < c.limit <= 16384
  }

  ghost predicate Leads(c: Config, m: Moment, x: Section, m': Moment)
    requires |m.s.lists| == NZONES && c.page > 0
  {
    match x
    case FromList(n) =>
      && Small(c, n) && m'.runs == m.runs && m'.hands == m.hands
      && (ZoneIndexSpec(n); m.s.lists[ZoneIndex(n).1] != [] && exists a :: ChunkStep(m.s, ZoneIndex(n).1, m'.s, a))
    case FromIdle(n) =>
      && Small(c, n) && m'.runs == m.runs && m'.hands == m.hands
      && (ZoneIndexSpec(n); var (size, k) := ZoneIndex(n);
          m.s.lists[k] == [] && m.s.idle != [] && m'.s == OpenZone(c, m.s, size, k))
    case Want(t, n) =>
      && Small(c, n) && t !in m.hands
      && (ZoneIndexSpec(n); var k := ZoneIndex(n).1;
          m.s.lists[k] == [] && m.s.idle == [] && m' == m.(hands := m.hands[t := NeedsZone(k)]))
    case TakeZone(t) =>
      && t in m.hands && m.hands[t].NeedsZone? && m'.s == m.s
      && exists ok, p :: AllocStep(m.runs, c.zonePages, m'.runs, ok, p)
           && m'.hands == if ok then m.hands[t := ForZone(p, m.hands[t].k)] else m.hands - {t}
    case OpenNew(t) =>
      && t in m.hands && m.hands[t].ForZone?
      && var ForZone(p, k) := m.hands[t];
        0 <= k < NZONES && ChunkOf(k) > 0
        && m' == Moment(m.runs, OpenZone(c, Adopt(c, m.s, p), ChunkOf(k), k), m.hands - {t})
    case TakeLarge(t, n) =>
      && t !in m.hands && n >= c.limit && n > 0 && m'.s == m.s
      && exists ok, b :: AllocStep(m.runs, PagesFor(c, n), m'.runs, ok, b)
           && m'.hands == if ok then m.hands[t := ForLarge(b, PagesFor(c, n))] else m.hands
    case MarkLarge(t) =>
      && t in m.hands && m.hands[t].ForLarge?
      && m' == Moment(m.runs, GrantLarge(c, m.s, m.hands[t].b, m.hands[t].n), m.hands - {t})
    case FreeLarge(t, a) =>
      && t !in m.hands && a in m.s.live && m.s.live[a].Large?
      && m' == Moment(m.runs, DropLarge(c, m.s, a), m.hands[t := Surplus(m.s.live[a].b, m.s.live[a].n)])
    case FreeSmall(t, a) =>
      && t !in m.hands && a in m.s.live && m.s.live[a].Small? && m.s.live[a].z in m.s.zones
      && m'.runs == m.runs && PutSection(c, m, t, PutChunk(m.s, a), m.s.live[a].z, m')
    case GivePages(t) =>
      && t in m.hands && m.hands[t].Surplus?
      && FreeStep(m.runs, m.hands[t].b, m.hands[t].n, m'.runs) && m'.s == m.s && m'.hands == m.hands - {t}
  }

  /** Lines 853-889, the chunk being back in zone p */
  ghost predicate PutSection(c: Config, m: Moment, t: int, s1: State, p: int, m': Moment) {
    && p in s1.zones
    && var k := s1.zones[p].zi;
      && 0 <= k < |s1.lists| && s1.lists[k] != []
      && if s1.zones[p].nfree == s1.zones[p].nmax && s1.lists[k] != [p] then
           var s2 := Park(s1, p);
           if |s2.idle| > RELEASE_THRESH then
             m'.s == Dismiss(c, s2) && m'.hands == m.hands[t := Surplus(s2.idle[0], c.zonePages)]
           else m'.s == s2 && m'.hands == m.hands
         else m'.s == s1 && m'.hands == m.hands
  }

  // ---------------------------------------------------------------- what every section keeps

  /** Pages go from the free list into the hands of t. */
  lemma TakeKeeps(c: Config, m: Moment, n: nat, m': Moment, t: int, b: int, x: InHand)
    requires Ok(c, m) && AllocStep(m.runs, n, m'.runs, true, b) && Pages(c, x) == Interval(b, n) && HandOk(c, x)
    requires t in m.hands ==> Pages(c, m.hands[t]) == {}
    requires m'.s == m.s && m'.hands == m.hands[t := x]
    ensures Ok(c, m') && forall y :: Somewhere(c, m', y) <==> Somewhere(c, m, y)
  {
    hide Interval, PagesOf, Canonical, Inv, Sane;
    forall u | u in m'.hands ensures HandApart(c, m', u) {
      if u != t { assert HandApart(c, m, u); }
      forall v | v in m'.hands && v != u ensures Pages(c, m'.hands[u]) !! Pages(c, m'.hands[v]) {
        if v != t { assert HandApart(c, m, v); }
      }
    }
    forall y ensures Somewhere(c, m', y) <==> Somewhere(c, m, y) {
      if y in Interval(b, n) { assert t in m'.hands && y in Pages(c, m'.hands[t]); }
      MovesHand(c, m, m', t, y);
    }
  }

  /** Nobody's hands but those of t changed. */
  lemma MovesHand(c: Config, m: Moment, m': Moment, t: int, y: int)
    requires forall u :: u != t ==> (u in m'.hands <==> u in m.hands) && (u in m.hands && u in m'.hands ==> m'.hands[u] == m.hands[u])
    ensures (exists u :: u in m.hands && y in Pages(c, m.hands[u])) ==>
              (exists u :: u in m'.hands && y in Pages(c, m'.hands[u])) || (t in m.hands && y in Pages(c, m.hands[t]))
    ensures (exists u :: u in m'.hands && y in Pages(c, m'.hands[u])) ==>
              (exists u :: u in m.hands && y in Pages(c, m.hands[u])) || (t in m'.hands && y in Pages(c, m'.hands[t]))
  {
    hide Pages;
  }

  /** Pages go from the hands of t to a zone or a block, or to the free list. */
  lemma PlaceKeeps(c: Config, m: Moment, m': Moment, t: int)
    requires Ok(c, m) && t in m.hands && m'.hands == m.hands - {t} && HeapOk(c, m'.runs, m'.s)
    requires m'.s.owner.Keys + PagesOf(m'.runs) == m.s.owner.Keys + PagesOf(m.runs) + Pages(c, m.hands[t])
    ensures Ok(c, m') && forall y :: Somewhere(c, m', y) <==> Somewhere(c, m, y)
  {
    hide PagesOf, Pages, HeapOk;
    assert HandApart(c, m, t);
    forall u | u in m'.hands ensures HandApart(c, m', u) { assert HandApart(c, m, u); }
    forall y ensures Somewhere(c, m', y) <==> Somewhere(c, m, y) {
      assert y in m'.s.owner.Keys + PagesOf(m'.runs) <==> y in m.s.owner.Keys + PagesOf(m.runs) + Pages(c, m.hands[t]);
      MovesHand(c, m, m', t, y);
    }
  }

  /** Owned pages go into the hands of t. */
  lemma LeaveKeeps(c: Config, m: Moment, m': Moment, t: int, x: InHand)
    requires Ok(c, m) && t !in m.hands && m'.hands == m.hands[t := x] && m'.runs == m.runs && HeapOk(c, m'.runs, m'.s)
    requires Pages(c, x) <= m.s.owner.Keys && m'.s.owner.Keys == m.s.owner.Keys - Pages(c, x) && HandOk(c, x)
    ensures Ok(c, m') && forall y :: Somewhere(c, m', y) <==> Somewhere(c, m, y)
  {
    hide PagesOf, Pages, Canonical, Inv, Sane;
    forall u | u in m'.hands ensures HandApart(c, m', u) {
      if u != t { assert HandApart(c, m, u); }
      forall v | v in m'.hands && v != u ensures Pages(c, m'.hands[u]) !! Pages(c, m'.hands[v]) {
        if v != t { assert HandApart(c, m, v); }
      }
    }
    forall y ensures Somewhere(c, m', y) <==> Somewhere(c, m, y) {
      if y in Pages(c, x) { assert t in m'.hands && y in Pages(c, m'.hands[t]); }
      MovesHand(c, m, m', t, y);
    }
  }

  /** No page changes hands. */
  lemma StayKeeps(c: Config, m: Moment, m': Moment)
    requires Ok(c, m) && m'.hands == m.hands && m'.runs == m.runs && HeapOk(c, m'.runs, m'.s)
    requires m'.s.owner.Keys == m.s.owner.Keys
    ensures Ok(c, m') && forall y :: Somewhere(c, m', y) <==> Somewhere(c, m, y)
  {
    hide PagesOf, Pages, HeapOk;
    forall u | u in m'.hands ensures HandApart(c, m', u) { assert HandApart(c, m, u); }
  }

  lemma ListsOf(c: Config, m: Moment)
    requires Ok(c, m)
    ensures |m.s.lists| == NZONES && Sane(c) && c.page > 0 && c.zonePages > 0 && HeapOk(c, m.runs, m.s)
    ensures Core(c, m.s) && Canonical(m.runs) && |m.s.idle| <= RELEASE_THRESH
  {
  }

  lemma SmallClassOk(c: Config, n: nat)
    requires Sane(c) && Small(c, n)
    ensures var (size, k) := ZoneIndex(n); 0 <= k < NZONES && size == ChunkOf(k) && 0 < ChunkOf(k) <= c.limit
  {
    ZoneIndexSpec(n);
    ZoneIndexLimit(c, n);
  }

  lemma FromListKeeps(c: Config, m: Moment, n: nat, m': Moment)
    requires Ok(c, m) && |m.s.lists| == NZONES && c.page > 0 && Leads(c, m, FromList(n), m')
    ensures Ok(c, m') && forall y :: Somewhere(c, m', y) <==> Somewhere(c, m, y)
  {
    hide HeapOk, Ok, ChunkStep, ZoneIndex, Somewhere;
    ListsOf(c, m);
    SmallClassOk(c, n);
    var k := ZoneIndex(n).1;
    var a :| ChunkStep(m.s, k, m'.s, a);
    ChunkKeeps(c, m.runs, m.s, k, m'.s, a);
    ChunkOwner(m.s, k, m'.s, a);
    StayKeeps(c, m, m');
  }

  lemma ChunkOwner(s: State, k: int, s': State, a: int)
    requires 0 <= k < |s.lists| && s.lists[k] != [] && ChunkStep(s, k, s', a)
    ensures s'.owner == s.owner
  {
  }

  lemma FromIdleKeeps(c: Config, m: Moment, n: nat, m': Moment)
    requires Ok(c, m) && |m.s.lists| == NZONES && c.page > 0 && Leads(c, m, FromIdle(n), m')
    ensures Ok(c, m') && forall y :: Somewhere(c, m', y) <==> Somewhere(c, m, y)
  {
    hide Ok, Core, ZoneIndex, Somewhere, Canonical, PagesOf, OpenZone, FreshZone, Sane;
    ListsOf(c, m);
    SmallClassOk(c, n);
    OpenKeeps(c, m.s, ZoneIndex(n).1);
    StayKeeps(c, m, m');
  }

  /** A zone is laid out in pages that are neither free nor owned. */
  lemma OpenHeap(c: Config, runs: seq<Run>, s: State, p: int, k: int)
    requires HeapOk(c, runs, s) && |s.lists| == NZONES && 0 <= k < NZONES && 0 < ChunkOf(k) <= c.limit
    requires Interval(p, c.zonePages) !! s.owner.Keys && Interval(p, c.zonePages) !! PagesOf(runs)
    ensures var s' := OpenZone(c, Adopt(c, s, p), ChunkOf(k), k);
      HeapOk(c, runs, s') && s'.owner.Keys == s.owner.Keys + Interval(p, c.zonePages)
  {
    hide Core, Canonical, PagesOf, OpenZone, FreshZone, Sane, Interval, Owned, Marks, ChunkOf;
    AdoptInv(c, s, p);
    OwnedKeys(Interval(p, c.zonePages), ByZone(p));
    OpenKeeps(c, Adopt(c, s, p), k);
  }

  lemma OpenNewKeeps(c: Config, m: Moment, t: int, m': Moment)
    requires Ok(c, m) && |m.s.lists| == NZONES && c.page > 0 && Leads(c, m, OpenNew(t), m')
    ensures Ok(c, m') && forall y :: Somewhere(c, m', y) <==> Somewhere(c, m, y)
  {
    ListsOf(c, m);
    assert HandApart(c, m, t);
    hide Ok, Core, HeapOk, Somewhere, Canonical, PagesOf, OpenZone, Adopt, Sane, Interval, ChunkOf;
    var ForZone(p, k) := m.hands[t];
    OpenHeap(c, m.runs, m.s, p, k);
    PlaceKeeps(c, m, m', t);
  }

  lemma MarkLargeKeeps(c: Config, m: Moment, t: int, m': Moment)
    requires Ok(c, m) && |m.s.lists| == NZONES && c.page > 0 && Leads(c, m, MarkLarge(t), m')
    ensures Ok(c, m') && forall y :: Somewhere(c, m', y) <==> Somewhere(c, m, y)
  {
    ListsOf(c, m);
    assert HandApart(c, m, t);
    hide Ok, Core, Somewhere, Canonical, PagesOf, Sane, Interval, Owned;
    var ForLarge(b, n) := m.hands[t];
    GrantLargeInv(c, m.s, b, n);
    OwnedKeys(Interval(b, n), ByLarge(b));
    PlaceKeeps(c, m, m', t);
  }

  lemma FreeLargeKeeps(c: Config, m: Moment, t: int, a: int, m': Moment)
    requires Ok(c, m) && |m.s.lists| == NZONES && c.page > 0 && Leads(c, m, FreeLarge(t, a), m')
    ensures Ok(c, m') && forall y :: Somewhere(c, m', y) <==> Somewhere(c, m, y)
  {
    ListsOf(c, m);
    hide Ok, Core, Somewhere, Canonical, PagesOf, Sane, Interval;
    DropLargeInv(c, m.s, a);
    LeaveKeeps(c, m, m', t, m'.hands[t]);
  }

  lemma FreeSmallKeeps(c: Config, m: Moment, t: int, a: int, m': Moment)
    requires Ok(c, m) && |m.s.lists| == NZONES && c.page > 0 && Leads(c, m, FreeSmall(t, a), m')
    ensures Ok(c, m') && forall y :: Somewhere(c, m', y) <==> Somewhere(c, m, y)
  {
    ListsOf(c, m);
    hide Ok, Core, Somewhere, Canonical, PagesOf, Interval, Marks, PutChunk, HeapOk, Park, Dismiss, Pages, Sane;
    var s1, p := PutChunk(m.s, a), m.s.live[a].z;
    PutChunkInv(c, m.s, a);
    PutFacts(m.s, a);
    if s1.zones[p].nfree == s1.zones[p].nmax && s1.lists[s1.zones[p].zi] != [p] {
      RetireKeeps(c, m, t, s1, p, m');
    } else {
      SameHeap(c, m, m');
      StayKeeps(c, m, m');
    }
  }

  /** The semaphore's holder changed zones and chunks only, and left no zone too many idle. */
  lemma SameHeap(c: Config, m: Moment, m': Moment)
    requires HeapOk(c, m.runs, m.s) && m'.runs == m.runs && Core(c, m'.s)
    requires m'.s.owner.Keys <= m.s.owner.Keys && |m'.s.idle| <= RELEASE_THRESH
    ensures HeapOk(c, m'.runs, m'.s)
  {
    hide Core, Canonical, PagesOf;
  }

  /** An empty zone is parked, and when there are too many the first one's pages stay in the thread's hands. */
  lemma RetireKeeps(c: Config, m: Moment, t: int, s1: State, p: int, m': Moment)
    requires Ok(c, m) && t !in m.hands && Core(c, s1) && s1.owner == m.s.owner && s1.idle == m.s.idle && p in s1.zones
    requires s1.zones[p].nfree == s1.zones[p].nmax && PutSection(c, m, t, s1, p, m') && m'.runs == m.runs
    requires s1.lists[s1.zones[p].zi] != [p]
    ensures Ok(c, m') && forall y :: Somewhere(c, m', y) <==> Somewhere(c, m, y)
  {
    ListsOf(c, m);
    hide Ok, Core, Somewhere, Canonical, PagesOf, Interval, HeapOk, Park, Dismiss, Pages;
    ParkInv(c, s1, p);
    var s2 := Park(s1, p);
    ParkFacts(s1, p);
    if |s2.idle| > RELEASE_THRESH {
      DismissInv(c, s2);
      SameHeap(c, m, m');
      DismissFacts(c, s2);
      LeaveKeeps(c, m, m', t, m'.hands[t]);
    } else {
      SameHeap(c, m, m');
      StayKeeps(c, m, m');
    }
  }

  lemma ParkFacts(s: State, p: int)
    requires p in s.zones
    ensures Park(s, p).owner == s.owner && Park(s, p).idle == [p] + s.idle
  {
  }

  lemma DismissFacts(c: Config, s: State)
    requires s.idle != [] && c.zonePages > 0
    ensures var s', x := Dismiss(c, s), Surplus(s.idle[0], c.zonePages);
      && s'.idle == s.idle[1..] && s'.owner.Keys == s.owner.Keys - Pages(c, x)
      && HandOk(c, x) && Pages(c, x) == Interval(s.idle[0], c.zonePages)
  {
    hide Interval;
  }

  lemma PutFacts(s: State, a: int)
    requires a in s.live && s.live[a].Small? && s.live[a].z in s.zones
    ensures var s1 := PutChunk(s, a); s1.owner == s.owner && s1.idle == s.idle && s.live[a].z in s1.zones
  {
  }

  lemma GivePagesKeeps(c: Config, m: Moment, t: int, m': Moment)
    requires Ok(c, m) && |m.s.lists| == NZONES && c.page > 0 && Leads(c, m, GivePages(t), m')
    ensures Ok(c, m') && forall y :: Somewhere(c, m', y) <==> Somewhere(c, m, y)
  {
    ListsOf(c, m);
    assert HandApart(c, m, t);
    hide Ok, Core, Somewhere, Canonical, PagesOf, Sane, Interval;
    PlaceKeeps(c, m, m', t);
  }

  lemma WantKeeps(c: Config, m: Moment, t: int, n: nat, m': Moment)
    requires Ok(c, m) && |m.s.lists| == NZONES && c.page > 0 && Leads(c, m, Want(t, n), m')
    ensures Ok(c, m') && forall y :: Somewhere(c, m', y) <==> Somewhere(c, m, y)
  {
    ListsOf(c, m);
    SmallClassOk(c, n);
    hide Core, Canonical, PagesOf, Sane, Interval, ZoneIndex;
    forall u | u in m'.hands ensures HandApart(c, m', u) {
      if u != t { assert HandApart(c, m, u); }
    }
    forall y ensures Somewhere(c, m', y) <==> Somewhere(c, m, y) { MovesHand(c, m, m', t, y); }
  }

  lemma TakeZoneKeeps(c: Config, m: Moment, t: int, m': Moment)
    requires Ok(c, m) && |m.s.lists| == NZONES && c.page > 0 && Leads(c, m, TakeZone(t), m')
    ensures Ok(c, m') && forall y :: Somewhere(c, m', y) <==> Somewhere(c, m, y)
  {
    ListsOf(c, m);
    assert HandApart(c, m, t);
    hide Ok, Core, Somewhere, Canonical, PagesOf, Sane, Interval, HeapOk;
    var ok, p :| AllocStep(m.runs, c.zonePages, m'.runs, ok, p)
      && m'.hands == if ok then m.hands[t := ForZone(p, m.hands[t].k)] else m.hands - {t};
    if ok {
      TakeKeeps(c, m, c.zonePages, m', t, p, ForZone(p, m.hands[t].k));
    } else {
      PlaceKeeps(c, m, m', t);
    }
  }

  lemma TakeLargeKeeps(c: Config, m: Moment, t: int, n: nat, m': Moment)
    requires Ok(c, m) && |m.s.lists| == NZONES && c.page > 0 && Leads(c, m, TakeLarge(t, n), m')
    ensures Ok(c, m') && forall y :: Somewhere(c, m', y) <==> Somewhere(c, m, y)
  {
    ListsOf(c, m);
    hide Ok, Core, Somewhere, Canonical, PagesOf, Sane, Interval, HeapOk, Align;
    RoundFacts(n, c.page);
    SlabSpec.SomePages(n, PagesFor(c, n), c.page);
    var ok, b :| AllocStep(m.runs, PagesFor(c, n), m'.runs, ok, b)
      && m'.hands == if ok then m.hands[t := ForLarge(b, PagesFor(c, n))] else m.hands;
    if ok {
      TakeKeeps(c, m, PagesFor(c, n), m', t, b, ForLarge(b, PagesFor(c, n)));
    } else {
      StayKeeps(c, m, m');
    }
  }

  lemma SectionKeeps(c: Config, m: Moment, x: Section, m': Moment)
    requires Ok(c, m) && |m.s.lists| == NZONES && c.page > 0 && Leads(c, m, x, m')
    ensures Ok(c, m') && forall y :: Somewhere(c, m', y) <==> Somewhere(c, m, y)
  {
    hide Ok, Somewhere, Leads;
    match x {
      case FromList(n) => FromListKeeps(c, m, n, m');
      case FromIdle(n) => FromIdleKeeps(c, m, n, m');
      case Want(t, n) => WantKeeps(c, m, t, n, m');
      case TakeZone(t) => TakeZoneKeeps(c, m, t, m');
      case OpenNew(t) => OpenNewKeeps(c, m, t, m');
      case TakeLarge(t, n) => TakeLargeKeeps(c, m, t, n, m');
      case MarkLarge(t) => MarkLargeKeeps(c, m, t, m');
      case FreeLarge(t, a) => FreeLargeKeeps(c, m, t, a, m');
      case FreeSmall(t, a) => FreeSmallKeeps(c, m, t, a, m');
      case GivePages(t) => GivePagesKeeps(c, m, t, m');
    }
  }

  // ---------------------------------------------------------------- runs

  ghost predicate Follows(c: Config, m: Moment, x: Section, m': Moment) {
    |m.s.lists| == NZONES && c.page > 0 && Leads(c, m, x, m')
  }

  ghost predicate RunOf(c: Config, xs: seq<Section>, at: seq<Moment>) {
    |at| == |xs| + 1 && forall i :: 0 <= i < |xs| ==> Follows(c, at[i], xs[i], at[i + 1])
  }

  /** In every interleaving of the sections of rt_malloc and rt_free from a fresh heap: the zone, chunk and
      page accounts agree, the pages in threads' hands are nobody else's, no page is lost, live blocks do not
      overlap, memusage leads back from each, and used_mem is the sum of their sizes. */
  lemma EveryRun(c: Config, runs: seq<Run>, xs: seq<Section>, at: seq<Moment>)
    requires Sane(c) && Canonical(runs) && RunOf(c, xs, at) && at[0] == Moment(runs, Empty(), map[])
    ensures var m := at[|xs|];
      && Ok(c, m) && (forall y :: Somewhere(c, m, y) <==> y in PagesOf(runs)) && m.s.used == Sum(m.s.live)
      && (forall a, b :: a in m.s.live && b in m.s.live && a < b ==> a + m.s.live[a].size <= b)
      && (forall a :: a in m.s.live ==> Marked(c, m.s, a))
  {
    FreshOk(c, at[0]);
    hide Ok, Somewhere, Sum, Leads, Canonical, PagesOf;
    for i := 0 to |xs|
      invariant Ok(c, at[i]) && forall y :: Somewhere(c, at[i], y) <==> y in PagesOf(runs)
    {
      assert Follows(c, at[i], xs[i], at[i + 1]);
      SectionKeeps(c, at[i], xs[i], at[i + 1]);
    }
    ListsOf(c, at[|xs|]);
    OkMeans(c, at[|xs|].runs, at[|xs|].s);
  }

  lemma FreshOk(c: Config, m: Moment)
    requires Sane(c) && Canonical(m.runs) && m == Moment(m.runs, Empty(), map[])
    ensures Ok(c, m) && forall y :: Somewhere(c, m, y) <==> y in PagesOf(m.runs)
  {
    hide Canonical, PagesOf, HeapOk;
    EmptyOk(c, m.runs);
  }

  // ---------------------------------------------------------------- calls and their sections

  /** Some sections lead from m to m'. */
  ghost predicate Reaches(c: Config, m: Moment, m': Moment) {
    exists xs, at :: RunOf(c, xs, at) && at[0] == m && at[|xs|] == m'
  }

  lemma ReachHere(c: Config, m: Moment)
    ensures Reaches(c, m, m)
  {
    assert RunOf(c, [], [m]);
  }

  lemma ReachOn(c: Config, m: Moment, m1: Moment, x: Section, m2: Moment)
    requires Reaches(c, m, m1) && Follows(c, m1, x, m2)
    ensures Reaches(c, m, m2)
  {
    hide Follows;
    var xs, at :| RunOf(c, xs, at) && at[0] == m && at[|xs|] == m1;
    var xs', at' := xs + [x], at + [m2];
    forall i | 0 <= i < |xs'| ensures Follows(c, at'[i], xs'[i], at'[i + 1]) {
      if i < |xs| { assert Follows(c, at[i], xs[i], at[i + 1]); }
    }
    assert RunOf(c, xs', at');
  }

  /** A call of rt_malloc that nobody interrupts is its sections one behind the other. */
  lemma MallocIsSections(c: Config, m: Moment, t: int, n: nat, runs': seq<Run>, s': State, ok: bool, a: int)
    requires Ok(c, m) && t !in m.hands && |m.s.lists| == NZONES && MallocStep(c, m.runs, m.s, n, runs', s', ok, a)
    ensures Reaches(c, m, Moment(runs', s', m.hands))
  {
    ListsOf(c, m);
    ReachHere(c, m);
    hide Ok, Core, HeapOk, Reaches, Canonical, PagesOf, Align, LargeStep, SmallStep, ZoneIndex;
    if n >= c.limit {
      LargeIsSections(c, m, t, n, runs', s', ok, a);
    } else if n > 0 {
      SmallClassOk(c, n);
      SmallIsSections(c, m, t, n, runs', s', ok, a);
    }
  }

  lemma LargeIsSections(c: Config, m: Moment, t: int, n: nat, runs': seq<Run>, s': State, ok: bool, a: int)
    requires c.page > 0 && t !in m.hands && |m.s.lists| == NZONES && n >= c.limit && n > 0
    requires exists b :: LargeStep(c, m.runs, m.s, PagesFor(c, n), runs', s', ok, b, a)
    ensures Reaches(c, m, Moment(runs', s', m.hands))
  {
    hide Reaches, Canonical, PagesOf, Align, Room, GrantLarge;
    ReachHere(c, m);
    var b :| LargeStep(c, m.runs, m.s, PagesFor(c, n), runs', s', ok, b, a);
    if ok {
      var m1 := Moment(runs', m.s, m.hands[t := ForLarge(b, PagesFor(c, n))]);
      assert m1.hands - {t} == m.hands;
      assert Follows(c, m, TakeLarge(t, n), m1);
      ReachOn(c, m, m, TakeLarge(t, n), m1);
      ReachOn(c, m, m1, MarkLarge(t), Moment(runs', s', m.hands));
    } else {
      assert AllocStep(m.runs, PagesFor(c, n), runs', false, b);
      ReachOn(c, m, m, TakeLarge(t, n), Moment(runs', s', m.hands));
    }
  }

  lemma SmallIsSections(c: Config, m: Moment, t: int, n: nat, runs': seq<Run>, s': State, ok: bool, a: int)
    requires Small(c, n) && c.page > 0 && t !in m.hands && |m.s.lists| == NZONES
    requires var (size, k) := ZoneIndex(n); 0 <= k < NZONES && size == ChunkOf(k) && size > 0
    requires SmallStep(c, m.runs, m.s, ZoneIndex(n).0, ZoneIndex(n).1, runs', s', ok, a)
    ensures Reaches(c, m, Moment(runs', s', m.hands))
  {
    hide Reaches, Canonical, PagesOf, Room, OpenZone, ChunkStep, FreshZone, Adopt, ZoneIndex, ChunkOf;
    ReachHere(c, m);
    var (size, k) := ZoneIndex(n);
    if m.s.lists[k] != [] {
      ReachOn(c, m, m, FromList(n), Moment(runs', s', m.hands));
    } else if m.s.idle != [] {
      ReachOn(c, m, m, FromIdle(n), Moment(runs', s', m.hands));
    } else {
      var p :| NewZoneStep(c, m.runs, m.s, size, k, runs', s', ok, p, a);
      var m1 := m.(hands := m.hands[t := NeedsZone(k)]);
      ReachOn(c, m, m, Want(t, n), m1);
      NewIsSections(c, m, m1, t, size, k, runs', s', ok, p, a);
    }
  }

  lemma NewIsSections(c: Config, m: Moment, m1: Moment, t: int, size: int, k: int, runs': seq<Run>, s': State, ok: bool,
                      p: int, a: int)
    requires c.page > 0 && t !in m.hands && |m.s.lists| == NZONES && 0 <= k < NZONES && size == ChunkOf(k) && size > 0
    requires m1 == m.(hands := m.hands[t := NeedsZone(k)]) && Reaches(c, m, m1)
    requires NewZoneStep(c, m.runs, m.s, size, k, runs', s', ok, p, a)
    ensures Reaches(c, m, Moment(runs', s', m.hands))
  {
    hide Reaches, Canonical, PagesOf, Room, OpenZone, FreshZone, Adopt, ChunkOf;
    assert m1.hands - {t} == m.hands && AllocStep(m.runs, c.zonePages, runs', ok, p);
    if ok {
      var m2 := Moment(runs', m.s, m.hands[t := ForZone(p, k)]);
      assert m1.hands[t := ForZone(p, k)] == m2.hands && m2.hands - {t} == m.hands;
      ReachOn(c, m, m1, TakeZone(t), m2);
      ReachOn(c, m, m2, OpenNew(t), Moment(runs', s', m.hands));
    } else {
      ReachOn(c, m, m1, TakeZone(t), Moment(runs', s', m.hands));
    }
  }

  /** A section that leaves pages in the thread's hands, and rt_page_free behind it */
  lemma BackIsSections(c: Config, m: Moment, t: int, x: Section, b: int, n: int, runs': seq<Run>, s': State)
    requires t !in m.hands && c.page > 0 && |s'.lists| == NZONES && FreeStep(m.runs, b, n, runs')
    requires Follows(c, m, x, Moment(m.runs, s', m.hands[t := Surplus(b, n)]))
    ensures Reaches(c, m, Moment(runs', s', m.hands))
  {
    hide Reaches, Canonical, PagesOf;
    var m1 := Moment(m.runs, s', m.hands[t := Surplus(b, n)]);
    assert m1.hands - {t} == m.hands;
    ReachHere(c, m);
    ReachOn(c, m, m, x, m1);
    ReachOn(c, m, m1, GivePages(t), Moment(runs', s', m.hands));
  }

  lemma LargeListed(c: Config, s: State, a: int)
    requires |s.lists| == NZONES && a in s.live && s.live[a].Large?
    ensures |DropLarge(c, s, a).lists| == NZONES
  {
  }

  lemma PutListed(c: Config, s: State, a: int)
    requires |s.lists| == NZONES && a in s.live && s.live[a].Small? && s.live[a].z in s.zones
    ensures s.live[a].z in PutChunk(s, a).zones
    ensures var s2 := Park(PutChunk(s, a), s.live[a].z); s2.idle != [] && |Dismiss(c, s2).lists| == NZONES
  {
  }

  lemma PutIsSections(c: Config, m: Moment, t: int, a: int, runs': seq<Run>, s': State)
    requires c.page > 0 && |m.s.lists| == NZONES && t !in m.hands && a in m.s.live && m.s.live[a].Small?
    requires m.s.live[a].z in m.s.zones && m.s.live[a].z in PutChunk(m.s, a).zones
    requires var s2 := Park(PutChunk(m.s, a), m.s.live[a].z); s2.idle != [] && |Dismiss(c, s2).lists| == NZONES
    requires FreeCall(c, m.runs, m.s, a, runs', s')
    ensures Reaches(c, m, Moment(runs', s', m.hands))
  {
    hide Reaches, Canonical, PagesOf, PutChunk, Park, Dismiss, FreeStep;
    var s1, p := PutChunk(m.s, a), m.s.live[a].z;
    if s1.zones[p].nfree == s1.zones[p].nmax && s1.lists[s1.zones[p].zi] != [p] && |Park(s1, p).idle| > RELEASE_THRESH {
      BackIsSections(c, m, t, FreeSmall(t, a), Park(s1, p).idle[0], c.zonePages, runs', s');
    } else {
      ReachHere(c, m);
      ReachOn(c, m, m, FreeSmall(t, a), Moment(runs', s', m.hands));
    }
  }

  /** The same for rt_free. */
  lemma FreeIsSections(c: Config, m: Moment, t: int, a: int, runs': seq<Run>, s': State)
    requires Ok(c, m) && t !in m.hands && a in m.s.live && FreeCall(c, m.runs, m.s, a, runs', s')
    ensures Reaches(c, m, Moment(runs', s', m.hands))
  {
    ListsOf(c, m);
    hide Ok, Core, HeapOk, Reaches, Canonical, PagesOf, Sane, PutChunk, Park, Dismiss, DropLarge, RetireStep;
    if m.s.live[a].Large? {
      LargeListed(c, m.s, a);
      BackIsSections(c, m, t, FreeLarge(t, a), m.s.live[a].b, m.s.live[a].n, runs', s');
    } else {
      PutListed(c, m.s, a);
      PutIsSections(c, m, t, a, runs', s');
    }
  }
}
