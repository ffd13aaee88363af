/** The zone allocator of src/slab.c on top of the page allocator.

    Addresses are bytes, zones and large blocks are named by their first page.  Besides what the
    source stores (zones, zone_array, zone_free, memusage, the statistics) the state records two
    things the source leaves implicit: who owns each page, and which blocks are live. */
module SlabSpec {
  import opened Arith
  import Bits
  import opened PageList
  import Ring

  const NZONES := 72
  const RELEASE_THRESH := 2

  datatype Config = Config(page: nat, zonePages: int, limit: int, header: nat)

  /** The in-band zone header; `free` is the z_freechunk list. */
  datatype Zone = Zone(nfree: int, nmax: int, base: int, uindex: int, chunk: int, zi: int, free: seq<int>)

  datatype Kind = PageFree | PageSmall | PageLarge
  datatype Usage = Usage(kind: Kind, size: int)
  datatype Owner = ByZone(z: int) | ByLarge(b: int)
  datatype Block = Small(z: int, i: int, size: int) | Large(b: int, n: int, size: int)

  datatype State = State(zones: map<int, Zone>, lists: seq<seq<int>>, idle: seq<int>, usage: map<int, Usage>,
                         used: int, max: int, owner: map<int, Owner>, live: map<int, Block>)

  ghost predicate Sane(c: Config) {
    && c.page > 0 && c.zonePages > 0 && c.header > 0
    && (c.limit == 8192 || c.limit == 16384)
    && 4 * c.limit <= c.page * c.zonePages && 4 * c.header <= c.page * c.zonePages
  }

  // ---------------------------------------------------------------- zoneindex

  /** zoneindex: the rounded size it writes back, and the index it returns. */
  function ZoneIndex(n: int): (int, int)
    requires 0 < n < 16384
  {
    if n < 128 then (Align(n, 8), Align(n, 8) / 8 - 1)
    else if n < 256 then (Align(n, 16), Align(n, 16) / 16 + 7)
    else if n < 512 then (Align(n, 32), Align(n, 32) / 32 + 15)
    else if n < 1024 then (Align(n, 64), Align(n, 64) / 64 + 23)
    else if n < 2048 then (Align(n, 128), Align(n, 128) / 128 + 31)
    else if n < 4096 then (Align(n, 256), Align(n, 256) / 256 + 39)
    else if n < 8192 then (Align(n, 512), Align(n, 512) / 512 + 47)
    else (Align(n, 1024), Align(n, 1024) / 1024 + 55)
  }

  /** The chunk size of a zone index. */
  function ChunkOf(zi: int): int {
    if zi < 16 then 8 * (zi + 1)
    else if zi < 24 then 16 * (zi - 7)
    else if zi < 32 then 32 * (zi - 15)
    else if zi < 40 then 64 * (zi - 23)
    else if zi < 48 then 128 * (zi - 31)
    else if zi < 56 then 256 * (zi - 39)
    else if zi < 64 then 512 * (zi - 47)
    else 1024 * (zi - 55)
  }

  /** The index fixes the chunk size, the chunk holds the request and no smaller class does. */
  lemma ZoneIndexSpec(n: int)
    requires 0 < n < 16384
    ensures var (size, zi) := ZoneIndex(n);
      && 0 <= zi < NZONES && size == ChunkOf(zi) && n <= size
      && (zi > 0 ==> ChunkOf(zi - 1) < n)
  {
    hide Align;
    if n < 128 { RoundFacts(n, 8); }
    else if n < 256 { RoundFacts(n, 16); }
    else if n < 512 { RoundFacts(n, 32); }
    else if n < 1024 { RoundFacts(n, 64); }
    else if n < 2048 { RoundFacts(n, 128); }
    else if n < 4096 { RoundFacts(n, 256); }
    else if n < 8192 { RoundFacts(n, 512); }
    else { RoundFacts(n, 1024); }
  }

  lemma RoundFacts(n: nat, a: nat)
    requires a > 0
    ensures n <= Align(n, a) < n + a
    ensures Align(n, a) == Align(n, a) / a * a
  {
    AlignUp(n, a);
    DivExact((n + a - 1) / a, a);
  }

  lemma DivExact(q: int, a: int)
    requires a > 0
    ensures q * a / a == q
  {
    var r := q * a / a;
    assert q * a == r * a + q * a % a;
    MulLe(q + 1, r, a);
    MulLe(r + 1, q, a);
  }

  lemma ZoneIndexLimit(c: Config, n: int)
    requires Sane(c) && 0 < n < c.limit
    ensures ZoneIndex(n).0 <= c.limit
  {
  }

  // ---------------------------------------------------------------- chunks of a zone

  function ChunkAddr(z: Zone, i: int): int {
    z.base + i * z.chunk
  }

  lemma ChunkOrder(z: Zone, i: int, j: int)
    requires z.chunk > 0 && i < j
    ensures ChunkAddr(z, i) + z.chunk <= ChunkAddr(z, j)
  {
    MulLe(i + 1, j, z.chunk);
    assert (i + 1) * z.chunk == i * z.chunk + z.chunk;
  }

  lemma ChunkInjective(z: Zone, i: int, j: int)
    requires z.chunk > 0 && ChunkAddr(z, i) == ChunkAddr(z, j)
    ensures i == j
  {
    if i < j { ChunkOrder(z, i, j); }
    if j < i { ChunkOrder(z, j, i); }
  }

  ghost predicate IsChunk(z: Zone, a: int, i: int) {
    0 <= i <= z.uindex && a == ChunkAddr(z, i)
  }

  ghost predicate ZoneShape(c: Config, p: int, z: Zone) {
    && 0 <= z.zi < NZONES && z.chunk == ChunkOf(z.zi) && z.chunk > 0
    && z.nmax >= 2 && 0 <= z.uindex < z.nmax
    && p * c.page + c.header <= z.base && ChunkAddr(z, z.nmax) <= (p + c.zonePages) * c.page
    && z.nfree == z.nmax - 1 - z.uindex + |z.free|
    && Ring.Distinct(z.free) && (forall a :: a in z.free ==> exists i :: IsChunk(z, a, i))
  }

  /** A chunk that was handed out once is either on the free list or live, never both. */
  ghost predicate ChunkState(s: State, p: int, i: int)
    requires p in s.zones
  {
    var z := s.zones[p];
    var a := ChunkAddr(z, i);
    a in z.free <==> !(a in s.live && s.live[a] == Small(p, i, z.chunk))
  }

  ghost predicate ZoneChunks(s: State, p: int)
    requires p in s.zones
  {
    forall i :: 0 <= i <= s.zones[p].uindex ==> ChunkState(s, p, i)
  }

  ghost predicate ZonePage(s: State, p: int, off: int) {
    && p + off in s.owner && s.owner[p + off] == ByZone(p)
    && p + off in s.usage && s.usage[p + off] == Usage(PageSmall, off)
  }

  /** Every page of the zone belongs to it, and memusage tells how far back its start is. */
  ghost predicate ZonePages(c: Config, s: State, p: int) {
    forall off :: 0 <= off < c.zonePages ==> ZonePage(s, p, off)
  }

  ghost predicate LargePage(s: State, b: int, i: int) {
    b + i in s.owner && s.owner[b + i] == ByLarge(b)
  }

  ghost predicate LiveOk(c: Config, s: State, a: int)
    requires a in s.live
  {
    match s.live[a]
    case Small(p, i, size) => p in s.zones && IsChunk(s.zones[p], a, i) && size == s.zones[p].chunk
    case Large(b, n, size) =>
      && a == b * c.page && n > 0 && size == n * c.page
      && b in s.usage && s.usage[b] == Usage(PageLarge, n)
      && (forall i :: 0 <= i < n ==> LargePage(s, b, i))
  }

  ghost predicate ListOk(s: State, k: int)
    requires 0 <= k < |s.lists|
  {
    && Ring.Distinct(s.lists[k])
    && (forall p :: p in s.lists[k] ==> p in s.zones && s.zones[p].zi == k && s.zones[p].nfree > 0)
  }

  ghost predicate Listed(s: State, p: int)
    requires p in s.zones
  {
    s.zones[p].nfree > 0 ==> 0 <= s.zones[p].zi < |s.lists| && p in s.lists[s.zones[p].zi]
  }

  ghost predicate ZoneOk(c: Config, s: State, p: int)
    requires p in s.zones
  {
    ZoneShape(c, p, s.zones[p]) && ZoneChunks(s, p) && ZonePages(c, s, p) && Listed(s, p)
  }

  /** Sum of the sizes of the live blocks. */
  ghost function Sum(live: map<int, Block>): int {
    if exists a :: a in live then var a :| a in live; live[a].size + Sum(live - {a}) else 0
  }

  /** Every owned page belongs to a zone or to a live large block. */
  ghost predicate OwnedOk(c: Config, s: State, g: int)
    requires g in s.owner
  {
    match s.owner[g]
    case ByZone(p) => (p in s.zones || p in s.idle) && p <= g < p + c.zonePages
    case ByLarge(b) =>
      b * c.page in s.live && s.live[b * c.page].Large? && s.live[b * c.page].b == b <= g < b + s.live[b * c.page].n
  }

  ghost predicate Inv(c: Config, s: State) {
    Core(c, s) && |s.idle| <= RELEASE_THRESH
  }

  ghost predicate Core(c: Config, s: State) {
    && |s.lists| == NZONES
    && (forall p :: p in s.zones ==> ZoneOk(c, s, p))
    && (forall k :: 0 <= k < NZONES ==> ListOk(s, k))
    && Ring.Distinct(s.idle)
    && (forall p :: p in s.idle ==> p !in s.zones && ZonePages(c, s, p))
    && (forall a :: a in s.live ==> LiveOk(c, s, a))
    && (forall g :: g in s.owner ==> OwnedOk(c, s, g))
    && s.used == Sum(s.live) && s.used <= s.max
  }

  // ---------------------------------------------------------------- what the invariant gives

  lemma {:induction false} SumRemove(live: map<int, Block>, a: int)
    requires a in live
    ensures Sum(live) == live[a].size + Sum(live - {a})
    decreases |live|
  {
    var b :| b in live && Sum(live) == live[b].size + Sum(live - {b});
    if b != a {
      SumRemove(live - {b}, a);
      SumRemove(live - {a}, b);
      assert live - {b} - {a} == live - {a} - {b};
    }
  }

  lemma SumAdd(live: map<int, Block>, a: int, blk: Block)
    requires a !in live
    ensures Sum(live[a := blk]) == Sum(live) + blk.size
  {
    SumRemove(live[a := blk], a);
    assert live[a := blk] - {a} == live;
  }

  /** A chunk lies inside its zone, so its page is a page of the zone. */
  lemma ChunkPage(c: Config, p: int, z: Zone, i: int)
    requires Sane(c) && ZoneShape(c, p, z) && 0 <= i < z.nmax
    ensures p * c.page + c.header <= ChunkAddr(z, i)
    ensures ChunkAddr(z, i) + z.chunk <= (p + c.zonePages) * c.page
    ensures p <= ChunkAddr(z, i) / c.page < p + c.zonePages
  {
    if i > 0 { ChunkOrder(z, 0, i); }
    ChunkOrder(z, i, z.nmax);
    PageOf(ChunkAddr(z, i), p, c.zonePages, c.page);
  }

  lemma PageOf(a: int, p: int, n: int, page: int)
    requires page > 0 && p * page <= a < (p + n) * page
    ensures p <= a / page < p + n
  {
    var q := a / page;
    assert a == q * page + a % page;
    assert q * page <= a < (q + 1) * page;
    MulLe(q + 1, p, page);
    MulLe(p + n, q, page);
  }

  /** memusage leads from a live chunk back to its zone, and marks a large block as large. */
  lemma FindOwner(c: Config, s: State, a: int)
    requires Sane(c) && Core(c, s) && a in s.live
    ensures a / c.page in s.usage
    ensures s.live[a].Large? ==> s.usage[a / c.page] == Usage(PageLarge, s.live[a].n) && a / c.page == s.live[a].b
    ensures s.live[a].Large? ==> s.live[a].size == s.live[a].n * c.page
    ensures s.live[a].Small? ==>
              s.usage[a / c.page].kind == PageSmall && a / c.page - s.usage[a / c.page].size == s.live[a].z
  {
    assert LiveOk(c, s, a);
    match s.live[a]
    case Small(p, i, size) =>
      assert ZoneOk(c, s, p);
      ChunkPage(c, p, s.zones[p], i);
      assert ZonePage(s, p, a / c.page - p);
    case Large(b, n, size) =>
      assert b * c.page / c.page == b by { PageOf(a, b, 1, c.page); }
  }

  /** Live blocks do not overlap. */
  lemma LiveApart(c: Config, s: State, a: int, a': int)
    requires Sane(c) && Core(c, s) && a in s.live && a' in s.live && a < a'
    ensures a + s.live[a].size <= a'
  {
    hide ChunkAddr, Sum;
    var x := a' - 1;
    if a + s.live[a].size > a' {
      SameOwner(c, s, a, a');
      SameOwner(c, s, a', a');
      assert LiveOk(c, s, a) && LiveOk(c, s, a');
      if s.live[a].Small? {
        var p := s.live[a].z;
        assert ZoneOk(c, s, p);
        SmallApart(s.zones[p], s.live[a].i, s.live[a'].i);
      }
    }
  }

  lemma SmallApart(z: Zone, i: int, j: int)
    requires z.chunk > 0 && ChunkAddr(z, i) < ChunkAddr(z, j)
    ensures ChunkAddr(z, i) + z.chunk <= ChunkAddr(z, j)
  {
    if j < i { ChunkOrder(z, j, i); }
    if i < j { ChunkOrder(z, i, j); }
  }

  /** The page of any byte of a live block is owned on behalf of that block. */
  lemma SameOwner(c: Config, s: State, a: int, x: int)
    requires Sane(c) && Core(c, s) && a in s.live && a <= x < a + s.live[a].size
    ensures x / c.page in s.owner
    ensures s.owner[x / c.page] == if s.live[a].Small? then ByZone(s.live[a].z) else ByLarge(s.live[a].b)
  {
    hide Sum, ChunkState, ListOk, Listed, ChunkAddr;
    assert LiveOk(c, s, a);
    match s.live[a]
    case Small(p, i, size) =>
      assert ZoneOk(c, s, p);
      ChunkPage(c, p, s.zones[p], i);
      PageOf(x, p, c.zonePages, c.page);
      assert ZonePage(s, p, x / c.page - p);
    case Large(b, n, size) =>
      Distribute(b, n, c.page);
      PageOf(x, b, n, c.page);
      assert LargePage(s, b, x / c.page - b);
  }

  // ---------------------------------------------------------------- the steps of rt_malloc and rt_free

  /** The statistics after `size` more bytes are in use. */
  function Count(s: State, size: int): State {
    s.(used := s.used + size, max := Max(s.max, s.used + size))
  }

  function Owned(pages: set<int>, o: Owner): map<int, Owner> {
    map g | g in pages :: o
  }

  lemma OwnedKeys(pages: set<int>, o: Owner)
    ensures Owned(pages, o).Keys == pages
  {
  }

  /** The memusage entries of a zone in use, or given back. */
  function Marks(p: int, n: int, small: bool): map<int, Usage> {
    map g | g in Interval(p, n) :: if small then Usage(PageSmall, g - p) else Usage(PageFree, 0)
  }

  /** Lines 501-519: n pages at b become a large block. */
  function GrantLarge(c: Config, s: State, b: int, n: int): State {
    Count(s, n * c.page).(usage := s.usage[b := Usage(PageLarge, n)],
                          owner := s.owner + Owned(Interval(b, n), ByLarge(b)),
                          live := s.live[b * c.page := Large(b, n, n * c.page)])
  }

  /** Lines 544-575: the chunk z_uindex or the free list yields, and the zone afterwards. */
  function Popped(z: Zone): (Zone, int)
    requires z.uindex + 1 != z.nmax || z.free != []
  {
    if z.uindex + 1 != z.nmax then
      (z.(nfree := z.nfree - 1, uindex := z.uindex + 1), ChunkAddr(z, z.uindex + 1))
    else
      (z.(nfree := z.nfree - 1, free := z.free[1..]), z.free[0])
  }

  /** Taking a chunk from the first zone of list k; i is its index in the zone. */
  function TakeChunk(s: State, k: int, i: int): State
    requires 0 <= k < |s.lists| && s.lists[k] != [] && s.lists[k][0] in s.zones
    requires var z := s.zones[s.lists[k][0]]; z.uindex + 1 != z.nmax || z.free != []
  {
    var p := s.lists[k][0];
    var (z, a) := Popped(s.zones[p]);
    Count(s, z.chunk).(zones := s.zones[p := z],
                       lists := if z.nfree == 0 then s.lists[k := s.lists[k][1..]] else s.lists,
                       live := s.live[a := Small(p, i, z.chunk)])
  }

  /** Lines 601-622: the pages at p become a zone nobody uses yet. */
  function Adopt(c: Config, s: State, p: int): State {
    s.(idle := [p] + s.idle,
       usage := s.usage + Marks(p, c.zonePages, true),
       owner := s.owner + Owned(Interval(p, c.zonePages), ByZone(p)))
  }

  predicate PowerOfTwo(n: int) {
    n == 1 || (n > 1 && n % 2 == 0 && PowerOfTwo(n / 2))
  }

  /** The test at line 635, (size | (size - 1)) + 1 == (size << 1), singles out the powers of two. */
  lemma {:induction false} PowerTest(n: nat)
    requires n > 0
    ensures Bits.Or(n, n - 1) + 1 == 2 * n <==> PowerOfTwo(n)
  {
    if n % 2 == 0 {
      assert (n - 1) / 2 == n / 2 - 1;
      PowerTest(n / 2);
    } else if n > 1 {
      assert (n - 1) / 2 == n / 2;
      OrSelf(n / 2);
    }
  }

  lemma {:induction false} OrSelf(n: nat)
    ensures Bits.Or(n, n) == n
  {
    if n > 0 { OrSelf(n / 2); }
  }

  /** Lines 629-638 */
  function Offset(c: Config, size: int): nat
    requires size > 0
  {
    if PowerOfTwo(size) then Align(c.header, size) else Align(c.header, 8)
  }

  /** Lines 626-648: a zone laid out for chunks of the given size, its first chunk handed out. */
  function FreshZone(c: Config, p: int, size: int, zi: int): Zone
    requires size > 0
  {
    var off := Offset(c, size);
    var nmax := (c.page * c.zonePages - off) / size;
    Zone(nmax - 1, nmax, p * c.page + off, 0, size, zi, [])
  }

  /** Lines 590-658, the zone coming from zone_free. */
  function OpenZone(c: Config, s: State, size: int, k: int): State
    requires s.idle != [] && size > 0 && 0 <= k < |s.lists|
  {
    var p := s.idle[0];
    var z := FreshZone(c, p, size, k);
    Count(s, size).(zones := s.zones[p := z], idle := s.idle[1..],
                    lists := s.lists[k := [p] + s.lists[k]],
                    live := s.live[z.base := Small(p, 0, size)])
  }

  /** Lines 802-817 */
  function DropLarge(c: Config, s: State, a: int): State
    requires a in s.live && s.live[a].Large?
  {
    var Large(b, n, size) := s.live[a];
    s.(usage := s.usage[b := Usage(PageLarge, 0)], used := s.used - size,
       owner := s.owner - Interval(b, n), live := s.live - {a})
  }

  /** Lines 830-846 */
  function PutChunk(s: State, a: int): State
    requires a in s.live && s.live[a].Small? && s.live[a].z in s.zones
  {
    var p := s.live[a].z;
    var z := s.zones[p];
    s.(zones := s.zones[p := z.(free := [a] + z.free, nfree := z.nfree + 1)],
       lists := if z.nfree == 0 && 0 <= z.zi < |s.lists| then s.lists[z.zi := [p] + s.lists[z.zi]] else s.lists,
       used := s.used - z.chunk, live := s.live - {a})
  }

  /** Lines 863-874: an empty zone moves from its list to zone_free. */
  ghost function Park(s: State, p: int): State
    requires p in s.zones
  {
    var k := s.zones[p].zi;
    s.(zones := s.zones - {p}, idle := [p] + s.idle,
       lists := if 0 <= k < |s.lists| then s.lists[k := Ring.Without(s.lists[k], p)] else s.lists)
  }

  /** Lines 881-897: the first zone of zone_free goes back to the page allocator. */
  function Dismiss(c: Config, s: State): State
    requires s.idle != []
  {
    var p := s.idle[0];
    s.(idle := s.idle[1..],
       usage := s.usage + Marks(p, c.zonePages, false),
       owner := s.owner - Interval(p, c.zonePages))
  }

  // ---------------------------------------------------------------- whole calls

  /** After rt_system_heap_init */
  function Empty(): State {
    State(map[], seq(NZONES, i => []), [], map[], 0, 0, map[], map[])
  }

  function PagesFor(c: Config, n: nat): nat
    requires c.page > 0
  {
    Align(n, c.page) / c.page
  }

  /** Lines 334-399: the pages left after the memusage array, 4 bytes a page, has been carved off the front */
  ghost predicate InitStep(c: Config, start: int, npages: nat, runs: seq<Run>)
    requires c.page > 0
  {
    exists b :: AllocStep([Run(start, npages)], PagesFor(c, 4 * npages), runs, true, b)
  }

  /** Lines 495-520: the lowest place with n free pages, or RT_NULL when there is none */
  ghost predicate LargeStep(c: Config, runs: seq<Run>, s: State, n: nat, runs': seq<Run>, s': State, ok: bool, b: int, a: int) {
    && AllocStep(runs, n, runs', ok, b)
    && (ok ==> s' == GrantLarge(c, s, b, n) && a == b * c.page)
    && (!ok ==> s' == s)
  }

  /** Lines 539-576: the chunk that the first zone of list k yields */
  ghost predicate ChunkStep(s: State, k: int, s': State, a: int)
    requires 0 <= k < |s.lists| && s.lists[k] != []
  {
    var p := s.lists[k][0];
    p in s.zones && exists i :: PopIndex(s.zones[p], i) && s' == TakeChunk(s, k, i) && a == Popped(s.zones[p]).1
  }

  /** Lines 598-658: a zone of fresh pages, the lowest place there is, and its first chunk */
  ghost predicate NewZoneStep(c: Config, runs: seq<Run>, s: State, size: int, k: int,
                              runs': seq<Run>, s': State, ok: bool, p: int, a: int)
    requires size > 0 && 0 <= k < |s.lists|
  {
    && AllocStep(runs, c.zonePages, runs', ok, p)
    && (ok ==> s' == OpenZone(c, Adopt(c, s, p), size, k) && a == FreshZone(c, p, size, k).base)
    && (!ok ==> s' == s)
  }

  /** Lines 523-667: from a zone in use, else from the first idle zone, else from a new one */
  ghost predicate SmallStep(c: Config, runs: seq<Run>, s: State, size: int, k: int, runs': seq<Run>, s': State, ok: bool, a: int)
    requires size > 0 && 0 <= k < |s.lists|
  {
    if s.lists[k] != [] then ok && runs' == runs && ChunkStep(s, k, s', a)
    else if s.idle != [] then
      ok && runs' == runs && s' == OpenZone(c, s, size, k) && a == FreshZone(c, s.idle[0], size, k).base
    else exists p :: NewZoneStep(c, runs, s, size, k, runs', s', ok, p, a)
  }

  /** rt_malloc */
  ghost predicate MallocStep(c: Config, runs: seq<Run>, s: State, n: nat, runs': seq<Run>, s': State, ok: bool, a: int)
    requires c.page > 0 && c.limit <= 16384 && |s.lists| == NZONES
  {
    if n == 0 then !ok && runs' == runs && s' == s
    else if n >= c.limit then exists b :: LargeStep(c, runs, s, PagesFor(c, n), runs', s', ok, b, a)
    else
      ZoneIndexSpec(n);
      SmallStep(c, runs, s, ZoneIndex(n).0, ZoneIndex(n).1, runs', s', ok, a)
  }

  /** rt_malloc returns RT_NULL exactly for 0 bytes, when a large request finds too few free pages in a row,
      or when a small one finds no zone of its class, no idle zone and no room for a new zone. */
  lemma MallocFails(c: Config, runs: seq<Run>, s: State, n: nat, runs': seq<Run>, s': State, ok: bool, a: int)
    requires Sane(c) && |s.lists| == NZONES && MallocStep(c, runs, s, n, runs', s', ok, a)
    ensures !ok <==>
      || n == 0
      || (n >= c.limit && forall b :: !Room(PagesOf(runs), b, PagesFor(c, n)))
      || (0 < n < c.limit && s.lists[ZoneIndex(n).1] == [] && s.idle == [] && forall b :: !Room(PagesOf(runs), b, c.zonePages))
  {
    hide Room, PagesOf, LargeStep, SmallStep, Align, ZoneIndex;
    if n >= c.limit {
      RoundFacts(n, c.page);
      SomePages(n, PagesFor(c, n), c.page);
      LargeFails(c, runs, s, PagesFor(c, n), runs', s', ok, a);
    } else if n > 0 {
      ZoneIndexSpec(n);
      SmallFails(c, runs, s, ZoneIndex(n).0, ZoneIndex(n).1, runs', s', ok, a);
    }
  }

  lemma LargeFails(c: Config, runs: seq<Run>, s: State, n: nat, runs': seq<Run>, s': State, ok: bool, a: int)
    requires n > 0 && exists b :: LargeStep(c, runs, s, n, runs', s', ok, b, a)
    ensures !ok <==> forall b :: !Room(PagesOf(runs), b, n)
  {
    hide GrantLarge, Room, PagesOf;
    var b :| LargeStep(c, runs, s, n, runs', s', ok, b, a);
    assert AllocStep(runs, n, runs', ok, b);
    assert ok ==> Room(PagesOf(runs), b, n);
  }

  lemma SmallFails(c: Config, runs: seq<Run>, s: State, size: int, k: int, runs': seq<Run>, s': State, ok: bool, a: int)
    requires Sane(c) && size > 0 && 0 <= k < |s.lists| && SmallStep(c, runs, s, size, k, runs', s', ok, a)
    ensures !ok <==> s.lists[k] == [] && s.idle == [] && forall b :: !Room(PagesOf(runs), b, c.zonePages)
  {
    hide OpenZone, ChunkStep, FreshZone, Room, PagesOf, Adopt;
    ZonesHavePages(c);
    if s.lists[k] == [] && s.idle == [] {
      var p :| NewZoneStep(c, runs, s, size, k, runs', s', ok, p, a);
      assert AllocStep(runs, c.zonePages, runs', ok, p);
      assert ok ==> Room(PagesOf(runs), p, c.zonePages);
    }
  }

  lemma ZonesHavePages(c: Config)
    requires Sane(c)
    ensures c.zonePages > 0
  {
  }

  lemma SomePages(n: nat, k: int, page: int)
    requires page > 0 && 0 < n <= k * page
    ensures k > 0
  {
    MulLe(k, 0, page);
  }

  /** A small request is served from a zone of its class, a large one with its pages. */
  lemma MallocClass(c: Config, runs: seq<Run>, s: State, n: nat, runs': seq<Run>, s': State, a: int)
    requires Sane(c) && Core(c, s) && MallocStep(c, runs, s, n, runs', s', true, a)
    ensures n > 0 && a in s'.live
    ensures n >= c.limit ==> s'.live[a] == Large(a / c.page, PagesFor(c, n), PagesFor(c, n) * c.page)
    ensures n < c.limit ==> s'.live[a].Small? && s'.live[a].size == ZoneIndex(n).0
                            && s'.live[a].z in s'.zones && s'.zones[s'.live[a].z].zi == ZoneIndex(n).1
  {
    hide Sum;
    if n >= c.limit {
      var b :| LargeStep(c, runs, s, PagesFor(c, n), runs', s', true, b, a);
      PageOf(a, b, 1, c.page);
    } else {
      ZoneIndexSpec(n);
      SmallClass(c, runs, s, ZoneIndex(n).0, ZoneIndex(n).1, runs', s', a);
    }
  }

  lemma SmallClass(c: Config, runs: seq<Run>, s: State, size: int, k: int, runs': seq<Run>, s': State, a: int)
    requires Sane(c) && Core(c, s) && 0 <= k < NZONES && size == ChunkOf(k) && size > 0
    requires SmallStep(c, runs, s, size, k, runs', s', true, a)
    ensures a in s'.live && s'.live[a].Small? && s'.live[a].size == size
            && s'.live[a].z in s'.zones && s'.zones[s'.live[a].z].zi == k
  {
    hide Sum, ChunkOf, Offset;
    if s.lists[k] != [] {
      assert ListOk(s, k) && s.lists[k][0] in s.lists[k];
      assert ZoneOk(c, s, s.lists[k][0]);
    }
  }

  /** rt_free: a large block gives back its pages; a chunk goes back to its zone, an empty zone that is not the
      only one of its class becomes idle, and the first idle zone gives back its pages when there are too many. */
  ghost predicate FreeCall(c: Config, runs: seq<Run>, s: State, a: int, runs': seq<Run>, s': State)
    requires a in s.live
  {
    match s.live[a]
    case Large(b, n, _) => s' == DropLarge(c, s, a) && FreeStep(runs, b, n, runs')
    case Small(p, _, _) =>
      p in s.zones &&
      var s1 := PutChunk(s, a);
      var k := s1.zones[p].zi;
      0 <= k < |s1.lists| && s1.lists[k] != [] &&
      if s1.zones[p].nfree == s1.zones[p].nmax && s1.lists[k] != [p] then RetireStep(c, runs, Park(s1, p), runs', s')
      else s' == s1 && runs' == runs
  }

  /** Lines 876-900, the empty zone being in zone_free */
  ghost predicate RetireStep(c: Config, runs: seq<Run>, s: State, runs': seq<Run>, s': State) {
    if |s.idle| > RELEASE_THRESH then s' == Dismiss(c, s) && FreeStep(runs, s.idle[0], c.zonePages, runs')
    else s' == s && runs' == runs
  }

  // ---------------------------------------------------------------- preservation

  /** Pages of s keep owner and usage in s'. */
  ghost predicate PagesStay(s: State, s': State) {
    forall g :: g in s.owner && g in s.usage ==>
      g in s'.owner && s'.owner[g] == s.owner[g] && g in s'.usage && s'.usage[g] == s.usage[g]
  }

  lemma ZonePagesStay(c: Config, s: State, s': State, p: int)
    requires ZonePages(c, s, p) && PagesStay(s, s')
    ensures ZonePages(c, s', p)
  {
    forall off | 0 <= off < c.zonePages ensures ZonePage(s', p, off) {
      assert ZonePage(s, p, off);
    }
  }

  /** Same layout, at least as many chunks handed out. */
  ghost predicate Grew(z: Zone, z': Zone) {
    z'.base == z.base && z'.chunk == z.chunk && z'.uindex >= z.uindex
  }

  lemma LiveStays(c: Config, s: State, s': State, a: int)
    requires a in s.live && LiveOk(c, s, a) && a in s'.live && s'.live[a] == s.live[a]
    requires forall g :: g in s.owner ==> g in s'.owner && s'.owner[g] == s.owner[g]
    requires PagesStay(s, s')
    requires s.live[a].Small? ==> s.live[a].z in s'.zones && Grew(s.zones[s.live[a].z], s'.zones[s.live[a].z])
    ensures LiveOk(c, s', a)
  {
    if s.live[a].Large? {
      var Large(b, n, size) := s.live[a];
      assert LargePage(s, b, 0);
      forall i | 0 <= i < n ensures LargePage(s', b, i) {
        assert LargePage(s, b, i);
      }
    }
  }

  lemma GrantLargeInv(c: Config, s: State, b: int, n: int)
    requires Sane(c) && Core(c, s) && n > 0 && Interval(b, n) !! s.owner.Keys
    ensures Core(c, GrantLarge(c, s, b, n)) && b * c.page !in s.live
  {
    hide Sum, ChunkAddr, Interval, ChunkState;
    var s', a := GrantLarge(c, s, b, n), b * c.page;
    GrantFresh(c, s, b, n);
    GrantLive(c, s, b, n);
    SumAdd(s.live, a, Large(b, n, n * c.page));
    assert n * c.page > 0 by { MulLe(1, n, c.page); }
    forall p | p in s'.zones ensures ZoneOk(c, s', p) {
      assert ZoneOk(c, s, p);
      ZonePagesStay(c, s, s', p);
      SmallElsewhere(s, s', a, p);
    }
    forall k | 0 <= k < NZONES ensures ListOk(s', k) { assert ListOk(s, k); }
    forall p | p in s'.idle ensures p !in s'.zones && ZonePages(c, s', p) { ZonePagesStay(c, s, s', p); }
  }

  lemma GrantFresh(c: Config, s: State, b: int, n: int)
    requires Sane(c) && Core(c, s) && n > 0 && Interval(b, n) !! s.owner.Keys
    ensures b * c.page !in s.live && b !in s.owner
  {
    hide Sum, ChunkAddr, ChunkState;
    var a := b * c.page;
    assert b in Interval(b, n);
    PageOf(a, b, 1, c.page);
    if a in s.live { FirstByte(c, s, a); }
  }

  /** The new block and the old ones, and the pages of all of them */
  lemma GrantLive(c: Config, s: State, b: int, n: int)
    requires Sane(c) && Core(c, s) && n > 0 && Interval(b, n) !! s.owner.Keys && b * c.page !in s.live && b !in s.owner
    ensures var s' := GrantLarge(c, s, b, n);
      (forall x :: x in s'.live ==> LiveOk(c, s', x)) && (forall g :: g in s'.owner ==> OwnedOk(c, s', g))
  {
    hide Sum, ChunkAddr, Interval, ChunkState, ZoneShape, ZoneChunks, ListOk, Listed;
    var s', a := GrantLarge(c, s, b, n), b * c.page;
    forall x | x in s'.live ensures LiveOk(c, s', x) {
      if x == a {
        forall i | 0 <= i < n ensures LargePage(s', b, i) { InInterval(b, n, i); }
      } else {
        assert LiveOk(c, s, x);
        LiveStays(c, s, s', x);
      }
    }
    forall g | g in s'.owner ensures OwnedOk(c, s', g) {
      if g in s.owner { assert OwnedOk(c, s, g); } else { BoundsOf(b, n, g); }
    }
  }

  lemma InInterval(b: int, n: int, i: int)
    requires 0 <= i < n
    ensures b + i in Interval(b, n)
  {
  }

  lemma BoundsOf(b: int, n: int, g: int)
    requires g in Interval(b, n)
    ensures b <= g < b + n
  {
  }

  /** A live block's first page is owned. */
  lemma FirstByte(c: Config, s: State, a: int)
    requires Sane(c) && Core(c, s) && a in s.live
    ensures a / c.page in s.owner && s.live[a].size > 0
  {
    hide Sum, ChunkState;
    assert LiveOk(c, s, a);
    if s.live[a].Small? { assert ZoneOk(c, s, s.live[a].z); } else { MulLe(1, s.live[a].n, c.page); }
    SameOwner(c, s, a, a);
  }

  /** A new or dead entry of the live map that is no chunk of zone p leaves its chunks as they are. */
  lemma SmallElsewhere(s: State, s': State, a: int, p: int)
    requires p in s.zones && p in s'.zones && s'.zones[p] == s.zones[p] && ZoneChunks(s, p)
    requires forall x :: x != a ==> (x in s.live <==> x in s'.live) && (x in s.live ==> s'.live[x] == s.live[x])
    requires a in s.live ==> !(s.live[a].Small? && s.live[a].z == p)
    requires a in s'.live ==> !(s'.live[a].Small? && s'.live[a].z == p)
    ensures ZoneChunks(s', p)
  {
    forall i | 0 <= i <= s.zones[p].uindex ensures ChunkState(s', p, i) {
      assert ChunkState(s, p, i);
    }
  }

  /** An address of zone p is live only as that chunk of that zone. */
  lemma ChunkIsMine(c: Config, s: State, p: int, j: int)
    requires Sane(c) && Core(c, s) && p in s.zones && 0 <= j < s.zones[p].nmax
    ensures var a := ChunkAddr(s.zones[p], j);
      a in s.live ==> s.live[a] == Small(p, j, s.zones[p].chunk) && j <= s.zones[p].uindex
  {
    hide Sum, ChunkState, ChunkAddr, ListOk, Listed;
    var z, a := s.zones[p], ChunkAddr(s.zones[p], j);
    assert ZoneOk(c, s, p);
    ChunkPage(c, p, z, j);
    assert ZonePage(s, p, a / c.page - p);
    if a in s.live {
      FirstByte(c, s, a);
      SameOwner(c, s, a, a);
      assert LiveOk(c, s, a);
      ChunkInjective(z, j, s.live[a].i);
    }
  }

  /** The index of the chunk Popped yields. */
  ghost predicate PopIndex(z: Zone, i: int) {
    if z.uindex + 1 != z.nmax then i == z.uindex + 1 else z.free != [] && IsChunk(z, z.free[0], i)
  }

  lemma PoppedShape(c: Config, p: int, z: Zone, i: int)
    requires Sane(c) && ZoneShape(c, p, z) && z.nfree > 0 && PopIndex(z, i)
    ensures z.uindex + 1 != z.nmax || z.free != []
    ensures var (z', a) := Popped(z);
      && ZoneShape(c, p, z') && a == ChunkAddr(z, i) && IsChunk(z', a, i) && Grew(z, z')
      && a !in z'.free && z'.zi == z.zi && z'.nfree == z.nfree - 1
      && (forall x :: x in z'.free ==> x in z.free) && (forall x :: x in z.free && x != a ==> x in z'.free)
      && z'.uindex <= z.uindex + 1 && (z'.uindex == z.uindex + 1 ==> i == z'.uindex)
  {
    hide ChunkOf;
    var (z', a) := Popped(z);
    forall x | x in z'.free ensures exists t :: IsChunk(z', x, t) {
      assert x in z.free;
      var t :| IsChunk(z, x, t);
      assert IsChunk(z', x, t);
    }
    if z.uindex + 1 != z.nmax && a in z.free {
      var t :| IsChunk(z, a, t);
      ChunkInjective(z, t, i);
    }
  }

  /** Handing out a chunk of an existing zone. */
  lemma TakeChunkInv(c: Config, s: State, k: int, i: int)
    requires Sane(c) && Core(c, s) && 0 <= k < NZONES && s.lists[k] != []
    requires s.lists[k][0] in s.zones && PopIndex(s.zones[s.lists[k][0]], i)
    ensures var z := s.zones[s.lists[k][0]]; (z.uindex + 1 != z.nmax || z.free != []) && Popped(z).1 !in s.live && z.chunk == ChunkOf(k)
    ensures Core(c, TakeChunk(s, k, i))
  {
    hide Sum, ChunkAddr, ChunkState, ZoneShape, Popped;
    var p := s.lists[k][0];
    var z := s.zones[p];
    assert ListOk(s, k) && p in s.lists[k];
    assert ZoneOk(c, s, p);
    ShapeFacts(c, p, z);
    PoppedShape(c, p, z, i);
    var (z', a) := Popped(z);
    PoppedChunks(c, s, p, i);
    var s' := TakeChunk(s, k, i);
    SumAdd(s.live, a, Small(p, i, z.chunk));
    forall q | q in s'.zones ensures ZoneOk(c, s', q) {
      assert ZoneOk(c, s, q);
      ZonePagesStay(c, s, s', q);
      TakeListed(s, s', k, p, q);
      if q != p { SmallElsewhere(s, s', a, q); } else { PoppedStates(s, s', p, i, a); }
    }
    forall j | 0 <= j < NZONES ensures ListOk(s', j) { assert ListOk(s, j); TakeList(s, s', k, j); }
    forall q | q in s'.idle ensures q !in s'.zones && ZonePages(c, s', q) { ZonePagesStay(c, s, s', q); }
    forall x | x in s'.live ensures LiveOk(c, s', x) {
      if x != a { assert LiveOk(c, s, x); LiveStays(c, s, s', x); }
    }
    forall g | g in s'.owner ensures OwnedOk(c, s', g) { assert OwnedOk(c, s, g); OwnedStays(c, s, s', a, g); }
  }

  lemma ShapeFacts(c: Config, p: int, z: Zone)
    requires ZoneShape(c, p, z)
    ensures z.chunk == ChunkOf(z.zi) > 0 && 0 <= z.zi < NZONES && 0 <= z.uindex < z.nmax && z.nmax >= 2
    ensures z.nfree == z.nmax - 1 - z.uindex + |z.free| && Ring.Distinct(z.free)
  {
  }

  /** The popped chunk was not live, and no chunk of the zone had its address. */
  lemma PoppedChunks(c: Config, s: State, p: int, i: int)
    requires Sane(c) && Core(c, s) && p in s.zones && s.zones[p].nfree > 0 && PopIndex(s.zones[p], i)
    ensures ChunkAddr(s.zones[p], i) !in s.live
  {
    hide Sum, ChunkAddr;
    assert ZoneOk(c, s, p);
    ChunkIsMine(c, s, p, i);
    var z := s.zones[p];
    if z.uindex + 1 == z.nmax { assert z.free[0] in z.free; assert ChunkState(s, p, i); }
  }

  lemma PoppedStates(s: State, s': State, p: int, i: int, a: int)
    requires p in s.zones && p in s'.zones && ZoneChunks(s, p) && s.zones[p].chunk > 0
    requires var z, z' := s.zones[p], s'.zones[p];
      && Grew(z, z') && a == ChunkAddr(z, i) && a !in z'.free && 0 <= i <= z'.uindex <= z.uindex + 1
      && (forall x :: x in z'.free ==> x in z.free) && (forall x :: x in z.free && x != a ==> x in z'.free)
      && (z'.uindex == z.uindex + 1 ==> i == z'.uindex)
      && s'.live == s.live[a := Small(p, i, z.chunk)]
    ensures ZoneChunks(s', p)
  {
    forall j | 0 <= j <= s'.zones[p].uindex ensures ChunkState(s', p, j) {
      if j != i {
        assert ChunkState(s, p, j);
        if ChunkAddr(s.zones[p], j) == a { ChunkInjective(s.zones[p], i, j); }
      }
    }
  }

  lemma TakeListed(s: State, s': State, k: int, p: int, q: int)
    requires 0 <= k < |s.lists| && s.lists[k] != [] && s.lists[k][0] == p && q in s.zones && q in s'.zones && Listed(s, q)
    requires q != p ==> s'.zones[q] == s.zones[q]
    requires p in s.zones && p in s'.zones && s'.zones[p].zi == s.zones[p].zi == k && s'.zones[p].nfree == s.zones[p].nfree - 1
    requires s'.lists == if s'.zones[p].nfree == 0 then s.lists[k := s.lists[k][1..]] else s.lists
    ensures Listed(s', q)
  {
  }

  lemma TakeList(s: State, s': State, k: int, j: int)
    requires 0 <= k < |s.lists| && 0 <= j < |s.lists| && s.lists[k] != [] && ListOk(s, j) && ListOk(s, k)
    requires var p := s.lists[k][0];
      && p in s.zones && p in s'.zones
      && s'.zones[p].zi == s.zones[p].zi && s'.zones[p].nfree == s.zones[p].nfree - 1
      && (forall q :: q in s.zones && q != p ==> q in s'.zones && s'.zones[q] == s.zones[q])
      && s'.lists == if s'.zones[p].nfree == 0 then s.lists[k := s.lists[k][1..]] else s.lists
    ensures ListOk(s', j)
  {
    var p := s.lists[k][0];
    assert p in s.lists[k];
    if j == k {
      var t := s.lists[k][1..];
      assert forall i :: 0 <= i < |t| ==> t[i] == s.lists[k][i + 1];
    }
  }

  lemma OwnedStays(c: Config, s: State, s': State, a: int, g: int)
    requires g in s.owner && g in s'.owner && s'.owner[g] == s.owner[g] && OwnedOk(c, s, g)
    requires forall q :: q in s.zones || q in s.idle ==> q in s'.zones || q in s'.idle
    requires forall x :: x in s.live && x != a ==> x in s'.live && s'.live[x] == s.live[x]
    requires a in s.live ==> s.live[a].Small?
    ensures OwnedOk(c, s', g)
  {
  }

  // ---------------------------------------------------------------- new zones

  /** Fresh pages are not pages of any zone. */
  lemma NotAZone(c: Config, s: State, p: int)
    requires Sane(c) && Core(c, s)
    ensures p in s.zones || p in s.idle ==> p in s.owner
  {
    if p in s.zones { assert ZoneOk(c, s, p); }
    if p in s.zones || p in s.idle { assert ZonePage(s, p, 0); }
  }

  /** The new zone's pages are marked as its own, the others stay as they are. */
  lemma AdoptPages(c: Config, s: State, p: int)
    requires Interval(p, c.zonePages) !! s.owner.Keys
    ensures var s' := Adopt(c, s, p);
      PagesStay(s, s') && ZonePages(c, s', p) && forall g :: g in s.owner ==> g in s'.owner && s'.owner[g] == s.owner[g]
  {
    hide Interval;
    var s' := Adopt(c, s, p);
    forall off | 0 <= off < c.zonePages ensures ZonePage(s', p, off) {
      assert p + off in Interval(p, c.zonePages);
    }
    forall g | g in s.owner && g in s.usage
      ensures g in s'.owner && s'.owner[g] == s.owner[g] && g in s'.usage && s'.usage[g] == s.usage[g]
    {
      assert g !in Interval(p, c.zonePages);
    }
  }

  lemma AdoptInv(c: Config, s: State, p: int)
    requires Sane(c) && Core(c, s) && Interval(p, c.zonePages) !! s.owner.Keys
    ensures Core(c, Adopt(c, s, p))
  {
    hide Sum, ChunkAddr, ChunkState, Interval, ZoneShape, ZoneChunks, ListOk, Ring.Distinct;
    var s' := Adopt(c, s, p);
    assert p in Interval(p, c.zonePages);
    NotAZone(c, s, p);
    AdoptPages(c, s, p);
    hide PagesStay, ZonePages, Marks;
    forall q | q in s'.zones ensures ZoneOk(c, s', q) {
      assert ZoneOk(c, s, q);
      ZonePagesStay(c, s, s', q);
      SmallSame(s, s', q);
    }
    forall k | 0 <= k < NZONES ensures ListOk(s', k) { ListSame(s, s', k); }
    forall q | q in s'.idle ensures q !in s'.zones && ZonePages(c, s', q) {
      if q != p { ZonePagesStay(c, s, s', q); }
    }
    Ring.PushDistinct(s.idle, p);
    forall x | x in s'.live ensures LiveOk(c, s', x) { assert LiveOk(c, s, x); LiveStays(c, s, s', x); }
    forall g | g in s'.owner ensures OwnedOk(c, s', g) {
      if g in s.owner { assert OwnedOk(c, s, g); }
    }
  }

  lemma SmallSame(s: State, s': State, p: int)
    requires p in s.zones && ZoneChunks(s, p) && p in s'.zones && s'.zones[p] == s.zones[p] && s'.live == s.live
    ensures ZoneChunks(s', p)
  {
    forall i | 0 <= i <= s.zones[p].uindex ensures ChunkState(s', p, i) { assert ChunkState(s, p, i); }
  }

  lemma ListSame(s: State, s': State, k: int)
    requires 0 <= k < |s.lists| && ListOk(s, k) && s'.zones == s.zones && s'.lists == s.lists
    ensures ListOk(s', k)
  {
  }

  /** The layout of a new zone: at least two chunks, all inside its pages. */
  lemma FreshShape(c: Config, p: int, k: int)
    requires Sane(c) && 0 <= k < NZONES && ChunkOf(k) <= c.limit
    ensures ChunkOf(k) > 0 && ZoneShape(c, p, FreshZone(c, p, ChunkOf(k), k))
    ensures FreshZone(c, p, ChunkOf(k), k).nfree > 0
  {
    assert ChunkOf(k) >= 8;
    hide ChunkOf, Align, PowerOfTwo;
    var size, zs := ChunkOf(k), c.page * c.zonePages;
    RoundFacts(c.header, size);
    RoundFacts(c.header, 8);
    var off := Offset(c, size);
    FitsTwice(zs - off, size);
    Distribute(p, c.zonePages, c.page);
    FreshAt(c, p, size, k, off);
  }

  lemma Distribute(p: int, n: int, f: int)
    ensures (p + n) * f == p * f + f * n && n * f == f * n
  {
  }

  lemma FreshAt(c: Config, p: int, size: int, k: int, off: int)
    requires 0 <= k < NZONES && size == ChunkOf(k) && size > 0 && off == Offset(c, size) && c.header <= off
    requires var room := c.page * c.zonePages - off; room / size >= 2 && room / size * size <= room
    requires (p + c.zonePages) * c.page == p * c.page + c.page * c.zonePages
    ensures ZoneShape(c, p, FreshZone(c, p, size, k)) && FreshZone(c, p, size, k).nfree > 0
  {
    hide ChunkOf, Offset;
    var zs := c.page * c.zonePages;
    assert FreshZone(c, p, size, k) == Zone((zs - off) / size - 1, (zs - off) / size, p * c.page + off, 0, size, k, []);
  }

  lemma FitsTwice(room: int, size: int)
    requires size > 0 && room >= 2 * size
    ensures room / size >= 2 && room / size * size <= room
  {
    assert room == room / size * size + room % size;
    MulLe(room / size + 1, 2, size);
  }

  /** The header comment promises that power-of-two sized chunks are aligned to their size.  They
      are exactly when the first page of the zone is: always for sizes that divide the page size,
      and by luck of the page allocator for larger ones. */
  lemma PowerOfTwoAligned(c: Config, p: int, size: int, k: int, i: int)
    requires c.page > 0 && c.header > 0 && size > 0 && PowerOfTwo(size)
    ensures ChunkAddr(FreshZone(c, p, size, k), i) % size == 0 <==> p * c.page % size == 0
    ensures c.page % size == 0 ==> ChunkAddr(FreshZone(c, p, size, k), i) % size == 0
  {
    hide PowerOfTwo;
    RoundFacts(c.header, size);
    var q := Align(c.header, size) / size;
    var z := FreshZone(c, p, size, k);
    assert ChunkAddr(z, i) == p * c.page + (q + i) * size by {
      assert (q + i) * size == q * size + i * size;
    }
    ModShift(p * c.page, q + i, size);
    if c.page % size == 0 {
      var t := c.page / size;
      assert c.page == t * size + c.page % size;
      assert p * c.page == 0 + (p * t) * size;
      ModShift(0, p * t, size);
    }
  }

  lemma ModShift(x: int, q: int, size: int)
    requires size > 0
    ensures (x + q * size) % size == x % size
  {
    var r := x % size;
    assert x == x / size * size + r;
    assert x + q * size == (x / size + q) * size + r by {
      assert (x / size + q) * size == x / size * size + q * size;
    }
    DivModUnique(x + q * size, size, x / size + q, r);
  }

  /** On the smaller heaps this goes wrong at once: with 4 KB pages, up to 1024 of them from an even page on,
      the memusage array takes the first page, so the first request of 8000 bytes opens a zone at an odd
      page, and the 8 KB chunk it gets is aligned to 4 KB only. */
  lemma MisalignedZone(start: nat, npages: nat, runs: seq<Run>, runs': seq<Run>, s': State, ok: bool, a: int)
    requires start % 2 == 0 && 9 <= npages <= 1024
    requires InitStep(Config(4096, 8, 8192, 36), start, npages, runs)
    requires MallocStep(Config(4096, 8, 8192, 36), runs, Empty(), 8000, runs', s', ok, a)
    ensures Sane(Config(4096, 8, 8192, 36)) && PowerOfTwo(8192)
    ensures ok && a in s'.live && s'.live[a].size == 8192 && a % 8192 == 4096
  {
    hide *;
    var c := Config(4096, 8, 8192, 36);
    SmallHeap(c);
    MorePowers();
    UsagePage(c, start, npages, runs);
    FirstStep(c, runs, runs', s', ok, a);
    var p :| NewZoneStep(c, runs, Empty(), 8192, 63, runs', s', ok, p, a);
    FirstZone(c, start, npages, runs, runs', s', ok, p, a);
    FirstChunkAt(c, start + 1);
    OddPage(start);
  }

  lemma SmallHeap(c: Config)
    requires c == Config(4096, 8, 8192, 36)
    ensures Sane(c) && |Empty().lists| == 72
  {
  }

  lemma UsagePage(c: Config, start: int, npages: nat, runs: seq<Run>)
    requires c.page == 4096 && 0 < npages <= 1024 && InitStep(c, start, npages, runs)
    ensures exists b :: AllocStep([Run(start, npages)], 1, runs, true, b)
  {
    hide AllocStep, Align;
    OneUsagePage(npages);
  }

  lemma FirstStep(c: Config, runs: seq<Run>, runs': seq<Run>, s': State, ok: bool, a: int)
    requires c == Config(4096, 8, 8192, 36) && MallocStep(c, runs, Empty(), 8000, runs', s', ok, a)
    ensures exists p :: NewZoneStep(c, runs, Empty(), 8192, 63, runs', s', ok, p, a)
  {
    hide NewZoneStep, ZoneIndex, LargeStep;
    ClassOf8000();
    assert Empty().lists[63] == [];
  }

  lemma FirstZone(c: Config, start: nat, npages: nat, runs: seq<Run>, runs': seq<Run>, s': State, ok: bool, p: int, a: int)
    requires c.zonePages == 8 && npages >= 9 && NewZoneStep(c, runs, Empty(), 8192, 63, runs', s', ok, p, a)
    requires exists b :: AllocStep([Run(start, npages)], 1, runs, true, b)
    ensures ok && p == start + 1 && a == FreshZone(c, start + 1, 8192, 63).base
    ensures a in s'.live && s'.live[a].size == 8192
  {
    hide Room, PagesOf, FreshZone, Marks, Owned;
    var b :| AllocStep([Run(start, npages)], 1, runs, true, b);
    SecondPage(start, npages, runs, b, runs', ok, p);
    OpenedLive(c, Adopt(c, Empty(), p), 8192, 63);
  }

  lemma OddPage(start: nat)
    requires start % 2 == 0
    ensures ((start + 1) * 4096 + 8192) % 8192 == 4096
  {
    assert (start + 1) * 4096 + 8192 == (start / 2 + 1) * 8192 + 4096;
  }

  lemma OpenedLive(c: Config, s: State, size: int, k: int)
    requires s.idle != [] && size > 0 && 0 <= k < |s.lists|
    ensures var a, s' := FreshZone(c, s.idle[0], size, k).base, OpenZone(c, s, size, k); a in s'.live && s'.live[a].size == size
  {
    hide FreshZone;
  }

  lemma OneUsagePage(n: nat)
    requires 0 < n <= 1024
    ensures Align(4 * n, 4096) / 4096 == 1
  {
    assert (4 * n + 4095) / 4096 == 1;
  }

  lemma ClassOf8000()
    ensures ZoneIndex(8000) == (8192, 63)
  {
    assert Align(8000, 512) == 8192;
  }

  lemma FirstChunkAt(c: Config, p: int)
    requires c == Config(4096, 8, 8192, 36)
    ensures FreshZone(c, p, 8192, 63).base == p * 4096 + 8192
  {
    hide PowerOfTwo;
    MorePowers();
    assert Align(36, 8192) == 8192;
  }

  /** The memusage array is at the first page, and the zone right behind it. */
  lemma SecondPage(start: nat, npages: nat, runs: seq<Run>, b: int, runs': seq<Run>, ok: bool, p: int)
    requires npages >= 9 && AllocStep([Run(start, npages)], 1, runs, true, b) && AllocStep(runs, 8, runs', ok, p)
    ensures b == start && ok && p == start + 1
  {
    PagesOne(Run(start, npages));
    var all := PagesOf([Run(start, npages)]);
    assert Room(all, start, 1);
    assert Interval(start, 1) == {start} && b in Interval(b, 1);
    assert PagesOf(runs) == Interval(start, npages) - {start};
    assert Room(PagesOf(runs), start + 1, 8);
    if ok { assert p in Interval(p, 8); }
  }

  lemma Powers()
    ensures PowerOfTwo(64)
  {
    assert PowerOfTwo(8) && PowerOfTwo(16) && PowerOfTwo(32);
  }

  lemma MorePowers()
    ensures PowerOfTwo(8192)
  {
    Powers();
    assert PowerOfTwo(128) && PowerOfTwo(256) && PowerOfTwo(512);
    assert PowerOfTwo(1024) && PowerOfTwo(2048) && PowerOfTwo(4096);
  }

  lemma OpenZoneInv(c: Config, s: State, k: int)
    requires Sane(c) && Core(c, s) && s.idle != [] && 0 <= k < NZONES && 0 < ChunkOf(k) <= c.limit
    ensures Core(c, OpenZone(c, s, ChunkOf(k), k))
    ensures FreshZone(c, s.idle[0], ChunkOf(k), k).base !in s.live
  {
    hide Sum, ChunkState, ChunkOf, ZoneShape, FreshZone;
    var p, size := s.idle[0], ChunkOf(k);
    var z, s' := FreshZone(c, p, size, k), OpenZone(c, s, size, k);
    assert p in s.idle;
    FreshShape(c, p, k);
    FreshFacts(c, p, k);
    OpenFresh(c, s, p, z);
    SumAdd(s.live, z.base, Small(p, 0, size));
    forall q | q in s'.zones ensures ZoneOk(c, s', q) {
      if q != p {
        assert ZoneOk(c, s, q);
        SmallElsewhere(s, s', z.base, q);
      } else {
        assert ChunkState(s', p, 0) by { FirstState(s', p); }
      }
      ZonePagesStay(c, s, s', q);
    }
    forall j | 0 <= j < NZONES ensures ListOk(s', j) {
      assert ListOk(s, j);
      if j == k { assert p !in s.lists[k]; Ring.PushDistinct(s.lists[k], p); }
    }
    IdleTail(s.idle);
    forall q | q in s'.idle ensures q !in s'.zones && ZonePages(c, s', q) { assert q in s.idle; ZonePagesStay(c, s, s', q); }
    forall x | x in s'.live ensures LiveOk(c, s', x) {
      if x != z.base { assert LiveOk(c, s, x); LiveStays(c, s, s', x); }
    }
    forall g | g in s'.owner ensures OwnedOk(c, s', g) { assert OwnedOk(c, s, g); OwnedStays(c, s, s', z.base, g); }
  }

  lemma FirstState(s: State, p: int)
    requires p in s.zones && s.zones[p].free == [] && s.zones[p].base in s.live
    requires s.live[s.zones[p].base] == Small(p, 0, s.zones[p].chunk)
    ensures ChunkState(s, p, 0)
  {
  }

  lemma FreshFacts(c: Config, p: int, k: int)
    requires ChunkOf(k) > 0
    ensures var z := FreshZone(c, p, ChunkOf(k), k);
      z.zi == k && z.chunk == ChunkOf(k) && z.uindex == 0 && z.free == [] && ChunkAddr(z, 0) == z.base
  {
  }

  lemma IdleTail(l: seq<int>)
    requires Ring.Distinct(l) && l != []
    ensures Ring.Distinct(l[1..]) && l[0] !in l[1..] && forall x :: x in l ==> x == l[0] || x in l[1..]
  {
    assert l == [l[0]] + l[1..];
  }

  /** Nothing is live inside a zone nobody uses. */
  lemma OpenFresh(c: Config, s: State, p: int, z: Zone)
    requires Sane(c) && Core(c, s) && p in s.idle && ZoneShape(c, p, z)
    ensures ChunkAddr(z, 0) !in s.live
  {
    hide Sum, ChunkState;
    var a := ChunkAddr(z, 0);
    ChunkPage(c, p, z, 0);
    assert ZonePage(s, p, a / c.page - p);
    if a in s.live {
      FirstByte(c, s, a);
      assert LiveOk(c, s, a);
      SameOwner(c, s, a, a);
    }
  }

  // ---------------------------------------------------------------- giving back

  lemma DropLargeInv(c: Config, s: State, a: int)
    requires Sane(c) && Core(c, s) && a in s.live && s.live[a].Large?
    ensures Core(c, DropLarge(c, s, a))
    ensures Interval(s.live[a].b, s.live[a].n) <= s.owner.Keys && s.live[a].n > 0
  {
    hide Sum, ChunkAddr, ChunkState, Interval, ZoneShape;
    var s', b, n := DropLarge(c, s, a), s.live[a].b, s.live[a].n;
    assert LiveOk(c, s, a);
    forall g | g in Interval(b, n) ensures g in s.owner && s.owner[g] == ByLarge(b) { assert LargePage(s, b, g - b); }
    SumRemove(s.live, a);
    assert n * c.page > 0 by { MulLe(1, n, c.page); }
    forall q | q in s'.zones ensures ZoneOk(c, s', q) {
      assert ZoneOk(c, s, q);
      ZonePagesKept(c, s, s', q);
      SmallElsewhere(s, s', a, q);
    }
    forall k | 0 <= k < NZONES ensures ListOk(s', k) { assert ListOk(s, k); }
    forall q | q in s'.idle ensures q !in s'.zones && ZonePages(c, s', q) { ZonePagesKept(c, s, s', q); }
    forall x | x in s'.live ensures LiveOk(c, s', x) {
      assert LiveOk(c, s, x);
      LargeKept(c, s, s', b, n, x);
    }
    forall g | g in s'.owner ensures OwnedOk(c, s', g) { assert OwnedOk(c, s, g); assert s.owner[g] != ByLarge(b); }
  }

  /** Zones survive when pages of others are given back. */
  lemma ZonePagesKept(c: Config, s: State, s': State, p: int)
    requires ZonePages(c, s, p)
    requires forall g :: g in s.owner && s.owner[g] == ByZone(p) ==> g in s'.owner && s'.owner[g] == s.owner[g]
    requires forall g :: g in s.owner && s.owner[g] == ByZone(p) && g in s.usage ==> g in s'.usage && s'.usage[g] == s.usage[g]
    ensures ZonePages(c, s', p)
  {
    forall off | 0 <= off < c.zonePages ensures ZonePage(s', p, off) {
      assert ZonePage(s, p, off);
    }
  }

  lemma LargeKept(c: Config, s: State, s': State, b: int, n: int, x: int)
    requires x in s.live && LiveOk(c, s, x) && x in s'.live && s'.live[x] == s.live[x] && s'.zones == s.zones
    requires s.live[x].Large? ==> s.live[x].b != b
    requires forall g :: g in s.owner && s.owner[g] != ByLarge(b) ==> g in s'.owner && s'.owner[g] == s.owner[g]
    requires forall g :: g in s.owner && s.owner[g] != ByLarge(b) && g in s.usage ==> g in s'.usage && s'.usage[g] == s.usage[g]
    ensures LiveOk(c, s', x)
  {
    if s.live[x].Large? {
      assert LargePage(s, s.live[x].b, 0);
      forall i | 0 <= i < s.live[x].n ensures LargePage(s', s.live[x].b, i) { assert LargePage(s, s.live[x].b, i); }
    }
  }

  lemma PutShape(c: Config, p: int, z: Zone, a: int, i: int)
    requires ZoneShape(c, p, z) && IsChunk(z, a, i) && a !in z.free
    ensures ZoneShape(c, p, z.(free := [a] + z.free, nfree := z.nfree + 1))
  {
    hide ChunkOf;
    var z' := z.(free := [a] + z.free, nfree := z.nfree + 1);
    Ring.PushDistinct(z.free, a);
    forall x | x in z'.free ensures exists t :: IsChunk(z', x, t) {
      if x == a {
        assert IsChunk(z', x, i);
      } else {
        var t :| IsChunk(z, x, t);
        assert IsChunk(z', x, t);
      }
    }
  }

  /** A live chunk goes back to its zone. */
  lemma PutChunkInv(c: Config, s: State, a: int)
    requires Sane(c) && Core(c, s) && a in s.live && s.live[a].Small?
    ensures s.live[a].z in s.zones && Core(c, PutChunk(s, a))
    ensures var z := PutChunk(s, a).zones[s.live[a].z]; z.nfree == s.zones[s.live[a].z].nfree + 1 && z.zi == s.zones[s.live[a].z].zi
  {
    hide Sum, ChunkAddr, ChunkState, ZoneShape;
    assert LiveOk(c, s, a);
    var p, i := s.live[a].z, s.live[a].i;
    var z, s' := s.zones[p], PutChunk(s, a);
    assert ZoneOk(c, s, p);
    ShapeFacts(c, p, z);
    NotFree(s, p, i, a);
    PutShape(c, p, z, a, i);
    SumRemove(s.live, a);
    forall q | q in s'.zones ensures ZoneOk(c, s', q) {
      assert ZoneOk(c, s, q);
      ZonePagesStay(c, s, s', q);
      if q != p { SmallElsewhere(s, s', a, q); } else { PutStates(s, s', p, i, a); }
    }
    forall j | 0 <= j < NZONES ensures ListOk(s', j) {
      assert ListOk(s, j);
      if j == z.zi && z.nfree == 0 { Ring.PushDistinct(s.lists[j], p); }
    }
    forall q | q in s'.idle ensures q !in s'.zones && ZonePages(c, s', q) { ZonePagesStay(c, s, s', q); }
    forall x | x in s'.live ensures LiveOk(c, s', x) { assert LiveOk(c, s, x); LiveStays(c, s, s', x); }
    forall g | g in s'.owner ensures OwnedOk(c, s', g) { assert OwnedOk(c, s, g); OwnedStays(c, s, s', a, g); }
  }

  lemma NotFree(s: State, p: int, i: int, a: int)
    requires p in s.zones && ZoneChunks(s, p) && IsChunk(s.zones[p], a, i)
    requires a in s.live && s.live[a] == Small(p, i, s.zones[p].chunk)
    ensures a !in s.zones[p].free
  {
    assert ChunkState(s, p, i);
  }

  lemma PutStates(s: State, s': State, p: int, i: int, a: int)
    requires p in s.zones && p in s'.zones && ZoneChunks(s, p) && s.zones[p].chunk > 0 && IsChunk(s.zones[p], a, i)
    requires s'.zones[p] == s.zones[p].(free := [a] + s.zones[p].free, nfree := s.zones[p].nfree + 1)
    requires s'.live == s.live - {a}
    ensures ZoneChunks(s', p)
  {
    forall j | 0 <= j <= s.zones[p].uindex ensures ChunkState(s', p, j) {
      assert ChunkState(s, p, j);
      if ChunkAddr(s.zones[p], j) == a { ChunkInjective(s.zones[p], i, j); }
    }
  }

  // ---------------------------------------------------------------- empty zones

  /** The addresses of the chunks 0 .. n-1 of a zone. */
  ghost function Addrs(z: Zone, n: nat): (r: set<int>)
    ensures |r| <= n
    ensures forall i :: 0 <= i < n ==> ChunkAddr(z, i) in r
    ensures forall a :: a in r ==> exists i :: 0 <= i < n && a == ChunkAddr(z, i)
  {
    if n == 0 then {} else Addrs(z, n - 1) + {ChunkAddr(z, n - 1)}
  }

  ghost function SetOf(l: seq<int>): set<int> {
    set a | a in l
  }

  lemma {:induction false} SetOfSize(l: seq<int>)
    requires Ring.Distinct(l)
    ensures |SetOf(l)| == |l|
  {
    if l == [] {
      assert SetOf(l) == {};
    } else {
      IdleTail(l);
      SetOfSize(l[1..]);
      assert SetOf(l) == SetOf(l[1..]) + {l[0]};
    }
  }

  lemma SubsetFull(x: set<int>, y: set<int>)
    requires x <= y && |y| <= |x|
    ensures x == y
  {
    assert |y - x| == |y| - |x|;
  }

  /** A zone with z_nfree equal to z_nmax has no live chunk. */
  lemma EmptyZone(c: Config, s: State, p: int)
    requires Sane(c) && Core(c, s) && p in s.zones && s.zones[p].nfree == s.zones[p].nmax
    ensures forall a :: a in s.live && s.live[a].Small? ==> s.live[a].z != p
  {
    hide Sum, ChunkAddr, ChunkState, ListOk, ZonePages;
    var z := s.zones[p];
    assert ZoneOk(c, s, p);
    ShapeFacts(c, p, z);
    SetOfSize(z.free);
    var all := Addrs(z, z.uindex + 1);
    forall a | a in SetOf(z.free) ensures a in all { FreeIsChunk(c, p, z, a); }
    SubsetFull(SetOf(z.free), all);
    forall a | a in s.live && s.live[a].Small? && s.live[a].z == p ensures false {
      assert LiveOk(c, s, a);
      assert a in SetOf(z.free);
      NotFree(s, p, s.live[a].i, a);
    }
  }

  lemma FreeIsChunk(c: Config, p: int, z: Zone, a: int)
    requires ZoneShape(c, p, z) && a in z.free
    ensures a in Addrs(z, z.uindex + 1)
  {
    var i :| IsChunk(z, a, i);
  }

  lemma ParkInv(c: Config, s: State, p: int)
    requires Sane(c) && Core(c, s) && p in s.zones && s.zones[p].nfree == s.zones[p].nmax
    ensures Core(c, Park(s, p)) && Park(s, p).idle == [p] + s.idle && p !in s.idle
  {
    hide Sum, ChunkAddr, ChunkState, ZoneShape, Ring.Without;
    var z, s' := s.zones[p], Park(s, p);
    assert ZoneOk(c, s, p);
    ShapeFacts(c, p, z);
    assert ListOk(s, z.zi);
    Ring.WithoutMembers(s.lists[z.zi], p);
    EmptyZone(c, s, p);
    Ring.PushDistinct(s.idle, p);
    forall q | q in s'.zones ensures ZoneOk(c, s', q) {
      assert ZoneOk(c, s, q);
      ZonePagesStay(c, s, s', q);
      SmallSame(s, s', q);
    }
    forall j | 0 <= j < NZONES ensures ListOk(s', j) { assert ListOk(s, j); }
    forall q | q in s'.idle ensures q !in s'.zones && ZonePages(c, s', q) { ZonePagesStay(c, s, s', q); }
    forall x | x in s'.live ensures LiveOk(c, s', x) { assert LiveOk(c, s, x); LiveStays(c, s, s', x); }
    forall g | g in s'.owner ensures OwnedOk(c, s', g) { assert OwnedOk(c, s, g); }
  }

  lemma DismissInv(c: Config, s: State)
    requires Sane(c) && Core(c, s) && s.idle != []
    ensures Core(c, Dismiss(c, s)) && Interval(s.idle[0], c.zonePages) <= s.owner.Keys
  {
    hide Sum, ChunkAddr, ChunkState, ZoneShape, Interval;
    var p, s' := s.idle[0], Dismiss(c, s);
    assert p in s.idle;
    IdleTail(s.idle);
    DismissPages(c, s);
    forall q | q in s'.zones ensures ZoneOk(c, s', q) {
      assert ZoneOk(c, s, q);
      ZonePagesKept(c, s, s', q);
      SmallSame(s, s', q);
    }
    forall j | 0 <= j < NZONES ensures ListOk(s', j) { assert ListOk(s, j); }
    forall q | q in s'.idle ensures q !in s'.zones && ZonePages(c, s', q) { assert q in s.idle; ZonePagesKept(c, s, s', q); }
    DismissOthers(c, s);
  }

  /** Only the pages of the dismissed zone change hands. */
  lemma DismissPages(c: Config, s: State)
    requires Sane(c) && Core(c, s) && s.idle != []
    ensures var p, s' := s.idle[0], Dismiss(c, s);
      && Interval(p, c.zonePages) <= s.owner.Keys
      && (forall g :: g in s'.owner ==> g in s.owner && s'.owner[g] == s.owner[g] != ByZone(p))
      && (forall g :: g in s.owner && s.owner[g] != ByZone(p) ==> g in s'.owner)
      && (forall g :: g in s.owner && s.owner[g] != ByZone(p) && g in s.usage ==> g in s'.usage && s'.usage[g] == s.usage[g])
  {
    hide Sum, ChunkAddr, ChunkState, ZoneShape;
    var p, s' := s.idle[0], Dismiss(c, s);
    assert p in s.idle;
    forall g | g in Interval(p, c.zonePages) ensures g in s.owner && s.owner[g] == ByZone(p) { assert ZonePage(s, p, g - p); }
    forall g | g in s'.owner ensures s.owner[g] != ByZone(p) { assert OwnedOk(c, s, g); }
  }

  /** The live blocks and the pages that the dismissed zone does not own. */
  lemma DismissOthers(c: Config, s: State)
    requires Sane(c) && Core(c, s) && s.idle != []
    ensures var s' := Dismiss(c, s);
      (forall x :: x in s'.live ==> LiveOk(c, s', x)) && (forall g :: g in s'.owner ==> OwnedOk(c, s', g))
  {
    hide Sum, ChunkAddr, ChunkState, ZoneShape, Interval;
    var p, s' := s.idle[0], Dismiss(c, s);
    assert p in s.idle;
    DismissPages(c, s);
    forall x | x in s'.live ensures LiveOk(c, s', x) { assert LiveOk(c, s, x); BlockKept(c, s, s', p, x); }
    forall g | g in s'.owner ensures OwnedOk(c, s', g) { assert OwnedOk(c, s, g); }
  }

  lemma BlockKept(c: Config, s: State, s': State, p: int, x: int)
    requires x in s.live && LiveOk(c, s, x) && s'.live == s.live && s'.zones == s.zones
    requires forall g :: g in s.owner && s.owner[g] != ByZone(p) ==> g in s'.owner && s'.owner[g] == s.owner[g]
    requires forall g :: g in s.owner && s.owner[g] != ByZone(p) && g in s.usage ==> g in s'.usage && s'.usage[g] == s.usage[g]
    ensures LiveOk(c, s', x)
  {
    if s.live[x].Large? {
      assert LargePage(s, s.live[x].b, 0);
      forall i | 0 <= i < s.live[x].n ensures LargePage(s', s.live[x].b, i) { assert LargePage(s, s.live[x].b, i); }
    }
  }

  // ---------------------------------------------------------------- whole runs

  /** The free pages and the zones together */
  ghost predicate HeapOk(c: Config, runs: seq<Run>, s: State) {
    Sane(c) && Canonical(runs) && Inv(c, s) && s.owner.Keys !! PagesOf(runs)
  }

  ghost function AllPages(runs: seq<Run>, s: State): set<int> {
    s.owner.Keys + PagesOf(runs)
  }

  /** What an allocation means to its caller. */
  ghost predicate Grants(s: State, n: nat, s': State, ok: bool, a: int) {
    && (!ok ==> s' == s)
    && (ok ==> a !in s.live && a in s'.live && s'.live == s.live[a := s'.live[a]] && s'.live[a].size >= n)
  }

  lemma LargeKeeps(c: Config, runs: seq<Run>, s: State, n: nat, runs': seq<Run>, s': State, ok: bool, b: int, a: int)
    requires HeapOk(c, runs, s) && n > 0 && LargeStep(c, runs, s, n, runs', s', ok, b, a)
    ensures HeapOk(c, runs', s') && AllPages(runs', s') == AllPages(runs, s)
    ensures Grants(s, n * c.page, s', ok, a)
  {
    hide Core, PagesOf, Interval, Owned, Canonical;
    if ok {
      assert Interval(b, n) !! s.owner.Keys;
      GrantLargeInv(c, s, b, n);
      OwnedKeys(Interval(b, n), ByLarge(b));
    }
  }

  lemma ChunkKeeps(c: Config, runs: seq<Run>, s: State, k: int, s': State, a: int)
    requires HeapOk(c, runs, s) && 0 <= k < NZONES && |s.lists| == NZONES && s.lists[k] != [] && ChunkStep(s, k, s', a)
    ensures HeapOk(c, runs, s') && AllPages(runs, s') == AllPages(runs, s) && Grants(s, ChunkOf(k), s', true, a)
  {
    hide Core, PagesOf, Interval, ChunkOf, Canonical;
    var i :| PopIndex(s.zones[s.lists[k][0]], i) && s' == TakeChunk(s, k, i);
    TakeChunkInv(c, s, k, i);
  }

  lemma OpenKeeps(c: Config, s: State, k: int)
    requires Sane(c) && Core(c, s) && s.idle != [] && 0 <= k < NZONES && 0 < ChunkOf(k) <= c.limit && |s.lists| == NZONES
    ensures var s', a := OpenZone(c, s, ChunkOf(k), k), FreshZone(c, s.idle[0], ChunkOf(k), k).base;
      Core(c, s') && Grants(s, ChunkOf(k), s', true, a) && s'.owner == s.owner && s'.idle == s.idle[1..]
  {
    hide Core, ChunkOf, FreshZone;
    OpenZoneInv(c, s, k);
  }

  lemma SmallKeeps(c: Config, runs: seq<Run>, s: State, k: int, runs': seq<Run>, s': State, ok: bool, a: int)
    requires HeapOk(c, runs, s) && 0 <= k < NZONES && 0 < ChunkOf(k) <= c.limit && |s.lists| == NZONES
    requires SmallStep(c, runs, s, ChunkOf(k), k, runs', s', ok, a)
    ensures HeapOk(c, runs', s') && AllPages(runs', s') == AllPages(runs, s) && Grants(s, ChunkOf(k), s', ok, a)
  {
    hide Core, PagesOf, Interval, ChunkOf, FreshZone, OpenZone, ChunkStep, Canonical, Marks, Owned;
    if s.lists[k] != [] {
      ChunkKeeps(c, runs, s, k, s', a);
    } else if s.idle != [] {
      OpenKeeps(c, s, k);
    } else {
      var p :| NewZoneStep(c, runs, s, ChunkOf(k), k, runs', s', ok, p, a);
      if ok {
        assert Interval(p, c.zonePages) !! s.owner.Keys;
        AdoptInv(c, s, p);
        OwnedKeys(Interval(p, c.zonePages), ByZone(p));
        OpenKeeps(c, Adopt(c, s, p), k);
      }
    }
  }

  /** rt_malloc keeps the heap in order, moves pages between the free list and the blocks only, and grants a
      block nobody has, large enough for the request. */
  lemma MallocKeeps(c: Config, runs: seq<Run>, s: State, n: nat, runs': seq<Run>, s': State, ok: bool, a: int)
    requires HeapOk(c, runs, s) && |s.lists| == NZONES && MallocStep(c, runs, s, n, runs', s', ok, a)
    ensures HeapOk(c, runs', s') && AllPages(runs', s') == AllPages(runs, s) && Grants(s, n, s', ok, a)
  {
    hide Core, Canonical, PagesOf, LargeStep, SmallStep, ZoneIndex, ChunkOf, Align;
    if n >= c.limit {
      RoundFacts(n, c.page);
      SomePages(n, PagesFor(c, n), c.page);
      var b :| LargeStep(c, runs, s, PagesFor(c, n), runs', s', ok, b, a);
      LargeKeeps(c, runs, s, PagesFor(c, n), runs', s', ok, b, a);
    } else if n > 0 {
      ZoneIndexSpec(n);
      ZoneIndexLimit(c, n);
      SmallKeeps(c, runs, s, ZoneIndex(n).1, runs', s', ok, a);
    }
  }

  lemma RetireKeeps(c: Config, runs: seq<Run>, s: State, runs': seq<Run>, s': State)
    requires Sane(c) && Canonical(runs) && Core(c, s) && s.owner.Keys !! PagesOf(runs) && |s.idle| <= RELEASE_THRESH + 1
    requires RetireStep(c, runs, s, runs', s')
    ensures HeapOk(c, runs', s') && AllPages(runs', s') == AllPages(runs, s) && s'.live == s.live
  {
    hide Core, Canonical, PagesOf, Interval, Marks;
    if |s.idle| > RELEASE_THRESH { DismissInv(c, s); }
  }

  /** rt_free ends exactly one block's life and loses no page. */
  lemma FreeKeeps(c: Config, runs: seq<Run>, s: State, a: int, runs': seq<Run>, s': State)
    requires HeapOk(c, runs, s) && a in s.live && FreeCall(c, runs, s, a, runs', s')
    ensures HeapOk(c, runs', s') && AllPages(runs', s') == AllPages(runs, s) && s'.live == s.live - {a}
  {
    hide Core, Canonical, PagesOf, Interval, RetireStep;
    if s.live[a].Large? {
      DropLargeInv(c, s, a);
    } else {
      PutChunkInv(c, s, a);
      var s1, p := PutChunk(s, a), s.live[a].z;
      if s1.zones[p].nfree == s1.zones[p].nmax && s1.lists[s1.zones[p].zi] != [p] {
        ParkInv(c, s1, p);
        RetireKeeps(c, runs, Park(s1, p), runs', s');
      }
    }
  }

  // ---------------------------------------------------------------- where blocks and pages come from and go

  /** a is the zone's next chunk that was never used, or else the one freed last. */
  predicate NextChunk(s: State, p: int, a: int) {
    p in s.zones &&
    var z := s.zones[p];
    if z.uindex + 1 != z.nmax then a == z.base + (z.uindex + 1) * z.chunk else z.free != [] && a == z.free[0]
  }

  /** A small request is served by the first zone of its class, or else by the first idle zone, or else by a new
      one; pages leave the free list for a large block and for a new zone only, and just these. */
  lemma MallocTakes(c: Config, runs: seq<Run>, s: State, n: nat, runs': seq<Run>, s': State, a: int)
    requires HeapOk(c, runs, s) && |s.lists| == NZONES && MallocStep(c, runs, s, n, runs', s', true, a)
    ensures a in s'.live && s'.max == Max(s.max, s'.used)
    ensures n >= c.limit ==>
      s'.live[a].Large? && PagesOf(runs') == PagesOf(runs) - Interval(s'.live[a].b, PagesFor(c, n)) && s'.idle == s.idle
    ensures n < c.limit ==>
      && s'.live[a].Small?
      && var p, k := s'.live[a].z, ZoneIndex(n).1;
        if s.lists[k] != [] then p == s.lists[k][0] && NextChunk(s, p, a) && runs' == runs && s'.idle == s.idle
        else if s.idle != [] then [p] + s'.idle == s.idle && runs' == runs
        else PagesOf(runs') == PagesOf(runs) - Interval(p, c.zonePages) && s'.idle == []
  {
    hide Core, Canonical, PagesOf, Interval, ZoneIndex, Align, Room, FreshZone, Marks;
    if n >= c.limit {
      var b :| LargeStep(c, runs, s, PagesFor(c, n), runs', s', true, b, a);
    } else if n > 0 {
      ZoneIndexSpec(n);
      SmallTakes(c, runs, s, ZoneIndex(n).0, ZoneIndex(n).1, runs', s', a);
    }
  }

  lemma SmallTakes(c: Config, runs: seq<Run>, s: State, size: int, k: int, runs': seq<Run>, s': State, a: int)
    requires size > 0 && 0 <= k < |s.lists| && SmallStep(c, runs, s, size, k, runs', s', true, a)
    ensures a in s'.live && s'.live[a].Small? && s'.max == Max(s.max, s'.used)
    ensures var p := s'.live[a].z;
      if s.lists[k] != [] then p == s.lists[k][0] && NextChunk(s, p, a) && runs' == runs && s'.idle == s.idle
      else if s.idle != [] then [p] + s'.idle == s.idle && runs' == runs
      else PagesOf(runs') == PagesOf(runs) - Interval(p, c.zonePages) && s'.idle == []
  {
    hide PagesOf, Interval, Room, Canonical, FreshZone, Marks, Owned;
    if s.lists[k] == [] && s.idle == [] {
      var p :| NewZoneStep(c, runs, s, size, k, runs', s', true, p, a);
      assert Adopt(c, s, p).idle == [p];
    }
  }

  /** The zone has company in the list of its class. */
  ghost predicate Company(s: State, p: int)
    requires p in s.zones && 0 <= s.zones[p].zi < |s.lists|
  {
    exists q :: q in s.lists[s.zones[p].zi] && q != p
  }

  /** A large block gives back its pages.  A zone whose last chunk comes back while there are others of its
      class leaves the class: it becomes idle, or its pages go back when enough zones are idle already. */
  lemma FreeGives(c: Config, runs: seq<Run>, s: State, a: int, runs': seq<Run>, s': State)
    requires HeapOk(c, runs, s) && a in s.live && FreeCall(c, runs, s, a, runs', s')
    ensures s'.max == s.max
    ensures s.live[a].Large? ==>
      s'.idle == s.idle && PagesOf(runs') == PagesOf(runs) + Interval(s.live[a].b, s.live[a].n)
    ensures s.live[a].Small? ==>
      && s.live[a].z in s.zones && 0 <= s.zones[s.live[a].z].zi < |s.lists|
      && var p, z := s.live[a].z, s.zones[s.live[a].z];
        if z.nfree + 1 == z.nmax && Company(s, p) then
          && p !in s'.zones && (forall q :: q in s.zones && q != p ==> q in s'.zones)
          && (if |s.idle| < RELEASE_THRESH then s'.idle == [p] + s.idle && runs' == runs
             else s'.idle == s.idle && PagesOf(runs') == PagesOf(runs) + Interval(p, c.zonePages))
        else s'.zones.Keys == s.zones.Keys && s'.idle == s.idle && runs' == runs
  {
    hide Core, Canonical, PagesOf, Interval, Marks, PutChunk, Park, Dismiss;
    if s.live[a].Small? {
      var s1, p := PutChunk(s, a), s.live[a].z;
      PutChunkInv(c, s, a);
      PutLists(c, s, a);
      if s1.zones[p].nfree == s1.zones[p].nmax && s1.lists[s1.zones[p].zi] != [p] { ParkedDismissed(c, s1, p); }
    }
  }

  lemma ParkedDismissed(c: Config, s: State, p: int)
    requires p in s.zones
    ensures var s' := Park(s, p); s'.max == s.max && s'.idle == [p] + s.idle && s'.zones == s.zones - {p}
    ensures var s' := Dismiss(c, Park(s, p)); s'.max == s.max && s'.idle == s.idle && s'.zones == s.zones - {p}
  {
  }

  lemma PutLists(c: Config, s: State, a: int)
    requires Sane(c) && Core(c, s) && a in s.live && s.live[a].Small?
    ensures s.live[a].z in s.zones && 0 <= s.zones[s.live[a].z].zi < |s.lists|
    ensures var s', p := PutChunk(s, a), s.live[a].z;
      && s'.max == s.max && s'.idle == s.idle && s'.zones.Keys == s.zones.Keys && |s'.lists| == |s.lists|
      && s'.zones[p].nfree == s.zones[p].nfree + 1 && s'.zones[p].nmax == s.zones[p].nmax && s'.zones[p].zi == s.zones[p].zi
      && (s'.lists[s.zones[p].zi] != [p] <==> Company(s, p))
  {
    hide Sum, ChunkAddr, ChunkState, ZoneShape, ChunkOf;
    assert LiveOk(c, s, a);
    var p := s.live[a].z;
    assert ZoneOk(c, s, p);
    ShapeFacts(c, p, s.zones[p]);
    var k := s.zones[p].zi;
    assert ListOk(s, k);
    var l, l' := s.lists[k], PutChunk(s, a).lists[k];
    if s.zones[p].nfree == 0 {
      assert l' == [p] + l && p !in l;
      if l != [] {
        assert l[0] in s.lists[s.zones[p].zi] && l[0] != p;
        assert Company(s, p) && |l'| > 1;
      }
    } else {
      assert p in l && l' == l;
      if l != [p] { assert |l| >= 2 && l[0] in l && l[1] in l && l[0] != l[1]; }
    }
  }

  /** memusage leads from the address to the zone, or to the size of the large block. */
  ghost predicate Marked(c: Config, s: State, a: int)
    requires a in s.live && c.page > 0
  {
    a / c.page in s.usage &&
    var u := s.usage[a / c.page];
    match s.live[a]
    case Small(p, _, _) => u.kind == PageSmall && a / c.page - u.size == p
    case Large(b, n, _) => u == Usage(PageLarge, n) && a / c.page == b
  }

  lemma EmptyOk(c: Config, runs: seq<Run>)
    requires Sane(c) && Canonical(runs)
    ensures HeapOk(c, runs, Empty()) && AllPages(runs, Empty()) == PagesOf(runs)
  {
    hide Canonical, PagesOf;
    forall k | 0 <= k < NZONES ensures ListOk(Empty(), k) { assert Empty().lists[k] == []; }
  }

  lemma OkMeans(c: Config, runs: seq<Run>, s: State)
    requires HeapOk(c, runs, s)
    ensures Sane(c) && s.used == Sum(s.live)
    ensures forall a, b :: a in s.live && b in s.live && a < b ==> a + s.live[a].size <= b
    ensures forall a :: a in s.live ==> Marked(c, s, a)
  {
    hide Canonical, PagesOf, Sum;
    assert Core(c, s) && s.used == Sum(s.live);
    hide Core;
    forall a, b | a in s.live && b in s.live && a < b ensures a + s.live[a].size <= b { LiveApart(c, s, a, b); }
    forall a | a in s.live ensures Marked(c, s, a) { FindOwner(c, s, a); }
  }
}

/** rt_malloc and rt_free of src/slab.c. */
module Slab {
  import opened Arith
  import opened PageList
  import Ring
  import opened SlabSpec

  class SlabHeap {
    const c: Config
    const pages: PageAllocator
    var zones: map<int, Zone>
    var zoneArray: seq<seq<int>>
    var zoneFree: seq<int>
    var zoneFreeCnt: int
    var memusage: map<int, Usage>
    var usedMem: int
    var maxMem: int

    ghost var owner: map<int, Owner>
    ghost var live: map<int, Block>

    ghost function Abs(): State
      reads this
    {
      State(zones, zoneArray, zoneFree, memusage, usedMem, maxMem, owner, live)
    }

    ghost predicate Valid()
      reads this, pages
    {
      && Sane(c) && pages.Valid() && Inv(c, Abs()) && zoneFreeCnt == |zoneFree|
      && owner.Keys !! PagesOf(pages.runs)
    }

    /** rt_system_heap_init, from the configuration it computes and the page allocator it sets up. */
    constructor (c: Config, pages: PageAllocator)
      requires Sane(c) && pages.Valid()
      ensures Valid() && this.pages == pages && live == map[] && usedMem == 0
    {
      this.c, this.pages := c, pages;
      zones, zoneArray, zoneFree, zoneFreeCnt := map[], seq(NZONES, i => []), [], 0;
      memusage, usedMem, maxMem := map[], 0, 0;
      owner, live := map[], map[];
      new;
      forall k | 0 <= k < NZONES ensures ListOk(Abs(), k) { assert zoneArray[k] == []; }
    }

    /** The pages handed out and the free ones together. */
    ghost function AllPages(): set<int>
      reads this, pages
    {
      SlabSpec.AllPages(pages.runs, Abs())
    }

    method Account(size: int)
      modifies this`usedMem, this`maxMem
      ensures usedMem == old(usedMem) + size && maxMem == Max(old(maxMem), usedMem)
    {
      usedMem := usedMem + size;
      if usedMem > maxMem {
        maxMem := usedMem;
      }
    }

    /** What a successful or failed allocation means to the caller. */
    twostate predicate Granted(ok: bool, a: int, size: nat)
      reads this, pages
    {
      Grants(old(Abs()), size, Abs(), ok, a) && (!ok ==> pages.runs == old(pages.runs))
    }

    /** rt_malloc: a block nobody else has, at least as large as asked for, or RT_NULL (ok is false);
        pages only move between the free list and the blocks. */
    method Malloc(size: nat) returns (ok: bool, a: int)
      requires Valid()
      modifies this, pages
      ensures Valid() && AllPages() == old(AllPages())
      ensures |old(zoneArray)| == NZONES && MallocStep(c, old(pages.runs), old(Abs()), size, pages.runs, Abs(), ok, a)
      ensures Granted(ok, a, size)
    {
      hide Sum, Core, ZoneIndex, ChunkStep, NewZoneStep, OpenZone, FreshZone, LargeStep, PagesOf, Interval;
      CoreLists(c, Abs());
      ok, a := false, 0;
      if size == 0 {
        return;
      }
      if size >= c.limit {
        ok, a := MallocLarge(size);
        return;
      }
      ZoneIndexSpec(size);
      ZoneIndexLimit(c, size);
      var (rounded, zi) := ZoneIndex(size);
      if zoneArray[zi] != [] {
        a := FromZone(rounded, zi);
        ok := true;
      } else {
        ok, a := FromNewZone(rounded, zi);
      }
    }

    /** Lines 495-520 */
    method MallocLarge(size: nat) returns (ok: bool, a: int)
      requires Valid() && size > 0
      modifies this, pages
      ensures Valid() && AllPages() == old(AllPages())
      ensures exists b :: LargeStep(c, old(pages.runs), old(Abs()), PagesFor(c, size), pages.runs, Abs(), ok, b, a)
      ensures Granted(ok, a, size)
    {
      hide Sum, ChunkAddr, Core, Interval, PagesOf, Align, Owned;
      var npages := PagesFor(c, size);
      ghost var s, runs := Abs(), pages.runs;
      RoundFacts(size, c.page);
      PositivePages(npages, size);
      var b;
      ok, b := pages.Alloc(npages);
      a := b * c.page;
      if ok {
        GrantLargeInv(c, Abs(), b, npages);
        memusage := memusage[b := Usage(PageLarge, npages)];
        owner := owner + Owned(Interval(b, npages), ByLarge(b));
        OwnedKeys(Interval(b, npages), ByLarge(b));
        live := live[a := Large(b, npages, npages * c.page)];
        Account(npages * c.page);
        assert Abs() == GrantLarge(c, s, b, npages);
      }
      assert LargeStep(c, runs, s, npages, pages.runs, Abs(), ok, b, a);
    }

    lemma PositivePages(n: int, size: int)
      requires c.page > 0 && size > 0 && size <= n * c.page
      ensures n > 0
    {
      MulLe(n, 0, c.page);
    }

    /** Lines 539-576: a chunk of the first zone in the list. */
    method FromZone(size: int, zi: int) returns (a: int)
      requires Valid() && 0 <= zi < NZONES && zoneArray[zi] != [] && size == ChunkOf(zi)
      modifies this
      ensures Valid() && pages.runs == old(pages.runs) && owner == old(owner)
      ensures |old(zoneArray)| == NZONES && ChunkStep(old(Abs()), zi, Abs(), a)
      ensures Granted(true, a, size)
    {
      hide Sum, ChunkAddr, ZoneOk, LiveOk, OwnedOk;
      var p := zoneArray[zi][0];
      ghost var s := Abs();
      ghost var i := FindIndex(s, zi);
      TakeChunkInv(c, s, zi, i);
      var z := zones[p];
      z := z.(nfree := z.nfree - 1);
      if z.nfree == 0 {
        zoneArray := zoneArray[zi := zoneArray[zi][1..]];
      }
      if z.uindex + 1 != z.nmax {
        z := z.(uindex := z.uindex + 1);
        a := z.base + z.uindex * size;
        assert a == ChunkAddr(zones[p], z.uindex) by { AddrIs(zones[p], z.uindex); }
      } else {
        a := z.free[0];
        z := z.(free := z.free[1..]);
      }
      assert (z, a) == Popped(zones[p]);
      zones := zones[p := z];
      live := live[a := Small(p, i, z.chunk)];
      Account(z.chunk);
      assert Abs() == TakeChunk(s, zi, i);
    }

    lemma AddrIs(z: Zone, i: int)
      ensures ChunkAddr(z, i) == z.base + i * z.chunk
    {
    }

    /** The first zone of a list has a chunk to give; its index. */
    lemma FindIndex(s: State, zi: int) returns (i: int)
      requires Sane(c) && Core(c, s) && 0 <= zi < NZONES && s.lists[zi] != []
      ensures s.lists[zi][0] in s.zones && PopIndex(s.zones[s.lists[zi][0]], i)
    {
      hide Sum;
      var p := s.lists[zi][0];
      assert ListOk(s, zi) && p in s.lists[zi];
      assert ZoneOk(c, s, p);
      var z := s.zones[p];
      if z.uindex + 1 != z.nmax {
        i := z.uindex + 1;
      } else {
        assert z.free[0] in z.free;
        i :| IsChunk(z, z.free[0], i);
      }
    }

    /** Lines 615-622 and 885-891: the memusage entries of a zone. */
    method MarkPages(p: int, small: bool)
      requires c.zonePages > 0
      modifies this`memusage
      ensures memusage == old(memusage) + Marks(p, c.zonePages, small)
    {
      var off := 0;
      while off < c.zonePages
        invariant 0 <= off <= c.zonePages
        invariant memusage == old(memusage) + Marks(p, off, small)
      {
        memusage := memusage[p + off := if small then Usage(PageSmall, off) else Usage(PageFree, 0)];
        off := off + 1;
      }
    }

    /** Lines 587-659 */
    method FromNewZone(size: int, zi: int) returns (ok: bool, a: int)
      requires Valid() && 0 <= zi < NZONES && size == ChunkOf(zi) && 0 < size <= c.limit
      modifies this, pages
      ensures Valid() && AllPages() == old(AllPages())
      ensures |old(zoneArray)| == NZONES && (old(zoneArray)[zi] == [] ==>
                SmallStep(c, old(pages.runs), old(Abs()), size, zi, pages.runs, Abs(), ok, a))
      ensures Granted(ok, a, size)
    {
      hide Sum, Core, FreshZone, OpenZone, NewZoneStep, PagesOf, Interval;
      CoreLists(c, Abs());
      if zoneFree != [] {
        a := FromIdle(size, zi);
        ok := true;
      } else {
        ok, a := FromPages(size, zi);
      }
    }

    /** Lines 590-595: reuse an empty zone. */
    method FromIdle(size: int, zi: int) returns (a: int)
      requires Valid() && 0 <= zi < NZONES && size == ChunkOf(zi) && 0 < size <= c.limit && zoneFree != []
      modifies this
      ensures Valid() && pages.runs == old(pages.runs) && owner == old(owner)
      ensures |old(zoneArray)| == NZONES
      ensures Abs() == OpenZone(c, old(Abs()), size, zi) && a == FreshZone(c, old(zoneFree)[0], size, zi).base
      ensures Granted(true, a, size)
    {
      hide Sum, ChunkAddr, Interval, PagesOf, Core, FreshZone, OpenZone;
      ghost var s := Abs();
      CoreLists(c, s);
      var p := zoneFree[0];
      zoneFree := zoneFree[1..];
      zoneFreeCnt := zoneFreeCnt - 1;
      a := Build(p, size, zi, s);
    }

    /** Lines 599-622: make a zone of fresh pages. */
    method FromPages(size: int, zi: int) returns (ok: bool, a: int)
      requires Valid() && 0 <= zi < NZONES && size == ChunkOf(zi) && 0 < size <= c.limit && zoneFree == []
      modifies this, pages
      ensures Valid() && AllPages() == old(AllPages())
      ensures |old(zoneArray)| == NZONES
      ensures exists p :: NewZoneStep(c, old(pages.runs), old(Abs()), size, zi, pages.runs, Abs(), ok, p, a)
      ensures Granted(ok, a, size)
    {
      hide Sum, ChunkAddr, Interval, PagesOf, Core, FreshZone, OpenZone, Marks, Owned;
      ghost var s, runs := Abs(), pages.runs;
      CoreLists(c, s);
      var p;
      ok, p := pages.Alloc(c.zonePages);
      a := 0;
      if ok {
        AdoptInv(c, s, p);
        MarkPages(p, true);
        owner := owner + Owned(Interval(p, c.zonePages), ByZone(p));
        OwnedKeys(Interval(p, c.zonePages), ByZone(p));
        a := Build(p, size, zi, Adopt(c, s, p));
      }
      assert NewZoneStep(c, runs, s, size, zi, pages.runs, Abs(), ok, p, a);
    }

    /** Lines 625-658: lay out the zone at p, off zone_free already, and hand out its first chunk. */
    method Build(p: int, size: int, zi: int, ghost s: State) returns (a: int)
      requires Sane(c) && Core(c, s) && s.idle != [] && s.idle[0] == p && Abs() == s.(idle := s.idle[1..])
      requires 0 <= zi < NZONES && size == ChunkOf(zi) && 0 < size <= c.limit
      modifies this`zones, this`zoneArray, this`live, this`usedMem, this`maxMem
      ensures |s.lists| == NZONES && Abs() == OpenZone(c, s, size, zi) && Core(c, Abs())
      ensures a == FreshZone(c, p, size, zi).base
      ensures a !in s.live && a in live && live == s.live[a := live[a]] && live[a].size == size
    {
      hide Sum, ChunkAddr, Interval, Core, FreshZone;
      OpenZoneInv(c, s, zi);
      CoreLists(c, s);
      FreshFacts(c, p, zi);
      var z := FreshZone(c, p, size, zi);
      a := z.base;
      zones := zones[p := z];
      zoneArray := zoneArray[zi := [p] + zoneArray[zi]];
      live := live[a := Small(p, 0, size)];
      Account(size);
    }

    /** rt_free: the block is gone, all others are untouched, and no page is lost. */
    method Free(a: int)
      requires Valid() && a in live
      modifies this, pages
      ensures Valid() && AllPages() == old(AllPages())
      ensures FreeCall(c, old(pages.runs), old(Abs()), a, pages.runs, Abs())
      ensures live == old(live) - {a}
    {
      hide Sum, ChunkAddr, Interval, PagesOf, Core;
      FindOwner(c, Abs(), a);
      var page := a / c.page;
      var kup := memusage[page];
      if kup.kind == PageLarge {
        DropLargeInv(c, Abs(), a);
        memusage := memusage[page := Usage(PageLarge, 0)];
        usedMem := usedMem - kup.size * c.page;
        live, owner := live - {a}, owner - Interval(page, kup.size);
        assert Abs() == DropLarge(c, old(Abs()), a);
        pages.Free(page, kup.size);
        return;
      }
      FreeChunk(a, page - kup.size);
    }

    lemma CoreLists(c: Config, s: State)
      requires Core(c, s)
      ensures |s.lists| == NZONES
    {
    }

    /** Lines 822-904 */
    method FreeChunk(a: int, p: int)
      requires Valid() && a in live && live[a].Small? && live[a].z == p
      modifies this, pages
      ensures Valid() && AllPages() == old(AllPages())
      ensures FreeCall(c, old(pages.runs), old(Abs()), a, pages.runs, Abs())
      ensures live == old(live) - {a}
    {
      hide Sum, ChunkAddr, Interval, PagesOf, Core, ZoneShape, PutChunk, Park, RetireStep;
      PutBack(a, p);
      CoreLists(c, Abs());
      ListEnds(zoneArray[zones[p].zi], p);
      var z := zones[p];
      var l := zoneArray[z.zi];
      if z.nfree == z.nmax && (l[|l| - 1] != p || l[0] != p) {
        RetireZone(p);
      }
    }

    /** Lines 830-846 */
    method PutBack(a: int, p: int)
      requires Valid() && a in live && live[a].Small? && live[a].z == p
      modifies this
      ensures Valid() && pages.runs == old(pages.runs) && owner == old(owner) && zoneFree == old(zoneFree)
      ensures live == old(live) - {a} && p in old(zones) && Abs() == PutChunk(old(Abs()), a)
      ensures Ring.Distinct(zoneArray[zones[p].zi])
      ensures p in zones && 0 <= zones[p].zi < NZONES && p in zoneArray[zones[p].zi]
    {
      hide Sum, ChunkAddr, Core, Ring.Distinct;
      ghost var s := Abs();
      PutChunkInv(c, s, a);
      ZoneListed(c, s, p);
      var z := zones[p];
      z := z.(free := [a] + z.free);
      usedMem := usedMem - z.chunk;
      if z.nfree == 0 {
        zoneArray := zoneArray[z.zi := [p] + zoneArray[z.zi]];
      }
      z := z.(nfree := z.nfree + 1);
      zones := zones[p := z];
      live := live - {a};
      assert Abs() == PutChunk(s, a);
      ZoneListed(c, Abs(), p);
    }

    /** Both tests of line 854: p is not the first of the list, or something follows it. */
    lemma ListEnds(l: seq<int>, p: int)
      requires Ring.Distinct(l) && p in l
      ensures l != [p] <==> l[|l| - 1] != p || l[0] != p
    {
    }

    lemma ZoneListed(c: Config, s: State, p: int)
      requires Core(c, s) && p in s.zones
      ensures |s.lists| == NZONES && 0 <= s.zones[p].zi < NZONES && s.zones[p].nfree >= 0
      ensures s.zones[p].nfree > 0 ==> p in s.lists[s.zones[p].zi]
      ensures Ring.Distinct(s.lists[s.zones[p].zi])
    {
      assert ZoneOk(c, s, p);
      assert ListOk(s, s.zones[p].zi);
    }

    /** Line 863-865: unlink the zone from its list. */
    method Unlink(k: int, p: int)
      requires 0 <= k < |zoneArray| && p in zoneArray[k] && Ring.Distinct(zoneArray[k])
      modifies this`zoneArray
      ensures zoneArray == old(zoneArray)[k := Ring.Without(old(zoneArray)[k], p)]
    {
      var l, i := zoneArray[k], 0;
      while l[i] != p
        invariant 0 <= i < |l| && p !in l[..i]
        decreases |l| - i
      {
        assert l == l[..i] + [l[i]] + l[i + 1..];
        i := i + 1;
      }
      Ring.IndexUnique(l, i);
      zoneArray := zoneArray[k := l[..i] + l[i + 1..]];
    }

    /** Lines 862-901 */
    method RetireZone(p: int)
      requires Valid() && p in zones && zones[p].nfree == zones[p].nmax
      requires 0 <= zones[p].zi < NZONES && p in zoneArray[zones[p].zi]
      modifies this, pages
      ensures Valid() && AllPages() == old(AllPages()) && live == old(live)
      ensures RetireStep(c, old(pages.runs), Park(old(Abs()), p), pages.runs, Abs())
    {
      hide Sum, ChunkAddr, Interval, PagesOf, Core, Ring.Without, Marks;
      ghost var s := Abs();
      ParkInv(c, s, p);
      CoreLists(c, s);
      ZoneListed(c, s, p);
      Unlink(zones[p].zi, p);
      zones := zones - {p};
      zoneFree := [p] + zoneFree;
      zoneFreeCnt := zoneFreeCnt + 1;
      assert Abs() == Park(s, p);
      if zoneFreeCnt > RELEASE_THRESH {
        ghost var s1 := Abs();
        DismissInv(c, s1);
        var q := zoneFree[0];
        zoneFree := zoneFree[1..];
        zoneFreeCnt := zoneFreeCnt - 1;
        MarkPages(q, false);
        owner := owner - Interval(q, c.zonePages);
        assert Abs() == Dismiss(c, s1);
        pages.Free(q, c.zonePages);
      }
    }
  }
}