/** The small-memory heap of src/mem.c: a chain of headers at offsets from the heap start,
    with a hint `lfree` where the search for free memory begins.

    Abstractly a heap is the ascending sequence of header offsets (the last one is heap_end)
    and the set of headers whose used flag is set. */
module MemSpec {
  import opened Arith
  import opened Ring

  const NULL := -1

  /** SIZEOF_STRUCT_MEM, mem_size_aligned, MIN_SIZE, RT_ALIGN_SIZE */
  datatype Config = Config(header: nat, size: nat, minSize: nat, align: nat)

  datatype Heap = Heap(blocks: seq<int>, used: set<int>, lfree: int, usedMem: int, maxMem: int)

  function MinAligned(c: Config): nat
    requires c.align > 0
  {
    Align(c.minSize, c.align)
  }

  ghost predicate Sane(c: Config) {
    c.header > 0 && c.align > 0 && c.minSize > 0 && c.size >= MinAligned(c)
  }

  // ---------------------------------------------------------------- invariant

  ghost predicate Spaced(c: Config, b: seq<int>, i: int)
    requires 0 <= i < |b| - 1
  {
    b[i] + c.header <= b[i + 1]
  }

  /** The headers tile the heap from offset 0 to heap_end. */
  ghost predicate Tiled(c: Config, b: seq<int>) {
    && |b| >= 2 && b[0] == 0 && b[|b| - 1] == c.size + c.header
    && (forall i :: 0 <= i < |b| - 1 ==> Spaced(c, b, i))
  }

  ghost predicate BothFree(b: seq<int>, used: set<int>, i: int)
    requires 0 <= i < |b| - 1
  {
    b[i] !in used && b[i + 1] !in used
  }

  ghost predicate Coalesced(b: seq<int>, used: set<int>) {
    forall i :: 0 <= i < |b| - 1 ==> !BothFree(b, used, i)
  }

  /** Summed length, header included, of the blocks in `sel`. */
  function Lengths(b: seq<int>, sel: set<int>): int {
    if |b| < 2 then 0 else (if b[0] in sel then b[1] - b[0] else 0) + Lengths(b[1..], sel)
  }

  ghost predicate Inv(c: Config, h: Heap) {
    && Tiled(c, h.blocks)
    && h.used <= (set x | x in h.blocks) && c.size + c.header in h.used
    && Coalesced(h.blocks, h.used)
    && h.usedMem == Lengths(h.blocks, h.used)
    && h.usedMem <= h.maxMem
    && h.lfree in h.blocks && (h.lfree == c.size + c.header || h.lfree !in h.used)
  }

  /** lfree is the lowest free block (heap_end when there is none). */
  ghost predicate Lowest(h: Heap) {
    forall x :: x in h.blocks && x !in h.used ==> h.lfree <= x
  }

  lemma {:induction false} Far(c: Config, b: seq<int>, i: nat, j: nat)
    requires Tiled(c, b) && i < j < |b|
    ensures b[i] + c.header <= b[j]
    decreases j
  {
    assert Spaced(c, b, j - 1);
    if i + 1 < j { Far(c, b, i, j - 1); }
  }

  lemma TiledDistinct(c: Config, b: seq<int>)
    requires Tiled(c, b) && c.header > 0
    ensures Distinct(b)
  {
    forall i, j | 0 <= i < j < |b| ensures b[i] != b[j] {
      Far(c, b, i, j);
    }
  }

  /** Offsets and positions are in the same order. */
  lemma InOrder(c: Config, b: seq<int>, i: nat, j: nat)
    requires Tiled(c, b) && c.header > 0 && i < |b| && j < |b|
    ensures b[i] < b[j] <==> i < j
    ensures b[i] <= b[j] <==> i <= j
  {
    if i < j { Far(c, b, i, j); }
    if j < i { Far(c, b, j, i); }
  }

  lemma TiledInsert(c: Config, b: seq<int>, k: nat, x: int)
    requires Tiled(c, b) && k + 1 < |b| && c.header > 0
    requires b[k] + c.header <= x && x + c.header <= b[k + 1]
    ensures Tiled(c, InsertAt(b, k + 1, x)) && x !in b
  {
    var d := InsertAt(b, k + 1, x);
    forall i | 0 <= i < |d| - 1 ensures Spaced(c, d, i) {
      InsertAtIndex(b, k + 1, x, i);
      InsertAtIndex(b, k + 1, x, i + 1);
      if i < k { assert Spaced(c, b, i); }
      if i > k + 1 { assert Spaced(c, b, i - 1); }
    }
    forall j | 0 <= j < |b| ensures b[j] != x {
      InOrder(c, b, j, k);
      InOrder(c, b, k + 1, j);
    }
  }

  lemma TiledRemove(c: Config, b: seq<int>, k: nat)
    requires Tiled(c, b) && 0 < k < |b| - 1
    ensures Tiled(c, RemoveAt(b, k))
  {
    var d := RemoveAt(b, k);
    forall i | 0 <= i < |d| - 1 ensures Spaced(c, d, i) {
      RemoveAtIndex(b, k, i);
      RemoveAtIndex(b, k, i + 1);
      assert Spaced(c, b, i);
      if i + 1 >= k { assert Spaced(c, b, i + 1); }
    }
  }

  // ---------------------------------------------------------------- accounting

  lemma {:induction false} LengthsSplit(b: seq<int>, sel: set<int>, k: nat)
    requires k < |b|
    ensures Lengths(b, sel) == Lengths(b[..k + 1], sel) + Lengths(b[k..], sel)
  {
    if k == 0 {
      assert b[0..] == b;
    } else {
      LengthsSplit(b[1..], sel, k - 1);
      assert b[..k + 1][1..] == b[1..][..k];
      assert b[1..][k - 1..] == b[k..];
    }
  }

  lemma {:induction false} LengthsAgree(b: seq<int>, sel: set<int>, sel': set<int>)
    requires forall i :: 0 <= i < |b| - 1 ==> (b[i] in sel <==> b[i] in sel')
    ensures Lengths(b, sel) == Lengths(b, sel')
  {
    if |b| >= 2 { LengthsAgree(b[1..], sel, sel'); }
  }

  lemma LengthsAround(b: seq<int>, sel: set<int>, k: nat)
    requires k + 1 < |b|
    ensures Lengths(b, sel)
         == Lengths(b[..k + 1], sel) + (if b[k] in sel then b[k + 1] - b[k] else 0) + Lengths(b[k + 1..], sel)
  {
    LengthsSplit(b, sel, k);
    assert b[k..][1..] == b[k + 1..];
  }

  /** One block changes its flag. */
  lemma LengthsFlip(b: seq<int>, sel: set<int>, k: nat)
    requires k + 1 < |b| && Distinct(b) && b[k] !in sel
    ensures Lengths(b, sel + {b[k]}) == Lengths(b, sel) + b[k + 1] - b[k]
  {
    LengthsAround(b, sel, k);
    LengthsAround(b, sel + {b[k]}, k);
    LengthsAgree(b[..k + 1], sel, sel + {b[k]});
    LengthsAgree(b[k + 1..], sel, sel + {b[k]});
  }

  /** A header in sel, or one between blocks outside sel, splits block k. */
  lemma LengthsInsert(b: seq<int>, sel: set<int>, k: nat, x: int)
    requires k + 1 < |b| && x !in sel
    ensures Lengths(InsertAt(b, k + 1, x), sel)
         == Lengths(b, sel) - (if b[k] in sel then b[k + 1] - x else 0)
  {
    var d := InsertAt(b, k + 1, x);
    LengthsAround(b, sel, k);
    LengthsAround(d, sel, k);
    LengthsAround(d[k + 1..], sel, 0);
    assert d[..k + 1] == b[..k + 1];
    assert d[k + 1..][1..] == b[k + 1..];
    assert d[k + 1..][..1] == [x];
  }

  // ---------------------------------------------------------------- the operations

  function Size(c: Config, b: seq<int>, i: int): int
    requires 0 <= i < |b| - 1
  {
    b[i + 1] - b[i] - c.header
  }

  /** Line 311: free and large enough. */
  ghost predicate Fits(c: Config, h: Heap, n: nat, i: int) {
    0 <= i < |h.blocks| - 1 && h.blocks[i] !in h.used && Size(c, h.blocks, i) >= n
  }

  /** Lines 305-311: the position of the first fitting block from position i on whose offset is
      below size - n, or -1. */
  ghost function Find(c: Config, h: Heap, n: nat, i: nat): int
    decreases |h.blocks| - i
  {
    if i + 1 >= |h.blocks| || h.blocks[i] >= c.size - n then -1
    else if Fits(c, h, n, i) then i
    else Find(c, h, n, i + 1)
  }

  /** Lines 383-384: the first block from position i on that is free, or heap_end. */
  function NextFree(b: seq<int>, used: set<int>, i: nat): (r: nat)
    requires i < |b|
    ensures i <= r < |b| && (r + 1 < |b| ==> b[r] !in used)
    ensures forall j :: i <= j < r ==> b[j] in used
    decreases |b| - i
  {
    if i + 1 == |b| || b[i] !in used then i else NextFree(b, used, i + 1)
  }

  /** Lines 316-387: block r is taken, split if the rest can hold a block. */
  ghost function Place(c: Config, h: Heap, r: nat, n: nat): Heap
    requires r + 1 < |h.blocks| && c.align > 0
  {
    var a := h.blocks[r];
    var split := Size(c, h.blocks, r) >= n + c.header + MinAligned(c);
    var b := if split then InsertAt(h.blocks, r + 1, a + c.header + n) else h.blocks;
    var used := h.used + {a};
    var usedMem := h.usedMem + b[r + 1] - a;
    Heap(b, used, if a == h.lfree then b[NextFree(b, used, r)] else h.lfree, usedMem, Max(h.maxMem, usedMem))
  }

  /** What the caller of rt_malloc asked for, or None when it is 0 or more than the heap. */
  ghost predicate Askable(c: Config, size: nat)
    requires c.align > 0
  {
    size > 0 && Align(size, c.align) <= c.size
  }

  function Request(c: Config, size: nat): nat
    requires c.align > 0
  {
    Max(Align(size, c.align), MinAligned(c))
  }

  /** rt_malloc */
  ghost function Malloc(c: Config, h: Heap, size: nat): (Heap, int)
    requires c.align > 0
  {
    if !Askable(c, size) then (h, NULL)
    else
      var r := Find(c, h, Request(c, size), Index(h.blocks, h.lfree));
      if 0 <= r < |h.blocks| - 1 then (Place(c, h, r, Request(c, size)), h.blocks[r] + c.header) else (h, NULL)
  }

  ghost predicate Live(c: Config, h: Heap, p: int) {
    p - c.header in h.blocks && p - c.header in h.used && p - c.header != c.size + c.header
  }

  /** Dissolving the free header behind position k; the hint moves along. */
  ghost function Absorb(h: Heap, k: nat): Heap
    requires k + 2 < |h.blocks|
  {
    h.(blocks := RemoveAt(h.blocks, k + 1), lfree := if h.lfree == h.blocks[k + 1] then h.blocks[k] else h.lfree)
  }

  /** plug_holes */
  ghost function Plug(h: Heap, k: nat): Heap
    requires k + 1 < |h.blocks|
  {
    var h1 := if k + 2 < |h.blocks| && h.blocks[k + 1] !in h.used then Absorb(h, k) else h;
    if 0 < k < |h1.blocks| - 1 && h1.blocks[k - 1] !in h.used then Absorb(h1, k - 1) else h1
  }

  /** rt_free of the used block at position k */
  ghost function Release(h: Heap, k: nat): Heap
    requires k + 1 < |h.blocks|
  {
    Plug(Opened(h, k), k)
  }

  ghost function Free(c: Config, h: Heap, p: int): Heap {
    var k := Index(h.blocks, p - c.header);
    if p == NULL || k + 1 >= |h.blocks| then h else Release(h, k)
  }

  /** Lines 475-493: block k gives up everything beyond n bytes. */
  ghost function Shrink(c: Config, h: Heap, k: nat, n: nat): Heap
    requires k + 1 < |h.blocks|
  {
    var x := h.blocks[k] + c.header + n;
    Plug(h.(blocks := InsertAt(h.blocks, k + 1, x), usedMem := h.usedMem - (Size(c, h.blocks, k) - n)), k + 1)
  }

  /** rt_realloc */
  ghost function Realloc(c: Config, h: Heap, p: int, size: nat): (Heap, int)
    requires c.align > 0
  {
    var n := Align(size, c.align);
    if n > c.size then (h, NULL)
    else if n == 0 then (Free(c, h, p), NULL)
    else if p == NULL then Malloc(c, h, n)
    else
      var k := Index(h.blocks, p - c.header);
      if k + 1 >= |h.blocks| || Size(c, h.blocks, k) == n then (h, p)
      else if n + c.header + c.minSize < Size(c, h.blocks, k) then (Shrink(c, h, k, n), p)
      else
        var (h', q) := Malloc(c, h, n);
        if q == NULL then (h', NULL) else (Free(c, h', p), q)
  }

  // ---------------------------------------------------------------- the search

  /** Find returns the first fitting block below the bound, and fails only when there is none. */
  lemma {:induction false} FindSpec(c: Config, h: Heap, n: nat, i: nat)
    requires Tiled(c, h.blocks) && c.header > 0
    ensures var r := Find(c, h, n, i);
      && (r == -1 || (i <= r && Fits(c, h, n, r) && h.blocks[r] < c.size - n))
      && (forall j :: i <= j && Fits(c, h, n, j) && h.blocks[j] < c.size - n ==> r != -1 && r <= j)
    decreases |h.blocks| - i
  {
    if i + 1 >= |h.blocks| {
    } else if h.blocks[i] >= c.size - n {
      forall j | i <= j && Fits(c, h, n, j) ensures h.blocks[j] >= c.size - n {
        InOrder(c, h.blocks, i, j);
      }
    } else if !Fits(c, h, n, i) {
      FindSpec(c, h, n, i + 1);
    }
  }

  /** Used blocks in front do not matter. */
  lemma {:induction false} FindSkip(c: Config, h: Heap, n: nat, i: nat, j: nat)
    requires Tiled(c, h.blocks) && c.header > 0 && i <= j < |h.blocks|
    requires forall t :: i <= t < j ==> h.blocks[t] in h.used
    ensures Find(c, h, n, i) == Find(c, h, n, j)
    decreases j - i
  {
    if i < j {
      if h.blocks[i] >= c.size - n {
        InOrder(c, h.blocks, i, j);
      } else {
        assert !Fits(c, h, n, i);
        FindSkip(c, h, n, i + 1, j);
      }
    }
  }

  /** The hint is only a hint: as long as it is the lowest free block, starting there finds what
      starting at the bottom of the heap finds. */
  lemma SearchFromHint(c: Config, h: Heap, n: nat)
    requires Sane(c) && Inv(c, h) && Lowest(h)
    ensures Find(c, h, n, Index(h.blocks, h.lfree)) == Find(c, h, n, 0)
  {
    var k := Index(h.blocks, h.lfree);
    forall t | 0 <= t < k ensures h.blocks[t] in h.used {
      InOrder(c, h.blocks, t, k);
    }
    FindSkip(c, h, n, 0, k);
  }

  /** rt_malloc finds nothing for n bytes: from the hint on no free block fits, a perfect fit at the end of the
      heap aside. */
  ghost predicate Exhausted(c: Config, h: Heap, n: nat) {
    forall i :: Fits(c, h, n, i) && h.lfree <= h.blocks[i] ==> i == |h.blocks| - 2 && Size(c, h.blocks, i) == n
  }

  /** Malloc of an askable size fails exactly when from the hint on no free block fits, or the only one
      that does is a perfect fit that ends at heap_end. */
  lemma MallocFails(c: Config, h: Heap, size: nat)
    requires Sane(c) && Inv(c, h) && Askable(c, size)
    ensures Malloc(c, h, size).1 == NULL <==> Exhausted(c, h, Request(c, size))
  {
    hide Request, Place, Lengths;
    var n, k := Request(c, size), Index(h.blocks, h.lfree);
    FindSpec(c, h, n, k);
    forall i | Fits(c, h, n, i)
      ensures h.blocks[i] < c.size - n || (i == |h.blocks| - 2 && Size(c, h.blocks, i) == n)
      ensures i == |h.blocks| - 2 && Size(c, h.blocks, i) == n ==> h.blocks[i] == c.size - n
      ensures h.blocks[i] >= 0 && (k <= i <==> h.lfree <= h.blocks[i])
    {
      InOrder(c, h.blocks, 0, i);
      InOrder(c, h.blocks, k, i);
      if i + 1 < |h.blocks| - 1 { Far(c, h.blocks, i + 1, |h.blocks| - 1); }
    }
  }

  /** The smallest such case: a fresh heap of 300 bytes cannot serve a request of 300 bytes. */
  lemma WholeHeapRefused()
    ensures var c := Config(16, 300, 12, 4);
      Fits(c, Initial(c), 300, 0) && Malloc(c, Initial(c), 300) == (Initial(c), NULL)
  {
    var c, h := Config(16, 300, 12, 4), Initial(Config(16, 300, 12, 4));
    assert Request(c, 300) == 300 && Index(h.blocks, h.lfree) == 0;
  }

  // ---------------------------------------------------------------- extents

  /** Every used block but the one at `gone` is still used and still ends where it did. */
  ghost predicate Kept(h: Heap, h': Heap, gone: int) {
    forall x, e :: x in h.used && x != gone && Extent(h.blocks, x, e) ==> x in h'.used && Extent(h'.blocks, x, e)
  }

  lemma KeptTrans(h: Heap, h1: Heap, h2: Heap, gone: int)
    requires Kept(h, h1, gone) && Kept(h1, h2, gone)
    ensures Kept(h, h2, gone)
  {
    hide Extent;
  }

  lemma InsertKept(h: Heap, h': Heap, k: nat, x: int)
    requires k + 1 < |h.blocks| && h'.blocks == InsertAt(h.blocks, k + 1, x) && h.used <= h'.used
    ensures Kept(h, h', h.blocks[k]) && (h.blocks[k] !in h.used ==> Kept(h, h', NULL))
    ensures Extent(h'.blocks, h.blocks[k], x)
  {
    hide Extent;
    InsertExtents(h.blocks, k, x);
  }

  lemma AbsorbKept(h: Heap, k: nat, gone: int)
    requires k + 2 < |h.blocks| && h.blocks[k] !in h.used && h.blocks[k + 1] !in h.used
    ensures Kept(h, Absorb(h, k), gone)
  {
    hide Extent;
    RemoveExtents(h.blocks, k);
  }

  lemma PlugKept(h: Heap, k: nat, gone: int)
    requires k + 1 < |h.blocks| && h.blocks[k] !in h.used
    ensures Kept(h, Plug(h, k), gone)
  {
    hide Kept;
    KeptSame(h, h, gone);
    var h1 := if k + 2 < |h.blocks| && h.blocks[k + 1] !in h.used then Absorb(h, k) else h;
    if k + 2 < |h.blocks| && h.blocks[k + 1] !in h.used { AbsorbKept(h, k, gone); }
    assert k + 1 < |h1.blocks| ==> h1.blocks[k] == h.blocks[k];
    if 0 < k < |h1.blocks| - 1 && h1.blocks[k - 1] !in h.used {
      AbsorbKept(h1, k - 1, gone);
      KeptTrans(h, h1, Absorb(h1, k - 1), gone);
    }
  }

  lemma KeptSame(h: Heap, h': Heap, gone: int)
    requires h'.blocks == h.blocks && h.used - {gone} <= h'.used
    ensures Kept(h, h', gone)
  {
  }

  lemma KeptWeaker(h: Heap, h': Heap, gone: int)
    requires Kept(h, h', NULL) && NULL !in h.used
    ensures Kept(h, h', gone)
  {
  }

  lemma ReleaseKept(h: Heap, k: nat)
    requires k + 1 < |h.blocks|
    ensures Kept(h, Release(h, k), h.blocks[k])
  {
    hide Kept, Plug;
    KeptSame(h, Opened(h, k), h.blocks[k]);
    PlugKept(Opened(h, k), k, h.blocks[k]);
    KeptTrans(h, Opened(h, k), Release(h, k), h.blocks[k]);
  }

  // ---------------------------------------------------------------- malloc

  lemma PlaceInv(c: Config, h: Heap, r: nat, n: nat)
    requires Sane(c) && Inv(c, h) && Fits(c, h, n, r) && n > 0
    ensures Inv(c, Place(c, h, r, n))
    ensures Place(c, h, r, n).used == h.used + {h.blocks[r]}
    ensures Lowest(h) ==> Lowest(Place(c, h, r, n))
  {
    hide Lengths;
    var a, b := h.blocks[r], h.blocks;
    var split := Size(c, b, r) >= n + c.header + MinAligned(c);
    var x := a + c.header + n;
    PlaceBytes(c, h, r, x);
    PlaceTiled(c, h, r, n);
    hide Coalesced, Fits;
    if split { InsertMembers(b, r + 1, x); }
    Far(c, b, r, r + 1);
    PlaceHint(c, h, r, n);
  }

  lemma PlaceTiled(c: Config, h: Heap, r: nat, n: nat)
    requires Sane(c) && Inv(c, h) && Fits(c, h, n, r) && n > 0
    ensures Tiled(c, Place(c, h, r, n).blocks) && Coalesced(Place(c, h, r, n).blocks, Place(c, h, r, n).used)
    ensures Size(c, h.blocks, r) >= n + c.header + MinAligned(c) ==> h.blocks[r] + c.header + n !in h.blocks
  {
    hide Lengths, NextFree;
    var a, b := h.blocks[r], h.blocks;
    var x := a + c.header + n;
    if Size(c, b, r) >= n + c.header + MinAligned(c) {
      TiledInsert(c, b, r, x);
      PlaceCoalesced(c, h, r, x);
    } else {
      forall i | 0 <= i < |b| - 1 ensures !BothFree(b, h.used + {a}, i) {
        assert !BothFree(b, h.used, i);
      }
    }
  }

  lemma PlaceBytes(c: Config, h: Heap, r: nat, x: int)
    requires Sane(c) && Inv(c, h) && r + 1 < |h.blocks| && h.blocks[r] !in h.used
    ensures var a, used := h.blocks[r], h.used + {h.blocks[r]};
      && Lengths(h.blocks, used) == h.usedMem + h.blocks[r + 1] - a
      && (x !in h.blocks ==> Lengths(InsertAt(h.blocks, r + 1, x), used) == h.usedMem + x - a)
  {
    TiledDistinct(c, h.blocks);
    LengthsFlip(h.blocks, h.used, r);
    if x !in h.blocks { LengthsInsert(h.blocks, h.used + {h.blocks[r]}, r, x); }
  }

  lemma PlaceCoalesced(c: Config, h: Heap, r: nat, x: int)
    requires Inv(c, h) && r + 1 < |h.blocks| && h.blocks[r] !in h.used
    ensures Coalesced(InsertAt(h.blocks, r + 1, x), h.used + {h.blocks[r]})
  {
    hide Lengths;
    var b, d := h.blocks, InsertAt(h.blocks, r + 1, x);
    forall i | 0 <= i < |d| - 1 ensures !BothFree(d, h.used + {b[r]}, i) {
      InsertAtIndex(b, r + 1, x, i);
      InsertAtIndex(b, r + 1, x, i + 1);
      if i < r { assert !BothFree(b, h.used, i); }
      if i == r + 1 { assert !BothFree(b, h.used, r); }
      if i > r + 1 { assert !BothFree(b, h.used, i - 1); }
    }
  }

  /** Where the hint goes. */
  lemma PlaceHint(c: Config, h: Heap, r: nat, n: nat)
    requires Sane(c) && Inv(c, h) && Fits(c, h, n, r) && n > 0
    requires Tiled(c, Place(c, h, r, n).blocks)
    requires forall y :: y in h.blocks ==> y in Place(c, h, r, n).blocks
    ensures var h' := Place(c, h, r, n);
      && h'.lfree in h'.blocks && (h'.lfree == c.size + c.header || h'.lfree !in h'.used)
      && (Lowest(h) ==> Lowest(h'))
  {
    hide Lengths;
    var h', a := Place(c, h, r, n), h.blocks[r];
    var b := h'.blocks;
    assert b[r] == a;
    if a == h.lfree {
      var j := NextFree(b, h'.used, r);
      if Lowest(h) {
        forall y | y in b && y !in h'.used ensures b[j] <= y {
          var t := Index(b, y);
          assert y == a + c.header + n || y in h.blocks by { InsertMembers(h.blocks, r + 1, a + c.header + n); }
          InOrder(c, b, r, t);
          InOrder(c, b, j, t);
        }
      }
    } else if Lowest(h) {
      assert h.lfree <= a;
      forall y | y in b && y !in h'.used ensures h.lfree <= y {
        InsertMembers(h.blocks, r + 1, a + c.header + n);
      }
    }
  }

  lemma MallocInv(c: Config, h: Heap, size: nat)
    requires Sane(c) && Inv(c, h)
    ensures var (h', p) := Malloc(c, h, size);
      && Inv(c, h') && (Lowest(h) ==> Lowest(h'))
      && (p == NULL ==> h' == h)
      && (p != NULL ==> Live(c, h', p) && !Live(c, h, p) && h'.used == h.used + {p - c.header} && p >= c.header)
  {
    hide Lengths, Place;
    if Askable(c, size) {
      var n := Request(c, size);
      FindSpec(c, h, n, Index(h.blocks, h.lfree));
      var r := Find(c, h, n, Index(h.blocks, h.lfree));
      if r != -1 {
        assert n > 0 by { AlignUp(size, c.align); }
        PlaceInv(c, h, r, n);
        InOrder(c, h.blocks, 0, r);
        Far(c, h.blocks, r, |h.blocks| - 1);
      }
    }
  }

  /** The block granted holds the request, and all others stay as they are. */
  lemma MallocKept(c: Config, h: Heap, size: nat)
    requires Sane(c) && Inv(c, h)
    ensures var (h', p) := Malloc(c, h, size);
      && Kept(h, h', NULL)
      && (p != NULL ==> size <= Request(c, size)
                        && Room(h'.blocks, p - c.header, c.header + Request(c, size)))
  {
    hide Lengths, Place, Extent, Kept, Request, MinAligned;
    KeptSame(h, h, NULL);
    if Askable(c, size) {
      var n, k := Request(c, size), Index(h.blocks, h.lfree);
      FindSpec(c, h, n, k);
      RequestHolds(c, size);
      if Find(c, h, n, k) != -1 { PlaceKept(c, h, Find(c, h, n, k), n); }
    }
  }

  lemma RequestHolds(c: Config, size: nat)
    requires c.align > 0
    ensures size <= Request(c, size)
  {
    AlignUp(size, c.align);
  }

  lemma PlaceKept(c: Config, h: Heap, r: nat, n: nat)
    requires c.align > 0 && Fits(c, h, n, r)
    ensures Kept(h, Place(c, h, r, n), NULL)
    ensures Room(Place(c, h, r, n).blocks, h.blocks[r], c.header + n)
  {
    hide MinAligned, NextFree, Kept;
    var a := h.blocks[r];
    if Size(c, h.blocks, r) >= n + c.header + MinAligned(c) {
      InsertKept(h, Place(c, h, r, n), r, a + c.header + n);
    } else {
      KeptSame(h, Place(c, h, r, n), NULL);
      assert At(h.blocks, r, a, h.blocks[r + 1]);
      assert Extent(h.blocks, a, h.blocks[r + 1]);
    }
  }

  // ---------------------------------------------------------------- free

  ghost predicate CoalescedAround(b: seq<int>, used: set<int>, k: int) {
    forall i :: 0 <= i < |b| - 1 && i != k - 1 && i != k ==> !BothFree(b, used, i)
  }

  /** What plug_holes starts from: everything but the coalescing at the free block k. */
  ghost predicate Holed(c: Config, h: Heap, k: nat) {
    && Tiled(c, h.blocks) && k + 1 < |h.blocks| && h.blocks[k] !in h.used
    && h.used <= (set x | x in h.blocks) && c.size + c.header in h.used
    && CoalescedAround(h.blocks, h.used, k)
    && h.usedMem == Lengths(h.blocks, h.used)
    && h.usedMem <= h.maxMem
    && h.lfree in h.blocks && (h.lfree == c.size + c.header || h.lfree !in h.used)
  }

  lemma AbsorbHoled(c: Config, h: Heap, k: nat, at: nat)
    requires Sane(c) && Holed(c, h, at) && k + 2 < |h.blocks| && h.blocks[k] !in h.used && h.blocks[k + 1] !in h.used
    requires at == k || at == k + 1
    ensures Holed(c, Absorb(h, k), k)
    ensures Absorb(h, k).used == h.used && Absorb(h, k).usedMem == h.usedMem && |Absorb(h, k).blocks| == |h.blocks| - 1
    ensures Absorb(h, k).blocks[k] == h.blocks[k]
    ensures at == k ==> Absorb(h, k).blocks[k + 1] in h.used
    ensures at == k + 1 && h.blocks[k + 2] in h.used ==> Absorb(h, k).blocks[k + 1] in h.used
    ensures Lowest(h) ==> Lowest(Absorb(h, k))
    ensures at == k + 1 ==> (k > 0 ==> Absorb(h, k).blocks[k - 1] in h.used)
  {
    hide Lengths, Distinct, CoalescedAround;
    TiledDistinct(c, h.blocks);
    TiledRemove(c, h.blocks, k + 1);
    RemoveMembers(h.blocks, k + 1);
    AbsorbBytes(h, k);
    AbsorbCoalesced(h, k, at);
    Far(c, h.blocks, k, k + 1);
  }

  lemma AbsorbCoalesced(h: Heap, k: nat, at: nat)
    requires k + 2 < |h.blocks| && CoalescedAround(h.blocks, h.used, at)
    requires h.blocks[k] !in h.used && h.blocks[k + 1] !in h.used
    requires at == k || at == k + 1
    ensures var d := RemoveAt(h.blocks, k + 1);
      && CoalescedAround(d, h.used, k) && d[k] == h.blocks[k] && d[k + 1] == h.blocks[k + 2]
      && (at == k ==> d[k + 1] in h.used)
      && (at == k + 1 && k > 0 ==> d[k - 1] in h.used)
  {
    var b, d := h.blocks, RemoveAt(h.blocks, k + 1);
    if at == k { assert !BothFree(b, h.used, k + 1); }
    if at == k + 1 && k > 0 { assert !BothFree(b, h.used, k - 1); }
    forall i | 0 <= i < |d| - 1 && i != k - 1 && i != k ensures !BothFree(d, h.used, i) {
      RemoveAtIndex(b, k + 1, i);
      RemoveAtIndex(b, k + 1, i + 1);
      assert !BothFree(b, h.used, if i < k then i else i + 1);
    }
  }

  lemma AbsorbBytes(h: Heap, k: nat)
    requires k + 2 < |h.blocks| && Distinct(h.blocks) && h.blocks[k] !in h.used && h.blocks[k + 1] !in h.used
    ensures Lengths(RemoveAt(h.blocks, k + 1), h.used) == Lengths(h.blocks, h.used)
  {
    var b, d := h.blocks, RemoveAt(h.blocks, k + 1);
    assert InsertAt(d, k + 1, b[k + 1]) == b;
    LengthsInsert(d, h.used, k, b[k + 1]);
  }

  lemma PlugInv(c: Config, h: Heap, k: nat)
    requires Sane(c) && Holed(c, h, k)
    ensures Inv(c, Plug(h, k))
    ensures Lowest(h) ==> Lowest(Plug(h, k))
    ensures Plug(h, k).used == h.used && Plug(h, k).usedMem == h.usedMem
  {
    hide Lengths, Distinct, Lowest, Holed, Absorb, Inv;
    HoledFacts(c, h, k);
    var right := k + 2 < |h.blocks| && h.blocks[k + 1] !in h.used;
    var h1 := if right then Absorb(h, k) else h;
    if right { AbsorbHoled(c, h, k, k); HoledFacts(c, h1, k); }
    if k > 0 && h1.blocks[k - 1] !in h.used {
      AbsorbHoled(c, h1, k - 1, k);
      HoledFacts(c, Absorb(h1, k - 1), k - 1);
      HoledFilled(c, Absorb(h1, k - 1), k - 1);
    } else {
      HoledFilled(c, h1, k);
    }
  }

  lemma HoledFacts(c: Config, h: Heap, k: nat)
    requires Holed(c, h, k)
    ensures k + 1 < |h.blocks| && h.blocks[k] !in h.used
    ensures k + 2 == |h.blocks| ==> h.blocks[k + 1] in h.used
  {
  }

  lemma HoledFilled(c: Config, h: Heap, k: nat)
    requires Holed(c, h, k) && h.blocks[k + 1] in h.used && (k > 0 ==> h.blocks[k - 1] in h.used)
    ensures Inv(c, h)
  {
    hide Lengths;
    forall i | 0 <= i < |h.blocks| - 1 ensures !BothFree(h.blocks, h.used, i) {
      if i != k - 1 && i != k { assert !BothFree(h.blocks, h.used, i); }
    }
  }

  lemma ReleaseInv(c: Config, h: Heap, k: nat)
    requires Sane(c) && Inv(c, h) && k + 1 < |h.blocks| && h.blocks[k] in h.used
    ensures Inv(c, Release(h, k))
    ensures Lowest(h) ==> Lowest(Release(h, k))
    ensures Release(h, k).used == h.used - {h.blocks[k]}
  {
    hide Lengths, Distinct, Holed, Plug;
    ReleaseHoled(c, h, k);
    PlugInv(c, Opened(h, k), k);
  }

  /** Block k marked free, before any merge. */
  ghost function Opened(h: Heap, k: nat): Heap
    requires k + 1 < |h.blocks|
  {
    var a := h.blocks[k];
    h.(used := h.used - {a}, lfree := if a < h.lfree then a else h.lfree,
       usedMem := h.usedMem - (h.blocks[k + 1] - a))
  }

  lemma ReleaseHoled(c: Config, h: Heap, k: nat)
    requires Sane(c) && Inv(c, h) && k + 1 < |h.blocks| && h.blocks[k] in h.used
    ensures Holed(c, Opened(h, k), k)
    ensures Lowest(h) ==> Lowest(Opened(h, k))
  {
    hide Lengths, Distinct;
    var b, a, h1 := h.blocks, h.blocks[k], Opened(h, k);
    TiledDistinct(c, b);
    assert h1.used + {a} == h.used;
    LengthsFlip(b, h1.used, k);
    Far(c, b, k, k + 1);
    Far(c, b, k, |b| - 1);
    forall i | 0 <= i < |b| - 1 && i != k - 1 && i != k ensures !BothFree(b, h1.used, i) {
      assert !BothFree(b, h.used, i);
      InOrder(c, b, i, k);
      InOrder(c, b, i + 1, k);
    }
  }

  lemma FreeInv(c: Config, h: Heap, p: int)
    requires Sane(c) && Inv(c, h) && (p == NULL || Live(c, h, p))
    ensures Inv(c, Free(c, h, p)) && (Lowest(h) ==> Lowest(Free(c, h, p)))
    ensures p != NULL ==> Free(c, h, p).used == h.used - {p - c.header}
    ensures Kept(h, Free(c, h, p), p - c.header)
  {
    hide Release, Lengths, Lowest, Kept;
    KeptSame(h, h, p - c.header);
    if p != NULL {
      var k := Index(h.blocks, p - c.header);
      assert k + 1 < |h.blocks|;
      ReleaseInv(c, h, k);
      ReleaseKept(h, k);
    }
  }

  // ---------------------------------------------------------------- realloc

  /** Shrinking keeps the structure and the exact accounting, but it lowers the hint only when the
      right neighbour it merges with was the hint: the hint stays the lowest free block exactly
      when it lay in front of the new free block or that neighbour was free. */
  lemma ShrinkInv(c: Config, h: Heap, k: nat, n: nat)
    requires Sane(c) && Inv(c, h) && k + 1 < |h.blocks| && h.blocks[k] in h.used
    requires n + c.header <= Size(c, h.blocks, k)
    ensures Inv(c, Shrink(c, h, k, n)) && Shrink(c, h, k, n).used == h.used
    ensures Kept(h, Shrink(c, h, k, n), h.blocks[k])
    ensures Extent(Shrink(c, h, k, n).blocks, h.blocks[k], h.blocks[k] + c.header + n)
    ensures Lowest(h) ==> (Lowest(Shrink(c, h, k, n))
                           <==> h.lfree < h.blocks[k] + c.header + n || h.blocks[k + 1] !in h.used)
  {
    hide Lengths, Distinct, Lowest, Plug, Holed, Kept, Extent;
    var x := h.blocks[k] + c.header + n;
    var h1 := h.(blocks := InsertAt(h.blocks, k + 1, x), usedMem := h.usedMem - (Size(c, h.blocks, k) - n));
    ShrinkHoled(c, h, k, n);
    TiledInsert(c, h.blocks, k, x);
    PlugInv(c, h1, k + 1);
    InsertKept(h, h1, k, x);
    PlugKept(h1, k + 1, h.blocks[k]);
    PlugKept(h1, k + 1, NULL);
    KeptTrans(h, h1, Plug(h1, k + 1), h.blocks[k]);
    NoNull(c, h);
    KeptAt(h1, Plug(h1, k + 1), h.blocks[k], x);
    if Lowest(h) { ShrinkHint(c, h, k, x, h1); }
  }

  lemma KeptAt(h: Heap, h': Heap, x: int, e: int)
    requires Kept(h, h', NULL) && x in h.used && x != NULL && Extent(h.blocks, x, e)
    ensures Extent(h'.blocks, x, e)
  {
  }

  lemma ShrinkHoled(c: Config, h: Heap, k: nat, n: nat)
    requires Sane(c) && Inv(c, h) && k + 1 < |h.blocks| && h.blocks[k] in h.used
    requires n + c.header <= Size(c, h.blocks, k)
    ensures var x := h.blocks[k] + c.header + n;
      Holed(c, h.(blocks := InsertAt(h.blocks, k + 1, x), usedMem := h.usedMem - (Size(c, h.blocks, k) - n)), k + 1)
  {
    hide Lengths, Distinct;
    var b, x := h.blocks, h.blocks[k] + c.header + n;
    var d := InsertAt(b, k + 1, x);
    TiledInsert(c, b, k, x);
    InsertMembers(b, k + 1, x);
    LengthsInsert(b, h.used, k, x);
    forall i | 0 <= i < |d| - 1 && i != k && i != k + 1 ensures !BothFree(d, h.used, i) {
      InsertAtIndex(b, k + 1, x, i);
      InsertAtIndex(b, k + 1, x, i + 1);
      assert !BothFree(b, h.used, if i < k then i else i - 1);
    }
  }

  lemma ShrinkHint(c: Config, h: Heap, k: nat, x: int, h1: Heap)
    requires Sane(c) && Inv(c, h) && k + 1 < |h.blocks| && h.blocks[k] in h.used
    requires h.blocks[k] + c.header <= x && x + c.header <= h.blocks[k + 1] && x !in h.blocks
    requires h1.blocks == InsertAt(h.blocks, k + 1, x) && h1.used == h.used && h1.lfree == h.lfree
    requires Tiled(c, h1.blocks) && Lowest(h)
    ensures Lowest(Plug(h1, k + 1)) <==> h.lfree < x || h.blocks[k + 1] !in h.used
  {
    hide Lengths, Distinct, Coalesced, Tiled, Lowest;
    assert h1.blocks[k] == h.blocks[k] && h1.blocks[k + 1] == x && h1.blocks[k + 2] == h.blocks[k + 1];
    if h.blocks[k + 1] !in h.used {
      ShrinkHintMerged(c, h, k, x, h1);
      assert RemoveAt(h1.blocks, k + 2)[k] == h.blocks[k];
      assert Plug(h1, k + 1) == Absorb(h1, k + 1);
    } else {
      ShrinkHintAlone(h, k, x, h1);
      assert Plug(h1, k + 1) == h1;
    }
  }

  lemma ShrinkHintAlone(h: Heap, k: nat, x: int, h1: Heap)
    requires k + 1 < |h.blocks| && x !in h.blocks && x !in h.used && h.lfree in h.blocks && Lowest(h)
    requires h1.blocks == InsertAt(h.blocks, k + 1, x) && h1.used == h.used && h1.lfree == h.lfree
    ensures Lowest(h1) <==> h.lfree < x
  {
    InsertMembers(h.blocks, k + 1, x);
  }

  /** A free right neighbour cannot lie below the hint without being it. */
  lemma ShrinkHintMerged(c: Config, h: Heap, k: nat, x: int, h1: Heap)
    requires Sane(c) && Inv(c, h) && k + 1 < |h.blocks| && h.blocks[k] in h.used && h.blocks[k + 1] !in h.used
    requires h.blocks[k] + c.header <= x && x + c.header <= h.blocks[k + 1] && x !in h.blocks
    requires h1.blocks == InsertAt(h.blocks, k + 1, x) && h1.used == h.used && h1.lfree == h.lfree
    requires Tiled(c, h1.blocks) && Lowest(h)
    ensures k + 2 < |h.blocks| && Lowest(Absorb(h1, k + 1))
  {
    hide Lengths, Distinct, Coalesced;
    var b := h.blocks;
    assert h1.blocks[k + 1] == x && h1.blocks[k + 2] == b[k + 1];
    assert k + 2 < |b|;
    InsertMembers(b, k + 1, x);
    TiledDistinct(c, h1.blocks);
    RemoveMembers(h1.blocks, k + 2);
    var t := Index(b, h.lfree);
    InOrder(c, b, t, k + 1);
    InOrder(c, b, t, k);
  }

  /** Whatever the call does, the block it returns holds the request, and blocks other than the one it
      was given stay as they are; a failed call leaves that one too. */
  lemma ReallocInv(c: Config, h: Heap, p: int, size: nat)
    requires Sane(c) && Inv(c, h) && (p == NULL || Live(c, h, p))
    ensures var (h', q) := Realloc(c, h, p, size);
      && Inv(c, h')
      && (q != NULL ==> Live(c, h', q) && Room(h'.blocks, q - c.header, c.header + size))
      && Kept(h, h', p - c.header)
      && (q == NULL && Align(size, c.align) != 0 ==> h' == h)
  {
    hide Lengths, Distinct, Lowest, Malloc, Free, Shrink, Coalesced, Kept, Extent, Request;
    var n := Align(size, c.align);
    RequestHolds(c, n);
    AlignUp(size, c.align);
    KeptSame(h, h, p - c.header);
    if n > c.size {
    } else if n == 0 {
      FreeInv(c, h, p);
    } else if p == NULL {
      MallocInv(c, h, n);
      MallocKept(c, h, n);
      NoNull(c, h);
      KeptWeaker(h, Malloc(c, h, n).0, p - c.header);
    } else {
      var k := Index(h.blocks, p - c.header);
      LiveAt(c, h, p);
      if Size(c, h.blocks, k) != n {
        if n + c.header + c.minSize < Size(c, h.blocks, k) {
          ShrinkInv(c, h, k, n);
          ShrinkLive(c, h, k, n);
        } else {
          MallocInv(c, h, n);
          MallocKept(c, h, n);
          var (h', q) := Malloc(c, h, n);
          if q != NULL { ReallocMove(c, h, h', p, q, c.header + Request(c, n)); }
        }
      }
    }
  }

  lemma LiveAt(c: Config, h: Heap, p: int)
    requires Sane(c) && Inv(c, h) && Live(c, h, p)
    ensures var k := Index(h.blocks, p - c.header);
      && k + 1 < |h.blocks| && h.blocks[k] == p - c.header && h.blocks[k] in h.used && p >= c.header
      && Extent(h.blocks, p - c.header, h.blocks[k + 1])
  {
    var k := Index(h.blocks, p - c.header);
    assert At(h.blocks, k, p - c.header, h.blocks[k + 1]);
    InOrder(c, h.blocks, 0, k);
  }

  lemma NoNull(c: Config, h: Heap)
    requires Sane(c) && Inv(c, h)
    ensures NULL !in h.used
  {
    if NULL in h.used { InOrder(c, h.blocks, 0, Index(h.blocks, NULL)); }
  }

  lemma ShrinkLive(c: Config, h: Heap, k: nat, n: nat)
    requires Sane(c) && k + 1 < |h.blocks| && h.blocks[k] in h.used && h.blocks[k] != c.size + c.header
    requires Inv(c, Shrink(c, h, k, n)) && Shrink(c, h, k, n).used == h.used
    ensures Live(c, Shrink(c, h, k, n), h.blocks[k] + c.header)
  {
    hide Shrink, Lengths, Coalesced, Tiled;
    assert h.blocks[k] in set x | x in Shrink(c, h, k, n).blocks;
  }

  lemma ReallocMove(c: Config, h: Heap, h1: Heap, p: int, q: int, n: int)
    requires Sane(c) && Inv(c, h) && Inv(c, h1) && Live(c, h, p) && Live(c, h1, q) && !Live(c, h, q)
    requires h1.used == h.used + {q - c.header} && Kept(h, h1, NULL)
    ensures Live(c, h1, p) && p != q
    ensures var h2 := Free(c, h1, p); Inv(c, h2) && Live(c, h2, q) && Kept(h, h2, p - c.header)
    ensures Room(h1.blocks, q - c.header, n) ==> Room(Free(c, h1, p).blocks, q - c.header, n)
  {
    hide Lengths, Coalesced, Tiled, Free, Extent;
    assert p - c.header in set x | x in h1.blocks;
    FreeInv(c, h1, p);
    var h2 := Free(c, h1, p);
    LiveAt(c, h, p);
    assert p != q;
    assert q - c.header in h2.used;
    assert q - c.header in set x | x in h2.blocks;
    NoNull(c, h);
  }

  // ---------------------------------------------------------------- which block, and how much of it

  /** The lowest fitting block from the hint on */
  ghost predicate LowestFit(c: Config, h: Heap, n: nat, i: int) {
    Fits(c, h, n, i) && h.lfree <= h.blocks[i] && forall j :: Fits(c, h, n, j) && h.lfree <= h.blocks[j] ==> i <= j
  }

  lemma LowestFound(c: Config, h: Heap, n: nat, i: nat)
    requires Sane(c) && Inv(c, h) && i == Find(c, h, n, Index(h.blocks, h.lfree))
    ensures LowestFit(c, h, n, i)
  {
    var k := Index(h.blocks, h.lfree);
    FindSpec(c, h, n, k);
    InOrder(c, h.blocks, k, i);
    forall j | Fits(c, h, n, j) && h.lfree <= h.blocks[j] ensures i <= j { NoneBefore(c, h, n, k, i, j); }
  }

  lemma NoneBefore(c: Config, h: Heap, n: nat, k: nat, i: nat, j: nat)
    requires Sane(c) && Tiled(c, h.blocks) && k < |h.blocks| && i == Find(c, h, n, k)
    requires Fits(c, h, n, j) && h.blocks[k] <= h.blocks[j]
    ensures i <= j
  {
    hide Tiled, Find, Fits;
    FindSpec(c, h, n, k);
    FitsAt(c, h, n, i);
    FitsAt(c, h, n, j);
    InOrder(c, h.blocks, k, j);
    InOrder(c, h.blocks, j, i);
  }

  lemma FitsAt(c: Config, h: Heap, n: nat, i: int)
    requires Fits(c, h, n, i)
    ensures 0 <= i < |h.blocks| - 1
  {
  }

  lemma PlaceEnds(c: Config, h: Heap, i: nat, n: nat)
    requires c.align > 0 && i + 1 < |h.blocks|
    ensures var p, e := h.blocks[i] + c.header, h.blocks[i + 1];
      Extent(Place(c, h, i, n).blocks, h.blocks[i], if e - p >= n + c.header + MinAligned(c) then p + n else e)
  {
    hide Extent, NextFree, MinAligned, InsertAt;
    InsertExtents(h.blocks, i, h.blocks[i] + c.header + n);
    WholeExtent(h.blocks, i);
  }

  /** An allocation takes the lowest fitting block from the hint on, up to the end of the request when the rest can
      hold a block, and as a whole otherwise. */
  lemma MallocMeans(c: Config, h: Heap, size: nat) returns (i: nat)
    requires Sane(c) && Inv(c, h) && Malloc(c, h, size).1 != NULL
    ensures LowestFit(c, h, Request(c, size), i)
    ensures var (h', p) := Malloc(c, h, size);
      var n, e := Request(c, size), h.blocks[i + 1];
      && p == h.blocks[i] + c.header
      && Extent(h'.blocks, p - c.header, if e - p >= n + c.header + MinAligned(c) then p + n else e)
  {
    i := Find(c, h, Request(c, size), Index(h.blocks, h.lfree));
    LowestFound(c, h, Request(c, size), i);
    PlaceEnds(c, h, i, Request(c, size));
    hide Request, Inv, Extent, Place, Find, MinAligned;
  }

  lemma WholeExtent(b: seq<int>, k: nat)
    requires k + 1 < |b|
    ensures Extent(b, b[k], b[k + 1])
  {
    assert At(b, k, b[k], b[k + 1]);
  }

  // ---------------------------------------------------------------- what a reallocation returns

  lemma EndIs(c: Config, h: Heap, p: int, e: int)
    requires Sane(c) && Inv(c, h) && Live(c, h, p) && Extent(h.blocks, p - c.header, e)
    ensures var k := Index(h.blocks, p - c.header);
      k + 1 < |h.blocks| && h.blocks[k] == p - c.header && h.blocks[k + 1] == e && Size(c, h.blocks, k) == e - p
    ensures p != NULL
  {
    var b, x := h.blocks, p - c.header;
    assert Extent(b, x, e);
    var i :| 0 <= i < |b| - 1 && At(b, i, x, e);
    TiledDistinct(c, b);
    IndexUnique(b, i);
    LiveAt(c, h, p);
  }

  /** For a live block that ends at e: it stays in place exactly when it has the aligned size already or is so
      much longer that the rest can hold a block, which is then cut off; otherwise it moves, unless rt_malloc
      finds nothing, and the old one is no longer live. */
  lemma ReallocMeans(c: Config, h: Heap, p: int, size: nat, e: int)
    requires Sane(c) && Inv(c, h) && Live(c, h, p) && Extent(h.blocks, p - c.header, e)
    requires 0 < Align(size, c.align) <= c.size
    ensures var (h', q) := Realloc(c, h, p, size);
      var n, gap := Align(size, c.align), e - p;
      var stays := gap == n || gap > n + c.header + c.minSize;
      && (q == p <==> stays)
      && (q == p ==> Extent(h'.blocks, p - c.header, p + n))
      && (q == NULL <==> !stays && Exhausted(c, h, Request(c, n)))
      && (q != NULL && q != p ==> !Live(c, h, q) && !Live(c, h', p))
  {
    hide Lengths, Distinct, Lowest, Malloc, Free, Shrink, Coalesced, Kept, Extent, Request, Inv;
    var n, k := Align(size, c.align), Index(h.blocks, p - c.header);
    AlignTwice(size, c.align);
    EndIs(c, h, p, e);
    LiveAt(c, h, p);
    if e - p != n {
      if e - p > n + c.header + c.minSize {
        ShrinkInv(c, h, k, n);
      } else {
        MallocFails(c, h, n);
        MallocInv(c, h, n);
        MallocKept(c, h, n);
        var (h1, q) := Malloc(c, h, n);
        if q != NULL {
          ReallocMove(c, h, h1, p, q, c.header + Request(c, n));
          FreeInv(c, h1, p);
        }
      }
    }
  }

  /** More than the heap is refused, a size of 0 frees the block, and NULL is an allocation. */
  lemma ReallocEnds(c: Config, h: Heap, p: int, size: nat)
    requires Sane(c) && Inv(c, h) && (p == NULL || Live(c, h, p))
    ensures var (h', q) := Realloc(c, h, p, size);
      var n := Align(size, c.align);
      && (n > c.size ==> q == NULL && h' == h)
      && (n == 0 ==> q == NULL && (p != NULL ==> !Live(c, h', p)) && (p == NULL ==> h' == h))
      && (p == NULL && 0 < n <= c.size ==>
            (q == NULL <==> Exhausted(c, h, Request(c, n))) && (q != NULL ==> !Live(c, h, q)))
  {
    hide Lengths, Lowest, Malloc, Release, Kept, Request, Inv;
    var n := Align(size, c.align);
    AlignTwice(size, c.align);
    if n <= c.size {
      if n == 0 {
        FreeInv(c, h, p);
      } else if p == NULL {
        MallocFails(c, h, n);
        MallocInv(c, h, n);
      }
    }
  }

  // ---------------------------------------------------------------- alignment

  /** The sizes the source aligns at compile time and in rt_system_heap_init */
  predicate Grid(c: Config)
    requires c.align > 0
  {
    Multiple(c.header, c.align) && Multiple(c.size, c.align)
  }

  /** Every header lies on a multiple of RT_ALIGN_SIZE. */
  ghost predicate OnGrid(c: Config, h: Heap)
    requires c.align > 0
  {
    forall x :: x in h.blocks ==> Multiple(x, c.align)
  }

  lemma RequestMultiple(c: Config, size: nat)
    requires c.align > 0
    ensures Multiple(Request(c, size), c.align)
  {
    AlignMultiple(size, c.align);
    AlignMultiple(c.minSize, c.align);
  }

  lemma InsertGrid(c: Config, b: seq<int>, k: nat, n: int)
    requires c.align > 0 && Grid(c) && k < |b| && Multiple(n, c.align) && forall x :: x in b ==> Multiple(x, c.align)
    ensures forall x :: x in InsertAt(b, k + 1, b[k] + c.header + n) ==> Multiple(x, c.align)
  {
    InsertMembers(b, k + 1, b[k] + c.header + n);
    assert b[k] in b;
    MultipleSum(b[k], c.header, c.align);
    MultipleSum(b[k] + c.header, n, c.align);
  }

  lemma MallocGrid(c: Config, h: Heap, size: nat)
    requires Sane(c) && Grid(c) && Inv(c, h) && OnGrid(c, h)
    ensures OnGrid(c, Malloc(c, h, size).0)
  {
    hide Inv, Request, MinAligned, NextFree, Multiple;
    var n, k := Request(c, size), Index(h.blocks, h.lfree);
    var r := Find(c, h, n, k);
    if Askable(c, size) && 0 <= r < |h.blocks| - 1 {
      RequestMultiple(c, size);
      InsertGrid(c, h.blocks, r, n);
    }
  }

  /** Merging adds no header. */
  lemma PlugGrid(c: Config, h: Heap, k: nat)
    requires c.align > 0 && k + 1 < |h.blocks| && OnGrid(c, h)
    ensures OnGrid(c, Plug(h, k))
  {
    hide Multiple;
  }

  lemma FreeGrid(c: Config, h: Heap, p: int)
    requires c.align > 0 && OnGrid(c, h)
    ensures OnGrid(c, Free(c, h, p))
  {
    hide Plug, Multiple;
    var k := Index(h.blocks, p - c.header);
    if p != NULL && k + 1 < |h.blocks| { PlugGrid(c, Opened(h, k), k); }
  }

  lemma StepGrid(c: Config, h: Heap, op: Op)
    requires Sane(c) && Grid(c) && Inv(c, h) && OnGrid(c, h) && Legal(c, h, op)
    ensures OnGrid(c, Step(c, h, op))
  {
    hide Inv, Malloc, Free, Plug, Grid, Multiple, MinAligned;
    match op {
      case MallocOp(size) => MallocGrid(c, h, size);
      case FreeOp(p) => FreeGrid(c, h, p);
      case ReallocOp(p, size) =>
        var n := Align(size, c.align);
        FreeGrid(c, h, p);
        MallocGrid(c, h, n);
        FreeGrid(c, Malloc(c, h, n).0, p);
        var k := Index(h.blocks, p - c.header);
        if p != NULL && k + 1 < |h.blocks| {
          AlignMultiple(size, c.align);
          InsertGrid(c, h.blocks, k, n);
          PlugGrid(c, h.(blocks := InsertAt(h.blocks, k + 1, h.blocks[k] + c.header + n),
                         usedMem := h.usedMem - (Size(c, h.blocks, k) - n)), k + 1);
        }
    }
  }

  lemma {:induction false} RunGrid(c: Config, h: Heap, ops: seq<Op>)
    requires Sane(c) && Grid(c) && Inv(c, h) && OnGrid(c, h) && LegalRun(c, h, ops)
    ensures OnGrid(c, Run(c, h, ops))
    decreases |ops|
  {
    hide Inv, Step, OnGrid, Legal;
    if ops != [] {
      StepGrid(c, h, ops[0]);
      StepInv(c, h, ops[0]);
      RunGrid(c, Step(c, h, ops[0]), ops[1..]);
    }
  }

  /** In every run, with realloc too, all pointers handed out are aligned. */
  lemma EveryPointerAligned(c: Config, ops: seq<Op>, p: int)
    requires Sane(c) && Grid(c) && LegalRun(c, Initial(c), ops) && Live(c, Run(c, Initial(c), ops), p)
    ensures p % c.align == 0
  {
    hide Run, LegalRun, Inv;
    InitialInv(c);
    MultipleOf(0, c.align);
    MultipleSum(c.size, c.header, c.align);
    RunGrid(c, Initial(c), ops);
    MultipleSum(p - c.header, c.header, c.align);
  }

  // ---------------------------------------------------------------- whole runs

  /** rt_system_heap_init */
  function Initial(c: Config): Heap {
    Heap([0, c.size + c.header], {c.size + c.header}, 0, 0, 0)
  }

  lemma InitialInv(c: Config)
    requires Sane(c)
    ensures Inv(c, Initial(c)) && Lowest(Initial(c))
  {
    var h := Initial(c);
    assert h.blocks[1..] == [c.size + c.header];
    assert Lengths(h.blocks, h.used) == 0 + Lengths(h.blocks[1..], h.used);
  }

  datatype Op = MallocOp(size: nat) | FreeOp(p: int) | ReallocOp(p: int, size: nat)

  ghost predicate Legal(c: Config, h: Heap, op: Op) {
    op.MallocOp? || op.p == NULL || Live(c, h, op.p)
  }

  ghost function Step(c: Config, h: Heap, op: Op): Heap
    requires c.align > 0
  {
    match op
    case MallocOp(size) => Malloc(c, h, size).0
    case FreeOp(p) => Free(c, h, p)
    case ReallocOp(p, size) => Realloc(c, h, p, size).0
  }

  ghost function Run(c: Config, h: Heap, ops: seq<Op>): Heap
    requires c.align > 0
    decreases |ops|
  {
    if ops == [] then h else Run(c, Step(c, h, ops[0]), ops[1..])
  }

  ghost predicate LegalRun(c: Config, h: Heap, ops: seq<Op>)
    requires c.align > 0
    decreases |ops|
  {
    ops == [] || (Legal(c, h, ops[0]) && LegalRun(c, Step(c, h, ops[0]), ops[1..]))
  }

  lemma StepInv(c: Config, h: Heap, op: Op)
    requires Sane(c) && Inv(c, h) && Legal(c, h, op)
    ensures Inv(c, Step(c, h, op)) && (Lowest(h) && !op.ReallocOp? ==> Lowest(Step(c, h, op)))
  {
    hide Inv, Malloc, Free, Realloc, Live, Lowest, Kept;
    match op {
      case MallocOp(size) => MallocInv(c, h, size);
      case FreeOp(p) => FreeInv(c, h, p);
      case ReallocOp(p, size) => ReallocInv(c, h, p, size);
    }
  }

  /** max_mem is the most that was ever in use: it follows used_mem wherever that rises.  A block that moves is
      in use twice for a moment. */
  lemma StepPeak(c: Config, h: Heap, op: Op)
    requires Sane(c) && Inv(c, h) && Legal(c, h, op)
    ensures var h' := Step(c, h, op);
      h'.maxMem >= Max(h.maxMem, h'.usedMem) && (!op.ReallocOp? ==> h'.maxMem == Max(h.maxMem, h'.usedMem))
  {
    hide Step, Inv, Legal, Lowest;
    StepInv(c, h, op);
    PeakBound(c, Step(c, h, op));
    PeakGrows(c, h, op);
    PeakReached(c, h, op);
  }

  lemma PeakBound(c: Config, h: Heap)
    requires Inv(c, h)
    ensures h.usedMem <= h.maxMem
  {
  }

  lemma PeakReached(c: Config, h: Heap, op: Op)
    requires c.align > 0
    ensures !op.ReallocOp? ==> Step(c, h, op).maxMem == h.maxMem || Step(c, h, op).maxMem == Step(c, h, op).usedMem
  {
    hide Find, NextFree, Index, Request, RemoveAt, InsertAt;
  }

  lemma PeakGrows(c: Config, h: Heap, op: Op)
    requires c.align > 0
    ensures Step(c, h, op).maxMem >= h.maxMem
  {
    hide Find, NextFree, Index, Request, RemoveAt, InsertAt;
  }

  /** Every run keeps the structure; a run of rt_malloc and rt_free alone also keeps the hint the
      lowest free block, so that its searches agree with searches from the bottom. */
  lemma {:induction false} RunKeepsInv(c: Config, h: Heap, ops: seq<Op>)
    requires Sane(c) && Inv(c, h) && LegalRun(c, h, ops)
    ensures Inv(c, Run(c, h, ops))
    ensures Lowest(h) && (forall i :: 0 <= i < |ops| ==> !ops[i].ReallocOp?) ==> Lowest(Run(c, h, ops))
    decreases |ops|
  {
    hide Inv, Step, Legal, Lowest;
    if ops != [] {
      StepInv(c, h, ops[0]);
      assert forall i :: 0 <= i < |ops[1..]| ==> ops[1..][i] == ops[i + 1];
      RunKeepsInv(c, Step(c, h, ops[0]), ops[1..]);
    }
  }

  /** p is passed to neither rt_free nor rt_realloc. */
  predicate Untouched(ops: seq<Op>, p: int) {
    forall i :: 0 <= i < |ops| ==> ops[i].MallocOp? || ops[i].p != p
  }

  lemma ExtentLive(c: Config, h: Heap, x: int, e: int)
    requires Sane(c) && Inv(c, h) && Extent(h.blocks, x, e) && x in h.used
    ensures Live(c, h, x + c.header)
  {
    var i :| 0 <= i < |h.blocks| - 1 && At(h.blocks, i, x, e);
    InOrder(c, h.blocks, i, |h.blocks| - 1);
  }

  lemma StepKept(c: Config, h: Heap, op: Op, p: int, e: int)
    requires Sane(c) && Inv(c, h) && Legal(c, h, op) && (op.MallocOp? || op.p != p)
    requires Live(c, h, p) && Extent(h.blocks, p - c.header, e)
    ensures Live(c, Step(c, h, op), p) && Extent(Step(c, h, op).blocks, p - c.header, e)
  {
    hide Inv, Malloc, Free, Realloc, Extent, Room, Lowest, Request;
    StepInv(c, h, op);
    LiveAt(c, h, p);
    match op {
      case MallocOp(size) => MallocKept(c, h, size);
      case FreeOp(p) => FreeInv(c, h, p);
      case ReallocOp(p, size) => ReallocInv(c, h, p, size);
    }
    ExtentLive(c, Step(c, h, op), p - c.header, e);
  }

  /** Through every run a block that nobody frees or resizes stays live and ends where it did. */
  lemma {:induction false} RunKeepsBlock(c: Config, h: Heap, ops: seq<Op>, p: int, e: int)
    requires Sane(c) && Inv(c, h) && LegalRun(c, h, ops) && Untouched(ops, p)
    requires Live(c, h, p) && Extent(h.blocks, p - c.header, e)
    ensures Live(c, Run(c, h, ops), p) && Extent(Run(c, h, ops).blocks, p - c.header, e)
    decreases |ops|
  {
    hide Inv, Step, Legal, Live, Extent, Lowest;
    if ops != [] {
      assert ops[0].MallocOp? || ops[0].p != p;
      StepInv(c, h, ops[0]);
      StepKept(c, h, ops[0], p, e);
      assert forall i :: 0 <= i < |ops[1..]| ==> ops[1..][i] == ops[i + 1];
      RunKeepsBlock(c, Step(c, h, ops[0]), ops[1..], p, e);
    }
  }

  /** So what was granted holds the request until it is given back. */
  lemma GrantLasts(c: Config, h: Heap, size: nat, ops: seq<Op>)
    requires Sane(c) && Inv(c, h) && Malloc(c, h, size).1 != NULL
    requires LegalRun(c, Malloc(c, h, size).0, ops) && Untouched(ops, Malloc(c, h, size).1)
    ensures var (h', p) := Malloc(c, h, size);
      Live(c, Run(c, h', ops), p) && Room(Run(c, h', ops).blocks, p - c.header, c.header + Request(c, size))
  {
    hide Inv, Malloc, Live, Extent, Kept, Request, LegalRun, Run, Untouched, Lowest;
    MallocInv(c, h, size);
    MallocKept(c, h, size);
    var (h', p) := Malloc(c, h, size);
    var e :| Extent(h'.blocks, p - c.header, e) && e - (p - c.header) >= c.header + Request(c, size);
    RunKeepsBlock(c, h', ops, p, e);
  }

  lemma EveryRun(c: Config, ops: seq<Op>)
    requires Sane(c) && LegalRun(c, Initial(c), ops)
    ensures Inv(c, Run(c, Initial(c), ops))
    ensures (forall i :: 0 <= i < |ops| ==> !ops[i].ReallocOp?) ==>
              var h := Run(c, Initial(c), ops);
              Lowest(h) && forall n: nat :: Find(c, h, n, Index(h.blocks, h.lfree)) == Find(c, h, n, 0)
  {
    hide Inv, Run, LegalRun, Initial, Find, Lowest;
    InitialInv(c);
    RunKeepsInv(c, Initial(c), ops);
    var h := Run(c, Initial(c), ops);
    if forall i :: 0 <= i < |ops| ==> !ops[i].ReallocOp? {
      forall n: nat ensures Find(c, h, n, Index(h.blocks, h.lfree)) == Find(c, h, n, 0) {
        SearchFromHint(c, h, n);
      }
    }
  }

  /** With nothing live the heap is one free block again. */
  lemma NothingLive(c: Config, h: Heap)
    requires Sane(c) && Inv(c, h) && forall p :: !Live(c, h, p)
    ensures h.blocks == Initial(c).blocks && h.used == Initial(c).used && h.usedMem == 0
  {
    var b := h.blocks;
    forall y | y in h.used ensures y == c.size + c.header {
      assert !Live(c, h, y + c.header);
    }
    assert h.used == {c.size + c.header};
    Far(c, b, 0, |b| - 1);
    assert |b| == 2 by {
      if |b| > 2 { Far(c, b, 1, |b| - 1); }
      assert BothFree(b, h.used, 0) <==> b[0] !in h.used && b[1] !in h.used;
    }
    assert b[1..] == [b[1]];
    assert Lengths(b, h.used) == 0 + Lengths(b[1..], h.used);
  }

  /** With the hint at heap_end every request fails. */
  lemma HintAtEnd(c: Config, h: Heap, size: nat)
    requires Sane(c) && Inv(c, h) && h.lfree == c.size + c.header
    ensures Malloc(c, h, size) == (h, NULL)
  {
    var k := Index(h.blocks, h.lfree);
    InOrder(c, h.blocks, k, |h.blocks| - 1);
  }

  /** A shrinking realloc really loses memory: here 280 bytes are free and no request can be met. */
  lemma ShrinkLosesMemory()
    ensures var c := Config(16, 300, 12, 4);
      var ops := [MallocOp(296), ReallocOp(16, 4)];
      && LegalRun(c, Initial(c), ops)
      && var h := Run(c, Initial(c), ops);
      && Fits(c, h, 280, 1) && !Lowest(h)
      && forall size: nat :: Malloc(c, h, size).1 == NULL
  {
    var c, h0 := Config(16, 300, 12, 4), Initial(Config(16, 300, 12, 4));
    var h1, h2 := Heap([0, 316], {0, 316}, 316, 316, 316), Heap([0, 20, 316], {0, 316}, 316, 20, 316);
    InitialInv(c);
    LosingMalloc();
    LosingShrink();
    var ops := [MallocOp(296), ReallocOp(16, 4)];
    hide Malloc, Realloc, Inv, Request;
    RunTwo(c, h0, ops[0], ops[1], h1, h2);
    RunKeepsInv(c, h0, ops);
    forall size: nat ensures Malloc(c, h2, size).1 == NULL { HintAtEnd(c, h2, size); }
    assert h2.blocks[1] == 20;
  }

  lemma LosingMalloc()
    ensures var c := Config(16, 300, 12, 4); Malloc(c, Initial(c), 296) == (Heap([0, 316], {0, 316}, 316, 316, 316), 16)
  {
    var c, h0 := Config(16, 300, 12, 4), Initial(Config(16, 300, 12, 4));
    assert Request(c, 296) == 296 && Index(h0.blocks, h0.lfree) == 0;
    assert Find(c, h0, 296, 0) == 0;
    assert NextFree([0, 316], {0, 316}, 0) == 1;
    assert MinAligned(c) == 12 && h0.used + {0} == {0, 316};
  }

  lemma LosingShrink()
    ensures Realloc(Config(16, 300, 12, 4), Heap([0, 316], {0, 316}, 316, 316, 316), 16, 4) ==
            (Heap([0, 20, 316], {0, 316}, 316, 20, 316), 16)
  {
    var h1 := Heap([0, 316], {0, 316}, 316, 316, 316);
    assert Index(h1.blocks, 0) == 0 && InsertAt([0, 316], 1, 20) == [0, 20, 316];
  }

  lemma RunTwo(c: Config, h0: Heap, op1: Op, op2: Op, h1: Heap, h2: Heap)
    requires c.align > 0 && h1 == Step(c, h0, op1) && h2 == Step(c, h1, op2) && Legal(c, h0, op1) && Legal(c, h1, op2)
    ensures Run(c, h0, [op1, op2]) == h2 && LegalRun(c, h0, [op1, op2])
  {
    assert [op1, op2][1..] == [op2] && [op2][1..] == [];
    assert Run(c, h1, [op2]) == Run(c, h2, []);
    assert LegalRun(c, h2, []) && LegalRun(c, h1, [op2]);
  }
}

/** The heap as the source runs it: header fields at offsets, rewritten in place. */
module Mem {
  import opened Arith
  import opened Ring
  import opened MemSpec
  import opened Ram

  /** z lies in the payload of a used block other than the one at `own`. */
  ghost predicate UsedByte(c: Config, h: Heap, own: int, z: int) {
    exists x, e :: x in h.used && x != own && Extent(h.blocks, x, e) && x + c.header <= z < e
  }

  /** The payloads of the used blocks of h, the one at `own` aside, read the same. */
  ghost predicate PayloadsKept(c: Config, h: Heap, own: int, ram: map<int, byte>, ram': map<int, byte>) {
    ram'.Keys == ram.Keys && forall z :: z in ram && UsedByte(c, h, own, z) ==> ram'[z] == ram[z]
  }

  /** No header of the chain lies in the payload of a block. */
  lemma HeadersElsewhere(c: Config, b: seq<int>, x: int, e: int, j: nat, z: int)
    requires Tiled(c, b) && Extent(b, x, e) && x + c.header <= z < e && j < |b|
    ensures !(b[j] <= z < b[j] + c.header)
  {
    var i :| 0 <= i < |b| - 1 && At(b, i, x, e);
    if j < i { Far(c, b, j, i); }
    if j > i + 1 { Far(c, b, i + 1, j); }
  }

  /** Neither does a new header at y inside block k in the payload of another one. */
  lemma NewElsewhere(c: Config, b: seq<int>, x: int, e: int, k: nat, y: int, z: int)
    requires Tiled(c, b) && Extent(b, x, e) && x + c.header <= z < e && k + 1 < |b| && x != b[k]
    requires b[k] <= y && y + c.header <= b[k + 1]
    ensures !(y <= z < y + c.header)
  {
    var i :| 0 <= i < |b| - 1 && At(b, i, x, e);
    if k < i { if k + 1 < i { Far(c, b, k + 1, i); } }
    if k > i + 1 { Far(c, b, i + 1, k); }
  }

  /** Header writes into known headers, or into a new header at y inside block k, miss every payload in use
      but that of block k. */
  lemma HeadersMissPayloads(c: Config, h: Heap, k: nat, y: int, own: int, ram: map<int, byte>, ram': map<int, byte>)
    requires Tiled(c, h.blocks) && k + 1 < |h.blocks| && (h.blocks[k] !in h.used || h.blocks[k] == own)
    requires h.blocks[k] <= y && y + c.header <= h.blocks[k + 1]
    requires Keeps(c.header, h.blocks + [y], ram, ram')
    ensures PayloadsKept(c, h, own, ram, ram')
  {
    var b := h.blocks;
    forall z | z in ram && UsedByte(c, h, own, z) ensures ram'[z] == ram[z] {
      var x, e :| x in h.used && x != own && Extent(b, x, e) && x + c.header <= z < e;
      forall t | 0 <= t <= |b| ensures !((b + [y])[t] <= z < (b + [y])[t] + c.header) {
        if t < |b| { HeadersElsewhere(c, b, x, e, t, z); } else { NewElsewhere(c, b, x, e, k, y, z); }
      }
    }
  }

  /** The payload that block k keeps lies in front of the new header. */
  lemma OwnPrefix(c: Config, h: Heap, k: nat, y: int, ram: map<int, byte>, ram': map<int, byte>)
    requires Tiled(c, h.blocks) && k + 1 < |h.blocks| && y <= h.blocks[k + 1]
    requires Keeps(c.header, h.blocks + [y], ram, ram')
    ensures forall z :: h.blocks[k] + c.header <= z < y && z in ram ==> ram'[z] == ram[z]
  {
    var b := h.blocks;
    assert At(b, k, b[k], b[k + 1]);
    forall z | b[k] + c.header <= z < y && z in ram ensures ram'[z] == ram[z] {
      forall t | 0 <= t <= |b| ensures !((b + [y])[t] <= z < (b + [y])[t] + c.header) {
        if t < |b| { HeadersElsewhere(c, b, b[k], b[k + 1], t, z); }
      }
    }
  }

  lemma SameKeys(c: Config, h: Heap, own: int, ram: map<int, byte>, ram': map<int, byte>)
    requires PayloadsKept(c, h, own, ram, ram')
    ensures ram'.Keys == ram.Keys
  {
  }

  /** Without a single owner aside */
  lemma KeptForOwner(c: Config, h: Heap, own: int, ram: map<int, byte>, ram': map<int, byte>)
    requires PayloadsKept(c, h, NULL, ram, ram') && NULL !in h.used
    ensures PayloadsKept(c, h, own, ram, ram')
  {
    forall z | z in ram && UsedByte(c, h, own, z) ensures ram'[z] == ram[z] { assert UsedByte(c, h, NULL, z); }
  }

  /** A block in use that is not `own` reads the same. */
  lemma BlockReads(c: Config, h: Heap, x: int, n: int, own: int, ram: map<int, byte>, ram': map<int, byte>)
    requires PayloadsKept(c, h, own, ram, ram') && x in h.used && x != own && Room(h.blocks, x, c.header + n)
    requires forall z :: x + c.header <= z < x + c.header + n ==> z in ram
    ensures Copied(ram, x + c.header, ram', x + c.header, n)
  {
    var p, e :| p == x + c.header && Extent(h.blocks, x, e) && e - x >= c.header + n;
    forall z | 0 <= z < n ensures SameByte(ram, p, ram', p, z) { assert UsedByte(c, h, own, p + z); }
  }

  /** Where the header behind n bytes of block r is written; its own header when it is not split */
  function Cutoff(c: Config, h: Heap, r: nat, n: nat): int
    requires r + 1 < |h.blocks| && c.align > 0
  {
    if Size(c, h.blocks, r) >= n + c.header + MinAligned(c) then h.blocks[r] + c.header + n else h.blocks[r]
  }

  /** How many bytes the block at p and a block of n bytes have in common */
  ghost function Common(c: Config, h: Heap, p: int, n: int): int {
    var k := Index(h.blocks, p - c.header);
    if k + 1 >= |h.blocks| then 0 else if Size(c, h.blocks, k) < n then Size(c, h.blocks, k) else n
  }

  /** The links of the header at position i.  heap_end's own prev field is never relied on. */
  ghost predicate LinkedAt(next: map<int, int>, prev: map<int, int>, b: seq<int>, i: int)
    requires 0 <= i < |b|
  {
    && b[i] in next && next[b[i]] == (if i + 1 < |b| then b[i + 1] else b[i])
    && b[i] in prev && (i + 1 < |b| ==> prev[b[i]] == if i == 0 then 0 else b[i - 1])
  }

  ghost predicate Chain(next: map<int, int>, prev: map<int, int>, b: seq<int>) {
    forall i :: 0 <= i < |b| ==> LinkedAt(next, prev, b, i)
  }

  lemma ChainInsert(next: map<int, int>, prev: map<int, int>, prev': map<int, int>, b: seq<int>, k: nat, x: int)
    requires Chain(next, prev, b) && Distinct(b) && k + 1 < |b| && x !in b
    requires prev' == prev[x := b[k]][b[k + 1] := x] || (k + 2 == |b| && prev' == prev[x := b[k]])
    ensures Chain(next[x := b[k + 1]][b[k] := x], prev', InsertAt(b, k + 1, x))
  {
    var d, next' := InsertAt(b, k + 1, x), next[x := b[k + 1]][b[k] := x];
    forall i | 0 <= i < |d| ensures LinkedAt(next', prev', d, i) {
      InsertAtIndex(b, k + 1, x, i);
      if i > 0 { InsertAtIndex(b, k + 1, x, i - 1); }
      if i + 1 < |d| { InsertAtIndex(b, k + 1, x, i + 1); }
      if i != k + 1 { assert LinkedAt(next, prev, b, if i <= k then i else i - 1); }
    }
  }

  lemma ChainRemove(next: map<int, int>, prev: map<int, int>, b: seq<int>, k: nat)
    requires Chain(next, prev, b) && Distinct(b) && k + 2 < |b|
    ensures Chain(next[b[k] := b[k + 2]], prev[b[k + 2] := b[k]], RemoveAt(b, k + 1))
  {
    var d, next', prev' := RemoveAt(b, k + 1), next[b[k] := b[k + 2]], prev[b[k + 2] := b[k]];
    forall i | 0 <= i < |d| ensures LinkedAt(next', prev', d, i) {
      RemoveAtIndex(b, k + 1, i);
      if i > 0 { RemoveAtIndex(b, k + 1, i - 1); }
      if i + 1 < |d| { RemoveAtIndex(b, k + 1, i + 1); }
      assert LinkedAt(next, prev, b, if i <= k then i else i + 1);
    }
  }

  class SmallMem {
    const c: Config
    var next: map<int, int>
    var prev: map<int, int>
    var used: map<int, bool>
    var lfree: int
    var usedMem: int
    var maxMem: int
    var ram: map<int, byte>
    /** What a header store leaves in the bytes it covers; nothing depends on it. */
    const noise: int -> byte

    ghost var blocks: seq<int>
    ghost var marked: set<int>

    ghost function Abs(): Heap
      reads this`blocks, this`marked, this`lfree, this`usedMem, this`maxMem
    {
      Heap(blocks, marked, lfree, usedMem, maxMem)
    }

    ghost predicate Flags()
      reads this`blocks, this`used, this`marked
    {
      forall x :: x in blocks ==> x in used && (used[x] <==> x in marked)
    }

    ghost predicate Valid()
      reads this
    {
      Sane(c) && Inv(c, Abs()) && Chain(next, prev, blocks) && Flags() && Covered()
    }

    ghost predicate Covered()
      reads this`ram
    {
      forall z :: 0 <= z < c.size + 2 * c.header ==> z in ram
    }

    /** A store into the header at y */
    method Touch(y: int, ghost hs: seq<int>)
      requires y in hs
      modifies this`ram
      ensures Keeps(c.header, hs, old(ram), ram)
    {
      ScribbleKeeps(c.header, hs, ram, y, noise);
      ram := Scribbled(c.header, ram, y, noise);
    }

    /** rt_system_heap_init, the aligned size already computed. */
    constructor (c: Config, noise: int -> byte, ram: map<int, byte>)
      requires Sane(c) && forall z :: 0 <= z < c.size + 2 * c.header ==> z in ram
      ensures Valid() && this.c == c && Abs() == Initial(c)
    {
      var end := c.size + c.header;
      this.c, this.noise, this.ram := c, noise, ram;
      next := map[0 := end, end := end];
      prev := map[0 := 0, end := end];
      used := map[0 := false, end := true];
      lfree, usedMem, maxMem := 0, 0, 0;
      blocks, marked := [0, end], {end};
      new;
      InitialInv(c);
    }

    lemma NextIs(i: nat)
      requires Chain(next, prev, blocks) && i < |blocks|
      ensures blocks[i] in next && next[blocks[i]] == (if i + 1 < |blocks| then blocks[i + 1] else blocks[i])
      ensures blocks[i] in prev && (i + 1 < |blocks| ==> prev[blocks[i]] == if i == 0 then 0 else blocks[i - 1])
    {
      assert LinkedAt(next, prev, blocks, i);
    }

    /** Lines 305-314 */
    method Search(n: nat) returns (ptr: int, found: bool, ghost r: int)
      requires Valid()
      ensures r == Find(c, Abs(), n, Index(blocks, lfree))
      ensures found <==> Find(c, Abs(), n, Index(blocks, lfree)) != -1
      ensures found ==> 0 <= r < |blocks| - 1 && Fits(c, Abs(), n, r) && ptr == blocks[r]
    {
      hide Lengths, Distinct, Coalesced;
      ptr, found := lfree, false;
      r := Index(blocks, lfree);
      TiledDistinct(c, blocks);
      FindSpec(c, Abs(), n, r);
      while ptr < c.size - n
        invariant 0 <= r < |blocks| && ptr == blocks[r]
        invariant Find(c, Abs(), n, Index(blocks, lfree)) == Find(c, Abs(), n, r)
        decreases |blocks| - r
      {
        assert r + 1 < |blocks|;
        NextIs(r);
        if !used[ptr] && next[ptr] - (ptr + c.header) >= n {
          found := true;
          return;
        }
        ptr := next[ptr];
        r := r + 1;
      }
      r := -1;
    }

    /** Lines 383-384 */
    method AdvanceHint(ghost r: nat)
      requires Tiled(c, blocks) && Chain(next, prev, blocks) && Flags() && c.header > 0
      requires r < |blocks| && lfree == blocks[r]
      modifies this`lfree
      ensures lfree == blocks[NextFree(blocks, marked, r)]
    {
      ghost var i := r;
      while used[lfree] && lfree != c.size + c.header
        invariant r <= i < |blocks| && lfree == blocks[i]
        invariant NextFree(blocks, marked, r) == NextFree(blocks, marked, i)
        decreases |blocks| - i
      {
        NextIs(i);
        lfree := next[lfree];
        i := i + 1;
      }
      InOrder(c, blocks, i, |blocks| - 1);
    }

    /** Lines 329-348 */
    method Split(ptr: int, ptr2: int, ghost r: nat, ghost hs: seq<int>)
      requires hs == blocks + [ptr2]
      requires Chain(next, prev, blocks) && Flags() && Distinct(blocks) && r + 1 < |blocks| && blocks[r] == ptr
      requires ptr2 !in blocks && ptr2 !in marked && blocks[|blocks| - 1] == c.size + c.header
      modifies this`next, this`prev, this`used, this`blocks, this`ram
      ensures Chain(next, prev, blocks) && Flags() && Keeps(c.header, hs, old(ram), ram)
      ensures blocks == InsertAt(old(blocks), r + 1, ptr2)
    {
      NextIs(r);
      assert hs[|blocks|] == ptr2 && hs[r] == ptr && hs[r + 1] == next[ptr];
      used := used[ptr2 := false];
      next := next[ptr2 := next[ptr]];
      prev := prev[ptr2 := ptr];
      Touch(ptr2, hs);
      next := next[ptr := ptr2];
      Touch(ptr, hs);
      if next[ptr2] != c.size + c.header {
        prev := prev[next[ptr2] := ptr2];
        Touch(next[ptr2], hs);
      }
      ChainInsert(old(next), old(prev), prev, old(blocks), r, ptr2);
      blocks := InsertAt(blocks, r + 1, ptr2);
      InsertMembers(old(blocks), r + 1, ptr2);
    }

    lemma MallocIs(c: Config, h: Heap, size: nat)
      requires c.align > 0
      ensures Askable(c, size) <==> size != 0 && Align(size, c.align) <= c.size
      ensures !Askable(c, size) ==> MemSpec.Malloc(c, h, size) == (h, NULL)
      ensures Request(c, size) == Max(Align(size, c.align), MinAligned(c))
      ensures Askable(c, size) ==> Request(c, size) > 0
      ensures Askable(c, size) ==>
                (var r := Find(c, h, Request(c, size), Index(h.blocks, h.lfree));
                MemSpec.Malloc(c, h, size) ==
                if 0 <= r < |h.blocks| - 1 then (Place(c, h, r, Request(c, size)), h.blocks[r] + c.header) else (h, NULL))
    {
      hide Find, Place, MinAligned;
      AlignUp(size, c.align);
    }

    /** rt_malloc */
    method Malloc(size: nat) returns (p: int)
      requires Valid()
      modifies this
      ensures Valid()
      ensures (Abs(), p) == MemSpec.Malloc(c, old(Abs()), size)
      ensures PayloadsKept(c, old(Abs()), NULL, old(ram), ram)
    {
      hide MinAligned, Place, Find, Align, Inv, Askable, Request, MemSpec.Malloc, UsedByte, Lowest, Keeps;
      ghost var h := Abs();
      MallocIs(c, h, size);
      p := NULL;
      if size == 0 {
        return;
      }
      var n := Align(size, c.align);
      if n > c.size {
        return;
      }
      if n < MinAligned(c) {
        n := MinAligned(c);
      }
      var ptr, found;
      ghost var r;
      ptr, found, r := Search(n);
      if found {
        Occupy(ptr, n, r);
        PlaceInv(c, h, r, n);
        PlacedBytes(h, r, n, old(ram), ram);
        p := ptr + c.header;
      }
    }

    /** Lines 316-387 */
    method Occupy(ptr: int, n: nat, ghost r: nat)
      requires Valid() && r + 1 < |blocks| && blocks[r] == ptr && Fits(c, Abs(), n, r) && n > 0
      modifies this
      ensures Chain(next, prev, blocks) && Flags() && Abs() == Place(c, old(Abs()), r, n)
      ensures Keeps(c.header, old(blocks) + [Cutoff(c, old(Abs()), r, n)], old(ram), ram)
    {
      hide Lengths, Distinct, Coalesced, Tiled, NextFree, MinAligned, Keeps, Inv, Lowest;
      ghost var h := Abs();
      ghost var hs := blocks + [Cutoff(c, h, r, n)];
      KeepsRefl(c.header, hs, ram);
      OccupyFrame(h, r, n);
      NextIs(r);
      var grown := usedMem + (next[ptr] - ptr);
      if next[ptr] - (ptr + c.header) >= n + c.header + MinAligned(c) {
        Split(ptr, ptr + c.header + n, r, hs);
        grown := usedMem + (n + c.header);
      }
      ghost var ram1 := ram;
      Claim(ptr, grown, r, hs);
      KeepsTrans(c.header, hs, old(ram), ram1, ram);
    }

    lemma PlacedBytes(h: Heap, r: nat, n: nat, ram: map<int, byte>, ram': map<int, byte>)
      requires Sane(c) && Inv(c, h) && Fits(c, h, n, r)
      requires Keeps(c.header, h.blocks + [Cutoff(c, h, r, n)], ram, ram')
      ensures PayloadsKept(c, h, NULL, ram, ram') && ram'.Keys == ram.Keys
    {
      hide Lengths, Coalesced, Keeps, MinAligned;
      BlockFrame(h, r);
      MinNat(c);
      HeadersMissPayloads(c, h, r, Cutoff(c, h, r, n), NULL, ram, ram');
      KeepsKeys(c.header, h.blocks + [Cutoff(c, h, r, n)], ram, ram');
    }

    lemma MinNat(c: Config)
      requires c.align > 0
      ensures MinAligned(c) >= 0
    {
    }

    /** Lines 343, 349-353, 364-369, 380-387 */
    method Claim(ptr: int, usedMem': int, ghost r: nat, ghost hs: seq<int>)
      requires ptr in hs
      requires Chain(next, prev, blocks) && Flags() && r < |blocks| && blocks[r] == ptr && Tiled(c, blocks) && c.header > 0
      modifies this`used, this`marked, this`usedMem, this`maxMem, this`lfree, this`ram
      ensures Keeps(c.header, hs, old(ram), ram)
      ensures Flags() && marked == old(marked) + {ptr}
      ensures usedMem == usedMem' && maxMem == Max(old(maxMem), usedMem)
      ensures lfree == if ptr == old(lfree) then blocks[NextFree(blocks, marked, r)] else old(lfree)
    {
      used, marked := used[ptr := true], marked + {ptr};
      Touch(ptr, hs);
      usedMem := usedMem';
      if maxMem < usedMem {
        maxMem := usedMem;
      }
      if ptr == lfree {
        AdvanceHint(r);
      }
    }

    lemma OccupyFrame(h: Heap, r: nat, n: nat)
      requires Sane(c) && Inv(c, h) && Fits(c, h, n, r) && n > 0
      ensures Distinct(h.blocks) && h.blocks[|h.blocks| - 1] == c.size + c.header
      ensures Tiled(c, h.blocks) && Tiled(c, Place(c, h, r, n).blocks)
      ensures Size(c, h.blocks, r) >= n + c.header + MinAligned(c) ==>
                h.blocks[r] + c.header + n !in h.blocks && h.blocks[r] + c.header + n !in h.used
      ensures h.blocks[r] + c.header <= h.blocks[r + 1]
    {
      Far(c, h.blocks, r, r + 1);
      hide Lengths;
      TiledDistinct(c, h.blocks);
      if Size(c, h.blocks, r) >= n + c.header + MinAligned(c) {
        TiledInsert(c, h.blocks, r, h.blocks[r] + c.header + n);
      }
    }

    /** One merge of plug_holes: the free header `right` behind `left` dissolves. */
    method Dissolve(left: int, right: int, ghost k: nat, ghost hs: seq<int>)
      requires forall x :: x in blocks ==> x in hs
      requires Chain(next, prev, blocks) && Flags() && Distinct(blocks) && k + 2 < |blocks|
      requires blocks[k] == left && blocks[k + 1] == right
      modifies this`next, this`prev, this`lfree, this`blocks, this`ram
      ensures Chain(next, prev, blocks) && Flags() && Keeps(c.header, hs, old(ram), ram)
      ensures Abs() == Absorb(old(Abs()), k) && forall x :: x in blocks ==> x in hs
    {
      if lfree == right {
        lfree := left;
      }
      NextIs(k + 1);
      ChainRemove(next, prev, blocks, k);
      RemoveMembers(blocks, k + 1);
      assert next[right] == blocks[k + 2] && left in blocks && blocks[k + 2] in blocks;
      next := next[left := next[right]];
      Touch(left, hs);
      prev := prev[next[right] := left];
      Touch(next[right], hs);
      blocks := RemoveAt(blocks, k + 1);
    }

    /** plug_holes */
    method PlugHoles(mem: int, ghost k: nat, ghost hs: seq<int>)
      requires forall x :: x in blocks ==> x in hs
      requires Sane(c) && Holed(c, Abs(), k) && blocks[k] == mem && Chain(next, prev, blocks) && Flags()
      modifies this`next, this`prev, this`lfree, this`blocks, this`ram
      ensures Chain(next, prev, blocks) && Flags() && Keeps(c.header, hs, old(ram), ram)
      ensures Abs() == Plug(old(Abs()), k)
    {
      hide Lengths, Distinct, CoalescedAround, Tiled, Chain, Keeps;
      KeepsRefl(c.header, hs, ram);
      TiledDistinct(c, blocks);
      PlugFrame(k);
      NextIs(k);
      var nmem := next[mem];
      if mem != nmem && !used[nmem] && nmem != c.size + c.header {
        Dissolve(mem, nmem, k, hs);
        RemoveDistinct(old(blocks), k + 1);
      }
      NextIs(k);
      var pmem := prev[mem];
      if pmem != mem && !used[pmem] {
        ghost var ram1 := ram;
        Dissolve(pmem, mem, k - 1, hs);
        KeepsTrans(c.header, hs, old(ram), ram1, ram);
      }
    }

    lemma PlugFrame(k: nat)
      requires Sane(c) && Holed(c, Abs(), k) && Chain(next, prev, blocks)
      ensures blocks[0] == 0 && blocks[k] != blocks[k + 1] && (k > 0 ==> blocks[k - 1] != blocks[k])
      ensures blocks[k + 1] == c.size + c.header <==> k + 2 == |blocks|
      ensures k + 2 < |blocks| ==> RemoveAt(blocks, k + 1)[k] == blocks[k] && (k > 0 ==> RemoveAt(blocks, k + 1)[k - 1] == blocks[k - 1])
    {
      Far(c, blocks, k, k + 1);
      if k > 0 { Far(c, blocks, k - 1, k); }
      if k + 2 < |blocks| { Far(c, blocks, k + 1, |blocks| - 1); }
    }

    /** rt_free */
    method Free(p: int)
      requires Valid() && (p == NULL || Live(c, Abs(), p))
      modifies this
      ensures Valid()
      ensures Abs() == MemSpec.Free(c, old(Abs()), p)
      ensures PayloadsKept(c, old(Abs()), p - c.header, old(ram), ram)
    {
      hide Lengths, Distinct, Coalesced, Tiled, Keeps, Kept, UsedByte, Inv, Lowest, MemSpec.Release;
      if p == NULL {
        return;
      }
      ghost var h, k, hs := Abs(), Index(blocks, p - c.header), blocks + [p - c.header];
      LivePosition(h, p);
      FreeInv(c, h, p);
      BlockFrame(h, k);
      ReleaseBlock(p - c.header, k, hs);
      HeadersMissPayloads(c, h, k, p - c.header, p - c.header, old(ram), ram);
      KeepsKeys(c.header, hs, old(ram), ram);
    }

    /** Lines 583-607 */
    method ReleaseBlock(mem: int, ghost k: nat, ghost hs: seq<int>)
      requires Valid() && k + 1 < |blocks| && blocks[k] == mem && mem in marked && hs == blocks + [mem]
      modifies this
      ensures Chain(next, prev, blocks) && Flags() && Abs() == MemSpec.Release(old(Abs()), k)
      ensures Keeps(c.header, hs, old(ram), ram)
    {
      hide Lengths, Distinct, Coalesced, Tiled, Holed, Plug, Keeps, Inv, Lowest;
      ghost var h := Abs();
      ReleaseHoled(c, h, k);
      NextIs(k);
      used, marked := used[mem := false], marked - {mem};
      Touch(mem, hs);
      ghost var ram1 := ram;
      if mem < lfree {
        lfree := mem;
      }
      usedMem := usedMem - (next[mem] - mem);
      PlugHoles(mem, k, hs);
      KeepsTrans(c.header, hs, old(ram), ram1, ram);
    }

    lemma BlockFrame(h: Heap, k: nat)
      requires Sane(c) && Inv(c, h) && k + 1 < |h.blocks|
      ensures Tiled(c, h.blocks) && h.blocks[k] + c.header <= h.blocks[k + 1]
    {
      Far(c, h.blocks, k, k + 1);
    }

    /** rt_realloc.  The bytes both sizes have in common survive, wherever the block ends up, and no other
        payload is disturbed. */
    method Realloc(p: int, size: nat) returns (q: int)
      requires Valid() && (p == NULL || Live(c, Abs(), p))
      modifies this
      ensures Valid()
      ensures (Abs(), q) == MemSpec.Realloc(c, old(Abs()), p, size)
      ensures PayloadsKept(c, old(Abs()), p - c.header, old(ram), ram)
      ensures p != NULL && q != NULL ==>
                Copied(old(ram), p, ram, q, Common(c, old(Abs()), p, Align(size, c.align)))
    {
      hide Lengths, Distinct, Coalesced, Tiled, MemSpec.Malloc, MemSpec.Free, Shrink, UsedByte, Copied;
      var n := Align(size, c.align);
      ghost var h := Abs();
      NoNull(c, h);
      if n > c.size {
        KeptForOwner(c, h, p - c.header, ram, ram);
        SamePayload(h, p, n, ram);
        return NULL;
      }
      if n == 0 {
        Free(p);
        return NULL;
      }
      if p == NULL {
        q := Malloc(n);
        KeptForOwner(c, h, p - c.header, old(ram), ram);
        return;
      }
      var mem := p - c.header;
      ghost var k := Index(blocks, mem);
      LivePosition(h, p);
      NextIs(k);
      SamePayload(h, p, n, ram);
      var oldsize := next[mem] - mem - c.header;
      if oldsize == n {
        return p;
      }
      if n + c.header + c.minSize < oldsize {
        GiveBack(mem, n, oldsize, k);
        return p;
      }
      q := Move(p, n, oldsize, k);
    }

    lemma SamePayload(h: Heap, p: int, n: int, ram: map<int, byte>)
      requires Sane(c) && Inv(c, h) && (forall z :: 0 <= z < c.size + 2 * c.header ==> z in ram)
      ensures PayloadsKept(c, h, p - c.header, ram, ram)
      ensures Live(c, h, p) ==> Copied(ram, p, ram, p, Common(c, h, p, n))
    {
      if Live(c, h, p) {
        LivePosition(h, p);
        InHeap(h, Index(h.blocks, p - c.header), Size(c, h.blocks, Index(h.blocks, p - c.header)));
      }
    }

    /** Lines 500-507: a new block, a copy, and the old block is freed. */
    method Move(p: int, n: nat, oldsize: int, ghost k: nat) returns (q: int)
      requires Valid() && Live(c, Abs(), p) && k == Index(blocks, p - c.header) && k + 1 < |blocks|
      requires oldsize == Size(c, blocks, k)
      modifies this
      ensures Valid()
      ensures var (h', q') := MemSpec.Malloc(c, old(Abs()), n);
        q == q' && Abs() == if q' == NULL then h' else MemSpec.Free(c, h', p)
      ensures PayloadsKept(c, old(Abs()), p - c.header, old(ram), ram)
      ensures q != NULL ==> Copied(old(ram), p, ram, q, Common(c, old(Abs()), p, n))
    {
      hide Lengths, Distinct, Coalesced, Tiled, MemSpec.Malloc, MemSpec.Free, UsedByte, Copied, Kept, Inv, Extent, Room, Live;
      ghost var h, ram0, mem := Abs(), ram, p - c.header;
      MallocInv(c, h, n);
      MallocKept(c, h, n);
      NoNull(c, h);
      q := Malloc(n);
      KeptForOwner(c, h, mem, ram0, ram);
      if q != NULL {
        SizeNat(h, k);
        CopyOver(p, q, if oldsize < n then oldsize else n, n, h, k, ram0);
      }
    }

    /** The copy into the new block and the release of the old one */
    method CopyOver(p: int, q: int, m: nat, ghost n: nat, ghost h: Heap, ghost k: nat, ghost ram0: map<int, byte>)
      requires Valid() && Inv(c, h) && Live(c, h, p) && k == Index(h.blocks, p - c.header) && k + 1 < |h.blocks|
      requires Live(c, Abs(), q) && !Live(c, h, q) && marked == h.used + {q - c.header} && Kept(h, Abs(), NULL)
      requires n <= Request(c, n) && Room(blocks, q - c.header, c.header + Request(c, n))
      requires m == if Size(c, h.blocks, k) < n then Size(c, h.blocks, k) else n
      requires PayloadsKept(c, h, NULL, ram0, ram) && PayloadsKept(c, h, p - c.header, ram0, ram)
      modifies this
      ensures Valid() && Abs() == MemSpec.Free(c, old(Abs()), p)
      ensures PayloadsKept(c, h, p - c.header, ram0, ram)
      ensures Copied(ram0, p, ram, q, Common(c, h, p, n))
    {
      hide Lengths, Distinct, Coalesced, Tiled, MemSpec.Free, UsedByte, Copied, Kept, Inv, Extent, Room, Live, PayloadsKept, Request, Common;
      ghost var h1, ram1, mem := Abs(), ram, p - c.header;
      NoNull(c, h);
      MoveFrame(h, h1, p, q, k, m, n);
      SameKeys(c, h, NULL, ram0, ram1);
      BlockReads(c, h, mem, m, NULL, ram0, ram1);
      ram := Memcpy(ram, q, p, m);
      ghost var ram2 := ram;
      CopiedTrans(ram0, p, ram1, p, ram2, q, m);
      Free(p);
      BlockReads(c, h1, q - c.header, m, mem, ram2, ram);
      CopiedTrans(ram0, p, ram2, q, ram, q, m);
      OthersKept(h, h1, p, q, m, ram0, ram1, ram2, ram);
    }

    lemma SizeNat(h: Heap, k: nat)
      requires Sane(c) && Inv(c, h) && k + 1 < |h.blocks|
      ensures Size(c, h.blocks, k) >= 0
    {
      Far(c, h.blocks, k, k + 1);
    }

    /** Old and new block of a move */
    lemma MoveFrame(h: Heap, h1: Heap, p: int, q: int, k: nat, m: nat, n: nat)
      requires Sane(c) && Inv(c, h) && Inv(c, h1) && Live(c, h, p) && Live(c, h1, q) && !Live(c, h, q)
      requires k == Index(h.blocks, p - c.header) && k + 1 < |h.blocks| && m <= n && m <= Size(c, h.blocks, k)
      requires h1.used == h.used + {q - c.header} && Kept(h, h1, NULL)
      requires n <= Request(c, n) && Room(h1.blocks, q - c.header, c.header + Request(c, n))
      ensures Size(c, h.blocks, k) >= 0 && Common(c, h, p, n) == if Size(c, h.blocks, k) < n then Size(c, h.blocks, k) else n
      ensures p - c.header in h.used && p - c.header != NULL && Live(c, h1, p) && p != q
      ensures Room(h.blocks, p - c.header, c.header + m) && Room(h1.blocks, q - c.header, c.header + m)
      ensures 0 <= p && p + m <= c.size + c.header && 0 <= q && q + m <= c.size + c.header
      ensures p + m <= q || q + m <= p
      ensures q - c.header !in h.used
      ensures q - c.header in h1.used && q - c.header != p - c.header && Extent(h1.blocks, p - c.header, h.blocks[k + 1])
    {
      hide Request;
      LivePosition(h, p);
      LiveAt(c, h, p);
      Far(c, h.blocks, k, k + 1);
      InHeap(h, k, m);
      LiveAt(c, h1, q);
      assert Extent(h1.blocks, p - c.header, h.blocks[k + 1]);
      BothLive(h1, p, q, h.blocks[k + 1], m, n);
    }

    lemma BothLive(h1: Heap, p: int, q: int, e: int, m: nat, n: nat)
      requires Sane(c) && Inv(c, h1) && Live(c, h1, q) && p != q && Extent(h1.blocks, p - c.header, e) && p - c.header in h1.used
      requires m <= n && p + m <= e && Room(h1.blocks, q - c.header, c.header + n)
      ensures Live(c, h1, p) && (p + m <= q || q + m <= p) && 0 <= q && q + m <= c.size + c.header
    {
      var i :| 0 <= i < |h1.blocks| - 1 && At(h1.blocks, i, p - c.header, e);
      var e' :| Extent(h1.blocks, q - c.header, e') && e' - (q - c.header) >= c.header + n;
      var j :| 0 <= j < |h1.blocks| - 1 && At(h1.blocks, j, q - c.header, e');
      InOrder(c, h1.blocks, i, |h1.blocks| - 1);
      InOrder(c, h1.blocks, 0, j);
      InOrder(c, h1.blocks, j + 1, |h1.blocks| - 1);
      if i < j { Far(c, h1.blocks, i, j); InOrder(c, h1.blocks, i + 1, j); }
      if j < i { Far(c, h1.blocks, j, i); InOrder(c, h1.blocks, j + 1, i); }
    }

    /** The other payloads through all three steps of a move */
    lemma OthersKept(h: Heap, h1: Heap, p: int, q: int, m: nat, ram0: map<int, byte>, ram1: map<int, byte>,
                     ram2: map<int, byte>, ram3: map<int, byte>)
      requires Sane(c) && Inv(c, h1) && h1.used == h.used + {q - c.header} && Kept(h, h1, NULL) && NULL !in h.used
      requires q - c.header !in h.used && Room(h1.blocks, q - c.header, c.header + m)
      requires PayloadsKept(c, h, p - c.header, ram0, ram1) && PayloadsKept(c, h1, p - c.header, ram2, ram3)
      requires ram2.Keys == ram1.Keys && forall z :: z in ram1 && !(q <= z < q + m) ==> ram2[z] == ram1[z]
      ensures PayloadsKept(c, h, p - c.header, ram0, ram3)
    {
      hide Extent, Inv;
      var own := p - c.header;
      forall z | z in ram0 && UsedByte(c, h, own, z) ensures ram3[z] == ram0[z] {
        var x, e :| x in h.used && x != own && Extent(h.blocks, x, e) && x + c.header <= z < e;
        assert Extent(h1.blocks, x, e);
        assert UsedByte(c, h1, own, z);
        Disjoint(h1, x, e, q - c.header, m, z);
      }
    }

    lemma Disjoint(h: Heap, x: int, e: int, y: int, m: nat, z: int)
      requires Sane(c) && Inv(c, h) && Extent(h.blocks, x, e) && x != y && Room(h.blocks, y, c.header + m)
      requires x + c.header <= z < e
      ensures !(y + c.header <= z < y + c.header + m)
    {
      var e' :| Extent(h.blocks, y, e') && e' - y >= c.header + m;
      var i :| 0 <= i < |h.blocks| - 1 && At(h.blocks, i, x, e);
      var j :| 0 <= j < |h.blocks| - 1 && At(h.blocks, j, y, e');
      if i < j { InOrder(c, h.blocks, i + 1, j); }
      if j < i { InOrder(c, h.blocks, j + 1, i); }
    }

    lemma LivePosition(h: Heap, p: int)
      requires Sane(c) && Inv(c, h) && Live(c, h, p)
      ensures var k := Index(h.blocks, p - c.header);
        k + 1 < |h.blocks| && h.blocks[k] == p - c.header && h.blocks[k] in h.used
    {
    }

    /** Lines 475-493 */
    method GiveBack(mem: int, n: nat, oldsize: int, ghost k: nat)
      requires Valid() && k + 1 < |blocks| && blocks[k] == mem && mem in marked
      requires oldsize == Size(c, blocks, k) && n + c.header < oldsize
      modifies this
      ensures Valid()
      ensures Abs() == Shrink(c, old(Abs()), k, n)
      ensures PayloadsKept(c, old(Abs()), mem, old(ram), ram) && Copied(old(ram), mem + c.header, ram, mem + c.header, n)
    {
      hide Lengths, Distinct, Coalesced, Tiled, Keeps, Kept, UsedByte, PayloadsKept, Copied, Extent, Inv, Lowest, Shrink;
      ghost var h, y := Abs(), mem + c.header + n;
      ghost var hs := blocks + [y];
      ShrinkInv(c, h, k, n);
      GiveBackFrame(h, k, n);
      CutBlock(mem, n, oldsize, k, hs);
      HeadersMissPayloads(c, h, k, y, mem, old(ram), ram);
      KeepsKeys(c.header, hs, old(ram), ram);
      ShrunkReads(h, k, n, old(ram), ram);
    }

    method CutBlock(mem: int, n: nat, oldsize: int, ghost k: nat, ghost hs: seq<int>)
      requires Valid() && k + 1 < |blocks| && blocks[k] == mem && mem in marked
      requires oldsize == Size(c, blocks, k) && n + c.header < oldsize && hs == blocks + [mem + c.header + n]
      modifies this
      ensures Chain(next, prev, blocks) && Flags() && Abs() == Shrink(c, old(Abs()), k, n)
      ensures Keeps(c.header, hs, old(ram), ram)
    {
      hide Lengths, Distinct, Coalesced, Tiled, Holed, Plug, Keeps, Inv, Lowest;
      ghost var h := Abs();
      ShrinkHoled(c, h, k, n);
      GiveBackFrame(h, k, n);
      usedMem := usedMem - (oldsize - n);
      Split(mem, mem + c.header + n, k, hs);
      ghost var ram1 := ram;
      InsertMembers(h.blocks, k + 1, mem + c.header + n);
      PlugHoles(mem + c.header + n, k + 1, hs);
      KeepsTrans(c.header, hs, old(ram), ram1, ram);
    }

    lemma ShrunkReads(h: Heap, k: nat, n: nat, ram: map<int, byte>, ram': map<int, byte>)
      requires Sane(c) && Inv(c, h) && k + 1 < |h.blocks| && n <= Size(c, h.blocks, k)
      requires Keeps(c.header, h.blocks + [h.blocks[k] + c.header + n], ram, ram')
      requires forall z :: 0 <= z < c.size + 2 * c.header ==> z in ram
      ensures Copied(ram, h.blocks[k] + c.header, ram', h.blocks[k] + c.header, n)
    {
      OwnPrefix(c, h, k, h.blocks[k] + c.header + n, ram, ram');
      InHeap(h, k, n);
      PrefixCopied(h.blocks[k] + c.header, n, ram, ram');
    }

    /** The bytes of a block are bytes of the heap. */
    lemma InHeap(h: Heap, k: nat, n: int)
      requires Sane(c) && Inv(c, h) && k + 1 < |h.blocks| && n <= Size(c, h.blocks, k)
      ensures 0 <= h.blocks[k] && h.blocks[k] + c.header + n <= c.size + c.header
    {
      InOrder(c, h.blocks, 0, k);
      InOrder(c, h.blocks, k + 1, |h.blocks| - 1);
    }

    lemma GiveBackFrame(h: Heap, k: nat, n: nat)
      requires Sane(c) && Inv(c, h) && k + 1 < |h.blocks| && n + c.header < Size(c, h.blocks, k)
      ensures Distinct(h.blocks) && h.blocks[|h.blocks| - 1] == c.size + c.header
      ensures h.blocks[k] + c.header + n !in h.blocks && h.blocks[k] + c.header + n !in h.used
      ensures Tiled(c, h.blocks) && h.blocks[k] + c.header + n + c.header <= h.blocks[k + 1]
    {
      TiledDistinct(c, h.blocks);
      TiledInsert(c, h.blocks, k, h.blocks[k] + c.header + n);
    }
  }
}
