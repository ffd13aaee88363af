/** The multi-heap allocator of src/memheap.c.

    `Heap` is the abstract state: the addresses of all block headers in pool order
    (the last one is the tailer) and the addresses of the free ones in free-list
    order.  A block is used exactly when it is not on the free list, and its data
    size is the gap to the next header minus the header size, as MEMITEM_SIZE
    computes it. */
module MemHeapSpec {
  import opened Arith
  import opened Ring

  const NULL := -2
  const MINIALLOC := 12

  /** Pool placement, RT_MEMHEAP_SIZE and RT_ALIGN_SIZE. */
  datatype Geometry = Geometry(start: nat, pool: nat, header: nat, align: nat)

  datatype Heap = Heap(blocks: seq<int>, free: seq<int>, available: int, maxUsed: int)

  ghost predicate Sane(g: Geometry) {
    g.header > 0 && g.align > 0 && g.pool >= 2 * g.header
  }

  /** Lines 148-150: what the caller asked for, aligned and raised to the minimum. */
  function Request(g: Geometry, size: nat): nat
    requires g.align > 0
  {
    Max(Align(size, g.align), MINIALLOC)
  }

  // ---------------------------------------------------------------- shape of the pool

  ghost predicate Spaced(b: seq<int>, header: nat, i: int)
    requires 0 <= i < |b| - 1
  {
    b[i] + header <= b[i + 1]
  }

  ghost predicate Ascending(b: seq<int>, header: nat) {
    forall i :: 0 <= i < |b| - 1 ==> Spaced(b, header, i)
  }

  function Gap(g: Geometry, b: seq<int>, i: int): int
    requires 0 <= i < |b| - 1
  {
    b[i + 1] - b[i] - g.header
  }

  /** The headers tile the pool from its start to the tailer. */
  ghost predicate Tiled(g: Geometry, b: seq<int>) {
    && |b| >= 2 && b[0] == g.start && b[|b| - 1] == g.start + g.pool - g.header
    && Ascending(b, g.header)
  }

  ghost predicate FreeListed(b: seq<int>, free: seq<int>)
    requires |b| >= 2
  {
    && Distinct(free)
    && (forall x :: x in free ==> x in b)
    && b[|b| - 1] !in free
  }

  ghost predicate BothFree(b: seq<int>, free: seq<int>, i: int)
    requires 0 <= i < |b| - 1
  {
    b[i] in free && b[i + 1] in free
  }

  /** No two neighbours are both free. */
  ghost predicate Coalesced(b: seq<int>, free: seq<int>) {
    forall i :: 0 <= i < |b| - 1 ==> !BothFree(b, free, i)
  }

  /** Sum of the data sizes of the free blocks. */
  function FreeBytes(g: Geometry, b: seq<int>, free: seq<int>): int {
    if |b| < 2 then 0
    else (if b[0] in free then Gap(g, b, 0) else 0) + FreeBytes(g, b[1..], free)
  }

  ghost predicate Inv(g: Geometry, h: Heap) {
    && Tiled(g, h.blocks)
    && FreeListed(h.blocks, h.free)
    && Coalesced(h.blocks, h.free)
    && h.available == FreeBytes(g, h.blocks, h.free)
    && h.maxUsed >= g.pool - h.available
  }

  lemma {:induction false} AscendingFar(b: seq<int>, header: nat, i: nat, j: nat)
    requires Ascending(b, header) && i < j < |b|
    ensures b[i] + header <= b[j]
    decreases j
  {
    if i + 1 < j {
      AscendingFar(b, header, i, j - 1);
      assert Spaced(b, header, j - 1);
    } else {
      assert Spaced(b, header, i);
    }
  }

  lemma AscendingDistinct(b: seq<int>, header: nat)
    requires Ascending(b, header) && header > 0
    ensures Distinct(b)
  {
    forall i, j | 0 <= i < j < |b| ensures b[i] != b[j] {
      AscendingFar(b, header, i, j);
    }
  }

  // ---------------------------------------------------------------- accounting

  lemma {:induction false} BytesSplit(g: Geometry, b: seq<int>, free: seq<int>, k: nat)
    requires k < |b|
    ensures FreeBytes(g, b, free) == FreeBytes(g, b[..k + 1], free) + FreeBytes(g, b[k..], free)
  {
    if k == 0 {
      assert b[0..] == b;
    } else {
      BytesSplit(g, b[1..], free, k - 1);
      assert b[..k + 1][1..] == b[1..][..k];
      assert b[1..][k - 1..] == b[k..];
    }
  }

  lemma {:induction false} BytesAgree(g: Geometry, b: seq<int>, free: seq<int>, free': seq<int>)
    requires forall i :: 0 <= i < |b| - 1 ==> (b[i] in free <==> b[i] in free')
    ensures FreeBytes(g, b, free) == FreeBytes(g, b, free')
  {
    if |b| >= 2 {
      BytesAgree(g, b[1..], free, free');
    }
  }

  function Contribution(free: seq<int>, a: int, gap: int): int {
    if a in free then gap else 0
  }

  /** The bytes of the pool, seen around the block at position k. */
  lemma BytesAround(g: Geometry, b: seq<int>, free: seq<int>, k: nat)
    requires k + 1 < |b|
    ensures FreeBytes(g, b, free)
         == FreeBytes(g, b[..k + 1], free) + Contribution(free, b[k], Gap(g, b, k)) + FreeBytes(g, b[k + 1..], free)
  {
    BytesSplit(g, b, free, k);
    assert b[k..][1..] == b[k + 1..];
  }

  /** A header placed inside block k. */
  lemma BytesInsert(g: Geometry, b: seq<int>, free: seq<int>, k: nat, x: int)
    requires k + 1 < |b|
    ensures FreeBytes(g, InsertAt(b, k + 1, x), free)
         == FreeBytes(g, b, free) - Contribution(free, b[k], Gap(g, b, k))
            + Contribution(free, b[k], x - b[k] - g.header) + Contribution(free, x, b[k + 1] - x - g.header)
  {
    var c := InsertAt(b, k + 1, x);
    BytesAround(g, b, free, k);
    BytesAround(g, c, free, k);
    BytesAround(g, c[k + 1..], free, 0);
    assert c[..k + 1] == b[..k + 1];
    assert c[k + 1..][1..] == b[k + 1..];
    assert c[k + 1..][..1] == [x];
  }

  lemma InsertRemove(b: seq<int>, k: nat)
    requires k < |b|
    ensures InsertAt(RemoveAt(b, k), k, b[k]) == b
  {
  }

  /** The free set changes at block k only. */
  lemma BytesFlip(g: Geometry, b: seq<int>, free: seq<int>, free': seq<int>, k: nat)
    requires k + 1 < |b| && Distinct(b)
    requires forall i :: 0 <= i < |b| - 1 && i != k ==> (b[i] in free <==> b[i] in free')
    ensures FreeBytes(g, b, free') - Contribution(free', b[k], Gap(g, b, k))
         == FreeBytes(g, b, free) - Contribution(free, b[k], Gap(g, b, k))
  {
    BytesAround(g, b, free, k);
    BytesAround(g, b, free', k);
    BytesAgree(g, b[..k + 1], free, free');
    BytesAgree(g, b[k + 1..], free, free');
  }

  // ---------------------------------------------------------------- the operations

  ghost function BlockSize(g: Geometry, h: Heap, a: int): int {
    var k := Index(h.blocks, a);
    if k + 1 < |h.blocks| then Gap(g, h.blocks, k) else 0
  }

  /** Lines 170-180: the first block of the free list, from position j on, that is big enough. */
  ghost function Fit(g: Geometry, h: Heap, n: nat, j: nat): (r: nat)
    requires j <= |h.free|
    ensures j <= r <= |h.free|
    ensures r < |h.free| ==> BlockSize(g, h, h.free[r]) >= n
    ensures forall i :: j <= i < r ==> BlockSize(g, h, h.free[i]) < n
    decreases |h.free| - j
  {
    if j == |h.free| || BlockSize(g, h, h.free[j]) >= n then j else Fit(g, h, n, j + 1)
  }

  function Account(g: Geometry, h: Heap, available: int): Heap {
    h.(available := available, maxUsed := Max(h.maxUsed, g.pool - available))
  }

  /** Lines 183-258: take block k off the free list, splitting it when the rest can hold a block. */
  ghost function Take(g: Geometry, h: Heap, k: nat, n: nat): Heap
    requires k + 1 < |h.blocks|
  {
    var a := h.blocks[k];
    var rest := Without(h.free, a);
    if Gap(g, h.blocks, k) >= n + g.header + MINIALLOC then
      var x := a + n + g.header;
      Account(g, h.(blocks := InsertAt(h.blocks, k + 1, x), free := [x] + rest), h.available - n - g.header)
    else
      Account(g, h.(free := rest), h.available - Gap(g, h.blocks, k))
  }

  /** rt_memheap_alloc */
  ghost function Alloc(g: Geometry, h: Heap, size: nat): (Heap, int)
    requires g.align > 0
  {
    var n := Request(g, size);
    if n >= h.available then (h, NULL)
    else
      var j := Fit(g, h, n, 0);
      if j == |h.free| then (h, NULL)
      else
        var k := Index(h.blocks, h.free[j]);
        if k + 1 >= |h.blocks| then (h, NULL) else (Take(g, h, k, n), h.blocks[k] + g.header)
  }

  /** A pointer handed out and not yet freed. */
  ghost predicate Live(g: Geometry, h: Heap, p: int) {
    var a := p - g.header;
    a in h.blocks && a !in h.free && a != h.blocks[|h.blocks| - 1]
  }

  /** rt_memheap_free of the live block at position k. */
  ghost function Release(g: Geometry, h: Heap, k: nat): Heap
    requires k + 1 < |h.blocks|
  {
    var left := k > 0 && h.blocks[k - 1] in h.free;
    var right := h.blocks[k + 1] in h.free;
    var rest := Without(h.free, h.blocks[k + 1]);
    var merged := if right then RemoveAt(h.blocks, k + 1) else h.blocks;
    Heap(if left then RemoveAt(merged, k) else merged,
         if left then rest else [h.blocks[k]] + rest,
         h.available + Gap(g, h.blocks, k) + (if left then g.header else 0) + (if right then g.header else 0),
         h.maxUsed)
  }

  /** rt_memheap_free */
  ghost function Free(g: Geometry, h: Heap, p: int): Heap {
    var k := Index(h.blocks, p - g.header);
    if p == NULL || k + 1 >= |h.blocks| then h else Release(g, h, k)
  }

  /** Lines 350-402 and 433-485: block k ends at x afterwards; a free right neighbour is
      absorbed into the free block that starts there. */
  ghost function Cut(g: Geometry, h: Heap, k: nat, x: int): Heap
    requires k + 1 < |h.blocks|
  {
    var y := h.blocks[k + 1];
    if y in h.free && k + 2 < |h.blocks| then
      h.(blocks := h.blocks[k + 1 := x], free := [x] + Without(h.free, y), available := h.available + y - x)
    else
      h.(blocks := InsertAt(h.blocks, k + 1, x), free := [x] + h.free, available := h.available + y - x - g.header)
  }

  /** rt_memheap_realloc */
  ghost function Realloc(g: Geometry, h: Heap, p: int, size: nat): (Heap, int)
    requires g.align > 0
  {
    if size == 0 then (Free(g, h, p), NULL)
    else
      var n := Request(g, size);
      if p == NULL then Alloc(g, h, n)
      else
        var k := Index(h.blocks, p - g.header);
        if k + 1 >= |h.blocks| then (h, NULL)
        else if n > Gap(g, h.blocks, k) then
          if CanGrow(g, h, k, n) then
            var h' := Cut(g, h, k, p + n);
            (Account(g, h', h'.available), p)
          else
            var (h', q) := Alloc(g, h, n);
            if q == NULL then (h', NULL) else (Free(g, h', p), q)
        else if n + g.header + MINIALLOC >= Gap(g, h.blocks, k) then (h, p)
        else (Cut(g, h, k, p + n), p)
  }

  /** Lines 334-350: the right neighbour is free and leaves more than the minimum. */
  predicate CanGrow(g: Geometry, h: Heap, k: nat, n: nat)
    requires k + 1 < |h.blocks|
  {
    k + 2 < |h.blocks| && h.blocks[k + 1] in h.free
    && Gap(g, h.blocks, k + 1) + Gap(g, h.blocks, k) > n + MINIALLOC
  }

  // ---------------------------------------------------------------- every operation keeps the invariant

  lemma TiledInsert(g: Geometry, b: seq<int>, k: nat, x: int)
    requires Tiled(g, b) && k + 1 < |b|
    requires b[k] + g.header <= x && x + g.header <= b[k + 1]
    ensures Tiled(g, InsertAt(b, k + 1, x))
    ensures g.header > 0 ==> x !in b
  {
    var c := InsertAt(b, k + 1, x);
    forall i | 0 <= i < |c| - 1 ensures Spaced(c, g.header, i) {
      InsertAtIndex(b, k + 1, x, i);
      InsertAtIndex(b, k + 1, x, i + 1);
      if i < k { assert Spaced(b, g.header, i); }
      if i > k + 1 { assert Spaced(b, g.header, i - 1); }
    }
    if g.header > 0 && x in b {
      var j := Index(b, x);
      if j < k { AscendingFar(b, g.header, j, k); } else if k + 1 < j { AscendingFar(b, g.header, k + 1, j); }
      assert false;
    }
  }

  lemma TiledRemove(g: Geometry, b: seq<int>, k: nat)
    requires Tiled(g, b) && 0 < k < |b| - 1
    ensures Tiled(g, RemoveAt(b, k))
  {
    var c := RemoveAt(b, k);
    forall i | 0 <= i < |c| - 1 ensures Spaced(c, g.header, i) {
      RemoveAtIndex(b, k, i);
      RemoveAtIndex(b, k, i + 1);
      assert Spaced(b, g.header, i);
      if i + 1 >= k { assert Spaced(b, g.header, i + 1); }
    }
  }

  /** Taking block k keeps everything; the rest of a split block stays free. */
  lemma TakeInv(g: Geometry, h: Heap, k: nat, n: nat)
    requires Sane(g) && Inv(g, h) && k + 1 < |h.blocks| && h.blocks[k] in h.free
    requires MINIALLOC <= n <= Gap(g, h.blocks, k)
    ensures Inv(g, Take(g, h, k, n))
    ensures UsedStay(h, Take(g, h, k, n), {})
    ensures h.blocks[k] in Take(g, h, k, n).blocks && h.blocks[k] !in Take(g, h, k, n).free
  {
    hide FreeBytes, Distinct, Without;
    var b, a := h.blocks, h.blocks[k];
    WithoutMembers(h.free, a);
    AscendingDistinct(b, g.header);
    if Gap(g, b, k) >= n + g.header + MINIALLOC {
      var x := a + n + g.header;
      TiledInsert(g, b, k, x);
      TakeListed(g, h, k, x);
      TakeBytes(g, h, k, x);
      TakeCoalesced(g, h, k, x);
    } else {
      BytesFlip(g, b, h.free, Without(h.free, a), k);
      forall i | 0 <= i < |b| - 1 ensures !BothFree(b, Without(h.free, a), i) {
        assert !BothFree(b, h.free, i);
      }
    }
  }

  /** Every used block, those in `gone` aside, is still there and still used. */
  ghost predicate UsedStay(h: Heap, h': Heap, gone: set<int>) {
    forall y :: y in h.blocks && y !in h.free && y !in gone ==> y in h'.blocks && y !in h'.free
  }

  lemma TakeListed(g: Geometry, h: Heap, k: nat, x: int)
    requires Sane(g) && Inv(g, h) && k + 1 < |h.blocks| && h.blocks[k] in h.free && x !in h.blocks
    ensures var c, free := InsertAt(h.blocks, k + 1, x), [x] + Without(h.free, h.blocks[k]);
      && FreeListed(c, free)
      && h.blocks[k] !in free && (forall y :: y in h.blocks ==> y in c && (y in free ==> y in h.free))
  {
    WithoutMembers(h.free, h.blocks[k]);
    InsertMembers(h.blocks, k + 1, x);
    PushDistinct(Without(h.free, h.blocks[k]), x);
  }

  lemma TakeBytes(g: Geometry, h: Heap, k: nat, x: int)
    requires Sane(g) && Inv(g, h) && k + 1 < |h.blocks| && h.blocks[k] in h.free
    requires x !in h.blocks && Distinct(h.blocks)
    ensures FreeBytes(g, InsertAt(h.blocks, k + 1, x), [x] + Without(h.free, h.blocks[k]))
         == h.available - (x - h.blocks[k])
  {
    var c, free' := InsertAt(h.blocks, k + 1, x), [x] + Without(h.free, h.blocks[k]);
    WithoutMembers(h.free, h.blocks[k]);
    InsertDistinct(h.blocks, k + 1, x);
    assert c[k] == h.blocks[k] && c[k + 1] == x && c[k + 2] == h.blocks[k + 1];
    BytesInsert(g, h.blocks, h.free, k, x);
    BytesFlipTwo(g, c, h.free, free', k);
  }

  lemma BytesFlipTwo(g: Geometry, c: seq<int>, free: seq<int>, free': seq<int>, k: nat)
    requires k + 2 < |c| && Distinct(c)
    requires c[k] in free && c[k] !in free' && c[k + 1] !in free && c[k + 1] in free'
    requires forall i :: 0 <= i < |c| - 1 && i != k && i != k + 1 ==> (c[i] in free <==> c[i] in free')
    ensures FreeBytes(g, c, free') == FreeBytes(g, c, free) - Gap(g, c, k) + Gap(g, c, k + 1)
  {
    var mid := free' + [c[k]];
    assert forall i :: 0 <= i < |c| && i != k ==> (c[i] in mid <==> c[i] in free');
    BytesFlip(g, c, free, mid, k + 1);
    BytesFlip(g, c, mid, free', k);
  }

  lemma TakeCoalesced(g: Geometry, h: Heap, k: nat, x: int)
    requires Sane(g) && Inv(g, h) && k + 1 < |h.blocks| && h.blocks[k] in h.free && x !in h.blocks
    ensures Coalesced(InsertAt(h.blocks, k + 1, x), [x] + Without(h.free, h.blocks[k]))
  {
    var b, c := h.blocks, InsertAt(h.blocks, k + 1, x);
    WithoutMembers(h.free, b[k]);
    forall i | 0 <= i < |c| - 1
      ensures !BothFree(c, [x] + Without(h.free, b[k]), i)
    {
      InsertAtIndex(b, k + 1, x, i);
      InsertAtIndex(b, k + 1, x, i + 1);
      if i < k { assert !BothFree(b, h.free, i); }
      if i == k + 1 { assert !BothFree(b, h.free, k); }
      if i > k + 1 { assert !BothFree(b, h.free, i - 1); }
    }
  }

  /** No two neighbours are both free, the pairs at block k aside. */
  ghost predicate CoalescedAround(b: seq<int>, free: seq<int>, k: int) {
    forall i :: 0 <= i < |b| - 1 && i != k - 1 && i != k ==> !BothFree(b, free, i)
  }

  ghost predicate Agree(b: seq<int>, free: seq<int>, free': seq<int>, x: int) {
    forall y :: y in b && y != x ==> (y in free <==> y in free')
  }

  /** Dissolving the header of the free block k+1 behind the free block k. */
  lemma MergeBytes(g: Geometry, b: seq<int>, free: seq<int>, free': seq<int>, k: nat)
    requires k + 2 < |b| && Distinct(b) && b[k] in free && b[k + 1] in free && Agree(b, free, free', b[k + 1])
    ensures FreeBytes(g, RemoveAt(b, k + 1), free') == FreeBytes(g, b, free) + g.header
  {
    var c := RemoveAt(b, k + 1);
    RemoveMembers(b, k + 1);
    InsertRemove(b, k + 1);
    assert c[k] == b[k] && c[k + 1] == b[k + 2];
    BytesInsert(g, c, free, k, b[k + 1]);
    BytesAgree(g, c, free, free');
  }

  lemma MergeCoalesced(b: seq<int>, free: seq<int>, free': seq<int>, k: nat)
    requires k + 2 < |b| && Distinct(b) && b[k] in free && b[k + 1] in free && Agree(b, free, free', b[k + 1])
    requires CoalescedAround(b, free, k)
    ensures CoalescedAround(RemoveAt(b, k + 1), free', k)
    ensures RemoveAt(b, k + 1)[k] == b[k] && RemoveAt(b, k + 1)[k + 1] !in free'
  {
    var c := RemoveAt(b, k + 1);
    RemoveMembers(b, k + 1);
    assert !BothFree(b, free, k + 1);
    assert c[k + 1] == b[k + 2] != b[k + 1];
    forall i | 0 <= i < |c| - 1 && i != k - 1 && i != k ensures !BothFree(c, free', i) {
      RemoveAtIndex(b, k + 1, i);
      RemoveAtIndex(b, k + 1, i + 1);
      assert !BothFree(b, free, if i < k then i else i + 1);
    }
  }

  /** Freeing restores maximal coalescing and the exact byte count. */
  lemma ReleaseInv(g: Geometry, h: Heap, k: nat)
    requires Sane(g) && Inv(g, h) && k + 1 < |h.blocks| && h.blocks[k] !in h.free
    ensures Inv(g, Release(g, h, k))
    ensures UsedStay(h, Release(g, h, k), {h.blocks[k]})
  {
    hide FreeBytes, Distinct, Without, Tiled, CoalescedAround, Coalesced, FreeListed;
    var b, a := h.blocks, h.blocks[k];
    var rest := Without(h.free, b[k + 1]);
    var merged := if b[k + 1] in h.free then RemoveAt(b, k + 1) else b;
    ReleaseRight(g, h, k);
    ReleaseNeighbours(g, h, k);
    if k > 0 && b[k - 1] in h.free {
      ReleaseLeft(g, h, merged, rest, k);
    } else {
      ReleaseAlone(h, merged, rest, k);
    }
  }

  lemma ReleaseNeighbours(g: Geometry, h: Heap, k: nat)
    requires Sane(g) && Inv(g, h) && k + 1 < |h.blocks|
    ensures Gap(g, h.blocks, k) >= 0 && Distinct(h.free)
    ensures k > 0 ==> h.blocks[k - 1] != h.blocks[k] && h.blocks[k - 1] != h.blocks[k + 1]
  {
    assert Spaced(h.blocks, g.header, k);
    if k > 0 { AscendingFar(h.blocks, g.header, k - 1, k); AscendingFar(h.blocks, g.header, k - 1, k + 1); }
  }

  lemma ReleaseAlone(h: Heap, merged: seq<int>, rest: seq<int>, k: nat)
    requires k + 1 < |h.blocks| && k + 1 < |merged| && Distinct(h.free)
    requires merged == if h.blocks[k + 1] in h.free then RemoveAt(h.blocks, k + 1) else h.blocks
    requires rest == Without(h.free, h.blocks[k + 1])
    requires merged[k + 1] !in [merged[k]] + rest && CoalescedAround(merged, [merged[k]] + rest, k)
    requires k > 0 ==> h.blocks[k - 1] !in h.free && h.blocks[k - 1] != h.blocks[k]
    requires forall y :: y in h.blocks && y !in h.free ==> y in merged
    ensures Coalesced(merged, [merged[k]] + rest)
    ensures forall y :: y in h.blocks && y !in h.free && y != h.blocks[k] ==> y in merged && y !in [merged[k]] + rest
  {
    hide Distinct, Without;
    WithoutMembers(h.free, h.blocks[k + 1]);
    assert merged[k] == h.blocks[k] && (k > 0 ==> merged[k - 1] == h.blocks[k - 1]);
    forall i | 0 <= i < |merged| - 1 ensures !BothFree(merged, [merged[k]] + rest, i) {
    }
  }

  /** The state after the right merge, the freed block counted as free. */
  lemma ReleaseRight(g: Geometry, h: Heap, k: nat)
    requires Sane(g) && Inv(g, h) && k + 1 < |h.blocks| && h.blocks[k] !in h.free
    ensures var a, rest := h.blocks[k], Without(h.free, h.blocks[k + 1]);
      var merged := if h.blocks[k + 1] in h.free then RemoveAt(h.blocks, k + 1) else h.blocks;
      && Tiled(g, merged) && k + 1 < |merged| && merged[k] == a
      && merged[k + 1] !in [a] + rest
      && FreeListed(merged, [a] + rest)
      && CoalescedAround(merged, [a] + rest, k)
      && FreeBytes(g, merged, [a] + rest)
         == h.available + Gap(g, h.blocks, k) + (if h.blocks[k + 1] in h.free then g.header else 0)
      && (forall y :: y in h.blocks && y !in h.free ==> y in merged)
  {
    hide FreeBytes, Distinct;
    var b, a := h.blocks, h.blocks[k];
    var free1, rest := [a] + h.free, Without(h.free, b[k + 1]);
    AscendingDistinct(b, g.header);
    WithoutMembers(h.free, b[k + 1]);
    PushDistinct(rest, a);
    ReleaseFlip(g, h, k);
    BytesFlip(g, b, h.free, free1, k);
    ReleaseAround(h, k);
    hide CoalescedAround, Coalesced, Without;
    if b[k + 1] in h.free {
      assert Agree(b, free1, [a] + rest, b[k + 1]);
      MergeBytes(g, b, free1, [a] + rest, k);
      MergeCoalesced(b, free1, [a] + rest, k);
      TiledRemove(g, b, k + 1);
      RemoveMembers(b, k + 1);
    }
  }

  lemma ReleaseAround(h: Heap, k: nat)
    requires k + 1 < |h.blocks| && Distinct(h.blocks) && Coalesced(h.blocks, h.free)
    ensures CoalescedAround(h.blocks, [h.blocks[k]] + h.free, k)
  {
    var b, free1 := h.blocks, [h.blocks[k]] + h.free;
    forall i | 0 <= i < |b| - 1 && i != k - 1 && i != k ensures !BothFree(b, free1, i) {
      assert !BothFree(b, h.free, i);
    }
  }

  lemma ReleaseFlip(g: Geometry, h: Heap, k: nat)
    requires k + 1 < |h.blocks| && Distinct(h.blocks)
    ensures forall i :: 0 <= i < |h.blocks| - 1 && i != k ==> (h.blocks[i] in h.free <==> h.blocks[i] in [h.blocks[k]] + h.free)
    ensures h.blocks[k] != h.blocks[k + 1]
  {
  }

  lemma ReleaseLeft(g: Geometry, h: Heap, merged: seq<int>, rest: seq<int>, k: nat)
    requires 0 < k < |h.blocks| - 1 && Distinct(h.free) && h.blocks[k] !in h.free
    requires h.blocks[k - 1] in h.free && h.blocks[k - 1] != h.blocks[k + 1]
    requires merged == if h.blocks[k + 1] in h.free then RemoveAt(h.blocks, k + 1) else h.blocks
    requires rest == Without(h.free, h.blocks[k + 1])
    requires Sane(g) && Tiled(g, merged) && k < |merged| - 1
    requires CoalescedAround(merged, [merged[k]] + rest, k) && FreeListed(merged, [merged[k]] + rest)
    requires merged[k + 1] !in [merged[k]] + rest
    requires forall y :: y in h.blocks && y !in h.free ==> y in merged
    ensures var c := RemoveAt(merged, k);
      && Tiled(g, c) && FreeListed(c, rest) && Coalesced(c, rest)
      && FreeBytes(g, c, rest) == FreeBytes(g, merged, [merged[k]] + rest) + g.header
      && forall y :: y in h.blocks && y !in h.free && y != h.blocks[k] ==> y in c && y !in rest
  {
    hide FreeBytes, Distinct, Without, Tiled, CoalescedAround;
    WithoutMembers(h.free, h.blocks[k + 1]);
    assert merged[k] == h.blocks[k] && merged[k - 1] == h.blocks[k - 1];
    DissolveLeft(g, merged, rest, k);
  }

  /** Dissolving the header of the free block k behind the free block k-1. */
  lemma DissolveLeft(g: Geometry, merged: seq<int>, rest: seq<int>, k: nat)
    requires Sane(g) && Tiled(g, merged) && 0 < k < |merged| - 1
    requires merged[k - 1] in rest && merged[k] !in rest && merged[k + 1] !in rest && Distinct(rest)
    requires CoalescedAround(merged, [merged[k]] + rest, k)
    requires forall x :: x in rest ==> x in merged
    requires merged[|merged| - 1] !in rest
    ensures var c := RemoveAt(merged, k);
      && Tiled(g, c) && FreeListed(c, rest) && Coalesced(c, rest)
      && FreeBytes(g, c, rest) == FreeBytes(g, merged, [merged[k]] + rest) + g.header
      && forall y :: y in merged && y != merged[k] ==> y in c
  {
    var c, free2 := RemoveAt(merged, k), [merged[k]] + rest;
    AscendingDistinct(merged, g.header);
    TiledRemove(g, merged, k);
    RemoveMembers(merged, k);
    InsertRemove(merged, k);
    BytesInsert(g, c, free2, k - 1, merged[k]);
    BytesAgree(g, c, free2, rest);
    forall i | 0 <= i < |c| - 1 ensures !BothFree(c, rest, i) {
      RemoveAtIndex(merged, k, i);
      RemoveAtIndex(merged, k, i + 1);
      if i + 1 < k { assert !BothFree(merged, free2, i); }
      if i >= k { assert !BothFree(merged, free2, i + 1); }
    }
  }

  /** Moving the end of the used block k to x, in either direction. */
  lemma CutInv(g: Geometry, h: Heap, k: nat, x: int)
    requires Sane(g) && Inv(g, h) && k + 1 < |h.blocks| && h.blocks[k] !in h.free
    requires h.blocks[k] + g.header <= x
    requires if h.blocks[k + 1] in h.free then k + 2 < |h.blocks| && x + g.header <= h.blocks[k + 2]
             else x + g.header <= h.blocks[k + 1]
    ensures var h' := Cut(g, h, k, x);
      && Tiled(g, h'.blocks) && FreeListed(h'.blocks, h'.free) && Coalesced(h'.blocks, h'.free)
      && h'.available == FreeBytes(g, h'.blocks, h'.free)
      && UsedStay(h, h', {})
  {
    hide FreeBytes, Distinct, Without, FreeListed, Coalesced, Tiled;
    var b, y, h' := h.blocks, h.blocks[k + 1], Cut(g, h, k, x);
    TailUsed(g, h, k);
    if y in h.free {
      CutAbsorb(g, h, k);
      ReplaceIs(b, k + 1, x);
      CutInsert(g, RemoveAt(b, k + 1), Without(h.free, y), k, x);
    } else {
      CutInsert(g, b, h.free, k, x);
    }
  }

  lemma TailUsed(g: Geometry, h: Heap, k: nat)
    requires Inv(g, h) && k + 1 < |h.blocks|
    ensures h.blocks[k + 1] in h.free ==> k + 2 < |h.blocks|
  {
  }

  lemma ReplaceIs(b: seq<int>, k: nat, x: int)
    requires k < |b|
    ensures b[k := x] == InsertAt(RemoveAt(b, k), k, x)
  {
  }

  /** The used block k swallows its free right neighbour. */
  lemma CutAbsorb(g: Geometry, h: Heap, k: nat)
    requires Sane(g) && Inv(g, h) && k + 2 < |h.blocks| && h.blocks[k] !in h.free && h.blocks[k + 1] in h.free
    ensures var c, rest := RemoveAt(h.blocks, k + 1), Without(h.free, h.blocks[k + 1]);
      && Tiled(g, c) && FreeListed(c, rest) && Coalesced(c, rest)
      && c[k] == h.blocks[k] && c[k] !in rest && c[k + 1] == h.blocks[k + 2] && c[k + 1] !in rest
      && FreeBytes(g, c, rest) == h.available - Gap(g, h.blocks, k + 1)
      && (forall z :: z in h.blocks && z !in h.free ==> z in c && z !in rest)
  {
    var b, y := h.blocks, h.blocks[k + 1];
    var c, rest := RemoveAt(b, k + 1), Without(h.free, y);
    AscendingDistinct(b, g.header);
    WithoutMembers(h.free, y);
    TiledRemove(g, b, k + 1);
    RemoveMembers(b, k + 1);
    CutBytes(g, h, k);
    assert !BothFree(b, h.free, k + 1);
    forall i | 0 <= i < |c| - 1 ensures !BothFree(c, rest, i) {
      RemoveAtIndex(b, k + 1, i);
      RemoveAtIndex(b, k + 1, i + 1);
      if i != k { assert !BothFree(b, h.free, if i < k then i else i + 1); }
    }
  }

  lemma CutBytes(g: Geometry, h: Heap, k: nat)
    requires Inv(g, h) && k + 2 < |h.blocks| && h.blocks[k] !in h.free && h.blocks[k + 1] in h.free && Distinct(h.blocks)
    ensures FreeBytes(g, RemoveAt(h.blocks, k + 1), Without(h.free, h.blocks[k + 1]))
         == h.available - Gap(g, h.blocks, k + 1)
  {
    var b, y := h.blocks, h.blocks[k + 1];
    var c := RemoveAt(b, k + 1);
    WithoutMembers(h.free, y);
    RemoveMembers(b, k + 1);
    InsertRemove(b, k + 1);
    assert c[k] == b[k] && c[k + 1] == b[k + 2];
    BytesInsert(g, c, h.free, k, y);
    BytesAgree(g, c, h.free, Without(h.free, y));
  }

  /** A new free block between two used ones. */
  lemma CutInsert(g: Geometry, c: seq<int>, rest: seq<int>, k: nat, x: int)
    requires Sane(g) && Tiled(g, c) && FreeListed(c, rest) && Coalesced(c, rest)
    requires k + 1 < |c| && c[k] !in rest && c[k + 1] !in rest
    requires c[k] + g.header <= x && x + g.header <= c[k + 1]
    ensures var d := InsertAt(c, k + 1, x);
      && Tiled(g, d) && FreeListed(d, [x] + rest) && Coalesced(d, [x] + rest)
      && FreeBytes(g, d, [x] + rest) == FreeBytes(g, c, rest) + c[k + 1] - x - g.header
      && x !in c && forall y :: y in c ==> y in d
  {
    var d := InsertAt(c, k + 1, x);
    TiledInsert(g, c, k, x);
    InsertMembers(c, k + 1, x);
    PushDistinct(rest, x);
    BytesInsert(g, c, [x] + rest, k, x);
    BytesAgree(g, c, rest, [x] + rest);
    forall i | 0 <= i < |d| - 1 ensures !BothFree(d, [x] + rest, i) {
      InsertAtIndex(c, k + 1, x, i);
      InsertAtIndex(c, k + 1, x, i + 1);
      if i < k { assert !BothFree(c, rest, i); }
      if i > k + 1 { assert !BothFree(c, rest, i - 1); }
    }
  }

  /** rt_memheap_init */
  function Initial(g: Geometry): Heap {
    var room := g.pool - 2 * g.header;
    Heap([g.start, g.start + room + g.header], [g.start], room, g.pool - room)
  }

  lemma InitialInv(g: Geometry)
    requires Sane(g)
    ensures Inv(g, Initial(g))
  {
    var h := Initial(g);
    assert h.blocks[1..] == [h.blocks[1]];
    assert !BothFree(h.blocks, h.free, 0);
    assert FreeBytes(g, h.blocks, h.free) == Gap(g, h.blocks, 0) + FreeBytes(g, h.blocks[1..], h.free);
  }

  // ---------------------------------------------------------------- where the used blocks end

  /** Every used block but the one at `gone` is still used and still ends where it did. */
  ghost predicate Kept(h: Heap, h': Heap, gone: int) {
    forall x, e :: x !in h.free && x != gone && Extent(h.blocks, x, e) ==> x !in h'.free && Extent(h'.blocks, x, e)
  }

  lemma KeptTrans(h: Heap, h1: Heap, h2: Heap, gone: int)
    requires Kept(h, h1, gone) && Kept(h1, h2, gone)
    ensures Kept(h, h2, gone)
  {
    hide Extent;
  }

  lemma KeptSame(h: Heap, h': Heap, gone: int)
    requires h'.blocks == h.blocks && forall x :: x in h.blocks && x in h'.free ==> x in h.free || x == gone
    ensures Kept(h, h', gone)
  {
  }

  lemma KeptNull(h: Heap, h': Heap, gone: int)
    requires Kept(h, h', NULL) && NULL !in h.blocks
    ensures Kept(h, h', gone)
  {
  }

  lemma ExtentStarts(b: seq<int>, x: int, e: int)
    requires Extent(b, x, e)
    ensures x in b && e in b
  {
  }

  /** The taken block holds the request, and the other used blocks end where they did. */
  lemma TakeKept(g: Geometry, h: Heap, k: nat, n: nat)
    requires Sane(g) && Inv(g, h) && k + 1 < |h.blocks| && h.blocks[k] in h.free
    requires MINIALLOC <= n <= Gap(g, h.blocks, k)
    ensures Kept(h, Take(g, h, k, n), NULL)
    ensures Room(Take(g, h, k, n).blocks, h.blocks[k], g.header + n)
  {
    hide FreeBytes, Without, Extent, Coalesced, FreeListed, Distinct;
    var b, a := h.blocks, h.blocks[k];
    Elsewhere(g, h, k);
    if Gap(g, b, k) >= n + g.header + MINIALLOC {
      var x := a + n + g.header;
      TiledInsert(g, b, k, x);
      InsertExtents(b, k, x);
      forall y, e | y !in h.free && Extent(b, y, e) ensures y !in [x] + Without(h.free, a) { ExtentStarts(b, y, e); }
      assert Extent(InsertAt(b, k + 1, x), a, x);
    } else {
      WholeExtent(b, k);
    }
  }

  lemma WholeExtent(b: seq<int>, k: nat)
    requires k + 1 < |b|
    ensures Extent(b, b[k], b[k + 1])
  {
    assert At(b, k, b[k], b[k + 1]);
  }

  /** Who is not on the free list is not on a shortened one. */
  lemma Elsewhere(g: Geometry, h: Heap, k: nat)
    requires Inv(g, h) && k < |h.blocks|
    ensures forall y :: y !in h.free ==> y !in Without(h.free, h.blocks[k])
  {
    WithoutMembers(h.free, h.blocks[k]);
  }

  lemma AllocKept(g: Geometry, h: Heap, size: nat)
    requires Sane(g) && Inv(g, h)
    ensures var (h', p) := Alloc(g, h, size);
      Kept(h, h', NULL) && (p != NULL ==> Room(h'.blocks, p - g.header, g.header + Request(g, size)))
  {
    hide Take, Extent, Kept, Inv, FreeBytes;
    var n := Request(g, size);
    var j := Fit(g, h, n, 0);
    KeptSame(h, h, NULL);
    if n < h.available && j < |h.free| {
      var k := Index(h.blocks, h.free[j]);
      if k + 1 < |h.blocks| {
        FreeAt(g, h, j);
        TakeKept(g, h, k, n);
      }
    }
  }

  lemma FreeAt(g: Geometry, h: Heap, j: nat)
    requires Inv(g, h) && j < |h.free|
    ensures var k := Index(h.blocks, h.free[j]); k < |h.blocks| && h.blocks[k] == h.free[j]
  {
    assert h.free[j] in h.free;
  }

  lemma ReleaseKept(g: Geometry, h: Heap, k: nat)
    requires Inv(g, h) && k + 1 < |h.blocks|
    ensures Kept(h, Release(g, h, k), h.blocks[k])
  {
    hide FreeBytes, Without, Extent, Inv, Index;
    var b, h' := h.blocks, Release(g, h, k);
    var merged := if b[k + 1] in h.free then RemoveAt(b, k + 1) else b;
    Elsewhere(g, h, k + 1);
    if b[k + 1] in h.free {
      TailUsed(g, h, k);
      RemoveExtents(b, k);
    }
    assert forall x, e :: x !in h.free && x != b[k] && Extent(b, x, e) ==> Extent(merged, x, e);
    if k > 0 && b[k - 1] in h.free { RemoveExtents(merged, k - 1); }
    hide RemoveAt;
    assert forall x :: x !in h.free && x != b[k] ==> x !in h'.free;
  }

  lemma FreeKept(g: Geometry, h: Heap, p: int)
    requires Inv(g, h)
    ensures Kept(h, Free(g, h, p), p - g.header)
  {
    hide Release, Extent, Kept, Inv;
    KeptSame(h, h, p - g.header);
    var k := Index(h.blocks, p - g.header);
    if k + 1 < |h.blocks| { ReleaseKept(g, h, k); }
  }

  /** Moving the end of block k moves no other. */
  lemma CutKept(g: Geometry, h: Heap, k: nat, x: int)
    requires Sane(g) && Inv(g, h) && k + 1 < |h.blocks| && h.blocks[k] !in h.free
    requires h.blocks[k] + g.header <= x
    requires if h.blocks[k + 1] in h.free then k + 2 < |h.blocks| && x + g.header <= h.blocks[k + 2]
             else x + g.header <= h.blocks[k + 1]
    ensures Kept(h, Cut(g, h, k, x), h.blocks[k])
    ensures Extent(Cut(g, h, k, x).blocks, h.blocks[k], x)
  {
    hide FreeBytes, Without, Extent, Distinct, Coalesced, FreeListed, Tiled;
    var b, y := h.blocks, h.blocks[k + 1];
    var c := if y in h.free then RemoveAt(b, k + 1) else b;
    TailUsed(g, h, k);
    Elsewhere(g, h, k + 1);
    if y in h.free {
      RemoveExtents(b, k);
      CutAbsorb(g, h, k);
      ReplaceIs(b, k + 1, x);
    }
    TiledInsert(g, c, k, x);
    InsertExtents(c, k, x);
    forall z, e | z !in h.free && z != b[k] && Extent(b, z, e) ensures z != x { ExtentStarts(c, z, e); }
  }

  /** A successful allocation hands out a block that was free and holds the request, and the other used
      blocks keep their place and length; a failed one changes nothing and only happens when the size is
      not below the free total or no free block is large enough. */
  lemma AllocInv(g: Geometry, h: Heap, size: nat)
    requires Sane(g) && Inv(g, h)
    ensures var (h', p) := Alloc(g, h, size);
      && Inv(g, h') && UsedStay(h, h', {})
      && (p != NULL ==> Live(g, h', p) && !Live(g, h, p) && p - g.header in h.blocks)
      && (p == NULL ==> h' == h)
      && (p == NULL <==> Request(g, size) >= h.available
                         || forall a :: a in h.free ==> BlockSize(g, h, a) < Request(g, size))
      && Kept(h, h', NULL) && (p != NULL ==> Room(h'.blocks, p - g.header, g.header + Request(g, size)))
  {
    hide FreeBytes, Distinct, Take, Kept, Room;
    AllocKept(g, h, size);
    var n := Request(g, size);
    if n < h.available {
      var j := Fit(g, h, n, 0);
      if j < |h.free| {
        AllocAt(g, h, n, j);
      } else {
        forall a | a in h.free ensures BlockSize(g, h, a) < n {
          var i :| 0 <= i < |h.free| && h.free[i] == a;
        }
      }
    }
  }

  lemma AllocAt(g: Geometry, h: Heap, n: nat, j: nat)
    requires Sane(g) && Inv(g, h) && j < |h.free| && MINIALLOC <= n <= BlockSize(g, h, h.free[j])
    ensures var k := Index(h.blocks, h.free[j]);
      && k + 1 < |h.blocks|
      && var h', p := Take(g, h, k, n), h.blocks[k] + g.header;
      && Inv(g, h') && UsedStay(h, h', {}) && p != NULL && Live(g, h', p) && !Live(g, h, p)
  {
    var a := h.free[j];
    assert a in h.free;
    var k := Index(h.blocks, a);
    assert k + 1 < |h.blocks|;
    TakeInv(g, h, k, n);
    TakeLast(g, h, k, n);
    StartsInPool(g, h, k);
    AscendingFar(h.blocks, g.header, k, |h.blocks| - 1);
  }

  lemma TakeLast(g: Geometry, h: Heap, k: nat, n: nat)
    requires k + 1 < |h.blocks|
    ensures var b := Take(g, h, k, n).blocks; |b| > 0 && b[|b| - 1] == h.blocks[|h.blocks| - 1]
  {
  }

  lemma StartsInPool(g: Geometry, h: Heap, k: nat)
    requires Sane(g) && Inv(g, h) && k < |h.blocks|
    ensures g.start <= h.blocks[k] <= g.start + g.pool - g.header
  {
    if k > 0 { AscendingFar(h.blocks, g.header, 0, k); }
    if k + 1 < |h.blocks| { AscendingFar(h.blocks, g.header, k, |h.blocks| - 1); }
  }

  lemma FreeInv(g: Geometry, h: Heap, p: int)
    requires Sane(g) && Inv(g, h) && (p == NULL || Live(g, h, p))
    ensures Inv(g, Free(g, h, p)) && UsedStay(h, Free(g, h, p), {p - g.header})
    ensures p != NULL ==> !Live(g, Free(g, h, p), p)
    ensures Kept(h, Free(g, h, p), p - g.header)
  {
    hide FreeBytes, Distinct, Release, Coalesced, Kept;
    FreeKept(g, h, p);
    if p != NULL {
      var k := Index(h.blocks, p - g.header);
      assert k + 1 < |h.blocks|;
      ReleaseInv(g, h, k);
      ReleaseDead(g, h, k);
    }
  }

  /** The freed header is either free or dissolved. */
  lemma ReleaseDead(g: Geometry, h: Heap, k: nat)
    requires Sane(g) && Inv(g, h) && k + 1 < |h.blocks| && h.blocks[k] !in h.free
    ensures h.blocks[k] in Release(g, h, k).blocks ==> h.blocks[k] in Release(g, h, k).free
  {
    AscendingDistinct(h.blocks, g.header);
    if k > 0 && h.blocks[k - 1] in h.free {
      var merged := if h.blocks[k + 1] in h.free then RemoveAt(h.blocks, k + 1) else h.blocks;
      if h.blocks[k + 1] in h.free { RemoveDistinct(h.blocks, k + 1); }
      assert merged[k] == h.blocks[k];
      RemoveDistinct(merged, k);
    }
  }

  /** The block that rt_memheap_realloc gives back holds the request, and the blocks of others end where they
      did. */
  lemma ReallocKept(g: Geometry, h: Heap, p: int, size: nat)
    requires Sane(g) && Inv(g, h) && (p == NULL || Live(g, h, p))
    ensures var (h', q) := Realloc(g, h, p, size);
      Kept(h, h', p - g.header) && (q != NULL ==> Room(h'.blocks, q - g.header, g.header + Request(g, size)))
  {
    hide FreeBytes, Distinct, Release, Alloc, Free, Coalesced, Cut, Inv, Kept, Extent, Live;
    var n := Request(g, size);
    RequestAgain(g, size);
    NoNull(g, h);
    KeptSame(h, h, p - g.header);
    if size == 0 {
      FreeKept(g, h, p);
    } else if p == NULL {
      AllocKept(g, h, n);
      KeptNull(h, Alloc(g, h, n).0, p - g.header);
    } else {
      var k := Index(h.blocks, p - g.header);
      LivePosition(g, h, p);
      if n > Gap(g, h.blocks, k) {
        if CanGrow(g, h, k, n) {
          CutKept(g, h, k, p + n);
          KeptAccount(g, h, Cut(g, h, k, p + n), h.blocks[k]);
        } else {
          MoveKept(g, h, p, n);
        }
      } else if n + g.header + MINIALLOC < Gap(g, h.blocks, k) {
        CutKept(g, h, k, p + n);
      } else {
        WholeExtent(h.blocks, k);
      }
    }
  }

  lemma KeptAccount(g: Geometry, h: Heap, h': Heap, gone: int)
    requires Kept(h, h', gone)
    ensures Kept(h, Account(g, h', h'.available), gone)
  {
  }

  lemma RequestAgain(g: Geometry, size: nat)
    requires g.align > 0
    ensures Request(g, Request(g, size)) >= Request(g, size) >= MINIALLOC
  {
    AlignUp(Request(g, size), g.align);
  }

  lemma NoNull(g: Geometry, h: Heap)
    requires Sane(g) && Inv(g, h)
    ensures forall x :: x in h.blocks ==> x >= 0
  {
    forall x | x in h.blocks ensures x >= 0 { StartsInPool(g, h, Index(h.blocks, x)); }
  }

  /** Lines 405-414: the new block keeps its length when the old one is freed. */
  lemma MoveKept(g: Geometry, h: Heap, p: int, n: nat)
    requires Sane(g) && Inv(g, h) && Live(g, h, p) && NULL !in h.blocks
    ensures var (h1, q) := Alloc(g, h, n);
      var h' := if q == NULL then h1 else Free(g, h1, p);
      Kept(h, h', p - g.header) && (q != NULL ==> Room(h'.blocks, q - g.header, g.header + Request(g, n)))
  {
    hide FreeBytes, Distinct, Alloc, Free, Coalesced, Extent, Inv, Kept;
    var (h1, q) := Alloc(g, h, n);
    AllocInv(g, h, n);
    KeptNull(h, h1, p - g.header);
    if q != NULL {
      FreeKept(g, h1, p);
      KeptTrans(h, h1, Free(g, h1, p), p - g.header);
      RoomKept(h1, Free(g, h1, p), p - g.header, q - g.header, g.header + Request(g, n));
    }
  }

  lemma RoomKept(h: Heap, h': Heap, gone: int, x: int, n: int)
    requires Kept(h, h', gone) && x != gone && x !in h.free && Room(h.blocks, x, n)
    ensures Room(h'.blocks, x, n)
  {
    hide Extent;
  }

  lemma ReallocInv(g: Geometry, h: Heap, p: int, size: nat)
    requires Sane(g) && Inv(g, h) && (p == NULL || Live(g, h, p))
    ensures var (h', q) := Realloc(g, h, p, size);
      && Inv(g, h')
      && UsedStay(h, h', if p == NULL || q == p || (q == NULL && size > 0) then {} else {p - g.header})
      && (q != NULL ==> Live(g, h', q))
      && (q == NULL && size > 0 ==> h' == h)
      && Kept(h, h', p - g.header) && (q != NULL ==> Room(h'.blocks, q - g.header, g.header + Request(g, size)))
  {
    hide FreeBytes, Distinct, Release, Alloc, Coalesced, Cut, Tiled, FreeListed, Inv, UsedStay, Live, Kept, Room;
    ReallocKept(g, h, p, size);
    if size == 0 {
      FreeInv(g, h, p);
      assert Free(g, h, NULL) == h;
      UsedStayRefl(h);
    } else {
      var n := Request(g, size);
      if p == NULL {
        AllocInv(g, h, n);
      } else {
        var k := Index(h.blocks, p - g.header);
        LivePosition(g, h, p);
        UsedStayRefl(h);
        if n > Gap(g, h.blocks, k) {
          if CanGrow(g, h, k, n) {
            CutLive(g, h, k, p + n);
          } else {
            AllocInv(g, h, n);
            var (h', q) := Alloc(g, h, n);
            if q != NULL { ReallocMove(g, h, h', p, q); }
          }
        } else if n + g.header + MINIALLOC < Gap(g, h.blocks, k) {
          CutLive(g, h, k, p + n);
        }
      }
    }
  }

  lemma UsedStayRefl(h: Heap)
    ensures UsedStay(h, h, {})
  {
  }

  lemma LivePosition(g: Geometry, h: Heap, p: int)
    requires Sane(g) && Inv(g, h) && Live(g, h, p)
    ensures var k := Index(h.blocks, p - g.header);
      && k + 1 < |h.blocks| && h.blocks[k] == p - g.header && h.blocks[k] !in h.free && p != NULL
      && (h.blocks[k + 1] in h.free ==> k + 2 < |h.blocks| && h.blocks[k + 1] + g.header <= h.blocks[k + 2])
  {
    var k := Index(h.blocks, p - g.header);
    StartsInPool(g, h, k);
    if k + 2 < |h.blocks| { AscendingFar(h.blocks, g.header, k + 1, k + 2); }
  }

  /** CutInv for a live pointer, with the peak kept up to date or the free total not lowered. */
  lemma CutLive(g: Geometry, h: Heap, k: nat, x: int)
    requires Sane(g) && Inv(g, h) && k + 1 < |h.blocks| && h.blocks[k] !in h.free
    requires h.blocks[k] + g.header <= x
    requires if h.blocks[k + 1] in h.free then k + 2 < |h.blocks| && x + g.header <= h.blocks[k + 2]
             else x + g.header <= h.blocks[k + 1]
    ensures var h', p := Cut(g, h, k, x), h.blocks[k] + g.header;
      && var h1 := Account(g, h', h'.available);
      && Inv(g, h1) && UsedStay(h, h1, {}) && Live(g, h1, p)
      && (x + g.header <= h.blocks[k + 1] ==> Inv(g, h') && UsedStay(h, h', {}) && Live(g, h', p))
  {
    hide FreeBytes, Distinct, Coalesced;
    CutInv(g, h, k, x);
    AscendingFar(h.blocks, g.header, k, |h.blocks| - 1);
  }

  lemma ReallocMove(g: Geometry, h: Heap, h': Heap, p: int, q: int)
    requires Sane(g) && Inv(g, h') && Inv(g, h) && Live(g, h, p) && Live(g, h', q) && p != q
    requires UsedStay(h, h', {})
    ensures Live(g, h', p)
    ensures Inv(g, Free(g, h', p)) && UsedStay(h, Free(g, h', p), {p - g.header}) && Live(g, Free(g, h', p), q)
  {
    hide FreeBytes, Distinct, Free, Coalesced;
    StartsInPool(g, h, Index(h.blocks, p - g.header));
    FreeInv(g, h', p);
  }

  // ---------------------------------------------------------------- which block, and how much of it

  lemma EndIs(g: Geometry, h: Heap, p: int, e: int)
    requires Sane(g) && Inv(g, h) && Live(g, h, p) && Extent(h.blocks, p - g.header, e)
    ensures var k := Index(h.blocks, p - g.header);
      && k + 1 < |h.blocks| && h.blocks[k + 1] == e && Gap(g, h.blocks, k) == e - p
      && (e in h.free ==> k + 2 < |h.blocks| && Gap(g, h.blocks, k + 1) == BlockSize(g, h, e))
  {
    var b, x := h.blocks, p - g.header;
    assert Extent(b, x, e);
    var i :| 0 <= i < |b| - 1 && At(b, i, x, e);
    AscendingDistinct(b, g.header);
    IndexUnique(b, i);
    IndexUnique(b, i + 1);
    LivePosition(g, h, p);
  }

  /** The first block of the free list with n bytes */
  ghost predicate FirstFit(g: Geometry, h: Heap, n: nat, j: nat) {
    j < |h.free| && BlockSize(g, h, h.free[j]) >= n && forall i :: 0 <= i < j ==> BlockSize(g, h, h.free[i]) < n
  }

  /** An allocation takes the first block of the free list that is large enough, up to the end of the request when
      the rest can hold a block, which then goes in front of the list, and as a whole otherwise. */
  lemma AllocMeans(g: Geometry, h: Heap, size: nat) returns (j: nat)
    requires Sane(g) && Inv(g, h) && Alloc(g, h, size).1 != NULL
    ensures FirstFit(g, h, Request(g, size), j)
    ensures var (h', p) := Alloc(g, h, size);
      var n, room := Request(g, size), BlockSize(g, h, h.free[j]);
      && p == h.free[j] + g.header
      && (if room >= n + g.header + MINIALLOC then
            Extent(h'.blocks, p - g.header, p + n) && h'.free == [p + n] + Without(h.free, h.free[j])
          else Extent(h'.blocks, p - g.header, p + room) && h'.free == Without(h.free, h.free[j]))
  {
    hide FreeBytes, Without, Extent, Request, Inv;
    var n := Request(g, size);
    j := Fit(g, h, n, 0);
    FreeAt(g, h, j);
    var k := Index(h.blocks, h.free[j]);
    InsertExtents(h.blocks, k, h.free[j] + n + g.header);
    WholeExtent(h.blocks, k);
  }

  lemma ReleaseFree(g: Geometry, h: Heap, k: nat)
    requires k + 1 < |h.blocks|
    ensures Release(g, h, k).free ==
      (if k > 0 && h.blocks[k - 1] in h.free then [] else [h.blocks[k]]) + Without(h.free, h.blocks[k + 1])
  {
    hide Without, RemoveAt;
    assert [] + Without(h.free, h.blocks[k + 1]) == Without(h.free, h.blocks[k + 1]);
  }

  /** A freed block goes in front of the free list, unless its left neighbour is free and takes it in; a free right
      neighbour leaves the list. */
  lemma FreeMeans(g: Geometry, h: Heap, p: int, e: int)
    requires Sane(g) && Inv(g, h) && Live(g, h, p) && Extent(h.blocks, p - g.header, e)
    ensures Free(g, h, p).free == (if TakenIn(h, p - g.header) then [] else [p - g.header]) + Without(h.free, e)
  {
    hide Without, Extent, Inv, Live, TakenIn, Index, Release, Gap, BlockSize;
    EndIs(g, h, p, e);
    LivePosition(g, h, p);
    LeftIs(g, h, p);
    ReleaseFree(g, h, Index(h.blocks, p - g.header));
  }

  /** A free block ends where x begins. */
  ghost predicate TakenIn(h: Heap, x: int) {
    exists l :: l in h.free && Extent(h.blocks, l, x)
  }

  lemma LeftIs(g: Geometry, h: Heap, p: int)
    requires Sane(g) && Inv(g, h) && Live(g, h, p)
    ensures var k := Index(h.blocks, p - g.header); TakenIn(h, p - g.header) <==> k > 0 && h.blocks[k - 1] in h.free
  {
    hide FreeBytes, Coalesced;
    var b, x := h.blocks, p - g.header;
    var k := Index(b, x);
    AscendingDistinct(b, g.header);
    if k > 0 && b[k - 1] in h.free { WholeExtent(b, k - 1); }
    if TakenIn(h, x) {
      var l :| l in h.free && Extent(b, l, x);
      var i :| 0 <= i < |b| - 1 && At(b, i, l, x);
      IndexUnique(b, i + 1);
    }
  }

  // ---------------------------------------------------------------- what a reallocation returns

  /** The block at e is free, and with the `gap` in front of it leaves more than the minimum beyond n bytes. */
  ghost predicate Enough(g: Geometry, h: Heap, gap: int, e: int, n: nat) {
    e in h.free && gap + BlockSize(g, h, e) > n + MINIALLOC
  }

  /** No block can be allocated for n bytes. */
  ghost predicate Exhausted(g: Geometry, h: Heap, n: nat) {
    n >= h.available || forall a :: a in h.free ==> BlockSize(g, h, a) < n
  }

  /** For a live block that ends at e: it is resized in place exactly when it holds the request already or its
      right neighbour is free and large enough, and then ends where it did or right behind the request;
      otherwise it moves, unless no other block can be allocated, and the old one is no longer live. */
  lemma ReallocMeans(g: Geometry, h: Heap, p: int, size: nat, e: int)
    requires Sane(g) && Inv(g, h) && Live(g, h, p) && size > 0 && Extent(h.blocks, p - g.header, e)
    ensures var (h', q) := Realloc(g, h, p, size);
      var n, gap := Request(g, size), e - p;
      && (q == NULL <==> n > gap && !Enough(g, h, gap, e, n) && Exhausted(g, h, Request(g, n)))
      && (q == p <==> n <= gap || Enough(g, h, gap, e, n))
      && (q == p ==> Extent(h'.blocks, p - g.header, if n <= gap <= n + g.header + MINIALLOC then e else p + n))
      && (q != NULL && q != p ==> !Live(g, h, q) && !Live(g, h', p))
  {
    hide FreeBytes, Distinct, Release, Alloc, Free, Coalesced, Cut, Inv, Extent, Live, Kept, BlockSize, UsedStay, Room;
    var n, k := Request(g, size), Index(h.blocks, p - g.header);
    RequestAgain(g, size);
    EndIs(g, h, p, e);
    LivePosition(g, h, p);
    if n > e - p {
      if CanGrow(g, h, k, n) {
        CutKept(g, h, k, p + n);
      } else {
        AllocInv(g, h, n);
        var (h1, q) := Alloc(g, h, n);
        if q != NULL {
          ReallocMove(g, h, h1, p, q);
          FreeInv(g, h1, p);
        }
      }
    } else if n + g.header + MINIALLOC < e - p {
      CutKept(g, h, k, p + n);
    }
  }

  /** A size of 0 frees the block, and NULL is an allocation. */
  lemma ReallocEnds(g: Geometry, h: Heap, p: int, size: nat)
    requires Sane(g) && Inv(g, h) && (p == NULL || Live(g, h, p)) && (p == NULL || size == 0)
    ensures var (h', q) := Realloc(g, h, p, size);
      && (q == NULL <==> size == 0 || Exhausted(g, h, Request(g, Request(g, size))))
      && (q != NULL ==> !Live(g, h, q)) && (p != NULL ==> !Live(g, h', p)) && (p == NULL && q == NULL ==> h' == h)
  {
    hide FreeBytes, Distinct, Alloc, Release, Inv, Live, Kept, UsedStay, Room, BlockSize;
    FreeInv(g, h, p);
    if size > 0 { AllocInv(g, h, Request(g, size)); }
  }

  // ---------------------------------------------------------------- whole runs

  datatype Op = AllocOp(size: nat) | FreeOp(p: int) | ReallocOp(p: int, size: nat)

  /** Only live pointers (or NULL) are passed back. */
  ghost predicate Legal(g: Geometry, h: Heap, op: Op) {
    op.AllocOp? || op.p == NULL || Live(g, h, op.p)
  }

  ghost function Step(g: Geometry, h: Heap, op: Op): Heap
    requires g.align > 0
  {
    match op
    case AllocOp(size) => Alloc(g, h, size).0
    case FreeOp(p) => Free(g, h, p)
    case ReallocOp(p, size) => Realloc(g, h, p, size).0
  }

  ghost function Run(g: Geometry, h: Heap, ops: seq<Op>): Heap
    requires g.align > 0
    decreases |ops|
  {
    if ops == [] then h else Run(g, Step(g, h, ops[0]), ops[1..])
  }

  ghost predicate LegalRun(g: Geometry, h: Heap, ops: seq<Op>)
    requires g.align > 0
    decreases |ops|
  {
    ops == [] || (Legal(g, h, ops[0]) && LegalRun(g, Step(g, h, ops[0]), ops[1..]))
  }

  lemma StepInv(g: Geometry, h: Heap, op: Op)
    requires Sane(g) && Inv(g, h) && Legal(g, h, op)
    ensures Inv(g, Step(g, h, op))
  {
    hide Inv, Alloc, Free, Realloc, Live;
    match op {
      case AllocOp(size) => AllocInv(g, h, size);
      case FreeOp(p) => FreeInv(g, h, p);
      case ReallocOp(p, size) => ReallocInv(g, h, p, size);
    }
  }

  /** max_used_size is the most that was ever in use: it follows available_size wherever that falls.  A block
      that moves is in use twice for a moment. */
  lemma StepPeak(g: Geometry, h: Heap, op: Op)
    requires Sane(g) && Inv(g, h) && Legal(g, h, op)
    ensures var h' := Step(g, h, op);
      && h'.maxUsed >= Max(h.maxUsed, g.pool - h'.available)
      && (!op.ReallocOp? ==> h'.maxUsed == Max(h.maxUsed, g.pool - h'.available))
  {
    hide Step, Inv, Legal;
    StepInv(g, h, op);
    PeakBound(g, h);
    PeakBound(g, Step(g, h, op));
    PeakGrows(g, h, op);
    PeakReached(g, h, op);
  }

  lemma PeakBound(g: Geometry, h: Heap)
    requires Inv(g, h)
    ensures h.maxUsed >= g.pool - h.available
  {
  }

  lemma PeakReached(g: Geometry, h: Heap, op: Op)
    requires g.align > 0
    ensures !op.ReallocOp? ==>
              Step(g, h, op).maxUsed == h.maxUsed || Step(g, h, op).maxUsed == g.pool - Step(g, h, op).available
  {
    hide Fit, Without, Index, BlockSize;
  }

  lemma PeakGrows(g: Geometry, h: Heap, op: Op)
    requires g.align > 0
    ensures Step(g, h, op).maxUsed >= h.maxUsed
  {
    hide Fit, Without, Index, BlockSize;
  }

  lemma {:induction false} RunKeepsInv(g: Geometry, h: Heap, ops: seq<Op>)
    requires Sane(g) && Inv(g, h) && LegalRun(g, h, ops)
    ensures Inv(g, Run(g, h, ops))
    decreases |ops|
  {
    hide Inv, Step, Legal;
    if ops != [] {
      StepInv(g, h, ops[0]);
      RunKeepsInv(g, Step(g, h, ops[0]), ops[1..]);
    }
  }

  /** p is passed to neither rt_memheap_free nor rt_memheap_realloc. */
  predicate Untouched(ops: seq<Op>, p: int) {
    forall i :: 0 <= i < |ops| ==> ops[i].AllocOp? || ops[i].p != p
  }

  lemma ExtentLive(g: Geometry, h: Heap, x: int, e: int)
    requires Sane(g) && Inv(g, h) && Extent(h.blocks, x, e) && x !in h.free
    ensures Live(g, h, x + g.header)
  {
    var i :| 0 <= i < |h.blocks| - 1 && At(h.blocks, i, x, e);
    AscendingFar(h.blocks, g.header, i, |h.blocks| - 1);
  }

  lemma StepKept(g: Geometry, h: Heap, op: Op, p: int, e: int)
    requires Sane(g) && Inv(g, h) && Legal(g, h, op) && (op.AllocOp? || op.p != p)
    requires Live(g, h, p) && Extent(h.blocks, p - g.header, e)
    ensures Live(g, Step(g, h, op), p) && Extent(Step(g, h, op).blocks, p - g.header, e)
  {
    hide Inv, Alloc, Free, Realloc, Extent, Room, UsedStay;
    StepInv(g, h, op);
    NoNull(g, h);
    match op {
      case AllocOp(size) => AllocInv(g, h, size);
      case FreeOp(p) => FreeInv(g, h, p);
      case ReallocOp(p, size) => ReallocInv(g, h, p, size);
    }
    ExtentLive(g, Step(g, h, op), p - g.header, e);
  }

  /** Through every run a block that nobody frees or resizes stays live and ends where it did. */
  lemma {:induction false} RunKeepsBlock(g: Geometry, h: Heap, ops: seq<Op>, p: int, e: int)
    requires Sane(g) && Inv(g, h) && LegalRun(g, h, ops) && Untouched(ops, p)
    requires Live(g, h, p) && Extent(h.blocks, p - g.header, e)
    ensures Live(g, Run(g, h, ops), p) && Extent(Run(g, h, ops).blocks, p - g.header, e)
    decreases |ops|
  {
    hide Inv, Step, Legal, Live, Extent;
    if ops != [] {
      assert ops[0].AllocOp? || ops[0].p != p;
      StepInv(g, h, ops[0]);
      StepKept(g, h, ops[0], p, e);
      assert forall i :: 0 <= i < |ops[1..]| ==> ops[1..][i] == ops[i + 1];
      RunKeepsBlock(g, Step(g, h, ops[0]), ops[1..], p, e);
    }
  }

  /** So what was granted holds the request until it is given back. */
  lemma GrantLasts(g: Geometry, h: Heap, size: nat, ops: seq<Op>)
    requires Sane(g) && Inv(g, h) && Alloc(g, h, size).1 != NULL
    requires LegalRun(g, Alloc(g, h, size).0, ops) && Untouched(ops, Alloc(g, h, size).1)
    ensures var (h', p) := Alloc(g, h, size);
      Live(g, Run(g, h', ops), p) && Room(Run(g, h', ops).blocks, p - g.header, g.header + Request(g, size))
  {
    hide Inv, Alloc, Live, Extent, Kept, Request, LegalRun, Run, Untouched;
    AllocInv(g, h, size);
    var (h', p) := Alloc(g, h, size);
    var e :| Extent(h'.blocks, p - g.header, e) && e - (p - g.header) >= g.header + Request(g, size);
    RunKeepsBlock(g, h', ops, p, e);
  }

  // ---------------------------------------------------------------- alignment

  /** What rt_memheap_init and the compiler align. */
  predicate Grid(g: Geometry)
    requires g.align > 0
  {
    Multiple(g.start, g.align) && Multiple(g.pool, g.align) && Multiple(g.header, g.align)
  }

  ghost predicate OnGrid(g: Geometry, b: seq<int>)
    requires g.align > 0
  {
    forall x :: x in b ==> Multiple(x, g.align)
  }

  lemma RequestMultiple(g: Geometry, size: nat)
    requires g.align > 0 && Multiple(MINIALLOC, g.align)
    ensures Multiple(Request(g, size), g.align)
  {
    AlignMultiple(size, g.align);
  }

  /** A new header behind n bytes of block k. */
  lemma InsertGrid(g: Geometry, b: seq<int>, k: nat, n: int)
    requires g.align > 0 && Grid(g) && k < |b| && Multiple(n, g.align) && OnGrid(g, b)
    ensures Multiple(b[k] + g.header + n, g.align) && OnGrid(g, InsertAt(b, k + 1, b[k] + g.header + n))
  {
    hide Multiple;
    InsertMembers(b, k + 1, b[k] + g.header + n);
    assert b[k] in b;
    MultipleSum(b[k], g.header, g.align);
    MultipleSum(b[k] + g.header, n, g.align);
  }

  lemma AllocGrid(g: Geometry, h: Heap, size: nat)
    requires g.align > 0 && Grid(g) && Multiple(MINIALLOC, g.align) && OnGrid(g, h.blocks)
    ensures OnGrid(g, Alloc(g, h, size).0.blocks)
  {
    hide Request, Multiple, Grid, OnGrid, BlockSize;
    var n := Request(g, size);
    var j := Fit(g, h, n, 0);
    RequestMultiple(g, size);
    if n < h.available && j < |h.free| {
      var k := Index(h.blocks, h.free[j]);
      if k + 1 < |h.blocks| { InsertGrid(g, h.blocks, k, n); }
    }
  }

  lemma RemoveGrid(g: Geometry, b: seq<int>, k: nat)
    requires g.align > 0 && k < |b| && OnGrid(g, b)
    ensures OnGrid(g, RemoveAt(b, k))
  {
    hide Multiple;
    assert forall x :: x in RemoveAt(b, k) ==> x in b;
  }

  lemma RemoveLength(b: seq<int>, k: nat)
    requires k < |b|
    ensures |RemoveAt(b, k)| == |b| - 1
  {
  }

  lemma FreeGrid(g: Geometry, h: Heap, p: int)
    requires g.align > 0 && OnGrid(g, h.blocks)
    ensures OnGrid(g, Free(g, h, p).blocks)
  {
    hide OnGrid, Multiple, Index, Without, RemoveAt;
    var k, b := Index(h.blocks, p - g.header), h.blocks;
    if p != NULL && k + 1 < |b| {
      RemoveGrid(g, b, k + 1);
      RemoveGrid(g, b, k);
      RemoveLength(b, k + 1);
      RemoveGrid(g, RemoveAt(b, k + 1), k);
    }
  }

  lemma CutGrid(g: Geometry, h: Heap, k: nat, n: int)
    requires g.align > 0 && Grid(g) && k + 1 < |h.blocks| && Multiple(n, g.align) && OnGrid(g, h.blocks)
    ensures OnGrid(g, Cut(g, h, k, h.blocks[k] + g.header + n).blocks)
  {
    hide Multiple;
    InsertGrid(g, h.blocks, k, n);
  }

  lemma StepGrid(g: Geometry, h: Heap, op: Op)
    requires Sane(g) && Grid(g) && Multiple(MINIALLOC, g.align) && Inv(g, h) && OnGrid(g, h.blocks) && Legal(g, h, op)
    ensures OnGrid(g, Step(g, h, op).blocks)
  {
    hide Inv, Alloc, Free, Cut, OnGrid, Grid, Multiple, Live;
    match op {
      case AllocOp(size) => AllocGrid(g, h, size);
      case FreeOp(p) => FreeGrid(g, h, p);
      case ReallocOp(p, size) =>
        var n := Request(g, size);
        FreeGrid(g, h, p);
        AllocGrid(g, h, n);
        FreeGrid(g, Alloc(g, h, n).0, p);
        if p != NULL {
          LivePosition(g, h, p);
          RequestMultiple(g, size);
          CutGrid(g, h, Index(h.blocks, p - g.header), n);
        }
    }
  }

  lemma {:induction false} RunGrid(g: Geometry, h: Heap, ops: seq<Op>)
    requires Sane(g) && Grid(g) && Multiple(MINIALLOC, g.align) && Inv(g, h) && OnGrid(g, h.blocks) && LegalRun(g, h, ops)
    ensures OnGrid(g, Run(g, h, ops).blocks)
    decreases |ops|
  {
    hide Inv, Step, OnGrid, Legal, Grid, Multiple;
    if ops != [] {
      StepGrid(g, h, ops[0]);
      StepInv(g, h, ops[0]);
      RunGrid(g, Step(g, h, ops[0]), ops[1..]);
    }
  }

  /** In every run every pointer handed out is aligned. */
  ghost predicate AlwaysAligned(g: Geometry)
    requires g.align > 0
  {
    forall ops, p :: LegalRun(g, Initial(g), ops) && Live(g, Run(g, Initial(g), ops), p) ==> Multiple(p, g.align)
  }

  /** The minimum of 12 bytes keeps every pointer aligned exactly when RT_ALIGN_SIZE divides it (in a pool
      that can hold two blocks). */
  lemma AlignedPointers(g: Geometry)
    requires Sane(g) && Grid(g) && g.pool > 3 * g.header + 2 * MINIALLOC
    ensures AlwaysAligned(g) <==> MINIALLOC % g.align == 0
  {
    hide Run, LegalRun, Inv, Grid, Live;
    if MINIALLOC % g.align == 0 {
      forall ops, p | LegalRun(g, Initial(g), ops) && Live(g, Run(g, Initial(g), ops), p) ensures Multiple(p, g.align) {
        PointerAligned(g, ops, p);
      }
    } else {
      SecondBlock(g);
      var ops, p := [AllocOp(0), AllocOp(0)], g.start + 2 * g.header + MINIALLOC;
      assert LegalRun(g, Initial(g), ops) && Live(g, Run(g, Initial(g), ops), p);
      assert !Multiple(p, g.align) by { SecondMisaligned(g); }
    }
  }

  lemma PointerAligned(g: Geometry, ops: seq<Op>, p: int)
    requires Sane(g) && Grid(g) && Multiple(MINIALLOC, g.align)
    requires LegalRun(g, Initial(g), ops) && Live(g, Run(g, Initial(g), ops), p)
    ensures Multiple(p, g.align)
  {
    hide Run, LegalRun, Inv, Multiple;
    InitialInv(g);
    MultipleSum(g.start, g.pool, g.align);
    MultipleSum(g.header, g.start + g.pool - g.header, g.align);
    RunGrid(g, Initial(g), ops);
    MultipleSum(p - g.header, g.header, g.align);
  }

  lemma SecondMisaligned(g: Geometry)
    requires g.align > 0 && Grid(g) && !Multiple(MINIALLOC, g.align)
    ensures !Multiple(g.start + 2 * g.header + MINIALLOC, g.align)
  {
    hide Multiple;
    MultipleSum(g.start, g.header, g.align);
    MultipleSum(g.start + g.header, g.header, g.align);
    MultipleSum(g.start + g.header + g.header, MINIALLOC, g.align);
  }

  /** Two requests for nothing get 12 bytes each. */
  lemma SecondBlock(g: Geometry)
    requires Sane(g) && g.pool > 3 * g.header + 2 * MINIALLOC
    ensures var ops := [AllocOp(0), AllocOp(0)];
      LegalRun(g, Initial(g), ops) && Live(g, Run(g, Initial(g), ops), g.start + 2 * g.header + MINIALLOC)
  {
    hide Run, LegalRun, Alloc, Request, Live;
    var h0, a, x := Initial(g), g.start, g.start + MINIALLOC + g.header;
    var room, end := g.pool - 2 * g.header, g.start + g.pool - g.header;
    var h1 := Heap([a, x, end], [x], room - MINIALLOC - g.header, g.pool - (room - MINIALLOC - g.header));
    FirstAlloc(g);
    SecondAlloc(g, h1, x, end);
    RunTwo(g, h0, AllocOp(0), AllocOp(0));
  }

  lemma NothingAsked(g: Geometry)
    requires g.align > 0
    ensures Request(g, 0) == MINIALLOC
  {
    AlignUp(0, g.align);
    AlignMultiple(0, g.align);
    DivModUnique(Align(0, g.align), g.align, 0, Align(0, g.align));
  }

  lemma FirstAlloc(g: Geometry)
    requires Sane(g) && g.pool > 3 * g.header + 2 * MINIALLOC
    ensures var x, left := g.start + MINIALLOC + g.header, g.pool - 3 * g.header - MINIALLOC;
      Alloc(g, Initial(g), 0).0 == Heap([g.start, x, g.start + g.pool - g.header], [x], left, g.pool - left)
  {
    hide Request, Index;
    var h := Initial(g);
    NothingAsked(g);
    IndexUnique(h.blocks, 0);
    IndexUnique(h.free, 0);
    assert BlockSize(g, h, g.start) == g.pool - 2 * g.header;
    assert Fit(g, h, MINIALLOC, 0) == 0;
    var rest := Without(h.free, g.start);
    assert rest == RemoveAt(h.free, 0) == [];
    var x := g.start + MINIALLOC + g.header;
    assert InsertAt(h.blocks, 1, x) == [g.start, x, g.start + g.pool - g.header] && [x] + rest == [x];
  }

  lemma SecondAlloc(g: Geometry, h: Heap, x: int, end: int)
    requires Sane(g) && h.blocks == [g.start, x, end] && h.free == [x] && g.start < x && h.available > MINIALLOC
    requires end - x - g.header == h.available
    ensures Live(g, Alloc(g, h, 0).0, x + g.header)
  {
    hide Request, Without, Index;
    NothingAsked(g);
    IndexUnique(h.blocks, 1);
    assert BlockSize(g, h, x) == h.available;
    assert Fit(g, h, MINIALLOC, 0) == 0;
    WithoutMembers(h.free, x);
    assert Take(g, h, 1, MINIALLOC).blocks[1] == x;
  }

  lemma RunTwo(g: Geometry, h: Heap, op1: Op, op2: Op)
    requires g.align > 0 && Legal(g, h, op1) && Legal(g, Step(g, h, op1), op2)
    ensures LegalRun(g, h, [op1, op2]) && Run(g, h, [op1, op2]) == Step(g, Step(g, h, op1), op2)
  {
    hide Step, Legal;
    var h1 := Step(g, h, op1);
    assert [op1, op2][1..] == [op2] && [op2][1..] == [];
    assert LegalRun(g, Step(g, h1, op2), []) && LegalRun(g, h1, [op2]);
    assert Run(g, h1, [op2]) == Run(g, Step(g, h1, op2), []);
  }

  /** With nothing live the pool is one free block again. */
  lemma NothingLive(g: Geometry, h: Heap)
    requires Sane(g) && Inv(g, h)
    requires forall p :: !Live(g, h, p)
    ensures h == Initial(g).(maxUsed := h.maxUsed)
  {
    var b := h.blocks;
    forall i | 0 <= i < |b| - 1 ensures b[i] in h.free {
      AscendingFar(b, g.header, i, |b| - 1);
      assert !Live(g, h, b[i] + g.header);
    }
    assert |b| == 2 by {
      assert BothFree(b, h.free, 0) <==> b[0] in h.free && b[1] in h.free;
    }
    assert b == [g.start, g.start + g.pool - g.header];
    OnlyStart(h.free, g.start);
    InitialInv(g);
  }

  lemma OnlyStart(s: seq<int>, x: int)
    requires Distinct(s) && x in s && forall y :: y in s ==> y == x
    ensures s == [x]
  {
    assert s[0] in s && s[|s| - 1] in s;
  }

  /** In every run from a fresh pool the block list tiles the pool, the free list is exactly the
      free blocks, no two neighbours are free and the byte count is exact; and whenever the run has
      freed everything, the pool is the single initial free block. */
  lemma EveryRun(g: Geometry, ops: seq<Op>)
    requires Sane(g) && LegalRun(g, Initial(g), ops)
    ensures Inv(g, Run(g, Initial(g), ops))
    ensures (forall p :: !Live(g, Run(g, Initial(g), ops), p))
              ==> Run(g, Initial(g), ops) == Initial(g).(maxUsed := Run(g, Initial(g), ops).maxUsed)
  {
    hide Inv, Run, LegalRun, Initial;
    InitialInv(g);
    RunKeepsInv(g, Initial(g), ops);
    var h := Run(g, Initial(g), ops);
    if forall p :: !Live(g, h, p) { NothingLive(g, h); }
  }
}

/** The allocator as the source runs it: headers at addresses with four link fields and a used
    bit, rewritten in place.  `ram` holds the bytes of the pool; every header store overwrites
    the bytes it covers, and a header written on top of an older one destroys it. */
module MemHeap {
  import opened Arith
  import opened Ring
  import opened MemHeapSpec
  import opened Ram

  const HEAD := -1

  ghost predicate PayloadOf(g: Geometry, b: seq<int>, i: int, z: int) {
    0 <= i < |b| - 1 && b[i] + g.header <= z < b[i + 1]
  }

  /** z lies in the payload of a live block other than `own`. */
  ghost predicate LiveByte(g: Geometry, h: Heap, own: int, z: int) {
    exists i :: PayloadOf(g, h.blocks, i, z) && h.blocks[i] !in h.free && h.blocks[i] != own
  }

  /** The live payloads of h, the one of the block at `own` aside, read the same. */
  ghost predicate PayloadsKept(g: Geometry, h: Heap, own: int, ram: map<int, byte>, ram': map<int, byte>) {
    && ram'.Keys == ram.Keys
    && forall z :: z in ram && LiveByte(g, h, own, z) ==> ram'[z] == ram[z]
  }

  lemma PayloadInside(g: Geometry, b: seq<int>, i: int, k: int, z: int)
    requires Ascending(b, g.header) && PayloadOf(g, b, i, z) && 0 <= k < |b| && k != i
    ensures z < b[k] || (k + 1 < |b| && b[k + 1] <= z)
    ensures !(b[k] <= z < b[k] + g.header)
  {
    if k > i + 1 { AscendingFar(b, g.header, i + 1, k); }
    if k < i { if k + 1 < i { AscendingFar(b, g.header, k + 1, i); } AscendingFar(b, g.header, k, i); }
  }

  /** Header writes into known headers, or into a new header at x inside block k, miss every live payload. */
  lemma HeadersMissPayloads(g: Geometry, h: Heap, k: nat, x: int, own: int, ram: map<int, byte>, ram': map<int, byte>)
    requires Ascending(h.blocks, g.header) && k + 1 < |h.blocks|
    requires h.blocks[k] in h.free || h.blocks[k] == own
             || (k + 2 < |h.blocks| && h.blocks[k + 1] in h.free && h.blocks[k + 1] <= x)
    requires h.blocks[k] <= x
    requires x + g.header <= h.blocks[k + 1]
             || (k + 2 < |h.blocks| && h.blocks[k + 1] in h.free && x + g.header <= h.blocks[k + 2])
    requires Keeps(g.header, h.blocks + [x], ram, ram')
    ensures PayloadsKept(g, h, own, ram, ram')
  {
    var b := h.blocks;
    forall z | z in ram && LiveByte(g, h, own, z) ensures ram'[z] == ram[z] {
      var i :| PayloadOf(g, b, i, z) && b[i] !in h.free && b[i] != own;
      forall t | 0 <= t <= |b| ensures !((b + [x])[t] <= z < (b + [x])[t] + g.header) {
        if t < |b| {
          if t != i { PayloadInside(g, b, i, t, z); }
        } else {
          if k != i { PayloadInside(g, b, i, k, z); }
          if k + 2 < |b| && k + 1 != i { PayloadInside(g, b, i, k + 1, z); }
        }
      }
    }
  }

  /** Which of the old blocks are free after a block has been taken, with or without a split at x. */
  lemma TakeBits(g: Geometry, h: Heap, k: nat, x: int)
    requires k + 1 < |h.blocks| && Distinct(h.free)
    ensures h.blocks[k] !in Without(h.free, h.blocks[k])
    ensures forall y :: y in h.blocks && y != h.blocks[k] ==> (y in Without(h.free, h.blocks[k]) <==> y in h.free)
    ensures forall y :: y in InsertAt(h.blocks, k + 1, x) <==> y in h.blocks || y == x
  {
    WithoutMembers(h.free, h.blocks[k]);
    InsertMembers(h.blocks, k + 1, x);
  }

  class MemHeap {
    const g: Geometry
    /** What a header store leaves in the bytes it covers; nothing depends on it. */
    const noise: int -> byte

    var next: map<int, int>
    var prev: map<int, int>
    var nextFree: map<int, int>
    var prevFree: map<int, int>
    var used: map<int, bool>
    var available: int
    var maxUsed: int
    var ram: map<int, byte>

    ghost var blocks: seq<int>
    ghost var free: seq<int>

    ghost function Abs(): Heap
      reads this
    {
      Heap(blocks, free, available, maxUsed)
    }

    ghost predicate BlockRing()
      reads this
    {
      IsRing(next, prev, blocks)
    }

    ghost predicate FreeRing()
      reads this
    {
      IsRing(nextFree, prevFree, [HEAD] + free)
    }

    ghost predicate UsedBits()
      reads this
    {
      forall b :: b in blocks ==> b in used && (used[b] <==> b !in free)
    }

    ghost predicate Covered()
      reads this
    {
      forall z :: g.start <= z < g.start + g.pool ==> z in ram
    }

    ghost predicate Valid()
      reads this
    {
      Sane(g) && Inv(g, Abs()) && BlockRing() && FreeRing() && UsedBits() && Covered()
    }

    // -------------------------------------------------------------- header stores

    /** A store into the header at y. */
    method Touch(y: int, ghost hs: seq<int>)
      requires y == HEAD || y in hs
      modifies this`ram
      ensures Keeps(g.header, hs, old(ram), ram)
    {
      if y != HEAD {
        ScribbleKeeps(g.header, hs, ram, y, noise);
        ram := Scribbled(g.header, ram, y, noise);
      }
    }

    predicate Survives(y: int, x: int) {
      y == HEAD || y == x || y + g.header <= x || x + g.header <= y
    }

    /** The first store into a new header at x: whatever header it overlaps is gone. */
    method NewHeader(x: int, ghost hs: seq<int>)
      requires BlockRing() && FreeRing() && UsedBits() && x !in blocks && x !in free && x != HEAD && x in hs
      requires forall y :: y in blocks ==> Survives(y, x)
      requires forall y :: y in free ==> y in blocks
      modifies this`next, this`prev, this`nextFree, this`prevFree, this`used, this`ram
      ensures BlockRing() && FreeRing() && UsedBits()
      ensures x in used && !used[x]
      ensures Keeps(g.header, hs, old(ram), ram)
    {
      next := map y | y in next && Survives(y, x) :: next[y];
      prev := map y | y in prev && Survives(y, x) :: prev[y];
      nextFree := map y | y in nextFree && Survives(y, x) :: nextFree[y];
      prevFree := map y | y in prevFree && Survives(y, x) :: prevFree[y];
      used := (map y | y in used && Survives(y, x) :: used[y])[x := false];
      RingFrame(old(next), old(prev), next, prev, blocks);
      RingFrame(old(nextFree), old(prevFree), nextFree, prevFree, [HEAD] + free);
      Touch(x, hs);
    }

    /** Lines 216-217, 364-365, 471-472, 576-577 */
    method UnlinkFree(x: int, ghost j: nat, ghost hs: seq<int>)
      requires FreeRing() && j < |free| && free[j] == x
      requires forall y :: y in free ==> y in hs
      modifies this`nextFree, this`prevFree, this`free, this`ram
      ensures FreeRing() && free == RemoveAt(old(free), j)
      ensures Keeps(g.header, hs, old(ram), ram)
    {
      ghost var ring := [HEAD] + free;
      RemoveRing(nextFree, prevFree, ring, j + 1);
      assert RemoveAt(ring, j + 1) == [HEAD] + RemoveAt(free, j);
      var n, p := nextFree[x], prevFree[x];
      assert n in ring && p in ring;
      prevFree := prevFree[n := p];
      Touch(n, hs);
      nextFree := nextFree[p := n];
      Touch(p, hs);
      free := RemoveAt(free, j);
    }

    /** Lines 222-225, 390-393, 476-479, 583-586 */
    method PushFree(x: int, ghost hs: seq<int>)
      requires FreeRing() && x !in free && x != HEAD && x in hs
      requires forall y :: y in free ==> y in hs
      modifies this`nextFree, this`prevFree, this`free, this`ram
      ensures FreeRing() && free == [x] + old(free)
      ensures Keeps(g.header, hs, old(ram), ram)
    {
      ghost var ring := [HEAD] + free;
      InsertAfterRing(nextFree, prevFree, ring, 0, x);
      assert InsertAt(ring, 1, x) == [HEAD] + ([x] + free);
      var n := nextFree[HEAD];
      assert n in ring;
      nextFree := nextFree[x := n];
      prevFree := prevFree[x := HEAD];
      Touch(x, hs);
      prevFree := prevFree[n := x];
      Touch(n, hs);
      nextFree := nextFree[HEAD := x];
      assert prevFree == old(prevFree)[n := x][x := HEAD];
      free := [x] + free;
    }

    /** Lines 210-213, 384-387, 449-452 */
    method LinkBlock(header: int, x: int, ghost k: nat, ghost hs: seq<int>)
      requires BlockRing() && k < |blocks| && blocks[k] == header && x !in blocks
      requires HEAD !in blocks && x in hs
      requires forall y :: y in blocks ==> y in hs
      modifies this`next, this`prev, this`blocks, this`ram
      ensures BlockRing() && blocks == InsertAt(old(blocks), k + 1, x)
      ensures Keeps(g.header, hs, old(ram), ram)
    {
      InsertAfterRing(next, prev, blocks, k, x);
      var n := next[header];
      assert n in blocks;
      prev := prev[x := header];
      next := next[x := n];
      Touch(x, hs);
      prev := prev[n := x];
      Touch(n, hs);
      next := next[header := x];
      Touch(header, hs);
      assert prev == old(prev)[n := x][x := header];
      blocks := InsertAt(blocks, k + 1, x);
    }

    /** Lines 366-367, 467-468, 550-551, 572-573 */
    method UnlinkBlock(x: int, ghost k: nat, ghost hs: seq<int>)
      requires BlockRing() && k < |blocks| && |blocks| >= 2 && blocks[k] == x
      requires forall y :: y in blocks ==> y in hs
      modifies this`next, this`prev, this`blocks, this`ram
      ensures BlockRing() && blocks == RemoveAt(old(blocks), k)
      ensures Keeps(g.header, hs, old(ram), ram)
    {
      RemoveRing(next, prev, blocks, k);
      var n, p := next[x], prev[x];
      assert n in blocks && p in blocks;
      prev := prev[n := p];
      Touch(n, hs);
      next := next[p := n];
      Touch(p, hs);
      blocks := RemoveAt(blocks, k);
    }

    // -------------------------------------------------------------- the interface

    /** rt_memheap_init */
    constructor (g: Geometry, noise: int -> byte, ram: map<int, byte>)
      requires Sane(g) && forall z :: g.start <= z < g.start + g.pool ==> z in ram
      ensures Valid() && this.g == g && Abs() == Initial(g)
    {
      var room := g.pool - 2 * g.header;
      var tail := g.start + room + g.header;
      this.g, this.noise, this.ram := g, noise, ram;
      available := room;
      maxUsed := g.pool - room;
      next := map[g.start := tail, tail := g.start];
      prev := map[g.start := tail, tail := g.start];
      nextFree := map[HEAD := g.start, g.start := HEAD];
      prevFree := map[HEAD := g.start, g.start := HEAD];
      used := map[g.start := false, tail := true];
      blocks, free := [g.start, tail], [g.start];
      new;
      InitialInv(g);
      assert [HEAD] + free == [HEAD, g.start];
    }

    /** Lines 193-225: the tail of block k becomes a free block at newPtr. */
    method SplitBlock(header: int, newPtr: int, ghost j: nat, ghost k: nat, ghost hs: seq<int>)
      requires Linked2() && UsedBits() && k < |blocks| && blocks[k] == header && j < |free| && free[j] == header
      requires hs == blocks + [newPtr] && newPtr !in blocks && newPtr != HEAD
      requires forall y :: y in blocks ==> Survives(y, newPtr)
      modifies this`next, this`prev, this`nextFree, this`prevFree, this`used, this`blocks, this`free, this`ram
      ensures BlockRing() && FreeRing()
      ensures blocks == InsertAt(old(blocks), k + 1, newPtr) && free == [newPtr] + RemoveAt(old(free), j)
      ensures newPtr in used && !used[newPtr] && forall b :: b in old(blocks) ==> b in used && used[b] == old(used)[b]
      ensures Keeps(g.header, hs, old(ram), ram)
    {
      hide IsRing, InHeader;
      NewHeader(newPtr, hs);
      LinkBlock(header, newPtr, k, hs);
      UnlinkFree(header, j, hs);
      PushFree(newPtr, hs);
    }

    /** Lines 231-258: the counters and the used bit. */
    method Settle(header: int, available': int, ghost hs: seq<int>)
      requires header in hs
      modifies this`available, this`maxUsed, this`used, this`ram
      ensures available == available' && maxUsed == Max(old(maxUsed), g.pool - available)
      ensures used == old(used)[header := true]
      ensures Keeps(g.header, hs, old(ram), ram)
    {
      available := available';
      if g.pool - available > maxUsed {
        maxUsed := g.pool - available;
      }
      used := used[header := true];
      Touch(header, hs);
    }

    method TakeSplit(header: int, n: nat, ghost j: nat, ghost k: nat)
      requires Valid() && k + 1 < |blocks| && blocks[k] == header && j < |free| && free[j] == header
      requires MINIALLOC <= n && n + g.header + MINIALLOC <= Gap(g, blocks, k)
      modifies this
      ensures Valid()
      ensures Abs() == Take(g, old(Abs()), k, n)
      ensures PayloadsKept(g, old(Abs()), NULL, old(ram), ram)
    {
      hide FreeBytes, Distinct, IsRing, Tiled, Coalesced, PayloadsKept, InHeader, Without, Inv, Keeps;
      ghost var h, x := Abs(), header + n + g.header;
      ghost var hs := blocks + [x];
      ListedBlocks(h);
      TakeInv(g, h, k, n);
      TakeFrame(h, j, k, x);
      SplitBlock(header, header + n + g.header, j, k, hs);
      ghost var ram1 := ram;
      Settle(header, available - n - g.header, hs);
      KeepsTrans(g.header, hs, old(ram), ram1, ram);
      HeadersMissPayloads(g, h, k, x, NULL, old(ram), ram);
      assert Abs() == Take(g, h, k, n);
      TakeBits(g, h, k, x);
    }

    method TakeWhole(header: int, n: nat, freeSize: int, ghost j: nat, ghost k: nat)
      requires Valid() && k + 1 < |blocks| && blocks[k] == header && j < |free| && free[j] == header
      requires MINIALLOC <= n <= freeSize == Gap(g, blocks, k) && freeSize < n + g.header + MINIALLOC
      modifies this
      ensures Valid()
      ensures Abs() == Take(g, old(Abs()), k, n)
      ensures PayloadsKept(g, old(Abs()), NULL, old(ram), ram)
    {
      hide FreeBytes, Distinct, IsRing, Tiled, Coalesced, PayloadsKept, InHeader, Without, Inv, Keeps;
      ghost var h := Abs();
      ghost var hs := blocks + [header];
      ListedBlocks(h);
      TakeInv(g, h, k, n);
      TakeFrame(h, j, k, header);
      UnlinkFree(header, j, hs);
      ghost var ram1 := ram;
      Settle(header, available - freeSize, hs);
      KeepsTrans(g.header, hs, old(ram), ram1, ram);
      HeadersMissPayloads(g, h, k, header, NULL, old(ram), ram);
      assert Abs() == Take(g, h, k, n);
      TakeBits(g, h, k, header);
    }

    /** Where the header writes of an allocation go. */
    lemma TakeFrame(h: Heap, j: nat, k: nat, x: int)
      requires Sane(g) && Inv(g, h) && k + 1 < |h.blocks| && j < |h.free| && h.free[j] == h.blocks[k]
      requires x == h.blocks[k] || (h.blocks[k] + g.header <= x && x + g.header <= h.blocks[k + 1])
      ensures HEAD !in h.blocks && x != HEAD && x >= g.start
      ensures Without(h.free, h.blocks[k]) == RemoveAt(h.free, j)
      ensures x != h.blocks[k] ==> x !in h.blocks && forall y :: y in h.blocks ==> Survives(y, x)
      ensures h.blocks[k] + g.header <= h.blocks[k + 1]
    {
      NoHead(h);
      IndexUnique(h.free, j);
      StartsInPool(g, h, k);
      AscendingFar(h.blocks, g.header, k, k + 1);
      if x != h.blocks[k] {
        TiledInsert(g, h.blocks, k, x);
        SurviveInside(h, k, x);
      }
    }

    lemma ListedBlocks(h: Heap)
      requires Inv(g, h)
      ensures forall y :: y in h.free ==> y in h.blocks
      ensures Ascending(h.blocks, g.header) && Distinct(h.free)
    {
    }

    lemma FreeInFront(h: Heap)
      requires Sane(g) && Inv(g, h)
      ensures forall y :: y in h.free ==> y in h.blocks && y != h.blocks[|h.blocks| - 1]
    {
    }

    lemma NoHead(h: Heap)
      requires Sane(g) && Inv(g, h)
      ensures HEAD !in h.blocks && NULL !in h.blocks && forall y :: y in h.blocks ==> y >= g.start
    {
      forall i | 0 <= i < |h.blocks| ensures h.blocks[i] >= g.start {
        StartsInPool(g, h, i);
      }
    }

    lemma SurviveInside(h: Heap, k: nat, x: int)
      requires Ascending(h.blocks, g.header) && k + 1 < |h.blocks|
      requires h.blocks[k] + g.header <= x && x + g.header <= h.blocks[k + 1]
      ensures forall y :: y in h.blocks ==> Survives(y, x)
    {
      forall i | 0 <= i < |h.blocks| ensures Survives(h.blocks[i], x) {
        if i < k { AscendingFar(h.blocks, g.header, i, k); }
        if k + 1 < i { AscendingFar(h.blocks, g.header, k + 1, i); }
      }
    }

    /** rt_memheap_alloc */
    method Alloc(size: nat) returns (p: int)
      requires Valid()
      modifies this
      ensures Valid()
      ensures (Abs(), p) == MemHeapSpec.Alloc(g, old(Abs()), size)
      ensures PayloadsKept(g, old(Abs()), NULL, old(ram), ram)
    {
      hide FreeBytes, Distinct, Tiled, Coalesced, LiveByte, Take;
      p := NULL;
      var n := Align(size, g.align);
      if n < MINIALLOC {
        n := MINIALLOC;
      }
      if n < available {
        var header, freeSize;
        ghost var j;
        header, freeSize, j := Search(n);
        if freeSize >= n {
          ghost var k := Index(blocks, header);
          if freeSize >= n + g.header + MINIALLOC {
            TakeSplit(header, n, j, k);
          } else {
            TakeWhole(header, n, freeSize, j, k);
          }
          p := header + g.header;
        }
      }
    }

    /** Lines 169-180: walk the free list to the first block that is large enough. */
    method Search(n: nat) returns (header: int, freeSize: int, ghost j: nat)
      requires Valid() && n > 0
      ensures j == Fit(g, Abs(), n, 0)
      ensures freeSize >= n <==> Fit(g, Abs(), n, 0) < |free|
      ensures freeSize >= n ==> header == free[Fit(g, Abs(), n, 0)]
      ensures j < |free| ==> header == free[j] && freeSize == BlockSize(g, Abs(), header)
      ensures j < |free| ==> Index(blocks, header) + 1 < |blocks| && freeSize == Gap(g, blocks, Index(blocks, header))
    {
      hide FreeBytes, Distinct, Tiled, Coalesced, BlockSize, Fit;
      ghost var ring := [HEAD] + free;
      NoHead(Abs());
      FreeInFront(Abs());
      hide Inv, BlockRing, UsedBits, Covered;
      assert Linked(nextFree, prevFree, ring, 0);
      freeSize, header, j := 0, nextFree[HEAD], 0;
      while header != HEAD && freeSize < n
        invariant j <= |free| && header == ring[Succ(|ring|, j)]
        invariant Fit(g, Abs(), n, 0) == Fit(g, Abs(), n, j)
        invariant freeSize >= n ==> j < |free| && SizeIs(header, freeSize)
        invariant ring == [HEAD] + free
        decreases |free| - j, if freeSize < n then 1 else 0
      {
        assert header == free[j] && header in free;
        HeaderSize(header);
        freeSize := next[header] - header - g.header;
        SizeIsBlock(header, freeSize);
        FitStep(j, n);
        if freeSize < n {
          assert Linked(nextFree, prevFree, ring, j + 1);
          header := nextFree[header];
          j := j + 1;
        }
      }
      if j < |free| { assert free[j] in free; SizeIsBlock(header, freeSize); FitStep(j, n); } else { FitEnd(n); }
    }

    lemma FitStep(j: nat, n: nat)
      requires j < |free|
      ensures Fit(g, Abs(), n, j) == if BlockSize(g, Abs(), free[j]) >= n then j else Fit(g, Abs(), n, j + 1)
    {
      hide BlockSize;
    }

    lemma FitEnd(n: nat)
      ensures Fit(g, Abs(), n, |free|) == |free|
    {
    }

    lemma SizeIsBlock(a: int, size: int)
      requires SizeIs(a, size)
      ensures BlockSize(g, Abs(), a) == size
    {
    }

    ghost predicate SizeIs(a: int, n: int)
      reads this
    {
      var k := Index(blocks, a);
      k + 1 < |blocks| && n == Gap(g, blocks, k)
    }

    /** MEMITEM_SIZE read through the links is the gap to the next block. */
    lemma HeaderSize(a: int)
      requires Valid() && a in blocks && a != blocks[|blocks| - 1]
      ensures a in next && SizeIs(a, next[a] - a - g.header)
    {
      var k := Index(blocks, a);
      assert Linked(next, prev, blocks, k);
    }

    /** Bits of everything but the block being freed. */
    ghost predicate UsedBitsBut(header: int)
      reads this
    {
      forall b :: b in blocks ==> b in used && (used[b] <==> b !in free && b != header)
    }

    /** Lines 560-578: swallow a free right neighbour. */
    method MergeRight(header: int, ghost i: nat, ghost hs: seq<int>)
      requires BlockRing() && FreeRing() && |blocks| >= 2 && i + 1 < |blocks| && blocks[i] == header
      requires blocks[i + 1] in used && (used[blocks[i + 1]] <==> blocks[i + 1] !in free)
      requires (forall y :: y in blocks ==> y in hs) && (forall y :: y in free ==> y in hs) && Distinct(free)
      modifies this`next, this`prev, this`nextFree, this`prevFree, this`blocks, this`free, this`available, this`ram
      ensures BlockRing() && FreeRing() && Keeps(g.header, hs, old(ram), ram)
      ensures free == Without(old(free), old(blocks)[i + 1])
      ensures old(blocks)[i + 1] in old(free) ==> blocks == RemoveAt(old(blocks), i + 1) && available == old(available) + g.header
      ensures old(blocks)[i + 1] !in old(free) ==> blocks == old(blocks) && available == old(available)
    {
      hide IsRing, Distinct, InHeader;
      NextOf(i);
      var newPtr := next[header];
      if !used[newPtr] {
        available := available + g.header;
        ghost var j := Index(free, newPtr);
        UnlinkBlock(newPtr, i + 1, hs);
        UnlinkFree(newPtr, j, hs);
      }
    }

    lemma NextOf(i: nat)
      requires BlockRing() && i + 1 < |blocks|
      ensures blocks[i] in next && next[blocks[i]] == blocks[i + 1]
    {
      assert Linked(next, prev, blocks, i);
    }

    /** Lists before a release: everything is linked, and the block at position k is neither used nor free. */
    ghost predicate Releasing(k: nat, hs: seq<int>)
      reads this
    {
      && Linked2() && k + 1 < |blocks| && blocks[k] !in free && blocks[|blocks| - 1] !in free
      && Distinct(blocks) && Distinct(free)
      && (forall y :: y in blocks ==> y in hs)
    }

    ghost predicate Linked2()
      reads this
    {
      BlockRing() && FreeRing() && HEAD !in blocks && forall y :: y in free ==> y in blocks
    }

    /** Lines 546-578 with a free left neighbour: the block dissolves into it. */
    method JoinLeft(header: int, ghost k: nat, ghost hs: seq<int>)
      requires 0 < k && Releasing(k, hs) && blocks[k] == header && blocks[k - 1] in free
      requires UsedBitsBut(header)
      modifies this`next, this`prev, this`nextFree, this`prevFree, this`blocks, this`free, this`available, this`ram
      ensures BlockRing() && FreeRing() && Keeps(g.header, hs, old(ram), ram)
      ensures var h := Heap(old(blocks), old(free), old(available) - Gap(g, old(blocks), k), maxUsed);
        Abs() == Release(g, h, k)
    {
      hide IsRing, Distinct, InHeader, Without, Keeps;
      ReleaseShape(blocks, k);
      PrevOf(k);
      available := available + g.header;
      var left := prev[header];
      UnlinkBlock(header, k, hs);
      ghost var ram1 := ram;
      RemoveMembers(old(blocks), k);
      MergeRight(left, k - 1, hs);
      KeepsTrans(g.header, hs, old(ram), ram1, ram);
    }

    /** Lines 560-586 with a used left neighbour: the block itself goes on the free list. */
    method JoinNone(header: int, ghost k: nat, ghost hs: seq<int>)
      requires Releasing(k, hs) && blocks[k] == header && !(k > 0 && blocks[k - 1] in free)
      requires UsedBitsBut(header)
      modifies this`next, this`prev, this`nextFree, this`prevFree, this`blocks, this`free, this`available, this`ram
      ensures BlockRing() && FreeRing() && Keeps(g.header, hs, old(ram), ram)
      ensures var h := Heap(old(blocks), old(free), old(available) - Gap(g, old(blocks), k), maxUsed);
        Abs() == Release(g, h, k)
    {
      hide IsRing, Distinct, InHeader, Without, Keeps;
      ReleaseShape(blocks, k);
      MergeRight(header, k, hs);
      ghost var ram1 := ram;
      WithoutMembers(old(free), old(blocks)[k + 1]);
      PushFree(header, hs);
      KeepsTrans(g.header, hs, old(ram), ram1, ram);
    }

    lemma PrevOf(k: nat)
      requires BlockRing() && k < |blocks|
      ensures blocks[k] in prev && prev[blocks[k]] == blocks[if k == 0 then |blocks| - 1 else k - 1]
    {
      assert Linked(next, prev, blocks, k);
    }

    lemma ReleaseShape(b: seq<int>, k: nat)
      requires Distinct(b) && k + 1 < |b|
      ensures b[k] != b[k + 1]
      ensures k > 0 ==> RemoveAt(b, k)[k - 1] == b[k - 1] && RemoveAt(b, k)[k] == b[k + 1]
      ensures k > 0 && k + 2 < |b| ==> RemoveAt(RemoveAt(b, k), k) == RemoveAt(RemoveAt(b, k + 1), k)
    {
    }

    /** Lines 541-591 */
    method Join(header: int, ghost k: nat, ghost hs: seq<int>)
      requires Releasing(k, hs) && blocks[k] == header
      requires UsedBitsBut(header)
      modifies this`next, this`prev, this`nextFree, this`prevFree, this`blocks, this`free, this`available, this`ram
      ensures BlockRing() && FreeRing() && Keeps(g.header, hs, old(ram), ram)
      ensures var h := Heap(old(blocks), old(free), old(available) - Gap(g, old(blocks), k), maxUsed);
        Abs() == Release(g, h, k)
    {
      hide IsRing, InHeader, Without, Keeps, Release;
      PrevOf(k);
      if !used[prev[header]] {
        JoinLeft(header, k, hs);
      } else {
        JoinNone(header, k, hs);
      }
    }

    /** Lines 536-591 */
    method FreeBlock(header: int, ghost k: nat)
      requires Valid() && k + 1 < |blocks| && blocks[k] == header && header !in free
      modifies this
      ensures Valid()
      ensures Abs() == Release(g, old(Abs()), k)
      ensures PayloadsKept(g, old(Abs()), header, old(ram), ram)
    {
      hide FreeBytes, Distinct, IsRing, Coalesced, PayloadsKept, InHeader, Without, Inv, Keeps, Release, Ascending, UsedStay;
      ghost var h := Abs();
      ghost var hs := blocks + [header];
      ListedBlocks(h);
      ReleaseInv(g, h, k);
      ReleaseFrame(h, k);
      used := used[header := false];
      Touch(header, hs);
      ghost var ram1 := ram;
      NextOf(k);
      available := available + (next[header] - header - g.header);
      Join(header, k, hs);
      KeepsTrans(g.header, hs, old(ram), ram1, ram);
      HeadersMissPayloads(g, h, k, header, header, old(ram), ram);
      ReleaseBits(h, k);
    }

    /** rt_memheap_free */
    method Free(p: int)
      requires Valid() && (p == NULL || Live(g, Abs(), p))
      modifies this
      ensures Valid()
      ensures Abs() == MemHeapSpec.Free(g, old(Abs()), p)
      ensures PayloadsKept(g, old(Abs()), p - g.header, old(ram), ram)
    {
      if p != NULL {
        FreeBlock(p - g.header, Index(blocks, p - g.header));
      }
    }

    lemma ReleaseFrame(h: Heap, k: nat)
      requires Sane(g) && Inv(g, h) && k + 1 < |h.blocks| && h.blocks[k] !in h.free
      ensures Distinct(h.blocks) && Distinct(h.free) && HEAD !in h.blocks
      ensures h.blocks[k] != h.blocks[k + 1] && h.blocks[k] + g.header <= h.blocks[k + 1]
      ensures h.blocks[|h.blocks| - 1] !in h.free
    {
      AscendingDistinct(h.blocks, g.header);
      AscendingFar(h.blocks, g.header, k, k + 1);
      NoHead(h);
    }

    /** Who is free after the release, among the blocks that are still there. */
    lemma ReleaseBits(h: Heap, k: nat)
      requires Sane(g) && Inv(g, h) && k + 1 < |h.blocks| && h.blocks[k] !in h.free
      ensures var h' := Release(g, h, k);
        && (forall y :: y in h'.blocks ==> y in h.blocks)
        && (forall y :: y in h'.blocks ==> (y in h'.free <==> y in h.free || y == h.blocks[k]))
    {
      hide FreeBytes, Distinct, Without;
      var b := h.blocks;
      var merged := if b[k + 1] in h.free then RemoveAt(b, k + 1) else b;
      AscendingDistinct(b, g.header);
      WithoutMembers(h.free, b[k + 1]);
      if b[k + 1] in h.free { RemoveMembers(b, k + 1); RemoveDistinct(b, k + 1); }
      assert merged[k] == b[k];
      if k > 0 && b[k - 1] in h.free { RemoveMembers(merged, k); }
    }

    // -------------------------------------------------------------- realloc

    /** Lines 350-401: the free right neighbour moves to x = p + n. */
    method GrowInPlace(header: int, n: nat, ghost k: nat)
      requires Valid() && k + 1 < |blocks| && blocks[k] == header && header !in free
      requires n > Gap(g, blocks, k) && CanGrow(g, Abs(), k, n)
      modifies this
      ensures Valid()
      ensures var h' := Cut(g, old(Abs()), k, header + g.header + n); Abs() == Account(g, h', h'.available)
      ensures PayloadsKept(g, old(Abs()), NULL, old(ram), ram)
    {
      hide FreeBytes, Distinct, IsRing, Coalesced, PayloadsKept, InHeader, Inv, Keeps, Without, UsedStay, Ascending;
      ghost var h, x := Abs(), header + g.header + n;
      ghost var hs := blocks + [x];
      GrowFrame(h, k, x);
      CutBits(h, k, x);
      NextOf(k);
      var y := next[header];
      var oldsize := y - header - g.header;
      available := available - (n - oldsize);
      if g.pool - available > maxUsed {
        maxUsed := g.pool - available;
      }
      ghost var j := Index(free, y);
      Relocate(header, y, header + g.header + n, j, k, hs);
      HeadersMissPayloads(g, h, k, x, NULL, old(ram), ram);
      assert Abs() == Account(g, Cut(g, h, k, x), Cut(g, h, k, x).available);
    }

    /** Lines 364-393: unlink the free block y behind header and build one at x instead. */
    method Relocate(header: int, y: int, x: int, ghost j: nat, ghost k: nat, ghost hs: seq<int>)
      requires Linked2() && UsedBits() && k + 1 < |blocks| && blocks[k] == header && blocks[k + 1] == y
      requires j < |free| && free[j] == y && Distinct(blocks) && Distinct(free)
      requires hs == blocks + [x] && x !in RemoveAt(blocks, k + 1) && x != HEAD
      requires forall z :: z in RemoveAt(blocks, k + 1) ==> Survives(z, x)
      modifies this`next, this`prev, this`nextFree, this`prevFree, this`used, this`blocks, this`free, this`ram
      ensures BlockRing() && FreeRing()
      ensures blocks == old(blocks)[k + 1 := x] && free == [x] + RemoveAt(old(free), j)
      ensures x in used && !used[x] && forall b :: b in old(blocks) && b != y && b != x ==> b in used && used[b] == old(used)[b]
      ensures Keeps(g.header, hs, old(ram), ram)
    {
      hide IsRing, Distinct, InHeader;
      RelocateMembers(j, k);
      UnlinkFree(y, j, hs);
      UnlinkBlock(y, k + 1, hs);
      NewHeader(x, hs);
      LinkBlock(header, x, k, hs);
      PushFree(x, hs);
      assert blocks == old(blocks)[k + 1 := x];
    }

    lemma RelocateMembers(j: nat, k: nat)
      requires k + 1 < |blocks| && j < |free| && free[j] == blocks[k + 1] && Distinct(blocks) && Distinct(free)
      ensures forall z :: z in RemoveAt(blocks, k + 1) <==> z in blocks && z != blocks[k + 1]
      ensures forall z :: z in RemoveAt(free, j) <==> z in free && z != free[j]
    {
      RemoveMembers(blocks, k + 1);
      RemoveMembers(free, j);
    }

    lemma GrowFrame(h: Heap, k: nat, x: int)
      requires Sane(g) && Inv(g, h) && k + 2 < |h.blocks| && h.blocks[k] !in h.free && h.blocks[k + 1] in h.free
      requires h.blocks[k + 1] < x && x + g.header <= h.blocks[k + 2]
      ensures Distinct(h.blocks) && Distinct(h.free) && HEAD !in h.blocks && Ascending(h.blocks, g.header)
      ensures forall y :: y in h.free ==> y in h.blocks
      ensures x > HEAD && x !in RemoveAt(h.blocks, k + 1)
      ensures forall z :: z in RemoveAt(h.blocks, k + 1) ==> Survives(z, x)
      ensures Without(h.free, h.blocks[k + 1]) == RemoveAt(h.free, Index(h.free, h.blocks[k + 1]))
      ensures h.blocks[k] + g.header <= h.blocks[k + 1]
    {
      hide FreeBytes;
      AscendingDistinct(h.blocks, g.header);
      NoHead(h);
      AscendingFar(h.blocks, g.header, k, k + 1);
      StartsInPool(g, h, k);
      TiledRemove(g, h.blocks, k + 1);
      var c := RemoveAt(h.blocks, k + 1);
      assert c[k] == h.blocks[k] && c[k + 1] == h.blocks[k + 2];
      TiledInsert(g, c, k, x);
      SurviveInside(h.(blocks := c), k, x);
    }

    /** Cut keeps the invariant; which of its blocks are free. */
    lemma CutBits(h: Heap, k: nat, x: int)
      requires Sane(g) && Inv(g, h) && k + 1 < |h.blocks| && h.blocks[k] !in h.free
      requires h.blocks[k] + g.header <= x
      requires if h.blocks[k + 1] in h.free then k + 2 < |h.blocks| && x + g.header <= h.blocks[k + 2] && x != h.blocks[k + 1]
               else x + g.header <= h.blocks[k + 1]
      ensures var h' := Cut(g, h, k, x);
        && Inv(g, Account(g, h', h'.available))
        && (h'.available >= h.available ==> Inv(g, h'))
        && x in h'.free
        && (forall y :: y in h'.blocks ==> y == x || (y in h.blocks && (h.blocks[k + 1] in h.free ==> y != h.blocks[k + 1])))
        && (forall y :: y in h'.blocks && y != x ==> (y in h'.free <==> y in h.free))
    {
      hide FreeBytes, Distinct, Without;
      CutInv(g, h, k, x);
      var y := h.blocks[k + 1];
      AscendingDistinct(h.blocks, g.header);
      WithoutMembers(h.free, y);
      if y in h.free {
        RemoveMembers(h.blocks, k + 1);
        ReplaceIs(h.blocks, k + 1, x);
        InsertMembers(RemoveAt(h.blocks, k + 1), k + 1, x);
      } else {
        InsertMembers(h.blocks, k + 1, x);
      }
    }

    /** Lines 433-485: the tail of a used block becomes free, merged with a free right neighbour. */
    method Shrink(header: int, n: nat, ghost k: nat)
      requires Valid() && k + 1 < |blocks| && blocks[k] == header && header !in free
      requires n + g.header + MINIALLOC < Gap(g, blocks, k)
      modifies this
      ensures Valid()
      ensures Abs() == Cut(g, old(Abs()), k, header + g.header + n)
      ensures PayloadsKept(g, old(Abs()), header, old(ram), ram)
      ensures forall z :: header + g.header <= z < header + g.header + n && z in old(ram) ==> ram[z] == old(ram)[z]
    {
      hide FreeBytes, Distinct, IsRing, Coalesced, PayloadsKept, InHeader, Inv, Keeps, Without, UsedStay, Ascending;
      ghost var h, x := Abs(), header + g.header + n;
      ghost var hs := blocks + [x];
      ShrinkFrame(h, k, x);
      CutBits(h, k, x);
      var newPtr := header + g.header + n;
      NewHeader(newPtr, hs);
      ghost var ram1 := ram;
      LinkBlock(header, newPtr, k, hs);
      KeepsTrans(g.header, hs, old(ram), ram1, ram);
      ghost var ram2 := ram;
      Attach(header, newPtr, k, h, hs);
      KeepsTrans(g.header, hs, old(ram), ram2, ram);
      HeadersMissPayloads(g, h, k, x, header, old(ram), ram);
      OwnPrefix(h, k, x, old(ram), ram);
    }

    /** Lines 455-485, the new free block at x already being linked at position k + 1. */
    method Attach(header: int, x: int, ghost k: nat, ghost h: Heap, ghost hs: seq<int>)
      requires BlockRing() && FreeRing() && k + 1 < |h.blocks| && blocks == InsertAt(h.blocks, k + 1, x) && free == h.free
      requires available == h.available && maxUsed == h.maxUsed && h.blocks[|h.blocks| - 1] !in h.free
      requires hs == h.blocks + [x] && x !in h.blocks && x != HEAD && HEAD !in h.blocks && Distinct(h.free)
      requires h.blocks[k + 1] in used && (used[h.blocks[k + 1]] <==> h.blocks[k + 1] !in free)
      requires forall y :: y in free ==> y in h.blocks
      modifies this`next, this`prev, this`nextFree, this`prevFree, this`blocks, this`free, this`available, this`ram
      ensures BlockRing() && FreeRing() && Abs() == Cut(g, h, k, x)
      ensures Keeps(g.header, hs, old(ram), ram)
    {
      hide IsRing, InHeader;
      NextOf(k + 1);
      assert blocks[k + 1] == x && blocks[k + 2] == h.blocks[k + 1];
      if !used[next[x]] {
        var freePtr := next[x];
        NextOf(k + 2);
        available := available - (next[freePtr] - freePtr - g.header);
        ghost var j := Index(free, freePtr);
        UnlinkBlock(freePtr, k + 2, hs);
        UnlinkFree(freePtr, j, hs);
        assert blocks == h.blocks[k + 1 := x];
      }
      PushFree(x, hs);
      NextOf(k + 1);
      available := available + (next[x] - x - g.header);
    }

    lemma ShrinkFrame(h: Heap, k: nat, x: int)
      requires Sane(g) && Inv(g, h) && k + 1 < |h.blocks| && h.blocks[k] !in h.free
      requires h.blocks[k] + g.header <= x && x + g.header < h.blocks[k + 1]
      ensures Distinct(h.free) && HEAD !in h.blocks && Ascending(h.blocks, g.header)
      ensures h.blocks[|h.blocks| - 1] !in h.free && (forall y :: y in h.free ==> y in h.blocks)
      ensures x > HEAD && x !in h.blocks && forall z :: z in h.blocks ==> Survives(z, x)
      ensures h.blocks[k + 1] in h.free ==> k + 2 < |h.blocks| && h.blocks[k + 1] + g.header <= h.blocks[k + 2]
    {
      hide FreeBytes;
      NoHead(h);
      StartsInPool(g, h, k);
      TiledInsert(g, h.blocks, k, x);
      SurviveInside(h, k, x);
      if k + 2 < |h.blocks| { AscendingFar(h.blocks, g.header, k + 1, k + 2); }
    }

    /** The payload kept by a shrink lies in front of the new header. */
    lemma OwnPrefix(h: Heap, k: nat, x: int, ram: map<int, byte>, ram': map<int, byte>)
      requires Ascending(h.blocks, g.header) && k + 1 < |h.blocks| && x <= h.blocks[k + 1]
      requires Keeps(g.header, h.blocks + [x], ram, ram')
      ensures forall z :: h.blocks[k] + g.header <= z < x && z in ram ==> ram'[z] == ram[z]
    {
      var b := h.blocks;
      forall z | b[k] + g.header <= z < x && z in ram ensures ram'[z] == ram[z] {
        forall t | 0 <= t <= |b| ensures !((b + [x])[t] <= z < (b + [x])[t] + g.header) {
          if t < |b| && t != k { PayloadInside(g, b, k, t, z); }
        }
      }
    }

    /** The payload of a live block other than `own` reads the same. */
    lemma OwnBytes(h: Heap, k: nat, own: int, p: int, n: int, ram: map<int, byte>, ram': map<int, byte>)
      requires Sane(g) && Inv(g, h) && k + 1 < |h.blocks| && h.blocks[k] !in h.free && h.blocks[k] != own
      requires p == h.blocks[k] + g.header && n <= Gap(g, h.blocks, k)
      requires forall z :: g.start <= z < g.start + g.pool ==> z in ram
      requires PayloadsKept(g, h, own, ram, ram')
      ensures Copied(ram, p, ram', p, n)
    {
      StartsInPool(g, h, k);
      StartsInPool(g, h, k + 1);
      forall z | 0 <= z < n ensures SameByte(ram, p, ram', p, z) {
        assert PayloadOf(g, h.blocks, k, p + z);
        assert LiveByte(g, h, own, p + z);
      }
    }

    /** An allocation leaves the other live payloads where they are, and its own block clear of them. */
    lemma AllocPayloads(h: Heap, n: nat)
      requires Sane(g) && Inv(g, h)
      ensures var (h', q) := MemHeapSpec.Alloc(g, h, n);
        q != NULL ==>
          && (var i := Index(h'.blocks, q - g.header); i + 1 < |h'.blocks| && Gap(g, h'.blocks, i) >= Request(g, n))
          && (forall own, z :: LiveByte(g, h, own, z) ==> LiveByte(g, h', own, z) && !(q <= z < q + Request(g, n)))
    {
      var r := Request(g, n);
      var j := Fit(g, h, r, 0);
      if r < h.available && j < |h.free| {
        var k := Index(h.blocks, h.free[j]);
        assert h.free[j] in h.free;
        TakePayloads(h, k, r);
      }
    }

    /** Where a block other than k is after block k was taken. */
    lemma OtherBlock(h: Heap, k: nat, n: nat, i: nat)
      requires k + 1 < |h.blocks| && i + 1 < |h.blocks| && i != k
      ensures var b, b' := h.blocks, Take(g, h, k, n).blocks;
        var i' := if i < k || b' == b then i else i + 1;
        i' + 1 < |b'| && b'[i'] == b[i] && b'[i' + 1] == b[i + 1]
    {
      hide Without;
    }

    lemma TakePayloads(h: Heap, k: nat, n: nat)
      requires Sane(g) && Inv(g, h) && k + 1 < |h.blocks| && h.blocks[k] in h.free
      requires MINIALLOC <= n <= Gap(g, h.blocks, k)
      ensures var h', q := Take(g, h, k, n), h.blocks[k] + g.header;
        && Index(h'.blocks, h.blocks[k]) == k && k + 1 < |h'.blocks| && Gap(g, h'.blocks, k) >= n
        && (forall own, z :: LiveByte(g, h, own, z) ==> LiveByte(g, h', own, z) && !(q <= z < q + n))
    {
      hide FreeBytes, Without;
      var h', q, b := Take(g, h, k, n), h.blocks[k] + g.header, h.blocks;
      TakeInv(g, h, k, n);
      AscendingDistinct(h'.blocks, g.header);
      assert h'.blocks[k] == b[k];
      IndexUnique(h'.blocks, k);
      forall own, z | LiveByte(g, h, own, z) ensures LiveByte(g, h', own, z) && !(q <= z < q + n) {
        var i :| PayloadOf(g, b, i, z) && b[i] !in h.free && b[i] != own;
        PayloadInside(g, b, i, k, z);
        var i' := if i < k || h'.blocks == b then i else i + 1;
        OtherBlock(h, k, n, i);
        assert PayloadOf(g, h'.blocks, i', z);
      }
    }

    /** Lines 409-414: a new block, a copy, and the old block is freed. */
    method Move(p: int, n: nat, oldsize: nat, ghost k: nat) returns (q: int)
      requires Valid() && k + 1 < |blocks| && p == blocks[k] + g.header && blocks[k] !in free
      requires n > oldsize == Gap(g, blocks, k)
      modifies this
      ensures Valid()
      ensures var (h', q') := MemHeapSpec.Alloc(g, old(Abs()), n);
        q == q' && Abs() == if q' == NULL then h' else MemHeapSpec.Free(g, h', p)
      ensures PayloadsKept(g, old(Abs()), p - g.header, old(ram), ram)
      ensures q == NULL ==> PayloadsKept(g, old(Abs()), NULL, old(ram), ram)
      ensures q != NULL ==> Copied(old(ram), p, ram, q, oldsize)
    {
      hide FreeBytes, Distinct, IsRing, Coalesced, Inv, UsedStay, Ascending, MemHeapSpec.Alloc, MemHeapSpec.Free, LiveByte;
      ghost var h, ram0 := Abs(), ram;
      AllocInv(g, h, n);
      AllocPayloads(h, n);
      MoveFrame(h, k, p, n);
      q := Alloc(n);
      KeptWeaker(h, NULL, p - g.header, ram0, ram);
      if q != NULL {
        ghost var h1, ram1 := Abs(), ram;
        OwnBytes(h, k, NULL, p, oldsize, ram0, ram1);
        ram := Memcpy(ram, q, p, oldsize);
        ghost var ram2 := ram;
        assert Abs() == h1;
        CopiedTrans(ram0, p, ram1, p, ram2, q, oldsize);
        Free(p);
        OwnBytes(h1, Index(h1.blocks, q - g.header), p - g.header, q, oldsize, ram2, ram);
        CopiedTrans(ram0, p, ram2, q, ram, q, oldsize);
        assert forall z :: z in ram && LiveByte(g, h, p - g.header, z) ==> ram[z] == ram0[z];
      }
    }

    lemma KeptWeaker(h: Heap, own: int, own': int, ram: map<int, byte>, ram': map<int, byte>)
      requires PayloadsKept(g, h, own, ram, ram') && own !in h.blocks
      ensures PayloadsKept(g, h, own', ram, ram')
    {
      forall z | z in ram && LiveByte(g, h, own', z) ensures ram'[z] == ram[z] {
        var i :| PayloadOf(g, h.blocks, i, z) && h.blocks[i] !in h.free && h.blocks[i] != own';
        assert LiveByte(g, h, own, z);
      }
    }

    /** Old and new block of a move: both in the pool, apart from each other, the old one still live. */
    lemma MoveFrame(h: Heap, k: nat, p: int, n: nat)
      requires Sane(g) && Inv(g, h) && k + 1 < |h.blocks| && h.blocks[k] !in h.free && p == h.blocks[k] + g.header
      requires n > Gap(g, h.blocks, k)
      ensures NULL !in h.blocks && p != NULL && n <= Request(g, n)
      ensures var (h', q) := MemHeapSpec.Alloc(g, h, n); q != NULL ==>
        && Live(g, h', p) && q != p
        && g.start <= p && p + Gap(g, h.blocks, k) <= g.start + g.pool
        && g.start <= q && q + n <= g.start + g.pool
        && (p + Gap(g, h.blocks, k) <= q || q + Gap(g, h.blocks, k) <= p)
    {
      hide FreeBytes, MemHeapSpec.Alloc, Coalesced, Distinct;
      NoHead(h);
      StartsInPool(g, h, k);
      StartsInPool(g, h, k + 1);
      AlignUp(n, g.align);
      AscendingFar(h.blocks, g.header, k, |h.blocks| - 1);
      var (h', q) := MemHeapSpec.Alloc(g, h, n);
      AllocInv(g, h, n);
      AllocPayloads(h, n);
      if q != NULL {
        var i := Index(h'.blocks, q - g.header);
        StartsInPool(g, h', i);
        StartsInPool(g, h', i + 1);
        var gap, z := Gap(g, h.blocks, k), Max(p, q);
        if p <= z < p + gap {
          assert PayloadOf(g, h.blocks, k, z);
          assert LiveByte(g, h, NULL, z);
        }
      }
    }

    /** rt_memheap_realloc.  The bytes both sizes have in common survive, wherever the block
        ends up, and no other live payload is disturbed; a failed call changes no payload at all. */
    method Realloc(p: int, size: nat) returns (q: int)
      requires Valid() && (p == NULL || Live(g, Abs(), p))
      modifies this
      ensures Valid()
      ensures (Abs(), q) == MemHeapSpec.Realloc(g, old(Abs()), p, size)
      ensures PayloadsKept(g, old(Abs()), p - g.header, old(ram), ram)
      ensures q == NULL && size > 0 ==> PayloadsKept(g, old(Abs()), NULL, old(ram), ram)
      ensures p != NULL && q != NULL ==> Copied(old(ram), p, ram, q,
                if BlockSize(g, old(Abs()), p - g.header) < Request(g, size)
                then BlockSize(g, old(Abs()), p - g.header) else Request(g, size))
    {
      hide FreeBytes, Distinct, IsRing, Coalesced, Ascending, MemHeapSpec.Alloc, MemHeapSpec.Free, LiveByte, Cut;
      if size == 0 {
        Free(p);
        return NULL;
      }
      var n := Align(size, g.align);
      if n < MINIALLOC {
        n := MINIALLOC;
      }
      ghost var h := Abs();
      NoHead(h);
      if p == NULL {
        q := Alloc(n);
        KeptWeaker(h, NULL, p - g.header, old(ram), ram);
        return;
      }
      q := Resize(p, n);
    }

    /** Lines 311-491 */
    method Resize(p: int, n: nat) returns (q: int)
      requires Valid() && p != NULL && Live(g, Abs(), p) && n >= MINIALLOC
      modifies this
      ensures Valid()
      ensures var k := Index(old(blocks), p - g.header);
        && k + 1 < |old(blocks)|
        && PayloadsKept(g, old(Abs()), p - g.header, old(ram), ram)
        && (q == NULL ==> PayloadsKept(g, old(Abs()), NULL, old(ram), ram))
        && var gap := Gap(g, old(blocks), k);
        && (q != NULL ==> Copied(old(ram), p, ram, q, if gap < n then gap else n))
        && (Abs(), q) ==
           if n > gap then
             if CanGrow(g, old(Abs()), k, n) then
               var h' := Cut(g, old(Abs()), k, p + n);
               (Account(g, h', h'.available), p)
             else
               var (h', q') := MemHeapSpec.Alloc(g, old(Abs()), n);
               if q' == NULL then (h', NULL) else (MemHeapSpec.Free(g, h', p), q')
           else if n + g.header + MINIALLOC >= gap then (old(Abs()), p)
           else (Cut(g, old(Abs()), k, p + n), p)
    {
      hide FreeBytes, Distinct, IsRing, Coalesced, Ascending, MemHeapSpec.Alloc, MemHeapSpec.Free, LiveByte, Cut, Inv;
      var header := p - g.header;
      ghost var h, k := Abs(), Index(blocks, header);
      ResizeFrame(h, k, p);
      NextOf(k);
      var oldsize := next[header] - header - g.header;
      if n > oldsize {
        var y := next[header];
        if !used[y] {
          GapOf(k + 1);
          if next[y] - y - g.header + oldsize > n + MINIALLOC {
            GrowInPlace(header, n, k);
            OwnBytes(h, k, NULL, p, oldsize, old(ram), ram);
            KeptWeaker(h, NULL, header, old(ram), ram);
            return p;
          }
        }
        q := Move(p, n, oldsize, k);
        return;
      }
      if n + g.header + MINIALLOC >= oldsize {
        OwnBytes(h, k, NULL, p, n, old(ram), ram);
        return p;
      }
      Shrink(header, n, k);
      PrefixCopied(p, n, old(ram), ram);
      return p;
    }

    lemma GapOf(i: nat)
      requires BlockRing() && i < |blocks| && blocks[|blocks| - 1] !in free && (i + 1 == |blocks| ==> blocks[i] in free)
      ensures i + 1 < |blocks| && blocks[i] in next && next[blocks[i]] == blocks[i + 1]
    {
      NextOf(i);
    }

    lemma ResizeFrame(h: Heap, k: nat, p: int)
      requires Sane(g) && Inv(g, h) && Live(g, h, p) && k == Index(h.blocks, p - g.header)
      ensures k + 1 < |h.blocks| && NULL !in h.blocks && h.blocks[|h.blocks| - 1] !in h.free
      ensures g.start <= p && h.blocks[k + 1] <= g.start + g.pool
      ensures h.blocks[k] + g.header <= h.blocks[k + 1]
    {
      NoHead(h);
      StartsInPool(g, h, k);
      StartsInPool(g, h, k + 1);
      AscendingFar(h.blocks, g.header, k, k + 1);
    }
  }
}
