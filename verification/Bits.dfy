/** Bitwise operations on natural numbers and the find-first-set routine of src/kservice.c. */
module Bits {
  import opened Arith

  /** Bit k of w. */
  predicate Bit(w: nat, k: nat)
    decreases k
  {
    if k == 0 then w % 2 == 1 else Bit(w / 2, k - 1)
  }

  /** a | b */
  function Or(a: nat, b: nat): nat {
    if a == 0 then b else if b == 0 then a
    else 2 * Or(a / 2, b / 2) + (if a % 2 == 1 || b % 2 == 1 then 1 else 0)
  }

  /** a & ~b */
  function AndNot(a: nat, b: nat): nat {
    if a == 0 then 0 else 2 * AndNot(a / 2, b / 2) + (if a % 2 == 1 && b % 2 == 0 then 1 else 0)
  }

  /** 1 << k */
  function Shl(k: nat): (w: nat)
    ensures w > 0
  {
    if k == 0 then 1 else 2 * Shl(k - 1)
  }

  /** w >> n */
  function Shr(w: nat, n: nat): nat {
    DivNat(w, Shl(n));
    w / Shl(n)
  }

  lemma DivNat(w: nat, m: nat)
    requires m > 0
    ensures w / m >= 0
  {
  }

  lemma {:induction false} ZeroBits(k: nat)
    ensures !Bit(0, k)
  {
    if k > 0 { ZeroBits(k - 1); }
  }

  lemma {:induction false} OrBits(a: nat, b: nat, k: nat)
    ensures Bit(Or(a, b), k) <==> Bit(a, k) || Bit(b, k)
    decreases k
  {
    ZeroBits(k);
    if a != 0 && b != 0 {
      var m := Or(a / 2, b / 2);
      assert Or(a, b) / 2 == m;
      if k > 0 { OrBits(a / 2, b / 2, k - 1); }
    }
  }

  lemma {:induction false} AndNotBits(a: nat, b: nat, k: nat)
    ensures Bit(AndNot(a, b), k) <==> Bit(a, k) && !Bit(b, k)
    decreases k
  {
    ZeroBits(k);
    if a != 0 {
      var m := AndNot(a / 2, b / 2);
      assert AndNot(a, b) / 2 == m;
      if k > 0 { AndNotBits(a / 2, b / 2, k - 1); }
    }
  }

  lemma {:induction false} ShlBits(n: nat, k: nat)
    ensures Bit(Shl(n), k) <==> k == n
    decreases k
  {
    if n == 0 {
      if k > 0 { ZeroBits(k - 1); }
    } else {
      assert Shl(n) / 2 == Shl(n - 1);
      if k > 0 { ShlBits(n - 1, k - 1); }
    }
  }

  /** A number is zero exactly when it has no bit. */
  lemma {:induction false} SomeBit(w: nat) returns (k: nat)
    requires w > 0
    ensures Bit(w, k) && w >= Shl(k)
  {
    if w % 2 == 1 {
      k := 0;
    } else {
      var j := SomeBit(w / 2);
      k := j + 1;
    }
  }

  /** Setting or clearing bits of a word of n bits stays within n bits. */
  lemma {:induction false} OrBound(a: nat, b: nat, n: nat)
    requires a < Shl(n) && b < Shl(n)
    ensures Or(a, b) < Shl(n)
    decreases n
  {
    if a != 0 && b != 0 && n > 0 { OrBound(a / 2, b / 2, n - 1); }
  }

  lemma {:induction false} AndNotBound(a: nat, b: nat)
    ensures AndNot(a, b) <= a
  {
    if a != 0 { AndNotBound(a / 2, b / 2); }
  }

  lemma {:induction false} ShlMono(i: nat, j: nat)
    requires i <= j
    ensures Shl(i) <= Shl(j)
    decreases j
  {
    if i < j { ShlMono(i, j - 1); }
  }

  /** Dividing by 2^n drops the n lowest bits, the remainder keeps them. */
  lemma {:induction false} HighBits(w: nat, n: nat, k: nat)
    ensures Bit(w, n + k) <==> Bit(Shr(w, n), k)
    decreases n
  {
    hide Bit, Shl;
    if n == 0 {
      ShlZero();
    } else {
      ShlStep(n);
      HalfSplit(w, Shl(n - 1));
      HighBits(w / 2, n - 1, k);
      BitStep(w, n + k);
    }
  }

  lemma ShlZero()
    ensures Shl(0) == 1
  {
  }

  lemma ShlStep(n: nat)
    requires n > 0
    ensures Shl(n) == 2 * Shl(n - 1)
  {
  }

  lemma BitStep(w: nat, k: nat)
    requires k > 0
    ensures Bit(w, k) <==> Bit(w / 2, k - 1)
  {
  }

  lemma {:induction false} LowBits(w: nat, n: nat, k: nat)
    requires k < n
    ensures Bit(w, k) <==> Bit(w % Shl(n), k)
    decreases n
  {
    HalfSplit(w, Shl(n - 1));
    if k > 0 { LowBits(w / 2, n - 1, k - 1); }
  }

  lemma HalfSplit(w: nat, m: nat)
    requires m > 0
    ensures w / 2 / m == w / (2 * m)
    ensures w % (2 * m) / 2 == w / 2 % m && w % (2 * m) % 2 == w % 2
  {
    var q, r := w / 2 / m, w / 2 % m;
    assert w / 2 == q * m + r;
    assert w == 2 * (w / 2) + w % 2;
    assert w == q * (2 * m) + (2 * r + w % 2);
    DivModUnique(w, 2 * m, q, 2 * r + w % 2);
  }

  /** A number is determined by its bits. */
  lemma {:induction false} SameBits(a: nat, b: nat)
    requires forall k: nat :: Bit(a, k) <==> Bit(b, k)
    ensures a == b
    decreases a + b
  {
    assert Bit(a, 0) <==> Bit(b, 0);
    if a != 0 || b != 0 {
      forall k: nat ensures Bit(a / 2, k) <==> Bit(b / 2, k) {
        assert Bit(a, k + 1) <==> Bit(b, k + 1);
      }
      SameBits(a / 2, b / 2);
    }
  }

  /** A word below 2^n has no bit at n or above. */
  lemma {:induction false} BitBound(w: nat, k: nat)
    requires Bit(w, k)
    ensures w >= Shl(k)
    decreases k
  {
    if k > 0 { BitBound(w / 2, k - 1); }
  }

  // ---------------------------------------------------------------- __rt_ffs

  /** One line of the lookup table. */
  function Line(first: nat): seq<nat> {
    [first, 0, 1, 0, 2, 0, 1, 0, 3, 0, 1, 0, 2, 0, 1, 0]
  }

  /** __lowest_bit_bitmap, sixteen entries to a line. */
  const LOWEST_BIT: seq<seq<nat>> := [
    Line(0), Line(4), Line(5), Line(4), Line(6), Line(4), Line(5), Line(4),
    Line(7), Line(4), Line(5), Line(4), Line(6), Line(4), Line(5), Line(4)]

  function Lowest(b: nat): nat
    requires b < 256
  {
    LOWEST_BIT[b / 16][b % 16]
  }

  /** __rt_ffs on a 32-bit word */
  function Ffs(value: nat): int
    requires value < Shl(32)
  {
    if value == 0 then 0
    else if value % 256 != 0 then Lowest(value % 256) + 1
    else if value / 256 % 256 != 0 then Lowest(value / 256 % 256) + 9
    else if value / 65536 % 256 != 0 then Lowest(value / 65536 % 256) + 17
    else Lowest(value / 16777216 % 256) + 25
  }

  /** k is the lowest set bit of w. */
  ghost predicate IsLowest(w: nat, k: nat) {
    Bit(w, k) && forall j: nat :: j < k ==> !Bit(w, j)
  }

  lemma NibbleLowest(b: nat)
    requires 0 < b < 16
    ensures Line(0)[b] < 4 && IsLowest(b, Line(0)[b])
  {
    FirstBits(b);
  }

  lemma FirstBits(w: nat)
    ensures Bit(w, 0) == (w % 2 == 1) && Bit(w, 1) == (w / 2 % 2 == 1)
    ensures Bit(w, 2) == (w / 4 % 2 == 1) && Bit(w, 3) == (w / 8 % 2 == 1)
  {
    assert w / 2 / 2 == w / 4 && w / 4 / 2 == w / 8;
    assert Bit(w, 1) == Bit(w / 2, 0) && Bit(w, 2) == Bit(w / 2, 1) && Bit(w, 3) == Bit(w / 2, 2);
    assert Bit(w / 2, 1) == Bit(w / 4, 0) && Bit(w / 2, 2) == Bit(w / 4, 1);
    assert Bit(w / 4, 1) == Bit(w / 8, 0);
  }

  /** The table is right. */
  lemma TableLowest(b: nat)
    requires 0 < b < 256
    ensures Lowest(b) < 8 && IsLowest(b, Lowest(b))
  {
    var hi, lo := b / 16, b % 16;
    assert Shl(4) == 16 by { assert Shl(2) == 4; }
    if lo != 0 {
      NibbleLowest(lo);
      assert Lowest(b) == Line(0)[lo];
      forall j: nat | j < 4 ensures Bit(b, j) <==> Bit(lo, j) { LowBits(b, 4, j); }
    } else {
      NibbleLowest(hi);
      assert Lowest(b) == 4 + Line(0)[hi];
      forall j: nat | j < 4 ensures !Bit(b, j) { LowBits(b, 4, j); ZeroBits(j); }
      forall j: nat | j < 4 ensures Bit(b, 4 + j) <==> Bit(hi, j) { HighBits(b, 4, j); }
      forall j: nat | j < Lowest(b) ensures !Bit(b, j) {
        if j >= 4 { assert Bit(b, 4 + (j - 4)) <==> Bit(hi, j - 4); }
      }
    }
  }

  /** A lowest bit of the byte at offset n is a lowest bit of the word when the bytes below are zero. */
  lemma ByteLowest(w: nat, n: nat, k: nat)
    requires w % Shl(n) == 0 && k < 8 && IsLowest(w / Shl(n) % 256, k)
    ensures IsLowest(w, n + k)
  {
    hide Shl;
    var m := w / Shl(n);
    assert Shl(8) == 256 by { ByteSizes(); }
    forall j: nat | j <= k ensures Bit(w, n + j) <==> Bit(m % 256, j) {
      LowBits(m, 8, j);
      HighBits(w, n, j);
    }
    forall j: nat | j < n + k ensures !Bit(w, j) {
      if j < n {
        LowBits(w, n, j);
        ZeroBits(j);
      } else {
        assert Bit(w, n + (j - n)) <==> Bit(m % 256, j - n);
      }
    }
  }

  lemma TableLookUp(w: nat, n: nat)
    requires w % Shl(n) == 0 && w / Shl(n) % 256 != 0
    ensures Lowest(w / Shl(n) % 256) < 8 && IsLowest(w, n + Lowest(w / Shl(n) % 256))
  {
    hide Lowest, IsLowest;
    TableLowest(w / Shl(n) % 256);
    ByteLowest(w, n, Lowest(w / Shl(n) % 256));
  }

  /** The same with the divisor written out. */
  lemma ByteLookUp(w: nat, n: nat, d: nat)
    requires d > 0 && d == Shl(n) && w % d == 0 && w / d % 256 != 0
    ensures Lowest(w / d % 256) < 8 && IsLowest(w, n + Lowest(w / d % 256))
  {
    hide Lowest, IsLowest, Shl;
    TableLookUp(w, n);
  }

  /** When the bytes below the place d are zero, the next byte is too exactly for multiples of 256 d. */
  lemma NextByte(w: nat, d: nat)
    requires d > 0 && w % d == 0
    ensures w / d % 256 == 0 <==> w % (256 * d) == 0
  {
    var q := w / d;
    var m, r := q / 256, q % 256;
    assert w == q * d && q == m * 256 + r;
    assert q * d == (m * 256 + r) * d == m * (256 * d) + r * d;
    MulLe(0, r, d);
    MulLe(r, 255, d);
    MulLe(1, r, d);
    DivModUnique(w, 256 * d, m, r * d);
  }

  lemma TopByte(w: nat)
    requires w < 4294967296 && w % 16777216 == 0 && w != 0
    ensures w / 16777216 % 256 != 0
  {
  }

  /** __rt_ffs returns one more than the index of the lowest set bit, and 0 for 0. */
  lemma FfsLowest(value: nat)
    requires value < Shl(32)
    ensures Ffs(value) == 0 <==> value == 0
    ensures value != 0 ==> 1 <= Ffs(value) <= 32 && IsLowest(value, Ffs(value) - 1)
  {
    hide Lowest, IsLowest, Shl;
    ByteSizes();
    if value % 256 == 0 { NextByte(value, 256); }
    if value % 65536 == 0 { NextByte(value, 65536); }
    if value % 256 != 0 {
      ByteLookUp(value, 0, 1);
    } else if value / 256 % 256 != 0 {
      ByteLookUp(value, 8, 256);
    } else if value / 65536 % 256 != 0 {
      ByteLookUp(value, 16, 65536);
    } else if value != 0 {
      TopByte(value);
      ByteLookUp(value, 24, 16777216);
    }
  }

  lemma ByteSizes()
    ensures Shl(0) == 1 && Shl(8) == 256 && Shl(16) == 65536 && Shl(24) == 16777216 && Shl(32) == 4294967296
  {
    assert Shl(2) == 4; assert Shl(4) == 16; assert Shl(6) == 64; assert Shl(8) == 256;
    assert Shl(10) == 1024; assert Shl(12) == 4096; assert Shl(14) == 16384; assert Shl(16) == 65536;
    assert Shl(18) == 262144; assert Shl(20) == 1048576; assert Shl(22) == 4194304; assert Shl(24) == 16777216;
    assert Shl(26) == 67108864; assert Shl(28) == 268435456; assert Shl(30) == 1073741824; assert Shl(32) == 4294967296;
  }
}
