/** Small arithmetic that several components share. */
module Arith {

  function Max(a: int, b: int): int { if a < b then b else a }

  /** RT_ALIGN */
  function Align(n: nat, a: nat): nat
    requires a > 0
  {
    (n + a - 1) / a * a
  }

  lemma AlignUp(n: nat, a: nat)
    requires a > 0
    ensures n <= Align(n, a) < n + a
  {
    var m := n + a - 1;
    assert m == m / a * a + m % a;
  }

  /** Multiplication by a factor that is not negative keeps the order. */
  lemma MulLe(i: int, j: int, f: int)
    requires f >= 0
    ensures i <= j ==> i * f <= j * f
  {
    if i <= j { MulLeNat(i, j - i, f); }
  }

  lemma {:induction false} MulLeNat(i: int, d: nat, f: int)
    requires f >= 0
    ensures i * f <= (i + d) * f
  {
    if d > 0 {
      MulLeNat(i, d - 1, f);
      assert (i + d) * f == (i + d - 1) * f + f;
    }
  }

  lemma DivModUnique(w: int, m: int, q: int, r: int)
    requires m > 0 && 0 <= r < m && w == q * m + r
    ensures w / m == q && w % m == r
  {
    var d := w / m - q;
    assert w == (w / m) * m + w % m;
    assert d * m == r - w % m;
    MulLe(1, d, m);
    MulLe(d, -1, m);
  }

  predicate Multiple(x: int, a: nat)
    requires a > 0
  {
    x % a == 0
  }

  lemma MultipleOf(q: int, a: nat)
    requires a > 0
    ensures Multiple(q * a, a)
  {
    DivModUnique(q * a, a, q, 0);
  }

  lemma MultipleSum(x: int, y: int, a: nat)
    requires a > 0 && Multiple(x, a)
    ensures Multiple(x + y, a) <==> Multiple(y, a)
  {
    assert x + y == (x / a + y / a) * a + y % a;
    DivModUnique(x + y, a, x / a + y / a, y % a);
  }

  lemma AlignMultiple(n: nat, a: nat)
    requires a > 0
    ensures Multiple(Align(n, a), a)
  {
    MultipleOf((n + a - 1) / a, a);
  }

  lemma AlignTwice(n: nat, a: nat)
    requires a > 0
    ensures Align(Align(n, a), a) == Align(n, a)
  {
    var q := (n + a - 1) / a;
    DivModUnique(q * a + a - 1, a, q, a - 1);
  }
}
