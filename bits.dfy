/** Python's bitwise operators on non-negative integers.

    The drivers compute wire bytes with `&`, `|`, `<<` and `>>` on Python
    integers, which are unbounded.  Dafny has these operators only on
    bit-vectors, so this module defines them on `nat`, bit by bit, and proves
    the arithmetic facts the codec and the window encoding rely on. */
module Bits {

  function Pow2(n: nat): (r: nat)
    ensures r >= 1
  {
    if n == 0 then 1 else 2 * Pow2(n - 1)
  }

  /** `x << k`: `k` doublings */
  function Shl(x: nat, k: nat): nat
  {
    if k == 0 then x else 2 * Shl(x, k - 1)
  }

  /** `x >> k`: `k` times dropping the lowest bit */
  function Shr(x: nat, k: nat): nat
  {
    if k == 0 then x else Shr(x / 2, k - 1)
  }

  /** `a & b`, one bit at a time from the least significant bit */
  function And(a: nat, b: nat): nat
    decreases a
  {
    if a == 0 || b == 0 then 0
    else 2 * And(a / 2, b / 2) + (if a % 2 == 1 && b % 2 == 1 then 1 else 0)
  }

  /** `a | b`, one bit at a time from the least significant bit */
  function Or(a: nat, b: nat): nat
    decreases a
  {
    if a == 0 then b
    else if b == 0 then a
    else 2 * Or(a / 2, b / 2) + (if a % 2 == 1 || b % 2 == 1 then 1 else 0)
  }

  /** The bit-by-bit recursion of `&` holds for zero operands too. */
  lemma AndHalf(a: nat, b: nat)
    ensures And(a, b) == 2 * And(a / 2, b / 2) + (if a % 2 == 1 && b % 2 == 1 then 1 else 0)
  {
    if a == 0 {
      assert And(0, b / 2) == 0;
    } else if b == 0 {
      assert And(a / 2, 0) == 0;
    }
  }

  /** `a & b` has no bit that `a` or `b` lacks, so it is at most either. */
  lemma {:induction false} AndAtMost(a: nat, b: nat)
    ensures And(a, b) <= a && And(a, b) <= b
    decreases a
  {
    if a != 0 && b != 0 {
      AndAtMost(a / 2, b / 2);
    }
  }

  /** The bit-by-bit recursion of `|` holds for zero operands too. */
  lemma OrHalf(a: nat, b: nat)
    ensures Or(a, b) == 2 * Or(a / 2, b / 2) + (if a % 2 == 1 || b % 2 == 1 then 1 else 0)
  {
    if a == 0 {
      assert Or(0, b / 2) == b / 2;
    } else if b == 0 {
      assert Or(a / 2, 0) == a / 2;
    }
  }

  /** Division with remainder is unique; for a positive divisor Dafny's `/` and `%` are Python's
      `//` and `%`, also on negative numbers. */
  lemma DivModUnique(x: int, m: nat, q: int, r: nat)
    requires m > 0 && r < m && x == m * q + r
    ensures x / m == q && x % m == r
  {
    var q', r' := x / m, x % m;
    assert m * q + r == m * q' + r';
    if q' < q {
      MulMonotone(m, q' + 1, q);
    } else if q < q' {
      MulMonotone(m, q + 1, q');
    }
  }

  lemma MulMonotone(m: nat, a: int, b: int)
    requires a <= b
    ensures m * a <= m * b
  {
  }

  /** Shifting left by `k` multiplies by `2^k`. */
  lemma {:induction false} ShlMul(x: nat, k: nat)
    ensures Shl(x, k) == x * Pow2(k)
  {
    if k > 0 {
      ShlMul(x, k - 1);
      assert x * Pow2(k) == 2 * (x * Pow2(k - 1));
    }
  }

  /** `x` is what `x >> n` keeps, shifted back, plus what `x & (2^n - 1)` keeps. */
  lemma {:induction false} AndLowMask(x: nat, n: nat)
    ensures And(x, Pow2(n) - 1) < Pow2(n)
    ensures x == Shl(Shr(x, n), n) + And(x, Pow2(n) - 1)
  {
    if n == 0 {
      assert And(x, 0) == 0;
    } else {
      var m := Pow2(n) - 1;
      assert m % 2 == 1 && m / 2 == Pow2(n - 1) - 1;
      AndLowMask(x / 2, n - 1);
      AndHalf(x, m);
    }
  }

  /** The arithmetic reading of AndLowMask at a given power `p = 2^k`:
      `x >> k` is `x / p` and `x & (p - 1)` is `x % p`. */
  lemma ShrDiv(x: nat, k: nat, p: nat)
    requires p == Pow2(k)
    ensures Shr(x, k) == x / p && And(x, p - 1) == x % p
  {
    var q, r := Shr(x, k), And(x, p - 1);
    AndLowMask(x, k);
    ShlMul(q, k);
    assert x == p * q + r;
    DivModUnique(x, p, q, r);
  }

  /** `x << k` at a given power `p = 2^k` is `x * p`. */
  lemma ShlBy(x: nat, k: nat, p: nat)
    requires p == Pow2(k)
    ensures Shl(x, k) == x * p
  {
    ShlMul(x, k);
  }

  /** A mask whose low `k` bits are clear selects bits of `x >> k`, then shifts them back. */
  lemma {:induction false} AndShl(x: nat, m: nat, k: nat)
    ensures And(x, Shl(m, k)) == Shl(And(Shr(x, k), m), k)
  {
    if k > 0 {
      AndShl(x / 2, m, k - 1);
      AndHalf(x, Shl(m, k));
    }
  }

  /** A mask of `j` ones above `k` zeros keeps `x` rounded down to a multiple of `2^k`,
      when `x` has no bits above those `j + k`. */
  lemma AndTop(x: nat, k: nat, p: nat, j: nat, q: nat)
    requires p == Pow2(k) && q == Pow2(j) && x / p < q
    ensures And(x, Shl(q - 1, k)) == (x / p) * p
  {
    AndShl(x, q - 1, k);
    ShrDiv(x, k, p);
    var h := x / p;
    ShrDiv(h, j, q);
    DivModUnique(h, q, 0, h);
    ShlBy(h, k, p);
  }

  /** `a | b` is `a + b` when the bits of `b` lie below the bits `a << k` can have. */
  lemma {:induction false} OrShl(h: nat, b: nat, k: nat)
    requires b < Pow2(k)
    ensures Or(Shl(h, k), b) == Shl(h, k) + b
  {
    if k == 0 {
      assert b == 0;
    } else {
      OrShl(h, b / 2, k - 1);
      OrHalf(Shl(h, k), b);
    }
  }

  /** `b & 2^k` is `2^k` or `0` as bit `k` of `b` is one or zero. */
  lemma AndBit(b: nat, k: nat)
    ensures And(b, Pow2(k)) == Shl(Shr(b, k) % 2, k)
  {
    ShlMul(1, k);
    AndShl(b, 1, k);
    AndHalf(Shr(b, k), 1);
    assert And(Shr(b, k) / 2, 0) == 0;
  }

  /** The sixteen-bit split used by both drivers: `x >> 8`, `(x >> 8) & 0xFF` and `x & 0xFF`. */
  lemma HighLowBytes(x: nat)
    requires x < 0x10000
    ensures Shr(x, 8) == x / 256 < 256
    ensures And(Shr(x, 8), 0xFF) == x / 256
    ensures And(x, 0xFF) == x % 256
  {
    assert Pow2(8) == 256;
    ShrDiv(x, 8, 256);
    ShrDiv(x / 256, 8, 256);
  }
}
