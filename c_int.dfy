/**
 * C integer semantics used throughout the synthesiser sources: the fixed-width
 * integer types as subsets of `int`, the unsigned wrap-around of uint16/uint32/
 * uint64 arithmetic, the narrowing casts to int16/int32 (two's complement, as
 * gcc performs them), C's truncating `/` and `%`, and the arithmetic right shift
 * of signed values.
 */
module CInt {

  const Two15: int := 0x8000
  const Two16: int := 0x1_0000
  const Two31: int := 0x8000_0000
  const Two32: int := 0x1_0000_0000
  const Two64: int := 0x1_0000_0000_0000_0000

  type Int16 = x: int | -0x8000 <= x < 0x8000
  type Int32 = x: int | -0x8000_0000 <= x < 0x8000_0000
  type UInt16 = x: int | 0 <= x < 0x1_0000
  type UInt32 = x: int | 0 <= x < 0x1_0000_0000
  type UInt64 = x: int | 0 <= x < 0x1_0000_0000_0000_0000

  function Abs(x: int): nat { if x < 0 then -x else x }

  /** Conversion of any integer value to uint16: reduction modulo 2^16. */
  function U16(x: int): (r: UInt16)
    ensures 0 <= x < Two16 ==> r == x
  {
    x % Two16
  }

  /** Conversion of any integer value to uint32 (and uint32 arithmetic): reduction modulo 2^32. */
  function U32(x: int): (r: UInt32)
    ensures 0 <= x < Two32 ==> r == x
    ensures Two32 <= x < 2 * Two32 ==> r == x - Two32
    ensures -Two32 <= x < 0 ==> r == x + Two32
  {
    x % Two32
  }

  /** Conversion to uint64 (and unsigned long long arithmetic): reduction modulo 2^64. */
  function U64(x: int): (r: UInt64)
    ensures 0 <= x < Two64 ==> r == x
  {
    x % Two64
  }

  /** The narrowing cast `(int16_t)x`: the value congruent to x modulo 2^16 in [-2^15, 2^15). */
  function I16(x: int): (r: Int16)
    ensures -Two15 <= x < Two15 ==> r == x
    ensures (x - r) % Two16 == 0
  {
    var m := x % Two16;
    if m < Two15 then m else m - Two16
  }

  /** The cast `(int32_t)u`: the value congruent to u modulo 2^32 in [-2^31, 2^31). */
  function I32(x: int): (r: int)
    ensures -Two31 <= r < Two31
    ensures -Two31 <= x < Two31 ==> r == x
    ensures 0 <= x < Two32 ==> r == x || r == x - Two32
    ensures (x - r) % Two32 == 0
  {
    var m := x % Two32;
    if m < Two31 then m else m - Two32
  }

  /** C's `a / b`: the quotient truncated toward zero (C11 6.5.5). */
  function CDiv(a: int, b: int): (q: int)
    requires b != 0
    ensures Abs(q) == Abs(a) / Abs(b)
    ensures q > 0 ==> (a > 0) == (b > 0)
    ensures q < 0 ==> (a > 0) != (b > 0)
  {
    var q0: int := NatDiv(Abs(a), Abs(b));
    if (a < 0) == (b < 0) then q0 else -q0
  }

  /** Division of a non-negative value by a positive one (C and Dafny agree here). */
  function NatDiv(n: nat, d: nat): (q: nat)
    requires d > 0
    ensures q == n / d
    ensures q > 0 ==> n > 0
  {
    n / d
  }

  /** C's `a % b`: the remainder of the truncating division; it has the sign of `a`. */
  function CRem(a: int, b: int): (r: int)
    requires b != 0
    ensures CDiv(a, b) * b + r == a
    ensures Abs(r) < Abs(b)
    ensures a >= 0 ==> 0 <= r
    ensures a <= 0 ==> r <= 0
  {
    var q := CDiv(a, b);
    assert q * b == Abs(a) / Abs(b) * Abs(b) || q * b == -(Abs(a) / Abs(b) * Abs(b));
    a - q * b
  }

  /** `x >> 8` on a signed value (arithmetic shift): rounds toward minus infinity. */
  function Shr8(x: int): (r: int)
    ensures r * 0x100 <= x < r * 0x100 + 0x100
  {
    x / 0x100
  }

  /** `x >> 15` on a signed value (arithmetic shift): rounds toward minus infinity. */
  function Shr15(x: int): (r: int)
    ensures r * Two15 <= x < r * Two15 + Two15
  {
    x / Two15
  }

  /** `x >> 16` on a signed or unsigned value: rounds toward minus infinity. */
  function Shr16(x: int): (r: int)
    ensures r * Two16 <= x < r * Two16 + Two16
  {
    x / Two16
  }

  /** Euclidean quotient and remainder are unique. */
  lemma DivModUnique(x: int, m: int, q: int, r: int)
    requires 0 < m && 0 <= r < m && x == m * q + r
    ensures x / m == q && x % m == r
  {
    var q' := x / m;
    var r' := x % m;
    assert m * q' + r' == m * q + r;
    if q' < q {
      MulAtLeast(m, q - q');
      assert false;
    } else if q' > q {
      MulAtLeast(m, q' - q);
      assert false;
    }
  }

  lemma {:induction false} MulAtLeast(m: int, d: int)
    requires 0 < m && 1 <= d
    ensures m * d >= m
    decreases d
  {
    if d > 1 {
      MulAtLeast(m, d - 1);
      assert m * d == m * (d - 1) + m;
    }
  }

  /** Reducing modulo a multiple of m first does not change the remainder modulo m. */
  lemma ModOfMod(x: int, m: int, k: int)
    requires 0 < m && 0 < k
    ensures (x % (m * k)) % m == x % m
  {
    var big := m * k;
    var r := x % big;
    var q := x / big;
    assert x == big * q + r;
    var r1 := r % m;
    var q1 := r / m;
    assert r == m * q1 + r1;
    assert x == m * (k * q + q1) + r1 by {
      assert big * q == m * (k * q);
    }
    DivModUnique(x, m, k * q + q1, r1);
  }

  /** Adding a multiple of m does not change the remainder modulo m. */
  lemma ModAddMultiple(x: int, m: int, k: int)
    requires 0 < m
    ensures (x + m * k) % m == x % m
  {
    var q := x / m;
    var r := x % m;
    assert x + m * k == m * (q + k) + r;
    DivModUnique(x + m * k, m, q + k, r);
  }

  /** Reducing a summand modulo m first does not change the remainder of the sum. */
  lemma ModAddLeft(x: int, y: int, m: int)
    requires 0 < m
    ensures (x % m + y) % m == (x + y) % m
  {
    var q := x / m;
    assert x + y == (x % m + y) + m * q;
    ModAddMultiple(x % m + y, m, q);
  }

  /** Counting one more in uint32 after wrapping is wrapping the larger count. */
  lemma U32Inc(x: int, y: int)
    requires y == x + 1
    ensures U32(U32(x) + 1) == U32(y)
  {
    ModAddLeft(x, 1, Two32);
  }

  /** j times d is j - 1 times d and one more d. */
  lemma MulStep(j: int, d: int)
    ensures (j - 1) * d + d == j * d
  {
  }

  /** Anything times a zero factor is zero. */
  lemma MulByZero(a: int, d: int)
    requires d == 0
    ensures a * d == 0
  {
  }

  /** Multiplying by a non-negative factor preserves order. */
  lemma MulMonoLe(d: int, x: int, y: int)
    requires 0 <= d && x <= y
    ensures d * x <= d * y
  {
    if x < y {
      if d > 0 {
        MulAtLeast(d, y - x);
      }
      assert d * y - d * x == d * (y - x);
    }
  }

  /** A non-negative value below c * d has a quotient by d below c. */
  lemma DivLt(a: int, c: int, d: int)
    requires 0 <= a && 0 < d && a < c * d
    ensures a / d < c
  {
    if a / d >= c {
      MulMonoLe(d, c, a / d);
      assert false;
    }
  }

  /** Reducing a non-negative value never makes it larger. */
  lemma ModAtMost(x: int, m: int)
    requires 0 <= x && 0 < m
    ensures x % m <= x
  {
    var q := NatDiv(x, m);
    MulMonoLe(m, 0, q);
  }

  /** On a non-negative dividend and a positive divisor C's `%` is the ordinary remainder. */
  lemma CRemNonNeg(a: int, b: int)
    requires 0 <= a && 0 < b
    ensures CRem(a, b) == a % b
  {
    var q := CDiv(a, b);
    assert q == a / b;
    DivModUnique(a, b, q, CRem(a, b));
  }
}
