/**
 * The amplitude-as-fraction helpers of synth.c: `agcd`, Euclid's loop with
 * C's truncating `%`, and `calc_ratio`, which turns an amplitude scaled by
 * 10000 into the reduced fraction `top/bot`. The scaled amplitude
 * `(int)(oa * 10000)` is computed in double and is an input here.
 */
module Ratio {
  import opened CInt

  /** `precision` in `calc_ratio`. */
  const Precision: int := 10000

  /** d divides x. */
  predicate Divides(d: int, x: int)
    requires d > 0
  {
    x % d == 0
  }

  /** The positive common divisors of a and b. */
  predicate CommonDivisor(d: int, a: int, b: int)
    requires d > 0
  {
    Divides(d, a) && Divides(d, b)
  }

  /** A common divisor of x and y divides x - k*y. */
  lemma DividesCombination(d: int, x: int, y: int, k: int)
    requires d > 0 && Divides(d, x) && Divides(d, y)
    ensures Divides(d, x - k * y)
  {
    var p := x / d;
    var q := y / d;
    assert x == d * p;
    assert y == d * q;
    assert x - k * y == d * (p - k * q);
    DivModUnique(x - k * y, d, p - k * q, 0);
  }

  /** One step of Euclid's loop keeps the set of common divisors. */
  lemma EuclidStep(d: int, a: int, b: int)
    requires d > 0 && b != 0
    ensures CommonDivisor(d, a, b) <==> CommonDivisor(d, b, CRem(a, b))
  {
    var q := CDiv(a, b);
    assert CRem(a, b) == a - q * b;
    if CommonDivisor(d, a, b) {
      DividesCombination(d, a, b, q);
    }
    if CommonDivisor(d, b, CRem(a, b)) {
      DividesCombination(d, CRem(a, b), b, -q);
      assert CRem(a, b) - (-q) * b == a;
    }
  }

  /**
   * `agcd`: the result's positive divisors are exactly the common divisors
   * of the arguments, so it is their greatest common divisor up to sign;
   * it is positive for the non-negative, not-both-zero arguments `calc_ratio` passes.
   */
  method Agcd(a0: int, b0: int) returns (g: int)
    ensures forall d :: d > 0 ==> (Divides(d, g) <==> CommonDivisor(d, a0, b0))
    ensures 0 <= a0 && 0 <= b0 && (a0 != 0 || b0 != 0) ==> g > 0
  {
    var a := a0;
    var b := b0;
    while b != 0
      invariant forall d :: d > 0 ==> (CommonDivisor(d, a, b) <==> CommonDivisor(d, a0, b0))
      invariant 0 <= a0 && 0 <= b0 ==> 0 <= a && 0 <= b
      invariant (a0 != 0 || b0 != 0) ==> (a != 0 || b != 0)
      decreases Abs(b)
    {
      var temp := CRem(a, b);
      forall d | d > 0
        ensures CommonDivisor(d, a, b) <==> CommonDivisor(d, b, temp)
      {
        EuclidStep(d, a, b);
      }
      a := b;
      b := temp;
    }
    g := a;
  }

  /**
   * `calc_ratio`: `bot = 10000 / gcd` is positive, `top = ip / gcd`
   * is exact, `top / bot` equals `ip / 10000` as a fraction, the fraction
   * is in lowest terms, and an amplitude of 0 gives 0/1.
   */
  method CalcRatio(ip: Int32) returns (top: int, bot: int)
    requires ip != -Two31
    ensures bot > 0 && top * Precision == ip * bot
    ensures forall d :: d > 1 ==> !CommonDivisor(d, top, bot)
    ensures ip == 0 ==> top == 0 && bot == 1
  {
    var g := Agcd(Abs(ip), Precision);
    assert Divides(g, Precision) && Divides(g, Abs(ip)) by {
      assert Divides(g, g);
    }
    assert Divides(g, ip) by {
      if ip < 0 {
        DividesCombination(g, 0, Abs(ip), 1);
      }
    }
    top := CDiv(ip, g);
    bot := CDiv(Precision, g);
    ExactQuotient(ip, g);
    ExactQuotient(Precision, g);
    assert top * g == ip && bot * g == Precision;
    assert bot > 0 by {
      if bot <= 0 {
        MulMonoLe(g, bot, 0);
        assert false;
      }
    }
    assert top * Precision == ip * bot by {
      calc {
        top * Precision;
        top * (bot * g);
        (top * g) * bot;
        ip * bot;
      }
    }
    forall d | d > 1
      ensures !CommonDivisor(d, top, bot)
    {
      if CommonDivisor(d, top, bot) {
        ScaledDivisor(d, g, top, ip);
        ScaledDivisor(d, g, bot, Precision);
        assert CommonDivisor(d * g, Abs(ip), Precision) by {
          if ip < 0 {
            DividesCombination(d * g, 0, ip, 1);
          }
        }
        assert Divides(d * g, g);
        MulMonoLe(g, 2, d);
        DivisorAtMost(d * g, g);
        assert false;
      }
    }
    if ip == 0 {
      assert Divides(Precision, 0);
      assert Divides(Precision, Precision);
      assert Divides(g, Precision);
      assert Divides(Precision, g);
      DivisorAtMost(Precision, g);
      DivisorAtMost(g, Precision);
    }
  }

  /** When g divides x, C's quotient is exact. */
  lemma ExactQuotient(x: int, g: int)
    requires g > 0 && Divides(g, x)
    ensures CDiv(x, g) * g == x
  {
    var q := x / g;
    assert x == g * q;
    if x >= 0 {
      DivModUnique(Abs(x), g, q, 0);
    } else {
      assert Abs(x) == g * (-q);
      DivModUnique(Abs(x), g, -q, 0);
    }
  }

  /** If d divides y and y * g == x, then d * g divides x. */
  lemma ScaledDivisor(d: int, g: int, y: int, x: int)
    requires d > 0 && g > 0 && Divides(d, y) && y * g == x
    ensures Divides(d * g, x)
  {
    var k := y / d;
    assert y == d * k;
    assert x == (d * g) * k;
    DivModUnique(x, d * g, k, 0);
  }

  /** A positive divisor of a positive x is at most x. */
  lemma DivisorAtMost(d: int, x: int)
    requires d > 0 && x > 0 && Divides(d, x)
    ensures d <= x
  {
    var k := x / d;
    assert x == d * k;
    if k <= 0 {
      MulMonoLe(d, k, 0);
      assert false;
    }
    MulAtLeast(d, k);
  }
}
