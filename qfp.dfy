/**
 * The Q17.15 fixed-point split of messed-up-synth.c (`qfpwhole`,
 * `qfpfrac`): the whole part is an arithmetic right shift by 15 and the
 * fraction is the low 15 bits, `q & 0x7fff`, which on a two's complement
 * value is its remainder modulo 2^15.
 */
module Qfp {
  import opened CInt

  /** QSFT in the configuration compiled in. */
  const FracBits: nat := 15
  /** QMSK + 1. */
  const One: nat := 0x8000

  /** `qfpwhole`: `q >> QSFT`, rounding toward minus infinity for negative values. */
  function Whole(q: Int32): (r: int)
    ensures -0x1_0000 <= r < 0x1_0000
  {
    Shr15(q)
  }

  /** `qfpfrac`: `q & QMSK`; together with the whole part it rebuilds q exactly. */
  function Frac(q: Int32): (r: UInt32)
    ensures r <= 0x7fff
    ensures Whole(q) * One + r == q
  {
    q % One
  }

  /** The split is unique: any whole part and 15-bit fraction that rebuild q are the ones computed. */
  lemma SplitUnique(q: Int32, w: int, f: int)
    requires 0 <= f < One && w * One + f == q
    ensures w == Whole(q) && f == Frac(q)
  {
    DivModUnique(q, One, w, f);
  }
}
