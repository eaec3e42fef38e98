/**
 * What the delta-stepping eight-stage envelopes of a2.c, a3.c and a4.c
 * share: eight int16 breakpoint levels, eight uint32 stage lengths in
 * samples, and the per-sample delta of a stage,
 * `(levels[k+1] - levels[k]) / (int32_t)rates[k]` with C's truncation.
 */
module Breakpoint {
  import opened CInt

  /** The number of stages: the length of `levels[]` and `rates[]`. */
  const Stages: int := 8

  /** The two tables of an envelope. */
  predicate Tables(levels: seq<Int16>, rates: seq<UInt32>)
  {
    |levels| == Stages && |rates| == Stages
  }

  /** How far stage k moves the level: `levels[k+1] - levels[k]`, computed in int. */
  function Rise(levels: seq<Int16>, k: int): int
    requires 0 <= k < |levels| - 1
  {
    levels[k + 1] as int - levels[k] as int
  }

  /**
   * The delta of stage k. Its size never exceeds the level difference; for
   * a stage length below 2^31 (so that the int32 cast keeps it) it is the
   * difference divided by the length, truncated toward zero, and k's length
   * in steps of it ends less than one length away from `levels[k+1]`.
   */
  function StageDelta(levels: seq<Int16>, rates: seq<UInt32>, k: int): (r: int)
    requires Tables(levels, rates) && 0 <= k < Stages - 1 && rates[k] != 0
    ensures Abs(r) <= Abs(Rise(levels, k))
    ensures rates[k] < Two31 ==> Abs(r) == Abs(Rise(levels, k)) / rates[k]
    ensures rates[k] < Two31 ==> Abs(levels[k] + rates[k] * r - levels[k + 1]) < rates[k]
    ensures rates[k] < Two31 && levels[k] <= levels[k + 1] ==> 0 <= r
    ensures rates[k] < Two31 && levels[k + 1] <= levels[k] ==> r <= 0
  {
    var diff := Rise(levels, k);
    DeltaBounds(diff, rates[k]);
    CDiv(diff, I32(rates[k]))
  }

  /** The facts about `diff / (int32_t)rate` that `StageDelta` promises. */
  lemma DeltaBounds(diff: int, rate: int)
    requires 0 < rate < Two32
    ensures I32(rate) != 0
    ensures Abs(CDiv(diff, I32(rate))) <= Abs(diff)
    ensures rate < Two31 ==> Abs(CDiv(diff, I32(rate))) == Abs(diff) / rate
    ensures rate < Two31 ==> Abs(rate * CDiv(diff, I32(rate)) - diff) < rate
    ensures rate < Two31 && 0 <= diff ==> 0 <= CDiv(diff, I32(rate))
    ensures rate < Two31 && diff <= 0 ==> CDiv(diff, I32(rate)) <= 0
  {
    var b := I32(rate);
    var q := CDiv(diff, b);
    QuotientAtMost(Abs(diff), Abs(b));
    if rate < Two31 {
      assert b == rate;
      assert q * b + CRem(diff, b) == diff;
    }
  }

  /** Dividing by at least 1 does not grow a natural number. */
  lemma QuotientAtMost(a: nat, b: nat)
    requires b >= 1
    ensures a / b <= a
  {
    if a / b > a {
      MulMonoLe(b, a + 1, a / b);
      MulMonoLe(a + 1, 1, b);
      assert false;
    }
  }
}
