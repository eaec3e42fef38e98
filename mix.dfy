/**
 * The sample arithmetic the per-frame mixers of synth.c and
 * messed-up-synth.c share: accumulating into an int16 buffer slot
 * (`buffer[i] += x`, which narrows the sum back to int16), applying an
 * envelope value as a Q15 gain (`(int16_t)(((int32_t)s * e) >> 15)`), and
 * scaling by an amplitude fraction (`s * top / bot`).
 */
module Mix {
  import opened CInt

  /** `buffer[i] += x` on an int16 slot. */
  function Accumulate(slot: int, x: int): Int16
  {
    I16(slot + x)
  }

  /** `(int16_t)(((int32_t)s * e) >> 15)`: a sample scaled by a Q15 envelope value. */
  function ApplyEnvelope(s: int, e: int): Int16
  {
    I16(Shr15(s * e))
  }

  /** `s * top / bot` with C's truncating division. */
  function ScaleBy(s: int, top: int, bot: int): int
    requires bot != 0
  {
    CDiv(s * top, bot)
  }

  /**
   * Accumulating in int16 step by step wraps the same way as summing
   * exactly and narrowing once: the slot only ever holds the int16 image of
   * the running sum.
   */
  lemma AccumulateWraps(a: int, x: int)
    ensures Accumulate(I16(a), x) == I16(a + x)
  {
    var m := a % Two16;
    ModAddLeft(a, x, Two16);
    if m >= Two15 {
      ModAddMultiple(m + x, Two16, -1);
      assert m - Two16 + x == (m + x) + Two16 * -1;
    }
  }

  /**
   * An envelope value in [0, 32767] is a gain below 1: the result lies
   * between 0 and the sample, so for an int16 sample the final cast never
   * wraps.
   */
  lemma EnvelopeAttenuates(s: Int16, e: int)
    requires 0 <= e <= 32767
    ensures ApplyEnvelope(s, e) == Shr15(s * e)
    ensures s >= 0 ==> 0 <= ApplyEnvelope(s, e) <= s
    ensures s < 0 ==> s <= ApplyEnvelope(s, e) <= 0
  {
    var r := Shr15(s * e);
    if s >= 0 {
      MulMonoLe(s, 0, e);
      MulMonoLe(s, e, Two15);
      if r < 0 {
        MulMonoLe(Two15, r + 1, 0);
        assert false;
      }
      if r > s {
        MulMonoLe(Two15, s + 1, r);
        assert false;
      }
    } else {
      MulMonoLe(-(s as int), 0, e);
      MulMonoLe(-(s as int), e, Two15);
      if r > 0 {
        MulMonoLe(Two15, 1, r);
        assert false;
      }
      if r < s {
        MulMonoLe(Two15, r + 1, s);
        assert false;
      }
    }
  }

  /**
   * An amplitude fraction top/bot in [0, 1] never amplifies: the scaled
   * sample has the magnitude of the input at most.
   */
  lemma ScaleAttenuates(s: int, top: int, bot: int)
    requires 0 <= top <= bot && bot != 0
    ensures Abs(ScaleBy(s, top, bot)) <= Abs(s)
    ensures s >= 0 ==> ScaleBy(s, top, bot) >= 0
    ensures s <= 0 ==> ScaleBy(s, top, bot) <= 0
  {
    assert Abs(s * top) == Abs(s) * top;
    MulMonoLe(Abs(s), top, bot);
    if Abs(s * top) / bot > Abs(s) {
      MulMonoLe(bot, Abs(s) + 1, Abs(s * top) / bot);
      assert false;
    }
  }
}
