/**
 * The oscillator `osc_t` of messed-up-synth.c (`osc_init`, `osc_wave`,
 * `osc_freq`, `osc_sample`): a SIGNED int32 accumulator in Q17.15 that
 * is wrapped with C's truncating `%` by `wrap = len << 15`, so that a
 * negative increment walks the table backwards with a non-positive phase.
 * The double fields (`freq`, `modf`) are not values here: the increment is
 * an integer input, and `modSource` stands for the cached modulation value
 * `modf` (it is the modulator's `processed` sample that `modf` was computed
 * from, 0 initially, as the zero-initialised global holds 0.0).
 */
module Osc {
  import opened CInt

  /** QSFT in the configuration compiled in (Q17.15). */
  const FracBits: nat := 15
  /** `1 << QSFT`: one table entry in accumulator units (`scale`). */
  const Scale: nat := 0x8000

  datatype OscState = OscState(
    wave: seq<Int16>,
    len: nat,
    wrap: int,
    inc: int,
    acc: int,
    raw: Int16,
    processed: Int16,
    ismod: bool,
    fmo: int,
    modSource: Int16)

  /** `(int32_t)(len << fps)`: the accumulator span of one cycle, as stored in the int32 field. */
  function WrapFor(len: nat): (r: int)
    ensures 0 < len < 0x1_0000 ==> r == len * Scale
  {
    I32(len * Scale)
  }

  /** A table to read, a length that keeps `index % len` in it, and a non-zero wrap. */
  predicate Ready(s: OscState)
  {
    0 < s.len <= |s.wave| && s.wrap != 0
  }

  /** `(uint32_t)(acc >> fps)`: the arithmetic shift, then reinterpretation as unsigned. */
  function RawIndex(acc: int): UInt32
  {
    U32(Shr15(acc))
  }

  /** The entry `osc_sample` reads: `wave[index % len]`, always inside the table. */
  function ReadIndex(s: OscState): (r: nat)
    requires Ready(s)
    ensures r < s.len
  {
    RawIndex(s.acc) % s.len
  }

  /** The value `osc_sample` returns (and stores in `raw`). */
  function Current(s: OscState): Int16
    requires Ready(s)
  {
    s.wave[ReadIndex(s)]
  }

  /**
   * The state after `osc_sample`: `raw` holds the sample read, and the phase
   * is `(acc + inc) % wrap` with C's remainder, which keeps the sign of the
   * sum and stays strictly inside (-|wrap|, |wrap|).
   */
  function Advance(s: OscState): (r: OscState)
    requires Ready(s)
    ensures Ready(r)
    ensures Abs(r.acc) < Abs(s.wrap)
    ensures s.acc + s.inc >= 0 ==> r.acc >= 0
    ensures s.acc + s.inc <= 0 ==> r.acc <= 0
    ensures r.raw == Current(s)
    ensures r == s.(acc := r.acc, raw := r.raw)
  {
    s.(raw := Current(s), acc := CRem(s.acc + s.inc, s.wrap))
  }

  /** `osc_sample` as a value. */
  function Step(s: OscState): (Int16, OscState)
    requires Ready(s)
  {
    (Current(s), Advance(s))
  }

  /** The state after n calls of `osc_sample`. */
  function Run(s: OscState, n: nat): (r: OscState)
    requires Ready(s)
    ensures Ready(r)
    decreases n
  {
    if n == 0 then s else Advance(Run(s, n - 1))
  }

  /**
   * With a positive wrap, a phase in [0, wrap) and a non-negative increment,
   * C's remainder is the ordinary one: n calls leave the phase at the start
   * plus n increments, modulo wrap.
   */
  lemma {:induction false} RunForward(s: OscState, n: nat)
    requires Ready(s) && s.wrap > 0 && 0 <= s.acc < s.wrap && s.inc >= 0
    ensures Run(s, n).acc == (s.acc + n * s.inc) % s.wrap
    ensures Run(s, n).inc == s.inc && Run(s, n).wrap == s.wrap
    decreases n
  {
    if n > 0 {
      RunForward(s, n - 1);
      ForwardOneMore(s, n);
    } else {
      DivModUnique(s.acc, s.wrap, 0, s.acc);
    }
  }

  /** If n - 1 calls left the phase at the start plus n - 1 increments, n calls leave it one increment further. */
  lemma ForwardOneMore(s: OscState, n: nat)
    requires Ready(s) && s.wrap > 0 && 0 <= s.acc < s.wrap && s.inc >= 0 && n > 0
    ensures Run(s, n - 1).acc == (s.acc + (n - 1) * s.inc) % s.wrap && Run(s, n - 1).inc == s.inc && Run(s, n - 1).wrap == s.wrap
      ==> Run(s, n).acc == (s.acc + n * s.inc) % s.wrap && Run(s, n).inc == s.inc && Run(s, n).wrap == s.wrap
  {
    var t := Run(s, n - 1);
    if t.acc == (s.acc + (n - 1) * s.inc) % s.wrap && t.inc == s.inc && t.wrap == s.wrap {
      var x := s.acc + (n - 1) * s.inc;
      CRemNonNeg(t.acc + t.inc, t.wrap);
      ModAddLeft(x, t.inc, t.wrap);
      MulStep(n, s.inc);
    }
  }

  /**
   * For a table whose length divides 2^32 (every table here has 4096
   * entries) the uint32 reinterpretation of a negative index is harmless:
   * the entry read is the shifted phase taken modulo the length, so a
   * negative phase reads the table counted back from its end.
   */
  lemma ReadIndexPowerOfTwo(s: OscState)
    requires Ready(s) && Two32 % s.len == 0
    ensures ReadIndex(s) == Shr15(s.acc) % s.len
  {
    var k := Two32 / s.len;
    assert s.len * k == Two32;
    ModOfMod(Shr15(s.acc), s.len, k);
  }

  /**
   * When `len << 15` fits in an int32 and the phase lies in [0, wrap), the
   * entry read is exactly the integer part of the phase.
   */
  lemma ReadsIntegerPart(s: OscState)
    requires Ready(s) && s.len < 0x1_0000 && s.wrap == WrapFor(s.len)
    requires 0 <= s.acc < s.wrap
    ensures ReadIndex(s) == s.acc / Scale
  {
    DivLt(s.acc, s.len, Scale);
    DivModUnique(s.acc / Scale, s.len, 0, s.acc / Scale);
  }

  /** An `osc_t` updated in place through its pointer. */
  class Oscillator {
    var wave: seq<Int16>
    var len: nat
    var wrap: int
    var inc: int
    var acc: int
    var raw: Int16
    var processed: Int16
    var ismod: bool
    var fmo: int
    var modSource: Int16

    function State(): OscState
      reads this
    {
      OscState(wave, len, wrap, inc, acc, raw, processed, ismod, fmo, modSource)
    }

    /** `osc_init`: attach the table, phase 0, not a modulator, no FM source. */
    constructor Init(table: seq<Int16>, size: nat, increment: int)
      ensures State() == OscState(table, size, WrapFor(size), increment, 0, 0, 0, false, -1, 0)
    {
      wave := table;
      len := size;
      wrap := I32(size * Scale);
      inc := increment;
      acc := 0;
      raw := 0;
      processed := 0;
      ismod := false;
      fmo := -1;
      modSource := 0;
    }

    /** `osc_wave`: a new table and length, the wrap and increment recomputed, the phase kept. */
    method SetWave(table: seq<Int16>, size: nat, increment: int)
      modifies this
      ensures State() == old(State()).(wave := table, len := size, wrap := WrapFor(size), inc := increment)
    {
      wave := table;
      len := size;
      wrap := I32(size * Scale);
      inc := increment;
    }

    /** `osc_freq`: a new increment, everything else kept. */
    method SetFrequency(increment: int)
      modifies this
      ensures State() == old(State()).(inc := increment)
    {
      inc := increment;
    }

    /** `osc_sample`. */
    method Sample() returns (current: Int16)
      requires Ready(State())
      modifies this
      ensures (current, State()) == Step(old(State()))
    {
      var index := U32(Shr15(acc));
      current := wave[index % len];
      raw := current;
      acc := acc + inc;
      acc := CRem(acc, wrap);
    }
  }
}
