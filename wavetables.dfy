/**
 * The integer one-cycle waveform tables built once at start-up:
 * square, triangle, saw up, saw down and silence (`generate_*` in synth.c,
 * `make_*` in messed-up-synth.c). The two files differ only in MAX_VALUE
 * (32766 in synth.c, 32767 in messed-up-synth.c), which is a parameter here.
 * Every store into the int16_t table goes through the C narrowing cast I16.
 */
module Wavetables {
  import opened CInt

  /** CHUNK_SIZE in synth.c, WAVE_SIZE in messed-up-synth.c. */
  const WaveSize: nat := 4096
  /** MAX_VALUE in synth.c. */
  const SynthMaxValue: int := 32766
  /** MAX_VALUE in messed-up-synth.c. */
  const MessedMaxValue: int := 32767
  /** MIN_VALUE in both files. */
  const MinValue: int := -32767

  predicate ValidMax(maxValue: int) { 0 < maxValue < Two15 }

  /** The value the triangle builder computes for entry i (before the int16 store). */
  function TriValue(size: nat, maxValue: int, i: nat): int
    requires size > 0
  {
    var quarter := size / 4;
    if i < quarter then (4 * maxValue * i) / size
    else if i < 3 * quarter then maxValue - (4 * maxValue * (i - quarter)) / size
    else MinValue + (4 * maxValue * (i - 3 * quarter)) / size
  }

  /** generate_sqr / make_sqr: the first half of the table is MAX_VALUE, the rest MIN_VALUE. */
  method MakeSqr(table: array<Int16>, size: nat, maxValue: int)
    requires size <= table.Length && ValidMax(maxValue)
    modifies table
    ensures forall i :: 0 <= i < size ==> table[i] == if i < size / 2 then maxValue else MinValue
    ensures table[size..] == old(table[size..])
  {
    for i := 0 to size
      invariant forall k :: 0 <= k < i ==> table[k] == if k < size / 2 then maxValue else MinValue
      invariant table[size..] == old(table[size..])
    {
      if i < size / 2 {
        table[i] := I16(maxValue);
      } else {
        table[i] := I16(MinValue);
      }
    }
  }

  /** generate_tri / make_tri: three linear segments, stored through the int16 cast. */
  method MakeTri(table: array<Int16>, size: nat, maxValue: int)
    requires size <= table.Length && ValidMax(maxValue)
    modifies table
    ensures forall i :: 0 <= i < size ==> table[i] == I16(TriValue(size, maxValue, i))
    ensures table[size..] == old(table[size..])
  {
    var quarter := size / 4;
    for i := 0 to size
      invariant forall k :: 0 <= k < i ==> table[k] == I16(TriValue(size, maxValue, k))
      invariant table[size..] == old(table[size..])
    {
      if i < quarter {
        table[i] := I16((4 * maxValue * i) / size);
      } else if i < 3 * quarter {
        table[i] := I16(maxValue - (4 * maxValue * (i - quarter)) / size);
      } else {
        table[i] := I16(MinValue + (4 * maxValue * (i - 3 * quarter)) / size);
      }
    }
  }

  /** generate_sawup / make_sawup: an accumulator that starts at 0 and grows by MAX_VALUE/size. */
  method MakeSawUp(table: array<Int16>, size: nat, maxValue: int)
    requires 0 < size <= table.Length && ValidMax(maxValue)
    modifies table
    ensures forall i :: 0 <= i < size ==> table[i] == i * (maxValue / size)
    ensures table[size..] == old(table[size..])
  {
    var acc := 0;
    var rate := maxValue / size;
    for i := 0 to size
      invariant acc == i * rate
      invariant forall k :: 0 <= k < i ==> table[k] == k * rate
      invariant table[size..] == old(table[size..])
    {
      SawStepInRange(size, maxValue, i);
      table[i] := I16(acc);
      acc := acc + rate;
    }
  }

  /** generate_sawdown / make_sawdown: an accumulator that starts at MAX_VALUE and falls by MAX_VALUE/size. */
  method MakeSawDown(table: array<Int16>, size: nat, maxValue: int)
    requires 0 < size <= table.Length && ValidMax(maxValue)
    modifies table
    ensures forall i :: 0 <= i < size ==> table[i] == maxValue - i * (maxValue / size)
    ensures table[size..] == old(table[size..])
  {
    var acc := maxValue;
    var rate := maxValue / size;
    for i := 0 to size
      invariant acc == maxValue - i * rate
      invariant forall k :: 0 <= k < i ==> table[k] == maxValue - k * rate
      invariant table[size..] == old(table[size..])
    {
      SawStepInRange(size, maxValue, i);
      table[i] := I16(acc);
      acc := acc - rate;
    }
  }

  /** generate_none / make_none: the silence table, every entry 0. */
  method MakeNone(table: array<Int16>, size: nat)
    requires size <= table.Length
    modifies table
    ensures forall i :: 0 <= i < size ==> table[i] == 0
    ensures table[size..] == old(table[size..])
  {
    for i := 0 to size
      invariant forall k :: 0 <= k < i ==> table[k] == 0
      invariant table[size..] == old(table[size..])
    {
      table[i] := 0;
    }
  }

  /** The saw accumulators never leave [0, MAX_VALUE], so the int16 store keeps them exact. */
  lemma SawStepInRange(size: nat, maxValue: int, i: nat)
    requires 0 <= i < size && ValidMax(maxValue)
    ensures 0 <= i * (maxValue / size) <= maxValue
  {
    var rate := maxValue / size;
    MulMonoLe(rate, i, size);
    assert size * rate <= maxValue;
  }

  /**
   * For a size that is a multiple of 4 every triangle entry lies in
   * [MIN_VALUE, MAX_VALUE], so the int16 cast never wraps.
   */
  lemma TriInRange(size: nat, maxValue: int, i: nat)
    requires size > 0 && size % 4 == 0 && i < size && ValidMax(maxValue)
    ensures MinValue <= TriValue(size, maxValue, i) <= maxValue
    ensures I16(TriValue(size, maxValue, i)) == TriValue(size, maxValue, i)
  {
    var q := size / 4;
    assert size == 4 * q;
    if i < q {
      SegmentQuotient(maxValue, i, q, 1);
    } else if i < 3 * q {
      SegmentQuotient(maxValue, i - q, q, 2);
    } else {
      SegmentQuotient(maxValue, i - 3 * q, q, 1);
    }
  }

  /** One triangle segment: a step count below c quarters gives a rise below c * MAX_VALUE. */
  lemma SegmentQuotient(m: int, j: int, q: int, c: int)
    requires 0 < m && 0 < q && 0 < c && 0 <= j < c * q
    ensures 0 <= (4 * m * j) / (4 * q) < c * m
  {
    var a := 4 * m;
    var d := 4 * q;
    var x := a * j;
    MulMonoLe(a, j, c * q - 1);
    MulMonoLe(a, 0, j);
    Rearrange(a, c, q, m);
    assert x < (c * m) * d;
    DivLt(x, c * m, d);
    var r := NatDiv(x, d);
  }

  /** `4m (cq - 1) == cm (4q) - 4m`, written for a = 4m. */
  lemma Rearrange(a: int, c: int, q: int, m: int)
    requires a == 4 * m
    ensures a * (c * q - 1) == (c * m) * (4 * q) - a
  {
    calc {
      a * (c * q - 1);
      a * (c * q) - a;
      (4 * m) * (c * q) - a;
      (c * m) * (4 * q) - a;
    }
  }

  /** The saw-up table is non-decreasing. */
  lemma SawUpNonDecreasing(size: nat, maxValue: int, i: nat, j: nat)
    requires 0 < size && i <= j && ValidMax(maxValue)
    ensures i * (maxValue / size) <= j * (maxValue / size)
  {
    MulMonoLe(maxValue / size, i, j);
  }

  /** The saw-down table is non-increasing. */
  lemma SawDownNonIncreasing(size: nat, maxValue: int, i: nat, j: nat)
    requires 0 < size && i <= j && ValidMax(maxValue)
    ensures maxValue - i * (maxValue / size) >= maxValue - j * (maxValue / size)
  {
    MulMonoLe(maxValue / size, i, j);
  }
}
