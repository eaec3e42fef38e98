/**
 * The direct digital synthesis oscillator (`DDS`, `dds_init`, `dds_mod`,
 * `dds_step`), identical in synth.c and messed-up-synth.c: a uint32 phase
 * accumulator with 8 fractional bits indexes a 4096-entry table through
 * a uint16 truncation and the mask 4095, then advances by the increment
 * with uint32 wrap-around.
 */
module Dds {
  import opened CInt
  import Wavetables

  /** 2^20: one full trip through the 4096-entry table in accumulator units. */
  const TableSpan: int := 0x10_0000

  /** The value of a `DDS` struct. */
  datatype DdsState = DdsState(phaseAccumulator: UInt32, phaseIncrement: UInt32)

  /**
   * The table index `dds_step` reads: `(uint16_t)(acc >> 8) & PHASE_MASK`.
   * The uint16 truncation loses nothing the mask keeps.
   */
  function ReadIndex(acc: UInt32): (r: nat)
    ensures r < Wavetables.WaveSize
    ensures r == (acc / 256) % Wavetables.WaveSize
  {
    ModOfMod(acc / 256, 4096, 16);
    U16(acc / 256) % 4096
  }

  /** The sample `dds_step` returns for the state before the step. */
  function Sample(s: DdsState, table: seq<Int16>): Int16
    requires |table| == Wavetables.WaveSize
  {
    table[ReadIndex(s.phaseAccumulator)]
  }

  /** The state after `dds_step`: the accumulator advanced with uint32 wrap. */
  function Advance(s: DdsState): DdsState
  {
    s.(phaseAccumulator := U32(s.phaseAccumulator + s.phaseIncrement))
  }

  /** `dds_step` as a value: the sample read and the state after the step. */
  function Step(s: DdsState, table: seq<Int16>): (Int16, DdsState)
    requires |table| == Wavetables.WaveSize
  {
    (Sample(s, table), Advance(s))
  }

  /** The state after n calls of `dds_step`. */
  function Run(s: DdsState, n: nat): DdsState
    decreases n
  {
    if n == 0 then s else Advance(Run(s, n - 1))
  }

  /** After n steps the accumulator is the start plus n increments, modulo 2^32. */
  lemma {:induction false} RunClosedForm(s: DdsState, n: nat)
    ensures Run(s, n).phaseIncrement == s.phaseIncrement
    ensures Run(s, n).phaseAccumulator == (s.phaseAccumulator + n * s.phaseIncrement) % Two32
    decreases n
  {
    if n > 0 {
      RunClosedForm(s, n - 1);
      var prev := s.phaseAccumulator + (n - 1) * s.phaseIncrement;
      ModAddLeft(prev, s.phaseIncrement, Two32);
      assert prev + s.phaseIncrement == s.phaseAccumulator + n * s.phaseIncrement;
    }
  }

  /** Any whole number of 2^32 steps brings an oscillator back to its starting state. */
  lemma RunFullCycles(s: DdsState, n: nat)
    requires n % Two32 == 0
    ensures Run(s, n) == s
  {
    RunClosedForm(s, n);
    var m := n / Two32;
    var inc: int := s.phaseIncrement;
    var acc: int := s.phaseAccumulator;
    WordMultiple(n, m, inc);
    ModAddMultiple(acc, Two32, m * inc);
    DivModUnique(acc, Two32, 0, acc);
    assert (acc + Two32 * (m * inc)) % Two32 == acc;
    assert (acc + n * inc) % Two32 == acc;
    assert Run(s, n).phaseAccumulator == acc;
  }

  lemma WordMultiple(n: nat, m: int, inc: int)
    requires n % Two32 == 0 && m == n / Two32
    ensures n * inc == Two32 * (m * inc)
  {
    assert n == Two32 * m;
  }

  /** The index read depends only on the low 20 bits of the accumulator. */
  lemma ReadIndexLowBits(acc: UInt32)
    ensures ReadIndex(acc) == (acc % TableSpan) / 256
  {
    var q := acc / TableSpan;
    var r := acc % TableSpan;
    var lo := r / 256;
    assert acc == TableSpan * q + r;
    assert acc == 256 * (4096 * q + lo) + r % 256;
    DivModUnique(acc, 256, 4096 * q + lo, r % 256);
    DivLt(r, 4096, 256);
    DivModUnique(acc / 256, 4096, q, lo);
  }

  /**
   * Whenever n increments add up to whole trips through the table, the
   * oscillator reads the same entry again after n steps.
   */
  lemma SamplePeriodic(s: DdsState, table: seq<Int16>, n: nat)
    requires |table| == Wavetables.WaveSize
    requires (n * s.phaseIncrement) % TableSpan == 0
    ensures Sample(Run(s, n), table) == Sample(s, table)
  {
    RunClosedForm(s, n);
    var x := s.phaseAccumulator + n * s.phaseIncrement;
    var k := (n * s.phaseIncrement) / TableSpan;
    assert n * s.phaseIncrement == TableSpan * k;
    ModOfMod(x, TableSpan, 4096);
    ModAddMultiple(s.phaseAccumulator, TableSpan, k);
    ReadIndexLowBits(Run(s, n).phaseAccumulator);
    ReadIndexLowBits(s.phaseAccumulator);
  }

  /** A `DDS` struct updated in place through its pointer. */
  class Dds {
    var phaseAccumulator: UInt32
    var phaseIncrement: UInt32

    function State(): DdsState
      reads this
    {
      DdsState(phaseAccumulator, phaseIncrement)
    }

    /** `dds_init`: the accumulator starts at 0; the increment comes from the frequency. */
    constructor Init(increment: UInt32)
      ensures State() == DdsState(0, increment)
    {
      phaseAccumulator := 0;
      phaseIncrement := increment;
    }

    /** `dds_mod`: a new increment, the phase is kept. */
    method Mod(increment: UInt32)
      modifies this
      ensures State() == DdsState(old(phaseAccumulator), increment)
    {
      phaseIncrement := increment;
    }

    /** `dds_step`: read the entry under the phase, then advance the phase. */
    method Next(table: array<Int16>) returns (sample: Int16)
      requires table.Length == Wavetables.WaveSize
      modifies this
      ensures (sample, State()) == Step(old(State()), table[..])
    {
      var index := U16(phaseAccumulator / 256);
      sample := table[index % 4096];
      phaseAccumulator := U32(phaseAccumulator + phaseIncrement);
    }
  }
}
