/**
 * `WaveTableOscillator` of synth.c: a uint32 phase accumulator with 16
 * fractional bits over a table of `table_size` entries, wrapped with `%`
 * after every step. Interpolation is compiled out, so each call returns
 * the entry AFTER the one under the phase.
 */
module WaveTableOsc {
  import opened CInt

  /** `1 << FIXED_POINT_SHIFT`: one table entry in accumulator units. */
  const EntryUnits: nat := 0x1_0000

  /** The value of a `WaveTableOscillator` struct; the table it points to is read-only. */
  datatype WtoState = WtoState(
    waveTable: seq<Int16>,
    tableSize: nat,
    phaseIncrement: UInt32,
    phaseAccumulator: UInt32)

  /** `table_size << FIXED_POINT_SHIFT`: the accumulator value one full cycle spans. */
  function Span(tableSize: nat): nat { tableSize * EntryUnits }

  /** The table is non-empty, at least `table_size` long, and the phase lies within one cycle. */
  predicate Valid(s: WtoState)
  {
    0 < s.tableSize <= |s.waveTable| && s.phaseAccumulator < Span(s.tableSize)
  }

  /** The current entry `acc >> 16`: inside the table whenever the phase lies within one cycle. */
  function Index(s: WtoState): (r: nat)
    requires Valid(s)
    ensures r < s.tableSize
  {
    DivLt(s.phaseAccumulator, s.tableSize, EntryUnits);
    s.phaseAccumulator / EntryUnits
  }

  /** `(index + 1) % table_size`: the entry after the current one, wrapping to 0 at the end. */
  function NextIndex(s: WtoState): (r: nat)
    requires Valid(s)
    ensures r < s.tableSize
    ensures r == if Index(s) + 1 == s.tableSize then 0 else Index(s) + 1
  {
    (Index(s) + 1) % s.tableSize
  }

  /** The value `next_wave_table_sample` returns: the next entry, not interpolated. */
  function Sample(s: WtoState): Int16
    requires Valid(s)
  {
    s.waveTable[NextIndex(s)]
  }

  /** The state after the call: add the increment (uint32 wrap), then reduce modulo the span. */
  function Advance(s: WtoState): (r: WtoState)
    requires 0 < s.tableSize <= |s.waveTable|
    ensures Valid(r)
    ensures r.waveTable == s.waveTable && r.tableSize == s.tableSize
    ensures r.phaseIncrement == s.phaseIncrement
  {
    ModAtMost(U32(s.phaseAccumulator + s.phaseIncrement), Span(s.tableSize));
    s.(phaseAccumulator := U32(s.phaseAccumulator + s.phaseIncrement) % Span(s.tableSize))
  }

  /** `next_wave_table_sample` as a value: the sample and the state after the call. */
  function Step(s: WtoState): (Int16, WtoState)
    requires Valid(s)
  {
    (Sample(s), Advance(s))
  }

  /** The state after n calls. */
  function Run(s: WtoState, n: nat): (r: WtoState)
    requires Valid(s)
    ensures Valid(r)
    decreases n
  {
    if n == 0 then s else Advance(Run(s, n - 1))
  }

  /**
   * When the span divides 2^32 (every table of synth.c has 4096 entries,
   * a span of 2^28) the uint32 wrap is invisible: the phase is simply
   * the old phase plus the increment modulo the span.
   */
  lemma AdvanceWordAligned(s: WtoState)
    requires 0 < s.tableSize <= |s.waveTable| && Two32 % Span(s.tableSize) == 0
    ensures Advance(s).phaseAccumulator == (s.phaseAccumulator + s.phaseIncrement) % Span(s.tableSize)
  {
    var span := Span(s.tableSize);
    var k := Two32 / span;
    assert span * k == Two32;
    ModOfMod(s.phaseAccumulator + s.phaseIncrement, span, k);
  }

  /** After n calls with a word-aligned span, the phase is the start plus n increments modulo the span. */
  lemma {:induction false} RunClosedForm(s: WtoState, n: nat)
    requires Valid(s) && Two32 % Span(s.tableSize) == 0
    ensures Run(s, n).phaseAccumulator == (s.phaseAccumulator + n * s.phaseIncrement) % Span(s.tableSize)
    ensures Run(s, n).phaseIncrement == s.phaseIncrement && Run(s, n).tableSize == s.tableSize
    ensures Run(s, n).waveTable == s.waveTable
    decreases n
  {
    if n > 0 {
      RunClosedForm(s, n - 1);
      var inc: int := s.phaseIncrement;
      var prev := s.phaseAccumulator + (n - 1) * inc;
      AdvanceFrom(Run(s, n - 1), prev);
      assert prev + inc == s.phaseAccumulator + n * inc;
    } else {
      DivModUnique(s.phaseAccumulator, Span(s.tableSize), 0, s.phaseAccumulator);
    }
  }

  /** One step from a phase congruent to x lands on x plus the increment, modulo the span. */
  lemma AdvanceFrom(t: WtoState, x: int)
    requires Valid(t) && Two32 % Span(t.tableSize) == 0
    requires t.phaseAccumulator == x % Span(t.tableSize)
    ensures Advance(t).phaseAccumulator == (x + t.phaseIncrement) % Span(t.tableSize)
  {
    AdvanceWordAligned(t);
    ModAddLeft(x, t.phaseIncrement, Span(t.tableSize));
  }

  /**
   * An oscillator started at phase 0 with an increment of exactly one
   * entry per sample returns entry (n + 1) mod size on its n-th call
   * (counting from 0): it is always one entry ahead.
   */
  lemma UnitIncrementReadsAhead(s: WtoState, n: nat)
    requires Valid(s) && Two32 % Span(s.tableSize) == 0
    requires s.phaseAccumulator == 0 && s.phaseIncrement == EntryUnits
    ensures Sample(Run(s, n)) == s.waveTable[(n + 1) % s.tableSize]
  {
    var size := s.tableSize;
    RunClosedForm(s, n);
    UnitPhase(size, n);
    var t := Run(s, n);
    assert t.phaseAccumulator == (n % size) * EntryUnits;
    assert Index(t) == n % size;
    ModAddLeft(n, 1, size);
  }

  /** n whole entries taken modulo the span are n modulo the size, in whole entries. */
  lemma UnitPhase(size: nat, n: nat)
    requires size > 0
    ensures (n * EntryUnits) % Span(size) == (n % size) * EntryUnits
  {
    var q := n / size;
    var r := n % size;
    assert n * EntryUnits == Span(size) * q + r * EntryUnits by {
      assert n == size * q + r;
    }
    MulMonoLe(EntryUnits, r, size - 1);
    DivModUnique(n * EntryUnits, Span(size), q, r * EntryUnits);
  }

  /** A `WaveTableOscillator` updated in place through its pointer. */
  class WaveTableOscillator {
    var waveTable: seq<Int16>
    var tableSize: nat
    var phaseIncrement: UInt32
    var phaseAccumulator: UInt32

    function State(): WtoState
      reads this
    {
      WtoState(waveTable, tableSize, phaseIncrement, phaseAccumulator)
    }

    /** `init_wave_table_oscillator`: attach the table, set the increment, phase 0. */
    constructor Init(table: seq<Int16>, size: nat, increment: UInt32)
      requires 0 < size <= |table|
      ensures State() == WtoState(table, size, increment, 0)
      ensures Valid(State())
    {
      waveTable := table;
      tableSize := size;
      phaseIncrement := increment;
      phaseAccumulator := 0;
    }

    /** `set_wave_table_frequency`: a new increment, the phase is kept. */
    method SetFrequency(increment: UInt32)
      modifies this
      ensures State() == old(State()).(phaseIncrement := increment)
    {
      phaseIncrement := increment;
    }

    /** `next_wave_table_sample`. */
    method Next() returns (sample: Int16)
      requires Valid(State())
      modifies this
      ensures (sample, State()) == Step(old(State()))
      ensures Valid(State())
    {
      ghost var s := State();
      var index := phaseAccumulator / EntryUnits;
      assert index == Index(s);
      var nextIndex := (index + 1) % tableSize;
      var current := waveTable[index];
      var next := waveTable[nextIndex];
      sample := next;
      phaseAccumulator := U32(phaseAccumulator + phaseIncrement);
      ModAtMost(phaseAccumulator, Span(tableSize));
      phaseAccumulator := phaseAccumulator % Span(tableSize);
    }
  }
}
