/**
 * The per-frame mixers of messed-up-synth.c over its eight-voice global
 * arrays.
 *
 * `altsynth` plays every voice whose Q17.15 volume `vol[v]` is not 0: it
 * takes one `osc_sample`, scales it by the volume (`s * vol[v] >> QSFT`),
 * passes it through the voice's own envelope `env[v]` when `oe[v]` is set,
 * records the result in `osc[v].processed`, and adds it to the slot unless
 * the voice is a modulator (`ismod`). A voice with an FM source `fmo >= 0`
 * then has its increment bumped when that source's `processed` value has
 * changed since the last bump; the bump is computed in double and is the
 * parameter `fmInc`, the amount added for voice v and the source value.
 *
 * `synth` is the pairwise DDS mixer of synth.c with per-voice ADSR
 * envelopes `env[i]` in place of the shared attack envelope. The amplitude
 * `oa[i]` only matters through the test `oa[i] == 0.0` (`ampZero[i]`); in
 * this file every assignment to `oa` is compiled out, so the zero-initialised
 * array makes every carrier skip and the buffer silent.
 */
module MessedMixer {
  import opened CInt
  import opened Mix
  import Wavetables
  import Dds
  import Osc
  import Adsr
  import SynthMixer

  /** VOICES. */
  const Voices: nat := 8
  /** PERIOD_SIZE: frames per call. */
  const PeriodSize: nat := 1024
  /** NONE, the wave number that switches a voice off. */
  const NoWave: int := 11

  /** The new increment `dds_mod` computes for carrier i from `of[i] + b`. */
  type Retune = (int, int) -> UInt32
  /** The amount `altsynth` adds to voice v's increment for a new FM source value. */
  type FmInc = (int, Int16) -> int

  /** The read-only globals the mixers consult. */
  datatype Config = Config(
    vol: seq<int>,
    oe: seq<bool>,
    ow: seq<int>,
    ampZero: seq<bool>,
    top: seq<int>,
    bot: seq<int>,
    waves: seq<seq<Int16>>)

  /** The per-voice state the mixers update: `osc[]`, `env[]`, `dds[]`. */
  datatype Bank = Bank(
    osc: seq<Osc.OscState>,
    env: seq<Adsr.AdsrState>,
    dds: seq<Dds.DdsState>)

  /** A buffer slot's value and the voices after it was computed. */
  datatype Mixed = Mixed(sample: Int16, bank: Bank)

  /** The frames of one call and the voices after it. */
  datatype Period = Period(samples: seq<Int16>, bank: Bank)

  /** What one voice or pair adds to the slot (before narrowing) and the voices after it. */
  datatype VoiceOut = VoiceOut(contribution: int, bank: Bank)

  /** A sample after the optional envelope: the value added, the value recorded, the envelope after it. */
  datatype Shaped = Shaped(heard: int, recorded: Int16, env: Adsr.AdsrState)

  /** The modulator's value b and its DDS and envelope after it. */
  datatype ModOut = ModOut(value: int, dds: Dds.DdsState, env: Adsr.AdsrState)

  predicate BankOk(b: Bank)
  {
    |b.osc| == Voices && |b.env| == Voices && |b.dds| == Voices
  }

  // ---------------------------------------------------------------- altsynth

  /**
   * What `altsynth` needs: every played voice has a table its index stays
   * in and a non-zero wrap, and its FM source, when set, names a voice.
   */
  predicate AltDefined(c: Config, b: Bank)
  {
    BankOk(b) && |c.vol| == Voices && |c.oe| == Voices
    && forall k | 0 <= k < Voices :: c.vol[k] != 0 ==> Osc.Ready(b.osc[k]) && b.osc[k].fmo < Voices
  }

  /** Voice v is played: its volume is not 0. */
  predicate Played(c: Config, v: int)
    requires |c.vol| == Voices && 0 <= v < Voices
  {
    c.vol[v] != 0
  }

  /**
   * The scaled sample s after the optional envelope: through `env_next` and
   * the Q15 gain when `oe[v]` is set (then the recorded value is the gain's
   * int16 result), otherwise s itself, narrowed to int16 when recorded.
   */
  function Shape(s: int, e: Adsr.AdsrState, enveloped: bool): (r: Shaped)
    ensures enveloped ==> r.env == Adsr.Process(e) && r.heard == r.recorded
    ensures !enveloped ==> r == Shaped(s, I16(s), e)
  {
    if enveloped then
      var e' := Adsr.Process(e);
      var f := ApplyEnvelope(s, Adsr.Output(e'.currentLevel));
      Shaped(f, f, e')
    else Shaped(s, I16(s), e)
  }

  /**
   * The FM bump of voice v: with a source `fmo >= 0` whose `processed`
   * value differs from the one last applied, the increment grows by
   * `fmInc(v, value)` and the value is remembered; otherwise nothing changes.
   */
  function FmRetune(fm: FmInc, osc: seq<Osc.OscState>, v: int): (r: seq<Osc.OscState>)
    requires |osc| == Voices && 0 <= v < Voices && osc[v].fmo < Voices
    ensures |r| == Voices && (forall k | 0 <= k < Voices && k != v :: r[k] == osc[k])
    ensures r[v] == osc[v].(inc := r[v].inc, modSource := r[v].modSource)
    ensures osc[v].fmo < 0 ==> r == osc
  {
    var fmo := osc[v].fmo;
    if fmo >= 0 && osc[v].modSource != osc[fmo].processed then
      var p := osc[fmo].processed;
      osc[v := osc[v].(inc := osc[v].inc + fm(v, p), modSource := p)]
    else osc
  }

  /**
   * One voice of `altsynth`. A silent voice adds nothing and changes
   * nothing. A played voice takes exactly one oscillator step (phase and
   * `raw` as `osc_sample` leaves them), steps its envelope exactly when
   * `oe[v]` is set, records its shaped sample in `processed`, adds it to the
   * slot only when it is not a modulator, and touches no other voice.
   */
  function AltVoice(c: Config, fm: FmInc, b: Bank, v: int): (r: VoiceOut)
    requires AltDefined(c, b) && 0 <= v < Voices
    ensures AltDefined(c, r.bank) && r.bank.dds == b.dds
    ensures !Played(c, v) ==> r == VoiceOut(0, b)
    ensures forall k | 0 <= k < Voices && k != v :: r.bank.osc[k] == b.osc[k] && r.bank.env[k] == b.env[k]
    ensures Played(c, v) ==>
      var o := Osc.Advance(b.osc[v]);
      var sh := Shape(Shr15(Osc.Current(b.osc[v]) * c.vol[v]), b.env[v], c.oe[v]);
      r.bank.osc[v] == o.(processed := sh.recorded, inc := r.bank.osc[v].inc, modSource := r.bank.osc[v].modSource)
      && r.bank.env[v] == sh.env
      && r.contribution == (if b.osc[v].ismod then 0 else sh.heard)
    ensures Played(c, v) && b.osc[v].ismod ==> r.contribution == 0
    ensures r.bank.env[v] == if Played(c, v) && c.oe[v] then Adsr.Process(b.env[v]) else b.env[v]
  {
    if !Played(c, v) then VoiceOut(0, b)
    else
      var o := b.osc[v];
      var s := Shr15(Osc.Current(o) * c.vol[v]);
      var sh := Shape(s, b.env[v], c.oe[v]);
      var osc := FmRetune(fm, b.osc[v := Osc.Advance(o).(processed := sh.recorded)], v);
      VoiceOut(if o.ismod then 0 else sh.heard, b.(osc := osc, env := b.env[v := sh.env]))
  }

  /**
   * The slot after the voices below v. Voices from v on are untouched, a
   * silent voice is never touched, an envelope moves only for a played,
   * enveloped voice, and then by exactly one step; the DDS state is not used.
   */
  function AltMix(c: Config, fm: FmInc, b: Bank, v: nat): (r: Mixed)
    requires AltDefined(c, b) && v <= Voices
    ensures AltDefined(c, r.bank) && r.bank.dds == b.dds
    ensures forall k | v <= k < Voices :: r.bank.osc[k] == b.osc[k] && r.bank.env[k] == b.env[k]
    ensures forall k | 0 <= k < Voices && !Played(c, k) :: r.bank.osc[k] == b.osc[k] && r.bank.env[k] == b.env[k]
    ensures forall k | 0 <= k < v ::
      r.bank.env[k] == if Played(c, k) && c.oe[k] then Adsr.Process(b.env[k]) else b.env[k]
    decreases v
  {
    if v == 0 then Mixed(0, b)
    else
      var m := AltMix(c, fm, b, v - 1);
      var o := AltVoice(c, fm, m.bank, v - 1);
      Mixed(Accumulate(m.sample, o.contribution), o.bank)
  }

  /** n frames of `altsynth`. */
  function AltPeriod(c: Config, fm: FmInc, b: Bank, n: nat): (r: Period)
    requires AltDefined(c, b)
    ensures |r.samples| == n && AltDefined(c, r.bank)
    decreases n
  {
    if n == 0 then Period([], b)
    else
      var p := AltPeriod(c, fm, b, n - 1);
      var m := AltMix(c, fm, p.bank, Voices);
      Period(p.samples + [m.sample], m.bank)
  }

  /**
   * Over n frames a silent voice is never advanced, an envelope runs
   * exactly n steps when its voice is played and enveloped and none
   * otherwise, and the DDS state is untouched.
   */
  lemma {:induction false} AltPeriodVoices(c: Config, fm: FmInc, b: Bank, n: nat)
    requires AltDefined(c, b)
    ensures forall k | 0 <= k < Voices && !Played(c, k) ::
      AltPeriod(c, fm, b, n).bank.osc[k] == b.osc[k] && AltPeriod(c, fm, b, n).bank.env[k] == b.env[k]
    ensures forall k | 0 <= k < Voices ::
      AltPeriod(c, fm, b, n).bank.env[k] == if Played(c, k) && c.oe[k] then Adsr.Run(b.env[k], n) else b.env[k]
    ensures AltPeriod(c, fm, b, n).bank.dds == b.dds
    decreases n
  {
    if n > 0 {
      AltPeriodVoices(c, fm, b, n - 1);
      var p := AltPeriod(c, fm, b, n - 1);
      var m := AltMix(c, fm, p.bank, Voices);
      assert AltPeriod(c, fm, b, n).bank == m.bank;
    }
  }

  /**
   * A played voice without an FM source walks its table exactly as n
   * plain `osc_sample` calls would: only `processed` differs from the
   * oscillator run on its own.
   */
  lemma {:induction false} AltPeriodOscillator(c: Config, fm: FmInc, b: Bank, n: nat, k: int)
    requires AltDefined(c, b) && 0 <= k < Voices && Played(c, k) && b.osc[k].fmo < 0
    ensures var o := AltPeriod(c, fm, b, n).bank.osc[k];
      o == Osc.Run(b.osc[k], n).(processed := o.processed) && o.fmo == b.osc[k].fmo
    decreases n
  {
    if n > 0 {
      AltPeriodOscillator(c, fm, b, n - 1, k);
      var p := AltPeriod(c, fm, b, n - 1);
      var m := AltMix(c, fm, p.bank, Voices);
      AltMixOscillator(c, fm, p.bank, Voices, k);
      assert AltPeriod(c, fm, b, n).bank == m.bank;
      var t := Osc.Run(b.osc[k], n - 1);
      AdvanceIgnoresProcessed(t, p.bank.osc[k].processed, m.bank.osc[k].processed);
    }
  }

  /** `osc_sample` never reads `processed`. */
  lemma AdvanceIgnoresProcessed(s: Osc.OscState, x: Int16, y: Int16)
    requires Osc.Ready(s)
    ensures Osc.Advance(s.(processed := x)).(processed := y) == Osc.Advance(s).(processed := y)
  {
  }

  /** Within one frame, a played voice without an FM source takes exactly one oscillator step. */
  lemma {:induction false} AltMixOscillator(c: Config, fm: FmInc, b: Bank, v: nat, k: int)
    requires AltDefined(c, b) && v <= Voices && 0 <= k < v && Played(c, k) && b.osc[k].fmo < 0
    ensures var o := AltMix(c, fm, b, v).bank.osc[k];
      o == Osc.Advance(b.osc[k]).(processed := o.processed)
    decreases v
  {
    var m := AltMix(c, fm, b, v - 1);
    if k < v - 1 {
      AltMixOscillator(c, fm, b, v - 1, k);
    } else {
      assert m.bank.osc[k] == b.osc[k];
    }
  }

  /** With every volume at 0 a frame is silent and leaves every voice as it was. */
  lemma {:induction false} AltSilentMix(c: Config, fm: FmInc, b: Bank, v: nat)
    requires AltDefined(c, b) && v <= Voices
    requires forall k | 0 <= k < Voices :: !Played(c, k)
    ensures AltMix(c, fm, b, v) == Mixed(0, b)
    decreases v
  {
    if v > 0 {
      AltSilentMix(c, fm, b, v - 1);
    }
  }

  /** With every volume at 0, every frame `altsynth` writes is 0 and no voice changes. */
  lemma {:induction false} AltSilentPeriod(c: Config, fm: FmInc, b: Bank, n: nat)
    requires AltDefined(c, b)
    requires forall k | 0 <= k < Voices :: !Played(c, k)
    ensures AltPeriod(c, fm, b, n) == Period(seq(n, k => 0), b)
    decreases n
  {
    if n > 0 {
      AltSilentPeriod(c, fm, b, n - 1);
      AltSilentMix(c, fm, b, Voices);
      SynthMixer.SilenceGrows(n - 1);
    }
  }

  // ---------------------------------------------------------------- synth

  /** Every global array has eight entries, and every wave number is NONE or a 4096-entry table. */
  predicate ConfigOk(c: Config)
  {
    |c.vol| == Voices && |c.oe| == Voices
    && |c.ow| == Voices && |c.ampZero| == Voices && |c.top| == Voices && |c.bot| == Voices
    && (forall t | 0 <= t < |c.waves| :: |c.waves[t]| == Wavetables.WaveSize)
    && (forall k | 0 <= k < Voices :: c.ow[k] == NoWave || 0 <= c.ow[k] < |c.waves|)
  }

  /** Carrier i is played: its wave is not NONE, its amplitude is not 0.0 and `top[i] != 0`. */
  predicate PairActive(c: Config, i: int)
    requires ConfigOk(c) && 0 <= i < Voices
  {
    c.ow[i] != NoWave && !c.ampZero[i] && c.top[i] != 0
  }

  /** The divisions pair i performs: by `bot[i]` when it is played, and by `bot[i+1]` when its modulator has a wave. */
  predicate PairDefined(c: Config, i: int)
    requires ConfigOk(c) && 0 <= i < Voices - 1
  {
    PairActive(c, i) ==> c.bot[i] != 0 && (c.ow[i + 1] != NoWave ==> c.bot[i + 1] != 0)
  }

  /** The carrier of pair p: the pair loop visits carriers 0, 2, 4, 6. */
  function Carrier(p: int): int
  {
    2 * p
  }

  /** Every pair the loop visits is defined. */
  predicate SynthDefined(c: Config, b: Bank)
  {
    PairsDefined(c) && BankOk(b)
  }

  /** The settings side of `SynthDefined`: it does not depend on the voices' state. */
  predicate PairsDefined(c: Config)
  {
    ConfigOk(c) && forall p | 0 <= p < Voices / 2 :: PairDefined(c, Carrier(p))
  }

  /**
   * The modulator m of a played pair: nothing for wave NONE; otherwise its
   * DDS steps, and its scaled sample, passed through its own envelope when
   * `oe[m]` is set, is the value that retunes the carrier.
   */
  function Modulator(c: Config, d: Dds.DdsState, e: Adsr.AdsrState, m: int): (r: ModOut)
    requires ConfigOk(c) && 0 <= m < Voices && (c.ow[m] != NoWave ==> c.bot[m] != 0)
    ensures c.ow[m] == NoWave ==> r == ModOut(0, d, e)
    ensures c.ow[m] != NoWave ==> r.dds == Dds.Advance(d)
    ensures r.env == if c.ow[m] != NoWave && c.oe[m] then Adsr.Process(e) else e
  {
    if c.ow[m] == NoWave then ModOut(0, d, e)
    else
      var b := ScaleBy(Dds.Sample(d, c.waves[c.ow[m]]), c.top[m], c.bot[m]);
      if c.oe[m] then
        var e' := Adsr.Process(e);
        ModOut(ApplyEnvelope(b, Adsr.Output(e'.currentLevel)), Dds.Advance(d), e')
      else ModOut(b, Dds.Advance(d), e)
  }

  /**
   * One pair of `synth`. A skipped pair adds nothing and changes nothing.
   * A played pair adds the carrier's scaled (and optionally enveloped)
   * sample, and leaves the oscillators of `altsynth` alone.
   */
  function SynthPair(c: Config, retune: Retune, b: Bank, i: int): (r: VoiceOut)
    requires ConfigOk(c) && BankOk(b) && 0 <= i < Voices - 1 && PairDefined(c, i)
    ensures BankOk(r.bank) && r.bank.osc == b.osc
    ensures !PairActive(c, i) ==> r == VoiceOut(0, b)
  {
    if !PairActive(c, i) then VoiceOut(0, b)
    else
      var a := ScaleBy(Dds.Sample(b.dds[i], c.waves[c.ow[i]]), c.top[i], c.bot[i]);
      var stepped := b.dds[i := Dds.Advance(b.dds[i])];
      var mo := Modulator(c, b.dds[i + 1], b.env[i + 1], i + 1);
      var modded := stepped[i + 1 := mo.dds];
      var dds := modded[i := modded[i].(phaseIncrement := retune(i, mo.value))];
      var env := b.env[i + 1 := mo.env];
      if c.oe[i] then
        var e' := Adsr.Process(env[i]);
        VoiceOut(ApplyEnvelope(a, Adsr.Output(e'.currentLevel)), b.(dds := dds, env := env[i := e']))
      else VoiceOut(a, b.(dds := dds, env := env))
  }

  /**
   * A played pair steps the carrier's DDS once and gives it the increment
   * retuned by the modulator's value, steps the modulator's DDS once unless
   * its wave is NONE, steps each member's own envelope once when it is
   * enveloped (the modulator's only when it has a wave), and touches no
   * other voice.
   */
  lemma SynthPairEffects(c: Config, retune: Retune, b: Bank, i: int)
    requires ConfigOk(c) && BankOk(b) && 0 <= i < Voices - 1 && PairDefined(c, i)
    ensures var r := SynthPair(c, retune, b, i);
      (forall k | 0 <= k < Voices && k != i && k != i + 1 :: r.bank.dds[k] == b.dds[k] && r.bank.env[k] == b.env[k])
      && (PairActive(c, i) ==>
        r.bank.dds[i].phaseAccumulator == Dds.Advance(b.dds[i]).phaseAccumulator
        && r.bank.dds[i].phaseIncrement == retune(i, Modulator(c, b.dds[i + 1], b.env[i + 1], i + 1).value)
        && r.bank.dds[i + 1] == (if c.ow[i + 1] == NoWave then b.dds[i + 1] else Dds.Advance(b.dds[i + 1]))
        && r.bank.env[i] == (if c.oe[i] then Adsr.Process(b.env[i]) else b.env[i])
        && r.bank.env[i + 1] == (if c.ow[i + 1] != NoWave && c.oe[i + 1] then Adsr.Process(b.env[i + 1]) else b.env[i + 1]))
  {
  }

  /**
   * The modulator is never heard: with per-voice envelopes it can only
   * retune the carrier for the next frame, so the pair adds the same to
   * the slot whatever the modulator's wave, even NONE.
   */
  lemma ModulatorNeverHeard(c: Config, retune: Retune, b: Bank, i: int)
    requires ConfigOk(c) && BankOk(b) && 0 <= i < Voices - 1 && PairDefined(c, i)
    ensures var c' := c.(ow := c.ow[i + 1 := NoWave]);
      ConfigOk(c') && PairDefined(c', i)
      && SynthPair(c', retune, b, i).contribution == SynthPair(c, retune, b, i).contribution
  {
  }

  /** The slot after the pairs below p (voices below 2p). */
  function SynthMix(c: Config, retune: Retune, b: Bank, p: nat): (r: Mixed)
    requires SynthDefined(c, b) && p <= Voices / 2
    ensures SynthDefined(c, r.bank) && r.bank.osc == b.osc
    decreases p
  {
    if p == 0 then Mixed(0, b)
    else
      var m := SynthMix(c, retune, b, p - 1);
      var o := SynthPair(c, retune, m.bank, Carrier(p - 1));
      Mixed(Accumulate(m.sample, o.contribution), o.bank)
  }

  /** n frames of `synth`. */
  function SynthPeriod(c: Config, retune: Retune, b: Bank, n: nat): (r: Period)
    requires SynthDefined(c, b)
    ensures |r.samples| == n && SynthDefined(c, r.bank)
    decreases n
  {
    if n == 0 then Period([], b)
    else
      var p := SynthPeriod(c, retune, b, n - 1);
      var m := SynthMix(c, retune, p.bank, Voices / 2);
      Period(p.samples + [m.sample], m.bank)
  }

  /** No pair is played. */
  predicate AllSkipped(c: Config)
    requires ConfigOk(c)
  {
    forall p | 0 <= p < Voices / 2 :: !PairActive(c, Carrier(p))
  }

  /** With every pair skipped a frame is silent and leaves every voice as it was. */
  lemma {:induction false} SilentMix(c: Config, retune: Retune, b: Bank, p: nat)
    requires SynthDefined(c, b) && AllSkipped(c) && p <= Voices / 2
    ensures SynthMix(c, retune, b, p) == Mixed(0, b)
    decreases p
  {
    if p > 0 {
      SilentMix(c, retune, b, p - 1);
      assert !PairActive(c, Carrier(p - 1));
    }
  }

  /** With every pair skipped, every frame `synth` writes is 0 and no voice state changes. */
  lemma {:induction false} SilentPeriod(c: Config, retune: Retune, b: Bank, n: nat)
    requires SynthDefined(c, b) && AllSkipped(c)
    ensures SynthPeriod(c, retune, b, n) == Period(seq(n, k => 0), b)
    decreases n
  {
    if n > 0 {
      SilentPeriod(c, retune, b, n - 1);
      SilentMix(c, retune, b, Voices / 2);
      SynthMixer.SilenceGrows(n - 1);
    }
  }

  /**
   * As the file is compiled, `oa` is zero-initialised and never assigned,
   * so for any other settings `synth` fills the buffer with zeros and
   * changes no voice.
   */
  lemma AsCompiledSynthSilent(c: Config, retune: Retune, b: Bank, n: nat)
    requires ConfigOk(c) && BankOk(b) && forall k | 0 <= k < Voices :: c.ampZero[k]
    ensures SynthDefined(c, b)
    ensures SynthPeriod(c, retune, b, n) == Period(seq(n, k => 0), b)
  {
    assert forall p | 0 <= p < Voices / 2 :: !PairActive(c, Carrier(p));
    SilentPeriod(c, retune, b, n);
  }

  /** One more voice of `altsynth`. */
  lemma AltMixStep(c: Config, fm: FmInc, b: Bank, v: nat, slot: Int16, now: Bank)
    requires AltDefined(c, b) && v < Voices && Mixed(slot, now) == AltMix(c, fm, b, v)
    ensures AltDefined(c, now)
    ensures var o := AltVoice(c, fm, now, v);
      AltMix(c, fm, b, v + 1) == Mixed(Accumulate(slot, o.contribution), o.bank)
  {
  }

  /** t lists the running mixes of one `altsynth` frame: entry v is the slot and the bank after v voices. */
  ghost predicate IsAltTable(c: Config, fm: FmInc, b: Bank, t: seq<Mixed>)
    requires AltDefined(c, b)
  {
    |t| == Voices + 1
    && forall v {:trigger AltMix(c, fm, b, v)} | 0 <= v <= Voices :: t[v] == AltMix(c, fm, b, v)
  }

  /** The running mixes of one `altsynth` frame, from an empty slot. */
  lemma AltTable(c: Config, fm: FmInc, b: Bank) returns (t: seq<Mixed>)
    requires AltDefined(c, b)
    ensures IsAltTable(c, fm, b, t) && t[0] == Mixed(0, b)
  {
    t := seq(Voices + 1, v requires 0 <= v <= Voices => AltMix(c, fm, b, v));
    assert t[0] == AltMix(c, fm, b, 0);
  }

  /** One more frame of `altsynth`. */
  lemma AltPeriodStep(c: Config, fm: FmInc, b: Bank, n: nat)
    requires AltDefined(c, b)
    ensures var p := AltPeriod(c, fm, b, n);
      var m := AltMix(c, fm, p.bank, Voices);
      AltPeriod(c, fm, b, n + 1) == Period(p.samples + [m.sample], m.bank)
  {
  }

  /** One more pair of `synth`. */
  lemma SynthMixStep(c: Config, retune: Retune, b: Bank, p: nat, slot: Int16, now: Bank)
    requires SynthDefined(c, b) && p < Voices / 2 && Mixed(slot, now) == SynthMix(c, retune, b, p)
    ensures SynthDefined(c, now)
    ensures var o := SynthPair(c, retune, now, Carrier(p));
      SynthMix(c, retune, b, p + 1) == Mixed(Accumulate(slot, o.contribution), o.bank)
  {
  }

  /** t lists the running mixes of one `synth` frame: entry p is the slot and the bank after p pairs. */
  ghost predicate IsMixTable(c: Config, retune: Retune, b: Bank, t: seq<Mixed>)
    requires SynthDefined(c, b)
  {
    |t| == Voices / 2 + 1
    && forall p {:trigger SynthMix(c, retune, b, p)} | 0 <= p <= Voices / 2 :: t[p] == SynthMix(c, retune, b, p)
  }

  /** The running mixes of one `synth` frame, from an empty slot. */
  lemma MixTable(c: Config, retune: Retune, b: Bank) returns (t: seq<Mixed>)
    requires SynthDefined(c, b)
    ensures IsMixTable(c, retune, b, t) && t[0] == Mixed(0, b)
  {
    t := seq(Voices / 2 + 1, p requires 0 <= p <= Voices / 2 => SynthMix(c, retune, b, p));
    assert t[0] == SynthMix(c, retune, b, 0);
  }

  /** One more frame of `synth`. */
  lemma SynthPeriodStep(c: Config, retune: Retune, b: Bank, n: nat)
    requires SynthDefined(c, b)
    ensures var p := SynthPeriod(c, retune, b, n);
      var m := SynthMix(c, retune, p.bank, Voices / 2);
      SynthPeriod(c, retune, b, n + 1) == Period(p.samples + [m.sample], m.bank)
  {
  }

  /** The global voice arrays of messed-up-synth.c and the settings the mixers read. */
  class Voices8 {
    var osc: seq<Osc.OscState>
    var env: seq<Adsr.AdsrState>
    var dds: seq<Dds.DdsState>
    const vol: seq<int>
    const oe: seq<bool>
    const ow: seq<int>
    const ampZero: seq<bool>
    const top: seq<int>
    const bot: seq<int>
    const waves: seq<seq<Int16>>

    function State(): Bank
      reads this
    {
      Bank(osc, env, dds)
    }

    function Settings(): Config
    {
      Config(vol, oe, ow, ampZero, top, bot, waves)
    }

    constructor (b: Bank, c: Config)
      ensures State() == b && Settings() == c
    {
      osc, env, dds := b.osc, b.env, b.dds;
      vol, oe, ow, ampZero, top, bot, waves := c.vol, c.oe, c.ow, c.ampZero, c.top, c.bot, c.waves;
    }

    /** `altsynth`: fills the period's 1024 frames, voice by voice. */
    method AltSynth(buffer: array<Int16>, fm: FmInc)
      requires buffer.Length == PeriodSize && AltDefined(Settings(), State())
      modifies this, buffer
      ensures buffer[..] == AltPeriod(Settings(), fm, old(State()), buffer.Length).samples
      ensures State() == AltPeriod(Settings(), fm, old(State()), buffer.Length).bank
    {
      ghost var c := Settings();
      ghost var b0 := State();
      for n := 0 to buffer.Length
        invariant buffer[..n] == AltPeriod(c, fm, b0, n).samples
        invariant State() == AltPeriod(c, fm, b0, n).bank
      {
        NextAltFrame(buffer, n, fm, c, b0);
      }
      SynthMixer.WholePrefix(buffer[..]);
    }

    /** `synth`: fills the period's 1024 frames from the played pairs. */
    method Synth(buffer: array<Int16>, retune: Retune)
      requires buffer.Length == PeriodSize && SynthDefined(Settings(), State())
      modifies this, buffer
      ensures buffer[..] == SynthPeriod(Settings(), retune, old(State()), buffer.Length).samples
      ensures State() == SynthPeriod(Settings(), retune, old(State()), buffer.Length).bank
    {
      ghost var c := Settings();
      ghost var b0 := State();
      for n := 0 to buffer.Length
        invariant buffer[..n] == SynthPeriod(c, retune, b0, n).samples
        invariant State() == SynthPeriod(c, retune, b0, n).bank
      {
        NextSynthFrame(buffer, n, retune, c, b0);
      }
      SynthMixer.WholePrefix(buffer[..]);
    }

    /** One round of `altsynth`'s frame loop: frame n is written and the voices move on. */
    method NextAltFrame(buffer: array<Int16>, n: nat, fm: FmInc, ghost c: Config, ghost b0: Bank)
      requires n < buffer.Length && Settings() == c && AltDefined(c, b0)
      requires buffer[..n] == AltPeriod(c, fm, b0, n).samples && State() == AltPeriod(c, fm, b0, n).bank
      modifies this, buffer
      ensures buffer[..n + 1] == AltPeriod(c, fm, b0, n + 1).samples && State() == AltPeriod(c, fm, b0, n + 1).bank
    {
      ghost var before := buffer[..];
      AltFrame(buffer, n, fm);
      AltPeriodStep(c, fm, b0, n);
      SynthMixer.FillOne(before, buffer[..], n, buffer[n]);
    }

    /** One round of `synth`'s frame loop: frame n is written and the voices move on. */
    method NextSynthFrame(buffer: array<Int16>, n: nat, retune: Retune, ghost c: Config, ghost b0: Bank)
      requires n < buffer.Length && Settings() == c && SynthDefined(c, b0)
      requires buffer[..n] == SynthPeriod(c, retune, b0, n).samples && State() == SynthPeriod(c, retune, b0, n).bank
      modifies this, buffer
      ensures buffer[..n + 1] == SynthPeriod(c, retune, b0, n + 1).samples && State() == SynthPeriod(c, retune, b0, n + 1).bank
    {
      ghost var before := buffer[..];
      SynthFrame(buffer, n, retune);
      SynthPeriodStep(c, retune, b0, n);
      SynthMixer.FillOne(before, buffer[..], n, buffer[n]);
    }

    /** One frame of `altsynth`: `buffer[n]` from 0, then every voice in turn. */
    method AltFrame(buffer: array<Int16>, n: nat, fm: FmInc)
      requires n < buffer.Length && AltDefined(Settings(), State())
      modifies this, buffer
      ensures Mixed(buffer[n], State()) == AltMix(Settings(), fm, old(State()), Voices)
      ensures buffer[..] == old(buffer[..])[n := buffer[n]]
    {
      ghost var c := Settings();
      ghost var bf := State();
      ghost var t := AltTable(c, fm, bf);
      ghost var s0 := buffer[..];
      buffer[n] := 0;
      for v := 0 to Voices
        invariant Mixed(buffer[n], State()) == t[v]
        invariant buffer[..] == s0[n := buffer[n]]
      {
        NextVoice(buffer, n, v, fm, c, bf, s0, t);
      }
    }

    /** One round of `altsynth`'s voice loop: voice v is added to `buffer[n]` and moves on. */
    method NextVoice(buffer: array<Int16>, n: nat, v: nat, fm: FmInc, ghost c: Config, ghost bf: Bank, ghost s0: seq<Int16>, ghost t: seq<Mixed>)
      requires n < buffer.Length && v < Voices && Settings() == c && AltDefined(c, bf) && IsAltTable(c, fm, bf, t)
      requires |s0| == buffer.Length && buffer[..] == s0[n := buffer[n]]
      requires Mixed(buffer[n], State()) == t[v]
      modifies this, buffer
      ensures Mixed(buffer[n], State()) == t[v + 1] && buffer[..] == s0[n := buffer[n]]
    {
      assert t[v] == AltMix(c, fm, bf, v) && t[v + 1] == AltMix(c, fm, bf, v + 1);
      AltMixStep(c, fm, bf, v, buffer[n], State());
      ghost var mid := buffer[..];
      ghost var x1 := buffer[n];
      PlayVoice(buffer, n, v, fm);
      SynthMixer.RewriteSlot(s0, mid, buffer[..], n, x1, buffer[n]);
    }

    /** The body of `altsynth`'s voice loop for voice v. */
    method PlayVoice(buffer: array<Int16>, n: nat, v: nat, fm: FmInc)
      requires n < buffer.Length && v < Voices && AltDefined(Settings(), State())
      modifies this, buffer
      ensures var o := AltVoice(Settings(), fm, old(State()), v);
        buffer[n] == Accumulate(old(buffer[n]), o.contribution) && State() == o.bank
      ensures buffer[..] == old(buffer[..])[n := buffer[n]]
    {
      if vol[v] == 0 {
        return;
      }
      var current := Osc.Current(osc[v]);
      osc := osc[v := Osc.Advance(osc[v])];
      var s := Shr15(current * vol[v]);
      var heard := ShapeVoice(v, s);
      FollowModulator(v, fm);
      buffer[n] := Accumulate(buffer[n], heard);
    }

    /**
     * The envelope part of voice v: `env_next` and the Q15 gain when `oe[v]`
     * is set, the result recorded in `processed`, and the value heard unless
     * the voice is a modulator.
     */
    method ShapeVoice(v: nat, s: int) returns (heard: int)
      requires v < Voices && |osc| == Voices && |env| == Voices && |oe| == Voices
      modifies this
      ensures var sh := Shape(s, old(env[v]), oe[v]);
        heard == (if old(osc[v]).ismod then 0 else sh.heard)
        && osc == old(osc)[v := old(osc[v]).(processed := sh.recorded)]
        && env == old(env)[v := sh.env] && dds == old(dds)
    {
      heard := 0;
      if oe[v] {
        env := env[v := Adsr.Process(env[v])];
        var e := Adsr.Output(env[v].currentLevel);
        var f := ApplyEnvelope(s, e);
        if !osc[v].ismod {
          heard := f;
        }
        osc := osc[v := osc[v].(processed := f)];
      } else {
        if !osc[v].ismod {
          heard := s;
        }
        osc := osc[v := osc[v].(processed := I16(s))];
      }
    }

    /** The FM part of voice v: bump the increment when the source's `processed` value changed. */
    method FollowModulator(v: nat, fm: FmInc)
      requires v < Voices && |osc| == Voices && osc[v].fmo < Voices
      modifies this
      ensures osc == FmRetune(fm, old(osc), v) && env == old(env) && dds == old(dds)
    {
      var fmo := osc[v].fmo;
      if fmo >= 0 {
        var p := osc[fmo].processed;
        if osc[v].modSource != p {
          osc := osc[v := osc[v].(inc := osc[v].inc + fm(v, p), modSource := p)];
        }
      }
    }

    /**
     * One frame of `synth`: `buffer[n]` from 0, then the pairs (0, 1), (2, 3), (4, 5), (6, 7).
     * The running value of `buffer[n]` is held in `slot` and stored when the
     * pair loop ends; nothing else reads that entry in between.
     */
    method SynthFrame(buffer: array<Int16>, n: nat, retune: Retune)
      requires n < buffer.Length && SynthDefined(Settings(), State())
      modifies this, buffer
      ensures Mixed(buffer[n], State()) == SynthMix(Settings(), retune, old(State()), Voices / 2)
      ensures buffer[..] == old(buffer[..])[n := buffer[n]]
    {
      var slot := MixPairs(retune);
      buffer[n] := slot;
    }

    /** The pair loop of `synth` for one frame, from a slot of 0. */
    method MixPairs(retune: Retune) returns (slot: Int16)
      requires SynthDefined(Settings(), State())
      modifies this
      ensures Mixed(slot, State()) == SynthMix(Settings(), retune, old(State()), Voices / 2)
    {
      ghost var c := Settings();
      ghost var bf := State();
      ghost var t := MixTable(c, retune, bf);
      slot := 0;
      for p := 0 to Voices / 2
        invariant Mixed(slot, State()) == t[p]
      {
        slot := NextPair(slot, retune, p, c, bf, t);
      }
    }

    /** One round of `synth`'s pair loop: pair p is added to the slot and the voices move on. */
    method NextPair(slot: Int16, retune: Retune, p: nat, ghost c: Config, ghost bf: Bank, ghost t: seq<Mixed>) returns (slot': Int16)
      requires p < Voices / 2 && Settings() == c && SynthDefined(c, bf) && IsMixTable(c, retune, bf, t)
      requires Mixed(slot, State()) == t[p]
      modifies this
      ensures Mixed(slot', State()) == t[p + 1]
    {
      assert t[p] == SynthMix(c, retune, bf, p) && t[p + 1] == SynthMix(c, retune, bf, p + 1);
      SynthMixStep(c, retune, bf, p, slot, State());
      slot' := PlayPair(slot, retune, p);
    }

    /** The body of `synth`'s pair loop for pair p (carrier i = 2p): adds the pair's contribution to the slot. */
    method PlayPair(slot: Int16, retune: Retune, p: nat) returns (slot': Int16)
      requires p < Voices / 2 && SynthDefined(Settings(), State())
      modifies this
      ensures var o := SynthPair(Settings(), retune, old(State()), Carrier(p));
        slot' == Accumulate(slot, o.contribution) && State() == o.bank
    {
      slot' := slot;
      var i := Carrier(p);
      assert PairDefined(Settings(), i);
      if ow[i] == NoWave || ampZero[i] || top[i] == 0 {
        return;
      }
      var a := ScaleBy(Dds.Sample(dds[i], waves[ow[i]]), top[i], bot[i]);
      dds := dds[i := Dds.Advance(dds[i])];
      var b := PlayModulator(i + 1);
      dds := dds[i := dds[i].(phaseIncrement := retune(i, b))];
      if oe[i] {
        env := env[i := Adsr.Process(env[i])];
        var envelopeValue := Adsr.Output(env[i].currentLevel);
        slot' := Accumulate(slot, ApplyEnvelope(a, envelopeValue));
      } else {
        slot' := Accumulate(slot, a);
      }
    }

    /** The modulator part of a played pair: steps voice `mod`'s DDS and returns the value that retunes the carrier. */
    method PlayModulator(mod: int) returns (b: int)
      requires ConfigOk(Settings()) && |dds| == Voices && |env| == Voices && 0 <= mod < Voices
      requires ow[mod] != NoWave ==> bot[mod] != 0
      modifies this
      ensures osc == old(osc)
      ensures var mo := Modulator(Settings(), old(dds[mod]), old(env[mod]), mod);
        b == mo.value && dds == old(dds)[mod := mo.dds] && env == old(env)[mod := mo.env]
    {
      b := 0;
      if ow[mod] != NoWave {
        b := ScaleBy(Dds.Sample(dds[mod], waves[ow[mod]]), top[mod], bot[mod]);
        dds := dds[mod := Dds.Advance(dds[mod])];
        if oe[mod] {
          env := env[mod := Adsr.Process(env[mod])];
          var envelopeValue := Adsr.Output(env[mod].currentLevel);
          b := ApplyEnvelope(b, envelopeValue);
        }
      }
    }
  }
}
