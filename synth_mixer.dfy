/**
 * The per-frame mixers of synth.c over its global voice arrays.
 *
 * `altsynth` steps all 24 wavetable oscillators `wtosc[v]` and envelopes
 * `env[v]` once per frame and sums the enveloped, amplitude-scaled samples
 * into the int16 buffer slot.
 *
 * `synth` walks the voices in pairs (carrier i, modulator i + 1): a carrier
 * with wave NONE, amplitude 0.0 or `top == 0` is skipped together with its
 * modulator; otherwise the carrier's DDS is stepped, the modulator's DDS
 * (unless NONE) is stepped and its output retunes the carrier, and only the
 * carrier's sample reaches the buffer. Both envelope calls go to the ONE
 * attack envelope `jenv[voice]` selected by the global `voice`.
 *
 * The retuning `dds_mod(&dds[i], of[i] + b)` is computed in double; it is
 * the parameter `retune`, which gives carrier i's new increment for the
 * modulator value b. The amplitude `oa[i]` only matters through the test
 * `oa[i] == 0.0`, kept as `ampZero[i]`.
 */
module SynthMixer {
  import opened CInt
  import opened Mix
  import Wavetables
  import Dds
  import WaveTableOsc
  import Adsr
  import JoeEnvelope

  /** VOICES. */
  const Voices: nat := 24
  /** PERIOD_SIZE: frames per call. */
  const PeriodSize: nat := 1024
  /** NONE, the wave number that switches a voice off. */
  const NoWave: int := 11

  /** The new increment `dds_mod` computes for carrier i from `of[i] + b`. */
  type Retune = (int, int) -> UInt32

  /** The read-only globals the mixers consult. */
  datatype Config = Config(
    ow: seq<int>,
    ampZero: seq<bool>,
    oe: seq<bool>,
    top: seq<int>,
    bot: seq<int>,
    voice: int,
    waves: seq<seq<Int16>>)

  /** The per-voice state the mixers update: `wtosc[]`, `env[]`, `dds[]`, `jenv[]`. */
  datatype Bank = Bank(
    wtosc: seq<WaveTableOsc.WtoState>,
    env: seq<Adsr.AdsrState>,
    dds: seq<Dds.DdsState>,
    jenv: seq<JoeEnvelope.JEnvState>)

  /** A buffer slot's value and the voices after it was computed. */
  datatype Mixed = Mixed(sample: Int16, bank: Bank)

  /** The frames of one call and the voices after it. */
  datatype Period = Period(samples: seq<Int16>, bank: Bank)

  /** What one pair adds to the slot (before narrowing) and the voices after it. */
  datatype PairOut = PairOut(contribution: int, bank: Bank)

  /** The modulator's value b and its DDS and the shared envelope after it. */
  datatype ModOut = ModOut(value: int, dds: Dds.DdsState, jenv: JoeEnvelope.JEnvState)

  /** One `altsynth` voice: its enveloped sample and its oscillator and envelope after the frame. */
  datatype VoiceOut = VoiceOut(sample: Int16, osc: WaveTableOsc.WtoState, env: Adsr.AdsrState)

  predicate BankOk(b: Bank)
  {
    |b.wtosc| == Voices && |b.env| == Voices && |b.dds| == Voices && |b.jenv| == Voices
  }

  /** Every global array has 24 entries, `voice` selects one, and every wave number is NONE or a 4096-entry table. */
  predicate ConfigOk(c: Config)
  {
    |c.ow| == Voices && |c.ampZero| == Voices && |c.oe| == Voices && |c.top| == Voices && |c.bot| == Voices
    && 0 <= c.voice < Voices
    && (forall t | 0 <= t < |c.waves| :: |c.waves[t]| == Wavetables.WaveSize)
    && (forall k | 0 <= k < Voices :: c.ow[k] == NoWave || 0 <= c.ow[k] < |c.waves|)
  }

  // ---------------------------------------------------------------- altsynth

  /** What `altsynth` needs: every `bot[v]` is a divisor and every oscillator's phase lies within its table. */
  predicate AltDefined(c: Config, b: Bank)
  {
    BankOk(b) && |c.top| == Voices && |c.bot| == Voices
    && forall k | 0 <= k < Voices :: c.bot[k] != 0 && WaveTableOsc.Valid(b.wtosc[k])
  }

  /**
   * One voice of `altsynth`: the oscillator's sample scaled by top/bot,
   * then by the envelope value `envelope_process` returns; the oscillator
   * and envelope each take exactly one step.
   */
  function AltVoice(w: WaveTableOsc.WtoState, e: Adsr.AdsrState, top: int, bot: int): (r: VoiceOut)
    requires WaveTableOsc.Valid(w) && bot != 0
    ensures r.osc == WaveTableOsc.Advance(w) && r.env == Adsr.Process(e)
  {
    var s := ScaleBy(WaveTableOsc.Sample(w), top, bot);
    var e' := Adsr.Process(e);
    VoiceOut(ApplyEnvelope(s, Adsr.Output(e'.currentLevel)), WaveTableOsc.Advance(w), e')
  }

  /**
   * With an amplitude fraction in [0, 1] and an envelope whose peak is at
   * most 1.0, a voice never comes out louder than its oscillator's sample,
   * and with the same sign.
   */
  lemma AltVoiceAttenuates(w: WaveTableOsc.WtoState, e: Adsr.AdsrState, top: int, bot: int)
    requires WaveTableOsc.Valid(w) && 0 <= top <= bot && bot != 0
    requires Adsr.Inv(e) && e.attackLevel <= Adsr.FpScale
    ensures var x := WaveTableOsc.Sample(w);
      var y := AltVoice(w, e, top, bot).sample;
      (x >= 0 ==> 0 <= y <= x) && (x < 0 ==> x <= y <= 0)
  {
    var x := WaveTableOsc.Sample(w);
    var s := ScaleBy(x, top, bot);
    ScaleAttenuates(x, top, bot);
    var e' := Adsr.Process(e);
    Adsr.OutputRange(e'.currentLevel);
    EnvelopeAttenuates(s, Adsr.Output(e'.currentLevel));
  }

  /**
   * The slot after the voices below v: every one of them stepped its
   * oscillator and envelope exactly once, the others and the `synth`
   * state are untouched.
   */
  function AltMix(c: Config, b: Bank, v: nat): (r: Mixed)
    requires AltDefined(c, b) && v <= Voices
    ensures AltDefined(c, r.bank)
    ensures forall k | 0 <= k < v ::
      r.bank.wtosc[k] == WaveTableOsc.Advance(b.wtosc[k]) && r.bank.env[k] == Adsr.Process(b.env[k])
    ensures forall k | v <= k < Voices :: r.bank.wtosc[k] == b.wtosc[k] && r.bank.env[k] == b.env[k]
    ensures r.bank.dds == b.dds && r.bank.jenv == b.jenv
    decreases v
  {
    if v == 0 then Mixed(0, b)
    else
      var m := AltMix(c, b, v - 1);
      var o := AltVoice(m.bank.wtosc[v - 1], m.bank.env[v - 1], c.top[v - 1], c.bot[v - 1]);
      Mixed(Accumulate(m.sample, o.sample),
            m.bank.(wtosc := m.bank.wtosc[v - 1 := o.osc], env := m.bank.env[v - 1 := o.env]))
  }

  /** The exact sum of the outputs of the voices below v, each computed from the frame's starting state. */
  function VoiceSum(c: Config, b: Bank, v: nat): int
    requires AltDefined(c, b) && v <= Voices
    decreases v
  {
    if v == 0 then 0
    else VoiceSum(c, b, v - 1) + AltVoice(b.wtosc[v - 1], b.env[v - 1], c.top[v - 1], c.bot[v - 1]).sample
  }

  /**
   * The voices are independent and the slot is their sum wrapped once to
   * int16: accumulating voice by voice in the int16 slot loses nothing but
   * the final wrap.
   */
  lemma {:induction false} AltMixIsWrappedSum(c: Config, b: Bank, v: nat)
    requires AltDefined(c, b) && v <= Voices
    ensures AltMix(c, b, v).sample == I16(VoiceSum(c, b, v))
    decreases v
  {
    if v > 0 {
      AltMixIsWrappedSum(c, b, v - 1);
      var m := AltMix(c, b, v - 1);
      var o := AltVoice(b.wtosc[v - 1], b.env[v - 1], c.top[v - 1], c.bot[v - 1]);
      assert m.bank.wtosc[v - 1] == b.wtosc[v - 1] && m.bank.env[v - 1] == b.env[v - 1];
      assert AltMix(c, b, v).sample == Accumulate(m.sample, o.sample);
      assert VoiceSum(c, b, v) == VoiceSum(c, b, v - 1) + o.sample;
      AccumulateWraps(VoiceSum(c, b, v - 1), o.sample);
    }
  }

  /** n frames of `altsynth`. */
  function AltPeriod(c: Config, b: Bank, n: nat): (r: Period)
    requires AltDefined(c, b)
    ensures |r.samples| == n && AltDefined(c, r.bank)
    decreases n
  {
    if n == 0 then Period([], b)
    else
      var p := AltPeriod(c, b, n - 1);
      var m := AltMix(c, p.bank, Voices);
      Period(p.samples + [m.sample], m.bank)
  }

  /**
   * After n frames every oscillator and every envelope has taken exactly n
   * steps, and the `synth` state is untouched.
   */
  lemma {:induction false} AltPeriodStepsEveryVoice(c: Config, b: Bank, n: nat)
    requires AltDefined(c, b)
    ensures forall k | 0 <= k < Voices ::
      AltPeriod(c, b, n).bank.wtosc[k] == WaveTableOsc.Run(b.wtosc[k], n)
      && AltPeriod(c, b, n).bank.env[k] == Adsr.Run(b.env[k], n)
    ensures AltPeriod(c, b, n).bank.dds == b.dds && AltPeriod(c, b, n).bank.jenv == b.jenv
    decreases n
  {
    if n > 0 {
      AltPeriodStepsEveryVoice(c, b, n - 1);
      var p := AltPeriod(c, b, n - 1);
      var m := AltMix(c, p.bank, Voices);
      assert AltPeriod(c, b, n).bank == m.bank;
      forall k | 0 <= k < Voices
        ensures m.bank.wtosc[k] == WaveTableOsc.Run(b.wtosc[k], n)
        ensures m.bank.env[k] == Adsr.Run(b.env[k], n)
      {
        assert m.bank.wtosc[k] == WaveTableOsc.Advance(p.bank.wtosc[k]);
        assert m.bank.env[k] == Adsr.Process(p.bank.env[k]);
      }
    }
  }

  // ---------------------------------------------------------------- synth

  /** Carrier i is played: its wave is not NONE, its amplitude is not 0.0 and `top[i] != 0`. */
  predicate PairActive(c: Config, i: int)
    requires ConfigOk(c) && 0 <= i < Voices
  {
    c.ow[i] != NoWave && !c.ampZero[i] && c.top[i] != 0
  }

  /** The divisions pair i performs: by `bot[i]` when it is played, and by `bot[i+1]` when its modulator has a wave. */
  predicate PairDefined(c: Config, i: int)
    requires ConfigOk(c) && 0 <= i < Voices - 1
  {
    PairActive(c, i) ==> c.bot[i] != 0 && (c.ow[i + 1] != NoWave ==> c.bot[i + 1] != 0)
  }

  /** The carrier of pair p: the pair loop visits carriers 0, 2, 4, ... */
  function Carrier(p: int): int
  {
    2 * p
  }

  /** Every pair the loop visits is defined. */
  predicate SynthDefined(c: Config, b: Bank)
  {
    PairsDefined(c) && BankOk(b)
  }

  /** The settings side of `SynthDefined`: it does not depend on the voices' state. */
  predicate PairsDefined(c: Config)
  {
    ConfigOk(c) && forall p | 0 <= p < Voices / 2 :: PairDefined(c, Carrier(p))
  }

  /**
   * The modulator i + 1 of a played pair: nothing for wave NONE; otherwise
   * its DDS steps, and its scaled sample, passed through the shared envelope
   * when `oe[i+1]` is set, is the value that retunes the carrier.
   */
  function Modulator(c: Config, d: Dds.DdsState, j: JoeEnvelope.JEnvState, m: int): (r: ModOut)
    requires ConfigOk(c) && 0 <= m < Voices && (c.ow[m] != NoWave ==> c.bot[m] != 0)
    ensures c.ow[m] == NoWave ==> r == ModOut(0, d, j)
    ensures c.ow[m] != NoWave ==> r.dds == Dds.Advance(d)
    ensures r.jenv == if c.ow[m] != NoWave && c.oe[m] then JoeEnvelope.Next(j) else j
  {
    if c.ow[m] == NoWave then ModOut(0, d, j)
    else
      var b := ScaleBy(Dds.Sample(d, c.waves[c.ow[m]]), c.top[m], c.bot[m]);
      if c.oe[m] then
        var j' := JoeEnvelope.Next(j);
        ModOut(ApplyEnvelope(b, JoeEnvelope.Output(j'.currentLevel)), Dds.Advance(d), j')
      else ModOut(b, Dds.Advance(d), j)
  }

  /** How many times pair i calls `joe_env_next(&jenv[voice])` in a frame. */
  function EnvelopeCalls(c: Config, i: int): nat
    requires ConfigOk(c) && 0 <= i < Voices - 1
  {
    if !PairActive(c, i) then 0
    else (if c.ow[i + 1] != NoWave && c.oe[i + 1] then 1 else 0) + (if c.oe[i] then 1 else 0)
  }

  /**
   * One pair of `synth`. A skipped pair adds nothing and changes nothing.
   * A played pair steps the carrier's DDS once and gives it the increment
   * retuned by the modulator's value, steps the modulator's DDS once unless
   * its wave is NONE, steps the shared envelope `jenv[voice]` once per
   * enveloped member, and touches no other voice.
   */
  function SynthPair(c: Config, retune: Retune, b: Bank, i: int): (r: PairOut)
    requires ConfigOk(c) && BankOk(b) && 0 <= i < Voices - 1 && PairDefined(c, i)
    ensures BankOk(r.bank) && r.bank.wtosc == b.wtosc && r.bank.env == b.env
    ensures !PairActive(c, i) ==> r == PairOut(0, b)
  {
    if !PairActive(c, i) then PairOut(0, b)
    else
      var a := ScaleBy(Dds.Sample(b.dds[i], c.waves[c.ow[i]]), c.top[i], c.bot[i]);
      var stepped := b.dds[i := Dds.Advance(b.dds[i])];
      var mo := Modulator(c, b.dds[i + 1], b.jenv[c.voice], i + 1);
      var modded := stepped[i + 1 := mo.dds];
      var dds := modded[i := modded[i].(phaseIncrement := retune(i, mo.value))];
      var jenv := b.jenv[c.voice := mo.jenv];
      if c.oe[i] then
        var jenv' := jenv[c.voice := JoeEnvelope.Next(jenv[c.voice])];
        PairOut(ApplyEnvelope(a, JoeEnvelope.Output(jenv'[c.voice].currentLevel)), b.(dds := dds, jenv := jenv'))
      else PairOut(a, b.(dds := dds, jenv := jenv))
  }

  /**
   * A played pair steps the carrier's DDS once and gives it the increment
   * retuned by the modulator's value, steps the modulator's DDS once unless
   * its wave is NONE, steps the shared envelope `jenv[voice]` once per
   * enveloped member, and touches no other voice.
   */
  lemma SynthPairEffects(c: Config, retune: Retune, b: Bank, i: int)
    requires ConfigOk(c) && BankOk(b) && 0 <= i < Voices - 1 && PairDefined(c, i)
    ensures var r := SynthPair(c, retune, b, i);
      (forall k | 0 <= k < Voices && k != i && k != i + 1 :: r.bank.dds[k] == b.dds[k])
      && (forall k | 0 <= k < Voices && k != c.voice :: r.bank.jenv[k] == b.jenv[k])
      && (PairActive(c, i) ==>
        r.bank.dds[i].phaseAccumulator == Dds.Advance(b.dds[i]).phaseAccumulator
        && r.bank.dds[i].phaseIncrement == retune(i, Modulator(c, b.dds[i + 1], b.jenv[c.voice], i + 1).value)
        && r.bank.dds[i + 1] == (if c.ow[i + 1] == NoWave then b.dds[i + 1] else Dds.Advance(b.dds[i + 1])))
      && r.bank.jenv[c.voice] == JoeEnvelope.Run(b.jenv[c.voice], EnvelopeCalls(c, i))
  {
    assert JoeEnvelope.Run(b.jenv[c.voice], 1) == JoeEnvelope.Next(b.jenv[c.voice]);
    assert JoeEnvelope.Run(b.jenv[c.voice], 2) == JoeEnvelope.Next(JoeEnvelope.Next(b.jenv[c.voice]));
  }

  /**
   * The modulator is never heard: unless both members of the pair go
   * through the shared envelope (the only way the modulator can change what
   * the carrier reads), the pair adds the same to the slot whatever the
   * modulator's wave, even NONE.
   */
  lemma ModulatorNeverHeard(c: Config, retune: Retune, b: Bank, i: int)
    requires ConfigOk(c) && BankOk(b) && 0 <= i < Voices - 1 && PairDefined(c, i)
    requires !(c.oe[i] && c.oe[i + 1])
    ensures var c' := c.(ow := c.ow[i + 1 := NoWave]);
      ConfigOk(c') && PairDefined(c', i)
      && SynthPair(c', retune, b, i).contribution == SynthPair(c, retune, b, i).contribution
  {
  }

  /** The slot after the pairs below p (voices below 2p). */
  function SynthMix(c: Config, retune: Retune, b: Bank, p: nat): (r: Mixed)
    requires SynthDefined(c, b) && p <= Voices / 2
    ensures SynthDefined(c, r.bank) && r.bank.wtosc == b.wtosc && r.bank.env == b.env
    decreases p
  {
    if p == 0 then Mixed(0, b)
    else
      var m := SynthMix(c, retune, b, p - 1);
      var o := SynthPair(c, retune, m.bank, Carrier(p - 1));
      Mixed(Accumulate(m.sample, o.contribution), o.bank)
  }

  /** n frames of `synth`. */
  function SynthPeriod(c: Config, retune: Retune, b: Bank, n: nat): (r: Period)
    requires SynthDefined(c, b)
    ensures |r.samples| == n && SynthDefined(c, r.bank)
    decreases n
  {
    if n == 0 then Period([], b)
    else
      var p := SynthPeriod(c, retune, b, n - 1);
      var m := SynthMix(c, retune, p.bank, Voices / 2);
      Period(p.samples + [m.sample], m.bank)
  }

  /** No pair is played. */
  predicate AllSkipped(c: Config)
    requires ConfigOk(c)
  {
    forall p | 0 <= p < Voices / 2 :: !PairActive(c, Carrier(p))
  }

  /** With every pair skipped a frame is silent and leaves every voice as it was. */
  lemma {:induction false} SilentMix(c: Config, retune: Retune, b: Bank, p: nat)
    requires SynthDefined(c, b) && AllSkipped(c) && p <= Voices / 2
    ensures SynthMix(c, retune, b, p) == Mixed(0, b)
    decreases p
  {
    if p > 0 {
      SilentMix(c, retune, b, p - 1);
      assert !PairActive(c, Carrier(p - 1));
    }
  }

  /** One more silent frame. */
  lemma SilenceGrows(n: nat)
    ensures var z: seq<Int16> := seq(n, k => 0); z + [0] == seq(n + 1, k => 0)
  {
  }

  /**
   * With every pair skipped, every frame `synth` writes is 0 (each frame
   * starts from 0 and nothing is added) and no voice state changes.
   */
  lemma {:induction false} SilentPeriod(c: Config, retune: Retune, b: Bank, n: nat)
    requires SynthDefined(c, b) && AllSkipped(c)
    ensures SynthPeriod(c, retune, b, n) == Period(seq(n, k => 0), b)
    decreases n
  {
    if n > 0 {
      SilentPeriod(c, retune, b, n - 1);
      SilentMix(c, retune, b, Voices / 2);
      SilenceGrows(n - 1);
    }
  }

  /** One more voice of `altsynth`. */
  lemma AltMixStep(c: Config, b: Bank, v: nat, slot: Int16, now: Bank)
    requires AltDefined(c, b) && v < Voices && Mixed(slot, now) == AltMix(c, b, v)
    ensures AltDefined(c, now)
    ensures var o := AltVoice(now.wtosc[v], now.env[v], c.top[v], c.bot[v]);
      AltMix(c, b, v + 1)
      == Mixed(Accumulate(slot, o.sample), now.(wtosc := now.wtosc[v := o.osc], env := now.env[v := o.env]))
  {
  }

  /** t lists the running mixes of one `altsynth` frame: entry v is the slot and the bank after v voices. */
  ghost predicate IsAltTable(c: Config, b: Bank, t: seq<Mixed>)
    requires AltDefined(c, b)
  {
    |t| == Voices + 1
    && forall v {:trigger AltMix(c, b, v)} | 0 <= v <= Voices :: t[v] == AltMix(c, b, v)
  }

  /** The running mixes of one `altsynth` frame, from an empty slot. */
  lemma AltTable(c: Config, b: Bank) returns (t: seq<Mixed>)
    requires AltDefined(c, b)
    ensures IsAltTable(c, b, t) && t[0] == Mixed(0, b)
  {
    t := seq(Voices + 1, v requires 0 <= v <= Voices => AltMix(c, b, v));
    assert t[0] == AltMix(c, b, 0);
  }

  /** One more frame of `altsynth`. */
  lemma AltPeriodStep(c: Config, b: Bank, n: nat)
    requires AltDefined(c, b)
    ensures var p := AltPeriod(c, b, n);
      var m := AltMix(c, p.bank, Voices);
      AltPeriod(c, b, n + 1) == Period(p.samples + [m.sample], m.bank)
  {
  }

  /** One more pair of `synth`. */
  lemma SynthMixStep(c: Config, retune: Retune, b: Bank, p: nat, slot: Int16, now: Bank)
    requires SynthDefined(c, b) && p < Voices / 2 && Mixed(slot, now) == SynthMix(c, retune, b, p)
    ensures SynthDefined(c, now)
    ensures var o := SynthPair(c, retune, now, Carrier(p));
      SynthMix(c, retune, b, p + 1) == Mixed(Accumulate(slot, o.contribution), o.bank)
  {
  }

  /** t lists the running mixes of one frame: entry p is the slot and the bank after p pairs. */
  ghost predicate IsMixTable(c: Config, retune: Retune, b: Bank, t: seq<Mixed>)
    requires SynthDefined(c, b)
  {
    |t| == Voices / 2 + 1
    && forall p {:trigger SynthMix(c, retune, b, p)} | 0 <= p <= Voices / 2 :: t[p] == SynthMix(c, retune, b, p)
  }

  /** The running mixes of one frame, from an empty slot. */
  lemma MixTable(c: Config, retune: Retune, b: Bank) returns (t: seq<Mixed>)
    requires SynthDefined(c, b)
    ensures IsMixTable(c, retune, b, t) && t[0] == Mixed(0, b)
  {
    t := seq(Voices / 2 + 1, p requires 0 <= p <= Voices / 2 => SynthMix(c, retune, b, p));
    assert t[0] == SynthMix(c, retune, b, 0);
  }

  /** One more frame of `synth`. */
  lemma SynthPeriodStep(c: Config, retune: Retune, b: Bank, n: nat)
    requires SynthDefined(c, b)
    ensures var p := SynthPeriod(c, retune, b, n);
      var m := SynthMix(c, retune, p.bank, Voices / 2);
      SynthPeriod(c, retune, b, n + 1) == Period(p.samples + [m.sample], m.bank)
  {
  }

  /** The prefix as long as the sequence is the sequence. */
  lemma WholePrefix(s: seq<Int16>)
    ensures s[..|s|] == s
  {
  }

  /** Writing slot n and nothing else extends the filled prefix by that slot. */
  lemma FillOne(before: seq<Int16>, after: seq<Int16>, n: nat, x: Int16)
    requires n < |before| && after == before[n := x]
    ensures after[..n + 1] == before[..n] + [x]
  {
  }

  /** Writing slot n again leaves every other slot as it was first. */
  lemma RewriteSlot(s0: seq<Int16>, s1: seq<Int16>, s2: seq<Int16>, n: nat, x1: Int16, x2: Int16)
    requires n < |s0| && s1 == s0[n := x1] && s2 == s1[n := x2]
    ensures s2 == s0[n := x2]
  {
  }

  /** The global voice arrays of synth.c and the settings the mixers read. */
  class Voices24 {
    var wtosc: seq<WaveTableOsc.WtoState>
    var env: seq<Adsr.AdsrState>
    var dds: seq<Dds.DdsState>
    var jenv: seq<JoeEnvelope.JEnvState>
    const ow: seq<int>
    const ampZero: seq<bool>
    const oe: seq<bool>
    const top: seq<int>
    const bot: seq<int>
    const voice: int
    const waves: seq<seq<Int16>>

    function State(): Bank
      reads this
    {
      Bank(wtosc, env, dds, jenv)
    }

    function Settings(): Config
    {
      Config(ow, ampZero, oe, top, bot, voice, waves)
    }

    constructor (b: Bank, c: Config)
      ensures State() == b && Settings() == c
    {
      wtosc, env, dds, jenv := b.wtosc, b.env, b.dds, b.jenv;
      ow, ampZero, oe, top, bot, voice, waves := c.ow, c.ampZero, c.oe, c.top, c.bot, c.voice, c.waves;
    }

    /** `altsynth`: fills the period's 1024 frames and steps every voice once per frame. */
    method AltSynth(buffer: array<Int16>)
      requires buffer.Length == PeriodSize && AltDefined(Settings(), State())
      modifies this, buffer
      ensures buffer[..] == AltPeriod(Settings(), old(State()), buffer.Length).samples
      ensures State() == AltPeriod(Settings(), old(State()), buffer.Length).bank
    {
      ghost var c := Settings();
      ghost var b0 := State();
      for n := 0 to buffer.Length
        invariant buffer[..n] == AltPeriod(c, b0, n).samples
        invariant State() == AltPeriod(c, b0, n).bank
      {
        NextAltFrame(buffer, n, c, b0);
      }
      WholePrefix(buffer[..]);
    }

    /** `synth`: fills the period's 1024 frames from the played pairs. */
    method Synth(buffer: array<Int16>, retune: Retune)
      requires buffer.Length == PeriodSize && SynthDefined(Settings(), State())
      modifies this, buffer
      ensures buffer[..] == SynthPeriod(Settings(), retune, old(State()), buffer.Length).samples
      ensures State() == SynthPeriod(Settings(), retune, old(State()), buffer.Length).bank
    {
      ghost var c := Settings();
      ghost var b0 := State();
      for n := 0 to buffer.Length
        invariant buffer[..n] == SynthPeriod(c, retune, b0, n).samples
        invariant State() == SynthPeriod(c, retune, b0, n).bank
      {
        NextSynthFrame(buffer, n, retune, c, b0);
      }
      WholePrefix(buffer[..]);
    }

    /** One round of `altsynth`'s frame loop: frame n is written and the voices move on. */
    method NextAltFrame(buffer: array<Int16>, n: nat, ghost c: Config, ghost b0: Bank)
      requires n < buffer.Length && Settings() == c && AltDefined(c, b0)
      requires buffer[..n] == AltPeriod(c, b0, n).samples && State() == AltPeriod(c, b0, n).bank
      modifies this, buffer
      ensures buffer[..n + 1] == AltPeriod(c, b0, n + 1).samples && State() == AltPeriod(c, b0, n + 1).bank
    {
      ghost var before := buffer[..];
      AltFrame(buffer, n);
      AltPeriodStep(c, b0, n);
      FillOne(before, buffer[..], n, buffer[n]);
    }

    /** One round of `synth`'s frame loop: frame n is written and the voices move on. */
    method NextSynthFrame(buffer: array<Int16>, n: nat, retune: Retune, ghost c: Config, ghost b0: Bank)
      requires n < buffer.Length && Settings() == c && SynthDefined(c, b0)
      requires buffer[..n] == SynthPeriod(c, retune, b0, n).samples && State() == SynthPeriod(c, retune, b0, n).bank
      modifies this, buffer
      ensures buffer[..n + 1] == SynthPeriod(c, retune, b0, n + 1).samples && State() == SynthPeriod(c, retune, b0, n + 1).bank
    {
      ghost var before := buffer[..];
      SynthFrame(buffer, n, retune);
      SynthPeriodStep(c, retune, b0, n);
      FillOne(before, buffer[..], n, buffer[n]);
    }

    /** One frame of `altsynth`: `buffer[n]` from 0, then every voice in turn. */
    method AltFrame(buffer: array<Int16>, n: nat)
      requires n < buffer.Length && AltDefined(Settings(), State())
      modifies this, buffer
      ensures Mixed(buffer[n], State()) == AltMix(Settings(), old(State()), Voices)
      ensures buffer[..] == old(buffer[..])[n := buffer[n]]
    {
      ghost var c := Settings();
      ghost var bf := State();
      ghost var t := AltTable(c, bf);
      ghost var s0 := buffer[..];
      buffer[n] := 0;
      for v := 0 to Voices
        invariant Mixed(buffer[n], State()) == t[v]
        invariant buffer[..] == s0[n := buffer[n]]
      {
        NextVoice(buffer, n, v, c, bf, s0, t);
      }
    }

    /** One round of `altsynth`'s voice loop: voice v is added to `buffer[n]` and moves on. */
    method NextVoice(buffer: array<Int16>, n: nat, v: nat, ghost c: Config, ghost bf: Bank, ghost s0: seq<Int16>, ghost t: seq<Mixed>)
      requires n < buffer.Length && v < Voices && Settings() == c && AltDefined(c, bf) && IsAltTable(c, bf, t)
      requires |s0| == buffer.Length && buffer[..] == s0[n := buffer[n]]
      requires Mixed(buffer[n], State()) == t[v]
      modifies this, buffer
      ensures Mixed(buffer[n], State()) == t[v + 1] && buffer[..] == s0[n := buffer[n]]
    {
      assert t[v] == AltMix(c, bf, v) && t[v + 1] == AltMix(c, bf, v + 1);
      AltMixStep(c, bf, v, buffer[n], State());
      ghost var mid := buffer[..];
      ghost var x1 := buffer[n];
      PlayVoice(buffer, n, v);
      RewriteSlot(s0, mid, buffer[..], n, x1, buffer[n]);
    }

    /** The body of `altsynth`'s voice loop for voice v: adds the voice's enveloped sample to `buffer[n]`. */
    method PlayVoice(buffer: array<Int16>, n: nat, v: nat)
      requires n < buffer.Length && v < Voices && AltDefined(Settings(), State())
      modifies this, buffer
      ensures var o := AltVoice(old(wtosc[v]), old(env[v]), top[v], bot[v]);
        buffer[n] == Accumulate(old(buffer[n]), o.sample)
        && State() == old(State()).(wtosc := old(wtosc)[v := o.osc], env := old(env)[v := o.env])
      ensures buffer[..] == old(buffer[..])[n := buffer[n]]
    {
      var s := WaveTableOsc.Sample(wtosc[v]);
      wtosc := wtosc[v := WaveTableOsc.Advance(wtosc[v])];
      s := ScaleBy(s, top[v], bot[v]);
      env := env[v := Adsr.Process(env[v])];
      var envelopeValue := Adsr.Output(env[v].currentLevel);
      var finalOutput := ApplyEnvelope(s, envelopeValue);
      buffer[n] := Accumulate(buffer[n], finalOutput);
    }

    /**
     * One frame of `synth`: `buffer[n]` from 0, then the pairs (0, 1), (2, 3), ...
     * The running value of `buffer[n]` is held in `slot` and stored when the
     * pair loop ends; nothing else reads that entry in between.
     */
    method SynthFrame(buffer: array<Int16>, n: nat, retune: Retune)
      requires n < buffer.Length && SynthDefined(Settings(), State())
      modifies this, buffer
      ensures Mixed(buffer[n], State()) == SynthMix(Settings(), retune, old(State()), Voices / 2)
      ensures buffer[..] == old(buffer[..])[n := buffer[n]]
    {
      var slot := MixPairs(retune);
      buffer[n] := slot;
    }

    /** The pair loop of `synth` for one frame, from a slot of 0. */
    method MixPairs(retune: Retune) returns (slot: Int16)
      requires SynthDefined(Settings(), State())
      modifies this
      ensures Mixed(slot, State()) == SynthMix(Settings(), retune, old(State()), Voices / 2)
    {
      ghost var c := Settings();
      ghost var bf := State();
      ghost var t := MixTable(c, retune, bf);
      slot := 0;
      for p := 0 to Voices / 2
        invariant Mixed(slot, State()) == t[p]
      {
        slot := NextPair(slot, retune, p, c, bf, t);
      }
    }

    /** One round of `synth`'s pair loop: pair p is added to the slot and the voices move on. */
    method NextPair(slot: Int16, retune: Retune, p: nat, ghost c: Config, ghost bf: Bank, ghost t: seq<Mixed>) returns (slot': Int16)
      requires p < Voices / 2 && Settings() == c && SynthDefined(c, bf) && IsMixTable(c, retune, bf, t)
      requires Mixed(slot, State()) == t[p]
      modifies this
      ensures Mixed(slot', State()) == t[p + 1]
    {
      assert t[p] == SynthMix(c, retune, bf, p) && t[p + 1] == SynthMix(c, retune, bf, p + 1);
      SynthMixStep(c, retune, bf, p, slot, State());
      slot' := PlayPair(slot, retune, p);
    }

    /** The body of `synth`'s pair loop for pair p (carrier i = 2p): adds the pair's contribution to the slot. */
    method PlayPair(slot: Int16, retune: Retune, p: nat) returns (slot': Int16)
      requires p < Voices / 2 && SynthDefined(Settings(), State())
      modifies this
      ensures var o := SynthPair(Settings(), retune, old(State()), Carrier(p));
        slot' == Accumulate(slot, o.contribution) && State() == o.bank
    {
      slot' := slot;
      var i := Carrier(p);
      assert PairDefined(Settings(), i);
      if ow[i] == NoWave || ampZero[i] || top[i] == 0 {
        return;
      }
      var a := ScaleBy(Dds.Sample(dds[i], waves[ow[i]]), top[i], bot[i]);
      dds := dds[i := Dds.Advance(dds[i])];
      var b := PlayModulator(i + 1);
      dds := dds[i := dds[i].(phaseIncrement := retune(i, b))];
      if oe[i] {
        jenv := jenv[voice := JoeEnvelope.Next(jenv[voice])];
        var envelopeValue := JoeEnvelope.Output(jenv[voice].currentLevel);
        slot' := Accumulate(slot, ApplyEnvelope(a, envelopeValue));
      } else {
        slot' := Accumulate(slot, a);
      }
    }

    /** The modulator part of a played pair: steps voice `mod`'s DDS and returns the value that retunes the carrier. */
    method PlayModulator(mod: int) returns (b: int)
      requires ConfigOk(Settings()) && |dds| == Voices && |jenv| == Voices && 0 <= mod < Voices
      requires ow[mod] != NoWave ==> bot[mod] != 0
      modifies this
      ensures wtosc == old(wtosc) && env == old(env)
      ensures var mo := Modulator(Settings(), old(dds[mod]), old(jenv[voice]), mod);
        b == mo.value && dds == old(dds)[mod := mo.dds] && jenv == old(jenv)[voice := mo.jenv]
    {
      b := 0;
      if ow[mod] != NoWave {
        b := ScaleBy(Dds.Sample(dds[mod], waves[ow[mod]]), top[mod], bot[mod]);
        dds := dds[mod := Dds.Advance(dds[mod])];
        if oe[mod] {
          jenv := jenv[voice := JoeEnvelope.Next(jenv[voice])];
          var envelopeValue := JoeEnvelope.Output(jenv[voice].currentLevel);
          b := ApplyEnvelope(b, envelopeValue);
        }
      }
    }
  }
}
