/**
 * The fixed-point ADSR envelope shared, with the same stage machine, by
 * a200.c (`Envelope`, `envelope_init`, `envelope_note_on`,
 * `envelope_note_off`, `envelope_process`), synth.c (the same functions)
 * and messed-up-synth.c (`env_t`, `env_init`, `env_on`, `env_off`,
 * `env_next`). Levels are Q15 (32768 is 1.0); each call moves the level by
 * a per-sample rate and clamps at the stage's target.
 */
module Adsr {
  import opened CInt

  /** FP_SCALE: 1.0 in Q15. */
  const FpScale: int := 0x8000
  /** `(FP_SCALE * 7) / 10`: the sustain level `envelope_init` sets. */
  const DefaultSustain: int := 22937
  /** SAMPLE_RATE, used by `env_init`. */
  const SampleRate: int := 44100

  datatype Stage = Idle | Attack | Decay | Sustain | Release

  /** The value of an envelope struct (the display-only millisecond fields are left out). */
  datatype AdsrState = AdsrState(
    attackRate: int,
    decayRate: int,
    releaseRate: int,
    attackLevel: int,
    sustainLevel: int,
    stage: Stage,
    currentLevel: int,
    noteOn: bool)

  /**
   * Positive int32 rates, ordered targets, and a level between silence and
   * the attack peak. The peak plus one attack rate stays below 2^31, so the
   * int32 sums and differences of `envelope_process` never overflow.
   */
  predicate Inv(e: AdsrState)
  {
    1 <= e.attackRate && 1 <= e.decayRate < Two31 && 1 <= e.releaseRate < Two31
    && e.attackLevel + e.attackRate < Two31
    && 0 <= e.sustainLevel <= e.attackLevel
    && 0 <= e.currentLevel <= e.attackLevel
  }

  /** `(ms * sample_rate) / 1000` in uint32 arithmetic: the length of a stage in samples. */
  function Samples(ms: UInt32, sampleRate: UInt32): UInt32
  {
    U32(ms * sampleRate) / 1000
  }

  /**
   * A rate as the init functions compute it: the int32 level change
   * divided by the uint32 sample count (so the change is converted to
   * uint32 first), stored as int32, and bumped from 0 to 1. It is never 0,
   * and for a change in [0, 2^31) it is the truncated quotient, at least 1.
   */
  function RateFor(delta: int, samples: UInt32): (r: int)
    requires samples > 0
    ensures r != 0
    ensures 0 <= delta < Two31 ==> r == if delta / samples == 0 then 1 else delta / samples
    ensures 0 <= delta < Two31 ==> 1 <= r <= if delta == 0 then 1 else delta
  {
    DivLeSelf(delta, samples);
    var q := I32(U32(delta) / samples);
    if q == 0 then 1 else q
  }

  lemma DivLeSelf(a: int, d: int)
    requires 0 < d
    ensures 0 <= a ==> 0 <= a / d <= a
  {
    if 0 <= a {
      var q := NatDiv(a, d);
      if q > a {
        MulMonoLe(q, 1, d);
        assert false;
      }
    }
  }

  /**
   * `envelope_init` (a200.c, synth.c): peak 1.0, sustain 0.7, rates from the
   * stage lengths, idle and silent. Every stage length must be non-zero,
   * since the source divides by it unguarded.
   */
  function EnvelopeInit(attackMs: UInt32, decayMs: UInt32, releaseMs: UInt32, sampleRate: UInt32): (r: AdsrState)
    requires Samples(attackMs, sampleRate) > 0 && Samples(decayMs, sampleRate) > 0
    requires Samples(releaseMs, sampleRate) > 0
    ensures Inv(r)
    ensures r.attackLevel == FpScale && r.sustainLevel == DefaultSustain
    ensures r.stage == Idle && r.currentLevel == 0 && !r.noteOn
  {
    AdsrState(
      RateFor(FpScale, Samples(attackMs, sampleRate)),
      RateFor(FpScale - DefaultSustain, Samples(decayMs, sampleRate)),
      RateFor(DefaultSustain, Samples(releaseMs, sampleRate)),
      FpScale, DefaultSustain, Idle, 0, false)
  }

  /** `env_init` turns a duration of 0 ms into 1 ms. */
  function AtLeastOneMs(ms: UInt32): (r: UInt32)
    ensures r >= 1 && (ms != 0 ==> r == ms)
  {
    if ms == 0 then 1 else ms
  }

  /**
   * `env_init` (messed-up-synth.c): durations of 0 ms become 1 ms, the
   * stage lengths use 44100 Hz, and the Q15 levels (computed in double
   * from the caller's levels) are inputs. No rate is ever 0. With ordered,
   * non-negative levels the result satisfies the envelope invariant exactly
   * when the peak plus the attack rate fits in int32, which every peak below
   * 2^30 (32768 times 1.0) does; a larger peak makes the attack add overflow.
   */
  function EnvInit(attackMs: UInt32, decayMs: UInt32, releaseMs: UInt32, attackLevel: Int32, sustainLevel: Int32): (r: AdsrState)
    requires Samples(AtLeastOneMs(attackMs), SampleRate) > 0
    requires Samples(AtLeastOneMs(decayMs), SampleRate) > 0
    requires Samples(AtLeastOneMs(releaseMs), SampleRate) > 0
    ensures r.attackRate != 0 && r.decayRate != 0 && r.releaseRate != 0
    ensures 0 <= sustainLevel <= attackLevel ==> (Inv(r) <==> attackLevel + r.attackRate < Two31)
    ensures 0 <= sustainLevel <= attackLevel < 0x4000_0000 ==> Inv(r)
    ensures r.attackLevel == attackLevel && r.sustainLevel == sustainLevel
    ensures r.stage == Idle && r.currentLevel == 0 && !r.noteOn
  {
    AdsrState(
      RateFor(attackLevel, Samples(AtLeastOneMs(attackMs), SampleRate)),
      RateFor(attackLevel - sustainLevel, Samples(AtLeastOneMs(decayMs), SampleRate)),
      RateFor(sustainLevel, Samples(AtLeastOneMs(releaseMs), SampleRate)),
      attackLevel, sustainLevel, Idle, 0, false)
  }

  /**
   * The command `B1,1,1,65535,0` gives a peak of 65535 times 32768 over 44
   * samples: the attack rate is 48805701, and the 45th attack add would pass
   * 2^31, so this envelope is outside the invariant.
   */
  lemma EnvInitOverflows()
    ensures var r := EnvInit(1, 1, 1, 65535 * FpScale, 0);
      r.attackRate == 48805701 && !Inv(r) && 44 * r.attackRate < r.attackLevel
  {
    assert Samples(AtLeastOneMs(1), SampleRate) == 44;
    assert U32(65535 * FpScale) / 44 == 48805701;
  }

  /** For every duration from 1 ms to 97391 ms the stage is at least 44 samples, so `env_init` never divides by zero. */
  lemma EnvInitSamples(ms: UInt32)
    requires 1 <= ms <= 97391
    ensures Samples(ms, SampleRate) >= 44
  {
    MulMonoLe(SampleRate, ms, 97391);
    assert U32(ms * SampleRate) == ms * SampleRate;
    MulMonoLe(SampleRate, 1, ms);
  }

  /** One call of `envelope_process` / `env_next`: the level update of the current stage. */
  function Process(e: AdsrState): (r: AdsrState)
    ensures Inv(e) ==> Inv(r)
    ensures r == e.(stage := r.stage, currentLevel := r.currentLevel)
  {
    match e.stage
    case Idle => e.(currentLevel := 0)
    case Attack =>
      var l := e.currentLevel + e.attackRate;
      if l >= e.attackLevel then e.(currentLevel := e.attackLevel, stage := Decay)
      else e.(currentLevel := l)
    case Decay =>
      var l := e.currentLevel - e.decayRate;
      if l <= e.sustainLevel then e.(currentLevel := e.sustainLevel, stage := Sustain)
      else e.(currentLevel := l)
    case Sustain =>
      if !e.noteOn then e.(stage := Release) else e
    case Release =>
      var l := e.currentLevel - e.releaseRate;
      if l <= 0 then e.(currentLevel := 0, stage := Idle)
      else e.(currentLevel := l)
  }

  /** `(int16_t)((current_level * 32767) >> FP_BITS)`: the level scaled to the int16 range. */
  function Output(level: int): Int16
  {
    I16(Shr15(level * 32767))
  }

  /** Any level between silence and 1.0 comes out in [0, 32767] without the int16 cast wrapping. */
  lemma OutputRange(level: int)
    requires 0 <= level <= FpScale
    ensures 0 <= Output(level) <= 32767
    ensures Output(level) == Shr15(level * 32767)
  {
    MulMonoLe(32767, 0, level);
    MulMonoLe(32767, level, FpScale);
    assert Shr15(level * 32767) * FpScale <= level * 32767;
    if Shr15(level * 32767) > 32767 {
      MulMonoLe(FpScale, 32768, Shr15(level * 32767));
      assert false;
    }
  }

  /**
   * `envelope_note_on` / `env_on`: ATTACK with the gate open, from whatever
   * level the envelope is at (the level is not reset); nothing else changes.
   */
  function StartNote(e: AdsrState): (r: AdsrState)
    ensures r.stage == Attack && r.noteOn
    ensures r == e.(stage := r.stage, noteOn := r.noteOn)
    ensures Inv(e) ==> Inv(r)
  {
    e.(noteOn := true, stage := Attack)
  }

  /** `envelope_note_off` / `env_off`: RELEASE with the gate closed, the level kept; nothing else changes. */
  function EndNote(e: AdsrState): (r: AdsrState)
    ensures r.stage == Release && !r.noteOn
    ensures r == e.(stage := r.stage, noteOn := r.noteOn)
    ensures Inv(e) ==> Inv(r)
  {
    e.(noteOn := false, stage := Release)
  }

  /** n calls of `envelope_process`. */
  function Run(e: AdsrState, n: nat): AdsrState
    decreases n
  {
    if n == 0 then e else Process(Run(e, n - 1))
  }

  /**
   * Over any number of calls the envelope keeps its invariant and its
   * targets, and with a peak of at most 1.0 every returned value lies in [0, 32767].
   */
  lemma {:induction false} RunInRange(e: AdsrState, n: nat)
    requires Inv(e) && e.attackLevel <= FpScale
    ensures Inv(Run(e, n))
    ensures Run(e, n).attackLevel == e.attackLevel && Run(e, n).sustainLevel == e.sustainLevel
    ensures 0 <= Output(Run(e, n).currentLevel) <= 32767
    decreases n
  {
    if n > 0 {
      RunInRange(e, n - 1);
    }
    OutputRange(Run(e, n).currentLevel);
  }

  /** While the peak is out of reach the attack adds exactly one rate per call. */
  lemma {:induction false} AttackRamp(e: AdsrState, j: nat)
    requires e.stage == Attack && e.attackRate >= 0
    requires e.currentLevel + j * e.attackRate < e.attackLevel
    ensures Run(e, j) == e.(currentLevel := e.currentLevel + j * e.attackRate)
    decreases j
  {
    if j > 0 {
      MulMonoLe(e.attackRate, j - 1, j);
      AttackRamp(e, j - 1);
      assert (j - 1) * e.attackRate + e.attackRate == j * e.attackRate;
    }
  }

  /**
   * The attack lands exactly on the peak and moves to DECAY on the first
   * call k whose ramp would reach it.
   */
  lemma AttackPeak(e: AdsrState, k: nat)
    requires e.stage == Attack && e.attackRate >= 0 && k >= 1
    requires e.currentLevel + (k - 1) * e.attackRate < e.attackLevel <= e.currentLevel + k * e.attackRate
    ensures Run(e, k) == e.(currentLevel := e.attackLevel, stage := Decay)
  {
    AttackRamp(e, k - 1);
    assert (k - 1) * e.attackRate + e.attackRate == k * e.attackRate;
  }

  /** From silence the peak is reached after ceil(attack_level / attack_rate) calls. */
  lemma AttackFromSilence(e: AdsrState)
    requires e.stage == Attack && e.currentLevel == 0 && e.attackRate >= 1 && e.attackLevel >= 1
    ensures Run(e, (e.attackLevel + e.attackRate - 1) / e.attackRate)
         == e.(currentLevel := e.attackLevel, stage := Decay)
  {
    var a := e.attackLevel;
    var r := e.attackRate;
    var k := (a + r - 1) / r;
    var m := (a + r - 1) % r;
    assert a + r - 1 == k * r + m;
    assert k >= 1 by {
      if k <= 0 {
        MulMonoLe(r, k, 0);
        assert false;
      }
    }
    AttackPeak(e, k);
  }

  /** While above the sustain target, the decay removes exactly one rate per call. */
  lemma {:induction false} DecayRamp(e: AdsrState, j: nat)
    requires e.stage == Decay && e.decayRate >= 0
    requires e.currentLevel - j * e.decayRate > e.sustainLevel
    ensures Run(e, j) == e.(currentLevel := e.currentLevel - j * e.decayRate)
    decreases j
  {
    if j > 0 {
      MulMonoLe(e.decayRate, j - 1, j);
      DecayRamp(e, j - 1);
      assert (j - 1) * e.decayRate + e.decayRate == j * e.decayRate;
    }
  }

  /** The decay ends exactly on the sustain level, in SUSTAIN. */
  lemma DecaySettles(e: AdsrState, k: nat)
    requires e.stage == Decay && e.decayRate >= 0 && k >= 1
    requires e.currentLevel - (k - 1) * e.decayRate > e.sustainLevel >= e.currentLevel - k * e.decayRate
    ensures Run(e, k) == e.(currentLevel := e.sustainLevel, stage := Sustain)
  {
    DecayRamp(e, k - 1);
    assert (k - 1) * e.decayRate + e.decayRate == k * e.decayRate;
  }

  /** SUSTAIN holds the level and the stage for as long as the note is on. */
  lemma {:induction false} SustainHolds(e: AdsrState, n: nat)
    requires e.stage == Sustain && e.noteOn
    ensures Run(e, n) == e
    decreases n
  {
    if n > 0 {
      SustainHolds(e, n - 1);
    }
  }

  /** With the note off, SUSTAIN hands over to RELEASE and keeps the level for that call. */
  lemma SustainReleases(e: AdsrState)
    requires e.stage == Sustain && !e.noteOn
    ensures Run(e, 1) == e.(stage := Release)
  {
  }

  /** While above silence, the release removes exactly one rate per call. */
  lemma {:induction false} ReleaseRamp(e: AdsrState, j: nat)
    requires e.stage == Release && e.releaseRate >= 0
    requires e.currentLevel - j * e.releaseRate > 0
    ensures Run(e, j) == e.(currentLevel := e.currentLevel - j * e.releaseRate)
    decreases j
  {
    if j > 0 {
      MulMonoLe(e.releaseRate, j - 1, j);
      ReleaseRamp(e, j - 1);
      assert (j - 1) * e.releaseRate + e.releaseRate == j * e.releaseRate;
    }
  }

  /** The release ends exactly at 0, in IDLE. */
  lemma ReleaseEnds(e: AdsrState, k: nat)
    requires e.stage == Release && e.releaseRate >= 0 && k >= 1
    requires e.currentLevel - (k - 1) * e.releaseRate > 0 >= e.currentLevel - k * e.releaseRate
    ensures Run(e, k) == e.(currentLevel := 0, stage := Idle)
  {
    ReleaseRamp(e, k - 1);
    assert (k - 1) * e.releaseRate + e.releaseRate == k * e.releaseRate;
  }

  /** IDLE forces silence on every call and stays IDLE. */
  lemma {:induction false} IdleSilent(e: AdsrState, n: nat)
    requires e.stage == Idle && n >= 1
    ensures Run(e, n) == e.(currentLevel := 0)
    decreases n
  {
    if n > 1 {
      IdleSilent(e, n - 1);
    }
  }

  /** One rate of `envelope_init` / `env_init`: `(int32_t)((uint32_t)delta / samples)`, with 1 in place of 0. */
  method ComputeRate(delta: int, samples: UInt32) returns (rate: int)
    requires samples > 0
    ensures rate == RateFor(delta, samples)
  {
    rate := I32(U32(delta) / samples);
    if rate == 0 {
      rate := 1;
    }
  }

  /** An envelope struct updated in place through its pointer. */
  class Envelope {
    var attackRate: int
    var decayRate: int
    var releaseRate: int
    var attackLevel: int
    var sustainLevel: int
    var stage: Stage
    var currentLevel: int
    var noteOn: bool

    function State(): AdsrState
      reads this
    {
      AdsrState(attackRate, decayRate, releaseRate, attackLevel, sustainLevel, stage, currentLevel, noteOn)
    }

    /** `envelope_init` of a200.c and synth.c. */
    constructor Init(attackMs: UInt32, decayMs: UInt32, releaseMs: UInt32, sampleRate: UInt32)
      requires Samples(attackMs, sampleRate) > 0 && Samples(decayMs, sampleRate) > 0
      requires Samples(releaseMs, sampleRate) > 0
      ensures State() == EnvelopeInit(attackMs, decayMs, releaseMs, sampleRate)
    {
      attackLevel := FpScale;
      sustainLevel := (FpScale * 7) / 10;
      var attackSamples := U32(attackMs * sampleRate) / 1000;
      var decaySamples := U32(decayMs * sampleRate) / 1000;
      var releaseSamples := U32(releaseMs * sampleRate) / 1000;
      var ar := ComputeRate(FpScale, attackSamples);
      var dr := ComputeRate(FpScale - DefaultSustain, decaySamples);
      var rr := ComputeRate(DefaultSustain, releaseSamples);
      attackRate, decayRate, releaseRate := ar, dr, rr;
      stage := Idle;
      currentLevel := 0;
      noteOn := false;
    }

    /** `env_init` of messed-up-synth.c (called on an existing struct, so a method). */
    method Reinit(attackMs: UInt32, decayMs: UInt32, releaseMs: UInt32, attackLvl: Int32, sustainLvl: Int32)
      requires Samples(AtLeastOneMs(attackMs), SampleRate) > 0
      requires Samples(AtLeastOneMs(decayMs), SampleRate) > 0
      requires Samples(AtLeastOneMs(releaseMs), SampleRate) > 0
      modifies this
      ensures State() == EnvInit(attackMs, decayMs, releaseMs, attackLvl, sustainLvl)
    {
      var a, d, r := attackMs, decayMs, releaseMs;
      if a == 0 {
        a := 1;
      }
      if d == 0 {
        d := 1;
      }
      if r == 0 {
        r := 1;
      }
      attackLevel := attackLvl;
      sustainLevel := sustainLvl;
      var attackSamples := U32(a * SampleRate) / 1000;
      var decaySamples := U32(d * SampleRate) / 1000;
      var releaseSamples := U32(r * SampleRate) / 1000;
      attackRate := ComputeRate(attackLevel, attackSamples);
      decayRate := ComputeRate(attackLevel - sustainLevel, decaySamples);
      releaseRate := ComputeRate(sustainLevel, releaseSamples);
      stage := Idle;
      currentLevel := 0;
      noteOn := false;
    }

    /** `envelope_note_on` / `env_on`. */
    method NoteOn()
      modifies this
      ensures State() == StartNote(old(State()))
    {
      noteOn := true;
      stage := Attack;
    }

    /** `envelope_note_off` / `env_off`. */
    method NoteOff()
      modifies this
      ensures State() == EndNote(old(State()))
    {
      noteOn := false;
      stage := Release;
    }

    /** `envelope_process` / `env_next`: update the level, then return it scaled to int16. */
    method Next() returns (value: Int16)
      modifies this
      ensures State() == Process(old(State()))
      ensures value == Output(currentLevel)
    {
      match stage {
        case Idle =>
          currentLevel := 0;
        case Attack =>
          currentLevel := currentLevel + attackRate;
          if currentLevel >= attackLevel {
            currentLevel := attackLevel;
            stage := Decay;
          }
        case Decay =>
          currentLevel := currentLevel - decayRate;
          if currentLevel <= sustainLevel {
            currentLevel := sustainLevel;
            stage := Sustain;
          }
        case Sustain =>
          if !noteOn {
            stage := Release;
          }
        case Release =>
          currentLevel := currentLevel - releaseRate;
          if currentLevel <= 0 {
            currentLevel := 0;
            stage := Idle;
          }
      }
      value := I16(Shr15(currentLevel * 32767));
    }
  }
}
