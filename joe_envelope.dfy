/**
 * The attack-only envelope `jenv_t` of synth.c (`calculate_units_per_sample`,
 * `joe_env_init`, `joe_env_trigger`, `joe_env_next`). Only the ATTACK stage
 * does anything: it adds a Q24.8 per-sample delta, without clamping, until
 * the level is no longer below `attack_level`, and then moves to DECAY,
 * where the level stays put.
 */
module JoeEnvelope {
  import opened CInt

  /** SAMPLE_RATE. */
  const SampleRate: int := 44100

  /** JENV_IDLE .. JENV_RELEASE. */
  datatype JStage = JIdle | JAttack | JDecay | JSustain | JRelease

  /** The value of a `jenv_t` struct. */
  datatype JEnvState = JEnvState(
    attackMs: int,
    attackLevel: int,
    attackSamples: int,
    attackDelta: int,
    currentStep: int,
    currentLevel: int,
    currentStage: JStage,
    currentDelta: int)

  /**
   * `calculate_units_per_sample`: 0 for 0 samples, otherwise the target in
   * Q24.8 divided by the sample count with C's truncation toward zero: the
   * magnitude is the floor of the magnitudes' quotient, and the sign is the
   * sign of the exact quotient.
   */
  function UnitsPerSample(target: int, numSamples: int): (r: int)
    ensures numSamples == 0 ==> r == 0
    ensures numSamples != 0 ==> Abs(r) * Abs(numSamples) <= Abs(target * 256) < (Abs(r) + 1) * Abs(numSamples)
    ensures target * numSamples >= 0 ==> r >= 0
    ensures numSamples != 0 && target * numSamples < 0 ==> r <= 0
  {
    if numSamples == 0 then 0
    else
      var r := CDiv(target * 256, numSamples);
      TruncatedQuotient(Abs(target * 256), Abs(numSamples));
      r
  }

  lemma TruncatedQuotient(a: nat, b: nat)
    requires b > 0
    ensures (a / b) * b <= a < (a / b + 1) * b
  {
  }

  /** `attack_ms * SAMPLE_RATE / SAMPLE_RATE` is the duration itself (without int32 overflow). */
  lemma SamplesAreMs(ms: int)
    ensures CDiv(ms * SampleRate, SampleRate) == ms
  {
    DivModUnique(Abs(ms * SampleRate), SampleRate, Abs(ms), 0);
  }

  /**
   * `joe_env_init`: the stage length is the duration (the sample-rate factor
   * cancels), the delta comes from `calculate_units_per_sample`, the
   * envelope is idle and silent, and `current_delta` is NOT reset.
   */
  function Init(e: JEnvState, attackMs: int, attackLevel: int): (r: JEnvState)
    ensures r.attackSamples == attackMs
    ensures r.attackDelta == UnitsPerSample(attackLevel, attackMs)
    ensures r.currentLevel == 0 && r.currentStep == 0 && r.currentStage == JIdle
    ensures r.currentDelta == e.currentDelta
  {
    SamplesAreMs(attackMs);
    var samples := CDiv(attackMs * SampleRate, SampleRate);
    e.(attackMs := attackMs, attackLevel := attackLevel, attackSamples := samples,
       attackDelta := UnitsPerSample(attackLevel, samples),
       currentLevel := 0, currentStep := 0, currentStage := JIdle)
  }

  /** `joe_env_trigger`: ATTACK from level 0 with the configured delta. */
  function Trigger(e: JEnvState): (r: JEnvState)
    ensures r.currentStage == JAttack && r.currentLevel == 0 && r.currentDelta == e.attackDelta
    ensures r == e.(currentStage := r.currentStage, currentLevel := r.currentLevel, currentDelta := r.currentDelta)
    ensures e.attackDelta > 0 && e.attackLevel >= 0 ==> Bounded(r)
  {
    e.(currentStage := JAttack, currentLevel := 0, currentDelta := e.attackDelta)
  }

  /** The level update of `joe_env_next`. Outside ATTACK nothing changes. */
  function Next(e: JEnvState): (r: JEnvState)
    ensures e.currentStage != JAttack ==> r == e
    ensures e.currentStage == JAttack && e.currentLevel >= e.attackLevel ==> r == e.(currentStage := JDecay)
    ensures r == e.(currentLevel := r.currentLevel, currentStage := r.currentStage)
  {
    if e.currentStage == JAttack then
      if e.currentLevel < e.attackLevel then e.(currentLevel := e.currentLevel + e.currentDelta)
      else e.(currentStage := JDecay)
    else e
  }

  /** `(int16_t)((current_level * 32767) >> 8)`: the value `joe_env_next` returns. */
  function Output(level: int): Int16
  {
    I16(Shr8(level * 32767))
  }

  /** n calls of `joe_env_next`. */
  function Run(e: JEnvState, n: nat): JEnvState
    decreases n
  {
    if n == 0 then e else Next(Run(e, n - 1))
  }

  /**
   * The level never goes negative and overshoots the attack level by less
   * than one delta; once in DECAY it is at or above the attack level.
   */
  predicate Bounded(e: JEnvState)
  {
    e.currentDelta > 0
    && 0 <= e.currentLevel < e.attackLevel + e.currentDelta
    && (e.currentStage == JDecay ==> e.currentLevel >= e.attackLevel)
  }

  /** Any number of calls keeps the overshoot bound. */
  lemma {:induction false} RunBounded(e: JEnvState, n: nat)
    requires Bounded(e)
    ensures Bounded(Run(e, n))
    ensures Run(e, n).attackLevel == e.attackLevel && Run(e, n).currentDelta == e.currentDelta
    decreases n
  {
    if n > 0 {
      RunBounded(e, n - 1);
    }
  }

  /** While the level is below the attack level, each call adds exactly one delta. */
  lemma {:induction false} AttackRamp(e: JEnvState, j: nat)
    requires e.currentStage == JAttack && e.currentDelta >= 0
    requires j >= 1 ==> e.currentLevel + (j - 1) * e.currentDelta < e.attackLevel
    ensures Run(e, j) == e.(currentLevel := e.currentLevel + j * e.currentDelta)
    decreases j
  {
    if j > 0 {
      if j > 1 {
        MulMonoLe(e.currentDelta, j - 2, j - 1);
      }
      AttackRamp(e, j - 1);
      assert (j - 1) * e.currentDelta + e.currentDelta == j * e.currentDelta;
    }
  }

  /**
   * After a trigger with a positive delta and attack level, the level climbs
   * by whole deltas to the first multiple k of the delta that reaches the
   * attack level, k = ceil(attack_level / delta), and the next call moves to
   * DECAY at that level.
   */
  lemma ReachesDecay(e: JEnvState)
    requires e.currentStage == JAttack && e.currentLevel == 0
    requires e.currentDelta > 0 && e.attackLevel > 0
    ensures var k := (e.attackLevel + e.currentDelta - 1) / e.currentDelta;
      k >= 1 && Run(e, k) == e.(currentLevel := k * e.currentDelta)
      && Run(e, k + 1) == e.(currentLevel := k * e.currentDelta, currentStage := JDecay)
  {
    var a := e.attackLevel;
    var d := e.currentDelta;
    var k := (a + d - 1) / d;
    var m := (a + d - 1) % d;
    assert a + d - 1 == k * d + m;
    assert k >= 1 by {
      if k <= 0 {
        MulMonoLe(d, k, 0);
        assert false;
      }
    }
    AttackRamp(e, k);
  }

  /**
   * Whatever state it was in, a triggered envelope with a positive delta and
   * attack level climbs from 0 for k = ceil(attack_level / delta) calls,
   * still in ATTACK, and the next call moves it to DECAY at level k * delta.
   */
  lemma TriggerReachesDecay(e: JEnvState)
    requires e.attackDelta > 0 && e.attackLevel > 0
    ensures var t := Trigger(e);
      var k := (e.attackLevel + e.attackDelta - 1) / e.attackDelta;
      Run(t, k) == t.(currentLevel := k * e.attackDelta)
      && Run(t, k + 1) == t.(currentLevel := k * e.attackDelta, currentStage := JDecay)
  {
    ReachesDecay(Trigger(e));
  }

  /**
   * In the configuration `main` sets up (`joe_env_init(.., 1000, MAX_VALUE)`),
   * the delta is 8388 and the attack stops at level 33552 after 4 calls; the
   * returned value `(33552 * 32767) >> 8 = 4294524` does not fit in int16
   * and the cast wraps it to -30852.
   */
  lemma MainConfigPeakWraps(e: JEnvState)
    ensures var t := Trigger(Init(e, 1000, 32766));
      t.currentDelta == 8388
      && Run(t, 5) == t.(currentLevel := 33552, currentStage := JDecay)
      && Output(33552) == -30852
  {
    var t := Trigger(Init(e, 1000, 32766));
    assert t.currentDelta == 8388;
    ReachesDecay(t);
    assert (32766 + 8388 - 1) / 8388 == 4;
  }

  /** A `jenv_t` updated in place through its pointer. */
  class JoeEnvelope {
    var attackMs: int
    var attackLevel: int
    var attackSamples: int
    var attackDelta: int
    var currentStep: int
    var currentLevel: int
    var currentStage: JStage
    var currentDelta: int

    function State(): JEnvState
      reads this
    {
      JEnvState(attackMs, attackLevel, attackSamples, attackDelta, currentStep, currentLevel, currentStage, currentDelta)
    }

    /** The zero-initialised global `jenv[i]`. */
    constructor ()
      ensures State() == JEnvState(0, 0, 0, 0, 0, 0, JIdle, 0)
    {
      attackMs, attackLevel, attackSamples, attackDelta := 0, 0, 0, 0;
      currentStep, currentLevel, currentStage, currentDelta := 0, 0, JIdle, 0;
    }

    /** `joe_env_init` (the diagnostic printf is left out). */
    method Configure(ms: int, level: int)
      modifies this
      ensures State() == Init(old(State()), ms, level)
    {
      attackMs := ms;
      attackLevel := level;
      attackSamples := CDiv(ms * SampleRate, SampleRate);
      attackDelta := UnitsPerSample(level, attackSamples);
      currentLevel := 0;
      currentStep := 0;
      currentStage := JIdle;
    }

    /** `joe_env_trigger` (the diagnostic printf is left out). */
    method Fire()
      modifies this
      ensures State() == Trigger(old(State()))
    {
      currentStage := JAttack;
      currentLevel := 0;
      currentDelta := attackDelta;
    }

    /** `joe_env_next`. */
    method Step() returns (value: Int16)
      modifies this
      ensures State() == Next(old(State()))
      ensures value == Output(currentLevel)
    {
      if currentStage == JAttack {
        if currentLevel < attackLevel {
          currentLevel := currentLevel + currentDelta;
        } else {
          currentStage := JDecay;
        }
      }
      value := I16(Shr8(currentLevel * 32767));
    }
  }
}
