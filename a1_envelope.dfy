/**
 * The eight-stage breakpoint envelope of a1.c (`init_envelope`,
 * `trigger_envelope`, `release_envelope`, `next_envelope_value`). Each call
 * moves the uint32 level by `rates[stage]` toward the uint16 target
 * `levels[stage]`, clamping at the target, and advances the stage when the
 * target is met, except at the sustain stage before release, where it holds.
 * Moving down subtracts in uint32, so a rate larger than the level wraps
 * around and the clamp does not catch it.
 */
module A1Envelope {
  import opened CInt

  /** The number of stages: the length of `levels[]` and `rates[]`. */
  const Stages: int := 8

  /** The value of the `Envelope` struct of a1.c. */
  datatype A1State = A1State(
    levels: seq<UInt16>,
    rates: seq<UInt16>,
    sustainStage: int,
    releaseStage: int,
    currentStage: int,
    stepCount: UInt32,
    currentLevel: UInt32,
    released: bool)

  /** Eight levels and rates, and a stage that never went below 0. */
  predicate WellFormed(s: A1State)
  {
    |s.levels| == Stages && |s.rates| == Stages && s.currentStage >= 0
  }

  /**
   * `init_envelope`: the first eight levels and rates are copied, the
   * envelope is at stage 0, step 0, level `levels[0]`, not released.
   */
  function Initial(levels: seq<UInt16>, rates: seq<UInt16>, sustainStage: int, releaseStage: int): (r: A1State)
    requires |levels| >= Stages && |rates| >= Stages
    ensures WellFormed(r)
    ensures r.levels == levels[..Stages] && r.rates == rates[..Stages]
    ensures r.sustainStage == sustainStage && r.releaseStage == releaseStage
    ensures r.currentStage == 0 && r.stepCount == 0 && r.currentLevel == levels[0] && !r.released
  {
    A1State(levels[..Stages], rates[..Stages], sustainStage, releaseStage, 0, 0, levels[0], false)
  }

  /** `trigger_envelope`: back to stage 0 at `levels[0]`, not released; the configuration is kept. */
  function Trigger(s: A1State): (r: A1State)
    requires WellFormed(s)
    ensures WellFormed(r)
    ensures r.currentStage == 0 && r.stepCount == 0 && r.currentLevel == s.levels[0] && !r.released
    ensures r.levels == s.levels && r.rates == s.rates
    ensures r.sustainStage == s.sustainStage && r.releaseStage == s.releaseStage
  {
    s.(currentStage := 0, stepCount := 0, currentLevel := s.levels[0], released := false)
  }

  /**
   * `release_envelope`: always marks the envelope released; it jumps to the
   * release stage with step 0 only when that stage is in 0..7, and otherwise
   * leaves stage and step alone. The level is never touched.
   */
  function Release(s: A1State): (r: A1State)
    requires WellFormed(s)
    ensures WellFormed(r)
    ensures r.released
    ensures 0 <= s.releaseStage < Stages ==> r.currentStage == s.releaseStage && r.stepCount == 0
    ensures !(0 <= s.releaseStage < Stages) ==> r.currentStage == s.currentStage && r.stepCount == s.stepCount
    ensures r == s.(released := true, currentStage := r.currentStage, stepCount := r.stepCount)
  {
    if 0 <= s.releaseStage < Stages then s.(released := true, currentStage := s.releaseStage, stepCount := 0)
    else s.(released := true)
  }

  /**
   * One move of the uint32 level toward the target by `rate`: upward it
   * stops at the target; downward it stops at the target as long as the
   * rate does not exceed the level, and otherwise the subtraction wraps
   * around to a value above every uint16 target.
   */
  function MoveToward(level: UInt32, target: UInt16, rate: UInt16): (r: UInt32)
    ensures level == target ==> r == level
    ensures level < target ==> r == if level + rate < target then level + rate else target
    ensures target < level && rate <= level ==> r == if level - rate > target then level - rate else target
    ensures target < level && level < rate ==> r == level - rate + Two32 && r > target
  {
    if level != target then
      if level < target then
        var up := U32(level + rate);
        if up > target then target else up
      else
        var down := U32(level - rate);
        if down < target then target else down
    else level
  }

  /** The target of the current stage. */
  function Target(s: A1State): UInt16
    requires WellFormed(s) && s.currentStage < Stages
  {
    s.levels[s.currentStage]
  }

  /** The envelope sits at the sustain stage, on target, before release: it holds there. */
  predicate Holding(s: A1State)
  {
    !s.released && s.currentStage == s.sustainStage
  }

  /**
   * `next_envelope_value` as a value: the uint16 it returns and the new
   * state. After stage 7 nothing changes. Otherwise the level moves toward
   * the target and the step count goes up by one (in uint32); on target the
   * stage advances by exactly one with step 0, unless the envelope is
   * holding at the sustain stage. The value returned is always the new level
   * truncated to uint16, which is `levels[7]` on the call that leaves stage 7.
   */
  function Next(s: A1State): (r: (UInt16, A1State))
    requires WellFormed(s)
    ensures WellFormed(r.1)
    ensures r.0 == U16(r.1.currentLevel)
    ensures s.currentStage >= Stages ==> r.1 == s
    ensures s.currentStage < Stages ==>
      var level := MoveToward(s.currentLevel, Target(s), s.rates[s.currentStage]);
      r.1.currentLevel == level
      && (level != Target(s) || Holding(s) ==> r.1.currentStage == s.currentStage && r.1.stepCount == U32(s.stepCount + 1))
      && (level == Target(s) && !Holding(s) ==> r.1.currentStage == s.currentStage + 1 && r.1.stepCount == 0)
    ensures s.currentStage == Stages - 1 && r.1.currentStage == Stages ==> r.0 == s.levels[Stages - 1]
    ensures r.1 == s.(currentLevel := r.1.currentLevel, currentStage := r.1.currentStage, stepCount := r.1.stepCount)
  {
    if s.currentStage >= Stages then (U16(s.currentLevel), s)
    else
      var target := Target(s);
      var level := MoveToward(s.currentLevel, target, s.rates[s.currentStage]);
      var step := U32(s.stepCount + 1);
      if level == target then
        if Holding(s) then (U16(level), s.(currentLevel := level, stepCount := step))
        else
          var t := s.(currentLevel := level, currentStage := s.currentStage + 1, stepCount := 0);
          if t.currentStage >= Stages then (s.levels[Stages - 1], t) else (U16(level), t)
      else (U16(level), s.(currentLevel := level, stepCount := step))
  }

  /** The state after n calls of `next_envelope_value`. */
  function Run(s: A1State, n: nat): (r: A1State)
    requires WellFormed(s)
    ensures WellFormed(r)
    decreases n
  {
    if n == 0 then s else Next(Run(s, n - 1)).1
  }

  /**
   * A stalled envelope: a stage with rate 0 whose level is off target, or the
   * sustain stage held on target before release.
   */
  predicate Parked(s: A1State)
  {
    WellFormed(s) && s.currentStage < Stages
    && ((s.rates[s.currentStage] == 0 && s.currentLevel != s.levels[s.currentStage])
        || (s.currentLevel == s.levels[s.currentStage] && Holding(s)))
  }

  /** Once past stage 7, calls change nothing. */
  lemma {:induction false} DoneIsFinal(s: A1State, n: nat)
    requires WellFormed(s) && s.currentStage >= Stages
    ensures Run(s, n) == s
    decreases n
  {
    if n > 0 {
      DoneIsFinal(s, n - 1);
    }
  }

  /**
   * A parked envelope stays parked for ever: each call only counts one more
   * step (in uint32); level, stage and output never change.
   */
  lemma {:induction false} ParkedForever(s: A1State, n: nat)
    requires Parked(s)
    ensures Run(s, n) == s.(stepCount := U32(s.stepCount + n))
    decreases n
  {
    if n == 0 {
      assert U32(s.stepCount) == s.stepCount;
    } else {
      ParkedForever(s, n - 1);
      ParkedOneMore(s, n, U32(s.stepCount + (n - 1)));
      U32Inc(s.stepCount + (n - 1), s.stepCount + n);
    }
  }

  /** A parked envelope that counted k after n - 1 calls counts one more on the n-th. */
  lemma ParkedOneMore(s: A1State, n: nat, k: UInt32)
    requires Parked(s) && n > 0
    ensures Run(s, n - 1) == s.(stepCount := k) ==> Run(s, n) == s.(stepCount := U32(k + 1))
  {
    if Run(s, n - 1) == s.(stepCount := k) {
      ParkedStep(s, k);
    }
  }

  /** One call on a parked envelope, whatever its step count, only counts the step. */
  lemma ParkedStep(s: A1State, k: UInt32)
    requires Parked(s)
    ensures Next(s.(stepCount := k)).1 == s.(stepCount := U32(k + 1))
  {
  }

  /** While the target is out of reach, each call raises the level by exactly the stage's rate. */
  lemma RiseRamp(s: A1State, j: nat)
    requires WellFormed(s) && s.currentStage < Stages
    requires s.currentLevel + j * s.rates[s.currentStage] < Target(s)
    ensures Run(s, j) == s.(currentLevel := s.currentLevel + j * s.rates[s.currentStage], stepCount := U32(s.stepCount + j))
  {
    LiftedIsProduct(s, j);
    RiseRampLifted(s, j);
  }

  /** The level after j rises of the current stage's rate, counted one rise at a time. */
  function Lifted(s: A1State, j: nat): nat
    requires WellFormed(s) && s.currentStage < Stages
    decreases j
  {
    if j == 0 then s.currentLevel else Lifted(s, j - 1) + s.rates[s.currentStage]
  }

  lemma {:induction false} LiftedIsProduct(s: A1State, j: nat)
    requires WellFormed(s) && s.currentStage < Stages
    ensures Lifted(s, j) == s.currentLevel + j * s.rates[s.currentStage]
    decreases j
  {
    if j > 0 {
      LiftedIsProduct(s, j - 1);
      MulStep(j, s.rates[s.currentStage]);
    }
  }

  /** RiseRamp with the level written as j single rises. */
  lemma {:induction false} RiseRampLifted(s: A1State, j: nat)
    requires WellFormed(s) && s.currentStage < Stages
    requires Lifted(s, j) < Target(s)
    ensures Run(s, j) == s.(currentLevel := Lifted(s, j), stepCount := U32(s.stepCount + j))
    decreases j
  {
    if j == 0 {
      DivModUnique(s.stepCount, Two32, 0, s.stepCount);
    } else {
      RiseRampLifted(s, j - 1);
      var t := Run(s, j - 1);
      RiseStep(t);
      U32Inc(s.stepCount + (j - 1), s.stepCount + j);
    }
  }

  /** One call below an out-of-reach target adds the rate and counts a step. */
  lemma RiseStep(t: A1State)
    requires WellFormed(t) && t.currentStage < Stages
    requires t.currentLevel + t.rates[t.currentStage] < Target(t)
    ensures Next(t).1 == t.(currentLevel := t.currentLevel + t.rates[t.currentStage], stepCount := U32(t.stepCount + 1))
  {
  }

  /**
   * Rising from below the target with a positive rate, the level lands
   * exactly on the target after k = ceil((target - level) / rate) calls, and
   * on that call the stage advances unless it is the held sustain stage.
   */
  lemma RiseArrives(s: A1State)
    requires WellFormed(s) && s.currentStage < Stages
    requires s.currentLevel < Target(s) && s.rates[s.currentStage] > 0
    ensures var rate := s.rates[s.currentStage];
      var k := (Target(s) - s.currentLevel + rate - 1) / rate;
      k >= 1
      && Run(s, k).currentLevel == Target(s)
      && (Holding(s) ==> Run(s, k).currentStage == s.currentStage)
      && (!Holding(s) ==> Run(s, k).currentStage == s.currentStage + 1 && Run(s, k).stepCount == 0)
  {
    var rate := s.rates[s.currentStage];
    var gap := Target(s) - s.currentLevel;
    var k := (gap + rate - 1) / rate;
    var m := (gap + rate - 1) % rate;
    assert gap + rate - 1 == k * rate + m;
    assert k >= 1 by {
      if k <= 0 {
        MulMonoLe(rate, k, 0);
        assert false;
      }
    }
    assert (k - 1) * rate + rate == k * rate;
    RiseRamp(s, k - 1);
  }

  /**
   * Descending with a rate larger than the level: the uint32 subtraction
   * wraps, the clamp does not apply, the level ends above 65535 and the stage
   * stays where it is.
   */
  lemma DescentWraps(s: A1State)
    requires WellFormed(s) && s.currentStage < Stages
    requires Target(s) < s.currentLevel < s.rates[s.currentStage]
    ensures Next(s).1.currentLevel == s.currentLevel - s.rates[s.currentStage] + Two32
    ensures Next(s).1.currentLevel >= Two16
    ensures Next(s).1.currentStage == s.currentStage
  {
  }

  /** The clamped uint32 move at the top of `next_envelope_value`. */
  method Approach(level: UInt32, target: UInt16, rate: UInt16) returns (r: UInt32)
    ensures r == MoveToward(level, target, rate)
  {
    r := level;
    if r != target {
      if r < target {
        r := U32(r + rate);
        if r > target {
          r := target;
        }
      } else {
        r := U32(r - rate);
        if r < target {
          r := target;
        }
      }
    }
  }

  /** An a1.c `Envelope` updated in place through its pointer; the two tables are its embedded arrays. */
  class Envelope {
    var levels: array<UInt16>
    var rates: array<UInt16>
    var sustainStage: int
    var releaseStage: int
    var currentStage: int
    var stepCount: UInt32
    var currentLevel: UInt32
    var released: bool

    predicate Valid()
      reads this
    {
      levels.Length == Stages && rates.Length == Stages && currentStage >= 0
    }

    function State(): A1State
      reads this, levels, rates
    {
      A1State(levels[..], rates[..], sustainStage, releaseStage, currentStage, stepCount, currentLevel, released)
    }

    /** `init_envelope`: copies the caller's eight levels and rates one by one. */
    constructor Init(srcLevels: array<UInt16>, srcRates: array<UInt16>, sustain: int, release: int)
      requires srcLevels.Length >= Stages && srcRates.Length >= Stages
      ensures Valid() && fresh(levels) && fresh(rates)
      ensures State() == Initial(srcLevels[..], srcRates[..], sustain, release)
    {
      var ls := new UInt16[Stages];
      var rs := new UInt16[Stages];
      for i := 0 to Stages
        invariant ls[..i] == srcLevels[..i] && rs[..i] == srcRates[..i]
      {
        ls[i] := srcLevels[i];
        rs[i] := srcRates[i];
      }
      assert ls[..] == srcLevels[..Stages] && rs[..] == srcRates[..Stages];
      levels := ls;
      rates := rs;
      sustainStage := sustain;
      releaseStage := release;
      currentStage := 0;
      stepCount := 0;
      currentLevel := srcLevels[0];
      released := false;
    }

    /** `trigger_envelope`. */
    method Start()
      requires Valid()
      modifies this
      ensures Valid() && levels == old(levels) && rates == old(rates)
      ensures State() == Trigger(old(State()))
    {
      currentStage := 0;
      stepCount := 0;
      currentLevel := levels[0];
      released := false;
    }

    /** `release_envelope`. */
    method Stop()
      requires Valid()
      modifies this
      ensures Valid() && levels == old(levels) && rates == old(rates)
      ensures State() == Release(old(State()))
    {
      released := true;
      if releaseStage >= 0 && releaseStage < Stages {
        currentStage := releaseStage;
        stepCount := 0;
      }
    }

    /** `next_envelope_value`. */
    method NextValue() returns (value: UInt16)
      requires Valid()
      modifies this
      ensures Valid() && levels == old(levels) && rates == old(rates)
      ensures (value, State()) == Next(old(State()))
    {
      if currentStage >= Stages {
        return U16(currentLevel);
      }
      var target := levels[currentStage];
      currentLevel := Approach(currentLevel, target, rates[currentStage]);
      stepCount := U32(stepCount + 1);
      if currentLevel == target {
        if !released && currentStage == sustainStage {
          return U16(currentLevel);
        }
        currentStage := currentStage + 1;
        stepCount := 0;
        if currentStage >= Stages {
          return levels[Stages - 1];
        }
      }
      value := U16(currentLevel);
    }
  }
}
