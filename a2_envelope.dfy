/**
 * The eight-stage delta envelope of a2.c (`init_envelope`,
 * `trigger_envelope`, `release_envelope`, `next_envelope_value`). Each
 * triggered call adds the stage's per-sample delta to the level and counts
 * a step; after `rates[stage]` steps the stage advances and the delta of the
 * new stage is computed, except that entering the sustain stage before
 * release zeroes the delta, which keeps the level flat for that stage's
 * length only. The level is an int32 whose overflow is not modelled.
 */
module A2Envelope {
  import opened CInt
  import opened Wrappers
  import opened Breakpoint

  /** The value of the `Envelope` struct of a2.c. */
  datatype A2State = A2State(
    levels: seq<Int16>,
    rates: seq<UInt32>,
    sustainStage: int,
    releaseStage: int,
    currentStage: int,
    stepCount: UInt32,
    currentLevel: int,
    released: bool,
    triggered: bool,
    delta: int)

  predicate WellFormed(s: A2State)
  {
    Tables(s.levels, s.rates)
  }

  /**
   * `init_envelope`: the first eight levels and rates are copied; stage 0,
   * step 0, level `levels[0]`, delta 0, neither triggered nor released.
   */
  function Initial(levels: seq<Int16>, rates: seq<UInt32>, sustainStage: int, releaseStage: int): (r: A2State)
    requires |levels| >= Stages && |rates| >= Stages
    ensures WellFormed(r)
    ensures r.levels == levels[..Stages] && r.rates == rates[..Stages]
    ensures r.sustainStage == sustainStage && r.releaseStage == releaseStage
    ensures r.currentStage == 0 && r.stepCount == 0 && r.currentLevel == levels[0]
    ensures r.delta == 0 && !r.triggered && !r.released
  {
    A2State(levels[..Stages], rates[..Stages], sustainStage, releaseStage, 0, 0, levels[0], false, false, 0)
  }

  /**
   * `trigger_envelope`: stage 0, step 0, level `levels[0]`, triggered and
   * not released; the delta becomes stage 0's delta when `rates[0] != 0`
   * and is left as it was otherwise.
   */
  function Trigger(s: A2State): (r: A2State)
    requires WellFormed(s)
    ensures WellFormed(r)
    ensures r.currentStage == 0 && r.stepCount == 0 && r.currentLevel == s.levels[0]
    ensures r.triggered && !r.released
    ensures s.rates[0] != 0 ==> r.delta == StageDelta(s.levels, s.rates, 0)
    ensures s.rates[0] == 0 ==> r.delta == s.delta
    ensures r.levels == s.levels && r.rates == s.rates
    ensures r.sustainStage == s.sustainStage && r.releaseStage == s.releaseStage
  {
    var t := s.(currentStage := 0, stepCount := 0, currentLevel := s.levels[0], released := false, triggered := true);
    if s.rates[0] != 0 then t.(delta := StageDelta(s.levels, s.rates, 0)) else t
  }

  /**
   * What `release_envelope` needs to stay in bounds: it reads
   * `levels[release_stage + 1]` whenever the release stage is in 0..7 with
   * a non-zero length, so such a stage must be below 7.
   */
  predicate ReleaseDefined(s: A2State)
    requires WellFormed(s)
  {
    0 <= s.releaseStage < Stages && s.rates[s.releaseStage] != 0 ==> s.releaseStage < Stages - 1
  }

  /**
   * `release_envelope`: always marks the envelope released; for a release
   * stage in 0..7 it jumps there with step 0 and, when that stage has a
   * non-zero length, takes its delta. The level is never touched.
   */
  function Release(s: A2State): (r: A2State)
    requires WellFormed(s) && ReleaseDefined(s)
    ensures WellFormed(r)
    ensures r.released
    ensures 0 <= s.releaseStage < Stages ==> r.currentStage == s.releaseStage && r.stepCount == 0
    ensures 0 <= s.releaseStage < Stages && s.rates[s.releaseStage] != 0 ==>
      r.delta == StageDelta(s.levels, s.rates, s.releaseStage)
    ensures !(0 <= s.releaseStage < Stages && s.rates[s.releaseStage] != 0) ==> r.delta == s.delta
    ensures !(0 <= s.releaseStage < Stages) ==> r.currentStage == s.currentStage && r.stepCount == s.stepCount
    ensures r == s.(released := true, currentStage := r.currentStage, stepCount := r.stepCount, delta := r.delta)
  {
    if 0 <= s.releaseStage < Stages then
      var t := s.(released := true, currentStage := s.releaseStage, stepCount := 0);
      if s.rates[s.releaseStage] != 0 then t.(delta := StageDelta(s.levels, s.rates, s.releaseStage)) else t
    else s.(released := true)
  }

  /** The stage entered when `rates[stage]` steps are done. */
  function Advanced(s: A2State): int
  {
    s.currentStage + 1
  }

  /** Entering the sustain stage before release: the delta is zeroed. */
  predicate EntersHold(s: A2State)
  {
    !s.released && Advanced(s) == s.sustainStage
  }

  /**
   * What `next_envelope_value` needs to stay defined: a triggered envelope
   * must be on a stage in 0..7 (line 73 reads `rates[current_stage]`), and
   * when the stage ends into a stage below 7 whose delta is recomputed, that
   * stage's length must be non-zero (the divisions at lines 86 and 90 are
   * unguarded).
   */
  predicate NextDefined(s: A2State)
    requires WellFormed(s)
  {
    s.triggered ==>
      0 <= s.currentStage < Stages
      && (U32(s.stepCount + 1) >= s.rates[s.currentStage] && Advanced(s) < Stages - 1 && !EntersHold(s)
          ==> s.rates[Advanced(s)] != 0)
  }

  /**
   * `next_envelope_value` as a value: the int16 it returns and the new state.
   * Untriggered, it returns 0 and changes nothing. Triggered, it first adds
   * the delta and counts a step; if the stage is then done, the stage
   * advances by one with step 0: past stage 7 the level is forced to
   * `levels[7]`; entering the sustain stage unreleased zeroes the delta; a
   * new stage below 7 otherwise gets its own delta, and stage 7 keeps the
   * delta it had. The value returned is the new level cast to int16.
   */
  function Next(s: A2State): (r: (Int16, A2State))
    requires WellFormed(s) && NextDefined(s)
    ensures WellFormed(r.1)
  {
    if !s.triggered then (0, s)
    else
      var level := s.currentLevel + s.delta;
      var step := U32(s.stepCount + 1);
      if step >= s.rates[s.currentStage] then
        var stage := s.currentStage + 1;
        if stage >= Stages then
          var t := s.(currentLevel := s.levels[Stages - 1], currentStage := stage, stepCount := 0);
          (I16(t.currentLevel), t)
        else
          var t := s.(currentLevel := level, currentStage := stage, stepCount := 0);
          var delta :=
            if !s.released && stage == s.sustainStage then 0
            else if s.released && stage == s.releaseStage then
              (if stage + 1 < Stages then StageDelta(s.levels, s.rates, stage) else s.delta)
            else
              (if stage < Stages - 1 then StageDelta(s.levels, s.rates, stage) else s.delta);
          (I16(level), t.(delta := delta))
      else
        (I16(level), s.(currentLevel := level, stepCount := step))
  }

  /** The cases of `next_envelope_value`, as described above. */
  lemma NextCases(s: A2State)
    requires WellFormed(s) && NextDefined(s)
    ensures !s.triggered ==> Next(s) == (0, s)
    ensures s.triggered ==> Next(s).0 == I16(Next(s).1.currentLevel)
    ensures s.triggered && U32(s.stepCount + 1) < s.rates[s.currentStage] ==>
      Next(s).1 == s.(currentLevel := s.currentLevel + s.delta, stepCount := U32(s.stepCount + 1))
    ensures s.triggered && U32(s.stepCount + 1) >= s.rates[s.currentStage] ==>
      Next(s).1.currentStage == Advanced(s) && Next(s).1.stepCount == 0
      && (Advanced(s) == Stages ==> Next(s).1.currentLevel == s.levels[Stages - 1] && Next(s).1.delta == s.delta)
      && (Advanced(s) < Stages ==> Next(s).1.currentLevel == s.currentLevel + s.delta)
      && (Advanced(s) < Stages && EntersHold(s) ==> Next(s).1.delta == 0)
      && (Advanced(s) < Stages - 1 && !EntersHold(s) ==> Next(s).1.delta == StageDelta(s.levels, s.rates, Advanced(s)))
      && (Advanced(s) == Stages - 1 && !EntersHold(s) ==> Next(s).1.delta == s.delta)
    ensures Next(s).1 == s.(currentLevel := Next(s).1.currentLevel, currentStage := Next(s).1.currentStage,
                      stepCount := Next(s).1.stepCount, delta := Next(s).1.delta)
  {
  }

  /**
   * The state after n calls of `next_envelope_value`, or None when one of
   * the calls would read past the tables or divide by zero.
   */
  function Run(s: A2State, n: nat): (r: Option<A2State>)
    requires WellFormed(s)
    ensures r.Some? ==> WellFormed(r.value)
    decreases n
  {
    if n == 0 then Some(s)
    else
      match Run(s, n - 1)
      case None => None
      case Some(t) => if NextDefined(t) then Some(Next(t).1) else None
  }

  /** An envelope that was never triggered stays as it is (and outputs 0) whatever the number of calls. */
  lemma {:induction false} UntriggeredStays(s: A2State, n: nat)
    requires WellFormed(s) && !s.triggered
    ensures Run(s, n) == Some(s)
    decreases n
  {
    if n > 0 {
      UntriggeredStays(s, n - 1);
    }
  }

  /**
   * Inside a stage, each call adds exactly one delta: j calls that stay
   * below the stage length leave the level j deltas further and the step
   * count j higher, with nothing else changed.
   */
  lemma {:induction false} StageRamp(s: A2State, j: nat)
    requires WellFormed(s) && s.triggered && 0 <= s.currentStage < Stages
    requires s.stepCount + j < s.rates[s.currentStage]
    ensures Run(s, j) == Some(s.(currentLevel := s.currentLevel + j * s.delta, stepCount := s.stepCount + j))
    decreases j
  {
    if j > 0 {
      StageRamp(s, j - 1);
      RampStepAfter(s, j, Run(s, j - 1).value);
    }
  }

  /** The step of StageRamp: call j, from the state j - 1 calls left. */
  lemma RampStepAfter(s: A2State, j: nat, t: A2State)
    requires WellFormed(s) && s.triggered && 0 <= s.currentStage < Stages
    requires 1 <= j && s.stepCount + j < s.rates[s.currentStage]
    requires t == s.(currentLevel := s.currentLevel + (j - 1) * s.delta, stepCount := s.stepCount + (j - 1))
    ensures NextDefined(t)
    ensures Next(t).1 == s.(currentLevel := s.currentLevel + j * s.delta, stepCount := s.stepCount + j)
  {
    MulStep(j, s.delta);
    RampStep(t);
  }

  /** One call that does not end the stage. */
  lemma RampStep(t: A2State)
    requires WellFormed(t) && t.triggered && 0 <= t.currentStage < Stages
    requires t.stepCount + 1 < t.rates[t.currentStage]
    ensures NextDefined(t)
    ensures Next(t).1 == t.(currentLevel := t.currentLevel + t.delta, stepCount := t.stepCount + 1)
  {
  }

  /**
   * The sustain stage is timed, not held: entered unreleased at step 0 with
   * the zeroed delta, the level stays where it is for the stage's
   * `rates[sustain_stage]` calls, and the last of them moves on to the next
   * stage.
   */
  lemma SustainIsTimed(s: A2State)
    requires WellFormed(s) && s.triggered && !s.released
    requires 0 <= s.currentStage == s.sustainStage < Stages
    requires s.stepCount == 0 && s.delta == 0 && s.rates[s.currentStage] >= 1
    requires s.currentStage + 1 < Stages - 1 ==> s.rates[s.currentStage + 1] != 0
    ensures var held := Run(s, s.rates[s.currentStage] - 1);
      held.Some? && held.value.currentStage == s.currentStage && held.value.currentLevel == s.currentLevel
      && held.value.stepCount == s.rates[s.currentStage] - 1
    ensures var next := Run(s, s.rates[s.currentStage]);
      next.Some? && next.value.currentStage == s.currentStage + 1
      && (s.currentStage + 1 < Stages ==> next.value.currentLevel == s.currentLevel)
  {
    var n := s.rates[s.currentStage];
    FlatRamp(s, n - 1);
    var u := Run(s, n - 1).value;
    SustainLastCall(u);
    RunOneMore(s, n, u);
  }

  /** StageRamp with a zero delta: only the step count moves. */
  lemma FlatRamp(s: A2State, j: nat)
    requires WellFormed(s) && s.triggered && 0 <= s.currentStage < Stages && s.delta == 0
    requires s.stepCount + j < s.rates[s.currentStage]
    ensures Run(s, j) == Some(s.(stepCount := s.stepCount + j))
  {
    StageRamp(s, j);
    MulByZero(j, s.delta);
  }

  /** The last call of the unreleased sustain stage moves on and, below stage 7, keeps the level. */
  lemma SustainLastCall(u: A2State)
    requires WellFormed(u) && u.triggered && !u.released
    requires 0 <= u.currentStage == u.sustainStage < Stages
    requires u.delta == 0 && u.stepCount + 1 == u.rates[u.currentStage]
    requires u.currentStage + 1 < Stages - 1 ==> u.rates[u.currentStage + 1] != 0
    ensures NextDefined(u)
    ensures Next(u).1.currentStage == u.currentStage + 1
    ensures u.currentStage + 1 < Stages ==> Next(u).1.currentLevel == u.currentLevel
  {
  }

  /** One more call after n - 1 defined calls. */
  lemma RunOneMore(s: A2State, n: nat, t: A2State)
    requires WellFormed(s) && 1 <= n && WellFormed(t) && NextDefined(t)
    ensures Run(s, n - 1) == Some(t) ==> Run(s, n) == Some(Next(t).1)
  {
  }

  /**
   * Stage 0 after a trigger, for a length below 2^31 whose delta is
   * recomputed on the way out: the level climbs one delta per call, and the
   * call that ends the stage leaves it less than one stage length away from
   * `levels[1]`, in stage 1.
   */
  lemma FirstStageLandsNear(s: A2State)
    requires WellFormed(s) && 0 < s.rates[0] < Two31 && s.rates[1] != 0
    ensures var t := Trigger(s);
      var n := s.rates[0];
      Run(t, n - 1) == Some(t.(currentLevel := s.levels[0] + (n - 1) * t.delta, stepCount := n - 1))
      && Run(t, n).Some? && Run(t, n).value.currentStage == 1
      && Abs(Run(t, n).value.currentLevel - s.levels[1]) < n
  {
    var t := Trigger(s);
    var n := s.rates[0];
    StageRamp(t, n - 1);
    var u := t.(currentLevel := s.levels[0] + (n - 1) * t.delta, stepCount := n - 1);
    assert NextDefined(u);
    assert Next(u).1.currentLevel == s.levels[0] + n * t.delta;
  }

  /** An a2.c `Envelope` updated in place through its pointer; the two tables are its embedded arrays. */
  class Envelope {
    var levels: array<Int16>
    var rates: array<UInt32>
    var sustainStage: int
    var releaseStage: int
    var currentStage: int
    var stepCount: UInt32
    var currentLevel: int
    var released: bool
    var triggered: bool
    var delta: int

    predicate Valid()
      reads this
    {
      levels.Length == Stages && rates.Length == Stages
    }

    function State(): A2State
      reads this, levels, rates
    {
      A2State(levels[..], rates[..], sustainStage, releaseStage, currentStage, stepCount,
              currentLevel, released, triggered, delta)
    }

    /** `init_envelope`: copies the caller's eight levels and rates one by one. */
    constructor Init(srcLevels: array<Int16>, srcRates: array<UInt32>, sustain: int, release: int)
      requires srcLevels.Length >= Stages && srcRates.Length >= Stages
      ensures Valid() && fresh(levels) && fresh(rates)
      ensures State() == Initial(srcLevels[..], srcRates[..], sustain, release)
    {
      var ls := new Int16[Stages];
      var rs := new UInt32[Stages];
      for i := 0 to Stages
        invariant ls[..i] == srcLevels[..i] && rs[..i] == srcRates[..i]
      {
        ls[i] := srcLevels[i];
        rs[i] := srcRates[i];
      }
      assert ls[..] == srcLevels[..Stages] && rs[..] == srcRates[..Stages];
      levels := ls;
      rates := rs;
      sustainStage := sustain;
      releaseStage := release;
      currentStage := 0;
      stepCount := 0;
      currentLevel := srcLevels[0];
      released := false;
      triggered := false;
      delta := 0;
    }

    /** `trigger_envelope`. */
    method Start()
      requires Valid()
      modifies this
      ensures Valid() && levels == old(levels) && rates == old(rates)
      ensures State() == Trigger(old(State()))
    {
      currentStage := 0;
      stepCount := 0;
      currentLevel := levels[0];
      released := false;
      triggered := true;
      if rates[0] != 0 {
        delta := StageDelta(levels[..], rates[..], 0);
      }
    }

    /** `release_envelope`. */
    method Stop()
      requires Valid() && ReleaseDefined(State())
      modifies this
      ensures Valid() && levels == old(levels) && rates == old(rates)
      ensures State() == Release(old(State()))
    {
      released := true;
      if releaseStage >= 0 && releaseStage < Stages {
        currentStage := releaseStage;
        stepCount := 0;
        if rates[releaseStage] != 0 {
          delta := StageDelta(levels[..], rates[..], releaseStage);
        }
      }
    }

    /** `next_envelope_value`. */
    method NextValue() returns (value: Int16)
      requires Valid() && NextDefined(State())
      modifies this
      ensures Valid() && levels == old(levels) && rates == old(rates)
      ensures (value, State()) == Next(old(State()))
    {
      if !triggered {
        return 0;
      }
      currentLevel := currentLevel + delta;
      stepCount := U32(stepCount + 1);
      if stepCount >= rates[currentStage] {
        currentStage := currentStage + 1;
        stepCount := 0;
        if currentStage >= Stages {
          currentLevel := levels[Stages - 1];
          return I16(currentLevel);
        }
        if !released && currentStage == sustainStage {
          delta := 0;
        } else if released && currentStage == releaseStage {
          if currentStage + 1 < Stages {
            delta := StageDelta(levels[..], rates[..], currentStage);
          }
        } else {
          if currentStage < Stages - 1 {
            delta := StageDelta(levels[..], rates[..], currentStage);
          }
        }
      }
      value := I16(currentLevel);
    }
  }
}
