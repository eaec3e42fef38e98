/**
 * The eight-stage delta envelope of a3.c and a4.c, whose `Envelope` struct
 * and four functions (`init_envelope`, `trigger_envelope`,
 * `release_envelope`, `next_envelope_value`) compute the same thing. Unlike
 * a2.c, a call counts the step first, switches stage (taking the new stage's
 * delta) when the stage length is reached, and only then adds the delta; the
 * sustain stage and the released flag are never consulted, and the release
 * jumps to `release_stage` without a range check. The level is an int32
 * whose overflow is not modelled.
 */
module A34Envelope {
  import opened CInt
  import opened Wrappers
  import opened Breakpoint

  /** The value of the `Envelope` struct of a3.c and a4.c. */
  datatype A34State = A34State(
    levels: seq<Int16>,
    rates: seq<UInt32>,
    sustainStage: int,
    releaseStage: int,
    currentStage: int,
    currentLevel: int,
    delta: int,
    stepCount: UInt32,
    triggered: bool,
    released: bool)

  predicate WellFormed(s: A34State)
  {
    Tables(s.levels, s.rates)
  }

  /**
   * `init_envelope`: the first eight levels and rates are copied; stage 0,
   * step 0, level `levels[0]`, delta 0, neither triggered nor released.
   */
  function Initial(levels: seq<Int16>, rates: seq<UInt32>, sustainStage: int, releaseStage: int): (r: A34State)
    requires |levels| >= Stages && |rates| >= Stages
    ensures WellFormed(r)
    ensures r.levels == levels[..Stages] && r.rates == rates[..Stages]
    ensures r.sustainStage == sustainStage && r.releaseStage == releaseStage
    ensures r.currentStage == 0 && r.stepCount == 0 && r.currentLevel == levels[0]
    ensures r.delta == 0 && !r.triggered && !r.released
  {
    A34State(levels[..Stages], rates[..Stages], sustainStage, releaseStage, 0, levels[0], 0, 0, false, false)
  }

  /**
   * `trigger_envelope`: stage 0, step 0, level `levels[0]`, triggered and
   * not released; the delta becomes stage 0's delta when `rates[0] != 0`
   * and is left as it was otherwise.
   */
  function Trigger(s: A34State): (r: A34State)
    requires WellFormed(s)
    ensures WellFormed(r)
    ensures r.currentStage == 0 && r.stepCount == 0 && r.currentLevel == s.levels[0]
    ensures r.triggered && !r.released
    ensures s.rates[0] != 0 ==> r.delta == StageDelta(s.levels, s.rates, 0)
    ensures s.rates[0] == 0 ==> r.delta == s.delta
    ensures r.levels == s.levels && r.rates == s.rates
    ensures r.sustainStage == s.sustainStage && r.releaseStage == s.releaseStage
  {
    var t := s.(currentStage := 0, stepCount := 0, currentLevel := s.levels[0], triggered := true, released := false);
    if s.rates[0] != 0 then t.(delta := StageDelta(s.levels, s.rates, 0)) else t
  }

  /**
   * What `release_envelope` needs: for a release stage below 7 it reads
   * `levels[release_stage]` and divides by `rates[release_stage]` without a
   * guard, so that stage must be a real one with a non-zero length.
   */
  predicate ReleaseDefined(s: A34State)
    requires WellFormed(s)
  {
    s.releaseStage < Stages - 1 ==> 0 <= s.releaseStage && s.rates[s.releaseStage] != 0
  }

  /**
   * `release_envelope`: marks the envelope released and jumps to the
   * release stage with step 0 whatever its value; a release stage below 7
   * also gets its delta. The level is never touched.
   */
  function Release(s: A34State): (r: A34State)
    requires WellFormed(s) && ReleaseDefined(s)
    ensures WellFormed(r)
    ensures r.released && r.currentStage == s.releaseStage && r.stepCount == 0
    ensures s.releaseStage < Stages - 1 ==> r.delta == StageDelta(s.levels, s.rates, s.releaseStage)
    ensures s.releaseStage >= Stages - 1 ==> r.delta == s.delta
    ensures r == s.(released := true, currentStage := s.releaseStage, stepCount := 0, delta := r.delta)
  {
    var t := s.(released := true, currentStage := s.releaseStage, stepCount := 0);
    if s.releaseStage < Stages - 1 then t.(delta := StageDelta(s.levels, s.rates, s.releaseStage)) else t
  }

  /** The current stage is done once the incremented step count reaches its length. */
  predicate StageEnds(s: A34State)
    requires WellFormed(s) && 0 <= s.currentStage < Stages
  {
    U32(s.stepCount + 1) >= s.rates[s.currentStage]
  }

  /**
   * What `next_envelope_value` needs to stay defined: a triggered envelope
   * must be on a stage in 0..7 (it reads `rates[current_stage]`), and a
   * stage ending into a stage below 7 needs a non-zero length there (the
   * division is unguarded).
   */
  predicate NextDefined(s: A34State)
    requires WellFormed(s)
  {
    s.triggered ==>
      0 <= s.currentStage < Stages
      && (StageEnds(s) && s.currentStage + 1 < Stages - 1 ==> s.rates[s.currentStage + 1] != 0)
  }

  /**
   * `next_envelope_value` as a value: the int16 it returns and the new state.
   * Untriggered, it returns 0 and changes nothing. Triggered, it counts a
   * step; if the stage is done, the stage advances by one with step 0, and
   * past stage 7 the level is forced to `levels[7]` and returned; a new
   * stage below 7 gets its own delta, and stage 7 keeps stage 6's. Then the
   * level moves by exactly the (possibly new) delta, and the value returned
   * is the new level cast to int16.
   */
  function Next(s: A34State): (r: (Int16, A34State))
    requires WellFormed(s) && NextDefined(s)
    ensures WellFormed(r.1)
  {
    if !s.triggered then (0, s)
    else
      var step := U32(s.stepCount + 1);
      if step >= s.rates[s.currentStage] then
        var stage := s.currentStage + 1;
        if stage >= Stages then
          var t := s.(stepCount := 0, currentStage := stage, currentLevel := s.levels[Stages - 1]);
          (I16(t.currentLevel), t)
        else
          var delta := if stage < Stages - 1 then StageDelta(s.levels, s.rates, stage) else s.delta;
          var t := s.(stepCount := 0, currentStage := stage, delta := delta, currentLevel := s.currentLevel + delta);
          (I16(t.currentLevel), t)
      else
        var t := s.(stepCount := step, currentLevel := s.currentLevel + s.delta);
        (I16(t.currentLevel), t)
  }

  /** The cases of `next_envelope_value`, as described above. */
  lemma NextCases(s: A34State)
    requires WellFormed(s) && NextDefined(s)
    ensures !s.triggered ==> Next(s) == (0, s)
    ensures s.triggered ==> Next(s).0 == I16(Next(s).1.currentLevel)
    ensures s.triggered && !StageEnds(s) ==>
      Next(s).1 == s.(currentLevel := s.currentLevel + s.delta, stepCount := U32(s.stepCount + 1))
    ensures s.triggered && StageEnds(s) ==>
      Next(s).1.currentStage == s.currentStage + 1 && Next(s).1.stepCount == 0
      && (s.currentStage + 1 == Stages ==> Next(s).1.currentLevel == s.levels[Stages - 1] && Next(s).1.delta == s.delta)
      && (s.currentStage + 1 < Stages - 1 ==> Next(s).1.delta == StageDelta(s.levels, s.rates, s.currentStage + 1))
      && (s.currentStage + 1 == Stages - 1 ==> Next(s).1.delta == s.delta)
      && (s.currentStage + 1 < Stages ==> Next(s).1.currentLevel == s.currentLevel + Next(s).1.delta)
    ensures Next(s).1 == s.(currentLevel := Next(s).1.currentLevel, currentStage := Next(s).1.currentStage,
                      stepCount := Next(s).1.stepCount, delta := Next(s).1.delta)
  {
  }

  /**
   * The state after n calls of `next_envelope_value`, or None when one of
   * the calls would read past the tables or divide by zero.
   */
  function Run(s: A34State, n: nat): (r: Option<A34State>)
    requires WellFormed(s)
    ensures r.Some? ==> WellFormed(r.value)
    decreases n
  {
    if n == 0 then Some(s)
    else
      match Run(s, n - 1)
      case None => None
      case Some(t) => if NextDefined(t) then Some(Next(t).1) else None
  }

  /** An envelope that was never triggered stays as it is (and outputs 0) whatever the number of calls. */
  lemma {:induction false} UntriggeredStays(s: A34State, n: nat)
    requires WellFormed(s) && !s.triggered
    ensures Run(s, n) == Some(s)
    decreases n
  {
    if n > 0 {
      UntriggeredStays(s, n - 1);
    }
  }

  /** The same envelope with another sustain stage and released flag. */
  function Relabel(s: A34State, sustainStage: int, released: bool): A34State
  {
    s.(sustainStage := sustainStage, released := released)
  }

  /**
   * Holding has no effect: whatever the sustain stage and the released flag
   * say, any number of calls goes through the same levels, stages, steps
   * and deltas (and so returns the same values).
   */
  lemma {:induction false} HoldIgnored(s: A34State, n: nat, sustainStage: int, released: bool)
    requires WellFormed(s)
    ensures match Run(s, n)
      case None => Run(Relabel(s, sustainStage, released), n).None?
      case Some(t) => Run(Relabel(s, sustainStage, released), n) == Some(Relabel(t, sustainStage, released))
    decreases n
  {
    if n > 0 {
      HoldIgnored(s, n - 1, sustainStage, released);
      if Run(s, n - 1).Some? {
        RelabelStep(Run(s, n - 1).value, sustainStage, released);
      }
    }
  }

  /** One call does not look at the sustain stage or the released flag. */
  lemma RelabelStep(t: A34State, sustainStage: int, released: bool)
    requires WellFormed(t)
    ensures NextDefined(Relabel(t, sustainStage, released)) == NextDefined(t)
    ensures NextDefined(t) ==>
      Next(Relabel(t, sustainStage, released)) == (Next(t).0, Relabel(Next(t).1, sustainStage, released))
  {
  }

  /**
   * Inside a stage, each call adds exactly one delta: j calls that stay
   * below the stage length leave the level j deltas further and the step
   * count j higher, with nothing else changed.
   */
  lemma {:induction false} StageRamp(s: A34State, j: nat)
    requires WellFormed(s) && s.triggered && 0 <= s.currentStage < Stages
    requires s.stepCount + j < s.rates[s.currentStage]
    ensures Run(s, j) == Some(s.(currentLevel := s.currentLevel + j * s.delta, stepCount := s.stepCount + j))
    decreases j
  {
    if j > 0 {
      StageRamp(s, j - 1);
      RampStepAfter(s, j, Run(s, j - 1).value);
    }
  }

  /** The step of StageRamp: call j, from the state j - 1 calls left. */
  lemma RampStepAfter(s: A34State, j: nat, t: A34State)
    requires WellFormed(s) && s.triggered && 0 <= s.currentStage < Stages
    requires 1 <= j && s.stepCount + j < s.rates[s.currentStage]
    requires t == s.(currentLevel := s.currentLevel + (j - 1) * s.delta, stepCount := s.stepCount + (j - 1))
    ensures NextDefined(t)
    ensures Next(t).1 == s.(currentLevel := s.currentLevel + j * s.delta, stepCount := s.stepCount + j)
  {
    MulStep(j, s.delta);
    RampStep(t);
  }

  /** One call that does not end the stage. */
  lemma RampStep(t: A34State)
    requires WellFormed(t) && t.triggered && 0 <= t.currentStage < Stages
    requires t.stepCount + 1 < t.rates[t.currentStage]
    ensures NextDefined(t)
    ensures Next(t).1 == t.(currentLevel := t.currentLevel + t.delta, stepCount := t.stepCount + 1)
  {
  }

  /**
   * Stage 0 after a trigger, for a length n of at least 1: the first n - 1
   * calls climb by stage 0's delta, and the n-th call is already in stage 1
   * and has moved by stage 1's delta (when stage 1 has a non-zero length),
   * so stage 0 contributes only n - 1 of its deltas.
   */
  lemma FirstStage(s: A34State)
    requires WellFormed(s) && 0 < s.rates[0] && s.rates[1] != 0
    ensures var t := Trigger(s);
      var n := s.rates[0];
      Run(t, n - 1) == Some(t.(currentLevel := s.levels[0] + (n - 1) * t.delta, stepCount := n - 1))
      && Run(t, n).Some? && Run(t, n).value.currentStage == 1
      && Run(t, n).value.currentLevel == s.levels[0] + (n - 1) * t.delta + StageDelta(s.levels, s.rates, 1)
  {
    var t := Trigger(s);
    var n := s.rates[0];
    StageRamp(t, n - 1);
    var u := t.(currentLevel := s.levels[0] + (n - 1) * t.delta, stepCount := n - 1);
    assert NextDefined(u);
    assert Run(t, n) == Some(Next(u).1);
  }

  /** An a3.c / a4.c `Envelope` updated in place through its pointer; the two tables are its embedded arrays. */
  class Envelope {
    var levels: array<Int16>
    var rates: array<UInt32>
    var sustainStage: int
    var releaseStage: int
    var currentStage: int
    var currentLevel: int
    var delta: int
    var stepCount: UInt32
    var triggered: bool
    var released: bool

    predicate Valid()
      reads this
    {
      levels.Length == Stages && rates.Length == Stages
    }

    function State(): A34State
      reads this, levels, rates
    {
      A34State(levels[..], rates[..], sustainStage, releaseStage, currentStage, currentLevel,
               delta, stepCount, triggered, released)
    }

    /** `init_envelope`: copies the caller's eight levels and rates one by one. */
    constructor Init(srcLevels: array<Int16>, srcRates: array<UInt32>, sustain: int, release: int)
      requires srcLevels.Length >= Stages && srcRates.Length >= Stages
      ensures Valid() && fresh(levels) && fresh(rates)
      ensures State() == Initial(srcLevels[..], srcRates[..], sustain, release)
    {
      var ls := new Int16[Stages];
      var rs := new UInt32[Stages];
      for i := 0 to Stages
        invariant ls[..i] == srcLevels[..i] && rs[..i] == srcRates[..i]
      {
        ls[i] := srcLevels[i];
        rs[i] := srcRates[i];
      }
      assert ls[..] == srcLevels[..Stages] && rs[..] == srcRates[..Stages];
      levels := ls;
      rates := rs;
      sustainStage := sustain;
      releaseStage := release;
      currentStage := 0;
      stepCount := 0;
      currentLevel := srcLevels[0];
      triggered := false;
      released := false;
      delta := 0;
    }

    /** `trigger_envelope`. */
    method Start()
      requires Valid()
      modifies this
      ensures Valid() && levels == old(levels) && rates == old(rates)
      ensures State() == Trigger(old(State()))
    {
      currentStage := 0;
      stepCount := 0;
      currentLevel := levels[0];
      triggered := true;
      released := false;
      if rates[0] != 0 {
        delta := StageDelta(levels[..], rates[..], 0);
      }
    }

    /** `release_envelope`. */
    method Stop()
      requires Valid() && ReleaseDefined(State())
      modifies this
      ensures Valid() && levels == old(levels) && rates == old(rates)
      ensures State() == Release(old(State()))
    {
      released := true;
      currentStage := releaseStage;
      stepCount := 0;
      if releaseStage < Stages - 1 {
        delta := StageDelta(levels[..], rates[..], releaseStage);
      }
    }

    /** `next_envelope_value`. */
    method NextValue() returns (value: Int16)
      requires Valid() && NextDefined(State())
      modifies this
      ensures Valid() && levels == old(levels) && rates == old(rates)
      ensures (value, State()) == Next(old(State()))
    {
      if !triggered {
        return 0;
      }
      stepCount := U32(stepCount + 1);
      if stepCount >= rates[currentStage] {
        stepCount := 0;
        currentStage := currentStage + 1;
        if currentStage >= Stages {
          currentLevel := levels[Stages - 1];
          return I16(currentLevel);
        }
        if currentStage < Stages - 1 {
          delta := StageDelta(levels[..], rates[..], currentStage);
        }
      }
      currentLevel := currentLevel + delta;
      value := I16(currentLevel);
    }
  }
}
