# exmidia fixed-point synthesiser, modelled in Dafny

This project models the integer core of the exmidia software synthesiser.
The synthesiser renders 16-bit mono audio in periods of 1024 frames. Every
frame mixes a bank of voices, and each voice combines an oscillator with an
envelope:

- **Wavetables** (`generate_*` in `synth.c`, `make_*` in
  `messed-up-synth.c`): square, triangle, rising saw, falling saw and silence
  tables, filled in place.
- **Oscillators**:
  - the 32-bit direct digital synthesiser `DDS` (`dds_init`, `dds_mod`,
    `dds_step`);
  - the Q16.16 `WaveTableOscillator` of `synth.c`;
  - the Q17.15 `osc_t` of `messed-up-synth.c` with its wrap-around
    accumulator. `qfpwhole` and `qfpfrac` split its Q17.15 numbers.
- **Envelopes**:
  - the ADSR `Envelope` of `synth.c`, which is the same as the one in `a200.c`
    and the `env_t` of `messed-up-synth.c`. Its two initialisers differ.
  - the attack-only `jenv_t` of `synth.c`;
  - the eight-stage breakpoint envelopes of `a1.c`, `a2.c`, `a3.c` and `a4.c`.
- **Mixers**: `altsynth` and `synth` in both C files. They run over the
  global voice arrays and write one period into the output buffer.
- **Pacing**: the playback loop's arithmetic (`sent`, `btms`, `diff`), which
  keeps the rendered audio at most a fixed lead ahead of real time.
- **`agcd` / `calc_ratio`**: the reduced-fraction helper.

C integer semantics are explicit, in module `CInt`:

- `uint16_t`, `uint32_t` and `uint64_t` arithmetic wraps;
- narrowing casts to `int16_t` and `int32_t` wrap as gcc does;
- `/` and `%` truncate toward zero (`CDiv`, `CRem`);
- `>>` on signed values is an arithmetic (floor) shift.

Each struct that C updates through a pointer is a class. Each of its methods
ensures that its new `State()` equals a pure function of the old state.
The properties are proved as lemmas about those functions. The global voice
arrays are `seq` fields of a mixer class (`Voices24`, `Voices8`). Its
`AltSynth` and `Synth` methods fill a buffer `array` with nested loops. Each
is proved equal, frame by frame, to a specification function over the whole
period.

## Model

| member | source | states |
|---|---|---|
| Qfp.Whole | messed-up-synth.c:79-81 | The whole part of a Q17.15 int32 lies in [-65536, 65536). |
| Qfp.Frac | messed-up-synth.c:82-84 | The fraction is at most 0x7fff. Whole part times 2^15 plus fraction gives back the original number. |
| Qfp.SplitUnique | messed-up-synth.c:79-84 | Any split of q into an integer part and a 15-bit fraction is exactly (`Whole(q)`, `Frac(q)`). |
| Wavetables.MakeSqr | synth.c:62-70 | The first half of the table is `maxValue`. The rest of the first `size` entries is -32767. Entries past `size` are untouched. |
| Wavetables.MakeTri | synth.c:72-83 | Entry i of the first `size` entries is the triangle value of i, narrowed to int16. Entries past `size` are untouched. |
| Wavetables.MakeSawUp | synth.c:85-92 | Entry i is i times the step `maxValue / size`. Entries past `size` are untouched. |
| Wavetables.MakeSawDown | synth.c:94-101 | Entry i is `maxValue` minus i steps. Entries past `size` are untouched. |
| Wavetables.MakeNone | synth.c:109-113 | The first `size` entries are 0. Entries past `size` are untouched. |
| Wavetables.SawStepInRange | synth.c:85-101 | Every saw entry lies in [0, `maxValue`], so it needs no narrowing. |
| Wavetables.TriInRange | synth.c:72-83 | For a size divisible by 4, every triangle value lies in [-32767, maxValue], so the int16 cast keeps it. |
| Wavetables.SawUpNonDecreasing | synth.c:85-92 | The rising saw never decreases along the table. |
| Wavetables.SawDownNonIncreasing | synth.c:94-101 | The falling saw never increases along the table. |
| Dds.ReadIndex | synth.c:147-152 | The table index is the accumulator's bits 8-19 (`acc >> 8` modulo 4096), always inside the 4096-entry table. |
| Dds.RunClosedForm | synth.c:147-152 | After n steps, the accumulator is the start plus n increments, modulo 2^32. The increment is unchanged. |
| Dds.RunFullCycles | synth.c:147-152 | After any multiple of 2^32 steps, the DDS is back in its start state. |
| Dds.ReadIndexLowBits | synth.c:147-152 | The index depends only on the accumulator modulo 2^20, the span of one trip through the table. |
| Dds.SamplePeriodic | synth.c:147-152 | When n increments make a whole number of table spans, the sample after n steps equals the current one. |
| Dds.Dds.Init | synth.c:137-140 | A new DDS has accumulator 0 and the given increment. |
| Dds.Dds.Mod | synth.c:142-144 | Retuning replaces the increment and keeps the phase. |
| Dds.Dds.Next | synth.c:147-152 | Returns the table entry at the current phase, then advances the accumulator by one increment, modulo 2^32. |
| WaveTableOsc.Index | synth.c:388-415 | The Q16.16 phase always reads an entry inside the table. |
| WaveTableOsc.NextIndex | synth.c:388-415 | The next entry is the following one, wrapping from the last to the first. |
| WaveTableOsc.Advance | synth.c:388-415 | A step keeps the table, its size and the increment, and leaves a valid phase. |
| WaveTableOsc.Run | synth.c:388-415 | Any number of steps keeps the oscillator valid. |
| WaveTableOsc.AdvanceWordAligned | synth.c:388-415 | When the table span divides 2^32, one step adds the increment modulo the span. |
| WaveTableOsc.RunClosedForm | synth.c:388-415 | Under the same condition, n steps add n increments modulo the span. Table, size and increment are kept. |
| WaveTableOsc.UnitIncrementReadsAhead | synth.c:388-415 | With an increment of one entry from phase 0, call n returns entry (n + 1) mod size. The oscillator returns the entry after the current phase, because the interpolation is compiled out. |
| WaveTableOsc.WaveTableOscillator.Init | synth.c:369-378 | A new oscillator holds the table, size and increment, with phase 0. |
| WaveTableOsc.WaveTableOscillator.SetFrequency | synth.c:381-384 | Only the increment changes. |
| WaveTableOsc.WaveTableOscillator.Next | synth.c:388-415 | The sample and new state are the specified step. The oscillator stays valid. |
| Osc.WrapFor | messed-up-synth.c:432-440 | For a table shorter than 2^16, the wrap point is the length in Q17.15. |
| Osc.ReadIndex | messed-up-synth.c:473-480 | The index read from the accumulator always lies inside the table. |
| Osc.Advance | messed-up-synth.c:473-480 | After one step, the accumulator's magnitude is below the wrap point and keeps the sign of acc + inc (C's signed `%`). The recorded sample is the entry read. Nothing else changes. |
| Osc.Run | messed-up-synth.c:473-480 | Any number of steps keeps the oscillator readable. |
| Osc.RunForward | messed-up-synth.c:473-480 | From a phase in [0, wrap) with a non-negative increment, n steps give (acc + n·inc) mod wrap. The increment and wrap point are kept. |
| Osc.ReadIndexPowerOfTwo | messed-up-synth.c:473-480 | For a length dividing 2^32, the index is the integer part of the phase modulo the length. |
| Osc.ReadsIntegerPart | messed-up-synth.c:473-480 | With the wrap point `osc_wave` sets and a phase in [0, wrap), the index is exactly the phase's integer part. |
| Osc.Oscillator.Init | messed-up-synth.c:442-454 | A new oscillator holds the table, length, wrap point and increment. Its accumulator and history are zero, and it has no FM source. |
| Osc.Oscillator.SetWave | messed-up-synth.c:432-440 | Switching waves sets table, length, wrap point and increment. The phase and FM state are kept. |
| Osc.Oscillator.SetFrequency | messed-up-synth.c:456-459 | Only the increment changes. |
| Osc.Oscillator.Sample | messed-up-synth.c:462-492 | The sample and new state are the specified step. |
| Ratio.EuclidStep | synth.c:248-255 | Replacing (a, b) with (b, a % b) keeps the same common divisors, both directions, with C's truncating `%`. |
| Ratio.Agcd | synth.c:248-255 | Exactly the common divisors of the inputs divide the result. The result is positive when both inputs are non-negative and not both 0. |
| Ratio.CalcRatio | synth.c:257-263 | top / bot equals ip / 10000, bot is positive, and top and bot share no divisor above 1. 0 gives 0/1. |
| Pacing.BufferMs | synth.c:1031 | The buffered time is the number of whole milliseconds in the frames sent so far (floor of sent·1000 / 44100). |
| Pacing.Pace | synth.c:1027-1036 | `sent` grows by one period, modulo 2^64. The lead is buffer time minus real time. The loop sleeps iff the lead exceeds the slack, and then exactly long enough to come back to the slack. While ms·1000 fits in 32 bits, the sleep in microseconds is 1000 times the milliseconds. Beyond that, the `usleep` argument wraps modulo 2^32. |
| Pacing.BufferTimeMonotone | synth.c:1028-1031 | Sending a period never makes the buffered time go down while `sent` does not wrap. |
| Mix.AccumulateWraps | synth.c:854 | Repeated `int16` `+=` into a buffer slot equals the int16 wrap of the exact sum. |
| Mix.EnvelopeAttenuates | synth.c:851-853 | An envelope value in [0, 32767] never increases a sample's magnitude or flips its sign. |
| Mix.ScaleAttenuates | synth.c:850 | `s * top / bot` with 0 <= top <= bot never increases the magnitude or flips the sign. |
| JoeEnvelope.UnitsPerSample | synth.c:426-435 | 0 samples gives 0. Otherwise the result is the truncated quotient of the Q24.8 target by the sample count (both bounds given). The result is non-negative when target and count have the same sign (or either is 0), and non-positive when their signs differ. With the bounds, this pins it to C's truncated quotient. |
| JoeEnvelope.SamplesAreMs | synth.c:464 | `ms * SAMPLE_RATE / SAMPLE_RATE` is ms: the attack length is counted in calls, not in samples of 1/44100 s. |
| JoeEnvelope.Init | synth.c:461-472 | Sets the attack length and its per-call delta. Level, step and stage are reset to idle. The current delta is kept. |
| JoeEnvelope.Trigger | synth.c:474-479 | The envelope enters attack at level 0 with the configured delta. Nothing else changes. A positive delta and a non-negative peak make the result bounded. |
| JoeEnvelope.TriggerReachesDecay | synth.c:474-490 | From any state, a trigger with a positive delta and peak climbs from 0 in whole deltas for ceil(peak / delta) calls, still attacking. The next call enters decay at that level. |
| JoeEnvelope.Next | synth.c:481-490 | Outside the attack, nothing changes. In the attack, a level at or above the attack level switches to decay and changes nothing else, from any state. Only the level and stage ever change. |
| JoeEnvelope.RunBounded | synth.c:481-490 | Every later state stays bounded by the peak plus one delta, and peak and delta are kept. |
| JoeEnvelope.AttackRamp | synth.c:482-485 | While below the peak, j calls raise the level by j deltas. |
| JoeEnvelope.ReachesDecay | synth.c:482-487 | From silence, ceil(peak / delta) calls (at least one) reach or pass the peak in whole deltas, and one more call switches to decay. |
| JoeEnvelope.MainConfigPeakWraps | synth.c:989 | With the startup setting (1000 ms, peak 32766) the delta is 8388. Five calls end in decay at level 33552. The int16 output there is -30852: the peak's output wraps negative. |
| JoeEnvelope.JoeEnvelope.constructor | synth.c:459 | A zero-initialised global: every field 0, stage idle. |
| JoeEnvelope.JoeEnvelope.Configure | synth.c:461-472 | The new state is `Init` of the old one. |
| JoeEnvelope.JoeEnvelope.Fire | synth.c:474-479 | The new state is `Trigger` of the old one. |
| JoeEnvelope.JoeEnvelope.Step | synth.c:481-490 | The new state is `Next` of the old one. The value is the Q24.8 level scaled to int16. |
| Adsr.RateFor | synth.c:552-559 | The per-sample rate is the truncated quotient, raised to 1 when it would be 0. For an in-range delta it lies in [1, delta]. |
| Adsr.EnvelopeInit | synth.c:533-564 | Sets the attack level to full scale and the sustain level to its default, idle at level 0 with the note off. The envelope invariant holds. |
| Adsr.AtLeastOneMs | messed-up-synth.c:547-549 | A 0 ms segment is stretched to 1 ms. Other lengths are kept. |
| Adsr.EnvInit | messed-up-synth.c:543-581 | All three rates are non-zero. The levels are the given ones, idle at 0 with the note off. For 0 <= sustain <= attack, the invariant holds exactly when the attack level plus the attack rate is below 2^31, the bound the attack add needs to stay in int32. It always holds for attack levels below 2^30. |
| Adsr.EnvInitOverflows | messed-up-synth.c:543-581 | Levels 65535 and 0 with 1 ms stages give attack rate 48805701 and fall outside the invariant: 44 adds stay below the peak, and the 45th would pass 2^31. |
| Adsr.EnvInitSamples | messed-up-synth.c:543-581 | Every clamped length up to 97391 ms gives at least 44 samples, so the rate divisions are defined. |
| Adsr.Process | synth.c:576-615 | A step keeps the invariant: the level stays inside [0, attack level], and no int32 sum or difference overflows. Only the stage and level change. |
| Adsr.OutputRange | synth.c:614 | A level in [0, full scale] gives an output in [0, 32767]. |
| Adsr.StartNote | synth.c:566-569 | Note-on enters attack with the note held. Nothing else changes. The invariant is kept. |
| Adsr.EndNote | synth.c:571-574 | Note-off enters release with the note released. Nothing else changes. The invariant is kept. |
| Adsr.RunInRange | synth.c:576-615 | Over any number of steps, the invariant and both levels are kept, and every output lies in [0, 32767]. |
| Adsr.AttackRamp | synth.c:582-588 | While below the attack level, j steps add j attack rates. |
| Adsr.AttackPeak | synth.c:582-588 | The step that would reach or pass the attack level clamps to it and enters decay. |
| Adsr.AttackFromSilence | synth.c:582-588 | From 0, decay starts after exactly ceil(attack level / rate) steps, at the attack level. |
| Adsr.DecayRamp | synth.c:590-596 | While above the sustain level, j steps subtract j decay rates. |
| Adsr.DecaySettles | synth.c:590-596 | The step that would reach or pass the sustain level clamps to it and enters sustain. |
| Adsr.SustainHolds | synth.c:598-602 | While the note is held, sustain never changes. |
| Adsr.SustainReleases | synth.c:598-602 | With the note released, one step enters release. |
| Adsr.ReleaseRamp | synth.c:604-610 | While above 0, j steps subtract j release rates. |
| Adsr.ReleaseEnds | synth.c:604-610 | The step that would reach or pass 0 clamps to 0 and goes idle. |
| Adsr.IdleSilent | synth.c:578-580 | Idle steps force the level to 0 and change nothing else. |
| Adsr.Envelope.Init | synth.c:533-564 | A new envelope is `EnvelopeInit` of its arguments. |
| Adsr.Envelope.Reinit | messed-up-synth.c:543-581 | Re-initialisation replaces the whole state with `EnvInit` of its arguments. |
| Adsr.Envelope.NoteOn | synth.c:566-569 | The new state is `StartNote` of the old one. |
| Adsr.Envelope.NoteOff | synth.c:571-574 | The new state is `EndNote` of the old one. |
| Adsr.Envelope.Next | synth.c:576-615 | The new state is `Process` of the old one. The value is the new level scaled to int16. |
| Breakpoint.StageDelta | a2.c:89-91 | A stage's per-sample delta is never larger than the rise. For a length below 2^31, it is the truncated rise / length and ends the stage less than one length away from the target. It is non-negative on rising stages and non-positive on falling ones. |
| A1Envelope.Initial | a1.c:18-29 | Copies the eight levels and rates. Starts at stage 0, step 0, level `levels[0]`, not released. |
| A1Envelope.Trigger | a1.c:32-37 | Restarts at stage 0, step 0 and `levels[0]`, clearing release. The tables are kept. |
| A1Envelope.Release | a1.c:40-46 | Always marks the envelope released. A release stage in 0..7 is entered with step 0. Any other release stage leaves stage and step alone. |
| A1Envelope.MoveToward | a1.c:55-68 | The level moves by the rate toward the target without overshooting. A downward move by more than the level wraps the uint32 level above the target. |
| A1Envelope.Next | a1.c:49-89 | Past stage 7, nothing changes. Otherwise the level moves toward the stage's target. Reaching it advances the stage (except when holding at sustain) with step 0. Otherwise the step counts, modulo 2^32. Finishing stage 7 returns `levels[7]`. |
| A1Envelope.Run | a1.c:49-89 | Any number of calls keeps the state well formed. |
| A1Envelope.DoneIsFinal | a1.c:50-52 | Once past the last stage, no call changes anything. |
| A1Envelope.ParkedForever | a1.c:55-76 | A parked envelope only counts steps, modulo 2^32, for any number of calls. Parked means either held at its target on the sustain stage, or stalled off target on a stage with rate 0, as `main`'s table does at stage 3. |
| A1Envelope.RiseRamp | a1.c:57-61 | While below the target, j calls add j rates. |
| A1Envelope.RiseArrives | a1.c:57-86 | With a positive rate, ceil(distance / rate) calls reach the target exactly. Then the stage holds on sustain, or else advances with step 0. |
| A1Envelope.DescentWraps | a1.c:62-66 | A descent by more than the current level wraps the uint32 level to at least 2^16, and the stage does not end. |
| A1Envelope.Approach | a1.c:55-68 | The in-place move computes `MoveToward`. |
| A1Envelope.Envelope.Init | a1.c:18-29 | The new object's state is `Initial` of the copied arrays. |
| A1Envelope.Envelope.Start | a1.c:32-37 | The new state is `Trigger` of the old one. |
| A1Envelope.Envelope.Stop | a1.c:40-46 | The new state is `Release` of the old one. |
| A1Envelope.Envelope.NextValue | a1.c:49-89 | The value and new state are `Next` of the old state. |
| A2Envelope.Initial | a2.c:23-36 | Copies the tables. Starts at stage 0 at `levels[0]` with delta 0, neither triggered nor released. |
| A2Envelope.Trigger | a2.c:39-49 | Restarts stage 0 at `levels[0]`, triggered and not released. The delta is recomputed only when stage 0 has a non-zero length. |
| A2Envelope.Release | a2.c:52-62 | Marks the envelope released. A release stage in 0..7 is entered with step 0 and gets its delta when its length is non-zero. The level is never touched. |
| A2Envelope.Next | a2.c:65-96 | Each call keeps the state well formed. |
| A2Envelope.NextCases | a2.c:65-96 | Untriggered: returns 0 and changes nothing. Triggered: the level moves by the delta; a finished stage advances with step 0; past stage 7 the level is forced to `levels[7]`; entering sustain unreleased zeroes the delta; a new stage below 7 gets its own delta. Output is the level as int16. |
| A2Envelope.Run | a2.c:65-96 | Any run that stays defined keeps the state well formed. |
| A2Envelope.UntriggeredStays | a2.c:66-68 | An untriggered envelope never changes. |
| A2Envelope.StageRamp | a2.c:70-73 | Within a stage, j calls add j deltas and j steps. |
| A2Envelope.SustainIsTimed | a2.c:82-83 | Sustain holds the level for its length minus one call and then advances a stage: it ends on its own timer, not on release. |
| A2Envelope.FirstStageLandsNear | a2.c:46-91 | After a trigger, stage 0 ramps for its length and then stage 1 starts. The level there is less than that length away from `levels[1]`. |
| A2Envelope.Envelope.Init | a2.c:23-36 | The new object's state is `Initial` of the copied arrays. |
| A2Envelope.Envelope.Start | a2.c:39-49 | The new state is `Trigger` of the old one. |
| A2Envelope.Envelope.Stop | a2.c:52-62 | The new state is `Release` of the old one. |
| A2Envelope.Envelope.NextValue | a2.c:65-96 | The value and new state are `Next` of the old state. |
| A34Envelope.Initial | a3.c:20-33 | Copies the tables. Starts at stage 0 at `levels[0]` with delta 0, neither triggered nor released. |
| A34Envelope.Trigger | a3.c:35-45 | Restarts stage 0 at `levels[0]`, triggered and not released. The delta is recomputed only when stage 0 has a non-zero length. |
| A34Envelope.Release | a3.c:47-55 | Marks the envelope released and enters the release stage with step 0. A release stage below 7 gets its delta. The level is never touched. |
| A34Envelope.Next | a3.c:57-82 | Each call keeps the state well formed. |
| A34Envelope.NextCases | a3.c:57-82 | Untriggered: returns 0 and changes nothing. Triggered: a finished stage advances with step 0; past stage 7 the level is forced to `levels[7]`; a new stage below 7 gets its own delta; the level then moves by the (possibly new) delta. Output is the level as int16. |
| A34Envelope.Run | a3.c:57-82 | Any run that stays defined keeps the state well formed. |
| A34Envelope.UntriggeredStays | a3.c:58-60 | An untriggered envelope never changes. |
| A34Envelope.HoldIgnored | a3.c:57-82 | The sustain stage and the released flag never affect a run: runs differing only in them stay in step. |
| A34Envelope.StageRamp | a3.c:62-79 | Within a stage, j calls add j deltas and j steps. |
| A34Envelope.FirstStage | a3.c:64-79 | After a trigger, stage 0 ramps for its length. The call that ends it already adds stage 1's delta. |
| A34Envelope.Envelope.Init | a3.c:20-33 | The new object's state is `Initial` of the copied arrays. |
| A34Envelope.Envelope.Start | a3.c:35-45 | The new state is `Trigger` of the old one. |
| A34Envelope.Envelope.Stop | a3.c:47-55 | The new state is `Release` of the old one. |
| A34Envelope.Envelope.NextValue | a3.c:57-82 | The value and new state are `Next` of the old state. |
| SynthMixer.AltVoice | synth.c:849-853 | One voice steps its oscillator once and its envelope once. |
| SynthMixer.AltVoiceAttenuates | synth.c:849-853 | With 0 <= top <= bot and an envelope in range, a voice's output never exceeds its raw sample's magnitude or flips its sign. |
| SynthMixer.AltMix | synth.c:848-855 | After v voices, exactly the first v oscillators and envelopes have stepped once. DDS and attack envelopes are untouched. |
| SynthMixer.AltMixIsWrappedSum | synth.c:848-855 | The slot is the int16 wrap of the exact sum of the voices' outputs. |
| SynthMixer.AltPeriod | synth.c:845-857 | A period has one sample per frame. |
| SynthMixer.AltPeriodStepsEveryVoice | synth.c:845-857 | After n frames, every oscillator and every envelope has stepped exactly n times. DDS and attack envelopes are untouched. |
| SynthMixer.Modulator | synth.c:872-883 | A modulator with wave NONE contributes 0 and changes nothing. Otherwise its DDS steps, and its envelope call goes to the shared attack envelope when enveloped. |
| SynthMixer.SynthPair | synth.c:866-893 | A skipped carrier contributes 0 and changes nothing. No pair touches the wavetable oscillators or the ADSR envelopes. |
| SynthMixer.SynthPairEffects | synth.c:866-893 | A pair touches only its own two DDS and the shared envelope `jenv[voice]`. An active carrier advances its phase and takes the increment `dds_mod` computes from the modulator's value. The modulator steps unless NONE. The shared envelope steps once per enveloped call. |
| SynthMixer.ModulatorNeverHeard | synth.c:872-884 | When at most one of the pair is enveloped, silencing the modulator leaves the carrier's contribution the same: the modulator's value `b` is computed, but its retuning reaches the carrier only on the next frame. |
| SynthMixer.SynthMix | synth.c:865-894 | A frame keeps the configuration defined and never touches the wavetable oscillators or ADSR envelopes. |
| SynthMixer.SynthPeriod | synth.c:859-897 | A period has one sample per frame. |
| SynthMixer.SilentMix | synth.c:867-869 | When every carrier is skipped, the frame is 0 and nothing changes. |
| SynthMixer.SilentPeriod | synth.c:859-897 | When every carrier is skipped, the period is all zeros and nothing changes. |
| SynthMixer.Voices24.constructor | synth.c:228-242 | The mixer holds the given voices and settings. |
| SynthMixer.Voices24.AltSynth | synth.c:845-857 | The buffer holds exactly the specified period, and the voices are left as after it. |
| SynthMixer.Voices24.Synth | synth.c:859-897 | The buffer holds exactly the specified period, and the voices are left as after it. |
| SynthMixer.Voices24.AltFrame | synth.c:846-855 | Slot n gets the specified frame. The other slots are untouched. |
| SynthMixer.Voices24.PlayVoice | synth.c:849-854 | One voice adds its output to slot n and steps only its own oscillator and envelope. |
| SynthMixer.Voices24.SynthFrame | synth.c:863-894 | Slot n gets the specified frame. The other slots are untouched. |
| SynthMixer.Voices24.MixPairs | synth.c:865-894 | The pairs' sum and the voices after it are the specified frame. |
| SynthMixer.Voices24.PlayPair | synth.c:866-893 | One pair adds its contribution and leaves the voices as specified. |
| SynthMixer.Voices24.PlayModulator | synth.c:872-883 | Computes the modulator's value, steps only its DDS and the shared envelope, and leaves every other array alone. |
| MessedMixer.Shape | messed-up-synth.c:918-927 | An enveloped sample steps its envelope, and the value heard is the one recorded. An unenveloped sample is heard unnarrowed and recorded as int16. |
| MessedMixer.FmRetune | messed-up-synth.c:929-937 | FM changes only this voice's increment and modulation memory. A voice without an FM source is untouched. |
| MessedMixer.AltVoice | messed-up-synth.c:913-939 | A silent voice (`vol == 0`) adds 0 and changes nothing. A played voice steps its oscillator, records the shaped sample and steps its envelope if enveloped. A modulator adds 0. No other voice changes. |
| MessedMixer.AltMix | messed-up-synth.c:912-940 | After v voices, voices from v on and silent voices are untouched. Each played, enveloped voice below v has stepped its envelope once. |
| MessedMixer.AltPeriod | messed-up-synth.c:909-942 | A period has one sample per frame. |
| MessedMixer.AltPeriodVoices | messed-up-synth.c:909-942 | After n frames, silent voices are untouched and each played, enveloped voice's envelope has stepped n times. The DDS bank is untouched. |
| MessedMixer.AltPeriodOscillator | messed-up-synth.c:909-942 | A played voice without FM advances its oscillator exactly n steps over n frames. |
| MessedMixer.AltMixOscillator | messed-up-synth.c:912-940 | Within a frame, a played voice without FM advances its oscillator exactly one step. |
| MessedMixer.AltSilentMix | messed-up-synth.c:913 | With every volume 0, a frame is 0 and nothing changes. |
| MessedMixer.AltSilentPeriod | messed-up-synth.c:909-942 | With every volume 0, the period is all zeros and nothing changes. |
| MessedMixer.Modulator | messed-up-synth.c:958-968 | A modulator with wave NONE gives 0 and changes nothing. Otherwise its DDS steps, and its own envelope steps when enveloped. |
| MessedMixer.SynthPair | messed-up-synth.c:952-977 | A skipped carrier contributes 0 and changes nothing. Oscillators are never touched. |
| MessedMixer.SynthPairEffects | messed-up-synth.c:952-977 | A pair touches only its own two DDS and envelopes. The carrier's phase advances and takes the increment `dds_mod` computes from the modulator's value, the modulator steps unless NONE, and each envelope steps when enabled. |
| MessedMixer.ModulatorNeverHeard | messed-up-synth.c:958-969 | Silencing the modulator leaves the carrier's contribution the same: its retuning reaches the carrier only on the next frame. |
| MessedMixer.SynthMix | messed-up-synth.c:951-978 | A frame keeps the configuration defined and never touches the oscillators. |
| MessedMixer.SynthPeriod | messed-up-synth.c:945-981 | A period has one sample per frame. |
| MessedMixer.SilentMix | messed-up-synth.c:953-955 | When every carrier is skipped, the frame is 0 and nothing changes. |
| MessedMixer.SilentPeriod | messed-up-synth.c:945-981 | When every carrier is skipped, the period is all zeros and nothing changes. |
| MessedMixer.AsCompiledSynthSilent | messed-up-synth.c:500 | With every amplitude 0.0 (no assignment to `oa` is compiled), `synth` renders silence and changes no voice. |
| MessedMixer.Voices8.constructor | messed-up-synth.c:495-501 | The mixer holds the given voices and settings. |
| MessedMixer.Voices8.AltSynth | messed-up-synth.c:909-942 | The buffer holds exactly the specified period, and the voices are left as after it. |
| MessedMixer.Voices8.Synth | messed-up-synth.c:945-981 | The buffer holds exactly the specified period, and the voices are left as after it. |
| MessedMixer.Voices8.AltFrame | messed-up-synth.c:910-940 | Slot n gets the specified frame. The other slots are untouched. |
| MessedMixer.Voices8.PlayVoice | messed-up-synth.c:913-939 | One voice adds its contribution to slot n and changes only its own oscillator and envelope. |
| MessedMixer.Voices8.ShapeVoice | messed-up-synth.c:916-927 | The shaped value is heard unless the voice is a modulator, and it is recorded in `processed`. Only this voice's envelope changes. |
| MessedMixer.Voices8.FollowModulator | messed-up-synth.c:929-937 | The oscillators after FM are `FmRetune` of the old ones. Envelopes and DDS are untouched. |
| MessedMixer.Voices8.SynthFrame | messed-up-synth.c:948-980 | Slot n gets the specified frame. The other slots are untouched. |
| MessedMixer.Voices8.MixPairs | messed-up-synth.c:951-978 | The pairs' sum and the voices after it are the specified frame. |
| MessedMixer.Voices8.PlayPair | messed-up-synth.c:952-977 | One pair adds its contribution and leaves the voices as specified. |
| MessedMixer.Voices8.PlayModulator | messed-up-synth.c:958-968 | Computes the modulator's value, steps only its DDS and envelope, and leaves the oscillators alone. |

## Left out

- Floating-point table builders (sine, cosine, noise) and every double computation are not modelled: no floating point. The results of the frequency-to-increment conversions (`dds_init`/`dds_mod` arguments, `osc_freq`, `set_frequency`, the FM retune of `dds_mod(of[i] + b)` and of `osc[v].inc`) are integer parameters (`Retune`, `FmInc`, increments). `oa[i]` is kept only as the test `oa[i] == 0.0` (`ampZero`).
- The double-based envelope, `pow` and the level conversions of `env_init` (`FP_SCALE * attack_level` and `FP_SCALE * sustain_level / 10`) are not modelled: `Adsr.EnvInit` takes the resulting int32 levels as inputs.
- ALSA output, the playback thread, `gettimeofday` and `usleep` are not modelled: real time `rtms` is an input of `Pacing.Pace`, and the sleep is returned as a value.
- The command interpreter, `mytok`, `listalsa` and all debug `printf`s (including those in `joe_env_init` and `joe_env_trigger`) are not modelled: they are I/O.
- The `main` drivers of `a1.c`, `a2.c`, `a3.c`, `a4.c` and `a200.c` are not modelled: they only print envelope values.
- adsr.c and a10.c are not part of this model.
- `a3.c` and `a4.c` differ only in comments, in the order of two assignments in `trigger_envelope`, and in an explicit `(int16_t)` cast at one `return` of `next_envelope_value` that the implicit conversion to the int16 return type already performs, so one module `A34Envelope` models both.
- A2Envelope.Next: int32 `current_level += delta` is unbounded here; signed overflow is undefined in C.
- A34Envelope.Next: int32 `current_level += delta` is unbounded here; signed overflow is undefined in C.
- A2Envelope.Release: requires `ReleaseDefined`; otherwise `release_envelope` reads `levels[8]`, outside the array.
- A34Envelope.Release: requires `ReleaseDefined`; otherwise `release_envelope` reads outside the arrays or divides by zero.
- A2Envelope.Envelope.NextValue: requires `NextDefined`; otherwise C indexes `rates` outside 0..7 or divides by a zero stage length.
- A34Envelope.Envelope.NextValue: requires `NextDefined`; otherwise C indexes `rates` outside 0..7 or divides by a zero stage length.
- Osc.Advance: the int32 sum `acc + inc` and the FM increment bump are unbounded here; signed overflow is undefined in C.
- JoeEnvelope.Next: the int32 level and the product `level * 32767` are unbounded here. Only the final int16 cast wraps.
- MessedMixer.AltDefined: requires every played voice's `fmo` to name a voice (0..7). The 'F' command stores any integer in `osc[voice].fmo` unchecked, and `altsynth` then reads `osc[fmo]` outside the array. This requirement reaches `MessedMixer.AltMix`, `MessedMixer.AltPeriod` and `MessedMixer.Voices8.AltSynth`.
- Adsr.Process: the invariant `Adsr.Inv` includes the bound attack level + attack rate < 2^31, so the model covers only envelopes whose int32 attack add cannot overflow. `env_init` accepts larger attack levels (for example `B1,1,1,65535,0`, see `Adsr.EnvInitOverflows`); for those, C's signed overflow is undefined and is not modelled.
- MessedMixer.AltVoice: the int product `s * vol[v]` is unbounded here.
- Mix.ScaleBy: the int product `s * top` (`synth.c` lines 850, 871 and 875; `messed-up-synth.c` lines 957 and 961) is unbounded here. The command interpreter accepts any `top`, so C overflows once |s·top| reaches 2^31.
- Mix.ScaleAttenuates: holds for the C program only while |s·top| < 2^31, because `Mix.ScaleBy` does not model the overflow.
- Mix.ApplyEnvelope: the int32 product `(int32_t)s * envelope_value` (`synth.c` lines 852, 879 and 888; `messed-up-synth.c` lines 920, 964 and 972) is unbounded here. It overflows in C once a scaled sample exceeds about 65536, for example with top/bot above 2.
- JoeEnvelope.UnitsPerSample: the int32 shift `target_value << 8` is unbounded here. It overflows in C for |target| >= 2^23.
- JoeEnvelope.Init: the int32 product `attack_ms * SAMPLE_RATE` is unbounded here. In C it overflows for attack times above 48695 ms, and then `attackSamples == attackMs` no longer describes the compiled program.
- SynthMixer.Voices24.SynthFrame: C adds into `buffer[n]` once per pair. The method adds into a local slot and stores it once, which has the same result because no other code reads the buffer meanwhile.
- MessedMixer.Voices8.SynthFrame: the same local-slot accumulation as `SynthMixer.Voices24.SynthFrame`.
- Osc.Oscillator.Init: models `osc_init` on a zero-initialised global. Fields `osc_init` does not set start at zero.
- The uninitialised locals and the unused counter `c` in both `synth` functions are not modelled: they do not affect the output.
