/**
 * The real-time pacing arithmetic at the end of each period in `main`
 * (synth.c and messed-up-synth.c alike): after a period of 1024 frames is
 * written, the time the buffer covers (`btms`) is compared with the wall
 * time elapsed (`rtms`), and the loop sleeps only for the part of the lead
 * that exceeds the slack `latency_hack_ms`. The wall clock is an input.
 */
module Pacing {
  import opened CInt

  /** SAMPLE_RATE. */
  const SampleRate: int := 44100
  /** PERIOD_SIZE. */
  const PeriodSize: int := 1024
  /** LATENCY_HACK_MS, the initial slack. */
  const DefaultSlackMs: int := 100

  /** Whether the loop calls `usleep`, and with what: the ms value of `diff` and the µs argument passed. */
  datatype Pause = NoSleep | Sleep(ms: int, micros: UInt32)

  /** What one period's bookkeeping computes. */
  datatype Tick = Tick(sent: UInt64, btms: int, lead: int, pause: Pause)

  /** `sent * 1000 / SAMPLE_RATE` in unsigned long long: milliseconds of audio sent. */
  function BufferMs(sent: UInt64): (r: nat)
    ensures 0 <= sent && sent * 1000 < Two64 ==> r * SampleRate <= sent * 1000 < r * SampleRate + SampleRate
  {
    U64(sent * 1000) / SampleRate
  }

  /**
   * One period: `sent += PERIOD_SIZE`, `btms`, `diff = btms - rtms`, and a
   * sleep of `diff - slack` ms exactly when `diff > slack`; `usleep`
   * receives that many microseconds, truncated to its 32-bit parameter.
   */
  function Pace(sent: UInt64, rtms: int, slackMs: int): (r: Tick)
    ensures r.sent == U64(sent + PeriodSize) && r.btms == BufferMs(r.sent)
    ensures r.lead == r.btms - rtms
    ensures r.pause.Sleep? <==> r.lead > slackMs
    ensures r.pause.Sleep? ==> r.pause.ms == r.lead - slackMs > 0
    ensures r.pause.Sleep? ==> r.btms - (rtms + r.pause.ms) == slackMs
    ensures r.pause.Sleep? && r.pause.ms * 1000 < Two32 ==> r.pause.micros == r.pause.ms * 1000
  {
    var sent' := U64(sent + PeriodSize);
    var btms := BufferMs(sent');
    var diff := btms - rtms;
    if diff > slackMs then
      var ms := diff - slackMs;
      Tick(sent', btms, diff, Sleep(ms, U32(ms * 1000)))
    else
      Tick(sent', btms, diff, NoSleep)
  }

  /** While the counters do not wrap, the audio time never goes backwards from one period to the next. */
  lemma BufferTimeMonotone(sent: UInt64, rtms: int, slackMs: int)
    requires (sent + PeriodSize) * 1000 < Two64
    ensures Pace(sent, rtms, slackMs).btms >= BufferMs(sent)
  {
    var next := sent + PeriodSize;
    assert U64(next) == next;
    MulMonoLe(1000, sent, next);
    DivMono(sent * 1000, next * 1000, SampleRate);
  }

  /** Division by a positive constant preserves order. */
  lemma DivMono(a: int, b: int, d: int)
    requires 0 <= a <= b && 0 < d
    ensures a / d <= b / d
  {
    if a / d > b / d {
      MulMonoLe(d, b / d + 1, a / d);
      assert false;
    }
  }
}
