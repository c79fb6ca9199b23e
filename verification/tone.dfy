/** `ToneGenerator` (src/lib.rs:92-130): one per channel, a square wave whose
    TONE bit flips whenever the shared accumulator crosses below zero. */
module Tone {
  import opened Flags
  import opened Rates
  import Divider

  /** Tone periods are 12-bit register values. */
  const PERIOD_LIMIT: nat := 4096

  datatype ToneGenerator = ToneGenerator(
    clockRate: nat,
    sampleRateX8: nat,
    error: int,
    periodMin: nat,
    source: nat,
    output: Output)

  /** The state the constructor establishes and the setter and the step
      keep: the minimum period derived from the rates, a source that is the
      oversampled rate times a period between that minimum and the largest
      settable one, and an output that only ever holds the TONE bit. */
  predicate Valid(g: ToneGenerator) {
    && 0 < g.sampleRateX8
    && g.periodMin == g.clockRate / (2 * g.sampleRateX8) + 1
    && g.source % g.sampleRateX8 == 0
    && g.periodMin <= g.source / g.sampleRateX8 <= Max(g.periodMin, PERIOD_LIMIT - 1)
    && g.output & NOISE == NONE
  }

  /** `ToneGenerator::new`: the period starts at its minimum, which is the
      least period `p >= 1` with `p * 16 * sampleRate > clockRate`. */
  function New(clockRate: nat, sampleRate: nat): (g: ToneGenerator)
    requires ToneRatesFit(clockRate, sampleRate)
    ensures Valid(g)
    ensures g.clockRate == clockRate && g.sampleRateX8 == 8 * sampleRate
    ensures 1 <= g.periodMin
    ensures (g.periodMin - 1) * (16 * sampleRate) <= clockRate < g.periodMin * (16 * sampleRate)
    ensures g.source == g.periodMin * g.sampleRateX8
    ensures g.error == clockRate && g.output == NONE
  {
    var sampleRateX8 := sampleRate * 8;
    var period := clockRate / (sampleRateX8 * 2) + 1;
    var g := ToneGenerator(clockRate, sampleRateX8, clockRate, period, period * sampleRateX8, NONE);
    MulDivExact(period, sampleRateX8);
    FloorBrackets(clockRate, 16 * sampleRate);
    g
  }

  /** `ToneGenerator::set_period`: a period of 4096 or more is refused; a
      period below the minimum is raised to it, so 0 is accepted and the
      source never falls below its value at construction. Only the source
      changes. */
  function SetPeriod(g: ToneGenerator, period: nat): (r: Result<ToneGenerator>)
    ensures r.Err? <==> period >= PERIOD_LIMIT
    ensures r.Err? ==> r.error == PeriodOutOfRange
    ensures r.Ok? ==> r.value == g.(source := r.value.source)
    ensures r.Ok? ==> r.value.source >= g.periodMin * g.sampleRateX8
    ensures r.Ok? ==> r.value.source >= period * g.sampleRateX8
    ensures r.Ok? && g.periodMin <= period ==> r.value.source == period * g.sampleRateX8
    ensures r.Ok? && period < g.periodMin ==> r.value.source == g.periodMin * g.sampleRateX8
    ensures r.Ok? && Valid(g) ==> Valid(r.value)
  {
    if period >= PERIOD_LIMIT then Err(PeriodOutOfRange)
    else
      var effective := Max(period, g.periodMin);
      var g' := g.(source := g.sampleRateX8 * effective);
      assert 0 < g.sampleRateX8 ==> g'.source / g.sampleRateX8 == effective by {
        if 0 < g.sampleRateX8 { MulDivExact(effective, g.sampleRateX8); }
      }
      Ok(g')
  }

  /** `ToneGenerator::update`: one sample. The TONE bit flips, and the source
      is added back, exactly when the error minus the clock rate is
      negative; nothing else flips and it flips at most once per call. */
  function Update(g: ToneGenerator): (r: (ToneGenerator, Output))
    ensures r.1 == r.0.output
    ensures r.0 == g.(error := r.0.error, output := r.0.output)
    ensures r.0.output != g.output <==> g.error - g.clockRate < 0
    ensures r.0.output ^ g.output == NONE || r.0.output ^ g.output == TONE
    ensures r.0.error == g.error - g.clockRate + (if r.0.output != g.output then g.source else 0)
    ensures Valid(g) ==> Valid(r.0) && (r.1 == NONE || r.1 == TONE)
  {
    var (error, crossed) := Divider.Tick(g.error, g.clockRate, g.source);
    var output := if crossed then g.output ^ TONE else g.output;
    (g.(error := error, output := output), output)
  }

  /** `n` calls of `update` in a row. */
  function Steps(g: ToneGenerator, n: nat): ToneGenerator
    decreases n
  {
    if n == 0 then g else Steps(Update(g).0, n - 1)
  }

  /** Over `n` samples the generator is exactly the accumulator: its error is
      the accumulator's, and its output has been toggled once per crossing. */
  lemma {:induction false} StepsFollowAccumulator(g: ToneGenerator, n: nat)
    ensures var (e, k) := Divider.Ticks(g.error, g.clockRate, g.source, n);
      && Steps(g, n) == g.(error := e, output := Steps(g, n).output)
      && Steps(g, n).output == (if k % 2 == 0 then g.output else g.output ^ TONE)
    decreases n
  {
    if n > 0 {
      var g1 := Update(g).0;
      StepsFollowAccumulator(g1, n - 1);
    }
  }

  /** A common chip clock at a common sample rate where the minimum period
      falls behind the clock: at 1,789,772 Hz and 44,100 Hz the minimum
      period is 3 and its source, 1,058,400, is below the clock rate. */
  lemma MinPeriodFallsBehind()
    ensures var g := New(1_789_772, 44_100);
      g.periodMin == 3 && g.source == 1_058_400 && g.source < g.clockRate
  {
  }

  /** At the minimum period with a source below the clock rate (for example
      2 MHz and 48 kHz, where the minimum period is 3 and the source 1,152,000)
      the generator toggles on every call and its error keeps sinking; the
      error is not kept non-negative. */
  lemma FastToneTogglesEverySample(g: ToneGenerator, n: nat)
    requires g.source < g.clockRate && g.error < g.clockRate
    ensures Steps(g, n).output == (if n % 2 == 0 then g.output else g.output ^ TONE)
    ensures Steps(g, n).error == g.error - n * (g.clockRate - g.source)
  {
    StepsFollowAccumulator(g, n);
    Divider.DriftsWhenFast(g.error, g.clockRate, g.source, n);
  }

  /** With the source at least the clock rate and the error in [0, source],
      the number of toggles over `n` samples is within one of
      `n * clockRate / source`: the long-run pitch does not drift. */
  lemma SlowToneDoesNotDrift(g: ToneGenerator, n: nat)
    requires g.clockRate <= g.source && 0 <= g.error <= g.source
    ensures var k := Divider.Ticks(g.error, g.clockRate, g.source, n).1;
      && Steps(g, n).output == (if k % 2 == 0 then g.output else g.output ^ TONE)
      && n * g.clockRate - g.source <= k * g.source <= n * g.clockRate + g.source
      && 0 <= Steps(g, n).error <= g.source
  {
    StepsFollowAccumulator(g, n);
    Divider.NoDrift(g.error, g.clockRate, g.source, n);
    Divider.BoundedWhenSlow(g.error, g.clockRate, g.source, n);
  }
}
