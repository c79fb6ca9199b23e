/** `NoiseGenerator` (src/lib.rs:169-211): the one noise source shared by all
    channels. Each crossing of its accumulator steps a 16-bit Fibonacci
    shift register; the noise bit is bit 0 of that register. */
module Noise {
  import opened Flags
  import opened Rates
  import Divider

  /** Noise periods are 5-bit register values. */
  const PERIOD_LIMIT: nat := 32

  const I32_MIN: int := -0x8000_0000

  datatype NoiseGenerator = NoiseGenerator(
    clockRate: nat,
    sampleRateX16: nat,
    error: int,
    periodMin: nat,
    source: nat,
    shift: bv16)

  /** One step of the shift register: every bit moves down one place and
      bit 0 XOR bit 3 enters at bit 15, in exactly 16 bits. */
  function Lfsr(s: bv16): (r: bv16)
    ensures r & 0x7FFF == s >> 1
    ensures r >> 15 == (s ^ (s >> 3)) & 1
    ensures s != 0 ==> r != 0
  {
    (s >> 1) | ((s ^ (s >> 3)) << 15)
  }

  /** The step undone: bit 0 is recovered from bit 15 and the old bit 3,
      which now sits at bit 2. */
  function LfsrInverse(r: bv16): bv16 {
    (r << 1) | (((r >> 15) ^ (r >> 2)) & 1)
  }

  /** The register step is a bijection on 16-bit values, so no state is
      ever lost and, as `Lfsr(0) == 0`, a non-zero register never reaches 0. */
  lemma LfsrRoundTrip(s: bv16)
    ensures LfsrInverse(Lfsr(s)) == s
    ensures Lfsr(LfsrInverse(s)) == s
  {
  }

  /** The state the constructor establishes and the setter and the step
      keep. It bounds every value the `i32` error and the `u32` source take. */
  predicate Valid(g: NoiseGenerator) {
    && 0 < g.sampleRateX16
    && g.periodMin == g.clockRate / g.sampleRateX16
    && g.periodMin < 255
    && g.clockRate <= I32_MAX
    && (Max(g.periodMin, PERIOD_LIMIT - 1) + 1) * g.sampleRateX16 <= I32_MAX
    && g.source % g.sampleRateX16 == 0
    && g.periodMin + 1 <= g.source / g.sampleRateX16 <= Max(g.periodMin, PERIOD_LIMIT - 1) + 1
    && 0 <= g.error <= I32_MAX
    && g.shift != 0
  }

  /** In a valid generator the source always exceeds the clock rate and
      fits `i32`. */
  lemma SourceExceedsClock(g: NoiseGenerator)
    requires Valid(g)
    ensures g.clockRate < g.source <= I32_MAX
  {
    var q := g.source / g.sampleRateX16;
    assert g.source == q * g.sampleRateX16;
    FloorBrackets(g.clockRate, g.sampleRateX16);
    assert g.clockRate < (g.periodMin + 1) * g.sampleRateX16;
    assert (g.periodMin + 1) * g.sampleRateX16 <= q * g.sampleRateX16;
    assert q * g.sampleRateX16 <= (Max(g.periodMin, PERIOD_LIMIT - 1) + 1) * g.sampleRateX16;
  }

  /** `NoiseGenerator::new`: the minimum period is the floor of
      `clockRate / (16 * sampleRate)` (without the tone generator's `+ 1`),
      the period starts there, and the register is seeded with 1. */
  function New(clockRate: nat, sampleRate: nat): (g: NoiseGenerator)
    requires NoiseRatesFit(clockRate, sampleRate)
    ensures Valid(g)
    ensures g.clockRate == clockRate && g.sampleRateX16 == 16 * sampleRate
    ensures g.periodMin * (16 * sampleRate) <= clockRate < (g.periodMin + 1) * (16 * sampleRate)
    ensures g.source == (g.periodMin + 1) * g.sampleRateX16
    ensures clockRate < g.source
    ensures g.error == clockRate && g.shift == 1
  {
    var sampleRateX16 := sampleRate * 16;
    var periodMin := clockRate / sampleRateX16;
    var g := NoiseGenerator(clockRate, sampleRateX16, clockRate, periodMin,
                            (periodMin + 1) * sampleRateX16, 1);
    MulDivExact(periodMin + 1, sampleRateX16);
    FloorBrackets(clockRate, sampleRateX16);
    g
  }

  /** `NoiseGenerator::set_period`: a period of 32 or more is refused; a
      period below the minimum is raised to it. Only the source changes, and
      it stays above the clock rate. */
  function SetPeriod(g: NoiseGenerator, period: nat): (r: Result<NoiseGenerator>)
    ensures r.Err? <==> period >= PERIOD_LIMIT
    ensures r.Err? ==> r.error == PeriodOutOfRange
    ensures r.Ok? ==> r.value == g.(source := r.value.source)
    ensures r.Ok? ==> r.value.source >= (g.periodMin + 1) * g.sampleRateX16
    ensures r.Ok? ==> r.value.source >= (period + 1) * g.sampleRateX16
    ensures r.Ok? && g.periodMin <= period ==> r.value.source == (period + 1) * g.sampleRateX16
    ensures r.Ok? && period < g.periodMin ==> r.value.source == (g.periodMin + 1) * g.sampleRateX16
    ensures r.Ok? && Valid(g) ==> Valid(r.value) && g.clockRate < r.value.source
  {
    if period >= PERIOD_LIMIT then Err(PeriodOutOfRange)
    else
      var effective := Max(g.periodMin, period);
      var g' := g.(source := (effective + 1) * g.sampleRateX16);
      MulMonotone(g.periodMin + 1, effective + 1, g.sampleRateX16);
      MulMonotone(period + 1, effective + 1, g.sampleRateX16);
      assert 0 < g.sampleRateX16 ==> g'.source / g.sampleRateX16 == effective + 1 by {
        if 0 < g.sampleRateX16 { MulDivExact(effective + 1, g.sampleRateX16); }
      }
      assert Valid(g) ==> Valid(g') && g.clockRate < g'.source by {
        if Valid(g) { SourceExceedsClock(g'); }
      }
      Ok(g')
  }

  /** `NoiseGenerator::update`: one sample. The register steps exactly when
      the error minus the clock rate is negative, at most once per call; the
      result is NOISE exactly when bit 0 of the register, stepped or not, is
      set. In a valid generator the error never goes negative and every
      intermediate value fits `i32`. */
  function Update(g: NoiseGenerator): (r: (NoiseGenerator, Output))
    ensures r.0 == g.(error := r.0.error, shift := r.0.shift)
    ensures g.error - g.clockRate < 0 ==> r.0.shift == Lfsr(g.shift)
    ensures g.error - g.clockRate >= 0 ==> r.0.shift == g.shift
    ensures r.1 == NONE || r.1 == NOISE
    ensures r.1 == NOISE <==> r.0.shift & 1 == 1
    ensures Valid(g) ==> Valid(r.0) && I32_MIN <= g.error - g.clockRate && 0 <= r.0.error
  {
    var (error, crossed) := Divider.Tick(g.error, g.clockRate, g.source);
    var shift := if crossed then Lfsr(g.shift) else g.shift;
    var g' := g.(error := error, shift := shift);
    assert Valid(g) ==> Valid(g') by {
      if Valid(g) {
        SourceExceedsClock(g);
        Divider.StaysNonNegative(g.error, g.clockRate, g.source);
      }
    }
    (g', if shift & 1 != 0 then NOISE else NONE)
  }

  /** `k` register steps from `s`. */
  function LfsrIter(s: bv16, k: nat): bv16
    decreases k
  {
    if k == 0 then s else LfsrIter(Lfsr(s), k - 1)
  }

  /** `n` calls of `update` in a row. */
  function Steps(g: NoiseGenerator, n: nat): NoiseGenerator
    decreases n
  {
    if n == 0 then g else Steps(Update(g).0, n - 1)
  }

  /** Over `n` samples the register has stepped once per accumulator
      crossing and not otherwise; the error is the accumulator's. */
  lemma {:induction false} StepsFollowAccumulator(g: NoiseGenerator, n: nat)
    ensures var (e, k) := Divider.Ticks(g.error, g.clockRate, g.source, n);
      Steps(g, n) == g.(error := e, shift := LfsrIter(g.shift, k))
    decreases n
  {
    if n > 0 {
      var (g1, _) := Update(g);
      StepsFollowAccumulator(g1, n - 1);
      if g.error - g.clockRate < 0 {
        var k' := Divider.Ticks(g1.error, g1.clockRate, g1.source, n - 1).1;
        assert LfsrIter(g.shift, k' + 1) == LfsrIter(Lfsr(g.shift), k');
      }
    }
  }
}
