/** The clock and sample rates the engine is built from, the machine-integer
    bounds the construction arithmetic must stay inside, and the error type
    that stands for the engine's fail-fast assertions. */
module Rates {

  const U16_LIMIT: nat := 0x1_0000
  const U32_LIMIT: nat := 0x1_0000_0000
  const I32_MAX: nat := 0x7FFF_FFFF

  function Max(a: nat, b: nat): (m: nat)
    ensures a <= m && b <= m
    ensures m == a || m == b
  {
    if a < b then b else a
  }

  /** Why a configuration call is refused. The engine itself panics
      (an `assert!` or an out-of-bounds array index); the model returns the
      reason and leaves the state as it was. */
  datatype ConfigError = PeriodOutOfRange | VolumeOutOfRange | ChannelOutOfRange

  datatype Result<+T> = Ok(value: T) | Err(error: ConfigError)

  /** Rates for which the tone generator's constructor neither divides by
      zero, overflows `u32` in `sample_rate * 8 * 2`, nor truncates its
      minimum period when casting it to `u16`. */
  predicate ToneRatesFit(clockRate: nat, sampleRate: nat) {
    && 0 < sampleRate
    && clockRate < U32_LIMIT
    && 16 * sampleRate < U32_LIMIT
    && clockRate / (16 * sampleRate) + 1 < U16_LIMIT
  }

  /** Rates for which the noise generator's arithmetic stays in range:
      `sample_rate * 16` fits `u32`, `clock_rate` fits the `i32` error,
      the minimum period fits `u8` with room for the `+ 1`, and every
      source the noise period setter can produce (periods up to 31) fits
      `i32`, the type the error accumulator adds it as. */
  predicate NoiseRatesFit(clockRate: nat, sampleRate: nat) {
    && 0 < sampleRate
    && 16 * sampleRate < U32_LIMIT
    && clockRate <= I32_MAX
    && clockRate / (16 * sampleRate) < 255
    && (Max(clockRate / (16 * sampleRate), 31) + 1) * (16 * sampleRate) <= I32_MAX
  }

  predicate RatesFit(clockRate: nat, sampleRate: nat) {
    ToneRatesFit(clockRate, sampleRate) && NoiseRatesFit(clockRate, sampleRate)
  }

  /** Multiplying by a positive divisor and dividing again is exact. */
  lemma MulDivExact(p: nat, d: nat)
    requires 0 < d
    ensures (p * d) / d == p && (p * d) % d == 0
  {
    var q, m := (p * d) / d, (p * d) % d;
    assert (p - q) * d == m by {
      assert p * d == q * d + m;
      assert (p - q) * d == p * d - q * d;
    }
    MultipleBelowDivisor(p - q, d);
  }

  /** The only multiple of `d` in [0, d) is zero. */
  lemma MultipleBelowDivisor(x: int, d: nat)
    requires 0 < d && 0 <= x * d < d
    ensures x == 0
  {
  }

  lemma MulMonotone(a: nat, b: nat, d: nat)
    requires a <= b
    ensures a * d <= b * d
  {
  }

  /** Floor division brackets its dividend. */
  lemma FloorBrackets(c: nat, d: nat)
    requires 0 < d
    ensures (c / d) * d <= c < (c / d + 1) * d
  {
  }
}
