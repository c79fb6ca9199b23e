# psg_lite synthesis engine in Dafny

This project models the synthesis engine of `psg_lite`, a crate that produces
PCM samples resembling an AY-3-8910 sound chip using integer arithmetic only.
The engine has these parts:

- **Tone generator**, one per channel. It is a Bresenham-style rate
  converter. Every sample, the clock rate is subtracted from an error
  accumulator. When the error drops below zero, the scaled period
  (`source`) is added back and the TONE bit flips.
- **Noise generator**, one shared by all channels. It uses the same
  accumulator. Each crossing steps a 16-bit Fibonacci shift register, with
  feedback from bit 0 XOR bit 3 and seed 1. The noise bit is bit 0 of the
  register.
- **Channel**. It is silent exactly when the tone and noise signals together
  contain every bit of the channel's mode. Otherwise it contributes its
  volume level (0-15).
- **Sound generator and `i16` mixer**. Each `next_sample` advances the noise
  generator once, then channels 0, 1 and 2 in order, all with the same noise
  bit. It returns the sum of the channels' entries in a 16-entry volume table.

Each generator is an immutable datatype with a pure step function returning
`(state', output)`:

- `Output` is a `bv2` flag set.
- The shift register is a `bv16`.
- The mixer's running sum is an `i16` newtype, so Dafny checks that no
  addition overflows.
- The engine's `assert!` panics, and its out-of-range channel index, become
  `Result.Err` values. The configuration is then left unchanged, and a
  sequence of calls stops there.

Modules, one per component:

- `Flags`: the output flag set.
- `Rates`: integer-width bounds, the error type and small arithmetic facts.
- `Divider`: the shared accumulator.
- `Tone`, `Noise`, `Channels`, `Generator`, `OutputSample`: the components
  named above.
- `ToneTestScenario`: the crate's unit test.

The construction arithmetic casts and can overflow for extreme rates. Those
rates are excluded by two predicates, `Rates.ToneRatesFit` and
`Rates.NoiseRatesFit`:

- `sample_rate * 16` fits `u32`.
- The clock rate fits `i32`.
- `clock_rate / (16 * sample_rate)` fits `u8` and leaves room for the `+ 1`.
- Every noise source that can be set fits `i32`.

The noise generator's `i32` error is proved to stay in `[0, i32::MAX]`, and
every intermediate value is proved to fit `i32`.

The tone generator's minimum period is `clock_rate / (16 * sample_rate) + 1`.
The code toggles at most once per call by construction. At the minimum
period, though, `source` can be below the clock rate. For example, at 2 MHz
and 48 kHz the minimum period is 3 and the source is 1,152,000. In that case,
once the error is below the clock rate (from the second update after
construction on), the tone error sinks without bound and the tone toggles on
every call (`Tone.FastToneTogglesEverySample`). The first update after
construction starts from an error equal to the clock rate, so it brings the
error to 0 without a toggle. The model does not claim that the tone
error stays non-negative.

Where the code and its design description differ, the model follows the
code:

- Tone period 0 is accepted and raised to the minimum, although the doc
  comment of `set_period` lists the range as 1-4095.
- The noise minimum period has no `+ 1`, and this asymmetry is kept.
- The tone minimum period is meant to keep the generator from needing more
  than one toggle per sample. The code does not achieve that: its
  `clock_rate / (16 * sample_rate) + 1` can give a `source` below the clock
  rate (at 1,789,772 Hz / 44,100 Hz the minimum period is 3 and the source
  is 1,058,400, `Tone.MinPeriodFallsBehind`). The accumulator then falls behind
  (`Tone.FastToneTogglesEverySample`, `Divider.DriftsWhenFast`). By
  `Divider.Ticks`, after a stretch at such a period, a switch to a longer
  period keeps the tone toggling every call until the sunk error has been
  paid back, about (sunk error) / (source' - clock) samples.

## Model

| member | source | states |
|---|---|---|
| Flags.ContainsIsInclusion | src/lib.rs:76-90 | `contains(a, b)` (`a & b == b`) holds exactly when the signals named by `b` are a subset of those named by `a` |
| Flags.UnionIsSetUnion | src/lib.rs:76-90 | `a \| b` names exactly the union of the signals of `a` and `b` |
| Flags.ToggleToneFlipsTone | src/lib.rs:126 | toggling TONE flips TONE membership and leaves NOISE as it was |
| Flags.SignalsInjective | src/lib.rs:76-90 | a flag set is determined by the signals it names: the type is exactly the four subsets of {TONE, NOISE} |
| Divider.Tick | src/lib.rs:123-127 | the accumulator crosses exactly when `error - clock < 0`; one sample keeps an error in `[0, source]` there when `clock <= source`, keeps a non-negative error non-negative (shrinking it or landing below `source`) when `clock < source`, and, when `source < clock` and the error is below the clock, always crosses and sinks by `clock - source` |
| Divider.Ticks | src/lib.rs:122-129 | over `n` samples there are at most `n` crossings `k`, and the final error is `error - n*clock + k*source`, so no clock tick is lost |
| Divider.BoundedWhenSlow | src/lib.rs:122-129 | if `clock <= source` and the error starts in `[0, source]`, it stays in that range after any number of samples |
| Divider.NoDrift | src/lib.rs:122-129 | under the same conditions, the crossing count is within one of the exact rate: `n*clock - source <= k*source <= n*clock + source` |
| Divider.StaysNonNegative | src/lib.rs:199-204 | if `clock < source`, a non-negative error stays non-negative and either shrinks or lands below `source` |
| Divider.DriftsWhenFast | src/lib.rs:122-129 | if `source < clock` and the error is below the clock, every sample crosses and the error sinks by `clock - source` each time |
| Tone.New | src/lib.rs:102-114 | `period_min` is the least `p >= 1` with `p*16*sr > clock`; `source` is `period_min * 8*sr`; the error is the clock rate and the output is NONE |
| Tone.SetPeriod | src/lib.rs:116-120 | refuses exactly periods of 4096 or more and raises smaller ones to `period_min`, so 0 is accepted; `source` is `8*sr` times the larger of the two and never falls below its initial value; nothing else changes |
| Tone.Update | src/lib.rs:122-129 | flips only the TONE bit, at most once, exactly when `error - clock < 0`, and adds `source` back exactly then; the output is only ever NONE or TONE |
| Tone.StepsFollowAccumulator | src/lib.rs:122-129 | after `n` updates the error equals the accumulator's, and the output has been toggled once per crossing |
| Tone.FastToneTogglesEverySample | src/lib.rs:102-129 | if `source < clock` and the error is already below the clock rate (from the second update after construction on; the first starts at `error == clock` and does not toggle), the tone toggles on every call and the error falls by `clock - source` per call, so the error is not kept non-negative |
| Tone.MinPeriodFallsBehind | src/lib.rs:102-114 | at 1,789,772 Hz / 44,100 Hz the constructor's minimum period is 3 and its source, 1,058,400, is below the clock rate, so the minimum period does not keep the tone within one toggle per sample |
| Tone.SlowToneDoesNotDrift | src/lib.rs:122-129 | if `clock <= source`, the toggle count over `n` samples is within one of `n*clock/source`, and the error stays in `[0, source]` |
| Noise.Lfsr | src/lib.rs:203 | in 16-bit arithmetic, bits 0-14 of the result are the register shifted down and bit 15 is bit 0 XOR bit 3; a non-zero register stays non-zero |
| Noise.LfsrRoundTrip | src/lib.rs:203 | the register step has an inverse in both directions, so it is a bijection on 16-bit values |
| Noise.SourceExceedsClock | src/lib.rs:179-197 | in every valid noise generator, `clock < source <= i32::MAX` |
| Noise.New | src/lib.rs:179-191 | `period_min` is the floor of `clock/(16*sr)`, with no `+1`; `source` is `(period_min+1)*16*sr`, which exceeds the clock; the error is the clock rate and the register is 1 |
| Noise.SetPeriod | src/lib.rs:193-197 | refuses exactly periods of 32 or more; `source` is `(max(period_min, period)+1)*16*sr` and stays above the clock; nothing else changes |
| Noise.Update | src/lib.rs:199-210 | the register steps once exactly when `error - clock < 0` and stays unchanged otherwise; the result is NOISE iff bit 0 of the new register is set, else NONE; the error stays in `[0, i32::MAX]` and every intermediate value fits `i32` |
| Noise.StepsFollowAccumulator | src/lib.rs:199-204 | after `n` updates the register has stepped exactly once per accumulator crossing |
| Channels.ContainsRuleIsGatingTable | src/lib.rs:160-166 | for all four modes, "the combined signal contains the mode" is exactly the negation of the chip's audibility table, in both directions |
| Channels.New | src/lib.rs:139-145 | a new channel has volume 0, mode NONE and a freshly built tone generator |
| Channels.SetPeriod | src/lib.rs:147-149 | forwards to the tone generator; refuses exactly periods of 4096 or more |
| Channels.SetMode | src/lib.rs:151-153 | stores any mode as given and changes nothing else |
| Channels.SetVolume | src/lib.rs:155-158 | refuses exactly volumes of 16 or more; otherwise stores the volume and changes nothing else |
| Channels.Update | src/lib.rs:160-166 | advances the tone once; returns 0 when the combined tone/noise signal contains the mode and the volume otherwise; this agrees with the audibility table; mode NONE is always silent; the result is below 16 |
| Channels.ToneModeFollowsToneBit | src/lib.rs:160-166 | at non-zero volume, mode TONE is silent iff the tone bit is set, and mode TONE\|NOISE is silent iff both bits are set |
| Generator.New | src/lib.rs:230-237 | three channels, each exactly as `Channel::new` builds it (volume 0, mode NONE, minimum tone period, tone error equal to the clock rate, output NONE); a noise generator exactly as `NoiseGenerator::new` builds it (error equal to the clock rate, minimum source, register 1); the state is valid |
| Generator.SetPeriod | src/lib.rs:260-262 | refuses a channel index of 3 or more, or a period of 4096 or more; otherwise changes only the indexed channel |
| Generator.SetVolume | src/lib.rs:269-271 | refuses a channel index of 3 or more, or a volume of 16 or more; otherwise changes only the indexed channel's volume |
| Generator.SetMode | src/lib.rs:278-280 | refuses only a channel index of 3 or more; otherwise changes only the indexed channel's mode |
| Generator.SetNoisePeriod | src/lib.rs:286-288 | refuses exactly periods of 32 or more; otherwise changes only the noise generator |
| OutputSample.Entry | src/lib.rs:316-328 | every `i16` table entry, `(VALUE as i16) / 2`, lies in `[0, 10922]` |
| OutputSample.TableShape | src/lib.rs:343-360 | the table is the 16 listed values halved with truncation; it starts at 0, never decreases and peaks at 10922, and `3 * 10922 <= i16::MAX` |
| OutputSample.Mix | src/lib.rs:362-371 | the fold advances every channel once with the same noise bit; its `i16` sum never overflows and equals the exact integer sum of the table entries |
| OutputSample.NextSample | src/lib.rs:362-371 | noise advances exactly once; each channel advances once with that noise output; the sample is the sum of their table entries and lies in `[0, 32766]`; the table index is always below 16 and the engine stays valid |
| OutputSample.SilentChannelsAddNothing | src/lib.rs:160-171 | channels in mode NONE contribute 0 to the sample, whatever their volume, tone or noise state |
| OutputSample.PerformAll | src/lib.rs:221-300 | any sequence of accepted calls keeps the engine valid and its rates unchanged |
| Generator.ClockRate | src/lib.rs:243-245 | in a valid engine, the reported clock rate is the one the noise generator and every tone generator count in, and it fits `i32`; `OutputSample.RatesSurviveCalls` shows it is the construction value |
| Generator.SampleRate | src/lib.rs:251-253 | in a valid engine, the reported sample rate is non-zero, `16 *` it fits `u32`, and it is the rate the tone generators were scaled by (times 8) and the noise generator (times 16); `OutputSample.RatesSurviveCalls` shows it is the construction value |
| OutputSample.RatesSurviveCalls | src/lib.rs:239-253 | after construction and any sequence of accepted calls, `clock_rate()` and `sample_rate()` return the construction values |
| ToneTestScenario.Setup | src/lib.rs:394-400 | at 20 MHz / 2.5 MHz, the test's three configuration calls are all accepted; the minimum period is 1 and the tone source equals the clock rate |
| ToneTestScenario.DummySample | src/lib.rs:402-403 | the dummy sample brings the tone error from the clock rate to 0 without a toggle, so it is non-zero |
| ToneTestScenario.StepAlternates | src/lib.rs:408-415 | each later sample toggles the tone bit; it is 0 when the bit was clear and 10922 when it was set |
| ToneTestScenario.SamplesAlternate | src/lib.rs:405-415 | from such a state, sample `j` is zero exactly when `j` has the matching parity, for any number of samples |
| ToneTestScenario.CountSamples | src/lib.rs:405-415 | counting `n` alternating samples gives `ceil(n/2)` zeros and `floor(n/2)` non-zeros |
| ToneTestScenario.ToneTest | src/lib.rs:393-417 | after one dummy sample, the next 2,500,000 samples contain equal numbers of zero and non-zero values |

## Left out

- The `f32` mixer (src/lib.rs:383-386) is not modelled: it is floating point and behind a feature flag. `SoundGenerator::next_sample` (src/lib.rs:298-300) is modelled only for `i16`.
- Flags.Output: modes are restricted to the four subsets of {TONE, NOISE}. The source's `Output` is a `u8` bitflags type, and a caller can pass `set_mode` a value with bits above NOISE (for example via `from_bits_retain`). For such a mode, `(tone | noise).contains(mode)` never holds, so the channel always sounds at its volume. The model cannot express such a mode.
- The `bitflags!` and `paste!` macro machinery is not modelled. Its effect is stated directly: `Output` is a `bv2` with `contains` as `a & b == b`, and the table is a constant sequence.
- The commented-out generator of the table from `4^(1/4)` ratios is not modelled: it uses floating point, so only the literal table values are used.
- The example program (`examples/demo.rs`) is not modelled: audio device output, the ring buffer, thread sleeps, the command sequencer, and its floating-point note-to-period rounding are outside the engine.
- Long-run pitch accuracy in Hz and perceptual loudness are not stated. Only exact integer facts are proved: per-step behaviour, crossing counts and the unit-test scenario.
- Machine-integer overflow and panics for extreme rates are not modelled. Constructors require `Rates.ToneRatesFit` / `Rates.NoiseRatesFit` instead. The only wrap modelled is the intended 16-bit wrap of the shift register.
- Tone.Update: the tone error is an unbounded integer, not an `i64`. When `source < clock` it sinks by `clock - source` per sample, so the `i64` would overflow after about 2^63 / (clock - source) samples; the model does not capture that overflow. That is roughly 10^13 samples at 2 MHz / 48 kHz (drift 848,000 per sample), but can be as few as about 4 × 10^9 samples when `clock - source` approaches `i32::MAX`.
- Setter arguments are `nat`s, not `u16` / `u8` / `usize`. Values beyond those types cannot be passed to the engine; here they are refused like any other out-of-range value.
- Panics are modelled as `Err` results. The engine aborts instead; the model keeps the prior state and stops a call sequence at the refused call.
- The golden-vector regression of the noise output is not stated: in this functional model the output sequence is determined by the state, by construction.
