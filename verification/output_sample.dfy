/** The `i16` mixer of `OutputSample::next_sample` (src/lib.rs:316-381):
    advance the noise generator once, then the three channels in order with
    that noise bit, and sum the volume-table entries of their levels. */
module OutputSample {
  import opened Flags
  import opened Rates
  import Noise
  import Channels
  import opened Generator

  /** Rust's `i16`: every value of this type is in range, so Dafny checks
      that no addition of the mixer overflows. */
  newtype i16 = x: int | -0x8000 <= x < 0x8000

  const I16_MAX: int := 0x7FFF

  /** The sixteen volume levels, in units where three channels at level 15
      add up to 65535. */
  const VOLUME_VALUES: seq<nat> :=
    [0, 170, 241, 341, 482, 682, 965, 1365, 1930, 2730, 3861, 5461, 7723, 10922, 15446, 21845]

  /** The `i16` divider, `1 << 1`. */
  const I16_DIVIDER: i16 := 2

  /** The largest entry of the `i16` table. */
  const MAX_ENTRY: nat := 10922

  /** Entry `level` of `OUTPUT_VOLUME_TABLE_i16`: the value cast to `i16`
      and divided by the divider, truncating. */
  function Entry(level: nat): (v: i16)
    requires level < Channels.VOLUME_LIMIT
    ensures 0 <= v as int <= MAX_ENTRY
  {
    (VOLUME_VALUES[level] as i16) / I16_DIVIDER
  }

  /** The table is the values halved with truncation; it starts at silence,
      never decreases and tops out at 10922, so three channels at its top
      still fit `i16`. */
  lemma TableShape()
    ensures forall l :: 0 <= l < 16 ==> Entry(l) as int == VOLUME_VALUES[l] / 2
    ensures Entry(0) == 0 && Entry(15) as int == MAX_ENTRY
    ensures forall l, m :: 0 <= l <= m < 16 ==> Entry(l) <= Entry(m)
    ensures CHANNELS * MAX_ENTRY <= I16_MAX
  {
  }

  /** The sum, in plain integers, of the entries the channels contribute for
      this noise bit. */
  function Contribution(channels: seq<Channels.Channel>, noise: Output): int
    requires forall i :: 0 <= i < |channels| ==> channels[i].volume < Channels.VOLUME_LIMIT
  {
    if |channels| == 0 then 0
    else Entry(Channels.Update(channels[0], noise).1) as int + Contribution(channels[1..], noise)
  }

  /** The `fold` over the channels: each channel advanced once, in order,
      with the same noise bit, and its entry added to the running `i16` sum
      without overflow. */
  function Mix(channels: seq<Channels.Channel>, noise: Output, sum: i16): (r: (seq<Channels.Channel>, i16))
    requires forall i :: 0 <= i < |channels| ==> channels[i].volume < Channels.VOLUME_LIMIT
    requires 0 <= sum as int && sum as int + |channels| * MAX_ENTRY <= I16_MAX
    ensures |r.0| == |channels|
    ensures forall i :: 0 <= i < |channels| ==> r.0[i] == Channels.Update(channels[i], noise).0
    ensures r.1 as int == sum as int + Contribution(channels, noise)
    ensures sum <= r.1 && r.1 as int <= sum as int + |channels| * MAX_ENTRY
    decreases |channels|
  {
    if |channels| == 0 then ([], sum)
    else
      var (ch, level) := Channels.Update(channels[0], noise);
      var (rest, total) := Mix(channels[1..], noise, sum + Entry(level));
      ([ch] + rest, total)
  }

  /** `next_sample` for `i16`: the noise generator advances exactly once,
      before the channels; every channel advances exactly once with that
      noise output; the sample is the sum of the channels' table entries and
      lies in [0, 32766]. */
  function NextSample(sg: SoundGenerator): (r: (SoundGenerator, i16))
    requires Valid(sg)
    ensures Valid(r.0)
    ensures var (noise, bit) := Noise.Update(sg.noise);
      && r.0.noise == noise
      && |r.0.channels| == CHANNELS
      && (forall i :: 0 <= i < CHANNELS ==> r.0.channels[i] == Channels.Update(sg.channels[i], bit).0)
      && r.1 as int == Contribution(sg.channels, bit)
    ensures r.0.clockRate == sg.clockRate && r.0.sampleRate == sg.sampleRate
    ensures 0 <= r.1 as int <= CHANNELS * MAX_ENTRY
  {
    var (noise, bit) := Noise.Update(sg.noise);
    var (channels, sample) := Mix(sg.channels, bit, 0);
    (sg.(channels := channels, noise := noise), sample)
  }

  /** A channel in mode NONE adds nothing, whatever its volume, tone or
      noise state; so an engine whose channels are all in mode NONE
      produces 0. */
  lemma SilentChannelsAddNothing(channels: seq<Channels.Channel>, noise: Output)
    requires forall i :: 0 <= i < |channels| ==> channels[i].volume < Channels.VOLUME_LIMIT
    requires forall i :: 0 <= i < |channels| ==> channels[i].mode == NONE
    ensures Contribution(channels, noise) == 0
    decreases |channels|
  {
    if |channels| > 0 {
      SilentChannelsAddNothing(channels[1..], noise);
    }
  }

  /** The calls an embedding program makes on the engine. */
  datatype Call =
    | SetPeriod(channel: nat, period: nat)
    | SetVolume(channel: nat, volume: nat)
    | SetMode(channel: nat, mode: Output)
    | SetNoisePeriod(period: nat)
    | Sample

  function Perform(sg: SoundGenerator, call: Call): (r: Result<SoundGenerator>)
    requires Valid(sg)
    ensures r.Ok? ==> Valid(r.value)
    ensures r.Ok? ==> r.value.clockRate == sg.clockRate && r.value.sampleRate == sg.sampleRate
    ensures call.Sample? ==> r.Ok?
  {
    match call
    case SetPeriod(ch, p) => Generator.SetPeriod(sg, ch, p)
    case SetVolume(ch, v) => Generator.SetVolume(sg, ch, v)
    case SetMode(ch, m) => Generator.SetMode(sg, ch, m)
    case SetNoisePeriod(p) => Generator.SetNoisePeriod(sg, p)
    case Sample => Ok(NextSample(sg).0)
  }

  /** A sequence of calls; a refused call stops it, as the engine's panic
      would. */
  function PerformAll(sg: SoundGenerator, calls: seq<Call>): (r: Result<SoundGenerator>)
    requires Valid(sg)
    ensures r.Ok? ==> Valid(r.value)
    ensures r.Ok? ==> r.value.clockRate == sg.clockRate && r.value.sampleRate == sg.sampleRate
    decreases |calls|
  {
    if |calls| == 0 then Ok(sg)
    else
      match Perform(sg, calls[0])
      case Ok(sg') => PerformAll(sg', calls[1..])
      case Err(e) => Err(e)
  }

  /** `clock_rate()` and `sample_rate()` return the construction values
      after any sequence of accepted calls. */
  lemma RatesSurviveCalls(clockRate: nat, sampleRate: nat, calls: seq<Call>)
    requires RatesFit(clockRate, sampleRate)
    ensures var r := PerformAll(Generator.New(clockRate, sampleRate), calls);
      r.Ok? ==> ClockRate(r.value) == clockRate && SampleRate(r.value) == sampleRate
  {
  }
}
