/** `SoundGenerator` (src/lib.rs:213-301): three channels and one shared
    noise generator, built once from a clock rate and a sample rate, and
    configured through per-channel and noise setters. */
module Generator {
  import opened Flags
  import opened Rates
  import Tone
  import Noise
  import Channels

  const CHANNELS: nat := 3

  datatype SoundGenerator = SoundGenerator(
    clockRate: nat,
    sampleRate: nat,
    channels: seq<Channels.Channel>,
    noise: Noise.NoiseGenerator)

  /** A channel that is valid and whose tone generator was built from
      these rates. */
  predicate ChannelFits(ch: Channels.Channel, clockRate: nat, sampleRate: nat) {
    && Channels.Valid(ch)
    && ch.generator.clockRate == clockRate
    && ch.generator.sampleRateX8 == 8 * sampleRate
  }

  /** The engine's invariant: rates inside the machine-integer bounds,
      exactly three channels, and every generator built from the engine's
      own rates and valid. */
  predicate Valid(sg: SoundGenerator) {
    && RatesFit(sg.clockRate, sg.sampleRate)
    && |sg.channels| == CHANNELS
    && (forall i :: 0 <= i < |sg.channels| ==> ChannelFits(sg.channels[i], sg.clockRate, sg.sampleRate))
    && Noise.Valid(sg.noise)
    && sg.noise.clockRate == sg.clockRate
    && sg.noise.sampleRateX16 == 16 * sg.sampleRate
  }

  /** `a` and `b` differ at most in channel `i`. */
  predicate OnlyChannelChanged(a: SoundGenerator, b: SoundGenerator, i: nat) {
    && b.clockRate == a.clockRate
    && b.sampleRate == a.sampleRate
    && b.noise == a.noise
    && |b.channels| == |a.channels|
    && i < |a.channels|
    && forall j :: 0 <= j < |a.channels| && j != i ==> b.channels[j] == a.channels[j]
  }

  /** `SoundGenerator::new`: three silent channels (volume 0, mode NONE)
      with tone periods at their minimum, and a freshly seeded noise
      generator. */
  function New(clockRate: nat, sampleRate: nat): (sg: SoundGenerator)
    requires RatesFit(clockRate, sampleRate)
    ensures Valid(sg)
    ensures sg.clockRate == clockRate && sg.sampleRate == sampleRate
    ensures forall i :: 0 <= i < |sg.channels| ==>
      && sg.channels[i].volume == 0
      && sg.channels[i].mode == NONE
      && sg.channels[i].generator.source == sg.channels[i].generator.periodMin * (8 * sampleRate)
    ensures sg.noise.shift == 1
    // every component starts exactly as its own constructor builds it
    ensures forall i :: 0 <= i < |sg.channels| ==> sg.channels[i] == Channels.New(clockRate, sampleRate)
    ensures sg.noise == Noise.New(clockRate, sampleRate)
  {
    SoundGenerator(clockRate, sampleRate,
                   seq(CHANNELS, _ => Channels.New(clockRate, sampleRate)),
                   Noise.New(clockRate, sampleRate))
  }

  /** `SoundGenerator::clock_rate`: the rate every generator of a valid
      engine counts in, within `i32` range. */
  function ClockRate(sg: SoundGenerator): (r: nat)
    ensures Valid(sg) ==> r <= I32_MAX && r == sg.noise.clockRate
    ensures Valid(sg) ==> forall i :: 0 <= i < |sg.channels| ==> sg.channels[i].generator.clockRate == r
  {
    sg.clockRate
  }

  /** `SoundGenerator::sample_rate`: the rate every generator of a valid
      engine was scaled by (8 for tone, 16 for noise); never zero. */
  function SampleRate(sg: SoundGenerator): (r: nat)
    ensures Valid(sg) ==> 0 < r && 16 * r < U32_LIMIT && sg.noise.sampleRateX16 == 16 * r
    ensures Valid(sg) ==> forall i :: 0 <= i < |sg.channels| ==> sg.channels[i].generator.sampleRateX8 == 8 * r
  {
    sg.sampleRate
  }

  /** `SoundGenerator::set_period`: only the indexed channel changes; an
      index beyond the channels, or a period of 4096 or more, is refused. */
  function SetPeriod(sg: SoundGenerator, channel: nat, period: nat): (r: Result<SoundGenerator>)
    ensures channel >= |sg.channels| ==> r == Err(ChannelOutOfRange)
    ensures channel < |sg.channels| ==> (r.Ok? <==> period < Tone.PERIOD_LIMIT)
    ensures r.Ok? ==> OnlyChannelChanged(sg, r.value, channel)
    ensures r.Ok? ==> r.value.channels[channel] == Channels.SetPeriod(sg.channels[channel], period).value
    ensures r.Ok? && Valid(sg) ==> Valid(r.value)
  {
    if channel >= |sg.channels| then Err(ChannelOutOfRange)
    else
      match Channels.SetPeriod(sg.channels[channel], period)
      case Ok(ch) => Ok(sg.(channels := sg.channels[channel := ch]))
      case Err(e) => Err(e)
  }

  /** `SoundGenerator::set_volume`: only the indexed channel changes; an
      index beyond the channels, or a volume of 16 or more, is refused. */
  function SetVolume(sg: SoundGenerator, channel: nat, volume: nat): (r: Result<SoundGenerator>)
    ensures channel >= |sg.channels| ==> r == Err(ChannelOutOfRange)
    ensures channel < |sg.channels| ==> (r.Ok? <==> volume < Channels.VOLUME_LIMIT)
    ensures r.Ok? ==> OnlyChannelChanged(sg, r.value, channel)
    ensures r.Ok? ==> r.value.channels[channel] == sg.channels[channel].(volume := volume)
    ensures r.Ok? && Valid(sg) ==> Valid(r.value)
  {
    if channel >= |sg.channels| then Err(ChannelOutOfRange)
    else
      match Channels.SetVolume(sg.channels[channel], volume)
      case Ok(ch) => Ok(sg.(channels := sg.channels[channel := ch]))
      case Err(e) => Err(e)
  }

  /** `SoundGenerator::set_mode`: only the indexed channel's mode changes;
      only an index beyond the channels is refused. */
  function SetMode(sg: SoundGenerator, channel: nat, mode: Output): (r: Result<SoundGenerator>)
    ensures r.Err? <==> channel >= |sg.channels|
    ensures r.Err? ==> r.error == ChannelOutOfRange
    ensures r.Ok? ==> OnlyChannelChanged(sg, r.value, channel)
    ensures r.Ok? ==> r.value.channels[channel] == sg.channels[channel].(mode := mode)
    ensures r.Ok? && Valid(sg) ==> Valid(r.value)
  {
    if channel >= |sg.channels| then Err(ChannelOutOfRange)
    else Ok(sg.(channels := sg.channels[channel := Channels.SetMode(sg.channels[channel], mode)]))
  }

  /** `SoundGenerator::set_noise_period`: only the noise generator changes;
      a period of 32 or more is refused. */
  function SetNoisePeriod(sg: SoundGenerator, period: nat): (r: Result<SoundGenerator>)
    ensures r.Err? <==> period >= Noise.PERIOD_LIMIT
    ensures r.Ok? ==> r.value == sg.(noise := Noise.SetPeriod(sg.noise, period).value)
    ensures r.Ok? && Valid(sg) ==> Valid(r.value)
  {
    match Noise.SetPeriod(sg.noise, period)
    case Ok(n) => Ok(sg.(noise := n))
    case Err(e) => Err(e)
  }
}
