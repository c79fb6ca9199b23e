/** `Channel` (src/lib.rs:132-167): a tone generator, a volume and a mode.
    A channel is silent exactly when the tone and noise signals together
    hold every bit of its mode; otherwise it sounds at its volume. */
module Channels {
  import opened Flags
  import opened Rates
  import Tone

  /** Volumes are 4-bit levels. */
  const VOLUME_LIMIT: nat := 16

  datatype Channel = Channel(generator: Tone.ToneGenerator, volume: nat, mode: Output)

  predicate Valid(ch: Channel) {
    Tone.Valid(ch.generator) && ch.volume < VOLUME_LIMIT
  }

  /** The gating table of the chip, written per mode: when a channel with
      this mode sounds, given whether the tone and the noise bit are set. */
  predicate Audible(mode: Output, toneOn: bool, noiseOn: bool) {
    if mode == NONE then false
    else if mode == TONE then !toneOn
    else if mode == NOISE then !noiseOn
    else !(toneOn && noiseOn)
  }

  /** The "contains" rule is exactly the gating table, in both directions,
      for every mode and every tone and noise signal. */
  lemma ContainsRuleIsGatingTable(mode: Output, tone: Output, noise: Output)
    requires tone == NONE || tone == TONE
    requires noise == NONE || noise == NOISE
    ensures Contains(tone | noise, mode) <==> !Audible(mode, tone == TONE, noise == NOISE)
  {
  }

  /** `Channel::new`: silent (volume 0, mode NONE), tone period at its minimum. */
  function New(clockRate: nat, sampleRate: nat): (ch: Channel)
    requires ToneRatesFit(clockRate, sampleRate)
    ensures Valid(ch)
    ensures ch.volume == 0 && ch.mode == NONE
    ensures ch.generator == Tone.New(clockRate, sampleRate)
  {
    Channel(Tone.New(clockRate, sampleRate), 0, NONE)
  }

  /** `Channel::set_period`: forwarded to the tone generator. */
  function SetPeriod(ch: Channel, period: nat): (r: Result<Channel>)
    ensures r.Err? <==> period >= Tone.PERIOD_LIMIT
    ensures r.Ok? ==> r.value == ch.(generator := Tone.SetPeriod(ch.generator, period).value)
    ensures r.Ok? && Valid(ch) ==> Valid(r.value)
  {
    match Tone.SetPeriod(ch.generator, period)
    case Ok(g) => Ok(ch.(generator := g))
    case Err(e) => Err(e)
  }

  /** `Channel::set_mode`: any of the four modes is accepted as is. */
  function SetMode(ch: Channel, mode: Output): (r: Channel)
    ensures r.mode == mode && r.generator == ch.generator && r.volume == ch.volume
    ensures Valid(ch) ==> Valid(r)
  {
    ch.(mode := mode)
  }

  /** `Channel::set_volume`: a volume of 16 or more is refused. */
  function SetVolume(ch: Channel, volume: nat): (r: Result<Channel>)
    ensures r.Err? <==> volume >= VOLUME_LIMIT
    ensures r.Err? ==> r.error == VolumeOutOfRange
    ensures r.Ok? ==> r.value.volume == volume && r.value == ch.(volume := volume)
    ensures r.Ok? && Tone.Valid(ch.generator) ==> Valid(r.value)
  {
    if volume >= VOLUME_LIMIT then Err(VolumeOutOfRange) else Ok(ch.(volume := volume))
  }

  /** `Channel::update`: advances the tone generator once and returns the
      channel's contribution for this sample, 0 when the combined tone and
      noise signal contains the mode and the volume otherwise. */
  function Update(ch: Channel, noise: Output): (r: (Channel, nat))
    ensures var (g, tone) := Tone.Update(ch.generator);
      && r.0 == ch.(generator := g)
      && (Contains(tone | noise, ch.mode) ==> r.1 == 0)
      && (!Contains(tone | noise, ch.mode) ==> r.1 == ch.volume)
      && (Tone.Valid(ch.generator) && (noise == NONE || noise == NOISE) ==>
            r.1 == if Audible(ch.mode, tone == TONE, noise == NOISE) then ch.volume else 0)
    ensures ch.mode == NONE ==> r.1 == 0
    ensures Valid(ch) ==> Valid(r.0) && r.1 < VOLUME_LIMIT
  {
    var (g, tone) := Tone.Update(ch.generator);
    var level := if Contains(tone | noise, ch.mode) then 0 else ch.volume;
    assert Tone.Valid(ch.generator) && (noise == NONE || noise == NOISE) ==>
      (Contains(tone | noise, ch.mode) <==> !Audible(ch.mode, tone == TONE, noise == NOISE)) by {
      if Tone.Valid(ch.generator) && (noise == NONE || noise == NOISE) {
        ContainsRuleIsGatingTable(ch.mode, tone, noise);
      }
    }
    (ch.(generator := g), level)
  }

  /** With mode TONE the channel is silent exactly when the tone bit is set,
      whatever the noise; with TONE|NOISE only when both bits are set. */
  lemma ToneModeFollowsToneBit(ch: Channel, noise: Output)
    requires Valid(ch) && 0 < ch.volume
    requires noise == NONE || noise == NOISE
    ensures ch.mode == TONE ==>
      (Update(ch, noise).1 == 0 <==> Tone.Update(ch.generator).1 == TONE)
    ensures ch.mode == TONE | NOISE ==>
      (Update(ch, noise).1 == 0 <==> Tone.Update(ch.generator).1 == TONE && noise == NOISE)
  {
  }
}
