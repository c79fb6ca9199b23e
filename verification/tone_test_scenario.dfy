/** The crate's unit test (src/lib.rs:388-418): at a 20 MHz clock and a
    2.5 MHz sample rate, channel 0 in mode TONE at volume 15 and period 1
    has a source equal to the clock rate, so after one dummy sample its
    output alternates between silence and sound, and the 2,500,000 samples
    that follow hold as many zeros as non-zeros. */
module ToneTestScenario {
  import opened Flags
  import Noise
  import opened Generator
  import opened OutputSample

  const CLOCK_RATE: nat := 20_000_000
  const SAMPLE_RATE: nat := CLOCK_RATE / 8

  /** The test's configuration: mode TONE, volume 15 and period 1 on channel
      0, on a freshly built engine. Every call is accepted, the period is the
      minimum, and the tone source equals the clock rate. */
  method Setup() returns (sg: SoundGenerator)
    ensures Valid(sg)
    ensures sg.clockRate == CLOCK_RATE && sg.sampleRate == SAMPLE_RATE
    ensures sg.channels[0].generator.periodMin == 1
    ensures TestState(sg, CLOCK_RATE, NONE)
  {
    sg := Generator.New(CLOCK_RATE, SAMPLE_RATE);
    sg := Generator.SetMode(sg, 0, TONE).value;
    sg := Generator.SetVolume(sg, 0, 15).value;
    sg := Generator.SetPeriod(sg, 0, 1).value;
  }

  /** A state of the test: channel 0 sounds a tone whose source is the
      clock rate, with the given error and tone output, and the other
      channels are in mode NONE. */
  predicate TestState(sg: SoundGenerator, error: int, tone: Output) {
    && Valid(sg)
    && sg.clockRate == CLOCK_RATE && sg.sampleRate == SAMPLE_RATE
    && sg.channels[0].mode == TONE
    && sg.channels[0].volume == 15
    && sg.channels[0].generator.error == error
    && sg.channels[0].generator.source == CLOCK_RATE
    && sg.channels[0].generator.output == tone
    && sg.channels[1].mode == NONE
    && sg.channels[2].mode == NONE
  }

  /** The states of the alternation: the error sits at zero. */
  predicate Alternating(sg: SoundGenerator, tone: Output) {
    TestState(sg, 0, tone)
  }

  /** The dummy sample: the error drops from the clock rate to zero without
      a toggle, so the tone bit stays clear and the channel sounds. */
  lemma DummySample(sg: SoundGenerator)
    requires TestState(sg, CLOCK_RATE, NONE)
    ensures var (sg', v) := NextSample(sg);
      Alternating(sg', NONE) && v as int == MAX_ENTRY
  {
    var bit := Noise.Update(sg.noise).1;
    SilentChannelsAddNothing(sg.channels[1..], bit);
    TableShape();
  }

  /** Every later sample toggles the tone bit; the channel is silent exactly
      when the bit is set after the toggle, so a clear bit before the sample
      gives 0 and a set one gives the loudest entry. */
  lemma StepAlternates(sg: SoundGenerator, tone: Output)
    requires tone == NONE || tone == TONE
    requires Alternating(sg, tone)
    ensures Alternating(NextSample(sg).0, tone ^ TONE)
    ensures tone == NONE ==> NextSample(sg).1 == 0
    ensures tone == TONE ==> NextSample(sg).1 as int == MAX_ENTRY
  {
    var bit := Noise.Update(sg.noise).1;
    SilentChannelsAddNothing(sg.channels[1..], bit);
    TableShape();
  }

  /** The samples of `n` calls of `next_sample`. */
  function Samples(sg: SoundGenerator, n: nat): (s: seq<i16>)
    requires Valid(sg)
    ensures |s| == n
    decreases n
  {
    if n == 0 then []
    else
      var (sg', v) := NextSample(sg);
      [v] + Samples(sg', n - 1)
  }

  /** The parity pattern of the alternation: entry `j` is zero exactly when
      `j` is even and the tone bit starts clear, or `j` is odd and it starts
      set. */
  predicate AlternatesFrom(s: seq<i16>, tone: Output) {
    forall j :: 0 <= j < |s| ==> (s[j] == 0 <==> (j % 2 == 0 <==> tone == NONE))
  }

  lemma ConsAlternates(v: i16, rest: seq<i16>, tone: Output)
    requires tone == NONE || tone == TONE
    requires v == 0 <==> tone == NONE
    requires AlternatesFrom(rest, tone ^ TONE)
    ensures AlternatesFrom([v] + rest, tone)
  {
    var s := [v] + rest;
    forall j | 0 <= j < |s|
      ensures s[j] == 0 <==> (j % 2 == 0 <==> tone == NONE)
    {
      if j > 0 {
        assert s[j] == rest[j - 1];
      }
    }
  }

  /** From an alternating state the samples alternate for good. */
  lemma {:induction false} SamplesAlternate(sg: SoundGenerator, tone: Output, n: nat)
    requires tone == NONE || tone == TONE
    requires Alternating(sg, tone)
    ensures AlternatesFrom(Samples(sg, n), tone)
    decreases n
  {
    if n > 0 {
      StepAlternates(sg, tone);
      var next := NextSample(sg);
      SamplesAlternate(next.0, tone ^ TONE, n - 1);
      assert Samples(sg, n) == [next.1] + Samples(next.0, n - 1);
      ConsAlternates(next.1, Samples(next.0, n - 1), tone);
    }
  }

  /** One `next_sample` call from an alternating state. */
  method Sample(sg: SoundGenerator, tone: Output) returns (sg': SoundGenerator, v: i16)
    requires tone == NONE || tone == TONE
    requires Alternating(sg, tone)
    ensures (sg', v) == NextSample(sg)
    ensures Alternating(sg', tone ^ TONE)
    ensures v == 0 <==> tone == NONE
  {
    StepAlternates(sg, tone);
    sg', v := NextSample(sg).0, NextSample(sg).1;
  }

  /** The test's counting loop over `n` samples from an alternating state
      whose tone bit is clear: the zeros come first, so they number `n / 2`
      rounded up and the non-zeros `n / 2` rounded down. */
  method CountSamples(sg0: SoundGenerator, n: nat) returns (zero: nat, nonZero: nat)
    requires Alternating(sg0, NONE)
    ensures zero == (n + 1) / 2 && nonZero == n / 2
  {
    var sg := sg0;
    zero, nonZero := 0, 0;
    var tone := NONE;
    var i := 0;
    while i < n
      invariant i <= n
      invariant tone == (if i % 2 == 0 then NONE else TONE)
      invariant Alternating(sg, tone)
      invariant nonZero == i / 2 && zero == (i + 1) / 2
    {
      var v;
      sg, v := Sample(sg, tone);
      if v != 0 {
        nonZero := nonZero + 1;
      } else {
        zero := zero + 1;
      }
      tone := tone ^ TONE;
      i := i + 1;
    }
  }

  /** The unit test as written: one dummy sample, then `SAMPLE_RATE`
      samples counted as zero or non-zero; the counts are equal. */
  method ToneTest() returns (zero: nat, nonZero: nat)
    ensures zero == nonZero
    ensures zero + nonZero == SAMPLE_RATE
  {
    var sg := Setup();
    DummySample(sg);
    sg := NextSample(sg).0;
    zero, nonZero := CountSamples(sg, SAMPLE_RATE);
  }
}
