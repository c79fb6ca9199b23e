/** The `Output` flags of the synthesis engine: a 2-bit set over the two
    signals TONE and NOISE. The same type carries a tone generator's square
    wave, the noise generator's bit and a channel's gating mode. */
module Flags {

  /** Bit 0 is TONE, bit 1 is NOISE. */
  type Output = bv2

  const NONE: Output := 0
  const TONE: Output := 1
  const NOISE: Output := 2

  /** `a` holds every bit of `b`; with `b == NONE` this is vacuously true. */
  predicate Contains(a: Output, b: Output) {
    a & b == b
  }

  /** The signals a flag set can name, used to read a flag set as a set. */
  datatype Signal = Tone | Noise

  function Signals(a: Output): set<Signal> {
    (if a & TONE == TONE then {Tone} else {}) + (if a & NOISE == NOISE then {Noise} else {})
  }

  /** `Contains` is set inclusion of the named signals. */
  lemma ContainsIsInclusion(a: Output, b: Output)
    ensures Contains(a, b) <==> Signals(b) <= Signals(a)
  {
    if Contains(a, b) {
      assert b & TONE == TONE ==> a & TONE == TONE;
      assert b & NOISE == NOISE ==> a & NOISE == NOISE;
    } else {
      assert (b & TONE == TONE && a & TONE != TONE) || (b & NOISE == NOISE && a & NOISE != NOISE);
    }
  }

  /** Bitwise or is the union of the named signals. */
  lemma UnionIsSetUnion(a: Output, b: Output)
    ensures Signals(a | b) == Signals(a) + Signals(b)
  {
    assert (a | b) & TONE == TONE <==> (a & TONE == TONE || b & TONE == TONE);
    assert (a | b) & NOISE == NOISE <==> (a & NOISE == NOISE || b & NOISE == NOISE);
  }

  /** Toggling TONE flips the membership of `Tone` and leaves `Noise` alone. */
  lemma ToggleToneFlipsTone(a: Output)
    ensures Tone in Signals(a ^ TONE) <==> Tone !in Signals(a)
    ensures Noise in Signals(a ^ TONE) <==> Noise in Signals(a)
  {
  }

  /** Every flag set is determined by the signals it names, so the 2-bit
      type has no values beyond the four subsets of {TONE, NOISE}. */
  lemma SignalsInjective(a: Output, b: Output)
    requires Signals(a) == Signals(b)
    ensures a == b
  {
    assert Tone in Signals(a) <==> Tone in Signals(b);
    assert Noise in Signals(a) <==> Noise in Signals(b);
  }
}
