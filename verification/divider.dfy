/** The Bresenham-style error accumulator shared by the tone and the noise
    generator (src/lib.rs:122-129 and src/lib.rs:199-204): every sample the
    clock rate is subtracted from the error, and when the error drops below
    zero the scaled period ("source") is added back and the generator takes
    one step. */
module Divider {

  /** One sample of the accumulator: the new error and whether it crossed
      below zero (and so stepped its generator). Which of the three regimes
      holds depends on how the period compares with one sample's worth of
      clock ticks: at least as long keeps the error in [0, source]; longer
      keeps it non-negative; shorter makes it cross and sink. */
  function Tick(error: int, clockRate: nat, source: nat): (r: (int, bool))
    ensures r.1 <==> error - clockRate < 0
    ensures clockRate <= source && 0 <= error <= source ==> 0 <= r.0 <= source
    ensures clockRate < source && 0 <= error ==> 0 <= r.0 && (r.0 <= error || r.0 < source)
    ensures source < clockRate && error < clockRate ==> r.1 && r.0 == error - (clockRate - source) < error
  {
    var e := error - clockRate;
    if e < 0 then (e + source, true) else (e, false)
  }

  /** `n` samples of the accumulator: the final error and the number of
      crossings among them. */
  function Ticks(error: int, clockRate: nat, source: nat, n: nat): (r: (int, nat))
    ensures r.1 <= n
    // nothing is lost: the clock ticks consumed equal the periods added back
    ensures r.0 == error - n * clockRate + r.1 * source
    decreases n
  {
    if n == 0 then (error, 0)
    else
      var (e, crossed) := Tick(error, clockRate, source);
      var (e', k) := Ticks(e, clockRate, source, n - 1);
      assert e' == error - n * clockRate + (k + if crossed then 1 else 0) * source by {
        assert e' == e - (n - 1) * clockRate + k * source;
        assert (n - 1) * clockRate == n * clockRate - clockRate;
        assert (k + 1) * source == k * source + source;
      }
      (e', k + if crossed then 1 else 0)
  }

  /** When the period is at least one sample's worth of clock ticks, an
      error in [0, source] stays there for good. */
  lemma {:induction false} BoundedWhenSlow(error: int, clockRate: nat, source: nat, n: nat)
    requires clockRate <= source
    requires 0 <= error <= source
    ensures 0 <= Ticks(error, clockRate, source, n).0 <= source
    decreases n
  {
    if n > 0 {
      var e := Tick(error, clockRate, source).0;
      BoundedWhenSlow(e, clockRate, source, n - 1);
    }
  }

  /** No drift: under the same conditions the number of crossings `k` over
      `n` samples tracks the exact rate `n * clockRate / source` to within
      one crossing. */
  lemma NoDrift(error: int, clockRate: nat, source: nat, n: nat)
    requires clockRate <= source
    requires 0 <= error <= source
    ensures var k := Ticks(error, clockRate, source, n).1;
      n * clockRate - source <= k * source <= n * clockRate + source
  {
    BoundedWhenSlow(error, clockRate, source, n);
  }

  /** When the source exceeds the clock rate a non-negative error never goes
      negative, and it only grows back to below `source`. */
  lemma StaysNonNegative(error: int, clockRate: nat, source: nat)
    requires clockRate < source
    requires 0 <= error
    ensures var e := Tick(error, clockRate, source).0;
      0 <= e && (e <= error || e < source)
  {
  }

  /** When the source is smaller than the clock rate the accumulator cannot
      keep up: once the error is below the clock rate, every sample crosses
      and the error sinks by `clockRate - source` each time, without bound. */
  lemma {:induction false} DriftsWhenFast(error: int, clockRate: nat, source: nat, n: nat)
    requires source < clockRate
    requires error < clockRate
    ensures Ticks(error, clockRate, source, n).1 == n
    ensures Ticks(error, clockRate, source, n).0 == error - n * (clockRate - source)
    decreases n
  {
    if n > 0 {
      var e := Tick(error, clockRate, source).0;
      assert e < error;
      DriftsWhenFast(e, clockRate, source, n - 1);
    }
  }
}
