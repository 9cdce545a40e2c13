/**
 * Beat detection from the amplitude envelope: the beat frequency is folded
 * by octaves into 1–5 Hz and reported in beats per minute, the beat
 * interval in samples is folded by octaves into [4096, 8192], and the
 * offset of the first beat comes from the rise before the envelope's
 * steepest attack.
 */
module BeatDetectors {
  import opened Helpers
  import Envelopes

  /** `CFG_BEAT_INTERVAL_MIN` and `CFG_BEAT_INTERVAL_MAX`, in samples. */
  const BeatIntervalMin: nat := 4096
  const BeatIntervalMax: nat := 8192

  /** `BEAT_FREQ_HZ_MIN` and `BEAT_FREQ_HZ_MAX`. */
  const BeatFreqHzMin: real := 1.0
  const BeatFreqHzMax: real := 5.0

  // ---------------------------------------------------------------------
  // Interval normalisation
  // ---------------------------------------------------------------------

  /** Doubles v until it reaches the lower bound. */
  function Raised(v: nat): nat
    requires v > 0
    decreases if v < BeatIntervalMin then BeatIntervalMin - v else 0
  {
    if v >= BeatIntervalMin then v else Raised(2 * v)
  }

  /** Halves v (rounding down) until it is within the upper bound. */
  function Lowered(v: nat): nat
  {
    if v <= BeatIntervalMax then v else Lowered(v / 2)
  }

  /** The interval `normalizeInterval` settles on. */
  function NormalizedInterval(v: nat): nat
    requires v > 0
  {
    if v < BeatIntervalMin then Raised(v) else Lowered(v)
  }

  predicate IntervalInRange(v: nat)
  {
    BeatIntervalMin <= v <= BeatIntervalMax
  }

  lemma {:induction false} RaisedIsDoubling(v: nat)
    requires 0 < v <= BeatIntervalMax
    ensures IntervalInRange(Raised(v))
    ensures exists k: nat :: Raised(v) == v * Pow2(k)
    decreases if v < BeatIntervalMin then BeatIntervalMin - v else 0
  {
    if v >= BeatIntervalMin {
      assert Raised(v) == v * Pow2(0);
    } else {
      RaisedIsDoubling(2 * v);
      var k: nat :| Raised(2 * v) == 2 * v * Pow2(k);
      DoubleScaled(v, Pow2(k));
      assert Raised(v) == v * Pow2(k + 1);
    }
  }

  lemma DoubleScaled(v: nat, p: nat)
    ensures 2 * v * p == v * (2 * p)
  {
  }

  /** Integer halving twice over is division by the product. */
  lemma DivideTwice(v: nat, a: nat)
    requires a > 0
    ensures v / 2 / a == v / (2 * a)
  {
    var q1, r1 := v / 2, v % 2;
    var q, r2 := q1 / a, q1 % a;
    assert q1 == a * q + r2;
    assert v == 2 * q1 + r1;
    assert 2 * (a * q) == (2 * a) * q;
    DivisionUnique(v, 2 * a, q, 2 * r2 + r1);
  }

  /** The quotient is the only q leaving a remainder below the divisor. */
  lemma DivisionUnique(v: nat, d: nat, q: nat, r: nat)
    requires d > 0 && r < d && v == d * q + r
    ensures v / d == q
  {
    var q', r' := v / d, v % d;
    assert v == d * q' + r';
    if q' < q {
      MulMonotone(d, q' + 1, q);
    } else if q < q' {
      MulMonotone(d, q + 1, q');
    }
  }

  lemma MulMonotone(d: nat, a: nat, b: nat)
    requires a <= b
    ensures d * a <= d * b
    ensures d * (a + 1) == d * a + d
  {
  }

  lemma {:induction false} LoweredIsHalving(v: nat)
    requires v >= BeatIntervalMin
    ensures IntervalInRange(Lowered(v))
    ensures exists k: nat :: Lowered(v) == v / Pow2(k)
  {
    if v <= BeatIntervalMax {
      assert Lowered(v) == v / Pow2(0);
    } else {
      LoweredIsHalving(v / 2);
      var k: nat :| Lowered(v / 2) == v / 2 / Pow2(k);
      DivideTwice(v, Pow2(k));
      assert Lowered(v) == v / Pow2(k + 1);
    }
  }

  /**
   * For any positive interval the normalisation ends within [4096, 8192]:
   * an interval below the range is only doubled, one above it only halved,
   * and one within it is left as it is.
   */
  lemma NormalizedIntervalSpec(v: nat)
    requires v > 0
    ensures IntervalInRange(NormalizedInterval(v))
    ensures v < BeatIntervalMin ==> exists k: nat :: NormalizedInterval(v) == v * Pow2(k)
    ensures v > BeatIntervalMax ==> exists k: nat :: NormalizedInterval(v) == v / Pow2(k)
    ensures IntervalInRange(v) ==> NormalizedInterval(v) == v
  {
    if v < BeatIntervalMin {
      RaisedIsDoubling(v);
    } else {
      LoweredIsHalving(v);
    }
  }

  /** One step of the loop. */
  function IntervalStep(v: nat): nat
  {
    if v < BeatIntervalMin then v * 2 else v / 2
  }

  /** An interval of 0 is outside the range and a step leaves it at 0: the loop never ends. */
  lemma ZeroIntervalNeverSettles(n: nat)
    ensures !IntervalInRange(0) && IntervalStep(0) == 0
  {
  }

  /** A step outside the range does not change where the normalisation ends. */
  lemma IntervalStepKeepsTarget(v: nat)
    requires v > 0 && !IntervalInRange(v)
    ensures IntervalStep(v) > 0
    ensures NormalizedInterval(IntervalStep(v)) == NormalizedInterval(v)
  {
  }

  // ---------------------------------------------------------------------
  // Beat frequency normalisation
  // ---------------------------------------------------------------------

  /** Halving a value of at least 1 lowers its floor. */
  lemma HalfFloorLess(x: real)
    requires x >= 1.0
    ensures 0 <= (x / 2.0).Floor < x.Floor
  {
  }

  /** Doubling a frequency below 1 Hz lowers the floor of its reciprocal. */
  lemma DoubledHzMeasure(h: real)
    requires 0.0 < h < BeatFreqHzMin
    ensures 0 <= (1.0 / (2.0 * h)).Floor < (1.0 / h).Floor
  {
    var r := 1.0 / h;
    ReciprocalAboveOne(h, r);
    assert 1.0 / (2.0 * h) == r / 2.0;
    HalfFloorLess(r);
  }

  lemma ReciprocalAboveOne(h: real, r: real)
    requires 0.0 < h < 1.0 && r == 1.0 / h
    ensures r > 1.0
  {
    assert r * h == 1.0;
    if r <= 1.0 {
      MulMonotoneReal(r, 1.0, h);
    }
  }

  lemma MulMonotoneReal(a: real, b: real, c: real)
    requires a <= b && c > 0.0
    ensures a * c <= b * c
  {
  }

  /** Doubles h until it reaches 1 Hz. */
  function RaisedHz(h: real): real
    requires h > 0.0
    decreases if h < BeatFreqHzMin then (1.0 / h).Floor else 0
  {
    if h >= BeatFreqHzMin then h
    else
      DoubledHzMeasure(h);
      RaisedHz(2.0 * h)
  }

  /** Halves h until it is at most 5 Hz. */
  function LoweredHz(h: real): real
    requires h > 0.0
    decreases if h > BeatFreqHzMax then h.Floor else 0
  {
    if h <= BeatFreqHzMax then h
    else
      HalfFloorLess(h);
      LoweredHz(h / 2.0)
  }

  /** The frequency `hz2BPM` settles on. */
  function NormalizedHz(h: real): real
    requires h > 0.0
  {
    if h < BeatFreqHzMin then RaisedHz(h) else LoweredHz(h)
  }

  predicate HzInRange(h: real)
  {
    BeatFreqHzMin <= h <= BeatFreqHzMax
  }

  lemma DoubleScaledHz(h: real, p: nat)
    ensures 2.0 * h * p as real == h * (2 * p) as real
  {
  }

  lemma HalveScaled(h: real, p: nat)
    requires p > 0
    ensures h / 2.0 / p as real == h / (2 * p) as real
  {
  }

  lemma {:induction false} RaisedHzInRange(h: real)
    requires 0.0 < h <= BeatFreqHzMax
    ensures HzInRange(RaisedHz(h))
    decreases if h < BeatFreqHzMin then (1.0 / h).Floor else 0
  {
    if h < BeatFreqHzMin {
      DoubledHzMeasure(h);
      RaisedHzInRange(2.0 * h);
    }
  }

  /** How many doublings bring h up to 1 Hz. */
  function Doublings(h: real): nat
    requires h > 0.0
    decreases if h < BeatFreqHzMin then (1.0 / h).Floor else 0
  {
    if h >= BeatFreqHzMin then 0
    else
      DoubledHzMeasure(h);
      1 + Doublings(2.0 * h)
  }

  lemma {:induction false} RaisedHzIsDoubling(h: real)
    requires h > 0.0
    ensures RaisedHz(h) == h * Pow2(Doublings(h)) as real
    decreases if h < BeatFreqHzMin then (1.0 / h).Floor else 0
  {
    if h < BeatFreqHzMin {
      DoubledHzMeasure(h);
      RaisedHzIsDoubling(2.0 * h);
      RaisedHzStep(h, Doublings(2.0 * h));
    }
  }

  lemma RaisedHzStep(h: real, k: nat)
    requires 0.0 < h < BeatFreqHzMin && RaisedHz(2.0 * h) == 2.0 * h * Pow2(k) as real
    ensures RaisedHz(h) == h * Pow2(k + 1) as real
  {
    DoubleScaledHz(h, Pow2(k));
  }

  lemma {:induction false} LoweredHzIsHalving(h: real)
    requires h >= BeatFreqHzMin
    ensures HzInRange(LoweredHz(h))
    ensures exists k: nat :: LoweredHz(h) == h / Pow2(k) as real
    decreases if h > BeatFreqHzMax then h.Floor else 0
  {
    if h <= BeatFreqHzMax {
      assert LoweredHz(h) == h / Pow2(0) as real;
    } else {
      HalfFloorLess(h);
      LoweredHzIsHalving(h / 2.0);
      var k: nat :| LoweredHz(h / 2.0) == h / 2.0 / Pow2(k) as real;
      HalveScaled(h, Pow2(k));
      assert LoweredHz(h) == h / Pow2(k + 1) as real;
    }
  }

  /** How many more doublings, at most, reach 1 Hz. */
  function BelowMeasure(h: real): nat
    requires h > 0.0
  {
    if h < BeatFreqHzMin then (1.0 / h).Floor else 0
  }

  /** How far above 0 Hz the frequency is, in whole hertz, while above 5 Hz. */
  function AboveMeasure(h: real): nat
  {
    if h > BeatFreqHzMax then h.Floor else 0
  }

  /** One step of the loop: it keeps the target and brings the frequency closer to the range. */
  method HzStep(hz: real) returns (next: real)
    requires hz > 0.0 && !HzInRange(hz)
    ensures next > 0.0 && NormalizedHz(next) == NormalizedHz(hz)
    ensures BelowMeasure(next) < BelowMeasure(hz)
      || (BelowMeasure(next) == BelowMeasure(hz) && AboveMeasure(next) < AboveMeasure(hz))
  {
    if hz < BeatFreqHzMin {
      DoubledHzMeasure(hz);
      next := hz * 2.0;
      assert RaisedHz(hz) == RaisedHz(next);
      if next >= BeatFreqHzMin {
        assert LoweredHz(next) == next == RaisedHz(next);
      }
    } else {
      HalfFloorLess(hz);
      next := hz / 2.0;
      assert LoweredHz(hz) == LoweredHz(next);
    }
  }

  /**
   * For any positive frequency the normalisation ends within [1, 5] Hz,
   * reached by doubling from below or halving from above, so the stored
   * tempo 60·hz lies in [60, 300] beats per minute.
   */
  lemma NormalizedHzSpec(h: real)
    requires h > 0.0
    ensures HzInRange(NormalizedHz(h))
    ensures 60.0 <= 60.0 * NormalizedHz(h) <= 300.0
    ensures h < BeatFreqHzMin ==> exists k: nat :: NormalizedHz(h) == h * Pow2(k) as real
    ensures h > BeatFreqHzMax ==> exists k: nat :: NormalizedHz(h) == h / Pow2(k) as real
    ensures HzInRange(h) ==> NormalizedHz(h) == h
  {
    if h < BeatFreqHzMin {
      RaisedHzInRange(h);
      RaisedHzIsDoubling(h);
      assert NormalizedHz(h) == h * Pow2(Doublings(h)) as real;
    } else {
      LoweredHzIsHalving(h);
    }
  }

  // ---------------------------------------------------------------------
  // Offset
  // ---------------------------------------------------------------------

  /**
   * The offset as computed: half the length of the rise before the peak
   * when it spans at least two samples, otherwise the peak index itself,
   * reduced modulo the interval.
   */
  function OffsetOf(peak: nat, left: nat, interval: nat): (r: nat)
    requires left <= peak && interval > 0
    ensures r < interval
    ensures peak - left >= 2 ==> r == (peak - left) / 2 % interval
    ensures peak - left < 2 ==> r == peak % interval
  {
    (if peak - left >= 2 then (peak - left) / 2 else peak) % interval
  }

  /**
   * The start of the run of positive differences that ends just before
   * index i. The difference at index 0 is 0, so the run starts at 1 at the
   * earliest.
   */
  function RiseStart(d: seq<real>, i: nat): (r: nat)
    requires 1 <= i < |d| && d[0] == 0.0
    ensures 1 <= r <= i && d[r - 1] <= 0.0
    ensures forall k :: r <= k < i ==> d[k] > 0.0
  {
    if d[i - 1] > 0.0 then RiseStart(d, i - 1) else i
  }

  /**
   * The first index the walk reads, as written: `maxEnvAmpIdx - 1` in
   * uint32 arithmetic, which wraps to 2^32 - 1 for a peak at index 0.
   */
  function LeftWalkFirstRead(peak: nat): (r: nat)
    requires peak < 0x1_0000_0000
    ensures peak > 0 ==> r == peak - 1
    ensures peak == 0 ==> r == 0xFFFF_FFFF
  {
    (peak + 0xFFFF_FFFF) % 0x1_0000_0000
  }

  /**
   * An envelope that never rises has its first largest difference at index
   * 0 (`diff[0]` is 0 and no later difference is larger), so the walk, as
   * written, first reads index 2^32 - 1, past the end.
   */
  lemma NeverRisingPeakAtStart(e: seq<real>)
    requires 0 < |e| < 0x1_0000_0000
    requires forall k :: 0 < k < |e| ==> e[k] <= e[k - 1]
    ensures FirstMaxIndex(Envelopes.Differences(e), |e|) == 0
    ensures LeftWalkFirstRead(FirstMaxIndex(Envelopes.Differences(e), |e|)) >= |e|
  {
    NeverRisingDifferences(e);
    FirstMaxIndexIsFirstMaximum(Envelopes.Differences(e), |e|);
  }

  /** The first differences of an envelope that never rises are 0 first and never positive. */
  lemma NeverRisingDifferences(e: seq<real>)
    requires 0 < |e|
    requires forall k :: 0 < k < |e| ==> e[k] <= e[k - 1]
    ensures Envelopes.Differences(e)[0] == 0.0
    ensures forall k :: 0 <= k < |e| ==> Envelopes.Differences(e)[k] <= 0.0
  {
  }

  /** A silent envelope, all zeros, is one that never rises. */
  lemma SilentEnvelopeWalkUnderflows()
    ensures FirstMaxIndex(Envelopes.Differences([0.0, 0.0]), 2) == 0
    ensures LeftWalkFirstRead(0) == 0xFFFF_FFFF
  {
    NeverRisingPeakAtStart([0.0, 0.0]);
  }

  /**
   * Where the walk is evidently meant to stop: at the start of the run of
   * rising samples that ends at the peak, and at the peak itself when the
   * peak is at index 0 and nothing lies to its left.
   */
  function LeftOfPeak(d: seq<real>, peak: nat): (r: nat)
    requires peak < |d| && d[0] == 0.0
    ensures r <= peak && (r == 0 || d[r - 1] <= 0.0)
    ensures forall k :: r <= k < peak ==> d[k] > 0.0
  {
    if peak == 0 then 0 else RiseStart(d, peak)
  }

  /**
   * The walk from just left of the peak towards the start while the
   * differences are positive, plus one: the start of the run of rising
   * samples that ends at the peak. It stops at index 0 at the latest,
   * whose difference is 0. A peak at index 0 returns 0 instead of stepping
   * below the start.
   */
  method LeftLocalMin(envDiff: seq<real>, peak: nat) returns (left: nat)
    requires peak < |envDiff| && envDiff[0] == 0.0
    ensures left == LeftOfPeak(envDiff, peak)
  {
    if peak == 0 {
      return 0;
    }
    var i := peak - 1;
    while envDiff[i] > 0.0
      invariant 0 <= i < peak
      invariant RiseStart(envDiff, i + 1) == RiseStart(envDiff, peak)
      decreases i
    {
      i := i - 1;
    }
    left := i + 1;
  }

  /** The interval before normalisation: the sample rate over the beat frequency, truncated. */
  function RawInterval(sampleRate: nat, beatHz: real): int
    requires beatHz > 0.0
  {
    (sampleRate as real / beatHz).Floor
  }

  class BeatDetector {
    var offset: nat
    var interval: nat
    /** Beats per minute. */
    var bpm: real

    /** The state a finished detection leaves. */
    predicate Valid()
      reads this
    {
      IntervalInRange(interval) && offset < interval && 60.0 <= bpm <= 300.0
    }

    /** `normalizeInterval`: fold the interval by octaves into [4096, 8192]. */
    method NormalizeInterval()
      requires interval > 0
      modifies this
      ensures interval == NormalizedInterval(old(interval)) && IntervalInRange(interval)
      ensures offset == old(offset) && bpm == old(bpm)
    {
      ghost var target := NormalizedInterval(interval);
      NormalizedIntervalSpec(interval);
      while interval < BeatIntervalMin || interval > BeatIntervalMax
        invariant interval > 0 && NormalizedInterval(interval) == target
        invariant offset == old(offset) && bpm == old(bpm)
        decreases if interval < BeatIntervalMin then BeatIntervalMin - interval else 0, interval
      {
        IntervalStepKeepsTarget(interval);
        interval := if interval < BeatIntervalMin then interval * 2 else interval / 2;
      }
      NormalizedIntervalSpec(interval);
    }

    /** `hz2BPM`: fold the frequency by octaves into [1, 5] Hz and store 60·hz. */
    method Hz2Bpm(beatHz: real)
      requires beatHz > 0.0
      modifies this
      ensures bpm == 60.0 * NormalizedHz(beatHz) && 60.0 <= bpm <= 300.0
      ensures offset == old(offset) && interval == old(interval)
    {
      var hz := beatHz;
      while hz < BeatFreqHzMin || hz > BeatFreqHzMax
        invariant hz > 0.0 && NormalizedHz(hz) == NormalizedHz(beatHz)
        invariant offset == old(offset) && interval == old(interval)
        decreases BelowMeasure(hz), AboveMeasure(hz)
      {
        hz := HzStep(hz);
      }
      NormalizedHzSpec(beatHz);
      bpm := hz * 60.0;
    }

    /**
     * `BeatDetector(td, samples, sampleRate)`: from the envelope's first
     * differences, the beat frequency `beatHz` (the frequency of the
     * strongest bin of their harmonic product spectrum) and the sample
     * rate, sets the normalised interval, the tempo and the offset of the
     * steepest attack. The peak is the first largest difference; for a
     * peak at index 0 the walk stops there, where the source's unsigned walk
     * would first read index 2^32 - 1 (`LeftWalkFirstRead`).
     */
    constructor (env: Envelopes.Envelope, sampleRate: nat, beatHz: real)
      requires env.Valid()
      requires beatHz > 0.0 && RawInterval(sampleRate, beatHz) > 0
      ensures Valid()
      ensures interval == NormalizedInterval(RawInterval(sampleRate, beatHz))
      ensures bpm == 60.0 * NormalizedHz(beatHz)
      ensures var d := Envelopes.Differences(env.envelope);
        var peak := FirstMaxIndex(d, |d|);
        offset == OffsetOf(peak, LeftOfPeak(d, peak), interval)
    {
      interval := RawInterval(sampleRate, beatHz);
      new;
      var envDiff := env.Diff();
      NormalizeInterval();
      Hz2Bpm(beatHz);
      var peak := FirstMaxIndex(envDiff, |envDiff|);
      var left := LeftLocalMin(envDiff, peak);
      offset := OffsetOf(peak, left, interval);
    }

    method GetOffset() returns (r: nat)
      ensures r == offset
    {
      r := offset;
    }

    method GetIdxInterval() returns (r: nat)
      ensures r == interval
    {
      r := interval;
    }

    method GetBpm() returns (r: real)
      ensures r == bpm
    {
      r := bpm;
    }
  }
}
