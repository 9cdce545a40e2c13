/**
 * The amplitude envelope of a signal: the samples squared and doubled,
 * smoothed and downsampled by the moving-average filter, smoothed again by
 * a low-pass filter and square-rooted. It answers first differences, means
 * over index ranges and whether a range of samples holds silence.
 */
module Envelopes {
  import opened Wrappers
  import opened Helpers
  import opened MaFilters

  /** `CFG_SILENCE_THRESHOLD_DB`: the level, relative to the maximum, below which a sample is silence. */
  const SilenceThresholdDb: real := -34.0

  const IsSilenceErr: string := "Envelope::mean() invalid argument"

  /** The samples after `squareAndDouble`. */
  function SquaredDoubled(td: seq<real>): (r: seq<real>)
    ensures |r| == |td|
  {
    seq(|td|, i requires 0 <= i < |td| => td[i] * td[i] * 2.0)
  }

  /** Squaring and doubling gives the power: never negative. */
  lemma SquaredDoubledNonNegative(td: seq<real>)
    ensures forall i :: 0 <= i < |td| ==> SquaredDoubled(td)[i] >= 0.0
  {
  }

  /** `squareAndDouble`: each of the first `samples` samples x becomes 2x², in place. */
  method SquareAndDouble(td: array<real>, samples: nat)
    requires samples <= td.Length
    modifies td
    ensures td[..samples] == SquaredDoubled(old(td[..samples]))
    ensures td[samples..] == old(td[samples..])
  {
    ghost var target := SquaredDoubled(td[..samples]);
    ghost var rest := td[samples..];
    for i := 0 to samples
      invariant td[..i] == target[..i]
      invariant td[i..] == old(td[i..])
    {
      td[i] := td[i] * td[i] * 2.0;
      assert td[..i + 1] == target[..i + 1] by {
        assert target[i] == td[i];
      }
    }
    assert td[..samples] == target;
  }

  /** `squareRoot`: each entry becomes the magnitude of its complex square root, in place. */
  method SquareRoot(input: array<real>, rootMagnitude: real -> real)
    modifies input
    ensures input[..] == seq(input.Length, i requires 0 <= i < input.Length => rootMagnitude(old(input[i])))
  {
    ghost var orig := input[..];
    for i := 0 to input.Length
      invariant forall k :: 0 <= k < i ==> input[k] == rootMagnitude(orig[k])
      invariant forall k :: i <= k < input.Length ==> input[k] == orig[k]
    {
      input[i] := rootMagnitude(input[i]);
    }
  }

  /** The first differences of e: 0, then each entry less the one before it. */
  function Differences(e: seq<real>): (r: seq<real>)
    requires |e| > 0
    ensures |r| == |e|
  {
    seq(|e|, i requires 0 <= i < |e| => if i == 0 then 0.0 else e[i] - e[i - 1])
  }

  /** Summing the differences up to i recovers e[i] from e[0]: they are its discrete derivative. */
  lemma {:induction false} DifferencesTelescope(e: seq<real>, i: nat)
    requires i < |e|
    ensures e[i] == e[0] + RangeSum(Differences(e), 1, i + 1)
  {
    if i > 0 {
      DifferencesTelescope(e, i - 1);
    }
  }

  /** The mean of e[s ..= t]. */
  function Mean(e: seq<real>, s: nat, t: nat): (r: real)
    requires s <= t < |e|
    ensures (t - s + 1) as real * r == RangeSum(e, s, t + 1)
  {
    RangeSum(e, s, t + 1) / (t - s + 1) as real
  }

  /** A sum of values between lo and hi lies between count·lo and count·hi. */
  lemma {:induction false} RangeSumBounds(e: seq<real>, s: nat, t: nat, lo: real, hi: real)
    requires s <= t <= |e|
    requires forall i :: s <= i < t ==> lo <= e[i] <= hi
    ensures (t - s) as real * lo <= RangeSum(e, s, t) <= (t - s) as real * hi
    decreases t - s
  {
    if s < t {
      RangeSumBounds(e, s, t - 1, lo, hi);
      assert (t - 1 - s) as real * lo + lo == (t - s) as real * lo;
      assert (t - 1 - s) as real * hi + hi == (t - s) as real * hi;
    }
  }

  lemma DivideBounds(x: real, n: real, lo: real, hi: real)
    requires n > 0.0 && n * lo <= x <= n * hi
    ensures lo <= x / n <= hi
  {
  }

  /** The mean lies between any lower and upper bound of the range. */
  lemma MeanBounds(e: seq<real>, s: nat, t: nat, lo: real, hi: real)
    requires s <= t < |e|
    requires forall i :: s <= i <= t ==> lo <= e[i] <= hi
    ensures lo <= Mean(e, s, t) <= hi
  {
    RangeSumBounds(e, s, t + 1, lo, hi);
    DivideBounds(RangeSum(e, s, t + 1), (t - s + 1) as real, lo, hi);
  }

  /** The largest entry, as `*max_element` reads it. */
  function MaxOf(e: seq<real>): (m: real)
    requires |e| > 0
  {
    e[FirstMaxIndex(e, |e|)]
  }

  /** The envelope the constructor computes from the samples. */
  function EnvelopeOf(td: seq<real>, lowPass: seq<real> -> seq<real>, rootMagnitude: real -> real): (e: seq<real>)
  {
    var smoothed := lowPass(Filtered(SquaredDoubled(td), DefaultDf));
    seq(|smoothed|, i requires 0 <= i < |smoothed| => rootMagnitude(smoothed[i]))
  }

  /** The constructor's first steps: square and double a copy, then apply the default moving average. */
  method PowerFiltered(td: seq<real>) returns (filtered: seq<real>, factor: nat)
    requires ChunkCount(|td|, DefaultDf) * DefaultDf < 0x1_0000_0000
    ensures filtered == Filtered(SquaredDoubled(td), DefaultDf) && factor == DefaultDf
  {
    var copy := new real[|td|](i requires 0 <= i < |td| => td[i]);
    assert copy[..|td|] == td;
    SquareAndDouble(copy, |td|);
    ghost var power := copy[..|td|];
    assert power == SquaredDoubled(td);
    var ma := new MAFilter.Default();
    filtered := ma.Process(copy, |td|);
    assert copy[..|td|] == power;
    factor := ma.GetDownsampleFactor();
  }

  /** Some entry of e[s ..= t] lies more than 34 dB below max, `level(x, max)` giving the level in decibels. */
  predicate SilentIn(e: seq<real>, maxAmplitude: real, level: (real, real) -> real, s: nat, t: nat)
    requires t < |e|
  {
    exists i :: s <= i <= t && level(e[i], maxAmplitude) < SilenceThresholdDb
  }

  /** A range holding silence still holds it when widened. */
  lemma SilentInWiden(e: seq<real>, maxAmplitude: real, level: (real, real) -> real, s: nat, t: nat, s': nat, t': nat)
    requires s' <= s && t <= t' < |e|
    requires SilentIn(e, maxAmplitude, level, s, t)
    ensures SilentIn(e, maxAmplitude, level, s', t')
  {
    var i :| s <= i <= t && level(e[i], maxAmplitude) < SilenceThresholdDb;
    assert s' <= i <= t';
  }

  class Envelope {
    var envelope: seq<real>
    /** The total downsampling factor of the filters. */
    var df: nat
    var maxAmplitude: real

    predicate Valid()
      reads this
    {
      df > 0 && |envelope| > 0 && maxAmplitude == MaxOf(envelope)
    }

    /**
     * `Envelope(td, samples)`: squares and doubles a copy of the samples,
     * filters it with the default moving average and then the low-pass
     * filter `lowPass` (whose downsampling factor is the base class's 1),
     * multiplying the factor by each, and takes the magnitude of the
     * square root of every entry. An empty result would make the maximum
     * undefined, hence the precondition.
     */
    constructor (td: seq<real>, lowPass: seq<real> -> seq<real>, rootMagnitude: real -> real)
      requires ChunkCount(|td|, DefaultDf) * DefaultDf < 0x1_0000_0000
      requires |lowPass(Filtered(SquaredDoubled(td), DefaultDf))| > 0
      ensures Valid()
      ensures envelope == EnvelopeOf(td, lowPass, rootMagnitude) && df == DefaultDf
    {
      var filtered, factor := PowerFiltered(td);
      var total := 1 * factor;
      var smoothed := lowPass(filtered);
      total := total * 1;
      var buf := new real[|smoothed|](i requires 0 <= i < |smoothed| => smoothed[i]);
      SquareRoot(buf, rootMagnitude);
      envelope := buf[..];
      df := total;
      maxAmplitude := MaxOf(buf[..]);
    }

    /** `getDownsampleFactor`: the total factor. */
    method GetDownsampleFactor() returns (r: nat)
      ensures r == df
    {
      r := df;
    }

    /**
     * `mean(startIdx, endIdx)` on 32-bit indices: the mean of an inclusive
     * range. A reversed range skips the loop and divides 0 by the wrapped
     * count `endIdx - startIdx + 1`: that count is 0 when startIdx is
     * endIdx + 1, giving 0/0 (`None`, not a number), and positive otherwise,
     * giving 0. An end index of 2^32 - 1 would make `i <= endIdx` hold
     * forever, so it is excluded.
     */
    method MeanOf(startIdx: nat, endIdx: nat) returns (m: Option<real>)
      requires startIdx < 0x1_0000_0000 && endIdx < 0xFFFF_FFFF
      requires startIdx <= endIdx ==> endIdx < |envelope|
      ensures startIdx <= endIdx ==> m == Some(Mean(envelope, startIdx, endIdx))
      ensures startIdx == endIdx + 1 ==> m == None
      ensures startIdx > endIdx + 1 ==> m == Some(0.0)
    {
      var res := 0.0;
      var i := startIdx;
      while i <= endIdx
        invariant startIdx <= endIdx ==> startIdx <= i <= endIdx + 1
        invariant startIdx > endIdx ==> i == startIdx && res == 0.0
        invariant startIdx <= endIdx ==> res == RangeSum(envelope, startIdx, i)
        decreases endIdx + 1 - i
      {
        res := res + envelope[i];
        i := i + 1;
      }
      var count := (endIdx - startIdx + 1) % 0x1_0000_0000;
      if count == 0 {
        return None;
      }
      m := Some(res / count as real);
    }

    /** `diff`: the first differences of the envelope. */
    method Diff() returns (res: seq<real>)
      requires Valid()
      ensures res == Differences(envelope)
    {
      var env := envelope;
      var a := new real[|env|];
      a[0] := 0.0;
      for i := 1 to |env|
        invariant a[0] == 0.0
        invariant forall k :: 1 <= k < i ==> a[k] == env[k] - env[k - 1]
      {
        a[i] := env[i] - env[i - 1];
      }
      res := a[..];
    }

    /**
     * `isSilence(startIdx, endIdx)`: maps the sample indices to envelope
     * indices by integer division by the factor (the rounding then has
     * nothing left to round), refuses a reversed range or one past the end,
     * and is true when some entry in the range is more than 34 dB below the
     * maximum. `level(x, max)` is the level 20·log10(x / max) in decibels.
     */
    method IsSilence(startIdx: nat, endIdx: nat, level: (real, real) -> real) returns (r: Result<bool>)
      requires Valid()
      ensures startIdx / df > endIdx / df || endIdx / df >= |envelope| ==> r == Err(IsSilenceErr)
      ensures startIdx / df <= endIdx / df < |envelope| ==>
        r == Ok(SilentIn(envelope, maxAmplitude, level, startIdx / df, endIdx / df))
    {
      var start := startIdx / df;
      var end := endIdx / df;
      if start > end || end > |envelope| - 1 {
        return Err(IsSilenceErr);
      }
      var i := start;
      while i <= end
        invariant start <= i <= end + 1
        invariant forall k :: start <= k < i ==> level(envelope[k], maxAmplitude) >= SilenceThresholdDb
        decreases end + 1 - i
      {
        if level(envelope[i], maxAmplitude) < SilenceThresholdDb {
          return Ok(true);
        }
        i := i + 1;
      }
      r := Ok(false);
    }
  }
}
