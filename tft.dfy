/**
 * The time–frequency transform base: it holds the spectrogram, a sequence
 * of columns, and the interval in samples between two columns, and it
 * denoises blocks of columns by a universal threshold computed from each
 * column's median absolute deviation.
 */
module Tfts {
  import opened Wrappers
  import opened Helpers

  /** The consistency constant that turns a median absolute deviation into a standard deviation. */
  const MadScale: real := 0.6745

  function Abs(x: real): real
  {
    if x < 0.0 then -x else x
  }

  /** The absolute deviations of a column's entries from m. */
  function AbsDevs(col: seq<real>, m: real): (r: seq<real>)
    ensures |r| == |col|
  {
    seq(|col|, i requires 0 <= i < |col| => Abs(col[i] - m))
  }

  /** A column's median absolute deviation: the median of the deviations from its median. */
  function Mad(col: seq<real>): real
    requires |col| > 0
  {
    Median(AbsDevs(col, Median(col).value)).value
  }

  /**
   * A column's threshold: its median absolute deviation over 0.6745, times
   * `universal(interval)`, which stands for sqrt(2·log10(interval)). An
   * empty column has no median, and `median` throws.
   */
  function Threshold(col: seq<real>, interval: nat, universal: nat -> real): (r: Result<real>)
    ensures r.Err? <==> |col| == 0
    ensures r.Err? ==> r.msg == MedianEmptyErr
  {
    if |col| == 0 then Err(MedianEmptyErr)
    else Ok(Scaled(Mad(col), universal(interval)))
  }

  /** A deviation turned into a threshold: over the consistency constant, times the factor. */
  function Scaled(mad: real, factor: real): (r: real)
    ensures mad >= 0.0 && factor >= 0.0 ==> r >= 0.0
    ensures factor == 0.0 ==> r == 0.0
  {
    mad / MadScale * factor
  }

  /** Deviations are never negative, so neither is their median. */
  lemma MadNonNegative(col: seq<real>)
    requires |col| > 0
    ensures Mad(col) >= 0.0
  {
    var d := AbsDevs(col, Median(col).value);
    assert forall i :: 0 <= i < |d| ==> d[i] >= 0.0;
    MedianNonNegative(d);
  }

  /** For a non-negative factor the threshold is never negative. */
  lemma ThresholdNonNegative(col: seq<real>, interval: nat, universal: nat -> real)
    requires |col| > 0 && universal(interval) >= 0.0
    ensures Threshold(col, interval, universal).value >= 0.0
  {
    MadNonNegative(col);
  }

  lemma MedianNonNegative(v: seq<real>)
    requires |v| > 0 && forall i :: 0 <= i < |v| ==> v[i] >= 0.0
    ensures Median(v).value >= 0.0
  {
    MedianBounds(v);
  }

  /** The column with every entry of magnitude below thr set to 0. */
  function Denoised(col: seq<real>, thr: real): (r: seq<real>)
    ensures |r| == |col|
  {
    seq(|col|, i requires 0 <= i < |col| => if Abs(col[i]) < thr then 0.0 else col[i])
  }

  /**
   * Denoising only zeroes: each entry is kept or becomes 0, exactly the
   * small ones become 0, and a second pass with the same threshold
   * changes nothing.
   */
  lemma DenoisedOnlyZeroes(col: seq<real>, thr: real)
    ensures forall i :: 0 <= i < |col| ==> (Abs(col[i]) < thr ==> Denoised(col, thr)[i] == 0.0)
    ensures forall i :: 0 <= i < |col| ==> (Abs(col[i]) >= thr ==> Denoised(col, thr)[i] == col[i])
    ensures thr >= 0.0 ==> Denoised(Denoised(col, thr), thr) == Denoised(col, thr)
  {
    if thr >= 0.0 {
      var d := Denoised(col, thr);
      assert forall i :: 0 <= i < |col| ==> Denoised(d, thr)[i] == d[i];
    }
  }

  /** The column `Denoise_` leaves: denoised by its own threshold. */
  function DenoisedColumn(col: seq<real>, interval: nat, universal: nat -> real): (r: seq<real>)
    requires |col| > 0
  {
    Denoised(col, Threshold(col, interval, universal).value)
  }

  /** What `Denoise_` makes of a whole block: every column denoised, or the throw of an empty one. */
  function DenoisedBlock(block: seq<seq<real>>, interval: nat, universal: nat -> real): (r: Result<seq<seq<real>>>)
  {
    if HasEmptyColumn(block) then Err(MedianEmptyErr)
    else Ok(seq(|block|, k requires 0 <= k < |block| => DenoisedColumn(block[k], interval, universal)))
  }

  /** Whether some column of the block is empty, so that its median throws. */
  predicate HasEmptyColumn(block: seq<seq<real>>)
  {
    exists k :: 0 <= k < |block| && |block[k]| == 0
  }

  /**
   * The state a throw at column e leaves: e is empty, the columns before
   * it are denoised and the others untouched.
   */
  predicate FailedAt(before: seq<seq<real>>, after: seq<seq<real>>, e: nat, interval: nat, universal: nat -> real)
  {
    |after| == |before| && e < |before| && |before[e]| == 0
    && (forall k :: 0 <= k < e ==> |before[k]| > 0 && after[k] == DenoisedColumn(before[k], interval, universal))
    && (forall k :: e <= k < |before| ==> after[k] == before[k])
  }

  /** Denoise one column, in place. */
  method DenoiseColumn(block: array<seq<real>>, k: nat, interval: nat, universal: nat -> real)
    returns (failure: Option<string>)
    requires k < block.Length
    modifies block
    ensures failure.Some? <==> |old(block[k])| == 0
    ensures failure.Some? ==> failure.value == MedianEmptyErr
    ensures failure.None? ==> block[k] == DenoisedColumn(old(block[k]), interval, universal)
    ensures forall i :: 0 <= i < block.Length && i != k ==> block[i] == old(block[i])
    ensures failure.Some? ==> block[k] == old(block[k])
  {
    var col := block[k];
    var thr := Threshold(col, interval, universal);
    if thr.Err? {
      return Some(thr.msg);
    }
    block[k] := Denoised(col, thr.value);
    failure := None;
  }

  /**
   * `Denoise_(block)`: each column in turn is denoised in place by its own
   * threshold. An empty column throws; the columns before it have then
   * already been denoised and the rest are untouched. `interval` is the
   * transform's `interval_`.
   */
  method DenoiseBlock(block: array<seq<real>>, interval: nat, universal: nat -> real)
    returns (failure: Option<string>)
    modifies block
    ensures failure.Some? <==> HasEmptyColumn(old(block[..]))
    ensures failure.Some? ==> failure.value == MedianEmptyErr
    ensures failure.None? ==> forall k :: 0 <= k < block.Length ==> block[k] == DenoisedColumn(old(block[k]), interval, universal)
    ensures failure.Some? ==> exists e :: FailedAt(old(block[..]), block[..], e, interval, universal)
  {
    ghost var orig := block[..];
    for k := 0 to block.Length
      invariant forall i :: 0 <= i < k ==> |orig[i]| > 0 && block[i] == DenoisedColumn(orig[i], interval, universal)
      invariant forall i :: k <= i < block.Length ==> block[i] == orig[i]
    {
      failure := DenoiseNext(block, k, interval, universal, orig);
      if failure.Some? {
        return;
      }
    }
    assert forall k :: 0 <= k < |orig| ==> |orig[k]| > 0;
    failure := None;
  }

  /** One pass of the column loop of `Denoise_`: column k is denoised, or the run stops at it. */
  method DenoiseNext(block: array<seq<real>>, k: nat, interval: nat, universal: nat -> real, ghost orig: seq<seq<real>>)
    returns (failure: Option<string>)
    requires k < block.Length == |orig|
    requires forall i :: 0 <= i < k ==> |orig[i]| > 0 && block[i] == DenoisedColumn(orig[i], interval, universal)
    requires forall i :: k <= i < block.Length ==> block[i] == orig[i]
    modifies block
    ensures failure.Some? ==> failure.value == MedianEmptyErr && |orig[k]| == 0 && FailedAt(orig, block[..], k, interval, universal)
    ensures failure.None? ==> forall i :: 0 <= i < k + 1 ==> |orig[i]| > 0 && block[i] == DenoisedColumn(orig[i], interval, universal)
    ensures failure.None? ==> forall i :: k + 1 <= i < block.Length ==> block[i] == orig[i]
  {
    failure := DenoiseColumn(block, k, interval, universal);
  }

  class TFT {
    var fMin: real
    var fMax: real
    var bpo: nat
    var sampleRate: nat
    var winSize: nat
    var hopSize: nat
    /** The columns computed so far. */
    var spectrogram: seq<seq<real>>
    /** The number of samples between two columns. */
    var interval: nat

    /** `TFT(...)`: the parameters as given, no columns, and an interval of one window. */
    constructor (fMin: real, fMax: real, bpo: nat, sampleRate: nat, winSize: nat, hopSize: nat)
      ensures this.fMin == fMin && this.fMax == fMax && this.bpo == bpo && this.sampleRate == sampleRate
      ensures this.winSize == winSize && this.hopSize == hopSize
      ensures spectrogram == [] && interval == winSize
    {
      this.fMin := fMin;
      this.fMax := fMax;
      this.bpo := bpo;
      this.sampleRate := sampleRate;
      this.winSize := winSize;
      this.hopSize := hopSize;
      spectrogram := [];
      interval := winSize;
    }

    /** `GetSpectrogram`. */
    method GetSpectrogram() returns (r: seq<seq<real>>)
      ensures r == spectrogram
    {
      r := spectrogram;
    }

    /** `SpectrogramInterval`. */
    method SpectrogramInterval() returns (r: nat)
      ensures r == interval
    {
      r := interval;
    }
  }
}
