/**
 * The `FFT` object of libmusic/src/fft.cpp: it transforms one window of
 * samples on construction and keeps the spectrum, either in rectangular
 * notation (complex bins, the ones below the low cut-off zeroed) or in polar
 * notation (magnitudes only, smoothed by a moving average). cos, sin, sqrt
 * and atan are parameters; the harmonic product spectrum pass is one too.
 */
module LmFftObject {
  import opened Wrappers
  import opened LmTypes
  import opened Helpers
  import opened LmFft

  /** `CFG_WINDOW_SIZE`. */
  const CfgWindowSize: nat := 4096
  /** `CFG_FFT_AVG_WINDOW`. */
  const CfgFftAvgWindow: nat := 2

  const InvalidArgument: string := "FFT(): invalid argument"
  const PolarInverse: string := "Inverse_(): only implemented for rectangular notation"

  function Min(a: nat, b: nat): (r: nat)
    ensures r <= a && r <= b && (r == a || r == b)
  {
    if a < b then a else b
  }

  // ---------------------------------------------------------------------
  // Transform size and bin indices
  // ---------------------------------------------------------------------

  /** `size_`: a 4096-point window, or the next power of two for longer inputs. */
  function TransformSize(tdLen: nat): (n: nat)
    requires 1 <= tdLen <= 0x8000_0000
    ensures tdLen <= n && CfgWindowSize <= n
  {
    if tdLen <= CfgWindowSize then CfgWindowSize else NextPowerOf2(tdLen)
  }

  lemma Pow2Twelve()
    ensures Pow2(12) == CfgWindowSize
  {
  }

  /** `size_` is the least power of two that holds the samples and is at least 4096. */
  lemma TransformSizeIsLeast(tdLen: nat, k: nat)
    requires 1 <= tdLen <= 0x8000_0000
    ensures IsPowerOf2Size(TransformSize(tdLen)) && TransformSize(tdLen) <= 0x8000_0000
    ensures tdLen <= TransformSize(tdLen) && CfgWindowSize <= TransformSize(tdLen)
    ensures tdLen <= Pow2(k) && CfgWindowSize <= Pow2(k) ==> TransformSize(tdLen) <= Pow2(k)
  {
    Pow2Twelve();
    if tdLen <= CfgWindowSize {
      WindowSizeIsLeast();
    } else {
      var j: nat :| 1 <= j <= 31 && NextPowerOf2(tdLen) == Pow2(j) && Pow2(j - 1) < tdLen <= Pow2(j);
      LongInputSizeIsLeast(tdLen, j, k);
    }
  }

  lemma WindowSizeIsLeast()
    requires Pow2(12) == CfgWindowSize
    ensures IsPowerOf2Size(CfgWindowSize)
  {
    Log2OfPow2(12);
  }

  lemma LongInputSizeIsLeast(tdLen: nat, j: nat, k: nat)
    requires Pow2(12) == CfgWindowSize && CfgWindowSize < tdLen
    requires 1 <= j <= 31 && Pow2(j - 1) < tdLen <= Pow2(j)
    ensures IsPowerOf2Size(Pow2(j)) && Pow2(j) <= 0x8000_0000 && CfgWindowSize <= Pow2(j)
    ensures tdLen <= Pow2(k) ==> Pow2(j) <= Pow2(k)
  {
    Log2OfPow2(j);
    Pow2Monotone(j, 31);
    Pow2Thirty();
    if tdLen <= Pow2(k) {
      if k < j {
        Pow2Monotone(k, j - 1);
      } else {
        Pow2Monotone(j, k);
      }
    }
  }

  datatype Rounding = Floor | Ceil

  /** Where freq falls on the bin scale: freq · size / samplerate. */
  function BinPosition(freq: real, size: nat, samplerate: nat): (x: real)
    requires samplerate > 0
    ensures freq >= 0.0 ==> x >= 0.0
  {
    var x := freq * size as real / samplerate as real;
    assert freq >= 0.0 ==> x >= 0.0 by {
      if freq >= 0.0 {
        NonNegativeQuotient(freq * size as real, samplerate as real);
      }
    }
    x
  }

  /** C's `floor` or `ceil`, as the integer it yields. */
  function Round(x: real, mode: Rounding): (r: int)
    ensures mode == Floor ==> r as real <= x < r as real + 1.0
    ensures mode == Ceil ==> r as real - 1.0 < x <= r as real
  {
    if mode == Floor then x.Floor else -((-x).Floor)
  }

  /**
   * `FreqToIdx`: the bin of freq, its bin position rounded by `floor` or
   * `ceil`. A negative frequency would be converted to an unsigned index,
   * which is undefined; it is excluded.
   */
  function FreqToIdx(freq: real, size: nat, samplerate: nat, mode: Rounding): (r: nat)
    requires samplerate > 0 && freq >= 0.0
    ensures mode == Floor ==> r as real <= BinPosition(freq, size, samplerate) < r as real + 1.0
    ensures mode == Ceil ==> r as real - 1.0 < BinPosition(freq, size, samplerate) <= r as real
  {
    Round(BinPosition(freq, size, samplerate), mode)
  }

  /** `IdxToFreq`: the frequency of bin idx. */
  function IdxToFreq(idx: nat, size: nat, samplerate: nat): (f: real)
    requires size > 0
    ensures f >= 0.0
  {
    NonNegativeQuotient(idx as real * samplerate as real, size as real);
    idx as real * samplerate as real / size as real
  }

  lemma NonNegativeQuotient(a: real, b: real)
    requires a >= 0.0 && b > 0.0
    ensures a / b >= 0.0
  {
  }

  /** The frequency of a bin maps back to that bin, whichever rounding is used. */
  lemma IdxToFreqRoundTrip(idx: nat, size: nat, samplerate: nat, mode: Rounding)
    requires size > 0 && samplerate > 0
    ensures FreqToIdx(IdxToFreq(idx, size, samplerate), size, samplerate, mode) == idx
  {
    var f := IdxToFreq(idx, size, samplerate);
    CancelFactors(idx as real, samplerate as real, size as real, f, BinPosition(f, size, samplerate));
  }

  lemma CancelFactors(i: real, s: real, n: real, f: real, x: real)
    requires s > 0.0 && n > 0.0 && f == i * s / n && x == f * n / s
    ensures x == i
  {
    assert f * n == i * s;
  }

  /** Below half the sample rate, the floor of a bin index stays below N/2. */
  lemma LowBinInRange(fLow: real, fHigh: real, size: nat, samplerate: nat)
    requires samplerate > 0 && 0.0 <= fLow < fHigh <= (samplerate / 2) as real
    ensures FreqToIdx(fLow, size, samplerate, Floor) <= size / 2
  {
    var n, s := size as real, samplerate as real;
    assert (samplerate / 2) as real * 2.0 <= s;
    assert fLow * 2.0 <= s;
    ScaleBelow(fLow, s, n);
    var r := FreqToIdx(fLow, size, samplerate, Floor);
    assert 2 * r <= size;
  }

  lemma ScaleBelow(f: real, s: real, n: real)
    requires s > 0.0 && n >= 0.0 && 0.0 <= f && f * 2.0 <= s
    ensures f * n / s <= n / 2.0
  {
    assert f * n <= s / 2.0 * n;
    assert s / 2.0 * n / s == n / 2.0;
  }

  // ---------------------------------------------------------------------
  // Passes over the spectrum
  // ---------------------------------------------------------------------

  /** A spectrum whose bins below fLowIdx are zeroed. */
  function LowCut(s: seq<Complex>, fLowIdx: nat): (r: seq<Complex>)
    ensures |r| == |s|
    ensures forall i :: 0 <= i < |s| && i < fLowIdx ==> r[i] == Zero
    ensures forall i :: fLowIdx <= i < |s| ==> r[i] == s[i]
  {
    MapRange(s, 0, Min(fLowIdx, |s|), (_: Complex) => Zero)
  }

  /** `AttLowFreqs`: bins 0 .. fLowIdx − 1 become 0, the others are kept. */
  method AttLowFreqs(fd: array<Complex>, fLowIdx: nat)
    requires fLowIdx <= fd.Length
    modifies fd
    ensures fd[..] == LowCut(old(fd[..]), fLowIdx)
  {
    MapInPlace(fd, 0, fLowIdx, (_: Complex) => Zero);
  }

  /** The magnitudes buffer after `ToPolar_`: bins lo .. hi − 1 hold the magnitudes of fd. */
  function Magnitudes(buf: seq<real>, fd: seq<Complex>, lo: nat, hi: nat, sqrt: real -> real): (r: seq<real>)
    requires hi <= |fd|
    ensures |r| == |buf|
    ensures forall i :: 0 <= i < |buf| ==> r[i] == if lo <= i < hi then Magnitude(fd[i], sqrt) else buf[i]
  {
    seq(|buf|, i requires 0 <= i < |buf| => if lo <= i < hi then Magnitude(fd[i], sqrt) else buf[i])
  }

  /** One pass of the loop of `ToPolar_` into a magnitudes buffer; returns the next index. */
  method MagnitudeStep(fd: seq<Complex>, mags: array<real>, lo: nat, hi: nat, i: nat, sqrt: real -> real, ghost orig: seq<real>)
    returns (next: nat)
    requires lo <= i < hi <= |fd| && hi <= mags.Length == |orig|
    requires mags[..] == Magnitudes(orig, fd, lo, i, sqrt)
    modifies mags
    ensures next == i + 1 && mags[..] == Magnitudes(orig, fd, lo, next, sqrt)
  {
    mags[i] := Magnitude(fd[i], sqrt);
    next := i + 1;
  }

  /**
   * `ToPolar_` with a magnitudes buffer: refuses an empty spectrum;
   * otherwise converts len = min(reqLen, N/2) bins, writing the magnitude of
   * bin i into the buffer for startIdx <= i < len, and returns len.
   */
  method ToPolarMagnitudes(fd: seq<Complex>, mags: array<real>, reqLen: nat, startIdx: nat, sqrt: real -> real)
    returns (r: Result<nat>)
    requires startIdx < Min(reqLen, |fd| / 2) ==> Min(reqLen, |fd| / 2) <= mags.Length
    modifies mags
    ensures r.Err? <==> |fd| == 0
    ensures r.Err? ==> r.msg == EmptyInput && mags[..] == old(mags[..])
    ensures r.Ok? ==> r.value == Min(reqLen, |fd| / 2) && r.value <= |fd|
    ensures r.Ok? ==> mags[..] == Magnitudes(old(mags[..]), fd, startIdx, r.value, sqrt)
  {
    if |fd| == 0 {
      return Err(EmptyInput);
    }
    var len := Min(reqLen, |fd| / 2);
    ghost var orig := mags[..];
    var i := startIdx;
    if i < len {
      assert Magnitudes(orig, fd, startIdx, i, sqrt) == orig;
      while i < len
        invariant startIdx <= i <= len && mags[..] == Magnitudes(orig, fd, startIdx, i, sqrt)
        decreases len - i
      {
        i := MagnitudeStep(fd, mags, startIdx, len, i, sqrt, orig);
      }
    } else {
      assert Magnitudes(orig, fd, startIdx, len, sqrt) == orig;
    }
    r := Ok(len);
  }

  /**
   * `ToPolar_` in place (no magnitudes buffer): refuses an empty spectrum;
   * otherwise bins startIdx .. len − 1, len = min(reqLen, N/2), are put in
   * polar notation and len is returned. The one-argument `ToPolar_` is the
   * call with reqLen = N and startIdx = 0.
   */
  method ToPolarInPlace(fd: array<Complex>, reqLen: nat, startIdx: nat, sqrt: real -> real, atan: real -> real)
    returns (r: Result<nat>)
    modifies fd
    ensures r.Err? <==> fd.Length == 0
    ensures r.Err? ==> r.msg == EmptyInput
    ensures r.Ok? ==> r.value == Min(reqLen, fd.Length / 2)
    ensures forall i :: 0 <= i < fd.Length ==>
      fd[i] == if r.Ok? && startIdx <= i < r.value then PolarOf(old(fd[i]), sqrt, atan) else old(fd[i])
  {
    if fd.Length == 0 {
      return Err(EmptyInput);
    }
    var len := Min(reqLen, fd.Length / 2);
    MapInPlace(fd, startIdx, len, (x: Complex) => PolarOf(x, sqrt, atan));
    r := Ok(len);
  }

  /** s[i] + s[i+1] + … + s[i+n−1], summed from left to right. */
  function WindowSum(s: seq<real>, i: nat, n: nat): real
    requires 1 <= n && i + n <= |s|
  {
    if n == 1 then s[i] else WindowSum(s, i, n - 1) + s[i + n - 1]
  }

  /** The buffer after `Avg_`: bin k < len is the mean of s[k .. k + window − 1]. */
  function Averaged(s: seq<real>, len: nat, window: nat): (r: seq<real>)
    requires 1 <= window && len + window - 1 <= |s|
    ensures |r| == |s|
  {
    seq(|s|, k requires 0 <= k < |s| => if k < len then WindowSum(s, k, window) / window as real else s[k])
  }

  /** A window of one leaves the buffer as it is. */
  lemma AveragedOne(s: seq<real>, len: nat)
    requires len <= |s|
    ensures Averaged(s, len, 1) == s
  {
  }

  /** A window of equal values averages to that value. */
  lemma {:induction false} AveragedConstant(s: seq<real>, len: nat, window: nat, k: nat, c: real)
    requires 1 <= window && len + window - 1 <= |s| && k < len
    requires forall j :: k <= j < k + window ==> s[j] == c
    ensures Averaged(s, len, window)[k] == c
  {
    WindowSumConstant(s, k, window, c);
    MeanOfMultiple(window as real, c);
  }

  lemma {:induction false} WindowSumConstant(s: seq<real>, i: nat, n: nat, c: real)
    requires 1 <= n && i + n <= |s|
    requires forall j :: i <= j < i + n ==> s[j] == c
    ensures WindowSum(s, i, n) == n as real * c
  {
    if n > 1 {
      WindowSumConstant(s, i, n - 1, c);
      assert (n - 1) as real * c + c == n as real * c;
    }
  }

  lemma MeanOfMultiple(w: real, c: real)
    requires w > 0.0
    ensures w * c / w == c
  {
  }

  /** One addition of the inner loop of `Avg_`; returns the next j. */
  method AvgAdd(fd: array<real>, len: nat, window: nat, i: nat, j: nat, ghost orig: seq<real>)
    returns (next: nat)
    requires 1 <= j < window && i < len && len + window - 1 <= fd.Length == |orig|
    requires fd[..] == Averaged(orig, i, window)[i := WindowSum(orig, i, j)]
    modifies fd
    ensures next == j + 1 && fd[..] == Averaged(orig, i, window)[i := WindowSum(orig, i, next)]
  {
    fd[i] := fd[i] + fd[i + j];
    next := j + 1;
  }

  /** One pass of the outer loop of `Avg_`; returns the next bin. */
  method AvgBin(fd: array<real>, len: nat, window: nat, i: nat, ghost orig: seq<real>)
    returns (next: nat)
    requires 1 <= window && i < len && len + window - 1 <= fd.Length == |orig|
    requires fd[..] == Averaged(orig, i, window)
    modifies fd
    ensures next == i + 1 && fd[..] == Averaged(orig, next, window)
  {
    var j := 1;
    assert Averaged(orig, i, window)[i := WindowSum(orig, i, j)] == Averaged(orig, i, window);
    while j < window
      invariant 1 <= j <= window && fd[..] == Averaged(orig, i, window)[i := WindowSum(orig, i, j)]
      decreases window - j
    {
      j := AvgAdd(fd, len, window, i, j, orig);
    }
    fd[i] := fd[i] / window as real;
    next := i + 1;
  }

  /**
   * `Avg_`: a moving average in place. A window of 1 changes nothing;
   * otherwise bin i < len becomes the mean of the ORIGINAL bins
   * i .. i + window − 1, because the loop only reads bins above i, which it
   * has not updated yet. The buffer needs window − 1 bins of padding past len.
   */
  method Avg(fd: array<real>, len: nat, window: nat)
    requires 1 <= window && len + window - 1 <= fd.Length
    modifies fd
    ensures fd[..] == Averaged(old(fd[..]), len, window)
  {
    ghost var orig := fd[..];
    if window == 1 {
      AveragedOne(orig, len);
      return;
    }
    var i := 0;
    assert Averaged(orig, 0, window) == orig;
    while i < len
      invariant i <= len && fd[..] == Averaged(orig, i, window)
      decreases len - i
    {
      i := AvgBin(fd, len, window, i, orig);
    }
  }

  // ---------------------------------------------------------------------
  // Construction
  // ---------------------------------------------------------------------

  /** The arguments the constructor refuses with `invalid_argument`; half the rate is an integer division. */
  predicate ArgsInvalid(td: Option<seq<real>>, tdLen: nat, samplerate: nat, fLow: real, fHigh: real)
  {
    td.None? || tdLen == 0 || fLow >= fHigh || fHigh > (samplerate / 2) as real
  }

  /** `timeDomain2ComplexVector` of the samples to `size` points: the samples, then zeros. */
  function Padded(td: seq<real>, tdLen: nat, size: nat): (x: seq<Complex>)
    requires tdLen <= |td|
    ensures |x| == size
  {
    seq(size, i requires 0 <= i < size => if i < tdLen then Complex(td[i], 0.0) else Zero)
  }

  /** The initial `fd_len_`: the bins up to the high cut-off, rounded up. */
  function HighBins(fHigh: real, size: nat, samplerate: nat): nat
    requires samplerate > 0 && fHigh >= 0.0
  {
    FreqToIdx(fHigh, size, samplerate, Ceil) + 1
  }

  /** `f_low_idx`: 0 for a zero low cut-off, otherwise the bin of fLow rounded down. */
  function LowBin(fLow: real, size: nat, samplerate: nat): nat
    requires samplerate > 0 && fLow >= 0.0
  {
    if fLow == 0.0 then 0 else FreqToIdx(fLow, size, samplerate, Floor)
  }

  /** The magnitudes buffer: `fd_len_ + CFG_FFT_AVG_WINDOW − 1` bins. */
  function PolarBufferLength(highBins: nat): nat
  {
    highBins + CfgFftAvgWindow - 1
  }

  /**
   * As written, `fd_len_` is overwritten with the count `ToPolar_` returns,
   * min(buffer length, N/2), and `Avg_` averages that many bins.
   */
  function AvgBinsAsWritten(highBins: nat, size: nat): nat
  {
    Min(PolarBufferLength(highBins), size / 2)
  }

  /**
   * Whenever `ToPolar_` converts the whole buffer, `Avg_` as written needs
   * window − 1 more bins than the buffer has: it reads past its end.
   */
  lemma AvgOverreadAsWritten(highBins: nat, size: nat)
    requires PolarBufferLength(highBins) <= size / 2
    ensures AvgBinsAsWritten(highBins, size) + CfgFftAvgWindow - 1 > PolarBufferLength(highBins)
  {
  }

  /**
   * The chord detector's call: 4096 samples at 44100 Hz between 82.4 and
   * 4186 Hz. The buffer has 391 bins, `Avg_` as written averages 391 bins
   * and so reads bin 391.
   */
  lemma AvgOverreadExample()
    ensures TransformSize(4096) == 4096
    ensures HighBins(4186.0, 4096, 44100) == 390 && PolarBufferLength(390) == 391
    ensures AvgBinsAsWritten(390, 4096) == 391 && AvgBinsAsWritten(390, 4096) + CfgFftAvgWindow - 1 > 391
  {
    assert BinPosition(4186.0, 4096, 44100) == 17145856.0 / 44100.0;
  }

  /** The bins `ToPolar_` converts into the magnitudes buffer: min(buffer length, N/2). */
  function ConvertedBins(x: seq<Complex>, highBins: nat): (len: nat)
    ensures len <= PolarBufferLength(highBins) && len <= |x| / 2
    ensures len == PolarBufferLength(highBins) || len == |x| / 2
  {
    Min(PolarBufferLength(highBins), |x| / 2)
  }

  /**
   * The bins the moving average covers. When every bin `Avg_` reads lies
   * among the `fd_len_` entries that the memset zeroed, that is all the
   * converted bins, as written. Otherwise `Avg_` as written would read an
   * entry the memset left alone, or one past the buffer; there the average
   * stops window − 1 bins earlier (corrected as in the `Avg_` Findings row).
   */
  function PolarBins(x: seq<Complex>, highBins: nat): (bins: nat)
    requires |x| >= 2
    ensures bins + CfgFftAvgWindow - 1 <= PolarBufferLength(highBins)
  {
    var len := ConvertedBins(x, highBins);
    if len + CfgFftAvgWindow - 1 <= highBins then len else len - (CfgFftAvgWindow - 1)
  }

  /**
   * `PolarBins` keeps the as-written count exactly when the reads of `Avg_`
   * stay inside the zeroed entries, and is window − 1 less otherwise.
   */
  lemma PolarBinsAgreeInsideZeroed(x: seq<Complex>, highBins: nat)
    requires |x| >= 2
    ensures PolarBins(x, highBins) == AvgBinsAsWritten(highBins, |x|) <==>
      AvgBinsAsWritten(highBins, |x|) + CfgFftAvgWindow - 1 <= highBins
    ensures PolarBins(x, highBins) != AvgBinsAsWritten(highBins, |x|) ==>
      PolarBins(x, highBins) + CfgFftAvgWindow - 1 == AvgBinsAsWritten(highBins, |x|)
  {
  }

  /**
   * A full-band transform: 4096 points at 44100 Hz up to 22050 Hz. Then
   * `fd_len_` is 2049, `ToPolar_` converts 2048 bins, and `Avg_` reads bin
   * 2048, which the memset zeroed; all 2048 bins are averaged.
   */
  lemma NyquistEdgeExample(x: seq<Complex>)
    requires |x| == 4096
    ensures HighBins(22050.0, 4096, 44100) == 2049
    ensures ConvertedBins(x, 2049) == 2048 && PolarBins(x, 2049) == 2048
  {
    assert BinPosition(22050.0, 4096, 44100) == 2048.0;
  }

  /**
   * The magnitudes the constructor keeps in polar notation: the converted
   * magnitudes in a zeroed buffer, with the moving average over `PolarBins`
   * bins, so that every bin read lies inside the buffer.
   */
  function PolarSpectrum(x: seq<Complex>, highBins: nat, lowBin: nat, sqrt: real -> real): (r: seq<real>)
    requires |x| >= 2
    ensures |r| == PolarBufferLength(highBins)
  {
    var buf := seq(PolarBufferLength(highBins), _ => 0.0);
    Averaged(Magnitudes(buf, x, lowBin, ConvertedBins(x, highBins), sqrt), PolarBins(x, highBins), CfgFftAvgWindow)
  }

  /**
   * Each kept magnitude is the mean of two neighbouring magnitudes, where a
   * bin below the low cut-off or not converted counts as zero.
   */
  lemma PolarSpectrumBins(x: seq<Complex>, highBins: nat, lowBin: nat, sqrt: real -> real, k: nat)
    requires |x| >= 2 && k < PolarBins(x, highBins)
    ensures PolarSpectrum(x, highBins, lowBin, sqrt)[k] ==
      ((if lowBin <= k then Magnitude(x[k], sqrt) else 0.0) +
       (if lowBin <= k + 1 < ConvertedBins(x, highBins) then Magnitude(x[k + 1], sqrt) else 0.0)) / 2.0
  {
    var buf := seq(PolarBufferLength(highBins), _ => 0.0);
    var m := Magnitudes(buf, x, lowBin, ConvertedBins(x, highBins), sqrt);
    assert WindowSum(m, k, 2) == m[k] + m[k + 1];
  }

  /** The padded samples, transformed in a fresh array of `n` points (with the corrected bit-reversal sort). */
  method Spectrum(td: seq<real>, tdLen: nat, n: nat, twiddle: (nat, nat) -> Complex) returns (a: array<Complex>)
    requires tdLen <= |td| && tdLen <= n && IsPowerOf2Size(n) && n <= 0x8000_0000
    ensures fresh(a) && a[..] == Transform(Padded(td, tdLen, n), twiddle)
  {
    var x := TimeDomain2ComplexVector(td, tdLen, n);
    assert x == Padded(td, tdLen, n);
    a := new Complex[n](i requires 0 <= i < n => x[i]);
    assert a[..] == x;
    var _ := Forward(a, twiddle);
  }

  /** The polar branch of the constructor: magnitudes into a zeroed buffer, then the moving average. */
  method PolarBuffer(x: seq<Complex>, highBins: nat, lowBin: nat, sqrt: real -> real) returns (bins: nat, mags: seq<real>)
    requires |x| >= 2
    ensures bins == PolarBins(x, highBins) && mags == PolarSpectrum(x, highBins, lowBin, sqrt)
    ensures bins <= |mags|
  {
    var buf := new real[PolarBufferLength(highBins)](_ => 0.0);
    assert buf[..] == seq(PolarBufferLength(highBins), _ => 0.0);
    var converted := ToPolarMagnitudes(x, buf, PolarBufferLength(highBins), lowBin, sqrt);
    bins := if converted.value + CfgFftAvgWindow - 1 <= highBins then converted.value
            else converted.value - (CfgFftAvgWindow - 1);
    Avg(buf, bins, CfgFftAvgWindow);
    mags := buf[..];
  }

  class Fft {
    var size: nat
    var samplerate: nat
    var polar: bool
    var fdLen: nat
    /** `fd_.r()`: the rectangular spectrum; empty in polar notation. */
    var rect: seq<Complex>
    /** `fd_.p`: the magnitudes buffer; empty in rectangular notation. */
    var magnitudes: seq<real>

    predicate Valid()
      reads this
    {
      IsPowerOf2Size(size) && CfgWindowSize <= size <= 0x8000_0000 && samplerate > 0 &&
      (polar ==> rect == []) &&
      (!polar ==> |rect| == size && magnitudes == [])
    }

    /**
     * `FFT::FFT` on arguments it accepts: pads the samples to `size_`
     * points, transforms them and keeps either the rectangular spectrum with
     * the bins below the low cut-off zeroed, or the moving-averaged
     * magnitudes (passed through the harmonic product spectrum when `hps`).
     */
    constructor (td: seq<real>, tdLen: nat, samplerate: nat, fLow: real, fHigh: real, polar: bool, hps: bool,
                 twiddle: (nat, nat) -> Complex, sqrt: real -> real, toHps: (seq<real>, nat) -> seq<real>)
      requires !ArgsInvalid(Some(td), tdLen, samplerate, fLow, fHigh)
      requires tdLen <= |td| && tdLen <= 0x8000_0000 && fLow >= 0.0
      ensures Valid() && this.samplerate == samplerate && this.polar == polar
      ensures size == TransformSize(tdLen)
      ensures !polar ==> fdLen == HighBins(fHigh, size, samplerate)
      ensures !polar ==> rect == LowCut(Transform(Padded(td, tdLen, size), twiddle), LowBin(fLow, size, samplerate))
      ensures polar ==> fdLen == PolarBins(Padded(td, tdLen, size), HighBins(fHigh, size, samplerate))
      ensures polar ==>
        var spectrum := PolarSpectrum(Transform(Padded(td, tdLen, size), twiddle), HighBins(fHigh, size, samplerate),
                                      LowBin(fLow, size, samplerate), sqrt);
        magnitudes == if hps then toHps(spectrum, fdLen) else spectrum
    {
      var n := TransformSize(tdLen);
      TransformSizeIsLeast(tdLen, 0);
      var highBins := HighBins(fHigh, n, samplerate);
      var lowBin := LowBin(fLow, n, samplerate);
      LowBinInRange(fLow, fHigh, n, samplerate);
      var a := Spectrum(td, tdLen, n, twiddle);
      this.size := n;
      this.samplerate := samplerate;
      this.polar := polar;
      if !polar {
        AttLowFreqs(a, lowBin);
        this.fdLen := highBins;
        this.rect := a[..];
        this.magnitudes := [];
      } else {
        var bins, mags := PolarBuffer(a[..], highBins, lowBin, sqrt);
        this.fdLen := bins;
        this.rect := [];
        this.magnitudes := if hps then toHps(mags, bins) else mags;
      }
    }

    /** `Inverse(input)`: refused in polar notation; otherwise the inverse transform of input, in place. */
    method Inverse(input: array<Complex>, twiddle: (nat, nat) -> Complex) returns (failure: Option<string>)
      requires input.Length == 0 || (IsPowerOf2Size(input.Length) && input.Length <= 0x8000_0000)
      modifies input
      ensures polar ==> failure == Some(PolarInverse) && input[..] == old(input[..])
      ensures !polar ==> (failure.Some? <==> input.Length == 0) && (failure.Some? ==> failure.value == EmptyInput)
      ensures !polar && input.Length > 0 ==> input[..] == InverseFrom(old(input[..]), 0, twiddle)
    {
      if polar {
        return Some(PolarInverse);
      }
      failure := InverseInPlace(input, 0, twiddle);
    }

    /** `Inverse()`: the same on the object's own rectangular spectrum. */
    method InverseSpectrum(twiddle: (nat, nat) -> Complex) returns (failure: Option<string>)
      requires Valid()
      modifies this
      ensures Valid() && size == old(size) && samplerate == old(samplerate) && polar == old(polar)
      ensures fdLen == old(fdLen) && magnitudes == old(magnitudes)
      ensures polar ==> failure == Some(PolarInverse) && rect == old(rect)
      ensures !polar ==> failure.None? && rect == InverseFrom(old(rect), 0, twiddle)
    {
      if polar {
        return Some(PolarInverse);
      }
      var a := new Complex[|rect|](i requires 0 <= i < |rect| reads this => rect[i]);
      assert a[..] == rect;
      failure := Inverse(a, twiddle);
      rect := a[..];
    }
  }

  /**
   * The constructor as called: `invalid_argument` for a missing or empty
   * input, fLow >= fHigh or fHigh above half the (integer) sample rate.
   * Negative frequencies would reach an undefined conversion and are
   * excluded, as are inputs too long for a 32-bit power of two.
   */
  method New(td: Option<seq<real>>, tdLen: nat, samplerate: nat, fLow: real, fHigh: real, polar: bool, hps: bool,
             twiddle: (nat, nat) -> Complex, sqrt: real -> real, toHps: (seq<real>, nat) -> seq<real>)
    returns (r: Result<Fft>)
    requires td.Some? ==> tdLen <= |td.value|
    requires tdLen <= 0x8000_0000 && fLow >= 0.0
    ensures r.Err? <==> ArgsInvalid(td, tdLen, samplerate, fLow, fHigh)
    ensures r.Err? ==> r.msg == InvalidArgument
    ensures r.Ok? ==> fresh(r.value) && r.value.Valid() && r.value.polar == polar && r.value.samplerate == samplerate
    ensures r.Ok? ==> r.value.size == TransformSize(tdLen)
    ensures r.Ok? && polar ==>
      r.value.fdLen == PolarBins(Padded(td.value, tdLen, r.value.size), HighBins(fHigh, r.value.size, samplerate))
    ensures r.Ok? && polar ==>
      var spectrum := PolarSpectrum(Transform(Padded(td.value, tdLen, r.value.size), twiddle),
                                    HighBins(fHigh, r.value.size, samplerate), LowBin(fLow, r.value.size, samplerate), sqrt);
      r.value.magnitudes == if hps then toHps(spectrum, r.value.fdLen) else spectrum
  {
    if ArgsInvalid(td, tdLen, samplerate, fLow, fHigh) {
      return Err(InvalidArgument);
    }
    var f := new Fft(td.value, tdLen, samplerate, fLow, fHigh, polar, hps, twiddle, sqrt, toHps);
    r := Ok(f);
  }
}
