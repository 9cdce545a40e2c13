/**
 * The moving-average filter that smooths and downsamples the envelope:
 * the input is cut into chunks of `df` samples (the last one possibly
 * shorter) and each chunk gives one output, its sum divided by the chunk
 * length plus one.
 */
module MaFilters {
  /** `CFG_MA_FILT_DF_DEFAULT`: the default downsampling factor. */
  const DefaultDf: nat := 15

  /** The sum of s[lo .. hi − 1], accumulated left to right. */
  function RangeSum(s: seq<real>, lo: nat, hi: nat): real
    requires lo <= hi <= |s|
    decreases hi - lo
  {
    if lo == hi then 0.0 else RangeSum(s, lo, hi - 1) + s[hi - 1]
  }

  /** A sum over equal values is the count times the value. */
  lemma {:induction false} RangeSumConstant(s: seq<real>, lo: nat, hi: nat, c: real)
    requires lo <= hi <= |s|
    requires forall i :: lo <= i < hi ==> s[i] == c
    ensures RangeSum(s, lo, hi) == (hi - lo) as real * c
    decreases hi - lo
  {
    if lo < hi {
      RangeSumConstant(s, lo, hi - 1, c);
      assert (hi - 1 - lo) as real * c + c == (hi - lo) as real * c;
    }
  }

  /** The number of outputs: one per started chunk, ⌈samples / df⌉. */
  function ChunkCount(samples: nat, df: nat): nat
    requires df > 0
  {
    (samples + df - 1) / df
  }

  /** Chunk k exists exactly when it starts before the end of the samples. */
  lemma ChunkStarts(samples: nat, df: nat, k: nat)
    requires df > 0
    ensures k < ChunkCount(samples, df) <==> k * df < samples
  {
    var q := ChunkCount(samples, df);
    assert q * df <= samples + df - 1 < q * df + df;
    if k < q {
      assert (k + 1) * df <= q * df;
    } else {
      assert q * df <= k * df;
    }
  }

  /** The length of the chunk starting at i: df, or what is left of the samples. */
  function ChunkLength(samples: nat, df: nat, i: nat): nat
    requires i <= samples
  {
    if samples - i < df then samples - i else df
  }

  /** The output for the chunk starting at i: its sum over its length plus one. */
  function ChunkOutput(td: seq<real>, df: nat, i: nat): real
    requires i <= |td|
  {
    RangeSum(td, i, i + ChunkLength(|td|, df, i)) / (ChunkLength(|td|, df, i) + 1) as real
  }

  /** The filter's output: one value per chunk, chunk k starting at k·df. */
  function Filtered(td: seq<real>, df: nat): (r: seq<real>)
    requires df > 0
    ensures |r| == ChunkCount(|td|, df)
  {
    seq(ChunkCount(|td|, df), k requires 0 <= k < ChunkCount(|td|, df) =>
      ChunkStarts(|td|, df, k);
      ChunkOutput(td, df, k * df))
  }

  /** A chunk of equal values c gives c·len / (len + 1), not c. */
  lemma ChunkOutputConstant(td: seq<real>, df: nat, i: nat, c: real)
    requires i <= |td|
    requires forall j :: 0 <= j < |td| ==> td[j] == c
    ensures ChunkOutput(td, df, i) == ChunkLength(|td|, df, i) as real * c / (ChunkLength(|td|, df, i) + 1) as real
  {
    RangeSumConstant(td, i, i + ChunkLength(|td|, df, i), c);
  }

  /**
   * A constant input c does not come out as c: a full chunk gives
   * c·df / (df + 1), so the filter scales as well as averages.
   */
  lemma FilteredConstantFull(td: seq<real>, df: nat, c: real, k: nat)
    requires df > 0 && (k + 1) * df <= |td|
    requires forall i :: 0 <= i < |td| ==> td[i] == c
    ensures k < ChunkCount(|td|, df)
    ensures Filtered(td, df)[k] == df as real * c / (df + 1) as real
  {
    NextStart(k, df);
    ChunkStarts(|td|, df, k);
    var i := k * df;
    assert Filtered(td, df)[k] == ChunkOutput(td, df, i);
    assert ChunkLength(|td|, df, i) == df;
    ChunkOutputConstant(td, df, i, c);
  }

  /**
   * When the chunks reach 2^32, the 32-bit `i += df` after the last chunk
   * start wraps to a value below `samples`, so the loop goes on over the
   * samples again instead of ending.
   */
  lemma LastStartWraps(samples: nat, df: nat)
    requires 0 < df < 0x1_0000 && samples < 0x1_0000_0000
    requires ChunkCount(samples, df) * df >= 0x1_0000_0000
    ensures ChunkCount(samples, df) > 0
    ensures (ChunkCount(samples, df) - 1) * df < samples
    ensures ((ChunkCount(samples, df) - 1) * df + df) % 0x1_0000_0000 < samples
  {
    var q := ChunkCount(samples, df);
    ChunkStarts(samples, df, q - 1);
    NextStart(q - 1, df);
  }

  /** With two samples per chunk and 2^32 − 1 samples, the index wraps to 0. */
  lemma EvenChunksWrapToZero()
    ensures ChunkCount(0xFFFF_FFFF, 2) * 2 == 0x1_0000_0000
    ensures ((ChunkCount(0xFFFF_FFFF, 2) - 1) * 2 + 2) % 0x1_0000_0000 == 0
  {
  }

  lemma NextStart(k: nat, df: nat)
    ensures (k + 1) * df == k * df + df
  {
  }

  class MAFilter {
    /** The downsampling factor. */
    var df: nat

    /** `MAFilter()`: the default factor. */
    constructor Default()
      ensures df == DefaultDf
    {
      df := DefaultDf;
    }

    /** `MAFilter(df)`. */
    constructor (df: nat)
      ensures this.df == df
    {
      this.df := df;
    }

    /** `getDownsampleFactor`: the configured factor. */
    method GetDownsampleFactor() returns (r: nat)
      ensures r == df
    {
      r := df;
    }

    /** The inner loop: the sum of the chunk starting at i, and its length. */
    method ChunkSum(td: array<real>, samples: nat, i: nat) returns (tmp: real, j: nat)
      requires i <= samples <= td.Length
      ensures j == ChunkLength(samples, df, i) && tmp == RangeSum(td[..samples], i, i + j)
    {
      tmp := 0.0;
      j := 0;
      while j < df && i + j < samples
        invariant j <= df && i + j <= samples
        invariant tmp == RangeSum(td[..samples], i, i + j)
        decreases df - j
      {
        tmp := tmp + td[i + j];
        j := j + 1;
      }
    }

    /**
     * `process`: one output per chunk of df samples. A zero factor would
     * never advance the loop, and a last chunk ending at 2^32 or beyond
     * would wrap the 32-bit index back below `samples` (`LastStartWraps`),
     * hence the precondition. The samples are only read: no `modifies`
     * clause.
     */
    method Process(td: array<real>, samples: nat) returns (ret: seq<real>)
      requires df > 0 && samples <= td.Length
      requires ChunkCount(samples, df) * df < 0x1_0000_0000
      ensures ret == Filtered(td[..samples], df)
      ensures |ret| == ChunkCount(samples, df)
    {
      ghost var out := Filtered(td[..samples], df);
      ret := [];
      var i := 0;
      ghost var k := 0;
      while i < samples
        invariant i == k * df && k <= |out|
        invariant i < samples ==> k < |out|
        invariant ret == out[..k]
        decreases samples - i
      {
        var tmp, j := ChunkSum(td, samples, i);
        assert out[k] == ChunkOutput(td[..samples], df, i);
        ret := ret + [tmp / (j + 1) as real];
        i := i + df;
        NextStart(k, df);
        k := k + 1;
        ChunkStarts(samples, df, k);
      }
      ChunkStarts(samples, df, k);
      assert ret == out;
    }
  }
}
