/**
 * The constant-Q transform front end. The transform itself is computed by
 * an outside library; what this module keeps is what the wrapper does
 * with the library's answers: the column interval rounded to a multiple
 * of the library's column hop, the trimming of the latency columns, the
 * reversal of every column, and the aggregation of neighbouring columns
 * into one column per window before denoising.
 */
module CqtWrappers {
  import opened Wrappers
  import opened Helpers
  import opened MaFilters
  import opened Tfts

  const EmptyBlockErr: string := "Empty input block"

  /** round(winSize / hop) as `std::round` does it for a non-negative quotient: halves go up. */
  function RoundedQuotient(winSize: nat, hop: nat): nat
    requires hop > 0
  {
    (2 * winSize + hop) / (2 * hop)
  }

  /** `interval_`: the window length rounded to the nearest multiple of the column hop. */
  function RoundedInterval(winSize: nat, hop: nat): (r: nat)
    requires hop > 0
    ensures r % hop == 0
  {
    MultipleRemainder(RoundedQuotient(winSize, hop), hop);
    RoundedQuotient(winSize, hop) * hop
  }

  /** A whole number of hops leaves no remainder. */
  lemma MultipleRemainder(q: nat, h: nat)
    requires h > 0
    ensures (q * h) % h == 0
  {
    var k := q - (q * h) / h;
    assert k * h == (q * h) % h;
  }

  /** The interval is within half a hop of the window length; a tie rounds up. */
  lemma RoundedIntervalNear(winSize: nat, hop: nat)
    requires hop > 0
    ensures 2 * winSize < 2 * RoundedInterval(winSize, hop) + hop
    ensures 2 * RoundedInterval(winSize, hop) <= 2 * winSize + hop
  {
    var q := RoundedQuotient(winSize, hop);
    DivBounds(2 * winSize + hop, 2 * hop);
    TwiceProduct(q, hop);
  }

  /** No other multiple of the hop is as close to the window length. */
  lemma RoundedIntervalNearest(winSize: nat, hop: nat, m: nat)
    requires hop > 0 && m != RoundedQuotient(winSize, hop)
    ensures 2 * winSize + hop < 2 * (m * hop) || 2 * (m * hop) + hop <= 2 * winSize
  {
    RoundedIntervalNear(winSize, hop);
    var q := RoundedQuotient(winSize, hop);
    var r := q * hop;
    var x := m * hop;
    if m < q {
      MulStep(m, q, hop);
      OtherMultipleFar(winSize, hop, r, x, x + hop);
    } else {
      MulStep(q, m, hop);
      OtherMultipleFar(winSize, hop, r, x, r + hop);
    }
  }

  lemma MulStep(a: nat, b: nat, hop: nat)
    requires a < b
    ensures a * hop + hop <= b * hop
  {
    MulMonotoneNat(a + 1, b, hop);
  }

  /** The linear core: a multiple a hop away from one within half a hop is more than half a hop away. */
  lemma OtherMultipleFar(w: nat, hop: nat, r: nat, x: nat, step: nat)
    requires 2 * w < 2 * r + hop && 2 * r <= 2 * w + hop
    requires (step == x + hop && step <= r) || (step == r + hop && step <= x)
    ensures 2 * w + hop < 2 * x || 2 * x + hop <= 2 * w
  {
  }

  lemma DivBounds(x: nat, d: nat)
    requires d > 0
    ensures (x / d) * d <= x < (x / d) * d + d
  {
  }

  lemma TwiceProduct(q: nat, h: nat)
    ensures q * (2 * h) == 2 * (q * h)
  {
  }

  lemma MulMonotoneNat(a: nat, b: nat, hop: nat)
    requires a <= b
    ensures a * hop <= b * hop && (a + 1) * hop == a * hop + hop
  {
  }

  /** The sum of row j over columns lo .. hi − 1, accumulated left to right. */
  function RowSum(block: seq<seq<real>>, lo: nat, hi: nat, j: nat): real
    requires lo <= hi <= |block|
    requires forall c :: lo <= c < hi ==> j < |block[c]|
    decreases hi - lo
  {
    if lo == hi then 0.0 else RowSum(block, lo, hi - 1, j) + block[hi - 1][j]
  }

  /** Row sums over two adjacent column ranges add up. */
  lemma {:induction false} RowSumSplit(block: seq<seq<real>>, lo: nat, mid: nat, hi: nat, j: nat)
    requires lo <= mid <= hi <= |block|
    requires forall c :: lo <= c < hi ==> j < |block[c]|
    ensures RowSum(block, lo, mid, j) + RowSum(block, mid, hi, j) == RowSum(block, lo, hi, j)
    decreases hi - mid
  {
    if mid < hi {
      RowSumSplit(block, lo, mid, hi - 1, j);
    }
  }

  /** Every column of chunk k is at least as tall as the chunk's first column. */
  predicate ChunkFits(block: seq<seq<real>>, cpw: nat, k: nat)
    requires k * cpw < |block|
  {
    forall c :: k * cpw <= c < k * cpw + ChunkLength(|block|, cpw, k * cpw) ==> |block[k * cpw]| <= |block[c]|
  }

  /**
   * What the aggregation reads: for each chunk, as many rows of every
   * column as the chunk's first column has.
   */
  predicate RowsFit(block: seq<seq<real>>, cpw: nat)
  {
    forall k :: 0 <= k < |block| && k * cpw < |block| ==> ChunkFits(block, cpw, k)
  }

  /** Whether two blocks have the same number of columns and the same heights. */
  predicate SameShape(a: seq<seq<real>>, b: seq<seq<real>>)
  {
    |a| == |b| && forall c :: 0 <= c < |a| ==> |a[c]| == |b[c]|
  }

  /** Only the heights matter to what the aggregation reads. */
  lemma RowsFitSameShape(a: seq<seq<real>>, b: seq<seq<real>>, cpw: nat)
    requires SameShape(a, b) && RowsFit(a, cpw)
    ensures RowsFit(b, cpw)
  {
    forall k | 0 <= k < |b| && k * cpw < |b| ensures ChunkFits(b, cpw, k) {
      assert ChunkFits(a, cpw, k);
      var i := k * cpw;
      forall c | i <= c < i + ChunkLength(|b|, cpw, i) ensures |b[i]| <= |b[c]| {
        assert |a[i]| <= |a[c]|;
      }
    }
  }

  /** Row j of every column of chunk k exists when it exists in the chunk's first column. */
  lemma ChunkRowsExist(block: seq<seq<real>>, cpw: nat, k: nat, j: nat)
    requires RowsFit(block, cpw) && k * cpw < |block| && j < |block[k * cpw]|
    ensures forall c :: k * cpw <= c < k * cpw + ChunkLength(|block|, cpw, k * cpw) ==> j < |block[c]|
  {
    assert ChunkFits(block, cpw, k);
  }

  /** Column k of the aggregated block: row by row, the sum of the chunk's columns. */
  function AggregatedColumn(block: seq<seq<real>>, cpw: nat, k: nat): (r: seq<real>)
    requires RowsFit(block, cpw) && k * cpw < |block|
    ensures |r| == |block[k * cpw]|
  {
    var i := k * cpw;
    seq(|block[i]|, j requires 0 <= j < |block[i]| =>
      ChunkRowsExist(block, cpw, k, j);
      RowSum(block, i, i + ChunkLength(|block|, cpw, i), j))
  }

  /** The aggregated block: one column per chunk of cpw input columns. */
  function Aggregated(block: seq<seq<real>>, cpw: nat): (r: seq<seq<real>>)
    requires cpw > 0 && RowsFit(block, cpw)
    ensures |r| == ChunkCount(|block|, cpw)
  {
    seq(ChunkCount(|block|, cpw), k requires 0 <= k < ChunkCount(|block|, cpw) =>
      ChunkStarts(|block|, cpw, k);
      AggregatedColumn(block, cpw, k))
  }

  /**
   * Aggregation only regroups: for a row every column has, the row's total
   * over the aggregated block equals its total over the input.
   */
  lemma AggregatedKeepsRowTotal(block: seq<seq<real>>, cpw: nat, j: nat)
    requires cpw > 0 && RowsFit(block, cpw)
    requires forall c :: 0 <= c < |block| ==> j < |block[c]|
    ensures forall k :: 0 <= k < |Aggregated(block, cpw)| ==> j < |Aggregated(block, cpw)[k]|
    ensures RowSum(Aggregated(block, cpw), 0, |Aggregated(block, cpw)|, j) == RowSum(block, 0, |block|, j)
  {
    var a := Aggregated(block, cpw);
    forall k | 0 <= k < |a| ensures j < |a[k]| {
      ChunkStarts(|block|, cpw, k);
    }
    AggregatedPrefixTotal(block, cpw, j, |a|);
    ChunkStarts(|block|, cpw, |a|);
    if |a| > 0 {
      ChunkStarts(|block|, cpw, |a| - 1);
      NextStart(|a| - 1, cpw);
    }
  }

  /** The first k aggregated columns hold row j's total over the first min(k·cpw, n) input columns. */
  lemma {:induction false} AggregatedPrefixTotal(block: seq<seq<real>>, cpw: nat, j: nat, k: nat)
    requires cpw > 0 && RowsFit(block, cpw)
    requires forall c :: 0 <= c < |block| ==> j < |block[c]|
    requires k <= ChunkCount(|block|, cpw)
    requires forall m :: 0 <= m < |Aggregated(block, cpw)| ==> j < |Aggregated(block, cpw)[m]|
    ensures k * cpw <= |block| ==> RowSum(Aggregated(block, cpw), 0, k, j) == RowSum(block, 0, k * cpw, j)
    ensures k * cpw > |block| ==> RowSum(Aggregated(block, cpw), 0, k, j) == RowSum(block, 0, |block|, j)
  {
    if k > 0 {
      var a := Aggregated(block, cpw);
      AggregatedPrefixTotal(block, cpw, j, k - 1);
      ChunkStarts(|block|, cpw, k - 1);
      NextStart(k - 1, cpw);
      var i := (k - 1) * cpw;
      var len := ChunkLength(|block|, cpw, i);
      assert a[k - 1][j] == RowSum(block, i, i + len, j);
      RowSumSplit(block, 0, i, i + len, j);
    }
  }

  /** The converted block, or the error `ConvertRealBlock_` throws. */
  function Converted(block: seq<seq<real>>, cpw: nat, interval: nat, universal: nat -> real): (r: Result<seq<seq<real>>>)
    requires cpw > 1 ==> RowsFit(block, cpw)
  {
    if |block| == 0 then Err(EmptyBlockErr)
    else if cpw <= 1 then Ok(block)
    else DenoisedBlock(Aggregated(block, cpw), interval, universal)
  }

  /**
   * A converted block has one column per started chunk, each as tall as the
   * first column of its chunk, and every entry is 0 or the chunk's row sum;
   * an empty block is refused, and a window of at most one column keeps the
   * block as it is.
   */
  lemma ConvertedShape(block: seq<seq<real>>, cpw: nat, interval: nat, universal: nat -> real)
    requires cpw > 1 ==> RowsFit(block, cpw)
    ensures |block| == 0 ==> Converted(block, cpw, interval, universal) == Err(EmptyBlockErr)
    ensures |block| > 0 && cpw <= 1 ==> Converted(block, cpw, interval, universal) == Ok(block)
    ensures Converted(block, cpw, interval, universal).Ok? && cpw > 1 ==>
      var r := Converted(block, cpw, interval, universal).value;
      |r| == ChunkCount(|block|, cpw) &&
      forall k :: 0 <= k < |r| ==>
        (k * cpw < |block| && |r[k]| == |block[k * cpw]| &&
         forall j :: 0 <= j < |r[k]| ==> r[k][j] == 0.0 || r[k][j] == Aggregated(block, cpw)[k][j])
  {
    if |block| > 0 && cpw > 1 && Converted(block, cpw, interval, universal).Ok? {
      var a := Aggregated(block, cpw);
      DenoisedBlockShape(a, interval, universal);
      forall k | 0 <= k < |a| ensures k * cpw < |block| {
        ChunkStarts(|block|, cpw, k);
      }
    }
  }

  lemma DenoisedBlockShape(a: seq<seq<real>>, interval: nat, universal: nat -> real)
    requires DenoisedBlock(a, interval, universal).Ok?
    ensures |DenoisedBlock(a, interval, universal).value| == |a|
    ensures forall k :: 0 <= k < |a| ==>
      (|DenoisedBlock(a, interval, universal).value[k]| == |a[k]| &&
       forall j :: 0 <= j < |a[k]| ==>
         DenoisedBlock(a, interval, universal).value[k][j] == 0.0 || DenoisedBlock(a, interval, universal).value[k][j] == a[k][j])
  {
    forall k | 0 <= k < |a|
      ensures |a[k]| > 0
      ensures forall j :: 0 <= j < |a[k]| ==>
        DenoisedColumn(a[k], interval, universal)[j] == 0.0 || DenoisedColumn(a[k], interval, universal)[j] == a[k][j]
    {
      assert !HasEmptyColumn(a);
      DenoisedOnlyZeroes(a[k], Threshold(a[k], interval, universal).value);
    }
  }

  /** `Denoise_` on the aggregated block, a local of `ConvertRealBlock_`. */
  method DenoiseLocal(lsg: seq<seq<real>>, interval: nat, universal: nat -> real) returns (r: Result<seq<seq<real>>>)
    ensures r == DenoisedBlock(lsg, interval, universal)
  {
    var buf := new seq<real>[|lsg|](i requires 0 <= i < |lsg| => lsg[i]);
    assert buf[..] == lsg;
    var failure := DenoiseBlock(buf, interval, universal);
    if failure.Some? {
      assert HasEmptyColumn(lsg);
      return Err(failure.value);
    }
    assert !HasEmptyColumn(lsg);
    ghost var want := DenoisedBlock(lsg, interval, universal).value;
    assert forall k :: 0 <= k < |lsg| ==> buf[..][k] == want[k];
    assert buf[..] == want;
    r := Ok(buf[..]);
  }

  /** Every column reversed, as `std::reverse` leaves it. */
  function ColumnsReversed(block: seq<seq<real>>): (r: seq<seq<real>>)
    ensures |r| == |block|
  {
    seq(|block|, k requires 0 <= k < |block| => Reversed(block[k]))
  }

  function Reversed(s: seq<real>): (r: seq<real>)
    ensures |r| == |s|
  {
    seq(|s|, i requires 0 <= i < |s| => s[|s| - 1 - i])
  }

  /** Reversing twice gives the column back, and heights are kept. */
  lemma ColumnsReversedInvolutive(block: seq<seq<real>>)
    ensures ColumnsReversed(ColumnsReversed(block)) == block
    ensures forall k :: 0 <= k < |block| ==> |ColumnsReversed(block)[k]| == |block[k]|
  {
    forall k | 0 <= k < |block| ensures Reversed(Reversed(block[k])) == block[k] {
      assert forall i :: 0 <= i < |block[k]| ==> Reversed(Reversed(block[k]))[i] == block[k][i];
    }
  }

  /** Reverses every column of the block in place. */
  method ReverseColumns(block: array<seq<real>>)
    modifies block
    ensures block[..] == ColumnsReversed(old(block[..]))
  {
    ghost var orig := block[..];
    for k := 0 to block.Length
      invariant forall m :: 0 <= m < k ==> block[m] == Reversed(orig[m])
      invariant forall m :: k <= m < block.Length ==> block[m] == orig[m]
    {
      block[k] := Reversed(block[k]);
    }
    assert forall m :: 0 <= m < block.Length ==> block[..][m] == ColumnsReversed(orig)[m];
  }

  /** The inner loop: the sum of row j over the `columns` columns from i. */
  method RowValue(block: seq<seq<real>>, i: nat, columns: nat, j: nat) returns (v: real)
    requires i + columns <= |block|
    requires forall c :: i <= c < i + columns ==> j < |block[c]|
    ensures v == RowSum(block, i, i + columns, j)
  {
    v := 0.0;
    for c := 0 to columns
      invariant v == RowSum(block, i, i + c, j)
    {
      v := v + block[i + c][j];
    }
  }

  /** One aggregated column: the row sums of the chunk starting at column k·cpw. */
  method ChunkColumn(block: seq<seq<real>>, cpw: nat, k: nat) returns (col: seq<real>)
    requires cpw > 0 && RowsFit(block, cpw) && k * cpw < |block|
    ensures col == AggregatedColumn(block, cpw, k)
  {
    var i := k * cpw;
    var columns := if cpw < |block| - i then cpw else |block| - i;
    col := [];
    for j := 0 to |block[i]|
      invariant col == AggregatedColumn(block, cpw, k)[..j]
    {
      ChunkRowsExist(block, cpw, k, j);
      var v := RowValue(block, i, columns, j);
      col := col + [v];
    }
  }

  /** The aggregation loop: one column per chunk of cpw columns. */
  method Aggregate(block: seq<seq<real>>, cpw: nat) returns (lsg: seq<seq<real>>)
    requires cpw > 0 && RowsFit(block, cpw)
    ensures lsg == Aggregated(block, cpw)
  {
    ghost var out := Aggregated(block, cpw);
    lsg := [];
    var i := 0;
    var k := 0;
    ChunkStarts(|block|, cpw, 0);
    while i < |block|
      invariant i == k * cpw && k <= |out|
      invariant i < |block| ==> k < |out|
      invariant lsg == out[..k]
      decreases |block| - i
    {
      var col := ChunkColumn(block, cpw, k);
      lsg := lsg + [col];
      i := i + cpw;
      NextStart(k, cpw);
      k := k + 1;
      ChunkStarts(|block|, cpw, k);
    }
    ChunkStarts(|block|, cpw, k);
    assert lsg == out;
  }

  class CQTWrapper {
    /** The transform's parameters, spectrogram and interval. */
    const tft: TFT
    /** The library's column hop, in samples. */
    const columnHop: nat

    predicate Valid()
      reads this, tft
    {
      columnHop > 0
    }

    /**
     * `CQTWrapper(...)`: the base transform, with the frequency range the
     * library reports and an interval of the window length rounded to a
     * multiple of the library's column hop.
     */
    constructor (fLow: real, fHigh: real, bpo: nat, sampleRate: nat, winSize: nat, hopSize: nat,
                 minFreq: real, maxFreq: real, columnHop: nat)
      requires columnHop > 0
      ensures Valid() && fresh(tft)
      ensures tft.fMin == minFreq && tft.fMax == maxFreq && tft.bpo == bpo && tft.sampleRate == sampleRate
      ensures tft.winSize == winSize && tft.hopSize == hopSize && this.columnHop == columnHop
      ensures tft.spectrogram == [] && tft.interval == RoundedInterval(winSize, columnHop)
    {
      var t := new TFT(fLow, fHigh, bpo, sampleRate, winSize, hopSize);
      t.fMin := minFreq;
      t.fMax := maxFreq;
      t.interval := RoundedInterval(winSize, columnHop);
      tft := t;
      this.columnHop := columnHop;
    }

    /** The number of library columns in one window. */
    function ColsPerWindow(): nat
      reads this, tft
      requires Valid()
    {
      tft.interval / columnHop
    }

    /**
     * `ConvertRealBlock_`: refuses an empty block, keeps the block when a
     * window holds at most one column, and otherwise sums each chunk of
     * columns and denoises the result. The aggregation reads, for each
     * chunk, as many rows as its first column has.
     */
    method ConvertRealBlock(block: seq<seq<real>>, universal: nat -> real) returns (r: Result<seq<seq<real>>>)
      requires Valid() && (ColsPerWindow() > 1 ==> RowsFit(block, ColsPerWindow()))
      ensures r == Converted(block, ColsPerWindow(), tft.interval, universal)
    {
      if |block| == 0 {
        return Err(EmptyBlockErr);
      }
      var cpw := tft.interval / columnHop;
      if cpw <= 1 {
        return Ok(block);
      }
      var lsg := Aggregate(block, cpw);
      r := DenoiseLocal(lsg, tft.interval, universal);
    }

    /**
     * `Process`, from the library's output on: the latency / columnHop
     * leading columns are dropped, every column is reversed, and the block
     * is converted into the spectrogram. `raw` is the concatenated output
     * of the library's `process` and `getRemainingOutput` calls, and
     * `latency` its reported latency. A throw leaves the spectrogram as it was.
     */
    method Process(raw: seq<seq<real>>, latency: nat, universal: nat -> real) returns (failure: Option<string>)
      requires Valid() && latency / columnHop <= |raw|
      requires ColsPerWindow() > 1 ==> RowsFit(raw[latency / columnHop..], ColsPerWindow())
      modifies tft
      ensures tft.interval == old(tft.interval) && tft.winSize == old(tft.winSize) && tft.hopSize == old(tft.hopSize)
      ensures tft.fMin == old(tft.fMin) && tft.fMax == old(tft.fMax)
      ensures tft.bpo == old(tft.bpo) && tft.sampleRate == old(tft.sampleRate)
      ensures ColsPerWindow() > 1 ==> RowsFit(ColumnsReversed(raw[latency / columnHop..]), ColsPerWindow())
      ensures var res := Converted(ColumnsReversed(raw[latency / columnHop..]), ColsPerWindow(), tft.interval, universal);
        (res.Ok? ==> failure == None && tft.spectrogram == res.value) &&
        (res.Err? ==> failure == Some(res.msg) && tft.spectrogram == old(tft.spectrogram))
    {
      var d := latency / columnHop;
      var buf := new seq<real>[|raw| - d](i requires 0 <= i < |raw| - d => raw[d + i]);
      assert buf[..] == raw[d..];
      ReverseColumns(buf);
      var block := buf[..];
      ColumnsReversedInvolutive(raw[d..]);
      if ColsPerWindow() > 1 {
        RowsFitSameShape(raw[d..], block, ColsPerWindow());
      }
      var r := ConvertRealBlock(block, universal);
      if r.Err? {
        return Some(r.msg);
      }
      tft.spectrogram := r.value;
      failure := None;
    }
  }
}
