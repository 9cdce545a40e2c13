/**
 * A max-priority queue of FFT points keyed by magnitude. The queue is a
 * bag: its contents are a multiset, and the order in which the points are
 * kept is not observable.
 */
module PriorityQueues {
  import opened FftPoints

  /** The index of the first point of largest magnitude. */
  function MaxIndex(s: seq<FftPoint>): (r: nat)
    requires |s| > 0
    ensures r < |s|
    ensures forall j :: 0 <= j < |s| ==> !Less(s[r], s[j])
    ensures forall j :: 0 <= j < r ==> Less(s[j], s[r])
  {
    if |s| == 1 then 0
    else
      var m := MaxIndex(s[..|s| - 1]);
      assert forall j :: 0 <= j < |s| - 1 ==> s[..|s| - 1][j] == s[j];
      if Less(s[m], s[|s| - 1]) then |s| - 1 else m
  }

  /** s without its entry at i. */
  function RemoveAt(s: seq<FftPoint>, i: nat): (r: seq<FftPoint>)
    requires i < |s|
    ensures multiset(r) == multiset(s) - multiset{s[i]}
  {
    assert s == s[..i] + [s[i]] + s[i + 1..];
    s[..i] + s[i + 1..]
  }

  /**
   * Taking the maximum out twice gives non-increasing magnitudes: the
   * second maximum is no larger than the first.
   */
  lemma RemoveMaxNonIncreasing(s: seq<FftPoint>)
    requires |s| > 1
    ensures var i := MaxIndex(s);
      var rest := RemoveAt(s, i);
      !Less(s[i], rest[MaxIndex(rest)])
  {
    var i := MaxIndex(s);
    var rest := RemoveAt(s, i);
    var j := MaxIndex(rest);
    assert rest[j] in multiset(rest);
    assert rest[j] in multiset(s);
  }

  class PriorityQueue {
    /** The points in the queue, in no particular order. */
    var items: seq<FftPoint>

    /** `PriorityQueue()`: an empty queue. */
    constructor ()
      ensures items == []
    {
      items := [];
    }

    /** `insert`: adds one point. */
    method Insert(item: FftPoint)
      modifies this
      ensures multiset(items) == multiset(old(items)) + multiset{item}
      ensures |items| == |old(items)| + 1
    {
      items := items + [item];
    }

    /** The scan for the first point of largest magnitude. */
    method FindMax() returns (i: nat)
      requires |items| > 0
      ensures i == MaxIndex(items)
    {
      i := 0;
      var k := 1;
      while k < |items|
        invariant 1 <= k <= |items| && i == MaxIndex(items[..k])
      {
        assert items[..k + 1][..k] == items[..k];
        if Less(items[i], items[k]) {
          i := k;
        }
        k := k + 1;
      }
      assert items[..|items|] == items;
    }

    /**
     * `getMax`: a point of largest magnitude, queue unchanged. The top of
     * an empty `std::priority_queue` is undefined, hence the precondition.
     */
    method GetMax() returns (r: FftPoint)
      requires |items| > 0
      ensures r in multiset(items)
      ensures forall x :: x in multiset(items) ==> !Less(r, x)
    {
      var i := FindMax();
      r := items[i];
    }

    /** `delMax`: removes one occurrence of a point of largest magnitude and returns it. */
    method DelMax() returns (r: FftPoint)
      requires |items| > 0
      modifies this
      ensures r in multiset(old(items))
      ensures forall x :: x in multiset(old(items)) ==> !Less(r, x)
      ensures multiset(items) == multiset(old(items)) - multiset{r}
      ensures |items| == |old(items)| - 1
    {
      var i := FindMax();
      r := items[i];
      items := RemoveAt(items, i);
    }

    /** `isEmpty`: whether the queue holds no point. */
    method IsEmpty() returns (b: bool)
      ensures b <==> |items| == 0
    {
      b := |items| == 0;
    }

    /** `size`: the number of points. */
    method Size() returns (n: nat)
      ensures n == |items|
    {
      n := |items|;
    }
  }
}
