/** A point of an FFT spectrum: a bin index and its magnitude, ordered by magnitude only. */
module FftPoints {
  datatype FftPoint = FftPoint(sampleNumber: nat, magnitude: real)

  /** `operator<`: compares magnitudes and ignores the bin index. */
  function Less(p1: FftPoint, p2: FftPoint): (b: bool)
    ensures b ==> p1 != p2
    ensures p1.magnitude == p2.magnitude ==> !b
  {
    p1.magnitude < p2.magnitude
  }

  /**
   * The comparison is a strict weak ordering, as `std::priority_queue`
   * requires: irreflexive, transitive, and points with equal magnitudes
   * (whatever their bins) are interchangeable.
   */
  lemma LessIsStrictWeakOrder(a: FftPoint, b: FftPoint, c: FftPoint)
    ensures !Less(a, a)
    ensures Less(a, b) && Less(b, c) ==> Less(a, c)
    ensures !Less(a, b) && !Less(b, a) ==> (Less(a, c) <==> Less(b, c)) && (Less(c, a) <==> Less(c, b))
    ensures !Less(a, b) && !Less(b, a) <==> a.magnitude == b.magnitude
  {
  }
}
