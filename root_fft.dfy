/**
 * The stand-alone `FFT` of the repository root (fft.cpp), the copy the
 * unit tests exercise. Its bit reversal, exchange, bit-reversal sort and
 * forward transform are the ones of module `LmFft`; what differs is
 * `inverse`, whose conjugation and scaling loops start at index 1, and
 * `toPolar`, which always rewrites the first half of the input.
 */
module RootFft {
  import opened Wrappers
  import opened LmTypes
  import opened LmFft

  /**
   * `inverse` as written: refuses an empty input, then conjugates slots
   * 1..N−1, transforms, and conjugates and divides by N slots 1..N−1, so
   * slot 0 is neither conjugated nor scaled.
   */
  method InverseAsWritten(a: array<Complex>, twiddle: (nat, nat) -> Complex) returns (failure: Option<string>)
    requires a.Length == 0 || (IsPowerOf2Size(a.Length) && a.Length <= 0x8000_0000)
    modifies a
    ensures failure.Some? <==> a.Length == 0
    ensures failure.Some? ==> failure.value == EmptyInput
    ensures a.Length > 0 ==> a[..] == InverseFrom(old(a[..]), 1, twiddle)
  {
    if a.Length == 0 {
      return Some(EmptyInput);
    }
    failure := InverseInPlace(a, 1, twiddle);
  }

  /**
   * The two-point impulse [1, 0] is transformed to [1, 1]; `inverse` as
   * written turns that into [2, 0] instead of giving back [1, 0], while
   * the loops started at 0 do give it back.
   */
  lemma InverseAsWrittenCounterexample(twiddle: (nat, nat) -> Complex)
    requires twiddle(2, 0) == Complex(1.0, 0.0)
    ensures IsPowerOf2Size(2)
    ensures var x := [Complex(1.0, 0.0), Zero];
      InverseFrom(Transform(x, twiddle), 1, twiddle) == [Complex(2.0, 0.0), Zero] != x &&
      InverseFrom(Transform(x, twiddle), 0, twiddle) == x
  {
    var x := [Complex(1.0, 0.0), Zero];
    TransformTwo(x[0], x[1], twiddle);
    InverseRoundTripTwo(x[0], x[1], twiddle);
    var t := [Complex(1.0, 0.0), Complex(1.0, 0.0)];
    assert Transform(x, twiddle) == t;
    var c := MapRange(t, 1, 2, Conj);
    assert c == t;
    TransformTwo(c[0], c[1], twiddle);
    var u := [Complex(2.0, 0.0), Zero];
    assert Transform(c, twiddle) == u;
    assert MapRange(u, 1, 2, (z: Complex) => ConjScaled(z, 2)) == u;
  }

  /**
   * `toPolar`: refuses an empty input, otherwise rewrites the first N/2
   * bins in polar notation and leaves the rest.
   */
  method ToPolar(a: array<Complex>, sqrt: real -> real, atan: real -> real) returns (failure: Option<string>)
    modifies a
    ensures failure.Some? <==> a.Length == 0
    ensures failure.Some? ==> failure.value == EmptyInput
    ensures forall i :: 0 <= i < a.Length / 2 ==> a[i] == PolarOf(old(a[i]), sqrt, atan)
    ensures forall i :: a.Length / 2 <= i < a.Length ==> a[i] == old(a[i])
  {
    if a.Length == 0 {
      return Some(EmptyInput);
    }
    MapInPlace(a, 0, a.Length / 2, (x: Complex) => PolarOf(x, sqrt, atan));
    failure := None;
  }
}
