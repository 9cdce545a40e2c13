/**
 * `PitchClsProfile` (pcp_t): a vector of pitch-class energies, 12 entries
 * (treble only) or 24 (bass then treble), with its running maximum.
 *
 * The loops of the source count with a `uint8_t`, so they only terminate for
 * profiles of at most 255 entries; the methods that loop require that.
 */
module PitchClsProfiles {
  import opened Wrappers
  import opened LmTypes
  import opened Helpers

  const DistanceSizeErr: string := "euclideanDistance(): wrong vector size"

  /** Σ a[i]·b[i], accumulated from the front as the source does. */
  function Dot(a: seq<real>, b: seq<real>): real
    requires |a| == |b|
  {
    if |a| == 0 then 0.0 else Dot(a[..|a| - 1], b[..|b| - 1]) + a[|a| - 1] * b[|b| - 1]
  }

  /**
   * Σ (a[i] − b[i])², the square of `euclideanDistance`. The square root is
   * left out: every caller only compares distances.
   */
  function SqDist(a: seq<real>, b: seq<real>): real
    requires |a| == |b|
  {
    if |a| == 0 then 0.0
    else SqDist(a[..|a| - 1], b[..|b| - 1]) + (a[|a| - 1] - b[|b| - 1]) * (a[|a| - 1] - b[|b| - 1])
  }

  /** Σ term(a[i], b[i]): the Kullback-Leibler sum with `x·log10(x/y)` left abstract. */
  function TermSum(a: seq<real>, b: seq<real>, term: (real, real) -> real): real
    requires |a| == |b|
  {
    if |a| == 0 then 0.0 else TermSum(a[..|a| - 1], b[..|b| - 1], term) + term(a[|a| - 1], b[|b| - 1])
  }

  lemma {:induction false} DotSymmetric(a: seq<real>, b: seq<real>)
    requires |a| == |b|
    ensures Dot(a, b) == Dot(b, a)
    decreases |a|
  {
    if |a| > 0 { DotSymmetric(a[..|a| - 1], b[..|b| - 1]); }
  }

  /** The distance is symmetric and non-negative. */
  lemma {:induction false} SqDistMetric(a: seq<real>, b: seq<real>)
    requires |a| == |b|
    ensures SqDist(a, b) == SqDist(b, a)
    ensures SqDist(a, b) >= 0.0
    decreases |a|
  {
    if |a| > 0 {
      var n := |a| - 1;
      SqDistMetric(a[..n], b[..n]);
      var d := a[n] - b[n];
      assert d * d >= 0.0;
      assert (b[n] - a[n]) * (b[n] - a[n]) == d * d;
    }
  }

  lemma {:induction false} SqDistSelf(a: seq<real>)
    ensures SqDist(a, a) == 0.0
    decreases |a|
  {
    if |a| > 0 { SqDistSelf(a[..|a| - 1]); }
  }

  /** The profile with element i divided by m: `__normalize` and `/=`. */
  function Scaled(s: seq<real>, m: real): (r: seq<real>)
    requires m != 0.0
    ensures |r| == |s| && forall i :: 0 <= i < |s| ==> r[i] * m == s[i]
  {
    seq(|s|, i requires 0 <= i < |s| => s[i] / m)
  }

  class PitchClsProfile {
    var pcp: seq<real>
    var pitchClsMax: real

    /** The default constructor: 24 zeros (bass and treble halves), maximum 0. */
    constructor ()
      ensures |pcp| == 2 * NotesTotal
      ensures forall i :: 0 <= i < |pcp| ==> pcp[i] == 0.0
      ensures pitchClsMax == 0.0
    {
      pcp := seq(2 * NotesTotal, _ => 0.0);
      pitchClsMax := 0.0;
    }

    /**
     * A profile with given entries and maximum, standing for the FFT- and
     * spectrum-based constructors, whose arithmetic is not part of this model.
     */
    constructor FromValues(values: seq<real>, max: real)
      ensures pcp == values && pitchClsMax == max
    {
      pcp := values;
      pitchClsMax := max;
    }

    /** `__normalize`: unchanged for a zero maximum, else every entry over the maximum. */
    method Normalize()
      requires |pcp| <= 255
      modifies this
      ensures pitchClsMax == old(pitchClsMax)
      ensures old(pitchClsMax) == 0.0 ==> pcp == old(pcp)
      ensures old(pitchClsMax) != 0.0 ==> pcp == Scaled(old(pcp), old(pitchClsMax))
    {
      if pitchClsMax == 0.0 {
        return;
      }
      var i := 0;
      while i < |pcp|
        invariant 0 <= i <= |pcp| == |old(pcp)|
        invariant pitchClsMax == old(pitchClsMax) != 0.0
        invariant forall j :: 0 <= j < i ==> pcp[j] == old(pcp)[j] / pitchClsMax
        invariant forall j :: i <= j < |pcp| ==> pcp[j] == old(pcp)[j]
      {
        pcp := pcp[i := pcp[i] / pitchClsMax];
        i := i + 1;
      }
    }

    /**
     * `getPitchCls`: fails for a note outside [C, B]; otherwise reads slot
     * (note − C + 12·treble) mod size, so a 12-entry profile answers the same
     * for bass and treble.
     */
    method GetPitchCls(note: int, isTreble: bool) returns (r: Result<real>)
      requires |pcp| > 0
      ensures !IsNote(note) <==> r.Err?
      ensures r.Ok? ==> r.value == pcp[(note - NoteMin + (if isTreble then NotesTotal else 0)) % |pcp|]
      ensures r.Ok? && |pcp| == NotesTotal ==> r.value == pcp[note - NoteMin]
      ensures r.Ok? && |pcp| == 2 * NotesTotal ==> r.value == pcp[note - NoteMin + (if isTreble then NotesTotal else 0)]
    {
      if note < NoteMin || note > NoteMax {
        return Err("Invalid note");
      }
      var idx := (note - NoteMin + (if isTreble then NotesTotal else 0)) % |pcp|;
      return Ok(pcp[idx]);
    }

    /** `size()`: the entry count. */
    method Size() returns (n: nat)
      ensures n == |pcp|
    {
      return |pcp|;
    }

    /** `sumProduct`: fails on a size mismatch, else Σ pcp[i]·v[i]. */
    method SumProduct(v: seq<real>) returns (r: Result<real>)
      requires |pcp| <= 255
      ensures r.Err? <==> |v| != |pcp|
      ensures r.Ok? ==> r.value == Dot(pcp, v)
    {
      if |v| != |pcp| {
        return Err("sumProduct(): wrong vector size");
      }
      var sum := 0.0;
      var i := 0;
      while i < |pcp|
        invariant 0 <= i <= |pcp|
        invariant sum == Dot(pcp[..i], v[..i])
      {
        assert pcp[..i + 1][..i] == pcp[..i] && v[..i + 1][..i] == v[..i];
        sum := sum + pcp[i] * v[i];
        i := i + 1;
      }
      assert pcp[..i] == pcp && v[..i] == v;
      return Ok(sum);
    }

    /**
     * `euclideanDistance`: fails on a size mismatch, else the square root,
     * through the parameter `sqrt`, of the sum of squared differences. With
     * the true square root that is the non-negative number whose square is
     * that sum.
     */
    method EuclideanDistance(v: seq<real>, sqrt: real -> real) returns (r: Result<real>)
      requires |pcp| <= 65535
      ensures r.Err? <==> |v| != |pcp|
      ensures r.Ok? ==> r.value == sqrt(SqDist(pcp, v))
      ensures r.Ok? && IsSquareRoot(sqrt) ==> r.value >= 0.0 && r.value * r.value == SqDist(pcp, v)
      ensures r.Err? ==> r.msg == DistanceSizeErr
    {
      if |v| != |pcp| {
        return Err(DistanceSizeErr);
      }
      var sum := 0.0;
      var i := 0;
      while i < |pcp|
        invariant 0 <= i <= |pcp|
        invariant sum == SqDist(pcp[..i], v[..i])
      {
        assert pcp[..i + 1][..i] == pcp[..i] && v[..i + 1][..i] == v[..i];
        var diff := pcp[i] - v[i];
        sum := sum + diff * diff;
        i := i + 1;
      }
      assert pcp[..i] == pcp && v[..i] == v;
      SqDistMetric(pcp, v);
      return Ok(sqrt(sum));
    }

    /**
     * `divergenceKullbackLeibler`: fails on a size mismatch, else the sum of
     * the per-entry terms (the logarithm is a parameter).
     */
    method DivergenceKullbackLeibler(v: seq<real>, term: (real, real) -> real) returns (r: Result<real>)
      requires |pcp| <= 255
      ensures r.Err? <==> |v| != |pcp|
      ensures r.Ok? ==> r.value == TermSum(pcp, v, term)
    {
      if |v| != |pcp| {
        return Err("divergenceKullbackLeibler(): wrong vector size");
      }
      var d := 0.0;
      var i := 0;
      while i < |pcp|
        invariant 0 <= i <= |pcp|
        invariant d == TermSum(pcp[..i], v[..i], term)
      {
        assert pcp[..i + 1][..i] == pcp[..i] && v[..i + 1][..i] == v[..i];
        d := d + term(pcp[i], v[i]);
        i := i + 1;
      }
      assert pcp[..i] == pcp && v[..i] == v;
      return Ok(d);
    }

    /**
     * `operator+=`: adds the other profile entry by entry over this profile's
     * length (reading past a shorter operand is undefined, hence the
     * precondition); `p += p` doubles every entry.
     */
    method PlusAssign(other: PitchClsProfile)
      requires |pcp| <= 255 && |other.pcp| >= |pcp|
      modifies this
      ensures |pcp| == |old(pcp)|
      ensures forall i :: 0 <= i < |pcp| ==> pcp[i] == old(pcp)[i] + old(other.pcp)[i]
      ensures pitchClsMax == old(pitchClsMax)
    {
      var i := 0;
      ghost var theirs := other.pcp;
      while i < |pcp|
        invariant 0 <= i <= |pcp| == |old(pcp)|
        invariant forall j :: 0 <= j < i ==> pcp[j] == old(pcp)[j] + theirs[j]
        invariant forall j :: i <= j < |pcp| ==> pcp[j] == old(pcp)[j]
        invariant other == this ==> other.pcp == pcp
        invariant other != this ==> other.pcp == theirs
        invariant pitchClsMax == old(pitchClsMax)
      {
        pcp := pcp[i := pcp[i] + other.pcp[i]];
        i := i + 1;
      }
    }

    /** `operator/=`: every entry divided by the denominator. */
    method DivAssign(denominator: real)
      requires |pcp| <= 255 && denominator != 0.0
      modifies this
      ensures pcp == Scaled(old(pcp), denominator)
      ensures pitchClsMax == old(pitchClsMax)
    {
      var i := 0;
      while i < |pcp|
        invariant 0 <= i <= |pcp| == |old(pcp)|
        invariant pitchClsMax == old(pitchClsMax)
        invariant forall j :: 0 <= j < i ==> pcp[j] == old(pcp)[j] / denominator
        invariant forall j :: i <= j < |pcp| ==> pcp[j] == old(pcp)[j]
      {
        pcp := pcp[i := pcp[i] / denominator];
        i := i + 1;
      }
    }
  }
}
