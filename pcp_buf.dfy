/**
 * `PCPBuf`: the pitch-class profiles gathered since the last chord change.
 * The buffer holds the profiles themselves (the source keeps pointers to
 * them and deletes them on `flush`; ownership is not modelled).
 */
module PcpBuffers {
  import opened Wrappers
  import opened LmTypes
  import opened PitchClsProfiles
  import opened Helpers

  /** `CFG_PCP_CHANGE_THRESHOLD`: the single-precision value of 1.4f. */
  const PcpChangeThreshold: real := 1.39999997615814208984375

  /**
   * Whether `v` departs from the buffered profiles: never for an empty
   * buffer; otherwise an error when `v` and the FIRST buffered profile differ
   * in size, else whether their distance is not below the threshold. With
   * the true square root, that is whether the squared distance reaches the
   * threshold squared.
   */
  function Changes(buffered: seq<seq<real>>, v: seq<real>, sqrt: real -> real): (r: Result<bool>)
    ensures |buffered| == 0 ==> r == Ok(false)
    ensures |buffered| > 0 ==> (r.Err? <==> |v| != |buffered[0]|)
    ensures |buffered| > 0 && r.Ok? && IsSquareRoot(sqrt) ==>
      (r.value <==> SqDist(v, buffered[0]) >= PcpChangeThreshold * PcpChangeThreshold)
  {
    if |buffered| == 0 then Ok(false)
    else if |v| != |buffered[0]| then Err(DistanceSizeErr)
    else
      SqDistMetric(v, buffered[0]);
      ChangeIsSquaredTest(SqDist(v, buffered[0]), sqrt);
      Ok(!(sqrt(SqDist(v, buffered[0])) < PcpChangeThreshold))
  }

  /** The threshold test on the root of a squared distance, as a test on the squared distance. */
  lemma ChangeIsSquaredTest(x: real, sqrt: real -> real)
    ensures IsSquareRoot(sqrt) && x >= 0.0 ==>
      (!(sqrt(x) < PcpChangeThreshold) <==> x >= PcpChangeThreshold * PcpChangeThreshold)
  {
    if IsSquareRoot(sqrt) && x >= 0.0 {
      RootAtLeast(sqrt(x), x, PcpChangeThreshold);
    }
  }

  /** Only the first buffered profile matters: later additions never change the answer. */
  lemma ChangesIgnoresLater(buffered: seq<seq<real>>, later: seq<seq<real>>, v: seq<real>, sqrt: real -> real)
    requires |buffered| > 0
    ensures Changes(buffered + later, v, sqrt) == Changes(buffered, v, sqrt)
  {
    assert (buffered + later)[0] == buffered[0];
  }

  /** A profile equal to the first one is no change, and the test is symmetric in the two profiles. */
  lemma ChangesFromFirst(first: seq<real>, rest: seq<seq<real>>, v: seq<real>, sqrt: real -> real)
    requires |v| == |first|
    ensures IsSquareRoot(sqrt) ==> Changes([first] + rest, first, sqrt) == Ok(false)
    ensures Changes([first] + rest, v, sqrt) == Changes([v], first, sqrt)
  {
    if IsSquareRoot(sqrt) {
      RootOfZero(sqrt);
    }
    SqDistSelf(first);
    SqDistMetric(v, first);
    assert ([first] + rest)[0] == first;
  }

  /** Σ vs[k][i] over the profiles, in buffer order. */
  function ColumnSum(vs: seq<seq<real>>, i: nat): real
    requires forall k :: 0 <= k < |vs| ==> i < |vs[k]|
  {
    if |vs| == 0 then 0.0 else ColumnSum(vs[..|vs| - 1], i) + vs[|vs| - 1][i]
  }

  /** The first n entries of the element-wise sum of the profiles. */
  function Sums(vs: seq<seq<real>>, n: nat): (r: seq<real>)
    requires forall k :: 0 <= k < |vs| ==> n <= |vs[k]|
    ensures |r| == n && forall i :: 0 <= i < n ==> r[i] == ColumnSum(vs, i)
  {
    seq(n, i requires 0 <= i < n => ColumnSum(vs, i))
  }

  /** Adding one more profile adds its entries to every column sum. */
  lemma SumsStep(vs: seq<seq<real>>, k: nat, n: nat)
    requires k < |vs| && forall j :: 0 <= j < |vs| ==> n <= |vs[j]|
    ensures forall i :: 0 <= i < n ==> Sums(vs[..k + 1], n)[i] == Sums(vs[..k], n)[i] + vs[k][i]
  {
    assert vs[..k + 1][..k] == vs[..k];
  }

  /** The mean of a single profile is that profile's first n entries. */
  lemma {:induction false} MeanOfOne(v: seq<real>, n: nat)
    requires n <= |v|
    ensures Scaled(Sums([v], n), 1.0) == v[..n]
  {
    forall i | 0 <= i < n ensures Scaled(Sums([v], n), 1.0)[i] == v[i] {
      assert [v][..0] == [];
      assert ColumnSum([v], i) == v[i];
    }
  }

  class PCPBuf {
    var profiles: seq<PitchClsProfile>

    constructor ()
      ensures profiles == []
    {
      profiles := [];
    }

    /** The buffered profiles' entries, in insertion order. */
    function Vectors(): (vs: seq<seq<real>>)
      reads this, profiles
      ensures |vs| == |profiles| && forall k :: 0 <= k < |profiles| ==> vs[k] == profiles[k].pcp
    {
      seq(|profiles|, k reads this, profiles requires 0 <= k < |profiles| => profiles[k].pcp)
    }

    /** `vectorChange`: compares with the first buffered profile and leaves the buffer as it is. */
    method VectorChange(pcp: PitchClsProfile, sqrt: real -> real) returns (r: Result<bool>)
      requires |pcp.pcp| <= 65535
      ensures r == Changes(Vectors(), pcp.pcp, sqrt)
    {
      if |profiles| == 0 {
        return Ok(false);
      }
      var prev := profiles[0];
      var d := pcp.EuclideanDistance(prev.pcp, sqrt);
      if d.Err? {
        return Err(d.msg);
      }
      return Ok(!(d.value < PcpChangeThreshold));
    }

    /** `add`: a null profile is refused; otherwise it goes at the end. */
    method Add(pcp: Option<PitchClsProfile>) returns (failure: Option<string>)
      modifies this
      ensures failure.Some? <==> pcp.None?
      ensures pcp.None? ==> profiles == old(profiles)
      ensures pcp.Some? ==> profiles == old(profiles) + [pcp.value]
    {
      if pcp.None? {
        return Some("PCPBuf::add(): pcp is NULL");
      }
      profiles := profiles + [pcp.value];
      return None;
    }

    /**
     * `getCombinedPCP`: a fresh default profile (24 zeros), plus every
     * buffered profile, over the count. An empty buffer divides by zero,
     * and `+=` reads 24 entries of every profile, hence the precondition.
     */
    method GetCombinedPCP() returns (ret: PitchClsProfile)
      requires |profiles| > 0 && forall k :: 0 <= k < |profiles| ==> |profiles[k].pcp| >= 2 * NotesTotal
      ensures fresh(ret)
      ensures ret.pcp == Scaled(Sums(Vectors(), 2 * NotesTotal), |profiles| as real)
      ensures ret.pitchClsMax == 0.0
    {
      ret := new PitchClsProfile();
      ghost var vs := Vectors();
      assert Sums(vs[..0], 2 * NotesTotal) == ret.pcp;
      for k := 0 to |profiles|
        invariant |ret.pcp| == 2 * NotesTotal && ret.pitchClsMax == 0.0
        invariant ret.pcp == Sums(vs[..k], 2 * NotesTotal)
        invariant vs == Vectors()
      {
        ret.PlusAssign(profiles[k]);
        SumsStep(vs, k, 2 * NotesTotal);
      }
      assert vs[..|profiles|] == vs;
      ret.DivAssign(|profiles| as real);
    }

    /** `getProfiles`: the buffered profiles, in insertion order. */
    method GetProfiles() returns (ps: seq<PitchClsProfile>)
      ensures ps == profiles
    {
      return profiles;
    }

    /** `size`. */
    method Size() returns (n: nat)
      ensures n == |profiles|
    {
      return |profiles|;
    }

    /** `flush`: the buffer is emptied. */
    method Flush()
      modifies this
      ensures profiles == []
    {
      profiles := [];
    }
  }
}
