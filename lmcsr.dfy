/**
 * The chord-segment scorer of the command-line client: it compares the
 * segments the detector reports with reference segments and keeps, for
 * every reference segment whose chord matches, the overlap of the two.
 * Sample indices are 32-bit unsigned in the source. Whether two chords
 * match is `Chord::match`, not part of this model, and arrives as the
 * parameter `matches`.
 */
module ChordSegmentScores {
  import opened LmTypes
  import ChordDetectors

  type Segment = ChordDetectors.Segment

  const U32Modulus: nat := 0x1_0000_0000

  /** Both indices of the segment fit in 32 bits. */
  predicate Fits32(s: Segment)
  {
    s.startIdx < U32Modulus && s.endIdx < U32Modulus
  }

  /** `empty(s)`: a segment whose start lies after its end covers no sample. */
  predicate Empty(s: Segment)
  {
    s.startIdx > s.endIdx
  }

  /** Whether sample i lies in the inclusive range of s. */
  predicate Covers(s: Segment, i: nat)
  {
    s.startIdx <= i <= s.endIdx
  }

  /** A segment is empty exactly when it covers no sample; otherwise it covers its start. */
  lemma EmptyCoversNothing(s: Segment, i: nat)
    ensures Empty(s) ==> !Covers(s, i)
    ensures !Empty(s) ==> Covers(s, s.startIdx)
  {
  }

  /** `intersection(ls, rs)`: the later start and the earlier end; the chord and silence of `res` are left default. */
  function Intersection(ls: Segment, rs: Segment, default: Segment): (r: Segment)
    ensures r.startIdx >= ls.startIdx && r.startIdx >= rs.startIdx
    ensures r.endIdx <= ls.endIdx && r.endIdx <= rs.endIdx
    ensures r.startIdx in {ls.startIdx, rs.startIdx} && r.endIdx in {ls.endIdx, rs.endIdx}
    ensures r.chord == default.chord && r.silence == default.silence
  {
    default.(startIdx := if ls.startIdx < rs.startIdx then rs.startIdx else ls.startIdx,
             endIdx := if ls.endIdx < rs.endIdx then ls.endIdx else rs.endIdx)
  }

  /**
   * The intersection covers exactly the samples both segments cover, has
   * the same range whichever operand comes first, and its indices still
   * fit in 32 bits.
   */
  lemma IntersectionCovers(ls: Segment, rs: Segment, default: Segment, i: nat)
    ensures Covers(Intersection(ls, rs, default), i) <==> Covers(ls, i) && Covers(rs, i)
    ensures Intersection(ls, rs, default) == Intersection(rs, ls, default)
    ensures Fits32(ls) && Fits32(rs) ==> Fits32(Intersection(ls, rs, default))
  {
  }

  /** The intersection of two non-empty segments is empty exactly when they are disjoint. */
  lemma IntersectionEmptyIffDisjoint(ls: Segment, rs: Segment, default: Segment)
    requires !Empty(ls) && !Empty(rs)
    ensures Empty(Intersection(ls, rs, default)) <==> ls.endIdx < rs.startIdx || rs.endIdx < ls.startIdx
  {
  }

  /** A non-empty intersection lies within both operands. */
  lemma IntersectionContained(ls: Segment, rs: Segment, default: Segment)
    requires !Empty(Intersection(ls, rs, default))
    ensures ls.startIdx <= Intersection(ls, rs, default).startIdx && Intersection(ls, rs, default).endIdx <= ls.endIdx
    ensures rs.startIdx <= Intersection(ls, rs, default).startIdx && Intersection(ls, rs, default).endIdx <= rs.endIdx
  {
  }

  /**
   * The overlaps `onChordSegmentProcessed` keeps, in reference order: for
   * each reference segment, its non-empty intersection with seg when the
   * chords match.
   */
  function Overlaps(refs: seq<Segment>, seg: Segment, matches: (Chord, Chord) -> bool, default: Segment): seq<Segment>
  {
    if |refs| == 0 then []
    else
      var k := Intersection(refs[0], seg, default);
      (if !Empty(k) && matches(refs[0].chord, seg.chord) then [k] else [])
      + Overlaps(refs[1..], seg, matches, default)
  }

  /**
   * Every kept overlap is non-empty, lies within the processed segment and
   * within a reference segment whose chord matches; there is at most one
   * per reference segment.
   */
  lemma {:induction false} OverlapsSound(refs: seq<Segment>, seg: Segment, matches: (Chord, Chord) -> bool, default: Segment)
    ensures |Overlaps(refs, seg, matches, default)| <= |refs|
    ensures forall m :: m in Overlaps(refs, seg, matches, default) ==>
      !Empty(m) && seg.startIdx <= m.startIdx && m.endIdx <= seg.endIdx &&
      exists r :: r in refs && matches(r.chord, seg.chord) && r.startIdx <= m.startIdx && m.endIdx <= r.endIdx
  {
    if |refs| > 0 {
      OverlapsSound(refs[1..], seg, matches, default);
      var k := Intersection(refs[0], seg, default);
      if !Empty(k) {
        IntersectionContained(refs[0], seg, default);
      }
      forall m | m in Overlaps(refs[1..], seg, matches, default)
        ensures exists r :: r in refs && matches(r.chord, seg.chord) && r.startIdx <= m.startIdx && m.endIdx <= r.endIdx
      {
        var r :| r in refs[1..] && matches(r.chord, seg.chord) && r.startIdx <= m.startIdx && m.endIdx <= r.endIdx;
        assert r in refs;
      }
      assert refs[0] in refs;
    }
  }

  /** Matches over a concatenation of references are the concatenation of the matches. */
  lemma {:induction false} OverlapsAppend(a: seq<Segment>, b: seq<Segment>, seg: Segment, matches: (Chord, Chord) -> bool, default: Segment)
    ensures Overlaps(a + b, seg, matches, default) == Overlaps(a, seg, matches, default) + Overlaps(b, seg, matches, default)
  {
    if |a| > 0 {
      assert (a + b)[1..] == a[1..] + b;
      OverlapsAppend(a[1..], b, seg, matches, default);
    } else {
      assert a + b == b;
    }
  }

  /** A segment's length in samples, both ends included. */
  function Duration(s: Segment): nat
    requires !Empty(s)
  {
    s.endIdx - s.startIdx + 1
  }

  /**
   * The length as the source computes it: in 32-bit unsigned arithmetic,
   * so that `endIdx - startIdx + 1` wraps to 0 for the segment of every
   * 32-bit index.
   */
  function DurationAsWritten(s: Segment): (r: nat)
    requires !Empty(s) && Fits32(s)
    ensures r < U32Modulus
    ensures r == 0 <==> s.startIdx == 0 && s.endIdx == U32Modulus - 1
  {
    (s.endIdx - s.startIdx + 1) % U32Modulus
  }

  /** The two agree except on the segment of all 2³² indices, whose length the source counts as 0. */
  lemma DurationAsWrittenWraps(s: Segment)
    requires !Empty(s) && Fits32(s)
    ensures DurationAsWritten(s) == Duration(s) <==> !(s.startIdx == 0 && s.endIdx == U32Modulus - 1)
  {
  }

  lemma DurationAsWrittenCounterexample(c: Chord)
    ensures DurationAsWritten(ChordDetectors.Segment(0, U32Modulus - 1, c, false)) == 0
    ensures Duration(ChordDetectors.Segment(0, U32Modulus - 1, c, false)) == U32Modulus
  {
  }

  /** The total length of a list of non-empty segments. */
  function TotalDuration(list: seq<Segment>): nat
    requires forall m :: m in list ==> !Empty(m)
  {
    if |list| == 0 then 0 else TotalDuration(list[..|list| - 1]) + Duration(list[|list| - 1])
  }

  /** The total of a concatenation is the sum of the totals. */
  lemma {:induction false} TotalDurationAppend(a: seq<Segment>, b: seq<Segment>)
    requires forall m :: m in a + b ==> !Empty(m)
    ensures TotalDuration(a + b) == TotalDuration(a) + TotalDuration(b)
    decreases |b|
  {
    if |b| > 0 {
      assert (a + b)[..|a + b| - 1] == a + b[..|b| - 1];
      TotalDurationAppend(a, b[..|b| - 1]);
    } else {
      assert a + b == a;
    }
  }

  /** Each overlap is no longer than the processed segment, so one segment adds at most |refs| times its length. */
  lemma {:induction false} OverlapsDurationBound(refs: seq<Segment>, seg: Segment, matches: (Chord, Chord) -> bool, default: Segment)
    requires !Empty(seg)
    ensures forall m :: m in Overlaps(refs, seg, matches, default) ==> !Empty(m)
    ensures TotalDuration(Overlaps(refs, seg, matches, default)) <= |refs| * Duration(seg)
  {
    OverlapsSound(refs, seg, matches, default);
    if |refs| > 0 {
      OverlapsDurationBound(refs[1..], seg, matches, default);
      OverlapsDurationStep(refs, seg, matches, default);
      MulPred(|refs|, Duration(seg));
    }
  }

  /** The first reference segment adds at most the processed segment's length. */
  lemma OverlapsDurationStep(refs: seq<Segment>, seg: Segment, matches: (Chord, Chord) -> bool, default: Segment)
    requires !Empty(seg) && |refs| > 0
    requires forall m :: m in Overlaps(refs, seg, matches, default) ==> !Empty(m)
    requires forall m :: m in Overlaps(refs[1..], seg, matches, default) ==> !Empty(m)
    ensures TotalDuration(Overlaps(refs, seg, matches, default))
      <= TotalDuration(Overlaps(refs[1..], seg, matches, default)) + Duration(seg)
  {
    var rest := Overlaps(refs[1..], seg, matches, default);
    {
      var k := Intersection(refs[0], seg, default);
      var head: seq<Segment> := if !Empty(k) && matches(refs[0].chord, seg.chord) then [k] else [];
      assert Overlaps(refs, seg, matches, default) == head + rest;
      TotalDurationAppend(head, rest);
      var d := Duration(seg);
      assert TotalDuration(head) <= d by {
        if |head| == 1 {
          IntersectionContained(refs[0], seg, default);
          assert TotalDuration(head) == TotalDuration([]) + Duration(k);
        }
      }
    }
  }

  lemma MulPred(n: nat, d: nat)
    requires n > 0
    ensures (n - 1) * d + d == n * d
  {
  }

  class CSRListener {
    /** The reference segments, copied at construction. */
    var seglist: seq<Segment>
    /** The overlaps found so far, in the order found. */
    var matchlist: seq<Segment>

    /** Every kept overlap covers at least one sample. */
    predicate Valid()
      reads this
    {
      forall m :: m in matchlist ==> !Empty(m)
    }

    /** `CSRListener(sl)`: a copy of the references and no matches. */
    constructor (sl: seq<Segment>)
      ensures Valid() && seglist == sl && matchlist == []
    {
      seglist := sl;
      matchlist := [];
    }

    /** `getMatchDuration`: the total length of the overlaps found. */
    method GetMatchDuration() returns (count: nat)
      requires Valid()
      ensures count == TotalDuration(matchlist)
    {
      count := 0;
      for i := 0 to |matchlist|
        invariant count == TotalDuration(matchlist[..i])
      {
        assert matchlist[..i + 1][..i] == matchlist[..i];
        assert matchlist[i] in matchlist;
        count := count + (matchlist[i].endIdx - matchlist[i].startIdx + 1);
      }
      assert matchlist[..|matchlist|] == matchlist;
    }

    /**
     * `onChordSegmentProcessed(seg)`: appends, in reference order, the
     * non-empty overlap of seg with every reference segment whose chord
     * matches seg's; earlier matches stay as they were. `default` is the
     * chord and silence flag of the default-constructed result.
     */
    method OnChordSegmentProcessed(seg: Segment, matches: (Chord, Chord) -> bool, default: Segment)
      requires Valid()
      modifies this
      ensures Valid() && seglist == old(seglist)
      ensures matchlist == old(matchlist) + Overlaps(seglist, seg, matches, default)
    {
      ghost var before := matchlist;
      for i := 0 to |seglist|
        invariant seglist == old(seglist)
        invariant matchlist == before + Overlaps(seglist[..i], seg, matches, default)
      {
        var s := seglist[i];
        var k := Intersection(s, seg, default);
        OverlapsAppend(seglist[..i], [s], seg, matches, default);
        assert seglist[..i + 1] == seglist[..i] + [s];
        assert [s][1..] == [];
        if Empty(k) {
          continue;
        }
        if matches(s.chord, seg.chord) {
          matchlist := matchlist + [k];
        }
      }
      assert seglist[..|seglist|] == seglist;
      OverlapsSound(seglist, seg, matches, default);
    }
  }

  /** The first channel of interleaved samples: frame i's first sample is data[i·ch]. */
  function Mono(data: seq<real>, frames: nat, ch: nat): (r: seq<real>)
    requires frames == 0 || (frames - 1) * ch < |data|
    ensures |r| == frames
  {
    seq(frames, i requires 0 <= i < frames => MonoIndex(frames, ch, i); data[i * ch])
  }

  lemma MonoIndex(frames: nat, ch: nat, i: nat)
    requires i < frames
    ensures i * ch <= (frames - 1) * ch
  {
  }

  /** With one channel the samples come back as they are; with two, every other sample. */
  lemma MonoOfOneOrTwoChannels(data: seq<real>, frames: nat)
    ensures frames <= |data| ==> Mono(data, frames, 1) == data[..frames]
    ensures 2 * frames <= |data| + 1 && frames > 0 ==> forall i :: 0 <= i < frames ==> Mono(data, frames, 2)[i] == data[2 * i]
  {
  }

  /**
   * `toMono(data, frames, ch)`: a pointer starts one frame before the data
   * and steps ch samples before each read. Reading past the data is
   * undefined, hence the precondition.
   */
  method ToMono(data: seq<real>, frames: nat, ch: nat) returns (channel: seq<real>)
    requires frames == 0 || (frames - 1) * ch < |data|
    ensures channel == Mono(data, frames, ch)
  {
    var buf := new real[frames];
    var t: int := -(ch as int);
    var i := 0;
    while i < frames
      invariant 0 <= i <= frames && t == i * ch - ch
      invariant forall k :: 0 <= k < i ==> buf[k] == Mono(data, frames, ch)[k]
    {
      t := t + ch;
      MonoIndex(frames, ch, i);
      buf[i] := data[t];
      i := i + 1;
    }
    channel := buf[..];
  }
}
