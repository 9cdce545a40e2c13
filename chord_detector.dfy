/**
 * `ChordDetector`: the decision logic around the template collection and the
 * Viterbi decoder. The detector's only state is its template collection,
 * which it reads and never changes, so the operations below take the
 * collection as a parameter. Spectrum and chromagram computation are not
 * part of this module: the chromagram is an input.
 */
module ChordDetectors {
  import opened Wrappers
  import opened LmTypes
  import opened ChordTemplates
  import opened ChordTplCollections
  import opened PitchClsProfiles
  import opened PcpBuffers
  import opened Helpers
  import Viterbi
  import LmFft
  import LmFftObject

  const SegmentIdxErr: string := "__processSegment(): invalid indices"
  const SelfTransitionErr: string := "Self-transition probability is less than transition probability to any other chord"
  const PathLengthErr: string := "__getSegments(): mtx_path.size() != chromagram.size()"

  /** `CFG_CHORD_SELF_TRANSITION_P`: the single-precision value of 0.1f. */
  const SelfTransitionP: real := 0.100000001490116119384765625

  /** The weight of the no-chord template's score before exponentiation. */
  const NoChordWeight: real := 0.7

  /** `segment_t`: a sample range, its chord and whether it is silence. */
  datatype Segment = Segment(startIdx: nat, endIdx: nat, chord: Chord, silence: bool)

  const GetFftErr: string := "__getFftResults() invalid argument"
  const InvalidFftErr: string := "GetChordFromFft_: invalid fft"

  /** `CFG_FFT_SIZE`: the longest input `GetFft_` accepts. */
  const FftSize: nat := 8192

  /** `FREQ_E2` and `FREQ_C8`: the band the single-window transform keeps. */
  const FreqE2: real := 82.4
  const FreqC8: real := 4186.0

  // ---------------------------------------------------------------------
  // Single-window recognition
  // ---------------------------------------------------------------------

  /**
   * `GetFft_`: refuses an empty input, one longer than `CFG_FFT_SIZE` or a
   * zero sample rate; otherwise applies the default window, which is the
   * rectangular one and takes the samples by value, so they are unchanged,
   * and builds the polar transform between E2 and C8, which itself refuses a
   * sample rate whose half is below C8.
   */
  method GetFft(td: seq<real>, samplerate: nat, twiddle: (nat, nat) -> Complex, sqrt: real -> real)
    returns (r: Result<LmFftObject.Fft>)
    ensures |td| == 0 || |td| > FftSize || samplerate == 0 ==> r == Err(GetFftErr)
    ensures 0 < |td| <= FftSize && samplerate > 0 ==>
      (r.Ok? <==> FreqC8 <= (samplerate / 2) as real) && (r.Err? ==> r == Err(LmFftObject.InvalidArgument))
    ensures r.Ok? ==> fresh(r.value) && r.value.Valid() && r.value.polar && r.value.samplerate == samplerate
    ensures r.Ok? ==> r.value.size == LmFftObject.TransformSize(|td|)
    ensures r.Ok? ==> r.value.fdLen == FftBins(td, samplerate) && r.value.magnitudes == FftMagnitudes(td, samplerate, twiddle, sqrt)
  {
    if |td| == 0 || |td| > FftSize || samplerate == 0 {
      return Err(GetFftErr);
    }
    r := LmFftObject.New(Some(td), |td|, samplerate, FreqE2, FreqC8, true, false, twiddle, sqrt, (s, _) => s);
  }

  /** The bin count the polar transform of `GetFft_` keeps. */
  function FftBins(td: seq<real>, samplerate: nat): nat
    requires 0 < |td| <= FftSize && samplerate > 0
  {
    var n := LmFftObject.TransformSize(|td|);
    LmFftObject.TransformSizeIsLeast(|td|, 0);
    LmFftObject.PolarBins(LmFftObject.Padded(td, |td|, n), LmFftObject.HighBins(FreqC8, n, samplerate))
  }

  /** The moving-averaged magnitudes of the polar transform of `GetFft_`, between E2 and C8. */
  function FftMagnitudes(td: seq<real>, samplerate: nat, twiddle: (nat, nat) -> Complex, sqrt: real -> real): seq<real>
    requires 0 < |td| <= FftSize && samplerate > 0
  {
    var n := LmFftObject.TransformSize(|td|);
    LmFftObject.TransformSizeIsLeast(|td|, 0);
    var x := LmFft.Transform(LmFftObject.Padded(td, |td|, n), twiddle);
    LmFftObject.PolarSpectrum(x, LmFftObject.HighBins(FreqC8, n, samplerate), LmFftObject.LowBin(FreqE2, n, samplerate), sqrt)
  }

  /**
   * `GetChordFromFft_`: refuses a missing or rectangular transform;
   * otherwise the best match of the profile built from the transform's
   * magnitudes. That profile (`PitchClsProfile(FFT *)`) is the parameter
   * `pcpOf`, given the magnitudes, the bin count, the size and the rate.
   */
  method GetChordFromFft(collection: ChordTplCollection, fft: Option<LmFftObject.Fft>,
                         pcpOf: (seq<real>, nat, nat, nat) -> seq<real>, sqrt: real -> real) returns (r: Result<Chord>)
    ensures fft.None? || !fft.value.polar ==> r == Err(InvalidFftErr)
    ensures fft.Some? && fft.value.polar ==>
      var f := fft.value;
      r == BestMatch(collection.tpls, pcpOf(f.magnitudes, f.fdLen, f.size, f.samplerate), sqrt)
  {
    if fft.None? || !fft.value.polar {
      return Err(InvalidFftErr);
    }
    var f := fft.value;
    r := collection.GetBestMatch(pcpOf(f.magnitudes, f.fdLen, f.size, f.samplerate), sqrt);
  }

  /** `getChord`: the transform of the samples, then the best match of its profile; either step's exception is passed on. */
  method GetChord(collection: ChordTplCollection, td: seq<real>, samplerate: nat, twiddle: (nat, nat) -> Complex,
                  sqrt: real -> real, pcpOf: (seq<real>, nat, nat, nat) -> seq<real>) returns (r: Result<Chord>)
    ensures |td| == 0 || |td| > FftSize || samplerate == 0 ==> r == Err(GetFftErr)
    ensures 0 < |td| <= FftSize && samplerate > 0 && FreqC8 > (samplerate / 2) as real ==>
      r == Err(LmFftObject.InvalidArgument)
    ensures 0 < |td| <= FftSize && samplerate > 0 && FreqC8 <= (samplerate / 2) as real ==>
      r == BestMatch(collection.tpls, pcpOf(FftMagnitudes(td, samplerate, twiddle, sqrt), FftBins(td, samplerate),
                                            LmFftObject.TransformSize(|td|), samplerate), sqrt)
  {
    var fft := GetFft(td, samplerate, twiddle, sqrt);
    if fft.Err? {
      return Err(fft.msg);
    }
    r := GetChordFromFft(collection, Some(fft.value), pcpOf, sqrt);
  }

  // ---------------------------------------------------------------------
  // The chord vote of `__getChordFromPCPBuf`
  // ---------------------------------------------------------------------

  /** The key a `std::map<chord_t, …>` orders by: `operator<` looks only at root and quality. */
  function Key(c: Chord): (int, int) { (c.root, c.quality) }

  /** Lexicographic order on keys. */
  predicate Before(a: Chord, b: Chord)
  {
    a.root < b.root || (a.root == b.root && a.quality < b.quality)
  }

  /** `Chord::operator<` is exactly the order on keys. */
  lemma LessIsBefore(a: Chord, b: Chord)
    ensures Less(a, b) <==> Before(a, b)
  {
  }

  /** How many chords of cs have the given key. */
  function Occurrences(cs: seq<Chord>, key: (int, int)): (n: nat)
    ensures n <= |cs|
  {
    if |cs| == 0 then 0
    else Occurrences(cs[..|cs| - 1], key) + (if Key(cs[|cs| - 1]) == key then 1 else 0)
  }

  /** One entry of the counter map: the first chord seen with its key, and the count. */
  datatype Bin = Bin(chord: Chord, count: nat)

  /** The position `std::map::lower_bound` finds: the first entry not before c. */
  function LowerBound(bins: seq<Bin>, c: Chord): (p: nat)
    ensures p <= |bins|
  {
    if |bins| == 0 || !Before(bins[0].chord, c) then 0 else 1 + LowerBound(bins[1..], c)
  }

  /**
   * One step of the counting loop: the entry whose key matches c is
   * incremented, otherwise (c, 1) is inserted in key order.
   */
  function Bump(bins: seq<Bin>, c: Chord): (r: seq<Bin>)
    ensures |r| > 0
  {
    var p := LowerBound(bins, c);
    if p < |bins| && !Before(c, bins[p].chord) then bins[p := Bin(bins[p].chord, bins[p].count + 1)]
    else bins[..p] + [Bin(c, 1)] + bins[p..]
  }

  /** The counter map after counting cs in order. */
  function Tally(cs: seq<Chord>): (bins: seq<Bin>)
    ensures |cs| > 0 ==> |bins| > 0
  {
    if |cs| == 0 then [] else Bump(Tally(cs[..|cs| - 1]), cs[|cs| - 1])
  }

  /** The counts, in map order, as the values `max_element` compares. */
  function Counts(bins: seq<Bin>): (vs: seq<real>)
    ensures |vs| == |bins| && forall k :: 0 <= k < |bins| ==> vs[k] == bins[k].count as real
  {
    seq(|bins|, k requires 0 <= k < |bins| => bins[k].count as real)
  }

  /** `max_element` with `cmpPairBySecond`: the first entry, in map order, of largest count. */
  function Winner(bins: seq<Bin>): Chord
    requires |bins| > 0
  {
    bins[FirstMaxIndex(Counts(bins), |bins|)].chord
  }

  /** The map's keys increase strictly. */
  predicate KeysIncrease(bins: seq<Bin>)
  {
    forall i, j :: 0 <= i < j < |bins| ==> Before(bins[i].chord, bins[j].chord)
  }

  /** bins is a faithful count of cs: sorted keys, exact counts, and every chord of cs has its key present. */
  ghost predicate Counted(cs: seq<Chord>, bins: seq<Bin>)
  {
    KeysIncrease(bins) &&
    (forall k :: 0 <= k < |bins| ==> bins[k].count == Occurrences(cs, Key(bins[k].chord))) &&
    (forall c :: c in cs ==> exists k :: 0 <= k < |bins| && Key(bins[k].chord) == Key(c))
  }

  /** Every entry's chord is one of the chords counted. */
  predicate FromChords(cs: seq<Chord>, bins: seq<Bin>)
  {
    forall k :: 0 <= k < |bins| ==> bins[k].chord in cs
  }

  lemma {:induction false} LowerBoundSplits(bins: seq<Bin>, c: Chord)
    requires KeysIncrease(bins)
    ensures forall k :: 0 <= k < LowerBound(bins, c) ==> Before(bins[k].chord, c)
    ensures forall k :: LowerBound(bins, c) <= k < |bins| ==> !Before(bins[k].chord, c)
    decreases |bins|
  {
    if |bins| > 0 && Before(bins[0].chord, c) {
      LowerBoundSplits(bins[1..], c);
      assert forall k :: 1 <= k < |bins| ==> bins[k] == bins[1..][k - 1];
    }
  }

  lemma OccurrencesAppend(cs: seq<Chord>, c: Chord, key: (int, int))
    ensures Occurrences(cs + [c], key) == Occurrences(cs, key) + (if Key(c) == key then 1 else 0)
  {
    assert (cs + [c])[..|cs|] == cs;
  }

  lemma {:induction false} OccurrencesAbsent(cs: seq<Chord>, key: (int, int))
    requires forall c :: c in cs ==> Key(c) != key
    ensures Occurrences(cs, key) == 0
    decreases |cs|
  {
    if |cs| > 0 {
      assert forall c :: c in cs[..|cs| - 1] ==> c in cs;
      OccurrencesAbsent(cs[..|cs| - 1], key);
    }
  }

  /** Counting a chord whose key is present increments that entry alone. */
  lemma BumpHit(cs: seq<Chord>, bins: seq<Bin>, c: Chord)
    requires Counted(cs, bins)
    requires LowerBound(bins, c) < |bins| && !Before(c, bins[LowerBound(bins, c)].chord)
    ensures Counted(cs + [c], Bump(bins, c))
  {
    var p := LowerBound(bins, c);
    LowerBoundSplits(bins, c);
    var r := Bump(bins, c);
    assert Key(bins[p].chord) == Key(c);
    forall k | 0 <= k < |r| ensures r[k].count == Occurrences(cs + [c], Key(r[k].chord)) {
      OccurrencesAppend(cs, c, Key(bins[k].chord));
      if k < p { assert Before(bins[k].chord, bins[p].chord); }
      else if k > p { assert Before(bins[p].chord, bins[k].chord); }
    }
    forall x | x in cs + [c] ensures exists k :: 0 <= k < |r| && Key(r[k].chord) == Key(x) {
      if x == c { assert Key(r[p].chord) == Key(x); }
      else {
        assert x in cs;
        var k :| 0 <= k < |bins| && Key(bins[k].chord) == Key(x);
        assert Key(r[k].chord) == Key(x);
      }
    }
  }

  /** Where the key of c is absent, `Bump` inserts (c, 1) at the lower bound and shifts the rest up by one. */
  lemma InsertShape(bins: seq<Bin>, c: Chord)
    requires !(LowerBound(bins, c) < |bins| && !Before(c, bins[LowerBound(bins, c)].chord))
    ensures |Bump(bins, c)| == |bins| + 1 && Bump(bins, c)[LowerBound(bins, c)] == Bin(c, 1)
    ensures forall k :: 0 <= k < LowerBound(bins, c) ==> Bump(bins, c)[k] == bins[k]
    ensures forall k :: LowerBound(bins, c) < k <= |bins| ==> Bump(bins, c)[k] == bins[k - 1]
  {
  }

  /** Inserting c at its lower bound, when its key is absent, keeps the keys increasing. */
  lemma InsertKeepsOrder(bins: seq<Bin>, c: Chord)
    requires KeysIncrease(bins)
    requires !(LowerBound(bins, c) < |bins| && !Before(c, bins[LowerBound(bins, c)].chord))
    ensures KeysIncrease(Bump(bins, c))
  {
    var p := LowerBound(bins, c);
    LowerBoundSplits(bins, c);
    var r := Bump(bins, c);
    InsertShape(bins, c);
    forall i, j | 0 <= i < j < |r| ensures Before(r[i].chord, r[j].chord) {
      if j == p { } else if i == p { assert Before(c, bins[j - 1].chord) || Before(bins[p].chord, bins[j - 1].chord); }
      else if i < p && p < j { assert Before(bins[i].chord, bins[j - 1].chord); }
    }
  }

  /** Where the lower bound of c does not match it, no counted chord shares its key. */
  lemma MissAbsent(cs: seq<Chord>, bins: seq<Bin>, c: Chord)
    requires Counted(cs, bins)
    requires !(LowerBound(bins, c) < |bins| && !Before(c, bins[LowerBound(bins, c)].chord))
    ensures forall x :: x in cs ==> Key(x) != Key(c)
  {
    var p := LowerBound(bins, c);
    LowerBoundSplits(bins, c);
    forall x | x in cs ensures Key(x) != Key(c) {
      var k :| 0 <= k < |bins| && Key(bins[k].chord) == Key(x);
      if k > p { assert Before(bins[p].chord, bins[k].chord); }
    }
  }

  /** After an insertion every entry still holds the count of its key. */
  lemma MissCounts(cs: seq<Chord>, bins: seq<Bin>, c: Chord)
    requires Counted(cs, bins)
    requires !(LowerBound(bins, c) < |bins| && !Before(c, bins[LowerBound(bins, c)].chord))
    ensures forall k :: 0 <= k < |Bump(bins, c)| ==> Bump(bins, c)[k].count == Occurrences(cs + [c], Key(Bump(bins, c)[k].chord))
  {
    var r := Bump(bins, c);
    MissAbsent(cs, bins, c);
    OccurrencesAbsent(cs, Key(c));
    InsertShape(bins, c);
    forall k | 0 <= k < |r| ensures r[k].count == Occurrences(cs + [c], Key(r[k].chord)) {
      OccurrencesAppend(cs, c, Key(r[k].chord));
    }
  }

  /** After an insertion every counted chord, c included, has an entry. */
  lemma MissCovers(cs: seq<Chord>, bins: seq<Bin>, c: Chord)
    requires Counted(cs, bins)
    requires !(LowerBound(bins, c) < |bins| && !Before(c, bins[LowerBound(bins, c)].chord))
    ensures forall x :: x in cs + [c] ==> exists k :: 0 <= k < |Bump(bins, c)| && Key(Bump(bins, c)[k].chord) == Key(x)
  {
    var p := LowerBound(bins, c);
    var r := Bump(bins, c);
    InsertShape(bins, c);
    forall x | x in cs + [c] ensures exists k :: 0 <= k < |r| && Key(r[k].chord) == Key(x) {
      if x == c { assert Key(r[p].chord) == Key(x); }
      else {
        assert x in cs;
        var k :| 0 <= k < |bins| && Key(bins[k].chord) == Key(x);
        if k < p { assert Key(r[k].chord) == Key(x); } else { assert Key(r[k + 1].chord) == Key(x); }
      }
    }
  }

  /** Counting a chord whose key is absent inserts it with count 1 where it keeps the keys sorted. */
  lemma BumpMiss(cs: seq<Chord>, bins: seq<Bin>, c: Chord)
    requires Counted(cs, bins)
    requires !(LowerBound(bins, c) < |bins| && !Before(c, bins[LowerBound(bins, c)].chord))
    ensures Counted(cs + [c], Bump(bins, c))
  {
    InsertKeepsOrder(bins, c);
    MissCounts(cs, bins, c);
    MissCovers(cs, bins, c);
  }

  /** Counting one more chord keeps the count faithful. */
  lemma BumpCounts(cs: seq<Chord>, bins: seq<Bin>, c: Chord)
    requires Counted(cs, bins)
    ensures Counted(cs + [c], Bump(bins, c))
  {
    var p := LowerBound(bins, c);
    if p < |bins| && !Before(c, bins[p].chord) {
      BumpHit(cs, bins, c);
    } else {
      BumpMiss(cs, bins, c);
    }
  }

  /** Every entry's chord stays one of the chords counted. */
  lemma BumpFrom(cs: seq<Chord>, bins: seq<Bin>, c: Chord)
    requires FromChords(cs, bins)
    ensures FromChords(cs + [c], Bump(bins, c))
  {
    var p := LowerBound(bins, c);
    var r := Bump(bins, c);
    if !(p < |bins| && !Before(c, bins[p].chord)) {
      assert forall k :: 0 <= k < p ==> r[k] == bins[k];
      assert forall k :: p < k < |r| ==> r[k] == bins[k - 1];
    }
    forall k | 0 <= k < |r| ensures r[k].chord in cs + [c] {
      assert r[k].chord == c || r[k].chord in cs;
    }
  }

  /** The counting loop produces a faithful count. */
  lemma {:induction false} TallyCounts(cs: seq<Chord>)
    ensures Counted(cs, Tally(cs))
    decreases |cs|
  {
    if |cs| > 0 {
      assert cs[..|cs| - 1] + [cs[|cs| - 1]] == cs;
      TallyCounts(cs[..|cs| - 1]);
      BumpCounts(cs[..|cs| - 1], Tally(cs[..|cs| - 1]), cs[|cs| - 1]);
    }
  }

  /** The counting loop only ever stores chords it has counted. */
  lemma {:induction false} TallyFrom(cs: seq<Chord>)
    ensures FromChords(cs, Tally(cs))
    decreases |cs|
  {
    if |cs| > 0 {
      assert cs[..|cs| - 1] + [cs[|cs| - 1]] == cs;
      TallyFrom(cs[..|cs| - 1]);
      BumpFrom(cs[..|cs| - 1], Tally(cs[..|cs| - 1]), cs[|cs| - 1]);
    }
  }

  /**
   * The vote's winner is one of the chords counted, no chord is counted
   * more often, and among the chords counted equally often it is the
   * least under `Chord::operator<`.
   */
  lemma PluralityWinner(cs: seq<Chord>)
    requires |cs| > 0
    ensures Winner(Tally(cs)) in cs
    ensures forall c :: c in cs ==> Occurrences(cs, Key(c)) <= Occurrences(cs, Key(Winner(Tally(cs))))
    ensures forall c :: c in cs && Occurrences(cs, Key(c)) == Occurrences(cs, Key(Winner(Tally(cs)))) ==>
      !Less(c, Winner(Tally(cs)))
  {
    WinnerIsCounted(cs);
    WinnerIsMaximal(cs);
  }

  /** The winner is one of the chords counted. */
  lemma WinnerIsCounted(cs: seq<Chord>)
    requires |cs| > 0
    ensures Winner(Tally(cs)) in cs
  {
    TallyFrom(cs);
  }

  /** The first entry of largest count beats, or ties with and precedes, every chord counted. */
  lemma WinnerIsMaximal(cs: seq<Chord>)
    requires |cs| > 0
    ensures forall c :: c in cs ==> Occurrences(cs, Key(c)) <= Occurrences(cs, Key(Winner(Tally(cs))))
    ensures forall c :: c in cs && Occurrences(cs, Key(c)) == Occurrences(cs, Key(Winner(Tally(cs)))) ==>
      !Less(c, Winner(Tally(cs)))
  {
    forall c | c in cs
      ensures Occurrences(cs, Key(c)) <= Occurrences(cs, Key(Winner(Tally(cs))))
      ensures Occurrences(cs, Key(c)) == Occurrences(cs, Key(Winner(Tally(cs)))) ==> !Less(c, Winner(Tally(cs)))
    {
      WinnerBeats(cs, c);
    }
  }

  /** The winner against one counted chord. */
  lemma WinnerBeats(cs: seq<Chord>, c: Chord)
    requires |cs| > 0 && c in cs
    ensures Occurrences(cs, Key(c)) <= Occurrences(cs, Key(Winner(Tally(cs))))
    ensures Occurrences(cs, Key(c)) == Occurrences(cs, Key(Winner(Tally(cs)))) ==> !Less(c, Winner(Tally(cs)))
  {
    var k := TalliedEntry(cs, c);
    var m := FirstMaxIndex(Counts(Tally(cs)), |Tally(cs)|);
    TalliedCount(cs, m);
    MaxBinBeats(cs, k);
    LessIsBefore(c, Tally(cs)[m].chord);
  }

  /** The entry holding the key of a counted chord, with its count. */
  lemma TalliedEntry(cs: seq<Chord>, c: Chord) returns (k: nat)
    requires c in cs
    ensures k < |Tally(cs)| && Key(Tally(cs)[k].chord) == Key(c)
    ensures Tally(cs)[k].count == Occurrences(cs, Key(c))
  {
    TallyCounts(cs);
    k :| 0 <= k < |Tally(cs)| && Key(Tally(cs)[k].chord) == Key(c);
  }

  /** Each entry of the counter map holds the count of its key. */
  lemma TalliedCount(cs: seq<Chord>, k: nat)
    requires k < |Tally(cs)|
    ensures Tally(cs)[k].count == Occurrences(cs, Key(Tally(cs)[k].chord))
  {
    TallyCounts(cs);
  }

  /** The first entry of largest count is not below entry k, nor after it on a tie. */
  lemma MaxBinBeats(cs: seq<Chord>, k: nat)
    requires k < |Tally(cs)|
    ensures Tally(cs)[k].count <= Tally(cs)[FirstMaxIndex(Counts(Tally(cs)), |Tally(cs)|)].count
    ensures Tally(cs)[k].count == Tally(cs)[FirstMaxIndex(Counts(Tally(cs)), |Tally(cs)|)].count ==>
      !Before(Tally(cs)[k].chord, Tally(cs)[FirstMaxIndex(Counts(Tally(cs)), |Tally(cs)|)].chord)
  {
    var bins := Tally(cs);
    TallyCounts(cs);
    assert KeysIncrease(bins);
    MaxBinBeatsSorted(bins, k);
  }

  /** The same on any map with increasing keys. */
  lemma MaxBinBeatsSorted(bins: seq<Bin>, k: nat)
    requires KeysIncrease(bins) && k < |bins|
    ensures bins[k].count <= bins[FirstMaxIndex(Counts(bins), |bins|)].count
    ensures bins[k].count == bins[FirstMaxIndex(Counts(bins), |bins|)].count ==>
      !Before(bins[k].chord, bins[FirstMaxIndex(Counts(bins), |bins|)].chord)
  {
    var m := FirstMaxIndex(Counts(bins), |bins|);
    FirstMaxIndexIsFirstMaximum(Counts(bins), |bins|);
    assert Counts(bins)[k] <= Counts(bins)[m];
    if k < m {
      assert Counts(bins)[k] < Counts(bins)[m];
    } else if k > m {
      assert Before(bins[m].chord, bins[k].chord);
    }
  }

  /** The best match of every profile, in buffer order; the first failing match ends it. */
  function Matches(tpls: seq<ChordTpl>, pcps: seq<seq<real>>, sqrt: real -> real): (r: Result<seq<Chord>>)
    ensures r.Ok? ==> |r.value| == |pcps|
  {
    if |pcps| == 0 then Ok([])
    else
      match Matches(tpls, pcps[..|pcps| - 1], sqrt)
      case Err(m) => Err(m)
      case Ok(cs) =>
        match BestMatch(tpls, pcps[|pcps| - 1], sqrt)
        case Err(m) => Err(m)
        case Ok(c) => Ok(cs + [c])
  }

  /** Each counted chord is the best match of the profile at the same position. */
  lemma {:induction false} MatchesPointwise(tpls: seq<ChordTpl>, pcps: seq<seq<real>>, sqrt: real -> real)
    requires Matches(tpls, pcps, sqrt).Ok?
    ensures forall i :: 0 <= i < |pcps| ==> BestMatch(tpls, pcps[i], sqrt) == Ok(Matches(tpls, pcps, sqrt).value[i])
    decreases |pcps|
  {
    if |pcps| > 0 {
      MatchesPointwise(tpls, pcps[..|pcps| - 1], sqrt);
      assert forall i :: 0 <= i < |pcps| - 1 ==> pcps[..|pcps| - 1][i] == pcps[i];
    }
  }

  /** A failed match at position k is the answer for every longer buffer. */
  lemma {:induction false} MatchesErrSticky(tpls: seq<ChordTpl>, pcps: seq<seq<real>>, k: nat, sqrt: real -> real)
    requires k <= |pcps| && Matches(tpls, pcps[..k], sqrt).Err?
    ensures Matches(tpls, pcps, sqrt) == Matches(tpls, pcps[..k], sqrt)
    decreases |pcps| - k
  {
    if k < |pcps| {
      assert pcps[..k + 1][..k] == pcps[..k];
      MatchesErrSticky(tpls, pcps, k + 1, sqrt);
    } else {
      assert pcps[..k] == pcps;
    }
  }

  /** `__getChordFromPCPBuf`: the plurality of the buffered profiles' best matches. */
  function Vote(tpls: seq<ChordTpl>, pcps: seq<seq<real>>, sqrt: real -> real): (r: Result<Chord>)
    requires |pcps| > 0
    ensures r.Err? <==> Matches(tpls, pcps, sqrt).Err?
    ensures r.Ok? ==> r.value in Matches(tpls, pcps, sqrt).value
  {
    match Matches(tpls, pcps, sqrt)
    case Err(m) => Err(m)
    case Ok(cs) =>
      PluralityWinner(cs);
      Ok(Winner(Tally(cs)))
  }

  /**
   * `__getChordFromPCPBuf`: counts each profile's best match in a map
   * ordered by `Chord::operator<` and returns the first key of largest
   * count. An empty buffer makes `max_element` return the end iterator,
   * which is then dereferenced, hence the precondition.
   */
  method GetChordFromPCPBuf(collection: ChordTplCollection, buf: PCPBuf, sqrt: real -> real) returns (r: Result<Chord>)
    requires |buf.profiles| > 0
    ensures r == Vote(collection.tpls, buf.Vectors(), sqrt)
  {
    r := VoteOf(collection, buf.Vectors(), sqrt);
  }

  /** The counting loop of `__getChordFromPCPBuf` over the buffered profiles' entries, in buffer order. */
  method VoteOf(collection: ChordTplCollection, vs: seq<seq<real>>, sqrt: real -> real) returns (r: Result<Chord>)
    requires |vs| > 0
    ensures r == Vote(collection.tpls, vs, sqrt)
  {
    var bins: seq<Bin> := [];
    ghost var cs: seq<Chord> := [];
    for k := 0 to |vs|
      invariant Matches(collection.tpls, vs[..k], sqrt) == Ok(cs)
      invariant bins == Tally(cs)
    {
      var c := collection.GetBestMatch(vs[k], sqrt);
      MatchesExtend(collection.tpls, vs, k, cs, sqrt);
      if c.Err? {
        MatchesErrSticky(collection.tpls, vs, k + 1, sqrt);
        return Err(c.msg);
      }
      bins := Bump(bins, c.value);
      TallyExtend(cs, c.value);
      cs := cs + [c.value];
    }
    assert vs[..|vs|] == vs;
    r := Ok(bins[FirstMaxIndex(Counts(bins), |bins|)].chord);
  }

  /** Matching one more profile: its best match is appended, or its error ends the run. */
  lemma MatchesExtend(tpls: seq<ChordTpl>, pcps: seq<seq<real>>, k: nat, cs: seq<Chord>, sqrt: real -> real)
    requires k < |pcps| && Matches(tpls, pcps[..k], sqrt) == Ok(cs)
    ensures BestMatch(tpls, pcps[k], sqrt).Err? ==> Matches(tpls, pcps[..k + 1], sqrt) == Err(BestMatch(tpls, pcps[k], sqrt).msg)
    ensures BestMatch(tpls, pcps[k], sqrt).Ok? ==> Matches(tpls, pcps[..k + 1], sqrt) == Ok(cs + [BestMatch(tpls, pcps[k], sqrt).value])
  {
    assert pcps[..k + 1][..k] == pcps[..k];
  }

  /** Counting one more chord bumps its entry in the map. */
  lemma TallyExtend(cs: seq<Chord>, c: Chord)
    ensures Tally(cs + [c]) == Bump(Tally(cs), c)
  {
    assert (cs + [c])[..|cs|] == cs;
  }

  /**
   * `__processSegment`: refuses an empty or reversed range; a silence
   * segment carries the default chord and leaves the buffer alone; any other
   * segment takes the vote of the buffer, which is then flushed. Without a
   * listener the segment is appended to the list; with one it is handed to
   * the listener (the returned segment) and the list is unchanged.
   */
  method ProcessSegment(collection: ChordTplCollection, segments: seq<Segment>, startIdx: nat, endIdx: nat,
                        silence: bool, buf: PCPBuf, hasListener: bool, sqrt: real -> real)
    returns (r: Result<Segment>, segments': seq<Segment>)
    requires startIdx < endIdx && !silence ==> |buf.profiles| > 0
    modifies buf
    ensures startIdx >= endIdx ==> r == Err(SegmentIdxErr) && buf.profiles == old(buf.profiles)
    ensures startIdx < endIdx && silence ==>
      r == Ok(Segment(startIdx, endIdx, DefaultChord(), true)) && buf.profiles == old(buf.profiles)
    ensures startIdx < endIdx && !silence ==>
      var v := Vote(collection.tpls, old(buf.Vectors()), sqrt);
      (v.Err? ==> r == Err(v.msg) && buf.profiles == old(buf.profiles)) &&
      (v.Ok? ==> r == Ok(Segment(startIdx, endIdx, v.value, false)) && buf.profiles == [])
    ensures r.Err? ==> segments' == segments
    ensures r.Ok? ==> segments' == if hasListener then segments else segments + [r.value]
  {
    if startIdx >= endIdx {
      return Err(SegmentIdxErr), segments;
    }
    var segment := Segment(startIdx, endIdx, DefaultChord(), silence);
    if !silence {
      var c := GetChordFromPCPBuf(collection, buf, sqrt);
      if c.Err? {
        return Err(c.msg), segments;
      }
      segment := segment.(chord := c.value);
      buf.Flush();
    }
    r := Ok(segment);
    segments' := if hasListener then segments else segments + [segment];
  }

  // ---------------------------------------------------------------------
  // The score matrix of `GetScoreMatrix_`
  // ---------------------------------------------------------------------

  /** The sum of s, accumulated left to right. */
  function Sum(s: seq<real>): real
  {
    if |s| == 0 then 0.0 else Sum(s[..|s| - 1]) + s[|s| - 1]
  }

  /** A template score as it enters the exponential: negatives count as 0; the no-chord score is damped. */
  function Damped(score: real, isNoChord: bool): (d: real)
    ensures d >= 0.0
    ensures score <= 0.0 ==> d == 0.0
    ensures score > 0.0 ==> d == if isNoChord then NoChordWeight * score else score
  {
    (if score < 0.0 then 0.0 else score) * (if isNoChord then NoChordWeight else 1.0)
  }

  /**
   * The unnormalised scores of the first k templates against one profile:
   * `pow13` stands for `pow(1.3, ·)`; the first template that fails to score
   * ends the row with its error.
   */
  function RawScores(tpls: seq<ChordTpl>, pcp: seq<real>, pow13: real -> real, k: nat, sqrt: real -> real): (r: Result<seq<real>>)
    requires k <= |tpls|
    ensures r.Ok? ==> |r.value| == k
  {
    if k == 0 then Ok([])
    else
      match RawScores(tpls, pcp, pow13, k - 1, sqrt)
      case Err(m) => Err(m)
      case Ok(row) =>
        match GetScore(tpls[k - 1], pcp, sqrt)
        case Err(m) => Err(m)
        case Ok(s) => Ok(row + [pow13(Damped(s, k - 1 == |tpls| - 1))])
  }

  /** Every raw score is the exponential of the template's damped score. */
  lemma {:induction false} RawScoresAt(tpls: seq<ChordTpl>, pcp: seq<real>, pow13: real -> real, k: nat, sqrt: real -> real)
    requires k <= |tpls| && RawScores(tpls, pcp, pow13, k, sqrt).Ok?
    ensures forall i :: 0 <= i < k ==> (GetScore(tpls[i], pcp, sqrt).Ok? &&
      RawScores(tpls, pcp, pow13, k, sqrt).value[i] == pow13(Damped(GetScore(tpls[i], pcp, sqrt).value, i == |tpls| - 1)))
    decreases k
  {
    if k > 0 {
      RawScoresAt(tpls, pcp, pow13, k - 1, sqrt);
    }
  }

  /** s with every entry divided by d. */
  function Divided(s: seq<real>, d: real): (r: seq<real>)
    requires d != 0.0
    ensures |r| == |s| && forall i :: 0 <= i < |s| ==> r[i] == s[i] / d
  {
    seq(|s|, i requires 0 <= i < |s| => s[i] / d)
  }

  /** A row after normalisation: divided by its sum when that is positive, else its last entry set to 1. */
  function Normalized(raw: seq<real>): (r: seq<real>)
    requires |raw| > 0
    ensures |r| == |raw|
  {
    var s := Sum(raw);
    if s > 0.0 then Divided(raw, s) else raw[|raw| - 1 := 1.0]
  }

  /** One row of the score matrix: the raw scores of every template, normalised. */
  function ScoreRow(tpls: seq<ChordTpl>, pcp: seq<real>, pow13: real -> real, sqrt: real -> real): (r: Result<seq<real>>)
    requires |tpls| > 0
    ensures r.Ok? ==> |r.value| == |tpls|
  {
    match RawScores(tpls, pcp, pow13, |tpls|, sqrt)
    case Err(m) => Err(m)
    case Ok(raw) => Ok(Normalized(raw))
  }

  /** The rows of the score matrix; the first failing row ends it. */
  function ScoreMatrix(tpls: seq<ChordTpl>, chromagram: seq<seq<real>>, pow13: real -> real, sqrt: real -> real): (r: Result<seq<seq<real>>>)
    requires |tpls| > 0
    ensures r.Ok? ==> |r.value| == |chromagram| && forall w :: 0 <= w < |chromagram| ==> |r.value[w]| == |tpls|
  {
    if |chromagram| == 0 then Ok([])
    else
      match ScoreMatrix(tpls, chromagram[..|chromagram| - 1], pow13, sqrt)
      case Err(m) => Err(m)
      case Ok(rows) =>
        match ScoreRow(tpls, chromagram[|chromagram| - 1], pow13, sqrt)
        case Err(m) => Err(m)
        case Ok(row) => Ok(rows + [row])
  }

  /** A template that fails to score ends the row with its error. */
  lemma {:induction false} RawScoresErrSticky(tpls: seq<ChordTpl>, pcp: seq<real>, pow13: real -> real, k: nat, sqrt: real -> real)
    requires k <= |tpls| && RawScores(tpls, pcp, pow13, k, sqrt).Err?
    ensures RawScores(tpls, pcp, pow13, |tpls|, sqrt) == RawScores(tpls, pcp, pow13, k, sqrt)
    decreases |tpls| - k
  {
    if k < |tpls| {
      RawScoresErrSticky(tpls, pcp, pow13, k + 1, sqrt);
    }
  }

  lemma {:induction false} SumDivided(s: seq<real>, d: real)
    requires d > 0.0
    ensures Sum(Divided(s, d)) == Sum(s) / d
    decreases |s|
  {
    if |s| > 0 {
      var n := |s|;
      assert Divided(s, d)[..n - 1] == Divided(s[..n - 1], d);
      SumDivided(s[..n - 1], d);
      assert Sum(s[..n - 1]) / d + s[n - 1] / d == (Sum(s[..n - 1]) + s[n - 1]) / d;
    }
  }

  lemma {:induction false} SumPositive(s: seq<real>)
    requires |s| > 0 && forall i :: 0 <= i < |s| ==> s[i] > 0.0
    ensures Sum(s) > 0.0
    decreases |s|
  {
    if |s| > 1 {
      SumPositive(s[..|s| - 1]);
    }
  }

  lemma {:induction false} SumNonNegative(s: seq<real>)
    requires forall i :: 0 <= i < |s| ==> s[i] >= 0.0
    ensures Sum(s) >= 0.0
    decreases |s|
  {
    if |s| > 0 {
      SumNonNegative(s[..|s| - 1]);
    }
  }

  /**
   * Normalisation: a row of positive sum becomes a distribution (it sums
   * to 1, and non-negative entries stay non-negative); a row whose sum is
   * not positive keeps its entries except the last, which becomes 1.
   */
  lemma NormalizedIsDistribution(raw: seq<real>)
    requires |raw| > 0
    ensures Sum(raw) > 0.0 ==> Sum(Normalized(raw)) == 1.0
    ensures Sum(raw) > 0.0 && (forall i :: 0 <= i < |raw| ==> raw[i] >= 0.0) ==>
      (forall i :: 0 <= i < |raw| ==> Normalized(raw)[i] >= 0.0)
    ensures Sum(raw) <= 0.0 ==>
      (Normalized(raw)[|raw| - 1] == 1.0 && forall i :: 0 <= i < |raw| - 1 ==> Normalized(raw)[i] == raw[i])
  {
    if Sum(raw) > 0.0 {
      NormalizedSumsToOne(raw);
      NormalizedKeepsSign(raw);
    } else {
      NormalizedDegenerate(raw);
    }
  }

  /** Dividing non-negative entries by a positive sum keeps them non-negative. */
  lemma NormalizedKeepsSign(raw: seq<real>)
    requires |raw| > 0 && Sum(raw) > 0.0
    ensures (forall i :: 0 <= i < |raw| ==> raw[i] >= 0.0) ==> (forall i :: 0 <= i < |raw| ==> Normalized(raw)[i] >= 0.0)
  {
    var s := Sum(raw);
    assert Normalized(raw) == Divided(raw, s);
    forall i | 0 <= i < |raw| && raw[i] >= 0.0 ensures Divided(raw, s)[i] >= 0.0 {
      DivideNonNegative(raw[i], s);
    }
  }

  lemma DivideNonNegative(x: real, d: real)
    requires x >= 0.0 && d > 0.0
    ensures x / d >= 0.0
  {
  }

  /** A row whose sum is not positive keeps its entries except the last, which becomes 1. */
  lemma NormalizedDegenerate(raw: seq<real>)
    requires |raw| > 0 && Sum(raw) <= 0.0
    ensures Normalized(raw)[|raw| - 1] == 1.0 && forall i :: 0 <= i < |raw| - 1 ==> Normalized(raw)[i] == raw[i]
  {
    assert Normalized(raw) == raw[|raw| - 1 := 1.0];
  }

  /** Dividing by a positive sum leaves a sum of 1. */
  lemma NormalizedSumsToOne(raw: seq<real>)
    requires |raw| > 0 && Sum(raw) > 0.0
    ensures Sum(Normalized(raw)) == 1.0
  {
    var s := Sum(raw);
    SumDivided(raw, s);
    DivideSelf(s);
  }

  lemma DivideSelf(x: real)
    requires x != 0.0
    ensures x / x == 1.0
  {
  }

  /** With a positive exponential every row of the score matrix is a distribution. */
  lemma {:induction false} ScoreRowsAreDistributions(tpls: seq<ChordTpl>, chromagram: seq<seq<real>>, pow13: real -> real, sqrt: real -> real)
    requires |tpls| > 0 && ScoreMatrix(tpls, chromagram, pow13, sqrt).Ok?
    requires forall x :: pow13(x) > 0.0
    ensures forall w :: 0 <= w < |chromagram| ==>
      Sum(ScoreMatrix(tpls, chromagram, pow13, sqrt).value[w]) == 1.0 &&
      forall i :: 0 <= i < |tpls| ==> ScoreMatrix(tpls, chromagram, pow13, sqrt).value[w][i] >= 0.0
    decreases |chromagram|
  {
    if |chromagram| > 0 {
      var n := |chromagram|;
      ScoreRowsAreDistributions(tpls, chromagram[..n - 1], pow13, sqrt);
      var raw := RawScores(tpls, chromagram[n - 1], pow13, |tpls|, sqrt).value;
      RawScoresAt(tpls, chromagram[n - 1], pow13, |tpls|, sqrt);
      SumPositive(raw);
      NormalizedIsDistribution(raw);
    }
  }

  /** A failed row ends the matrix with its error. */
  lemma {:induction false} ScoreMatrixErrSticky(tpls: seq<ChordTpl>, chromagram: seq<seq<real>>, pow13: real -> real, k: nat, sqrt: real -> real)
    requires |tpls| > 0 && k <= |chromagram| && ScoreMatrix(tpls, chromagram[..k], pow13, sqrt).Err?
    ensures ScoreMatrix(tpls, chromagram, pow13, sqrt) == ScoreMatrix(tpls, chromagram[..k], pow13, sqrt)
    decreases |chromagram| - k
  {
    if k < |chromagram| {
      assert chromagram[..k + 1][..k] == chromagram[..k];
      ScoreMatrixErrSticky(tpls, chromagram, pow13, k + 1, sqrt);
    } else {
      assert chromagram[..k] == chromagram;
    }
  }

  /** The template loop of `GetScoreMatrix_`: the raw scores and their running sum. */
  method GetRawScores(tpls: seq<ChordTpl>, pcp: seq<real>, pow13: real -> real, sqrt: real -> real) returns (r: Result<seq<real>>, sum: real)
    ensures r == RawScores(tpls, pcp, pow13, |tpls|, sqrt)
    ensures r.Ok? ==> sum == Sum(r.value)
  {
    var row: seq<real> := [];
    sum := 0.0;
    for t := 0 to |tpls|
      invariant RawScores(tpls, pcp, pow13, t, sqrt) == Ok(row) && sum == Sum(row)
    {
      var score := GetScore(tpls[t], pcp, sqrt);
      if score.Err? {
        RawScoresErrSticky(tpls, pcp, pow13, t + 1, sqrt);
        return Err(score.msg), sum;
      }
      var x := score.value;
      if x < 0.0 {
        x := 0.0;
      }
      if t == |tpls| - 1 {
        x := x * NoChordWeight;
      }
      x := pow13(x);
      assert (row + [x])[..|row|] == row;
      row := row + [x];
      sum := sum + x;
    }
    return Ok(row), sum;
  }

  /**
   * The body of the window loop of `GetScoreMatrix_`: the raw scores and
   * their sum in one pass, then the normalisation in place.
   */
  method GetScoreRow(tpls: seq<ChordTpl>, pcp: seq<real>, pow13: real -> real, sqrt: real -> real) returns (r: Result<seq<real>>)
    requires |tpls| > 0
    ensures r == ScoreRow(tpls, pcp, pow13, sqrt)
  {
    var raw, sum := GetRawScores(tpls, pcp, pow13, sqrt);
    if raw.Err? {
      return Err(raw.msg);
    }
    var row := raw.value;
    if sum > 0.0 {
      for k := 0 to |row|
        invariant |row| == |raw.value|
        invariant forall i :: 0 <= i < k ==> row[i] == raw.value[i] / sum
        invariant forall i :: k <= i < |row| ==> row[i] == raw.value[i]
      {
        row := row[k := row[k] / sum];
      }
      assert row == Divided(raw.value, sum);
    } else {
      row := row[|row| - 1 := 1.0];
    }
    return Ok(row);
  }

  /** `GetScoreMatrix_`: one row per window, one normalised entry per template. */
  method GetScoreMatrix(collection: ChordTplCollection, chromagram: seq<seq<real>>, pow13: real -> real, sqrt: real -> real)
    returns (r: Result<seq<seq<real>>>)
    requires |collection.tpls| > 0
    ensures r == ScoreMatrix(collection.tpls, chromagram, pow13, sqrt)
  {
    var tpls := collection.tpls;
    var mtx: seq<seq<real>> := [];
    for w := 0 to |chromagram|
      invariant ScoreMatrix(tpls, chromagram[..w], pow13, sqrt) == Ok(mtx)
    {
      assert chromagram[..w + 1][..w] == chromagram[..w];
      var row := GetScoreRow(tpls, chromagram[w], pow13, sqrt);
      if row.Err? {
        ScoreMatrixErrSticky(tpls, chromagram, pow13, w + 1, sqrt);
        return Err(row.msg);
      }
      mtx := mtx + [row.value];
    }
    assert chromagram[..|chromagram|] == chromagram;
    return Ok(mtx);
  }

  // ---------------------------------------------------------------------
  // The model's parameters built in `Process_`
  // ---------------------------------------------------------------------

  /** `init_p`: every template 0 except the last (no-chord) template, which is 1. */
  function InitialDistribution(n: nat): (init: seq<real>)
    requires n > 0
    ensures |init| == n
  {
    seq(n, i => if i == n - 1 then 1.0 else 0.0)
  }

  /** The initial distribution sums to 1 and is concentrated on the last template. */
  lemma InitialDistributionIsCertain(n: nat)
    requires n > 0
    ensures Sum(InitialDistribution(n)) == 1.0
    ensures forall i :: 0 <= i < n ==> (InitialDistribution(n)[i] > 0.0 <==> i == n - 1)
  {
    assert InitialDistribution(n) == seq(n - 1, _ => 0.0) + [1.0];
    assert InitialDistribution(n)[..n - 1] == seq(n - 1, _ => 0.0);
    SumOneOff(n - 1, n - 1, 0.0, 0.0);
    assert seq(n - 1, j => if j == n - 1 then 0.0 else 0.0) == seq(n - 1, _ => 0.0);
  }

  /**
   * The probability of moving to any other template: `(1 − p) / (n − 1)`
   * for p ≠ 0, `1 / n` for p = 0. A zero denominator (n = 1 with p ≠ 0)
   * gives a value that is not a finite double, modelled as `None`: +∞ for
   * p < 1, NaN for p = 1 and −∞ for p > 1.
   */
  function OtherP(n: nat, p: real): Option<real>
  {
    if p == 0.0 then (if n == 0 then None else Some(1.0 / n as real))
    else if n <= 1 then None
    else Some((1.0 - p) / (n - 1) as real)
  }

  /** One row of `trans_p`: p on the diagonal when p ≠ 0, the other probability elsewhere. */
  function TransitionRow(n: nat, p: real, other: real, i: nat): (row: seq<real>)
    ensures |row| == n
  {
    seq(n, j => if p != 0.0 && j == i then p else other)
  }

  /**
   * `trans_p`: n rows, or the exception thrown when p is not 0 and is below
   * the probability of moving to another template. For a single template
   * that probability is not finite: p < +∞ throws, while NaN and −∞ (p ≥ 1)
   * compare false, so the one row holds p alone.
   */
  function Transitions(n: nat, p: real): (r: Result<seq<seq<real>>>)
    ensures r.Ok? ==> |r.value| == n && forall i :: 0 <= i < n ==> |r.value[i]| == n
  {
    if n == 0 then Ok([])
    else
      match OtherP(n, p)
      case None => if p < 1.0 then Err(SelfTransitionErr) else Ok([[p]])
      case Some(q) =>
        if p != 0.0 && p < q then Err(SelfTransitionErr)
        else Ok(seq(n, i requires 0 <= i < n => TransitionRow(n, p, q, i)))
  }

  lemma {:induction false} SumOneOff(n: nat, i: nat, a: real, b: real)
    ensures Sum(seq(n, j => if j == i then a else b)) == (if i < n then a + (n - 1) as real * b else n as real * b)
    decreases n
  {
    if n > 0 {
      var s := seq(n, j => if j == i then a else b);
      assert s[..n - 1] == seq(n - 1, j => if j == i then a else b);
      SumOneOff(n - 1, i, a, b);
    }
  }

  /**
   * For a probability p (0 ≤ p < 1) the transition matrix exists exactly
   * when p = 0 or p is at least the probability of moving elsewhere; every
   * row is then a distribution whose diagonal entry is its largest.
   */
  lemma TransitionsAreStochastic(n: nat, p: real)
    requires n > 0 && 0.0 <= p < 1.0
    ensures Transitions(n, p).Ok? <==> p == 0.0 || (n > 1 && p >= (1.0 - p) / (n - 1) as real)
    ensures Transitions(n, p).Ok? ==> forall i :: 0 <= i < n ==>
      Sum(Transitions(n, p).value[i]) == 1.0 &&
      forall j :: 0 <= j < n ==> 0.0 <= Transitions(n, p).value[i][j] <= Transitions(n, p).value[i][i]
  {
    if Transitions(n, p).Ok? {
      forall i | 0 <= i < n
        ensures Sum(Transitions(n, p).value[i]) == 1.0
      {
        TransitionRowSums(n, p, i);
      }
    }
  }

  /**
   * A single template: p = 0 gives the row [1]; 0 < p < 1, and a negative
   * p, are refused; p ≥ 1 gives the row [p].
   */
  lemma SingleTemplateTransitions(p: real)
    ensures p == 0.0 ==> Transitions(1, p) == Ok([[1.0]])
    ensures p != 0.0 && p < 1.0 ==> Transitions(1, p) == Err(SelfTransitionErr)
    ensures p >= 1.0 ==> Transitions(1, p) == Ok([[p]])
  {
    if p == 0.0 {
      assert OtherP(1, p) == Some(1.0);
      assert TransitionRow(1, p, 1.0, 0) == [1.0];
      assert seq(1, i requires 0 <= i < 1 => TransitionRow(1, p, 1.0, i)) == [[1.0]];
    }
  }

  /** Each row of the transition matrix sums to 1. */
  lemma TransitionRowSums(n: nat, p: real, i: nat)
    requires i < n && 0.0 <= p < 1.0 && Transitions(n, p).Ok?
    ensures Sum(Transitions(n, p).value[i]) == 1.0
  {
    if p == 0.0 {
      UniformRowSums(n, i);
    } else {
      SelfRowSums(n, p, i);
    }
  }

  /** Without self-transition probability a row is uniform. */
  lemma UniformRowSums(n: nat, i: nat)
    requires 0 < n
    ensures Sum(TransitionRow(n, 0.0, 1.0 / n as real, i)) == 1.0
  {
    var q := 1.0 / n as real;
    assert TransitionRow(n, 0.0, q, i) == seq(n, j => if j == n then q else q);
    SumOneOff(n, n, q, q);
    MultiplyDivided(n as real, 1.0);
  }

  /** p on the diagonal and the rest shared equally by the other n − 1 entries. */
  lemma SelfRowSums(n: nat, p: real, i: nat)
    requires 1 < n && i < n && p != 0.0
    ensures Sum(TransitionRow(n, p, (1.0 - p) / (n - 1) as real, i)) == 1.0
  {
    var q := (1.0 - p) / (n - 1) as real;
    assert TransitionRow(n, p, q, i) == seq(n, j => if j == i then p else q);
    SumOneOff(n, i, p, q);
    MultiplyDivided((n - 1) as real, 1.0 - p);
  }

  lemma MultiplyDivided(m: real, a: real)
    requires m != 0.0
    ensures m * (a / m) == a
  {
  }

  /** The transition matrix `Process_` uses, for its template count. */
  lemma ConfiguredTransitions(n: nat)
    requires n > 1
    ensures Transitions(n, SelfTransitionP).Ok? <==> n >= 10
  {
    TransitionsAreStochastic(n, SelfTransitionP);
    var d := (n - 1) as real;
    if n >= 10 {
      assert (1.0 - SelfTransitionP) / d <= (1.0 - SelfTransitionP) / 9.0 by {
        DivideAntitone(1.0 - SelfTransitionP, 9.0, d);
      }
    } else {
      assert (1.0 - SelfTransitionP) / d >= (1.0 - SelfTransitionP) / 8.0 by {
        DivideAntitone(1.0 - SelfTransitionP, d, 8.0);
      }
    }
  }

  lemma DivideAntitone(a: real, d: real, e: real)
    requires a >= 0.0 && 0.0 < d <= e
    ensures a / e <= a / d
  {
    assert a / e * e == a && a / d * d == a;
    assert a / d * e >= a / d * d;
  }

  /** `trans_p` as the loop builds it, row by row. */
  method BuildTransitions(n: nat, p: real) returns (r: Result<seq<seq<real>>>)
    ensures r == Transitions(n, p)
  {
    ghost var q := if OtherP(n, p).Some? then OtherP(n, p).value else 0.0;
    var rows: seq<seq<real>> := [];
    for i := 0 to n
      invariant |rows| == i
      invariant i > 0 ==> (OtherP(n, p) == Some(q) && (p != 0.0 ==> p >= q)) || (OtherP(n, p).None? && p >= 1.0 && q == 0.0)
      invariant forall k :: 0 <= k < i ==> rows[k] == TransitionRow(n, p, q, k)
    {
      var other := OtherP(n, p);
      var t: seq<real>;
      if other.None? {
        // a single template: the comparison with +∞ holds, with NaN or −∞ it does not
        if p < 1.0 {
          return Err(SelfTransitionErr);
        }
        t := [p];
      } else {
        t := seq(n, _ => other.value);
        if p != 0.0 {
          if p < other.value {
            return Err(SelfTransitionErr);
          }
          t := t[i := p];
        }
      }
      assert t == TransitionRow(n, p, q, i);
      rows := rows + [t];
    }
    if n == 0 {
      return Ok([]);
    }
    if OtherP(n, p).None? {
      assert n == 1 && p != 0.0 && rows[0] == TransitionRow(1, p, q, 0) == [p];
      assert rows == [[p]] && p >= 1.0;
      return Ok(rows);
    }
    assert rows == seq(n, i requires 0 <= i < n => TransitionRow(n, p, q, i));
    return Ok(rows);
  }

  // ---------------------------------------------------------------------
  // Segmentation of the decoded path in `Process_`
  // ---------------------------------------------------------------------

  function Min(a: int, b: int): int { if a <= b then a else b }

  /** Where the loop over the path closes a segment: at a change of state, and at the last index. */
  predicate IsCut(path: seq<nat>, i: nat)
  {
    1 <= i < |path| && (path[i] != path[i - 1] || i == |path| - 1)
  }

  /** The cuts below n, in increasing order. */
  function CutsBelow(path: seq<nat>, n: nat): (cuts: seq<nat>)
    requires n <= |path|
  {
    if n <= 1 then [] else CutsBelow(path, n - 1) + (if IsCut(path, n - 1) then [n - 1] else [])
  }

  function Cuts(path: seq<nat>): seq<nat> { CutsBelow(path, |path|) }

  /** Where the segment closed by cut k opened: at 0, then at the previous cut. */
  function StartOf(cuts: seq<nat>, k: nat): nat
    requires k < |cuts|
  {
    if k == 0 then 0 else cuts[k - 1]
  }

  /** The start of the segment still open after the cuts. */
  function LastCut(cuts: seq<nat>): nat
  {
    if |cuts| == 0 then 0 else cuts[|cuts| - 1]
  }

  /** The path holds one state from s up to, not including, e. */
  predicate ConstantOn(path: seq<nat>, s: nat, e: nat)
  {
    s < e <= |path| && forall t :: s <= t < e ==> path[t] == path[s]
  }

  /** The path is constant on every segment the cuts close. */
  ghost predicate SegmentsConstant(path: seq<nat>, cuts: seq<nat>)
  {
    forall k :: 0 <= k < |cuts| ==> ConstantOn(path, StartOf(cuts, k), cuts[k])
  }

  /** The cuts are increasing and exactly the cut indices below n, and the path is constant between cuts. */
  ghost predicate RunsBelow(path: seq<nat>, n: nat, cuts: seq<nat>)
  {
    (forall i: nat :: i in cuts <==> IsCut(path, i) && i < n) &&
    (forall k, l :: 0 <= k < l < |cuts| ==> cuts[k] < cuts[l]) &&
    SegmentsConstant(path, cuts)
  }

  lemma {:induction false} CutsBelowMembers(path: seq<nat>, n: nat)
    requires n <= |path|
    ensures forall i: nat :: i in CutsBelow(path, n) <==> IsCut(path, i) && i < n
    decreases n
  {
    if n > 1 {
      CutsBelowMembers(path, n - 1);
    }
  }

  lemma {:induction false} CutsBelowIncrease(path: seq<nat>, n: nat)
    requires n <= |path|
    ensures forall k :: 0 <= k < |CutsBelow(path, n)| ==> CutsBelow(path, n)[k] < n
    ensures forall k, l :: 0 <= k < l < |CutsBelow(path, n)| ==> CutsBelow(path, n)[k] < CutsBelow(path, n)[l]
    decreases n
  {
    if n > 1 {
      CutsBelowIncrease(path, n - 1);
    }
  }

  lemma {:induction false} CutsBelowConstant(path: seq<nat>, n: nat)
    requires 0 < n <= |path|
    ensures SegmentsConstant(path, CutsBelow(path, n))
    ensures ConstantOn(path, LastCut(CutsBelow(path, n)), n)
    decreases n
  {
    if n > 1 {
      CutsBelowConstant(path, n - 1);
      if IsCut(path, n - 1) {
        CutStep(path, n);
      } else {
        assert CutsBelow(path, n) == CutsBelow(path, n - 1);
        RunStep(path, LastCut(CutsBelow(path, n - 1)), n);
      }
    }
  }

  /** Closing the open run at e adds one more constant segment. */
  lemma AppendSegment(path: seq<nat>, cuts: seq<nat>, e: nat)
    requires SegmentsConstant(path, cuts) && ConstantOn(path, LastCut(cuts), e)
    ensures SegmentsConstant(path, cuts + [e])
  {
    var cuts' := cuts + [e];
    forall k | 0 <= k < |cuts'| ensures ConstantOn(path, StartOf(cuts', k), cuts'[k]) {
      if k < |cuts| {
        assert cuts'[k] == cuts[k] && StartOf(cuts', k) == StartOf(cuts, k);
      } else {
        assert StartOf(cuts', k) == LastCut(cuts);
      }
    }
  }

  /** A cut at n − 1 closes the open run as one more constant segment. */
  lemma CutStep(path: seq<nat>, n: nat)
    requires 1 < n <= |path| && IsCut(path, n - 1)
    requires SegmentsConstant(path, CutsBelow(path, n - 1))
    requires ConstantOn(path, LastCut(CutsBelow(path, n - 1)), n - 1)
    ensures SegmentsConstant(path, CutsBelow(path, n))
    ensures ConstantOn(path, LastCut(CutsBelow(path, n)), n)
  {
    var cuts := CutsBelow(path, n - 1);
    assert CutsBelow(path, n) == cuts + [n - 1];
    AppendSegment(path, cuts, n - 1);
    assert LastCut(cuts + [n - 1]) == n - 1;
  }

  /** Without a cut at n − 1 the open run extends to n − 1. */
  lemma RunStep(path: seq<nat>, last: nat, n: nat)
    requires 1 < n <= |path| && !IsCut(path, n - 1)
    requires ConstantOn(path, last, n - 1)
    ensures ConstantOn(path, last, n)
  {
    assert path[n - 1] == path[n - 2];
  }

  lemma CutsBelowRuns(path: seq<nat>, n: nat)
    requires 0 < n <= |path|
    ensures RunsBelow(path, n, CutsBelow(path, n))
  {
    CutsBelowMembers(path, n);
    CutsBelowIncrease(path, n);
    CutsBelowConstant(path, n);
  }

  /**
   * The cuts are exactly the cut indices, in increasing order; the path is
   * constant from each segment's start up to its cut; and every cut but the
   * last is a change of state.
   */
  ghost predicate Runs(path: seq<nat>, cuts: seq<nat>)
  {
    RunsBelow(path, |path|, cuts) &&
    (forall k :: 0 <= k < |cuts| ==> cuts[k] < |path|) &&
    (forall k :: 0 <= k < |cuts| - 1 ==> path[cuts[k]] != path[StartOf(cuts, k)])
  }

  /**
   * The cuts split the path into maximal runs: they are exactly the
   * indices where the state changes, plus the last index; they increase;
   * the path is constant on each segment; every cut but the last is a
   * change of state; the last is the last index. A path of fewer than two
   * entries has no cuts.
   */
  lemma CutsAreRuns(path: seq<nat>)
    ensures Runs(path, Cuts(path))
    ensures |path| >= 2 ==> |Cuts(path)| > 0 && Cuts(path)[|Cuts(path)| - 1] == |path| - 1
    ensures |path| < 2 ==> Cuts(path) == []
  {
    var cuts := Cuts(path);
    if |path| >= 2 {
      CutsBelowRuns(path, |path|);
      assert IsCut(path, |path| - 1);
      assert |path| - 1 in cuts;
      var last := cuts[|cuts| - 1];
      assert last in cuts;
      forall k | 0 <= k < |cuts| ensures cuts[k] < |path| {
        assert cuts[k] in cuts;
      }
      forall k | 0 <= k < |cuts| - 1 ensures path[cuts[k]] != path[StartOf(cuts, k)] {
        assert cuts[k] in cuts && cuts[k] < last;
        assert path[cuts[k] - 1] == path[StartOf(cuts, k)];
      }

    } else if |path| == 1 {
      CutsBelowRuns(path, 1);
    }
  }

  /** The segment closed at `cut`, opened at `start`. */
  function SegmentAt(tpls: seq<ChordTpl>, path: seq<nat>, interval: nat, tdSize: nat, start: nat, cut: nat): Segment
    requires tdSize > 0 && start < |path| && path[start] < |tpls|
  {
    var tpl := tpls[path[start]];
    Segment(start * interval, Min(cut * interval, tdSize - 1), MakeChord(tpl.root, tpl.quality), false)
  }

  /** Every entry names a template. */
  predicate AllStates(path: seq<nat>, n: nat)
  {
    forall t :: 0 <= t < |path| ==> path[t] < n
  }

  /** Every segment the cuts close opens below len. */
  predicate StartsInside(cuts: seq<nat>, len: nat)
  {
    forall k :: 0 <= k < |cuts| ==> StartOf(cuts, k) < len
  }

  /** One segment per cut. */
  function SegmentsOf(tpls: seq<ChordTpl>, path: seq<nat>, interval: nat, tdSize: nat, cuts: seq<nat>): (segs: seq<Segment>)
    requires tdSize > 0 && AllStates(path, |tpls|)
    requires StartsInside(cuts, |path|)
    ensures |segs| == |cuts|
  {
    seq(|cuts|, k requires 0 <= k < |cuts| => SegmentAt(tpls, path, interval, tdSize, StartOf(cuts, k), cuts[k]))
  }

  /** The segments of a decoded path. */
  function PathSegments(tpls: seq<ChordTpl>, path: seq<nat>, interval: nat, tdSize: nat): (segs: seq<Segment>)
    requires tdSize > 0 && AllStates(path, |tpls|)
  {
    CutsAreRuns(path);
    SegmentsOf(tpls, path, interval, tdSize, Cuts(path))
  }

  /**
   * segs tiles the samples along the cuts: the first segment starts at 0,
   * each later one starts where the cut before it puts it, each ends at its
   * own cut (clamped to the last sample), none is silence, and each carries
   * the chord of the template its run decodes to.
   */
  ghost predicate Tiles(tpls: seq<ChordTpl>, path: seq<nat>, interval: nat, tdSize: nat, cuts: seq<nat>, segs: seq<Segment>)
  {
    |segs| == |cuts| &&
    (|cuts| > 0 ==> segs[0].startIdx == 0) &&
    (forall k :: 0 <= k < |cuts| - 1 ==> segs[k + 1].startIdx == cuts[k] * interval) &&
    (forall k :: 0 <= k < |cuts| ==> segs[k].endIdx == Min(cuts[k] * interval, tdSize - 1) && !segs[k].silence) &&
    (forall k :: 0 <= k < |cuts| ==>
      (StartOf(cuts, k) < |path| && path[StartOf(cuts, k)] < |tpls| &&
       segs[k].chord == MakeChord(tpls[path[StartOf(cuts, k)]].root, tpls[path[StartOf(cuts, k)]].quality)))
  }

  /** Every segment opens inside the path; a path of fewer than two entries has no cuts. */
  lemma CutsOpenInside(path: seq<nat>)
    ensures StartsInside(Cuts(path), |path|)
    ensures |path| < 2 ==> Cuts(path) == []
  {
    CutsAreRuns(path);
  }

  /** The segments of any cuts tile the samples along them. */
  lemma SegmentsOfTile(tpls: seq<ChordTpl>, path: seq<nat>, interval: nat, tdSize: nat, cuts: seq<nat>)
    requires tdSize > 0 && AllStates(path, |tpls|)
    requires StartsInside(cuts, |path|)
    ensures Tiles(tpls, path, interval, tdSize, cuts, SegmentsOf(tpls, path, interval, tdSize, cuts))
  {
    var segs := SegmentsOf(tpls, path, interval, tdSize, cuts);
    forall k | 0 <= k < |cuts| - 1 ensures segs[k + 1].startIdx == cuts[k] * interval {
      assert StartOf(cuts, k + 1) == cuts[k];
    }
  }

  /**
   * The segments of a path tile its samples along its maximal runs; a path
   * of fewer than two entries gives none.
   */
  lemma SegmentsTile(tpls: seq<ChordTpl>, path: seq<nat>, interval: nat, tdSize: nat)
    requires tdSize > 0 && AllStates(path, |tpls|)
    ensures |path| < 2 ==> PathSegments(tpls, path, interval, tdSize) == []
    ensures Tiles(tpls, path, interval, tdSize, Cuts(path), PathSegments(tpls, path, interval, tdSize))
  {
    CutsOpenInside(path);
    SegmentsOfTile(tpls, path, interval, tdSize, Cuts(path));
  }

  /** Closing the open segment at e appends its segment. */
  lemma SegmentsOfSnoc(tpls: seq<ChordTpl>, path: seq<nat>, interval: nat, tdSize: nat, cuts: seq<nat>, e: nat)
    requires tdSize > 0 && AllStates(path, |tpls|)
    requires StartsInside(cuts, |path|) && LastCut(cuts) < |path|
    ensures StartsInside(cuts + [e], |path|)
    ensures SegmentsOf(tpls, path, interval, tdSize, cuts + [e]) ==
      SegmentsOf(tpls, path, interval, tdSize, cuts) + [SegmentAt(tpls, path, interval, tdSize, LastCut(cuts), e)]
  {
    var cuts' := cuts + [e];
    forall k | 0 <= k < |cuts'| ensures StartOf(cuts', k) < |path| {
      if k < |cuts| {
        assert StartOf(cuts', k) == StartOf(cuts, k);
      }
    }
    var segs' := SegmentsOf(tpls, path, interval, tdSize, cuts');
    var segs := SegmentsOf(tpls, path, interval, tdSize, cuts);
    forall k | 0 <= k < |cuts| ensures segs'[k] == segs[k] {
      assert StartOf(cuts', k) == StartOf(cuts, k) && cuts'[k] == cuts[k];
    }
  }

  /** One pass of the segmentation loop: at a cut, the run that ends there becomes a segment. */
  method SegmentStep(collection: ChordTplCollection, path: seq<nat>, interval: nat, tdSize: nat,
                     segs: seq<Segment>, segStart: nat, ghost cuts: seq<nat>, res: nat)
    returns (segs2: seq<Segment>, segStart2: nat, ghost cuts2: seq<nat>)
    requires tdSize > 0 && AllStates(path, |collection.tpls|) && 1 <= res < |path|
    requires segStart < res && segStart == LastCut(cuts)
    requires cuts == CutsBelow(path, res) && ConstantOn(path, segStart, res)
    requires StartsInside(cuts, |path|)
    requires segs == SegmentsOf(collection.tpls, path, interval, tdSize, cuts)
    ensures segStart2 <= res && segStart2 == LastCut(cuts2)
    ensures cuts2 == CutsBelow(path, res + 1) && ConstantOn(path, segStart2, res + 1)
    ensures StartsInside(cuts2, |path|)
    ensures segs2 == SegmentsOf(collection.tpls, path, interval, tdSize, cuts2)
  {
    if path[res] != path[segStart] || res == |path| - 1 {
      var tpl := collection.GetTpl(path[segStart]);
      var segment := Segment(segStart * interval, Min(res * interval, tdSize - 1),
                             MakeChord(tpl.value.root, tpl.value.quality), false);
      CutAdvance(path, cuts, segStart, res);
      SegmentsOfSnoc(collection.tpls, path, interval, tdSize, cuts, res);
      assert segment == SegmentAt(collection.tpls, path, interval, tdSize, segStart, res);
      cuts2 := cuts + [res];
      segs2 := segs + [segment];
      segStart2 := res;
    } else {
      RunAdvance(path, cuts, segStart, res);
      segs2, segStart2, cuts2 := segs, segStart, cuts;
    }
  }

  /** A change of state, or the last index, closes the open run. */
  lemma CutAdvance(path: seq<nat>, cuts: seq<nat>, segStart: nat, res: nat)
    requires 1 <= res < |path| && cuts == CutsBelow(path, res) && ConstantOn(path, segStart, res)
    requires path[res] != path[segStart] || res == |path| - 1
    ensures cuts + [res] == CutsBelow(path, res + 1) && LastCut(cuts + [res]) == res
    ensures ConstantOn(path, res, res + 1)
  {
    assert path[res - 1] == path[segStart];
    assert IsCut(path, res);
  }

  /** Otherwise the open run goes on through res. */
  lemma RunAdvance(path: seq<nat>, cuts: seq<nat>, segStart: nat, res: nat)
    requires 1 <= res < |path| && cuts == CutsBelow(path, res) && ConstantOn(path, segStart, res)
    requires path[res] == path[segStart] && res != |path| - 1
    ensures cuts == CutsBelow(path, res + 1) && ConstantOn(path, segStart, res + 1)
  {
    assert !IsCut(path, res);
  }

  /** The segmentation loop of `Process_`, without a listener. */
  method SegmentPath(collection: ChordTplCollection, path: seq<nat>, interval: nat, tdSize: nat)
    returns (segs: seq<Segment>)
    requires tdSize > 0 && AllStates(path, |collection.tpls|)
    ensures segs == PathSegments(collection.tpls, path, interval, tdSize)
  {
    var tpls := collection.tpls;
    segs := [];
    var segStart := 0;
    ghost var cuts: seq<nat> := [];
    var res := 1;
    while res < |path|
      invariant segStart < res && segStart == LastCut(cuts)
      invariant |path| > 0 ==> res <= |path| && cuts == CutsBelow(path, res) && ConstantOn(path, segStart, res)
      invariant |path| == 0 ==> cuts == []
      invariant StartsInside(cuts, |path|)
      invariant segs == SegmentsOf(tpls, path, interval, tdSize, cuts)
      decreases |path| - res
    {
      segs, segStart, cuts := SegmentStep(collection, path, interval, tdSize, segs, segStart, cuts, res);
      res := res + 1;
    }
    if |path| > 0 {
      assert cuts == Cuts(path);
    }
  }

  // ---------------------------------------------------------------------
  // The decoding part of `Process_`
  // ---------------------------------------------------------------------

  /**
   * `Process_` from the chromagram on, without a listener: the score matrix,
   * the initial and transition probabilities, the best path through them and
   * its segments. Every exception of the steps is passed on. The source's
   * check that the path has one state per window never fails: a decoded
   * path always has one (asserted below), so that throw is not modelled.
   */
  method Process(collection: ChordTplCollection, chromagram: seq<seq<real>>, interval: nat, tdSize: nat,
                 pow13: real -> real, mul: Viterbi.Mul, sqrt: real -> real) returns (r: Result<seq<Segment>>, path: seq<nat>)
    requires |collection.tpls| > 0 && tdSize > 0
    ensures ScoreMatrix(collection.tpls, chromagram, pow13, sqrt).Err? ==>
      r == Err(ScoreMatrix(collection.tpls, chromagram, pow13, sqrt).msg)
    ensures ScoreMatrix(collection.tpls, chromagram, pow13, sqrt).Ok? && Transitions(|collection.tpls|, SelfTransitionP).Err? ==>
      r == Err(SelfTransitionErr)
    ensures ScoreMatrix(collection.tpls, chromagram, pow13, sqrt).Ok? && Transitions(|collection.tpls|, SelfTransitionP).Ok? ==>
      (r.Ok? <==> |chromagram| > 0) && (|chromagram| == 0 ==> r == Err(Viterbi.ObsEmptyErr))
    ensures r.Ok? ==>
      var score, trans := ScoreMatrix(collection.tpls, chromagram, pow13, sqrt), Transitions(|collection.tpls|, SelfTransitionP);
      score.Ok? && trans.Ok? && Viterbi.Shaped(score.value, InitialDistribution(|collection.tpls|), trans.value) &&
      Viterbi.Decoded(mul, score.value, InitialDistribution(|collection.tpls|), trans.value, path) &&
      |path| == |chromagram| && r.value == PathSegments(collection.tpls, path, interval, tdSize)
  {
    var n := |collection.tpls|;
    path := [];
    var score := GetScoreMatrix(collection, chromagram, pow13, sqrt);
    if score.Err? {
      return Err(score.msg), path;
    }
    var init := InitialDistribution(n);
    var trans := BuildTransitions(n, SelfTransitionP);
    if trans.Err? {
      return Err(trans.msg), path;
    }
    var decoded := Viterbi.GetPath(mul, score.value, init, trans.value);
    if decoded.Err? {
      return Err(decoded.msg), path;
    }
    path := decoded.value;
    assert |path| == |chromagram|;
    var segs := SegmentPath(collection, path, interval, tdSize);
    r := Ok(segs);
  }
}
