/**
 * `PitchCalculator`: a table of 248 equal-tempered pitches, a binary search
 * over it, and the note/octave index arithmetic around it.
 *
 * The table entries come from `pow` and `stdRound`, which are not modelled:
 * the constructor takes the entry for each index as a function `freqOf`,
 * and the methods that round a query frequency take that rounding as
 * `round`. What the model keeps is every index computation and comparison.
 */
module PitchCalculators {
  import opened Wrappers
  import opened LmTypes
  import opened Helpers

  /** `SEMITONES_A0_TO_A4` and `SEMITONES_A4_TO_C8`. */
  const SemitonesA0ToA4: int := -48
  const SemitonesA4ToC8: int := 200
  /** `SEMITONES_TOTAL`: the number of table entries. */
  const SemitonesTotal: int := SemitonesA4ToC8 - SemitonesA0ToA4
  /** The index whose exponent `i + SEMITONES_A0_TO_A4` is zero, i.e. A4. */
  const IdxA4: int := -SemitonesA0ToA4
  const SemitonesPerOctave: int := 12
  /** `FREQ_A4` and `FREQ_INVALID`. */
  const FreqA4: real := 440.0
  const FreqInvalid: real := -1.0

  const InvalidNoteErr: string := "Invalid note"
  const InvalidOctaveErr: string := "Invalid octave"
  const NotPitchErr: string := "Invalid frequency - pitch is expected"
  const InvalidArgErr: string := "Invalid argument"

  /** `IS_PITCH_IDX_VALID`. */
  predicate IsPitchIdxValid(idx: int) { 0 <= idx < SemitonesTotal }

  /** Conversion of an integer to `int16_t` (two's complement wrap-around). */
  function Int16(x: int): (r: int)
    ensures -0x8000 <= r < 0x8000
    ensures (r - x) % 0x1_0000 == 0
    ensures -0x8000 <= x < 0x8000 ==> r == x
  {
    (x + 0x8000) % 0x1_0000 - 0x8000
  }

  /**
   * `a % 12` with C's `%`, which truncates toward zero: the remainder takes
   * the dividend's sign.
   */
  function CRemOctave(a: int): (r: int)
    ensures a >= 0 ==> 0 <= r < SemitonesPerOctave
    ensures a < 0 ==> -SemitonesPerOctave < r <= 0
    ensures (a - r) % SemitonesPerOctave == 0
  {
    if a >= 0 then
      MultipleOfOctave(a / SemitonesPerOctave);
      a % SemitonesPerOctave
    else
      MultipleOfOctave(-((-a) / SemitonesPerOctave));
      -((-a) % SemitonesPerOctave)
  }

  lemma MultipleOfOctave(k: int)
    ensures (SemitonesPerOctave * k) % SemitonesPerOctave == 0
  {
  }

  /** `__mNotesFromA4`: semitones above A (mod 12) to the note. */
  const NotesFromA4: seq<int> :=
    [NoteA, NoteASharp, NoteB, NoteC, NoteCSharp, NoteD,
     NoteDSharp, NoteE, NoteF, NoteFSharp, NoteG, NoteGSharp]

  /** `__mSemitonesFromA4`: the signed distance from A within octave 4. */
  function SemitonesFromA4(note: int): (d: int)
    requires IsNote(note)
    ensures -9 <= d <= 2
  {
    note - NoteA
  }

  /** The two tables are inverse on the twelve notes and the twelve residues. */
  lemma TablesInverse()
    ensures |NotesFromA4| == SemitonesPerOctave
    ensures forall n :: IsNote(n) ==>
      NotesFromA4[(CRemOctave(SemitonesFromA4(n)) + SemitonesPerOctave) % SemitonesPerOctave] == n
    ensures forall k :: 0 <= k < SemitonesPerOctave ==>
      IsNote(NotesFromA4[k]) && SemitonesFromA4(NotesFromA4[k]) % SemitonesPerOctave == k
  {
    forall n | IsNote(n)
      ensures NotesFromA4[(CRemOctave(SemitonesFromA4(n)) + SemitonesPerOctave) % SemitonesPerOctave] == n
    {
      NoteRoundTrip(n);
    }
    forall k | 0 <= k < SemitonesPerOctave
      ensures IsNote(NotesFromA4[k]) && SemitonesFromA4(NotesFromA4[k]) % SemitonesPerOctave == k
    {
      ResidueRoundTrip(k);
    }
  }

  lemma NoteRoundTrip(n: int)
    requires IsNote(n)
    ensures NotesFromA4[(CRemOctave(SemitonesFromA4(n)) + SemitonesPerOctave) % SemitonesPerOctave] == n
  {
    var d := SemitonesFromA4(n);
    if d >= 0 {
      assert CRemOctave(d) == d;
      assert (d + SemitonesPerOctave) % SemitonesPerOctave == d;
    } else {
      assert CRemOctave(d) == d;
      assert (d + SemitonesPerOctave) % SemitonesPerOctave == d + SemitonesPerOctave;
    }
  }

  lemma ResidueRoundTrip(k: int)
    requires 0 <= k < SemitonesPerOctave
    ensures IsNote(NotesFromA4[k]) && SemitonesFromA4(NotesFromA4[k]) % SemitonesPerOctave == k
  {
  }

  /**
   * The note `d` semitones above A4. The source writes the residue as
   * `((d % 12) + 12) % 12` with C's truncating `%`; that is the
   * non-negative residue of `d`.
   */
  function NoteAtDistance(d: int): (n: int)
    ensures IsNote(n)
    ensures n == NotesFromA4[d % SemitonesPerOctave]
  {
    var k := CRemOctave(CRemOctave(d) + SemitonesPerOctave);
    ResidueAgrees(d);
    NotesFromA4[k]
  }

  lemma ResidueAgrees(d: int)
    ensures CRemOctave(CRemOctave(d) + SemitonesPerOctave) == d % SemitonesPerOctave
  {
    var r := CRemOctave(d);
    if d >= 0 {
      var m := d % SemitonesPerOctave;
      assert r == m;
      ModOfOctave(m + SemitonesPerOctave, 1, m);
    } else {
      var q, m := (-d) / SemitonesPerOctave, (-d) % SemitonesPerOctave;
      assert -d == SemitonesPerOctave * q + m;
      assert r == -m;
      if m == 0 {
        ModOfOctave(d, -q, 0);
        ModOfOctave(SemitonesPerOctave, 1, 0);
      } else {
        ModOfOctave(d, -q - 1, SemitonesPerOctave - m);
        ModOfOctave(SemitonesPerOctave - m, 0, SemitonesPerOctave - m);
      }
    }
  }

  /** Euclidean division by 12 is unique: a = 12·q + r with 0 <= r < 12 leaves r. */
  lemma ModOfOctave(a: int, q: int, r: int)
    requires a == SemitonesPerOctave * q + r && 0 <= r < SemitonesPerOctave
    ensures a % SemitonesPerOctave == r
  {
  }

  /** Moving by whole octaves does not change the note. */
  lemma NoteAtDistanceOctaves(n: int, octaves: int)
    requires IsNote(n)
    ensures NoteAtDistance(SemitonesFromA4(n) + SemitonesPerOctave * octaves) == n
  {
    TablesInverse();
    assert (SemitonesFromA4(n) + SemitonesPerOctave * octaves) % SemitonesPerOctave
        == SemitonesFromA4(n) % SemitonesPerOctave;
  }

  /** Two entries in increasing index order are in strictly increasing order. */
  ghost predicate StrictlyIncreasing(freqOf: int -> real)
  {
    forall i, j :: 0 <= i < j < SemitonesTotal ==> freqOf(i) < freqOf(j)
  }

  /** Conversion to `uint32_t`. */
  function UInt32(x: int): (r: nat)
    ensures r < 0x1_0000_0000
    ensures 0 <= x < 0x1_0000_0000 ==> r == x
  {
    x % 0x1_0000_0000
  }

  /**
   * `__getTonic`: a null array or a zero sample rate is refused; otherwise
   * the first index of the maximum among the first `len` entries (entry 0
   * when `len` is 0), times the sample rate over the FFT size, in `uint32_t`
   * arithmetic. A zero `fftSize` would divide by zero, and entry 0 is read
   * whatever `len` is.
   */
  method GetTonic(freqDomain: array?<real>, len: nat, fftSize: nat, sampleRate: nat) returns (r: Result<real>)
    requires len < 0x1_0000_0000 && 0 < fftSize < 0x1_0000_0000 && sampleRate < 0x1_0000_0000
    requires freqDomain != null ==> 1 <= freqDomain.Length && len <= freqDomain.Length
    ensures r.Err? <==> freqDomain == null || sampleRate == 0
    ensures r.Err? ==> r.msg == InvalidArgErr
    ensures r.Ok? ==>
      r.value == (UInt32(FirstMaxIndex(freqDomain[..], if len == 0 then 1 else len) * sampleRate) / fftSize) as real
  {
    if freqDomain == null || sampleRate == 0 {
      return Err(InvalidArgErr);
    }
    var max := freqDomain[0];
    var maxIndex := 0;
    var i := 0;
    while i < len
      invariant 0 <= i <= len
      invariant maxIndex == FirstMaxIndex(freqDomain[..], if i == 0 then 1 else i)
      invariant max == freqDomain[maxIndex]
    {
      var mag := freqDomain[i];
      if mag > max {
        max := mag;
        maxIndex := i;
      }
      i := i + 1;
    }
    return Ok((UInt32(maxIndex * sampleRate) / fftSize) as real);
  }

  /** The index of a note in an octave given the A4 index, before the validity test. */
  function NoteIdx(idxA4: int, note: int, octave: int): (idx: int)
    requires IsNote(note)
  {
    Int16(idxA4 + Int16(SemitonesFromA4(note) + (octave - Octave4) * SemitonesPerOctave))
  }

  class PitchCalculator {
    /** `__mPitches`. */
    var pitches: array<real>
    /** `__mPitchIdxA4`. */
    var idxA4: int

    ghost predicate Valid()
      reads this, pitches
    {
      pitches.Length == SemitonesTotal &&
      (forall i, j :: 0 <= i < j < SemitonesTotal ==> pitches[i] < pitches[j]) &&
      0.0 < pitches[0] &&
      idxA4 == IdxA4 && pitches[idxA4] == FreqA4
    }

    /**
     * The constructor and `__initPitches`: entry i is `freqOf(i)`, the
     * rounded `2^((i - 48) / 12) * 440`, and the A4 index is the last entry
     * equal to 440. The preconditions are what that formula gives:
     * positive, strictly increasing entries with exactly 440 at index 48.
     */
    constructor (freqOf: int -> real)
      requires StrictlyIncreasing(freqOf) && 0.0 < freqOf(0) && freqOf(IdxA4) == FreqA4
      ensures Valid()
      ensures pitches[..] == seq(SemitonesTotal, i => freqOf(i))
      ensures fresh(pitches)
    {
      var p := new real[SemitonesTotal];
      var a := 0;
      for i := 0 to SemitonesTotal
        invariant forall k :: 0 <= k < i ==> p[k] == freqOf(k)
        invariant i > IdxA4 ==> a == IdxA4
      {
        p[i] := freqOf(i);
        if p[i] == FreqA4 {
          a := i;
        }
      }
      pitches := p;
      idxA4 := a;
    }

    /**
     * `__getPitchIdx`: binary search for the rounded frequency; the index of
     * the equal entry, or -1 when no entry equals it.
     */
    method GetPitchIdx(freq: real, round: real -> real) returns (r: int)
      requires Valid()
      ensures -1 <= r < SemitonesTotal
      ensures r >= 0 ==> pitches[r] == round(freq)
      ensures r == -1 <==> round(freq) !in pitches[..]
    {
      var f := round(freq);
      var start, end := 0, SemitonesTotal - 1;
      while start <= end
        invariant 0 <= start <= end + 1 <= SemitonesTotal
        invariant forall k :: 0 <= k < start ==> pitches[k] < f
        invariant forall k :: end < k < SemitonesTotal ==> f < pitches[k]
        decreases end - start
      {
        var mid := start + (end - start) / 2;
        if pitches[mid] < f {
          start := mid + 1;
        } else if pitches[mid] > f {
          end := mid - 1;
        } else {
          return mid;
        }
      }
      return -1;
    }

    /** `__isPitch`: whether the rounded frequency is a table entry. */
    method IsPitch(freq: real, round: real -> real) returns (b: bool)
      requires Valid()
      ensures b <==> round(freq) in pitches[..]
    {
      var idx := GetPitchIdx(freq, round);
      return idx >= 0;
    }

    /**
     * `getPitchByInterval`: the entry `n` places from the pitch, or
     * `FREQ_INVALID` when the pitch is not an entry or the move leaves the
     * table. The sum is taken in `int16_t`; it never wraps back into the
     * table (`Int16NeverWrapsIntoTable`).
     */
    method GetPitchByInterval(pitch: real, n: int, round: real -> real) returns (r: real)
      requires Valid() && -0x8000 <= n < 0x8000
      ensures round(pitch) !in pitches[..] ==> r == FreqInvalid
      ensures forall i :: 0 <= i < SemitonesTotal && pitches[i] == round(pitch) ==>
        r == (if IsPitchIdxValid(i + n) then pitches[i + n] else FreqInvalid)
      ensures r == FreqInvalid || r > 0.0
    {
      var pitchIdx := GetPitchIdx(pitch, round);
      if pitchIdx < 0 {
        return FreqInvalid;
      }
      var retIdx := Int16(pitchIdx + n);
      Int16NeverWrapsIntoTable(pitchIdx, n);
      PositiveEntries();
      r := if IsPitchIdxValid(retIdx) then pitches[retIdx] else FreqInvalid;
    }

    lemma PositiveEntries()
      requires Valid()
      ensures forall i :: 0 <= i < SemitonesTotal ==> pitches[i] > 0.0
    {
      forall i | 0 < i < SemitonesTotal ensures pitches[i] > 0.0 {
        assert pitches[0] < pitches[i];
      }
    }

    /**
     * `noteToPitch`: a note outside [C, B] or an octave outside
     * [OCTAVE_2, OCTAVE_7] is refused; otherwise the entry at the A4 index
     * plus the note's distance from A plus 12 per octave above the fourth.
     */
    function NoteToPitch(note: int, octave: int): (r: Result<real>)
      requires Valid()
      reads this, pitches
      ensures r.Err? <==> !IsNote(note) || octave < OctaveMin || octave > OctaveMax
      ensures !IsNote(note) ==> r == Err(InvalidNoteErr)
      ensures IsNote(note) && (octave < OctaveMin || octave > OctaveMax) ==> r == Err(InvalidOctaveErr)
    {
      if !IsNote(note) then Err(InvalidNoteErr)
      else if octave < OctaveMin || octave > OctaveMax then Err(InvalidOctaveErr)
      else
        var idx := NoteIdx(idxA4, note, octave);
        if !IsPitchIdxValid(idx) then Ok(FreqInvalid) else Ok(pitches[idx])
    }

    /** For valid arguments the index never leaves [idxA4 - 33, idxA4 + 38], so FREQ_INVALID never comes back. */
    lemma NoteIdxInRange(note: int, octave: int)
      requires Valid() && IsNote(note) && OctaveMin <= octave <= OctaveMax
      ensures NoteIdx(idxA4, note, octave) == idxA4 + SemitonesFromA4(note) + (octave - Octave4) * SemitonesPerOctave
      ensures idxA4 - 33 <= NoteIdx(idxA4, note, octave) <= idxA4 + 38
      ensures NoteToPitch(note, octave) == Ok(pitches[NoteIdx(idxA4, note, octave)])
      ensures NoteToPitch(note, octave).value > 0.0
    {
      PositiveEntries();
    }

    /** A4 is 440. */
    lemma NoteToPitchA4()
      requires Valid()
      ensures NoteToPitch(NoteA, Octave4) == Ok(FreqA4)
    {
      NoteIdxInRange(NoteA, Octave4);
    }

    /**
     * The note of a frequency, as `pitchToNote` computes it: refused for a
     * frequency that is not a table entry once rounded, otherwise the note
     * at its semitone distance from A4 (`semitonesDistance(freq, 440)`,
     * whose logarithm is the parameter `semitones`).
     */
    ghost function PitchNote(freq: real, round: real -> real, semitones: real -> int): (r: Result<int>)
      requires Valid()
      reads this, pitches
      ensures r.Err? <==> round(freq) !in pitches[..]
      ensures r.Ok? ==> IsNote(r.value)
    {
      if round(freq) !in pitches[..] then Err(NotPitchErr)
      else Ok(NoteAtDistance(semitones(freq)))
    }

    /** `pitchToNote`. */
    method PitchToNote(freq: real, round: real -> real, semitones: real -> int) returns (r: Result<int>)
      requires Valid()
      ensures r == PitchNote(freq, round, semitones)
    {
      var isPitch := IsPitch(freq, round);
      if !isPitch {
        return Err(NotPitchErr);
      }
      var d := semitones(freq);
      var k := CRemOctave(CRemOctave(d) + SemitonesPerOctave);
      ResidueAgrees(d);
      return Ok(if 0 <= k < |NotesFromA4| then NotesFromA4[k] else NoteUnknown);
    }

    /**
     * Round trip: when rounding leaves table entries alone and the semitone
     * distance of entry i from A4 is `i - idxA4` (what the rounded logarithm
     * gives for the table's own entries), the note of `noteToPitch(n, o)` is n.
     */
    lemma NoteToPitchToNote(note: int, octave: int, round: real -> real, semitones: real -> int)
      requires Valid() && IsNote(note) && OctaveMin <= octave <= OctaveMax
      requires forall i :: 0 <= i < SemitonesTotal ==> round(pitches[i]) == pitches[i]
      requires forall i :: 0 <= i < SemitonesTotal ==> semitones(pitches[i]) == i - idxA4
      ensures NoteToPitch(note, octave).Ok?
      ensures PitchNote(NoteToPitch(note, octave).value, round, semitones) == Ok(note)
    {
      NoteIdxInRange(note, octave);
      var idx := NoteIdx(idxA4, note, octave);
      assert pitches[..][idx] == pitches[idx];
      NoteAtDistanceOctaves(note, octave - Octave4);
    }
  }

  /**
   * An `int16_t` sum of a table index and an `int16_t` step lands in the
   * table exactly when the true sum does.
   */
  lemma Int16NeverWrapsIntoTable(idx: int, n: int)
    requires 0 <= idx < SemitonesTotal && -0x8000 <= n < 0x8000
    ensures IsPitchIdxValid(Int16(idx + n)) <==> IsPitchIdxValid(idx + n)
    ensures IsPitchIdxValid(idx + n) ==> Int16(idx + n) == idx + n
  {
    if idx + n >= 0x8000 {
      assert Int16(idx + n) == idx + n - 0x1_0000;
    }
  }
}
