/**
 * Notes, octaves, chord qualities and the `Chord` value of libmusic.
 *
 * A `note_t` is a C++ enumeration that the library happily lets drift out of
 * its declared range (the lazy wrap of `operator+` produces 13 and 14), so a
 * note is modelled as a plain `int` and the enumerators as constants.
 */
module LmTypes {
  import opened Wrappers

  // note_t
  const NoteUnknown: int := 0
  const NoteC: int := 1
  const NoteCSharp: int := 2
  const NoteD: int := 3
  const NoteDSharp: int := 4
  const NoteE: int := 5
  const NoteF: int := 6
  const NoteFSharp: int := 7
  const NoteG: int := 8
  const NoteGSharp: int := 9
  const NoteA: int := 10
  const NoteASharp: int := 11
  const NoteB: int := 12
  const NoteMin: int := NoteC
  const NoteMax: int := NoteB
  const NotesTotal: int := NoteMax - NoteMin + 1

  // octave_t
  const Octave0: int := 0
  const Octave2: int := 2
  const Octave3: int := 3
  const Octave4: int := 4
  const Octave5: int := 5
  const Octave6: int := 6
  const Octave7: int := 7
  const OctaveMin: int := Octave2
  const OctaveMax: int := Octave7
  const OctavesCnt: int := OctaveMax - OctaveMin + 1

  // chord_quality_t
  const CqUnknown: int := 0
  const CqMaj: int := 1
  const CqMinor: int := 2
  const Cq5: int := 3
  const Cq7: int := 4
  const CqMaj7: int := 5
  const CqMin7: int := 6
  const CqSus2: int := 7
  const CqSus4: int := 8
  const CqHdim7: int := 9
  const CqAug: int := 10
  const CqDim: int := 11
  const CqDim7: int := 12
  const CqMajAdd9: int := 13
  const CqMinAdd9: int := 14
  const CqMaj6: int := 15
  const CqMin6: int := 16
  const CqMaj9: int := 17
  const CqMin9: int := 18
  const CqMajAdd11: int := 19
  const Cq7Add9Sharp: int := 20
  const Cq9: int := 21
  const CqAug7: int := 22
  const CqMaj11: int := 23
  const CqMin11: int := 24
  const CqMaj13: int := 25
  const CqMin13: int := 26
  const CqMin: int := CqMaj
  const CqMax: int := CqMin13

  predicate IsNote(n: int) { NoteMin <= n <= NoteMax }

  /** `complex_t`, a pair of doubles. */
  datatype Complex = Complex(re: real, im: real)

  const Zero: Complex := Complex(0.0, 0.0)

  /**
   * `operator+(note_t&, int32_t)`: the wrap-around looks at the incoming
   * note, not at the sum, so a note inside [C, B] is moved without wrapping.
   */
  function NotePlus(note: int, term: int): (r: int)
    ensures (r - (note + term)) % NotesTotal == 0
    ensures IsNote(note) ==> r == note + term
    ensures note > NoteMax ==> r == note + term - NotesTotal
    ensures note < NoteMin ==> r == note + term + NotesTotal
  {
    var tmp := note + term;
    if note > NoteMax then tmp - NoteMax
    else if note < NoteMin then tmp + NoteMax
    else tmp
  }

  /**
   * The operator takes its note by reference: it overwrites the referenced
   * slot with the result and hands back that same slot's value.
   */
  method AddAssign(notes: array<int>, k: nat, term: int) returns (r: int)
    requires k < notes.Length
    modifies notes
    ensures notes[k] == NotePlus(old(notes[k]), term)
    ensures r == notes[k]
    ensures forall i :: 0 <= i < notes.Length && i != k ==> notes[i] == old(notes[i])
  {
    notes[k] := NotePlus(notes[k], term);
    r := notes[k];
  }

  /** `Chord` (chord_t): root, bass note, bass interval (an int8_t) and quality. */
  datatype Chord = Chord(root: int, bass: int, bassInterval: int, quality: int)

  /** `Chord(n, q)`: bass note and bass interval take their defaults. */
  function MakeChord(n: int, q: int): (c: Chord)
    ensures c.root == n && c.quality == q
    ensures c.bass == NoteUnknown && c.bassInterval == -1
  {
    Chord(n, NoteUnknown, -1, q)
  }

  /** `Chord()`, which delegates to `Chord(note_Unknown, cq_unknown)`. */
  function DefaultChord(): (c: Chord)
    ensures c == Chord(NoteUnknown, NoteUnknown, -1, CqUnknown)
  {
    MakeChord(NoteUnknown, CqUnknown)
  }

  /** `operator==`: all four fields compared, so equal chords are the same value. */
  function Equal(c1: Chord, c2: Chord): (b: bool)
    ensures b <==> c1 == c2
  {
    c1.root == c2.root && c1.quality == c2.quality &&
    c1.bass == c2.bass && c1.bassInterval == c2.bassInterval
  }

  /** `operator!=`: differs from some other chord value. */
  function NotEqual(c1: Chord, c2: Chord): (b: bool)
    ensures b <==> c1 != c2
  {
    !Equal(c1, c2)
  }

  /** `operator<`: by root, then by quality; the bass is never looked at. */
  function Less(c1: Chord, c2: Chord): (b: bool)
    ensures b ==> c1 != c2
    ensures c1.root == c2.root && c1.quality == c2.quality ==> !b
  {
    if Equal(c1, c2) then false
    else (c1.root != c2.root && c1.root < c2.root) ||
         (c1.root == c2.root && c1.quality < c2.quality)
  }

  lemma EqualIsIdentity(c1: Chord, c2: Chord)
    ensures Equal(c1, c2) <==> c1 == c2
    ensures NotEqual(c1, c2) <==> c1 != c2
  {
  }

  /** Unequal chords are ordered exactly by (root, quality) lexicographically. */
  lemma LessCharacterised(c1: Chord, c2: Chord)
    ensures Less(c1, c2) <==>
      c1 != c2 && (c1.root < c2.root || (c1.root == c2.root && c1.quality < c2.quality))
  {
  }

  lemma LessIrreflexiveAsymmetricTransitive(c1: Chord, c2: Chord, c3: Chord)
    ensures !Less(c1, c1)
    ensures Less(c1, c2) ==> !Less(c2, c1)
    ensures Less(c1, c2) && Less(c2, c3) ==> Less(c1, c3)
  {
  }

  /**
   * Chords that differ only in their bass are unequal, yet neither is below
   * the other: `<` is not a strict weak order compatible with `==`.
   */
  lemma LessIgnoresBass(c1: Chord, c2: Chord)
    requires c1.root == c2.root && c1.quality == c2.quality
    requires c1.bass != c2.bass || c1.bassInterval != c2.bassInterval
    ensures NotEqual(c1, c2)
    ensures !Less(c1, c2) && !Less(c2, c1)
  {
  }

  /** The number a string of decimal digits denotes, read most significant digit first. */
  function DigitsValue(s: string): int
  {
    if |s| == 0 then 0 else 10 * DigitsValue(s[..|s| - 1]) + (s[|s| - 1] as int - 48)
  }

  /**
   * Decimal rendering of a non-negative integer, as `ostream << int` prints
   * it: digits only, no leading zero, denoting n.
   */
  function NatToString(n: nat): (s: string)
    ensures |s| >= 1
    ensures forall i :: 0 <= i < |s| ==> '0' <= s[i] <= '9'
    ensures DigitsValue(s) == n
    ensures n > 0 ==> s[0] != '0'
    decreases n
  {
    var d := [(48 + n % 10) as char];
    if n < 10 then d
    else
      var t := NatToString(n / 10);
      assert (t + d)[..|t + d| - 1] == t;
      t + d
  }

  /**
   * The text of s before the first ch, and what follows that ch, if any: how
   * a reader takes a label apart at a separator.
   */
  function SplitAt(s: string, ch: char): (r: (string, Option<string>))
    ensures r.1.None? ==> r.0 == s
    ensures r.1.Some? ==> r.0 + [ch] + r.1.value == s
    ensures ch !in r.0
  {
    if |s| == 0 then (s, None)
    else if s[0] == ch then ([], Some(s[1..]))
    else
      var p := SplitAt(s[1..], ch);
      ([s[0]] + p.0, p.1)
  }

  /** Splitting at the first ch of a + [ch] + b gives a and b back. */
  lemma {:induction false} SplitFound(a: string, b: string, ch: char)
    requires ch !in a
    ensures SplitAt(a + [ch] + b, ch) == (a, Some(b))
  {
    if |a| == 0 {
      assert a + [ch] + b == [ch] + b;
    } else {
      assert (a + [ch] + b)[1..] == a[1..] + [ch] + b;
      SplitFound(a[1..], b, ch);
      assert [a[0]] + a[1..] == a;
    }
  }

  /** A string without ch does not split. */
  lemma {:induction false} SplitAbsent(a: string, ch: char)
    requires ch !in a
    ensures SplitAt(a, ch) == (a, None)
  {
    if |a| > 0 {
      SplitAbsent(a[1..], ch);
      assert [a[0]] + a[1..] == a;
    }
  }

  /** The printed names of notes and qualities contain neither ':' nor '/'. */
  ghost predicate PlainNames(noteName: int -> string, qualityName: int -> string)
  {
    (forall n :: ':' !in noteName(n) && '/' !in noteName(n)) &&
    (forall q :: ':' !in qualityName(q) && '/' !in qualityName(q))
  }

  /**
   * The fields of a Harte label: the root's text before ':', the quality's
   * text between ':' and '/', and the number after '/'.
   */
  function HarteFields(r: string): (string, Option<string>, Option<int>)
  {
    var (main, bass) := SplitAt(r, '/');
    var (root, quality) := SplitAt(main, ':');
    (root, quality, if bass.Some? then Some(DigitsValue(bass.value)) else None)
  }

  /**
   * `toHarte`: the root; then ':' and the quality only for a known root; then
   * '/' and the bass interval only when the interval is above 1. The names
   * of notes and qualities (`operator<<`) are parameters. When those names
   * hold no separator, the label reads back as exactly these fields.
   */
  function ToHarte(c: Chord, noteName: int -> string, qualityName: int -> string): (r: string)
    ensures |noteName(c.root)| <= |r| && r[..|noteName(c.root)|] == noteName(c.root)
    ensures PlainNames(noteName, qualityName) ==> (':' in r <==> c.root != NoteUnknown)
    ensures PlainNames(noteName, qualityName) ==> ('/' in r <==> c.bassInterval > 1)
    ensures PlainNames(noteName, qualityName) ==>
      HarteFields(r) == (noteName(c.root),
                         if c.root != NoteUnknown then Some(qualityName(c.quality)) else None,
                         if c.bassInterval > 1 then Some(c.bassInterval) else None)
  {
    var head := noteName(c.root);
    var withQuality := if c.root != NoteUnknown then head + ":" + qualityName(c.quality) else head;
    var r := if c.bassInterval > 1 then withQuality + "/" + NatToString(c.bassInterval) else withQuality;
    HarteSeparators(c, noteName, qualityName, head, withQuality, r);
    HarteReadsBack(c, noteName, qualityName, head, withQuality, r);
    r
  }

  /** The prefix and separator facts of `ToHarte`. */
  lemma HarteSeparators(c: Chord, noteName: int -> string, qualityName: int -> string,
                        head: string, withQuality: string, r: string)
    requires head == noteName(c.root)
    requires withQuality == if c.root != NoteUnknown then head + ":" + qualityName(c.quality) else head
    requires r == if c.bassInterval > 1 then withQuality + "/" + NatToString(c.bassInterval) else withQuality
    ensures |head| <= |r| && r[..|head|] == head
    ensures PlainNames(noteName, qualityName) ==> (':' in r <==> c.root != NoteUnknown)
    ensures PlainNames(noteName, qualityName) ==> ('/' in r <==> c.bassInterval > 1)
  {
    assert PlainNames(noteName, qualityName) ==> (':' in withQuality <==> c.root != NoteUnknown) by {
      if c.root != NoteUnknown {
        assert withQuality[|head|] == ':';
      }
    }
    assert r[..|head|] == head by {
      assert withQuality[..|head|] == head;
    }
    DigitsHaveNoSeparators(if c.bassInterval > 1 then c.bassInterval else 0);
    assert PlainNames(noteName, qualityName) ==> (':' in r <==> c.root != NoteUnknown) by {
      if c.bassInterval > 1 {
        assert r == withQuality + ("/" + NatToString(c.bassInterval));
        ConcatMembership(withQuality, "/" + NatToString(c.bassInterval), ':');
      }
    }
    assert PlainNames(noteName, qualityName) ==> ('/' in r <==> c.bassInterval > 1) by {
      if PlainNames(noteName, qualityName) {
        if c.root != NoteUnknown {
          ConcatMembership(head + ":", qualityName(c.quality), '/');
          ConcatMembership(head, ":", '/');
        }
        if c.bassInterval > 1 {
          assert r[|withQuality|] == '/';
        }
      }
    }
  }

  /** Reading a Harte label built from separator-free names gives its fields back. */
  lemma HarteReadsBack(c: Chord, noteName: int -> string, qualityName: int -> string,
                       head: string, withQuality: string, r: string)
    requires head == noteName(c.root)
    requires withQuality == if c.root != NoteUnknown then head + ":" + qualityName(c.quality) else head
    requires r == if c.bassInterval > 1 then withQuality + "/" + NatToString(c.bassInterval) else withQuality
    ensures PlainNames(noteName, qualityName) ==>
      HarteFields(r) == (noteName(c.root),
                         if c.root != NoteUnknown then Some(qualityName(c.quality)) else None,
                         if c.bassInterval > 1 then Some(c.bassInterval) else None)
  {
    if PlainNames(noteName, qualityName) {
      HarteFieldsOfPlain(c, noteName, qualityName, head, withQuality, r);
    }
  }

  lemma HarteFieldsOfPlain(c: Chord, noteName: int -> string, qualityName: int -> string,
                           head: string, withQuality: string, r: string)
    requires PlainNames(noteName, qualityName)
    requires head == noteName(c.root)
    requires withQuality == if c.root != NoteUnknown then head + ":" + qualityName(c.quality) else head
    requires r == if c.bassInterval > 1 then withQuality + "/" + NatToString(c.bassInterval) else withQuality
    ensures HarteFields(r) == (noteName(c.root),
                               if c.root != NoteUnknown then Some(qualityName(c.quality)) else None,
                               if c.bassInterval > 1 then Some(c.bassInterval) else None)
  {
    assert ':' !in head && '/' !in head;
    assert '/' !in withQuality by {
      if c.root != NoteUnknown {
        assert '/' !in qualityName(c.quality);
        ConcatMembership(head + ":", qualityName(c.quality), '/');
        ConcatMembership(head, ":", '/');
      }
    }
    if c.bassInterval > 1 {
      assert r == withQuality + ['/'] + NatToString(c.bassInterval);
      SplitFound(withQuality, NatToString(c.bassInterval), '/');
    } else {
      SplitAbsent(r, '/');
    }
    if c.root != NoteUnknown {
      assert withQuality == head + [':'] + qualityName(c.quality);
      SplitFound(head, qualityName(c.quality), ':');
    } else {
      SplitAbsent(head, ':');
    }
  }

  /**
   * `toUser`: root then quality, then '/' and the bass note only when the bass
   * interval is above 1. When the names hold no '/', the label splits at '/'
   * into the root and quality text and the bass note's name.
   */
  function ToUser(c: Chord, noteName: int -> string, qualityName: int -> string): (r: string)
    ensures |noteName(c.root)| <= |r| && r[..|noteName(c.root)|] == noteName(c.root)
    ensures PlainNames(noteName, qualityName) ==> ('/' in r <==> c.bassInterval > 1)
    ensures PlainNames(noteName, qualityName) ==>
      SplitAt(r, '/') == (noteName(c.root) + qualityName(c.quality),
                          if c.bassInterval > 1 then Some(noteName(c.bass)) else None)
  {
    var head := noteName(c.root) + qualityName(c.quality);
    var r := if c.bassInterval > 1 then head + "/" + noteName(c.bass) else head;
    assert r[..|noteName(c.root)|] == noteName(c.root) by {
      assert head[..|noteName(c.root)|] == noteName(c.root);
    }
    UserReadsBack(c, noteName, qualityName, head, r);
    r
  }

  /** Splitting a user label built from separator-free names at '/' gives its two parts back. */
  lemma UserReadsBack(c: Chord, noteName: int -> string, qualityName: int -> string, head: string, r: string)
    requires head == noteName(c.root) + qualityName(c.quality)
    requires r == if c.bassInterval > 1 then head + "/" + noteName(c.bass) else head
    ensures PlainNames(noteName, qualityName) ==> ('/' in r <==> c.bassInterval > 1)
    ensures PlainNames(noteName, qualityName) ==>
      SplitAt(r, '/') == (head, if c.bassInterval > 1 then Some(noteName(c.bass)) else None)
  {
    if PlainNames(noteName, qualityName) {
      assert '/' !in noteName(c.root) && '/' !in qualityName(c.quality);
      ConcatMembership(noteName(c.root), qualityName(c.quality), '/');
      if c.bassInterval > 1 {
        assert r == head + ['/'] + noteName(c.bass);
        assert r[|head|] == '/';
        SplitFound(head, noteName(c.bass), '/');
      } else {
        SplitAbsent(r, '/');
      }
    }
  }

  lemma ConcatMembership(a: string, b: string, ch: char)
    ensures ch in a + b <==> ch in a || ch in b
  {
    if ch in a + b {
      var i :| 0 <= i < |a + b| && (a + b)[i] == ch;
      if i < |a| { assert a[i] == ch; } else { assert b[i - |a|] == ch; }
    }
    if ch in b {
      var j :| 0 <= j < |b| && b[j] == ch;
      assert (a + b)[|a| + j] == ch;
    }
  }

  lemma DigitsHaveNoSeparators(n: nat)
    ensures ':' !in NatToString(n) && '/' !in NatToString(n)
  {
  }
}
