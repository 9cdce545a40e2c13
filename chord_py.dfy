/**
 * The dataset-extraction tool's chord annotations: a chord is a time range
 * with a label, and a song holds the list of its chords without the
 * no-chord label 'N' that may open it. The song keeps the caller's list
 * object and removes that label from it, so the caller sees the change.
 */
module DatasetChords {
  /** The label of a stretch without a chord. */
  const NoChordLabel: string := "N"

  /** `Chord(start_time, end_time, label)`: stored as given; nothing checks that the end follows the start. */
  datatype Chord = Chord(startTime: real, endTime: real, chordLabel: string)

  /**
   * `Chord.__repr__`: "(start, end, label)". How a time is written is
   * Python's `str` of a number, not part of this model, and arrives as the
   * parameter `show`.
   */
  function Repr(c: Chord, show: real -> string): (r: string)
    ensures |r| == |show(c.startTime)| + |show(c.endTime)| + |c.chordLabel| + 6
  {
    "(" + show(c.startTime) + ", " + show(c.endTime) + ", " + c.chordLabel + ")"
  }

  /**
   * The rendering opens with the start time and closes with the label,
   * each readable back from its place: the text after "(" starts with the
   * start time and the text before ")" ends with the label.
   */
  lemma ReprReadsBack(c: Chord, show: real -> string)
    ensures Repr(c, show)[0] == '(' && Repr(c, show)[|Repr(c, show)| - 1] == ')'
    ensures Repr(c, show)[1..1 + |show(c.startTime)|] == show(c.startTime)
    ensures Repr(c, show)[|Repr(c, show)| - 1 - |c.chordLabel|..|Repr(c, show)| - 1] == c.chordLabel
  {
    var r := Repr(c, show);
    var s := show(c.startTime);
    assert r == "(" + s + (", " + show(c.endTime) + ", " + c.chordLabel + ")");
    assert r[1..1 + |s|] == s;
    assert r == ("(" + show(c.startTime) + ", " + show(c.endTime) + ", ") + c.chordLabel + ")";
  }

  /** The list a song leaves: without its first chord when that one is labelled 'N'; an empty list stays empty. */
  function StrippedOnce(chords: seq<Chord>): (r: seq<Chord>)
  {
    if |chords| > 0 && chords[0].chordLabel == NoChordLabel then chords[1..] else chords
  }

  /**
   * Only a leading 'N' goes, and only one: the result is the list or its
   * tail, it keeps every chord not labelled 'N' and everything after the
   * first chord, and a second leading 'N' stays.
   */
  lemma StrippedOnceSpec(chords: seq<Chord>)
    ensures StrippedOnce(chords) == chords || StrippedOnce(chords) == chords[1..]
    ensures |chords| > 0 && chords[0].chordLabel == NoChordLabel <==> |StrippedOnce(chords)| == |chords| - 1
    ensures |chords| > 0 ==> StrippedOnce(chords)[|StrippedOnce(chords)| - (|chords| - 1)..] == chords[1..]
    ensures |chords| >= 2 && chords[0].chordLabel == NoChordLabel && chords[1].chordLabel == NoChordLabel ==>
      StrippedOnce(chords)[0].chordLabel == NoChordLabel
    ensures forall c :: c in chords && c.chordLabel != NoChordLabel ==> c in StrippedOnce(chords)
  {
    if |chords| > 0 && chords[0].chordLabel == NoChordLabel {
      forall c | c in chords && c.chordLabel != NoChordLabel ensures c in chords[1..] {
        var i :| 0 <= i < |chords| && chords[i] == c;
        assert chords[1..][i - 1] == c;
      }
    }
  }

  /** A Python list of chords, an object that others may hold too. */
  class ChordList {
    var items: seq<Chord>

    constructor (items: seq<Chord>)
      ensures this.items == items
    {
      this.items := items;
    }

    /** `pop(0)`: removes the first element, which the caller makes sure exists. */
    method PopFront() returns (first: Chord)
      requires |items| > 0
      modifies this
      ensures first == old(items[0]) && items == old(items[1..])
    {
      first := items[0];
      items := items[1..];
    }
  }

  class Song {
    /** The caller's list itself, not a copy. */
    const chordsList: ChordList

    /**
     * `Song(chords_list)`: keeps the list and pops its first chord when that
     * one is labelled 'N'. Reading the first chord of an empty list raises,
     * and the handler only prints a message, so an empty list is left as it
     * is and nothing is raised.
     */
    constructor (chordsList: ChordList)
      modifies chordsList
      ensures this.chordsList == chordsList
      ensures chordsList.items == StrippedOnce(old(chordsList.items))
    {
      this.chordsList := chordsList;
      new;
      if |chordsList.items| > 0 && chordsList.items[0].chordLabel == NoChordLabel {
        var _ := chordsList.PopFront();
      }
    }
  }
}
