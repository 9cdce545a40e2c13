/**
 * `MusicScale::getMajorScale`: the root, seven steps of the major formula
 * taken with the lazily wrapping note `operator+`, then entries 1..7 again.
 */
module MusicScale {
  import opened LmTypes

  /** whole, whole, half, whole, whole, whole, half */
  const Formula: seq<int> := [2, 2, 1, 2, 2, 2, 1]

  /** Semitones from the root to scale entry k, for k in 0..7. */
  function FormulaSum(k: nat): int
    requires k <= |Formula|
  {
    if k == 0 then 0 else FormulaSum(k - 1) + Formula[k - 1]
  }

  /** The first k + 1 notes: the root and k steps of the formula. */
  function ScaleHead(root: int, k: nat): (s: seq<int>)
    requires k <= |Formula|
    ensures |s| == k + 1 && s[0] == root
  {
    if k == 0 then [root]
    else
      var h := ScaleHead(root, k - 1);
      h + [NotePlus(h[k - 1], Formula[k - 1])]
  }

  /** The specification of the returned vector. */
  function MajorScale(root: int): seq<int>
  {
    var h := ScaleHead(root, |Formula|);
    h + h[1..]
  }

  method GetMajorScale(root: int) returns (scale: seq<int>)
    ensures scale == MajorScale(root)
  {
    var note := root;
    scale := [note];
    var i := 0;
    while i < |Formula|
      invariant 0 <= i <= |Formula|
      invariant scale == ScaleHead(root, i)
      invariant note == scale[i]
    {
      note := NotePlus(note, Formula[i]);
      scale := scale + [note];
      i := i + 1;
    }
    scale := scale + scale[1..];
  }

  lemma {:induction false} ScaleHeadPrefix(root: int, k: nat, j: nat)
    requires j <= k <= |Formula|
    ensures ScaleHead(root, k)[..j + 1] == ScaleHead(root, j)
    decreases k
  {
    if j < k {
      ScaleHeadPrefix(root, k - 1, j);
      assert ScaleHead(root, k)[..j + 1] == ScaleHead(root, k - 1)[..j + 1];
    }
  }

  /** 15 entries, root first, entries 1..7 repeated at 8..14, each step taken with `operator+`. */
  lemma {:induction false} MajorScaleShape(root: int)
    ensures |MajorScale(root)| == 15
    ensures MajorScale(root)[0] == root
    ensures forall k :: 8 <= k < 15 ==> MajorScale(root)[k] == MajorScale(root)[k - 7]
    ensures forall i :: 0 <= i < 7 ==> MajorScale(root)[i + 1] == NotePlus(MajorScale(root)[i], Formula[i])
  {
    var s := MajorScale(root);
    var h := ScaleHead(root, 7);
    forall i | 0 <= i < 7 ensures s[i + 1] == NotePlus(s[i], Formula[i]) {
      ScaleHeadPrefix(root, 7, i + 1);
      assert ScaleHead(root, i + 1)[i] == ScaleHead(root, i)[i];
      assert s[i + 1] == h[i + 1] == ScaleHead(root, i + 1)[i + 1];
      ScaleHeadPrefix(root, 7, i);
      assert s[i] == h[i] == ScaleHead(root, i)[i];
    }
  }

  /** Every entry up to k is congruent (mod 12) to the root plus the formula sum. */
  lemma {:induction false} ScaleHeadCongruent(root: int, k: nat)
    requires k <= |Formula|
    ensures (ScaleHead(root, k)[k] - root - FormulaSum(k)) % NotesTotal == 0
    decreases k
  {
    if k > 0 {
      ScaleHeadCongruent(root, k - 1);
      var prev := ScaleHead(root, k - 1)[k - 1];
      var next := NotePlus(prev, Formula[k - 1]);
      assert ScaleHead(root, k)[k] == next;
      CongruentStep(ScaleHead(root, k)[k] - root - FormulaSum(k), next, prev, Formula[k - 1], root, FormulaSum(k - 1));
    }
  }

  /** Adding a step congruent to `f` to a degree congruent to `sum`; `target` names the result term. */
  lemma CongruentStep(target: int, next: int, prev: int, f: int, root: int, sum: int)
    requires (next - (prev + f)) % NotesTotal == 0 && (prev - root - sum) % NotesTotal == 0
    requires target == next - root - (sum + f)
    ensures target % NotesTotal == 0
  {
    MultiplesAdd(next - (prev + f), prev - root - sum);
    assert next - root - (sum + f) == (next - (prev + f)) + (prev - root - sum);
  }

  lemma MultiplesAdd(a: int, b: int)
    requires a % NotesTotal == 0 && b % NotesTotal == 0
    ensures (a + b) % NotesTotal == 0
  {
    var m, n := a / NotesTotal, b / NotesTotal;
    assert a == NotesTotal * m && b == NotesTotal * n;
    assert a + b == NotesTotal * (m + n);
  }

  /** The formula spans an octave, so the eighth entry is the root's pitch class. */
  lemma MajorScaleOctave(root: int)
    ensures |MajorScale(root)| == 15
    ensures (MajorScale(root)[7] - root) % NotesTotal == 0
    ensures forall i :: 0 <= i < 7 ==> (MajorScale(root)[i + 1] - MajorScale(root)[i] - Formula[i]) % NotesTotal == 0
  {
    MajorScaleShape(root);
    StepsCongruent(MajorScale(root));
    HeadSpansOctave(root);
  }

  lemma HeadSpansOctave(root: int)
    ensures (MajorScale(root)[7] - root) % NotesTotal == 0
  {
    assert MajorScale(root)[7] == ScaleHead(root, 7)[7];
    ScaleHeadCongruent(root, 7);
    FormulaSpansOctave();
    OctaveShift(ScaleHead(root, 7)[7] - root - FormulaSum(7), ScaleHead(root, 7)[7] - root);
  }

  lemma OctaveShift(a: int, b: int)
    requires a % NotesTotal == 0 && b == a + NotesTotal
    ensures b % NotesTotal == 0
  {
    MultiplesAdd(a, NotesTotal);
  }

  lemma FormulaSpansOctave()
    ensures FormulaSum(7) == NotesTotal
  {
    assert FormulaSum(1) == 2 && FormulaSum(2) == 4 && FormulaSum(3) == 5;
    assert FormulaSum(4) == 7 && FormulaSum(5) == 9 && FormulaSum(6) == 11;
  }

  lemma StepsCongruent(s: seq<int>)
    requires |s| >= 8
    requires forall i :: 0 <= i < 7 ==> s[i + 1] == NotePlus(s[i], Formula[i])
    ensures forall i :: 0 <= i < 7 ==> (s[i + 1] - s[i] - Formula[i]) % NotesTotal == 0
  {
    forall i | 0 <= i < 7 ensures (s[i + 1] - s[i] - Formula[i]) % NotesTotal == 0 {
      var r := NotePlus(s[i], Formula[i]);
      assert (r - (s[i] + Formula[i])) % NotesTotal == 0;
    }
  }

  /** Entry k of the head stays in [1, 14] when the root is a real note. */
  lemma {:induction false} ScaleHeadRange(root: int, k: nat)
    requires IsNote(root) && k <= |Formula|
    ensures forall j :: 0 <= j <= k ==> 1 <= ScaleHead(root, k)[j] <= 14
    decreases k
  {
    if k > 0 {
      ScaleHeadRange(root, k - 1);
      var h := ScaleHead(root, k - 1);
      assert 1 <= h[k - 1] <= 14;
      assert 1 <= Formula[k - 1] <= 2;
    }
  }

  /**
   * For a root in [C, B] every entry lies in [1, 14]: the lazy wrap can leave
   * 13 or 14, which are not notes.
   */
  lemma MajorScaleRange(root: int)
    requires IsNote(root)
    ensures forall i :: 0 <= i < |MajorScale(root)| ==> 1 <= MajorScale(root)[i] <= 14
  {
    ScaleHeadRange(root, 7);
  }

  /** Root C ends on 13 and root A has 14 as its third. */
  lemma MajorScaleOutOfRangeEntries()
    ensures MajorScale(NoteC)[7] == 13
    ensures MajorScale(NoteA)[2] == 14
    ensures MajorScale(NoteGSharp)[2] == 13
  {
    assert ScaleHead(NoteC, 7) == [1, 3, 5, 6, 8, 10, 12, 13];
    assert ScaleHead(NoteA, 2) == [10, 12, 14];
    assert ScaleHead(NoteA, 7)[..3] == ScaleHead(NoteA, 2) by { ScaleHeadPrefix(NoteA, 7, 2); }
    assert ScaleHead(NoteGSharp, 2) == [9, 11, 13];
    assert ScaleHead(NoteGSharp, 7)[..3] == ScaleHead(NoteGSharp, 2) by { ScaleHeadPrefix(NoteGSharp, 7, 2); }
  }
}
