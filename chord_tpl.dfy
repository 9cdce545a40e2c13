/**
 * `ChordTpl`: the 24-entry template of a chord (12 bass slots then 12 treble
 * slots), built from the major scale of the root and a row of the quality
 * table, and scored against a pitch-class profile.
 *
 * The RMS normalisation of `PostInit_` takes its square root as a
 * parameter, so what is proved about a scaled template is its shape: which
 * slots are positive, zero, equal or ordered.
 */
module ChordTemplates {
  import opened Wrappers
  import opened LmTypes
  import opened MusicScale
  import opened PitchClsProfiles
  import opened Helpers

  /** `note_presense_state_t`: present, flat, double flat, sharp, not present. */
  datatype Nps = P | PF | PFF | PS | NP

  const HalfLen: nat := 9
  const RowLen: nat := 18
  const TplLen: nat := 24

  const NoBass: seq<Nps> := [NP, NP, NP, NP, NP, NP, NP, NP, NP]
  const RootBass: seq<Nps> := [P, NP, NP, NP, NP, NP, NP, NP, NP]
  const ThirdBass: seq<Nps> := [NP, NP, P, NP, NP, NP, NP, NP, NP]
  const FifthBass: seq<Nps> := [NP, NP, NP, NP, P, NP, NP, NP, NP]

  const MajTreble: seq<Nps> := [P, NP, P, NP, P, NP, NP, NP, NP]
  const MinTreble: seq<Nps> := [P, NP, PF, NP, P, NP, NP, NP, NP]
  const SeventhTreble: seq<Nps> := [P, NP, P, NP, P, NP, PF, NP, NP]
  const Maj7Treble: seq<Nps> := [P, NP, P, NP, P, NP, P, NP, NP]
  const Min7Treble: seq<Nps> := [P, NP, PF, NP, P, NP, PF, NP, NP]
  const Maj6Treble: seq<Nps> := [P, NP, P, NP, P, P, NP, NP, NP]
  const Min6Treble: seq<Nps> := [P, NP, PF, NP, P, P, NP, NP, NP]
  const DimTreble: seq<Nps> := [P, NP, PF, NP, PF, NP, NP, NP, NP]
  const Hdim7Treble: seq<Nps> := [P, NP, PF, NP, PF, NP, PF, NP, NP]

  /**
   * `chord_qlty_tpls_`: per quality, one row per slash subtype; a row is nine
   * bass positions then nine treble positions over scale degrees 0..8. The
   * source's names (`cq_major`, `cq_7th`, `cq_6th`, …) are matched to the
   * qualities of `chord_quality_t` by meaning. The map is given as a function
   * from a quality to its rows, with no rows for a quality it has no entry for.
   */
  function Rows(q: int): seq<seq<Nps>>
  {
    if q == CqMaj then [RootBass + MajTreble, NoBass + MajTreble, ThirdBass + MajTreble, FifthBass + MajTreble]
    else if q == CqMinor then [RootBass + MinTreble, NoBass + MinTreble]
    else if q == Cq7 then [RootBass + SeventhTreble, ThirdBass + SeventhTreble]
    else if q == CqMaj7 then [RootBass + Maj7Treble]
    else if q == CqMin7 then [RootBass + Min7Treble]
    else if q == CqMaj6 then [RootBass + Maj6Treble]
    else if q == CqMin6 then [RootBass + Min6Treble]
    else if q == CqDim then [RootBass + DimTreble]
    else if q == CqHdim7 then [RootBass + Hdim7Treble]
    else []
  }

  /** `chord_qlty_tpls_.find(q) != chord_qlty_tpls_.end()` */
  predicate InTable(q: int)
  {
    |Rows(q)| > 0
  }

  /** Every row has 18 positions, plain bass positions, and the root first in the treble. */
  lemma TableRowsWellFormed()
    ensures forall q, r :: 0 <= r < |Rows(q)| ==> |Rows(q)[r]| == RowLen
    ensures forall q, r, j :: 0 <= r < |Rows(q)| && 0 <= j < HalfLen ==>
      Rows(q)[r][j] == P || Rows(q)[r][j] == NP
    ensures forall q, r :: 0 <= r < |Rows(q)| ==> Rows(q)[r][HalfLen] == P
  {
  }

  /** `SlashSubtypesCnt`: the row count of a quality of the table, an error for any other quality. */
  function SlashSubtypesCnt(q: int): (r: Result<nat>)
    ensures r.Ok? <==> CqMin <= q <= CqMax && InTable(q)
    ensures r.Ok? ==> r.value == |Rows(q)| >= 1
  {
    if q < CqMin || q > CqMax || !InTable(q) then Result<nat>.Err("ChordTpl::SlashSubtypesCnt(): Invalid chord quality")
    else Ok(|Rows(q)|)
  }

  lemma SlashSubtypeCounts()
    ensures SlashSubtypesCnt(CqMaj) == Ok(4)
    ensures SlashSubtypesCnt(CqMinor) == Ok(2) && SlashSubtypesCnt(Cq7) == Ok(2)
  {
  }

  lemma SingleRowQualitiesSevenths()
    ensures SlashSubtypesCnt(CqMaj7) == Ok(1) && SlashSubtypesCnt(CqMin7) == Ok(1)
  {
  }

  lemma SingleRowQualitiesSixthsDiminished()
    ensures SlashSubtypesCnt(CqMaj6) == Ok(1) && SlashSubtypesCnt(CqMin6) == Ok(1)
    ensures SlashSubtypesCnt(CqDim) == Ok(1) && SlashSubtypesCnt(CqHdim7) == Ok(1)
  {
  }

  /** The table covers nine qualities; every other quality has no row and no subtype count. */
  lemma TableQualities()
    ensures forall q :: InTable(q) <==> q in {CqMaj, CqMinor, Cq7, CqMaj7, CqMin7, CqMaj6, CqMin6, CqDim, CqHdim7}
    ensures forall q :: !InTable(q) ==> SlashSubtypesCnt(q).Err?
  {
  }

  // ---------------------------------------------------------------------
  // Filling a template (`InitTpl_`)
  // ---------------------------------------------------------------------

  predicate Adjusted(st: Nps) { st == PF || st == PFF || st == PS }

  /** The interval added for a flat, double flat or sharp position. */
  function Adjust(st: Nps): int
  {
    match st
    case PF => -1
    case PFF => -2
    case PS => 1
    case _ => 0
  }

  /** A note reduced into [C, B]: the reduction the written index needs. */
  function Wrap(n: int): (r: int)
    ensures IsNote(r)
    ensures (r - n) % NotesTotal == 0
  {
    var r := (n - 1) % NotesTotal + 1;
    assert r - n == NotesTotal * -((n - 1) / NotesTotal);
    r
  }

  /** Bass positions write from slot 0, treble positions from slot 12. */
  function Offset(i: nat): int
  {
    if i < HalfLen then 0 else NotesTotal
  }

  /**
   * The note position i writes: the scale degree i mod 9, moved by the
   * position's interval with the note `operator+`; `NoteUnknown` for an absent
   * position. As written the note is used as it comes; `fixed` reduces it into
   * [C, B] first.
   */
  function NoteOf(scale: seq<int>, row: seq<Nps>, i: nat, fixed: bool): int
    requires |scale| == 15 && |row| == RowLen && i < RowLen
  {
    var k := i % HalfLen;
    if row[i] == NP then NoteUnknown
    else
      var n := if Adjusted(row[i]) then NotePlus(scale[k], Adjust(row[i])) else scale[k];
      if fixed then Wrap(n) else n
  }

  /** The operator takes the scale entry by reference, so an adjusted degree is rewritten. */
  function ScaleAfter(scale: seq<int>, row: seq<Nps>, i: nat): (r: seq<int>)
    requires |scale| == 15 && |row| == RowLen && i < RowLen
    ensures |r| == 15
  {
    var k := i % HalfLen;
    if Adjusted(row[i]) then scale[k := NotePlus(scale[k], Adjust(row[i]))] else scale
  }

  datatype FillState = FillState(scale: seq<int>, tpl: seq<real>, bass: int)

  predicate WellSized(s: FillState) { |s.scale| == 15 && |s.tpl| == TplLen }

  /**
   * One position of the filling loop. A note other than `NoteUnknown` sets
   * slot note − C + offset to 1 (a bass position also records the bass note);
   * a slot outside [0, 24) is a write past the end of the vector, undefined in
   * the source and an error here.
   */
  function Step(s: FillState, row: seq<Nps>, i: nat, fixed: bool): (r: Result<FillState>)
    requires WellSized(s) && |row| == RowLen && i < RowLen
    ensures r.Ok? ==> WellSized(r.value)
    ensures fixed ==> r.Ok?
  {
    var n := NoteOf(s.scale, row, i, fixed);
    var sc := ScaleAfter(s.scale, row, i);
    if n == NoteUnknown then Ok(FillState(sc, s.tpl, s.bass))
    else
      var slot := n - NoteMin + Offset(i);
      if 0 <= slot < TplLen then Ok(FillState(sc, s.tpl[slot := 1.0], if i < HalfLen then n else s.bass))
      else Err("tpl_ index out of range")
  }

  /** With reduced notes a present position always lands inside the template. */
  lemma StepFixed(s: FillState, row: seq<Nps>, i: nat)
    requires WellSized(s) && |row| == RowLen && i < RowLen
    ensures var n := NoteOf(s.scale, row, i, true);
      Step(s, row, i, true) == Ok(
        if n == NoteUnknown then FillState(ScaleAfter(s.scale, row, i), s.tpl, s.bass)
        else FillState(ScaleAfter(s.scale, row, i), s.tpl[n - NoteMin + Offset(i) := 1.0],
                       if i < HalfLen then n else s.bass))
  {
    var n := NoteOf(s.scale, row, i, true);
    assert n == NoteUnknown || IsNote(n);
  }

  function InitialFill(root: int): (s: FillState)
    ensures WellSized(s) && s.scale == MajorScale(root) && s.bass == NoteUnknown
    ensures forall x :: 0 <= x < TplLen ==> s.tpl[x] == 0.0
  {
    MajorScaleShape(root);
    FillState(MajorScale(root), seq(TplLen, _ => 0.0), NoteUnknown)
  }

  /** The state after the first i positions. */
  function Fill(root: int, row: seq<Nps>, i: nat, fixed: bool): (r: Result<FillState>)
    requires |row| == RowLen && i <= RowLen
    ensures r.Ok? ==> WellSized(r.value)
    ensures fixed ==> r.Ok?
    decreases i
  {
    if i == 0 then Ok(InitialFill(root))
    else
      match Fill(root, row, i - 1, fixed)
      case Err(m) => Err(m)
      case Ok(s) => Step(s, row, i - 1, fixed)
  }

  /** Slot j after the second pass: a bass slot that is not 1 but whose treble slot is 1 becomes 0.5. */
  function HalfAt(t: seq<real>, j: nat): real
    requires |t| == TplLen && j < TplLen
  {
    if j < NotesTotal && t[j] != 1.0 && t[j + NotesTotal] == 1.0 then 0.5 else t[j]
  }

  function Halves(t: seq<real>): (r: seq<real>)
    requires |t| == TplLen
    ensures |r| == TplLen && forall j :: 0 <= j < TplLen ==> r[j] == HalfAt(t, j)
  {
    seq(TplLen, j requires 0 <= j < TplLen => HalfAt(t, j))
  }

  /** `InitTpl_` as written: lazily wrapped notes index the template unreduced. */
  function InitTplAsWritten(root: int, cq: int, ss: nat): (r: Result<FillState>)
    requires IsNote(root) && ss < |Rows(cq)|
    ensures r.Ok? ==> WellSized(r.value)
  {
    TableRowsWellFormed();
    match Fill(root, Rows(cq)[ss], |Rows(cq)[ss]|, false)
    case Err(m) => Err(m)
    case Ok(s) => Ok(s.(tpl := Halves(s.tpl)))
  }

  /** `InitTpl_` with every written note reduced into [C, B]: never fails. */
  function InitTplSpec(root: int, cq: int, ss: nat): (r: FillState)
    requires IsNote(root) && ss < |Rows(cq)|
    ensures WellSized(r)
  {
    TableRowsWellFormed();
    var s := Fill(root, Rows(cq)[ss], |Rows(cq)[ss]|, true).value;
    s.(tpl := Halves(s.tpl))
  }

  /** One pass of the filling loop of `InitTpl_` (corrected) on the template array. */
  method FillPosition(a: array<real>, scale: seq<int>, bass: int, row: seq<Nps>, i: nat)
    returns (scale': seq<int>, bass': int)
    requires a.Length == TplLen && |scale| == 15 && |row| == RowLen && i < RowLen
    modifies a
    ensures Step(FillState(scale, old(a[..]), bass), row, i, true) == Ok(FillState(scale', a[..], bass'))
  {
    scale', bass' := scale, bass;
    var k := i % HalfLen;
    var note := NoteUnknown;
    if row[i] != NP {
      if Adjusted(row[i]) {
        scale' := scale'[k := NotePlus(scale'[k], Adjust(row[i]))];
      }
      note := Wrap(scale'[k]);
    }
    assert scale' == ScaleAfter(scale, row, i);
    assert note == NoteOf(scale, row, i, true);
    if note != NoteUnknown {
      var offset := NotesTotal;
      if i < HalfLen {
        bass' := note;
        offset := 0;
      }
      assert offset == Offset(i);
      a[note - NoteMin + offset] := 1.0;
      assert a[..] == old(a[..])[note - NoteMin + offset := 1.0];
    }
    StepFixed(FillState(scale, old(a[..]), bass), row, i);
  }

  /** The second loop of `InitTpl_`, in place on the bass half. */
  method MarkHalves(a: array<real>)
    requires a.Length == TplLen
    modifies a
    ensures a[..] == Halves(old(a[..]))
  {
    var i := 0;
    while i < NotesTotal
      invariant 0 <= i <= NotesTotal
      invariant forall j :: 0 <= j < i ==> a[j] == HalfAt(old(a[..]), j)
      invariant forall j :: i <= j < TplLen ==> a[j] == old(a[j])
    {
      if a[i] != 1.0 && a[i + NotesTotal] == 1.0 {
        a[i] := 0.5;
      }
      i := i + 1;
    }
    assert forall j :: NotesTotal <= j < TplLen ==> HalfAt(old(a[..]), j) == old(a[j]);
  }

  /**
   * `InitTpl_` (corrected): fills a zeroed 24-slot array position by
   * position, then applies the 0.5 pass in place.
   */
  method InitTpl(root: int, cq: int, ss: nat) returns (tpl: seq<real>, bass: int)
    requires IsNote(root) && ss < |Rows(cq)|
    ensures tpl == InitTplSpec(root, cq, ss).tpl
    ensures bass == InitTplSpec(root, cq, ss).bass
  {
    TableRowsWellFormed();
    var row := Rows(cq)[ss];
    var a := new real[TplLen](_ => 0.0);
    var scale;
    scale, bass := FillRow(a, root, row);
    MarkHalves(a);
    tpl := a[..];
  }

  /** The first loop of `InitTpl_`: every position of the row in turn, on a zeroed array. */
  method FillRow(a: array<real>, root: int, row: seq<Nps>) returns (scale: seq<int>, bass: int)
    requires a.Length == TplLen && |row| == RowLen
    requires forall x :: 0 <= x < TplLen ==> a[x] == 0.0
    modifies a
    ensures Fill(root, row, |row|, true) == Ok(FillState(scale, a[..], bass))
  {
    scale := GetMajorScale(root);
    MajorScaleShape(root);
    bass := NoteUnknown;
    assert a[..] == InitialFill(root).tpl;
    var i := 0;
    while i < RowLen
      invariant 0 <= i <= RowLen && |scale| == 15
      invariant Fill(root, row, i, true) == Ok(FillState(scale, a[..], bass))
    {
      scale, bass := FillPosition(a, scale, bass, row, i);
      i := i + 1;
    }
  }

  // ---------------------------------------------------------------------
  // What a filled template holds
  // ---------------------------------------------------------------------

  /** The slot position j sets, or −1 when it sets none (or the fill already failed). */
  function Written(root: int, row: seq<Nps>, j: nat, fixed: bool): int
    requires |row| == RowLen && j < RowLen
  {
    match Fill(root, row, j, fixed)
    case Err(_) => -1
    case Ok(s) =>
      var n := NoteOf(s.scale, row, j, fixed);
      if n == NoteUnknown then -1 else n - NoteMin + Offset(j)
  }

  lemma {:induction false} FillOkPrefix(root: int, row: seq<Nps>, i: nat, j: nat, fixed: bool)
    requires |row| == RowLen && j <= i <= RowLen && Fill(root, row, i, fixed).Ok?
    ensures Fill(root, row, j, fixed).Ok?
    decreases i
  {
    if j < i { FillOkPrefix(root, row, i - 1, j, fixed); }
  }

  /**
   * After i positions a slot is 1 exactly when one of those positions wrote
   * it, and every other slot is still 0.
   */
  lemma {:induction false} FillOnes(root: int, row: seq<Nps>, i: nat, fixed: bool)
    requires |row| == RowLen && i <= RowLen && Fill(root, row, i, fixed).Ok?
    ensures forall x :: 0 <= x < TplLen ==>
      (Fill(root, row, i, fixed).value.tpl[x] == 1.0 <==> exists j :: 0 <= j < i && Written(root, row, j, fixed) == x)
    ensures forall x :: 0 <= x < TplLen ==>
      Fill(root, row, i, fixed).value.tpl[x] == 0.0 || Fill(root, row, i, fixed).value.tpl[x] == 1.0
    decreases i
  {
    if i > 0 {
      FillOkPrefix(root, row, i, i - 1, fixed);
      FillOnes(root, row, i - 1, fixed);
      forall x | 0 <= x < TplLen
        ensures Fill(root, row, i, fixed).value.tpl[x] == 1.0 <==> exists j :: 0 <= j < i && Written(root, row, j, fixed) == x
        ensures Fill(root, row, i, fixed).value.tpl[x] == 0.0 || Fill(root, row, i, fixed).value.tpl[x] == 1.0
      {
        FillOnesStep(root, row, i, fixed, x);
      }
    }
  }

  /** Slot x after i positions, from slot x after i - 1 positions. */
  lemma FillOnesStep(root: int, row: seq<Nps>, i: nat, fixed: bool, x: int)
    requires |row| == RowLen && 0 < i <= RowLen && 0 <= x < TplLen
    requires Fill(root, row, i, fixed).Ok? && Fill(root, row, i - 1, fixed).Ok?
    requires Fill(root, row, i - 1, fixed).value.tpl[x] == 1.0 <==> exists j :: 0 <= j < i - 1 && Written(root, row, j, fixed) == x
    requires Fill(root, row, i - 1, fixed).value.tpl[x] == 0.0 || Fill(root, row, i - 1, fixed).value.tpl[x] == 1.0
    ensures Fill(root, row, i, fixed).value.tpl[x] == 1.0 <==> exists j :: 0 <= j < i && Written(root, row, j, fixed) == x
    ensures Fill(root, row, i, fixed).value.tpl[x] == 0.0 || Fill(root, row, i, fixed).value.tpl[x] == 1.0
  {
    FillSlot(root, row, i, fixed, x);
    WrittenBefore(root, row, i, fixed, x);
  }

  /** Position i - 1 sets slot x to 1 when it writes x, and leaves it alone otherwise. */
  lemma FillSlot(root: int, row: seq<Nps>, i: nat, fixed: bool, x: int)
    requires |row| == RowLen && 0 < i <= RowLen && 0 <= x < TplLen
    requires Fill(root, row, i, fixed).Ok? && Fill(root, row, i - 1, fixed).Ok?
    ensures Fill(root, row, i, fixed).value.tpl[x] ==
      if Written(root, row, i - 1, fixed) == x then 1.0 else Fill(root, row, i - 1, fixed).value.tpl[x]
  {
    var s := Fill(root, row, i - 1, fixed).value;
    assert Fill(root, row, i, fixed) == Step(s, row, i - 1, fixed);
  }

  /** The positions before i that write x: those before i - 1, and possibly i - 1 itself. */
  lemma WrittenBefore(root: int, row: seq<Nps>, i: nat, fixed: bool, x: int)
    requires |row| == RowLen && 0 < i <= RowLen
    ensures (exists j :: 0 <= j < i && Written(root, row, j, fixed) == x) <==>
      (Written(root, row, i - 1, fixed) == x || exists j :: 0 <= j < i - 1 && Written(root, row, j, fixed) == x)
  {
    if exists j :: 0 <= j < i && Written(root, row, j, fixed) == x {
      var j :| 0 <= j < i && Written(root, row, j, fixed) == x;
      if j < i - 1 {
        assert exists j :: 0 <= j < i - 1 && Written(root, row, j, fixed) == x;
      }
    }
  }


  /** A degree no earlier position adjusted still holds its major-scale note. */
  lemma {:induction false} ScaleKept(root: int, row: seq<Nps>, j: nat, fixed: bool, k: nat)
    requires |row| == RowLen && j <= RowLen && k < HalfLen && Fill(root, row, j, fixed).Ok?
    requires forall j' :: 0 <= j' < j && j' % HalfLen == k ==> !Adjusted(row[j'])
    ensures Fill(root, row, j, fixed).value.scale[k] == MajorScale(root)[k]
    decreases j
  {
    if j > 0 {
      FillOkPrefix(root, row, j, j - 1, fixed);
      ScaleKept(root, row, j - 1, fixed, k);
      var s := Fill(root, row, j - 1, fixed).value;
      assert Fill(root, row, j, fixed) == Step(s, row, j - 1, fixed);
    }
  }

  /** Semitones from the root to each of the nine degrees a row refers to. */
  const Semitones: seq<int> := [0, 2, 4, 5, 7, 9, 11, 12, 14]

  lemma SameResidue(a: int, b: int)
    requires (a - b) % NotesTotal == 0
    ensures a % NotesTotal == b % NotesTotal
  {
    var m := (a - b) / NotesTotal;
    assert a == b + NotesTotal * m;
    assert (b + NotesTotal * m) % NotesTotal == b % NotesTotal;
  }

  lemma FormulaSumsAreSemitones()
    ensures forall d :: 0 <= d <= |Formula| ==> FormulaSum(d) == Semitones[d]
  {
    assert FormulaSum(1) == 2 && FormulaSum(2) == 4 && FormulaSum(3) == 5;
    assert FormulaSum(4) == 7 && FormulaSum(5) == 9 && FormulaSum(6) == 11 && FormulaSum(7) == 12;
  }

  lemma ScaleEntryIsHead(root: int, d: nat)
    requires d <= |Formula|
    ensures |MajorScale(root)| == 15
    ensures MajorScale(root)[d] == ScaleHead(root, d)[d]
    ensures d == 1 ==> MajorScale(root)[8] == MajorScale(root)[1]
  {
    ScaleHeadPrefix(root, 7, d);
    assert ScaleHead(root, 7)[d] == ScaleHead(root, 7)[..d + 1][d];
  }

  /** Degree k of the major scale is the root moved by `Semitones[k]`, up to octaves. */
  lemma ScaleResidue(root: int, k: nat)
    requires k < HalfLen
    ensures |MajorScale(root)| == 15
    ensures (MajorScale(root)[k] - root - Semitones[k]) % NotesTotal == 0
  {
    var d := if k == 8 then 1 else k;
    ScaleEntryIsHead(root, d);
    ScaleHeadCongruent(root, d);
    FormulaSumsAreSemitones();
    if k == 8 {
      var y := MajorScale(root)[1] - root - 2;
      MultiplesAdd(y, -NotesTotal);
      assert MajorScale(root)[8] - root - Semitones[8] == y - NotesTotal;
    }
  }

  /** The pitch class (0 = C) a present position on degree k should mark. */
  function PitchClass(root: int, k: nat, st: Nps): int
    requires k < HalfLen
  {
    (root - NoteMin + Semitones[k] + Adjust(st)) % NotesTotal
  }

  /** A note in [C, B] congruent to root + semitones + adjustment is that pitch class, plus C. */
  lemma ResidueChain(n: int, m: int, n0: int, root: int, sem: int, adj: int)
    requires NoteMin <= n <= NoteMax
    requires (n - m) % NotesTotal == 0 && (m - n0 - adj) % NotesTotal == 0
    requires (n0 - root - sem) % NotesTotal == 0
    ensures n - NoteMin == (root - NoteMin + sem + adj) % NotesTotal
  {
    MultiplesAdd(n - m, m - n0 - adj);
    MultiplesAdd(n - n0 - adj, n0 - root - sem);
    assert (n - NoteMin) - (root - NoteMin + sem + adj) == (n - n0 - adj) + (n0 - root - sem);
    SameResidue(n - NoteMin, root - NoteMin + sem + adj);
  }

  /** A scale note moved by a position's interval (unchanged for a plain position). */
  function Moved(n: int, st: Nps): (r: int)
    ensures (r - n - Adjust(st)) % NotesTotal == 0
  {
    if Adjusted(st) then NotePlus(n, Adjust(st)) else n
  }

  lemma WrittenValue(root: int, row: seq<Nps>, j: nat)
    requires |row| == RowLen && j < RowLen && row[j] != NP
    ensures Written(root, row, j, true) ==
      Wrap(Moved(Fill(root, row, j, true).value.scale[j % HalfLen], row[j])) - NoteMin + Offset(j)
  {
  }

  /** With reduced notes, a position reading an unadjusted degree writes its pitch class. */
  lemma WrittenFixed(root: int, row: seq<Nps>, j: nat)
    requires |row| == RowLen && j < RowLen && row[j] != NP
    requires Fill(root, row, j, true).value.scale[j % HalfLen] == MajorScale(root)[j % HalfLen]
    ensures Written(root, row, j, true) == Offset(j) + PitchClass(root, j % HalfLen, row[j])
  {
    var k := j % HalfLen;
    ScaleResidue(root, k);
    var n0 := MajorScale(root)[k];
    WrittenValue(root, row, j);
    PitchOfMoved(root, k, row[j], n0);
    assert Wrap(Moved(n0, row[j])) - NoteMin == PitchClass(root, k, row[j]);
  }

  /** A degree congruent to its semitone count, moved and reduced, lands on its pitch class. */
  lemma PitchOfMoved(root: int, k: nat, st: Nps, n0: int)
    requires k < HalfLen && (n0 - root - Semitones[k]) % NotesTotal == 0
    ensures Wrap(Moved(n0, st)) - NoteMin == PitchClass(root, k, st)
  {
    var m := Moved(n0, st);
    ResidueChain(Wrap(m), m, n0, root, Semitones[k], Adjust(st));
  }

  /** The treble half of a row: the pitch classes its present positions name. */
  ghost predicate TrebleNames(root: int, row: seq<Nps>, x: int)
    requires |row| == RowLen
  {
    exists j :: HalfLen <= j < RowLen && row[j] != NP && x == PitchClass(root, j - HalfLen, row[j])
  }

  /** The bass half of a row: the pitch classes its present positions name. */
  ghost predicate BassNames(root: int, row: seq<Nps>, x: int)
    requires |row| == RowLen
  {
    exists j :: 0 <= j < HalfLen && row[j] != NP && x == PitchClass(root, j, row[j])
  }

  /** What each position writes when no position reads a degree an earlier one adjusted. */
  ghost predicate WritesPitchClasses(root: int, row: seq<Nps>)
    requires |row| == RowLen
  {
    forall j :: 0 <= j < RowLen ==>
      Written(root, row, j, true) == if row[j] == NP then -1 else Offset(j) + PitchClass(root, j % HalfLen, row[j])
  }

  /** In a table row no position reads a degree that an earlier position adjusted. */
  lemma TableRowReadsFresh(row: seq<Nps>, j: nat)
    requires |row| == RowLen && j < RowLen
    requires forall i :: 0 <= i < HalfLen ==> row[i] == P || row[i] == NP
    ensures forall j' :: 0 <= j' < j && j' % HalfLen == j % HalfLen ==> !Adjusted(row[j'])
  {
  }

  lemma TableRowWrites(root: int, q: int, ss: nat)
    requires ss < |Rows(q)|
    ensures |Rows(q)[ss]| == RowLen
    ensures WritesPitchClasses(root, Rows(q)[ss])
  {
    TableRowsWellFormed();
    var row := Rows(q)[ss];
    assert forall i :: 0 <= i < HalfLen ==> row[i] == P || row[i] == NP;
    forall j | 0 <= j < RowLen
      ensures Written(root, row, j, true) == if row[j] == NP then -1 else Offset(j) + PitchClass(root, j % HalfLen, row[j])
    {
      if row[j] != NP {
        TableRowReadsFresh(row, j);
        ScaleKept(root, row, j, true, j % HalfLen);
        WrittenFixed(root, row, j);
      }
    }
  }

  /** Position j reads degree j mod 9; bass positions write below 12, treble ones from 12. */
  lemma HalfIndex(j: nat)
    requires j < RowLen
    ensures j < HalfLen ==> j % HalfLen == j
    ensures j >= HalfLen ==> j % HalfLen == j - HalfLen
  {
  }

  /** The treble ones of a full fill, when every position writes its pitch class. */
  lemma FilledTreble(root: int, row: seq<Nps>, x: int)
    requires |row| == RowLen && WritesPitchClasses(root, row) && NotesTotal <= x < TplLen
    ensures Fill(root, row, |row|, true).value.tpl[x] == 1.0 <==> TrebleNames(root, row, x - NotesTotal)
  {
    FillOnes(root, row, |row|, true);
    if TrebleNames(root, row, x - NotesTotal) {
      TrebleWritten(root, row, x);
    }
    if Fill(root, row, |row|, true).value.tpl[x] == 1.0 {
      var j :| 0 <= j < RowLen && Written(root, row, j, true) == x;
      WrittenTreble(root, row, j, x);
    }
  }

  /** A position that writes a treble slot is a treble position naming that pitch class. */
  lemma WrittenTreble(root: int, row: seq<Nps>, j: nat, x: int)
    requires |row| == RowLen && WritesPitchClasses(root, row) && NotesTotal <= x < TplLen
    requires j < RowLen && Written(root, row, j, true) == x
    ensures TrebleNames(root, row, x - NotesTotal)
  {
    HalfIndex(j);
    assert row[j] != NP;
  }

  /** A treble position naming pitch class x − 12 writes treble slot x. */
  lemma TrebleWritten(root: int, row: seq<Nps>, x: int)
    requires |row| == RowLen && WritesPitchClasses(root, row) && NotesTotal <= x < TplLen
    requires TrebleNames(root, row, x - NotesTotal)
    ensures exists j :: 0 <= j < RowLen && Written(root, row, j, true) == x
  {
    var j :| HalfLen <= j < RowLen && row[j] != NP && x - NotesTotal == PitchClass(root, j - HalfLen, row[j]);
    HalfIndex(j);
    assert Written(root, row, j, true) == x;
  }

  /** The bass ones of a full fill, when every position writes its pitch class. */
  lemma FilledBass(root: int, row: seq<Nps>, x: int)
    requires |row| == RowLen && WritesPitchClasses(root, row) && 0 <= x < NotesTotal
    ensures Fill(root, row, |row|, true).value.tpl[x] == 1.0 <==> BassNames(root, row, x)
  {
    FillOnes(root, row, |row|, true);
    if BassNames(root, row, x) {
      BassWritten(root, row, x);
    }
    if Fill(root, row, |row|, true).value.tpl[x] == 1.0 {
      var j :| 0 <= j < RowLen && Written(root, row, j, true) == x;
      WrittenBass(root, row, j, x);
    }
  }

  /** A position that writes a bass slot is a bass position naming that pitch class. */
  lemma WrittenBass(root: int, row: seq<Nps>, j: nat, x: int)
    requires |row| == RowLen && WritesPitchClasses(root, row) && 0 <= x < NotesTotal
    requires j < RowLen && Written(root, row, j, true) == x
    ensures BassNames(root, row, x)
  {
    HalfIndex(j);
    assert row[j] != NP;
  }

  /** A bass position naming pitch class x writes bass slot x. */
  lemma BassWritten(root: int, row: seq<Nps>, x: int)
    requires |row| == RowLen && WritesPitchClasses(root, row) && 0 <= x < NotesTotal
    requires BassNames(root, row, x)
    ensures exists j :: 0 <= j < RowLen && Written(root, row, j, true) == x
  {
    var j :| 0 <= j < HalfLen && row[j] != NP && x == PitchClass(root, j, row[j]);
    HalfIndex(j);
    assert Written(root, row, j, true) == x;
  }

  /**
   * The template built for a table row (with reduced notes): treble slot
   * 12 + x is 1 exactly for the pitch classes x the treble positions name,
   * else 0; bass slot x is 1 for those the bass positions name, else 0.5 when
   * treble slot 12 + x is 1, else 0.
   */
  lemma TemplateContents(root: int, q: int, ss: nat)
    requires IsNote(root) && ss < |Rows(q)|
    ensures forall x :: NotesTotal <= x < TplLen ==>
      InitTplSpec(root, q, ss).tpl[x] == if TrebleNames(root, Rows(q)[ss], x - NotesTotal) then 1.0 else 0.0
    ensures forall x :: 0 <= x < NotesTotal ==>
      InitTplSpec(root, q, ss).tpl[x] ==
        if BassNames(root, Rows(q)[ss], x) then 1.0
        else if TrebleNames(root, Rows(q)[ss], x) then 0.5
        else 0.0
  {
    TableRowWrites(root, q, ss);
    var row := Rows(q)[ss];
    var t := Fill(root, row, |row|, true).value.tpl;
    FillOnes(root, row, |row|, true);
    assert InitTplSpec(root, q, ss).tpl == Halves(t);
    forall x | NotesTotal <= x < TplLen
      ensures t[x] == if TrebleNames(root, row, x - NotesTotal) then 1.0 else 0.0
    {
      FilledTreble(root, row, x);
    }
    forall x | 0 <= x < NotesTotal
      ensures t[x + NotesTotal] == 1.0 <==> TrebleNames(root, row, x)
      ensures t[x] == 1.0 <==> BassNames(root, row, x)
    {
      FilledTreble(root, row, x + NotesTotal);
      FilledBass(root, row, x);
    }
  }

  // ---------------------------------------------------------------------
  // The lazy wrap as written
  // ---------------------------------------------------------------------

  /** Absent positions change nothing. */
  lemma {:induction false} FillAbsentRun(root: int, row: seq<Nps>, i: nat, j: nat, fixed: bool)
    requires |row| == RowLen && i <= j <= RowLen
    requires forall k :: i <= k < j ==> row[k] == NP
    ensures Fill(root, row, j, fixed) == Fill(root, row, i, fixed)
    decreases j
  {
    if i < j {
      FillAbsentRun(root, row, i, j - 1, fixed);
      var prev := Fill(root, row, j - 1, fixed);
      if prev.Ok? {
        StepAbsent(prev.value, row, j - 1, fixed);
      }
    }
  }

  /** An absent position writes nothing and leaves the scale as it is. */
  lemma StepAbsent(s: FillState, row: seq<Nps>, i: nat, fixed: bool)
    requires WellSized(s) && |row| == RowLen && i < RowLen && row[i] == NP
    ensures Step(s, row, i, fixed) == Ok(s)
  {
  }

  /** A plain position on a degree holding a note writes that note's slot. */
  lemma StepPresent(s: FillState, row: seq<Nps>, i: nat, fixed: bool)
    requires WellSized(s) && |row| == RowLen && i < RowLen
    requires row[i] == P && IsNote(s.scale[i % HalfLen])
    ensures Step(s, row, i, fixed) == Ok(FillState(s.scale,
      s.tpl[s.scale[i % HalfLen] - NoteMin + Offset(i) := 1.0], if i < HalfLen then s.scale[i % HalfLen] else s.bass))
  {
    var n := s.scale[i % HalfLen];
    assert Wrap(n) == n;
  }

  /** As written, the flat of an unwrapped 13 is `NoteUnknown`: nothing is written and the degree becomes 0. */
  lemma StepFlatOfThirteen(s: FillState, row: seq<Nps>, i: nat)
    requires WellSized(s) && |row| == RowLen && i < RowLen
    requires row[i] == PF && s.scale[i % HalfLen] == 13
    ensures Step(s, row, i, false) == Ok(FillState(s.scale[i % HalfLen := NoteUnknown], s.tpl, s.bass))
  {
  }

  /** As written, a treble position on an unwrapped 14 writes past the end. */
  lemma StepOverrun(s: FillState, row: seq<Nps>, i: nat)
    requires WellSized(s) && |row| == RowLen && HalfLen <= i < RowLen
    requires row[i] == P && s.scale[i % HalfLen] == 14
    ensures Step(s, row, i, false).Err?
  {
  }

  /**
   * As written, A major indexes slot 25 of the 24-slot template: its third
   * is the unwrapped 14 in the scale.
   */
  lemma AsWrittenAMajorOverruns()
    ensures InitTplAsWritten(NoteA, CqMaj, 0).Err?
  {
    var row := RootBass + MajTreble;
    assert Rows(CqMaj)[0] == row;
    assert row == [P, NP, NP, NP, NP, NP, NP, NP, NP, P, NP, P, NP, P, NP, NP, NP, NP];
    AMajorFill(NoteA, row);
    if Fill(NoteA, row, |row|, false).Ok? {
      FillOkPrefix(NoteA, row, |row|, 12, false);
    }
  }

  /** The first loop as written on A major, root position, fails at the third. */
  lemma AMajorFill(root: int, row: seq<Nps>)
    requires root == NoteA && |row| == RowLen && row[0] == P && row[9] == P && row[10] == NP && row[11] == P
    requires forall k :: 1 <= k < HalfLen ==> row[k] == NP
    ensures Fill(root, row, 12, false).Err?
  {
    var sc := MajorScale(root);
    MajorScaleShape(root);
    MajorScaleOutOfRangeEntries();
    var s0 := InitialFill(root);
    StepPresent(s0, row, 0, false);
    var s1 := FillState(sc, s0.tpl[9 := 1.0], NoteA);
    assert Fill(root, row, 1, false) == Ok(s1);
    FillAbsentRun(root, row, 1, 9, false);
    StepPresent(s1, row, 9, false);
    var s10 := FillState(sc, s1.tpl[21 := 1.0], NoteA);
    assert Fill(root, row, 10, false) == Ok(s10);
    FillAbsentRun(root, row, 10, 11, false);
    StepOverrun(s10, row, 11);
  }

  /**
   * As written, G# minor loses its third: the flat of the unwrapped 13 is
   * `NoteUnknown`, so treble slot 23 (B) stays 0.
   */
  lemma AsWrittenGSharpMinorDropsThird()
    ensures InitTplAsWritten(NoteGSharp, CqMinor, 0).Ok?
    ensures InitTplAsWritten(NoteGSharp, CqMinor, 0).value.tpl[23] == 0.0
  {
    var row := RootBass + MinTreble;
    assert Rows(CqMinor)[0] == row;
    assert row == [P, NP, NP, NP, NP, NP, NP, NP, NP, P, NP, PF, NP, P, NP, NP, NP, NP];
    var s := GSharpMinorFill(NoteGSharp, row);
    assert InitTplAsWritten(NoteGSharp, CqMinor, 0) == Ok(s.(tpl := Halves(s.tpl)));
  }

  /** The first loop of `InitTpl_` as written on G# minor, root position. */
  lemma GSharpMinorFill(root: int, row: seq<Nps>) returns (s: FillState)
    requires root == NoteGSharp && |row| == RowLen && row[0] == P && row[9] == P && row[10] == NP && row[11] == PF
    requires forall k :: 1 <= k < HalfLen ==> row[k] == NP
    requires row[12] == NP && row[13] == P && forall k :: 14 <= k < RowLen ==> row[k] == NP
    ensures Fill(root, row, |row|, false) == Ok(s) && WellSized(s) && s.tpl[23] == 0.0
  {
    s := GSharpMinorToFifth(root, row);
    FillAbsentRun(root, row, 14, RowLen, false);
  }

  /** Up to and including the fifth (treble slot 15, D#): slot 23 is still 0. */
  lemma GSharpMinorToFifth(root: int, row: seq<Nps>) returns (s14: FillState)
    requires root == NoteGSharp && |row| == RowLen && row[0] == P && row[9] == P && row[10] == NP && row[11] == PF
    requires forall k :: 1 <= k < HalfLen ==> row[k] == NP
    requires row[12] == NP && row[13] == P
    ensures Fill(root, row, 14, false) == Ok(s14) && WellSized(s14) && s14.tpl[23] == 0.0
  {
    var s12 := GSharpMinorToThird(root, row);
    FillAbsentRun(root, row, 12, 13, false);
    assert Fill(root, row, 14, false) == Step(s12, row, 13, false);
    assert 13 % HalfLen == 4 && Offset(13) == NotesTotal;
    StepPresent(s12, row, 13, false);
    s14 := FillState(s12.scale, s12.tpl[15 := 1.0], NoteGSharp);
  }

  /** Up to and including the flattened third: degree 2 is lost and slot 23 is still 0. */
  lemma GSharpMinorToThird(root: int, row: seq<Nps>) returns (s12: FillState)
    requires root == NoteGSharp && |row| == RowLen && row[0] == P && row[9] == P && row[10] == NP && row[11] == PF
    requires forall k :: 1 <= k < HalfLen ==> row[k] == NP
    ensures Fill(root, row, 12, false) == Ok(s12) && WellSized(s12)
    ensures s12.tpl[23] == 0.0 && s12.bass == NoteGSharp && s12.scale[4] == 4
  {
    var s1 := GSharpMinorRoot(root, row);
    var sc := s1.scale;
    FillAbsentRun(root, row, 1, 9, false);
    StepPresent(s1, row, 9, false);
    var s10 := FillState(sc, s1.tpl[20 := 1.0], NoteGSharp);
    assert Fill(root, row, 10, false) == Ok(s10);
    FillAbsentRun(root, row, 10, 11, false);
    StepFlatOfThirteen(s10, row, 11);
    s12 := FillState(sc[2 := NoteUnknown], s10.tpl, NoteGSharp);
  }

  /** The bass root: slot 8 (G#) set, the scale still G# major. */
  lemma GSharpMinorRoot(root: int, row: seq<Nps>) returns (s1: FillState)
    requires root == NoteGSharp && |row| == RowLen && row[0] == P
    ensures Fill(root, row, 1, false) == Ok(s1) && WellSized(s1)
    ensures s1.scale[0] == 9 && s1.scale[2] == 13 && s1.scale[4] == 4
    ensures s1.bass == NoteGSharp && s1.tpl[20] == 0.0 && s1.tpl[23] == 0.0
  {
    var sc := GSharpMajorScale(root);
    var s0 := InitialFill(root);
    StepPresent(s0, row, 0, false);
    s1 := FillState(sc, s0.tpl[8 := 1.0], NoteGSharp);
  }

  /** The entries of the G# major scale the minor template reads. */
  lemma GSharpMajorScale(root: int) returns (sc: seq<int>)
    requires root == NoteGSharp
    ensures sc == MajorScale(root) && |sc| == 15 && sc[0] == 9 && sc[2] == 13 && sc[4] == 4
  {
    sc := MajorScale(root);
    MajorScaleShape(root);
    MajorScaleOutOfRangeEntries();
    assert ScaleHead(root, 4) == [9, 11, 13, 2, 4];
    ScaleHeadPrefix(root, 7, 4);
  }

  /** With notes reduced, G# minor marks its third B (treble slot 23). */
  lemma CorrectedGSharpMinorKeepsThird()
    ensures InitTplSpec(NoteGSharp, CqMinor, 0).tpl[23] == 1.0
  {
    var row := RootBass + MinTreble;
    assert Rows(CqMinor)[0] == row;
    assert PitchClass(NoteGSharp, 11 - HalfLen, row[11]) == 11;
    assert TrebleNames(NoteGSharp, row, 11);
    TemplateContents(NoteGSharp, CqMinor, 0);
  }

  // ---------------------------------------------------------------------
  // The template value, its constructors and its score
  // ---------------------------------------------------------------------

  /** A `ChordTpl`: root, bass note, bass interval (never set, so −1), quality and the template vector. */
  datatype ChordTpl = ChordTpl(root: int, bass: int, bassInterval: int, quality: int, tpl: seq<real>)

  /** `InitN_` before scaling: 12 bass slots of 0.5, then 12 treble slots of 1. */
  function NRaw(): (t: seq<real>)
    ensures |t| == TplLen
    ensures forall i :: 0 <= i < NotesTotal ==> t[i] == 0.5
    ensures forall i :: NotesTotal <= i < TplLen ==> t[i] == 1.0
  {
    seq(NotesTotal, _ => 0.5) + seq(NotesTotal, _ => 1.0)
  }

  /** The boosts `PostInit_` is given: 1 for a chord, 1.1f for the N template. */
  const ChordBoost: real := 1.0
  const NBoost: real := 1.10000002384185791015625

  /** Σ t[i]², the energy `PostInit_` averages. */
  function SumSquares(t: seq<real>): real
  {
    if |t| == 0 then 0.0 else SumSquares(t[..|t| - 1]) + t[|t| - 1] * t[|t| - 1]
  }

  /** Every term counts: the energy is at least the square of any one entry. */
  lemma {:induction false} SumSquaresBound(t: seq<real>, i: nat)
    requires i < |t|
    ensures SumSquares(t) >= t[i] * t[i]
    decreases |t|
  {
    var n := |t| - 1;
    SumSquaresNonNegative(t[..n]);
    if i < n {
      SumSquaresBound(t[..n], i);
      assert t[n] * t[n] >= 0.0;
    }
  }

  lemma {:induction false} SumSquaresNonNegative(t: seq<real>)
    ensures SumSquares(t) >= 0.0
    decreases |t|
  {
    if |t| > 0 {
      SumSquaresNonNegative(t[..|t| - 1]);
      assert t[|t| - 1] * t[|t| - 1] >= 0.0;
    }
  }

  /** The square root (`powf(·, 1/2)`) is a parameter; all the model needs is that it is positive on positive inputs. */
  ghost predicate PositiveRoot(sqrt: real -> real)
  {
    forall x :: x > 0.0 ==> sqrt(x) > 0.0
  }

  /** `stand` of `PostInit_`: the root mean square over the boost. */
  function Stand(t: seq<real>, boost: real, sqrt: real -> real): real
    requires |t| > 0 && boost > 0.0
  {
    sqrt(SumSquares(t) / |t| as real) / boost
  }

  /**
   * `PostInit_`: every entry divided by `stand`. Scaling by a positive
   * factor keeps the order of the entries and every zero.
   */
  function PostInit(t: seq<real>, boost: real, sqrt: real -> real): (r: seq<real>)
    requires |t| > 0 && boost > 0.0 && Stand(t, boost, sqrt) > 0.0
    ensures |r| == |t|
    ensures forall i :: 0 <= i < |t| ==> r[i] * Stand(t, boost, sqrt) == t[i]
  {
    Scaled(t, Stand(t, boost, sqrt))
  }

  /** A positive scale keeps order, equality and zeros of the entries. */
  lemma PostInitKeepsShape(t: seq<real>, boost: real, sqrt: real -> real, i: nat, j: nat)
    requires |t| > 0 && boost > 0.0 && Stand(t, boost, sqrt) > 0.0 && i < |t| && j < |t|
    ensures t[i] < t[j] <==> PostInit(t, boost, sqrt)[i] < PostInit(t, boost, sqrt)[j]
    ensures t[i] == t[j] <==> PostInit(t, boost, sqrt)[i] == PostInit(t, boost, sqrt)[j]
    ensures t[i] == 0.0 <==> PostInit(t, boost, sqrt)[i] == 0.0
  {
    var m := Stand(t, boost, sqrt);
    var r := PostInit(t, boost, sqrt);
    assert r[i] * m == t[i] && r[j] * m == t[j];
    assert t[j] - t[i] == (r[j] - r[i]) * m;
    ScaleSign(r[j] - r[i], m);
    ScaleSign(r[i], m);
  }

  lemma ScaleSign(a: real, m: real)
    requires m > 0.0
    ensures a > 0.0 <==> a * m > 0.0
    ensures a == 0.0 <==> a * m == 0.0
  {
    if a > 0.0 { assert a * m > 0.0; }
    if a < 0.0 { assert (-a) * m > 0.0; }
  }

  /** A template with any non-zero entry has positive energy, hence a positive `stand`. */
  lemma StandPositive(t: seq<real>, boost: real, sqrt: real -> real, i: nat)
    requires PositiveRoot(sqrt) && boost > 0.0 && i < |t| && t[i] != 0.0
    ensures Stand(t, boost, sqrt) > 0.0
  {
    SumSquaresBound(t, i);
    if t[i] > 0.0 { ScaleSign(t[i], t[i]); }
    else { ScaleSign(-t[i], -t[i]); assert t[i] * t[i] == (-t[i]) * (-t[i]); }
    var e := SumSquares(t) / |t| as real;
    assert e > 0.0;
    assert sqrt(e) > 0.0;
  }

  /** The root's own treble slot is 1 in every table template. */
  lemma RootInTreble(root: int, q: int, ss: nat)
    requires IsNote(root) && ss < |Rows(q)|
    ensures InitTplSpec(root, q, ss).tpl[NotesTotal + root - NoteMin] == 1.0
  {
    TemplateContents(root, q, ss);
    TableRowsWellFormed();
    var row := Rows(q)[ss];
    assert PitchClass(root, 0, row[HalfLen]) == root - NoteMin;
    assert TrebleNames(root, row, root - NoteMin);
  }

  /**
   * The theoretical constructor `ChordTpl(note, cq, slash_subtype)`: the N
   * template for (`NoteUnknown`, `CqUnknown`); otherwise an error for a root
   * outside [C, B], a quality outside [`CqMin`, `CqMax`] or not in the table,
   * or a subtype past the quality's row count; otherwise the scaled template
   * `InitTpl_` builds.
   */
  function TheoreticalTpl(root: int, cq: int, ss: nat, sqrt: real -> real): (r: Result<ChordTpl>)
    requires PositiveRoot(sqrt)
    ensures r.Ok? <==>
      ((root == NoteUnknown && cq == CqUnknown) ||
       (IsNote(root) && CqMin <= cq <= CqMax && ss < |Rows(cq)|))
    ensures r.Ok? ==> r.value.root == root && r.value.quality == cq && r.value.bassInterval == -1
    ensures r.Ok? ==> |r.value.tpl| == TplLen
  {
    if root < NoteMin || root > NoteMax then
      if root == NoteUnknown && cq == CqUnknown then
        StandPositive(NRaw(), NBoost, sqrt, 0);
        Ok(ChordTpl(NoteUnknown, NoteUnknown, -1, CqUnknown, PostInit(NRaw(), NBoost, sqrt)))
      else Err("ChordTpl(): Invalid note")
    else if cq < CqMin || cq > CqMax || !InTable(cq) then Err("ChordTpl(): Invalid chord quality")
    else if ss >= |Rows(cq)| then Err("ChordTpl(): Invalid slash subtype")
    else
      var s := InitTplSpec(root, cq, ss);
      RootInTreble(root, cq, ss);
      StandPositive(s.tpl, ChordBoost, sqrt, NotesTotal + root - NoteMin);
      Ok(ChordTpl(root, s.bass, -1, cq, PostInit(s.tpl, ChordBoost, sqrt)))
  }

  /** The N template: every treble slot equal, every bass slot below them. */
  lemma NTemplateShape(sqrt: real -> real)
    requires PositiveRoot(sqrt)
    ensures TheoreticalTpl(NoteUnknown, CqUnknown, 0, sqrt).Ok?
    ensures var t := TheoreticalTpl(NoteUnknown, CqUnknown, 0, sqrt).value.tpl;
      forall i, j :: 0 <= i < NotesTotal <= j < TplLen ==> t[i] < t[j] && t[j] == t[NotesTotal]
  {
    StandPositive(NRaw(), NBoost, sqrt, 0);
    var t := TheoreticalTpl(NoteUnknown, CqUnknown, 0, sqrt).value.tpl;
    forall i, j | 0 <= i < NotesTotal <= j < TplLen
      ensures t[i] < t[j] && t[j] == t[NotesTotal]
    {
      PostInitKeepsShape(NRaw(), NBoost, sqrt, i, j);
      PostInitKeepsShape(NRaw(), NBoost, sqrt, j, NotesTotal);
    }
  }

  /** For a valid chord, the constructor scales what `InitTpl_` built. */
  lemma TheoreticalTplIsScaledSpec(root: int, cq: int, ss: nat, sqrt: real -> real)
    requires PositiveRoot(sqrt) && IsNote(root) && CqMin <= cq <= CqMax && ss < |Rows(cq)|
    ensures Stand(InitTplSpec(root, cq, ss).tpl, ChordBoost, sqrt) > 0.0
    ensures TheoreticalTpl(root, cq, ss, sqrt) == Ok(ChordTpl(root, InitTplSpec(root, cq, ss).bass, -1, cq,
      PostInit(InitTplSpec(root, cq, ss).tpl, ChordBoost, sqrt)))
  {
    RootInTreble(root, cq, ss);
    StandPositive(InitTplSpec(root, cq, ss).tpl, ChordBoost, sqrt, NotesTotal + root - NoteMin);
  }

  /** Scaling by a positive `stand` keeps the sign of every entry. */
  lemma PostInitSign(t: seq<real>, boost: real, sqrt: real -> real, i: nat)
    requires |t| > 0 && boost > 0.0 && Stand(t, boost, sqrt) > 0.0 && i < |t|
    ensures PostInit(t, boost, sqrt)[i] > 0.0 <==> t[i] > 0.0
  {
    var r := PostInit(t, boost, sqrt);
    var m := Stand(t, boost, sqrt);
    assert r[i] * m == t[i];
    ScaleSign(r[i], m);
    if r[i] < 0.0 { ScaleSign(-r[i], m); }
  }

  /**
   * A theoretical chord template is its table row's pitch classes, scaled:
   * treble slot 12 + x is positive exactly when the treble positions name
   * pitch class x; bass slot x is positive exactly when the bass or the
   * treble positions name it, and a bass-named slot is at least the
   * matching treble slot.
   */
  lemma TheoreticalTplContents(root: int, cq: int, ss: nat, sqrt: real -> real, x: int)
    requires PositiveRoot(sqrt) && IsNote(root) && CqMin <= cq <= CqMax && ss < |Rows(cq)|
    requires 0 <= x < NotesTotal
    ensures TheoreticalTpl(root, cq, ss, sqrt).Ok?
    ensures TheoreticalTpl(root, cq, ss, sqrt).value.tpl[NotesTotal + x] > 0.0 <==> TrebleNames(root, Rows(cq)[ss], x)
    ensures TheoreticalTpl(root, cq, ss, sqrt).value.tpl[x] > 0.0 <==>
      BassNames(root, Rows(cq)[ss], x) || TrebleNames(root, Rows(cq)[ss], x)
    ensures BassNames(root, Rows(cq)[ss], x) ==>
      TheoreticalTpl(root, cq, ss, sqrt).value.tpl[x] >= TheoreticalTpl(root, cq, ss, sqrt).value.tpl[NotesTotal + x]
  {
    var raw := InitTplSpec(root, cq, ss).tpl;
    TheoreticalTplIsScaledSpec(root, cq, ss, sqrt);
    TemplateContents(root, cq, ss);
    assert NotesTotal + x - NotesTotal == x;
    assert raw[x] > 0.0 <==> BassNames(root, Rows(cq)[ss], x) || TrebleNames(root, Rows(cq)[ss], x);
    assert raw[NotesTotal + x] > 0.0 <==> TrebleNames(root, Rows(cq)[ss], x);
    assert BassNames(root, Rows(cq)[ss], x) ==> raw[x] >= raw[NotesTotal + x];
    PostInitSign(raw, ChordBoost, sqrt, x);
    PostInitSign(raw, ChordBoost, sqrt, NotesTotal + x);
    PostInitKeepsShape(raw, ChordBoost, sqrt, x, NotesTotal + x);
  }

  /** The HMM constructor: validates root and quality only, and keeps the vector as given. */
  function HmmTpl(root: int, cq: int, v: seq<real>): (r: Result<ChordTpl>)
    ensures r.Ok? <==> IsNote(root) && CqMin <= cq <= CqMax
    ensures r.Ok? ==> r.value == ChordTpl(root, NoteUnknown, -1, cq, v)
  {
    if root < NoteMin || root > NoteMax then Err("ChordTpl(): Invalid note")
    else if cq < CqMin || cq > CqMax then Err("ChordTpl(): Invalid chord quality")
    else Ok(ChordTpl(root, NoteUnknown, -1, cq, v))
  }

  /**
   * `GetScore`: the dot product with a profile of the template's size; the
   * Euclidean distance (through the parameter `sqrt`) to the treble half
   * (the slots from 12 on) for a profile of half the size; an error otherwise, including when the treble half and
   * the profile differ in size (the distance throws) or the template is too
   * short to have a treble half.
   */
  function GetScore(t: ChordTpl, pcp: seq<real>, sqrt: real -> real): (r: Result<real>)
    ensures r.Ok? <==> |pcp| == |t.tpl| || (|pcp| == |t.tpl| / 2 && |t.tpl| == |pcp| + NotesTotal)
    ensures r.Ok? && |pcp| != |t.tpl| && IsSquareRoot(sqrt) ==>
      r.value >= 0.0 && r.value * r.value == SqDist(pcp, t.tpl[NotesTotal..])
  {
    if |pcp| == |t.tpl| then Ok(Dot(pcp, t.tpl))
    else if |pcp| == |t.tpl| / 2 then
      if |t.tpl| < NotesTotal then Err("treble half past the end of the template")
      else if |t.tpl| - NotesTotal != |pcp| then Err("euclideanDistance(): wrong vector size")
      else
        SqDistMetric(pcp, t.tpl[NotesTotal..]);
        Ok(sqrt(SqDist(pcp, t.tpl[NotesTotal..])))
    else Err("Incompatible PCP size")
  }

  /**
   * For a 24-slot template: a 24-entry profile scores by the dot product, a
   * 12-entry one by the distance to the treble half, which is 0 (the least
   * possible) on the treble half itself when `sqrt` is the square root;
   * every other size fails.
   */
  lemma ScoreDispatch(t: ChordTpl, pcp: seq<real>, sqrt: real -> real)
    requires |t.tpl| == TplLen
    ensures |pcp| == TplLen ==> GetScore(t, pcp, sqrt) == Ok(Dot(pcp, t.tpl))
    ensures |pcp| == NotesTotal ==> GetScore(t, pcp, sqrt) == Ok(sqrt(SqDist(pcp, t.tpl[NotesTotal..])))
    ensures |pcp| != TplLen && |pcp| != NotesTotal ==> GetScore(t, pcp, sqrt).Err?
    ensures IsSquareRoot(sqrt) ==> GetScore(t, t.tpl[NotesTotal..], sqrt) == Ok(0.0)
  {
    SqDistSelf(t.tpl[NotesTotal..]);
    if IsSquareRoot(sqrt) {
      RootOfZero(sqrt);
    }
  }
}
