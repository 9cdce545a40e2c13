/**
 * `ChordTplCollection`: every chord template, in a fixed order, and the
 * best-matching chord for a pitch-class profile.
 *
 * The collection is built in place (`tpls_` grows by `push_back`) from the
 * quality table (the default configuration) or from HMM training results.
 * Quality numbers follow `chord_quality_t`, so `CqMax` is `CqMin13`; the
 * builder takes the upper quality as a parameter, and with `CqMax` it fails
 * because `Cq5` has no row in the table.
 */
module ChordTplCollections {
  import opened Wrappers
  import opened LmTypes
  import opened ChordTemplates

  /** `CFG_USE_HMM_TPLS`: theoretical templates by default. */
  const CfgUseHmmTpls: bool := false

  /** `FLT_MAX`, the starting score of `getBestMatch`. */
  const FltMax: real := 340282346638528859811704183484516925440.0

  const SubtypesErr: string := "ChordTpl::SlashSubtypesCnt(): Invalid chord quality"

  /** The row count of each quality, 0 for a quality the table lacks (indexed by quality number). */
  function RowCount(q: int): nat {
    if q == CqMaj then 4
    else if q == CqMinor || q == Cq7 then 2
    else if q == CqMaj7 || q == CqMin7 || q == CqMaj6 || q == CqMin6 || q == CqDim || q == CqHdim7 then 1
    else 0
  }

  /** `RowCounts` is what `SlashSubtypesCnt` answers, quality by quality. */
  lemma RowCountAgrees(q: int)
    ensures |Rows(q)| == RowCount(q)
  {
  }

  /** `SlashSubtypesCnt` in terms of the row counts alone. */
  lemma SubtypesCount(q: int)
    requires CqMin <= q <= CqMax
    ensures SlashSubtypesCnt(q) == if RowCount(q) > 0 then Ok(RowCount(q)) else Err(SubtypesErr)
  {
    RowCountAgrees(q);
  }

  /** Every quality from `CqMin` to `upper` has rows in the table. */
  predicate AllInTable(upper: int)
    decreases upper
  {
    upper < CqMin || (AllInTable(upper - 1) && RowCount(upper) > 0)
  }

  /** The build succeeds exactly when `SlashSubtypesCnt` succeeds for every quality it visits. */
  lemma {:induction false} AllInTableMeans(upper: int)
    requires upper <= CqMax
    ensures AllInTable(upper) <==> forall q :: CqMin <= q <= upper ==> SlashSubtypesCnt(q).Ok?
    decreases upper
  {
    if upper >= CqMin {
      AllInTableMeans(upper - 1);
      SubtypesCount(upper);
    }
  }

  /** One quality without rows spoils every bound at or above it. */
  lemma {:induction false} MissingQuality(upper: int, q: int)
    requires CqMin <= q <= upper && RowCount(q) == 0
    ensures !AllInTable(upper)
    decreases upper
  {
    if q < upper { MissingQuality(upper - 1, q); }
  }

  /** Σ rows(k) for the qualities k in [CqMin, q): the templates of one note before quality q. */
  function RowsBefore(rows: int -> nat, q: int): nat
    requires CqMin <= q
    decreases q
  {
    if q == CqMin then 0 else RowsBefore(rows, q - 1) + rows(q - 1)
  }

  /** k blocks of t entries. */
  function Blocks(k: nat, t: nat): nat
  {
    k * t
  }

  /** One more block adds t entries. */
  lemma BlocksStep(k: nat, t: nat)
    requires k > 0
    ensures Blocks(k, t) == Blocks(k - 1, t) + t
  {
  }

  /** One past the last note, the bound of the note loop. */
  function NotesEnd(): int { NoteMax + 1 }

  /** Note n, quality q, subtype s is a chord the table describes. */
  predicate TableChord(n: int, q: int, s: int)
  {
    IsNote(n) && CqMin <= q <= CqMax && 0 <= s < RowCount(q)
  }

  /**
   * The template `new ChordTpl(note, cq, s)` builds, as a function of the
   * chord; outside the table (where the constructor throws and the build
   * never calls it) the N template stands in.
   */
  function TableTpl(sqrt: real -> real): (build: (int, int, nat) -> ChordTpl)
    requires PositiveRoot(sqrt)
    ensures forall n, q, s: nat :: TableChord(n, q, s) ==> Ok(build(n, q, s)) == TheoreticalTpl(n, q, s, sqrt)
  {
    (n: int, q: int, s: nat) =>
      if TableChord(n, q, s) then RowCountAgrees(q); TheoreticalTpl(n, q, s, sqrt).value else NTpl(sqrt)
  }

  /**
   * `make` is the constructor of the templates `build` describes: on every
   * chord of the table it succeeds with that template.
   */
  ghost predicate Makes(make: (int, int, nat) -> Result<ChordTpl>, build: (int, int, nat) -> ChordTpl)
  {
    forall n, q, s: nat :: TableChord(n, q, s) ==> make(n, q, s) == Ok(build(n, q, s))
  }

  /**
   * The order of the three nested loops, for any template `build` gives a
   * chord. What the subtype loop appends for note n and quality q, subtypes
   * 0 .. s − 1:
   */
  function SubtypeTpls(build: (int, int, nat) -> ChordTpl, n: int, q: int, s: nat): (r: seq<ChordTpl>)
    ensures |r| == s
    ensures forall j :: 0 <= j < s ==> r[j] == build(n, q, j)
  {
    seq(s, j requires 0 <= j < s => build(n, q, j))
  }

  /** What the quality loop appends for note n, qualities `CqMin` .. q − 1, quality k having rows(k) subtypes. */
  function QualityTpls(rows: int -> nat, build: (int, int, nat) -> ChordTpl, n: int, q: int): (r: seq<ChordTpl>)
    requires CqMin <= q
    decreases q
  {
    if q == CqMin then [] else QualityTpls(rows, build, n, q - 1) + SubtypeTpls(build, n, q - 1, rows(q - 1))
  }

  /** What the note loop appends for notes C .. n − 1, qualities up to `upper`. */
  function NoteTpls(rows: int -> nat, build: (int, int, nat) -> ChordTpl, upper: int, n: int): (r: seq<ChordTpl>)
    requires NoteMin <= n && CqMin <= upper + 1
    decreases n
  {
    if n == NoteMin then [] else NoteTpls(rows, build, upper, n - 1) + QualityTpls(rows, build, n - 1, upper + 1)
  }

  /** The N template, appended last. */
  function NTpl(sqrt: real -> real): ChordTpl
    requires PositiveRoot(sqrt)
  {
    StandPositive(NRaw(), NBoost, sqrt, 0);
    ChordTpl(NoteUnknown, NoteUnknown, -1, CqUnknown, PostInit(NRaw(), NBoost, sqrt))
  }

  lemma NTplIsTheoretical(sqrt: real -> real)
    requires PositiveRoot(sqrt)
    ensures Ok(NTpl(sqrt)) == TheoreticalTpl(NoteUnknown, CqUnknown, 0, sqrt)
  {
  }

  /**
   * What `InitTheoretical_` leaves in the collection: an error when some
   * quality up to `upper` has no table row, else note by note, quality by
   * quality, subtype by subtype, then the N template.
   */
  function TheoreticalTpls(upper: int, sqrt: real -> real): Result<seq<ChordTpl>>
    requires PositiveRoot(sqrt) && CqMin <= upper <= CqMax
  {
    if !AllInTable(upper) then Err(SubtypesErr)
    else Ok(NoteTpls(RowCount, TableTpl(sqrt), upper, NotesEnd()) + [NTpl(sqrt)])
  }

  /** The qualities each note has in the HMM build: `CqMin` .. `CqMax`. */
  const HmmQualities: nat := CqMax - CqMin + 1

  /** Where the HMM template of note n and quality q sits: note-major, quality-minor. */
  function HmmIndex(n: int, q: int): int
  {
    (n - NoteMin) * HmmQualities + (q - CqMin)
  }

  /** What `InitFromHmm_` leaves: one template per note and quality, with the trained vector. */
  function HmmTpls(hmm: (int, int) -> seq<real>): (r: seq<ChordTpl>)
  {
    seq(NotesTotal * HmmQualities, k =>
      ChordTpl(NoteMin + k / HmmQualities, NoteUnknown, -1, CqMin + k % HmmQualities,
               hmm(NoteMin + k / HmmQualities, CqMin + k % HmmQualities)))
  }

  /** `InitChordTpls_`: the build refuses HMM templates without training results. */
  function InitChordTpls(useHmm: bool, hmmTrained: bool, upper: int, sqrt: real -> real,
                         hmm: (int, int) -> seq<real>): Result<seq<ChordTpl>>
    requires !(useHmm && !hmmTrained)
    requires PositiveRoot(sqrt) && CqMin <= upper <= CqMax
  {
    if useHmm && hmmTrained then Ok(HmmTpls(hmm)) else TheoreticalTpls(upper, sqrt)
  }

  // ---------------------------------------------------------------------
  // Size and order
  // ---------------------------------------------------------------------

  /** Where the templates of note n begin: after n − C whole blocks. */
  function NoteBase(rows: int -> nat, upper: int, n: int): nat
    requires NoteMin <= n && CqMin - 1 <= upper
  {
    Blocks(n - NoteMin, RowsBefore(rows, upper + 1))
  }

  /** Where the template of note n, quality q, subtype s sits: n − C whole blocks, the rows before q, then s. */
  function Position(rows: int -> nat, upper: int, n: int, q: int, s: int): int
    requires NoteMin <= n && CqMin <= q && CqMin - 1 <= upper
  {
    NoteBase(rows, upper, n) + RowsBefore(rows, q) + s
  }

  /** A note contributes the rows of every quality before `upper + 1`. */
  lemma {:induction false} QualityTplsLength(rows: int -> nat, build: (int, int, nat) -> ChordTpl, n: int, q: int)
    requires CqMin <= q
    ensures |QualityTpls(rows, build, n, q)| == RowsBefore(rows, q)
    decreases q
  {
    if q > CqMin { QualityTplsLength(rows, build, n, q - 1); }
  }

  /** The note loop up to n appends n − C blocks. */
  lemma {:induction false} NoteTplsLength(rows: int -> nat, build: (int, int, nat) -> ChordTpl, upper: int, n: int)
    requires NoteMin <= n && CqMin <= upper + 1
    ensures |NoteTpls(rows, build, upper, n)| == NoteBase(rows, upper, n)
    decreases n
  {
    if n > NoteMin {
      NoteTplsLength(rows, build, upper, n - 1);
      QualityTplsLength(rows, build, n - 1, upper + 1);
      BlocksStep(n - NoteMin, RowsBefore(rows, upper + 1));
    }
  }

  /** Within a note, subtype s of quality q follows the rows of the qualities before q. */
  lemma {:induction false} QualityTplsAt(rows: int -> nat, build: (int, int, nat) -> ChordTpl, n: int, q': int, q: int, s: nat)
    requires CqMin <= q < q' && s < rows(q)
    ensures RowsBefore(rows, q) + s < |QualityTpls(rows, build, n, q')|
    ensures QualityTpls(rows, build, n, q')[RowsBefore(rows, q) + s] == build(n, q, s)
    decreases q'
  {
    QualityTplsLength(rows, build, n, q' - 1);
    if q < q' - 1 {
      QualityTplsAt(rows, build, n, q' - 1, q, s);
    }
  }

  /**
   * In the output of the note loop up to `end`, the template of note n,
   * quality q, subtype s sits at `Position`: n − C whole blocks, then the
   * rows of the qualities before q, then s.
   */
  lemma {:induction false} NoteTplsLayout(rows: int -> nat, build: (int, int, nat) -> ChordTpl, upper: int, end: int,
                                          n: int, q: int, s: nat)
    requires CqMin <= q <= upper && NoteMin <= n < end && s < rows(q)
    ensures Position(rows, upper, n, q, s) < |NoteTpls(rows, build, upper, end)|
    ensures NoteTpls(rows, build, upper, end)[Position(rows, upper, n, q, s)] == build(n, q, s)
    decreases end
  {
    if n < end - 1 {
      var before := NoteTpls(rows, build, upper, end - 1);
      var last := QualityTpls(rows, build, end - 1, upper + 1);
      assert NoteTpls(rows, build, upper, end) == before + last;
      NoteTplsLayout(rows, build, upper, end - 1, n, q, s);
      assert (before + last)[Position(rows, upper, n, q, s)] == before[Position(rows, upper, n, q, s)];
    } else {
      NoteTplsLayoutLast(rows, build, upper, end, q, s);
    }
  }

  /** The templates of the last note of the loop follow the blocks of the notes before it. */
  lemma NoteTplsLayoutLast(rows: int -> nat, build: (int, int, nat) -> ChordTpl, upper: int, end: int, q: int, s: nat)
    requires CqMin <= q <= upper && NoteMin < end && s < rows(q)
    ensures Position(rows, upper, end - 1, q, s) < |NoteTpls(rows, build, upper, end)|
    ensures NoteTpls(rows, build, upper, end)[Position(rows, upper, end - 1, q, s)] == build(end - 1, q, s)
  {
    NoteTplsLength(rows, build, upper, end - 1);
    LastNoteRow(rows, build, upper, end, q, s);
    NoteTplsUnfold(rows, build, upper, end);
    PlaceAfter(NoteTpls(rows, build, upper, end), NoteTpls(rows, build, upper, end - 1),
               QualityTpls(rows, build, end - 1, upper + 1), NoteBase(rows, upper, end - 1),
               RowsBefore(rows, q) + s, build(end - 1, q, s));
  }

  /** In the last note's block, subtype s of quality q follows the rows of the qualities before q. */
  lemma LastNoteRow(rows: int -> nat, build: (int, int, nat) -> ChordTpl, upper: int, end: int, q: int, s: nat)
    requires CqMin <= q <= upper && NoteMin < end && s < rows(q)
    ensures RowsBefore(rows, q) + s < |QualityTpls(rows, build, end - 1, upper + 1)|
    ensures QualityTpls(rows, build, end - 1, upper + 1)[RowsBefore(rows, q) + s] == build(end - 1, q, s)
  {
    QualityTplsAt(rows, build, end - 1, upper + 1, q, s);
  }

  lemma NoteTplsUnfold(rows: int -> nat, build: (int, int, nat) -> ChordTpl, upper: int, end: int)
    requires NoteMin < end && CqMin <= upper + 1
    ensures NoteTpls(rows, build, upper, end) == NoteTpls(rows, build, upper, end - 1) + QualityTpls(rows, build, end - 1, upper + 1)
  {
  }

  /** Appending the templates of note n to a prefix followed by the earlier notes gives the notes up to n. */
  lemma ExtendNoteTpls(rows: int -> nat, build: (int, int, nat) -> ChordTpl, upper: int, n: int, next: int,
                       base: seq<ChordTpl>, before: seq<ChordTpl>, after: seq<ChordTpl>)
    requires NoteMin <= n && CqMin <= upper + 1 && next == n + 1
    requires before == base + NoteTpls(rows, build, upper, n)
    requires after == before + QualityTpls(rows, build, n, upper + 1)
    ensures after == base + NoteTpls(rows, build, upper, next)
  {
    AppendAssoc(base, NoteTpls(rows, build, upper, n), QualityTpls(rows, build, n, upper + 1));
    NoteTplsUnfold(rows, build, upper, n + 1);
  }

  /** Entry j of the last part of a concatenation sits after the whole first part. */
  lemma PlaceAfter<T>(all: seq<T>, before: seq<T>, last: seq<T>, b: nat, j: nat, x: T)
    requires all == before + last && |before| == b && j < |last| && last[j] == x
    ensures b + j < |all| && all[b + j] == x
  {
  }

  /**
   * With every quality up to `upper` in the table, the collection holds
   * 12 blocks of (sum of subtype counts) templates and then one; the
   * template of note n, quality q, subtype s sits after n − C whole blocks
   * and the counts of the qualities before q; and the last one is the N
   * template.
   */
  lemma TheoreticalTplsLayout(upper: int, sqrt: real -> real, n: int, q: int, s: nat)
    requires PositiveRoot(sqrt) && CqMin <= upper <= CqMax && AllInTable(upper)
    requires IsNote(n) && CqMin <= q <= upper && s < RowCount(q)
    ensures TheoreticalTpls(upper, sqrt).Ok?
    ensures |TheoreticalTpls(upper, sqrt).value| == Blocks(NotesTotal, RowsBefore(RowCount, upper + 1)) + 1
    ensures TheoreticalTpls(upper, sqrt).value[|TheoreticalTpls(upper, sqrt).value| - 1] == NTpl(sqrt)
    ensures Position(RowCount, upper, n, q, s) < |TheoreticalTpls(upper, sqrt).value|
    ensures Ok(TheoreticalTpls(upper, sqrt).value[Position(RowCount, upper, n, q, s)]) == TheoreticalTpl(n, q, s, sqrt)
  {
    NoteTplsLayout(RowCount, TableTpl(sqrt), upper, NotesEnd(), n, q, s);
    NoteTplsLength(RowCount, TableTpl(sqrt), upper, NotesEnd());
    assert TableChord(n, q, s);
  }

  /** `cq_5` has no row, so building up to `cq_Max` (`cq_min13`) fails. */
  lemma DefaultBuildFails(sqrt: real -> real)
    requires PositiveRoot(sqrt)
    ensures TheoreticalTpls(CqMax, sqrt) == Err(SubtypesErr)
    ensures InitChordTpls(CfgUseHmmTpls, false, CqMax, sqrt, (n, q) => []) == Err(SubtypesErr)
  {
    MissingQuality(CqMax, Cq5);
  }

  /** Up to `CqMinor` every quality has rows: 12 · (4 + 2) + 1 = 73 templates. */
  lemma MajorMinorBuild(sqrt: real -> real)
    requires PositiveRoot(sqrt)
    ensures TheoreticalTpls(CqMinor, sqrt).Ok?
    ensures |TheoreticalTpls(CqMinor, sqrt).value| == 73
  {
    assert RowsBefore(RowCount, CqMinor) == 4;
    assert RowsBefore(RowCount, CqMinor + 1) == 6;
    TheoreticalTplsLayout(CqMinor, sqrt, NoteC, CqMaj, 0);
  }

  /** Index k of the grid is note n, quality q. */
  lemma HmmIndexDecodes(n: int, q: int)
    requires IsNote(n) && CqMin <= q <= CqMax
    ensures 0 <= HmmIndex(n, q) < NotesTotal * HmmQualities
    ensures HmmIndex(n, q) / HmmQualities == n - NoteMin
    ensures HmmIndex(n, q) % HmmQualities == q - CqMin
  {
  }

  /**
   * HMM templates: 12 · 26 of them, note-major and quality-minor, each with
   * its note, its quality and the vector as trained, no bass and no N
   * template.
   */
  lemma HmmTplsLayout(hmm: (int, int) -> seq<real>, n: int, q: int)
    requires IsNote(n) && CqMin <= q <= CqMax
    ensures |HmmTpls(hmm)| == 312
    ensures 0 <= HmmIndex(n, q) < |HmmTpls(hmm)|
    ensures HmmTpls(hmm)[HmmIndex(n, q)] == ChordTpl(n, NoteUnknown, -1, q, hmm(n, q))
    ensures forall i :: 0 <= i < |HmmTpls(hmm)| ==> IsNote(HmmTpls(hmm)[i].root)
  {
    HmmIndexDecodes(n, q);
    forall i | 0 <= i < |HmmTpls(hmm)| ensures IsNote(HmmTpls(hmm)[i].root) {
      GridRow(i);
    }
  }

  lemma GridRow(i: int)
    requires 0 <= i < NotesTotal * HmmQualities
    ensures 0 <= i / HmmQualities < NotesTotal
  {
  }

  /** A chosen template so far: its score, root and quality. */
  datatype Pick = Pick(score: real, root: int, quality: int)

  /**
   * The scan of `getBestMatch` over the first k templates: a template whose
   * score is not above the best so far replaces it; a scoring error ends the
   * scan.
   */
  function Scan(tpls: seq<ChordTpl>, pcp: seq<real>, k: nat, sqrt: real -> real): Result<Pick>
    requires k <= |tpls|
  {
    if k == 0 then Ok(Pick(FltMax, NoteUnknown, CqMaj))
    else
      match Scan(tpls, pcp, k - 1, sqrt)
      case Err(m) => Err(m)
      case Ok(p) =>
        match GetScore(tpls[k - 1], pcp, sqrt)
        case Err(m) => Err(m)
        case Ok(score) =>
          if score > p.score then Ok(p) else Ok(Pick(score, tpls[k - 1].root, tpls[k - 1].quality))
  }

  /** `getBestMatch`: the winner's root and quality; its bass is dropped. */
  function BestMatch(tpls: seq<ChordTpl>, pcp: seq<real>, sqrt: real -> real): Result<Chord>
  {
    match Scan(tpls, pcp, |tpls|, sqrt)
    case Err(m) => Err(m)
    case Ok(p) => Ok(MakeChord(p.root, p.quality))
  }

  /** Every template scores the profile. */
  ghost predicate AllScore(tpls: seq<ChordTpl>, pcp: seq<real>, sqrt: real -> real)
  {
    forall i :: 0 <= i < |tpls| ==> GetScore(tpls[i], pcp, sqrt).Ok?
  }

  /** The outcome of a scan over k templates that all score. */
  ghost predicate ScanOutcome(tpls: seq<ChordTpl>, pcp: seq<real>, k: nat, p: Pick, sqrt: real -> real)
    requires k <= |tpls| && AllScore(tpls, pcp, sqrt)
  {
    (p == Pick(FltMax, NoteUnknown, CqMaj) && forall j :: 0 <= j < k ==> GetScore(tpls[j], pcp, sqrt).value > FltMax) ||
    (exists i :: 0 <= i < k && p == Pick(GetScore(tpls[i], pcp, sqrt).value, tpls[i].root, tpls[i].quality) &&
      p.score <= FltMax &&
      (forall j :: 0 <= j < k ==> GetScore(tpls[j], pcp, sqrt).value >= p.score) &&
      (forall j :: i < j < k ==> GetScore(tpls[j], pcp, sqrt).value > p.score))
  }

  lemma {:induction false} ScanPicksLastMinimum(tpls: seq<ChordTpl>, pcp: seq<real>, k: nat, sqrt: real -> real)
    requires k <= |tpls| && AllScore(tpls, pcp, sqrt)
    ensures Scan(tpls, pcp, k, sqrt).Ok?
    ensures ScanOutcome(tpls, pcp, k, Scan(tpls, pcp, k, sqrt).value, sqrt)
    decreases k
  {
    if k > 0 {
      ScanPicksLastMinimum(tpls, pcp, k - 1, sqrt);
      var p := Scan(tpls, pcp, k - 1, sqrt).value;
      if GetScore(tpls[k - 1], pcp, sqrt).value <= p.score {
        ScanOutcomeTake(tpls, pcp, k, p, sqrt);
      } else {
        ScanOutcomeKeep(tpls, pcp, k, p, sqrt);
      }
    }
  }

  /** A template scoring no more than the pick so far becomes the pick. */
  lemma ScanOutcomeTake(tpls: seq<ChordTpl>, pcp: seq<real>, k: nat, p: Pick, sqrt: real -> real)
    requires 0 < k <= |tpls| && AllScore(tpls, pcp, sqrt) && ScanOutcome(tpls, pcp, k - 1, p, sqrt)
    requires GetScore(tpls[k - 1], pcp, sqrt).value <= p.score
    ensures ScanOutcome(tpls, pcp, k, Pick(GetScore(tpls[k - 1], pcp, sqrt).value, tpls[k - 1].root, tpls[k - 1].quality), sqrt)
  {
    var score := GetScore(tpls[k - 1], pcp, sqrt).value;
    var i := k - 1;
    assert forall j :: 0 <= j < k ==> GetScore(tpls[j], pcp, sqrt).value >= score;
  }

  /** A template scoring above the pick so far leaves it. */
  lemma ScanOutcomeKeep(tpls: seq<ChordTpl>, pcp: seq<real>, k: nat, p: Pick, sqrt: real -> real)
    requires 0 < k <= |tpls| && AllScore(tpls, pcp, sqrt) && ScanOutcome(tpls, pcp, k - 1, p, sqrt)
    requires GetScore(tpls[k - 1], pcp, sqrt).value > p.score
    ensures ScanOutcome(tpls, pcp, k, p, sqrt)
  {
    if p != Pick(FltMax, NoteUnknown, CqMaj) || exists j :: 0 <= j < k - 1 && GetScore(tpls[j], pcp, sqrt).value <= FltMax {
      var i :| 0 <= i < k - 1 && p == Pick(GetScore(tpls[i], pcp, sqrt).value, tpls[i].root, tpls[i].quality) &&
        p.score <= FltMax &&
        (forall j :: 0 <= j < k - 1 ==> GetScore(tpls[j], pcp, sqrt).value >= p.score) &&
        (forall j :: i < j < k - 1 ==> GetScore(tpls[j], pcp, sqrt).value > p.score);
      assert forall j :: i < j < k ==> GetScore(tpls[j], pcp, sqrt).value > p.score;
    }
  }

  /**
   * When every template scores, the winner is a template of least score,
   * and no later template ties it (later ties win); if every score is above
   * `FLT_MAX` (or there are no templates) the answer is (`NoteUnknown`,
   * `CqMaj`). The answer never carries a bass note.
   */
  lemma BestMatchIsLastMinimum(tpls: seq<ChordTpl>, pcp: seq<real>, sqrt: real -> real)
    requires AllScore(tpls, pcp, sqrt)
    ensures BestMatch(tpls, pcp, sqrt).Ok?
    ensures BestMatch(tpls, pcp, sqrt).value.bass == NoteUnknown && BestMatch(tpls, pcp, sqrt).value.bassInterval == -1
    ensures (forall j :: 0 <= j < |tpls| ==> GetScore(tpls[j], pcp, sqrt).value > FltMax) ==>
      BestMatch(tpls, pcp, sqrt).value == MakeChord(NoteUnknown, CqMaj)
    ensures (exists j :: 0 <= j < |tpls| && GetScore(tpls[j], pcp, sqrt).value <= FltMax) ==>
      exists i :: 0 <= i < |tpls| &&
        BestMatch(tpls, pcp, sqrt).value == MakeChord(tpls[i].root, tpls[i].quality) &&
        (forall j :: 0 <= j < |tpls| ==> GetScore(tpls[j], pcp, sqrt).value >= GetScore(tpls[i], pcp, sqrt).value) &&
        (forall j :: i < j < |tpls| ==> GetScore(tpls[j], pcp, sqrt).value > GetScore(tpls[i], pcp, sqrt).value)
  {
    ScanPicksLastMinimum(tpls, pcp, |tpls|, sqrt);
    var p := Scan(tpls, pcp, |tpls|, sqrt).value;
    if exists j :: 0 <= j < |tpls| && GetScore(tpls[j], pcp, sqrt).value <= FltMax {
      var j :| 0 <= j < |tpls| && GetScore(tpls[j], pcp, sqrt).value <= FltMax;
    }
  }

  /** The first template that fails to score ends the match with its error. */
  lemma {:induction false} BestMatchPropagatesError(tpls: seq<ChordTpl>, pcp: seq<real>, k: nat, sqrt: real -> real)
    requires k < |tpls| && GetScore(tpls[k], pcp, sqrt).Err?
    requires forall j :: 0 <= j < k ==> GetScore(tpls[j], pcp, sqrt).Ok?
    ensures BestMatch(tpls, pcp, sqrt) == Err(GetScore(tpls[k], pcp, sqrt).msg)
  {
    ScanPicksLastMinimum(tpls[..k], pcp, k, sqrt);
    ScanPrefix(tpls, pcp, k, sqrt);
    ScanErrSticky(tpls, pcp, k + 1, |tpls|, sqrt);
  }

  /** A scan only looks at the templates it has passed. */
  lemma {:induction false} ScanPrefix(tpls: seq<ChordTpl>, pcp: seq<real>, k: nat, sqrt: real -> real)
    requires k <= |tpls|
    ensures Scan(tpls, pcp, k, sqrt) == Scan(tpls[..k], pcp, k, sqrt)
    decreases k
  {
    if k > 0 {
      ScanPrefix(tpls, pcp, k - 1, sqrt);
      ScanPrefix(tpls[..k], pcp, k - 1, sqrt);
      assert tpls[..k][..k - 1] == tpls[..k - 1];
    }
  }

  lemma {:induction false} ScanErrSticky(tpls: seq<ChordTpl>, pcp: seq<real>, k: nat, k': nat, sqrt: real -> real)
    requires k <= k' <= |tpls| && Scan(tpls, pcp, k, sqrt).Err?
    ensures Scan(tpls, pcp, k', sqrt) == Scan(tpls, pcp, k, sqrt)
    decreases k'
  {
    if k < k' { ScanErrSticky(tpls, pcp, k, k' - 1, sqrt); }
  }

  lemma AppendAssoc<T>(a: seq<T>, b: seq<T>, c: seq<T>)
    ensures a + (b + c) == (a + b) + c
  {
  }

  class ChordTplCollection {
    var tpls: seq<ChordTpl>

    /** The collection before `InitChordTpls_` runs. */
    constructor ()
      ensures tpls == []
    {
      tpls := [];
    }

    /** `InitTheoretical_`: appends every template in order, failing on a quality with no row. */
    method InitTheoretical(upper: int, sqrt: real -> real) returns (failure: Option<string>)
      requires PositiveRoot(sqrt) && CqMin <= upper <= CqMax
      modifies this
      ensures failure.None? <==> TheoreticalTpls(upper, sqrt).Ok?
      ensures failure.Some? ==> TheoreticalTpls(upper, sqrt) == Err(failure.value)
      ensures failure.None? ==> tpls == old(tpls) + TheoreticalTpls(upper, sqrt).value
    {
      var make := (n: int, q: int, s: nat) => TheoreticalTpl(n, q, s, sqrt);
      ghost var build := TableTpl(sqrt);
      assert Makes(make, build);
      failure := PushNotes(upper, make, build);
      if failure.Some? {
        return;
      }
      PushN(sqrt);
      AppendAssoc(old(tpls), NoteTpls(RowCount, build, upper, NotesEnd()), [NTpl(sqrt)]);
    }

    /** The note loop of `InitTheoretical_`: the templates of every note, or the first failure. */
    method PushNotes(upper: int, make: (int, int, nat) -> Result<ChordTpl>, ghost build: (int, int, nat) -> ChordTpl)
      returns (failure: Option<string>)
      requires CqMin <= upper <= CqMax && Makes(make, build)
      modifies this
      ensures failure.Some? ==> !AllInTable(upper) && failure.value == SubtypesErr
      ensures failure.None? ==> AllInTable(upper) && tpls == old(tpls) + NoteTpls(RowCount, build, upper, NotesEnd())
    {
      var n := NoteMin;
      while n <= NoteMax
        invariant NoteMin <= n <= NoteMax + 1
        invariant n > NoteMin ==> AllInTable(upper)
        invariant tpls == old(tpls) + NoteTpls(RowCount, build, upper, n)
      {
        failure, n := PushNextNote(upper, n, make, build, old(tpls));
        if failure.Some? {
          return;
        }
      }
      return None;
    }

    /** One pass of the note loop: the templates of note n follow those of the notes before it. */
    method PushNextNote(upper: int, n: int, make: (int, int, nat) -> Result<ChordTpl>, ghost build: (int, int, nat) -> ChordTpl,
                        ghost base: seq<ChordTpl>)
      returns (failure: Option<string>, next: int)
      requires CqMin <= upper <= CqMax && Makes(make, build) && NoteMin <= n <= NoteMax
      requires tpls == base + NoteTpls(RowCount, build, upper, n)
      modifies this
      ensures failure.Some? ==> !AllInTable(upper) && failure.value == SubtypesErr
      ensures failure.None? ==> next == n + 1 && AllInTable(upper) && tpls == base + NoteTpls(RowCount, build, upper, next)
    {
      ghost var before := tpls;
      failure := PushNote(upper, n, make, build);
      next := n + 1;
      if failure.None? {
        ExtendNoteTpls(RowCount, build, upper, n, next, base, before, tpls);
      }
    }

    /** The last push of `InitTheoretical_`: the N template. */
    method PushN(sqrt: real -> real)
      requires PositiveRoot(sqrt)
      modifies this
      ensures tpls == old(tpls) + [NTpl(sqrt)]
    {
      var nTpl := TheoreticalTpl(NoteUnknown, CqUnknown, 0, sqrt);
      NTplIsTheoretical(sqrt);
      tpls := tpls + [nTpl.value];
    }

    /**
     * The quality loop of `InitTheoretical_` for note n: appends the templates
     * of every quality up to `upper`, or fails at the first quality with no row.
     */
    method PushNote(upper: int, n: int, make: (int, int, nat) -> Result<ChordTpl>, ghost build: (int, int, nat) -> ChordTpl)
      returns (failure: Option<string>)
      requires CqMin <= upper <= CqMax && IsNote(n) && Makes(make, build)
      modifies this
      ensures failure.Some? ==> !AllInTable(upper) && failure.value == SubtypesErr
      ensures failure.None? ==> AllInTable(upper) && tpls == old(tpls) + QualityTpls(RowCount, build, n, upper + 1)
    {
      var q := CqMin;
      while q <= upper
        invariant CqMin <= q <= upper + 1
        invariant AllInTable(q - 1)
        invariant tpls == old(tpls) + QualityTpls(RowCount, build, n, q)
      {
        var subtypes := SlashSubtypesCnt(q);
        SubtypesCount(q);
        if subtypes.Err? {
          MissingQuality(upper, q);
          return Some(subtypes.msg);
        }
        PushSubtypes(n, q, subtypes.value, make, build);
        AppendAssoc(old(tpls), QualityTpls(RowCount, build, n, q), SubtypeTpls(build, n, q, RowCount(q)));
        q := q + 1;
      }
      return None;
    }

    /** The subtype loop of `InitTheoretical_`: appends the templates of note n, quality q. */
    method PushSubtypes(n: int, q: int, subtypes: nat, make: (int, int, nat) -> Result<ChordTpl>,
                        ghost build: (int, int, nat) -> ChordTpl)
      requires IsNote(n) && CqMin <= q <= CqMax && subtypes == RowCount(q) && Makes(make, build)
      modifies this
      ensures tpls == old(tpls) + SubtypeTpls(build, n, q, subtypes)
    {
      for s := 0 to subtypes
        invariant tpls == old(tpls) + SubtypeTpls(build, n, q, s)
      {
        var tpl := make(n, q, s);
        assert TableChord(n, q, s);
        tpls := tpls + [tpl.value];
        assert SubtypeTpls(build, n, q, s + 1) == SubtypeTpls(build, n, q, s) + [build(n, q, s)];
      }
    }

    /** `InitFromHmm_`: one template per note and quality, no N template. */
    method InitFromHmm(hmm: (int, int) -> seq<real>)
      modifies this
      ensures tpls == old(tpls) + HmmTpls(hmm)
    {
      ghost var all := HmmTpls(hmm);
      ghost var count := 0;
      var n := NoteMin;
      while n <= NoteMax
        invariant NoteMin <= n <= NoteMax + 1
        invariant count == (n - NoteMin) * HmmQualities
        invariant tpls == old(tpls) + all[..count]
      {
        var q := CqMin;
        while q <= CqMax
          invariant CqMin <= q <= CqMax + 1
          invariant count == HmmIndex(n, q)
          invariant tpls == old(tpls) + all[..count]
        {
          var tpl := HmmTpl(n, q, hmm(n, q));
          HmmTplsLayout(hmm, n, q);
          tpls := tpls + [tpl.value];
          assert all[..count + 1] == all[..count] + [all[count]];
          count := count + 1;
          q := q + 1;
        }
        n := n + 1;
      }
      assert all[..count] == all;
    }

    /** `Size()`. */
    function Size(): (r: nat)
      reads this
      ensures r == |tpls|
    {
      |tpls|
    }

    /** `GetTpl`: an error for an index past the end, else the template at the index. */
    function GetTpl(idx: nat): (r: Result<ChordTpl>)
      reads this
      ensures r.Ok? <==> idx < |tpls|
      ensures r.Ok? ==> r.value == tpls[idx]
    {
      if idx >= |tpls| then Err("ChordTplCollection::GetTpl(): bad index") else Ok(tpls[idx])
    }

    /** `getBestMatch`: the scan over the templates in order. */
    method GetBestMatch(pcp: seq<real>, sqrt: real -> real) returns (r: Result<Chord>)
      ensures r == BestMatch(tpls, pcp, sqrt)
    {
      var scoreMin := FltMax;
      var winningNote := NoteUnknown;
      var winningQuality := CqMaj;
      var i := 0;
      while i < |tpls|
        invariant 0 <= i <= |tpls|
        invariant Scan(tpls, pcp, i, sqrt) == Ok(Pick(scoreMin, winningNote, winningQuality))
      {
        var score := GetScore(tpls[i], pcp, sqrt);
        if score.Err? {
          ScanErrSticky(tpls, pcp, i + 1, |tpls|, sqrt);
          return Err(score.msg);
        }
        if score.value <= scoreMin {
          scoreMin := score.value;
          winningNote := tpls[i].root;
          winningQuality := tpls[i].quality;
        }
        i := i + 1;
      }
      return Ok(MakeChord(winningNote, winningQuality));
    }
  }
}
