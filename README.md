# libmusic chord recognition — a Dafny model

This project models the decision logic of **libmusic**, a C++ library that
recognises chords in audio, together with the chord-segment scorer of its
command-line client, the stand-alone FFT kept at the repository root, and
the chord annotations of the Python dataset-extraction tool. C++ `double`
is modelled as `real`. The functions whose code is not part of this model
or that are floating-point transcendental maths arrive as function-valued
parameters: `pow`, `log`, `sqrt`, `cos`/`sin` twiddles, `atan`, the
Butterworth filter, the constant-Q library, `Chord::match` and Python's
`str`. What is verified is the structure around them: indices, lengths,
tables, permutations, arg-max rules, error paths and the state of the
buffers.

The model follows the library's pipeline, one module per source file:

- **Notes and chords** (`lmtypes.dfy`, `music_scale.dfy`). These cover
  the lazily wrapping note `operator+`, the major-scale builder, and the
  `Chord` value with its equality, its ordering that ignores the bass, and
  its Harte and user labels.
- **Pitch tables** (`pitch_calculator.dfy`, `pitch_cls_profile.dfy`,
  `pcp_buf.dfy`). These cover:
  - the 248-entry pitch table and its binary search;
  - note/octave index arithmetic;
  - the pitch-class profile (pcp) vector with its products, distances and
    in-place operators;
  - the buffer of profiles gathered since the last chord change.
- **Templates** (`chord_tpl.dfy`, `chord_tpl_collection.dfy`). These
  cover the 24-slot chord templates built from the quality table and the
  major scale, the template collection in its fixed order, and the
  best-match selection.
- **Decoding** (`viterbi.dfy`, `chord_detector.dfy`). These cover:
  - Viterbi decoding, with its back-pointer table and its optimality
    under a monotone product;
  - the score matrix normalised into distributions;
  - the stochastic transition matrix and the initial distribution;
  - the majority vote over a profile buffer;
  - the segments cut from the decoded path.
- **Spectra** (`fft.dfy`, `fft_object.dfy`, `root_fft.dfy`,
  `fft_point.dfy`, `lmpriority_queue.dfy`, `window_functions.dfy`,
  `tft.dfy`, `cqt_wrapper.dfy`). These cover:
  - the bit-reversal permutation and its in-place sort, with the unit
    tests' values;
  - the FFT object's size choice, low-frequency cut, polar conversion and
    moving average;
  - the max-priority queue of spectrum points;
  - the window functions;
  - spectrogram denoising by median absolute deviation;
  - the constant-Q front end's column aggregation, trimming and reversal.
- **Beat and envelope** (`envelope.dfy`, `ma_filter.dfy`,
  `beat_detector.dfy`). These cover:
  - the amplitude envelope, its differences, means and silence test;
  - the moving-average downsampler, which divides each chunk's sum by the
    chunk length plus one, as written;
  - the folding of the beat frequency and beat interval into their ranges.
- **Client and tooling** (`lmcsr.dfy`, `chord_py.dfy`). These cover the
  overlap scorer of detected against reference segments, the stereo-to-mono
  down-mix, and the dataset `Song`, which drops one leading no-chord label
  from the caller's list.

Where the source changes state step by step, the model does too: objects
are classes whose methods have `modifies` clauses, in-place algorithms
work on `array`s, and each loop carries its invariants. Each such method is
proved against a specification function, and the properties are lemmas
about that function. A thrown exception is an `Err` result, or a `failure`
out-parameter, carrying the source's message. Undefined behaviour is
handled in one of three ways. Where the model can name the input that
reaches it, it is an explicit outcome: `LmFft.BitReverse` returns `None`
for the negative shift, and the unsigned wrap-arounds (the reversed range
of `Envelope::mean`, the left walk from a peak at index 0) are written out
as arithmetic modulo 2^32. Otherwise (an out-of-range index, `clz(0)`) it
is excluded by a precondition; the lines under Left out that start with a
member's name say which inputs of the source that member excludes and what
the source does with them. In the remaining cases the model gives the
evident result instead, and each member row that does so says "corrected":

- the insert of a vector's range into the vector itself in
  `MusicScale::getMajorScale` (`MusicScale.GetMajorScale`);
- the bit-reversal sort, where `BitReverse_` shifts by a negative count
  (`LmFft.SortBitReversal`), and every transform built on it:
  `LmFft.Forward`, `LmFft.InverseInPlace`, `LmFftObject.Spectrum`,
  `LmFftObject.Fft.constructor`, `LmFftObject.Fft.Inverse`,
  `LmFftObject.Fft.InverseSpectrum`, `LmFftObject.New`,
  `RootFft.InverseAsWritten`, `ChordDetectors.GetFft` and
  `ChordDetectors.GetChord`;
- the moving average of the polar spectrum where `Avg_` would read an entry
  the memset left alone or one past the buffer (`LmFftObject.PolarSpectrum`,
  `LmFftObject.PolarBuffer`, and through them the constructor, `New`,
  `GetFft` and `GetChord`);
- the beat detector's walk to the left of a peak at index 0
  (`BeatDetectors.BeatDetector.constructor`).

Besides these, the template fill (`ChordTemplates.InitTpl`), the in-place
windows (`WindowFunctions.ApplyHammingInPlace` and its two siblings) and
the 32-bit overlap lengths (`ChordSegmentScores.CSRListener.GetMatchDuration`)
are the corrected halves of Findings rows; each row also names the member
that models the code as written.

Two points where the documentation and the code disagree follow the code:

- `isPowerOf2` is modelled as written, which is the inverse of its
  documented meaning (see Findings).
- The chord qualities named `cq_major`, `cq_7th`, … in the template table
  are the `cq_maj`, `cq_7`, … of the quality enumeration, matched by
  meaning. With the enumeration's `cq_Max = cq_min13`, building the
  theoretical collection fails, because `cq_5` has no table row. The
  builder takes its upper quality as a parameter, and both outcomes are
  proved.

The dataset tooling holds no hidden-Markov-model estimator, so only the
`Song` constructor is modelled.

## Model

| member | source | states |
|---|---|---|
| LmTypes.NotePlus | libmusic/src/lmtypes.cpp:4-17 | the result is congruent to note + term modulo 12; a note inside C..B is moved by term with no wrap, one above B comes back 12 lower, one below C 12 higher (the wrap looks at the incoming note, not at the sum) |
| LmTypes.AddAssign | libmusic/src/lmtypes.cpp:4-17 | the referenced slot is overwritten with `NotePlus` of its old value, the same value is returned and every other slot is unchanged |
| LmTypes.MakeChord | libmusic/include/lmtypes.h:135-136 | a chord from a root and a quality gets the bass note `note_Unknown` and the bass interval -1 |
| LmTypes.DefaultChord | libmusic/include/lmtypes.h:137 | the default chord is unknown root, unknown bass, interval -1, unknown quality |
| LmTypes.EqualIsIdentity | libmusic/include/lmtypes.h:139-150 | `==` compares all four fields, so it is exactly value equality, and `!=` its negation |
| LmTypes.LessCharacterised | libmusic/include/lmtypes.h:152-160 | `<` holds exactly for unequal chords ordered by root and then by quality |
| LmTypes.Equal | libmusic/include/lmtypes.h:139-145 | `==` holds exactly for the same chord value |
| LmTypes.NotEqual | libmusic/include/lmtypes.h:147-150 | `!=` holds exactly for different chord values |
| LmTypes.Less | libmusic/include/lmtypes.h:152-160 | `<` never holds between equal chords, nor between chords with the same root and quality, whatever their bass |
| LmTypes.LessIrreflexiveAsymmetricTransitive | libmusic/include/lmtypes.h:152-160 | `<` is irreflexive, asymmetric and transitive |
| LmTypes.LessIgnoresBass | libmusic/include/lmtypes.h:152-160 | two chords that differ only in the bass are unequal and yet neither is below the other |
| LmTypes.NatToString | libmusic/include/lmtypes.h:170-171 | the printed bass interval is a non-empty string of decimal digits, with no leading zero, whose value is the interval |
| LmTypes.ToHarte | libmusic/include/lmtypes.h:162-175 | the Harte name starts with the root's name; it has ':' exactly when the root is known and '/' exactly when the bass interval is above 1; with names free of ':' and '/', cutting it at ':' and '/' gives back the root's name, the quality's name when the root is known, and the bass interval's value when it is above 1 |
| LmTypes.ToUser | libmusic/include/lmtypes.h:177-187 | the user name starts with the root's name and has '/' exactly when the bass interval is above 1; with names free of '/', cutting it at '/' gives the root's name followed by the quality's name, then the bass note's name exactly when the bass interval is above 1 |
| Helpers.BitLengthBounds | libmusic/src/lmhelpers.cpp:32-35 | 32 minus the leading-zero count of x >= 1 is the k with 2^(k-1) <= x < 2^k |
| Helpers.NextPowerOf2 | libmusic/src/lmhelpers.cpp:32-35 | for 2 <= n <= 2^31 the result is a power 2^k with 2^(k-1) < n <= 2^k |
| Helpers.NextPowerOf2IsLeast | libmusic/src/lmhelpers.cpp:32-35 | that power is unique: any k with n in (2^(k-1), 2^k] is the one returned |
| Helpers.NextPowerOf2Examples | libmusic/src/lmhelpers.cpp:32-35 | 2, 4, 5, 100, 1000 and 1770165767 go to 2, 4, 8, 128, 1024 and 2^31 |
| Helpers.IsPowerOf2AsWrittenInverted | libmusic/src/lmhelpers.cpp:55-58 | the test as written holds exactly for the non-zero 32-bit values that are NOT powers of two |
| Helpers.IsPowerOf2AsWrittenCounterexample | libmusic/src/lmhelpers.cpp:55-58 | as written, 8 is reported as no power of two and 6 as one |
| Helpers.IsPowerOf2 | libmusic/include/lmhelpers.h:61-67 | the documented test: true exactly for the 32 powers of two |
| Helpers.IsPowerOf2AsWritten | libmusic/src/lmhelpers.cpp:55-58 | as written, the test is false for 0 and otherwise the negation of the documented test |
| Helpers.CmpPairBySecondIgnoresFirst | libmusic/include/lmhelpers.h:91-95 | pairs are compared by their second component only, and the comparison is asymmetric |
| Helpers.FirstMaxIndexIsFirstMaximum | libmusic/src/beat_detector.cpp:51 | the index `max_element` returns holds a maximum and every earlier entry is strictly smaller |
| Helpers.FirstMaxIndex | libmusic/src/beat_detector.cpp:51 | `max_element` over a non-empty prefix returns an index inside it |
| Helpers.RootOfSquares | libmusic/src/fft.cpp:222 | with `sqrt` the square root, the root of a sum of two squares is non-negative and squares back to the sum |
| Helpers.RootOfZero | libmusic/include/pitch_cls_profile.h:84 | the square root of 0 is 0, so a profile is at distance 0 from itself |
| Helpers.RootAtLeast | libmusic/src/pcp_buf.cpp:37 | a root reaches a positive bound exactly when its square reaches the bound squared |
| Helpers.FirstMaxIndexPrefix | libmusic/src/beat_detector.cpp:42 | a search over the first n entries depends on those entries only |
| Helpers.TimeDomain2ComplexVector | libmusic/src/lmhelpers.cpp:37-53 | the samples become complex numbers with zero imaginary part, then zeroes pad the vector to the requested size; the length is the larger of the two sizes |
| Helpers.AlmostEqualProperties | libmusic/src/lmhelpers.cpp:60-67 | `almostEqual` is symmetric, holds for a value and itself exactly when eps > 0, and means b lies strictly within eps of a |
| Helpers.Sort | libmusic/include/lmhelpers.h:111-115 | the sorted copy is ordered and a permutation of the input |
| Helpers.SortedUnique | libmusic/include/lmhelpers.h:111-115 | two ordered permutations of the same entries are equal, so the sorted copy does not depend on the sorting algorithm |
| Helpers.Middle | libmusic/include/lmhelpers.h:112-121 | the middle entry, or the mean of the two middle entries, lies between the least and the greatest entry |
| Helpers.Median | libmusic/include/lmhelpers.h:102-124 | an error "median(): empty vector" exactly for the empty vector; the only entry of a singleton; otherwise the middle of the sorted copy, between its ends |
| Helpers.MedianPermutationInvariant | libmusic/include/lmhelpers.h:102-124 | reordering the entries does not change the median |
| Helpers.MedianBounds | libmusic/include/lmhelpers.h:102-124 | the median lies between two entries of the vector, and the sorted ends bound every entry |
| MusicScale.ScaleHead | libmusic/src/music_scale.cpp:38-45 | after k steps the scale holds k + 1 notes and starts with the root |
| MusicScale.GetMajorScale | libmusic/src/music_scale.cpp:32-50 | the returned vector is the root, the seven formula steps taken with the note `operator+`, then entries 1..7 again |
| MusicScale.MajorScaleShape | libmusic/src/music_scale.cpp:32-50 | 15 entries, the root first, entries 8..14 repeat entries 1..7, and each of the first seven steps is a `NotePlus` by the formula |
| MusicScale.ScaleHeadCongruent | libmusic/src/music_scale.cpp:42-45 | entry k is congruent modulo 12 to the root plus the first k formula steps |
| MusicScale.MajorScaleOctave | libmusic/src/music_scale.cpp:34-45 | the formula spans an octave: the eighth entry has the root's pitch class and every step moves the pitch class by its formula value |
| MusicScale.ScaleHeadRange | libmusic/src/music_scale.cpp:42-45 | for a root in C..B, every entry of the head lies in 1..14 |
| MusicScale.MajorScaleRange | libmusic/src/music_scale.cpp:32-50 | for a root in C..B every entry of the scale lies in 1..14, so 13 and 14 can appear |
| MusicScale.MajorScaleOutOfRangeEntries | libmusic/src/music_scale.cpp:32-50 | root C ends its first octave on 13; root A has 14 and root G# has 13 as its third |
| PitchClsProfiles.DotSymmetric | libmusic/src/pitch_cls_profile.cpp:163-176 | the sum of products is symmetric in its two vectors |
| PitchClsProfiles.SqDistMetric | libmusic/include/pitch_cls_profile.h:71-85 | the squared distance is symmetric and never negative |
| PitchClsProfiles.SqDistSelf | libmusic/include/pitch_cls_profile.h:71-85 | a profile is at distance 0 from itself |
| PitchClsProfiles.Scaled | libmusic/src/pitch_cls_profile.cpp:117-126 | each scaled entry times the divisor gives back the original entry |
| PitchClsProfiles.PitchClsProfile.constructor | libmusic/src/pitch_cls_profile.cpp:41-45 | the default profile holds 24 zeros |
| PitchClsProfiles.PitchClsProfile.FromValues | libmusic/src/pitch_cls_profile.cpp:80-115 | a profile holds the entries and maximum it was built with (the spectrum arithmetic is a parameter) |
| PitchClsProfiles.PitchClsProfile.Normalize | libmusic/src/pitch_cls_profile.cpp:117-126 | a zero maximum leaves the profile alone; otherwise every entry is divided by the maximum; the maximum is kept |
| PitchClsProfiles.PitchClsProfile.GetPitchCls | libmusic/src/pitch_cls_profile.cpp:128-135 | an error exactly for a note outside C..B; otherwise slot (note - C + 12 for treble) modulo the size, which for 12 entries ignores bass/treble |
| PitchClsProfiles.PitchClsProfile.Size | libmusic/src/pitch_cls_profile.cpp:137-140 | the number of entries |
| PitchClsProfiles.PitchClsProfile.SumProduct | libmusic/src/pitch_cls_profile.cpp:163-176 | an error exactly on a size mismatch, else the sum of products |
| PitchClsProfiles.PitchClsProfile.EuclideanDistance | libmusic/include/pitch_cls_profile.h:71-85 | an error "euclideanDistance(): wrong vector size" exactly on a size mismatch, else `sqrt` of the sum of squared differences; with `sqrt` the square root, a non-negative value whose square is that sum |
| PitchClsProfiles.PitchClsProfile.DivergenceKullbackLeibler | libmusic/src/pitch_cls_profile.cpp:148-161 | an error exactly on a size mismatch, else the sum of the per-entry terms |
| PitchClsProfiles.PitchClsProfile.PlusAssign | libmusic/src/pitch_cls_profile.cpp:178-185 | every entry gains the other profile's entry at the same index, also when the other profile is this one; the length and the maximum are kept |
| PitchClsProfiles.PitchClsProfile.DivAssign | libmusic/src/pitch_cls_profile.cpp:187-194 | every entry is divided by the denominator; the maximum is kept |
| PitchCalculators.Int16 | libmusic/src/pitch_calculator.cpp:102 | conversion to `int16_t` lands in [-32768, 32768), is congruent to its argument modulo 2^16 and keeps every value already in range |
| PitchCalculators.CRemOctave | libmusic/src/pitch_calculator.cpp:221-222 | C's `%` by 12 keeps the dividend's sign and differs from it by a multiple of 12 |
| PitchCalculators.SemitonesFromA4 | libmusic/src/pitch_calculator.cpp:56-67 | every note's distance from A within octave 4 lies in -9..2 |
| PitchCalculators.TablesInverse | libmusic/src/pitch_calculator.cpp:43-67 | the note-from-distance table has 12 entries, is inverse to the distance-from-A table on all 12 notes, and back |
| PitchCalculators.NoteAtDistance | libmusic/src/pitch_calculator.cpp:221-225 | the note at any distance from A4 is a real note (never `note_Unknown`), picked by the non-negative residue modulo 12 |
| PitchCalculators.ResidueAgrees | libmusic/src/pitch_calculator.cpp:221-222 | the source's `((d % 12) + 12) % 12` with C's `%` is the non-negative residue of d |
| PitchCalculators.NoteAtDistanceOctaves | libmusic/src/pitch_calculator.cpp:221-225 | moving by whole octaves from a note's distance gives the same note back |
| PitchCalculators.UInt32 | libmusic/src/pitch_calculator.cpp:162 | conversion to `uint32_t` lies below 2^32 and keeps every value already in range |
| PitchCalculators.GetTonic | libmusic/src/pitch_calculator.cpp:141-163 | an "Invalid argument" error exactly for a null array or a zero sample rate; otherwise the first index of the maximum among the first len entries, times the sample rate over the FFT size, in `uint32_t` arithmetic |
| PitchCalculators.PitchCalculator.constructor | libmusic/src/pitch_calculator.cpp:41-91 | the table holds the 248 given entries, strictly increasing and positive, with 440 at index 48 |
| PitchCalculators.PitchCalculator.GetPitchIdx | libmusic/src/pitch_calculator.cpp:112-133 | the binary search returns an index whose entry equals the rounded frequency, and -1 exactly when no entry equals it |
| PitchCalculators.PitchCalculator.IsPitch | libmusic/src/pitch_calculator.cpp:135-138 | true exactly when the rounded frequency is a table entry |
| PitchCalculators.PitchCalculator.GetPitchByInterval | libmusic/src/pitch_calculator.cpp:93-105 | FREQ_INVALID when the pitch is no entry or the move leaves the table, else the entry n places further; never another value |
| PitchCalculators.PitchCalculator.PositiveEntries | libmusic/src/pitch_calculator.cpp:77-91 | every table entry is positive |
| PitchCalculators.PitchCalculator.NoteToPitch | libmusic/src/pitch_calculator.cpp:228-249 | "Invalid note" exactly for a note outside C..B, else "Invalid octave" exactly for an octave outside 2..7, else a table read |
| PitchCalculators.PitchCalculator.NoteIdxInRange | libmusic/src/pitch_calculator.cpp:237-246 | for valid arguments the index is idxA4 + distance + 12 per octave, lies within [idxA4-33, idxA4+38], and the result is that positive entry, never FREQ_INVALID |
| PitchCalculators.PitchCalculator.NoteToPitchA4 | libmusic/src/pitch_calculator.cpp:228-249 | A in octave 4 is 440 |
| PitchCalculators.PitchCalculator.PitchNote | libmusic/src/pitch_calculator.cpp:215-226 | an error exactly for a frequency that is not a table entry once rounded, otherwise always a note in C..B |
| PitchCalculators.PitchCalculator.PitchToNote | libmusic/src/pitch_calculator.cpp:215-226 | the method computes `PitchNote` |
| PitchCalculators.PitchCalculator.NoteToPitchToNote | libmusic/src/pitch_calculator.cpp:215-249 | the note of `noteToPitch(n, o)` is n again, for every note and valid octave |
| PitchCalculators.Int16NeverWrapsIntoTable | libmusic/src/pitch_calculator.cpp:102-104 | the `int16_t` sum of a table index and a step is a valid index exactly when the true sum is, and then equals it |
| ChordTemplates.TableRowsWellFormed | libmusic/src/chord_tpl.cpp:36-94 | every row of the quality table has 18 positions, only plain or absent bass positions, and the root first in the treble half |
| ChordTemplates.SlashSubtypesCnt | libmusic/src/chord_tpl.cpp:242-251 | an error exactly for a quality outside `cq_Min..cq_Max` or absent from the table, else that quality's row count (at least 1) |
| ChordTemplates.SlashSubtypeCounts | libmusic/src/chord_tpl.cpp:36-58 | major has 4 slash subtypes, minor and seventh 2 each |
| ChordTemplates.SingleRowQualitiesSevenths | libmusic/src/chord_tpl.cpp:59-66 | major 7th and minor 7th have one row each |
| ChordTemplates.SingleRowQualitiesSixthsDiminished | libmusic/src/chord_tpl.cpp:67-82 | the two sixths, diminished and half-diminished have one row each |
| ChordTemplates.TableQualities | libmusic/src/chord_tpl.cpp:36-94 | exactly nine qualities have rows; every other quality has no subtype count |
| ChordTemplates.Wrap | libmusic/src/chord_tpl.cpp:178 | the corrected reduction of a written note lies in C..B and keeps its pitch class |
| ChordTemplates.ScaleAfter | libmusic/src/chord_tpl.cpp:163 | the note `operator+` rewrites the referenced scale entry; the scale keeps its 15 entries |
| ChordTemplates.Step | libmusic/src/chord_tpl.cpp:139-179 | one position of the filling loop keeps the template at 24 slots; with reduced notes it never fails |
| ChordTemplates.StepFixed | libmusic/src/chord_tpl.cpp:172-178 | with reduced notes a present position writes a slot inside the template |
| ChordTemplates.InitialFill | libmusic/src/chord_tpl.cpp:134-137 | filling starts from the root's major scale, 24 zero slots and no bass note |
| ChordTemplates.Fill | libmusic/src/chord_tpl.cpp:139-180 | after any number of positions the template has 24 slots; with reduced notes filling never fails |
| ChordTemplates.Halves | libmusic/src/chord_tpl.cpp:182-186 | slot by slot: a bass slot that is not 1 while its treble slot is 1 becomes 0.5, every other slot is kept |
| ChordTemplates.InitTplAsWritten | libmusic/src/chord_tpl.cpp:132-187 | as written, a successful fill keeps the 24-slot shape (failure stands for the write past the end) |
| ChordTemplates.InitTplSpec | libmusic/src/chord_tpl.cpp:132-187 | the corrected fill always yields a 24-slot template |
| ChordTemplates.FillPosition | libmusic/src/chord_tpl.cpp:139-179 | one pass on the template array does what `Step` specifies, including the rewritten scale entry and the bass note |
| ChordTemplates.MarkHalves | libmusic/src/chord_tpl.cpp:182-186 | the second loop in place yields `Halves` of the old array |
| ChordTemplates.InitTpl | libmusic/src/chord_tpl.cpp:132-187 | the array-filling method computes the template and bass note of `InitTplSpec` |
| ChordTemplates.FillRow | libmusic/src/chord_tpl.cpp:139-180 | the first loop on a zeroed array yields exactly the successful `Fill` of the whole row |
| ChordTemplates.FillOnes | libmusic/src/chord_tpl.cpp:139-180 | after i positions a slot is 1 exactly when one of them wrote it, and every slot is 0 or 1 |
| ChordTemplates.ScaleKept | libmusic/src/chord_tpl.cpp:163 | a degree no earlier position adjusted still holds its major-scale note |
| ChordTemplates.ScaleResidue | libmusic/src/chord_tpl.cpp:134 | degree k of the scale is the root moved by 0, 2, 4, 5, 7, 9, 11, 12 or 14 semitones, up to octaves |
| ChordTemplates.TableRowWrites | libmusic/src/chord_tpl.cpp:139-179 | for a table row with reduced notes each present position writes its half's offset plus its pitch class |
| ChordTemplates.FilledTreble | libmusic/src/chord_tpl.cpp:139-180 | a treble slot of the full fill is 1 exactly when a treble position names its pitch class |
| ChordTemplates.FilledBass | libmusic/src/chord_tpl.cpp:139-180 | a bass slot of the full fill is 1 exactly when a bass position names its pitch class |
| ChordTemplates.TemplateContents | libmusic/src/chord_tpl.cpp:132-187 | treble slot 12 + x is 1 exactly for the pitch classes the treble positions name, else 0; bass slot x is 1 for those the bass positions name, else 0.5 when its treble slot is 1, else 0 |
| ChordTemplates.StepPresent | libmusic/src/chord_tpl.cpp:145-179 | a plain position on a degree holding a note sets that note's slot to 1 and, in the bass half, records it as the bass |
| ChordTemplates.StepFlatOfThirteen | libmusic/src/chord_tpl.cpp:149-172 | as written, the flat of an unwrapped 13 is `note_Unknown`: nothing is written and the degree becomes 0 |
| ChordTemplates.StepOverrun | libmusic/src/chord_tpl.cpp:178 | as written, a treble position on an unwrapped 14 writes past the end |
| ChordTemplates.AMajorFill | libmusic/src/chord_tpl.cpp:139-180 | as written, the first loop on an A major root-position row fails at the third |
| ChordTemplates.AsWrittenAMajorOverruns | libmusic/src/chord_tpl.cpp:132-187 | as written, A major writes slot 25 of the 24-slot template |
| ChordTemplates.AsWrittenGSharpMinorDropsThird | libmusic/src/chord_tpl.cpp:132-187 | as written, G# minor completes but treble slot 23 (its third, B) stays 0 |
| ChordTemplates.CorrectedGSharpMinorKeepsThird | libmusic/src/chord_tpl.cpp:132-187 | with notes reduced, G# minor marks its third B |
| ChordTemplates.NRaw | libmusic/src/chord_tpl.cpp:191-195 | the N template before scaling is 12 bass slots of 0.5 then 12 treble slots of 1 |
| ChordTemplates.SumSquaresBound | libmusic/src/chord_tpl.cpp:204-206 | the energy is at least the square of any single entry |
| ChordTemplates.SumSquaresNonNegative | libmusic/src/chord_tpl.cpp:204-206 | the energy is never negative |
| ChordTemplates.PostInit | libmusic/src/chord_tpl.cpp:200-213 | each scaled entry times `stand` gives back the original entry; the length is kept |
| ChordTemplates.PostInitKeepsShape | libmusic/src/chord_tpl.cpp:200-213 | scaling keeps the order, the equalities and the zeros of the entries |
| ChordTemplates.StandPositive | libmusic/src/chord_tpl.cpp:202-208 | a template with a non-zero entry has a positive `stand`, so the division is defined |
| ChordTemplates.PostInitSign | libmusic/src/chord_tpl.cpp:210-212 | a scaled entry is positive exactly when the entry was |
| ChordTemplates.RootInTreble | libmusic/src/chord_tpl.cpp:132-187 | the root's own treble slot is 1 in every table template |
| ChordTemplates.TheoreticalTpl | libmusic/src/chord_tpl.cpp:97-118 | success exactly for the pair (`note_Unknown`, `cq_unknown`) or a root in C..B with a table quality and a subtype below its row count; the template keeps root and quality, interval -1, and has 24 slots |
| ChordTemplates.NTemplateShape | libmusic/src/chord_tpl.cpp:191-198 | the N template succeeds; its treble slots are all equal and every bass slot is below them |
| ChordTemplates.TheoreticalTplIsScaledSpec | libmusic/src/chord_tpl.cpp:97-118 | for a valid chord `stand` is positive and the template is `InitTpl_`'s result scaled by it, with `InitTpl_`'s bass note |
| ChordTemplates.TheoreticalTplContents | libmusic/src/chord_tpl.cpp:132-213 | in a scaled template a treble slot is positive exactly for a treble pitch class; a bass slot is positive exactly for a bass or treble pitch class, and a bass-named slot is at least its treble slot |
| ChordTemplates.HmmTpl | libmusic/src/chord_tpl.cpp:120-130 | the HMM constructor fails exactly for a root outside C..B or a quality outside `cq_Min..cq_Max`, and otherwise stores the vector verbatim |
| ChordTemplates.GetScore | libmusic/src/chord_tpl.cpp:215-225 | success exactly for a profile of the template's size, or of half its size when that equals the treble half; with `sqrt` the square root, the half-size score is non-negative and its square is the squared distance to the treble half |
| ChordTemplates.ScoreDispatch | libmusic/src/chord_tpl.cpp:215-225 | for 24 slots: a 24-entry profile scores by the dot product, a 12-entry one by `sqrt` of the squared distance to the treble half (0 on the treble half itself when `sqrt` is the square root), any other size fails |
| ChordTplCollections.RowCountAgrees | libmusic/src/chord_tpl.cpp:36-94 | the row-count table agrees with the quality table on every quality |
| ChordTplCollections.SubtypesCount | libmusic/src/chord_tpl_collection.cpp:88 | inside the quality range, the subtype count is the row count, or the error when the quality has no row |
| ChordTplCollections.AllInTableMeans | libmusic/src/chord_tpl_collection.cpp:86-89 | the build passes its quality loop exactly when `SlashSubtypesCnt` succeeds for every quality it visits |
| ChordTplCollections.MissingQuality | libmusic/src/chord_tpl_collection.cpp:86-89 | one quality without rows makes every build that reaches it fail |
| ChordTplCollections.TableTpl | libmusic/src/chord_tpl_collection.cpp:90 | on every chord of the table, the template function agrees with the theoretical constructor |
| ChordTplCollections.SubtypeTpls | libmusic/src/chord_tpl_collection.cpp:89-92 | the subtype loop appends one template per subtype, in subtype order |
| ChordTplCollections.NTplIsTheoretical | libmusic/src/chord_tpl_collection.cpp:96 | the last template is what the constructor builds for (`note_Unknown`, `cq_unknown`, 0) |
| ChordTplCollections.QualityTplsLength | libmusic/src/chord_tpl_collection.cpp:86-93 | a note contributes the subtype counts of the qualities before the bound |
| ChordTplCollections.NoteTplsLength | libmusic/src/chord_tpl_collection.cpp:83-94 | the note loop appends one block of that size per note |
| ChordTplCollections.QualityTplsAt | libmusic/src/chord_tpl_collection.cpp:86-93 | within a note, subtype s of quality q follows the templates of the qualities before q |
| ChordTplCollections.NoteTplsLayout | libmusic/src/chord_tpl_collection.cpp:83-94 | the template of note n, quality q, subtype s sits after n - C whole blocks, then the qualities before q, then s |
| ChordTplCollections.TheoreticalTplsLayout | libmusic/src/chord_tpl_collection.cpp:81-97 | with every quality up to the bound in the table, the build succeeds with 12 blocks plus one templates; each chord sits at its position with its theoretical template, and the last one is the N template |
| ChordTplCollections.DefaultBuildFails | libmusic/src/chord_tpl_collection.cpp:56-97 | with `cq_Max` = `cq_min13`, the default build fails with the `SlashSubtypesCnt` error, because `cq_5` has no row |
| ChordTplCollections.MajorMinorBuild | libmusic/src/chord_tpl_collection.cpp:81-97 | with qualities up to minor, the build succeeds with 12 x (4 + 2) + 1 = 73 templates |
| ChordTplCollections.HmmIndexDecodes | libmusic/src/chord_tpl_collection.cpp:67-79 | the HMM grid index of a note and quality is in range and decodes back to them |
| ChordTplCollections.HmmTplsLayout | libmusic/src/chord_tpl_collection.cpp:67-79 | the HMM build has 12 x 26 = 312 templates, note-major and quality-minor, each with its note, quality and trained vector, no bass and no N template |
| ChordTplCollections.ScanPicksLastMinimum | libmusic/src/chord_tpl_collection.cpp:120-128 | when every template scores, the scan after k templates holds a least score among them that no later template ties, or the start values when all scores exceed `FLT_MAX` |
| ChordTplCollections.BestMatchIsLastMinimum | libmusic/src/chord_tpl_collection.cpp:113-131 | the winner has a least score and no later template ties it; with every score above `FLT_MAX` (or no templates) the answer is (`note_Unknown`, major); the answer never carries a bass |
| ChordTplCollections.BestMatchPropagatesError | libmusic/src/chord_tpl_collection.cpp:121 | the first template whose score fails ends the match with that error |
| ChordTplCollections.ScanPrefix | libmusic/src/chord_tpl_collection.cpp:120-128 | the scan only looks at the templates it has passed |
| ChordTplCollections.ScanErrSticky | libmusic/src/chord_tpl_collection.cpp:120-128 | once the scan has failed, later templates do not change the outcome |
| ChordTplCollections.ChordTplCollection.constructor | libmusic/src/chord_tpl_collection.cpp:39-42 | the collection starts empty, before the build runs |
| ChordTplCollections.ChordTplCollection.InitTheoretical | libmusic/src/chord_tpl_collection.cpp:81-97 | fails exactly when the specification fails, with its message; otherwise appends exactly the specified templates |
| ChordTplCollections.ChordTplCollection.PushNotes | libmusic/src/chord_tpl_collection.cpp:83-94 | the note loop appends every note's templates, or fails exactly when a quality up to the bound has no row |
| ChordTplCollections.ChordTplCollection.PushN | libmusic/src/chord_tpl_collection.cpp:96 | appends exactly the N template |
| ChordTplCollections.ChordTplCollection.PushNote | libmusic/src/chord_tpl_collection.cpp:86-93 | the quality loop appends a note's templates, or fails exactly when a quality up to the bound has no row |
| ChordTplCollections.ChordTplCollection.PushNextNote | libmusic/src/chord_tpl_collection.cpp:83-92 | one pass of the note loop appends note n's templates after those of the earlier notes, or fails exactly when a quality up to the bound has no row |
| ChordTplCollections.ChordTplCollection.PushSubtypes | libmusic/src/chord_tpl_collection.cpp:89-92 | the subtype loop appends exactly the templates of every subtype, in order |
| ChordTplCollections.ChordTplCollection.InitFromHmm | libmusic/src/chord_tpl_collection.cpp:67-79 | appends exactly the HMM templates |
| ChordTplCollections.ChordTplCollection.Size | libmusic/src/chord_tpl_collection.cpp:99-102 | the number of templates held |
| ChordTplCollections.ChordTplCollection.GetTpl | libmusic/src/chord_tpl_collection.cpp:104-111 | an error exactly for an index past the end, else the template at that index |
| ChordTplCollections.ChordTplCollection.GetBestMatch | libmusic/src/chord_tpl_collection.cpp:113-131 | the method computes `BestMatch` over the held templates |
| PcpBuffers.Changes | libmusic/src/pcp_buf.cpp:33-42 | an empty buffer never reports a change; otherwise the answer fails exactly when the profile and the first buffered one differ in size, and with `sqrt` the square root it reports a change exactly when their squared distance reaches the threshold `1.4f` squared |
| PcpBuffers.ChangesIgnoresLater | libmusic/src/pcp_buf.cpp:35 | only the first buffered profile matters: later additions never change the answer |
| PcpBuffers.ChangesFromFirst | libmusic/src/pcp_buf.cpp:33-42 | with `sqrt` the square root, the first profile itself is no change; the test is symmetric in the two profiles |
| PcpBuffers.ChangeIsSquaredTest | libmusic/src/pcp_buf.cpp:37 | with `sqrt` the square root, "the distance is not below 1.4f" is "the squared distance reaches 1.4f squared" |
| PcpBuffers.Sums | libmusic/src/pcp_buf.cpp:56-58 | entry i of the sum is the sum of entry i over the buffered profiles |
| PcpBuffers.SumsStep | libmusic/src/pcp_buf.cpp:56-58 | adding one more profile adds its entries to every column sum |
| PcpBuffers.MeanOfOne | libmusic/src/pcp_buf.cpp:52-63 | the combined profile of a single profile is that profile |
| PcpBuffers.PCPBuf.constructor | libmusic/src/pcp_buf.cpp:31 | a new buffer is empty |
| PcpBuffers.PCPBuf.Vectors | libmusic/src/pcp_buf.cpp:65-68 | the buffered profiles' entries, in insertion order |
| PcpBuffers.PCPBuf.VectorChange | libmusic/src/pcp_buf.cpp:33-42 | the method computes `Changes` against the buffered profiles and changes nothing |
| PcpBuffers.PCPBuf.Add | libmusic/src/pcp_buf.cpp:44-50 | a null profile is refused and leaves the buffer alone; otherwise it is appended at the end |
| PcpBuffers.PCPBuf.GetCombinedPCP | libmusic/src/pcp_buf.cpp:52-63 | a fresh profile holding the element-wise sum of the 24 entries of every buffered profile over their count |
| PcpBuffers.PCPBuf.GetProfiles | libmusic/src/pcp_buf.cpp:65-68 | the buffered profiles, in insertion order |
| PcpBuffers.PCPBuf.Size | libmusic/src/pcp_buf.cpp:70-73 | the number of buffered profiles |
| PcpBuffers.PCPBuf.Flush | libmusic/src/pcp_buf.cpp:75-82 | the buffer is emptied |
| Viterbi.Candidates | libmusic/src/viterbi.cpp:42-43 | one product per predecessor state |
| Viterbi.Best | libmusic/src/viterbi.cpp:41-47 | the inner scan's back-pointer always names a state |
| Viterbi.FirstRow | libmusic/src/viterbi.cpp:35-37 | entry s of row 0 is back-pointer 0 with initial probability times observation |
| Viterbi.NextRow | libmusic/src/viterbi.cpp:40-49 | entry i of a later row is the best predecessor and its metric times the observation |
| Viterbi.Metrics | libmusic/src/viterbi.cpp:32-50 | every row of the table has one entry per state |
| Viterbi.Values | libmusic/src/viterbi.cpp:52-55 | the metrics of a row, in state order |
| Viterbi.GetPath | libmusic/src/viterbi.cpp:10-62 | each of the four input errors is raised in the source's order and exactly when its check fails; success exactly for well-shaped inputs, with the decoded path: one state per observation, the last the first arg-max of the final metrics, each earlier one the stored back-pointer of its successor |
| Viterbi.FillMetrics | libmusic/src/viterbi.cpp:35-50 | the two nested loops produce every row of the table, in order |
| Viterbi.FillFirstRow | libmusic/src/viterbi.cpp:35-37 | the loop produces row 0 |
| Viterbi.FillRow | libmusic/src/viterbi.cpp:40-49 | the loop produces one later row |
| Viterbi.Backtrack | libmusic/src/viterbi.cpp:52-59 | the backwards walk gives one state per row: the last is the first arg-max of the last row, each earlier one the back-pointer stored for its successor |
| Viterbi.PointersAreStates | libmusic/src/viterbi.cpp:41-48 | every back-pointer stored in the table names a state, so the walk never reads outside a row |
| Viterbi.WalkedIsDecoded | libmusic/src/viterbi.cpp:52-59 | the walk through the table built by the loops is a decoded path of the model |
| Viterbi.BestBounds | libmusic/src/viterbi.cpp:41-47 | the scan's metric is at least every candidate it has seen |
| Viterbi.BestNonNegative | libmusic/src/viterbi.cpp:41 | the scan starts at 0 and never decreases |
| Viterbi.BestCases | libmusic/src/viterbi.cpp:41-47 | the metric is the candidate at the pointer, or the start value (last state, 0) was never replaced |
| Viterbi.BestAttained | libmusic/src/viterbi.cpp:41-47 | with a non-negative last candidate the metric is the candidate at the pointer |
| Viterbi.BestFirst | libmusic/src/viterbi.cpp:41-47 | ties go to the smallest state: a positive metric sits at its pointer and every earlier candidate is strictly below; otherwise an all-zero column points to the last state |
| Viterbi.RealProductQualifies | libmusic/src/viterbi.cpp:43 | real multiplication is monotone for non-negative factors and keeps their sign |
| Viterbi.MetricsStep | libmusic/src/viterbi.cpp:39-50 | a later row's entry is the cell computed from the previous row |
| Viterbi.MetricsNonNegative | libmusic/src/viterbi.cpp:35-50 | with non-negative probabilities every metric is non-negative |
| Viterbi.MetricBoundsScore | libmusic/src/viterbi.cpp:35-50 | no state sequence ending in state s at step t scores above the metric of (t, s) |
| Viterbi.CellPointer | libmusic/src/viterbi.cpp:41-48 | when the last predecessor's candidate is non-negative, a cell's metric is its back-pointer's candidate times the observation |
| Viterbi.PointerMetric | libmusic/src/viterbi.cpp:39-50 | with non-negative inputs, each entry's metric is its back-pointer's metric times the transition, times the observation |
| Viterbi.DecodedStepMetric | libmusic/src/viterbi.cpp:52-59 | along the decoded path, each metric extends its predecessor's by one transition and one observation |
| Viterbi.DecodedPrefixScore | libmusic/src/viterbi.cpp:52-59 | along the decoded path, each prefix scores exactly the metric it passes through |
| Viterbi.DecodedIsOptimal | libmusic/src/viterbi.cpp:10-62 | with non-negative probabilities no state sequence of the same length scores above the decoded path |
| Viterbi.DecodedUnique | libmusic/src/viterbi.cpp:52-59 | the backwards walk determines the path: there is exactly one decoded path |
| ChordDetectors.GetFft | libmusic/src/chord_detector.cpp:65-75 | an empty input, one longer than the configured FFT size, or a zero rate is refused with its message; otherwise the transform succeeds exactly when half the rate reaches C8, and it is then a valid polar transform of the least power-of-two size that holds the input, at the given rate, whose bins and magnitudes are the averaged polar spectrum of the padded input between E2 and C8 (`PolarBins`, `PolarSpectrum`); for 4097 to 8192 samples the 8192-point transform uses the bit-reversal sort corrected as in the `BitReverse_` Findings row |
| ChordDetectors.GetChordFromFft | libmusic/src/chord_detector.cpp:77-89 | a missing or non-polar transform is refused; otherwise the answer is the collection's best match for the profile built from the transform's magnitudes |
| ChordDetectors.GetChord | libmusic/src/chord_detector.cpp:91-101 | the refusals of the transform step come out unchanged (bad input size or rate, and a rate too low for C8); otherwise the result is the best match among the collection's templates for the profile `pcpOf` builds from the input's averaged polar spectrum between E2 and C8, with `GetFft`'s corrections |
| ChordDetectors.LessIsBefore | libmusic/include/lmtypes.h:152-160 | the chord order the counter map uses is exactly the lexicographic order on (root, quality) |
| ChordDetectors.Occurrences | libmusic/src/chord_detector.cpp:105-116 | a key is counted at most once per buffered chord |
| ChordDetectors.LowerBound | libmusic/src/chord_detector.cpp:109 | the map search position lies within the map |
| ChordDetectors.LowerBoundSplits | libmusic/src/chord_detector.cpp:109 | in a map with increasing keys, every entry before the search position precedes the chord and none from it on does |
| ChordDetectors.Bump | libmusic/src/chord_detector.cpp:109-115 | after counting a chord the map is not empty |
| ChordDetectors.Tally | libmusic/src/chord_detector.cpp:105-116 | counting a non-empty buffer leaves a non-empty map |
| ChordDetectors.Counts | libmusic/src/chord_detector.cpp:118 | the values compared by the maximum search are the map's counts, entry by entry |
| ChordDetectors.BumpHit | libmusic/src/chord_detector.cpp:111-112 | incrementing the entry of a chord already present keeps the map a faithful count |
| ChordDetectors.InsertKeepsOrder | libmusic/src/chord_detector.cpp:113-115 | inserting a new key at its search position keeps the keys strictly increasing |
| ChordDetectors.BumpMiss | libmusic/src/chord_detector.cpp:113-115 | inserting a new chord with count 1 keeps the map a faithful count |
| ChordDetectors.InsertShape | libmusic/src/chord_detector.cpp:113-115 | a miss inserts (c, 1) at the search position and shifts the later entries up by one |
| ChordDetectors.MissAbsent | libmusic/src/chord_detector.cpp:113-115 | when the search position does not hold c's key, no chord counted so far has that key |
| ChordDetectors.MissCounts | libmusic/src/chord_detector.cpp:113-115 | after an insertion every entry holds the number of counted chords with its key |
| ChordDetectors.MissCovers | libmusic/src/chord_detector.cpp:113-115 | after an insertion every counted chord, the new one included, has an entry |
| ChordDetectors.BumpCounts | libmusic/src/chord_detector.cpp:109-115 | one step of the loop, in either branch, keeps the map a faithful count: sorted keys, exact counts, every counted chord present |
| ChordDetectors.BumpFrom | libmusic/src/chord_detector.cpp:109-115 | every map entry's chord is one of the chords counted so far |
| ChordDetectors.TallyCounts | libmusic/src/chord_detector.cpp:105-116 | the counting loop yields a faithful count of the buffer's chords |
| ChordDetectors.TallyFrom | libmusic/src/chord_detector.cpp:105-116 | the counting loop stores only chords from the buffer |
| ChordDetectors.PluralityWinner | libmusic/src/chord_detector.cpp:103-121 | the vote returns a chord from the buffer; no chord occurs more often; among equally frequent chords it is the least in chord order |
| ChordDetectors.WinnerIsCounted | libmusic/src/chord_detector.cpp:118-120 | the winner is one of the buffered chords |
| ChordDetectors.WinnerIsMaximal | libmusic/src/chord_detector.cpp:118-120 | the winner's count is largest, and ties go to the least chord in map order |
| ChordDetectors.WinnerBeats | libmusic/src/chord_detector.cpp:118-120 | any buffered chord occurs at most as often as the winner, and at equal count it is not below the winner in chord order |
| ChordDetectors.TalliedEntry | libmusic/src/chord_detector.cpp:105-116 | every buffered chord has a map entry whose count is its number of occurrences |
| ChordDetectors.TalliedCount | libmusic/src/chord_detector.cpp:105-116 | every map entry counts the occurrences of its key |
| ChordDetectors.MaxBinBeats | libmusic/src/chord_detector.cpp:118-120 | no map entry has a larger count than the chosen one, and an entry of equal count lies at or after it |
| ChordDetectors.MaxBinBeatsSorted | libmusic/src/chord_detector.cpp:118-120 | in a map with increasing keys, the first entry of largest count has the least key among the entries of that count |
| ChordDetectors.Vote | libmusic/src/chord_detector.cpp:103-121 | the vote fails exactly when some buffered profile has no best match, and otherwise returns one of the best matches |
| ChordDetectors.Matches | libmusic/src/chord_detector.cpp:107-108 | when no match fails, there is one best match per buffered profile |
| ChordDetectors.MatchesPointwise | libmusic/src/chord_detector.cpp:108 | each matched chord is the best match of the profile at the same position |
| ChordDetectors.MatchesErrSticky | libmusic/src/chord_detector.cpp:107-108 | the first failing match is the answer for the whole buffer |
| ChordDetectors.GetChordFromPCPBuf | libmusic/src/chord_detector.cpp:103-121 | the map-based loop computes the plurality vote over the buffered profiles; an empty buffer is excluded because the source dereferences the end iterator |
| ChordDetectors.VoteOf | libmusic/src/chord_detector.cpp:105-120 | the counting loop over the profiles' entries gives the first error of a best match, else the first chord of largest count in the ordered map |
| ChordDetectors.MatchesExtend | libmusic/src/chord_detector.cpp:107-108 | matching one more profile appends its best match, or its error ends the run |
| ChordDetectors.TallyExtend | libmusic/src/chord_detector.cpp:109-115 | counting one more chord bumps its entry in the map |
| ChordDetectors.ProcessSegment | libmusic/src/chord_detector.cpp:123-147 | an empty or reversed range is refused and nothing changes; a silence segment carries the default chord and leaves the buffer; otherwise the segment carries the vote and the buffer is flushed; the segment is appended only without a listener |
| ChordDetectors.Damped | libmusic/src/chord_detector.cpp:283-289 | the damped score is never negative: a negative score becomes 0, and the no-chord score is scaled by 0.7 |
| ChordDetectors.RawScores | libmusic/src/chord_detector.cpp:280-294 | when no template fails, there is one raw score per template |
| ChordDetectors.RawScoresAt | libmusic/src/chord_detector.cpp:280-294 | each raw score is the exponential of its template's damped score |
| ChordDetectors.RawScoresErrSticky | libmusic/src/chord_detector.cpp:280-281 | a template that fails to score ends the row with its error |
| ChordDetectors.Divided | libmusic/src/chord_detector.cpp:297-299 | each entry is divided by the row sum, and the length is kept |
| ChordDetectors.Normalized | libmusic/src/chord_detector.cpp:296-302 | normalisation keeps the row length |
| ChordDetectors.NormalizedIsDistribution | libmusic/src/chord_detector.cpp:296-302 | a row with a positive sum becomes a distribution that sums to 1; any other row keeps its entries except the last, which becomes 1 |
| ChordDetectors.NormalizedSumsToOne | libmusic/src/chord_detector.cpp:296-299 | dividing by a positive sum leaves a row that sums to 1 |
| ChordDetectors.ScoreRow | libmusic/src/chord_detector.cpp:276-303 | a row has one entry per template |
| ChordDetectors.ScoreMatrix | libmusic/src/chord_detector.cpp:272-306 | the matrix has one row per window and one entry per template |
| ChordDetectors.ScoreRowsAreDistributions | libmusic/src/chord_detector.cpp:272-306 | with a positive exponential, every row of the score matrix is a probability distribution |
| ChordDetectors.ScoreMatrixErrSticky | libmusic/src/chord_detector.cpp:276-281 | a failed row ends the matrix with its error |
| ChordDetectors.GetRawScores | libmusic/src/chord_detector.cpp:278-294 | the template loop computes the raw scores and their running sum |
| ChordDetectors.GetScoreRow | libmusic/src/chord_detector.cpp:277-302 | one pass of the window loop computes the normalised row |
| ChordDetectors.GetScoreMatrix | libmusic/src/chord_detector.cpp:272-306 | the window loop computes the score matrix |
| ChordDetectors.InitialDistribution | libmusic/src/chord_detector.cpp:359-360 | the initial distribution has one entry per template |
| ChordDetectors.InitialDistributionIsCertain | libmusic/src/chord_detector.cpp:359-360 | the initial distribution sums to 1, and the only positive entry is the last template's (no chord) |
| ChordDetectors.TransitionRow | libmusic/src/chord_detector.cpp:368-377 | a transition row has one entry per template |
| ChordDetectors.Transitions | libmusic/src/chord_detector.cpp:362-378 | the transition matrix is square, one row and column per template; its cases are stated by `TransitionsAreStochastic` and, for a single template with its zero divisor, by `SingleTemplateTransitions` |
| ChordDetectors.SingleTemplateTransitions | libmusic/src/chord_detector.cpp:364-375 | for one template the divisor is 0: p = 0 gives [[1]], 0 < p < 1 or a negative p is refused (p is below +∞), and p ≥ 1 gives [[p]], because a comparison with NaN or −∞ is false |
| ChordDetectors.TransitionsAreStochastic | libmusic/src/chord_detector.cpp:362-378 | for 0 <= p < 1, the matrix is built exactly when p is 0 or p is at least the probability of moving elsewhere; every row then sums to 1, and its diagonal entry is its largest |
| ChordDetectors.TransitionRowSums | libmusic/src/chord_detector.cpp:368-377 | every row of the built matrix sums to 1 |
| ChordDetectors.UniformRowSums | libmusic/src/chord_detector.cpp:368-369 | without a self-transition probability a row is uniform and sums to 1 |
| ChordDetectors.SelfRowSums | libmusic/src/chord_detector.cpp:368-376 | p on the diagonal, with the rest shared equally, sums to 1 |
| ChordDetectors.ConfiguredTransitions | libmusic/src/chord_detector.cpp:362-378 | with the configured self-transition probability 0.1f, the matrix is built exactly when there are at least 10 templates |
| ChordDetectors.BuildTransitions | libmusic/src/chord_detector.cpp:362-378 | the loop builds exactly `Transitions`, or throws the self-transition error where it does, including the one-template row [p] for p ≥ 1 |
| ChordDetectors.CutsBelowMembers | libmusic/src/chord_detector.cpp:386-387 | the cuts below n are exactly the indices below n where the state changes, plus the last index |
| ChordDetectors.CutsBelowIncrease | libmusic/src/chord_detector.cpp:386 | the cuts increase strictly and stay below n |
| ChordDetectors.CutsBelowConstant | libmusic/src/chord_detector.cpp:386-396 | the path is constant on every closed segment and on the one still open |
| ChordDetectors.CutStep | libmusic/src/chord_detector.cpp:387-396 | a cut closes the open run as one more constant segment |
| ChordDetectors.RunStep | libmusic/src/chord_detector.cpp:387 | without a cut, the open run extends by one |
| ChordDetectors.CutsBelowRuns | libmusic/src/chord_detector.cpp:386-404 | the cuts below n are increasing, exact, and split the path into constant runs |
| ChordDetectors.CutsAreRuns | libmusic/src/chord_detector.cpp:386-404 | the cuts split the path into maximal runs: increasing; exactly the changes of state plus the last index; constant in between; every cut but the last is a change; the last is the final index; a path of fewer than two entries gives no cuts |
| ChordDetectors.SegmentsOf | libmusic/src/chord_detector.cpp:388-399 | one segment per cut |
| ChordDetectors.CutsOpenInside | libmusic/src/chord_detector.cpp:386-396 | every segment opens inside the path |
| ChordDetectors.SegmentsOfTile | libmusic/src/chord_detector.cpp:388-396 | the segments start at 0 or at the previous cut times the interval, and end at their cut times the interval, clamped to the last sample; none is silence, and each carries the chord of its run's template |
| ChordDetectors.SegmentsTile | libmusic/src/chord_detector.cpp:386-404 | the segments of a decoded path tile its samples along its maximal runs; a path of fewer than two windows gives no segment |
| ChordDetectors.SegmentsOfSnoc | libmusic/src/chord_detector.cpp:396-399 | closing the open segment appends exactly its segment |
| ChordDetectors.SegmentPath | libmusic/src/chord_detector.cpp:386-404 | without a listener, the segmentation loop produces the path's segments |
| ChordDetectors.Process | libmusic/src/chord_detector.cpp:357-404 | a score-matrix error and the self-transition error are passed on; otherwise success holds exactly for a non-empty chromagram, and the segments then come from a path the decoder proves optimal, with one state per window |
| BeatDetectors.RaisedIsDoubling | libmusic/src/beat_detector.cpp:69-74 | an interval at most 8192 that is doubled until it reaches 4096 ends in [4096, 8192], as the interval times a power of two |
| BeatDetectors.LoweredIsHalving | libmusic/src/beat_detector.cpp:69-74 | an interval of at least 4096 that is halved until it is within 8192 ends in [4096, 8192], as the interval divided by a power of two |
| BeatDetectors.NormalizedIntervalSpec | libmusic/src/beat_detector.cpp:67-75 | every positive interval settles in [4096, 8192]: one below the range is only doubled, one above is only halved, and one inside is unchanged |
| BeatDetectors.ZeroIntervalNeverSettles | libmusic/src/beat_detector.cpp:69-74 | an interval of 0 is outside the range, and a step leaves it at 0, so the loop does not end |
| BeatDetectors.IntervalStepKeepsTarget | libmusic/src/beat_detector.cpp:72-73 | one step outside the range keeps the interval positive and does not change where it settles |
| BeatDetectors.RaisedHzInRange | libmusic/src/beat_detector.cpp:79-81 | a frequency at most 5 Hz that is doubled until it reaches 1 Hz ends in [1, 5] Hz |
| BeatDetectors.RaisedHzIsDoubling | libmusic/src/beat_detector.cpp:79-81 | doubling up to 1 Hz multiplies the frequency by a power of two |
| BeatDetectors.LoweredHzIsHalving | libmusic/src/beat_detector.cpp:79-81 | a frequency of at least 1 Hz that is halved until it is within 5 Hz ends in [1, 5] Hz, as the frequency divided by a power of two |
| BeatDetectors.HzStep | libmusic/src/beat_detector.cpp:80 | one step outside the range keeps the frequency positive, does not change where it settles, and brings it strictly closer to the range |
| BeatDetectors.NormalizedHzSpec | libmusic/src/beat_detector.cpp:77-83 | every positive frequency settles in [1, 5] Hz, by doubling from below or halving from above, and is unchanged when already inside; the tempo 60·hz is in [60, 300] BPM |
| BeatDetectors.OffsetOf | libmusic/src/beat_detector.cpp:60-61 | the offset is below the interval: half the rise length when the rise spans at least two samples, otherwise the peak index, each modulo the interval |
| BeatDetectors.RiseStart | libmusic/src/beat_detector.cpp:54-58 | the start of the run of positive differences that ends before the peak: every difference from it up to the peak is positive, and the one before it is not |
| BeatDetectors.LeftLocalMin | libmusic/src/beat_detector.cpp:53-58 | the walk left from the peak while differences are positive, plus one, stops at the start of that rising run (`LeftOfPeak`); for a peak at index 0 it stops at 0 instead of reading before the start |
| BeatDetectors.LeftOfPeak | libmusic/src/beat_detector.cpp:53-58 | where the walk is meant to stop: at or before the peak, after a difference that is not positive (or at 0), with every difference from there to the peak positive |
| BeatDetectors.LeftWalkFirstRead | libmusic/src/beat_detector.cpp:53 | as written, the walk first reads the index before the peak, and 2³² − 1 for a peak at index 0 |
| BeatDetectors.NeverRisingDifferences | libmusic/src/envelope.cpp:79-90 | an envelope that never rises has first differences 0 first and never positive |
| BeatDetectors.NeverRisingPeakAtStart | libmusic/src/beat_detector.cpp:50-54 | for an envelope that never rises, the peak is at index 0 and the as-written walk first reads past the end of the differences |
| BeatDetectors.SilentEnvelopeWalkUnderflows | libmusic/src/beat_detector.cpp:50-54 | two silent samples put the peak at index 0, and the walk first reads index 2³² − 1 |
| BeatDetectors.BeatDetector.NormalizeInterval | libmusic/src/beat_detector.cpp:67-75 | the stored interval becomes its normalised value, within [4096, 8192]; offset and tempo are unchanged |
| BeatDetectors.BeatDetector.Hz2Bpm | libmusic/src/beat_detector.cpp:77-83 | the stored tempo becomes 60 times the normalised frequency, within [60, 300] BPM; offset and interval are unchanged |
| BeatDetectors.BeatDetector.constructor | libmusic/src/beat_detector.cpp:20-65 | the detector's interval is the normalised rate-over-frequency, its tempo 60 times the normalised frequency, and its offset is computed from the first largest envelope difference and the start of the rise before it, which for a peak at index 0 is the peak itself (corrected as in Findings); the offset stays below the interval |
| BeatDetectors.BeatDetector.GetOffset | libmusic/src/beat_detector.cpp:85-88 | returns the stored offset, which a valid detector keeps below the interval |
| BeatDetectors.BeatDetector.GetIdxInterval | libmusic/src/beat_detector.cpp:90-93 | returns the stored interval, which a valid detector keeps in [4096, 8192] |
| BeatDetectors.BeatDetector.GetBpm | libmusic/src/beat_detector.cpp:95-98 | returns the stored tempo, which a valid detector keeps in [60, 300] BPM |
| Envelopes.SquaredDoubled | libmusic/src/envelope.cpp:45-50 | squaring and doubling keeps the number of samples |
| Envelopes.SquaredDoubledNonNegative | libmusic/src/envelope.cpp:45-50 | every squared-and-doubled sample is a non-negative power |
| Envelopes.SquareAndDouble | libmusic/src/envelope.cpp:45-50 | the first `samples` entries of the buffer become 2x², in place; the rest of the buffer is unchanged |
| Envelopes.SquareRoot | libmusic/src/envelope.cpp:52-61 | each entry becomes the magnitude of its complex square root, in place |
| Envelopes.Differences | libmusic/src/envelope.cpp:79-90 | there is one difference per envelope entry |
| Envelopes.DifferencesTelescope | libmusic/src/envelope.cpp:79-90 | the differences are the discrete derivative: summing them up to i recovers entry i from entry 0 |
| Envelopes.RangeSumBounds | libmusic/src/envelope.cpp:72-74 | a sum of values between lo and hi lies between count·lo and count·hi |
| Envelopes.MeanBounds | libmusic/src/envelope.cpp:68-77 | the mean of an inclusive range lies between any lower and any upper bound of its entries |
| Envelopes.Mean | libmusic/src/envelope.cpp:68-77 | the mean of an inclusive range, times its length, is the range's sum |
| Envelopes.PowerFiltered | libmusic/src/envelope.cpp:24-31 | the constructor's first steps give the default moving average of the squared-and-doubled samples, with the default factor |
| Envelopes.SilentInWiden | libmusic/src/envelope.cpp:106-110 | a range that holds silence still holds it when widened |
| Envelopes.Envelope.constructor | libmusic/src/envelope.cpp:20-43 | the envelope is the samples squared and doubled, moving-averaged, low-passed and square-rooted; the factor is the moving average's; the stored maximum is the largest entry |
| Envelopes.Envelope.GetDownsampleFactor | libmusic/src/envelope.cpp:92-95 | returns the total downsampling factor, which a valid envelope keeps positive |
| Envelopes.Envelope.MeanOf | libmusic/src/envelope.cpp:68-77 | for a forward range the loop computes the mean of the inclusive range; a reversed range skips the loop and divides 0 by the count wrapped to 32 bits: no value (0/0) when the start is one past the end, and 0.0 otherwise |
| Envelopes.Envelope.Diff | libmusic/src/envelope.cpp:79-90 | the loop computes the first differences of the envelope |
| Envelopes.Envelope.IsSilence | libmusic/src/envelope.cpp:97-113 | sample indices map to envelope indices by integer division by the factor; a reversed range or one past the end is refused; otherwise the answer is whether some entry in the range is more than 34 dB below the maximum |
| MaFilters.RangeSumConstant | libmusic/src/ma_filter.cpp:46-48 | a sum over equal values is the count times the value |
| MaFilters.ChunkStarts | libmusic/src/ma_filter.cpp:44 | chunk k exists exactly when it starts before the end of the samples |
| MaFilters.Filtered | libmusic/src/ma_filter.cpp:38-53 | the filter gives one output per started chunk, ⌈samples / df⌉ in all |
| MaFilters.ChunkOutputConstant | libmusic/src/ma_filter.cpp:45-49 | a chunk of equal values c gives c·len / (len + 1), not c, because the sum is divided by the chunk length plus one |
| MaFilters.FilteredConstantFull | libmusic/src/ma_filter.cpp:38-53 | for a constant input c, each full chunk gives c·df / (df + 1): the filter scales as well as averages |
| MaFilters.MAFilter.Default | libmusic/src/ma_filter.cpp:31 | the default filter has the configured factor 15 |
| MaFilters.MAFilter.constructor | libmusic/src/ma_filter.cpp:33-36 | the filter stores the given factor |
| MaFilters.MAFilter.GetDownsampleFactor | libmusic/src/ma_filter.cpp:55-58 | returns the configured factor |
| MaFilters.MAFilter.ChunkSum | libmusic/src/ma_filter.cpp:45-48 | the inner loop gives the chunk's sum and its length: df, or what is left of the samples |
| MaFilters.MAFilter.Process | libmusic/src/ma_filter.cpp:38-53 | the outer loop produces the filter's output, one value per chunk, without changing the samples |
| MaFilters.LastStartWraps | libmusic/src/ma_filter.cpp:42-44 | when the chunks reach 2^32, the 32-bit `i += __mDF` after the last chunk start gives a value below `samples`, so the loop does not end there |
| MaFilters.EvenChunksWrapToZero | libmusic/src/ma_filter.cpp:42-44 | with df = 2 and 2^32 − 1 samples the index wraps from the last chunk start back to 0 |
| LmFft.RevBound | libmusic/src/fft.cpp:97-129 | a b-bit reversal is below 2^b |
| LmFft.RevZero | libmusic/src/fft.cpp:123 | the reversal of 0 is 0 in any width, which is why the loop may stop once n is 0 |
| LmFft.RevSplit | libmusic/src/fft.cpp:123-127 | reversing a + c bits puts the reversed low a bits above the reversal of the next c bits |
| LmFft.LowHighSmall | libmusic/src/fft.cpp:124-125 | a number below 2^b is its own low b bits, with nothing above them |
| LmFft.LowHighJoin | libmusic/src/fft.cpp:124-125 | a number made of x above a b-bit y splits back into y (low) and x (high) |
| LmFft.RevWiden | libmusic/src/fft.cpp:123-127 | reversing a b-bit number in b + c bits shifts its b-bit reversal up by c |
| LmFft.RevInvolution | libmusic/src/fft.cpp:140-154 | reversal is an involution on b-bit numbers |
| LmFft.Rev4ClosedForm | libmusic/src/fft.cpp:97-101 | the 4-bit reversal has the closed form the nibble table encodes |
| LmFft.Rev3ClosedForm | libmusic/src/fft.cpp:103-105 | the 3-bit reversal has the closed form the 3-bit table encodes |
| LmFft.Lookup4Table | libmusic/src/fft.cpp:97-101 | the nibble table lists the closed-form 4-bit reversals |
| LmFft.Lookup3Table | libmusic/src/fft.cpp:103-105 | the 3-bit table lists the closed-form 3-bit reversals |
| LmFft.Lookup4IsReversal | libmusic/src/fft.cpp:97-101 | entry v of the nibble table is the 4-bit reversal of v |
| LmFft.Lookup3IsReversal | libmusic/src/fft.cpp:103-105 | entry v of the 3-bit table is the 3-bit reversal of v |
| LmFft.Lookup2IsReversal | libmusic/src/fft.cpp:107-109 | entry v of the 2-bit table is the 2-bit reversal of v |
| LmFft.NibbleSplit | libmusic/src/fft.cpp:124-125 | `n & 0b1111` and `n >>= 4` take the low nibble and the rest |
| LmFft.NibbleStep | libmusic/src/fft.cpp:123-127 | one iteration contributes the table reversal of the low nibble, shifted up, plus the reversal of the rest in the remaining bits |
| LmFft.TableReverse | libmusic/src/fft.cpp:111-118 | the table cases return the reversal: 1 bit is itself, 2 to 4 bits are looked up |
| LmFft.RevTestValuesShort | tests/src/fft_test.cpp:11-21 | the 4- and 3-bit reversals the library's bit-reversal test expects hold |
| LmFft.RevTestValuesWide | tests/src/fft_test.cpp:23-27 | the 32-bit reversals of 0xa and 0x83 the test expects hold |
| LmFft.RevTestValueE42 | tests/src/fft_test.cpp:29-30 | the 32-bit reversal of 0xe42 the test expects holds |
| LmFft.RevTestValueCb03 | tests/src/fft_test.cpp:32-33 | the low half of the test's 0xcb035000 reverses, in 16 bits, to the 0xc0d3 that ends its expected value |
| LmFft.RevTestValueCb035000 | tests/src/fft_test.cpp:32-33 | the 32-bit reversal of 0xcb035000 the test expects holds |
| LmFft.BitReverse | libmusic/src/fft.cpp:95-130 | as written, the result is defined exactly when the width is at most 4 or a whole number of n's nibbles fits in it, and it is then the bit reversal |
| LmFft.BitReverseFixed | libmusic/src/fft.cpp:95-130 | with the top partial nibble shifted right, the result is the bitCnt-bit reversal of every n below 2^bitCnt |
| LmFft.PartialNibble | libmusic/src/fft.cpp:124 | a top nibble of fewer than 4 bits reversed by the table and shifted right by the missing bits is its own reversal |
| LmFft.BitReverseNegativeShift | libmusic/src/fft.cpp:144-149 | sorting 8192 points calls the reversal of 4096 in 13 bits, whose fourth nibble needs a negative shift |
| LmFft.Log2OfPow2 | libmusic/src/fft.cpp:144 | log2 of 2^k is k |
| LmFft.Log2Bound | libmusic/src/fft.cpp:144 | a power-of-two size up to 2^31 needs at most 31 index bits, so the `uint8_t` width holds it |
| LmFft.BitReversed | libmusic/src/fft.cpp:140-154 | the bit-reversed order keeps the length |
| LmFft.BitReversedTwice | libmusic/src/fft.cpp:140-154 | sorting into bit-reversed order twice restores the original order |
| LmFft.BitReversedTestSixteen | tests/src/fft_test.cpp:38-66 | 0 .. 15 in 4-bit reversed order is the nibble table, as the library's sort test expects |
| LmFft.BitReversedTestUpperHalf | tests/src/fft_test.cpp:68-83 | the test's re-sort of the upper half in 3 bits comes back in ascending odd order |
| LmFft.Exch | libmusic/src/fft.cpp:132-138 | the two slots are exchanged and no other slot changes |
| LmFft.VisitedNone | libmusic/src/fft.cpp:148 | before the first visit the range is unchanged |
| LmFft.VisitStep | libmusic/src/fft.cpp:148-153 | visiting slot i exchanges it with its reversal when the reversal is larger, and otherwise changes nothing |
| LmFft.VisitSlot | libmusic/src/fft.cpp:148-153 | the effect of one visit on each slot |
| LmFft.VisitedAll | libmusic/src/fft.cpp:148-153 | after visiting every slot, the range is in bit-reversed order |
| LmFft.Swapped | libmusic/src/fft.cpp:132-138 | an exchange puts each slot's value in the other and keeps every other slot |
| LmFft.SwapInRange | libmusic/src/fft.cpp:151 | exchanging two slots of a range leaves everything outside the range unchanged |
| LmFft.ExchInRange | libmusic/src/fft.cpp:151 | an exchange at start + i and start + j is an exchange of i and j inside the range; nothing outside changes |
| LmFft.Visit | libmusic/src/fft.cpp:149-152 | one iteration of the sort advances the visited range by one slot |
| LmFft.SortBitReversal | libmusic/src/fft.cpp:140-154 | corrected as in the `BitReverse_` Findings row (the sort calls `BitReverseFixed`): the range is left in bit-reversed order and nothing outside it changes |
| LmFft.SwappedPermutes | libmusic/src/fft.cpp:132-138 | an exchange keeps the elements |
| LmFft.VisitedPermutes | libmusic/src/fft.cpp:140-154 | after any number of visits the range holds the same elements |
| LmFft.BitReversedPermutes | libmusic/src/fft.cpp:140-154 | the bit-reversed order is a permutation of the range |
| LmFft.Magnitude | libmusic/src/fft.cpp:222 | with `sqrt` the square root, a bin's magnitude is non-negative and its square is im² + re² |
| LmFft.PowerOf2Blocks | libmusic/src/fft.cpp:192-195 | a power of two is a whole number of blocks of any smaller power of two, so the block loop never runs past the end |
| LmFft.Group | libmusic/src/fft.cpp:196-205 | a butterfly group keeps its length |
| LmFft.Stage | libmusic/src/fft.cpp:195-206 | a stage keeps the length |
| LmFft.Stages | libmusic/src/fft.cpp:192-207 | the stages keep the length |
| LmFft.Transform | libmusic/src/fft.cpp:182-208 | the transform keeps the length |
| LmFft.StageAppend | libmusic/src/fft.cpp:195 | a stage works block by block: over whole blocks and then one more, it is the stage followed by that block's group |
| LmFft.HalfDone | libmusic/src/fft.cpp:196-205 | a partly processed block keeps its length |
| LmFft.Progress | libmusic/src/fft.cpp:195-205 | a partly processed stage keeps the length |
| LmFft.StageUpTo | libmusic/src/fft.cpp:195-206 | a stage finished up to a block keeps the length |
| LmFft.ProgressStart | libmusic/src/fft.cpp:196 | a block with no butterfly done is the stage finished up to it |
| LmFft.ProgressEnd | libmusic/src/fft.cpp:195-205 | a block with every butterfly done is the stage finished up to the next block |
| LmFft.HalfDoneAll | libmusic/src/fft.cpp:196-205 | a block with all butterflies done is its group |
| LmFft.HalfDoneStep | libmusic/src/fft.cpp:197-204 | one butterfly updates exactly its two slots |
| LmFft.ProgressStep | libmusic/src/fft.cpp:197-204 | one butterfly moves the stage's progress on by one |
| LmFft.ButterflyAt | libmusic/src/fft.cpp:199-204 | a butterfly keeps the length |
| LmFft.Butterfly | libmusic/src/fft.cpp:197-204 | the innermost loop body performs the next butterfly |
| LmFft.ButterflyHalves | libmusic/src/fft.cpp:196-205 | the innermost loop finishes one block |
| LmFft.ButterflyBlock | libmusic/src/fft.cpp:195-206 | one pass of the block loop finishes the block and stays within the input |
| LmFft.ButterflyStage | libmusic/src/fft.cpp:193-206 | one pass of the stage loop applies that stage to the input |
| LmFft.ForwardStage | libmusic/src/fft.cpp:192-207 | the stage loop applies the next stage |
| LmFft.StagesNext | libmusic/src/fft.cpp:192 | the stages up to s + 1 are stage s + 1 applied to the stages up to s |
| LmFft.Forward | libmusic/src/fft.cpp:182-208 | an empty input is refused with "Empty input"; any other power-of-two input becomes its radix-2 transform, in place, with the bit-reversal sort corrected as in the `BitReverse_` Findings row |
| LmFft.TransformOne | libmusic/src/fft.cpp:182-208 | the transform of one point is that point |
| LmFft.TransformTwo | libmusic/src/fft.cpp:182-208 | the transform of two points is their sum and their difference |
| LmFft.MapRange | libmusic/src/fft.cpp:290-299 | slots inside the range get the function applied, and others are kept |
| LmFft.MapStep | libmusic/src/fft.cpp:290-292 | one iteration of an element-wise loop maps the next slot |
| LmFft.MapInPlace | libmusic/src/fft.cpp:290-299 | an element-wise loop maps its range in place and keeps every other slot |
| LmFft.InverseFrom | libmusic/src/fft.cpp:281-300 | the inverse keeps the length |
| LmFft.InverseInPlace | libmusic/src/fft.cpp:287-299 | an empty input is refused; otherwise the slots are conjugated, transformed, and conjugated and divided by N, in place; the transform's bit-reversal sort is corrected as in the `BitReverse_` Findings row |
| LmFft.InverseRoundTripTwo | libmusic/src/fft.cpp:281-300 | on two points the inverse undoes the forward transform |
| LmFft.PolarOf | libmusic/src/fft.cpp:219-238 | a polar bin is the magnitude with the phase atan(im / re); a zero real part is replaced by 1e-20 first |
| LmFftObject.TransformSizeIsLeast | libmusic/src/fft.cpp:28 | the transform size is the least power of two that holds the samples and is at least the 4096-point window |
| LmFftObject.TransformSize | libmusic/src/fft.cpp:28 | the size holds the samples and is at least the 4096-point window |
| LmFftObject.WindowSizeIsLeast | libmusic/src/fft.cpp:28 | the 4096-point window is a power of two |
| LmFftObject.LongInputSizeIsLeast | libmusic/src/fft.cpp:28 | for inputs longer than the window, the next power of two is the least admissible size |
| LmFftObject.BinPosition | libmusic/src/fft.cpp:309 | a non-negative frequency has a non-negative position on the bin scale |
| LmFftObject.Round | libmusic/src/fft.cpp:31-34 | `floor` gives the integer at or just below x, and `ceil` the one at or just above |
| LmFftObject.FreqToIdx | libmusic/src/fft.cpp:307-310 | the bin of a frequency is its bin position, rounded down or up as requested |
| LmFftObject.IdxToFreq | libmusic/src/fft.cpp:312-315 | the frequency of a bin is non-negative |
| LmFftObject.IdxToFreqRoundTrip | libmusic/src/fft.cpp:307-315 | the frequency of a bin maps back to that bin, with either rounding |
| LmFftObject.LowBinInRange | libmusic/src/fft.cpp:23-34 | for accepted cut-offs, the low cut-off bin is at most N/2 |
| LmFftObject.LowCut | libmusic/src/fft.cpp:90-95 | bins below the cut-off are zero and the others are unchanged |
| LmFftObject.AttLowFreqs | libmusic/src/fft.cpp:90-95 | the loop zeroes the bins below the cut-off, in place, and keeps the rest |
| LmFftObject.Magnitudes | libmusic/src/fft.cpp:219-228 | bins lo .. hi − 1 of the buffer hold the magnitudes of the spectrum's bins, and the other bins keep their values |
| LmFftObject.MagnitudeStep | libmusic/src/fft.cpp:219-228 | one pass of the loop writes the next magnitude |
| LmFftObject.ToPolarMagnitudes | libmusic/src/fft.cpp:210-248 | an empty spectrum is refused with the buffer untouched; otherwise min(requested, N/2) is returned and the buffer holds the magnitudes from the start index up to it |
| LmFftObject.ToPolarInPlace | libmusic/src/fft.cpp:210-253 | an empty spectrum is refused; otherwise min(requested, N/2) is returned, the bins from the start index up to it are in polar notation, and every other bin is unchanged |
| LmFftObject.Averaged | libmusic/src/fft.cpp:268-279 | averaging keeps the buffer length |
| LmFftObject.AveragedOne | libmusic/src/fft.cpp:269-271 | a window of one leaves the buffer unchanged |
| LmFftObject.AveragedConstant | libmusic/src/fft.cpp:273-278 | a window of equal values averages to that value |
| LmFftObject.WindowSumConstant | libmusic/src/fft.cpp:274-276 | a window sum of equal values is the count times the value |
| LmFftObject.AvgAdd | libmusic/src/fft.cpp:275 | one addition of the inner loop adds the next neighbour to the running sum |
| LmFftObject.AvgBin | libmusic/src/fft.cpp:274-277 | one pass of the outer loop turns the next bin into its window mean |
| LmFftObject.Avg | libmusic/src/fft.cpp:268-279 | in place, bin i below len becomes the mean of the original bins i .. i + window − 1 |
| LmFftObject.Padded | libmusic/src/lmhelpers.cpp:37-53 | the padded input has exactly the transform size |
| LmFftObject.AvgOverreadAsWritten | libmusic/src/fft.cpp:46-52 | whenever the whole buffer is converted, the average as written reads window − 1 bins past the buffer's end |
| LmFftObject.AvgOverreadExample | libmusic/src/fft.cpp:46-52 | the chord detector's call (4096 samples at 44100 Hz, 82.4 to 4186 Hz) allocates 391 bins and averages all 391, so it reads bin 391 |
| LmFftObject.PolarSpectrum | libmusic/src/fft.cpp:46-52 | the kept magnitudes fill the allocated buffer: the converted magnitudes in a zeroed buffer, averaged over `PolarBins` bins, so every bin read lies inside the buffer (corrected as in the `Avg_` Findings row where the source would read past it) |
| LmFftObject.PolarSpectrumBins | libmusic/src/fft.cpp:46-52 | each kept magnitude is the mean of two neighbouring magnitudes, where a bin below the low cut-off or past the converted bins counts as zero |
| LmFftObject.ConvertedBins | libmusic/src/fft.cpp:217 | `ToPolar_` converts min(buffer length, N/2) bins, no more than either |
| LmFftObject.PolarBins | libmusic/src/fft.cpp:46-52 | the averaged bins with their window − 1 following bins fit in the buffer |
| LmFftObject.PolarBinsAgreeInsideZeroed | libmusic/src/fft.cpp:46-52 | the model averages as many bins as the source exactly when every bin `Avg_` reads lies among the `fd_len_` entries the memset zeroed; otherwise (an entry the memset left alone, or one past the buffer) it averages window − 1 fewer |
| LmFftObject.NyquistEdgeExample | libmusic/src/fft.cpp:31-52 | 4096 points at 44100 Hz up to 22050 Hz: `fd_len_` is 2049, 2048 bins are converted and all 2048 are averaged, as in the source |
| LmFftObject.Spectrum | libmusic/src/fft.cpp:33-36 | the padded samples are transformed in a fresh array, with the bit-reversal sort corrected as in the `BitReverse_` Findings row (it differs from the source for sizes 8192, 16384 and 32768 and above) |
| LmFftObject.PolarBuffer | libmusic/src/fft.cpp:46-52 | the polar branch computes `PolarSpectrum` and `PolarBins`: all converted bins are averaged when every read lies among the zeroed `fd_len_` entries, window − 1 fewer otherwise (corrected as in the `Avg_` Findings row) |
| LmFftObject.Fft.constructor | libmusic/src/fft.cpp:20-63 | the object has the least admissible size and the given rate and notation; in rectangular notation it keeps the transform with the low bins zeroed and the bins up to the high cut-off; in polar notation it keeps the averaged magnitudes `PolarSpectrum` (through the harmonic product spectrum when requested) and `fdLen` is the averaged bin count `PolarBins`: `ToPolar_`'s count when every bin `Avg_` reads lies among the `fd_len_` entries the memset zeroed, window − 1 fewer otherwise (corrected as in the `Avg_` Findings row); the transform's bit-reversal sort is corrected as in the `BitReverse_` Findings row |
| LmFftObject.Fft.Inverse | libmusic/src/fft.cpp:281-300 | in polar notation the call is refused and the input is untouched; otherwise an empty input is refused, and any other input becomes its inverse transform, in place, with the bit-reversal sort corrected as in the `BitReverse_` Findings row |
| LmFftObject.Fft.InverseSpectrum | libmusic/src/fft.cpp:302-305 | the object's own spectrum is inverted in place in rectangular notation, with the bit-reversal sort corrected as in the `BitReverse_` Findings row (it differs from the source for object sizes of 8192 and up that are not 2^16); in polar notation the call is refused and nothing changes |
| LmFftObject.New | libmusic/src/fft.cpp:20-70 | the constructor refuses exactly a missing or empty input, a low cut-off not below the high one, or a high cut-off above half the integer sample rate; otherwise the object is valid, with the rate, notation and size required, and in polar notation the averaged magnitudes and bin count of the constructor, with its two corrections (the `Avg_` and `BitReverse_` Findings rows) |
| FftPoints.LessIsStrictWeakOrder | libmusic/include/fft_point.h:21-24 | comparing magnitudes only is a strict weak ordering: irreflexive and transitive, and two points are equivalent exactly when their magnitudes are equal, whatever their bins |
| FftPoints.Less | libmusic/include/fft_point.h:21-24 | a point is never below itself, nor below a point of equal magnitude, whatever its bin |
| RootFft.InverseAsWritten | fft.cpp:167-186 | as written, an empty input is refused; otherwise slots 1 .. N−1 are conjugated, the array is transformed, and slots 1 .. N−1 are conjugated and divided by N, so slot 0 is neither conjugated nor scaled; the transform inside uses the bit-reversal sort corrected as in the `BitReverse_` Findings row, where `__bitReverse` (fft.cpp:15-48) has the same negative shift |
| RootFft.InverseAsWrittenCounterexample | fft.cpp:167-186 | the two-point impulse [1, 0] transforms to [1, 1], which the inverse as written turns into [2, 0]; the loops started at 0 give [1, 0] back |
| RootFft.ToPolar | fft.cpp:138-160 | an empty input is refused; otherwise the first N/2 bins become (magnitude, phase), and the rest are left |
| PriorityQueues.MaxIndex | libmusic/src/lmpriority_queue.cpp:48-51 | the index of the first point of largest magnitude: no point is larger, and every earlier point is strictly smaller |
| PriorityQueues.RemoveAt | libmusic/src/lmpriority_queue.cpp:57 | removing an entry takes exactly one occurrence of it out of the bag |
| PriorityQueues.RemoveMaxNonIncreasing | libmusic/src/lmpriority_queue.cpp:53-60 | taking the maximum out twice gives non-increasing magnitudes |
| PriorityQueues.PriorityQueue.constructor | libmusic/src/lmpriority_queue.cpp:33-36 | a new queue is empty |
| PriorityQueues.PriorityQueue.Insert | libmusic/src/lmpriority_queue.cpp:43-46 | the queue gains exactly the inserted point |
| PriorityQueues.PriorityQueue.FindMax | libmusic/src/lmpriority_queue.cpp:48-51 | the scan finds the first point of largest magnitude |
| PriorityQueues.PriorityQueue.GetMax | libmusic/src/lmpriority_queue.cpp:48-51 | the result is in the queue and no point in the queue is larger; the queue is unchanged |
| PriorityQueues.PriorityQueue.DelMax | libmusic/src/lmpriority_queue.cpp:53-60 | the result is a largest point of the old queue, and exactly one occurrence of it is removed |
| PriorityQueues.PriorityQueue.IsEmpty | libmusic/src/lmpriority_queue.cpp:62-65 | true exactly when the queue holds no point |
| PriorityQueues.PriorityQueue.Size | libmusic/src/lmpriority_queue.cpp:67-70 | the number of points in the queue |
| WindowFunctions.HammingWindow | libmusic/src/window_functions.cpp:39-43 | the window has one coefficient per sample |
| WindowFunctions.HammingWindowShape | libmusic/src/window_functions.cpp:39-43 | the entries below the offset are 0, and those from the offset on do not depend on it |
| WindowFunctions.GetHamming | libmusic/src/window_functions.cpp:33-46 | an offset not below the length is refused with its message; otherwise the result is zeros below the offset and Hamming coefficients 0.54 − 0.46·cos(2πi/(len − 1)) from it on |
| WindowFunctions.Windowed | libmusic/src/window_functions.cpp:52-54 | weighting keeps the number of samples |
| WindowFunctions.BlackmanWindow | libmusic/src/window_functions.cpp:59-62 | the Blackman window has one coefficient per sample |
| WindowFunctions.HannWindow | libmusic/src/window_functions.cpp:67-69 | the Hann window has one coefficient per sample |
| WindowFunctions.MultiplyInPlace | libmusic/src/window_functions.cpp:52-54 | each sample is multiplied by its coefficient, in place |
| WindowFunctions.ApplyHamming | libmusic/src/window_functions.cpp:48-55 | an empty input fails in `getHamming`; in every case the caller's samples are unchanged, because they are passed by value |
| WindowFunctions.ApplyBlackman | libmusic/src/window_functions.cpp:57-63 | the caller's samples are unchanged, because the Blackman window is applied to a copy |
| WindowFunctions.ApplyHann | libmusic/src/window_functions.cpp:65-70 | the caller's samples are unchanged, because the Hann window is applied to a copy |
| WindowFunctions.ApplyDefault | libmusic/src/window_functions.cpp:72-84 | the configured rectangular window leaves the samples unchanged |
| WindowFunctions.ApplyHammingInPlace | libmusic/src/window_functions.cpp:48-55 | corrected: an empty input still fails and changes nothing; otherwise the caller's samples are weighted by the Hamming window |
| WindowFunctions.HammingChangesSamples | libmusic/src/window_functions.cpp:48-55 | a Hamming window does change samples: three unit samples have 0.08 as the first weighted value |
| WindowFunctions.ApplyBlackmanInPlace | libmusic/src/window_functions.cpp:57-63 | corrected: the caller's samples are weighted by the Blackman window |
| WindowFunctions.ApplyHannInPlace | libmusic/src/window_functions.cpp:65-70 | corrected: the caller's samples are weighted by the Hann window |
| WindowFunctions.BlackmanHannChangeSamples | libmusic/src/window_functions.cpp:57-70 | the Blackman and Hann windows do change samples: both turn the first of three unit samples into 0 |
| WindowFunctions.WindowName | libmusic/src/window_functions.cpp:86-113 | a code outside 1..4 is refused with "Invalid window function"; every code inside has a name |
| WindowFunctions.WindowNameRoundTrip | libmusic/src/window_functions.cpp:94-110 | each valid code has its own name, and the name gives the code back |
| WindowFunctions.WindowCode | libmusic/src/window_functions.cpp:86-110 | a name is recognised only as the name `toString` gives a valid code |
| Tfts.AbsDevs | libmusic/src/tft.cpp:63-65 | there is one deviation per column entry |
| Tfts.Threshold | libmusic/src/tft.cpp:61-71 | an empty column is refused with the median's error, and only an empty one |
| Tfts.Scaled | libmusic/src/tft.cpp:69-71 | the threshold from a non-negative deviation and factor is non-negative, and a zero factor gives 0 |
| Tfts.MadNonNegative | libmusic/src/tft.cpp:63-67 | the median absolute deviation is never negative |
| Tfts.ThresholdNonNegative | libmusic/src/tft.cpp:61-71 | for a non-negative factor the threshold is never negative |
| Tfts.MedianNonNegative | libmusic/src/tft.cpp:67 | the median of non-negative values is non-negative |
| Tfts.Denoised | libmusic/src/tft.cpp:73-77 | denoising keeps the column length |
| Tfts.DenoisedOnlyZeroes | libmusic/src/tft.cpp:73-77 | exactly the entries of magnitude below the threshold become 0; the others are kept; a second pass with the same threshold changes nothing |
| Tfts.DenoiseColumn | libmusic/src/tft.cpp:59-77 | an empty column fails and is left; otherwise the column is denoised by its own threshold; no other column changes |
| Tfts.DenoiseBlock | libmusic/src/tft.cpp:56-79 | the block fails exactly when some column is empty; otherwise every column is denoised by its own threshold; on failure the columns before the first empty one are denoised and the rest untouched |
| Tfts.DenoiseNext | libmusic/src/tft.cpp:56-79 | one pass of the column loop: column k is denoised and the later ones untouched, or the run stops at an empty column k |
| Tfts.TFT.constructor | libmusic/src/tft.cpp:33-44 | the parameters are kept as given, the spectrogram is empty, and the interval is one window |
| Tfts.TFT.GetSpectrogram | libmusic/src/tft.cpp:46-49 | returns the columns computed so far |
| Tfts.TFT.SpectrogramInterval | libmusic/src/tft.cpp:51-54 | returns the interval between columns |
| CqtWrappers.RoundedIntervalNear | libmusic/src/cqt_wrapper.cpp:54-55 | the interval is within half a column hop of the window length, and a tie rounds up |
| CqtWrappers.RoundedInterval | libmusic/src/cqt_wrapper.cpp:54-55 | the interval is a whole number of column hops |
| CqtWrappers.RoundedIntervalNearest | libmusic/src/cqt_wrapper.cpp:54-55 | no other multiple of the column hop is as close to the window length |
| CqtWrappers.RowSumSplit | libmusic/src/cqt_wrapper.cpp:120-123 | row sums over two adjacent column ranges add up |
| CqtWrappers.RowsFitSameShape | libmusic/src/cqt_wrapper.cpp:115-128 | what the aggregation can read depends only on the column heights |
| CqtWrappers.ChunkRowsExist | libmusic/src/cqt_wrapper.cpp:119-123 | a row of a chunk's first column exists in every column of the chunk |
| CqtWrappers.AggregatedColumn | libmusic/src/cqt_wrapper.cpp:116-127 | an aggregated column is as tall as the first column of its chunk |
| CqtWrappers.Aggregated | libmusic/src/cqt_wrapper.cpp:115-128 | there is one aggregated column per started chunk of cpw columns |
| CqtWrappers.AggregatedKeepsRowTotal | libmusic/src/cqt_wrapper.cpp:115-128 | aggregation only regroups: for a row every column has, its total over the aggregated block equals its total over the input |
| CqtWrappers.AggregatedPrefixTotal | libmusic/src/cqt_wrapper.cpp:115-128 | the first k aggregated columns hold the row's total over the first min(k·cpw, n) input columns |
| CqtWrappers.ConvertedShape | libmusic/src/cqt_wrapper.cpp:102-133 | an empty block is refused; a window of at most one column keeps the block; otherwise there is one column per chunk, each as tall as the chunk's first column, and every entry is 0 or the chunk's row sum |
| CqtWrappers.DenoisedBlockShape | libmusic/src/cqt_wrapper.cpp:130 | denoising keeps the block's shape, and every entry is 0 or its old value |
| CqtWrappers.DenoiseLocal | libmusic/src/cqt_wrapper.cpp:130 | denoising the local aggregated block gives the denoised block or the empty-column error |
| CqtWrappers.ColumnsReversed | libmusic/src/cqt_wrapper.cpp:95-97 | reversing the columns keeps their number |
| CqtWrappers.Reversed | libmusic/src/cqt_wrapper.cpp:96 | a reversed column keeps its height |
| CqtWrappers.ColumnsReversedInvolutive | libmusic/src/cqt_wrapper.cpp:95-97 | reversing twice gives the block back, and heights are kept |
| CqtWrappers.ReverseColumns | libmusic/src/cqt_wrapper.cpp:95-97 | the loop reverses every column in place |
| CqtWrappers.RowValue | libmusic/src/cqt_wrapper.cpp:120-123 | the inner loop sums the row over the chunk's columns |
| CqtWrappers.ChunkColumn | libmusic/src/cqt_wrapper.cpp:116-127 | the middle loop builds the chunk's aggregated column |
| CqtWrappers.Aggregate | libmusic/src/cqt_wrapper.cpp:115-128 | the outer loop builds the aggregated block |
| CqtWrappers.CQTWrapper.constructor | libmusic/src/cqt_wrapper.cpp:32-57 | the base transform gets the library's frequency range and the other parameters as given, no columns, and an interval of the window length rounded to a multiple of the column hop |
| CqtWrappers.CQTWrapper.ConvertRealBlock | libmusic/src/cqt_wrapper.cpp:102-133 | the method computes the converted block, or the empty-block or empty-column error |
| CqtWrappers.CQTWrapper.Process | libmusic/src/cqt_wrapper.cpp:89-100 | the latency columns are dropped, every column is reversed and the block is converted into the spectrogram; a failure leaves the spectrogram as it was; the parameters are unchanged |
| ChordSegmentScores.EmptyCoversNothing | client/src/lmcsr.cpp:30-33 | an empty segment covers no sample, and a non-empty one covers at least its start |
| ChordSegmentScores.IntersectionCovers | client/src/lmcsr.cpp:35-41 | the intersection covers exactly the samples both segments cover; it has the same range in either operand order; its indices still fit in 32 bits |
| ChordSegmentScores.Intersection | client/src/lmcsr.cpp:35-41 | the intersection starts at one of the two starts, no earlier than either, and ends at one of the two ends, no later than either; its chord and silence are the default's |
| ChordSegmentScores.IntersectionEmptyIffDisjoint | client/src/lmcsr.cpp:30-41 | the intersection of two non-empty segments is empty exactly when they are disjoint |
| ChordSegmentScores.IntersectionContained | client/src/lmcsr.cpp:35-41 | a non-empty intersection lies within both operands |
| ChordSegmentScores.OverlapsSound | client/src/lmcsr.cpp:61-71 | there is at most one kept overlap per reference segment; each is non-empty and lies within the processed segment and within a reference segment whose chord matches |
| ChordSegmentScores.OverlapsAppend | client/src/lmcsr.cpp:64-70 | the overlaps with a concatenation of references are the concatenation of the overlaps |
| ChordSegmentScores.DurationAsWrittenWraps | client/src/lmcsr.cpp:51 | the 32-bit length `end − start + 1` is correct except for the segment of all 2³² indices, where it wraps to 0 |
| ChordSegmentScores.DurationAsWritten | client/src/lmcsr.cpp:51 | the 32-bit length is below 2³² and is 0 exactly for the segment of all 2³² indices |
| ChordSegmentScores.DurationAsWrittenCounterexample | client/src/lmcsr.cpp:51 | the segment 0 .. 2³² − 1 has 2³² samples, but the source counts it as 0 |
| ChordSegmentScores.TotalDurationAppend | client/src/lmcsr.cpp:48-53 | the total length of a concatenation is the sum of the totals |
| ChordSegmentScores.OverlapsDurationBound | client/src/lmcsr.cpp:61-71 | each kept overlap is non-empty, and one processed segment adds at most (reference count) times its own length |
| ChordSegmentScores.CSRListener.constructor | client/src/lmcsr.cpp:45-47 | the listener holds a copy of the references and no matches |
| ChordSegmentScores.CSRListener.GetMatchDuration | client/src/lmcsr.cpp:48-53 | corrected: the loop sums the true lengths of the overlaps found |
| ChordSegmentScores.CSRListener.OnChordSegmentProcessed | client/src/lmcsr.cpp:61-71 | the non-empty overlaps of the segment with every matching reference are appended, in reference order; earlier matches and the references are unchanged |
| ChordSegmentScores.Mono | client/src/lmcsr.cpp:82-90 | the mono channel has one sample per frame |
| ChordSegmentScores.MonoOfOneOrTwoChannels | client/src/lmcsr.cpp:82-90 | with one channel the samples come back unchanged; with two, every other sample is kept |
| ChordSegmentScores.ToMono | client/src/lmcsr.cpp:82-90 | the iterator loop reads the first sample of every frame |
| DatasetChords.Repr | tools/DatasetExtraction/chord.py:17-18 | the rendering has the two times, the label and six characters of punctuation |
| DatasetChords.ReprReadsBack | tools/DatasetExtraction/chord.py:17-18 | the rendering is parenthesised, the start time can be read back after "(", and the label before ")" |
| DatasetChords.StrippedOnceSpec | tools/DatasetExtraction/chord.py:24-28 | only a leading 'N' is removed, and only one: the result is the list or its tail, and it is one shorter exactly when the first chord is 'N'; every chord after the first and every non-'N' chord is kept; a second leading 'N' stays |
| DatasetChords.ChordList.constructor | tools/DatasetExtraction/chord.py:22-23 | a list object holds the given chords |
| DatasetChords.ChordList.PopFront | tools/DatasetExtraction/chord.py:26 | `pop(0)` returns the first chord and leaves the rest |
| DatasetChords.Song.constructor | tools/DatasetExtraction/chord.py:21-28 | the song keeps the caller's own list object and removes its first chord when it is labelled 'N'; an empty list is left as it is and nothing is raised |

## Left out

- Floating-point arithmetic is exact real arithmetic here. IEEE rounding, and the conversions between `double`, `float` and the integer types, are not modelled, except where a constant is written as its single-precision value (`0.1f`, `1.4f`).
- `pow`, `log`, `log10`, `sqrt`, `cos`, `sin` and `atan` are function-valued parameters. Their values are never computed. This covers the FFT twiddles and magnitudes, window coefficients, the RMS scaling of templates, the Euclidean distances of profiles and templates, and the pitch-table entries. Where a contract needs `sqrt` to be the square root, it says so through `Helpers.IsSquareRoot`.
- `Helpers::stdRound` is a parameter wherever the source rounds a frequency.
- The cosine and sine twiddle factors of the FFT butterflies are the parameter `twiddle`; the butterfly stages themselves are modelled. The recursive `Forward_` and `Butterfly_` of libmusic/src/fft.cpp:156-180 are left out because the iterative path does not call them.
- The harmonic product spectrum pass `ToHPS_` (libmusic/src/fft.cpp:255-266) is the parameter `toHps`.
- The default `FFT()` constructor (libmusic/src/fft.cpp:72-79) is left out because it only zeroes fields.
- The constant-Q transform is computed by an outside library that is not part of this model. Its construction and failure (libmusic/src/cqt_wrapper.cpp:48-50), the sample loop that feeds it (73-90) and its latency are parameters or left out. `BinsPerSemitone`, `FreqToBin` and `BinToFreq` (135-153) are floating-point frequency maps and are left out.
- The Butterworth low-pass filter of the envelope is the parameter `lowPass`. The recursive and Chebyshev filters are not part of this model.
- The envelope's `operator<<` is left out because it is output only.
- The beat detector's spectrum of the envelope differences, their harmonic product spectrum and its strongest bin (libmusic/src/beat_detector.cpp:25-51) are the parameter `beatHz`.
- `BeatDetectors.BeatDetector.constructor` requires `beatHz > 0` and a positive raw interval. For a strongest bin at index 0, `beatHz` is 0: `sampleRate / beatHz` is infinite, its conversion to `uint32_t` is undefined (libmusic/src/beat_detector.cpp:44), and the folding loops of `normalizeInterval` and `hz2BPM` never end (`ZeroIntervalNeverSettles`). The model does not describe that run.
- `PitchCalculator::getPitch`, `octavesDistance`, `semitonesDistance` and `getFreqByInterval` are left out because they are logarithm searches over frequencies.
- The `PitchClsProfile` constructors that build a profile from an FFT or from a spectrum are left out. `FromValues` stands for them, and the detector takes the profile as the parameter `pcpOf`.
- `toCSV` and every `operator<<` printing notes, qualities, chords and profiles are left out because they are output only.
- `Chord::match`, `Chord(string)` and the printing of note and quality names are not part of this model. Chord matching is the parameter `matches`, and the label printers take the name of a note or quality as given.
- `PitchClsProfiles.PitchClsProfile.DivAssign`: dividing by a `float` converted to `double` is exact division here. The method requires a non-zero denominator; for 0 the source fills the profile with infinities and NaN (libmusic/src/pitch_cls_profile.cpp:187-194), which real numbers do not describe.
- `PitchClsProfiles.PitchClsProfile`: the `uint8_t` loop counters of the source make the loops terminate only for profiles of at most 255 entries. The methods that loop require that bound rather than modelling a wrap.
- Ownership and deletion of heap objects are not modelled. This covers the profiles held by the PCP buffer, the FFT objects and the templates.
- `ChordDetector::Tune_` and `ChromagramFromSpectrogram_` (libmusic/src/chord_detector.cpp:231-247) are left out because they are spectrum arithmetic. The chromagram is an input of `Process`.
- The disabled `#if 0` code of libmusic/src/chord_detector.cpp (149-229, 249-270) is left out.
- `getSegments`, `GetPCP` and `GetChromagram` (libmusic/src/chord_detector.cpp:413-448) are left out because they are getters over state that the model passes as values.
- `ChordDetectors.Process` models `Process_` without a listener. With a listener the segments are handed out instead of collected; `ProcessSegment` models that branch for one segment.
- `PriorityQueues.PriorityQueue`: the heap layout of `std::priority_queue` is not modelled. The queue is a multiset, and which of several equal-magnitude points `getMax` returns is left open.
- `BeatDetectors.BeatDetector.GetBpm`: the tempo is stored as an exact real, not as a `float`.
- The listener callbacks of the command-line scorer that do nothing, its `main`, its usage text and its file reading (client/src/lmcsr.cpp) are left out because they are I/O.
- `DatasetChords.Song`: the message "Error occured" is not printed; only the fact that the list is left as it was is modelled.
- `Helpers.NextPowerOf2` requires 2 <= n <= 2^31. For n = 1 the source takes `__builtin_clz(0)`, which is undefined; for n = 0, `n - 1` wraps to 2^32 - 1 and 1 is shifted by 32 bits, which is undefined too, although tests/src/helpers_test.cpp:7 expects 1; for n > 2^31 it also shifts 1 by 32 bits. The model does not describe those results.
- `LmFftObject.New` requires `fLow >= 0` and `tdLen <= 2^31`, and, when samples are given, at least `tdLen` of them. A negative `fLow` reaches a `double` to `uint32_t` conversion of a negative value, a longer buffer reaches `nextPowerOf2` beyond 2^31, and fewer samples than `tdLen` are read past the end of the vector.
- `LmFftObject.Fft.constructor` requires the same as `New`, and in addition arguments that are not refused with `invalid_argument` (`ArgsInvalid`), because the source throws before constructing otherwise and `New` models that throw.
- `LmFft.Forward` requires an empty buffer or a power-of-two length of at most 2^31. For other lengths N the last stage's butterflies write past the end of the buffer, because 2^stages does not divide N: for N = 3 no pair is swapped and the first stage writes `input[3]` (libmusic/src/fft.cpp:192-206). For N from 5 to 7 and from 9 to 15, `BitReverse_` also reads `lookup2` or `lookup3` past its end.
- `LmFft.SortBitReversal` requires `start <= end < a.Length` and a power-of-two range of at most 2^31 entries; for other lengths `BitReverse_` reads its tables past their end, or returns indices past the range.
- `LmFft.SortBitReversal` calls `BitReverseFixed` where the source calls `BitReverse_` (libmusic/src/fft.cpp:143-155; the root fft.cpp:58-72 calls `__bitReverse`, which has the same shift). For widths above 4 bits that are not a multiple of 4 (2^5 to 2^11, 2^13 to 2^15, and every such width up to 2^31 points) the source shifts the top nibble by a negative count, which is undefined, so its sort is not the bit-reversal permutation the model proves there. The model does not describe that run. Every transform inherits this: `LmFft.Forward`, `LmFft.InverseInPlace`, `LmFftObject.Spectrum`, `LmFftObject.Fft.constructor`, `LmFftObject.New`, `LmFftObject.Fft.Inverse`, `LmFftObject.Fft.InverseSpectrum`, `RootFft.InverseAsWritten`, `ChordDetectors.GetFft` and `ChordDetectors.GetChord` (whose 4097 to 8192 samples give an 8192-point transform).
- `LmFftObject.Spectrum` transforms with the corrected sort of the `LmFft.SortBitReversal` line; for sizes 8192, 16384, 32768 and the other widths named there it is not what the source computes.
- `LmFftObject.Fft.InverseSpectrum` inverts with the corrected sort of the `LmFft.SortBitReversal` line; for object sizes of 8192 and up whose width is not a multiple of 4 it is not what the source computes.
- `LmFftObject.PolarSpectrum` zeroes the whole magnitudes buffer, where libmusic/src/fft.cpp:47 zeroes only its first `fd_len_` entries, and averages window − 1 fewer bins whenever `Avg_` as written would read the last entry, which the memset left alone (`ToPolar_` converted exactly `fd_len_` bins), or one past the buffer (the `Avg_` Findings row). Where every read lies among the zeroed entries it averages exactly the source's bins (`PolarBinsAgreeInsideZeroed`). `LmFftObject.PolarBuffer`, `LmFftObject.Fft.constructor`, `LmFftObject.New`, `ChordDetectors.GetFft` and `ChordDetectors.GetChord` inherit this.
- `PitchCalculators.GetTonic` requires `fftSize > 0`, lengths below 2^32, and, when a spectrum is given, at least one entry and `len` entries. A zero `fftSize` divides by 0, and a shorter spectrum is read past its end.
- `LmFftObject.ToPolarMagnitudes` requires the output buffer to hold every bin it writes. In the source the caller allocates that buffer; a smaller one would be written past its end.
- `ChordDetectors.GetChordFromPCPBuf` requires a non-empty buffer. For an empty one the source's `max_element` over the empty counter returns `end()`, which is then dereferenced.
- `ChordDetectors.VoteOf` requires a non-empty list of profiles, for the same reason.
- `ChordDetectors.ProcessSegment` requires a non-empty buffer for a non-silent segment that is not empty, for the same reason.
- `PitchClsProfiles.PitchClsProfile.PlusAssign` requires the other profile to be at least as long as this one; a shorter one is read past its end. The length bound of 255 is the `uint8_t` counter of the line on loops above.
- `Viterbi.GetPath` requires every row of the observations and of the transitions to be at least as long as the first row; shorter rows are read past their end.
- `PcpBuffers.PCPBuf.GetCombinedPCP` requires a non-empty buffer of profiles of at least 24 entries. For an empty buffer the source divides 0 by 0 and returns NaN profiles; the model does not describe NaN.
- `Envelopes.Envelope.constructor` requires the filtered signal to be non-empty. For an empty one the source dereferences the `max_element` of an empty range, which is its `end()`. It also requires the moving average's chunks to end below 2^32, as `MaFilters.MAFilter.Process` does, and `Envelopes.PowerFiltered` requires the same; past that the source's filter loop wraps its index (see the `MaFilters.MAFilter.Process` line).
- `CqtWrappers.CQTWrapper.Process` requires a valid wrapper and at least `latency / columnHop` columns; the source erases that many columns, which past the end is undefined. When a window holds more than one column it also requires every column of a window to be at least as long as the window's first column (`RowsFit`); shorter columns are read past their end.
- `ChordSegmentScores.ToMono` requires the last frame's first sample to lie in the data; a shorter buffer is read past its end.
- `Envelopes.Envelope.MeanOf` requires `endIdx < 2^32 - 1` and, for a forward range, `endIdx` inside the envelope. For `endIdx = 2^32 - 1` the source's `i <= endIdx` on a `uint32_t` always holds, so the loop never ends (libmusic/src/envelope.cpp:72); a forward range past the end is read past the end of the envelope. `mean` has no caller in the source that bounds either.
- `Envelopes.SquareAndDouble` requires `samples` to be at most the buffer length; a longer count is read and written past its end.
- `Envelopes.Envelope.Diff` requires a valid envelope, which is non-empty (see the constructor line); for an empty one the source writes `res[0]` of an empty vector.
- `MaFilters.MAFilter.Process` requires `df > 0` and that the chunks end below 2^32 (`ChunkCount(samples, df) * df < 2^32`). For `df = 0` the source's `i += __mDF` never advances and the loop runs forever (libmusic/src/ma_filter.cpp:44). When the last chunk start plus df reaches 2^32, the `uint32_t` index wraps back below `samples` (`LastStartWraps`); the loop then runs over the samples again, forever or until a later pass lands between `samples` and 2^32, emitting extra outputs. The model does not describe those runs.
- `MaFilters.MAFilter.ChunkSum` is the inner loop and needs no bound on df; its index `i + j` stays below `samples` and never wraps.
- `PitchClsProfiles.PitchClsProfile.EuclideanDistance` requires at most 65535 entries: its loop counter is a `uint16_t` (libmusic/include/pitch_cls_profile.h:79), which for longer profiles wraps to 0 before reaching the size, so the loop never ends.
- `PcpBuffers.PCPBuf.VectorChange` requires the profile to have at most 65535 entries, because it calls `euclideanDistance`, for the same reason.
- `PitchClsProfiles.PitchClsProfile.GetPitchCls` requires a non-empty profile. For an empty one the source's `% __mPCP.size()` divides by zero (libmusic/src/pitch_cls_profile.cpp:133).
- `LmFft.InverseInPlace` requires an empty buffer or a power-of-two length of at most 2^31, because it calls `Forward_` (libmusic/src/fft.cpp:294), whose butterflies write past the end of the buffer for other lengths (see the `LmFft.Forward` line).
- `RootFft.InverseAsWritten` requires the same, because `inverse` calls `forward` (fft.cpp:180) with the same bit reversal.
- `LmFftObject.Fft.Inverse` requires the same, for the same reason.
- `LmFft.BitReverse` and `LmFft.BitReverseFixed` require `bitCnt <= 32` and `n < 2^bitCnt`. For a larger `n` the source reads past the 4-, 8- and 16-entry tables for widths 2 to 4 (libmusic/src/fft.cpp:113-118), and for wider counts its extra nibbles are shifted by negative counts. Shifts of 32 bits or more are undefined for `uint32_t`. Only for width 1 would the source return a larger `n` unchanged, which the model leaves out.
- `LmFft.Exch` requires both indices inside the array; the source's `input[i]` on a `std::vector` is then read and written past its end.
- `LmFftObject.AttLowFreqs` requires `fLowIdx` to be at most the buffer length; a larger index is written past the end of the buffer (libmusic/src/fft.cpp:90-95).
- `LmFftObject.Avg` requires a window of at least 1 and `len + window - 1` readable bins. For a window of 0 the source divides by 0 and gets infinities; the overread for a shorter buffer is the Findings row on `Avg_`.
- `Helpers.TimeDomain2ComplexVector` requires `timeDomainSize` to be at most the buffer length; a larger size is read past the end of the buffer (libmusic/src/lmhelpers.cpp:43-45).
- `PriorityQueues.PriorityQueue.GetMax` and `PriorityQueues.PriorityQueue.DelMax` require a non-empty queue; `std::priority_queue::top` and `pop` on an empty queue are undefined.
- `ChordDetectors.GetScoreRow`, `ChordDetectors.GetScoreMatrix` and `ChordDetectors.Process` require at least one template. With none, the source writes the last entry of an empty score row (libmusic/src/chord_detector.cpp:301) and of an empty initial distribution (360), past their ends.
- `ChordDetectors.Process` and `ChordDetectors.SegmentPath` also require a non-empty signal. For an empty one the source's `td.size() - 1` wraps to 2^32 - 1 after the cast, so the clamp of a segment's end has no effect (libmusic/src/chord_detector.cpp:392); the model does not describe that run. Segment bounds are unbounded naturals here, while the source's `uint32_t` products would wrap only past 2^32 samples.
- `ChordTemplates.InitTpl` requires a root in C..B and a subtype the quality has, because the constructor checks both and throws before calling `InitTpl_` (libmusic/src/chord_tpl.cpp:100-115).
- `CqtWrappers.CQTWrapper.constructor` requires a positive column hop. For a hop of 0 the source's `round(1.0 * win_size / 0)` is infinite and its product with 0 is NaN (libmusic/src/cqt_wrapper.cpp:54-55).
- `CqtWrappers.CQTWrapper.ConvertRealBlock` requires, when a window holds more than one column, every column of a window to be at least as long as the window's first column (`RowsFit`); shorter columns are read past their end.
- `BeatDetectors.BeatDetector.NormalizeInterval` requires a positive interval; for 0 the doubling loop never ends (`ZeroIntervalNeverSettles`).
- `BeatDetectors.BeatDetector.Hz2Bpm` requires a positive frequency; for 0 Hz or a negative one the doubling loop never ends either (libmusic/src/beat_detector.cpp:77-83).
- `MusicScale.GetMajorScale` returns the evident 15 entries. libmusic/src/music_scale.cpp:47 inserts a range of the vector into the vector itself, which `std::vector::insert` does not allow; the 15 entries also exceed the 13 reserved, so the insert reallocates while reading the range. The model does not describe that undefined behaviour.
- The remaining files are not part of this model:
  - fft_wrapper, q_transform, transform, lmlogger and the Vamp plugin;
  - the command-line client `lmclient`;
  - the root-level legacy copies other than fft.cpp;
  - the Python stubs `tct_hmm.py` and `dataset.py`.

## Findings

| source | as written | input that shows it | evidently intended | confidence | as-written member | corrected member |
|---|---|---|---|---|---|---|
| libmusic/src/chord_tpl.cpp:132-187 | `InitTpl_` adds flats and sharps to the unwrapped scale notes 13 and 14, and writes slot `note − note_C + offset` | A major: the third is 14, so the write is to slot 25 of 24. G# minor: the flat of 13 is `note_Unknown`, so the third is dropped | every note reduced into C..B before it is written | high, not executed | ChordTemplates.AsWrittenAMajorOverruns, ChordTemplates.AsWrittenGSharpMinorDropsThird | ChordTemplates.InitTplSpec, ChordTemplates.CorrectedGSharpMinorKeepsThird |
| libmusic/src/lmhelpers.cpp:55-58 | `isPowerOf2(n)` returns `(n & (n − 1)) != 0` | 8 gives false and 6 gives true | true exactly for the powers of two, as libmusic/include/lmhelpers.h:61-67 documents | high, not executed | Helpers.IsPowerOf2AsWrittenCounterexample | Helpers.IsPowerOf2 |
| libmusic/src/fft.cpp:120-129 | `BitReverse_` shifts each reversed nibble by `bitCnt − 4i`, which is negative for the top nibble when `bitCnt` is not a multiple of 4 | an 8192-point transform (more than 4096 samples) calls `BitReverse_(4096, 13)`, whose top nibble is shifted by −3 | the partial top nibble shifted right instead | high, not executed | LmFft.BitReverseNegativeShift | LmFft.BitReverseFixed, LmFft.SortBitReversal |
| libmusic/src/fft.cpp:46-52, 268-279 | `Avg_` averages every bin `ToPolar_` converted, and each average reads window − 1 bins beyond it | the chord detector's 4096 samples at 44100 Hz between 82.4 and 4186 Hz fill a 391-bin buffer, and the average reads bin 391 | averages only over bins inside the buffer, and over all converted bins where the reads stay among the zeroed entries | medium, not executed | LmFftObject.AvgOverreadAsWritten, LmFftObject.AvgOverreadExample | LmFftObject.PolarSpectrum, LmFftObject.PolarBinsAgreeInsideZeroed |
| fft.cpp:167-186 | the conjugation and 1/N scaling loops of `inverse` start at index 1 | the two-point impulse [1, 0] is transformed to [1, 1], and `inverse` gives [2, 0] | the loops start at index 0, so that inverse undoes forward | high, not executed | RootFft.InverseAsWrittenCounterexample | LmFft.InverseInPlace, LmFft.InverseRoundTripTwo |
| libmusic/src/window_functions.cpp:48-70 | `applyHamming`, `applyBlackman` and `applyHann` take the samples (`td_t`, a `std::vector`) by value and window the copy | three unit samples stay [1, 1, 1], although the first coefficient is 0.08 for Hamming and 0 for Blackman and Hann | the window applied to the caller's samples | medium, not executed | WindowFunctions.HammingChangesSamples, WindowFunctions.BlackmanHannChangeSamples | WindowFunctions.ApplyHammingInPlace, WindowFunctions.ApplyBlackmanInPlace, WindowFunctions.ApplyHannInPlace |
| client/src/lmcsr.cpp:48-53 | `getMatchDuration` adds `endIdx − startIdx + 1` in 32-bit unsigned arithmetic | the overlap [0, 2³² − 1] counts as 0 samples | the length 2³² | low, not executed | ChordSegmentScores.DurationAsWrittenCounterexample | ChordSegmentScores.CSRListener.GetMatchDuration |
| libmusic/src/beat_detector.cpp:50-58 | the walk to the left of the peak starts at `maxEnvAmpIdx − 1` in `uint32_t` arithmetic | a silent envelope, or any that never rises: every first difference is at most 0 and the first is 0, so `max_element` returns 0 and the walk reads `envDiff[2³² − 1]` | the walk stops at the peak when there is nothing to its left | high, not executed | BeatDetectors.NeverRisingPeakAtStart, BeatDetectors.SilentEnvelopeWalkUnderflows | BeatDetectors.LeftOfPeak, BeatDetectors.LeftLocalMin |
