# Sketch data tools, modelled in Dafny

The repository is a small suite of browser apps for collecting and preparing hand-drawn
sketch data, built around the `SketchRecTools` library. A sketch is a JSON object that holds
strokes of timed points, plus metadata: ids, a time, a domain, the canvas size and a list
of shapes. The shapes carry the sketch's interpretation, which is its label.

This project models these parts:

- **The library (`SketchRecTools/sketchrectools.js`).**
  - The bounding box with its centre and centroid, the path length, the point cloud and the
    resampling spacing.
  - `translate`, `translateToCenter` and `translateToCentroid`.
  - `scaleProportional` and `scaleSquare`.
  - The distance-walking `resample`, with `resampleByCount` and `resampleByDistance`.
  - The metadata transfer that stamps fresh ids and copies the original's time, domain,
    canvas and shapes.
  - The spreadsheet export.
- **The two template matchers.**
  - `dollar.js`: pairwise point distances.
  - `greedyhausdorff.js`: greedy nearest-point matching with removal.
  - Each truncates both clouds to a common length and sorts the labelled scores in
    ascending order.
- **The normaliser app (`SketchDataNormalizer`).**
  - Its embedded copy of the library. The copy computes the same geometry but transfers no
    metadata.
  - The stages `doScale`, `doResample` and `doTranslate`, driven by option values.
  - The record that `normalizeAllButton` assembles from each normalised sketch.
  - `validFileType`, shared character for character with the viewer.
- **The collection app (`SketchDataCollection`).**
  - The `CanvasData` buffers: points, then strokes, then sketches.
  - The submit, undo and clear buttons.
  - The expansion of the study's entries into `count` copies each.
  - The Fisher–Yates `shuffle` on the expanded array.
- **The study set-up app (`SketchDataCollectionSetup`).**
  - `saveStudy`: a form read into a study record, or refused with the first failing check.
  - `loadStudy`: a study record written back into the form.
- **The merge/split app (`SketchDataMergeSplit`).**
  - One container per sketch of every loaded file.
  - Its `file[index] = interpretation` label.
  - The file-then-position comparator `sortAscending` hands to `Array.sort`.
  - The label-to-container map, and `downloadData` reading the selection back through it.
- **The viewer (`BasicSketchDataViewer`).** The JSON file filter.

**How the model is built.**

- **Value data.** Points, strokes and sketches are Dafny datatypes. Every optional JSON
  field is an `Option`.
- **Classes.** The collection app's `CanvasData` and its study session are classes whose
  methods update fields in place. The Fisher–Yates shuffle works on an `array`.
- **Loops.** Every loop of the source is a method, proved equal to a specification
  function. The properties are lemmas about those functions.
- **Inputs.** The JavaScript built-ins the apps rely on (`Number.parseInt`, number-to-text,
  `toLowerCase`, string `<`) are written out in `JsText`. The Euclidean distance, the UUID
  generator, `Math.random` and every DOM value are inputs.

## Model

| member | source | states |
|---|---|---|
| `Metric.Remainder` | SketchRecTools/sketchrectools.js:370-373 | cutting a segment at fraction f leaves (1 - f) of its length from the cut point to the end |
| `SketchModel.CloudLength` | SketchRecTools/sketchrectools.js:393-410 | the point cloud holds exactly as many points as all strokes together |
| `SketchModel.CloudAppend` | SketchRecTools/sketchrectools.js:393-410 | the cloud of concatenated stroke lists is the concatenation of their clouds |
| `SketchModel.CloudStartsWithFirstPoint` | SketchRecTools/sketchrectools.js:393-410 | the cloud starts with the first stroke's first point |
| `SketchModel.InCloud` | SketchRecTools/sketchrectools.js:393-410 | every point of every stroke is in the cloud |
| `Geometry.CalculateBoundingBox` | SketchRecTools/sketchrectools.js:278-360 | null exactly when there are no strokes; otherwise the single scan over all points yields the box of the whole cloud |
| `Geometry.BoxBounds` | SketchRecTools/sketchrectools.js:278-360 | every point lies inside the box and each of its four edges is attained by some point; centre and centroid lie inside; width and height are the non-negative extents |
| `Geometry.PointInBox` | SketchRecTools/sketchrectools.js:278-360 | each point of each stroke lies within the box's x and y ranges |
| `Geometry.CentroidBetween` | SketchRecTools/sketchrectools.js:278-360 | the mean coordinate lies between the least and greatest coordinate |
| `Geometry.CalculatePathLength` | SketchRecTools/sketchrectools.js:375-391 | the nested loop computes the sum of consecutive-point distances within strokes, with no segment joining two strokes; non-negative for a metric |
| `Geometry.SegmentsLengthCons` | SketchRecTools/sketchrectools.js:375-391 | a stroke's length is its first segment plus the length of the rest |
| `Geometry.PathLengthNonNegative` | SketchRecTools/sketchrectools.js:375-391 | the path length is never negative |
| `Geometry.GetPointCloud` | SketchRecTools/sketchrectools.js:393-410 | the flattened cloud in stroke then point order, of length equal to the point count |
| `Geometry.DetermineResampleSpacing` | SketchRecTools/sketchrectools.js:362-368 | the spacing is the box diagonal over 40, non-negative, and zero exactly when the box is a single point |
| `Geometry.MapStrokesBox` | SketchRecTools/sketchrectools.js:278-360 | for a non-negative scale-and-shift, the box of the mapped strokes is the original box with that map applied to every field |
| `Geometry.MapThen` | SketchRecTools/sketchrectools.js:4-52 | mapping twice is mapping once by the composed map (scale about a pivot followed by recentring) |
| `Metadata.Stamped` | SketchRecTools/sketchrectools.js:428-455 | the stamped sketch keeps every coordinate and time, gives the sketch and every stroke and point an id, sets each stroke's time to its first point's time, and takes time, domain, shapes and canvas size from the original |
| `Metadata.TransferMetadata` | SketchRecTools/sketchrectools.js:428-455 | the transfer loops compute the stamped sketch |
| `Metadata.StampTwice` | SketchRecTools/sketchrectools.js:428-455 | a second transfer overwrites the first completely: only the last original and ids matter |
| `Resample.CutStep` | SketchRecTools/sketchrectools.js:143-156 | an emitted point lies on the current segment at fraction (S-D)/d and leaves D + d - S of the segment after it |
| `Resample.WalkEmit` | SketchRecTools/sketchrectools.js:143-156 | when the accumulated distance reaches the spacing, the interpolated point is emitted and the walk restarts from it with D = 0 |
| `Resample.WalkSkip` | SketchRecTools/sketchrectools.js:158 | otherwise the segment's length is added to D and the walk moves on |
| `Resample.WalkLength` | SketchRecTools/sketchrectools.js:133-159 | the walk emits floor((D + stroke length) / S) points |
| `Resample.WalkTimes` | SketchRecTools/sketchrectools.js:148 | every emitted point carries the time of some point of the stroke |
| `Resample.ResampledPoints` | SketchRecTools/sketchrectools.js:129-131 | the resampled stroke is non-empty and starts with a bare copy of the first raw point |
| `Resample.ResampledCount` | SketchRecTools/sketchrectools.js:129-159 | a stroke resamples to 1 + floor(length / S) points |
| `Resample.ResampledTimes` | SketchRecTools/sketchrectools.js:129-159 | every resampled point's time is a time of the raw stroke |
| `Resample.WalkSpacing` | SketchRecTools/sketchrectools.js:139-157 | while walking, the last emitted point stays within the distance run since it was emitted, so each newly emitted point is at most S from the one before |
| `Resample.ResampledSpacing` | SketchRecTools/sketchrectools.js:129-159 | no two consecutive resampled points of a stroke are more than S apart |
| `Resample.ResampledStrokesSpacing` | SketchRecTools/sketchrectools.js:116-167 | in every resampled stroke, consecutive points are at most S apart |
| `Resample.ResampleStroke` | SketchRecTools/sketchrectools.js:121-159 | the loop that splices each emitted point into the raw list computes the resampled points |
| `Resample.ResampledStrokes` | SketchRecTools/sketchrectools.js:116-167 | empty strokes are skipped, every output stroke is non-empty, and no stroke is dropped when none was empty |
| `Resample.ResampledStrokesAt` | SketchRecTools/sketchrectools.js:116-167 | with no empty stroke, output stroke i is the bare resampling of input stroke i |
| `Resample.ResampleStrokes` | SketchRecTools/sketchrectools.js:116-167 | the stroke loop computes the resampled strokes |
| `Resample.ResampleSketch` | SketchRecTools/sketchrectools.js:109-180 | `resample` returns the resampled strokes with the metadata transferred from the input |
| `Resample.ResampledTotal` | SketchRecTools/sketchrectools.js:109-180 | the points added beyond one per stroke number between length/S minus the stroke count and length/S |
| `RecTools.MapSketchStrokes` | SketchRecTools/sketchrectools.js:201-224 | the stroke-rebuilding loop maps every point and keeps its time |
| `RecTools.StampedBox` | SketchRecTools/sketchrectools.js:428-455 | the metadata transfer does not move the bounding box |
| `RecTools.Translate` | SketchRecTools/sketchrectools.js:191-233 | null exactly when there are no strokes, otherwise the shifted sketch with metadata transferred |
| `RecTools.TranslatedPoints` | SketchRecTools/sketchrectools.js:191-233 | every point moves by exactly (x, y), and counts and times are kept |
| `RecTools.TranslateRoundTrip` | SketchRecTools/sketchrectools.js:191-233 | translating by (x, y) and then by (-x, -y) restores every coordinate and time |
| `RecTools.TranslatedBox` | SketchRecTools/sketchrectools.js:191-233 | the bounding box of a translated sketch is the old box moved by (x, y), and the canvas size is kept |
| `RecTools.RestampedTranslation` | SketchRecTools/sketchrectools.js:191-233 | transferring the original's metadata onto a translated sketch gives the same sketch as translating with the later ids, so the inner ids are overwritten |
| `RecTools.TranslateToAnchor` | SketchRecTools/sketchrectools.js:235-269 | `translateToCenter` / `translateToCentroid` compute the recentred sketch; the final transfer's ids win |
| `RecTools.RecentredAnchor` | SketchRecTools/sketchrectools.js:235-269 | after the move, the box centre (or the centroid) is the canvas midpoint, the extents are unchanged and the canvas size is kept |
| `RecTools.RecentredBox` | SketchRecTools/sketchrectools.js:235-269 | the box after recentring is the old box shifted by canvas midpoint minus the chosen anchor, and the canvas size is kept |
| `RecTools.ScanOffsets` | SketchRecTools/sketchrectools.js:10-20 | the offset scan seeded with MAX_SAFE_INTEGER finds the least x and the least y |
| `RecTools.LeastIsMin` | SketchRecTools/sketchrectools.js:10-20 | a seeded minimum scan is the smaller of the seed and the cloud's minimum |
| `RecTools.OffsetsAreBoxMinimum` | SketchRecTools/sketchrectools.js:10-20 | the scanned offsets are the box's minX and minY whenever those are below MAX_SAFE_INTEGER |
| `RecTools.AboutIsPivotScaling` | SketchRecTools/sketchrectools.js:29-31 | the affine map used is the source's ((p - offset) * scale) + offset on each axis |
| `RecTools.RelocateToCentre` | SketchRecTools/sketchrectools.js:38-42 | the recentring step computes the sketch shifted so that the new box centre is the old one |
| `RecTools.RecentringSpec` | SketchRecTools/sketchrectools.js:38-42 | after recentring, the box centre is the pre-scaling centre and the extents are those of the scaled strokes |
| `RecTools.MovedToCentre` | SketchRecTools/sketchrectools.js:38-42 | the scaled strokes moved onto a box's centre keep their times and extents, and their box centre is that centre |
| `RecTools.RestampedRecentring` | SketchRecTools/sketchrectools.js:38-42 | translating the scaled strokes by the centre difference and then transferring the original's metadata is exactly the recentring step |
| `RecTools.ScaledThenCentredSpec` | SketchRecTools/sketchrectools.js:4-52 | scaling then recentring keeps the box centre and multiplies each extent by its axis factor |
| `RecTools.ScaleProportional` | SketchRecTools/sketchrectools.js:4-52 | the method computes the proportional scaling with metadata transferred |
| `RecTools.ScaledProportionalSpec` | SketchRecTools/sketchrectools.js:4-52 | for a positive size, the chosen extent (height if vertical, else width) becomes size, the other keeps the aspect ratio, the centre stays put, and counts and times are kept |
| `RecTools.SquareMapIsSource` | SketchRecTools/sketchrectools.js:54-85 | each point becomes (x * size / width, y * size / height) with its time |
| `RecTools.ScaleSquare` | SketchRecTools/sketchrectools.js:54-85 | the method computes the square scaling with metadata transferred |
| `RecTools.ScaledSquareSpec` | SketchRecTools/sketchrectools.js:54-85 | for a positive size, the box becomes a size-by-size square around the original centre, and counts and times are kept |
| `RecTools.ResampleByCount` | SketchRecTools/sketchrectools.js:89-93 | resampling with spacing path length / (n - 1) |
| `RecTools.ResampledByCountSize` | SketchRecTools/sketchrectools.js:89-93 | for n >= 2 and a positive length, the result has between n and n + strokes - 1 points, and exactly n for one stroke |
| `RecTools.DistanceSpacing` | SketchRecTools/sketchrectools.js:95-101 | a given spacing is used as is; a missing one is the determined spacing, never negative |
| `RecTools.ResampleByDistance` | SketchRecTools/sketchrectools.js:95-101 | resampling with the given or determined spacing |
| `RecTools.ConvertSketchToSpreadsheet` | SketchRecTools/sketchrectools.js:457-477 | the loops emit one "x\ty" row per point and one blank row after each stroke |
| `RecTools.SpreadsheetLength` | SketchRecTools/sketchrectools.js:457-477 | the export has one line per point plus one per stroke |
| `RecTools.SpreadsheetRows` | SketchRecTools/sketchrectools.js:457-477 | dropping the blank separators leaves exactly the rows of the point cloud, in order |
| `Ranking.Insert` | SketchRecTools/dollar.js:41 | inserting into a score-sorted list keeps it sorted and adds exactly the new entry |
| `Ranking.SortByScore` | SketchRecTools/dollar.js:41 | `results.sort((a, b) => a.score - b.score)` gives an ascending permutation of the results |
| `Ranking.SortedScores` | SketchRecTools/greedyhausdorff.js:45 | with non-negative scores, a zero-scoring result is first after the sort |
| `Ranking.Truncate` | SketchRecTools/dollar.js:28-29 | popping down to pointCount leaves the prefix of length min(length, pointCount) |
| `Dollar.CalculateDistance` | SketchRecTools/dollar.js:45-68 | the loop sums the distances between points at the same index |
| `Dollar.PairSumZero` | SketchRecTools/dollar.js:45-68 | the sum is non-negative and zero exactly when the clouds agree point by point |
| `Dollar.PairSumSymmetric` | SketchRecTools/dollar.js:45-68 | for equal lengths the distance does not depend on argument order |
| `Dollar.PairSumPrefix` | SketchRecTools/dollar.js:45-68 | only the first cloud-length points of the other cloud are read |
| `Dollar.ScoreTemplate` | SketchRecTools/dollar.js:16-37 | one template's labelled score: both clouds cut to the common length, distance divided by it |
| `Dollar.Run` | SketchRecTools/dollar.js:7-43 | `run` returns the per-template results sorted by score |
| `Dollar.RunSpec` | SketchRecTools/dollar.js:7-43 | one result per template, each labelled with its template's interpretation, sorted ascending as a permutation, all scores non-negative, and a template sharing the input's common prefix scores 0 and comes first |
| `Dollar.ScoreFacts` | SketchRecTools/dollar.js:24-33 | a score is non-negative and is 0 when the clouds agree on their common length |
| `Greedy.Nearest` | SketchRecTools/greedyhausdorff.js:64-84 | an index into the pool with its distance below MAX_SAFE_INTEGER, or -1 with MAX_SAFE_INTEGER |
| `Greedy.NearestIsFirstLeast` | SketchRecTools/greedyhausdorff.js:64-84 | the minimum is at most every pool distance and strictly below those before its index, so the first nearest point is taken |
| `Greedy.CopyCloud` | SketchRecTools/greedyhausdorff.js:51-54 | the copy loop yields the other cloud unchanged |
| `Greedy.NearestIn` | SketchRecTools/greedyhausdorff.js:64-84 | the inner loop computes the nearest pool point |
| `Greedy.Splice` | SketchRecTools/greedyhausdorff.js:88 | `splice(minIndex, 1)` removes one point, and the last point for index -1 |
| `Greedy.SpliceRemoves` | SketchRecTools/greedyhausdorff.js:88 | splicing removes exactly the chosen point from the pool's multiset |
| `Greedy.CalculateDistance` | SketchRecTools/greedyhausdorff.js:49-94 | the loops compute the greedy matching sum |
| `Greedy.GreedySumNonNegative` | SketchRecTools/greedyhausdorff.js:49-94 | the greedy sum is non-negative |
| `Greedy.MatchesFromPool` | SketchRecTools/greedyhausdorff.js:49-94 | every matched point comes from the pool, each used at most once |
| `Greedy.MatchesAll` | SketchRecTools/greedyhausdorff.js:49-94 | with a pool at least as large and every distance below the seed, every point is matched |
| `Greedy.CoveredScoresZero` | SketchRecTools/greedyhausdorff.js:49-94 | when the pool covers the cloud's coordinates as a multiset, the sum is 0 |
| `Greedy.ScoreFacts` | SketchRecTools/greedyhausdorff.js:24-37 | the smaller of the two directed scores is non-negative, and 0 when the clouds agree on their common length |
| `Greedy.ScoreTemplate` | SketchRecTools/greedyhausdorff.js:16-41 | one template's labelled score, the lesser of the two directions over the point count |
| `Greedy.Run` | SketchRecTools/greedyhausdorff.js:7-47 | `run` returns the per-template results sorted by score |
| `Greedy.RunSpec` | SketchRecTools/greedyhausdorff.js:7-47 | one labelled result per template, sorted ascending as a permutation, non-negative, and a template sharing the input's common prefix scores 0 and comes first |
| `LibraryCopy.CopyTranslate` | SketchDataNormalizer/public/main.js:969-1012 | the copy's translate is null exactly when there are no strokes |
| `LibraryCopy.CopyTranslatedSpec` | SketchDataNormalizer/public/main.js:969-1012 | every point moves by (x, y), times are kept, the canvas size is copied, and no id or other metadata is attached |
| `LibraryCopy.CopyTranslatedBox` | SketchDataNormalizer/public/main.js:969-1012 | the copy's bounding box is the old box moved by (x, y), times and canvas size are kept and no id is attached |
| `LibraryCopy.CopyTranslateIsLibrary` | SketchDataNormalizer/public/main.js:969-1012 | the copy's translate followed by the library's metadata transfer is the library's translate |
| `LibraryCopy.CopyTranslateToAnchor` | SketchDataNormalizer/public/main.js:1014-1040 | the copy's translateToCenter / translateToCentroid compute the recentred sketch |
| `LibraryCopy.CopyRecentredAnchor` | SketchDataNormalizer/public/main.js:1014-1040 | the anchor lands on the canvas midpoint, the extents and canvas are kept, and no metadata is attached |
| `LibraryCopy.CopyRecentredIsLibrary` | SketchDataNormalizer/public/main.js:1014-1040 | with the metadata transferred, the copy agrees with the library |
| `LibraryCopy.CopyRelocate` | SketchDataNormalizer/public/main.js:802-845 | the copy's recentring step computes the recentred bare sketch |
| `LibraryCopy.CopyRecentringSpec` | SketchDataNormalizer/public/main.js:802-845 | the recentred bare sketch has the old centre, the new extents and no canvas size |
| `LibraryCopy.CopyScaledThenCentredSpec` | SketchDataNormalizer/public/main.js:802-875 | scaling then recentring in the copy keeps the centre, multiplies the extents and attaches nothing |
| `LibraryCopy.CopyScaledThenCentredIsLibrary` | SketchDataNormalizer/public/main.js:802-875 | with the metadata transferred, the copy's scale-and-recentre is the library's |
| `LibraryCopy.CopyScaleProportional` | SketchDataNormalizer/public/main.js:802-845 | the copy's scaleProportional computes the bare proportional scaling |
| `LibraryCopy.CopyScaledProportionalSpec` | SketchDataNormalizer/public/main.js:802-845 | same box result as the library (chosen extent becomes size, aspect kept, centre kept), no canvas size, nothing attached |
| `LibraryCopy.CopyScaledProportionalIsLibrary` | SketchDataNormalizer/public/main.js:802-845 | with the metadata transferred, the copy is the library's scaleProportional |
| `LibraryCopy.CopyScaleSquare` | SketchDataNormalizer/public/main.js:847-875 | the copy's scaleSquare computes the bare square scaling |
| `LibraryCopy.CopyScaledSquareSpec` | SketchDataNormalizer/public/main.js:847-875 | the box becomes a size square around the old centre, no canvas size, nothing attached |
| `LibraryCopy.CopyScaledSquareIsLibrary` | SketchDataNormalizer/public/main.js:847-875 | with the metadata transferred, the copy is the library's scaleSquare |
| `LibraryCopy.CopyResample` | SketchDataNormalizer/public/main.js:897-960 | the copy's resample returns the bare resampled strokes |
| `LibraryCopy.CopyResampleByCount` | SketchDataNormalizer/public/main.js:877-881 | the copy resamples with spacing path length / (n - 1) |
| `LibraryCopy.CopyResampleByDistance` | SketchDataNormalizer/public/main.js:883-889 | the copy resamples with the given spacing, or the determined one when none is given |
| `LibraryCopy.CopyResampledByCount` | SketchDataNormalizer/public/main.js:877-881 | for n >= 2, between n and n + strokes - 1 points, no stroke lost, and no id or shapes |
| `Normalizer.DoScale` | SketchDataNormalizer/public/main.js:457-529 | the method computes the scale stage, with "Long" and "Short" choosing the longer and the shorter extent (see Findings) |
| `Normalizer.ScaledSpec` | SketchDataNormalizer/public/main.js:457-529 | a rejected amount returns the sketch unchanged; otherwise times and counts are kept, nothing but strokes and canvas remain, and the canvas is size x size only for a proportional scale of the whole canvas |
| `Normalizer.ProportionalStageSpec` | SketchDataNormalizer/public/main.js:485-512 | a proportional scale keeps times, drops id, domain and shapes, and leaves the canvas as given for sketch-only scaling or makes it size x size otherwise |
| `Normalizer.PopKeepsPrefix` | SketchDataNormalizer/public/main.js:526 | popping the temporary canvas stroke leaves strokes matching the original ones |
| `Normalizer.ScaledToOrigin` | SketchDataNormalizer/public/main.js:504-512 | scaling with the canvas moves every point into the non-negative quadrant |
| `Normalizer.ScaleProportionalBranch` | SketchDataNormalizer/public/main.js:485-512 | the method computes the proportional branch: the box read for the side choice, the library's proportional scale, then either the original canvas put back or the move to the origin |
| `Normalizer.MoveToOrigin` | SketchDataNormalizer/public/main.js:504-511 | the method computes the move by minus the least corner of the scaled sketch's box onto a square canvas of side size |
| `Normalizer.StageToOrigin` | SketchDataNormalizer/public/main.js:504-511 | moving a sketch by minus the least corner of its own box leaves no negative coordinate |
| `Normalizer.ScaledSketchOnly` | SketchDataNormalizer/public/main.js:485-523 | scaling the sketch only gives the library's proportional or square box result on the sketch's own box |
| `Normalizer.LongScalesShortExtent` | SketchDataNormalizer/public/main.js:493 | as written, "Long" on a box wider than tall scales the height to size, so the width ends up larger than size |
| `Normalizer.IntendedSideBecomesSize` | SketchDataNormalizer/public/main.js:489-494 | with the comparisons swapped, "Long" makes the longer extent equal to size and "Short" the shorter one |
| `Normalizer.DoResample` | SketchDataNormalizer/public/main.js:531-554 | the method computes the resample stage |
| `Normalizer.ResampledSpec` | SketchDataNormalizer/public/main.js:531-554 | a rejected amount or no method leaves the sketch; otherwise the strokes are resampled bare, the canvas is restored, by count gives n..n+strokes-1 points, and by distance adds at most length/amount points |
| `Normalizer.Moved` | SketchDataNormalizer/public/main.js:585-590 | moving the sketch keeps the canvas size and the stroke count |
| `Normalizer.DoTranslate` | SketchDataNormalizer/public/main.js:556-606 | the method computes the translate stage |
| `Normalizer.TranslatedCanvas` | SketchDataNormalizer/public/main.js:560-603 | a rejected width or height returns the sketch; otherwise the canvas is the new one when resizing and the original one otherwise |
| `Normalizer.TranslatedToOrigin` | SketchDataNormalizer/public/main.js:595-596 | moving the canvas to the origin shifts every point by minus half the canvas |
| `Normalizer.TranslatedAnchor` | SketchDataNormalizer/public/main.js:584-597 | the chosen anchor lands on the canvas midpoint, or on the origin when the canvas is moved too, and the extents are kept |
| `Normalizer.AnchorAtCentre` | SketchDataNormalizer/public/main.js:584-597 | when the canvas stays, the chosen anchor of the moved box is the canvas midpoint and the extents and times are kept |
| `Normalizer.AnchorAtOrigin` | SketchDataNormalizer/public/main.js:584-597 | when the canvas moves too, the chosen anchor of the moved box is the origin and the extents and times are kept |
| `Normalizer.AssembleRecord` | SketchDataNormalizer/public/main.js:637-665 | the record-building loops compute the record |
| `Normalizer.RecordSpec` | SketchDataNormalizer/public/main.js:637-665 | the record keeps the normalised coordinates and times, ids every stroke and point, has one shape listing every stroke id with the original interpretation and confidence "1.0" at the original's first-point time, and takes its canvas from the normalised sketch |
| `Normalizer.NormalizeOne` | SketchDataNormalizer/public/main.js:617-668 | one sketch is scaled, resampled and translated as selected, then recorded |
| `Normalizer.NormalizeAll` | SketchDataNormalizer/public/main.js:614-673 | one normalised record per sketch, in order |
| `Viewer.ValidFileTypeSpelled` | BasicSketchDataViewer/public/main.js:285-298 | a name passes exactly when it has at least six characters and ends in j, s, o, n in either case |
| `Viewer.OnlyTheEndCounts` | BasicSketchDataViewer/public/main.js:289-293 | nothing before the last four characters affects the verdict |
| `Viewer.FilterExamples` | BasicSketchDataViewer/public/main.js:285-298 | "abjson" and "a.JSON" pass; ".json" and "data.jsonl" are refused |
| `JsText.ValueOfDigits` | SketchDataCollectionSetup/public/main.js:153-167 | the decimal text of n reads back as n |
| `JsText.ParseIntOfText` | SketchDataCollectionSetup/public/main.js:153-167 | `parseInt` of an integer's text, followed by anything that does not start with a digit, is that integer |
| `JsText.ParseIntOfWhole` | SketchDataCollectionSetup/public/main.js:153-167 | `parseInt` of an integer's own text is that integer |
| `JsText.IntToStringInjective` | SketchDataMergeSplit/public/main.js:52 | different integers have different decimal texts |
| `JsText.ParseIntNaN` | SketchDataCollectionSetup/public/main.js:153-167 | text with no digit after the white space and sign reads as NaN |
| `JsText.StringTrichotomy` | SketchDataMergeSplit/public/main.js:104-107 | JavaScript string `<` is irreflexive and asymmetric, and exactly one of a < b, a == b, b < a holds |
| `JsText.StringLessTransitive` | SketchDataMergeSplit/public/main.js:104-107 | string `<` is transitive |
| `StudySetup.FirstCheckedSpec` | SketchDataCollectionSetup/public/main.js:170-178 | no display exactly when no radio is checked; otherwise the value of a checked radio with none checked before it |
| `StudySetup.CheckedDisplay` | SketchDataCollectionSetup/public/main.js:170-178 | the radio loop finds the first checked display |
| `StudySetup.EntriesOfSpec` | SketchDataCollectionSetup/public/main.js:181-207 | the entries are accepted exactly when every row has a label and, unless the display is text, a file name; they are then the rows in order with the file name blanked for text |
| `StudySetup.CollectEntries` | SketchDataCollectionSetup/public/main.js:181-207 | the entry loop with its early returns computes the entries or the first row error |
| `StudySetup.SaveStudy` | SketchDataCollectionSetup/public/main.js:136-250 | `saveStudy` performs the checks in source order, with the title check testing the title (see Findings), and writes the study |
| `StudySetup.StudyOfSpec` | SketchDataCollectionSetup/public/main.js:136-250 | a study is written exactly for acceptable forms (positive count, at least one complete row, positive dimensions for text) and then holds every form field; a bad count is reported first |
| `StudySetup.EmptyTitleAccepted` | SketchDataCollectionSetup/public/main.js:147-150 | as written, a form with an empty title is saved |
| `StudySetup.IntendedRefusesEmptyTitle` | SketchDataCollectionSetup/public/main.js:147-150 | with the title tested, an empty title is refused and every other form is treated as before |
| `StudySetup.LoadStudy` | SketchDataCollectionSetup/public/main.js:252-350 | the load loops fill the form from the study |
| `StudySetup.BoxRoundTrip` | SketchDataCollectionSetup/public/main.js:318-321 | a dimension written into its box reads back as the same value |
| `StudySetup.LoadedDisplay` | SketchDataCollectionSetup/public/main.js:292-315 | after loading, the first checked radio is the study's display |
| `StudySetup.LoadedEntries` | SketchDataCollectionSetup/public/main.js:327-345 | the loaded rows of a well-formed study pass the entry checks unchanged |
| `StudySetup.LoadThenSave` | SketchDataCollectionSetup/public/main.js:252-350 | loading a well-formed study with a title, then saving with the title check, gives back the same study |
| `StudySetup.LoadedBoxes` | SketchDataCollectionSetup/public/main.js:252-350 | after loading a study with a positive count, the count and canvas boxes parse back to the study's numbers |
| `StudySetup.SavedBack` | SketchDataCollectionSetup/public/main.js:252-350 | a form whose fields agree with a well-formed study and has a title saves to exactly that study |
| `Collection.CollectedSketchSpec` | SketchDataCollection/public/main.js:589-618 | a collected sketch is well formed (id, one shape listing every stroke id, first-point time, confidence "1.0", substrokes = strokes) and carries the given label, domain and canvas |
| `Collection.CanvasData.constructor` | SketchDataCollection/public/main.js:728-732 | the buffers start empty |
| `Collection.CanvasData.CollectPoint` | SketchDataCollection/public/main.js:565-572 | appends one timed, identified point and changes nothing else |
| `Collection.CanvasData.CollectStroke` | SketchDataCollection/public/main.js:577-584 | moves the buffered points into a new stroke timed by its first point and empties the point buffer |
| `Collection.CanvasData.CollectSketch` | SketchDataCollection/public/main.js:589-618 | appends the collected sketch and leaves the buffers |
| `Collection.CanvasData.Undo` | SketchDataCollection/public/main.js:272-285 | drops the last stroke if there is one |
| `Collection.CanvasData.Clear` | SketchDataCollection/public/main.js:253-265 | empties points and strokes when there are strokes, otherwise changes nothing |
| `Collection.Session.constructor` | SketchDataCollection/public/main.js:89-96 | a session starts at the first entry with empty buffers |
| `Collection.Session.Submit` | SketchDataCollection/public/main.js:172-246 | no strokes: nothing changes; otherwise the sketch is stored under the current entry's label with domain "Sketch", the index advances, and the buffers are cleared unless that was the last entry |
| `Collection.Expand` | SketchDataCollection/public/main.js:89-96 | the nested loops build each entry repeated count times, entry by entry |
| `Collection.ExpandedLayout` | SketchDataCollection/public/main.js:89-96 | the expansion has entries x count items, and block k is count copies of entry k |
| `Collection.Shuffle` | SketchDataCollection/public/main.js:674-691 | the swap loop permutes the array: its multiset is unchanged |
| `Collection.Pick` | SketchDataCollection/public/main.js:681 | floor(random x n) for a draw in [0, 1) is a valid index |
| `Collection.Schedule` | SketchDataCollection/public/main.js:89-99 | the scheduled entries are a permutation of the expansion, and the expansion itself when not randomised |
| `MergeSplit.FileContainers` | SketchDataMergeSplit/public/main.js:42-57 | one container per sketch, with the file name, the position and the label `file[index] = interpretation` |
| `MergeSplit.LabelsDistinctInFile` | SketchDataMergeSplit/public/main.js:48-52 | two sketches of one file never share a label |
| `MergeSplit.LabelsCanCollide` | SketchDataMergeSplit/public/main.js:48-52 | sketches of different files can share a label ("a", 0, "b[1] = c" against "a[0] = b", 1, "c") |
| `MergeSplit.CompareSpec` | SketchDataMergeSplit/public/main.js:102-118 | the comparator is antisymmetric, 0 exactly on the same file and position, and negative exactly when the file name is smaller or equal with a smaller position |
| `MergeSplit.CompareTransitive` | SketchDataMergeSplit/public/main.js:102-118 | the comparator's order is transitive, so the sort is well defined |
| `MergeSplit.InsertContainer` | SketchDataMergeSplit/public/main.js:102-118 | inserting into an ascending list keeps it ascending and adds exactly the one container |
| `MergeSplit.SortAscending` | SketchDataMergeSplit/public/main.js:102-118 | the sort returns an ascending permutation of the containers |
| `MergeSplit.SortedMeansByFileThenPosition` | SketchDataMergeSplit/public/main.js:102-118 | in sorted order, file names never decrease, and positions never decrease within a file |
| `MergeSplit.LabelMapKeys` | SketchDataMergeSplit/public/main.js:67-78 | the map's keys are exactly the containers' labels |
| `MergeSplit.LabelMapLastWins` | SketchDataMergeSplit/public/main.js:72 | a label maps to the last container carrying it |
| `MergeSplit.Labels` | SketchDataMergeSplit/public/main.js:76-77 | the options are the containers' labels in order |
| `MergeSplit.GatherFiles` | SketchDataMergeSplit/public/main.js:36-57 | the containers of every file, file after file |
| `MergeSplit.ListContainers` | SketchDataMergeSplit/public/main.js:67-78 | the option loop builds the label map and the option list |
| `MergeSplit.LoadSketches` | SketchDataMergeSplit/public/main.js:36-86 | after the last read, the containers are a sorted permutation of all files' containers, with the map and the options built from them |
| `MergeSplit.DownloadData` | SketchDataMergeSplit/public/main.js:156-175 | one sketch per selected label, looked up in the map |
| `MergeSplit.DownloadFindsSketches` | SketchDataMergeSplit/public/main.js:156-175 | with distinct labels, each selected label yields the sketch of the container it names |

## Left out

- **The browser.** The DOM, canvas drawing, `FileReader`, JSON parsing, Blob downloads and
  alerts are left out. Values read from the page are parameters and values written to it
  are results.
- **Other app code.** The viewer's navigation and image/canvas-state handling are left out,
  and so are merge/split's `move` between the selection lists and `sortSelections`. These
  only rearrange page elements.
- **Distance.** `calculateDistance` uses `Math.sqrt`, which is not modelled. The distance is
  a parameter. Where a property needs it, the parameter is required to be a metric that
  scales linearly along a segment. Such a metric is non-negative and symmetric, is zero only
  between equal points, and obeys the triangle inequality.
- **Random and clock inputs.** `generateUuidv4` / `uuid`, `Date.now` and `Math.random` are
  given as inputs: ids by position, times as values, draws as reals in [0, 1).
- **`cloneSketch`.** It is not modelled separately. Sketches are values, so a deep copy is
  the value itself.
- **Numbers.** Coordinates are exact reals, not IEEE doubles.
  - Divisions the source can make by zero (a zero extent, a zero spacing) are preconditions.
  - A JavaScript `TypeError` (the first point of an empty stroke, a sketch without shapes)
    is a precondition.
  - A missing `canvasWidth` or `canvasHeight` is a precondition where the source halves it.
    JavaScript would compute `undefined / 2`, which is NaN, and produce NaN coordinates
    without throwing. NaN coordinates are not modelled.
- **`Number.parseInt`.** The hexadecimal `0x` prefix and white space beyond the listed
  characters are not modelled.
- **`toLowerCase`.** Only ASCII letters are lowered.
- **String order.** Strings are compared character by character. JavaScript compares UTF-16
  code units. The two orders differ only for characters outside the Basic Multilingual Plane.
- `Viewer.ValidFileType`: lengths and slices count characters, not UTF-16 code units. A
  name with a character outside the Basic Multilingual Plane is therefore judged on a
  shorter length. For example, JavaScript accepts the emoji followed by `json` (length 6),
  while the model refuses it (length 5).
- **`Array.prototype.sort`.** It is modelled as an insertion sort: a stable permutation
  sorted by the comparator. The engine's own algorithm is not modelled.
- **Merge/split read order.** The order in which file reads finish is the order of the
  `files` input.
- **Aliasing.** After the last submit, the stored sketch shares its strokes array with the
  canvas buffer, so a later undo or clear would change the stored sketch. That effect is
  not captured.
- **`Collection.Shuffle`.** Its contract states only that the result is a permutation. The
  exact order that a given sequence of draws produces is not stated.
- **The normaliser's temporary canvas stroke.** Its points are built with a `t` field, so
  they are modelled with no time.
- **`Normalizer.CheckNumber`.** The `typeof` test is not modelled separately. Every value it
  receives comes from `Number.parseInt`, so only NaN is refused.
- **`LibraryCopy.CopyResampleByDistance`.** The determined spacing for a sketch without
  points is left out. The copy's own path reads a first point and throws there.
- **The embedded copy's helpers.** Its `calculateBoundingBox`, `calculatePathLength`,
  `determineResampleSpacing` and `calculateDistance`
  (SketchDataNormalizer/public/main.js:718-800 and 1042-1071) match the library's, so the
  `Geometry` members model both.
- **The normaliser's `validFileType`.** SketchDataNormalizer/public/main.js:341-354 is the
  viewer's function verbatim, so `Viewer.ValidFileType` models both.
- **The set-up app's load.** The count, dimensions and display are taken from a study as
  `saveStudy` writes it. A hand-edited file with another display value leaves the radios as
  they were, and other JSON types are not modelled.

## Findings

| source | as written | input that shows it | evidently intended | confidence | as-written member | corrected member |
|---|---|---|---|---|---|---|
| SketchDataNormalizer/public/main.js:493-494 | "Long" sets `isVertical = width > height` and "Short" sets `isVertical = width < height`, so the shorter extent is the one scaled to the resize amount under "Long" | a box 200 wide and 100 tall, "Long", amount 50: the height becomes 50 and the width 100 | "Long" scales the longer extent to the amount and "Short" the shorter one | high, not executed | `Normalizer.LongScalesShortExtent` | `Normalizer.IntendedSideBecomesSize` |
| SketchDataCollectionSetup/public/main.js:147-150 | the empty-title check tests `label`, a variable hoisted from the entry loop and still undefined there, so it never fires | title "", count "1", text display, one entry "cat", dimensions "2" x "3": the study is saved with an empty title | a study with an empty title is refused with the title alert | high, not executed | `StudySetup.EmptyTitleAccepted` | `StudySetup.IntendedRefusesEmptyTitle` |
