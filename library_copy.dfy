/** The copy of the recognizer library embedded in the normaliser app. It computes the same
    geometry as the library, but nothing transfers metadata: `translate` builds bare
    `{points}` strokes and copies only the canvas size, and the scalings and `resample`
    return the bare `{strokes}` object. The bounding box, the path length and the resampling
    spacing are the library's own (`Geometry`). */
module LibraryCopy {
  import opened SketchModel
  import opened Metric
  import opened Geometry
  import opened Metadata
  import opened Resample
  import opened RecTools

  //// Translate

  /** What the copy's `translate(sketch, x, y)` returns when there are strokes. */
  function CopyTranslated(sketch: Sketch, x: real, y: real): Sketch {
    BareSketch(MapStrokes(sketch.strokes, Shift(x, y)))
      .(canvasWidth := sketch.canvasWidth, canvasHeight := sketch.canvasHeight)
  }

  /** The copy's `translate`: null without strokes. No stroke needs a point, since nothing
      reads a first point. */
  method CopyTranslate(sketch: Sketch, x: real, y: real) returns (r: Option<Sketch>)
    ensures r.None? <==> sketch.strokes == []
    ensures r.Some? ==> r.value == CopyTranslated(sketch, x, y)
  {
    if sketch.strokes == [] {
      return None;
    }
    var newStrokes := MapSketchStrokes(sketch.strokes, Shift(x, y));
    var newSketch := BareSketch(newStrokes);
    newSketch := newSketch.(canvasWidth := sketch.canvasWidth, canvasHeight := sketch.canvasHeight);
    return Some(newSketch);
  }

  /** No element carries an id and the sketch has no id, time, domain or shapes. */
  predicate Unstamped(s: Sketch) {
    && s.id.None? && s.time.None? && s.domain.None? && s.shapes.None? && s.substrokes.None?
    && forall i :: 0 <= i < |s.strokes| ==>
         s.strokes[i].id.None? && s.strokes[i].time.None? &&
         forall j :: 0 <= j < |s.strokes[i].points| ==> s.strokes[i].points[j].id.None?
  }

  /** The copy's `translate` moves every point by `(x, y)`, keeps counts and times, carries
      the canvas size over and attaches nothing else. */
  lemma CopyTranslatedSpec(sketch: Sketch, x: real, y: real)
    ensures var r := CopyTranslated(sketch, x, y);
      && SameTimes(sketch.strokes, r.strokes) && Unstamped(r)
      && r.canvasWidth == sketch.canvasWidth && r.canvasHeight == sketch.canvasHeight
      && forall i, j :: 0 <= i < |r.strokes| && 0 <= j < |r.strokes[i].points| ==>
           r.strokes[i].points[j].x == sketch.strokes[i].points[j].x + x &&
           r.strokes[i].points[j].y == sketch.strokes[i].points[j].y + y
  {
    MapKeepsLayout(sketch.strokes, Shift(x, y));
  }

  /** Stamping the copy's result with the input's metadata is the library's `translate`:
      the two differ in metadata only. */
  lemma CopyTranslateIsLibrary(sketch: Sketch, x: real, y: real, ids: IdSource)
    requires sketch.strokes != [] && NoEmptyStroke(sketch.strokes)
    ensures NoEmptyStroke(CopyTranslated(sketch, x, y).strokes)
    ensures Stamped(CopyTranslated(sketch, x, y), sketch, ids) == Translated(sketch, x, y, ids)
  {
    MapKeepsLayout(sketch.strokes, Shift(x, y));
  }

  //// Translate to the canvas centre or centroid

  /** What the copy's `translateToCenter` / `translateToCentroid` return. */
  function CopyRecentred(sketch: Sketch, anchor: Anchor): Sketch
    requires HasFirstPoint(sketch.strokes)
    requires sketch.canvasWidth.Some? && sketch.canvasHeight.Some?
  {
    var b := BoxOf(sketch.strokes);
    CopyTranslated(sketch, sketch.canvasWidth.value / 2.0 - AnchorX(b, anchor),
                           sketch.canvasHeight.value / 2.0 - AnchorY(b, anchor))
  }

  /** The copy's `translateToCenter` (anchor `BoxCenter`) and `translateToCentroid`
      (anchor `Centroid`); half of an absent canvas size is NaN. */
  method CopyTranslateToAnchor(sketch: Sketch, anchor: Anchor) returns (newSketch: Sketch)
    requires HasFirstPoint(sketch.strokes)
    requires sketch.canvasWidth.Some? && sketch.canvasHeight.Some?
    ensures newSketch == CopyRecentred(sketch, anchor)
  {
    var box := CalculateBoundingBox(sketch);
    var boxX := AnchorX(box.value, anchor);
    var boxY := AnchorY(box.value, anchor);
    var canvasX := sketch.canvasWidth.value / 2.0;
    var canvasY := sketch.canvasHeight.value / 2.0;
    var moved := CopyTranslate(sketch, canvasX - boxX, canvasY - boxY);
    newSketch := moved.value;
  }

  /** The chosen anchor of the box lands on the middle of the canvas, the extents and the
      canvas size are kept, and no metadata is attached. */
  lemma CopyRecentredAnchor(sketch: Sketch, anchor: Anchor)
    requires HasFirstPoint(sketch.strokes)
    requires sketch.canvasWidth.Some? && sketch.canvasHeight.Some?
    ensures var r := CopyRecentred(sketch, anchor);
      && HasFirstPoint(r.strokes) && SameTimes(sketch.strokes, r.strokes) && Unstamped(r)
      && AnchorX(BoxOf(r.strokes), anchor) == sketch.canvasWidth.value / 2.0
      && AnchorY(BoxOf(r.strokes), anchor) == sketch.canvasHeight.value / 2.0
      && BoxOf(r.strokes).width == BoxOf(sketch.strokes).width
      && BoxOf(r.strokes).height == BoxOf(sketch.strokes).height
      && r.canvasWidth == sketch.canvasWidth && r.canvasHeight == sketch.canvasHeight
  {
    var b := BoxOf(sketch.strokes);
    var x, y := sketch.canvasWidth.value / 2.0, sketch.canvasHeight.value / 2.0;
    var dx, dy := x - AnchorX(b, anchor), y - AnchorY(b, anchor);
    CopyTranslatedBox(sketch, dx, dy);
    AnchorMoved(b, anchor, x, y);
    var r := CopyRecentred(sketch, anchor);
    assert r == CopyTranslated(sketch, dx, dy);
    assert BoxOf(r.strokes) == b.Mapped(Shift(dx, dy));
  }

  /** The copy's translation moves the box by `(x, y)`, keeps counts, times and the canvas
      size, and attaches nothing. */
  lemma CopyTranslatedBox(sketch: Sketch, x: real, y: real)
    requires HasFirstPoint(sketch.strokes)
    ensures var r := CopyTranslated(sketch, x, y);
      && HasFirstPoint(r.strokes) && SameTimes(sketch.strokes, r.strokes) && Unstamped(r)
      && BoxOf(r.strokes) == BoxOf(sketch.strokes).Mapped(Shift(x, y))
      && r.canvasWidth == sketch.canvasWidth && r.canvasHeight == sketch.canvasHeight
  {
    MapKeepsLayout(sketch.strokes, Shift(x, y));
    MapStrokesBox(sketch.strokes, Shift(x, y));
  }

  /** Stamped, the copy's result is the library's. */
  lemma CopyRecentredIsLibrary(sketch: Sketch, anchor: Anchor, ids: IdSource)
    requires NoEmptyStroke(sketch.strokes) && HasFirstPoint(sketch.strokes)
    requires sketch.canvasWidth.Some? && sketch.canvasHeight.Some?
    ensures NoEmptyStroke(CopyRecentred(sketch, anchor).strokes)
    ensures Stamped(CopyRecentred(sketch, anchor), sketch, ids) == Recentred(sketch, anchor, ids)
  {
    var b := BoxOf(sketch.strokes);
    CopyTranslateIsLibrary(sketch, sketch.canvasWidth.value / 2.0 - AnchorX(b, anchor),
                           sketch.canvasHeight.value / 2.0 - AnchorY(b, anchor), ids);
  }

  //// Scaling

  /** The end of both scalings in the copy: the scaled bare strokes moved so that their box
      centre is the centre of box `b`; the bare sketch has no canvas size to copy. */
  function CopyRecentring(b: Box, scaled: seq<Stroke>): Sketch
    requires HasFirstPoint(scaled)
  {
    var nb := BoxOf(scaled);
    CopyTranslated(BareSketch(scaled), b.centerX - nb.centerX, b.centerY - nb.centerY)
  }

  function CopyScaledThenCentred(sketch: Sketch, t: Affine): Sketch
    requires HasFirstPoint(sketch.strokes)
  {
    MapKeepsLayout(sketch.strokes, t);
    CopyRecentring(BoxOf(sketch.strokes), MapStrokes(sketch.strokes, t))
  }

  /** The move keeps counts and times and the extents of the scaled strokes, puts their box
      centre on the centre of `b`, and attaches nothing: no canvas size either. */
  lemma CopyRecentringSpec(b: Box, scaled: seq<Stroke>)
    requires HasFirstPoint(scaled)
    ensures var r, nb := CopyRecentring(b, scaled), BoxOf(scaled);
      && SameTimes(scaled, r.strokes) && HasFirstPoint(r.strokes) && Unstamped(r)
      && r.canvasWidth.None? && r.canvasHeight.None?
      && BoxOf(r.strokes).centerX == b.centerX && BoxOf(r.strokes).centerY == b.centerY
      && BoxOf(r.strokes).width == nb.width && BoxOf(r.strokes).height == nb.height
  {
    var nb := BoxOf(scaled);
    var dx, dy := b.centerX - nb.centerX, b.centerY - nb.centerY;
    var r := CopyRecentring(b, scaled);
    assert r == CopyTranslated(BareSketch(scaled), dx, dy);
    CopyTranslatedSpec(BareSketch(scaled), dx, dy);
    MapKeepsLayout(scaled, Shift(dx, dy));
    MapStrokesBox(scaled, Shift(dx, dy));
    ShiftedBox(nb, dx, dy);
  }

  /** The scaled and moved strokes keep counts and times, the box centre is the original
      centre, the extents are the scaled extents, and nothing else is attached. */
  lemma CopyScaledThenCentredSpec(sketch: Sketch, t: Affine)
    requires HasFirstPoint(sketch.strokes) && t.Monotone()
    ensures var r, b := CopyScaledThenCentred(sketch, t), BoxOf(sketch.strokes);
      && SameTimes(sketch.strokes, r.strokes) && HasFirstPoint(r.strokes) && Unstamped(r)
      && r.canvasWidth.None? && r.canvasHeight.None?
      && BoxOf(r.strokes).centerX == b.centerX && BoxOf(r.strokes).centerY == b.centerY
      && BoxOf(r.strokes).width == t.Stretch(X, b.width) && BoxOf(r.strokes).height == t.Stretch(Y, b.height)
  {
    var scaled := MapStrokes(sketch.strokes, t);
    MapKeepsLayout(sketch.strokes, t);
    MapStrokesBox(sketch.strokes, t);
    CopyRecentringSpec(BoxOf(sketch.strokes), scaled);
    SameTimesTrans(sketch.strokes, scaled, CopyScaledThenCentred(sketch, t).strokes);
  }

  /** Stamped, the copy's scale-and-centre is the library's. */
  lemma CopyScaledThenCentredIsLibrary(sketch: Sketch, t: Affine, ids: IdSource)
    requires NoEmptyStroke(sketch.strokes) && HasFirstPoint(sketch.strokes)
    ensures NoEmptyStroke(CopyScaledThenCentred(sketch, t).strokes)
    ensures Stamped(CopyScaledThenCentred(sketch, t), sketch, ids) == ScaledThenCentred(sketch, t, ids)
  {
    var scaled := MapStrokes(sketch.strokes, t);
    MapKeepsLayout(sketch.strokes, t);
    var b, nb := BoxOf(sketch.strokes), BoxOf(scaled);
    var shift := Shift(b.centerX - nb.centerX, b.centerY - nb.centerY);
    MapKeepsLayout(scaled, shift);
    assert CopyScaledThenCentred(sketch, t) == BareSketch(MapStrokes(scaled, shift));
  }

  /** The relocation ending both scalings: the box of the scaled bare sketch, the move
      between the centres, and the copy's `translate`. */
  method CopyRelocate(box: Box, newStrokes: seq<Stroke>) returns (newSketch: Sketch)
    requires HasFirstPoint(newStrokes)
    ensures newSketch == CopyRecentring(box, newStrokes)
  {
    newSketch := BareSketch(newStrokes);
    var newBox := CalculateBoundingBox(newSketch);
    var moveX := box.centerX - newBox.value.centerX;
    var moveY := box.centerY - newBox.value.centerY;
    var moved := CopyTranslate(newSketch, moveX, moveY);
    newSketch := moved.value;
  }

  /** The copy's `scaleProportional(sketch, size, isVertical)`. */
  function CopyScaledProportional(sketch: Sketch, size: real, isVertical: bool): Sketch
    requires HasFirstPoint(sketch.strokes)
    requires var b := BoxOf(sketch.strokes); if isVertical then b.height != 0.0 else b.width != 0.0
  {
    var c := Cloud(sketch.strokes);
    var s := ProportionalFactor(BoxOf(sketch.strokes), size, isVertical);
    CopyScaledThenCentred(sketch, About(s, Least(c, X, MaxSafe), Least(c, Y, MaxSafe)))
  }

  method CopyScaleProportional(sketch: Sketch, size: real, isVertical: bool) returns (newSketch: Sketch)
    requires HasFirstPoint(sketch.strokes)
    requires var b := BoxOf(sketch.strokes); if isVertical then b.height != 0.0 else b.width != 0.0
    ensures newSketch == CopyScaledProportional(sketch, size, isVertical)
  {
    var box := CalculateBoundingBox(sketch);
    var scale := if isVertical then size / box.value.height else size / box.value.width;
    var xOffset, yOffset := ScanOffsets(sketch.strokes);
    var t := About(scale, xOffset, yOffset);
    var newStrokes := MapSketchStrokes(sketch.strokes, t);
    MapKeepsLayout(sketch.strokes, t);
    newSketch := CopyRelocate(box.value, newStrokes);
  }

  /** With a positive size: the chosen extent becomes `size`, the other scales by the same
      factor, the box centre stays, counts and times are kept, and the result has neither
      metadata nor a canvas size. */
  lemma CopyScaledProportionalSpec(sketch: Sketch, size: real, isVertical: bool)
    requires HasFirstPoint(sketch.strokes) && size > 0.0
    requires var b := BoxOf(sketch.strokes); if isVertical then b.height != 0.0 else b.width != 0.0
    ensures var r := CopyScaledProportional(sketch, size, isVertical);
      && SameTimes(sketch.strokes, r.strokes) && HasFirstPoint(r.strokes) && Unstamped(r)
      && r.canvasWidth.None? && r.canvasHeight.None?
      && ProportionalBox(BoxOf(sketch.strokes), BoxOf(r.strokes), size, isVertical)
  {
    var c := Cloud(sketch.strokes);
    var b := BoxOf(sketch.strokes);
    CloudStartsWithFirstPoint(sketch.strokes);
    BoxBounds(c);
    var t := About(ProportionalFactor(b, size, isVertical), Least(c, X, MaxSafe), Least(c, Y, MaxSafe));
    CopyScaledThenCentredSpec(sketch, t);
    var r := CopyScaledProportional(sketch, size, isVertical);
    assert r == CopyScaledThenCentred(sketch, t);
    ProportionalStretch(b, BoxOf(r.strokes), size, isVertical, t);
  }

  /** Stamped, the copy's proportional scaling is the library's. */
  lemma CopyScaledProportionalIsLibrary(sketch: Sketch, size: real, isVertical: bool, ids: IdSource)
    requires NoEmptyStroke(sketch.strokes) && HasFirstPoint(sketch.strokes)
    requires var b := BoxOf(sketch.strokes); if isVertical then b.height != 0.0 else b.width != 0.0
    ensures NoEmptyStroke(CopyScaledProportional(sketch, size, isVertical).strokes)
    ensures Stamped(CopyScaledProportional(sketch, size, isVertical), sketch, ids)
         == ScaledProportional(sketch, size, isVertical, ids)
  {
    var c := Cloud(sketch.strokes);
    var t := About(ProportionalFactor(BoxOf(sketch.strokes), size, isVertical), Least(c, X, MaxSafe), Least(c, Y, MaxSafe));
    CopyScaledThenCentredIsLibrary(sketch, t, ids);
  }

  /** The copy's `scaleSquare(sketch, size)`. */
  function CopyScaledSquare(sketch: Sketch, size: real): Sketch
    requires HasFirstPoint(sketch.strokes)
    requires BoxOf(sketch.strokes).width != 0.0 && BoxOf(sketch.strokes).height != 0.0
  {
    CopyScaledThenCentred(sketch, SquareMap(BoxOf(sketch.strokes), size))
  }

  method CopyScaleSquare(sketch: Sketch, size: real) returns (newSketch: Sketch)
    requires HasFirstPoint(sketch.strokes)
    requires BoxOf(sketch.strokes).width != 0.0 && BoxOf(sketch.strokes).height != 0.0
    ensures newSketch == CopyScaledSquare(sketch, size)
  {
    var box := CalculateBoundingBox(sketch);
    var t := SquareMap(box.value, size);
    var newStrokes := MapSketchStrokes(sketch.strokes, t);
    MapKeepsLayout(sketch.strokes, t);
    newSketch := CopyRelocate(box.value, newStrokes);
  }

  /** With a positive size the box becomes a `size` square around the original centre;
      counts and times are kept and nothing is attached. */
  lemma CopyScaledSquareSpec(sketch: Sketch, size: real)
    requires HasFirstPoint(sketch.strokes) && size > 0.0
    requires BoxOf(sketch.strokes).width != 0.0 && BoxOf(sketch.strokes).height != 0.0
    ensures var r := CopyScaledSquare(sketch, size);
      && SameTimes(sketch.strokes, r.strokes) && HasFirstPoint(r.strokes) && Unstamped(r)
      && r.canvasWidth.None? && r.canvasHeight.None?
      && SquareBox(BoxOf(sketch.strokes), BoxOf(r.strokes), size)
  {
    var b := BoxOf(sketch.strokes);
    CloudStartsWithFirstPoint(sketch.strokes);
    BoxBounds(Cloud(sketch.strokes));
    var t := SquareMap(b, size);
    Ratio(size, b.width);
    Ratio(size, b.height);
    CopyScaledThenCentredSpec(sketch, t);
    var r := CopyScaledSquare(sketch, size);
    assert r == CopyScaledThenCentred(sketch, t);
    SquareStretch(b, BoxOf(r.strokes), size, t);
  }

  /** Stamped, the copy's square scaling is the library's. */
  lemma CopyScaledSquareIsLibrary(sketch: Sketch, size: real, ids: IdSource)
    requires NoEmptyStroke(sketch.strokes) && HasFirstPoint(sketch.strokes)
    requires BoxOf(sketch.strokes).width != 0.0 && BoxOf(sketch.strokes).height != 0.0
    ensures NoEmptyStroke(CopyScaledSquare(sketch, size).strokes)
    ensures Stamped(CopyScaledSquare(sketch, size), sketch, ids) == ScaledSquare(sketch, size, ids)
  {
    CopyScaledThenCentredIsLibrary(sketch, SquareMap(BoxOf(sketch.strokes), size), ids);
  }

  //// Resampling

  /** The copy's `resample(sketch, S)`: only `{strokes}`. */
  method CopyResample(sketch: Sketch, S: real, dist: Distance) returns (newSketch: Sketch)
    requires IsMetric(dist) && Resamplable(sketch.strokes, S)
    ensures newSketch == BareSketch(ResampledStrokes(sketch.strokes, S, dist))
  {
    var newStrokes := ResampleStrokes(sketch.strokes, S, dist);
    newSketch := BareSketch(newStrokes);
  }

  /** The copy's `resampleByCount(sketch, n)`. */
  method CopyResampleByCount(sketch: Sketch, n: int, dist: Distance) returns (newSketch: Sketch)
    requires IsMetric(dist) && n != 1
    requires Resamplable(sketch.strokes, CountSpacing(sketch.strokes, n, dist))
    ensures newSketch == BareSketch(ResampledStrokes(sketch.strokes, CountSpacing(sketch.strokes, n, dist), dist))
  {
    var length := CalculatePathLength(sketch, dist);
    var S := length / (n - 1) as real;
    newSketch := CopyResample(sketch, S, dist);
  }

  /** The spacing the copy's `resampleByDistance` uses: the given one, or the default when
      it is `undefined` (which needs a first point for the box). */
  function CopySpacing(strokes: seq<Stroke>, S: Option<real>, dist: Distance): real
    requires S.Some? || HasFirstPoint(strokes)
  {
    if S.Some? then S.value else Spacing(strokes, dist)
  }

  method CopyResampleByDistance(sketch: Sketch, S: Option<real>, dist: Distance) returns (newSketch: Sketch)
    requires IsMetric(dist) && (S.Some? || HasFirstPoint(sketch.strokes))
    requires Resamplable(sketch.strokes, CopySpacing(sketch.strokes, S, dist))
    ensures newSketch == BareSketch(ResampledStrokes(sketch.strokes, CopySpacing(sketch.strokes, S, dist), dist))
  {
    var spacing: real;
    if S.None? {
      spacing := DetermineResampleSpacing(sketch, dist);
    } else {
      spacing := S.value;
    }
    newSketch := CopyResample(sketch, spacing, dist);
  }

  /** The copy's resampled sketch has no sketch-level metadata, and stamped it is the library's
      resampling by count; a single stroke resampled to `n >= 2` points over a path of
      positive length has exactly `n` points. */
  lemma CopyResampledByCount(sketch: Sketch, n: int, dist: Distance, ids: IdSource)
    requires HasFirstPoint(sketch.strokes) && NoEmptyStroke(sketch.strokes) && IsMetric(dist)
    requires n >= 2 && PathLength(sketch.strokes, dist) > 0.0
    ensures CountSpacing(sketch.strokes, n, dist) > 0.0
    ensures var r := BareSketch(ResampledStrokes(sketch.strokes, CountSpacing(sketch.strokes, n, dist), dist));
      && r.id.None? && r.shapes.None? && |r.strokes| == |sketch.strokes|
      && n <= PointCount(r.strokes) <= n + |sketch.strokes| - 1
      && (|sketch.strokes| == 1 ==> PointCount(r.strokes) == n)
  {
    var S := CountSpacing(sketch.strokes, n, dist);
    ResampledByCountSize(sketch, n, dist, ids);
    var rs := ResampledStrokes(sketch.strokes, S, dist);
    SameLayoutPointCount(rs, Stamped(BareSketch(rs), sketch, ids).strokes);
  }
}
