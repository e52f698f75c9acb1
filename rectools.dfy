/** The normalisation operations of the `SketchRecTools` library: translate, translate to the
    canvas centre or centroid, proportional and square scaling, resampling by count or by
    distance, and the spreadsheet export. Every operation builds a new bare sketch and then
    transfers the metadata of its input onto it. */
module RecTools {
  import opened SketchModel
  import opened Metric
  import opened Geometry
  import opened Metadata
  import opened Resample

  /** The point loops shared by translate and the scalings: every point rebuilt as
      `{x, y, time}` through the map, every stroke as `{points}`. */
  method MapSketchStrokes(strokes: seq<Stroke>, t: Affine) returns (newStrokes: seq<Stroke>)
    ensures newStrokes == MapStrokes(strokes, t)
  {
    newStrokes := [];
    var i := 0;
    while i < |strokes|
      invariant 0 <= i <= |strokes|
      invariant newStrokes == MapStrokes(strokes[..i], t)
    {
      var points := strokes[i].points;
      var newPoints := [];
      var j := 0;
      while j < |points|
        invariant 0 <= j <= |points|
        invariant newPoints == MapCloud(points[..j], t)
      {
        var point := points[j];
        newPoints := newPoints + [BarePoint(t.At(X, point.x), t.At(Y, point.y), point.time)];
        j := j + 1;
      }
      assert points[..j] == points;
      newStrokes := newStrokes + [BareStroke(newPoints)];
      i := i + 1;
    }
    assert strokes[..i] == strokes;
  }

  /** Re-stamping changes no coordinate, so the box is unchanged. */
  lemma StampedBox(sketch: Sketch, original: Sketch, ids: IdSource)
    requires HasFirstPoint(original.strokes) && NoEmptyStroke(sketch.strokes) && sketch.strokes != []
    ensures HasFirstPoint(Stamped(sketch, original, ids).strokes)
    ensures BoxOf(Stamped(sketch, original, ids).strokes) == BoxOf(sketch.strokes)
  {
    var r := Stamped(sketch, original, ids);
    assert SameCoords(sketch.strokes, r.strokes);
    BoxIgnoresIds(sketch.strokes, r.strokes);
  }

  //// Translate

  /** The sketch `translate(sketch, x, y)` returns when there are strokes. */
  function Translated(sketch: Sketch, x: real, y: real, ids: IdSource): Sketch
    requires sketch.strokes != [] && NoEmptyStroke(sketch.strokes)
  {
    MapKeepsLayout(sketch.strokes, Shift(x, y));
    Stamped(BareSketch(MapStrokes(sketch.strokes, Shift(x, y))), sketch, ids)
  }

  /** `translate`: null for a sketch without strokes, otherwise every point moved by
      `(x, y)` and the metadata transferred. */
  method Translate(sketch: Sketch, x: real, y: real, ids: IdSource) returns (r: Option<Sketch>)
    requires NoEmptyStroke(sketch.strokes)
    ensures r.None? <==> sketch.strokes == []
    ensures r.Some? ==> sketch.strokes != [] && r.value == Translated(sketch, x, y, ids)
  {
    if sketch.strokes == [] {
      return None;
    }
    var newStrokes := MapSketchStrokes(sketch.strokes, Shift(x, y));
    MapKeepsLayout(sketch.strokes, Shift(x, y));
    var newSketch := TransferMetadata(BareSketch(newStrokes), sketch, ids);
    return Some(newSketch);
  }

  /** Translation keeps the stroke and point counts and the times, and moves every point by
      exactly `(x, y)`. */
  lemma TranslatedPoints(sketch: Sketch, x: real, y: real, ids: IdSource)
    requires sketch.strokes != [] && NoEmptyStroke(sketch.strokes)
    ensures var r := Translated(sketch, x, y, ids).strokes;
      && SameTimes(sketch.strokes, r)
      && forall i, j :: 0 <= i < |r| && 0 <= j < |r[i].points| ==>
           r[i].points[j].x == sketch.strokes[i].points[j].x + x &&
           r[i].points[j].y == sketch.strokes[i].points[j].y + y
  {
    var m := MapStrokes(sketch.strokes, Shift(x, y));
    MapKeepsLayout(sketch.strokes, Shift(x, y));
    var r := Translated(sketch, x, y, ids).strokes;
    assert SameCoords(m, r);
    forall i, j | 0 <= i < |r| && 0 <= j < |r[i].points|
      ensures r[i].points[j].x == sketch.strokes[i].points[j].x + x
      ensures r[i].points[j].y == sketch.strokes[i].points[j].y + y
    {
      assert m[i].points[j] == Shift(x, y).Apply(sketch.strokes[i].points[j]);
    }
  }

  /** Translation moves the box by `(x, y)` and keeps the canvas size. */
  lemma TranslatedBox(sketch: Sketch, x: real, y: real, ids: IdSource)
    requires NoEmptyStroke(sketch.strokes) && HasFirstPoint(sketch.strokes)
    ensures var r := Translated(sketch, x, y, ids);
      && HasFirstPoint(r.strokes)
      && BoxOf(r.strokes) == BoxOf(sketch.strokes).Mapped(Shift(x, y))
      && r.canvasWidth == sketch.canvasWidth && r.canvasHeight == sketch.canvasHeight
  {
    var m := MapStrokes(sketch.strokes, Shift(x, y));
    MapKeepsLayout(sketch.strokes, Shift(x, y));
    MapStrokesBox(sketch.strokes, Shift(x, y));
    StampedBox(BareSketch(m), sketch, ids);
  }

  /** Translating back by `(-x, -y)` restores every coordinate; counts and times were
      never changed. */
  lemma TranslateRoundTrip(sketch: Sketch, x: real, y: real, ids1: IdSource, ids2: IdSource)
    requires sketch.strokes != [] && NoEmptyStroke(sketch.strokes)
    ensures var there := Translated(sketch, x, y, ids1);
      && there.strokes != [] && NoEmptyStroke(there.strokes)
      && var back := Translated(there, -x, -y, ids2).strokes;
      && SameTimes(sketch.strokes, back) && SameCoords(sketch.strokes, back)
  {
    var there := Translated(sketch, x, y, ids1);
    TranslatedPoints(sketch, x, y, ids1);
    TranslatedPoints(there, -x, -y, ids2);
    ShiftBack(sketch.strokes, there.strokes, Translated(there, -x, -y, ids2).strokes, x, y);
  }

  /** Points moved by `(x, y)` and then by `(-x, -y)` are back where they were. */
  lemma ShiftBack(a: seq<Stroke>, b: seq<Stroke>, c: seq<Stroke>, x: real, y: real)
    requires SameTimes(a, b) && SameTimes(b, c)
    requires forall i, j :: 0 <= i < |b| && 0 <= j < |b[i].points| ==>
      b[i].points[j].x == a[i].points[j].x + x && b[i].points[j].y == a[i].points[j].y + y
    requires forall i, j :: 0 <= i < |c| && 0 <= j < |c[i].points| ==>
      c[i].points[j].x == b[i].points[j].x + -x && c[i].points[j].y == b[i].points[j].y + -y
    ensures SameTimes(a, c) && SameCoords(a, c)
  {
    SameTimesTrans(a, b, c);
    forall i, j | 0 <= i < |a| && 0 <= j < |a[i].points|
      ensures a[i].points[j].x == c[i].points[j].x && a[i].points[j].y == c[i].points[j].y
    {
      assert c[i].points[j].x == b[i].points[j].x + -x;
      assert b[i].points[j].x == a[i].points[j].x + x;
    }
  }

  //// Translate to the canvas centre or centroid

  /** Which point of the box `translateToCenter` / `translateToCentroid` moves. */
  datatype Anchor = BoxCenter | Centroid

  function AnchorX(b: Box, anchor: Anchor): real { if anchor == BoxCenter then b.centerX else b.centroidX }
  function AnchorY(b: Box, anchor: Anchor): real { if anchor == BoxCenter then b.centerY else b.centroidY }

  /** The sketch is moved so that the anchor lands on the middle of the canvas; the
      translation and the final transfer each stamp it, and the final stamp wins. */
  function Recentred(sketch: Sketch, anchor: Anchor, ids: IdSource): Sketch
    requires NoEmptyStroke(sketch.strokes) && HasFirstPoint(sketch.strokes)
    requires sketch.canvasWidth.Some? && sketch.canvasHeight.Some?
  {
    var b := BoxOf(sketch.strokes);
    var dx := sketch.canvasWidth.value / 2.0 - AnchorX(b, anchor);
    var dy := sketch.canvasHeight.value / 2.0 - AnchorY(b, anchor);
    Translated(sketch, dx, dy, ids)
  }

  /** `translateToCenter` (anchor `BoxCenter`) and `translateToCentroid` (anchor `Centroid`).
      The canvas size must be present: half of an absent size is NaN. */
  method TranslateToAnchor(sketch: Sketch, anchor: Anchor, ids1: IdSource, ids2: IdSource)
    returns (newSketch: Sketch)
    requires NoEmptyStroke(sketch.strokes) && HasFirstPoint(sketch.strokes)
    requires sketch.canvasWidth.Some? && sketch.canvasHeight.Some?
    ensures newSketch == Recentred(sketch, anchor, ids2)
  {
    var clone := sketch;
    var box := CalculateBoundingBox(sketch);
    var boxX := AnchorX(box.value, anchor);
    var boxY := AnchorY(box.value, anchor);
    var canvasX := sketch.canvasWidth.value / 2.0;
    var canvasY := sketch.canvasHeight.value / 2.0;
    var moved := Translate(clone, canvasX - boxX, canvasY - boxY, ids1);
    RestampedTranslation(sketch, canvasX - boxX, canvasY - boxY, ids1, ids2);
    newSketch := TransferMetadata(moved.value, sketch, ids2);
    RecentredByShift(sketch, anchor, ids2, box.value, newSketch);
  }

  /** `Recentred` is the translation by the gap from the anchor of box `b` to the middle of
      the canvas, when `b` is the box of the sketch. */
  lemma RecentredByShift(sketch: Sketch, anchor: Anchor, ids: IdSource, b: Box, r: Sketch)
    requires NoEmptyStroke(sketch.strokes) && HasFirstPoint(sketch.strokes)
    requires sketch.canvasWidth.Some? && sketch.canvasHeight.Some? && b == BoxOf(sketch.strokes)
    requires r == Translated(sketch, sketch.canvasWidth.value / 2.0 - AnchorX(b, anchor),
                             sketch.canvasHeight.value / 2.0 - AnchorY(b, anchor), ids)
    ensures r == Recentred(sketch, anchor, ids)
  {
  }

  /** The transfer after a `translate` overwrites the stamps the translation made. */
  lemma RestampedTranslation(sketch: Sketch, x: real, y: real, ids1: IdSource, ids2: IdSource)
    requires NoEmptyStroke(sketch.strokes) && HasFirstPoint(sketch.strokes)
    ensures NoEmptyStroke(Translated(sketch, x, y, ids1).strokes)
    ensures Stamped(Translated(sketch, x, y, ids1), sketch, ids2) == Translated(sketch, x, y, ids2)
  {
    MapKeepsLayout(sketch.strokes, Shift(x, y));
    StampTwice(BareSketch(MapStrokes(sketch.strokes, Shift(x, y))), sketch, sketch, ids1, ids2);
  }

  /** After the move the chosen anchor of the box is the middle of the canvas, and the rest
      of the box moved with it. */
  lemma RecentredAnchor(sketch: Sketch, anchor: Anchor, ids: IdSource)
    requires NoEmptyStroke(sketch.strokes) && HasFirstPoint(sketch.strokes)
    requires sketch.canvasWidth.Some? && sketch.canvasHeight.Some?
    ensures var r := Recentred(sketch, anchor, ids);
      && HasFirstPoint(r.strokes)
      && AnchorX(BoxOf(r.strokes), anchor) == sketch.canvasWidth.value / 2.0
      && AnchorY(BoxOf(r.strokes), anchor) == sketch.canvasHeight.value / 2.0
      && BoxOf(r.strokes).width == BoxOf(sketch.strokes).width
      && BoxOf(r.strokes).height == BoxOf(sketch.strokes).height
      && r.canvasWidth == sketch.canvasWidth && r.canvasHeight == sketch.canvasHeight
  {
    RecentredBox(sketch, anchor, ids);
    AnchorMoved(BoxOf(sketch.strokes), anchor, sketch.canvasWidth.value / 2.0, sketch.canvasHeight.value / 2.0);
  }

  /** The box after the move is the box before it, shifted by the move. */
  lemma RecentredBox(sketch: Sketch, anchor: Anchor, ids: IdSource)
    requires NoEmptyStroke(sketch.strokes) && HasFirstPoint(sketch.strokes)
    requires sketch.canvasWidth.Some? && sketch.canvasHeight.Some?
    ensures var r, b := Recentred(sketch, anchor, ids), BoxOf(sketch.strokes);
      && HasFirstPoint(r.strokes)
      && BoxOf(r.strokes) == b.Mapped(Shift(sketch.canvasWidth.value / 2.0 - AnchorX(b, anchor),
                                            sketch.canvasHeight.value / 2.0 - AnchorY(b, anchor)))
      && r.canvasWidth == sketch.canvasWidth && r.canvasHeight == sketch.canvasHeight
  {
    var b := BoxOf(sketch.strokes);
    TranslatedBox(sketch, sketch.canvasWidth.value / 2.0 - AnchorX(b, anchor),
                  sketch.canvasHeight.value / 2.0 - AnchorY(b, anchor), ids);
  }

  /** Shifting a box by the gap from its anchor to `(x, y)` puts the anchor on `(x, y)` and
      keeps the extents. */
  lemma AnchorMoved(b: Box, anchor: Anchor, x: real, y: real)
    ensures var m := b.Mapped(Shift(x - AnchorX(b, anchor), y - AnchorY(b, anchor)));
      && AnchorX(m, anchor) == x && AnchorY(m, anchor) == y
      && m.width == b.width && m.height == b.height
  {
    ShiftedBox(b, x - AnchorX(b, anchor), y - AnchorY(b, anchor));
  }

  /** A shifted box: positions move by the shift, extents stay. */
  lemma ShiftedBox(b: Box, dx: real, dy: real)
    ensures var m := b.Mapped(Shift(dx, dy));
      && m.centerX == b.centerX + dx && m.centerY == b.centerY + dy
      && m.centroidX == b.centroidX + dx && m.centroidY == b.centroidY + dy
      && m.width == b.width && m.height == b.height
  {
  }

  //// Scaling

  /** The least coordinate on one axis, scanning from `seed`. */
  function Least(c: seq<Point>, a: Axis, seed: real): real {
    if c == [] then seed else Min(Least(c[..|c| - 1], a, seed), Coord(c[|c| - 1], a))
  }

  /** Scanning from a seed finds the smaller of the seed and the true minimum. */
  lemma {:induction false} LeastIsMin(c: seq<Point>, a: Axis, seed: real)
    requires c != []
    ensures Least(c, a, seed) == Min(seed, Lo(c, a))
  {
    if |c| > 1 {
      LeastIsMin(c[..|c| - 1], a, seed);
    }
  }

  /** The offset loop of `scaleProportional`: the least x and the least y over all points,
      starting from `Number.MAX_SAFE_INTEGER`. */
  method ScanOffsets(strokes: seq<Stroke>) returns (xOffset: real, yOffset: real)
    ensures xOffset == Least(Cloud(strokes), X, MaxSafe)
    ensures yOffset == Least(Cloud(strokes), Y, MaxSafe)
  {
    xOffset, yOffset := MaxSafe, MaxSafe;
    var i := 0;
    while i < |strokes|
      invariant 0 <= i <= |strokes|
      invariant xOffset == Least(Cloud(strokes[..i]), X, MaxSafe)
      invariant yOffset == Least(Cloud(strokes[..i]), Y, MaxSafe)
    {
      var points := strokes[i].points;
      ghost var seen := Cloud(strokes[..i]);
      var j := 0;
      assert seen + points[..0] == seen;
      while j < |points|
        invariant 0 <= j <= |points|
        invariant xOffset == Least(seen + points[..j], X, MaxSafe)
        invariant yOffset == Least(seen + points[..j], Y, MaxSafe)
      {
        var point := points[j];
        assert seen + points[..j + 1] == (seen + points[..j]) + [point];
        LeastSnoc(seen + points[..j], point, X, MaxSafe);
        LeastSnoc(seen + points[..j], point, Y, MaxSafe);
        if point.x < xOffset { xOffset := point.x; }
        if point.y < yOffset { yOffset := point.y; }
        j := j + 1;
      }
      assert points[..j] == points;
      CloudSnoc(strokes, i);
      i := i + 1;
    }
    assert strokes[..i] == strokes;
  }

  lemma LeastSnoc(c: seq<Point>, p: Point, a: Axis, seed: real)
    ensures Least(c + [p], a, seed) == Min(Least(c, a, seed), Coord(p, a))
  {
    assert (c + [p])[..|c|] == c;
  }

  /** Scaling by `s` about the pivot `(px, py)`: `((x - px) * s) + px`, the same for y. */
  function About(s: real, px: real, py: real): Affine { Affine(s, px - s * px, s, py - s * py) }

  lemma AboutIsPivotScaling(s: real, px: real, py: real, p: Point)
    ensures About(s, px, py).Apply(p) == BarePoint(((p.x - px) * s) + px, ((p.y - py) * s) + py, p.time)
  {
    assert s * p.x + (px - s * px) == ((p.x - px) * s) + px;
    assert s * p.y + (py - s * py) == ((p.y - py) * s) + py;
  }

  /** The factor `scaleProportional` uses: the size over the height or over the width. */
  function ProportionalFactor(b: Box, size: real, isVertical: bool): real
    requires if isVertical then b.height != 0.0 else b.width != 0.0
  {
    if isVertical then size / b.height else size / b.width
  }

  /** The scaled strokes moved so that their box centre is the original box centre, then
      stamped. The move is a `translate`, which stamps too, but the final transfer
      overwrites every stamp (`StampTwice`). */
  function Recentring(sketch: Sketch, scaled: seq<Stroke>, ids: IdSource): Sketch
    requires NoEmptyStroke(sketch.strokes) && HasFirstPoint(sketch.strokes)
    requires NoEmptyStroke(scaled) && HasFirstPoint(scaled)
  {
    Stamped(BareSketch(CentredOn(BoxOf(sketch.strokes), scaled)), sketch, ids)
  }

  /** The strokes shifted by the gap between the centres of their box and of `b`. */
  function CentredOn(b: Box, scaled: seq<Stroke>): (m: seq<Stroke>)
    requires NoEmptyStroke(scaled) && HasFirstPoint(scaled)
    ensures NoEmptyStroke(m)
  {
    var nb := BoxOf(scaled);
    MapKeepsLayout(scaled, Shift(b.centerX - nb.centerX, b.centerY - nb.centerY));
    MapStrokes(scaled, Shift(b.centerX - nb.centerX, b.centerY - nb.centerY))
  }

  /** The relocation and transfer ending both scalings. */
  method RelocateToCentre(sketch: Sketch, newStrokes: seq<Stroke>, ids1: IdSource, ids2: IdSource)
    returns (newSketch: Sketch)
    requires NoEmptyStroke(sketch.strokes) && HasFirstPoint(sketch.strokes)
    requires NoEmptyStroke(newStrokes) && HasFirstPoint(newStrokes)
    ensures newSketch == Recentring(sketch, newStrokes, ids2)
  {
    var box := CalculateBoundingBox(sketch);
    newSketch := BareSketch(newStrokes);
    var newBox := CalculateBoundingBox(newSketch);
    var moveX := box.value.centerX - newBox.value.centerX;
    var moveY := box.value.centerY - newBox.value.centerY;
    var moved := Translate(newSketch, moveX, moveY, ids1);
    RestampedRecentring(sketch, newStrokes, ids1, ids2);
    newSketch := TransferMetadata(moved.value, sketch, ids2);
  }

  /** The transfer after the centring `translate` overwrites the stamps it made. */
  lemma RestampedRecentring(sketch: Sketch, scaled: seq<Stroke>, ids1: IdSource, ids2: IdSource)
    requires NoEmptyStroke(sketch.strokes) && HasFirstPoint(sketch.strokes)
    requires NoEmptyStroke(scaled) && HasFirstPoint(scaled)
    ensures var b, nb := BoxOf(sketch.strokes), BoxOf(scaled);
      var moved := Translated(BareSketch(scaled), b.centerX - nb.centerX, b.centerY - nb.centerY, ids1);
      && NoEmptyStroke(moved.strokes)
      && Stamped(moved, sketch, ids2) == Recentring(sketch, scaled, ids2)
  {
    var b := BoxOf(sketch.strokes);
    var bare := BareSketch(CentredOn(b, scaled));
    StampTwice(bare, BareSketch(scaled), sketch, ids1, ids2);
  }

  /** Scale the points by `t`, then recentre: the shape shared by both scalings. */
  function ScaledThenCentred(sketch: Sketch, t: Affine, ids: IdSource): Sketch
    requires NoEmptyStroke(sketch.strokes) && HasFirstPoint(sketch.strokes)
  {
    MapKeepsLayout(sketch.strokes, t);
    Recentring(sketch, MapStrokes(sketch.strokes, t), ids)
  }

  /** Recentring keeps the layout and the times and the extents of the scaled strokes, and
      puts their box centre on the original box centre. */
  lemma RecentringSpec(sketch: Sketch, scaled: seq<Stroke>, ids: IdSource)
    requires NoEmptyStroke(sketch.strokes) && HasFirstPoint(sketch.strokes)
    requires NoEmptyStroke(scaled) && HasFirstPoint(scaled)
    ensures var r, b, nb := Recentring(sketch, scaled, ids).strokes, BoxOf(sketch.strokes), BoxOf(scaled);
      && SameTimes(scaled, r) && HasFirstPoint(r)
      && BoxOf(r).centerX == b.centerX && BoxOf(r).centerY == b.centerY
      && BoxOf(r).width == nb.width && BoxOf(r).height == nb.height
  {
    var b := BoxOf(sketch.strokes);
    MovedToCentre(b, scaled);
    StampedMove(scaled, CentredOn(b, scaled), sketch, ids);
  }

  /** Shifting the strokes by the gap between the centres of their box and of `b` puts
      their box centre on that of `b` and keeps the extents. */
  lemma MovedToCentre(b: Box, scaled: seq<Stroke>)
    requires NoEmptyStroke(scaled) && HasFirstPoint(scaled)
    ensures var nb, m := BoxOf(scaled), CentredOn(b, scaled);
      && NoEmptyStroke(m) && HasFirstPoint(m) && SameTimes(scaled, m)
      && BoxOf(m).centerX == b.centerX && BoxOf(m).centerY == b.centerY
      && BoxOf(m).width == nb.width && BoxOf(m).height == nb.height
  {
    var nb := BoxOf(scaled);
    ShiftedStrokes(scaled, b.centerX - nb.centerX, b.centerY - nb.centerY);
  }

  /** Shifted strokes keep their layout; their box moves by the shift and keeps its
      extents. */
  lemma ShiftedStrokes(strokes: seq<Stroke>, dx: real, dy: real)
    requires NoEmptyStroke(strokes) && HasFirstPoint(strokes)
    ensures var m := MapStrokes(strokes, Shift(dx, dy));
      && NoEmptyStroke(m) && HasFirstPoint(m) && SameTimes(strokes, m)
      && BoxOf(m).centerX == BoxOf(strokes).centerX + dx
      && BoxOf(m).centerY == BoxOf(strokes).centerY + dy
      && BoxOf(m).width == BoxOf(strokes).width && BoxOf(m).height == BoxOf(strokes).height
  {
    MapKeepsLayout(strokes, Shift(dx, dy));
    MapStrokesBox(strokes, Shift(dx, dy));
    ShiftedBox(BoxOf(strokes), dx, dy);
  }

  /** Stamping strokes that were moved from `from` keeps the layout of `from` and the box
      of the moved strokes. */
  lemma StampedMove(from: seq<Stroke>, moved: seq<Stroke>, original: Sketch, ids: IdSource)
    requires HasFirstPoint(original.strokes)
    requires NoEmptyStroke(moved) && HasFirstPoint(moved) && SameTimes(from, moved)
    ensures var r := Stamped(BareSketch(moved), original, ids).strokes;
      SameTimes(from, r) && HasFirstPoint(r) && BoxOf(r) == BoxOf(moved)
  {
    StampedBox(BareSketch(moved), original, ids);
    SameTimesTrans(from, moved, Stamped(BareSketch(moved), original, ids).strokes);
  }

  /** Whatever the (order-preserving) scaling, the result keeps the layout and the times,
      its box centre is the original box centre, and its extents are the scaled extents. */
  lemma ScaledThenCentredSpec(sketch: Sketch, t: Affine, ids: IdSource)
    requires NoEmptyStroke(sketch.strokes) && HasFirstPoint(sketch.strokes) && t.Monotone()
    ensures var r, b := ScaledThenCentred(sketch, t, ids).strokes, BoxOf(sketch.strokes);
      && SameTimes(sketch.strokes, r) && HasFirstPoint(r)
      && BoxOf(r).centerX == b.centerX && BoxOf(r).centerY == b.centerY
      && BoxOf(r).width == t.Stretch(X, b.width) && BoxOf(r).height == t.Stretch(Y, b.height)
  {
    var scaled := MapStrokes(sketch.strokes, t);
    MapKeepsLayout(sketch.strokes, t);
    MapStrokesBox(sketch.strokes, t);
    RecentringSpec(sketch, scaled, ids);
    SameTimesTrans(sketch.strokes, scaled, ScaledThenCentred(sketch, t, ids).strokes);
  }

  /** The result of `scaleProportional`; the pivot is found by the offset scan. */
  function ScaledProportional(sketch: Sketch, size: real, isVertical: bool, ids: IdSource): Sketch
    requires NoEmptyStroke(sketch.strokes) && HasFirstPoint(sketch.strokes)
    requires var b := BoxOf(sketch.strokes); if isVertical then b.height != 0.0 else b.width != 0.0
  {
    var c := Cloud(sketch.strokes);
    var s := ProportionalFactor(BoxOf(sketch.strokes), size, isVertical);
    ScaledThenCentred(sketch, About(s, Least(c, X, MaxSafe), Least(c, Y, MaxSafe)), ids)
  }

  /** `scaleProportional(sketch, size, isVertical)`. The box extent the factor divides by
      must not be zero. */
  method ScaleProportional(sketch: Sketch, size: real, isVertical: bool, ids1: IdSource, ids2: IdSource)
    returns (newSketch: Sketch)
    requires NoEmptyStroke(sketch.strokes) && HasFirstPoint(sketch.strokes)
    requires var b := BoxOf(sketch.strokes); if isVertical then b.height != 0.0 else b.width != 0.0
    ensures newSketch == ScaledProportional(sketch, size, isVertical, ids2)
  {
    var box := CalculateBoundingBox(sketch);
    var scale := if isVertical then size / box.value.height else size / box.value.width;
    var xOffset, yOffset := ScanOffsets(sketch.strokes);
    var t := About(scale, xOffset, yOffset);
    var newStrokes := MapSketchStrokes(sketch.strokes, t);
    MapKeepsLayout(sketch.strokes, t);
    newSketch := RelocateToCentre(sketch, newStrokes, ids1, ids2);
  }

  /** The offset scan finds the box minimum: every coordinate is below the sentinel in
      practice, and the sentinel only matters beyond it. */
  lemma OffsetsAreBoxMinimum(strokes: seq<Stroke>)
    requires HasFirstPoint(strokes)
    ensures Least(Cloud(strokes), X, MaxSafe) == Min(MaxSafe, BoxOf(strokes).minX)
    ensures Least(Cloud(strokes), Y, MaxSafe) == Min(MaxSafe, BoxOf(strokes).minY)
  {
    CloudStartsWithFirstPoint(strokes);
    LeastIsMin(Cloud(strokes), X, MaxSafe);
    LeastIsMin(Cloud(strokes), Y, MaxSafe);
  }

  /** The box after `scaleProportional`: the same centre, the chosen extent equal to
      `size`, the other extent scaled by the same factor. */
  predicate ProportionalBox(before: Box, after: Box, size: real, isVertical: bool)
    requires if isVertical then before.height != 0.0 else before.width != 0.0
  {
    && after.centerX == before.centerX && after.centerY == before.centerY
    && (isVertical ==> after.height == size && after.width == size / before.height * before.width)
    && (!isVertical ==> after.width == size && after.height == size / before.width * before.height)
  }

  /** `scaleProportional` with a positive size: the chosen extent becomes `size`, the other
      scales by the same factor, the box centre stays, counts and times are kept. */
  lemma ScaledProportionalSpec(sketch: Sketch, size: real, isVertical: bool, ids: IdSource)
    requires NoEmptyStroke(sketch.strokes) && HasFirstPoint(sketch.strokes) && size > 0.0
    requires var b := BoxOf(sketch.strokes); if isVertical then b.height != 0.0 else b.width != 0.0
    ensures SameTimes(sketch.strokes, ScaledProportional(sketch, size, isVertical, ids).strokes)
    ensures HasFirstPoint(ScaledProportional(sketch, size, isVertical, ids).strokes)
    ensures ProportionalBox(BoxOf(sketch.strokes), BoxOf(ScaledProportional(sketch, size, isVertical, ids).strokes),
      size, isVertical)
  {
    var c := Cloud(sketch.strokes);
    var b := BoxOf(sketch.strokes);
    CloudStartsWithFirstPoint(sketch.strokes);
    BoxBounds(c);
    var t := About(ProportionalFactor(b, size, isVertical), Least(c, X, MaxSafe), Least(c, Y, MaxSafe));
    ScaledThenCentredSpec(sketch, t, ids);
    var r := ScaledProportional(sketch, size, isVertical, ids);
    assert r == ScaledThenCentred(sketch, t, ids);
    ProportionalStretch(b, BoxOf(r.strokes), size, isVertical, t);
  }

  /** A box whose extents are stretched by the proportional factor, centred like the
      original, is the proportional box. */
  lemma ProportionalStretch(b: Box, nb: Box, size: real, isVertical: bool, t: Affine)
    requires size > 0.0 && b.width >= 0.0 && b.height >= 0.0
    requires if isVertical then b.height != 0.0 else b.width != 0.0
    requires t.kx == t.ky == ProportionalFactor(b, size, isVertical)
    requires nb.centerX == b.centerX && nb.centerY == b.centerY
    requires nb.width == t.Stretch(X, b.width) && nb.height == t.Stretch(Y, b.height)
    ensures ProportionalBox(b, nb, size, isVertical)
  {
    if isVertical { Ratio(size, b.height); } else { Ratio(size, b.width); }
  }

  /** A positive size over a positive extent, times that extent, is the size. */
  lemma Ratio(size: real, extent: real)
    requires size > 0.0 && extent > 0.0
    ensures size / extent > 0.0 && size / extent * extent == size
  {
  }

  //// Square scaling

  /** The map of `scaleSquare`: each axis divided by its own extent and times `size`. */
  function SquareMap(b: Box, size: real): Affine
    requires b.width != 0.0 && b.height != 0.0
  {
    Affine(size / b.width, 0.0, size / b.height, 0.0)
  }

  lemma SquareMapIsSource(b: Box, size: real, p: Point)
    requires b.width != 0.0 && b.height != 0.0
    ensures SquareMap(b, size).Apply(p) == BarePoint(p.x * size / b.width, p.y * size / b.height, p.time)
  {
  }

  /** The result of `scaleSquare`. */
  function ScaledSquare(sketch: Sketch, size: real, ids: IdSource): Sketch
    requires NoEmptyStroke(sketch.strokes) && HasFirstPoint(sketch.strokes)
    requires BoxOf(sketch.strokes).width != 0.0 && BoxOf(sketch.strokes).height != 0.0
  {
    ScaledThenCentred(sketch, SquareMap(BoxOf(sketch.strokes), size), ids)
  }

  /** `scaleSquare(sketch, size)`. Both extents are divided by, so neither may be zero. */
  method ScaleSquare(sketch: Sketch, size: real, ids1: IdSource, ids2: IdSource) returns (newSketch: Sketch)
    requires NoEmptyStroke(sketch.strokes) && HasFirstPoint(sketch.strokes)
    requires BoxOf(sketch.strokes).width != 0.0 && BoxOf(sketch.strokes).height != 0.0
    ensures newSketch == ScaledSquare(sketch, size, ids2)
  {
    var box := CalculateBoundingBox(sketch);
    var t := SquareMap(box.value, size);
    var newStrokes := MapSketchStrokes(sketch.strokes, t);
    MapKeepsLayout(sketch.strokes, t);
    newSketch := RelocateToCentre(sketch, newStrokes, ids1, ids2);
  }

  /** The box after `scaleSquare`: the same centre, both extents equal to `size`. */
  predicate SquareBox(before: Box, after: Box, size: real) {
    && after.centerX == before.centerX && after.centerY == before.centerY
    && after.width == size && after.height == size
  }

  /** `scaleSquare` with a positive size makes the box a `size` square around the original
      centre and keeps counts and times. */
  lemma ScaledSquareSpec(sketch: Sketch, size: real, ids: IdSource)
    requires NoEmptyStroke(sketch.strokes) && HasFirstPoint(sketch.strokes) && size > 0.0
    requires BoxOf(sketch.strokes).width != 0.0 && BoxOf(sketch.strokes).height != 0.0
    ensures SameTimes(sketch.strokes, ScaledSquare(sketch, size, ids).strokes)
    ensures HasFirstPoint(ScaledSquare(sketch, size, ids).strokes)
    ensures SquareBox(BoxOf(sketch.strokes), BoxOf(ScaledSquare(sketch, size, ids).strokes), size)
  {
    var b := BoxOf(sketch.strokes);
    CloudStartsWithFirstPoint(sketch.strokes);
    BoxBounds(Cloud(sketch.strokes));
    var t := SquareMap(b, size);
    Ratio(size, b.width);
    Ratio(size, b.height);
    ScaledThenCentredSpec(sketch, t, ids);
    var r := ScaledSquare(sketch, size, ids);
    assert r == ScaledThenCentred(sketch, t, ids);
    SquareStretch(b, BoxOf(r.strokes), size, t);
  }

  lemma SquareStretch(b: Box, nb: Box, size: real, t: Affine)
    requires size > 0.0 && b.width > 0.0 && b.height > 0.0
    requires t == SquareMap(b, size)
    requires nb.centerX == b.centerX && nb.centerY == b.centerY
    requires nb.width == t.Stretch(X, b.width) && nb.height == t.Stretch(Y, b.height)
    ensures SquareBox(b, nb, size)
  {
    Ratio(size, b.width);
    Ratio(size, b.height);
  }

  //// Resampling by count or by distance

  /** The spacing `resampleByCount` derives: the path length over `n - 1`. */
  function CountSpacing(strokes: seq<Stroke>, n: int, dist: Distance): real
    requires n != 1
  {
    PathLength(strokes, dist) / (n - 1) as real
  }

  /** `resampleByCount(sketch, n)`. `n = 1` divides by zero; the spacing must allow the
      resampling loop to run (see `Resamplable`). */
  method ResampleByCount(sketch: Sketch, n: int, dist: Distance, ids: IdSource) returns (newSketch: Sketch)
    requires HasFirstPoint(sketch.strokes) && IsMetric(dist) && n != 1
    requires Resamplable(sketch.strokes, CountSpacing(sketch.strokes, n, dist))
    ensures newSketch == Stamped(BareSketch(ResampledStrokes(sketch.strokes, CountSpacing(sketch.strokes, n, dist), dist)), sketch, ids)
  {
    var length := CalculatePathLength(sketch, dist);
    var S := length / (n - 1) as real;
    newSketch := ResampleSketch(sketch, S, dist, ids);
  }

  /** `resampleByDistance(sketch, S)`: an absent spacing defaults to the box diagonal / 40. */
  function DistanceSpacing(strokes: seq<Stroke>, S: Option<real>, dist: Distance): (r: real)
    requires HasFirstPoint(strokes)
    ensures S.Some? ==> r == S.value
    ensures S.None? && IsMetric(dist) ==> r >= 0.0
  {
    if S.None? then
      CloudStartsWithFirstPoint(strokes);
      BoxBounds(Cloud(strokes));
      Spacing(strokes, dist)
    else S.value
  }

  method ResampleByDistance(sketch: Sketch, S: Option<real>, dist: Distance, ids: IdSource)
    returns (newSketch: Sketch)
    requires HasFirstPoint(sketch.strokes) && IsMetric(dist)
    requires Resamplable(sketch.strokes, DistanceSpacing(sketch.strokes, S, dist))
    ensures newSketch == Stamped(BareSketch(ResampledStrokes(sketch.strokes, DistanceSpacing(sketch.strokes, S, dist), dist)), sketch, ids)
  {
    var spacing: real;
    if S.None? {
      spacing := DetermineResampleSpacing(sketch, dist);
    } else {
      spacing := S.value;
    }
    newSketch := ResampleSketch(sketch, spacing, dist, ids);
  }

  /** `resampleByCount(sketch, n)` with `n >= 2` over a path of positive length gives between
      `n` and `n + k - 1` points for `k` strokes, so exactly `n` for a single stroke: every
      stroke loses at most one point to the rounding down. */
  lemma ResampledByCountSize(sketch: Sketch, n: int, dist: Distance, ids: IdSource)
    requires HasFirstPoint(sketch.strokes) && NoEmptyStroke(sketch.strokes) && IsMetric(dist)
    requires n >= 2 && PathLength(sketch.strokes, dist) > 0.0
    ensures CountSpacing(sketch.strokes, n, dist) > 0.0
    ensures var r := Stamped(BareSketch(ResampledStrokes(sketch.strokes, CountSpacing(sketch.strokes, n, dist), dist)), sketch, ids);
      && n <= PointCount(r.strokes) <= n + |sketch.strokes| - 1
      && (|sketch.strokes| == 1 ==> PointCount(r.strokes) == n)
  {
    var L := PathLength(sketch.strokes, dist);
    var S := CountSpacing(sketch.strokes, n, dist);
    SpacingPositive(L, n - 1);
    var rs := ResampledStrokes(sketch.strokes, S, dist);
    ResampledTotal(sketch.strokes, S, dist);
    CountBounds(L, S, n - 1, PointCount(rs) - |sketch.strokes|, |sketch.strokes|);
    var r := Stamped(BareSketch(rs), sketch, ids);
    SameLayoutPointCount(rs, r.strokes);
  }

  lemma SpacingPositive(L: real, m: int)
    requires L > 0.0 && m >= 1
    ensures L / m as real > 0.0
  {
  }

  /** With `S = L / m`, the extra points lie in `(m - k, m]`. */
  lemma CountBounds(L: real, S: real, m: int, extra: int, k: int)
    requires L > 0.0 && m >= 1 && S == L / m as real
    requires L / S - k as real < extra as real <= L / S
    ensures m - k + 1 <= extra <= m
  {
    assert L / S == m as real;
  }

  //// Spreadsheet export

  /** One point as a line `x<TAB>y`; `show` is the number-to-text conversion of `"" + x`. */
  function PointRow(p: Point, show: real -> string): string { show(p.x) + "\t" + show(p.y) }

  function Rows(ps: seq<Point>, show: real -> string): (r: seq<string>)
    ensures |r| == |ps|
  {
    seq(|ps|, j requires 0 <= j < |ps| => PointRow(ps[j], show))
  }

  /** The lines of `convertSketchToSpreadsheet`: each stroke's point lines followed by an
      empty line. */
  function Spreadsheet(strokes: seq<Stroke>, show: real -> string): seq<string> {
    if strokes == [] then []
    else Spreadsheet(strokes[..|strokes| - 1], show) + Rows(strokes[|strokes| - 1].points, show) + [""]
  }

  method ConvertSketchToSpreadsheet(sketch: Sketch, show: real -> string) returns (lines: seq<string>)
    ensures lines == Spreadsheet(sketch.strokes, show)
  {
    lines := [];
    var strokes := sketch.strokes;
    var i := 0;
    while i < |strokes|
      invariant 0 <= i <= |strokes|
      invariant lines == Spreadsheet(strokes[..i], show)
    {
      var points := strokes[i].points;
      var j := 0;
      while j < |points|
        invariant 0 <= j <= |points|
        invariant lines == Spreadsheet(strokes[..i], show) + Rows(points[..j], show)
      {
        lines := lines + [PointRow(points[j], show)];
        j := j + 1;
      }
      assert points[..j] == points;
      lines := lines + [""];
      assert strokes[..i + 1][..i] == strokes[..i];
      i := i + 1;
    }
    assert strokes[..i] == strokes;
  }

  /** One line per point and one per stroke. */
  lemma {:induction false} SpreadsheetLength(strokes: seq<Stroke>, show: real -> string)
    ensures |Spreadsheet(strokes, show)| == PointCount(strokes) + |strokes|
  {
    if strokes != [] {
      var init, last := strokes[..|strokes| - 1], strokes[|strokes| - 1];
      SpreadsheetLength(init, show);
      assert init + [last] == strokes;
      PointCountAppend(init, [last]);
    }
  }

  /** The non-empty lines. */
  function NonBlank(lines: seq<string>): (r: seq<string>)
    ensures |r| <= |lines|
  {
    if lines == [] then []
    else NonBlank(lines[..|lines| - 1]) + if lines[|lines| - 1] == "" then [] else [lines[|lines| - 1]]
  }

  lemma {:induction false} NonBlankAppend(a: seq<string>, b: seq<string>)
    ensures NonBlank(a + b) == NonBlank(a) + NonBlank(b)
  {
    if b != [] {
      assert (a + b)[..|a + b| - 1] == a + b[..|b| - 1];
      NonBlankAppend(a, b[..|b| - 1]);
    } else {
      assert a + b == a;
    }
  }

  /** A point line holds a tab, so it is never empty. */
  lemma {:induction false} NonBlankRows(ps: seq<Point>, show: real -> string)
    ensures NonBlank(Rows(ps, show)) == Rows(ps, show)
  {
    if ps != [] {
      var init := ps[..|ps| - 1];
      assert Rows(ps, show)[..|ps| - 1] == Rows(init, show);
      NonBlankRows(init, show);
      assert PointRow(ps[|ps| - 1], show)[|show(ps[|ps| - 1].x)|] == '\t';
    }
  }

  /** Dropping the empty lines leaves exactly one line per point of the cloud, in cloud
      order: the empty lines only mark where strokes end. */
  lemma {:induction false} SpreadsheetRows(strokes: seq<Stroke>, show: real -> string)
    ensures NonBlank(Spreadsheet(strokes, show)) == Rows(Cloud(strokes), show)
  {
    if strokes != [] {
      var init, last := strokes[..|strokes| - 1], strokes[|strokes| - 1];
      SpreadsheetRows(init, show);
      NonBlankRows(last.points, show);
      NonBlankStroke(Spreadsheet(init, show), Rows(last.points, show));
      assert init + [last] == strokes;
      CloudAppend(init, [last]);
      assert Cloud([last]) == last.points;
      RowsAppend(Cloud(init), last.points, show);
    }
  }

  /** A stroke's lines, none of them empty, followed by the empty separator line. */
  lemma NonBlankStroke(prev: seq<string>, rows: seq<string>)
    requires NonBlank(rows) == rows
    ensures NonBlank(prev + rows + [""]) == NonBlank(prev) + rows
  {
    NonBlankAppend(prev + rows, [""]);
    NonBlankAppend(prev, rows);
  }

  lemma RowsAppend(a: seq<Point>, b: seq<Point>, show: real -> string)
    ensures Rows(a + b, show) == Rows(a, show) + Rows(b, show)
  {
  }
}
