/** `transferMetadata`: every normalisation stage of the library builds a bare
    `{strokes: [{points: [{x, y, time}]}]}` sketch and then re-stamps it from the sketch it
    came from: fresh ids everywhere, the original's first point time on the sketch, each
    stroke's own first point time on the stroke, and domain, shapes and canvas size copied. */
module Metadata {
  import opened SketchModel

  /** The points of stroke `i` with fresh ids and nothing else changed. */
  function StampedPoints(ps: seq<Point>, i: nat, ids: IdSource): (r: seq<Point>)
    ensures |r| == |ps|
  {
    seq(|ps|, j requires 0 <= j < |ps| => ps[j].(id := Some(ids.point(i, j))))
  }

  /** Stroke `i` re-stamped: a fresh id and the time of its first point. */
  function StampedStroke(s: Stroke, i: nat, ids: IdSource): Stroke
    requires s.points != []
  {
    Stroke(Some(ids.stroke(i)), s.points[0].time, StampedPoints(s.points, i, ids))
  }

  function StampedStrokes(strokes: seq<Stroke>, ids: IdSource): (r: seq<Stroke>)
    requires NoEmptyStroke(strokes)
    ensures |r| == |strokes|
  {
    seq(|strokes|, i requires 0 <= i < |strokes| => StampedStroke(strokes[i], i, ids))
  }

  /** The sketch after `transferMetadata(sketch, original)`: the geometry and the point
      times are untouched, every element gets an id, stroke times are first-point times, and
      the sketch-level fields come from the original. Substrokes are not touched. */
  function Stamped(sketch: Sketch, original: Sketch, ids: IdSource): (r: Sketch)
    requires HasFirstPoint(original.strokes) && NoEmptyStroke(sketch.strokes)
    ensures SameTimes(sketch.strokes, r.strokes) && SameCoords(sketch.strokes, r.strokes)
    ensures NoEmptyStroke(r.strokes) && FullyIdentified(r.strokes)
    ensures forall i :: 0 <= i < |r.strokes| ==> r.strokes[i].time == r.strokes[i].points[0].time
    ensures r.id.Some? && r.time == original.strokes[0].points[0].time
    ensures r.domain == original.domain && r.shapes == original.shapes
    ensures r.canvasWidth == original.canvasWidth && r.canvasHeight == original.canvasHeight
    ensures r.substrokes == sketch.substrokes
  {
    sketch.(id := Some(ids.sketch), time := original.strokes[0].points[0].time,
            domain := original.domain, shapes := original.shapes,
            canvasWidth := original.canvasWidth, canvasHeight := original.canvasHeight,
            strokes := StampedStrokes(sketch.strokes, ids))
  }

  /** Coordinates agree point by point (same layout assumed). */
  predicate SameCoords(a: seq<Stroke>, b: seq<Stroke>)
    requires SameLayout(a, b)
  {
    forall i, j :: 0 <= i < |a| && 0 <= j < |a[i].points| ==>
      a[i].points[j].x == b[i].points[j].x && a[i].points[j].y == b[i].points[j].y
  }

  /** Every stroke, and every point, carries an id. */
  predicate FullyIdentified(strokes: seq<Stroke>) {
    forall i :: 0 <= i < |strokes| ==>
      strokes[i].id.Some? && forall j :: 0 <= j < |strokes[i].points| ==> strokes[i].points[j].id.Some?
  }

  /** Stamping again overwrites every stamp: only the last transfer's ids survive. */
  lemma StampTwice(sketch: Sketch, o1: Sketch, o2: Sketch, ids1: IdSource, ids2: IdSource)
    requires HasFirstPoint(o1.strokes) && HasFirstPoint(o2.strokes) && NoEmptyStroke(sketch.strokes)
    ensures NoEmptyStroke(Stamped(sketch, o1, ids1).strokes)
    ensures Stamped(Stamped(sketch, o1, ids1), o2, ids2) == Stamped(sketch, o2, ids2)
  {
    var once := Stamped(sketch, o1, ids1);
    var l, r := Stamped(once, o2, ids2).strokes, Stamped(sketch, o2, ids2).strokes;
    forall i | 0 <= i < |sketch.strokes| ensures l[i] == r[i] {
      assert l[i].points == r[i].points;
    }
  }

  /** `transferMetadata(sketch, original)`: updates the sketch, then each stroke, then each
      point of it, in place. */
  method TransferMetadata(sketch: Sketch, original: Sketch, ids: IdSource) returns (r: Sketch)
    requires HasFirstPoint(original.strokes) && NoEmptyStroke(sketch.strokes)
    ensures r == Stamped(sketch, original, ids)
  {
    r := sketch.(id := Some(ids.sketch), time := original.strokes[0].points[0].time,
                 domain := original.domain, shapes := original.shapes,
                 canvasWidth := original.canvasWidth, canvasHeight := original.canvasHeight);
    ghost var goal := StampedStrokes(sketch.strokes, ids);
    var i := 0;
    while i < |r.strokes|
      invariant 0 <= i <= |r.strokes| == |sketch.strokes|
      invariant r.strokes[..i] == goal[..i] && r.strokes[i..] == sketch.strokes[i..]
      invariant r == Stamped(sketch, original, ids).(strokes := r.strokes)
    {
      var stroke := r.strokes[i];
      assert stroke == sketch.strokes[i];
      stroke := stroke.(id := Some(ids.stroke(i)), time := stroke.points[0].time);
      ghost var pts := StampedPoints(sketch.strokes[i].points, i, ids);
      var j := 0;
      while j < |stroke.points|
        invariant 0 <= j <= |stroke.points| == |pts|
        invariant stroke.points[..j] == pts[..j]
        invariant stroke.points[j..] == sketch.strokes[i].points[j..]
        invariant stroke == goal[i].(points := stroke.points)
      {
        stroke := stroke.(points := stroke.points[j := stroke.points[j].(id := Some(ids.point(i, j)))]);
        j := j + 1;
      }
      assert stroke.points == pts;
      r := r.(strokes := r.strokes[i := stroke]);
      assert r.strokes[..i + 1] == goal[..i + 1];
      i := i + 1;
    }
    assert r.strokes == goal;
  }
}
