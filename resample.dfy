/** Arc-length resampling (`resample`, `resampleByCount`, `resampleByDistance`).

    Each stroke is walked segment by segment with a running distance `D`. When the next
    segment would carry `D` to the spacing `S` or beyond, a new point is cut into that
    segment at exactly the remaining distance, emitted, and also inserted into the working
    point list so that it becomes the start of the next segment. `Walk` is that process as a
    function; the loop in `ResampleStroke` is proved to compute it. */
module Resample {
  import opened SketchModel
  import opened Metric
  import opened Geometry
  import opened Metadata

  /** The point cut into the segment `prev`–`curr` at fraction `f`; it takes `curr`'s time. */
  function Cut(prev: Point, curr: Point, f: real): Point {
    BarePoint(Lerp(prev.x, curr.x, f), Lerp(prev.y, curr.y, f), curr.time)
  }

  /** How many spacings the distance reached at the end of the next segment holds. */
  function Budget(prev: Point, rest: seq<Point>, D: real, S: real, dist: Distance): int
    requires S > 0.0
  {
    if rest == [] then 0 else ((D + PointDist(dist, prev, rest[0])) / S).Floor
  }

  /** A cut is only made when `D < S <= D + d`, so the segment has positive length, the
      fraction lies in (0, 1], and what is left of the segment is `D + d - S`. */
  lemma CutStep(dist: Distance, prev: Point, curr: Point, D: real, S: real)
    requires IsMetric(dist) && 0.0 <= D < S && D + PointDist(dist, prev, curr) >= S
    ensures var d := PointDist(dist, prev, curr);
      && d > 0.0 && 0.0 < (S - D) / d <= 1.0
      && PointDist(dist, Cut(prev, curr, (S - D) / d), curr) == D + d - S
  {
    var d := PointDist(dist, prev, curr);
    var f := (S - D) / d;
    FractionBounds(S - D, d);
    Remainder(dist, prev.x, prev.y, curr.x, curr.y, f);
    FractionRemainder(S - D, d);
  }

  lemma FractionBounds(need: real, d: real)
    requires 0.0 < need <= d
    ensures 0.0 < need / d <= 1.0
  {
  }

  lemma FractionRemainder(need: real, d: real)
    requires d > 0.0
    ensures (1.0 - need / d) * d == d - need
  {
  }

  /** Removing one spacing from a distance of at least one spacing removes one from the
      number of spacings it holds. */
  lemma FloorStep(x: real, S: real)
    requires S > 0.0 && x >= S
    ensures (x - S) / S >= 0.0 && ((x - S) / S).Floor == (x / S).Floor - 1
  {
    var a, b := x / S, (x - S) / S;
    assert a * S == x;
    assert b * S == x - S;
    assert (a - 1.0) * S == x - S;
    Cancel(b, a - 1.0, S);
    CancelLe(1.0, a, S);
  }

  lemma Cancel(b: real, c: real, S: real)
    requires S > 0.0 && b * S == c * S
    ensures b == c
  {
    assert (b - c) * S == 0.0;
  }

  lemma CancelLe(b: real, c: real, S: real)
    requires S > 0.0 && b * S <= c * S
    ensures b <= c
  {
    assert (c - b) * S >= 0.0;
  }

  lemma FloorBelowOne(x: real, S: real)
    requires S > 0.0 && 0.0 <= x < S
    ensures (x / S).Floor == 0
  {
    var a := x / S;
    assert a * S == x;
    CancelLe(0.0, a, S);
    CancelLe(a, 1.0, S);
    assert a != 1.0;
  }

  /** The points emitted from a state of the walk: `prev` is the last point of the working
      list, `rest` the points still ahead, `D` the distance run since the last emission. */
  function Walk(prev: Point, rest: seq<Point>, D: real, S: real, dist: Distance): seq<Point>
    requires IsMetric(dist) && 0.0 <= D < S
    decreases |rest|, Budget(prev, rest, D, S, dist)
  {
    if rest == [] then []
    else
      var curr, d := rest[0], PointDist(dist, prev, rest[0]);
      if D + d >= S then
        var q := Cut(prev, curr, (S - D) / d);
        CutStep(dist, prev, curr, D, S);
        FloorStep(D + d, S);
        [q] + Walk(q, rest, 0.0, S, dist)
      else
        Walk(curr, rest[1..], D + d, S, dist)
  }

  /** One step of the walk when the next segment reaches the spacing: cut and emit. */
  lemma WalkEmit(prev: Point, rest: seq<Point>, D: real, S: real, dist: Distance)
    requires IsMetric(dist) && 0.0 <= D < S && rest != []
    requires D + PointDist(dist, prev, rest[0]) >= S
    ensures var q := Cut(prev, rest[0], (S - D) / PointDist(dist, prev, rest[0]));
      && 0 <= Budget(q, rest, 0.0, S, dist) < Budget(prev, rest, D, S, dist)
      && Walk(prev, rest, D, S, dist) == [q] + Walk(q, rest, 0.0, S, dist)
  {
    var d := PointDist(dist, prev, rest[0]);
    var q := Cut(prev, rest[0], (S - D) / d);
    CutStep(dist, prev, rest[0], D, S);
    FloorStep(D + d, S);
    assert Budget(q, rest, 0.0, S, dist) == ((D + d - S) / S).Floor;
  }

  /** One step of the walk when it does not: run to the end of the segment. */
  lemma WalkSkip(prev: Point, rest: seq<Point>, D: real, S: real, dist: Distance)
    requires IsMetric(dist) && 0.0 <= D < S && rest != []
    requires D + PointDist(dist, prev, rest[0]) < S
    ensures 0.0 <= D + PointDist(dist, prev, rest[0])
    ensures Walk(prev, rest, D, S, dist) == Walk(rest[0], rest[1..], D + PointDist(dist, prev, rest[0]), S, dist)
  {
  }

  /** The number of emitted points is the number of whole spacings in the distance run so
      far plus the length still ahead. */
  lemma {:induction false} WalkLength(prev: Point, rest: seq<Point>, D: real, S: real, dist: Distance)
    requires IsMetric(dist) && 0.0 <= D < S
    ensures |Walk(prev, rest, D, S, dist)| == ((D + SegmentsLength([prev] + rest, dist)) / S).Floor
    decreases |rest|, Budget(prev, rest, D, S, dist)
  {
    if rest == [] {
      FloorBelowOne(D, S);
    } else {
      var curr, d := rest[0], PointDist(dist, prev, rest[0]);
      if D + d >= S {
        var q := Cut(prev, curr, (S - D) / d);
        WalkEmit(prev, rest, D, S, dist);
        WalkLength(q, rest, 0.0, S, dist);
        EmitLength(prev, rest, D, S, dist);
      } else {
        WalkSkip(prev, rest, D, S, dist);
        WalkLength(curr, rest[1..], D + d, S, dist);
        SkipLength(prev, rest, D, S, dist);
      }
    }
  }

  /** The length count across a cut: one point emitted, one spacing used up. */
  lemma EmitLength(prev: Point, rest: seq<Point>, D: real, S: real, dist: Distance)
    requires IsMetric(dist) && 0.0 <= D < S && rest != []
    requires D + PointDist(dist, prev, rest[0]) >= S
    requires var q := Cut(prev, rest[0], (S - D) / PointDist(dist, prev, rest[0]));
      |Walk(q, rest, 0.0, S, dist)| == ((0.0 + SegmentsLength([q] + rest, dist)) / S).Floor
    ensures |Walk(prev, rest, D, S, dist)| == ((D + SegmentsLength([prev] + rest, dist)) / S).Floor
  {
    var curr, d := rest[0], PointDist(dist, prev, rest[0]);
    var q := Cut(prev, curr, (S - D) / d);
    var L := SegmentsLength(rest, dist);
    SegmentsLengthCons(prev, rest, dist);
    SegmentsLengthNonNegative(rest, dist);
    CutStep(dist, prev, curr, D, S);
    WalkEmit(prev, rest, D, S, dist);
    SegmentsLengthCons(q, rest, dist);
    assert 0.0 + SegmentsLength([q] + rest, dist) == D + d + L - S;
    FloorStep(D + d + L, S);
  }

  /** The length count across a segment that is not cut. */
  lemma SkipLength(prev: Point, rest: seq<Point>, D: real, S: real, dist: Distance)
    requires IsMetric(dist) && 0.0 <= D < S && rest != []
    requires D + PointDist(dist, prev, rest[0]) < S
    requires var D' := D + PointDist(dist, prev, rest[0]);
      |Walk(rest[0], rest[1..], D', S, dist)| == ((D' + SegmentsLength([rest[0]] + rest[1..], dist)) / S).Floor
    ensures |Walk(prev, rest, D, S, dist)| == ((D + SegmentsLength([prev] + rest, dist)) / S).Floor
  {
    SegmentsLengthCons(prev, rest, dist);
    WalkSkip(prev, rest, D, S, dist);
    assert [rest[0]] + rest[1..] == rest;
  }

  /** Every emitted point carries the time of one of the points ahead of it. */
  lemma {:induction false} WalkTimes(prev: Point, rest: seq<Point>, D: real, S: real, dist: Distance)
    requires IsMetric(dist) && 0.0 <= D < S
    ensures forall k :: 0 <= k < |Walk(prev, rest, D, S, dist)| ==>
      exists i :: 0 <= i < |rest| && Walk(prev, rest, D, S, dist)[k].time == rest[i].time
    decreases |rest|, Budget(prev, rest, D, S, dist)
  {
    if rest != [] {
      var curr, d := rest[0], PointDist(dist, prev, rest[0]);
      var w := Walk(prev, rest, D, S, dist);
      if D + d >= S {
        var q := Cut(prev, curr, (S - D) / d);
        CutStep(dist, prev, curr, D, S);
        FloorStep(D + d, S);
        WalkTimes(q, rest, 0.0, S, dist);
        var tail := Walk(q, rest, 0.0, S, dist);
        assert w == [q] + tail;
        forall k | 0 <= k < |w| ensures exists i :: 0 <= i < |rest| && w[k].time == rest[i].time {
          if k == 0 {
            assert w[0].time == rest[0].time;
          } else {
            assert w[k] == tail[k - 1];
          }
        }
      } else {
        WalkTimes(curr, rest[1..], D + d, S, dist);
        assert w == Walk(curr, rest[1..], D + d, S, dist);
        forall k | 0 <= k < |w| ensures exists i :: 0 <= i < |rest| && w[k].time == rest[i].time {
          var i :| 0 <= i < |rest[1..]| && w[k].time == rest[1..][i].time;
          assert w[k].time == rest[i + 1].time;
        }
      }
    } else {
      assert Walk(prev, rest, D, S, dist) == [];
    }
  }

  /** A stroke can be resampled when the spacing is positive or there is no segment to walk:
      with `S <= 0` and a segment the loop never ends. */
  predicate Resamplable(strokes: seq<Stroke>, S: real) {
    S > 0.0 || forall i :: 0 <= i < |strokes| ==> |strokes[i].points| <= 1
  }

  /** The resampled points of one non-empty stroke: a bare copy of its first point, then
      every point the walk emits. */
  function ResampledPoints(ps: seq<Point>, S: real, dist: Distance): (r: seq<Point>)
    requires ps != [] && IsMetric(dist) && (S > 0.0 || |ps| == 1)
    ensures r != [] && r[0] == BarePoint(ps[0].x, ps[0].y, ps[0].time)
  {
    [BarePoint(ps[0].x, ps[0].y, ps[0].time)] + if |ps| == 1 then [] else Walk(ps[0], ps[1..], 0.0, S, dist)
  }

  /** A stroke of length `L` resamples to `1 + floor(L / S)` points. */
  lemma ResampledCount(ps: seq<Point>, S: real, dist: Distance)
    requires ps != [] && IsMetric(dist) && S > 0.0
    ensures |ResampledPoints(ps, S, dist)| == 1 + (SegmentsLength(ps, dist) / S).Floor
  {
    if |ps| == 1 {
      FloorBelowOne(0.0, S);
    } else {
      WalkLength(ps[0], ps[1..], 0.0, S, dist);
      assert [ps[0]] + ps[1..] == ps;
    }
  }

  /** Every resampled point after the first carries the time of an input point. */
  lemma ResampledTimes(ps: seq<Point>, S: real, dist: Distance)
    requires ps != [] && IsMetric(dist) && (S > 0.0 || |ps| == 1)
    ensures forall k :: 0 <= k < |ResampledPoints(ps, S, dist)| ==>
      exists i :: 0 <= i < |ps| && ResampledPoints(ps, S, dist)[k].time == ps[i].time
  {
    var r := ResampledPoints(ps, S, dist);
    if |ps| > 1 {
      WalkTimes(ps[0], ps[1..], 0.0, S, dist);
      forall k | 0 <= k < |r| ensures exists i :: 0 <= i < |ps| && r[k].time == ps[i].time {
        if k == 0 {
          assert r[0].time == ps[0].time;
        } else {
          var i :| 0 <= i < |ps[1..]| && r[k].time == ps[1..][i].time;
          assert r[k].time == ps[i + 1].time;
        }
      }
    } else {
      assert r[0].time == ps[0].time;
    }
  }

  /** No two consecutive points are more than `S` apart. */
  predicate SpacedBy(ps: seq<Point>, S: real, dist: Distance) {
    forall k :: 0 <= k < |ps| - 1 ==> PointDist(dist, ps[k], ps[k + 1]) <= S
  }

  lemma SpacedCons(p: Point, ps: seq<Point>, S: real, dist: Distance)
    requires SpacedBy(ps, S, dist) && (ps != [] ==> PointDist(dist, p, ps[0]) <= S)
    ensures SpacedBy([p] + ps, S, dist)
  {
    var r := [p] + ps;
    forall k | 0 <= k < |r| - 1 ensures PointDist(dist, r[k], r[k + 1]) <= S {
      if k > 0 {
        assert r[k] == ps[k - 1] && r[k + 1] == ps[k];
      }
    }
  }

  /** Along the walk, the straight-line distance from the last emitted point `last` to
      `prev` is at most the distance `D` run since; an emission happens when the run reaches
      `S`, so each emitted point is within `S` of the one before it. */
  lemma {:induction false} WalkSpacing(last: Point, prev: Point, rest: seq<Point>, D: real, S: real, dist: Distance)
    requires IsMetric(dist) && 0.0 <= D < S && PointDist(dist, last, prev) <= D
    ensures SpacedBy([last] + Walk(prev, rest, D, S, dist), S, dist)
    decreases |rest|, Budget(prev, rest, D, S, dist)
  {
    if rest == [] {
      assert [last] + Walk(prev, rest, D, S, dist) == [last];
    } else if D + PointDist(dist, prev, rest[0]) >= S {
      var q := Cut(prev, rest[0], (S - D) / PointDist(dist, prev, rest[0]));
      WalkEmit(prev, rest, D, S, dist);
      assert PointDist(dist, q, q) == 0.0;
      WalkSpacing(q, q, rest, 0.0, S, dist);
      EmitSpacing(last, prev, rest, D, S, dist);
    } else {
      var curr, d := rest[0], PointDist(dist, prev, rest[0]);
      WalkSkip(prev, rest, D, S, dist);
      Triangle(dist, last.x, last.y, prev.x, prev.y, curr.x, curr.y);
      WalkSpacing(last, curr, rest[1..], D + d, S, dist);
    }
  }

  /** The spacing across a cut: the cut point lies `S - D` beyond `prev`, so within `S`
      of `last`. */
  lemma EmitSpacing(last: Point, prev: Point, rest: seq<Point>, D: real, S: real, dist: Distance)
    requires IsMetric(dist) && 0.0 <= D < S && PointDist(dist, last, prev) <= D && rest != []
    requires D + PointDist(dist, prev, rest[0]) >= S
    requires var q := Cut(prev, rest[0], (S - D) / PointDist(dist, prev, rest[0]));
      SpacedBy([q] + Walk(q, rest, 0.0, S, dist), S, dist)
    ensures SpacedBy([last] + Walk(prev, rest, D, S, dist), S, dist)
  {
    var d := PointDist(dist, prev, rest[0]);
    var q := Cut(prev, rest[0], (S - D) / d);
    WalkEmit(prev, rest, D, S, dist);
    CutWithin(dist, last, prev, rest[0], D, S);
    SpacedCons(last, [q] + Walk(q, rest, 0.0, S, dist), S, dist);
  }

  lemma CutWithin(dist: Distance, last: Point, prev: Point, curr: Point, D: real, S: real)
    requires IsMetric(dist) && 0.0 <= D < S && PointDist(dist, last, prev) <= D
    requires D + PointDist(dist, prev, curr) >= S
    ensures PointDist(dist, last, Cut(prev, curr, (S - D) / PointDist(dist, prev, curr))) <= S
  {
    var d := PointDist(dist, prev, curr);
    var f := (S - D) / d;
    var q := Cut(prev, curr, f);
    CutStep(dist, prev, curr, D, S);
    assert PointDist(dist, prev, q) == f * d;
    assert f * d == S - D;
    Triangle(dist, last.x, last.y, prev.x, prev.y, q.x, q.y);
  }

  /** The resampled points of a stroke are spaced at most `S` apart. */
  lemma ResampledSpacing(ps: seq<Point>, S: real, dist: Distance)
    requires ps != [] && IsMetric(dist) && (S > 0.0 || |ps| == 1)
    ensures SpacedBy(ResampledPoints(ps, S, dist), S, dist)
  {
    if |ps| > 1 {
      var first := BarePoint(ps[0].x, ps[0].y, ps[0].time);
      assert PointDist(dist, first, ps[0]) == 0.0;
      WalkSpacing(first, ps[0], ps[1..], 0.0, S, dist);
    }
  }

  /** In every resampled stroke, consecutive points are at most `S` apart. */
  lemma {:induction false} ResampledStrokesSpacing(strokes: seq<Stroke>, S: real, dist: Distance)
    requires IsMetric(dist) && Resamplable(strokes, S)
    ensures var r := ResampledStrokes(strokes, S, dist);
      forall i :: 0 <= i < |r| ==> SpacedBy(r[i].points, S, dist)
  {
    if strokes != [] {
      var i := |strokes| - 1;
      ResampledStep(strokes, i, S, dist);
      assert strokes[..i + 1] == strokes;
      ResampledStrokesSpacing(strokes[..i], S, dist);
      if strokes[i].points != [] {
        ResampledSpacing(strokes[i].points, S, dist);
      }
    }
  }

  /** The inner loop of `resample` for one non-empty stroke. `points` is the working copy
      that resampled points are spliced into; the input is never changed. */
  method ResampleStroke(ps: seq<Point>, S: real, dist: Distance) returns (newPoints: seq<Point>)
    requires ps != [] && IsMetric(dist) && (S > 0.0 || |ps| == 1)
    ensures newPoints == ResampledPoints(ps, S, dist)
  {
    var points := ps;
    newPoints := [BarePoint(points[0].x, points[0].y, points[0].time)];
    if |ps| == 1 {
      return;
    }
    ghost var target := ResampledPoints(ps, S, dist);
    var D := 0.0;
    var j := 1;
    while j < |points|
      invariant 1 <= j <= |points| && 0.0 <= D < S
      invariant newPoints + Walk(points[j - 1], points[j..], D, S, dist) == target
      decreases |points| - j, Budget(points[j - 1], points[j..], D, S, dist)
    {
      var prevPoint, currPoint := points[j - 1], points[j];
      var d := dist(prevPoint.x, prevPoint.y, currPoint.x, currPoint.y);
      if D + d >= S {
        var f := (S - D) / d;
        var qx := Lerp(prevPoint.x, currPoint.x, f);
        var qy := Lerp(prevPoint.y, currPoint.y, f);
        var q := BarePoint(qx, qy, currPoint.time);
        EmitStep(newPoints, points, j, q, D, S, dist);
        newPoints := newPoints + [q];
        points := points[..j] + [q] + points[j..];
        D := 0.0;
      } else {
        SkipStep(newPoints, points, j, D, S, dist);
        D := D + d;
      }
      j := j + 1;
    }
  }

  /** A loop step that cuts: the emitted point is spliced in at `j` and becomes the start
      of the next segment; what is still to be emitted is unchanged, and the walk's budget
      drops. */
  lemma EmitStep(out: seq<Point>, points: seq<Point>, j: int, q: Point, D: real, S: real, dist: Distance)
    requires IsMetric(dist) && 0.0 <= D < S && 1 <= j < |points|
    requires D + PointDist(dist, points[j - 1], points[j]) >= S
    requires q == Cut(points[j - 1], points[j], (S - D) / PointDist(dist, points[j - 1], points[j]))
    ensures var next := points[..j] + [q] + points[j..];
      && |next| - (j + 1) == |points| - j
      && out + Walk(points[j - 1], points[j..], D, S, dist) == (out + [q]) + Walk(next[j + 1 - 1], next[j + 1..], 0.0, S, dist)
      && 0 <= Budget(next[j + 1 - 1], next[j + 1..], 0.0, S, dist) < Budget(points[j - 1], points[j..], D, S, dist)
  {
    var ahead := points[j..];
    var next := points[..j] + [q] + points[j..];
    WalkEmit(points[j - 1], ahead, D, S, dist);
    assert next[j] == q && next[j + 1..] == ahead;
  }

  /** A loop step that does not cut: the distance run grows by the segment. */
  lemma SkipStep(out: seq<Point>, points: seq<Point>, j: int, D: real, S: real, dist: Distance)
    requires IsMetric(dist) && 0.0 <= D < S && 1 <= j < |points|
    requires D + PointDist(dist, points[j - 1], points[j]) < S
    ensures 0.0 <= D + PointDist(dist, points[j - 1], points[j])
    ensures out + Walk(points[j - 1], points[j..], D, S, dist)
         == out + Walk(points[j], points[j + 1..], D + PointDist(dist, points[j - 1], points[j]), S, dist)
  {
    WalkSkip(points[j - 1], points[j..], D, S, dist);
    assert points[j..][1..] == points[j + 1..];
  }

  /** The strokes `resample` produces: zero-point strokes dropped, every other stroke
      resampled into a bare `{points}` stroke, order kept. */
  function ResampledStrokes(strokes: seq<Stroke>, S: real, dist: Distance): (r: seq<Stroke>)
    requires IsMetric(dist) && Resamplable(strokes, S)
    ensures NoEmptyStroke(r) && |r| <= |strokes|
    ensures NoEmptyStroke(strokes) ==> |r| == |strokes|
  {
    if strokes == [] then []
    else
      var init, last := strokes[..|strokes| - 1], strokes[|strokes| - 1];
      assert Resamplable(init, S) by {
        if S <= 0.0 {
          forall i | 0 <= i < |init| ensures |init[i].points| <= 1 { assert init[i] == strokes[i]; }
        }
      }
      assert NoEmptyStroke(strokes) ==> NoEmptyStroke(init) by {
        if NoEmptyStroke(strokes) {
          forall i | 0 <= i < |init| ensures init[i].points != [] { assert init[i] == strokes[i]; }
        }
      }
      if last.points == [] then ResampledStrokes(init, S, dist)
      else ResampledStrokes(init, S, dist) + [BareStroke(ResampledPoints(last.points, S, dist))]
  }

  /** With no empty stroke, output stroke `i` is input stroke `i` resampled. */
  lemma {:induction false} ResampledStrokesAt(strokes: seq<Stroke>, S: real, dist: Distance, i: int)
    requires IsMetric(dist) && Resamplable(strokes, S) && NoEmptyStroke(strokes)
    requires 0 <= i < |strokes|
    ensures (S > 0.0 || |strokes[i].points| == 1)
    ensures ResampledStrokes(strokes, S, dist)[i] == BareStroke(ResampledPoints(strokes[i].points, S, dist))
  {
    var init := strokes[..|strokes| - 1];
    if i < |init| {
      assert init[i] == strokes[i];
      assert NoEmptyStroke(init) by {
        forall k | 0 <= k < |init| ensures init[k].points != [] { assert init[k] == strokes[k]; }
      }
      ResampledStrokesAt(init, S, dist, i);
    }
  }

  /** One more stroke: resampled and appended unless it has no point. */
  lemma ResampledStep(strokes: seq<Stroke>, i: int, S: real, dist: Distance)
    requires IsMetric(dist) && Resamplable(strokes, S) && 0 <= i < |strokes|
    ensures strokes[i].points != [] ==> S > 0.0 || |strokes[i].points| == 1
    ensures Resamplable(strokes[..i], S) && Resamplable(strokes[..i + 1], S)
    ensures ResampledStrokes(strokes[..i + 1], S, dist) ==
      ResampledStrokes(strokes[..i], S, dist) +
      if strokes[i].points == [] then [] else [BareStroke(ResampledPoints(strokes[i].points, S, dist))]
  {
    assert strokes[..i + 1][..i] == strokes[..i];
  }

  /** The stroke loop of `resample`: empty strokes skipped, `D` reset for every stroke. */
  method ResampleStrokes(strokes: seq<Stroke>, S: real, dist: Distance) returns (newStrokes: seq<Stroke>)
    requires IsMetric(dist) && Resamplable(strokes, S)
    ensures newStrokes == ResampledStrokes(strokes, S, dist)
  {
    newStrokes := [];
    var i := 0;
    while i < |strokes|
      invariant 0 <= i <= |strokes|
      invariant Resamplable(strokes[..i], S)
      invariant newStrokes == ResampledStrokes(strokes[..i], S, dist)
    {
      ResampledStep(strokes, i, S, dist);
      if strokes[i].points == [] {
        i := i + 1;
        continue;
      }
      var newPoints := ResampleStroke(strokes[i].points, S, dist);
      newStrokes := newStrokes + [BareStroke(newPoints)];
      i := i + 1;
    }
    assert strokes[..i] == strokes;
  }

  /** `resample(sketch, S)`: the strokes resampled, then the metadata of the input
      transferred onto the result. */
  method ResampleSketch(sketch: Sketch, S: real, dist: Distance, ids: IdSource) returns (newSketch: Sketch)
    requires HasFirstPoint(sketch.strokes) && IsMetric(dist) && Resamplable(sketch.strokes, S)
    ensures newSketch == Stamped(BareSketch(ResampledStrokes(sketch.strokes, S, dist)), sketch, ids)
  {
    var newStrokes := ResampleStrokes(sketch.strokes, S, dist);
    newSketch := TransferMetadata(BareSketch(newStrokes), sketch, ids);
  }

  /** Resampling with a positive spacing over strokes of total length `L`: each stroke
      contributes its first point plus `floor(length / S)` points, so the number of points
      beyond the one per stroke lies in `(L / S - k, L / S]` for `k` strokes. */
  lemma {:induction false} ResampledTotal(strokes: seq<Stroke>, S: real, dist: Distance)
    requires IsMetric(dist) && S > 0.0 && NoEmptyStroke(strokes)
    ensures var extra := (PointCount(ResampledStrokes(strokes, S, dist)) - |strokes|) as real;
      && PathLength(strokes, dist) / S - |strokes| as real <= extra <= PathLength(strokes, dist) / S
      && (strokes != [] ==> PathLength(strokes, dist) / S - |strokes| as real < extra)
  {
    if strokes != [] {
      var init, last := strokes[..|strokes| - 1], strokes[|strokes| - 1];
      assert NoEmptyStroke(init) by {
        forall i | 0 <= i < |init| ensures init[i].points != [] { assert init[i] == strokes[i]; }
      }
      ResampledTotal(init, S, dist);
      var ri := ResampledStrokes(init, S, dist);
      var ps := ResampledPoints(last.points, S, dist);
      assert ResampledStrokes(strokes, S, dist) == ri + [BareStroke(ps)];
      PointCountAppend(ri, [BareStroke(ps)]);
      ResampledCount(last.points, S, dist);
      CountStep(PathLength(init, dist), SegmentsLength(last.points, dist), PathLength(strokes, dist), S,
        PointCount(ri) - |init|, (SegmentsLength(last.points, dist) / S).Floor, |init|);
    }
  }

  /** The arithmetic of one more stroke in `ResampledTotal`. */
  lemma CountStep(li: real, ll: real, l: real, S: real, e: int, f: int, k: int)
    requires S > 0.0 && l == li + ll
    requires li / S - k as real <= e as real <= li / S
    requires f == (ll / S).Floor
    ensures l / S - (k + 1) as real < (e + f) as real <= l / S
  {
    DivideSum(li, ll, S);
  }

  lemma PointCountAppend(a: seq<Stroke>, b: seq<Stroke>)
    ensures PointCount(a + b) == PointCount(a) + PointCount(b)
  {
    CloudAppend(a, b);
    CloudLength(a + b);
    CloudLength(a);
    CloudLength(b);
  }

  lemma DivideSum(a: real, b: real, S: real)
    requires S > 0.0
    ensures (a + b) / S == a / S + b / S
  {
  }
}
