/** The geometry kernel of `SketchRecTools`: bounding box, path length and point cloud,
    plus the coordinate maps (x ↦ kx·x + dx, y ↦ ky·y + dy) that every scaling and
    translation stage applies to a sketch. */
module Geometry {
  import opened SketchModel
  import opened Metric

  /** `Number.MAX_SAFE_INTEGER`, the seed of the offset search in `scaleProportional` and of
      the nearest-point search in the greedy matcher. */
  const MaxSafe: real := 9007199254740991.0

  datatype Axis = X | Y

  function Coord(p: Point, a: Axis): real { if a == X then p.x else p.y }

  function Min(a: real, b: real): real { if a <= b then a else b }
  function Max(a: real, b: real): real { if a >= b then a else b }

  /** Least coordinate of a non-empty cloud on one axis. */
  function Lo(c: seq<Point>, a: Axis): real
    requires c != []
  {
    if |c| == 1 then Coord(c[0], a) else Min(Lo(c[..|c| - 1], a), Coord(c[|c| - 1], a))
  }

  /** Greatest coordinate of a non-empty cloud on one axis. */
  function Hi(c: seq<Point>, a: Axis): real
    requires c != []
  {
    if |c| == 1 then Coord(c[0], a) else Max(Hi(c[..|c| - 1], a), Coord(c[|c| - 1], a))
  }

  /** Sum of the coordinates of a cloud on one axis. */
  function Total(c: seq<Point>, a: Axis): real {
    if c == [] then 0.0 else Total(c[..|c| - 1], a) + Coord(c[|c| - 1], a)
  }

  lemma {:induction false} LoHiBound(c: seq<Point>, a: Axis, i: int)
    requires 0 <= i < |c|
    ensures Lo(c, a) <= Coord(c[i], a) <= Hi(c, a)
  {
    if |c| > 1 && i < |c| - 1 {
      LoHiBound(c[..|c| - 1], a, i);
    }
  }

  lemma {:induction false} LoHiAttained(c: seq<Point>, a: Axis)
    requires c != []
    ensures exists i :: 0 <= i < |c| && Coord(c[i], a) == Lo(c, a)
    ensures exists i :: 0 <= i < |c| && Coord(c[i], a) == Hi(c, a)
  {
    var last := |c| - 1;
    if |c| == 1 {
      assert Coord(c[0], a) == Lo(c, a) && Coord(c[0], a) == Hi(c, a);
    } else {
      var init := c[..last];
      LoHiAttained(init, a);
      var i :| 0 <= i < |init| && Coord(init[i], a) == Lo(init, a);
      var j :| 0 <= j < |init| && Coord(init[j], a) == Hi(init, a);
      assert c[i] == init[i] && c[j] == init[j];
      if Lo(c, a) == Coord(c[last], a) {
        assert Coord(c[last], a) == Lo(c, a);
      } else {
        assert Coord(c[i], a) == Lo(c, a);
      }
      if Hi(c, a) == Coord(c[last], a) {
        assert Coord(c[last], a) == Hi(c, a);
      } else {
        assert Coord(c[j], a) == Hi(c, a);
      }
    }
  }

  /** The sum lies between count·min and count·max. */
  lemma TotalBounds(c: seq<Point>, a: Axis)
    requires c != []
    ensures |c| as real * Lo(c, a) <= Total(c, a) <= |c| as real * Hi(c, a)
  {
    TotalAboveMin(c, a);
    TotalBelowMax(c, a);
  }

  lemma {:induction false} TotalAboveMin(c: seq<Point>, a: Axis)
    requires c != []
    ensures |c| as real * Lo(c, a) <= Total(c, a)
  {
    if |c| > 1 {
      var init := c[..|c| - 1];
      TotalAboveMin(init, a);
      SumStep(|init| as real, Lo(c, a), Lo(init, a), Total(init, a), Coord(c[|c| - 1], a));
    }
  }

  lemma {:induction false} TotalBelowMax(c: seq<Point>, a: Axis)
    requires c != []
    ensures Total(c, a) <= |c| as real * Hi(c, a)
  {
    if |c| > 1 {
      var init := c[..|c| - 1];
      TotalBelowMax(init, a);
      SumStep(|init| as real, -Hi(c, a), -Hi(init, a), -Total(init, a), -Coord(c[|c| - 1], a));
    }
  }

  /** n·lo0 <= t and lo <= lo0, lo <= v give (n + 1)·lo <= t + v. */
  lemma SumStep(n: real, lo: real, lo0: real, t: real, v: real)
    requires n >= 0.0 && lo <= lo0 && lo <= v
    requires n * lo0 <= t
    ensures (n + 1.0) * lo <= t + v
  {
    MulMono(n, lo, lo0);
  }

  lemma MulMono(k: real, u: real, v: real)
    requires k >= 0.0 && u <= v
    ensures k * u <= k * v
  {
  }

  /** A repeated first element changes neither extreme: the scan seeds min and max with
      the first point and then visits that point again. */
  lemma {:induction false} SeededExtremes(c: seq<Point>, a: Axis)
    requires c != []
    ensures Lo([c[0]] + c, a) == Lo(c, a) && Hi([c[0]] + c, a) == Hi(c, a)
  {
    var s := [c[0]] + c;
    if |c| > 1 {
      var init := c[..|c| - 1];
      assert s[..|s| - 1] == [init[0]] + init;
      SeededExtremes(init, a);
    } else {
      assert s[..|s| - 1] == [c[0]];
    }
  }

  lemma ExtendedExtremes(c: seq<Point>, p: Point, a: Axis)
    requires c != []
    ensures Lo(c + [p], a) == Min(Lo(c, a), Coord(p, a))
    ensures Hi(c + [p], a) == Max(Hi(c, a), Coord(p, a))
    ensures Total(c + [p], a) == Total(c, a) + Coord(p, a)
  {
    assert (c + [p])[..|c|] == c;
  }

  //// Bounding box

  /** The derived bounding box (the corner and centre point objects of the source are
      combinations of these numbers and are not repeated here). */
  datatype Box = Box(minX: real, minY: real, maxX: real, maxY: real,
                     width: real, height: real,
                     centerX: real, centerY: real,
                     centroidX: real, centroidY: real)
  {
    /** The box carried through a coordinate map: positions move, extents scale. */
    function Mapped(t: Affine): Box {
      Box(t.At(X, minX), t.At(Y, minY), t.At(X, maxX), t.At(Y, maxY),
          t.Stretch(X, width), t.Stretch(Y, height),
          t.At(X, centerX), t.At(Y, centerY), t.At(X, centroidX), t.At(Y, centroidY))
    }
  }

  /** The box of a non-empty cloud: extremes, extent, the midpoint of the extent and the
      point-weighted mean. */
  function BoxOfCloud(c: seq<Point>): Box
    requires c != []
  {
    var minX, maxX, minY, maxY := Lo(c, X), Hi(c, X), Lo(c, Y), Hi(c, Y);
    Box(minX, minY, maxX, maxY, maxX - minX, maxY - minY,
        Center(c, X), Center(c, Y), Mean(c, X), Mean(c, Y))
  }

  function BoxOf(strokes: seq<Stroke>): Box
    requires HasFirstPoint(strokes)
  {
    CloudStartsWithFirstPoint(strokes);
    BoxOfCloud(Cloud(strokes))
  }

  /** Everything the box promises: min and max are the true extremes, the centre and the
      centroid lie between them, and the extents are non-negative. */
  lemma BoxBounds(c: seq<Point>)
    requires c != []
    ensures var b := BoxOfCloud(c);
      && b.minX <= b.centerX <= b.maxX && b.minY <= b.centerY <= b.maxY
      && b.minX <= b.centroidX <= b.maxX && b.minY <= b.centroidY <= b.maxY
      && b.width == b.maxX - b.minX >= 0.0 && b.height == b.maxY - b.minY >= 0.0
      && (forall i :: 0 <= i < |c| ==> b.minX <= c[i].x <= b.maxX && b.minY <= c[i].y <= b.maxY)
      && (exists i :: 0 <= i < |c| && c[i].x == b.minX)
      && (exists i :: 0 <= i < |c| && c[i].x == b.maxX)
      && (exists i :: 0 <= i < |c| && c[i].y == b.minY)
      && (exists i :: 0 <= i < |c| && c[i].y == b.maxY)
  {
    var b := BoxOfCloud(c);
    forall i | 0 <= i < |c| ensures b.minX <= c[i].x <= b.maxX && b.minY <= c[i].y <= b.maxY {
      LoHiBound(c, X, i);
      LoHiBound(c, Y, i);
    }
    LoHiAttained(c, X);
    LoHiAttained(c, Y);
    CentroidBetween(c, X);
    CentroidBetween(c, Y);
  }

  /** Every point of every stroke lies in the box of the strokes. */
  lemma PointInBox(strokes: seq<Stroke>, i: int, j: int)
    requires HasFirstPoint(strokes) && 0 <= i < |strokes| && 0 <= j < |strokes[i].points|
    ensures var b, p := BoxOf(strokes), strokes[i].points[j];
      b.minX <= p.x <= b.maxX && b.minY <= p.y <= b.maxY
  {
    CloudStartsWithFirstPoint(strokes);
    InCloud(strokes, i, j);
    BoxBounds(Cloud(strokes));
  }

  lemma CentroidBetween(c: seq<Point>, a: Axis)
    requires c != []
    ensures Lo(c, a) <= Total(c, a) / |c| as real <= Hi(c, a)
  {
    TotalBounds(c, a);
    DivideBounds(Total(c, a), |c| as real, Lo(c, a), Hi(c, a));
  }

  lemma DivideBounds(t: real, n: real, lo: real, hi: real)
    requires n > 0.0 && n * lo <= t <= n * hi
    ensures lo <= t / n <= hi
  {
    assert t / n * n == t;
  }

  /** The state of the bounding-box scan after visiting `seen`, seeded with `p0`. */
  ghost predicate Scanned(p0: Point, seen: seq<Point>, minX: real, maxX: real, minY: real, maxY: real,
                          sumX: real, sumY: real, count: int)
  {
    && minX == Lo([p0] + seen, X) && maxX == Hi([p0] + seen, X)
    && minY == Lo([p0] + seen, Y) && maxY == Hi([p0] + seen, Y)
    && sumX == Total(seen, X) && sumY == Total(seen, Y) && count == |seen|
  }

  /** One axis of the scan step: `if v < lo then lo := v else if v > hi then hi := v`. */
  predicate Tracked(lo: real, hi: real, v: real, lo': real, hi': real) {
    if v < lo then lo' == v && hi' == hi
    else if v > hi then lo' == lo && hi' == v
    else lo' == lo && hi' == hi
  }

  lemma ScanStep(p0: Point, seen: seq<Point>, p: Point,
                 minX: real, maxX: real, minY: real, maxY: real, sumX: real, sumY: real, count: int,
                 minX': real, maxX': real, minY': real, maxY': real)
    requires Scanned(p0, seen, minX, maxX, minY, maxY, sumX, sumY, count)
    requires Tracked(minX, maxX, p.x, minX', maxX') && Tracked(minY, maxY, p.y, minY', maxY')
    ensures Scanned(p0, seen + [p], minX', maxX', minY', maxY', sumX + p.x, sumY + p.y, count + 1)
  {
    var s := [p0] + seen;
    assert s + [p] == [p0] + (seen + [p]);
    LoHiBound(s, X, 0);
    LoHiBound(s, Y, 0);
    ExtendedExtremes(s, p, X);
    ExtendedExtremes(s, p, Y);
    assert (seen + [p])[..|seen|] == seen;
  }

  /** `calculateBoundingBox`: null (None) for a sketch without strokes; otherwise a single
      scan seeded with the first point, where each axis tests the max only when the point
      did not lower the min (sound because min <= max holds from the seed on). */
  method CalculateBoundingBox(sketch: Sketch) returns (box: Option<Box>)
    requires sketch.strokes == [] || sketch.strokes[0].points != []
    ensures box.None? <==> sketch.strokes == []
    ensures box.Some? ==> HasFirstPoint(sketch.strokes) && box.value == BoxOf(sketch.strokes)
  {
    var strokes := sketch.strokes;
    if |strokes| == 0 {
      return None;
    }
    var point0 := strokes[0].points[0];
    var minX, minY, maxX, maxY := point0.x, point0.y, point0.x, point0.y;
    var sumX, sumY, count := 0.0, 0.0, 0;
    ghost var seen: seq<Point> := [];
    var i := 0;
    while i < |strokes|
      invariant 0 <= i <= |strokes|
      invariant seen == Cloud(strokes[..i])
      invariant Scanned(point0, seen, minX, maxX, minY, maxY, sumX, sumY, count)
    {
      var points := strokes[i].points;
      var j := 0;
      while j < |points|
        invariant 0 <= j <= |points|
        invariant seen == Cloud(strokes[..i]) + points[..j]
        invariant Scanned(point0, seen, minX, maxX, minY, maxY, sumX, sumY, count)
      {
        var point := points[j];
        ghost var (lx, hx, ly, hy) := (minX, maxX, minY, maxY);
        if point.x < minX { minX := point.x; }
        else if point.x > maxX { maxX := point.x; }
        if point.y < minY { minY := point.y; }
        else if point.y > maxY { maxY := point.y; }
        ScanStep(point0, seen, point, lx, hx, ly, hy, sumX, sumY, count, minX, maxX, minY, maxY);
        sumX := sumX + point.x;
        sumY := sumY + point.y;
        count := count + 1;
        seen := seen + [point];
        assert points[..j + 1] == points[..j] + [points[j]];
        j := j + 1;
      }
      assert points[..j] == points;
      CloudSnoc(strokes, i);
      i := i + 1;
    }
    assert strokes[..i] == strokes;
    CloudStartsWithFirstPoint(strokes);
    SeededExtremes(seen, X);
    SeededExtremes(seen, Y);
    box := Some(Box(minX, minY, maxX, maxY, maxX - minX, maxY - minY,
                    minX + ((maxX - minX) / 2.0), minY + ((maxY - minY) / 2.0),
                    sumX / count as real, sumY / count as real));
  }

  //// Path length

  function PointDist(dist: Distance, p: Point, q: Point): real { dist(p.x, p.y, q.x, q.y) }

  /** Sum of the consecutive-point distances of one stroke. */
  function SegmentsLength(ps: seq<Point>, dist: Distance): real {
    if |ps| < 2 then 0.0
    else SegmentsLength(ps[..|ps| - 1], dist) + PointDist(dist, ps[|ps| - 2], ps[|ps| - 1])
  }

  /** Sum over strokes of the stroke lengths; no distance joins one stroke to the next. */
  function PathLength(strokes: seq<Stroke>, dist: Distance): real {
    if strokes == [] then 0.0
    else PathLength(strokes[..|strokes| - 1], dist) + SegmentsLength(strokes[|strokes| - 1].points, dist)
  }

  /** A stroke's length is its first segment plus the length of the rest. */
  lemma {:induction false} SegmentsLengthCons(p: Point, rest: seq<Point>, dist: Distance)
    requires rest != []
    ensures SegmentsLength([p] + rest, dist) == PointDist(dist, p, rest[0]) + SegmentsLength(rest, dist)
  {
    var s := [p] + rest;
    if |rest| > 1 {
      assert s[..|s| - 1] == [p] + rest[..|rest| - 1];
      SegmentsLengthCons(p, rest[..|rest| - 1], dist);
      assert s[|s| - 2] == rest[|rest| - 2];
    } else {
      assert s[..|s| - 1] == [p];
    }
  }

  lemma {:induction false} SegmentsLengthNonNegative(ps: seq<Point>, dist: Distance)
    requires IsMetric(dist)
    ensures SegmentsLength(ps, dist) >= 0.0
  {
    if |ps| >= 2 { SegmentsLengthNonNegative(ps[..|ps| - 1], dist); }
  }

  lemma {:induction false} PathLengthNonNegative(strokes: seq<Stroke>, dist: Distance)
    requires IsMetric(dist)
    ensures PathLength(strokes, dist) >= 0.0
  {
    if strokes != [] {
      PathLengthNonNegative(strokes[..|strokes| - 1], dist);
      SegmentsLengthNonNegative(strokes[|strokes| - 1].points, dist);
    }
  }

  /** `calculatePathLength`: one running sum over every stroke's consecutive pairs. */
  method CalculatePathLength(sketch: Sketch, dist: Distance) returns (distances: real)
    ensures distances == PathLength(sketch.strokes, dist)
    ensures IsMetric(dist) ==> distances >= 0.0
  {
    distances := 0.0;
    var strokes := sketch.strokes;
    var i := 0;
    while i < |strokes|
      invariant 0 <= i <= |strokes|
      invariant distances == PathLength(strokes[..i], dist)
    {
      var points := strokes[i].points;
      var j := 0;
      while j < |points| - 1
        invariant 0 <= j <= if points == [] then 0 else |points| - 1
        invariant distances == PathLength(strokes[..i], dist)
                               + SegmentsLength(points[..if points == [] then 0 else j + 1], dist)
      {
        var p0 := points[j];
        var p1 := points[j + 1];
        assert points[..j + 2][..j + 1] == points[..j + 1];
        distances := distances + dist(p0.x, p0.y, p1.x, p1.y);
        j := j + 1;
      }
      assert points[..if points == [] then 0 else j + 1] == points;
      assert strokes[..i + 1][..i] == strokes[..i];
      i := i + 1;
    }
    assert strokes[..i] == strokes;
    if IsMetric(dist) { PathLengthNonNegative(strokes, dist); }
  }

  //// Point cloud

  /** `getPointCloud`: every stroke's points pushed in stroke order, then point order. */
  method GetPointCloud(sketch: Sketch) returns (pointCloud: seq<Point>)
    ensures pointCloud == Cloud(sketch.strokes)
    ensures |pointCloud| == PointCount(sketch.strokes)
  {
    pointCloud := [];
    var strokes := sketch.strokes;
    var i := 0;
    while i < |strokes|
      invariant 0 <= i <= |strokes|
      invariant pointCloud == Cloud(strokes[..i])
    {
      var points := strokes[i].points;
      var j := 0;
      while j < |points|
        invariant 0 <= j <= |points|
        invariant pointCloud == Cloud(strokes[..i]) + points[..j]
      {
        pointCloud := pointCloud + [points[j]];
        assert points[..j + 1] == points[..j] + [points[j]];
        j := j + 1;
      }
      assert points[..j] == points;
      CloudSnoc(strokes, i);
      i := i + 1;
    }
    assert strokes[..i] == strokes;
    CloudLength(strokes);
  }

  /** `determineResampleSpacing`: one fortieth of the box diagonal. It is zero exactly when
      every point of the sketch is the same point. */
  method DetermineResampleSpacing(sketch: Sketch, dist: Distance) returns (S: real)
    requires HasFirstPoint(sketch.strokes)
    ensures S == Spacing(sketch.strokes, dist)
    ensures IsMetric(dist) ==> S >= 0.0
    ensures IsMetric(dist) ==>
      (S == 0.0 <==> BoxOf(sketch.strokes).width == 0.0 && BoxOf(sketch.strokes).height == 0.0)
  {
    var box := CalculateBoundingBox(sketch);
    var b := box.value;
    var diagonal := dist(b.minX, b.minY, b.maxX, b.maxY);
    S := diagonal / 40.0;
  }

  /** The default resampling distance: one fortieth of the box diagonal. */
  function Spacing(strokes: seq<Stroke>, dist: Distance): real
    requires HasFirstPoint(strokes)
  {
    var b := BoxOf(strokes);
    dist(b.minX, b.minY, b.maxX, b.maxY) / 40.0
  }

  //// Coordinate maps

  /** x ↦ kx·x + dx and y ↦ ky·y + dy; scaling and translating are such maps. */
  datatype Affine = Affine(kx: real, dx: real, ky: real, dy: real) {
    function K(a: Axis): real { if a == X then kx else ky }
    function B(a: Axis): real { if a == X then dx else dy }
    /** The map of one axis applied to one coordinate. */
    function At(a: Axis, v: real): real { K(a) * v + B(a) }
    /** The map of one axis applied to a length: only the factor acts. */
    function Stretch(a: Axis, len: real): real { K(a) * len }
    /** The map applied to each of `n` coordinates summing to `total`, summed. */
    function SumAt(a: Axis, total: real, n: nat): real { K(a) * total + n as real * B(a) }
    /** The rebuilt point `{x, y, time}`: coordinates mapped, time kept, no id. */
    function Apply(p: Point): Point { BarePoint(At(X, p.x), At(Y, p.y), p.time) }
    predicate Monotone() { kx >= 0.0 && ky >= 0.0 }
  }

  /** Pure translation dy (dx, dy). */
  function Shift(dx: real, dy: real): Affine { Affine(1.0, dx, 1.0, dy) }

  /** `t2` after `t1`. */
  function Then(t1: Affine, t2: Affine): Affine {
    Affine(t2.kx * t1.kx, t2.kx * t1.dx + t2.dx, t2.ky * t1.ky, t2.ky * t1.dy + t2.dy)
  }

  function MapCloud(c: seq<Point>, t: Affine): (r: seq<Point>)
    ensures |r| == |c|
  {
    seq(|c|, i requires 0 <= i < |c| => t.Apply(c[i]))
  }

  /** Every stroke rebuilt as `{points}` with its points mapped. */
  function MapStrokes(strokes: seq<Stroke>, t: Affine): (r: seq<Stroke>)
    ensures |r| == |strokes|
  {
    seq(|strokes|, i requires 0 <= i < |strokes| => BareStroke(MapCloud(strokes[i].points, t)))
  }

  lemma MapCloudAppend(a: seq<Point>, b: seq<Point>, t: Affine)
    ensures MapCloud(a + b, t) == MapCloud(a, t) + MapCloud(b, t)
  {
  }

  /** Mapping the strokes maps the cloud: stroke boundaries play no part. */
  lemma {:induction false} CloudOfMap(strokes: seq<Stroke>, t: Affine)
    ensures Cloud(MapStrokes(strokes, t)) == MapCloud(Cloud(strokes), t)
  {
    if strokes != [] {
      assert MapStrokes(strokes, t)[1..] == MapStrokes(strokes[1..], t);
      CloudOfMap(strokes[1..], t);
      MapCloudAppend(strokes[0].points, Cloud(strokes[1..]), t);
    }
  }

  lemma MapKeepsLayout(strokes: seq<Stroke>, t: Affine)
    ensures SameTimes(strokes, MapStrokes(strokes, t))
    ensures NoEmptyStroke(strokes) ==> NoEmptyStroke(MapStrokes(strokes, t))
    ensures HasFirstPoint(strokes) ==> HasFirstPoint(MapStrokes(strokes, t))
  {
  }

  /** Mapping twice is mapping once by the composite. */
  lemma MapThen(strokes: seq<Stroke>, t1: Affine, t2: Affine)
    ensures MapStrokes(MapStrokes(strokes, t1), t2) == MapStrokes(strokes, Then(t1, t2))
  {
    var m := MapStrokes(strokes, t1);
    var l, r := MapStrokes(m, t2), MapStrokes(strokes, Then(t1, t2));
    forall i | 0 <= i < |strokes| ensures l[i] == r[i] {
      var ps := strokes[i].points;
      assert m[i].points == MapCloud(ps, t1);
      forall j | 0 <= j < |ps|
        ensures t2.Apply(t1.Apply(ps[j])) == Then(t1, t2).Apply(ps[j])
      {
        ApplyThen(ps[j], t1, t2);
      }
      assert l[i].points == MapCloud(MapCloud(ps, t1), t2);
      assert r[i].points == MapCloud(ps, Then(t1, t2));
    }
  }

  lemma ApplyThen(p: Point, t1: Affine, t2: Affine)
    ensures t2.Apply(t1.Apply(p)) == Then(t1, t2).Apply(p)
  {
    Compose(t1.kx, t1.dx, t2.kx, t2.dx, p.x);
    Compose(t1.ky, t1.dy, t2.ky, t2.dy, p.y);
  }

  lemma Compose(k1: real, d1: real, k2: real, d2: real, v: real)
    ensures k2 * (k1 * v + d1) + d2 == k2 * k1 * v + (k2 * d1 + d2)
  {
  }

  /** A map only reads coordinates and times, so ids attached in between do not matter. */
  lemma MapIgnoresIds(a: seq<Stroke>, b: seq<Stroke>, t: Affine)
    requires SameTimes(a, b)
    requires forall i, j :: 0 <= i < |a| && 0 <= j < |a[i].points| ==>
               a[i].points[j].x == b[i].points[j].x && a[i].points[j].y == b[i].points[j].y
    ensures MapStrokes(a, t) == MapStrokes(b, t)
  {
    var l, r := MapStrokes(a, t), MapStrokes(b, t);
    forall i | 0 <= i < |a| ensures l[i] == r[i] {
      forall j | 0 <= j < |a[i].points| ensures l[i].points[j] == r[i].points[j] {
        assert a[i].points[j].time == b[i].points[j].time;
      }
    }
  }

  /** Centre of one axis: the midpoint of the extent, written as the source writes it. */
  function Center(c: seq<Point>, a: Axis): real
    requires c != []
  {
    Lo(c, a) + (Hi(c, a) - Lo(c, a)) / 2.0
  }

  /** Centroid of one axis: the point-weighted mean. */
  function Mean(c: seq<Point>, a: Axis): real
    requires c != []
  {
    Total(c, a) / |c| as real
  }

  lemma {:induction false} MapLo(c: seq<Point>, t: Affine, a: Axis)
    requires c != [] && t.Monotone()
    ensures Lo(MapCloud(c, t), a) == t.At(a, Lo(c, a))
  {
    var m, last := MapCloud(c, t), |c| - 1;
    assert m[last] == t.Apply(c[last]);
    CoordOfApply(c[last], t, a);
    if |c| > 1 {
      var init := c[..last];
      assert m[..last] == MapCloud(init, t);
      MapLo(init, t, a);
      MinOfMap(t, a, Lo(init, a), Coord(c[last], a));
    }
  }

  lemma {:induction false} MapHi(c: seq<Point>, t: Affine, a: Axis)
    requires c != [] && t.Monotone()
    ensures Hi(MapCloud(c, t), a) == t.At(a, Hi(c, a))
  {
    var m, last := MapCloud(c, t), |c| - 1;
    assert m[last] == t.Apply(c[last]);
    CoordOfApply(c[last], t, a);
    if |c| > 1 {
      var init := c[..last];
      assert m[..last] == MapCloud(init, t);
      MapHi(init, t, a);
      MaxOfMap(t, a, Hi(init, a), Coord(c[last], a));
    }
  }

  lemma {:induction false} MapTotal(c: seq<Point>, t: Affine, a: Axis)
    ensures Total(MapCloud(c, t), a) == t.SumAt(a, Total(c, a), |c|)
  {
    var m := MapCloud(c, t);
    if c != [] {
      var last := |c| - 1;
      var init := c[..last];
      CoordOfApply(c[last], t, a);
      assert m[last] == t.Apply(c[last]);
      assert m[..last] == MapCloud(init, t);
      MapTotal(init, t, a);
      TotalOfMap(t, a, Total(init, a), |init|, Coord(c[last], a));
    }
  }

  lemma CoordOfApply(p: Point, t: Affine, a: Axis)
    ensures Coord(t.Apply(p), a) == t.At(a, Coord(p, a))
  {
  }

  lemma MinOfMap(t: Affine, a: Axis, u: real, v: real)
    requires t.Monotone()
    ensures Min(t.At(a, u), t.At(a, v)) == t.At(a, Min(u, v))
  {
    var k := t.K(a);
    assert t.At(a, u) == k * u + t.B(a) && t.At(a, v) == k * v + t.B(a);
    if u <= v { MulMono(k, u, v); } else { MulMono(k, v, u); }
  }

  lemma MaxOfMap(t: Affine, a: Axis, u: real, v: real)
    requires t.Monotone()
    ensures Max(t.At(a, u), t.At(a, v)) == t.At(a, Max(u, v))
  {
    var k := t.K(a);
    assert t.At(a, u) == k * u + t.B(a) && t.At(a, v) == k * v + t.B(a);
    if u >= v { MulMono(k, v, u); } else { MulMono(k, u, v); }
  }

  lemma TotalOfMap(t: Affine, a: Axis, total: real, n: nat, v: real)
    ensures t.SumAt(a, total, n) + t.At(a, v) == t.SumAt(a, total + v, n + 1)
  {
    var k, d := t.K(a), t.B(a);
    assert k * (total + v) == k * total + k * v;
  }

  /** One axis of a mapped cloud: extremes, centre and centroid all follow the map. */
  lemma MapAxis(c: seq<Point>, t: Affine, a: Axis)
    requires c != [] && t.Monotone()
    ensures var m := MapCloud(c, t);
      && Lo(m, a) == t.At(a, Lo(c, a)) && Hi(m, a) == t.At(a, Hi(c, a))
      && Center(m, a) == t.At(a, Center(c, a)) && Mean(m, a) == t.At(a, Mean(c, a))
  {
    MapLo(c, t, a);
    MapHi(c, t, a);
    CenterOfMap(t, a, Lo(c, a), Hi(c, a));
    MapTotal(c, t, a);
    MeanOfMap(t, a, Total(c, a), |c|);
  }

  lemma CenterOfMap(t: Affine, a: Axis, lo: real, hi: real)
    ensures t.At(a, lo) + (t.At(a, hi) - t.At(a, lo)) / 2.0 == t.At(a, lo + (hi - lo) / 2.0)
  {
    var k := t.K(a);
    assert k * (lo + (hi - lo) / 2.0) == k * lo + (k * hi - k * lo) / 2.0;
  }

  lemma ExtentOfMap(t: Affine, a: Axis, lo: real, hi: real)
    ensures t.At(a, hi) - t.At(a, lo) == t.Stretch(a, hi - lo)
  {
  }

  lemma MeanOfMap(t: Affine, a: Axis, total: real, n: nat)
    requires n > 0
    ensures t.SumAt(a, total, n) / n as real == t.At(a, total / n as real)
  {
    var k, d, r := t.K(a), t.B(a), n as real;
    assert (k * total + r * d) / r == k * total / r + d;
  }

  /** The box of a mapped cloud is the mapped box. */
  lemma MapBox(c: seq<Point>, t: Affine)
    requires c != [] && t.Monotone()
    ensures BoxOfCloud(MapCloud(c, t)) == BoxOfCloud(c).Mapped(t)
  {
    MapAxis(c, t, X);
    MapAxis(c, t, Y);
    ExtentOfMap(t, X, Lo(c, X), Hi(c, X));
    ExtentOfMap(t, Y, Lo(c, Y), Hi(c, Y));
  }

  /** The same for the strokes of a sketch. */
  lemma MapStrokesBox(strokes: seq<Stroke>, t: Affine)
    requires HasFirstPoint(strokes) && t.Monotone()
    ensures HasFirstPoint(MapStrokes(strokes, t))
    ensures BoxOf(MapStrokes(strokes, t)) == BoxOf(strokes).Mapped(t)
  {
    CloudStartsWithFirstPoint(strokes);
    CloudOfMap(strokes, t);
    MapBox(Cloud(strokes), t);
  }

  /** Geometry only: the box depends on nothing but the coordinates. */
  lemma BoxIgnoresIds(a: seq<Stroke>, b: seq<Stroke>)
    requires SameTimes(a, b) && HasFirstPoint(a)
    requires forall i, j :: 0 <= i < |a| && 0 <= j < |a[i].points| ==>
               a[i].points[j].x == b[i].points[j].x && a[i].points[j].y == b[i].points[j].y
    ensures HasFirstPoint(b) && BoxOf(a) == BoxOf(b)
  {
    var id := Affine(1.0, 0.0, 1.0, 0.0);
    MapIgnoresIds(a, b, id);
    MapStrokesBox(a, id);
    MapStrokesBox(b, id);
    MappedByIdentity(BoxOf(a));
    MappedByIdentity(BoxOf(b));
  }

  lemma MappedByIdentity(box: Box)
    ensures box.Mapped(Affine(1.0, 0.0, 1.0, 0.0)) == box
  {
  }

  /** `CloudSnoc`: one more stroke appends its points to the cloud. */
  lemma CloudSnoc(strokes: seq<Stroke>, i: int)
    requires 0 <= i < |strokes|
    ensures Cloud(strokes[..i + 1]) == Cloud(strokes[..i]) + strokes[i].points
  {
    assert strokes[..i + 1] == strokes[..i] + [strokes[i]];
    CloudAppend(strokes[..i], [strokes[i]]);
    assert [strokes[i]][1..] == [];
  }
}
