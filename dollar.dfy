/** The `Dollar` template matcher: both point clouds are cut to their common length, the
    score is the sum of the distances between points at the same index, divided by that
    length, and the results are sorted ascending. */
module Dollar {
  import opened SketchModel
  import opened Metric
  import opened Geometry
  import opened Ranking

  /** The sum over `i < |a|` of the distance from `a[i]` to `b[i]`. */
  function PairSum(a: seq<Point>, b: seq<Point>, dist: Distance): real
    requires |a| <= |b|
  {
    if a == [] then 0.0
    else PairSum(a[..|a| - 1], b, dist) + PointDist(dist, a[|a| - 1], b[|a| - 1])
  }

  /** `calculateDistance(cloud, otherCloud)`. It reads `otherCloud[i]` for every index of
      `cloud`, so the other cloud must be at least as long. */
  method CalculateDistance(cloud: seq<Point>, otherCloud: seq<Point>, dist: Distance) returns (score: real)
    requires |cloud| <= |otherCloud|
    ensures score == PairSum(cloud, otherCloud, dist)
  {
    var distance := 0.0;
    var i := 0;
    while i < |cloud|
      invariant 0 <= i <= |cloud|
      invariant distance == PairSum(cloud[..i], otherCloud, dist)
    {
      var thisPoint := cloud[i];
      var thatPoint := otherCloud[i];
      assert cloud[..i + 1][..i] == cloud[..i];
      distance := distance + dist(thisPoint.x, thisPoint.y, thatPoint.x, thatPoint.y);
      i := i + 1;
    }
    assert cloud[..i] == cloud;
    score := distance;
  }

  /** Points at the same index have the same coordinates. */
  predicate SameCoordsAt(a: seq<Point>, b: seq<Point>)
    requires |a| <= |b|
  {
    forall i :: 0 <= i < |a| ==> a[i].x == b[i].x && a[i].y == b[i].y
  }

  /** Under a metric the sum is non-negative, and it is zero exactly when the clouds agree
      point by point: an identical template scores 0 and only a coinciding one does. */
  lemma {:induction false} PairSumZero(a: seq<Point>, b: seq<Point>, dist: Distance)
    requires |a| <= |b| && IsMetric(dist)
    ensures PairSum(a, b, dist) >= 0.0
    ensures PairSum(a, b, dist) == 0.0 <==> SameCoordsAt(a, b)
  {
    if a != [] {
      var init := a[..|a| - 1];
      PairSumZero(init, b, dist);
      assert SameCoordsAt(a, b) <==> SameCoordsAt(init, b) && PointDist(dist, a[|a| - 1], b[|a| - 1]) == 0.0 by {
        assert forall i :: 0 <= i < |init| ==> init[i] == a[i];
      }
    }
  }

  /** The sum does not depend on which cloud is walked. */
  lemma {:induction false} PairSumSymmetric(a: seq<Point>, b: seq<Point>, dist: Distance)
    requires |a| == |b| && IsMetric(dist)
    ensures PairSum(a, b, dist) == PairSum(b, a, dist)
  {
    if a != [] {
      var n := |a|;
      PairSumPrefix(a[..n - 1], b, dist);
      PairSumPrefix(b[..n - 1], a, dist);
      PairSumSymmetric(a[..n - 1], b[..n - 1], dist);
    }
  }

  /** Only the first `|a|` points of `b` are read. */
  lemma {:induction false} PairSumPrefix(a: seq<Point>, b: seq<Point>, dist: Distance)
    requires |a| <= |b|
    ensures PairSum(a, b, dist) == PairSum(a, b[..|a|], dist)
  {
    if a != [] {
      var init := a[..|a| - 1];
      PairSumPrefix(init, b, dist);
      PairSumPrefix(init, b[..|a|], dist);
      assert b[..|a|][..|init|] == b[..|init|];
    }
  }

  /** The score of one template: both clouds cut to the common length, the index-wise sum
      over that length. An empty cloud would divide by zero. */
  function Score(inputCloud: seq<Point>, templateCloud: seq<Point>, dist: Distance): real
    requires inputCloud != [] && templateCloud != []
  {
    var n := MinLen(inputCloud, templateCloud);
    PairSum(inputCloud[..n], templateCloud[..n], dist) / n as real
  }

  /** One `{label, score}` per template, in template order, before the sort. */
  function Scores(input: Sketch, templates: seq<Sketch>, dist: Distance): (r: seq<Scored>)
    requires Cloud(input.strokes) != []
    requires forall i :: 0 <= i < |templates| ==> HasLabel(templates[i]) && Cloud(templates[i].strokes) != []
    ensures |r| == |templates|
  {
    seq(|templates|, i requires 0 <= i < |templates| => Result(input, templates[i], dist))
  }

  /** The result for one template: its label and its score against the input. */
  function Result(input: Sketch, template: Sketch, dist: Distance): Scored
    requires Cloud(input.strokes) != [] && HasLabel(template) && Cloud(template.strokes) != []
  {
    Scored(Label(template), Score(Cloud(input.strokes), Cloud(template.strokes), dist))
  }

  /** The body of the template loop of `Dollar.run`: both clouds, cut to the common
      length, scored. */
  method ScoreTemplate(input: Sketch, template: Sketch, dist: Distance) returns (result: Scored)
    requires Cloud(input.strokes) != [] && HasLabel(template) && Cloud(template.strokes) != []
    ensures result == Result(input, template, dist)
  {
    var inputCloud := GetPointCloud(input);
    var templateLabel := template.shapes.value[0].interpretation;
    var templateCloud := GetPointCloud(template);
    var pointCount := if |inputCloud| < |templateCloud| then |inputCloud| else |templateCloud|;
    inputCloud := Truncate(inputCloud, pointCount);
    templateCloud := Truncate(templateCloud, pointCount);
    var distance := CalculateDistance(inputCloud, templateCloud, dist);
    result := Scored(templateLabel, distance / pointCount as real);
  }

  /** `Dollar.run(input, templates)`. */
  method Run(input: Sketch, templates: seq<Sketch>, dist: Distance) returns (results: seq<Scored>)
    requires Cloud(input.strokes) != []
    requires forall i :: 0 <= i < |templates| ==> HasLabel(templates[i]) && Cloud(templates[i].strokes) != []
    ensures results == SortByScore(Scores(input, templates, dist))
  {
    ghost var all := Scores(input, templates, dist);
    results := [];
    var i := 0;
    while i < |templates|
      invariant 0 <= i <= |templates|
      invariant results == all[..i]
    {
      var result := ScoreTemplate(input, templates[i], dist);
      assert all[i] == result;
      assert all[..i + 1] == all[..i] + [result];
      results := results + [result];
      i := i + 1;
    }
    assert results == all;
    results := SortByScore(results);
  }

  /** The ranking: one result per template, each carrying that template's label and score,
      sorted ascending, every score non-negative; a template whose cloud is the input's
      cloud over their common length (an exact copy, say) scores 0, so the best score is
      then 0. */
  lemma RunSpec(input: Sketch, templates: seq<Sketch>, dist: Distance)
    requires Cloud(input.strokes) != [] && IsMetric(dist)
    requires forall i :: 0 <= i < |templates| ==> HasLabel(templates[i]) && Cloud(templates[i].strokes) != []
    ensures var r, s := SortByScore(Scores(input, templates, dist)), Scores(input, templates, dist);
      && |r| == |templates| && SortedByScore(r) && multiset(r) == multiset(s)
      && (forall i :: 0 <= i < |templates| ==> s[i].shapeLabel == Label(templates[i]))
      && (forall k :: 0 <= k < |r| ==> r[k].score >= 0.0)
      && (forall i :: 0 <= i < |templates| && SharePrefix(Cloud(input.strokes), Cloud(templates[i].strokes)) ==>
            s[i].score == 0.0 && r[0].score == 0.0)
  {
    var s := Scores(input, templates, dist);
    forall i | 0 <= i < |templates|
      ensures s[i].score >= 0.0
      ensures SharePrefix(Cloud(input.strokes), Cloud(templates[i].strokes)) ==> s[i].score == 0.0
    {
      ScoreFacts(Cloud(input.strokes), Cloud(templates[i].strokes), dist);
    }
    SortedScores(s);
  }

  /** A score is non-negative, and a template that agrees with the input over their common
      length scores 0. */
  lemma ScoreFacts(inputCloud: seq<Point>, templateCloud: seq<Point>, dist: Distance)
    requires inputCloud != [] && templateCloud != [] && IsMetric(dist)
    ensures Score(inputCloud, templateCloud, dist) >= 0.0
    ensures SharePrefix(inputCloud, templateCloud) ==> Score(inputCloud, templateCloud, dist) == 0.0
  {
    var n := MinLen(inputCloud, templateCloud);
    PairSumZero(inputCloud[..n], templateCloud[..n], dist);
  }
}
