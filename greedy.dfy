/** The `Greedy` template matcher, a greedy Hausdorff-style distance: each point of one
    cloud takes the nearest point still left in a copy of the other cloud, which is then
    removed; the score is the smaller of the two directions over the common length. */
module Greedy {
  import opened SketchModel
  import opened Metric
  import opened Geometry
  import opened Ranking

  /** The inner loop of `calculateDistance`: the running minimum, seeded with
      `Number.MAX_SAFE_INTEGER`, and its index, seeded with -1, over the pool. The test is a
      strict `<`, so the earliest of several nearest points wins. */
  function Nearest(p: Point, pool: seq<Point>, dist: Distance): (r: (real, int))
    ensures -1 <= r.1 < |pool|
    ensures r.1 == -1 ==> r.0 == MaxSafe
    ensures r.1 >= 0 ==> r.0 == PointDist(dist, p, pool[r.1]) < MaxSafe
  {
    if pool == [] then (MaxSafe, -1)
    else
      var prev := Nearest(p, pool[..|pool| - 1], dist);
      var d := PointDist(dist, p, pool[|pool| - 1]);
      if d < prev.0 then (d, |pool| - 1) else prev
  }

  /** The minimum is at most the distance to every pool point, and strictly below the
      distance to every point before its index: the first nearest point is the one taken. */
  lemma {:induction false} NearestIsFirstLeast(p: Point, pool: seq<Point>, dist: Distance)
    ensures var r := Nearest(p, pool, dist);
      && (forall j :: 0 <= j < |pool| ==> r.0 <= PointDist(dist, p, pool[j]))
      && (forall j :: 0 <= j < r.1 ==> r.0 < PointDist(dist, p, pool[j]))
  {
    if pool != [] {
      var front := pool[..|pool| - 1];
      NearestIsFirstLeast(p, front, dist);
      assert forall j :: 0 <= j < |front| ==> front[j] == pool[j];
    }
  }

  /** `thatCloud.splice(minIndex, 1)`. An index of -1 counts from the end, so when no point
      was found the last point of the pool goes; an empty pool stays empty. */
  function Splice(pool: seq<Point>, k: int): (r: seq<Point>)
    requires -1 <= k < |pool|
    ensures |r| == if pool == [] then 0 else |pool| - 1
  {
    if k == -1 then (if pool == [] then [] else pool[..|pool| - 1])
    else pool[..k] + pool[k + 1..]
  }

  /** The splice takes one point out of the pool, and with a found index exactly the point
      at that index. */
  lemma SpliceRemoves(pool: seq<Point>, k: int)
    requires -1 <= k < |pool|
    ensures multiset(Splice(pool, k)) <= multiset(pool)
    ensures 0 <= k ==> multiset(Splice(pool, k)) + multiset{pool[k]} == multiset(pool)
  {
    if k == -1 {
      if pool != [] {
        assert pool == pool[..|pool| - 1] + [pool[|pool| - 1]];
      }
    } else {
      assert pool == pool[..k] + [pool[k]] + pool[k + 1..];
    }
  }

  /** What `calculateDistance(cloud, otherCloud)` adds up: for each point of `cloud` in
      order, the distance to its nearest point left in the pool, which then leaves it. */
  function GreedySum(cloud: seq<Point>, pool: seq<Point>, dist: Distance): real
  {
    if cloud == [] then 0.0
    else
      var (m, k) := Nearest(cloud[0], pool, dist);
      m + GreedySum(cloud[1..], Splice(pool, k), dist)
  }

  /** The pool points the greedy walk takes, in the order it takes them. */
  function Matches(cloud: seq<Point>, pool: seq<Point>, dist: Distance): seq<Point>
  {
    if cloud == [] then []
    else
      var (m, k) := Nearest(cloud[0], pool, dist);
      (if k >= 0 then [pool[k]] else []) + Matches(cloud[1..], Splice(pool, k), dist)
  }

  /** The sum from point `i` on: its nearest distance, then the rest against the spliced
      pool. */
  lemma GreedyStep(cloud: seq<Point>, i: int, pool: seq<Point>, dist: Distance)
    requires 0 <= i < |cloud|
    ensures var (m, k) := Nearest(cloud[i], pool, dist);
      GreedySum(cloud[i..], pool, dist) == m + GreedySum(cloud[i + 1..], Splice(pool, k), dist)
  {
    assert cloud[i..][0] == cloud[i] && cloud[i..][1..] == cloud[i + 1..];
  }

  /** `calculateDistance(cloud, otherCloud)`: `otherCloud` is first copied into the pool,
      which the matching then depletes. */
  method CalculateDistance(cloud: seq<Point>, otherCloud: seq<Point>, dist: Distance) returns (score: real)
    ensures score == GreedySum(cloud, otherCloud, dist)
  {
    var thatCloud := CopyCloud(otherCloud);
    var distance := 0.0;
    var i := 0;
    while i < |cloud|
      invariant 0 <= i <= |cloud|
      invariant distance + GreedySum(cloud[i..], thatCloud, dist) == GreedySum(cloud, otherCloud, dist)
    {
      var thisPoint := cloud[i];
      var minDistance, minIndex := NearestIn(thisPoint, thatCloud, dist);
      GreedyStep(cloud, i, thatCloud, dist);
      distance := distance + minDistance;
      thatCloud := Splice(thatCloud, minIndex);
      i := i + 1;
    }
    score := distance;
  }

  /** The first loop of `calculateDistance`: `otherCloud` pushed point by point into a
      fresh array, so that the splices leave the caller's cloud alone. */
  method CopyCloud(otherCloud: seq<Point>) returns (thatCloud: seq<Point>)
    ensures thatCloud == otherCloud
  {
    thatCloud := [];
    var i := 0;
    while i < |otherCloud|
      invariant 0 <= i <= |otherCloud| && thatCloud == otherCloud[..i]
    {
      PrefixGrows(otherCloud, i);
      thatCloud := thatCloud + [otherCloud[i]];
      i := i + 1;
    }
  }

  /** The inner `for` loop of `calculateDistance`. */
  method NearestIn(p: Point, pool: seq<Point>, dist: Distance) returns (minDistance: real, minIndex: int)
    ensures (minDistance, minIndex) == Nearest(p, pool, dist)
  {
    minDistance, minIndex := MaxSafe, -1;
    var j := 0;
    while j < |pool|
      invariant 0 <= j <= |pool|
      invariant (minDistance, minIndex) == Nearest(p, pool[..j], dist)
    {
      assert pool[..j + 1][..j] == pool[..j];
      var currentDistance := dist(p.x, p.y, pool[j].x, pool[j].y);
      if currentDistance < minDistance {
        minDistance := currentDistance;
        minIndex := j;
      }
      j := j + 1;
    }
    assert pool[..j] == pool;
  }

  /** Under a metric every step adds a non-negative amount. */
  lemma {:induction false} GreedySumNonNegative(cloud: seq<Point>, pool: seq<Point>, dist: Distance)
    requires IsMetric(dist)
    ensures GreedySum(cloud, pool, dist) >= 0.0
  {
    if cloud != [] {
      var (m, k) := Nearest(cloud[0], pool, dist);
      GreedySumNonNegative(cloud[1..], Splice(pool, k), dist);
    }
  }

  /** No pool point is taken more often than it occurs in the pool. */
  lemma {:induction false} MatchesFromPool(cloud: seq<Point>, pool: seq<Point>, dist: Distance)
    ensures multiset(Matches(cloud, pool, dist)) <= multiset(pool)
  {
    if cloud != [] {
      var (m, k) := Nearest(cloud[0], pool, dist);
      SpliceRemoves(pool, k);
      MatchesFromPool(cloud[1..], Splice(pool, k), dist);
    }
  }

  /** Every distance from a cloud point to a pool point is below the search seed. */
  predicate BelowSeed(cloud: seq<Point>, pool: seq<Point>, dist: Distance) {
    forall i, j :: 0 <= i < |cloud| && 0 <= j < |pool| ==> PointDist(dist, cloud[i], pool[j]) < MaxSafe
  }

  /** When the pool is at least as large as the cloud (as in `run`, where both clouds have
      the same length) and every distance is below the seed, every cloud point is matched:
      the index -1 never reaches `splice`. */
  lemma {:induction false} MatchesAll(cloud: seq<Point>, pool: seq<Point>, dist: Distance)
    requires |cloud| <= |pool| && BelowSeed(cloud, pool, dist)
    ensures |Matches(cloud, pool, dist)| == |cloud|
  {
    if cloud != [] {
      var (m, k) := Nearest(cloud[0], pool, dist);
      assert PointDist(dist, cloud[0], pool[0]) < MaxSafe;
      var rest := Splice(pool, k);
      SpliceRemoves(pool, k);
      BelowSeedOfSub(cloud[1..], pool, rest, dist);
      MatchesAll(cloud[1..], rest, dist);
    }
  }

  lemma BelowSeedOfSub(cloud: seq<Point>, pool: seq<Point>, sub: seq<Point>, dist: Distance)
    requires multiset(sub) <= multiset(pool)
    requires forall i, j :: 0 <= i < |cloud| && 0 <= j < |pool| ==> PointDist(dist, cloud[i], pool[j]) < MaxSafe
    ensures BelowSeed(cloud, sub, dist)
  {
    forall i, j | 0 <= i < |cloud| && 0 <= j < |sub|
      ensures PointDist(dist, cloud[i], sub[j]) < MaxSafe
    {
      assert sub[j] in multiset(pool);
    }
  }

  /** A point's coordinates, what the distance sees of it. */
  function Spot(p: Point): (real, real) { (p.x, p.y) }

  function Spots(s: seq<Point>): (r: seq<(real, real)>)
    ensures |r| == |s|
  {
    seq(|s|, i requires 0 <= i < |s| => Spot(s[i]))
  }

  lemma SpotsOfSplice(pool: seq<Point>, k: int)
    requires 0 <= k < |pool|
    ensures multiset(Spots(Splice(pool, k))) + multiset{Spot(pool[k])} == multiset(Spots(pool))
  {
    var a, b := pool[..k], pool[k + 1..];
    assert Spots(pool) == Spots(a) + [Spot(pool[k])] + Spots(b);
    assert Spots(Splice(pool, k)) == Spots(a) + Spots(b);
  }

  lemma SpotsCons(s: seq<Point>)
    requires s != []
    ensures multiset(Spots(s)) == multiset{Spot(s[0])} + multiset(Spots(s[1..]))
  {
    assert Spots(s) == [Spot(s[0])] + Spots(s[1..]);
  }

  lemma Cancel(a: multiset<(real, real)>, b: multiset<(real, real)>, x: (real, real))
    requires multiset{x} + a <= b + multiset{x}
    ensures a <= b
  {
    forall y ensures a[y] <= b[y] {
      assert (multiset{x} + a)[y] == multiset{x}[y] + a[y];
      assert (b + multiset{x})[y] == b[y] + multiset{x}[y];
    }
  }

  /** When every point of `cloud` has a point at the same coordinates left in the pool (as
      many times as it occurs), the greedy sum is 0: each point finds a point at distance 0
      and takes it. An exact copy is the case where the two clouds are the same. */
  lemma {:induction false} CoveredScoresZero(cloud: seq<Point>, pool: seq<Point>, dist: Distance)
    requires IsMetric(dist) && multiset(Spots(cloud)) <= multiset(Spots(pool))
    ensures GreedySum(cloud, pool, dist) == 0.0
  {
    if cloud != [] {
      var p := cloud[0];
      assert Spots(cloud)[0] == Spot(p);
      assert Spot(p) in multiset(Spots(pool));
      var j :| 0 <= j < |pool| && Spots(pool)[j] == Spot(p);
      assert PointDist(dist, p, pool[j]) == 0.0;
      var (m, k) := Nearest(p, pool, dist);
      NearestIsFirstLeast(p, pool, dist);
      assert k >= 0;
      assert PointDist(dist, p, pool[k]) == 0.0;
      assert Spot(pool[k]) == Spot(p);
      SpotsOfSplice(pool, k);
      SpotsCons(cloud);
      Cancel(multiset(Spots(cloud[1..])), multiset(Spots(Splice(pool, k))), Spot(p));
      CoveredScoresZero(cloud[1..], Splice(pool, k), dist);
    }
  }

  /** The score of one template: the smaller of the two directions, each over the common
      length. An empty cloud would divide by zero. */
  function Score(inputCloud: seq<Point>, templateCloud: seq<Point>, dist: Distance): real
    requires inputCloud != [] && templateCloud != []
  {
    var n := MinLen(inputCloud, templateCloud);
    var score := GreedySum(inputCloud[..n], templateCloud[..n], dist) / n as real;
    var score2 := GreedySum(templateCloud[..n], inputCloud[..n], dist) / n as real;
    if score < score2 then score else score2
  }

  /** A score is non-negative, and a template that agrees with the input over their common
      length scores 0: `[(0,0),(1,1)]` against `[(0,0),(1,1),(2,2)]`, say. */
  lemma ScoreFacts(inputCloud: seq<Point>, templateCloud: seq<Point>, dist: Distance)
    requires inputCloud != [] && templateCloud != [] && IsMetric(dist)
    ensures Score(inputCloud, templateCloud, dist) >= 0.0
    ensures SharePrefix(inputCloud, templateCloud) ==> Score(inputCloud, templateCloud, dist) == 0.0
  {
    var n := MinLen(inputCloud, templateCloud);
    var a, b := inputCloud[..n], templateCloud[..n];
    GreedySumNonNegative(a, b, dist);
    GreedySumNonNegative(b, a, dist);
    if SharePrefix(inputCloud, templateCloud) {
      CoveredScoresZero(a, b, dist);
      CoveredScoresZero(b, a, dist);
    }
    SmallerRatio(GreedySum(a, b, dist), GreedySum(b, a, dist), n);
  }

  lemma SmallerRatio(s1: real, s2: real, n: nat)
    requires n > 0 && s1 >= 0.0 && s2 >= 0.0
    ensures var a, b := s1 / n as real, s2 / n as real;
      && (if a < b then a else b) >= 0.0
      && (s1 == 0.0 && s2 == 0.0 ==> (if a < b then a else b) == 0.0)
  {
  }

  /** One `{label, score}` per template, in template order, before the sort. */
  function Scores(input: Sketch, templates: seq<Sketch>, dist: Distance): (r: seq<Scored>)
    requires Cloud(input.strokes) != []
    requires forall i :: 0 <= i < |templates| ==> HasLabel(templates[i]) && Cloud(templates[i].strokes) != []
    ensures |r| == |templates|
  {
    seq(|templates|, i requires 0 <= i < |templates| => Result(input, templates[i], dist))
  }

  /** The result for one template: its label and its score against the input. */
  function Result(input: Sketch, template: Sketch, dist: Distance): Scored
    requires Cloud(input.strokes) != [] && HasLabel(template) && Cloud(template.strokes) != []
  {
    Scored(Label(template), Score(Cloud(input.strokes), Cloud(template.strokes), dist))
  }

  /** The body of the template loop of `Greedy.run`: both clouds cut to the common length,
      scored both ways, the smaller score kept. */
  method ScoreTemplate(input: Sketch, template: Sketch, dist: Distance) returns (result: Scored)
    requires Cloud(input.strokes) != [] && HasLabel(template) && Cloud(template.strokes) != []
    ensures result == Result(input, template, dist)
  {
    var inputCloud := GetPointCloud(input);
    var templateLabel := template.shapes.value[0].interpretation;
    var templateCloud := GetPointCloud(template);
    var pointCount := if |inputCloud| < |templateCloud| then |inputCloud| else |templateCloud|;
    inputCloud := Truncate(inputCloud, pointCount);
    templateCloud := Truncate(templateCloud, pointCount);
    var score := CalculateDistance(inputCloud, templateCloud, dist);
    ghost var sum := score;
    score := score / pointCount as real;
    var score2 := CalculateDistance(templateCloud, inputCloud, dist);
    ghost var sum2 := score2;
    score2 := score2 / pointCount as real;
    score := if score < score2 then score else score2;
    result := Scored(templateLabel, score);
    ScoreOf(Cloud(input.strokes), Cloud(template.strokes), sum, sum2, dist);
  }

  /** The score from the two greedy sums over the common length. */
  lemma ScoreOf(a: seq<Point>, b: seq<Point>, sum: real, sum2: real, dist: Distance)
    requires a != [] && b != []
    requires var n := MinLen(a, b); sum == GreedySum(a[..n], b[..n], dist) && sum2 == GreedySum(b[..n], a[..n], dist)
    ensures var n := MinLen(a, b) as real;
      Score(a, b, dist) == if sum / n < sum2 / n then sum / n else sum2 / n
  {
  }

  /** `Greedy.run(input, templates)`. */
  method Run(input: Sketch, templates: seq<Sketch>, dist: Distance) returns (results: seq<Scored>)
    requires Cloud(input.strokes) != []
    requires forall i :: 0 <= i < |templates| ==> HasLabel(templates[i]) && Cloud(templates[i].strokes) != []
    ensures results == SortByScore(Scores(input, templates, dist))
  {
    ghost var all := Scores(input, templates, dist);
    results := [];
    var i := 0;
    while i < |templates|
      invariant 0 <= i <= |templates|
      invariant results == all[..i]
    {
      var result := ScoreTemplate(input, templates[i], dist);
      assert all[i] == result;
      PrefixGrows(all, i);
      results := results + [result];
      i := i + 1;
    }
    assert all[..i] == all;
    results := SortByScore(results);
  }

  /** The ranking: one result per template, each carrying that template's label and score,
      sorted ascending, every score non-negative; a template that agrees with the input
      over their common length scores 0, so the best score is then 0. */
  lemma RunSpec(input: Sketch, templates: seq<Sketch>, dist: Distance)
    requires Cloud(input.strokes) != [] && IsMetric(dist)
    requires forall i :: 0 <= i < |templates| ==> HasLabel(templates[i]) && Cloud(templates[i].strokes) != []
    ensures var r, s := SortByScore(Scores(input, templates, dist)), Scores(input, templates, dist);
      && |r| == |templates| && SortedByScore(r) && multiset(r) == multiset(s)
      && (forall i :: 0 <= i < |templates| ==> s[i].shapeLabel == Label(templates[i]))
      && (forall k :: 0 <= k < |r| ==> r[k].score >= 0.0)
      && (forall i :: 0 <= i < |templates| && SharePrefix(Cloud(input.strokes), Cloud(templates[i].strokes)) ==>
            s[i].score == 0.0 && r[0].score == 0.0)
  {
    var s := Scores(input, templates, dist);
    forall i | 0 <= i < |templates|
      ensures s[i].score >= 0.0
      ensures SharePrefix(Cloud(input.strokes), Cloud(templates[i].strokes)) ==> s[i].score == 0.0
    {
      ScoreFacts(Cloud(input.strokes), Cloud(templates[i].strokes), dist);
    }
    SortedScores(s);
  }
}
