/** What the two template matchers share: the `(label, score)` results, the ascending sort
    of `results.sort((a, b) => a.score - b.score)`, the label read from a template, and the
    `pop` loops that cut both point clouds to their common length. */
module Ranking {
  import opened SketchModel

  /** One `{label, score}` result (`label` is a Dafny keyword, hence `shapeLabel`). */
  datatype Scored = Scored(shapeLabel: string, score: real)

  predicate SortedByScore(s: seq<Scored>) {
    forall i, j :: 0 <= i < j < |s| ==> s[i].score <= s[j].score
  }

  /** Insert `x` before the first entry that does not score below it. */
  function Insert(x: Scored, s: seq<Scored>): (r: seq<Scored>)
    requires SortedByScore(s)
    ensures SortedByScore(r) && multiset(r) == multiset(s) + multiset{x}
    ensures |r| == |s| + 1
    ensures forall k :: 0 <= k < |r| ==> r[k] == x || r[k] in s
  {
    if s == [] || x.score <= s[0].score then
      LowestFirst(x, s);
      [x] + s
    else
      assert s == [s[0]] + s[1..];
      var rest := Insert(x, s[1..]);
      HeadStaysFirst(x, s, rest);
      [s[0]] + rest
  }

  /** An entry scoring no more than the head of a sorted list scores no more than any of it. */
  lemma LowestFirst(x: Scored, s: seq<Scored>)
    requires SortedByScore(s) && (s == [] || x.score <= s[0].score)
    ensures SortedByScore([x] + s)
  {
  }

  /** The head of a sorted list stays in front when `x`, scoring above it, goes into the
      rest. */
  lemma HeadStaysFirst(x: Scored, s: seq<Scored>, rest: seq<Scored>)
    requires s != [] && SortedByScore(s) && s[0].score < x.score
    requires SortedByScore(rest) && forall k :: 0 <= k < |rest| ==> rest[k] == x || rest[k] in s[1..]
    ensures SortedByScore([s[0]] + rest)
  {
    forall k | 0 <= k < |rest| ensures s[0].score <= rest[k].score {
      if rest[k] != x {
        var j :| 0 <= j < |s[1..]| && s[1..][j] == rest[k];
        assert s[j + 1] == rest[k];
      }
    }
  }

  /** The ascending order the comparator `a.score - b.score` asks the array sort for:
      a permutation of the results, sorted by score. */
  function SortByScore(s: seq<Scored>): (r: seq<Scored>)
    ensures SortedByScore(r) && multiset(r) == multiset(s)
    ensures |r| == |s|
  {
    if s == [] then []
    else
      assert s == [s[0]] + s[1..];
      Insert(s[0], SortByScore(s[1..]))
  }

  /** Sorting keeps every score and puts a least one first: when no score is negative,
      none is after the sort, and a zero score anywhere makes the first score zero. */
  lemma SortedScores(s: seq<Scored>)
    requires forall i :: 0 <= i < |s| ==> s[i].score >= 0.0
    ensures var r := SortByScore(s);
      && (forall k :: 0 <= k < |r| ==> r[k].score >= 0.0)
      && (forall i :: 0 <= i < |s| && s[i].score == 0.0 ==> r[0].score == 0.0)
  {
    var r := SortByScore(s);
    forall k | 0 <= k < |r| ensures r[k].score >= 0.0 {
      assert r[k] in multiset(s);
    }
    forall i | 0 <= i < |s| && s[i].score == 0.0 ensures r[0].score == 0.0 {
      assert s[i] in multiset(r);
    }
  }

  /** The template's label is the interpretation of its first shape; a template without a
      shape makes `template.shapes[0]` throw. */
  predicate HasLabel(t: Sketch) {
    t.shapes.Some? && t.shapes.value != []
  }

  function Label(t: Sketch): string
    requires HasLabel(t)
  {
    t.shapes.value[0].interpretation
  }

  /** `Math.min` of the two cloud lengths: the length both clouds are cut to. */
  function MinLen(a: seq<Point>, b: seq<Point>): nat {
    if |a| < |b| then |a| else |b|
  }

  /** The two clouds hold the same points up to their common length. */
  predicate SharePrefix(a: seq<Point>, b: seq<Point>) {
    a[..MinLen(a, b)] == b[..MinLen(a, b)]
  }

  /** `while (cloud.length > pointCount) { cloud.pop(); }`: the cloud cut from the end
      down to `pointCount` points, or left alone when it is already that short. */
  method Truncate(cloud: seq<Point>, pointCount: nat) returns (r: seq<Point>)
    ensures |r| == if |cloud| < pointCount then |cloud| else pointCount
    ensures r == cloud[..|r|]
  {
    r := cloud;
    while |r| > pointCount
      invariant pointCount <= |r| <= |cloud| || r == cloud
      invariant r == cloud[..|r|]
    {
      r := r[..|r| - 1];
    }
  }
}
