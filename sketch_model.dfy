/** The sketch data model shared by the recognizer library and the apps.
    A field that the JavaScript object may simply not have (a stage builds a bare
    `{strokes}` object, or a canvas stroke point has no `time`) is an Option. */
module SketchModel {

  datatype Option<T> = None | Some(value: T)

  /** A pen sample. */
  datatype Point = Point(x: real, y: real, time: Option<int>, id: Option<string>)

  /** A stroke; `time` is meant to be the time of its first point. */
  datatype Stroke = Stroke(id: Option<string>, time: Option<int>, points: seq<Point>)

  /** The label of a sketch; `subElements` refers to strokes by id. */
  datatype Shape = Shape(subElements: seq<Option<string>>, time: Option<int>,
                         interpretation: string, confidence: string)

  datatype Sketch = Sketch(id: Option<string>, time: Option<int>, domain: Option<string>,
                           canvasWidth: Option<real>, canvasHeight: Option<real>,
                           strokes: seq<Stroke>, substrokes: Option<seq<Stroke>>,
                           shapes: Option<seq<Shape>>)

  /** The object literal `{x: x, y: y, time: t}` built by every normalisation stage. */
  function BarePoint(x: real, y: real, time: Option<int>): Point { Point(x, y, time, None) }

  /** The object literal `{points: ps}`. */
  function BareStroke(points: seq<Point>): Stroke { Stroke(None, None, points) }

  /** The object literal `{strokes: ss}`. */
  function BareSketch(strokes: seq<Stroke>): Sketch {
    Sketch(None, None, None, None, None, strokes, None, None)
  }

  /** Supplied fresh identifiers (the UUID generator is random, so it is an input):
      one for the sketch, one per stroke position and one per point position. */
  datatype IdSource = IdSource(sketch: string, stroke: nat -> string, point: (nat, nat) -> string)

  /** Every stroke has at least one point: what the metadata transfer reads. */
  predicate NoEmptyStroke(strokes: seq<Stroke>) {
    forall i :: 0 <= i < |strokes| ==> strokes[i].points != []
  }

  /** `strokes[0].points[0]` exists: what the bounding box and the sketch time read. */
  predicate HasFirstPoint(strokes: seq<Stroke>) {
    strokes != [] && strokes[0].points != []
  }

  /** The point cloud: every stroke's points in stroke order, then point order. */
  function Cloud(strokes: seq<Stroke>): seq<Point> {
    if strokes == [] then [] else strokes[0].points + Cloud(strokes[1..])
  }

  /** A prefix one longer is the prefix and the next element. Stated for any element type,
      so that a caller's elements are not looked into. */
  lemma PrefixGrows<T>(s: seq<T>, i: int)
    requires 0 <= i < |s|
    ensures s[..i + 1] == s[..i] + [s[i]]
  {
  }

  /** Total number of points. */
  function PointCount(strokes: seq<Stroke>): nat {
    if strokes == [] then 0 else |strokes[0].points| + PointCount(strokes[1..])
  }

  lemma {:induction false} CloudLength(strokes: seq<Stroke>)
    ensures |Cloud(strokes)| == PointCount(strokes)
  {
    if strokes != [] { CloudLength(strokes[1..]); }
  }

  /** The cloud of a concatenation is the concatenation of the clouds: stroke boundaries
      are erased but stroke order is kept. */
  lemma {:induction false} CloudAppend(a: seq<Stroke>, b: seq<Stroke>)
    ensures Cloud(a + b) == Cloud(a) + Cloud(b)
  {
    if a == [] {
      assert a + b == b;
    } else {
      assert (a + b)[1..] == a[1..] + b;
      CloudAppend(a[1..], b);
    }
  }

  lemma CloudStartsWithFirstPoint(strokes: seq<Stroke>)
    requires HasFirstPoint(strokes)
    ensures Cloud(strokes) != [] && Cloud(strokes)[0] == strokes[0].points[0]
  {
  }

  /** Every point of every stroke is in the cloud. */
  lemma {:induction false} InCloud(strokes: seq<Stroke>, i: int, j: int)
    requires 0 <= i < |strokes| && 0 <= j < |strokes[i].points|
    ensures strokes[i].points[j] in Cloud(strokes)
  {
    if i > 0 {
      assert strokes[1..][i - 1] == strokes[i];
      InCloud(strokes[1..], i - 1, j);
    }
  }

  /** Same number of strokes and of points per stroke. */
  predicate SameLayout(a: seq<Stroke>, b: seq<Stroke>) {
    |a| == |b| && forall i :: 0 <= i < |a| ==> |a[i].points| == |b[i].points|
  }

  /** Same layout and the same time on every point. */
  predicate SameTimes(a: seq<Stroke>, b: seq<Stroke>) {
    SameLayout(a, b) &&
    forall i, j :: 0 <= i < |a| && 0 <= j < |a[i].points| ==> a[i].points[j].time == b[i].points[j].time
  }

  /** Strokes of the same layout hold the same number of points. */
  lemma {:induction false} SameLayoutPointCount(a: seq<Stroke>, b: seq<Stroke>)
    requires SameLayout(a, b)
    ensures PointCount(a) == PointCount(b)
  {
    if a != [] {
      assert SameLayout(a[1..], b[1..]) by {
        forall i | 0 <= i < |a[1..]| ensures |a[1..][i].points| == |b[1..][i].points| {
          assert a[1..][i] == a[i + 1] && b[1..][i] == b[i + 1];
        }
      }
      SameLayoutPointCount(a[1..], b[1..]);
    }
  }

  lemma SameTimesTrans(a: seq<Stroke>, b: seq<Stroke>, c: seq<Stroke>)
    requires SameTimes(a, b) && SameTimes(b, c)
    ensures SameTimes(a, c)
  {
    forall i, j | 0 <= i < |a| && 0 <= j < |a[i].points|
      ensures a[i].points[j].time == c[i].points[j].time
    {
      assert a[i].points[j].time == b[i].points[j].time;
    }
  }
}
