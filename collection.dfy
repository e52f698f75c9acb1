/** The `SketchDataCollection` app: the drawing buffers of `CanvasData` (points of the
    stroke being drawn, the strokes of the sketch being drawn, the finished sketches), the
    buttons that move data between them, and the study schedule (each entry repeated
    `count` times, optionally shuffled). `Date.now`, `generateUuidv4`, the canvas size and
    `Math.random` are inputs. */
module Collection {
  import opened SketchModel
  import opened StudySetup

  //// Records

  /** The ids of the strokes, in order: a sketch shape's `subElements`. */
  function StrokeIds(strokes: seq<Stroke>): (r: seq<Option<string>>)
    ensures |r| == |strokes|
  {
    seq(|strokes|, i requires 0 <= i < |strokes| => strokes[i].id)
  }

  /** The sketch `collectSketch` pushes. */
  function CollectedSketch(strokes: seq<Stroke>, width: real, height: real,
                           interpretation: string, domain: string, id: string): Sketch
    requires HasFirstPoint(strokes)
  {
    var firstTime := strokes[0].points[0].time;
    Sketch(Some(id), firstTime, Some(domain), Some(width), Some(height), strokes, Some(strokes),
           Some([Shape(StrokeIds(strokes), firstTime, interpretation, "1.0")]))
  }

  /** A stroke as `collectStroke` makes one: an id, at least one point, and the time of
      its first point. */
  predicate WellFormedStroke(s: Stroke) {
    s.id.Some? && s.points != [] && s.time == s.points[0].time
  }

  predicate WellFormedStrokes(strokes: seq<Stroke>) {
    forall i :: 0 <= i < |strokes| ==> WellFormedStroke(strokes[i])
  }

  /** A sketch as `collectSketch` makes one from well-formed strokes: an id, well-formed
      strokes that are also its substrokes, the time of its first point, and one shape that
      lists every stroke id in order, at that same time, with confidence `"1.0"`. */
  predicate WellFormedSketch(s: Sketch) {
    && s.id.Some? && s.strokes != [] && WellFormedStrokes(s.strokes)
    && s.time == s.strokes[0].points[0].time
    && s.substrokes == Some(s.strokes)
    && s.shapes.Some? && |s.shapes.value| == 1
    && var shape := s.shapes.value[0];
       && shape.time == s.time && shape.confidence == "1.0"
       && |shape.subElements| == |s.strokes|
       && forall j :: 0 <= j < |s.strokes| ==> shape.subElements[j] == s.strokes[j].id
  }

  /** A sketch collected from well-formed strokes is well formed, carries the given label,
      domain and canvas size, and its time is its first stroke's time. */
  lemma CollectedSketchSpec(strokes: seq<Stroke>, width: real, height: real,
                            interpretation: string, domain: string, id: string)
    requires strokes != [] && WellFormedStrokes(strokes)
    ensures var s := CollectedSketch(strokes, width, height, interpretation, domain, id);
      && WellFormedSketch(s)
      && s.time == strokes[0].time
      && s.shapes.value[0].interpretation == interpretation
      && s.domain == Some(domain) && s.canvasWidth == Some(width) && s.canvasHeight == Some(height)
  {
    assert WellFormedStroke(strokes[0]);
  }

  //// The buffers

  class CanvasData {
    var points: seq<Point>
    var strokes: seq<Stroke>
    var sketches: seq<Sketch>

    /** Every buffered stroke and every finished sketch is as the collectors make them. */
    ghost predicate Valid()
      reads this
    {
      WellFormedStrokes(strokes) && forall k :: 0 <= k < |sketches| ==> WellFormedSketch(sketches[k])
    }

    /** `{points: [], strokes: [], sketches: []}`. */
    constructor ()
      ensures Valid() && points == [] && strokes == [] && sketches == []
    {
      points := [];
      strokes := [];
      sketches := [];
    }

    /** `collectPoint(x, y)` at time `time` with the fresh id `id`: one point pushed. */
    method CollectPoint(x: real, y: real, time: int, id: string)
      requires Valid()
      modifies this
      ensures Valid()
      ensures points == old(points) + [Point(x, y, Some(time), Some(id))]
      ensures strokes == old(strokes) && sketches == old(sketches)
    {
      points := points + [Point(x, y, Some(time), Some(id))];
    }

    /** `collectStroke()` with the fresh id `id`: the buffered points become a stroke
        stamped with the first point's time, and the point buffer starts afresh. An empty
        buffer makes `points[0].time` throw. */
    method CollectStroke(id: string)
      requires Valid() && points != []
      modifies this
      ensures Valid()
      ensures strokes == old(strokes) + [Stroke(Some(id), old(points)[0].time, old(points))]
      ensures points == [] && sketches == old(sketches)
    {
      var time := points[0].time;
      var stroke := Stroke(Some(id), time, points);
      strokes := strokes + [stroke];
      points := [];
    }

    /** `collectSketch(strokes, width, height, interpretation, domain)` with the fresh id
        `id`. The strokes are those the app passes, `CanvasData.strokes` at submit time. */
    method CollectSketch(strokes': seq<Stroke>, width: real, height: real,
                         interpretation: string, domain: string, id: string)
      requires Valid() && strokes' != [] && WellFormedStrokes(strokes')
      modifies this
      ensures Valid()
      ensures sketches == old(sketches) + [CollectedSketch(strokes', width, height, interpretation, domain, id)]
      ensures points == old(points) && strokes == old(strokes)
    {
      assert WellFormedStroke(strokes'[0]);
      var firstTime := strokes'[0].points[0].time;
      var subElements := [];
      var i := 0;
      while i < |strokes'|
        invariant 0 <= i <= |strokes'|
        invariant subElements == StrokeIds(strokes'[..i])
      {
        subElements := subElements + [strokes'[i].id];
        i := i + 1;
      }
      assert strokes'[..i] == strokes';
      var shape := Shape(subElements, firstTime, interpretation, "1.0");
      var sketch := Sketch(Some(id), firstTime, Some(domain), Some(width), Some(height),
                           strokes', Some(strokes'), Some([shape]));
      CollectedSketchSpec(strokes', width, height, interpretation, domain, id);
      sketches := sketches + [sketch];
    }

    /** `undoButton`: the last stroke dropped; nothing happens when there is none. The
        points buffer is left alone. */
    method Undo()
      requires Valid()
      modifies this
      ensures Valid()
      ensures old(strokes) == [] ==> strokes == old(strokes)
      ensures old(strokes) != [] ==> strokes == old(strokes)[..|old(strokes)| - 1]
      ensures points == old(points) && sketches == old(sketches)
    {
      if |strokes| == 0 {
        return;
      }
      strokes := strokes[..|strokes| - 1];
    }

    /** `clearButton`: both drawing buffers emptied, unless there is no stroke. */
    method Clear()
      requires Valid()
      modifies this
      ensures Valid()
      ensures old(strokes) == [] ==> points == old(points) && strokes == old(strokes)
      ensures old(strokes) != [] ==> points == [] && strokes == []
      ensures sketches == old(sketches)
    {
      if |strokes| == 0 {
        return;
      }
      points := [];
      strokes := [];
    }
  }

  /** The session: the buffers, the expanded entries and the index of the entry being
      drawn. */
  class Session {
    const data: CanvasData
    var entries: seq<Entry>
    var index: int

    ghost predicate Valid()
      reads this, data
    {
      data.Valid() && 0 <= index
    }

    constructor (entries': seq<Entry>)
      ensures fresh(data) && Valid()
      ensures entries == entries' && index == 0
      ensures data.points == [] && data.strokes == [] && data.sketches == []
    {
      data := new CanvasData();
      entries := entries';
      index := 0;
    }

    /** `submitButton` on a canvas of the given size, with the fresh sketch id `id`. With
        no stroke it does nothing. Otherwise the strokes become a sketch labelled with the
        current entry and the index moves on; after the last entry the buffers are left as
        they are (the buttons are hidden instead), otherwise they are emptied for the next
        entry. Submitting past the last entry makes `entries[index].label` throw. */
    method Submit(width: real, height: real, id: string)
      requires Valid()
      requires data.strokes != [] ==> index < |entries|
      modifies this, data
      ensures Valid() && entries == old(entries)
      ensures old(data.strokes) == [] ==>
        index == old(index) && data.points == old(data.points)
        && data.strokes == old(data.strokes) && data.sketches == old(data.sketches)
      ensures old(data.strokes) != [] ==>
        && index == old(index) + 1
        && data.sketches == old(data.sketches)
             + [CollectedSketch(old(data.strokes), width, height, old(entries[index]).shapeLabel, "Sketch", id)]
        && (index >= |entries| ==> data.points == old(data.points) && data.strokes == old(data.strokes))
        && (index < |entries| ==> data.points == [] && data.strokes == [])
    {
      var strokes := data.strokes;
      if |strokes| == 0 {
        return;
      }
      var entry := entries[index];
      var interpretation := entry.shapeLabel;
      var domain := "Sketch";
      data.CollectSketch(strokes, width, height, interpretation, domain, id);
      index := index + 1;
      if index >= |entries| {
        return;
      }
      data.points := [];
      data.strokes := [];
    }
  }

  //// The schedule

  /** `count` copies of one entry; a count below one gives none, as the inner loop then
      never runs. */
  function Copies(e: Entry, count: int): (r: seq<Entry>)
    ensures |r| == (if count < 0 then 0 else count)
  {
    seq(if count < 0 then 0 else count, _ => e)
  }

  /** The expanded entries: every entry repeated `count` times, in entry order. */
  function Expanded(entries: seq<Entry>, count: int): seq<Entry> {
    if entries == [] then []
    else Expanded(entries[..|entries| - 1], count) + Copies(entries[|entries| - 1], count)
  }

  /** The nested loops of `run` that build `newEntries`. */
  method Expand(entries: seq<Entry>, count: int) returns (newEntries: seq<Entry>)
    ensures newEntries == Expanded(entries, count)
  {
    newEntries := [];
    var i := 0;
    while i < |entries|
      invariant 0 <= i <= |entries|
      invariant newEntries == Expanded(entries[..i], count)
    {
      var entry := entries[i];
      var j := 0;
      ghost var before := newEntries;
      while j < count
        invariant 0 <= j <= (if count < 0 then 0 else count)
        invariant newEntries == before + Copies(entry, j)
      {
        newEntries := newEntries + [entry];
        j := j + 1;
      }
      assert entries[..i + 1][..i] == entries[..i];
      i := i + 1;
    }
    assert entries[..i] == entries;
  }

  /** Each entry fills a block of `count` consecutive places, the blocks in entry order,
      and there is nothing else. */
  lemma {:induction false} ExpandedLayout(entries: seq<Entry>, count: nat)
    ensures |Expanded(entries, count)| == |entries| * count
    ensures forall k :: 0 <= k < |entries| ==> BlockHolds(Expanded(entries, count), k, count, entries[k])
  {
    if entries != [] {
      var n := |entries|;
      var init := entries[..n - 1];
      ExpandedLayout(init, count);
      var r := Expanded(entries, count);
      var front := Expanded(init, count);
      NextBlock(n - 1, count);
      assert |front| == (n - 1) * count;
      assert r == front + Copies(entries[n - 1], count);
      forall k | 0 <= k < n
        ensures BlockHolds(r, k, count, entries[k])
      {
        NextBlock(k, count);
        if k < n - 1 {
          assert BlockHolds(front, k, count, init[k]);
          assert r[k * count..(k + 1) * count] == front[k * count..(k + 1) * count];
          assert init[k] == entries[k];
        } else {
          assert r[|front|..|front| + count] == Copies(entries[n - 1], count);
        }
      }
    }
  }

  /** Block `k` of `count` places, from place `k * count`, lies within `r` and holds
      `count` copies of `e`. */
  predicate BlockHolds(r: seq<Entry>, k: nat, count: nat, e: Entry) {
    NextBlock(k, count);
    (k + 1) * count <= |r| && r[k * count..(k + 1) * count] == Copies(e, count)
  }

  /** Block `k` starts at a place and ends `count` places after it starts. */
  lemma NextBlock(k: nat, count: nat)
    ensures 0 <= k * count && (k + 1) * count == k * count + count
  {
  }

  /** `shuffle(array)` with the values of `Math.random()` as input, one per step, each in
      `[0, 1)`: walking down from the end, each place is swapped with a place drawn at or
      below it. Whatever is drawn, the array ends as a rearrangement of its contents. */
  method Shuffle(a: array<Entry>, draws: seq<real>)
    requires |draws| == a.Length
    requires forall k :: 0 <= k < |draws| ==> 0.0 <= draws[k] < 1.0
    modifies a
    ensures multiset(a[..]) == multiset(old(a[..]))
  {
    var currentIndex := a.Length;
    while currentIndex != 0
      invariant 0 <= currentIndex <= a.Length
      invariant multiset(a[..]) == multiset(old(a[..]))
    {
      var randomIndex := Pick(draws[a.Length - currentIndex], currentIndex);
      currentIndex := currentIndex - 1;
      var temporaryValue := a[currentIndex];
      a[currentIndex] := a[randomIndex];
      a[randomIndex] := temporaryValue;
    }
  }

  /** `Math.floor(random * n)`: a place below `n`. */
  function Pick(random: real, n: nat): (r: nat)
    requires 0.0 <= random < 1.0 && n > 0
    ensures r < n
  {
    var x := random * n as real;
    BelowWhole(random, n as real);
    assert 0.0 <= x < n as real;
    var k := x.Floor;
    assert k as real <= x;
    assert 0 <= k;
    assert k < n;
    k
  }

  /** A fraction below one of a positive amount is not negative and stays below the
      amount. */
  lemma BelowWhole(f: real, m: real)
    requires 0.0 <= f < 1.0 && m > 0.0
    ensures 0.0 <= f * m < m
  {
    var rest := (1.0 - f) * m;
    assert rest > 0.0;
    assert m - f * m == rest;
  }

  /** The schedule `run` sets up: the entries expanded, then shuffled when `random` is
      set. It always holds each entry exactly `count` times, and without shuffling it is
      the expansion itself. */
  method Schedule(entries: seq<Entry>, count: int, random: bool, draws: seq<real>)
    returns (scheduled: seq<Entry>)
    requires random ==> |draws| == |Expanded(entries, count)|
    requires random ==> forall k :: 0 <= k < |draws| ==> 0.0 <= draws[k] < 1.0
    ensures multiset(scheduled) == multiset(Expanded(entries, count))
    ensures !random ==> scheduled == Expanded(entries, count)
  {
    var newEntries := Expand(entries, count);
    if random {
      var a := new Entry[|newEntries|](i requires 0 <= i < |newEntries| => newEntries[i]);
      assert a[..] == newEntries;
      Shuffle(a, draws);
      newEntries := a[..];
    }
    scheduled := newEntries;
  }
}
