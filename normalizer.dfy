/** The `SketchDataNormalizer` app: the three option-driven stages `doScale`, `doResample`
    and `doTranslate`, run in that order on a copy of each sketch with the embedded library
    copy, and the record `normalizeAllButton` assembles from the result. The DOM values the
    stages read are parameters; an input box is read through `Number.parseInt`, whose
    result is given as a `Parsed` value. */
module Normalizer {
  import opened SketchModel
  import opened Metric
  import opened Geometry
  import opened Metadata
  import opened Resample
  import opened RecTools
  import opened Ranking
  import opened LibraryCopy
  import opened JsText

  //// Reading numbers

  /** `checkNumber(value)`: a number that is not NaN. Every value it is given comes from
      `Number.parseInt`, so the `typeof` test passes and only NaN is refused. */
  predicate CheckNumber(value: Parsed) {
    value.Num?
  }

  /** The guard of every stage: `!checkNumber(v) || v <= 0` rejects. */
  predicate InRange(value: Parsed) {
    CheckNumber(value) && value.n > 0
  }

  /** `Array.prototype.pop` on the strokes: the last one removed, none on an empty list. */
  function Pop(strokes: seq<Stroke>): seq<Stroke> {
    if strokes == [] then [] else strokes[..|strokes| - 1]
  }

  //// doScale

  /** The four choices of which extent `scaleProportional` divides by. */
  datatype ScaleSide = Width | Height | Long | Short

  datatype ScaleMode = Proportional(side: ScaleSide) | Square

  datatype ScaleOptions = ScaleOptions(resizeAmount: Parsed, sketchOnly: bool, mode: ScaleMode)

  /** `isVertical` as `doScale` writes it: `Long` tests `width > height` and `Short`
      tests `width < height`, which picks the shorter, respectively the longer, extent.
      Only the lemma `LongScalesShortExtent` below uses this choice. */
  function IsVertical(side: ScaleSide, preBox: Box): bool {
    match side
    case Width => false
    case Height => true
    case Long => preBox.width > preBox.height
    case Short => preBox.width < preBox.height
  }

  /** What `Long` and `Short` evidently mean: divide by the longer, respectively the
      shorter, extent, so that this extent becomes `size`. The scale stage below uses this
      choice. */
  function IntendedVertical(side: ScaleSide, preBox: Box): bool {
    match side
    case Width => false
    case Height => true
    case Long => preBox.height > preBox.width
    case Short => preBox.height < preBox.width
  }

  /** The temporary stroke from the canvas origin to the far canvas corner. Its points are
      built with a `t` field, not `time`, so they have no time. */
  function CanvasStroke(sketch: Sketch): Stroke
    requires sketch.canvasWidth.Some? && sketch.canvasHeight.Some?
  {
    BareStroke([Point(0.0, 0.0, None, None),
                Point(sketch.canvasWidth.value, sketch.canvasHeight.value, None, None)])
  }

  /** The sketch `doScale` hands to the library: with the canvas stroke appended unless
      only the sketch is scaled. */
  function WithCanvas(sketch: Sketch, sketchOnly: bool): Sketch
    requires sketchOnly || (sketch.canvasWidth.Some? && sketch.canvasHeight.Some?)
  {
    if sketchOnly then sketch else sketch.(strokes := sketch.strokes + [CanvasStroke(sketch)])
  }

  /** What `doScale` needs once the amount is accepted: a canvas size for the canvas
      stroke, a first point for the box, and a non-zero extent to divide by. */
  predicate ScaleDefined(sketch: Sketch, opts: ScaleOptions) {
    InRange(opts.resizeAmount) ==>
      && (opts.sketchOnly || (sketch.canvasWidth.Some? && sketch.canvasHeight.Some?))
      && HasFirstPoint(WithCanvas(sketch, opts.sketchOnly).strokes)
      && var b := BoxOf(WithCanvas(sketch, opts.sketchOnly).strokes);
         match opts.mode
         case Proportional(side) => if IntendedVertical(side, b) then b.height != 0.0 else b.width != 0.0
         case Square => b.width != 0.0 && b.height != 0.0
  }

  /** The proportional branch of `doScale` on the sketch handed to the library. Scaling
      the sketch only, the original canvas size is put back; otherwise the result is moved
      so that the least corner of its box is the origin and the canvas becomes a square of
      side `size`. */
  function ProportionalStage(work: Sketch, size: real, side: ScaleSide, sketchOnly: bool,
                             canvasWidth: Option<real>, canvasHeight: Option<real>): Sketch
    requires HasFirstPoint(work.strokes) && size > 0.0
    requires var b := BoxOf(work.strokes); if IntendedVertical(side, b) then b.height != 0.0 else b.width != 0.0
  {
    var isVertical := IntendedVertical(side, BoxOf(work.strokes));
    var p := CopyScaledProportional(work, size, isVertical);
    if sketchOnly then p.(canvasWidth := canvasWidth, canvasHeight := canvasHeight)
    else
      ProportionalKeepsFirstPoint(work, size, isVertical);
      MovedToOrigin(p, size)
  }

  /** The move that follows the proportional scaling of sketch and canvas: by minus the
      least corner of the box, onto a square canvas of side `size`. */
  function MovedToOrigin(p: Sketch, size: real): Sketch
    requires HasFirstPoint(p.strokes)
  {
    var post := BoxOf(p.strokes);
    CopyTranslated(p, -post.minX, -post.minY).(canvasWidth := Some(size), canvasHeight := Some(size))
  }

  /** `calculateBoundingBox` on the scaled sketch, `translate` by minus its least corner,
      then the square canvas. */
  method MoveToOrigin(p: Sketch, size: real) returns (r: Sketch)
    requires HasFirstPoint(p.strokes)
    ensures r == MovedToOrigin(p, size)
  {
    var postBox := CalculateBoundingBox(p);
    var moved := CopyTranslate(p, -postBox.value.minX, -postBox.value.minY);
    r := moved.value.(canvasWidth := Some(size), canvasHeight := Some(size));
  }

  /** The proportional branch of `doScale`: the box read for `isVertical`, the library
      copy's `scaleProportional`, then either the canvas size put back or the move to the
      origin with a `size` square canvas. */
  method ScaleProportionalBranch(work: Sketch, size: real, side: ScaleSide, sketchOnly: bool,
                                 canvasWidth: Option<real>, canvasHeight: Option<real>) returns (r: Sketch)
    requires HasFirstPoint(work.strokes) && size > 0.0
    requires var b := BoxOf(work.strokes); if IntendedVertical(side, b) then b.height != 0.0 else b.width != 0.0
    ensures r == ProportionalStage(work, size, side, sketchOnly, canvasWidth, canvasHeight)
  {
    var preBox := CalculateBoundingBox(work);
    var isVertical := IntendedVertical(side, preBox.value);
    r := CopyScaleProportional(work, size, isVertical);
    if sketchOnly {
      r := r.(canvasWidth := canvasWidth, canvasHeight := canvasHeight);
    } else {
      ProportionalKeepsFirstPoint(work, size, isVertical);
      r := MoveToOrigin(r, size);
    }
  }

  /** The sketch `doScale` returns. */
  function Scaled(sketch: Sketch, opts: ScaleOptions): Sketch
    requires ScaleDefined(sketch, opts)
  {
    if !InRange(opts.resizeAmount) then sketch
    else
      var size := opts.resizeAmount.n as real;
      var work := WithCanvas(sketch, opts.sketchOnly);
      var s := match opts.mode
        case Proportional(side) =>
          ProportionalStage(work, size, side, opts.sketchOnly, sketch.canvasWidth, sketch.canvasHeight)
        case Square =>
          CopyScaledSquare(work, size).(canvasWidth := sketch.canvasWidth, canvasHeight := sketch.canvasHeight);
      if opts.sketchOnly then s else s.(strokes := Pop(s.strokes))
  }

  /** `doScale(sketch)`, the options read from the page given as `opts`. */
  method DoScale(sketch: Sketch, opts: ScaleOptions) returns (r: Sketch)
    requires ScaleDefined(sketch, opts)
    ensures r == Scaled(sketch, opts)
  {
    r := sketch;
    var resizeAmount := opts.resizeAmount;
    if !CheckNumber(resizeAmount) || resizeAmount.n <= 0 {
      return;
    }
    var size := resizeAmount.n as real;
    var sketchOnly := opts.sketchOnly;
    if !sketchOnly {
      var point1 := Point(0.0, 0.0, None, None);
      var point2 := Point(r.canvasWidth.value, r.canvasHeight.value, None, None);
      r := r.(strokes := r.strokes + [BareStroke([point1, point2])]);
    }
    assert r == WithCanvas(sketch, sketchOnly);
    var canvasWidth, canvasHeight := r.canvasWidth, r.canvasHeight;
    match opts.mode {
      case Proportional(side) =>
        r := ScaleProportionalBranch(r, size, side, sketchOnly, canvasWidth, canvasHeight);
      case Square =>
        r := CopyScaleSquare(r, size);
        r := r.(canvasWidth := canvasWidth, canvasHeight := canvasHeight);
    }
    if !sketchOnly {
      r := r.(strokes := Pop(r.strokes));
    }
  }

  /** A rejected amount leaves the sketch as it is. Otherwise every stroke of the input
      comes back (the canvas stroke is the one popped) with its points and their times, no
      metadata is attached, and the canvas size is the original one except after a
      proportional scaling of sketch and canvas together, which makes it `size` square. */
  lemma ScaledSpec(sketch: Sketch, opts: ScaleOptions)
    requires ScaleDefined(sketch, opts)
    ensures var r := Scaled(sketch, opts);
      && (!InRange(opts.resizeAmount) ==> r == sketch)
      && (InRange(opts.resizeAmount) ==>
            && SameTimes(sketch.strokes, r.strokes)
            && r.id.None? && r.domain.None? && r.shapes.None?
            && (if opts.mode.Proportional? && !opts.sketchOnly
                then r.canvasWidth == r.canvasHeight == Some(opts.resizeAmount.n as real)
                else r.canvasWidth == sketch.canvasWidth && r.canvasHeight == sketch.canvasHeight))
  {
    if InRange(opts.resizeAmount) {
      var size := opts.resizeAmount.n as real;
      var work := WithCanvas(sketch, opts.sketchOnly);
      var s: Sketch;
      match opts.mode {
        case Proportional(side) =>
          ProportionalStageSpec(work, size, side, opts.sketchOnly, sketch.canvasWidth, sketch.canvasHeight);
          s := ProportionalStage(work, size, side, opts.sketchOnly, sketch.canvasWidth, sketch.canvasHeight);
        case Square =>
          CopyScaledSquareSpec(work, size);
          s := CopyScaledSquare(work, size).(canvasWidth := sketch.canvasWidth, canvasHeight := sketch.canvasHeight);
      }
      if !opts.sketchOnly {
        PopKeepsPrefix(sketch.strokes, work.strokes, s.strokes);
      }
    }
  }

  /** The proportional stage keeps counts and times and attaches no metadata; the canvas is
      the one given when scaling the sketch only, and `size` square otherwise. */
  lemma ProportionalStageSpec(work: Sketch, size: real, side: ScaleSide, sketchOnly: bool,
                              canvasWidth: Option<real>, canvasHeight: Option<real>)
    requires HasFirstPoint(work.strokes) && size > 0.0
    requires var b := BoxOf(work.strokes); if IntendedVertical(side, b) then b.height != 0.0 else b.width != 0.0
    ensures var s := ProportionalStage(work, size, side, sketchOnly, canvasWidth, canvasHeight);
      && SameTimes(work.strokes, s.strokes)
      && s.id.None? && s.domain.None? && s.shapes.None?
      && (if sketchOnly then s.canvasWidth == canvasWidth && s.canvasHeight == canvasHeight
          else s.canvasWidth == s.canvasHeight == Some(size))
  {
    var isVertical := IntendedVertical(side, BoxOf(work.strokes));
    CopyScaledProportionalSpec(work, size, isVertical);
    var p := CopyScaledProportional(work, size, isVertical);
    if !sketchOnly {
      var s := ProportionalStage(work, size, side, sketchOnly, canvasWidth, canvasHeight);
      var post := BoxOf(p.strokes);
      CopyTranslatedSpec(p, -post.minX, -post.minY);
      SameTimesTrans(work.strokes, p.strokes, s.strokes);
    }
  }

  /** Dropping the last stroke of strokes laid out like `prefix + [one more]` leaves strokes
      laid out like `prefix`. */
  lemma PopKeepsPrefix(prefix: seq<Stroke>, work: seq<Stroke>, s: seq<Stroke>)
    requires |work| == |prefix| + 1 && work[..|prefix|] == prefix && SameTimes(work, s)
    ensures SameTimes(prefix, Pop(s))
  {
    forall i | 0 <= i < |prefix| ensures prefix[i] == work[i] {
      assert work[..|prefix|][i] == work[i];
    }
  }

  /** Scaling sketch and canvas together proportionally moves the least corner of the box
      of sketch and canvas stroke to the origin, so no point of the result is left of or
      above the origin. */
  lemma ScaledToOrigin(sketch: Sketch, opts: ScaleOptions)
    requires ScaleDefined(sketch, opts)
    requires InRange(opts.resizeAmount) && opts.mode.Proportional? && !opts.sketchOnly
    ensures NoneBeforeOrigin(Scaled(sketch, opts).strokes)
  {
    var size := opts.resizeAmount.n as real;
    var work := WithCanvas(sketch, false);
    var isVertical := IntendedVertical(opts.mode.side, BoxOf(work.strokes));
    ProportionalKeepsFirstPoint(work, size, isVertical);
    var p := CopyScaledProportional(work, size, isVertical);
    var s := ProportionalStage(work, size, opts.mode.side, false, sketch.canvasWidth, sketch.canvasHeight);
    assert s == MovedToOrigin(p, size);
    StageToOrigin(p, size);
    var r := Scaled(sketch, opts);
    assert r.strokes == Pop(s.strokes);
    forall i, j | 0 <= i < |r.strokes| && 0 <= j < |r.strokes[i].points|
      ensures r.strokes[i].points[j].x >= 0.0 && r.strokes[i].points[j].y >= 0.0
    {
      assert r.strokes[i] == s.strokes[i];
    }
  }

  /** No point lies left of or above the origin. */
  predicate NoneBeforeOrigin(strokes: seq<Stroke>) {
    forall i, j :: 0 <= i < |strokes| && 0 <= j < |strokes[i].points| ==>
      strokes[i].points[j].x >= 0.0 && strokes[i].points[j].y >= 0.0
  }


  /** The proportional copy of a sketch with a first point has one too. */
  lemma ProportionalKeepsFirstPoint(work: Sketch, size: real, isVertical: bool)
    requires HasFirstPoint(work.strokes) && size > 0.0
    requires var b := BoxOf(work.strokes); if isVertical then b.height != 0.0 else b.width != 0.0
    ensures HasFirstPoint(CopyScaledProportional(work, size, isVertical).strokes)
  {
    CopyScaledProportionalSpec(work, size, isVertical);
  }

  /** The move to the origin leaves every point at or beyond the origin. */
  lemma StageToOrigin(p: Sketch, size: real)
    requires HasFirstPoint(p.strokes)
    ensures NoneBeforeOrigin(MovedToOrigin(p, size).strokes)
  {
    var post := BoxOf(p.strokes);
    CopyTranslatedSpec(p, -post.minX, -post.minY);
    var t := MovedToOrigin(p, size);
    forall i, j | 0 <= i < |t.strokes| && 0 <= j < |t.strokes[i].points|
      ensures t.strokes[i].points[j].x >= 0.0 && t.strokes[i].points[j].y >= 0.0
    {
      PointInBox(p.strokes, i, j);
    }
  }

  /** Scaling only the sketch proportionally gives the library's proportional box on the
      sketch's own box; scaling it squarely makes its box a `size` square around the
      original centre. */
  lemma ScaledSketchOnly(sketch: Sketch, opts: ScaleOptions)
    requires ScaleDefined(sketch, opts) && InRange(opts.resizeAmount) && opts.sketchOnly
    ensures HasFirstPoint(Scaled(sketch, opts).strokes)
    ensures var b, size := BoxOf(sketch.strokes), opts.resizeAmount.n as real;
      && (opts.mode.Proportional? ==>
            var v := IntendedVertical(opts.mode.side, b);
            && (if v then b.height != 0.0 else b.width != 0.0)
            && ProportionalBox(b, BoxOf(Scaled(sketch, opts).strokes), size, v))
      && (opts.mode.Square? ==> SquareBox(b, BoxOf(Scaled(sketch, opts).strokes), size))
  {
    var size := opts.resizeAmount.n as real;
    match opts.mode {
      case Proportional(side) =>
        CopyScaledProportionalSpec(sketch, size, IntendedVertical(side, BoxOf(sketch.strokes)));
      case Square =>
        CopyScaledSquareSpec(sketch, size);
    }
  }

  //// The `Long` and `Short` choices

  /** As written, `Long` on a box wider than tall divides by the height: the height
      becomes `size` and the width, the long extent, ends up larger than `size`. */
  lemma LongScalesShortExtent(b: Box, after: Box, size: real)
    requires b.width > b.height > 0.0 && size > 0.0
    requires ProportionalBox(b, after, size, IsVertical(Long, b))
    ensures IsVertical(Long, b) && after.height == size && after.width > size
  {
    Exceeds(size, b.height, b.width);
  }

  /** With the intended choice, `Long` makes the longer extent of the result `size` and
      `Short` the shorter, whatever the shape of a box with positive extents. */
  lemma IntendedSideBecomesSize(side: ScaleSide, b: Box, after: Box, size: real)
    requires b.width > 0.0 && b.height > 0.0 && size > 0.0
    requires ProportionalBox(b, after, size, IntendedVertical(side, b))
    ensures side == Long ==> Max(after.width, after.height) == size
    ensures side == Short ==> Min(after.width, after.height) == size
  {
    if IntendedVertical(side, b) {
      ScaledPair(size, b.height, b.width, after.height, after.width);
    } else {
      ScaledPair(size, b.width, b.height, after.width, after.height);
    }
  }

  lemma Exceeds(size: real, d: real, e: real)
    requires size > 0.0 && e > d > 0.0
    ensures size / d * e > size
  {
    assert size / d * e == size * (e / d);
  }

  /** The extent `d` scaled to `size` and `e` by the same factor: the larger of the two is
      `size` when `d` was the larger, the smaller is `size` when `d` was the smaller. */
  lemma ScaledPair(size: real, d: real, e: real, onD: real, onE: real)
    requires size > 0.0 && d > 0.0 && e > 0.0 && onD == size && onE == size / d * e
    ensures d >= e ==> Max(onD, onE) == size && Max(onE, onD) == size
    ensures d <= e ==> Min(onD, onE) == size && Min(onE, onD) == size
  {
    assert onE == size * (e / d);
    if d >= e {
      assert e / d <= 1.0;
      MulMono(size, e / d, 1.0);
    }
    if d <= e {
      assert e / d >= 1.0;
      MulMono(size, 1.0, e / d);
    }
  }

  //// doResample

  datatype ResampleMode = ByCount | ByDistance | NoMethod

  datatype ResampleOptions = ResampleOptions(resampleAmount: Parsed, mode: ResampleMode)

  /** What `doResample` needs once the amount is accepted: `n = 1` divides by zero and the
      count spacing must let the resampling loop end. A positive distance always does. */
  ghost predicate ResampleDefined(sketch: Sketch, opts: ResampleOptions, dist: Distance) {
    && IsMetric(dist)
    && (InRange(opts.resampleAmount) && opts.mode == ByCount ==>
          && opts.resampleAmount.n != 1
          && Resamplable(sketch.strokes, CountSpacing(sketch.strokes, opts.resampleAmount.n, dist)))
  }

  /** The sketch `doResample` returns: the bare resampled strokes with the original canvas
      size put back, or the sketch itself when the amount is rejected or no method is
      chosen. */
  function Resampled(sketch: Sketch, opts: ResampleOptions, dist: Distance): Sketch
    requires ResampleDefined(sketch, opts, dist)
  {
    if !InRange(opts.resampleAmount) then sketch
    else
      var n := opts.resampleAmount.n;
      var s := match opts.mode
        case ByCount => BareSketch(ResampledStrokes(sketch.strokes, CountSpacing(sketch.strokes, n, dist), dist))
        case ByDistance => BareSketch(ResampledStrokes(sketch.strokes, n as real, dist))
        case NoMethod => sketch;
      s.(canvasWidth := sketch.canvasWidth, canvasHeight := sketch.canvasHeight)
  }

  /** `doResample(sketch)`. */
  method DoResample(sketch: Sketch, opts: ResampleOptions, dist: Distance) returns (r: Sketch)
    requires ResampleDefined(sketch, opts, dist)
    ensures r == Resampled(sketch, opts, dist)
  {
    r := sketch;
    var original := sketch;
    var resampleAmount := opts.resampleAmount;
    if !CheckNumber(resampleAmount) || resampleAmount.n <= 0 {
      return;
    }
    if opts.mode == ByCount {
      r := CopyResampleByCount(r, resampleAmount.n, dist);
    } else if opts.mode == ByDistance {
      r := CopyResampleByDistance(r, Some(resampleAmount.n as real), dist);
    }
    r := r.(canvasWidth := original.canvasWidth, canvasHeight := original.canvasHeight);
  }

  /** A rejected amount, or no method, leaves the sketch as it is. Otherwise the result
      holds one resampled stroke per non-empty input stroke and nothing but the original
      canvas size. By count, `n >= 2` points over a path of positive length come back as
      between `n` and `n + k - 1` points for `k` strokes (exactly `n` for one stroke); by
      distance `S`, a path of length `L` comes back as at most `k + L / S` points. */
  lemma ResampledSpec(sketch: Sketch, opts: ResampleOptions, dist: Distance)
    requires ResampleDefined(sketch, opts, dist)
    ensures var r := Resampled(sketch, opts, dist);
      && (!InRange(opts.resampleAmount) || opts.mode == NoMethod ==> r == sketch)
      && (InRange(opts.resampleAmount) && opts.mode != NoMethod ==>
            && r.id.None? && r.time.None? && r.domain.None? && r.shapes.None?
            && r.canvasWidth == sketch.canvasWidth && r.canvasHeight == sketch.canvasHeight
            && NoEmptyStroke(r.strokes) && |r.strokes| <= |sketch.strokes|
            && (NoEmptyStroke(sketch.strokes) ==> |r.strokes| == |sketch.strokes|))
      && (InRange(opts.resampleAmount) && opts.mode == ByCount && opts.resampleAmount.n >= 2 &&
          HasFirstPoint(sketch.strokes) && NoEmptyStroke(sketch.strokes) && PathLength(sketch.strokes, dist) > 0.0 ==>
            var n := opts.resampleAmount.n;
            && n <= PointCount(r.strokes) <= n + |sketch.strokes| - 1
            && (|sketch.strokes| == 1 ==> PointCount(r.strokes) == n))
      && (InRange(opts.resampleAmount) && opts.mode == ByDistance && NoEmptyStroke(sketch.strokes) ==>
            (PointCount(r.strokes) - |sketch.strokes|) as real
              <= PathLength(sketch.strokes, dist) / opts.resampleAmount.n as real)
  {
    if InRange(opts.resampleAmount) {
      var n := opts.resampleAmount.n;
      var r := Resampled(sketch, opts, dist);
      if opts.mode == ByCount && n >= 2 && HasFirstPoint(sketch.strokes) && NoEmptyStroke(sketch.strokes)
         && PathLength(sketch.strokes, dist) > 0.0 {
        var ids := IdSource("", i => "", (i, j) => "");
        CopyResampledByCount(sketch, n, dist, ids);
        var rs := ResampledStrokes(sketch.strokes, CountSpacing(sketch.strokes, n, dist), dist);
        assert r.strokes == rs;
      }
      if opts.mode == ByDistance && NoEmptyStroke(sketch.strokes) {
        ResampledTotal(sketch.strokes, n as real, dist);
      }
    }
  }

  //// doTranslate

  datatype SketchMove = StayPut | ToCenter | ToCentroid

  datatype CanvasMove = KeepCanvas | ToOrigin

  datatype TranslateOptions = TranslateOptions(resizeCanvas: bool, width: Parsed, height: Parsed,
                                               sketchMove: SketchMove, canvasMove: CanvasMove)

  /** Resizing the canvas with a width or height out of range ends `doTranslate` early. */
  predicate Rejected(opts: TranslateOptions) {
    opts.resizeCanvas && (!InRange(opts.width) || !InRange(opts.height))
  }

  /** The sketch after the optional canvas resize. */
  function Resized(sketch: Sketch, opts: TranslateOptions): Sketch
    requires !Rejected(opts)
  {
    if opts.resizeCanvas then sketch.(canvasWidth := Some(opts.width.n as real), canvasHeight := Some(opts.height.n as real))
    else sketch
  }

  /** The anchor a sketch move puts on the middle of the canvas. */
  function AnchorOf(move: SketchMove): Anchor
    requires move != StayPut
  {
    if move == ToCenter then BoxCenter else Centroid
  }

  /** The sketch after the optional move to the canvas centre or centroid. */
  function Moved(sketch: Sketch, move: SketchMove): (r: Sketch)
    requires move != StayPut ==> HasFirstPoint(sketch.strokes) && sketch.canvasWidth.Some? && sketch.canvasHeight.Some?
    ensures r.canvasWidth == sketch.canvasWidth && r.canvasHeight == sketch.canvasHeight
    ensures |r.strokes| == |sketch.strokes|
  {
    if move == StayPut then sketch else CopyRecentred(sketch, AnchorOf(move))
  }

  /** What `doTranslate` needs unless it rejects: a first point and a canvas size to move
      to the canvas centre or centroid, and strokes and a canvas size to move by half the
      canvas (a `translate` without strokes returns null, which is then written to). */
  predicate TranslateDefined(sketch: Sketch, opts: TranslateOptions) {
    !Rejected(opts) ==>
      var s := Resized(sketch, opts);
      && (opts.sketchMove != StayPut || opts.canvasMove == ToOrigin ==> s.canvasWidth.Some? && s.canvasHeight.Some?)
      && (opts.sketchMove != StayPut ==> HasFirstPoint(s.strokes))
      && (opts.canvasMove == ToOrigin ==> s.strokes != [])
  }

  /** The sketch `doTranslate` returns. */
  function TranslatedStage(sketch: Sketch, opts: TranslateOptions): Sketch
    requires TranslateDefined(sketch, opts)
  {
    if Rejected(opts) then sketch
    else
      var s := Moved(Resized(sketch, opts), opts.sketchMove);
      var t := if opts.canvasMove == ToOrigin
               then CopyTranslated(s, -s.canvasWidth.value / 2.0, -s.canvasHeight.value / 2.0)
               else s;
      if opts.resizeCanvas then t
      else t.(canvasWidth := sketch.canvasWidth, canvasHeight := sketch.canvasHeight)
  }

  /** `doTranslate(sketch)`. */
  method DoTranslate(sketch: Sketch, opts: TranslateOptions) returns (r: Sketch)
    requires TranslateDefined(sketch, opts)
    ensures r == TranslatedStage(sketch, opts)
  {
    var original := sketch;
    r := sketch;
    var resizeCanvas := opts.resizeCanvas;
    if resizeCanvas {
      var width := opts.width;
      if !CheckNumber(width) || width.n <= 0 {
        return;
      }
      var height := opts.height;
      if !CheckNumber(height) || height.n <= 0 {
        return;
      }
      r := r.(canvasWidth := Some(width.n as real), canvasHeight := Some(height.n as real));
    }
    assert r == Resized(sketch, opts);
    if opts.sketchMove == ToCenter {
      r := CopyTranslateToAnchor(r, BoxCenter);
    } else if opts.sketchMove == ToCentroid {
      r := CopyTranslateToAnchor(r, Centroid);
    }
    assert r == Moved(Resized(sketch, opts), opts.sketchMove);
    if opts.canvasMove == ToOrigin {
      var moved := CopyTranslate(r, -r.canvasWidth.value / 2.0, -r.canvasHeight.value / 2.0);
      r := moved.value;
    }
    if !resizeCanvas {
      r := r.(canvasWidth := original.canvasWidth, canvasHeight := original.canvasHeight);
    }
  }

  /** A width or height out of range leaves the sketch as it is. Otherwise the canvas size
      is the new one when resizing and the original one when not. */
  lemma TranslatedCanvas(sketch: Sketch, opts: TranslateOptions)
    requires TranslateDefined(sketch, opts)
    ensures var r := TranslatedStage(sketch, opts);
      && (Rejected(opts) ==> r == sketch)
      && (!Rejected(opts) && !opts.resizeCanvas ==>
            r.canvasWidth == sketch.canvasWidth && r.canvasHeight == sketch.canvasHeight)
      && (!Rejected(opts) && opts.resizeCanvas ==>
            r.canvasWidth == Some(opts.width.n as real) && r.canvasHeight == Some(opts.height.n as real))
  {
  }

  /** Without a sketch move, the move to the origin shifts every point by minus half the
      canvas size in effect (the new one when resizing), keeping counts and times. */
  lemma TranslatedToOrigin(sketch: Sketch, opts: TranslateOptions)
    requires TranslateDefined(sketch, opts) && !Rejected(opts)
    requires opts.sketchMove == StayPut && opts.canvasMove == ToOrigin
    ensures var r, s := TranslatedStage(sketch, opts), Resized(sketch, opts);
      && SameTimes(sketch.strokes, r.strokes)
      && forall i, j :: 0 <= i < |r.strokes| && 0 <= j < |r.strokes[i].points| ==>
           r.strokes[i].points[j].x == sketch.strokes[i].points[j].x - s.canvasWidth.value / 2.0 &&
           r.strokes[i].points[j].y == sketch.strokes[i].points[j].y - s.canvasHeight.value / 2.0
  {
    var s := Resized(sketch, opts);
    CopyTranslatedSpec(s, -s.canvasWidth.value / 2.0, -s.canvasHeight.value / 2.0);
  }

  /** Moving the sketch to the canvas centre (centroid) puts its box centre (centroid) on
      the middle of the canvas in effect; moving the canvas to the origin as well puts it
      on the origin. The extents are kept either way. */
  lemma TranslatedAnchor(sketch: Sketch, opts: TranslateOptions)
    requires TranslateDefined(sketch, opts) && !Rejected(opts) && opts.sketchMove != StayPut
    ensures var r, s, a := TranslatedStage(sketch, opts), Resized(sketch, opts), AnchorOf(opts.sketchMove);
      && HasFirstPoint(r.strokes) && SameTimes(sketch.strokes, r.strokes)
      && BoxOf(r.strokes).width == BoxOf(sketch.strokes).width
      && BoxOf(r.strokes).height == BoxOf(sketch.strokes).height
      && (opts.canvasMove == KeepCanvas ==>
            AnchorX(BoxOf(r.strokes), a) == s.canvasWidth.value / 2.0 &&
            AnchorY(BoxOf(r.strokes), a) == s.canvasHeight.value / 2.0)
      && (opts.canvasMove == ToOrigin ==>
            AnchorX(BoxOf(r.strokes), a) == 0.0 && AnchorY(BoxOf(r.strokes), a) == 0.0)
  {
    if opts.canvasMove == ToOrigin {
      AnchorAtOrigin(sketch, opts);
    } else {
      AnchorAtCentre(sketch, opts);
    }
  }

  /** `TranslatedAnchor` when only the sketch moves. */
  lemma AnchorAtCentre(sketch: Sketch, opts: TranslateOptions)
    requires TranslateDefined(sketch, opts) && !Rejected(opts) && opts.sketchMove != StayPut
    requires opts.canvasMove == KeepCanvas
    ensures var r, s, a := TranslatedStage(sketch, opts), Resized(sketch, opts), AnchorOf(opts.sketchMove);
      && HasFirstPoint(r.strokes) && SameTimes(sketch.strokes, r.strokes)
      && BoxOf(r.strokes).width == BoxOf(sketch.strokes).width
      && BoxOf(r.strokes).height == BoxOf(sketch.strokes).height
      && AnchorX(BoxOf(r.strokes), a) == s.canvasWidth.value / 2.0
      && AnchorY(BoxOf(r.strokes), a) == s.canvasHeight.value / 2.0
  {
    var s := Resized(sketch, opts);
    var a := AnchorOf(opts.sketchMove);
    assert s.strokes == sketch.strokes;
    CopyRecentredAnchor(s, a);
    assert TranslatedStage(sketch, opts).strokes == CopyRecentred(s, a).strokes;
  }

  /** `TranslatedAnchor` when the canvas moves to the origin as well. */
  lemma AnchorAtOrigin(sketch: Sketch, opts: TranslateOptions)
    requires TranslateDefined(sketch, opts) && !Rejected(opts) && opts.sketchMove != StayPut
    requires opts.canvasMove == ToOrigin
    ensures var r, a := TranslatedStage(sketch, opts), AnchorOf(opts.sketchMove);
      && HasFirstPoint(r.strokes) && SameTimes(sketch.strokes, r.strokes)
      && BoxOf(r.strokes).width == BoxOf(sketch.strokes).width
      && BoxOf(r.strokes).height == BoxOf(sketch.strokes).height
      && AnchorX(BoxOf(r.strokes), a) == 0.0 && AnchorY(BoxOf(r.strokes), a) == 0.0
  {
    OriginStrokes(sketch, opts);
    ShiftedToOrigin(sketch.strokes, Resized(sketch, opts), AnchorOf(opts.sketchMove), TranslatedStage(sketch, opts).strokes);
  }

  /** The sketch move followed by the move of the canvas to the origin, on any sketch `s`
      with a canvas size: the anchor ends on the origin. */
  lemma ShiftedToOrigin(strokes: seq<Stroke>, s: Sketch, a: Anchor, r: seq<Stroke>)
    requires HasFirstPoint(s.strokes) && s.canvasWidth.Some? && s.canvasHeight.Some? && s.strokes == strokes
    requires r == CopyTranslated(CopyRecentred(s, a), -s.canvasWidth.value / 2.0, -s.canvasHeight.value / 2.0).strokes
    ensures && HasFirstPoint(r) && SameTimes(strokes, r)
      && BoxOf(r).width == BoxOf(strokes).width && BoxOf(r).height == BoxOf(strokes).height
      && AnchorX(BoxOf(r), a) == 0.0 && AnchorY(BoxOf(r), a) == 0.0
  {
    CopyRecentredAnchor(s, a);
    AnchorToOrigin(strokes, CopyRecentred(s, a).strokes, a, s.canvasWidth.value / 2.0, s.canvasHeight.value / 2.0, r);
  }

  /** Strokes whose anchor is at `(x, y)`, shifted by `(-x, -y)`: the anchor is at the
      origin, the extents and the times are kept. */
  lemma AnchorToOrigin(strokes: seq<Stroke>, m: seq<Stroke>, a: Anchor, x: real, y: real, r: seq<Stroke>)
    requires HasFirstPoint(strokes) && HasFirstPoint(m) && SameTimes(strokes, m)
    requires BoxOf(m).width == BoxOf(strokes).width && BoxOf(m).height == BoxOf(strokes).height
    requires AnchorX(BoxOf(m), a) == x && AnchorY(BoxOf(m), a) == y
    requires r == MapStrokes(m, Shift(-x, -y))
    ensures && HasFirstPoint(r) && SameTimes(strokes, r)
      && BoxOf(r).width == BoxOf(strokes).width && BoxOf(r).height == BoxOf(strokes).height
      && AnchorX(BoxOf(r), a) == 0.0 && AnchorY(BoxOf(r), a) == 0.0
  {
    MapKeepsLayout(m, Shift(-x, -y));
    MapStrokesBox(m, Shift(-x, -y));
    AnchorShiftedBox(BoxOf(m), BoxOf(r), a, x, y);
    SameTimesTrans(strokes, m, r);
  }

  /** A box whose anchor is at `(x, y)`, shifted by `(-x, -y)`. */
  lemma AnchorShiftedBox(before: Box, after: Box, a: Anchor, x: real, y: real)
    requires AnchorX(before, a) == x && AnchorY(before, a) == y
    requires after == before.Mapped(Shift(-x, -y))
    ensures after.width == before.width && after.height == before.height
    ensures AnchorX(after, a) == 0.0 && AnchorY(after, a) == 0.0
  {
    ShiftedBox(before, -x, -y);
  }

  /** With the canvas moved to the origin, the strokes are those of the sketch move, shifted
      by minus half the canvas size in effect. */
  lemma OriginStrokes(sketch: Sketch, opts: TranslateOptions)
    requires TranslateDefined(sketch, opts) && !Rejected(opts) && opts.sketchMove != StayPut
    requires opts.canvasMove == ToOrigin
    ensures var s := Resized(sketch, opts);
      TranslatedStage(sketch, opts).strokes ==
      CopyTranslated(CopyRecentred(s, AnchorOf(opts.sketchMove)), -s.canvasWidth.value / 2.0, -s.canvasHeight.value / 2.0).strokes
  {
  }

  /** The copy's `translate` by `(dx, dy)` moves the anchor by `(dx, dy)` and keeps the
      extents, counts and times. */
  lemma ShiftedAnchor(m: Sketch, a: Anchor, dx: real, dy: real)
    requires HasFirstPoint(m.strokes)
    ensures var t := CopyTranslated(m, dx, dy).strokes;
      && HasFirstPoint(t) && SameTimes(m.strokes, t)
      && BoxOf(t).width == BoxOf(m.strokes).width && BoxOf(t).height == BoxOf(m.strokes).height
      && AnchorX(BoxOf(t), a) == AnchorX(BoxOf(m.strokes), a) + dx
      && AnchorY(BoxOf(t), a) == AnchorY(BoxOf(m.strokes), a) + dy
  {
    CopyTranslatedSpec(m, dx, dy);
    MapStrokesBox(m.strokes, Shift(dx, dy));
    ShiftedBox(BoxOf(m.strokes), dx, dy);
  }

  //// The normalized record

  /** The record `normalizeAllButton` builds from the original sketch and its normalized
      copy `input`: a fresh id, the original's first point time and domain, the canvas size
      of `input`, its strokes with fresh stroke and point ids and first-point stroke times,
      and one shape over all strokes labelled like the original, with confidence `"1.0"`. */
  function Record(original: Sketch, input: Sketch, ids: IdSource): Sketch
    requires HasFirstPoint(original.strokes) && HasLabel(original) && NoEmptyStroke(input.strokes)
  {
    var time := original.strokes[0].points[0].time;
    var subElements := seq(|input.strokes|, j requires 0 <= j < |input.strokes| => Some(ids.stroke(j)));
    Sketch(Some(ids.sketch), time, original.domain, input.canvasWidth, input.canvasHeight,
           StampedStrokes(input.strokes, ids), None,
           Some([Shape(subElements, time, Label(original), "1.0")]))
  }

  /** The record assembly of `normalizeAllButton`: the stroke loop with its point-id loop,
      then the `subElements` loop. */
  method AssembleRecord(original: Sketch, input: Sketch, ids: IdSource) returns (sketch: Sketch)
    requires HasFirstPoint(original.strokes) && HasLabel(original) && NoEmptyStroke(input.strokes)
    ensures sketch == Record(original, input, ids)
  {
    var strokes: seq<Stroke> := [];
    var j := 0;
    while j < |input.strokes|
      invariant 0 <= j <= |input.strokes| && |strokes| == j
      invariant forall k :: 0 <= k < j ==> strokes[k] == StampedStroke(input.strokes[k], k, ids)
    {
      var id := ids.stroke(j);
      var time := input.strokes[j].points[0].time;
      var points := input.strokes[j].points;
      var k := 0;
      while k < |points|
        invariant 0 <= k <= |points| && |points| == |input.strokes[j].points|
        invariant forall m :: 0 <= m < k ==> points[m] == input.strokes[j].points[m].(id := Some(ids.point(j, m)))
        invariant forall m :: k <= m < |points| ==> points[m] == input.strokes[j].points[m]
      {
        points := points[k := points[k].(id := Some(ids.point(j, k)))];
        k := k + 1;
      }
      assert points == StampedPoints(input.strokes[j].points, j, ids);
      strokes := strokes + [Stroke(Some(id), time, points)];
      j := j + 1;
    }
    assert strokes == StampedStrokes(input.strokes, ids);
    var subElements: seq<Option<string>> := [];
    j := 0;
    while j < |strokes|
      invariant 0 <= j <= |strokes| && |subElements| == j
      invariant forall k :: 0 <= k < j ==> subElements[k] == strokes[k].id
    {
      subElements := subElements + [strokes[j].id];
      j := j + 1;
    }
    assert subElements == seq(|input.strokes|, j requires 0 <= j < |input.strokes| => Some(ids.stroke(j)));
    var time := original.strokes[0].points[0].time;
    var shape := Shape(subElements, time, original.shapes.value[0].interpretation, "1.0");
    sketch := Sketch(Some(ids.sketch), time, original.domain, input.canvasWidth, input.canvasHeight,
                     strokes, None, Some([shape]));
  }

  /** The record holds the normalized strokes with their coordinates and times, every
      stroke and point identified and every stroke timed by its first point; its one shape
      lists exactly the stroke ids, in stroke order, carries the original's label and
      first-point time with confidence `"1.0"`; the canvas size is the normalized one. The
      strokes and the sketch-level id, time and domain are what `transferMetadata` from
      the original would attach. */
  lemma RecordSpec(original: Sketch, input: Sketch, ids: IdSource)
    requires HasFirstPoint(original.strokes) && HasLabel(original) && NoEmptyStroke(input.strokes)
    ensures var r := Record(original, input, ids);
      && SameTimes(input.strokes, r.strokes) && SameCoords(input.strokes, r.strokes)
      && FullyIdentified(r.strokes)
      && (forall i :: 0 <= i < |r.strokes| ==> r.strokes[i].time == r.strokes[i].points[0].time)
      && r.shapes.Some? && |r.shapes.value| == 1
      && var shape := r.shapes.value[0];
      && |shape.subElements| == |r.strokes|
      && (forall j :: 0 <= j < |r.strokes| ==> shape.subElements[j] == r.strokes[j].id)
      && shape.interpretation == original.shapes.value[0].interpretation && shape.confidence == "1.0"
      && shape.time == r.time == original.strokes[0].points[0].time
      && r.canvasWidth == input.canvasWidth && r.canvasHeight == input.canvasHeight
      && var st := Stamped(input, original, ids);
      && r.strokes == st.strokes && r.id == st.id && r.time == st.time && r.domain == st.domain
  {
  }

  //// normalizeAllButton

  /** The options of the page: each stage is off (`None`) or on with its options. */
  datatype Options = Options(scale: Option<ScaleOptions>, resample: Option<ResampleOptions>,
                             translate: Option<TranslateOptions>)

  function ScaleStage(sketch: Sketch, opts: Options): Sketch
    requires opts.scale.Some? ==> ScaleDefined(sketch, opts.scale.value)
  {
    if opts.scale.Some? then Scaled(sketch, opts.scale.value) else sketch
  }

  function ResampleStage(sketch: Sketch, opts: Options, dist: Distance): Sketch
    requires opts.resample.Some? ==> ResampleDefined(sketch, opts.resample.value, dist)
  {
    if opts.resample.Some? then Resampled(sketch, opts.resample.value, dist) else sketch
  }

  function TranslateStage(sketch: Sketch, opts: Options): Sketch
    requires opts.translate.Some? ==> TranslateDefined(sketch, opts.translate.value)
  {
    if opts.translate.Some? then TranslatedStage(sketch, opts.translate.value) else sketch
  }

  /** Every stage can run on what the previous one returned, and the record can be built:
      the original has a first point and a label, and no normalized stroke is empty. */
  ghost predicate Normalizable(original: Sketch, opts: Options, dist: Distance) {
    && HasFirstPoint(original.strokes) && HasLabel(original)
    && (opts.scale.Some? ==> ScaleDefined(original, opts.scale.value))
    && var s1 := ScaleStage(original, opts);
    && (opts.resample.Some? ==> ResampleDefined(s1, opts.resample.value, dist))
    && var s2 := ResampleStage(s1, opts, dist);
    && (opts.translate.Some? ==> TranslateDefined(s2, opts.translate.value))
    && NoEmptyStroke(TranslateStage(s2, opts).strokes)
  }

  /** The normalized copy of one sketch: scaled, resampled, translated, as selected. */
  ghost function Normalized(original: Sketch, opts: Options, dist: Distance): Sketch
    requires Normalizable(original, opts, dist)
  {
    TranslateStage(ResampleStage(ScaleStage(original, opts), opts, dist), opts)
  }

  /** One iteration of `normalizeAllButton`'s loop. */
  method NormalizeOne(original: Sketch, opts: Options, dist: Distance, ids: IdSource) returns (sketch: Sketch)
    requires Normalizable(original, opts, dist)
    ensures sketch == Record(original, Normalized(original, opts, dist), ids)
  {
    var input := original;
    if opts.scale.Some? {
      input := DoScale(input, opts.scale.value);
    }
    if opts.resample.Some? {
      input := DoResample(input, opts.resample.value, dist);
    }
    if opts.translate.Some? {
      input := DoTranslate(input, opts.translate.value);
    }
    sketch := AssembleRecord(original, input, ids);
  }

  /** `normalizeAllButton()`: one record per sketch, in order (the download is left out). */
  method NormalizeAll(sketches: seq<Sketch>, opts: Options, dist: Distance, ids: seq<IdSource>)
    returns (normalized: seq<Sketch>)
    requires |ids| == |sketches|
    requires forall i :: 0 <= i < |sketches| ==> Normalizable(sketches[i], opts, dist)
    ensures |normalized| == |sketches|
    ensures forall i :: 0 <= i < |sketches| ==>
      normalized[i] == Record(sketches[i], Normalized(sketches[i], opts, dist), ids[i])
  {
    normalized := [];
    var i := 0;
    while i < |sketches|
      invariant 0 <= i <= |sketches| && |normalized| == i
      invariant forall k :: 0 <= k < i ==>
        normalized[k] == Record(sketches[k], Normalized(sketches[k], opts, dist), ids[k])
    {
      var sketch := NormalizeOne(sketches[i], opts, dist, ids[i]);
      normalized := normalized + [sketch];
      i := i + 1;
    }
  }
}
