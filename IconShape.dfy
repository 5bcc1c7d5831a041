/**
  The icon shapes: Circle, RoundedSquare, TearDrop and Squircle. Each
  appends its outline to a path, and each produces the reveal animator that
  morphs a start rect into an end rect with a target corner radius.

  Circle and RoundedSquare (the simple-rect family) hand their reveal to the
  platform's rounded-rect outline provider, of which only the arguments are
  modelled; TearDrop and Squircle (the path family) rebuild an explicit path
  on every animation frame and install it as the target view's clip.
*/
module IconShapes {
  import opened Wrappers
  import opened Rects
  import opened Paths
  import opened Views

  /** Ratio of the diameter of a normalized circular icon to the actual icon size. */
  const ICON_VISIBLE_AREA_FACTOR: real := 0.92

  /** Side of the cached default shape path. */
  const DEFAULT_PATH_SIZE: int := 100

  /** Control-point factor of the cubic Bézier approximation of a quarter circle. */
  const CIRCLE_BEZIER_FACTOR: real := 0.551915024494

  datatype Shape =
    | Circle
      /** `radiusRatio`: corner radius over half the side. */
    | RoundedSquare(radiusRatio: real)
      /** `radiusRatio`: the short corner radius over the large one. */
    | TearDrop(radiusRatio: real)
      /** `radiusRatio`: sets the start control offset `r - r * radiusRatio`. */
    | Squircle(radiusRatio: real)
  {
    /** The simple-rect family (SimpleRectShape); the others are the path family (PathShape). */
    predicate IsSimpleRect()
    {
      Circle? || RoundedSquare?
    }

    /** A ratio in (0, 1], for the variants that have one. */
    predicate HasUnitRatio()
    {
      Circle? || 0.0 < radiusRatio <= 1.0
    }
  }

  /** `enableShapeDetection()`: only the circle supports automatic shape detection. */
  function EnableShapeDetection(s: Shape): (r: bool)
    ensures r <==> s.Circle?
  {
    match s
    case Circle => true
    case _ => false
  }

  /** `getStartRadius(startRect)` of the simple-rect family: the corner radius the reveal starts from. */
  function StartRadius(s: Shape, startRect: Box): (r: real)
    requires s.IsSimpleRect()
    ensures s.Circle? ==> r == startRect.Width() as real / 2.0
    ensures s.RoundedSquare? ==> r == startRect.Width() as real / 2.0 * s.radiusRatio
    ensures s.HasUnitRatio() && 0 <= startRect.Width() ==> 0.0 < r <= startRect.Width() as real / 2.0 || r == 0.0
  {
    match s
    case Circle => startRect.Width() as real / 2.0
    case RoundedSquare(ratio) => (startRect.Width() as real / 2.0) * ratio
  }

  // ---------------------------------------------------------------------
  // Outlines (addToPath)
  // ---------------------------------------------------------------------

  /** `addLeftCurve(cx, cy, r, control, path)`: the cubic from (cx, cy - r) to (cx - r, cy). */
  function LeftCurve(cx: real, cy: real, r: real, control: real): PathCmd
  {
    CubicTo(cx - control, cy - r, cx - r, cy - control, cx - r, cy)
  }

  /** `addRightCurve(cx, cy, r, control, path)`: the cubic from (cx - r, cy) to (cx, cy + r). */
  function RightCurve(cx: real, cy: real, r: real, control: real): PathCmd
  {
    CubicTo(cx - r, cy + control, cx - control, cy + r, cx, cy + r)
  }

  /** The eight radii `getRadiiArray(r1, r2)` writes: an (rx, ry) pair per corner, clockwise from the top-left. */
  function RadiiArray(r1: real, r2: real): seq<real>
  {
    [r1, r1, r1, r1, r2, r2, r1, r1]
  }

  /** `Circle.addToPath`: the circle of the given radius centred in the square. */
  function CircleOutline(offsetX: real, offsetY: real, radius: real): seq<PathCmd>
  {
    [AddCircle(radius + offsetX, radius + offsetY, radius, CW)]
  }

  /** `RoundedSquare.addToPath`: the square, every corner rounded by `radius * ratio`. */
  function RoundedSquareOutline(ratio: real, offsetX: real, offsetY: real, radius: real): seq<PathCmd>
  {
    var cx := radius + offsetX;
    var cy := radius + offsetY;
    var cr := radius * ratio;
    [AddRoundRectXY(cx - radius, cy - radius, cx + radius, cy + radius, cr, cr, CW)]
  }

  /** `r1 * mRadiusRatio`: TearDrop's short radius, on its bottom-right corner. */
  function ShortRadius(r1: real, ratio: real): real
  {
    r1 * ratio
  }

  /** `TearDrop.addToPath`: the square with radius `r1` on three corners and the short radius on the bottom-right one. */
  function TearDropOutline(ratio: real, offsetX: real, offsetY: real, r1: real): seq<PathCmd>
  {
    var r2 := ShortRadius(r1, ratio);
    var cx := r1 + offsetX;
    var cy := r1 + offsetY;
    [AddRoundRect(cx - r1, cy - r1, cx + r1, cy + r1, RadiiArray(r1, r2), CW)]
  }

  /** `Squircle.addToPath`: four cubic corners from the top centre, counter-clockwise, then closed. */
  function SquircleOutline(ratio: real, offsetX: real, offsetY: real, r: real): seq<PathCmd>
  {
    var cx := r + offsetX;
    var cy := r + offsetY;
    var control := r - r * ratio;
    [MoveTo(cx, cy - r),
     LeftCurve(cx, cy, r, control),
     RightCurve(cx, cy, r, control),
     LeftCurve(cx, cy, -r, -control),
     RightCurve(cx, cy, -r, -control),
     Close]
  }

  /** What `addToPath(path, offsetX, offsetY, radius)` appends: the outline inscribed in the square of side `2 * radius` at the offset. */
  function Outline(s: Shape, offsetX: real, offsetY: real, radius: real): seq<PathCmd>
  {
    match s
    case Circle => CircleOutline(offsetX, offsetY, radius)
    case RoundedSquare(ratio) => RoundedSquareOutline(ratio, offsetX, offsetY, radius)
    case TearDrop(ratio) => TearDropOutline(ratio, offsetX, offsetY, radius)
    case Squircle(ratio) => SquircleOutline(ratio, offsetX, offsetY, radius)
  }

  /**
    Every outline is inscribed in the square of side `2 * radius` whose
    top-left corner is the offset: the circle is centred in it, and the
    rounded square and the TearDrop cover it.
  */
  lemma OutlineInscribed(ratio: real, offsetX: real, offsetY: real, radius: real)
    ensures Outline(Circle, offsetX, offsetY, radius) == [AddCircle(offsetX + radius, offsetY + radius, radius, CW)]
    ensures var cr := radius * ratio;
      Outline(RoundedSquare(ratio), offsetX, offsetY, radius)
        == [AddRoundRectXY(offsetX, offsetY, offsetX + 2.0 * radius, offsetY + 2.0 * radius, cr, cr, CW)]
    ensures Outline(TearDrop(ratio), offsetX, offsetY, radius)
        == [AddRoundRect(offsetX, offsetY, offsetX + 2.0 * radius, offsetY + 2.0 * radius,
                         RadiiArray(radius, ShortRadius(radius, ratio)), CW)]
  {
  }

  /**
    The Squircle outline is one closed contour of four cubic corners: from
    the middle of the top side of its square it passes through the middle of
    the left, bottom and right sides and returns to where it started.
  */
  lemma {:induction false} SquircleOutlineClosed(ratio: real, offsetX: real, offsetY: real, radius: real, pen: Point)
    ensures var o := SquircleOutline(ratio, offsetX, offsetY, radius);
      && |o| == 6 && o[0] == MoveTo(offsetX + radius, offsetY) && o[5] == Close
      && (forall k :: 1 <= k < 5 ==> o[k].CubicTo?)
      && PenAfter(o[..2], pen) == Point(offsetX, offsetY + radius)
      && PenAfter(o[..3], pen) == Point(offsetX + radius, offsetY + 2.0 * radius)
      && PenAfter(o[..4], pen) == Point(offsetX + 2.0 * radius, offsetY + radius)
      && PenAfter(o[..5], pen) == Point(offsetX + radius, offsetY)
  {
    var o := SquircleOutline(ratio, offsetX, offsetY, radius);
    PenAfterPrefix(o, pen, 0, pen);
    PenAfterPrefix(o, pen, 1, Point(offsetX + radius, offsetY));
    PenAfterPrefix(o, pen, 2, Point(offsetX, offsetY + radius));
    PenAfterPrefix(o, pen, 3, Point(offsetX + radius, offsetY + 2.0 * radius));
    PenAfterPrefix(o, pen, 4, Point(offsetX + 2.0 * radius, offsetY + radius));
  }

  /** The radii layout slot by slot: `r2` on the bottom-right pair (slots 4 and 5), `r1` on the rest. */
  lemma RadiiArraySlots(r1: real, r2: real)
    ensures |RadiiArray(r1, r2)| == 8
    ensures forall i :: 0 <= i < 8 ==> RadiiArray(r1, r2)[i] == if i == 4 || i == 5 then r2 else r1
  {
  }

  /** `getRadiiArray(r1, r2)`: overwrites the scratch array with the TearDrop radii layout. */
  method GetRadiiArray(radii: array<real>, r1: real, r2: real)
    requires radii.Length == 8
    modifies radii
    ensures radii[..] == RadiiArray(r1, r2)
  {
    radii[0], radii[1], radii[2], radii[3] := r1, r1, r1, r1;
    radii[6], radii[7] := r1, r1;
    radii[4], radii[5] := r2, r2;
  }

  method AddLeftCurve(path: Path, cx: real, cy: real, r: real, control: real)
    modifies path
    ensures path.cmds == old(path.cmds) + [LeftCurve(cx, cy, r, control)]
  {
    path.CubicTo(cx - control, cy - r, cx - r, cy - control, cx - r, cy);
  }

  method AddRightCurve(path: Path, cx: real, cy: real, r: real, control: real)
    modifies path
    ensures path.cmds == old(path.cmds) + [RightCurve(cx, cy, r, control)]
  {
    path.CubicTo(cx - r, cy + control, cx - control, cy + r, cx, cy + r);
  }

  method AddCircleToPath(path: Path, offsetX: real, offsetY: real, radius: real)
    modifies path
    ensures path.cmds == old(path.cmds) + CircleOutline(offsetX, offsetY, radius)
  {
    path.AddCircle(radius + offsetX, radius + offsetY, radius, CW);
  }

  method AddRoundedSquareToPath(ratio: real, path: Path, offsetX: real, offsetY: real, radius: real)
    modifies path
    ensures path.cmds == old(path.cmds) + RoundedSquareOutline(ratio, offsetX, offsetY, radius)
  {
    var cx := radius + offsetX;
    var cy := radius + offsetY;
    var cr := radius * ratio;
    path.AddRoundRectXY(cx - radius, cy - radius, cx + radius, cy + radius, cr, cr, CW);
  }

  method AddTearDropToPath(ratio: real, path: Path, offsetX: real, offsetY: real, r1: real)
    modifies path
    ensures path.cmds == old(path.cmds) + TearDropOutline(ratio, offsetX, offsetY, r1)
  {
    var r2 := ShortRadius(r1, ratio);
    var cx := r1 + offsetX;
    var cy := r1 + offsetY;
    // The source reuses one scratch array per shape; here it is local to the call.
    var radii := new real[8];
    GetRadiiArray(radii, r1, r2);
    assert radii[..][..8] == RadiiArray(r1, r2);
    path.AddRoundRect(cx - r1, cy - r1, cx + r1, cy + r1, radii[..], CW);
  }

  method AddSquircleToPath(ratio: real, path: Path, offsetX: real, offsetY: real, r: real)
    modifies path
    ensures path.cmds == old(path.cmds) + SquircleOutline(ratio, offsetX, offsetY, r)
  {
    var cx := r + offsetX;
    var cy := r + offsetY;
    var control := r - r * ratio;
    path.MoveTo(cx, cy - r);
    AddLeftCurve(path, cx, cy, r, control);
    AddRightCurve(path, cx, cy, r, control);
    AddLeftCurve(path, cx, cy, -r, -control);
    AddRightCurve(path, cx, cy, -r, -control);
    path.Close();
  }

  /** `addToPath(path, offsetX, offsetY, radius)`, dispatched on the variant. */
  method AddToPath(s: Shape, path: Path, offsetX: real, offsetY: real, radius: real)
    modifies path
    ensures path.cmds == old(path.cmds) + Outline(s, offsetX, offsetY, radius)
  {
    match s
    case Circle => AddCircleToPath(path, offsetX, offsetY, radius);
    case RoundedSquare(ratio) => AddRoundedSquareToPath(ratio, path, offsetX, offsetY, radius);
    case TearDrop(ratio) => AddTearDropToPath(ratio, path, offsetX, offsetY, radius);
    case Squircle(ratio) => AddSquircleToPath(ratio, path, offsetX, offsetY, radius);
  }

  // ---------------------------------------------------------------------
  // Reveal frames of the path family (newUpdateListener)
  // ---------------------------------------------------------------------

  /** One slot of the evaluator: `start + fraction * (end - start)`. */
  function Lerp(fraction: real, startValue: real, endValue: real): real
  {
    startValue + fraction * (endValue - startValue)
  }

  /** `FloatArrayEvaluator.evaluate(fraction, start, end)`: `Lerp` slot by slot. */
  function Evaluate(fraction: real, startValues: seq<real>, endValues: seq<real>): (values: seq<real>)
    requires |startValues| == |endValues|
    ensures |values| == |startValues|
    ensures fraction == 0.0 ==> values == startValues
    ensures fraction == 1.0 ==> values == endValues
  {
    seq(|startValues|, i requires 0 <= i < |startValues| => Lerp(fraction, startValues[i], endValues[i]))
  }

  /** `rect.width() / 2f`: the radius both path shapes start their reveal from. */
  function HalfWidth(rect: Box): real
  {
    rect.Width() as real / 2.0
  }

  /** TearDrop's six start values: the start rect's edges, `r1 = width / 2` and `r2 = r1 * ratio`. */
  function TearDropStartValues(ratio: real, startRect: Box): seq<real>
  {
    [startRect.left as real, startRect.top as real, startRect.right as real, startRect.bottom as real,
     HalfWidth(startRect), ShortRadius(HalfWidth(startRect), ratio)]
  }

  /** TearDrop's six end values: the end rect's edges and the end radius twice. */
  function TearDropEndValues(endRect: Box, endRadius: real): seq<real>
  {
    [endRect.left as real, endRect.top as real, endRect.right as real, endRect.bottom as real, endRadius, endRadius]
  }

  /** What one TearDrop reveal frame appends at animated value `progress`. */
  function TearDropFrame(ratio: real, startRect: Box, endRect: Box, endRadius: real, progress: real): seq<PathCmd>
  {
    var v := Evaluate(progress, TearDropStartValues(ratio, startRect), TearDropEndValues(endRect, endRadius));
    [AddRoundRect(v[0], v[1], v[2], v[3], RadiiArray(v[4], v[5]), CW)]
  }

  /** The six values a Squircle reveal frame blends. */
  datatype SquircleState = SquircleState(cx: real, cy: real, r: real, control: real, hShift: real, vShift: real)

  function SquircleStart(ratio: real, startRect: Box): SquircleState
  {
    var r := startRect.Width() as real / 2.0;
    SquircleState(startRect.ExactCenterX(), startRect.ExactCenterY(), r, r - r * ratio, 0.0, 0.0)
  }

  function SquircleEnd(endRect: Box, endR: real): SquircleState
  {
    SquircleState(endRect.ExactCenterX(), endRect.ExactCenterY(), endR, endR * CIRCLE_BEZIER_FACTOR,
                  endRect.Width() as real / 2.0 - endR, endRect.Height() as real / 2.0 - endR)
  }

  /** `(1 - progress) * a + progress * b` */
  function Mix(progress: real, a: real, b: real): real
  {
    (1.0 - progress) * a + progress * b
  }

  function SquircleBlend(progress: real, a: SquircleState, b: SquircleState): SquircleState
  {
    SquircleState(Mix(progress, a.cx, b.cx), Mix(progress, a.cy, b.cy), Mix(progress, a.r, b.r),
                  Mix(progress, a.control, b.control), Mix(progress, a.hShift, b.hShift),
                  Mix(progress, a.vShift, b.vShift))
  }

  /** The commands of one Squircle frame: four corner curves joined by straight edges of length `2 * shift`. */
  function SquircleFrameOutline(st: SquircleState): seq<PathCmd>
  {
    var SquircleState(cx, cy, r, control, hShift, vShift) := st;
    [MoveTo(cx, cy - vShift - r),
     RLineTo(-hShift, 0.0),
     LeftCurve(cx - hShift, cy - vShift, r, control),
     RLineTo(0.0, vShift + vShift),
     RightCurve(cx - hShift, cy + vShift, r, control),
     RLineTo(hShift + hShift, 0.0),
     LeftCurve(cx + hShift, cy + vShift, -r, -control),
     RLineTo(0.0, -vShift - vShift),
     RightCurve(cx + hShift, cy - vShift, -r, -control),
     Close]
  }

  /** What one Squircle reveal frame appends at animated value `progress`. */
  function SquircleFrame(ratio: real, startRect: Box, endRect: Box, endR: real, progress: real): seq<PathCmd>
  {
    SquircleFrameOutline(SquircleBlend(progress, SquircleStart(ratio, startRect), SquircleEnd(endRect, endR)))
  }

  /** The frame of a path-family shape at animated value `progress`. */
  function RevealFrame(s: Shape, startRect: Box, endRect: Box, endRadius: real, progress: real): seq<PathCmd>
    requires !s.IsSimpleRect()
  {
    match s
    case TearDrop(ratio) => TearDropFrame(ratio, startRect, endRect, endRadius, progress)
    case Squircle(ratio) => SquircleFrame(ratio, startRect, endRect, endRadius, progress)
  }

  /** `x` lies between `a` and `b`, whichever is smaller. */
  predicate Between(x: real, a: real, b: real)
  {
    (a <= b ==> a <= x <= b) && (b <= a ==> b <= x <= a)
  }

  lemma {:induction false} FractionOfDifference(fraction: real, a: real, b: real)
    requires 0.0 <= fraction <= 1.0
    ensures Between(Lerp(fraction, a, b), a, b)
  {
    var d := b - a;
    var rest := 1.0 - fraction;
    assert fraction * d + rest * d == d;
    if d >= 0.0 {
      ProductNonNegative(fraction, d);
      ProductNonNegative(rest, d);
    } else {
      ProductNonNegative(fraction, -d);
      ProductNonNegative(rest, -d);
    }
  }

  lemma ProductNonNegative(x: real, y: real)
    requires 0.0 <= x && 0.0 <= y
    ensures 0.0 <= x * y
  {
  }

  /** For a fraction in [0, 1], every evaluated slot lies between its start and end values. */
  lemma {:induction false} EvaluateBetween(fraction: real, startValues: seq<real>, endValues: seq<real>)
    requires |startValues| == |endValues| && 0.0 <= fraction <= 1.0
    ensures forall i :: 0 <= i < |startValues| ==>
              Between(Evaluate(fraction, startValues, endValues)[i], startValues[i], endValues[i])
  {
    forall i | 0 <= i < |startValues|
      ensures Between(Evaluate(fraction, startValues, endValues)[i], startValues[i], endValues[i])
    {
      FractionOfDifference(fraction, startValues[i], endValues[i]);
    }
  }

  /**
    The TearDrop reveal starts at the start rect with the shape's own radii
    (half the start width on three corners, that times the ratio on the
    bottom-right one) and ends at the end rect with the end radius on every
    corner.
  */
  lemma TearDropFrameEnds(ratio: real, startRect: Box, endRect: Box, endRadius: real)
    ensures var r1 := HalfWidth(startRect);
      TearDropFrame(ratio, startRect, endRect, endRadius, 0.0)
        == [AddRoundRect(startRect.left as real, startRect.top as real, startRect.right as real,
                         startRect.bottom as real, RadiiArray(r1, ShortRadius(r1, ratio)), CW)]
    ensures TearDropFrame(ratio, startRect, endRect, endRadius, 1.0)
        == [AddRoundRect(endRect.left as real, endRect.top as real, endRect.right as real,
                         endRect.bottom as real, RadiiArray(endRadius, endRadius), CW)]
  {
    var sv, ev := TearDropStartValues(ratio, startRect), TearDropEndValues(endRect, endRadius);
    var v0, v1 := Evaluate(0.0, sv, ev), Evaluate(1.0, sv, ev);
    assert v0 == sv;
    assert v1 == ev && v1[4] == ev[4] && v1[5] == ev[5];
  }

  /** Every TearDrop frame places each edge and each radius at `start + progress * (end - start)`. */
  lemma TearDropFrameInterpolates(ratio: real, startRect: Box, endRect: Box, endRadius: real, progress: real)
    ensures var f := TearDropFrame(ratio, startRect, endRect, endRadius, progress)[0];
      var r1 := HalfWidth(startRect);
      && f.left == Lerp(progress, startRect.left as real, endRect.left as real)
      && f.top == Lerp(progress, startRect.top as real, endRect.top as real)
      && f.right == Lerp(progress, startRect.right as real, endRect.right as real)
      && f.bottom == Lerp(progress, startRect.bottom as real, endRect.bottom as real)
      && f.radii == RadiiArray(Lerp(progress, r1, endRadius), Lerp(progress, ShortRadius(r1, ratio), endRadius))
  {
    var sv, ev := TearDropStartValues(ratio, startRect), TearDropEndValues(endRect, endRadius);
    var v := Evaluate(progress, sv, ev);
    assert TearDropFrame(ratio, startRect, endRect, endRadius, progress)[0]
        == AddRoundRect(v[0], v[1], v[2], v[3], RadiiArray(v[4], v[5]), CW);
  }

  /** In between, each edge and each radius of a TearDrop frame lies between its start and end value. */
  lemma TearDropFrameBetween(ratio: real, startRect: Box, endRect: Box, endRadius: real, progress: real)
    requires 0.0 <= progress <= 1.0
    ensures var f := TearDropFrame(ratio, startRect, endRect, endRadius, progress)[0];
      && Between(f.left, startRect.left as real, endRect.left as real)
      && Between(f.top, startRect.top as real, endRect.top as real)
      && Between(f.right, startRect.right as real, endRect.right as real)
      && Between(f.bottom, startRect.bottom as real, endRect.bottom as real)
      && Between(f.radii[0], HalfWidth(startRect), endRadius)
      && Between(f.radii[4], ShortRadius(HalfWidth(startRect), ratio), endRadius)
  {
    var sv, ev := TearDropStartValues(ratio, startRect), TearDropEndValues(endRect, endRadius);
    EvaluateBetween(progress, sv, ev);
    var v := Evaluate(progress, sv, ev);
    assert Between(v[0], sv[0], ev[0]) && Between(v[1], sv[1], ev[1]) && Between(v[2], sv[2], ev[2]);
    assert Between(v[3], sv[3], ev[3]) && Between(v[4], sv[4], ev[4]) && Between(v[5], sv[5], ev[5]);
  }

  lemma SquircleBlendEnds(a: SquircleState, b: SquircleState)
    ensures SquircleBlend(0.0, a, b) == a
    ensures SquircleBlend(1.0, a, b) == b
  {
  }

  /**
    The first Squircle frame is centred on the start rect's exact centre,
    with radius half the start width, control `r - r * ratio` and no
    straight edges; the last is centred on the end rect's with the end
    radius, the quarter-circle control and straight edges that span the end
    rect less the two corners.
  */
  lemma SquircleFrameEnds(ratio: real, startRect: Box, endRect: Box, endR: real)
    ensures var r := startRect.Width() as real / 2.0;
      SquircleFrame(ratio, startRect, endRect, endR, 0.0)
        == SquircleFrameOutline(SquircleState(startRect.ExactCenterX(), startRect.ExactCenterY(), r, r - r * ratio, 0.0, 0.0))
    ensures SquircleFrame(ratio, startRect, endRect, endR, 1.0)
        == SquircleFrameOutline(SquircleState(endRect.ExactCenterX(), endRect.ExactCenterY(), endR, endR * CIRCLE_BEZIER_FACTOR,
                                              endRect.Width() as real / 2.0 - endR, endRect.Height() as real / 2.0 - endR))
  {
    var a, b := SquircleStart(ratio, startRect), SquircleEnd(endRect, endR);
    var r := startRect.Width() as real / 2.0;
    assert a == SquircleState(startRect.ExactCenterX(), startRect.ExactCenterY(), r, r - r * ratio, 0.0, 0.0);
    SquircleBlendEnds(a, b);
    assert SquircleFrame(ratio, startRect, endRect, endR, 0.0) == SquircleFrameOutline(a);
    assert SquircleFrame(ratio, startRect, endRect, endR, 1.0) == SquircleFrameOutline(b);
  }

  /** Every Squircle frame is one contour: a move, four (straight edge, corner curve) pairs, and a close. */
  lemma SquircleFrameShape(st: SquircleState)
    ensures var f := SquircleFrameOutline(st);
      && |f| == 10 && f[0].MoveTo? && f[9].Close?
      && (forall k :: 0 <= k < 4 ==> f[2 * k + 1].RLineTo? && f[2 * k + 2].CubicTo?)
  {
    var f := SquircleFrameOutline(st);
    assert forall k :: 0 <= k < 4 ==> 2 * k + 1 in {1, 3, 5, 7};
  }

  /**
    The pen positions of a Squircle frame after each corner curve: the
    middle of the left, bottom, right and top sides of the rect the frame
    spans around its centre, `2 * (hShift + r)` wide and `2 * (vShift + r)` high.
  */
  lemma {:induction false} SquircleFrameCorners(st: SquircleState, pen: Point)
    ensures var SquircleState(cx, cy, r, _, h, v) := st;
      var f := SquircleFrameOutline(st);
      && PenAfter(f[..1], pen) == Point(cx, cy - v - r)
      && PenAfter(f[..3], pen) == Point(cx - h - r, cy - v)
      && PenAfter(f[..5], pen) == Point(cx - h, cy + v + r)
      && PenAfter(f[..7], pen) == Point(cx + h + r, cy + v)
      && PenAfter(f[..9], pen) == Point(cx + h, cy - v - r)
  {
    var SquircleState(cx, cy, r, c, h, v) := st;
    var f := SquircleFrameOutline(st);
    var p1 := Point(cx, cy - v - r);
    var p2 := Point(cx - h, cy - v - r);
    var p3 := Point(cx - h - r, cy - v);
    var p4 := Point(cx - h - r, cy + v);
    var p5 := Point(cx - h, cy + v + r);
    var p6 := Point(cx + h, cy + v + r);
    var p7 := Point(cx + h + r, cy + v);
    var p8 := Point(cx + h + r, cy - v);
    var p9 := Point(cx + h, cy - v - r);
    PenAfterPrefix(f, pen, 0, pen);
    PenAfterPrefix(f, pen, 1, p1);
    PenAfterPrefix(f, pen, 2, p2);
    PenAfterPrefix(f, pen, 3, p3);
    PenAfterPrefix(f, pen, 4, p4);
    PenAfterPrefix(f, pen, 5, p5);
    PenAfterPrefix(f, pen, 6, p6);
    PenAfterPrefix(f, pen, 7, p7);
    PenAfterPrefix(f, pen, 8, p8);
  }

  /** The last Squircle frame touches the middle of each side of its end rect. */
  lemma SquircleEndFrameSpansEndRect(ratio: real, startRect: Box, endRect: Box, endR: real, pen: Point)
    ensures var f := SquircleFrame(ratio, startRect, endRect, endR, 1.0);
      var cx, cy := endRect.ExactCenterX(), endRect.ExactCenterY();
      && PenAfter(f[..1], pen).y == endRect.top as real
      && PenAfter(f[..3], pen).x == endRect.left as real
      && PenAfter(f[..5], pen).y == endRect.bottom as real
      && PenAfter(f[..7], pen).x == endRect.right as real
      && PenAfter(f[..9], pen).y == endRect.top as real
  {
    SquircleFrameEnds(ratio, startRect, endRect, endR);
    SquircleFrameCorners(SquircleEnd(endRect, endR), pen);
  }

  /** The body of the update listener `newUpdateListener` returns: appends the frame at `progress`. */
  method AppendRevealFrame(s: Shape, path: Path, startRect: Box, endRect: Box, endRadius: real, progress: real)
    requires !s.IsSimpleRect()
    modifies path
    ensures path.cmds == old(path.cmds) + RevealFrame(s, startRect, endRect, endRadius, progress)
  {
    match s
    case TearDrop(ratio) => AppendTearDropFrame(ratio, path, startRect, endRect, endRadius, progress);
    case Squircle(ratio) => AppendSquircleFrame(ratio, path, startRect, endRect, endRadius, progress);
  }

  /** The tear drop's frame: the blended rect with its blended corner radii, clockwise. */
  method AppendTearDropFrame(ratio: real, path: Path, startRect: Box, endRect: Box, endRadius: real, progress: real)
    modifies path
    ensures path.cmds == old(path.cmds) + TearDropFrame(ratio, startRect, endRect, endRadius, progress)
  {
    var values := Evaluate(progress, TearDropStartValues(ratio, startRect), TearDropEndValues(endRect, endRadius));
    var radii := new real[8];
    GetRadiiArray(radii, values[4], values[5]);
    assert radii[..][..8] == radii[..];
    path.AddRoundRect(values[0], values[1], values[2], values[3], radii[..], CW);
  }

  /** The squircle's frame: four straight edges joined by four curved corners, closed. */
  method AppendSquircleFrame(ratio: real, path: Path, startRect: Box, endRect: Box, endRadius: real, progress: real)
    modifies path
    ensures path.cmds == old(path.cmds) + SquircleFrame(ratio, startRect, endRect, endRadius, progress)
  {
    var st := SquircleBlend(progress, SquircleStart(ratio, startRect), SquircleEnd(endRect, endRadius));
    var cx, cy, r, control, hShift, vShift := st.cx, st.cy, st.r, st.control, st.hShift, st.vShift;
    path.MoveTo(cx, cy - vShift - r);
    path.RLineTo(-hShift, 0.0);
    AddLeftCurve(path, cx - hShift, cy - vShift, r, control);
    path.RLineTo(0.0, vShift + vShift);
    AddRightCurve(path, cx - hShift, cy + vShift, r, control);
    path.RLineTo(hShift + hShift, 0.0);
    AddLeftCurve(path, cx + hShift, cy + vShift, -r, -control);
    path.RLineTo(0.0, -vShift - vShift);
    AddRightCurve(path, cx + hShift, cy - vShift, -r, -control);
    path.Close();
  }

  // ---------------------------------------------------------------------
  // The reveal animator (createRevealAnimator)
  // ---------------------------------------------------------------------

  /**
    The target's state once the reveal's start listener has run. Both
    families sink the target by its elevation (`translationZ = -elevation`).
    A path shape removes the outline provider, so that its clip path is what
    shows; a simple-rect shape's rounded-rect reveal provider installs
    itself as the outline provider and clips the target to it.
  */
  function RevealStarted(shape: Shape, s: ViewState): ViewState
  {
    if shape.IsSimpleRect() then s.(outlineProvider := RevealOutline, clipToOutline := true, translationZ := -s.elevation)
    else s.(outlineProvider := NoProvider, translationZ := -s.elevation)
  }

  /**
    The target's state once the reveal's end listener has run, given the
    outline provider and clip-to-outline flag saved at the start: elevation
    back to neutral (`translationZ = 0`) and the saved provider reinstalled;
    the rounded-rect reveal provider also restores the saved flag.
  */
  function RevealEnded(shape: Shape, s: ViewState, savedProvider: OutlineProvider, savedClipToOutline: bool): ViewState
  {
    s.(translationZ := 0.0, outlineProvider := savedProvider,
       clipToOutline := if shape.IsSimpleRect() then savedClipToOutline else s.clipToOutline)
  }

  /**
    A reveal that starts and then ends leaves the target as it found it,
    except that its translationZ is neutral: the start's changes to the
    outline provider and clip-to-outline flag are undone, and the sink by
    the elevation is lifted.
  */
  lemma RevealEndUndoesStart(shape: Shape, s: ViewState)
    ensures RevealEnded(shape, RevealStarted(shape, s), s.outlineProvider, s.clipToOutline) == s.(translationZ := 0.0)
    ensures RevealStarted(shape, s).translationZ == -s.elevation
  {
  }

  /** The arguments a simple-rect shape hands to the rounded-rect outline provider. */
  datatype RoundedRectReveal = RoundedRectReveal(
    startRadius: real, endRadius: real, startRect: Box, endRect: Box, shouldRemoveElevation: bool)

  /**
    The animator `createRevealAnimator(target, startRect, endRect, endRadius,
    isReversed)` returns, with the listeners it attaches. Its timeline is a
    fraction in [0, 1] set by the caller; the animated value runs 0 to 1, or
    1 to 0 when reversed.
  */
  class RevealAnimator {
    const shape: Shape
    const target: View
    const startRect: Box
    const endRect: Box
    const endRadius: real
    const isReversed: bool
    /** Simple-rect family: what the rounded-rect outline provider was created with. */
    const outlineReveal: Option<RoundedRectReveal>
    /** Path family: the path the update listener rebuilds and installs as the target's clip. */
    const path: Path
    var fraction: real
    var started: bool
    var paused: bool
    /** The outline provider the start listener saved (`mOldOutlineProvider`). */
    var oldOutlineProvider: OutlineProvider
    /** The clip-to-outline flag saved at the start; only the rounded-rect reveal provider restores it. */
    var oldClipToOutline: bool

    constructor (shape: Shape, target: View, startRect: Box, endRect: Box, endRadius: real, isReversed: bool)
      ensures this.shape == shape && this.target == target
      ensures this.startRect == startRect && this.endRect == endRect
      ensures this.endRadius == endRadius && this.isReversed == isReversed
      ensures outlineReveal == if shape.IsSimpleRect()
                               then Some(RoundedRectReveal(StartRadius(shape, startRect), endRadius, startRect, endRect, true))
                               else None
      ensures fresh(path) && path.cmds == []
      ensures fraction == 0.0 && !started && !paused && oldOutlineProvider == NoProvider && !oldClipToOutline
    {
      this.shape, this.target := shape, target;
      this.startRect, this.endRect, this.endRadius := startRect, endRect, endRadius;
      this.isReversed := isReversed;
      outlineReveal := if shape.IsSimpleRect()
                       then Some(RoundedRectReveal(StartRadius(shape, startRect), endRadius, startRect, endRect, true))
                       else None;
      path := new Path();
      fraction, started, paused := 0.0, false, false;
      oldOutlineProvider, oldClipToOutline := NoProvider, false;
    }

    /** `ValueAnimator.ofFloat(1f, 0f)` when reversed, `ofFloat(0f, 1f)` otherwise. */
    function AnimatedValue(): (v: real)
      reads this
      ensures fraction == 0.0 ==> v == if isReversed then 1.0 else 0.0
      ensures fraction == 1.0 ==> v == if isReversed then 0.0 else 1.0
      ensures 0.0 <= fraction <= 1.0 ==> 0.0 <= v <= 1.0
    {
      if isReversed then 1.0 - fraction else fraction
    }

    /** The path family's update listener: reset the path, rebuild the frame, install it as the clip. */
    method OnUpdate()
      requires !shape.IsSimpleRect()
      modifies path, target
      ensures path.cmds == RevealFrame(shape, startRect, endRect, endRadius, AnimatedValue())
      ensures target.clipPath == path && target.State() == old(target.State())
    {
      path.Reset();
      AppendRevealFrame(shape, path, startRect, endRect, endRadius, AnimatedValue());
      target.SetClipPath(path);
    }

    /**
      `start()`: the start listener runs, then a path shape draws its first
      frame at fraction 0. Both families save the target's outline provider
      and sink the target by its elevation; see `RevealStarted`.
    */
    method Start()
      modifies this, path, target
      ensures started && !paused && fraction == 0.0
      ensures oldOutlineProvider == old(target.outlineProvider) && oldClipToOutline == old(target.clipToOutline)
      ensures target.State() == RevealStarted(shape, old(target.State()))
      ensures shape.IsSimpleRect() ==> target.clipPath == old(target.clipPath) && path.cmds == old(path.cmds)
      ensures !shape.IsSimpleRect() ==>
        && target.clipPath == path
        && path.cmds == RevealFrame(shape, startRect, endRect, endRadius, AnimatedValue())
    {
      started, paused, fraction := true, false, 0.0;
      oldOutlineProvider, oldClipToOutline := target.outlineProvider, target.clipToOutline;
      target.translationZ := -target.elevation;
      if shape.IsSimpleRect() {
        target.outlineProvider, target.clipToOutline := RevealOutline, true;
      } else {
        target.outlineProvider := NoProvider;
        OnUpdate();
      }
    }

    /** `pause()`: the timeline stops; the fraction is now driven by the caller. */
    method Pause()
      modifies this
      ensures paused && started == old(started) && fraction == old(fraction)
      ensures oldOutlineProvider == old(oldOutlineProvider) && oldClipToOutline == old(oldClipToOutline)
    {
      paused := true;
    }

    /** `setCurrentFraction(f)`: the fraction, clamped to [0, 1], and a frame at the new animated value. */
    method SetCurrentFraction(f: real)
      modifies this, path, target
      ensures fraction == if f < 0.0 then 0.0 else if f > 1.0 then 1.0 else f
      ensures started == old(started) && paused == old(paused)
      ensures oldOutlineProvider == old(oldOutlineProvider) && oldClipToOutline == old(oldClipToOutline)
      ensures target.State() == old(target.State())
      ensures shape.IsSimpleRect() ==> target.clipPath == old(target.clipPath) && path.cmds == old(path.cmds)
      ensures !shape.IsSimpleRect() ==>
        target.clipPath == path && path.cmds == RevealFrame(shape, startRect, endRect, endRadius, AnimatedValue())
    {
      fraction := if f < 0.0 then 0.0 else if f > 1.0 then 1.0 else f;
      if !shape.IsSimpleRect() {
        OnUpdate();
      }
    }

    /**
      The end listener: the target's elevation is restored and its saved
      outline state put back (see `RevealEnded`); a path shape also clears
      the target's clip.
    */
    method OnEnd()
      modifies this, target
      ensures !started && fraction == old(fraction)
      ensures target.State() == RevealEnded(shape, old(target.State()), old(oldOutlineProvider), old(oldClipToOutline))
      ensures shape.IsSimpleRect() ==> target.clipPath == old(target.clipPath)
      ensures !shape.IsSimpleRect() ==> target.clipPath == null
    {
      started := false;
      target.translationZ := 0.0;
      target.outlineProvider := oldOutlineProvider;
      if shape.IsSimpleRect() {
        target.clipToOutline := oldClipToOutline;
      } else {
        target.SetClipPath(null);
      }
    }
  }

  // ---------------------------------------------------------------------
  // The process-wide shape selection
  // ---------------------------------------------------------------------

  /** The static state of IconShape: the active shape, its normalization scale and the cached default path. */
  class IconShapeRegistry {
    /** `getShape()` */
    const instance: Shape
    /** `getNormalizationScale()` */
    const normalizationScale: real
    var shapePath: Path?

    ghost predicate Valid()
      reads this, shapePath
    {
      shapePath != null ==> shapePath.cmds == Outline(instance, 0.0, 0.0, DEFAULT_PATH_SIZE as real * 0.5)
    }

    /** The defaults: a rounded square with ratio 0.5 and the visible-area factor. */
    constructor ()
      ensures instance == RoundedSquare(0.5) && normalizationScale == ICON_VISIBLE_AREA_FACTOR
      ensures shapePath == null && Valid()
    {
      instance := RoundedSquare(0.5);
      normalizationScale := ICON_VISIBLE_AREA_FACTOR;
      shapePath := null;
    }

    /** `getShapePath()`: builds the default-size path once, then returns the cached one. */
    method GetShapePath() returns (p: Path)
      requires Valid()
      modifies this
      ensures Valid() && shapePath == p
      ensures p.cmds == Outline(instance, 0.0, 0.0, 50.0)
      ensures old(shapePath) != null ==> p == old(shapePath)
      ensures old(shapePath) == null ==> fresh(p)
    {
      if shapePath == null {
        var q := new Path();
        AddToPath(instance, q, 0.0, 0.0, DEFAULT_PATH_SIZE as real * 0.5);
        shapePath := q;
      }
      p := shapePath;
    }
  }

  /** The cached default path: the 100 x 100 square at the origin with corner radius 25. */
  lemma DefaultShapePath()
    ensures Outline(RoundedSquare(0.5), 0.0, 0.0, DEFAULT_PATH_SIZE as real * 0.5)
            == [AddRoundRectXY(0.0, 0.0, 100.0, 100.0, 25.0, 25.0, CW)]
  {
  }
}
