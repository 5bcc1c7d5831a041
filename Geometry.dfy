/**
  The static geometry helpers of FloatingIconView (range mapping, clamping,
  in-place rect scaling) and the closed-form quantities its per-frame
  `update` and `setIcon` compute from their inputs.
*/
module Geometry {
  import opened Rects

  /** Width of the progress window over which an opening reveal runs. */
  const SHAPE_PROGRESS_DURATION: real := 0.10

  /** The device width and height the source hard-codes. */
  const DEVICE_WIDTH_PX: int := 1080
  const DEVICE_HEIGHT_PX: int := 1920

  /** Factors of the foreground spring's lag behind the view's movement. */
  const FG_TRANS_X_FACTOR: int := 60
  const FG_TRANS_Y_FACTOR: int := 75

  newtype int32 = x: int | -0x8000_0000 <= x < 0x8000_0000
  newtype int64 = x: int | -0x8000_0000_0000_0000 <= x < 0x8000_0000_0000_0000

  // ---------------------------------------------------------------------
  // boundToRange (int, float and long overloads)
  // ---------------------------------------------------------------------

  /** `boundToRange(int value, int lowerBound, int upperBound)`: `Math.max(lowerBound, Math.min(value, upperBound))`. */
  function BoundToRangeInt(value: int32, lowerBound: int32, upperBound: int32): (r: int32)
    ensures value < lowerBound ==> r == lowerBound
    ensures lowerBound <= value <= upperBound ==> r == value
    ensures upperBound < value ==> r == (if lowerBound <= upperBound then upperBound else lowerBound)
    ensures upperBound < lowerBound ==> r == lowerBound
  {
    var m := if value <= upperBound then value else upperBound;
    if lowerBound >= m then lowerBound else m
  }

  /** The float overload. */
  function BoundToRangeFloat(value: real, lowerBound: real, upperBound: real): (r: real)
    ensures value < lowerBound ==> r == lowerBound
    ensures lowerBound <= value <= upperBound ==> r == value
    ensures upperBound < value ==> r == (if lowerBound <= upperBound then upperBound else lowerBound)
    ensures upperBound < lowerBound ==> r == lowerBound
  {
    var m := if value <= upperBound then value else upperBound;
    if lowerBound >= m then lowerBound else m
  }

  /** The long overload. */
  function BoundToRangeLong(value: int64, lowerBound: int64, upperBound: int64): (r: int64)
    ensures value < lowerBound ==> r == lowerBound
    ensures lowerBound <= value <= upperBound ==> r == value
    ensures upperBound < value ==> r == (if lowerBound <= upperBound then upperBound else lowerBound)
    ensures upperBound < lowerBound ==> r == lowerBound
  {
    var m := if value <= upperBound then value else upperBound;
    if lowerBound >= m then lowerBound else m
  }

  /** Clamping is idempotent, in all three overloads. */
  lemma BoundToRangeIdempotent(v: int32, lo: int32, hi: int32, f: real, flo: real, fhi: real,
                               l: int64, llo: int64, lhi: int64)
    ensures BoundToRangeInt(BoundToRangeInt(v, lo, hi), lo, hi) == BoundToRangeInt(v, lo, hi)
    ensures BoundToRangeFloat(BoundToRangeFloat(f, flo, fhi), flo, fhi) == BoundToRangeFloat(f, flo, fhi)
    ensures BoundToRangeLong(BoundToRangeLong(l, llo, lhi), llo, lhi) == BoundToRangeLong(l, llo, lhi)
  {
  }

  // ---------------------------------------------------------------------
  // mapToRange, getProgress, mapRange
  // ---------------------------------------------------------------------

  function Abs(x: real): real
  {
    if x < 0.0 then -x else x
  }

  lemma MulNonNeg(a: real, b: real)
    requires 0.0 <= a && 0.0 <= b
    ensures 0.0 <= a * b
  {
  }

  lemma MulMono(a: real, b: real, c: real)
    requires 0.0 <= c && a <= b
    ensures a * c <= b * c
  {
    MulNonNeg(b - a, c);
  }

  lemma MulStrictMono(a: real, b: real, c: real)
    requires 0.0 < c && a < b
    ensures a * c < b * c
  {
    assert 0.0 < (b - a) * c;
  }

  lemma DivMono(a: real, b: real, d: real)
    requires 0.0 < d && a <= b
    ensures a / d <= b / d
  {
    var inv := 1.0 / d;
    assert a / d == a * inv && b / d == b * inv;
    MulMono(a, b, inv);
  }

  /** `LINEAR.getInterpolation(input)` */
  function Linear(input: real): real
  {
    input
  }

  /**
    `getProgress(current, min, max)`: `|current - min| / |max - min|`.
    With `min == max` the source divides by zero and gets a non-finite
    float, which reals cannot express.
  */
  function GetProgress(current: real, min: real, max: real): (r: real)
    requires min != max
    ensures 0.0 <= r
    ensures current == min ==> r == 0.0
    ensures current == max ==> r == 1.0
    ensures min <= current <= max || max <= current <= min ==> r <= 1.0
  {
    var n, span := Abs(current - min), Abs(max - min);
    assert 0.0 < span;
    assert span / span == 1.0;
    assert min <= current <= max || max <= current <= min ==> n <= span;
    QuotientAtMostOne(n, span);
    DivMono(0.0, n, span);
    n / span
  }

  /** `mapRange(value, min, max)`: `min + value * (max - min)`. */
  function MapRange(value: real, min: real, max: real): (r: real)
    ensures value == 0.0 ==> r == min
    ensures value == 1.0 ==> r == max
  {
    min + (value * (max - min))
  }

  /** A value in [0, 1] maps to a point between the range's ends, whichever way round they are. */
  lemma {:induction false} MapRangeBetween(value: real, min: real, max: real)
    requires 0.0 <= value <= 1.0
    ensures min <= MapRange(value, min, max) <= max || max <= MapRange(value, min, max) <= min
  {
    var w := max - min;
    var t := value * w;
    assert MapRange(value, min, max) == min + t;
    FractionWithin(value, w);
    if 0.0 <= w {
      assert 0.0 <= t <= w;
    } else {
      assert w <= t <= 0.0;
    }
  }

  /** A fraction in [0, 1] of a signed length lies between 0 and that length. */
  lemma FractionWithin(value: real, w: real)
    requires 0.0 <= value <= 1.0
    ensures 0.0 <= w ==> 0.0 <= value * w <= w
    ensures w <= 0.0 ==> w <= value * w <= 0.0
  {
    if 0.0 <= w {
      MulNonNeg(value, w);
      MulNonNeg(1.0 - value, w);
      assert (1.0 - value) * w == w - value * w;
    } else {
      var v := -w;
      MulNonNeg(value, v);
      MulNonNeg(1.0 - value, v);
      assert (1.0 - value) * v == v - value * v;
      assert value * v == -(value * w);
    }
  }

  /**
    `mapToRange(t, fromMin, fromMax, toMin, toMax, interpolator)`: a
    degenerate range yields `toMin`; otherwise the interpolated progress of
    `t` through the from-range, mapped into the to-range.
  */
  function MapToRange(t: real, fromMin: real, fromMax: real, toMin: real, toMax: real,
                      interpolator: real -> real): (r: real)
    ensures fromMin == fromMax || toMin == toMax ==> r == toMin
  {
    if fromMin == fromMax || toMin == toMax then toMin
    else MapRange(interpolator(GetProgress(t, fromMin, fromMax)), toMin, toMax)
  }

  /** With the linear interpolator the from-range's ends map onto the to-range's ends. */
  lemma MapToRangeEnds(fromMin: real, fromMax: real, toMin: real, toMax: real)
    ensures MapToRange(fromMin, fromMin, fromMax, toMin, toMax, Linear) == toMin
    ensures fromMin != fromMax ==> MapToRange(fromMax, fromMin, fromMax, toMin, toMax, Linear) == toMax
  {
  }

  /** With the linear interpolator a point of the from-range maps into the to-range, linearly. */
  lemma MapToRangeWithin(t: real, fromMin: real, fromMax: real, toMin: real, toMax: real)
    requires fromMin <= t <= fromMax || fromMax <= t <= fromMin
    ensures var r := MapToRange(t, fromMin, fromMax, toMin, toMax, Linear);
      (toMin <= r <= toMax || toMax <= r <= toMin)
    ensures fromMin != fromMax ==>
      MapToRange(t, fromMin, fromMax, toMin, toMax, Linear)
        == toMin + (t - fromMin) / (fromMax - fromMin) * (toMax - toMin)
  {
    if fromMin != fromMax {
      var p := GetProgress(t, fromMin, fromMax);
      assert p == (t - fromMin) / (fromMax - fromMin) by {
        if fromMin < fromMax {
          assert Abs(t - fromMin) == t - fromMin;
        } else {
          assert Abs(t - fromMin) == -(t - fromMin) && Abs(fromMax - fromMin) == -(fromMax - fromMin);
        }
      }
      MapRangeBetween(p, toMin, toMax);
    }
  }

  // ---------------------------------------------------------------------
  // scaleRect, scaleRectAboutCenter
  // ---------------------------------------------------------------------

  /**
    One edge as `scaleRect` writes it: `(int)(edge * scale + 0.5f)`. From
    -0.5 up this rounds to the nearest integer (halves up); below -0.5 the
    cast truncates toward zero and the result lands up to 1.5 above.
  */
  function ScaleEdge(edge: int, scale: real): int
  {
    Trunc(edge as real * scale + 0.5)
  }

  lemma ScaleEdgeRounding(edge: int, scale: real)
    ensures var x, r := edge as real * scale, ScaleEdge(edge, scale) as real;
      && (-0.5 <= x ==> x - 0.5 < r <= x + 0.5)
      && (x < -0.5 ==> x + 0.5 <= r < x + 1.5)
  {
  }

  /** The rect `scaleRect(r, scale)` leaves: every edge scaled about the origin, unless the scale is 1. */
  function ScaledRect(b: Box, scale: real): Box
  {
    if scale == 1.0 then b
    else Box(ScaleEdge(b.left, scale), ScaleEdge(b.top, scale), ScaleEdge(b.right, scale), ScaleEdge(b.bottom, scale))
  }

  /** The rect `scaleRectAboutCenter(r, scale)` leaves: scaled about its integer centre, unless the scale is 1. */
  function ScaledAboutCenter(b: Box, scale: real): Box
  {
    if scale == 1.0 then b
    else
      var cx := b.CenterX();
      var cy := b.CenterY();
      ScaledRect(b.Offset(-cx, -cy), scale).Offset(cx, cy)
  }

  method ScaleRect(r: Rect, scale: real)
    modifies r
    ensures r.Value() == ScaledRect(old(r.Value()), scale)
  {
    if scale != 1.0 {
      r.left := ScaleEdge(r.left, scale);
      r.top := ScaleEdge(r.top, scale);
      r.right := ScaleEdge(r.right, scale);
      r.bottom := ScaleEdge(r.bottom, scale);
    }
  }

  method ScaleRectAboutCenter(r: Rect, scale: real)
    modifies r
    ensures r.Value() == ScaledAboutCenter(old(r.Value()), scale)
  {
    if scale != 1.0 {
      var cx := r.CenterX();
      var cy := r.CenterY();
      r.Offset(-cx, -cy);
      ScaleRect(r, scale);
      r.Offset(cx, cy);
    }
  }

  /** With scale 1 both helpers leave the rect exactly as it was. */
  lemma ScaleByOneIsIdentity(b: Box)
    ensures ScaledRect(b, 1.0) == b && ScaledAboutCenter(b, 1.0) == b
  {
  }

  /** The two edges of an interval centred on 0 round to a sum of 0 or 1, so its integer centre stays 0. */
  lemma SymmetricEdgesSum(k: int, scale: real)
    ensures 0 <= ScaleEdge(-k, scale) + ScaleEdge(k, scale) <= 1
  {
    var a := k as real * scale;
    assert (-k) as real * scale == -a;
    assert ScaleEdge(-k, scale) == Trunc(0.5 - a);
    assert ScaleEdge(k, scale) == Trunc(a + 0.5);
  }

  /** For an even extent, scaling about the centre keeps the integer centre, for every scale. */
  lemma {:induction false} ScaledAboutCenterKeepsEvenCentre(b: Box, scale: real)
    requires b.Width() % 2 == 0 && b.Height() % 2 == 0
    ensures ScaledAboutCenter(b, scale).CenterX() == b.CenterX()
    ensures ScaledAboutCenter(b, scale).CenterY() == b.CenterY()
  {
    if scale != 1.0 {
      var cx, cy := b.CenterX(), b.CenterY();
      var kx, ky := b.Width() / 2, b.Height() / 2;
      assert b.left - cx == -kx && b.right - cx == kx;
      assert b.top - cy == -ky && b.bottom - cy == ky;
      SymmetricEdgesSum(kx, scale);
      SymmetricEdgesSum(ky, scale);
      var s := ScaledRect(b.Offset(-cx, -cy), scale);
      assert s == Box(ScaleEdge(-kx, scale), ScaleEdge(-ky, scale), ScaleEdge(kx, scale), ScaleEdge(ky, scale));
    }
  }

  /** An edge on the origin's side of a non-positive coordinate moves only toward the origin. */
  lemma ShrinkEdge(e: int, scale: real)
    requires 0.0 < scale <= 1.0
    ensures e <= 0 ==> e <= ScaleEdge(e, scale) <= 0
    ensures 0 <= e ==> 0 <= ScaleEdge(e, scale) <= e
  {
    ScaleEdgeRounding(e, scale);
    if e <= 0 {
      MulMono(e as real, 0.0, scale);
      MulNonNeg(-(e as real), 1.0 - scale);
      assert (-(e as real)) * (1.0 - scale) == e as real * scale - e as real;
    } else {
      MulNonNeg(e as real, scale);
      MulNonNeg(e as real, 1.0 - scale);
    }
  }

  /** Shrinking about the centre (0 < scale <= 1) keeps a well-formed rect inside itself. */
  lemma {:induction false} ShrinkStaysInside(b: Box, scale: real)
    requires b.left <= b.right && b.top <= b.bottom
    requires 0.0 < scale <= 1.0
    ensures b.Contains(ScaledAboutCenter(b, scale))
  {
    if scale != 1.0 {
      var cx, cy := b.CenterX(), b.CenterY();
      assert b.left <= cx <= b.right && b.top <= cy <= b.bottom;
      ShrinkEdge(b.left - cx, scale);
      ShrinkEdge(b.top - cy, scale);
      ShrinkEdge(b.right - cx, scale);
      ShrinkEdge(b.bottom - cy, scale);
    }
  }

  /** Negative edges truncate toward zero: growing a 2-by-2 rect by 1.2 about its centre halves it. */
  lemma ScaleUpCanShrinkSmallRect()
    ensures ScaledAboutCenter(Box(0, 0, 2, 2), 1.2) == Box(1, 1, 2, 2)
  {
    var b := Box(0, 0, 2, 2);
    assert b.CenterX() == 1 && b.CenterY() == 1;
    assert b.Offset(-1, -1) == Box(-1, -1, 1, 1);
    assert (-1) as real * 1.2 + 0.5 == -0.7 && 1 as real * 1.2 + 0.5 == 1.7;
    assert ScaleEdge(-1, 1.2) == Trunc(-0.7) == 0;
    assert ScaleEdge(1, 1.2) == Trunc(1.7) == 1;
    assert ScaledRect(Box(-1, -1, 1, 1), 1.2) == Box(0, 0, 1, 1);
  }

  /**
    An odd extent is scaled about its floored centre, so its exact centre
    drifts, and the drift grows with the scale: scaling the 3 x 3 rect by an
    integer `n >= 2` moves its exact centre by `n / 2` (by 5 at scale 10).
  */
  lemma OddExtentMovesExactCentre(n: int)
    requires 2 <= n
    ensures ScaledAboutCenter(Box(0, 0, 3, 3), n as real) == Box(2 - n, 2 - n, 2 * n + 1, 2 * n + 1)
    ensures Box(2 - n, 2 - n, 2 * n + 1, 2 * n + 1).ExactCenterX() == Box(0, 0, 3, 3).ExactCenterX() + n as real / 2.0
  {
    var b := Box(0, 0, 3, 3);
    assert b.CenterX() == 1 && b.CenterY() == 1;
    assert b.Offset(-1, -1) == Box(-1, -1, 2, 2);
    var lo := ScaleEdge(-1, n as real);
    assert (-1) as real * n as real + 0.5 == 0.5 - n as real;
    assert lo as real - 1.0 < 0.5 - n as real <= lo as real;
    assert lo == 1 - n;
    var hi := ScaleEdge(2, n as real);
    assert 2 as real * n as real + 0.5 == 2.0 * n as real + 0.5;
    assert hi as real <= 2.0 * n as real + 0.5 < hi as real + 1.0;
    assert hi == 2 * n;
    assert ScaledRect(Box(-1, -1, 2, 2), n as real) == Box(1 - n, 1 - n, 2 * n, 2 * n);
  }

  // ---------------------------------------------------------------------
  // What update computes
  // ---------------------------------------------------------------------

  function MinInt(a: int, b: int): int
  {
    if a <= b then a else b
  }

  function MinReal(a: real, b: real): real
  {
    if a <= b then a else b
  }

  function MaxReal(a: real, b: real): real
  {
    if a >= b then a else b
  }

  /** `dX`: the target's left edge relative to the laid-out left edge, mirrored in right-to-left layout. */
  function TranslationX(rect: RectF, marginStart: int, lpWidth: int, isRtl: bool): real
  {
    if isRtl then rect.left - (DEVICE_WIDTH_PX - marginStart - lpWidth) as real
    else rect.left - marginStart as real
  }

  /** `scale`: the target's smaller size ratio to the view's smaller side, never below 1. */
  function AppliedScale(rect: RectF, lpWidth: int, lpHeight: int): (scale: real)
    requires MinInt(lpWidth, lpHeight) != 0
    ensures 1.0 <= scale
  {
    var minSize := MinInt(lpWidth, lpHeight) as real;
    MaxReal(1.0, MinReal(rect.Width() / minSize, rect.Height() / minSize))
  }

  /**
    Whenever the scale exceeds 1 the scaled view's smaller side exactly meets
    the target in one dimension and fits it in the other.
  */
  lemma AppliedScaleFitsTarget(rect: RectF, lpWidth: int, lpHeight: int)
    requires 0 < MinInt(lpWidth, lpHeight)
    ensures var scale, minSize := AppliedScale(rect, lpWidth, lpHeight), MinInt(lpWidth, lpHeight) as real;
      1.0 < scale ==>
        (&& scale * minSize <= rect.Width() && scale * minSize <= rect.Height()
         && (scale * minSize == rect.Width() || scale * minSize == rect.Height()))
    ensures var minSize := MinInt(lpWidth, lpHeight) as real;
      AppliedScale(rect, lpWidth, lpHeight) == 1.0 <==> (rect.Width() <= minSize || rect.Height() <= minSize)
  {
    var m := MinInt(lpWidth, lpHeight) as real;
    var w, h := rect.Width(), rect.Height();
    var sx, sy := w / m, h / m;
    assert AppliedScale(rect, lpWidth, lpHeight) == MaxReal(1.0, MinReal(sx, sy));
    QuotientAtMostOne(w, m);
    QuotientAtMostOne(h, m);
    assert sx * m == w && sy * m == h;
    if sx <= sy {
      MulMono(sx, sy, m);
    } else {
      MulMono(sy, sx, m);
    }
  }

  /** Over a positive divisor, the quotient is at most 1 exactly when the dividend is at most the divisor. */
  lemma QuotientAtMostOne(x: real, m: real)
    requires 0.0 < m
    ensures x / m <= 1.0 <==> x <= m
  {
    var q := x / m;
    assert q * m == x;
    if q <= 1.0 {
      MulMono(q, 1.0, m);
      assert 1.0 * m == m;
      assert q * m <= m;
    } else {
      MulStrictMono(1.0, q, m);
      assert 1.0 * m == m;
      assert m < q * m;
    }
  }

  /**
    `shapeRevealProgress`: zero until `progress` reaches `shapeProgressStart`,
    then mapped from [shapeProgressStart, 1] onto [0, 10] when opening or
    [0, 1] when closing, and clamped to [0, 1].
  */
  function ShapeRevealProgress(progress: real, shapeProgressStart: real, isOpening: bool): (r: real)
    ensures 0.0 <= r <= 1.0
    ensures progress <= shapeProgressStart ==> r == 0.0
  {
    var toMax := if isOpening then 1.0 / SHAPE_PROGRESS_DURATION else 1.0;
    BoundToRangeFloat(MapToRange(MaxReal(shapeProgressStart, progress), shapeProgressStart, 1.0, 0.0, toMax, Linear),
                      0.0, 1.0)
  }

  /** Past the start, the unclamped reveal value is `toMax * (progress - start) / |1 - start|`. */
  lemma RevealRamp(progress: real, shapeProgressStart: real, isOpening: bool)
    requires shapeProgressStart != 1.0 && shapeProgressStart <= progress
    ensures var toMax := if isOpening then 10.0 else 1.0;
      ShapeRevealProgress(progress, shapeProgressStart, isOpening)
        == BoundToRangeFloat(toMax * ((progress - shapeProgressStart) / Abs(1.0 - shapeProgressStart)), 0.0, 1.0)
  {
    var toMax := if isOpening then 1.0 / SHAPE_PROGRESS_DURATION else 1.0;
    assert toMax == if isOpening then 10.0 else 1.0;
    assert MaxReal(shapeProgressStart, progress) == progress;
    assert GetProgress(progress, shapeProgressStart, 1.0) == (progress - shapeProgressStart) / Abs(1.0 - shapeProgressStart);
  }

  /**
    Opening from a start in [0, 1): the reveal is complete exactly once
    `progress` passes a tenth of the remaining range, so in particular from
    `shapeProgressStart + SHAPE_PROGRESS_DURATION` on.
  */
  lemma {:induction false} OpeningRevealCompletes(progress: real, shapeProgressStart: real)
    requires 0.0 <= shapeProgressStart < 1.0
    ensures ShapeRevealProgress(progress, shapeProgressStart, true) == 1.0
        <==> progress >= shapeProgressStart + (1.0 - shapeProgressStart) * SHAPE_PROGRESS_DURATION
    ensures progress >= shapeProgressStart + SHAPE_PROGRESS_DURATION ==> ShapeRevealProgress(progress, shapeProgressStart, true) == 1.0
  {
    var d := 1.0 - shapeProgressStart;
    if progress <= shapeProgressStart {
      assert shapeProgressStart < shapeProgressStart + d * SHAPE_PROGRESS_DURATION;
    } else {
      RevealRamp(progress, shapeProgressStart, true);
      assert Abs(1.0 - shapeProgressStart) == d;
      TenthThreshold(progress - shapeProgressStart, d);
      assert d * 0.1 <= 0.1;
    }
  }

  /** Ten times `e / d` reaches 1 exactly when `e` is at least a tenth of `d`. */
  lemma TenthThreshold(e: real, d: real)
    requires 0.0 < d
    ensures 10.0 * (e / d) >= 1.0 <==> e >= d * 0.1
  {
    var q := e / d;
    assert q * d == e;
    if q >= 0.1 {
      MulMono(0.1, q, d);
    } else {
      MulStrictMono(q, 0.1, d);
    }
  }

  /** Closing from a start below 1: the reveal runs linearly over the whole remaining range. */
  lemma {:induction false} ClosingRevealIsLinear(progress: real, shapeProgressStart: real)
    requires shapeProgressStart < 1.0 && shapeProgressStart <= progress <= 1.0
    ensures ShapeRevealProgress(progress, shapeProgressStart, false)
        == (progress - shapeProgressStart) / (1.0 - shapeProgressStart)
  {
    RevealRamp(progress, shapeProgressStart, false);
    var d := 1.0 - shapeProgressStart;
    assert Abs(1.0 - shapeProgressStart) == d;
    assert (progress - shapeProgressStart) / d <= 1.0;
  }

  /** The reveal never runs backwards as `progress` grows. */
  lemma {:induction false} ShapeRevealProgressMonotone(p: real, q: real, shapeProgressStart: real, isOpening: bool)
    requires p <= q
    ensures ShapeRevealProgress(p, shapeProgressStart, isOpening) <= ShapeRevealProgress(q, shapeProgressStart, isOpening)
  {
    if shapeProgressStart != 1.0 && shapeProgressStart < q {
      RevealRamp(q, shapeProgressStart, isOpening);
      if shapeProgressStart < p {
        RevealRamp(p, shapeProgressStart, isOpening);
        var d := Abs(1.0 - shapeProgressStart);
        var toMax := if isOpening then 10.0 else 1.0;
        DivMono(p - shapeProgressStart, q - shapeProgressStart, d);
        MulMono((p - shapeProgressStart) / d, (q - shapeProgressStart) / d, toMax);
      }
    }
  }

  /** The outline's far edge: the target's extent in view units, `(int)(extent / scale)`. */
  function OutlineExtent(extent: real, scale: real): int
    requires scale != 0.0
  {
    Trunc(extent / scale)
  }

  /**
    `setBackgroundDrawableBounds(scale)`: the drawable bounds scaled about
    their centre, then moved so that the anchor edge (top in a horizontal
    layout, left in a vertical one) is the nominal anchor scaled about the
    view's origin.
  */
  function BackgroundBounds(finalBounds: Box, scale: real, isVerticalBarLayout: bool): Box
  {
    var scaled := ScaledAboutCenter(finalBounds, scale);
    if isVerticalBarLayout then scaled.OffsetTo(ScaledAnchor(finalBounds.left, scale), scaled.top)
    else scaled.OffsetTo(scaled.left, ScaledAnchor(finalBounds.top, scale))
  }

  /** The anchor edge scaled about the view's origin: `(int) (edge * scale)`. */
  function ScaledAnchor(edge: int, scale: real): int
  {
    Trunc(edge as real * scale)
  }

  /**
    The background keeps the size of the centre-scaled bounds and, across
    the layout axis, their position; along it, its anchor edge is the
    nominal one scaled about the origin.
  */
  lemma BackgroundBoundsShape(finalBounds: Box, scale: real, isVerticalBarLayout: bool)
    ensures var r, scaled := BackgroundBounds(finalBounds, scale, isVerticalBarLayout), ScaledAboutCenter(finalBounds, scale);
      && r.Width() == scaled.Width() && r.Height() == scaled.Height()
      && (!isVerticalBarLayout ==> r.left == scaled.left && r.top == ScaledAnchor(finalBounds.top, scale))
      && (isVerticalBarLayout ==> r.top == scaled.top && r.left == ScaledAnchor(finalBounds.left, scale))
  {
  }

  /**
    The shift that centres the foreground over a background grown by
    `drawableScale`: half the growth, truncated, so twice it is within two
    units of the growth.
  */
  function CentringShift(extent: int, drawableScale: real): (shift: int)
    ensures var growth := extent as real * drawableScale - extent as real;
      growth - 2.0 < 2.0 * shift as real < growth + 2.0
    ensures 1.0 <= drawableScale && 0 <= extent ==> 0 <= shift
  {
    assert 1.0 <= drawableScale && 0 <= extent ==> extent as real * drawableScale >= extent as real * 1.0 by {
      if 1.0 <= drawableScale && 0 <= extent {
        MulMono(1.0, drawableScale, extent as real);
      }
    }
    Trunc(((extent as real * drawableScale) - extent as real) / 2.0)
  }

  /**
    The foreground spring's target for a view translation `d` on an axis of
    `axisLength` pixels: `(int)(d / axisLength * factor)`. It has the sign of
    `d` and stays within the factor while the view stays within the screen.
  */
  function SpringTarget(d: real, axisLength: int, factor: int): int
    requires 0 < axisLength
  {
    Trunc(d / axisLength as real * factor as real)
  }

  /** The spring target has the sign of the translation and stays within the factor while the view stays on screen. */
  lemma {:induction false} SpringTargetBounds(d: real, axisLength: int, factor: int)
    requires 0 < axisLength && 0 < factor
    ensures var target := SpringTarget(d, axisLength, factor);
      (0.0 <= d ==> 0 <= target) && (d <= 0.0 ==> target <= 0)
    ensures -axisLength as real <= d <= axisLength as real ==>
      -factor <= SpringTarget(d, axisLength, factor) <= factor
  {
    var a, f := axisLength as real, factor as real;
    var q := d / a;
    var p := q * f;
    assert SpringTarget(d, axisLength, factor) == Trunc(p);
    UnitQuotient(d, a);
    ScaledUnit(q, f);
  }

  /** A multiple of a positive factor: it keeps the multiplier's sign and, for a multiplier in [-1, 1], stays within the factor. */
  lemma ScaledUnit(q: real, f: real)
    requires 0.0 < f
    ensures (0.0 <= q ==> 0.0 <= q * f) && (q <= 0.0 ==> q * f <= 0.0)
    ensures -1.0 <= q <= 1.0 ==> -f <= q * f <= f
  {
    if 0.0 <= q {
      MulNonNeg(q, f);
    } else {
      MulMono(q, 0.0, f);
    }
    if -1.0 <= q <= 1.0 {
      MulMono(-1.0, q, f);
      MulMono(q, 1.0, f);
    }
  }

  lemma UnitQuotient(d: real, a: real)
    requires 0.0 < a
    ensures (0.0 <= d ==> 0.0 <= d / a) && (d <= 0.0 ==> d / a <= 0.0)
    ensures -a <= d <= a ==> -1.0 <= d / a <= 1.0
  {
    assert (-a) / a == -1.0 && a / a == 1.0 && 0.0 / a == 0.0;
    if 0.0 <= d {
      DivMono(0.0, d, a);
    } else {
      DivMono(d, 0.0, a);
    }
    if -a <= d <= a {
      DivMono(-a, d, a);
      DivMono(d, a, a);
    }
  }
}
