/**
  Rectangles with the semantics of android.graphics.Rect (integer edges,
  edited in place) and android.graphics.RectF (float edges), and Java's
  narrowing cast from float to int.

  Java's `float` is modelled as `real` and `int` as unbounded `int`: pixel
  coordinates never come near 32-bit overflow in this component.
*/
module Rects {

  /** Java's `(int) x` for a float `x`: truncation toward zero. */
  function Trunc(x: real): (r: int)
    ensures 0.0 <= x ==> r as real <= x < r as real + 1.0
    ensures x < 0.0 ==> r as real - 1.0 < x <= r as real
    ensures 0.0 <= x ==> 0 <= r
    ensures x <= 0.0 ==> r <= 0
  {
    if x >= 0.0 then x.Floor else -((-x).Floor)
  }

  /** The value of an android.graphics.Rect: left, top, right, bottom. */
  datatype Box = Box(left: int, top: int, right: int, bottom: int)
  {
    function Width(): int { right - left }

    function Height(): int { bottom - top }

    /** `centerX()` is `(left + right) >> 1`, an arithmetic shift: the floor of the half. */
    function CenterX(): int { (left + right) / 2 }

    function CenterY(): int { (top + bottom) / 2 }

    /** `exactCenterX()` is `(left + right) * 0.5f`. */
    function ExactCenterX(): real { (left + right) as real * 0.5 }

    function ExactCenterY(): real { (top + bottom) as real * 0.5 }

    /** `offset(dx, dy)`: moves every edge. */
    function Offset(dx: int, dy: int): (r: Box)
      ensures r.Width() == Width() && r.Height() == Height()
      ensures r.left == left + dx && r.top == top + dy
    {
      Box(left + dx, top + dy, right + dx, bottom + dy)
    }

    /** `offsetTo(newLeft, newTop)`: moves the rect so that its top-left corner is the given point. */
    function OffsetTo(newLeft: int, newTop: int): (r: Box)
      ensures r.Width() == Width() && r.Height() == Height()
      ensures r.left == newLeft && r.top == newTop
    {
      Box(newLeft, newTop, right + (newLeft - left), bottom + (newTop - top))
    }

    /** `inset(dx, dy)`: moves the left and top edges in and the right and bottom edges back. */
    function Inset(dx: int, dy: int): (r: Box)
      ensures r.Width() == Width() - 2 * dx && r.Height() == Height() - 2 * dy
      ensures r.ExactCenterX() == ExactCenterX() && r.ExactCenterY() == ExactCenterY()
    {
      Box(left + dx, top + dy, right - dx, bottom - dy)
    }

    /** Every edge of `inner` lies within this rect. */
    predicate Contains(inner: Box)
    {
      left <= inner.left && top <= inner.top && inner.right <= right && inner.bottom <= bottom
    }
  }

  /** A mutable android.graphics.Rect. */
  class Rect {
    var left: int
    var top: int
    var right: int
    var bottom: int

    function Value(): Box
      reads this
    {
      Box(left, top, right, bottom)
    }

    constructor ()
      ensures Value() == Box(0, 0, 0, 0)
    {
      left, top, right, bottom := 0, 0, 0, 0;
    }

    function Width(): int
      reads this
    {
      right - left
    }

    function Height(): int
      reads this
    {
      bottom - top
    }

    function CenterX(): int
      reads this
    {
      Value().CenterX()
    }

    function CenterY(): int
      reads this
    {
      Value().CenterY()
    }

    /** `set(left, top, right, bottom)` */
    method Set(l: int, t: int, r: int, b: int)
      modifies this
      ensures Value() == Box(l, t, r, b)
    {
      left, top, right, bottom := l, t, r, b;
    }

    /** `set(Rect src)`: copies the edges of `src` (which may be this rect). */
    method SetFrom(src: Rect)
      modifies this
      ensures Value() == old(src.Value())
    {
      left, top, right, bottom := src.left, src.top, src.right, src.bottom;
    }

    method Offset(dx: int, dy: int)
      modifies this
      ensures Value() == old(Value()).Offset(dx, dy)
    {
      left := left + dx;
      top := top + dy;
      right := right + dx;
      bottom := bottom + dy;
    }

    method OffsetTo(newLeft: int, newTop: int)
      modifies this
      ensures Value() == old(Value()).OffsetTo(newLeft, newTop)
    {
      right := right + (newLeft - left);
      bottom := bottom + (newTop - top);
      left := newLeft;
      top := newTop;
    }

    method Inset(dx: int, dy: int)
      modifies this
      ensures Value() == old(Value()).Inset(dx, dy)
    {
      left := left + dx;
      top := top + dy;
      right := right - dx;
      bottom := bottom - dy;
    }
  }

  /** The value of an android.graphics.RectF. */
  datatype RectF = RectF(left: real, top: real, right: real, bottom: real)
  {
    function Width(): real { right - left }

    function Height(): real { bottom - top }
  }
}
