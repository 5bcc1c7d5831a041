/**
  FloatingIconView: the view that stands in for a launcher icon while it
  morphs into a window. `setIcon` lays out its drawables and the outline
  and reveal rects once; `update` is called every frame with the target
  rect and progress, and drives the shape-reveal animator by fraction.
*/
module FloatingIcon {
  import opened Wrappers
  import opened Rects
  import opened Paths
  import opened Views
  import opened IconShapes
  import opened Geometry

  /** `mBlurSizeOutline`; the drawable inset uses half of it, `3 / 2 == 1`. */
  const BLUR_SIZE_OUTLINE: int := 3

  /** The aspect ratio `setIcon` uses, written `1920/1080`: integer division, so it is 1. */
  const ASPECT_RATIO: real := (1920 / 1080) as real

  /** The target of a foreground SpringAnimation; the spring physics is not modelled. */
  class Spring {
    /** The value last passed to `animateToFinalPosition`, if any. */
    var finalPosition: Option<real>

    constructor ()
      ensures finalPosition == None
    {
      finalPosition := None;
    }

    method AnimateToFinalPosition(p: real)
      modifies this
      ensures finalPosition == Some(p)
    {
      finalPosition := Some(p);
    }
  }

  /** No two of the (non-null) drawables are the same object. */
  predicate DistinctDrawables(a: IconDrawable?, b: IconDrawable?, c: IconDrawable?)
  {
    && (a != null && b != null ==> a != b)
    && (a != null && c != null ==> a != c)
    && (b != null && c != null ==> b != c)
  }

  function MaxInt(a: int, b: int): int
  {
    if a >= b then a else b
  }

  /** The view properties `update` sets: alpha, translation, a pivot at the origin and a uniform scale. */
  function Transformed(s: ViewState, alpha: real, dX: real, dY: real, scale: real): ViewState
  {
    s.(alpha := alpha, translationX := dX, translationY := dY, pivotX := 0.0, pivotY := 0.0,
       scaleX := scale, scaleY := scale)
  }

  /** `mOutline` after `update`: only its far edge along the layout axis moves, to the target's extent in view units. */
  function OutlineAfterUpdate(outline: Box, rect: RectF, scale: real, isVerticalBarLayout: bool): (r: Box)
    requires scale != 0.0
    ensures r.left == outline.left && r.top == outline.top
    ensures isVerticalBarLayout ==> r.bottom == outline.bottom && r.right == Trunc(rect.Width() / scale)
    ensures !isVerticalBarLayout ==> r.right == outline.right && r.bottom == Trunc(rect.Height() / scale)
  {
    if isVerticalBarLayout then outline.(right := OutlineExtent(rect.Width(), scale))
    else outline.(bottom := OutlineExtent(rect.Height(), scale))
  }

  /** `drawableScale`: the outline's extent along the layout axis over the view's smaller side. */
  function DrawableScale(outline: Box, minSize: int, isVerticalBarLayout: bool): real
    requires minSize != 0
  {
    (if isVerticalBarLayout then outline.Width() else outline.Height()) as real / minSize as real
  }

  /**
    The foreground bounds `update` sets while opening: the final drawable
    bounds, moved along the layout axis by half the drawable's growth.
  */
  function CentredForeground(finalBounds: Box, drawableScale: real, isVerticalBarLayout: bool): (r: Box)
    ensures r.Width() == finalBounds.Width() && r.Height() == finalBounds.Height()
    ensures isVerticalBarLayout ==>
      r.top == finalBounds.top && r.left == finalBounds.left + CentringShift(finalBounds.Width(), drawableScale)
    ensures !isVerticalBarLayout ==>
      r.left == finalBounds.left && r.top == finalBounds.top + CentringShift(finalBounds.Height(), drawableScale)
  {
    var diffY := if isVerticalBarLayout then 0 else CentringShift(finalBounds.Height(), drawableScale);
    var diffX := if isVerticalBarLayout then CentringShift(finalBounds.Width(), drawableScale) else 0;
    finalBounds.Offset(diffX, diffY)
  }

  /** The layout extent `setIcon` gives the axis across the bar: `(int) Math.max(extent, other * aspectRatio)`. */
  function RaisedExtent(extent: int, other: int): (r: int)
    ensures r == MaxInt(extent, other)
  {
    assert ASPECT_RATIO == 1.0;
    Trunc(MaxReal(extent as real, other as real * ASPECT_RATIO))
  }

  /** The left edge `setIcon` lays the view out at, mirrored in right-to-left layout. */
  function LayoutLeft(marginStart: int, leftMargin: int, width: int, isRtl: bool): int
  {
    if isRtl then DEVICE_WIDTH_PX - marginStart - width else leftMargin
  }

  /** The background's starting scale in `setIcon`: the layout's growth over the icon's own size, or 1 when opening. */
  function StartDrawableScale(width: int, height: int, originalWidth: int, originalHeight: int, isOpening: bool): real
    requires !isOpening ==> originalWidth != 0 && originalHeight != 0
  {
    if isOpening then 1.0
    else MaxReal(height as real / originalHeight as real, width as real / originalWidth as real)
  }

  class FloatingIconView {
    /** The View (and ClipPathView) this class extends. */
    const view: View
    /** `getLayoutParams()` */
    const lp: LayoutParams
    /** The process-wide IconShape state. */
    const registry: IconShapeRegistry
    const mOutline: Rect
    const mFinalDrawableBounds: Rect
    const mStartRevealRect: Rect
    const mEndRevealRect: Rect
    /** The scratch rect `sTmpRect`. */
    const tmpRect: Rect
    const mFgSpringX: Spring
    const mFgSpringY: Spring
    const mIsVerticalBarLayout: bool
    const mIsRtl: bool
    const mIsOpening: bool

    var mIsAdaptiveIcon: bool
    var mTaskCornerRadius: real
    var mRevealAnimator: RevealAnimator?
    var mBadge: IconDrawable?
    var mForeground: IconDrawable?
    var mBackground: IconDrawable?

    /** The rects and springs this view owns are separate objects. */
    predicate Distinct()
    {
      && mOutline != mFinalDrawableBounds && mOutline != mStartRevealRect && mOutline != mEndRevealRect
      && mOutline != tmpRect && mFinalDrawableBounds != mStartRevealRect && mFinalDrawableBounds != mEndRevealRect
      && mFinalDrawableBounds != tmpRect && mStartRevealRect != mEndRevealRect && mStartRevealRect != tmpRect
      && mEndRevealRect != tmpRect
      && mFgSpringX != mFgSpringY
    }

    ghost predicate Valid()
      reads this`mIsAdaptiveIcon, this`mBackground, this`mForeground, this`mRevealAnimator
    {
      && Distinct()
      && 0.0 < registry.normalizationScale <= 1.0
      && (mIsAdaptiveIcon ==> mBackground != null && mForeground != null && mBackground != mForeground)
      && (mRevealAnimator != null ==>
            && mRevealAnimator.target == view && mRevealAnimator.shape == registry.instance
            && mRevealAnimator.isReversed)
    }

    /**
      A new view: the platform defaults, empty rects, no drawables and no
      reveal animator. The source fixes the three layout flags to false;
      here they are parameters.
    */
    constructor (lp: LayoutParams, registry: IconShapeRegistry, elevation: real,
                 isVerticalBarLayout: bool, isRtl: bool, isOpening: bool)
      requires 0.0 < registry.normalizationScale <= 1.0
      ensures Valid()
      ensures this.lp == lp && this.registry == registry
      ensures fresh(view) && view.clipPath == null
      ensures view.State() == ViewState(1.0, 0.0, 0.0, 0.0, elevation, 1.0, 1.0, 0.0, 0.0,
                                        BackgroundOutline, false, None, Box(0, 0, 0, 0))
      ensures fresh(mOutline) && fresh(mFinalDrawableBounds) && fresh(mStartRevealRect)
      ensures fresh(mEndRevealRect) && fresh(tmpRect) && fresh(mFgSpringX) && fresh(mFgSpringY)
      ensures mOutline.Value() == mFinalDrawableBounds.Value() == Box(0, 0, 0, 0)
      ensures mStartRevealRect.Value() == mEndRevealRect.Value() == Box(0, 0, 0, 0)
      ensures mFgSpringX.finalPosition == None && mFgSpringY.finalPosition == None
      ensures mIsVerticalBarLayout == isVerticalBarLayout && mIsRtl == isRtl && mIsOpening == isOpening
      ensures !mIsAdaptiveIcon && mTaskCornerRadius == 0.0 && mRevealAnimator == null
      ensures mBadge == null && mForeground == null && mBackground == null
    {
      view := new View(elevation);
      this.lp, this.registry := lp, registry;
      mOutline := new Rect();
      mFinalDrawableBounds := new Rect();
      mStartRevealRect := new Rect();
      mEndRevealRect := new Rect();
      tmpRect := new Rect();
      mFgSpringX := new Spring();
      mFgSpringY := new Spring();
      mIsVerticalBarLayout, mIsRtl, mIsOpening := isVerticalBarLayout, isRtl, isOpening;
      mIsAdaptiveIcon, mTaskCornerRadius, mRevealAnimator := false, 0.0, null;
      mBadge, mForeground, mBackground := null, null, null;
    }

    /** `setClipPath(clipPath)`: the clip the view draws through; nothing else changes. */
    method SetClipPath(clipPath: Path?)
      modifies view
      ensures view.clipPath == clipPath && view.State() == old(view.State())
    {
      view.SetClipPath(clipPath);
    }

    /**
      `setBackgroundDrawableBounds(scale)`: the background gets the final
      drawable bounds scaled about their centre, with the anchor edge moved
      to the nominal anchor scaled about the origin.
    */
    method SetBackgroundDrawableBounds(scale: real)
      requires Distinct() && mBackground != null
      modifies tmpRect, mBackground
      ensures mBackground.bounds == BackgroundBounds(mFinalDrawableBounds.Value(), scale, mIsVerticalBarLayout)
      ensures mBackground.alpha == old(mBackground.alpha) && tmpRect.Value() == mBackground.bounds
    {
      tmpRect.SetFrom(mFinalDrawableBounds);
      ScaleRectAboutCenter(tmpRect, scale);
      if mIsVerticalBarLayout {
        tmpRect.OffsetTo(ScaledAnchor(mFinalDrawableBounds.left, scale), tmpRect.top);
      } else {
        tmpRect.OffsetTo(tmpRect.left, ScaledAnchor(mFinalDrawableBounds.top, scale));
      }
      mBackground.SetBounds(tmpRect.Value());
    }


    /**
      `update(rect, alpha, progress, shapeProgressStart, cornerRadius, isOpening)`.
      The view is moved onto `rect` and scaled by at least 1; the outline's
      far edge and the corner radius are kept in unscaled units. For an
      adaptive icon that is closing past `shapeProgressStart` the reveal
      animator is created once (then started and paused) and its fraction
      set to the clamped reveal progress on every call; the background is
      rescaled with the outline, and the foreground is either re-centred
      (opening) or given new spring targets (closing).
    */
    method Update(rect: RectF, alpha: real, progress: real, shapeProgressStart: real,
                  cornerRadius: real, isOpening: bool)
      requires Valid()
      requires MinInt(lp.width, lp.height) != 0
      modifies this`mTaskCornerRadius, this`mRevealAnimator, view, mOutline, tmpRect
      modifies mBackground, mForeground, mFgSpringX, mFgSpringY
      modifies if mRevealAnimator != null then {mRevealAnimator, mRevealAnimator.path} else {}
      ensures Valid()
      ensures var scale := AppliedScale(rect, lp.width, lp.height);
        && mOutline.Value() == OutlineAfterUpdate(old(mOutline.Value()), rect, scale, mIsVerticalBarLayout)
        && mTaskCornerRadius == cornerRadius / scale
      // The reveal animator: created at most once, then driven by the reveal progress.
      ensures !(mIsAdaptiveIcon && !isOpening && progress >= shapeProgressStart) ==>
        && mRevealAnimator == old(mRevealAnimator)
        && (mRevealAnimator != null ==> unchanged(mRevealAnimator, mRevealAnimator.path))
      ensures mIsAdaptiveIcon && !isOpening && progress >= shapeProgressStart ==>
        && mRevealAnimator != null
        && mRevealAnimator.fraction == ShapeRevealProgress(progress, shapeProgressStart, isOpening)
        && (old(mRevealAnimator) != null ==>
              && mRevealAnimator == old(mRevealAnimator)
              && mRevealAnimator.started == old(mRevealAnimator.started)
              && mRevealAnimator.paused == old(mRevealAnimator.paused))
        && (old(mRevealAnimator) == null ==>
              && fresh(mRevealAnimator) && mRevealAnimator.started && mRevealAnimator.paused
              && mRevealAnimator.startRect == mStartRevealRect.Value()
              && mRevealAnimator.endRect == mOutline.Value()
              && mRevealAnimator.endRadius == mTaskCornerRadius)
      // The view's own properties.
      ensures var base := Transformed(old(view.State()), alpha,
                                      TranslationX(rect, lp.MarginStart(), lp.width, mIsRtl),
                                      rect.top - lp.topMargin as real, AppliedScale(rect, lp.width, lp.height));
        if mIsAdaptiveIcon && !isOpening && progress >= shapeProgressStart && old(mRevealAnimator) == null
        then
          && view.State() == RevealStarted(registry.instance, base)
          && mRevealAnimator.oldOutlineProvider == old(view.outlineProvider)
          && mRevealAnimator.oldClipToOutline == old(view.clipToOutline)
        else view.State() == base
      ensures if mIsAdaptiveIcon && !isOpening && progress >= shapeProgressStart && !registry.instance.IsSimpleRect()
        then
          && view.clipPath == mRevealAnimator.path
          && mRevealAnimator.path.cmds == RevealFrame(registry.instance, mRevealAnimator.startRect,
               mRevealAnimator.endRect, mRevealAnimator.endRadius,
               1.0 - ShapeRevealProgress(progress, shapeProgressStart, isOpening))
        else view.clipPath == old(view.clipPath)
      // The drawables.
      ensures mIsAdaptiveIcon ==>
        && mBackground.bounds == BackgroundBounds(mFinalDrawableBounds.Value(),
             DrawableScale(mOutline.Value(), MinInt(lp.width, lp.height), mIsVerticalBarLayout), mIsVerticalBarLayout)
        && mBackground.alpha == old(mBackground.alpha) && mForeground.alpha == old(mForeground.alpha)
      ensures mIsAdaptiveIcon && isOpening ==>
        && mForeground.bounds == CentredForeground(mFinalDrawableBounds.Value(),
             DrawableScale(mOutline.Value(), MinInt(lp.width, lp.height), mIsVerticalBarLayout), mIsVerticalBarLayout)
        && mFgSpringX.finalPosition == old(mFgSpringX.finalPosition)
        && mFgSpringY.finalPosition == old(mFgSpringY.finalPosition)
      ensures mIsAdaptiveIcon && !isOpening ==>
        && mForeground.bounds == old(mForeground.bounds)
        && mFgSpringX.finalPosition
             == Some(SpringTarget(TranslationX(rect, lp.MarginStart(), lp.width, mIsRtl), DEVICE_WIDTH_PX, FG_TRANS_X_FACTOR) as real)
        && mFgSpringY.finalPosition
             == Some(SpringTarget(rect.top - lp.topMargin as real, DEVICE_HEIGHT_PX, FG_TRANS_Y_FACTOR) as real)
      ensures !mIsAdaptiveIcon ==>
        && unchanged(mFgSpringX, mFgSpringY)
        && (mBackground != null ==> unchanged(mBackground))
        && (mForeground != null ==> unchanged(mForeground))
    {
      var dX := TranslationX(rect, lp.MarginStart(), lp.width, mIsRtl);
      var dY := rect.top - lp.topMargin as real;
      var minSize := MinInt(lp.width, lp.height);
      var scale := AppliedScale(rect, lp.width, lp.height);
      MoveAndReveal(rect, alpha, dX, dY, scale, cornerRadius, progress, shapeProgressStart, isOpening);
      if mIsAdaptiveIcon {
        assert unchanged(mBackground, mForeground, mFgSpringX, mFgSpringY);
        UpdateDrawables(DrawableScale(mOutline.Value(), minSize, mIsVerticalBarLayout), isOpening, dX, dY);
      }
    }

    /** `update`'s move onto the target, then its reveal step. */
    method MoveAndReveal(rect: RectF, alpha: real, dX: real, dY: real, scale: real, cornerRadius: real,
                         progress: real, shapeProgressStart: real, isOpening: bool)
      requires Valid() && scale != 0.0
      modifies this`mTaskCornerRadius, this`mRevealAnimator, view, mOutline
      modifies if mRevealAnimator != null then {mRevealAnimator, mRevealAnimator.path} else {}
      ensures Valid()
      ensures mOutline.Value() == OutlineAfterUpdate(old(mOutline.Value()), rect, scale, mIsVerticalBarLayout)
      ensures mTaskCornerRadius == cornerRadius / scale
      ensures !(mIsAdaptiveIcon && !isOpening && progress >= shapeProgressStart) ==>
        && mRevealAnimator == old(mRevealAnimator)
        && (mRevealAnimator != null ==> unchanged(mRevealAnimator, mRevealAnimator.path))
      ensures mIsAdaptiveIcon && !isOpening && progress >= shapeProgressStart ==>
        && mRevealAnimator != null
        && mRevealAnimator.fraction == ShapeRevealProgress(progress, shapeProgressStart, isOpening)
        && (old(mRevealAnimator) != null ==>
              && mRevealAnimator == old(mRevealAnimator)
              && mRevealAnimator.started == old(mRevealAnimator.started)
              && mRevealAnimator.paused == old(mRevealAnimator.paused))
        && (old(mRevealAnimator) == null ==>
              && fresh(mRevealAnimator) && mRevealAnimator.started && mRevealAnimator.paused
              && mRevealAnimator.startRect == mStartRevealRect.Value()
              && mRevealAnimator.endRect == mOutline.Value()
              && mRevealAnimator.endRadius == mTaskCornerRadius)
      ensures var base := Transformed(old(view.State()), alpha, dX, dY, scale);
        if mIsAdaptiveIcon && !isOpening && progress >= shapeProgressStart && old(mRevealAnimator) == null
        then
          && view.State() == RevealStarted(registry.instance, base)
          && mRevealAnimator.oldOutlineProvider == old(view.outlineProvider)
          && mRevealAnimator.oldClipToOutline == old(view.clipToOutline)
        else view.State() == base
      ensures if mIsAdaptiveIcon && !isOpening && progress >= shapeProgressStart && !registry.instance.IsSimpleRect()
        then
          && view.clipPath == mRevealAnimator.path
          && mRevealAnimator.path.cmds == RevealFrame(registry.instance, mRevealAnimator.startRect,
               mRevealAnimator.endRect, mRevealAnimator.endRadius,
               1.0 - ShapeRevealProgress(progress, shapeProgressStart, isOpening))
        else view.clipPath == old(view.clipPath)
    {
      MoveOnto(rect, alpha, dX, dY, scale, cornerRadius);
      Reveal(progress, shapeProgressStart, isOpening);
    }

    /** `update`'s reveal step, taken for an adaptive icon that is closing past `shapeProgressStart`. */
    method Reveal(progress: real, shapeProgressStart: real, isOpening: bool)
      requires Valid()
      modifies this`mRevealAnimator, view
      modifies if mRevealAnimator != null then {mRevealAnimator, mRevealAnimator.path} else {}
      ensures Valid()
      ensures !(mIsAdaptiveIcon && !isOpening && progress >= shapeProgressStart) ==>
        && mRevealAnimator == old(mRevealAnimator)
        && (mRevealAnimator != null ==> unchanged(mRevealAnimator, mRevealAnimator.path))
        && view.State() == old(view.State()) && view.clipPath == old(view.clipPath)
      ensures mIsAdaptiveIcon && !isOpening && progress >= shapeProgressStart ==>
        && mRevealAnimator != null
        && mRevealAnimator.fraction == ShapeRevealProgress(progress, shapeProgressStart, isOpening)
        && (old(mRevealAnimator) != null ==>
              && mRevealAnimator == old(mRevealAnimator)
              && mRevealAnimator.started == old(mRevealAnimator.started)
              && mRevealAnimator.paused == old(mRevealAnimator.paused))
        && (old(mRevealAnimator) == null ==>
              && fresh(mRevealAnimator) && mRevealAnimator.started && mRevealAnimator.paused
              && mRevealAnimator.startRect == mStartRevealRect.Value()
              && mRevealAnimator.endRect == mOutline.Value()
              && mRevealAnimator.endRadius == mTaskCornerRadius)
        && (if old(mRevealAnimator) == null
            then
              && view.State() == RevealStarted(registry.instance, old(view.State()))
              && mRevealAnimator.oldOutlineProvider == old(view.outlineProvider)
              && mRevealAnimator.oldClipToOutline == old(view.clipToOutline)
            else view.State() == old(view.State()))
        && (if !registry.instance.IsSimpleRect()
            then
              && view.clipPath == mRevealAnimator.path
              && mRevealAnimator.path.cmds == RevealFrame(registry.instance, mRevealAnimator.startRect,
                   mRevealAnimator.endRect, mRevealAnimator.endRadius,
                   1.0 - ShapeRevealProgress(progress, shapeProgressStart, isOpening))
            else view.clipPath == old(view.clipPath))
    {
      if mIsAdaptiveIcon && !isOpening && progress >= shapeProgressStart {
        DriveReveal(ShapeRevealProgress(progress, shapeProgressStart, isOpening), isOpening);
      }
    }

    /** `update`'s move onto the target: the view's transform, then the outline and the corner radius. */
    method MoveOnto(rect: RectF, alpha: real, dX: real, dY: real, scale: real, cornerRadius: real)
      requires scale != 0.0
      modifies view, this`mTaskCornerRadius, mOutline
      ensures view.State() == Transformed(old(view.State()), alpha, dX, dY, scale)
      ensures view.clipPath == old(view.clipPath)
      ensures mOutline.Value() == OutlineAfterUpdate(old(mOutline.Value()), rect, scale, mIsVerticalBarLayout)
      ensures mTaskCornerRadius == cornerRadius / scale
    {
      SetTransform(alpha, dX, dY, scale);
      UpdateOutline(rect, scale, cornerRadius);
    }

    /** The first part of `update`: alpha, translation, pivot and scale. */
    method SetTransform(alpha: real, dX: real, dY: real, scale: real)
      modifies view
      ensures view.State() == Transformed(old(view.State()), alpha, dX, dY, scale)
      ensures view.clipPath == old(view.clipPath)
    {
      view.alpha := alpha;
      view.translationX, view.translationY := dX, dY;
      view.pivotX, view.pivotY := 0.0, 0.0;
      view.scaleX, view.scaleY := scale, scale;
    }

    /** `update`'s outline edit: the far edge along the layout axis, and the corner radius, in unscaled units. */
    method UpdateOutline(rect: RectF, scale: real, cornerRadius: real)
      requires scale != 0.0
      modifies this`mTaskCornerRadius, mOutline
      ensures mOutline.Value() == OutlineAfterUpdate(old(mOutline.Value()), rect, scale, mIsVerticalBarLayout)
      ensures mTaskCornerRadius == cornerRadius / scale
    {
      if mIsVerticalBarLayout {
        mOutline.right := OutlineExtent(rect.Width(), scale);
      } else {
        mOutline.bottom := OutlineExtent(rect.Height(), scale);
      }
      mTaskCornerRadius := cornerRadius / scale;
    }

    /**
      `update`'s reveal step: the animator over the start reveal rect and the
      current outline is created, started and paused on first use, and its
      fraction is then set. It runs reversed, because it only runs while
      closing.
    */
    method DriveReveal(fraction: real, isOpening: bool)
      requires Valid() && !isOpening && 0.0 <= fraction <= 1.0
      modifies this`mRevealAnimator, view
      modifies if mRevealAnimator != null then {mRevealAnimator, mRevealAnimator.path} else {}
      ensures Valid() && mRevealAnimator != null && mRevealAnimator.fraction == fraction
      ensures old(mRevealAnimator) != null ==>
        && mRevealAnimator == old(mRevealAnimator)
        && mRevealAnimator.started == old(mRevealAnimator.started)
        && mRevealAnimator.paused == old(mRevealAnimator.paused)
        && view.State() == old(view.State())
      ensures old(mRevealAnimator) == null ==>
        && fresh(mRevealAnimator) && mRevealAnimator.started && mRevealAnimator.paused
        && mRevealAnimator.startRect == mStartRevealRect.Value() && mRevealAnimator.endRect == mOutline.Value()
        && mRevealAnimator.endRadius == mTaskCornerRadius
        && view.State() == RevealStarted(registry.instance, old(view.State()))
        && mRevealAnimator.oldOutlineProvider == old(view.outlineProvider)
        && mRevealAnimator.oldClipToOutline == old(view.clipToOutline)
      ensures registry.instance.IsSimpleRect() ==> view.clipPath == old(view.clipPath)
      ensures !registry.instance.IsSimpleRect() ==>
        && view.clipPath == mRevealAnimator.path
        && mRevealAnimator.path.cmds == RevealFrame(registry.instance, mRevealAnimator.startRect,
             mRevealAnimator.endRect, mRevealAnimator.endRadius, 1.0 - fraction)
    {
      if mRevealAnimator == null {
        StartRevealAnimator(isOpening);
      }
      mRevealAnimator.SetCurrentFraction(fraction);
    }

    /**
      The first reveal step of a closing icon: the shape's animator over the
      start reveal rect and the current outline, started (which saves the
      view's outline state and sinks the view by its elevation, see
      `RevealStarted`; a path shape also installs its first frame as the
      clip) and paused at once.
    */
    method StartRevealAnimator(isOpening: bool)
      requires Valid() && !isOpening && mRevealAnimator == null
      modifies this`mRevealAnimator, view
      ensures Valid() && fresh(mRevealAnimator) && fresh(mRevealAnimator.path)
      ensures mRevealAnimator.started && mRevealAnimator.paused
      ensures mRevealAnimator.startRect == mStartRevealRect.Value() && mRevealAnimator.endRect == mOutline.Value()
      ensures mRevealAnimator.endRadius == mTaskCornerRadius
      ensures view.State() == RevealStarted(registry.instance, old(view.State()))
      ensures mRevealAnimator.oldOutlineProvider == old(view.outlineProvider)
      ensures mRevealAnimator.oldClipToOutline == old(view.clipToOutline)
      ensures registry.instance.IsSimpleRect() ==> view.clipPath == old(view.clipPath)
      ensures !registry.instance.IsSimpleRect() ==>
        && view.clipPath == mRevealAnimator.path
        && mRevealAnimator.path.cmds == RevealFrame(registry.instance, mRevealAnimator.startRect,
             mRevealAnimator.endRect, mRevealAnimator.endRadius, 1.0)
    {
      var animator := new RevealAnimator(registry.instance, view, mStartRevealRect.Value(),
                                         mOutline.Value(), mTaskCornerRadius, !isOpening);
      animator.Start();
      animator.Pause();
      mRevealAnimator := animator;
    }

    /** `update`'s drawable step: the background follows the outline; the foreground is centred or sprung. */
    method UpdateDrawables(drawableScale: real, isOpening: bool, dX: real, dY: real)
      requires Valid() && mIsAdaptiveIcon
      modifies tmpRect, mBackground, mForeground, mFgSpringX, mFgSpringY
      ensures mBackground.bounds == BackgroundBounds(mFinalDrawableBounds.Value(), drawableScale, mIsVerticalBarLayout)
      ensures mBackground.alpha == old(mBackground.alpha) && mForeground.alpha == old(mForeground.alpha)
      ensures isOpening ==>
        && mForeground.bounds == CentredForeground(mFinalDrawableBounds.Value(), drawableScale, mIsVerticalBarLayout)
        && unchanged(mFgSpringX, mFgSpringY)
      ensures !isOpening ==>
        && mForeground.bounds == old(mForeground.bounds)
        && mFgSpringX.finalPosition == Some(SpringTarget(dX, DEVICE_WIDTH_PX, FG_TRANS_X_FACTOR) as real)
        && mFgSpringY.finalPosition == Some(SpringTarget(dY, DEVICE_HEIGHT_PX, FG_TRANS_Y_FACTOR) as real)
    {
      SetBackgroundDrawableBounds(drawableScale);
      if isOpening {
        var height := mFinalDrawableBounds.Height();
        var width := mFinalDrawableBounds.Width();
        var diffY := if mIsVerticalBarLayout then 0 else CentringShift(height, drawableScale);
        var diffX := if mIsVerticalBarLayout then CentringShift(width, drawableScale) else 0;
        tmpRect.SetFrom(mFinalDrawableBounds);
        tmpRect.Offset(diffX, diffY);
        mForeground.SetBounds(tmpRect.Value());
      } else {
        var diffX := SpringTarget(dX, DEVICE_WIDTH_PX, FG_TRANS_X_FACTOR);
        var diffY := SpringTarget(dY, DEVICE_HEIGHT_PX, FG_TRANS_Y_FACTOR);
        mFgSpringX.AnimateToFinalPosition(diffX as real);
        mFgSpringY.AnimateToFinalPosition(diffY as real);
      }
    }

    /**
      The reveal animator's end: its own end listener runs first
      (elevation restored and the saved outline state put back, see
      `RevealEnded`; a path shape also clears the clip), then this view's,
      which drops the animator.
    */
    method OnRevealAnimationEnd()
      requires Valid() && mRevealAnimator != null
      modifies this`mRevealAnimator, mRevealAnimator, view
      ensures Valid() && mRevealAnimator == null && !old(mRevealAnimator).started
      ensures view.State() == RevealEnded(old(mRevealAnimator).shape, old(view.State()),
                                          old(mRevealAnimator.oldOutlineProvider), old(mRevealAnimator.oldClipToOutline))
      ensures old(mRevealAnimator).shape.IsSimpleRect() ==> view.clipPath == old(view.clipPath)
      ensures !old(mRevealAnimator).shape.IsSimpleRect() ==> view.clipPath == null
    {
      mRevealAnimator.OnEnd();
      mRevealAnimator := null;
    }

    /**
      `setIcon(drawable, badge, iconOffset)`. An adaptive icon's layers
      (transparent where missing) get the view's rect inset by
      `iconOffset - 1`; the badge gets the whole rect and, unless opening, is
      hidden; the start reveal rect is the view's rect shrunk about its centre
      by the normalization scale; the layout grows across the bar to a square
      at least; the outline, end reveal rect and background follow the new
      layout, and the view clips to its outline. Any other drawable becomes
      the view's background, unclipped.
    */
    method SetIcon(drawable: Option<Drawable>, badge: IconDrawable?, iconOffset: int)
      requires Valid()
      requires drawable.Some? && drawable.value.AdaptiveIcon? ==>
        && DistinctDrawables(drawable.value.background, drawable.value.foreground, badge)
        && (!mIsOpening ==> lp.width != 0 && lp.height != 0)
      modifies this`mBadge, this`mIsAdaptiveIcon, this`mBackground, this`mForeground
      modifies view, lp, mFinalDrawableBounds, mStartRevealRect, mEndRevealRect, mOutline, tmpRect, badge
      modifies if drawable.Some? && drawable.value.AdaptiveIcon?
               then {drawable.value.background, drawable.value.foreground} else {}
      ensures Valid()
      ensures mBadge == badge && mIsAdaptiveIcon == (drawable.Some? && drawable.value.AdaptiveIcon?)
      ensures view.clipPath == old(view.clipPath)
      ensures !mIsAdaptiveIcon ==>
        && view.State() == old(view.State()).(background := drawable, clipToOutline := false)
        && mBackground == old(mBackground) && mForeground == old(mForeground)
        && unchanged(lp, mFinalDrawableBounds, mStartRevealRect, mEndRevealRect, mOutline)
        && (badge != null ==> unchanged(badge))
      ensures mIsAdaptiveIcon ==>
        var icon, w, h := drawable.value, old(lp.width), old(lp.height);
        && (icon.background != null ==> mBackground == icon.background)
        && (icon.background == null ==> fresh(mBackground) && mBackground.content == Transparent)
        && (icon.foreground != null ==> mForeground == icon.foreground)
        && (icon.foreground == null ==> fresh(mForeground) && mForeground.content == Transparent)
        && mFinalDrawableBounds.Value() == Box(0, 0, w, h).Inset(iconOffset - 1, iconOffset - 1)
        && mForeground.bounds == mFinalDrawableBounds.Value()
        && (badge != null ==>
              badge.bounds == Box(0, 0, w, h) && badge.alpha == (if mIsOpening then old(badge.alpha) else Some(0)))
        && mStartRevealRect.Value() == ScaledAboutCenter(Box(0, 0, w, h), registry.normalizationScale)
        && (0 <= w && 0 <= h ==> Box(0, 0, w, h).Contains(mStartRevealRect.Value()))
        && lp.leftMargin == old(lp.leftMargin) && lp.topMargin == old(lp.topMargin)
        && (mIsVerticalBarLayout ==> lp.width == MaxInt(w, h) && lp.height == h)
        && (!mIsVerticalBarLayout ==> lp.width == w && lp.height == MaxInt(h, w))
        && mOutline.Value() == (if mIsOpening then Box(0, 0, w, h) else Box(0, 0, lp.width, lp.height))
        && mEndRevealRect.Value() == Box(0, 0, lp.width, lp.height)
        && mBackground.bounds == BackgroundBounds(mFinalDrawableBounds.Value(),
             StartDrawableScale(lp.width, lp.height, w, h, mIsOpening), mIsVerticalBarLayout)
        && var left := LayoutLeft(lp.MarginStart(), lp.leftMargin, lp.width, mIsRtl);
           view.State() == old(view.State()).(frame := Box(left, lp.topMargin, left + lp.width, lp.topMargin + lp.height),
                                              outlineProvider := IconOutline, clipToOutline := true)
      // The layers keep their alpha; a missing one is a new drawable with its own.
      ensures mIsAdaptiveIcon && drawable.value.background != null ==>
        mBackground.alpha == old(drawable.value.background.alpha)
      ensures mIsAdaptiveIcon && drawable.value.foreground != null ==>
        mForeground.alpha == old(drawable.value.foreground.alpha)
      ensures mIsAdaptiveIcon && drawable.value.background == null ==> mBackground.alpha == None
      ensures mIsAdaptiveIcon && drawable.value.foreground == null ==> mForeground.alpha == None
    {
      if drawable.Some? && drawable.value.AdaptiveIcon? {
        SetAdaptiveIcon(drawable.value, badge, iconOffset);
      } else {
        SetPlainIcon(drawable, badge);
      }
    }

    /** `setIcon` for any other drawable (or none): it becomes the view's background, unclipped. */
    method SetPlainIcon(drawable: Option<Drawable>, badge: IconDrawable?)
      requires Valid() && !(drawable.Some? && drawable.value.AdaptiveIcon?)
      modifies this`mBadge, this`mIsAdaptiveIcon, view
      ensures Valid() && mBadge == badge && !mIsAdaptiveIcon
      ensures view.State() == old(view.State()).(background := drawable, clipToOutline := false)
      ensures view.clipPath == old(view.clipPath)
    {
      mBadge := badge;
      mIsAdaptiveIcon := false;
      view.background := drawable;
      view.clipToOutline := false;
    }

    /** `setIcon` for an adaptive icon: layers, bounds and layout. */
    method SetAdaptiveIcon(icon: Drawable, badge: IconDrawable?, iconOffset: int)
      requires Valid()
      requires icon.AdaptiveIcon? && DistinctDrawables(icon.background, icon.foreground, badge)
      requires !mIsOpening ==> lp.width != 0 && lp.height != 0
      modifies this`mBadge, this`mIsAdaptiveIcon, this`mBackground, this`mForeground
      modifies view, lp, mFinalDrawableBounds, mStartRevealRect, mEndRevealRect, mOutline, tmpRect, badge
      modifies icon.background, icon.foreground
      ensures Valid() && mBadge == badge && mIsAdaptiveIcon
      ensures view.clipPath == old(view.clipPath)
      ensures icon.background != null ==> mBackground.alpha == old(icon.background.alpha)
      ensures icon.foreground != null ==> mForeground.alpha == old(icon.foreground.alpha)
      ensures icon.background == null ==> mBackground.alpha == None
      ensures icon.foreground == null ==> mForeground.alpha == None
      ensures var w, h := old(lp.width), old(lp.height);
        && (icon.background != null ==> mBackground == icon.background)
        && (icon.background == null ==> fresh(mBackground) && mBackground.content == Transparent)
        && (icon.foreground != null ==> mForeground == icon.foreground)
        && (icon.foreground == null ==> fresh(mForeground) && mForeground.content == Transparent)
        && mFinalDrawableBounds.Value() == Box(0, 0, w, h).Inset(iconOffset - 1, iconOffset - 1)
        && mForeground.bounds == mFinalDrawableBounds.Value()
        && (badge != null ==>
              badge.bounds == Box(0, 0, w, h) && badge.alpha == (if mIsOpening then old(badge.alpha) else Some(0)))
        && mStartRevealRect.Value() == ScaledAboutCenter(Box(0, 0, w, h), registry.normalizationScale)
        && (0 <= w && 0 <= h ==> Box(0, 0, w, h).Contains(mStartRevealRect.Value()))
        && lp.leftMargin == old(lp.leftMargin) && lp.topMargin == old(lp.topMargin)
        && (mIsVerticalBarLayout ==> lp.width == MaxInt(w, h) && lp.height == h)
        && (!mIsVerticalBarLayout ==> lp.width == w && lp.height == MaxInt(h, w))
        && mOutline.Value() == (if mIsOpening then Box(0, 0, w, h) else Box(0, 0, lp.width, lp.height))
        && mEndRevealRect.Value() == Box(0, 0, lp.width, lp.height)
        && mBackground.bounds == BackgroundBounds(mFinalDrawableBounds.Value(),
             StartDrawableScale(lp.width, lp.height, w, h, mIsOpening), mIsVerticalBarLayout)
        && var left := LayoutLeft(lp.MarginStart(), lp.leftMargin, lp.width, mIsRtl);
           view.State() == old(view.State()).(frame := Box(left, lp.topMargin, left + lp.width, lp.topMargin + lp.height),
                                              outlineProvider := IconOutline, clipToOutline := true)
    {
      SetLayers(icon, badge);
      assert unchanged(view, lp) && (badge != null ==> unchanged(badge));
      PlaceIcon(iconOffset);
    }

    /** `setIcon`'s placement of an adaptive icon's layers and badge, and its layout. */
    method PlaceIcon(iconOffset: int)
      requires Distinct() && 0.0 < registry.normalizationScale <= 1.0
      requires mBackground != null && mForeground != null && DistinctDrawables(mBackground, mForeground, mBadge)
      requires !mIsOpening ==> lp.width != 0 && lp.height != 0
      modifies view, lp, mFinalDrawableBounds, mStartRevealRect, mEndRevealRect, mOutline, tmpRect
      modifies mBackground, mForeground, mBadge
      ensures view.clipPath == old(view.clipPath)
      ensures mBackground.alpha == old(mBackground.alpha) && mForeground.alpha == old(mForeground.alpha)
      ensures var w, h := old(lp.width), old(lp.height);
        && mFinalDrawableBounds.Value() == Box(0, 0, w, h).Inset(iconOffset - 1, iconOffset - 1)
        && mForeground.bounds == mFinalDrawableBounds.Value()
        && (mBadge != null ==>
              mBadge.bounds == Box(0, 0, w, h) && mBadge.alpha == (if mIsOpening then old(mBadge.alpha) else Some(0)))
        && mStartRevealRect.Value() == ScaledAboutCenter(Box(0, 0, w, h), registry.normalizationScale)
        && (0 <= w && 0 <= h ==> Box(0, 0, w, h).Contains(mStartRevealRect.Value()))
        && lp.leftMargin == old(lp.leftMargin) && lp.topMargin == old(lp.topMargin)
        && (mIsVerticalBarLayout ==> lp.width == MaxInt(w, h) && lp.height == h)
        && (!mIsVerticalBarLayout ==> lp.width == w && lp.height == MaxInt(h, w))
        && mOutline.Value() == (if mIsOpening then Box(0, 0, w, h) else Box(0, 0, lp.width, lp.height))
        && mEndRevealRect.Value() == Box(0, 0, lp.width, lp.height)
        && mBackground.bounds == BackgroundBounds(mFinalDrawableBounds.Value(),
             StartDrawableScale(lp.width, lp.height, w, h, mIsOpening), mIsVerticalBarLayout)
        && var left := LayoutLeft(lp.MarginStart(), lp.leftMargin, lp.width, mIsRtl);
           view.State() == old(view.State()).(frame := Box(left, lp.topMargin, left + lp.width, lp.topMargin + lp.height),
                                              outlineProvider := IconOutline, clipToOutline := true)
    {
      var originalHeight := lp.height;
      var originalWidth := lp.width;
      SetDrawableBounds(iconOffset, originalWidth, originalHeight);
      LayOut(originalWidth, originalHeight);
    }

    /**
      `setIcon`'s first steps for an adaptive icon: the badge, the flag, and
      the layers, the icon's own or a transparent drawable where one is missing.
    */
    method SetLayers(icon: Drawable, badge: IconDrawable?)
      requires icon.AdaptiveIcon?
      requires icon.background != null && icon.foreground != null ==> icon.background != icon.foreground
      modifies this`mBadge, this`mIsAdaptiveIcon, this`mBackground, this`mForeground
      ensures mBadge == badge && mIsAdaptiveIcon
      ensures mBackground != null && mForeground != null && mBackground != mForeground
      ensures icon.background != null ==> mBackground == icon.background
      ensures icon.background == null ==> fresh(mBackground) && mBackground.content == Transparent && mBackground.alpha == None
      ensures icon.foreground != null ==> mForeground == icon.foreground
      ensures icon.foreground == null ==> fresh(mForeground) && mForeground.content == Transparent && mForeground.alpha == None
    {
      mBadge := badge;
      mIsAdaptiveIcon := true;
      var background := icon.background;
      if background == null {
        background := new IconDrawable(Transparent);
      }
      mBackground := background;
      var foreground := icon.foreground;
      if foreground == null {
        foreground := new IconDrawable(Transparent);
      }
      mForeground := foreground;
    }

    /**
      `setIcon`'s bounds: the final drawable bounds (the view's rect inset by
      `iconOffset` less half the blur outline) on both layers, the whole rect
      on the badge, and the start reveal rect shrunk by the normalization scale.
    */
    method SetDrawableBounds(iconOffset: int, originalWidth: int, originalHeight: int)
      requires Distinct() && 0.0 < registry.normalizationScale <= 1.0
      requires mBackground != null && mForeground != null && DistinctDrawables(mBackground, mForeground, mBadge)
      modifies mFinalDrawableBounds, mStartRevealRect, mBackground, mForeground, mBadge
      ensures mFinalDrawableBounds.Value() == Box(0, 0, originalWidth, originalHeight).Inset(iconOffset - 1, iconOffset - 1)
      ensures mForeground.bounds == mBackground.bounds == mFinalDrawableBounds.Value()
      ensures mForeground.alpha == old(mForeground.alpha) && mBackground.alpha == old(mBackground.alpha)
      ensures mBadge != null ==>
        mBadge.bounds == Box(0, 0, originalWidth, originalHeight)
        && mBadge.alpha == (if mIsOpening then old(mBadge.alpha) else Some(0))
      ensures mStartRevealRect.Value() == ScaledAboutCenter(Box(0, 0, originalWidth, originalHeight), registry.normalizationScale)
      ensures 0 <= originalWidth && 0 <= originalHeight ==>
        Box(0, 0, originalWidth, originalHeight).Contains(mStartRevealRect.Value())
    {
      var blurMargin := BLUR_SIZE_OUTLINE / 2;
      mFinalDrawableBounds.Set(0, 0, originalWidth, originalHeight);
      mFinalDrawableBounds.Inset(iconOffset - blurMargin, iconOffset - blurMargin);
      mForeground.SetBounds(mFinalDrawableBounds.Value());
      mBackground.SetBounds(mFinalDrawableBounds.Value());

      mStartRevealRect.Set(0, 0, originalWidth, originalHeight);
      if mBadge != null {
        mBadge.SetBounds(mStartRevealRect.Value());
        if !mIsOpening {
          mBadge.SetAlpha(0);
        }
      }
      ScaleRectAboutCenter(mStartRevealRect, registry.normalizationScale);
      if 0 <= originalWidth && 0 <= originalHeight {
        ShrinkStaysInside(Box(0, 0, originalWidth, originalHeight), registry.normalizationScale);
      }
    }

    /**
      `setIcon`'s layout: the extent across the bar raised to the other
      one and the view laid out at its margins; then the outline, the
      background and the end reveal rect follow the new layout.
    */
    method LayOut(originalWidth: int, originalHeight: int)
      requires Distinct() && mBackground != null
      requires originalWidth == lp.width && originalHeight == lp.height
      requires !mIsOpening ==> originalWidth != 0 && originalHeight != 0
      modifies lp, view, mOutline, tmpRect, mBackground, mEndRevealRect
      ensures lp.leftMargin == old(lp.leftMargin) && lp.topMargin == old(lp.topMargin)
      ensures mIsVerticalBarLayout ==> lp.width == MaxInt(originalWidth, originalHeight) && lp.height == originalHeight
      ensures !mIsVerticalBarLayout ==> lp.width == originalWidth && lp.height == MaxInt(originalHeight, originalWidth)
      ensures mOutline.Value() == (if mIsOpening then Box(0, 0, originalWidth, originalHeight)
                                   else Box(0, 0, lp.width, lp.height))
      ensures mEndRevealRect.Value() == Box(0, 0, lp.width, lp.height)
      ensures mBackground.bounds == BackgroundBounds(mFinalDrawableBounds.Value(),
                StartDrawableScale(lp.width, lp.height, originalWidth, originalHeight, mIsOpening), mIsVerticalBarLayout)
      ensures mBackground.alpha == old(mBackground.alpha)
      ensures var left := LayoutLeft(lp.MarginStart(), lp.leftMargin, lp.width, mIsRtl);
        view.State() == old(view.State()).(frame := Box(left, lp.topMargin, left + lp.width, lp.topMargin + lp.height),
                                           outlineProvider := IconOutline, clipToOutline := true)
      ensures view.clipPath == old(view.clipPath)
    {
      LayOutView();
      FitOutline(originalWidth, originalHeight);
    }

    /** The extent across the bar raised to the other one, and the view laid out at its margins. */
    method LayOutView()
      modifies lp, view
      ensures lp.leftMargin == old(lp.leftMargin) && lp.topMargin == old(lp.topMargin)
      ensures mIsVerticalBarLayout ==> lp.width == MaxInt(old(lp.width), old(lp.height)) && lp.height == old(lp.height)
      ensures !mIsVerticalBarLayout ==> lp.width == old(lp.width) && lp.height == MaxInt(old(lp.height), old(lp.width))
      ensures var left := LayoutLeft(lp.MarginStart(), lp.leftMargin, lp.width, mIsRtl);
        view.State() == old(view.State()).(frame := Box(left, lp.topMargin, left + lp.width, lp.topMargin + lp.height))
      ensures view.clipPath == old(view.clipPath)
    {
      if mIsVerticalBarLayout {
        lp.width := RaisedExtent(lp.width, lp.height);
      } else {
        lp.height := RaisedExtent(lp.height, lp.width);
      }
      var left := LayoutLeft(lp.MarginStart(), lp.leftMargin, lp.width, mIsRtl);
      view.frame := Box(left, lp.topMargin, left + lp.width, lp.topMargin + lp.height);
    }

    /**
      The outline (the icon's own rect when opening, the laid-out one
      otherwise), the background at the starting scale, the end reveal rect,
      and the view's outline provider and clip to it.
    */
    method FitOutline(originalWidth: int, originalHeight: int)
      requires Distinct() && mBackground != null
      requires !mIsOpening ==> originalWidth != 0 && originalHeight != 0
      modifies view, mOutline, tmpRect, mBackground, mEndRevealRect
      ensures mOutline.Value() == (if mIsOpening then Box(0, 0, originalWidth, originalHeight)
                                   else Box(0, 0, lp.width, lp.height))
      ensures mEndRevealRect.Value() == Box(0, 0, lp.width, lp.height)
      ensures mBackground.bounds == BackgroundBounds(mFinalDrawableBounds.Value(),
                StartDrawableScale(lp.width, lp.height, originalWidth, originalHeight, mIsOpening), mIsVerticalBarLayout)
      ensures mBackground.alpha == old(mBackground.alpha)
      ensures view.State() == old(view.State()).(outlineProvider := IconOutline, clipToOutline := true)
      ensures view.clipPath == old(view.clipPath)
    {
      var bgDrawableStartScale := StartDrawableScale(lp.width, lp.height, originalWidth, originalHeight, mIsOpening);
      if mIsOpening {
        mOutline.Set(0, 0, originalWidth, originalHeight);
      } else {
        mOutline.Set(0, 0, lp.width, lp.height);
      }
      SetBackgroundDrawableBounds(bgDrawableStartScale);
      mEndRevealRect.Set(0, 0, lp.width, lp.height);
      view.outlineProvider := IconOutline;
      view.clipToOutline := true;
    }
  }
}
