# Floating icon shape-morph geometry, in Dafny

This project models the geometry behind the launcher's icon-to-window
transition. When an app icon grows into its window, a `FloatingIconView`
takes the icon's place. `setIcon` lays out the view and its drawables once.
`update` then runs every frame with the target rect and the progress. It
moves and scales the view, keeps the outline in unscaled units and drives a
shape-reveal animator. That animator morphs the icon's shape (an `IconShape`)
into the window's rounded rect.

Modules:

- `Rects`: `android.graphics.Rect` as the `Box` value and the mutable `Rect`
  class; `RectF`; Java's `(int)` cast (`Trunc`, truncation toward zero).
- `Paths`: `android.graphics.Path` as the list of commands appended to it.
  `PenAfter` tracks where the pen ends up.
- `Views`: the `View` state the floating view writes, including its
  ClipPathView clip. Also `LayoutParams`, and drawables as objects with
  bounds and alpha.
- `IconShapes`: the four shapes and their outlines (`addToPath`); the
  TearDrop radii array; the per-frame reveal of the path shapes; the reveal
  animator's start/update/end protocol (`RevealAnimator`); and the static
  shape registry (`IconShapeRegistry`).
- `Geometry`: FloatingIconView's static helpers (`boundToRange`,
  `mapToRange`, `getProgress`, `mapRange`, `scaleRect`,
  `scaleRectAboutCenter`). Also the closed-form quantities `update` and
  `setIcon` compute.
- `FloatingIcon`: the `FloatingIconView` class (`update`, `setIcon`,
  `setBackgroundDrawableBounds`, `setClipPath`, the animator's end).

`getShape()` and `getNormalizationScale()` return static fields that nothing
reassigns. They are the constant fields `instance` and `normalizationScale` of
`IconShapeRegistry`, which the registry's constructor fixes to the source's
defaults.

Java `float` is `real`. `int` and `long` arguments of `boundToRange` are
32- and 64-bit newtypes. Every `(int)` cast is `Trunc`. The expression
`1920/1080` is integer division in Java, so the aspect ratio in `setIcon` is
1, and the layout is raised to `max(height, width)`.

`mIsVerticalBarLayout`, `mIsRtl` and `mIsOpening` are always false in the
source. Here they are constructor parameters, so both branches are modelled.
Passing `false` for all three gives the source's behaviour.

The model follows the code where the code and its own description
disagree, and records properties one might expect that do not hold:

- The comment on `update` says the opening reveal reaches 1 at
  `shapeProgressStart + 0.10`. The code reaches 1 earlier, at
  `shapeProgressStart + (1 - shapeProgressStart) * 0.10`.
  `OpeningRevealCompletes` proves both the exact threshold and the weaker
  claim in the comment.
- `scaleRectAboutCenter` does not keep an odd-sized rect's exact centre.
  It scales about the floored integer centre, so the exact centre drifts,
  and the drift grows with the scale. `OddExtentMovesExactCentre` proves
  that scaling the 3 x 3 rect by any integer `n >= 2` gives
  `(2-n, 2-n, 2n+1, 2n+1)`, moving its exact centre by `n / 2` (by 5 at
  scale 10). `update` scales the background this way, by its drawable
  scale, on every frame. For even extents the integer centre is kept
  (`ScaledAboutCenterKeepsEvenCentre`).
- `scaleRect`'s `+ 0.5f` rounding truncates toward zero below -0.5. Edges
  left of the centre can therefore move inward, even when growing.
  `ScaleUpCanShrinkSmallRect` shows a 2 x 2 rect scaled up by 1.2 becoming
  1 x 1.

## Model

| member | source | states |
|---|---|---|
| Rects.Trunc | app/src/main/java/com/transsion/springanimation/FloatingIconView.java:330-333 | Java's `(int)` cast truncates toward zero: the result is within one unit of the value, below it for non-negative values and above it for negative ones, and keeps the sign |
| Rects.Box.Offset | app/src/main/java/com/transsion/springanimation/FloatingIconView.java:322-324 | `Rect.offset` keeps width and height and moves the top-left corner by (dx, dy) |
| Rects.Box.OffsetTo | app/src/main/java/com/transsion/springanimation/FloatingIconView.java:232-236 | `Rect.offsetTo` keeps width and height and puts the top-left corner at the given point |
| Rects.Box.Inset | app/src/main/java/com/transsion/springanimation/FloatingIconView.java:374 | `Rect.inset` shrinks width and height by twice the inset and keeps the exact centre |
| Rects.Rect.Set | app/src/main/java/com/transsion/springanimation/FloatingIconView.java:371 | `set(l, t, r, b)` makes the rect exactly those edges |
| Rects.Rect.SetFrom | app/src/main/java/com/transsion/springanimation/FloatingIconView.java:229 | `set(src)` copies the source rect's edges |
| Rects.Rect.Offset | app/src/main/java/com/transsion/springanimation/FloatingIconView.java:211 | the in-place offset leaves the rect's value offset |
| Rects.Rect.OffsetTo | app/src/main/java/com/transsion/springanimation/FloatingIconView.java:233-235 | the in-place offsetTo leaves the rect's value moved to the given corner |
| Rects.Rect.Inset | app/src/main/java/com/transsion/springanimation/FloatingIconView.java:374 | the in-place inset leaves the rect's value inset |
| Geometry.BoundToRangeInt | app/src/main/java/com/transsion/springanimation/FloatingIconView.java:300-302 | below the range gives the lower bound, inside gives the value, above gives the upper bound (the lower bound if the range is inverted) |
| Geometry.BoundToRangeFloat | app/src/main/java/com/transsion/springanimation/FloatingIconView.java:307-309 | the same clamp for floats |
| Geometry.BoundToRangeLong | app/src/main/java/com/transsion/springanimation/FloatingIconView.java:314-316 | the same clamp for longs |
| Geometry.BoundToRangeIdempotent | app/src/main/java/com/transsion/springanimation/FloatingIconView.java:295-316 | clamping twice equals clamping once, for all three overloads |
| Geometry.GetProgress | app/src/main/java/com/transsion/springanimation/FloatingIconView.java:287-289 | the progress is non-negative, 0 at `min`, 1 at `max`, and at most 1 between them |
| Geometry.MapRange | app/src/main/java/com/transsion/springanimation/FloatingIconView.java:291-293 | 0 maps to `min` and 1 maps to `max` |
| Geometry.MapRangeBetween | app/src/main/java/com/transsion/springanimation/FloatingIconView.java:291-293 | a value in [0, 1] maps between the two ends, whichever is larger |
| Geometry.MapToRange | app/src/main/java/com/transsion/springanimation/FloatingIconView.java:279-282 | a zero-length from-range or to-range gives `toMin` |
| Geometry.MapToRangeEnds | app/src/main/java/com/transsion/springanimation/FloatingIconView.java:283-284 | with the linear interpolator, `fromMin` maps to `toMin` and `fromMax` to `toMax` |
| Geometry.MapToRangeWithin | app/src/main/java/com/transsion/springanimation/FloatingIconView.java:277-293 | a point of the from-range maps into the to-range, by the linear formula |
| Geometry.ScaleEdgeRounding | app/src/main/java/com/transsion/springanimation/FloatingIconView.java:330-333 | `(int)(e * scale + 0.5f)` rounds to nearest from -0.5 up and lands up to 1.5 above below that |
| Geometry.ScaleRect | app/src/main/java/com/transsion/springanimation/FloatingIconView.java:328-335 | the rect becomes its four edges scaled and rounded, and is left alone when the scale is 1 |
| Geometry.ScaleRectAboutCenter | app/src/main/java/com/transsion/springanimation/FloatingIconView.java:318-326 | the rect is moved so its integer centre is at the origin, scaled, and moved back; it is left alone when the scale is 1 |
| Geometry.ScaleByOneIsIdentity | app/src/main/java/com/transsion/springanimation/FloatingIconView.java:318-335 | both scalings with scale 1 leave the rect unchanged |
| Geometry.SymmetricEdgesSum | app/src/main/java/com/transsion/springanimation/FloatingIconView.java:330-333 | the rounded edges of an interval centred on 0 sum to 0 or 1 |
| Geometry.ScaledAboutCenterKeepsEvenCentre | app/src/main/java/com/transsion/springanimation/FloatingIconView.java:318-326 | for even width and height the integer centre survives any scale |
| Geometry.ShrinkEdge | app/src/main/java/com/transsion/springanimation/FloatingIconView.java:330-333 | with 0 < scale <= 1 each edge moves toward the origin and never across it |
| Geometry.ShrinkStaysInside | app/src/main/java/com/transsion/springanimation/FloatingIconView.java:318-335 | shrinking a well-formed rect about its centre keeps it inside the original (the 0.92 start reveal rect) |
| Geometry.ScaleUpCanShrinkSmallRect | app/src/main/java/com/transsion/springanimation/FloatingIconView.java:318-335 | Box(0,0,2,2) scaled by 1.2 about its centre is Box(1,1,2,2) |
| Geometry.OddExtentMovesExactCentre | app/src/main/java/com/transsion/springanimation/FloatingIconView.java:318-335 | for every integer scale `n >= 2`, Box(0,0,3,3) becomes `(2-n, 2-n, 2n+1, 2n+1)`: the exact centre moves by `n / 2` |
| Geometry.AppliedScale | app/src/main/java/com/transsion/springanimation/FloatingIconView.java:158-161 | the view's scale is never below 1 |
| Geometry.AppliedScaleFitsTarget | app/src/main/java/com/transsion/springanimation/FloatingIconView.java:158-161 | above 1, the scaled smaller side equals the target in one dimension and fits it in the other; the scale is 1 exactly when the target is no larger than the smaller side in some dimension |
| Geometry.ShapeRevealProgress | app/src/main/java/com/transsion/springanimation/FloatingIconView.java:168-172 | the reveal progress is in [0, 1] and is 0 until `progress` passes `shapeProgressStart` |
| Geometry.RevealRamp | app/src/main/java/com/transsion/springanimation/FloatingIconView.java:169-172 | past the start, the value is the clamped `toMax * (progress - start) / abs(1 - start)`, with toMax 10 when opening and 1 when closing |
| Geometry.OpeningRevealCompletes | app/src/main/java/com/transsion/springanimation/FloatingIconView.java:168-172 | opening, the reveal is 1 exactly from `start + (1 - start) * 0.10` on, and so from `start + 0.10` on |
| Geometry.ClosingRevealIsLinear | app/src/main/java/com/transsion/springanimation/FloatingIconView.java:169-172 | closing, the reveal is `(progress - start) / (1 - start)` |
| Geometry.ShapeRevealProgressMonotone | app/src/main/java/com/transsion/springanimation/FloatingIconView.java:169-172 | the reveal never decreases as progress grows |
| Geometry.BackgroundBoundsShape | app/src/main/java/com/transsion/springanimation/FloatingIconView.java:228-237 | the background keeps the centre-scaled rect's width and height; in horizontal layout only its top moves, to `(int)(top * scale)`; in vertical layout only its left does |
| Geometry.CentringShift | app/src/main/java/com/transsion/springanimation/FloatingIconView.java:204-209 | twice the foreground's shift is within two units of the drawable's growth, and the shift is non-negative when growing |
| Geometry.SpringTargetBounds | app/src/main/java/com/transsion/springanimation/FloatingIconView.java:215-218 | the spring target `(int)(d / axis * factor)` has the sign of the translation and stays within the factor while the view is on screen |
| FloatingIcon.OutlineAfterUpdate | app/src/main/java/com/transsion/springanimation/FloatingIconView.java:174-178 | only the outline's far edge along the layout axis changes, to `(int)(extent / scale)` |
| FloatingIcon.CentredForeground | app/src/main/java/com/transsion/springanimation/FloatingIconView.java:202-212 | the centred foreground keeps the final bounds' size; along the layout axis its near edge moves by `CentringShift` of that extent (half the drawable's growth, within a unit), across it nothing moves |
| FloatingIcon.RaisedExtent | app/src/main/java/com/transsion/springanimation/FloatingIconView.java:391-396 | with the aspect ratio `1920/1080 == 1` the raised extent is `max(extent, other)` |
| FloatingIcon.Spring.AnimateToFinalPosition | app/src/main/java/com/transsion/springanimation/FloatingIconView.java:220-221 | the spring's target becomes the given position |
| FloatingIcon.FloatingIconView.constructor | app/src/main/java/com/transsion/springanimation/FloatingIconView.java:126-137 | a new view has empty rects, no drawables, no reveal animator, corner radius 0 and the platform defaults |
| FloatingIcon.FloatingIconView.SetClipPath | app/src/main/java/com/transsion/springanimation/FloatingIconView.java:240-244 | the clip becomes the given path and nothing else changes |
| FloatingIcon.FloatingIconView.SetBackgroundDrawableBounds | app/src/main/java/com/transsion/springanimation/FloatingIconView.java:228-238 | the background's bounds become the final drawable bounds scaled about the centre, with the anchor edge re-anchored |
| FloatingIcon.FloatingIconView.Update | app/src/main/java/com/transsion/springanimation/FloatingIconView.java:146-226 | the view is translated and scaled by at least 1; the outline's far edge and the corner radius are in unscaled units; the reveal animator is created (started, then paused) only for an adaptive icon closing past the start with no animator yet, which saves the view's outline state and sinks it by its elevation, is reused afterwards, and gets the reveal progress as its fraction; the background follows the outline, and the foreground is centred when opening or gets new spring targets when closing |
| FloatingIcon.FloatingIconView.SetTransform | app/src/main/java/com/transsion/springanimation/FloatingIconView.java:148-166 | alpha, translation, a pivot at the origin and a uniform scale are set, and nothing else |
| FloatingIcon.FloatingIconView.UpdateOutline | app/src/main/java/com/transsion/springanimation/FloatingIconView.java:174-180 | the outline edit and `mTaskCornerRadius == cornerRadius / scale` |
| FloatingIcon.FloatingIconView.MoveOnto | app/src/main/java/com/transsion/springanimation/FloatingIconView.java:148-180 | the view is translated and scaled onto the target rect with alpha set; the outline edit and the corner radius in unscaled units; the clip is kept |
| FloatingIcon.FloatingIconView.MoveAndReveal | app/src/main/java/com/transsion/springanimation/FloatingIconView.java:148-197 | every part of `update` except the drawables: the move onto the rect, then the reveal step |
| FloatingIcon.FloatingIconView.Reveal | app/src/main/java/com/transsion/springanimation/FloatingIconView.java:181-197 | the animator is touched only for an adaptive icon that is closing at or past the start; a new one leaves the view in its `RevealStarted` state |
| FloatingIcon.FloatingIconView.DriveReveal | app/src/main/java/com/transsion/springanimation/FloatingIconView.java:183-196 | the animator is created at most once, over the start reveal rect, the outline and the corner radius, runs reversed, and its start leaves the view in `RevealStarted`; on a path shape the view's clip is then the frame at `1 - fraction` |
| FloatingIcon.FloatingIconView.UpdateDrawables | app/src/main/java/com/transsion/springanimation/FloatingIconView.java:199-222 | the background's bounds follow the outline; when opening the foreground is centred, otherwise the springs get `(int)(dX/1080*60)` and `(int)(dY/1920*75)` |
| FloatingIcon.FloatingIconView.StartRevealAnimator | app/src/main/java/com/transsion/springanimation/FloatingIconView.java:183-195 | a new reversed animator is built over the start reveal rect, the outline and the corner radius, started and paused, and stored; the view's outline provider and clip flag are saved and the view is in its `RevealStarted` state; a path shape's clip is its first frame, at animated value 1 |
| FloatingIcon.FloatingIconView.OnRevealAnimationEnd | app/src/main/java/com/transsion/springanimation/FloatingIconView.java:186-190 | the animator's end listener puts the view in its `RevealEnded` state from the saved outline state (a path shape also clears the clip), and the view drops the animator |
| FloatingIcon.FloatingIconView.SetIcon | app/src/main/java/com/transsion/springanimation/FloatingIconView.java:345-429 | an adaptive icon's layers get `(0,0,w,h)` inset by `iconOffset - 1` and keep their alpha, the badge the whole rect (hidden unless opening), the start reveal rect is shrunk by the normalization scale and stays inside, the extent across the bar is raised to `max(h, w)` (`lp.height` in horizontal layout, `lp.width` in vertical), the outline becomes `(0,0,lp.width,lp.height)` (the original size when opening), and end reveal rect and background follow the new layout; any other drawable becomes the unclipped background |
| FloatingIcon.FloatingIconView.SetPlainIcon | app/src/main/java/com/transsion/springanimation/FloatingIconView.java:422-426 | a non-adaptive drawable becomes the background, with clipping to outline off |
| FloatingIcon.FloatingIconView.SetAdaptiveIcon | app/src/main/java/com/transsion/springanimation/FloatingIconView.java:350-421 | the adaptive branch of `setIcon`: the icon's layers (or new transparent ones) with their alpha kept, placed and laid out as in `setIcon` |
| FloatingIcon.FloatingIconView.SetLayers | app/src/main/java/com/transsion/springanimation/FloatingIconView.java:350-364 | the badge is recorded, the view is marked adaptive, and the layers are the icon's own, or a new transparent drawable for a missing one |
| FloatingIcon.FloatingIconView.SetDrawableBounds | app/src/main/java/com/transsion/springanimation/FloatingIconView.java:366-389 | both layers get the inset bounds; the badge gets the whole rect and alpha 0 unless opening; the start reveal rect is the rect scaled about its centre by 0.92 |
| FloatingIcon.FloatingIconView.PlaceIcon | app/src/main/java/com/transsion/springanimation/FloatingIconView.java:366-421 | with the original layout size: the drawable bounds, then the raised layout with outline, background and end reveal rect following; both layers keep their alpha |
| FloatingIcon.FloatingIconView.LayOut | app/src/main/java/com/transsion/springanimation/FloatingIconView.java:391-421 | the layout is raised across the bar, the view is laid out at its margins, the outline becomes `(0,0,lp.width,lp.height)` (the original size when opening), the end reveal rect `(0,0,lp.width,lp.height)`, and the background follows |
| FloatingIcon.FloatingIconView.LayOutView | app/src/main/java/com/transsion/springanimation/FloatingIconView.java:389-399 | the margins are kept, the extent across the bar is raised to `max(h, w)`, and the view's frame becomes the margin-anchored box |
| FloatingIcon.FloatingIconView.FitOutline | app/src/main/java/com/transsion/springanimation/FloatingIconView.java:401-421 | the outline becomes `(0,0,lp.width,lp.height)` (the original size when opening) and the end reveal rect `(0,0,lp.width,lp.height)`, the background is placed at its start scale, and the view clips to the icon outline |
| IconShapes.EnableShapeDetection | app/src/main/java/com/transsion/springanimation/IconShape.java:54-165 | shape detection is enabled exactly for the circle (the default at 54-56 is false; the circle overrides it at 162-165) |
| IconShapes.StartRadius | app/src/main/java/com/transsion/springanimation/IconShape.java:157-199 | the circle starts at half the width, the rounded square at half the width times its ratio; with a ratio in (0, 1] and a non-negative width it is 0 or in (0, width / 2] |
| IconShapes.OutlineInscribed | app/src/main/java/com/transsion/springanimation/IconShape.java:152-222 | the circle is centred in the square `(ox, oy, ox+2r, oy+2r)`; the rounded square is that square with both corner radii `r*ratio`; the TearDrop is that square with the radii layout `(r, r*ratio)` |
| IconShapes.SquircleOutlineClosed | app/src/main/java/com/transsion/springanimation/IconShape.java:265-291 | the Squircle outline is MoveTo(cx, cy-r), four cubics and Close; it passes through the middles of the left, bottom and right sides and returns to the top middle |
| IconShapes.RadiiArraySlots | app/src/main/java/com/transsion/springanimation/IconShape.java:224-229 | the radii array has eight slots, with `r2` in slots 4 and 5 and `r1` in the others |
| IconShapes.GetRadiiArray | app/src/main/java/com/transsion/springanimation/IconShape.java:224-229 | the scratch array is overwritten with the radii layout |
| IconShapes.AddCircleToPath | app/src/main/java/com/transsion/springanimation/IconShape.java:152-155 | the circle appends one circle centred at `(ox + r, oy + r)` with radius `r`, clockwise |
| IconShapes.AddRoundedSquareToPath | app/src/main/java/com/transsion/springanimation/IconShape.java:187-194 | the rounded square appends one round rect `(cx - r, cy - r, cx + r, cy + r)` with both radii `r * ratio` |
| IconShapes.AddTearDropToPath | app/src/main/java/com/transsion/springanimation/IconShape.java:214-222 | the TearDrop appends one round rect on the same square with the radii layout `(r1, r1 * ratio)` |
| IconShapes.AddSquircleToPath | app/src/main/java/com/transsion/springanimation/IconShape.java:265-277 | the Squircle appends its MoveTo, four corner cubics and Close |
| IconShapes.AddLeftCurve | app/src/main/java/com/transsion/springanimation/IconShape.java:279-284 | appends the cubic from the top of the corner to its left side |
| IconShapes.AddRightCurve | app/src/main/java/com/transsion/springanimation/IconShape.java:286-291 | appends the cubic from the left side of the corner to its bottom |
| IconShapes.AddToPath | app/src/main/java/com/transsion/springanimation/IconShape.java:152-277 | `addToPath` appends exactly the shape's outline to the path |
| IconShapes.Evaluate | app/src/main/java/com/transsion/springanimation/IconShape.java:242-246 | the evaluator returns the start values at 0 and the end values at 1 |
| IconShapes.FractionOfDifference | app/src/main/java/com/transsion/springanimation/IconShape.java:242-246 | `a + f*(b - a)` with f in [0, 1] lies between a and b |
| IconShapes.EvaluateBetween | app/src/main/java/com/transsion/springanimation/IconShape.java:242-246 | for a fraction in [0, 1] every evaluated slot lies between its start and end values |
| IconShapes.TearDropFrameEnds | app/src/main/java/com/transsion/springanimation/IconShape.java:231-251 | at progress 0 the frame is the start rect with radii `(w/2, w/2*ratio)`; at 1 it is the end rect with every radius `endRadius` |
| IconShapes.TearDropFrameInterpolates | app/src/main/java/com/transsion/springanimation/IconShape.java:231-251 | every frame places each edge at `start + p * (end - start)` and has the radii layout of the two interpolated radii |
| IconShapes.TearDropFrameBetween | app/src/main/java/com/transsion/springanimation/IconShape.java:231-251 | in between, each edge and each radius lies between its start and end value |
| IconShapes.SquircleBlendEnds | app/src/main/java/com/transsion/springanimation/IconShape.java:315-320 | the blend is the start state at 0 and the end state at 1 |
| IconShapes.SquircleFrameEnds | app/src/main/java/com/transsion/springanimation/IconShape.java:294-320 | at 0: the start centre, `r = w/2`, control `r - r*ratio`, no shifts; at 1: the end centre, `endR`, control `endR * 0.551915024494`, shifts `endW/2 - endR` and `endH/2 - endR` |
| IconShapes.SquircleFrameShape | app/src/main/java/com/transsion/springanimation/IconShape.java:322-335 | each frame is a MoveTo, four (RLineTo, CubicTo) pairs and a Close |
| IconShapes.SquircleFrameCorners | app/src/main/java/com/transsion/springanimation/IconShape.java:322-335 | after each corner the pen is at the middle of the left, bottom, right and top side of the rect the frame spans |
| IconShapes.SquircleEndFrameSpansEndRect | app/src/main/java/com/transsion/springanimation/IconShape.java:304-335 | the last frame touches the top, left, bottom and right edges of the end rect |
| IconShapes.AppendRevealFrame | app/src/main/java/com/transsion/springanimation/IconShape.java:231-336 | the update listener appends exactly the shape's frame at the animated value |
| IconShapes.AppendTearDropFrame | app/src/main/java/com/transsion/springanimation/IconShape.java:244-250 | the TearDrop listener appends exactly its round-rect frame at the given progress |
| IconShapes.AppendSquircleFrame | app/src/main/java/com/transsion/springanimation/IconShape.java:312-336 | the Squircle listener appends exactly its path frame at the given progress |
| IconShapes.RevealAnimator.constructor | app/src/main/java/com/transsion/springanimation/IconShape.java:77-117 | the animator records its shape, target, rects, radius and direction; a simple-rect shape's outline provider gets the shape's start radius |
| IconShapes.RevealAnimator.AnimatedValue | app/src/main/java/com/transsion/springanimation/IconShape.java:116-117 | the animated value runs 1 to 0 when reversed and 0 to 1 otherwise, and stays in [0, 1] |
| IconShapes.RevealAnimator.OnUpdate | app/src/main/java/com/transsion/springanimation/IconShape.java:135-139 | the path is reset, rebuilt as the frame at the animated value, and installed as the target's clip |
| IconShapes.RevealAnimator.Start | app/src/main/java/com/transsion/springanimation/IconShape.java:77-126 | the target's outline provider and clip flag are saved and the target sinks by its elevation; a path shape removes the provider and draws the first frame as the clip, a simple-rect shape's rounded-rect provider installs itself and clips to the outline |
| IconShapes.RevealAnimator.Pause | app/src/main/java/com/transsion/springanimation/FloatingIconView.java:193-194 | pausing keeps the fraction and the saved provider |
| IconShapes.RevealAnimator.SetCurrentFraction | app/src/main/java/com/transsion/springanimation/FloatingIconView.java:196 | the fraction is clamped to [0, 1] and a path shape redraws its frame |
| IconShapes.RevealAnimator.OnEnd | app/src/main/java/com/transsion/springanimation/IconShape.java:77-132 | translationZ becomes 0 and the saved outline provider is reinstalled; a path shape clears the clip, a simple-rect shape gets its saved clip flag back |
| IconShapes.RevealEndUndoesStart | app/src/main/java/com/transsion/springanimation/IconShape.java:77-132 | ending a reveal after starting it restores the target's outline provider and clip flag and leaves translationZ at 0: start and end are inverse apart from the neutral elevation |
| IconShapes.IconShapeRegistry.constructor | app/src/main/java/com/transsion/springanimation/IconShape.java:27-33 | the defaults are RoundedSquare(0.5), normalization scale 0.92 and no cached path |
| IconShapes.IconShapeRegistry.GetShapePath | app/src/main/java/com/transsion/springanimation/IconShape.java:39-46 | the path is built once, as the shape's outline of radius 50 at (0, 0), and the cached one is returned afterwards |
| IconShapes.DefaultShapePath | app/src/main/java/com/transsion/springanimation/IconShape.java:29-46 | the default cached path is the 100 x 100 square at the origin with corner radius 25 |
| Views.IconDrawable.SetBounds | app/src/main/java/com/transsion/springanimation/FloatingIconView.java:376-377 | `setBounds` copies the rect's edges and leaves the alpha alone |
| Views.IconDrawable.SetAlpha | app/src/main/java/com/transsion/springanimation/FloatingIconView.java:384 | `DRAWABLE_ALPHA.set` records the alpha and leaves the bounds alone |
| Paths.Path.Reset | app/src/main/java/com/transsion/springanimation/IconShape.java:136 | `reset` empties the path |
| FloatingIcon.Spring.constructor | app/src/main/java/com/transsion/springanimation/FloatingIconView.java:129-136 | a new spring has no target yet |
| Views.View.SetClipPath | app/src/main/java/com/transsion/springanimation/FloatingIconView.java:240-244 | the clip is installed and the view's other state is unchanged |

## Left out

- `draw`, Canvas clipping, `invalidate` and `invalidateOutline`: rendering, with nothing to check beyond the recorded state.
- The spring physics of `SpringAnimation`. Only the target passed to `animateToFinalPosition` is kept, and the foreground's animated translation is not modelled.
- `ValueAnimator` timing and easing. The animator's fraction is set by the caller, as `update` does after pausing, and the animated value is the fraction, or one minus it when reversed. `start()` runs the start listener and draws the first frame at fraction 0.
- `RoundedRectRevealOutlineProvider` is not part of this model. For the circle and the rounded square the model records the arguments it is created with and the start and end effects its documented protocol has on the view: it saves the outline provider and clip-to-outline flag, installs itself as the provider with clipping on and, since these shapes ask for elevation to be removed, sets translationZ to minus the elevation; at the end it restores both and sets translationZ to 0. The round rect it interpolates is not modelled, and nor is the exact order of its calls. The source hands it `mStartRevealRect` and `mOutline` by reference; the model snapshots their values when the animator is created.
- IconShapes.RevealAnimator.Start, IconShapes.RevealAnimator.OnEnd, FloatingIcon.FloatingIconView.StartRevealAnimator, FloatingIcon.FloatingIconView.DriveReveal, FloatingIcon.FloatingIconView.Reveal, FloatingIcon.FloatingIconView.MoveAndReveal, FloatingIcon.FloatingIconView.Update and FloatingIcon.FloatingIconView.OnRevealAnimationEnd: for the circle and the rounded square their view-state clauses rest on that documented protocol, not on source in this repository.
- `drawShape`, `getAttrValue` and the never-populated `SparseArray`, `Log` calls, and `MainActivity`: output, dead helpers and app wiring.
- IEEE float rounding, NaN and infinity. Reals are exact, so the divisions by a zero extent that Java would turn into NaN or infinity are excluded by preconditions.
- GetProgress: requires `min != max`. The source divides by zero there, but `mapToRange`, its only caller, never reaches it in that case.
- FloatingIcon.FloatingIconView.Update: requires a non-zero `min(lp.width, lp.height)`. With a zero side the source's scale is infinite or NaN.
- FloatingIcon.FloatingIconView.SetIcon: requires non-zero original sizes when not opening (the source divides by them), and distinct layer and badge objects.
- Integer overflow. Pixel coordinates stay far from the 32-bit limits, so `int` is unbounded except in the `boundToRange` overloads.
- `getMarginStart()` of the layout params is taken as the left margin, that is, a left-to-right layout.
- `sTmpRect` is static and shared by every view in the source. Here each view owns its scratch rect; the views do not run concurrently.
- Icons that are folders (`isFolderIcon` is the constant false in the source) are not modelled.
