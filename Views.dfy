/**
  The platform state the floating icon view writes: the android.view.View
  properties it sets (alpha, translation, scale, pivot, elevation, outline
  provider, clip-to-outline, background, layout frame), the clip path of the
  ClipPathView interface it implements, the FrameLayout.LayoutParams it is
  laid out with, and the drawables it positions.
*/
module Views {
  import opened Wrappers
  import opened Rects
  import opened Paths

  /** What a drawable shows; `Transparent` is `new ColorDrawable(Color.TRANSPARENT)`. */
  datatype Layer = Transparent | Content(id: nat)

  /** A Drawable object: what it shows, and the bounds and alpha set on it in place. */
  class IconDrawable {
    const content: Layer
    var bounds: Box
    /** The alpha last set through `setAlpha`; `None` while the drawable keeps its own. */
    var alpha: Option<int>

    constructor (content: Layer)
      ensures this.content == content && bounds == Box(0, 0, 0, 0) && alpha == None
    {
      this.content := content;
      bounds := Box(0, 0, 0, 0);
      alpha := None;
    }

    /** `setBounds(Rect)`: copies the rect's edges. */
    method SetBounds(b: Box)
      modifies this
      ensures bounds == b && alpha == old(alpha)
    {
      bounds := b;
    }

    method SetAlpha(a: int)
      modifies this
      ensures alpha == Some(a) && bounds == old(bounds)
    {
      alpha := Some(a);
    }
  }

  /** The drawable handed to `setIcon`: an AdaptiveIconDrawable with nullable layers, or any other drawable. */
  datatype Drawable =
    | AdaptiveIcon(background: IconDrawable?, foreground: IconDrawable?)
    | PlainIcon(image: IconDrawable)

  /**
    The outline provider installed on the view: none (`null`), the
    platform default (the background's outline), the round rect that the
    floating icon view reports from its own outline rect and corner radius,
    or the rounded-rect reveal provider's interpolated round rect, installed
    while a simple-rect shape's reveal runs.
  */
  datatype OutlineProvider = NoProvider | BackgroundOutline | IconOutline | RevealOutline

  /** The View properties, as one value. */
  datatype ViewState = ViewState(
    alpha: real,
    translationX: real, translationY: real, translationZ: real,
    elevation: real,
    scaleX: real, scaleY: real,
    pivotX: real, pivotY: real,
    outlineProvider: OutlineProvider,
    clipToOutline: bool,
    background: Option<Drawable>,
    frame: Box)

  /** The View part of the floating icon view, with its ClipPathView clip. */
  class View {
    var alpha: real
    var translationX: real
    var translationY: real
    var translationZ: real
    var elevation: real
    var scaleX: real
    var scaleY: real
    var pivotX: real
    var pivotY: real
    var outlineProvider: OutlineProvider
    var clipToOutline: bool
    var background: Option<Drawable>
    var frame: Box
    /** The clip installed through `setClipPath`; the view refers to the caller's Path object. */
    var clipPath: Path?

    function State(): ViewState
      reads this
    {
      ViewState(alpha, translationX, translationY, translationZ, elevation, scaleX, scaleY,
                pivotX, pivotY, outlineProvider, clipToOutline, background, frame)
    }

    /** A freshly inflated view: fully opaque, untransformed, with the default outline provider. */
    constructor (elevation: real)
      ensures State() == ViewState(1.0, 0.0, 0.0, 0.0, elevation, 1.0, 1.0, 0.0, 0.0,
                                   BackgroundOutline, false, None, Box(0, 0, 0, 0))
      ensures clipPath == null
    {
      this.elevation := elevation;
      alpha, translationX, translationY, translationZ := 1.0, 0.0, 0.0, 0.0;
      scaleX, scaleY, pivotX, pivotY := 1.0, 1.0, 0.0, 0.0;
      outlineProvider, clipToOutline, background := BackgroundOutline, false, None;
      frame := Box(0, 0, 0, 0);
      clipPath := null;
    }

    /** `setClipPath(clipPath)`: installs (or, with null, clears) the clip; nothing else changes. */
    method SetClipPath(p: Path?)
      modifies this
      ensures clipPath == p
      ensures State() == old(State())
    {
      clipPath := p;
    }
  }

  /** A mutable FrameLayout.LayoutParams, left-to-right, so its start margin is its left margin. */
  class LayoutParams {
    var width: int
    var height: int
    var leftMargin: int
    var topMargin: int

    constructor (width: int, height: int, leftMargin: int, topMargin: int)
      ensures this.width == width && this.height == height
      ensures this.leftMargin == leftMargin && this.topMargin == topMargin
    {
      this.width, this.height := width, height;
      this.leftMargin, this.topMargin := leftMargin, topMargin;
    }

    function MarginStart(): int
      reads this
    {
      leftMargin
    }
  }
}
