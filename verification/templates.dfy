/** The two vector templates of the generator, as geometry records over exact reals:
    the square app icon (`generateSVGIcon`) and the launch screen / feature graphic
    (`generateLaunchScreenSVG`). Only the placement, sizes and paints are modelled,
    not the markup text. */
module Templates {
  import opened Palette

  /** The viewBox rectangle of an SVG root. */
  datatype Box = Box(x: real, y: real, width: real, height: real)

  datatype Canvas = Canvas(width: real, height: real, viewBox: Box)

  /** One gradient stop: offset in percent, colour, stop opacity. */
  datatype Stop = Stop(offset: real, color: string, opacity: real)

  /** A linear gradient from (x1, y1) to (x2, y2), all in percent of the bounding box. */
  datatype Gradient = Gradient(id: string, x1: real, y1: real, x2: real, y2: real, stops: seq<Stop>)

  datatype Paint = Solid(color: string) | GradientFill(id: string)

  datatype Circle = Circle(cx: real, cy: real, r: real, fill: Paint, opacity: real)

  datatype Rect = Rect(x: real, y: real, width: real, height: real, fill: Paint)

  /** A text element anchored at its middle (`text-anchor="middle"`). */
  datatype Label = Label(x: real, y: real, fontSize: real, bold: bool, fill: Paint, opacity: real, content: string)

  /** The heart glyph: a fixed path translated to (tx, ty) and scaled uniformly. */
  datatype Heart = Heart(tx: real, ty: real, scale: real, fill: Paint)

  /** A declarative opacity oscillation (`<animate>`): keyframe values, period in seconds. */
  datatype Pulse = Pulse(values: seq<real>, seconds: real, indefinite: bool)

  datatype IconGeometry = IconGeometry(canvas: Canvas, gradient: Gradient, disc: Circle, caption: Label, heart: Heart)

  datatype LaunchGeometry = LaunchGeometry(
    canvas: Canvas,
    gradient: Gradient,
    background: Rect,
    halo: Circle,
    logo: Circle,
    mark: Label,
    title: Label,
    tagline: Label,
    indicator: Circle,
    pulse: Pulse)

  const ICON_GRADIENT_ID: string := "prideGradient"
  const LAUNCH_GRADIENT_ID: string := "backgroundGradient"
  const BRAND_NAME: string := "BeYou"
  const TAGLINE: string := "LGBTQ+ Social Platform"

  /** A canvas whose size and viewBox are both `width` by `height`, anchored at the origin. */
  predicate Fills(c: Canvas, width: real, height: real) {
    c.width == width && c.height == height && c.viewBox == Box(0.0, 0.0, width, height)
  }

  /** The stops run from 0% to 100% with non-decreasing offsets. */
  predicate SpansBox(stops: seq<Stop>) {
    && |stops| >= 1
    && stops[0].offset == 0.0
    && stops[|stops| - 1].offset == 100.0
    && forall i :: 0 < i < |stops| ==> stops[i - 1].offset <= stops[i].offset
  }

  /** The three-stop diagonal gradient both templates define: primary, then secondary,
      then accent, all fully opaque. */
  function PrideGradient(p: Colors, id: string): (g: Gradient)
    ensures g.id == id
    ensures SpansBox(g.stops)
    ensures |g.stops| == 3 && g.stops[1].offset == 50.0
    ensures g.stops[0].color == p.primary && g.stops[1].color == p.secondary && g.stops[2].color == p.accent
    ensures forall i :: 0 <= i < |g.stops| ==> g.stops[i].opacity == 1.0
    ensures (g.x1, g.y1, g.x2, g.y2) == (0.0, 0.0, 100.0, 100.0)
  {
    Gradient(id, 0.0, 0.0, 100.0, 100.0,
      [Stop(0.0, p.primary, 1.0), Stop(50.0, p.secondary, 1.0), Stop(100.0, p.accent, 1.0)])
  }

  /** `generateSVGIcon(size)`. Every position is a linear function of `size`; the
      radius keeps a fixed 2-unit margin. No size is rejected. */
  function IconTemplate(p: Colors, size: int): (g: IconGeometry)
    ensures Fills(g.canvas, size as real, size as real)
    ensures g.gradient == PrideGradient(p, ICON_GRADIENT_ID)
    // the disc is centred and leaves a margin of exactly 2 on each side
    ensures g.disc.cx == g.canvas.width / 2.0 && g.disc.cy == g.canvas.height / 2.0
    ensures g.disc.cx - g.disc.r == 2.0 && g.disc.cx + g.disc.r == g.canvas.width - 2.0
    ensures g.disc.fill == GradientFill(g.gradient.id) && g.disc.opacity == 1.0
    // the caption sits on the vertical axis, one eighth of the canvas below the centre
    ensures g.caption.x == g.disc.cx && g.caption.y - g.disc.cy == g.canvas.height / 8.0
    ensures 6.0 * g.caption.fontSize == g.canvas.width
    ensures g.caption.content == BRAND_NAME && g.caption.bold && g.caption.fill == Solid(WHITE)
    // the heart is raised above the centre by exactly one font size
    ensures g.heart.tx == g.disc.cx && g.disc.cy - g.heart.ty == g.caption.fontSize
    ensures 200.0 * g.heart.scale == g.canvas.width && g.heart.fill == Solid(WHITE)
  {
    var s := size as real;
    IconGeometry(
      Canvas(s, s, Box(0.0, 0.0, s, s)),
      PrideGradient(p, ICON_GRADIENT_ID),
      Circle(s / 2.0, s / 2.0, s / 2.0 - 2.0, GradientFill(ICON_GRADIENT_ID), 1.0),
      Label(s / 2.0, s / 2.0 + s / 8.0, s / 6.0, true, Solid(WHITE), 1.0, BRAND_NAME),
      Heart(s / 2.0, s / 2.0 - s / 6.0, s / 200.0, Solid(WHITE)))
  }

  /** The icon scaled by `k` about the origin, except that the disc keeps its
      absolute 2-unit margin: its radius becomes k * (r + 2) - 2. */
  function ScaleIcon(g: IconGeometry, k: real): IconGeometry {
    g.(canvas := Canvas(k * g.canvas.width, k * g.canvas.height,
                        Box(k * g.canvas.viewBox.x, k * g.canvas.viewBox.y,
                            k * g.canvas.viewBox.width, k * g.canvas.viewBox.height)),
       disc := g.disc.(cx := k * g.disc.cx, cy := k * g.disc.cy, r := k * (g.disc.r + 2.0) - 2.0),
       caption := g.caption.(x := k * g.caption.x, y := k * g.caption.y, fontSize := k * g.caption.fontSize),
       heart := g.heart.(tx := k * g.heart.tx, ty := k * g.heart.ty, scale := k * g.heart.scale))
  }

  /** Icons at every size are self-similar: the icon of size `b` is the icon of
      size `a` scaled by b/a (with the disc's absolute margin). */
  lemma IconSelfSimilar(p: Colors, a: int, b: int)
    requires a != 0
    ensures IconTemplate(p, b) == ScaleIcon(IconTemplate(p, a), b as real / a as real)
  {
    var k := b as real / a as real;
    var s := a as real;
    assert k * s == b as real;
    assert k * (s / 2.0) == b as real / 2.0;
    assert k * (s / 8.0) == b as real / 8.0;
    assert k * (s / 6.0) == b as real / 6.0;
    assert k * (s / 200.0) == b as real / 200.0;
  }

  /** A circle with a non-negative radius lying entirely inside the canvas. */
  predicate CircleInside(c: Circle, canvas: Canvas) {
    && 0.0 <= c.r
    && 0.0 <= c.cx - c.r && c.cx + c.r <= canvas.width
    && 0.0 <= c.cy - c.r && c.cy + c.r <= canvas.height
  }

  /** The template accepts any size; its disc has a positive radius exactly when
      the size exceeds 4, and is a circle within the canvas exactly when it is at least 4. */
  lemma IconDiscDegenerate(p: Colors, size: int)
    ensures IconTemplate(p, size).disc.r > 0.0 <==> size > 4
    ensures CircleInside(IconTemplate(p, size).disc, IconTemplate(p, size).canvas) <==> size >= 4
  {
  }

  /** For a positive size the heart is above the centre and the caption below it. */
  lemma IconStacking(p: Colors, size: int)
    ensures var g := IconTemplate(p, size);
            g.heart.ty < g.disc.cy < g.caption.y <==> size > 0
  {
  }

  /** `generateLaunchScreenSVG(width, height)`. Everything is centred horizontally and
      placed at fixed vertical offsets from the middle of the canvas. */
  function LaunchTemplate(p: Colors, width: int, height: int): (g: LaunchGeometry)
    ensures Fills(g.canvas, width as real, height as real)
    ensures g.gradient == PrideGradient(p, LAUNCH_GRADIENT_ID)
    // the gradient background covers exactly the canvas
    ensures g.background == Rect(0.0, 0.0, g.canvas.width, g.canvas.height, GradientFill(g.gradient.id))
    // a translucent halo and an opaque white logo, concentric, 100 above the middle
    ensures g.halo.cx == g.logo.cx == g.canvas.width / 2.0
    ensures g.halo.cy == g.logo.cy == g.canvas.height / 2.0 - 100.0
    ensures g.halo.r == 80.0 && g.logo.r == 60.0
    ensures g.halo.fill == g.logo.fill == Solid(WHITE) && g.halo.opacity == 0.2 && g.logo.opacity == 1.0
    // all text and the indicator share the vertical axis of the logo
    ensures g.mark.x == g.title.x == g.tagline.x == g.indicator.cx == g.logo.cx
    // the brand mark sits inside the logo disc, below its centre
    ensures g.logo.cy < g.mark.y < g.logo.cy + g.logo.r
    ensures g.mark.content == BRAND_NAME && g.mark.fontSize == 24.0 && g.mark.fill == Solid(p.primary)
    // title, tagline and indicator are stacked below the halo, in that order
    ensures g.halo.cy + g.halo.r < g.title.y < g.tagline.y < g.indicator.cy - g.indicator.r
    ensures g.title.content == BRAND_NAME && g.title.fontSize == 32.0 && g.title.bold
    ensures g.tagline.content == TAGLINE && g.tagline.fontSize == 18.0 && !g.tagline.bold
    ensures g.tagline.opacity == 0.9
    // the indicator starts at the first keyframe of a 1.5 s endless pulse
    ensures g.indicator.r == 3.0 && g.pulse == Pulse([0.8, 0.3, 0.8], 1.5, true)
    ensures g.indicator.opacity == g.pulse.values[0] == g.pulse.values[|g.pulse.values| - 1]
  {
    var w := width as real;
    var h := height as real;
    var cx := w / 2.0;
    var cy := h / 2.0;
    LaunchGeometry(
      Canvas(w, h, Box(0.0, 0.0, w, h)),
      PrideGradient(p, LAUNCH_GRADIENT_ID),
      Rect(0.0, 0.0, w, h, GradientFill(LAUNCH_GRADIENT_ID)),
      Circle(cx, cy - 100.0, 80.0, Solid(WHITE), 0.2),
      Circle(cx, cy - 100.0, 60.0, Solid(WHITE), 1.0),
      Label(cx, cy - 80.0, 24.0, true, Solid(p.primary), 1.0, BRAND_NAME),
      Label(cx, cy + 50.0, 32.0, true, Solid(WHITE), 1.0, BRAND_NAME),
      Label(cx, cy + 90.0, 18.0, false, Solid(WHITE), 0.9, TAGLINE),
      Circle(cx, cy + 150.0, 3.0, Solid(WHITE), 0.8),
      Pulse([0.8, 0.3, 0.8], 1.5, true))
  }

  /** Vertical offsets from the middle of the canvas: halo, logo, mark, title,
      tagline, indicator. */
  function VerticalOffsets(g: LaunchGeometry): seq<real> {
    var mid := g.canvas.height / 2.0;
    [g.halo.cy - mid, g.logo.cy - mid, g.mark.y - mid, g.title.y - mid, g.tagline.y - mid, g.indicator.cy - mid]
  }

  /** Placement is additive, not proportional: the offsets from the middle are the
      same for every canvas size, so they are strictly increasing from the mark down
      whatever the aspect ratio. */
  lemma LaunchOffsetsFixed(p: Colors, width: int, height: int)
    ensures VerticalOffsets(LaunchTemplate(p, width, height)) == [-100.0, -100.0, -80.0, 50.0, 90.0, 150.0]
    ensures var o := VerticalOffsets(LaunchTemplate(p, width, height));
            forall i, j :: 2 <= i < j < |o| ==> o[i] < o[j]
  {
  }

  /** The launch composition fits: its three circles lie inside the canvas and
      every text anchor is on the canvas. */
  predicate LaunchFits(g: LaunchGeometry) {
    && CircleInside(g.halo, g.canvas)
    && CircleInside(g.logo, g.canvas)
    && CircleInside(g.indicator, g.canvas)
    && 0.0 <= g.mark.y && g.tagline.y <= g.canvas.height
    && 0.0 <= g.mark.x <= g.canvas.width
  }

  /** Because the offsets do not scale, the circles and text anchors fit exactly when the canvas
      is at least 160 wide (the halo's diameter) and 360 high (twice the distance
      from the middle to the halo's top). */
  lemma LaunchFitsExactly(p: Colors, width: int, height: int)
    ensures LaunchFits(LaunchTemplate(p, width, height)) <==> width >= 160 && height >= 360
  {
  }

  /** Both templates paint with one and the same three stops. */
  lemma SharedGradient(p: Colors, size: int, width: int, height: int)
    ensures IconTemplate(p, size).gradient.stops == LaunchTemplate(p, width, height).gradient.stops
    ensures IconTemplate(p, size).gradient.id != LaunchTemplate(p, width, height).gradient.id
  {
  }
}
