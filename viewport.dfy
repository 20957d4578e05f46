/** The world-to-screen mapping `Viewport` of include/viewport.hpp.

    World coordinates have y pointing up. `world_to_ndc` negates y, so
    normalised device coordinates (NDC) and pixels both have y pointing down.
    NDC x runs from -1 to 1 across the viewport's width; pixels run from 0 to
    `width` left to right. Both pixel axes use the width as their scale, so
    pixels are square and the vertical NDC range is centred in the window.

    `world_to_ndc` as written divides by `2 * units_per_vw`, whereas the field
    is documented as the number of world units across one viewport width and
    the rest of the program (the grid and the camera) uses it that way.
    `WorldToNdc` and `WorldToPx` keep the source's definitions;
    `WorldToNdcCorrected` and `WorldToPxCorrected` are the evident intent. */
module Viewports {
  import opened Vectors

  /** `center` (world units), `units_per_vw` (world units per viewport
      width), and the viewport's size in pixels (unsigned). */
  datatype Viewport = Viewport(center: Vec2, unitsPerVw: real, width: nat, height: nat)
  {
    /** `world_to_ndc`: the offset from the centre divided by
        `units_per_vw * 2`, with y negated. */
    function WorldToNdc(world: Vec2): Vec2
      requires unitsPerVw != 0.0
    {
      var c := world.Sub(center).Div(unitsPerVw * 2.0);
      Vec2(c.x, -c.y)
    }

    /** `world_to_ndc` with the scale that makes one viewport width span
        `units_per_vw` world units: the offset divided by half that span. */
    function WorldToNdcCorrected(world: Vec2): Vec2
      requires unitsPerVw != 0.0
    {
      var c := world.Sub(center).Div(unitsPerVw / 2.0);
      Vec2(c.x, -c.y)
    }

    /** `ndc_to_px`. */
    function NdcToPx(ndc: Vec2): Vec2
    {
      Vec2((ndc.x * 0.5 + 0.5) * width as real,
           (ndc.y * 0.5 + 0.5) * width as real + height as real / 2.0 - width as real / 2.0)
    }

    /** `world_to_px`, composed from the source's two steps. */
    function WorldToPx(world: Vec2): Vec2
      requires unitsPerVw != 0.0
    {
      NdcToPx(WorldToNdc(world))
    }

    /** `world_to_px` over the corrected `world_to_ndc`. */
    function WorldToPxCorrected(world: Vec2): Vec2
      requires unitsPerVw != 0.0
    {
      NdcToPx(WorldToNdcCorrected(world))
    }
  }

  /** A viewport with the source's default member initialisers,
      `center = {0,0}` and `units_per_vw = 1`; the size has no default. The
      world origin is drawn in the middle of the window. */
  function DefaultViewport(width: nat, height: nat): (v: Viewport)
    ensures v.unitsPerVw != 0.0
    ensures v.WorldToPx(Zero) == Vec2(width as real / 2.0, height as real / 2.0)
  {
    var v := Viewport(Zero, 1.0, width, height);
    CenterIsMiddle(v);
    v
  }

  /** `ndc_to_px` is the affine map that sends NDC x from [-1, 1] onto
      [0, width], and NDC y to the pixel row `height/2 + y * width/2`. */
  lemma NdcToPxAffine(v: Viewport, ndc: Vec2)
    ensures v.NdcToPx(ndc) == Vec2((ndc.x + 1.0) * (v.width as real / 2.0),
                                   v.height as real / 2.0 + ndc.y * (v.width as real / 2.0))
  {
  }

  /** The NDC edges -1 and 1 are the pixel columns 0 and `width`, and NDC
      origin is the middle of the window. */
  lemma NdcEdges(v: Viewport, y: real)
    ensures v.NdcToPx(Vec2(-1.0, y)).x == 0.0
    ensures v.NdcToPx(Vec2(1.0, y)).x == v.width as real
    ensures v.NdcToPx(Vec2(0.0, 0.0)) == Vec2(v.width as real / 2.0, v.height as real / 2.0)
  {
  }

  /** The inverse of `ndc_to_px` for a viewport with a width. */
  function PxToNdc(v: Viewport, px: Vec2): Vec2
    requires v.width > 0
  {
    Vec2(px.x / (v.width as real / 2.0) - 1.0,
         (px.y - v.height as real / 2.0) / (v.width as real / 2.0))
  }

  /** `PxToNdc` undoes `ndc_to_px`. */
  lemma NdcRoundTrip(v: Viewport, ndc: Vec2)
    requires v.width > 0
    ensures PxToNdc(v, v.NdcToPx(ndc)) == ndc
  {
    var h := v.width as real / 2.0;
    var px := v.NdcToPx(ndc);
    NdcToPxAffine(v, ndc);
    assert px.x == (ndc.x + 1.0) * h;
    assert px.y - v.height as real / 2.0 == ndc.y * h;
    DivideBack(ndc.x + 1.0, h);
    DivideBack(ndc.y, h);
  }

  /** Multiplying by a non-zero `h` and dividing by it gives `p` back. */
  lemma DivideBack(p: real, h: real)
    requires h != 0.0
    ensures (p * h) / h == p
  {
  }

  /** `ndc_to_px` loses nothing when the viewport has a width: distinct NDC
      points land on distinct pixels. */
  lemma NdcToPxInjective(v: Viewport, a: Vec2, b: Vec2)
    requires v.width > 0
    ensures v.NdcToPx(a) == v.NdcToPx(b) <==> a == b
  {
    NdcRoundTrip(v, a);
    NdcRoundTrip(v, b);
  }

  /** The offset of `p` from the centre, y flipped, times `k`: both NDC maps
      have this form, with different `k`. */
  function ScaledOffset(v: Viewport, p: Vec2, k: real): Vec2
  {
    Vec2((p.x - v.center.x) * k, (v.center.y - p.y) * k)
  }

  /** The source's map takes a world point to NDC by its offset from the
      centre over twice the span, y flipped. */
  lemma WorldToNdcOffset(v: Viewport, world: Vec2)
    requires v.unitsPerVw != 0.0
    ensures v.WorldToNdc(world)
         == Vec2((world.x - v.center.x) / (2.0 * v.unitsPerVw), (v.center.y - world.y) / (2.0 * v.unitsPerVw))
    ensures v.WorldToNdc(world) == ScaledOffset(v, world, 1.0 / (2.0 * v.unitsPerVw))
  {
    var u := v.unitsPerVw;
    assert -((world.y - v.center.y) / (u * 2.0)) == (v.center.y - world.y) / (2.0 * u);
    assert (world.x - v.center.x) / (2.0 * u) == (world.x - v.center.x) * (1.0 / (2.0 * u));
    assert (v.center.y - world.y) / (2.0 * u) == (v.center.y - world.y) * (1.0 / (2.0 * u));
  }

  /** The corrected map divides the same offset by half the span. */
  lemma WorldToNdcCorrectedOffset(v: Viewport, world: Vec2)
    requires v.unitsPerVw != 0.0
    ensures v.WorldToNdcCorrected(world) == ScaledOffset(v, world, 2.0 / v.unitsPerVw)
  {
    var u := v.unitsPerVw;
    assert (world.x - v.center.x) / (u / 2.0) == (world.x - v.center.x) * (2.0 / u);
    assert -((world.y - v.center.y) / (u / 2.0)) == (v.center.y - world.y) * (2.0 / u);
  }

  /** The corrected map is four times the source's: as written, the world is
      drawn at a quarter of the scale the span promises. */
  lemma AsWrittenIsQuarterScale(v: Viewport, world: Vec2)
    requires v.unitsPerVw != 0.0
    ensures v.WorldToNdcCorrected(world) == v.WorldToNdc(world).Mul(4.0)
  {
    WorldToNdcCorrectedOffset(v, world);
    WorldToNdcOffset(v, world);
    var u := v.unitsPerVw;
    assert 2.0 / u == 4.0 * (1.0 / (2.0 * u));
  }

  /** Both maps put the viewport's centre in the middle of the window. */
  lemma CenterIsMiddle(v: Viewport)
    requires v.unitsPerVw != 0.0
    ensures v.WorldToNdc(v.center) == Zero && v.WorldToNdcCorrected(v.center) == Zero
    ensures v.WorldToPx(v.center) == Vec2(v.width as real / 2.0, v.height as real / 2.0)
    ensures v.WorldToPxCorrected(v.center) == Vec2(v.width as real / 2.0, v.height as real / 2.0)
  {
    WorldToNdcCorrectedOffset(v, v.center);
    WorldToNdcOffset(v, v.center);
    NdcEdges(v, 0.0);
  }

  /** Drawing `ScaledOffset` at scale `k` is affine in the offset, with
      slope `k * width / 2`. */
  lemma ScaledPx(v: Viewport, p: Vec2, k: real)
    ensures v.NdcToPx(ScaledOffset(v, p, k))
         == Vec2(v.width as real / 2.0 + (p.x - v.center.x) * (k * (v.width as real / 2.0)),
                 v.height as real / 2.0 + (v.center.y - p.y) * (k * (v.width as real / 2.0)))
  {
    var h := v.width as real / 2.0;
    NdcToPxAffine(v, ScaledOffset(v, p, k));
    assert ((p.x - v.center.x) * k + 1.0) * h == h + (p.x - v.center.x) * (k * h);
    assert (v.center.y - p.y) * k * h == (v.center.y - p.y) * (k * h);
  }

  /** A positive factor keeps strict order. */
  lemma StrictScale(p: real, q: real, c: real)
    requires p < q && 0.0 < c
    ensures p * c < q * c
  {
    assert 0.0 < (q - p) * c;
  }

  /** For any positive scale `k`, drawing `ScaledOffset` flips the vertical
      order and keeps the horizontal one. */
  lemma OrientationAtScale(v: Viewport, a: Vec2, b: Vec2, k: real)
    requires 0.0 < k && v.width > 0
    ensures a.y < b.y ==> v.NdcToPx(ScaledOffset(v, b, k)).y < v.NdcToPx(ScaledOffset(v, a, k)).y
    ensures a.x < b.x ==> v.NdcToPx(ScaledOffset(v, a, k)).x < v.NdcToPx(ScaledOffset(v, b, k)).x
  {
    var c := k * (v.width as real / 2.0);
    StrictScale(0.0, k, v.width as real / 2.0);
    ScaledPx(v, a, k);
    ScaledPx(v, b, k);
    if a.y < b.y {
      StrictScale(v.center.y - b.y, v.center.y - a.y, c);
    }
    if a.x < b.x {
      StrictScale(a.x - v.center.x, b.x - v.center.x, c);
    }
  }

  /** World y points up and pixel y points down: with a positive span and a
      width, a point higher in the world is drawn higher on the screen, and
      horizontal order is kept, by the source's map and the corrected one. */
  lemma WorldToPxOrientation(v: Viewport, a: Vec2, b: Vec2)
    requires 0.0 < v.unitsPerVw && v.width > 0
    ensures a.y < b.y ==> v.WorldToPx(b).y < v.WorldToPx(a).y
    ensures a.x < b.x ==> v.WorldToPx(a).x < v.WorldToPx(b).x
    ensures a.y < b.y ==> v.WorldToPxCorrected(b).y < v.WorldToPxCorrected(a).y
    ensures a.x < b.x ==> v.WorldToPxCorrected(a).x < v.WorldToPxCorrected(b).x
  {
    WorldToNdcOffset(v, a);
    WorldToNdcOffset(v, b);
    OrientationAtScale(v, a, b, 1.0 / (2.0 * v.unitsPerVw));
    WorldToNdcCorrectedOffset(v, a);
    WorldToNdcCorrectedOffset(v, b);
    OrientationAtScale(v, a, b, 2.0 / v.unitsPerVw);
  }

  /** The world point half a span to the right of the centre, where the
      right edge of the visible world is meant to be. */
  function RightEdge(v: Viewport): Vec2
  {
    v.center.Add(Vec2(v.unitsPerVw / 2.0, 0.0))
  }

  /** The world point half a span to the left of the centre. */
  function LeftEdge(v: Viewport): Vec2
  {
    v.center.Sub(Vec2(v.unitsPerVw / 2.0, 0.0))
  }

  /** As written, the right edge of the span is drawn five eighths of the
      way across the window and the left edge three eighths: only the
      middle quarter of the window shows the span the grid is drawn over. */
  lemma AsWrittenSpanCoversMiddleQuarter(v: Viewport)
    requires v.unitsPerVw != 0.0
    ensures v.WorldToPx(RightEdge(v)).x == 5.0 * v.width as real / 8.0
    ensures v.WorldToPx(LeftEdge(v)).x == 3.0 * v.width as real / 8.0
    ensures v.width > 0 ==> v.WorldToPx(RightEdge(v)).x != v.width as real
  {
    var u := v.unitsPerVw;
    WorldToNdcOffset(v, RightEdge(v));
    WorldToNdcOffset(v, LeftEdge(v));
    assert RightEdge(v).x - v.center.x == u / 2.0;
    assert LeftEdge(v).x - v.center.x == -(u / 2.0);
    assert (u / 2.0) / (2.0 * u) == 0.25;
    assert -(u / 2.0) / (2.0 * u) == -0.25;
  }

  /** With the corrected map the span `center.x ± units_per_vw / 2` fills
      the window's width exactly. */
  lemma SpanFillsWidth(v: Viewport)
    requires v.unitsPerVw != 0.0
    ensures v.WorldToPxCorrected(RightEdge(v)).x == v.width as real
    ensures v.WorldToPxCorrected(LeftEdge(v)).x == 0.0
  {
    var u := v.unitsPerVw;
    WorldToNdcCorrectedOffset(v, RightEdge(v));
    WorldToNdcCorrectedOffset(v, LeftEdge(v));
    assert RightEdge(v).x - v.center.x == u / 2.0;
    assert LeftEdge(v).x - v.center.x == -(u / 2.0);
    assert (u / 2.0) * (2.0 / u) == 1.0;
    assert -(u / 2.0) * (2.0 / u) == -1.0;
    NdcEdges(v, v.WorldToNdcCorrected(RightEdge(v)).y);
    NdcEdges(v, v.WorldToNdcCorrected(LeftEdge(v)).y);
  }

  /** Moving a world point by `d` to the right (or up) moves its drawing at
      scale `k` by `d * k * width / 2` pixels to the right (or up). */
  lemma ShiftAtScale(v: Viewport, p: Vec2, k: real, d: real)
    ensures v.NdcToPx(ScaledOffset(v, p.Add(Vec2(d, 0.0)), k)).x
         == v.NdcToPx(ScaledOffset(v, p, k)).x + d * k * (v.width as real / 2.0)
    ensures v.NdcToPx(ScaledOffset(v, p.Add(Vec2(0.0, d)), k)).y
         == v.NdcToPx(ScaledOffset(v, p, k)).y - d * k * (v.width as real / 2.0)
  {
    NdcToPxAffine(v, ScaledOffset(v, p, k));
    NdcToPxAffine(v, ScaledOffset(v, p.Add(Vec2(d, 0.0)), k));
    NdcToPxAffine(v, ScaledOffset(v, p.Add(Vec2(0.0, d)), k));
  }

  /** As written, moving a world point by `units_per_vw / width` (the
      camera's "units per pixel") moves its drawing by only a quarter of a
      pixel, right or up. */
  lemma QuarterPixelPerStep(v: Viewport, p: Vec2)
    requires v.unitsPerVw != 0.0 && v.width > 0
    ensures v.WorldToPx(p.Add(Vec2(v.unitsPerVw / v.width as real, 0.0))).x == v.WorldToPx(p).x + 0.25
    ensures v.WorldToPx(p.Add(Vec2(0.0, v.unitsPerVw / v.width as real))).y == v.WorldToPx(p).y - 0.25
  {
    var u := v.unitsPerVw;
    var w := v.width as real;
    var step := u / w;
    var k := 1.0 / (2.0 * u);
    WorldToNdcOffset(v, p);
    WorldToNdcOffset(v, p.Add(Vec2(step, 0.0)));
    WorldToNdcOffset(v, p.Add(Vec2(0.0, step)));
    ShiftAtScale(v, p, k, step);
    assert step * k * (w / 2.0) == 0.25;
  }

  /** With the corrected map, the same step moves the drawing by exactly
      one pixel, right or up. */
  lemma UnitsPerPixel(v: Viewport, p: Vec2)
    requires v.unitsPerVw != 0.0 && v.width > 0
    ensures v.WorldToPxCorrected(p.Add(Vec2(v.unitsPerVw / v.width as real, 0.0))).x == v.WorldToPxCorrected(p).x + 1.0
    ensures v.WorldToPxCorrected(p.Add(Vec2(0.0, v.unitsPerVw / v.width as real))).y == v.WorldToPxCorrected(p).y - 1.0
  {
    var u := v.unitsPerVw;
    var w := v.width as real;
    var step := u / w;
    var k := 2.0 / u;
    WorldToNdcCorrectedOffset(v, p);
    WorldToNdcCorrectedOffset(v, p.Add(Vec2(step, 0.0)));
    WorldToNdcCorrectedOffset(v, p.Add(Vec2(0.0, step)));
    ShiftAtScale(v, p, k, step);
    assert step * k * (w / 2.0) == 1.0;
  }
}
