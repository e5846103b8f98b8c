/**
 * The coordinate arithmetic of the standalone heatmap view
 * (static/backbone-heatmap.js): canvas pixels to sequence coordinates,
 * zoom recentring, clamping a viewport to the chromosome's header, the pan
 * translation, the resolution pair sent with a fetch, the resolution ladder
 * of progressive rendering, and the pixel rectangle a data cell is painted in.
 * Coordinates are exact reals; `Math.floor` is `.Floor`.
 */
module Geometry {
  import opened Wrappers
  import opened Values
  import opened RealArith

  /** The displayed region: `start1..stop1` on the first chromosome (x),
      `start2..stop2` on the second (y). */
  datatype Viewport = Viewport(start1: real, stop1: real, start2: real, stop2: real) {
    function Width(): real { stop1 - start1 }
    function Height(): real { stop2 - start2 }
  }

  /** The metadata of one chromosome. */
  datatype Header = Header(start: real, stop: real, minscore: real, maxscore: real)

  /** `canvasWidth` and `canvasHeight` of the render configuration. */
  datatype CanvasSize = CanvasSize(width: nat, height: nat)

  predicate NonEmptyCanvas(c: CanvasSize) {
    c.width > 0 && c.height > 0
  }

  /** The sequence span one unit of zoom level removes from each axis. */
  const ZoomScale: real := 1000.0

  /** `currentHeader`: the header of the chromosome named by `chrom1`. */
  function CurrentHeader(headers: map<string, Header>, chrom1: string): (h: Option<Header>)
    ensures h.Some? <==> chrom1 in headers
    ensures h.Some? ==> h.value == headers[chrom1]
  {
    if chrom1 in headers then Some(headers[chrom1]) else None
  }

  // ---------------------------------------------------------------------------
  // Pixels to sequence coordinates

  /** `(a / w) * s`, multiplied back by `w`, is `a * s`. */
  lemma ScaleBack(a: real, w: real, s: real)
    requires w != 0.0
    ensures a / w * s * w == a * s
  {
    var q := a / w;
    assert q * w == a;
    calc {
      q * s * w;
      == q * w * s;
      == a * s;
    }
  }

  /** `_mouseToSequenceCoords`: each axis scaled by its own span over the
      canvas size, so the canvas edges land on the viewport's edges. */
  function MouseToSequenceCoords(p: Point, vp: Viewport, c: CanvasSize): (s: Point)
    requires NonEmptyCanvas(c)
    ensures p.x == 0.0 ==> s.x == vp.start1
    ensures p.x == c.width as real ==> s.x == vp.stop1
    ensures p.y == 0.0 ==> s.y == vp.start2
    ensures p.y == c.height as real ==> s.y == vp.stop2
    ensures (s.x - vp.start1) * c.width as real == p.x * vp.Width()
    ensures (s.y - vp.start2) * c.height as real == p.y * vp.Height()
  {
    var w := c.width as real;
    var h := c.height as real;
    ScaleBack(p.x, w, vp.Width());
    ScaleBack(p.y, h, vp.Height());
    assert p.x == w ==> p.x / w == 1.0 by { DivSelf(w); }
    assert p.y == h ==> p.y / h == 1.0 by { DivSelf(h); }
    Point(vp.start1 + p.x / w * vp.Width(), vp.start2 + p.y / h * vp.Height())
  }

  /** The x coordinate depends only on the pixel x, the first axis and the
      canvas width; the y coordinate only on the pixel y, the second axis and
      the canvas height. */
  lemma AxesScaleIndependently(p: Point, q: Point, vp: Viewport, wp: Viewport, c: CanvasSize, d: CanvasSize)
    requires NonEmptyCanvas(c) && NonEmptyCanvas(d)
    ensures p.x == q.x && vp.start1 == wp.start1 && vp.stop1 == wp.stop1 && c.width == d.width ==>
      MouseToSequenceCoords(p, vp, c).x == MouseToSequenceCoords(q, wp, d).x
    ensures p.y == q.y && vp.start2 == wp.start2 && vp.stop2 == wp.stop2 && c.height == d.height ==>
      MouseToSequenceCoords(p, vp, c).y == MouseToSequenceCoords(q, wp, d).y
  {
  }

  // ---------------------------------------------------------------------------
  // Clamping to the header

  /** Both axes of `vp` lie within the header's range. */
  predicate Inside(vp: Viewport, h: Header) {
    h.start <= vp.start1 && vp.stop1 <= h.stop && h.start <= vp.start2 && vp.stop2 <= h.stop
  }

  /** `Math.min(Math.max(start, header.start), header.stop - span)`: the start
      moved up to the header start, then down so the span ends by the header stop. */
  function ClampStart(start: real, span: real, h: Header): (s: real)
    ensures s + span <= h.stop
    ensures span <= h.stop - h.start ==> h.start <= s
    ensures h.start <= start && start + span <= h.stop ==> s == start
    ensures start < h.start && span <= h.stop - h.start ==> s == h.start
    ensures start + span > h.stop ==> s == h.stop - span
  {
    var raised := if start > h.start then start else h.start;
    if raised < h.stop - span then raised else h.stop - span
  }

  /** `_constrainViewport`: each axis keeps its span and is shifted into the
      header of `chrom1` (the same header for both axes). */
  function ConstrainViewport(vp: Viewport, h: Header): (r: Viewport)
    ensures r.Width() == vp.Width() && r.Height() == vp.Height()
    ensures r.stop1 <= h.stop && r.stop2 <= h.stop
    ensures vp.Width() <= h.stop - h.start ==> h.start <= r.start1
    ensures vp.Height() <= h.stop - h.start ==> h.start <= r.start2
    ensures Inside(vp, h) ==> r == vp
    ensures vp.Width() <= h.stop - h.start && vp.Height() <= h.stop - h.start ==> Inside(r, h)
  {
    var s1 := ClampStart(vp.start1, vp.Width(), h);
    var s2 := ClampStart(vp.start2, vp.Height(), h);
    Viewport(s1, s1 + vp.Width(), s2, s2 + vp.Height())
  }

  /** Clamping a clamped viewport changes nothing, even when the span is
      wider than the header and the result starts before the header. */
  lemma ConstrainIdempotent(vp: Viewport, h: Header)
    ensures ConstrainViewport(ConstrainViewport(vp, h), h) == ConstrainViewport(vp, h)
  {
    var r := ConstrainViewport(vp, h);
    assert ClampStart(r.start1, r.Width(), h) == r.start1;
    assert ClampStart(r.start2, r.Height(), h) == r.start2;
  }

  // ---------------------------------------------------------------------------
  // Zoom

  /** The viewport `_calcNewViewport` builds before clamping: each span
      shrunk by `zoomLevel * 1000` and the start floored so that the new
      midpoint sits at most one unit below the pointer's sequence position. */
  function ZoomTarget(at: Point, zoomLevel: real, vp: Viewport, c: CanvasSize): (t: Viewport)
    requires NonEmptyCanvas(c)
    ensures t.Width() == vp.Width() - zoomLevel * ZoomScale
    ensures t.Height() == vp.Height() - zoomLevel * ZoomScale
    ensures t.start1 == t.start1.Floor as real && t.start2 == t.start2.Floor as real
    ensures var m := MouseToSequenceCoords(at, vp, c);
      t.start1 + t.Width() / 2.0 <= m.x < t.start1 + t.Width() / 2.0 + 1.0 &&
      t.start2 + t.Height() / 2.0 <= m.y < t.start2 + t.Height() / 2.0 + 1.0
  {
    var newWidth := vp.Width() - zoomLevel * ZoomScale;
    var newHeight := vp.Height() - zoomLevel * ZoomScale;
    var m := MouseToSequenceCoords(at, vp, c);
    var newStart1 := (m.x - newWidth / 2.0).Floor as real;
    var newStart2 := (m.y - newHeight / 2.0).Floor as real;
    Viewport(newStart1, newStart1 + newWidth, newStart2, newStart2 + newHeight)
  }

  /** `_calcNewViewport`: the zoom target clamped to the header. Zoom level 0
      keeps both spans; a positive level narrows them, a negative one widens. */
  function CalcNewViewport(at: Point, zoomLevel: real, vp: Viewport, c: CanvasSize, h: Header): (r: Viewport)
    requires NonEmptyCanvas(c)
    ensures r.Width() == vp.Width() - zoomLevel * ZoomScale
    ensures r.Height() == vp.Height() - zoomLevel * ZoomScale
    ensures r.stop1 <= h.stop && r.stop2 <= h.stop
    ensures r.Width() <= h.stop - h.start ==> h.start <= r.start1
    ensures r.Height() <= h.stop - h.start ==> h.start <= r.start2
    ensures Inside(ZoomTarget(at, zoomLevel, vp, c), h) ==> r == ZoomTarget(at, zoomLevel, vp, c)
  {
    ConstrainViewport(ZoomTarget(at, zoomLevel, vp, c), h)
  }

  /** Zooming out by two levels at the centre of a 320x320 canvas showing
      0..1000 of a 0..5000 chromosome widens both axes to 3000 units, which
      the clamp shifts to start at 0. */
  lemma ZoomOutAtCentre()
    ensures CalcNewViewport(Point(160.0, 160.0), -2.0, Viewport(0.0, 1000.0, 0.0, 1000.0),
                            CanvasSize(320, 320), Header(0.0, 5000.0, 0.0, 1.0))
         == Viewport(0.0, 3000.0, 0.0, 3000.0)
  {
    var vp := Viewport(0.0, 1000.0, 0.0, 1000.0);
    var c := CanvasSize(320, 320);
    var m := MouseToSequenceCoords(Point(160.0, 160.0), vp, c);
    assert m == Point(500.0, 500.0);
    var t := ZoomTarget(Point(160.0, 160.0), -2.0, vp, c);
    assert t == Viewport(-1000.0, 2000.0, -1000.0, 2000.0);
  }

  // ---------------------------------------------------------------------------
  // Pan

  /** The sequence distance of a pixel delta: `Math.floor(delta / canvas * span)`
      per axis, the whole number of sequence units at or below the exact share
      of the span the delta covers. */
  function SequenceDelta(delta: Point, vp: Viewport, c: CanvasSize): (sd: Point)
    requires NonEmptyCanvas(c)
    ensures sd.x == sd.x.Floor as real && sd.y == sd.y.Floor as real
    ensures sd.x <= delta.x / c.width as real * vp.Width() < sd.x + 1.0
    ensures sd.y <= delta.y / c.height as real * vp.Height() < sd.y + 1.0
    ensures delta.x == 0.0 ==> sd.x == 0.0
    ensures delta.y == 0.0 ==> sd.y == 0.0
  {
    var ex := delta.x / c.width as real * vp.Width();
    var ey := delta.y / c.height as real * vp.Height();
    Point(ex.Floor as real, ey.Floor as real)
  }

  /** Both axes moved back by the given sequence distances. */
  function Translate(vp: Viewport, sd: Point): (r: Viewport)
    ensures r.Width() == vp.Width() && r.Height() == vp.Height()
    ensures r.start1 + sd.x == vp.start1 && r.start2 + sd.y == vp.start2
  {
    Viewport(vp.start1 - sd.x, vp.stop1 - sd.x, vp.start2 - sd.y, vp.stop2 - sd.y)
  }

  /** The body of the view's `onpan`: each start moved back by its sequence
      delta, raised to the header start, lowered so the span ends by the
      header stop, and the stop placed one span after it. This is the
      translated viewport put through `_constrainViewport`. */
  function PanViewport(delta: Point, vp: Viewport, c: CanvasSize, h: Header): (r: Viewport)
    requires NonEmptyCanvas(c)
    ensures r == ConstrainViewport(Translate(vp, SequenceDelta(delta, vp, c)), h)
    ensures r.Width() == vp.Width() && r.Height() == vp.Height()
    ensures delta == Point(0.0, 0.0) && Inside(vp, h) ==> r == vp
  {
    var sd := SequenceDelta(delta, vp, c);
    var width := vp.stop1 - vp.start1;
    var height := vp.stop2 - vp.start2;
    var start1 := if vp.start1 - sd.x > h.start then vp.start1 - sd.x else h.start;
    var start1' := if start1 < h.stop - width then start1 else h.stop - width;
    var start2 := if vp.start2 - sd.y > h.start then vp.start2 - sd.y else h.start;
    var start2' := if start2 < h.stop - height then start2 else h.stop - height;
    Viewport(start1', start1' + width, start2', start2' + height)
  }

  // ---------------------------------------------------------------------------
  // Resolutions

  /** The two fetch parameters `_calcResolution` computes. */
  datatype ResolutionPair = ResolutionPair(minResolution: real, maxResolution: int)

  /** The resolution used when the options give none. */
  const DefaultResolution: real := 100.0

  /** `options.resolution || DEFAULT_RESOLUTION`: an absent or zero
      resolution is replaced by the default. */
  function EffectiveResolution(requested: Option<real>): (r: real)
    ensures requested.None? ==> r == DefaultResolution
    ensures requested == Some(0.0) ==> r == DefaultResolution
    ensures requested.Some? && requested.value != 0.0 ==> r == requested.value
    ensures r != 0.0
  {
    match requested
    case Some(v) => if v != 0.0 then v else DefaultResolution
    case None => DefaultResolution
  }

  /** `_calcResolution`: the first axis's span plus one, and the number of
      whole steps of the requested resolution that fit in the span. */
  function CalcResolution(vp: Viewport, requested: Option<real>): (p: ResolutionPair)
    ensures p.minResolution == vp.Width() + 1.0
    ensures p.maxResolution as real <= vp.Width() / EffectiveResolution(requested) < p.maxResolution as real + 1.0
  {
    var minResolution := vp.stop1 - vp.start1 + 1.0;
    var maxResolution := ((minResolution - 1.0) / EffectiveResolution(requested)).Floor;
    ResolutionPair(minResolution, maxResolution)
  }

  /** The fractions of the canvas width requested before the full one. */
  const BlurFactors: seq<real> := [0.1, 0.2, 0.5]

  /** The resolutions `progressivelyRender` fetches, in issue order: the
      canvas size times each blur factor, floored, then the canvas size. For
      a non-negative size they go from coarse to fine and end at the size. */
  function ResolutionLadder(canvasSize: real): (l: seq<real>)
    ensures |l| == |BlurFactors| + 1 && l[|BlurFactors|] == canvasSize
    ensures canvasSize >= 0.0 ==> 0.0 <= l[0] && forall i :: 0 <= i < |BlurFactors| ==> l[i] <= l[i + 1]
  {
    seq(|BlurFactors|, i requires 0 <= i < |BlurFactors| => (canvasSize * BlurFactors[i]).Floor as real) + [canvasSize]
  }

  /** Each rung before the last is the canvas size times its blur factor,
      rounded down to a whole number. */
  lemma LadderRungsAreFloors(canvasSize: real)
    ensures forall i :: 0 <= i < |BlurFactors| ==>
      ResolutionLadder(canvasSize)[i] == ResolutionLadder(canvasSize)[i].Floor as real &&
      ResolutionLadder(canvasSize)[i] <= canvasSize * BlurFactors[i] < ResolutionLadder(canvasSize)[i] + 1.0
  {
  }

  lemma LadderOfDefaultCanvas()
    ensures ResolutionLadder(320.0) == [32.0, 64.0, 160.0, 320.0]
  {
    assert (320.0 * 0.1).Floor == 32 && (320.0 * 0.2).Floor == 64 && (320.0 * 0.5).Floor == 160;
  }

  // ---------------------------------------------------------------------------
  // Data cells to pixel rectangles

  /** One data point returned by the provider: a rectangle in sequence
      coordinates and its score. */
  datatype Cell = Cell(x1: real, y1: real, x2: real, y2: real, value: real)

  /** A rectangle in canvas pixels, as `fillRect(x, y, w, h)` takes it. */
  datatype PixelRect = PixelRect(x: int, y: int, w: int, h: int)

  /** `Math.floor((g - start) * ratio)`: the pixel a sequence position falls in. */
  function PixelOf(g: real, start: real, ratio: real): (p: int)
    ensures g == start ==> p == 0
    ensures p as real <= (g - start) * ratio < p as real + 1.0
  {
    assert g == start ==> (g - start) * ratio == 0.0;
    ((g - start) * ratio).Floor
  }

  /** With a non-negative ratio, a later position never falls in an earlier pixel. */
  lemma PixelOfMonotone(a: real, b: real, start: real, ratio: real)
    requires a <= b && ratio >= 0.0
    ensures PixelOf(a, start, ratio) <= PixelOf(b, start, ratio)
  {
    MulNonNegative(b - a, ratio);
    assert (b - start) * ratio - (a - start) * ratio == (b - a) * ratio;
  }

  /** The canvas-per-sequence ratios of `_render`. */
  function RatioX(vp: Viewport, c: CanvasSize): real
    requires vp.Width() != 0.0
  {
    c.width as real / vp.Width()
  }

  function RatioY(vp: Viewport, c: CanvasSize): real
    requires vp.Height() != 0.0
  {
    c.height as real / vp.Height()
  }

  /** The rectangle `_render` fills for a cell: both corners floored to
      pixels, the size the difference of the corners. */
  function CellRect(d: Cell, vp: Viewport, c: CanvasSize): (r: PixelRect)
    requires vp.Width() != 0.0 && vp.Height() != 0.0
    ensures r.x == PixelOf(d.x1, vp.start1, RatioX(vp, c)) && r.y == PixelOf(d.y1, vp.start2, RatioY(vp, c))
    ensures d.x1 == vp.start1 ==> r.x == 0
    ensures d.y1 == vp.start2 ==> r.y == 0
    ensures r.x + r.w == PixelOf(d.x2, vp.start1, RatioX(vp, c))
    ensures r.y + r.h == PixelOf(d.y2, vp.start2, RatioY(vp, c))
    ensures vp.Width() > 0.0 && d.x1 <= d.x2 ==> r.w >= 0
    ensures vp.Height() > 0.0 && d.y1 <= d.y2 ==> r.h >= 0
  {
    var rx := RatioX(vp, c);
    var ry := RatioY(vp, c);
    var x1 := PixelOf(d.x1, vp.start1, rx);
    var y1 := PixelOf(d.y1, vp.start2, ry);
    var x2 := PixelOf(d.x2, vp.start1, rx);
    var y2 := PixelOf(d.y2, vp.start2, ry);
    assert vp.Width() > 0.0 && d.x1 <= d.x2 ==> x1 <= x2 by {
      if vp.Width() > 0.0 && d.x1 <= d.x2 {
        DivNonNegative(c.width as real, vp.Width());
        PixelOfMonotone(d.x1, d.x2, vp.start1, rx);
      }
    }
    assert vp.Height() > 0.0 && d.y1 <= d.y2 ==> y1 <= y2 by {
      if vp.Height() > 0.0 && d.y1 <= d.y2 {
        DivNonNegative(c.height as real, vp.Height());
        PixelOfMonotone(d.y1, d.y2, vp.start2, ry);
      }
    }
    PixelRect(x1, y1, x2 - x1, y2 - y1)
  }

  /** Two cells that share a boundary in sequence coordinates are painted in
      rectangles that share a boundary in pixels: no gap and no overlap. */
  lemma CellsAbut(a: Cell, b: Cell, vp: Viewport, c: CanvasSize)
    requires vp.Width() != 0.0 && vp.Height() != 0.0
    ensures a.x2 == b.x1 ==> CellRect(a, vp, c).x + CellRect(a, vp, c).w == CellRect(b, vp, c).x
    ensures a.y2 == b.y1 ==> CellRect(a, vp, c).y + CellRect(a, vp, c).h == CellRect(b, vp, c).y
  {
  }

  /** `(a / w) * s`, scaled by `w / s`, is `a` again. */
  lemma ScaleCancels(a: real, w: real, s: real)
    requires w != 0.0 && s != 0.0
    ensures a / w * s * (w / s) == a
  {
    var x := a / w;
    var y := w / s;
    assert x * w == a;
    assert x * s * y == x * (s * y);
    assert s * y == w;
  }

  /** The pixel-to-sequence mapping of the mouse handlers and the
      sequence-to-pixel mapping of `_render` are inverse: the sequence
      position of a whole pixel column is painted in that same column. */
  lemma PixelRoundTrip(px: int, vp: Viewport, c: CanvasSize)
    requires NonEmptyCanvas(c) && vp.Width() != 0.0
    ensures PixelOf(MouseToSequenceCoords(Point(px as real, 0.0), vp, c).x, vp.start1, RatioX(vp, c)) == px
  {
    var w := c.width as real;
    var g := MouseToSequenceCoords(Point(px as real, 0.0), vp, c).x;
    assert g - vp.start1 == px as real / w * vp.Width();
    ScaleCancels(px as real, w, vp.Width());
  }
}
