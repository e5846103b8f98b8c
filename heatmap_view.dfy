/**
 * The standalone heatmap view of static/backbone-heatmap.js: the viewport it
 * shows, the wheel accumulator and the debounced pan and zoom callbacks of
 * `setUp`, the requests of `progressivelyRender`, and painting with
 * `clearCanvas` and `_render`. A debounced callback is modelled as a pending
 * slot that each call overwrites and a flush method that runs the trailing
 * call; the 300 ms timer itself is not modelled.
 */
module HeatmapView {
  import opened Wrappers
  import opened Values
  import opened Colors
  import opened Geometry
  import opened Canvas
  import opened Gestures

  /** A viewport object literal whose fields `_constrainViewport` overwrites. */
  class ViewportRecord {
    var start1: real
    var stop1: real
    var start2: real
    var stop2: real

    function Value(): Viewport
      reads this
    {
      Viewport(start1, stop1, start2, stop2)
    }

    constructor(vp: Viewport)
      ensures Value() == vp
    {
      start1 := vp.start1;
      stop1 := vp.stop1;
      start2 := vp.start2;
      stop2 := vp.stop2;
    }

    /** `_constrainViewport`: both starts clamped in place against the
        header, both stops rewritten one span after their starts. */
    method Constrain(h: Header)
      modifies this
      ensures Value() == ConstrainViewport(old(Value()), h)
    {
      var sequenceWidth := stop1 - start1;
      var sequenceHeight := stop2 - start2;
      start1 := if start1 > h.start then start1 else h.start;
      start1 := if start1 < h.stop - sequenceWidth then start1 else h.stop - sequenceWidth;
      stop1 := start1 + sequenceWidth;

      start2 := if start2 > h.start then start2 else h.start;
      start2 := if start2 < h.stop - sequenceHeight then start2 else h.stop - sequenceHeight;
      stop2 := start2 + sequenceHeight;
    }
  }

  /** The colour text the view is modelled with: six hex digits, with or
      without a leading character, the form the defaults use. Shorthand
      colours, which the ramp also accepts, are outside the model. */
  predicate RampColorText(s: string) {
    (|s| == 6 || |s| == 7) && Parsable(s)
  }

  /** The render configuration's default colours and canvas size. */
  const DefaultMinColor: string := "000000"
  const DefaultMaxColor: string := "ffffff"
  const DefaultCanvas: CanvasSize := CanvasSize(320, 320)

  lemma DefaultsRenderable()
    ensures RampColorText(DefaultMinColor) && RampColorText(DefaultMaxColor)
    ensures NonEmptyCanvas(DefaultCanvas)
  {
  }

  /** The ramp of `_render`: the configured colours over the header's score range. */
  function HeatmapRamp(minColor: string, maxColor: string, h: Header): (r: LinearRamp)
    requires RampColorText(minColor) && RampColorText(maxColor) && h.minscore != h.maxscore
    ensures ValidRamp(r) && r.startValue == h.minscore && r.endValue == h.maxscore
    ensures r.startColor == NewColor(Text(minColor), None) && r.endColor == NewColor(Text(maxColor), None)
    ensures r.startColor.alpha == 1.0 && r.endColor.alpha == 1.0
  {
    NewLinearRamp(Text(minColor), Text(maxColor), h.minscore, h.maxscore)
  }

  /** The fills `_render` makes for a list of cells, in order: each cell's
      pixel rectangle in the colour the ramp gives its score. */
  function CellFills(data: seq<Cell>, ramp: LinearRamp, vp: Viewport, c: CanvasSize): (fs: seq<Fill>)
    requires ValidRamp(ramp) && vp.Width() != 0.0 && vp.Height() != 0.0
    ensures |fs| == |data|
    ensures forall i :: 0 <= i < |data| ==>
      fs[i].rect == CellRect(data[i], vp, c) && fs[i].color == MapValue(ramp, data[i].value)
  {
    seq(|data|, i requires 0 <= i < |data| => Fill(CellRect(data[i], vp, c), MapValue(ramp, data[i].value)))
  }

  /** The fills of cells under a ramp of opaque colours are all `#rrggbb`. */
  lemma OpaqueRampFillsAreHex(data: seq<Cell>, ramp: LinearRamp, vp: Viewport, c: CanvasSize)
    requires ValidRamp(ramp) && vp.Width() != 0.0 && vp.Height() != 0.0
    requires ramp.startColor.alpha == 1.0 && ramp.endColor.alpha == 1.0
    ensures forall i :: 0 <= i < |data| ==>
      CellFills(data, ramp, vp, c)[i].color.HexCss? && |CellFills(data, ramp, vp, c)[i].color.text| == 7
  {
  }

  /** A horizontal drag of `px` pixels on a 320-pixel canvas showing 1000
      bases, inside a 0..5000 header, moves the view back `bases` bases. */
  lemma PanBy(px: real, bases: real, vp: Viewport)
    requires px / 320.0 * 1000.0 == bases && bases == bases.Floor as real
    requires vp.Width() == 1000.0 && vp.Height() == 1000.0
    requires 0.0 <= vp.start1 - bases && vp.stop1 - bases <= 5000.0
    requires 0.0 <= vp.start2 && vp.stop2 <= 5000.0
    ensures PanViewport(Point(px, 0.0), vp, CanvasSize(320, 320), Header(0.0, 5000.0, 0.0, 1.0))
         == Viewport(vp.start1 - bases, vp.stop1 - bases, vp.start2, vp.stop2)
  {
    var c := CanvasSize(320, 320);
    var sd := SequenceDelta(Point(px, 0.0), vp, c);
    assert sd.x.Floor == bases.Floor;
    assert sd == Point(bases, 0.0);
  }

  /** The deltas of one drag are measured from mousedown, and each pause
      applies the whole delta again: on a 320-pixel canvas showing 1000
      bases, a drag of 64 pixels with a pause at 32 moves the view 300
      bases, where one flush at the end moves it the 200 bases the pointer
      travelled. */
  lemma PausedDragPansTwice(vp: Viewport)
    requires vp.Width() == 1000.0 && vp.Height() == 1000.0
    requires 300.0 <= vp.start1 && vp.stop1 <= 5000.0
    requires 0.0 <= vp.start2 && vp.stop2 <= 5000.0
    ensures var c := CanvasSize(320, 320);
            var h := Header(0.0, 5000.0, 0.0, 1.0);
            PanViewport(Point(64.0, 0.0), PanViewport(Point(32.0, 0.0), vp, c, h), c, h)
              == Viewport(vp.start1 - 300.0, vp.stop1 - 300.0, vp.start2, vp.stop2) &&
            PanViewport(Point(64.0, 0.0), vp, c, h)
              == Viewport(vp.start1 - 200.0, vp.stop1 - 200.0, vp.start2, vp.stop2)
  {
    PanBy(32.0, 100.0, vp);
    var mid := Viewport(vp.start1 - 100.0, vp.stop1 - 100.0, vp.start2, vp.stop2);
    PanBy(64.0, 200.0, mid);
    PanBy(64.0, 200.0, vp);
  }

  /** The handler as written never moves the view; the corrected one does:
      a drag of 32 pixels on a 320-pixel canvas showing 1000..2000 of a
      0..5000 chromosome moves it to 900..1900. */
  lemma PanMovesView(vp: Viewport)
    requires vp == Viewport(1000.0, 2000.0, 1000.0, 2000.0)
    ensures PanViewport(Point(32.0, 0.0), vp, CanvasSize(320, 320), Header(0.0, 5000.0, 0.0, 1.0))
         == Viewport(900.0, 1900.0, 1000.0, 2000.0)
    ensures PanViewport(Point(32.0, 0.0), vp, CanvasSize(320, 320), Header(0.0, 5000.0, 0.0, 1.0)) != vp
  {
    PanBy(32.0, 100.0, vp);
  }

  /** The state `setUp` and the view hold while the page is open. */
  class Visualization {
    /** `start1..stop2` of the provider. */
    var viewport: Viewport
    var chrom1: string
    var chrom2: string
    /** The source's headers, read but never changed by the view. */
    const headers: map<string, Header>
    const canvasSize: CanvasSize
    const minColor: string
    const maxColor: string
    /** The pixels of the canvas element. */
    var canvas: array2<Css>
    /** `wheelZoomAccumulator`: the zoom amounts since the last applied zoom. */
    var wheelZoomAccumulator: real
    /** The arguments of the last call to the debounced zoom load not yet run. */
    var pendingZoom: Option<ZoomData>
    /** The delta of the last call to the debounced pan not yet run. */
    var pendingPan: Option<Point>

    ghost predicate Valid()
      reads this
    {
      NonEmptyCanvas(canvasSize) && RampColorText(minColor) && RampColorText(maxColor)
    }

    constructor(viewport: Viewport, chrom1: string, chrom2: string, headers: map<string, Header>,
                canvasSize: CanvasSize, minColor: string, maxColor: string, canvas: array2<Css>)
      requires NonEmptyCanvas(canvasSize) && RampColorText(minColor) && RampColorText(maxColor)
      ensures Valid()
      ensures this.viewport == viewport && this.chrom1 == chrom1 && this.chrom2 == chrom2
      ensures this.headers == headers && this.canvasSize == canvasSize
      ensures this.minColor == minColor && this.maxColor == maxColor && this.canvas == canvas
      ensures wheelZoomAccumulator == 0.0 && pendingZoom.None? && pendingPan.None?
    {
      this.viewport := viewport;
      this.chrom1 := chrom1;
      this.chrom2 := chrom2;
      this.headers := headers;
      this.canvasSize := canvasSize;
      this.minColor := minColor;
      this.maxColor := maxColor;
      this.canvas := canvas;
      wheelZoomAccumulator := 0.0;
      pendingZoom := None;
      pendingPan := None;
    }

    /** The view's `onzoom`: add the amount to the accumulator and (re)arm
        the debounced load with this event's position. */
    method OnZoom(z: ZoomData)
      modifies this
      ensures wheelZoomAccumulator == old(wheelZoomAccumulator) + z.zoomY
      ensures pendingZoom == Some(z)
      ensures viewport == old(viewport) && pendingPan == old(pendingPan) && canvas == old(canvas)
      ensures chrom1 == old(chrom1) && chrom2 == old(chrom2)
    {
      wheelZoomAccumulator := wheelZoomAccumulator + z.zoomY;
      pendingZoom := Some(z);
    }

    /** The debounced load firing: the viewport zoomed by the accumulated
        level at the last event's position and clamped to the `chrom1`
        header, then the accumulator reset. Without a header the clamp
        throws before either assignment, so only the pending call is spent. */
    method FlushZoom()
      requires Valid()
      modifies this
      ensures Valid() && pendingZoom.None?
      ensures pendingPan == old(pendingPan) && canvas == old(canvas)
      ensures chrom1 == old(chrom1) && chrom2 == old(chrom2)
      ensures old(pendingZoom).None? || CurrentHeader(headers, chrom1).None? ==>
        viewport == old(viewport) && wheelZoomAccumulator == old(wheelZoomAccumulator)
      ensures old(pendingZoom).Some? && CurrentHeader(headers, chrom1).Some? ==>
        viewport == CalcNewViewport(old(pendingZoom).value.at, old(wheelZoomAccumulator), old(viewport),
                                    canvasSize, CurrentHeader(headers, chrom1).value) &&
        wheelZoomAccumulator == 0.0
    {
      var call := pendingZoom;
      pendingZoom := None;
      if call.Some? {
        var header := CurrentHeader(headers, chrom1);
        if header.Some? {
          var record := new ViewportRecord(ZoomTarget(call.value.at, wheelZoomAccumulator, viewport, canvasSize));
          record.Constrain(header.value);
          viewport := record.Value();
          wheelZoomAccumulator := 0.0;
        }
      }
    }

    /** The view's debounced `onpan` being called: only the last delta is kept. */
    method OnPan(delta: Point)
      modifies this
      ensures pendingPan == Some(delta)
      ensures viewport == old(viewport) && pendingZoom == old(pendingZoom) && canvas == old(canvas)
      ensures wheelZoomAccumulator == old(wheelZoomAccumulator)
      ensures chrom1 == old(chrom1) && chrom2 == old(chrom2)
    {
      pendingPan := Some(delta);
    }

    /** The debounced pan firing: the viewport shifted back by the last
        delta's sequence distance and clamped to the `chrom1` header. */
    method FlushPan()
      requires Valid()
      modifies this
      ensures Valid() && pendingPan.None?
      ensures pendingZoom == old(pendingZoom) && canvas == old(canvas)
      ensures wheelZoomAccumulator == old(wheelZoomAccumulator)
      ensures chrom1 == old(chrom1) && chrom2 == old(chrom2)
      ensures old(pendingPan).None? || CurrentHeader(headers, chrom1).None? ==> viewport == old(viewport)
      ensures old(pendingPan).Some? && CurrentHeader(headers, chrom1).Some? ==>
        viewport == PanViewport(old(pendingPan).value, old(viewport), canvasSize, CurrentHeader(headers, chrom1).value)
    {
      var call := pendingPan;
      pendingPan := None;
      if call.Some? {
        var header := CurrentHeader(headers, chrom1);
        if header.Some? {
          viewport := PanViewport(call.value, viewport, canvasSize, header.value);
        }
      }
    }

    /** The debounced pan firing as the source writes it: the clamp reads
        `header`, which the handler never declares (its declaration is
        commented out), so the call throws before `model.set` and the
        viewport stays where it was; only the pending call is spent. */
    method FlushPanAsWritten()
      requires Valid()
      modifies this
      ensures Valid() && pendingPan.None?
      ensures viewport == old(viewport) && pendingZoom == old(pendingZoom) && canvas == old(canvas)
      ensures wheelZoomAccumulator == old(wheelZoomAccumulator)
      ensures chrom1 == old(chrom1) && chrom2 == old(chrom2)
    {
      pendingPan := None;
    }

    /** The resolution pairs `progressivelyRender` fetches with, in issue
        order: one per blur factor, coarse to fine, then the full canvas width. */
    method ProgressiveRequests() returns (requests: seq<ResolutionPair>)
      ensures |requests| == |BlurFactors| + 1
      ensures forall i :: 0 <= i < |requests| ==>
        requests[i] == CalcResolution(viewport, Some(ResolutionLadder(canvasSize.width as real)[i]))
    {
      var canvasWidth := canvasSize.width as real;
      ghost var ladder := ResolutionLadder(canvasWidth);
      requests := [];
      var k := 0;
      while k < |BlurFactors|
        invariant 0 <= k <= |BlurFactors| && |requests| == k
        invariant forall i :: 0 <= i < k ==> requests[i] == CalcResolution(viewport, Some(ladder[i]))
      {
        var resolution := (canvasWidth * BlurFactors[k]).Floor as real;
        assert resolution == ladder[k];
        requests := requests + [CalcResolution(viewport, Some(resolution))];
        k := k + 1;
      }
      requests := requests + [CalcResolution(viewport, Some(canvasWidth))];
    }

    /** `_render`: each cell filled, in order, in its pixel rectangle with the
        colour of its score. Without a header the ramp cannot be built and
        nothing is painted. */
    method RenderLayer(data: seq<Cell>)
      requires Valid()
      requires CurrentHeader(headers, chrom1).Some? ==>
        CurrentHeader(headers, chrom1).value.minscore != CurrentHeader(headers, chrom1).value.maxscore &&
        viewport.Width() != 0.0 && viewport.Height() != 0.0
      modifies canvas
      ensures CurrentHeader(headers, chrom1).None? ==>
        forall x, y :: 0 <= x < canvas.Length0 && 0 <= y < canvas.Length1 ==> canvas[x, y] == old(canvas[x, y])
      ensures CurrentHeader(headers, chrom1).Some? ==>
        var fills := CellFills(data, HeatmapRamp(minColor, maxColor, CurrentHeader(headers, chrom1).value), viewport, canvasSize);
        forall x, y :: 0 <= x < canvas.Length0 && 0 <= y < canvas.Length1 ==>
          canvas[x, y] == Painted(fills, x, y, old(canvas[x, y]))
    {
      var header := CurrentHeader(headers, chrom1);
      if header.Some? {
        var gradient := HeatmapRamp(minColor, maxColor, header.value);
        PaintAll(canvas, CellFills(data, gradient, viewport, canvasSize));
      }
    }

    /** `clearCanvas`: a fresh canvas of the configured size, all grey. */
    method ClearCanvas()
      modifies this
      ensures fresh(canvas) && canvas.Length0 == canvasSize.width && canvas.Length1 == canvasSize.height
      ensures forall x, y :: 0 <= x < canvas.Length0 && 0 <= y < canvas.Length1 ==> canvas[x, y] == ClearColor
      ensures viewport == old(viewport) && chrom1 == old(chrom1) && chrom2 == old(chrom2)
      ensures wheelZoomAccumulator == old(wheelZoomAccumulator)
      ensures pendingZoom == old(pendingZoom) && pendingPan == old(pendingPan)
    {
      canvas := ClearedCanvas(canvasSize.width, canvasSize.height);
    }

    /** `render`: clear, then paint the cells over the grey background. */
    method Render(data: seq<Cell>)
      requires Valid()
      requires CurrentHeader(headers, chrom1).Some? ==>
        CurrentHeader(headers, chrom1).value.minscore != CurrentHeader(headers, chrom1).value.maxscore &&
        viewport.Width() != 0.0 && viewport.Height() != 0.0
      modifies this
      ensures fresh(canvas) && canvas.Length0 == canvasSize.width && canvas.Length1 == canvasSize.height
      ensures viewport == old(viewport) && chrom1 == old(chrom1) && chrom2 == old(chrom2)
      ensures wheelZoomAccumulator == old(wheelZoomAccumulator)
      ensures pendingZoom == old(pendingZoom) && pendingPan == old(pendingPan)
      ensures CurrentHeader(headers, chrom1).None? ==>
        forall x, y :: 0 <= x < canvas.Length0 && 0 <= y < canvas.Length1 ==> canvas[x, y] == ClearColor
      ensures CurrentHeader(headers, chrom1).Some? ==>
        var fills := CellFills(data, HeatmapRamp(minColor, maxColor, CurrentHeader(headers, chrom1).value), viewport, canvasSize);
        forall x, y :: 0 <= x < canvas.Length0 && 0 <= y < canvas.Length1 ==>
          canvas[x, y] == Painted(fills, x, y, ClearColor)
    {
      ClearCanvas();
      RenderLayer(data);
    }
  }
}
