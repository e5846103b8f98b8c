/**
 * The earlier, stand-alone heatmap page of static/multiresolution-heatmap.js:
 * `setUp` fills a configuration object with defaults and wires the gesture
 * handlers so that a pan moves the window's starts and a zoom shrinks or
 * grows the window, each followed by a reload. Unlike the Backbone view it
 * neither floors nor clamps.
 */
module Prototype {
  import opened Wrappers
  import opened Values
  import opened Gestures

  type Config = map<string, Value>

  /** The settings `setUp` fills in where the configuration lacks them. */
  const Defaults: Config := map[
    "start1" := Num(0.0),
    "start2" := Num(0.0),
    "window_size" := Num(100000.0),
    "resolution" := Num(20000.0),
    "canvasWidth" := Num(320.0),
    "canvasHeight" := Num(320.0),
    "minColor" := Str("002288"),
    "maxColor" := Str("ffffff")
  ]

  /** The zoom scale: one unit of wheel zoom is 1000 bases of window. */
  const WindowPerZoom: real := 1000.0

  /** `_.defaults(config, ...)`: every default whose key is missing or
      `undefined` in the configuration is filled in; every other entry stays. */
  function WithDefaults(config: Config): (r: Config)
    ensures r.Keys == config.Keys + Defaults.Keys
    ensures forall k :: k in config && config[k] != Undefined ==> r[k] == config[k]
    ensures forall k :: k in Defaults && Lookup(config, k) == Undefined ==> r[k] == Defaults[k]
    ensures forall k :: k in r && k !in Defaults ==> r[k] == config[k]
  {
    map k | k in config.Keys + Defaults.Keys ::
      if k in Defaults && Lookup(config, k) == Undefined then Defaults[k] else config[k]
  }

  /** Filling in the defaults a second time changes nothing. */
  lemma WithDefaultsIdempotent(config: Config)
    ensures WithDefaults(WithDefaults(config)) == WithDefaults(config)
  {
    var once := WithDefaults(config);
    forall k | k in Defaults
      ensures once[k] != Undefined
    {
      if Lookup(config, k) == Undefined {
        assert once[k] == Defaults[k];
      }
    }
  }

  /** An empty configuration becomes the defaults themselves. */
  lemma EmptyConfigIsDefaults()
    ensures WithDefaults(map[]) == Defaults
  {
  }

  /** The entries the handlers do arithmetic on. */
  predicate NumericSettings(config: Config) {
    (forall k :: k in ["start1", "start2", "window_size", "canvasWidth", "canvasHeight"] ==>
       k in config && config[k].Num?) &&
    config["canvasWidth"].n != 0.0 && config["canvasHeight"].n != 0.0
  }

  /** The defaults alone satisfy the arithmetic the handlers do. */
  lemma DefaultsAreNumeric()
    ensures NumericSettings(WithDefaults(map[]))
  {
    EmptyConfigIsDefaults();
  }

  /** The new start after a pan by `delta` pixels on a canvas `extent` pixels
      wide showing `windowSize` bases: the start moves against the drag by
      the dragged fraction of the window. */
  function PanStart(start: real, delta: real, extent: real, windowSize: real): (s: real)
    requires extent != 0.0
    ensures (start - s) * extent == delta * windowSize
  {
    start - delta / extent * windowSize
  }

  /** Panning back by the same delta returns to the start. */
  lemma PanStartUndone(start: real, delta: real, extent: real, windowSize: real)
    requires extent != 0.0
    ensures PanStart(PanStart(start, delta, extent, windowSize), -delta, extent, windowSize) == start
  {
    assert (-delta) / extent == -(delta / extent);
  }

  /** Two pans in a row are one pan by their sum. */
  lemma PanStartComposes(start: real, d1: real, d2: real, extent: real, windowSize: real)
    requires extent != 0.0
    ensures PanStart(PanStart(start, d1, extent, windowSize), d2, extent, windowSize)
         == PanStart(start, d1 + d2, extent, windowSize)
  {
    assert (d1 + d2) / extent == d1 / extent + d2 / extent;
  }

  /** The window after the accumulated wheel zoom is applied. */
  function ZoomWindow(windowSize: real, accumulated: real): (w: real)
    ensures w + accumulated * WindowPerZoom == windowSize
    ensures accumulated > 0.0 ==> w < windowSize
    ensures accumulated < 0.0 ==> w > windowSize
  {
    windowSize - accumulated * WindowPerZoom
  }

  /** Applying two accumulated zooms one after the other is applying their
      sum: the accumulator loses no wheel event. */
  lemma ZoomWindowComposes(windowSize: real, a: real, b: real)
    ensures ZoomWindow(ZoomWindow(windowSize, a), b) == ZoomWindow(windowSize, a + b)
  {
  }

  /** What a `reload` fetches: the window the configuration then describes. */
  datatype Request = Request(start1: real, start2: real, windowSize: real)

  /** The state `setUp` closes over: the configuration object, the wheel zoom
      accumulator, the calls the two debounced functions hold back, and the
      reloads issued so far. */
  class PrototypeHeatmap {
    var config: Config
    var wheelZoomAccumulator: real
    /** Whether the debounced load has a call waiting. */
    var zoomPending: bool
    /** The delta of the last call the debounced pan handler holds back. */
    var pendingPan: Option<Point>
    var requests: seq<Request>

    ghost predicate Valid()
      reads this
    {
      NumericSettings(config)
    }

    /** The window the configuration now describes. */
    function Window(): Request
      requires Valid()
      reads this
    {
      Request(config["start1"].n, config["start2"].n, config["window_size"].n)
    }

    /** `setUp(canvas, config)`. */
    constructor SetUp(config: Config)
      requires NumericSettings(WithDefaults(config))
      ensures Valid() && this.config == WithDefaults(config)
      ensures wheelZoomAccumulator == 0.0 && !zoomPending && pendingPan.None? && requests == []
    {
      this.config := WithDefaults(config);
      wheelZoomAccumulator := 0.0;
      zoomPending := false;
      pendingPan := None;
      requests := [];
    }

    /** `onzoom`: the zoom is added to the accumulator and the debounced
        load is (re)scheduled. */
    method OnZoom(z: ZoomData)
      modifies this
      ensures wheelZoomAccumulator == old(wheelZoomAccumulator) + z.zoomY && zoomPending
      ensures config == old(config) && pendingPan == old(pendingPan) && requests == old(requests)
    {
      wheelZoomAccumulator := wheelZoomAccumulator + z.zoomY;
      zoomPending := true;
    }

    /** The debounced load firing: the accumulated zoom is applied to the
        window, the accumulator is reset, and the page reloads. */
    method FlushZoom()
      requires Valid()
      modifies this
      ensures Valid() && !zoomPending && pendingPan == old(pendingPan)
      ensures !old(zoomPending) ==> config == old(config) && wheelZoomAccumulator == old(wheelZoomAccumulator) && requests == old(requests)
      ensures old(zoomPending) ==>
        config == old(config)["window_size" := Num(ZoomWindow(old(config)["window_size"].n, old(wheelZoomAccumulator)))] &&
        wheelZoomAccumulator == 0.0 && requests == old(requests) + [Window()]
      ensures Window().start1 == old(Window()).start1 && Window().start2 == old(Window()).start2
    {
      if zoomPending {
        config := config["window_size" := Num(ZoomWindow(config["window_size"].n, wheelZoomAccumulator))];
        wheelZoomAccumulator := 0.0;
        requests := requests + [Window()];
        zoomPending := false;
      }
    }

    /** `onpan`, debounced: only the last delta before a pause is kept. */
    method OnPan(delta: Point)
      modifies this
      ensures pendingPan == Some(delta)
      ensures config == old(config) && wheelZoomAccumulator == old(wheelZoomAccumulator)
      ensures zoomPending == old(zoomPending) && requests == old(requests)
    {
      pendingPan := Some(delta);
    }

    /** The debounced pan firing: both starts move against the drag by the
        dragged fraction of the window, unclamped, and the page reloads. */
    method FlushPan()
      requires Valid()
      modifies this
      ensures Valid() && pendingPan.None? && zoomPending == old(zoomPending)
      ensures wheelZoomAccumulator == old(wheelZoomAccumulator)
      ensures old(pendingPan).None? ==> config == old(config) && requests == old(requests)
      ensures old(pendingPan).Some? ==>
        var d := old(pendingPan).value;
        config == old(config)
          ["start1" := Num(PanStart(old(config)["start1"].n, d.x, old(config)["canvasWidth"].n, old(config)["window_size"].n))]
          ["start2" := Num(PanStart(old(config)["start2"].n, d.y, old(config)["canvasHeight"].n, old(config)["window_size"].n))] &&
        requests == old(requests) + [Window()]
      ensures Window().windowSize == old(Window()).windowSize
    {
      if pendingPan.Some? {
        var d := pendingPan.value;
        var ws := config["window_size"].n;
        config := config["start1" := Num(PanStart(config["start1"].n, d.x, config["canvasWidth"].n, ws))];
        config := config["start2" := Num(PanStart(config["start2"].n, d.y, config["canvasHeight"].n, ws))];
        requests := requests + [Window()];
        pendingPan := None;
      }
    }
  }
}
