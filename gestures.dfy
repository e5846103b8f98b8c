/**
 * The pointer gesture interpreter of static/pan-and-zoom.js. A drag (mouse
 * button held between mousedown and mouseup) reports pan deltas measured from
 * the mousedown point; the wheel and a double-click report zoom amounts.
 * Each handler is a method that returns the payloads the source passes to the
 * `onpan` and `onzoom` callbacks, so the callbacks themselves stay outside.
 */
module Gestures {
  import opened Wrappers
  import opened Values

  /** The parts of a jQuery event the handlers read. `offset` holds
      `offsetX`/`offsetY` and is `None` in browsers that do not set them. */
  datatype PointerEvent = PointerEvent(offset: Option<Point>, page: Point, deltaY: real, altKey: bool)

  /** The options object: whether `onpan` and `onzoom` callbacks are given,
      and `dblclickZoom` when the caller sets it. */
  datatype Options = Options(onPan: bool, onZoom: bool, dblclickZoom: Option<real>)

  /** The payload of `onzoom`: the pointer position and the zoom amount. */
  datatype ZoomData = ZoomData(at: Point, zoomY: real)

  /** The zoom step of a double-click when the options do not set one. */
  const DefaultDblclickZoom: real := 500.0

  /** `getElementMouseCoords`: the browser's offset when it has one, else the
      page position less the element's offset. */
  function ElementMouseCoords(ev: PointerEvent, elementOffset: Point): (p: Point)
    ensures ev.offset.Some? ==> p == ev.offset.value
    ensures ev.offset.None? ==> p.x + elementOffset.x == ev.page.x && p.y + elementOffset.y == ev.page.y
  {
    match ev.offset
    case Some(o) => o
    case None => Point(ev.page.x - elementOffset.x, ev.page.y - elementOffset.y)
  }

  /** The delta a move reports: the displacement that takes `last` to `current`. */
  function Delta(current: Point, last: Point): (d: Point)
    ensures last.x + d.x == current.x && last.y + d.y == current.y
  {
    Point(current.x - last.x, current.y - last.y)
  }

  // ---------------------------------------------------------------------------
  // Cumulative deltas

  /** The per-move displacements along a path of pointer positions. */
  function Steps(path: seq<Point>): (ds: seq<Point>)
    requires |path| >= 1
    ensures |ds| == |path| - 1
    ensures forall i :: 0 <= i < |ds| ==> ds[i] == Delta(path[i + 1], path[i])
  {
    seq(|path| - 1, i requires 0 <= i < |path| - 1 => Delta(path[i + 1], path[i]))
  }

  /** The sum of a list of displacements. */
  function Total(ds: seq<Point>): Point {
    if ds == [] then Point(0.0, 0.0)
    else
      var rest := Total(ds[..|ds| - 1]);
      Point(rest.x + ds[|ds| - 1].x, rest.y + ds[|ds| - 1].y)
  }

  /** The delta a move reports is the whole displacement since mousedown,
      the sum of every per-move step before it, not the last step alone. */
  lemma {:induction false} DeltaIsSumOfSteps(path: seq<Point>)
    requires |path| >= 1
    ensures Total(Steps(path)) == Delta(path[|path| - 1], path[0])
    decreases |path|
  {
    if |path| > 1 {
      var shorter := path[..|path| - 1];
      DeltaIsSumOfSteps(shorter);
      assert Steps(path)[..|path| - 2] == Steps(shorter);
    }
  }

  // ---------------------------------------------------------------------------
  // The handlers bound by `panAndZoom`

  /** The state `panAndZoom` keeps for one target element. */
  class PanAndZoom {
    /** Whether the pan handlers (mousedown, mouseup) are bound: only when `onpan` is given. */
    const panWired: bool
    /** Whether the zoom handlers (wheel, dblclick) are bound: only when `onzoom` is given. */
    const zoomWired: bool
    const dblclickZoom: real
    /** The element's page offset, used when an event has no offset of its own. */
    const elementOffset: Point
    /** `lastCoords`: `{x: null, y: null}` at first, and `null` reads as 0 in a
        subtraction. Only mousedown assigns it. */
    var lastCoords: Point
    /** How many times the move handler is bound: each mousedown binds it once
        more, and mouseup unbinds every copy. */
    var moveHandlers: nat

    ghost predicate Valid()
      reads this
    {
      !panWired ==> moveHandlers == 0
    }

    /** Idle or Dragging: a move is reported only while a handler is bound. */
    predicate Dragging()
      reads this
    {
      moveHandlers > 0
    }

    /** `panAndZoom(target, options)`, with the option defaults filled in. */
    constructor(options: Options, elementOffset: Point)
      ensures panWired == options.onPan && zoomWired == options.onZoom
      ensures options.dblclickZoom.None? ==> dblclickZoom == DefaultDblclickZoom
      ensures options.dblclickZoom.Some? ==> dblclickZoom == options.dblclickZoom.value
      ensures this.elementOffset == elementOffset
      ensures lastCoords == Point(0.0, 0.0) && !Dragging()
      ensures Valid()
    {
      panWired := options.onPan;
      zoomWired := options.onZoom;
      dblclickZoom := options.dblclickZoom.GetOr(DefaultDblclickZoom);
      this.elementOffset := elementOffset;
      lastCoords := Point(0.0, 0.0);
      moveHandlers := 0;
    }

    /** mousedown: remember where the drag starts and bind the move handler. */
    method MouseDown(ev: PointerEvent)
      requires Valid()
      modifies this
      ensures Valid()
      ensures panWired ==> lastCoords == ElementMouseCoords(ev, elementOffset)
      ensures panWired ==> moveHandlers == old(moveHandlers) + 1 && Dragging()
      ensures !panWired ==> lastCoords == old(lastCoords) && moveHandlers == old(moveHandlers)
    {
      if panWired {
        lastCoords := ElementMouseCoords(ev, elementOffset);
        moveHandlers := moveHandlers + 1;
      }
    }

    /** mouseup: unbind the move handler; the drag start is kept. */
    method MouseUp()
      requires Valid()
      modifies this
      ensures Valid()
      ensures lastCoords == old(lastCoords) && !Dragging()
    {
      if panWired {
        moveHandlers := 0;
      }
    }

    /** mousemove: every bound copy of the handler reports the displacement
        from the mousedown point; nothing is reported while Idle. */
    method MouseMove(ev: PointerEvent) returns (deltas: seq<Point>)
      ensures |deltas| == moveHandlers
      ensures !Dragging() ==> deltas == []
      ensures forall i :: 0 <= i < |deltas| ==>
        lastCoords.x + deltas[i].x == ElementMouseCoords(ev, elementOffset).x &&
        lastCoords.y + deltas[i].y == ElementMouseCoords(ev, elementOffset).y
    {
      var d := Delta(ElementMouseCoords(ev, elementOffset), lastCoords);
      deltas := seq(moveHandlers, _ => d);
    }

    /** wheel: a zoom by the negated vertical scroll, only when there is one. */
    method Wheel(ev: PointerEvent) returns (z: Option<ZoomData>)
      ensures z.Some? <==> zoomWired && ev.deltaY != 0.0
      ensures z.Some? ==> z.value.at == ElementMouseCoords(ev, elementOffset)
      ensures z.Some? ==> z.value.zoomY + ev.deltaY == 0.0
    {
      if zoomWired && ev.deltaY != 0.0 {
        z := Some(ZoomData(ElementMouseCoords(ev, elementOffset), -ev.deltaY));
      } else {
        z := None;
      }
    }

    /** dblclick: a zoom in by the fixed step, or out with the alt key held. */
    method DblClick(ev: PointerEvent) returns (z: Option<ZoomData>)
      ensures z.Some? <==> zoomWired
      ensures z.Some? ==> z.value.at == ElementMouseCoords(ev, elementOffset)
      ensures z.Some? && !ev.altKey ==> z.value.zoomY == dblclickZoom
      ensures z.Some? && ev.altKey ==> z.value.zoomY + dblclickZoom == 0.0
    {
      if zoomWired {
        var step := if ev.altKey then -dblclickZoom else dblclickZoom;
        z := Some(ZoomData(ElementMouseCoords(ev, elementOffset), step));
      } else {
        z := None;
      }
    }
  }

  /** A whole drag: mousedown, a series of moves, mouseup. Each move reports
      its position less the mousedown position, and afterwards the element is
      Idle again, so later moves report nothing. */
  method Drag(g: PanAndZoom, down: PointerEvent, moves: seq<PointerEvent>) returns (reported: seq<Point>)
    requires g.Valid() && g.panWired && !g.Dragging()
    modifies g
    ensures g.Valid() && !g.Dragging()
    ensures |reported| == |moves|
    ensures forall i :: 0 <= i < |moves| ==>
      reported[i] == Delta(ElementMouseCoords(moves[i], g.elementOffset), ElementMouseCoords(down, g.elementOffset))
  {
    g.MouseDown(down);
    var start := g.lastCoords;
    reported := [];
    var k := 0;
    while k < |moves|
      invariant 0 <= k <= |moves| && |reported| == k
      invariant g.Valid() && g.moveHandlers == 1 && g.lastCoords == start
      invariant forall i :: 0 <= i < k ==>
        reported[i] == Delta(ElementMouseCoords(moves[i], g.elementOffset), start)
    {
      var ds := g.MouseMove(moves[k]);
      reported := reported + [ds[0]];
      k := k + 1;
    }
    g.MouseUp();
  }
}
