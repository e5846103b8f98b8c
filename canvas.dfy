/**
 * The drawing surface the heatmap paints on: a grid of pixels, each holding
 * the CSS colour last filled over it. `fillRect` is the only drawing call
 * static/backbone-heatmap.js makes; a list of fills, applied in order, says
 * what every pixel ends up showing.
 */
module Canvas {
  import opened Colors
  import opened Geometry

  /** One `fillRect(x, y, w, h)` call with the `fillStyle` set before it. */
  datatype Fill = Fill(rect: PixelRect, color: Css)

  /** What a pixel holds before anything is painted on a freshly sized
      canvas: transparent black. */
  const Transparent: Css := RgbaCss([0, 0, 0], 0.0)

  /** The neutral background `clearCanvas` fills the canvas with. */
  const ClearColor: Css := HexCss("#888888")

  /** Whether the pixel in column `x`, row `y` lies in the rectangle. A
      negative width or height extends the rectangle left of `x` or above
      `y`; a zero one covers nothing. */
  predicate Covers(r: PixelRect, x: int, y: int) {
    (if r.w >= 0 then r.x <= x < r.x + r.w else r.x + r.w <= x < r.x) &&
    (if r.h >= 0 then r.y <= y < r.y + r.h else r.y + r.h <= y < r.y)
  }

  /** The colour of pixel (x, y) after the fills are applied in order over
      a pixel that showed `under`. */
  function Painted(fills: seq<Fill>, x: int, y: int, under: Css): Css
    decreases |fills|
  {
    if fills == [] then under
    else if Covers(fills[|fills| - 1].rect, x, y) then fills[|fills| - 1].color
    else Painted(fills[..|fills| - 1], x, y, under)
  }

  /** A pixel no fill covers keeps its colour. */
  lemma {:induction false} PaintedUncovered(fills: seq<Fill>, x: int, y: int, under: Css)
    requires forall k :: 0 <= k < |fills| ==> !Covers(fills[k].rect, x, y)
    ensures Painted(fills, x, y, under) == under
    decreases |fills|
  {
    if fills != [] {
      var front := fills[..|fills| - 1];
      assert forall k :: 0 <= k < |front| ==> front[k] == fills[k];
      PaintedUncovered(front, x, y, under);
    }
  }

  /** A pixel shows the colour of the last fill that covers it. */
  lemma {:induction false} PaintedTopCover(fills: seq<Fill>, x: int, y: int, under: Css, k: nat)
    requires k < |fills| && Covers(fills[k].rect, x, y)
    requires forall l :: k < l < |fills| ==> !Covers(fills[l].rect, x, y)
    ensures Painted(fills, x, y, under) == fills[k].color
    decreases |fills|
  {
    var last := |fills| - 1;
    if k < last {
      var front := fills[..last];
      assert front[k] == fills[k];
      assert forall l :: k < l < |front| ==> front[l] == fills[l];
      PaintedTopCover(front, x, y, under, k);
    }
  }

  /** Painting one list of fills and then another is painting their
      concatenation: a later layer is drawn over an earlier one. */
  lemma {:induction false} PaintedAppend(first: seq<Fill>, second: seq<Fill>, x: int, y: int, under: Css)
    ensures Painted(first + second, x, y, under) == Painted(second, x, y, Painted(first, x, y, under))
    decreases |second|
  {
    if second != [] {
      var all := first + second;
      var last := |second| - 1;
      assert all[..|all| - 1] == first + second[..last];
      assert all[|all| - 1] == second[last];
      if !Covers(second[last].rect, x, y) {
        calc {
          Painted(all, x, y, under);
          Painted(first + second[..last], x, y, under);
          { PaintedAppend(first, second[..last], x, y, under); }
          Painted(second[..last], x, y, Painted(first, x, y, under));
          Painted(second, x, y, Painted(first, x, y, under));
        }
      } else {
        assert Painted(all, x, y, under) == second[last].color;
        assert Painted(second, x, y, Painted(first, x, y, under)) == second[last].color;
      }
    } else {
      assert first + second == first;
    }
  }

  /** `context.fillRect`: every pixel of the canvas the rectangle covers
      takes the colour; every other pixel keeps its own. */
  method FillRect(a: array2<Css>, f: Fill)
    modifies a
    ensures forall x, y :: 0 <= x < a.Length0 && 0 <= y < a.Length1 ==>
      a[x, y] == (if Covers(f.rect, x, y) then f.color else old(a[x, y]))
  {
    var i := 0;
    while i < a.Length0
      invariant 0 <= i <= a.Length0
      invariant forall x, y :: 0 <= x < a.Length0 && 0 <= y < a.Length1 ==>
        a[x, y] == (if x < i && Covers(f.rect, x, y) then f.color else old(a[x, y]))
    {
      var j := 0;
      while j < a.Length1
        invariant 0 <= j <= a.Length1
        invariant forall x, y :: 0 <= x < a.Length0 && 0 <= y < a.Length1 ==>
          a[x, y] == (if (x < i || (x == i && y < j)) && Covers(f.rect, x, y) then f.color else old(a[x, y]))
      {
        if Covers(f.rect, i, j) {
          a[i, j] := f.color;
        }
        j := j + 1;
      }
      i := i + 1;
    }
  }

  /** The fills applied one after another, as the `forEach` of `_render` does. */
  method PaintAll(a: array2<Css>, fills: seq<Fill>)
    modifies a
    ensures forall x, y :: 0 <= x < a.Length0 && 0 <= y < a.Length1 ==>
      a[x, y] == Painted(fills, x, y, old(a[x, y]))
  {
    var k := 0;
    while k < |fills|
      invariant 0 <= k <= |fills|
      invariant forall x, y :: 0 <= x < a.Length0 && 0 <= y < a.Length1 ==>
        a[x, y] == Painted(fills[..k], x, y, old(a[x, y]))
    {
      FillRect(a, fills[k]);
      assert fills[..k + 1][..k] == fills[..k];
      k := k + 1;
    }
    assert fills[..k] == fills;
  }

  /** `clearCanvas`: setting the canvas size gives a fresh transparent
      bitmap of that size, which one full-size fill makes grey. */
  method ClearedCanvas(width: nat, height: nat) returns (a: array2<Css>)
    ensures fresh(a) && a.Length0 == width && a.Length1 == height
    ensures forall x, y :: 0 <= x < width && 0 <= y < height ==> a[x, y] == ClearColor
  {
    a := new Css[width, height]((x, y) => Transparent);
    FillRect(a, Fill(PixelRect(0, 0, width, height), ClearColor));
  }
}
