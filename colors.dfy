/**
 * Colours of the heatmap (static/colors.js): parsing of hex strings and
 * channel arrays, CSS output, alpha-weighted mixing and the linear ramp that
 * maps a score to a colour. Channel arithmetic is exact (`real`); parsed
 * channels and emitted bytes are integers.
 */
module Colors {
  import opened Wrappers
  import opened RealArith

  /** A colour as the source holds it: one number per channel (integers
      after parsing, possibly fractional after mixing) and an alpha. */
  datatype Color = Color(rgb: seq<real>, alpha: real)

  /** The first argument of the colour constructor. */
  datatype ColorSpec = Channels(values: seq<real>) | Text(s: string)

  /** A CSS colour string: `#rrggbb` text, or an `rgba(...)` string whose
      rendering of the alpha is kept abstract. */
  datatype Css = HexCss(text: string) | RgbaCss(channels: seq<int>, alpha: real)

  // ---------------------------------------------------------------------------
  // Hex digits

  predicate IsHexDigit(c: char) {
    ('0' <= c <= '9') || ('a' <= c <= 'f') || ('A' <= c <= 'F')
  }

  predicate AllHex(s: string) {
    forall i :: 0 <= i < |s| ==> IsHexDigit(s[i])
  }

  /** The value of one digit under `parseInt(_, 16)`. */
  function HexValue(c: char): (v: int)
    requires IsHexDigit(c)
    ensures 0 <= v < 16
  {
    if c <= '9' then c as int - '0' as int
    else if c <= 'F' then c as int - 'A' as int + 10
    else c as int - 'a' as int + 10
  }

  /** The lower-case digits `Number.prototype.toString(16)` writes. */
  const LowerHexDigits: string := "0123456789abcdef"

  function HexDigit(n: int): (c: char)
    requires 0 <= n < 16
    ensures IsHexDigit(c) && HexValue(c) == n
    ensures !('A' <= c <= 'F')
  {
    LowerHexDigits[n]
  }

  /** `parseInt(hi + lo, 16)` for two hex digits. */
  function PairValue(hi: char, lo: char): (v: int)
    requires IsHexDigit(hi) && IsHexDigit(lo)
    ensures 0 <= v <= 255
  {
    16 * HexValue(hi) + HexValue(lo)
  }

  // ---------------------------------------------------------------------------
  // Parsing (the Color constructor)

  /** `s.match(/.{2}/g).map(c => parseInt(c, 16))` on a hex string of even length. */
  function ParsePairs(s: string): (r: seq<int>)
    requires |s| % 2 == 0 && AllHex(s)
    ensures |r| == |s| / 2
    ensures forall i :: 0 <= i < |r| ==> r[i] == PairValue(s[2 * i], s[2 * i + 1])
    decreases |s|
  {
    if s == [] then [] else [PairValue(s[0], s[1])] + ParsePairs(s[2..])
  }

  /** `s.split('').map(c => parseInt(c + c, 16))`: each digit doubled. */
  function ParseShorthand(s: string): (r: seq<int>)
    requires AllHex(s)
    ensures |r| == |s|
    ensures forall i :: 0 <= i < |s| ==> r[i] == 17 * HexValue(s[i])
  {
    seq(|s|, i requires 0 <= i < |s| => PairValue(s[i], s[i]))
  }

  /** The strings the constructor turns into numbers: the 7-character form
      drops its first character, whatever it is. */
  predicate Parsable(s: string) {
    if |s| == 7 then AllHex(s[1..]) else AllHex(s)
  }

  /** The channel triple (or list) parsed from a string argument. */
  function ParseText(s: string): (r: seq<int>)
    requires Parsable(s)
    ensures |s| == 6 ==> |r| == 3 && forall i :: 0 <= i < 3 ==> r[i] == PairValue(s[2 * i], s[2 * i + 1])
    ensures |s| == 7 ==> |r| == 3 && forall i :: 0 <= i < 3 ==> r[i] == PairValue(s[2 * i + 1], s[2 * i + 2])
    ensures |s| != 6 && |s| != 7 ==> |r| == |s| && forall i :: 0 <= i < |s| ==> r[i] == 17 * HexValue(s[i])
    ensures forall i :: 0 <= i < |r| ==> 0 <= r[i] <= 255
  {
    if |s| == 6 then ParsePairs(s)
    else if |s| == 7 then ParsePairs(s[1..])
    else ParseShorthand(s)
  }

  function ToReals(s: seq<int>): (r: seq<real>)
    ensures |r| == |s| && forall i :: 0 <= i < |s| ==> r[i] == s[i] as real
  {
    seq(|s|, i requires 0 <= i < |s| => s[i] as real)
  }

  predicate ValidSpec(spec: ColorSpec) {
    spec.Text? ==> Parsable(spec.s)
  }

  /** `new Color(rgb, a)`: an array is stored as given, a string is parsed;
      the alpha is `a` when it is a number and 1 otherwise. */
  function NewColor(spec: ColorSpec, a: Option<real>): (c: Color)
    requires ValidSpec(spec)
    ensures spec.Channels? ==> c.rgb == spec.values
    ensures spec.Text? ==> c.rgb == ToReals(ParseText(spec.s))
    ensures a.None? ==> c.alpha == 1.0
    ensures a.Some? ==> c.alpha == a.value
  {
    var rgb := match spec
      case Channels(values) => values
      case Text(s) => ToReals(ParseText(s));
    Color(rgb, a.GetOr(1.0))
  }

  // ---------------------------------------------------------------------------
  // CSS output

  /** `Math.round`: halves go up. */
  function Round(x: real): (n: int)
    ensures n as real - 0.5 <= x < n as real + 0.5
  {
    (x + 0.5).Floor
  }

  /** The cap to [0, 255] applied before formatting. */
  function ClampByte(i: int): (b: int)
    ensures 0 <= b <= 255
    ensures 0 <= i <= 255 ==> b == i
    ensures i > 255 ==> b == 255
    ensures i < 0 ==> b == 0
  {
    if i > 255 then 255 else if i < 0 then 0 else i
  }

  /** The byte one channel is written as. */
  function ChannelByte(c: real): (b: int)
    ensures 0 <= b <= 255
  {
    ClampByte(Round(c))
  }

  /** `n.toString(16)` for 0 <= n <= 255: no leading zero. */
  function ToHexString(n: int): (s: string)
    requires 0 <= n <= 255
  {
    if n < 16 then [HexDigit(n)] else [HexDigit(n / 16), HexDigit(n % 16)]
  }

  /** `i.length === 1 ? '0' + i : i` */
  function PadTwo(s: string): string {
    if |s| == 1 then "0" + s else s
  }

  /** The two lower-case hex digits a channel is written as. */
  function ChannelHex(c: real): (h: string)
    ensures |h| == 2 && AllHex(h)
    ensures PairValue(h[0], h[1]) == ChannelByte(c)
  {
    var b := ChannelByte(c);
    var h := PadTwo(ToHexString(b));
    assert h == [HexDigit(b / 16), HexDigit(b % 16)];
    h
  }

  /** `rgb.map(channel => two digits).join('')` */
  function HexBody(rgb: seq<real>): (s: string)
    ensures |s| == 2 * |rgb|
  {
    if rgb == [] then "" else ChannelHex(rgb[0]) + HexBody(rgb[1..])
  }

  /** `toCSS`: an `rgba(...)` string when the alpha is below 1, else `#` and
      two hex digits per channel. */
  function ToCss(c: Color): (css: Css)
    ensures c.alpha < 1.0 ==> css.RgbaCss? && css.alpha == c.alpha && |css.channels| == |c.rgb|
    ensures c.alpha < 1.0 ==> forall i :: 0 <= i < |c.rgb| ==> css.channels[i] == Round(c.rgb[i])
    ensures c.alpha >= 1.0 ==> css.HexCss? && |css.text| == 1 + 2 * |c.rgb| && css.text[0] == '#'
  {
    if c.alpha < 1.0 then
      RgbaCss(seq(|c.rgb|, i requires 0 <= i < |c.rgb| => Round(c.rgb[i])), c.alpha)
    else
      HexCss("#" + HexBody(c.rgb))
  }

  /** The hex body parses back, pair by pair, to the bytes it was written from. */
  lemma {:induction false} HexBodyParses(rgb: seq<real>)
    ensures AllHex(HexBody(rgb))
    ensures ParsePairs(HexBody(rgb)) == seq(|rgb|, i requires 0 <= i < |rgb| => ChannelByte(rgb[i]))
  {
    if rgb != [] {
      HexBodyParses(rgb[1..]);
      var h := ChannelHex(rgb[0]);
      var s := HexBody(rgb);
      assert s == h + HexBody(rgb[1..]);
      assert s[2..] == HexBody(rgb[1..]);
      assert forall i :: 0 <= i < |s| ==> IsHexDigit(s[i]) by {
        forall i | 0 <= i < |s| ensures IsHexDigit(s[i]) {
          if i >= 2 { assert s[i] == HexBody(rgb[1..])[i - 2]; }
        }
      }
    }
  }

  /** A three-channel opaque colour is written as `#rrggbb` (seven characters),
      and parsing that text gives back each channel rounded and capped. */
  lemma CssRoundTrip(c: Color)
    requires |c.rgb| == 3 && c.alpha >= 1.0
    ensures ToCss(c).HexCss? && |ToCss(c).text| == 7 && Parsable(ToCss(c).text)
    ensures ParseText(ToCss(c).text) == [ChannelByte(c.rgb[0]), ChannelByte(c.rgb[1]), ChannelByte(c.rgb[2])]
  {
    var t := ToCss(c).text;
    HexBodyParses(c.rgb);
    assert t[1..] == HexBody(c.rgb);
  }

  /** Integer channels in [0, 255] survive writing and parsing unchanged. */
  lemma ByteChannelsRoundTrip(bytes: seq<int>)
    requires |bytes| == 3 && forall i :: 0 <= i < 3 ==> 0 <= bytes[i] <= 255
    ensures Parsable(ToCss(Color(ToReals(bytes), 1.0)).text)
    ensures ParseText(ToCss(Color(ToReals(bytes), 1.0)).text) == bytes
  {
    var c := Color(ToReals(bytes), 1.0);
    CssRoundTrip(c);
    forall i | 0 <= i < 3 ensures ChannelByte(c.rgb[i]) == bytes[i] {
      assert c.rgb[i] == bytes[i] as real;
    }
  }

  // ---------------------------------------------------------------------------
  // Mixing

  /** A weighted average of two numbers in [0, 255] lies in [0, 255]. */
  lemma ConvexInRange(x: real, y: real, w: real)
    requires 0.0 <= x <= 255.0 && 0.0 <= y <= 255.0 && 0.0 <= w <= 1.0
    ensures 0.0 <= x * w + y * (1.0 - w) <= 255.0
  {
    MulNonNegative(x, w);
    MulNonNegative(y, 1.0 - w);
    MulNonNegative(255.0 - x, w);
    MulNonNegative(255.0 - y, 1.0 - w);
  }

  /** The alpha correction of `mix`: `(w + a) / (1 + w * a)`, with the
      source's guard that keeps `w` when the denominator would vanish. For
      `w` and `a` in [-1, 1] the result stays in [-1, 1]. */
  function AlphaCorrected(w: real, a: real): (r: real)
    ensures a == 0.0 ==> r == w
    ensures w == 1.0 ==> r == 1.0
    ensures w == -1.0 ==> r == -1.0
    ensures -1.0 <= w <= 1.0 && -1.0 <= a <= 1.0 ==> -1.0 <= r <= 1.0
  {
    if w * a == -1.0 then w
    else
      CorrectionAtEnds(w, a);
      CorrectionInUnit(w, a);
      (w + a) / (1.0 + w * a)
  }

  /** At `w = 1` and `w = -1` the correction keeps `w`; at `a = 0` it is `w`. */
  lemma CorrectionAtEnds(w: real, a: real)
    requires w * a != -1.0
    ensures a == 0.0 ==> (w + a) / (1.0 + w * a) == w
    ensures w == 1.0 ==> (w + a) / (1.0 + w * a) == 1.0
    ensures w == -1.0 ==> (w + a) / (1.0 + w * a) == -1.0
  {
    var d := 1.0 + w * a;
    if w == 1.0 { DivSelf(d); }
    if w == -1.0 { assert w + a == -d; DivNegatedSelf(d); }
  }

  /** For `w` and `a` in [-1, 1] the corrected weight stays in [-1, 1]. */
  lemma CorrectionInUnit(w: real, a: real)
    requires w * a != -1.0
    ensures -1.0 <= w <= 1.0 && -1.0 <= a <= 1.0 ==> -1.0 <= (w + a) / (1.0 + w * a) <= 1.0
  {
    if -1.0 <= w <= 1.0 && -1.0 <= a <= 1.0 {
      var d := 1.0 + w * a;
      MulNonNegative(1.0 - w, 1.0 - a);
      MulNonNegative(1.0 + w, 1.0 + a);
      assert (1.0 - w) * (1.0 - a) == d - (w + a);
      assert (1.0 + w) * (1.0 + a) == d + (w + a);
      QuotientInUnit(w + a, d);
    }
  }

  /** The weight of the first colour in `mix` for blend weight `p` and alpha
      difference `a`: `p` itself when the alphas agree, and within [0, 1]
      whenever `p` and the alphas are. */
  function MixWeight(p: real, a: real): (w1: real)
    ensures a == 0.0 ==> w1 == p
    ensures p == 1.0 ==> w1 == 1.0
    ensures p == 0.0 ==> w1 == 0.0
    ensures 0.0 <= p <= 1.0 && -1.0 <= a <= 1.0 ==> 0.0 <= w1 <= 1.0
  {
    AlphaCorrected(p * 2.0 - 1.0, a) / 2.0 + 0.5
  }

  /** The first three channels of `x` weighted by `w` against those of `y`
      weighted by `1 - w`: `x` itself at weight 1, `y` at weight 0. */
  function BlendChannels(x: seq<real>, y: seq<real>, w: real): (r: seq<real>)
    requires |x| >= 3 && |y| >= 3
    ensures |r| == 3
    ensures w == 1.0 ==> r == x[..3]
    ensures w == 0.0 ==> r == y[..3]
  {
    var w2 := 1.0 - w;
    var r := [x[0] * w + y[0] * w2, x[1] * w + y[1] * w2, x[2] * w + y[2] * w2];
    assert w == 1.0 ==> r == x[..3] by {
      if w == 1.0 {
        assert w2 == 0.0;
        assert r[0] == x[0] && r[1] == x[1] && r[2] == x[2];
      }
    }
    assert w == 0.0 ==> r == y[..3] by {
      if w == 0.0 {
        assert w2 == 1.0;
        assert r[0] == y[0] && r[1] == y[1] && r[2] == y[2];
      }
    }
    r
  }

  /** The alpha of a mix, `a1 * p + a2 * (1 - p)`: `a1` at weight 1, `a2`
      at weight 0, and the common alpha when both agree. */
  function BlendAlpha(a1: real, a2: real, p: real): (a: real)
    ensures a == a1 * p + a2 * (1.0 - p)
    ensures p == 1.0 ==> a == a1
    ensures p == 0.0 ==> a == a2
    ensures a1 == a2 ==> a == a1
  {
    assert p == 1.0 ==> a2 * (1.0 - p) == 0.0;
    assert p == 0.0 ==> a1 * p == 0.0;
    assert a1 * p + a1 * (1.0 - p) == a1 * (p + (1.0 - p));
    a1 * p + a2 * (1.0 - p)
  }

  /** `color1.mix(color2, p)`: the first three channels blended with the
      alpha-corrected weight, the alpha blended with `p` itself. When the
      alphas agree the correction vanishes and the channels blend by `p`. */
  function Mix(c1: Color, c2: Color, p: real): (m: Color)
    requires |c1.rgb| >= 3 && |c2.rgb| >= 3
    ensures |m.rgb| == 3
    ensures m.alpha == c1.alpha * p + c2.alpha * (1.0 - p)
    ensures c1.alpha == c2.alpha ==> m.rgb == BlendChannels(c1.rgb, c2.rgb, p)
    ensures p == 1.0 ==> m == Color(c1.rgb[..3], c1.alpha)
    ensures p == 0.0 ==> m == Color(c2.rgb[..3], c2.alpha)
  {
    Color(BlendChannels(c1.rgb, c2.rgb, MixWeight(p, c1.alpha - c2.alpha)), BlendAlpha(c1.alpha, c2.alpha, p))
  }

  /** Mixing two colours whose channels lie in [0, 255] gives channels in
      [0, 255], whatever the weight in [0, 1] and the alphas in [0, 1]. */
  lemma MixStaysInRange(c1: Color, c2: Color, p: real)
    requires |c1.rgb| >= 3 && |c2.rgb| >= 3
    requires forall i :: 0 <= i < 3 ==> 0.0 <= c1.rgb[i] <= 255.0 && 0.0 <= c2.rgb[i] <= 255.0
    requires 0.0 <= p <= 1.0 && 0.0 <= c1.alpha <= 1.0 && 0.0 <= c2.alpha <= 1.0
    ensures forall i :: 0 <= i < 3 ==> 0.0 <= Mix(c1, c2, p).rgb[i] <= 255.0
  {
    var w1 := MixWeight(p, c1.alpha - c2.alpha);
    var m := Mix(c1, c2, p);
    forall i | 0 <= i < 3 ensures 0.0 <= m.rgb[i] <= 255.0 {
      assert m.rgb[i] == c1.rgb[i] * w1 + c2.rgb[i] * (1.0 - w1);
      ConvexInRange(c1.rgb[i], c2.rgb[i], w1);
    }
  }

  // ---------------------------------------------------------------------------
  // Linear ramp

  /** `new LinearRamp(start_color, end_color, start_value, end_value)` */
  datatype LinearRamp = LinearRamp(startColor: Color, endColor: Color,
                                   startValue: real, endValue: real, valueRange: real)

  function NewLinearRamp(startColor: ColorSpec, endColor: ColorSpec, startValue: real, endValue: real): (r: LinearRamp)
    requires ValidSpec(startColor) && ValidSpec(endColor)
    ensures r.startColor == NewColor(startColor, None) && r.endColor == NewColor(endColor, None)
    ensures r.startColor.alpha == 1.0 && r.endColor.alpha == 1.0
    ensures r.startValue == startValue && r.endValue == endValue
    ensures r.valueRange == endValue - startValue
  {
    LinearRamp(NewColor(startColor, None), NewColor(endColor, None), startValue, endValue, endValue - startValue)
  }

  /** A ramp `map_value` can use: the divisor is the range and is not zero,
      and both colours have the three channels `mix` reads. */
  predicate ValidRamp(r: LinearRamp) {
    && r.valueRange == r.endValue - r.startValue
    && r.valueRange != 0.0
    && |r.startColor.rgb| >= 3 && |r.endColor.rgb| >= 3
  }

  /** The value after `Math.max(value, start_value)` then `Math.min(_, end_value)`. */
  function ClampValue(r: LinearRamp, value: real): (v: real)
    ensures r.startValue < r.endValue ==> r.startValue <= v <= r.endValue
    ensures r.startValue <= value <= r.endValue ==> v == value
    ensures value <= r.startValue <= r.endValue ==> v == r.startValue
    ensures value >= r.endValue ==> v == r.endValue
    ensures r.startValue > r.endValue ==> v == r.endValue
  {
    var lo := if value > r.startValue then value else r.startValue;
    if lo < r.endValue then lo else r.endValue
  }

  /** The position `t` of a value along the ramp: 0 at (or below) the start
      value, 1 at (or above) the end value. */
  function Normalised(r: LinearRamp, value: real): (t: real)
    requires ValidRamp(r)
    ensures 0.0 <= t <= 1.0
    ensures value <= r.startValue < r.endValue ==> t == 0.0
    ensures value >= r.endValue || r.startValue > r.endValue ==> t == 1.0
    ensures r.startValue <= value <= r.endValue ==> t * r.valueRange == value - r.startValue
  {
    var v := ClampValue(r, value);
    var t := (v - r.startValue) / r.valueRange;
    assert 0.0 <= t <= 1.0 by {
      if r.startValue < r.endValue {
        DivInUnit(v - r.startValue, r.valueRange);
      } else {
        DivSelf(r.valueRange);
      }
    }
    assert value >= r.endValue || r.startValue > r.endValue ==> t == 1.0 by {
      if value >= r.endValue || r.startValue > r.endValue {
        DivSelf(r.valueRange);
      }
    }
    t
  }

  /** The alpha of a blend of two opaque colours at a weight in [0, 1] is at least 1. */
  lemma BlendOfOpaqueIsOpaque(a1: real, a2: real, p: real)
    requires a1 >= 1.0 && a2 >= 1.0 && 0.0 <= p <= 1.0
    ensures a1 * p + a2 * (1.0 - p) >= 1.0
  {
    MulNonNegative(a1 - 1.0, p);
    MulNonNegative(a2 - 1.0, 1.0 - p);
  }

  /** `map_value`: the CSS of the start colour mixed with the end colour at
      weight `1 - t`; a ramp of opaque colours always yields `#rrggbb`. */
  function MapValue(r: LinearRamp, value: real): (css: Css)
    requires ValidRamp(r)
    ensures r.startColor.alpha >= 1.0 && r.endColor.alpha >= 1.0 ==> css.HexCss? && |css.text| == 7
  {
    var p := 1.0 - Normalised(r, value);
    var m := Mix(r.startColor, r.endColor, p);
    assert r.startColor.alpha >= 1.0 && r.endColor.alpha >= 1.0 ==> m.alpha >= 1.0 by {
      if r.startColor.alpha >= 1.0 && r.endColor.alpha >= 1.0 {
        BlendOfOpaqueIsOpaque(r.startColor.alpha, r.endColor.alpha, p);
      }
    }
    ToCss(m)
  }

  /** Between its ends the ramp interpolates: with equal alphas, a value is
      drawn in the start colour blended with the end colour at weight
      `1 - t`, where `t` is the value's position along the ramp. */
  lemma MapValueInterpolates(r: LinearRamp, value: real)
    requires ValidRamp(r) && r.startColor.alpha == r.endColor.alpha
    ensures MapValue(r, value) ==
      ToCss(Color(BlendChannels(r.startColor.rgb, r.endColor.rgb, 1.0 - Normalised(r, value)), r.startColor.alpha))
  {
    var p := 1.0 - Normalised(r, value);
    assert r.startColor.alpha * p + r.endColor.alpha * (1.0 - p) == r.startColor.alpha;
  }

  /** Values at or below the start value map like the start value, values at
      or above the end value map like the end value. */
  lemma MapValueClamps(r: LinearRamp, value: real)
    requires ValidRamp(r) && r.startValue < r.endValue
    ensures value <= r.startValue ==> MapValue(r, value) == MapValue(r, r.startValue)
    ensures value >= r.endValue ==> MapValue(r, value) == MapValue(r, r.endValue)
  {
  }

  /** The start value is drawn in the start colour and the end value in the
      end colour: the mix weight `1 - t` is 1 at the start and 0 at the end. */
  lemma MapValueEndpoints(r: LinearRamp)
    requires ValidRamp(r) && r.startValue < r.endValue
    ensures MapValue(r, r.startValue) == ToCss(Color(r.startColor.rgb[..3], r.startColor.alpha))
    ensures MapValue(r, r.endValue) == ToCss(Color(r.endColor.rgb[..3], r.endColor.alpha))
  {
  }

  lemma ParseBlack()
    ensures Parsable("#000000") && ParseText("#000000") == [0, 0, 0]
  {
    var s: string := "#000000";
    assert s[1..] == "000000";
    assert ParsePairs(s[1..]) == [0, 0, 0];
  }

  lemma ParseWhite()
    ensures Parsable("#ffffff") && ParseText("#ffffff") == [255, 255, 255]
  {
    var s: string := "#ffffff";
    assert s[1..] == "ffffff";
    assert HexValue('f') == 15;
    assert ParsePairs(s[1..]) == [255, 255, 255];
  }

  lemma ShorthandWhite()
    ensures Parsable("fff") && ParseText("fff") == [255, 255, 255]
  {
    assert HexValue('f') == 15;
  }

  /** `Math.round` sends halves up, so the exact midpoint between black
      and white, 127.5 per channel, is written `#808080`. */
  lemma MidGreyCss()
    ensures ToCss(Color([127.5, 127.5, 127.5], 1.0)) == HexCss("#808080")
  {
    var one: seq<real> := [127.5];
    var two: seq<real> := [127.5, 127.5];
    var three: seq<real> := [127.5, 127.5, 127.5];
    HalfChannelRoundsUp();
    assert HexBody(one) == "80" by { assert one[1..] == []; }
    assert HexBody(two) == "8080" by { assert two[1..] == one; }
    assert HexBody(three) == "808080" by { assert three[1..] == two; }
  }

  lemma HalfChannelRoundsUp()
    ensures ChannelHex(127.5) == "80"
  {
    assert Round(127.5) == 128;
    assert ToHexString(128) == [HexDigit(8), HexDigit(0)];
    assert HexDigit(8) == '8' && HexDigit(0) == '0';
  }
}
