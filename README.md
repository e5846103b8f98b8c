# Multi-resolution heatmap core, in Dafny

This project models the computational core of the galaxy-mrheatmap
visualisation plugin, a Hi-C style heatmap viewer:

- **Colours** (`colors.dfy`, module `Colors`). The `Color` constructor
  parses hex strings in three forms: six digits, a leading character plus
  six digits, and doubled shorthand digits. An array argument is stored as
  given. `toCSS` writes `#rrggbb` (the hex notation of section 4.2.1 of
  CSS Color Module Level 3): each channel is rounded, capped to [0, 255]
  and written as two lower-case digits. The module also covers the
  alpha-corrected `mix` and the clamping `LinearRamp.map_value`.
- **Viewport geometry** (`geometry.dfy`, module `Geometry`). This is the
  arithmetic of the standalone view:
  - pixel to sequence coordinates;
  - zoom recentring;
  - clamping a viewport to the `chrom1` header;
  - the pan translation;
  - the resolution pair sent with a fetch;
  - the ladder of resolutions used by progressive rendering;
  - the pixel rectangle of a data cell.
- **Canvas** (`canvas.dfy`, module `Canvas`). The canvas is a 2-D array of
  CSS colours, written by `fillRect`. A list of fills, applied in order,
  determines what every pixel shows.
- **Gestures** (`gestures.dfy`, module `Gestures`). This is the
  `panAndZoom` pointer interpreter. It is a class whose event methods
  return the payloads passed to the `onpan` and `onzoom` callbacks.
- **The view** (`heatmap_view.dfy`, module `HeatmapView`). This module
  models:
  - the viewport record that `_constrainViewport` clamps in place;
  - the wheel-zoom accumulator and the debounced pan and zoom callbacks of
    `setUp`;
  - the fetches issued by `progressivelyRender`;
  - `clearCanvas`, `_render` and `render`.

  A debounced callback is modelled as a pending slot that every call
  overwrites, plus a flush method that runs the trailing call.
- **Composable models** (`composable.dfy`, module `Composable`). This is
  `ComposableModel`, a Backbone model that routes `get`, `has`, `set` and
  `toJSON` between its own attribute map and an ordered list of sub-models.
- **The prototype page** (`prototype.dfy`, module `Prototype`). This is the
  earlier `setUp` of `multiresolution-heatmap.js`. It fills the
  configuration with defaults and shifts or resizes the window on pan and
  zoom, without flooring or clamping.

`values.dfy` holds the JavaScript values the models store. `wrappers.dfy`
holds `Option`, and `arith.dfy` holds real-arithmetic helper lemmas.

The model states three behaviours of the code that a reader of the view
might not expect:

- **Pan deltas are cumulative.** The code measures every move delta from
  the mousedown point, not from the previous move. Because of this, each
  flush of the debounced pan applies the whole drag so far again. This
  holds in the prototype page (`Prototype.PanStartComposes`). In the view
  it holds once the undeclared `header` is fixed
  (`HeatmapView.PausedDragPansTwice`, on the corrected `FlushPan`); as
  written, the view's pan handler throws before applying anything.
- **Clamping ignores `chrom2`.** Both axes are clamped against the header
  of `chrom1`.
- **The clamp keeps the span.** It never changes a viewport's span, even
  when the span is wider than the chromosome. The start can then end up
  before the header start.

## Model

| member | source | states |
|---|---|---|
| Colors.HexDigit | static/colors.js:43 | the digit `toString(16)` writes for n < 16 is a lower-case hex digit whose value is n |
| Colors.PairValue | static/colors.js:12-14 | two hex digits parse to a byte in [0, 255] |
| Colors.ParsePairs | static/colors.js:12-14 | an even-length hex string gives one value per pair, each the pair's hex value |
| Colors.ParseShorthand | static/colors.js:19-23 | each shorthand digit d gives 17·d, the value of the doubled digit |
| Colors.ParseText | static/colors.js:11-23 | 6 characters give three pair values; 7 drop the first character and give three pair values; other lengths double each digit; every channel is in [0, 255] |
| Colors.NewColor | static/colors.js:9-24 | an array argument is stored unchanged, a string is parsed; alpha is the numeric argument, else 1 |
| Colors.Round | static/colors.js:42 | `Math.round` gives the integer within half a unit, halves rounding up |
| Colors.ClampByte | static/colors.js:43 | the cap keeps values in [0, 255] and sends larger ones to 255 and negative ones to 0 |
| Colors.ChannelHex | static/colors.js:41-44 | a channel is written as exactly two hex digits whose value is the rounded, capped channel |
| Colors.HexBody | static/colors.js:41-45 | the joined body has two characters per channel |
| Colors.ToCss | static/colors.js:35-47 | alpha < 1 gives `rgba` with the rounded channels and the alpha; otherwise `#` plus two digits per channel |
| Colors.HexBodyParses | static/colors.js:41-45 | the written hex body is all hex digits and parses pairwise back to the rounded, capped channels |
| Colors.CssRoundTrip | static/colors.js:15-18 | an opaque three-channel colour is written in 7 characters that parse back to its rounded, capped channels |
| Colors.ByteChannelsRoundTrip | static/colors.js:40-45 | integer channels in [0, 255] survive writing with `toCSS` and parsing with the constructor unchanged |
| Colors.AlphaCorrected | static/colors.js:89 | the corrected weight is w when the alpha difference is 0, keeps ±1, and stays in [-1, 1] for inputs in [-1, 1] |
| Colors.CorrectionAtEnds | static/colors.js:89 | `(w + a) / (1 + w·a)` is w at a = 0 and keeps w = ±1 |
| Colors.CorrectionInUnit | static/colors.js:89 | `(w + a) / (1 + w·a)` stays in [-1, 1] for w and a in [-1, 1] |
| Colors.MixWeight | static/colors.js:85-89 | the first colour's weight is p when alphas agree, 1 at p = 1, 0 at p = 0, and in [0, 1] for p in [0, 1] |
| Colors.BlendChannels | static/colors.js:90-94 | the weighted channels are the first colour's at weight 1 and the second's at weight 0 |
| Colors.BlendAlpha | static/colors.js:96 | the mixed alpha is the first alpha at weight 1, the second at weight 0, and the common alpha when both agree |
| Colors.Mix | static/colors.js:82-99 | the alpha is a1·p + a2·(1 − p); with equal alphas the channels blend by p itself; p = 1 gives the first colour and p = 0 the second |
| Colors.MixStaysInRange | static/colors.js:82-98 | mixing channels in [0, 255] with p and alphas in [0, 1] gives channels in [0, 255] |
| Colors.NewLinearRamp | static/colors.js:102-111 | both colours parsed with alpha 1, the values stored, the range end − start |
| Colors.ClampValue | static/colors.js:114-115 | the max-then-min clamp leaves values inside the range, sends lower ones to the start and higher ones to the end |
| Colors.Normalised | static/colors.js:113-116 | the ramp position lies in [0, 1]; it is 0 at or below the start, 1 at or above the end, and (value − start) / range in between |
| Colors.MapValue | static/colors.js:113-120 | a ramp of opaque colours always yields a 7-character `#rrggbb` |
| Colors.MapValueInterpolates | static/colors.js:113-120 | with equal alphas a value is drawn as the start and end colours blended at weight 1 − t, t its position along the ramp |
| Colors.MapValueClamps | static/colors.js:113-116 | values at or below the start map like the start; values at or above the end map like the end |
| Colors.MapValueEndpoints | static/colors.js:116-119 | the start value is drawn in the start colour and the end value in the end colour |
| Colors.ParseBlack | static/colors.js:15-18 | `#000000` parses to [0, 0, 0] |
| Colors.ParseWhite | static/colors.js:15-18 | `#ffffff` parses to [255, 255, 255] |
| Colors.ShorthandWhite | static/colors.js:19-23 | `fff` parses to [255, 255, 255] |
| Colors.MidGreyCss | static/colors.js:41-45 | the exact black/white midpoint 127.5 is written `#808080` |
| Colors.HalfChannelRoundsUp | static/colors.js:42-44 | a channel of 127.5 is written `80` |
| Geometry.CurrentHeader | static/backbone-heatmap.js:88-92 | the header is found exactly when `chrom1` names one, and it is that chromosome's header |
| Geometry.MouseToSequenceCoords | static/backbone-heatmap.js:151-163 | pixel 0 maps to start and the canvas size to stop on each axis; the offset from start is the pixel's share of the span |
| Geometry.AxesScaleIndependently | static/backbone-heatmap.js:151-163 | x depends only on the pixel x, the first axis and the width; y only on the pixel y, the second axis and the height |
| Geometry.PixelRoundTrip | static/backbone-heatmap.js:151-163 | the sequence position of a whole pixel column is painted back in that column by the `_render` mapping |
| Geometry.ClampStart | static/backbone-heatmap.js:189-191 | the clamped start ends its span by the header stop; it is at least the header start when the span fits; it is unchanged when already inside |
| Geometry.ConstrainViewport | static/backbone-heatmap.js:184-198 | both spans are kept; both stops are at most the header stop; starts are at least the header start when the span fits; identity inside the header |
| Geometry.ConstrainIdempotent | static/backbone-heatmap.js:189-195 | clamping twice equals clamping once |
| Geometry.ZoomTarget | static/backbone-heatmap.js:166-181 | the pre-clamp spans are the old spans minus level·1000; the starts are integers; the new midpoint is within one unit below the pointer's sequence position |
| Geometry.CalcNewViewport | static/backbone-heatmap.js:166-182 | the zoomed spans; stops at most the header stop; starts at least the header start when the span fits; no clamping when the target is inside |
| Geometry.ZoomOutAtCentre | static/backbone-heatmap.js:166-182 | zooming out by 2 at pixel (160, 160) of 320×320 over 0..1000 in a 0..5000 header gives 0..3000 on both axes |
| Geometry.SequenceDelta | static/backbone-heatmap.js:226-236 | the sequence delta is the whole number at or below the dragged share of the span; no drag gives 0 |
| Geometry.Translate | static/backbone-heatmap.js:248-256 | both spans are kept and each start moves back by its sequence delta |
| Geometry.PanViewport | static/backbone-heatmap.js:248-256 | the pan is the translated viewport put through the clamp; spans are kept; a zero drag inside the header changes nothing |
| Geometry.EffectiveResolution | static/backbone-heatmap.js:78-83 | an absent or zero resolution becomes 100; any other is kept |
| Geometry.CalcResolution | static/backbone-heatmap.js:77-85 | min is the span plus one; max is the whole number of resolution steps in the span |
| Geometry.ResolutionLadder | static/backbone-heatmap.js:277-290 | four resolutions, the last the canvas size, non-decreasing from coarse to fine |
| Geometry.LadderRungsAreFloors | static/backbone-heatmap.js:283-285 | each rung before the last is the whole number at or below the canvas size times its blur factor |
| Geometry.LadderOfDefaultCanvas | static/backbone-heatmap.js:278-289 | a 320-pixel canvas fetches at 32, 64, 160, then 320 |
| Geometry.PixelOf | static/backbone-heatmap.js:452-455 | a corner lands in the pixel at or below its scaled offset; the viewport start lands on pixel 0 |
| Geometry.PixelOfMonotone | static/backbone-heatmap.js:452-455 | with a non-negative ratio a later position never lands in an earlier pixel |
| Geometry.CellRect | static/backbone-heatmap.js:447-457 | the left and top edges are the floored, scaled x1 and y1, the right and bottom edges the floored x2 and y2; a cell at start1 lands on pixel 0; the width is non-negative when x1 ≤ x2 |
| Geometry.CellsAbut | static/backbone-heatmap.js:452-457 | cells sharing a sequence boundary get rectangles sharing a pixel boundary |
| Canvas.PaintedUncovered | static/backbone-heatmap.js:465-467 | a pixel no fill covers keeps its colour |
| Canvas.PaintedTopCover | static/backbone-heatmap.js:465-467 | a pixel shows the colour of the last fill covering it |
| Canvas.PaintedAppend | static/backbone-heatmap.js:283-290 | painting two lists in turn is painting their concatenation, so each coarse `_render` layer is drawn over the previous one (the final full-resolution `render` clears the canvas first) |
| Canvas.FillRect | static/backbone-heatmap.js:465-467 | covered pixels take the fill colour; all others keep theirs |
| Canvas.PaintAll | static/backbone-heatmap.js:451-468 | every pixel ends as the fills applied in order say |
| Canvas.ClearedCanvas | static/backbone-heatmap.js:471-482 | a fresh canvas of the configured size, every pixel `#888888` |
| Gestures.ElementMouseCoords | static/pan-and-zoom.js:7-23 | the event offset when present, else the page position less the element offset |
| Gestures.Delta | static/pan-and-zoom.js:29-33 | the delta takes the remembered point to the current one |
| Gestures.DeltaIsSumOfSteps | static/pan-and-zoom.js:26-41 | the reported delta is the sum of all per-move steps since mousedown |
| Gestures.PanAndZoom.constructor | static/pan-and-zoom.js:1-4 | handlers wired only for given callbacks; `dblclickZoom` defaults to 500; the initial point is (0, 0); Idle |
| Gestures.PanAndZoom.MouseDown | static/pan-and-zoom.js:39-43 | remembers the element coordinates and binds one more move handler (Dragging), only when pan is wired |
| Gestures.PanAndZoom.MouseUp | static/pan-and-zoom.js:44-47 | unbinds every move handler (Idle) and keeps the remembered point |
| Gestures.PanAndZoom.MouseMove | static/pan-and-zoom.js:27-36 | one delta per bound handler, none while Idle, each the displacement from the mousedown point |
| Gestures.PanAndZoom.Wheel | static/pan-and-zoom.js:52-62 | a zoom exactly when zoom is wired and deltaY ≠ 0, with zoomY = −deltaY at the pointer |
| Gestures.PanAndZoom.DblClick | static/pan-and-zoom.js:63-72 | a zoom whenever zoom is wired: +dblclickZoom, or −dblclickZoom with alt |
| Gestures.Drag | static/pan-and-zoom.js:26-47 | a whole drag reports each move's position less the mousedown position and ends Idle |
| HeatmapView.ViewportRecord.Constrain | static/backbone-heatmap.js:184-198 | the in-place clamp leaves the record equal to the clamped viewport |
| HeatmapView.DefaultsRenderable | static/backbone-heatmap.js:103-109 | the default colours parse and the default canvas is non-empty |
| HeatmapView.HeatmapRamp | static/backbone-heatmap.js:425-428 | the ramp runs from the configured minColor at minscore to maxColor at maxscore, with opaque colours and a non-zero range |
| HeatmapView.CellFills | static/backbone-heatmap.js:451-467 | one fill per cell, in order, in the cell's rectangle and the ramp colour of its score |
| HeatmapView.OpaqueRampFillsAreHex | static/backbone-heatmap.js:458-465 | every fill style of `_render` is a `#rrggbb` string |
| HeatmapView.PanBy | static/backbone-heatmap.js:226-256 | on a 320-pixel canvas showing 1000 bases inside the header, a drag of px pixels moves the view back px·1000/320 bases |
| HeatmapView.PausedDragPansTwice | static/backbone-heatmap.js:219-256 | with cumulative deltas, a 64-pixel drag paused at 32 moves the view 300 bases, where one flush moves it 200 |
| HeatmapView.PanMovesView | static/backbone-heatmap.js:248-256 | the corrected pan of 32 pixels moves 1000..2000 to 900..1900 |
| HeatmapView.Visualization.constructor | static/backbone-heatmap.js:142-146 | the view starts with an empty accumulator and nothing pending |
| HeatmapView.Visualization.OnZoom | static/backbone-heatmap.js:265-270 | the accumulator grows by zoomY and the last event is pending; nothing else changes |
| HeatmapView.Visualization.FlushZoom | static/backbone-heatmap.js:212-216 | the viewport becomes the clamped zoom by the accumulated level and the accumulator resets; without a header nothing but the pending call changes |
| HeatmapView.Visualization.OnPan | static/backbone-heatmap.js:219-220 | only the last delta is kept pending |
| HeatmapView.Visualization.FlushPan | static/backbone-heatmap.js:219-262 | the viewport becomes the pan of the pending delta, clamped to the `chrom1` header |
| HeatmapView.Visualization.FlushPanAsWritten | static/backbone-heatmap.js:248-256 | as written the handler throws on `header`, so the viewport stays and the pending call is spent |
| HeatmapView.Visualization.ProgressiveRequests | static/backbone-heatmap.js:277-291 | four fetches in issue order, each the resolution pair for the next rung of the ladder |
| HeatmapView.Visualization.RenderLayer | static/backbone-heatmap.js:417-469 | every pixel ends as the cell fills painted over it say; without a header nothing is painted |
| HeatmapView.Visualization.ClearCanvas | static/backbone-heatmap.js:471-482 | a fresh canvas of the configured size, all grey; the view state is unchanged |
| HeatmapView.Visualization.Render | static/backbone-heatmap.js:294-299 | every pixel shows the cell fills painted over the grey background |
| Composable.FirstAnswering | static/composable.js:81-90 | the first sub-model answering the probe: none answers before it, and none at all when the result is absent |
| Composable.Resolve | static/composable.js:76-92 | the own value unless undefined (a null is returned), else the first defined sub-model value, else undefined |
| Composable.Owner | static/composable.js:115-131 | a key goes to the first sub-model that has it unless the composite holds it; otherwise to the composite |
| Composable.RoutedOnce | static/composable.js:115-133 | each key of `set(obj)` is written in exactly one place |
| Composable.MergeAllLookup | static/composable.js:53-59 | the merged JSON holds every sub-model key, each with the value of the last sub-model holding it |
| Composable.ComposableModel.Submodels | static/composable.js:43-50 | each sub-model under its name, and no other names |
| Composable.ComposableModel.Has | static/composable.js:66-74 | true exactly when the composite or some sub-model holds a non-null, non-undefined value |
| Composable.ComposableModel.Get | static/composable.js:76-92 | returns the resolved value |
| Composable.ComposableModel.SetKey | static/composable.js:94-113 | with `local` or no sub-model having the key, the own attribute is written; otherwise only the first sub-model having it |
| Composable.ComposableModel.SetAll | static/composable.js:94-133 | with `local` all keys are written to the composite; otherwise each sub-model gains exactly its routed keys and the composite the rest |
| Composable.ComposableModel.SetAllAsWritten | static/composable.js:115-133 | each sub-model gains exactly its routed keys and the composite the rest, whatever `local` says |
| Composable.ComposableModel.ToJson | static/composable.js:53-64 | the own `defaults` keys win, then the last sub-model holding a key; no other keys |
| Composable.ComposableModel.Unset | static/composable.js:94-113 | `unset(name)` passes through the composite's `set`: it deletes the key from the first sub-model that has it, else from the own attributes |
| Composable.ComposableModel.AttributeToProperty | static/composable.js:35-41 | the property is the value when truthy, else `get(name)`; the name is then unset from the first sub-model that has it, else from the own attributes |
| Composable.LocalObjectSetReachesSubmodel | static/composable.js:97-133 | `set({start1: 5}, {local: true})` over a sub-model holding `start1` routes the key to the sub-model |
| Composable.StringSetBehindOwnKey | static/composable.js:105-113 | a string-form set of a key the composite holds writes the sub-model, and `get` still returns the composite's own value |
| Prototype.WithDefaults | static/multiresolution-heatmap.js:10-20 | missing or undefined defaults are filled in; every other entry is kept |
| Prototype.WithDefaultsIdempotent | static/multiresolution-heatmap.js:10-20 | filling in the defaults twice equals filling once |
| Prototype.EmptyConfigIsDefaults | static/multiresolution-heatmap.js:10-20 | an empty configuration becomes the defaults |
| Prototype.DefaultsAreNumeric | static/multiresolution-heatmap.js:10-20 | the defaults give numeric starts, window and a non-zero canvas |
| Prototype.PanStart | static/multiresolution-heatmap.js:35-46 | the start moves against the drag by the dragged fraction of the window |
| Prototype.PanStartUndone | static/multiresolution-heatmap.js:35-46 | panning back by the same delta returns to the start |
| Prototype.PanStartComposes | static/multiresolution-heatmap.js:35-46 | two pans in a row are one pan by their sum |
| Prototype.ZoomWindow | static/multiresolution-heatmap.js:26 | the window shrinks by accumulator·1000: narrower for zoom in, wider for zoom out |
| Prototype.ZoomWindowComposes | static/multiresolution-heatmap.js:24-30 | applying two accumulated zooms in turn equals applying their sum |
| Prototype.PrototypeHeatmap.SetUp | static/multiresolution-heatmap.js:9-24 | the configuration is the defaulted one; the accumulator is 0; nothing is pending |
| Prototype.PrototypeHeatmap.OnZoom | static/multiresolution-heatmap.js:50-56 | the accumulator grows by zoomY and the load is pending |
| Prototype.PrototypeHeatmap.FlushZoom | static/multiresolution-heatmap.js:25-30 | the window shrinks by the accumulated zoom, the accumulator resets, one reload; the starts are unchanged |
| Prototype.PrototypeHeatmap.OnPan | static/multiresolution-heatmap.js:33 | only the last delta is kept pending |
| Prototype.PrototypeHeatmap.FlushPan | static/multiresolution-heatmap.js:33-48 | both starts move by their pan, scaled by the same window, unclamped; the window is unchanged; one reload |

## Left out

- Network and browser I/O is not modelled:
  - the AJAX fetch, the `data` and `error` triggers, and `window.data`;
  - URL `pushState` and console logging;
  - the form controls (`_setUpControls`, `_renderControls`,
    `_templateControls`, `_updateControls`, the `events` hash);
  - `canvas.setAttribute`.

  `HeatmapView.Visualization.ProgressiveRequests` returns the requested
  resolution pairs instead of fetching them.
- Timing is not modelled: the 300 ms debounce timer, the order in which
  fetches complete, and Backbone `listenTo` and `change` events. Each
  debounced callback is a pending slot plus an explicit flush method.
- `Color.toHSL` and `toARGB` are not modelled. `mix` reads the alphas
  directly instead of going through `toHSL`.
- JavaScript floating point is not modelled: coordinates and channels are
  exact reals, and `Math.floor` and `Math.round` are exact.
- Colors.ToCss: the text of the alpha inside `rgba(...)` is kept abstract.
  The string holds the rounded channels and the alpha as a number.
- Colors.ParseText: text that is not all hex digits is outside the model,
  which states hex digits as a precondition. On such text `parseInt` gives
  NaN or the value of a valid prefix.
- Colors.Mix: the model requires both colours to have at least three
  channels. On shorter channel arrays the source reads `undefined` and
  produces NaN channels.
- Colors.Normalised: the model requires a non-zero value range. The source
  divides by zero, which gives NaN, when minscore equals maxscore.
- HeatmapView.Visualization.RenderLayer: the model requires a non-empty
  canvas, a non-zero minscore-to-maxscore range and a non-zero region
  width and height. For these inputs the source paints NaN rectangles or
  colours. The `this.zoom` branch of `_render` is not modelled, because
  `zoom` is always 0.
- HeatmapView.Visualization: the configured colours must be six hex
  digits, optionally after one leading character. This is the form the
  defaults use. Shorthand colours such as `fff` are outside the model,
  although the ramp accepts them.
- `testPattern` is a debug helper, and it reads a `window_size` field that
  this configuration does not have.
- `ComposableModel._compose` is not modelled: it builds the sub-models and
  wires `listenTo`. A composite is modelled one level deep, with sub-models
  that are plain Backbone models. `MRHConfig` nests `MRHDataConfig`, whose
  own sub-models are not expanded.
- `MRHSource.availableChroms` only feeds the form controls, so it is left
  out.
- Prototype.PrototypeHeatmap.SetUp: the source coerces strings in the
  configuration to numbers. The model requires the starts, the window and
  the canvas size to be numbers, with a non-zero canvas size.
- The prototype's `reload` and `updateForm` are not modelled. A reload is
  recorded as the window it would fetch.
- The commented-out `_constrainViewport` call in the view's `onpan` is not
  modelled. It would have shifted axis 2 by the x delta.

## Findings

| source | as written | input that shows it | evidently intended | confidence | as-written member | corrected member |
|---|---|---|---|---|---|---|
| static/backbone-heatmap.js:248-256 | the pan clamp reads `header`, which the handler never declares (its declaration at line 224 is commented out), so the handler throws before `model.set` and no drag ever moves the view | a drag of 32 px on a 320 px canvas showing 1000..2000 of a 0..5000 chromosome leaves 1000..2000 | clamp against `currentHeader()` as `_constrainViewport` does, moving the view to 900..1900 | not executed; high, unless the host page defines a global named `header` | HeatmapView.Visualization.FlushPanAsWritten | HeatmapView.Visualization.FlushPan |
| static/composable.js:97-101 | `options.local` is read from the third argument, but the object form `set(obj, options)` passes its options second, so `local` is ignored and keys are still routed to sub-models | `set({start1: 5}, {local: true})` when a sub-model has `start1` writes the sub-model (`Composable.LocalObjectSetReachesSubmodel`) | with `local` every key is written to the composite, as in the string form | not executed; medium | Composable.ComposableModel.SetAllAsWritten | Composable.ComposableModel.SetAll |
