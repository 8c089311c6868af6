# react-components: verified model of the glow line and the circle pool

This project models, in Dafny, the logic underneath four React components:

- **GlowLine** — a horizontal line whose `background` follows the pointer. On
  every `mousemove` the pointer's position along the container becomes four
  band boundaries and a six-stop `linear-gradient()` (CSS Images Module
  Level 3, section 3.1): main colour, fading into the highlight colour around
  the pointer, fading back to the main colour. On `mouseleave` (and on
  mount) the background is the plain main colour. Settings fall back to
  defaults by JavaScript truthiness.
- **CirclePool** — every click adds a circle to an append-only list: its
  centre is the click in pool coordinates, its radius a randomly chosen
  fraction of the pool's smaller side, its colour a randomly chosen one, its
  variant (solid or grainy) chosen by the current `circleType`, its index the list's old
  length and its key `color_<index>` or `grainy_<index>`.
- **ColorCircle** and **GrainyColorCircle** — each maps the props
  `(radius, x, y, index, color)` to an element: a square box of side
  `radius` centred on `(x, y)` (so the "radius" prop is really the circle's
  diameter, kept as the code has it), either rounded into a flat circle or
  holding an SVG circle inscribed in the box, filled with a three-stop radial
  gradient and a noise filter whose ids are `gradient-<index>` and
  `noise-<index>`.

Numbers are `real`. Random draws, bounding rectangles, pointer coordinates
and the presence of the React refs are parameters. Modules: `Options`
(JavaScript `undefined` as `None`), `Text` (the decimal text a template
literal gives an index), `Layout` (rectangles, `Math.min`, the centred square
box, circle props), `GlowLine`, `CirclePool`, `ColorCircle`,
`GrainyColorCircle`. The state the source mutates is modelled by two classes:
`GlowLine.Line` (the line's `background`) and `CirclePool.Pool` (the
`circles` list, replaced by an appended copy on each click).

The model follows the code: the gradient has six stops; the pointer
fraction is not clamped to [0, 1]; a glow radius of 0 falls back to the
default 1; an empty radius or colour list raises no error, and the element
read is `undefined` (`Choose` returns `None`). GlowLine's handlers are
registered once, on mount, so they keep the settings of the first render
(`Line.config` is fixed); CirclePool's click handler is re-created on every
render, so each click reads the current props (`Pool.AddCircle` takes them
as a parameter, and one pool may hold circles of both variants).

## Model

| member | source | states |
|---|---|---|
| `GlowLine.SettingsOf` | src/components/GlowLine/GlowLine.jsx:34 | the settings passed are read as they are; with none passed, every field is missing |
| `GlowLine.Resolve` | src/components/GlowLine/GlowLine.jsx:34-41 | each truthy setting is kept; a missing, empty or zero one becomes its default ("rgb(0,0,0)", "rgb(255,255,255)", 1, 4); no resolved setting is falsy |
| `GlowLine.ResolveIdempotent` | src/components/GlowLine/GlowLine.jsx:34-41 | feeding the resolved settings back in changes nothing |
| `GlowLine.PointerFraction` | src/components/GlowLine/GlowLine.jsx:55-56 | the fraction is in [0, 1] exactly when the pointer is over the container, and `left + p·width == clientX`; no clamping outside |
| `GlowLine.Max0` | src/components/GlowLine/GlowLine.jsx:58-65 | the cut-off at 0 is at least 0 and at least its argument, and equals one of the two |
| `GlowLine.BandsAt` | src/components/GlowLine/GlowLine.jsx:58-65 | all four boundaries are >= 0; for a glow radius >= 0 they are ordered leftStart <= leftEnd <= rightStart <= rightEnd |
| `GlowLine.BandsCentredOnPointer` | src/components/GlowLine/GlowLine.jsx:58-65 | away from the left edge the glow spans g percent and the full highlight 0.2·g percent on each side of the pointer |
| `GlowLine.BandsNotCappedAt100` | src/components/GlowLine/GlowLine.jsx:62-65 | near or past the right edge rightEnd exceeds 100: nothing caps the boundaries |
| `GlowLine.BandsAtMiddle` | src/components/GlowLine/GlowLine.jsx:58-65 | pointer at 0.5 with glow radius 1 gives 49, 49.8, 50.2, 51 |
| `GlowLine.GlowStops` | src/components/GlowLine/GlowLine.jsx:67 | exactly six stops: main at 0%, main at leftStart, highlight at leftEnd, highlight at rightStart, main at rightEnd, main at 100% |
| `GlowLine.MoveBackground` | src/components/GlowLine/GlowLine.jsx:54-67 | a move gives a six-stop gradient: main colour at 0%, at the left band start, at the right band end and at 100%; highlight colour at the two inner band boundaries, all computed from `(clientX - left) / width` |
| `GlowLine.GlowStopsOrdered` | src/components/GlowLine/GlowLine.jsx:58-67 | while the glow fits on the line the six offsets are non-decreasing from 0 to 100 |
| `GlowLine.Line.constructor` | src/components/GlowLine/GlowLine.jsx:85-87 | on mount the background is the solid resolved main colour |
| `GlowLine.Line.HandleMouseMove` | src/components/GlowLine/GlowLine.jsx:51-68 | with both refs present the background becomes the six-stop gradient for the pointer fraction; with either missing it is unchanged |
| `GlowLine.Line.HandleMouseLeave` | src/components/GlowLine/GlowLine.jsx:46-49 | with the line present the background becomes the solid main colour whatever it was; otherwise unchanged |
| `GlowLine.HoverThenLeave` | src/components/GlowLine/GlowLine.jsx:70-87 | after any moves, leaving restores exactly the background the line had on mount |
| `Layout.Min` | src/components/CirclePool/CirclePool.jsx:52 | the result is one of the two sides and no larger than either |
| `Layout.CentredSquare` | src/components/ColorCircle/ColorCircle.jsx:44-47 | the box is square with side `radius` and its centre is (x, y) |
| `CirclePool.RandomIndex` | src/components/CirclePool/CirclePool.jsx:35-37 | for min <= max and r in [0, 1) the result is an integer in [min, max]; on the empty range it is min |
| `CirclePool.RandomIndexInterval` | src/components/CirclePool/CirclePool.jsx:35-37 | index k of [0, n) is drawn exactly for r in [k/n, (k+1)/n): every position gets an equal share of the draws |
| `CirclePool.Choose` | src/components/CirclePool/CirclePool.jsx:55-56 | an element of the list is chosen exactly when the list is non-empty (else undefined); a one-element list always gives its element |
| `CirclePool.ChooseReachesEveryPosition` | src/components/CirclePool/CirclePool.jsx:64 | every position of a non-empty list is chosen by some draw |
| `CirclePool.MapClick` | src/components/CirclePool/CirclePool.jsx:46-52 | local coordinates are the click minus the pool's top-left corner, unclamped; the scale is the smaller of width and height |
| `CirclePool.MapClickExample` | src/components/CirclePool/CirclePool.jsx:46-52 | (150, 80) on a pool at (100, 50) of 300 by 200 maps to (50, 30) with scale 200 |
| `CirclePool.VariantOf` | src/components/CirclePool/CirclePool.jsx:60 | grainy exactly when `circleType` is "grainy"; anything else, absent included, is solid |
| `CirclePool.KeyOf` | src/components/CirclePool/CirclePool.jsx:68-79 | the key starts with the variant's prefix (`grainy_` or `color_`) and the rest reads back as the index |
| `CirclePool.KeyInjective` | src/components/CirclePool/CirclePool.jsx:67-79 | keys `grainy_<index>` and `color_<index>` agree only for the same variant and index |
| `CirclePool.NewCircle` | src/components/CirclePool/CirclePool.jsx:44-82 | the circle a click builds; its properties are stated by `NewCircleSpec` and `NewCircleRadiusBounded` |
| `CirclePool.NewCircleSpec` | src/components/CirclePool/CirclePool.jsx:44-82 | the circle sits at the local click, its radius is a configured fraction times the scale, its colour a configured colour, its index the given one, variant and key as configured |
| `CirclePool.NewCircleRadiusBounded` | src/components/CirclePool/CirclePool.jsx:52-56 | with fractions in [0, 1] the radius lies in [0, min(width, height)] |
| `CirclePool.Draw` | src/components/CirclePool/CirclePool.jsx:59-82 | a grainy circle is drawn by GrainyColorCircle, any other by ColorCircle, with the circle's props |
| `CirclePool.DrawnCentredOnClick` | src/components/CirclePool/CirclePool.jsx:46-82 | the drawn element's box is centred on the click in pool coordinates, for both variants |
| `CirclePool.Append` | src/components/CirclePool/CirclePool.jsx:84 | the new list is one longer, keeps the old list as its prefix, and ends with the new circle whose index is the old length |
| `CirclePool.AppendKeepsNumbered` | src/components/CirclePool/CirclePool.jsx:84 | appending a circle built under any props keeps every circle numbered by its position with the key of its own variant and index |
| `CirclePool.NumberedKeysUnique` | src/components/CirclePool/CirclePool.jsx:67-79 | no two circles of the pool share a React key, even when their variants differ |
| `CirclePool.Replay` | src/components/CirclePool/CirclePool.jsx:84 | after the first n clicks the list holds n circles |
| `CirclePool.ReplayAt` | src/components/CirclePool/CirclePool.jsx:67-84 | the i-th circle after n clicks is the circle click i created |
| `CirclePool.ReplayMadeByClicks` | src/components/CirclePool/CirclePool.jsx:67-84 | the i-th circle is the one click i made, with index i: indices are 0..n-1 in insertion order |
| `CirclePool.ReplayExtends` | src/components/CirclePool/CirclePool.jsx:84 | later clicks never change earlier circles: the list after k clicks is a prefix of the list after n >= k clicks |
| `CirclePool.ThreeClicksScenario` | src/components/CirclePool/CirclePool.jsx:46-84 | radii [0.2, 0.2, 0.8], colour "blue", three clicks on 400 by 200: indices 0, 1, 2, all blue, radius 40 or 160 |
| `CirclePool.Pool.constructor` | src/components/CirclePool/CirclePool.jsx:40 | a mounted pool holds no circles, and the empty list is numbered |
| `CirclePool.Pool.AddCircle` | src/components/CirclePool/CirclePool.jsx:42-85 | a click under the current props makes the list the old list followed by the circle those props give, and it stays numbered |
| `CirclePool.ClickMany` | src/components/CirclePool/CirclePool.jsx:39-93 | n clicks on a fresh pool, with the props unchanged between them, leave the replayed list: n circles, indices 0..n-1, distinct keys |
| `ColorCircle.Render` | src/components/ColorCircle/ColorCircle.jsx:38-56 | key is the index; the box is a square of side `radius` centred on (x, y) with border radius 50%, so the drawn diameter is `radius`; background colour is `color` |
| `ColorCircle.RenderTranslates` | src/components/ColorCircle/ColorCircle.jsx:44-45 | moving the centre moves the box by the same amount and changes nothing else |
| `GrainyColorCircle.RadialStops` | src/components/GarinyColorCircle/GrainyColorCircle.jsx:68-72 | three stops from 0% to 100%, offsets strictly increasing, opacities from 1 down to 0 non-increasing, all in `color` |
| `GrainyColorCircle.Render` | src/components/GarinyColorCircle/GrainyColorCircle.jsx:38-81 | same centred square box as ColorCircle; circle inscribed (touches all four sides); fill and filter refer to this index's gradient and noise ids |
| `GrainyColorCircle.CircleInsideBox` | src/components/GarinyColorCircle/GrainyColorCircle.jsx:74-77 | with a non-negative radius the circle lies within the box |
| `GrainyColorCircle.FilterId` | src/components/GarinyColorCircle/GrainyColorCircle.jsx:54 | the filter id is "noise-" followed by digits that read back as the index |
| `GrainyColorCircle.GradientId` | src/components/GarinyColorCircle/GrainyColorCircle.jsx:68 | the gradient id is "gradient-" followed by digits that read back as the index |
| `GrainyColorCircle.UrlRef` | src/components/GarinyColorCircle/GrainyColorCircle.jsx:78-79 | the reference is the id wrapped in "url(#" and ")", and the id can be cut back out of it |
| `GrainyColorCircle.UrlRefInjective` | src/components/GarinyColorCircle/GrainyColorCircle.jsx:78-79 | a `url(#…)` reference names exactly one id |
| `GrainyColorCircle.IdsInjective` | src/components/GarinyColorCircle/GrainyColorCircle.jsx:54-68 | distinct indices give distinct filter ids and distinct gradient ids; no filter id equals a gradient id |
| `GrainyColorCircle.ReferencesDistinct` | src/components/GarinyColorCircle/GrainyColorCircle.jsx:78-79 | circles with different indices refer to different fills and filters |
| `Text.Decimal` | src/components/CirclePool/CirclePool.jsx:68 | an index's text is non-empty, all digits, and starts with '0' only for 0 |
| `Text.ParseDecimalOfDecimal` | src/components/CirclePool/CirclePool.jsx:68 | reading the text back gives the index |
| `Text.NumberedNameInjective` | src/components/GarinyColorCircle/GrainyColorCircle.jsx:54 | a fixed prefix followed by an index names each index once |

## Left out

- React machinery: `useState`, `useRef`, `useEffect`, re-rendering and JSX element construction. Refs are parameters (`Option<Rect>` for the container, a flag for the line), the mount effect is the `Line` constructor, and elements are records.
- Event-listener registration and removal (src/components/GlowLine/GlowLine.jsx:74-83), `document.getElementById` and `getBoundingClientRect`: rectangles and pointer coordinates are inputs.
- `Math.random`: each click carries its two draws in [0, 1). The statistical claim that a repeated entry is chosen more often is stated only as `RandomIndexInterval` (each position owns an interval of draws of width 1/n).
- IEEE-754 rounding, NaN and Infinity: numbers are reals, so 49.8 and 50.2 hold exactly only here.
- `GlowLine.PointerFraction`: requires a container of positive width; with width 0 JavaScript divides by zero and yields Infinity or NaN, which reals cannot express.
- `CirclePool.Pool.AddCircle`: requires non-empty radius and colour lists, because they are what the draws pick from (src/components/CirclePool/CirclePool.jsx:11-12); with an empty list the source reads `undefined` (modelled by `Choose` returning `None`) and would build a circle with a NaN radius or an undefined colour, which the model does not construct.
- `CirclePool.Replay` and `CirclePool.ClickMany`: a run of clicks is replayed under one set of props; a props change between clicks is modelled only click by click, through `Pool.AddCircle`'s props parameter.
- The text of the `linear-gradient(...)` value (src/components/GlowLine/GlowLine.jsx:67) and the browser's treatment of out-of-range or out-of-order stops: the background is a list of (offset, colour) stops.
- The line's `height` style from `lineThickness` (src/components/GlowLine/GlowLine.jsx:94): only the resolved `lineThickness` value is modelled.
- `onCircleClick` in both circle components: it only calls `preventDefault`, a DOM action, and changes no prop or state, so there is nothing to model.
- The SVG noise filter's contents and attributes (feTurbulence and feComposite constants, src/components/GarinyColorCircle/GrainyColorCircle.jsx:54-66), the fade-in animation and the stylesheets.
- JavaScript's loose `==` on `circleType`: it is compared as an optional string.
