# PC monitor dashboard: sensor-tree queries and gauge arc geometry

A Dafny model of the two pieces of sequential logic in the PC-monitor mobile
dashboard:

- **Sensor-tree queries** of the hardware API service (module `SensorTree`,
  `sensor_tree.dfy`). The API returns a tree of `SensorNode`s; the dashboard
  looks up a sensor by its `SensorId`, a component by its display `Text`,
  and collects all sensors of one `Type`. The two look-ups are one generic
  depth-first search, `Find`, proved equal to "the first matching node of the
  tree's pre-order" (`FirstMatch` over `PreOrder`). The type query is
  `GetSensorsByType`, a recursive method with a loop over the children that
  appends each child's results. It is proved equal to `Filter` over the
  pre-order: every matching node, in pre-order, and nothing else.
- **Radial gauge geometry and render state** (module `Gauge`, `gauge.dfy`).
  The pure part is the span angle, the value-to-angle map, the end angle, the
  two large-arc-flag rules and the `M … A …` path. The stateful part is the
  `GaugePath` object. Its value element and its span angle are created once,
  on the first value render. The component's `ngOnChanges` guard decides
  whether a value change redraws.

`wrappers.dfy` holds the `Option` type (`undefined` becomes `None`).

Modelling choices:

- A node's `Children` is declared in the interface as always present. All
  three queries still test it before iterating, so a missing list is a
  separate case (`Children.Missing`) and behaves as a leaf.
- `getCartesian` uses cosine, sine and rounding to three decimals. It is kept
  symbolic: a point is the term `OnCircle(cx, cy, radius, degrees)`, with the
  angle reduced to [0, 360) so that angles a full turn apart name the same
  point. A path's
  `d` attribute is the token array before `join(" ")` (`seq<Token>`), so
  number-to-text formatting is not modelled. `ParseArc` reads such an array
  back as one move-to plus one arc, and `ParseArcInverse` proves the two
  directions inverse.
- Numbers are exact reals.
- `updatePath(path, value)` initialises its `path` argument but then draws
  into `this.path`. Its only callers pass `this.path`, so the model has one
  `GaugePath.UpdatePath` acting on its own object.
- The DOM element is a `PathElement` object holding only `d`. So "created
  once" is stated as object identity (`fresh` on the first call, the same
  object afterwards).

About the large-arc flags and what the component does not do:

- The two helpers use opposite large-arc-flag rules: `<= 180 ? 0 : 1` in
  `setSvgArcPathString` and `<= 180 ? 1 : 0` in `createSvgArcPathString`.
  The model proves that each rule fits the arcs its helper draws. The dial
  arc has its end angle below its start, so it wraps and turns through the
  whole span (`DialLargeArc`, `WrappedSweep`). For a value in [0, 100] on a
  span strictly between 0 and 360 degrees, the value arc runs forward from the start angle,
  less than a turn, and its flag fits too (`ValueLargeArc`,
  `ValueArcWithinDial`). The dial rule would be wrong for a short forward arc
  (`DialLargeArcMisfitsForward`), but no call site draws one.
- `value` is an unchecked number input. Outside [0, 100] the value arc can
  go past a full turn or run backwards, and then the value rule's flag can be
  wrong: `ValueArcMisfitsPastFullScale` shows the value 150 on the default
  dial. Dial angles more than a turn apart give a negative span, and then the
  value arc runs backwards: `ValueArcRunsBackOnNegativeSpan` shows the dial
  angles 0 and 450.
- The component has no colour-range mapping, animation or text label;
  `colorFn` is declared and never called.

## Model

| member | source | states |
|---|---|---|
| `SensorTree.Matches` | src/app/pcmonitorapi.service.ts:61 | the definition of the strict comparisons at lines 61, 86 and 106: an absent `SensorId` or `Type` never matches a query, and a name query matches exactly the nodes with that `Text` (used by `FindSensorById`, `GetSensorsByType`, `GetComponentByName`) |
| `SensorTree.FirstMatch` | src/app/pcmonitorapi.service.ts:65-72 | the reference for "first hit": `None` iff no element matches; otherwise the value is a matching element at some index, and no earlier element matches |
| `SensorTree.Find` | src/app/pcmonitorapi.service.ts:60-75 | the recursive search (root, then each child's subtree, stopping at the first hit) equals the first match of the tree's pre-order |
| `SensorTree.FindIn` | src/app/pcmonitorapi.service.ts:65-72 | the loop over the children with early return equals the first match of the children's concatenated pre-orders |
| `SensorTree.FindSensorById` | src/app/pcmonitorapi.service.ts:60-75 | returns the root when its `SensorId` is the query; a hit is a tree node with that `SensorId`; absent iff no node has it (an absent `SensorId` never matches); the first pre-order match; a node without `Children` is a leaf |
| `SensorTree.GetComponentByName` | src/app/pcmonitorapi.service.ts:105-120 | the same search keyed on `Text`: root first, hit is a tree node with that `Text`, absent iff none has it, first in pre-order, leaf when `Children` is missing |
| `SensorTree.FindIsTreeSearch` | src/app/pcmonitorapi.service.ts:60-75 | for any query, a hit matches and lies in the tree, and a miss happens exactly when no tree node matches |
| `SensorTree.PreOrderIsTree` | src/app/pcmonitorapi.service.ts:65-72 | a node occurs in the pre-order iff it lies in the tree (root or below a child), so the traversal visits every node and only those |
| `SensorTree.Filter` | src/app/pcmonitorapi.service.ts:86-88 | every kept node matches the query, and the result is no longer than the input |
| `SensorTree.FilterAppend` | src/app/pcmonitorapi.service.ts:90-94 | filtering a concatenation concatenates the filtered parts, which is why appending each child's results gives the whole tree's |
| `SensorTree.FilterMultiplicity` | src/app/pcmonitorapi.service.ts:84-96 | a matching node is kept exactly as often as it occurs, and a non-matching one never |
| `SensorTree.FilterCount` | src/app/pcmonitorapi.service.ts:84-96 | the result's length equals the number of positions holding a matching node |
| `SensorTree.GetSensorsByType` | src/app/pcmonitorapi.service.ts:83-97 | the collected list equals the filter of the tree's pre-order by `Type`; a node without `Children` yields itself or nothing |
| `SensorTree.SensorsByTypeSpec` | src/app/pcmonitorapi.service.ts:83-97 | every returned node has the queried `Type`; a node is returned iff it lies in the tree with that `Type`; the length is the number of matching positions; no match gives an empty list |
| `SensorTree.ErrorNodeIsEmpty` | src/app/pcmonitorapi.service.ts:34 | the fallback node holds no sensor id and no typed sensor, and is found by its name `Error` |
| `Gauge.Cartesian` | src/app/components/gauge/gauge.component.ts:145-151 | the point lies on the circle of the given radius about the given centre, named by its angle reduced to [0, 360); an angle already in [0, 360) is kept |
| `Gauge.CartesianPeriodic` | src/app/components/gauge/gauge.component.ts:146-150 | angles a full turn apart give the same point, as cosine and sine do |
| `Gauge.GetDialCoords` | src/app/components/gauge/gauge.component.ts:133-143 | the definition the path contracts are stated through: both points on the circle about (50, 50); they coincide iff the angles are a whole number of turns apart (see `ValueArcSpansDial`) |
| `Gauge.SpanAngle` | src/app/components/gauge/gauge.component.ts:76 | the span is at most a full turn, and a full turn exactly when the dial's two angles coincide |
| `Gauge.GetAngle` | src/app/components/gauge/gauge.component.ts:153-155 | 0 percent gives angle 0, 100 percent gives the whole span, and a percentage in [0, 100] gives an angle within [0, span] |
| `Gauge.ArcTokens` | src/app/components/gauge/gauge.component.ts:126-129 | the path array always has the eleven entries of one move-to and one arc command |
| `Gauge.ParseArcInverse` | src/app/components/gauge/gauge.component.ts:114-117 | reading back the written array gives the same arc, and any array that reads as an arc is exactly that arc's array |
| `Gauge.CreateSvgArcPathString` | src/app/components/gauge/gauge.component.ts:121-130 | the path reads as `M start A r r 0 flag 1 end`, with the start point at the start angle, the end point at the end angle, and the dial rule's large-arc flag |
| `Gauge.ValueAngle` | src/app/components/gauge/gauge.component.ts:100-104 | the definition of the value arc's angle: 0 when the span is unset or 0 and for the value 0; the whole span for the value 100; within [0, span] for a value in [0, 100] |
| `Gauge.ValueEndAngle` | src/app/components/gauge/gauge.component.ts:106 | the definition of the end angle: the start for the value 0, start plus span for the value 100, and between them for a value in [0, 100] on a non-negative span (see `ValueArcWithinDial`, `DefaultFirstRender`) |
| `Gauge.ValueArcPathString` | src/app/components/gauge/gauge.component.ts:99-117 | the value path reads as `M start A r r 0 flag 1 end`: it ends at the dial start plus the value's angle (0 when the span is unset or 0), with the value rule's flag |
| `Gauge.ForwardSweep` | src/app/components/gauge/gauge.component.ts:116 | an arc with sweep flag 1 that runs forward from its start, less than a turn, turns through exactly the difference of its angles |
| `Gauge.WrappedSweep` | src/app/components/gauge/gauge.component.ts:128 | an arc with sweep flag 1 whose end angle is below its start turns through exactly the span `360 - abs(start - end)` |
| `Gauge.ValueLargeArc` | src/app/components/gauge/gauge.component.ts:111 | the value rule's flag fits the angle actually turned through, for every arc that runs forward less than a turn |
| `Gauge.DialLargeArc` | src/app/components/gauge/gauge.component.ts:125 | the dial rule's flag fits the angle actually turned through, for every arc whose end angle is below its start, less than a turn |
| `Gauge.LargeArcFlagsDiffer` | src/app/components/gauge/gauge.component.ts:111-125 | for the same two angles the value rule and the dial rule always choose opposite flags |
| `Gauge.DialLargeArcMisfitsForward` | src/app/components/gauge/gauge.component.ts:125 | the dial rule gives the wrong flag for a short arc that runs forward |
| `Gauge.ValueArcMisfitsPastFullScale` | src/app/components/gauge/gauge.component.ts:100-111 | the value 150 on the default dial ends at 540 degrees, an arc of 45 degrees, yet the value rule gives the major-arc flag |
| `Gauge.ValueArcRunsBackOnNegativeSpan` | src/app/components/gauge/gauge.component.ts:76-111 | dial angles 0 and 450 give span -90; the value 50 then ends at -45 degrees, an arc drawn as 315 degrees, yet the value rule gives the minor-arc flag |
| `Gauge.ValueArcSpansDial` | src/app/components/gauge/gauge.component.ts:133-143 | on a wrapping dial, the value arc starts at the dial's start point; the value 0 ends there, and the value 100 ends exactly at the dial's end point |
| `Gauge.ValueArcWithinDial` | src/app/components/gauge/gauge.component.ts:100-111 | for a value in [0, 100] and a span below a full turn, the value arc ends inside the dial, turns through exactly the value's angle, and has a fitting flag |
| `Gauge.GaugePath.Default` | src/app/components/gauge/gauge.component.ts:36-41 | the initial path: radius 45, dial from 135 to 45 degrees, colour `#129`, no element and no span |
| `Gauge.GaugePath.SetSvgArcPathString` | src/app/components/gauge/gauge.component.ts:99-119 | writes the value path for `value` into an existing element; with no element it may change nothing |
| `Gauge.GaugePath.UpdatePath` | src/app/components/gauge/gauge.component.ts:74-86 | the first call creates a fresh element and fixes the span at `360 - abs(start - end)`; later calls keep the same element and span; every call leaves the element holding the value path |
| `Gauge.GaugeComponent.constructor` | src/app/components/gauge/gauge.component.ts:33-42 | a new component has value 0, no SVG, no dial element, and a fresh default path (radius 45, dial 135 to 45, colour `#129`) with no element and no span |
| `Gauge.GaugeComponent.NgAfterViewInit` | src/app/components/gauge/gauge.component.ts:55-72 | creates the SVG and a fresh dial element drawn from 135 to 45 degrees, then renders the value 50 through `UpdatePath` |
| `Gauge.RedrawsOn` | src/app/components/gauge/gauge.component.ts:50 | the definition of the redraw guard: never without the SVG, never when `value` is not among the changes, never on its first change (used by `NgOnChanges`) |
| `Gauge.GaugeComponent.NgOnChanges` | src/app/components/gauge/gauge.component.ts:49-53 | redraws through `UpdatePath` exactly when `value` is among the changes, the change is not the first, and the SVG exists; otherwise element, span and path are untouched |
| `Gauge.DefaultFirstRender` | src/app/components/gauge/gauge.component.ts:36-40 | with the default path the span is 270, the value 50 ends at 270 degrees on a minor arc, and the dial arc turns through exactly 270 degrees with its large-arc flag set |

## Left out

- `getHardwareData` and `getHardwareDataStream` (HTTP request, polling timer, `switchMap`, console logging): network I/O and asynchronous scheduling. Only the fallback node they return on error is kept, as `ErrorNode`.
- DOM construction (`createSvgElement`, `querySelector`, `appendChild`, the `class`, `fill`, `stroke` and `stroke-width` attributes, the SVG's size and view box) and `ngOnInit`: browser plumbing. The SVG is only a flag saying whether it exists, and a path element is only its `d` attribute.
- `getCartesian`'s cosine, sine, degree-to-radian conversion and rounding to three decimals: floating-point trigonometry. `Cartesian` keeps the point symbolic, so the model says which circle point each coordinate names, not its numeric value. Angles a full turn apart are the same point in both the program and the model. Two other angles can give the same rounded coordinates in the program (radius 0, or angles closer than the rounding), but never in the model.
- Dial angles more than a turn apart: the span `360 - abs(start - end)` is then negative and the value arc runs backwards. The component only uses 135 and 45, and the model computes every span the same way; `ValueArcWithinDial` promises a fitting arc only for a span strictly between 0 and 360.
- Values outside [0, 100]: the component draws them unchecked, and the model draws them the same way. `ValueArcWithinDial` promises a fitting arc only for values in [0, 100]; `ValueArcMisfitsPastFullScale` shows a value beyond that range.
- `join(" ")` and the number-to-text formatting in the `d` attribute: the attribute is the token array before joining.
- JavaScript numbers are IEEE doubles; the model uses exact reals, so `NaN`, infinities and rounding in `getAngle` are not modelled.
- The `config` input and `colorFn` are declared but never read; the component has no colour-range mapping, animation or text label. None is modelled.
- The SensorNode fields `ImageURL`, `Max`, `Min`, `Value` and `id` are carried in the datatype but no query reads them.
- Application shell, pages, routing, the page smoke test and the Capacitor configuration hold no logic.
