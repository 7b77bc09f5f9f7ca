# JIC.Charting 2D chart control: a Dafny model of its data side

`JIC.Charting` is a Windows Forms control that plots line series and filled
area series on a pair of axes. This project models the logic behind it:

- series storage with running extrema,
- the axes' state and auto-scaling,
- the choice of a tick step from a fixed table, and the outward rounding of
  the axis bounds,
- the data-to-pixel map,
- the tick-label, gridline and polygon sequences that painting produces,
- the plot rectangle derived from the client rectangle.

Drawing itself is left out.

Numbers are modelled as follows:

- Every `double` and `float` is a Dafny `real`, with exact arithmetic.
- `double.MaxValue` is the exact constant `Extrema.MaxS`, and `double.MinValue`
  is `Extrema.MinS`. These are the sentinels the extrema start from.
- Rectangles have `int` fields.

State is modelled as values:

- Each series, the axes, the grid, the chart area and the chart are immutable
  records.
- Each mutating member of the control becomes a function from the old record to
  the new one.
- `Invalidate()` is the chart's `dirty` flag. Every modelled setter and every
  registration sets it, and a paint clears it. The chart's own `Area`, `Grid`,
  `Title`, `Labels` and `Axes` property setters are the exception: they swap a
  sub-object without invalidating (see "Left out").

Modules follow the source files:

| module | models |
|---|---|
| `Extrema` | the sentinels and the `Math.Min` / `Math.Max` folds |
| `Point2D` | the point struct |
| `Series2D` | `Series2D` |
| `AreaSeries2D` | `AreaSeries2D` |
| `Mapping` | the affine data-to-pixel map shared by every draw routine |
| `ChartArea` | `ChartArea` |
| `Axes2D` | `Axes2D` |
| `Grid2D` | `Grid2D` |
| `TickScale` | step selection and rounding in `CalculateXTickScale` / `CalculateYTickScale` |
| `Chart2D` | `Chart2D` |

What the proofs establish:

- **Extrema track the points.** From construction through any sequence of
  `AddPoint` calls, a series' extrema are exactly the running min/max of its
  coordinates, starting from the sentinels. They therefore bracket every point.
  With finite coordinates, every extremum is attained by some stored point.
- **`Clear` breaks that invariant.** `Clear` empties the point list but keeps the
  extrema, so after `Clear` followed by `AddPoint` the extrema no longer track the
  points. The weaker invariant that every stored point lies within the extrema
  survives `Clear`, so it holds after any mix of `AddPoint` and `Clear` calls.
- **Step choice.** The chosen step is the first index in the 18-entry table with
  the smallest |range / step − 8|.
- **Rounding out.** The axis bounds become multiples of the step, with
  `min − step < axisMin <= min` and `max <= axisMax < max + step`.
- **Auto-scaling.** Auto-scaling is a no-op without series. Otherwise the
  auto-scaled x axis encloses every stored point of every series, including
  series that were cleared and refilled.
- **Y widening.** The y auto-scale widens a flat aggregate v to
  (v − 0.05·v, v + 0.05·v). This leaves v = 0 flat and reverses the pair for
  v < 0. For every y at −1010, the y axis collapses to [−1000, −1000], which
  does not contain the data (`Chart2D.FlatNegativeCollapses`).
- **Tick labels and gridlines.** Tick labels include the top of the range.
  Gridlines stop strictly below it. The gridline values are a prefix of the
  label values, one shorter exactly when the top is itself a label.
- **Area polygon.** The polygon of an area series is its mapped lower points
  followed by its mapped upper points reversed. For a paired series both end
  edges are vertical.
- **Pixel map.** Distinct data points land on distinct pixels whenever the
  plot has non-zero width and height.

## Model

| member | source | states |
|---|---|---|
| `Extrema.MinFrom` | Charting/Chart2D/Chart2D.cs:314-327 | the running `Math.Min` fold is at most the start value and every element, and is the start value or one of the elements |
| `Extrema.MaxFrom` | Charting/Chart2D/Chart2D.cs:314-327 | the running `Math.Max` fold is at least the start value and every element, and is the start value or one of the elements |
| `Extrema.MinFromSentinelIsMinimum` | Charting/Chart2D/Series2D.cs:22-32 | folding finite values from `double.MaxValue` yields their true minimum, attained by one of them |
| `Extrema.MaxFromSentinelIsMaximum` | Charting/Chart2D/Series2D.cs:27-37 | folding finite values from `double.MinValue` yields their true maximum, attained by one of them |
| `Series2D.New` | Charting/Chart2D/Series2D.cs:17-37 | a fresh series has no points, minima at `double.MaxValue`, maxima at `double.MinValue`, and its extrema track its (empty) point list |
| `Series2D.AddPoint` | Charting/Chart2D/Series2D.cs:63-72 | the count grows by one, earlier points are unchanged, the new point is last, and each extremum is the min/max of its old value and the new coordinate |
| `Series2D.Clear` | Charting/Chart2D/Series2D.cs:88-91 | the count becomes 0 and all four extrema keep their values, so the (empty) series still brackets its points |
| `Series2D.AddPointPreservesTracks` | Charting/Chart2D/Series2D.cs:63-72 | appending keeps the extrema equal to the running min/max of the stored coordinates |
| `Series2D.Count` | Charting/Chart2D/Series2D.cs:77-83 | the count is zero exactly when the series holds no points |
| `Series2D.CountCountsAppends` | Charting/Chart2D/Series2D.cs:63-91 | `Count` equals the number of `AddPoint` calls since construction, and is 0 again after `Clear` |
| `Series2D.FromPointsStoresVerbatim` | Charting/Chart2D/Series2D.cs:63-72 | any sequence of appends, in any x order, is stored verbatim in insertion order (what enumeration yields) |
| `Series2D.FromPointsTracks` | Charting/Chart2D/Series2D.cs:63-72 | after any sequence of appends from a fresh series the extrema track the stored points |
| `Series2D.AddPointKeepsBrackets` | Charting/Chart2D/Series2D.cs:63-72 | if every stored point lies within the extrema, so does every point after an append |
| `Series2D.ReplayBrackets` | Charting/Chart2D/Series2D.cs:63-91 | after any mix of AddPoint and Clear calls from a fresh series, every stored point lies within the extrema |
| `Series2D.TracksBrackets` | Charting/Chart2D/Series2D.cs:22-37 | a tracked series has every stored point within its extrema |
| `Series2D.TrackedExtremaBound` | Charting/Chart2D/Series2D.cs:22-37 | in a non-empty tracked series every point lies within the extrema, so XMin <= XMax and YMin <= YMax |
| `Series2D.TrackedExtremaAttained` | Charting/Chart2D/Series2D.cs:67-71 | with finite coordinates each extremum of a non-empty tracked series is the coordinate of some stored point |
| `Series2D.ClearKeepsStaleExtrema` | Charting/Chart2D/Series2D.cs:88-91 | after adding (100, 100), clearing and adding (1, 1), XMax and YMax are still 100 and the extrema no longer track the points |
| `AreaSeries2D.PairedYs` | Charting/Chart2D/AreaSeries2D.cs:77-81 | the y values in fold order interleave each lower value with its upper value |
| `AreaSeries2D.Count` | Charting/Chart2D/AreaSeries2D.cs:87-93 | the count reads the lower list: zero exactly when it is empty, and equal to the upper list's length while the lists are paired |
| `AreaSeries2D.New` | Charting/Chart2D/AreaSeries2D.cs:27-42 | a fresh area series has two empty lists, extrema at the sentinels, and is valid |
| `AreaSeries2D.AddPoint` | Charting/Chart2D/AreaSeries2D.cs:69-82 | (x, lower) and (x, upper) are appended to the two lists together; x alone updates the x extrema; lower and then upper update the y extrema |
| `AreaSeries2D.Clear` | Charting/Chart2D/AreaSeries2D.cs:98-102 | both lists are emptied together, so they stay paired and trivially within the extrema, and the extrema are untouched |
| `AreaSeries2D.AddPointPreservesValid` | Charting/Chart2D/AreaSeries2D.cs:69-82 | appending keeps the lists equally long with shared x values, and keeps the extrema tracking x and every lower and upper y |
| `AreaSeries2D.FromBandsValid` | Charting/Chart2D/AreaSeries2D.cs:69-82 | every series built by appends from a fresh one is valid |
| `AreaSeries2D.FromBandsStoresVerbatim` | Charting/Chart2D/AreaSeries2D.cs:69-72 | every append is stored verbatim, pair by pair, even when lower exceeds upper; `Count` and both list lengths equal the number of appends |
| `AreaSeries2D.AddPointKeepsBrackets` | Charting/Chart2D/AreaSeries2D.cs:69-82 | if every lower and upper point lies within the extrema, so does every one after an append |
| `AreaSeries2D.ReplayBrackets` | Charting/Chart2D/AreaSeries2D.cs:69-102 | after any mix of AddPoint and Clear calls from a fresh area series, every lower and upper point lies within the extrema |
| `AreaSeries2D.ValidBrackets` | Charting/Chart2D/AreaSeries2D.cs:74-81 | a valid area series has every lower and upper point within its extrema |
| `AreaSeries2D.ValidExtremaBound` | Charting/Chart2D/AreaSeries2D.cs:74-81 | in a non-empty valid series the x extrema bracket every x and the y extrema bracket every lower and upper value |
| `AreaSeries2D.ValidExtremaAttained` | Charting/Chart2D/AreaSeries2D.cs:74-81 | with finite values each extremum of a non-empty valid series is attained by a stored x, lower or upper value |
| `Mapping.MapX` | Charting/Chart2D/Chart2D.cs:444 | the pixel is proportional to the value's offset from XMin; XMin maps to the plot's left edge, XMax to its right edge |
| `Mapping.MapY` | Charting/Chart2D/Chart2D.cs:445 | the pixel rises from the bottom in proportion to the value's offset from YMin; YMin maps to the bottom edge, YMax to the top edge |
| `Mapping.MapPoint` | Charting/Chart2D/Chart2D.cs:444-445 | a point's pixel offsets from the left and bottom edges are proportional to its offsets from XMin and YMin; (XMin, YMin) maps to the bottom-left corner |
| `Mapping.MapPointInjective` | Charting/Chart2D/Chart2D.cs:444-445 | on a plot of non-zero width and height, two points with the same pixel position are the same point |
| `Mapping.MapXIncreasing` | Charting/Chart2D/Chart2D.cs:444 | with XMax > XMin and a positive width the x map is strictly increasing |
| `Mapping.MapYDecreasing` | Charting/Chart2D/Chart2D.cs:445 | with YMax > YMin and a positive height the y map is strictly decreasing, so larger values are drawn higher |
| `Mapping.MapAll` | Charting/Chart2D/Chart2D.cs:438-452 | the point array has one entry per point, and entry i is point i mapped |
| `ChartArea.Inflate` | Charting/Chart2D/ChartArea.cs:134 | the left and right sides move outwards by dx and the top and bottom by dy, so the centre is kept |
| `ChartArea.InflateUndone` | Charting/Chart2D/ChartArea.cs:134 | inflating by (dx, dy) and then by (−dx, −dy) gives back the original rectangle |
| `ChartArea.New` | Charting/Chart2D/ChartArea.cs:44 | the border starts at 0 |
| `ChartArea.SetBorder` | Charting/Chart2D/ChartArea.cs:96-104 | any int is stored and the rectangles keep their last computed values |
| `ChartArea.Draw` | Charting/Chart2D/ChartArea.cs:130-134 | the chart rectangle becomes the client rectangle, and the plot rectangle is it shrunk by Border on every side: X+B, Y+B, W−2B, H−2B |
| `ChartArea.PlotCentred` | Charting/Chart2D/ChartArea.cs:133-134 | the plot rectangle has the same centre as the chart rectangle |
| `ChartArea.PlotInsideChart` | Charting/Chart2D/ChartArea.cs:133-134 | a non-negative border keeps the plot rectangle inside the chart rectangle; a negative border makes it strictly larger |
| `ChartArea.ZeroBorderPlotIsChart` | Charting/Chart2D/ChartArea.cs:132-134 | with the default border the plot rectangle equals the client rectangle |
| `Axes2D.New` | Charting/Chart2D/Axes2D.cs:23-68 | defaults are x in [−5, 5] and y in [−3, 3], both ticks 1, formats "N2", no auto-scaling |
| `Axes2D.Set` | Charting/Chart2D/Axes2D.cs:102-236 | a setter stores its value verbatim, with no check that Min < Max or Tick > 0, and every other property keeps its value |
| `Axes2D.ReScaleX` | Charting/Chart2D/Axes2D.cs:272-277 | XMin, XMax and XTick take the given values, and every other property is unchanged |
| `Axes2D.ReScaleY` | Charting/Chart2D/Axes2D.cs:285-290 | YMin, YMax and YTick take the given values, and every other property is unchanged |
| `Axes2D.LabelValues` | Charting/Chart2D/Axes2D.cs:308 | the label loop visits start + k·tick for k = 0, 1, … and stops at the first value above max |
| `Axes2D.LabelsIncludeMax` | Charting/Chart2D/Axes2D.cs:308 | the bound is inclusive: when max is n ticks above the start there are n + 1 labels and the last is max |
| `Axes2D.XTicks` | Charting/Chart2D/Axes2D.cs:308-321 | one x label per label value, in loop order, each anchored at the value's mapped x, the first at the plot's left edge |
| `Axes2D.YTicks` | Charting/Chart2D/Axes2D.cs:327-339 | one y label per label value, in loop order, each anchored at the value's mapped y, the first at the plot's bottom edge |
| `Grid2D.New` | Charting/Chart2D/Grid2D.cs:34-44 | both gridline sets are visible and the thickness is 1 by default |
| `Grid2D.Set` | Charting/Chart2D/Grid2D.cs:67-117 | a setter stores its value verbatim and every other property keeps its value |
| `Grid2D.LineValues` | Charting/Chart2D/Grid2D.cs:151 | the gridline loop visits start + k·tick for k = 0, 1, … and stops at the first value at or above max |
| `Grid2D.LinesExcludeMax` | Charting/Chart2D/Grid2D.cs:151 | the bound is exclusive: when max is n ticks above the start there are exactly n lines and none at max |
| `Grid2D.LinesAreLabelsBelowMax` | Charting/Chart2D/Grid2D.cs:151-162 | gridline values are a prefix of the tick-label values, with one fewer entry exactly when max is itself a label |
| `Grid2D.VerticalLines` | Charting/Chart2D/Grid2D.cs:147-155 | no vertical lines unless XGridVisible, whatever the tick; otherwise one line per line value at its mapped x, spanning Bottom to Bottom−Height, the first at the plot's left edge |
| `Grid2D.HorizontalLines` | Charting/Chart2D/Grid2D.cs:158-166 | no horizontal lines unless YGridVisible, whatever the tick; otherwise one line per line value at its mapped y, spanning X to X+Width, the first at the plot's bottom edge |
| `TickScale.ScanSteps` | Charting/Chart2D/Chart2D.cs:379-388 | the scan from any index returns the first index with the smallest difference among those strictly better than the incoming delta, or keeps the incoming best |
| `TickScale.BestStepIndex` | Charting/Chart2D/Chart2D.cs:375-388 | the chosen index has the smallest difference, and no earlier index ties with it; when no difference is below `double.MaxValue` the choice is the first step |
| `TickScale.FirstArgminUnique` | Charting/Chart2D/Chart2D.cs:383-387 | the first-smallest index is unique, so the strict comparison fixes the choice |
| `TickScale.Ceil` | Charting/Chart2D/Chart2D.cs:391 | `Math.Ceiling`: the least integer at or above v |
| `TickScale.LowerBound` | Charting/Chart2D/Chart2D.cs:390 | step·⌊v/step⌋ is a multiple of the step at or below v and less than one step below it |
| `TickScale.UpperBound` | Charting/Chart2D/Chart2D.cs:391 | step·⌈v/step⌉ is a multiple of the step at or above v and less than one step above it |
| `TickScale.RoundOut` | Charting/Chart2D/Chart2D.cs:390-391 | axisMin = step·⌊min/step⌋ and axisMax = step·⌈max/step⌉ are multiples of the step that bracket min and max within one step |
| `TickScale.Select` | Charting/Chart2D/Chart2D.cs:375-394 | the tick is a table entry, namely the best step, and the rounded bounds are multiples of it that bracket min and max within one step |
| `TickScale.WidenFlat` | Charting/Chart2D/Chart2D.cs:358-363 | a non-flat pair is kept; a flat pair at v becomes a pair of span 0.1·v centred on v |
| `TickScale.WidenFlatSigns` | Charting/Chart2D/Chart2D.cs:358-363 | the widened pair is ordered for v > 0, stays (0, 0) for v = 0 and is reversed for v < 0 |
| `TickScale.BestStepFor83` | Charting/Chart2D/Chart2D.cs:375-388 | over a range of 83 the chosen step is 10 |
| `TickScale.SelectExample83` | Charting/Chart2D/Chart2D.cs:375-394 | min 0 and max 83 give tick 10 and bounds [0, 90] |
| `TickScale.SelectFlatZero` | Charting/Chart2D/Chart2D.cs:375-394 | a flat range at 0 keeps the first step 0.01 and the bounds [0, 0] |
| `Chart2D.New` | Charting/Chart2D/Chart2D.cs:68-84 | a new control has no series, axes without auto-scaling, both gridline sets visible and border 0 |
| `Chart2D.Bounds` | Charting/Chart2D/Chart2D.cs:317-327 | the extrema folded are those of every line series and then every area series, in registration order |
| `Chart2D.Aggregate` | Charting/Chart2D/Chart2D.cs:314-327 | the aggregated pair encloses every registered series' extrema, and each end is a sentinel or one of those extrema |
| `Chart2D.CalculateXTickScale` | Charting/Chart2D/Chart2D.cs:373-395 | the x tick is the best step for max − min, the new x bounds bracket min and max within one tick and are multiples of it, and nothing but the x scale changes |
| `Chart2D.CalculateYTickScale` | Charting/Chart2D/Chart2D.cs:402-424 | the same rule for the y scale, changing nothing but the y scale |
| `Chart2D.AutoScaleX` | Charting/Chart2D/Chart2D.cs:306-330 | a no-op without series; otherwise the x axis encloses every registered series' x extrema, rounded from the aggregate with its best step, and nothing else changes |
| `Chart2D.AutoScaleY` | Charting/Chart2D/Chart2D.cs:335-366 | a no-op without series; otherwise the y axis is rounded from the widened aggregate with its best step, it encloses every series' y extrema whenever the aggregate is not flat, and nothing else changes |
| `Chart2D.Rescale` | Charting/Chart2D/Chart2D.cs:253-261 | the x scale is auto-scaled iff XAutoScale and the y scale iff YAutoScale; every other axis property is unchanged |
| `Chart2D.SeriesChanged` | Charting/Chart2D/Chart2D.cs:529-545 | a series change gives each auto-scaled axis the scale its auto-scale computes over the series as they now are (so x encloses them), keeps a fixed axis, and invalidates the chart |
| `Chart2D.AddSeries` | Charting/Chart2D/Chart2D.cs:247-264 | the series is appended; an auto-scaled axis gets exactly the `AutoScaleX`/`AutoScaleY` scale over all registered series, so x encloses them; a fixed axis keeps its scale; the chart is invalidated |
| `Chart2D.AddAreaSeries` | Charting/Chart2D/Chart2D.cs:270-285 | the area series is appended, with the same re-scaling (each auto-scaled axis gets its auto-scale's result) and invalidation |
| `Chart2D.AddSeriesKeepsOrder` | Charting/Chart2D/Chart2D.cs:249 | two registrations keep their order in the series list |
| `Chart2D.Clear` | Charting/Chart2D/Chart2D.cs:290-301 | both series lists are emptied, the axes are untouched, and the chart is invalidated |
| `Chart2D.AutoScaleAfterClearIsNoOp` | Charting/Chart2D/Chart2D.cs:306-312 | after `Clear`, auto-scaling changes nothing |
| `Chart2D.EmptySeriesContributesSentinels` | Charting/Chart2D/Chart2D.cs:314-321 | a registered series with no points, on its own, makes the aggregate (`double.MaxValue`, `double.MinValue`) on both axes |
| `Chart2D.EnclosedSeriesPointsX` | Charting/Chart2D/Chart2D.cs:317-321 | axes that enclose the x extrema of line series that bracket their points enclose every stored x |
| `Chart2D.EnclosedAreaPointsX` | Charting/Chart2D/Chart2D.cs:323-327 | axes that enclose the x extrema of area series that bracket their points enclose every lower and upper x |
| `Chart2D.AutoScaledXEnclosesPoints` | Charting/Chart2D/Chart2D.cs:306-330 | the auto-scaled x axis encloses every stored point of every line and area series that brackets its points, which every series reachable by AddPoint and Clear does, cleared ones included |
| `Chart2D.BestStepForMinus101` | Charting/Chart2D/Chart2D.cs:375-388 | over a range of −101 the scan improves at every step and settles on the last, 1000 |
| `Chart2D.FlatNegativeCollapses` | Charting/Chart2D/Chart2D.cs:358-366 | a flat aggregate at −1010 widens to (−959.5, −1060.5) and rounds to the degenerate axis [−1000, −1000] with tick 1000 |
| `Chart2D.SetAxes` | Charting/Chart2D/Axes2D.cs:102-236 | an axes setter stores its value, changes nothing else, and invalidates the chart |
| `Chart2D.SetGrid` | Charting/Chart2D/Grid2D.cs:67-117 | a grid setter stores its value, changes nothing else, and invalidates the chart |
| `Chart2D.SetBorder` | Charting/Chart2D/ChartArea.cs:96-104 | the border setter stores the value, keeps the rectangles until the next paint, and invalidates the chart |
| `Chart2D.Paint` | Charting/Chart2D/Chart2D.cs:209-213 | a paint first recomputes the chart and plot rectangles from the client rectangle, and leaves the chart valid |
| `Chart2D.DrawSeries` | Charting/Chart2D/Chart2D.cs:430-452 | each line series yields exactly Count mapped points, in series order |
| `Chart2D.AreaPolygon` | Charting/Chart2D/Chart2D.cs:482-513 | the polygon is the mapped lower points in order followed by the mapped upper points in reverse |
| `Chart2D.PolygonEndsVertical` | Charting/Chart2D/Chart2D.cs:501-513 | for a paired series with n points the polygon has 2n vertices, and vertices n−1 and n, like the last and the first, share an x |
| `Chart2D.DrawAreaSeries` | Charting/Chart2D/Chart2D.cs:474-518 | one polygon per area series, in registration order, each the mapped lower points followed by the mapped upper points reversed; a paired series gives 2n vertices with vertical end edges |

## Left out

- Floating point. `float` and `int` casts and their rounding are not modelled.
  These occur in the `(float)` / `(int)` conversions of the tick scale and the
  pixel map, and in the conversion of the axis bounds to `float` in `ReScaleX`
  and `ReScaleY`. The model uses exact real arithmetic throughout.
  - The accumulated drift of `x += tick` in the label and gridline loops is
    therefore absent.
  - So is the overflow of `(int)Math.Floor` on huge quotients.
- IEEE infinities. For a chart whose only series are empty, the source's range
  `double.MinValue − double.MaxValue` overflows to −Infinity. The model's exact
  range is −2·`double.MaxValue`. Both are far from every target, and the chosen
  step can differ.
- `Chart2D.CalculateXTickScale`: weaker than the source only in the floating
  point sense above. The exact-real bracket it proves is what the `float`
  computation approximates.
- `Chart2D.CalculateYTickScale`: the same as `Chart2D.CalculateXTickScale`.
- `Mapping.MapX` requires XMax ≠ XMin. The source divides by zero there and
  draws at ±Infinity or NaN.
- `Mapping.MapY` requires YMax ≠ YMin, for the same reason.
- `Axes2D.XTicks` and `Axes2D.YTicks` require a non-zero span, for the same
  reason. They also require a positive tick whenever the loop runs at all,
  because the source's loop does not terminate otherwise.
- `Axes2D.LabelValues` requires a positive tick whenever the loop runs at all,
  because the source's `for` loop does not terminate otherwise.
- `Grid2D.LineValues` requires a positive tick whenever the loop runs at all,
  because the source's `for` loop does not terminate otherwise.
- `Grid2D.VerticalLines` and `Grid2D.HorizontalLines` require a positive tick
  only when their grid is visible and the span is positive, that is when the
  source's loop runs. A hidden grid accepts any tick.
- `Mapping.MapPoint` requires both axis spans to be non-zero, for the same
  reason as `Mapping.MapX`.
- `Mapping.MapAll` requires both axis spans to be non-zero when there is a
  point to map, for the same reason as `Mapping.MapX`.
- `Chart2D.AreaPolygon` requires both axis spans to be non-zero when either
  list has a point, for the same reason.
- `Chart2D.DrawSeries` and `Chart2D.DrawAreaSeries` require both axis spans to
  be non-zero when some series has a point to map, for the same reason.
- `Mapping.MapPointInjective` needs a plot of non-zero width and height. On a
  zero-sized plot every point maps to the same pixel.
- NaN and infinite coordinates. `Math.Min` and `Math.Max` propagate NaN, so a
  NaN coordinate turns the extrema it is folded into NaN. The model's `real`
  has neither NaN nor ±Infinity, so the extrema lemmas assume finite, ordered
  values.
- `ChartArea.PlotInsideChart`: does not model the 32-bit `int` of `Rectangle`
  and `Border`. `Inflate` wraps around there. With `Border = int.MinValue`,
  `-Border` wraps back to `int.MinValue`, and the width changes by 2·`int.MinValue`,
  which is 0 modulo 2^32. The plot rectangle then has the chart rectangle's
  width and height, so "a negative border makes it strictly larger" fails in
  the source. The model's unbounded `int` also omits overflow for large
  client rectangles.
- `ChartArea.Inflate` and `ChartArea.Draw`: the same 32-bit wrap-around is not
  modelled.
- Drawing and text. These are not part of this model:
  - GDI+ calls: `DrawLines`, `DrawCurve`, `FillPolygon`, `DrawLine`,
    `DrawString`, `MeasureString`;
  - pens, brushes, colours, fonts, dash styles, opacity;
  - `LineStyle` and `Interpolation`, which only choose between drawing calls;
  - symbols (`Symbols/*.cs`);
  - the title and axis labels (`ChartTitle`, `AxesLabels`), whose layout
    depends on font measurement;
  - the pixel offsets of the tick-label text.
- `Axes2D.Set` covers the ten properties with data meaning. `TickColour` and
  `TickFont` only affect drawing and are not modelled.
- `Grid2D.Set` covers `XGridVisible`, `YGridVisible` and `Thickness`.
  `DashStyle` and `Colour` only affect drawing and are not modelled.
- The chart-level `Area`, `Grid`, `Title`, `Labels` and `Axes` property setters
  (Charting/Chart2D/Chart2D.cs:98-104, 115-121, 132-138, 149-155, 166-172)
  replace a whole sub-object when given a non-null one and ignore null. They
  do not call `Invalidate()`. The model's chart holds its sub-objects by
  value, so these setters are not modelled.
- Cross-thread marshalling. `SynchronizationContext.Post` in `AddSeries`,
  `Clear` and the series-changed handler is modelled as the direct state update
  it posts.
- The series `Changed` event is raised by code that is not part of this model.
  The handler's effect is `Chart2D.SeriesChanged`. Which mutations raise the
  event is not modelled, and neither is the reference aliasing through which a
  caller mutates a series the chart holds.
- `OnSizeChanged` only invalidates. The resize itself arrives as the client
  rectangle passed to `Chart2D.Paint`.
- Number formatting of tick labels (`ToString(format)`) is a library call. The
  model keeps the format string only.
- Type converters, designer files, `Program.cs` and the example forms are
  designer metadata and demo UI.
