/** `Chart2D`: the chart control's data side. It owns the registered line
    and area series, the axes, the grid and the chart area; registering a
    series re-scales the auto-scaled axes; painting maps every series into
    the plot rectangle. `dirty` stands for `Invalidate()`: true once the
    control has asked for a repaint that has not happened yet. */
module Chart2D {
  import opened Extrema
  import opened Point2D
  import opened Mapping
  import opened TickScale
  import ChartArea
  import Axes2D
  import Grid2D
  import Series2D
  import AreaSeries2D

  datatype Chart = Chart(series: seq<Series2D.Series>,
                         areaSeries: seq<AreaSeries2D.AreaSeries>,
                         axes: Axes2D.Axes,
                         grid: Grid2D.Grid,
                         area: ChartArea.Area,
                         dirty: bool)

  /** A new control: no series, default axes, grid and area. */
  function New(): (c: Chart)
    ensures c.series == [] && c.areaSeries == []
    ensures !c.axes.xAutoScale && !c.axes.yAutoScale
    ensures c.grid.xGridVisible && c.grid.yGridVisible
    ensures c.area.border == 0
  {
    Chart([], [], Axes2D.New(), Grid2D.New(), ChartArea.New(), false)
  }

  predicate NoSeries(c: Chart) {
    |c.series| == 0 && |c.areaSeries| == 0
  }

  /** Which extremum accessor of a series is read. */
  datatype Bound = XLow | XHigh | YLow | YHigh

  function SeriesBound(s: Series2D.Series, b: Bound): real {
    match b
    case XLow => s.xMin
    case XHigh => s.xMax
    case YLow => s.yMin
    case YHigh => s.yMax
  }

  function AreaBound(a: AreaSeries2D.AreaSeries, b: Bound): real {
    match b
    case XLow => a.xMin
    case XHigh => a.xMax
    case YLow => a.yMin
    case YHigh => a.yMax
  }

  /** One extremum of every registered series, line series first, in
      registration order: the values the auto-scale loops fold. */
  function Bounds(c: Chart, b: Bound): (r: seq<real>)
    ensures |r| == |c.series| + |c.areaSeries|
    ensures forall i :: 0 <= i < |c.series| ==> r[i] == SeriesBound(c.series[i], b)
    ensures forall i :: 0 <= i < |c.areaSeries| ==> r[|c.series| + i] == AreaBound(c.areaSeries[i], b)
  {
    seq(|c.series|, i requires 0 <= i < |c.series| => SeriesBound(c.series[i], b)) +
    seq(|c.areaSeries|, i requires 0 <= i < |c.areaSeries| => AreaBound(c.areaSeries[i], b))
  }

  /** The aggregated (min, max) of one axis: `Math.Min` over every XMin
      (YMin) from `double.MaxValue`, `Math.Max` over every XMax (YMax) from
      `double.MinValue`. A registered but empty series contributes its
      sentinels. */
  function Aggregate(c: Chart, low: Bound, high: Bound): (r: (real, real))
    ensures r.0 <= MaxS && MinS <= r.1
    ensures Encloses(c, low, high, r.0, r.1)
    ensures r.0 == MaxS || r.0 in Bounds(c, low)
    ensures r.1 == MinS || r.1 in Bounds(c, high)
  {
    var lows, highs := Bounds(c, low), Bounds(c, high);
    assert forall i :: 0 <= i < |lows| ==> lows[i] in lows;
    assert forall i :: 0 <= i < |highs| ==> highs[i] in highs;
    (MinFrom(MaxS, lows), MaxFrom(MinS, highs))
  }

  /** Every registered series' `low` extremum is at least `lo` and its
      `high` extremum at most `hi`. */
  predicate Encloses(c: Chart, low: Bound, high: Bound, lo: real, hi: real) {
    && (forall i :: 0 <= i < |c.series| ==>
          lo <= SeriesBound(c.series[i], low) && SeriesBound(c.series[i], high) <= hi)
    && (forall i :: 0 <= i < |c.areaSeries| ==>
          lo <= AreaBound(c.areaSeries[i], low) && AreaBound(c.areaSeries[i], high) <= hi)
  }

  /** Enclosure is kept by any wider interval. */
  lemma EnclosesWider(c: Chart, low: Bound, high: Bound, lo: real, hi: real, lo': real, hi': real)
    requires Encloses(c, low, high, lo, hi)
    requires lo' <= lo && hi <= hi'
    ensures Encloses(c, low, high, lo', hi')
  {
  }

  function XRange(c: Chart): (real, real) {
    Aggregate(c, XLow, XHigh)
  }

  function YRange(c: Chart): (real, real) {
    Aggregate(c, YLow, YHigh)
  }

  /** Every registered series' x extrema lie inside the axes' x range. */
  predicate EnclosesX(a: Axes2D.Axes, c: Chart) {
    Encloses(c, XLow, XHigh, a.xMin, a.xMax)
  }

  predicate EnclosesY(a: Axes2D.Axes, c: Chart) {
    Encloses(c, YLow, YHigh, a.yMin, a.yMax)
  }

  /** The x range and tick of two axes agree. */
  predicate SameXScale(a: Axes2D.Axes, b: Axes2D.Axes) {
    a.xMin == b.xMin && a.xMax == b.xMax && a.xTick == b.xTick
  }

  predicate SameYScale(a: Axes2D.Axes, b: Axes2D.Axes) {
    a.yMin == b.yMin && a.yMax == b.yMax && a.yTick == b.yTick
  }

  /** Picks the step for [min, max] and stores the rounded x range and the
      step through `ReScaleX`; nothing but the x scale changes. */
  function CalculateXTickScale(a: Axes2D.Axes, min: real, max: real): (r: Axes2D.Axes)
    ensures r.xTick == Step(BestStepIndex(max - min))
    ensures r.xMin <= min < r.xMin + r.xTick
    ensures r.xMax - r.xTick < max <= r.xMax
    ensures IsMultiple(r.xMin, r.xTick) && IsMultiple(r.xMax, r.xTick)
    ensures forall g :: !Axes2D.IsXScale(g) ==> Axes2D.Get(r, g) == Axes2D.Get(a, g)
  {
    var s := Select(min, max);
    Axes2D.ReScaleX(a, s.min, s.max, s.tick)
  }

  /** The y counterpart of `CalculateXTickScale`, by the identical rule. */
  function CalculateYTickScale(a: Axes2D.Axes, min: real, max: real): (r: Axes2D.Axes)
    ensures r.yTick == Step(BestStepIndex(max - min))
    ensures r.yMin <= min < r.yMin + r.yTick
    ensures r.yMax - r.yTick < max <= r.yMax
    ensures IsMultiple(r.yMin, r.yTick) && IsMultiple(r.yMax, r.yTick)
    ensures forall g :: !Axes2D.IsYScale(g) ==> Axes2D.Get(r, g) == Axes2D.Get(a, g)
  {
    var s := Select(min, max);
    Axes2D.ReScaleY(a, s.min, s.max, s.tick)
  }

  /** No-op without series; otherwise re-scales x to enclose every
      registered series' x extrema, and changes nothing else. */
  function AutoScaleX(c: Chart): (r: Chart)
    ensures r.series == c.series && r.areaSeries == c.areaSeries
    ensures r.grid == c.grid && r.area == c.area && r.dirty == c.dirty
    ensures forall g :: !Axes2D.IsXScale(g) ==> Axes2D.Get(r.axes, g) == Axes2D.Get(c.axes, g)
    ensures NoSeries(c) ==> r == c
    ensures !NoSeries(c) ==>
              && EnclosesX(r.axes, c)
              && r.axes.xMin <= XRange(c).0 < r.axes.xMin + r.axes.xTick
              && r.axes.xMax - r.axes.xTick < XRange(c).1 <= r.axes.xMax
              && r.axes.xTick == Step(BestStepIndex(XRange(c).1 - XRange(c).0))
  {
    if NoSeries(c) then c
    else
      var a := CalculateXTickScale(c.axes, XRange(c).0, XRange(c).1);
      EnclosesWider(c, XLow, XHigh, XRange(c).0, XRange(c).1, a.xMin, a.xMax);
      assert a.xMin <= XRange(c).0 < a.xMin + a.xTick;
      assert a.xMax - a.xTick < XRange(c).1 <= a.xMax;
      c.(axes := a)
  }

  /** The pair the y auto-scale rounds out: the aggregated y range,
      widened when flat. */
  function YTarget(c: Chart): (real, real) {
    WidenFlat(YRange(c).0, YRange(c).1)
  }

  /** No-op without series; otherwise widens a flat aggregate, then
      re-scales y to enclose the (widened) pair, and changes nothing else.
      The series' y extrema are enclosed whenever the aggregate is not flat. */
  function AutoScaleY(c: Chart): (r: Chart)
    ensures r.series == c.series && r.areaSeries == c.areaSeries
    ensures r.grid == c.grid && r.area == c.area && r.dirty == c.dirty
    ensures forall g :: !Axes2D.IsYScale(g) ==> Axes2D.Get(r.axes, g) == Axes2D.Get(c.axes, g)
    ensures NoSeries(c) ==> r == c
    ensures !NoSeries(c) ==>
              && r.axes.yMin <= YTarget(c).0 < r.axes.yMin + r.axes.yTick
              && r.axes.yMax - r.axes.yTick < YTarget(c).1 <= r.axes.yMax
              && r.axes.yTick == Step(BestStepIndex(YTarget(c).1 - YTarget(c).0))
    ensures !NoSeries(c) && YRange(c).0 != YRange(c).1 ==> EnclosesY(r.axes, c)
  {
    if NoSeries(c) then c
    else
      var a := CalculateYTickScale(c.axes, YTarget(c).0, YTarget(c).1);
      assert a.yMin <= YTarget(c).0 < a.yMin + a.yTick;
      assert a.yMax - a.yTick < YTarget(c).1 <= a.yMax;
      if YRange(c).0 != YRange(c).1 then
        assert YTarget(c) == YRange(c);
        EnclosesWider(c, YLow, YHigh, YRange(c).0, YRange(c).1, a.yMin, a.yMax);
        c.(axes := a)
      else c.(axes := a)
  }

  /** X first if `XAutoScale`, then y if `YAutoScale`: each auto-scaled
      axis gets the scale its own auto-scale computes, the others keep
      theirs, and nothing else changes. */
  function Rescale(c: Chart): (r: Chart)
    ensures r.series == c.series && r.areaSeries == c.areaSeries
    ensures r.grid == c.grid && r.area == c.area && r.dirty == c.dirty
    ensures SameXScale(r.axes, if c.axes.xAutoScale then AutoScaleX(c).axes else c.axes)
    ensures SameYScale(r.axes, if c.axes.yAutoScale then AutoScaleY(c).axes else c.axes)
    ensures forall g :: !Axes2D.IsXScale(g) && !Axes2D.IsYScale(g) ==> Axes2D.Get(r.axes, g) == Axes2D.Get(c.axes, g)
  {
    var c1 := if c.axes.xAutoScale then AutoScaleX(c) else c;
    assert Axes2D.Get(c1.axes, Axes2D.YAutoScale) == Axes2D.Get(c.axes, Axes2D.YAutoScale);
    assert YRange(c1) == YRange(c);
    if c.axes.yAutoScale then AutoScaleY(c1) else c1
  }

  /** The handler run when a registered series reports a change: re-scales
      each auto-scaled axis over the registered series as they now are, and
      invalidates the chart. */
  function SeriesChanged(c: Chart): (r: Chart)
    ensures r.series == c.series && r.areaSeries == c.areaSeries
    ensures r.grid == c.grid && r.area == c.area && r.dirty
    ensures !c.axes.xAutoScale ==> SameXScale(r.axes, c.axes)
    ensures c.axes.xAutoScale ==> SameXScale(r.axes, AutoScaleX(c).axes) && EnclosesX(r.axes, c)
    ensures !c.axes.yAutoScale ==> SameYScale(r.axes, c.axes)
    ensures c.axes.yAutoScale ==> SameYScale(r.axes, AutoScaleY(c).axes)
    ensures c.axes.yAutoScale && YRange(c).0 != YRange(c).1 ==> EnclosesY(r.axes, c)
    ensures forall g :: !Axes2D.IsXScale(g) && !Axes2D.IsYScale(g) ==> Axes2D.Get(r.axes, g) == Axes2D.Get(c.axes, g)
  {
    Rescale(c).(dirty := true)
  }

  /** Registers a line series: appends it, re-scales each auto-scaled axis
      over all registered series, and invalidates the chart. */
  function AddSeries(c: Chart, s: Series2D.Series): (r: Chart)
    ensures r.series == c.series + [s] && r.areaSeries == c.areaSeries
    ensures r.grid == c.grid && r.area == c.area && r.dirty
    ensures !c.axes.xAutoScale ==> SameXScale(r.axes, c.axes)
    ensures c.axes.xAutoScale ==> SameXScale(r.axes, AutoScaleX(c.(series := r.series)).axes) && EnclosesX(r.axes, r)
    ensures !c.axes.yAutoScale ==> SameYScale(r.axes, c.axes)
    ensures c.axes.yAutoScale ==> SameYScale(r.axes, AutoScaleY(c.(series := r.series)).axes)
    ensures c.axes.yAutoScale && YRange(r).0 != YRange(r).1 ==> EnclosesY(r.axes, r)
    ensures forall g :: !Axes2D.IsXScale(g) && !Axes2D.IsYScale(g) ==> Axes2D.Get(r.axes, g) == Axes2D.Get(c.axes, g)
  {
    SeriesChanged(c.(series := c.series + [s]))
  }

  /** Registers an area series, with the same re-scaling and invalidation. */
  function AddAreaSeries(c: Chart, a: AreaSeries2D.AreaSeries): (r: Chart)
    ensures r.areaSeries == c.areaSeries + [a] && r.series == c.series
    ensures r.grid == c.grid && r.area == c.area && r.dirty
    ensures !c.axes.xAutoScale ==> SameXScale(r.axes, c.axes)
    ensures c.axes.xAutoScale ==> SameXScale(r.axes, AutoScaleX(c.(areaSeries := r.areaSeries)).axes) && EnclosesX(r.axes, r)
    ensures !c.axes.yAutoScale ==> SameYScale(r.axes, c.axes)
    ensures c.axes.yAutoScale ==> SameYScale(r.axes, AutoScaleY(c.(areaSeries := r.areaSeries)).axes)
    ensures c.axes.yAutoScale && YRange(r).0 != YRange(r).1 ==> EnclosesY(r.axes, r)
    ensures forall g :: !Axes2D.IsXScale(g) && !Axes2D.IsYScale(g) ==> Axes2D.Get(r.axes, g) == Axes2D.Get(c.axes, g)
  {
    SeriesChanged(c.(areaSeries := c.areaSeries + [a]))
  }

  /** Registration order is kept and is the only difference between two
      registrations: adding s then t yields the series list [.., s, t]. */
  lemma AddSeriesKeepsOrder(c: Chart, s: Series2D.Series, t: Series2D.Series)
    ensures AddSeries(AddSeries(c, s), t).series == c.series + [s, t]
    ensures AddSeries(AddSeries(c, s), t).areaSeries == c.areaSeries
  {
    AppendTwice(c.series, s, t);
  }

  lemma AppendTwice<T>(xs: seq<T>, s: T, t: T)
    ensures xs + [s] + [t] == xs + [s, t]
  {
  }

  /** Unregisters every series and invalidates; the axes keep their scale. */
  function Clear(c: Chart): (r: Chart)
    ensures NoSeries(r)
    ensures r.axes == c.axes && r.grid == c.grid && r.area == c.area
    ensures r.dirty
  {
    c.(series := [], areaSeries := [], dirty := true)
  }

  /** After `Clear`, auto-scaling changes nothing until a series is added. */
  lemma AutoScaleAfterClearIsNoOp(c: Chart)
    ensures AutoScaleX(Clear(c)) == Clear(c) && AutoScaleY(Clear(c)) == Clear(c)
  {
  }

  /** A registered series with no points contributes the sentinels: alone,
      it makes the aggregated x and y pairs (double.MaxValue, double.MinValue). */
  lemma EmptySeriesContributesSentinels(c: Chart)
    requires c.series == [Series2D.New()] && c.areaSeries == []
    ensures XRange(c) == (MaxS, MinS) && YRange(c) == (MaxS, MinS)
  {
    assert Bounds(c, XLow) == [MaxS] && Bounds(c, XHigh) == [MinS];
    assert Bounds(c, YLow) == [MaxS] && Bounds(c, YHigh) == [MinS];
  }

  /** Axes that enclose the x extrema of line series that bracket their
      points enclose every stored point. */
  lemma EnclosedSeriesPointsX(c: Chart, a: Axes2D.Axes)
    requires EnclosesX(a, c)
    requires forall i :: 0 <= i < |c.series| ==> Series2D.Brackets(c.series[i])
    ensures forall i, p :: 0 <= i < |c.series| && p in c.series[i].points ==> a.xMin <= p.x <= a.xMax
  {
    forall i, p | 0 <= i < |c.series| && p in c.series[i].points
      ensures a.xMin <= p.x <= a.xMax
    {
      var s := c.series[i];
      assert a.xMin <= SeriesBound(s, XLow) && SeriesBound(s, XHigh) <= a.xMax;
    }
  }

  /** Axes that enclose the x extrema of area series that bracket their
      points enclose every lower and upper point. */
  lemma EnclosedAreaPointsX(c: Chart, a: Axes2D.Axes)
    requires EnclosesX(a, c)
    requires forall i :: 0 <= i < |c.areaSeries| ==> AreaSeries2D.Brackets(c.areaSeries[i])
    ensures forall i, j :: 0 <= i < |c.areaSeries| && 0 <= j < |c.areaSeries[i].lower| ==>
              a.xMin <= c.areaSeries[i].lower[j].x <= a.xMax
    ensures forall i, j :: 0 <= i < |c.areaSeries| && 0 <= j < |c.areaSeries[i].upper| ==>
              a.xMin <= c.areaSeries[i].upper[j].x <= a.xMax
  {
    forall i, j | 0 <= i < |c.areaSeries| && 0 <= j < |c.areaSeries[i].lower|
      ensures a.xMin <= c.areaSeries[i].lower[j].x <= a.xMax
    {
      var s := c.areaSeries[i];
      assert a.xMin <= AreaBound(s, XLow) && AreaBound(s, XHigh) <= a.xMax;
      assert s.lower[j] in s.lower;
    }
    forall i, j | 0 <= i < |c.areaSeries| && 0 <= j < |c.areaSeries[i].upper|
      ensures a.xMin <= c.areaSeries[i].upper[j].x <= a.xMax
    {
      var s := c.areaSeries[i];
      assert a.xMin <= AreaBound(s, XLow) && AreaBound(s, XHigh) <= a.xMax;
      assert s.upper[j] in s.upper;
    }
  }

  /** The auto-scaled x axis encloses every stored point of every line
      series and every lower and upper point of every area series, as long
      as each brackets its points -- which any mix of `AddPoint` and `Clear`
      calls keeps (`Series2D.ReplayBrackets`, `AreaSeries2D.ReplayBrackets`). */
  lemma AutoScaledXEnclosesPoints(c: Chart)
    requires forall i :: 0 <= i < |c.series| ==> Series2D.Brackets(c.series[i])
    requires forall i :: 0 <= i < |c.areaSeries| ==> AreaSeries2D.Brackets(c.areaSeries[i])
    ensures var a := AutoScaleX(c).axes;
            && (forall i, p :: 0 <= i < |c.series| && p in c.series[i].points ==> a.xMin <= p.x <= a.xMax)
            && (forall i, j :: 0 <= i < |c.areaSeries| && 0 <= j < |c.areaSeries[i].lower| ==>
                  a.xMin <= c.areaSeries[i].lower[j].x <= a.xMax)
            && (forall i, j :: 0 <= i < |c.areaSeries| && 0 <= j < |c.areaSeries[i].upper| ==>
                  a.xMin <= c.areaSeries[i].upper[j].x <= a.xMax)
  {
    if !NoSeries(c) {
      var a := AutoScaleX(c).axes;
      EnclosedSeriesPointsX(c, a);
      EnclosedAreaPointsX(c, a);
    }
  }

  /** Over a range of -101 every difference is 101 / step + 8, which
      shrinks with each larger step, so the scan ends on the last one. */
  lemma BestStepForMinus101()
    ensures BestStepIndex(-101.0) == 17 && PreferredScaleSteps[17] == 1000.0
  {
    var r := -101.0;
    assert ScanSteps(r, 9, 8, 58.5) == ScanSteps(r, 18, 17, 8.101) by {
      ScanMinus101Tail();
    }
    StepValues();
    assert ScanSteps(r, 0, 0, MaxS) == ScanSteps(r, 1, 0, 10108.0);
    assert ScanSteps(r, 1, 0, 10108.0) == ScanSteps(r, 2, 1, 4048.0);
    assert ScanSteps(r, 2, 1, 4048.0) == ScanSteps(r, 3, 2, 2028.0);
    assert ScanSteps(r, 3, 2, 2028.0) == ScanSteps(r, 4, 3, 1018.0);
    assert ScanSteps(r, 4, 3, 1018.0) == ScanSteps(r, 5, 4, 412.0);
    assert ScanSteps(r, 5, 4, 412.0) == ScanSteps(r, 6, 5, 210.0);
    assert ScanSteps(r, 6, 5, 210.0) == ScanSteps(r, 7, 6, 109.0);
    assert ScanSteps(r, 7, 6, 109.0) == ScanSteps(r, 8, 7, 101.0 / 1.5 + 8.0);
    assert ScanSteps(r, 8, 7, 101.0 / 1.5 + 8.0) == ScanSteps(r, 9, 8, 58.5);
  }

  lemma ScanMinus101Tail()
    ensures ScanSteps(-101.0, 9, 8, 58.5) == ScanSteps(-101.0, 18, 17, 8.101)
  {
    LargeStepValues();
    var r := -101.0;
    assert ScanSteps(r, 9, 8, 58.5) == ScanSteps(r, 10, 9, 48.4);
    assert ScanSteps(r, 10, 9, 48.4) == ScanSteps(r, 11, 10, 28.2);
    assert ScanSteps(r, 11, 10, 28.2) == ScanSteps(r, 12, 11, 18.1);
    assert ScanSteps(r, 12, 11, 18.1) == ScanSteps(r, 13, 12, 13.05);
    assert ScanSteps(r, 13, 12, 13.05) == ScanSteps(r, 14, 13, 10.02);
    assert ScanSteps(r, 14, 13, 10.02) == ScanSteps(r, 15, 14, 9.01);
    assert ScanSteps(r, 15, 14, 9.01) == ScanSteps(r, 16, 15, 8.505);
    assert ScanSteps(r, 16, 15, 8.505) == ScanSteps(r, 17, 16, 8.202);
    assert ScanSteps(r, 17, 16, 8.202) == ScanSteps(r, 18, 17, 8.101);
  }

  /** The y widening reverses a flat negative aggregate: with every y at
      -1010 the pair becomes (-959.5, -1060.5), step 1000 is chosen and the
      y axis collapses to [-1000, -1000], which does not hold -1010. */
  lemma FlatNegativeCollapses()
    ensures WidenFlat(-1010.0, -1010.0) == (-959.5, -1060.5)
    ensures Select(-959.5, -1060.5) == Scale(-1000.0, -1000.0, 1000.0)
  {
    BestStepForMinus101();
    assert -1060.5 - -959.5 == -101.0;
    assert (-959.5 / 1000.0).Floor == -1;
    assert Ceil(-1060.5 / 1000.0) == -1;
  }

  /** An `Axes2D` property setter applied through the chart: the value is
      stored verbatim, nothing else changes, and the chart is invalidated. */
  function SetAxes(c: Chart, f: Axes2D.Field, v: Axes2D.Value): (r: Chart)
    requires Axes2D.Fits(f, v)
    ensures Axes2D.Get(r.axes, f) == v
    ensures forall g :: g != f ==> Axes2D.Get(r.axes, g) == Axes2D.Get(c.axes, g)
    ensures r.series == c.series && r.areaSeries == c.areaSeries && r.grid == c.grid && r.area == c.area
    ensures r.dirty
  {
    c.(axes := Axes2D.Set(c.axes, f, v), dirty := true)
  }

  /** A `Grid2D` setter applied through the chart, with invalidation. */
  function SetGrid(c: Chart, f: Grid2D.Field, v: Grid2D.Value): (r: Chart)
    requires Grid2D.Fits(f, v)
    ensures Grid2D.Get(r.grid, f) == v
    ensures forall h :: h != f ==> Grid2D.Get(r.grid, h) == Grid2D.Get(c.grid, h)
    ensures r.series == c.series && r.areaSeries == c.areaSeries && r.axes == c.axes && r.area == c.area
    ensures r.dirty
  {
    c.(grid := Grid2D.Set(c.grid, f, v), dirty := true)
  }

  /** The `ChartArea.Border` setter applied through the chart: the
      rectangles keep their last values until the next paint. */
  function SetBorder(c: Chart, b: int): (r: Chart)
    ensures r.area.border == b
    ensures r.area.chartRect == c.area.chartRect && r.area.plotRect == c.area.plotRect
    ensures r.series == c.series && r.areaSeries == c.areaSeries && r.axes == c.axes && r.grid == c.grid
    ensures r.dirty
  {
    c.(area := ChartArea.SetBorder(c.area, b), dirty := true)
  }

  /** The state part of a paint: the area captures the client rectangle
      first, so every later mapping uses the fresh plot rectangle, and the
      pending invalidation is served. */
  function Paint(c: Chart, client: ChartArea.Rect): (r: Chart)
    ensures r.area.chartRect == client
    ensures r.area.plotRect == ChartArea.Inflate(client, -c.area.border, -c.area.border)
    ensures r.area.border == c.area.border
    ensures r.series == c.series && r.areaSeries == c.areaSeries && r.axes == c.axes && r.grid == c.grid
    ensures !r.dirty
  {
    c.(area := ChartArea.Draw(c.area, client), dirty := false)
  }

  /** The viewport a paint maps into. */
  function View(c: Chart): Viewport {
    Axes2D.View(c.axes, c.area.plotRect)
  }

  /** The point arrays of the line series: each series' points mapped in
      series order, one array per series in registration order. */
  method DrawSeries(c: Chart) returns (lines: seq<seq<Point>>)
    requires forall i :: 0 <= i < |c.series| && |c.series[i].points| > 0 ==> NonDegenerate(View(c))
    ensures |lines| == |c.series|
    ensures forall i :: 0 <= i < |c.series| ==>
              |lines[i]| == Series2D.Count(c.series[i]) &&
              forall j :: 0 <= j < |lines[i]| ==> lines[i][j] == MapPoint(View(c), c.series[i].points[j])
  {
    lines := [];
    var i := 0;
    while i < |c.series|
      invariant 0 <= i <= |c.series|
      invariant |lines| == i
      invariant forall k :: 0 <= k < i ==>
                  |lines[k]| == Series2D.Count(c.series[k]) &&
                  forall j :: 0 <= j < |lines[k]| ==> lines[k][j] == MapPoint(View(c), c.series[k].points[j])
    {
      var pts := MapAll(View(c), c.series[i].points);
      lines := lines + [pts];
      i := i + 1;
    }
  }

  /** `poly` is the filled polygon of one area series: the mapped lower
      points in order, then the mapped upper points in reverse. */
  predicate IsAreaPolygon(v: Viewport, lower: seq<Point>, upper: seq<Point>, poly: seq<Point>)
    requires |lower| + |upper| > 0 ==> NonDegenerate(v)
  {
    && |poly| == |lower| + |upper|
    && (forall i :: 0 <= i < |lower| ==> poly[i] == MapPoint(v, lower[i]))
    && (forall k :: |lower| <= k < |poly| ==> poly[k] == MapPoint(v, upper[|lower| + |upper| - 1 - k]))
  }

  /** For a paired series with n > 0 points the polygon has 2n vertices and
      both of its end edges are vertical: vertex n-1 and vertex n share the
      last x, and the closing edge joins two vertices that share the first x. */
  predicate VerticalEnds(a: AreaSeries2D.AreaSeries, poly: seq<Point>) {
    AreaSeries2D.Paired(a) ==>
      var n := AreaSeries2D.Count(a);
      && |poly| == 2 * n
      && (n > 0 ==> poly[n - 1].x == poly[n].x && poly[0].x == poly[2 * n - 1].x)
  }

  /** Every polygon of a paired series has vertical end edges. */
  lemma PolygonEndsVertical(v: Viewport, a: AreaSeries2D.AreaSeries, poly: seq<Point>)
    requires |a.lower| + |a.upper| > 0 ==> NonDegenerate(v)
    requires IsAreaPolygon(v, a.lower, a.upper, poly)
    ensures VerticalEnds(a, poly)
  {
    if AreaSeries2D.Paired(a) && AreaSeries2D.Count(a) > 0 {
      var n := AreaSeries2D.Count(a);
      assert poly[n - 1] == MapPoint(v, a.lower[n - 1]);
      assert poly[n] == MapPoint(v, a.upper[n - 1]);
      assert poly[2 * n - 1] == MapPoint(v, a.upper[0]);
    }
  }

  /** Builds one area series' polygon. */
  method AreaPolygon(v: Viewport, lower: seq<Point>, upper: seq<Point>) returns (poly: seq<Point>)
    requires |lower| + |upper| > 0 ==> NonDegenerate(v)
    ensures IsAreaPolygon(v, lower, upper, poly)
  {
    var lowerPoints := MapAll(v, lower);
    var upperPoints := MapAll(v, upper);
    poly := [];
    var i := 0;
    while i < |lowerPoints|
      invariant 0 <= i <= |lowerPoints|
      invariant |poly| == i
      invariant forall k :: 0 <= k < i ==> poly[k] == lowerPoints[k]
    {
      poly := poly + [lowerPoints[i]];
      i := i + 1;
    }
    var j := |upperPoints| - 1;
    while j >= 0
      invariant -1 <= j < |upperPoints|
      invariant |poly| == |lowerPoints| + (|upperPoints| - 1 - j)
      invariant forall k :: 0 <= k < |lowerPoints| ==> poly[k] == lowerPoints[k]
      invariant forall k :: |lowerPoints| <= k < |poly| ==> poly[k] == upperPoints[|lowerPoints| + |upperPoints| - 1 - k]
    {
      poly := poly + [upperPoints[j]];
      j := j - 1;
    }
  }

  /** The polygons of the area series, in registration order. */
  method DrawAreaSeries(c: Chart) returns (polys: seq<seq<Point>>)
    requires forall i :: 0 <= i < |c.areaSeries| && |c.areaSeries[i].lower| + |c.areaSeries[i].upper| > 0 ==>
               NonDegenerate(View(c))
    ensures |polys| == |c.areaSeries|
    ensures forall i :: 0 <= i < |c.areaSeries| ==>
              IsAreaPolygon(View(c), c.areaSeries[i].lower, c.areaSeries[i].upper, polys[i])
    ensures forall i :: 0 <= i < |c.areaSeries| ==> VerticalEnds(c.areaSeries[i], polys[i])
  {
    polys := [];
    var i := 0;
    while i < |c.areaSeries|
      invariant 0 <= i <= |c.areaSeries|
      invariant |polys| == i
      invariant forall k :: 0 <= k < i ==>
                  IsAreaPolygon(View(c), c.areaSeries[k].lower, c.areaSeries[k].upper, polys[k])
      invariant forall k :: 0 <= k < i ==> VerticalEnds(c.areaSeries[k], polys[k])
    {
      var a := c.areaSeries[i];
      var poly := AreaPolygon(View(c), a.lower, a.upper);
      PolygonEndsVertical(View(c), a, poly);
      polys := polys + [poly];
      i := i + 1;
    }
  }
}
