/** `Axes2D`: the axis ranges, tick sizes, tick formats and auto-scale
    flags, plus the tick-label positions its `Draw` produces. */
module Axes2D {
  import opened Mapping
  import opened ChartArea
  import opened RealArith

  datatype Axes = Axes(xMin: real, xMax: real, xTick: real,
                       yMin: real, yMax: real, yTick: real,
                       xTickFormat: string, yTickFormat: string,
                       xAutoScale: bool, yAutoScale: bool)

  /** The publicly settable properties, and the values they hold. */
  datatype Field = XMin | XMax | XTick | XAutoScale | XTickFormat
                 | YMin | YMax | YTick | YAutoScale | YTickFormat
  datatype Value = Number(n: real) | Text(s: string) | Flag(b: bool)

  function Get(a: Axes, f: Field): Value {
    match f
    case XMin => Number(a.xMin)
    case XMax => Number(a.xMax)
    case XTick => Number(a.xTick)
    case XAutoScale => Flag(a.xAutoScale)
    case XTickFormat => Text(a.xTickFormat)
    case YMin => Number(a.yMin)
    case YMax => Number(a.yMax)
    case YTick => Number(a.yTick)
    case YAutoScale => Flag(a.yAutoScale)
    case YTickFormat => Text(a.yTickFormat)
  }

  /** The value has the property's type. */
  predicate Fits(f: Field, v: Value) {
    match f
    case XAutoScale | YAutoScale => v.Flag?
    case XTickFormat | YTickFormat => v.Text?
    case _ => v.Number?
  }

  /** Construction defaults: x in [-5, 5] and y in [-3, 3], both ticks 1,
      formats "N2", no auto-scaling. */
  function New(): (a: Axes)
    ensures Get(a, XMin) == Number(-5.0) && Get(a, XMax) == Number(5.0) && Get(a, XTick) == Number(1.0)
    ensures Get(a, YMin) == Number(-3.0) && Get(a, YMax) == Number(3.0) && Get(a, YTick) == Number(1.0)
    ensures Get(a, XTickFormat) == Text("N2") && Get(a, YTickFormat) == Text("N2")
    ensures Get(a, XAutoScale) == Flag(false) && Get(a, YAutoScale) == Flag(false)
  {
    Axes(-5.0, 5.0, 1.0, -3.0, 3.0, 1.0, "N2", "N2", false, false)
  }

  /** A property setter: stores the value verbatim (no check that Min < Max
      or Tick > 0) and leaves every other property as it was. Invalidating
      the chart is the owner's part, see `Chart2D.SetAxes`. */
  function Set(a: Axes, f: Field, v: Value): (r: Axes)
    requires Fits(f, v)
    ensures Get(r, f) == v
    ensures forall g :: g != f ==> Get(r, g) == Get(a, g)
  {
    match f
    case XMin => a.(xMin := v.n)
    case XMax => a.(xMax := v.n)
    case XTick => a.(xTick := v.n)
    case XAutoScale => a.(xAutoScale := v.b)
    case XTickFormat => a.(xTickFormat := v.s)
    case YMin => a.(yMin := v.n)
    case YMax => a.(yMax := v.n)
    case YTick => a.(yTick := v.n)
    case YAutoScale => a.(yAutoScale := v.b)
    case YTickFormat => a.(yTickFormat := v.s)
  }

  predicate IsXScale(f: Field) {
    f == XMin || f == XMax || f == XTick
  }

  predicate IsYScale(f: Field) {
    f == YMin || f == YMax || f == YTick
  }

  /** Overwrites the x range and tick and nothing else. */
  function ReScaleX(a: Axes, min: real, max: real, tick: real): (r: Axes)
    ensures Get(r, XMin) == Number(min) && Get(r, XMax) == Number(max) && Get(r, XTick) == Number(tick)
    ensures forall g :: !IsXScale(g) ==> Get(r, g) == Get(a, g)
  {
    a.(xMin := min, xMax := max, xTick := tick)
  }

  /** Overwrites the y range and tick and nothing else. */
  function ReScaleY(a: Axes, min: real, max: real, tick: real): (r: Axes)
    ensures Get(r, YMin) == Number(min) && Get(r, YMax) == Number(max) && Get(r, YTick) == Number(tick)
    ensures forall g :: !IsYScale(g) ==> Get(r, g) == Get(a, g)
  {
    a.(yMin := min, yMax := max, yTick := tick)
  }

  /** The values `for (x = start; x <= max; x += tick)` visits. The loop only
      terminates when tick > 0, which is demanded whenever it runs at all. */
  function LabelValues(start: real, max: real, tick: real): (r: seq<real>)
    requires start <= max ==> tick > 0.0
    ensures forall k :: 0 <= k < |r| ==> r[k] == start + k as real * tick && r[k] <= max
    ensures max < start + |r| as real * tick
    decreases if start <= max then ((max - start) / tick).Floor + 1 else 0
  {
    if start <= max then
      LabelStepDecreases(start, max, tick);
      var rest := LabelValues(start + tick, max, tick);
      PrependLabel(start, max, tick, rest);
      [start] + rest
    else []
  }

  /** One loop step leaves one label fewer to visit. */
  lemma LabelStepDecreases(start: real, max: real, tick: real)
    requires tick > 0.0 && start <= max
    ensures 0 <= (if start + tick <= max then ((max - (start + tick)) / tick).Floor + 1 else 0)
                < ((max - start) / tick).Floor + 1
  {
    FloorStep(max - start, tick);
    assert max - (start + tick) == (max - start) - tick;
  }

  /** One loop step: the label `start` followed by the labels from
      `start + tick` are the labels from `start`. */
  lemma PrependLabel(start: real, max: real, tick: real, rest: seq<real>)
    requires start <= max
    requires forall k :: 0 <= k < |rest| ==> rest[k] == (start + tick) + k as real * tick && rest[k] <= max
    requires max < (start + tick) + |rest| as real * tick
    ensures forall k :: 0 <= k < |[start] + rest| ==>
              ([start] + rest)[k] == start + k as real * tick && ([start] + rest)[k] <= max
    ensures max < start + |[start] + rest| as real * tick
  {
    var r := [start] + rest;
    forall k | 0 <= k < |r|
      ensures r[k] == start + k as real * tick && r[k] <= max
    {
      if k > 0 {
        assert r[k] == rest[k - 1];
        SuccTimes(k - 1, tick);
      }
    }
    SuccTimes(|rest|, tick);
  }

  /** Any run of labels `start + k tick`, all at most `start + n tick` and
      overshooting it after the last, has exactly n + 1 members. */
  lemma LabelCount(start: real, tick: real, n: nat, r: seq<real>)
    requires tick > 0.0
    requires forall k :: 0 <= k < |r| ==> r[k] == start + k as real * tick && r[k] <= start + n as real * tick
    requires start + n as real * tick < start + |r| as real * tick
    ensures |r| == n + 1
  {
    ScaleOrder(|r|, n, tick);
    var last := |r| - 1;
    assert r[last] <= start + n as real * tick;
    ScaleOrder(last, n, tick);
  }

  /** The labels are inclusive at the top: when max lies exactly n ticks
      above the start, there are n + 1 labels and the last one is max. */
  lemma LabelsIncludeMax(start: real, tick: real, n: nat)
    requires tick > 0.0
    ensures var r := LabelValues(start, start + n as real * tick, tick);
            |r| == n + 1 && r[n] == start + n as real * tick
  {
    var r := LabelValues(start, start + n as real * tick, tick);
    LabelCount(start, tick, n, r);
  }

  /** The viewport the axes and the plot rectangle define. */
  function View(a: Axes, plot: Rect): Viewport {
    Viewport(a.xMin, a.xMax, a.yMin, a.yMax,
             plot.x as real, plot.Bottom() as real, plot.width as real, plot.height as real)
  }

  /** A tick label: its value and the pixel coordinate it is anchored at. */
  datatype Tick = Tick(value: real, pixel: real)

  /** The x tick labels `Draw` places along the bottom of the plot. */
  function XTicks(a: Axes, plot: Rect): (r: seq<Tick>)
    requires a.xMin <= a.xMax ==> a.xTick > 0.0
    requires a.xMin != a.xMax
    ensures |r| == |LabelValues(a.xMin, a.xMax, a.xTick)|
    ensures forall k :: 0 <= k < |r| ==>
              r[k].value == LabelValues(a.xMin, a.xMax, a.xTick)[k] &&
              r[k].pixel == MapX(View(a, plot), r[k].value)
    ensures |r| > 0 ==> r[0].pixel == plot.x as real
  {
    var v, vs := View(a, plot), LabelValues(a.xMin, a.xMax, a.xTick);
    assert MapX(v, a.xMin) == plot.x as real;
    seq(|vs|, k requires 0 <= k < |vs| => Tick(vs[k], MapX(v, vs[k])))
  }

  /** The y tick labels `Draw` places along the left of the plot. */
  function YTicks(a: Axes, plot: Rect): (r: seq<Tick>)
    requires a.yMin <= a.yMax ==> a.yTick > 0.0
    requires a.yMin != a.yMax
    ensures |r| == |LabelValues(a.yMin, a.yMax, a.yTick)|
    ensures forall k :: 0 <= k < |r| ==>
              r[k].value == LabelValues(a.yMin, a.yMax, a.yTick)[k] &&
              r[k].pixel == MapY(View(a, plot), r[k].value)
    ensures |r| > 0 ==> r[0].pixel == plot.Bottom() as real
  {
    var v, vs := View(a, plot), LabelValues(a.yMin, a.yMax, a.yTick);
    assert MapY(v, a.yMin) == plot.Bottom() as real;
    seq(|vs|, k requires 0 <= k < |vs| => Tick(vs[k], MapY(v, vs[k])))
  }
}
