/** `Grid2D`: the visibility flags and line thickness of the grid, and the
    gridline segments its `Draw` produces from the axes and the plot
    rectangle. */
module Grid2D {
  import opened Point2D
  import opened Mapping
  import opened ChartArea
  import Axes2D
  import opened RealArith

  datatype Grid = Grid(xGridVisible: bool, yGridVisible: bool, thickness: real)

  /** Both grids visible, lines 1 pixel thick. */
  function New(): (g: Grid)
    ensures g.xGridVisible && g.yGridVisible
    ensures g.thickness == 1.0
  {
    Grid(true, true, 1.0)
  }

  /** The publicly settable properties modelled here. */
  datatype Field = XGridVisible | YGridVisible | Thickness
  datatype Value = Number(n: real) | Flag(b: bool)

  function Get(g: Grid, f: Field): Value {
    match f
    case XGridVisible => Flag(g.xGridVisible)
    case YGridVisible => Flag(g.yGridVisible)
    case Thickness => Number(g.thickness)
  }

  /** The value has the property's type. */
  predicate Fits(f: Field, v: Value) {
    if f == Thickness then v.Number? else v.Flag?
  }

  /** A property setter: stores the value verbatim and changes nothing
      else; invalidating the chart is the owner's part, see `Chart2D.SetGrid`. */
  function Set(g: Grid, f: Field, v: Value): (r: Grid)
    requires Fits(f, v)
    ensures Get(r, f) == v
    ensures forall h :: h != f ==> Get(r, h) == Get(g, h)
  {
    match f
    case XGridVisible => g.(xGridVisible := v.b)
    case YGridVisible => g.(yGridVisible := v.b)
    case Thickness => g.(thickness := v.n)
  }

  /** The values `for (x = start; x < max; x += tick)` visits: unlike the
      tick labels, the upper bound is exclusive. */
  function LineValues(start: real, max: real, tick: real): (r: seq<real>)
    requires start < max ==> tick > 0.0
    ensures forall k :: 0 <= k < |r| ==> r[k] == start + k as real * tick && r[k] < max
    ensures max <= start + |r| as real * tick
    decreases if start < max then ((max - start) / tick).Floor + 1 else 0
  {
    if start < max then
      FloorStep(max - start, tick);
      assert max - (start + tick) == (max - start) - tick;
      var rest := LineValues(start + tick, max, tick);
      PrependLine(start, max, tick, rest);
      [start] + rest
    else []
  }

  /** One loop step: the line at `start` followed by the lines from
      `start + tick` are the lines from `start`. */
  lemma PrependLine(start: real, max: real, tick: real, rest: seq<real>)
    requires start < max
    requires forall k :: 0 <= k < |rest| ==> rest[k] == (start + tick) + k as real * tick && rest[k] < max
    requires max <= (start + tick) + |rest| as real * tick
    ensures forall k :: 0 <= k < |[start] + rest| ==>
              ([start] + rest)[k] == start + k as real * tick && ([start] + rest)[k] < max
    ensures max <= start + |[start] + rest| as real * tick
  {
    var r := [start] + rest;
    forall k | 0 <= k < |r|
      ensures r[k] == start + k as real * tick && r[k] < max
    {
      if k > 0 {
        assert r[k] == rest[k - 1];
        SuccTimes(k - 1, tick);
      }
    }
    SuccTimes(|rest|, tick);
  }

  /** The gridlines are the tick labels strictly below the top: the line
      values are a prefix of the label values, and the labels have one more
      entry exactly when max itself is a label. */
  lemma {:induction false} LinesAreLabelsBelowMax(start: real, max: real, tick: real)
    requires tick > 0.0
    ensures var lines, labels := LineValues(start, max, tick), Axes2D.LabelValues(start, max, tick);
            && |lines| <= |labels|
            && lines == labels[..|lines|]
            && (|labels| == |lines| + 1 <==> max in labels)
            && (|labels| == |lines| <==> max !in labels)
    decreases if start <= max then ((max - start) / tick).Floor + 1 else 0
  {
    var lines, labels := LineValues(start, max, tick), Axes2D.LabelValues(start, max, tick);
    if start < max {
      ShiftedQuotient(max - start, tick);
      LinesAreLabelsBelowMax(start + tick, max, tick);
      var lines', labels' := LineValues(start + tick, max, tick), Axes2D.LabelValues(start + tick, max, tick);
      assert lines == [start] + lines' && labels == [start] + labels';
      assert labels[..|lines|] == [start] + labels'[..|lines'|];
      assert max in labels <==> max in labels';
    } else if start == max {
      assert Axes2D.LabelValues(start + tick, max, tick) == [];
      assert labels == [max];
    }
  }

  /** There is no gridline at the top of the range: when max lies exactly
      n ticks above the start there are n + 1 labels but only n lines. */
  lemma LinesExcludeMax(start: real, tick: real, n: nat)
    requires tick > 0.0
    ensures |LineValues(start, start + n as real * tick, tick)| == n
  {
    var max := start + n as real * tick;
    Axes2D.LabelsIncludeMax(start, tick, n);
    LinesAreLabelsBelowMax(start, max, tick);
    assert Axes2D.LabelValues(start, max, tick)[n] == max;
  }

  /** A gridline from one pixel position to another. */
  datatype Segment = Segment(from: Point, to: Point)

  /** The vertical gridlines: none unless `XGridVisible`; otherwise one per
      line value, spanning the plot from its bottom to its top. */
  function VerticalLines(g: Grid, a: Axes2D.Axes, plot: Rect): (r: seq<Segment>)
    requires g.xGridVisible && a.xMin < a.xMax ==> a.xTick > 0.0
    ensures !g.xGridVisible ==> r == []
    ensures g.xGridVisible ==> |r| == |LineValues(a.xMin, a.xMax, a.xTick)|
    ensures |r| > 0 ==> a.xMin < a.xMax
    ensures forall k :: 0 <= k < |r| ==>
              r[k].from.y == plot.Bottom() as real && r[k].to.y == (plot.Bottom() - plot.height) as real &&
              r[k].to.x == r[k].from.x
    ensures |r| > 0 ==> forall k :: 0 <= k < |r| ==>
              r[k].from.x == MapX(Axes2D.View(a, plot), LineValues(a.xMin, a.xMax, a.xTick)[k])
    ensures |r| > 0 ==> r[0].from.x == plot.x as real
  {
    if !g.xGridVisible then []
    else
      var vs := LineValues(a.xMin, a.xMax, a.xTick);
      var v := Axes2D.View(a, plot);
      seq(|vs|, k requires 0 <= k < |vs| =>
        Segment(Point(MapX(v, vs[k]), plot.Bottom() as real),
                Point(MapX(v, vs[k]), (plot.Bottom() - plot.height) as real)))
  }

  /** The horizontal gridlines: none unless `YGridVisible`; otherwise one
      per line value, spanning the plot from its left to its right edge. */
  function HorizontalLines(g: Grid, a: Axes2D.Axes, plot: Rect): (r: seq<Segment>)
    requires g.yGridVisible && a.yMin < a.yMax ==> a.yTick > 0.0
    ensures !g.yGridVisible ==> r == []
    ensures g.yGridVisible ==> |r| == |LineValues(a.yMin, a.yMax, a.yTick)|
    ensures |r| > 0 ==> a.yMin < a.yMax
    ensures forall k :: 0 <= k < |r| ==>
              r[k].from.x == plot.x as real && r[k].to.x == plot.Right() as real &&
              r[k].to.y == r[k].from.y
    ensures |r| > 0 ==> forall k :: 0 <= k < |r| ==>
              r[k].from.y == MapY(Axes2D.View(a, plot), LineValues(a.yMin, a.yMax, a.yTick)[k])
    ensures |r| > 0 ==> r[0].from.y == plot.Bottom() as real
  {
    if !g.yGridVisible then []
    else
      var vs := LineValues(a.yMin, a.yMax, a.yTick);
      var v := Axes2D.View(a, plot);
      seq(|vs|, k requires 0 <= k < |vs| =>
        Segment(Point(plot.x as real, MapY(v, vs[k])),
                Point(plot.Right() as real, MapY(v, vs[k]))))
  }
}
