/** The data-to-pixel affine map shared by the series renderer, the tick
    labels and the gridlines. X grows to the right from the plot's left
    edge; y is inverted, growing upwards from the plot's bottom edge. */
module Mapping {
  import opened Point2D
  import opened RealArith

  /** The axes' data ranges and the plot rectangle's placement in pixels. */
  datatype Viewport = Viewport(xMin: real, xMax: real, yMin: real, yMax: real,
                               left: real, bottom: real, width: real, height: real)

  /** Both data ranges have non-zero width, so the map does not divide by zero. */
  predicate NonDegenerate(v: Viewport) {
    v.xMax != v.xMin && v.yMax != v.yMin
  }

  /** X + (x - XMin) * Width / (XMax - XMin). */
  function MapX(v: Viewport, x: real): (r: real)
    requires v.xMax != v.xMin
    ensures (r - v.left) * (v.xMax - v.xMin) == (x - v.xMin) * v.width
    ensures x == v.xMin ==> r == v.left
    ensures x == v.xMax ==> r == v.left + v.width
  {
    v.left + (x - v.xMin) * v.width / (v.xMax - v.xMin)
  }

  /** Bottom - (y - YMin) * Height / (YMax - YMin). */
  function MapY(v: Viewport, y: real): (r: real)
    requires v.yMax != v.yMin
    ensures (v.bottom - r) * (v.yMax - v.yMin) == (y - v.yMin) * v.height
    ensures y == v.yMin ==> r == v.bottom
    ensures y == v.yMax ==> r == v.bottom - v.height
  {
    v.bottom - (y - v.yMin) * v.height / (v.yMax - v.yMin)
  }

  /** A data point's pixel position: x and y offsets from the plot's
      left / bottom edge are proportional to the offsets from the axis
      minima. */
  function MapPoint(v: Viewport, p: Point): (r: Point)
    requires NonDegenerate(v)
    ensures (r.x - v.left) * (v.xMax - v.xMin) == (p.x - v.xMin) * v.width
    ensures (v.bottom - r.y) * (v.yMax - v.yMin) == (p.y - v.yMin) * v.height
    ensures p.x == v.xMin && p.y == v.yMin ==> r == Point(v.left, v.bottom)
  {
    Point(MapX(v, p.x), MapY(v, p.y))
  }

  /** Two values scaled by the same positive ratio w / d keep their order:
      from r_a d == p_a w and r_b d == p_b w, p_a < p_b gives r_a < r_b. */
  lemma ProportionalOrder(ra: real, rb: real, pa: real, pb: real, d: real, w: real)
    requires d > 0.0 && w > 0.0 && pa < pb
    requires ra * d == pa * w && rb * d == pb * w
    ensures ra < rb
  {
    assert (pb - pa) * w > 0.0;
    assert (rb - ra) * d == (pb - pa) * w;
    PositiveFactor(rb - ra, d);
  }

  /** With a positive range and width, the x map is strictly increasing. */
  lemma MapXIncreasing(v: Viewport, a: real, b: real)
    requires v.xMax > v.xMin && v.width > 0.0
    requires a < b
    ensures MapX(v, a) < MapX(v, b)
  {
    ProportionalOrder(MapX(v, a) - v.left, MapX(v, b) - v.left,
                      a - v.xMin, b - v.xMin, v.xMax - v.xMin, v.width);
  }

  /** With a positive range and height, the y map is strictly decreasing:
      larger values are drawn higher up. */
  lemma MapYDecreasing(v: Viewport, a: real, b: real)
    requires v.yMax > v.yMin && v.height > 0.0
    requires a < b
    ensures MapY(v, a) > MapY(v, b)
  {
    ProportionalOrder(v.bottom - MapY(v, a), v.bottom - MapY(v, b),
                      a - v.yMin, b - v.yMin, v.yMax - v.yMin, v.height);
  }

  /** Equal values scaled by the same non-zero ratio w / d come from equal
      values. */
  lemma ProportionalEqual(ra: real, rb: real, pa: real, pb: real, d: real, w: real)
    requires w != 0.0 && ra == rb
    requires ra * d == pa * w && rb * d == pb * w
    ensures pa == pb
  {
    CancelFactor(pa, pb, w);
  }

  /** On a plot of non-zero width and height distinct data points land on
      distinct pixel positions. */
  lemma MapPointInjective(v: Viewport, p: Point, q: Point)
    requires NonDegenerate(v) && v.width != 0.0 && v.height != 0.0
    requires MapPoint(v, p) == MapPoint(v, q)
    ensures p == q
  {
    ProportionalEqual(MapPoint(v, p).x - v.left, MapPoint(v, q).x - v.left,
                      p.x - v.xMin, q.x - v.xMin, v.xMax - v.xMin, v.width);
    ProportionalEqual(v.bottom - MapPoint(v, p).y, v.bottom - MapPoint(v, q).y,
                      p.y - v.yMin, q.y - v.yMin, v.yMax - v.yMin, v.height);
  }

  /** Maps every point in order, as the series renderer fills its point
      array. */
  method MapAll(v: Viewport, ps: seq<Point>) returns (out: seq<Point>)
    requires |ps| > 0 ==> NonDegenerate(v)
    ensures |out| == |ps|
    ensures forall i :: 0 <= i < |ps| ==> out[i] == MapPoint(v, ps[i])
  {
    out := [];
    var i := 0;
    while i < |ps|
      invariant 0 <= i <= |ps|
      invariant |out| == i
      invariant forall k :: 0 <= k < i ==> out[k] == MapPoint(v, ps[k])
    {
      out := out + [MapPoint(v, ps[i])];
      i := i + 1;
    }
  }
}
