/** `Point2D`: one (x, y) sample of a series. */
module Point2D {
  import opened Extrema

  datatype Point = Point(x: real, y: real)

  predicate FinitePoint(p: Point) {
    Finite(p.x) && Finite(p.y)
  }

  /** The x coordinates of `ps`, in order. */
  function Xs(ps: seq<Point>): (r: seq<real>)
    ensures |r| == |ps|
    ensures forall i :: 0 <= i < |ps| ==> r[i] == ps[i].x
  {
    seq(|ps|, i requires 0 <= i < |ps| => ps[i].x)
  }

  /** The y coordinates of `ps`, in order. */
  function Ys(ps: seq<Point>): (r: seq<real>)
    ensures |r| == |ps|
    ensures forall i :: 0 <= i < |ps| ==> r[i] == ps[i].y
  {
    seq(|ps|, i requires 0 <= i < |ps| => ps[i].y)
  }

  lemma XsSnoc(ps: seq<Point>, p: Point)
    ensures Xs(ps + [p]) == Xs(ps) + [p.x]
  {
    assert Xs(ps + [p]) == Xs(ps) + [p.x];
  }

  lemma YsSnoc(ps: seq<Point>, p: Point)
    ensures Ys(ps + [p]) == Ys(ps) + [p.y]
  {
    assert Ys(ps + [p]) == Ys(ps) + [p.y];
  }
}
