/** `Series2D`: an ordered list of points with incrementally updated
    extrema. The extrema start at the sentinels and are folded with
    `Math.Min` / `Math.Max` on every append; `Clear` drops the points only. */
module Series2D {
  import opened Extrema
  import opened Point2D

  datatype Series = Series(points: seq<Point>, xMin: real, xMax: real, yMin: real, yMax: real)

  /** The number of points; zero exactly when the series is empty. */
  function Count(s: Series): (n: nat)
    ensures n == 0 <==> s.points == []
  {
    |s.points|
  }

  /** The extrema fields are exactly the running min/max, from the
      sentinels, of the stored coordinates. */
  ghost predicate Tracks(s: Series) {
    && s.xMin == MinFrom(MaxS, Xs(s.points))
    && s.xMax == MaxFrom(MinS, Xs(s.points))
    && s.yMin == MinFrom(MaxS, Ys(s.points))
    && s.yMax == MaxFrom(MinS, Ys(s.points))
  }

  /** Every stored point lies within the extrema. Weaker than `Tracks`
      (the extrema may be stale, wider than the points), but kept by
      `Clear` as well as by `AddPoint`. */
  predicate Brackets(s: Series) {
    forall p :: p in s.points ==> s.xMin <= p.x <= s.xMax && s.yMin <= p.y <= s.yMax
  }

  /** A fresh series: no points, minima at `double.MaxValue`, maxima at
      `double.MinValue`. */
  function New(): (s: Series)
    ensures Count(s) == 0
    ensures s.xMin == MaxS && s.yMin == MaxS
    ensures s.xMax == MinS && s.yMax == MinS
    ensures Tracks(s) && Brackets(s)
  {
    Series([], MaxS, MinS, MaxS, MinS)
  }

  /** Appends (x, y) at the end and folds x and y into the extrema. */
  function AddPoint(s: Series, x: real, y: real): (r: Series)
    ensures Count(r) == Count(s) + 1
    ensures r.points[..Count(s)] == s.points
    ensures r.points[Count(s)] == Point(x, y)
    ensures r.xMin == Min(s.xMin, x) && r.xMax == Max(s.xMax, x)
    ensures r.yMin == Min(s.yMin, y) && r.yMax == Max(s.yMax, y)
  {
    Series(s.points + [Point(x, y)],
           Min(s.xMin, x), Max(s.xMax, x),
           Min(s.yMin, y), Max(s.yMax, y))
  }

  /** Empties the point list; the extrema are left as they were. */
  function Clear(s: Series): (r: Series)
    ensures Count(r) == 0
    ensures r.xMin == s.xMin && r.xMax == s.xMax
    ensures r.yMin == s.yMin && r.yMax == s.yMax
    ensures Brackets(r)
  {
    s.(points := [])
  }

  lemma AddPointPreservesTracks(s: Series, x: real, y: real)
    requires Tracks(s)
    ensures Tracks(AddPoint(s, x, y))
  {
    XsSnoc(s.points, Point(x, y));
    YsSnoc(s.points, Point(x, y));
    MinFromSnoc(MaxS, Xs(s.points), x);
    MaxFromSnoc(MinS, Xs(s.points), x);
    MinFromSnoc(MaxS, Ys(s.points), y);
    MaxFromSnoc(MinS, Ys(s.points), y);
  }

  /** `AddPoint` keeps every point within the extrema: the new point lies
      within its own Min/Max, and the extrema only widen. */
  lemma AddPointKeepsBrackets(s: Series, x: real, y: real)
    requires Brackets(s)
    ensures Brackets(AddPoint(s, x, y))
  {
    var r := AddPoint(s, x, y);
    assert r.points == s.points + [Point(x, y)];
  }

  /** One call on a series: `AddPoint(x, y)` or `Clear()`. */
  datatype Call = Add(x: real, y: real) | ClearAll

  /** The series obtained by constructing a fresh one and making `calls`
      in order. */
  function Replay(calls: seq<Call>): Series
    decreases |calls|
  {
    if |calls| == 0 then New()
    else
      var s := Replay(calls[..|calls| - 1]);
      match calls[|calls| - 1]
      case Add(x, y) => AddPoint(s, x, y)
      case ClearAll => Clear(s)
  }

  /** Whatever mix of appends and clears a series has seen, every point it
      stores lies within its extrema. */
  lemma {:induction false} ReplayBrackets(calls: seq<Call>)
    ensures Brackets(Replay(calls))
    decreases |calls|
  {
    if |calls| > 0 {
      ReplayBrackets(calls[..|calls| - 1]);
      match calls[|calls| - 1]
      case Add(x, y) => AddPointKeepsBrackets(Replay(calls[..|calls| - 1]), x, y);
      case ClearAll =>
    }
  }

  /** A tracked series brackets its points. */
  lemma TracksBrackets(s: Series)
    requires Tracks(s)
    ensures Brackets(s)
  {
    if Count(s) > 0 {
      TrackedExtremaBound(s);
    }
  }

  /** The series obtained by constructing a fresh one and calling
      `AddPoint` for each of `ps` in order. */
  function FromPoints(ps: seq<Point>): Series
    decreases |ps|
  {
    if |ps| == 0 then New()
    else AddPoint(FromPoints(ps[..|ps| - 1]), ps[|ps| - 1].x, ps[|ps| - 1].y)
  }

  /** Any sequence of appends, in any x order, is stored verbatim in
      insertion order. */
  lemma {:induction false} FromPointsStoresVerbatim(ps: seq<Point>)
    ensures FromPoints(ps).points == ps
    decreases |ps|
  {
    if |ps| > 0 {
      var prefix, last := ps[..|ps| - 1], ps[|ps| - 1];
      FromPointsStoresVerbatim(prefix);
      var s := FromPoints(prefix);
      assert FromPoints(ps) == AddPoint(s, last.x, last.y);
      assert AddPoint(s, last.x, last.y).points == prefix + [last];
      assert prefix + [last] == ps;
    }
  }

  /** After any sequence of appends the extrema track the stored points. */
  lemma {:induction false} FromPointsTracks(ps: seq<Point>)
    ensures Tracks(FromPoints(ps))
    decreases |ps|
  {
    if |ps| > 0 {
      var last := ps[|ps| - 1];
      FromPointsTracks(ps[..|ps| - 1]);
      AddPointPreservesTracks(FromPoints(ps[..|ps| - 1]), last.x, last.y);
    }
  }

  /** `Count` is the number of `AddPoint` calls since construction, and
      zero again after `Clear`. */
  lemma CountCountsAppends(ps: seq<Point>)
    ensures Count(FromPoints(ps)) == |ps|
    ensures Count(Clear(FromPoints(ps))) == 0
  {
    FromPointsStoresVerbatim(ps);
  }

  /** For a non-empty tracked series the extrema bracket every point, so
      XMin <= XMax and YMin <= YMax. */
  lemma TrackedExtremaBound(s: Series)
    requires Tracks(s)
    requires Count(s) > 0
    ensures forall p :: p in s.points ==> s.xMin <= p.x <= s.xMax && s.yMin <= p.y <= s.yMax
    ensures s.xMin <= s.xMax && s.yMin <= s.yMax
  {
    forall p | p in s.points
      ensures s.xMin <= p.x <= s.xMax && s.yMin <= p.y <= s.yMax
    {
      var i :| 0 <= i < |s.points| && s.points[i] == p;
      assert Xs(s.points)[i] in Xs(s.points);
      assert Ys(s.points)[i] in Ys(s.points);
    }
    assert s.points[0] in s.points;
  }

  /** With finite coordinates the extrema of a non-empty tracked series are
      attained: each equals the coordinate of some stored point. */
  lemma TrackedExtremaAttained(s: Series)
    requires Tracks(s)
    requires Count(s) > 0
    requires forall p :: p in s.points ==> FinitePoint(p)
    ensures exists i :: 0 <= i < Count(s) && s.points[i].x == s.xMin
    ensures exists i :: 0 <= i < Count(s) && s.points[i].x == s.xMax
    ensures exists i :: 0 <= i < Count(s) && s.points[i].y == s.yMin
    ensures exists i :: 0 <= i < Count(s) && s.points[i].y == s.yMax
  {
    var xs, ys := Xs(s.points), Ys(s.points);
    forall v | v in xs ensures Finite(v) {
      var i :| 0 <= i < |xs| && xs[i] == v;
      assert s.points[i] in s.points;
    }
    forall v | v in ys ensures Finite(v) {
      var i :| 0 <= i < |ys| && ys[i] == v;
      assert s.points[i] in s.points;
    }
    MinFromSentinelIsMinimum(xs);
    MaxFromSentinelIsMaximum(xs);
    MinFromSentinelIsMinimum(ys);
    MaxFromSentinelIsMaximum(ys);
  }

  /** `Clear` does not reset the extrema: after adding (100, 100), clearing
      and adding (1, 1), the only point is (1, 1) yet XMax and YMax are
      still 100, so the extrema no longer track the points. */
  lemma ClearKeepsStaleExtrema()
    ensures AddPoint(Clear(AddPoint(New(), 100.0, 100.0)), 1.0, 1.0).points == [Point(1.0, 1.0)]
    ensures AddPoint(Clear(AddPoint(New(), 100.0, 100.0)), 1.0, 1.0).xMax == 100.0
    ensures AddPoint(Clear(AddPoint(New(), 100.0, 100.0)), 1.0, 1.0).yMax == 100.0
    ensures !Tracks(AddPoint(Clear(AddPoint(New(), 100.0, 100.0)), 1.0, 1.0))
  {
    var s := AddPoint(Clear(AddPoint(New(), 100.0, 100.0)), 1.0, 1.0);
    assert Xs(s.points) == [1.0];
    assert MaxFrom(MinS, [1.0]) == 1.0 by {
      assert [1.0][..0] == [];
    }
  }
}
