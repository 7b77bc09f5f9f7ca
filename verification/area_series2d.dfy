/** `AreaSeries2D`: a filled band given by two parallel point lists,
    `Lower` and `Upper`, that are always appended together. X extrema come
    from x alone; Y extrema from both the lower and the upper value. */
module AreaSeries2D {
  import opened Extrema
  import opened Point2D

  datatype AreaSeries = AreaSeries(lower: seq<Point>, upper: seq<Point>,
                                   xMin: real, xMax: real, yMin: real, yMax: real)

  /** One `AddPoint(x, lower, upper)` call's arguments. */
  datatype Band = Band(x: real, lower: real, upper: real)

  /** `Count` reads the lower list; while the lists are paired it is also
      the number of upper points. */
  function Count(a: AreaSeries): (n: nat)
    ensures Paired(a) ==> n == |a.upper|
    ensures n == 0 <==> a.lower == []
  {
    |a.lower|
  }

  /** The two lists have the same length and share x index by index. */
  predicate Paired(a: AreaSeries) {
    && |a.lower| == |a.upper|
    && forall i :: 0 <= i < |a.lower| ==> a.lower[i].x == a.upper[i].x
  }

  /** The y values in the order `AddPoint` folds them: lower then upper,
      pair by pair. */
  function PairedYs(lower: seq<Point>, upper: seq<Point>): (r: seq<real>)
    requires |lower| == |upper|
    ensures |r| == 2 * |lower|
    ensures forall i :: 0 <= i < |lower| ==> r[2 * i] == lower[i].y && r[2 * i + 1] == upper[i].y
    decreases |lower|
  {
    if |lower| == 0 then []
    else
      var n := |lower| - 1;
      PairedYs(lower[..n], upper[..n]) + [lower[n].y, upper[n].y]
  }

  /** Appending one pair appends its lower and then its upper y. */
  lemma PairedYsSnoc(lower: seq<Point>, upper: seq<Point>, p: Point, q: Point)
    requires |lower| == |upper|
    ensures PairedYs(lower + [p], upper + [q]) == (PairedYs(lower, upper) + [p.y]) + [q.y]
  {
    assert (lower + [p])[..|lower|] == lower && (upper + [q])[..|upper|] == upper;
    assert [p.y, q.y] == [p.y] + [q.y];
  }

  /** The extrema fields are exactly the running min/max, from the
      sentinels, of the stored x values and of all stored y values. */
  ghost predicate Tracks(a: AreaSeries)
    requires |a.lower| == |a.upper|
  {
    && a.xMin == MinFrom(MaxS, Xs(a.lower))
    && a.xMax == MaxFrom(MinS, Xs(a.lower))
    && a.yMin == MinFrom(MaxS, PairedYs(a.lower, a.upper))
    && a.yMax == MaxFrom(MinS, PairedYs(a.lower, a.upper))
  }

  ghost predicate Valid(a: AreaSeries) {
    Paired(a) && Tracks(a)
  }

  /** Every stored lower and upper point lies within the extrema. Weaker
      than `Tracks` (the extrema may be stale), but kept by `Clear` as well
      as by `AddPoint`. */
  predicate Brackets(a: AreaSeries) {
    && (forall p :: p in a.lower ==> a.xMin <= p.x <= a.xMax && a.yMin <= p.y <= a.yMax)
    && (forall p :: p in a.upper ==> a.xMin <= p.x <= a.xMax && a.yMin <= p.y <= a.yMax)
  }

  function New(): (a: AreaSeries)
    ensures Count(a) == 0 && |a.upper| == 0
    ensures a.xMin == MaxS && a.yMin == MaxS
    ensures a.xMax == MinS && a.yMax == MinS
    ensures Valid(a) && Brackets(a)
  {
    AreaSeries([], [], MaxS, MinS, MaxS, MinS)
  }

  /** Appends (x, lower) to `Lower` and (x, upper) to `Upper`; x updates the
      x extrema, lower and then upper update the y extrema. No relation
      between lower and upper is required. */
  function AddPoint(a: AreaSeries, x: real, lower: real, upper: real): (r: AreaSeries)
    ensures |r.lower| == |a.lower| + 1 && |r.upper| == |a.upper| + 1
    ensures r.lower[..|a.lower|] == a.lower && r.lower[|a.lower|] == Point(x, lower)
    ensures r.upper[..|a.upper|] == a.upper && r.upper[|a.upper|] == Point(x, upper)
    ensures r.xMin == Min(a.xMin, x) && r.xMax == Max(a.xMax, x)
    ensures r.yMin == Min(Min(a.yMin, lower), upper)
    ensures r.yMax == Max(Max(a.yMax, lower), upper)
  {
    AreaSeries(a.lower + [Point(x, lower)], a.upper + [Point(x, upper)],
               Min(a.xMin, x), Max(a.xMax, x),
               Min(Min(a.yMin, lower), upper), Max(Max(a.yMax, lower), upper))
  }

  /** Empties both lists together; the extrema are left as they were. */
  function Clear(a: AreaSeries): (r: AreaSeries)
    ensures |r.lower| == 0 && |r.upper| == 0
    ensures r.xMin == a.xMin && r.xMax == a.xMax
    ensures r.yMin == a.yMin && r.yMax == a.yMax
    ensures Paired(r) && Brackets(r)
  {
    a.(lower := [], upper := [])
  }

  lemma AddPointPreservesValid(a: AreaSeries, x: real, lower: real, upper: real)
    requires Valid(a)
    ensures Valid(AddPoint(a, x, lower, upper))
  {
    var r := AddPoint(a, x, lower, upper);
    assert r.lower == a.lower + [Point(x, lower)] && r.upper == a.upper + [Point(x, upper)];
    forall i | 0 <= i < |r.lower|
      ensures r.lower[i].x == r.upper[i].x
    {
      if i < |a.lower| {
        assert r.lower[i] == a.lower[i] && r.upper[i] == a.upper[i];
      }
    }
    XsSnoc(a.lower, Point(x, lower));
    MinFromSnoc(MaxS, Xs(a.lower), x);
    MaxFromSnoc(MinS, Xs(a.lower), x);
    var ys := PairedYs(a.lower, a.upper);
    PairedYsSnoc(a.lower, a.upper, Point(x, lower), Point(x, upper));
    MinFromSnoc(MaxS, ys, lower);
    MinFromSnoc(MaxS, ys + [lower], upper);
    MaxFromSnoc(MinS, ys, lower);
    MaxFromSnoc(MinS, ys + [lower], upper);
  }

  /** `AddPoint` keeps every lower and upper point within the extrema: the
      new pair lies within its own Min/Max, and the extrema only widen. */
  lemma AddPointKeepsBrackets(a: AreaSeries, x: real, lower: real, upper: real)
    requires Brackets(a)
    ensures Brackets(AddPoint(a, x, lower, upper))
  {
    var r := AddPoint(a, x, lower, upper);
    assert r.lower == a.lower + [Point(x, lower)] && r.upper == a.upper + [Point(x, upper)];
  }

  /** One call on an area series: `AddPoint(x, lower, upper)` or `Clear()`. */
  datatype Call = Add(x: real, lower: real, upper: real) | ClearAll

  /** The area series obtained by constructing a fresh one and making
      `calls` in order. */
  function Replay(calls: seq<Call>): AreaSeries
    decreases |calls|
  {
    if |calls| == 0 then New()
    else
      var a := Replay(calls[..|calls| - 1]);
      match calls[|calls| - 1]
      case Add(x, lower, upper) => AddPoint(a, x, lower, upper)
      case ClearAll => Clear(a)
  }

  /** Whatever mix of appends and clears an area series has seen, every
      lower and upper point it stores lies within its extrema. */
  lemma {:induction false} ReplayBrackets(calls: seq<Call>)
    ensures Brackets(Replay(calls))
    decreases |calls|
  {
    if |calls| > 0 {
      ReplayBrackets(calls[..|calls| - 1]);
      match calls[|calls| - 1]
      case Add(x, lower, upper) => AddPointKeepsBrackets(Replay(calls[..|calls| - 1]), x, lower, upper);
      case ClearAll =>
    }
  }

  /** The area series obtained from a fresh one by one `AddPoint` per band. */
  function FromBands(bs: seq<Band>): AreaSeries
    decreases |bs|
  {
    if |bs| == 0 then New()
    else
      var b := bs[|bs| - 1];
      AddPoint(FromBands(bs[..|bs| - 1]), b.x, b.lower, b.upper)
  }

  /** Any sequence of appends keeps the series valid. */
  lemma {:induction false} FromBandsValid(bs: seq<Band>)
    ensures Valid(FromBands(bs))
    decreases |bs|
  {
    if |bs| > 0 {
      var b := bs[|bs| - 1];
      FromBandsValid(bs[..|bs| - 1]);
      AddPointPreservesValid(FromBands(bs[..|bs| - 1]), b.x, b.lower, b.upper);
    }
  }

  /** Any sequence of appends is stored verbatim, pair by pair, even when
      lower exceeds upper. */
  lemma {:induction false} FromBandsStoresVerbatim(bs: seq<Band>)
    ensures Count(FromBands(bs)) == |bs| && |FromBands(bs).upper| == |bs|
    ensures forall i :: 0 <= i < |bs| ==>
              FromBands(bs).lower[i] == Point(bs[i].x, bs[i].lower) &&
              FromBands(bs).upper[i] == Point(bs[i].x, bs[i].upper)
    decreases |bs|
  {
    if |bs| > 0 {
      var prefix := bs[..|bs| - 1];
      var b := bs[|bs| - 1];
      var before := FromBands(prefix);
      FromBandsStoresVerbatim(prefix);
      var after := FromBands(bs);
      assert after == AddPoint(before, b.x, b.lower, b.upper);
      forall i | 0 <= i < |bs|
        ensures after.lower[i] == Point(bs[i].x, bs[i].lower)
        ensures after.upper[i] == Point(bs[i].x, bs[i].upper)
      {
        if i < |prefix| {
          assert after.lower[i] == after.lower[..|prefix|][i] == before.lower[i];
          assert after.upper[i] == after.upper[..|prefix|][i] == before.upper[i];
          assert bs[i] == prefix[i];
        }
      }
    }
  }

  /** For a non-empty valid area series the x extrema bracket every x and
      the y extrema bracket every lower and upper value. */
  lemma ValidExtremaBound(a: AreaSeries)
    requires Valid(a)
    requires Count(a) > 0
    ensures forall i :: 0 <= i < Count(a) ==>
              && a.xMin <= a.lower[i].x <= a.xMax
              && a.yMin <= a.lower[i].y <= a.yMax
              && a.yMin <= a.upper[i].y <= a.yMax
    ensures a.xMin <= a.xMax && a.yMin <= a.yMax
  {
    var xs, ys := Xs(a.lower), PairedYs(a.lower, a.upper);
    forall i | 0 <= i < Count(a)
      ensures && a.xMin <= a.lower[i].x <= a.xMax
              && a.yMin <= a.lower[i].y <= a.yMax
              && a.yMin <= a.upper[i].y <= a.yMax
    {
      assert xs[i] in xs;
      assert ys[2 * i] in ys;
      assert ys[2 * i + 1] in ys;
    }
  }

  /** A valid area series brackets its points. */
  lemma ValidBrackets(a: AreaSeries)
    requires Valid(a)
    ensures Brackets(a)
  {
    if Count(a) > 0 {
      ValidExtremaBound(a);
      forall p | p in a.upper
        ensures a.xMin <= p.x <= a.xMax && a.yMin <= p.y <= a.yMax
      {
        var j :| 0 <= j < |a.upper| && a.upper[j] == p;
        assert a.upper[j].x == a.lower[j].x;
      }
      forall p | p in a.lower
        ensures a.xMin <= p.x <= a.xMax && a.yMin <= p.y <= a.yMax
      {
        var j :| 0 <= j < |a.lower| && a.lower[j] == p;
      }
    }
  }

  /** Position `k` of `PairedYs` holds pair `k / 2`, lower on even `k` and
      upper on odd `k`. */
  lemma PairedYsAt(lower: seq<Point>, upper: seq<Point>, k: nat)
    requires |lower| == |upper|
    requires k < 2 * |lower|
    ensures k / 2 < |lower|
    ensures PairedYs(lower, upper)[k] == (if k % 2 == 0 then lower[k / 2].y else upper[k / 2].y)
  {
    var i := k / 2;
    if k % 2 == 0 {
      assert k == 2 * i;
    } else {
      assert k == 2 * i + 1;
    }
  }

  /** With finite values the y extrema of a non-empty valid area series are
      attained by some lower or upper value, and the x extrema by some x. */
  lemma ValidExtremaAttained(a: AreaSeries)
    requires Valid(a)
    requires Count(a) > 0
    requires forall i :: 0 <= i < Count(a) ==> FinitePoint(a.lower[i]) && FinitePoint(a.upper[i])
    ensures exists i :: 0 <= i < Count(a) && a.lower[i].x == a.xMin
    ensures exists i :: 0 <= i < Count(a) && a.lower[i].x == a.xMax
    ensures exists i :: 0 <= i < Count(a) && (a.lower[i].y == a.yMin || a.upper[i].y == a.yMin)
    ensures exists i :: 0 <= i < Count(a) && (a.lower[i].y == a.yMax || a.upper[i].y == a.yMax)
  {
    var xs, ys := Xs(a.lower), PairedYs(a.lower, a.upper);
    forall v | v in xs ensures Finite(v) {
      var i :| 0 <= i < |xs| && xs[i] == v;
    }
    forall v | v in ys ensures Finite(v) {
      var k :| 0 <= k < |ys| && ys[k] == v;
      PairedYsAt(a.lower, a.upper, k);
      assert FinitePoint(a.lower[k / 2]) && FinitePoint(a.upper[k / 2]);
    }
    MinFromSentinelIsMinimum(xs);
    MaxFromSentinelIsMaximum(xs);
    MinFromSentinelIsMinimum(ys);
    MaxFromSentinelIsMaximum(ys);
    var k :| 0 <= k < |ys| && ys[k] == a.yMin;
    PairedYsAt(a.lower, a.upper, k);
    var m :| 0 <= m < |ys| && ys[m] == a.yMax;
    PairedYsAt(a.lower, a.upper, m);
  }
}
