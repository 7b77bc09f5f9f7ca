/** Auto-scale tick selection: pick the preferred step that gives closest
    to eight intervals over the data range, then round the range outwards
    to whole multiples of that step. */
module TickScale {
  import opened Extrema
  import opened RealArith

  /** The fixed table of preferred steps, ascending. */
  const PreferredScaleSteps: seq<real> :=
    [0.01, 0.025, 0.05, 0.1, 0.25, 0.5, 1.0, 1.5, 2.0, 2.5, 5.0, 10.0, 20.0, 50.0, 100.0, 200.0, 500.0, 1000.0]

  /** The number of intervals the selection aims for. */
  const TargetTicks: real := 8.0

  /** The table has 18 positive entries. */
  lemma StepsPositive()
    ensures |PreferredScaleSteps| == 18
    ensures forall i :: 0 <= i < |PreferredScaleSteps| ==> PreferredScaleSteps[i] > 0.0
  {
  }

  /** The table is strictly ascending. */
  lemma StepsAscending()
    ensures forall i, j :: 0 <= i < j < |PreferredScaleSteps| ==> PreferredScaleSteps[i] < PreferredScaleSteps[j]
  {
  }

  /** The k-th preferred step. */
  function Step(k: nat): (s: real)
    requires k < |PreferredScaleSteps|
    ensures s > 0.0
  {
    StepsPositive();
    PreferredScaleSteps[k]
  }

  /** The table entry by entry. */
  lemma StepValues()
    ensures Step(0) == 0.01 && Step(1) == 0.025 && Step(2) == 0.05 && Step(3) == 0.1
    ensures Step(4) == 0.25 && Step(5) == 0.5 && Step(6) == 1.0 && Step(7) == 1.5
    ensures Step(8) == 2.0 && Step(9) == 2.5 && Step(10) == 5.0 && Step(11) == 10.0
    ensures Step(12) == 20.0 && Step(13) == 50.0 && Step(14) == 100.0 && Step(15) == 200.0
    ensures Step(16) == 500.0 && Step(17) == 1000.0
  {
    SmallStepValues();
    LargeStepValues();
  }

  lemma SmallStepValues()
    ensures Step(0) == 0.01 && Step(1) == 0.025 && Step(2) == 0.05 && Step(3) == 0.1
    ensures Step(4) == 0.25 && Step(5) == 0.5 && Step(6) == 1.0 && Step(7) == 1.5
    ensures Step(8) == 2.0
  {
  }

  lemma LargeStepValues()
    ensures Step(9) == 2.5 && Step(10) == 5.0 && Step(11) == 10.0
    ensures Step(12) == 20.0 && Step(13) == 50.0 && Step(14) == 100.0 && Step(15) == 200.0
    ensures Step(16) == 500.0 && Step(17) == 1000.0
  {
  }

  /** |range / step - 8| for the k-th step. */
  function Difference(range: real, k: nat): real
    requires k < |PreferredScaleSteps|
  {
    Abs(range / Step(k) - TargetTicks)
  }

  /** Step k is the first one with the smallest difference: every earlier
      step is strictly worse and no later step is better. */
  ghost predicate IsFirstArgmin(range: real, k: nat) {
    && k < |PreferredScaleSteps|
    && (forall j :: 0 <= j < k ==> Difference(range, j) > Difference(range, k))
    && (forall j :: k <= j < |PreferredScaleSteps| ==> Difference(range, j) >= Difference(range, k))
  }

  /** What a scan from index i, entered with best index `best` and
      difference `delta`, returns as r: the difference never grows; if it
      stayed at delta, nothing from i on was strictly better and the best
      index is unchanged; otherwise r is the first index from i on with the
      smallest difference. */
  ghost predicate Scanned(range: real, i: nat, best: nat, delta: real, r: (nat, real)) {
    && r.0 < |PreferredScaleSteps|
    && r.1 <= delta
    && (r.1 == delta ==>
          r.0 == best && forall j :: i <= j < |PreferredScaleSteps| ==> Difference(range, j) >= delta)
    && (r.1 < delta ==>
          && i <= r.0
          && r.1 == Difference(range, r.0)
          && (forall j :: i <= j < r.0 ==> Difference(range, j) > r.1)
          && (forall j :: r.0 <= j < |PreferredScaleSteps| ==> Difference(range, j) >= r.1))
  }

  /** Step i is strictly better than delta and becomes the new best. */
  lemma ScanTakes(range: real, i: nat, best: nat, delta: real, r: (nat, real))
    requires i < |PreferredScaleSteps|
    requires Difference(range, i) < delta
    requires Scanned(range, i + 1, i, Difference(range, i), r)
    ensures Scanned(range, i, best, delta, r)
  {
  }

  /** Step i is not strictly better than delta and is skipped. */
  lemma ScanSkips(range: real, i: nat, best: nat, delta: real, r: (nat, real))
    requires i < |PreferredScaleSteps| && best < |PreferredScaleSteps|
    requires Difference(range, i) >= delta
    requires Scanned(range, i + 1, best, delta, r)
    ensures Scanned(range, i, best, delta, r)
  {
  }

  /** The `foreach` over the table from index i, carrying the best index so
      far and its difference; a step replaces the best only when its
      difference is strictly smaller. */
  function ScanSteps(range: real, i: nat, best: nat, delta: real): (r: (nat, real))
    requires i <= |PreferredScaleSteps| && best < |PreferredScaleSteps|
    ensures Scanned(range, i, best, delta, r)
    decreases |PreferredScaleSteps| - i
  {
    if i == |PreferredScaleSteps| then (best, delta)
    else
      var d := Difference(range, i);
      if d < delta then
        var r := ScanSteps(range, i + 1, i, d);
        ScanTakes(range, i, best, delta, r);
        r
      else
        var r := ScanSteps(range, i + 1, best, delta);
        ScanSkips(range, i, best, delta, r);
        r
  }

  /** The index the selection settles on, starting from step 0 and
      difference `double.MaxValue`. */
  function BestStepIndex(range: real): (k: nat)
    ensures k < |PreferredScaleSteps|
    ensures (exists j :: 0 <= j < |PreferredScaleSteps| && Difference(range, j) < MaxS) ==> IsFirstArgmin(range, k)
    ensures (forall j :: 0 <= j < |PreferredScaleSteps| ==> Difference(range, j) >= MaxS) ==> k == 0
  {
    ScanSteps(range, 0, 0, MaxS).0
  }

  /** At most one index is the first argmin. */
  lemma FirstArgminUnique(range: real, k1: nat, k2: nat)
    requires IsFirstArgmin(range, k1) && IsFirstArgmin(range, k2)
    ensures k1 == k2
  {
    var d1, d2 := Difference(range, k1), Difference(range, k2);
    if k1 < k2 {
      assert false;
    } else if k2 < k1 {
      assert false;
    }
  }

  /** An axis range and tick. */
  datatype Scale = Scale(min: real, max: real, tick: real)

  /** v is a whole multiple of step. */
  predicate IsMultiple(v: real, step: real)
    requires step > 0.0
  {
    (v / step).Floor as real == v / step
  }

  /** `Math.Ceiling`, written as -floor(-v). */
  function Ceil(v: real): (c: int)
    ensures v <= c as real < v + 1.0
  {
    -((-v).Floor)
  }

  lemma ScaledDown(n: int, t: real)
    requires t > 0.0
    ensures IsMultiple(t * n as real, t)
  {
    QuotientOf(t * n as real, t, n as real);
  }

  /** t floor(v / t) <= v < t floor(v / t) + t. */
  lemma FloorBracket(v: real, t: real)
    requires t > 0.0
    ensures t * (v / t).Floor as real <= v < t * (v / t).Floor as real + t
  {
    var q := v / t;
    var f := q.Floor as real;
    assert f <= q < f + 1.0;
    TimesQuotient(v, t);
    MulLeft(f, q, t);
    assert t * q == v;
    assert t * f <= t * q;
    MulLeft(q, f + 1.0, t);
    assert t * q < t * (f + 1.0);
    assert t * (f + 1.0) == t * f + t;
    assert t * f <= v;
    assert v < t * f + t;
  }

  /** t ceil(v / t) - t < v <= t ceil(v / t). */
  lemma CeilBracket(v: real, t: real)
    requires t > 0.0
    ensures t * Ceil(v / t) as real - t < v <= t * Ceil(v / t) as real
  {
    var q := v / t;
    var c := Ceil(q) as real;
    assert c - 1.0 < q <= c;
    TimesQuotient(v, t);
    MulLeft(c - 1.0, q, t);
    MulLeft(q, c, t);
    assert t * (c - 1.0) == t * c - t;
  }

  /** t n, for n = floor(v / t), is the multiple of t at or below v and
      less than t below it. */
  lemma LowerBound(v: real, t: real, n: int)
    requires t > 0.0 && n == (v / t).Floor
    ensures t * n as real <= v < t * n as real + t
    ensures IsMultiple(t * n as real, t)
  {
    FloorBracket(v, t);
    ScaledDown(n, t);
  }

  /** t n, for n = ceil(v / t), is the multiple of t at or above v and
      less than t above it. */
  lemma UpperBound(v: real, t: real, n: int)
    requires t > 0.0 && n == Ceil(v / t)
    ensures t * n as real - t < v <= t * n as real
    ensures IsMultiple(t * n as real, t)
  {
    CeilBracket(v, t);
    ScaledDown(n, t);
  }

  /** Rounds the bounds outwards to multiples of the step: the result
      encloses [min, max] and each bound is less than a step away from the
      value it encloses. */
  function RoundOut(min: real, max: real, step: real): (s: Scale)
    requires step > 0.0
    ensures s.tick == step
    ensures s.min <= min < s.min + step
    ensures s.max - step < max <= s.max
    ensures IsMultiple(s.min, step) && IsMultiple(s.max, step)
  {
    var f, c := (min / step).Floor, Ceil(max / step);
    LowerBound(min, step, f);
    UpperBound(max, step, c);
    Scale(step * f as real, step * c as real, step)
  }

  /** `CalculateXTickScale` / `CalculateYTickScale` without the final
      `ReScale`: the chosen step and the rounded bounds for [min, max]. */
  function Select(min: real, max: real): (s: Scale)
    ensures s.tick in PreferredScaleSteps
    ensures s.tick == PreferredScaleSteps[BestStepIndex(max - min)]
    ensures s.min <= min < s.min + s.tick
    ensures s.max - s.tick < max <= s.max
    ensures s.tick > 0.0 && IsMultiple(s.min, s.tick) && IsMultiple(s.max, s.tick)
  {
    StepsPositive();
    RoundOut(min, max, PreferredScaleSteps[BestStepIndex(max - min)])
  }

  /** `AutoScaleY`'s widening of a flat range: when min == max == v the pair
      becomes (v - 0.05 v, v + 0.05 v), a span of 0.1 v centred on v, so it
      stays empty for v = 0 and comes out reversed for v < 0. */
  function WidenFlat(min: real, max: real): (r: (real, real))
    ensures min != max ==> r == (min, max)
    ensures min == max ==> r.1 - r.0 == 0.1 * min && r.0 + r.1 == 2.0 * min
  {
    if min == max then
      var temp := min;
      (min - 0.05 * temp, max + 0.05 * temp)
    else (min, max)
  }

  lemma WidenFlatSigns(v: real)
    ensures v > 0.0 ==> WidenFlat(v, v).0 < WidenFlat(v, v).1
    ensures v == 0.0 ==> WidenFlat(v, v) == (0.0, 0.0)
    ensures v < 0.0 ==> WidenFlat(v, v).0 > WidenFlat(v, v).1
  {
  }

  /** Over a range of 83 the scan improves on every step up to 10 (where
      83 / 10 - 8 = 0.3) and on none after it. */
  lemma BestStepFor83()
    ensures BestStepIndex(83.0) == 11 && PreferredScaleSteps[11] == 10.0
  {
    StepValues();
    assert ScanSteps(83.0, 0, 0, MaxS) == ScanSteps(83.0, 1, 0, 8292.0);
    assert ScanSteps(83.0, 1, 0, 8292.0) == ScanSteps(83.0, 2, 1, 3312.0);
    assert ScanSteps(83.0, 2, 1, 3312.0) == ScanSteps(83.0, 3, 2, 1652.0);
    assert ScanSteps(83.0, 3, 2, 1652.0) == ScanSteps(83.0, 4, 3, 822.0);
    assert ScanSteps(83.0, 4, 3, 822.0) == ScanSteps(83.0, 5, 4, 324.0);
    assert ScanSteps(83.0, 5, 4, 324.0) == ScanSteps(83.0, 6, 5, 158.0);
    assert ScanSteps(83.0, 6, 5, 158.0) == ScanSteps(83.0, 7, 6, 75.0);
    assert ScanSteps(83.0, 7, 6, 75.0) == ScanSteps(83.0, 8, 7, 83.0 / 1.5 - 8.0);
    assert ScanSteps(83.0, 8, 7, 83.0 / 1.5 - 8.0) == ScanSteps(83.0, 9, 8, 33.5);
    assert ScanSteps(83.0, 9, 8, 33.5) == ScanSteps(83.0, 10, 9, 25.2);
    assert ScanSteps(83.0, 10, 9, 25.2) == ScanSteps(83.0, 11, 10, 8.6);
    assert ScanSteps(83.0, 11, 10, 8.6) == ScanSteps(83.0, 12, 11, 0.3);
    assert ScanSteps(83.0, 12, 11, 0.3) == ScanSteps(83.0, 13, 11, 0.3);
    assert ScanSteps(83.0, 13, 11, 0.3) == ScanSteps(83.0, 14, 11, 0.3);
    assert ScanSteps(83.0, 14, 11, 0.3) == ScanSteps(83.0, 15, 11, 0.3);
    assert ScanSteps(83.0, 15, 11, 0.3) == ScanSteps(83.0, 16, 11, 0.3);
    assert ScanSteps(83.0, 16, 11, 0.3) == ScanSteps(83.0, 17, 11, 0.3);
    assert ScanSteps(83.0, 17, 11, 0.3) == ScanSteps(83.0, 18, 11, 0.3);
  }

  /** The range [0, 83] selects step 10, because 83 / 10 is nearest to 8,
      and rounds out to [0, 90]. */
  lemma SelectExample83()
    ensures Select(0.0, 83.0) == Scale(0.0, 90.0, 10.0)
  {
    BestStepFor83();
    assert (0.0 / 10.0).Floor == 0;
    assert Ceil(83.0 / 10.0) == 9;
  }

  /** A flat range at zero stays degenerate: every step is 8 away from the
      target, so the first step, 0.01, is kept and the bounds are [0, 0]. */
  lemma SelectFlatZero()
    ensures Select(0.0, 0.0) == Scale(0.0, 0.0, 0.01)
  {
    forall j | 0 <= j < |PreferredScaleSteps|
      ensures Difference(0.0, j) == 8.0
    {
      assert 0.0 / Step(j) == 0.0;
    }
    assert IsFirstArgmin(0.0, 0);
    FirstArgminUnique(0.0, BestStepIndex(0.0), 0);
    assert (0.0 / 0.01).Floor == 0 && Ceil(0.0 / 0.01) == 0;
  }
}
