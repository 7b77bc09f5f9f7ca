/** The running-extremum arithmetic the chart uses on .NET doubles: the
    `double.MaxValue` / `double.MinValue` sentinels and `Math.Min` /
    `Math.Max` accumulators visited in order. Doubles are modelled as reals. */
module Extrema {

  /** `double.MaxValue`, the largest finite IEEE 754 binary64 value, 2^1024 - 2^971. */
  const MaxS: real := 179769313486231570814527423731704356798070567525844996598917476803157260780028538760589558632766878171540458953514382464234321326889464182768467546703537516986049910576551282076245490090389328944075868508455133942304583236903222948165808559332123348274797826204144723168738177180919299881250404026184124858368.0

  /** `double.MinValue`, the most negative finite binary64 value. */
  const MinS: real := -MaxS

  /** A value a finite double can hold. */
  predicate Finite(v: real) {
    MinS <= v <= MaxS
  }

  function Min(a: real, b: real): real {
    if a <= b then a else b
  }

  function Max(a: real, b: real): real {
    if a >= b then a else b
  }

  function Abs(a: real): real {
    if a < 0.0 then -a else a
  }

  /** The value of a `Math.Min` accumulator that starts at `init` and visits
      `xs` in order. */
  function MinFrom(init: real, xs: seq<real>): (r: real)
    ensures r <= init
    ensures forall v :: v in xs ==> r <= v
    ensures r == init || r in xs
    decreases |xs|
  {
    if |xs| == 0 then init
    else
      var prefix := xs[..|xs| - 1];
      assert xs == prefix + [xs[|xs| - 1]];
      Min(MinFrom(init, prefix), xs[|xs| - 1])
  }

  /** The value of a `Math.Max` accumulator that starts at `init` and visits
      `xs` in order. */
  function MaxFrom(init: real, xs: seq<real>): (r: real)
    ensures init <= r
    ensures forall v :: v in xs ==> v <= r
    ensures r == init || r in xs
    decreases |xs|
  {
    if |xs| == 0 then init
    else
      var prefix := xs[..|xs| - 1];
      assert xs == prefix + [xs[|xs| - 1]];
      Max(MaxFrom(init, prefix), xs[|xs| - 1])
  }

  /** Visiting one more value updates the accumulator by one `Math.Min`. */
  lemma MinFromSnoc(init: real, xs: seq<real>, v: real)
    ensures MinFrom(init, xs + [v]) == Min(MinFrom(init, xs), v)
  {
    assert (xs + [v])[..|xs|] == xs;
  }

  lemma MaxFromSnoc(init: real, xs: seq<real>, v: real)
    ensures MaxFrom(init, xs + [v]) == Max(MaxFrom(init, xs), v)
  {
    assert (xs + [v])[..|xs|] == xs;
  }

  /** Started from the sentinel, a running minimum over non-empty finite
      values is the true minimum: it is one of the values and below all. */
  lemma MinFromSentinelIsMinimum(xs: seq<real>)
    requires |xs| > 0
    requires forall v :: v in xs ==> Finite(v)
    ensures MinFrom(MaxS, xs) in xs
    ensures forall v :: v in xs ==> MinFrom(MaxS, xs) <= v
  {
    assert xs[0] in xs;
  }

  lemma MaxFromSentinelIsMaximum(xs: seq<real>)
    requires |xs| > 0
    requires forall v :: v in xs ==> Finite(v)
    ensures MaxFrom(MinS, xs) in xs
    ensures forall v :: v in xs ==> v <= MaxFrom(MinS, xs)
  {
    assert xs[0] in xs;
  }
}
