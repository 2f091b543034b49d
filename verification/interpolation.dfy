/**
 * Piecewise-linear interpolation over a strictly increasing knot sequence.
 *
 * This is the curve the calculator builds with `Linear::builder()` and then
 * samples: between two neighbouring knots the value moves along the straight
 * line through the two neighbouring data points. Outside the knot range the
 * model extends the line through the first or the last two points; that is
 * the interpolation library's default extrapolation, which the library
 * itself, not part of this model, decides.
 */
module Interpolation {

  /** Each knot is strictly larger than the one before it. */
  predicate StrictlyIncreasing(xs: seq<real>) {
    forall i :: 0 <= i < |xs| - 1 ==> xs[i] < xs[i + 1]
  }

  /** Each value is strictly smaller than the one before it. */
  predicate StrictlyDecreasing(ys: seq<real>) {
    forall i :: 0 <= i < |ys| - 1 ==> ys[i] > ys[i + 1]
  }

  /** Each value is at most the one before it. */
  predicate NonIncreasing(ys: seq<real>) {
    forall i :: 0 <= i < |ys| - 1 ==> ys[i] >= ys[i + 1]
  }

  /**
   * The input the curve is defined for: as many elements as knots, at least
   * two of them, and knots in strictly increasing order. Which of these the
   * library's builder itself rejects is not part of this model.
   */
  predicate ValidCurve(xs: seq<real>, ys: seq<real>) {
    |xs| == |ys| && |xs| >= 2 && StrictlyIncreasing(xs)
  }

  /** `x` lies in the closed range spanned by the knots. */
  predicate InRange(xs: seq<real>, x: real)
    requires |xs| >= 1
  {
    xs[0] <= x <= xs[|xs| - 1]
  }

  /** Where `x` sits between `x0` and `x1`, as a fraction of the distance. */
  function Fraction(x0: real, x1: real, x: real): real
    requires x0 < x1
  {
    (x - x0) / (x1 - x0)
  }

  /** The straight line through (x0, y0) and (x1, y1), evaluated at x. */
  function Lerp(x0: real, x1: real, y0: real, y1: real, x: real): real
    requires x0 < x1
  {
    y0 + (y1 - y0) * (x - x0) / (x1 - x0)
  }

  /** Smallest of two reals. */
  function Min(a: real, b: real): real { if a <= b then a else b }

  /** Largest of two reals. */
  function Max(a: real, b: real): real { if a <= b then b else a }

  /**
   * `k` is the segment `[xs[k], xs[k+1]]` that holds `x`; a query at an
   * inner knot belongs to the segment that ends there.
   */
  predicate IsSegment(xs: seq<real>, x: real, k: int) {
    0 <= k < |xs| - 1 && xs[k] <= x <= xs[k + 1] && (k == 0 || xs[k] < x)
  }

  /**
   * The value of the piecewise-linear curve through (xs[i], ys[i]) at `x`:
   * on the segment holding `x` inside the knot range, and on the first or
   * the last segment's line, extended, below or above it (the library's
   * default extrapolation, assumed rather than modelled from its code).
   */
  function LinearAt(xs: seq<real>, ys: seq<real>, x: real): real
    requires ValidCurve(xs, ys)
  {
    if InRange(xs, x) then
      SegmentExists(xs, x, 0);
      SegmentUnique(xs, x);
      var k :| IsSegment(xs, x, k);
      Lerp(xs[k], xs[k + 1], ys[k], ys[k + 1], x)
    else if x < xs[0] then
      Lerp(xs[0], xs[1], ys[0], ys[1], x)
    else
      IncreasingPairwise(xs, |xs| - 2, |xs| - 1);
      Lerp(xs[|xs| - 2], xs[|xs| - 1], ys[|xs| - 2], ys[|xs| - 1], x)
  }

  /**
   * Samples the curve at every query point, in order: one output per query.
   */
  function Interpolate(xs: seq<real>, ys: seq<real>, outXs: seq<real>): (r: seq<real>)
    requires ValidCurve(xs, ys)
    ensures |r| == |outXs|
    ensures forall j :: 0 <= j < |outXs| ==> r[j] == LinearAt(xs, ys, outXs[j])
  {
    if outXs == [] then []
    else [LinearAt(xs, ys, outXs[0])] + Interpolate(xs, ys, outXs[1..])
  }

  // ---------------------------------------------------------------------
  // Facts about the knot order and the data order

  /** Rising at every step means rising overall. */
  lemma {:induction false} IncreasingPairwise(xs: seq<real>, i: nat, j: nat)
    requires StrictlyIncreasing(xs)
    requires i < j < |xs|
    ensures xs[i] < xs[j]
    decreases j - i
  {
    if i + 1 < j {
      IncreasingPairwise(xs, i + 1, j);
    }
  }

  /** Never rising at a step means never rising overall. */
  lemma {:induction false} NonIncreasingPairwise(ys: seq<real>, i: nat, j: nat)
    requires NonIncreasing(ys)
    requires i <= j < |ys|
    ensures ys[i] >= ys[j]
    decreases j - i
  {
    if i < j {
      NonIncreasingPairwise(ys, i + 1, j);
    }
  }

  // ---------------------------------------------------------------------
  // Facts about one linear piece

  lemma FractionBounds(x0: real, x1: real, x: real)
    requires x0 < x1 && x0 <= x <= x1
    ensures 0.0 <= Fraction(x0, x1, x) <= 1.0
  {
    var d := x1 - x0;
    assert (x - x0) / d <= d / d;
  }

  lemma FractionEnds(x0: real, x1: real)
    requires x0 < x1
    ensures Fraction(x0, x1, x0) == 0.0 && Fraction(x0, x1, x1) == 1.0
  {
    var d := x1 - x0;
    assert d / d == 1.0;
  }

  lemma MidpointFraction(x0: real, x1: real)
    requires x0 < x1
    ensures Fraction(x0, x1, (x0 + x1) / 2.0) == 0.5
  {
    var d := x1 - x0;
    assert (x0 + x1) / 2.0 - x0 == d / 2.0;
    assert (d / 2.0) / d == 0.5;
  }

  lemma FractionMonotone(x0: real, x1: real, a: real, b: real)
    requires x0 < x1 && a <= b
    ensures Fraction(x0, x1, a) <= Fraction(x0, x1, b)
  {
    var d := x1 - x0;
    var ta, tb := Fraction(x0, x1, a), Fraction(x0, x1, b);
    assert ta * d == a - x0 && tb * d == b - x0;
    if ta > tb {
      assert (ta - tb) * d > 0.0;
    }
  }

  lemma ScaleBetween(c: real, t: real)
    requires 0.0 <= t <= 1.0
    ensures Min(0.0, c) <= c * t <= Max(0.0, c)
  {
    if c >= 0.0 {
      assert c * t <= c * 1.0;
    } else {
      assert c * t >= c * 1.0;
    }
  }

  /** The line moves the given fraction of the way from y0 to y1. */
  lemma LerpByFraction(x0: real, x1: real, y0: real, y1: real, x: real)
    requires x0 < x1
    ensures Lerp(x0, x1, y0, y1, x) == y0 + (y1 - y0) * Fraction(x0, x1, x)
  {
    var d, p, c := x1 - x0, x - x0, y1 - y0;
    assert (p / d) * d == p;
    assert (c * p) / d * d == c * p;
    assert c * (p / d) * d == c * p;
  }

  /** A line passes through both of its defining points. */
  lemma LerpEnds(x0: real, x1: real, y0: real, y1: real)
    requires x0 < x1
    ensures Lerp(x0, x1, y0, y1, x0) == y0 && Lerp(x0, x1, y0, y1, x1) == y1
  {
    FractionEnds(x0, x1);
    LerpByFraction(x0, x1, y0, y1, x0);
    LerpByFraction(x0, x1, y0, y1, x1);
  }

  /** On its own segment a line stays between its two end values. */
  lemma LerpBetween(x0: real, x1: real, y0: real, y1: real, x: real)
    requires x0 < x1 && x0 <= x <= x1
    ensures Min(y0, y1) <= Lerp(x0, x1, y0, y1, x) <= Max(y0, y1)
  {
    FractionBounds(x0, x1, x);
    LerpByFraction(x0, x1, y0, y1, x);
    ScaleBetween(y1 - y0, Fraction(x0, x1, x));
  }

  /** A line whose end value is not above its start value does not rise. */
  lemma LerpNonIncreasing(x0: real, x1: real, y0: real, y1: real, a: real, b: real)
    requires x0 < x1 && a <= b && y1 <= y0
    ensures Lerp(x0, x1, y0, y1, a) >= Lerp(x0, x1, y0, y1, b)
  {
    var ta, tb := Fraction(x0, x1, a), Fraction(x0, x1, b);
    FractionMonotone(x0, x1, a, b);
    LerpByFraction(x0, x1, y0, y1, a);
    LerpByFraction(x0, x1, y0, y1, b);
    assert (y1 - y0) * (tb - ta) <= 0.0;
  }

  // ---------------------------------------------------------------------
  // Properties of the sampled curve

  /** Some segment at or after `from` holds `x`. */
  lemma {:induction false} SegmentExists(xs: seq<real>, x: real, from: nat)
    requires StrictlyIncreasing(xs) && from < |xs| - 1
    requires xs[from] <= x <= xs[|xs| - 1]
    requires from == 0 || xs[from] < x
    ensures exists k :: from <= k && IsSegment(xs, x, k)
    decreases |xs| - from
  {
    if x <= xs[from + 1] {
      assert IsSegment(xs, x, from);
    } else {
      SegmentExists(xs, x, from + 1);
    }
  }

  /** At most one segment holds `x`. */
  lemma SegmentUnique(xs: seq<real>, x: real)
    requires StrictlyIncreasing(xs)
    ensures forall k1, k2 :: IsSegment(xs, x, k1) && IsSegment(xs, x, k2) ==> k1 == k2
  {
    forall k1, k2 | IsSegment(xs, x, k1) && IsSegment(xs, x, k2)
      ensures k1 == k2
    {
      if k1 + 1 < k2 {
        IncreasingPairwise(xs, k1 + 1, k2);
      } else if k2 + 1 < k1 {
        IncreasingPairwise(xs, k2 + 1, k1);
      }
    }
  }

  /** The segment holding `x`, as LinearAt chooses it. */
  lemma LinearAtChoice(xs: seq<real>, ys: seq<real>, x: real) returns (k: int)
    requires ValidCurve(xs, ys) && InRange(xs, x)
    ensures IsSegment(xs, x, k)
    ensures LinearAt(xs, ys, x) == Lerp(xs[k], xs[k + 1], ys[k], ys[k + 1], x)
  {
    SegmentExists(xs, x, 0);
    SegmentUnique(xs, x);
    k :| IsSegment(xs, x, k);
  }

  /** Two neighbouring lines meet at the knot they share. */
  lemma LerpSharedKnot(x0: real, x1: real, x2: real, y0: real, y1: real, y2: real)
    requires x0 < x1 < x2
    ensures Lerp(x0, x1, y0, y1, x1) == y1 == Lerp(x1, x2, y1, y2, x1)
  {
    LerpEnds(x0, x1, y0, y1);
    LerpEnds(x1, x2, y1, y2);
  }

  /**
   * For every segment `[xs[i], xs[i+1]]` holding `x` the curve value is the
   * line over that segment; at a knot shared by two segments both lines agree.
   */
  lemma LinearAtOnSegment(xs: seq<real>, ys: seq<real>, i: nat, x: real)
    requires ValidCurve(xs, ys) && i < |xs| - 1
    requires xs[i] <= x <= xs[i + 1]
    ensures InRange(xs, x)
    ensures LinearAt(xs, ys, x) == Lerp(xs[i], xs[i + 1], ys[i], ys[i + 1], x)
  {
    if i > 0 { IncreasingPairwise(xs, 0, i); }
    if i + 1 < |xs| - 1 { IncreasingPairwise(xs, i + 1, |xs| - 1); }
    var k := LinearAtChoice(xs, ys, x);
    if k < i {
      // x <= xs[k+1] <= xs[i] <= x: x is the knot that ends segment k and starts segment i
      if k + 1 < i { IncreasingPairwise(xs, k + 1, i); }
      assert k + 1 == i && x == xs[i];
      LerpSharedKnot(xs[k], xs[i], xs[i + 1], ys[k], ys[i], ys[i + 1]);
    } else if k > i {
      // xs[i+1] <= xs[k] < x would put x outside segment i
      if i + 1 < k { IncreasingPairwise(xs, i + 1, k); }
      assert false;
    }
  }

  /** At a knot the curve takes exactly that knot's value. */
  lemma LinearAtKnot(xs: seq<real>, ys: seq<real>, j: nat)
    requires ValidCurve(xs, ys) && j < |xs|
    ensures InRange(xs, xs[j])
    ensures LinearAt(xs, ys, xs[j]) == ys[j]
  {
    var i := if j < |xs| - 1 then j else j - 1;
    LinearAtOnSegment(xs, ys, i, xs[j]);
    LerpEnds(xs[i], xs[i + 1], ys[i], ys[i + 1]);
  }

  /** Between two neighbouring knots the curve stays between their values. */
  lemma LinearAtBracketed(xs: seq<real>, ys: seq<real>, i: nat, x: real)
    requires ValidCurve(xs, ys) && i < |xs| - 1
    requires xs[i] <= x <= xs[i + 1]
    ensures InRange(xs, x)
    ensures Min(ys[i], ys[i + 1]) <= LinearAt(xs, ys, x) <= Max(ys[i], ys[i + 1])
  {
    LinearAtOnSegment(xs, ys, i, x);
    LerpBetween(xs[i], xs[i + 1], ys[i], ys[i + 1], x);
  }

  /** Halfway between two neighbouring knots the curve is the mean of their values. */
  lemma LinearAtMidpoint(xs: seq<real>, ys: seq<real>, i: nat)
    requires ValidCurve(xs, ys) && i < |xs| - 1
    ensures InRange(xs, (xs[i] + xs[i + 1]) / 2.0)
    ensures LinearAt(xs, ys, (xs[i] + xs[i + 1]) / 2.0) == (ys[i] + ys[i + 1]) / 2.0
  {
    var m := (xs[i] + xs[i + 1]) / 2.0;
    LinearAtOnSegment(xs, ys, i, m);
    MidpointFraction(xs[i], xs[i + 1]);
    LerpByFraction(xs[i], xs[i + 1], ys[i], ys[i + 1], m);
  }

  /** When every data value lies in [lo, hi], so does every curve value. */
  lemma LinearAtBounded(xs: seq<real>, ys: seq<real>, x: real, lo: real, hi: real)
    requires ValidCurve(xs, ys) && InRange(xs, x)
    requires forall j :: 0 <= j < |ys| ==> lo <= ys[j] <= hi
    ensures lo <= LinearAt(xs, ys, x) <= hi
  {
    var k := LinearAtChoice(xs, ys, x);
    LinearAtBracketed(xs, ys, k, x);
  }

  /** Non-increasing data give a non-increasing curve. */
  lemma LinearAtMonotone(xs: seq<real>, ys: seq<real>, a: real, b: real)
    requires ValidCurve(xs, ys) && NonIncreasing(ys)
    requires InRange(xs, a) && InRange(xs, b) && a <= b
    ensures LinearAt(xs, ys, a) >= LinearAt(xs, ys, b)
  {
    var ka := LinearAtChoice(xs, ys, a);
    var kb := LinearAtChoice(xs, ys, b);
    if kb < ka {
      // b <= xs[kb+1] <= xs[ka] <= a, so a == b sits on knot xs[ka] and ka is not its segment
      if kb + 1 < ka { IncreasingPairwise(xs, kb + 1, ka); }
      assert false;
    }
    if ka == kb {
      LerpNonIncreasing(xs[ka], xs[ka + 1], ys[ka], ys[ka + 1], a, b);
    } else {
      // a's segment ends no later than b's begins, and the data between fall
      LinearAtBracketed(xs, ys, ka, a);
      LinearAtBracketed(xs, ys, kb, b);
      NonIncreasingPairwise(ys, ka + 1, kb);
    }
  }

  /**
   * Up to the second knot, including everything below the knot range, the
   * curve is the line through the first two data points.
   */
  lemma LinearAtFirstLine(xs: seq<real>, ys: seq<real>, x: real)
    requires ValidCurve(xs, ys) && x <= xs[1]
    ensures LinearAt(xs, ys, x) == Lerp(xs[0], xs[1], ys[0], ys[1], x)
  {
    if xs[0] <= x {
      LinearAtOnSegment(xs, ys, 0, x);
    }
  }

  /**
   * From the second-last knot on, including everything above the knot range,
   * the curve is the line through the last two data points.
   */
  lemma LinearAtLastLine(xs: seq<real>, ys: seq<real>, x: real)
    requires ValidCurve(xs, ys) && xs[|xs| - 2] <= x
    ensures LinearAt(xs, ys, x) == Lerp(xs[|xs| - 2], xs[|xs| - 1], ys[|xs| - 2], ys[|xs| - 1], x)
  {
    if x <= xs[|xs| - 1] {
      LinearAtOnSegment(xs, ys, |xs| - 2, x);
    } else if |xs| > 2 {
      IncreasingPairwise(xs, 0, |xs| - 2);
    }
  }
}
