/**
 The monotone cubic interpolation behind the codec bench's BD-rate, over the real numbers:
 the slope rule of `pchip` and `_edge_slope`, the cubic Hermite they feed, and the shape the
 two keep together. Floating-point rounding is not modelled.
 */
module Interpolation {
  import opened Arithmetic

  /** Strictly increasing abscissae, which is what a division by every gap needs. */
  ghost predicate Increasing(x: seq<real>) {
    forall i, j :: 0 <= i < j < |x| ==> x[i] < x[j]
  }

  ghost predicate NonDecreasing(y: seq<real>) {
    forall i, j :: 0 <= i < j < |y| ==> y[i] <= y[j]
  }

  /** Data `pchip` can be given: at least two knots, one value for each. */
  ghost predicate Knots(x: seq<real>, y: seq<real>) {
    2 <= |x| == |y| && Increasing(x)
  }

  function Secant(x: seq<real>, y: seq<real>, k: nat): real
    requires Knots(x, y) && k + 1 < |x|
  {
    (y[k + 1] - y[k]) / (x[k + 1] - x[k])
  }

  function Sign(v: real): int {
    if v > 0.0 then 1 else if v < 0.0 then -1 else 0
  }

  /** The slope limit of Fritsch and Carlson: `m` lies between zero and three times `d`. */
  predicate Fits(m: real, d: real) {
    if d >= 0.0 then 0.0 <= m <= 3.0 * d else 3.0 * d <= m <= 0.0
  }

  // ----- Slopes ------------------------------------------------------------

  function EdgeSlope(h0: real, h1: real, d0: real, d1: real): (m: real)
    requires h0 > 0.0 && h1 > 0.0
    ensures Fits(m, d0)
  {
    var m := ((2.0 * h0 + h1) * d0 - h0 * d1) / (h0 + h1);
    EdgeLimit(h0, h1, d0, d1, m);
    if Sign(m) != Sign(d0) then 0.0
    else if Sign(d0) != Sign(d1) && Abs(m) > Abs(3.0 * d0) then 3.0 * d0
    else m
  }

  lemma EdgeLimit(h0: real, h1: real, d0: real, d1: real, m: real)
    requires h0 > 0.0 && h1 > 0.0
    requires m == ((2.0 * h0 + h1) * d0 - h0 * d1) / (h0 + h1)
    ensures Sign(d0) == Sign(d1) && Sign(m) == Sign(d0) ==> Fits(m, d0)
  {
    assert m * (h0 + h1) == (2.0 * h0 + h1) * d0 - h0 * d1;
    if d0 > 0.0 && d1 > 0.0 {
      EdgeBound(h0, h1, d0, d1, m);
    } else if d0 < 0.0 && d1 < 0.0 {
      assert -m * (h0 + h1) == (2.0 * h0 + h1) * -d0 - h0 * -d1;
      EdgeBound(h0, h1, -d0, -d1, -m);
    }
  }

  lemma EdgeBound(h0: real, h1: real, d0: real, d1: real, m: real)
    requires h0 > 0.0 && h1 > 0.0 && d0 > 0.0 && d1 > 0.0
    requires m * (h0 + h1) == (2.0 * h0 + h1) * d0 - h0 * d1
    ensures m <= 3.0 * d0
  {
    assert h0 * d1 > 0.0 && h0 * d0 > 0.0 && h1 * d0 > 0.0;
    assert (3.0 * d0 - m) * (h0 + h1) == h0 * d0 + 2.0 * (h1 * d0) + h0 * d1;
    PositiveFactor(3.0 * d0 - m, h0 + h1);
  }

  /** The weighted harmonic mean of two secants of one sign. */
  function HarmonicSlope(h0: real, h1: real, d0: real, d1: real): (m: real)
    requires h0 > 0.0 && h1 > 0.0 && d0 * d1 > 0.0
    ensures Fits(m, d0) && Fits(m, d1)
  {
    SameSign(d0, d1);
    var w1, w2 := 2.0 * h1 + h0, h1 + 2.0 * h0;
    HarmonicLimit(w1, w2, d0, d1);
    (w1 + w2) / (w1 / d0 + w2 / d1)
  }

  lemma HarmonicLimit(w1: real, w2: real, d0: real, d1: real)
    requires w1 > 0.0 && w2 > 0.0 && w2 <= 2.0 * w1 && w1 <= 2.0 * w2
    requires (d0 > 0.0 && d1 > 0.0) || (d0 < 0.0 && d1 < 0.0)
    ensures w1 / d0 + w2 / d1 != 0.0
    ensures Fits((w1 + w2) / (w1 / d0 + w2 / d1), d0)
    ensures Fits((w1 + w2) / (w1 / d0 + w2 / d1), d1)
  {
    if d0 > 0.0 {
      HarmonicPositive(w1, w2, d0, d1);
    } else {
      HarmonicPositive(w1, w2, -d0, -d1);
      NegatedQuotient(w1, d0);
      NegatedQuotient(w2, d1);
      var s := w1 / d0 + w2 / d1;
      assert w1 / -d0 + w2 / -d1 == -s;
      NegatedQuotient(w1 + w2, s);
    }
  }

  lemma HarmonicPositive(w1: real, w2: real, d0: real, d1: real)
    requires w1 > 0.0 && w2 > 0.0 && w2 <= 2.0 * w1 && w1 <= 2.0 * w2
    requires d0 > 0.0 && d1 > 0.0
    ensures w1 / d0 + w2 / d1 > 0.0
    ensures 0.0 <= (w1 + w2) / (w1 / d0 + w2 / d1) <= 3.0 * d0
    ensures (w1 + w2) / (w1 / d0 + w2 / d1) <= 3.0 * d1
  {
    var a, b := w1 / d0, w2 / d1;
    assert a * d0 == w1 && b * d1 == w2;
    PositiveQuotient(w1, d0);
    PositiveQuotient(w2, d1);
    PositiveQuotient(w1 + w2, a + b);
    var m := (w1 + w2) / (a + b);
    assert m * (a + b) == w1 + w2;
    assert (3.0 * d0 - m) * (a + b) == 3.0 * (a * d0) + 3.0 * (b * d0) - (w1 + w2);
    assert b * d0 > 0.0 && a * d1 > 0.0;
    PositiveFactor(3.0 * d0 - m, a + b);
    assert (3.0 * d1 - m) * (a + b) == 3.0 * (a * d1) + 3.0 * (b * d1) - (w1 + w2);
    PositiveFactor(3.0 * d1 - m, a + b);
  }

  /** No limit bites at an end whose slope is `m` and whose two secants, from the end in, are these. */
  predicate Unlimited(m: real, d0: real, d1: real) {
    Sign(m) == Sign(d0) && (Sign(d0) == Sign(d1) || Abs(m) <= Abs(3.0 * d0))
  }

  /**
   Whether or not a limit bites, the end slope is the value within the limit nearest the derivative
   a parabola through the three end knots has there.
   */
  lemma EdgeSlopeIsNearest(h0: real, h1: real, m: real, c: real, d0: real, d1: real, v: real)
    requires h0 > 0.0 && h1 > 0.0 && d0 == m + c * h0 && d1 == m + c * (2.0 * h0 + h1)
    requires Fits(v, d0)
    ensures Abs(EdgeSlope(h0, h1, d0, d1) - m) <= Abs(v - m)
  {
    var w := ((2.0 * h0 + h1) * d0 - h0 * d1) / (h0 + h1);
    assert (2.0 * h0 + h1) * d0 - h0 * d1 == m * (h0 + h1);
    CancelFactor(w, m, h0 + h1);
    EdgeLimit(h0, h1, d0, d1, w);
  }

  /**
   Where no limit bites, the end slope is the derivative a parabola through the three end
   knots has there: `m`, for a parabola whose secants are `m + c*h0` and `m + c*(2*h0 + h1)`.
   */
  lemma EdgeSlopeExactOnParabolas(h0: real, h1: real, m: real, c: real, d0: real, d1: real)
    requires h0 > 0.0 && h1 > 0.0 && d0 == m + c * h0 && d1 == m + c * (2.0 * h0 + h1)
    requires Unlimited(m, d0, d1)
    ensures EdgeSlope(h0, h1, d0, d1) == m
  {
    var v := ((2.0 * h0 + h1) * d0 - h0 * d1) / (h0 + h1);
    assert (2.0 * h0 + h1) * d0 - h0 * d1 == m * (h0 + h1);
    CancelFactor(v, m, h0 + h1);
  }

  lemma RisingFavoursNearer(h0: real, h1: real, d0: real, d1: real)
    requires h0 > 0.0 && h1 > 0.0 && d0 > 0.0 && d1 > 0.0 && h0 <= h1
    ensures d0 * d1 > 0.0 && Between(HarmonicSlope(h0, h1, d0, d1), d0, d1)
    ensures var m := HarmonicSlope(h0, h1, d0, d1);
            m > 0.0 && Abs(1.0 / m - 1.0 / d0) <= Abs(1.0 / m - 1.0 / d1)
  {
    assert d0 * d1 > 0.0;
    var w1, w2 := 2.0 * h1 + h0, h1 + 2.0 * h0;
    PositiveQuotient(1.0, d0);
    PositiveQuotient(1.0, d1);
    HarmonicReciprocal(w1, w2, d0, d1);
    var m := HarmonicSlope(h0, h1, d0, d1);
    assert m == (w1 + w2) / (w1 / d0 + w2 / d1);
    hide HarmonicSlope, Fits;
    NearerGap(m, d0, d1, w1, w2);
  }

  predicate Between(m: real, d0: real, d1: real) { d0 <= m <= d1 || d1 <= m <= d0 }

  lemma HarmonicMirrors(h0: real, h1: real, d0: real, d1: real)
    requires h0 > 0.0 && h1 > 0.0 && d0 * d1 > 0.0 && d1 * d0 > 0.0
    ensures HarmonicSlope(h0, h1, d0, d1) == HarmonicSlope(h1, h0, d1, d0)
  {
    SameSign(d0, d1);
    var w1, w2 := 2.0 * h1 + h0, h1 + 2.0 * h0;
    assert w1 / d0 + w2 / d1 == w2 / d1 + w1 / d0;
    assert 2.0 * h0 + h1 == w2 && h0 + 2.0 * h1 == w1;
  }

  lemma HarmonicNegates(h0: real, h1: real, d0: real, d1: real)
    requires h0 > 0.0 && h1 > 0.0 && d0 * d1 > 0.0 && -d0 * -d1 > 0.0
    ensures HarmonicSlope(h0, h1, -d0, -d1) == -HarmonicSlope(h0, h1, d0, d1)
  {
    SameSign(d0, d1);
    var w1, w2 := 2.0 * h1 + h0, h1 + 2.0 * h0;
    HarmonicLimit(w1, w2, d0, d1);
    NegatedQuotient(w1, d0);
    NegatedQuotient(w2, d1);
    var s := w1 / d0 + w2 / d1;
    assert w1 / -d0 + w2 / -d1 == -s;
    NegatedQuotient(w1 + w2, s);
  }

  /** The mean's weights, from the identities of its reciprocal: each gap is as long as the other's weight. */
  lemma GapsAreWeighted(g: real, u: real, v: real, w: real, w1: real, w2: real)
    requires w > 0.0 && w1 > 0.0 && w2 > 0.0
    requires (g - u) * w == w2 * (v - u) && (g - v) * w == w1 * (u - v)
    ensures Abs(g - u) * w1 == Abs(g - v) * w2
  {
    ReciprocalGapsOrdered(g, u, v, w, w1, w2);
    assert (g - u) * w1 * w == w1 * w2 * (v - u);
    assert (v - g) * w2 * w == w1 * w2 * (v - u);
    CancelFactor((g - u) * w1, (v - g) * w2, w);
  }

  lemma ReciprocalGapsOrdered(g: real, u: real, v: real, w: real, w1: real, w2: real)
    requires w > 0.0 && w1 > 0.0 && w2 > 0.0
    requires (g - u) * w == w2 * (v - u) && (g - v) * w == w1 * (u - v)
    ensures u <= g <= v || v <= g <= u
  {
    if u <= v {
      ProductNonNegative(w2, v - u);
      ProductNonNegative(w1, v - u);
      PositiveFactor(g - u, w);
      PositiveFactor(v - g, w);
    } else {
      ProductNonNegative(w2, u - v);
      ProductNonNegative(w1, u - v);
      PositiveFactor(u - g, w);
      PositiveFactor(g - v, w);
    }
  }

  lemma RisingGapsAreWeighted(h0: real, h1: real, d0: real, d1: real)
    requires h0 > 0.0 && h1 > 0.0 && d0 > 0.0 && d1 > 0.0
    ensures d0 * d1 > 0.0
    ensures var m := HarmonicSlope(h0, h1, d0, d1);
            m > 0.0 && Divides(m, h0, h1, d0, d1)
  {
    assert d0 * d1 > 0.0;
    var w1, w2 := 2.0 * h1 + h0, h1 + 2.0 * h0;
    HarmonicReciprocal(w1, w2, d0, d1);
    var m := HarmonicSlope(h0, h1, d0, d1);
    assert m == (w1 + w2) / (w1 / d0 + w2 / d1);
    hide HarmonicSlope, Fits;
    GapsAreWeighted(1.0 / m, 1.0 / d0, 1.0 / d1, w1 + w2, w1, w2);
  }

  /** How far the reciprocals of a slope and a secant are apart. */
  function ReciprocalGap(m: real, d: real): real
    requires m != 0.0 && d != 0.0
  {
    Abs(1.0 / m - 1.0 / d)
  }

  lemma GapOfNegated(m: real, d: real)
    requires m != 0.0 && d != 0.0
    ensures ReciprocalGap(-m, -d) == ReciprocalGap(m, d)
  {
    NegatedQuotient(1.0, m);
    NegatedQuotient(1.0, d);
  }

  /**
   The interior slope has the sign of its two secants and lies between them, and its reciprocal is
   nearer the reciprocal of the secant over the shorter gap, whichever that is.
   */
  lemma HarmonicSlopeFavoursNearer(h0: real, h1: real, d0: real, d1: real)
    requires h0 > 0.0 && h1 > 0.0 && d0 * d1 > 0.0
    ensures d0 != 0.0 && d1 != 0.0
    ensures var m := HarmonicSlope(h0, h1, d0, d1);
            && Sign(m) == Sign(d0) == Sign(d1) && m != 0.0 && Between(m, d0, d1)
            && (h0 <= h1 ==> ReciprocalGap(m, d0) <= ReciprocalGap(m, d1))
            && (h1 <= h0 ==> ReciprocalGap(m, d1) <= ReciprocalGap(m, d0))
  {
    SameSign(d0, d1);
    hide HarmonicSlope, Fits;
    if d0 > 0.0 {
      EitherGapNearer(h0, h1, d0, d1);
    } else {
      EitherGapNearer(h0, h1, -d0, -d1);
      HarmonicNegates(h0, h1, d0, d1);
      var m := HarmonicSlope(h0, h1, d0, d1);
      GapOfNegated(m, d0);
      GapOfNegated(m, d1);
      hide ReciprocalGap;
    }
  }

  /** A slope's reciprocal divides the distance between those of the secants as 2*h0 + h1 to h0 + 2*h1. */
  predicate Divides(m: real, h0: real, h1: real, d0: real, d1: real)
    requires m != 0.0 && d0 != 0.0 && d1 != 0.0
  {
    ReciprocalGap(m, d0) * (h0 + 2.0 * h1) == ReciprocalGap(m, d1) * (2.0 * h0 + h1)
  }

  lemma DividesNegated(m: real, h0: real, h1: real, d0: real, d1: real)
    requires m != 0.0 && d0 != 0.0 && d1 != 0.0 && Divides(-m, h0, h1, -d0, -d1)
    ensures Divides(m, h0, h1, d0, d1)
  {
    hide ReciprocalGap;
    GapOfNegated(m, d0);
    GapOfNegated(m, d1);
  }

  /** The weights of the mean: between the two secants only one value divides their distance so. */
  lemma HarmonicSlopeDivides(h0: real, h1: real, d0: real, d1: real)
    requires h0 > 0.0 && h1 > 0.0 && d0 * d1 > 0.0
    ensures d0 != 0.0 && d1 != 0.0
    ensures var m := HarmonicSlope(h0, h1, d0, d1);
            m != 0.0 && Between(m, d0, d1) && Divides(m, h0, h1, d0, d1)
  {
    HarmonicSlopeFavoursNearer(h0, h1, d0, d1);
    SameSign(d0, d1);
    hide HarmonicSlope, Fits, Divides, ReciprocalGap;
    if d0 > 0.0 {
      RisingGapsAreWeighted(h0, h1, d0, d1);
    } else {
      assert -d0 * -d1 == d0 * d1;
      RisingGapsAreWeighted(h0, h1, -d0, -d1);
      HarmonicNegates(h0, h1, d0, d1);
      DividesNegated(HarmonicSlope(h0, h1, d0, d1), h0, h1, d0, d1);
    }
  }

  lemma EitherGapNearer(h0: real, h1: real, d0: real, d1: real)
    requires h0 > 0.0 && h1 > 0.0 && d0 > 0.0 && d1 > 0.0
    ensures d0 * d1 > 0.0
    ensures var m := HarmonicSlope(h0, h1, d0, d1);
            && m > 0.0 && Between(m, d0, d1)
            && (h0 <= h1 ==> ReciprocalGap(m, d0) <= ReciprocalGap(m, d1))
            && (h1 <= h0 ==> ReciprocalGap(m, d1) <= ReciprocalGap(m, d0))
  {
    hide HarmonicSlope, Fits;
    if h0 <= h1 {
      RisingFavoursNearer(h0, h1, d0, d1);
    }
    if h1 <= h0 {
      RisingFavoursNearer(h1, h0, d1, d0);
      assert d0 * d1 == d1 * d0;
      HarmonicMirrors(h0, h1, d0, d1);
    }
  }

  lemma NearerGap(m: real, d0: real, d1: real, w1: real, w2: real)
    requires m > 0.0 && d0 > 0.0 && d1 > 0.0 && w1 >= w2 > 0.0
    requires (1.0 / m - 1.0 / d0) * (w1 + w2) == w2 * (1.0 / d1 - 1.0 / d0)
    requires (1.0 / m - 1.0 / d1) * (w1 + w2) == w1 * (1.0 / d0 - 1.0 / d1)
    ensures Abs(1.0 / m - 1.0 / d0) <= Abs(1.0 / m - 1.0 / d1)
    ensures d0 <= m <= d1 || d1 <= m <= d0
  {
    ReciprocalGaps(1.0 / m, 1.0 / d0, 1.0 / d1, w1 + w2, w1, w2);
    ReciprocalOrder(m, d0, 1.0 / m, 1.0 / d0);
    ReciprocalOrder(m, d1, 1.0 / m, 1.0 / d1);
  }

  lemma HarmonicReciprocal(w1: real, w2: real, d0: real, d1: real)
    requires w1 > 0.0 && w2 > 0.0 && d0 > 0.0 && d1 > 0.0
    ensures w1 / d0 + w2 / d1 > 0.0
    ensures var m := (w1 + w2) / (w1 / d0 + w2 / d1);
            m > 0.0
            && (1.0 / m - 1.0 / d0) * (w1 + w2) == w2 * (1.0 / d1 - 1.0 / d0)
            && (1.0 / m - 1.0 / d1) * (w1 + w2) == w1 * (1.0 / d0 - 1.0 / d1)
  {
    PositiveQuotient(w1, d0);
    PositiveQuotient(w2, d1);
    var a, b, w := w1 / d0, w2 / d1, w1 + w2;
    PositiveQuotient(w, a + b);
    QuotientAsProduct(w1, d0);
    QuotientAsProduct(w2, d1);
    var m := w / (a + b);
    QuotientInverts(w, a + b);
    ReciprocalAlgebra(1.0 / m, 1.0 / d0, 1.0 / d1, w1, w2);
  }

  lemma ReciprocalAlgebra(g: real, u: real, v: real, w1: real, w2: real)
    requires g * (w1 + w2) == w1 * u + w2 * v
    ensures (g - u) * (w1 + w2) == w2 * (v - u)
    ensures (g - v) * (w1 + w2) == w1 * (u - v)
  {
  }

  lemma ReciprocalGaps(g: real, u: real, v: real, w: real, w1: real, w2: real)
    requires w > 0.0 && w1 >= w2 > 0.0
    requires (g - u) * w == w2 * (v - u) && (g - v) * w == w1 * (u - v)
    ensures Abs(g - u) <= Abs(g - v)
    ensures u <= g <= v || v <= g <= u
  {
    if u <= v {
      ProductNonNegative(w2, v - u);
      ProductNonNegative(w1, v - u);
      ProductNonNegative(w1 - w2, v - u);
      PositiveFactor(g - u, w);
      PositiveFactor(v - g, w);
      PositiveFactor((v - g) - (g - u), w);
    } else {
      ProductNonNegative(w2, u - v);
      ProductNonNegative(w1, u - v);
      ProductNonNegative(w1 - w2, u - v);
      PositiveFactor(u - g, w);
      PositiveFactor(g - v, w);
      PositiveFactor((g - v) - (u - g), w);
    }
  }

  /** The slope `pchip` gives knot `k`. */
  function Slope(x: seq<real>, y: seq<real>, k: nat): real
    requires Knots(x, y) && k < |x|
  {
    var n := |x|;
    if n == 2 then Secant(x, y, 0)
    else if k == 0 then
      EdgeSlope(x[1] - x[0], x[2] - x[1], Secant(x, y, 0), Secant(x, y, 1))
    else if k == n - 1 then
      EdgeSlope(x[n - 1] - x[n - 2], x[n - 2] - x[n - 3], Secant(x, y, n - 2), Secant(x, y, n - 3))
    else if Secant(x, y, k - 1) * Secant(x, y, k) <= 0.0 then 0.0
    else HarmonicSlope(x[k] - x[k - 1], x[k + 1] - x[k], Secant(x, y, k - 1), Secant(x, y, k))
  }

  /** Every knot's slope is within the limit of each secant that meets there. */
  lemma SlopeFitsSecants(x: seq<real>, y: seq<real>, k: nat)
    requires Knots(x, y) && k < |x|
    ensures k + 1 < |x| ==> Fits(Slope(x, y, k), Secant(x, y, k))
    ensures k > 0 ==> Fits(Slope(x, y, k), Secant(x, y, k - 1))
  {
  }

  /** Values of the parabola `a + b*x + c*x*x` at the knots. */
  ghost predicate OnParabola(x: seq<real>, y: seq<real>, a: real, b: real, c: real)
    requires |x| == |y|
  {
    forall k :: 0 <= k < |x| ==> y[k] == a + b * x[k] + c * x[k] * x[k]
  }

  /** The secant of the parabola between two points. */
  function Chord(b: real, c: real, u: real, v: real): real { b + c * (u + v) }

  lemma ParabolaSecant(x: seq<real>, y: seq<real>, a: real, b: real, c: real, k: nat)
    requires Knots(x, y) && OnParabola(x, y, a, b, c) && k + 1 < |x|
    ensures Secant(x, y, k) == Chord(b, c, x[k], x[k + 1]) == Chord(b, c, x[k + 1], x[k])
  {
    var u, v := x[k], x[k + 1];
    assert y[k + 1] - y[k] == (b + c * (u + v)) * (v - u);
    CancelFactor(Secant(x, y, k), b + c * (u + v), v - u);
  }

  function Derivative(b: real, c: real, x: real): real { b + 2.0 * c * x }

  /** Knots on a parabola: where no limit bites, the slope at either end is its derivative there. */
  lemma EndSlopesAreDerivatives(x: seq<real>, y: seq<real>, a: real, b: real, c: real)
    requires Knots(x, y) && |x| > 2 && OnParabola(x, y, a, b, c)
    ensures Unlimited(Derivative(b, c, x[0]), Secant(x, y, 0), Secant(x, y, 1)) ==>
              Slope(x, y, 0) == Derivative(b, c, x[0])
    ensures var n := |x|;
            Unlimited(Derivative(b, c, x[n - 1]), Secant(x, y, n - 2), Secant(x, y, n - 3)) ==>
              Slope(x, y, n - 1) == Derivative(b, c, x[n - 1])
  {
    var n := |x|;
    ParabolaSecant(x, y, a, b, c, 0);
    ParabolaSecant(x, y, a, b, c, 1);
    ParabolaSecant(x, y, a, b, c, n - 2);
    ParabolaSecant(x, y, a, b, c, n - 3);
    SlopeCases(x, y, 0);
    SlopeCases(x, y, n - 1);
    assert x[0] < x[1] < x[2] && x[n - 3] < x[n - 2] < x[n - 1];
    hide *;
    if Unlimited(Derivative(b, c, x[0]), Secant(x, y, 0), Secant(x, y, 1)) {
      EndDerivative(x[0], x[1], x[2], b, c, x[1] - x[0], x[2] - x[1], Secant(x, y, 0), Secant(x, y, 1));
    }
    if Unlimited(Derivative(b, c, x[n - 1]), Secant(x, y, n - 2), Secant(x, y, n - 3)) {
      EndDerivative(x[n - 1], x[n - 2], x[n - 3], b, c, x[n - 1] - x[n - 2], x[n - 2] - x[n - 3],
                    Secant(x, y, n - 2), Secant(x, y, n - 3));
    }
  }

  lemma SlopeCases(x: seq<real>, y: seq<real>, k: nat)
    requires Knots(x, y) && k < |x|
    ensures var n := |x|;
            && (n == 2 ==> Slope(x, y, k) == Secant(x, y, 0))
            && (n > 2 && k == 0 ==>
                  Slope(x, y, k) == EdgeSlope(x[1] - x[0], x[2] - x[1], Secant(x, y, 0), Secant(x, y, 1)))
            && (n > 2 && k == n - 1 ==>
                  Slope(x, y, k) == EdgeSlope(x[n - 1] - x[n - 2], x[n - 2] - x[n - 3],
                                              Secant(x, y, n - 2), Secant(x, y, n - 3)))
            && (0 < k < n - 1 && Secant(x, y, k - 1) == 0.0 ==> Slope(x, y, k) == 0.0)
            && (0 < k < n - 1 && Secant(x, y, k - 1) * Secant(x, y, k) > 0.0 ==>
                  Slope(x, y, k) == HarmonicSlope(x[k] - x[k - 1], x[k + 1] - x[k],
                                                  Secant(x, y, k - 1), Secant(x, y, k)))
  {
  }

  /** Three knots from an end in, the gaps between them, and their secants. */
  lemma EndDerivative(u: real, v: real, w: real, b: real, c: real, h0: real, h1: real, d0: real, d1: real)
    requires h0 > 0.0 && h1 > 0.0 && ((h0 == v - u && h1 == w - v) || (h0 == u - v && h1 == v - w))
    requires d0 == Chord(b, c, u, v) && d1 == Chord(b, c, v, w)
    requires Unlimited(Derivative(b, c, u), d0, d1)
    ensures EdgeSlope(h0, h1, d0, d1) == Derivative(b, c, u)
  {
    hide EdgeSlope, Unlimited;
    var m := Derivative(b, c, u);
    if h0 == v - u {
      assert d0 == m + c * h0 && d1 == m + c * (2.0 * h0 + h1);
      EdgeSlopeExactOnParabolas(h0, h1, m, c, d0, d1);
    } else {
      assert d0 == m + -c * h0 && d1 == m + -c * (2.0 * h0 + h1);
      EdgeSlopeExactOnParabolas(h0, h1, m, -c, d0, d1);
    }
  }

  /** At an inner knot between secants of one sign the slope leans to the secant over the shorter gap. */
  lemma SlopeFavoursShorterGap(x: seq<real>, y: seq<real>, k: nat)
    requires Knots(x, y) && 0 < k < |x| - 1
    requires Secant(x, y, k - 1) * Secant(x, y, k) > 0.0
    ensures Secant(x, y, k - 1) != 0.0 && Secant(x, y, k) != 0.0
    ensures var m, d0, d1 := Slope(x, y, k), Secant(x, y, k - 1), Secant(x, y, k);
            && Sign(m) == Sign(d0) == Sign(d1) && m != 0.0 && Between(m, d0, d1)
            && (x[k] - x[k - 1] <= x[k + 1] - x[k] ==> ReciprocalGap(m, d0) <= ReciprocalGap(m, d1))
            && (x[k + 1] - x[k] <= x[k] - x[k - 1] ==> ReciprocalGap(m, d1) <= ReciprocalGap(m, d0))
  {
    SlopeCases(x, y, k);
    hide HarmonicSlope, Secant, Slope, ReciprocalGap, Between;
    HarmonicSlopeFavoursNearer(x[k] - x[k - 1], x[k + 1] - x[k], Secant(x, y, k - 1), Secant(x, y, k));
  }

  /** So at every inner knot whose secants agree in sign, the slope is the one value that divides them so. */
  lemma SlopeDividesSecants(x: seq<real>, y: seq<real>, k: nat)
    requires Knots(x, y) && 0 < k < |x| - 1
    requires Secant(x, y, k - 1) * Secant(x, y, k) > 0.0
    ensures Secant(x, y, k - 1) != 0.0 && Secant(x, y, k) != 0.0 && Slope(x, y, k) != 0.0
    ensures Between(Slope(x, y, k), Secant(x, y, k - 1), Secant(x, y, k))
    ensures Divides(Slope(x, y, k), x[k] - x[k - 1], x[k + 1] - x[k], Secant(x, y, k - 1), Secant(x, y, k))
  {
    SlopeCases(x, y, k);
    hide HarmonicSlope, Secant, Slope, ReciprocalGap, Between, Divides;
    HarmonicSlopeDivides(x[k] - x[k - 1], x[k + 1] - x[k], Secant(x, y, k - 1), Secant(x, y, k));
  }

  /** The loop that fills the slope array, from the flat start `np.full` gives it. */
  method Slopes(x: seq<real>, y: seq<real>) returns (m: array<real>)
    requires Knots(x, y)
    ensures fresh(m) && m[..] == seq(|x|, k requires 0 <= k < |x| => Slope(x, y, k))
  {
    hide Secant, EdgeSlope, HarmonicSlope;
    var n := |x|;
    var d := seq(n - 1, k requires 0 <= k < n - 1 => Secant(x, y, k));
    m := new real[n](_ => d[0]);
    if n > 2 {
      for k := 1 to n - 1
        invariant forall j :: 1 <= j < k ==> m[j] == Slope(x, y, j)
      {
        if d[k - 1] * d[k] <= 0.0 {
          m[k] := 0.0;
        } else {
          m[k] := HarmonicSlope(x[k] - x[k - 1], x[k + 1] - x[k], d[k - 1], d[k]);
        }
      }
      m[0] := EdgeSlope(x[1] - x[0], x[2] - x[1], d[0], d[1]);
      m[n - 1] := EdgeSlope(x[n - 1] - x[n - 2], x[n - 2] - x[n - 3], d[n - 2], d[n - 3]);
    }
  }

  // ----- The cubic ---------------------------------------------------------

  function Hermite(t: real, h: real, y0: real, y1: real, m0: real, m1: real): real {
    (2.0 * t * t * t - 3.0 * t * t + 1.0) * y0 + (t * t * t - 2.0 * t * t + t) * h * m0
    + (-2.0 * t * t * t + 3.0 * t * t) * y1 + (t * t * t - t * t) * h * m1
  }

  /** The three basis polynomials that move: the rise, and one for each end slope. */
  function Rise(t: real): real { 3.0 * t * t - 2.0 * t * t * t }
  function LeftBend(t: real): real { t * t * t - 2.0 * t * t + t }
  function RightBend(t: real): real { t * t * t - t * t }

  lemma HermiteSplit(t: real, h: real, y0: real, y1: real, m0: real, m1: real)
    ensures Hermite(t, h, y0, y1, m0, m1)
         == y0 + (y1 - y0) * Rise(t) + (h * m0) * LeftBend(t) + (h * m1) * RightBend(t)
  {
    var c, q := t * t * t, t * t;
    assert (2.0 * c - 3.0 * q + 1.0) * y0 == y0 - (3.0 * q - 2.0 * c) * y0;
    assert (c - 2.0 * q + t) * h * m0 == (h * m0) * (c - 2.0 * q + t);
    assert (c - q) * h * m1 == (h * m1) * (c - q);
    assert (y1 - y0) * (3.0 * q - 2.0 * c) == (3.0 * q - 2.0 * c) * y1 - (3.0 * q - 2.0 * c) * y0;
  }

  lemma CubeMonotone(a: real, b: real)
    requires a <= b
    ensures Cube(a) <= Cube(b)
  {
    assert b * b * b - a * a * a == (b - a) * (b * b + a * b + a * a);
    assert b * b + a * b + a * a == ((a + b) * (a + b) + a * a + b * b) / 2.0;
    SquareNonNegative(a + b);
    SquareNonNegative(a);
    SquareNonNegative(b);
    ProductNonNegative(b - a, b * b + a * b + a * a);
  }

  /**
   The four corners of the slope square: with both ratios at 0 or 3, the cubic is one of
   3t^2-2t^3, 1-(1-t)^3, t^3 and ((2t-1)^3+1)/2, and each of these climbs.
   */
  lemma CornersClimb(s: real, t: real)
    requires 0.0 <= s <= t <= 1.0
    ensures Rise(s) <= Rise(t)
    ensures Rise(s) + 3.0 * LeftBend(s) <= Rise(t) + 3.0 * LeftBend(t)
    ensures Rise(s) + 3.0 * RightBend(s) <= Rise(t) + 3.0 * RightBend(t)
    ensures Rise(s) + 3.0 * LeftBend(s) + 3.0 * RightBend(s)
         <= Rise(t) + 3.0 * LeftBend(t) + 3.0 * RightBend(t)
  {
    hide Rise, LeftBend, RightBend, Cube;
    RiseClimbs(s, t);
    LeftCorner(s);
    LeftCorner(t);
    CubeMonotone(1.0 - t, 1.0 - s);
    RightCorner(s);
    RightCorner(t);
    CubeMonotone(s, t);
    FarCorner(s);
    FarCorner(t);
    CubeMonotone(2.0 * s - 1.0, 2.0 * t - 1.0);
  }

  function Cube(a: real): real { a * a * a }

  lemma LeftCorner(t: real)
    ensures Rise(t) + 3.0 * LeftBend(t) == 1.0 - Cube(1.0 - t)
  {
  }

  lemma RightCorner(t: real)
    ensures Rise(t) + 3.0 * RightBend(t) == Cube(t)
  {
  }

  lemma FarCorner(t: real)
    ensures Rise(t) + 3.0 * LeftBend(t) + 3.0 * RightBend(t)
         == (Cube(2.0 * t - 1.0) + 1.0) / 2.0
  {
    CubeOfOdd(t);
  }

  lemma CubeOfOdd(t: real)
    ensures Cube(2.0 * t - 1.0) == 8.0 * (t * t * t) - 12.0 * (t * t) + 6.0 * t - 1.0
  {
    var u, square := 2.0 * t - 1.0, t * t;
    assert u * u == 4.0 * square - 4.0 * t + 1.0;
    assert u * u * u == u * u * (2.0 * t) - u * u;
    assert u * u * (2.0 * t) == 8.0 * (square * t) - 8.0 * square + 2.0 * t;
  }

  lemma RiseClimbs(s: real, t: real)
    requires 0.0 <= s <= t <= 1.0
    ensures Rise(s) <= Rise(t)
  {
    var f := 3.0 * (t + s) - 2.0 * (t * t + t * s + s * s);
    assert Rise(t) - Rise(s) == (t - s) * f;
    ProductNonNegative(t, 1.0 - t);
    ProductNonNegative(s, 1.0 - s);
    ProductNonNegative(t, 1.0 - s);
    ProductNonNegative(s, 1.0 - t);
    assert f == 2.0 * (t * (1.0 - t)) + 2.0 * (s * (1.0 - s)) + t * (1.0 - s) + s * (1.0 - t);
    ProductNonNegative(t - s, f);
  }

  /** A form affine in two ratios is nonnegative on the square when it is at the corners. */
  lemma CornersDecide(rise: real, left: real, right: real, a: real, b: real, c: real)
    requires rise >= 0.0 && 0.0 <= left <= 3.0 * rise && 0.0 <= right <= 3.0 * rise
    requires a >= 0.0 && a + 3.0 * b >= 0.0 && a + 3.0 * c >= 0.0 && a + 3.0 * b + 3.0 * c >= 0.0
    ensures rise * a + left * b + right * c >= 0.0
  {
    var b', c' := if b < 0.0 then b else 0.0, if c < 0.0 then c else 0.0;
    assert left * b >= 3.0 * rise * b' by {
      if b < 0.0 { ProductNonNegative(3.0 * rise - left, -b); } else { ProductNonNegative(left, b); }
    }
    assert right * c >= 3.0 * rise * c' by {
      if c < 0.0 { ProductNonNegative(3.0 * rise - right, -c); } else { ProductNonNegative(right, c); }
    }
    ProductNonNegative(rise, a + 3.0 * b' + 3.0 * c');
    assert rise * (a + 3.0 * b' + 3.0 * c') == rise * a + 3.0 * rise * b' + 3.0 * rise * c';
  }

  /** Slopes within the limit of a rising secant make the whole cubic rise. */
  lemma HermiteClimbs(s: real, t: real, h: real, d: real, y0: real, y1: real, m0: real, m1: real)
    requires 0.0 <= s <= t <= 1.0 && h > 0.0 && d >= 0.0 && y1 - y0 == h * d
    requires Fits(m0, d) && Fits(m1, d)
    ensures Hermite(s, h, y0, y1, m0, m1) <= Hermite(t, h, y0, y1, m0, m1)
  {
    hide Hermite, Rise, LeftBend, RightBend;
    HermiteSplit(s, h, y0, y1, m0, m1);
    HermiteSplit(t, h, y0, y1, m0, m1);
    CornersClimb(s, t);
    ScaledLimit(h, d, m0, y1 - y0);
    ScaledLimit(h, d, m1, y1 - y0);
    AffineClimbs(y0, y1 - y0, h * m0, h * m1,
                 Rise(s), LeftBend(s), RightBend(s), Rise(t), LeftBend(t), RightBend(t));
  }

  lemma ScaledLimit(h: real, d: real, m: real, rise: real)
    requires h > 0.0 && d >= 0.0 && Fits(m, d) && rise == h * d
    ensures 0.0 <= h * m <= 3.0 * rise
  {
    ProductNonNegative(h, m);
    ProductNonNegative(h, 3.0 * d - m);
    assert h * (3.0 * d - m) == 3.0 * rise - h * m;
  }

  lemma AffineClimbs(y0: real, rise: real, left: real, right: real,
                     a: real, b: real, c: real, a': real, b': real, c': real)
    requires 0.0 <= left <= 3.0 * rise && 0.0 <= right <= 3.0 * rise
    requires a <= a' && a + 3.0 * b <= a' + 3.0 * b' && a + 3.0 * c <= a' + 3.0 * c'
    requires a + 3.0 * b + 3.0 * c <= a' + 3.0 * b' + 3.0 * c'
    ensures y0 + rise * a + left * b + right * c <= y0 + rise * a' + left * b' + right * c'
  {
    CornersDecide(rise, left, right, a' - a, b' - b, c' - c);
    assert rise * (a' - a) == rise * a' - rise * a;
    assert left * (b' - b) == left * b' - left * b;
    assert right * (c' - c) == right * c' - right * c;
  }

  lemma HermiteNegates(t: real, h: real, y0: real, y1: real, m0: real, m1: real)
    ensures Hermite(t, h, -y0, -y1, -m0, -m1) == -Hermite(t, h, y0, y1, m0, m1)
  {
    HermiteSplit(t, h, y0, y1, m0, m1);
    HermiteSplit(t, h, -y0, -y1, -m0, -m1);
    var r, l, b := Rise(t), LeftBend(t), RightBend(t);
    assert (-y1 - -y0) * r == -((y1 - y0) * r);
    assert (h * -m0) * l == -((h * m0) * l);
    assert (h * -m1) * b == -((h * m1) * b);
  }

  // ----- The interpolant ---------------------------------------------------

  /** `np.searchsorted` from the left: how many knots lie strictly before `q`. */
  function SearchSorted(x: seq<real>, q: real): (r: nat)
    requires Increasing(x)
    ensures r <= |x|
    ensures forall i :: 0 <= i < r ==> x[i] < q
    ensures forall i :: r <= i < |x| ==> q <= x[i]
  {
    if |x| == 0 || x[|x| - 1] < q then |x| else SearchSorted(x[..|x| - 1], q)
  }

  function Segment(x: seq<real>, q: real): (i: nat)
    requires 2 <= |x| && Increasing(x)
    ensures i + 1 < |x|
  {
    var r := SearchSorted(x, q) - 1;
    if r < 0 then 0 else if r > |x| - 2 then |x| - 2 else r
  }

  /** The cubic of segment `i`, at `q`. */
  function Piece(x: seq<real>, y: seq<real>, i: nat, q: real): real
    requires Knots(x, y) && i + 1 < |x|
  {
    var h := x[i + 1] - x[i];
    Hermite((q - x[i]) / h, h, y[i], y[i + 1], Slope(x, y, i), Slope(x, y, i + 1))
  }

  /** What `pchip` answers at one abscissa, extrapolating with the end cubics outside the knots. */
  function At(x: seq<real>, y: seq<real>, q: real): real
    requires Knots(x, y)
  {
    Piece(x, y, Segment(x, q), q)
  }

  method Pchip(x: seq<real>, y: seq<real>, xs: seq<real>) returns (ys: seq<real>)
    requires Knots(x, y)
    ensures |ys| == |xs|
    ensures forall j :: 0 <= j < |xs| ==> ys[j] == At(x, y, xs[j])
  {
    var m := Slopes(x, y);
    ghost var slopes := m[..];
    ys := [];
    for j := 0 to |xs|
      invariant m[..] == slopes
      invariant |ys| == j
      invariant forall k :: 0 <= k < j ==> ys[k] == At(x, y, xs[k])
    {
      var i := Segment(x, xs[j]);
      var h := x[i + 1] - x[i];
      assert m[i] == slopes[i] && m[i + 1] == slopes[i + 1];
      ys := ys + [Hermite((xs[j] - x[i]) / h, h, y[i], y[i + 1], m[i], m[i + 1])];
    }
  }

  lemma PieceEnds(x: seq<real>, y: seq<real>, i: nat)
    requires Knots(x, y) && i + 1 < |x|
    ensures Piece(x, y, i, x[i]) == y[i] && Piece(x, y, i, x[i + 1]) == y[i + 1]
  {
    var h, m0, m1 := x[i + 1] - x[i], Slope(x, y, i), Slope(x, y, i + 1);
    assert (x[i] - x[i]) / h == 0.0;
    UnitQuotient(h);
    HermiteSplit(0.0, h, y[i], y[i + 1], m0, m1);
    HermiteSplit(1.0, h, y[i], y[i + 1], m0, m1);
  }

  /** Neighbouring cubics agree at their knot, so on each closed segment its own cubic answers. */
  lemma AtIsPiece(x: seq<real>, y: seq<real>, i: nat, q: real)
    requires Knots(x, y) && i + 1 < |x| && x[i] <= q <= x[i + 1]
    ensures At(x, y, q) == Piece(x, y, i, q)
  {
    var r := SearchSorted(x, q);
    if q == x[i] && i > 0 {
      assert x[i - 1] < x[i];
      assert r == i;
      PieceEnds(x, y, i - 1);
      PieceEnds(x, y, i);
    } else if q == x[i] {
      assert r == 0;
    } else {
      assert r == i + 1;
    }
  }

  /** Past the knots the end cubics go on. */
  lemma AtBeyondEnds(x: seq<real>, y: seq<real>, q: real)
    requires Knots(x, y)
    ensures q <= x[0] ==> At(x, y, q) == Piece(x, y, 0, q)
    ensures q >= x[|x| - 1] ==> At(x, y, q) == Piece(x, y, |x| - 2, q)
  {
    hide Piece;
    var r := SearchSorted(x, q);
    if q <= x[0] {
      assert r == 0;
    }
    if q >= x[|x| - 1] {
      assert x[|x| - 2] < q;
      assert r >= |x| - 1;
    }
  }

  /** The curve passes through every knot. */
  lemma PassesThroughKnots(x: seq<real>, y: seq<real>, k: nat)
    requires Knots(x, y) && k < |x|
    ensures At(x, y, x[k]) == y[k]
  {
    var i := if k == 0 then 0 else k - 1;
    assert x[i] <= x[k] <= x[i + 1];
    AtIsPiece(x, y, i, x[k]);
    PieceEnds(x, y, i);
  }

  lemma UnitInterval(x0: real, x1: real, p: real, q: real)
    requires x0 < x1 && x0 <= p <= q <= x1
    ensures 0.0 <= (p - x0) / (x1 - x0) <= (q - x0) / (x1 - x0) <= 1.0
  {
    var h := x1 - x0;
    var s, t := (p - x0) / h, (q - x0) / h;
    assert s * h == p - x0 && t * h == q - x0;
    PositiveFactor(s, h);
    assert (t - s) * h == q - p;
    PositiveFactor(t - s, h);
    assert (1.0 - t) * h == x1 - q;
    PositiveFactor(1.0 - t, h);
  }

  /** Between neighbouring knots the curve moves one way only: the way its two values do. */
  lemma MonotoneOnSegment(x: seq<real>, y: seq<real>, i: nat, p: real, q: real)
    requires Knots(x, y) && i + 1 < |x| && x[i] <= p <= q <= x[i + 1]
    ensures y[i] <= y[i + 1] ==> At(x, y, p) <= At(x, y, q)
    ensures y[i] >= y[i + 1] ==> At(x, y, p) >= At(x, y, q)
  {
    hide Hermite, Slope, At;
    AtIsPiece(x, y, i, p);
    AtIsPiece(x, y, i, q);
    UnitInterval(x[i], x[i + 1], p, q);
    SlopeFitsSecants(x, y, i);
    SlopeFitsSecants(x, y, i + 1);
    var h, d, m0, m1 := x[i + 1] - x[i], Secant(x, y, i), Slope(x, y, i), Slope(x, y, i + 1);
    var s, t := (p - x[i]) / h, (q - x[i]) / h;
    assert h * d == y[i + 1] - y[i];
    if y[i] <= y[i + 1] {
      PositiveFactor(d, h);
      HermiteClimbs(s, t, h, d, y[i], y[i + 1], m0, m1);
    }
    if y[i] >= y[i + 1] {
      PositiveFactor(-d, h);
      HermiteClimbs(s, t, h, -d, -y[i], -y[i + 1], -m0, -m1);
      HermiteNegates(s, h, y[i], y[i + 1], m0, m1);
      HermiteNegates(t, h, y[i], y[i + 1], m0, m1);
    }
  }

  /** So the curve never leaves the two values it runs between. */
  lemma NeverOvershoots(x: seq<real>, y: seq<real>, i: nat, q: real)
    requires Knots(x, y) && i + 1 < |x| && x[i] <= q <= x[i + 1]
    ensures y[i] <= At(x, y, q) <= y[i + 1] || y[i + 1] <= At(x, y, q) <= y[i]
  {
    MonotoneOnSegment(x, y, i, x[i], q);
    MonotoneOnSegment(x, y, i, q, x[i + 1]);
    PassesThroughKnots(x, y, i);
    PassesThroughKnots(x, y, i + 1);
  }

  lemma SegmentHolds(x: seq<real>, q: real)
    requires 2 <= |x| && Increasing(x) && x[0] <= q <= x[|x| - 1]
    ensures var i := Segment(x, q); x[i] <= q <= x[i + 1]
  {
  }

  /** Values that never fall give a curve that never falls, over the whole range of the knots. */
  lemma MonotoneData(x: seq<real>, y: seq<real>, p: real, q: real)
    requires Knots(x, y) && NonDecreasing(y) && x[0] <= p <= q <= x[|x| - 1]
    ensures At(x, y, p) <= At(x, y, q)
  {
    var i, j := Segment(x, p), Segment(x, q);
    SegmentHolds(x, p);
    SegmentHolds(x, q);
    if i == j {
      MonotoneOnSegment(x, y, i, p, q);
    } else {
      assert SearchSorted(x, p) <= SearchSorted(x, q);
      NeverOvershoots(x, y, i, p);
      NeverOvershoots(x, y, j, q);
      assert y[i + 1] <= y[j];
    }
  }

  // ----- One curve, smooth at its knots ------------------------------------

  /** What is left of a cubic once its value and slope at the left end are taken off, over t*t. */
  function Rest(t: real, r: real, a: real, b: real): real {
    r * (3.0 - 2.0 * t) + a * (t - 2.0) + b * (t - 1.0)
  }

  lemma BasisExpands(t: real, r: real, a: real, b: real)
    ensures r * Rise(t) + a * LeftBend(t) + b * RightBend(t) == a * t + t * t * Rest(t, r, a, b)
  {
    RiseFactors(t, r);
    LeftBendFactors(t, a);
    RightBendFactors(t, b);
    hide Rise, LeftBend, RightBend;
    Distributes(t * t, r * (3.0 - 2.0 * t), a * (t - 2.0), b * (t - 1.0));
  }

  lemma Distributes(q: real, u: real, v: real, w: real)
    ensures q * (u + v + w) == q * u + q * v + q * w
  {
  }

  lemma RiseFactors(t: real, r: real)
    ensures r * Rise(t) == t * t * (r * (3.0 - 2.0 * t))
  {
    assert Rise(t) == t * t * (3.0 - 2.0 * t);
  }

  lemma LeftBendFactors(t: real, a: real)
    ensures a * LeftBend(t) == a * t + t * t * (a * (t - 2.0))
  {
    assert LeftBend(t) == t + t * t * (t - 2.0);
  }

  lemma RightBendFactors(t: real, b: real)
    ensures b * RightBend(t) == t * t * (b * (t - 1.0))
  {
    assert RightBend(t) == t * t * (t - 1.0);
  }

  lemma ExpandsAtLeft(t: real, h: real, y0: real, y1: real, m0: real, m1: real)
    ensures Hermite(t, h, y0, y1, m0, m1) == y0 + h * m0 * t + t * t * Rest(t, y1 - y0, h * m0, h * m1)
  {
    hide Hermite, Rise, LeftBend, RightBend, Rest;
    HermiteSplit(t, h, y0, y1, m0, m1);
    BasisExpands(t, y1 - y0, h * m0, h * m1);
  }

  /** Read from the right, a cubic is one with its ends swapped and its slopes turned over. */
  lemma HermiteMirrors(t: real, h: real, y0: real, y1: real, m0: real, m1: real)
    ensures Hermite(t, h, y0, y1, m0, m1) == Hermite(1.0 - t, h, y1, y0, -m1, -m0)
  {
    BasisMirrors(t);
    hide Hermite, Rise, LeftBend, RightBend;
    HermiteSplit(t, h, y0, y1, m0, m1);
    HermiteSplit(1.0 - t, h, y1, y0, -m1, -m0);
    MirrorAlgebra(y0, y1, h, m0, m1, Rise(t), LeftBend(t), RightBend(t),
                  Rise(1.0 - t), LeftBend(1.0 - t), RightBend(1.0 - t));
  }

  lemma MirrorAlgebra(y0: real, y1: real, h: real, m0: real, m1: real,
                      a: real, b: real, c: real, a': real, b': real, c': real)
    requires a' == 1.0 - a && b' == -c && c' == -b
    ensures y0 + (y1 - y0) * a + (h * m0) * b + (h * m1) * c
         == y1 + (y0 - y1) * a' + (h * -m1) * b' + (h * -m0) * c'
  {
  }

  lemma BasisMirrors(t: real)
    ensures Rise(1.0 - t) == 1.0 - Rise(t)
    ensures LeftBend(1.0 - t) == -RightBend(t) && RightBend(1.0 - t) == -LeftBend(t)
  {
    var u := 1.0 - t;
    assert u * u == 1.0 - 2.0 * t + t * t;
    assert u * u * u == 1.0 - 3.0 * t + 3.0 * (t * t) - t * t * t;
  }

  lemma AbsProduct(r: real, c: real, k: real, product: real)
    requires Abs(c) <= k && product == r * c
    ensures Abs(product) <= k * Abs(r)
  {
    var s := Abs(r);
    ProductNonNegative(s, k - c);
    ProductNonNegative(s, k + c);
    assert s * (k - c) == k * s - s * c && s * (k + c) == k * s + s * c;
    assert r * c == s * c || r * c == -(s * c);
  }

  function Square(v: real): real { v * v }

  /** How far a cubic can bend away from a tangent over its segment. */
  function Swing(h: real, y0: real, y1: real, m0: real, m1: real): real {
    3.0 * Abs(y1 - y0) + 2.0 * Abs(h * m0) + 2.0 * Abs(h * m1)
  }

  lemma RestWithinSwing(t: real, h: real, y0: real, y1: real, m0: real, m1: real)
    requires 0.0 <= t <= 1.0
    ensures Abs(Rest(t, y1 - y0, h * m0, h * m1)) <= Swing(h, y0, y1, m0, m1)
  {
    hide Rest, Abs;
    RestParts(t, y1 - y0, h * m0, h * m1);
  }

  lemma RestParts(t: real, r: real, a: real, b: real)
    requires 0.0 <= t <= 1.0
    ensures Abs(Rest(t, r, a, b)) <= 3.0 * Abs(r) + 2.0 * Abs(a) + 2.0 * Abs(b)
  {
    var u, v, w := r * (3.0 - 2.0 * t), a * (t - 2.0), b * (t - 1.0);
    AbsProduct(r, 3.0 - 2.0 * t, 3.0, u);
    AbsProduct(a, t - 2.0, 2.0, v);
    AbsProduct(b, t - 1.0, 2.0, w);
    var rest := Rest(t, r, a, b);
    assert rest == u + v + w;
    hide Rest, Abs;
    PartsWithin(rest, u, v, w, 3.0 * Abs(r), 2.0 * Abs(a), 2.0 * Abs(b));
  }

  lemma PartsWithin(sum: real, u: real, v: real, w: real, a: real, b: real, c: real)
    requires sum == u + v + w && Abs(u) <= a && Abs(v) <= b && Abs(w) <= c
    ensures Abs(sum) <= a + b + c
  {
  }

  lemma Associates(b: real, h: real)
    ensures b * Square(h) == b * h * h
  {
  }

  /** The bound on a cubic's second-order part, in the units of the abscissa. */
  function BendOf(h: real, y0: real, y1: real, m0: real, m1: real): (bend: real)
    requires h > 0.0
    ensures bend * Square(h) == Swing(h, y0, y1, m0, m1)
  {
    var once := Swing(h, y0, y1, m0, m1) / h;
    QuotientTimes(Swing(h, y0, y1, m0, m1), h);
    QuotientTimes(once, h);
    Associates(once / h, h);
    once / h
  }

  /** A value is its straight line, up to a bound times the square of the offset. */
  predicate Near(v: real, line: real, bend: real, offset: real) { Abs(v - line) <= bend * Square(offset) }

  lemma ScaledRest(t: real, h: real, offset: real, rest: real, part: real, swing: real, bend: real)
    requires t * h == offset && Abs(rest) <= swing == bend * Square(h) && part == t * t * rest
    ensures Abs(part) <= bend * Square(offset)
  {
    var q := t * t;
    SquareNonNegative(t);
    AbsProduct(q, rest, swing, part);
    assert Square(offset) == q * (h * h);
    assert bend * (q * (h * h)) == (bend * (h * h)) * q;
  }

  lemma NearByPart(v: real, line: real, part: real, bend: real, offset: real)
    requires v == line + part && Abs(part) <= bend * Square(offset)
    ensures Near(v, line, bend, offset)
  {
  }

  /** Near its left end a cubic is its value there and its slope there, up to the square of the offset. */
  lemma SmoothAtLeft(t: real, h: real, offset: real, y0: real, y1: real, m0: real, m1: real, line: real, bend: real)
    requires 0.0 <= t <= 1.0 && t * h == offset && line == y0 + m0 * offset
    requires bend * Square(h) == Swing(h, y0, y1, m0, m1)
    ensures Near(Hermite(t, h, y0, y1, m0, m1), line, bend, offset)
  {
    hide Hermite, Rest, Swing, Near, Abs, Square;
    var rest := Rest(t, y1 - y0, h * m0, h * m1);
    var part := t * t * rest;
    ExpandsAtLeft(t, h, y0, y1, m0, m1);
    RestWithinSwing(t, h, y0, y1, m0, m1);
    ScaledRest(t, h, offset, rest, part, Swing(h, y0, y1, m0, m1), bend);
    Reorder(h, m0, t, offset);
    NearByPart(Hermite(t, h, y0, y1, m0, m1), line, part, bend, offset);
  }

  lemma Reorder(h: real, m: real, t: real, offset: real)
    requires t * h == offset
    ensures h * m * t == m * offset
  {
  }

  lemma SmoothAtRight(t: real, h: real, offset: real, y0: real, y1: real, m0: real, m1: real, line: real, bend: real)
    requires 0.0 <= t <= 1.0 && (1.0 - t) * h == -offset && line == y1 + m1 * offset
    requires bend * Square(h) == Swing(h, y0, y1, m0, m1)
    ensures Near(Hermite(t, h, y0, y1, m0, m1), line, bend, offset)
  {
    HermiteMirrors(t, h, y0, y1, m0, m1);
    SwingMirrors(y0, y1, h, m0, m1);
    hide Hermite, Swing, Near, Square;
    assert -m1 * -offset == m1 * offset;
    SmoothAtLeft(1.0 - t, h, -offset, y1, y0, -m1, -m0, line, bend);
    NearEitherWay(Hermite(t, h, y0, y1, m0, m1), line, bend, offset);
  }

  lemma SwingMirrors(y0: real, y1: real, h: real, m0: real, m1: real)
    ensures Swing(h, y1, y0, -m1, -m0) == Swing(h, y0, y1, m0, m1)
  {
    assert h * -m1 == -(h * m1) && h * -m0 == -(h * m0);
  }

  lemma NearEitherWay(v: real, line: real, bend: real, offset: real)
    requires Near(v, line, bend, -offset)
    ensures Near(v, line, bend, offset)
  {
    assert Square(-offset) == Square(offset);
  }

  lemma UnitPoint(x0: real, x1: real, q: real, h: real, t: real)
    requires x0 < x1 && x0 <= q <= x1 && h == x1 - x0 && t == (q - x0) / h
    ensures 0.0 <= t <= 1.0 && t * h == q - x0 && (1.0 - t) * h == -(q - x1)
  {
    UnitInterval(x0, x1, q, q);
    QuotientTimes(q - x0, h);
    assert (1.0 - t) * h == h - t * h;
  }

  lemma SmoothAtBoth(t: real, h: real, left: real, right: real, y0: real, y1: real, m0: real, m1: real,
                     line0: real, line1: real)
    requires 0.0 <= t <= 1.0 && h > 0.0 && t * h == left && (1.0 - t) * h == -right
    requires line0 == y0 + m0 * left && line1 == y1 + m1 * right
    ensures Near(Hermite(t, h, y0, y1, m0, m1), line0, BendOf(h, y0, y1, m0, m1), left)
    ensures Near(Hermite(t, h, y0, y1, m0, m1), line1, BendOf(h, y0, y1, m0, m1), right)
  {
    hide Hermite, Swing, Near, Square, BendOf;
    SmoothAtLeft(t, h, left, y0, y1, m0, m1, line0, BendOf(h, y0, y1, m0, m1));
    SmoothAtRight(t, h, right, y0, y1, m0, m1, line1, BendOf(h, y0, y1, m0, m1));
  }

  /** The tangent at knot `k`. */
  function Tangent(x: seq<real>, y: seq<real>, k: nat, q: real): real
    requires Knots(x, y) && k < |x|
  {
    y[k] + Slope(x, y, k) * (q - x[k])
  }

  lemma TangentIs(x: seq<real>, y: seq<real>, k: nat, q: real, offset: real)
    requires Knots(x, y) && k < |x| && offset == q - x[k]
    ensures Tangent(x, y, k, q) == y[k] + Slope(x, y, k) * offset
  {
    hide Slope;
  }

  function Bend(x: seq<real>, y: seq<real>, i: nat): real
    requires Knots(x, y) && i + 1 < |x|
  {
    BendOf(x[i + 1] - x[i], y[i], y[i + 1], Slope(x, y, i), Slope(x, y, i + 1))
  }

  lemma PieceIs(x: seq<real>, y: seq<real>, i: nat, q: real, h: real, t: real)
    requires Knots(x, y) && i + 1 < |x| && h == x[i + 1] - x[i] && h > 0.0 && t == (q - x[i]) / h
    ensures Piece(x, y, i, q) == Hermite(t, h, y[i], y[i + 1], Slope(x, y, i), Slope(x, y, i + 1))
    ensures Bend(x, y, i) == BendOf(h, y[i], y[i + 1], Slope(x, y, i), Slope(x, y, i + 1))
  {
    hide Slope, Hermite, BendOf;
  }

  /** A segment's cubic and the tangents at its knots, in terms of its width and the place in it. */
  lemma PieceAsCubic(x: seq<real>, y: seq<real>, i: nat, q: real)
    returns (h: real, t: real, left: real, right: real)
    requires Knots(x, y) && i + 1 < |x| && x[i] <= q <= x[i + 1]
    ensures left == q - x[i] && right == q - x[i + 1]
    ensures h > 0.0 && 0.0 <= t <= 1.0 && t * h == left && (1.0 - t) * h == -right
    ensures Piece(x, y, i, q) == Hermite(t, h, y[i], y[i + 1], Slope(x, y, i), Slope(x, y, i + 1))
    ensures Bend(x, y, i) == BendOf(h, y[i], y[i + 1], Slope(x, y, i), Slope(x, y, i + 1))
    ensures Tangent(x, y, i, q) == y[i] + Slope(x, y, i) * left
    ensures Tangent(x, y, i + 1, q) == y[i + 1] + Slope(x, y, i + 1) * right
  {
    hide Slope, Hermite, Bend, BendOf, Piece, Tangent;
    left, right, h := q - x[i], q - x[i + 1], x[i + 1] - x[i];
    t := (q - x[i]) / h;
    UnitPoint(x[i], x[i + 1], q, h, t);
    PieceIs(x, y, i, q, h, t);
    TangentIs(x, y, i, q, left);
    TangentIs(x, y, i + 1, q, right);
  }

  /** Beside either of its knots, a segment's cubic follows the tangent there. */
  lemma PieceIsSmooth(x: seq<real>, y: seq<real>, i: nat, q: real)
    requires Knots(x, y) && i + 1 < |x| && x[i] <= q <= x[i + 1]
    ensures Near(Piece(x, y, i, q), Tangent(x, y, i, q), Bend(x, y, i), q - x[i])
    ensures Near(Piece(x, y, i, q), Tangent(x, y, i + 1, q), Bend(x, y, i), q - x[i + 1])
  {
    hide Slope, Hermite, Bend, BendOf, Near, Tangent, Piece, Square, Swing;
    var h, t, left, right := PieceAsCubic(x, y, i, q);
    SmoothAtBoth(t, h, left, right, y[i], y[i + 1], Slope(x, y, i), Slope(x, y, i + 1),
                 Tangent(x, y, i, q), Tangent(x, y, i + 1, q));
  }

  lemma NearEnough(v: real, line: real, bend: real, wider: real, offset: real)
    requires Near(v, line, bend, offset) && bend <= wider
    ensures Near(v, line, wider, offset)
  {
    SquareNonNegative(offset);
    var q := Square(offset);
    ProductNonNegative(wider - bend, q);
    assert (wider - bend) * q == wider * q - bend * q;
  }

  /** Whether `q` lies on a segment that meets knot `k`. */
  predicate Beside(x: seq<real>, k: nat, q: real)
    requires k < |x|
  {
    (k + 1 < |x| && x[k] <= q <= x[k + 1]) || (k > 0 && x[k - 1] <= q <= x[k])
  }

  lemma NearBeside(x: seq<real>, y: seq<real>, k: nat, q: real, bend: real)
    requires Knots(x, y) && k < |x| && Beside(x, k, q)
    requires (k > 0 ==> Bend(x, y, k - 1) <= bend) && (k + 1 < |x| ==> Bend(x, y, k) <= bend)
    ensures Near(At(x, y, q), Tangent(x, y, k, q), bend, q - x[k])
  {
    hide At, Piece, Bend, Tangent, Near, Increasing;
    var i := if k + 1 < |x| && x[k] <= q <= x[k + 1] then k else k - 1;
    AtIsPiece(x, y, i, q);
    PieceIsSmooth(x, y, i, q);
    NearEnough(At(x, y, q), Tangent(x, y, k, q), Bend(x, y, i), bend, q - x[k]);
  }

  /**
   The pieces join without a corner: at every knot the curve has a derivative, that knot's slope,
   being off its tangent by at most a bound times the square of the distance, on either side.
   */
  lemma SmoothAtKnot(x: seq<real>, y: seq<real>, k: nat) returns (bend: real)
    requires Knots(x, y) && k < |x|
    ensures forall q :: Beside(x, k, q) ==> Near(At(x, y, q), Tangent(x, y, k, q), bend, q - x[k])
  {
    hide At, Bend, Tangent, Near, Beside;
    var left, right := if k > 0 then Bend(x, y, k - 1) else 0.0, if k + 1 < |x| then Bend(x, y, k) else 0.0;
    bend := Max(left, right);
    forall q | Beside(x, k, q)
      ensures Near(At(x, y, q), Tangent(x, y, k, q), bend, q - x[k])
    {
      NearBeside(x, y, k, q, bend);
    }
  }

  // ----- Lines -------------------------------------------------------------

  lemma SlopesOfLine(x: seq<real>, y: seq<real>, a: real, b: real, k: nat)
    requires Knots(x, y) && OnParabola(x, y, a, b, 0.0) && k < |x|
    ensures Slope(x, y, k) == b
  {
    var n := |x|;
    forall i | 0 <= i < n - 1
      ensures Secant(x, y, i) == b
    {
      ParabolaSecant(x, y, a, b, 0.0, i);
      assert Chord(b, 0.0, x[i], x[i + 1]) == b;
    }
    SlopeCases(x, y, k);
    hide OnParabola, Secant, EdgeSlope, HarmonicSlope, Fits, Slope;
    if n > 2 && k == 0 {
      EdgeOfEqual(x[1] - x[0], x[2] - x[1], b);
    } else if n > 2 && k == n - 1 {
      EdgeOfEqual(x[n - 1] - x[n - 2], x[n - 2] - x[n - 3], b);
    } else if n > 2 && b != 0.0 {
      SquarePositive(b);
      HarmonicOfEqual(x[k] - x[k - 1], x[k + 1] - x[k], b);
    }
  }

  lemma EdgeOfEqual(h0: real, h1: real, d: real)
    requires h0 > 0.0 && h1 > 0.0
    ensures EdgeSlope(h0, h1, d, d) == d
  {
    EdgeSlopeExactOnParabolas(h0, h1, d, 0.0, d, d);
  }

  lemma HarmonicOfEqual(h0: real, h1: real, d: real)
    requires h0 > 0.0 && h1 > 0.0 && d * d > 0.0
    ensures HarmonicSlope(h0, h1, d, d) == d
  {
    var w1, w2 := 2.0 * h1 + h0, h1 + 2.0 * h0;
    SameSign(d, d);
    HarmonicLimit(w1, w2, d, d);
    var q := w1 / d + w2 / d;
    assert w1 / d * d == w1 && w2 / d * d == w2;
    var m := (w1 + w2) / q;
    assert m * q == w1 + w2 == d * q;
    CancelFactor(m, d, q);
  }

  /** Data on a line give the line, everywhere: between the knots and past them. */
  lemma ReproducesLines(x: seq<real>, y: seq<real>, a: real, b: real, q: real)
    requires Knots(x, y) && OnParabola(x, y, a, b, 0.0)
    ensures At(x, y, q) == a + b * q
  {
    hide Slope, Hermite, Segment, OnParabola, At, Piece, Increasing;
    var i := Segment(x, q);
    LineValues(x, y, a, b, i);
    AtOnLine(x, y, a, b, q);
    var offset := q - x[i];
    GapPositive(x, i);
    var h := x[i + 1] - x[i];
    QuotientTimes(offset, h);
    HermiteOfLine(offset / h, h, y[i], y[i + 1], b, offset);
    LinePoint(a, b, x[i], y[i], q, offset);
  }

  lemma GapPositive(x: seq<real>, i: nat)
    requires Increasing(x) && i + 1 < |x|
    ensures x[i + 1] - x[i] > 0.0
  {
  }

  lemma AtOnLine(x: seq<real>, y: seq<real>, a: real, b: real, q: real)
    requires Knots(x, y) && OnParabola(x, y, a, b, 0.0)
    ensures var i := Segment(x, q);
            var h := x[i + 1] - x[i];
            h > 0.0 && At(x, y, q) == Hermite((q - x[i]) / h, h, y[i], y[i + 1], b, b)
  {
    hide Slope, Hermite, Segment, OnParabola;
    var i := Segment(x, q);
    SlopesOfLine(x, y, a, b, i);
    SlopesOfLine(x, y, a, b, i + 1);
  }

  lemma LineValues(x: seq<real>, y: seq<real>, a: real, b: real, i: nat)
    requires |x| == |y| && i + 1 < |x| && OnParabola(x, y, a, b, 0.0)
    ensures y[i] == a + b * x[i] && y[i + 1] - y[i] == (x[i + 1] - x[i]) * b
  {
    assert y[i + 1] == a + b * x[i + 1];
  }

  lemma LinePoint(a: real, b: real, u: real, y0: real, q: real, offset: real)
    requires offset == q - u && y0 == a + b * u
    ensures y0 + b * offset == a + b * q
  {
  }

  lemma HermiteOfLine(t: real, h: real, y0: real, y1: real, b: real, offset: real)
    requires y1 - y0 == h * b && offset == t * h
    ensures Hermite(t, h, y0, y1, b, b) == y0 + b * offset
  {
    HermiteSplit(t, h, y0, y1, b, b);
    var s := h * b;
    assert Rise(t) + LeftBend(t) + RightBend(t) == t;
    hide Hermite, Rise, LeftBend, RightBend;
    assert s * Rise(t) + s * LeftBend(t) + s * RightBend(t) == s * (Rise(t) + LeftBend(t) + RightBend(t));
  }

  // ----- Shifting the data -------------------------------------------------

  function Shifted(y: seq<real>, c: real): (r: seq<real>)
    ensures |r| == |y| && forall k :: 0 <= k < |y| ==> r[k] == y[k] + c
  {
    seq(|y|, k requires 0 <= k < |y| => y[k] + c)
  }

  lemma SlopesIgnoreShift(x: seq<real>, y: seq<real>, c: real)
    requires Knots(x, y)
    ensures forall k :: 0 <= k < |x| ==> Slope(x, Shifted(y, c), k) == Slope(x, y, k)
  {
    var z := Shifted(y, c);
    assert forall k :: 0 <= k < |x| - 1 ==> Secant(x, z, k) == Secant(x, y, k);
  }

  /** Raising every value by a constant raises the whole curve by it. */
  lemma ShiftsWithData(x: seq<real>, y: seq<real>, c: real, q: real)
    requires Knots(x, y)
    ensures At(x, Shifted(y, c), q) == At(x, y, q) + c
  {
    hide Slope, Hermite;
    SlopesIgnoreShift(x, y, c);
    var z, i := Shifted(y, c), Segment(x, q);
    var h := x[i + 1] - x[i];
    HermiteShifts((q - x[i]) / h, h, y[i], y[i + 1], Slope(x, y, i), Slope(x, y, i + 1), c);
  }

  lemma HermiteShifts(t: real, h: real, y0: real, y1: real, m0: real, m1: real, c: real)
    ensures Hermite(t, h, y0 + c, y1 + c, m0, m1) == Hermite(t, h, y0, y1, m0, m1) + c
  {
    hide Hermite, Rise, LeftBend, RightBend;
    HermiteSplit(t, h, y0, y1, m0, m1);
    HermiteSplit(t, h, y0 + c, y1 + c, m0, m1);
    assert (y1 + c) - (y0 + c) == y1 - y0;
  }
}
