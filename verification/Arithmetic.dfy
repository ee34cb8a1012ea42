/** Facts about products, quotients and order of real numbers, in the form the proofs use them. */
module Arithmetic {

  function Min(a: real, b: real): real { if b < a then b else a }
  function Max(a: real, b: real): real { if b > a then b else a }

  function Abs(v: real): real {
    if v < 0.0 then -v else v
  }

  lemma NegativeProduct(a: real, b: real)
    requires a < 0.0 && b > 0.0
    ensures a * b < 0.0
  {
  }

  lemma ProductNonNegative(a: real, b: real)
    requires a >= 0.0 && b >= 0.0
    ensures a * b >= 0.0
  {
  }

  lemma SquareNonNegative(a: real)
    ensures a * a >= 0.0
  {
  }

  lemma SquarePositive(b: real)
    requires b != 0.0
    ensures b * b > 0.0
  {
  }

  lemma SameSign(a: real, b: real)
    requires a * b > 0.0
    ensures (a > 0.0 && b > 0.0) || (a < 0.0 && b < 0.0)
  {
    if a > 0.0 && b < 0.0 {
      NegativeProduct(b, a);
    } else if a < 0.0 && b > 0.0 {
      NegativeProduct(a, b);
    }
  }

  lemma PositiveFactor(a: real, b: real)
    requires b > 0.0 && a * b >= 0.0
    ensures a >= 0.0
  {
    if a < 0.0 {
      NegativeProduct(a, b);
    }
  }

  lemma CancelFactor(a: real, b: real, c: real)
    requires c != 0.0 && a * c == b * c
    ensures a == b
  {
    assert (a - b) * c == 0.0;
  }

  lemma OrderByFactor(a: real, b: real, c: real)
    requires c > 0.0
    ensures a <= b <==> a * c <= b * c
  {
    Scale(a, b, c);
    Scale(b, a, c);
  }

  lemma Scale(a: real, b: real, c: real)
    requires c > 0.0
    ensures a < b ==> a * c < b * c
    ensures a == b ==> a * c == b * c
  {
    if a < b {
      assert (b - a) * c > 0.0;
    }
  }

  // ----- Quotients ---------------------------------------------------------

  lemma QuotientTimes(a: real, b: real)
    requires b != 0.0
    ensures a / b * b == a
  {
  }

  lemma UnitQuotient(h: real)
    requires h != 0.0
    ensures h / h == 1.0
  {
  }

  lemma PositiveQuotient(a: real, b: real)
    requires a > 0.0 && b > 0.0
    ensures a / b > 0.0
  {
    var c := a / b;
    assert c * b == a;
    PositiveFactor(c, b);
  }

  lemma NegatedQuotient(a: real, b: real)
    requires b != 0.0
    ensures a / -b == -(a / b)
  {
    assert (a / -b) * -b == a;
    assert -(a / b) * -b == a;
    CancelFactor(a / -b, -(a / b), -b);
  }

  lemma QuotientAsProduct(a: real, b: real)
    requires b != 0.0
    ensures a / b == a * (1.0 / b)
  {
    var u := 1.0 / b;
    assert u * b == 1.0;
    assert (a * u) * b == a * (u * b);
    CancelFactor(a / b, a * u, b);
  }

  lemma QuotientInverts(a: real, b: real)
    requires a > 0.0 && b > 0.0
    ensures a / b > 0.0 && 1.0 / (a / b) * a == b
  {
    PositiveQuotient(a, b);
    var m := a / b;
    var g := 1.0 / m;
    assert m * b == a && g * m == 1.0;
    assert g * (m * b) == (g * m) * b;
  }

  lemma ReciprocalOrder(a: real, b: real, a': real, b': real)
    requires a > 0.0 && b > 0.0 && a * a' == 1.0 && b * b' == 1.0
    ensures a' <= b' ==> b <= a
    ensures b' <= a' ==> a <= b
  {
    assert (b' - a') * (a * b) == a * (b * b') - b * (a * a') == a - b;
    assert a * b > 0.0;
    if a' <= b' { ProductNonNegative(b' - a', a * b); }
    if b' <= a' { ProductNonNegative(a' - b', a * b); }
  }
}
