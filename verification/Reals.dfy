/** Facts about exact reals that the solver is better given than asked. */
module Reals {

  lemma Scale(a: real, b: real, k: real)
    requires k > 0.0
    ensures a < b <==> a * k < b * k
    ensures a == b <==> a * k == b * k
  {
    assert b * k - a * k == (b - a) * k;
    if a < b { Positive(b - a, k); }
    if b < a { Positive(a - b, k); }
  }

  lemma ScaleTo(a: real, b: real, k: real, x: real, y: real)
    requires k > 0.0 && a * k == x && b * k == y
    ensures a < b <==> x < y
  {
    Scale(a, b, k);
  }

  lemma Positive(a: real, k: real)
    requires a > 0.0 && k > 0.0
    ensures a * k > 0.0
  {
  }

  lemma Quotient(x: real, y: real, q: real)
    requires y != 0.0 && x == q * y
    ensures x / y == q
  {
    assert (x / y - q) * y == 0.0;
  }

  lemma Swap(a: real, b: real, c: real)
    ensures a * b == b * a && (a * b) * c == a * (b * c)
  {
  }

  /** A product whose factors the solver is kept from multiplying out. */
  function Times(x: real, k: real): real {
    x * k
  }

  lemma TimesGrows(x: real, y: real, k: real)
    requires x <= y && k >= 0.0
    ensures Times(x, k) <= Times(y, k)
    ensures x >= 0.0 ==> Times(x, k) >= 0.0
  {
    assert (y - x) * k >= 0.0;
    assert x >= 0.0 ==> x * k >= 0.0;
  }

  lemma TimesFaster(x: real, k: real, l: real)
    requires x >= 0.0 && k <= l
    ensures Times(x, k) <= Times(x, l)
  {
    assert x * (l - k) >= 0.0;
  }

  lemma TimesSum(x: real, y: real, z: real, k: real)
    requires z == x + y
    ensures Times(z, k) == Times(x, k) + Times(y, k)
  {
  }
}
