/** Machine casts, and facts about products and quotients that the solver needs by name. */
module Arithmetic {

  function Pow2(n: nat): (p: nat)
    ensures p >= 1
  {
    if n == 0 then 1 else 2 * Pow2(n - 1)
  }

  // A C cast from floating point to integer.
  function Trunc(x: real): int {
    if x >= 0.0 then x.Floor else -((-x).Floor)
  }

  // The remainder of C: it has the sign of the dividend.
  function Rem(a: int, b: int): int
    requires b > 0
  {
    if a >= 0 then a % b else -((-a) % b)
  }

  // Names a product, so that the solver keeps facts about it when both factors coincide.
  function Prod(a: real, b: real): real {
    a * b
  }

  function Sq(x: real): real {
    Prod(x, x)
  }

  lemma MulPositive(a: real, b: real)
    requires a > 0.0 && b > 0.0
    ensures Prod(a, b) > 0.0 && a * b > 0.0
  {
  }

  lemma MulNonNegative(a: real, b: real)
    requires a >= 0.0 && b >= 0.0
    ensures a * b >= 0.0
  {
  }

  lemma SquareZero(s: real)
    ensures Prod(s, s) >= 0.0 && (Prod(s, s) == 0.0 <==> s == 0.0)
  {
    if s > 0.0 {
      MulPositive(s, s);
    } else if s < 0.0 {
      MulPositive(-s, -s);
      assert Prod(-s, -s) == Prod(s, s);
    } else {
      assert Prod(s, s) == 0.0 * s;
    }
  }

  lemma SquareNonNegative(e: real)
    ensures Sq(e) >= 0.0 && (Sq(e) == 0.0 <==> e == 0.0)
  {
    SquareZero(e);
  }

  // If a * d is the positive p for a positive d, then a is positive.
  lemma Positive(a: real, d: real, p: real)
    requires d > 0.0 && p > 0.0 && a * d == p
    ensures a > 0.0
  {
  }

  lemma Quotient(a: real, d: real)
    requires d != 0.0
    ensures a / d * d == a
  {
  }

  lemma Cancel(a: real, b: real, w: real)
    requires w != 0.0 && a * w == b * w
    ensures a == b
  {
  }

  lemma ZeroFactor(h: real, k: real)
    requires h > 0.0 && k >= 0.0 && h * k <= 0.0
    ensures k == 0.0
  {
  }

  lemma Distribute(k: real, a: real, b: real)
    ensures k * (a + b) == k * a + k * b
  {
  }

  lemma ScaleLess(k: real, a: real, b: real)
    requires k > 0.0 && a <= b
    ensures k * a <= k * b
  {
  }

  lemma SmallMultiple(e: int, d: int)
    requires d >= 1 && -d < e * d < d
    ensures e == 0
  {
  }

  lemma Divides(n: int, q: int, m: int, d: int)
    requires d >= 1 && n == q * d + m && 0 <= m < d
    ensures n / d == q && n % d == m
  {
    var e := q - n / d;
    assert n == n / d * d + n % d;
    assert e * d == q * d - n / d * d;
    SmallMultiple(e, d);
  }

  // Enough steps of positive length cover any distance.
  lemma Enough(q: real, x: real) returns (n: nat)
    requires q >= 0.0 && x > 0.0
    ensures q <= (n as real) * x
  {
    var r := q / x;
    Quotient(q, x);
    n := r.Floor + 1;
    ScaleLess(x, r, n as real);
  }
}
