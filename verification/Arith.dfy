/** Division facts the solver does not find on its own. */
module Arith {

  lemma NoneBetween(d: int, span: int)
    requires span > 0
    ensures d != 0 ==> d * span >= span || d * span <= -span
  {
    if d > 0 {
      assert (d - 1) * span >= 0;
    } else if d < 0 {
      assert (-d - 1) * span >= 0;
    }
  }

  /** A quotient and a remainder in range are the quotient and the remainder. */
  lemma DivMod(i: int, q: int, r: int, span: int)
    requires 0 <= r < span && i == q * span + r
    ensures i / span == q && i % span == r
  {
    var d := i / span - q;
    assert r - i % span == d * span by {
      assert i == (i / span) * span + i % span;
      assert d * span == (i / span) * span - q * span;
    }
    NoneBetween(d, span);
  }

  lemma DivModIs(i: int, span: int)
    requires span > 0
    ensures i == (i / span) * span + i % span && 0 <= i % span < span
  {
  }

  lemma MulLe(a: int, b: int, n: int)
    requires a <= b && n >= 0
    ensures a * n <= b * n
  {
    assert (b - a) * n >= 0;
  }

  /** Dividing twice is dividing once by the product. */
  lemma DivDiv(n: int, a: int, b: int)
    requires n >= 0 && a > 0 && b > 0
    ensures a * b > 0 && n / a / b == n / (a * b)
  {
    var x := n / a;
    var q, r := x / b, x % b;
    DivModIs(n, a);
    DivModIs(x, b);
    var rest := r * a + n % a;
    assert n == q * (a * b) + rest by {
      assert n == (q * b + r) * a + n % a;
      assert (q * b + r) * a == q * b * a + r * a;
      assert q * b * a == q * (a * b);
    }
    MulLe(0, r, a);
    MulLe(r, b - 1, a);
    assert (b - 1) * a == a * b - a;
    assert 0 <= rest < a * b;
    DivMod(n, q, rest, a * b);
  }

  lemma Distributes(n: int, a: int, b: int)
    ensures n * (a + b) == n * a + n * b
  {
  }

  lemma Floor(n: int, burst: int, t: int, q: int)
    requires q > 0 && n * q <= burst * q + t
    ensures n <= burst + t / q
  {
    DivModIs(t, q);
    assert (t / q + burst - n) * q == t / q * q + burst * q - n * q;
    NoneBetween(t / q + burst - n, q);
  }
}
