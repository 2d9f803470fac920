/** Facts about integer multiplication and division that the solver does not find unaided. */
module Arith {
  lemma MulNonneg(x: int, y: int)
    requires x >= 0 && y >= 0
    ensures x * y >= 0
  {
  }

  lemma MulMono(x: int, y: int, m: int)
    requires m >= 0 && x <= y
    ensures x * m <= y * m
  {
    assert y * m - x * m == (y - x) * m;
    MulNonneg(y - x, m);
  }

  lemma MulAtLeast(p: int, d: int)
    requires p > 0 && d >= 1
    ensures p * d >= p
  {
    MulMono(1, d, p);
  }

  /** Quotient and remainder are unique. */
  lemma DivUnique(x: int, p: int, q: int, r: int)
    requires p > 0 && 0 <= r < p && x == p * q + r
    ensures x / p == q
  {
    var q', r' := x / p, x % p;
    assert p * (q' - q) == r - r';
    if q' > q {
      MulAtLeast(p, q' - q);
    } else if q' < q {
      MulAtLeast(p, q - q');
    }
  }

  /** Dividing a natural number by a positive one never makes it larger. */
  lemma DivBounds(a: int, b: int)
    requires a >= 0 && b >= 1
    ensures 0 <= a / b <= a
  {
    MulMono(1, b, a / b);
  }

  lemma MulDiv(a: int, m: int)
    requires m >= 1
    ensures (a * m) / m == a
  {
    DivUnique(a * m, m, a, 0);
  }

  /** Adding an even multiple of `p` leaves the parity of the quotient by `p` alone. */
  lemma QuotientParity(x: int, p: int, c: int)
    requires p > 0
    ensures ((x + 2 * p * c) / p) % 2 == (x / p) % 2
  {
    var q, r := x / p, x % p;
    assert x + 2 * p * c == p * (q + 2 * c) + r;
    DivUnique(x + 2 * p * c, p, q + 2 * c, r);
  }

  /** Dropping a low byte: `(low + 256 * h) / (256 * p) == h / p`. */
  lemma DropLowByte(low: int, h: int, p: int)
    requires 0 <= low < 256 && p > 0
    ensures (low + 256 * h) / (256 * p) == h / p
  {
    var q, r := h / p, h % p;
    assert low + 256 * h == (256 * p) * q + (256 * r + low);
    assert 256 * r + low < 256 * p;
    DivUnique(low + 256 * h, 256 * p, q, 256 * r + low);
  }
}
