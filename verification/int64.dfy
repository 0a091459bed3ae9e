/** Go `int64` arithmetic: two's-complement wrap-around for `+ - *` and
    unary minus, and division truncating toward zero. */
module Int64 {

  const MIN: int := -0x8000_0000_0000_0000
  const MAX: int := 0x7fff_ffff_ffff_ffff
  const MODULUS: int := 0x1_0000_0000_0000_0000

  type int64 = x: int | MIN <= x <= MAX

  function Abs(x: int): nat {
    if x < 0 then -x else x
  }

  /** Reduce an exact result into the int64 range, as the hardware does:
      the unique int64 congruent to `x` modulo 2^64. */
  function Wrap(x: int): (r: int64)
    ensures (x - r) % MODULUS == 0
    ensures MIN <= x <= MAX ==> r == x
  {
    var k := (x - MIN) / MODULUS;
    assert x - MIN == k * MODULUS + (x - MIN) % MODULUS;
    (x - MIN) % MODULUS + MIN
  }

  /** Go `a + b` on int64: exact when it fits, otherwise off by one modulus. */
  function Add(a: int64, b: int64): (r: int64)
    ensures MIN <= a + b <= MAX ==> r == a + b
    ensures a + b > MAX ==> r == a + b - MODULUS
    ensures a + b < MIN ==> r == a + b + MODULUS
  {
    Wrap(a + b)
  }

  /** Go `a - b` on int64. */
  function Sub(a: int64, b: int64): (r: int64)
    ensures MIN <= a - b <= MAX ==> r == a - b
    ensures a - b > MAX ==> r == a - b - MODULUS
    ensures a - b < MIN ==> r == a - b + MODULUS
  {
    Wrap(a - b)
  }

  /** Go `a * b` on int64: exact when it fits, congruent modulo 2^64 always. */
  function Mul(a: int64, b: int64): (r: int64)
    ensures MIN <= a * b <= MAX ==> r == a * b
    ensures (a * b - r) % MODULUS == 0
  {
    Wrap(a * b)
  }

  /** Go unary `-a` on int64: the negation, except that MIN stays MIN. */
  function Neg(a: int64): (r: int64)
    ensures a != MIN ==> r == -a
    ensures a == MIN ==> r == MIN
  {
    Wrap(-(a as int))
  }

  /** Integer division truncating toward zero (Go, C, Java), as opposed
      to Dafny's Euclidean `/`: the remainder is smaller than the divisor
      and has the dividend's sign. */
  function TruncDiv(a: int, b: int): (q: int)
    requires b != 0
    ensures Abs(a - q * b) < Abs(b)
    ensures a - q * b == 0 || (a - q * b < 0 <==> a < 0)
    ensures Abs(q) <= Abs(a)
  {
    var q := Abs(a) / Abs(b);
    var r := if (a < 0) == (b < 0) then q else -q;
    TruncDivRemainder(a, b, q, r);
    r
  }

  /** The quotient of naturals is at most the dividend. */
  lemma QuotientBound(n: nat, d: nat)
    requires d > 0
    ensures n / d <= n
  {
    var q := n / d;
    assert n == q * d + n % d;
    assert q * d == q + q * (d - 1);
    assert q * (d - 1) >= 0 by { NonNegProduct(q, d - 1); }
  }

  lemma NonNegProduct(x: nat, y: nat)
    ensures x * y >= 0
  {
  }

  lemma ProductSigns(x: int, y: int)
    ensures (-x) * y == -(x * y) && x * (-y) == -(x * y) && (-x) * (-y) == x * y
  {
  }

  /** The remainder left by the sign-adjusted quotient `r` of |a| / |b|. */
  lemma TruncDivRemainder(a: int, b: int, q: int, r: int)
    requires b != 0 && q == Abs(a) / Abs(b)
    requires r == if (a < 0) == (b < 0) then q else -q
    ensures a - r * b == (if a < 0 then -(Abs(a) % Abs(b)) else Abs(a) % Abs(b))
    ensures Abs(r) <= Abs(a)
  {
    var n, d := Abs(a), Abs(b);
    var p := q * d;
    assert n == p + n % d;
    QuotientBound(n, d);
    assert r * b == (if a < 0 then -p else p) by {
      ProductSigns(q, d);
      if b > 0 {
        assert b == d;
      } else {
        assert -b == d;
      }
    }
  }

  /** Go `a / b` on int64 with `b != 0`: truncating division, where the one
      overflowing case MIN / -1 wraps back to MIN. */
  function Div(a: int64, b: int64): (r: int64)
    requires b != 0
    ensures !(a == MIN && b == -1) ==> r == TruncDiv(a, b)
    ensures a == MIN && b == -1 ==> r == MIN
  {
    var q := TruncDiv(a, b);
    if a == MIN && b == -1 then
      assert q == -MIN;
      Wrap(q)
    else
      assert MIN <= q <= MAX;
      Wrap(q)
  }

  /** Truncating division is odd in its dividend and its divisor, which
      Euclidean division is not. */
  lemma TruncDivSymmetric(a: int, b: int)
    requires b != 0
    ensures TruncDiv(-a, b) == -TruncDiv(a, b)
    ensures TruncDiv(a, -b) == -TruncDiv(a, b)
  {
  }

  /** On a non-negative dividend and positive divisor the two divisions agree. */
  lemma TruncDivOfNaturals(a: int, b: int)
    requires a >= 0 && b > 0
    ensures TruncDiv(a, b) == a / b
  {
  }
}
