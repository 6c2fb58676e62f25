/**
 * Exact decimal numbers, standing for the arbitrary-precision `decimal.Big`
 * values the charging core computes with. A `Decimal(coef, scale)` is
 * coef × 10^(-scale), so `Decimal(13, 1)` is 1.3, written `decimal.New(13, 1)`
 * in the source. One value has many representations (1.3 and 1.30), so value
 * comparisons go through `Eq`, `Le` and `Lt`, which align the scales.
 */
module Decimals {

  datatype Decimal = Decimal(coef: int, scale: nat)

  const Zero := Decimal(0, 0)

  function FromInt(n: int): Decimal {
    Decimal(n, 0)
  }

  function Pow10(n: nat): (p: nat)
    ensures p >= 1
  {
    if n == 0 then 1 else 10 * Pow10(n - 1)
  }

  lemma {:induction false} Pow10Add(a: nat, b: nat)
    ensures Pow10(a + b) == Pow10(a) * Pow10(b)
  {
    if a > 0 {
      Pow10Add(a - 1, b);
      assert Pow10(a + b) == 10 * Pow10(a - 1 + b);
    }
  }

  /** x and y denote the same number. */
  predicate Eq(x: Decimal, y: Decimal) {
    x.coef * Pow10(y.scale) == y.coef * Pow10(x.scale)
  }

  predicate Le(x: Decimal, y: Decimal) {
    x.coef * Pow10(y.scale) <= y.coef * Pow10(x.scale)
  }

  predicate Lt(x: Decimal, y: Decimal) {
    x.coef * Pow10(y.scale) < y.coef * Pow10(x.scale)
  }

  function Mul(x: Decimal, y: Decimal): Decimal {
    Decimal(x.coef * y.coef, x.scale + y.scale)
  }

  function Sub(x: Decimal, y: Decimal): Decimal {
    Decimal(x.coef * Pow10(y.scale) - y.coef * Pow10(x.scale), x.scale + y.scale)
  }

  function Abs(x: Decimal): Decimal {
    Decimal(IntAbs(x.coef), x.scale)
  }

  /** x is zero or has the sign of y. */
  predicate SameSignOrZero(x: Decimal, y: Decimal) {
    x.coef == 0 || (x.coef < 0) == (y.coef < 0)
  }

  // ---------------------------------------------------------------------
  // Integer division rounded toward zero (decimal.ToZero), which differs
  // from Dafny's Euclidean `/` on negative operands.
  // ---------------------------------------------------------------------

  function IntAbs(n: int): nat {
    if n < 0 then -n else n
  }

  function TruncDiv(n: int, d: int): int
    requires d != 0
  {
    var q := IntAbs(n) / IntAbs(d);
    if (n < 0) == (d < 0) then q else -q
  }

  lemma MulNonneg(a: int, b: int)
    requires a >= 0 && b >= 0
    ensures a * b >= 0
  {
  }

  lemma MulAbs(a: int, b: int)
    ensures IntAbs(a * b) == IntAbs(a) * IntAbs(b)
  {
    if a < 0 && b < 0 {
      assert a * b == (-a) * (-b);
    } else if a < 0 {
      assert a * b == -((-a) * b);
      MulNonneg(-a, b);
    } else if b < 0 {
      assert a * b == -(a * (-b));
      MulNonneg(a, -b);
    } else {
      MulNonneg(a, b);
    }
  }

  /** Euclidean division of naturals has a unique quotient. */
  lemma DivUnique(a: nat, b: nat, m: nat, r: nat)
    requires b > 0 && r < b && a == m * b + r
    ensures m == a / b && r == a % b
  {
    var m0, r0 := a / b, a % b;
    assert a == m0 * b + r0;
    if m > m0 {
      MulMono(m, m0 + 1, b);
    } else if m < m0 {
      MulMono(m0, m + 1, b);
    }
  }

  lemma MulMono(x: int, y: int, b: nat)
    requires x >= y
    ensures x * b >= y * b
  {
    assert x * b - y * b == (x - y) * b;
    MulNonneg(x - y, b);
  }

  /**
   * `TruncDiv(n, d)` is the quotient truncated toward zero: its multiple of d
   * lies between 0 and n inclusive and falls short of n by less than |d|.
   */
  lemma TruncDivIsTruncation(n: int, d: int)
    requires d != 0
    ensures var p := TruncDiv(n, d) * d;
      IntAbs(p) <= IntAbs(n) && IntAbs(n - p) < IntAbs(d) && (p == 0 || (p < 0) == (n < 0))
  {
    var a: nat, b: nat := IntAbs(n), IntAbs(d);
    DivMod(a, b);
    TruncProduct(n, d, a / b, a % b);
  }

  lemma DivMod(a: nat, b: nat)
    requires b > 0
    ensures a == (a / b) * b + a % b && 0 <= a % b < b
  {
  }

  /** The product q·d of the truncated quotient, given |n| = m·|d| + r. */
  lemma TruncProduct(n: int, d: int, m: int, r: int)
    requires d != 0 && 0 <= m && 0 <= r < IntAbs(d) && IntAbs(n) == m * IntAbs(d) + r
    requires m == IntAbs(n) / IntAbs(d)
    ensures var p := TruncDiv(n, d) * d;
      IntAbs(p) <= IntAbs(n) && IntAbs(n - p) < IntAbs(d) && (p == 0 || (p < 0) == (n < 0))
  {
    var b: int := IntAbs(d);
    var whole := m * b;
    MulNonneg(m, b);
    NegMul(m, b);
    var q := TruncDiv(n, d);
    var p := q * d;
    if n >= 0 && d > 0 {
      assert q == m && d == b;
      assert p == whole;
    } else if n >= 0 {
      assert q == -m && d == -b;
      assert p == whole;
    } else if d > 0 {
      assert q == -m && d == b;
      assert p == -whole;
    } else {
      assert q == m && d == -b;
      assert p == -whole;
    }
  }

  lemma NegMul(x: int, y: int)
    ensures (-x) * (-y) == x * y && (-x) * y == -(x * y) && x * (-y) == -(x * y)
  {
  }

  /** The truncated quotient is the only integer with the properties above. */
  lemma TruncDivUnique(n: int, d: int, k: int)
    requires d != 0
    requires IntAbs(k * d) <= IntAbs(n) && IntAbs(n - k * d) < IntAbs(d)
    requires k * d == 0 || (k * d < 0) == (n < 0)
    ensures k == TruncDiv(n, d)
  {
    var a, b := IntAbs(n), IntAbs(d);
    MulAbs(k, d);
    var p := k * d;
    assert IntAbs(p) == IntAbs(k) * b;
    // n and p lie on the same side of zero, so |n| = |k|·|d| + |n - p|
    assert a == IntAbs(k) * b + IntAbs(n - p);
    DivUnique(a, b, IntAbs(k), IntAbs(n - p));
    if k != 0 {
      assert p != 0 by { MulMono(IntAbs(k), 1, b); }
      if k < 0 && d < 0 {
        assert p == (-k) * (-d);
        MulNonneg(-k, -d);
      } else if k < 0 {
        assert p == -((-k) * d);
        MulNonneg(-k, d);
      } else if d < 0 {
        assert p == -(k * (-d));
        MulNonneg(k, -d);
      } else {
        MulNonneg(k, d);
      }
    }
  }

  lemma MulNonzero(a: int, b: int)
    requires a != 0 && b != 0
    ensures a * b != 0
  {
    MulAbs(a, b);
    MulMono(IntAbs(a), 1, IntAbs(b));
  }

  /** Multiplying by a positive factor keeps magnitude order and sign. */
  lemma ScaleBy(x: int, y: int, c: int)
    requires c > 0
    ensures (x <= y <==> x * c <= y * c) && (x < y <==> x * c < y * c)
    ensures IntAbs(x * c) == IntAbs(x) * c
    ensures (x * c == 0 <==> x == 0) && (x * c < 0 <==> x < 0)
  {
    MulAbs(x, c);
    if x <= y { MulMono(y, x, c); } else { MulMono(x, y + 1, c); }
    if x < y { MulMono(y, x + 1, c); } else { MulMono(x, y, c); }
    if x > 0 { MulMono(x, 1, c); } else if x < 0 { MulMono(-1, x, c); }
  }
}
