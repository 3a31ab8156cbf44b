/** Arithmetic of registers that wrap: powers of two and counters kept modulo a power of two. */
module Wrapping {

  function Min(a: nat, b: nat): nat {
    if a < b then a else b
  }

  function Max(a: nat, b: nat): nat {
    if a < b then b else a
  }

  function Power(base: nat, n: nat): (p: nat)
    ensures base > 0 ==> p > 0
  {
    if n == 0 then 1 else base * Power(base, n - 1)
  }

  function Pow2(n: nat): (p: nat)
    ensures p >= 1
  {
    Power(2, n)
  }

  /** A product with a positive factor is no smaller than that factor. */
  lemma FactorBound(m: int, t: int)
    requires m > 0
    ensures t >= 1 ==> m * t >= m
    ensures t <= -1 ==> m * t <= -m
  {
    if t >= 1 {
      assert m * t == m + m * (t - 1);
    } else if t <= -1 {
      assert m * t == -m + m * (t + 1);
    }
  }

  /** Quotient and remainder are the only pair that recompose x. */
  lemma DivModUnique(x: int, m: int, k: int, r: int)
    requires m > 0 && 0 <= r < m && x == m * k + r
    ensures x / m == k && x % m == r
  {
    assert x == m * (x / m) + x % m;
    assert m * (x / m - k) == r - x % m by {
      assert m * (x / m - k) == m * (x / m) - m * k;
    }
    FactorBound(m, x / m - k);
  }

  /** The remainder of a sum only depends on the remainder of a term. */
  lemma WrapAdd(a: int, b: int, m: int)
    requires m > 0
    ensures (a % m + b) % m == (a + b) % m
  {
    var x := a % m + b;
    assert a == m * (a / m) + a % m;
    assert x == m * (x / m) + x % m;
    assert a + b == m * (a / m + x / m) + x % m by {
      assert m * (a / m + x / m) == m * (a / m) + m * (x / m);
    }
    DivModUnique(a + b, m, a / m + x / m, x % m);
  }

  /** A difference of two wrapped counters is exact while the counters are less than m apart. */
  lemma WrapSub(a: int, b: int, m: int)
    requires m > 0 && 0 <= a - b < m
    ensures (a % m - b % m) % m == a - b
  {
    assert a == m * (a / m) + a % m;
    assert b == m * (b / m) + b % m;
    var x := a % m - b % m;
    assert x == m * (b / m - a / m) + (a - b) by {
      assert m * (b / m - a / m) == m * (b / m) - m * (a / m);
    }
    DivModUnique(x, m, b / m - a / m, a - b);
  }

  /** Counters less than m apart wrap to the same value only when they are equal. */
  lemma WrapInjective(a: int, b: int, m: int)
    requires m > 0 && -m < a - b < m && a % m == b % m
    ensures a == b
  {
    if a >= b {
      WrapSub(a, b, m);
    } else {
      WrapSub(b, a, m);
    }
  }

  /** Reducing modulo a multiple of d first does not change the remainder by d. */
  lemma WrapNested(a: int, d: int, k: int)
    requires d > 0 && k > 0
    ensures d * k > 0 && (a % (d * k)) % d == a % d
  {
    FactorBound(d, k);
    var m := d * k;
    var x := a % m;
    assert a == m * (a / m) + x;
    assert x == d * (x / d) + x % d;
    assert m * (a / m) == d * (k * (a / m));
    assert a == d * (k * (a / m) + x / d) + x % d by {
      assert d * (k * (a / m) + x / d) == d * (k * (a / m)) + d * (x / d);
    }
    DivModUnique(a, d, k * (a / m) + x / d, x % d);
  }

  /** The remainder by base * p splits into the lowest digit and the remainder of the rest. */
  lemma WrapDigit(d: nat, h: nat, base: int, p: int)
    requires p > 0 && d < base
    ensures base * p > 0 && (d + base * h) % (base * p) == d + base * (h % p)
  {
    FactorBound(base, p);
    var k, r := h / p, h % p;
    assert h == p * k + r;
    assert (base * p) * k == base * (p * k);
    assert base * h == base * (p * k) + base * r;
    assert base * r + d < base * p by {
      assert base * (p - r) >= base by { FactorBound(base, p - r); }
      assert base * (p - r) == base * p - base * r;
    }
    assert base * r >= 0;
    DivModUnique(d + base * h, base * p, k, d + base * r);
  }

  /** The same for bits. */
  lemma WrapHalf(n: nat, p: int)
    requires p > 0
    ensures n % (2 * p) == 2 * ((n / 2) % p) + n % 2
  {
    WrapDigit(n % 2, n / 2, 2, p);
  }

  /** Three address bits or more: the depth is a multiple of eight. */
  lemma Pow2Eight(n: nat)
    requires n >= 3
    ensures Pow2(n) == 8 * Pow2(n - 3)
  {
    assert Pow2(n) == 2 * Pow2(n - 1) == 4 * Pow2(n - 2) == 8 * Pow2(n - 3);
  }
}
