/** Division and remainder facts the solver does not find by itself. */
module Arithmetic {

  function Quot(a: nat, b: nat): nat
    requires b > 0
  {
    a / b
  }

  function Rem(a: nat, b: nat): nat
    requires b > 0
  {
    a % b
  }

  lemma {:induction false} Multiple(d: int, m: nat)
    requires m > 0
    ensures d >= 1 ==> d * m >= m
    ensures d <= -1 ==> d * m <= 0 - m
  {
    assert d * m - m == (d - 1) * m;
    assert d * m + m == (d + 1) * m;
  }

  lemma {:induction false} Unique(x: nat, q: nat, r: nat, m: nat)
    requires 0 <= r < m && x == q * m + r
    ensures x / m == q && x % m == r
  {
    var d := x / m - q;
    assert d * m == (x / m) * m - q * m;
    Multiple(d, m);
  }

  lemma {:induction false} ModStep(x: nat, m: nat)
    requires m > 0
    ensures (x + m) % m == x % m
  {
    var q, r := x / m, x % m;
    assert x + m == (q + 1) * m + r by {
      assert (q + 1) * m == q * m + m;
    }
    Unique(x + m, q + 1, r, m);
  }

  lemma {:induction false} ModAdd(a: nat, d: nat, m: nat)
    requires m > 0
    ensures (m * d + a) % m == a % m
  {
    if d > 0 {
      ModAdd(a, d - 1, m);
      ModStep(m * (d - 1) + a, m);
      assert m * d == m * (d - 1) + m;
    }
  }

  /** Counters wrapped at a multiple of m keep their residue modulo m. */
  lemma {:induction false} ModOfMod(x: nat, m: nat, q: nat)
    requires m > 0 && q > 0 && m * q > 0
    ensures (x % (m * q)) % m == x % m
  {
    var d := x / (m * q);
    assert x == (m * q) * d + x % (m * q);
    assert (m * q) * d == m * (q * d);
    ModAdd(x % (m * q), q * d, m);
  }

  lemma {:induction false} Quotient(a: nat, b: nat)
    requires b > 0
    ensures b * (a / b) <= a < b * (a / b) + b
    ensures (a / b) * b <= a < (a / b) * b + b
  {
  }

  lemma {:induction false} Scaled(a: nat, b: nat, m: nat)
    requires a <= b
    ensures a * m <= b * m
  {
  }

  lemma {:induction false} QuotientAtLeast(a: nat, b: nat, k: nat)
    requires b > 0 && k * b <= a
    ensures k <= a / b
  {
    Quotient(a, b);
    if a / b + 1 <= k {
      Scaled(a / b + 1, k, b);
    }
  }

  lemma {:induction false} QuotientAtMost(a: nat, b: nat, k: nat)
    requires b > 0 && a <= k * b
    ensures a / b <= k
  {
    Quotient(a, b);
    if k + 1 <= a / b {
      Scaled(k + 1, a / b, b);
    }
  }

  lemma {:induction false} QuotientsOrdered(a: nat, b: nat, c: nat, e: nat)
    requires b > 0 && e > 0 && a * e <= c * b
    ensures a / b <= c / e
  {
    var k := a / b;
    Quotient(a, b);
    assert k * b <= a;
    Scaled(k * b, a, e);
    assert (k * e) * b == (k * b) * e;
    assert (c + 1) * b == c * b + b;
    if k * e > c {
      Scaled(c + 1, k * e, b);
    }
    QuotientAtLeast(c, e, k);
  }

  lemma {:induction false} QuotientGrows(a: nat, b: nat, m: nat)
    requires m > 0 && a <= b
    ensures a / m <= b / m
  {
    var p, q := a / m, b / m;
    Quotient(a, m);
    Quotient(b, m);
    assert (q + 1) * m == q * m + m;
    if q + 1 <= p {
      Scaled(q + 1, p, m);
    }
  }

  function Pow2(k: nat): (r: nat)
    ensures r >= 1
  {
    if k == 0 then 1 else 2 * Pow2(k - 1)
  }

  lemma {:induction false} Pow2Add(a: nat, b: nat)
    ensures Pow2(a + b) == Pow2(a) * Pow2(b)
  {
    if a > 0 {
      Pow2Add(a - 1, b);
      assert Pow2(a + b) == 2 * Pow2(a - 1 + b);
    }
  }

  lemma {:induction false} Pow16()
    ensures Pow2(16) == 0x1_0000
  {
    Pow2Add(4, 4);
    Pow2Add(8, 8);
  }

  lemma {:induction false} Pow64()
    ensures Pow2(64) == 0x1_0000_0000_0000_0000
  {
    Pow16();
    Pow2Add(16, 16);
    Pow2Add(32, 32);
  }

  lemma {:induction false} Cancel(a: nat, b: nat, m: nat)
    requires m > 0 && a * m == b * m
    ensures a == b
  {
    assert (a - b) * m == 0;
    Multiple(a - b, m);
  }
}
