/** Laws of fixed-width integers: wrapping, sign extension, cutting and disjoint bits. */
module Wrapping {
  import opened Bits

  /** x is a signed number of m bits. */
  predicate InRange(x: int, m: nat)
    requires m > 0
  {
    0 <= x + Pow2(m - 1) < Pow2(m)
  }

  lemma SignedRange(v: nat, n: nat)
    requires n > 0 && v < Pow2(n)
    ensures InRange(Signed(v, n), n)
  {
    Double(n);
  }

  /** A number in range is read back from its pattern. */
  lemma SignedWrap(x: int, m: nat)
    requires m > 0 && InRange(x, m)
    ensures Signed(Wrap(x, m), m) == x
  {
    var p := Pow2(m);
    Double(m);
    if x >= 0 {
      DivModUnique(x, p, 0, x);
    } else {
      DivModUnique(x, p, -1, x + p);
    }
  }

  /** A pattern is recovered from its signed reading. */
  lemma WrapSigned(v: nat, m: nat)
    requires m > 0 && v < Pow2(m)
    ensures Wrap(Signed(v, m), m) == v
  {
    var p := Pow2(m);
    if v >= Pow2(m - 1) {
      DivModUnique(v - p, p, -1, v);
    } else {
      DivModUnique(v, p, 0, v);
    }
  }

  lemma PowDivides(n: nat, m: nat)
    requires n <= m
    ensures Pow2(m) % Pow2(n) == 0
  {
    Pow2Add(n, m - n);
    assert n + (m - n) == m;
    hide Pow2;
    ProductDivides(Pow2(n), Pow2(m - n));
  }

  lemma ProductDivides(p: nat, q: nat)
    requires p > 0
    ensures p * q % p == 0
  {
    assert p * q == q * p;
    DivModUnique(q * p, p, q, 0);
  }

  /** Cutting a wrapped number wraps it at the smaller width. */
  lemma WrapCut(x: int, m: nat, n: nat)
    requires n <= m
    ensures Wrap(x, m) % Pow2(n) == Wrap(x, n)
  {
    PowDivides(n, m);
    ModMod(x, Pow2(m), Pow2(n));
  }

  /** Sign extension does not change the value. */
  lemma ExtendValue(v: nat, n: nat, m: nat)
    requires 0 < n <= m && v < Pow2(n)
    ensures Signed(SignExtend(v, n, m), m) == Signed(v, n) && SignExtend(v, n, m) < Pow2(m)
  {
    Double(n);
    Double(m);
    Pow2Mono(n - 1, m - 1);
    SignedWrap(Signed(v, n), m);
  }

  /** Wrapped operands give the wrapped result. */
  lemma WrapAdd(x: int, y: int, m: nat)
    ensures Wrap(Wrap(x, m) + Wrap(y, m), m) == Wrap(x + y, m)
  {
    ModSum(x, Wrap(y, m), Pow2(m));
    ModSum(y, x, Pow2(m));
    assert x + Wrap(y, m) == Wrap(y, m) + x && y + x == x + y;
  }

  lemma WrapSub(x: int, y: int, m: nat)
    ensures Wrap(Wrap(x, m) - Wrap(y, m), m) == Wrap(x - y, m)
  {
    var p := Pow2(m);
    var i, j := x / p, y / p;
    assert x - y == (x % p - y % p) + (i - j) * p by {
      assert (i - j) * p == i * p - j * p;
    }
    AddMultiple(x % p - y % p, i - j, p);
  }

  lemma WrapMul(x: int, y: int, m: nat)
    ensures Wrap(Wrap(x, m) * Wrap(y, m), m) == Wrap(x * y, m)
  {
    var p := Pow2(m);
    var i, j, u, v := x / p, y / p, x % p, y % p;
    assert x == i * p + u && y == j * p + v;
    Expand(i, j, u, v, p);
    AddMultiple(u * v, i * j * p + i * v + u * j, p);
  }

  lemma Expand(i: int, j: int, u: int, v: int, p: int)
    ensures (i * p + u) * (j * p + v) == u * v + (i * j * p + i * v + u * j) * p
  {
    assert (i * p + u) * (j * p + v) == (i * p) * (j * p) + (i * p) * v + u * (j * p) + u * v;
    assert (i * p) * (j * p) == (i * j * p) * p;
    assert (i * p) * v == (i * v) * p;
    assert u * (j * p) == (u * j) * p;
    assert (i * j * p + i * v + u * j) * p == (i * j * p) * p + (i * v) * p + (u * j) * p;
  }

  /** The high bits of a wrapped number are those of the number itself: bits m-1..s of the exact value. */
  lemma HighBits(x: int, m: nat, s: nat)
    requires s <= m
    ensures Wrap(x, m) / Pow2(s) == Wrap(x / Pow2(s), m - s)
  {
    Pow2Add(s, m - s);
    assert s + (m - s) == m;
    hide Pow2;
    HighPart(x, Pow2(s), Pow2(m - s));
  }

  lemma HighPart(x: int, p: nat, q: nat)
    requires p > 0 && q > 0
    ensures p * q > 0 && x % (p * q) / p == x / p % q
  {
    MulAtLeast(p, q);
    var k, r := x / (p * q), x % (p * q);
    var hi, lo := r / p, r % p;
    BelowProduct(r, p, q);
    Regroup(x, k, p, q, r, hi, lo);
    DivModUnique(x, p, k * q + hi, lo);
    AddMultiple(hi, k, q);
    DivModUnique(hi, q, 0, hi);
  }

  lemma BelowProduct(r: nat, p: nat, q: nat)
    requires p > 0 && r < p * q
    ensures r / p < q
  {
    assert r == r / p * p + r % p;
    if r / p >= q {
      MulLeast(r / p, q, p);
    }
  }

  lemma Regroup(x: int, k: int, p: nat, q: nat, r: nat, hi: nat, lo: nat)
    requires x == k * (p * q) + r && r == hi * p + lo
    ensures x == (k * q + hi) * p + lo
  {
    assert (k * q + hi) * p == (k * q) * p + hi * p;
    assert (k * q) * p == k * (p * q);
  }

  lemma MulLeast(a: nat, b: nat, p: nat)
    requires a >= b
    ensures a * p >= b * p && b * p == p * b
  {
    assert a * p == b * p + (a - b) * p;
    assert (a - b) * p >= 0;
  }

  // ---- bitwise or of disjoint bits

  function BitOr(x: nat, y: nat, n: nat): nat {
    if n == 0 then 0 else (if x % 2 == 1 || y % 2 == 1 then 1 else 0) + 2 * BitOr(x / 2, y / 2, n - 1)
  }

  lemma {:induction false} OrZero(y: nat, n: nat)
    requires y < Pow2(n)
    ensures BitOr(0, y, n) == y
    decreases n
  {
    if n > 0 {
      OrZero(y / 2, n - 1);
    }
  }

  /** A number of k bits or-ed with a multiple of 2^k is added to it. */
  lemma {:induction false} OrDisjoint(x: nat, y: nat, k: nat, n: nat)
    requires k <= n && x < Pow2(k) && y % Pow2(k) == 0 && y < Pow2(n)
    ensures BitOr(x, y, n) == x + y
    decreases n
  {
    if k == 0 {
      OrZero(y, n);
    } else {
      Double(n);
      Double(k);
      HalfMultiple(y, Pow2(k - 1));
      OrDisjoint(x / 2, y / 2, k - 1, n - 1);
    }
  }

  lemma HalfMultiple(y: nat, p: nat)
    requires p > 0 && y % (2 * p) == 0
    ensures y % 2 == 0 && y / 2 % p == 0
  {
    var q := y / (2 * p);
    assert y == 2 * (q * p) by {
      assert y == q * (2 * p);
      assert q * (2 * p) == 2 * (q * p);
    }
    DivModUnique(q * p, p, q, 0);
  }
}
