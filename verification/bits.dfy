/** Fixed-width integers as naturals: powers of two and the signed reading of a bit pattern. */
module Bits {

  type byte = x: nat | x < 256

  const TWO32: nat := 0x1_0000_0000
  const TWO64: nat := 0x1_0000_0000_0000_0000

  function Pow2(n: nat): (r: nat)
    ensures r > 0
  {
    if n == 0 then 1 else 2 * Pow2(n - 1)
  }

  lemma Double(m: nat)
    requires m > 0
    ensures Pow2(m) == 2 * Pow2(m - 1)
  {
  }

  lemma {:induction false} Pow2Add(a: nat, b: nat)
    ensures Pow2(a + b) == Pow2(a) * Pow2(b)
  {
    if a == 0 {
    } else {
      Pow2Add(a - 1, b);
      assert Pow2(a + b) == 2 * Pow2(a - 1 + b);
      assert 2 * (Pow2(a - 1) * Pow2(b)) == (2 * Pow2(a - 1)) * Pow2(b);
    }
  }

  lemma {:induction false} Pow2Mono(a: nat, b: nat)
    requires a <= b
    ensures Pow2(a) <= Pow2(b)
  {
    if a < b {
      Pow2Mono(a, b - 1);
    }
  }

  /** The two's complement reading of an n-bit pattern. */
  function Signed(v: nat, n: nat): int
    requires n > 0
  {
    if v >= Pow2(n - 1) then v - Pow2(n) else v
  }

  /** The m-bit pattern that holds the integer x modulo 2^m. */
  function Wrap(x: int, m: nat): (r: nat)
    ensures r < Pow2(m)
  {
    x % Pow2(m)
  }

  /** Sign extension of an n-bit pattern to m bits. */
  function SignExtend(v: nat, n: nat, m: nat): nat
    requires n > 0
  {
    Wrap(Signed(v, n), m)
  }

  /** Adding a multiple of n does not change the remainder. */
  lemma {:induction false} AddMultiple(x: int, k: int, n: nat)
    requires n > 0
    ensures (x + k * n) % n == x % n
    decreases if k < 0 then -k else k
  {
    if k > 0 {
      AddMultiple(x, k - 1, n);
      StepMod(x + (k - 1) * n, n);
      assert x + k * n == x + (k - 1) * n + n by { assert k * n == (k - 1) * n + n; }
    } else if k < 0 {
      AddMultiple(x, k + 1, n);
      StepMod(x + k * n, n);
      assert x + k * n + n == x + (k + 1) * n by { assert (k + 1) * n == k * n + n; }
    }
  }

  lemma StepMod(x: int, n: nat)
    requires n > 0
    ensures (x + n) % n == x % n
  {
    var q, r := x / n, x % n;
    assert x + n == (q + 1) * n + r by { assert (q + 1) * n == q * n + n; }
    DivModUnique(x + n, n, q + 1, r);
  }

  lemma DivModUnique(x: int, n: nat, q: int, r: int)
    requires n > 0 && x == q * n + r && 0 <= r < n
    ensures x / n == q && x % n == r
  {
    var q', r' := x / n, x % n;
    assert x == q' * n + r';
    assert (q - q') * n == r' - r && (q' - q) * n == r - r';
    if q > q' {
      MulAtLeast(q - q', n);
    } else if q < q' {
      MulAtLeast(q' - q, n);
    }
  }

  lemma HalfThen(w: nat, p: nat)
    requires p > 0
    ensures w / 2 / p == w / (2 * p)
  {
    var h := w / 2;
    var q, r := h / p, h % p;
    assert q * (2 * p) == 2 * (q * p);
    DivModUnique(w, 2 * p, q, 2 * r + w % 2);
  }

  lemma MulAtLeast(k: int, n: nat)
    requires k >= 1
    ensures k * n >= n
  {
    assert k * n == (k - 1) * n + n;
  }

  /** Reducing modulo a multiple of n first changes nothing modulo n. */
  lemma ModMod(x: int, t: nat, n: nat)
    requires n > 0 && t > 0 && t % n == 0
    ensures x % t % n == x % n
  {
    var q, k := x / t, t / n;
    assert t == k * n;
    assert x == x % t + (q * k) * n by { assert q * t == (q * k) * n; }
    AddMultiple(x % t, q * k, n);
  }

  /** A summand may be reduced first. */
  lemma ModSum(x: int, y: int, t: nat)
    requires t > 0
    ensures (x % t + y) % t == (x + y) % t
  {
    var q := x / t;
    assert x + y == (x % t + y) + q * t;
    AddMultiple(x % t + y, q, t);
  }

  lemma Pow32()
    ensures Pow2(8) == 0x100
    ensures Pow2(16) == 0x1_0000
    ensures Pow2(32) == 0x1_0000_0000
    ensures Pow2(64) == 0x1_0000_0000_0000_0000
  {
    assert Pow2(8) == 0x100;
    Pow2Add(8, 8);
    Pow2Add(16, 16);
    Pow2Add(32, 32);
  }

  lemma Scale(a: nat, p: nat, r: nat)
    ensures 256 * (a + p * r) == 256 * a + (256 * p) * r
  {
    assert 256 * (p * r) == (256 * p) * r;
  }

  /** One byte more. */
  lemma EightMore(j: nat)
    requires j > 0
    ensures Pow2(8 * j) == 256 * Pow2(8 * (j - 1))
  {
    Pow2Add(8, 8 * (j - 1));
    Pow32();
    hide Pow2;
    assert 8 + 8 * (j - 1) == 8 * j;
  }
}
