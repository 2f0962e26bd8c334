/**
 Laws of the context store: what a write leaves behind, what indexed access can touch, and
 when the emitted index and offset arithmetic is right.
 */
module ContextLaws {
  import opened Options
  import opened Bits
  import opened VexIR
  import opened VexWf
  import opened LlvmIR
  import opened Builder
  import opened Simulation

  /** Byte i of n, counted from the low end. */
  function ByteAt(n: nat, i: nat): byte {
    if i == 0 then n % 256 else ByteAt(n / 256, i - 1)
  }

  predicate Within(j: nat, a: nat, k: nat) {
    a <= j < a + k
  }

  lemma {:induction false} WriteLookup(m: Bytes, a: nat, k: nat, n: nat, j: nat)
    ensures j in Write(m, a, k, n) <==> j in m || Within(j, a, k)
    ensures Within(j, a, k) ==> Write(m, a, k, n)[j] == ByteAt(n, j - a)
    ensures !Within(j, a, k) && j in m ==> Write(m, a, k, n)[j] == m[j]
    decreases k
  {
    if k > 0 {
      WriteLookup(m[a := n % 256], a + 1, k - 1, n / 256, j);
    }
  }

  lemma {:induction false} ReadOther(m: Bytes, m': Bytes, a: nat, k: nat)
    requires forall j :: Within(j, a, k) ==> (j in m <==> j in m') && (j in m ==> m[j] == m'[j])
    ensures Read(m, a, k) == Read(m', a, k)
    decreases k
  {
    if k > 0 {
      assert Within(a, a, k);
      forall j | Within(j, a + 1, k - 1) ensures (j in m <==> j in m') && (j in m ==> m[j] == m'[j]) {
        assert Within(j, a, k);
      }
      ReadOther(m, m', a + 1, k - 1);
    }
  }

  /** Reading back what was written gives the low bytes of it ... */
  lemma {:induction false} ReadBack(m: Bytes, a: nat, k: nat, n: nat)
    ensures Read(Write(m, a, k, n), a, k) == n % Pow2(8 * k)
    decreases k
  {
    if k > 0 {
      var m' := m[a := n % 256];
      WriteLookup(m', a + 1, k - 1, n / 256, a);
      ReadBack(m', a + 1, k - 1, n / 256);
      LowBytes(n, k);
    } else {
      assert n % 1 == 0;
    }
  }

  lemma LowBytes(n: nat, k: nat)
    requires k > 0
    ensures n % Pow2(8 * k) == n % 256 + 256 * (n / 256 % Pow2(8 * (k - 1)))
  {
    var p := Pow2(8 * (k - 1));
    Pow2Add(8, 8 * (k - 1));
    assert Pow2(8) == 256;
    assert 8 + 8 * (k - 1) == 8 * k;
    var q, r := n / 256, n % 256;
    var u, v := q / p, q % p;
    var low := r + 256 * v;
    assert n == u * (256 * p) + low by {
      assert q == u * p + v;
      assert 256 * (u * p) == u * (256 * p);
    }
    assert low < 256 * p;
    DivModUnique(n, 256 * p, u, low);
  }

  /** ... and disjoint bytes are untouched. */
  lemma ReadElsewhere(m: Bytes, a: nat, k: nat, n: nat, b: nat, l: nat)
    requires a + k <= b || b + l <= a
    ensures Read(Write(m, a, k, n), b, l) == Read(m, b, l)
  {
    var m' := Write(m, a, k, n);
    forall j | Within(j, b, l) ensures (j in m <==> j in m') && (j in m ==> m[j] == m'[j]) {
      WriteLookup(m, a, k, n, j);
    }
    ReadOther(m', m, b, l);
  }

  lemma SlotBound(arr: RegArray, ix: Val, bias: int)
    requires arr.nElems > 0
    ensures Slot(arr, ix, bias) < arr.nElems
  {
  }

  /** An indexed access stays inside its array, whatever the index and the bias. */
  lemma IndexedInside(arr: RegArray, ix: Val, bias: int, k: nat)
    requires arr.nElems > 0
    ensures arr.base <= SlotOff(arr, ix, bias, k)
    ensures SlotOff(arr, ix, bias, k) + k <= arr.base + arr.nElems * k
  {
    SlotBound(arr, ix, bias);
    hide Slot;
    var s := Slot(arr, ix, bias);
    MulMono(s + 1, arr.nElems, k);
    assert (s + 1) * k == s * k + k;
  }

  lemma MulMono(a: nat, b: nat, k: nat)
    requires a <= b
    ensures a * k <= b * k
  {
    assert (b - a) * k >= 0;
    assert b * k == a * k + (b - a) * k;
  }

  /** Two slots of one array are the same bytes or disjoint bytes. */
  lemma SlotsApart(base: nat, s: nat, t: nat, k: nat)
    requires s != t
    ensures base + s * k + k <= base + t * k || base + t * k + k <= base + s * k
  {
    if s < t {
      MulMono(s + 1, t, k);
      assert (s + 1) * k == s * k + k;
    } else {
      MulMono(t + 1, s, k);
      assert (t + 1) * k == t * k + k;
    }
  }

  /** Indices and biases with congruent sums select the same element. */
  predicate Congruent(arr: RegArray, i: Val, bias: int, j: Val, bias': int)
    requires arr.nElems > 0
  {
    (i.n % TWO32 + bias) % arr.nElems == (j.n % TWO32 + bias') % arr.nElems
  }

  /**
   PutI then GetI on one array: a congruent index reads the new value back, any other index
   reads what its element held before.
   */
  lemma PutIGetI(m: Machine, g: Guest, tmps: map<nat, Val>, arr: RegArray, ix: Expr, bias: int, data: Expr,
                 ix': Expr, bias': int)
    requires arr.nElems > 0
    requires Eval(m, g, tmps, data).w == BitsOf(VexTy2LLVM(arr.elemTy))
    ensures
      var v := Eval(m, g, tmps, data);
      var g' := Exec(m, PutI(arr, ix, bias, data), g, tmps).g;
      var i, j := Eval(m, g, tmps, ix), Eval(m, g', tmps, ix');
      var k := v.w / 8;
      Eval(m, g', tmps, GetI(arr, ix', bias')) ==
        Val(v.w, if Congruent(arr, i, bias, j, bias') then v.n % Pow2(8 * k)
                 else Read(g.ctx, SlotOff(arr, j, bias', k), k))
  {
    hide Read, Write, Pow2;
    var v := Eval(m, g, tmps, data);
    var k := v.w / 8;
    var i := Eval(m, g, tmps, ix);
    var a := SlotOff(arr, i, bias, k);
    var g' := PutVal(g, a, v);
    var j := Eval(m, g', tmps, ix');
    var b := SlotOff(arr, j, bias', k);
    assert Exec(m, PutI(arr, ix, bias, data), g, tmps) == Go(g', tmps);
    if Congruent(arr, i, bias, j, bias') {
      ReadBack(g.ctx, a, k, v.n);
    } else {
      SlotsApart(arr.base, Slot(arr, i, bias), Slot(arr, j, bias'), k);
      ReadElsewhere(g.ctx, a, k, v.n, b, k);
    }
  }

  /** The code's 32-bit index arithmetic. */
  function CodedIndex(n: nat, bias: int, len: nat): nat
    requires len > 0
  {
    (n + bias % TWO32) % TWO32 % len
  }

  /**
   The 32-bit sum of index and bias may wrap before the remainder is taken. For a signed
   32-bit bias the code selects the element that VEX means for every index exactly when the
   bias is zero or the array length divides 2^32.
   */
  lemma IndexArithExact(bias: int, len: nat)
    requires len > 0 && -0x8000_0000 <= bias < 0x8000_0000
    ensures (forall n: nat :: n < TWO32 ==> CodedIndex(n, bias, len) == (n + bias) % len) <==> IndexExact(len, bias)
  {
    hide CodedIndex;
    if IndexExact(len, bias) {
      forall n: nat | n < TWO32 ensures CodedIndex(n, bias, len) == (n + bias) % len {
        CodedIs(n, bias, len);
        IndexArith(n, bias, len);
      }
    } else {
      WrapWitness(bias, len);
    }
  }

  lemma CodedIs(n: nat, bias: int, len: nat)
    requires len > 0 && n < TWO32
    ensures CodedIndex(n, bias, len) == (n + bias % TWO32) % TWO32 % len
    ensures n % TWO32 == n
  {
  }

  /** The last index, or the first one, shows the wrap-around. */
  lemma WrapWitness(bias: int, len: nat)
    requires len > 0 && -0x8000_0000 <= bias < 0x8000_0000 && !IndexExact(len, bias)
    ensures exists n: nat :: n < TWO32 && CodedIndex(n, bias, len) != (n + bias) % len
  {
    var n := if bias > 0 then TWO32 - 1 else 0;
    CodedIs(n, bias, len);
    if bias > 0 {
      assert (n + bias % TWO32) % TWO32 == bias - 1;
      NotMultiple(bias - 1, len);
      assert bias - 1 + TWO32 == n + bias;
    } else {
      assert bias % TWO32 == bias + TWO32;
      NotMultiple(bias, len);
    }
    assert CodedIndex(n, bias, len) != (n + bias) % len;
  }

  /** Adding 2^32 changes a remainder unless the divisor divides 2^32. */
  lemma NotMultiple(x: int, len: nat)
    requires len > 0 && TWO32 % len != 0
    ensures (x + TWO32) % len != x % len
  {
    if (x + TWO32) % len == x % len {
      var p, q := (x + TWO32) / len, x / len;
      assert TWO32 == (p - q) * len by {
        assert x + TWO32 == p * len + (x + TWO32) % len;
        assert x == q * len + x % len;
        assert (p - q) * len == p * len - q * len;
      }
      DivModUnique(TWO32, len, p - q, 0);
    }
  }

  /**
   A fixed-offset address counts in units of the accessed type: it is the offset asked for,
   rounded down to a multiple of the access size, fresh or remembered.
   */
  lemma ByteAddress(m: Machine, b: Build, off: nat, ty: LTy, c: Config) returns (c': Config)
    requires AtEnd(b, c) && Sized(ty) && off / BytesOf(ty) < 0x8000_0000
    ensures
      var (b', p) := GetCtxByteGEP(b, off, ty);
      && Sim(m, b, c, b', c') && c'.g == c.g
      && EvalOp(c'.regs, p) == Some(CtxPtr(off - off % BytesOf(ty)))
    ensures off - off % BytesOf(ty) == off <==> Aligned(off, ty)
  {
    hide Sim, Reach, Grow, GetCtxTyGEP;
    var k := (off, BytesOf(ty));
    var units := Imm(Units(off, ty), IntTy(32));
    assert off / BytesOf(ty) * BytesOf(ty) == off - off % BytesOf(ty);
    if k in b.geps && b.cur == 0 && b.geps[k].ty == PtrTy(ty) {
      c' := c;
      SimRefl(m, b, c);
    } else {
      c' := SimTyGEP(m, b, units, ty, c);
      var (b1, gep) := GetCtxTyGEP(b, units, ty);
      SimEnds(m, b, c, b1, c');
      if k !in b.geps {
        SimMemo(m, b, c, b1, c', b1.geps[k := gep], b1.casts);
        assert b1.(geps := b1.geps[k := gep], casts := b1.casts) == b1.(geps := b1.geps[k := gep]);
      }
    }
  }
}
