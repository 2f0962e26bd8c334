/**
 What the types of the VEX language come to: which bytes a read of each type is made of, how
 wide its value is, and what guarded loads, constants and helper results do to numbers.
 */
module TypeLaws {
  import opened Options
  import opened Bits
  import opened VexIR
  import opened VexWf
  import opened Builder
  import opened Lowering
  import opened Simulation
  import opened SimExpr
  import opened ContextLaws
  import opened BlockLaws
  import opened VexMachine

  /** A type twice as wide as another one, which takes k bytes. */
  predicate Twice(whole: IRType, half: IRType, k: nat) {
    match whole
    case I16 => half == I8 && k == 1
    case I32 => half == I16 && k == 2
    case I64 => half == I32 && k == 4
    case V128 => half == I64 && k == 8
    case V256 => half == IRType.V128 && k == 16
    case _ => false
  }

  /** Two numbers of k bytes side by side. */
  function Joined(low: nat, high: nat, k: nat): nat {
    low + Pow2(8 * k) * high
  }

  lemma ReadJoined(m: Bytes, a: nat, k: nat)
    ensures Read(m, a, k + k) == Joined(Read(m, a, k), Read(m, a + k, k), k)
  {
    hide Read, Pow2;
    ReadSplit(m, a, k, k);
  }

  lemma Halves(whole: IRType, half: IRType, k: nat)
    requires Twice(whole, half, k)
    ensures Sizes(half, k) && Sizes(whole, k + k)
  {
  }

  /** The type is k bytes wide. */
  predicate Sizes(ty: IRType, k: nat) {
    BytesOf(VexTy2LLVM(ty)) == k && BitsOf(VexTy2LLVM(ty)) == 8 * k
  }

  lemma SmallSizes()
    ensures Sizes(I8, 1) && Sizes(I32, 4) && Sizes(F32, 4) && Sizes(I64, 8) && Sizes(F64, 8)
    ensures BitsOf(VexTy2LLVM(I1)) == 1
  {
  }

  lemma GetIs(m: Machine, g: Guest, tmps: map<nat, Val>, off: nat, ty: IRType)
    ensures Eval(m, g, tmps, Get(off, ty)) == Val(BitsOf(VexTy2LLVM(ty)), Read(g.ctx, off, BytesOf(VexTy2LLVM(ty))))
  {
    hide Read, VexTy2LLVM, BitsOf, BytesOf;
  }

  lemma GetSized(m: Machine, g: Guest, tmps: map<nat, Val>, off: nat, ty: IRType, k: nat)
    requires Sizes(ty, k)
    ensures Eval(m, g, tmps, Get(off, ty)) == Val(8 * k, Read(g.ctx, off, k))
  {
    hide Eval, Read, VexTy2LLVM, BitsOf, BytesOf;
    GetIs(m, g, tmps, off, ty);
  }

  lemma LoadIs(m: Machine, g: Guest, tmps: map<nat, Val>, addr: Expr, ty: IRType)
    ensures Eval(m, g, tmps, Load(ty, addr)) == LoadVal(g, Eval(m, g, tmps, addr), VexTy2LLVM(ty))
  {
    hide LoadVal, VexTy2LLVM;
  }

  lemma LoadSized(m: Machine, g: Guest, tmps: map<nat, Val>, addr: Expr, ty: IRType, k: nat)
    requires Sizes(ty, k)
    ensures Eval(m, g, tmps, Load(ty, addr)) == Val(8 * k, Read(g.mem, Eval(m, g, tmps, addr).n % 0x1_0000_0000_0000_0000, k))
  {
    hide Eval, Read, VexTy2LLVM, BitsOf, BytesOf;
    LoadIs(m, g, tmps, addr, ty);
  }

  lemma OneByteRead(m: Bytes, a: nat)
    ensures Read(m, a, 1) == ByteIn(m, a)
  {
    assert Read(m, a + 1, 0) == 0;
  }

  /** A register of 16 bits or more is its two halves, the low one first; one of 8 bits is one byte. */
  lemma GetHalves(m: Machine, g: Guest, tmps: map<nat, Val>, off: nat, k: nat, whole: IRType, half: IRType)
    requires Twice(whole, half, k)
    ensures
      Eval(m, g, tmps, Get(off, whole)) ==
        Val(16 * k, Joined(Eval(m, g, tmps, Get(off, half)).n, Eval(m, g, tmps, Get(off + k, half)).n, k))
    ensures Eval(m, g, tmps, Get(off, I8)) == Val(8, ByteIn(g.ctx, off))
    ensures Eval(m, g, tmps, Get(off, F32)) == Eval(m, g, tmps, Get(off, I32))
    ensures Eval(m, g, tmps, Get(off, F64)) == Eval(m, g, tmps, Get(off, I64))
    ensures Eval(m, g, tmps, Get(off, I1)).w == 1
  {
    hide *;
    Halves(whole, half, k);
    SmallSizes();
    GetSized(m, g, tmps, off, whole, k + k);
    GetSized(m, g, tmps, off, half, k);
    GetSized(m, g, tmps, off + k, half, k);
    ReadJoined(g.ctx, off, k);
    GetSized(m, g, tmps, off, I8, 1);
    OneByteRead(g.ctx, off);
    GetSized(m, g, tmps, off, F32, 4);
    GetSized(m, g, tmps, off, I32, 4);
    GetSized(m, g, tmps, off, F64, 8);
    GetSized(m, g, tmps, off, I64, 8);
    GetIs(m, g, tmps, off, I1);
  }

  /** So is a word of memory: lo and hi are any two addresses as far apart as the half is wide. */
  lemma LoadHalves(m: Machine, g: Guest, tmps: map<nat, Val>, lo: Expr, hi: Expr, k: nat, whole: IRType, half: IRType)
    requires Twice(whole, half, k)
    requires
      Eval(m, g, tmps, hi).n % 0x1_0000_0000_0000_0000 == Eval(m, g, tmps, lo).n % 0x1_0000_0000_0000_0000 + k
    ensures
      Eval(m, g, tmps, Load(whole, lo)) ==
        Val(16 * k, Joined(Eval(m, g, tmps, Load(half, lo)).n, Eval(m, g, tmps, Load(half, hi)).n, k))
    ensures Eval(m, g, tmps, Load(I8, lo)) == Val(8, ByteIn(g.mem, Eval(m, g, tmps, lo).n % 0x1_0000_0000_0000_0000))
    ensures Eval(m, g, tmps, Load(F32, lo)) == Eval(m, g, tmps, Load(I32, lo))
    ensures Eval(m, g, tmps, Load(F64, lo)) == Eval(m, g, tmps, Load(I64, lo))
  {
    hide *;
    var a := Eval(m, g, tmps, lo).n % 0x1_0000_0000_0000_0000;
    Halves(whole, half, k);
    SmallSizes();
    LoadSized(m, g, tmps, lo, whole, k + k);
    LoadSized(m, g, tmps, lo, half, k);
    LoadSized(m, g, tmps, hi, half, k);
    ReadJoined(g.mem, a, k);
    LoadSized(m, g, tmps, lo, I8, 1);
    OneByteRead(g.mem, a);
    LoadSized(m, g, tmps, lo, F32, 4);
    LoadSized(m, g, tmps, lo, I32, 4);
    LoadSized(m, g, tmps, lo, F64, 8);
    LoadSized(m, g, tmps, lo, I64, 8);
  }

  /** The value has k bytes, which are those of the store from a on. */
  ghost predicate MadeOf(v: Val, m: Bytes, a: nat, k: nat) {
    v.w == 8 * k && v.n < Pow2(8 * k) && forall i: nat :: i < k ==> ByteAt(v.n, i) == ByteIn(m, a + i)
  }

  lemma {:induction false} ReadByte(m: Bytes, a: nat, k: nat, i: nat)
    requires i < k
    ensures ByteAt(Read(m, a, k), i) == ByteIn(m, a + i)
    decreases i
  {
    var first, rest := ByteIn(m, a), Read(m, a + 1, k - 1);
    assert Read(m, a, k) == first + 256 * rest;
    assert (first + 256 * rest) % 256 == first && (first + 256 * rest) / 256 == rest;
    if i > 0 {
      ReadByte(m, a + 1, k - 1, i - 1);
    }
  }

  lemma ReadMade(m: Bytes, a: nat, k: nat)
    ensures MadeOf(Val(8 * k, Read(m, a, k)), m, a, k)
  {
    hide Read, ByteAt, Pow2, ByteIn;
    ReadBound(m, a, k);
    forall i: nat | i < k ensures ByteAt(Read(m, a, k), i) == ByteIn(m, a + i) {
      ReadByte(m, a, k, i);
    }
  }

  /** The bytes that a value of each type takes. */
  function Takes(ty: IRType): (k: nat)
    requires ty != I1
  {
    match ty
    case I8 => 1
    case I16 => 2
    case I32 => 4
    case F32 => 4
    case I64 => 8
    case F64 => 8
    case V128 => 16
    case V256 => 32
  }

  lemma TypeTakes(ty: IRType)
    requires ty != I1
    ensures Sizes(ty, Takes(ty))
  {
  }

  lemma GetISized(m: Machine, g: Guest, tmps: map<nat, Val>, base: nat, len: nat, ix: Expr, bias: int, ty: IRType, k: nat)
    requires Sizes(ty, k) && len > 0
    ensures
      var i := (Eval(m, g, tmps, ix).n % 0x1_0000_0000 + bias) % len;
      Eval(m, g, tmps, GetI(RegArray(base, len, ty), ix, bias)) == Val(8 * k, Read(g.ctx, base + i * k, k))
  {
    hide Read, VexTy2LLVM, BitsOf, BytesOf;
  }

  /** Whatever the type: a read is made of the bytes at its place, of the element selected, or at its address. */
  lemma ReadsMade(m: Machine, g: Guest, tmps: map<nat, Val>, off: nat, ty: IRType, base: nat, len: nat, ix: Expr, bias: int,
                  addr: Expr)
    requires ty != I1 && len > 0
    ensures MadeOf(Eval(m, g, tmps, Get(off, ty)), g.ctx, off, Takes(ty))
    ensures
      var i := (Eval(m, g, tmps, ix).n % 0x1_0000_0000 + bias) % len;
      MadeOf(Eval(m, g, tmps, GetI(RegArray(base, len, ty), ix, bias)), g.ctx, base + i * Takes(ty), Takes(ty))
    ensures
      MadeOf(Eval(m, g, tmps, Load(ty, addr)), g.mem, Eval(m, g, tmps, addr).n % 0x1_0000_0000_0000_0000, Takes(ty))
  {
    hide *;
    TypeTakes(ty);
    var k, i := Takes(ty), (Eval(m, g, tmps, ix).n % 0x1_0000_0000 + bias) % len;
    GetSized(m, g, tmps, off, ty, k);
    ReadMade(g.ctx, off, k);
    GetISized(m, g, tmps, base, len, ix, bias, ty, k);
    ReadMade(g.ctx, base + i * k, k);
    LoadSized(m, g, tmps, addr, ty, k);
    ReadMade(g.mem, Eval(m, g, tmps, addr).n % 0x1_0000_0000_0000_0000, k);
  }

  /** Constants: integers and doubles by their bits, wide ones by a mask with one bit a byte. */
  lemma ConstIs(m: Machine, g: Guest, tmps: map<nat, Val>, w: nat, n: nat, mask: nat, i: nat)
    ensures Eval(m, g, tmps, Const(U(w, n))) == Val(w, n)
    ensures Eval(m, g, tmps, Const(F64i(n))) == Val(64, n)
    ensures Eval(m, g, tmps, Const(Con.V128(mask))).w == 128 && Eval(m, g, tmps, Const(Con.V256(mask))).w == 256
    ensures
      i < 16 ==> ByteAt(Eval(m, g, tmps, Const(Con.V128(mask))).n, i) == if mask / Pow2(i) % 2 == 1 then 255 else 0
    ensures
      i < 32 ==> ByteAt(Eval(m, g, tmps, Const(Con.V256(mask))).n, i) == if mask / Pow2(i) % 2 == 1 then 255 else 0
  {
    hide MaskBytes, ByteAt, Pow2;
    if i < 16 {
      MaskByte(mask, 16, i);
    }
    if i < 32 {
      MaskByte(mask, 32, i);
    }
  }

  lemma {:induction false} MaskByte(mask: nat, k: nat, i: nat)
    requires i < k
    ensures ByteAt(MaskBytes(mask, k), i) == if mask / Pow2(i) % 2 == 1 then 255 else 0
    decreases i
  {
    var first, rest := if mask % 2 == 1 then 255 else 0, MaskBytes(mask / 2, k - 1);
    assert MaskBytes(mask, k) == first + 256 * rest;
    assert (first + 256 * rest) % 256 == first && (first + 256 * rest) / 256 == rest;
    if i > 0 {
      MaskByte(mask / 2, k - 1, i - 1);
      HalfThen(mask, Pow2(i - 1));
    } else {
      assert mask / Pow2(0) == mask;
    }
  }

  /**
   What an if-then-else leaves is an integer of the same width exactly when its arms are vectors
   of 64 bits or less; otherwise it has the type of its first arm.
   */
  lemma MuxType(m: Machine, b: Build, vals: Vals, sc: Scope, cond: Expr, expr0: Expr, exprX: Expr)
    requires Typed(vals, sc.tt) && WfExpr(Mux0X(cond, expr0, exprX), sc)
    ensures
      var r, t := EmitExpr(m, b, vals, Mux0X(cond, expr0, exprX)).1.ty, TyOf(expr0, sc.tt);
      && BitsOf(r) == BitsOf(t)
      && (r.IntTy? <==> t.IntTy? || (t.VecTy? && t.bits <= 64))
      && (r != t <==> t.VecTy? && t.bits <= 64)
  {
    hide EmitExpr, Typed;
    TypeExpr(m, b, vals, sc, Mux0X(cond, expr0, exprX));
    WfMux(Mux0X(cond, expr0, exprX), sc);
  }

  // ---- guarded loads and helper results

  /** The signed reading of one and of two bytes. */
  function Signed8(n: nat): int {
    if n >= 0x80 then n - 0x100 else n
  }

  function Signed16(n: nat): int {
    if n >= 0x8000 then n - 0x1_0000 else n
  }

  /** A two's complement pattern of 32 bits. */
  predicate Is32(n: nat, x: int) {
    -0x8000_0000 <= x < 0x8000_0000 && n == if x < 0 then x + 0x1_0000_0000 else x
  }

  /**
   A guarded load whose guard holds gives what a plain load gives, of one, two, four or sixteen
   bytes, as 32 bits with the same unsigned or signed value; otherwise it gives the alternative.
   */
  lemma GuardedLoadExact(m: Machine, g: Guest, tmps: map<nat, Val>, cvt: LoadGOp, dst: nat, addr: Expr, alt: Expr, guard: Expr)
    ensures
      var o := Exec(m, LoadG(cvt, dst, addr, alt, guard), g, tmps);
      var b, h := Eval(m, g, tmps, Load(I8, addr)).n, Eval(m, g, tmps, Load(I16, addr)).n;
      && o == Go(g, tmps[dst := o.tmps[dst]])
      && var v := o.tmps[dst];
      if Eval(m, g, tmps, guard).n == 0 then v == Eval(m, g, tmps, alt)
      else match cvt
        case Ident32 => v == Eval(m, g, tmps, Load(I32, addr))
        case IdentV128 => v == Eval(m, g, tmps, Load(IRType.V128, addr))
        case Cvt8Uto32 => v == Val(32, b)
        case Cvt16Uto32 => v == Val(32, h)
        case Cvt8Sto32 => v.w == 32 && Is32(v.n, Signed8(b))
        case Cvt16Sto32 => v.w == 32 && Is32(v.n, Signed16(h))
  {
    hide Eval, Read, Pow2;
    var a := Low64(Eval(m, g, tmps, addr).n);
    ReadBound(g.mem, a, 1);
    ReadBound(g.mem, a, 2);
    LoadIs(m, g, tmps, addr, I8);
    LoadIs(m, g, tmps, addr, I16);
    LoadIs(m, g, tmps, addr, I32);
    LoadIs(m, g, tmps, addr, IRType.V128);
    Pow32();
    assert Pow2(7) == 0x80 && Pow2(15) == 0x8000 by {
      Double(8);
      Double(16);
    }
  }

  /** A helper's result takes the width of its temporary; a wider one keeps its low bits. */
  lemma HelperResult(m: Machine, g: Guest, tmps: map<nat, Val>, guard: Expr, f: nat, retTy: LTy, args: seq<Expr>, t: nat, ty: IRType)
    requires ty != I1 && Eval(m, g, tmps, guard).n != 0
    ensures
      var o := Exec(m, Dirty(guard, f, retTy, args, Some(DirtyTmp(t, ty))), g, tmps);
      var r := m.dirty(f, EvalAll(m, g, tmps, args), g);
      o == Go(r.g, tmps[t := Val(8 * Takes(ty), if BitsOf(retTy) > 8 * Takes(ty) then r.ret % Pow2(8 * Takes(ty)) else r.ret)])
  {
    hide Eval, EvalAll, Pow2, VexTy2LLVM, Takes, BitsOf, BytesOf;
    TypeTakes(ty);
  }
}
