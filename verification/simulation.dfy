/**
 The emitted function does what the superblock means: straight-line emission and expressions.
 A run that stands at the insertion point before emission reaches the new insertion point.
 */
module Simulation {
  import opened Options
  import opened Bits
  import opened VexIR
  import opened VexWf
  import opened LlvmIR
  import opened Builder
  import opened Lowering
  import opened Extension

  /** While the insertion point is in the entry block, remembered addresses are right. */
  predicate MemoOk(b: Build, regs: Regs) {
    b.cur == 0 ==>
      && (forall ty :: ty in b.casts ==> EvalOp(regs, b.casts[ty]) == Some(CtxPtr(0)))
      && (forall k :: k in b.geps ==> GepOk(k, b.geps[k], regs))
  }

  predicate GepOk(k: (nat, nat), gep: Operand, regs: Regs) {
    k.1 > 0 && EvalOp(regs, gep) == Some(CtxPtr(k.0 / k.1 * k.1))
  }

  predicate Below(regs: Regs, n: nat) {
    forall i :: i in regs ==> i < n
  }

  /** The run stands at the insertion point. */
  predicate AtEnd(b: Build, c: Config) {
    && c.At? && c.b == b.cur && c.pc == |b.blocks[b.cur].instrs|
    && Open(b) && Below(c.regs, b.next) && MemoOk(b, c.regs)
  }

  predicate Keeps(r: Regs, r': Regs) {
    forall i :: i in r ==> i in r' && r'[i] == r[i]
  }

  /** Registers written on the way are new ones. */
  predicate Newer(r: Regs, r': Regs, n: nat) {
    forall i :: i in r' ==> i in r || i >= n
  }

  /** From the insertion point of b at c, the run gets to the insertion point of b' at c'. */
  ghost predicate Sim(m: Machine, b: Build, c: Config, b': Build, c': Config) {
    && Grow(b.blocks, b'.blocks)
    && AtEnd(b, c) && AtEnd(b', c')
    && Reach(m, b'.blocks, c, c')
    && Keeps(c.regs, c'.regs)
    && b.next <= b'.next && Newer(c.regs, c'.regs, b.next)
  }

  lemma SimRefl(m: Machine, b: Build, c: Config)
    requires AtEnd(b, c)
    ensures Sim(m, b, c, b, c)
  {
    ReachRefl(m, b.blocks, c);
  }

  lemma SimTrans(m: Machine, b0: Build, c0: Config, b1: Build, c1: Config, b2: Build, c2: Config)
    requires Sim(m, b0, c0, b1, c1) && Sim(m, b1, c1, b2, c2)
    ensures Sim(m, b0, c0, b2, c2)
  {
    hide AtEnd, Reach, Grow;
    GrowTrans(b0.blocks, b1.blocks, b2.blocks);
    ReachGrow(m, b1.blocks, b2.blocks, c0, c1);
    ReachTrans(m, b2.blocks, c0, c1, c2);
  }

  lemma KeepsOp(r: Regs, r': Regs, o: Operand)
    requires Keeps(r, r') && EvalOp(r, o).Some?
    ensures EvalOp(r', o) == EvalOp(r, o) && EvalVal(r', o) == EvalVal(r, o)
  {
  }

  /** One appended instruction that defines at most its own register. */
  lemma SimEmit(m: Machine, b: Build, i: Instr, c: Config) returns (c': Config)
    requires AtEnd(b, c)
    requires
      var e := ExecInstr(m, i, c.prev, c.regs, c.g);
      e.Some? && (e.value.regs == c.regs ||
                  (i.id == b.next && i.id in e.value.regs && e.value.regs == c.regs[i.id := e.value.regs[i.id]]))
    ensures
      var e := ExecInstr(m, i, c.prev, c.regs, c.g).value;
      c' == At(c.b, c.pc + 1, c.prev, e.regs, e.g)
    ensures Sim(m, b, c, Emit(b, i), c')
  {
    var e := ExecInstr(m, i, c.prev, c.regs, c.g).value;
    var b' := Emit(b, i);
    c' := At(c.b, c.pc + 1, c.prev, e.regs, e.g);
    ExtEmit(b, i);
    assert b'.blocks[b.cur].instrs[c.pc] == i;
    assert Step(m, b'.blocks, c) == Some(c') by { hide ExecInstr; }
    ReachStep(m, b'.blocks, c, c');
    hide ExecInstr;
    assert MemoOk(b', c'.regs);
  }

  /** Remembering one more address or cast that is right keeps the memo right. */
  lemma SimMemo(m: Machine, b: Build, c: Config, b': Build, c': Config,
                geps: map<(nat, nat), Operand>, casts: map<LTy, Operand>)
    requires Sim(m, b, c, b', c')
    requires MemoOk(b'.(geps := geps, casts := casts), c'.regs)
    ensures Sim(m, b, c, b'.(geps := geps, casts := casts), c')
  {
  }

  lemma SimTyGEP(m: Machine, b: Build, off: Operand, ty: LTy, c: Config) returns (c': Config)
    requires AtEnd(b, c)
    requires EvalVal(c.regs, off).Some? && EvalVal(c.regs, off).value.n < TWO31
    ensures
      var (b', r) := GetCtxTyGEP(b, off, ty);
      && Sim(m, b, c, b', c') && c'.g == c.g && r.ty == PtrTy(ty)
      && EvalOp(c'.regs, r) == Some(CtxPtr(EvalVal(c.regs, off).value.n * BytesOf(ty)))
      && b'.geps == b.geps
  {
    hide Sim, Reach, Grow;
    var i := CtxCast(b.next, ty);
    var r := Reg(b.next, PtrTy(ty));
    var b1, c1 := b, c;
    var base := r;
    if b.cur != 0 || ty !in b.casts {
      c1 := SimEmit(m, b, i, c);
      b1 := Emit(b, i);
      if b.cur == 0 {
        SimMemo(m, b, c, b1, c1, b1.geps, b.casts[ty := r]);
        b1 := b1.(casts := b.casts[ty := r]);
      }
      SimEnds(m, b, c, b1, c1);
    } else {
      SimRefl(m, b, c);
      base := b.casts[ty];
    }
    KeepsOp(c.regs, c1.regs, off);
    c' := SimEmit(m, b1, Gep(b1.next, ty, base, off), c1);
    SimTrans(m, b, c, b1, c1, Emit(b1, Gep(b1.next, ty, base, off)), c');
  }

  lemma SimEnds(m: Machine, b: Build, c: Config, b': Build, c': Config)
    requires Sim(m, b, c, b', c')
    ensures AtEnd(b, c) && AtEnd(b', c') && Keeps(c.regs, c'.regs) && Grow(b.blocks, b'.blocks)
    ensures Reach(m, b'.blocks, c, c')
  {
  }

  lemma SimNewer(m: Machine, b: Build, c: Config, b': Build, c': Config)
    requires Sim(m, b, c, b', c')
    ensures c.At? && c'.At? && b.next <= b'.next && Newer(c.regs, c'.regs, b.next)
  {
  }

  lemma NewerTrans(r0: Regs, r1: Regs, r2: Regs, n: nat, k: nat)
    requires Newer(r0, r1, n) && Newer(r1, r2, k) && n <= k
    ensures Newer(r0, r2, n)
  {
  }

  lemma NewerRefl(r: Regs, n: nat)
    ensures Newer(r, r, n)
  {
  }

  lemma SimByteGEP(m: Machine, b: Build, off: nat, ty: LTy, c: Config) returns (c': Config)
    requires AtEnd(b, c) && Aligned(off, ty)
    ensures
      var (b', r) := GetCtxByteGEP(b, off, ty);
      && Sim(m, b, c, b', c') && c'.g == c.g && EvalOp(c'.regs, r) == Some(CtxPtr(off))
  {
    hide Sim, Reach, Grow, GetCtxTyGEP;
    var k := (off, BytesOf(ty));
    var units := Imm(Units(off, ty), IntTy(32));
    assert off / BytesOf(ty) * BytesOf(ty) == off;
    if k in b.geps && b.cur == 0 && b.geps[k].ty == PtrTy(ty) {
      c' := c;
      SimRefl(m, b, c);
    } else {
      c' := SimTyGEP(m, b, units, ty, c);
      var (b1, gep) := GetCtxTyGEP(b, units, ty);
      SimEnds(m, b, c, b1, c');
      if k !in b.geps {
        SimMemo(m, b, c, b1, c', b1.geps[k := gep], b1.casts);
        assert b1.(geps := b1.geps[k := gep], casts := b1.casts) == b1.(geps := b1.geps[k := gep]);
      }
    }
  }

  lemma SimReadCtx(m: Machine, b: Build, off: nat, ty: LTy, c: Config) returns (c': Config)
    requires AtEnd(b, c) && Aligned(off, ty)
    ensures
      var (b', r) := ReadCtx(b, off, ty);
      && Sim(m, b, c, b', c') && c'.g == c.g && r.ty == ty
      && EvalVal(c'.regs, r) == Some(Val(BitsOf(ty), Read(c.g.ctx, off, BytesOf(ty))))
  {
    hide Sim, Reach, Grow, GetCtxByteGEP, Aligned;
    var (b1, p) := GetCtxByteGEP(b, off, ty);
    var c1 := SimByteGEP(m, b, off, ty, c);
    SimEnds(m, b, c, b1, c1);
    c' := SimEmit(m, b1, Ld(b1.next, ty, p), c1);
    SimTrans(m, b, c, b1, c1, ReadCtx(b, off, ty).0, c');
  }

  lemma SimWriteCtx(m: Machine, b: Build, off: nat, v: Operand, c: Config) returns (c': Config)
    requires AtEnd(b, c) && Aligned(off, v.ty) && EvalVal(c.regs, v).Some?
    ensures Sim(m, b, c, WriteCtx(b, off, v), c')
    ensures c'.g == PutVal(c.g, off, EvalVal(c.regs, v).value)
  {
    hide Sim, Reach, Grow, GetCtxByteGEP, Aligned;
    var (b1, p) := GetCtxByteGEP(b, off, v.ty);
    var c1 := SimByteGEP(m, b, off, v.ty, c);
    SimEnds(m, b, c, b1, c1);
    KeepsOp(c.regs, c1.regs, v);
    c' := SimEmit(m, b1, St(b1.next, v, p), c1);
    SimTrans(m, b, c, b1, c1, WriteCtx(b, off, v), c');
  }

  /** The wrapped 32-bit index arithmetic selects the element that VEX means. */
  lemma IndexArith(n: nat, bias: int, len: nat)
    requires IndexExact(len, bias)
    ensures (n + bias % TWO32) % TWO32 % len == (n % TWO32 + bias) % len
  {
    var t := TWO32;
    ModSum(bias, n, t);
    ModSum(n, bias, t);
    if bias == 0 {
      assert (n + bias % t) % t == n % t == n % t + bias;
    } else {
      ModMod(n % t + bias, t, len);
    }
  }

  lemma SimArith(m: Machine, b: Build, ak: ArithKind, x: Operand, y: Operand, c: Config)
    returns (c': Config, b': Build)
    requires c.At? && AtEnd(b, c) && EvalVal(c.regs, x).Some? && EvalVal(c.regs, y).Some?
    requires ArithVal(ak, EvalVal(c.regs, x).value.n, EvalVal(c.regs, y).value.n, BitsOf(x.ty)).Some?
    ensures
      var n := ArithVal(ak, EvalVal(c.regs, x).value.n, EvalVal(c.regs, y).value.n, BitsOf(x.ty)).value;
      && b' == Emit(b, Arith(b.next, IntTy(32), ak, x, y))
      && Sim(m, b, c, b', c') && AtEnd(b', c') && c'.At? && c'.g == c.g
      && EvalVal(c'.regs, Reg(b.next, IntTy(32))) == Some(Val(32, n))
  {
    hide ArithVal, Reach, Grow;
    c' := SimEmit(m, b, Arith(b.next, IntTy(32), ak, x, y), c);
    b' := Emit(b, Arith(b.next, IntTy(32), ak, x, y));
  }

  lemma SimBitCast32(m: Machine, b: Build, x: Operand, c: Config) returns (c': Config, b': Build)
    requires AtEnd(b, c) && EvalVal(c.regs, x).Some?
    ensures
      && b' == Emit(b, Cast(b.next, IntTy(32), BitCast, x))
      && Sim(m, b, c, b', c') && AtEnd(b', c') && c'.At? && c'.g == c.g
      && EvalVal(c'.regs, Reg(b.next, IntTy(32))) == Some(Val(32, EvalVal(c.regs, x).value.n))
  {
    hide Reach, Grow;
    c' := SimEmit(m, b, Cast(b.next, IntTy(32), BitCast, x), c);
    b' := Emit(b, Cast(b.next, IntTy(32), BitCast, x));
  }

  /** The three steps of the index computation, as numbers. */
  lemma IndexVals(n: nat, bias: int, len: nat, units: nat)
    requires IndexExact(len, bias) && units + len <= TWO31
    ensures
      var x1 := ArithVal(Add, n, bias % TWO32, 32);
      && x1.Some?
      && var x2 := ArithVal(URem, x1.value, len, 32);
      && x2.Some?
      && var x3 := ArithVal(Add, x2.value, units, 32);
      && x3 == Some((n % TWO32 + bias) % len + units)
      && x3.value < TWO31
  {
    hide IndexExact;
    Pow32();
    IndexPositive(len, bias);
    IndexArith(n, bias, len);
    var r := (n + bias % TWO32) % TWO32 % len;
    assert 0 <= r < len;
    SmallMod(r + units);
  }

  lemma IndexPositive(len: nat, bias: int)
    requires IndexExact(len, bias)
    ensures len > 0
  {
  }

  lemma SmallMod(x: nat)
    requires x < TWO32
    ensures x % TWO32 == x
  {
  }

  lemma SimIndexOffset(m: Machine, b: Build, arr: RegArray, bias: int, ix: Operand, ty: LTy, c: Config)
    returns (c': Config)
    requires c.At? && AtEnd(b, c) && WfArr(arr, bias, ty) && EvalVal(c.regs, ix).Some?
    ensures
      var (b', r) := IndexOffset(b, arr, bias, ix, ty);
      && Sim(m, b, c, b', c') && c'.g == c.g
      && EvalVal(c'.regs, r) == Some(Val(32, Slot(arr, EvalVal(c.regs, ix).value, bias) + Units(arr.base, ty)))
      && EvalVal(c'.regs, r).value.n < TWO31
  {
    hide Sim, Reach, Grow, Emit, MemoOk, Open, Below, ArithVal, IndexExact, AtEnd;
    var i32 := IntTy(32);
    var v := EvalVal(c.regs, ix).value;
    var units := Units(arr.base, ty);
    IndexVals(v.n, bias, arr.nElems, units);
    assert Slot(arr, v, bias) == (v.n % TWO32 + bias) % arr.nElems by { IndexPositive(arr.nElems, bias); }
    hide Units, Slot, WfArr;
    var c1, b1 := SimBitCast32(m, b, ix, c);
    var c2, b2 := SimArith(m, b1, Add, Reg(b.next, i32), Imm(bias % TWO32, i32), c1);
    var c3, b3 := SimArith(m, b2, URem, Reg(b1.next, i32), Imm(arr.nElems, i32), c2);
    var b4;
    c', b4 := SimArith(m, b3, Add, Reg(b2.next, i32), Imm(units, i32), c3);
    SimTrans(m, b, c, b1, c1, b2, c2);
    SimTrans(m, b, c, b2, c2, b3, c3);
    SimTrans(m, b, c, b3, c3, b4, c');
  }

  lemma SlotUnits(arr: RegArray, bias: int, ty: LTy, ix: Val)
    requires WfArr(arr, bias, ty)
    ensures (Slot(arr, ix, bias) + Units(arr.base, ty)) * BytesOf(ty) == SlotOff(arr, ix, bias, BytesOf(ty))
  {
    hide Slot;
    var k := BytesOf(ty);
    assert arr.base / k * k == arr.base;
    assert (Slot(arr, ix, bias) + arr.base / k) * k == Slot(arr, ix, bias) * k + arr.base / k * k;
  }

  lemma SimReadCtxIx(m: Machine, b: Build, arr: RegArray, bias: int, ix: Operand, ty: LTy, c: Config)
    returns (c': Config)
    requires AtEnd(b, c) && WfArr(arr, bias, ty) && EvalVal(c.regs, ix).Some?
    ensures
      var (b', r) := ReadCtxIx(b, arr, bias, ix, ty);
      var off := SlotOff(arr, EvalVal(c.regs, ix).value, bias, BytesOf(ty));
      && Sim(m, b, c, b', c') && c'.g == c.g && r.ty == ty
      && EvalVal(c'.regs, r) == Some(Val(BitsOf(ty), Read(c.g.ctx, off, BytesOf(ty))))
  {
    hide Sim, Reach, Grow, GetCtxTyGEP, IndexOffset, WfArr, Slot, SlotOff, Units;
    var (b1, off) := IndexOffset(b, arr, bias, ix, ty);
    var c1 := SimIndexOffset(m, b, arr, bias, ix, ty, c);
    SimEnds(m, b, c, b1, c1);
    SlotUnits(arr, bias, ty, EvalVal(c.regs, ix).value);
    var c2 := SimTyGEP(m, b1, off, ty, c1);
    var (b2, p) := GetCtxTyGEP(b1, off, ty);
    SimEnds(m, b1, c1, b2, c2);
    c' := SimEmit(m, b2, Ld(b2.next, ty, p), c2);
    SimTrans(m, b, c, b1, c1, b2, c2);
    SimTrans(m, b, c, b2, c2, ReadCtxIx(b, arr, bias, ix, ty).0, c');
  }

  lemma SimWriteCtxIx(m: Machine, b: Build, arr: RegArray, bias: int, ix: Operand, v: Operand, c: Config)
    returns (c': Config)
    requires AtEnd(b, c) && WfArr(arr, bias, v.ty) && EvalVal(c.regs, ix).Some? && EvalVal(c.regs, v).Some?
    ensures Sim(m, b, c, WriteCtxIx(b, arr, bias, ix, v), c')
    ensures c'.g == PutVal(c.g, SlotOff(arr, EvalVal(c.regs, ix).value, bias, BytesOf(v.ty)), EvalVal(c.regs, v).value)
  {
    hide Sim, Reach, Grow, GetCtxTyGEP, IndexOffset, WfArr, Slot, SlotOff, Units;
    var (b1, off) := IndexOffset(b, arr, bias, ix, v.ty);
    var c1 := SimIndexOffset(m, b, arr, bias, ix, v.ty, c);
    SimEnds(m, b, c, b1, c1);
    SlotUnits(arr, bias, v.ty, EvalVal(c.regs, ix).value);
    var c2 := SimTyGEP(m, b1, off, v.ty, c1);
    var (b2, p) := GetCtxTyGEP(b1, off, v.ty);
    SimEnds(m, b1, c1, b2, c2);
    KeepsOp(c.regs, c1.regs, v);
    KeepsOp(c1.regs, c2.regs, v);
    c' := SimEmit(m, b2, St(b2.next, v, p), c2);
    SimTrans(m, b, c, b1, c1, b2, c2);
    SimTrans(m, b, c, b2, c2, WriteCtxIx(b, arr, bias, ix, v), c');
  }

  /** An address operand has the width of guest pointers. */
  predicate AddrTy(m: Machine, ty: LTy) {
    ty == IntTy(if m.is32 then 32 else 64)
  }

  lemma UnrelocBase(m: Machine, n: nat)
    ensures Unreloc(m, n) == Low64(n) || m.base != 0
    ensures Unreloc(m, (n + m.base) % TWO64) == Low64(n)
  {
    var t := TWO64;
    var h := (n + m.base) % t;
    var q := (n + m.base) / t;
    var r := m.base / t;
    assert h + (t - m.base % t) == n + (r - q + 1) * t by {
      assert (r - q + 1) * t == r * t - q * t + t;
    }
    AddMultiple(n, r - q + 1, t);
    if m.base == 0 {
      AddMultiple(n, 1, t);
    }
  }

  lemma SimWiden(m: Machine, b: Build, addr: Operand, c: Config) returns (c': Config)
    requires AtEnd(b, c) && AddrTy(m, addr.ty) && EvalVal(c.regs, addr).Some?
    ensures
      var (b', r) := Widen(m, b, addr);
      && Sim(m, b, c, b', c') && c'.g == c.g && r.ty == IntTy(64)
      && EvalVal(c'.regs, r) == Some(Val(64, EvalVal(c.regs, addr).value.n))
  {
    hide Sim, Reach, Grow, Emit, MemoOk, Open, Below, Keeps;
    if m.is32 {
      c' := SimEmit(m, b, Cast(b.next, IntTy(64), ZExt, addr), c);
    } else {
      c' := c;
      SimRefl(m, b, c);
    }
  }

  lemma SimRebase(m: Machine, b: Build, a: Operand, c: Config) returns (c': Config)
    requires AtEnd(b, c) && a.ty == IntTy(64) && EvalVal(c.regs, a).Some?
    ensures
      var (b', r) := Rebase(m, b, a);
      && Sim(m, b, c, b', c') && c'.g == c.g
      && EvalVal(c'.regs, r).Some?
      && Unreloc(m, EvalVal(c'.regs, r).value.n) == Low64(EvalVal(c.regs, a).value.n)
  {
    hide Sim, Reach, Grow, Emit, MemoOk, Open, Below, Keeps, Unreloc, Low64;
    var n := EvalVal(c.regs, a).value.n;
    UnrelocBase(m, n);
    if m.base == 0 {
      c' := c;
      SimRefl(m, b, c);
    } else {
      Pow32();
      c' := SimEmit(m, b, Arith(b.next, IntTy(64), Add, a, Imm(m.base, IntTy(64))), c);
    }
  }

  lemma SimHostAddr(m: Machine, b: Build, addr: Operand, ty: LTy, c: Config) returns (c': Config)
    requires AtEnd(b, c) && AddrTy(m, addr.ty) && EvalVal(c.regs, addr).Some?
    ensures
      var (b', p) := HostAddr(m, b, addr, ty);
      && Sim(m, b, c, b', c') && c'.g == c.g
      && EvalOp(c'.regs, p).Some? && EvalOp(c'.regs, p).value.HostPtr?
      && Unreloc(m, EvalOp(c'.regs, p).value.addr) == Low64(EvalVal(c.regs, addr).value.n)
  {
    hide Sim, Reach, Grow, Widen, Rebase, Unreloc, Low64;
    var (b1, a1) := Widen(m, b, addr);
    var c1 := SimWiden(m, b, addr, c);
    SimEnds(m, b, c, b1, c1);
    var (b2, a2) := Rebase(m, b1, a1);
    var c2 := SimRebase(m, b1, a1, c1);
    SimEnds(m, b1, c1, b2, c2);
    c' := SimEmit(m, b2, IntToPtr(b2.next, ty, a2), c2);
    SimTrans(m, b, c, b1, c1, b2, c2);
    SimTrans(m, b, c, b2, c2, Emit(b2, IntToPtr(b2.next, ty, a2)), c');
  }

  lemma SimLoadMem(m: Machine, b: Build, addr: Operand, ty: LTy, c: Config) returns (c': Config)
    requires AtEnd(b, c) && AddrTy(m, addr.ty) && EvalVal(c.regs, addr).Some?
    ensures
      var (b', r) := LoadMem(m, b, addr, ty);
      && Sim(m, b, c, b', c') && c'.g == c.g && r.ty == ty
      && EvalVal(c'.regs, r) == Some(LoadVal(c.g, EvalVal(c.regs, addr).value, ty))
  {
    hide Sim, Reach, Grow, HostAddr, Unreloc, Low64;
    var (b1, p) := HostAddr(m, b, addr, ty);
    var c1 := SimHostAddr(m, b, addr, ty, c);
    SimEnds(m, b, c, b1, c1);
    c' := SimEmit(m, b1, Ld(b1.next, ty, p), c1);
    SimTrans(m, b, c, b1, c1, LoadMem(m, b, addr, ty).0, c');
  }

  lemma SimStoreMem(m: Machine, b: Build, addr: Operand, v: Operand, c: Config) returns (c': Config)
    requires AtEnd(b, c) && AddrTy(m, addr.ty) && EvalVal(c.regs, addr).Some? && EvalVal(c.regs, v).Some?
    ensures Sim(m, b, c, StoreMem(m, b, addr, v), c')
    ensures c'.g == StoreVal(c.g, EvalVal(c.regs, addr).value, EvalVal(c.regs, v).value)
  {
    hide Sim, Reach, Grow, HostAddr, Unreloc, Low64;
    var (b1, p) := HostAddr(m, b, addr, v.ty);
    var c1 := SimHostAddr(m, b, addr, v.ty, c);
    SimEnds(m, b, c, b1, c1);
    KeepsOp(c.regs, c1.regs, v);
    c' := SimEmit(m, b1, St(b1.next, v, p), c1);
    SimTrans(m, b, c, b1, c1, StoreMem(m, b, addr, v), c');
  }

  lemma SimFlatten(m: Machine, b: Build, v: Operand, c: Config) returns (c': Config)
    requires AtEnd(b, c) && EvalVal(c.regs, v).Some?
    ensures
      var (b', r) := Flatten(b, v);
      && Sim(m, b, c, b', c') && c'.g == c.g && r.ty == Flat(v.ty)
      && EvalVal(c'.regs, r) == EvalVal(c.regs, v)
  {
    if Flat(v.ty) == v.ty {
      c' := c;
      SimRefl(m, b, c);
    } else {
      c' := SimEmit(m, b, Cast(b.next, Flat(v.ty), BitCast, v), c);
    }
  }
}
