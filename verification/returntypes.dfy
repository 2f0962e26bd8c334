/**
 The type of what an emitted function returns. The function type says 64 bits; guarded exits
 keep to it, and the end of the block does exactly when its jump target is 64 bits wide.
 */
module ReturnTypes {
  import opened Options
  import opened ExitKinds
  import opened VexIR
  import opened VexWf
  import opened LlvmIR
  import opened Builder
  import opened Lowering
  import opened SimExpr
  import opened Emitter

  /** Every return is of the function's return type. */
  predicate ReturnsTyped(bs: seq<Block>) {
    forall k :: 0 <= k < |bs| && bs[k].term.RetVal? ==> bs[k].term.v.ty == IntTy(64)
  }

  predicate Rets(b: Build) {
    ReturnsTyped(b.blocks)
  }

  lemma RetsEmit(b: Build, i: Instr)
    requires Rets(b)
    ensures Rets(Emit(b, i))
  {
  }

  lemma RetsTerm(b: Build, t: Term)
    requires Rets(b) && (t.RetVal? ==> t.v.ty == IntTy(64))
    ensures Rets(Terminate(b, t))
  {
  }

  lemma RetsNew(b: Build)
    requires Rets(b)
    ensures Rets(NewBlock(b))
  {
  }

  lemma RetsMove(b: Build, k: nat)
    requires Rets(b) && k < |b.blocks|
    ensures Rets(MoveTo(b, k))
  {
  }

  lemma RetsTyGEP(b: Build, off: Operand, ty: LTy)
    requires Rets(b)
    ensures Rets(GetCtxTyGEP(b, off, ty).0)
  {
  }

  lemma RetsByteGEP(b: Build, off: nat, ty: LTy)
    requires Rets(b)
    ensures Rets(GetCtxByteGEP(b, off, ty).0)
  {
    RetsTyGEP(b, Imm(Units(off, ty), IntTy(32)), ty);
    hide GetCtxTyGEP;
  }

  lemma RetsWriteCtx(b: Build, off: nat, v: Operand)
    requires Rets(b)
    ensures Rets(Builder.WriteCtx(b, off, v))
  {
    hide GetCtxByteGEP;
    RetsByteGEP(b, off, v.ty);
  }

  lemma RetsReadCtx(b: Build, off: nat, ty: LTy)
    requires Rets(b)
    ensures Rets(Builder.ReadCtx(b, off, ty).0)
  {
    hide GetCtxByteGEP;
    RetsByteGEP(b, off, ty);
  }

  lemma RetsIndex(b: Build, arr: RegArray, bias: int, ix: Operand, ty: LTy)
    requires Rets(b)
    ensures Rets(Builder.IndexOffset(b, arr, bias, ix, ty).0)
  {
  }

  lemma RetsReadCtxIx(b: Build, arr: RegArray, bias: int, ix: Operand, ty: LTy)
    requires Rets(b)
    ensures Rets(Builder.ReadCtxIx(b, arr, bias, ix, ty).0)
  {
    hide Builder.IndexOffset, GetCtxTyGEP;
    RetsIndex(b, arr, bias, ix, ty);
    var (b1, off) := Builder.IndexOffset(b, arr, bias, ix, ty);
    RetsTyGEP(b1, off, ty);
  }

  lemma RetsWriteCtxIx(b: Build, arr: RegArray, bias: int, ix: Operand, v: Operand)
    requires Rets(b)
    ensures Rets(Builder.WriteCtxIx(b, arr, bias, ix, v))
  {
    hide Builder.IndexOffset, GetCtxTyGEP;
    RetsIndex(b, arr, bias, ix, v.ty);
    var (b1, off) := Builder.IndexOffset(b, arr, bias, ix, v.ty);
    RetsTyGEP(b1, off, v.ty);
  }

  lemma RetsHostAddr(m: Machine, b: Build, addr: Operand, ty: LTy)
    requires Rets(b)
    ensures Rets(HostAddr(m, b, addr, ty).0)
  {
  }

  lemma RetsLoadMem(m: Machine, b: Build, addr: Operand, ty: LTy)
    requires Rets(b)
    ensures Rets(LoadMem(m, b, addr, ty).0)
  {
    hide HostAddr;
    RetsHostAddr(m, b, addr, ty);
  }

  lemma RetsStoreMem(m: Machine, b: Build, addr: Operand, v: Operand)
    requires Rets(b)
    ensures Rets(StoreMem(m, b, addr, v))
  {
    hide HostAddr;
    RetsHostAddr(m, b, addr, v.ty);
  }

  lemma RetsMuxBranch(b: Build, c: Operand, zero: nat)
    requires Rets(b) && zero + 1 < |b.blocks|
    ensures Rets(MuxBranch(b, c, zero))
  {
  }

  lemma RetsMuxClose(b: Build, v: Operand, merge: nat, to: nat)
    requires Rets(b) && to < |b.blocks|
    ensures Rets(MuxClose(b, v, merge, to).0)
  {
  }

  lemma RetsMuxOpen(b: Build)
    requires Rets(b)
    ensures Rets(MuxOpen(b))
  {
  }

  lemma {:induction false} RetsExpr(m: Machine, b: Build, vals: Vals, e: Expr)
    requires Rets(b)
    ensures Rets(Lowering.EmitExpr(m, b, vals, e).0)
    decreases e, 0
  {
    hide Rets, Emit, MuxOpen, MuxBranch, MuxClose, LoadMem, Builder.ReadCtx, Builder.ReadCtxIx;
    match e
    case Get(off, ty) => RetsReadCtx(b, off, VexTy2LLVM(ty));
    case GetI(arr, ix, bias) =>
      RetsExpr(m, b, vals, ix);
      var (b1, i) := Lowering.EmitExpr(m, b, vals, ix);
      RetsReadCtxIx(b1, arr, bias, i, VexTy2LLVM(arr.elemTy));
    case RdTmp(t) =>
    case Op(f, rty, args) =>
      RetsExprs(m, b, vals, args);
      var (b1, os) := Lowering.EmitExprs(m, b, vals, args);
      RetsEmit(b1, Apply(b1.next, rty, f, os));
    case Load(lty, addr) =>
      RetsExpr(m, b, vals, addr);
      var (b1, a) := Lowering.EmitExpr(m, b, vals, addr);
      RetsLoadMem(m, b1, a, VexTy2LLVM(lty));
    case Const(c) =>
    case Mux0X(cond, expr0, exprX) =>
      var n := |b.blocks|;
      RetsMuxOpen(b);
      RetsExpr(m, MuxOpen(b), vals, cond);
      var (b1, c) := Lowering.EmitExpr(m, MuxOpen(b), vals, cond);
      RetsMuxBranch(b1, c, n);
      RetsExpr(m, MuxBranch(b1, c, n), vals, exprX);
      var (b2, x) := Lowering.EmitExpr(m, MuxBranch(b1, c, n), vals, exprX);
      RetsMuxClose(b2, x, n + 2, n);
      var (b3, xv) := MuxClose(b2, x, n + 2, n);
      RetsExpr(m, b3, vals, expr0);
      var (b4, z) := Lowering.EmitExpr(m, b3, vals, expr0);
      RetsMuxClose(b4, z, n + 2, n + 2);
      var (b5, zv) := MuxClose(b4, z, n + 2, n + 2);
      RetsEmit(b5, Phi(b5.next, zv.ty, zv, b4.cur, xv, b2.cur));
  }

  lemma {:induction false} RetsExprs(m: Machine, b: Build, vals: Vals, es: seq<Expr>)
    requires Rets(b)
    ensures Rets(Lowering.EmitExprs(m, b, vals, es).0)
    decreases es, 1
  {
    hide Rets;
    if es != [] {
      RetsExpr(m, b, vals, es[0]);
      RetsExprs(m, Lowering.EmitExpr(m, b, vals, es[0]).0, vals, es[1..]);
    }
  }

  lemma RetsSplit(b: Build, o: Operand)
    requires Rets(b)
    ensures Rets(MoveTo(Split(b, o), |b.blocks|))
  {
  }

  lemma RetsJoin(b: Build, k: nat)
    requires Rets(b) && k < |b.blocks|
    ensures Rets(Join(b, k))
  {
  }

  lemma RetsStoreG(m: Machine, b: Build, vals: Vals, addr: Expr, data: Expr, guard: Expr)
    requires Rets(b)
    ensures Rets(Lowering.EmitStoreG(m, b, vals, addr, data, guard))
  {
    hide Rets, Lowering.EmitExpr, StoreMem, Split, Join, MoveTo;
    var (b1, g) := Lowering.EmitExpr(m, b, vals, guard);
    RetsExpr(m, b, vals, guard);
    RetsSplit(b1, g);
    var s := MoveTo(Split(b1, g), |b1.blocks|);
    var (b2, a) := Lowering.EmitExpr(m, s, vals, addr);
    RetsExpr(m, s, vals, addr);
    var (b3, d) := Lowering.EmitExpr(m, b2, vals, data);
    RetsExpr(m, b2, vals, data);
    RetsStoreMem(m, b3, a, d);
    RetsJoin(StoreMem(m, b3, a, d), |b1.blocks| + 1);
  }

  lemma RetsLoadG(m: Machine, b: Build, cvt: LoadGOp, addr: Operand)
    requires Rets(b)
    ensures Rets(EmitLoadG(m, b, cvt, addr).0)
  {
    hide LoadMem;
    RetsLoadMem(m, b, addr, LoadGTy(cvt));
  }

  lemma RetsSplitThree(b: Build, o: Operand)
    requires Rets(b)
    ensures Rets(SplitThree(b, o))
  {
  }

  lemma RetsJoinLoad(b: Build, v: Operand, alt: Operand, yes: nat)
    requires Rets(b) && yes + 2 < |b.blocks|
    ensures Rets(JoinLoad(b, v, alt, yes).0)
  {
  }

  lemma RetsGuardedLoad(m: Machine, b: Build, vals: Vals, cvt: LoadGOp, dst: nat, addr: Expr, alt: Expr, guard: Expr)
    requires Rets(b)
    ensures Rets(EmitGuardedLoad(m, b, vals, cvt, dst, addr, alt, guard).b)
  {
    hide Rets, Lowering.EmitExpr, EmitLoadG, SplitThree, JoinLoad;
    var (b1, g) := Lowering.EmitExpr(m, b, vals, guard);
    RetsExpr(m, b, vals, guard);
    var (b2, a) := Lowering.EmitExpr(m, b1, vals, addr);
    RetsExpr(m, b1, vals, addr);
    var (b3, av) := Lowering.EmitExpr(m, b2, vals, alt);
    RetsExpr(m, b2, vals, alt);
    RetsSplitThree(b3, g);
    RetsLoadG(m, SplitThree(b3, g), cvt, a);
    var (b4, v) := EmitLoadG(m, SplitThree(b3, g), cvt, a);
    RetsJoinLoad(b4, v, av, |b3.blocks|);
  }

  lemma RetsCasSingle(m: Machine, b: Build, vals: Vals, oldLo: nat, addr: Expr, expd: Expr, data: Expr)
    requires Rets(b)
    ensures Rets(EmitCasSingle(m, b, vals, oldLo, addr, expd, data).b)
  {
    hide Rets, Lowering.EmitExpr, LoadMem, StoreMem, Split, Join, MoveTo, Emit;
    var (b1, a) := Lowering.EmitExpr(m, b, vals, addr);
    RetsExpr(m, b, vals, addr);
    var (b2, e) := Lowering.EmitExpr(m, b1, vals, expd);
    RetsExpr(m, b1, vals, expd);
    var (b3, was) := LoadMem(m, b2, a, e.ty);
    RetsLoadMem(m, b2, a, e.ty);
    var b4 := Emit(b3, Arith(b3.next, IntTy(1), ICmpEQ, e, was));
    RetsEmit(b3, Arith(b3.next, IntTy(1), ICmpEQ, e, was));
    var s := MoveTo(Split(b4, Reg(b3.next, IntTy(1))), |b3.blocks|);
    RetsSplit(b4, Reg(b3.next, IntTy(1)));
    var (b6, d) := Lowering.EmitExpr(m, s, vals, data);
    RetsExpr(m, s, vals, data);
    RetsStoreMem(m, b6, a, d);
    RetsJoin(StoreMem(m, b6, a, d), |b3.blocks| + 1);
  }

  lemma RetsCasHigh(m: Machine, b: Build, vals: Vals, a: Operand, e: Operand, was: Operand, expdHi: Expr)
    requires Rets(b)
    ensures Rets(EmitCasHigh(m, b, vals, a, e, was, expdHi).b)
  {
    hide Lowering.EmitExpr, LoadMem;
    var (b1, eHi) := Lowering.EmitExpr(m, b, vals, expdHi);
    RetsExpr(m, b, vals, expdHi);
    var b2 := Emit(b1, Arith(b1.next, a.ty, Add, a, Imm(BytesOf(e.ty), a.ty)));
    RetsLoadMem(m, b2, Reg(b1.next, a.ty), e.ty);
  }

  lemma RetsCasDouble(m: Machine, b: Build, vals: Vals, oldLo: nat, addr: Expr, expd: Expr, data: Expr, hi: CasHi)
    requires Rets(b)
    ensures Rets(EmitCasDouble(m, b, vals, oldLo, addr, expd, data, hi).b)
  {
    hide Rets, Lowering.EmitExpr, LoadMem, StoreMem, Split, Join, MoveTo, Emit, EmitCasHigh;
    var (b1, a) := Lowering.EmitExpr(m, b, vals, addr);
    RetsExpr(m, b, vals, addr);
    var (b2, e) := Lowering.EmitExpr(m, b1, vals, expd);
    RetsExpr(m, b1, vals, expd);
    var (b3, was) := LoadMem(m, b2, a, e.ty);
    RetsLoadMem(m, b2, a, e.ty);
    var h := EmitCasHigh(m, b3, vals, a, e, was, hi.expdHi);
    RetsCasHigh(m, b3, vals, a, e, was, hi.expdHi);
    var s := MoveTo(Split(h.b, h.cmp), |h.b.blocks|);
    RetsSplit(h.b, h.cmp);
    var (b4, d) := Lowering.EmitExpr(m, s, vals, data);
    RetsExpr(m, s, vals, data);
    RetsStoreMem(m, b4, a, d);
    var (b5, d2) := Lowering.EmitExpr(m, StoreMem(m, b4, a, d), vals, data);
    RetsExpr(m, StoreMem(m, b4, a, d), vals, data);
    RetsStoreMem(m, b5, h.aHi, d2);
    RetsJoin(StoreMem(m, b5, h.aHi, d2), |h.b.blocks| + 1);
  }

  lemma RetsCall(m: Machine, b: Build, vals: Vals, f: nat, retTy: LTy, args: seq<Expr>, out: Option<DirtyTmp>)
    requires Rets(b)
    ensures Rets(EmitCall(m, b, vals, f, retTy, args, out).b)
  {
    hide Lowering.EmitExprs, VexTy2LLVM, BitsOf;
    RetsExprs(m, b, vals, args);
  }

  lemma RetsDirty(m: Machine, b: Build, vals: Vals, guard: Expr, f: nat, retTy: LTy, args: seq<Expr>, out: Option<DirtyTmp>)
    requires Rets(b)
    ensures Rets(Lowering.EmitDirty(m, b, vals, guard, f, retTy, args, out).b)
  {
    hide Rets, Lowering.EmitExpr, EmitCall, Split, Join, MoveTo, IsOne;
    var (b1, g) := Lowering.EmitExpr(m, b, vals, guard);
    RetsExpr(m, b, vals, guard);
    if IsOne(g) {
      RetsCall(m, b1, vals, f, retTy, args, out);
    } else {
      var s := MoveTo(Split(b1, g), |b1.blocks|);
      RetsSplit(b1, g);
      RetsCall(m, s, vals, f, retTy, args, out);
      RetsJoin(EmitCall(m, s, vals, f, retTy, args, out).b, |b1.blocks| + 1);
    }
  }

  lemma RetsLeave(m: Machine, b: Build, jk: JumpKind, dst: nat, to: nat)
    requires Rets(b) && to < |b.blocks|
    ensures Rets(EmitLeave(m, b, jk, dst, to))
  {
    hide Builder.WriteCtx, StmtExitType, Low64;
    if StmtExitType(jk).Some? {
      RetsWriteCtx(b, m.exitOff, Imm(StmtExitType(jk).value, IntTy(8)));
    }
  }

  lemma RetsExit(m: Machine, b: Build, vals: Vals, guard: Expr, jk: JumpKind, dst: nat)
    requires Rets(b)
    ensures Rets(Lowering.EmitExit(m, b, vals, guard, jk, dst))
  {
    hide Rets, Lowering.EmitExpr, EmitLeave, NewBlock, MoveTo, Terminate;
    var n := |b.blocks|;
    RetsNew(b);
    RetsNew(NewBlock(b));
    RetsExpr(m, NewBlock(NewBlock(b)), vals, guard);
    var (b1, g) := Lowering.EmitExpr(m, NewBlock(NewBlock(b)), vals, guard);
    RetsTerm(b1, CondBr(g, n, n + 1));
    RetsMove(Terminate(b1, CondBr(g, n, n + 1)), n);
    RetsLeave(m, MoveTo(Terminate(b1, CondBr(g, n, n + 1)), n), jk, dst, n + 1);
  }

  lemma RetsStmt(m: Machine, s: Emitted, st: Stmt)
    requires Rets(s.b)
    ensures Rets(Lowering.EmitStmt(m, s, st).b)
  {
    hide Rets, Lowering.EmitExpr, Emit, Builder.WriteCtx, Builder.WriteCtxIx, StoreMem, Lowering.EmitStoreG, EmitGuardedLoad,
         EmitCasSingle, EmitCasDouble, Lowering.EmitDirty, Lowering.EmitExit;
    var b, vals := s.b, s.vals;
    match st
    case MBE => RetsEmit(b, Fence(b.next));
    case Put(off, data) =>
      RetsExpr(m, b, vals, data);
      var (b1, v) := Lowering.EmitExpr(m, b, vals, data);
      RetsWriteCtx(b1, off, v);
    case PutI(arr, ix, bias, data) =>
      RetsExpr(m, b, vals, data);
      var (b1, v) := Lowering.EmitExpr(m, b, vals, data);
      RetsExpr(m, b1, vals, ix);
      var (b2, i) := Lowering.EmitExpr(m, b1, vals, ix);
      RetsWriteCtxIx(b2, arr, bias, i, v);
    case WrTmp(t, data) => RetsExpr(m, b, vals, data);
    case Store(addr, data) =>
      RetsExpr(m, b, vals, data);
      var (b1, d) := Lowering.EmitExpr(m, b, vals, data);
      RetsExpr(m, b1, vals, addr);
      var (b2, a) := Lowering.EmitExpr(m, b1, vals, addr);
      RetsStoreMem(m, b2, a, d);
    case StoreG(addr, data, guard) => RetsStoreG(m, b, vals, addr, data, guard);
    case LoadG(cvt, dst, addr, alt, guard) => RetsGuardedLoad(m, b, vals, cvt, dst, addr, alt, guard);
    case CAS(oldLo, addr, expdLo, dataLo, hi) =>
      if hi.None? {
        RetsCasSingle(m, b, vals, oldLo, addr, expdLo, dataLo);
      } else {
        RetsCasDouble(m, b, vals, oldLo, addr, expdLo, dataLo, hi.value);
      }
    case Dirty(guard, f, retTy, args, out) => RetsDirty(m, b, vals, guard, f, retTy, args, out);
    case Exit(guard, jk, dst) => RetsExit(m, b, vals, guard, jk, dst);
    case _ =>
  }

  lemma {:induction false} RetsStmts(m: Machine, s: Emitted, ss: seq<Stmt>, sc: Scope)
    requires Rets(s.b) && Typed(s.vals, sc.tt) && s.vals.Keys <= sc.used && WfStmts(ss, sc)
    ensures
      var r := EmitStmts(m, s, ss);
      Rets(r.b) && Typed(r.vals, AfterAll(ss, sc).tt)
    decreases |ss|
  {
    hide Rets, Typed, Lowering.EmitStmt, WfStmt, After;
    if ss != [] {
      RetsStmt(m, s, ss[0]);
      TypedStmt(m, s, ss[0], sc);
      RetsStmts(m, Lowering.EmitStmt(m, s, ss[0]), ss[1..], After(ss[0], sc));
    }
  }

  /** The returns of an emitted function are all of its return type exactly when the jump target at the end is 64 bits wide. */
  lemma ReturnsExact(m: Machine, sb: SB)
    requires WfSB(m, sb)
    ensures ReturnsTyped(EmitSB(m, sb)) <==> TyOf(sb.next, AfterAll(sb.stmts, Empty(m)).tt) == IntTy(64)
  {
    hide EmitStmts, Lowering.EmitExpr, Builder.WriteCtx, WfStmts, WfExpr, Typed, TyOf, AfterAll, BlockExitType;
    var s, sc := EmitStmts(m, Emitted(Begin, map[]), sb.stmts), AfterAll(sb.stmts, Empty(m));
    NoneTyped(m);
    RetsStmts(m, Emitted(Begin, map[]), sb.stmts, Empty(m));
    RetsExpr(m, s.b, s.vals, sb.next);
    TypeExpr(m, s.b, s.vals, sc, sb.next);
    var (b1, v) := Lowering.EmitExpr(m, s.b, s.vals, sb.next);
    var kind := BlockExitType(sb.jk);
    if kind.Some? {
      RetsWriteCtx(b1, m.exitOff, Imm(kind.value, IntTy(8)));
    }
    var b2 := if kind.None? || kind.value == GE_IGNORE then b1 else Builder.SetExitType(m, b1, kind.value);
    assert EmitSB(m, sb) == Terminate(b2, RetVal(v)).blocks;
    LastReturn(b2, v);
  }

  lemma NoneTyped(m: Machine)
    ensures Typed(map[], Empty(m).tt) && Rets(Begin)
  {
  }

  lemma LastReturn(b: Build, v: Operand)
    requires Rets(b)
    ensures ReturnsTyped(Terminate(b, RetVal(v)).blocks) <==> v.ty == IntTy(64)
  {
    assert Terminate(b, RetVal(v)).blocks[b.cur].term == RetVal(v);
  }
}
