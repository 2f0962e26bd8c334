/** The shape of what a statement emits: every block it opens is closed, except the last. */
module StmtShape {
  import opened Options
  import opened ExitKinds
  import opened VexIR
  import opened LlvmIR
  import opened Builder
  import opened Lowering
  import opened Extension

  /** A guarded region: branch, body from b1 to b2, join. */
  lemma TidyGuarded(b: Build, o: Operand, b2: Build)
    requires Open(b)
    requires Tidy(MoveTo(Split(b, o), |b.blocks|), b2)
    ensures |b.blocks| + 1 < |b2.blocks| && b2.cur != |b.blocks| + 1
    ensures Tidy(b, Join(b2, |b.blocks| + 1))
    ensures Join(b2, |b.blocks| + 1).blocks[|b.blocks| + 1] == Block([], NoTerm, Avail(b))
  {
    hide Made, Tidy, Ext, Avail, Split;
    var n := |b.blocks|;
    var b1 := MoveTo(Split(b, o), n);
    TidyRefl(b);
    MadeSplit(b, b, o);
    SplitBlocks(b, o);
    TidyCur(b1, b2);
    MadeThen(b, b1, b2, {n, n + 1});
    assert {n, n + 1} - {n} + {b2.cur} == {b2.cur, n + 1};
    MadeGoto(b, b2, Br(n + 1), n + 1, {b2.cur, n + 1});
    assert {b2.cur, n + 1} - {b2.cur} == {n + 1};
    MadeTidy(b, Join(b2, n + 1));
  }

  lemma TidyEmit(a: Build, b: Build, i: Instr)
    requires Tidy(a, b)
    ensures Tidy(a, Emit(b, i))
  {
    TidyOpen(a, b);
    ExtEmit(b, i);
    TidyLine(b, Emit(b, i));
    TidyTrans(a, b, Emit(b, i));
  }

  lemma TidyThenExpr(m: Machine, a: Build, b: Build, vals: Vals, e: Expr)
    requires Tidy(a, b)
    ensures Tidy(a, EmitExpr(m, b, vals, e).0)
  {
    TidyOpen(a, b);
    TidyExpr(m, b, vals, e);
    TidyTrans(a, b, EmitExpr(m, b, vals, e).0);
  }

  lemma TidyThenLoad(m: Machine, a: Build, b: Build, addr: Operand, ty: LTy)
    requires Tidy(a, b)
    ensures Tidy(a, LoadMem(m, b, addr, ty).0)
  {
    TidyOpen(a, b);
    ExtLoadMem(m, b, addr, ty);
    TidyLine(b, LoadMem(m, b, addr, ty).0);
    TidyTrans(a, b, LoadMem(m, b, addr, ty).0);
  }

  lemma TidyThenStore(m: Machine, a: Build, b: Build, addr: Operand, v: Operand)
    requires Tidy(a, b)
    ensures Tidy(a, StoreMem(m, b, addr, v))
  {
    TidyOpen(a, b);
    ExtStoreMem(m, b, addr, v);
    TidyLine(b, StoreMem(m, b, addr, v));
    TidyTrans(a, b, StoreMem(m, b, addr, v));
  }

  lemma TidyCall(m: Machine, b: Build, vals: Vals, f: nat, retTy: LTy, args: seq<Expr>, out: Option<DirtyTmp>)
    requires Open(b)
    ensures Tidy(b, EmitCall(m, b, vals, f, retTy, args, out).b)
  {
    hide Made, Tidy, Ext, Emit, Open, EmitExprs;
    var (b1, os) := EmitExprs(m, b, vals, args);
    TidyExprs(m, b, vals, args);
    TidyEmit(b, b1, CallDirty(b1.next, retTy, f, os));
    var b2 := Emit(b1, CallDirty(b1.next, retTy, f, os));
    var ret := Reg(b1.next, retTy);
    if out.Some? {
      var to := VexTy2LLVM(out.value.ty);
      TidyEmit(b, b2, Cast(b2.next, to, ZExt, ret));
      TidyEmit(b, b2, Cast(b2.next, to, Trunc, ret));
    }
  }

  lemma TidyStoreG(m: Machine, b: Build, vals: Vals, addr: Expr, data: Expr, guard: Expr)
    requires Open(b)
    ensures Tidy(b, EmitStoreG(m, b, vals, addr, data, guard))
  {
    hide Made, Tidy, Ext, Open, EmitExpr, Split, Join, StoreMem;
    var (b1, g) := EmitExpr(m, b, vals, guard);
    TidyExpr(m, b, vals, guard);
    TidyOpen(b, b1);
    var n := |b1.blocks|;
    var s := MoveTo(Split(b1, g), n);
    SplitOpen(b1, g);
    TidyRefl(s);
    var (b2, a) := EmitExpr(m, s, vals, addr);
    TidyThenExpr(m, s, s, vals, addr);
    var (b3, d) := EmitExpr(m, b2, vals, data);
    TidyThenExpr(m, s, b2, vals, data);
    TidyThenStore(m, s, b3, a, d);
    TidyGuarded(b1, g, StoreMem(m, b3, a, d));
    TidyTrans(b, b1, Join(StoreMem(m, b3, a, d), n + 1));
  }

  lemma SplitOpen(b: Build, o: Operand)
    ensures Open(MoveTo(Split(b, o), |b.blocks|))
  {
  }

  lemma TidyCasSingle(m: Machine, b: Build, vals: Vals, oldLo: nat, addr: Expr, expd: Expr, data: Expr)
    requires Open(b)
    ensures Tidy(b, EmitCasSingle(m, b, vals, oldLo, addr, expd, data).b)
  {
    hide Made, Tidy, Ext, Open, EmitExpr, Split, Join, StoreMem, LoadMem, Emit;
    TidyRefl(b);
    var (b1, a) := EmitExpr(m, b, vals, addr);
    TidyThenExpr(m, b, b, vals, addr);
    var (b2, e) := EmitExpr(m, b1, vals, expd);
    TidyThenExpr(m, b, b1, vals, expd);
    var (b3, was) := LoadMem(m, b2, a, e.ty);
    TidyThenLoad(m, b, b2, a, e.ty);
    var b4 := Emit(b3, Arith(b3.next, IntTy(1), ICmpEQ, e, was));
    TidyEmit(b, b3, Arith(b3.next, IntTy(1), ICmpEQ, e, was));
    TidyOpen(b, b4);
    var o, n := Reg(b3.next, IntTy(1)), |b4.blocks|;
    var s := MoveTo(Split(b4, o), n);
    SplitOpen(b4, o);
    TidyRefl(s);
    var (b6, d) := EmitExpr(m, s, vals, data);
    TidyThenExpr(m, s, s, vals, data);
    TidyThenStore(m, s, b6, a, d);
    TidyGuarded(b4, o, StoreMem(m, b6, a, d));
    TidyTrans(b, b4, Join(StoreMem(m, b6, a, d), n + 1));
  }

  lemma TidyCasHigh(m: Machine, a0: Build, b: Build, vals: Vals, a: Operand, e: Operand, was: Operand, expdHi: Expr)
    requires Tidy(a0, b)
    ensures Tidy(a0, EmitCasHigh(m, b, vals, a, e, was, expdHi).b)
  {
    hide Made, Tidy, Ext, Open, EmitExpr, LoadMem, Emit;
    var i1 := IntTy(1);
    var (b1, eHi) := EmitExpr(m, b, vals, expdHi);
    TidyThenExpr(m, a0, b, vals, expdHi);
    var b2 := Emit(b1, Arith(b1.next, a.ty, Add, a, Imm(BytesOf(e.ty), a.ty)));
    TidyEmit(a0, b1, Arith(b1.next, a.ty, Add, a, Imm(BytesOf(e.ty), a.ty)));
    var (b3, wasHi) := LoadMem(m, b2, Reg(b1.next, a.ty), e.ty);
    TidyThenLoad(m, a0, b2, Reg(b1.next, a.ty), e.ty);
    var b4 := Emit(b3, Arith(b3.next, i1, ICmpEQ, e, was));
    TidyEmit(a0, b3, Arith(b3.next, i1, ICmpEQ, e, was));
    var b5 := Emit(b4, Arith(b4.next, i1, ICmpEQ, eHi, wasHi));
    TidyEmit(a0, b4, Arith(b4.next, i1, ICmpEQ, eHi, wasHi));
    TidyEmit(a0, b5, Arith(b5.next, i1, ICmpEQ, Reg(b3.next, i1), Reg(b4.next, i1)));
  }

  lemma TidyCasDouble(m: Machine, b: Build, vals: Vals, oldLo: nat, addr: Expr, expd: Expr, data: Expr, hi: CasHi)
    requires Open(b)
    ensures Tidy(b, EmitCasDouble(m, b, vals, oldLo, addr, expd, data, hi).b)
  {
    hide Made, Tidy, Ext, Open, EmitExpr, Split, Join, StoreMem, LoadMem, Emit, EmitCasHigh;
    TidyRefl(b);
    var (b1, a) := EmitExpr(m, b, vals, addr);
    TidyThenExpr(m, b, b, vals, addr);
    var (b2, e) := EmitExpr(m, b1, vals, expd);
    TidyThenExpr(m, b, b1, vals, expd);
    var (b3, was) := LoadMem(m, b2, a, e.ty);
    TidyThenLoad(m, b, b2, a, e.ty);
    var h := EmitCasHigh(m, b3, vals, a, e, was, hi.expdHi);
    TidyCasHigh(m, b, b3, vals, a, e, was, hi.expdHi);
    TidyOpen(b, h.b);
    var n := |h.b.blocks|;
    var s := MoveTo(Split(h.b, h.cmp), n);
    SplitOpen(h.b, h.cmp);
    TidyRefl(s);
    var (b4, d) := EmitExpr(m, s, vals, data);
    TidyThenExpr(m, s, s, vals, data);
    TidyThenStore(m, s, b4, a, d);
    var (b5, d2) := EmitExpr(m, StoreMem(m, b4, a, d), vals, data);
    TidyThenExpr(m, s, StoreMem(m, b4, a, d), vals, data);
    TidyThenStore(m, s, b5, h.aHi, d2);
    TidyGuarded(h.b, h.cmp, StoreMem(m, b5, h.aHi, d2));
    TidyTrans(b, h.b, Join(StoreMem(m, b5, h.aHi, d2), n + 1));
  }

  lemma TidyDirty(m: Machine, b: Build, vals: Vals, guard: Expr, f: nat, retTy: LTy, args: seq<Expr>,
                  out: Option<DirtyTmp>)
    requires Open(b)
    ensures Tidy(b, EmitDirty(m, b, vals, guard, f, retTy, args, out).b)
  {
    hide Made, Tidy, Ext, Open, EmitExpr, Split, Join, EmitCall;
    var (b1, g) := EmitExpr(m, b, vals, guard);
    TidyExpr(m, b, vals, guard);
    TidyOpen(b, b1);
    if IsOne(g) {
      TidyCall(m, b1, vals, f, retTy, args, out);
      TidyTrans(b, b1, EmitCall(m, b1, vals, f, retTy, args, out).b);
    } else {
      var n := |b1.blocks|;
      var s := MoveTo(Split(b1, g), n);
      SplitOpen(b1, g);
      TidyCall(m, s, vals, f, retTy, args, out);
      var c := EmitCall(m, s, vals, f, retTy, args, out);
      TidyGuarded(b1, g, c.b);
      TidyTrans(b, b1, Join(c.b, n + 1));
    }
  }

  lemma TidyLoadG(m: Machine, b: Build, cvt: LoadGOp, addr: Operand)
    requires Open(b)
    ensures Tidy(b, EmitLoadG(m, b, cvt, addr).0)
  {
    hide Made, Tidy, Ext, Open, LoadMem, Emit;
    TidyRefl(b);
    TidyThenLoad(m, b, b, addr, LoadGTy(cvt));
    var (b1, v) := LoadMem(m, b, addr, LoadGTy(cvt));
    TidyEmit(b, b1, Cast(b1.next, IntTy(32), ZExt, v));
    TidyEmit(b, b1, Cast(b1.next, IntTy(32), SExt, v));
  }

  lemma SplitThreeBlocks(b: Build, o: Operand)
    requires Open(b)
    ensures Made(b, SplitThree(b, o), {|b.blocks|, |b.blocks| + 1, |b.blocks| + 2})
    ensures forall k :: |b.blocks| <= k < |b.blocks| + 3 ==> SplitThree(b, o).blocks[k] == Block([], NoTerm, Avail(b))
    ensures Grow(Terminate(b, CondBr(o, |b.blocks|, |b.blocks| + 1)).blocks, SplitThree(b, o).blocks)
  {
  }

  lemma MadeJoinLoad(a: Build, b: Build, v: Operand, alt: Operand, yes: nat)
    requires Made(a, b, {b.cur, yes + 1, yes + 2}) && b.cur == yes && |a.blocks| <= yes
    ensures yes + 2 < |b.blocks| && Tidy(a, JoinLoad(b, v, alt, yes).0)
  {
    hide Made, Tidy, Ext, Emit;
    MadeGoto(a, b, Br(yes + 2), yes + 1, {b.cur, yes + 1, yes + 2});
    var b1 := MoveTo(Terminate(b, Br(yes + 2)), yes + 1);
    assert {b.cur, yes + 1, yes + 2} - {b.cur} == {yes + 1, yes + 2};
    MadeGoto(a, b1, Br(yes + 2), yes + 2, {yes + 1, yes + 2});
    assert {yes + 1, yes + 2} - {yes + 1} == {yes + 2};
    var b2 := Join(b1, yes + 2);
    MadeTidy(a, b2);
    TidyEmit(a, b2, Phi(b2.next, v.ty, v, yes, alt, yes + 1));
  }

  lemma MadeTidy(a: Build, b: Build)
    requires Made(a, b, {b.cur})
    ensures Tidy(a, b)
  {
  }

  lemma TidyGuardedLoad(m: Machine, b: Build, vals: Vals, cvt: LoadGOp, dst: nat, addr: Expr, alt: Expr, guard: Expr)
    requires Open(b)
    ensures Tidy(b, EmitGuardedLoad(m, b, vals, cvt, dst, addr, alt, guard).b)
  {
    hide Made, Tidy, Ext, Open, EmitExpr, SplitThree, JoinLoad, EmitLoadG;
    TidyRefl(b);
    var (b1, g) := EmitExpr(m, b, vals, guard);
    TidyThenExpr(m, b, b, vals, guard);
    var (b2, a) := EmitExpr(m, b1, vals, addr);
    TidyThenExpr(m, b, b1, vals, addr);
    var (b3, av) := EmitExpr(m, b2, vals, alt);
    TidyThenExpr(m, b, b2, vals, alt);
    TidyOpen(b, b3);
    var n := |b3.blocks|;
    var s := SplitThree(b3, g);
    SplitThreeBlocks(b3, g);
    MadeOpen(b3, s, {n, n + 1, n + 2});
    var (b4, v) := EmitLoadG(m, s, cvt, a);
    TidyLoadG(m, s, cvt, a);
    MadeThen(b3, s, b4, {n, n + 1, n + 2});
    assert {n, n + 1, n + 2} - {n} + {b4.cur} == {b4.cur, n + 1, n + 2};
    MadeJoinLoad(b3, b4, v, av, n);
    TidyTrans(b, b3, JoinLoad(b4, v, av, n).0);
  }

  lemma MadeLeave(m: Machine, a: Build, b: Build, jk: JumpKind, dst: nat, to: nat)
    requires Made(a, b, {b.cur, to}) && to != b.cur && |a.blocks| <= to
    ensures to < |b.blocks| && Tidy(a, EmitLeave(m, b, jk, dst, to))
  {
    hide Made, Tidy, Ext, WriteCtx;
    MadeOpen(a, b, {b.cur, to});
    var b1 := if jk == Boring || StmtExitType(jk).None? then b else SetExitType(m, b, StmtExitType(jk).value);
    if b1 == b {
      TidyRefl(b);
    } else {
      ExtWriteCtx(b, m.exitOff, Imm(StmtExitType(jk).value, IntTy(8)));
      TidyLine(b, b1);
    }
    MadeThen(a, b, b1, {b.cur, to});
    assert {b.cur, to} - {b.cur} + {b1.cur} == {b1.cur, to};
    MadeGoto(a, b1, RetVal(Imm(Low64(dst), IntTy(64))), to, {b1.cur, to});
    assert {b1.cur, to} - {b1.cur} == {to};
    MadeTidy(a, EmitLeave(m, b, jk, dst, to));
  }

  /** The blocks of a guarded exit are still empty when they are entered. */
  lemma ExitFacts(m: Machine, b: Build, vals: Vals, guard: Expr)
    requires Open(b)
    ensures
      var n := |b.blocks|;
      var b0 := NewBlock(NewBlock(b));
      var (b1, g) := EmitExpr(m, b0, vals, guard);
      && Open(b0) && b0.blocks[b.cur] == b.blocks[b.cur] && Grow(b.blocks, b0.blocks)
      && n + 1 < |b1.blocks| && b1.cur != n && b1.cur != n + 1
      && b1.blocks[n] == b1.blocks[n + 1] == Block([], NoTerm, Avail(b))
      && Made(b, MoveTo(Terminate(b1, CondBr(g, n, n + 1)), n), {n, n + 1})
  {
    hide *;
    var n := |b.blocks|;
    var b0 := NewBlock(NewBlock(b));
    MadeTwo(b);
    var (b1, g) := EmitExpr(m, b0, vals, guard);
    MadeOpen(b, b0, {b.cur, n, n + 1});
    TidyExpr(m, b0, vals, guard);
    TidyCur(b0, b1);
    MadeThen(b, b0, b1, {b.cur, n, n + 1});
    assert {b.cur, n, n + 1} - {b.cur} + {b1.cur} == {b1.cur, n, n + 1};
    MadeGoto(b, b1, CondBr(g, n, n + 1), n, {b1.cur, n, n + 1});
    assert {b1.cur, n, n + 1} - {b1.cur} == {n, n + 1};
  }

  lemma MadeTwo(b: Build)
    requires Open(b)
    ensures
      var b0 := NewBlock(NewBlock(b));
      && Made(b, b0, {b.cur, |b.blocks|, |b.blocks| + 1})
      && b0.blocks[|b.blocks|] == b0.blocks[|b.blocks| + 1] == Block([], NoTerm, Avail(b))
      && b0.blocks[b.cur] == b.blocks[b.cur] && Grow(b.blocks, b0.blocks)
  {
  }

  lemma TidyExit(m: Machine, b: Build, vals: Vals, guard: Expr, jk: JumpKind, dst: nat)
    requires Open(b)
    ensures Tidy(b, EmitExit(m, b, vals, guard, jk, dst))
  {
    hide Made, Tidy, Ext, Open, EmitExpr, EmitLeave, MoveTo, NewBlock, Terminate, Grow, Avail;
    ExitFacts(m, b, vals, guard);
    var n := |b.blocks|;
    var (b1, g) := EmitExpr(m, NewBlock(NewBlock(b)), vals, guard);
    MadeLeave(m, b, MoveTo(Terminate(b1, CondBr(g, n, n + 1)), n), jk, dst, n + 1);
  }

  lemma TidyStmt(m: Machine, s: Emitted, st: Stmt)
    requires Open(s.b)
    ensures Tidy(s.b, EmitStmt(m, s, st).b)
  {
    hide Made, Tidy, Ext, Open, EmitExpr, WriteCtx, WriteCtxIx, StoreMem, EmitStoreG, EmitGuardedLoad, EmitCasSingle,
         EmitCasDouble, EmitDirty, EmitExit, Emit;
    var b, vals := s.b, s.vals;
    TidyRefl(b);
    match st
    case NoOp =>
    case IMark(_, _) =>
    case AbiHint =>
    case MBE => TidyEmit(b, b, Fence(b.next));
    case Put(off, data) =>
      TidyThenExpr(m, b, b, vals, data);
      var (b1, v) := EmitExpr(m, b, vals, data);
      TidyOpen(b, b1);
      ExtWriteCtx(b1, off, v);
      TidyLine(b1, WriteCtx(b1, off, v));
      TidyTrans(b, b1, WriteCtx(b1, off, v));
    case PutI(arr, ix, bias, data) =>
      TidyThenExpr(m, b, b, vals, data);
      var (b1, v) := EmitExpr(m, b, vals, data);
      TidyThenExpr(m, b, b1, vals, ix);
      var (b2, i) := EmitExpr(m, b1, vals, ix);
      TidyOpen(b, b2);
      ExtWriteCtxIx(b2, arr, bias, i, v);
      TidyLine(b2, WriteCtxIx(b2, arr, bias, i, v));
      TidyTrans(b, b2, WriteCtxIx(b2, arr, bias, i, v));
    case WrTmp(t, data) => TidyThenExpr(m, b, b, vals, data);
    case Store(addr, data) =>
      TidyThenExpr(m, b, b, vals, data);
      var (b1, d) := EmitExpr(m, b, vals, data);
      TidyThenExpr(m, b, b1, vals, addr);
      var (b2, a) := EmitExpr(m, b1, vals, addr);
      TidyThenStore(m, b, b2, a, d);
    case StoreG(addr, data, guard) => TidyStoreG(m, b, vals, addr, data, guard);
    case LoadG(cvt, dst, addr, alt, guard) => TidyGuardedLoad(m, b, vals, cvt, dst, addr, alt, guard);
    case CAS(oldLo, addr, expdLo, dataLo, hi) =>
      if hi.None? {
        TidyCasSingle(m, b, vals, oldLo, addr, expdLo, dataLo);
      } else {
        TidyCasDouble(m, b, vals, oldLo, addr, expdLo, dataLo, hi.value);
      }
    case Dirty(guard, f, retTy, args, out) => TidyDirty(m, b, vals, guard, f, retTy, args, out);
    case Exit(guard, jk, dst) => TidyExit(m, b, vals, guard, jk, dst);
  }

  lemma {:induction false} TidyStmts(m: Machine, s: Emitted, ss: seq<Stmt>)
    requires Open(s.b)
    ensures Tidy(s.b, EmitStmts(m, s, ss).b)
    decreases |ss|
  {
    hide Made, Tidy, Ext, Open, EmitStmt;
    if ss == [] {
      TidyRefl(s.b);
    } else {
      var s1 := EmitStmt(m, s, ss[0]);
      TidyStmt(m, s, ss[0]);
      TidyOpen(s.b, s1.b);
      TidyStmts(m, s1, ss[1..]);
      TidyTrans(s.b, s1.b, EmitStmts(m, s1, ss[1..]).b);
    }
  }

  /** Every block of an emitted function ends in a terminator. */
  lemma EveryBlockClosed(m: Machine, sb: SB)
    ensures forall k :: 0 <= k < |EmitSB(m, sb)| ==> EmitSB(m, sb)[k].term != NoTerm
  {
    var s := EmitStmts(m, Emitted(Begin, map[]), sb.stmts);
    TidyStmts(m, Emitted(Begin, map[]), sb.stmts);
    TidyThenExpr(m, Begin, s.b, s.vals, sb.next);
    var (b1, v) := EmitExpr(m, s.b, s.vals, sb.next);
    var kind := BlockExitType(sb.jk);
    var b2 := if kind.None? || kind.value == GE_IGNORE then b1 else SetExitType(m, b1, kind.value);
    TidySetExit(m, Begin, b1, sb.jk);
    hide EmitStmts, EmitExpr, SetExitType;
  }

  lemma TidySetExit(m: Machine, a: Build, b: Build, jk: JumpKind)
    requires Tidy(a, b)
    ensures
      var kind := BlockExitType(jk);
      Tidy(a, if kind.None? || kind.value == GE_IGNORE then b else SetExitType(m, b, kind.value))
  {
    var kind := BlockExitType(jk);
    if kind.Some? {
      TidyOpen(a, b);
      ExtWriteCtx(b, m.exitOff, Imm(kind.value, IntTy(8)));
      hide Made, Ext, WriteCtx;
      TidyLine(b, SetExitType(m, b, kind.value));
      TidyTrans(a, b, SetExitType(m, b, kind.value));
    }
  }
}
