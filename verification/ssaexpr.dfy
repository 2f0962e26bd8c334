/** Straight-line emission and expressions keep the function sound. */
module SsaExpr {
  import opened Bits
  import opened VexIR
  import opened VexWf
  import opened LlvmIR
  import opened Builder
  import opened Lowering
  import opened Extension
  import opened Ssa

  /** The values of the usable temporaries are defined here. */
  predicate ValsIn(vals: Vals, tt: map<nat, LTy>, b: Build) {
    forall t :: t in tt ==> t in vals && In(vals[t], b)
  }

  lemma ValsFlow(vals: Vals, tt: map<nat, LTy>, a: Build, b: Build)
    requires ValsIn(vals, tt, a) && Avail(a) <= Avail(b)
    ensures ValsIn(vals, tt, b)
  {
  }

  lemma ImmIn(n: nat, ty: LTy, b: Build)
    ensures In(Imm(n, ty), b)
  {
  }

  /** One more instruction over defined operands. */
  lemma FlowEmit(a: Build, b: Build, i: Instr)
    requires Flow(a, b) && i.id == b.next && !i.Phi? && Uses(i) <= Avail(b)
    ensures Flow(a, Emit(b, i)) && Flow(b, Emit(b, i)) && forall ty :: In(Reg(i.id, ty), Emit(b, i))
  {
    hide Sound, Edges, Avail;
    FlowSound(a, b);
    SoundEmit(b, i);
    FlowTrans(a, b, Emit(b, i));
  }

  lemma FlowMemo(a: Build, b: Build, geps: map<(nat, nat), Operand>, casts: map<LTy, Operand>)
    requires Flow(a, b) && MemoIn(b.(geps := geps, casts := casts))
    ensures Flow(a, b.(geps := geps, casts := casts))
  {
  }

  lemma FlowTyGEP(b: Build, off: Operand, ty: LTy)
    requires Sound(b) && In(off, b)
    ensures Flow(b, GetCtxTyGEP(b, off, ty).0) && In(GetCtxTyGEP(b, off, ty).1, GetCtxTyGEP(b, off, ty).0)
    ensures GetCtxTyGEP(b, off, ty).0.geps == b.geps
  {
    hide Flow, Dominated, Single, Edges;
    FlowRefl(b);
    var i := CtxCast(b.next, ty);
    var r := Reg(b.next, PtrTy(ty));
    var b1, base := b, r;
    if b.cur != 0 || ty !in b.casts {
      FlowEmit(b, b, i);
      b1 := Emit(b, i);
      FlowSound(b, b1);
      if b.cur == 0 {
        FlowMemo(b, b1, b1.geps, b.casts[ty := r]);
        b1 := b1.(casts := b.casts[ty := r]);
      }
    } else {
      base := b.casts[ty];
    }
    FlowIn(b, b1, off);
    FlowEmit(b, b1, Gep(b1.next, ty, base, off));
  }

  lemma FlowByteGEP(b: Build, off: nat, ty: LTy)
    requires Sound(b)
    ensures Flow(b, GetCtxByteGEP(b, off, ty).0) && In(GetCtxByteGEP(b, off, ty).1, GetCtxByteGEP(b, off, ty).0)
  {
    hide Flow, Dominated, Single, Edges, GetCtxTyGEP;
    FlowRefl(b);
    var k := (off, BytesOf(ty));
    if !(k in b.geps && b.cur == 0 && b.geps[k].ty == PtrTy(ty)) {
      var units := Imm(Units(off, ty), IntTy(32));
      FlowTyGEP(b, units, ty);
      var (b1, gep) := GetCtxTyGEP(b, units, ty);
      FlowSound(b, b1);
      if k !in b.geps {
        FlowMemo(b, b1, b1.geps[k := gep], b1.casts);
        assert b1.(geps := b1.geps[k := gep], casts := b1.casts) == b1.(geps := b1.geps[k := gep]);
      }
    }
  }

  lemma FlowReadCtx(b: Build, off: nat, ty: LTy)
    requires Sound(b)
    ensures Flow(b, ReadCtx(b, off, ty).0) && In(ReadCtx(b, off, ty).1, ReadCtx(b, off, ty).0)
  {
    hide Flow, GetCtxByteGEP, Emit;
    FlowByteGEP(b, off, ty);
    var (b1, p) := GetCtxByteGEP(b, off, ty);
    FlowEmit(b, b1, Ld(b1.next, ty, p));
  }

  lemma FlowWriteCtx(b: Build, off: nat, v: Operand)
    requires Sound(b) && In(v, b)
    ensures Flow(b, WriteCtx(b, off, v))
  {
    hide Flow, GetCtxByteGEP, Emit;
    FlowByteGEP(b, off, v.ty);
    var (b1, p) := GetCtxByteGEP(b, off, v.ty);
    FlowIn(b, b1, v);
    FlowEmit(b, b1, St(b1.next, v, p));
  }

  lemma FlowIndexOffset(b: Build, arr: RegArray, bias: int, ix: Operand, ty: LTy)
    requires Sound(b) && In(ix, b)
    ensures
      var (b', r) := IndexOffset(b, arr, bias, ix, ty);
      Flow(b, b') && In(r, b')
  {
    hide Flow, Emit, Avail, Units;
    var i32 := IntTy(32);
    FlowRefl(b);
    var i1 := Cast(b.next, i32, BitCast, ix);
    FlowEmit(b, b, i1);
    var b1 := Emit(b, i1);
    var i2 := Arith(b1.next, i32, Add, Reg(b.next, i32), Imm(bias % TWO32, i32));
    FlowEmit(b, b1, i2);
    var b2 := Emit(b1, i2);
    var i3 := Arith(b2.next, i32, URem, Reg(b1.next, i32), Imm(arr.nElems, i32));
    FlowEmit(b, b2, i3);
    var b3 := Emit(b2, i3);
    FlowEmit(b, b3, Arith(b3.next, i32, Add, Reg(b2.next, i32), Imm(Units(arr.base, ty), i32)));
  }

  lemma FlowReadCtxIx(b: Build, arr: RegArray, bias: int, ix: Operand, ty: LTy)
    requires Sound(b) && In(ix, b)
    ensures
      var (b', r) := ReadCtxIx(b, arr, bias, ix, ty);
      Flow(b, b') && In(r, b')
  {
    hide Flow, Emit, IndexOffset, GetCtxTyGEP;
    FlowIndexOffset(b, arr, bias, ix, ty);
    var (b1, off) := IndexOffset(b, arr, bias, ix, ty);
    FlowSound(b, b1);
    FlowTyGEP(b1, off, ty);
    var (b2, p) := GetCtxTyGEP(b1, off, ty);
    FlowTrans(b, b1, b2);
    FlowEmit(b, b2, Ld(b2.next, ty, p));
  }

  lemma FlowWriteCtxIx(b: Build, arr: RegArray, bias: int, ix: Operand, v: Operand)
    requires Sound(b) && In(ix, b) && In(v, b)
    ensures Flow(b, WriteCtxIx(b, arr, bias, ix, v))
  {
    hide Flow, Emit, IndexOffset, GetCtxTyGEP;
    FlowIndexOffset(b, arr, bias, ix, v.ty);
    var (b1, off) := IndexOffset(b, arr, bias, ix, v.ty);
    FlowSound(b, b1);
    FlowTyGEP(b1, off, v.ty);
    var (b2, p) := GetCtxTyGEP(b1, off, v.ty);
    FlowTrans(b, b1, b2);
    FlowIn(b, b2, v);
    FlowEmit(b, b2, St(b2.next, v, p));
  }

  lemma FlowHostAddr(m: Machine, b: Build, addr: Operand, ty: LTy)
    requires Sound(b) && In(addr, b)
    ensures
      var (b', r) := HostAddr(m, b, addr, ty);
      Flow(b, b') && In(r, b')
  {
    hide Flow, Emit, Avail;
    FlowRefl(b);
    var (b1, a1) := Widen(m, b, addr);
    if m.is32 {
      FlowEmit(b, b, Cast(b.next, IntTy(64), ZExt, addr));
    }
    assert Flow(b, b1) && In(a1, b1);
    var (b2, a2) := Rebase(m, b1, a1);
    if m.base != 0 {
      FlowEmit(b, b1, Arith(b1.next, IntTy(64), Add, a1, Imm(m.base, IntTy(64))));
    }
    FlowEmit(b, b2, IntToPtr(b2.next, ty, a2));
  }

  lemma FlowLoadMem(m: Machine, b: Build, addr: Operand, ty: LTy)
    requires Sound(b) && In(addr, b)
    ensures
      var (b', r) := LoadMem(m, b, addr, ty);
      Flow(b, b') && In(r, b')
  {
    hide Flow, Emit, HostAddr;
    FlowHostAddr(m, b, addr, ty);
    var (b1, p) := HostAddr(m, b, addr, ty);
    FlowEmit(b, b1, Ld(b1.next, ty, p));
  }

  lemma FlowStoreMem(m: Machine, b: Build, addr: Operand, v: Operand)
    requires Sound(b) && In(addr, b) && In(v, b)
    ensures Flow(b, StoreMem(m, b, addr, v))
  {
    hide Flow, Emit, HostAddr;
    FlowHostAddr(m, b, addr, v.ty);
    var (b1, p) := HostAddr(m, b, addr, v.ty);
    FlowIn(b, b1, v);
    FlowEmit(b, b1, St(b1.next, v, p));
  }

  lemma FlowFlatten(b: Build, v: Operand)
    requires Sound(b) && In(v, b)
    ensures
      var (b', r) := Flatten(b, v);
      Flow(b, b') && In(r, b')
  {
    hide Flow, Emit, Avail;
    FlowRefl(b);
    if Flat(v.ty) != v.ty {
      FlowEmit(b, b, Cast(b.next, Flat(v.ty), BitCast, v));
    }
  }

  // ---- if-then-else

  /** An empty block that counts on d. */
  predicate Waiting(b: Build, k: nat, d: set<nat>) {
    0 < k < |b.blocks| && b.blocks[k] == Block([], NoTerm, d)
  }

  lemma FlowMuxOpen(b: Build)
    requires Sound(b)
    ensures Flow(b, MuxOpen(b)) && Avail(MuxOpen(b)) == Avail(b) && PredsOnly(MuxOpen(b).blocks, |b.blocks| + 2, {})
  {
    hide Sound, Dominated;
    SoundNewBlock(b);
    FlowSound(b, NewBlock(b));
    SoundNewBlock(NewBlock(b));
    FlowSound(NewBlock(b), NewBlock(NewBlock(b)));
    SoundNewBlock(NewBlock(NewBlock(b)));
  }

  lemma FlowMuxBranch(a: Build, b: Build, o: Operand, n: nat, d: set<nat>)
    requires Flow(a, b) && Open(b) && In(o, b) && d <= Avail(b) && Waiting(b, n, d) && Waiting(b, n + 1, d)
    requires b.cur != n && b.cur != n + 1 && |a.blocks| <= n
    ensures
      var b' := MuxBranch(b, o, n);
      Sound(b') && Avail(b') == d && Edges(a, b')
  {
    hide Sound, Flow, Edges, Emit, Avail, MoveTo, Terminate, Open;
    var i := Arith(b.next, IntTy(1), ICmpEQ, o, Imm(0, o.ty));
    var t := CondBr(Reg(b.next, IntTy(1)), n, n + 1);
    FlowEmit(a, b, i);
    var b1 := Emit(b, i);
    ExtEmit(b, i);
    FlowSound(b, b1);
    FlowEdges(a, b1);
    WaitingEmit(b, i, n, d);
    WaitingEmit(b, i, n + 1, d);
    WaitingEnd(b1, n + 1, d);
    SoundGoto(b1, t, n + 1);
    GotoEdges(a, b1, t, n + 1);
  }

  lemma WaitingEmit(b: Build, i: Instr, k: nat, d: set<nat>)
    requires Waiting(b, k, d) && k != b.cur
    ensures Waiting(Emit(b, i), k, d)
  {
  }

  lemma WaitingEnd(b: Build, k: nat, d: set<nat>)
    requires Waiting(b, k, d)
    ensures End(b.blocks[k]) == d
  {
  }

  lemma BranchPreds(b: Build, o: Operand, n: nat, k: nat, from: set<nat>)
    requires Open(b) && n + 1 < |b.blocks| && k != n && k != n + 1 && PredsOnly(b.blocks, k, from)
    ensures PredsOnly(MuxBranch(b, o, n).blocks, k, from)
  {
  }

  lemma FlowEdges(a: Build, b: Build)
    requires Flow(a, b)
    ensures Edges(a, b)
  {
  }

  /** Closing one arm with a jump to the join m. */
  lemma ArmClose(b: Build, m: nat, to: nat, d: set<nat>, from: set<nat>)
    requires Sound(b) && Open(b) && d <= Avail(b) && Waiting(b, m, d) && Waiting(b, to, d)
    requires b.cur != m && b.cur != to && PredsOnly(b.blocks, m, from)
    ensures
      var b' := MoveTo(Terminate(b, Br(m)), to);
      Sound(b') && Avail(b') == d && PredsOnly(b'.blocks, m, from + {b.cur})
  {
    hide Sound, Dominated, Single, Edges, PredsOnly, Open, Avail;
    var t := Br(m);
    assert MayEnd(b, t) by { EndDom(b, m, d); }
    WaitingEnd(b, to, d);
    SoundGoto(b, t, to);
    GotoPreds(b, t, m, to, from);
  }

  lemma EndDom(b: Build, m: nat, d: set<nat>)
    requires Waiting(b, m, d)
    ensures b.blocks[m].dom == d && b.blocks[m].instrs == []
  {
  }

  lemma ArmClosed(b: Build, t: Term, to: nat)
    requires to < |b.blocks|
    ensures
      var b' := MoveTo(Terminate(b, t), to);
      b'.blocks[b.cur].term == t && End(b'.blocks[b.cur]) == Avail(b)
  {
  }

  lemma FlattenKeeps(b: Build, v: Operand, k: nat, d: set<nat>)
    requires Open(b) && Waiting(b, k, d) && k != b.cur
    ensures Waiting(Flatten(b, v).0, k, d) && Open(Flatten(b, v).0)
  {
    ExtFlatten(b, v);
  }

  lemma FlowMuxClose(b: Build, v: Operand, merge: nat, to: nat, d: set<nat>, from: set<nat>)
    requires Sound(b) && Open(b) && In(v, b) && d <= Avail(b) && Waiting(b, merge, d) && Waiting(b, to, d)
    requires b.cur != merge && b.cur != to && PredsOnly(b.blocks, merge, from)
    ensures
      var (b', fv) := MuxClose(b, v, merge, to);
      && Sound(b') && Avail(b') == d
      && OpUses(fv) <= End(b'.blocks[b.cur]) && b'.blocks[b.cur].term == Br(merge)
      && PredsOnly(b'.blocks, merge, from + {b.cur})
    ensures forall a :: Edges(a, b) && |a.blocks| <= merge ==> Edges(a, MuxClose(b, v, merge, to).0)
  {
    hide Sound, Flow, Edges, PredsOnly, Open, Avail, End, Flatten, Terminate, Waiting;
    var (b1, fv) := Flatten(b, v);
    FlowFlatten(b, v);
    FlowSound(b, b1);
    FlowEdges(b, b1);
    FlattenKeeps(b, v, merge, d);
    FlattenKeeps(b, v, to, d);
    WaitingIn(b, merge, d);
    WaitingIn(b, to, d);
    EdgesPreds(b, b1, merge, from);
    ArmClosed(b1, Br(merge), to);
    ArmClose(b1, merge, to, d, from);
    forall a | Edges(a, b) && |a.blocks| <= merge ensures Edges(a, MuxClose(b, v, merge, to).0) {
      EdgesTrans(a, b, b1);
      GotoEdges(a, b1, Br(merge), to);
    }
  }

  lemma WaitingIn(b: Build, k: nat, d: set<nat>)
    requires Waiting(b, k, d)
    ensures 0 < k < |b.blocks|
  {
  }

  lemma {:induction false} FlowExpr(m: Machine, b: Build, vals: Vals, sc: Scope, e: Expr)
    requires Sound(b) && Open(b) && ValsIn(vals, sc.tt, b) && WfExpr(e, sc)
    ensures
      var (b', o) := EmitExpr(m, b, vals, e);
      Flow(b, b') && In(o, b')
    decreases e, 1
  {
    hide Sound, Flow, ReadCtx, ReadCtxIx, LoadMem, MuxOpen, MuxBranch, MuxClose, MuxPhi, Emit, Open, ValsIn, Avail, Tidy;
    var (b', o) := EmitExpr(m, b, vals, e);
    match e
    case Get(off, ty) => FlowReadCtx(b, off, VexTy2LLVM(ty));
    case GetI(arr, ix, bias) =>
      FlowExpr(m, b, vals, sc, ix);
      var (b1, i) := EmitExpr(m, b, vals, ix);
      FlowSound(b, b1);
      FlowReadCtxIx(b1, arr, bias, i, VexTy2LLVM(arr.elemTy));
      FlowTrans(b, b1, b');
    case RdTmp(t) =>
      FlowRefl(b);
      ValAt(vals, sc.tt, b, t);
    case Op(f, rty, args) =>
      FlowExprs(m, b, vals, sc, args);
      var (b1, os) := EmitExprs(m, b, vals, args);
      FlowEmit(b, b1, Apply(b1.next, rty, f, os));
    case Load(lty, addr) =>
      FlowExpr(m, b, vals, sc, addr);
      var (b1, a) := EmitExpr(m, b, vals, addr);
      FlowSound(b, b1);
      FlowLoadMem(m, b1, a, VexTy2LLVM(lty));
      FlowTrans(b, b1, b');
    case Const(c) =>
      FlowRefl(b);
      ImmIn(ConVal(c), ConTy(c), b);
    case Mux0X(cond, expr0, exprX) => FlowMux(m, b, vals, sc, e);
  }

  lemma ValAt(vals: Vals, tt: map<nat, LTy>, b: Build, t: nat)
    requires ValsIn(vals, tt, b) && t in tt
    ensures t in vals && In(vals[t], b)
  {
  }

  lemma {:induction false} FlowExprs(m: Machine, b: Build, vals: Vals, sc: Scope, es: seq<Expr>)
    requires Sound(b) && Open(b) && ValsIn(vals, sc.tt, b) && WfExprs(es, sc)
    ensures
      var (b', os) := EmitExprs(m, b, vals, es);
      Flow(b, b') && AllUses(os) <= Avail(b')
    decreases es, 2
  {
    hide Sound, Flow, EmitExpr, Open, ValsIn, Avail, Tidy;
    if es == [] {
      FlowRefl(b);
    } else {
      FlowExpr(m, b, vals, sc, es[0]);
      var (b1, o) := EmitExpr(m, b, vals, es[0]);
      FlowSound(b, b1);
      ValsFlow(vals, sc.tt, b, b1);
      TidyExpr(m, b, vals, es[0]);
      TidyOpen(b, b1);
      FlowExprs(m, b1, vals, sc, es[1..]);
      var (b2, os) := EmitExprs(m, b1, vals, es[1..]);
      FlowIn(b1, b2, o);
      FlowTrans(b, b1, b2);
      AllUsesCons(o, os);
    }
  }

  lemma AllUsesCons(o: Operand, os: seq<Operand>)
    ensures AllUses([o] + os) == OpUses(o) + AllUses(os)
  {
    assert forall x :: x in [o] + os <==> x == o || x in os;
  }

  lemma {:induction false} FlowMux(m: Machine, b: Build, vals: Vals, sc: Scope, e: Expr)
    requires e.Mux0X?
    requires Sound(b) && Open(b) && ValsIn(vals, sc.tt, b) && WfExpr(e, sc)
    ensures
      var (b', o) := EmitExpr(m, b, vals, e);
      Flow(b, b') && In(o, b')
    decreases e, 0
  {
    hide *;
    var s, n, d := MuxRunOf(m, b, vals, e), |b.blocks|, Avail(b);
    MuxFacts(m, b, vals, e);
    MuxRunResult(m, b, vals, e);
    MuxParts(b, s);
    WfMux(e, sc);
    WaitingAll(b, s);
    TidyOpen(s.h.b0, s.h.b1);
    TidyOpen(s.h.b1x, s.h.b2);
    TidyOpen(s.t.b3, s.t.b4);
    FlowMuxOpen(b);
    FlowSound(b, s.h.b0);
    ValsFlow(vals, sc.tt, b, s.h.b0);
    FlowExpr(m, s.h.b0, vals, sc, e.cond);
    FlowSound(s.h.b0, s.h.b1);
    FlowTrans(b, s.h.b0, s.h.b1);
    FlowEdges(s.h.b0, s.h.b1);
    EdgesPreds(s.h.b0, s.h.b1, n + 2, {});
    FlowMuxBranch(b, s.h.b1, s.h.c, n, d);
    BranchPreds(s.h.b1, s.h.c, n, n + 2, {});
    ValsFlow(vals, sc.tt, b, s.h.b1x);
    FlowExpr(m, s.h.b1x, vals, sc, e.exprX);
    FlowSound(s.h.b1x, s.h.b2);
    FlowEdges(s.h.b1x, s.h.b2);
    EdgesPreds(s.h.b1x, s.h.b2, n + 2, {});
    EdgesTrans(b, s.h.b1x, s.h.b2);
    FlowMuxClose(s.h.b2, s.h.x, n + 2, n, d, {});
    ValsFlow(vals, sc.tt, b, s.t.b3);
    FlowExpr(m, s.t.b3, vals, sc, e.expr0);
    FlowSound(s.t.b3, s.t.b4);
    FlowEdges(s.t.b3, s.t.b4);
    assert {} + {s.h.b2.cur} == {s.h.b2.cur};
    EdgesPreds(s.t.b3, s.t.b4, n + 2, {s.h.b2.cur});
    EdgesTrans(b, s.t.b3, s.t.b4);
    FlowMuxClose(s.t.b4, s.t.z, n + 2, n + 2, d, {s.h.b2.cur});
    TidyCur(s.t.b3, s.t.b4);
    CloseKeeps(s.t.b4, s.t.z, n + 2, n + 2, s.h.b2.cur);
    FlowPhi(b, s.t.b5, s.t.zv, s.t.b4.cur, s.t.xv, s.h.b2.cur);
  }

  lemma CloseKeeps(b: Build, v: Operand, merge: nat, to: nat, k: nat)
    requires to < |b.blocks| && k < |b.blocks| && k != b.cur
    ensures MuxClose(b, v, merge, to).0.blocks[k] == b.blocks[k]
  {
  }

  lemma WaitingAll(b: Build, s: MuxRun)
    requires MuxOk(b, s)
    ensures
      var n, d := |b.blocks|, Avail(b);
      && Waiting(s.h.b1, n, d) && Waiting(s.h.b1, n + 1, d)
      && Waiting(s.h.b2, n + 2, d) && Waiting(s.h.b2, n, d) && Waiting(s.t.b4, n + 2, d)
  {
  }

  /** The join of two closed arms. */
  lemma FlowPhi(a: Build, b: Build, zv: Operand, bz: nat, xv: Operand, bnz: nat)
    requires Sound(a) && Sound(b) && Edges(a, b) && Avail(b) == Avail(a)
    requires bz < |b.blocks| && bnz < |b.blocks| && bz != bnz
    requires b.blocks[bz].term == Br(b.cur) && b.blocks[bnz].term == Br(b.cur)
    requires OpUses(zv) <= End(b.blocks[bz]) && OpUses(xv) <= End(b.blocks[bnz])
    requires PredsOnly(b.blocks, b.cur, {bnz} + {bz})
    ensures
      var (b', r) := MuxPhi(b, zv, bz, xv, bnz);
      Flow(a, b') && In(r, b')
  {
    hide Sound;
    var i := Phi(b.next, zv.ty, zv, bz, xv, bnz);
    assert {bnz} + {bz} == {bz, bnz};
    assert PhiOk(b.blocks, b.cur, i);
    SoundEmit(b, i);
    FlowTrans(a, b, Emit(b, i));
  }
}
