/** Statements and whole superblocks keep the function sound; definitions dominate uses. */
module SsaStmt {
  import opened Options
  import opened VexIR
  import opened VexWf
  import opened LlvmIR
  import opened Builder
  import opened Lowering
  import opened Extension
  import opened StmtShape
  import opened Ssa
  import opened SsaExpr

  lemma FlowSplit(b: Build, o: Operand)
    requires Sound(b) && Open(b) && In(o, b)
    ensures
      var b1 := MoveTo(Split(b, o), |b.blocks|);
      Sound(b1) && Avail(b1) == Avail(b) && Edges(b, b1)
  {
    hide Dominated, Single, Edges, End;
    var n := |b.blocks|;
    var b0 := NewBlock(NewBlock(b));
    SoundNewBlock(b);
    FlowSound(b, NewBlock(b));
    SoundNewBlock(NewBlock(b));
    FlowTrans(b, NewBlock(b), b0);
    FlowSound(b, b0);
    FlowEdges(b, b0);
    WaitingEnd(b0, n, Avail(b));
    SoundGoto(b0, CondBr(o, n, n + 1), n);
    GotoEdges(b, b0, CondBr(o, n, n + 1), n);
  }

  lemma FlowGuarded(b: Build, o: Operand, b2: Build)
    requires Sound(b) && Open(b) && In(o, b)
    requires Tidy(MoveTo(Split(b, o), |b.blocks|), b2) && Flow(MoveTo(Split(b, o), |b.blocks|), b2)
    ensures |b.blocks| + 1 < |b2.blocks|
    ensures Flow(b, Join(b2, |b.blocks| + 1)) && Avail(Join(b2, |b.blocks| + 1)) == Avail(b)
  {
    hide Sound, Flow, Edges, Tidy, Avail, Split, MoveTo, Terminate, Made, Open, Ext;
    var n := |b.blocks|;
    var b1 := MoveTo(Split(b, o), n);
    FlowSplit(b, o);
    SplitBlocks(b, o);
    TidyCur(b1, b2);
    TidyGuarded(b, o, b2);
    TidyOpen(b1, b2);
    FlowSound(b1, b2);
    FlowEdges(b1, b2);
    EdgesTrans(b, b1, b2);
    WaitingEnd(b2, n + 1, Avail(b));
    SoundGoto(b2, Br(n + 1), n + 1);
    GotoEdges(b, b2, Br(n + 1), n + 1);
    FlowMake(b, Join(b2, n + 1));
  }

  lemma FlowMake(a: Build, b: Build)
    requires Sound(a) && Sound(b) && Avail(a) <= Avail(b) && Edges(a, b)
    ensures Flow(a, b)
  {
  }

  /** Emission at an open insertion point, with what is needed to go on. */
  predicate Good(a: Build, b: Build, vals: Vals, sc: Scope) {
    Tidy(a, b) && Flow(a, b) && Open(b) && ValsIn(vals, sc.tt, b)
  }

  lemma GoodRefl(b: Build, vals: Vals, sc: Scope)
    requires Sound(b) && Open(b) && ValsIn(vals, sc.tt, b)
    ensures Good(b, b, vals, sc)
  {
    FlowRefl(b);
  }

  lemma GoodParts(a: Build, b: Build, vals: Vals, sc: Scope)
    requires Good(a, b, vals, sc)
    ensures Tidy(a, b) && Flow(a, b) && Open(b) && Sound(b) && ValsIn(vals, sc.tt, b)
  {
  }

  lemma GoodTrans(a: Build, b: Build, c: Build, vals: Vals, sc: Scope)
    requires Good(a, b, vals, sc) && Tidy(b, c) && Flow(b, c)
    ensures Good(a, c, vals, sc)
  {
    hide Sound, Edges, Avail, Made;
    TidyTrans(a, b, c);
    TidyOpen(b, c);
    FlowTrans(a, b, c);
    FlowSound(b, c);
    ValsFlow(vals, sc.tt, b, c);
  }

  lemma GoodExpr(m: Machine, a: Build, b: Build, vals: Vals, sc: Scope, e: Expr)
    requires Good(a, b, vals, sc) && WfExpr(e, sc)
    ensures
      var (b', o) := EmitExpr(m, b, vals, e);
      Good(a, b', vals, sc) && Flow(b, b') && In(o, b')
  {
    hide *;
    GoodParts(a, b, vals, sc);
    FlowExpr(m, b, vals, sc, e);
    TidyExpr(m, b, vals, e);
    GoodTrans(a, b, EmitExpr(m, b, vals, e).0, vals, sc);
  }

  lemma GoodEmit(a: Build, b: Build, vals: Vals, sc: Scope, i: Instr)
    requires Good(a, b, vals, sc) && i.id == b.next && !i.Phi? && Uses(i) <= Avail(b)
    ensures Good(a, Emit(b, i), vals, sc) && Flow(b, Emit(b, i)) && forall ty :: In(Reg(i.id, ty), Emit(b, i))
  {
    hide *;
    GoodParts(a, b, vals, sc);
    FlowRefl(b);
    FlowEmit(b, b, i);
    TidyRefl(b);
    TidyEmit(b, b, i);
    GoodTrans(a, b, Emit(b, i), vals, sc);
  }

  lemma GoodLoad(m: Machine, a: Build, b: Build, vals: Vals, sc: Scope, addr: Operand, ty: LTy)
    requires Good(a, b, vals, sc) && In(addr, b)
    ensures
      var (b', o) := LoadMem(m, b, addr, ty);
      Good(a, b', vals, sc) && Flow(b, b') && In(o, b')
  {
    hide *;
    GoodParts(a, b, vals, sc);
    FlowLoadMem(m, b, addr, ty);
    TidyRefl(b);
    TidyThenLoad(m, b, b, addr, ty);
    GoodTrans(a, b, LoadMem(m, b, addr, ty).0, vals, sc);
  }

  lemma GoodStore(m: Machine, a: Build, b: Build, vals: Vals, sc: Scope, addr: Operand, v: Operand)
    requires Good(a, b, vals, sc) && In(addr, b) && In(v, b)
    ensures Good(a, StoreMem(m, b, addr, v), vals, sc) && Flow(b, StoreMem(m, b, addr, v))
  {
    hide *;
    GoodParts(a, b, vals, sc);
    FlowStoreMem(m, b, addr, v);
    TidyRefl(b);
    TidyThenStore(m, b, b, addr, v);
    GoodTrans(a, b, StoreMem(m, b, addr, v), vals, sc);
  }

  /** Entering a guarded region. */
  lemma GoodSplit(b: Build, vals: Vals, sc: Scope, o: Operand)
    requires Sound(b) && Open(b) && ValsIn(vals, sc.tt, b) && In(o, b)
    ensures
      var s := MoveTo(Split(b, o), |b.blocks|);
      Good(s, s, vals, sc) && Avail(s) == Avail(b)
  {
    hide *;
    var s := MoveTo(Split(b, o), |b.blocks|);
    FlowSplit(b, o);
    SplitOpen(b, o);
    ValsFlow(vals, sc.tt, b, s);
    GoodRefl(s, vals, sc);
  }

  lemma InSame(a: Build, b: Build, o: Operand)
    requires In(o, a) && Avail(a) <= Avail(b)
    ensures In(o, b)
  {
  }

  /** Leaving a guarded region. */
  lemma GoodJoin(a: Build, b: Build, vals: Vals, sc: Scope, o: Operand, b2: Build)
    requires Good(a, b, vals, sc) && In(o, b)
    requires Good(MoveTo(Split(b, o), |b.blocks|), b2, vals, sc)
    ensures |b.blocks| + 1 < |b2.blocks| && Good(a, Join(b2, |b.blocks| + 1), vals, sc)
    ensures Flow(b, Join(b2, |b.blocks| + 1))
  {
    hide *;
    GoodParts(a, b, vals, sc);
    GoodParts(MoveTo(Split(b, o), |b.blocks|), b2, vals, sc);
    FlowGuarded(b, o, b2);
    TidyGuarded(b, o, b2);
    GoodTrans(a, b, Join(b2, |b.blocks| + 1), vals, sc);
  }

  lemma GoodStoreG(m: Machine, b: Build, vals: Vals, sc: Scope, addr: Expr, data: Expr, guard: Expr)
    requires Good(b, b, vals, sc) && WfExpr(addr, sc) && WfExpr(data, sc) && WfExpr(guard, sc)
    ensures Good(b, EmitStoreG(m, b, vals, addr, data, guard), vals, sc)
  {
    hide Good, EmitExpr, Split, Join, MoveTo, StoreMem, Flow, Sound, Open, ValsIn, Avail, WfExpr, In;
    var (b1, g) := EmitExpr(m, b, vals, guard);
    GoodExpr(m, b, b, vals, sc, guard);
    GoodParts(b, b1, vals, sc);
    var n := |b1.blocks|;
    var s := MoveTo(Split(b1, g), n);
    GoodSplit(b1, vals, sc, g);
    var (b2, a) := EmitExpr(m, s, vals, addr);
    GoodExpr(m, s, s, vals, sc, addr);
    var (b3, d) := EmitExpr(m, b2, vals, data);
    GoodExpr(m, s, b2, vals, sc, data);
    FlowIn(b2, b3, a);
    GoodStore(m, s, b3, vals, sc, a, d);
    GoodJoin(b, b1, vals, sc, g, StoreMem(m, b3, a, d));
  }

  lemma UseArith(b: Build, ty: LTy, ak: ArithKind, x: Operand, y: Operand)
    requires In(x, b) && In(y, b)
    ensures Uses(Arith(b.next, ty, ak, x, y)) <= Avail(b)
  {
  }

  lemma GoodArith(a: Build, b: Build, vals: Vals, sc: Scope, ty: LTy, ak: ArithKind, x: Operand, y: Operand)
    requires Good(a, b, vals, sc) && In(x, b) && In(y, b)
    ensures
      var b' := Emit(b, Arith(b.next, ty, ak, x, y));
      Good(a, b', vals, sc) && Flow(b, b') && In(Reg(b.next, ty), b')
  {
    hide *;
    UseArith(b, ty, ak, x, y);
    GoodEmit(a, b, vals, sc, Arith(b.next, ty, ak, x, y));
  }

  lemma GoodCasSingle(m: Machine, b: Build, vals: Vals, sc: Scope, oldLo: nat, addr: Expr, expd: Expr, data: Expr)
    returns (r: Emitted, w: Operand)
    requires Good(b, b, vals, sc) && WfExpr(addr, sc) && WfExpr(expd, sc) && WfExpr(data, sc)
    ensures Good(b, r.b, vals, sc) && r.vals == vals[oldLo := w] && In(w, r.b)
    ensures r == EmitCasSingle(m, b, vals, oldLo, addr, expd, data)
  {
    hide Good, EmitExpr, Split, Join, MoveTo, StoreMem, LoadMem, Flow, Sound, Open, ValsIn, Avail, WfExpr, In, Emit;
    var (b1, a) := EmitExpr(m, b, vals, addr);
    GoodExpr(m, b, b, vals, sc, addr);
    var (b2, e) := EmitExpr(m, b1, vals, expd);
    GoodExpr(m, b, b1, vals, sc, expd);
    FlowIn(b1, b2, a);
    var (b3, was) := LoadMem(m, b2, a, e.ty);
    GoodLoad(m, b, b2, vals, sc, a, e.ty);
    FlowIn(b2, b3, a);
    FlowIn(b2, b3, e);
    var o := Reg(b3.next, IntTy(1));
    var b4 := Emit(b3, Arith(b3.next, IntTy(1), ICmpEQ, e, was));
    GoodArith(b, b3, vals, sc, IntTy(1), ICmpEQ, e, was);
    FlowIn(b3, b4, a);
    FlowIn(b3, b4, was);
    GoodCasBody(m, b, b4, vals, sc, o, a, data);
    r, w := EmitCasSingle(m, b, vals, oldLo, addr, expd, data), was;
    FlowIn(b4, r.b, was);
  }

  /** The guarded store of a compare and swap. */
  lemma GoodCasBody(m: Machine, a0: Build, b: Build, vals: Vals, sc: Scope, o: Operand, a: Operand, data: Expr)
    requires Good(a0, b, vals, sc) && In(o, b) && In(a, b) && WfExpr(data, sc)
    ensures
      var n := |b.blocks|;
      var (b1, d) := EmitExpr(m, MoveTo(Split(b, o), n), vals, data);
      var r := Join(StoreMem(m, b1, a, d), n + 1);
      Good(a0, r, vals, sc) && Flow(b, r)
  {
    hide Good, EmitExpr, Split, Join, MoveTo, StoreMem, Flow, Sound, Open, ValsIn, Avail, WfExpr, In;
    GoodParts(a0, b, vals, sc);
    var n := |b.blocks|;
    var s := MoveTo(Split(b, o), n);
    GoodSplit(b, vals, sc, o);
    InSame(b, s, a);
    var (b1, d) := EmitExpr(m, s, vals, data);
    GoodExpr(m, s, s, vals, sc, data);
    FlowIn(s, b1, a);
    GoodStore(m, s, b1, vals, sc, a, d);
    GoodJoin(a0, b, vals, sc, o, StoreMem(m, b1, a, d));
  }

  /** Both guarded stores of a double-width compare and swap. */
  lemma GoodCasBodyDouble(m: Machine, a0: Build, b: Build, vals: Vals, sc: Scope, o: Operand, a: Operand, aHi: Operand,
                          data: Expr)
    requires Good(a0, b, vals, sc) && In(o, b) && In(a, b) && In(aHi, b) && WfExpr(data, sc)
    ensures
      var n := |b.blocks|;
      var (b1, d) := EmitExpr(m, MoveTo(Split(b, o), n), vals, data);
      var (b2, d2) := EmitExpr(m, StoreMem(m, b1, a, d), vals, data);
      var r := Join(StoreMem(m, b2, aHi, d2), n + 1);
      Good(a0, r, vals, sc) && Flow(b, r)
  {
    hide Good, EmitExpr, Split, Join, MoveTo, StoreMem, Flow, Sound, Open, ValsIn, Avail, WfExpr, In;
    GoodParts(a0, b, vals, sc);
    var n := |b.blocks|;
    var s := MoveTo(Split(b, o), n);
    GoodSplit(b, vals, sc, o);
    InSame(b, s, a);
    InSame(b, s, aHi);
    var (b1, d) := EmitExpr(m, s, vals, data);
    GoodExpr(m, s, s, vals, sc, data);
    FlowIn(s, b1, a);
    FlowIn(s, b1, aHi);
    var b1s := StoreMem(m, b1, a, d);
    GoodStore(m, s, b1, vals, sc, a, d);
    FlowIn(b1, b1s, aHi);
    var (b2, d2) := EmitExpr(m, b1s, vals, data);
    GoodExpr(m, s, b1s, vals, sc, data);
    FlowIn(b1s, b2, aHi);
    GoodStore(m, s, b2, vals, sc, aHi, d2);
    GoodJoin(a0, b, vals, sc, o, StoreMem(m, b2, aHi, d2));
  }

  lemma GoodCasHigh(m: Machine, a0: Build, b: Build, vals: Vals, sc: Scope, a: Operand, e: Operand, was: Operand, expdHi: Expr)
    requires Good(a0, b, vals, sc) && In(a, b) && In(e, b) && In(was, b) && WfExpr(expdHi, sc)
    ensures
      var h := EmitCasHigh(m, b, vals, a, e, was, expdHi);
      Good(a0, h.b, vals, sc) && Flow(b, h.b) && In(h.aHi, h.b) && In(h.wasHi, h.b) && In(h.cmp, h.b)
  {
    hide Good, EmitExpr, LoadMem, Flow, Avail, WfExpr, In, Emit;
    var i1 := IntTy(1);
    var (b1, eHi) := EmitExpr(m, b, vals, expdHi);
    GoodExpr(m, a0, b, vals, sc, expdHi);
    FlowIn(b, b1, a);
    var k := Imm(BytesOf(e.ty), a.ty);
    ImmIn(BytesOf(e.ty), a.ty, b1);
    var b2 := Emit(b1, Arith(b1.next, a.ty, Add, a, k));
    GoodArith(a0, b1, vals, sc, a.ty, Add, a, k);
    FlowTrans(b, b1, b2);
    FlowIn(b1, b2, eHi);
    var aHi := Reg(b1.next, a.ty);
    var (b3, wasHi) := LoadMem(m, b2, aHi, e.ty);
    GoodLoad(m, a0, b2, vals, sc, aHi, e.ty);
    FlowTrans(b, b2, b3);
    FlowIn(b2, b3, aHi);
    FlowIn(b2, b3, eHi);
    FlowIn(b, b3, e);
    FlowIn(b, b3, was);
    var b4 := Emit(b3, Arith(b3.next, i1, ICmpEQ, e, was));
    GoodArith(a0, b3, vals, sc, i1, ICmpEQ, e, was);
    FlowIn(b3, b4, eHi);
    FlowIn(b3, b4, wasHi);
    var b5 := Emit(b4, Arith(b4.next, i1, ICmpEQ, eHi, wasHi));
    GoodArith(a0, b4, vals, sc, i1, ICmpEQ, eHi, wasHi);
    FlowIn(b4, b5, Reg(b3.next, i1));
    var b6 := Emit(b5, Arith(b5.next, i1, ICmpEQ, Reg(b3.next, i1), Reg(b4.next, i1)));
    GoodArith(a0, b5, vals, sc, i1, ICmpEQ, Reg(b3.next, i1), Reg(b4.next, i1));
    FlowTrans(b3, b4, b5);
    FlowTrans(b3, b5, b6);
    FlowTrans(b, b3, b6);
    FlowIn(b3, b6, aHi);
    FlowIn(b3, b6, wasHi);
  }

  lemma GoodCasDouble(m: Machine, b: Build, vals: Vals, sc: Scope, oldLo: nat, addr: Expr, expd: Expr, data: Expr, hi: CasHi)
    returns (r: Emitted, w: Operand, w2: Operand)
    requires Good(b, b, vals, sc) && WfExpr(addr, sc) && WfExpr(expd, sc) && WfExpr(data, sc) && WfExpr(hi.expdHi, sc)
    ensures Good(b, r.b, vals, sc) && r.vals == vals[oldLo := w][hi.oldHi := w2] && In(w, r.b) && In(w2, r.b)
    ensures r == EmitCasDouble(m, b, vals, oldLo, addr, expd, data, hi)
  {
    hide Good, EmitExpr, Split, Join, MoveTo, StoreMem, LoadMem, Flow, Sound, Open, ValsIn, Avail, WfExpr, In, Emit,
         EmitCasHigh;
    var (b1, a) := EmitExpr(m, b, vals, addr);
    GoodExpr(m, b, b, vals, sc, addr);
    var (b2, e) := EmitExpr(m, b1, vals, expd);
    GoodExpr(m, b, b1, vals, sc, expd);
    FlowIn(b1, b2, a);
    var (b3, was) := LoadMem(m, b2, a, e.ty);
    GoodLoad(m, b, b2, vals, sc, a, e.ty);
    FlowIn(b2, b3, a);
    FlowIn(b2, b3, e);
    var h := EmitCasHigh(m, b3, vals, a, e, was, hi.expdHi);
    GoodCasHigh(m, b, b3, vals, sc, a, e, was, hi.expdHi);
    FlowIn(b3, h.b, a);
    FlowIn(b3, h.b, was);
    GoodCasBodyDouble(m, b, h.b, vals, sc, h.cmp, a, h.aHi, data);
    r, w, w2 := EmitCasDouble(m, b, vals, oldLo, addr, expd, data, hi), was, h.wasHi;
    FlowIn(h.b, r.b, was);
    FlowIn(h.b, r.b, h.wasHi);
  }

  // ---- helper calls

  lemma GoodExprs(m: Machine, a: Build, b: Build, vals: Vals, sc: Scope, es: seq<Expr>)
    requires Good(a, b, vals, sc) && WfExprs(es, sc)
    ensures
      var (b', os) := EmitExprs(m, b, vals, es);
      Good(a, b', vals, sc) && Flow(b, b') && AllUses(os) <= Avail(b')
  {
    hide *;
    GoodParts(a, b, vals, sc);
    FlowExprs(m, b, vals, sc, es);
    TidyExprs(m, b, vals, es);
    GoodTrans(a, b, EmitExprs(m, b, vals, es).0, vals, sc);
  }

  /** The result of a helper call is defined where the call is. */
  lemma GoodCall(m: Machine, a: Build, b: Build, vals: Vals, sc: Scope, f: nat, retTy: LTy, args: seq<Expr>,
                 out: Option<DirtyTmp>) returns (r: Emitted, w: Operand)
    requires Good(a, b, vals, sc) && WfExprs(args, sc)
    ensures Good(a, r.b, vals, sc) && Flow(b, r.b) && In(w, r.b)
    ensures r.vals == if out.None? then vals else vals[out.value.tmp := w]
    ensures r == EmitCall(m, b, vals, f, retTy, args, out)
  {
    hide Good, EmitExprs, Flow, Avail, WfExprs, In, Emit;
    var (b1, os) := EmitExprs(m, b, vals, args);
    GoodExprs(m, a, b, vals, sc, args);
    var i := CallDirty(b1.next, retTy, f, os);
    GoodEmit(a, b1, vals, sc, i);
    var b2 := Emit(b1, i);
    FlowTrans(b, b1, b2);
    var ret := Reg(b1.next, retTy);
    r, w := EmitCall(m, b, vals, f, retTy, args, out), ret;
    if out.Some? {
      var to := VexTy2LLVM(out.value.ty);
      if BitsOf(retTy) != BitsOf(to) {
        w := Reg(b2.next, to);
      }
      if BitsOf(retTy) < BitsOf(to) {
        UseCast(b2, to, ZExt, ret);
        GoodEmit(a, b2, vals, sc, Cast(b2.next, to, ZExt, ret));
        FlowTrans(b, b2, Emit(b2, Cast(b2.next, to, ZExt, ret)));
      } else if BitsOf(retTy) > BitsOf(to) {
        UseCast(b2, to, Trunc, ret);
        GoodEmit(a, b2, vals, sc, Cast(b2.next, to, Trunc, ret));
        FlowTrans(b, b2, Emit(b2, Cast(b2.next, to, Trunc, ret)));
      }
    }
  }

  lemma UseCast(b: Build, ty: LTy, ck: CastKind, x: Operand)
    requires In(x, b)
    ensures Uses(Cast(b.next, ty, ck, x)) <= Avail(b)
  {
  }

  /** Whether or not the call is guarded; only an unguarded result is usable afterwards. */
  lemma GoodDirty(m: Machine, b: Build, vals: Vals, sc: Scope, guard: Expr, f: nat, retTy: LTy, args: seq<Expr>,
                  out: Option<DirtyTmp>) returns (r: Emitted, w: Operand)
    requires Good(b, b, vals, sc) && WfExpr(guard, sc) && WfExprs(args, sc)
    ensures Good(b, r.b, vals, sc) && (IsOne(EmitExpr(m, b, vals, guard).1) ==> In(w, r.b))
    ensures r.vals == if out.None? then vals else vals[out.value.tmp := w]
    ensures r == EmitDirty(m, b, vals, guard, f, retTy, args, out)
  {
    hide Good, EmitExpr, EmitCall, Flow, Avail, WfExpr, WfExprs, In, Split, Join, MoveTo, IsOne, Sound, Open, ValsIn;
    var (b1, g) := EmitExpr(m, b, vals, guard);
    GoodExpr(m, b, b, vals, sc, guard);
    if IsOne(g) {
      r, w := GoodCall(m, b, b1, vals, sc, f, retTy, args, out);
    } else {
      GoodParts(b, b1, vals, sc);
      var s := MoveTo(Split(b1, g), |b1.blocks|);
      GoodSplit(b1, vals, sc, g);
      r, w := GoodCall(m, s, s, vals, sc, f, retTy, args, out);
      GoodJoin(b, b1, vals, sc, g, r.b);
      r := Emitted(Join(r.b, |b1.blocks| + 1), r.vals);
    }
  }

  // ---- guarded load

  lemma GoodLoadG(m: Machine, a: Build, b: Build, vals: Vals, sc: Scope, cvt: LoadGOp, addr: Operand)
    requires Good(a, b, vals, sc) && In(addr, b)
    ensures
      var (b', v) := EmitLoadG(m, b, cvt, addr);
      Good(a, b', vals, sc) && Flow(b, b') && In(v, b')
  {
    hide Good, LoadMem, Flow, Avail, In, Emit;
    var (b1, v) := LoadMem(m, b, addr, LoadGTy(cvt));
    GoodLoad(m, a, b, vals, sc, addr, LoadGTy(cvt));
    UseCast(b1, IntTy(32), ZExt, v);
    GoodEmit(a, b1, vals, sc, Cast(b1.next, IntTy(32), ZExt, v));
    FlowTrans(b, b1, Emit(b1, Cast(b1.next, IntTy(32), ZExt, v)));
    UseCast(b1, IntTy(32), SExt, v);
    GoodEmit(a, b1, vals, sc, Cast(b1.next, IntTy(32), SExt, v));
    FlowTrans(b, b1, Emit(b1, Cast(b1.next, IntTy(32), SExt, v)));
  }

  lemma FlowSplitThree(b: Build, o: Operand)
    requires Sound(b) && Open(b) && In(o, b)
    ensures
      var s := SplitThree(b, o);
      Sound(s) && Avail(s) == Avail(b) && Edges(b, s) && PredsOnly(s.blocks, |b.blocks| + 2, {})
  {
    hide Dominated, Single, End, Sound, Flow;
    var n := |b.blocks|;
    var b1, b2, b3 := NewBlock(b), NewBlock(NewBlock(b)), NewBlock(NewBlock(NewBlock(b)));
    SoundNewBlock(b);
    FlowSound(b, b1);
    SoundNewBlock(b1);
    FlowTrans(b, b1, b2);
    FlowSound(b, b2);
    SoundNewBlock(b2);
    FlowTrans(b, b2, b3);
    FlowSound(b, b3);
    FlowEdges(b, b3);
    WaitingEnd(b3, n, Avail(b));
    SoundGoto(b3, CondBr(o, n, n + 1), n);
    GotoEdges(b, b3, CondBr(o, n, n + 1), n);
    GotoPreds(b3, CondBr(o, n, n + 1), n + 2, n, {});
  }

  lemma WaitingOpen(b: Build, k: nat, d: set<nat>)
    requires Waiting(b, k, d) && b.cur == k
    ensures Open(b)
  {
  }

  lemma FlowJoinLoad(a: Build, b: Build, v: Operand, alt: Operand, yes: nat, d: set<nat>)
    requires Sound(a) && Sound(b) && Open(b) && Edges(a, b) && Avail(a) == d && d <= Avail(b)
    requires |a.blocks| <= yes && 0 < yes && b.cur == yes && Waiting(b, yes + 1, d) && Waiting(b, yes + 2, d)
    requires In(v, b) && OpUses(alt) <= d && PredsOnly(b.blocks, yes + 2, {})
    ensures
      var (b', r) := JoinLoad(b, v, alt, yes);
      Flow(a, b') && In(r, b')
  {
    hide Sound, Edges, PredsOnly, Open, Avail, End, Emit, Terminate, Flow;
    var m := yes + 2;
    ArmClose(b, m, yes + 1, d, {});
    GotoEdges(a, b, Br(m), yes + 1);
    ArmClosed(b, Br(m), yes + 1);
    var b1 := MoveTo(Terminate(b, Br(m)), yes + 1);
    GotoBlock(b, Br(m), yes + 1, yes + 1);
    GotoBlock(b, Br(m), yes + 1, m);
    assert {} + {yes} == {yes};
    WaitingOpen(b1, yes + 1, d);
    ArmClose(b1, m, m, d, {yes});
    GotoEdges(a, b1, Br(m), m);
    ArmClosed(b1, Br(m), m);
    GotoBlock(b1, Br(m), m, yes);
    InUses(b, v);
    PhiAfterLoad(a, Join(b1, m), v, alt, yes);
  }

  lemma PhiAfterLoad(a: Build, b: Build, v: Operand, alt: Operand, yes: nat)
    requires Sound(a) && Sound(b) && Edges(a, b) && Avail(b) == Avail(a) && b.cur == yes + 2
    requires b.blocks[yes].term == Br(yes + 2) && b.blocks[yes + 1].term == Br(yes + 2)
    requires OpUses(v) <= End(b.blocks[yes]) && OpUses(alt) <= End(b.blocks[yes + 1])
    requires PredsOnly(b.blocks, yes + 2, {yes} + {yes + 1})
    ensures
      var i := Phi(b.next, v.ty, v, yes, alt, yes + 1);
      Flow(a, Emit(b, i)) && In(Reg(b.next, v.ty), Emit(b, i))
  {
    hide Sound, Dominated, Single;
    var i := Phi(b.next, v.ty, v, yes, alt, yes + 1);
    assert {yes} + {yes + 1} == {yes, yes + 1};
    assert PhiOk(b.blocks, b.cur, i);
    SoundEmit(b, i);
    FlowTrans(a, b, Emit(b, i));
  }

  lemma GoodGuardedLoad(m: Machine, b: Build, vals: Vals, sc: Scope, cvt: LoadGOp, dst: nat, addr: Expr, alt: Expr,
                        guard: Expr) returns (r: Emitted, w: Operand)
    requires Good(b, b, vals, sc) && WfExpr(addr, sc) && WfExpr(alt, sc) && WfExpr(guard, sc)
    ensures Good(b, r.b, vals, sc) && In(w, r.b) && r.vals == vals[dst := w]
    ensures r == EmitGuardedLoad(m, b, vals, cvt, dst, addr, alt, guard)
  {
    hide Good, EmitExpr, EmitLoadG, SplitThree, JoinLoad, Flow, Sound, Open, ValsIn, Avail, WfExpr, In, Tidy, Made, Ext, Edges,
         PredsOnly;
    var (b1, g) := EmitExpr(m, b, vals, guard);
    GoodExpr(m, b, b, vals, sc, guard);
    var (b2, a) := EmitExpr(m, b1, vals, addr);
    GoodExpr(m, b, b1, vals, sc, addr);
    FlowIn(b1, b2, g);
    var (b3, av) := EmitExpr(m, b2, vals, alt);
    GoodExpr(m, b, b2, vals, sc, alt);
    FlowIn(b2, b3, g);
    FlowIn(b2, b3, a);
    GoodParts(b, b3, vals, sc);
    var n := |b3.blocks|;
    var s := SplitThree(b3, g);
    FlowSplitThree(b3, g);
    SplitThreeBlocks(b3, g);
    MadeOpen(b3, s, {n, n + 1, n + 2});
    ValsFlow(vals, sc.tt, b3, s);
    GoodRefl(s, vals, sc);
    InSame(b3, s, a);
    var (b4, v) := EmitLoadG(m, s, cvt, a);
    GoodLoadG(m, s, s, vals, sc, cvt, a);
    GoodParts(s, b4, vals, sc);
    FlowSound(s, b4);
    FlowEdges(s, b4);
    EdgesTrans(b3, s, b4);
    EdgesPreds(s, b4, n + 2, {});
    TidyCur(s, b4);
    InUses(b3, av);
    FlowJoinLoad(b3, b4, v, av, n, Avail(b3));
    var j := JoinLoad(b4, v, av, n);
    MadeThen(b3, s, b4, {n, n + 1, n + 2});
    assert {n, n + 1, n + 2} - {n} + {b4.cur} == {b4.cur, n + 1, n + 2};
    MadeJoinLoad(b3, b4, v, av, n);
    GoodTrans(b, b3, j.0, vals, sc);
    r, w := EmitGuardedLoad(m, b, vals, cvt, dst, addr, alt, guard), j.1;
  }

  lemma InUses(b: Build, o: Operand)
    requires In(o, b)
    ensures OpUses(o) <= Avail(b)
  {
  }

  // ---- guarded exit

  lemma FlowLeave(m: Machine, a: Build, b: Build, jk: JumpKind, dst: nat, to: nat, d: set<nat>)
    requires Sound(b) && Open(b) && Edges(a, b) && Waiting(b, to, d) && to != b.cur
    ensures
      var r := EmitLeave(m, b, jk, dst, to);
      Sound(r) && Avail(r) == d && Edges(a, r)
  {
    hide Sound, Dominated, Single, WriteCtx, Flow, Edges;
    var b1 := if jk == Boring || StmtExitType(jk).None? then b else SetExitType(m, b, StmtExitType(jk).value);
    FlowRefl(b);
    ExtRefl(b);
    if !(jk == Boring || StmtExitType(jk).None?) {
      FlowWriteCtx(b, m.exitOff, Imm(StmtExitType(jk).value, IntTy(8)));
      ExtWriteCtx(b, m.exitOff, Imm(StmtExitType(jk).value, IntTy(8)));
    }
    FlowSound(b, b1);
    FlowEdges(b, b1);
    EdgesTrans(a, b, b1);
    ExtKeeps(b, b1, to);
    WaitingEnd(b1, to, d);
    var t := RetVal(Imm(Low64(dst), IntTy(64)));
    SoundGoto(b1, t, to);
    GotoEdges(a, b1, t, to);
  }

  lemma GoodExit(m: Machine, b: Build, vals: Vals, sc: Scope, guard: Expr, jk: JumpKind, dst: nat)
    requires Good(b, b, vals, sc) && WfExpr(guard, sc)
    ensures Good(b, EmitExit(m, b, vals, guard, jk, dst), vals, sc)
  {
    hide Good, EmitExpr, EmitLeave, NewBlock, MoveTo, Terminate, Flow, Sound, Open, ValsIn, Avail, WfExpr, In, Tidy, Made, Ext,
         Edges, Grow, Waiting, Single, Dominated, AllUses, OpUses;
    GoodParts(b, b, vals, sc);
    var n := |b.blocks|;
    var b0 := NewBlock(NewBlock(b));
    SoundNewBlock(b);
    FlowSound(b, NewBlock(b));
    SoundNewBlock(NewBlock(b));
    FlowTrans(b, NewBlock(b), b0);
    FlowSound(b, b0);
    ExitFacts(m, b, vals, guard);
    ValsFlow(vals, sc.tt, b, b0);
    GoodRefl(b0, vals, sc);
    var (b1, g) := EmitExpr(m, b0, vals, guard);
    GoodExpr(m, b0, b0, vals, sc, guard);
    GoodParts(b0, b1, vals, sc);
    FlowSound(b0, b1);
    FlowTrans(b, b0, b1);
    FlowEdges(b, b1);
    var t := CondBr(g, n, n + 1);
    InUses(b1, g);
    WaitingEnd(b1, n, Avail(b));
    SoundGoto(b1, t, n);
    GotoEdges(b, b1, t, n);
    var s := MoveTo(Terminate(b1, t), n);
    MadeOpen(b, s, {n, n + 1});
    WaitingGoto(b1, t, n, n + 1, Avail(b));
    FlowLeave(m, b, s, jk, dst, n + 1, Avail(b));
    var r := EmitExit(m, b, vals, guard, jk, dst);
    FlowMake(b, r);
    TidyExit(m, b, vals, guard, jk, dst);
    GoodTrans(b, b, r, vals, sc);
  }

  lemma WaitingGoto(b: Build, t: Term, to: nat, k: nat, d: set<nat>)
    requires to < |b.blocks| && k != b.cur && Waiting(b, k, d)
    ensures Waiting(MoveTo(Terminate(b, t), to), k, d)
  {
    GotoBlock(b, t, to, k);
  }

  lemma GotoBlock(b: Build, t: Term, to: nat, k: nat)
    requires to < |b.blocks| && k < |b.blocks| && k != b.cur
    ensures MoveTo(Terminate(b, t), to).blocks[k] == b.blocks[k]
  {
  }

  // ---- statements

  lemma GoodVals(a: Build, b: Build, vals: Vals, sc: Scope, t: nat, w: Operand, ty: LTy, sc': Scope)
    requires Good(a, b, vals, sc) && In(w, b) && sc'.tt == sc.tt[t := ty]
    ensures Good(a, b, vals[t := w], sc')
  {
  }

  lemma GoodSkip(a: Build, b: Build, vals: Vals, sc: Scope, t: nat, w: Operand, sc': Scope)
    requires Good(a, b, vals, sc) && t !in sc.tt && sc'.tt == sc.tt
    ensures Good(a, b, vals[t := w], sc')
  {
  }

  lemma GoodStmt(m: Machine, s: Emitted, st: Stmt, sc: Scope)
    requires Good(s.b, s.b, s.vals, sc) && WfStmt(st, sc) && sc.tt.Keys <= sc.used
    requires st.Dirty? ==> (IsOne(EmitExpr(m, s.b, s.vals, st.guard).1) <==> LiteralOne(st.guard, sc))
    ensures Good(s.b, EmitStmt(m, s, st).b, EmitStmt(m, s, st).vals, After(st, sc))
  {
    hide Good, EmitExpr, WriteCtx, WriteCtxIx, StoreMem, EmitStoreG, EmitGuardedLoad, EmitCasSingle, EmitCasDouble, EmitDirty,
         EmitExit, Emit, WfExpr, WfExprs, Flow, Sound, Open, ValsIn, Avail, In, Tidy, IsOne, LiteralOne, WfArr, Aligned;
    var b, vals := s.b, s.vals;
    match st
    case NoOp =>
    case IMark(_, _) =>
    case AbiHint =>
    case MBE => GoodEmit(b, b, vals, sc, Fence(b.next));
    case Put(off, data) =>
      GoodExpr(m, b, b, vals, sc, data);
      var (b1, v) := EmitExpr(m, b, vals, data);
      GoodWrite(b, b1, vals, sc, off, v);
    case PutI(arr, ix, bias, data) =>
      GoodExpr(m, b, b, vals, sc, data);
      var (b1, v) := EmitExpr(m, b, vals, data);
      GoodExpr(m, b, b1, vals, sc, ix);
      var (b2, i) := EmitExpr(m, b1, vals, ix);
      FlowIn(b1, b2, v);
      GoodWriteIx(b, b2, vals, sc, arr, bias, i, v);
    case WrTmp(t, data) =>
      GoodExpr(m, b, b, vals, sc, data);
      var (b1, v) := EmitExpr(m, b, vals, data);
      GoodVals(b, b1, vals, sc, t, v, TyOf(data, sc.tt), After(st, sc));
    case Store(addr, data) =>
      GoodExpr(m, b, b, vals, sc, data);
      var (b1, d) := EmitExpr(m, b, vals, data);
      GoodExpr(m, b, b1, vals, sc, addr);
      var (b2, a) := EmitExpr(m, b1, vals, addr);
      FlowIn(b1, b2, d);
      GoodStore(m, b, b2, vals, sc, a, d);
    case StoreG(addr, data, guard) => GoodStoreG(m, b, vals, sc, addr, data, guard);
    case LoadG(cvt, dst, addr, alt, guard) =>
      var r, w := GoodGuardedLoad(m, b, vals, sc, cvt, dst, addr, alt, guard);
      GoodVals(b, r.b, vals, sc, dst, w, LoadGResTy(cvt), After(st, sc));
    case CAS(oldLo, addr, expdLo, dataLo, hi) =>
      var ty := TyOf(expdLo, sc.tt);
      if hi.None? {
        var r, w := GoodCasSingle(m, b, vals, sc, oldLo, addr, expdLo, dataLo);
        GoodVals(b, r.b, vals, sc, oldLo, w, ty, After(st, sc));
      } else {
        var r, w, w2 := GoodCasDouble(m, b, vals, sc, oldLo, addr, expdLo, dataLo, hi.value);
        GoodVals(b, r.b, vals, sc, oldLo, w, ty, Assign(sc, oldLo, ty));
        GoodVals(b, r.b, vals[oldLo := w], Assign(sc, oldLo, ty), hi.value.oldHi, w2, ty, After(st, sc));
      }
    case Dirty(guard, f, retTy, args, out) =>
      var r, w := GoodDirty(m, b, vals, sc, guard, f, retTy, args, out);
      if out.Some? {
        if LiteralOne(guard, sc) {
          GoodVals(b, r.b, vals, sc, out.value.tmp, w, DirtyTy(retTy, VexTy2LLVM(out.value.ty)), After(st, sc));
        } else {
          GoodSkip(b, r.b, vals, sc, out.value.tmp, w, After(st, sc));
        }
      }
    case Exit(guard, jk, dst) => GoodExit(m, b, vals, sc, guard, jk, dst);
  }

  lemma GoodWrite(a: Build, b: Build, vals: Vals, sc: Scope, off: nat, v: Operand)
    requires Good(a, b, vals, sc) && In(v, b)
    ensures Good(a, WriteCtx(b, off, v), vals, sc)
  {
    hide *;
    GoodParts(a, b, vals, sc);
    FlowWriteCtx(b, off, v);
    ExtWriteCtx(b, off, v);
    TidyLine(b, WriteCtx(b, off, v));
    GoodTrans(a, b, WriteCtx(b, off, v), vals, sc);
  }

  lemma GoodWriteIx(a: Build, b: Build, vals: Vals, sc: Scope, arr: RegArray, bias: int, ix: Operand, v: Operand)
    requires Good(a, b, vals, sc) && In(ix, b) && In(v, b)
    ensures Good(a, WriteCtxIx(b, arr, bias, ix, v), vals, sc)
  {
    hide *;
    GoodParts(a, b, vals, sc);
    FlowWriteCtxIx(b, arr, bias, ix, v);
    ExtWriteCtxIx(b, arr, bias, ix, v);
    TidyLine(b, WriteCtxIx(b, arr, bias, ix, v));
    GoodTrans(a, b, WriteCtxIx(b, arr, bias, ix, v), vals, sc);
  }
}
