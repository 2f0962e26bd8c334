/** Expressions: the operand that emission returns evaluates to the expression's value. */
module SimExpr {
  import opened Options
  import opened VexIR
  import opened VexWf
  import opened VexDefined
  import opened LlvmIR
  import opened Builder
  import opened Lowering
  import opened Extension
  import opened Simulation

  /** The operands recorded for the usable temporaries have the recorded types ... */
  predicate Typed(vals: Vals, tt: map<nat, LTy>) {
    forall t :: t in tt ==> t in vals && vals[t].ty == tt[t]
  }

  /** ... and hold the temporaries' values, where they have one. */
  predicate Temps(vals: Vals, tt: map<nat, LTy>, regs: Regs, tmps: map<nat, Val>) {
    Typed(vals, tt) && forall t :: t in tt && t in tmps ==> EvalVal(regs, vals[t]) == Some(tmps[t])
  }

  lemma TempsKeep(vals: Vals, tt: map<nat, LTy>, r: Regs, r': Regs, tmps: map<nat, Val>)
    requires Temps(vals, tt, r, tmps) && Keeps(r, r')
    ensures Temps(vals, tt, r', tmps)
  {
    forall t | t in tt && t in tmps ensures EvalVal(r', vals[t]) == Some(tmps[t]) {
      KeepsOp(r, r', vals[t]);
    }
  }

  lemma {:induction false} TypeExpr(m: Machine, b: Build, vals: Vals, sc: Scope, e: Expr)
    requires Typed(vals, sc.tt) && WfExpr(e, sc)
    ensures EmitExpr(m, b, vals, e).1.ty == TyOf(e, sc.tt)
    decreases e
  {
    if e.Mux0X? {
      hide MuxOpen, MuxBranch;
      var s := MuxRunOf(m, b, vals, e);
      MuxRunResult(m, b, vals, e);
      TypeExpr(m, s.t.b3, vals, sc, e.expr0);
    }
  }

  /** A comparison with zero and a two-way branch; both targets are still empty. */
  lemma SimMuxBranch(m: Machine, b: Build, o: Operand, n: nat, c: Config) returns (c': Config)
    requires AtEnd(b, c) && n + 1 < |b.blocks| && b.cur != n && b.cur != n + 1
    requires EvalVal(c.regs, o).Some?
    ensures Reach(m, MuxBranch(b, o, n).blocks, c, c')
    ensures c'.At? && c'.g == c.g && c'.pc == 0
    ensures c'.b == if EvalVal(c.regs, o).value.n == 0 then n else n + 1
    ensures Keeps(c.regs, c'.regs) && Below(c'.regs, MuxBranch(b, o, n).next)
    ensures b.next <= MuxBranch(b, o, n).next && Newer(c.regs, c'.regs, b.next)
    ensures Grow(b.blocks, MuxBranch(b, o, n).blocks)
  {
    var i := Arith(b.next, IntTy(1), ICmpEQ, o, Imm(0, o.ty));
    var c1 := SimEmit(m, b, i, c);
    var b1 := Emit(b, i);
    SimEnds(m, b, c, b1, c1);
    c' := SimBranch(m, b1, Reg(b.next, IntTy(1)), n, n + 1, c1);
    ReachGrow(m, b1.blocks, MuxBranch(b, o, n).blocks, c, c1);
    ReachTrans(m, MuxBranch(b, o, n).blocks, c, c1, c');
    GrowTrans(b.blocks, b1.blocks, MuxBranch(b, o, n).blocks);
  }

  /** Closing the current block with a conditional branch. */
  lemma SimBranch(m: Machine, b: Build, o: Operand, yes: nat, no: nat, c: Config) returns (c': Config)
    requires AtEnd(b, c) && EvalVal(c.regs, o).Some?
    ensures Grow(b.blocks, Terminate(b, CondBr(o, yes, no)).blocks)
    ensures Reach(m, Terminate(b, CondBr(o, yes, no)).blocks, c, c')
    ensures c' == At(if EvalVal(c.regs, o).value.n == 0 then no else yes, 0, b.cur, c.regs, c.g)
  {
    c' := At(if EvalVal(c.regs, o).value.n == 0 then no else yes, 0, b.cur, c.regs, c.g);
    ReachStep(m, Terminate(b, CondBr(o, yes, no)).blocks, c, c');
  }

  /** Closing the current block with a jump. */
  lemma SimJump(m: Machine, b: Build, to: nat, c: Config) returns (c': Config)
    requires AtEnd(b, c)
    ensures Grow(b.blocks, Terminate(b, Br(to)).blocks)
    ensures Reach(m, Terminate(b, Br(to)).blocks, c, c')
    ensures c' == At(to, 0, b.cur, c.regs, c.g)
  {
    c' := At(to, 0, b.cur, c.regs, c.g);
    ReachStep(m, Terminate(b, Br(to)).blocks, c, c');
  }

  /** The end of an arm: the flattened value is there when the run gets to the join. */
  lemma SimMuxClose(m: Machine, b: Build, v: Operand, merge: nat, to: nat, c: Config) returns (c': Config)
    requires AtEnd(b, c) && to < |b.blocks| && EvalVal(c.regs, v).Some?
    ensures
      var (b', fv) := MuxClose(b, v, merge, to);
      && Reach(m, b'.blocks, c, c') && Grow(b.blocks, b'.blocks)
      && c'.At? && c'.b == merge && c'.pc == 0 && c'.prev == b.cur && c'.g == c.g
      && Keeps(c.regs, c'.regs) && Below(c'.regs, b'.next)
      && Newer(c.regs, c'.regs, b.next)
      && EvalVal(c'.regs, fv) == EvalVal(c.regs, v)
  {
    hide Flatten;
    var (b1, fv) := Flatten(b, v);
    var c1 := SimFlatten(m, b, v, c);
    SimEnds(m, b, c, b1, c1);
    c' := SimJump(m, b1, merge, c1);
    var b' := MuxClose(b, v, merge, to).0;
    ReachGrow(m, b1.blocks, b'.blocks, c, c1);
    ReachTrans(m, b'.blocks, c, c1, c');
    GrowTrans(b.blocks, b1.blocks, b'.blocks);
  }

  lemma CloseGrow(b: Build, v: Operand, merge: nat, to: nat)
    requires Open(b) && to < |b.blocks|
    ensures Grow(b.blocks, MuxClose(b, v, merge, to).0.blocks) && b.next <= MuxClose(b, v, merge, to).0.next
  {
  }

  lemma CloseType(b: Build, v: Operand, merge: nat, to: nat)
    requires to < |b.blocks|
    ensures MuxClose(b, v, merge, to).1.ty == Flat(v.ty)
  {
  }

  /** The run sits at the start of the empty block that emission has just moved to. */
  lemma AtStart(b: Build, c: Config, dom: set<nat>)
    requires b.cur != 0 && b.blocks[b.cur] == Block([], NoTerm, dom)
    requires c.At? && c.b == b.cur && c.pc == 0 && Below(c.regs, b.next)
    ensures AtEnd(b, c)
  {
  }

  lemma SimMuxOpen(m: Machine, b: Build, c: Config)
    requires AtEnd(b, c)
    ensures Sim(m, b, c, MuxOpen(b), c)
  {
    ReachRefl(m, MuxOpen(b).blocks, c);
  }

  lemma BelowMono(regs: Regs, n: nat, k: nat)
    requires Below(regs, n) && n <= k
    ensures Below(regs, k)
  {
  }

  lemma TidyNext(a: Build, b: Build)
    requires Tidy(a, b)
    ensures a.next <= b.next && Grow(a.blocks, b.blocks)
  {
  }

  lemma {:induction false} SimulateExpr(m: Machine, b: Build, vals: Vals, sc: Scope, e: Expr, c: Config, tmps: map<nat, Val>)
    returns (c': Config)
    requires AtEnd(b, c) && WfExpr(e, sc) && Temps(vals, sc.tt, c.regs, tmps) && AddrTy(m, IntTy(sc.aw))
    requires Defined(m, c.g, tmps, e)
    ensures
      var (b', o) := EmitExpr(m, b, vals, e);
      && Sim(m, b, c, b', c') && c'.g == c.g
      && o.ty == TyOf(e, sc.tt)
      && EvalVal(c'.regs, o) == Some(Eval(m, c.g, tmps, e))
    decreases e, 2
  {
    assert c.At?;
    hide Sim, Reach, Grow, LoadMem, ReadCtx, ReadCtxIx, MuxOpen, MuxBranch, MuxClose, MuxPhi, Low64, Slot, SlotOff, WfArr,
         Aligned, Read, Temps, AtEnd, EvalVal;
    var (b', o) := EmitExpr(m, b, vals, e);
    match e
    case Get(off, ty) => c' := SimReadCtx(m, b, off, VexTy2LLVM(ty), c);
    case GetI(arr, ix, bias) =>
      var c1 := SimulateExpr(m, b, vals, sc, ix, c, tmps);
      var (b1, i) := EmitExpr(m, b, vals, ix);
      SimEnds(m, b, c, b1, c1);
      c' := SimReadCtxIx(m, b1, arr, bias, i, VexTy2LLVM(arr.elemTy), c1);
      SimTrans(m, b, c, b1, c1, b', c');
    case RdTmp(t) =>
      c' := c;
      SimRefl(m, b, c);
      TempsAt(vals, sc.tt, c.regs, tmps, t);
    case Op(f, rty, args) =>
      var c1 := SimulateExprs(m, b, vals, sc, args, c, tmps);
      var (b1, os) := EmitExprs(m, b, vals, args);
      SimEnds(m, b, c, b1, c1);
      c' := SimApply(m, b1, rty, f, os, c1);
      SimTrans(m, b, c, b1, c1, b', c');
    case Load(lty, addr) =>
      var c1 := SimulateExpr(m, b, vals, sc, addr, c, tmps);
      var (b1, a) := EmitExpr(m, b, vals, addr);
      SimEnds(m, b, c, b1, c1);
      c' := SimLoadMem(m, b1, a, VexTy2LLVM(lty), c1);
      SimTrans(m, b, c, b1, c1, b', c');
    case Const(cc) =>
      c' := c;
      SimRefl(m, b, c);
      ImmVal(c.regs, ConVal(cc), ConTy(cc));
    case Mux0X(cond, expr0, exprX) => c' := SimulateMux(m, b, vals, sc, e, c, tmps);
  }

  lemma TempsAt(vals: Vals, tt: map<nat, LTy>, regs: Regs, tmps: map<nat, Val>, t: nat)
    requires Temps(vals, tt, regs, tmps) && t in tt && t in tmps
    ensures t in vals && vals[t].ty == tt[t] && EvalVal(regs, vals[t]) == Some(tmps[t])
  {
  }

  lemma ImmVal(regs: Regs, n: nat, ty: LTy)
    ensures EvalVal(regs, Imm(n, ty)) == Some(Val(BitsOf(ty), n))
  {
  }

  lemma SimApply(m: Machine, b: Build, rty: LTy, f: nat, os: seq<Operand>, c: Config) returns (c': Config)
    requires AtEnd(b, c) && EvalVals(c.regs, os).Some?
    ensures Sim(m, b, c, Emit(b, Apply(b.next, rty, f, os)), c') && c'.g == c.g
    ensures EvalVal(c'.regs, Reg(b.next, rty)) == Some(Val(BitsOf(rty), m.apply(f, EvalVals(c.regs, os).value)))
  {
    hide Reach, Grow, EvalVals, MemoOk;
    c' := SimEmit(m, b, Apply(b.next, rty, f, os), c);
  }

  lemma {:induction false} SimulateExprs(m: Machine, b: Build, vals: Vals, sc: Scope, es: seq<Expr>, c: Config, tmps: map<nat, Val>)
    returns (c': Config)
    requires AtEnd(b, c) && WfExprs(es, sc) && Temps(vals, sc.tt, c.regs, tmps) && AddrTy(m, IntTy(sc.aw))
    requires AllDefined(m, c.g, tmps, es)
    ensures
      var (b', os) := EmitExprs(m, b, vals, es);
      && Sim(m, b, c, b', c') && c'.g == c.g
      && EvalVals(c'.regs, os) == Some(EvalAll(m, c.g, tmps, es))
    decreases es, 3
  {
    hide Sim, Reach, Grow, EmitExpr, AtEnd, Temps, Eval;
    if es == [] {
      c' := c;
      SimRefl(m, b, c);
    } else {
      var (b1, o) := EmitExpr(m, b, vals, es[0]);
      var c1 := SimulateExpr(m, b, vals, sc, es[0], c, tmps);
      SimEnds(m, b, c, b1, c1);
      TempsKeep(vals, sc.tt, c.regs, c1.regs, tmps);
      c' := SimulateExprs(m, b1, vals, sc, es[1..], c1, tmps);
      var (b2, os) := EmitExprs(m, b1, vals, es[1..]);
      SimEnds(m, b1, c1, b2, c');
      KeepsOp(c1.regs, c'.regs, o);
      SimTrans(m, b, c, b1, c1, b2, c');
    }
  }

  // ---- if-then-else

  /** The text of each stage is still there in the end. */
  lemma MuxGrows(m: Machine, b: Build, vals: Vals, e: Expr)
    requires e.Mux0X? && Open(b)
    ensures
      var s := MuxRunOf(m, b, vals, e);
      && Grow(b.blocks, s.t.b6.blocks) && Grow(s.h.b1x.blocks, s.h.b2.blocks) && Grow(s.h.b1x.blocks, s.t.b3.blocks)
      && Grow(s.t.b3.blocks, s.t.b6.blocks) && Grow(s.h.b1x.blocks, s.t.b6.blocks)
      && Grow(s.t.b3.blocks, s.t.b5.blocks) && Grow(s.t.b5.blocks, s.t.b6.blocks)
      && s.h.b1x.next <= s.t.b3.next <= s.t.b5.next
  {
    hide *;
    var s, n := MuxRunOf(m, b, vals, e), |b.blocks|;
    MuxFacts(m, b, vals, e);
    MuxParts(b, s);
    TidyNext(b, s.t.b6);
    TidyNext(s.h.b1x, s.h.b2);
    TidyOpen(s.h.b1x, s.h.b2);
    CloseGrow(s.h.b2, s.h.x, n + 2, n);
    TidyNext(s.t.b3, s.t.b4);
    TidyOpen(s.t.b3, s.t.b4);
    CloseGrow(s.t.b4, s.t.z, n + 2, n + 2);
    PhiGrow(s.t.b5, s.t.zv, s.t.b4.cur, s.t.xv, s.h.b2.cur);
    GrowTrans(s.h.b1x.blocks, s.h.b2.blocks, s.t.b3.blocks);
    GrowTrans(s.t.b3.blocks, s.t.b4.blocks, s.t.b5.blocks);
    GrowTrans(s.t.b3.blocks, s.t.b5.blocks, s.t.b6.blocks);
    GrowTrans(s.h.b1x.blocks, s.t.b3.blocks, s.t.b6.blocks);
  }

  lemma PhiGrow(b: Build, zv: Operand, bz: nat, xv: Operand, bnz: nat)
    requires Open(b)
    ensures Grow(b.blocks, MuxPhi(b, zv, bz, xv, bnz).0.blocks)
  {
  }

  /** The join takes the value of the arm the run came from. */
  lemma SimPhi(m: Machine, b: Build, zv: Operand, bz: nat, xv: Operand, bnz: nat, c: Config) returns (c': Config)
    requires AtEnd(b, c) && bz != bnz && (c.prev == bz || c.prev == bnz)
    requires EvalVal(c.regs, if c.prev == bz then zv else xv).Some?
    ensures
      var (b', r) := MuxPhi(b, zv, bz, xv, bnz);
      var v := EvalVal(c.regs, if c.prev == bz then zv else xv).value;
      && Sim(m, b, c, b', c') && c'.g == c.g && r.ty == zv.ty
      && EvalVal(c'.regs, r) == Some(Val(BitsOf(zv.ty), v.n))
  {
    c' := SimEmit(m, b, Phi(b.next, zv.ty, zv, bz, xv, bnz), c);
  }

  lemma EvalWidth(regs: Regs, o: Operand, v: Val)
    requires EvalVal(regs, o) == Some(v)
    ensures v.w == BitsOf(o.ty) == BitsOf(Flat(o.ty))
  {
  }

  lemma FlatTy(m: Machine, b: Build, vals: Vals, sc: Scope, e: Expr)
    requires e.Mux0X? && Typed(vals, sc.tt) && WfExpr(e, sc)
    ensures
      var s := MuxRunOf(m, b, vals, e);
      && s.t.zv.ty == Flat(TyOf(e.expr0, sc.tt)) && s.t.z.ty == TyOf(e.expr0, sc.tt)
      && s.h.x.ty == TyOf(e.exprX, sc.tt)
  {
    hide *;
    var s, n := MuxRunOf(m, b, vals, e), |b.blocks|;
    WfMux(e, sc);
    TypeExpr(m, s.t.b3, vals, sc, e.expr0);
    TypeExpr(m, s.h.b1x, vals, sc, e.exprX);
    CloseType(s.t.b4, s.t.z, n + 2, n + 2);
  }

  /** From the join to the end: common to both arms. */
  lemma SimulateJoin(m: Machine, b: Build, vals: Vals, sc: Scope, e: Expr, c: Config, v: Val) returns (c': Config)
    requires e.Mux0X? && Open(b) && WfExpr(e, sc) && Typed(vals, sc.tt)
    requires
      var s := MuxRunOf(m, b, vals, e);
      && c.At? && c.b == |b.blocks| + 2 && c.pc == 0 && Below(c.regs, s.t.b5.next)
      && (c.prev == s.t.b4.cur || c.prev == s.h.b2.cur)
      && EvalVal(c.regs, if c.prev == s.t.b4.cur then s.t.zv else s.t.xv) == Some(v)
      && v.w == BitsOf(Flat(TyOf(e.expr0, sc.tt)))
    ensures
      var s := MuxRunOf(m, b, vals, e);
      && c'.At? && Reach(m, s.t.b6.blocks, c, c') && AtEnd(s.t.b6, c') && Keeps(c.regs, c'.regs) && c'.g == c.g
      && EvalVal(c'.regs, s.t.r) == Some(v) && s.t.b5.next <= s.t.b6.next && Newer(c.regs, c'.regs, s.t.b5.next)
  {
    hide *;
    var s := MuxRunOf(m, b, vals, e);
    MuxFacts(m, b, vals, e);
    MuxParts(b, s);
    FlatTy(m, b, vals, sc, e);
    AtStart(s.t.b5, c, Avail(b));
    c' := SimPhi(m, s.t.b5, s.t.zv, s.t.b4.cur, s.t.xv, s.h.b2.cur, c);
    SimEnds(m, s.t.b5, c, s.t.b6, c');
    SimNewer(m, s.t.b5, c, s.t.b6, c');
  }

  lemma {:induction false} SimulateNonZero(m: Machine, b: Build, vals: Vals, sc: Scope, e: Expr, c: Config, tmps: map<nat, Val>)
    returns (c': Config)
    requires e.Mux0X? && Open(b) && WfExpr(e, sc) && AddrTy(m, IntTy(sc.aw))
    requires c.At? && c.b == |b.blocks| + 1 && c.pc == 0 && Temps(vals, sc.tt, c.regs, tmps)
    requires Below(c.regs, MuxRunOf(m, b, vals, e).h.b1x.next) && Defined(m, c.g, tmps, e.exprX)
    ensures
      var s := MuxRunOf(m, b, vals, e);
      && c'.At? && Reach(m, s.t.b6.blocks, c, c') && AtEnd(s.t.b6, c') && Keeps(c.regs, c'.regs) && c'.g == c.g
      && EvalVal(c'.regs, s.t.r) == Some(Eval(m, c.g, tmps, e.exprX))
      && s.h.b1x.next <= s.t.b6.next && Newer(c.regs, c'.regs, s.h.b1x.next)
    decreases e, 0
  {
    hide *;
    var s, n := MuxRunOf(m, b, vals, e), |b.blocks|;
    MuxFacts(m, b, vals, e);
    MuxParts(b, s);
    MuxGrows(m, b, vals, e);
    WfMux(e, sc);
    TempsTyped(vals, sc.tt, c.regs, tmps);
    FlatTy(m, b, vals, sc, e);
    AtStart(s.h.b1x, c, Avail(b));
    var c1 := SimulateExpr(m, s.h.b1x, vals, sc, e.exprX, c, tmps);
    SimEnds(m, s.h.b1x, c, s.h.b2, c1);
    var c2 := SimMuxClose(m, s.h.b2, s.h.x, n + 2, n, c1);
    BelowMono(c2.regs, s.t.b3.next, s.t.b5.next);
    EvalWidth(c1.regs, s.h.x, Eval(m, c.g, tmps, e.exprX));
    c' := SimulateJoin(m, b, vals, sc, e, c2, Eval(m, c.g, tmps, e.exprX));
    KeepsTrans(c.regs, c1.regs, c2.regs);
    KeepsTrans(c.regs, c2.regs, c'.regs);
    SimNewer(m, s.h.b1x, c, s.h.b2, c1);
    NewerTrans(c.regs, c1.regs, c2.regs, s.h.b1x.next, s.h.b2.next);
    NewerTrans(c.regs, c2.regs, c'.regs, s.h.b1x.next, s.t.b5.next);
    ReachGrow(m, s.h.b2.blocks, s.t.b3.blocks, c, c1);
    ReachTrans(m, s.t.b3.blocks, c, c1, c2);
    ReachGrow(m, s.t.b3.blocks, s.t.b6.blocks, c, c2);
    ReachTrans(m, s.t.b6.blocks, c, c2, c');
  }

  lemma {:induction false} SimulateZero(m: Machine, b: Build, vals: Vals, sc: Scope, e: Expr, c: Config, tmps: map<nat, Val>)
    returns (c': Config)
    requires e.Mux0X? && Open(b) && WfExpr(e, sc) && AddrTy(m, IntTy(sc.aw))
    requires c.At? && c.b == |b.blocks| && c.pc == 0 && Temps(vals, sc.tt, c.regs, tmps)
    requires Below(c.regs, MuxRunOf(m, b, vals, e).h.b1x.next) && Defined(m, c.g, tmps, e.expr0)
    ensures
      var s := MuxRunOf(m, b, vals, e);
      && c'.At? && Reach(m, s.t.b6.blocks, c, c') && AtEnd(s.t.b6, c') && Keeps(c.regs, c'.regs) && c'.g == c.g
      && EvalVal(c'.regs, s.t.r) == Some(Eval(m, c.g, tmps, e.expr0))
      && s.h.b1x.next <= s.t.b6.next && Newer(c.regs, c'.regs, s.h.b1x.next)
    decreases e, 0
  {
    hide *;
    var s, n := MuxRunOf(m, b, vals, e), |b.blocks|;
    MuxFacts(m, b, vals, e);
    MuxParts(b, s);
    MuxGrows(m, b, vals, e);
    WfMux(e, sc);
    TempsTyped(vals, sc.tt, c.regs, tmps);
    FlatTy(m, b, vals, sc, e);
    BelowMono(c.regs, s.h.b1x.next, s.t.b3.next);
    AtStart(s.t.b3, c, Avail(b));
    var c1 := SimulateExpr(m, s.t.b3, vals, sc, e.expr0, c, tmps);
    SimEnds(m, s.t.b3, c, s.t.b4, c1);
    var c2 := SimMuxClose(m, s.t.b4, s.t.z, n + 2, n + 2, c1);
    EvalWidth(c1.regs, s.t.z, Eval(m, c.g, tmps, e.expr0));
    c' := SimulateJoin(m, b, vals, sc, e, c2, Eval(m, c.g, tmps, e.expr0));
    KeepsTrans(c.regs, c1.regs, c2.regs);
    KeepsTrans(c.regs, c2.regs, c'.regs);
    SimNewer(m, s.t.b3, c, s.t.b4, c1);
    NewerTrans(c.regs, c1.regs, c2.regs, s.t.b3.next, s.t.b4.next);
    NewerTrans(c.regs, c2.regs, c'.regs, s.t.b3.next, s.t.b5.next);
    NewerLess(c.regs, c'.regs, s.h.b1x.next, s.t.b3.next);
    ReachGrow(m, s.t.b4.blocks, s.t.b5.blocks, c, c1);
    ReachTrans(m, s.t.b5.blocks, c, c1, c2);
    ReachGrow(m, s.t.b5.blocks, s.t.b6.blocks, c, c2);
    ReachTrans(m, s.t.b6.blocks, c, c2, c');
  }

  lemma TempsTyped(vals: Vals, tt: map<nat, LTy>, regs: Regs, tmps: map<nat, Val>)
    requires Temps(vals, tt, regs, tmps)
    ensures Typed(vals, tt)
  {
  }

  lemma KeepsTrans(r0: Regs, r1: Regs, r2: Regs)
    requires Keeps(r0, r1) && Keeps(r1, r2)
    ensures Keeps(r0, r2)
  {
  }

  lemma NewerLess(r: Regs, r': Regs, n: nat, k: nat)
    requires Newer(r, r', k) && n <= k
    ensures Newer(r, r', n)
  {
  }

  lemma EvalMux(m: Machine, g: Guest, tmps: map<nat, Val>, e: Expr)
    requires e.Mux0X?
    ensures Eval(m, g, tmps, e) ==
            if Eval(m, g, tmps, e.cond).n == 0 then Eval(m, g, tmps, e.expr0) else Eval(m, g, tmps, e.exprX)
  {
  }

  lemma SimMake(m: Machine, b: Build, c: Config, b': Build, c': Config)
    requires Grow(b.blocks, b'.blocks) && AtEnd(b, c) && AtEnd(b', c') && Reach(m, b'.blocks, c, c') && Keeps(c.regs, c'.regs)
    requires b.next <= b'.next && Newer(c.regs, c'.regs, b.next)
    ensures Sim(m, b, c, b', c')
  {
  }

  lemma {:induction false} SimulateMux(m: Machine, b: Build, vals: Vals, sc: Scope, e: Expr, c: Config, tmps: map<nat, Val>)
    returns (c': Config)
    requires e.Mux0X?
    requires AtEnd(b, c) && WfExpr(e, sc) && Temps(vals, sc.tt, c.regs, tmps) && AddrTy(m, IntTy(sc.aw))
    requires Defined(m, c.g, tmps, e)
    ensures
      var (b', o) := EmitExpr(m, b, vals, e);
      && Sim(m, b, c, b', c') && c'.g == c.g
      && o.ty == TyOf(e, sc.tt)
      && EvalVal(c'.regs, o) == Some(Eval(m, c.g, tmps, e))
    decreases e, 1
  {
    hide *;
    AtEndIs(b, c);
    var s, n := MuxRunOf(m, b, vals, e), |b.blocks|;
    MuxFacts(m, b, vals, e);
    MuxRunResult(m, b, vals, e);
    MuxParts(b, s);
    MuxGrows(m, b, vals, e);
    WfMux(e, sc);
    TempsTyped(vals, sc.tt, c.regs, tmps);
    EvalMux(m, c.g, tmps, e);
    DefinedMux(m, c.g, tmps, e);
    FlatTy(m, b, vals, sc, e);
    PhiType(s.t.b5, s.t.zv, s.t.b4.cur, s.t.xv, s.h.b2.cur);
    SimMuxOpen(m, b, c);
    SimEnds(m, b, c, s.h.b0, c);
    var c1 := SimulateExpr(m, s.h.b0, vals, sc, e.cond, c, tmps);
    SimEnds(m, s.h.b0, c, s.h.b1, c1);
    var c2 := SimMuxBranch(m, s.h.b1, s.h.c, n, c1);
    KeepsTrans(c.regs, c1.regs, c2.regs);
    TempsKeep(vals, sc.tt, c.regs, c2.regs, tmps);
    ReachGrow(m, s.h.b1.blocks, s.h.b1x.blocks, c, c1);
    ReachTrans(m, s.h.b1x.blocks, c, c1, c2);
    ReachGrow(m, s.h.b1x.blocks, s.t.b6.blocks, c, c2);
    if Eval(m, c.g, tmps, e.cond).n == 0 {
      c' := SimulateZero(m, b, vals, sc, e, c2, tmps);
    } else {
      c' := SimulateNonZero(m, b, vals, sc, e, c2, tmps);
    }
    KeepsTrans(c.regs, c2.regs, c'.regs);
    SimNewer(m, b, c, s.h.b0, c);
    SimNewer(m, s.h.b0, c, s.h.b1, c1);
    NewerTrans(c.regs, c1.regs, c2.regs, s.h.b0.next, s.h.b1.next);
    NewerTrans(c.regs, c2.regs, c'.regs, s.h.b0.next, s.h.b1x.next);
    NewerLess(c.regs, c'.regs, b.next, s.h.b0.next);
    ReachTrans(m, s.t.b6.blocks, c, c2, c');
    SimMake(m, b, c, s.t.b6, c');
  }

  lemma AtEndIs(b: Build, c: Config)
    requires AtEnd(b, c)
    ensures c.At? && Open(b)
  {
  }

  lemma PhiType(b: Build, zv: Operand, bz: nat, xv: Operand, bnz: nat)
    ensures MuxPhi(b, zv, bz, xv, bnz).1.ty == zv.ty
  {
  }
}
