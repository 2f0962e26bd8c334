/** Expressions that read a temporary without a value: emission gives code that gets stuck. */
module JamExpr {
  import opened Options
  import opened Bits
  import opened VexIR
  import opened VexWf
  import opened VexDefined
  import opened LlvmIR
  import opened Builder
  import opened Lowering
  import opened Extension
  import opened StmtShape
  import opened Simulation
  import opened SimExpr
  import opened SimStmt
  import opened Jams

  /** Either the code is stuck already, or there is none and the operand has no value. */
  ghost predicate Bad(m: Machine, b: Build, b': Build, o: Operand, c: Config) {
    c.At? && (Dead(m, b'.blocks, c) || (b' == b && Unread(o, c.regs, b.next)))
  }

  lemma TidyGrow(a: Build, b: Build)
    requires Tidy(a, b)
    ensures Grow(a.blocks, b.blocks) && Open(b)
  {
    TidyNext(a, b);
    TidyOpen(a, b);
  }

  lemma ExtGrow(a: Build, b: Build)
    requires Ext(a, b) && Open(a) && Open(b) && |b.blocks| == |a.blocks| && b.cur == a.cur
    ensures Grow(a.blocks, b.blocks)
  {
    TidyLine(a, b);
    TidyNext(a, b);
  }

  lemma JamReadIx(m: Machine, b: Build, arr: RegArray, bias: int, ix: Operand, ty: LTy, c: Config)
    requires AtEnd(b, c) && Open(b) && EvalVal(c.regs, ix).None?
    ensures Dead(m, ReadCtxIx(b, arr, bias, ix, ty).0.blocks, c)
  {
    hide Dead, Grow, AtEnd, Open, Emit, IndexOffset, GetCtxTyGEP, Ext;
    JamIndex(m, b, arr, bias, ix, ty, c);
    var (b1, off) := IndexOffset(b, arr, bias, ix, ty);
    ExtIndexOffset(b, arr, bias, ix, ty);
    var (b2, p) := GetCtxTyGEP(b1, off, ty);
    ExtTyGEP(b1, off, ty);
    ExtGrow(b1, b2);
    EmitGrow(b2, Ld(b2.next, ty, p));
    DeadGrow(m, b1.blocks, b2.blocks, c);
    DeadGrow(m, b2.blocks, ReadCtxIx(b, arr, bias, ix, ty).0.blocks, c);
  }

  lemma JamApply(m: Machine, b: Build, rty: LTy, f: nat, os: seq<Operand>, c: Config)
    requires AtEnd(b, c) && EvalVals(c.regs, os).None?
    ensures Dead(m, Emit(b, Apply(b.next, rty, f, os)).blocks, c)
  {
    hide Dead, Grow, EvalVals, Emit, MemoOk, Open, Below;
    JamEmit(m, b, Apply(b.next, rty, f, os), c);
  }

  /** Emission of an expression that reads a temporary without a value. */
  lemma {:induction false} BadExpr(m: Machine, b: Build, vals: Vals, sc: Scope, e: Expr, c: Config, tmps: map<nat, Val>)
    requires Loose(m, b, vals, sc, c, tmps) && WfExpr(e, sc) && !Defined(m, c.g, tmps, e)
    ensures Bad(m, b, EmitExpr(m, b, vals, e).0, EmitExpr(m, b, vals, e).1, c)
    ensures !e.RdTmp? ==> Dead(m, EmitExpr(m, b, vals, e).0.blocks, c)
    decreases e, 2
  {
    hide Sim, Reach, Grow, LoadMem, ReadCtxIx, MuxOpen, MuxBranch, MuxClose, MuxPhi, WfArr, Aligned, Temps, AtEnd, EvalVal, EvalVals,
         Dead, Loose, Unread, Open, Tidy, Emit, Eval, Sized, AddrTy;
    LooseParts(m, b, vals, sc, c, tmps);
    TidyExpr(m, b, vals, e);
    var (b', o) := EmitExpr(m, b, vals, e);
    match e
    case RdTmp(t) => GhostOf(m, b, vals, sc, e, c, tmps);
    case GetI(arr, ix, bias) =>
      BadExpr(m, b, vals, sc, ix, c, tmps);
      var (b1, i) := EmitExpr(m, b, vals, ix);
      TidyExpr(m, b, vals, ix);
      TidyGrow(b, b1);
      if Dead(m, b1.blocks, c) {
        ReadIxGrow(b1, arr, bias, i, VexTy2LLVM(arr.elemTy));
        DeadGrow(m, b1.blocks, b'.blocks, c);
      } else {
        UnreadVal(i, c.regs, b.next);
        JamReadIx(m, b, arr, bias, i, VexTy2LLVM(arr.elemTy), c);
      }
    case Op(f, rty, args) =>
      var c1 := BadExprs(m, b, vals, sc, args, c, tmps);
      var (b1, os) := EmitExprs(m, b, vals, args);
      TidyExprs(m, b, vals, args);
      TidyGrow(b, b1);
      var i := Apply(b1.next, rty, f, os);
      EmitGrow(b1, i);
      if Dead(m, b1.blocks, c) {
        DeadGrow(m, b1.blocks, b'.blocks, c);
      } else {
        SimEnds(m, b, c, b1, c1);
        JamApply(m, b1, rty, f, os, c1);
        DeadThen(m, b, c, b1, c1, b'.blocks);
      }
    case Load(lty, addr) =>
      AddrParts(m, addr, sc);
      BadExpr(m, b, vals, sc, addr, c, tmps);
      TempsTyped(vals, sc.tt, c.regs, tmps);
      TypeExpr(m, b, vals, sc, addr);
      var (b1, a) := EmitExpr(m, b, vals, addr);
      TidyExpr(m, b, vals, addr);
      TidyGrow(b, b1);
      if Dead(m, b1.blocks, c) {
        LoadGrow(m, b1, a, VexTy2LLVM(lty));
        DeadGrow(m, b1.blocks, b'.blocks, c);
      } else {
        UnreadVal(a, c.regs, b.next);
        JamLoad(m, b, a, VexTy2LLVM(lty), c);
      }
    case Mux0X(cond, expr0, exprX) => BadMux(m, b, vals, sc, e, c, tmps);
    case _ =>
  }

  lemma AddrParts(m: Machine, addr: Expr, sc: Scope)
    requires WfAddr(addr, sc) && AddrTy(m, IntTy(sc.aw))
    ensures WfExpr(addr, sc) && AddrTy(m, TyOf(addr, sc.tt))
  {
  }

  lemma ReadIxGrow(b: Build, arr: RegArray, bias: int, ix: Operand, ty: LTy)
    requires Open(b)
    ensures Grow(b.blocks, ReadCtxIx(b, arr, bias, ix, ty).0.blocks)
  {
    hide ReadCtxIx, Grow, Open, Ext;
    ExtReadCtxIx(b, arr, bias, ix, ty);
    ExtGrow(b, ReadCtxIx(b, arr, bias, ix, ty).0);
  }

  lemma LoadGrow(m: Machine, b: Build, a: Operand, ty: LTy)
    requires Open(b)
    ensures Grow(b.blocks, LoadMem(m, b, a, ty).0.blocks)
  {
    hide LoadMem, Grow, Open, Ext;
    ExtLoadMem(m, b, a, ty);
    ExtGrow(b, LoadMem(m, b, a, ty).0);
  }

  /** Arguments, one of which reads a temporary without a value: stuck, or not all of them have values. */
  lemma {:induction false} BadExprs(m: Machine, b: Build, vals: Vals, sc: Scope, es: seq<Expr>, c: Config, tmps: map<nat, Val>)
    returns (c1: Config)
    requires Loose(m, b, vals, sc, c, tmps) && WfExprs(es, sc) && !AllDefined(m, c.g, tmps, es)
    ensures
      var (b', os) := EmitExprs(m, b, vals, es);
      Dead(m, b'.blocks, c) || (c1.At? && Sim(m, b, c, b', c1) && EvalVals(c1.regs, os).None?)
    decreases es, 3
  {
    hide Sim, Reach, Grow, EmitExpr, AtEnd, Temps, Eval, Loose, Dead, Unread, Open, Tidy, EvalVal, WfExpr, AddrTy;
    LooseParts(m, b, vals, sc, c, tmps);
    c1 := c;
    var (b1, o) := EmitExpr(m, b, vals, es[0]);
    TidyExpr(m, b, vals, es[0]);
    TidyGrow(b, b1);
    var rest := es[1..];
    TidyExprs(m, b1, vals, rest);
    var (b', os) := EmitExprs(m, b1, vals, rest);
    TidyGrow(b1, b');
    if Defined(m, c.g, tmps, es[0]) {
      var c0 := SimHere(m, b, vals, sc, es[0], c, tmps);
      LooseLater(m, b, vals, sc, c, tmps, b1, c0);
      c1 := BadExprs(m, b1, vals, sc, rest, c0, tmps);
      if Dead(m, b'.blocks, c0) {
        DeadThen(m, b, c, b1, c0, b'.blocks);
      } else {
        SimTrans(m, b, c, b1, c0, b', c1);
      }
    } else {
      BadExpr(m, b, vals, sc, es[0], c, tmps);
      if Dead(m, b1.blocks, c) {
        DeadGrow(m, b1.blocks, b'.blocks, c);
      } else if AllDefined(m, c.g, tmps, rest) {
        c1 := SimulateExprs(m, b, vals, sc, rest, c, tmps);
        UnreadKeeps(m, b, c, b', c1, o);
        UnreadVal(o, c1.regs, b'.next);
      } else {
        c1 := BadExprs(m, b, vals, sc, rest, c, tmps);
      }
    }
  }

  // ---- if-then-else

  /** The end of an arm whose value is missing: the cast is stuck, or the join will be. */
  lemma BadClose(m: Machine, b: Build, v: Operand, merge: nat, to: nat, c: Config) returns (c': Config)
    requires AtEnd(b, c) && c.At? && to < |b.blocks| && Unread(v, c.regs, b.next)
    ensures
      var (b', fv) := MuxClose(b, v, merge, to);
      && Grow(b.blocks, b'.blocks)
      && (Dead(m, b'.blocks, c) ||
          (Reach(m, b'.blocks, c, c') && c' == At(merge, 0, b.cur, c.regs, c.g) && fv == v && b'.next == b.next))
  {
    hide Grow, Reach, Dead, Emit;
    AtEndIs(b, c);
    CloseGrow(b, v, merge, to);
    UnreadVal(v, c.regs, b.next);
    var b' := MuxClose(b, v, merge, to).0;
    c' := At(merge, 0, b.cur, c.regs, c.g);
    if Flat(v.ty) == v.ty {
      var d := SimJump(m, b, merge, c);
    } else {
      var i := Cast(b.next, Flat(v.ty), BitCast, v);
      JamEmit(m, b, i, c);
      EmitGrow(b, i);
      TermGrow(Emit(b, i), Br(merge));
      DeadGrow(m, Emit(b, i).blocks, Terminate(Emit(b, i), Br(merge)).blocks, c);
    }
  }

  lemma BadJoin(m: Machine, b: Build, vals: Vals, e: Expr, c: Config)
    requires e.Mux0X? && Open(b)
    requires
      var s := MuxRunOf(m, b, vals, e);
      && c.At? && c.b == |b.blocks| + 2 && c.pc == 0 && Below(c.regs, s.t.b5.next)
      && (c.prev == s.t.b4.cur || c.prev == s.h.b2.cur)
      && EvalVal(c.regs, if c.prev == s.t.b4.cur then s.t.zv else s.t.xv).None?
    ensures Dead(m, MuxRunOf(m, b, vals, e).t.b6.blocks, c)
  {
    hide *;
    var s := MuxRunOf(m, b, vals, e);
    MuxFacts(m, b, vals, e);
    MuxParts(b, s);
    AtStart(s.t.b5, c, Avail(b));
    JamPhi(m, s.t.b5, s.t.zv, s.t.b4.cur, s.t.xv, s.h.b2.cur, c);
  }

  lemma JamPhi(m: Machine, b: Build, zv: Operand, bz: nat, xv: Operand, bnz: nat, c: Config)
    requires AtEnd(b, c) && bz != bnz && (c.prev == bz || c.prev == bnz)
    requires EvalVal(c.regs, if c.prev == bz then zv else xv).None?
    ensures Dead(m, MuxPhi(b, zv, bz, xv, bnz).0.blocks, c)
  {
    hide Dead, Grow, Emit;
    JamEmit(m, b, Phi(b.next, zv.ty, zv, bz, xv, bnz), c);
  }

  lemma {:induction false} BadNonZero(m: Machine, b: Build, vals: Vals, sc: Scope, e: Expr, c: Config, tmps: map<nat, Val>)
    requires e.Mux0X? && Open(b) && WfExpr(e, sc) && AddrTy(m, IntTy(sc.aw))
    requires c.At? && c.b == |b.blocks| + 1 && c.pc == 0 && Temps(vals, sc.tt, c.regs, tmps)
    requires Below(c.regs, MuxRunOf(m, b, vals, e).h.b1x.next) && !Defined(m, c.g, tmps, e.exprX)
    requires Ghosts(vals, sc.tt, tmps, c.regs, MuxRunOf(m, b, vals, e).h.b1x.next)
    ensures Dead(m, MuxRunOf(m, b, vals, e).t.b6.blocks, c)
    decreases e, 0
  {
    hide *;
    var s, n := MuxRunOf(m, b, vals, e), |b.blocks|;
    MuxFacts(m, b, vals, e);
    MuxParts(b, s);
    MuxGrows(m, b, vals, e);
    WfMux(e, sc);
    AtStart(s.h.b1x, c, Avail(b));
    HereAt(m, s.h.b1x, vals, sc, c, tmps);
    LooseAt(m, s.h.b1x, vals, sc, c, tmps);
    BadExpr(m, s.h.b1x, vals, sc, e.exprX, c, tmps);
    TidyGrow(s.h.b1x, s.h.b2);
    CloseGrow(s.h.b2, s.h.x, n + 2, n);
    BadIs(m, s.h.b1x, s.h.b2, s.h.x, c);
    if Dead(m, s.h.b2.blocks, c) {
      DeadGrow(m, s.h.b2.blocks, s.t.b3.blocks, c);
      DeadGrow(m, s.t.b3.blocks, s.t.b6.blocks, c);
    } else {
      var c2 := BadClose(m, s.h.b2, s.h.x, n + 2, n, c);
      if Dead(m, s.t.b3.blocks, c) {
        DeadGrow(m, s.t.b3.blocks, s.t.b6.blocks, c);
      } else {
        UnreadVal(s.h.x, c.regs, s.h.b2.next);
        BelowMono(c.regs, s.h.b1x.next, s.t.b5.next);
        BadJoin(m, b, vals, e, c2);
        ReachGrow(m, s.t.b3.blocks, s.t.b6.blocks, c, c2);
        DeadVia(m, s.t.b6.blocks, c, c2);
      }
    }
  }

  lemma LooseAt(m: Machine, b: Build, vals: Vals, sc: Scope, c: Config, tmps: map<nat, Val>)
    requires Here(m, b, vals, sc, c, tmps) && c.At? && Ghosts(vals, sc.tt, tmps, c.regs, b.next)
    ensures Loose(m, b, vals, sc, c, tmps)
  {
  }

  lemma BadIs(m: Machine, b: Build, b': Build, o: Operand, c: Config)
    requires Bad(m, b, b', o, c)
    ensures Dead(m, b'.blocks, c) || (b' == b && Unread(o, c.regs, b.next))
  {
  }

  lemma GhostsLater(vals: Vals, tt: map<nat, LTy>, tmps: map<nat, Val>, r: Regs, r': Regs, n: nat, k: nat)
    requires Ghosts(vals, tt, tmps, r, n) && Newer(r, r', n) && n <= k
    ensures Ghosts(vals, tt, tmps, r', k)
  {
  }

  lemma {:induction false} BadZero(m: Machine, b: Build, vals: Vals, sc: Scope, e: Expr, c: Config, tmps: map<nat, Val>)
    requires e.Mux0X? && Open(b) && WfExpr(e, sc) && AddrTy(m, IntTy(sc.aw))
    requires c.At? && c.b == |b.blocks| && c.pc == 0 && Temps(vals, sc.tt, c.regs, tmps)
    requires Below(c.regs, MuxRunOf(m, b, vals, e).h.b1x.next) && !Defined(m, c.g, tmps, e.expr0)
    requires Ghosts(vals, sc.tt, tmps, c.regs, MuxRunOf(m, b, vals, e).h.b1x.next)
    ensures Dead(m, MuxRunOf(m, b, vals, e).t.b6.blocks, c)
    decreases e, 0
  {
    hide *;
    var s, n := MuxRunOf(m, b, vals, e), |b.blocks|;
    MuxFacts(m, b, vals, e);
    MuxParts(b, s);
    MuxGrows(m, b, vals, e);
    WfMux(e, sc);
    BelowMono(c.regs, s.h.b1x.next, s.t.b3.next);
    AtStart(s.t.b3, c, Avail(b));
    HereAt(m, s.t.b3, vals, sc, c, tmps);
    NewerRefl(c.regs, s.h.b1x.next);
    GhostsLater(vals, sc.tt, tmps, c.regs, c.regs, s.h.b1x.next, s.t.b3.next);
    LooseAt(m, s.t.b3, vals, sc, c, tmps);
    BadExpr(m, s.t.b3, vals, sc, e.expr0, c, tmps);
    TidyGrow(s.t.b3, s.t.b4);
    CloseGrow(s.t.b4, s.t.z, n + 2, n + 2);
    BadIs(m, s.t.b3, s.t.b4, s.t.z, c);
    if Dead(m, s.t.b4.blocks, c) {
      DeadGrow(m, s.t.b4.blocks, s.t.b5.blocks, c);
      DeadGrow(m, s.t.b5.blocks, s.t.b6.blocks, c);
    } else {
      var c2 := BadClose(m, s.t.b4, s.t.z, n + 2, n + 2, c);
      if Dead(m, s.t.b5.blocks, c) {
        DeadGrow(m, s.t.b5.blocks, s.t.b6.blocks, c);
      } else {
        UnreadVal(s.t.z, c.regs, s.t.b4.next);
        BelowMono(c.regs, s.t.b3.next, s.t.b5.next);
        BadJoin(m, b, vals, e, c2);
        ReachGrow(m, s.t.b5.blocks, s.t.b6.blocks, c, c2);
        DeadVia(m, s.t.b6.blocks, c, c2);
      }
    }
  }

  lemma {:induction false} BadMux(m: Machine, b: Build, vals: Vals, sc: Scope, e: Expr, c: Config, tmps: map<nat, Val>)
    requires e.Mux0X? && Loose(m, b, vals, sc, c, tmps) && WfExpr(e, sc) && !Defined(m, c.g, tmps, e)
    ensures Dead(m, EmitExpr(m, b, vals, e).0.blocks, c)
    decreases e, 1
  {
    hide *;
    LooseParts(m, b, vals, sc, c, tmps);
    AtEndIs(b, c);
    var s, n := MuxRunOf(m, b, vals, e), |b.blocks|;
    MuxFacts(m, b, vals, e);
    MuxRunResult(m, b, vals, e);
    MuxParts(b, s);
    MuxGrows(m, b, vals, e);
    WfMux(e, sc);
    UndefinedMux(m, c.g, tmps, e);
    SimMuxOpen(m, b, c);
    SimEnds(m, b, c, s.h.b0, c);
    LooseLater(m, b, vals, sc, c, tmps, s.h.b0, c);
    if Defined(m, c.g, tmps, e.cond) {
      var c1 := SimHere(m, s.h.b0, vals, sc, e.cond, c, tmps) by { LooseParts(m, s.h.b0, vals, sc, c, tmps); }
      SimEnds(m, s.h.b0, c, s.h.b1, c1);
      var c2 := SimMuxBranch(m, s.h.b1, s.h.c, n, c1);
      KeepsTrans(c.regs, c1.regs, c2.regs);
      TempsKeep(vals, sc.tt, c.regs, c2.regs, tmps);
      SimNewer(m, s.h.b0, c, s.h.b1, c1);
      NewerTrans(c.regs, c1.regs, c2.regs, s.h.b0.next, s.h.b1.next);
      LooseParts(m, s.h.b0, vals, sc, c, tmps);
      GhostsLater(vals, sc.tt, tmps, c.regs, c2.regs, s.h.b0.next, s.h.b1x.next);
      ReachGrow(m, s.h.b1.blocks, s.h.b1x.blocks, c, c1);
      ReachTrans(m, s.h.b1x.blocks, c, c1, c2);
      ReachGrow(m, s.h.b1x.blocks, s.t.b6.blocks, c, c2);
      if Eval(m, c.g, tmps, e.cond).n == 0 {
        BadZero(m, b, vals, sc, e, c2, tmps);
      } else {
        BadNonZero(m, b, vals, sc, e, c2, tmps);
      }
      DeadVia(m, s.t.b6.blocks, c, c2);
    } else {
      BadExpr(m, s.h.b0, vals, sc, e.cond, c, tmps);
      BadIs(m, s.h.b0, s.h.b1, s.h.c, c);
      JamMuxBranch(m, s.h.b0, s.h.b1, s.h.c, n, c);
      DeadGrow(m, s.h.b1x.blocks, s.t.b6.blocks, c);
    }
  }

  lemma UndefinedMux(m: Machine, g: Guest, tmps: map<nat, Val>, e: Expr)
    requires e.Mux0X? && !Defined(m, g, tmps, e)
    ensures Defined(m, g, tmps, e.cond) ==>
            if Eval(m, g, tmps, e.cond).n == 0 then !Defined(m, g, tmps, e.expr0) else !Defined(m, g, tmps, e.exprX)
  {
  }

  lemma JamMuxBranch(m: Machine, b0: Build, b: Build, o: Operand, n: nat, c: Config)
    requires AtEnd(b0, c) && Tidy(b0, b) && n + 1 < |b.blocks|
    requires Dead(m, b.blocks, c) || (b == b0 && Unread(o, c.regs, b.next))
    ensures Dead(m, MuxBranch(b, o, n).blocks, c)
  {
    hide Dead, Grow, AtEnd, Emit, Tidy, Open;
    TidyGrow(b0, b);
    var i := Arith(b.next, IntTy(1), ICmpEQ, o, Imm(0, o.ty));
    EmitGrow(b, i);
    TermGrow(Emit(b, i), CondBr(Reg(b.next, IntTy(1)), n, n + 1));
    if Dead(m, b.blocks, c) {
      DeadGrow(m, b.blocks, Emit(b, i).blocks, c);
    } else {
      AtEndIs(b0, c);
      UnreadVal(o, c.regs, b.next);
      JamEmit(m, b, i, c);
    }
    DeadGrow(m, Emit(b, i).blocks, MuxBranch(b, o, n).blocks, c);
  }

  lemma TermGrow(b: Build, t: Term)
    requires Open(b)
    ensures Grow(b.blocks, Terminate(b, t).blocks)
  {
  }
}
