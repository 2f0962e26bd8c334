/** Helper calls and guarded exits. */
module SimDirty {
  import opened Options
  import opened VexIR
  import opened VexWf
  import opened VexDefined
  import opened LlvmIR
  import opened Builder
  import opened Lowering
  import opened Extension
  import opened StmtShape
  import opened Simulation
  import opened SimExpr
  import opened SimStmt

  lemma SimHereExprs(m: Machine, b: Build, vals: Vals, sc: Scope, es: seq<Expr>, c: Config, tmps: map<nat, Val>)
    returns (c': Config)
    requires Here(m, b, vals, sc, c, tmps) && WfExprs(es, sc) && c.At? && AllDefined(m, c.g, tmps, es)
    ensures
      var (b', os) := EmitExprs(m, b, vals, es);
      && Sim(m, b, c, b', c') && c.At? && c'.At? && AtEnd(b', c') && c'.g == c.g
      && EvalVals(c'.regs, os) == Some(EvalAll(m, c.g, tmps, es))
  {
    hide *;
    HereParts(m, b, vals, sc, c, tmps);
    c' := SimulateExprs(m, b, vals, sc, es, c, tmps);
    var b' := EmitExprs(m, b, vals, es).0;
    SimEnds(m, b, c, b', c');
    AtEndIs(b', c');
  }

  lemma SimCallInstr(m: Machine, b: Build, ty: LTy, f: nat, os: seq<Operand>, c: Config) returns (c': Config)
    requires AtEnd(b, c) && EvalVals(c.regs, os).Some?
    ensures
      var r := m.dirty(f, EvalVals(c.regs, os).value, c.g);
      && Sim(m, b, c, Emit(b, CallDirty(b.next, ty, f, os)), c') && c'.At? && c'.g == r.g
      && EvalVal(c'.regs, Reg(b.next, ty)) == Some(Val(BitsOf(ty), r.ret))
  {
    hide Reach, Grow, EvalVals, MemoOk;
    c' := SimEmit(m, b, CallDirty(b.next, ty, f, os), c);
  }

  lemma SimCastTo(m: Machine, b: Build, b1: Build, c: Config, c1: Config, ty: LTy, ck: CastKind, v: Operand)
    returns (c': Config)
    requires Sim(m, b, c, b1, c1) && c1.At? && EvalVal(c1.regs, v).Some?
    ensures
      var i := Cast(b1.next, ty, ck, v);
      && Sim(m, b, c, Emit(b1, i), c') && c'.At? && c'.g == c1.g
      && EvalVal(c'.regs, Reg(b1.next, ty)) == Some(Val(BitsOf(ty), CastVal(ck, EvalVal(c1.regs, v).value, BitsOf(ty))))
  {
    hide Reach, Grow, CastVal;
    var i := Cast(b1.next, ty, ck, v);
    c' := SimEmit(m, b1, i, c1);
    SimTrans(m, b, c, b1, c1, Emit(b1, i), c');
  }

  /** What a helper call leaves in the values of the temporaries. */
  predicate CallVals(vals: Vals, vals': Vals, regs: Regs, retTy: LTy, ret: nat, out: Option<DirtyTmp>) {
    if out.None? then vals' == vals
    else
      var to, t := VexTy2LLVM(out.value.ty), out.value.tmp;
      && t in vals' && vals' == vals[t := vals'[t]]
      && vals'[t].ty == DirtyTy(retTy, to) && !vals'[t].Imm? && EvalVal(regs, vals'[t]) == Some(DirtyVal(ret, retTy, to))
  }

  lemma SimCall(m: Machine, b: Build, vals: Vals, sc: Scope, f: nat, retTy: LTy, args: seq<Expr>, out: Option<DirtyTmp>,
                c: Config, tmps: map<nat, Val>) returns (c': Config, r: Emitted)
    requires Here(m, b, vals, sc, c, tmps) && WfExprs(args, sc) && c.At? && AllDefined(m, c.g, tmps, args)
    ensures c.At? && c'.At? && Sim(m, b, c, r.b, c')
    ensures
      var d := m.dirty(f, EvalAll(m, c.g, tmps, args), c.g);
      c'.g == d.g && CallVals(vals, r.vals, c'.regs, retTy, d.ret, out)
    ensures r == EmitCall(m, b, vals, f, retTy, args, out)
  {
    hide Defined, AllDefined, Here, Sim, AtEnd, Reach, Grow, EmitExprs, EvalAll, WfExprs, EvalVal, EvalVals, Emit;
    var (b1, os) := EmitExprs(m, b, vals, args);
    var c1 := SimHereExprs(m, b, vals, sc, args, c, tmps);
    var d := m.dirty(f, EvalAll(m, c.g, tmps, args), c.g);
    var i := CallDirty(b1.next, retTy, f, os);
    var c2 := SimCallInstr(m, b1, retTy, f, os, c1);
    var b2 := Emit(b1, i);
    SimTrans(m, b, c, b1, c1, b2, c2);
    var ret := Reg(b1.next, retTy);
    r := EmitCall(m, b, vals, f, retTy, args, out);
    c' := c2;
    if out.Some? {
      var to := VexTy2LLVM(out.value.ty);
      if BitsOf(retTy) < BitsOf(to) {
        c' := SimCastTo(m, b, b2, c, c2, to, ZExt, ret);
      } else if BitsOf(retTy) > BitsOf(to) {
        c' := SimCastTo(m, b, b2, c, c2, to, Trunc, ret);
      }
    }
  }

  lemma OneVal(regs: Regs, o: Operand, v: Val)
    requires EvalVal(regs, o) == Some(v) && IsOne(o)
    ensures v.n == 1
  {
  }

  /** The temporaries after a helper call, whichever way its guard went. */
  lemma TempsCall(vals: Vals, vals': Vals, sc: Scope, sc': Scope, r: Regs, r': Regs, tmps: map<nat, Val>,
                  retTy: LTy, ret: nat, out: Option<DirtyTmp>)
    requires Temps(vals, sc.tt, r, tmps) && Keeps(r, r') && CallVals(vals, vals', r', retTy, ret, out)
    ensures
      var to := if out.Some? then VexTy2LLVM(out.value.ty) else IntTy(0);
      var tmps' := if out.None? then tmps else tmps[out.value.tmp := DirtyVal(ret, retTy, to)];
      && (out.None? ==> Temps(vals', sc.tt, r', tmps'))
      && (out.Some? ==> Temps(vals', sc.tt[out.value.tmp := DirtyTy(retTy, to)], r', tmps'))
      && (out.Some? && out.value.tmp !in sc.tt ==> Temps(vals', sc.tt, r', tmps'))
  {
    TempsKeep(vals, sc.tt, r, r', tmps);
    if out.Some? {
      var t := out.value.tmp;
      var to := VexTy2LLVM(out.value.ty);
      TempsSet(vals, sc.tt, r, r', tmps, t, vals'[t], DirtyVal(ret, retTy, to));
    }
  }

  /** The operand recorded for a helper's result is a register made by the call. */
  lemma CallFresh(m: Machine, b: Build, vals: Vals, f: nat, retTy: LTy, args: seq<Expr>, t: DirtyTmp)
    requires Open(b)
    ensures
      var r := EmitCall(m, b, vals, f, retTy, args, Some(t));
      t.tmp in r.vals && r.vals[t.tmp].Reg? && b.next <= r.vals[t.tmp].id < r.b.next
  {
    hide EmitExprs, Tidy, Open;
    var (b1, os) := EmitExprs(m, b, vals, args);
    TidyExprs(m, b, vals, args);
    TidyNext(b, b1);
  }

  lemma SimDirtyCall(m: Machine, b: Build, vals: Vals, sc: Scope, guard: Expr, f: nat, retTy: LTy, args: seq<Expr>,
                     out: Option<DirtyTmp>, c: Config, tmps: map<nat, Val>)
    returns (c': Config, r: Emitted, tmps': map<nat, Val>)
    requires Here(m, b, vals, sc, c, tmps) && Ones(vals, sc) && WfStmt(Dirty(guard, f, retTy, args, out), sc)
    requires c.At? && Proceeds(m, Dirty(guard, f, retTy, args, out), c.g, tmps)
    ensures c.At? && c'.At? && Sim(m, b, c, r.b, c')
    ensures Exec(m, Dirty(guard, f, retTy, args, out), c.g, tmps) == Go(c'.g, tmps')
    ensures Temps(r.vals, After(Dirty(guard, f, retTy, args, out), sc).tt, c'.regs, tmps')
    ensures out.Some? && Eval(m, c.g, tmps, guard).n == 0 ==>
            var t := out.value.tmp; t in r.vals && r.vals[t].Reg? && r.vals[t].id !in c'.regs && r.vals[t].id < r.b.next
    ensures out.Some? && (Eval(m, c.g, tmps, guard).n != 0 || out.value.tmp !in tmps) ==>
            Temps(r.vals, sc.tt[out.value.tmp := DirtyTy(retTy, VexTy2LLVM(out.value.ty))], c'.regs, tmps')
    ensures r == EmitDirty(m, b, vals, guard, f, retTy, args, out)
  {
    hide Defined, AllDefined, Here, Sim, AtEnd, Reach, Grow, EmitExpr, EvalAll, WfExprs, EvalVal, EmitCall, Eval, WfExpr, Split, Join, Tidy, Open,
         Temps, AddrTy, Below, MemoOk, Keeps, MoveTo, LiteralOne, IsOne, Ones, CallVals, DirtyVal;
    HereParts(m, b, vals, sc, c, tmps);
    var (b1, g) := EmitExpr(m, b, vals, guard);
    var c1 := SimHere(m, b, vals, sc, guard, c, tmps);
    SimEnds(m, b, c, b1, c1);
    OneExpr(m, b, vals, sc, guard);
    r := EmitDirty(m, b, vals, guard, f, retTy, args, out);
    var d := m.dirty(f, EvalAll(m, c.g, tmps, args), c.g);
    OnesUsed(vals, sc);
    tmps' := if Eval(m, c.g, tmps, guard).n == 0 || out.None? then tmps
             else tmps[out.value.tmp := DirtyVal(d.ret, retTy, VexTy2LLVM(out.value.ty))];
    if IsOne(g) {
      OneVal(c1.regs, g, Eval(m, c.g, tmps, guard));
      var rc;
      c', rc := SimCall(m, b1, vals, sc, f, retTy, args, out, c1, tmps);
      SimEnds(m, b1, c1, rc.b, c');
      SimTrans(m, b, c, b1, c1, rc.b, c');
      KeepsTrans(c.regs, c1.regs, c'.regs);
      TempsCall(vals, rc.vals, sc, sc, c.regs, c'.regs, tmps, retTy, d.ret, out);
    } else {
      var n := |b1.blocks|;
      var s := MoveTo(Split(b1, g), n);
      HereParts(m, b1, vals, sc, c1, tmps);
      SplitOpen(b1, g);
      TidyCall(m, s, vals, f, retTy, args, out);
      var rc := EmitCall(m, s, vals, f, retTy, args, out);
      if Eval(m, c.g, tmps, guard).n == 0 {
        c' := SimGuardSkip(m, b1, g, rc.b, c1);
        SimTrans(m, b, c, b1, c1, Join(rc.b, n + 1), c');
        CallSkips(m, s, vals, sc, f, retTy, args, out, c'.regs, tmps);
        if out.Some? {
          CallFresh(m, s, vals, f, retTy, args, out.value);
          AtEndBelow(b1, c1);
        }
      } else {
        var e0 := SimSplit(m, b1, g, c1);
        HereAt(m, s, vals, sc, e0, tmps);
        var e1, rc1 := SimCall(m, s, vals, sc, f, retTy, args, out, e0, tmps);
        SimEnds(m, s, e0, rc.b, e1);
        c' := SimGuardTake(m, b1, g, rc.b, c1, e0, e1);
        SimTrans(m, b, c, b1, c1, Join(rc.b, n + 1), c');
        KeepsTrans(c.regs, c1.regs, c'.regs);
        TempsCall(vals, rc.vals, sc, sc, c.regs, c'.regs, tmps, retTy, d.ret, out);
      }
    }
  }

  lemma OnesUsed(vals: Vals, sc: Scope)
    requires Ones(vals, sc)
    ensures sc.tt.Keys <= sc.used
  {
  }

  lemma CallSkips(m: Machine, b: Build, vals: Vals, sc: Scope, f: nat, retTy: LTy, args: seq<Expr>, out: Option<DirtyTmp>,
                  regs: Regs, tmps: map<nat, Val>)
    requires Temps(vals, sc.tt, regs, tmps) && (out.Some? ==> out.value.tmp !in sc.tt)
    ensures
      var r := EmitCall(m, b, vals, f, retTy, args, out);
      && Temps(r.vals, sc.tt, regs, tmps)
      && (out.Some? && out.value.tmp !in tmps ==>
            Temps(r.vals, sc.tt[out.value.tmp := DirtyTy(retTy, VexTy2LLVM(out.value.ty))], regs, tmps))
  {
    hide Emit, EmitExprs;
    if out.Some? {
      var o := EmitCall(m, b, vals, f, retTy, args, out).vals[out.value.tmp];
      TempsSkip(vals, sc.tt, regs, tmps, out.value.tmp, o);
    }
  }

  // ---- guarded exit

  /** The guarded exits that the emitter accepts, and what it writes for them: what the jump means. */
  lemma StmtKind(jk: JumpKind)
    ensures StmtExitType(jk) == if jk in {NoRedir, ClientReq, Yield, SigTRAP} then None else Some(JumpByte(jk))
    ensures StmtExitType(jk).Some? ==> (JumpByte(jk) == 0 <==> jk == Boring)
  {
  }

  lemma SimLeave(m: Machine, b: Build, jk: JumpKind, dst: nat, to: nat, c: Config)
    requires AtEnd(b, c) && to < |b.blocks| && m.exitOff < TWO31 && StmtExitType(jk).Some?
    ensures Reach(m, EmitLeave(m, b, jk, dst, to).blocks, c, Done(Low64(dst), ExitGuest(m, c.g, jk)))
  {
    hide WriteCtx, Reach, Grow, Sim, PutVal, Low64, StmtExitType, JumpByte;
    StmtKind(jk);
    var c1 := c;
    var b1 := b;
    if jk == Boring {
      SimRefl(m, b, c);
    } else {
      var k := Imm(StmtExitType(jk).value, IntTy(8));
      ImmVal(c.regs, StmtExitType(jk).value, IntTy(8));
      c1 := SimWriteCtx(m, b, m.exitOff, k, c);
      b1 := SetExitType(m, b, StmtExitType(jk).value);
    }
    SimEnds(m, b, c, b1, c1);
    SimReturn(m, b1, Imm(Low64(dst), IntTy(64)), c1);
    var f := EmitLeave(m, b, jk, dst, to).blocks;
    ReachGrow(m, b1.blocks, f, c, c1);
    ReachTrans(m, f, c, c1, Done(Low64(dst), c1.g));
  }

  lemma SimReturn(m: Machine, b: Build, o: Operand, c: Config)
    requires AtEnd(b, c) && EvalVal(c.regs, o).Some?
    ensures Grow(b.blocks, Terminate(b, RetVal(o)).blocks)
    ensures Reach(m, Terminate(b, RetVal(o)).blocks, c, Done(EvalVal(c.regs, o).value.n, c.g))
  {
    ReachStep(m, Terminate(b, RetVal(o)).blocks, c, Done(EvalVal(c.regs, o).value.n, c.g));
  }

  lemma LeaveGrow(m: Machine, b: Build, jk: JumpKind, dst: nat, to: nat)
    requires Open(b) && to < |b.blocks|
    ensures Grow(b.blocks, EmitLeave(m, b, jk, dst, to).blocks)
    ensures b.next <= EmitLeave(m, b, jk, dst, to).next
    ensures to != b.cur ==> EmitLeave(m, b, jk, dst, to).blocks[to] == b.blocks[to]
  {
    hide WriteCtx;
    if !(jk == Boring || StmtExitType(jk).None?) {
      ExtWriteCtx(b, m.exitOff, Imm(StmtExitType(jk).value, IntTy(8)));
    }
  }

  lemma SimNewTwo(m: Machine, b: Build, c: Config)
    requires AtEnd(b, c)
    ensures Sim(m, b, c, NewBlock(NewBlock(b)), c)
  {
    ReachRefl(m, NewBlock(NewBlock(b)).blocks, c);
  }

  lemma SimExit(m: Machine, b: Build, vals: Vals, sc: Scope, guard: Expr, jk: JumpKind, dst: nat, c: Config,
                tmps: map<nat, Val>) returns (c': Config, r: Build)
    requires Here(m, b, vals, sc, c, tmps) && c.At? && WfExpr(guard, sc) && StmtExitType(jk).Some? && m.exitOff < TWO31
    requires Defined(m, c.g, tmps, guard)
    ensures Eval(m, c.g, tmps, guard).n == 0 ==> c'.At? && Sim(m, b, c, r, c') && c'.g == c.g
    ensures Eval(m, c.g, tmps, guard).n != 0 ==>
      c' == Done(Low64(dst), ExitGuest(m, c.g, jk)) && Reach(m, r.blocks, c, c')
    ensures r == EmitExit(m, b, vals, guard, jk, dst)
  {
    hide Defined, AllDefined, Here, Sim, AtEnd, Reach, Grow, EmitExpr, Eval, WfExpr, NewBlock, MoveTo, Terminate, EmitLeave, Made, Open,
         Temps, AddrTy, Below, MemoOk, Keeps, EvalVal, Avail, Low64, StmtExitType, ExitGuest;
    HereParts(m, b, vals, sc, c, tmps);
    var n := |b.blocks|;
    var b0 := NewBlock(NewBlock(b));
    ExitFacts(m, b, vals, guard);
    SimNewTwo(m, b, c);
    HereLater(m, b, vals, sc, c, tmps, b0, c);
    var (b1, g) := EmitExpr(m, b0, vals, guard);
    var c1 := SimHere(m, b0, vals, sc, guard, c, tmps);
    SimTrans(m, b, c, b0, c, b1, c1);
    SimEnds(m, b, c, b1, c1);
    var c2 := SimBranch(m, b1, g, n, n + 1, c1);
    var s := MoveTo(Terminate(b1, CondBr(g, n, n + 1)), n);
    TerminateBlocks(b1, CondBr(g, n, n + 1));
    AtEndBelow(b1, c1);
    r := EmitExit(m, b, vals, guard, jk, dst);
    MadeOpen(b, s, {n, n + 1});
    LeaveGrow(m, s, jk, dst, n + 1);
    GrowTrans(b1.blocks, s.blocks, r.blocks);
    GrowTrans(b.blocks, b1.blocks, r.blocks);
    ReachGrow(m, b1.blocks, r.blocks, c, c1);
    ReachGrow(m, s.blocks, r.blocks, c1, c2);
    ReachTrans(m, r.blocks, c, c1, c2);
    if Eval(m, c.g, tmps, guard).n == 0 {
      c' := c2;
      BelowMono(c2.regs, b1.next, r.next);
      AtStart(r, c2, Avail(b));
      SimNewer(m, b, c, b1, c1);
      SimMake(m, b, c, r, c2);
    } else {
      AtStart(s, c2, Avail(b));
      SimLeave(m, s, jk, dst, n + 1, c2);
      c' := Done(Low64(dst), ExitGuest(m, c.g, jk));
      ReachTrans(m, r.blocks, c, c2, c');
    }
  }

  lemma TerminateBlocks(b: Build, t: Term)
    ensures Terminate(b, t).next == b.next
    ensures forall k :: 0 <= k < |b.blocks| && k != b.cur ==> Terminate(b, t).blocks[k] == b.blocks[k]
  {
  }
}
