/** Statements that read a temporary without a value get the run stuck. */
module JamStmt {
  import opened Options
  import opened Bits
  import opened VexIR
  import opened VexWf
  import opened VexDefined
  import opened LlvmIR
  import opened Builder
  import opened Lowering
  import opened Extension
  import opened StmtShape
  import opened Simulation
  import opened SimExpr
  import opened SimStmt
  import opened SimDirty
  import opened Jams
  import opened JamExpr

  /** An operand as emission leaves it: with the value of the expression, or without one. */
  predicate Operated(m: Machine, g: Guest, tmps: map<nat, Val>, e: Expr, o: Operand, regs: Regs, n: nat) {
    if Defined(m, g, tmps, e) then EvalVal(regs, o) == Some(Eval(m, g, tmps, e)) else Unread(o, regs, n)
  }

  /** One expression in a statement: the run is stuck in its code, or comes to the end of it. */
  lemma TryExpr(m: Machine, b: Build, vals: Vals, sc: Scope, e: Expr, c: Config, tmps: map<nat, Val>)
    returns (c': Config)
    requires Loose(m, b, vals, sc, c, tmps) && WfExpr(e, sc)
    ensures
      var (b', o) := EmitExpr(m, b, vals, e);
      && c.At? && AtEnd(b, c) && Open(b) && Tidy(b, b') && Grow(b.blocks, b'.blocks) && Open(b') && o.ty == TyOf(e, sc.tt)
      && if Emits(m, c.g, tmps, e) then
           c'.At? && Sim(m, b, c, b', c') && Loose(m, b', vals, sc, c', tmps) && AtEnd(b', c') && c'.g == c.g &&
           Operated(m, c.g, tmps, e, o, c'.regs, b'.next)
         else Dead(m, b'.blocks, c)
  {
    hide Loose, Sim, AtEnd, Open, Tidy, Grow, WfExpr, Dead, Defined, Eval, EvalVal, Unread, Temps, EmitExpr;
    LooseParts(m, b, vals, sc, c, tmps);
    TempsTyped(vals, sc.tt, c.regs, tmps);
    TypeExpr(m, b, vals, sc, e);
    TidyExpr(m, b, vals, e);
    var (b', o) := EmitExpr(m, b, vals, e);
    TidyGrow(b, b');
    c' := c;
    if Defined(m, c.g, tmps, e) {
      c' := SimHere(m, b, vals, sc, e, c, tmps);
      LooseLater(m, b, vals, sc, c, tmps, b', c');
      SimEnds(m, b, c, b', c');
    } else {
      BadExpr(m, b, vals, sc, e, c, tmps);
      if e.RdTmp? {
        RdUndefined(m, c.g, tmps, e);
        GhostOf(m, b, vals, sc, e, c, tmps);
        SimRefl(m, b, c);
      }
    }
  }

  lemma RdUndefined(m: Machine, g: Guest, tmps: map<nat, Val>, e: Expr)
    requires e.RdTmp? && !Defined(m, g, tmps, e)
    ensures e.tmp !in tmps
  {
  }

  /** An operand keeps its value, or its want of one. */
  lemma OperatedKeeps(m: Machine, g: Guest, tmps: map<nat, Val>, e: Expr, o: Operand, b: Build, c: Config, b': Build, c': Config)
    requires Sim(m, b, c, b', c') && c.At? && Operated(m, g, tmps, e, o, c.regs, b.next)
    ensures c'.At? && Operated(m, g, tmps, e, o, c'.regs, b'.next)
  {
    hide Sim, Unread, EvalVal, Defined, Eval;
    SimNewer(m, b, c, b', c');
    if Defined(m, g, tmps, e) {
      SimKeeps(m, b, c, b', c', o);
    } else {
      UnreadKeeps(m, b, c, b', c', o);
    }
  }

  // ---- straight-line statements

  lemma JamPut(m: Machine, b: Build, vals: Vals, sc: Scope, off: nat, data: Expr, c: Config, tmps: map<nat, Val>)
    requires Loose(m, b, vals, sc, c, tmps) && WfExpr(data, sc) && Aligned(off, TyOf(data, sc.tt)) && !Defined(m, c.g, tmps, data)
    ensures
      var (b1, v) := EmitExpr(m, b, vals, data);
      Dead(m, WriteCtx(b1, off, v).blocks, c)
  {
    hide *;
    var (b1, v) := EmitExpr(m, b, vals, data);
    var c1 := TryExpr(m, b, vals, sc, data, c, tmps);
    var f := WriteCtx(b1, off, v);
    ExtWriteCtx(b1, off, v);
    ExtGrow(b1, f);
    if Emits(m, c.g, tmps, data) {
      OperandUnread(m, c.g, tmps, data, v, c1.regs, b1.next);
      JamWriteCtx(m, b1, off, v, c1);
      DeadThen(m, b, c, b1, c1, f.blocks);
    } else {
      DeadGrow(m, b1.blocks, f.blocks, c);
    }
  }

  lemma OperandUnread(m: Machine, g: Guest, tmps: map<nat, Val>, e: Expr, o: Operand, regs: Regs, n: nat)
    requires Operated(m, g, tmps, e, o, regs, n)
    ensures if Defined(m, g, tmps, e) then EvalVal(regs, o) == Some(Eval(m, g, tmps, e))
            else Unread(o, regs, n) && EvalVal(regs, o).None? && !IsOne(o)
  {
    hide Defined, Eval;
  }

  lemma JamWriteIx(m: Machine, b: Build, arr: RegArray, bias: int, ix: Operand, v: Operand, c: Config)
    requires AtEnd(b, c) && c.At? && WfArr(arr, bias, v.ty)
    requires EvalVal(c.regs, ix).None? || Unread(v, c.regs, b.next)
    ensures Dead(m, WriteCtxIx(b, arr, bias, ix, v).blocks, c)
  {
    hide Dead, Grow, AtEnd, Open, Emit, IndexOffset, GetCtxTyGEP, Ext, Unread, EvalVal, WfArr, Sim;
    AtEndIs(b, c);
    var (b1, off) := IndexOffset(b, arr, bias, ix, v.ty);
    ExtIndexOffset(b, arr, bias, ix, v.ty);
    var (b2, p) := GetCtxTyGEP(b1, off, v.ty);
    ExtTyGEP(b1, off, v.ty);
    ExtGrow(b1, b2);
    var i := St(b2.next, v, p);
    EmitGrow(b2, i);
    if EvalVal(c.regs, ix).None? {
      JamIndex(m, b, arr, bias, ix, v.ty, c);
      DeadGrow(m, b1.blocks, b2.blocks, c);
      DeadGrow(m, b2.blocks, Emit(b2, i).blocks, c);
    } else {
      var c1 := SimIndexOffset(m, b, arr, bias, ix, v.ty, c);
      SimEnds(m, b, c, b1, c1);
      var c2 := SimTyGEP(m, b1, off, v.ty, c1);
      SimEnds(m, b1, c1, b2, c2);
      SimTrans(m, b, c, b1, c1, b2, c2);
      UnreadKeeps(m, b, c, b2, c2, v);
      UnreadVal(v, c2.regs, b2.next);
      JamEmit(m, b2, i, c2);
      DeadThen(m, b, c, b2, c2, Emit(b2, i).blocks);
    }
  }

  lemma WriteIxGrow(b: Build, arr: RegArray, bias: int, ix: Operand, v: Operand)
    requires Open(b)
    ensures Grow(b.blocks, WriteCtxIx(b, arr, bias, ix, v).blocks)
  {
    hide *;
    ExtWriteCtxIx(b, arr, bias, ix, v);
    SameLine(b, arr, bias, ix, v);
    ExtGrow(b, WriteCtxIx(b, arr, bias, ix, v));
  }

  lemma SameLine(b: Build, arr: RegArray, bias: int, ix: Operand, v: Operand)
    ensures |WriteCtxIx(b, arr, bias, ix, v).blocks| == |b.blocks| && WriteCtxIx(b, arr, bias, ix, v).cur == b.cur
  {
  }

  /** Two expressions one after the other, one of which reads a temporary without a value. */
  lemma TryTwo(m: Machine, b: Build, vals: Vals, sc: Scope, x: Expr, y: Expr, c: Config, tmps: map<nat, Val>)
    returns (c': Config)
    requires Loose(m, b, vals, sc, c, tmps) && WfExpr(x, sc) && WfExpr(y, sc)
    ensures
      var (b1, ox) := EmitExpr(m, b, vals, x);
      var (b2, oy) := EmitExpr(m, b1, vals, y);
      && c.At? && AtEnd(b, c) && Open(b) && Open(b2) && Grow(b.blocks, b2.blocks) && Tidy(b, b2)
      && ox.ty == TyOf(x, sc.tt) && oy.ty == TyOf(y, sc.tt)
      && if Emits(m, c.g, tmps, x) && Emits(m, c.g, tmps, y) then
           c'.At? && Sim(m, b, c, b2, c') && Loose(m, b2, vals, sc, c', tmps) && AtEnd(b2, c') && c'.g == c.g &&
           Operated(m, c.g, tmps, x, ox, c'.regs, b2.next) && Operated(m, c.g, tmps, y, oy, c'.regs, b2.next)
         else Dead(m, b2.blocks, c)
  {
    hide *;
    var (b1, ox) := EmitExpr(m, b, vals, x);
    var (b2, oy) := EmitExpr(m, b1, vals, y);
    var c1 := TryExpr(m, b, vals, sc, x, c, tmps);
    c' := c1;
    LooseParts(m, b, vals, sc, c, tmps);
    TempsTyped(vals, sc.tt, c.regs, tmps);
    TypeExpr(m, b1, vals, sc, y);
    TidyExpr(m, b1, vals, y);
    TidyGrow(b1, b2);
    TidyTrans(b, b1, b2);
    GrowTrans(b.blocks, b1.blocks, b2.blocks);
    if Emits(m, c.g, tmps, x) {
      c' := TryExpr(m, b1, vals, sc, y, c1, tmps);
      if Emits(m, c.g, tmps, y) {
        SimTrans(m, b, c, b1, c1, b2, c');
        OperatedKeeps(m, c.g, tmps, x, ox, b1, c1, b2, c');
      } else {
        DeadThen(m, b, c, b1, c1, b2.blocks);
      }
    } else {
      DeadGrow(m, b1.blocks, b2.blocks, c);
    }
  }

  lemma JamPutI(m: Machine, b: Build, vals: Vals, sc: Scope, arr: RegArray, ix: Expr, bias: int, data: Expr, c: Config,
                tmps: map<nat, Val>)
    requires Loose(m, b, vals, sc, c, tmps) && WfExpr(data, sc) && WfExpr(ix, sc) && WfArr(arr, bias, TyOf(data, sc.tt))
    requires !(Defined(m, c.g, tmps, data) && Defined(m, c.g, tmps, ix))
    ensures
      var (b1, v) := EmitExpr(m, b, vals, data);
      var (b2, i) := EmitExpr(m, b1, vals, ix);
      Dead(m, WriteCtxIx(b2, arr, bias, i, v).blocks, c)
  {
    hide *;
    var (b1, v) := EmitExpr(m, b, vals, data);
    var (b2, i) := EmitExpr(m, b1, vals, ix);
    var c2 := TryTwo(m, b, vals, sc, data, ix, c, tmps);
    WriteIxGrow(b2, arr, bias, i, v);
    var f := WriteCtxIx(b2, arr, bias, i, v);
    if Emits(m, c.g, tmps, data) && Emits(m, c.g, tmps, ix) {
      OperandUnread(m, c.g, tmps, data, v, c2.regs, b2.next);
      OperandUnread(m, c.g, tmps, ix, i, c2.regs, b2.next);
      JamWriteIx(m, b2, arr, bias, i, v, c2);
      DeadThen(m, b, c, b2, c2, f.blocks);
    } else {
      DeadGrow(m, b2.blocks, f.blocks, c);
    }
  }

  lemma StoreGrow(m: Machine, b: Build, a: Operand, v: Operand)
    requires Open(b)
    ensures Grow(b.blocks, StoreMem(m, b, a, v).blocks)
  {
    hide *;
    ExtStoreMem(m, b, a, v);
    StoreLine(m, b, a, v);
    ExtGrow(b, StoreMem(m, b, a, v));
  }

  lemma StoreLine(m: Machine, b: Build, a: Operand, v: Operand)
    ensures |StoreMem(m, b, a, v).blocks| == |b.blocks| && StoreMem(m, b, a, v).cur == b.cur
  {
  }

  /** A store of which the address or the value is missing. */
  lemma JamStores(m: Machine, b: Build, sc: Scope, addr: Expr, data: Expr, a: Operand, d: Operand, c: Config,
                  tmps: map<nat, Val>, g: Guest)
    requires AtEnd(b, c) && c.At? && a.ty == IntTy(sc.aw) && AddrTy(m, IntTy(sc.aw))
    requires Operated(m, g, tmps, addr, a, c.regs, b.next) && Operated(m, g, tmps, data, d, c.regs, b.next)
    requires !(Defined(m, g, tmps, addr) && Defined(m, g, tmps, data))
    ensures Dead(m, StoreMem(m, b, a, d).blocks, c)
  {
    hide *;
    OperandUnread(m, g, tmps, addr, a, c.regs, b.next);
    OperandUnread(m, g, tmps, data, d, c.regs, b.next);
    JamStore(m, b, a, d, c);
  }

  lemma JamStoreS(m: Machine, b: Build, vals: Vals, sc: Scope, addr: Expr, data: Expr, c: Config, tmps: map<nat, Val>)
    requires Loose(m, b, vals, sc, c, tmps) && WfAddr(addr, sc) && WfExpr(data, sc)
    requires !(Defined(m, c.g, tmps, data) && Defined(m, c.g, tmps, addr))
    ensures
      var (b1, d) := EmitExpr(m, b, vals, data);
      var (b2, a) := EmitExpr(m, b1, vals, addr);
      Dead(m, StoreMem(m, b2, a, d).blocks, c)
  {
    hide *;
    WfAddrParts(addr, sc);
    LooseParts(m, b, vals, sc, c, tmps);
    var (b1, d) := EmitExpr(m, b, vals, data);
    var (b2, a) := EmitExpr(m, b1, vals, addr);
    var c2 := TryTwo(m, b, vals, sc, data, addr, c, tmps);
    StoreGrow(m, b2, a, d);
    var f := StoreMem(m, b2, a, d);
    if Emits(m, c.g, tmps, data) && Emits(m, c.g, tmps, addr) {
      JamStores(m, b2, sc, addr, data, a, d, c2, tmps, c.g);
      DeadThen(m, b, c, b2, c2, f.blocks);
    } else {
      DeadGrow(m, b2.blocks, f.blocks, c);
    }
  }

  // ---- guarded regions

  /** The guard itself is missing. */
  lemma JamGuard(m: Machine, b: Build, o: Operand, b2: Build, c: Config)
    requires AtEnd(b, c) && c.At? && EvalVal(c.regs, o).None? && Tidy(MoveTo(Split(b, o), |b.blocks|), b2)
    ensures |b.blocks| + 1 < |b2.blocks| && Dead(m, Join(b2, |b.blocks| + 1).blocks, c)
  {
    hide *;
    AtEndIs(b, c);
    var n := |b.blocks|;
    var b1 := MoveTo(Split(b, o), n);
    TidyGuarded(b, o, b2);
    TidyGrow(b1, b2);
    JoinGrow(b2, n + 1);
    JamSplit(m, b, o, c);
    DeadGrow(m, b1.blocks, b2.blocks, c);
    DeadGrow(m, b2.blocks, Join(b2, n + 1).blocks, c);
  }

  lemma JamSplit(m: Machine, b: Build, o: Operand, c: Config)
    requires AtEnd(b, c) && EvalVal(c.regs, o).None?
    ensures Dead(m, MoveTo(Split(b, o), |b.blocks|).blocks, c)
  {
    hide Dead, NewBlock, Terminate, AtEnd, Sim, EvalVal;
    SimNewTwo(m, b, c);
    SimEnds(m, b, c, NewBlock(NewBlock(b)), c);
    JamTerm(m, NewBlock(NewBlock(b)), CondBr(o, |b.blocks|, |b.blocks| + 1), c);
  }

  /** The guard holds and the body gets stuck. */
  lemma JamBody(m: Machine, b: Build, o: Operand, b2: Build, c: Config, d: Config)
    requires AtEnd(b, c) && c.At? && EvalVal(c.regs, o).Some? && EvalVal(c.regs, o).value.n != 0
    requires Tidy(MoveTo(Split(b, o), |b.blocks|), b2)
    requires d == At(|b.blocks|, 0, b.cur, c.regs, c.g) && Dead(m, b2.blocks, d)
    ensures |b.blocks| + 1 < |b2.blocks| && Dead(m, Join(b2, |b.blocks| + 1).blocks, c)
  {
    hide *;
    AtEndIs(b, c);
    var n := |b.blocks|;
    var b1 := MoveTo(Split(b, o), n);
    TidyGuarded(b, o, b2);
    TidyGrow(b1, b2);
    JoinGrow(b2, n + 1);
    var d' := SimSplit(m, b, o, c);
    ReachGrow(m, b1.blocks, b2.blocks, c, d);
    DeadVia(m, b2.blocks, c, d);
    DeadGrow(m, b2.blocks, Join(b2, n + 1).blocks, c);
  }

  /** The start of the body: everything is as before the branch. */
  lemma LooseBody(m: Machine, b: Build, vals: Vals, sc: Scope, o: Operand, c: Config, tmps: map<nat, Val>) returns (d: Config)
    requires Loose(m, b, vals, sc, c, tmps) && EvalVal(c.regs, o).Some? && EvalVal(c.regs, o).value.n != 0
    ensures c.At? && d == At(|b.blocks|, 0, b.cur, c.regs, c.g)
    ensures Loose(m, MoveTo(Split(b, o), |b.blocks|), vals, sc, d, tmps)
  {
    hide *;
    LooseParts(m, b, vals, sc, c, tmps);
    d := SimSplit(m, b, o, c);
    var s := MoveTo(Split(b, o), |b.blocks|);
    SplitNext(b, o);
    HereAt(m, s, vals, sc, d, tmps);
    LooseAt(m, s, vals, sc, d, tmps);
  }

  lemma JamStoreG(m: Machine, b: Build, vals: Vals, sc: Scope, addr: Expr, data: Expr, guard: Expr, c: Config, tmps: map<nat, Val>)
    requires Loose(m, b, vals, sc, c, tmps) && WfExpr(guard, sc) && WfAddr(addr, sc) && WfExpr(data, sc)
    requires Defined(m, c.g, tmps, guard) ==>
      Eval(m, c.g, tmps, guard).n != 0 && !(Defined(m, c.g, tmps, addr) && Defined(m, c.g, tmps, data))
    ensures Dead(m, EmitStoreG(m, b, vals, addr, data, guard).blocks, c)
  {
    hide *;
    WfAddrParts(addr, sc);
    LooseParts(m, b, vals, sc, c, tmps);
    var (b1, g) := EmitExpr(m, b, vals, guard);
    var c1 := TryExpr(m, b, vals, sc, guard, c, tmps);
    var n := |b1.blocks|;
    var s := MoveTo(Split(b1, g), n);
    SplitOpen(b1, g);
    var (b2, a) := EmitExpr(m, s, vals, addr);
    var (b3, d) := EmitExpr(m, b2, vals, data);
    var b4 := StoreMem(m, b3, a, d);
    TidyRefl(s);
    TidyThenExpr(m, s, s, vals, addr);
    TidyThenExpr(m, s, b2, vals, data);
    TidyThenStore(m, s, b3, a, d);
    TidyGuarded(b1, g, b4);
    var f := Join(b4, n + 1);
    TidyGrow(b1, f);
    StoreGIs(m, b, vals, addr, data, guard);
    if !Emits(m, c.g, tmps, guard) {
      DeadGrow(m, b1.blocks, f.blocks, c);
    } else {
      OperandUnread(m, c.g, tmps, guard, g, c1.regs, b1.next);
      if Defined(m, c.g, tmps, guard) {
        var d0 := LooseBody(m, b1, vals, sc, g, c1, tmps);
        var d2 := TryTwo(m, s, vals, sc, addr, data, d0, tmps);
        StoreGrow(m, b3, a, d);
        if Emits(m, c.g, tmps, addr) && Emits(m, c.g, tmps, data) {
          JamStores(m, b3, sc, addr, data, a, d, d2, tmps, c.g);
          DeadThen(m, s, d0, b3, d2, b4.blocks);
        } else {
          DeadGrow(m, b3.blocks, b4.blocks, d0);
        }
        JamBody(m, b1, g, b4, c1, d0);
      } else {
        JamGuard(m, b1, g, b4, c1);
      }
      DeadThen(m, b, c, b1, c1, f.blocks);
    }
  }

  lemma StoreGIs(m: Machine, b: Build, vals: Vals, addr: Expr, data: Expr, guard: Expr)
    ensures
      var (b1, g) := EmitExpr(m, b, vals, guard);
      var (b2, a) := EmitExpr(m, MoveTo(Split(b1, g), |b1.blocks|), vals, addr);
      var (b3, d) := EmitExpr(m, b2, vals, data);
      |b1.blocks| + 1 < |StoreMem(m, b3, a, d).blocks| &&
      EmitStoreG(m, b, vals, addr, data, guard) == Join(StoreMem(m, b3, a, d), |b1.blocks| + 1)
  {
    hide EmitExpr, Split, MoveTo, Join, StoreMem;
  }
}
