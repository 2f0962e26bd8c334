/** Statements: the emitted text does to the guest what the statement does. */
module SimStmt {
  import opened Options
  import opened VexIR
  import opened VexWf
  import opened VexCoded
  import opened VexDefined
  import opened LlvmIR
  import opened Builder
  import opened Lowering
  import opened Extension
  import opened StmtShape
  import opened Simulation
  import opened SimExpr

  /** Which temporaries stand for a literal one is known beforehand. */
  predicate Ones(vals: Vals, sc: Scope) {
    sc.tt.Keys <= sc.used && sc.ones <= sc.used && forall t :: t in sc.tt ==> t in vals && (t in sc.ones <==> IsOne(vals[t]))
  }

  lemma OneExpr(m: Machine, b: Build, vals: Vals, sc: Scope, e: Expr)
    requires Ones(vals, sc) && WfExpr(e, sc)
    ensures IsOne(EmitExpr(m, b, vals, e).1) <==> LiteralOne(e, sc)
  {
    hide MuxOpen, MuxBranch, MuxClose, GetCtxTyGEP, GetCtxByteGEP, IndexOffset, HostAddr, Emit, EmitExprs;
  }

  lemma TempsSet(vals: Vals, tt: map<nat, LTy>, r: Regs, r': Regs, tmps: map<nat, Val>, t: nat, o: Operand, v: Val)
    requires Temps(vals, tt, r, tmps) && Keeps(r, r') && EvalVal(r', o) == Some(v)
    ensures Temps(vals[t := o], tt[t := o.ty], r', tmps[t := v])
  {
    forall k | k in tt && k != t && k in tmps ensures EvalVal(r', vals[k]) == Some(tmps[k]) {
      KeepsOp(r, r', vals[k]);
    }
  }

  /** A temporary that is assigned but has no value can be recorded or not. */
  lemma TempsSkip(vals: Vals, tt: map<nat, LTy>, r: Regs, tmps: map<nat, Val>, t: nat, o: Operand)
    requires Temps(vals, tt, r, tmps)
    ensures t !in tt ==> Temps(vals[t := o], tt, r, tmps)
    ensures t !in tmps ==> Temps(vals[t := o], tt[t := o.ty], r, tmps)
  {
  }

  // ---- guarded regions

  /** The start of a guarded region and the start of its body. */
  lemma SimSplit(m: Machine, b: Build, o: Operand, c: Config) returns (c': Config)
    requires AtEnd(b, c) && EvalVal(c.regs, o).Some?
    ensures Grow(b.blocks, Split(b, o).blocks) && Reach(m, Split(b, o).blocks, c, c')
    ensures c' == At(|b.blocks| + if EvalVal(c.regs, o).value.n == 0 then 1 else 0, 0, b.cur, c.regs, c.g)
    ensures EvalVal(c.regs, o).value.n != 0 ==> AtEnd(MoveTo(Split(b, o), |b.blocks|), c')
  {
    c' := At(|b.blocks| + if EvalVal(c.regs, o).value.n == 0 then 1 else 0, 0, b.cur, c.regs, c.g);
    SplitBlocks(b, o);
    ReachStep(m, Split(b, o).blocks, c, c');
  }

  lemma JoinGrow(b: Build, k: nat)
    requires Open(b) && k < |b.blocks|
    ensures Grow(b.blocks, Join(b, k).blocks) && Join(b, k).blocks == Terminate(b, Br(k)).blocks
  {
  }

  lemma SplitNext(b: Build, o: Operand)
    requires Open(b)
    ensures Split(b, o).next == b.next && Grow(b.blocks, Split(b, o).blocks)
  {
  }

  /** The guard fails: the run goes straight to the join. */
  lemma SimGuardSkip(m: Machine, b: Build, o: Operand, b2: Build, c: Config) returns (c': Config)
    requires AtEnd(b, c) && EvalVal(c.regs, o).Some? && EvalVal(c.regs, o).value.n == 0
    requires Tidy(MoveTo(Split(b, o), |b.blocks|), b2)
    ensures |b.blocks| + 1 < |b2.blocks| && Sim(m, b, c, Join(b2, |b.blocks| + 1), c')
    ensures c'.At? && c'.g == c.g && c'.regs == c.regs
  {
    hide *;
    AtEndIs(b, c);
    var n := |b.blocks|;
    var b1 := MoveTo(Split(b, o), n);
    TidyGuarded(b, o, b2);
    TidyNext(b1, b2);
    TidyOpen(b1, b2);
    SplitNext(b, o);
    c' := SimSplit(m, b, o, c);
    var b3 := Join(b2, n + 1);
    JoinGrow(b2, n + 1);
    GrowTrans(b1.blocks, b2.blocks, b3.blocks);
    GrowTrans(b.blocks, b1.blocks, b3.blocks);
    ReachGrow(m, b1.blocks, b3.blocks, c, c');
    AtEndBelow(b, c);
    BelowMono(c.regs, b.next, b3.next);
    AtStart(b3, c', Avail(b));
    KeepsRefl(c.regs);
    SimMake(m, b, c, b3, c');
  }

  lemma AtEndBelow(b: Build, c: Config)
    requires AtEnd(b, c)
    ensures Below(c.regs, b.next)
  {
  }

  lemma KeepsRefl(r: Regs)
    ensures Keeps(r, r)
  {
  }

  /** The guard holds: the body runs from c1 to c2, and then the run goes to the join. */
  lemma SimGuardTake(m: Machine, b: Build, o: Operand, b2: Build, c: Config, c1: Config, c2: Config) returns (c': Config)
    requires AtEnd(b, c) && EvalVal(c.regs, o).Some? && EvalVal(c.regs, o).value.n != 0
    requires Tidy(MoveTo(Split(b, o), |b.blocks|), b2)
    requires c1 == At(|b.blocks|, 0, b.cur, c.regs, c.g) && Sim(m, MoveTo(Split(b, o), |b.blocks|), c1, b2, c2)
    ensures |b.blocks| + 1 < |b2.blocks| && Sim(m, b, c, Join(b2, |b.blocks| + 1), c')
    ensures c'.At? && c2.At? && c'.g == c2.g && c'.regs == c2.regs
  {
    hide *;
    AtEndIs(b, c);
    var n := |b.blocks|;
    var b1 := MoveTo(Split(b, o), n);
    TidyGuarded(b, o, b2);
    TidyNext(b1, b2);
    TidyOpen(b1, b2);
    SplitNext(b, o);
    var d := SimSplit(m, b, o, c);
    SimEnds(m, b1, c1, b2, c2);
    SimNewer(m, b1, c1, b2, c2);
    AtEndIs(b2, c2);
    var b3 := Join(b2, n + 1);
    JoinGrow(b2, n + 1);
    c' := SimJump(m, b2, n + 1, c2);
    GrowTrans(b1.blocks, b2.blocks, b3.blocks);
    GrowTrans(b.blocks, b1.blocks, b3.blocks);
    ReachGrow(m, b1.blocks, b3.blocks, c, c1);
    ReachGrow(m, b2.blocks, b3.blocks, c1, c2);
    ReachTrans(m, b3.blocks, c, c1, c2);
    ReachTrans(m, b3.blocks, c, c2, c');
    AtEndBelow(b2, c2);
    AtStart(b3, c', Avail(b));
    SimMake(m, b, c, b3, c');
  }

  // ---- statement by statement

  /** The run stands where emission will go on, and the temporaries are where they should be. */
  predicate Here(m: Machine, b: Build, vals: Vals, sc: Scope, c: Config, tmps: map<nat, Val>) {
    AtEnd(b, c) && Temps(vals, sc.tt, c.regs, tmps) && AddrTy(m, IntTy(sc.aw))
  }

  lemma HereParts(m: Machine, b: Build, vals: Vals, sc: Scope, c: Config, tmps: map<nat, Val>)
    requires Here(m, b, vals, sc, c, tmps)
    ensures c.At? && Open(b) && AtEnd(b, c) && Temps(vals, sc.tt, c.regs, tmps) && AddrTy(m, IntTy(sc.aw))
  {
  }

  lemma HereLater(m: Machine, b: Build, vals: Vals, sc: Scope, c: Config, tmps: map<nat, Val>, b': Build, c': Config)
    requires Here(m, b, vals, sc, c, tmps) && Sim(m, b, c, b', c')
    ensures Here(m, b', vals, sc, c', tmps)
  {
    TempsKeep(vals, sc.tt, c.regs, c'.regs, tmps);
  }

  /** One expression in a statement. */
  lemma SimHere(m: Machine, b: Build, vals: Vals, sc: Scope, e: Expr, c: Config, tmps: map<nat, Val>)
    returns (c': Config)
    requires Here(m, b, vals, sc, c, tmps) && WfExpr(e, sc) && c.At? && Defined(m, c.g, tmps, e)
    ensures
      var (b', o) := EmitExpr(m, b, vals, e);
      && Sim(m, b, c, b', c') && c'.At? && Here(m, b', vals, sc, c', tmps) && c'.g == c.g
      && o.ty == TyOf(e, sc.tt) && EvalVal(c'.regs, o) == Some(Eval(m, c.g, tmps, e))
  {
    hide *;
    HereParts(m, b, vals, sc, c, tmps);
    c' := SimulateExpr(m, b, vals, sc, e, c, tmps);
    var b' := EmitExpr(m, b, vals, e).0;
    SimEnds(m, b, c, b', c');
    AtEndIs(b', c');
    HereLater(m, b, vals, sc, c, tmps, b', c');
  }

  /** One that may be a bare temporary without a value. */
  lemma SimEmits(m: Machine, b: Build, vals: Vals, sc: Scope, e: Expr, c: Config, tmps: map<nat, Val>)
    returns (c': Config)
    requires Here(m, b, vals, sc, c, tmps) && WfExpr(e, sc) && c.At? && Emits(m, c.g, tmps, e)
    ensures
      var (b', o) := EmitExpr(m, b, vals, e);
      && Sim(m, b, c, b', c') && c'.At? && Here(m, b', vals, sc, c', tmps) && c'.g == c.g
      && o.ty == TyOf(e, sc.tt) && (Defined(m, c.g, tmps, e) ==> EvalVal(c'.regs, o) == Some(Eval(m, c.g, tmps, e)))
  {
    hide Defined, AllDefined, Here, Sim, AtEnd, Reach, Grow, Eval, WfExpr, Temps, EvalVal;
    if Defined(m, c.g, tmps, e) {
      c' := SimHere(m, b, vals, sc, e, c, tmps);
    } else {
      c' := c;
      HereParts(m, b, vals, sc, c, tmps);
      SimRefl(m, b, c);
      TmpNamed(m, b, vals, sc, e, c.regs, tmps);
    }
  }

  lemma TmpNamed(m: Machine, b: Build, vals: Vals, sc: Scope, e: Expr, regs: Regs, tmps: map<nat, Val>)
    requires e.RdTmp? && WfExpr(e, sc) && Temps(vals, sc.tt, regs, tmps)
    ensures e.tmp in vals && EmitExpr(m, b, vals, e) == (b, vals[e.tmp]) && vals[e.tmp].ty == TyOf(e, sc.tt)
  {
  }

  lemma WfAddrParts(e: Expr, sc: Scope)
    requires WfAddr(e, sc)
    ensures WfExpr(e, sc) && TyOf(e, sc.tt) == IntTy(sc.aw)
  {
  }

  lemma SimStoreG(m: Machine, b: Build, vals: Vals, sc: Scope, addr: Expr, data: Expr, guard: Expr, c: Config,
                  tmps: map<nat, Val>) returns (c': Config)
    requires Here(m, b, vals, sc, c, tmps) && WfStmt(StoreG(addr, data, guard), sc)
    requires c.At? && Proceeds(m, StoreG(addr, data, guard), c.g, tmps)
    ensures Sim(m, b, c, EmitStoreG(m, b, vals, addr, data, guard), c')
    ensures Exec(m, StoreG(addr, data, guard), c.g, tmps) == Go(c'.g, tmps)
  {
    hide Defined, AllDefined, Here, Sim, AtEnd, Reach, Grow, EmitExpr, Split, Join, StoreMem, Eval, WfExpr, WfAddr, Tidy, Open, StoreVal, AddrTy,
         Below, MemoOk, Keeps, MoveTo, EvalVal;
    HereParts(m, b, vals, sc, c, tmps);
    WfAddrParts(addr, sc);
    var (b1, g) := EmitExpr(m, b, vals, guard);
    var c1 := SimHere(m, b, vals, sc, guard, c, tmps);
    HereParts(m, b1, vals, sc, c1, tmps);
    var n := |b1.blocks|;
    var s := MoveTo(Split(b1, g), n);
    SplitOpen(b1, g);
    var (b2, a) := EmitExpr(m, s, vals, addr);
    var (b3, d) := EmitExpr(m, b2, vals, data);
    var b4 := StoreMem(m, b3, a, d);
    TidyRefl(s);
    TidyThenExpr(m, s, s, vals, addr);
    TidyThenExpr(m, s, b2, vals, data);
    TidyThenStore(m, s, b3, a, d);
    var join := Join(b4, n + 1);
    if Eval(m, c.g, tmps, guard).n == 0 {
      c' := SimGuardSkip(m, b1, g, b4, c1);
    } else {
      var d1 := SimSplit(m, b1, g, c1);
      HereAt(m, s, vals, sc, d1, tmps);
      var d2 := SimHere(m, s, vals, sc, addr, d1, tmps);
      var d3 := SimHere(m, b2, vals, sc, data, d2, tmps);
      SimKeeps(m, b2, d2, b3, d3, a);
      HereParts(m, b3, vals, sc, d3, tmps);
      var d4 := SimStoreMem(m, b3, a, d, d3);
      SimTrans(m, s, d1, b2, d2, b3, d3);
      SimTrans(m, s, d1, b3, d3, b4, d4);
      c' := SimGuardTake(m, b1, g, b4, c1, d1, d4);
    }
    SimTrans(m, b, c, b1, c1, join, c');
  }

  lemma HereAt(m: Machine, b: Build, vals: Vals, sc: Scope, c: Config, tmps: map<nat, Val>)
    requires AtEnd(b, c) && Temps(vals, sc.tt, c.regs, tmps) && AddrTy(m, IntTy(sc.aw))
    ensures Here(m, b, vals, sc, c, tmps)
  {
  }

  lemma SimKeeps(m: Machine, b: Build, c: Config, b': Build, c': Config, o: Operand)
    requires Sim(m, b, c, b', c') && EvalVal(c.regs, o).Some?
    ensures EvalVal(c'.regs, o) == EvalVal(c.regs, o)
  {
    KeepsOp(c.regs, c'.regs, o);
  }

  /** One appended comparison or sum. */
  lemma SimHereArith(m: Machine, b: Build, vals: Vals, sc: Scope, ty: LTy, ak: ArithKind, x: Operand, y: Operand, c: Config,
                     tmps: map<nat, Val>) returns (c': Config)
    requires Here(m, b, vals, sc, c, tmps) && c.At? && EvalVal(c.regs, x).Some? && EvalVal(c.regs, y).Some?
    requires ArithVal(ak, EvalVal(c.regs, x).value.n, EvalVal(c.regs, y).value.n, BitsOf(x.ty)).Some?
    ensures
      var i := Arith(b.next, ty, ak, x, y);
      var n := ArithVal(ak, EvalVal(c.regs, x).value.n, EvalVal(c.regs, y).value.n, BitsOf(x.ty)).value;
      && Sim(m, b, c, Emit(b, i), c') && c'.At? && c'.g == c.g && Here(m, Emit(b, i), vals, sc, c', tmps)
      && EvalVal(c'.regs, Reg(b.next, ty)) == Some(Val(BitsOf(ty), n))
  {
    hide ArithVal, Reach, Grow, Temps;
    c' := SimEmit(m, b, Arith(b.next, ty, ak, x, y), c);
    HereLater(m, b, vals, sc, c, tmps, Emit(b, Arith(b.next, ty, ak, x, y)), c');
  }

  lemma SimHereLoad(m: Machine, b: Build, vals: Vals, sc: Scope, a: Operand, ty: LTy, c: Config, tmps: map<nat, Val>)
    returns (c': Config)
    requires Here(m, b, vals, sc, c, tmps) && c.At? && EvalVal(c.regs, a).Some? && a.ty == IntTy(sc.aw)
    ensures
      var (b', r) := LoadMem(m, b, a, ty);
      && Sim(m, b, c, b', c') && c'.At? && c'.g == c.g && r.ty == ty && Here(m, b', vals, sc, c', tmps)
      && EvalVal(c'.regs, r) == Some(LoadVal(c.g, EvalVal(c.regs, a).value, ty))
  {
    hide Sim, Reach, Grow, LoadMem, AtEnd, Temps;
    c' := SimLoadMem(m, b, a, ty, c);
    SimEnds(m, b, c, LoadMem(m, b, a, ty).0, c');
    AtEndIs(LoadMem(m, b, a, ty).0, c');
    HereLater(m, b, vals, sc, c, tmps, LoadMem(m, b, a, ty).0, c');
  }

  lemma SimHereStore(m: Machine, b: Build, vals: Vals, sc: Scope, a: Operand, v: Operand, c: Config, tmps: map<nat, Val>)
    returns (c': Config)
    requires Here(m, b, vals, sc, c, tmps) && c.At? && a.ty == IntTy(sc.aw)
    requires EvalVal(c.regs, a).Some? && EvalVal(c.regs, v).Some?
    ensures
      var b' := StoreMem(m, b, a, v);
      && Sim(m, b, c, b', c') && c'.At? && Here(m, b', vals, sc, c', tmps)
      && c'.g == StoreVal(c.g, EvalVal(c.regs, a).value, EvalVal(c.regs, v).value)
  {
    hide Sim, Reach, Grow, StoreMem, AtEnd, Temps;
    c' := SimStoreMem(m, b, a, v, c);
    SimEnds(m, b, c, StoreMem(m, b, a, v), c');
    AtEndIs(StoreMem(m, b, a, v), c');
    HereLater(m, b, vals, sc, c, tmps, StoreMem(m, b, a, v), c');
  }

  lemma LoadIsMem(g: Guest, a: Val, ty: LTy)
    ensures LoadVal(g, a, ty) == MemVal(g, a, BitsOf(ty))
  {
  }

  lemma EqArith(x: nat, y: nat, w: nat)
    ensures ArithVal(ICmpEQ, x, y, w) == Some(if x == y then 1 else 0)
  {
  }

  lemma SimCasSingle(m: Machine, b: Build, vals: Vals, sc: Scope, oldLo: nat, addr: Expr, expd: Expr, data: Expr,
                     c: Config, tmps: map<nat, Val>) returns (c': Config, o: Operand, v: Val)
    requires Here(m, b, vals, sc, c, tmps) && WfStmt(CAS(oldLo, addr, expd, data, None), sc)
    requires c.At? && CasProceeds(m, c.g, tmps, addr, expd, data)
    ensures
      var r := EmitCasSingle(m, b, vals, oldLo, addr, expd, data);
      && Sim(m, b, c, r.b, c') && c'.At? && c.At?
      && r.vals == vals[oldLo := o] && o.ty == TyOf(expd, sc.tt) && EvalVal(c'.regs, o) == Some(v)
      && Exec(m, CAS(oldLo, addr, expd, data, None), c.g, tmps) == Go(c'.g, tmps[oldLo := v])
  {
    hide Defined, AllDefined, Here, Sim, AtEnd, Reach, Grow, EmitExpr, Split, Join, StoreMem, LoadMem, Eval, WfExpr, WfAddr, Tidy, Open, StoreVal,
         LoadVal, MemVal, AddrTy, Below, MemoOk, Keeps, MoveTo, EvalVal, Emit, ArithVal;
    HereParts(m, b, vals, sc, c, tmps);
    WfAddrParts(addr, sc);
    var i1 := IntTy(1);
    var (b1, a) := EmitExpr(m, b, vals, addr);
    var c1 := SimHere(m, b, vals, sc, addr, c, tmps);
    var (b2, e) := EmitExpr(m, b1, vals, expd);
    var c2 := SimHere(m, b1, vals, sc, expd, c1, tmps);
    SimKeeps(m, b1, c1, b2, c2, a);
    var (b3, was) := LoadMem(m, b2, a, e.ty);
    var c3 := SimHereLoad(m, b2, vals, sc, a, e.ty, c2, tmps);
    SimKeeps(m, b2, c2, b3, c3, a);
    SimKeeps(m, b2, c2, b3, c3, e);
    v := LoadVal(c.g, Eval(m, c.g, tmps, addr), e.ty);
    LoadIsMem(c.g, Eval(m, c.g, tmps, addr), e.ty);
    EqArith(Eval(m, c.g, tmps, expd).n, v.n, BitsOf(e.ty));
    EvalWidth(c3.regs, e, Eval(m, c.g, tmps, expd));
    var b4 := Emit(b3, Arith(b3.next, i1, ICmpEQ, e, was));
    var c4 := SimHereArith(m, b3, vals, sc, i1, ICmpEQ, e, was, c3, tmps);
    SimTrans(m, b, c, b1, c1, b2, c2);
    SimTrans(m, b, c, b2, c2, b3, c3);
    SimTrans(m, b, c, b3, c3, b4, c4);
    SimKeeps(m, b3, c3, b4, c4, a);
    SimKeeps(m, b3, c3, b4, c4, was);
    o := was;
    c' := SimCasBody(m, b4, vals, sc, Reg(b3.next, i1), a, data, c4, tmps);
    var r := EmitCasSingle(m, b, vals, oldLo, addr, expd, data);
    SimTrans(m, b, c, b4, c4, r.b, c');
    SimKeeps(m, b4, c4, r.b, c', was);
  }

  /** The store of a compare and swap, under its guard. */
  lemma SimCasBody(m: Machine, b: Build, vals: Vals, sc: Scope, o: Operand, a: Operand, data: Expr, c: Config,
                   tmps: map<nat, Val>) returns (c': Config)
    requires Here(m, b, vals, sc, c, tmps) && c.At? && WfExpr(data, sc) && a.ty == IntTy(sc.aw)
    requires EvalVal(c.regs, o).Some? && EvalVal(c.regs, a).Some?
    requires EvalVal(c.regs, o).value.n != 0 ==> Defined(m, c.g, tmps, data)
    ensures
      var n := |b.blocks|;
      var (b1, d) := EmitExpr(m, MoveTo(Split(b, o), n), vals, data);
      && Sim(m, b, c, Join(StoreMem(m, b1, a, d), n + 1), c') && c'.At?
      && c'.g == if EvalVal(c.regs, o).value.n == 0 then c.g
                 else StoreVal(c.g, EvalVal(c.regs, a).value, Eval(m, c.g, tmps, data))
  {
    hide Defined, AllDefined, Here, Sim, AtEnd, Reach, Grow, EmitExpr, Split, Join, StoreMem, Eval, WfExpr, Tidy, Open, StoreVal, AddrTy,
         Below, MemoOk, Keeps, MoveTo, EvalVal;
    HereParts(m, b, vals, sc, c, tmps);
    var n := |b.blocks|;
    var s := MoveTo(Split(b, o), n);
    SplitOpen(b, o);
    TidyRefl(s);
    var (b1, d) := EmitExpr(m, s, vals, data);
    TidyThenExpr(m, s, s, vals, data);
    TidyThenStore(m, s, b1, a, d);
    var b2 := StoreMem(m, b1, a, d);
    if EvalVal(c.regs, o).value.n == 0 {
      c' := SimGuardSkip(m, b, o, b2, c);
    } else {
      var d0 := SimSplit(m, b, o, c);
      HereAt(m, s, vals, sc, d0, tmps);
      var d1 := SimHere(m, s, vals, sc, data, d0, tmps);
      SimKeeps(m, s, d0, b1, d1, a);
      var d2 := SimHereStore(m, b1, vals, sc, a, d, d1, tmps);
      SimTrans(m, s, d0, b1, d1, b2, d2);
      c' := SimGuardTake(m, b, o, b2, c, d0, d2);
    }
  }

  /** Both guarded stores of a double-width compare and swap, as coded. */
  function CasStores(m: Machine, b: Build, vals: Vals, o: Operand, a: Operand, aHi: Operand, data: Expr): Build {
    hide *;
    var n := |b.blocks|;
    var (b1, d) := EmitExpr(m, MoveTo(Split(b, o), n), vals, data);
    var (b2, d2) := EmitExpr(m, StoreMem(m, b1, a, d), vals, data);
    Join(StoreMem(m, b2, aHi, d2), n + 1)
  }

  function StoredTwice(m: Machine, g: Guest, tmps: map<nat, Val>, av: Val, hv: Val, data: Expr): Guest {
    var g1 := StoreVal(g, av, Eval(m, g, tmps, data));
    StoreVal(g1, hv, Eval(m, g1, tmps, data))
  }

  lemma CasStoresIs(m: Machine, b: Build, vals: Vals, o: Operand, a: Operand, aHi: Operand, data: Expr)
    ensures
      var (b1, d) := EmitExpr(m, MoveTo(Split(b, o), |b.blocks|), vals, data);
      var (b2, d2) := EmitExpr(m, StoreMem(m, b1, a, d), vals, data);
      var b3 := StoreMem(m, b2, aHi, d2);
      |b.blocks| + 1 < |b3.blocks| && CasStores(m, b, vals, o, a, aHi, data) == Join(b3, |b.blocks| + 1)
  {
    hide EmitExpr, StoreMem, Split, Join, MoveTo;
  }

  /** The two stores one after the other. */
  lemma SimTwoStores(m: Machine, s: Build, vals: Vals, sc: Scope, a: Operand, aHi: Operand, data: Expr,
                     c: Config, tmps: map<nat, Val>, av: Val, hv: Val) returns (c': Config)
    requires Here(m, s, vals, sc, c, tmps) && c.At? && WfExpr(data, sc) && a.ty == aHi.ty == IntTy(sc.aw)
    requires EvalVal(c.regs, a) == Some(av) && EvalVal(c.regs, aHi) == Some(hv) && TwiceDefined(m, c.g, tmps, av, data)
    ensures
      var (b1, d) := EmitExpr(m, s, vals, data);
      var (b2, d2) := EmitExpr(m, StoreMem(m, b1, a, d), vals, data);
      Sim(m, s, c, StoreMem(m, b2, aHi, d2), c') && c'.At? && c'.g == StoredTwice(m, c.g, tmps, av, hv, data)
  {
    hide Here, Sim, AtEnd, Reach, Grow, EmitExpr, StoreMem, Eval, WfExpr, StoreVal, AddrTy, Keeps, EvalVal, Defined;
    var (b1, d) := EmitExpr(m, s, vals, data);
    var b1s := StoreMem(m, b1, a, d);
    var (b2, d2) := EmitExpr(m, b1s, vals, data);
    var e1 := SimHere(m, s, vals, sc, data, c, tmps);
    SimKeeps(m, s, c, b1, e1, a);
    SimKeeps(m, s, c, b1, e1, aHi);
    var e2 := SimHereStore(m, b1, vals, sc, a, d, e1, tmps);
    SimKeeps(m, b1, e1, b1s, e2, aHi);
    var e3 := SimHere(m, b1s, vals, sc, data, e2, tmps);
    SimKeeps(m, b1s, e2, b2, e3, aHi);
    c' := SimHereStore(m, b2, vals, sc, aHi, d2, e3, tmps);
    SimTrans(m, s, c, b1, e1, b1s, e2);
    SimTrans(m, s, c, b1s, e2, b2, e3);
    SimTrans(m, s, c, b2, e3, StoreMem(m, b2, aHi, d2), c');
  }

  /** ... and under their guard. */
  lemma SimCasBodyDouble(m: Machine, b: Build, vals: Vals, sc: Scope, o: Operand, a: Operand, aHi: Operand, data: Expr,
                         c: Config, tmps: map<nat, Val>, ov: Val, av: Val, hv: Val) returns (c': Config)
    requires Here(m, b, vals, sc, c, tmps) && c.At? && WfExpr(data, sc)
    requires a.ty == aHi.ty == IntTy(sc.aw)
    requires EvalVal(c.regs, o) == Some(ov) && EvalVal(c.regs, a) == Some(av) && EvalVal(c.regs, aHi) == Some(hv)
    requires ov.n != 0 ==> TwiceDefined(m, c.g, tmps, av, data)
    ensures Sim(m, b, c, CasStores(m, b, vals, o, a, aHi, data), c') && c'.At?
    ensures c'.g == if ov.n == 0 then c.g else StoredTwice(m, c.g, tmps, av, hv, data)
  {
    hide *;
    HereParts(m, b, vals, sc, c, tmps);
    CasStoresIs(m, b, vals, o, a, aHi, data);
    var n := |b.blocks|;
    var s := MoveTo(Split(b, o), n);
    SplitOpen(b, o);
    TidyRefl(s);
    var (b1, d) := EmitExpr(m, s, vals, data);
    TidyThenExpr(m, s, s, vals, data);
    TidyThenStore(m, s, b1, a, d);
    var b1s := StoreMem(m, b1, a, d);
    var (b2, d2) := EmitExpr(m, b1s, vals, data);
    TidyThenExpr(m, s, b1s, vals, data);
    TidyThenStore(m, s, b2, aHi, d2);
    var b3 := StoreMem(m, b2, aHi, d2);
    if ov.n == 0 {
      c' := SimGuardSkip(m, b, o, b3, c);
    } else {
      var e0 := SimSplit(m, b, o, c);
      HereAt(m, s, vals, sc, e0, tmps);
      var e4 := SimTwoStores(m, s, vals, sc, a, aHi, data, e0, tmps, av, hv);
      c' := SimGuardTake(m, b, o, b3, c, e0, e4);
    }
  }

  /** The high half's address is the low one plus the width in bytes, in the address's own width. */
  lemma HiArith(a: Val, w: nat)
    ensures ArithVal(Add, a.n, w / 8, a.w) == Some(HiAddr(a, w).n) && HiAddr(a, w).w == a.w
  {
  }

  lemma SimCasHigh(m: Machine, b: Build, vals: Vals, sc: Scope, a: Operand, e: Operand, was: Operand, expdHi: Expr,
                   c: Config, tmps: map<nat, Val>, av: Val, ev: Val, wv: Val) returns (c': Config)
    requires Here(m, b, vals, sc, c, tmps) && c.At? && WfExpr(expdHi, sc) && a.ty == IntTy(sc.aw)
    requires Defined(m, c.g, tmps, expdHi)
    requires EvalVal(c.regs, a) == Some(av) && EvalVal(c.regs, e) == Some(ev) && EvalVal(c.regs, was) == Some(wv)
    requires TyOf(expdHi, sc.tt) == e.ty
    ensures
      var h := EmitCasHigh(m, b, vals, a, e, was, expdHi);
      var aHi := HiAddr(av, ev.w);
      var high := MemVal(c.g, aHi, ev.w);
      var eq := (ev.n == wv.n) == (Eval(m, c.g, tmps, expdHi).n == high.n);
      && Sim(m, b, c, h.b, c') && c'.At? && c'.g == c.g && Here(m, h.b, vals, sc, c', tmps)
      && h.aHi.ty == a.ty && h.wasHi.ty == e.ty
      && EvalVal(c'.regs, h.aHi) == Some(aHi) && EvalVal(c'.regs, h.wasHi) == Some(high)
      && EvalVal(c'.regs, h.cmp) == Some(Val(1, if eq then 1 else 0))
  {
    hide Defined, AllDefined, Here, Sim, AtEnd, Reach, Grow, EmitExpr, LoadMem, Eval, WfExpr, LoadVal, MemVal, HiAddr, AddrTy, EvalVal, Emit,
         ArithVal;
    var i1 := IntTy(1);
    EvalWidth(c.regs, a, av);
    EvalWidth(c.regs, e, ev);
    HiArith(av, ev.w);
    var aHiV := HiAddr(av, ev.w);
    var hv := Eval(m, c.g, tmps, expdHi);
    var (b1, eHi) := EmitExpr(m, b, vals, expdHi);
    var c1 := SimHere(m, b, vals, sc, expdHi, c, tmps);
    SimKeeps(m, b, c, b1, c1, a);
    var k := Imm(BytesOf(e.ty), a.ty);
    ImmVal(c1.regs, BytesOf(e.ty), a.ty);
    var b2 := Emit(b1, Arith(b1.next, a.ty, Add, a, k));
    var c2 := SimHereArith(m, b1, vals, sc, a.ty, Add, a, k, c1, tmps);
    SimTrans(m, b, c, b1, c1, b2, c2);
    SimKeeps(m, b1, c1, b2, c2, eHi);
    var aHi := Reg(b1.next, a.ty);
    assert EvalVal(c2.regs, aHi) == Some(aHiV);
    var (b3, wasHi) := LoadMem(m, b2, aHi, e.ty);
    var c3 := SimHereLoad(m, b2, vals, sc, aHi, e.ty, c2, tmps);
    LoadIsMem(c.g, aHiV, e.ty);
    SimTrans(m, b, c, b2, c2, b3, c3);
    SimKeeps(m, b2, c2, b3, c3, eHi);
    SimKeeps(m, b2, c2, b3, c3, aHi);
    c' := SimCasCmp(m, b, vals, sc, e, was, eHi, wasHi, aHi, c, b3, c3, tmps, ev, wv, hv, MemVal(c.g, aHiV, ev.w), aHiV);
  }

  /** The three comparisons at the end of the head. */
  lemma SimCasCmp(m: Machine, b: Build, vals: Vals, sc: Scope, e: Operand, was: Operand, eHi: Operand, wasHi: Operand,
                  aHi: Operand, c: Config, b3: Build, c3: Config, tmps: map<nat, Val>,
                  ev: Val, wv: Val, hv: Val, hwv: Val, aHiV: Val) returns (c': Config)
    requires Here(m, b3, vals, sc, c3, tmps) && Sim(m, b, c, b3, c3) && c.At? && c3.At? && c3.g == c.g
    requires EvalVal(c.regs, e) == Some(ev) && EvalVal(c.regs, was) == Some(wv)
    requires EvalVal(c3.regs, eHi) == Some(hv) && EvalVal(c3.regs, wasHi) == Some(hwv) && EvalVal(c3.regs, aHi) == Some(aHiV)
    ensures
      var i1 := IntTy(1);
      var b4 := Emit(b3, Arith(b3.next, i1, ICmpEQ, e, was));
      var b5 := Emit(b4, Arith(b4.next, i1, ICmpEQ, eHi, wasHi));
      var b6 := Emit(b5, Arith(b5.next, i1, ICmpEQ, Reg(b3.next, i1), Reg(b4.next, i1)));
      && Sim(m, b, c, b6, c') && c'.At? && c'.g == c.g && Here(m, b6, vals, sc, c', tmps)
      && EvalVal(c'.regs, aHi) == Some(aHiV) && EvalVal(c'.regs, wasHi) == Some(hwv)
      && EvalVal(c'.regs, Reg(b5.next, i1)) == Some(Val(1, if (ev.n == wv.n) == (hv.n == hwv.n) then 1 else 0))
  {
    hide Here, Sim, AtEnd, Reach, Grow, EvalVal, Emit, ArithVal, Keeps;
    var i1 := IntTy(1);
    SimKeeps(m, b, c, b3, c3, e);
    SimKeeps(m, b, c, b3, c3, was);
    EqArith(ev.n, wv.n, BitsOf(e.ty));
    EqArith(hv.n, hwv.n, BitsOf(eHi.ty));
    var b4 := Emit(b3, Arith(b3.next, i1, ICmpEQ, e, was));
    var c4 := SimHereArith(m, b3, vals, sc, i1, ICmpEQ, e, was, c3, tmps);
    SimTrans(m, b, c, b3, c3, b4, c4);
    SimKeeps(m, b3, c3, b4, c4, eHi);
    SimKeeps(m, b3, c3, b4, c4, wasHi);
    SimKeeps(m, b3, c3, b4, c4, aHi);
    var b5 := Emit(b4, Arith(b4.next, i1, ICmpEQ, eHi, wasHi));
    var c5 := SimHereArith(m, b4, vals, sc, i1, ICmpEQ, eHi, wasHi, c4, tmps);
    SimTrans(m, b, c, b4, c4, b5, c5);
    SimKeeps(m, b4, c4, b5, c5, Reg(b3.next, i1));
    SimKeeps(m, b4, c4, b5, c5, wasHi);
    SimKeeps(m, b4, c4, b5, c5, aHi);
    var x, y := if ev.n == wv.n then 1 else 0, if hv.n == hwv.n then 1 else 0;
    EqArith(x, y, 1);
    c' := SimHereArith(m, b5, vals, sc, i1, ICmpEQ, Reg(b3.next, i1), Reg(b4.next, i1), c5, tmps);
    var b6 := Emit(b5, Arith(b5.next, i1, ICmpEQ, Reg(b3.next, i1), Reg(b4.next, i1)));
    SimTrans(m, b, c, b5, c5, b6, c');
    SimKeeps(m, b5, c5, b6, c', wasHi);
    SimKeeps(m, b5, c5, b6, c', aHi);
  }

  lemma CasDoubleIs(m: Machine, b: Build, vals: Vals, oldLo: nat, addr: Expr, expd: Expr, data: Expr, hi: CasHi)
    ensures
      var (b1, a) := EmitExpr(m, b, vals, addr);
      var (b2, e) := EmitExpr(m, b1, vals, expd);
      var (b3, was) := LoadMem(m, b2, a, e.ty);
      var h := EmitCasHigh(m, b3, vals, a, e, was, hi.expdHi);
      EmitCasDouble(m, b, vals, oldLo, addr, expd, data, hi) ==
        Emitted(CasStores(m, h.b, vals, h.cmp, a, h.aHi, data), vals[oldLo := was][hi.oldHi := h.wasHi])
  {
    hide EmitExpr, LoadMem, StoreMem, Split, Join, MoveTo, EmitCasHigh;
  }

  lemma CodedIs(m: Machine, g: Guest, tmps: map<nat, Val>, oldLo: nat, addr: Expr, expd: Expr, data: Expr, hi: CasHi)
    ensures
      var a, e, eHi := Eval(m, g, tmps, addr), Eval(m, g, tmps, expd), Eval(m, g, tmps, hi.expdHi);
      var aHi := HiAddr(a, e.w);
      var lo, high := MemVal(g, a, e.w), MemVal(g, aHi, e.w);
      CasDoubleCoded(m, g, tmps, oldLo, addr, expd, data, hi) ==
        Go(if (e.n == lo.n) == (eHi.n == high.n) then StoredTwice(m, g, tmps, a, aHi, data) else g,
           tmps[oldLo := lo][hi.oldHi := high])
  {
    hide Eval, EvalAll, MemVal, HiAddr, StoreVal, Defined, AllDefined;
  }

  lemma CasDoubleParts(m: Machine, g: Guest, tmps: map<nat, Val>, addr: Expr, expd: Expr, data: Expr, hi: CasHi)
    requires CasDoubleProceeds(m, g, tmps, addr, expd, data, hi)
    ensures Defined(m, g, tmps, addr) && Defined(m, g, tmps, expd) && Defined(m, g, tmps, hi.expdHi)
    ensures
      var a, e, eHi := Eval(m, g, tmps, addr), Eval(m, g, tmps, expd), Eval(m, g, tmps, hi.expdHi);
      var lo, high := MemVal(g, a, e.w), MemVal(g, HiAddr(a, e.w), e.w);
      (e.n == lo.n) == (eHi.n == high.n) ==> TwiceDefined(m, g, tmps, a, data)
  {
    hide Eval, EvalAll, MemVal, HiAddr, StoreVal, Defined, AllDefined, TwiceDefined;
  }

  lemma SimCasDouble(m: Machine, b: Build, vals: Vals, sc: Scope, oldLo: nat, addr: Expr, expd: Expr, data: Expr,
                     hi: CasHi, c: Config, tmps: map<nat, Val>)
    returns (c': Config, r: Emitted, o: Operand, v: Val, o2: Operand, v2: Val)
    requires Here(m, b, vals, sc, c, tmps) && c.At?
    requires WfAddr(addr, sc) && WfExpr(expd, sc) && WfExpr(data, sc)
    requires WfExpr(hi.expdHi, sc) && TyOf(hi.expdHi, sc.tt) == TyOf(expd, sc.tt)
    requires CasDoubleProceeds(m, c.g, tmps, addr, expd, data, hi)
    ensures c'.At?
    ensures r.vals == vals[oldLo := o][hi.oldHi := o2] && Sim(m, b, c, r.b, c')
    ensures
      && o.ty == o2.ty == TyOf(expd, sc.tt) && EvalVal(c'.regs, o) == Some(v) && EvalVal(c'.regs, o2) == Some(v2)
      && CasDoubleCoded(m, c.g, tmps, oldLo, addr, expd, data, hi) == Go(c'.g, tmps[oldLo := v][hi.oldHi := v2])
    ensures r == EmitCasDouble(m, b, vals, oldLo, addr, expd, data, hi)
  {
    hide *;
    HereParts(m, b, vals, sc, c, tmps);
    WfAddrParts(addr, sc);
    CodedIs(m, c.g, tmps, oldLo, addr, expd, data, hi);
    CasDoubleParts(m, c.g, tmps, addr, expd, data, hi);
    CasDoubleIs(m, b, vals, oldLo, addr, expd, data, hi);
    var av, ev := Eval(m, c.g, tmps, addr), Eval(m, c.g, tmps, expd);
    var (b1, a) := EmitExpr(m, b, vals, addr);
    var c1 := SimHere(m, b, vals, sc, addr, c, tmps);
    var (b2, e) := EmitExpr(m, b1, vals, expd);
    var c2 := SimHere(m, b1, vals, sc, expd, c1, tmps);
    EvalWidth(c2.regs, e, ev);
    SimTrans(m, b, c, b1, c1, b2, c2);
    SimKeeps(m, b1, c1, b2, c2, a);
    var (b3, was) := LoadMem(m, b2, a, e.ty);
    var c3 := SimHereLoad(m, b2, vals, sc, a, e.ty, c2, tmps);
    SimTrans(m, b, c, b2, c2, b3, c3);
    SimKeeps(m, b2, c2, b3, c3, a);
    SimKeeps(m, b2, c2, b3, c3, e);
    v := LoadVal(c.g, av, e.ty);
    LoadIsMem(c.g, av, e.ty);
    var h := EmitCasHigh(m, b3, vals, a, e, was, hi.expdHi);
    var c4 := SimCasHigh(m, b3, vals, sc, a, e, was, hi.expdHi, c3, tmps, av, ev, v);
    SimTrans(m, b, c, b3, c3, h.b, c4);
    SimKeeps(m, b3, c3, h.b, c4, a);
    SimKeeps(m, b3, c3, h.b, c4, was);
    o, o2, v2 := was, h.wasHi, MemVal(c.g, HiAddr(av, ev.w), ev.w);
    var eq := (ev.n == v.n) == (Eval(m, c.g, tmps, hi.expdHi).n == v2.n);
    c' := SimCasBodyDouble(m, h.b, vals, sc, h.cmp, a, h.aHi, data, c4, tmps, Val(1, if eq then 1 else 0), av, HiAddr(av, ev.w));
    r := EmitCasDouble(m, b, vals, oldLo, addr, expd, data, hi);
    SimTrans(m, b, c, h.b, c4, r.b, c');
    SimKeeps(m, h.b, c4, r.b, c', was);
    SimKeeps(m, h.b, c4, r.b, c', h.wasHi);
  }

  // ---- guarded load

  lemma SimLoadG(m: Machine, b: Build, vals: Vals, sc: Scope, cvt: LoadGOp, a: Operand, c: Config, tmps: map<nat, Val>)
    returns (c': Config)
    requires Here(m, b, vals, sc, c, tmps) && c.At? && EvalVal(c.regs, a).Some? && a.ty == IntTy(sc.aw)
    ensures
      var (b', v) := EmitLoadG(m, b, cvt, a);
      && Sim(m, b, c, b', c') && c'.At? && c'.g == c.g && v.ty == LoadGResTy(cvt)
      && EvalVal(c'.regs, v) == Some(LoadGVal(cvt, LoadVal(c.g, EvalVal(c.regs, a).value, LoadGTy(cvt))))
  {
    hide Here, Sim, AtEnd, Reach, Grow, LoadMem, AddrTy, EvalVal, Emit, LoadVal;
    var (b1, v) := LoadMem(m, b, a, LoadGTy(cvt));
    var c1 := SimHereLoad(m, b, vals, sc, a, LoadGTy(cvt), c, tmps);
    var was := LoadVal(c.g, EvalVal(c.regs, a).value, LoadGTy(cvt));
    EvalWidth(c1.regs, v, was);
    match cvt
    case Ident32 => c' := c1;
    case IdentV128 => c' := c1;
    case Cvt8Uto32 => c' := SimCast(m, b, b1, c, c1, ZExt, v);
    case Cvt16Uto32 => c' := SimCast(m, b, b1, c, c1, ZExt, v);
    case Cvt8Sto32 => c' := SimCast(m, b, b1, c, c1, SExt, v);
    case Cvt16Sto32 => c' := SimCast(m, b, b1, c, c1, SExt, v);
  }

  lemma SimCast(m: Machine, b: Build, b1: Build, c: Config, c1: Config, ck: CastKind, v: Operand) returns (c': Config)
    requires Sim(m, b, c, b1, c1) && c1.At? && EvalVal(c1.regs, v).Some?
    ensures
      var i := Cast(b1.next, IntTy(32), ck, v);
      && Sim(m, b, c, Emit(b1, i), c') && c'.At? && c'.g == c1.g
      && EvalVal(c'.regs, Reg(b1.next, IntTy(32))) == Some(Val(32, CastVal(ck, EvalVal(c1.regs, v).value, 32)))
  {
    hide Reach, Grow, CastVal;
    var i := Cast(b1.next, IntTy(32), ck, v);
    c' := SimEmit(m, b1, i, c1);
    SimTrans(m, b, c, b1, c1, Emit(b1, i), c');
  }

  lemma SimSplitThree(m: Machine, b: Build, o: Operand, c: Config) returns (c': Config)
    requires AtEnd(b, c) && EvalVal(c.regs, o).Some?
    ensures Grow(b.blocks, SplitThree(b, o).blocks) && Reach(m, SplitThree(b, o).blocks, c, c')
    ensures c' == At(|b.blocks| + if EvalVal(c.regs, o).value.n == 0 then 1 else 0, 0, b.cur, c.regs, c.g)
    ensures EvalVal(c.regs, o).value.n != 0 ==> AtEnd(SplitThree(b, o), c')
  {
    c' := At(|b.blocks| + if EvalVal(c.regs, o).value.n == 0 then 1 else 0, 0, b.cur, c.regs, c.g);
    ReachStep(m, SplitThree(b, o).blocks, c, c');
  }

  /** The block for the failing guard does nothing but jump to the join. */
  lemma SimJoinAlt(m: Machine, b: Build, v: Operand, alt: Operand, yes: nat, dom: set<nat>, c: Config) returns (c': Config)
    requires Open(b) && yes + 2 < |b.blocks| && b.cur == yes && 0 < yes
    requires b.blocks[yes + 1] == b.blocks[yes + 2] == Block([], NoTerm, dom)
    requires c.At? && c.b == yes + 1 && c.pc == 0 && Below(c.regs, b.next) && EvalVal(c.regs, alt).Some?
    requires alt.ty == v.ty
    ensures
      var (b', r) := JoinLoad(b, v, alt, yes);
      && Reach(m, b'.blocks, c, c') && AtEnd(b', c') && c'.At? && c'.g == c.g && Keeps(c.regs, c'.regs)
      && Grow(b.blocks, b'.blocks) && r.ty == v.ty && EvalVal(c'.regs, r) == EvalVal(c.regs, alt)
      && b.next <= b'.next && Newer(c.regs, c'.regs, b.next)
  {
    var b' := JoinLoad(b, v, alt, yes).0;
    var n := EvalVal(c.regs, alt).value.n;
    var d := At(yes + 2, 0, yes + 1, c.regs, c.g);
    ReachStep(m, b'.blocks, c, d);
    c' := At(yes + 2, 1, yes + 1, c.regs[b.next := Num(n)], c.g);
    ReachStep(m, b'.blocks, d, c');
    ReachTrans(m, b'.blocks, c, d, c');
  }

  /** The block that loaded jumps to the join as well. */
  lemma SimJoinLoad(m: Machine, b: Build, v: Operand, alt: Operand, yes: nat, dom: set<nat>, c: Config) returns (c': Config)
    requires AtEnd(b, c) && yes + 2 < |b.blocks| && b.cur == yes && 0 < yes
    requires b.blocks[yes + 1] == b.blocks[yes + 2] == Block([], NoTerm, dom)
    requires EvalVal(c.regs, v).Some?
    ensures
      var (b', r) := JoinLoad(b, v, alt, yes);
      && Reach(m, b'.blocks, c, c') && AtEnd(b', c') && c'.At? && c'.g == c.g && Keeps(c.regs, c'.regs)
      && Grow(b.blocks, b'.blocks) && r.ty == v.ty && EvalVal(c'.regs, r) == EvalVal(c.regs, v)
      && b.next <= b'.next && Newer(c.regs, c'.regs, b.next)
  {
    var b' := JoinLoad(b, v, alt, yes).0;
    var n := EvalVal(c.regs, v).value.n;
    var d := At(yes + 2, 0, yes, c.regs, c.g);
    ReachStep(m, b'.blocks, c, d);
    c' := At(yes + 2, 1, yes, c.regs[b.next := Num(n)], c.g);
    ReachStep(m, b'.blocks, d, c');
    ReachTrans(m, b'.blocks, c, d, c');
  }

  lemma SimGuardedLoad(m: Machine, b: Build, vals: Vals, sc: Scope, cvt: LoadGOp, dst: nat, addr: Expr, alt: Expr,
                       guard: Expr, c: Config, tmps: map<nat, Val>)
    returns (c': Config, r: Emitted, o: Operand, v: Val)
    requires Here(m, b, vals, sc, c, tmps) && WfStmt(LoadG(cvt, dst, addr, alt, guard), sc)
    requires c.At? && Proceeds(m, LoadG(cvt, dst, addr, alt, guard), c.g, tmps)
    ensures c.At? && c'.At? && Sim(m, b, c, r.b, c') && r.vals == vals[dst := o]
    ensures o.ty == LoadGResTy(cvt) && EvalVal(c'.regs, o) == Some(v)
    ensures Exec(m, LoadG(cvt, dst, addr, alt, guard), c.g, tmps) == Go(c'.g, tmps[dst := v])
    ensures r == EmitGuardedLoad(m, b, vals, cvt, dst, addr, alt, guard)
  {
    hide Defined, AllDefined, Here, Sim, AtEnd, Reach, Grow, EmitExpr, EmitLoadG, SplitThree, JoinLoad, Eval, WfExpr, WfAddr, Tidy, Open, Made,
         LoadVal, LoadGVal, AddrTy, Below, MemoOk, Keeps, EvalVal, Avail, Temps;
    HereParts(m, b, vals, sc, c, tmps);
    WfAddrParts(addr, sc);
    var (b1, g) := EmitExpr(m, b, vals, guard);
    var c1 := SimHere(m, b, vals, sc, guard, c, tmps);
    var (b2, a) := EmitExpr(m, b1, vals, addr);
    var c2 := SimEmits(m, b1, vals, sc, addr, c1, tmps);
    var (b3, av) := EmitExpr(m, b2, vals, alt);
    var c3 := SimEmits(m, b2, vals, sc, alt, c2, tmps);
    SimTrans(m, b, c, b1, c1, b2, c2);
    SimTrans(m, b, c, b2, c2, b3, c3);
    SimKeeps(m, b1, c1, b2, c2, g);
    SimKeeps(m, b2, c2, b3, c3, g);
    if Defined(m, c.g, tmps, addr) {
      SimKeeps(m, b2, c2, b3, c3, a);
    }
    HereParts(m, b3, vals, sc, c3, tmps);
    r := EmitGuardedLoad(m, b, vals, cvt, dst, addr, alt, guard);
    var c4;
    c4, o, v := SimLoadTail(m, b3, vals, sc, cvt, g, a, av, c3, tmps);
    c' := c4;
    SimTrans(m, b, c, b3, c3, r.b, c');
  }

  /** From the branch of a guarded load to its join. */
  lemma SimLoadTail(m: Machine, b: Build, vals: Vals, sc: Scope, cvt: LoadGOp, g: Operand, a: Operand, alt: Operand,
                    c: Config, tmps: map<nat, Val>) returns (c': Config, o: Operand, v: Val)
    requires Here(m, b, vals, sc, c, tmps) && c.At?
    requires EvalVal(c.regs, g).Some? && EvalVal(c.regs, if EvalVal(c.regs, g).value.n == 0 then alt else a).Some?
    requires a.ty == IntTy(sc.aw) && alt.ty == LoadGResTy(cvt)
    ensures
      var (b4, lv) := EmitLoadG(m, SplitThree(b, g), cvt, a);
      && |b.blocks| + 2 < |b4.blocks|
      && var (b5, r) := JoinLoad(b4, lv, alt, |b.blocks|);
      && Sim(m, b, c, b5, c') && c'.At? && c'.g == c.g && o == r
    ensures v == if EvalVal(c.regs, g).value.n == 0 then EvalVal(c.regs, alt).value
                 else LoadGVal(cvt, LoadVal(c.g, EvalVal(c.regs, a).value, LoadGTy(cvt)))
    ensures o.ty == LoadGResTy(cvt) && EvalVal(c'.regs, o) == Some(v)
  {
    hide Sim, AtEnd, Reach, Grow, EmitLoadG, SplitThree, JoinLoad, Tidy, Open, Made,
         LoadVal, LoadGVal, AddrTy, Below, MemoOk, Keeps, EvalVal, Avail, Temps, Here;
    HereParts(m, b, vals, sc, c, tmps);
    var n := |b.blocks|;
    var s := SplitThree(b, g);
    SplitThreeBlocks(b, g);
    MadeOpen(b, s, {n, n + 1, n + 2});
    var (b4, lv) := EmitLoadG(m, s, cvt, a);
    TidyLoadG(m, s, cvt, a);
    TidyCur(s, b4);
    TidyNext(s, b4);
    TidyOpen(s, b4);
    LoadGType(m, s, cvt, a);
    var d := SimSplitThree(m, b, g, c);
    var r := JoinLoad(b4, lv, alt, n);
    o := r.1;
    if EvalVal(c.regs, g).value.n == 0 {
      AtEndBelow(b, c);
      BelowMono(c.regs, b.next, b4.next);
      c' := SimJoinAlt(m, b4, lv, alt, n, Avail(b), d);
      GrowTrans(s.blocks, b4.blocks, r.0.blocks);
      ReachGrow(m, s.blocks, r.0.blocks, c, d);
      v := EvalVal(c.regs, alt).value;
      KeepsTrans(c.regs, d.regs, c'.regs) by { KeepsRefl(c.regs); }
      NewerLess(c.regs, c'.regs, b.next, b4.next);
      ReachTrans(m, r.0.blocks, c, d, c');
    } else {
      HereAt(m, s, vals, sc, d, tmps);
      var e := SimLoadG(m, s, vals, sc, cvt, a, d, tmps);
      SimEnds(m, s, d, b4, e);
      c' := SimJoinLoad(m, b4, lv, alt, n, Avail(b), e);
      GrowTrans(s.blocks, b4.blocks, r.0.blocks);
      ReachGrow(m, s.blocks, r.0.blocks, c, d);
      ReachGrow(m, b4.blocks, r.0.blocks, d, e);
      v := LoadGVal(cvt, LoadVal(c.g, EvalVal(c.regs, a).value, LoadGTy(cvt)));
      ReachTrans(m, r.0.blocks, c, d, e);
      ReachTrans(m, r.0.blocks, c, e, c');
      KeepsTrans(c.regs, e.regs, c'.regs);
      SimNewer(m, s, d, b4, e);
      NewerTrans(c.regs, e.regs, c'.regs, b.next, b4.next);
    }
    GrowTrans(b.blocks, s.blocks, r.0.blocks);
    SimMake(m, b, c, r.0, c');
  }

  lemma LoadGType(m: Machine, b: Build, cvt: LoadGOp, a: Operand)
    ensures EmitLoadG(m, b, cvt, a).1.ty == LoadGResTy(cvt)
  {
    hide HostAddr, Emit;
  }
}
