/** Compare and swap, guarded loads, helper calls and exits that read a temporary without a value. */
module JamGuards {
  import opened Options
  import opened Bits
  import opened VexIR
  import opened VexWf
  import opened VexDefined
  import opened LlvmIR
  import opened Builder
  import opened Lowering
  import opened Extension
  import opened StmtShape
  import opened Simulation
  import opened SimExpr
  import opened SimStmt
  import opened SimDirty
  import opened Jams
  import opened JamExpr
  import opened JamStmt

  // ---- compare and swap

  lemma CasSingleIs(m: Machine, b: Build, vals: Vals, oldLo: nat, addr: Expr, expd: Expr, data: Expr)
    ensures
      var (b1, a) := EmitExpr(m, b, vals, addr);
      var (b2, e) := EmitExpr(m, b1, vals, expd);
      var (b3, was) := LoadMem(m, b2, a, e.ty);
      var b4 := Emit(b3, Arith(b3.next, IntTy(1), ICmpEQ, e, was));
      var (b6, d) := EmitExpr(m, MoveTo(Split(b4, Reg(b3.next, IntTy(1))), |b4.blocks|), vals, data);
      |b4.blocks| + 1 < |StoreMem(m, b6, a, d).blocks| &&
      EmitCasSingle(m, b, vals, oldLo, addr, expd, data).b == Join(StoreMem(m, b6, a, d), |b4.blocks| + 1)
  {
    hide EmitExpr, Split, MoveTo, Join, StoreMem, LoadMem, Emit;
  }

  /** The guarded store of a compare and swap whose new value is missing. */
  lemma JamCasBody(m: Machine, b: Build, vals: Vals, sc: Scope, o: Operand, a: Operand, data: Expr, c: Config, tmps: map<nat, Val>)
    requires Loose(m, b, vals, sc, c, tmps) && WfExpr(data, sc) && a.ty == IntTy(sc.aw)
    requires EvalVal(c.regs, o).Some? && EvalVal(c.regs, o).value.n != 0 && EvalVal(c.regs, a).Some?
    requires !Defined(m, c.g, tmps, data)
    ensures
      var (b1, d) := EmitExpr(m, MoveTo(Split(b, o), |b.blocks|), vals, data);
      |b.blocks| + 1 < |StoreMem(m, b1, a, d).blocks| && Dead(m, Join(StoreMem(m, b1, a, d), |b.blocks| + 1).blocks, c)
  {
    hide *;
    LooseParts(m, b, vals, sc, c, tmps);
    var s := MoveTo(Split(b, o), |b.blocks|);
    SplitOpen(b, o);
    TidyRefl(s);
    var (b1, d) := EmitExpr(m, s, vals, data);
    TidyThenExpr(m, s, s, vals, data);
    TidyThenStore(m, s, b1, a, d);
    var d0 := LooseBody(m, b, vals, sc, o, c, tmps);
    JamOneStore(m, s, vals, sc, a, data, d0, tmps);
    JamBody(m, b, o, StoreMem(m, b1, a, d), c, d0);
  }

  /** A value that is missing, and the store that needs it. */
  lemma JamOneStore(m: Machine, s: Build, vals: Vals, sc: Scope, a: Operand, data: Expr, c: Config, tmps: map<nat, Val>)
    requires Loose(m, s, vals, sc, c, tmps) && WfExpr(data, sc) && a.ty == IntTy(sc.aw)
    requires c.At? && EvalVal(c.regs, a).Some? && !Defined(m, c.g, tmps, data)
    ensures
      var (b1, d) := EmitExpr(m, s, vals, data);
      Dead(m, StoreMem(m, b1, a, d).blocks, c)
  {
    hide *;
    LooseParts(m, s, vals, sc, c, tmps);
    var (b1, d) := EmitExpr(m, s, vals, data);
    var c1 := TryExpr(m, s, vals, sc, data, c, tmps);
    StoreGrow(m, b1, a, d);
    var f := StoreMem(m, b1, a, d);
    if Emits(m, c.g, tmps, data) {
      SimKeeps(m, s, c, b1, c1, a);
      OperandUnread(m, c.g, tmps, data, d, c1.regs, b1.next);
      JamStore(m, b1, a, d, c1);
      DeadThen(m, s, c, b1, c1, f.blocks);
    } else {
      DeadGrow(m, b1.blocks, f.blocks, c);
    }
  }

  lemma JamCmp(m: Machine, b: Build, ty: LTy, x: Operand, y: Operand, c: Config)
    requires AtEnd(b, c) && (EvalVal(c.regs, x).None? || EvalVal(c.regs, y).None?)
    ensures Dead(m, Emit(b, Arith(b.next, ty, ICmpEQ, x, y)).blocks, c)
  {
    hide Dead, Grow, Emit;
    JamEmit(m, b, Arith(b.next, ty, ICmpEQ, x, y), c);
  }

  lemma SimHereCmp(m: Machine, b: Build, vals: Vals, sc: Scope, x: Operand, y: Operand, c: Config, tmps: map<nat, Val>, u: Val, v: Val)
    returns (c': Config)
    requires Loose(m, b, vals, sc, c, tmps) && EvalVal(c.regs, x) == Some(u) && EvalVal(c.regs, y) == Some(v)
    ensures
      var b' := Emit(b, Arith(b.next, IntTy(1), ICmpEQ, x, y));
      && c.At? && c'.At? && Sim(m, b, c, b', c') && c'.g == c.g && Loose(m, b', vals, sc, c', tmps)
      && EvalVal(c'.regs, Reg(b.next, IntTy(1))) == Some(Val(1, if u.n == v.n then 1 else 0))
  {
    hide Loose, Sim, EvalVal, Emit, ArithVal;
    LooseParts(m, b, vals, sc, c, tmps);
    EqArith(u.n, v.n, BitsOf(x.ty));
    c' := SimHereArith(m, b, vals, sc, IntTy(1), ICmpEQ, x, y, c, tmps);
    LooseLater(m, b, vals, sc, c, tmps, Emit(b, Arith(b.next, IntTy(1), ICmpEQ, x, y)), c');
  }

  lemma LooseLoad(m: Machine, b: Build, vals: Vals, sc: Scope, a: Operand, ty: LTy, c: Config, tmps: map<nat, Val>, av: Val)
    returns (c': Config)
    requires Loose(m, b, vals, sc, c, tmps) && EvalVal(c.regs, a) == Some(av) && a.ty == IntTy(sc.aw)
    ensures
      var (b', r) := LoadMem(m, b, a, ty);
      && c.At? && c'.At? && Sim(m, b, c, b', c') && c'.g == c.g && Loose(m, b', vals, sc, c', tmps)
      && EvalVal(c'.regs, r) == Some(MemVal(c.g, av, BitsOf(ty))) && r.ty == ty
  {
    hide *;
    LooseParts(m, b, vals, sc, c, tmps);
    c' := SimHereLoad(m, b, vals, sc, a, ty, c, tmps);
    LoadIsMem(c.g, av, ty);
    LooseLater(m, b, vals, sc, c, tmps, LoadMem(m, b, a, ty).0, c');
  }

  lemma JamCasSingle(m: Machine, b: Build, vals: Vals, sc: Scope, oldLo: nat, addr: Expr, expd: Expr, data: Expr, c: Config,
                     tmps: map<nat, Val>)
    requires Loose(m, b, vals, sc, c, tmps) && WfAddr(addr, sc) && WfExpr(expd, sc) && WfExpr(data, sc)
    requires !CasProceeds(m, c.g, tmps, addr, expd, data)
    ensures Dead(m, EmitCasSingle(m, b, vals, oldLo, addr, expd, data).b.blocks, c)
  {
    hide *;
    WfAddrParts(addr, sc);
    LooseParts(m, b, vals, sc, c, tmps);
    CasSingleIs(m, b, vals, oldLo, addr, expd, data);
    CasFails(m, c.g, tmps, addr, expd, data);
    var i1 := IntTy(1);
    var (b1, a) := EmitExpr(m, b, vals, addr);
    var (b2, e) := EmitExpr(m, b1, vals, expd);
    var (b3, was) := LoadMem(m, b2, a, e.ty);
    var i := Arith(b3.next, i1, ICmpEQ, e, was);
    var b4 := Emit(b3, i);
    var s := MoveTo(Split(b4, Reg(b3.next, i1)), |b4.blocks|);
    var (b6, d) := EmitExpr(m, s, vals, data);
    var f := Join(StoreMem(m, b6, a, d), |b4.blocks| + 1);
    var c2 := TryTwo(m, b, vals, sc, addr, expd, c, tmps);
    TidyThenLoad(m, b, b2, a, e.ty);
    TidyRefl(b2);
    TidyThenLoad(m, b2, b2, a, e.ty);
    TidyGrow(b2, b3);
    TidyGrow(b, b3);
    EmitGrow(b3, i);
    SplitOpen(b4, Reg(b3.next, i1));
    TidyRefl(s);
    TidyThenExpr(m, s, s, vals, data);
    TidyThenStore(m, s, b6, a, d);
    TidyGuarded(b4, Reg(b3.next, i1), StoreMem(m, b6, a, d));
    TidyGrow(b4, f);
    GrowTrans(b3.blocks, b4.blocks, f.blocks);
    GrowTrans(b2.blocks, b3.blocks, f.blocks);
    if !(Emits(m, c.g, tmps, addr) && Emits(m, c.g, tmps, expd)) {
      DeadGrow(m, b2.blocks, f.blocks, c);
      return;
    }
    OperandUnread(m, c.g, tmps, addr, a, c2.regs, b2.next);
    if !Defined(m, c.g, tmps, addr) {
      JamLoad(m, b2, a, e.ty, c2);
      DeadGrow(m, b3.blocks, f.blocks, c2);
    } else {
      var av := Eval(m, c.g, tmps, addr);
      var c3 := LooseLoad(m, b2, vals, sc, a, e.ty, c2, tmps, av);
      LooseParts(m, b3, vals, sc, c3, tmps);
      OperatedKeeps(m, c.g, tmps, expd, e, b2, c2, b3, c3);
      OperandUnread(m, c.g, tmps, expd, e, c3.regs, b3.next);
      if !Defined(m, c.g, tmps, expd) {
        JamCmp(m, b3, i1, e, was, c3);
        DeadGrow(m, b4.blocks, f.blocks, c3);
      } else {
        var ev := Eval(m, c.g, tmps, expd);
        EvalWidth(c3.regs, e, ev);
        var c4 := SimHereCmp(m, b3, vals, sc, e, was, c3, tmps, ev, MemVal(c.g, av, BitsOf(e.ty)));
        SimKeeps(m, b2, c2, b3, c3, a);
        SimKeeps(m, b3, c3, b4, c4, a);
        JamCasBody(m, b4, vals, sc, Reg(b3.next, i1), a, data, c4, tmps);
        DeadThen(m, b3, c3, b4, c4, f.blocks);
      }
      DeadThen(m, b2, c2, b3, c3, f.blocks);
    }
    DeadThen(m, b, c, b2, c2, f.blocks);
  }

  lemma CasFails(m: Machine, g: Guest, tmps: map<nat, Val>, addr: Expr, expd: Expr, data: Expr)
    requires !CasProceeds(m, g, tmps, addr, expd, data)
    ensures
      var a, e := Eval(m, g, tmps, addr), Eval(m, g, tmps, expd);
      Defined(m, g, tmps, addr) && Defined(m, g, tmps, expd) ==> e.n == MemVal(g, a, e.w).n && !Defined(m, g, tmps, data)
  {
    hide Eval, Defined, MemVal;
  }

  // ---- double-width compare and swap

  lemma CasHighIs(m: Machine, b: Build, vals: Vals, a: Operand, e: Operand, was: Operand, expdHi: Expr)
    ensures
      var i1 := IntTy(1);
      var (b1, eHi) := EmitExpr(m, b, vals, expdHi);
      var b2 := Emit(b1, Arith(b1.next, a.ty, Add, a, Imm(BytesOf(e.ty), a.ty)));
      var (b3, wasHi) := LoadMem(m, b2, Reg(b1.next, a.ty), e.ty);
      var b4 := Emit(b3, Arith(b3.next, i1, ICmpEQ, e, was));
      var b5 := Emit(b4, Arith(b4.next, i1, ICmpEQ, eHi, wasHi));
      EmitCasHigh(m, b, vals, a, e, was, expdHi).b == Emit(b5, Arith(b5.next, i1, ICmpEQ, Reg(b3.next, i1), Reg(b4.next, i1)))
  {
    hide EmitExpr, LoadMem, Emit;
  }

  /** The head of a double-width compare and swap with an expected value missing. */
  lemma JamCasHigh(m: Machine, b: Build, vals: Vals, sc: Scope, a: Operand, e: Operand, was: Operand, expdHi: Expr, c: Config,
                   tmps: map<nat, Val>, av: Val, wv: Val, ok: bool, ev: Val)
    requires Loose(m, b, vals, sc, c, tmps) && WfExpr(expdHi, sc) && a.ty == IntTy(sc.aw) && c.At?
    requires EvalVal(c.regs, a) == Some(av) && EvalVal(c.regs, was) == Some(wv)
    requires if ok then EvalVal(c.regs, e) == Some(ev) else Unread(e, c.regs, b.next)
    requires !ok || !Defined(m, c.g, tmps, expdHi)
    ensures Dead(m, EmitCasHigh(m, b, vals, a, e, was, expdHi).b.blocks, c)
  {
    hide *;
    LooseParts(m, b, vals, sc, c, tmps);
    CasHighIs(m, b, vals, a, e, was, expdHi);
    var i1 := IntTy(1);
    var (b1, eHi) := EmitExpr(m, b, vals, expdHi);
    var k := Imm(BytesOf(e.ty), a.ty);
    var i := Arith(b1.next, a.ty, Add, a, k);
    var b2 := Emit(b1, i);
    var aHi := Reg(b1.next, a.ty);
    var (b3, wasHi) := LoadMem(m, b2, aHi, e.ty);
    var i4 := Arith(b3.next, i1, ICmpEQ, e, was);
    var b4 := Emit(b3, i4);
    var i5 := Arith(b4.next, i1, ICmpEQ, eHi, wasHi);
    var b5 := Emit(b4, i5);
    var i6 := Arith(b5.next, i1, ICmpEQ, Reg(b3.next, i1), Reg(b4.next, i1));
    var f := Emit(b5, i6);
    var c1 := TryExpr(m, b, vals, sc, expdHi, c, tmps);
    EmitGrow(b1, i);
    LoadGrow(m, b2, aHi, e.ty);
    ExtLoadMem(m, b2, aHi, e.ty);
    EmitGrow(b3, i4);
    EmitGrow(b4, i5);
    EmitGrow(b5, i6);
    GrowTrans(b4.blocks, b5.blocks, f.blocks);
    GrowTrans(b3.blocks, b4.blocks, f.blocks);
    GrowTrans(b2.blocks, b3.blocks, f.blocks);
    GrowTrans(b1.blocks, b2.blocks, f.blocks);
    if !Emits(m, c.g, tmps, expdHi) {
      DeadGrow(m, b1.blocks, f.blocks, c);
      return;
    }
    SimKeeps(m, b, c, b1, c1, a);
    ImmVal(c1.regs, BytesOf(e.ty), a.ty);
    EvalWidth(c1.regs, a, av);
    HiArithAny(av, BytesOf(e.ty));
    LooseParts(m, b1, vals, sc, c1, tmps);
    var c2 := SimHereArith(m, b1, vals, sc, a.ty, Add, a, k, c1, tmps);
    LooseLater(m, b1, vals, sc, c1, tmps, b2, c2);
    var c3 := LooseLoad(m, b2, vals, sc, aHi, e.ty, c2, tmps, EvalVal(c2.regs, aHi).value) by { RegTy(b1.next, a.ty); }
    LooseParts(m, b3, vals, sc, c3, tmps);
    SimTrans(m, b1, c1, b2, c2, b3, c3);
    SimTrans(m, b, c, b1, c1, b3, c3);
    OperatedKeeps(m, c.g, tmps, expdHi, eHi, b1, c1, b3, c3);
    OperandUnread(m, c.g, tmps, expdHi, eHi, c3.regs, b3.next);
    SimKeeps(m, b, c, b3, c3, was);
    if ok {
      SimKeeps(m, b, c, b3, c3, e);
      var c4 := SimHereCmp(m, b3, vals, sc, e, was, c3, tmps, ev, wv);
      LooseParts(m, b4, vals, sc, c4, tmps);
      UnreadKeeps(m, b3, c3, b4, c4, eHi);
      UnreadVal(eHi, c4.regs, b4.next);
      JamCmp(m, b4, i1, eHi, wasHi, c4);
      DeadGrow(m, b5.blocks, f.blocks, c4);
      DeadThen(m, b3, c3, b4, c4, f.blocks);
    } else {
      UnreadKeeps(m, b, c, b3, c3, e);
      UnreadVal(e, c3.regs, b3.next);
      JamCmp(m, b3, i1, e, was, c3);
      DeadGrow(m, b4.blocks, f.blocks, c3);
    }
    DeadThen(m, b, c, b3, c3, f.blocks);
  }

  lemma HiArithAny(a: Val, k: nat)
    ensures ArithVal(Add, a.n, k, a.w).Some?
  {
  }

  lemma RegTy(n: nat, ty: LTy)
    ensures Reg(n, ty).ty == ty
  {
  }

  /** The stores of a double-width compare and swap with the new value missing, at once or after the first store. */
  lemma JamTwoStores(m: Machine, s: Build, vals: Vals, sc: Scope, a: Operand, aHi: Operand, data: Expr, c: Config,
                     tmps: map<nat, Val>, av: Val, hv: Val)
    requires Loose(m, s, vals, sc, c, tmps) && WfExpr(data, sc) && a.ty == aHi.ty == IntTy(sc.aw) && c.At?
    requires EvalVal(c.regs, a) == Some(av) && EvalVal(c.regs, aHi) == Some(hv) && !TwiceDefined(m, c.g, tmps, av, data)
    ensures
      var (b1, d) := EmitExpr(m, s, vals, data);
      var (b2, d2) := EmitExpr(m, StoreMem(m, b1, a, d), vals, data);
      Dead(m, StoreMem(m, b2, aHi, d2).blocks, c)
  {
    hide *;
    LooseParts(m, s, vals, sc, c, tmps);
    var (b1, d) := EmitExpr(m, s, vals, data);
    var b1s := StoreMem(m, b1, a, d);
    var (b2, d2) := EmitExpr(m, b1s, vals, data);
    var f := StoreMem(m, b2, aHi, d2);
    TidyRefl(s);
    TidyThenExpr(m, s, s, vals, data);
    TidyThenStore(m, s, b1, a, d);
    TidyGrow(s, b1s);
    TidyExpr(m, b1s, vals, data);
    TidyGrow(b1s, b2);
    StoreGrow(m, b2, aHi, d2);
    if Defined(m, c.g, tmps, data) {
      var e1 := SimHere(m, s, vals, sc, data, c, tmps);
      SimKeeps(m, s, c, b1, e1, a);
      SimKeeps(m, s, c, b1, e1, aHi);
      var e2 := SimHereStore(m, b1, vals, sc, a, d, e1, tmps);
      SimTrans(m, s, c, b1, e1, b1s, e2);
      LooseLater(m, s, vals, sc, c, tmps, b1s, e2);
      SimKeeps(m, b1, e1, b1s, e2, aHi);
      TwiceFails(m, c.g, tmps, av, data);
      JamOneStore(m, b1s, vals, sc, aHi, data, e2, tmps);
      GrowTrans(b1s.blocks, b2.blocks, f.blocks);
      DeadThen(m, s, c, b1s, e2, f.blocks);
    } else {
      JamOneStore(m, s, vals, sc, a, data, c, tmps);
      DeadGrow(m, b1s.blocks, b2.blocks, c);
      DeadGrow(m, b2.blocks, f.blocks, c);
    }
  }

  lemma TwiceFails(m: Machine, g: Guest, tmps: map<nat, Val>, av: Val, data: Expr)
    requires !TwiceDefined(m, g, tmps, av, data) && Defined(m, g, tmps, data)
    ensures !Defined(m, StoreVal(g, av, Eval(m, g, tmps, data)), tmps, data)
  {
  }

  lemma CasDoubleFails(m: Machine, g: Guest, tmps: map<nat, Val>, addr: Expr, expd: Expr, data: Expr, hi: CasHi)
    requires !CasDoubleProceeds(m, g, tmps, addr, expd, data, hi)
    ensures
      var a, e, eHi := Eval(m, g, tmps, addr), Eval(m, g, tmps, expd), Eval(m, g, tmps, hi.expdHi);
      var lo, high := MemVal(g, a, e.w), MemVal(g, HiAddr(a, e.w), e.w);
      Defined(m, g, tmps, addr) && Defined(m, g, tmps, expd) && Defined(m, g, tmps, hi.expdHi) ==>
        (e.n == lo.n) == (eHi.n == high.n) && !TwiceDefined(m, g, tmps, a, data)
  {
    hide Eval, EvalAll, MemVal, HiAddr, StoreVal, Defined, AllDefined, TwiceDefined;
  }

  lemma JamCasStores(m: Machine, b: Build, vals: Vals, sc: Scope, o: Operand, a: Operand, aHi: Operand, data: Expr, c: Config,
                     tmps: map<nat, Val>, av: Val, hv: Val)
    requires Loose(m, b, vals, sc, c, tmps) && WfExpr(data, sc) && a.ty == aHi.ty == IntTy(sc.aw) && c.At?
    requires EvalVal(c.regs, o).Some? && EvalVal(c.regs, o).value.n != 0
    requires EvalVal(c.regs, a) == Some(av) && EvalVal(c.regs, aHi) == Some(hv) && !TwiceDefined(m, c.g, tmps, av, data)
    ensures Dead(m, CasStores(m, b, vals, o, a, aHi, data).blocks, c)
  {
    hide *;
    LooseParts(m, b, vals, sc, c, tmps);
    CasStoresIs(m, b, vals, o, a, aHi, data);
    var s := MoveTo(Split(b, o), |b.blocks|);
    SplitOpen(b, o);
    TidyRefl(s);
    var (b1, d) := EmitExpr(m, s, vals, data);
    TidyThenExpr(m, s, s, vals, data);
    TidyThenStore(m, s, b1, a, d);
    var b1s := StoreMem(m, b1, a, d);
    var (b2, d2) := EmitExpr(m, b1s, vals, data);
    TidyThenExpr(m, s, b1s, vals, data);
    TidyThenStore(m, s, b2, aHi, d2);
    var d0 := LooseBody(m, b, vals, sc, o, c, tmps);
    JamTwoStores(m, s, vals, sc, a, aHi, data, d0, tmps, av, hv);
    JamBody(m, b, o, StoreMem(m, b2, aHi, d2), c, d0);
  }

  lemma JamCasDouble(m: Machine, b: Build, vals: Vals, sc: Scope, oldLo: nat, addr: Expr, expd: Expr, data: Expr, hi: CasHi,
                     c: Config, tmps: map<nat, Val>)
    requires Loose(m, b, vals, sc, c, tmps) && WfAddr(addr, sc) && WfExpr(expd, sc) && WfExpr(data, sc)
    requires WfExpr(hi.expdHi, sc) && TyOf(hi.expdHi, sc.tt) == TyOf(expd, sc.tt)
    requires !CasDoubleProceeds(m, c.g, tmps, addr, expd, data, hi)
    ensures Dead(m, EmitCasDouble(m, b, vals, oldLo, addr, expd, data, hi).b.blocks, c)
  {
    hide *;
    WfAddrParts(addr, sc);
    LooseParts(m, b, vals, sc, c, tmps);
    CasDoubleIs(m, b, vals, oldLo, addr, expd, data, hi);
    CasDoubleFails(m, c.g, tmps, addr, expd, data, hi);
    var (b1, a) := EmitExpr(m, b, vals, addr);
    var (b2, e) := EmitExpr(m, b1, vals, expd);
    var (b3, was) := LoadMem(m, b2, a, e.ty);
    var h := EmitCasHigh(m, b3, vals, a, e, was, hi.expdHi);
    var f := CasStores(m, h.b, vals, h.cmp, a, h.aHi, data);
    var c2 := TryTwo(m, b, vals, sc, addr, expd, c, tmps);
    TidyRefl(b2);
    TidyThenLoad(m, b2, b2, a, e.ty);
    TidyGrow(b2, b3);
    TidyRefl(b3);
    TidyCasHigh(m, b3, b3, vals, a, e, was, hi.expdHi);
    TidyGrow(b3, h.b);
    StoresGrow(m, h.b, vals, h.cmp, a, h.aHi, data);
    GrowTrans(b3.blocks, h.b.blocks, f.blocks);
    GrowTrans(b2.blocks, b3.blocks, f.blocks);
    if !(Emits(m, c.g, tmps, addr) && Emits(m, c.g, tmps, expd)) {
      DeadGrow(m, b2.blocks, f.blocks, c);
      return;
    }
    OperandUnread(m, c.g, tmps, addr, a, c2.regs, b2.next);
    if !Defined(m, c.g, tmps, addr) {
      JamLoad(m, b2, a, e.ty, c2);
      DeadGrow(m, b3.blocks, f.blocks, c2);
    } else {
      var av, ev := Eval(m, c.g, tmps, addr), Eval(m, c.g, tmps, expd);
      var wv := MemVal(c.g, av, BitsOf(e.ty));
      var c3 := LooseLoad(m, b2, vals, sc, a, e.ty, c2, tmps, av);
      LooseParts(m, b3, vals, sc, c3, tmps);
      SimKeeps(m, b2, c2, b3, c3, a);
      OperatedKeeps(m, c.g, tmps, expd, e, b2, c2, b3, c3);
      OperandUnread(m, c.g, tmps, expd, e, c3.regs, b3.next);
      if Defined(m, c.g, tmps, expd) && Defined(m, c.g, tmps, hi.expdHi) {
        EvalWidth(c3.regs, e, ev);
        var c4 := SimCasHigh(m, b3, vals, sc, a, e, was, hi.expdHi, c3, tmps, av, ev, wv);
        LooseLater(m, b3, vals, sc, c3, tmps, h.b, c4);
        SimKeeps(m, b3, c3, h.b, c4, a);
        JamCasStores(m, h.b, vals, sc, h.cmp, a, h.aHi, data, c4, tmps, av, HiAddr(av, ev.w));
        DeadThen(m, b3, c3, h.b, c4, f.blocks);
      } else {
        JamCasHigh(m, b3, vals, sc, a, e, was, hi.expdHi, c3, tmps, av, wv, Defined(m, c.g, tmps, expd), ev);
        DeadGrow(m, h.b.blocks, f.blocks, c3);
      }
      DeadThen(m, b2, c2, b3, c3, f.blocks);
    }
    DeadThen(m, b, c, b2, c2, f.blocks);
  }

  lemma StoresGrow(m: Machine, b: Build, vals: Vals, o: Operand, a: Operand, aHi: Operand, data: Expr)
    requires Open(b)
    ensures Grow(b.blocks, CasStores(m, b, vals, o, a, aHi, data).blocks)
  {
    hide *;
    CasStoresIs(m, b, vals, o, a, aHi, data);
    var s := MoveTo(Split(b, o), |b.blocks|);
    SplitOpen(b, o);
    TidyRefl(s);
    var (b1, d) := EmitExpr(m, s, vals, data);
    TidyThenExpr(m, s, s, vals, data);
    TidyThenStore(m, s, b1, a, d);
    var b1s := StoreMem(m, b1, a, d);
    var (b2, d2) := EmitExpr(m, b1s, vals, data);
    TidyThenExpr(m, s, b1s, vals, data);
    TidyThenStore(m, s, b2, aHi, d2);
    TidyGuarded(b, o, StoreMem(m, b2, aHi, d2));
    TidyGrow(b, Join(StoreMem(m, b2, aHi, d2), |b.blocks| + 1));
  }

  // ---- helper calls

  /** A call with an argument missing. */
  lemma JamCall(m: Machine, b: Build, vals: Vals, sc: Scope, f: nat, retTy: LTy, args: seq<Expr>, out: Option<DirtyTmp>,
                c: Config, tmps: map<nat, Val>)
    requires Loose(m, b, vals, sc, c, tmps) && WfExprs(args, sc) && c.At? && !AllDefined(m, c.g, tmps, args)
    ensures Dead(m, EmitCall(m, b, vals, f, retTy, args, out).b.blocks, c)
  {
    hide *;
    LooseParts(m, b, vals, sc, c, tmps);
    var (b1, os) := EmitExprs(m, b, vals, args);
    TidyExprs(m, b, vals, args);
    TidyGrow(b, b1);
    CallGrow(m, b, vals, f, retTy, args, out);
    var i := CallDirty(b1.next, retTy, f, os);
    EmitGrow(b1, i);
    var r := EmitCall(m, b, vals, f, retTy, args, out).b;
    var c1 := BadExprs(m, b, vals, sc, args, c, tmps);
    GrowTrans(b1.blocks, Emit(b1, i).blocks, r.blocks);
    if Dead(m, b1.blocks, c) {
      DeadGrow(m, b1.blocks, r.blocks, c);
    } else {
      SimEnds(m, b, c, b1, c1);
      JamDirtyInstr(m, b1, retTy, f, os, c1);
      DeadGrow(m, Emit(b1, i).blocks, r.blocks, c1);
      DeadThen(m, b, c, b1, c1, r.blocks);
    }
  }

  lemma JamDirtyInstr(m: Machine, b: Build, ty: LTy, f: nat, os: seq<Operand>, c: Config)
    requires AtEnd(b, c) && EvalVals(c.regs, os).None?
    ensures Dead(m, Emit(b, CallDirty(b.next, ty, f, os)).blocks, c)
  {
    hide Dead, Grow, EvalVals, Emit, MemoOk, Open, Below;
    JamEmit(m, b, CallDirty(b.next, ty, f, os), c);
  }

  lemma CallGrow(m: Machine, b: Build, vals: Vals, f: nat, retTy: LTy, args: seq<Expr>, out: Option<DirtyTmp>)
    requires Open(EmitExprs(m, b, vals, args).0)
    ensures
      var (b1, os) := EmitExprs(m, b, vals, args);
      Grow(Emit(b1, CallDirty(b1.next, retTy, f, os)).blocks, EmitCall(m, b, vals, f, retTy, args, out).b.blocks)
  {
    hide EmitExprs, Emit, Open, Grow, VexTy2LLVM, BitsOf;
    var (b1, os) := EmitExprs(m, b, vals, args);
    var i := CallDirty(b1.next, retTy, f, os);
    EmitGrow(b1, i);
    var b2 := Emit(b1, i);
    GrowSelf(b2.blocks);
    if out.Some? {
      var to, ret := VexTy2LLVM(out.value.ty), Reg(b1.next, retTy);
      EmitGrow(b2, Cast(b2.next, to, ZExt, ret));
      EmitGrow(b2, Cast(b2.next, to, Trunc, ret));
    }
  }

  lemma GrowSelf(bs: seq<Block>)
    ensures Grow(bs, bs)
  {
  }

  lemma DirtyIs(m: Machine, b: Build, vals: Vals, guard: Expr, f: nat, retTy: LTy, args: seq<Expr>, out: Option<DirtyTmp>)
    ensures
      var (b1, g) := EmitExpr(m, b, vals, guard);
      var rc := EmitCall(m, MoveTo(Split(b1, g), |b1.blocks|), vals, f, retTy, args, out);
      |b1.blocks| + 1 < |rc.b.blocks| &&
      EmitDirty(m, b, vals, guard, f, retTy, args, out) ==
        if IsOne(g) then EmitCall(m, b1, vals, f, retTy, args, out) else Emitted(Join(rc.b, |b1.blocks| + 1), rc.vals)
  {
    hide EmitExpr, EmitCall, Split, Join, MoveTo, IsOne;
  }

  lemma JamDirty(m: Machine, b: Build, vals: Vals, sc: Scope, guard: Expr, f: nat, retTy: LTy, args: seq<Expr>,
                 out: Option<DirtyTmp>, c: Config, tmps: map<nat, Val>)
    requires Loose(m, b, vals, sc, c, tmps) && WfExpr(guard, sc) && WfExprs(args, sc)
    requires Defined(m, c.g, tmps, guard) ==> Eval(m, c.g, tmps, guard).n != 0 && !AllDefined(m, c.g, tmps, args)
    ensures Dead(m, EmitDirty(m, b, vals, guard, f, retTy, args, out).b.blocks, c)
  {
    hide *;
    LooseParts(m, b, vals, sc, c, tmps);
    DirtyIs(m, b, vals, guard, f, retTy, args, out);
    var (b1, g) := EmitExpr(m, b, vals, guard);
    var c1 := TryExpr(m, b, vals, sc, guard, c, tmps);
    var s := MoveTo(Split(b1, g), |b1.blocks|);
    SplitOpen(b1, g);
    var rc := EmitCall(m, s, vals, f, retTy, args, out);
    TidyCall(m, s, vals, f, retTy, args, out);
    TidyGuarded(b1, g, rc.b);
    TidyCall(m, b1, vals, f, retTy, args, out);
    var r := EmitDirty(m, b, vals, guard, f, retTy, args, out).b;
    TidyGrow(b1, r);
    if !Emits(m, c.g, tmps, guard) {
      DeadGrow(m, b1.blocks, r.blocks, c);
      return;
    }
    OperandUnread(m, c.g, tmps, guard, g, c1.regs, b1.next);
    if !Defined(m, c.g, tmps, guard) {
      JamGuard(m, b1, g, rc.b, c1);
    } else if IsOne(g) {
      JamCall(m, b1, vals, sc, f, retTy, args, out, c1, tmps);
    } else {
      var d0 := LooseBody(m, b1, vals, sc, g, c1, tmps);
      JamCall(m, s, vals, sc, f, retTy, args, out, d0, tmps);
      JamBody(m, b1, g, rc.b, c1, d0);
    }
    DeadThen(m, b, c, b1, c1, r.blocks);
  }

  // ---- guarded exits

  lemma ExitIs(m: Machine, b: Build, vals: Vals, guard: Expr, jk: JumpKind, dst: nat)
    ensures
      var n := |b.blocks|;
      var (b1, g) := EmitExpr(m, NewBlock(NewBlock(b)), vals, guard);
      EmitExit(m, b, vals, guard, jk, dst) == EmitLeave(m, MoveTo(Terminate(b1, CondBr(g, n, n + 1)), n), jk, dst, n + 1)
  {
    hide EmitExpr, NewBlock, MoveTo, Terminate, EmitLeave;
  }

  lemma JamExit(m: Machine, b: Build, vals: Vals, sc: Scope, guard: Expr, jk: JumpKind, dst: nat, c: Config, tmps: map<nat, Val>)
    requires Loose(m, b, vals, sc, c, tmps) && WfExpr(guard, sc) && !Defined(m, c.g, tmps, guard)
    ensures Dead(m, EmitExit(m, b, vals, guard, jk, dst).blocks, c)
  {
    hide *;
    LooseParts(m, b, vals, sc, c, tmps);
    var n := |b.blocks|;
    var b0 := NewBlock(NewBlock(b));
    ExitFacts(m, b, vals, guard);
    ExitIs(m, b, vals, guard, jk, dst);
    SimNewTwo(m, b, c);
    LooseLater(m, b, vals, sc, c, tmps, b0, c);
    var (b1, g) := EmitExpr(m, b0, vals, guard);
    var c1 := TryExpr(m, b0, vals, sc, guard, c, tmps);
    var s := MoveTo(Terminate(b1, CondBr(g, n, n + 1)), n);
    MadeOpen(b, s, {n, n + 1});
    LeaveGrow(m, s, jk, dst, n + 1);
    TermGrow(b1, CondBr(g, n, n + 1));
    var f := EmitExit(m, b, vals, guard, jk, dst);
    GrowTrans(b1.blocks, s.blocks, f.blocks);
    if Emits(m, c.g, tmps, guard) {
      OperandUnread(m, c.g, tmps, guard, g, c1.regs, b1.next);
      JamCond(m, b1, g, n, n + 1, c1);
      DeadGrow(m, s.blocks, f.blocks, c1);
      DeadThen(m, b0, c, b1, c1, f.blocks);
    } else {
      DeadGrow(m, b1.blocks, f.blocks, c);
    }
  }

  lemma JamCond(m: Machine, b: Build, o: Operand, yes: nat, no: nat, c: Config)
    requires AtEnd(b, c) && EvalVal(c.regs, o).None? && yes < |b.blocks|
    ensures Dead(m, MoveTo(Terminate(b, CondBr(o, yes, no)), yes).blocks, c)
  {
    hide Dead, Grow, Terminate;
    JamTerm(m, b, CondBr(o, yes, no), c);
  }

  // ---- guarded loads

  lemma GuardedLoadIs(m: Machine, b: Build, vals: Vals, cvt: LoadGOp, dst: nat, addr: Expr, alt: Expr, guard: Expr)
    ensures
      var (b1, g) := EmitExpr(m, b, vals, guard);
      var (b2, a) := EmitExpr(m, b1, vals, addr);
      var (b3, av) := EmitExpr(m, b2, vals, alt);
      var (b4, v) := EmitLoadG(m, SplitThree(b3, g), cvt, a);
      |b3.blocks| + 2 < |b4.blocks| &&
      EmitGuardedLoad(m, b, vals, cvt, dst, addr, alt, guard).b == JoinLoad(b4, v, av, |b3.blocks|).0
  {
    hide EmitExpr, SplitThree, EmitLoadG, JoinLoad;
  }

  lemma JamSplitThree(m: Machine, b: Build, o: Operand, c: Config)
    requires AtEnd(b, c) && EvalVal(c.regs, o).None?
    ensures Dead(m, SplitThree(b, o).blocks, c)
  {
    hide Dead, NewBlock, Terminate, AtEnd, Sim, EvalVal;
    SimMuxOpen(m, b, c);
    SimEnds(m, b, c, MuxOpen(b), c);
    JamTerm(m, MuxOpen(b), CondBr(o, |b.blocks|, |b.blocks| + 1), c);
  }

  lemma JamLoadG(m: Machine, b: Build, cvt: LoadGOp, a: Operand, c: Config)
    requires AtEnd(b, c) && Open(b) && EvalVal(c.regs, a).None? && AddrTy(m, a.ty)
    ensures Dead(m, EmitLoadG(m, b, cvt, a).0.blocks, c)
  {
    hide Dead, Grow, Emit, LoadMem, AtEnd, Open, Ext;
    JamLoad(m, b, a, LoadGTy(cvt), c);
    ExtLoadMem(m, b, a, LoadGTy(cvt));
    var (b1, v) := LoadMem(m, b, a, LoadGTy(cvt));
    var z, s := Cast(b1.next, IntTy(32), ZExt, v), Cast(b1.next, IntTy(32), SExt, v);
    EmitGrow(b1, z);
    EmitGrow(b1, s);
    DeadGrow(m, b1.blocks, Emit(b1, z).blocks, c);
    DeadGrow(m, b1.blocks, Emit(b1, s).blocks, c);
  }

  /** The block for the failing guard jumps to a join whose value is missing. */
  lemma JamJoinAlt(m: Machine, b: Build, v: Operand, alt: Operand, yes: nat, dom: set<nat>, c: Config)
    requires Open(b) && yes + 2 < |b.blocks| && b.cur == yes && 0 < yes
    requires b.blocks[yes + 1] == b.blocks[yes + 2] == Block([], NoTerm, dom)
    requires c.At? && c.b == yes + 1 && c.pc == 0 && EvalVal(c.regs, alt).None?
    ensures Dead(m, JoinLoad(b, v, alt, yes).0.blocks, c)
  {
    hide Dead, Reach;
    var b' := JoinLoad(b, v, alt, yes).0;
    var d := At(yes + 2, 0, yes + 1, c.regs, c.g);
    ReachStep(m, b'.blocks, c, d);
    assert b'.blocks[yes + 2].instrs == [Phi(b.next, v.ty, v, yes, alt, yes + 1)];
    DeadHere(m, b'.blocks, d);
    DeadVia(m, b'.blocks, c, d);
  }

  lemma JoinLoadGrow(b: Build, v: Operand, alt: Operand, yes: nat, dom: set<nat>)
    requires Open(b) && yes + 2 < |b.blocks| && b.cur == yes
    requires b.blocks[yes + 1] == b.blocks[yes + 2] == Block([], NoTerm, dom)
    ensures Grow(b.blocks, JoinLoad(b, v, alt, yes).0.blocks)
  {
  }

  /** The way from the branch of a guarded load to its join, with what it reads missing. */
  lemma JamLoadTail(m: Machine, b: Build, vals: Vals, sc: Scope, cvt: LoadGOp, g: Operand, a: Operand, alt: Operand, c: Config,
                    tmps: map<nat, Val>)
    requires Loose(m, b, vals, sc, c, tmps) && a.ty == IntTy(sc.aw) && c.At?
    requires EvalVal(c.regs, g).Some? ==> EvalVal(c.regs, if EvalVal(c.regs, g).value.n == 0 then alt else a).None?
    ensures
      var (b4, lv) := EmitLoadG(m, SplitThree(b, g), cvt, a);
      && |b.blocks| + 2 < |b4.blocks| && Grow(b.blocks, JoinLoad(b4, lv, alt, |b.blocks|).0.blocks)
      && Dead(m, JoinLoad(b4, lv, alt, |b.blocks|).0.blocks, c)
  {
    hide Sim, AtEnd, Reach, Grow, EmitLoadG, SplitThree, JoinLoad, Tidy, Open, Made, Dead, Loose,
         AddrTy, Below, MemoOk, Keeps, EvalVal, Avail, Temps, Here;
    LooseParts(m, b, vals, sc, c, tmps);
    var n := |b.blocks|;
    var s := SplitThree(b, g);
    SplitThreeBlocks(b, g);
    MadeOpen(b, s, {n, n + 1, n + 2});
    SplitThreeGrow(b, g);
    var (b4, lv) := EmitLoadG(m, s, cvt, a);
    TidyLoadG(m, s, cvt, a);
    TidyCur(s, b4);
    TidyGrow(s, b4);
    var f := JoinLoad(b4, lv, alt, n).0;
    JoinLoadGrow(b4, lv, alt, n, Avail(b));
    GrowTrans(s.blocks, b4.blocks, f.blocks);
    GrowTrans(b.blocks, s.blocks, f.blocks);
    if EvalVal(c.regs, g).None? {
      JamSplitThree(m, b, g, c);
      DeadGrow(m, s.blocks, f.blocks, c);
    } else {
      var d := SimSplitThree(m, b, g, c);
      ReachGrow(m, s.blocks, f.blocks, c, d);
      if EvalVal(c.regs, g).value.n == 0 {
        JamJoinAlt(m, b4, lv, alt, n, Avail(b), d);
      } else {
        JamLoadG(m, s, cvt, a, d);
        DeadGrow(m, b4.blocks, f.blocks, d);
      }
      DeadVia(m, f.blocks, c, d);
    }
  }

  lemma SplitThreeGrow(b: Build, o: Operand)
    requires Open(b)
    ensures Grow(b.blocks, SplitThree(b, o).blocks)
  {
  }

  lemma JamGuardedLoad(m: Machine, b: Build, vals: Vals, sc: Scope, cvt: LoadGOp, dst: nat, addr: Expr, alt: Expr, guard: Expr,
                       c: Config, tmps: map<nat, Val>)
    requires Loose(m, b, vals, sc, c, tmps) && WfExpr(guard, sc) && WfAddr(addr, sc) && WfExpr(alt, sc)
    requires !Proceeds(m, LoadG(cvt, dst, addr, alt, guard), c.g, tmps)
    ensures Dead(m, EmitGuardedLoad(m, b, vals, cvt, dst, addr, alt, guard).b.blocks, c)
  {
    hide *;
    WfAddrParts(addr, sc);
    LooseParts(m, b, vals, sc, c, tmps);
    GuardedLoadIs(m, b, vals, cvt, dst, addr, alt, guard);
    LoadFails(m, c.g, tmps, cvt, dst, addr, alt, guard);
    var (b1, g) := EmitExpr(m, b, vals, guard);
    var (b2, a) := EmitExpr(m, b1, vals, addr);
    var (b3, av) := EmitExpr(m, b2, vals, alt);
    var f := EmitGuardedLoad(m, b, vals, cvt, dst, addr, alt, guard).b;
    var c2 := TryTwo(m, b, vals, sc, guard, addr, c, tmps);
    TidyExpr(m, b2, vals, alt);
    TidyGrow(b2, b3);
    TailGrow(m, b3, cvt, g, a, av);
    GrowTrans(b2.blocks, b3.blocks, f.blocks);
    if !(Emits(m, c.g, tmps, guard) && Emits(m, c.g, tmps, addr)) {
      DeadGrow(m, b2.blocks, f.blocks, c);
      return;
    }
    var c3 := TryExpr(m, b2, vals, sc, alt, c2, tmps);
    if !Emits(m, c.g, tmps, alt) {
      DeadGrow(m, b3.blocks, f.blocks, c2);
    } else {
      OperatedKeeps(m, c.g, tmps, guard, g, b2, c2, b3, c3);
      OperatedKeeps(m, c.g, tmps, addr, a, b2, c2, b3, c3);
      OperandUnread(m, c.g, tmps, guard, g, c3.regs, b3.next);
      OperandUnread(m, c.g, tmps, addr, a, c3.regs, b3.next);
      OperandUnread(m, c.g, tmps, alt, av, c3.regs, b3.next);
      JamLoadTail(m, b3, vals, sc, cvt, g, a, av, c3, tmps);
      DeadThen(m, b2, c2, b3, c3, f.blocks);
    }
    DeadThen(m, b, c, b2, c2, f.blocks);
  }

  lemma TailGrow(m: Machine, b: Build, cvt: LoadGOp, g: Operand, a: Operand, alt: Operand)
    requires Open(b)
    ensures
      var (b4, lv) := EmitLoadG(m, SplitThree(b, g), cvt, a);
      |b.blocks| + 2 < |b4.blocks| && Grow(b.blocks, JoinLoad(b4, lv, alt, |b.blocks|).0.blocks)
  {
    hide AtEnd, Grow, EmitLoadG, SplitThree, JoinLoad, Tidy, Open, Made, Avail;
    var n := |b.blocks|;
    var s := SplitThree(b, g);
    SplitThreeBlocks(b, g);
    MadeOpen(b, s, {n, n + 1, n + 2});
    SplitThreeGrow(b, g);
    var (b4, lv) := EmitLoadG(m, s, cvt, a);
    TidyLoadG(m, s, cvt, a);
    TidyCur(s, b4);
    TidyGrow(s, b4);
    JoinLoadGrow(b4, lv, alt, n, Avail(b));
    GrowTrans(s.blocks, b4.blocks, JoinLoad(b4, lv, alt, n).0.blocks);
    GrowTrans(b.blocks, s.blocks, JoinLoad(b4, lv, alt, n).0.blocks);
  }

  lemma LoadFails(m: Machine, g: Guest, tmps: map<nat, Val>, cvt: LoadGOp, dst: nat, addr: Expr, alt: Expr, guard: Expr)
    requires !Proceeds(m, LoadG(cvt, dst, addr, alt, guard), g, tmps)
    ensures Defined(m, g, tmps, guard) && Emits(m, g, tmps, addr) && Emits(m, g, tmps, alt) ==>
            !Defined(m, g, tmps, if Eval(m, g, tmps, guard).n == 0 then alt else addr)
  {
    hide Eval, Defined;
  }
}
