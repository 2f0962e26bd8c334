/** The main theorem of the lowering: the emitted function computes what the superblock means. */
module LowerCorrect {
  import opened Options
  import opened ExitKinds
  import opened VexIR
  import opened VexWf
  import opened VexCoded
  import opened VexDefined
  import opened LlvmIR
  import opened Builder
  import opened Lowering
  import opened Extension
  import opened StmtShape
  import opened Simulation
  import opened SimExpr
  import opened SimStmt
  import opened SimDirty

  /** Started on guest g, the function f returns next and leaves the guest g'. */
  ghost predicate Returns(m: Machine, f: seq<Block>, g: Guest, next: nat, g': Guest) {
    Reach(m, f, Start(g), Done(next, g'))
  }

  function Start(g: Guest): Config {
    At(0, 0, 0, map[], g)
  }

  /** Statements that neither leave the block nor assign a temporary. */
  lemma SimPlain(m: Machine, s: Emitted, st: Stmt, sc: Scope, c: Config, tmps: map<nat, Val>)
    returns (c': Config, r: Emitted)
    requires Here(m, s.b, s.vals, sc, c, tmps) && WfStmt(st, sc)
    requires st.NoOp? || st.IMark? || st.AbiHint? || st.MBE? || st.Put? || st.PutI? || st.Store? || st.StoreG?
    requires c.At? && Proceeds(m, st, c.g, tmps)
    ensures c'.At? && Sim(m, s.b, c, r.b, c') && r.vals == s.vals && Exec(m, st, c.g, tmps) == Go(c'.g, tmps)
    ensures r == EmitStmt(m, s, st)
  {
    hide Defined, AllDefined, Here, Sim, AtEnd, Reach, Grow, EmitExpr, WriteCtx, WriteCtxIx, StoreMem, EmitStoreG, Emit, Eval, WfExpr, WfAddr,
         WfArr, Aligned, EvalVal, PutVal, StoreVal, SlotOff;
    var b, vals := s.b, s.vals;
    HereParts(m, b, vals, sc, c, tmps);
    r := EmitStmt(m, s, st);
    match st
    case NoOp => c' := c; SimRefl(m, b, c);
    case IMark(_, _) => c' := c; SimRefl(m, b, c);
    case AbiHint => c' := c; SimRefl(m, b, c);
    case MBE =>
      c' := SimEmit(m, b, Fence(b.next), c);
    case Put(off, data) =>
      var (b1, v) := EmitExpr(m, b, vals, data);
      var c1 := SimHere(m, b, vals, sc, data, c, tmps);
      HereParts(m, b1, vals, sc, c1, tmps);
      c' := SimWriteCtx(m, b1, off, v, c1);
      SimTrans(m, b, c, b1, c1, r.b, c');
      SimAt(m, b, c, r.b, c');
    case PutI(arr, ix, bias, data) =>
      var (b1, v) := EmitExpr(m, b, vals, data);
      var c1 := SimHere(m, b, vals, sc, data, c, tmps);
      EvalWidth(c1.regs, v, Eval(m, c.g, tmps, data));
      var (b2, i) := EmitExpr(m, b1, vals, ix);
      var c2 := SimHere(m, b1, vals, sc, ix, c1, tmps);
      HereParts(m, b2, vals, sc, c2, tmps);
      SimKeeps(m, b1, c1, b2, c2, v);
      c' := SimWriteCtxIx(m, b2, arr, bias, i, v, c2);
      SimTrans(m, b, c, b1, c1, b2, c2);
      SimTrans(m, b, c, b2, c2, r.b, c');
      SimAt(m, b, c, r.b, c');
    case Store(addr, data) =>
      WfAddrParts(addr, sc);
      var (b1, d) := EmitExpr(m, b, vals, data);
      var c1 := SimHere(m, b, vals, sc, data, c, tmps);
      var (b2, a) := EmitExpr(m, b1, vals, addr);
      var c2 := SimHere(m, b1, vals, sc, addr, c1, tmps);
      SimKeeps(m, b1, c1, b2, c2, d);
      c' := SimHereStore(m, b2, vals, sc, a, d, c2, tmps);
      SimTrans(m, b, c, b1, c1, b2, c2);
      SimTrans(m, b, c, b2, c2, r.b, c');
    case StoreG(addr, data, guard) =>
      c' := SimStoreG(m, b, vals, sc, addr, data, guard, c, tmps);
      SimAt(m, b, c, r.b, c');
  }

  lemma SimAt(m: Machine, b: Build, c: Config, b': Build, c': Config)
    requires Sim(m, b, c, b', c')
    ensures c.At? && c'.At?
  {
  }

  /** Statements that assign one temporary, or two. */
  lemma SimAssign(m: Machine, s: Emitted, st: Stmt, sc: Scope, c: Config, tmps: map<nat, Val>)
    returns (c': Config, r: Emitted, tmps': map<nat, Val>)
    requires Here(m, s.b, s.vals, sc, c, tmps) && Ones(s.vals, sc) && WfStmt(st, sc)
    requires st.WrTmp? || st.LoadG? || st.CAS? || st.Dirty?
    requires c.At? && Proceeds(m, st, c.g, tmps)
    ensures c'.At? && c.At? && Sim(m, s.b, c, r.b, c') && ExecCoded(m, st, c.g, tmps) == Go(c'.g, tmps')
    ensures Temps(r.vals, After(st, sc).tt, c'.regs, tmps')
    ensures r == EmitStmt(m, s, st)
  {
    hide Defined, AllDefined, Here, Sim, AtEnd, Reach, Grow, EmitExpr, EmitGuardedLoad, EmitCasSingle, EmitCasDouble, EmitDirty, Eval, EvalAll,
         WfExpr, WfExprs, WfAddr, EvalVal, Temps, Keeps, CasDoubleCoded, Ones, LiteralOne, DirtyTy, Open, AddrTy;
    var b, vals := s.b, s.vals;
    HereParts(m, b, vals, sc, c, tmps);
    r := EmitStmt(m, s, st);
    match st
    case WrTmp(t, data) =>
      c' := SimHere(m, b, vals, sc, data, c, tmps);
      var (b1, v) := EmitExpr(m, b, vals, data);
      SimEnds(m, b, c, b1, c');
      tmps' := tmps[t := Eval(m, c.g, tmps, data)];
      TempsSet(vals, sc.tt, c.regs, c'.regs, tmps, t, v, Eval(m, c.g, tmps, data));
    case LoadG(cvt, dst, addr, alt, guard) =>
      var rr, o, v;
      c', rr, o, v := SimGuardedLoad(m, b, vals, sc, cvt, dst, addr, alt, guard, c, tmps);
      SimEnds(m, b, c, rr.b, c');
      tmps' := tmps[dst := v];
      TempsSet(vals, sc.tt, c.regs, c'.regs, tmps, dst, o, v);
    case CAS(oldLo, addr, expdLo, dataLo, hi) =>
      if hi.None? {
        var o, v;
        c', o, v := SimCasSingle(m, b, vals, sc, oldLo, addr, expdLo, dataLo, c, tmps);
        SimEnds(m, b, c, r.b, c');
        tmps' := tmps[oldLo := v];
        TempsSet(vals, sc.tt, c.regs, c'.regs, tmps, oldLo, o, v);
      } else {
        var rr, o, v, o2, v2;
        c', rr, o, v, o2, v2 := SimCasDouble(m, b, vals, sc, oldLo, addr, expdLo, dataLo, hi.value, c, tmps);
        SimEnds(m, b, c, rr.b, c');
        tmps' := tmps[oldLo := v][hi.value.oldHi := v2];
        TempsSet(vals, sc.tt, c.regs, c'.regs, tmps, oldLo, o, v);
        KeepsRefl(c'.regs);
        TempsSet(vals[oldLo := o], sc.tt[oldLo := o.ty], c'.regs, c'.regs, tmps[oldLo := v], hi.value.oldHi, o2, v2);
      }
    case Dirty(guard, f, retTy, args, out) =>
      var rr;
      c', rr, tmps' := SimDirtyCall(m, b, vals, sc, guard, f, retTy, args, out, c, tmps);
  }

  /** One statement, whatever it is. */
  lemma SimulateStmt(m: Machine, s: Emitted, st: Stmt, sc: Scope, c: Config, tmps: map<nat, Val>)
    returns (c': Config, r: Emitted)
    requires Here(m, s.b, s.vals, sc, c, tmps) && Ones(s.vals, sc) && WfStmt(st, sc) && m.exitOff < TWO31 && c.At?
    requires Proceeds(m, st, c.g, tmps)
    ensures
      match ExecCoded(m, st, c.g, tmps)
      case Go(g', tmps') => c'.At? && c'.g == g' && Here(m, r.b, r.vals, After(st, sc), c', tmps') && Sim(m, s.b, c, r.b, c')
      case Left(next, g') => c' == Done(next, g') && Reach(m, r.b.blocks, c, c')
    ensures r == EmitStmt(m, s, st)
  {
    hide Here, Sim, AtEnd, Reach, Grow, WfStmt, EmitStmt, Temps, Ones, After, CasDoubleCoded, AddrTy;
    HereParts(m, s.b, s.vals, sc, c, tmps);
    match st {
      case WrTmp(_, _) => var tmps'; c', r, tmps' := SimAssign(m, s, st, sc, c, tmps); Again(m, s.b, c, r, sc, st, c', tmps');
      case LoadG(_, _, _, _, _) => var tmps'; c', r, tmps' := SimAssign(m, s, st, sc, c, tmps); Again(m, s.b, c, r, sc, st, c', tmps');
      case CAS(_, _, _, _, _) => var tmps'; c', r, tmps' := SimAssign(m, s, st, sc, c, tmps); Again(m, s.b, c, r, sc, st, c', tmps');
      case Dirty(_, _, _, _, _) => var tmps'; c', r, tmps' := SimAssign(m, s, st, sc, c, tmps); Again(m, s.b, c, r, sc, st, c', tmps');
      case Exit(guard, jk, dst) => c', r := SimulateExit(m, s, st, sc, c, tmps);
      case _ =>
        c', r := SimPlain(m, s, st, sc, c, tmps);
        HereLater(m, s.b, s.vals, sc, c, tmps, r.b, c');
        AfterPlain(m, st, sc, r, c', tmps);
    }
  }

  lemma AfterPlain(m: Machine, st: Stmt, sc: Scope, r: Emitted, c': Config, tmps: map<nat, Val>)
    requires st.NoOp? || st.IMark? || st.AbiHint? || st.MBE? || st.Put? || st.PutI? || st.Store? || st.StoreG? || st.Exit?
    ensures After(st, sc) == sc
  {
  }

  /** After an assignment the run again stands where emission goes on. */
  lemma Again(m: Machine, b: Build, c: Config, r: Emitted, sc: Scope, st: Stmt, c': Config, tmps': map<nat, Val>)
    requires Sim(m, b, c, r.b, c') && Temps(r.vals, After(st, sc).tt, c'.regs, tmps') && AddrTy(m, IntTy(sc.aw))
    ensures Here(m, r.b, r.vals, After(st, sc), c', tmps')
  {
  }

  lemma SimulateExit(m: Machine, s: Emitted, st: Stmt, sc: Scope, c: Config, tmps: map<nat, Val>)
    returns (c': Config, r: Emitted)
    requires st.Exit? && Here(m, s.b, s.vals, sc, c, tmps) && WfStmt(st, sc) && m.exitOff < TWO31 && c.At?
    requires Proceeds(m, st, c.g, tmps)
    ensures
      match Exec(m, st, c.g, tmps)
      case Go(g', tmps') => c'.At? && c'.g == g' && Here(m, r.b, r.vals, After(st, sc), c', tmps') && Sim(m, s.b, c, r.b, c')
      case Left(next, g') => c' == Done(next, g') && Reach(m, r.b.blocks, c, c')
    ensures r == EmitStmt(m, s, st)
  {
    hide Defined, AllDefined, Here, Sim, AtEnd, Reach, Grow, Temps, EmitExit, Eval, WfExpr, ExitGuest, Low64, StmtExitType;
    var rb;
    c', rb := SimExit(m, s.b, s.vals, sc, st.guard, st.jk, st.dst, c, tmps);
    r := Emitted(rb, s.vals);
    if Eval(m, c.g, tmps, st.guard).n == 0 {
      HereLater(m, s.b, s.vals, sc, c, tmps, rb, c');
    }
  }

  /** Which temporaries are literal ones stays known. */
  lemma OnesStmt(m: Machine, s: Emitted, st: Stmt, sc: Scope)
    requires Ones(s.vals, sc) && WfStmt(st, sc)
    ensures Ones(EmitStmt(m, s, st).vals, After(st, sc))
  {
    hide Emit, WriteCtx, WriteCtxIx, StoreMem, LoadMem, EmitExpr, EmitStoreG, EmitExit, EmitExprs, EmitLoadG, JoinLoad,
         EmitCasHigh, Split, SplitThree, Join, WfExpr, WfExprs, WfAddr, LiteralOne, EmitCasSingle, EmitCasDouble,
         EmitGuardedLoad, EmitDirty;
    var b, vals := s.b, s.vals;
    match st
    case WrTmp(t, data) => OneExpr(m, b, vals, sc, data);
    case LoadG(cvt, dst, addr, alt, guard) => LoadGReg(m, b, vals, cvt, dst, addr, alt, guard);
    case CAS(oldLo, addr, expdLo, dataLo, hi) =>
      if hi.None? {
        CasReg(m, b, vals, oldLo, addr, expdLo, dataLo);
      } else {
        CasRegs(m, b, vals, oldLo, addr, expdLo, dataLo, hi.value);
      }
    case Dirty(guard, f, retTy, args, out) =>
      OneExpr(m, b, vals, sc, guard);
      DirtyReg(m, b, vals, guard, f, retTy, args, out);
    case _ =>
  }

  lemma LoadGReg(m: Machine, b: Build, vals: Vals, cvt: LoadGOp, dst: nat, addr: Expr, alt: Expr, guard: Expr)
    ensures
      var r := EmitGuardedLoad(m, b, vals, cvt, dst, addr, alt, guard).vals;
      dst in r && r == vals[dst := r[dst]] && !r[dst].Imm?
  {
    hide EmitExpr, EmitLoadG, SplitThree, Join, MoveTo, Terminate;
  }

  lemma LoadReg(m: Machine, b: Build, a: Operand, ty: LTy)
    ensures !LoadMem(m, b, a, ty).1.Imm?
  {
  }

  lemma CasReg(m: Machine, b: Build, vals: Vals, oldLo: nat, addr: Expr, expd: Expr, data: Expr)
    ensures
      var r := EmitCasSingle(m, b, vals, oldLo, addr, expd, data).vals;
      oldLo in r && r == vals[oldLo := r[oldLo]] && !r[oldLo].Imm?
  {
    hide EmitExpr, LoadMem, Split, Join, MoveTo, StoreMem, Emit;
    var (b1, a) := EmitExpr(m, b, vals, addr);
    var (b2, e) := EmitExpr(m, b1, vals, expd);
    LoadReg(m, b2, a, e.ty);
  }

  lemma CasRegs(m: Machine, b: Build, vals: Vals, oldLo: nat, addr: Expr, expd: Expr, data: Expr, hi: CasHi)
    requires hi.oldHi != oldLo
    ensures
      var r := EmitCasDouble(m, b, vals, oldLo, addr, expd, data, hi).vals;
      oldLo in r && hi.oldHi in r && r == vals[oldLo := r[oldLo]][hi.oldHi := r[hi.oldHi]] &&
      !r[oldLo].Imm? && !r[hi.oldHi].Imm?
  {
    hide EmitExpr, LoadMem, Split, Join, MoveTo, StoreMem, Emit, EmitCasHigh;
    var (b1, a) := EmitExpr(m, b, vals, addr);
    var (b2, e) := EmitExpr(m, b1, vals, expd);
    var (b3, was) := LoadMem(m, b2, a, e.ty);
    LoadReg(m, b2, a, e.ty);
    HighReg(m, b3, vals, a, e, was, hi.expdHi);
  }

  lemma HighReg(m: Machine, b: Build, vals: Vals, a: Operand, e: Operand, was: Operand, expdHi: Expr)
    ensures !EmitCasHigh(m, b, vals, a, e, was, expdHi).wasHi.Imm?
  {
    hide EmitExpr, LoadMem, Emit;
    var (b1, eHi) := EmitExpr(m, b, vals, expdHi);
    LoadReg(m, Emit(b1, Arith(b1.next, a.ty, Add, a, Imm(BytesOf(e.ty), a.ty))), Reg(b1.next, a.ty), e.ty);
  }

  lemma DirtyReg(m: Machine, b: Build, vals: Vals, guard: Expr, f: nat, retTy: LTy, args: seq<Expr>, out: Option<DirtyTmp>)
    ensures
      var r := EmitDirty(m, b, vals, guard, f, retTy, args, out).vals;
      && (out.None? ==> r == vals)
      && (out.Some? ==>
            var t := out.value.tmp; t in r && r == vals[t := r[t]] && !r[t].Imm?)
  {
    hide EmitExpr, EmitCall, Split, Join, MoveTo, IsOne;
    var b1 := EmitExpr(m, b, vals, guard).0;
    var g := EmitExpr(m, b, vals, guard).1;
    CallReg(m, if IsOne(g) then b1 else MoveTo(Split(b1, g), |b1.blocks|), vals, f, retTy, args, out);
  }

  lemma CallReg(m: Machine, b: Build, vals: Vals, f: nat, retTy: LTy, args: seq<Expr>, out: Option<DirtyTmp>)
    ensures
      var r := EmitCall(m, b, vals, f, retTy, args, out).vals;
      && (out.None? ==> r == vals)
      && (out.Some? ==>
            var t := out.value.tmp; t in r && r == vals[t := r[t]] && !r[t].Imm?)
  {
    hide EmitExprs, Emit, VexTy2LLVM, BitsOf;
  }

  lemma {:induction false} SimulateStmts(m: Machine, s: Emitted, ss: seq<Stmt>, sc: Scope, c: Config, tmps: map<nat, Val>)
    returns (c': Config, r: Emitted)
    requires Here(m, s.b, s.vals, sc, c, tmps) && Ones(s.vals, sc) && WfStmts(ss, sc) && m.exitOff < TWO31 && c.At?
    requires sc.tt.Keys <= tmps.Keys
    ensures
      match ExecAllCoded(m, ss, c.g, tmps)
      case Go(g', tmps') => c'.At? && c'.g == g' && AfterAll(ss, sc).tt.Keys <= tmps'.Keys && Here(m, r.b, r.vals, AfterAll(ss, sc), c', tmps') && Sim(m, s.b, c, r.b, c')
      case Left(next, g') => c' == Done(next, g') && Reach(m, r.b.blocks, c, c')
    ensures r == EmitStmts(m, s, ss)
    decreases |ss|
  {
    hide Here, Sim, AtEnd, Reach, Grow, WfStmt, EmitStmt, Ones, After, ExecCoded, Tidy, Open;
    r := EmitStmts(m, s, ss);
    if ss == [] {
      HereParts(m, s.b, s.vals, sc, c, tmps);
      c' := c;
      SimRefl(m, s.b, c);
    } else {
      FullProceeds(m, ss[0], c.g, tmps, sc);
      var c1, r1 := SimulateStmt(m, s, ss[0], sc, c, tmps);
      OnesStmt(m, s, ss[0], sc);
      HereParts(m, s.b, s.vals, sc, c, tmps);
      TidyStmt(m, s, ss[0]);
      TidyOpen(s.b, r1.b);
      TidyStmts(m, r1, ss[1..]);
      TidyNext(r1.b, r.b);
      match ExecCoded(m, ss[0], c.g, tmps)
      case Left(next, g') =>
        c' := c1;
        ReachGrow(m, r1.b.blocks, r.b.blocks, c, c1);
      case Go(g1, tmps1) =>
        FullAfter(m, s, ss[0], sc, c, tmps);
        var rr;
        c', rr := SimulateStmts(m, r1, ss[1..], After(ss[0], sc), c1, tmps1);
        if c'.At? {
          SimTrans(m, s.b, c, r1.b, c1, r.b, c');
        } else {
          SimEnds(m, s.b, c, r1.b, c1);
          ReachGrow(m, r1.b.blocks, r.b.blocks, c, c1);
          ReachTrans(m, r.b.blocks, c, c1, c');
        }
    }
  }

  /** Where all usable temporaries have values, they still do after the statement. */
  lemma FullAfter(m: Machine, s: Emitted, st: Stmt, sc: Scope, c: Config, tmps: map<nat, Val>)
    requires Here(m, s.b, s.vals, sc, c, tmps) && Ones(s.vals, sc) && WfStmt(st, sc) && c.At?
    requires sc.tt.Keys <= tmps.Keys && ExecCoded(m, st, c.g, tmps).Go?
    ensures After(st, sc).tt.Keys <= ExecCoded(m, st, c.g, tmps).tmps.Keys
  {
    hide Defined, AllDefined, Here, Eval, EvalAll, WfExpr, WfExprs, WfArr, Aligned, Sized, LoadGVal, LoadVal, MemVal, HiAddr, StoreVal, PutVal, DirtyVal,
         TyOf, LiteralOne, Ones, ExitGuest, BitsOf;
    if st.Dirty? && LiteralOne(st.guard, sc) {
      FullDefined(m, c.g, tmps, st.guard, sc);
      OneGuard(m, s.b, s.vals, sc, st.guard, c, tmps);
    }
  }

  /** A guard that is a literal one holds. */
  lemma OneGuard(m: Machine, b: Build, vals: Vals, sc: Scope, guard: Expr, c: Config, tmps: map<nat, Val>)
    requires Here(m, b, vals, sc, c, tmps) && Ones(vals, sc) && WfExpr(guard, sc) && c.At? && Defined(m, c.g, tmps, guard)
    requires LiteralOne(guard, sc)
    ensures Eval(m, c.g, tmps, guard).n == 1
  {
    hide *;
    var c1 := SimHere(m, b, vals, sc, guard, c, tmps);
    OneExpr(m, b, vals, sc, guard);
    OneVal(c1.regs, EmitExpr(m, b, vals, guard).1, Eval(m, c.g, tmps, guard));
  }

  lemma BeginHere(m: Machine, g: Guest)
    ensures Here(m, Begin, map[], Empty(m), Start(g), map[]) && Ones(map[], Empty(m))
  {
  }

  /** The ends of blocks that the emitter accepts, and what it writes for them: what the jump means. */
  lemma BlockKind(jk: JumpKind)
    ensures BlockExitType(jk) == if jk in {MapFail, SigSEGV, EmWarn, NoDecode} then None else Some(JumpByte(jk))
  {
  }

  /** The end of the block: the exit kind, when it is worth recording, and the return. */
  lemma SimulateEnd(m: Machine, s: Emitted, sc: Scope, sb: SB, c: Config, tmps: map<nat, Val>)
    requires Here(m, s.b, s.vals, sc, c, tmps) && c.At? && WfExpr(sb.next, sc) && m.exitOff < TWO31
    requires Defined(m, c.g, tmps, sb.next) && BlockExitType(sb.jk).Some?
    ensures
      var (b1, v) := EmitExpr(m, s.b, s.vals, sb.next);
      var kind := BlockExitType(sb.jk);
      var b2 := if kind.None? || kind.value == GE_IGNORE then b1 else SetExitType(m, b1, kind.value);
      Reach(m, Terminate(b2, RetVal(v)).blocks, c, Done(Eval(m, c.g, tmps, sb.next).n, ExitGuest(m, c.g, sb.jk)))
  {
    hide Defined, AllDefined, Here, Sim, AtEnd, Reach, Grow, EmitExpr, Eval, WfExpr, WriteCtx, EvalVal, PutVal, BlockExitType, JumpByte, Terminate;
    BlockKind(sb.jk);
    var (b1, v) := EmitExpr(m, s.b, s.vals, sb.next);
    var c1 := SimHere(m, s.b, s.vals, sc, sb.next, c, tmps);
    HereParts(m, b1, s.vals, sc, c1, tmps);
    var kind := BlockExitType(sb.jk);
    var b2, c2 := b1, c1;
    SimRefl(m, b1, c1);
    if kind.Some? && kind.value != GE_IGNORE {
      var k := Imm(kind.value, IntTy(8));
      ImmVal(c1.regs, kind.value, IntTy(8));
      c2 := SimWriteCtx(m, b1, m.exitOff, k, c1);
      b2 := SetExitType(m, b1, kind.value);
    }
    SimAt(m, b1, c1, b2, c2);
    SimKeeps(m, b1, c1, b2, c2, v);
    SimTrans(m, s.b, c, b1, c1, b2, c2);
    SimEnds(m, s.b, c, b2, c2);
    SimReturn(m, b2, v, c2);
    var f := Terminate(b2, RetVal(v)).blocks;
    ReachGrow(m, b2.blocks, f, c, c2);
    ReachTrans(m, f, c, c2, Done(Eval(m, c.g, tmps, sb.next).n, ExitGuest(m, c.g, sb.jk)));
  }

  /**
   For every well-formed superblock and every guest, the emitted function returns, and it
   returns the next address, context and memory that the coded meaning of the block gives.
   */
  lemma EmittedCodeRuns(m: Machine, sb: SB, g: Guest)
    requires WfSB(m, sb)
    ensures
      var r := InterpCoded(m, sb, g);
      Returns(m, EmitSB(m, sb), g, r.next, r.g)
  {
    hide Defined, AllDefined, Here, Sim, Reach, Grow, WfStmts, EmitStmts, Ones, ExecAllCoded, EmitExpr, Eval, WfExpr, ExitGuest, SetExitType, Tidy,
         Terminate, Empty;
    BeginHere(m, g);
    var c, s := SimulateStmts(m, Emitted(Begin, map[]), sb.stmts, Empty(m), Start(g), map[]);
    var f := EmitSB(m, sb);
    EndGrow(m, sb);
    match ExecAllCoded(m, sb.stmts, g, map[])
    case Left(next, g') => ReachGrow(m, s.b.blocks, f, Start(g), c);
    case Go(g', tmps') =>
      SimEnds(m, Begin, Start(g), s.b, c);
      ReachGrow(m, s.b.blocks, f, Start(g), c);
      FullDefined(m, g', tmps', sb.next, AfterAll(sb.stmts, Empty(m)));
      SimulateEnd(m, s, AfterAll(sb.stmts, Empty(m)), sb, c, tmps');
      ReachTrans(m, f, Start(g), c, Done(Eval(m, g', tmps', sb.next).n, ExitGuest(m, g', sb.jk)));
  }

  lemma EndGrow(m: Machine, sb: SB)
    ensures Grow(EmitStmts(m, Emitted(Begin, map[]), sb.stmts).b.blocks, EmitSB(m, sb))
  {
    hide EmitStmts, EmitExpr, SetExitType, Made, Tidy;
    var s := EmitStmts(m, Emitted(Begin, map[]), sb.stmts);
    TidyStmts(m, Emitted(Begin, map[]), sb.stmts);
    TidyOpen(Begin, s.b);
    TidyRefl(s.b);
    TidyThenExpr(m, s.b, s.b, s.vals, sb.next);
    var (b1, v) := EmitExpr(m, s.b, s.vals, sb.next);
    TidySetExit(m, s.b, b1, sb.jk);
    var kind := BlockExitType(sb.jk);
    var b2 := if kind.None? || kind.value == GE_IGNORE then b1 else SetExitType(m, b1, kind.value);
    TidyNext(s.b, b2);
    TidyOpen(s.b, b2);
    GrowTrans(s.b.blocks, b2.blocks, Terminate(b2, RetVal(v)).blocks);
  }

  /** With single-width compare and swap only, that is the VEX meaning of the block ... */
  lemma LoweringCorrect(m: Machine, sb: SB, g: Guest)
    requires WfSB(m, sb) && SingleWidth(sb.stmts)
    ensures
      var r := Interp(m, sb, g);
      Returns(m, EmitSB(m, sb), g, r.next, r.g)
  {
    hide WfSB, EmitSB, Returns;
    EmittedCodeRuns(m, sb, g);
    SingleWidthAgrees(m, sb.stmts, g, map[]);
  }

  /** ... and the function returns nothing else. */
  lemma LoweringExact(m: Machine, sb: SB, g: Guest, next: nat, g': Guest)
    requires WfSB(m, sb) && SingleWidth(sb.stmts)
    ensures Returns(m, EmitSB(m, sb), g, next, g') <==> Result(next, g') == Interp(m, sb, g)
  {
    hide WfSB, EmitSB, Interp;
    LoweringCorrect(m, sb, g);
    var r := Interp(m, sb, g);
    var f := EmitSB(m, sb);
    if Returns(m, f, g, next, g') {
      var n: nat :| Steps(m, f, Start(g), n) == Some(Done(r.next, r.g));
      var k: nat :| Steps(m, f, Start(g), k) == Some(Done(next, g'));
      DoneUnique(m, f, Start(g), n, k);
    }
  }
}
