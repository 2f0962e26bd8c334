/**
 Guarded helper calls whose results are used afterwards. The result of a call that did not
 happen is a register never written; a superblock returns what VEX means exactly on those
 guests on which nothing that is executed reads such a register.
 */
module GuardedCalls {
  import opened Options
  import opened ExitKinds
  import opened VexIR
  import opened VexWf
  import opened VexCoded
  import opened VexDefined
  import opened LlvmIR
  import opened Builder
  import opened Lowering
  import opened Extension
  import opened StmtShape
  import opened Simulation
  import opened SimExpr
  import opened SimStmt
  import opened SimDirty
  import opened LowerCorrect
  import opened Jams
  import opened JamExpr
  import opened JamStmt
  import opened JamGuards
  import opened BlockLaws

  /** The scope after s when the result of every helper call counts as usable. */
  function AfterCall(s: Stmt, sc: Scope): Scope {
    if s.Dirty? && s.out.Some? then Assign(sc, s.out.value.tmp, DirtyTy(s.retTy, VexTy2LLVM(s.out.value.ty)))
    else After(s, sc)
  }

  predicate WfCalls(ss: seq<Stmt>, sc: Scope) {
    ss == [] || (WfStmt(ss[0], sc) && WfCalls(ss[1..], AfterCall(ss[0], sc)))
  }

  function AfterCalls(ss: seq<Stmt>, sc: Scope): Scope {
    if ss == [] then sc else AfterCalls(ss[1..], AfterCall(ss[0], sc))
  }

  /** Well formed once the results of guarded calls may be used. */
  predicate WfLoose(m: Machine, sb: SB) {
    WfCalls(sb.stmts, Empty(m)) &&
    WfExpr(sb.next, AfterCalls(sb.stmts, Empty(m))) &&
    BlockExitType(sb.jk).Some? &&
    m.exitOff < TWO31
  }

  // ---- following which temporaries have values

  /** A bare temporary without a value that is given another name has no value under that name either. */
  predicate Renames(s: Stmt, tmps: map<nat, Val>) {
    s.WrTmp? && s.data.RdTmp? && s.data.tmp !in tmps
  }

  /** One statement, as coded, on the temporaries that have values. */
  function Track(m: Machine, s: Stmt, g: Guest, tmps: map<nat, Val>): Outcome {
    if Renames(s, tmps) then Go(g, tmps) else ExecCoded(m, s, g, tmps)
  }

  predicate Continues(m: Machine, s: Stmt, g: Guest, tmps: map<nat, Val>) {
    Renames(s, tmps) || Proceeds(m, s, g, tmps)
  }

  function TrackAll(m: Machine, ss: seq<Stmt>, g: Guest, tmps: map<nat, Val>): Outcome {
    if ss == [] then Go(g, tmps)
    else match Track(m, ss[0], g, tmps)
      case Left(next, g') => Left(next, g')
      case Go(g', tmps') => TrackAll(m, ss[1..], g', tmps')
  }

  predicate AllContinue(m: Machine, ss: seq<Stmt>, g: Guest, tmps: map<nat, Val>) {
    ss == [] ||
    (Continues(m, ss[0], g, tmps) &&
     match Track(m, ss[0], g, tmps)
     case Left(_, _) => true
     case Go(g', tmps') => AllContinue(m, ss[1..], g', tmps'))
  }

  /** Nothing executed on the way through the superblock reads the result of a call that did not happen. */
  predicate Sound(m: Machine, sb: SB, g: Guest) {
    AllContinue(m, sb.stmts, g, map[]) &&
    match TrackAll(m, sb.stmts, g, map[])
    case Left(_, _) => true
    case Go(g', tmps) => Defined(m, g', tmps, sb.next)
  }

  // ---- one statement

  predicate Tracked(m: Machine, s: Emitted, sc: Scope, c: Config, tmps: map<nat, Val>) {
    Loose(m, s.b, s.vals, sc, c, tmps) && Ones(s.vals, sc) && tmps.Keys <= sc.used
  }

  lemma TrackedParts(m: Machine, s: Emitted, sc: Scope, c: Config, tmps: map<nat, Val>)
    requires Tracked(m, s, sc, c, tmps)
    ensures Loose(m, s.b, s.vals, sc, c, tmps) && Ones(s.vals, sc) && tmps.Keys <= sc.used
    ensures c.At? && Here(m, s.b, s.vals, sc, c, tmps) && AtEnd(s.b, c) && Open(s.b)
    ensures Temps(s.vals, sc.tt, c.regs, tmps) && Ghosts(s.vals, sc.tt, tmps, c.regs, s.b.next) && AddrTy(m, IntTy(sc.aw))
  {
    hide Loose, Here, AtEnd, Open, Ghosts, Temps, AddrTy, Ones;
    LooseParts(m, s.b, s.vals, sc, c, tmps);
  }

  lemma TrackedMake(m: Machine, s: Emitted, sc: Scope, c: Config, tmps: map<nat, Val>)
    requires Here(m, s.b, s.vals, sc, c, tmps) && c.At? && Ghosts(s.vals, sc.tt, tmps, c.regs, s.b.next)
    requires Ones(s.vals, sc) && tmps.Keys <= sc.used
    ensures Tracked(m, s, sc, c, tmps)
  {
  }

  lemma OnesCall(m: Machine, s: Emitted, st: Stmt, sc: Scope)
    requires Ones(s.vals, sc) && WfStmt(st, sc)
    ensures Ones(EmitStmt(m, s, st).vals, AfterCall(st, sc))
  {
    hide EmitStmt, WfExpr, WfExprs, WfAddr, WfArr, LiteralOne;
    OnesStmt(m, s, st, sc);
    if st.Dirty? && st.out.Some? {
      DirtyStmtReg(m, s, st);
    }
  }

  lemma DirtyStmtReg(m: Machine, s: Emitted, st: Stmt)
    requires st.Dirty? && st.out.Some?
    ensures
      var r, t := EmitStmt(m, s, st).vals, st.out.value.tmp;
      t in r && r == s.vals[t := r[t]] && !r[t].Imm?
  {
    hide EmitDirty;
    DirtyReg(m, s.b, s.vals, st.guard, st.f, st.retTy, st.args, st.out);
  }

  /** The temporaries a statement assigns when it goes on, helper calls excepted. */
  function Assigned(st: Stmt): set<nat> {
    match st
    case WrTmp(t, _) => {t}
    case LoadG(_, dst, _, _, _) => {dst}
    case CAS(oldLo, _, _, _, hi) => if hi.None? then {oldLo} else {oldLo, hi.value.oldHi}
    case _ => {}
  }

  lemma AssignsVals(m: Machine, s: Emitted, st: Stmt, sc: Scope)
    requires WfStmt(st, sc) && !(st.Dirty? && st.out.Some?)
    ensures forall k :: k !in Assigned(st) && k in s.vals ==> k in EmitStmt(m, s, st).vals && EmitStmt(m, s, st).vals[k] == s.vals[k]
  {
    hide Emit, WriteCtx, WriteCtxIx, StoreMem, EmitExpr, EmitStoreG, EmitExit, EmitCasSingle, EmitCasDouble, EmitGuardedLoad,
         EmitDirty, WfExpr, WfExprs, WfAddr, LiteralOne, TyOf;
    match st
    case LoadG(cvt, dst, addr, alt, guard) => LoadGReg(m, s.b, s.vals, cvt, dst, addr, alt, guard);
    case CAS(oldLo, addr, expdLo, dataLo, hi) =>
      if hi.None? {
        CasReg(m, s.b, s.vals, oldLo, addr, expdLo, dataLo);
      } else {
        CasRegs(m, s.b, s.vals, oldLo, addr, expdLo, dataLo, hi.value);
      }
    case Dirty(guard, f, retTy, args, out) => DirtyReg(m, s.b, s.vals, guard, f, retTy, args, out);
    case _ =>
  }

  lemma AssignsScope(st: Stmt, sc: Scope)
    requires WfStmt(st, sc) && !(st.Dirty? && st.out.Some?)
    ensures After(st, sc).tt.Keys == sc.tt.Keys + Assigned(st) && After(st, sc).used == sc.used + Assigned(st)
  {
    hide WfExpr, WfExprs, WfAddr, LiteralOne, TyOf;
  }

  lemma AssignsTmps(m: Machine, st: Stmt, g: Guest, tmps: map<nat, Val>)
    requires !(st.Dirty? && st.out.Some?) && ExecCoded(m, st, g, tmps).Go?
    ensures ExecCoded(m, st, g, tmps).tmps.Keys == tmps.Keys + Assigned(st)
  {
    hide Eval, EvalAll, LoadVal, LoadGVal, MemVal, HiAddr, StoreVal, PutVal, ExitGuest, BitsOf, DirtyVal;
  }

  /** One statement that reads nothing without a value. */
  lemma SimulateTracked(m: Machine, s: Emitted, st: Stmt, sc: Scope, c: Config, tmps: map<nat, Val>)
    returns (c': Config, r: Emitted)
    requires Tracked(m, s, sc, c, tmps) && WfStmt(st, sc) && m.exitOff < TWO31 && c.At? && Continues(m, st, c.g, tmps)
    ensures
      match Track(m, st, c.g, tmps)
      case Go(g', tmps') => c'.At? && c'.g == g' && Tracked(m, r, AfterCall(st, sc), c', tmps') && Sim(m, s.b, c, r.b, c')
      case Left(next, g') => c' == Done(next, g') && Reach(m, r.b.blocks, c, c')
    ensures r == EmitStmt(m, s, st)
  {
    hide Tracked, Here, Sim, AtEnd, Reach, Grow, WfExpr, WfExprs, EmitDirty, Ones, After, CasDoubleCoded, Eval, ExecCoded, EmitStmt,
         Proceeds, Temps, Ghosts, AfterCall, Loose, Open, AddrTy, WfStmt;
    TrackedParts(m, s, sc, c, tmps);
    OnesCall(m, s, st, sc);
    r := EmitStmt(m, s, st);
    if Renames(st, tmps) {
      c' := c;
      RenameTracked(m, s, st, sc, c, tmps);
      SimRefl(m, s.b, c);
    } else if st.Dirty? && st.out.Some? {
      var rr;
      c', rr := TrackDirty(m, s, st, sc, c, tmps);
    } else {
      var rr;
      c', rr := SimulateStmt(m, s, st, sc, c, tmps);
      AfterSame(st, sc);
      if ExecCoded(m, st, c.g, tmps).Go? {
        var tmps' := ExecCoded(m, st, c.g, tmps).tmps;
        SimNewer(m, s.b, c, r.b, c');
        AssignsVals(m, s, st, sc);
        AssignsScope(st, sc);
        AssignsTmps(m, st, c.g, tmps);
        GhostsStep(s.vals, r.vals, sc.tt, After(st, sc).tt, tmps, tmps', c.regs, c'.regs, s.b.next, r.b.next, Assigned(st));
        TrackedMake(m, r, AfterCall(st, sc), c', tmps');
      }
    }
  }

  lemma AfterSame(st: Stmt, sc: Scope)
    requires !(st.Dirty? && st.out.Some?)
    ensures AfterCall(st, sc) == After(st, sc)
  {
  }

  lemma GhostsStep(vals: Vals, vals': Vals, tt: map<nat, LTy>, tt': map<nat, LTy>, tmps: map<nat, Val>, tmps': map<nat, Val>,
                   r: Regs, r': Regs, n: nat, n': nat, done: set<nat>)
    requires Ghosts(vals, tt, tmps, r, n) && Newer(r, r', n) && n <= n'
    requires tt'.Keys == tt.Keys + done && tmps'.Keys == tmps.Keys + done
    requires forall k :: k !in done && k in vals ==> k in vals' && vals'[k] == vals[k]
    ensures Ghosts(vals', tt', tmps', r', n')
  {
    forall t | t in tt' && t !in tmps' ensures t in vals' && Unread(vals'[t], r', n') {
      assert t in tt && t !in tmps && Unread(vals[t], r, n);
    }
  }

  /** Another name for a temporary without a value. */
  lemma RenameTracked(m: Machine, s: Emitted, st: Stmt, sc: Scope, c: Config, tmps: map<nat, Val>)
    requires Tracked(m, s, sc, c, tmps) && WfStmt(st, sc) && Renames(st, tmps)
    ensures EmitStmt(m, s, st).b == s.b && Tracked(m, EmitStmt(m, s, st), AfterCall(st, sc), c, tmps)
  {
    hide Here, AtEnd, Open, AddrTy, Temps, LiteralOne, Ones, Loose, Unread;
    TrackedParts(m, s, sc, c, tmps);
    OnesCall(m, s, st, sc);
    var u, t := st.data.tmp, st.tmp;
    TmpNamed(m, s.b, s.vals, sc, st.data, c.regs, tmps);
    var r := EmitStmt(m, s, st);
    assert r == Emitted(s.b, s.vals[t := s.vals[u]]) by { hide EmitExpr, Tracked; }
    var sc' := AfterCall(st, sc);
    assert sc'.tt == sc.tt[t := s.vals[u].ty] && sc'.used == sc.used + {t} && sc'.aw == sc.aw;
    TempsSkip(s.vals, sc.tt, c.regs, tmps, t, s.vals[u]);
    HereAt(m, r.b, r.vals, sc', c, tmps);
    TrackedMake(m, r, sc', c, tmps);
  }

  /** A helper call with a result, whether it happens or not. */
  lemma TrackDirty(m: Machine, s: Emitted, st: Stmt, sc: Scope, c: Config, tmps: map<nat, Val>) returns (c': Config, r: Emitted)
    requires Tracked(m, s, sc, c, tmps) && WfStmt(st, sc) && c.At? && Proceeds(m, st, c.g, tmps) && st.Dirty? && st.out.Some?
    ensures ExecCoded(m, st, c.g, tmps).Go? && c'.At? && c'.g == ExecCoded(m, st, c.g, tmps).g
    ensures Tracked(m, r, AfterCall(st, sc), c', ExecCoded(m, st, c.g, tmps).tmps) && Sim(m, s.b, c, r.b, c')
    ensures r == EmitStmt(m, s, st)
  {
    hide *;
    TrackedParts(m, s, sc, c, tmps);
    OnesCall(m, s, st, sc);
    DirtyStmtReg(m, s, st);
    DirtyShape(m, s, st, sc, c.g, tmps);
    var t := st.out.value.tmp;
    var tmps';
    c', r, tmps' := SimDirtyCall(m, s.b, s.vals, sc, st.guard, st.f, st.retTy, st.args, st.out, c, tmps);
    SimNewer(m, s.b, c, r.b, c');
    SimEnds(m, s.b, c, r.b, c');
    HereAt(m, r.b, r.vals, AfterCall(st, sc), c', tmps');
    GhostsCall(s.vals, r.vals, sc.tt, AfterCall(st, sc).tt, tmps, tmps', c.regs, c'.regs, s.b.next, r.b.next, t);
    TrackedMake(m, r, AfterCall(st, sc), c', tmps');
  }

  lemma DirtyShape(m: Machine, s: Emitted, st: Stmt, sc: Scope, g: Guest, tmps: map<nat, Val>)
    requires st.Dirty? && st.out.Some? && WfStmt(st, sc) && tmps.Keys <= sc.used
    ensures EmitStmt(m, s, st) == EmitDirty(m, s.b, s.vals, st.guard, st.f, st.retTy, st.args, st.out)
    ensures ExecCoded(m, st, g, tmps) == Exec(m, Dirty(st.guard, st.f, st.retTy, st.args, st.out), g, tmps)
    ensures st == Dirty(st.guard, st.f, st.retTy, st.args, st.out) && st.out.value.tmp !in tmps
    ensures
      var t, sc' := st.out.value.tmp, AfterCall(st, sc);
      sc'.tt == sc.tt[t := DirtyTy(st.retTy, VexTy2LLVM(st.out.value.ty))] && sc'.used == sc.used + {t} && sc'.aw == sc.aw
    ensures
      var r := Exec(m, st, g, tmps);
      && r.Go? && r.tmps.Keys == (if Eval(m, g, tmps, st.guard).n == 0 then tmps.Keys else tmps.Keys + {st.out.value.tmp})
  {
    hide EmitDirty, WfExpr, WfExprs, Eval, EvalAll, DirtyVal;
  }

  lemma GhostsCall(vals: Vals, vals': Vals, tt: map<nat, LTy>, tt': map<nat, LTy>, tmps: map<nat, Val>, tmps': map<nat, Val>,
                   r: Regs, r': Regs, n: nat, n': nat, t: nat)
    requires Ghosts(vals, tt, tmps, r, n) && Newer(r, r', n) && n <= n'
    requires tt'.Keys == tt.Keys + {t} && tmps.Keys <= tmps'.Keys <= tmps.Keys + {t}
    requires t in vals' && vals' == vals[t := vals'[t]] && (t !in tmps' ==> Unread(vals'[t], r', n'))
    ensures Ghosts(vals', tt', tmps', r', n')
  {
    forall k | k in tt' && k !in tmps' ensures k in vals' && Unread(vals'[k], r', n') {
      if k != t {
        assert k in tt && k !in tmps && Unread(vals[k], r, n);
      }
    }
  }

  /** One statement that does read something without a value. */
  lemma JamTracked(m: Machine, s: Emitted, st: Stmt, sc: Scope, c: Config, tmps: map<nat, Val>)
    requires Tracked(m, s, sc, c, tmps) && WfStmt(st, sc) && c.At? && !Continues(m, st, c.g, tmps)
    ensures Dead(m, EmitStmt(m, s, st).b.blocks, c)
  {
    hide Loose, Ones, Here, AtEnd, Open, Temps, Ghosts, AddrTy, Dead, EmitExpr, Emit, WriteCtx, WriteCtxIx, StoreMem, EmitStoreG,
         EmitExit, EmitCasSingle, EmitCasDouble, EmitGuardedLoad, EmitDirty, WfExpr, WfExprs, WfAddr, WfArr, Aligned, Sized,
         Eval, Defined, AllDefined, CasProceeds, CasDoubleProceeds, Tracked;
    TrackedParts(m, s, sc, c, tmps);
    match st
    case Put(off, data) => JamPut(m, s.b, s.vals, sc, off, data, c, tmps);
    case PutI(arr, ix, bias, data) => JamPutI(m, s.b, s.vals, sc, arr, ix, bias, data, c, tmps);
    case WrTmp(t, data) =>
      UndefinedNotTmp(m, c.g, tmps, data);
      BadExpr(m, s.b, s.vals, sc, data, c, tmps);
    case Store(addr, data) => JamStoreS(m, s.b, s.vals, sc, addr, data, c, tmps);
    case StoreG(addr, data, guard) => JamStoreG(m, s.b, s.vals, sc, addr, data, guard, c, tmps);
    case LoadG(cvt, dst, addr, alt, guard) => JamGuardedLoad(m, s.b, s.vals, sc, cvt, dst, addr, alt, guard, c, tmps);
    case CAS(oldLo, addr, expdLo, dataLo, hi) =>
      if hi.None? {
        JamCasSingle(m, s.b, s.vals, sc, oldLo, addr, expdLo, dataLo, c, tmps);
      } else {
        JamCasDouble(m, s.b, s.vals, sc, oldLo, addr, expdLo, dataLo, hi.value, c, tmps);
      }
    case Dirty(guard, f, retTy, args, out) => JamDirty(m, s.b, s.vals, sc, guard, f, retTy, args, out, c, tmps);
    case Exit(guard, jk, dst) => JamExit(m, s.b, s.vals, sc, guard, jk, dst, c, tmps);
    case _ =>
  }

  lemma UndefinedNotTmp(m: Machine, g: Guest, tmps: map<nat, Val>, e: Expr)
    ensures e.RdTmp? && e.tmp in tmps ==> Defined(m, g, tmps, e)
  {
  }

  // ---- whole superblocks

  /** The statements in order: to the end of them or out, or stuck in one that reads what has no value. */
  lemma {:induction false} RunTracked(m: Machine, s: Emitted, ss: seq<Stmt>, sc: Scope, c: Config, tmps: map<nat, Val>)
    returns (c': Config, r: Emitted)
    requires Tracked(m, s, sc, c, tmps) && WfCalls(ss, sc) && m.exitOff < TWO31 && c.At?
    ensures r == EmitStmts(m, s, ss) && Open(s.b) && Tidy(s.b, r.b)
    ensures
      if AllContinue(m, ss, c.g, tmps) then
        match TrackAll(m, ss, c.g, tmps)
        case Go(g', tmps') => c'.At? && c'.g == g' && Tracked(m, r, AfterCalls(ss, sc), c', tmps') && Sim(m, s.b, c, r.b, c')
        case Left(next, g') => c' == Done(next, g') && Reach(m, r.b.blocks, c, c')
      else Dead(m, r.b.blocks, c)
    decreases |ss|
  {
    hide Tracked, Sim, AtEnd, Reach, Grow, WfStmt, EmitStmt, AfterCall, Track, Continues, Tidy, Open, Dead;
    TrackedParts(m, s, sc, c, tmps);
    r := EmitStmts(m, s, ss);
    TidyStmts(m, s, ss);
    c' := c;
    if ss == [] {
      SimRefl(m, s.b, c);
    } else {
      var r1 := EmitStmt(m, s, ss[0]);
      TidyStmt(m, s, ss[0]);
      TidyOpen(s.b, r1.b);
      TidyStmts(m, r1, ss[1..]);
      TidyNext(r1.b, r.b);
      if !Continues(m, ss[0], c.g, tmps) {
        JamTracked(m, s, ss[0], sc, c, tmps);
        DeadGrow(m, r1.b.blocks, r.b.blocks, c);
      } else {
        var c1, rr := SimulateTracked(m, s, ss[0], sc, c, tmps);
        match Track(m, ss[0], c.g, tmps)
        case Left(next, g') =>
          c' := c1;
          ReachGrow(m, r1.b.blocks, r.b.blocks, c, c1);
        case Go(g1, tmps1) =>
          c', rr := RunTracked(m, r1, ss[1..], AfterCall(ss[0], sc), c1, tmps1);
          RunJoin(m, s.b, c, r1.b, c1, r.b, c');
      }
    }
  }

  /** What the rest of a run does is done by the whole run. */
  lemma RunJoin(m: Machine, b: Build, c: Config, b1: Build, c1: Config, b2: Build, c2: Config)
    requires Sim(m, b, c, b1, c1) && Grow(b1.blocks, b2.blocks)
    ensures Sim(m, b1, c1, b2, c2) ==> Sim(m, b, c, b2, c2)
    ensures Reach(m, b2.blocks, c1, c2) ==> Reach(m, b2.blocks, c, c2)
    ensures Dead(m, b2.blocks, c1) ==> Dead(m, b2.blocks, c)
  {
    hide Sim, Reach, Grow, Dead;
    if Sim(m, b1, c1, b2, c2) {
      SimTrans(m, b, c, b1, c1, b2, c2);
    }
    if Reach(m, b2.blocks, c1, c2) {
      SimEnds(m, b, c, b1, c1);
      ReachGrow(m, b1.blocks, b2.blocks, c, c1);
      ReachTrans(m, b2.blocks, c, c1, c2);
    }
    if Dead(m, b2.blocks, c1) {
      DeadThen(m, b, c, b1, c1, b2.blocks);
    }
  }

  /** The return of a superblock whose next address is missing. */
  lemma JamEnd(m: Machine, s: Emitted, sc: Scope, sb: SB, c: Config, tmps: map<nat, Val>)
    requires Loose(m, s.b, s.vals, sc, c, tmps) && c.At? && WfExpr(sb.next, sc) && m.exitOff < TWO31
    requires !Defined(m, c.g, tmps, sb.next)
    ensures
      var (b1, v) := EmitExpr(m, s.b, s.vals, sb.next);
      var kind := BlockExitType(sb.jk);
      var b2 := if kind.None? || kind.value == GE_IGNORE then b1 else SetExitType(m, b1, kind.value);
      Dead(m, Terminate(b2, RetVal(v)).blocks, c)
  {
    hide Loose, Sim, AtEnd, Grow, EmitExpr, Eval, WfExpr, WriteCtx, EvalVal, BlockExitType, Terminate, Dead, Defined, Tidy, Open,
         Unread, Operated, PutVal;
    LooseParts(m, s.b, s.vals, sc, c, tmps);
    var (b1, v) := EmitExpr(m, s.b, s.vals, sb.next);
    var c1 := TryExpr(m, s.b, s.vals, sc, sb.next, c, tmps);
    var kind := BlockExitType(sb.jk);
    var b2 := if kind.None? || kind.value == GE_IGNORE then b1 else SetExitType(m, b1, kind.value);
    TidyRefl(b1);
    TidySetExit(m, b1, b1, sb.jk);
    TidyGrow(b1, b2);
    var f := Terminate(b2, RetVal(v));
    TermGrow(b2, RetVal(v));
    GrowTrans(b1.blocks, b2.blocks, f.blocks);
    if Emits(m, c.g, tmps, sb.next) {
      OperandUnread(m, c.g, tmps, sb.next, v, c1.regs, b1.next);
      var c2 := c1;
      SimRefl(m, b1, c1);
      if kind.Some? && kind.value != GE_IGNORE {
        var k := Imm(kind.value, IntTy(8));
        ImmVal(c1.regs, kind.value, IntTy(8));
        c2 := SimWriteCtx(m, b1, m.exitOff, k, c1);
      }
      UnreadKeeps(m, b1, c1, b2, c2, v);
      UnreadVal(v, c2.regs, b2.next);
      SimEnds(m, b1, c1, b2, c2);
      JamReturn(m, b2, v, c2);
      DeadThen(m, b1, c1, b2, c2, f.blocks);
      DeadThen(m, s.b, c, b1, c1, f.blocks);
    } else {
      DeadGrow(m, b1.blocks, f.blocks, c);
    }
  }

  lemma JamReturn(m: Machine, b: Build, v: Operand, c: Config)
    requires AtEnd(b, c) && EvalVal(c.regs, v).None?
    ensures Dead(m, Terminate(b, RetVal(v)).blocks, c)
  {
    hide Dead, Terminate, Grow;
    JamTerm(m, b, RetVal(v), c);
  }

  lemma BeginTracked(m: Machine, g: Guest)
    ensures Tracked(m, Emitted(Begin, map[]), Empty(m), Start(g), map[])
  {
    BeginHere(m, g);
  }

  /** What a sound run of a superblock comes to. */
  function TrackSB(m: Machine, sb: SB, g: Guest): Result {
    match TrackAll(m, sb.stmts, g, map[])
    case Left(next, g') => Result(next, g')
    case Go(g', tmps) => Result(Eval(m, g', tmps, sb.next).n, ExitGuest(m, g', sb.jk))
  }

  /** The emitted function returns what a sound run comes to, and gets stuck on a run that is not sound. */
  lemma LooseRuns(m: Machine, sb: SB, g: Guest)
    requires WfLoose(m, sb)
    ensures
      var f, r := EmitSB(m, sb), TrackSB(m, sb, g);
      if Sound(m, sb, g) then Returns(m, f, g, r.next, r.g) else Dead(m, f, Start(g))
  {
    hide Tracked, Sim, Reach, Grow, WfCalls, EmitStmts, TrackAll, AllContinue, EmitExpr, Eval, WfExpr, ExitGuest, SetExitType, Tidy,
         Terminate, Empty, AfterCalls, Open, Dead, Defined, Loose, Here;
    BeginTracked(m, g);
    var e, sc := Emitted(Begin, map[]), AfterCalls(sb.stmts, Empty(m));
    var c, s := RunTracked(m, e, sb.stmts, Empty(m), Start(g), map[]);
    var f := EmitSB(m, sb);
    EndGrow(m, sb);
    if !AllContinue(m, sb.stmts, g, map[]) {
      DeadGrow(m, s.b.blocks, f, Start(g));
    } else {
      match TrackAll(m, sb.stmts, g, map[])
      case Left(next, g') => ReachGrow(m, s.b.blocks, f, Start(g), c);
      case Go(g', tmps') =>
        TrackedParts(m, s, sc, c, tmps');
        if Defined(m, g', tmps', sb.next) {
          SimEnds(m, Begin, Start(g), s.b, c);
          ReachGrow(m, s.b.blocks, f, Start(g), c);
          SimulateEnd(m, s, sc, sb, c, tmps');
          ReachTrans(m, f, Start(g), c, Done(Eval(m, g', tmps', sb.next).n, ExitGuest(m, g', sb.jk)));
        } else {
          JamEnd(m, s, sc, sb, c, tmps');
          DeadThen(m, Begin, Start(g), s.b, c, f);
        }
    }
  }

  // ---- a sound run is the run of the superblock

  /** Every temporary with a value has that value. */
  predicate Sub(tmps: map<nat, Val>, all: map<nat, Val>) {
    forall t :: t in tmps ==> t in all && all[t] == tmps[t]
  }

  lemma {:induction false} EvalSub(m: Machine, g: Guest, tmps: map<nat, Val>, all: map<nat, Val>, e: Expr)
    requires Sub(tmps, all) && Defined(m, g, tmps, e)
    ensures Eval(m, g, tmps, e) == Eval(m, g, all, e)
    decreases e, 0
  {
    hide Read, Sub;
    match e
    case RdTmp(t) => SubAt(tmps, all, t);
    case GetI(_, ix, _) => EvalSub(m, g, tmps, all, ix);
    case Op(_, _, args) => EvalAllSub(m, g, tmps, all, args);
    case Load(_, addr) => EvalSub(m, g, tmps, all, addr);
    case Mux0X(cond, expr0, exprX) =>
      EvalSub(m, g, tmps, all, cond);
      if Eval(m, g, tmps, cond).n == 0 {
        EvalSub(m, g, tmps, all, expr0);
      } else {
        EvalSub(m, g, tmps, all, exprX);
      }
    case _ =>
  }

  lemma SubAt(tmps: map<nat, Val>, all: map<nat, Val>, t: nat)
    requires Sub(tmps, all) && t in tmps
    ensures t in all && all[t] == tmps[t]
  {
  }

  lemma {:induction false} EvalAllSub(m: Machine, g: Guest, tmps: map<nat, Val>, all: map<nat, Val>, es: seq<Expr>)
    requires Sub(tmps, all) && AllDefined(m, g, tmps, es)
    ensures EvalAll(m, g, tmps, es) == EvalAll(m, g, all, es)
    decreases es, 1
  {
    hide Eval, Defined, Sub;
    if es != [] {
      EvalSub(m, g, tmps, all, es[0]);
      EvalAllSub(m, g, tmps, all, es[1..]);
    }
  }

  /** The same outcome, with the same values where there are any. */
  predicate Alike(o: Outcome, all: Outcome) {
    match o
    case Left(_, _) => all == o
    case Go(g, tmps) => all.Go? && all.g == g && Sub(tmps, all.tmps)
  }

  lemma SubSet(tmps: map<nat, Val>, all: map<nat, Val>, t: nat, v: Val)
    requires Sub(tmps, all)
    ensures Sub(tmps[t := v], all[t := v]) && (t !in tmps ==> Sub(tmps, all[t := v]))
  {
  }

  lemma TrackOne(m: Machine, s: Stmt, g: Guest, tmps: map<nat, Val>, all: map<nat, Val>, sc: Scope)
    requires Sub(tmps, all) && WfStmt(s, sc) && tmps.Keys <= sc.used && Continues(m, s, g, tmps)
    ensures Alike(Track(m, s, g, tmps), ExecCoded(m, s, g, all))
  {
    hide Eval, EvalAll, Defined, AllDefined, Sub, LoadVal, LoadGVal, MemVal, HiAddr, StoreVal, PutVal, ExitGuest, BitsOf, DirtyVal,
         WfExpr, WfExprs, WfArr, Aligned, Sized, SlotOff;
    match s
    case Put(_, data) => EvalSub(m, g, tmps, all, data);
    case PutI(_, ix, _, data) =>
      EvalSub(m, g, tmps, all, data);
      EvalSub(m, g, tmps, all, ix);
    case WrTmp(t, data) =>
      SubSet(tmps, all, t, Eval(m, g, all, data));
      if !Renames(s, tmps) {
        EvalSub(m, g, tmps, all, data);
      }
    case Store(addr, data) =>
      EvalSub(m, g, tmps, all, data);
      EvalSub(m, g, tmps, all, addr);
    case StoreG(addr, data, guard) =>
      EvalSub(m, g, tmps, all, guard);
      if Eval(m, g, tmps, guard).n != 0 {
        EvalSub(m, g, tmps, all, addr);
        EvalSub(m, g, tmps, all, data);
      }
    case LoadG(_, dst, addr, alt, guard) =>
      EvalSub(m, g, tmps, all, guard);
      if Eval(m, g, tmps, guard).n == 0 {
        EvalSub(m, g, tmps, all, alt);
      } else {
        EvalSub(m, g, tmps, all, addr);
      }
      SubSet(tmps, all, dst, ExecCoded(m, s, g, all).tmps[dst]);
    case CAS(oldLo, addr, expdLo, dataLo, hi) => TrackCas(m, s, g, tmps, all);
    case Dirty(guard, _, _, args, out) =>
      EvalSub(m, g, tmps, all, guard);
      if Eval(m, g, tmps, guard).n != 0 {
        EvalAllSub(m, g, tmps, all, args);
        if out.Some? {
          SubSet(tmps, all, out.value.tmp, ExecCoded(m, s, g, all).tmps[out.value.tmp]);
        }
      }
    case Exit(guard, _, _) => EvalSub(m, g, tmps, all, guard);
    case _ =>
  }

  lemma TrackCas(m: Machine, s: Stmt, g: Guest, tmps: map<nat, Val>, all: map<nat, Val>)
    requires Sub(tmps, all) && s.CAS? && Proceeds(m, s, g, tmps)
    ensures Alike(ExecCoded(m, s, g, tmps), ExecCoded(m, s, g, all))
  {
    hide Eval, EvalAll, Defined, AllDefined, Sub, MemVal, HiAddr, StoreVal;
    var a, e, d := Eval(m, g, tmps, s.addr), Eval(m, g, tmps, s.expdLo), s.dataLo;
    EvalSub(m, g, tmps, all, s.addr);
    EvalSub(m, g, tmps, all, s.expdLo);
    var lo := MemVal(g, a, e.w);
    SubSet(tmps, all, s.oldLo, lo);
    if s.hi.None? {
      if e.n == lo.n {
        EvalSub(m, g, tmps, all, d);
      }
    } else {
      var hi := s.hi.value;
      EvalSub(m, g, tmps, all, hi.expdHi);
      var high := MemVal(g, HiAddr(a, e.w), e.w);
      SubSet(tmps[s.oldLo := lo], all[s.oldLo := lo], hi.oldHi, high);
      if (e.n == lo.n) == (Eval(m, g, tmps, hi.expdHi).n == high.n) {
        EvalSub(m, g, tmps, all, d);
        EvalSub(m, StoreVal(g, a, Eval(m, g, tmps, d)), tmps, all, d);
      }
    }
  }

  lemma UsedAfter(m: Machine, s: Stmt, g: Guest, tmps: map<nat, Val>, sc: Scope)
    requires WfStmt(s, sc) && tmps.Keys <= sc.used && Track(m, s, g, tmps).Go?
    ensures Track(m, s, g, tmps).tmps.Keys <= AfterCall(s, sc).used
  {
    hide Eval, EvalAll, LoadVal, LoadGVal, MemVal, HiAddr, StoreVal, PutVal, ExitGuest, BitsOf, DirtyVal, WfExpr, WfExprs, WfArr,
         Aligned, Sized, SlotOff, TyOf, LiteralOne;
  }

  lemma {:induction false} TrackMeans(m: Machine, ss: seq<Stmt>, g: Guest, tmps: map<nat, Val>, all: map<nat, Val>, sc: Scope)
    requires Sub(tmps, all) && WfCalls(ss, sc) && tmps.Keys <= sc.used && AllContinue(m, ss, g, tmps)
    ensures Alike(TrackAll(m, ss, g, tmps), ExecAllCoded(m, ss, g, all))
    decreases |ss|
  {
    hide Sub, WfStmt, Continues, Track, ExecCoded, AfterCall;
    if ss != [] {
      TrackOne(m, ss[0], g, tmps, all, sc);
      match Track(m, ss[0], g, tmps)
      case Left(_, _) =>
      case Go(g', tmps') =>
        UsedAfter(m, ss[0], g, tmps, sc);
        TrackMeans(m, ss[1..], g', tmps', ExecCoded(m, ss[0], g, all).tmps, AfterCall(ss[0], sc));
    }
  }

  lemma SoundMeans(m: Machine, sb: SB, g: Guest)
    requires WfLoose(m, sb) && Sound(m, sb, g)
    ensures TrackSB(m, sb, g) == InterpCoded(m, sb, g)
  {
    hide WfCalls, AllContinue, TrackAll, ExecAllCoded, Eval, Defined, ExitGuest, WfExpr, Sub;
    assert Sub(map[], map[]) by { SubNone(); }
    TrackMeans(m, sb.stmts, g, map[], map[], Empty(m));
    match TrackAll(m, sb.stmts, g, map[])
    case Left(_, _) =>
    case Go(g', tmps) => EvalSub(m, g', tmps, ExecAllCoded(m, sb.stmts, g, map[]).tmps, sb.next);
  }

  lemma SubNone()
    ensures Sub(map[], map[])
  {
  }

  /**
   A superblock that uses results of guarded calls returns if and only if its run is sound, and
   then what its statements do as coded; otherwise it reads a register that was never written.
   */
  lemma SoundExact(m: Machine, sb: SB, g: Guest, next: nat, g': Guest)
    requires WfLoose(m, sb)
    ensures Returns(m, EmitSB(m, sb), g, next, g') <==> Sound(m, sb, g) && Result(next, g') == InterpCoded(m, sb, g)
  {
    hide WfLoose, EmitSB, Sound, Returns, TrackSB, Dead;
    LooseRuns(m, sb, g);
    var f, r := EmitSB(m, sb), InterpCoded(m, sb, g);
    if Sound(m, sb, g) {
      SoundMeans(m, sb, g);
      if Returns(m, f, g, next, g') {
        OneResult(m, f, g, r, Result(next, g'));
      }
    } else {
      DeadReturns(m, f, g, next, g');
    }
  }

  lemma DeadReturns(m: Machine, f: seq<Block>, g: Guest, next: nat, g': Guest)
    requires Dead(m, f, Start(g))
    ensures !Returns(m, f, g, next, g')
  {
    hide Reach, Jammed, Step;
    var d :| Reach(m, f, Start(g), d) && Jammed(m, f, d);
    JammedStuck(m, f, d);
    StuckNever(m, f, Start(g), d, next, g');
  }

  /** With single-width compare and swap only: it returns the VEX result on the sound runs, and nothing otherwise. */
  lemma GuardedCallsExact(m: Machine, sb: SB, g: Guest, next: nat, g': Guest)
    requires WfLoose(m, sb) && SingleWidth(sb.stmts)
    ensures Returns(m, EmitSB(m, sb), g, next, g') <==> Sound(m, sb, g) && Result(next, g') == Interp(m, sb, g)
  {
    hide WfLoose, EmitSB, Sound, Returns;
    SoundExact(m, sb, g, next, g');
    SingleWidthAgrees(m, sb.stmts, g, map[]);
  }

  // ---- conditions that are simpler to check

  /** The call happens, if it has a result. */
  predicate CallHappens(m: Machine, s: Stmt, g: Guest, tmps: map<nat, Val>) {
    s.Dirty? && s.out.Some? ==> Eval(m, g, tmps, s.guard).n != 0
  }

  /** On the way through the statements every call with a result happens. */
  predicate CallsHappen(m: Machine, ss: seq<Stmt>, g: Guest, tmps: map<nat, Val>) {
    ss == [] ||
    (CallHappens(m, ss[0], g, tmps) &&
     match ExecCoded(m, ss[0], g, tmps)
     case Left(_, _) => true
     case Go(g', tmps') => CallsHappen(m, ss[1..], g', tmps'))
  }

  lemma HappensOne(m: Machine, s: Stmt, g: Guest, tmps: map<nat, Val>, sc: Scope)
    requires WfStmt(s, sc) && sc.tt.Keys <= tmps.Keys && CallHappens(m, s, g, tmps)
    ensures Continues(m, s, g, tmps) && Track(m, s, g, tmps) == ExecCoded(m, s, g, tmps)
    ensures ExecCoded(m, s, g, tmps).Go? ==> AfterCall(s, sc).tt.Keys <= ExecCoded(m, s, g, tmps).tmps.Keys
  {
    hide Eval, EvalAll, Proceeds, WfExprs, ExecCoded, After, DirtyVal, BitsOf, Aligned, Sized, WfArr;
    FullProceeds(m, s, g, tmps, sc);
    if s.Dirty? && s.out.Some? {
      HappensCall(m, s, g, tmps);
    } else if ExecCoded(m, s, g, tmps).Go? {
      AssignsScope(s, sc);
      AssignsTmps(m, s, g, tmps);
    }
  }

  lemma HappensCall(m: Machine, s: Stmt, g: Guest, tmps: map<nat, Val>)
    requires s.Dirty? && s.out.Some? && Eval(m, g, tmps, s.guard).n != 0
    ensures ExecCoded(m, s, g, tmps).Go? && ExecCoded(m, s, g, tmps).tmps.Keys == tmps.Keys + {s.out.value.tmp}
  {
    hide Eval, EvalAll, DirtyVal, BitsOf;
  }

  lemma {:induction false} HappenContinue(m: Machine, ss: seq<Stmt>, g: Guest, tmps: map<nat, Val>, sc: Scope)
    requires WfCalls(ss, sc) && sc.tt.Keys <= tmps.Keys && CallsHappen(m, ss, g, tmps)
    ensures AllContinue(m, ss, g, tmps) && TrackAll(m, ss, g, tmps) == ExecAllCoded(m, ss, g, tmps)
    ensures ExecAllCoded(m, ss, g, tmps).Go? ==> AfterCalls(ss, sc).tt.Keys <= ExecAllCoded(m, ss, g, tmps).tmps.Keys
    decreases |ss|
  {
    hide WfStmt, Continues, Track, ExecCoded, AfterCall, CallHappens;
    if ss != [] {
      HappensOne(m, ss[0], g, tmps, sc);
      match ExecCoded(m, ss[0], g, tmps)
      case Left(_, _) =>
      case Go(g', tmps') => HappenContinue(m, ss[1..], g', tmps', AfterCall(ss[0], sc));
    }
  }

  /** Where every guarded call with a result happens the run is sound. */
  lemma HappenSound(m: Machine, sb: SB, g: Guest)
    requires WfLoose(m, sb) && CallsHappen(m, sb.stmts, g, map[])
    ensures Sound(m, sb, g)
  {
    hide WfCalls, AllContinue, TrackAll, ExecAllCoded, CallsHappen, Defined, WfExpr, AfterCalls;
    var sc := Empty(m);
    HappenContinue(m, sb.stmts, g, map[], sc);
    match TrackAll(m, sb.stmts, g, map[])
    case Left(_, _) =>
    case Go(g', tmps) => FullDefined(m, g', tmps, sb.next, AfterCalls(sb.stmts, sc));
  }

  lemma CallsHappenExact(m: Machine, sb: SB, g: Guest, next: nat, g': Guest)
    requires WfLoose(m, sb) && CallsHappen(m, sb.stmts, g, map[]) && SingleWidth(sb.stmts)
    ensures Returns(m, EmitSB(m, sb), g, next, g') <==> Result(next, g') == Interp(m, sb, g)
  {
    hide *;
    HappenSound(m, sb, g);
    GuardedCallsExact(m, sb, g, next, g');
  }

  /** The superblock that calls a guarded helper and goes on at the address it gave. */
  function DirtySB(guard: Expr, f: nat, retTy: LTy, args: seq<Expr>, t: DirtyTmp): SB {
    SB([Dirty(guard, f, retTy, args, Some(t))], RdTmp(t.tmp), Boring)
  }

  /** It returns the VEX result on the guests on which the guard holds, and nothing on the others. */
  lemma GuardedDirtyExact(m: Machine, guard: Expr, f: nat, retTy: LTy, args: seq<Expr>, t: DirtyTmp, g: Guest, next: nat,
                          g': Guest)
    requires WfStmt(Dirty(guard, f, retTy, args, Some(t)), Empty(m)) && m.exitOff < TWO31
    ensures
      var sb := DirtySB(guard, f, retTy, args, t);
      Returns(m, EmitSB(m, sb), g, next, g') <==> Eval(m, g, map[], guard).n != 0 && Result(next, g') == Interp(m, sb, g)
  {
    hide *;
    DirtyLoose(m, guard, f, retTy, args, t);
    DirtySound(m, guard, f, retTy, args, t, g);
    GuardedCallsExact(m, DirtySB(guard, f, retTy, args, t), g, next, g');
  }

  lemma DirtyLoose(m: Machine, guard: Expr, f: nat, retTy: LTy, args: seq<Expr>, t: DirtyTmp)
    requires WfStmt(Dirty(guard, f, retTy, args, Some(t)), Empty(m)) && m.exitOff < TWO31
    ensures WfLoose(m, DirtySB(guard, f, retTy, args, t)) && SingleWidth(DirtySB(guard, f, retTy, args, t).stmts)
  {
    hide WfExprs;
    var st := Dirty(guard, f, retTy, args, Some(t));
    var sb, sc := DirtySB(guard, f, retTy, args, t), AfterCall(st, Empty(m));
    assert sb.stmts == [st] && |sb.stmts[1..]| == 0;
    assert WfCalls(sb.stmts[1..], sc) && AfterCalls(sb.stmts[1..], sc) == sc;
    assert AfterCalls(sb.stmts, Empty(m)) == sc;
    assert WfExpr(RdTmp(t.tmp), sc);
  }

  lemma DirtySound(m: Machine, guard: Expr, f: nat, retTy: LTy, args: seq<Expr>, t: DirtyTmp, g: Guest)
    requires WfStmt(Dirty(guard, f, retTy, args, Some(t)), Empty(m))
    ensures Sound(m, DirtySB(guard, f, retTy, args, t), g) <==> Eval(m, g, map[], guard).n != 0
  {
    hide Eval, EvalAll, ExecCoded, Proceeds, WfExpr, WfExprs, DirtyVal;
    var st := Dirty(guard, f, retTy, args, Some(t));
    var sb := DirtySB(guard, f, retTy, args, t);
    assert sb.stmts == [st] && [st][1..] == [];
    FullProceeds(m, st, g, map[], Empty(m));
    DirtyOutcome(m, st, g);
    var r := ExecCoded(m, st, g, map[]);
    assert Track(m, st, g, map[]) == r && Continues(m, st, g, map[]);
    assert TrackAll(m, [st][1..], r.g, r.tmps) == Go(r.g, r.tmps) && AllContinue(m, [st][1..], r.g, r.tmps);
    hide Track, Continues;
    assert TrackAll(m, [st], g, map[]) == r && AllContinue(m, [st], g, map[]);
    hide TrackAll, AllContinue;
    assert Sound(m, sb, g) <==> Defined(m, r.g, r.tmps, sb.next);
  }

  lemma DirtyOutcome(m: Machine, st: Stmt, g: Guest)
    requires st.Dirty? && st.out.Some?
    ensures
      var r := ExecCoded(m, st, g, map[]);
      r.Go? && (st.out.value.tmp in r.tmps <==> Eval(m, g, map[], st.guard).n != 0)
  {
    hide Eval, EvalAll, DirtyVal, BitsOf;
  }
}
