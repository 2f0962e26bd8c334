/**
 What the emitter demands of a superblock: its assertions, plus the alignment and typing
 that the code takes for granted. Everything here can be read off the block.
 */
module VexWf {
  import opened Options
  import opened Bits
  import opened VexIR

  const TWO31: nat := 0x8000_0000

  /**
   Temporaries with a usable value, all temporaries assigned so far, the address width, and
   the temporaries that stand for a literal one.
   */
  datatype Scope = Scope(tt: map<nat, LTy>, used: set<nat>, aw: nat, ones: set<nat>)

  predicate Sized(ty: LTy) {
    !ty.PtrTy? && BitsOf(ty) > 0 && BitsOf(ty) % 8 == 0
  }

  /** An access of type ty at byte offset off, counted in units of ty. */
  predicate Aligned(off: nat, ty: LTy) {
    Sized(ty) && off % BytesOf(ty) == 0 && off / BytesOf(ty) < TWO31
  }

  /** The 32-bit sum of index and bias may wrap; then the remainder is only right for such arrays. */
  predicate IndexExact(nElems: nat, bias: int) {
    nElems > 0 && (bias == 0 || TWO32 % nElems == 0)
  }

  predicate WfArr(arr: RegArray, bias: int, ty: LTy) {
    Aligned(arr.base, ty) && IndexExact(arr.nElems, bias) && arr.base / BytesOf(ty) + arr.nElems <= TWO31
  }

  predicate WfExpr(e: Expr, sc: Scope)
    decreases e, 0
  {
    match e
    case Get(off, ty) => Aligned(off, VexTy2LLVM(ty))
    case GetI(arr, ix, bias) =>
      WfArr(arr, bias, VexTy2LLVM(arr.elemTy)) && WfExpr(ix, sc) && TyOf(ix, sc.tt) == IntTy(32)
    case RdTmp(t) => t in sc.tt && !sc.tt[t].PtrTy?
    case Op(_, rty, args) => !rty.PtrTy? && WfExprs(args, sc)
    case Load(lty, addr) => Sized(VexTy2LLVM(lty)) && WfAddr(addr, sc)
    case Const(c) => true
    case Mux0X(cond, expr0, exprX) =>
      WfExpr(cond, sc) && WfExpr(expr0, sc) && WfExpr(exprX, sc) &&
      Flat(TyOf(expr0, sc.tt)) == Flat(TyOf(exprX, sc.tt))
  }

  lemma WfMux(e: Expr, sc: Scope)
    requires e.Mux0X? && WfExpr(e, sc)
    ensures WfExpr(e.cond, sc) && WfExpr(e.expr0, sc) && WfExpr(e.exprX, sc)
    ensures Flat(TyOf(e.expr0, sc.tt)) == Flat(TyOf(e.exprX, sc.tt))
    ensures TyOf(e, sc.tt) == Flat(TyOf(e.expr0, sc.tt))
  {
  }

  predicate WfExprs(es: seq<Expr>, sc: Scope)
    decreases es, 1
  {
    es == [] || (WfExpr(es[0], sc) && WfExprs(es[1..], sc))
  }

  predicate WfAddr(e: Expr, sc: Scope)
    decreases e, 1
  {
    WfExpr(e, sc) && TyOf(e, sc.tt) == IntTy(sc.aw)
  }

  predicate WfGuard(e: Expr, sc: Scope) {
    WfExpr(e, sc) && TyOf(e, sc.tt) == IntTy(1)
  }

  /** The guard the emitter recognises as always true: a literal one. */
  predicate LiteralOne(e: Expr, sc: Scope) {
    (e.Const? && e.c.U? && e.c.n == 1) || (e.RdTmp? && e.tmp in sc.ones)
  }

  predicate WfStmt(s: Stmt, sc: Scope) {
    match s
    case NoOp => true
    case IMark(_, _) => true
    case AbiHint => true
    case MBE => true
    case Put(off, data) => WfExpr(data, sc) && Aligned(off, TyOf(data, sc.tt))
    case PutI(arr, ix, bias, data) =>
      WfExpr(data, sc) && WfArr(arr, bias, TyOf(data, sc.tt)) && WfExpr(ix, sc) && TyOf(ix, sc.tt) == IntTy(32)
    case WrTmp(t, data) => WfExpr(data, sc) && t !in sc.used
    case Store(addr, data) => WfAddr(addr, sc) && WfExpr(data, sc) && Sized(TyOf(data, sc.tt))
    case StoreG(addr, data, guard) =>
      WfGuard(guard, sc) && WfAddr(addr, sc) && WfExpr(data, sc) && Sized(TyOf(data, sc.tt))
    case LoadG(cvt, dst, addr, alt, guard) =>
      WfGuard(guard, sc) && WfAddr(addr, sc) && WfExpr(alt, sc) &&
      TyOf(alt, sc.tt) == LoadGResTy(cvt) && dst !in sc.used
    case CAS(oldLo, addr, expdLo, dataLo, hi) =>
      var ty := TyOf(expdLo, sc.tt);
      WfAddr(addr, sc) && WfExpr(expdLo, sc) && WfExpr(dataLo, sc) &&
      Sized(ty) && TyOf(dataLo, sc.tt) == ty && oldLo !in sc.used &&
      (hi.Some? ==> WfCasHi(hi.value, sc, ty) && hi.value.oldHi != oldLo)
    case Dirty(guard, _, retTy, args, out) =>
      WfGuard(guard, sc) && WfExprs(args, sc) && !retTy.PtrTy? && (out.Some? ==> out.value.tmp !in sc.used)
    case Exit(guard, jk, _) => WfGuard(guard, sc) && StmtExitType(jk).Some?
  }

  predicate WfCasHi(hi: CasHi, sc: Scope, ty: LTy) {
    WfExpr(hi.expdHi, sc) && TyOf(hi.expdHi, sc.tt) == ty &&
    WfExpr(hi.dataHi, sc) && TyOf(hi.dataHi, sc.tt) == ty && hi.oldHi !in sc.used
  }

  /** A helper result of the right size is stored as it is. */
  function DirtyTy(from: LTy, to: LTy): LTy {
    if BitsOf(from) == BitsOf(to) then from else to
  }

  function Assign(sc: Scope, t: nat, ty: LTy): Scope {
    sc.(tt := sc.tt[t := ty], used := sc.used + {t})
  }

  /**
   The scope after s. A guarded helper call leaves its temporary assigned but unusable:
   the emitter defines the value only on the path where the guard held.
   */
  function After(s: Stmt, sc: Scope): Scope {
    match s
    case WrTmp(t, data) =>
      var sc' := Assign(sc, t, TyOf(data, sc.tt));
      if LiteralOne(data, sc) then sc'.(ones := sc.ones + {t}) else sc'
    case LoadG(cvt, dst, _, _, _) => Assign(sc, dst, LoadGResTy(cvt))
    case CAS(oldLo, _, expdLo, _, hi) =>
      var ty := TyOf(expdLo, sc.tt);
      if hi.None? then Assign(sc, oldLo, ty) else Assign(Assign(sc, oldLo, ty), hi.value.oldHi, ty)
    case Dirty(guard, _, retTy, _, out) =>
      if out.None? then sc
      else if LiteralOne(guard, sc) then Assign(sc, out.value.tmp, DirtyTy(retTy, VexTy2LLVM(out.value.ty)))
      else sc.(used := sc.used + {out.value.tmp})
    case _ => sc
  }

  predicate WfStmts(ss: seq<Stmt>, sc: Scope) {
    ss == [] || (WfStmt(ss[0], sc) && WfStmts(ss[1..], After(ss[0], sc)))
  }

  function AfterAll(ss: seq<Stmt>, sc: Scope): Scope {
    if ss == [] then sc else AfterAll(ss[1..], After(ss[0], sc))
  }

  /** Nothing assigned yet; addresses are as wide as the guest says. */
  function Empty(m: Machine): Scope {
    Scope(map[], {}, if m.is32 then 32 else 64, {})
  }

  predicate WfSB(m: Machine, sb: SB) {
    WfStmts(sb.stmts, Empty(m)) &&
    WfExpr(sb.next, AfterAll(sb.stmts, Empty(m))) &&
    BlockExitType(sb.jk).Some? &&
    m.exitOff < TWO31
  }

  /** No double-width compare and swap anywhere in the block. */
  predicate SingleWidth(ss: seq<Stmt>) {
    forall s :: s in ss ==> s.CAS? ==> s.hi.None?
  }
}
