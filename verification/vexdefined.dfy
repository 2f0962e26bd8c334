/**
 Temporaries without a value: the result of a guarded helper call that did not happen. Which of
 them evaluation reads, given that an if-then-else runs one of its arms.
 */
module VexDefined {
  import opened Options
  import opened VexIR
  import opened VexWf

  /** Every temporary that evaluation reads has a value. */
  predicate Defined(m: Machine, g: Guest, tmps: map<nat, Val>, e: Expr)
    decreases e, 0
  {
    match e
    case RdTmp(t) => t in tmps
    case GetI(_, ix, _) => Defined(m, g, tmps, ix)
    case Op(_, _, args) => AllDefined(m, g, tmps, args)
    case Load(_, addr) => Defined(m, g, tmps, addr)
    case Mux0X(cond, expr0, exprX) =>
      Defined(m, g, tmps, cond) &&
      if Eval(m, g, tmps, cond).n == 0 then Defined(m, g, tmps, expr0) else Defined(m, g, tmps, exprX)
    case _ => true
  }

  predicate AllDefined(m: Machine, g: Guest, tmps: map<nat, Val>, es: seq<Expr>)
    decreases es, 1
  {
    es == [] || (Defined(m, g, tmps, es[0]) && AllDefined(m, g, tmps, es[1..]))
  }

  /** No instruction reads a temporary without a value; naming one takes no instruction. */
  predicate Emits(m: Machine, g: Guest, tmps: map<nat, Val>, e: Expr) {
    e.RdTmp? || Defined(m, g, tmps, e)
  }

  /** Nothing the statement executes reads a temporary without a value. */
  predicate Proceeds(m: Machine, s: Stmt, g: Guest, tmps: map<nat, Val>) {
    match s
    case Put(_, data) => Defined(m, g, tmps, data)
    case PutI(_, ix, _, data) => Defined(m, g, tmps, data) && Defined(m, g, tmps, ix)
    case WrTmp(_, data) => Defined(m, g, tmps, data)
    case Store(addr, data) => Defined(m, g, tmps, data) && Defined(m, g, tmps, addr)
    case StoreG(addr, data, guard) =>
      Defined(m, g, tmps, guard) &&
      (Eval(m, g, tmps, guard).n != 0 ==> Defined(m, g, tmps, addr) && Defined(m, g, tmps, data))
    case LoadG(_, _, addr, alt, guard) =>
      Defined(m, g, tmps, guard) && Emits(m, g, tmps, addr) && Emits(m, g, tmps, alt) &&
      if Eval(m, g, tmps, guard).n == 0 then Defined(m, g, tmps, alt) else Defined(m, g, tmps, addr)
    case CAS(_, addr, expdLo, dataLo, hi) =>
      if hi.None? then CasProceeds(m, g, tmps, addr, expdLo, dataLo)
      else CasDoubleProceeds(m, g, tmps, addr, expdLo, dataLo, hi.value)
    case Dirty(guard, _, _, args, _) =>
      Defined(m, g, tmps, guard) && (Eval(m, g, tmps, guard).n != 0 ==> AllDefined(m, g, tmps, args))
    case Exit(guard, _, _) => Defined(m, g, tmps, guard)
    case _ => true
  }

  predicate CasProceeds(m: Machine, g: Guest, tmps: map<nat, Val>, addr: Expr, expd: Expr, data: Expr) {
    var a, e := Eval(m, g, tmps, addr), Eval(m, g, tmps, expd);
    Defined(m, g, tmps, addr) && Defined(m, g, tmps, expd) && (e.n == MemVal(g, a, e.w).n ==> Defined(m, g, tmps, data))
  }

  /** The new value is evaluated again after the store of its low half. */
  predicate CasDoubleProceeds(m: Machine, g: Guest, tmps: map<nat, Val>, addr: Expr, expd: Expr, data: Expr, hi: CasHi) {
    var a, e, eHi := Eval(m, g, tmps, addr), Eval(m, g, tmps, expd), Eval(m, g, tmps, hi.expdHi);
    var lo, high := MemVal(g, a, e.w), MemVal(g, HiAddr(a, e.w), e.w);
    && Defined(m, g, tmps, addr) && Defined(m, g, tmps, expd) && Defined(m, g, tmps, hi.expdHi)
    && ((e.n == lo.n) == (eHi.n == high.n) ==> TwiceDefined(m, g, tmps, a, data))
  }

  predicate TwiceDefined(m: Machine, g: Guest, tmps: map<nat, Val>, a: Val, data: Expr) {
    Defined(m, g, tmps, data) && Defined(m, StoreVal(g, a, Eval(m, g, tmps, data)), tmps, data)
  }

  lemma DefinedMux(m: Machine, g: Guest, tmps: map<nat, Val>, e: Expr)
    requires e.Mux0X? && Defined(m, g, tmps, e)
    ensures Defined(m, g, tmps, e.cond)
    ensures if Eval(m, g, tmps, e.cond).n == 0 then Defined(m, g, tmps, e.expr0) else Defined(m, g, tmps, e.exprX)
  {
  }

  // ---- where every usable temporary has a value

  lemma {:induction false} FullDefined(m: Machine, g: Guest, tmps: map<nat, Val>, e: Expr, sc: Scope)
    requires WfExpr(e, sc) && sc.tt.Keys <= tmps.Keys
    ensures Defined(m, g, tmps, e)
    decreases e, 0
  {
    hide Eval, Aligned, WfArr, Sized;
    match e
    case GetI(_, ix, _) => FullDefined(m, g, tmps, ix, sc);
    case Op(_, _, args) => FullAll(m, g, tmps, args, sc);
    case Load(_, addr) => FullDefined(m, g, tmps, addr, sc);
    case Mux0X(cond, expr0, exprX) =>
      FullDefined(m, g, tmps, cond, sc);
      FullDefined(m, g, tmps, expr0, sc);
      FullDefined(m, g, tmps, exprX, sc);
    case _ =>
  }

  lemma {:induction false} FullAll(m: Machine, g: Guest, tmps: map<nat, Val>, es: seq<Expr>, sc: Scope)
    requires WfExprs(es, sc) && sc.tt.Keys <= tmps.Keys
    ensures AllDefined(m, g, tmps, es)
    decreases es, 1
  {
    if es != [] {
      FullDefined(m, g, tmps, es[0], sc);
      FullAll(m, g, tmps, es[1..], sc);
    }
  }

  lemma FullProceeds(m: Machine, s: Stmt, g: Guest, tmps: map<nat, Val>, sc: Scope)
    requires WfStmt(s, sc) && sc.tt.Keys <= tmps.Keys
    ensures Proceeds(m, s, g, tmps)
  {
    hide Eval, WfExpr, WfExprs, Defined, AllDefined, WfArr, Aligned, Sized, MemVal, HiAddr, StoreVal;
    match s
    case Put(_, data) => FullDefined(m, g, tmps, data, sc);
    case PutI(_, ix, _, data) =>
      FullDefined(m, g, tmps, data, sc);
      FullDefined(m, g, tmps, ix, sc);
    case WrTmp(_, data) => FullDefined(m, g, tmps, data, sc);
    case Store(addr, data) =>
      FullDefined(m, g, tmps, data, sc);
      FullDefined(m, g, tmps, addr, sc);
    case StoreG(addr, data, guard) =>
      FullDefined(m, g, tmps, guard, sc);
      FullDefined(m, g, tmps, addr, sc);
      FullDefined(m, g, tmps, data, sc);
    case LoadG(_, _, addr, alt, guard) =>
      FullDefined(m, g, tmps, guard, sc);
      FullDefined(m, g, tmps, addr, sc);
      FullDefined(m, g, tmps, alt, sc);
    case CAS(_, addr, expdLo, dataLo, hi) =>
      FullDefined(m, g, tmps, addr, sc);
      FullDefined(m, g, tmps, expdLo, sc);
      FullDefined(m, g, tmps, dataLo, sc);
      if hi.Some? {
        FullDefined(m, g, tmps, hi.value.expdHi, sc);
        FullDefined(m, StoreVal(g, Eval(m, g, tmps, addr), Eval(m, g, tmps, dataLo)), tmps, dataLo, sc);
      }
    case Dirty(guard, _, _, args, _) =>
      FullDefined(m, g, tmps, guard, sc);
      FullAll(m, g, tmps, args, sc);
    case Exit(guard, _, _) => FullDefined(m, g, tmps, guard, sc);
    case _ =>
  }
}
