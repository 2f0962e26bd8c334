/** Emission of expressions, statements and whole superblocks, as functions on the builder. */
module Lowering {
  import opened Options
  import opened ExitKinds
  import opened VexIR
  import opened LlvmIR
  import opened Builder

  /** The values of the temporaries so far. */
  type Vals = map<nat, Operand>

  function TmpVal(vals: Vals, t: nat): Operand {
    if t in vals then vals[t] else Imm(0, IntTy(0))
  }

  /** A 64-bit vector is turned into an integer before it meets the join. */
  function Flatten(b: Build, v: Operand): (r: (Build, Operand))
    ensures |r.0.blocks| == |b.blocks| && r.0.cur == b.cur && b.next <= r.0.next
  {
    if Flat(v.ty) == v.ty then (b, v)
    else (Emit(b, Cast(b.next, Flat(v.ty), BitCast, v)), Reg(b.next, Flat(v.ty)))
  }

  /** Blocks for the zero arm, the non-zero arm and the join. */
  function MuxOpen(b: Build): (r: Build)
    ensures |r.blocks| == |b.blocks| + 3 && r.cur == b.cur && r.next == b.next
  {
    NewBlock(NewBlock(NewBlock(b)))
  }

  /** Compare the condition with zero, branch, and enter the non-zero arm. */
  function MuxBranch(b: Build, c: Operand, zero: nat): (r: Build)
    requires zero + 1 < |b.blocks|
    ensures |r.blocks| == |b.blocks| && r.cur == zero + 1
  {
    var b1 := Emit(b, Arith(b.next, IntTy(1), ICmpEQ, c, Imm(0, c.ty)));
    MoveTo(Terminate(b1, CondBr(Reg(b.next, IntTy(1)), zero, zero + 1)), zero + 1)
  }

  /** End an arm with value v: jump to the join, and go on in block to. */
  function MuxClose(b: Build, v: Operand, merge: nat, to: nat): (r: (Build, Operand))
    requires to < |b.blocks|
    ensures |r.0.blocks| == |b.blocks| && r.0.cur == to
  {
    var (b1, fv) := Flatten(b, v);
    (MoveTo(Terminate(b1, Br(merge)), to), fv)
  }

  function MuxPhi(b: Build, zv: Operand, bz: nat, xv: Operand, bnz: nat): (r: (Build, Operand))
    ensures |r.0.blocks| == |b.blocks|
  {
    (Emit(b, Phi(b.next, zv.ty, zv, bz, xv, bnz)), Reg(b.next, zv.ty))
  }

  function EmitExpr(m: Machine, b: Build, vals: Vals, e: Expr): (r: (Build, Operand))
    ensures |b.blocks| <= |r.0.blocks|
    decreases e, 0
  {
    hide *;
    match e
    case Get(off, ty) => ReadCtx(b, off, VexTy2LLVM(ty))
    case GetI(arr, ix, bias) =>
      var (b1, i) := EmitExpr(m, b, vals, ix);
      ReadCtxIx(b1, arr, bias, i, VexTy2LLVM(arr.elemTy))
    case RdTmp(t) => (b, TmpVal(vals, t))
    case Op(f, rty, args) =>
      var (b1, os) := EmitExprs(m, b, vals, args);
      (Emit(b1, Apply(b1.next, rty, f, os)), Reg(b1.next, rty))
    case Load(lty, addr) =>
      var (b1, a) := EmitExpr(m, b, vals, addr);
      LoadMem(m, b1, a, VexTy2LLVM(lty))
    case Const(c) => (b, Imm(ConVal(c), ConTy(c)))
    case Mux0X(cond, expr0, exprX) =>
      // the non-zero arm is emitted first; b2.cur and b4.cur are where the arms ended
      var n := |b.blocks|;
      var (b1, c) := EmitExpr(m, MuxOpen(b), vals, cond);
      var (b2, x) := EmitExpr(m, MuxBranch(b1, c, n), vals, exprX);
      var (b3, xv) := MuxClose(b2, x, n + 2, n);
      var (b4, z) := EmitExpr(m, b3, vals, expr0);
      var (b5, zv) := MuxClose(b4, z, n + 2, n + 2);
      MuxPhi(b5, zv, b4.cur, xv, b2.cur)
  }

  function EmitExprs(m: Machine, b: Build, vals: Vals, es: seq<Expr>): (r: (Build, seq<Operand>))
    ensures |b.blocks| <= |r.0.blocks|
    decreases es, 1
  {
    if es == [] then (b, [])
    else
      var (b1, o) := EmitExpr(m, b, vals, es[0]);
      var (b2, os) := EmitExprs(m, b1, vals, es[1..]);
      (b2, [o] + os)
  }

  datatype Emitted = Emitted(b: Build, vals: Vals)

  function EmitLoadG(m: Machine, b: Build, cvt: LoadGOp, addr: Operand): (r: (Build, Operand))
    ensures |r.0.blocks| == |b.blocks| && r.0.cur == b.cur && b.next <= r.0.next
  {
    var (b1, v) := LoadMem(m, b, addr, LoadGTy(cvt));
    match cvt
    case Ident32 => (b1, v)
    case IdentV128 => (b1, v)
    case Cvt8Uto32 => (Emit(b1, Cast(b1.next, IntTy(32), ZExt, v)), Reg(b1.next, IntTy(32)))
    case Cvt16Uto32 => (Emit(b1, Cast(b1.next, IntTy(32), ZExt, v)), Reg(b1.next, IntTy(32)))
    case Cvt8Sto32 => (Emit(b1, Cast(b1.next, IntTy(32), SExt, v)), Reg(b1.next, IntTy(32)))
    case Cvt16Sto32 => (Emit(b1, Cast(b1.next, IntTy(32), SExt, v)), Reg(b1.next, IntTy(32)))
  }

  /** The helper call proper, and the cast of its result to the temporary's type. */
  function EmitCall(m: Machine, b: Build, vals: Vals, f: nat, retTy: LTy, args: seq<Expr>,
                    out: Option<DirtyTmp>): (r: Emitted)
    ensures |b.blocks| <= |r.b.blocks|
  {
    hide *;
    var (b1, os) := EmitExprs(m, b, vals, args);
    var b2 := Emit(b1, CallDirty(b1.next, retTy, f, os));
    var ret := Reg(b1.next, retTy);
    if out.None? then Emitted(b2, vals)
    else
      var to := VexTy2LLVM(out.value.ty);
      var t := out.value.tmp;
      if BitsOf(retTy) < BitsOf(to) then
        Emitted(Emit(b2, Cast(b2.next, to, ZExt, ret)), vals[t := Reg(b2.next, to)])
      else if BitsOf(retTy) > BitsOf(to) then
        Emitted(Emit(b2, Cast(b2.next, to, Trunc, ret)), vals[t := Reg(b2.next, to)])
      else Emitted(b2, vals[t := ret])
  }

  /** Branch to a new block when o holds and fall through to another new block when not. */
  function Split(b: Build, o: Operand): (r: Build)
    ensures |r.blocks| == |b.blocks| + 2 && r.cur == b.cur && r.next == b.next
  {
    Terminate(NewBlock(NewBlock(b)), CondBr(o, |b.blocks|, |b.blocks| + 1))
  }

  /** Close the block and go on in block k. */
  function Join(b: Build, k: nat): (r: Build)
    requires k < |b.blocks|
    ensures |r.blocks| == |b.blocks| && r.cur == k && r.next == b.next
  {
    MoveTo(Terminate(b, Br(k)), k)
  }

  function EmitCasSingle(m: Machine, b: Build, vals: Vals, oldLo: nat, addr: Expr, expd: Expr, data: Expr): Emitted {
    hide *;
    var (b1, a) := EmitExpr(m, b, vals, addr);
    var (b2, e) := EmitExpr(m, b1, vals, expd);
    var (b3, was) := LoadMem(m, b2, a, e.ty);
    var yes, merge := |b3.blocks|, |b3.blocks| + 1;
    var b4 := Emit(b3, Arith(b3.next, IntTy(1), ICmpEQ, e, was));
    var b5 := Split(b4, Reg(b3.next, IntTy(1)));
    var (b6, d) := EmitExpr(m, MoveTo(b5, yes), vals, data);
    Emitted(Join(StoreMem(m, b6, a, d), merge), vals[oldLo := was])
  }

  /** The high half of a compare and swap: its address, its old value, and the combined comparison. */
  datatype CasHigh = CasHigh(b: Build, aHi: Operand, wasHi: Operand, cmp: Operand)

  /** The two comparisons are themselves compared for equality. */
  function EmitCasHigh(m: Machine, b: Build, vals: Vals, a: Operand, e: Operand, was: Operand, expdHi: Expr): (r: CasHigh)
    ensures |b.blocks| <= |r.b.blocks|
  {
    hide *;
    var i1 := IntTy(1);
    var (b1, eHi) := EmitExpr(m, b, vals, expdHi);
    var b2 := Emit(b1, Arith(b1.next, a.ty, Add, a, Imm(BytesOf(e.ty), a.ty)));
    var aHi := Reg(b1.next, a.ty);
    var (b3, wasHi) := LoadMem(m, b2, aHi, e.ty);
    var b4 := Emit(b3, Arith(b3.next, i1, ICmpEQ, e, was));
    var b5 := Emit(b4, Arith(b4.next, i1, ICmpEQ, eHi, wasHi));
    var b6 := Emit(b5, Arith(b5.next, i1, ICmpEQ, Reg(b3.next, i1), Reg(b4.next, i1)));
    CasHigh(b6, aHi, wasHi, Reg(b5.next, i1))
  }

  /** Double-width compare and swap as coded: the low half of the new value is emitted and stored twice. */
  function EmitCasDouble(m: Machine, b: Build, vals: Vals, oldLo: nat, addr: Expr, expd: Expr, data: Expr,
                         hi: CasHi): Emitted
  {
    hide *;
    var (b1, a) := EmitExpr(m, b, vals, addr);
    var (b2, e) := EmitExpr(m, b1, vals, expd);
    var (b3, was) := LoadMem(m, b2, a, e.ty);
    var h := EmitCasHigh(m, b3, vals, a, e, was, hi.expdHi);
    var n := |h.b.blocks|;
    var (b4, d) := EmitExpr(m, MoveTo(Split(h.b, h.cmp), n), vals, data);
    var (b5, d2) := EmitExpr(m, StoreMem(m, b4, a, d), vals, data);
    Emitted(Join(StoreMem(m, b5, h.aHi, d2), n + 1), vals[oldLo := was][hi.oldHi := h.wasHi])
  }

  function EmitStoreG(m: Machine, b: Build, vals: Vals, addr: Expr, data: Expr, guard: Expr): Build {
    hide *;
    var (b1, g) := EmitExpr(m, b, vals, guard);
    var n := |b1.blocks|;
    var (b2, a) := EmitExpr(m, MoveTo(Split(b1, g), n), vals, addr);
    var (b3, d) := EmitExpr(m, b2, vals, data);
    Join(StoreMem(m, b3, a, d), n + 1)
  }

  /** Three new blocks: guard holds, guard fails, join; the first one is entered. */
  function SplitThree(b: Build, o: Operand): (r: Build)
    ensures |r.blocks| == |b.blocks| + 3 && r.cur == |b.blocks| && r.next == b.next
  {
    MoveTo(Terminate(NewBlock(NewBlock(NewBlock(b))), CondBr(o, |b.blocks|, |b.blocks| + 1)), |b.blocks|)
  }

  /** Both ways into the join of a guarded load, and the join itself. */
  function JoinLoad(b: Build, v: Operand, alt: Operand, yes: nat): (r: (Build, Operand))
    requires yes + 2 < |b.blocks|
    ensures |r.0.blocks| == |b.blocks|
  {
    var b1 := Join(MoveTo(Terminate(b, Br(yes + 2)), yes + 1), yes + 2);
    (Emit(b1, Phi(b1.next, v.ty, v, yes, alt, yes + 1)), Reg(b1.next, v.ty))
  }

  function EmitGuardedLoad(m: Machine, b: Build, vals: Vals, cvt: LoadGOp, dst: nat, addr: Expr, alt: Expr,
                           guard: Expr): Emitted
  {
    hide *;
    var (b1, g) := EmitExpr(m, b, vals, guard);
    var (b2, a) := EmitExpr(m, b1, vals, addr);
    var (b3, av) := EmitExpr(m, b2, vals, alt);
    var (b4, v) := EmitLoadG(m, SplitThree(b3, g), cvt, a);
    var (b5, r) := JoinLoad(b4, v, av, |b3.blocks|);
    Emitted(b5, vals[dst := r])
  }

  predicate IsOne(o: Operand) {
    o.Imm? && o.n == 1 && o.ty.IntTy?
  }

  function EmitDirty(m: Machine, b: Build, vals: Vals, guard: Expr, f: nat, retTy: LTy, args: seq<Expr>,
                     out: Option<DirtyTmp>): Emitted
  {
    hide *;
    var (b1, g) := EmitExpr(m, b, vals, guard);
    if IsOne(g) then EmitCall(m, b1, vals, f, retTy, args, out)
    else
      var n := |b1.blocks|;
      var c := EmitCall(m, MoveTo(Split(b1, g), n), vals, f, retTy, args, out);
      Emitted(Join(c.b, n + 1), c.vals)
  }

  /** The taken side of a guarded exit: leave the kind behind unless it is boring, and return. */
  function EmitLeave(m: Machine, b: Build, jk: JumpKind, dst: nat, to: nat): (r: Build)
    requires to < |b.blocks|
    ensures |r.blocks| == |b.blocks| && r.cur == to
  {
    var b1 := if jk == Boring || StmtExitType(jk).None? then b else SetExitType(m, b, StmtExitType(jk).value);
    MoveTo(Terminate(b1, RetVal(Imm(Low64(dst), IntTy(64)))), to)
  }

  function EmitExit(m: Machine, b: Build, vals: Vals, guard: Expr, jk: JumpKind, dst: nat): Build {
    hide *;
    var n := |b.blocks|;
    var (b1, g) := EmitExpr(m, NewBlock(NewBlock(b)), vals, guard);
    EmitLeave(m, MoveTo(Terminate(b1, CondBr(g, n, n + 1)), n), jk, dst, n + 1)
  }

  function EmitStmt(m: Machine, s: Emitted, st: Stmt): Emitted {
    hide *;
    var b, vals := s.b, s.vals;
    match st
    case NoOp => s
    case IMark(_, _) => s
    case AbiHint => s
    case MBE => Emitted(Emit(b, Fence(b.next)), vals)
    case Put(off, data) =>
      var (b1, v) := EmitExpr(m, b, vals, data);
      Emitted(WriteCtx(b1, off, v), vals)
    case PutI(arr, ix, bias, data) =>
      var (b1, v) := EmitExpr(m, b, vals, data);
      var (b2, i) := EmitExpr(m, b1, vals, ix);
      Emitted(WriteCtxIx(b2, arr, bias, i, v), vals)
    case WrTmp(t, data) =>
      var (b1, v) := EmitExpr(m, b, vals, data);
      Emitted(b1, vals[t := v])
    case Store(addr, data) =>
      var (b1, d) := EmitExpr(m, b, vals, data);
      var (b2, a) := EmitExpr(m, b1, vals, addr);
      Emitted(StoreMem(m, b2, a, d), vals)
    case StoreG(addr, data, guard) => Emitted(EmitStoreG(m, b, vals, addr, data, guard), vals)
    case LoadG(cvt, dst, addr, alt, guard) => EmitGuardedLoad(m, b, vals, cvt, dst, addr, alt, guard)
    case CAS(oldLo, addr, expdLo, dataLo, hi) =>
      if hi.None? then EmitCasSingle(m, b, vals, oldLo, addr, expdLo, dataLo)
      else EmitCasDouble(m, b, vals, oldLo, addr, expdLo, dataLo, hi.value)
    case Dirty(guard, f, retTy, args, out) => EmitDirty(m, b, vals, guard, f, retTy, args, out)
    case Exit(guard, jk, dst) => Emitted(EmitExit(m, b, vals, guard, jk, dst), vals)
  }

  function EmitStmts(m: Machine, s: Emitted, ss: seq<Stmt>): Emitted
    decreases |ss|
  {
    if ss == [] then s else EmitStmts(m, EmitStmt(m, s, ss[0]), ss[1..])
  }

  /** The function emitted for a superblock. */
  function EmitSB(m: Machine, sb: SB): seq<Block> {
    var s := EmitStmts(m, Emitted(Begin, map[]), sb.stmts);
    var (b1, v) := EmitExpr(m, s.b, s.vals, sb.next);
    var kind := BlockExitType(sb.jk);
    var b2 := if kind.None? || kind.value == GE_IGNORE then b1 else SetExitType(m, b1, kind.value);
    Terminate(b2, RetVal(v)).blocks
  }
}
