/**
 What one superblock leaves behind: the kind of the exit it took, and the two statements
 whose emitted code does not always mean what VEX means, with the exact conditions.
 */
module BlockLaws {
  import opened Options
  import opened ExitKinds
  import opened Bits
  import opened VexIR
  import opened VexWf
  import opened VexCoded
  import opened LlvmIR
  import opened Builder
  import opened Lowering
  import opened Extension
  import opened StmtShape
  import opened Simulation
  import opened SimExpr
  import opened SimStmt
  import opened SimDirty
  import opened LowerCorrect
  import opened ContextLaws

  /** The temporaries hold values of the recorded widths, and the literal ones hold one. */
  predicate TypedTmps(tmps: map<nat, Val>, sc: Scope) {
    && sc.tt.Keys <= sc.used && sc.ones <= sc.used
    && (forall t :: t in sc.tt ==> t in tmps && tmps[t].w == BitsOf(sc.tt[t]))
    && (forall t :: t in sc.ones ==> t in tmps && tmps[t].n == 1)
  }

  lemma {:induction false} EvalTyped(m: Machine, g: Guest, tmps: map<nat, Val>, sc: Scope, e: Expr)
    requires TypedTmps(tmps, sc) && WfExpr(e, sc)
    ensures Eval(m, g, tmps, e).w == BitsOf(TyOf(e, sc.tt))
    decreases e
  {
    hide Read, Slot, MaskBytes;
    if e.Mux0X? {
      EvalTyped(m, g, tmps, sc, e.expr0);
      EvalTyped(m, g, tmps, sc, e.exprX);
    }
  }

  lemma LiteralIsOne(m: Machine, g: Guest, tmps: map<nat, Val>, sc: Scope, e: Expr)
    requires TypedTmps(tmps, sc) && LiteralOne(e, sc)
    ensures Eval(m, g, tmps, e).n == 1
  {
  }

  lemma AssignTyped(tmps: map<nat, Val>, sc: Scope, t: nat, ty: LTy, v: Val)
    requires TypedTmps(tmps, sc) && t !in sc.used && v.w == BitsOf(ty)
    ensures TypedTmps(tmps[t := v], Assign(sc, t, ty))
  {
  }

  lemma ExecTyped(m: Machine, s: Stmt, g: Guest, tmps: map<nat, Val>, sc: Scope)
    requires TypedTmps(tmps, sc) && WfStmt(s, sc) && Exec(m, s, g, tmps).Go?
    ensures TypedTmps(Exec(m, s, g, tmps).tmps, After(s, sc))
  {
    hide Read, Write, Slot, Eval, EvalAll, WfExpr, WfExprs, WfArr, LiteralOne, TypedTmps, PutVal, StoreVal, Pow2, SignExtend;
    match s
    case WrTmp(t, data) =>
      EvalTyped(m, g, tmps, sc, data);
      AssignTyped(tmps, sc, t, TyOf(data, sc.tt), Eval(m, g, tmps, data));
      if LiteralOne(data, sc) {
        LiteralIsOne(m, g, tmps, sc, data);
        OnesTyped(tmps, sc, t, TyOf(data, sc.tt), Eval(m, g, tmps, data));
      }
    case LoadG(cvt, dst, addr, alt, guard) =>
      EvalTyped(m, g, tmps, sc, alt);
      AssignTyped(tmps, sc, dst, LoadGResTy(cvt), Exec(m, s, g, tmps).tmps[dst]);
    case CAS(oldLo, addr, expdLo, dataLo, hi) =>
      var ty := TyOf(expdLo, sc.tt);
      EvalTyped(m, g, tmps, sc, expdLo);
      var lo := MemVal(g, Eval(m, g, tmps, addr), Eval(m, g, tmps, expdLo).w);
      AssignTyped(tmps, sc, oldLo, ty, lo);
      if hi.Some? {
        AssignTyped(tmps[oldLo := lo], Assign(sc, oldLo, ty), hi.value.oldHi, ty,
                    Exec(m, s, g, tmps).tmps[hi.value.oldHi]);
      }
    case Dirty(guard, f, retTy, args, out) =>
      if out.Some? {
        var t := out.value.tmp;
        if LiteralOne(guard, sc) {
          LiteralIsOne(m, g, tmps, sc, guard);
          AssignTyped(tmps, sc, t, DirtyTy(retTy, VexTy2LLVM(out.value.ty)), Exec(m, s, g, tmps).tmps[t]);
        } else {
          SkipTyped(tmps, sc, t, Exec(m, s, g, tmps).tmps);
        }
      }
    case _ =>
  }

  lemma OnesTyped(tmps: map<nat, Val>, sc: Scope, t: nat, ty: LTy, v: Val)
    requires TypedTmps(tmps, sc) && t !in sc.used && v.w == BitsOf(ty) && v.n == 1
    ensures TypedTmps(tmps[t := v], Assign(sc, t, ty).(ones := sc.ones + {t}))
  {
  }

  lemma SkipTyped(tmps: map<nat, Val>, sc: Scope, t: nat, tmps': map<nat, Val>)
    requires TypedTmps(tmps, sc) && t !in sc.used
    requires tmps' == tmps || (t in tmps' && tmps' == tmps[t := tmps'[t]])
    ensures TypedTmps(tmps', sc.(used := sc.used + {t}))
  {
  }

  // ---- the exit kind

  /** The exit byte in the context. */
  function ExitByte(m: Machine, g: Guest): nat {
    Read(g.ctx, m.exitOff, 1)
  }

  /** Helpers leave the exit byte alone. */
  ghost predicate HelpersSpare(m: Machine) {
    forall f, vs, g :: ExitByte(m, m.dirty(f, vs, g).g) == ExitByte(m, g)
  }

  /** So do the statements, which write registers below it: the bytes each can reach do not include it. */
  predicate Spares(m: Machine, s: Stmt, sc: Scope) {
    match s
    case Put(off, data) => !Within(m.exitOff, off, BytesOf(TyOf(data, sc.tt)))
    case PutI(arr, _, _, data) => !Within(m.exitOff, arr.base, arr.nElems * BytesOf(TyOf(data, sc.tt)))
    case _ => true
  }

  predicate SparesAll(m: Machine, ss: seq<Stmt>, sc: Scope) {
    ss == [] || (Spares(m, ss[0], sc) && SparesAll(m, ss[1..], After(ss[0], sc)))
  }

  lemma SetExitByte(m: Machine, g: Guest, kind: byte)
    ensures ExitByte(m, SetExit(m, g, kind)) == kind
  {
    ReadBack(g.ctx, m.exitOff, 1, kind);
    assert Pow2(8) == 256;
  }

  lemma ExecSpares(m: Machine, s: Stmt, g: Guest, tmps: map<nat, Val>, sc: Scope)
    requires TypedTmps(tmps, sc) && WfStmt(s, sc) && Spares(m, s, sc) && HelpersSpare(m)
    requires Exec(m, s, g, tmps).Go?
    ensures ExitByte(m, Exec(m, s, g, tmps).g) == ExitByte(m, g)
  {
    hide Read, Write, Slot, Eval, EvalAll, WfExpr, WfExprs, LiteralOne, TypedTmps, ExitGuest;
    match s
    case Put(off, data) =>
      EvalTyped(m, g, tmps, sc, data);
      var v := Eval(m, g, tmps, data);
      ReadElsewhere(g.ctx, off, v.w / 8, v.n, m.exitOff, 1);
    case PutI(arr, ix, bias, data) =>
      EvalTyped(m, g, tmps, sc, data);
      var v, i := Eval(m, g, tmps, data), Eval(m, g, tmps, ix);
      IndexedInside(arr, i, bias, v.w / 8);
      ReadElsewhere(g.ctx, SlotOff(arr, i, bias, v.w / 8), v.w / 8, v.n, m.exitOff, 1);
    case _ =>
  }

  /** The jump a run takes: that of the guarded exit by which it leaves, or that at the end of the block. */
  function JumpTaken(m: Machine, ss: seq<Stmt>, g: Guest, tmps: map<nat, Val>, end: JumpKind): JumpKind {
    if ss == [] then end
    else match Exec(m, ss[0], g, tmps)
      case Go(g', tmps') => JumpTaken(m, ss[1..], g', tmps', end)
      case Left(_, _) => if ss[0].Exit? then ss[0].jk else end
  }

  function Recorded(before: nat, kind: byte): nat {
    if kind == 0 then before else kind
  }

  lemma {:induction false} KindLeft(m: Machine, ss: seq<Stmt>, g: Guest, tmps: map<nat, Val>, sc: Scope, end: JumpKind)
    requires TypedTmps(tmps, sc) && WfStmts(ss, sc) && SparesAll(m, ss, sc) && HelpersSpare(m)
    ensures
      match ExecAll(m, ss, g, tmps)
      case Go(g', _) => ExitByte(m, g') == ExitByte(m, g) && JumpTaken(m, ss, g, tmps, end) == end
      case Left(_, g') => ExitByte(m, g') == Recorded(ExitByte(m, g), JumpByte(JumpTaken(m, ss, g, tmps, end)))
  {
    hide Exec, WfStmt, Spares, After, ExitByte, TypedTmps, HelpersSpare, JumpByte;
    if ss != [] {
      match Exec(m, ss[0], g, tmps)
      case Go(g', tmps') =>
        ExecTyped(m, ss[0], g, tmps, sc);
        ExecSpares(m, ss[0], g, tmps, sc);
        KindLeft(m, ss[1..], g', tmps', After(ss[0], sc), end);
      case Left(_, g') =>
        LeftByExit(m, ss[0], g, tmps);
    }
  }

  lemma LeftByExit(m: Machine, s: Stmt, g: Guest, tmps: map<nat, Val>)
    requires Exec(m, s, g, tmps).Left?
    ensures s.Exit? && ExitByte(m, Exec(m, s, g, tmps).g) == Recorded(ExitByte(m, g), JumpByte(s.jk))
  {
    hide Eval, EvalAll, ExitGuest, ExitByte;
    if s.Exit? {
      ExitGuestByte(m, g, s.jk);
    }
  }

  lemma ExitGuestByte(m: Machine, g: Guest, jk: JumpKind)
    ensures ExitByte(m, ExitGuest(m, g, jk)) == Recorded(ExitByte(m, g), JumpByte(jk))
  {
    hide Read, Write, JumpByte;
    SetExitByte(m, g, JumpByte(jk));
  }

  /** The jump by which a whole superblock leaves. */
  function JumpOf(m: Machine, sb: SB, g: Guest): JumpKind {
    JumpTaken(m, sb.stmts, g, map[], sb.jk)
  }

  /**
   The byte read back after a run of the emitted function tells the kind of the jump taken,
   except that ordinary jumps leave the byte as it was. So it is right whenever the byte was
   clear to begin with.
   */
  lemma ExitKindRecorded(m: Machine, sb: SB, g: Guest, next: nat, g': Guest)
    requires WfSB(m, sb) && SingleWidth(sb.stmts) && SparesAll(m, sb.stmts, Empty(m)) && HelpersSpare(m)
    requires Returns(m, EmitSB(m, sb), g, next, g')
    ensures
      var jump := JumpOf(m, sb, g);
      && ExitByte(m, g') == Recorded(ExitByte(m, g), JumpByte(jump))
      && (ExitByte(m, g) == 0 ==> Tells(ExitByte(m, g'), jump))
      && (Tells(ExitByte(m, g'), jump) <==> jump !in {Boring, NoRedir, ClientReq} || ExitByte(m, g) == 0)
  {
    hide EmitSB, Returns, ExitByte, ExecAll, Eval, WfStmts, SparesAll, HelpersSpare, WfExpr;
    LoweringExact(m, sb, g, next, g');
    KindLeft(m, sb.stmts, g, map[], Empty(m), sb.jk);
    match ExecAll(m, sb.stmts, g, map[])
    case Go(g1, _) => ExitGuestByte(m, g1, sb.jk);
    case Left(_, _) =>
  }

  /** The byte stands for the jump, and for no jump of another sort. */
  predicate Tells(b: nat, jump: JumpKind) {
    && (b == 0 <==> jump == Boring || jump == NoRedir || jump == ClientReq)
    && (b == 1 <==> jump == SigTRAP)
    && (b == 2 <==> jump == MapFail || jump == SigSEGV)
    && (b == 4 <==> jump == EmWarn || jump == NoDecode)
    && (b == 5 <==> jump == SysSyscall || jump == SysSysenter)
    && (b == 6 <==> jump == Call)
    && (b == 7 <==> jump == Ret)
    && (b == 8 <==> jump == Yield)
    && (b == 9 <==> jump == SysInt128)
  }

  // ---- double-width compare and swap

  predicate SameBytes(k: nat, x: nat, y: nat) {
    forall i :: 0 <= i < k ==> ByteAt(x, i) == ByteAt(y, i)
  }

  /** What a reader finds at j: bytes never written read as zero. */
  function ByteIn(m: Bytes, j: nat): nat {
    if j in m then m[j] else 0
  }

  /** The same bytes to any reader. */
  ghost predicate SameStore(m: Bytes, m': Bytes) {
    forall j: nat :: ByteIn(m, j) == ByteIn(m', j)
  }

  ghost predicate SameGuest(g: Guest, g': Guest) {
    SameStore(g.ctx, g'.ctx) && SameStore(g.mem, g'.mem)
  }

  lemma {:induction false} ReadSame(m: Bytes, m': Bytes, a: nat, k: nat)
    requires SameStore(m, m')
    ensures Read(m, a, k) == Read(m', a, k)
    decreases k
  {
    if k > 0 {
      assert ByteIn(m, a) == ByteIn(m', a);
      ReadSame(m, m', a + 1, k - 1);
    }
  }

  /** Expressions cannot tell such guests apart. */
  lemma {:induction false} EvalSame(m: Machine, g: Guest, g': Guest, tmps: map<nat, Val>, e: Expr)
    requires SameGuest(g, g')
    ensures Eval(m, g, tmps, e) == Eval(m, g', tmps, e)
    decreases e, 0
  {
    hide SameStore, Read;
    match e
    case Get(off, ty) => ReadSame(g.ctx, g'.ctx, off, BytesOf(VexTy2LLVM(ty)));
    case GetI(arr, ix, bias) =>
      EvalSame(m, g, g', tmps, ix);
      var k := BytesOf(VexTy2LLVM(arr.elemTy));
      ReadSame(g.ctx, g'.ctx, SlotOff(arr, Eval(m, g, tmps, ix), bias, k), k);
    case Load(lty, addr) =>
      EvalSame(m, g, g', tmps, addr);
      ReadSame(g.mem, g'.mem, Low64(Eval(m, g, tmps, addr).n), BytesOf(VexTy2LLVM(lty)));
    case Op(_, _, args) => EvalAllSame(m, g, g', tmps, args);
    case Mux0X(cond, expr0, exprX) =>
      EvalSame(m, g, g', tmps, cond);
      EvalSame(m, g, g', tmps, expr0);
      EvalSame(m, g, g', tmps, exprX);
    case _ =>
  }

  lemma {:induction false} EvalAllSame(m: Machine, g: Guest, g': Guest, tmps: map<nat, Val>, es: seq<Expr>)
    requires SameGuest(g, g')
    ensures EvalAll(m, g, tmps, es) == EvalAll(m, g', tmps, es)
    decreases es, 1
  {
    hide SameGuest, Eval;
    if es != [] {
      EvalSame(m, g, g', tmps, es[0]);
      EvalAllSame(m, g, g', tmps, es[1..]);
    }
  }

  /** What a write leaves at j. */
  lemma WriteByte(m: Bytes, a: nat, k: nat, n: nat, j: nat)
    ensures ByteIn(Write(m, a, k, n), j) == if Within(j, a, k) then ByteAt(n, j - a) else ByteIn(m, j)
  {
    hide Write, ByteAt;
    WriteLookup(m, a, k, n, j);
  }

  /** Writing two values leaves the same store exactly when their low bytes agree. */
  lemma WriteSame(m: Bytes, a: nat, k: nat, x: nat, y: nat)
    ensures SameStore(Write(m, a, k, x), Write(m, a, k, y)) <==> SameBytes(k, x, y)
  {
    hide Write, ByteAt;
    forall j: nat
      ensures ByteIn(Write(m, a, k, x), j) == if Within(j, a, k) then ByteAt(x, j - a) else ByteIn(m, j)
      ensures ByteIn(Write(m, a, k, y), j) == if Within(j, a, k) then ByteAt(y, j - a) else ByteIn(m, j)
    {
      WriteByte(m, a, k, x, j);
      WriteByte(m, a, k, y, j);
    }
    hide ByteIn;
    if SameStore(Write(m, a, k, x), Write(m, a, k, y)) {
      forall i | 0 <= i < k ensures ByteAt(x, i) == ByteAt(y, i) {
        assert Within(a + i, a, k);
        assert ByteIn(Write(m, a, k, x), a + i) == ByteIn(Write(m, a, k, y), a + i);
      }
    }
  }

  /** The store reads as x at a and as y at b; where the two overlap only y matters. */
  ghost predicate AlreadyThere(m: Bytes, a: nat, x: nat, b: nat, y: nat, k: nat) {
    && (forall j: nat :: Within(j, b, k) ==> ByteIn(m, j) == ByteAt(y, j - b))
    && (forall j: nat :: Within(j, a, k) && !Within(j, b, k) ==> ByteIn(m, j) == ByteAt(x, j - a))
  }

  lemma WriteTwiceNothing(m: Bytes, a: nat, x: nat, b: nat, y: nat, k: nat)
    ensures SameStore(Write(Write(m, a, k, x), b, k, y), m) <==> AlreadyThere(m, a, x, b, y, k)
  {
    hide Write, ByteAt;
    var w1 := Write(m, a, k, x);
    var w2 := Write(w1, b, k, y);
    forall j: nat
      ensures ByteIn(w2, j) ==
              if Within(j, b, k) then ByteAt(y, j - b) else if Within(j, a, k) then ByteAt(x, j - a) else ByteIn(m, j)
    {
      WriteByte(m, a, k, x, j);
      WriteByte(w1, b, k, y, j);
    }
    hide ByteIn;
  }

  /**
   When the coded double-width compare and swap does what VEX means: always if exactly one
   half compares equal; if both do, when the value stored in the high half, which is the low
   half of the new value evaluated again, has the bytes of the high half of the new value; if
   neither does, when the bytes stored are there already.
   */
  ghost predicate CasAgrees(m: Machine, g: Guest, tmps: map<nat, Val>, addr: Expr, expdLo: Expr, dataLo: Expr, hi: CasHi) {
    var a, e, d := Eval(m, g, tmps, addr), Eval(m, g, tmps, expdLo), Eval(m, g, tmps, dataLo);
    var aHi, k := HiAddr(a, e.w), e.w / 8;
    var eqLo := e.n == MemVal(g, a, e.w).n;
    var eqHi := Eval(m, g, tmps, hi.expdHi).n == MemVal(g, aHi, e.w).n;
    var d2 := Eval(m, StoreVal(g, a, d), tmps, dataLo);
    if eqLo && eqHi then SameBytes(k, d2.n, Eval(m, g, tmps, hi.dataHi).n)
    else if !eqLo && !eqHi then AlreadyThere(g.mem, Low64(a.n), d.n, Low64(aHi.n), d2.n, k)
    else true
  }

  lemma CasExact(m: Machine, g: Guest, tmps: map<nat, Val>, sc: Scope, oldLo: nat, addr: Expr, expdLo: Expr,
                 dataLo: Expr, hi: CasHi)
    requires TypedTmps(tmps, sc) && WfStmt(CAS(oldLo, addr, expdLo, dataLo, Some(hi)), sc)
    ensures
      var st := CAS(oldLo, addr, expdLo, dataLo, Some(hi));
      var coded, meant := ExecCoded(m, st, g, tmps), Exec(m, st, g, tmps);
      && coded.Go? && meant.Go? && coded.tmps == meant.tmps
      && coded.g.ctx == meant.g.ctx == g.ctx
      && (SameStore(coded.g.mem, meant.g.mem) <==> CasAgrees(m, g, tmps, addr, expdLo, dataLo, hi))
  {
    hide Write, ByteAt, Read, Eval, WfExpr, SameBytes, SameStore, AlreadyThere, Pow2, Low64, TypedTmps;
    var a, e, d := Eval(m, g, tmps, addr), Eval(m, g, tmps, expdLo), Eval(m, g, tmps, dataLo);
    var aHi, k := HiAddr(a, e.w), e.w / 8;
    var g1 := StoreVal(g, a, d);
    var d2, dHi := Eval(m, g1, tmps, dataLo), Eval(m, g, tmps, hi.dataHi);
    EvalTyped(m, g, tmps, sc, expdLo);
    EvalTyped(m, g, tmps, sc, dataLo);
    EvalTyped(m, g1, tmps, sc, dataLo);
    EvalTyped(m, g, tmps, sc, hi.dataHi);
    WriteSame(g1.mem, Low64(aHi.n), k, d2.n, dHi.n);
    WriteTwiceNothing(g.mem, Low64(a.n), d.n, Low64(aHi.n), d2.n, k);
    SameAsItself(g.mem);
    SameAsItself(Exec(m, CAS(oldLo, addr, expdLo, dataLo, Some(hi)), g, tmps).g.mem);
  }

  lemma SameAsItself(m: Bytes)
    ensures SameStore(m, m)
  {
  }

  lemma EndMem(m: Machine, g: Guest, jk: JumpKind)
    ensures ExitGuest(m, g, jk).mem == g.mem
  {
    hide Write;
  }

  lemma EndCtx(m: Machine, g: Guest, g': Guest, jk: JumpKind)
    requires g.ctx == g'.ctx
    ensures ExitGuest(m, g, jk).ctx == ExitGuest(m, g', jk).ctx
  {
    hide Write;
  }

  /** The function returns to next with a guest that no reader can tell from g'. */
  ghost predicate ReturnsLike(m: Machine, f: seq<Block>, g: Guest, next: nat, g': Guest) {
    exists h :: Returns(m, f, g, next, h) && SameGuest(h, g')
  }

  /** A superblock that is one double-width compare and swap: when its emitted function is right. */
  lemma CasBlockExact(m: Machine, sb: SB, g: Guest)
    requires WfSB(m, sb) && |sb.stmts| == 1 && sb.stmts[0].CAS? && sb.stmts[0].hi.Some?
    ensures
      var s, r := sb.stmts[0], Interp(m, sb, g);
      ReturnsLike(m, EmitSB(m, sb), g, r.next, r.g) <==>
      CasAgrees(m, g, map[], s.addr, s.expdLo, s.dataLo, s.hi.value)
  {
    hide EmitSB, Eval, WfExpr, ExitGuest, WfStmt, Exec, ExecCoded, CasAgrees, SameStore, Returns;
    var s := sb.stmts[0];
    CasExact(m, g, map[], Empty(m), s.oldLo, s.addr, s.expdLo, s.dataLo, s.hi.value);
    EmittedCodeRuns(m, sb, g);
    var r, c := Interp(m, sb, g), InterpCoded(m, sb, g);
    var f := EmitSB(m, sb);
    assert ExecAll(m, sb.stmts, g, map[]) == Exec(m, s, g, map[]);
    assert ExecAllCoded(m, sb.stmts, g, map[]) == ExecCoded(m, s, g, map[]);
    var meant, coded := Exec(m, s, g, map[]), ExecCoded(m, s, g, map[]);
    EndMem(m, meant.g, sb.jk);
    EndMem(m, coded.g, sb.jk);
    EndCtx(m, coded.g, meant.g, sb.jk);
    SameAsItself(c.g.ctx);
    SameAsItself(meant.g.ctx);
    if SameStore(coded.g.mem, meant.g.mem) {
      EvalSame(m, coded.g, meant.g, meant.tmps, sb.next);
      assert Returns(m, f, g, r.next, c.g) && SameGuest(c.g, r.g);
    }
    if ReturnsLike(m, f, g, r.next, r.g) {
      var h :| Returns(m, f, g, r.next, h) && SameGuest(h, r.g);
      OneResult(m, f, g, Result(r.next, h), c);
    }
  }

  lemma OneResult(m: Machine, f: seq<Block>, g: Guest, r: Result, c: Result)
    requires Returns(m, f, g, r.next, r.g) && Returns(m, f, g, c.next, c.g)
    ensures r == c
  {
    var n: nat :| Steps(m, f, Start(g), n) == Some(Done(r.next, r.g));
    var k: nat :| Steps(m, f, Start(g), k) == Some(Done(c.next, c.g));
    DoneUnique(m, f, Start(g), n, k);
  }

  /** Compare and swap of two 32-bit halves at address 0, expecting 1 and 1, storing 5 and 5. */
  const WORD_ONE := Const(U(32, 1))
  const WORD_FIVE := Const(U(32, 5))
  const ADDR_ZERO := Const(U(64, 0))
  const CAS_ONE_ONE: SB := SB([CAS(0, ADDR_ZERO, WORD_ONE, WORD_FIVE, Some(CasHi(1, WORD_ONE, WORD_FIVE)))], ADDR_ZERO, Boring)

  /**
   A concrete failure: memory is empty, so neither half compares equal and nothing should be
   stored, but the emitted function stores.
   */
  lemma CasStoresOnMismatch(m: Machine)
    requires !m.is32 && m.exitOff < TWO31
    ensures
      var g := Guest(map[], map[]);
      var r := Interp(m, CAS_ONE_ONE, g);
      WfSB(m, CAS_ONE_ONE) && r.g == g && !ReturnsLike(m, EmitSB(m, CAS_ONE_ONE), g, r.next, r.g)
  {
    hide EmitSB, CasAgrees, Interp, ReturnsLike;
    var g := Guest(map[], map[]);
    CasOneOneWf(m);
    CasOneOneDiffers(m, g);
    CasOneOneMeans(m, g);
    CasBlockExact(m, CAS_ONE_ONE, g);
  }

  lemma CasOneOneWf(m: Machine)
    requires !m.is32 && m.exitOff < TWO31
    ensures WfSB(m, CAS_ONE_ONE)
  {
  }

  lemma CasOneOneMeans(m: Machine, g: Guest)
    requires g == Guest(map[], map[])
    ensures Interp(m, CAS_ONE_ONE, g).g == g
  {
    var s := CAS_ONE_ONE.stmts[0];
    EmptyReads(0, 4);
    EmptyReads(4, 4);
    HiFour();
    assert Exec(m, s, g, map[]).Go? && Exec(m, s, g, map[]).g == g;
    assert ExecAll(m, CAS_ONE_ONE.stmts, g, map[]) == Exec(m, s, g, map[]) by {
      hide Exec;
      assert CAS_ONE_ONE.stmts[1..] == [];
    }
  }

  lemma CasOneOneDiffers(m: Machine, g: Guest)
    requires g == Guest(map[], map[])
    ensures !CasAgrees(m, g, map[], ADDR_ZERO, WORD_ONE, WORD_FIVE, CasHi(1, WORD_ONE, WORD_FIVE))
  {
    EmptyReads(0, 4);
    EmptyReads(4, 4);
    HiFour();
    assert Within(4, 4, 4);
  }

  lemma HiFour()
    ensures HiAddr(Val(64, 0), 32) == Val(64, 4) && Low64(4) == 4 && Low64(0) == 0
  {
    Pow32();
  }

  lemma {:induction false} EmptyReads(a: nat, k: nat)
    ensures Read(map[], a, k) == 0
    decreases k
  {
    if k > 0 {
      EmptyReads(a + 1, k - 1);
    }
  }
}
