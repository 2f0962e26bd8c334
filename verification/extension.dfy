/**
 Emission only ever appends: what is already in the function stays as it is, and every block
 that emission opens is closed again, except the one it ends in.
 */
module Extension {
  import opened VexIR
  import opened LlvmIR
  import opened Builder
  import opened Lowering

  predicate Open(b: Build) {
    b.blocks[b.cur].term == NoTerm
  }

  /** b' continues b, and nothing but b's insertion point and new blocks has changed. */
  predicate Ext(b: Build, b': Build) {
    && Grow(b.blocks, b'.blocks)
    && b.next <= b'.next
    && (b'.cur == b.cur || |b.blocks| <= b'.cur)
    && (forall k :: 0 <= k < |b.blocks| && k != b.cur ==> b'.blocks[k] == b.blocks[k])
  }

  lemma ExtRefl(b: Build)
    ensures Ext(b, b)
  {
  }

  lemma ExtTrans(a: Build, b: Build, c: Build)
    requires Ext(a, b) && Ext(b, c)
    ensures Ext(a, c)
  {
    GrowTrans(a.blocks, b.blocks, c.blocks);
  }

  lemma ExtKeeps(a: Build, b: Build, k: nat)
    requires Ext(a, b) && k < |a.blocks| && k != a.cur
    ensures |a.blocks| <= |b.blocks| && b.blocks[k] == a.blocks[k]
  {
  }

  lemma ExtEmit(b: Build, i: Instr)
    requires Open(b)
    ensures Ext(b, Emit(b, i)) && Open(Emit(b, i))
  {
  }

  lemma ExtNewBlock(b: Build)
    ensures Ext(b, NewBlock(b)) && (Open(b) ==> Open(NewBlock(b)))
    ensures NewBlock(b).blocks[|b.blocks|] == Block([], NoTerm, Avail(b))
    ensures forall k :: 0 <= k < |b.blocks| ==> NewBlock(b).blocks[k] == b.blocks[k]
    ensures Avail(NewBlock(b)) == Avail(b)
  {
  }

  /** Closing the current block and going on in an open block that a did not have. */
  lemma ExtGoto(a: Build, b: Build, t: Term, k: nat)
    requires Ext(a, b) && Open(b) && |a.blocks| <= k < |b.blocks| && k != b.cur
    requires b.blocks[k].term == NoTerm
    ensures Ext(a, MoveTo(Terminate(b, t), k)) && Open(MoveTo(Terminate(b, t), k))
    ensures forall j :: 0 <= j < |b.blocks| && j != b.cur ==> Terminate(b, t).blocks[j] == b.blocks[j]
  {
    forall j | 0 <= j < |a.blocks| ensures BlockGrow(a.blocks[j], Terminate(b, t).blocks[j]) {
      assert BlockGrow(a.blocks[j], b.blocks[j]);
    }
  }

  lemma ExtTyGEP(b: Build, off: Operand, ty: LTy)
    requires Open(b)
    ensures Ext(b, GetCtxTyGEP(b, off, ty).0) && Open(GetCtxTyGEP(b, off, ty).0)
  {
  }

  lemma ExtByteGEP(b: Build, off: nat, ty: LTy)
    requires Open(b)
    ensures Ext(b, GetCtxByteGEP(b, off, ty).0) && Open(GetCtxByteGEP(b, off, ty).0)
  {
    ExtTyGEP(b, Imm(Units(off, ty), IntTy(32)), ty);
  }

  lemma ExtReadCtx(b: Build, off: nat, ty: LTy)
    requires Open(b)
    ensures Ext(b, ReadCtx(b, off, ty).0) && Open(ReadCtx(b, off, ty).0)
  {
    hide GetCtxByteGEP;
    ExtByteGEP(b, off, ty);
    var (b1, p) := GetCtxByteGEP(b, off, ty);
    ExtEmit(b1, Ld(b1.next, ty, p));
    ExtTrans(b, b1, ReadCtx(b, off, ty).0);
  }

  lemma ExtWriteCtx(b: Build, off: nat, v: Operand)
    requires Open(b)
    ensures Ext(b, WriteCtx(b, off, v)) && Open(WriteCtx(b, off, v))
  {
    hide GetCtxByteGEP;
    ExtByteGEP(b, off, v.ty);
    var (b1, p) := GetCtxByteGEP(b, off, v.ty);
    ExtEmit(b1, St(b1.next, v, p));
    ExtTrans(b, b1, WriteCtx(b, off, v));
  }

  lemma ExtIndexOffset(b: Build, arr: RegArray, bias: int, ix: Operand, ty: LTy)
    requires Open(b)
    ensures Ext(b, IndexOffset(b, arr, bias, ix, ty).0) && Open(IndexOffset(b, arr, bias, ix, ty).0)
  {
  }

  lemma ExtReadCtxIx(b: Build, arr: RegArray, bias: int, ix: Operand, ty: LTy)
    requires Open(b)
    ensures Ext(b, ReadCtxIx(b, arr, bias, ix, ty).0) && Open(ReadCtxIx(b, arr, bias, ix, ty).0)
  {
    hide IndexOffset, GetCtxTyGEP;
    ExtIndexOffset(b, arr, bias, ix, ty);
    var (b1, off) := IndexOffset(b, arr, bias, ix, ty);
    ExtTyGEP(b1, off, ty);
    var (b2, p) := GetCtxTyGEP(b1, off, ty);
    ExtEmit(b2, Ld(b2.next, ty, p));
    ExtTrans(b, b1, b2);
    ExtTrans(b, b2, ReadCtxIx(b, arr, bias, ix, ty).0);
  }

  lemma ExtWriteCtxIx(b: Build, arr: RegArray, bias: int, ix: Operand, v: Operand)
    requires Open(b)
    ensures Ext(b, WriteCtxIx(b, arr, bias, ix, v)) && Open(WriteCtxIx(b, arr, bias, ix, v))
  {
    hide IndexOffset, GetCtxTyGEP;
    ExtIndexOffset(b, arr, bias, ix, v.ty);
    var (b1, off) := IndexOffset(b, arr, bias, ix, v.ty);
    ExtTyGEP(b1, off, v.ty);
    var (b2, p) := GetCtxTyGEP(b1, off, v.ty);
    ExtEmit(b2, St(b2.next, v, p));
    ExtTrans(b, b1, b2);
    ExtTrans(b, b2, WriteCtxIx(b, arr, bias, ix, v));
  }

  lemma ExtHostAddr(m: Machine, b: Build, addr: Operand, ty: LTy)
    requires Open(b)
    ensures Ext(b, HostAddr(m, b, addr, ty).0) && Open(HostAddr(m, b, addr, ty).0)
  {
  }

  lemma ExtLoadMem(m: Machine, b: Build, addr: Operand, ty: LTy)
    requires Open(b)
    ensures Ext(b, LoadMem(m, b, addr, ty).0) && Open(LoadMem(m, b, addr, ty).0)
  {
    hide HostAddr;
    ExtHostAddr(m, b, addr, ty);
    var (b1, p) := HostAddr(m, b, addr, ty);
    ExtEmit(b1, Ld(b1.next, ty, p));
    ExtTrans(b, b1, LoadMem(m, b, addr, ty).0);
  }

  lemma ExtStoreMem(m: Machine, b: Build, addr: Operand, v: Operand)
    requires Open(b)
    ensures Ext(b, StoreMem(m, b, addr, v)) && Open(StoreMem(m, b, addr, v))
  {
    hide HostAddr;
    ExtHostAddr(m, b, addr, v.ty);
    var (b1, p) := HostAddr(m, b, addr, v.ty);
    ExtEmit(b1, St(b1.next, v, p));
    ExtTrans(b, b1, StoreMem(m, b, addr, v));
  }

  lemma ExtFlatten(b: Build, v: Operand)
    requires Open(b)
    ensures Ext(b, Flatten(b, v).0) && Open(Flatten(b, v).0)
  {
  }

  // ---- which blocks are still open

  /** b was made from a, and pending are exactly the blocks among a's own and the new ones still to be closed. */
  predicate Made(a: Build, b: Build, pending: set<nat>) {
    && Ext(a, b)
    && b.cur in pending
    && (forall k :: k in pending ==> k < |b.blocks| && b.blocks[k].term == NoTerm)
    && (forall k :: 0 <= k < |b.blocks| && (k == a.cur || |a.blocks| <= k) && k !in pending ==>
          b.blocks[k].term != NoTerm)
  }

  /** Emission that ended in one open block, everything else it opened being closed. */
  predicate Tidy(a: Build, b: Build) {
    Made(a, b, {b.cur})
  }

  lemma TidyRefl(b: Build)
    requires Open(b)
    ensures Tidy(b, b)
  {
  }

  lemma TidyLine(a: Build, b: Build)
    requires Ext(a, b) && Open(a) && Open(b) && |b.blocks| == |a.blocks| && b.cur == a.cur
    ensures Tidy(a, b)
  {
  }

  lemma TidyOpen(a: Build, b: Build)
    requires Tidy(a, b)
    ensures Open(b) && Ext(a, b) && |a.blocks| <= |b.blocks|
  {
  }

  lemma MadeThen(a: Build, b: Build, c: Build, pending: set<nat>)
    requires Made(a, b, pending) && Tidy(b, c)
    ensures Made(a, c, pending - {b.cur} + {c.cur})
  {
    ExtTrans(a, b, c);
  }

  lemma TidyTrans(a: Build, b: Build, c: Build)
    requires Tidy(a, b) && Tidy(b, c)
    ensures Tidy(a, c)
  {
    MadeThen(a, b, c, {b.cur});
    assert {b.cur} - {b.cur} + {c.cur} == {c.cur};
  }

  lemma MadeNew(a: Build, b: Build, pending: set<nat>)
    requires Made(a, b, pending)
    ensures Made(a, NewBlock(b), pending + {|b.blocks|})
  {
    ExtNewBlock(b);
    ExtTrans(a, b, NewBlock(b));
  }

  lemma MadeGoto(a: Build, b: Build, t: Term, k: nat, pending: set<nat>)
    requires Made(a, b, pending) && k in pending && k != b.cur && |a.blocks| <= k && t != NoTerm
    ensures k < |b.blocks| && Made(a, MoveTo(Terminate(b, t), k), pending - {b.cur})
  {
    ExtGoto(a, b, t, k);
  }

  /** Both targets of a two-way branch start out empty. */
  lemma SplitBlocks(b: Build, o: Operand)
    ensures Split(b, o).blocks[|b.blocks|] == Block([], NoTerm, Avail(b))
    ensures Split(b, o).blocks[|b.blocks| + 1] == Block([], NoTerm, Avail(b))
    ensures Split(b, o).blocks[b.cur] == b.blocks[b.cur].(term := CondBr(o, |b.blocks|, |b.blocks| + 1))
  {
  }

  /** The two fresh blocks of a two-way branch, the first one entered. */
  lemma MadeSplit(a: Build, b: Build, o: Operand)
    requires Tidy(a, b)
    ensures Made(a, MoveTo(Split(b, o), |b.blocks|), {|b.blocks|, |b.blocks| + 1})
  {
    hide Made, NewBlock, MoveTo, Terminate, Avail, Ext;
    var n := |b.blocks|;
    var b1 := NewBlock(b);
    var b2 := NewBlock(b1);
    MadeNew(a, b, {b.cur});
    MadeNew(a, b1, {b.cur} + {n});
    assert Made(a, b2, {b.cur, n, n + 1}) by {
      assert {b.cur} + {n} + {n + 1} == {b.cur, n, n + 1};
    }
    TidyOpen(a, b);
    MadeGoto(a, b2, CondBr(o, n, n + 1), n, {b.cur, n, n + 1});
    assert {b.cur, n, n + 1} - {b.cur} == {n, n + 1};
  }

  // ---- if-then-else, stage by stage

  lemma MadeMuxOpen(b: Build)
    requires Open(b)
    ensures Made(b, MuxOpen(b), {b.cur, |b.blocks|, |b.blocks| + 1, |b.blocks| + 2})
    ensures forall k :: |b.blocks| <= k < |b.blocks| + 3 ==> MuxOpen(b).blocks[k] == Block([], NoTerm, Avail(b))
    ensures MuxOpen(b).blocks[b.cur] == b.blocks[b.cur]
  {
  }

  lemma MadeMuxBranch(a: Build, b: Build, c: Operand, n: nat, pending: set<nat>)
    requires Made(a, b, pending) && n in pending && n + 1 in pending && n + 1 != b.cur && |a.blocks| <= n
    ensures n + 1 < |b.blocks| && Made(a, MuxBranch(b, c, n), pending - {b.cur})
    ensures forall k :: 0 <= k < |b.blocks| && k != b.cur ==> MuxBranch(b, c, n).blocks[k] == b.blocks[k]
  {
    hide Ext;
    var b1 := Emit(b, Arith(b.next, IntTy(1), ICmpEQ, c, Imm(0, c.ty)));
    ExtEmit(b, Arith(b.next, IntTy(1), ICmpEQ, c, Imm(0, c.ty)));
    TidyLine(b, b1);
    MadeThen(a, b, b1, pending);
    assert pending - {b.cur} + {b.cur} == pending;
    MadeGoto(a, b1, CondBr(Reg(b.next, IntTy(1)), n, n + 1), n + 1, pending);
  }

  lemma MadeMuxClose(a: Build, b: Build, v: Operand, merge: nat, to: nat, pending: set<nat>)
    requires Made(a, b, pending) && to in pending && to != b.cur && |a.blocks| <= to
    ensures to < |b.blocks| && Made(a, MuxClose(b, v, merge, to).0, pending - {b.cur})
    ensures forall k :: 0 <= k < |b.blocks| && k != b.cur ==> MuxClose(b, v, merge, to).0.blocks[k] == b.blocks[k]
  {
    hide Ext;
    var b1 := Flatten(b, v).0;
    ExtFlatten(b, v);
    TidyLine(b, b1);
    MadeThen(a, b, b1, pending);
    assert pending - {b.cur} + {b.cur} == pending;
    MadeGoto(a, b1, Br(merge), to, pending);
  }

  /** The builder at every stage of an if-then-else: up to the end of the non-zero arm, and after it. */
  datatype MuxHead = MuxHead(b0: Build, b1: Build, c: Operand, b1x: Build, b2: Build, x: Operand)
  datatype MuxTail = MuxTail(b3: Build, xv: Operand, b4: Build, z: Operand, b5: Build, zv: Operand, b6: Build, r: Operand)
  datatype MuxRun = MuxRun(h: MuxHead, t: MuxTail)

  function MuxHeadOf(m: Machine, b: Build, vals: Vals, e: Expr): (h: MuxHead)
    requires e.Mux0X?
    ensures h.b0 == MuxOpen(b)
    ensures EmitExpr(m, h.b0, vals, e.cond) == (h.b1, h.c)
    ensures |b.blocks| + 2 < |h.b1.blocks| && h.b1x == MuxBranch(h.b1, h.c, |b.blocks|)
    ensures EmitExpr(m, h.b1x, vals, e.exprX) == (h.b2, h.x) && |b.blocks| + 2 < |h.b2.blocks|
  {
    hide *;
    var b0 := MuxOpen(b);
    var r1 := EmitExpr(m, b0, vals, e.cond);
    var b1x := MuxBranch(r1.0, r1.1, |b.blocks|);
    var r2 := EmitExpr(m, b1x, vals, e.exprX);
    MuxHead(b0, r1.0, r1.1, b1x, r2.0, r2.1)
  }

  function MuxTailOf(m: Machine, b2: Build, x: Operand, n: nat, vals: Vals, expr0: Expr): (t: MuxTail)
    requires n + 2 < |b2.blocks|
    ensures MuxClose(b2, x, n + 2, n) == (t.b3, t.xv)
    ensures EmitExpr(m, t.b3, vals, expr0) == (t.b4, t.z)
    ensures n + 2 < |t.b4.blocks| && MuxClose(t.b4, t.z, n + 2, n + 2) == (t.b5, t.zv)
    ensures MuxPhi(t.b5, t.zv, t.b4.cur, t.xv, b2.cur) == (t.b6, t.r)
  {
    hide *;
    var r3 := MuxClose(b2, x, n + 2, n);
    var r4 := EmitExpr(m, r3.0, vals, expr0);
    var r5 := MuxClose(r4.0, r4.1, n + 2, n + 2);
    var r6 := MuxPhi(r5.0, r5.1, r4.0.cur, r3.1, b2.cur);
    MuxTail(r3.0, r3.1, r4.0, r4.1, r5.0, r5.1, r6.0, r6.1)
  }

  function MuxRunOf(m: Machine, b: Build, vals: Vals, e: Expr): (s: MuxRun)
    requires e.Mux0X?
    ensures s.h == MuxHeadOf(m, b, vals, e)
    ensures s.t == MuxTailOf(m, s.h.b2, s.h.x, |b.blocks|, vals, e.expr0)
  {
    var h := MuxHeadOf(m, b, vals, e);
    MuxRun(h, MuxTailOf(m, h.b2, h.x, |b.blocks|, vals, e.expr0))
  }

  lemma MuxRunResult(m: Machine, b: Build, vals: Vals, e: Expr)
    requires e.Mux0X?
    ensures EmitExpr(m, b, vals, e) == (MuxRunOf(m, b, vals, e).t.b6, MuxRunOf(m, b, vals, e).t.r)
  {
    hide MuxOpen, MuxBranch, MuxClose, MuxPhi, MuxHeadOf, MuxTailOf, ReadCtx, ReadCtxIx, LoadMem, Emit, EmitExprs,
         TmpVal, ConVal, ConTy, VexTy2LLVM;
    match e
    case Mux0X(cond, expr0, exprX) =>
      var n := |b.blocks|;
      var (b1, c) := EmitExpr(m, MuxOpen(b), vals, cond);
      var (b2, x) := EmitExpr(m, MuxBranch(b1, c, n), vals, exprX);
      var (b3, xv) := MuxClose(b2, x, n + 2, n);
      var (b4, z) := EmitExpr(m, b3, vals, expr0);
      var (b5, zv) := MuxClose(b4, z, n + 2, n + 2);
      assert EmitExpr(m, b, vals, e) == MuxPhi(b5, zv, b4.cur, xv, b2.cur);
  }

  /** The arms and the join are entered while still empty, and stages continue each other. */
  predicate MuxOk(b: Build, s: MuxRun) {
    var n := |b.blocks|;
    var none := Block([], NoTerm, Avail(b));
    && Tidy(s.h.b0, s.h.b1) && Tidy(s.h.b1x, s.h.b2) && Tidy(s.t.b3, s.t.b4) && Tidy(b, s.t.b6)
    && Open(s.h.b0) && Open(s.h.b1x) && Open(s.t.b3) && Open(s.t.b5)
    && |s.h.b0.blocks| == n + 3 && s.h.b0.blocks[b.cur] == b.blocks[b.cur]
    && n + 2 < |s.h.b1.blocks| && n + 2 < |s.h.b2.blocks| && n + 2 < |s.t.b4.blocks|
    && s.h.b1.cur != n && s.h.b1.cur != n + 1 && s.h.b1.cur != n + 2
    && s.h.b2.cur != n && s.h.b2.cur != n + 2 && s.t.b4.cur != n + 2 && s.t.b4.cur != s.h.b2.cur
    && s.h.b1x.cur == n + 1 && n + 1 < |s.h.b1x.blocks| && s.h.b1x.blocks[n + 1] == none
    && s.t.b3.cur == n && n < |s.t.b3.blocks| && s.t.b3.blocks[n] == none
    && s.t.b5.cur == n + 2 && n + 2 < |s.t.b5.blocks| && s.t.b5.blocks[n + 2] == none
    && s.h.b1.blocks[n] == none && s.h.b1.blocks[n + 1] == none
    && s.h.b2.blocks[n] == none && s.h.b2.blocks[n + 2] == none && s.t.b4.blocks[n + 2] == none
  }

  lemma MuxParts(b: Build, s: MuxRun)
    requires MuxOk(b, s)
    ensures
      var n := |b.blocks|;
      var none := Block([], NoTerm, Avail(b));
      && Tidy(s.h.b0, s.h.b1) && Tidy(s.h.b1x, s.h.b2) && Tidy(s.t.b3, s.t.b4) && Tidy(b, s.t.b6)
      && Open(s.h.b0) && Open(s.h.b1x) && Open(s.t.b3) && Open(s.t.b5)
      && |s.h.b0.blocks| == n + 3 && s.h.b0.blocks[b.cur] == b.blocks[b.cur]
      && n + 2 < |s.h.b1.blocks| && n + 2 < |s.h.b2.blocks| && n + 2 < |s.t.b4.blocks|
      && s.h.b1.cur != n && s.h.b1.cur != n + 1 && s.h.b1.cur != n + 2
      && s.h.b2.cur != n && s.h.b2.cur != n + 2 && s.t.b4.cur != n + 2 && s.t.b4.cur != s.h.b2.cur
      && s.h.b1x.cur == n + 1 && n + 1 < |s.h.b1x.blocks| && s.h.b1x.blocks[n + 1] == none
      && s.t.b3.cur == n && n < |s.t.b3.blocks| && s.t.b3.blocks[n] == none
      && s.t.b5.cur == n + 2 && n + 2 < |s.t.b5.blocks| && s.t.b5.blocks[n + 2] == none
      && n > 0
      && s.h.b1.blocks[n] == none && s.h.b1.blocks[n + 1] == none
      && s.h.b2.blocks[n] == none && s.h.b2.blocks[n + 2] == none && s.t.b4.blocks[n + 2] == none
  {
  }

  lemma MadeOpen(a: Build, b: Build, pending: set<nat>)
    requires Made(a, b, pending)
    ensures Open(b) && Ext(a, b) && |a.blocks| <= |b.blocks|
  {
  }

  lemma TidyCur(a: Build, b: Build)
    requires Tidy(a, b)
    ensures b.cur == a.cur || |a.blocks| <= b.cur
    ensures forall k :: 0 <= k < |a.blocks| && k != a.cur ==> k < |b.blocks| && b.blocks[k] == a.blocks[k]
  {
  }

  lemma {:induction false} MuxFacts(m: Machine, b: Build, vals: Vals, e: Expr)
    requires e.Mux0X? && Open(b)
    ensures MuxOk(b, MuxRunOf(m, b, vals, e))
    decreases e, 0
  {
    hide Ext, Made, Tidy, MuxOpen, MuxBranch, MuxClose, MuxPhi, Open, Avail, EmitExpr;
    var s := MuxRunOf(m, b, vals, e);
    var n := |b.blocks|;
    MadeMuxOpen(b);
    MadeOpen(b, s.h.b0, {b.cur, n, n + 1, n + 2});
    TidyExpr(m, s.h.b0, vals, e.cond);
    TidyCur(s.h.b0, s.h.b1);
    MadeThen(b, s.h.b0, s.h.b1, {b.cur, n, n + 1, n + 2});
    assert {b.cur, n, n + 1, n + 2} - {b.cur} + {s.h.b1.cur} == {s.h.b1.cur, n, n + 1, n + 2};
    MadeMuxBranch(b, s.h.b1, s.h.c, n, {s.h.b1.cur, n, n + 1, n + 2});
    assert {s.h.b1.cur, n, n + 1, n + 2} - {s.h.b1.cur} == {n, n + 1, n + 2};
    MadeOpen(b, s.h.b1x, {n, n + 1, n + 2});
    TidyExpr(m, s.h.b1x, vals, e.exprX);
    TidyCur(s.h.b1x, s.h.b2);
    MadeThen(b, s.h.b1x, s.h.b2, {n, n + 1, n + 2});
    assert {n, n + 1, n + 2} - {n + 1} + {s.h.b2.cur} == {s.h.b2.cur, n, n + 2};
    MadeMuxClose(b, s.h.b2, s.h.x, n + 2, n, {s.h.b2.cur, n, n + 2});
    assert {s.h.b2.cur, n, n + 2} - {s.h.b2.cur} == {n, n + 2};
    MadeOpen(b, s.t.b3, {n, n + 2});
    TidyExpr(m, s.t.b3, vals, e.expr0);
    TidyCur(s.t.b3, s.t.b4);
    MadeThen(b, s.t.b3, s.t.b4, {n, n + 2});
    assert {n, n + 2} - {n} + {s.t.b4.cur} == {s.t.b4.cur, n + 2};
    MadeMuxClose(b, s.t.b4, s.t.z, n + 2, n + 2, {s.t.b4.cur, n + 2});
    assert {s.t.b4.cur, n + 2} - {s.t.b4.cur} == {n + 2};
    MadeOpen(b, s.t.b5, {n + 2});
    MadeMuxPhi(b, s.t.b5, s.t.zv, s.t.b4.cur, s.t.xv, s.h.b2.cur);
  }

  lemma MadeMuxPhi(a: Build, b: Build, zv: Operand, bz: nat, xv: Operand, bnz: nat)
    requires Made(a, b, {b.cur})
    ensures Tidy(a, MuxPhi(b, zv, bz, xv, bnz).0)
  {
    hide Ext;
    ExtEmit(b, Phi(b.next, zv.ty, zv, bz, xv, bnz));
    TidyLine(b, MuxPhi(b, zv, bz, xv, bnz).0);
    TidyTrans(a, b, MuxPhi(b, zv, bz, xv, bnz).0);
  }

  lemma {:induction false} TidyExpr(m: Machine, b: Build, vals: Vals, e: Expr)
    requires Open(b)
    ensures Tidy(b, EmitExpr(m, b, vals, e).0)
    decreases e, 1
  {
    hide Ext, Made, MuxOpen, MuxBranch, MuxClose, LoadMem, ReadCtx, ReadCtxIx, Emit, Open, MuxPhi, MoveTo, Terminate;
    var r := EmitExpr(m, b, vals, e);
    match e
    case Get(off, ty) => ExtReadCtx(b, off, VexTy2LLVM(ty)); TidyLine(b, r.0);
    case GetI(arr, ix, bias) =>
      TidyExpr(m, b, vals, ix);
      var (b1, i) := EmitExpr(m, b, vals, ix);
      TidyOpen(b, b1);
      ExtReadCtxIx(b1, arr, bias, i, VexTy2LLVM(arr.elemTy));
      TidyLine(b1, r.0);
      TidyTrans(b, b1, r.0);
    case RdTmp(t) => TidyRefl(b);
    case Op(f, rty, args) =>
      TidyExprs(m, b, vals, args);
      var (b1, os) := EmitExprs(m, b, vals, args);
      TidyOpen(b, b1);
      ExtEmit(b1, Apply(b1.next, rty, f, os));
      TidyLine(b1, r.0);
      TidyTrans(b, b1, r.0);
    case Load(lty, addr) =>
      TidyExpr(m, b, vals, addr);
      var (b1, a) := EmitExpr(m, b, vals, addr);
      TidyOpen(b, b1);
      ExtLoadMem(m, b1, a, VexTy2LLVM(lty));
      TidyLine(b1, r.0);
      TidyTrans(b, b1, r.0);
    case Const(c) => TidyRefl(b);
    case Mux0X(cond, expr0, exprX) => MuxFacts(m, b, vals, e); MuxRunResult(m, b, vals, e);
  }

  lemma {:induction false} TidyExprs(m: Machine, b: Build, vals: Vals, es: seq<Expr>)
    requires Open(b)
    ensures Tidy(b, EmitExprs(m, b, vals, es).0)
    decreases es, 2
  {
    hide Ext, Made, Open;
    if es == [] {
      TidyRefl(b);
    } else {
      TidyExpr(m, b, vals, es[0]);
      var b1 := EmitExpr(m, b, vals, es[0]).0;
      TidyOpen(b, b1);
      TidyExprs(m, b1, vals, es[1..]);
      TidyTrans(b, b1, EmitExprs(m, b, vals, es).0);
    }
  }
}
