/**
 Runs that read a register that was never written: the operand stands for a temporary without
 a value, and the instruction or branch that reads it is as far as the run gets.
 */
module Jams {
  import opened Options
  import opened Bits
  import opened VexIR
  import opened VexWf
  import opened VexDefined
  import opened LlvmIR
  import opened Builder
  import opened Lowering
  import opened Extension
  import opened StmtShape
  import opened Simulation
  import opened SimExpr
  import opened SimStmt

  /** The next step cannot be taken, however much is emitted later. */
  predicate Jammed(m: Machine, bs: seq<Block>, c: Config) {
    c.At? && c.b < |bs| &&
    var blk := bs[c.b];
    if c.pc < |blk.instrs| then ExecInstr(m, blk.instrs[c.pc], c.prev, c.regs, c.g).None?
    else
      c.pc == |blk.instrs| &&
      match blk.term
      case CondBr(o, _, _) => EvalVal(c.regs, o).None?
      case RetVal(o) => EvalVal(c.regs, o).None?
      case _ => false
  }

  /** The run from c gets as far as such a step. */
  ghost predicate Dead(m: Machine, bs: seq<Block>, c: Config) {
    exists d :: Reach(m, bs, c, d) && Jammed(m, bs, d)
  }

  lemma JammedGrow(m: Machine, bs: seq<Block>, bs': seq<Block>, c: Config)
    requires Grow(bs, bs') && Jammed(m, bs, c)
    ensures Jammed(m, bs', c)
  {
    hide ExecInstr;
    assert BlockGrow(bs[c.b], bs'[c.b]);
  }

  lemma JammedStuck(m: Machine, bs: seq<Block>, c: Config)
    requires Jammed(m, bs, c)
    ensures c.At? && Step(m, bs, c) == None
  {
    hide ExecInstr;
  }

  lemma DeadGrow(m: Machine, bs: seq<Block>, bs': seq<Block>, c: Config)
    requires Grow(bs, bs') && Dead(m, bs, c)
    ensures Dead(m, bs', c)
  {
    hide Jammed, Grow, Reach;
    var d :| Reach(m, bs, c, d) && Jammed(m, bs, d);
    JammedGrow(m, bs, bs', d);
    ReachGrow(m, bs, bs', c, d);
  }

  /** A run that gets stuck before returning returns nothing. */
  lemma StuckNever(m: Machine, f: seq<Block>, c0: Config, c1: Config, next: nat, g: Guest)
    requires Reach(m, f, c0, c1) && c1.At? && Step(m, f, c1) == None
    ensures !Reach(m, f, c0, Done(next, g))
  {
    hide Step;
    if Reach(m, f, c0, Done(next, g)) {
      var n: nat :| Steps(m, f, c0, n) == Some(c1);
      var k: nat :| Steps(m, f, c0, k) == Some(Done(next, g));
      if n <= k {
        StepsAdd(m, f, c0, n, k - n);
      } else {
        StepsAdd(m, f, c0, k, n - k);
        DoneStops(m, f, next, g);
      }
    }
  }

  lemma DoneStops(m: Machine, f: seq<Block>, next: nat, g: Guest)
    ensures Step(m, f, Done(next, g)) == None
  {
  }

  lemma DeadVia(m: Machine, bs: seq<Block>, c: Config, c1: Config)
    requires Reach(m, bs, c, c1) && Dead(m, bs, c1)
    ensures Dead(m, bs, c)
  {
    hide Jammed, Reach;
    var d :| Reach(m, bs, c1, d) && Jammed(m, bs, d);
    ReachTrans(m, bs, c, c1, d);
  }

  /** A run that gets to b1 and is dead from there on. */
  lemma DeadThen(m: Machine, b: Build, c: Config, b1: Build, c1: Config, bs: seq<Block>)
    requires Sim(m, b, c, b1, c1) && Grow(b1.blocks, bs) && Dead(m, bs, c1)
    ensures Dead(m, bs, c)
  {
    hide Grow, Reach, Dead, AtEnd, Keeps, Newer;
    ReachGrow(m, b1.blocks, bs, c, c1);
    DeadVia(m, bs, c, c1);
  }

  lemma DeadHere(m: Machine, bs: seq<Block>, c: Config)
    requires Jammed(m, bs, c)
    ensures Dead(m, bs, c)
  {
    ReachRefl(m, bs, c);
  }

  lemma JamEmit(m: Machine, b: Build, i: Instr, c: Config)
    requires AtEnd(b, c) && ExecInstr(m, i, c.prev, c.regs, c.g).None?
    ensures Dead(m, Emit(b, i).blocks, c) && Grow(b.blocks, Emit(b, i).blocks)
  {
    hide ExecInstr;
    assert Emit(b, i).blocks[b.cur].instrs[c.pc] == i;
    DeadHere(m, Emit(b, i).blocks, c);
  }

  /** Closing the block with a branch or a return that reads the operand. */
  lemma JamTerm(m: Machine, b: Build, t: Term, c: Config)
    requires AtEnd(b, c)
    requires (t.CondBr? && EvalVal(c.regs, t.c).None?) || (t.RetVal? && EvalVal(c.regs, t.v).None?)
    ensures Dead(m, Terminate(b, t).blocks, c) && Grow(b.blocks, Terminate(b, t).blocks)
  {
    DeadHere(m, Terminate(b, t).blocks, c);
  }

  // ---- operands without a value

  predicate Unread(o: Operand, regs: Regs, n: nat) {
    o.Reg? && o.id < n && o.id !in regs
  }

  lemma UnreadVal(o: Operand, regs: Regs, n: nat)
    requires Unread(o, regs, n)
    ensures EvalVal(regs, o).None? && EvalOp(regs, o).None? && !IsOne(o)
  {
  }

  lemma UnreadKeeps(m: Machine, b: Build, c: Config, b': Build, c': Config, o: Operand)
    requires Sim(m, b, c, b', c') && c.At? && Unread(o, c.regs, b.next)
    ensures c'.At? && Unread(o, c'.regs, b'.next)
  {
    SimNewer(m, b, c, b', c');
  }

  /** The temporaries without a value are recorded as registers not written so far. */
  predicate Ghosts(vals: Vals, tt: map<nat, LTy>, tmps: map<nat, Val>, regs: Regs, n: nat) {
    forall t :: t in tt && t !in tmps ==> t in vals && Unread(vals[t], regs, n)
  }

  predicate Loose(m: Machine, b: Build, vals: Vals, sc: Scope, c: Config, tmps: map<nat, Val>) {
    Here(m, b, vals, sc, c, tmps) && c.At? && Ghosts(vals, sc.tt, tmps, c.regs, b.next)
  }

  lemma LooseParts(m: Machine, b: Build, vals: Vals, sc: Scope, c: Config, tmps: map<nat, Val>)
    requires Loose(m, b, vals, sc, c, tmps)
    ensures c.At? && Here(m, b, vals, sc, c, tmps) && AtEnd(b, c) && Open(b) && Temps(vals, sc.tt, c.regs, tmps)
    ensures AddrTy(m, IntTy(sc.aw)) && Ghosts(vals, sc.tt, tmps, c.regs, b.next)
  {
  }

  lemma LooseLater(m: Machine, b: Build, vals: Vals, sc: Scope, c: Config, tmps: map<nat, Val>, b': Build, c': Config)
    requires Loose(m, b, vals, sc, c, tmps) && Sim(m, b, c, b', c')
    ensures Loose(m, b', vals, sc, c', tmps)
  {
    HereLater(m, b, vals, sc, c, tmps, b', c');
    SimNewer(m, b, c, b', c');
  }

  lemma GhostOf(m: Machine, b: Build, vals: Vals, sc: Scope, e: Expr, c: Config, tmps: map<nat, Val>)
    requires Loose(m, b, vals, sc, c, tmps) && e.RdTmp? && WfExpr(e, sc) && e.tmp !in tmps
    ensures EmitExpr(m, b, vals, e).0 == b && Unread(EmitExpr(m, b, vals, e).1, c.regs, b.next)
  {
  }

  // ---- what reads an operand

  lemma JamHost(m: Machine, b: Build, addr: Operand, ty: LTy, c: Config)
    requires AtEnd(b, c) && Open(b) && EvalVal(c.regs, addr).None? && AddrTy(m, addr.ty)
    ensures Dead(m, HostAddr(m, b, addr, ty).0.blocks, c)
  {
    hide Emit, Dead, Grow, AtEnd, Open;
    var (b1, a1) := Widen(m, b, addr);
    var (b2, a2) := Rebase(m, b1, a1);
    var i := IntToPtr(b2.next, ty, a2);
    if m.is32 {
      JamEmit(m, b, Cast(b.next, IntTy(64), ZExt, addr), c);
      EmitGrow(b, Cast(b.next, IntTy(64), ZExt, addr));
      if m.base != 0 {
        EmitGrow(b1, Arith(b1.next, IntTy(64), Add, a1, Imm(m.base, IntTy(64))));
        DeadGrow(m, b1.blocks, b2.blocks, c);
      }
      EmitGrow(b2, i);
      DeadGrow(m, b2.blocks, Emit(b2, i).blocks, c);
    } else if m.base != 0 {
      JamEmit(m, b, Arith(b.next, IntTy(64), Add, addr, Imm(m.base, IntTy(64))), c);
      EmitGrow(b, Arith(b.next, IntTy(64), Add, addr, Imm(m.base, IntTy(64))));
      EmitGrow(b2, i);
      DeadGrow(m, b2.blocks, Emit(b2, i).blocks, c);
    } else {
      JamEmit(m, b, i, c);
    }
  }

  lemma EmitGrow(b: Build, i: Instr)
    requires Open(b)
    ensures Open(Emit(b, i)) && Grow(b.blocks, Emit(b, i).blocks)
  {
    ExtEmit(b, i);
  }

  lemma JamLoad(m: Machine, b: Build, addr: Operand, ty: LTy, c: Config)
    requires AtEnd(b, c) && Open(b) && EvalVal(c.regs, addr).None? && AddrTy(m, addr.ty)
    ensures Dead(m, LoadMem(m, b, addr, ty).0.blocks, c)
  {
    hide Emit, Dead, Grow, AtEnd, Open, HostAddr;
    JamHost(m, b, addr, ty, c);
    ExtHostAddr(m, b, addr, ty);
    var (b1, p) := HostAddr(m, b, addr, ty);
    EmitGrow(b1, Ld(b1.next, ty, p));
    DeadGrow(m, b1.blocks, LoadMem(m, b, addr, ty).0.blocks, c);
  }

  /** A store reads its address first and then the value. */
  lemma JamStore(m: Machine, b: Build, addr: Operand, v: Operand, c: Config)
    requires AtEnd(b, c) && c.At? && AddrTy(m, addr.ty)
    requires Unread(addr, c.regs, b.next) || (EvalVal(c.regs, addr).Some? && Unread(v, c.regs, b.next))
    ensures Dead(m, StoreMem(m, b, addr, v).blocks, c)
  {
    hide Emit, Dead, Grow, AtEnd, Open, HostAddr, AddrTy, Unread, EvalVal;
    AtEndIs(b, c);
    ExtHostAddr(m, b, addr, v.ty);
    var (b1, p) := HostAddr(m, b, addr, v.ty);
    var i := St(b1.next, v, p);
    EmitGrow(b1, i);
    if Unread(addr, c.regs, b.next) {
      UnreadVal(addr, c.regs, b.next);
      JamHost(m, b, addr, v.ty, c);
      DeadGrow(m, b1.blocks, Emit(b1, i).blocks, c);
    } else {
      var c1 := SimHostAddr(m, b, addr, v.ty, c);
      UnreadKeeps(m, b, c, b1, c1, v);
      UnreadVal(v, c1.regs, b1.next);
      SimEnds(m, b, c, b1, c1);
      JamEmit(m, b1, i, c1);
      DeadThen(m, b, c, b1, c1, Emit(b1, i).blocks);
    }
  }

  lemma JamWriteCtx(m: Machine, b: Build, off: nat, v: Operand, c: Config)
    requires AtEnd(b, c) && c.At? && Aligned(off, v.ty) && Unread(v, c.regs, b.next)
    ensures Dead(m, WriteCtx(b, off, v).blocks, c)
  {
    hide Emit, Dead, Grow, AtEnd, Open, GetCtxByteGEP, Unread, EvalVal, Aligned;
    var (b1, p) := GetCtxByteGEP(b, off, v.ty);
    var c1 := SimByteGEP(m, b, off, v.ty, c);
    UnreadKeeps(m, b, c, b1, c1, v);
    UnreadVal(v, c1.regs, b1.next);
    SimEnds(m, b, c, b1, c1);
    JamEmit(m, b1, St(b1.next, v, p), c1);
    DeadThen(m, b, c, b1, c1, WriteCtx(b, off, v).blocks);
  }

  lemma JamIndex(m: Machine, b: Build, arr: RegArray, bias: int, ix: Operand, ty: LTy, c: Config)
    requires AtEnd(b, c) && Open(b) && EvalVal(c.regs, ix).None?
    ensures Dead(m, IndexOffset(b, arr, bias, ix, ty).0.blocks, c)
  {
    hide Dead, Grow, AtEnd, Open, Emit;
    var i32 := IntTy(32);
    JamEmit(m, b, Cast(b.next, i32, BitCast, ix), c);
    EmitGrow(b, Cast(b.next, i32, BitCast, ix));
    var b1 := Emit(b, Cast(b.next, i32, BitCast, ix));
    EmitGrow(b1, Arith(b1.next, i32, Add, Reg(b.next, i32), Imm(bias % TWO32, i32)));
    var b2 := Emit(b1, Arith(b1.next, i32, Add, Reg(b.next, i32), Imm(bias % TWO32, i32)));
    EmitGrow(b2, Arith(b2.next, i32, URem, Reg(b1.next, i32), Imm(arr.nElems, i32)));
    var b3 := Emit(b2, Arith(b2.next, i32, URem, Reg(b1.next, i32), Imm(arr.nElems, i32)));
    EmitGrow(b3, Arith(b3.next, i32, Add, Reg(b2.next, i32), Imm(Units(arr.base, ty), i32)));
    DeadGrow(m, b1.blocks, b2.blocks, c);
    DeadGrow(m, b2.blocks, b3.blocks, c);
    DeadGrow(m, b3.blocks, IndexOffset(b, arr, bias, ix, ty).0.blocks, c);
  }
}
