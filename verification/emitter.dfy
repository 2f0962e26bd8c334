/**
 The emitter as the program runs it: one builder object whose insertion point and memo
 tables change under way, and one superblock object that fills its array of temporaries.
 Every method is tied to the function of Builder or Lowering that specifies it, and the
 assertions of the program are preconditions that the callers are shown to meet.
 */
module Emitter {
  import opened Options
  import opened ExitKinds
  import opened Bits
  import opened VexIR
  import opened VexWf
  import opened LlvmIR
  import opened Builder
  import opened Lowering
  import opened Extension
  import opened SimExpr
  import opened SimStmt

  class GenLLVM {
    const guest: Machine
    var inFunction: bool
    var blocks: seq<Block>
    var insertAt: nat
    var nextId: nat
    var gepByteMap: map<(nat, nat), Operand>
    var ctxCastMap: map<LTy, Operand>

    ghost predicate Valid()
      reads this
    {
      inFunction && insertAt < |blocks|
    }

    ghost function State(): Build
      requires Valid()
      reads this
    {
      BState(blocks, insertAt, nextId, gepByteMap, ctxCastMap)
    }

    constructor (guest: Machine)
      ensures !inFunction && gepByteMap == map[] && ctxCastMap == map[] && this.guest == guest
    {
      this.guest := guest;
      inFunction, blocks, insertAt, nextId := false, [], 0, 0;
      gepByteMap, ctxCastMap := map[], map[];
    }

    method BeginBB()
      requires !inFunction && gepByteMap == map[] && ctxCastMap == map[]
      modifies this
      ensures Valid() && State() == Begin
    {
      inFunction, blocks, insertAt, nextId := true, [Block([], NoTerm, {})], 0, 0;
    }

    /** Returns from the function and forgets the memo tables, so that the next one can begin. */
    method EndBB(v: Operand) returns (f: seq<Block>)
      requires Valid()
      modifies this
      ensures !inFunction && gepByteMap == map[] && ctxCastMap == map[]
      ensures f == Terminate(old(State()), RetVal(v)).blocks
    {
      CreateTerm(RetVal(v));
      f := blocks;
      inFunction, gepByteMap, ctxCastMap := false, map[], map[];
    }

    method Insert(i: Instr)
      requires Valid()
      modifies this
      ensures Valid() && State() == Emit(old(State()), i)
    {
      blocks := blocks[insertAt := blocks[insertAt].(instrs := blocks[insertAt].instrs + [i])];
      nextId := nextId + 1;
    }

    method CreateTerm(t: Term)
      requires Valid()
      modifies this
      ensures Valid() && State() == Terminate(old(State()), t)
    {
      blocks := blocks[insertAt := blocks[insertAt].(term := t)];
    }

    method CreateBlock() returns (k: nat)
      requires Valid()
      modifies this
      ensures Valid() && State() == NewBlock(old(State())) && k == |old(blocks)|
    {
      k := |blocks|;
      var here := blocks[insertAt];
      blocks := blocks + [Block([], NoTerm, here.dom + Defs(here.instrs))];
    }

    method SetInsertPoint(k: nat)
      requires Valid() && k < |blocks|
      modifies this
      ensures Valid() && State() == MoveTo(old(State()), k)
    {
      insertAt := k;
    }

    method CtxTyGEP(off: Operand, ty: LTy) returns (p: Operand)
      requires Valid()
      modifies this
      ensures Valid() && (State(), p) == GetCtxTyGEP(old(State()), off, ty)
    {
      var base;
      if insertAt != 0 {
        base := Reg(nextId, PtrTy(ty));
        Insert(CtxCast(nextId, ty));
      } else if ty !in ctxCastMap {
        base := Reg(nextId, PtrTy(ty));
        Insert(CtxCast(nextId, ty));
        ctxCastMap := ctxCastMap[ty := base];
      } else {
        base := ctxCastMap[ty];
      }
      p := Reg(nextId, PtrTy(ty));
      Insert(Gep(nextId, ty, base, off));
    }

    method CtxByteGEP(off: nat, ty: LTy) returns (p: Operand)
      requires Valid() && BytesOf(ty) > 0
      modifies this
      ensures Valid() && (State(), p) == GetCtxByteGEP(old(State()), off, ty)
    {
      var key := (off, BytesOf(ty));
      if key in gepByteMap && insertAt == 0 && gepByteMap[key].ty == PtrTy(ty) {
        p := gepByteMap[key];
      } else {
        var found := key in gepByteMap;
        p := CtxTyGEP(Imm(off / BytesOf(ty), IntTy(32)), ty);
        if !found {
          gepByteMap := gepByteMap[key := p];
        }
      }
    }

    method ReadCtx(off: nat, ty: LTy) returns (v: Operand)
      requires Valid() && BytesOf(ty) > 0
      modifies this
      ensures Valid() && (State(), v) == Builder.ReadCtx(old(State()), off, ty)
    {
      hide GetCtxByteGEP, Emit;
      var p := CtxByteGEP(off, ty);
      v := Reg(nextId, ty);
      Insert(Ld(nextId, ty, p));
    }

    method WriteCtx(off: nat, v: Operand)
      requires Valid() && BytesOf(v.ty) > 0
      modifies this
      ensures Valid() && State() == Builder.WriteCtx(old(State()), off, v)
    {
      hide GetCtxByteGEP, Emit;
      var p := CtxByteGEP(off, v.ty);
      Insert(St(nextId, v, p));
    }

    method IndexOffset(arr: RegArray, bias: int, ix: Operand, ty: LTy) returns (off: Operand)
      requires Valid() && BytesOf(ty) > 0
      modifies this
      ensures Valid() && (State(), off) == Builder.IndexOffset(old(State()), arr, bias, ix, ty)
    {
      hide Emit;
      var i32 := IntTy(32);
      off := Reg(nextId, i32);
      Insert(Cast(nextId, i32, BitCast, ix));
      var sum := Reg(nextId, i32);
      Insert(Arith(nextId, i32, Add, off, Imm(bias % TWO32, i32)));
      var rem := Reg(nextId, i32);
      Insert(Arith(nextId, i32, URem, sum, Imm(arr.nElems, i32)));
      off := Reg(nextId, i32);
      Insert(Arith(nextId, i32, Add, rem, Imm(arr.base / BytesOf(ty), i32)));
    }

    /** Indexed access asserts that the array starts at a multiple of the access size. */
    method ReadCtxIx(arr: RegArray, bias: int, ix: Operand, ty: LTy) returns (v: Operand)
      requires Valid() && BytesOf(ty) > 0 && arr.base % BytesOf(ty) == 0
      modifies this
      ensures Valid() && (State(), v) == Builder.ReadCtxIx(old(State()), arr, bias, ix, ty)
    {
      hide Builder.IndexOffset, GetCtxTyGEP, Emit;
      var off := IndexOffset(arr, bias, ix, ty);
      var p := CtxTyGEP(off, ty);
      v := Reg(nextId, ty);
      Insert(Ld(nextId, ty, p));
    }

    method WriteCtxIx(arr: RegArray, bias: int, ix: Operand, v: Operand)
      requires Valid() && BytesOf(v.ty) > 0 && arr.base % BytesOf(v.ty) == 0
      modifies this
      ensures Valid() && State() == Builder.WriteCtxIx(old(State()), arr, bias, ix, v)
    {
      hide Builder.IndexOffset, GetCtxTyGEP, Emit;
      var off := IndexOffset(arr, bias, ix, v.ty);
      var p := CtxTyGEP(off, v.ty);
      Insert(St(nextId, v, p));
    }

    method HostPointer(addr: Operand, ty: LTy) returns (p: Operand)
      requires Valid()
      modifies this
      ensures Valid() && (State(), p) == HostAddr(guest, old(State()), addr, ty)
    {
      hide Emit;
      var a := addr;
      if guest.is32 {
        a := Reg(nextId, IntTy(64));
        Insert(Cast(nextId, IntTy(64), ZExt, addr));
      }
      if guest.base != 0 {
        var b := Reg(nextId, IntTy(64));
        Insert(Arith(nextId, IntTy(64), Add, a, Imm(guest.base, IntTy(64))));
        a := b;
      }
      p := Reg(nextId, PtrTy(ty));
      Insert(IntToPtr(nextId, ty, a));
    }

    method Load(addr: Operand, ty: LTy) returns (v: Operand)
      requires Valid()
      modifies this
      ensures Valid() && (State(), v) == LoadMem(guest, old(State()), addr, ty)
    {
      hide HostAddr, Emit;
      var p := HostPointer(addr, ty);
      v := Reg(nextId, ty);
      Insert(Ld(nextId, ty, p));
    }

    method Store(addr: Operand, v: Operand)
      requires Valid()
      modifies this
      ensures Valid() && State() == StoreMem(guest, old(State()), addr, v)
    {
      hide HostAddr, Emit;
      var p := HostPointer(addr, v.ty);
      Insert(St(nextId, v, p));
    }

    method SetExitType(kind: byte)
      requires Valid()
      modifies this
      ensures Valid() && State() == Builder.SetExitType(guest, old(State()), kind)
    {
      WriteCtx(guest.exitOff, Imm(kind, IntTy(8)));
    }

    method FlattenType(v: Operand) returns (r: Operand)
      requires Valid()
      modifies this
      ensures Valid() && (State(), r) == Flatten(old(State()), v)
    {
      if Flat(v.ty) == v.ty {
        r := v;
      } else {
        r := Reg(nextId, Flat(v.ty));
        Insert(Cast(nextId, Flat(v.ty), BitCast, v));
      }
    }

    // ---- if-then-else

    method OpenMux() returns (zero: nat)
      requires Valid()
      modifies this
      ensures Valid() && State() == MuxOpen(old(State())) && zero == |old(blocks)|
    {
      hide NewBlock;
      zero := CreateBlock();
      var nonZero := CreateBlock();
      var merge := CreateBlock();
    }

    method BranchMux(c: Operand, zero: nat)
      requires Valid() && zero + 1 < |blocks|
      modifies this
      ensures Valid() && State() == MuxBranch(old(State()), c, zero)
    {
      hide Emit, Terminate;
      var cmp := Reg(nextId, IntTy(1));
      Insert(Arith(nextId, IntTy(1), ICmpEQ, c, Imm(0, c.ty)));
      CreateTerm(CondBr(cmp, zero, zero + 1));
      SetInsertPoint(zero + 1);
    }

    method CloseArm(v: Operand, merge: nat, to: nat) returns (r: Operand)
      requires Valid() && to < |blocks|
      modifies this
      ensures Valid() && (State(), r) == MuxClose(old(State()), v, merge, to)
    {
      hide Terminate, Flatten;
      r := FlattenType(v);
      CreateTerm(Br(merge));
      SetInsertPoint(to);
    }

    method JoinArms(z: Operand, bz: nat, x: Operand, bnz: nat) returns (v: Operand)
      requires Valid()
      modifies this
      ensures Valid() && (State(), v) == MuxPhi(old(State()), z, bz, x, bnz)
    {
      v := Reg(nextId, z.ty);
      Insert(Phi(nextId, z.ty, z, bz, x, bnz));
    }

    // ---- guarded regions

    /** Branch on o to a new block, which is entered, past it to another new one. */
    method BranchTwo(o: Operand) returns (yes: nat)
      requires Valid()
      modifies this
      ensures Valid() && State() == MoveTo(Split(old(State()), o), |old(blocks)|) && yes == |old(blocks)|
      ensures |blocks| == yes + 2
    {
      hide NewBlock, Terminate;
      yes := CreateBlock();
      var merge := CreateBlock();
      CreateTerm(CondBr(o, yes, merge));
      SetInsertPoint(yes);
    }

    method JoinAt(k: nat)
      requires Valid() && k < |blocks|
      modifies this
      ensures Valid() && State() == Join(old(State()), k)
    {
      hide Terminate;
      CreateTerm(Br(k));
      SetInsertPoint(k);
    }

    method BranchThree(o: Operand) returns (yes: nat)
      requires Valid()
      modifies this
      ensures Valid() && State() == SplitThree(old(State()), o) && yes == |old(blocks)|
    {
      hide NewBlock, Terminate;
      yes := CreateBlock();
      var alt := CreateBlock();
      var merge := CreateBlock();
      CreateTerm(CondBr(o, yes, alt));
      SetInsertPoint(yes);
    }

    method JoinLoads(v: Operand, alt: Operand, yes: nat) returns (r: Operand)
      requires Valid() && yes + 2 < |blocks|
      modifies this
      ensures Valid() && (State(), r) == JoinLoad(old(State()), v, alt, yes)
    {
      hide Terminate, Emit;
      CreateTerm(Br(yes + 2));
      SetInsertPoint(yes + 1);
      CreateTerm(Br(yes + 2));
      SetInsertPoint(yes + 2);
      r := Reg(nextId, v.ty);
      Insert(Phi(nextId, v.ty, v, yes, alt, yes + 1));
    }

    method LoadConverted(cvt: LoadGOp, addr: Operand) returns (v: Operand)
      requires Valid()
      modifies this
      ensures Valid() && (State(), v) == EmitLoadG(guest, old(State()), cvt, addr)
    {
      hide LoadMem, Emit;
      var c := Load(addr, LoadGTy(cvt));
      match cvt
      case Ident32 => v := c;
      case IdentV128 => v := c;
      case Cvt8Uto32 => v := Reg(nextId, IntTy(32)); Insert(Cast(nextId, IntTy(32), ZExt, c));
      case Cvt16Uto32 => v := Reg(nextId, IntTy(32)); Insert(Cast(nextId, IntTy(32), ZExt, c));
      case Cvt8Sto32 => v := Reg(nextId, IntTy(32)); Insert(Cast(nextId, IntTy(32), SExt, c));
      case Cvt16Sto32 => v := Reg(nextId, IntTy(32)); Insert(Cast(nextId, IntTy(32), SExt, c));
    }

    /** The taken side of a guarded exit. */
    method Leave(jk: JumpKind, dst: nat, to: nat)
      requires Valid() && to < |blocks| && StmtExitType(jk).Some?
      modifies this
      ensures Valid() && State() == EmitLeave(guest, old(State()), jk, dst, to)
    {
      hide Builder.SetExitType, Terminate, Low64, StmtExitType;
      if jk != Boring {
        SetExitType(StmtExitType(jk).value);
      }
      CreateTerm(RetVal(Imm(Low64(dst), IntTy(64))));
      SetInsertPoint(to);
    }
  }

  class VexSB {
    const gen: GenLLVM
    const values: array<Option<Operand>>

    constructor (gen: GenLLVM, regs: nat)
      ensures this.gen == gen && values.Length == regs && fresh(values) && values[..] == seq(regs, i => None)
    {
      this.gen := gen;
      values := new Option<Operand>[regs](_ => None);
    }

    /** The temporaries filled in so far. */
    ghost function Filled(): Vals
      reads values
    {
      map t | 0 <= t < values.Length && values[t].Some? :: values[t].value
    }

    method SetRegValue(t: nat, v: Operand)
      requires t < values.Length && values[t].None?
      modifies values
      ensures values[..] == old(values[..])[t := Some(v)]
      ensures Filled() == old(Filled())[t := v]
    {
      values[t] := Some(v);
    }

    method GetRegValue(t: nat) returns (v: Operand)
      requires t < values.Length && values[t].Some?
      ensures v == TmpVal(Filled(), t)
    {
      v := values[t].value;
    }

    method EmitExpr(e: Expr, ghost sc: Scope) returns (v: Operand)
      requires gen.Valid() && Typed(Filled(), sc.tt) && WfExpr(e, sc)
      modifies gen
      ensures gen.Valid() && (gen.State(), v) == Lowering.EmitExpr(gen.guest, old(gen.State()), Filled(), e)
      decreases e, 1
    {
      hide Builder.ReadCtx, Builder.ReadCtxIx, LoadMem, Typed, Builder.Emit, MuxOpen, MuxBranch, MuxClose, MuxPhi;
      match e
      case Get(off, ty) =>
        v := gen.ReadCtx(off, VexTy2LLVM(ty));
      case GetI(arr, ix, bias) =>
        var i := EmitExpr(ix, sc);
        v := gen.ReadCtxIx(arr, bias, i, VexTy2LLVM(arr.elemTy));
      case RdTmp(t) =>
        UsableSlot(Filled(), sc.tt, t);
        v := GetRegValue(t);
      case Op(f, rty, args) =>
        var os := EmitExprs(args, sc);
        v := Reg(gen.nextId, rty);
        gen.Insert(Apply(gen.nextId, rty, f, os));
      case Load(lty, addr) =>
        var a := EmitExpr(addr, sc);
        v := gen.Load(a, VexTy2LLVM(lty));
      case Const(c) =>
        v := Imm(ConVal(c), ConTy(c));
      case Mux0X(_, _, _) =>
        v := EmitMux(e, sc);
    }

    method EmitExprs(es: seq<Expr>, ghost sc: Scope) returns (vs: seq<Operand>)
      requires gen.Valid() && Typed(Filled(), sc.tt) && WfExprs(es, sc)
      modifies gen
      ensures gen.Valid() && (gen.State(), vs) == Lowering.EmitExprs(gen.guest, old(gen.State()), Filled(), es)
      decreases es, 2
    {
      hide Typed, Lowering.EmitExpr, WfExpr;
      if es == [] {
        vs := [];
      } else {
        var v := EmitExpr(es[0], sc);
        var rest := EmitExprs(es[1..], sc);
        vs := [v] + rest;
      }
    }

    /** Three blocks, the two arms emitted into theirs, and a phi over the blocks where the arms ended. */
    method EmitMux(e: Expr, ghost sc: Scope) returns (v: Operand)
      requires e.Mux0X?
      requires gen.Valid() && Typed(Filled(), sc.tt) && WfExpr(e, sc)
      modifies gen
      ensures gen.Valid() && (gen.State(), v) == Lowering.EmitExpr(gen.guest, old(gen.State()), Filled(), e)
      decreases e, 0
    {
      hide *;
      WfMux(e, sc);
      ghost var vals, b := Filled(), gen.State();
      StateIs(gen);
      var zero := gen.OpenMux();
      var c := EmitExpr(e.cond, sc);
      ghost var b1 := gen.State();
      StateIs(gen);
      gen.BranchMux(c, zero);
      var x := EmitExpr(e.exprX, sc);
      ghost var b2 := gen.State();
      StateIs(gen);
      var bnz := gen.insertAt;
      var xv := gen.CloseArm(x, zero + 2, zero);
      ghost var b3 := gen.State();
      var z := EmitExpr(e.expr0, sc);
      ghost var b4 := gen.State();
      StateIs(gen);
      var bz := gen.insertAt;
      var zv := gen.CloseArm(z, zero + 2, zero + 2);
      MuxEmitted(gen.guest, b, vals, e, b1, c, b2, x, b3, xv, b4, z, gen.State(), zv);
      v := gen.JoinArms(zv, bz, xv, bnz);
    }

    // ---- statements

    /** The array of temporaries agrees with the scope: usable ones are typed, unassigned ones empty. */
    ghost predicate Tracks(sc: Scope)
      reads values
    {
      Typed(Filled(), sc.tt) && Filled().Keys <= sc.used
    }

    method EmitStoreG(addr: Expr, data: Expr, guard: Expr, ghost sc: Scope)
      requires gen.Valid() && Typed(Filled(), sc.tt) && WfExpr(addr, sc) && WfExpr(data, sc) && WfExpr(guard, sc)
      modifies gen
      ensures gen.Valid()
      ensures gen.State() == Lowering.EmitStoreG(gen.guest, old(gen.State()), Filled(), addr, data, guard)
    {
      hide Typed, WfExpr, Lowering.EmitExpr, Split, Join, MoveTo, StoreMem;
      var g := EmitExpr(guard, sc);
      var yes := gen.BranchTwo(g);
      var a := EmitExpr(addr, sc);
      var d := EmitExpr(data, sc);
      gen.Store(a, d);
      gen.JoinAt(yes + 1);
    }

    method EmitLoadGuarded(cvt: LoadGOp, dst: nat, addr: Expr, alt: Expr, guard: Expr, ghost sc: Scope)
      requires gen.Valid() && Typed(Filled(), sc.tt) && WfExpr(addr, sc) && WfExpr(alt, sc) && WfExpr(guard, sc)
      requires dst < values.Length && values[dst].None?
      modifies gen, values
      ensures gen.Valid()
      ensures Emitted(gen.State(), Filled()) ==
              EmitGuardedLoad(gen.guest, old(gen.State()), old(Filled()), cvt, dst, addr, alt, guard)
    {
      hide Typed, WfExpr, Lowering.EmitExpr, SplitThree, JoinLoad, EmitLoadG;
      var g := EmitExpr(guard, sc);
      var a := EmitExpr(addr, sc);
      var av := EmitExpr(alt, sc);
      var yes := gen.BranchThree(g);
      var v := gen.LoadConverted(cvt, a);
      var r := gen.JoinLoads(v, av, yes);
      SetRegValue(dst, r);
    }

    method EmitCas(oldLo: nat, addr: Expr, expd: Expr, data: Expr, ghost sc: Scope)
      requires gen.Valid() && Typed(Filled(), sc.tt) && WfExpr(addr, sc) && WfExpr(expd, sc) && WfExpr(data, sc)
      requires oldLo < values.Length && values[oldLo].None?
      modifies gen, values
      ensures gen.Valid()
      ensures Emitted(gen.State(), Filled()) ==
              EmitCasSingle(gen.guest, old(gen.State()), old(Filled()), oldLo, addr, expd, data)
    {
      hide Typed, WfExpr, Lowering.EmitExpr, Split, Join, MoveTo, StoreMem, LoadMem, Builder.Emit;
      var a := EmitExpr(addr, sc);
      var e := EmitExpr(expd, sc);
      var was := gen.Load(a, e.ty);
      var cmp := Reg(gen.nextId, IntTy(1));
      gen.Insert(Arith(gen.nextId, IntTy(1), ICmpEQ, e, was));
      var yes := gen.BranchTwo(cmp);
      var d := EmitExpr(data, sc);
      gen.Store(a, d);
      gen.JoinAt(yes + 1);
      SetRegValue(oldLo, was);
    }

    /** The high half: its address, its old value, and the two comparisons compared with each other. */
    method EmitHigh(a: Operand, e: Operand, was: Operand, expdHi: Expr, ghost sc: Scope)
      returns (aHi: Operand, wasHi: Operand, cmp: Operand)
      requires gen.Valid() && Typed(Filled(), sc.tt) && WfExpr(expdHi, sc)
      modifies gen
      ensures gen.Valid()
      ensures CasHigh(gen.State(), aHi, wasHi, cmp) ==
              EmitCasHigh(gen.guest, old(gen.State()), Filled(), a, e, was, expdHi)
    {
      hide Typed, WfExpr, Lowering.EmitExpr, LoadMem, Builder.Emit;
      var eHi := EmitExpr(expdHi, sc);
      aHi := Reg(gen.nextId, a.ty);
      gen.Insert(Arith(gen.nextId, a.ty, Add, a, Imm(BytesOf(e.ty), a.ty)));
      wasHi := gen.Load(aHi, e.ty);
      var lo := Reg(gen.nextId, IntTy(1));
      gen.Insert(Arith(gen.nextId, IntTy(1), ICmpEQ, e, was));
      var hi := Reg(gen.nextId, IntTy(1));
      gen.Insert(Arith(gen.nextId, IntTy(1), ICmpEQ, eHi, wasHi));
      cmp := Reg(gen.nextId, IntTy(1));
      gen.Insert(Arith(gen.nextId, IntTy(1), ICmpEQ, lo, hi));
    }

    method EmitCasPair(oldLo: nat, addr: Expr, expd: Expr, data: Expr, hi: CasHi, ghost sc: Scope)
      requires gen.Valid() && Typed(Filled(), sc.tt) && WfExpr(addr, sc) && WfExpr(expd, sc) && WfExpr(data, sc)
      requires WfExpr(hi.expdHi, sc)
      requires oldLo < values.Length && values[oldLo].None? && hi.oldHi < values.Length && values[hi.oldHi].None?
      requires hi.oldHi != oldLo
      modifies gen, values
      ensures gen.Valid()
      ensures Emitted(gen.State(), Filled()) ==
              EmitCasDouble(gen.guest, old(gen.State()), old(Filled()), oldLo, addr, expd, data, hi)
    {
      hide Typed, WfExpr, Lowering.EmitExpr, Split, Join, MoveTo, StoreMem, LoadMem, Builder.Emit, EmitCasHigh;
      var a := EmitExpr(addr, sc);
      var e := EmitExpr(expd, sc);
      var was := gen.Load(a, e.ty);
      var aHi, wasHi, cmp := EmitHigh(a, e, was, hi.expdHi, sc);
      var yes := gen.BranchTwo(cmp);
      var d := EmitExpr(data, sc);
      gen.Store(a, d);
      var d2 := EmitExpr(data, sc);
      gen.Store(aHi, d2);
      gen.JoinAt(yes + 1);
      SetRegValue(oldLo, was);
      SetRegValue(hi.oldHi, wasHi);
    }

    method EmitHelperCall(f: nat, retTy: LTy, args: seq<Expr>, out: Option<DirtyTmp>, ghost sc: Scope)
      requires gen.Valid() && Typed(Filled(), sc.tt) && WfExprs(args, sc)
      requires out.Some? ==> out.value.tmp < values.Length && values[out.value.tmp].None?
      modifies gen, values
      ensures gen.Valid()
      ensures Emitted(gen.State(), Filled()) ==
              EmitCall(gen.guest, old(gen.State()), old(Filled()), f, retTy, args, out)
    {
      hide Typed, WfExprs, Lowering.EmitExprs, Builder.Emit;
      var os := EmitExprs(args, sc);
      var ret := Reg(gen.nextId, retTy);
      gen.Insert(CallDirty(gen.nextId, retTy, f, os));
      if out.Some? {
        var to := VexTy2LLVM(out.value.ty);
        var v := ret;
        if BitsOf(retTy) < BitsOf(to) {
          v := Reg(gen.nextId, to);
          gen.Insert(Cast(gen.nextId, to, ZExt, ret));
        } else if BitsOf(retTy) > BitsOf(to) {
          v := Reg(gen.nextId, to);
          gen.Insert(Cast(gen.nextId, to, Trunc, ret));
        }
        SetRegValue(out.value.tmp, v);
      }
    }

    method EmitDirty(guard: Expr, f: nat, retTy: LTy, args: seq<Expr>, out: Option<DirtyTmp>, ghost sc: Scope)
      requires gen.Valid() && Typed(Filled(), sc.tt) && WfExpr(guard, sc) && WfExprs(args, sc)
      requires out.Some? ==> out.value.tmp < values.Length && values[out.value.tmp].None?
      modifies gen, values
      ensures gen.Valid()
      ensures Emitted(gen.State(), Filled()) ==
              Lowering.EmitDirty(gen.guest, old(gen.State()), old(Filled()), guard, f, retTy, args, out)
    {
      hide Typed, WfExpr, WfExprs, Lowering.EmitExpr, EmitCall, Split, Join, MoveTo, IsOne;
      var g := EmitExpr(guard, sc);
      if IsOne(g) {
        EmitHelperCall(f, retTy, args, out, sc);
      } else {
        var yes := gen.BranchTwo(g);
        EmitHelperCall(f, retTy, args, out, sc);
        gen.JoinAt(yes + 1);
      }
    }

    method EmitExit(guard: Expr, jk: JumpKind, dst: nat, ghost sc: Scope)
      requires gen.Valid() && Typed(Filled(), sc.tt) && WfExpr(guard, sc) && StmtExitType(jk).Some?
      modifies gen
      ensures gen.Valid()
      ensures gen.State() == Lowering.EmitExit(gen.guest, old(gen.State()), Filled(), guard, jk, dst)
    {
      hide Typed, WfExpr, Lowering.EmitExpr, NewBlock, MoveTo, Terminate, EmitLeave, StmtExitType;
      var yes := gen.CreateBlock();
      var no := gen.CreateBlock();
      var g := EmitExpr(guard, sc);
      gen.CreateTerm(CondBr(g, yes, no));
      gen.SetInsertPoint(yes);
      gen.Leave(jk, dst, no);
    }

    method EmitStmt(st: Stmt, ghost sc: Scope)
      requires gen.Valid() && Tracks(sc) && WfStmt(st, sc) && Fits(st, values.Length)
      modifies gen, values
      ensures gen.Valid() && Tracks(After(st, sc))
      ensures Emitted(gen.State(), Filled()) ==
              Lowering.EmitStmt(gen.guest, Emitted(old(gen.State()), old(Filled())), st)
    {
      hide WfExpr, WfExprs, Lowering.EmitExpr, Lowering.EmitStoreG, EmitGuardedLoad, EmitCasSingle, EmitCasDouble,
           Lowering.EmitDirty, Lowering.EmitExit, StoreMem, Builder.WriteCtx, Builder.WriteCtxIx, Builder.Emit, LiteralOne;
      ghost var s := Emitted(gen.State(), Filled());
      TypedStmt(gen.guest, s, st, sc);
      hide Typed, After;
      match st
      case NoOp =>
      case IMark(_, _) =>
      case AbiHint =>
      case MBE => gen.Insert(Fence(gen.nextId));
      case Put(off, data) =>
        TypeExpr(gen.guest, gen.State(), Filled(), sc, data);
        var v := EmitExpr(data, sc);
        gen.WriteCtx(off, v);
      case PutI(arr, ix, bias, data) =>
        TypeExpr(gen.guest, gen.State(), Filled(), sc, data);
        var v := EmitExpr(data, sc);
        var i := EmitExpr(ix, sc);
        gen.WriteCtxIx(arr, bias, i, v);
      case WrTmp(t, data) =>
        var v := EmitExpr(data, sc);
        SetRegValue(t, v);
      case Store(addr, data) =>
        var d := EmitExpr(data, sc);
        var a := EmitExpr(addr, sc);
        gen.Store(a, d);
      case StoreG(addr, data, guard) => EmitStoreG(addr, data, guard, sc);
      case LoadG(cvt, dst, addr, alt, guard) => EmitLoadGuarded(cvt, dst, addr, alt, guard, sc);
      case CAS(oldLo, addr, expdLo, dataLo, hi) =>
        if hi.None? {
          EmitCas(oldLo, addr, expdLo, dataLo, sc);
        } else {
          EmitCasPair(oldLo, addr, expdLo, dataLo, hi.value, sc);
        }
      case Dirty(guard, f, retTy, args, out) => EmitDirty(guard, f, retTy, args, out, sc);
      case Exit(guard, jk, dst) => EmitExit(guard, jk, dst, sc);
    }

    /** One statement after the other, the jump target, the exit kind, the return. */
    method Emit(sb: SB) returns (f: seq<Block>)
      requires !gen.inFunction && gen.gepByteMap == map[] && gen.ctxCastMap == map[]
      requires WfSB(gen.guest, sb) && forall s :: s in sb.stmts ==> Fits(s, values.Length)
      modifies gen, values
      ensures f == EmitSB(gen.guest, sb)
      ensures !gen.inFunction && gen.gepByteMap == map[] && gen.ctxCastMap == map[]
    {
      hide WfExpr, WfStmt, Lowering.EmitExpr, Lowering.EmitStmt, Builder.SetExitType, Terminate, After, Fits, Typed;
      Clear();
      gen.BeginBB();
      ghost var sc := Empty(gen.guest);
      ghost var start := Emitted(gen.State(), Filled());
      TracksEmpty(Filled(), sc);
      var i := 0;
      while i < |sb.stmts|
        invariant 0 <= i <= |sb.stmts| && gen.Valid() && Tracks(sc)
        invariant WfStmts(sb.stmts[i..], sc) && AfterAll(sb.stmts[i..], sc) == AfterAll(sb.stmts, Empty(gen.guest))
        invariant EmitStmts(gen.guest, Emitted(gen.State(), Filled()), sb.stmts[i..]) ==
                  EmitStmts(gen.guest, start, sb.stmts)
      {
        assert sb.stmts[i..][0] == sb.stmts[i] && sb.stmts[i..][1..] == sb.stmts[i + 1..];
        EmitStmt(sb.stmts[i], sc);
        sc := After(sb.stmts[i], sc);
        i := i + 1;
      }
      assert sb.stmts[i..] == [];
      var v := EmitExpr(sb.next, sc);
      var kind := BlockExitType(sb.jk);
      if kind.value != GE_IGNORE {
        gen.SetExitType(kind.value);
      }
      f := gen.EndBB(v);
    }

    /** Every emission starts with an empty array of temporaries. */
    method Clear()
      modifies values
      ensures Filled() == map[]
    {
      var i := 0;
      while i < values.Length
        invariant 0 <= i <= values.Length && forall k :: 0 <= k < i ==> values[k].None?
      {
        values[i] := None;
        i := i + 1;
      }
    }
  }

  lemma TracksEmpty(vals: Vals, sc: Scope)
    requires vals == map[] && sc.tt == map[]
    ensures Typed(vals, sc.tt)
  {
  }

  /** The temporaries a statement assigns have slots. */
  predicate Fits(s: Stmt, regs: nat) {
    match s
    case WrTmp(t, _) => t < regs
    case LoadG(_, dst, _, _, _) => dst < regs
    case CAS(oldLo, _, _, _, hi) => oldLo < regs && (hi.Some? ==> hi.value.oldHi < regs)
    case Dirty(_, _, _, _, out) => out.Some? ==> out.value.tmp < regs
    case _ => true
  }

  /** What a statement assigns has the type the scope says, and only what it says is assigned. */
  lemma TypedStmt(m: Machine, s: Emitted, st: Stmt, sc: Scope)
    requires Typed(s.vals, sc.tt) && s.vals.Keys <= sc.used && WfStmt(st, sc)
    ensures Typed(EmitStmt(m, s, st).vals, After(st, sc).tt)
    ensures EmitStmt(m, s, st).vals.Keys <= After(st, sc).used
  {
    hide WfExpr, WfExprs, EmitExpr, EmitStoreG, EmitGuardedLoad, EmitCasSingle, EmitCasDouble, EmitDirty, EmitExit, StoreMem,
         WriteCtx, WriteCtxIx, Builder.Emit, LiteralOne;
    var b, vals := s.b, s.vals;
    match st
    case WrTmp(t, data) => TypeExpr(m, b, vals, sc, data);
    case LoadG(cvt, dst, addr, alt, guard) => GuardedLoadType(m, b, vals, cvt, dst, addr, alt, guard);
    case CAS(oldLo, addr, expdLo, dataLo, hi) =>
      if hi.None? {
        CasType(m, b, vals, sc, oldLo, addr, expdLo, dataLo);
      } else {
        CasTypes(m, b, vals, sc, oldLo, addr, expdLo, dataLo, hi.value);
      }
    case Dirty(guard, f, retTy, args, out) => DirtyType(m, b, vals, guard, f, retTy, args, out);
    case _ =>
  }

  lemma GuardedLoadType(m: Machine, b: Build, vals: Vals, cvt: LoadGOp, dst: nat, addr: Expr, alt: Expr, guard: Expr)
    ensures
      var r := EmitGuardedLoad(m, b, vals, cvt, dst, addr, alt, guard).vals;
      dst in r && r == vals[dst := r[dst]] && r[dst].ty == LoadGResTy(cvt)
  {
    hide EmitExpr, EmitLoadG, SplitThree, Join, MoveTo, Terminate;
    var (b1, g) := EmitExpr(m, b, vals, guard);
    var (b2, a) := EmitExpr(m, b1, vals, addr);
    var (b3, av) := EmitExpr(m, b2, vals, alt);
    LoadGType(m, SplitThree(b3, g), cvt, a);
  }

  lemma LoadType(m: Machine, b: Build, a: Operand, ty: LTy)
    ensures LoadMem(m, b, a, ty).1.ty == ty
  {
  }

  lemma CasType(m: Machine, b: Build, vals: Vals, sc: Scope, oldLo: nat, addr: Expr, expd: Expr, data: Expr)
    requires Typed(vals, sc.tt) && WfExpr(expd, sc)
    ensures
      var r := EmitCasSingle(m, b, vals, oldLo, addr, expd, data).vals;
      oldLo in r && r == vals[oldLo := r[oldLo]] && r[oldLo].ty == TyOf(expd, sc.tt)
  {
    hide EmitExpr, LoadMem, Split, Join, MoveTo, StoreMem, Builder.Emit, WfExpr, Typed;
    var (b1, a) := EmitExpr(m, b, vals, addr);
    var (b2, e) := EmitExpr(m, b1, vals, expd);
    TypeExpr(m, b1, vals, sc, expd);
    LoadType(m, b2, a, e.ty);
  }

  lemma CasTypes(m: Machine, b: Build, vals: Vals, sc: Scope, oldLo: nat, addr: Expr, expd: Expr, data: Expr, hi: CasHi)
    requires Typed(vals, sc.tt) && WfExpr(expd, sc) && hi.oldHi != oldLo
    ensures
      var r := EmitCasDouble(m, b, vals, oldLo, addr, expd, data, hi).vals;
      oldLo in r && hi.oldHi in r && r == vals[oldLo := r[oldLo]][hi.oldHi := r[hi.oldHi]] &&
      r[oldLo].ty == r[hi.oldHi].ty == TyOf(expd, sc.tt)
  {
    hide EmitExpr, LoadMem, Split, Join, MoveTo, StoreMem, Builder.Emit, EmitCasHigh, WfExpr, Typed;
    var (b1, a) := EmitExpr(m, b, vals, addr);
    var (b2, e) := EmitExpr(m, b1, vals, expd);
    var (b3, was) := LoadMem(m, b2, a, e.ty);
    TypeExpr(m, b1, vals, sc, expd);
    LoadType(m, b2, a, e.ty);
    HighType(m, b3, vals, a, e, was, hi.expdHi);
  }

  lemma HighType(m: Machine, b: Build, vals: Vals, a: Operand, e: Operand, was: Operand, expdHi: Expr)
    ensures EmitCasHigh(m, b, vals, a, e, was, expdHi).wasHi.ty == e.ty
  {
    hide EmitExpr, LoadMem, Builder.Emit;
    var (b1, eHi) := EmitExpr(m, b, vals, expdHi);
    LoadType(m, Builder.Emit(b1, Arith(b1.next, a.ty, Add, a, Imm(BytesOf(e.ty), a.ty))), Reg(b1.next, a.ty), e.ty);
  }

  lemma CallType(m: Machine, b: Build, vals: Vals, f: nat, retTy: LTy, args: seq<Expr>, out: Option<DirtyTmp>)
    ensures
      var r := EmitCall(m, b, vals, f, retTy, args, out).vals;
      && (out.None? ==> r == vals)
      && (out.Some? ==>
            var t := out.value.tmp;
            t in r && r == vals[t := r[t]] && r[t].ty == DirtyTy(retTy, VexTy2LLVM(out.value.ty)))
  {
    hide EmitExprs, Builder.Emit;
  }

  lemma DirtyType(m: Machine, b: Build, vals: Vals, guard: Expr, f: nat, retTy: LTy, args: seq<Expr>, out: Option<DirtyTmp>)
    ensures
      var r := EmitDirty(m, b, vals, guard, f, retTy, args, out).vals;
      && (out.None? ==> r == vals)
      && (out.Some? ==>
            var t := out.value.tmp;
            t in r && r == vals[t := r[t]] && r[t].ty == DirtyTy(retTy, VexTy2LLVM(out.value.ty)))
  {
    hide EmitExpr, EmitCall, Split, Join, MoveTo, IsOne;
    var (b1, g) := EmitExpr(m, b, vals, guard);
    CallType(m, b1, vals, f, retTy, args, out);
    CallType(m, MoveTo(Split(b1, g), |b1.blocks|), vals, f, retTy, args, out);
  }

  lemma StateIs(gen: GenLLVM)
    requires gen.Valid()
    ensures gen.State().blocks == gen.blocks && gen.State().cur == gen.insertAt
  {
  }

  /** The stages of an emitted if-then-else. */
  lemma MuxEmitted(m: Machine, b: Build, vals: Vals, e: Expr, b1: Build, c: Operand, b2: Build, x: Operand, b3: Build,
                   xv: Operand, b4: Build, z: Operand, b5: Build, zv: Operand)
    requires e.Mux0X?
    requires (b1, c) == Lowering.EmitExpr(m, MuxOpen(b), vals, e.cond)
    requires (b2, x) == Lowering.EmitExpr(m, MuxBranch(b1, c, |b.blocks|), vals, e.exprX)
    requires (b3, xv) == MuxClose(b2, x, |b.blocks| + 2, |b.blocks|)
    requires (b4, z) == Lowering.EmitExpr(m, b3, vals, e.expr0)
    requires (b5, zv) == MuxClose(b4, z, |b.blocks| + 2, |b.blocks| + 2)
    ensures Lowering.EmitExpr(m, b, vals, e) == MuxPhi(b5, zv, b4.cur, xv, b2.cur)
  {
    hide Lowering.EmitExpr, MuxOpen, MuxBranch, MuxClose, MuxPhi;
    MuxRunResult(m, b, vals, e);
  }

  lemma UsableSlot(vals: Vals, tt: map<nat, LTy>, t: nat)
    requires Typed(vals, tt) && t in tt
    ensures t in vals
  {
  }
}
