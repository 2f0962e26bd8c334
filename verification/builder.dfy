/**
 The function under construction: an insertion point that only ever appends, and the two
 memo tables for context addresses. Block 0 is the entry block.
 */
module Builder {
  import opened Bits
  import opened VexIR
  import opened LlvmIR

  datatype BState = BState(
    blocks: seq<Block>,
    cur: nat,
    next: nat,
    geps: map<(nat, nat), Operand>,
    casts: map<LTy, Operand>)

  type Build = b: BState | b.cur < |b.blocks| witness BState([Block([], NoTerm, {})], 0, 0, map[], map[])

  /** Registers defined by a run of instructions. */
  function Defs(text: seq<Instr>): set<nat> {
    set i | i in text :: i.id
  }

  /** Registers written on every way to the insertion point. */
  function Avail(b: Build): set<nat> {
    b.blocks[b.cur].dom + Defs(b.blocks[b.cur].instrs)
  }

  const Begin: Build := BState([Block([], NoTerm, {})], 0, 0, map[], map[])

  function Emit(b: Build, i: Instr): (r: Build)
    ensures |r.blocks| == |b.blocks| && r.cur == b.cur && r.next == b.next + 1
  {
    var blk := b.blocks[b.cur];
    b.(blocks := b.blocks[b.cur := blk.(instrs := blk.instrs + [i])], next := b.next + 1)
  }

  function Terminate(b: Build, t: Term): (r: Build)
    ensures |r.blocks| == |b.blocks| && r.cur == b.cur && r.next == b.next
  {
    b.(blocks := b.blocks[b.cur := b.blocks[b.cur].(term := t)])
  }

  /** A new empty block; its number is the old block count. */
  function NewBlock(b: Build): (r: Build)
    ensures |r.blocks| == |b.blocks| + 1 && r.cur == b.cur && r.next == b.next
  {
    b.(blocks := b.blocks + [Block([], NoTerm, Avail(b))])
  }

  function MoveTo(b: Build, k: nat): (r: Build)
    requires k < |b.blocks|
    ensures r.blocks == b.blocks && r.cur == k && r.next == b.next
  {
    b.(cur := k)
  }

  /** A byte offset in units of ty; the emitter asserts that ty has a size. */
  function Units(off: nat, ty: LTy): nat {
    if BytesOf(ty) == 0 then 0 else off / BytesOf(ty)
  }

  /** The address of element off, in units of ty, of the context. */
  function GetCtxTyGEP(b: Build, off: Operand, ty: LTy): (r: (Build, Operand))
    ensures |r.0.blocks| == |b.blocks| && r.0.cur == b.cur && b.next <= r.0.next
  {
    var cast := Emit(b, CtxCast(b.next, ty));
    var r := Reg(b.next, PtrTy(ty));
    var (b1, base) :=
      if b.cur != 0 then (cast, r)
      else if ty !in b.casts then (cast.(casts := b.casts[ty := r]), r)
      else (b, b.casts[ty]);
    (Emit(b1, Gep(b1.next, ty, base, off)), Reg(b1.next, PtrTy(ty)))
  }

  /** The address of a fixed context offset. A remembered address is reused in the entry block only. */
  function GetCtxByteGEP(b: Build, off: nat, ty: LTy): (r: (Build, Operand))
    ensures |r.0.blocks| == |b.blocks| && r.0.cur == b.cur && b.next <= r.0.next
  {
    var key := (off, BytesOf(ty));
    if key in b.geps && b.cur == 0 && b.geps[key].ty == PtrTy(ty) then (b, b.geps[key])
    else
      var (b1, gep) := GetCtxTyGEP(b, Imm(Units(off, ty), IntTy(32)), ty);
      (if key in b.geps then b1 else b1.(geps := b1.geps[key := gep]), gep)
  }

  function ReadCtx(b: Build, off: nat, ty: LTy): (r: (Build, Operand))
    ensures |r.0.blocks| == |b.blocks| && r.0.cur == b.cur && b.next <= r.0.next
  {
    var (b1, p) := GetCtxByteGEP(b, off, ty);
    (Emit(b1, Ld(b1.next, ty, p)), Reg(b1.next, ty))
  }

  function WriteCtx(b: Build, off: nat, v: Operand): (r: Build)
    ensures |r.blocks| == |b.blocks| && r.cur == b.cur && b.next <= r.next
  {
    var (b1, p) := GetCtxByteGEP(b, off, v.ty);
    Emit(b1, St(b1.next, v, p))
  }

  /** ((ix + bias) urem nElems) + base, all in 32 bits and in units of ty. */
  function IndexOffset(b: Build, arr: RegArray, bias: int, ix: Operand, ty: LTy): (r: (Build, Operand))
    ensures |r.0.blocks| == |b.blocks| && r.0.cur == b.cur && b.next <= r.0.next
  {
    var i32 := IntTy(32);
    var b1 := Emit(b, Cast(b.next, i32, BitCast, ix));
    var b2 := Emit(b1, Arith(b1.next, i32, Add, Reg(b.next, i32), Imm(bias % TWO32, i32)));
    var b3 := Emit(b2, Arith(b2.next, i32, URem, Reg(b1.next, i32), Imm(arr.nElems, i32)));
    (Emit(b3, Arith(b3.next, i32, Add, Reg(b2.next, i32), Imm(Units(arr.base, ty), i32))), Reg(b3.next, i32))
  }

  function ReadCtxIx(b: Build, arr: RegArray, bias: int, ix: Operand, ty: LTy): (r: (Build, Operand))
    ensures |r.0.blocks| == |b.blocks| && r.0.cur == b.cur && b.next <= r.0.next
  {
    var (b1, off) := IndexOffset(b, arr, bias, ix, ty);
    var (b2, p) := GetCtxTyGEP(b1, off, ty);
    (Emit(b2, Ld(b2.next, ty, p)), Reg(b2.next, ty))
  }

  function WriteCtxIx(b: Build, arr: RegArray, bias: int, ix: Operand, v: Operand): (r: Build)
    ensures |r.blocks| == |b.blocks| && r.cur == b.cur && b.next <= r.next
  {
    var (b1, off) := IndexOffset(b, arr, bias, ix, v.ty);
    var (b2, p) := GetCtxTyGEP(b1, off, v.ty);
    Emit(b2, St(b2.next, v, p))
  }

  /** A 32-bit guest address is widened to a host-sized one. */
  function Widen(m: Machine, b: Build, addr: Operand): (r: (Build, Operand))
    ensures |r.0.blocks| == |b.blocks| && r.0.cur == b.cur && b.next <= r.0.next
  {
    if m.is32 then (Emit(b, Cast(b.next, IntTy(64), ZExt, addr)), Reg(b.next, IntTy(64))) else (b, addr)
  }

  /** The base of guest memory is added, unless it is zero. */
  function Rebase(m: Machine, b: Build, a: Operand): (r: (Build, Operand))
    ensures |r.0.blocks| == |b.blocks| && r.0.cur == b.cur && b.next <= r.0.next
  {
    if m.base == 0 then (b, a)
    else (Emit(b, Arith(b.next, IntTy(64), Add, a, Imm(m.base, IntTy(64)))), Reg(b.next, IntTy(64)))
  }

  /** Guest address to host pointer. */
  function HostAddr(m: Machine, b: Build, addr: Operand, ty: LTy): (r: (Build, Operand))
    ensures |r.0.blocks| == |b.blocks| && r.0.cur == b.cur && b.next <= r.0.next
  {
    var (b1, a1) := Widen(m, b, addr);
    var (b2, a2) := Rebase(m, b1, a1);
    (Emit(b2, IntToPtr(b2.next, ty, a2)), Reg(b2.next, PtrTy(ty)))
  }

  function LoadMem(m: Machine, b: Build, addr: Operand, ty: LTy): (r: (Build, Operand))
    ensures |r.0.blocks| == |b.blocks| && r.0.cur == b.cur && b.next <= r.0.next
  {
    var (b1, p) := HostAddr(m, b, addr, ty);
    (Emit(b1, Ld(b1.next, ty, p)), Reg(b1.next, ty))
  }

  function StoreMem(m: Machine, b: Build, addr: Operand, v: Operand): (r: Build)
    ensures |r.blocks| == |b.blocks| && r.cur == b.cur && b.next <= r.next
  {
    var (b1, p) := HostAddr(m, b, addr, v.ty);
    Emit(b1, St(b1.next, v, p))
  }

  function SetExitType(m: Machine, b: Build, kind: byte): (r: Build)
    ensures |r.blocks| == |b.blocks| && r.cur == b.cur && b.next <= r.next
  {
    WriteCtx(b, m.exitOff, Imm(kind, IntTy(8)))
  }
}
