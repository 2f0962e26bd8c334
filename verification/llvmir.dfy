/**
 The target language: functions of basic blocks over single-assignment registers, with the
 few instructions the emitter uses, and a small-step meaning. Reading a register that was
 never written, indexing the context backwards, or leaving a block that has no terminator
 is stuck.
 */
module LlvmIR {
  import opened Options
  import opened Bits
  import opened VexIR

  datatype Operand = Reg(id: nat, ty: LTy) | Imm(n: nat, ty: LTy) | CtxArg(ty: LTy)

  datatype CastKind = ZExt | SExt | Trunc | BitCast
  datatype ArithKind = Add | URem | ICmpEQ

  /** Every instruction names the register it defines; stores and fences just waste theirs. */
  datatype Instr =
    | Cast(id: nat, ty: LTy, ck: CastKind, a: Operand)
    | Arith(id: nat, ty: LTy, ak: ArithKind, a: Operand, b: Operand)
    | CtxCast(id: nat, elem: LTy)
    | Gep(id: nat, elem: LTy, ptr: Operand, ix: Operand)
    | IntToPtr(id: nat, elem: LTy, a: Operand)
    | Ld(id: nat, ty: LTy, ptr: Operand)
    | St(id: nat, val: Operand, ptr: Operand)
    | Apply(id: nat, ty: LTy, f: nat, args: seq<Operand>)
    | CallDirty(id: nat, ty: LTy, f: nat, args: seq<Operand>)
    | Fence(id: nat)
    | Phi(id: nat, ty: LTy, v0: Operand, b0: nat, v1: Operand, b1: nat)

  datatype Term = NoTerm | Br(dest: nat) | CondBr(c: Operand, yes: nat, no: nat) | RetVal(v: Operand)

  /** dom is bookkeeping: the registers written on every way into the block. */
  datatype Block = Block(instrs: seq<Instr>, term: Term, dom: set<nat>)

  datatype Payload = Num(n: nat) | CtxPtr(off: nat) | HostPtr(addr: nat)

  type Regs = map<nat, Payload>

  datatype Config =
    | At(b: nat, pc: nat, prev: nat, regs: Regs, g: Guest)
    | Done(next: nat, g: Guest)

  function EvalOp(regs: Regs, o: Operand): Option<Payload> {
    match o
    case Reg(id, _) => if id in regs then Some(regs[id]) else None
    case Imm(n, _) => Some(Num(n))
    case CtxArg(_) => Some(CtxPtr(0))
  }

  function EvalVal(regs: Regs, o: Operand): Option<Val> {
    match EvalOp(regs, o)
    case Some(Num(n)) => Some(Val(BitsOf(o.ty), n))
    case _ => None
  }

  function EvalVals(regs: Regs, os: seq<Operand>): Option<seq<Val>> {
    if os == [] then Some([])
    else match (EvalVal(regs, os[0]), EvalVals(regs, os[1..]))
      case (Some(v), Some(vs)) => Some([v] + vs)
      case _ => None
  }

  /** The guest address behind a host pointer. */
  function Unreloc(m: Machine, h: nat): nat {
    (h + (TWO64 - m.base % TWO64)) % TWO64
  }

  function CastVal(ck: CastKind, v: Val, w: nat): nat {
    match ck
    case ZExt => v.n
    case BitCast => v.n
    case Trunc => v.n % Pow2(w)
    case SExt => if v.w == 0 then 0 else SignExtend(v.n, v.w, w)
  }

  function ArithVal(ak: ArithKind, x: nat, y: nat, w: nat): Option<nat> {
    match ak
    case Add => Some((x + y) % Pow2(w))
    case URem => if y == 0 then None else Some(x % y)
    case ICmpEQ => Some(if x == y then 1 else 0)
  }

  datatype Effect = Effect(regs: Regs, g: Guest)

  function LoadFrom(m: Machine, g: Guest, p: Payload, k: nat): Option<nat> {
    match p
    case CtxPtr(off) => Some(Read(g.ctx, off, k))
    case HostPtr(h) => Some(Read(g.mem, Unreloc(m, h), k))
    case Num(_) => None
  }

  function StoreTo(m: Machine, g: Guest, p: Payload, k: nat, n: nat): Option<Guest> {
    match p
    case CtxPtr(off) => Some(g.(ctx := Write(g.ctx, off, k, n)))
    case HostPtr(h) => Some(g.(mem := Write(g.mem, Unreloc(m, h), k, n)))
    case Num(_) => None
  }

  function Set(e: Effect, id: nat, n: Option<nat>): Option<Effect> {
    if n.None? then None else Some(e.(regs := e.regs[id := Num(n.value)]))
  }

  function ExecInstr(m: Machine, i: Instr, prev: nat, regs: Regs, g: Guest): Option<Effect> {
    var e := Effect(regs, g);
    match i
    case Cast(id, ty, ck, a) =>
      var v := EvalVal(regs, a);
      if v.None? then None else Set(e, id, Some(CastVal(ck, v.value, BitsOf(ty))))
    case Arith(id, ty, ak, a, b) =>
      var x, y := EvalVal(regs, a), EvalVal(regs, b);
      if x.None? || y.None? then None else Set(e, id, ArithVal(ak, x.value.n, y.value.n, BitsOf(a.ty)))
    case CtxCast(id, _) => Some(e.(regs := regs[id := CtxPtr(0)]))
    case Gep(id, elem, ptr, ix) =>
      (match (EvalOp(regs, ptr), EvalVal(regs, ix))
       case (Some(CtxPtr(off)), Some(k)) =>
         // the index is a signed 32-bit one; backwards is outside the context
         if k.n < 0x8000_0000 then Some(e.(regs := regs[id := CtxPtr(off + k.n * BytesOf(elem))])) else None
       case _ => None)
    case IntToPtr(id, _, a) =>
      var v := EvalVal(regs, a);
      if v.None? then None else Some(e.(regs := regs[id := HostPtr(v.value.n)]))
    case Ld(id, ty, ptr) =>
      var p := EvalOp(regs, ptr);
      if p.None? then None else Set(e, id, LoadFrom(m, g, p.value, BytesOf(ty)))
    case St(_, val, ptr) =>
      var v, p := EvalVal(regs, val), EvalOp(regs, ptr);
      if v.None? || p.None? then None
      else
        var g' := StoreTo(m, g, p.value, BytesOf(val.ty), v.value.n);
        if g'.None? then None else Some(e.(g := g'.value))
    case Apply(id, _, f, args) =>
      var vs := EvalVals(regs, args);
      if vs.None? then None else Set(e, id, Some(m.apply(f, vs.value)))
    case CallDirty(id, _, f, args) =>
      var vs := EvalVals(regs, args);
      if vs.None? then None
      else
        var r := m.dirty(f, vs.value, g);
        Some(Effect(regs[id := Num(r.ret)], r.g))
    case Fence(_) => Some(e)
    case Phi(id, _, v0, b0, v1, b1) =>
      var v := if prev == b0 then EvalVal(regs, v0) else if prev == b1 then EvalVal(regs, v1) else None;
      if v.None? then None else Set(e, id, Some(v.value.n))
  }

  function Step(m: Machine, bs: seq<Block>, c: Config): Option<Config> {
    if c.Done? || c.b >= |bs| then None
    else
      var blk := bs[c.b];
      if c.pc < |blk.instrs| then
        var e := ExecInstr(m, blk.instrs[c.pc], c.prev, c.regs, c.g);
        if e.None? then None else Some(At(c.b, c.pc + 1, c.prev, e.value.regs, e.value.g))
      else match blk.term
        case NoTerm => None
        case Br(d) => Some(At(d, 0, c.b, c.regs, c.g))
        case CondBr(o, yes, no) =>
          var v := EvalVal(c.regs, o);
          if v.None? then None else Some(At(if v.value.n == 0 then no else yes, 0, c.b, c.regs, c.g))
        case RetVal(o) =>
          var v := EvalVal(c.regs, o);
          if v.None? then None else Some(Done(v.value.n, c.g))
  }

  /** The configuration n steps after c, if the run gets that far. */
  function Steps(m: Machine, bs: seq<Block>, c: Config, n: nat): Option<Config>
    decreases n
  {
    if n == 0 then Some(c)
    else match Step(m, bs, c)
      case None => None
      case Some(c') => Steps(m, bs, c', n - 1)
  }

  ghost predicate Reach(m: Machine, bs: seq<Block>, c: Config, c': Config) {
    exists n: nat :: Steps(m, bs, c, n) == Some(c')
  }

  /** bs' adds to bs: more blocks, longer open blocks, nothing changed in closed ones. */
  predicate Grow(bs: seq<Block>, bs': seq<Block>) {
    |bs| <= |bs'| && forall k :: 0 <= k < |bs| ==> BlockGrow(bs[k], bs'[k])
  }

  predicate BlockGrow(x: Block, y: Block) {
    x.instrs <= y.instrs && x.dom == y.dom && (x.term != NoTerm ==> x == y)
  }

  lemma ReachRefl(m: Machine, bs: seq<Block>, c: Config)
    ensures Reach(m, bs, c, c)
  {
    assert Steps(m, bs, c, 0) == Some(c);
  }

  lemma ReachStep(m: Machine, bs: seq<Block>, c: Config, c': Config)
    requires Step(m, bs, c) == Some(c')
    ensures Reach(m, bs, c, c')
  {
    assert Steps(m, bs, c', 0) == Some(c');
    assert Steps(m, bs, c, 1) == Some(c');
  }

  lemma {:induction false} StepsAdd(m: Machine, bs: seq<Block>, c: Config, n: nat, k: nat)
    requires Steps(m, bs, c, n).Some?
    ensures Steps(m, bs, c, n + k) == Steps(m, bs, Steps(m, bs, c, n).value, k)
    decreases n
  {
    if n > 0 {
      StepsAdd(m, bs, Step(m, bs, c).value, n - 1, k);
    }
  }

  lemma ReachTrans(m: Machine, bs: seq<Block>, c0: Config, c1: Config, c2: Config)
    requires Reach(m, bs, c0, c1) && Reach(m, bs, c1, c2)
    ensures Reach(m, bs, c0, c2)
  {
    var n: nat :| Steps(m, bs, c0, n) == Some(c1);
    var k: nat :| Steps(m, bs, c1, k) == Some(c2);
    StepsAdd(m, bs, c0, n, k);
    assert Steps(m, bs, c0, n + k) == Some(c2);
  }

  /** A step the unfinished function can take is taken by every completion of it. */
  lemma StepGrow(m: Machine, bs: seq<Block>, bs': seq<Block>, c: Config)
    requires Grow(bs, bs') && Step(m, bs, c).Some?
    ensures Step(m, bs', c) == Step(m, bs, c)
  {
    assert BlockGrow(bs[c.b], bs'[c.b]);
  }

  lemma {:induction false} StepsGrow(m: Machine, bs: seq<Block>, bs': seq<Block>, c: Config, n: nat)
    requires Grow(bs, bs') && Steps(m, bs, c, n).Some?
    ensures Steps(m, bs', c, n) == Steps(m, bs, c, n)
    decreases n
  {
    if n > 0 {
      StepGrow(m, bs, bs', c);
      StepsGrow(m, bs, bs', Step(m, bs, c).value, n - 1);
    }
  }

  /** Runs survive later emission. */
  lemma ReachGrow(m: Machine, bs: seq<Block>, bs': seq<Block>, c: Config, c': Config)
    requires Grow(bs, bs') && Reach(m, bs, c, c')
    ensures Reach(m, bs', c, c')
  {
    var n: nat :| Steps(m, bs, c, n) == Some(c');
    StepsGrow(m, bs, bs', c, n);
  }

  lemma GrowTrans(a: seq<Block>, b: seq<Block>, c: seq<Block>)
    requires Grow(a, b) && Grow(b, c)
    ensures Grow(a, c)
  {
    forall k | 0 <= k < |a| ensures BlockGrow(a[k], c[k]) {
      assert BlockGrow(a[k], b[k]) && BlockGrow(b[k], c[k]);
    }
  }

  /** A function returns at most one result: the machine is deterministic. */
  lemma {:induction false} DoneUnique(m: Machine, bs: seq<Block>, c: Config, n: nat, k: nat)
    requires Steps(m, bs, c, n).Some? && Steps(m, bs, c, n).value.Done?
    requires Steps(m, bs, c, k).Some? && Steps(m, bs, c, k).value.Done?
    ensures Steps(m, bs, c, n) == Steps(m, bs, c, k)
    decreases n
  {
    if n > 0 && k > 0 {
      DoneUnique(m, bs, Step(m, bs, c).value, n - 1, k - 1);
    }
  }
}
