/**
 The VEX superblock language and its meaning.

 Expressions are pure and total. The operators are left open: an operator or a pure
 helper call is a number, and a Machine says what every number computes, so the results
 hold for any set of operators.
 */
module VexIR {
  import opened Options
  import opened ExitKinds
  import opened Bits

  /** A byte store: the guest register context by offset, or guest memory by address. */
  type Bytes = map<nat, byte>

  datatype Guest = Guest(ctx: Bytes, mem: Bytes)

  /** A value as VEX sees it: a width in bits and a bit pattern. */
  datatype Val = Val(w: nat, n: nat)

  datatype IRType = I1 | I8 | I16 | I32 | I64 | F32 | F64 | V128 | V256

  /** The types the emitter gives to values. Two types of one size are still different types. */
  datatype LTy = IntTy(bits: nat) | FpTy(bits: nat) | VecTy(bits: nat) | PtrTy(elem: LTy)

  function VexTy2LLVM(ty: IRType): LTy {
    match ty
    case I1 => IntTy(1)
    case I8 => IntTy(8)
    case I16 => IntTy(16)
    case I32 => IntTy(32)
    case I64 => IntTy(64)
    case F32 => FpTy(32)
    case F64 => FpTy(64)
    case V128 => VecTy(128)
    case V256 => VecTy(256)
  }

  function BitsOf(ty: LTy): nat {
    match ty
    case PtrTy(_) => 64
    case IntTy(b) => b
    case FpTy(b) => b
    case VecTy(b) => b
  }

  function BytesOf(ty: LTy): nat {
    BitsOf(ty) / 8
  }

  datatype Con =
    | U(w: nat, n: nat)
    | F64i(bits: nat)
    | V128(mask16: nat)
    | V256(mask32: nat)

  /** The wide constant a byte mask stands for: byte i is 0xFF exactly when mask bit i is set. */
  function MaskBytes(mask: nat, k: nat): nat {
    if k == 0 then 0
    else (if mask % 2 == 1 then 0xFF else 0) + 256 * MaskBytes(mask / 2, k - 1)
  }

  function ConTy(c: Con): LTy {
    match c
    case U(w, _) => IntTy(w)
    case F64i(_) => FpTy(64)
    case V128(_) => VecTy(128)
    case V256(_) => VecTy(256)
  }

  function ConVal(c: Con): nat {
    match c
    case U(_, n) => n
    case F64i(bits) => bits
    case V128(mask) => MaskBytes(mask, 16)
    case V256(mask) => MaskBytes(mask, 32)
  }

  /** A slice of the context that is indexed like an array. */
  datatype RegArray = RegArray(base: nat, nElems: nat, elemTy: IRType)

  datatype Expr =
    | Get(off: nat, ty: IRType)
    | GetI(arr: RegArray, ix: Expr, bias: int)
    | RdTmp(tmp: nat)
    | Op(f: nat, rty: LTy, args: seq<Expr>)
    | Load(lty: IRType, addr: Expr)
    | Const(c: Con)
    | Mux0X(cond: Expr, expr0: Expr, exprX: Expr)

  datatype LoadGOp = Ident32 | IdentV128 | Cvt8Uto32 | Cvt8Sto32 | Cvt16Uto32 | Cvt16Sto32

  datatype JumpKind =
    | Boring | NoRedir | ClientReq | Call | Ret | Yield
    | SysSysenter | SysSyscall | SysInt128 | SigTRAP
    | MapFail | SigSEGV | EmWarn | NoDecode

  datatype CasHi = CasHi(oldHi: nat, expdHi: Expr, dataHi: Expr)

  datatype Stmt =
    | NoOp
    | IMark(iaddr: nat, ilen: nat)
    | AbiHint
    | MBE
    | Put(off: nat, data: Expr)
    | PutI(arr: RegArray, ix: Expr, bias: int, data: Expr)
    | WrTmp(tmp: nat, data: Expr)
    | Store(addr: Expr, data: Expr)
    | StoreG(addr: Expr, data: Expr, guard: Expr)
    | LoadG(cvt: LoadGOp, dst: nat, addr: Expr, alt: Expr, guard: Expr)
    | CAS(oldLo: nat, addr: Expr, expdLo: Expr, dataLo: Expr, hi: Option<CasHi>)
    | Dirty(guard: Expr, f: nat, retTy: LTy, args: seq<Expr>, out: Option<DirtyTmp>)
    | Exit(guard: Expr, jk: JumpKind, dst: nat)

  datatype DirtyTmp = DirtyTmp(tmp: nat, ty: IRType)

  datatype SB = SB(stmts: seq<Stmt>, next: Expr, jk: JumpKind)

  /** Kinds a guarded exit can carry; the emitter refuses the others. */
  function StmtExitType(jk: JumpKind): Option<byte> {
    match jk
    case Boring => Some(GE_IGNORE)
    case Call => Some(GE_CALL)
    case Ret => Some(GE_RETURN)
    case SysInt128 => Some(GE_INT)
    case SysSyscall => Some(GE_SYSCALL)
    case SysSysenter => Some(GE_SYSCALL)
    case MapFail => Some(GE_SIGSEGV)
    case SigSEGV => Some(GE_SIGSEGV)
    case EmWarn => Some(GE_EMWARN)
    case NoDecode => Some(GE_EMWARN)
    case _ => None
  }

  /** Kinds the end of a superblock can carry; the emitter refuses the others. */
  function BlockExitType(jk: JumpKind): Option<byte> {
    match jk
    case Boring => Some(GE_IGNORE)
    case NoRedir => Some(GE_IGNORE)
    case ClientReq => Some(GE_IGNORE)
    case Call => Some(GE_CALL)
    case Ret => Some(GE_RETURN)
    case Yield => Some(GE_YIELD)
    case SysSysenter => Some(GE_SYSCALL)
    case SysSyscall => Some(GE_SYSCALL)
    case SysInt128 => Some(GE_INT)
    case SigTRAP => Some(GE_SIGTRAP)
    case _ => None
  }

  /** What an exit of each kind tells the dispatcher, numbered as GuestExitType numbers it. */
  function JumpByte(jk: JumpKind): byte {
    match jk
    case Boring => 0
    case NoRedir => 0
    case ClientReq => 0
    case SigTRAP => 1
    case MapFail => 2
    case SigSEGV => 2
    case EmWarn => 4
    case NoDecode => 4
    case SysSyscall => 5
    case SysSysenter => 5
    case Call => 6
    case Ret => 7
    case Yield => 8
    case SysInt128 => 9
  }

  datatype DirtyOut = DirtyOut(ret: nat, g: Guest)

  /**
   What the surroundings supply: the meaning of operators and helpers, whether the guest is
   a 32-bit one, where guest memory sits in the host, and where the exit byte sits.
   */
  datatype Machine = Machine(
    apply: (nat, seq<Val>) -> nat,
    dirty: (nat, seq<Val>, Guest) -> DirtyOut,
    is32: bool,
    base: nat,
    exitOff: nat)

  /** An address is 64 bits wide. */
  function Low64(n: nat): nat {
    n % TWO64
  }

  /** Little-endian read of k bytes; bytes never written read as zero. */
  function Read(m: Bytes, a: nat, k: nat): nat
    decreases k
  {
    if k == 0 then 0
    else (if a in m then m[a] else 0) + 256 * Read(m, a + 1, k - 1)
  }

  /** Little-endian write of the low k bytes of n. */
  function Write(m: Bytes, a: nat, k: nat, n: nat): Bytes
    decreases k
  {
    if k == 0 then m
    else Write(m[a := n % 256], a + 1, k - 1, n / 256)
  }

  /** The element of a context array that an index selects. */
  function Slot(arr: RegArray, ix: Val, bias: int): nat {
    if arr.nElems == 0 then 0 else (ix.n % TWO32 + bias) % arr.nElems
  }

  /** The context offset of the element that an index selects, for elements of k bytes. */
  function SlotOff(arr: RegArray, ix: Val, bias: int, k: nat): nat {
    arr.base + Slot(arr, ix, bias) * k
  }

  /** A 64-bit vector leaves the if-then-else as a plain integer (flattenType). */
  function Flat(ty: LTy): LTy {
    if ty.VecTy? && ty.bits <= 64 then IntTy(ty.bits) else ty
  }

  /** The type the emitter's value for e has, given those of the temporaries. */
  function TyOf(e: Expr, tt: map<nat, LTy>): LTy {
    match e
    case Get(_, ty) => VexTy2LLVM(ty)
    case GetI(arr, _, _) => VexTy2LLVM(arr.elemTy)
    case RdTmp(t) => if t in tt then tt[t] else IntTy(0)
    case Op(_, rty, _) => rty
    case Load(lty, _) => VexTy2LLVM(lty)
    case Const(c) => ConTy(c)
    case Mux0X(_, expr0, _) => Flat(TyOf(expr0, tt))
  }

  function Eval(m: Machine, g: Guest, tmps: map<nat, Val>, e: Expr): Val
    decreases e, 0
  {
    match e
    case Get(off, ty) =>
      var t := VexTy2LLVM(ty);
      Val(BitsOf(t), Read(g.ctx, off, BytesOf(t)))
    case GetI(arr, ix, bias) =>
      var t := VexTy2LLVM(arr.elemTy);
      var i := Eval(m, g, tmps, ix);
      Val(BitsOf(t), Read(g.ctx, SlotOff(arr, i, bias, BytesOf(t)), BytesOf(t)))
    case RdTmp(t) => if t in tmps then tmps[t] else Val(0, 0)
    case Op(f, rty, args) => Val(BitsOf(rty), m.apply(f, EvalAll(m, g, tmps, args)))
    case Load(lty, addr) => LoadVal(g, Eval(m, g, tmps, addr), VexTy2LLVM(lty))
    case Const(c) => Val(BitsOf(ConTy(c)), ConVal(c))
    case Mux0X(cond, expr0, exprX) =>
      // strict, as VEX defines it: both arms have a value whatever the condition
      var z, x := Eval(m, g, tmps, expr0), Eval(m, g, tmps, exprX);
      if Eval(m, g, tmps, cond).n == 0 then z else x
  }

  function EvalAll(m: Machine, g: Guest, tmps: map<nat, Val>, es: seq<Expr>): (vs: seq<Val>)
    ensures |vs| == |es|
    decreases es, 1
  {
    if es == [] then [] else [Eval(m, g, tmps, es[0])] + EvalAll(m, g, tmps, es[1..])
  }

  function LoadVal(g: Guest, addr: Val, ty: LTy): Val {
    Val(BitsOf(ty), Read(g.mem, Low64(addr.n), BytesOf(ty)))
  }

  function StoreVal(g: Guest, addr: Val, v: Val): Guest {
    g.(mem := Write(g.mem, Low64(addr.n), v.w / 8, v.n))
  }

  function PutVal(g: Guest, off: nat, v: Val): Guest {
    g.(ctx := Write(g.ctx, off, v.w / 8, v.n))
  }

  function SetExit(m: Machine, g: Guest, kind: byte): Guest {
    PutVal(g, m.exitOff, Val(8, kind))
  }

  function LoadGTy(cvt: LoadGOp): LTy {
    match cvt
    case Ident32 => IntTy(32)
    case IdentV128 => VecTy(128)
    case Cvt8Uto32 => IntTy(8)
    case Cvt8Sto32 => IntTy(8)
    case Cvt16Uto32 => IntTy(16)
    case Cvt16Sto32 => IntTy(16)
  }

  function LoadGResTy(cvt: LoadGOp): LTy {
    if cvt.IdentV128? then VecTy(128) else IntTy(32)
  }

  function LoadGVal(cvt: LoadGOp, v: Val): Val {
    match cvt
    case Ident32 => v
    case IdentV128 => v
    case Cvt8Uto32 => Val(32, v.n)
    case Cvt16Uto32 => Val(32, v.n)
    case Cvt8Sto32 => Val(32, SignExtend(v.n, 8, 32))
    case Cvt16Sto32 => Val(32, SignExtend(v.n, 16, 32))
  }

  /** A helper's result is widened or cut to the width of the temporary it lands in. */
  function DirtyVal(ret: nat, from: LTy, to: LTy): Val {
    Val(BitsOf(to), if BitsOf(from) > BitsOf(to) then ret % Pow2(BitsOf(to)) else ret)
  }

  datatype Outcome =
    | Go(g: Guest, tmps: map<nat, Val>)
    | Left(next: nat, g: Guest)

  /** One statement of the superblock. */
  function Exec(m: Machine, s: Stmt, g: Guest, tmps: map<nat, Val>): Outcome {
    hide *;
    match s
    case NoOp => Go(g, tmps)
    case IMark(_, _) => Go(g, tmps)
    case AbiHint => Go(g, tmps)
    case MBE => Go(g, tmps)
    case Put(off, data) => Go(PutVal(g, off, Eval(m, g, tmps, data)), tmps)
    case PutI(arr, ix, bias, data) =>
      var v := Eval(m, g, tmps, data);
      Go(PutVal(g, SlotOff(arr, Eval(m, g, tmps, ix), bias, v.w / 8), v), tmps)
    case WrTmp(t, data) => Go(g, tmps[t := Eval(m, g, tmps, data)])
    case Store(addr, data) => Go(StoreVal(g, Eval(m, g, tmps, addr), Eval(m, g, tmps, data)), tmps)
    case StoreG(addr, data, guard) =>
      if Eval(m, g, tmps, guard).n == 0 then Go(g, tmps)
      else Go(StoreVal(g, Eval(m, g, tmps, addr), Eval(m, g, tmps, data)), tmps)
    case LoadG(cvt, dst, addr, alt, guard) =>
      if Eval(m, g, tmps, guard).n == 0 then Go(g, tmps[dst := Eval(m, g, tmps, alt)])
      else Go(g, tmps[dst := LoadGVal(cvt, LoadVal(g, Eval(m, g, tmps, addr), LoadGTy(cvt)))])
    case CAS(oldLo, addr, expdLo, dataLo, hi) =>
      var a, e := Eval(m, g, tmps, addr), Eval(m, g, tmps, expdLo);
      var d := Eval(m, g, tmps, dataLo);
      if hi.None? then CasSingle(g, tmps, oldLo, a, e, d)
      else CasDouble(g, tmps, oldLo, hi.value.oldHi, a, e, Eval(m, g, tmps, hi.value.expdHi), d,
                     Eval(m, g, tmps, hi.value.dataHi))
    case Dirty(guard, f, retTy, args, out) =>
      if Eval(m, g, tmps, guard).n == 0 then Go(g, tmps)
      else
        var r := m.dirty(f, EvalAll(m, g, tmps, args), g);
        Go(r.g, if out.None? then tmps
                else tmps[out.value.tmp := DirtyVal(r.ret, retTy, VexTy2LLVM(out.value.ty))])
    case Exit(guard, jk, dst) =>
      if Eval(m, g, tmps, guard).n == 0 then Go(g, tmps)
      else Left(Low64(dst), ExitGuest(m, g, jk))
  }

  function MemVal(g: Guest, a: Val, w: nat): Val {
    Val(w, Read(g.mem, Low64(a.n), w / 8))
  }

  /** Compare and swap: the old value always comes back, the new one lands only on a match. */
  function CasSingle(g: Guest, tmps: map<nat, Val>, oldLo: nat, a: Val, e: Val, d: Val): Outcome {
    var was := MemVal(g, a, e.w);
    Go(if e.n == was.n then StoreVal(g, a, d) else g, tmps[oldLo := was])
  }

  function HiAddr(a: Val, w: nat): Val {
    Val(a.w, (a.n + w / 8) % Pow2(a.w))
  }

  /** Double-width compare and swap as VEX means it. */
  function CasDouble(g: Guest, tmps: map<nat, Val>, oldLo: nat, oldHi: nat,
                     a: Val, eLo: Val, eHi: Val, dLo: Val, dHi: Val): Outcome
  {
    var aHi := HiAddr(a, eLo.w);
    var lo, hi := MemVal(g, a, eLo.w), MemVal(g, aHi, eLo.w);
    Go(if eLo.n == lo.n && eHi.n == hi.n then StoreVal(StoreVal(g, a, dLo), aHi, dHi) else g,
       tmps[oldLo := lo][oldHi := hi])
  }

  /** What leaving by an exit of kind jk does to the guest: ordinary jumps write nothing. */
  function ExitGuest(m: Machine, g: Guest, jk: JumpKind): Guest {
    if JumpByte(jk) == 0 then g else SetExit(m, g, JumpByte(jk))
  }

  /** Statements in order; a taken guarded exit skips the rest. */
  function ExecAll(m: Machine, ss: seq<Stmt>, g: Guest, tmps: map<nat, Val>): Outcome {
    if ss == [] then Go(g, tmps)
    else match Exec(m, ss[0], g, tmps)
      case Left(next, g') => Left(next, g')
      case Go(g', tmps') => ExecAll(m, ss[1..], g', tmps')
  }

  datatype Result = Result(next: nat, g: Guest)

  /** A whole superblock: where control goes next and the guest it leaves behind. */
  function Interp(m: Machine, sb: SB, g: Guest): Result {
    match ExecAll(m, sb.stmts, g, map[])
    case Left(next, g') => Result(next, g')
    case Go(g', tmps) => Result(Eval(m, g', tmps, sb.next).n, ExitGuest(m, g', sb.jk))
  }
}
