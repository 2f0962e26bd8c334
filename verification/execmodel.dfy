/**
 Dispatch and self-modifying code: mappings are write-protected before code in them is
 translated, a write to a protected mapping faults, and the handler makes the mapping
 writable again and has its translations flushed before the next lookup.
 */
module ExecModel {
  import opened Options
  import opened ExitKinds
  import opened Bits
  import opened CodeMaps

  type Mem = map<nat, byte>

  datatype Prot = Prot(r: bool, w: bool, x: bool)

  /** What the guest asked for, and what the host page protection is now. */
  datatype Mapping = Mapping(off: nat, len: nat, req: Prot, cur: Prot) {
    function End(): nat {
      off + len
    }
  }

  predicate Holds(m: Mapping, a: nat) {
    m.off <= a < m.End()
  }

  /** The translator reads guest memory. */
  type Decoder = (Mem, nat) -> Option<Code>

  function ByteOf(mem: Mem, a: nat): byte {
    if a in mem then mem[a] else 0
  }

  predicate SameText(mem: Mem, mem': Mem, a: nat, n: nat) {
    forall i :: a <= i < a + n ==> ByteOf(mem, i) == ByteOf(mem', i)
  }

  /** A superblock is filed under its address and depends on no bytes but its own. */
  ghost predicate GoodDecoder(d: Decoder) {
    forall mem, a :: d(mem, a).Some? ==>
      d(mem, a).value.addr == a &&
      forall mem' :: SameText(mem, mem', a, |d(mem, a).value.bytes|) ==> d(mem', a) == d(mem, a)
  }

  const MAX_CODE_BYTES: nat := 1024

  datatype Exec = Exec(
    mem: Mem,
    maps: seq<Mapping>,
    code: Maps,
    toFlush: (nat, nat),
    next: nat,
    exitByte: byte,
    depth: int,
    exited: bool)

  /** The mapping that holds an address. */
  function LookupMapping(maps: seq<Mapping>, a: nat): (r: Option<nat>)
    ensures r.Some? ==> r.value < |maps| && Holds(maps[r.value], a)
    ensures r.None? ==> forall i :: 0 <= i < |maps| ==> !Holds(maps[i], a)
  {
    if maps == [] then None
    else
      var n := |maps| - 1;
      match LookupMapping(maps[..n], a)
      case Some(i) => Some(i)
      case None => if Holds(maps[n], a) then Some(n) else None
  }

  datatype Outcome<+T> = Fine(s: T) | Died | Hung

  /** The SIGSEGV handler: only a protected executable mapping is opened up again. */
  function HandleFault(s: Exec, i: nat): Option<Exec>
    requires i < |s.maps|
  {
    var m := s.maps[i];
    if m.req.x && !m.cur.w then
      Some(s.(maps := s.maps[i := m.(cur := m.req.(x := false))], toFlush := (m.off, m.End())))
    else None
  }

  /** A store by the guest; after a fault that was handled the store is tried again. */
  function GuestWrite(s: Exec, a: nat, v: byte): Outcome<Exec> {
    match LookupMapping(s.maps, a)
    case None => Fine(s.(mem := s.mem[a := v]))
    case Some(i) =>
      if s.maps[i].cur.w then Fine(s.(mem := s.mem[a := v]))
      else match HandleFault(s, i)
        case None => Died
        case Some(s') => if s'.maps[i].cur.w then Fine(s'.(mem := s'.mem[a := v])) else Hung
  }

  function WriteAll(s: Exec, ws: seq<(nat, byte)>): Outcome<Exec>
    decreases |ws|
  {
    if ws == [] then Fine(s)
    else match GuestWrite(s, ws[0].0, ws[0].1)
      case Fine(s') => WriteAll(s', ws[1..])
      case Died => Died
      case Hung => Hung
  }

  /** Offset zero means that nothing is pending. Addresses wrap at 2^64. */
  function FlushPending(s: Exec): Exec {
    if s.toFlush.0 == 0 then s
    else
      s.(code := FlushRange(s.code, (s.toFlush.0 + TWO64 - MAX_CODE_BYTES) % TWO64, (s.toFlush.1 + MAX_CODE_BYTES) % TWO64),
         toFlush := (0, 0))
  }

  datatype Found = Found(s: Exec, c: Code) | NoSB(s: Exec) | Abort

  /** Executable mappings are made read-only before they are translated from. */
  function Protect(s: Exec, i: nat): Exec
    requires i < |s.maps|
  {
    var m := s.maps[i];
    if m.cur.w then s.(maps := s.maps[i := m.(cur := m.req.(w := false))]) else s
  }

  function Translator(d: Decoder, mem: Mem): Xlate {
    (a: nat) => d(mem, a)
  }

  /** The superblock for a, with its code compiled; ahead when guest and host addresses coincide. */
  function GetSB(s: Exec, env: Env, d: Decoder, a: nat, ahead: bool): Found {
    var at := LookupMapping(s.maps, a);
    if at.Some? && !s.maps[at.value].req.x then NoSB(s)
    else
      var s1 := if at.Some? then Protect(s, at.value) else s;
      var (code1, c) := GetVsb(s1.code, env, a, Translator(d, s1.mem));
      if c.None? then NoSB(s1.(code := code1))
      else
        var code2 := GetFPtr(code1, env, a, Translator(d, s1.mem), ahead).0;
        if at.Some? && a + |c.value.bytes| >= s1.maps[at.value].End() then Abort
        else Found(s1.(code := code2), c.value)
  }

  /** What a run of the translated code does: its stores, its target, its kind of exit, and whether a system call ended the guest. */
  datatype BlockRun = BlockRun(writes: seq<(nat, byte)>, next: nat, kind: byte, exits: bool)

  datatype Stepped = Went(s: Exec, c: Code) | Stopped(s: Exec) | Aborted | Lost

  function Dispatch(kind: byte, depth: int): Option<int> {
    if kind == GE_CALL then Some(depth + 1)
    else if kind == GE_RETURN then Some(depth - 1)
    else if kind in {GE_IGNORE, GE_INT, GE_SYSCALL, GE_SIGTRAP, GE_EMWARN} then Some(depth)
    else None
  }

  /** After the run: the exit byte decides, and is reset. */
  function AfterRun(s: Exec, r: BlockRun, c: Code): Stepped {
    // an exit of kind GE_IGNORE writes nothing
    var kind := if r.kind == GE_IGNORE then s.exitByte else r.kind;
    match Dispatch(kind, s.depth)
    case None => Aborted
    case Some(d) =>
      if kind in {GE_INT, GE_SYSCALL} && r.exits then Stopped(s.(exited := true, exitByte := GE_IGNORE))
      else Went(s.(depth := d, exitByte := GE_IGNORE, next := r.next), c)
  }

  function Step(s: Exec, env: Env, d: Decoder, ahead: bool, r: BlockRun): Stepped {
    if s.exited then Stopped(s)
    else
      var s1 := FlushPending(s);
      if s1.next == 0 then Stopped(s1)
      else match GetSB(s1, env, d, s1.next, ahead)
        case Abort => Aborted
        case NoSB(s2) => Stopped(s2)
        case Found(s2, c) =>
          match WriteAll(s2, r.writes)
          case Fine(s3) => AfterRun(s3, r, c)
          case _ => Lost
  }
}
