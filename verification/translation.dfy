/**
 The translator as a whole: every dispatch runs the function emitted for the superblock at the
 next address, and what that does to registers, memory, address and call depth is what the VEX
 statements decoded from the memory of that moment mean.
 */
module Translation {
  import opened Options
  import opened ExitKinds
  import opened Bits
  import opened CodeMaps
  import opened ExecModel
  import opened Freshness
  import opened FreshRuns
  import StepLaws
  import VexIR
  import VexWf
  import Lowering
  import LowerCorrect
  import BlockLaws

  type Machine = VexIR.Machine
  type Context = VexIR.Bytes

  /** The superblock that libVEX makes of the code bytes at an address. */
  type Lift = Code -> VexIR.SB

  /** A superblock for which the lowering and the exit byte are right. */
  ghost predicate GoodBlock(m: Machine, sb: VexIR.SB) {
    && VexWf.WfSB(m, sb) && VexWf.SingleWidth(sb.stmts)
    && BlockLaws.SparesAll(m, sb.stmts, VexWf.Empty(m)) && BlockLaws.HelpersSpare(m)
  }

  // ---- what the guest means

  datatype GuestState = GuestState(ctx: Context, mem: Mem, pc: nat)

  function Clear(m: Machine, g: VexIR.Guest): Context {
    VexIR.SetExit(m, g, GE_IGNORE).ctx
  }

  /** The superblock at the program counter, interpreted, and the jump by which it is left. */
  function Meant(m: Machine, lift: Lift, d: Decoder, g: GuestState): Option<(GuestState, VexIR.JumpKind)> {
    match d(g.mem, g.pc)
    case None => None
    case Some(c) =>
      var start := VexIR.Guest(g.ctx, g.mem);
      var r := VexIR.Interp(m, lift(c), start);
      Some((GuestState(Clear(m, r.g), r.g.mem, r.next), BlockLaws.JumpOf(m, lift(c), start)))
  }

  datatype Journey = Journey(g: GuestState, calls: nat, rets: nat)

  /** One superblock more: calls and returns are counted by the jump that was taken. */
  function Onward(j: Journey, g: GuestState, jump: VexIR.JumpKind): Journey {
    Journey(g, if jump == VexIR.Call then j.calls + 1 else j.calls, if jump == VexIR.Ret then j.rets + 1 else j.rets)
  }

  /** So many superblocks, counting calls and returns. */
  function MeantAll(m: Machine, lift: Lift, d: Decoder, j: Journey, n: nat): Option<Journey>
    decreases n
  {
    if n == 0 then Some(j)
    else match Meant(m, lift, d, j.g)
      case None => None
      case Some((g, jump)) => MeantAll(m, lift, d, Onward(j, g, jump), n - 1)
  }

  // ---- what the translator does

  /** One dispatch: what the emitted function did to memory and control, and the registers it left. */
  datatype Event = Event(r: BlockRun, ctx: Context)

  /** r is what the function emitted for c returns on the registers ctx and the memory of s. */
  ghost predicate Performs(m: Machine, lift: Lift, s: Exec, ctx: Context, c: Code, e: Event) {
    exists g: VexIR.Guest ::
      && LowerCorrect.Returns(m, Lowering.EmitSB(m, lift(c)), VexIR.Guest(ctx, s.mem), e.r.next, g)
      && (WriteAll(s, e.r.writes).Fine? ==> WriteAll(s, e.r.writes).s.mem == g.mem)
      && e.r.kind == BlockLaws.ExitByte(m, g)
      && e.ctx == Clear(m, g)
  }

  /** The dispatch finds a superblock, its function is run, and it neither traps nor calls the system. */
  ghost predicate Dispatched(m: Machine, lift: Lift, s: Exec, env: Env, d: Decoder, ahead: bool, ctx: Context, e: Event) {
    var s1 := FlushPending(s);
    && LookupMapping(s.maps, s.next).Some?
    && e.r.kind !in {GE_INT, GE_SYSCALL, GE_SIGTRAP}
    && match GetSB(s1, env, d, s1.next, ahead)
       case Found(s2, c) => GoodBlock(m, lift(c)) && Performs(m, lift, s2, ctx, c, e)
       case _ => true
  }

  /** The returned function result is the interpretation, and its exit byte tells the jump taken. */
  lemma PerformsMeans(m: Machine, lift: Lift, s: Exec, ctx: Context, c: Code, e: Event)
    requires GoodBlock(m, lift(c)) && Performs(m, lift, s, ctx, c, e) && WriteAll(s, e.r.writes).Fine?
    requires BlockLaws.ExitByte(m, VexIR.Guest(ctx, s.mem)) == GE_IGNORE
    ensures
      var start := VexIR.Guest(ctx, s.mem);
      var r := VexIR.Interp(m, lift(c), start);
      && e.r.next == r.next && WriteAll(s, e.r.writes).s.mem == r.g.mem && e.ctx == Clear(m, r.g)
      && BlockLaws.Tells(e.r.kind, BlockLaws.JumpOf(m, lift(c), start))
  {
    hide VexIR.Interp, BlockLaws.JumpOf, Lowering.EmitSB, VexWf.WfSB, WriteAll, LowerCorrect.Returns, BlockLaws.ExitByte, Clear;
    var start := VexIR.Guest(ctx, s.mem);
    var g: VexIR.Guest :|
      && LowerCorrect.Returns(m, Lowering.EmitSB(m, lift(c)), start, e.r.next, g)
      && WriteAll(s, e.r.writes).s.mem == g.mem
      && e.r.kind == BlockLaws.ExitByte(m, g) && e.ctx == Clear(m, g);
    LowerCorrect.LoweringExact(m, lift(c), start, e.r.next, g);
    BlockLaws.ExitKindRecorded(m, lift(c), start, e.r.next, g);
  }

  lemma ClearIsClear(m: Machine, g: VexIR.Guest, mem: Mem)
    ensures BlockLaws.ExitByte(m, VexIR.Guest(Clear(m, g), mem)) == GE_IGNORE
  {
    BlockLaws.SetExitByte(m, g, GE_IGNORE);
  }

  /** What a dispatch leaves in memory is what the stores of the run leave there. */
  lemma StepMemory(s: Exec, env: Env, d: Decoder, ahead: bool, r: BlockRun)
    requires Step(s, env, d, ahead, r).Went?
    ensures
      var s1 := FlushPending(s);
      var f := GetSB(s1, env, d, s1.next, ahead);
      && f.Found? && f.c == Step(s, env, d, ahead, r).c && f.s.mem == s.mem && s1.next == s.next
      && WriteAll(f.s, r.writes).Fine? && Step(s, env, d, ahead, r).s.mem == WriteAll(f.s, r.writes).s.mem
  {
    hide GetVsb, GetFPtr, WriteAll, LookupMapping, FlushRange;
  }

  /**
   What the dispatcher does is decided by the jump by which the superblock was left: one call
   deeper exactly after Call, one less deep exactly after Ret; the guest is ended exactly by a
   system call that exits, and MapFail, SigSEGV and Yield are given up on.
   */
  lemma DispatchByJump(m: Machine, lift: Lift, s: Exec, env: Env, d: Decoder, ahead: bool, ctx: Context, c: Code, e: Event)
    requires StepLaws.RunsCode(s, env, d, ahead, e.r) && c == GetSB(FlushPending(s), env, d, s.next, ahead).c
    requires GoodBlock(m, lift(c)) && Performs(m, lift, GetSB(FlushPending(s), env, d, s.next, ahead).s, ctx, c, e)
    requires s.exitByte == 0 && BlockLaws.ExitByte(m, VexIR.Guest(ctx, s.mem)) == 0
    ensures
      var jump := BlockLaws.JumpOf(m, lift(c), VexIR.Guest(ctx, s.mem));
      var w := Step(s, env, d, ahead, e.r);
      && (w.Stopped? <==> (jump.SysSyscall? || jump.SysSysenter? || jump.SysInt128?) && e.r.exits)
      && (w.Aborted? <==> jump.MapFail? || jump.SigSEGV? || jump.Yield?)
      && (w.Stopped? ==> StepLaws.Left(w.s, s.next, s.depth, true))
      && (w.Went? ==>
            && StepLaws.Left(w.s, e.r.next, w.s.depth, false)
            && (w.s.depth == s.depth + 1 <==> jump.Call?) && (w.s.depth == s.depth - 1 <==> jump.Ret?)
            && (w.s.depth == s.depth <==> !jump.Call? && !jump.Ret?))
      && (w.Went? || w.Stopped? || w.Aborted?)
      && (e.r.kind == 1 <==> jump.SigTRAP?) && (e.r.kind == 0 <==> jump.Boring? || jump.NoRedir? || jump.ClientReq?)
  {
    hide GetSB, FlushPending, WriteAll, GoodBlock, BlockLaws.JumpOf, Performs, BlockLaws.ExitByte, Clear, LookupMapping, Step;
    LookupMemory(s, env, d, ahead);
    PerformsMeans(m, lift, GetSB(FlushPending(s), env, d, s.next, ahead).s, ctx, c, e);
    StepLaws.DispatchExact(s, env, d, ahead, e.r);
  }

  lemma LookupMemory(s: Exec, env: Env, d: Decoder, ahead: bool)
    requires GetSB(FlushPending(s), env, d, s.next, ahead).Found?
    ensures GetSB(FlushPending(s), env, d, s.next, ahead).s.mem == s.mem
  {
    hide GetVsb, GetFPtr, LookupMapping, FlushRange;
  }

  /** One dispatch does what the superblock decoded from memory now means. */
  lemma StepMeans(m: Machine, lift: Lift, s: Exec, env: Env, d: Decoder, ahead: bool, ctx: Context, e: Event)
    requires Fresh(s, d) && GoodDecoder(d) && CodeOk(s, env) && Calm(s, env, d, ahead, e.r)
    requires s.exitByte == GE_IGNORE && BlockLaws.ExitByte(m, VexIR.Guest(ctx, s.mem)) == GE_IGNORE
    requires Step(s, env, d, ahead, e.r).Went? && Dispatched(m, lift, s, env, d, ahead, ctx, e)
    ensures
      var w := Step(s, env, d, ahead, e.r).s;
      var o := Meant(m, lift, d, GuestState(ctx, s.mem, s.next));
      && o.Some? && o.value.0 == GuestState(e.ctx, w.mem, w.next)
      && w.exitByte == GE_IGNORE && BlockLaws.ExitByte(m, VexIR.Guest(e.ctx, w.mem)) == GE_IGNORE
      && w.depth == (if o.value.1 == VexIR.Call then s.depth + 1 else if o.value.1 == VexIR.Ret then s.depth - 1 else s.depth)
  {
    hide Fresh, GoodDecoder, CodeOk, Calm, Step, GetSB, FlushPending, WriteAll, GoodBlock, VexIR.Interp, BlockLaws.JumpOf, Performs,
         BlockLaws.ExitByte, Clear, LookupMapping;
    StepFresh(s, env, d, ahead, e.r);
    StepKind(s, env, d, ahead, e.r);
    StepMemory(s, env, d, ahead, e.r);
    var s1 := FlushPending(s);
    var f := GetSB(s1, env, d, s1.next, ahead);
    PerformsMeans(m, lift, f.s, ctx, f.c, e);
    var r := VexIR.Interp(m, lift(f.c), VexIR.Guest(ctx, s.mem));
    ClearIsClear(m, r.g, Step(s, env, d, ahead, e.r).s.mem);
  }

  /** Every dispatch of the run is calm, finds its superblock, and runs its function. */
  ghost predicate DispatchedAll(m: Machine, lift: Lift, s: Exec, env: Env, d: Decoder, ahead: bool, ctx: Context, es: seq<Event>)
    decreases |es|
  {
    es == [] ||
    (Calm(s, env, d, ahead, es[0].r) && Dispatched(m, lift, s, env, d, ahead, ctx, es[0]) &&
     match Step(s, env, d, ahead, es[0].r)
     case Went(s', _) => DispatchedAll(m, lift, s', env, d, ahead, es[0].ctx, es[1..])
     case _ => true)
  }

  function Runs(es: seq<Event>): (rs: seq<BlockRun>)
    ensures |rs| == |es|
  {
    seq(|es|, i requires 0 <= i < |es| => es[i].r)
  }

  /**
   Over any such run the translated guest is the interpreted one: the same registers, memory and
   address after every number of superblocks, each decoded from memory as it was then, and the
   call depth is the number of calls less the number of returns that the interpretation makes.
   */
  lemma {:induction false} RunMeans(m: Machine, lift: Lift, s: Exec, env: Env, d: Decoder, ahead: bool, ctx: Context, es: seq<Event>,
                                    calls: nat, rets: nat)
    requires Fresh(s, d) && GoodDecoder(d) && CodeOk(s, env)
    requires s.exitByte == GE_IGNORE && BlockLaws.ExitByte(m, VexIR.Guest(ctx, s.mem)) == GE_IGNORE
    requires DispatchedAll(m, lift, s, env, d, ahead, ctx, es) && StepAll(s, env, d, ahead, Runs(es)).Some?
    ensures
      var s' := StepAll(s, env, d, ahead, Runs(es)).value;
      var j := MeantAll(m, lift, d, Journey(GuestState(ctx, s.mem, s.next), calls, rets), |es|);
      && j.Some?
      && j.value.g == GuestState(if es == [] then ctx else es[|es| - 1].ctx, s'.mem, s'.next)
      && s'.depth - s.depth == (j.value.calls - calls) - (j.value.rets - rets)
    decreases |es|
  {
    hide Fresh, GoodDecoder, CodeOk, Calm, Step, Dispatched, Meant, BlockLaws.ExitByte;
    if es != [] {
      var e, rest := es[0], es[1..];
      assert Runs(es)[0] == e.r && Runs(es)[1..] == Runs(rest);
      StepFresh(s, env, d, ahead, e.r);
      StepMeans(m, lift, s, env, d, ahead, ctx, e);
      var w := Step(s, env, d, ahead, e.r).s;
      var o := Meant(m, lift, d, GuestState(ctx, s.mem, s.next)).value;
      var j := Onward(Journey(GuestState(ctx, s.mem, s.next), calls, rets), o.0, o.1);
      RunMeans(m, lift, w, env, d, ahead, e.ctx, rest, j.calls, j.rets);
    }
  }
}
