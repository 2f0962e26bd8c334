/**
 Single assignment and dominance: every register is defined once, every use is preceded by
 its definition on every path from the entry block, and every phi lists exactly the blocks
 that jump to it.
 */
module Ssa {
  import opened LlvmIR
  import opened Builder
  import opened Extension

  function OpUses(o: Operand): set<nat> {
    if o.Reg? then {o.id} else {}
  }

  function AllUses(os: seq<Operand>): set<nat> {
    set o | o in os && o.Reg? :: o.id
  }

  function Uses(i: Instr): set<nat> {
    match i
    case Cast(_, _, _, a) => OpUses(a)
    case Arith(_, _, _, a, b) => OpUses(a) + OpUses(b)
    case CtxCast(_, _) => {}
    case Gep(_, _, ptr, ix) => OpUses(ptr) + OpUses(ix)
    case IntToPtr(_, _, a) => OpUses(a)
    case Ld(_, _, ptr) => OpUses(ptr)
    case St(_, val, ptr) => OpUses(val) + OpUses(ptr)
    case Apply(_, _, _, args) => AllUses(args)
    case CallDirty(_, _, _, args) => AllUses(args)
    case Fence(_) => {}
    case Phi(_, _, v0, _, v1, _) => OpUses(v0) + OpUses(v1)
  }

  function TermUses(t: Term): set<nat> {
    match t
    case CondBr(c, _, _) => OpUses(c)
    case RetVal(v) => OpUses(v)
    case _ => {}
  }

  function Succs(t: Term): set<nat> {
    match t
    case Br(d) => {d}
    case CondBr(_, yes, no) => {yes, no}
    case _ => {}
  }

  /** Registers defined by the time the end of the block is reached. */
  function End(blk: Block): set<nat> {
    blk.dom + Defs(blk.instrs)
  }

  predicate PhiOk(bs: seq<Block>, k: nat, i: Instr)
    requires i.Phi?
  {
    && i.b0 < |bs| && i.b1 < |bs| && i.b0 != i.b1
    && k in Succs(bs[i.b0].term) && k in Succs(bs[i.b1].term)
    && OpUses(i.v0) <= End(bs[i.b0]) && OpUses(i.v1) <= End(bs[i.b1])
    && PredsOnly(bs, k, {i.b0, i.b1})
  }

  predicate PredsOnly(bs: seq<Block>, k: nat, from: set<nat>) {
    forall p :: 0 <= p < |bs| && k in Succs(bs[p].term) ==> p in from
  }

  predicate InstrOk(bs: seq<Block>, k: nat, j: nat)
    requires k < |bs| && j < |bs[k].instrs|
  {
    var i := bs[k].instrs[j];
    if i.Phi? then PhiOk(bs, k, i) else Uses(i) <= bs[k].dom + Defs(bs[k].instrs[..j])
  }

  /** Where control goes next, everything the target counts on is defined. */
  predicate TermOk(bs: seq<Block>, k: nat)
    requires k < |bs|
  {
    && TermUses(bs[k].term) <= End(bs[k])
    && forall t :: t in Succs(bs[k].term) ==> 0 < t < |bs| && bs[t].dom <= End(bs[k])
  }

  predicate Dominated(bs: seq<Block>) {
    && |bs| > 0 && bs[0].dom == {}
    && (forall k, j :: 0 <= k < |bs| && 0 <= j < |bs[k].instrs| ==> InstrOk(bs, k, j))
    && (forall k :: 0 <= k < |bs| ==> TermOk(bs, k))
  }

  /** Every register below n, and defined in one place only. */
  predicate Single(bs: seq<Block>, n: nat) {
    && (forall k, j :: 0 <= k < |bs| && 0 <= j < |bs[k].instrs| ==> bs[k].instrs[j].id < n)
    && (forall k, j, k', j' ::
          (0 <= k < |bs| && 0 <= j < |bs[k].instrs| && 0 <= k' < |bs| && 0 <= j' < |bs[k'].instrs| &&
           bs[k].instrs[j].id == bs[k'].instrs[j'].id) ==> k == k' && j == j')
  }

  /** A remembered address may only be reused where it is defined. */
  predicate MemoIn(b: Build) {
    b.cur == 0 ==>
      && (forall ty :: ty in b.casts ==> OpUses(b.casts[ty]) <= Avail(b))
      && (forall k :: k in b.geps ==> OpUses(b.geps[k]) <= Avail(b))
  }

  predicate Sound(b: Build) {
    Dominated(b.blocks) && Single(b.blocks, b.next) && MemoIn(b)
  }

  /** No edge into an old block was added. */
  predicate Edges(a: Build, b: Build) {
    |a.blocks| <= |b.blocks| &&
    forall p, t :: 0 <= p < |b.blocks| && t in Succs(b.blocks[p].term) && t < |a.blocks| ==>
      p < |a.blocks| && t in Succs(a.blocks[p].term)
  }

  /** Sound emission: what was defined stays defined. */
  predicate Flow(a: Build, b: Build) {
    Sound(a) && Sound(b) && Avail(a) <= Avail(b) && Edges(a, b)
  }

  predicate In(o: Operand, b: Build) {
    OpUses(o) <= Avail(b)
  }

  lemma FlowRefl(b: Build)
    requires Sound(b)
    ensures Flow(b, b)
  {
  }

  lemma FlowTrans(a: Build, b: Build, c: Build)
    requires Flow(a, b) && Flow(b, c)
    ensures Flow(a, c)
  {
  }

  lemma FlowIn(a: Build, b: Build, o: Operand)
    requires Flow(a, b) && In(o, a)
    ensures In(o, b)
  {
  }

  lemma FlowSound(a: Build, b: Build)
    requires Flow(a, b)
    ensures Sound(a) && Sound(b) && Avail(a) <= Avail(b)
  {
  }

  lemma DefsAppend(text: seq<Instr>, i: Instr)
    ensures Defs(text + [i]) == Defs(text) + {i.id}
  {
    assert forall x :: x in text + [i] <==> x in text || x == i;
  }

  lemma AvailEmit(b: Build, i: Instr)
    ensures Avail(Emit(b, i)) == Avail(b) + {i.id}
  {
    DefsAppend(b.blocks[b.cur].instrs, i);
  }

  lemma SingleEmit(b: Build, i: Instr)
    requires Single(b.blocks, b.next) && i.id == b.next
    ensures Single(Emit(b, i).blocks, b.next + 1)
  {
  }

  /** Blocks may get longer ends without disturbing anyone. */
  lemma DominatedEmit(b: Build, i: Instr)
    requires Dominated(b.blocks)
    requires if i.Phi? then PhiOk(b.blocks, b.cur, i) else Uses(i) <= Avail(b)
    ensures Dominated(Emit(b, i).blocks)
  {
    hide PhiOk, TermOk;
    var b' := Emit(b, i);
    var bs, bs', cur := b.blocks, b'.blocks, b.cur;
    forall k | 0 <= k < |bs| ensures End(bs[k]) <= End(bs'[k]) && bs'[k].dom == bs[k].dom && bs'[k].term == bs[k].term {
      DefsAppend(bs[cur].instrs, i);
    }
    forall k, j | 0 <= k < |bs'| && 0 <= j < |bs'[k].instrs| ensures InstrOk(bs', k, j) {
      if k == cur && j == |bs[cur].instrs| {
        assert bs'[k].instrs[..j] == bs[cur].instrs;
        if i.Phi? {
          PhiKeeps(bs, bs', k, i);
        }
      } else {
        assert InstrOk(bs, k, j);
        assert bs'[k].instrs[..j] == bs[k].instrs[..j];
        if bs[k].instrs[j].Phi? {
          PhiKeeps(bs, bs', k, bs[k].instrs[j]);
        }
      }
    }
    forall k | 0 <= k < |bs'| ensures TermOk(bs', k) {
      TermKeeps(bs, bs', k);
    }
  }

  lemma TermKeeps(bs: seq<Block>, bs': seq<Block>, k: nat)
    requires k < |bs| == |bs'| && TermOk(bs, k)
    requires forall p :: 0 <= p < |bs| ==> End(bs[p]) <= End(bs'[p]) && bs'[p].term == bs[p].term && bs'[p].dom == bs[p].dom
    ensures TermOk(bs', k)
  {
  }

  lemma SoundEmit(b: Build, i: Instr)
    requires Sound(b) && i.id == b.next
    requires if i.Phi? then PhiOk(b.blocks, b.cur, i) else Uses(i) <= Avail(b)
    ensures Flow(b, Emit(b, i)) && forall ty :: In(Reg(i.id, ty), Emit(b, i))
  {
    SingleEmit(b, i);
    DominatedEmit(b, i);
    AvailEmit(b, i);
    hide Dominated, Single, Avail, Uses, PhiOk;
  }

  lemma PhiKeeps(bs: seq<Block>, bs': seq<Block>, k: nat, i: Instr)
    requires i.Phi? && PhiOk(bs, k, i) && |bs'| == |bs|
    requires forall p :: 0 <= p < |bs| ==> End(bs[p]) <= End(bs'[p]) && bs'[p].term == bs[p].term
    ensures PhiOk(bs', k, i)
  {
  }

  lemma SoundNewBlock(b: Build)
    requires Sound(b)
    ensures Flow(b, NewBlock(b)) && Avail(NewBlock(b)) == Avail(b)
    ensures PredsOnly(NewBlock(b).blocks, |b.blocks|, {})
  {
    var b' := NewBlock(b);
    var bs, bs' := b.blocks, b'.blocks;
    forall k, j | 0 <= k < |bs'| && 0 <= j < |bs'[k].instrs| ensures InstrOk(bs', k, j) {
      assert InstrOk(bs, k, j);
    }
    forall k | 0 <= k < |bs'| ensures TermOk(bs', k) {
      if k < |bs| {
        assert TermOk(bs, k);
      }
    }
    forall p | 0 <= p < |bs'| ensures |bs| !in Succs(bs'[p].term) {
      if p < |bs| {
        assert TermOk(bs, p);
      }
    }
  }

  /** What a terminator may do: use what is defined, and enter empty blocks that count on no more. */
  predicate MayEnd(b: Build, t: Term) {
    && TermUses(t) <= Avail(b)
    && forall s :: s in Succs(t) ==> 0 < s < |b.blocks| && b.blocks[s].dom <= Avail(b) && b.blocks[s].instrs == []
  }

  lemma SoundGoto(b: Build, t: Term, k: nat)
    requires Sound(b) && Open(b) && MayEnd(b, t) && 0 < k < |b.blocks|
    ensures Sound(MoveTo(Terminate(b, t), k))
    ensures k != b.cur ==> Avail(MoveTo(Terminate(b, t), k)) == End(b.blocks[k])
  {
    var b' := MoveTo(Terminate(b, t), k);
    var bs, bs' := b.blocks, b'.blocks;
    assert forall p :: 0 <= p < |bs| ==> End(bs'[p]) == End(bs[p]) && bs'[p].instrs == bs[p].instrs;
    forall k, j | 0 <= k < |bs'| && 0 <= j < |bs'[k].instrs| ensures InstrOk(bs', k, j) {
      assert InstrOk(bs, k, j);
      var i := bs[k].instrs[j];
      if i.Phi? {
        assert k !in Succs(t);
        assert PhiOk(bs', k, i);
      }
    }
    forall k | 0 <= k < |bs'| ensures TermOk(bs', k) {
      assert TermOk(bs, k);
    }
  }

  /** Edges out of the block just closed are the terminator's. */
  lemma GotoPreds(b: Build, t: Term, k: nat, to: nat, from: set<nat>)
    requires Open(b) && to < |b.blocks| && PredsOnly(b.blocks, k, from)
    ensures PredsOnly(MoveTo(Terminate(b, t), to).blocks, k, if k in Succs(t) then from + {b.cur} else from)
  {
  }

  lemma GotoEdges(a: Build, b: Build, t: Term, k: nat)
    requires Edges(a, b) && Open(b) && k < |b.blocks| && forall s :: s in Succs(t) ==> |a.blocks| <= s
    ensures Edges(a, MoveTo(Terminate(b, t), k))
  {
  }

  lemma EdgesTrans(a: Build, b: Build, c: Build)
    requires Edges(a, b) && Edges(b, c)
    ensures Edges(a, c)
  {
  }

  lemma EdgesPreds(a: Build, b: Build, k: nat, from: set<nat>)
    requires Edges(a, b) && k < |a.blocks| && PredsOnly(a.blocks, k, from)
    ensures PredsOnly(b.blocks, k, from)
  {
  }
}
