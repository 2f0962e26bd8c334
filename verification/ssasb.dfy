/**
 Whole superblocks: the emitted function is in single-assignment form, and on every way from
 the entry block every use comes after the one definition of what it uses.
 */
module SsaSb {
  import opened Options
  import opened ExitKinds
  import opened VexIR
  import opened VexWf
  import opened LlvmIR
  import opened Builder
  import opened Lowering
  import opened Extension
  import opened StmtShape
  import opened SimStmt
  import opened LowerCorrect
  import opened Ssa
  import opened SsaExpr
  import opened SsaStmt

  lemma {:induction false} GoodStmts(m: Machine, s: Emitted, ss: seq<Stmt>, sc: Scope)
    requires Good(s.b, s.b, s.vals, sc) && Ones(s.vals, sc) && WfStmts(ss, sc)
    ensures
      var r := EmitStmts(m, s, ss);
      Good(s.b, r.b, r.vals, AfterAll(ss, sc))
    decreases |ss|
  {
    hide Good, Ones, WfStmt, EmitStmt, After, EmitExpr, IsOne, LiteralOne;
    if ss != [] {
      var s1 := EmitStmt(m, s, ss[0]);
      GuardOne(m, s, ss[0], sc);
      GoodStmt(m, s, ss[0], sc);
      OnesStmt(m, s, ss[0], sc);
      GoodSelf(s.b, s1.b, s1.vals, After(ss[0], sc));
      GoodStmts(m, s1, ss[1..], After(ss[0], sc));
      GoodChain(s.b, s1.b, s1.vals, After(ss[0], sc), EmitStmts(m, s, ss), AfterAll(ss, sc));
    }
  }

  lemma GuardOne(m: Machine, s: Emitted, st: Stmt, sc: Scope)
    requires Ones(s.vals, sc) && WfStmt(st, sc)
    ensures sc.tt.Keys <= sc.used
    ensures st.Dirty? ==> (IsOne(EmitExpr(m, s.b, s.vals, st.guard).1) <==> LiteralOne(st.guard, sc))
  {
    hide EmitExpr, IsOne, LiteralOne, WfExpr, WfExprs, WfAddr, WfArr;
    if st.Dirty? {
      OneExpr(m, s.b, s.vals, sc, st.guard);
    }
  }

  lemma GoodSelf(a: Build, b: Build, vals: Vals, sc: Scope)
    requires Good(a, b, vals, sc)
    ensures Good(b, b, vals, sc)
  {
    hide *;
    GoodParts(a, b, vals, sc);
    GoodRefl(b, vals, sc);
  }

  lemma GoodChain(a: Build, b: Build, vals: Vals, sc: Scope, r: Emitted, sc': Scope)
    requires Good(a, b, vals, sc) && Good(b, r.b, r.vals, sc')
    ensures Good(a, r.b, r.vals, sc')
  {
    hide Tidy, Flow, Open;
    TidyTrans(a, b, r.b);
    FlowTrans(a, b, r.b);
  }

  lemma BeginGood(m: Machine)
    ensures Good(Begin, Begin, map[], Empty(m)) && Ones(map[], Empty(m))
  {
  }

  /** Closing the last block with the return. */
  lemma SoundReturn(b: Build, v: Operand)
    requires Sound(b) && Open(b) && In(v, b)
    ensures Dominated(Terminate(b, RetVal(v)).blocks) && Single(Terminate(b, RetVal(v)).blocks, b.next)
  {
    var bs, bs' := b.blocks, Terminate(b, RetVal(v)).blocks;
    assert forall p :: 0 <= p < |bs| ==> End(bs'[p]) == End(bs[p]) && bs'[p].instrs == bs[p].instrs;
    forall k, j | 0 <= k < |bs'| && 0 <= j < |bs'[k].instrs| ensures InstrOk(bs', k, j) {
      assert InstrOk(bs, k, j);
    }
    forall k | 0 <= k < |bs'| ensures TermOk(bs', k) {
      assert TermOk(bs, k);
    }
  }

  /** The recording of the exit kind at the end of the block. */
  lemma FlowEnd(m: Machine, b: Build, jk: JumpKind)
    requires Sound(b) && Open(b)
    ensures
      var kind := BlockExitType(jk);
      var b' := if kind.None? || kind.value == GE_IGNORE then b else SetExitType(m, b, kind.value);
      Flow(b, b') && Open(b')
  {
    hide Sound, Flow, Open, WriteCtx, BlockExitType;
    FlowRefl(b);
    var kind := BlockExitType(jk);
    if kind.Some? {
      FlowWriteCtx(b, m.exitOff, Imm(kind.value, IntTy(8)));
      ExtWriteCtx(b, m.exitOff, Imm(kind.value, IntTy(8)));
    }
  }

  /** Single assignment and dominance, for every well-formed superblock. */
  lemma EmittedIsSsa(m: Machine, sb: SB) returns (n: nat)
    requires WfSB(m, sb)
    ensures Dominated(EmitSB(m, sb)) && Single(EmitSB(m, sb), n)
  {
    hide Good, Ones, WfStmts, EmitStmts, EmitExpr, WfExpr, AfterAll, Empty, Sound, Flow, Open, In, SetExitType, Dominated, Single,
         Terminate, BlockExitType, Tidy, ValsIn;
    BeginGood(m);
    GoodStmts(m, Emitted(Begin, map[]), sb.stmts, Empty(m));
    var s := EmitStmts(m, Emitted(Begin, map[]), sb.stmts);
    var sc := AfterAll(sb.stmts, Empty(m));
    GoodExpr(m, Begin, s.b, s.vals, sc, sb.next);
    var (b1, v) := EmitExpr(m, s.b, s.vals, sb.next);
    GoodParts(Begin, b1, s.vals, sc);
    FlowEnd(m, b1, sb.jk);
    var kind := BlockExitType(sb.jk);
    var b2 := if kind.None? || kind.value == GE_IGNORE then b1 else SetExitType(m, b1, kind.value);
    FlowSound(b1, b2);
    FlowIn(b1, b2, v);
    SoundReturn(b2, v);
    n := b2.next;
  }

  /** Every branch of an emitted function goes to one of its blocks, and never back to the entry block. */
  lemma BranchesInside(m: Machine, sb: SB, k: nat, t: nat)
    requires WfSB(m, sb) && k < |EmitSB(m, sb)| && t in Succs(EmitSB(m, sb)[k].term)
    ensures 0 < t < |EmitSB(m, sb)|
  {
    hide WfSB, EmitSB, Single;
    var n := EmittedIsSsa(m, sb);
    assert TermOk(EmitSB(m, sb), k);
  }

  // ---- what dominance means for the ways through the function

  /** A way from the entry block along branches. */
  predicate Path(bs: seq<Block>, p: seq<nat>) {
    && |p| > 0 && p[0] == 0
    && (forall i :: 0 <= i < |p| ==> p[i] < |bs|)
    && (forall i :: 0 <= i < |p| - 1 ==> p[i + 1] in Succs(bs[p[i]].term))
  }

  /** Everything defined in the blocks of p. */
  function Written(bs: seq<Block>, p: seq<nat>): set<nat>
    requires forall i :: 0 <= i < |p| ==> p[i] < |bs|
  {
    if p == [] then {} else Written(bs, p[..|p| - 1]) + Defs(bs[p[|p| - 1]].instrs)
  }

  /** What the last block of a way counts on has been defined on that way. */
  lemma {:induction false} DomWritten(bs: seq<Block>, p: seq<nat>)
    requires Dominated(bs) && Path(bs, p)
    ensures bs[p[|p| - 1]].dom <= Written(bs, p[..|p| - 1])
    decreases |p|
  {
    if |p| > 1 {
      var q := p[..|p| - 1];
      assert Path(bs, q);
      DomWritten(bs, q);
      assert TermOk(bs, q[|q| - 1]);
    }
  }

  /**
   Every use on a way from the entry comes after its definition on that way; a phi uses what
   was defined when control left the block it came from.
   */
  predicate UseAfterDef(bs: seq<Block>, p: seq<nat>, j: nat)
    requires Path(bs, p) && j < |bs[p[|p| - 1]].instrs|
  {
    var k := p[|p| - 1];
    var before := Written(bs, p[..|p| - 1]);
    var i := bs[k].instrs[j];
    if i.Phi? then
      && |p| > 1
      && (p[|p| - 2] == i.b0 || p[|p| - 2] == i.b1)
      && OpUses(if p[|p| - 2] == i.b0 then i.v0 else i.v1) <= before
    else Uses(i) <= before + Defs(bs[k].instrs[..j])
  }

  lemma PathUse(bs: seq<Block>, p: seq<nat>, j: nat)
    requires Dominated(bs) && Path(bs, p) && j < |bs[p[|p| - 1]].instrs|
    ensures UseAfterDef(bs, p, j)
  {
    hide PhiOk, TermOk;
    var k := p[|p| - 1];
    assert InstrOk(bs, k, j);
    DomWritten(bs, p);
    if bs[k].instrs[j].Phi? {
      PhiEntry(bs, k, bs[k].instrs[j]);
      var q := p[..|p| - 1];
      assert Path(bs, q);
      DomWritten(bs, q);
      PhiFrom(bs, k, bs[k].instrs[j], p[|p| - 2]);
    }
  }

  lemma PhiEntry(bs: seq<Block>, k: nat, i: Instr)
    requires Dominated(bs) && i.Phi? && PhiOk(bs, k, i)
    ensures k != 0
  {
    assert TermOk(bs, i.b0);
  }

  lemma PhiFrom(bs: seq<Block>, k: nat, i: Instr, q: nat)
    requires i.Phi? && PhiOk(bs, k, i) && q < |bs| && k in Succs(bs[q].term)
    ensures q == i.b0 || q == i.b1
    ensures OpUses(if q == i.b0 then i.v0 else i.v1) <= End(bs[q])
  {
  }

  /** What a branch or return reads has been defined by the end of its block. */
  lemma PathTerm(bs: seq<Block>, p: seq<nat>)
    requires Dominated(bs) && Path(bs, p)
    ensures TermUses(bs[p[|p| - 1]].term) <= Written(bs, p)
  {
    assert TermOk(bs, p[|p| - 1]);
    DomWritten(bs, p);
  }

  /** Definitions dominate uses in every emitted function. */
  lemma DefinitionsDominate(m: Machine, sb: SB, p: seq<nat>)
    requires WfSB(m, sb) && Path(EmitSB(m, sb), p)
    ensures TermUses(EmitSB(m, sb)[p[|p| - 1]].term) <= Written(EmitSB(m, sb), p)
    ensures forall j :: 0 <= j < |EmitSB(m, sb)[p[|p| - 1]].instrs| ==> UseAfterDef(EmitSB(m, sb), p, j)
  {
    hide WfSB, EmitSB, Dominated, UseAfterDef, Single, Written;
    var n := EmittedIsSsa(m, sb);
    var bs := EmitSB(m, sb);
    PathTerm(bs, p);
    forall j | 0 <= j < |bs[p[|p| - 1]].instrs| ensures UseAfterDef(bs, p, j) {
      PathUse(bs, p, j);
    }
  }

  /** No register has two definitions. */
  lemma DefinedOnce(m: Machine, sb: SB, k: nat, j: nat, k': nat, j': nat)
    requires WfSB(m, sb)
    requires k < |EmitSB(m, sb)| && j < |EmitSB(m, sb)[k].instrs|
    requires k' < |EmitSB(m, sb)| && j' < |EmitSB(m, sb)[k'].instrs|
    requires EmitSB(m, sb)[k].instrs[j].id == EmitSB(m, sb)[k'].instrs[j'].id
    ensures k == k' && j == j'
  {
    hide WfSB, EmitSB, Dominated;
    var n := EmittedIsSsa(m, sb);
  }

  /** Emission never goes back to the entry block, so no remembered address is used outside it. */
  lemma NeverBack(m: Machine, s: Emitted, ss: seq<Stmt>)
    requires Open(s.b) && s.b.cur != 0
    ensures EmitStmts(m, s, ss).b.cur != 0
  {
    hide EmitStmts;
    TidyStmts(m, s, ss);
  }
}
