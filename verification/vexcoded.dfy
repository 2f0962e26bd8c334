/**
 The one statement whose emitted code does not mean what VEX means: double-width compare
 and swap. The comparisons of the two halves are compared with each other, and the low half
 of the new value is evaluated and stored twice.
 */
module VexCoded {
  import opened Options
  import opened VexIR
  import opened VexWf

  function CasDoubleCoded(m: Machine, g: Guest, tmps: map<nat, Val>, oldLo: nat, addr: Expr, expdLo: Expr,
                          dataLo: Expr, hi: CasHi): Outcome
  {
    var a, e := Eval(m, g, tmps, addr), Eval(m, g, tmps, expdLo);
    var eHi := Eval(m, g, tmps, hi.expdHi);
    var aHi := HiAddr(a, e.w);
    var lo, high := MemVal(g, a, e.w), MemVal(g, aHi, e.w);
    var g1 := StoreVal(g, a, Eval(m, g, tmps, dataLo));
    Go(if (e.n == lo.n) == (eHi.n == high.n) then StoreVal(g1, aHi, Eval(m, g1, tmps, dataLo)) else g,
       tmps[oldLo := lo][hi.oldHi := high])
  }

  function ExecCoded(m: Machine, s: Stmt, g: Guest, tmps: map<nat, Val>): Outcome {
    if s.CAS? && s.hi.Some? then CasDoubleCoded(m, g, tmps, s.oldLo, s.addr, s.expdLo, s.dataLo, s.hi.value)
    else Exec(m, s, g, tmps)
  }

  function ExecAllCoded(m: Machine, ss: seq<Stmt>, g: Guest, tmps: map<nat, Val>): Outcome {
    if ss == [] then Go(g, tmps)
    else match ExecCoded(m, ss[0], g, tmps)
      case Left(next, g') => Left(next, g')
      case Go(g', tmps') => ExecAllCoded(m, ss[1..], g', tmps')
  }

  function InterpCoded(m: Machine, sb: SB, g: Guest): Result {
    match ExecAllCoded(m, sb.stmts, g, map[])
    case Left(next, g') => Result(next, g')
    case Go(g', tmps) => Result(Eval(m, g', tmps, sb.next).n, ExitGuest(m, g', sb.jk))
  }

  /** Without double-width compare and swap the emitted meaning is the VEX meaning. */
  lemma {:induction false} SingleWidthAgrees(m: Machine, ss: seq<Stmt>, g: Guest, tmps: map<nat, Val>)
    requires SingleWidth(ss)
    ensures ExecAllCoded(m, ss, g, tmps) == ExecAll(m, ss, g, tmps)
  {
    hide Exec;
    if ss != [] {
      assert ss[0] in ss;
      assert ExecCoded(m, ss[0], g, tmps) == Exec(m, ss[0], g, tmps);
      match Exec(m, ss[0], g, tmps)
      case Left(_, _) =>
      case Go(g', tmps') =>
        assert SingleWidth(ss[1..]) by {
          forall s | s in ss[1..] ensures s.CAS? ==> s.hi.None? { assert s in ss; }
        }
        SingleWidthAgrees(m, ss[1..], g', tmps');
    }
  }
}
