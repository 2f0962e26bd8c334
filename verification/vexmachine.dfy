/**
 A machine whose lane-wise operators are the ones proved exact in VexOps, and what the emitted
 function of a superblock that uses one leaves in the guest registers.
 */
module VexMachine {
  import opened Bits
  import opened VexIR
  import opened VexWf
  import opened Lowering
  import opened LowerCorrect
  import opened ContextLaws
  import opened Wrapping
  import VexOps

  /** The operators that work on each lane apart. */
  datatype LaneOp =
    | QSigned(sub: bool)
    | QAddUnsigned
    | QSubUnsigned
    | MulHi(signed: bool)
    | Avg(signed: bool)
    | Halve(signed: bool, sub: bool)

  /** One operator of the table: what it does to a lane of k bytes, and how many lanes there are. */
  datatype VecOp = VecOp(op: LaneOp, k: nat, lanes: nat)

  type Table = map<nat, VecOp>

  /** What the instructions emitted for the operator compute in one lane of n bits. */
  function LaneFn(op: LaneOp, a: nat, b: nat, n: nat): nat
    requires n > 0
  {
    match op
    case QSigned(sub) => VexOps.QSigned(a, b, n, sub)
    case QAddUnsigned => VexOps.QAddUnsigned(a, b, n)
    case QSubUnsigned => VexOps.QSubUnsigned(a, b, n)
    case MulHi(signed) => VexOps.MulHi(a, b, n, signed)
    case Avg(signed) => VexOps.Avg(a, b, n, signed)
    case Halve(signed, sub) => VexOps.Halve(a, b, n, signed, sub)
  }

  /** What the operator means for one lane, in exact arithmetic. */
  ghost predicate LaneMeans(op: LaneOp, a: nat, b: nat, n: nat, r: nat)
    requires n > 0
  {
    match op
    case QSigned(sub) =>
      r < Pow2(n) &&
      Signed(r, n) == VexOps.Clamp(if sub then Signed(a, n) - Signed(b, n) else Signed(a, n) + Signed(b, n),
                                   0 - Pow2(n - 1), Pow2(n - 1) - 1)
    case QAddUnsigned => r == VexOps.Clamp(a + b, 0, Pow2(n) - 1)
    case QSubUnsigned => r == VexOps.Clamp(a - b, 0, Pow2(n) - 1)
    case MulHi(signed) => r == Wrap(VexOps.Value(a, n, signed) * VexOps.Value(b, n, signed) / Pow2(n), n)
    case Avg(signed) => r == Wrap((VexOps.Value(a, n, signed) + VexOps.Value(b, n, signed) + 1) / 2, n)
    case Halve(signed, sub) =>
      var x, y := VexOps.Value(a, n, signed), VexOps.Value(b, n, signed);
      r == Wrap((if sub then x - y else x + y) / 2, n)
  }

  /** Lane i of a value. */
  function LaneOf(v: nat, n: nat, i: nat): nat {
    v / Pow2(n * i) % Pow2(n)
  }

  /** Lanes put together again, the lowest first. */
  function Pack(lanes: seq<nat>, n: nat): nat {
    if lanes == [] then 0 else lanes[0] + Pow2(n) * Pack(lanes[1..], n)
  }

  /** The lanes of the result. */
  function VecLanes(o: VecOp, x: nat, y: nat): (s: seq<nat>)
    requires o.k > 0
    ensures |s| == o.lanes
  {
    seq(o.lanes, i requires 0 <= i < o.lanes => LaneFn(o.op, LaneOf(x, 8 * o.k, i), LaneOf(y, 8 * o.k, i), 8 * o.k))
  }

  function VecFn(o: VecOp, x: nat, y: nat): nat {
    if o.k == 0 then 0 else Pack(VecLanes(o, x, y), 8 * o.k)
  }

  function ApplyOps(m: Machine, table: Table, f: nat, vs: seq<Val>): nat {
    if f in table && |vs| == 2 then VecFn(table[f], vs[0].n, vs[1].n) else m.apply(f, vs)
  }

  /** The machine m with the operators of the table as they are emitted. */
  function WithOps(m: Machine, table: Table): Machine {
    m.(apply := (f: nat, vs: seq<Val>) => ApplyOps(m, table, f, vs))
  }

  // ---- lanes

  lemma LaneExact(op: LaneOp, a: nat, b: nat, n: nat)
    requires n > 0 && a < Pow2(n) && b < Pow2(n)
    ensures LaneMeans(op, a, b, n, LaneFn(op, a, b, n)) && LaneFn(op, a, b, n) < Pow2(n)
  {
    hide Pow2, Signed, VexOps.Value, Wrap, VexOps.Clamp, VexOps.Ext, VexOps.SExt, VexOps.SMax, VexOps.SMin, VexOps.Add, VexOps.Sub,
         VexOps.Mul, VexOps.LShr, VexOps.UMin;
    match op
    case QSigned(sub) => VexOps.QSignedSaturates(a, b, n, sub);
    case QAddUnsigned => VexOps.QAddUnsignedSaturates(a, b, n);
    case QSubUnsigned => VexOps.QSubUnsignedSaturates(a, b, n);
    case MulHi(signed) => VexOps.MulHiExact(a, b, n, signed);
    case Avg(signed) => VexOps.AvgExact(a, b, n, signed);
    case Halve(signed, sub) => VexOps.HalveExact(a, b, n, signed, sub);
  }

  predicate Fit(lanes: seq<nat>, n: nat) {
    forall i :: 0 <= i < |lanes| ==> lanes[i] < Pow2(n)
  }

  /** Packing loses nothing. */
  lemma {:induction false} PackLane(lanes: seq<nat>, n: nat, i: nat)
    requires Fit(lanes, n) && i < |lanes|
    ensures LaneOf(Pack(lanes, n), n, i) == lanes[i]
    decreases i
  {
    var rest, p := lanes[1..], Pow2(n);
    assert Fit(rest, n);
    var low, high := lanes[0], Pack(rest, n);
    assert low + p * high == high * p + low;
    DivModUnique(low + p * high, p, high, low);
    if i == 0 {
      assert Pow2(n * 0) == 1;
    } else {
      PackLane(rest, n, i - 1);
      DivPower(low + p * high, n, n * (i - 1));
      assert n + n * (i - 1) == n * i;
    }
  }

  lemma DivPower(v: nat, n: nat, s: nat)
    ensures v / Pow2(n) / Pow2(s) == v / Pow2(n + s)
  {
    Pow2Add(n, s);
    hide Pow2;
    DivTwice(v, Pow2(n), Pow2(s));
  }

  lemma DivTwice(v: nat, p: nat, q: nat)
    requires p > 0 && q > 0
    ensures p * q > 0 && v / p / q == v / (p * q)
  {
    MulAtLeast(p, q);
    Divide(v, p);
    Divide(v / p, q);
    DivParts(v, v / p, v % p, v / p / q, v / p % q, p, q);
  }

  lemma Divide(v: nat, p: nat)
    requires p > 0
    ensures v == v / p * p + v % p && v % p < p
  {
  }

  lemma DivParts(v: nat, a: nat, r: nat, b: nat, t: nat, p: nat, q: nat)
    requires p > 0 && q > 0 && v == a * p + r && a == b * q + t && r < p && t < q && p * q > 0
    ensures v / (p * q) == b
  {
    Nested(a, b, t, p, q);
    MulLeast(q, t + 1, p);
    OneTimes(t, p);
    DivModUnique(v, p * q, b, t * p + r);
  }

  lemma OneTimes(t: nat, p: nat)
    ensures (t + 1) * p == t * p + p
  {
  }

  lemma Nested(a: nat, b: nat, t: nat, p: nat, q: nat)
    requires a == b * q + t
    ensures a * p == b * (p * q) + t * p
  {
    assert a * p == (b * q) * p + t * p;
    assert (b * q) * p == b * (p * q);
  }

  lemma {:induction false} PackBound(lanes: seq<nat>, n: nat)
    requires Fit(lanes, n)
    ensures Pack(lanes, n) < Pow2(n * |lanes|)
    decreases |lanes|
  {
    if lanes == [] {
    } else {
      var rest, p := lanes[1..], Pow2(n);
      assert Fit(rest, n);
      PackBound(rest, n);
      Pow2Add(n, n * |rest|);
      assert n + n * |rest| == n * |lanes|;
      hide Pow2;
      PackStep(lanes[0], Pack(rest, n), p, Pow2(n * |rest|));
    }
  }

  lemma PackStep(low: nat, high: nat, p: nat, q: nat)
    requires low < p && high < q
    ensures low + p * high < p * q
  {
    MulLeast(q, high + 1, p);
    OneTimes(high, p);
    Commute(p, high);
  }

  lemma Commute(p: nat, q: nat)
    ensures p * q == q * p
  {
  }

  lemma VecLane(o: VecOp, x: nat, y: nat, i: nat)
    requires o.k > 0 && i < o.lanes
    ensures LaneMeans(o.op, LaneOf(x, 8 * o.k, i), LaneOf(y, 8 * o.k, i), 8 * o.k, LaneOf(VecFn(o, x, y), 8 * o.k, i))
  {
    hide LaneMeans, LaneFn, LaneOf, Pow2, Pack;
    var n := 8 * o.k;
    VecFit(o, x, y);
    PackLane(VecLanes(o, x, y), n, i);
    LaneBound(x, n, i);
    LaneBound(y, n, i);
    LaneExact(o.op, LaneOf(x, n, i), LaneOf(y, n, i), n);
  }

  lemma LaneBound(x: nat, n: nat, i: nat)
    ensures LaneOf(x, n, i) < Pow2(n)
  {
  }

  lemma VecFit(o: VecOp, x: nat, y: nat)
    requires o.k > 0
    ensures Fit(VecLanes(o, x, y), 8 * o.k)
  {
    hide LaneMeans, LaneFn, LaneOf, Pow2;
    var n := 8 * o.k;
    forall i | 0 <= i < o.lanes ensures VecLanes(o, x, y)[i] < Pow2(n) {
      LaneBound(x, n, i);
      LaneBound(y, n, i);
      LaneExact(o.op, LaneOf(x, n, i), LaneOf(y, n, i), n);
    }
  }

  lemma VecBound(o: VecOp, x: nat, y: nat)
    requires o.k > 0
    ensures VecFn(o, x, y) < Pow2(8 * (o.k * o.lanes))
  {
    hide LaneFn, LaneOf, Pow2, Pack;
    VecFit(o, x, y);
    PackBound(VecLanes(o, x, y), 8 * o.k);
    assert 8 * o.k * o.lanes == 8 * (o.k * o.lanes);
  }

  // ---- lanes in a byte store

  lemma {:induction false} ReadSplit(m: Bytes, a: nat, j: nat, l: nat)
    ensures Read(m, a, j + l) == Read(m, a, j) + Pow2(8 * j) * Read(m, a + j, l)
    decreases j
  {
    if j == 0 {
      assert Pow2(0) == 1;
    } else {
      ReadSplit(m, a + 1, j - 1, l);
      EightMore(j);
      hide Pow2;
      ReadFirst(m, a, j);
      ReadFirst(m, a, j + l);
      hide Read;
      Scale(Read(m, a + 1, j - 1), Pow2(8 * (j - 1)), Read(m, a + j, l));
    }
  }

  lemma ReadFirst(m: Bytes, a: nat, j: nat)
    requires j > 0
    ensures Read(m, a, j) == (if a in m then m[a] else 0) + 256 * Read(m, a + 1, j - 1)
  {
  }

  lemma {:induction false} ReadBound(m: Bytes, a: nat, k: nat)
    ensures Read(m, a, k) < Pow2(8 * k)
    decreases k
  {
    if k > 0 {
      ReadBound(m, a + 1, k - 1);
      EightMore(k);
    }
  }

  lemma LanePick(low: nat, mid: nat, high: nat, p: nat, q: nat)
    requires low < p && mid < q
    ensures (low + p * (mid + q * high)) / p % q == mid
  {
    var rest := mid + q * high;
    Commute(p, rest);
    DivModUnique(low + p * rest, p, rest, low);
    Commute(q, high);
    DivModUnique(rest, q, high, mid);
  }

  lemma LaneIs(v: nat, n: nat, i: nat)
    ensures LaneOf(v, n, i) == v / Pow2(n * i) % Pow2(n)
  {
  }

  lemma ReadPart(m: Bytes, a: nat, j: nat, k: nat, l: nat)
    ensures Read(m, a, j + (k + l)) / Pow2(8 * j) % Pow2(8 * k) == Read(m, a + j, k)
  {
    hide *;
    ReadSplit(m, a, j, k + l);
    ReadSplit(m, a + j, k, l);
    ReadBound(m, a, j);
    ReadBound(m, a + j, k);
    LanePick(Read(m, a, j), Read(m, a + j, k), Read(m, a + j + k, l), Pow2(8 * j), Pow2(8 * k));
  }

  lemma LaneAt(m: Bytes, a: nat, k: nat, i: nat, j: nat, l: nat, total: nat)
    requires total == j + (k + l) && 8 * k * i == 8 * j
    ensures LaneOf(Read(m, a, total), 8 * k, i) == Read(m, a + j, k)
  {
    hide *;
    LaneIs(Read(m, a, total), 8 * k, i);
    ReadPart(m, a, j, k, l);
  }

  /** A lane of what is read is what is read at the place of the lane. */
  lemma ReadLane(m: Bytes, a: nat, k: nat, lanes: nat, i: nat)
    requires i < lanes
    ensures LaneOf(Read(m, a, k * lanes), 8 * k, i) == Read(m, a + k * i, k)
  {
    hide *;
    var j, l, total := LaneIndex(k, lanes, i);
    LaneAt(m, a, k, i, j, l, total);
  }

  lemma LaneIndex(k: nat, lanes: nat, i: nat) returns (j: nat, l: nat, total: nat)
    requires i < lanes
    ensures j == k * i && total == k * lanes && total == j + (k + l) && 8 * k * i == 8 * j
  {
    j, l, total := k * i, k * (lanes - i - 1), k * lanes;
    assert k * lanes == k * i + k * (lanes - i);
    assert k * (lanes - i) == k + k * (lanes - i - 1);
  }

  // ---- from the registers to the registers

  /** Two registers combined into a third: the shape of a vector instruction. */
  function VecSB(f: nat, ty: IRType, a: nat, b: nat, dst: nat, next: nat): SB {
    SB([Put(dst, Op(f, VexTy2LLVM(ty), [Get(a, ty), Get(b, ty)]))], Const(U(64, next)), Boring)
  }

  lemma VecWf(m: Machine, f: nat, ty: IRType, a: nat, b: nat, dst: nat, next: nat)
    requires Aligned(a, VexTy2LLVM(ty)) && Aligned(b, VexTy2LLVM(ty)) && Aligned(dst, VexTy2LLVM(ty)) && m.exitOff < TWO31
    ensures WfSB(m, VecSB(f, ty, a, b, dst, next)) && SingleWidth(VecSB(f, ty, a, b, dst, next).stmts)
  {
    var sb, sc := VecSB(f, ty, a, b, dst, next), Empty(m);
    var args, e := [Get(a, ty), Get(b, ty)], sb.stmts[0].data;
    assert WfExprs(args, sc) by {
      assert args[1..] == [Get(b, ty)] && args[1..][1..] == [];
      assert WfExpr(args[0], sc) && WfExpr(args[1], sc);
      assert WfExprs(args[1..], sc);
    }
    hide Aligned;
    assert WfExpr(e, sc) && TyOf(e, sc.tt) == VexTy2LLVM(ty);
    assert WfExpr(sb.next, sc);
    hide WfExpr;
    var st := sb.stmts[0];
    assert WfStmt(st, sc) && After(st, sc) == sc;
    assert sb.stmts == [st] && [st][1..] == [];
    assert WfStmts([st][1..], sc) && AfterAll([st][1..], sc) == sc;
    hide WfStmt, After;
    assert WfStmts([st], sc) && AfterAll([st], sc) == sc;
  }

  lemma VecInterp(m: Machine, table: Table, f: nat, ty: IRType, a: nat, b: nat, dst: nat, next: nat, g: Guest)
    requires f in table
    ensures
      var k := BytesOf(VexTy2LLVM(ty));
      var v := VecFn(table[f], Read(g.ctx, a, k), Read(g.ctx, b, k));
      Interp(WithOps(m, table), VecSB(f, ty, a, b, dst, next), g) == Result(next, g.(ctx := Write(g.ctx, dst, k, v)))
  {
    var mm, sb := WithOps(m, table), VecSB(f, ty, a, b, dst, next);
    var st := sb.stmts[0];
    VecValue(m, table, f, ty, a, b, g);
    PutIs(mm, dst, st.data, g);
    assert sb.stmts == [st];
    ExecOne(mm, st, g, map[]);
    hide VecFn, Read, Write, Exec, ExecAll, WithOps;
  }

  lemma PutIs(m: Machine, off: nat, data: Expr, g: Guest)
    ensures Exec(m, Put(off, data), g, map[]) == Go(PutVal(g, off, Eval(m, g, map[], data)), map[])
  {
    hide Eval, PutVal;
  }

  lemma ExecOne(m: Machine, s: Stmt, g: Guest, tmps: map<nat, Val>)
    ensures ExecAll(m, [s], g, tmps) == Exec(m, s, g, tmps)
  {
    hide Exec;
    assert [s][1..] == [];
  }

  lemma VecValue(m: Machine, table: Table, f: nat, ty: IRType, a: nat, b: nat, g: Guest)
    requires f in table
    ensures
      var k := BytesOf(VexTy2LLVM(ty));
      Eval(WithOps(m, table), g, map[], Op(f, VexTy2LLVM(ty), [Get(a, ty), Get(b, ty)])) ==
        Val(BitsOf(VexTy2LLVM(ty)), VecFn(table[f], Read(g.ctx, a, k), Read(g.ctx, b, k)))
  {
    hide VecFn, Read;
    EvalTwo(WithOps(m, table), g, map[], Get(a, ty), Get(b, ty));
  }

  lemma EvalTwo(m: Machine, g: Guest, tmps: map<nat, Val>, x: Expr, y: Expr)
    ensures EvalAll(m, g, tmps, [x, y]) == [Eval(m, g, tmps, x), Eval(m, g, tmps, y)]
  {
    hide Eval;
    assert [x, y][1..] == [y] && [y][1..] == [];
    assert EvalAll(m, g, tmps, [y]) == [Eval(m, g, tmps, y)];
  }

  /**
   The emitted function of a vector instruction returns to the next address and nowhere else,
   every lane of the destination register then holds what the operator means for the lanes of
   the source registers, and no other byte of the guest has changed.
   */
  lemma VecBlockExact(m: Machine, table: Table, f: nat, ty: IRType, a: nat, b: nat, dst: nat, next: nat, g: Guest)
    returns (g': Guest)
    requires f in table && table[f].k > 0 && table[f].k * table[f].lanes == BytesOf(VexTy2LLVM(ty)) && m.exitOff < TWO31
    requires Aligned(a, VexTy2LLVM(ty)) && Aligned(b, VexTy2LLVM(ty)) && Aligned(dst, VexTy2LLVM(ty))
    ensures
      var mm, fn := WithOps(m, table), EmitSB(WithOps(m, table), VecSB(f, ty, a, b, dst, next));
      forall n, h :: Returns(mm, fn, g, n, h) <==> n == next && h == g'
    ensures
      var o := table[f];
      forall i :: 0 <= i < o.lanes ==>
        LaneMeans(o.op, Read(g.ctx, a + o.k * i, o.k), Read(g.ctx, b + o.k * i, o.k), 8 * o.k, Read(g'.ctx, dst + o.k * i, o.k))
    ensures g'.mem == g.mem
    ensures forall j: nat :: !Within(j, dst, BytesOf(VexTy2LLVM(ty))) ==>
              (j in g'.ctx <==> j in g.ctx) && (j in g.ctx ==> g'.ctx[j] == g.ctx[j])
  {
    hide *;
    var o, k := table[f], BytesOf(VexTy2LLVM(ty));
    var mm, sb := WithOps(m, table), VecSB(f, ty, a, b, dst, next);
    var x, y := Read(g.ctx, a, k), Read(g.ctx, b, k);
    var v := VecFn(o, x, y);
    g' := g.(ctx := Write(g.ctx, dst, k, v));
    SameExit(m, table);
    VecWf(mm, f, ty, a, b, dst, next);
    VecInterp(m, table, f, ty, a, b, dst, next, g);
    forall n, h ensures Returns(mm, EmitSB(mm, sb), g, n, h) <==> n == next && h == g' {
      LoweringExact(mm, sb, g, n, h);
    }
    VecBound(o, x, y);
    ReadBack(g.ctx, dst, k, v);
    SmallMod(v, Pow2(8 * k));
    forall i | 0 <= i < o.lanes
      ensures LaneMeans(o.op, Read(g.ctx, a + o.k * i, o.k), Read(g.ctx, b + o.k * i, o.k), 8 * o.k, Read(g'.ctx, dst + o.k * i, o.k))
    {
      ReadLane(g.ctx, a, o.k, o.lanes, i);
      ReadLane(g.ctx, b, o.k, o.lanes, i);
      ReadLane(g'.ctx, dst, o.k, o.lanes, i);
      VecLane(o, x, y, i);
    }
    forall j: nat | !Within(j, dst, k)
      ensures (j in g'.ctx <==> j in g.ctx) && (j in g.ctx ==> g'.ctx[j] == g.ctx[j])
    {
      WriteLookup(g.ctx, dst, k, v, j);
    }
  }

  lemma SmallMod(v: nat, p: nat)
    requires v < p
    ensures v % p == v
  {
  }

  lemma SameExit(m: Machine, table: Table)
    ensures WithOps(m, table).exitOff == m.exitOff
  {
  }
}
