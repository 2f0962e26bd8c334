/**
 Whole runs of cache operations: the three maps stay in agreement, so a flush leaves nothing
 behind.
 */
module CacheRuns {
  import opened Options
  import opened DirectMapped
  import opened CodeMaps
  import opened AheadMaps

  datatype CacheOp =
    | OpGetVsb(p: nat, tr: Xlate)
    | OpGetFunc(p: nat, tr: Xlate)
    | OpGetFPtr(p: nat, tr: Xlate, ahead: bool)
    | OpEvict(p: nat)
    | OpFlush
    | OpFlushRange(begin: nat, end: nat)
    | OpSetMax(x: nat)

  datatype Cache = Cache(m: Maps, env: Env)

  function Do(c: Cache, op: CacheOp): Cache {
    match op
    case OpGetVsb(p, tr) => c.(m := GetVsb(c.m, c.env, p, tr).0)
    case OpGetFunc(p, tr) => c.(m := GetFunc(c.m, c.env, p, tr).0)
    case OpGetFPtr(p, tr, ahead) => c.(m := GetFPtr(c.m, c.env, p, tr, ahead).0)
    case OpEvict(p) => c.(m := Evict(c.m, p))
    case OpFlush => c.(m := NoCode)
    case OpFlushRange(b, e) => c.(m := FlushRange(c.m, b, e))
    case OpSetMax(x) => Cache(if x < c.env.max then NoCode else c.m, c.env.(max := x))
  }

  /** The translator files superblocks under their addresses, no bound is zero, and what compiling ahead looks up fits. */
  ghost predicate Proper(c: Cache, op: CacheOp) {
    match op
    case OpGetVsb(_, tr) => GoodXlate(tr)
    case OpGetFunc(_, tr) => GoodXlate(tr)
    case OpGetFPtr(p, tr, ahead) => GoodXlate(tr) && (ahead ==> Fits(c.m, c.env, tr, p))
    case OpSetMax(x) => x > 0
    case _ => true
  }

  ghost predicate ProperAll(c: Cache, ops: seq<CacheOp>)
    decreases |ops|
  {
    ops == [] || (Proper(c, ops[0]) && ProperAll(Do(c, ops[0]), ops[1..]))
  }

  function DoAll(c: Cache, ops: seq<CacheOp>): Cache
    decreases |ops|
  {
    if ops == [] then c else DoAll(Do(c, ops[0]), ops[1..])
  }

  ghost predicate InStep(c: Cache) {
    GoodEnv(c.env) && Agreed(c.m) && Bounded(c.m, c.env)
  }

  lemma DoKeeps(c: Cache, op: CacheOp)
    requires InStep(c) && Proper(c, op)
    ensures InStep(Do(c, op))
  {
    hide Agreed, GetVsb, GetFunc, GetFPtr, GoodXlate, Evict, FlushRange, Kept, Fits;
    match op
    case OpGetVsb(p, tr) => GetVsbKeeps(c.m, c.env, p, tr);
    case OpGetFunc(p, tr) => GetFuncKeeps(c.m, c.env, p, tr);
    case OpGetFPtr(p, tr, ahead) =>
      GetFPtrKeeps(c.m, c.env, p, tr, ahead);
      if ahead {
        AheadKeeps(c.m, c.env, tr, p);
      }
    case OpEvict(p) =>
      EvictKeeps(c.m, p);
      EvictSize(c.m, p);
    case OpFlush => NothingAgrees();
    case OpFlushRange(b, e) => FlushRangeKeeps(c.m, b, e);
    case OpSetMax(x) => NothingAgrees();
  }

  lemma EvictSize(m: Maps, p: nat)
    ensures |Evict(m, p).vsbs| <= |m.vsbs|
  {
    KeysSize(m.vsbs, Evict(m, p).vsbs);
  }

  /** Over any run the maps agree and the bound holds ... */
  lemma {:induction false} AgreementKept(c: Cache, ops: seq<CacheOp>)
    requires InStep(c) && ProperAll(c, ops)
    ensures InStep(DoAll(c, ops))
    decreases |ops|
  {
    hide InStep, Do, Proper;
    if ops != [] {
      DoKeeps(c, ops[0]);
      AgreementKept(Do(c, ops[0]), ops[1..]);
    }
  }

  /** ... so a flush at any time leaves nothing to be found in its range, and touches nothing else. */
  lemma FlushedIsGone(c: Cache, ops: seq<CacheOp>, begin: nat, end: nat, k: nat)
    requires InStep(c) && ProperAll(c, ops)
    ensures
      var m := DoAll(c, ops).m;
      var m' := FlushRange(m, begin, end);
      if begin <= k <= end then k !in m'.vsbs && k !in m'.funcs && k !in m'.jits
      else Find(m'.vsbs, k) == Find(m.vsbs, k) && Find(m'.funcs, k) == Find(m.funcs, k) && Find(m'.jits, k) == Find(m.jits, k)
  {
    hide DoAll, ProperAll, FlushRange, Agreed, GoodEnv, Bounded, Find;
    AgreementKept(c, ops);
    FlushRangeKeeps(DoAll(c, ops).m, begin, end);
  }
}
