/**
 Compiling ahead and self-modifying code: the exits of a superblock are translated along with
 it, but only the mapping of the superblock itself is write-protected.
 */
module AheadStaleness {
  import opened Options
  import opened ExitKinds
  import opened Bits
  import opened CodeMaps
  import opened ExecModel
  import opened Freshness
  import opened FreshRuns

  /** The superblock at 0x1000 may leave for 0x8000, in the other mapping; that one has no constant exit. */
  ghost predicate FarExit(env: Env) {
    && GoodEnv(env) && env.max > 2
    && (forall bytes :: env.exits(Fn(Code(0x1000, bytes))) == [0x8000])
    && (forall bytes :: env.exits(Fn(Code(0x8000, bytes))) == [])
  }

  /** Two writable code mappings, nothing translated yet. */
  function Untouched(): Exec {
    Exec(map[], [Mapping(0x1000, 0x1000, RWX, RWX), Mapping(0x8000, 0x1000, RWX, RWX)], NoCode, (0, 0), 0x1000, GE_IGNORE, 0,
         false)
  }

  const NEAR: Code := Code(0x1000, [0])
  const FAR: Code := Code(0x8000, [0])

  function BothKnown(): Maps {
    Maps(map[0x1000 := NEAR][0x8000 := FAR], map[0x1000 := Fn(NEAR)][0x8000 := Fn(FAR)],
         map[0x8000 := Ptr(Fn(FAR))][0x1000 := Ptr(Fn(NEAR))])
  }

  /** Once the first superblock has been found: its mapping is protected, the other is not. */
  function NearFound(): Exec {
    Untouched().(maps := [Mapping(0x1000, 0x1000, RWX, RX), Mapping(0x8000, 0x1000, RWX, RWX)], code := BothKnown())
  }

  /** The first superblock has stored to 0x8000, which nobody noticed. */
  function Changed(): Exec {
    NearFound().(mem := map[0x8000 := 9], next := 0x8000)
  }

  /** The first run stores one byte to the code ahead and goes there. */
  const PATCH: BlockRun := BlockRun([(0x8000, 9)], 0x8000, GE_IGNORE, false)

  /**
   With code compiled ahead the dispatch can be stale: nothing faults and nothing is pending,
   and the second superblock dispatched is a translation of bytes that are no longer there.
   */
  lemma AheadStale(env: Env, r: BlockRun)
    requires FarExit(env) && r.writes == [] && r.kind == GE_IGNORE
    ensures
      var s, d := Untouched(), OneByte();
      var w := Step(s, env, d, true, PATCH);
      && Fresh(s, d) && CodeOk(s, env)
      && w.Went? && w.s.toFlush == (0, 0) && Agreed(w.s.code)
      && var w' := Step(w.s, env, d, true, r);
         w'.Went? && w'.c == Code(0x8000, [0]) && d(w.s.mem, 0x8000) == Some(Code(0x8000, [9]))
  {
    hide Step, Fresh, CodeOk, Agreed;
    StartFresh(env);
    FirstStep(env);
    SecondStep(env, r);
  }

  lemma StartFresh(env: Env)
    requires GoodEnv(env) && env.max > 2
    ensures Fresh(Untouched(), OneByte()) && CodeOk(Untouched(), env)
    ensures Agreed(BothKnown())
  {
    var s := Untouched();
    TwoLookups(s.maps[0], s.maps[1]);
    assert s.maps == [s.maps[0], s.maps[1]];
  }

  lemma FirstStep(env: Env)
    requires FarExit(env)
    ensures Step(Untouched(), env, OneByte(), true, PATCH) == Went(Changed(), NEAR)
    ensures Changed().toFlush == (0, 0) && Changed().code == BothKnown()
  {
    NearFoundFirst(env);
    FarStore();
    hide GetSB, FarExit, GuestWrite, LookupMapping, FlushRange, BothKnown;
    OneWrite(NearFound(), 0x8000, 9);
    assert AfterRun(NearFound().(mem := map[0x8000 := 9]), PATCH, NEAR) == Went(Changed(), NEAR);
    hide WriteAll, AfterRun;
  }

  lemma OneWrite(s: Exec, a: nat, v: byte)
    requires GuestWrite(s, a, v).Fine?
    ensures WriteAll(s, [(a, v)]) == GuestWrite(s, a, v)
  {
    hide GuestWrite;
    assert |[(a, v)][1..]| == 0;
  }

  lemma FarStore()
    ensures GuestWrite(NearFound(), 0x8000, 9) == Fine(NearFound().(mem := map[0x8000 := 9]))
  {
    var s := NearFound();
    TwoLookups(s.maps[0], s.maps[1]);
    assert s.maps == [s.maps[0], s.maps[1]];
    hide LookupMapping;
  }

  lemma NearFoundFirst(env: Env)
    requires FarExit(env)
    ensures GetSB(Untouched(), env, OneByte(), 0x1000, true) == Found(NearFound(), NEAR)
  {
    var s, tr := Untouched(), Translator(OneByte(), map[]);
    TwoLookups(s.maps[0], s.maps[1]);
    assert s.maps == [s.maps[0], s.maps[1]];
    assert Protect(s, 0).maps == NearFound().maps;
    NearCompiled(env, tr);
    hide LookupMapping, GetFPtr, FarExit;
    assert GetVsb(NoCode, env, 0x1000, tr) == (Maps(map[0x1000 := NEAR], map[], map[]), Some(NEAR)) by {
      FarMax(env);
    }
  }

  lemma FarMax(env: Env)
    requires FarExit(env)
    ensures env.max > 2
  {
  }

  lemma NearCompiled(env: Env, tr: Xlate)
    requires FarExit(env) && tr(0x1000) == Some(NEAR) && tr(0x8000) == Some(FAR)
    ensures GetFPtr(Maps(map[0x1000 := NEAR], map[], map[]), env, 0x1000, tr, true) == (BothKnown(), Some(Ptr(Fn(NEAR))))
  {
    var m := Maps(map[0x1000 := NEAR], map[], map[]);
    NearFunc(m, env, tr);
    FPtrParts(m, env, 0x1000, tr, true);
    FarLoop(env, tr);
    FarJits();
    hide *;
  }

  lemma NearFunc(m: Maps, env: Env, tr: Xlate)
    requires m == Maps(map[0x1000 := NEAR], map[], map[])
    ensures GetFunc(m, env, 0x1000, tr) == (m.(funcs := map[0x1000 := Fn(NEAR)]), Some(Fn(NEAR)))
  {
  }

  lemma FarJits()
    ensures WithJits(FarEnd(), 0x1000, Fn(NEAR)) == BothKnown()
  {
    assert Compiled(FarEnd().names) == map[0x8000 := Ptr(Fn(FAR))];
  }

  function FarEnd(): Fetch {
    Fetch(BothKnown().(jits := map[]), map[0x8000 := Fn(FAR)], {}, {Fn(NEAR), Fn(FAR)}, [])
  }

  lemma FarLoop(env: Env, tr: Xlate)
    requires FarExit(env) && tr(0x8000) == Some(FAR)
    ensures
      var m1 := Maps(map[0x1000 := NEAR], map[0x1000 := Fn(NEAR)], map[]);
      var start := Fetch(m1, map[], {Fn(NEAR)}, {}, [Fn(NEAR)]);
      FetchOk(start) && FetchLoop(start, env, tr) == FarEnd()
  {
    var near, far := Fn(NEAR), Fn(FAR);
    var m1, m2 := Maps(map[0x1000 := NEAR], map[0x1000 := near], map[]), BothKnown().(jits := map[]);
    StartOk(m1, near);
    assert env.exits(near) == [0x8000] && env.exits(far) == [] && env.max > 2;
    hide FarExit;
    var s0 := Fetch(m1, map[], {near}, {}, [near]);
    var s1 := Fetch(m2, map[0x8000 := far], {near, far}, {}, [near, far]);
    var s2 := Fetch(m2, map[0x8000 := far], {far}, {near}, [far]);
    assert GetFunc(m1, env, 0x8000, tr) == (m2, Some(far)) by {
      assert |m1.vsbs| == |m1.vsbs.Keys| && m1.vsbs.Keys == {0x1000};
    }
    hide GetFunc;
    assert ScanExit(s0, 0x8000, env, tr) == s1;
    assert ScanExits(s0, [0x8000], env, tr) == s1 by {
      assert [0x8000][1..] == [];
    }
    LeakFinish(s1, s2, near, far);
    assert ScanExits(s2, [], env, tr) == s2;
    hide ScanExits, Finish;
    assert FetchLoop(s2, env, tr) == FarEnd();
    assert |s2.complete| + |s2.work| == 2;
  }

  lemma SecondStep(env: Env, r: BlockRun)
    requires r.writes == [] && r.kind == GE_IGNORE
    ensures Step(Changed(), env, OneByte(), true, r).Went? && Step(Changed(), env, OneByte(), true, r).c == FAR
    ensures OneByte()(Changed().mem, 0x8000) == Some(Code(0x8000, [9]))
  {
    var s := Changed();
    TwoLookups(s.maps[0], s.maps[1]);
    assert s.maps == [s.maps[0], s.maps[1]];
    hide LookupMapping, GetFPtr;
    var tr := Translator(OneByte(), s.mem);
    assert GetVsb(Protect(s, 1).code, env, 0x8000, tr) == (BothKnown(), Some(FAR));
  }
}
