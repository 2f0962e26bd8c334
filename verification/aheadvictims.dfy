/**
 Compiling ahead when not everything fits: some choice of superblocks to evict then leaves
 compiled code behind without its function, so fitting is exactly what agreement needs.
 */
module AheadVictims {
  import opened Options
  import opened CodeMaps
  import opened AheadMaps

  /** Eviction that goes for p, then for x, and else does as before. */
  function Spoil(env: Env, p: nat, x: nat): Env {
    var pick := env.pick;
    var spoil: set<nat> -> nat := (s: set<nat>) => if p in s then p else if x in s then x else pick(s);
    env.(pick := spoil)
  }

  lemma SpoilGood(env: Env, p: nat, x: nat)
    requires GoodEnv(env)
    ensures GoodEnv(Spoil(env, p, x))
  {
  }

  /** x is to be compiled along, the cache is full, and one of p and x is not in it. */
  predicate Spoiled(f: Fetch, env: Env, p: nat, x: nat) {
    && Agreed(f.m) && |f.m.vsbs| == env.max
    && p != x && x in f.names && !(p in f.m.vsbs && x in f.m.vsbs)
  }

  /** Filing another superblock in a full cache evicts p, or x, if either is there. */
  lemma SpoilVsb(m: Maps, env: Env, p: nat, x: nat, a: nat, tr: Xlate)
    requires GoodEnv(env) && Agreed(m) && |m.vsbs| == env.max && a !in m.vsbs && tr(a).Some?
    ensures
      var m' := GetVsb(m, Spoil(env, p, x), a, tr).0;
      && (p in m'.vsbs ==> p !in m.vsbs && p == a)
      && (x in m'.vsbs ==> (x == a || (x in m.vsbs && p in m.vsbs)))
  {
    SpoilGood(env, p, x);
    VictimIn(m, Spoil(env, p, x));
    var s := m.vsbs.Keys;
    assert Victim(m, Spoil(env, p, x)) == Spoil(env, p, x).pick(s);
    hide Agreed, GoodEnv;
  }

  lemma SpoilFunc(m: Maps, env: Env, p: nat, x: nat, a: nat, tr: Xlate)
    requires GoodEnv(env) && Agreed(m) && |m.vsbs| == env.max && p != x && !(p in m.vsbs && x in m.vsbs)
    ensures
      var m' := GetFunc(m, Spoil(env, p, x), a, tr).0;
      !(p in m'.vsbs && x in m'.vsbs)
  {
    if a !in m.vsbs && tr(a).Some? {
      SpoilVsb(m, env, p, x, a, tr);
    }
    hide Agreed, GoodEnv, AllocVsb;
  }

  lemma SpoiledStep(f: Fetch, env: Env, p: nat, x: nat, a: nat, tr: Xlate)
    requires GoodEnv(env) && GoodXlate(tr) && Spoiled(f, env, p, x)
    ensures Spoiled(ScanExit(f, a, Spoil(env, p, x), tr), env, p, x)
  {
    hide GoodEnv, GoodXlate, Agreed, GetFunc;
    SpoilGood(env, p, x);
    if a !in f.m.jits {
      SpoilFunc(f.m, env, p, x, a, tr);
      GetFuncKeeps(f.m, Spoil(env, p, x), a, tr);
    }
  }

  lemma {:induction false} SpoiledScan(f: Fetch, env: Env, p: nat, x: nat, addrs: seq<nat>, tr: Xlate)
    requires GoodEnv(env) && GoodXlate(tr) && Spoiled(f, env, p, x)
    ensures Spoiled(ScanExits(f, addrs, Spoil(env, p, x), tr), env, p, x)
    decreases |addrs|
  {
    hide GoodEnv, GoodXlate, Spoiled, ScanExit;
    if addrs != [] {
      SpoiledStep(f, env, p, x, addrs[0], tr);
      SpoiledScan(ScanExit(f, addrs[0], Spoil(env, p, x), tr), env, p, x, addrs[1..], tr);
    }
  }

  lemma SpoiledFinish(f: Fetch, env: Env, p: nat, x: nat)
    requires Spoiled(f, env, p, x) && f.queue != []
    ensures Spoiled(Finish(f), env, p, x)
  {
  }

  lemma {:induction false} SpoiledLoop(f: Fetch, env: Env, p: nat, x: nat, tr: Xlate)
    requires GoodEnv(env) && GoodXlate(tr) && Spoiled(f, env, p, x) && FetchOk(f)
    ensures Spoiled(FetchLoop(f, Spoil(env, p, x), tr), env, p, x)
    decreases 3 - |f.complete|
  {
    hide GoodEnv, GoodXlate, Spoiled, ScanExits, FetchOk;
    if f.queue != [] {
      var addrs := env.exits(f.queue[0]);
      SpoiledScan(f, env, p, x, addrs, tr);
      var g := ScanExits(f, addrs, Spoil(env, p, x), tr);
      SpoiledFinish(g, env, p, x);
      if |Finish(g).complete| + |Finish(g).work| <= 2 {
        SpoiledLoop(Finish(g), env, p, x, tr);
      }
    }
  }

  lemma SpoiledEnd(f: Fetch, env: Env, p: nat, x: nat, g: Fn)
    requires Spoiled(f, env, p, x)
    ensures !Agreed(WithJits(f, p, g))
  {
    var m := WithJits(f, p, g);
    assert p in m.jits && x in m.jits;
  }

  // ---- where the cache overflows

  /** The first address for which there is no room is the one at i. */
  predicate OverAt(m: Maps, env: Env, tr: Xlate, at: set<nat>, addrs: seq<nat>, i: nat) {
    && i < |addrs|
    && |Fetched(m, tr, at + Members(addrs[..i])).vsbs| <= env.max
    && |Fetched(m, tr, at + Members(addrs[..i]) + {addrs[i]}).vsbs| > env.max
  }

  lemma {:induction false} FirstOver(m: Maps, env: Env, tr: Xlate, at: set<nat>, addrs: seq<nat>) returns (i: nat)
    requires |Fetched(m, tr, at).vsbs| <= env.max
    requires |Fetched(m, tr, at + Members(addrs)).vsbs| > env.max
    ensures OverAt(m, env, tr, at, addrs, i)
    decreases |addrs|
  {
    hide Fetched;
    assert addrs == [] ==> at + Members(addrs) == at;
    i := |addrs| - 1;
    var init := addrs[..i];
    assert addrs == init + [addrs[i]];
    assert at + Members(addrs) == at + Members(init) + {addrs[i]};
    if |Fetched(m, tr, at + Members(init)).vsbs| > env.max {
      i := FirstOver(m, env, tr, at, init);
      assert init[..i] == addrs[..i];
    }
  }

  /** One address more brings in one superblock at most. */
  lemma OneMore(m: Maps, tr: Xlate, at: set<nat>, x: nat)
    ensures
      var s, t := Fetched(m, tr, at).vsbs, Fetched(m, tr, at + {x}).vsbs;
      |t| == |s| + (if x in s || tr(x).None? then 0 else 1)
  {
    hide *;
    var s, t := Fetched(m, tr, at).vsbs, Fetched(m, tr, at + {x}).vsbs;
    FetchedKeys(m, tr, at, x);
    assert |t| == |t.Keys| && |s| == |s.Keys|;
  }

  lemma FetchedKeys(m: Maps, tr: Xlate, at: set<nat>, x: nat)
    ensures
      var s, t := Fetched(m, tr, at).vsbs, Fetched(m, tr, at + {x}).vsbs;
      t.Keys == s.Keys + (if x in s || tr(x).None? then {} else {x})
  {
    KeyIn(m, tr, at, x);
    KeyIn(m, tr, at + {x}, x);
    forall k ensures k in Fetched(m, tr, at + {x}).vsbs.Keys <==> k in Fetched(m, tr, at).vsbs.Keys || (k == x && tr(x).Some?) {
      KeyIn(m, tr, at, k);
      KeyIn(m, tr, at + {x}, k);
    }
    hide Fetched;
  }

  lemma KeyIn(m: Maps, tr: Xlate, at: set<nat>, k: nat)
    ensures k in Fetched(m, tr, at).vsbs <==> k in m.vsbs || (k in at && tr(k).Some?)
  {
  }

  /** The cache is full then, and the superblock at that address is new. */
  lemma OverIs(m: Maps, env: Env, tr: Xlate, at: set<nat>, x: nat)
    requires |Fetched(m, tr, at).vsbs| <= env.max < |Fetched(m, tr, at + {x}).vsbs|
    ensures |Fetched(m, tr, at).vsbs| == env.max
    ensures x !in at && x !in m.vsbs && x !in Fetched(m, tr, at).vsbs && tr(x).Some?
  {
    OneMore(m, tr, at, x);
  }

  lemma {:induction false} ScanSplit(f: Fetch, addrs: seq<nat>, i: nat, env: Env, tr: Xlate)
    requires i < |addrs|
    ensures ScanExits(f, addrs, env, tr) ==
            ScanExits(ScanExit(ScanExits(f, addrs[..i], env, tr), addrs[i], env, tr), addrs[i + 1..], env, tr)
    decreases i
  {
    hide ScanExit;
    if i == 0 {
      assert addrs[..0] == [];
    } else {
      ScanSplit(ScanExit(f, addrs[0], env, tr), addrs[1..], i - 1, env, tr);
      assert addrs[..i][0] == addrs[0] && addrs[..i][1..] == addrs[1..][..i - 1];
      assert addrs[1..][i..] == addrs[i + 1..];
    }
  }

  /** There p gives way to x. */
  lemma SpoilHere(m: Maps, env: Env, tr: Xlate, p: nat, f: Fetch, at: set<nat>, x: nat)
    requires GoodEnv(env) && GoodXlate(tr) && Agreed(m) && p in at && p !in m.jits && FnAt(m, tr, p).Some?
    requires Along(m, tr, p, f, at)
    requires |Fetched(m, tr, at).vsbs| <= env.max < |Fetched(m, tr, at + {x}).vsbs|
    ensures Spoiled(ScanExit(f, x, Spoil(env, p, x), tr), env, p, x)
  {
    hide GoodEnv, GoodXlate, Agreed, FnAt, FnsAt, NamesAt, Fetched, GetFunc, Spoil;
    OverIs(m, env, tr, at, x);
    FetchedAgreed(m, tr, at);
    FetchedJits(m, tr, at);
    FnHere(m, tr, x);
    FnHere(m, tr, p);
    InFetched(m, tr, at, p);
    NotCompiled(m, x);
    Taken(m, tr, p, at, x);
    SpoilGood(env, p, x);
    SpoilMax(env, p, x);
    GetFuncKeeps(f.m, Spoil(env, p, x), x, tr);
    SpoilBoth(f.m, env, p, x, tr);
  }

  lemma SpoilMax(env: Env, p: nat, x: nat)
    ensures Spoil(env, p, x).max == env.max && Spoil(env, p, x).exits == env.exits
  {
  }

  lemma SpoilBoth(m: Maps, env: Env, p: nat, x: nat, tr: Xlate)
    requires GoodEnv(env) && Agreed(m) && |m.vsbs| == env.max && p in m.vsbs && x !in m.vsbs && tr(x).Some?
    ensures p !in GetFunc(m, Spoil(env, p, x), x, tr).0.vsbs
  {
    SpoilVsb(m, env, p, x, x, tr);
    assert x !in m.funcs;
    hide Agreed, GoodEnv, AllocVsb, GetVsb, Spoil;
  }

  lemma NotCompiled(m: Maps, x: nat)
    requires Agreed(m) && x !in m.vsbs
    ensures x !in m.jits
  {
  }

  lemma FnHere(m: Maps, tr: Xlate, x: nat)
    ensures x !in m.vsbs && tr(x).Some? ==> FnAt(m, tr, x) == Some(Fn(tr(x).value))
  {
  }

  lemma InFetched(m: Maps, tr: Xlate, at: set<nat>, p: nat)
    requires p in at && FnAt(m, tr, p).Some?
    ensures p in Fetched(m, tr, at).vsbs
  {
  }

  lemma SpoilScan(m: Maps, env: Env, tr: Xlate, p: nat, f: Fetch, at: set<nat>, addrs: seq<nat>, i: nat)
    requires GoodEnv(env) && GoodXlate(tr) && Agreed(m) && p in at && p !in m.jits && FnAt(m, tr, p).Some?
    requires Along(m, tr, p, f, at) && OverAt(m, env, tr, at, addrs, i)
    ensures Spoiled(ScanExits(f, addrs, Spoil(env, p, addrs[i]), tr), env, p, addrs[i])
  {
    hide GoodEnv, GoodXlate, Agreed, FnAt, Along, Fetched, ScanExit, ScanExits, Spoil, Spoiled;
    var x := addrs[i];
    var env2 := Spoil(env, p, x);
    SpoilMax(env, p, x);
    AlongScan(m, env2, tr, p, f, at, addrs[..i]);
    var g := ScanExits(f, addrs[..i], env2, tr);
    SpoilHere(m, env, tr, p, g, at + Members(addrs[..i]), x);
    SpoiledScan(ScanExit(g, x, env2, tr), env, p, x, addrs[i + 1..], tr);
    ScanSplit(f, addrs, i, env2, tr);
  }

  /** A round that starts in good order and overflows spoils the rest of the loop. */
  lemma SpoilRound(m: Maps, env: Env, tr: Xlate, p: nat, h: Fetch, at: set<nat>, f: Fn, i: nat)
    requires GoodEnv(env) && GoodXlate(tr) && Agreed(m) && p in at && p !in m.jits && FnAt(m, tr, p).Some?
    requires Along(m, tr, p, h, at) && FetchOk(h) && h.queue == [f] && OverAt(m, env, tr, at, env.exits(f), i)
    ensures Spoiled(FetchLoop(h, Spoil(env, p, env.exits(f)[i]), tr), env, p, env.exits(f)[i])
  {
    hide GoodEnv, GoodXlate, Agreed, FnAt, Along, Fetched, ScanExit, ScanExits, Spoil, Spoiled, FetchLoop, FetchOk, Finish;
    var addrs := env.exits(f);
    var x := addrs[i];
    SpoilMax(env, p, x);
    SpoilScan(m, env, tr, p, h, at, addrs, i);
    var g := ScanExits(h, addrs, Spoil(env, p, x), tr);
    SpoiledFinish(g, env, p, x);
    LoopStep(h, Spoil(env, p, x), tr);
    FinishOk(g);
    SpoiledLoop(Finish(g), env, p, x, tr);
  }

  lemma FinishOk(g: Fetch)
    requires FetchOk(g) && g.queue != []
    ensures FetchOk(Finish(g))
  {
  }

  // ---- fitting is what agreement needs

  ghost predicate MayPick(env: Env, pick: set<nat> -> nat) {
    GoodEnv(env.(pick := pick))
  }

  /** Room is made for p as before. */
  lemma SpoilRoom(m: Maps, env: Env, tr: Xlate, p: nat, x: nat)
    requires GoodEnv(env) && Agreed(m) && Bounded(m, env) && x !in MakeRoom(m, env, tr, p).vsbs
    ensures MakeRoom(m, Spoil(env, p, x), tr, p) == MakeRoom(m, env, tr, p)
  {
    if !Ample(m, env, tr, p) {
      VictimIn(m, env);
      var k := env.pick(m.vsbs.Keys);
      assert k in m.vsbs.Keys && m.vsbs[k].addr == k;
      assert x in m.vsbs.Keys ==> x == k;
      assert Spoil(env, p, x).pick(m.vsbs.Keys) == k;
    }
  }

  lemma SpoilFPtr(m: Maps, env: Env, tr: Xlate, p: nat, x: nat, f: Fn)
    requires GoodEnv(env) && GoodXlate(tr) && Agreed(m) && Bounded(m, env) && p !in m.jits
    requires FnAt(m, tr, p) == Some(f) && x !in MakeRoom(m, env, tr, p).vsbs
    ensures
      var m0, env2 := MakeRoom(m, env, tr, p), Spoil(env, p, x);
      var s := Fetch(Fetched(m0, tr, {p}), map[], {f}, {}, [f]);
      && FetchOk(s) && Along(m0, tr, p, s, {p})
      && GetFPtr(m, env2, p, tr, true).0 == WithJits(FetchLoop(s, env2, tr), p, f)
  {
    hide *;
    var m0, env2 := MakeRoom(m, env, tr, p), Spoil(env, p, x);
    SpoilGood(env, p, x);
    SpoilMax(env, p, x);
    SameBound(m, env, env2);
    RoomMade(m, env, tr, p);
    RoomMade(m, env2, tr, p);
    SpoilRoom(m, env, tr, p, x);
    RoomFirst(m, env2, tr, p);
    GetFuncIs(m0, env2, tr, p);
    FPtrParts(m, env2, p, tr, true);
    StartOk(Fetched(m0, tr, {p}), f);
    StartAlong(m0, tr, p, Fetch(Fetched(m0, tr, {p}), map[], {f}, {}, [f]), f);
  }

  lemma SameBound(m: Maps, env: Env, env2: Env)
    requires Bounded(m, env) && env2.max == env.max
    ensures Bounded(m, env2)
  {
  }

  lemma UnfitParts(m: Maps, env: Env, tr: Xlate, p: nat)
    requires Agreed(m) && Bounded(m, env) && GoodEnv(env) && !Fits(m, env, tr, p)
    ensures p !in m.jits && FnAt(m, tr, p).Some?
    ensures
      var m0 := MakeRoom(m, env, tr, p);
      && |Fetched(m0, tr, {p}).vsbs| <= env.max
      && |Fetched(m0, tr, {p} + Scanned(m0, env, tr, FnAt(m, tr, p).value)).vsbs| > env.max
  {
    hide Fetched, Scanned, FnAt, MakeRoom, GoodEnv, Agreed, Ample, Looked;
    var m0 := MakeRoom(m, env, tr, p);
    RoomMade(m, env, tr, p);
    LookedIs(m0, env, tr, p);
    OneFits(m0, env, tr, p);
  }

  lemma OneFits(m: Maps, env: Env, tr: Xlate, p: nat)
    requires Agreed(m) && Bounded(m, env) && Ample(m, env, tr, p)
    ensures |Fetched(m, tr, {p}).vsbs| <= env.max && |Fetched(m, tr, {}).vsbs| <= env.max
  {
    hide Agreed;
    OneMore(m, tr, {}, p);
    assert {} + {p} == {p};
    KeysSize(m.vsbs, Fetched(m, tr, {}).vsbs);
    if p in m.vsbs {
      assert p in Fetched(m, tr, {}).vsbs;
    }
  }

  /** When not everything fits, some choice of victims leaves compiled code without its function. */
  lemma Unfit(m: Maps, env: Env, tr: Xlate, p: nat) returns (x: nat)
    requires GoodEnv(env) && GoodXlate(tr) && Agreed(m) && Bounded(m, env) && !Fits(m, env, tr, p)
    ensures !Agreed(GetFPtr(m, Spoil(env, p, x), p, tr, true).0)
  {
    hide *;
    UnfitParts(m, env, tr, p);
    RoomMade(m, env, tr, p);
    var m0, f := MakeRoom(m, env, tr, p), FnAt(m, tr, p).value;
    var s := Fetch(Fetched(m0, tr, {p}), map[], {f}, {}, [f]);
    var first := env.exits(f);
    FirstScan(m0, env, tr, f);
    if |Fetched(m0, tr, {p} + Members(first)).vsbs| > env.max {
      var i := FirstOver(m0, env, tr, {p}, first);
      x := OverAddr(m0, env, tr, {p}, first, i);
      SpoilFPtr(m, env, tr, p, x, f);
      SpoilRound(m0, env, tr, p, s, {p}, f, i);
    } else {
      var f1 := TheOne(FnsAt(m0, tr, Members(first)) - {f});
      SecondScan(m0, env, tr, f, f1);
      var at := {p} + Members(first);
      assert {p} + Scanned(m0, env, tr, f) == at + Members(env.exits(f1));
      var i := FirstOver(m0, env, tr, at, env.exits(f1));
      x := OverAddr(m0, env, tr, at, env.exits(f1), i);
      SpoilFPtr(m, env, tr, p, x, f);
      var env2 := Spoil(env, p, x);
      SpoilMax(env, p, x);
      RoundOne(m0, env2, tr, p, s, f);
      var h := Finish(ScanExits(s, first, env2, tr));
      OneQueued(h, f1);
      SpoilRound(m0, env, tr, p, h, at, f1, i);
      LoopStep(s, env2, tr);
      Singles(f);
      Singles(f1);
    }
    SpoiledEnd(FetchLoop(s, Spoil(env, p, x), tr), env, p, x, f);
  }

  lemma OverAddr(m: Maps, env: Env, tr: Xlate, at: set<nat>, addrs: seq<nat>, i: nat) returns (x: nat)
    requires OverAt(m, env, tr, at, addrs, i)
    ensures i < |addrs| && x == addrs[i] && x !in m.vsbs
  {
    x := addrs[i];
    OverIs(m, env, tr, at + Members(addrs[..i]), x);
  }

  /**
   Compiling ahead keeps the maps in agreement whatever eviction picks, if and only if everything
   fits whatever gives way to the superblock asked for.
   */
  lemma AgreesExact(m: Maps, env: Env, p: nat, tr: Xlate)
    requires GoodEnv(env) && GoodXlate(tr) && Agreed(m) && Bounded(m, env)
    ensures
      (forall pick :: MayPick(env, pick) ==> Agreed(GetFPtr(m, env.(pick := pick), p, tr, true).0)) <==>
      (forall pick :: MayPick(env, pick) ==> Fits(m, env.(pick := pick), tr, p))
  {
    hide *;
    forall pick | MayPick(env, pick) && Fits(m, env.(pick := pick), tr, p)
      ensures Agreed(GetFPtr(m, env.(pick := pick), p, tr, true).0)
    {
      PickGood(m, env, pick);
      AheadKeeps(m, env.(pick := pick), tr, p);
    }
    forall pick | MayPick(env, pick) && !Fits(m, env.(pick := pick), tr, p)
      ensures exists other :: MayPick(env, other) && !Agreed(GetFPtr(m, env.(pick := other), p, tr, true).0)
    {
      PickGood(m, env, pick);
      var x := Unfit(m, env.(pick := pick), tr, p);
      SpoilPicks(env, pick, p, x);
    }
  }

  lemma PickGood(m: Maps, env: Env, pick: set<nat> -> nat)
    requires MayPick(env, pick) && Bounded(m, env)
    ensures GoodEnv(env.(pick := pick)) && Bounded(m, env.(pick := pick))
  {
  }

  lemma SpoilPicks(env: Env, pick: set<nat> -> nat, p: nat, x: nat)
    requires MayPick(env, pick)
    ensures
      var spoiled := Spoil(env.(pick := pick), p, x);
      MayPick(env, spoiled.pick) && spoiled == env.(pick := spoiled.pick)
  {
    SpoilGood(env.(pick := pick), p, x);
  }
}
