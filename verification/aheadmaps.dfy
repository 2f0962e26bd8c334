/**
 Compiling ahead: exactly what it adds to the three maps while nothing has to be evicted, and
 exactly when it keeps the maps in agreement whatever eviction picks.
 */
module AheadMaps {
  import opened Options
  import opened CodeMaps

  /** The function at x: of the superblock cached there, or else of its fresh translation. */
  function FnAt(m: Maps, tr: Xlate, x: nat): Option<Fn> {
    if x in m.vsbs then Some(Fn(m.vsbs[x]))
    else match tr(x)
      case Some(c) => Some(Fn(c))
      case None => None
  }

  /** The functions at addresses that are not compiled yet. */
  function FnsAt(m: Maps, tr: Xlate, at: set<nat>): set<Fn> {
    set x | x in at && x !in m.jits && FnAt(m, tr, x).Some? :: FnAt(m, tr, x).value
  }

  /**
   Where compiling ahead of f looks: at its constant exits, and, when these bring in exactly one
   function besides f, at the exits of that one.
   */
  function Scanned(m: Maps, env: Env, tr: Xlate, f: Fn): set<nat> {
    var first := Members(env.exits(f));
    var fs := FnsAt(m, tr, first) - {f};
    if |fs| == 1 then first + (set g, x | g in fs && x in env.exits(g) :: x) else first
  }

  /** The superblocks and functions at these addresses known as well. */
  function Fetched(m: Maps, tr: Xlate, at: set<nat>): Maps {
    Maps(map k | k in m.vsbs.Keys + at && FnAt(m, tr, k).Some? :: FnAt(m, tr, k).value.src,
         map k | k in m.funcs.Keys + at && (k in m.funcs || FnAt(m, tr, k).Some?) ::
           if k in m.funcs then m.funcs[k] else FnAt(m, tr, k).value,
         m.jits)
  }

  /** ... and compiled. */
  function Built(m: Maps, tr: Xlate, at: set<nat>): Maps {
    Fetched(m, tr, at).(
      jits := map k | k in m.jits.Keys + at && (k in m.jits || FnAt(m, tr, k).Some?) ::
        if k in m.jits then m.jits[k] else Ptr(FnAt(m, tr, k).value))
  }

  lemma FnAddr(m: Maps, tr: Xlate, x: nat)
    requires GoodXlate(tr) && Agreed(m) && FnAt(m, tr, x).Some?
    ensures FnAt(m, tr, x).value.src.addr == x
  {
  }

  lemma FetchedAgreed(m: Maps, tr: Xlate, at: set<nat>)
    requires GoodXlate(tr) && Agreed(m)
    ensures Agreed(Fetched(m, tr, at)) && Kept(m, Fetched(m, tr, at))
  {
  }

  lemma BuiltAgreed(m: Maps, tr: Xlate, at: set<nat>)
    requires GoodXlate(tr) && Agreed(m)
    ensures Agreed(Built(m, tr, at)) && Kept(m, Built(m, tr, at))
  {
    FetchedAgreed(m, tr, at);
  }

  lemma FetchedFn(m: Maps, tr: Xlate, at: set<nat>, x: nat)
    ensures FnAt(Fetched(m, tr, at), tr, x) == FnAt(m, tr, x)
  {
  }

  lemma FetchedTwice(m: Maps, tr: Xlate, a: set<nat>, b: set<nat>)
    requires Agreed(m)
    ensures Fetched(Fetched(m, tr, a), tr, b) == Fetched(m, tr, a + b)
  {
    forall x ensures FnAt(Fetched(m, tr, a), tr, x) == FnAt(m, tr, x) {
      FetchedFn(m, tr, a, x);
    }
    hide FnAt;
    var m1, m2, n := Fetched(m, tr, a), Fetched(Fetched(m, tr, a), tr, b), Fetched(m, tr, a + b);
    assert m2.vsbs == n.vsbs;
    assert m2.funcs == n.funcs;
  }

  /** Nothing has to give way to a superblock at a. */
  predicate Ample(m: Maps, env: Env, tr: Xlate, a: nat) {
    a in m.vsbs || tr(a).None? || |m.vsbs| < env.max
  }

  lemma GetVsbIs(m: Maps, env: Env, tr: Xlate, a: nat)
    requires Ample(m, env, tr, a) && Bounded(m, env) && a !in m.vsbs
    ensures GetVsb(m, env, a, tr) == if tr(a).Some? then (m.(vsbs := m.vsbs[a := tr(a).value]), tr(a)) else (m, None)
  {
  }

  lemma GetFuncIs(m: Maps, env: Env, tr: Xlate, a: nat)
    requires GoodXlate(tr) && Agreed(m) && Bounded(m, env) && Ample(m, env, tr, a)
    ensures GetFunc(m, env, a, tr) == (Fetched(m, tr, {a}), FnAt(m, tr, a))
  {
    FetchedParts(m, tr, a);
    if a !in m.vsbs {
      GetVsbIs(m, env, tr, a);
    } else {
      assert m.vsbs[a := m.vsbs[a]] == m.vsbs;
    }
    if a in m.funcs {
      assert m.funcs[a := m.funcs[a]] == m.funcs;
    }
    hide Fetched, AllocVsb, Ample;
  }

  lemma FetchedParts(m: Maps, tr: Xlate, a: nat)
    requires GoodXlate(tr) && Agreed(m)
    ensures
      Fetched(m, tr, {a}) ==
      match FnAt(m, tr, a)
      case Some(f) => Maps(m.vsbs[a := f.src], m.funcs[a := f], m.jits)
      case None => m
  {
    var n := Fetched(m, tr, {a});
    if FnAt(m, tr, a).Some? {
      assert n.vsbs == m.vsbs[a := FnAt(m, tr, a).value.src];
      assert n.funcs == m.funcs[a := FnAt(m, tr, a).value];
    } else {
      assert n.vsbs == m.vsbs;
      assert n.funcs == m.funcs;
    }
  }

  // ---- the work list

  /** The functions to compile along, p's own excepted. */
  function NamesAt(m: Maps, tr: Xlate, p: nat, at: set<nat>): map<nat, Fn> {
    map k | k in at && k != p && k !in m.jits && FnAt(m, tr, k).Some? :: FnAt(m, tr, k).value
  }

  /** Where the work list stands once the addresses at have been looked at. */
  predicate Along(m: Maps, tr: Xlate, p: nat, f: Fetch, at: set<nat>) {
    && f.m == Fetched(m, tr, at)
    && f.names == NamesAt(m, tr, p, at)
    && f.work + f.complete == FnsAt(m, tr, at)
  }

  lemma Skipped(m: Maps, tr: Xlate, p: nat, at: set<nat>, a: nat)
    requires Agreed(m) && (a in m.jits || a in at || FnAt(m, tr, a).None?)
    ensures Fetched(m, tr, at + {a}) == Fetched(m, tr, at)
    ensures NamesAt(m, tr, p, at + {a}) == NamesAt(m, tr, p, at)
    ensures FnsAt(m, tr, at + {a}) == FnsAt(m, tr, at)
  {
    assert Fetched(m, tr, at + {a}).vsbs == Fetched(m, tr, at).vsbs;
    assert Fetched(m, tr, at + {a}).funcs == Fetched(m, tr, at).funcs;
  }

  lemma Taken(m: Maps, tr: Xlate, p: nat, at: set<nat>, a: nat)
    requires GoodXlate(tr) && Agreed(m) && a !in m.jits && a !in at && a != p && FnAt(m, tr, a).Some?
    ensures NamesAt(m, tr, p, at + {a}) == NamesAt(m, tr, p, at)[a := FnAt(m, tr, a).value]
    ensures FnsAt(m, tr, at + {a}) == FnsAt(m, tr, at) + {FnAt(m, tr, a).value}
    ensures FnAt(m, tr, a).value !in FnsAt(m, tr, at)
  {
    forall x | x in at && FnAt(m, tr, x).Some? ensures FnAt(m, tr, x) != FnAt(m, tr, a) {
      FnAddr(m, tr, x);
      FnAddr(m, tr, a);
    }
    hide FnAt;
  }

  lemma StepAmple(m: Maps, env: Env, tr: Xlate, at: set<nat>, a: nat)
    requires |Fetched(m, tr, at + {a}).vsbs| <= env.max
    ensures Ample(Fetched(m, tr, at), env, tr, a) && Bounded(Fetched(m, tr, at), env)
  {
    var s, t := Fetched(m, tr, at).vsbs, Fetched(m, tr, at + {a}).vsbs;
    KeysSize(t, s);
    if a !in s && tr(a).Some? {
      assert t.Keys == s.Keys + {a};
      assert |t| == |t.Keys| && |s| == |s.Keys|;
    }
  }

  lemma AlongStep(m: Maps, env: Env, tr: Xlate, p: nat, f: Fetch, at: set<nat>, a: nat)
    requires GoodXlate(tr) && Agreed(m) && p in at && p !in m.jits && Along(m, tr, p, f, at)
    requires |Fetched(m, tr, at + {a}).vsbs| <= env.max
    ensures Along(m, tr, p, ScanExit(f, a, env, tr), at + {a})
  {
    hide GoodXlate, Agreed, FnAt, FnsAt, NamesAt, Fetched, Ample, Bounded, GetFunc;
    FetchedJits(m, tr, at);
    if a in m.jits {
      Skipped(m, tr, p, at, a);
    } else {
      StepAmple(m, env, tr, at, a);
      FetchedAgreed(m, tr, at);
      GetFuncIs(f.m, env, tr, a);
      FetchedFn(m, tr, at, a);
      FetchedTwice(m, tr, at, {a});
      if FnAt(m, tr, a).None? || a in at {
        Skipped(m, tr, p, at, a);
        if a in at && FnAt(m, tr, a).Some? {
          InFns(m, tr, at, a);
        }
      } else {
        Taken(m, tr, p, at, a);
      }
    }
  }

  lemma FetchedJits(m: Maps, tr: Xlate, at: set<nat>)
    ensures Fetched(m, tr, at).jits == m.jits
  {
  }

  lemma InFns(m: Maps, tr: Xlate, at: set<nat>, a: nat)
    requires a in at && a !in m.jits && FnAt(m, tr, a).Some?
    ensures FnAt(m, tr, a).value in FnsAt(m, tr, at)
  {
  }

  lemma FetchedSize(m: Maps, tr: Xlate, a: set<nat>, b: set<nat>)
    requires a <= b
    ensures |Fetched(m, tr, a).vsbs| <= |Fetched(m, tr, b).vsbs|
  {
    KeysSize(Fetched(m, tr, b).vsbs, Fetched(m, tr, a).vsbs);
  }

  lemma {:induction false} AlongScan(m: Maps, env: Env, tr: Xlate, p: nat, f: Fetch, at: set<nat>, addrs: seq<nat>)
    requires GoodXlate(tr) && Agreed(m) && p in at && p !in m.jits && Along(m, tr, p, f, at)
    requires |Fetched(m, tr, at + Members(addrs)).vsbs| <= env.max
    ensures Along(m, tr, p, ScanExits(f, addrs, env, tr), at + Members(addrs))
    decreases |addrs|
  {
    hide GoodXlate, Agreed, Along, Fetched, ScanExit;
    if addrs == [] {
      assert at + Members(addrs) == at;
    } else {
      var next := at + {addrs[0]};
      assert next + Members(addrs[1..]) == at + Members(addrs);
      FetchedSize(m, tr, next, at + Members(addrs));
      AlongStep(m, env, tr, p, f, at, addrs[0]);
      AlongScan(m, env, tr, p, ScanExit(f, addrs[0], env, tr), next, addrs[1..]);
    }
  }

  lemma AlongFinish(m: Maps, tr: Xlate, p: nat, f: Fetch, at: set<nat>)
    requires Along(m, tr, p, f, at) && FetchOk(f) && f.queue != []
    ensures Along(m, tr, p, Finish(f), at)
  {
    hide FnsAt, NamesAt, Fetched;
    assert f.queue[0] in f.work;
  }

  /** One function waiting is at the front of the queue. */
  lemma OneQueued(f: Fetch, g: Fn)
    requires FetchOk(f) && f.work == {g}
    ensures f.queue == [g]
  {
    assert g in f.queue;
    forall i | 0 <= i < |f.queue| ensures f.queue[i] == g {
      assert f.queue[i] in f.work;
    }
    NoTwins(f);
  }

  lemma NoTwins(f: Fetch)
    requires FetchOk(f)
    ensures |f.queue| <= 1 || f.queue[0] != f.queue[1]
  {
  }

  lemma SecondScan(m: Maps, env: Env, tr: Xlate, f: Fn, g: Fn)
    requires FnsAt(m, tr, Members(env.exits(f))) - {f} == {g}
    ensures Scanned(m, env, tr, f) == Members(env.exits(f)) + Members(env.exits(g))
  {
    hide FnsAt;
    assert |{g}| == 1;
  }

  lemma FirstScan(m: Maps, env: Env, tr: Xlate, f: Fn)
    ensures Members(env.exits(f)) <= Scanned(m, env, tr, f)
    ensures |FnsAt(m, tr, Members(env.exits(f))) - {f}| != 1 ==> Scanned(m, env, tr, f) == Members(env.exits(f))
  {
    hide FnsAt;
  }

  lemma TheOne<T>(s: set<T>) returns (x: T)
    requires |s| == 1
    ensures s == {x}
  {
    x :| x in s;
    assert s == {x} + (s - {x}) && |s - {x}| == 0;
  }

  lemma FnsFrom(m: Maps, tr: Xlate, p: nat, f: Fn, at: set<nat>)
    requires p !in m.jits && FnAt(m, tr, p) == Some(f)
    ensures FnsAt(m, tr, {p} + at) - {f} == FnsAt(m, tr, at) - {f}
  {
    hide FnAt;
  }

  /** After the first round the functions besides f at its exits are waiting ... */
  lemma RoundOne(m: Maps, env: Env, tr: Xlate, p: nat, s: Fetch, f: Fn)
    requires GoodXlate(tr) && Agreed(m) && p !in m.jits && FnAt(m, tr, p) == Some(f)
    requires s.work == {f} && s.complete == {} && s.queue == [f] && FetchOk(s) && Along(m, tr, p, s, {p})
    requires |Fetched(m, tr, {p} + Members(env.exits(f))).vsbs| <= env.max
    ensures
      var h := Finish(ScanExits(s, env.exits(f), env, tr));
      && FetchOk(h) && Along(m, tr, p, h, {p} + Members(env.exits(f)))
      && h.work == FnsAt(m, tr, Members(env.exits(f))) - {f} && h.complete == {f}
  {
    hide GoodXlate, Agreed, FnAt, FnsAt, Fetched, ScanExits, FetchOk, NamesAt;
    var first := Members(env.exits(f));
    AlongScan(m, env, tr, p, s, {p}, env.exits(f));
    var g := ScanExits(s, env.exits(f), env, tr);
    AlongFinish(m, tr, p, g, {p} + first);
    FnsFrom(m, tr, p, f, first);
    assert g.queue[0] == f;
    WorkLeft(g);
  }

  /** ... and if it is just one, its exits are looked at too, and that is the end. */
  lemma RoundTwo(m: Maps, env: Env, tr: Xlate, p: nat, h: Fetch, at: set<nat>, f: Fn, f1: Fn)
    requires GoodXlate(tr) && Agreed(m) && p in at && p !in m.jits
    requires FetchOk(h) && Along(m, tr, p, h, at) && h.work == {f1} && h.complete == {f}
    requires |Fetched(m, tr, at + Members(env.exits(f1))).vsbs| <= env.max
    ensures Along(m, tr, p, FetchLoop(h, env, tr), at + Members(env.exits(f1)))
  {
    hide GoodXlate, Agreed, FnAt, FnsAt, Fetched, ScanExits, FetchOk, NamesAt, Along, Finish;
    OneQueued(h, f1);
    AlongScan(m, env, tr, p, h, at, env.exits(f1));
    var g := ScanExits(h, env.exits(f1), env, tr);
    AlongFinish(m, tr, p, g, at + Members(env.exits(f1)));
    FinishTwo(g, f);
    LastRound(Finish(g), env, tr);
  }

  lemma LoopStep(s: Fetch, env: Env, tr: Xlate)
    requires FetchOk(s) && s.queue != []
    ensures
      var h := Finish(ScanExits(s, env.exits(s.queue[0]), env, tr));
      FetchLoop(s, env, tr) == if |h.complete| + |h.work| > 2 then h else FetchLoop(h, env, tr)
  {
    hide ScanExits, Finish, FetchOk;
  }

  lemma LoopEnd(h: Fetch, env: Env, tr: Xlate)
    requires FetchOk(h) && h.work == {}
    ensures FetchLoop(h, env, tr) == h
  {
    QueueEmpty(h);
  }

  lemma Singles(f: Fn)
    ensures |{f}| == 1
  {
  }

  /** The loop looks where Scanned says, and does nothing else. */
  lemma AlongLoop(m: Maps, env: Env, tr: Xlate, p: nat, s: Fetch, f: Fn)
    requires GoodXlate(tr) && Agreed(m) && p !in m.jits && FnAt(m, tr, p) == Some(f)
    requires s.work == {f} && s.complete == {} && s.queue == [f] && FetchOk(s) && Along(m, tr, p, s, {p})
    requires |Fetched(m, tr, {p} + Scanned(m, env, tr, f)).vsbs| <= env.max
    ensures Along(m, tr, p, FetchLoop(s, env, tr), {p} + Scanned(m, env, tr, f))
  {
    hide *;
    var first, at := Members(env.exits(f)), {p} + Scanned(m, env, tr, f);
    FirstScan(m, env, tr, f);
    FetchedSize(m, tr, {p} + first, at);
    RoundOne(m, env, tr, p, s, f);
    LoopStep(s, env, tr);
    var h := Finish(ScanExits(s, env.exits(f), env, tr));
    Singles(f);
    if |h.work| == 1 {
      var f1 := TheOne(h.work);
      SecondScan(m, env, tr, f, f1);
      assert {p} + first + Members(env.exits(f1)) == at;
      RoundTwo(m, env, tr, p, h, {p} + first, f, f1);
    } else if h.work == {} {
      LoopEnd(h, env, tr);
    }
  }

  lemma WorkLeft(g: Fetch)
    requires FetchOk(g) && g.queue != [] && g.complete == {}
    ensures Finish(g).work == g.work + g.complete - {g.queue[0]} && Finish(g).complete == {g.queue[0]}
  {
  }

  lemma FinishTwo(g: Fetch, f: Fn)
    requires FetchOk(g) && g.queue != [] && g.complete == {f}
    ensures FetchOk(Finish(g)) && |Finish(g).complete| == 2
  {
    assert |{f}| == 1;
  }

  // ---- what getting compiled code does

  /** The maps once a superblock has given way to that of p, if one must. */
  function MakeRoom(m: Maps, env: Env, tr: Xlate, p: nat): Maps {
    if Ample(m, env, tr, p) then m else Evict(m, Victim(m, env))
  }

  lemma RoomMade(m: Maps, env: Env, tr: Xlate, p: nat)
    requires GoodEnv(env) && Agreed(m) && Bounded(m, env)
    ensures
      var m0 := MakeRoom(m, env, tr, p);
      && Agreed(m0) && Bounded(m0, env) && Ample(m0, env, tr, p)
      && FnAt(m0, tr, p) == FnAt(m, tr, p) && (p in m0.jits <==> p in m.jits)
      && (forall k :: k in m0.vsbs ==> k in m.vsbs && m0.vsbs[k] == m.vsbs[k])
  {
    if !Ample(m, env, tr, p) {
      VictimIn(m, env);
      EvictOne(m, Victim(m, env));
      EvictKeeps(m, Victim(m, env));
    }
    hide Agreed, GoodEnv;
  }

  /** Making room first changes nothing. */
  lemma RoomFirst(m: Maps, env: Env, tr: Xlate, p: nat)
    requires GoodEnv(env) && Agreed(m) && Bounded(m, env) && p !in m.jits
    ensures GetFunc(MakeRoom(m, env, tr, p), env, p, tr) == GetFunc(m, env, p, tr)
  {
    if !Ample(m, env, tr, p) {
      RoomMade(m, env, tr, p);
      assert p !in m.funcs;
    }
  }

  /** Looking the superblock up first changes nothing either. */
  lemma VsbFirst(m: Maps, env: Env, tr: Xlate, p: nat, ahead: bool)
    requires GoodEnv(env) && GoodXlate(tr) && Agreed(m) && Bounded(m, env)
    ensures GetFPtr(GetVsb(m, env, p, tr).0, env, p, tr, ahead) == GetFPtr(m, env, p, tr, ahead)
  {
  }

  /** All the addresses whose superblock is looked up. */
  function Looked(m: Maps, env: Env, tr: Xlate, p: nat): set<nat> {
    match FnAt(m, tr, p)
    case Some(f) => {p} + Scanned(m, env, tr, f)
    case None => {}
  }

  /** What is cached, less what gives way to the superblock of p, fits together with all that compiling ahead looks up. */
  predicate Fits(m: Maps, env: Env, tr: Xlate, p: nat) {
    var m0 := MakeRoom(m, env, tr, p);
    p in m.jits || |Fetched(m0, tr, Looked(m0, env, tr, p)).vsbs| <= env.max
  }

  /**
   While everything fits, getting compiled code with compiling ahead looks up p and the addresses
   that Scanned says, compiles all of those that can be translated, and does nothing else.
   */
  lemma CompilesExactly(m: Maps, env: Env, tr: Xlate, p: nat)
    requires GoodEnv(env) && GoodXlate(tr) && Agreed(m) && Bounded(m, env) && p !in m.jits && Fits(m, env, tr, p)
    ensures
      var m0 := MakeRoom(m, env, tr, p);
      GetFPtr(m, env, p, tr, true).0 == Built(m0, tr, Looked(m0, env, tr, p))
  {
    hide *;
    var m0 := MakeRoom(m, env, tr, p);
    RoomMade(m, env, tr, p);
    RoomFirst(m, env, tr, p);
    GetFuncIs(m0, env, tr, p);
    FPtrParts(m, env, p, tr, true);
    LookedIs(m0, env, tr, p);
    FitsIs(m, env, tr, p);
    if FnAt(m0, tr, p).Some? {
      var f := FnAt(m0, tr, p).value;
      var m1 := GetFunc(m, env, p, tr).0;
      var s := Fetch(m1, map[], {f}, {}, [f]);
      StartOk(m1, f);
      StartAlong(m0, tr, p, s, f);
      AlongLoop(m0, env, tr, p, s, f);
      BuiltIs(m0, tr, p, FetchLoop(s, env, tr), Looked(m0, env, tr, p), f);
    } else {
      FetchedNone(m0, tr, p);
    }
  }

  lemma LookedIs(m: Maps, env: Env, tr: Xlate, p: nat)
    ensures Looked(m, env, tr, p) == if FnAt(m, tr, p).Some? then {p} + Scanned(m, env, tr, FnAt(m, tr, p).value) else {}
  {
    hide FnAt, Scanned;
  }

  lemma FitsIs(m: Maps, env: Env, tr: Xlate, p: nat)
    requires Fits(m, env, tr, p) && p !in m.jits
    ensures var m0 := MakeRoom(m, env, tr, p); |Fetched(m0, tr, Looked(m0, env, tr, p)).vsbs| <= env.max
  {
  }

  lemma StartAlong(m: Maps, tr: Xlate, p: nat, s: Fetch, f: Fn)
    requires p !in m.jits && FnAt(m, tr, p) == Some(f)
    requires s == Fetch(Fetched(m, tr, {p}), map[], {f}, {}, [f])
    ensures Along(m, tr, p, s, {p})
  {
    hide Fetched;
    assert NamesAt(m, tr, p, {p}) == map[];
    assert FnsAt(m, tr, {p}) == {f};
  }

  lemma BuiltIs(m: Maps, tr: Xlate, p: nat, r: Fetch, at: set<nat>, f: Fn)
    requires Agreed(m) && p in at && FnAt(m, tr, p) == Some(f) && p !in m.jits && Along(m, tr, p, r, at)
    ensures WithJits(r, p, f) == Built(m, tr, at)
  {
    hide Fetched, FnAt;
    FetchedJits(m, tr, at);
    assert WithJits(r, p, f).jits == Built(m, tr, at).jits;
  }

  lemma FetchedNone(m: Maps, tr: Xlate, p: nat)
    requires GoodXlate(tr) && Agreed(m) && FnAt(m, tr, p).None?
    ensures Fetched(m, tr, {p}) == m && Built(m, tr, {}) == m
  {
    FetchedParts(m, tr, p);
    assert Built(m, tr, {}).vsbs == m.vsbs;
    assert Built(m, tr, {}).funcs == m.funcs;
    assert Built(m, tr, {}).jits == m.jits;
  }

  /** So the maps stay in agreement. */
  lemma AheadKeeps(m: Maps, env: Env, tr: Xlate, p: nat)
    requires GoodEnv(env) && GoodXlate(tr) && Agreed(m) && Bounded(m, env) && Fits(m, env, tr, p)
    ensures Agreed(GetFPtr(m, env, p, tr, true).0)
  {
    hide *;
    if p in m.jits {
      Known(m, env, p, tr, true);
    } else {
      CompilesExactly(m, env, tr, p);
      RoomMade(m, env, tr, p);
      var m0 := MakeRoom(m, env, tr, p);
      BuiltAgreed(m0, tr, Looked(m0, env, tr, p));
    }
  }

  /** Functions with few constant exits fit into what is left of a large cache. */
  lemma FewFit(m: Maps, env: Env, tr: Xlate, p: nat, b: nat)
    requires GoodEnv(env) && Agreed(m) && Bounded(m, env)
    requires (forall f :: |env.exits(f)| <= b) && |m.vsbs| + 1 + 2 * b <= env.max
    ensures Fits(m, env, tr, p)
  {
    hide Fetched, Scanned, FnAt, GoodEnv, Agreed;
    var at := Looked(m, env, tr, p);
    if FnAt(m, tr, p).Some? {
      ScannedSize(m, env, tr, FnAt(m, tr, p).value, b);
      SumSize({p}, Scanned(m, env, tr, FnAt(m, tr, p).value));
    }
    FetchedFew(m, tr, at);
  }

  lemma SumSize(a: set<nat>, b: set<nat>)
    ensures |a + b| <= |a| + |b|
  {
    assert a + b == a + (b - a);
    SubsetSize(b - a, b);
  }

  lemma {:induction false} MembersSize(s: seq<nat>)
    ensures |Members(s)| <= |s|
  {
    if s != [] {
      MembersSize(s[1..]);
      assert Members(s) == {s[0]} + Members(s[1..]);
      SumSize({s[0]}, Members(s[1..]));
    }
  }

  lemma ScannedSize(m: Maps, env: Env, tr: Xlate, f: Fn, b: nat)
    requires forall g :: |env.exits(g)| <= b
    ensures |Scanned(m, env, tr, f)| <= 2 * b
  {
    hide FnsAt, Members;
    var first := Members(env.exits(f));
    MembersSize(env.exits(f));
    var fs := FnsAt(m, tr, first) - {f};
    if |fs| == 1 {
      var g := TheOne(fs);
      SecondScan(m, env, tr, f, g);
      MembersSize(env.exits(g));
      SumSize(first, Members(env.exits(g)));
    } else {
      FirstScan(m, env, tr, f);
    }
  }

  lemma FetchedFew(m: Maps, tr: Xlate, at: set<nat>)
    ensures |Fetched(m, tr, at).vsbs| <= |m.vsbs| + |at|
  {
    var s := Fetched(m, tr, at).vsbs;
    SubsetSize(s.Keys, m.vsbs.Keys + at);
    SumSize(m.vsbs.Keys, at);
    assert |s| == |s.Keys| && |m.vsbs| == |m.vsbs.Keys|;
  }
}
