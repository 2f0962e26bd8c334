/**
 The translation caches as three maps: superblocks, the functions emitted from them, and the
 compiled code of those functions. What every operation does to the maps, and what it keeps.
 */
module CodeMaps {
  import opened Options
  import opened DirectMapped

  /** A translated superblock: its guest address and the code bytes it was made from. */
  datatype Code = Code(addr: nat, bytes: seq<nat>)
  datatype Fn = Fn(src: Code)
  datatype Ptr = Ptr(f: Fn)

  datatype Maps = Maps(vsbs: map<nat, Code>, funcs: map<nat, Fn>, jits: map<nat, Ptr>)

  /** The translator, as things stand: no superblock where decoding fails. */
  type Xlate = nat -> Option<Code>

  /** The bound on the number of superblocks, the entry that eviction picks, and the constant exits of a function. */
  datatype Env = Env(max: nat, pick: set<nat> -> nat, exits: Fn -> seq<nat>)

  ghost predicate GoodEnv(env: Env) {
    env.max > 0 && forall s :: s != {} ==> env.pick(s) in s
  }

  ghost predicate GoodXlate(tr: Xlate) {
    forall a :: tr(a).Some? ==> tr(a).value.addr == a
  }

  function Evict(m: Maps, p: nat): Maps {
    Maps(m.vsbs - {p}, m.funcs - {p}, m.jits - {p})
  }

  /** The address of the superblock chosen for eviction. */
  function Victim(m: Maps, env: Env): nat {
    var k := env.pick(m.vsbs.Keys);
    if k in m.vsbs then m.vsbs[k].addr else 0
  }

  function AllocVsb(m: Maps, env: Env, p: nat, code: Option<Code>): (Maps, Option<Code>) {
    if code.None? then (m, None)
    else
      var m1 := if |m.vsbs| == env.max then Evict(m, Victim(m, env)) else m;
      (m1.(vsbs := m1.vsbs[p := code.value]), code)
  }

  function GetVsb(m: Maps, env: Env, p: nat, tr: Xlate): (Maps, Option<Code>) {
    if p in m.vsbs then (m, Some(m.vsbs[p])) else AllocVsb(m, env, p, tr(p))
  }

  function GetFunc(m: Maps, env: Env, p: nat, tr: Xlate): (Maps, Option<Fn>) {
    if p in m.funcs then (m, Some(m.funcs[p]))
    else
      var (m1, c) := GetVsb(m, env, p, tr);
      if c.None? then (m1, None)
      else (m1.(funcs := m1.funcs[c.value.addr := Fn(c.value)]), Some(Fn(c.value)))
  }

  // ---- compiling ahead: functions at the constant exits are compiled along

  datatype Fetch = Fetch(m: Maps, names: map<nat, Fn>, work: set<Fn>, complete: set<Fn>, queue: seq<Fn>)

  /** The queue lists the work set once each, and nothing in it is complete. */
  predicate FetchOk(f: Fetch) {
    && f.work == (set x | x in f.queue)
    && (forall i, j :: 0 <= i < j < |f.queue| ==> f.queue[i] != f.queue[j])
    && f.work !! f.complete
  }

  function ScanExit(f: Fetch, a: nat, env: Env, tr: Xlate): (r: Fetch)
    ensures FetchOk(f) ==> FetchOk(r)
    ensures r.complete == f.complete && f.queue <= r.queue
  {
    if a in f.m.jits then f
    else
      var (m1, nf) := GetFunc(f.m, env, a, tr);
      if nf.None? || nf.value in f.work || nf.value in f.complete then f.(m := m1)
      else Fetch(m1, f.names[a := nf.value], f.work + {nf.value}, f.complete, f.queue + [nf.value])
  }

  /** The exits of the function in front, with that function held back from the queue but not yet complete. */
  function ScanExits(f: Fetch, addrs: seq<nat>, env: Env, tr: Xlate): (r: Fetch)
    ensures FetchOk(f) ==> FetchOk(r)
    ensures r.complete == f.complete && f.queue <= r.queue
    decreases |addrs|
  {
    if addrs == [] then f else ScanExits(ScanExit(f, addrs[0], env, tr), addrs[1..], env, tr)
  }

  /** The function in front is done: it leaves the queue and the work set. */
  function Finish(f: Fetch): (r: Fetch)
    requires f.queue != []
    ensures FetchOk(f) ==> FetchOk(r) && |r.complete| == |f.complete| + 1
  {
    var cur := f.queue[0];
    var r := f.(work := f.work - {cur}, complete := f.complete + {cur}, queue := f.queue[1..]);
    assert FetchOk(f) ==> r.work == (set x | x in r.queue) by {
      assert f.queue == [cur] + r.queue;
    }
    r
  }

  /** Round after round until nothing is left to look at or three functions have been seen. */
  function FetchLoop(f: Fetch, env: Env, tr: Xlate): (r: Fetch)
    requires FetchOk(f)
    decreases 3 - |f.complete|
  {
    if f.queue == [] then f
    else
      var g := Finish(ScanExits(f, env.exits(f.queue[0]), env, tr));
      if |g.complete| + |g.work| > 2 then g else FetchLoop(g, env, tr)
  }

  function Compiled(names: map<nat, Fn>): map<nat, Ptr> {
    map a | a in names :: Ptr(names[a])
  }

  /** Compiled code for p; the exits are compiled along when guest and host addresses coincide. */
  function GetFPtr(m: Maps, env: Env, p: nat, tr: Xlate, ahead: bool): (Maps, Option<Ptr>) {
    hide *;
    if p in m.jits then (m, Some(m.jits[p]))
    else
      var (m1, f) := GetFunc(m, env, p, tr);
      if f.None? then (m1, None)
      else
        var start := Fetch(m1, map[], {f.value}, {}, [f.value]);
        StartOk(m1, f.value);
        var r := if ahead then FetchLoop(start, env, tr) else start;
        (r.m.(jits := (r.m.jits + Compiled(r.names))[p := Ptr(f.value)]), Some(Ptr(f.value)))
  }

  const NoCode: Maps := Maps(map[], map[], map[])

  function Outside<T>(m: map<nat, T>, begin: nat, end: nat): map<nat, T> {
    map k | k in m && !(begin <= k <= end) :: m[k]
  }

  /** Everything in [begin, end] goes; compiled code goes by the addresses of the functions. */
  function FlushRange(m: Maps, begin: nat, end: nat): Maps {
    Maps(Outside(m.vsbs, begin, end), Outside(m.funcs, begin, end),
         map k | k in m.jits && !(k in m.funcs && begin <= k <= end) :: m.jits[k])
  }

  // ---- the three maps agree

  /** Compiled code only for known functions, functions only for known superblocks. */
  predicate Nested(m: Maps) {
    m.jits.Keys <= m.funcs.Keys <= m.vsbs.Keys
  }

  /** Entries for one address belong together. */
  predicate Matched(m: Maps) {
    && (forall k :: k in m.vsbs ==> m.vsbs[k].addr == k)
    && (forall k :: k in m.funcs && k in m.vsbs ==> m.funcs[k] == Fn(m.vsbs[k]))
    && (forall k :: k in m.jits && k in m.funcs ==> m.jits[k] == Ptr(m.funcs[k]))
  }

  predicate Agreed(m: Maps) {
    Nested(m) && Matched(m)
  }

  predicate Bounded(m: Maps, env: Env) {
    |m.vsbs| <= env.max
  }

  lemma EvictKeeps(m: Maps, p: nat)
    requires Agreed(m)
    ensures Agreed(Evict(m, p))
    ensures p !in Evict(m, p).vsbs && p !in Evict(m, p).funcs && p !in Evict(m, p).jits
    ensures forall k :: k != p ==>
      && Find(Evict(m, p).vsbs, k) == Find(m.vsbs, k)
      && Find(Evict(m, p).funcs, k) == Find(m.funcs, k)
      && Find(Evict(m, p).jits, k) == Find(m.jits, k)
  {
  }

  lemma MapInsertSize<T>(m: map<nat, T>, k: nat, v: T)
    requires k !in m
    ensures |m[k := v]| == |m| + 1
  {
    var m' := m[k := v];
    assert m'.Keys == m.Keys + {k};
    assert |m'| == |m'.Keys| && |m| == |m.Keys|;
  }

  lemma MapRemoveSize<T>(m: map<nat, T>, k: nat)
    requires k in m
    ensures |m - {k}| == |m| - 1
  {
    var m' := m - {k};
    assert m'.Keys == m.Keys - {k};
    assert |m'| == |m'.Keys| && |m| == |m.Keys|;
  }

  /** What one lookup-or-translate step may do: keep the bound, and lose nothing unless the cache is full. */
  predicate Grew(m: Maps, m': Maps, env: Env) {
    && |m.vsbs| <= |m'.vsbs| <= env.max
    && (|m'.vsbs| < env.max ==> Kept(m, m'))
  }

  predicate Kept(m: Maps, m': Maps) {
    && (forall k :: k in m.vsbs ==> k in m'.vsbs && m'.vsbs[k] == m.vsbs[k])
    && (forall k :: k in m.funcs ==> k in m'.funcs && m'.funcs[k] == m.funcs[k])
    && (forall k :: k in m.jits ==> k in m'.jits && m'.jits[k] == m.jits[k])
  }

  lemma VictimIn(m: Maps, env: Env)
    requires GoodEnv(env) && Agreed(m) && |m.vsbs| == env.max
    ensures Victim(m, env) in m.vsbs
  {
    assert |m.vsbs| == |m.vsbs.Keys|;
    assert m.vsbs.Keys != {};
  }

  lemma GetVsbKeeps(m: Maps, env: Env, p: nat, tr: Xlate)
    requires GoodEnv(env) && GoodXlate(tr) && Agreed(m) && Bounded(m, env)
    ensures
      var (m', c) := GetVsb(m, env, p, tr);
      && Agreed(m') && Grew(m, m', env)
      && c == (if p in m.vsbs then Some(m.vsbs[p]) else tr(p))
      && (c.Some? ==> p in m'.vsbs && m'.vsbs[p] == c.value && c.value.addr == p)
      && m'.jits.Keys <= m.jits.Keys
  {
    hide Agreed, Victim, Evict, Kept;
    KeptRefl(m);
    if p in m.vsbs {
      VsbKnown(m, p);
    } else if tr(p).Some? {
      if |m.vsbs| == env.max {
        var v := Victim(m, env);
        VictimIn(m, env);
        EvictKeeps(m, v);
        EvictOne(m, v);
        AddVsb(Evict(m, v), tr(p).value);
      } else {
        AddVsb(m, tr(p).value);
      }
    }
  }

  lemma VsbKnown(m: Maps, p: nat)
    requires Agreed(m) && p in m.vsbs
    ensures m.vsbs[p].addr == p
  {
  }

  lemma EvictOne(m: Maps, v: nat)
    requires v in m.vsbs
    ensures |Evict(m, v).vsbs| == |m.vsbs| - 1 && Evict(m, v).jits.Keys <= m.jits.Keys
    ensures Evict(m, v).vsbs.Keys <= m.vsbs.Keys
  {
    MapRemoveSize(m.vsbs, v);
  }

  lemma AddVsb(m: Maps, c: Code)
    requires Agreed(m) && c.addr !in m.vsbs
    ensures
      var m' := m.(vsbs := m.vsbs[c.addr := c]);
      Agreed(m') && |m'.vsbs| == |m.vsbs| + 1 && Kept(m, m')
  {
    MapInsertSize(m.vsbs, c.addr, c);
  }

  lemma GetFuncKeeps(m: Maps, env: Env, p: nat, tr: Xlate)
    requires GoodEnv(env) && GoodXlate(tr) && Agreed(m) && Bounded(m, env)
    ensures
      var (m', f) := GetFunc(m, env, p, tr);
      && Agreed(m') && Grew(m, m', env)
      && f == (if p in m.vsbs then Some(Fn(m.vsbs[p])) else if tr(p).Some? then Some(Fn(tr(p).value)) else None)
      && (f.Some? ==> p in m'.funcs && m'.funcs[p] == f.value && f.value.src.addr == p)
      && m'.jits.Keys <= m.jits.Keys
  {
    hide GoodEnv, GoodXlate, GetVsb, Agreed, Grew;
    if p in m.funcs {
      FuncKnown(m, env, p);
    } else {
      GetVsbKeeps(m, env, p, tr);
      var (m1, c) := GetVsb(m, env, p, tr);
      if c.Some? {
        AddFunc(m, m1, env, c.value);
      }
    }
  }

  lemma FuncKnown(m: Maps, env: Env, p: nat)
    requires Agreed(m) && Bounded(m, env) && p in m.funcs
    ensures Grew(m, m, env) && p in m.vsbs && m.funcs[p] == Fn(m.vsbs[p]) && m.vsbs[p].addr == p
  {
  }

  /** Filing the function of a known superblock. */
  lemma AddFunc(m: Maps, m1: Maps, env: Env, c: Code)
    requires Agreed(m1) && Grew(m, m1, env) && c.addr in m1.vsbs && m1.vsbs[c.addr] == c
    ensures
      var m' := m1.(funcs := m1.funcs[c.addr := Fn(c)]);
      Agreed(m') && Grew(m, m', env)
  {
  }

  // ---- compiling ahead

  /** The functions to compile along are known functions, filed under their own addresses. */
  predicate NamesKnown(f: Fetch) {
    forall a :: a in f.names ==> a in f.m.funcs && f.m.funcs[a] == f.names[a]
  }

  predicate FetchKept(f: Fetch, f': Fetch, env: Env) {
    && Agreed(f'.m) && Grew(f.m, f'.m, env)
    && (|f'.m.vsbs| < env.max && NamesKnown(f) ==> NamesKnown(f'))
    && (f.names.Keys !! f.m.jits.Keys ==> f'.names.Keys !! f'.m.jits.Keys)
  }

  lemma FetchTrans(f: Fetch, g: Fetch, h: Fetch, env: Env)
    requires FetchKept(f, g, env) && FetchKept(g, h, env)
    ensures FetchKept(f, h, env)
  {
  }

  lemma ScanExitKeeps(f: Fetch, a: nat, env: Env, tr: Xlate)
    requires GoodEnv(env) && GoodXlate(tr) && Agreed(f.m) && Bounded(f.m, env)
    ensures FetchKept(f, ScanExit(f, a, env, tr), env)
  {
    hide GoodEnv, GoodXlate, GetFunc, Nested, Matched;
    if a !in f.m.jits {
      GetFuncKeeps(f.m, env, a, tr);
    }
  }

  lemma {:induction false} ScanExitsKeep(f: Fetch, addrs: seq<nat>, env: Env, tr: Xlate)
    requires GoodEnv(env) && GoodXlate(tr) && Agreed(f.m) && Bounded(f.m, env)
    ensures FetchKept(f, ScanExits(f, addrs, env, tr), env)
    decreases |addrs|
  {
    hide GoodEnv, GoodXlate, Agreed, ScanExit;
    if addrs != [] {
      var g := ScanExit(f, addrs[0], env, tr);
      ScanExitKeeps(f, addrs[0], env, tr);
      ScanExitsKeep(g, addrs[1..], env, tr);
      FetchTrans(f, g, ScanExits(f, addrs, env, tr), env);
    }
  }

  lemma {:induction false} FetchLoopKeeps(f: Fetch, env: Env, tr: Xlate)
    requires GoodEnv(env) && GoodXlate(tr) && Agreed(f.m) && Bounded(f.m, env) && FetchOk(f)
    ensures FetchKept(f, FetchLoop(f, env, tr), env)
    decreases 3 - |f.complete|
  {
    hide GoodEnv, GoodXlate, Agreed, ScanExits, FetchOk;
    if f.queue != [] {
      var g := ScanExits(f, env.exits(f.queue[0]), env, tr);
      ScanExitsKeep(f, env.exits(f.queue[0]), env, tr);
      var h := Finish(g);
      FetchTrans(f, g, h, env);
      if |h.complete| + |h.work| <= 2 {
        FetchLoopKeeps(h, env, tr);
        FetchTrans(f, h, FetchLoop(h, env, tr), env);
      }
    }
  }

  // ---- which superblocks are added

  /** Superblocks in m' are those of m, or fresh translations at one of the addresses at. */
  predicate Added(m: Maps, m': Maps, tr: Xlate, at: set<nat>) {
    forall k :: k in m'.vsbs ==> (k in m.vsbs && m'.vsbs[k] == m.vsbs[k]) || (k in at && tr(k) == Some(m'.vsbs[k]))
  }

  lemma AddedTrans(m: Maps, m': Maps, m'': Maps, tr: Xlate, a: set<nat>, b: set<nat>)
    requires Added(m, m', tr, a) && Added(m', m'', tr, b)
    ensures Added(m, m'', tr, a + b)
  {
  }

  lemma GetVsbAdds(m: Maps, env: Env, p: nat, tr: Xlate)
    ensures Added(m, GetVsb(m, env, p, tr).0, tr, {p})
  {
  }

  lemma GetFuncAdds(m: Maps, env: Env, p: nat, tr: Xlate)
    ensures Added(m, GetFunc(m, env, p, tr).0, tr, {p})
  {
    GetVsbAdds(m, env, p, tr);
  }

  function Members(s: seq<nat>): set<nat> {
    set x | x in s
  }

  lemma {:induction false} ScanExitsAdd(f: Fetch, addrs: seq<nat>, env: Env, tr: Xlate)
    ensures Added(f.m, ScanExits(f, addrs, env, tr).m, tr, Members(addrs))
    decreases |addrs|
  {
    hide GetFunc, Added;
    if addrs == [] {
      AddedNothing(f.m, tr, Members(addrs));
    } else {
      var g := ScanExit(f, addrs[0], env, tr);
      GetFuncAdds(f.m, env, addrs[0], tr);
      AddedNothing(f.m, tr, {addrs[0]});
      ScanExitsAdd(g, addrs[1..], env, tr);
      AddedTrans(f.m, g.m, ScanExits(f, addrs, env, tr).m, tr, {addrs[0]}, Members(addrs[1..]));
      assert Members(addrs) == {addrs[0]} + Members(addrs[1..]);
    }
  }

  lemma AddedNothing(m: Maps, tr: Xlate, at: set<nat>)
    ensures Added(m, m, tr, at)
  {
  }

  lemma AddedKeys(m: Maps, m': Maps, tr: Xlate, at: set<nat>)
    requires Added(m, m', tr, at)
    ensures Added(m, m', tr, m'.vsbs.Keys)
  {
  }

  lemma {:induction false} FetchLoopAdds(f: Fetch, env: Env, tr: Xlate)
    requires FetchOk(f)
    ensures Added(f.m, FetchLoop(f, env, tr).m, tr, FetchLoop(f, env, tr).m.vsbs.Keys)
    decreases 3 - |f.complete|
  {
    hide ScanExits, FetchOk, Added;
    var r := FetchLoop(f, env, tr);
    if f.queue == [] {
      AddedNothing(f.m, tr, r.m.vsbs.Keys);
    } else {
      var addrs := env.exits(f.queue[0]);
      ScanExitsAdd(f, addrs, env, tr);
      var h := Finish(ScanExits(f, addrs, env, tr));
      if |h.complete| + |h.work| <= 2 {
        FetchLoopAdds(h, env, tr);
        AddedTrans(f.m, h.m, r.m, tr, Members(addrs), r.m.vsbs.Keys);
        AddedKeys(f.m, r.m, tr, Members(addrs) + r.m.vsbs.Keys);
      } else {
        AddedKeys(f.m, r.m, tr, Members(addrs));
      }
    }
  }

  /** Compiling ahead included, every superblock then cached was cached before or is a fresh translation. */
  lemma GetFPtrAdds(m: Maps, env: Env, p: nat, tr: Xlate, ahead: bool)
    ensures
      var m' := GetFPtr(m, env, p, tr, ahead).0;
      Added(m, m', tr, m'.vsbs.Keys)
  {
    hide GetFunc, FetchLoop, WithJits, Added;
    var m' := GetFPtr(m, env, p, tr, ahead).0;
    if p in m.jits {
      PresentIs(m, env, p, tr, ahead);
      AddedNothing(m, tr, m'.vsbs.Keys);
    } else {
      GetFuncAdds(m, env, p, tr);
      FPtrParts(m, env, p, tr, ahead);
      var (m1, f) := GetFunc(m, env, p, tr);
      if f.None? {
        AddedKeys(m, m', tr, {p});
      } else {
        var start := Fetch(m1, map[], {f.value}, {}, [f.value]);
        StartOk(m1, f.value);
        FetchLoopAdds(start, env, tr);
        AddedNothing(m1, tr, m1.vsbs.Keys);
        var r := if ahead then FetchLoop(start, env, tr) else start;
        AddedTrans(m, m1, r.m, tr, {p}, r.m.vsbs.Keys);
        AddedKeys(m, r.m, tr, {p} + r.m.vsbs.Keys);
        JitsSize(r, p, f.value);
        SameAdded(m, r.m, m', tr);
      }
    }
  }

  lemma PresentIs(m: Maps, env: Env, p: nat, tr: Xlate, ahead: bool)
    requires p in m.jits
    ensures GetFPtr(m, env, p, tr, ahead).0 == m
  {
  }

  lemma SameAdded(m: Maps, m1: Maps, m2: Maps, tr: Xlate)
    requires m2.vsbs == m1.vsbs && Added(m, m1, tr, m1.vsbs.Keys)
    ensures Added(m, m2, tr, m2.vsbs.Keys)
  {
  }

  // ---- which addresses compiling ahead looks at: two rounds of constant exits

  /** f is the function at b: of the superblock cached there, or of its fresh translation. */
  predicate SourceAt(m: Maps, tr: Xlate, b: nat, f: Fn) {
    (b in m.vsbs && f == Fn(m.vsbs[b])) || tr(b) == Some(f.src)
  }

  /** The constant exits of f, and those of the functions there. */
  function AheadAddrs(m: Maps, env: Env, tr: Xlate, f: Fn): set<nat> {
    Members(env.exits(f))
    + (set b, x | b in env.exits(f) && b in m.vsbs && x in env.exits(Fn(m.vsbs[b])) :: x)
    + (set b, x | b in env.exits(f) && tr(b).Some? && x in env.exits(Fn(tr(b).value)) :: x)
  }

  lemma SecondRound(m: Maps, env: Env, tr: Xlate, f: Fn, b: nat, g: Fn)
    requires b in env.exits(f) && SourceAt(m, tr, b, g)
    ensures Members(env.exits(g)) <= AheadAddrs(m, env, tr, f)
  {
  }

  /** Functions queued are those queued before, or the functions at addresses scanned. */
  ghost predicate Queued(m: Maps, tr: Xlate, q: seq<Fn>, q': seq<Fn>, addrs: set<nat>) {
    forall f :: f in q' ==> f in q || exists b :: b in addrs && SourceAt(m, tr, b, f)
  }

  lemma SourceBack(m: Maps, m': Maps, tr: Xlate, at: set<nat>, b: nat, f: Fn)
    requires Added(m, m', tr, at) && SourceAt(m', tr, b, f)
    ensures SourceAt(m, tr, b, f)
  {
  }

  lemma {:induction false} ScanExitsQueue(m: Maps, f: Fetch, addrs: seq<nat>, env: Env, tr: Xlate, at: set<nat>)
    requires GoodEnv(env) && GoodXlate(tr) && Agreed(f.m) && Bounded(f.m, env) && Added(m, f.m, tr, at)
    ensures Queued(m, tr, f.queue, ScanExits(f, addrs, env, tr).queue, Members(addrs))
    decreases |addrs|
  {
    hide GoodEnv, GoodXlate, Agreed, GetFunc, Added, SourceAt;
    if addrs != [] {
      var g, r := ScanExit(f, addrs[0], env, tr), ScanExits(f, addrs, env, tr);
      ScanExitKeeps(f, addrs[0], env, tr);
      ScanExitQueue(m, f, addrs[0], env, tr, at);
      GetFuncAdds(f.m, env, addrs[0], tr);
      AddedNothing(f.m, tr, {addrs[0]});
      AddedTrans(m, f.m, g.m, tr, at, {addrs[0]});
      ScanExitsQueue(m, g, addrs[1..], env, tr, at + {addrs[0]});
      assert addrs[0] in Members(addrs) && Members(addrs[1..]) <= Members(addrs);
    }
  }

  lemma ScanExitQueue(m: Maps, f: Fetch, a: nat, env: Env, tr: Xlate, at: set<nat>)
    requires GoodEnv(env) && GoodXlate(tr) && Agreed(f.m) && Bounded(f.m, env) && Added(m, f.m, tr, at)
    ensures forall x :: x in ScanExit(f, a, env, tr).queue ==> x in f.queue || SourceAt(m, tr, a, x)
  {
    hide GoodEnv, GoodXlate, Agreed, GetFunc, Added;
    if a !in f.m.jits {
      GetFuncKeeps(f.m, env, a, tr);
      var nf := GetFunc(f.m, env, a, tr).1;
      if nf.Some? {
        assert SourceAt(f.m, tr, a, nf.value);
        SourceBack(m, f.m, tr, at, a, nf.value);
      }
    }
  }

  /** Everything compiled ahead of f is at one of those addresses. */
  lemma FetchLoopReach(m: Maps, f: Fn, env: Env, tr: Xlate)
    requires GoodEnv(env) && GoodXlate(tr) && Agreed(m) && Bounded(m, env)
    ensures
      (StartOk(m, f);
       Added(m, FetchLoop(Fetch(m, map[], {f}, {}, [f]), env, tr).m, tr, AheadAddrs(m, env, tr, f)))
  {
    hide GoodEnv, GoodXlate, Agreed, Bounded, ScanExits, Added, FetchOk, AheadAddrs, Grew;
    var s, at := Fetch(m, map[], {f}, {}, [f]), AheadAddrs(m, env, tr, f);
    StartOk(m, f);
    var g := ScanExits(s, env.exits(f), env, tr);
    AddedNothing(m, tr, {});
    ScanExitsAdd(s, env.exits(f), env, tr);
    ScanExitsKeep(s, env.exits(f), env, tr);
    ScanExitsQueue(m, s, env.exits(f), env, tr, {});
    FirstRound(m, env, tr, f);
    AddedMore(m, g.m, tr, Members(env.exits(f)), at);
    var h := Finish(g);
    QueueRest(g);
    if |h.complete| + |h.work| <= 2 && h.queue != [] {
      var f1 := h.queue[0];
      assert f1 in g.queue && f1 != f;
      var b :| b in Members(env.exits(f)) && SourceAt(m, tr, b, f1);
      SecondRound(m, env, tr, f, b, f1);
      var g2 := ScanExits(h, env.exits(f1), env, tr);
      ScanExitsAdd(h, env.exits(f1), env, tr);
      AddedMore(h.m, g2.m, tr, Members(env.exits(f1)), at);
      AddedTrans(m, h.m, g2.m, tr, at, at);
      assert at + at == at;
      LastRound(Finish(g2), env, tr);
    }
  }

  lemma FirstRound(m: Maps, env: Env, tr: Xlate, f: Fn)
    ensures Members(env.exits(f)) <= AheadAddrs(m, env, tr, f)
  {
  }

  lemma AddedMore(m: Maps, m': Maps, tr: Xlate, a: set<nat>, b: set<nat>)
    requires Added(m, m', tr, a) && a <= b
    ensures Added(m, m', tr, b)
  {
  }

  lemma QueueRest(g: Fetch)
    requires FetchOk(g) && g.queue != []
    ensures forall x :: x in Finish(g).queue ==> x in g.queue && x != g.queue[0]
  {
  }

  lemma QueueEmpty(f: Fetch)
    requires FetchOk(f)
    ensures f.queue == [] || f.work != {}
  {
    if f.queue != [] {
      assert f.queue[0] in f.work;
    }
  }

  /** Two functions complete and none waiting is the end. */
  lemma LastRound(h: Fetch, env: Env, tr: Xlate)
    requires FetchOk(h) && |h.complete| == 2
    ensures |h.complete| + |h.work| <= 2 ==> FetchLoop(h, env, tr) == h
  {
    QueueEmpty(h);
  }

  /** Compiling a cached superblock ahead adds superblocks at those addresses only. */
  lemma GetFPtrReach(m: Maps, env: Env, p: nat, tr: Xlate)
    requires GoodEnv(env) && GoodXlate(tr) && Agreed(m) && Bounded(m, env) && p in m.vsbs
    ensures Added(m, GetFPtr(m, env, p, tr, true).0, tr, AheadAddrs(m, env, tr, Fn(m.vsbs[p])))
  {
    hide GoodEnv, GoodXlate, Agreed, FetchLoop, WithJits, Added, AheadAddrs, GetFPtr, GetFunc, Bounded;
    var at := AheadAddrs(m, env, tr, Fn(m.vsbs[p]));
    if p in m.jits {
      PresentIs(m, env, p, tr, true);
      AddedNothing(m, tr, at);
    } else {
      GetFuncKeeps(m, env, p, tr);
      CachedFunc(m, env, p, tr);
      FPtrParts(m, env, p, tr, true);
      var (m1, f) := GetFunc(m, env, p, tr);
      GrewParts(m, m1, env);
      SameAhead(m, m1, env, tr, f.value);
      StartOk(m1, f.value);
      FetchLoopReach(m1, f.value, env, tr);
      var r := FetchLoop(Fetch(m1, map[], {f.value}, {}, [f.value]), env, tr);
      JitsSize(r, p, f.value);
      AddedVsbs(m1, r.m, m, GetFPtr(m, env, p, tr, true).0, tr, at);
    }
  }

  lemma CachedFunc(m: Maps, env: Env, p: nat, tr: Xlate)
    requires Agreed(m) && p in m.vsbs
    ensures GetFunc(m, env, p, tr).0.vsbs == m.vsbs && GetFunc(m, env, p, tr).1 == Some(Fn(m.vsbs[p]))
  {
  }

  lemma SameAhead(m: Maps, m1: Maps, env: Env, tr: Xlate, f: Fn)
    requires m1.vsbs == m.vsbs
    ensures AheadAddrs(m1, env, tr, f) == AheadAddrs(m, env, tr, f)
  {
  }

  lemma AddedVsbs(m: Maps, m': Maps, n: Maps, n': Maps, tr: Xlate, at: set<nat>)
    requires Added(m, m', tr, at) && n.vsbs == m.vsbs && n'.vsbs == m'.vsbs
    ensures Added(n, n', tr, at)
  {
  }

  /**
   Getting compiled code keeps the maps in agreement: always when nothing is compiled ahead,
   and also then when the cache is not full afterwards. Nothing known is lost in that case.
   */
  lemma GetFPtrKeeps(m: Maps, env: Env, p: nat, tr: Xlate, ahead: bool)
    requires GoodEnv(env) && GoodXlate(tr) && Agreed(m) && Bounded(m, env)
    ensures
      var (m', r) := GetFPtr(m, env, p, tr, ahead);
      && |m.vsbs| <= |m'.vsbs| <= env.max
      && (!ahead || |m'.vsbs| < env.max ==> Agreed(m'))
      && (|m'.vsbs| < env.max ==> Kept(m, m'))
      && r == (if p in m.vsbs then Some(Ptr(Fn(m.vsbs[p])))
               else if tr(p).Some? then Some(Ptr(Fn(tr(p).value))) else None)
      && (r.Some? ==> p in m'.jits && m'.jits[p] == r.value)
  {
    hide *;
    if p in m.jits {
      Known(m, env, p, tr, ahead);
    } else {
      GetFuncKeeps(m, env, p, tr);
      FPtrParts(m, env, p, tr, ahead);
      var (m1, f) := GetFunc(m, env, p, tr);
      GrewParts(m, m1, env);
      if f.Some? {
        var start := Fetch(m1, map[], {f.value}, {}, [f.value]);
        StartOk(m1, f.value);
        FetchLoopKeeps(start, env, tr);
        var r := if ahead then FetchLoop(start, env, tr) else start;
        if ahead {
          FetchParts(start, r, env);
        }
        KeptRefl(m1);
        JitsSize(r, p, f.value);
        if !ahead || |r.m.vsbs| < env.max {
          KeptFunc(m1, r.m, p);
          JitsMatch(r, p, f.value);
          if |r.m.vsbs| < env.max {
            KeptTrans(m, m1, r.m);
            KeptTrans(m, r.m, WithJits(r, p, f.value));
          }
        }
      }
    }
  }

  /** The maps once the functions to compile, and f at p, are compiled. */
  function WithJits(r: Fetch, p: nat, f: Fn): Maps {
    r.m.(jits := (r.m.jits + Compiled(r.names))[p := Ptr(f)])
  }

  lemma Known(m: Maps, env: Env, p: nat, tr: Xlate, ahead: bool)
    requires Agreed(m) && Bounded(m, env) && p in m.jits
    ensures GetFPtr(m, env, p, tr, ahead) == (m, Some(m.jits[p]))
    ensures Kept(m, m) && |m.vsbs| <= env.max && p in m.vsbs && m.jits[p] == Ptr(Fn(m.vsbs[p]))
  {
  }

  lemma FPtrParts(m: Maps, env: Env, p: nat, tr: Xlate, ahead: bool)
    requires p !in m.jits
    ensures
      var (m1, f) := GetFunc(m, env, p, tr);
      && (f.None? ==> GetFPtr(m, env, p, tr, ahead) == (m1, None))
      && (f.Some? ==>
            var start := Fetch(m1, map[], {f.value}, {}, [f.value]);
            StartOk(m1, f.value);
            var r := if ahead then FetchLoop(start, env, tr) else start;
            GetFPtr(m, env, p, tr, ahead) == (WithJits(r, p, f.value), Some(Ptr(f.value))))
  {
    hide GetFunc, FetchLoop, Compiled;
  }

  lemma StartOk(m: Maps, f: Fn)
    ensures var s := Fetch(m, map[], {f}, {}, [f]); FetchOk(s) && NamesKnown(s) && s.m == m
  {
  }

  lemma GrewParts(m: Maps, m': Maps, env: Env)
    requires Grew(m, m', env)
    ensures |m.vsbs| <= |m'.vsbs| <= env.max && Bounded(m', env) && (|m'.vsbs| < env.max ==> Kept(m, m'))
  {
  }

  lemma FetchParts(f: Fetch, r: Fetch, env: Env)
    requires FetchKept(f, r, env) && NamesKnown(f)
    ensures Agreed(r.m) && |f.m.vsbs| <= |r.m.vsbs| <= env.max
    ensures |r.m.vsbs| < env.max ==> NamesKnown(r) && Kept(f.m, r.m)
  {
  }

  lemma KeptRefl(m: Maps)
    ensures Kept(m, m)
  {
  }

  lemma KeptTrans(a: Maps, b: Maps, c: Maps)
    requires Kept(a, b) && Kept(b, c)
    ensures Kept(a, c)
  {
  }

  lemma KeptFunc(a: Maps, b: Maps, p: nat)
    requires Kept(a, b) && p in a.funcs
    ensures p in b.funcs && b.funcs[p] == a.funcs[p]
  {
  }

  lemma JitsSize(r: Fetch, p: nat, f: Fn)
    ensures WithJits(r, p, f).vsbs == r.m.vsbs && p in WithJits(r, p, f).jits && WithJits(r, p, f).jits[p] == Ptr(f)
  {
  }

  lemma JitsMatch(r: Fetch, p: nat, f: Fn)
    requires Agreed(r.m) && NamesKnown(r) && p in r.m.funcs && r.m.funcs[p] == f
    ensures Agreed(WithJits(r, p, f)) && Kept(r.m, WithJits(r, p, f))
  {
  }

  // ---- flushing

  /** After a flush nothing in the range can be looked up, and everything else is as before. */
  lemma FlushRangeKeeps(m: Maps, begin: nat, end: nat)
    requires Agreed(m)
    ensures
      var m' := FlushRange(m, begin, end);
      && Agreed(m') && |m'.vsbs| <= |m.vsbs|
      && (forall k: nat :: begin <= k <= end ==> k !in m'.vsbs && k !in m'.funcs && k !in m'.jits)
      && (forall k: nat :: !(begin <= k <= end) ==>
            Find(m'.vsbs, k) == Find(m.vsbs, k) && Find(m'.funcs, k) == Find(m.funcs, k) && Find(m'.jits, k) == Find(m.jits, k))
  {
    hide Matched;
    var m' := FlushRange(m, begin, end);
    KeysSize(m.vsbs, m'.vsbs);
    assert Matched(m') by { FlushMatched(m, begin, end); }
  }

  lemma FlushMatched(m: Maps, begin: nat, end: nat)
    requires Matched(m)
    ensures Matched(FlushRange(m, begin, end))
  {
  }

  lemma KeysSize<T>(m: map<nat, T>, m': map<nat, T>)
    requires m'.Keys <= m.Keys
    ensures |m'| <= |m|
  {
    SubsetSize(m'.Keys, m.Keys);
    assert |m| == |m.Keys| && |m'| == |m'.Keys|;
  }

  lemma SubsetSize(a: set<nat>, b: set<nat>)
    requires a <= b
    ensures |a| <= |b|
  {
    assert b == a + (b - a);
  }

  /** Compiled code in the range is gone exactly when it all belonged to known functions. */
  lemma FlushRangeExact(m: Maps, begin: nat, end: nat)
    ensures (forall k: nat :: begin <= k <= end ==> k !in FlushRange(m, begin, end).jits) <==>
            (forall k: nat :: begin <= k <= end && k in m.jits ==> k in m.funcs)
  {
    forall k: nat | begin <= k <= end
      ensures k !in FlushRange(m, begin, end).jits <==> (k in m.jits ==> k in m.funcs)
    {
    }
  }

  lemma NothingAgrees()
    ensures Agreed(NoCode) && |NoCode.vsbs| == 0
  {
  }

  // ---- compiling ahead into a full cache

  /** One superblock at most; the function at 4 may leave for 8. */
  function OneEntry(): Env {
    Env(1, (s: set<nat>) => if 4 in s then 4 else 8, (f: Fn) => if f.src.addr == 4 then [8] else [])
  }

  function Trivial(): Xlate {
    (a: nat) => Some(Code(a, []))
  }

  /**
   With a full cache, compiling ahead can evict the very superblock that was asked for. Its
   compiled code is then known without its function, and a flush of its address misses it.
   */
  lemma AheadLeaks()
    ensures
      var m := GetFPtr(NoCode, OneEntry(), 4, Trivial(), true).0;
      && !Nested(m) && |m.vsbs| == OneEntry().max
      && 4 in FlushRange(m, 4, 4).jits
  {
    hide GetFunc, FetchLoop, GetFPtr, Compiled;
    var env, tr, f4 := OneEntry(), Trivial(), Fn(Code(4, []));
    var m1 := OneOf(4);
    LeakSteps();
    LeakLoop();
    var m := GetFPtr(NoCode, env, 4, tr, true).0;
    assert m == WithJits(LeakEnd(), 4, f4) by {
      FPtrParts(NoCode, env, 4, tr, true);
    }
    assert 4 in m.jits && 4 !in m.funcs;
    assert |m.vsbs| == 1 by {
      assert m.vsbs == map[8 := Code(8, [])];
      assert |m.vsbs| == |m.vsbs.Keys| && m.vsbs.Keys == {8};
    }
  }

  /** The maps that know just the superblock and the function at a. */
  function OneOf(a: nat): Maps {
    Maps(map[a := Code(a, [])], map[a := Fn(Code(a, []))], map[])
  }

  lemma LeakSteps()
    ensures GetFunc(NoCode, OneEntry(), 4, Trivial()) == (OneOf(4), Some(Fn(Code(4, []))))
    ensures GetFunc(OneOf(4), OneEntry(), 8, Trivial()) == (OneOf(8), Some(Fn(Code(8, []))))
  {
    var env, tr := OneEntry(), Trivial();
    assert GetVsb(NoCode, env, 4, tr) == (Maps(map[4 := Code(4, [])], map[], map[]), Some(Code(4, [])));
    var m := OneOf(4);
    assert |m.vsbs| == |m.vsbs.Keys| && m.vsbs.Keys == {4};
    assert Victim(m, env) == 4;
    assert Evict(m, 4) == NoCode;
    assert GetVsb(m, env, 8, tr) == (Maps(map[8 := Code(8, [])], map[], map[]), Some(Code(8, [])));
  }

  function LeakEnd(): Fetch {
    Fetch(OneOf(8), map[8 := Fn(Code(8, []))], {}, {Fn(Code(4, [])), Fn(Code(8, []))}, [])
  }

  lemma LeakLoop()
    ensures
      var f4 := Fn(Code(4, []));
      var start := Fetch(OneOf(4), map[], {f4}, {}, [f4]);
      FetchOk(start) && FetchLoop(start, OneEntry(), Trivial()) == LeakEnd()
  {
    hide GetFunc;
    var env, tr := OneEntry(), Trivial();
    var f4, f8 := Fn(Code(4, [])), Fn(Code(8, []));
    LeakSteps();
    StartOk(OneOf(4), f4);
    var s0 := Fetch(OneOf(4), map[], {f4}, {}, [f4]);
    var s1 := Fetch(OneOf(8), map[8 := f8], {f4, f8}, {}, [f4, f8]);
    var s2 := Fetch(OneOf(8), map[8 := f8], {f8}, {f4}, [f8]);
    assert env.exits(f4) == [8] && env.exits(f8) == [];
    assert ScanExit(s0, 8, env, tr) == s1;
    assert ScanExits(s0, [8], env, tr) == s1 by {
      assert [8][1..] == [];
    }
    LeakFinish(s1, s2, f4, f8);
    assert ScanExits(s2, [], env, tr) == s2;
    hide ScanExits, Finish;
    assert FetchLoop(s2, env, tr) == LeakEnd();
    assert |s2.complete| + |s2.work| == 2;
  }

  lemma LeakFinish(s1: Fetch, s2: Fetch, f4: Fn, f8: Fn)
    requires f4 != f8 && s1.queue == [f4, f8] && s1.work == {f4, f8} && s1.complete == {}
    requires s2 == s1.(work := {f8}, complete := {f4}, queue := [f8])
    ensures Finish(s1) == s2 && FetchOk(s2)
    ensures Finish(s2) == s1.(work := {}, complete := {f4, f8}, queue := [])
    ensures FetchOk(Finish(s2)) && |{f4, f8}| == 2
  {
    assert {f4, f8} - {f4} == {f8};
    assert {f4} + {f8} == {f4, f8};
  }
}
