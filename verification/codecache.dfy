/**
 The cache stack as the program runs it: three maps, each with a direct-mapped cache in front.
 The direct caches never show: every method is specified on the maps alone.
 */
module CodeCaches {
  import opened Options
  import opened DirectMapped
  import opened CodeMaps
  import opened CacheRuns

  class CodeCache {
    const pick: set<nat> -> nat
    const exits: Fn -> seq<nat>
    var maxEnts: nat
    var vsbCache: map<nat, Code>
    var funcCache: map<nat, Fn>
    var jitCache: map<nat, Ptr>
    const vsbDc: DirectCache<Code>
    const funcDc: DirectCache<Fn>
    const jitDc: DirectCache<Ptr>

    ghost function Repr(): set<object> {
      {this, vsbDc.ents, funcDc.ents, jitDc.ents}
    }

    ghost predicate Valid()
      reads Repr()
    {
      && Apart()
      && Agrees(vsbDc.ents[..], vsbCache) && Agrees(funcDc.ents[..], funcCache) && Agrees(jitDc.ents[..], jitCache)
    }

    ghost predicate Apart() {
      && (vsbDc.ents as object) != (funcDc.ents as object)
      && (vsbDc.ents as object) != (jitDc.ents as object)
      && (funcDc.ents as object) != (jitDc.ents as object)
      && vsbDc.ents.Length == funcDc.ents.Length == jitDc.ents.Length == SLOTS
    }

    ghost function State(): Maps
      reads this
    {
      Maps(vsbCache, funcCache, jitCache)
    }

    ghost function Surroundings(): Env
      reads this
    {
      Env(maxEnts, pick, exits)
    }

    constructor (pick: set<nat> -> nat, exits: Fn -> seq<nat>)
      ensures Valid() && fresh(Repr()) && State() == NoCode
      ensures Surroundings() == Env(0xFFFF_FFFF, pick, exits)
    {
      this.pick, this.exits := pick, exits;
      maxEnts := 0xFFFF_FFFF;
      vsbCache, funcCache, jitCache := map[], map[], map[];
      vsbDc := new DirectCache<Code>();
      funcDc := new DirectCache<Fn>();
      jitDc := new DirectCache<Ptr>();
    }

    method GetCachedVSB(p: nat) returns (r: Option<Code>)
      requires Valid()
      modifies Repr()
      ensures Valid() && State() == old(State()) && Surroundings() == old(Surroundings())
      ensures r == Find(vsbCache, p)
    {
      r := vsbDc.Get(p);
      if r.None? && p in vsbCache {
        r := Some(vsbCache[p]);
        vsbDc.Put(p, r);
      }
    }

    method GetCachedFunc(p: nat) returns (r: Option<Fn>)
      requires Valid()
      modifies Repr()
      ensures Valid() && State() == old(State()) && Surroundings() == old(Surroundings())
      ensures r == Find(funcCache, p)
    {
      r := funcDc.Get(p);
      if r.None? && p in funcCache {
        r := Some(funcCache[p]);
        funcDc.Put(p, r);
      }
    }

    method GetCachedFPtr(p: nat) returns (r: Option<Ptr>)
      requires Valid()
      modifies Repr()
      ensures Valid() && State() == old(State()) && Surroundings() == old(Surroundings())
      ensures r == Find(jitCache, p)
    {
      r := jitDc.Get(p);
      if r.None? && p in jitCache {
        r := Some(jitCache[p]);
        jitDc.Put(p, r);
      }
    }

    /** Removes the function and the superblock at p, where there are any. */
    method EvictBase(p: nat)
      requires Valid()
      modifies Repr()
      ensures Valid() && Surroundings() == old(Surroundings())
      ensures State() == old(State()).(vsbs := old(vsbCache) - {p}, funcs := old(funcCache) - {p})
    {
      hide Agrees;
      var f := GetCachedFunc(p);
      if f.Some? {
        DropAgrees(funcDc.ents[..], funcCache, p);
        funcCache := funcCache - {p};
        funcDc.Put(p, None);
      } else {
        assert funcCache - {p} == funcCache;
      }
      var v := GetCachedVSB(p);
      if v.Some? {
        DropAgrees(vsbDc.ents[..], vsbCache, p);
        vsbDc.Put(p, None);
        vsbCache := vsbCache - {p};
      } else {
        assert vsbCache - {p} == vsbCache;
      }
    }

    method Evict(p: nat)
      requires Valid()
      modifies Repr()
      ensures Valid() && State() == CodeMaps.Evict(old(State()), p) && Surroundings() == old(Surroundings())
    {
      hide Agrees;
      DropAgrees(jitDc.ents[..], jitCache, p);
      jitCache := jitCache - {p};
      jitDc.Put(p, None);
      EvictBase(p);
    }

    method FlushAll()
      requires Valid()
      modifies Repr()
      ensures Valid() && State() == NoCode && Surroundings() == old(Surroundings())
    {
      jitCache := map[];
      jitDc.Flush();
      vsbCache := map[];
      vsbDc.Flush();
      funcCache := map[];
      funcDc.Flush();
    }

    method SetMaxCache(x: nat)
      requires Valid()
      modifies Repr()
      ensures Valid() && Cache(State(), Surroundings()) == Do(old(Cache(State(), Surroundings())), OpSetMax(x))
    {
      if x < maxEnts {
        FlushAll();
      }
      maxEnts := x;
    }

    /** Everything in [begin, end] goes, compiled code by the addresses of the functions. */
    method FlushRange(begin: nat, end: nat)
      requires Valid()
      modifies Repr()
      ensures Valid() && State() == CodeMaps.FlushRange(old(State()), begin, end)
      ensures Surroundings() == old(Surroundings())
    {
      FlushJits(begin, end);
      FlushBase(begin, end);
    }

    method FlushJits(begin: nat, end: nat)
      requires Valid()
      modifies Repr()
      ensures Valid() && Surroundings() == old(Surroundings())
      ensures State() == old(State()).(jits := CodeMaps.FlushRange(old(State()), begin, end).jits)
    {
      hide Agrees;
      ghost var jits := jitCache;
      var todo := set k | k in funcCache && begin <= k <= end;
      ghost var all := todo;
      while todo != {}
        invariant todo <= all && Valid() && Surroundings() == old(Surroundings())
        invariant vsbCache == old(vsbCache) && funcCache == old(funcCache) && jitCache == jits - (all - todo)
      {
        var k :| k in todo;
        DropAgrees(jitDc.ents[..], jitCache, k);
        jitCache := jitCache - {k};
        jitDc.Put(k, None);
        todo := todo - {k};
      }
    }

    method FlushBase(begin: nat, end: nat)
      requires Valid()
      modifies Repr()
      ensures Valid() && Surroundings() == old(Surroundings())
      ensures State() == Maps(Outside(old(vsbCache), begin, end), Outside(old(funcCache), begin, end), old(jitCache))
    {
      hide Agrees;
      FlushVsbs(begin, end);
      FlushFuncs(begin, end);
    }

    method FlushVsbs(begin: nat, end: nat)
      requires Valid()
      modifies Repr()
      ensures Valid() && Surroundings() == old(Surroundings())
      ensures State() == old(State()).(vsbs := Outside(old(vsbCache), begin, end))
    {
      hide Agrees;
      var todo := set k | k in vsbCache && begin <= k <= end;
      ghost var all := todo;
      while todo != {}
        invariant todo <= all && Valid() && Surroundings() == old(Surroundings())
        invariant jitCache == old(jitCache) && funcCache == old(funcCache) && vsbCache == old(vsbCache) - (all - todo)
      {
        var k :| k in todo;
        DropAgrees(vsbDc.ents[..], vsbCache, k);
        vsbDc.Put(k, None);
        vsbCache := vsbCache - {k};
        todo := todo - {k};
      }
    }

    method FlushFuncs(begin: nat, end: nat)
      requires Valid()
      modifies Repr()
      ensures Valid() && Surroundings() == old(Surroundings())
      ensures State() == old(State()).(funcs := Outside(old(funcCache), begin, end))
    {
      hide Agrees;
      var todo := set k | k in funcCache && begin <= k <= end;
      ghost var all := todo;
      while todo != {}
        invariant todo <= all && Valid() && Surroundings() == old(Surroundings())
        invariant jitCache == old(jitCache) && vsbCache == old(vsbCache) && funcCache == old(funcCache) - (all - todo)
      {
        var k :| k in todo;
        DropAgrees(funcDc.ents[..], funcCache, k);
        funcCache := funcCache - {k};
        funcDc.Put(k, None);
        todo := todo - {k};
      }
    }

    /** Ready for lookups that may have to evict. */
    ghost predicate Ready()
      reads Repr()
    {
      Valid() && Agreed(State()) && Bounded(State(), Surroundings()) && GoodEnv(Surroundings())
    }

    /** Eviction asserts that its victim is not at address zero. */
    ghost predicate VictimsNonZero()
      reads this
    {
      |vsbCache| == maxEnts ==> 0 !in vsbCache
    }

    method SelectVictimAddress() returns (p: nat)
      requires Ready() && vsbCache != map[] && 0 !in vsbCache
      ensures p == Victim(State(), Surroundings()) && p != 0 && p in vsbCache
    {
      var k := pick(vsbCache.Keys);
      p := vsbCache[k].addr;
    }

    method AllocCacheVSB(p: nat, code: Option<Code>) returns (r: Option<Code>)
      requires Ready() && VictimsNonZero() && p !in vsbCache && (code.Some? ==> code.value.addr == p)
      modifies Repr()
      ensures Valid() && Surroundings() == old(Surroundings())
      ensures (State(), r) == AllocVsb(old(State()), Surroundings(), p, code)
    {
      hide Agreed, CodeMaps.Evict;
      r := code;
      if code.Some? {
        if |vsbCache| == maxEnts {
          assert |vsbCache| == |vsbCache.Keys|;
          var v := SelectVictimAddress();
          EvictSmaller(State(), v);
          Evict(v);
        }
        assert |vsbCache| < maxEnts;
        vsbCache := vsbCache[p := code.value];
        vsbDc.Put(p, code);
      }
    }

    method GetVSB(p: nat, tr: Xlate) returns (r: Option<Code>)
      requires Ready() && VictimsNonZero() && GoodXlate(tr)
      modifies Repr()
      ensures Ready() && Surroundings() == old(Surroundings())
      ensures (State(), r) == GetVsb(old(State()), Surroundings(), p, tr)
    {
      hide Agreed, AllocVsb, GoodEnv, Agrees;
      GetVsbKeeps(State(), Surroundings(), p, tr);
      r := GetCachedVSB(p);
      if r.None? {
        r := AllocCacheVSB(p, tr(p));
      }
    }

    method GenFunctionByVSB(vsb: Code) returns (f: Fn)
      requires Valid()
      modifies Repr()
      ensures Valid() && f == Fn(vsb) && Surroundings() == old(Surroundings())
      ensures State() == old(State()).(funcs := old(funcCache)[vsb.addr := f])
    {
      f := Fn(vsb);
      funcCache := funcCache[vsb.addr := f];
      funcDc.Put(vsb.addr, Some(f));
    }

    method GetFunc(p: nat, tr: Xlate) returns (r: Option<Fn>)
      requires Ready() && VictimsNonZero() && GoodXlate(tr)
      modifies Repr()
      ensures Ready() && Surroundings() == old(Surroundings())
      ensures (State(), r) == CodeMaps.GetFunc(old(State()), Surroundings(), p, tr)
    {
      hide Agreed, GetVsb, GoodEnv, Agrees;
      GetFuncKeeps(State(), Surroundings(), p, tr);
      r := GetCachedFunc(p);
      if r.None? {
        var vsb := GetVSB(p, tr);
        if vsb.Some? {
          var f := GenFunctionByVSB(vsb.value);
          r := Some(f);
        }
      }
    }

    /** Functions at the constant exits of f, found in rounds; the names are those still to be compiled. */
    method FetchExits(f: Fn, tr: Xlate) returns (names: map<nat, Fn>)
      requires Ready() && GoodXlate(tr) && 0 !in vsbCache && tr(0).None?
      modifies Repr()
      ensures Ready() && Surroundings() == old(Surroundings()) && 0 !in vsbCache
      ensures
        var start := Fetch(old(State()), map[], {f}, {}, [f]);
        FetchOk(start) && FetchLoop(start, Surroundings(), tr).m == State() && FetchLoop(start, Surroundings(), tr).names == names
    {
      hide Agreed, GoodEnv, GoodXlate, Agrees, ScanExits, Finish, Bounded;
      ghost var env := Surroundings();
      ghost var start := Fetch(State(), map[], {f}, {}, [f]);
      var work, complete, queue := {f}, {}, [f];
      names := map[];
      ghost var over := false;
      StartOk(State(), f);
      while work != {}
        invariant Ready() && Surroundings() == env && 0 !in vsbCache && !over
        invariant FetchOk(Fetch(State(), names, work, complete, queue))
        invariant FetchLoop(Fetch(State(), names, work, complete, queue), env, tr) == FetchLoop(start, env, tr)
        decreases 3 - |complete|
      {
        QueueFront(Fetch(State(), names, work, complete, queue));
        var cur := queue[0];
        ghost var before := Fetch(State(), names, work, complete, queue);
        queue, work, names := ScanAll(exits(cur), queue, work, complete, names, tr);
        ghost var after := Fetch(State(), names, work, complete, queue);
        ghost var done := Finish(after);
        FinishIs(after);
        queue, work, complete := queue[1..], work - {cur}, complete + {cur};
        assert done == Fetch(State(), names, work, complete, queue);
        if |complete| + |work| > 2 {
          assert FetchLoop(before, env, tr) == done;
          over := true;
          break;
        }
      }
      if !over {
        QueueEmpty(Fetch(State(), names, work, complete, queue));
      }
    }

    /** One function's exits; functions not seen before join the queue and the work set. */
    method ScanAll(addrs: seq<nat>, queue0: seq<Fn>, work0: set<Fn>, complete: set<Fn>, names0: map<nat, Fn>, tr: Xlate)
      returns (queue: seq<Fn>, work: set<Fn>, names: map<nat, Fn>)
      requires Ready() && GoodXlate(tr) && 0 !in vsbCache && tr(0).None?
      modifies Repr()
      ensures Ready() && Surroundings() == old(Surroundings()) && 0 !in vsbCache
      ensures Fetch(State(), names, work, complete, queue) ==
              ScanExits(Fetch(old(State()), names0, work0, complete, queue0), addrs, Surroundings(), tr)
    {
      hide Agreed, GoodEnv, GoodXlate, Agrees, CodeMaps.GetFunc, Bounded;
      ghost var env := Surroundings();
      ghost var goal := ScanExits(Fetch(State(), names0, work0, complete, queue0), addrs, env, tr);
      queue, work, names := queue0, work0, names0;
      var i := 0;
      while i < |addrs|
        invariant 0 <= i <= |addrs| && Ready() && Surroundings() == env && 0 !in vsbCache
        invariant ScanExits(Fetch(State(), names, work, complete, queue), addrs[i..], env, tr) == goal
      {
        assert addrs[i..][0] == addrs[i] && addrs[i..][1..] == addrs[i + 1..];
        if addrs[i] !in jitCache {
          NoNull(State(), env, addrs[i], tr);
          var f := GetFunc(addrs[i], tr);
          if f.Some? && f.value !in work && f.value !in complete {
            names, work, queue := names[addrs[i] := f.value], work + {f.value}, queue + [f.value];
          }
        }
        i := i + 1;
      }
    }

    method AddCompiled(names: map<nat, Fn>)
      requires Valid() && names.Keys !! jitCache.Keys
      modifies this
      ensures Valid() && Surroundings() == old(Surroundings())
      ensures State() == old(State()).(jits := old(jitCache) + Compiled(names))
    {
      hide Agrees;
      var todo := names.Keys;
      assert names - todo == map[];
      while todo != {}
        invariant todo <= names.Keys && Valid() && Surroundings() == old(Surroundings())
        invariant vsbCache == old(vsbCache) && funcCache == old(funcCache)
        invariant jitCache == old(jitCache) + Compiled(names - todo)
      {
        var a :| a in todo;
        AddAgrees(jitDc.ents[..], jitCache, a, Ptr(names[a]));
        CompiledStep(names, todo, a);
        jitCache := jitCache[a := Ptr(names[a])];
        todo := todo - {a};
      }
    }

    /** Compiled code for p, and along with it for functions that p's function may go on to. */
    method GetFPtr(p: nat, tr: Xlate, ahead: bool) returns (r: Option<Ptr>)
      requires Ready() && GoodXlate(tr) && (p in vsbCache || tr(p).Some?)
      requires if ahead then 0 !in vsbCache && tr(0).None? else VictimsNonZero()
      modifies Repr()
      ensures Valid() && Surroundings() == old(Surroundings()) && r.Some?
      ensures (State(), r) == CodeMaps.GetFPtr(old(State()), Surroundings(), p, tr, ahead)
      ensures ahead ==> 0 !in vsbCache
    {
      hide Agreed, GoodEnv, GoodXlate, Agrees, CodeMaps.GetFunc, Bounded, FetchLoop, Compiled;
      ghost var env, m := Surroundings(), State();
      GetFPtrKeeps(m, env, p, tr, ahead);
      r := GetCachedFPtr(p);
      if r.None? {
        GetFuncKeeps(m, env, p, tr);
        var f := GetFunc(p, tr);
        FPtrParts(m, env, p, tr, ahead);
        StartOk(State(), f.value);
        var names := map[];
        if ahead {
          NoNull(m, env, p, tr);
          FetchLoopKeeps(Fetch(State(), map[], {f.value}, {}, [f.value]), env, tr);
          names := FetchExits(f.value, tr);
        }
        r := Some(Ptr(f.value));
        Compile(names, p, f.value);
      }
    }

    method Compile(names: map<nat, Fn>, p: nat, f: Fn)
      requires Valid() && names.Keys !! jitCache.Keys
      modifies Repr()
      ensures Valid() && Surroundings() == old(Surroundings())
      ensures State() == old(State()).(jits := (old(jitCache) + Compiled(names))[p := Ptr(f)])
    {
      hide Agrees, Compiled;
      AddCompiled(names);
      PutAgrees(jitDc.ents[..], jitCache, p, Ptr(f));
      jitCache := jitCache[p := Ptr(f)];
      jitDc.Put(p, Some(Ptr(f)));
    }
  }

  /** What is asked for is not at address zero if nothing is translated there. */
  lemma NoNull(m: Maps, env: Env, p: nat, tr: Xlate)
    requires 0 !in m.vsbs && tr(0).None?
    ensures 0 !in CodeMaps.GetFunc(m, env, p, tr).0.vsbs
  {
    hide GetVsb;
    NoNullVsb(m, env, p, tr);
    var (m1, c) := GetVsb(m, env, p, tr);
    if p !in m.funcs && c.Some? {
      assert CodeMaps.GetFunc(m, env, p, tr).0.vsbs == m1.vsbs;
    }
  }

  lemma NoNullVsb(m: Maps, env: Env, p: nat, tr: Xlate)
    requires 0 !in m.vsbs && tr(0).None?
    ensures 0 !in GetVsb(m, env, p, tr).0.vsbs
  {
    if p == 0 {
      assert tr(p).None?;
    } else if p !in m.vsbs && tr(p).Some? {
      var m1 := if |m.vsbs| == env.max then CodeMaps.Evict(m, Victim(m, env)) else m;
      assert GetVsb(m, env, p, tr).0.vsbs == m1.vsbs[p := tr(p).value];
    }
  }

  lemma CompiledStep(names: map<nat, Fn>, todo: set<nat>, a: nat)
    requires a in todo && todo <= names.Keys
    ensures Compiled(names - (todo - {a})) == Compiled(names - todo)[a := Ptr(names[a])]
  {
  }

  lemma QueueFront(f: Fetch)
    requires FetchOk(f) && f.work != {}
    ensures f.queue != [] && f.queue[0] in f.work && f.queue[0] !in f.complete
  {
    var x :| x in f.work;
    assert x in f.queue;
  }

  lemma FinishIs(f: Fetch)
    requires f.queue != []
    ensures Finish(f) == Fetch(f.m, f.names, f.work - {f.queue[0]}, f.complete + {f.queue[0]}, f.queue[1..])
  {
  }

  lemma EvictSmaller(m: Maps, p: nat)
    requires p in m.vsbs
    ensures |CodeMaps.Evict(m, p).vsbs| == |m.vsbs| - 1
  {
    MapRemoveSize(m.vsbs, p);
  }
}