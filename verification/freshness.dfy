/**
 What is cached from a mapping is up to date under write protection, or about to be flushed;
 a lookup after the flush then gives the translation of the bytes now in memory.
 */
module Freshness {
  import opened Options
  import opened Bits
  import opened CodeMaps
  import opened ExecModel

  /** Mappings are disjoint and stay clear of both ends of the address space by a flush margin. */
  predicate MapsOk(maps: seq<Mapping>) {
    && (forall i :: 0 <= i < |maps| ==> maps[i].off >= MAX_CODE_BYTES && maps[i].End() + MAX_CODE_BYTES < TWO64)
    && (forall i, j :: 0 <= i < j < |maps| ==> maps[i].End() <= maps[j].off || maps[j].End() <= maps[i].off)
  }

  /** The handler has asked for mapping i to be flushed. */
  predicate Pending(s: Exec, i: nat)
    requires i < |s.maps|
  {
    s.toFlush == (s.maps[i].off, s.maps[i].End())
  }

  /** The superblock cached at k lies in k's mapping, and it is up to date under write protection or about to be flushed. */
  ghost predicate Safe(s: Exec, d: Decoder, k: nat)
    requires k in s.code.vsbs
  {
    var at := LookupMapping(s.maps, k);
    at.Some? ==>
      && k + |s.code.vsbs[k].bytes| < s.maps[at.value].End()
      && (Pending(s, at.value) || (!s.maps[at.value].cur.w && d(s.mem, k) == Some(s.code.vsbs[k])))
  }

  ghost predicate Fresh(s: Exec, d: Decoder) {
    MapsOk(s.maps) && forall k :: k in s.code.vsbs ==> Safe(s, d, k)
  }

  /** Protections do not matter for which mapping holds an address. */
  lemma {:induction false} LookupCur(maps: seq<Mapping>, i: nat, p: Prot, a: nat)
    requires i < |maps|
    ensures LookupMapping(maps[i := maps[i].(cur := p)], a) == LookupMapping(maps, a)
  {
    var maps' := maps[i := maps[i].(cur := p)];
    var n := |maps| - 1;
    if i < n {
      assert maps'[..n] == maps[..n][i := maps[..n][i].(cur := p)];
      LookupCur(maps[..n], i, p, a);
    } else {
      assert maps'[..n] == maps[..n];
    }
  }

  lemma MapsOkCur(maps: seq<Mapping>, i: nat, p: Prot)
    requires MapsOk(maps) && i < |maps|
    ensures MapsOk(maps[i := maps[i].(cur := p)])
  {
    var maps' := maps[i := maps[i].(cur := p)];
    assert forall j :: 0 <= j < |maps| ==> maps'[j].off == maps[j].off && maps'[j].End() == maps[j].End();
  }

  /** A store elsewhere leaves the text of a superblock alone, and so its translation. */
  lemma TextKept(d: Decoder, mem: Mem, a: nat, v: byte, k: nat, c: Code)
    requires GoodDecoder(d) && d(mem, k) == Some(c) && !(k <= a < k + |c.bytes|)
    ensures d(mem[a := v], k) == Some(c)
  {
    assert SameText(mem, mem[a := v], k, |c.bytes|);
  }

  /** The bytes of a cached superblock are in one mapping, an address that is not in it is not among them. */
  lemma ApartText(s: Exec, d: Decoder, k: nat, a: nat)
    requires Fresh(s, d) && k in s.code.vsbs && LookupMapping(s.maps, k).Some? && LookupMapping(s.maps, a) != LookupMapping(s.maps, k)
    ensures !(k <= a < k + |s.code.vsbs[k].bytes|)
  {
    var i := LookupMapping(s.maps, k).value;
    assert Safe(s, d, k);
    if k <= a < k + |s.code.vsbs[k].bytes| {
      assert Holds(s.maps[i], a);
      OnlyOne(s.maps, a, i);
    }
  }

  lemma OnlyOne(maps: seq<Mapping>, a: nat, i: nat)
    requires MapsOk(maps) && i < |maps| && Holds(maps[i], a)
    ensures LookupMapping(maps, a) == Some(i)
  {
    if LookupMapping(maps, a).Some? {
      Disjoint(maps, a, i, LookupMapping(maps, a).value);
    }
  }

  lemma Disjoint(maps: seq<Mapping>, a: nat, i: nat, j: nat)
    requires MapsOk(maps) && i < |maps| && j < |maps| && Holds(maps[i], a) && Holds(maps[j], a)
    ensures i == j
  {
  }

  lemma NotPending(s: Exec, i: nat)
    requires MapsOk(s.maps) && i < |s.maps| && s.toFlush.0 == 0
    ensures !Pending(s, i)
  {
  }

  /** A faulting store may not overwrite a request for another mapping. */
  predicate OneFault(s: Exec, a: nat) {
    var at := LookupMapping(s.maps, a);
    at.Some? ==> s.maps[at.value].cur.w || s.toFlush.0 == 0 || Pending(s, at.value)
  }

  predicate OneFaultAll(s: Exec, ws: seq<(nat, byte)>)
    decreases |ws|
  {
    ws == [] ||
    (OneFault(s, ws[0].0) &&
     match GuestWrite(s, ws[0].0, ws[0].1)
     case Fine(s') => OneFaultAll(s', ws[1..])
     case _ => true)
  }

  /** Stores to memory that is not protected. */
  lemma PlainStore(s: Exec, d: Decoder, a: nat, v: byte)
    requires Fresh(s, d) && GoodDecoder(d)
    requires LookupMapping(s.maps, a).Some? ==> s.maps[LookupMapping(s.maps, a).value].cur.w
    ensures Fresh(s.(mem := s.mem[a := v]), d)
  {
    hide GoodDecoder;
    var s' := s.(mem := s.mem[a := v]);
    forall k | k in s'.code.vsbs ensures Safe(s', d, k) {
      assert Safe(s, d, k);
      var at := LookupMapping(s.maps, k);
      if at.Some? && !Pending(s, at.value) {
        assert LookupMapping(s.maps, a) != at;
        ApartText(s, d, k, a);
        TextKept(d, s.mem, a, v, k, s.code.vsbs[k]);
      }
    }
  }

  /** The handler opens one mapping up and asks for it to be flushed. */
  lemma FaultKeeps(s: Exec, d: Decoder, i: nat)
    requires Fresh(s, d) && i < |s.maps| && HandleFault(s, i).Some?
    requires s.toFlush.0 == 0 || Pending(s, i)
    ensures
      var s' := HandleFault(s, i).value;
      Fresh(s', d) && s'.mem == s.mem && s'.code == s.code && (forall a :: LookupMapping(s'.maps, a) == LookupMapping(s.maps, a))
  {
    var s' := HandleFault(s, i).value;
    var p := s.maps[i].req.(x := false);
    MapsOkCur(s.maps, i, p);
    forall a ensures LookupMapping(s'.maps, a) == LookupMapping(s.maps, a) {
      LookupCur(s.maps, i, p, a);
    }
    forall k | k in s'.code.vsbs ensures Safe(s', d, k) {
      assert Safe(s, d, k);
      var at := LookupMapping(s.maps, k);
      if at.Some? {
        assert s'.maps[at.value].End() == s.maps[at.value].End();
        if at.value == i {
          assert Pending(s', i);
        }
      }
    }
  }

  lemma WriteKeeps(s: Exec, d: Decoder, a: nat, v: byte)
    requires Fresh(s, d) && GoodDecoder(d) && OneFault(s, a) && GuestWrite(s, a, v).Fine?
    ensures Fresh(GuestWrite(s, a, v).s, d) && Same(s, GuestWrite(s, a, v).s)
  {
    hide Fresh, GoodDecoder;
    var at := LookupMapping(s.maps, a);
    if at.None? || s.maps[at.value].cur.w {
      PlainStore(s, d, a, v);
    } else {
      FaultKeeps(s, d, at.value);
      PlainStore(HandleFault(s, at.value).value, d, a, v);
    }
  }

  /** What stores leave alone. */
  predicate Same(s: Exec, s': Exec) {
    s'.code == s.code && s'.next == s.next && s'.exitByte == s.exitByte && s'.depth == s.depth && s'.exited == s.exited
  }

  /** Nothing is pending and everything cached from a mapping is up to date. */
  ghost predicate Settled(s: Exec, d: Decoder) {
    Fresh(s, d) && s.toFlush.0 == 0
  }

  /** The flush before a lookup removes whatever was waiting for it. */
  lemma FlushSettles(s: Exec, d: Decoder)
    requires Fresh(s, d)
    ensures Settled(FlushPending(s), d)
  {
    var s' := FlushPending(s);
    FlushParts(s);
    hide FlushPending;
    forall k | k in s'.code.vsbs ensures Safe(s', d, k) {
      assert Safe(s, d, k);
      var at := LookupMapping(s.maps, k);
      if at.Some? && Pending(s, at.value) {
        FlushedMapping(s, at.value, k);
      }
    }
  }

  lemma FlushParts(s: Exec)
    ensures
      var s' := FlushPending(s);
      && s' == s.(code := s'.code, toFlush := s'.toFlush) && s'.toFlush.0 == 0
      && (forall k :: k in s'.code.vsbs ==> k in s.code.vsbs && s'.code.vsbs[k] == s.code.vsbs[k])
  {
  }

  /** No superblock of a mapping survives its flush. */
  lemma FlushedMapping(s: Exec, i: nat, k: nat)
    requires MapsOk(s.maps) && i < |s.maps| && Pending(s, i) && Holds(s.maps[i], k)
    ensures k !in FlushPending(s).code.vsbs
  {
    Margins(s.maps, i);
  }

  lemma Margins(maps: seq<Mapping>, i: nat)
    requires MapsOk(maps) && i < |maps|
    ensures (maps[i].off + TWO64 - MAX_CODE_BYTES) % TWO64 == maps[i].off - MAX_CODE_BYTES
    ensures (maps[i].End() + MAX_CODE_BYTES) % TWO64 == maps[i].End() + MAX_CODE_BYTES
  {
    assert maps[i].off + TWO64 - MAX_CODE_BYTES == (maps[i].off - MAX_CODE_BYTES) + TWO64;
  }

  // ---- lookup

  /** A lookup adds at most the superblock asked for. */
  lemma GetVsbOnly(m: Maps, env: Env, p: nat, tr: Xlate)
    requires GoodEnv(env) && GoodXlate(tr) && Agreed(m) && Bounded(m, env)
    ensures
      var (m', c) := GetVsb(m, env, p, tr);
      forall k :: k in m'.vsbs ==> (k == p && c == Some(m'.vsbs[k])) || (k in m.vsbs && m'.vsbs[k] == m.vsbs[k])
  {
  }

  /** Compiling a cached superblock, with nothing compiled ahead, leaves the superblocks alone. */
  lemma CompileOnly(m: Maps, env: Env, p: nat, tr: Xlate)
    requires p in m.vsbs
    ensures GetFPtr(m, env, p, tr, false).0.vsbs == m.vsbs
  {
    if p !in m.jits {
      FPtrParts(m, env, p, tr, false);
    }
  }

  lemma ProtectSettles(s: Exec, d: Decoder, i: nat)
    requires Settled(s, d) && i < |s.maps|
    ensures
      var s' := Protect(s, i);
      && Settled(s', d) && !s'.maps[i].cur.w && |s'.maps| == |s.maps| && s'.maps[i].End() == s.maps[i].End()
      && (forall a :: LookupMapping(s'.maps, a) == LookupMapping(s.maps, a))
  {
    var s' := Protect(s, i);
    var p := s.maps[i].req.(w := false);
    MapsOkCur(s.maps, i, p);
    forall a ensures LookupMapping(s'.maps, a) == LookupMapping(s.maps, a) {
      LookupCur(s.maps, i, p, a);
    }
    forall k | k in s'.code.vsbs ensures Safe(s', d, k) {
      assert Safe(s, d, k);
      var at := LookupMapping(s.maps, k);
      if at.Some? {
        assert s'.maps[at.value].End() == s.maps[at.value].End() && s'.maps[at.value].off == s.maps[at.value].off;
      }
    }
  }

  /** The cache half of the state, as the caches keep it. */
  ghost predicate CodeOk(s: Exec, env: Env) {
    GoodEnv(env) && Agreed(s.code) && Bounded(s.code, env)
  }

  lemma TranslatorGood(d: Decoder, mem: Mem)
    requires GoodDecoder(d)
    ensures GoodXlate(Translator(d, mem))
  {
  }

  /** The superblock found for a mapped address is the translation of memory as it is now. */
  lemma GetSBFresh(s: Exec, env: Env, d: Decoder, a: nat)
    requires Settled(s, d) && GoodDecoder(d) && CodeOk(s, env) && GetSB(s, env, d, a, false).Found?
    ensures
      var r := GetSB(s, env, d, a, false);
      && Settled(r.s, d) && CodeOk(r.s, env) && r.s.mem == s.mem
      && (LookupMapping(s.maps, a).Some? ==> d(s.mem, a) == Some(r.c))
  {
    hide *;
    TranslatorGood(d, s.mem);
    var at := LookupMapping(s.maps, a);
    var s1 := if at.Some? then Protect(s, at.value) else s;
    if at.Some? {
      ProtectSettles(s, d, at.value);
      ProtectIs(s, at.value);
    }
    var tr := Translator(d, s.mem);
    CodeParts(s, env);
    GetSBParts(s, env, d, a, false);
    GetVsbKeeps(s1.code, env, a, tr);
    GetVsbOnly(s1.code, env, a, tr);
    var (code1, c) := GetVsb(s1.code, env, a, tr);
    GrewParts(s1.code, code1, env);
    GetFPtrKeeps(code1, env, a, tr, false);
    CompileOnly(code1, env, a, tr);
    var r := GetSB(s, env, d, a, false);
    TranslatorIs(d, s.mem, a);
    FoundSettled(s1, d, a, c, r.s);
    CodeMake(r.s, env);
  }

  lemma TranslatorIs(d: Decoder, mem: Mem, a: nat)
    ensures Translator(d, mem)(a) == d(mem, a)
  {
  }

  lemma ProtectIs(s: Exec, i: nat)
    requires i < |s.maps|
    ensures Protect(s, i).mem == s.mem && Protect(s, i).code == s.code
  {
  }

  lemma CodeParts(s: Exec, env: Env)
    requires CodeOk(s, env)
    ensures GoodEnv(env) && Agreed(s.code) && Bounded(s.code, env)
  {
  }

  lemma CodeMake(s: Exec, env: Env)
    requires GoodEnv(env) && Agreed(s.code) && |s.code.vsbs| <= env.max
    ensures CodeOk(s, env)
  {
  }

  lemma GetSBParts(s: Exec, env: Env, d: Decoder, a: nat, ahead: bool)
    requires GetSB(s, env, d, a, ahead).Found?
    ensures
      var at := LookupMapping(s.maps, a);
      var s1 := if at.Some? then Protect(s, at.value) else s;
      var (code1, c) := GetVsb(s1.code, env, a, Translator(d, s1.mem));
      && c.Some? && (at.Some? ==> a + |c.value.bytes| < s1.maps[at.value].End())
      && GetSB(s, env, d, a, ahead) ==
         Found(s1.(code := GetFPtr(code1, env, a, Translator(d, s1.mem), ahead).0), c.value)
  {
    hide GetVsb, GetFPtr, LookupMapping, Translator;
    var at := LookupMapping(s.maps, a);
    var s1 := if at.Some? then Protect(s, at.value) else s;
    var (code1, c) := GetVsb(s1.code, env, a, Translator(d, s1.mem));
    assert c.Some?;
    assert at.Some? ==> a + |c.value.bytes| < s1.maps[at.value].End();
  }

  /** Adding a superblock to a protected mapping, cached or just translated. */
  lemma FoundSettled(s: Exec, d: Decoder, a: nat, c: Option<Code>, s': Exec)
    requires Settled(s, d) && c.Some?
    requires var at := LookupMapping(s.maps, a); at.Some? ==> !s.maps[at.value].cur.w && a + |c.value.bytes| < s.maps[at.value].End()
    requires a in s.code.vsbs ==> c == Some(s.code.vsbs[a])
    requires a !in s.code.vsbs ==> c == d(s.mem, a)
    requires s' == s.(code := s'.code)
    requires forall k :: k in s'.code.vsbs ==>
      (k == a && c == Some(s'.code.vsbs[k])) || (k in s.code.vsbs && s'.code.vsbs[k] == s.code.vsbs[k])
    ensures Settled(s', d)
    ensures LookupMapping(s.maps, a).Some? ==> d(s.mem, a) == c
  {
    if LookupMapping(s.maps, a).Some? {
      NotPending(s, LookupMapping(s.maps, a).value);
      if a in s.code.vsbs {
        assert Safe(s, d, a);
      }
    }
    forall k | k in s'.code.vsbs ensures Safe(s', d, k) {
      if k in s.code.vsbs {
        assert Safe(s, d, k);
      }
    }
  }
}
