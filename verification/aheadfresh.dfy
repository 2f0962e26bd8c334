/**
 Lookups that compile the constant exits ahead: exactly when what they add to the caches is
 covered by write protection, and what a caller can check beforehand.
 */
module AheadFreshness {
  import opened Options
  import opened CodeMaps
  import opened AheadMaps
  import opened ExecModel
  import opened Freshness

  /** The superblock cached at k lies inside a write-protected mapping, if it lies in one at all. */
  predicate Covered(s: Exec, k: nat)
    requires k in s.code.vsbs
  {
    var at := LookupMapping(s.maps, k);
    at.Some? ==> !s.maps[at.value].cur.w && k + |s.code.vsbs[k].bytes| < s.maps[at.value].End()
  }

  /** Everything the lookup has added is covered. */
  ghost predicate AddedCovered(s: Exec, s': Exec) {
    forall k :: k in s'.code.vsbs && k !in s.code.vsbs ==> Covered(s', k)
  }

  /** What a lookup does besides protecting the mapping: entries are kept, or fresh translations. */
  lemma LookupAdds(s: Exec, env: Env, d: Decoder, a: nat, ahead: bool)
    requires GetSB(s, env, d, a, ahead).Found?
    ensures
      var at := LookupMapping(s.maps, a);
      var s1 := if at.Some? then Protect(s, at.value) else s;
      var s' := GetSB(s, env, d, a, ahead).s;
      && s' == s1.(code := s'.code)
      && Added(s1.code, s'.code, Translator(d, s1.mem), s'.code.vsbs.Keys)
  {
    hide *;
    GetSBParts(s, env, d, a, ahead);
    var at := LookupMapping(s.maps, a);
    var s1 := if at.Some? then Protect(s, at.value) else s;
    var tr := Translator(d, s1.mem);
    var code1 := GetVsb(s1.code, env, a, tr).0;
    var code2 := GetFPtr(code1, env, a, tr, ahead).0;
    GetVsbAdds(s1.code, env, a, tr);
    GetFPtrAdds(code1, env, a, tr, ahead);
    AddedTrans(s1.code, code1, code2, tr, {a}, code2.vsbs.Keys);
    AddedKeys(s1.code, code2, tr, {a} + code2.vsbs.Keys);
  }

  lemma CoveredIsSafe(s: Exec, d: Decoder, s': Exec, k: nat)
    requires Settled(s, d) && s' == s.(code := s'.code) && k in s'.code.vsbs && k !in s.code.vsbs
    requires d(s.mem, k) == Some(s'.code.vsbs[k])
    ensures Safe(s', d, k) <==> Covered(s', k)
  {
    if LookupMapping(s.maps, k).Some? {
      NotPending(s, LookupMapping(s.maps, k).value);
    }
  }

  lemma OldIsSafe(s: Exec, d: Decoder, s': Exec, k: nat)
    requires Settled(s, d) && s' == s.(code := s'.code) && k in s'.code.vsbs && k in s.code.vsbs
    requires s'.code.vsbs[k] == s.code.vsbs[k] || d(s.mem, k) == Some(s'.code.vsbs[k])
    ensures Safe(s', d, k)
  {
    assert Safe(s, d, k);
    if LookupMapping(s.maps, k).Some? {
      NotPending(s, LookupMapping(s.maps, k).value);
    }
  }

  lemma AddedFresh(s: Exec, d: Decoder, s': Exec)
    requires Settled(s, d) && s' == s.(code := s'.code)
    requires Added(s.code, s'.code, Translator(d, s.mem), s'.code.vsbs.Keys)
    ensures Fresh(s', d) <==> AddedCovered(s, s')
  {
    forall k | k in s'.code.vsbs ensures Safe(s', d, k) <==> k in s.code.vsbs || Covered(s', k) {
      TranslatorIs(d, s.mem, k);
      if k in s.code.vsbs {
        OldIsSafe(s, d, s', k);
      } else {
        CoveredIsSafe(s, d, s', k);
      }
    }
    hide Safe, Covered, Added, Translator;
  }

  /** The mapping of the superblock asked for. */
  function Guarded(s: Exec, a: nat): Exec {
    var at := LookupMapping(s.maps, a);
    if at.Some? then Protect(s, at.value) else s
  }

  lemma GuardSettles(s: Exec, d: Decoder, a: nat)
    requires Settled(s, d)
    ensures
      var s1 := Guarded(s, a);
      && Settled(s1, d) && s1.code == s.code && s1.mem == s.mem && |s1.maps| == |s.maps|
      && (forall b :: LookupMapping(s1.maps, b) == LookupMapping(s.maps, b))
      && (forall i :: 0 <= i < |s.maps| ==> s1.maps[i].End() == s.maps[i].End())
      && (forall i :: 0 <= i < |s.maps| ==>
            (s1.maps[i].cur.w <==> s.maps[i].cur.w && LookupMapping(s.maps, a) != Some(i)))
  {
    var at := LookupMapping(s.maps, a);
    if at.Some? {
      ProtectSettles(s, d, at.value);
    }
    hide LookupMapping, Settled;
  }

  /** The superblock found for a mapped address is the translation of memory as it is now. */
  lemma FoundIs(s: Exec, env: Env, d: Decoder, a: nat, ahead: bool)
    requires Settled(s, d) && GetSB(s, env, d, a, ahead).Found? && LookupMapping(s.maps, a).Some?
    requires GoodDecoder(d) && CodeOk(s, env)
    ensures d(s.mem, a) == Some(GetSB(s, env, d, a, ahead).c)
  {
    hide Settled, Agreed, LookupMapping, GetSB, GoodDecoder, Translator, Bounded, GoodEnv, Protect;
    GuardSettles(s, d, a);
    GetSBParts(s, env, d, a, ahead);
    TranslatorIs(d, s.mem, a);
    if a in s.code.vsbs {
      SettledText(s, d, a);
    }
  }

  lemma SettledText(s: Exec, d: Decoder, k: nat)
    requires Settled(s, d) && k in s.code.vsbs && LookupMapping(s.maps, k).Some?
    ensures d(s.mem, k) == Some(s.code.vsbs[k])
  {
    assert Safe(s, d, k);
    NotPending(s, LookupMapping(s.maps, k).value);
  }

  /**
   A lookup, compiling ahead or not, keeps everything cached up to date exactly when every
   superblock it adds is inside a write-protected mapping or outside all mappings; and what it
   finds is the translation of memory as it is now either way.
   */
  lemma AddedExact(s: Exec, env: Env, d: Decoder, a: nat, ahead: bool)
    requires Settled(s, d) && GoodDecoder(d) && CodeOk(s, env) && GetSB(s, env, d, a, ahead).Found?
    ensures
      var r := GetSB(s, env, d, a, ahead);
      && (Settled(r.s, d) <==> AddedCovered(s, r.s))
      && r.s.mem == s.mem && r.s.next == s.next && r.s.exitByte == s.exitByte && r.s.depth == s.depth
      && (LookupMapping(s.maps, a).Some? ==> d(s.mem, a) == Some(r.c))
  {
    hide Fresh, Added, LookupMapping, GetSB, GoodDecoder, Translator, CodeOk, Covered;
    LookupAdds(s, env, d, a, ahead);
    GuardSettles(s, d, a);
    var s1, s' := Guarded(s, a), GetSB(s, env, d, a, ahead).s;
    ProtectRest(s, a);
    AddedFresh(s1, d, s');
    if LookupMapping(s.maps, a).Some? {
      FoundIs(s, env, d, a, ahead);
    }
  }

  lemma ProtectRest(s: Exec, a: nat)
    ensures Guarded(s, a) == s.(maps := Guarded(s, a).maps)
  {
    hide LookupMapping;
  }

  // ---- what can be checked before the lookup

  /** A superblock at x is cached already, or outside all mappings, or would be covered once the mapping of a is protected. */
  predicate Shielded(s: Exec, d: Decoder, a: nat, x: nat) {
    var at := LookupMapping(s.maps, x);
    x in s.code.vsbs || at.None? || d(s.mem, x).None? ||
    ((!s.maps[at.value].cur.w || at == LookupMapping(s.maps, a)) &&
     x + |d(s.mem, x).value.bytes| < s.maps[at.value].End())
  }

  /** Where compiling the superblock of a ahead looks: nowhere if it is compiled already. */
  function Ahead(s: Exec, env: Env, d: Decoder, a: nat): set<nat> {
    var tr := Translator(d, s.mem);
    var m := MakeRoom(s.code, env, tr, a);
    match FnAt(m, tr, a)
    case Some(f) => if a in s.code.jits then {} else Scanned(m, env, tr, f)
    case None => {}
  }

  predicate ExitsShielded(s: Exec, env: Env, d: Decoder, a: nat) {
    forall x :: x in Ahead(s, env, d, a) ==> Shielded(s, d, a, x)
  }

  predicate AheadFits(s: Exec, env: Env, d: Decoder, a: nat) {
    Fits(s.code, env, Translator(d, s.mem), a)
  }

  lemma GuardCode(s: Exec, a: nat)
    ensures
      var at := LookupMapping(s.maps, a);
      var s1 := if at.Some? then Protect(s, at.value) else s;
      s1.code == s.code && s1.mem == s.mem
  {
    hide LookupMapping;
  }

  /** Finding the superblock and then compiling it is compiling it. */
  lemma LookupCode(s: Exec, env: Env, d: Decoder, a: nat, ahead: bool)
    requires GetSB(s, env, d, a, ahead).Found? && GoodDecoder(d) && CodeOk(s, env)
    ensures GetSB(s, env, d, a, ahead).s.code == GetFPtr(s.code, env, a, Translator(d, s.mem), ahead).0
    ensures FnAt(s.code, Translator(d, s.mem), a) == Some(Fn(GetSB(s, env, d, a, ahead).c))
  {
    hide *;
    var tr := Translator(d, s.mem);
    TranslatorGood(d, s.mem);
    CodeParts(s, env);
    GuardCode(s, a);
    GetSBParts(s, env, d, a, ahead);
    GetVsbKeeps(s.code, env, a, tr);
    VsbFirst(s.code, env, tr, a, ahead);
    FnOf(s.code, tr, a);
  }

  lemma FnOf(m: Maps, tr: Xlate, a: nat)
    ensures
      FnAt(m, tr, a) == match (if a in m.vsbs then Some(m.vsbs[a]) else tr(a)) case Some(c) => Some(Fn(c)) case None => None
  {
  }

  /** What fits is added exactly at a and where compiling ahead looks, if it is new and can be translated. */
  lemma AheadAdds(s: Exec, env: Env, d: Decoder, a: nat, k: nat)
    requires GetSB(s, env, d, a, true).Found? && GoodDecoder(d) && CodeOk(s, env) && AheadFits(s, env, d, a)
    requires k !in s.code.vsbs
    ensures
      var s' := GetSB(s, env, d, a, true).s;
      && (k in s'.code.vsbs <==> (k == a || k in Ahead(s, env, d, a)) && d(s.mem, k).Some?)
      && (k in s'.code.vsbs ==> d(s.mem, k) == Some(s'.code.vsbs[k]))
  {
    hide *;
    var tr := Translator(d, s.mem);
    TranslatorGood(d, s.mem);
    TranslatorIs(d, s.mem, k);
    CodeParts(s, env);
    LookupCode(s, env, d, a, true);
    AheadIs(s, env, d, a);
    RoomMade(s.code, env, tr, a);
    FitsTo(s, env, d, a);
    if a in s.code.jits {
      Known(s.code, env, a, tr, true);
      KnownHere(s.code, a);
    } else {
      var m0 := MakeRoom(s.code, env, tr, a);
      CompilesExactly(s.code, env, tr, a);
      LookedIs(m0, env, tr, a);
      BuiltHas(m0, tr, Looked(m0, env, tr, a), k);
    }
  }

  lemma FitsTo(s: Exec, env: Env, d: Decoder, a: nat)
    ensures AheadFits(s, env, d, a) <==> Fits(s.code, env, Translator(d, s.mem), a)
  {
  }

  lemma KnownHere(m: Maps, a: nat)
    requires Agreed(m) && a in m.jits
    ensures a in m.vsbs
  {
  }

  lemma AheadIs(s: Exec, env: Env, d: Decoder, a: nat)
    ensures
      var tr := Translator(d, s.mem);
      var m := MakeRoom(s.code, env, tr, a);
      Ahead(s, env, d, a) == if FnAt(m, tr, a).Some? && a !in s.code.jits then Scanned(m, env, tr, FnAt(m, tr, a).value) else {}
  {
    hide FnAt, Scanned, MakeRoom;
  }

  lemma BuiltHas(m: Maps, tr: Xlate, at: set<nat>, k: nat)
    requires k !in m.vsbs
    ensures k in Built(m, tr, at).vsbs <==> k in at && tr(k).Some?
    ensures k in Built(m, tr, at).vsbs ==> tr(k) == Some(Built(m, tr, at).vsbs[k])
  {
  }

  /** So what is added is covered exactly when the addresses looked at are shielded. */
  lemma ShieldedExact(s: Exec, env: Env, d: Decoder, a: nat)
    requires Settled(s, d) && GoodDecoder(d) && CodeOk(s, env) && GetSB(s, env, d, a, true).Found? && AheadFits(s, env, d, a)
    ensures AddedCovered(s, GetSB(s, env, d, a, true).s) <==> ExitsShielded(s, env, d, a)
  {
    hide Settled, LookupMapping, GetSB, GoodDecoder, CodeOk, Ahead, AheadFits;
    var s' := GetSB(s, env, d, a, true).s;
    forall k | k !in s.code.vsbs && k in s'.code.vsbs ensures Covered(s', k) <==> k == a || Shielded(s, d, a, k) {
      AheadAdds(s, env, d, a, k);
      CoveredIs(s, env, d, a, k);
    }
    forall x | x in Ahead(s, env, d, a) && !Shielded(s, d, a, x)
      ensures x in s'.code.vsbs && x !in s.code.vsbs && !Covered(s', x)
    {
      AheadAdds(s, env, d, a, x);
      CoveredIs(s, env, d, a, x);
      if x == a {
        FoundShielded(s, env, d, a);
      }
    }
    forall k | k in s'.code.vsbs && k !in s.code.vsbs ensures k == a || k in Ahead(s, env, d, a) {
      AheadAdds(s, env, d, a, k);
    }
    hide Covered, Shielded;
  }

  lemma CoveredIs(s: Exec, env: Env, d: Decoder, a: nat, k: nat)
    requires Settled(s, d) && GoodDecoder(d) && CodeOk(s, env) && GetSB(s, env, d, a, true).Found?
    requires k !in s.code.vsbs && k in GetSB(s, env, d, a, true).s.code.vsbs
    requires d(s.mem, k) == Some(GetSB(s, env, d, a, true).s.code.vsbs[k])
    ensures Covered(GetSB(s, env, d, a, true).s, k) <==> Shielded(s, d, a, k)
    ensures k == a ==> Shielded(s, d, a, k)
  {
    hide Settled, LookupMapping, GetSB, GoodDecoder, Translator, CodeOk, Added;
    LookupAdds(s, env, d, a, true);
    GuardSettles(s, d, a);
    if k == a {
      FoundShielded(s, env, d, a);
    }
  }

  /** What is found ends inside its mapping. */
  lemma FoundShielded(s: Exec, env: Env, d: Decoder, a: nat)
    requires GetSB(s, env, d, a, true).Found?
    ensures Shielded(s, d, a, a)
  {
    hide GetFPtr, LookupMapping, GetSB;
    GetSBParts(s, env, d, a, true);
    TranslatorIs(d, s.mem, a);
  }

  /**
   A lookup of what fits keeps everything cached up to date if and only if nothing is compiled
   ahead or every address that compiling ahead looks at is shielded beforehand. The maps stay in
   agreement, and what is found is the translation of memory as it is now, either way.
   */
  lemma LookupExact(s: Exec, env: Env, d: Decoder, a: nat, ahead: bool)
    requires Settled(s, d) && GoodDecoder(d) && CodeOk(s, env) && GetSB(s, env, d, a, ahead).Found?
    requires ahead ==> AheadFits(s, env, d, a)
    ensures
      var r := GetSB(s, env, d, a, ahead);
      && (Settled(r.s, d) <==> !ahead || ExitsShielded(s, env, d, a))
      && CodeOk(r.s, env) && r.s.mem == s.mem
      && (LookupMapping(s.maps, a).Some? ==> d(s.mem, a) == Some(r.c))
  {
    hide *;
    if ahead {
      AddedExact(s, env, d, a, true);
      ShieldedExact(s, env, d, a);
      AheadCodeOk(s, env, d, a);
    } else {
      GetSBFresh(s, env, d, a);
    }
  }

  /** A lookup leaves the mappings where they are and nothing pending. */
  lemma LookupMaps(s: Exec, env: Env, d: Decoder, a: nat, ahead: bool)
    requires Settled(s, d) && GetSB(s, env, d, a, ahead).Found?
    ensures MapsOk(GetSB(s, env, d, a, ahead).s.maps) && GetSB(s, env, d, a, ahead).s.toFlush.0 == 0
  {
    hide LookupMapping, GetSB, Safe, Added, MapsOk;
    LookupAdds(s, env, d, a, ahead);
    GuardSettles(s, d, a);
  }

  lemma AheadCodeOk(s: Exec, env: Env, d: Decoder, a: nat)
    requires GoodDecoder(d) && CodeOk(s, env) && GetSB(s, env, d, a, true).Found? && AheadFits(s, env, d, a)
    ensures CodeOk(GetSB(s, env, d, a, true).s, env)
  {
    hide *;
    var tr := Translator(d, s.mem);
    TranslatorGood(d, s.mem);
    CodeParts(s, env);
    FitsTo(s, env, d, a);
    LookupCode(s, env, d, a, true);
    AheadKeeps(s.code, env, tr, a);
    GetFPtrKeeps(s.code, env, a, tr, true);
    CodeMake(GetSB(s, env, d, a, true).s, env);
  }

  // ---- when not everything fits

  lemma AheadBack(m: Maps, m1: Maps, env: Env, tr: Xlate, f: Fn, at: set<nat>)
    requires Added(m, m1, tr, at)
    ensures AheadAddrs(m1, env, tr, f) <= AheadAddrs(m, env, tr, f)
  {
  }

  /** Everything a lookup adds is at the address asked for, or at an address that compiling ahead looks at. */
  lemma LookupReach(s: Exec, env: Env, d: Decoder, a: nat)
    requires GetSB(s, env, d, a, true).Found? && GoodDecoder(d) && CodeOk(s, env)
    ensures
      var tr := Translator(d, s.mem);
      var c := if a in s.code.vsbs then Some(s.code.vsbs[a]) else d(s.mem, a);
      && c.Some? && c.value == GetSB(s, env, d, a, true).c
      && Added(s.code, GetSB(s, env, d, a, true).s.code, tr, {a} + AheadAddrs(s.code, env, tr, Fn(c.value)))
  {
    hide *;
    var tr := Translator(d, s.mem);
    TranslatorGood(d, s.mem);
    TranslatorIs(d, s.mem, a);
    CodeParts(s, env);
    GuardCode(s, a);
    GetSBParts(s, env, d, a, true);
    GetVsbKeeps(s.code, env, a, tr);
    GetVsbAdds(s.code, env, a, tr);
    var (code1, c) := GetVsb(s.code, env, a, tr);
    GrewParts(s.code, code1, env);
    GetFPtrReach(code1, env, a, tr);
    AheadBack(s.code, code1, env, tr, Fn(c.value), {a});
    var at := AheadAddrs(s.code, env, tr, Fn(c.value));
    var code2 := GetFPtr(code1, env, a, tr, true).0;
    AddedMore(code1, code2, tr, AheadAddrs(code1, env, tr, Fn(c.value)), at);
    AddedTrans(s.code, code1, code2, tr, {a}, at);
  }

  /** The constant exits of the superblock at a, and theirs, are all shielded. */
  predicate ReachShielded(s: Exec, env: Env, d: Decoder, a: nat) {
    var c := if a in s.code.vsbs then Some(s.code.vsbs[a]) else d(s.mem, a);
    c.Some? ==> forall x :: x in AheadAddrs(s.code, env, Translator(d, s.mem), Fn(c.value)) ==> Shielded(s, d, a, x)
  }

  /** When all of them are shielded, what is added is covered even if not everything fits. */
  lemma ShieldedCovered(s: Exec, env: Env, d: Decoder, a: nat)
    requires Settled(s, d) && GoodDecoder(d) && CodeOk(s, env) && GetSB(s, env, d, a, true).Found?
    requires ReachShielded(s, env, d, a)
    ensures AddedCovered(s, GetSB(s, env, d, a, true).s)
  {
    hide Settled, Agreed, LookupMapping, GetSB, GoodDecoder, Translator, CodeOk, AheadAddrs;
    var s', tr := GetSB(s, env, d, a, true).s, Translator(d, s.mem);
    LookupReach(s, env, d, a);
    LookupAdds(s, env, d, a, true);
    GuardSettles(s, d, a);
    if LookupMapping(s.maps, a).Some? {
      FoundInside(s, env, d, a);
    }
    forall k | k in s'.code.vsbs && k !in s.code.vsbs ensures Covered(s', k) {
      TranslatorIs(d, s.mem, k);
      assert k == a || Shielded(s, d, a, k);
    }
  }

  /** What is found ends inside its mapping. */
  lemma FoundInside(s: Exec, env: Env, d: Decoder, a: nat)
    requires GetSB(s, env, d, a, true).Found? && LookupMapping(s.maps, a).Some?
    ensures a + |GetSB(s, env, d, a, true).c.bytes| < s.maps[LookupMapping(s.maps, a).value].End()
  {
    hide GetVsb, GetFPtr, LookupMapping, Translator;
  }
}
