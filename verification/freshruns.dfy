/**
 Whole runs of the dispatch loop: the superblock dispatched is always the translation of the
 bytes now in memory, and where the protocol stops short of that.
 */
module FreshRuns {
  import opened Options
  import opened ExitKinds
  import opened Bits
  import opened CodeMaps
  import opened ExecModel
  import opened Freshness
  import opened Tampering
  import opened AheadFreshness

  // ---- whole runs

  /** What is compiled ahead fits and is shielded, and the stores of the run lose no request for anything cached. */
  ghost predicate Calm(s: Exec, env: Env, d: Decoder, ahead: bool, r: BlockRun) {
    var s1 := FlushPending(s);
    match GetSB(s1, env, d, s1.next, ahead)
    case Found(s2, _) =>
      && (ahead ==> AheadFits(s1, env, d, s1.next) && ExitsShielded(s1, env, d, s1.next))
      && NoneLost(s2, r.writes)
    case _ => true
  }

  lemma FlushCode(s: Exec, env: Env)
    requires CodeOk(s, env)
    ensures CodeOk(FlushPending(s), env) && FlushPending(s).mem == s.mem && FlushPending(s).maps == s.maps
    ensures FlushPending(s).next == s.next && FlushPending(s).exitByte == s.exitByte && FlushPending(s).depth == s.depth
  {
    hide Agreed;
    if s.toFlush.0 != 0 {
      FlushRangeKeeps(s.code, (s.toFlush.0 + TWO64 - MAX_CODE_BYTES) % TWO64, (s.toFlush.1 + MAX_CODE_BYTES) % TWO64);
    }
  }

  /** The stores after a lookup that left something uncovered cannot make up for it. */
  lemma UncoveredStays(s: Exec, d: Decoder, s2: Exec, ws: seq<(nat, byte)>)
    requires MapsOk(s2.maps) && s2.toFlush.0 == 0 && WriteAll(s2, ws).Fine? && !AddedCovered(s, s2)
    ensures !Fresh(WriteAll(s2, ws).s, d)
  {
    hide MapsOk, WriteAll, LookupMapping, Fresh;
    var k :| k in s2.code.vsbs && k !in s.code.vsbs && !Covered(s2, k);
    OpenStays(s2, d, ws, k);
  }

  lemma {:induction false} WritesSame(s: Exec, ws: seq<(nat, byte)>)
    requires WriteAll(s, ws).Fine?
    ensures Same(s, WriteAll(s, ws).s)
    decreases |ws|
  {
    hide LookupMapping;
    if ws != [] {
      WritesSame(GuestWrite(s, ws[0].0, ws[0].1).s, ws[1..]);
    }
  }

  lemma LookupThenWrites(s: Exec, env: Env, d: Decoder, ahead: bool, ws: seq<(nat, byte)>)
    requires Settled(s, d) && GoodDecoder(d) && CodeOk(s, env) && (ahead ==> AheadFits(s, env, d, s.next))
    requires GetSB(s, env, d, s.next, ahead).Found? && WriteAll(GetSB(s, env, d, s.next, ahead).s, ws).Fine?
    ensures
      var s2 := GetSB(s, env, d, s.next, ahead).s;
      && CodeOk(WriteAll(s2, ws).s, env)
      && (Fresh(WriteAll(s2, ws).s, d) <==> (ahead ==> ExitsShielded(s, env, d, s.next)) && NoneLost(s2, ws))
  {
    hide *;
    var s2 := GetSB(s, env, d, s.next, ahead).s;
    LookupExact(s, env, d, s.next, ahead);
    WritesSame(s2, ws);
    SameCode(s2, WriteAll(s2, ws).s, env);
    if ahead && !ExitsShielded(s, env, d, s.next) {
      ShieldedExact(s, env, d, s.next);
      LookupMaps(s, env, d, s.next, ahead);
      UncoveredStays(s, d, s2, ws);
    } else {
      WritesExact(s2, d, ws);
    }
  }

  /**
   One dispatch keeps everything cached up to date if and only if it is calm, given that what it
   compiles ahead fits; and what it runs is the translation of the bytes in memory either way.
   */
  lemma StepExact(s: Exec, env: Env, d: Decoder, ahead: bool, r: BlockRun)
    requires Fresh(s, d) && GoodDecoder(d) && CodeOk(s, env) && Step(s, env, d, ahead, r).Went?
    requires ahead ==> AheadFits(FlushPending(s), env, d, s.next)
    ensures
      var w := Step(s, env, d, ahead, r);
      && (Fresh(w.s, d) <==> Calm(s, env, d, ahead, r)) && CodeOk(w.s, env)
      && (LookupMapping(s.maps, s.next).Some? ==> d(s.mem, s.next) == Some(w.c))
  {
    hide Fresh, CodeOk, GoodDecoder, GetSB, FlushPending, WriteAll, NoneLost, AfterRun, LookupMapping, ExitsShielded, AheadFits;
    var s1 := FlushPending(s);
    FlushSettles(s, d);
    FlushCode(s, env);
    LookupExact(s1, env, d, s1.next, ahead);
    LookupThenWrites(s1, env, d, ahead, r.writes);
    var f := GetSB(s1, env, d, s1.next, ahead);
    FinishKeeps(WriteAll(f.s, r.writes).s, env, d, r, f.c);
  }

  /** One calm step: everything cached stays up to date. */
  lemma StepFresh(s: Exec, env: Env, d: Decoder, ahead: bool, r: BlockRun)
    requires Fresh(s, d) && GoodDecoder(d) && CodeOk(s, env) && Calm(s, env, d, ahead, r)
    requires Step(s, env, d, ahead, r).Went?
    ensures
      var w := Step(s, env, d, ahead, r);
      && Fresh(w.s, d) && CodeOk(w.s, env)
      && (LookupMapping(s.maps, s.next).Some? ==> d(s.mem, s.next) == Some(w.c))
  {
    hide Fresh, CodeOk, GoodDecoder, GetSB, FlushPending, WriteAll, NoneLost, AfterRun, LookupMapping, ExitsShielded, AheadFits;
    FlushCode(s, env);
    StepExact(s, env, d, ahead, r);
  }

  lemma SameCode(s: Exec, s': Exec, env: Env)
    requires CodeOk(s, env) && Same(s, s')
    ensures CodeOk(s', env)
  {
  }

  lemma FinishKeeps(s: Exec, env: Env, d: Decoder, r: BlockRun, c: Code)
    requires AfterRun(s, r, c).Went?
    ensures AfterRun(s, r, c).c == c
    ensures Fresh(s, d) <==> Fresh(AfterRun(s, r, c).s, d)
    ensures CodeOk(s, env) ==> CodeOk(AfterRun(s, r, c).s, env)
  {
    var s' := AfterRun(s, r, c).s;
    forall k | k in s'.code.vsbs ensures Safe(s', d, k) <==> Safe(s, d, k) {
    }
  }

  /** Every superblock run is calm ... */
  ghost predicate CalmAll(s: Exec, env: Env, d: Decoder, ahead: bool, rs: seq<BlockRun>)
    decreases |rs|
  {
    rs == [] ||
    (Calm(s, env, d, ahead, rs[0]) &&
     match Step(s, env, d, ahead, rs[0])
     case Went(s', _) => CalmAll(s', env, d, ahead, rs[1..])
     case _ => true)
  }

  /** ... and every superblock dispatched from a mapping is the translation of memory at that moment. */
  ghost predicate NeverStale(s: Exec, env: Env, d: Decoder, ahead: bool, rs: seq<BlockRun>)
    decreases |rs|
  {
    rs == [] ||
    match Step(s, env, d, ahead, rs[0])
    case Went(s', c) =>
      (LookupMapping(s.maps, s.next).Some? ==> d(s.mem, s.next) == Some(c)) && NeverStale(s', env, d, ahead, rs[1..])
    case _ => true
  }

  lemma {:induction false} RunFresh(s: Exec, env: Env, d: Decoder, ahead: bool, rs: seq<BlockRun>)
    requires Fresh(s, d) && GoodDecoder(d) && CodeOk(s, env) && CalmAll(s, env, d, ahead, rs)
    ensures NeverStale(s, env, d, ahead, rs)
    decreases |rs|
  {
    hide Fresh, CodeOk, GoodDecoder, Step, Calm, LookupMapping;
    if rs != [] && Step(s, env, d, ahead, rs[0]).Went? {
      StepFresh(s, env, d, ahead, rs[0]);
      RunFresh(Step(s, env, d, ahead, rs[0]).s, env, d, ahead, rs[1..]);
    }
  }

  /** A guest that starts with nothing translated never runs stale code. */
  lemma NoStaleCode(mem: Mem, maps: seq<Mapping>, entry: nat, env: Env, d: Decoder, ahead: bool, rs: seq<BlockRun>)
    requires MapsOk(maps) && GoodDecoder(d) && GoodEnv(env)
    requires CalmAll(Exec(mem, maps, NoCode, (0, 0), entry, GE_IGNORE, 0, false), env, d, ahead, rs)
    ensures NeverStale(Exec(mem, maps, NoCode, (0, 0), entry, GE_IGNORE, 0, false), env, d, ahead, rs)
  {
    var s := Exec(mem, maps, NoCode, (0, 0), entry, GE_IGNORE, 0, false);
    NothingAgrees();
    assert CodeOk(s, env);
    RunFresh(s, env, d, ahead, rs);
  }

  // ---- where the protocol stops short

  /** A one-byte superblock at every address. */
  function OneByte(): Decoder {
    (mem: Mem, a: nat) => Some(Code(a, [ByteOf(mem, a)]))
  }

  const RWX: Prot := Prot(true, true, true)
  const RX: Prot := Prot(true, false, true)

  /** Two writable code mappings, both write-protected, with one superblock cached from the first. */
  function TwoMappings(): Exec {
    var c := Code(0x1000, [0]);
    Exec(map[], [Mapping(0x1000, 0x1000, RWX, RX), Mapping(0x8000, 0x1000, RWX, RX)],
         Maps(map[0x1000 := c], map[0x1000 := Fn(c)], map[0x1000 := Ptr(Fn(c))]), (0, 0), 0x1000, GE_IGNORE, 0, false)
  }

  /**
   One request is remembered at a time. If stores between two dispatches fault on two
   mappings, the first is not flushed, and its old superblock is dispatched again.
   */
  lemma SecondFaultWins(env: Env)
    ensures
      var s := TwoMappings();
      var ws: seq<(nat, byte)> := [(0x1000, 7), (0x8000, 9)];
      && Fresh(s, OneByte()) && Agreed(s.code)
      && !OneFaultAll(s, ws)
      && WriteAll(s, ws).Fine?
      && var s1 := FlushPending(WriteAll(s, ws).s);
      && GetSB(s1, env, OneByte(), 0x1000, false).Found?
      && GetSB(s1, env, OneByte(), 0x1000, false).c == Code(0x1000, [0])
      && OneByte()(s1.mem, 0x1000) == Some(Code(0x1000, [7]))
  {
    var s := TwoMappings();
    var ws: seq<(nat, byte)> := [(0x1000, 7), (0x8000, 9)];
    TwoStores();
    TwoFresh();
    TwoWrites(s, OneOpen(), BothOpen());
    TwoStale(env);
  }

  const OPEN: Prot := Prot(true, true, false)

  /** After the first store and the fault it took ... */
  function OneOpen(): Exec {
    TwoMappings().(maps := [Mapping(0x1000, 0x1000, RWX, OPEN), Mapping(0x8000, 0x1000, RWX, RX)],
                   toFlush := (0x1000, 0x2000), mem := map[0x1000 := 7])
  }

  /** ... and after the second. */
  function BothOpen(): Exec {
    TwoMappings().(maps := [Mapping(0x1000, 0x1000, RWX, OPEN), Mapping(0x8000, 0x1000, RWX, OPEN)],
                   toFlush := (0x8000, 0x9000), mem := map[0x1000 := 7][0x8000 := 9])
  }

  lemma TwoStores()
    ensures GuestWrite(TwoMappings(), 0x1000, 7) == Fine(OneOpen())
    ensures GuestWrite(OneOpen(), 0x8000, 9) == Fine(BothOpen())
    ensures !OneFault(OneOpen(), 0x8000)
  {
    var s, s1 := TwoMappings(), OneOpen();
    TwoLookups(s.maps[0], s.maps[1]);
    TwoLookups(s1.maps[0], s1.maps[1]);
    assert s.maps == [s.maps[0], s.maps[1]] && s1.maps == [s1.maps[0], s1.maps[1]];
    hide LookupMapping;
    assert s.maps[0 := Mapping(0x1000, 0x1000, RWX, OPEN)] == s1.maps;
    assert s1.maps[1 := Mapping(0x8000, 0x1000, RWX, OPEN)] == BothOpen().maps;
    assert HandleFault(s, 0) == Some(OneOpen().(mem := s.mem));
    assert HandleFault(s1, 1) == Some(BothOpen().(mem := s1.mem));
  }

  lemma TwoWrites(s: Exec, s1: Exec, s2: Exec)
    requires GuestWrite(s, 0x1000, 7) == Fine(s1) && GuestWrite(s1, 0x8000, 9) == Fine(s2) && !OneFault(s1, 0x8000)
    ensures
      var ws: seq<(nat, byte)> := [(0x1000, 7), (0x8000, 9)];
      WriteAll(s, ws) == Fine(s2) && !OneFaultAll(s, ws)
  {
    hide GuestWrite, OneFault;
    var ws: seq<(nat, byte)> := [(0x1000, 7), (0x8000, 9)];
    var rest: seq<(nat, byte)> := ws[1..];
    assert rest[0] == (0x8000, 9) && |rest[1..]| == 0;
    assert WriteAll(s2, rest[1..]) == Fine(s2);
    assert WriteAll(s1, rest) == Fine(s2);
    assert !OneFaultAll(s1, rest);
  }

  lemma TwoFresh()
    ensures Fresh(TwoMappings(), OneByte()) && Agreed(TwoMappings().code)
  {
    var s := TwoMappings();
    TwoLookups(s.maps[0], s.maps[1]);
    assert s.maps == [s.maps[0], s.maps[1]];
  }

  lemma TwoStale(env: Env)
    ensures
      var s1 := FlushPending(BothOpen());
      && GetSB(s1, env, OneByte(), 0x1000, false).Found?
      && GetSB(s1, env, OneByte(), 0x1000, false).c == Code(0x1000, [0])
      && OneByte()(s1.mem, 0x1000) == Some(Code(0x1000, [7]))
  {
    var s, s1 := BothOpen(), FlushPending(BothOpen());
    TwoLookups(s.maps[0], s.maps[1]);
    assert s.maps == [s.maps[0], s.maps[1]];
    assert FlushRange(s.code, 0x7C00, 0x9400) == s.code;
    assert s1.code == s.code && s1.maps == s.maps;
    hide LookupMapping, FlushPending;
    assert GetVsb(Protect(s1, 0).code, env, 0x1000, Translator(OneByte(), s1.mem)) == (s.code, Some(Code(0x1000, [0])));
  }

  lemma TwoLookups(m0: Mapping, m1: Mapping)
    requires m0.off == 0x1000 && m0.len == 0x1000 && m1.off == 0x8000 && m1.len == 0x1000
    ensures LookupMapping([m0, m1], 0x1000) == Some(0) && LookupMapping([m0, m1], 0x8000) == Some(1)
    ensures MapsOk([m0, m1])
  {
    assert [m0, m1][..1] == [m0];
    assert |[m0][..0]| == 0;
    assert LookupMapping([m0], 0x1000) == Some(0);
    assert LookupMapping([m0], 0x8000) == None;
  }

  /** A request for a mapping at offset zero, and no other, reads as no request and is not even forgotten. */
  lemma OffsetZeroNeverFlushed(s: Exec, i: nat)
    requires i < |s.maps| && HandleFault(s, i).Some?
    ensures FlushPending(HandleFault(s, i).value) == HandleFault(s, i).value <==> s.maps[i].off == 0
  {
  }

  /** No superblock of mapping i survives the flush, whatever is cached. */
  ghost predicate FlushEmpties(s: Exec, i: nat)
    requires i < |s.maps|
  {
    forall code, k :: Holds(s.maps[i], k) ==> k !in FlushPending(s.(code := code)).code.vsbs
  }

  /**
   The flush asked for by the handler empties the mapping if and only if the mapping stays clear
   of both ends of the address space by a margin; otherwise the range wraps, and misses some of it.
   */
  lemma FlushExact(s: Exec, i: nat)
    requires i < |s.maps| && HandleFault(s, i).Some? && s.maps[i].len > 0 && s.maps[i].off + s.maps[i].len <= TWO64
    ensures
      var m := s.maps[i];
      FlushEmpties(HandleFault(s, i).value, i) <==> m.off >= 1024 && m.off + m.len + 1024 < TWO64
  {
    var s', m := HandleFault(s, i).value, s.maps[i];
    if m.off < MAX_CODE_BYTES {
      Survives(s', i, m.off);
    } else if m.End() + MAX_CODE_BYTES >= TWO64 {
      Survives(s', i, m.End() - 1);
    } else {
      assert m.off + TWO64 - MAX_CODE_BYTES == (m.off - MAX_CODE_BYTES) + TWO64;
    }
  }

  /** Outside the range that is flushed, or with no range at all, something may be cached afterwards. */
  lemma Survives(s: Exec, i: nat, k: nat)
    requires i < |s.maps| && Holds(s.maps[i], k)
    requires
      s.toFlush.0 == 0 ||
      !((s.toFlush.0 + TWO64 - MAX_CODE_BYTES) % TWO64 <= k <= (s.toFlush.1 + MAX_CODE_BYTES) % TWO64)
    ensures !FlushEmpties(s, i)
  {
    var code := Maps(map[k := Code(k, [])], map[], map[]);
    assert k in FlushPending(s.(code := code)).code.vsbs;
  }

  /** A store gets nowhere, faulting for ever, exactly on protected executable mappings the guest may not write. */
  lemma HungExact(s: Exec, a: nat, v: byte)
    ensures GuestWrite(s, a, v).Hung? <==>
            var at := LookupMapping(s.maps, a);
            at.Some? && !s.maps[at.value].cur.w && s.maps[at.value].req.x && !s.maps[at.value].req.w
  {
  }

  // ---- exit kinds and call depth

  function Count(rs: seq<BlockRun>, kind: byte): nat {
    if rs == [] then 0 else (if rs[0].kind == kind then 1 else 0) + Count(rs[1..], kind)
  }

  /** The state after the runs, if all of them were dispatched and went on. */
  function StepAll(s: Exec, env: Env, d: Decoder, ahead: bool, rs: seq<BlockRun>): Option<Exec>
    decreases |rs|
  {
    if rs == [] then Some(s)
    else match Step(s, env, d, ahead, rs[0])
      case Went(s', _) => StepAll(s', env, d, ahead, rs[1..])
      case _ => None
  }

  lemma StepKind(s: Exec, env: Env, d: Decoder, ahead: bool, r: BlockRun)
    requires s.exitByte == GE_IGNORE && Step(s, env, d, ahead, r).Went?
    ensures
      var w := Step(s, env, d, ahead, r).s;
      && w.exitByte == GE_IGNORE && w.next == r.next
      && Dispatch(r.kind, s.depth) == Some(w.depth)
  {
    hide GetVsb, GetFPtr, WriteAll, LookupMapping, FlushRange;
    var s1 := FlushPending(s);
    var f := GetSB(s1, env, d, s1.next, ahead);
    WritesSame(f.s, r.writes);
  }

  /**
   The exit byte is GE_IGNORE whenever a superblock is dispatched, so the kind acted on is that
   of the exit taken, and the call depth is the number of calls less the number of returns.
   */
  lemma {:induction false} DepthCounts(s: Exec, env: Env, d: Decoder, ahead: bool, rs: seq<BlockRun>)
    requires s.exitByte == GE_IGNORE && StepAll(s, env, d, ahead, rs).Some?
    ensures
      var s' := StepAll(s, env, d, ahead, rs).value;
      && s'.exitByte == GE_IGNORE
      && s'.depth == s.depth + Count(rs, GE_CALL) - Count(rs, GE_RETURN)
      && (rs != [] ==> s'.next == rs[|rs| - 1].next)
    decreases |rs|
  {
    hide Step;
    if rs != [] {
      StepKind(s, env, d, ahead, rs[0]);
      DepthCounts(Step(s, env, d, ahead, rs[0]).s, env, d, ahead, rs[1..]);
    }
  }
}
