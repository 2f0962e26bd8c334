/** The dispatch loop as the program runs it, on top of the translation caches. */
module VexExecs {
  import opened Options
  import opened ExitKinds
  import opened Bits
  import opened DirectMapped
  import opened CodeMaps
  import opened CodeCaches
  import opened ExecModel
  import opened Freshness
  import opened AheadMaps
  import opened AheadFreshness
  import StepLaws

  datatype Verdict = Continue | Stop | AbortRun | LoseRun

  class VexExec {
    const cache: CodeCache
    const decoder: Decoder
    /** Guest and host addresses coincide. */
    const sameAddresses: bool
    var mem: Mem
    var maps: seq<Mapping>
    var toFlush: (nat, nat)
    var nextAddr: nat
    var exitType: byte
    var callDepth: int
    var exited: bool

    ghost function Repr(): set<object> {
      {this} + cache.Repr()
    }

    ghost predicate Valid()
      reads Repr()
    {
      this !in cache.Repr() && cache.Ready() && GoodDecoder(decoder) && NothingAtNull()
    }

    /** Eviction asserts that no superblock sits at address zero; so nothing may ever be translated there. */
    ghost predicate NothingAtNull()
      reads cache
    {
      0 !in cache.vsbCache && forall mem :: decoder(mem, 0).None?
    }

    ghost function State(): Exec
      reads this, cache
    {
      Exec(mem, maps, cache.State(), toFlush, nextAddr, exitType, callDepth, exited)
    }

    constructor (cache: CodeCache, decoder: Decoder, sameAddresses: bool, mem: Mem, maps: seq<Mapping>, entry: nat)
      requires cache.Ready() && GoodDecoder(decoder) && cache.State() == NoCode
      requires forall mem :: decoder(mem, 0).None?
      ensures Valid() && this.cache == cache && this.decoder == decoder && this.sameAddresses == sameAddresses
      ensures State() == Exec(mem, maps, NoCode, (0, 0), entry, GE_IGNORE, 0, false)
    {
      this.cache, this.decoder, this.sameAddresses := cache, decoder, sameAddresses;
      this.mem, this.maps, toFlush, nextAddr := mem, maps, (0, 0), entry;
      exitType, callDepth, exited := GE_IGNORE, 0, false;
    }

    method FlushTamperedCode(begin: nat, end: nat)
      modifies this`toFlush
      ensures toFlush == (begin, end)
    {
      toFlush := (begin, end);
    }

    method FindMapping(a: nat) returns (r: Option<nat>)
      ensures r == LookupMapping(maps, a)
    {
      var i := 0;
      while i < |maps|
        invariant 0 <= i <= |maps| && LookupMapping(maps[..i], a) == None
      {
        assert maps[..i + 1][..i] == maps[..i];
        if Holds(maps[i], a) {
          FirstMapping(maps, i, a);
          return Some(i);
        }
        i := i + 1;
      }
      assert maps[..i] == maps;
      r := None;
    }

    /** The handler; false when the process gives up. */
    method SignalHandler(i: nat) returns (handled: bool)
      requires i < |maps|
      modifies this`maps, this`toFlush
      ensures handled <==> HandleFault(old(State()), i).Some?
      ensures State() == if handled then HandleFault(old(State()), i).value else old(State())
    {
      var m := maps[i];
      handled := m.req.x && !m.cur.w;
      if handled {
        maps := maps[i := m.(cur := m.req.(x := false))];
        FlushTamperedCode(m.off, m.End());
      }
    }

    method Store(a: nat, v: byte) returns (ok: bool)
      modifies this`maps, this`toFlush, this`mem
      ensures ok <==> GuestWrite(old(State()), a, v).Fine?
      ensures ok ==> State() == GuestWrite(old(State()), a, v).s
      ensures cache.State() == old(cache.State())
    {
      var at := FindMapping(a);
      if at.None? || maps[at.value].cur.w {
        mem := mem[a := v];
        return true;
      }
      var i := at.value;
      var handled := SignalHandler(i);
      ok := handled && maps[i].cur.w;
      if ok {
        mem := mem[a := v];
      }
    }

    /** What running the translated code does to memory and to the exit byte. */
    method DoVexSB(r: BlockRun) returns (ok: bool)
      modifies this`maps, this`toFlush, this`mem, this`exitType
      ensures ok <==> WriteAll(old(State()), r.writes).Fine?
      ensures ok ==>
        var s := WriteAll(old(State()), r.writes).s;
        State() == s.(exitByte := if r.kind == GE_IGNORE then s.exitByte else r.kind)
    {
      hide GuestWrite;
      ghost var s0 := State();
      var i := 0;
      ok := true;
      while i < |r.writes|
        invariant 0 <= i <= |r.writes|
        invariant WriteAll(State(), r.writes[i..]) == WriteAll(s0, r.writes)
      {
        assert r.writes[i..][0] == r.writes[i] && r.writes[i..][1..] == r.writes[i + 1..];
        var fine := Store(r.writes[i].0, r.writes[i].1);
        if !fine {
          return false;
        }
        i := i + 1;
      }
      assert r.writes[i..] == [];
      if r.kind != GE_IGNORE {
        exitType := r.kind;
      }
    }

    /** Write-protects a mapping before code in it is translated. */
    method ProtectMapping(i: nat)
      requires i < |maps|
      modifies this`maps
      ensures State() == Protect(old(State()), i)
    {
      var m := maps[i];
      if m.cur.w {
        maps := maps[i := m.(cur := m.req.(w := false))];
      }
    }

    /** Finds or makes the superblock at a, and compiles it. */
    method Obtain(a: nat) returns (c: Option<Code>)
      requires Valid() && a != 0
      modifies cache.Repr()
      ensures
        var env, tr := old(cache.Surroundings()), Translator(decoder, mem);
        var (m1, c1) := GetVsb(old(cache.State()), env, a, tr);
        c == c1 && cache.State() == if c1.None? then m1 else GetFPtr(m1, env, a, tr, sameAddresses).0
      ensures cache.Surroundings() == old(cache.Surroundings())
      ensures !sameAddresses || old(Fits(cache.State(), cache.Surroundings(), Translator(decoder, mem), a)) ==>
        cache.Ready() && 0 !in cache.vsbCache
    {
      hide GetVsb, GetFPtr, GoodDecoder, Agreed, GoodEnv, GoodXlate, Agrees, AllocVsb, Kept, Fits;
      ghost var env := cache.Surroundings();
      TranslatorGood(decoder, mem);
      var tr := Translator(decoder, mem);
      TranslatorIs(decoder, mem, 0);
      NoNullVsb(cache.State(), env, a, tr);
      GetVsbKeeps(cache.State(), env, a, tr);
      VsbFirst(cache.State(), env, tr, a, true);
      if Fits(cache.State(), env, tr, a) {
        AheadKeeps(cache.State(), env, tr, a);
      }
      c := cache.GetVSB(a, tr);
      if c.Some? {
        ghost var m := cache.State();
        GetFPtrKeeps(m, env, a, tr, sameAddresses);
        var p := cache.GetFPtr(a, tr, sameAddresses);
        if !sameAddresses {
          CompileOnly(m, env, a, tr);
        }
      }
    }

    /** Protects the mapping, finds or makes the superblock, and compiles it. */
    method GetSBFromGuestAddr(a: nat) returns (c: Option<Code>, aborted: bool)
      requires Valid() && a != 0
      modifies Repr()
      ensures
        match GetSB(old(State()), old(cache.Surroundings()), decoder, a, sameAddresses)
        case Found(s, b) => !aborted && c == Some(b) && State() == s
        case NoSB(s) => !aborted && c == None && State() == s
        case Abort => aborted
      ensures cache.Surroundings() == old(cache.Surroundings())
      ensures !sameAddresses || old(AheadFits(State(), cache.Surroundings(), decoder, a)) ==> Valid()
    {
      hide GetVsb, GetFPtr, LookupMapping, GoodDecoder, Agreed, GoodEnv, Agrees, Translator, Protect;
      aborted, c := false, None;
      var at := FindMapping(a);
      if at.Some? {
        if !maps[at.value].req.x {
          return;
        }
        ProtectMapping(at.value);
        ProtectLen(old(State()), at.value);
      }
      c := Obtain(a);
      if c.Some? {
        aborted := at.Some? && a + |c.value.bytes| >= maps[at.value].End();
      }
    }

    /** One trip round the dispatch loop; r is what the translated code will do. */
    method DoNextSB(r: BlockRun) returns (v: Verdict, vsb: Option<Code>)
      requires Valid()
      modifies Repr()
      ensures
        match Step(old(State()), old(cache.Surroundings()), decoder, sameAddresses, r)
        case Went(s, c) => v == Continue && vsb == Some(c) && State() == s
        case Stopped(s) => v == Stop && State() == s
        case Aborted => v == AbortRun
        case Lost => v == LoseRun
      ensures v == Continue ==> !old(exited) && !exited && exitType == 0 && nextAddr == r.next
      ensures v == Stop && exited && !old(exited) ==>
        r.exits && exitType == 0 && nextAddr == old(nextAddr) && callDepth == old(callDepth)
      ensures old(exited) ==> v == Stop && State() == old(State())
      ensures cache.Surroundings() == old(cache.Surroundings())
      ensures
        var s1 := FlushPending(old(State()));
        !sameAddresses || AheadFits(s1, old(cache.Surroundings()), decoder, s1.next) ==> Valid()
    {
      hide GetSB, LookupMapping, GoodDecoder, CodeCache.Ready, RunOf, FlushPending, Step, AheadFits;
      vsb := None;
      StepLaws.EndsOnlyByExit(State(), cache.Surroundings(), decoder, sameAddresses, r);
      StepIs(State(), cache.Surroundings(), decoder, sameAddresses, r);
      if exited {
        return Stop, None;
      }
      ApplyFlush();
      if nextAddr == 0 {
        return Stop, None;
      }
      var aborted;
      vsb, aborted := GetSBFromGuestAddr(nextAddr);
      if aborted {
        return AbortRun, None;
      }
      if vsb.None? {
        return Stop, None;
      }
      v := RunSB(r, vsb.value);
    }

    /** Runs the translated code and acts on its exit. */
    method RunSB(r: BlockRun, ghost c: Code) returns (v: Verdict)
      modifies this
      ensures
        match RunOf(old(State()), r, c)
        case Went(s, c') => v == Continue && c' == c && State() == s
        case Stopped(s) => v == Stop && State() == s
        case Aborted => v == AbortRun
        case Lost => v == LoseRun
      ensures cache.State() == old(cache.State())
    {
      hide WriteAll, AfterRun;
      ghost var s := State();
      var ok := DoVexSB(r);
      if !ok {
        return LoseRun;
      }
      AfterRunKind(WriteAll(s, r.writes).s, r, c);
      v := HandleExit(r, c);
    }

    /** The exit byte decides how to go on, and is reset. */
    method HandleExit(r: BlockRun, ghost c: Code) returns (v: Verdict)
      modifies this`callDepth, this`exitType, this`exited, this`nextAddr
      ensures
        match AfterRun(old(State()), r.(kind := GE_IGNORE), c)
        case Went(s, _) => v == Continue && State() == s
        case Stopped(s) => v == Stop && State() == s
        case Aborted => v == AbortRun
        case Lost => v == LoseRun
      ensures v == Stop <==> StepLaws.SystemCall(old(exitType)) && r.exits
      ensures v == AbortRun <==> StepLaws.Unknown(old(exitType))
      ensures v == Stop || v == AbortRun || v == Continue
      ensures v == Stop ==> StepLaws.Left(State(), old(nextAddr), old(callDepth), true)
      ensures v == Continue ==> exited == old(exited) && exitType == 0 && nextAddr == r.next
      ensures v == Continue ==>
        callDepth == old(callDepth) + (if old(exitType) == 6 then 1 else 0) - (if old(exitType) == 7 then 1 else 0)
    {
      v := Continue;
      if exitType == GE_CALL {
        callDepth := callDepth + 1;
      } else if exitType == GE_RETURN {
        callDepth := callDepth - 1;
      } else if exitType == GE_INT || exitType == GE_SYSCALL {
        if r.exits {
          exited := true;
          exitType := GE_IGNORE;
          return Stop;
        }
      } else if exitType != GE_IGNORE && exitType != GE_SIGTRAP && exitType != GE_EMWARN {
        return AbortRun;
      }
      exitType := GE_IGNORE;
      nextAddr := r.next;
    }

    method ApplyFlush()
      requires Valid()
      modifies Repr()
      ensures Valid() && State() == FlushPending(old(State())) && cache.Surroundings() == old(cache.Surroundings())
    {
      hide GoodDecoder, CodeCache.Ready, FlushRange;
      if toFlush.0 != 0 {
        FlushCache((toFlush.0 + TWO64 - MAX_CODE_BYTES) % TWO64, (toFlush.1 + MAX_CODE_BYTES) % TWO64);
        toFlush := (0, 0);
      }
    }

    method FlushCache(begin: nat, end: nat)
      requires cache.Ready()
      modifies cache.Repr()
      ensures cache.Ready() && cache.State() == FlushRange(old(cache.State()), begin, end)
      ensures cache.vsbCache.Keys <= old(cache.vsbCache).Keys && cache.Surroundings() == old(cache.Surroundings())
    {
      hide Agreed, GoodEnv, Agrees;
      FlushRangeKeeps(cache.State(), begin, end);
      cache.FlushRange(begin, end);
    }
  }

  /** The run of a superblock that was found. */
  function RunOf(s: Exec, r: BlockRun, c: Code): Stepped {
    match WriteAll(s, r.writes)
    case Fine(s') => AfterRun(s', r, c)
    case _ => Lost
  }

  lemma StepIs(s: Exec, env: Env, d: Decoder, ahead: bool, r: BlockRun)
    ensures
      var s1 := FlushPending(s);
      Step(s, env, d, ahead, r) ==
        if s.exited then Stopped(s)
        else if s1.next == 0 then Stopped(s1)
        else match GetSB(s1, env, d, s1.next, ahead)
          case Abort => Aborted
          case NoSB(s2) => Stopped(s2)
          case Found(s2, c) => RunOf(s2, r, c)
  {
    hide GetSB, WriteAll, AfterRun, FlushPending;
  }

  lemma ProtectLen(s: Exec, i: nat)
    requires i < |s.maps|
    ensures |Protect(s, i).maps| == |s.maps| && Protect(s, i).mem == s.mem && Protect(s, i).code == s.code
  {
  }

  /** Whether the kind is in the exit byte already or still with the run makes no difference. */
  lemma AfterRunKind(s: Exec, r: BlockRun, c: Code)
    ensures
      AfterRun(s, r, c) ==
      AfterRun(s.(exitByte := if r.kind == GE_IGNORE then s.exitByte else r.kind), r.(kind := GE_IGNORE), c)
    ensures AfterRun(s, r, c).Went? ==> AfterRun(s, r, c).c == c
  {
  }

  /** The first mapping that holds an address is the one looked up. */
  lemma {:induction false} FirstMapping(maps: seq<Mapping>, i: nat, a: nat)
    requires i < |maps| && LookupMapping(maps[..i], a) == None && Holds(maps[i], a)
    ensures LookupMapping(maps, a) == Some(i)
    decreases |maps|
  {
    var n := |maps| - 1;
    if i < n {
      assert maps[..n][..i] == maps[..i];
      FirstMapping(maps[..n], i, a);
    }
  }
}
