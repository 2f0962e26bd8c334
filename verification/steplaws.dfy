/**
 How a trip round the dispatch loop ends: which exits stop the guest, which go on and at what
 call depth, which the loop gives up on, and what lookups and stores do to the mappings. The
 exit kinds are given by their numbers.
 */
module StepLaws {
  import opened Options
  import opened CodeMaps
  import opened ExecModel
  import opened Bits
  import opened Freshness
  import opened FreshRuns

  /** The loop gets as far as running a superblock, and its stores are all performed. */
  predicate RunsCode(s: Exec, env: Env, d: Decoder, ahead: bool, r: BlockRun) {
    var f := GetSB(FlushPending(s), env, d, s.next, ahead);
    !s.exited && s.next != 0 && f.Found? && WriteAll(f.s, r.writes).Fine?
  }

  /** The number the dispatcher acts on: an ordinary exit leaves what was there before. */
  function ActedOn(s: Exec, r: BlockRun): nat {
    if r.kind == 0 then s.exitByte else r.kind
  }

  predicate SystemCall(kind: nat) {
    kind == 5 || kind == 9
  }

  /** No case of the dispatcher: segmentation fault, bus error, yield, and numbers with no name. */
  predicate Unknown(kind: nat) {
    kind == 2 || kind == 3 || kind == 8 || kind > 9
  }

  /** Call depth, next address, and whether the guest has ended. */
  predicate Left(s: Exec, next: nat, depth: int, exited: bool) {
    s.exitByte == 0 && s.next == next && s.depth == depth && s.exited == exited
  }

  /**
   A superblock that is run stops the guest exactly when it ended in a system call that exits;
   then control stays where it was. Unknown kinds are given up on. All others go on at the
   target, one call deeper after a call and one less deep after a return.
   */
  lemma DispatchExact(s: Exec, env: Env, d: Decoder, ahead: bool, r: BlockRun)
    requires RunsCode(s, env, d, ahead, r)
    ensures
      var w, kind := Step(s, env, d, ahead, r), ActedOn(s, r);
      && (w.Stopped? <==> SystemCall(kind) && r.exits)
      && (w.Aborted? <==> Unknown(kind))
      && (w.Went? <==> !Unknown(kind) && !(SystemCall(kind) && r.exits))
      && (w.Stopped? ==> Left(w.s, s.next, s.depth, true))
      && (w.Went? ==>
            Left(w.s, r.next, if kind == 6 then s.depth + 1 else if kind == 7 then s.depth - 1 else s.depth, false))
      && (w.Stopped? || w.Went? ==>
            w.s.mem == WriteAll(GetSB(FlushPending(s), env, d, s.next, ahead).s, r.writes).s.mem)
  {
    hide GetVsb, GetFPtr, WriteAll, LookupMapping, FlushRange;
    var f := GetSB(FlushPending(s), env, d, s.next, ahead);
    WritesSame(f.s, r.writes);
  }

  /** A trip that runs no superblock to its end changes neither address, depth nor exit byte, and never goes on. */
  lemma NoDispatch(s: Exec, env: Env, d: Decoder, ahead: bool, r: BlockRun)
    requires !RunsCode(s, env, d, ahead, r)
    ensures
      var w := Step(s, env, d, ahead, r);
      && !w.Went?
      && (w.Stopped? <==> s.exited || s.next == 0 || GetSB(FlushPending(s), env, d, s.next, ahead).NoSB?)
      && (w.Stopped? ==> w.s.next == s.next && w.s.depth == s.depth && w.s.exitByte == s.exitByte && w.s.exited == s.exited)
  {
    hide GetVsb, GetFPtr, WriteAll, LookupMapping, FlushRange;
  }

  /** Only a system call that exits ends the guest. */
  lemma EndsOnlyByExit(s: Exec, env: Env, d: Decoder, ahead: bool, r: BlockRun)
    ensures
      var w := Step(s, env, d, ahead, r);
      && (w.Went? ==> !s.exited && Left(w.s, r.next, w.s.depth, false))
      && (w.Stopped? && w.s.exited && !s.exited ==> r.exits && Left(w.s, s.next, s.depth, true))
      && (s.exited ==> w == Stopped(s))
  {
    hide Step, GetSB, FlushPending, WriteAll, RunsCode;
    if RunsCode(s, env, d, ahead, r) {
      DispatchExact(s, env, d, ahead, r);
      NotExited(s, env, d, ahead, r);
    } else {
      NoDispatch(s, env, d, ahead, r);
    }
    if s.exited {
      StaysExited(s, env, d, ahead, r);
    }
  }

  lemma NotExited(s: Exec, env: Env, d: Decoder, ahead: bool, r: BlockRun)
    requires RunsCode(s, env, d, ahead, r)
    ensures !s.exited
  {
  }

  lemma StaysExited(s: Exec, env: Env, d: Decoder, ahead: bool, r: BlockRun)
    requires s.exited
    ensures Step(s, env, d, ahead, r) == Stopped(s)
  {
  }

  /** Once the guest has ended, every later trip stops at once and changes nothing. */
  lemma EndStays(s: Exec, env: Env, d: Decoder, ahead: bool, r: BlockRun, env': Env, d': Decoder, ahead': bool, rs: seq<BlockRun>)
    requires RunsCode(s, env, d, ahead, r) && SystemCall(ActedOn(s, r)) && r.exits && rs != []
    ensures
      var w := Step(s, env, d, ahead, r);
      && w.Stopped? && Step(w.s, env', d', ahead', rs[0]) == Stopped(w.s)
      && StepAll(w.s, env', d', ahead', rs) == None
  {
    hide GetSB, FlushPending, WriteAll;
    DispatchExact(s, env, d, ahead, r);
  }

  /**
   The loop goes through a run of superblocks if and only if each of them is found and run to its
   end, is left by a kind the dispatcher knows, and does not end the guest.
   */
  ghost predicate NoneEnds(s: Exec, env: Env, d: Decoder, ahead: bool, rs: seq<BlockRun>)
    decreases |rs|
  {
    rs == [] ||
    (RunsCode(s, env, d, ahead, rs[0]) && !Unknown(rs[0].kind) && !(SystemCall(rs[0].kind) && rs[0].exits) &&
     (Step(s, env, d, ahead, rs[0]).Went? ==> NoneEnds(Step(s, env, d, ahead, rs[0]).s, env, d, ahead, rs[1..])))
  }

  lemma {:induction false} GoesThrough(s: Exec, env: Env, d: Decoder, ahead: bool, rs: seq<BlockRun>)
    requires s.exitByte == 0
    ensures StepAll(s, env, d, ahead, rs).Some? <==> NoneEnds(s, env, d, ahead, rs)
    decreases |rs|
  {
    hide Step, RunsCode;
    if rs != [] {
      if RunsCode(s, env, d, ahead, rs[0]) {
        DispatchExact(s, env, d, ahead, rs[0]);
        if Step(s, env, d, ahead, rs[0]).Went? {
          GoesThrough(Step(s, env, d, ahead, rs[0]).s, env, d, ahead, rs[1..]);
        }
      } else {
        NoDispatch(s, env, d, ahead, rs[0]);
      }
    }
  }

  // ---- what a lookup refuses

  /** The superblock that a lookup has to go by: the cached one, or else a fresh translation. */
  function Known(s: Exec, d: Decoder, a: nat): Option<Code> {
    if a in s.code.vsbs then Some(s.code.vsbs[a]) else d(s.mem, a)
  }

  /** Mappings after a lookup: a writable one that code is taken from loses its write permission. */
  function Shut(maps: seq<Mapping>, i: nat): seq<Mapping>
    requires i < |maps|
  {
    var m := maps[i];
    if m.cur.w then maps[i := Mapping(m.off, m.len, m.req, Prot(m.req.r, false, m.req.x))] else maps
  }

  /**
   A lookup refuses exactly the addresses in mappings that may not be executed and those without
   a superblock. Then nothing has been cached, and in the first case nothing has changed. It gives
   up exactly on superblocks that reach the end of their mapping. Whatever it finds lies in no
   writable mapping afterwards.
   */
  lemma LookupOutcome(s: Exec, env: Env, d: Decoder, a: nat, ahead: bool)
    ensures
      var r, at, c := GetSB(s, env, d, a, ahead), LookupMapping(s.maps, a), Known(s, d, a);
      var barred := at.Some? && !s.maps[at.value].req.x;
      && (r.NoSB? <==> barred || c.None?)
      && (r.NoSB? ==> r.s == if barred || at.None? then s else s.(maps := Shut(s.maps, at.value)))
      && (r.Abort? <==> !barred && c.Some? && at.Some? && a + |c.value.bytes| >= s.maps[at.value].off + s.maps[at.value].len)
      && (r.Found? ==>
            && c == Some(r.c) && r.s.mem == s.mem && r.s.toFlush == s.toFlush
            && r.s.maps == if at.None? then s.maps else Shut(s.maps, at.value))
      && (at.Some? && !barred ==> !Shut(s.maps, at.value)[at.value].cur.w)
  {
    hide LookupMapping, GetFPtr, Evict, Victim;
  }

  /**
   A store outside write-protected mappings just happens. One that faults on an executable mapping
   opens it, for writing if the guest may write there, and never for execution; it asks for the
   whole mapping to be flushed. On other mappings it is the end of the process.
   */
  lemma StoreOutcome(s: Exec, a: nat, v: byte)
    ensures
      var r, at := GuestWrite(s, a, v), LookupMapping(s.maps, a);
      if at.None? || s.maps[at.value].cur.w then r == Fine(s.(mem := s.mem[a := v]))
      else
        var m := s.maps[at.value];
        && (r.Died? <==> !m.req.x)
        && (r.Hung? <==> m.req.x && !m.req.w)
        && (r.Fine? ==>
              r.s == s.(mem := s.mem[a := v], toFlush := (m.off, m.off + m.len),
                        maps := s.maps[at.value := Mapping(m.off, m.len, m.req, Prot(m.req.r, true, false))]))
  {
    hide LookupMapping;
  }

  /** After the stores of a run an address holds what the last store to it put there ... */
  lemma {:induction false} StoresLand(s: Exec, ws: seq<(nat, byte)>, i: nat)
    requires WriteAll(s, ws).Fine? && i < |ws| && forall k :: i < k < |ws| ==> ws[k].0 != ws[i].0
    ensures ws[i].0 in WriteAll(s, ws).s.mem && WriteAll(s, ws).s.mem[ws[i].0] == ws[i].1
    decreases |ws|
  {
    hide WriteAll, GuestWrite;
    var rest := ws[1..];
    var s1 := FirstStore(s, ws);
    if i == 0 {
      StoresMiss(s1, rest, ws[0].0);
    } else {
      assert rest[i - 1] == ws[i];
      StoresLand(s1, rest, i - 1);
    }
  }

  /** ... and what it held before if there was none. */
  lemma {:induction false} StoresMiss(s: Exec, ws: seq<(nat, byte)>, a: nat)
    requires WriteAll(s, ws).Fine? && forall k :: 0 <= k < |ws| ==> ws[k].0 != a
    ensures a in WriteAll(s, ws).s.mem <==> a in s.mem
    ensures a in s.mem ==> WriteAll(s, ws).s.mem[a] == s.mem[a]
    decreases |ws|
  {
    if ws == [] {
    } else {
      hide WriteAll, GuestWrite;
      var s1 := FirstStore(s, ws);
      StoresMiss(s1, ws[1..], a);
    }
  }

  lemma FirstStore(s: Exec, ws: seq<(nat, byte)>) returns (s1: Exec)
    requires WriteAll(s, ws).Fine? && ws != []
    ensures WriteAll(s1, ws[1..]) == WriteAll(s, ws) && s1.mem == s.mem[ws[0].0 := ws[0].1]
  {
    hide LookupMapping;
    s1 := GuestWrite(s, ws[0].0, ws[0].1).s;
  }

  /** Whatever a lookup finds has compiled code filed at its address, which is that of the superblock found. */
  lemma FoundCompiled(s: Exec, env: Env, d: Decoder, a: nat, ahead: bool)
    requires CodeOk(s, env) && GoodDecoder(d) && GetSB(s, env, d, a, ahead).Found?
    ensures
      var r := GetSB(s, env, d, a, ahead);
      a in r.s.code.jits && r.s.code.jits[a] == Ptr(Fn(r.c))
  {
    hide LookupMapping, GetVsb, GetFPtr, Translator, Agreed, GoodEnv, GoodDecoder, GoodXlate;
    var tr := Translator(d, s.mem);
    TranslatorGood(d, s.mem);
    GetSBParts(s, env, d, a, ahead);
    GetVsbKeeps(s.code, env, a, tr);
    var code1 := GetVsb(s.code, env, a, tr).0;
    GetFPtrKeeps(code1, env, a, tr, ahead);
  }
}
