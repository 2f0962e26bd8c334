/**
 Stores between two dispatches: which write-protected mappings they open up, which of those
 the one remembered request covers, and exactly when nothing cached goes out of date unnoticed.
 */
module Tampering {
  import opened Options
  import opened Bits
  import opened DirectMapped
  import opened ExecModel
  import opened Freshness

  /** The mapping that a store to a faults on, in the protections of maps. */
  function FaultOn(maps: seq<Mapping>, a: nat): Option<nat> {
    var at := LookupMapping(maps, a);
    if at.Some? && !maps[at.value].cur.w then at else None
  }

  /** The mappings opened so far, in the order of their first faults, after one more store. */
  function Hit(maps: seq<Mapping>, seen: seq<nat>, a: nat): seq<nat> {
    var at := FaultOn(maps, a);
    if at.None? || at.value in seen then seen else seen + [at.value]
  }

  function HitAll(maps: seq<Mapping>, seen: seq<nat>, ws: seq<(nat, byte)>): seq<nat>
    decreases |ws|
  {
    if ws == [] then seen else HitAll(maps, Hit(maps, seen, ws[0].0), ws[1..])
  }

  /** The protected mappings that the stores hit, each once, in the order in which they are first hit. */
  function Opened(s: Exec, ws: seq<(nat, byte)>): seq<nat> {
    HitAll(s.maps, [], ws)
  }

  /** No two stores hit different protected mappings. */
  predicate OneProtected(maps: seq<Mapping>, ws: seq<(nat, byte)>) {
    forall j, k :: 0 <= j < |ws| && 0 <= k < |ws| && FaultOn(maps, ws[j].0).Some? && FaultOn(maps, ws[k].0).Some? ==>
      FaultOn(maps, ws[j].0) == FaultOn(maps, ws[k].0)
  }

  /** Nothing is cached from a mapping. */
  predicate Bare(s: Exec, i: nat) {
    forall k :: k in s.code.vsbs ==> LookupMapping(s.maps, k) != Some(i)
  }

  /** Of the mappings the stores open, only the one opened last may have anything cached. */
  predicate NoneLost(s: Exec, ws: seq<(nat, byte)>) {
    var o := Opened(s, ws);
    forall j :: 0 <= j < |o| - 1 ==> Bare(s, o[j])
  }

  // ---- what a run of stores leaves of the mappings and of the request

  predicate SameRange(m: Mapping, m': Mapping) {
    m'.off == m.off && m'.len == m.len && m'.req == m.req
  }

  /** s is s0 with the listed mappings opened; the request is for the one opened last. */
  ghost predicate Track(s0: Exec, o: seq<nat>, s: Exec) {
    && |s.maps| == |s0.maps|
    && (forall i :: 0 <= i < |s0.maps| ==> SameRange(s0.maps[i], s.maps[i]))
    && (forall i :: 0 <= i < |s0.maps| ==> s.maps[i].cur.w == (s0.maps[i].cur.w || i in o))
    && (forall j :: 0 <= j < |o| ==> o[j] < |s0.maps| && !s0.maps[o[j]].cur.w && s0.maps[o[j]].len > 0)
    && (forall j, k :: 0 <= j < k < |o| ==> o[j] != o[k])
    && s.toFlush == (if o == [] then s0.toFlush else (s0.maps[o[|o| - 1]].off, s0.maps[o[|o| - 1]].End()))
    && (forall a :: LookupMapping(s.maps, a) == LookupMapping(s0.maps, a))
    && Same(s0, s)
  }

  lemma TrackStart(s: Exec)
    ensures Track(s, [], s)
  {
  }

  /** A request is for a mapping that was opened exactly when that was opened last. */
  lemma PendingLast(s0: Exec, o: seq<nat>, s: Exec, i: nat)
    requires Track(s0, o, s) && MapsOk(s0.maps) && s0.toFlush.0 == 0 && i < |s0.maps| && s0.maps[i].len > 0
    ensures Pending(s, i) <==> o != [] && i == o[|o| - 1]
  {
    hide LookupMapping;
    if o != [] && i != o[|o| - 1] {
      RangesApart(s0.maps, i, o[|o| - 1]);
    }
  }

  lemma RangesApart(maps: seq<Mapping>, i: nat, j: nat)
    requires MapsOk(maps) && i < |maps| && j < |maps| && i != j && maps[i].len > 0 && maps[j].len > 0
    ensures (maps[i].off, maps[i].End()) != (maps[j].off, maps[j].End())
  {
    if i < j {
    } else {
    }
  }

  lemma TrackStep(s0: Exec, o: seq<nat>, s: Exec, a: nat, v: byte)
    requires Track(s0, o, s) && GuestWrite(s, a, v).Fine?
    ensures Track(s0, Hit(s0.maps, o, a), GuestWrite(s, a, v).s)
  {
    var at := LookupMapping(s.maps, a);
    assert at == LookupMapping(s0.maps, a);
    if at.Some? && !s.maps[at.value].cur.w {
      OpenOne(s0, o, s, at.value);
      hide LookupMapping;
      StoreOne(s0, o + [at.value], HandleFault(s, at.value).value, a, v);
    } else {
      StoreOne(s0, o, s, a, v);
    }
  }

  lemma StoreOne(s0: Exec, o: seq<nat>, s: Exec, a: nat, v: byte)
    requires Track(s0, o, s)
    ensures Track(s0, o, s.(mem := s.mem[a := v]))
  {
  }

  lemma OpenOne(s0: Exec, o: seq<nat>, s: Exec, i: nat)
    requires Track(s0, o, s) && i < |s.maps| && !s.maps[i].cur.w && s.maps[i].len > 0
    requires HandleFault(s, i).Some? && HandleFault(s, i).value.maps[i].cur.w
    ensures Track(s0, o + [i], HandleFault(s, i).value)
  {
    var p := s.maps[i].req.(x := false);
    var maps' := s.maps[i := s.maps[i].(cur := p)];
    forall b ensures LookupMapping(maps', b) == LookupMapping(s.maps, b) {
      LookupCur(s.maps, i, p, b);
    }
    hide LookupMapping;
    assert SameRange(s0.maps[i], s.maps[i]);
    var s', o' := HandleFault(s, i).value, o + [i];
    forall j | 0 <= j < |s0.maps| ensures SameRange(s0.maps[j], s'.maps[j]) && s'.maps[j].cur.w == (s0.maps[j].cur.w || j in o') {
      assert SameRange(s0.maps[j], s.maps[j]);
    }
  }

  /** A store is safe for the request exactly when it opens nothing, or opens the first mapping. */
  lemma OneFaultIs(s0: Exec, o: seq<nat>, s: Exec, a: nat)
    requires Track(s0, o, s) && MapsOk(s0.maps) && s0.toFlush.0 == 0
    ensures OneFault(s, a) <==> |Hit(s0.maps, o, a)| <= 1 || Hit(s0.maps, o, a) == o
  {
    var at := LookupMapping(s0.maps, a);
    assert LookupMapping(s.maps, a) == at;
    hide LookupMapping;
    if at.Some? && s0.maps[at.value].len > 0 {
      PendingLast(s0, o, s, at.value);
    }
    if o != [] {
      assert s.toFlush.0 == s0.maps[o[|o| - 1]].off > 0;
    }
  }

  lemma {:induction false} HitGrows(maps: seq<Mapping>, o: seq<nat>, ws: seq<(nat, byte)>)
    ensures o <= HitAll(maps, o, ws)
    decreases |ws|
  {
    if ws != [] {
      HitGrows(maps, Hit(maps, o, ws[0].0), ws[1..]);
    }
  }

  /** The stores one after the other. */
  lemma {:induction false} TrackAll(s0: Exec, o: seq<nat>, s: Exec, ws: seq<(nat, byte)>)
    requires Track(s0, o, s) && MapsOk(s0.maps) && s0.toFlush.0 == 0 && WriteAll(s, ws).Fine?
    ensures Track(s0, HitAll(s0.maps, o, ws), WriteAll(s, ws).s)
    ensures |o| <= 1 ==> (OneFaultAll(s, ws) <==> |HitAll(s0.maps, o, ws)| <= 1)
    decreases |ws|
  {
    hide Track, GuestWrite, OneFault, Hit, MapsOk;
    if ws != [] {
      var s' := GuestWrite(s, ws[0].0, ws[0].1).s;
      var o' := Hit(s0.maps, o, ws[0].0);
      TrackStep(s0, o, s, ws[0].0, ws[0].1);
      OneFaultIs(s0, o, s, ws[0].0);
      TrackAll(s0, o', s', ws[1..]);
      HitGrows(s0.maps, o', ws[1..]);
    }
  }

  /** The opened mappings are those that are hit while protected. */
  lemma {:induction false} HitAre(maps: seq<Mapping>, o: seq<nat>, ws: seq<(nat, byte)>, i: nat)
    ensures i in HitAll(maps, o, ws) <==> i in o || exists j :: 0 <= j < |ws| && FaultOn(maps, ws[j].0) == Some(i)
    decreases |ws|
  {
    hide FaultOn;
    if ws != [] {
      var o' := Hit(maps, o, ws[0].0);
      HitAre(maps, o', ws[1..], i);
      assert i in o' <==> i in o || FaultOn(maps, ws[0].0) == Some(i);
      if j :| 0 <= j < |ws| && FaultOn(maps, ws[j].0) == Some(i) {
        if j > 0 {
          assert ws[1..][j - 1] == ws[j];
        }
      }
      if j :| 0 <= j < |ws[1..]| && FaultOn(maps, ws[1..][j].0) == Some(i) {
        assert ws[j + 1] == ws[1..][j];
      }
    }
  }

  lemma OneProtectedIs(s: Exec, ws: seq<(nat, byte)>)
    requires var o := Opened(s, ws); forall j, k :: 0 <= j < k < |o| ==> o[j] != o[k]
    ensures OneProtected(s.maps, ws) <==> |Opened(s, ws)| <= 1
  {
    var o := Opened(s, ws);
    hide FaultOn, HitAll;
    forall i: nat ensures i in o <==> exists j :: 0 <= j < |ws| && FaultOn(s.maps, ws[j].0) == Some(i) {
      HitAre(s.maps, [], ws, i);
    }
    if |o| > 1 {
      assert o[0] in o && o[1] in o;
      var j :| 0 <= j < |ws| && FaultOn(s.maps, ws[j].0) == Some(o[0]);
      var k :| 0 <= k < |ws| && FaultOn(s.maps, ws[k].0) == Some(o[1]);
    } else {
      forall j, k | 0 <= j < |ws| && 0 <= k < |ws| && FaultOn(s.maps, ws[j].0).Some? && FaultOn(s.maps, ws[k].0).Some?
        ensures FaultOn(s.maps, ws[j].0) == FaultOn(s.maps, ws[k].0)
      {
        assert FaultOn(s.maps, ws[j].0).value in o && FaultOn(s.maps, ws[k].0).value in o;
      }
    }
  }

  /**
   When nothing is pending, no request is overwritten exactly when no two stores hit different
   protected mappings; and exactly then every mapping found open afterwards is waiting for its flush.
   */
  lemma OneFaultExact(s: Exec, ws: seq<(nat, byte)>)
    requires MapsOk(s.maps) && s.toFlush.0 == 0 && WriteAll(s, ws).Fine?
    ensures |WriteAll(s, ws).s.maps| == |s.maps|
    ensures OneFaultAll(s, ws) <==> OneProtected(s.maps, ws)
    ensures OneFaultAll(s, ws) <==>
            var s' := WriteAll(s, ws).s;
            forall i :: 0 <= i < |s.maps| && !s.maps[i].cur.w && s'.maps[i].cur.w ==> Pending(s', i)
  {
    hide Pending, MapsOk, OneProtected, OneFaultAll, HitAll, LookupMapping, WriteAll;
    TrackStart(s);
    TrackAll(s, [], s, ws);
    OneProtectedIs(s, ws);
    var s', o := WriteAll(s, ws).s, Opened(s, ws);
    forall i: nat | i < |s.maps| && s.maps[i].len > 0 ensures Pending(s', i) <==> o != [] && i == o[|o| - 1] {
      PendingLast(s, o, s', i);
    }
    if |o| > 1 {
      assert o[0] in o && !Pending(s', o[0]);
    }
  }

  // ---- what is cached

  /** What is cached from mappings not opened is up to date; nothing the stores did reached it. */
  ghost predicate Untouched(s0: Exec, o: seq<nat>, s: Exec, d: Decoder) {
    forall k :: k in s0.code.vsbs ==>
      var at := LookupMapping(s0.maps, k);
      at.Some? && at.value !in o ==> d(s.mem, k) == Some(s0.code.vsbs[k])
  }

  lemma UntouchedStart(s: Exec, d: Decoder)
    requires Settled(s, d)
    ensures Untouched(s, [], s, d)
  {
    forall k | k in s.code.vsbs && LookupMapping(s.maps, k).Some? ensures d(s.mem, k) == Some(s.code.vsbs[k]) {
      assert Safe(s, d, k);
      NotPending(s, LookupMapping(s.maps, k).value);
    }
  }

  lemma SettledShut(s: Exec, d: Decoder, k: nat)
    requires Settled(s, d) && k in s.code.vsbs && LookupMapping(s.maps, k).Some?
    ensures !s.maps[LookupMapping(s.maps, k).value].cur.w
    ensures k + |s.code.vsbs[k].bytes| < s.maps[LookupMapping(s.maps, k).value].End()
    ensures s.maps[LookupMapping(s.maps, k).value].len > 0
  {
    assert Safe(s, d, k);
    NotPending(s, LookupMapping(s.maps, k).value);
  }

  lemma UntouchedStep(s0: Exec, o: seq<nat>, s: Exec, d: Decoder, a: nat, v: byte)
    requires Settled(s0, d) && GoodDecoder(d) && Track(s0, o, s) && Untouched(s0, o, s, d) && GuestWrite(s, a, v).Fine?
    ensures Untouched(s0, Hit(s0.maps, o, a), GuestWrite(s, a, v).s, d)
  {
    var s', o' := GuestWrite(s, a, v).s, Hit(s0.maps, o, a);
    assert s'.mem == s.mem[a := v];
    hide GoodDecoder, GuestWrite, Track, Fresh;
    forall k | k in s0.code.vsbs && LookupMapping(s0.maps, k).Some? && LookupMapping(s0.maps, k).value !in o'
      ensures d(s'.mem, k) == Some(s0.code.vsbs[k])
    {
      SettledShut(s0, d, k);
      assert LookupMapping(s0.maps, a) != LookupMapping(s0.maps, k);
      ApartText(s0, d, k, a);
      TextKept(d, s.mem, a, v, k, s0.code.vsbs[k]);
    }
  }

  lemma {:induction false} UntouchedAll(s0: Exec, o: seq<nat>, s: Exec, d: Decoder, ws: seq<(nat, byte)>)
    requires Settled(s0, d) && GoodDecoder(d) && Track(s0, o, s) && Untouched(s0, o, s, d) && WriteAll(s, ws).Fine?
    ensures Untouched(s0, HitAll(s0.maps, o, ws), WriteAll(s, ws).s, d)
    decreases |ws|
  {
    hide Settled, GoodDecoder, Track, Untouched, GuestWrite, Hit;
    if ws != [] {
      var s' := GuestWrite(s, ws[0].0, ws[0].1).s;
      TrackStep(s0, o, s, ws[0].0, ws[0].1);
      UntouchedStep(s0, o, s, d, ws[0].0, ws[0].1);
      UntouchedAll(s0, Hit(s0.maps, o, ws[0].0), s', d, ws[1..]);
    }
  }

  /**
   From a settled state the stores keep everything cached up to date or waiting for its flush
   exactly when every mapping they open, other than the one they open last, has nothing cached.
   */
  lemma WritesExact(s: Exec, d: Decoder, ws: seq<(nat, byte)>)
    requires Settled(s, d) && GoodDecoder(d) && WriteAll(s, ws).Fine?
    ensures Fresh(WriteAll(s, ws).s, d) <==> NoneLost(s, ws)
    ensures Same(s, WriteAll(s, ws).s)
  {
    hide GoodDecoder, LookupMapping, WriteAll, HitAll;
    var s', o := WriteAll(s, ws).s, Opened(s, ws);
    TrackStart(s);
    TrackAll(s, [], s, ws);
    UntouchedStart(s, d);
    UntouchedAll(s, [], s, d, ws);
    TrackMaps(s, o, s');
    forall k | k in s.code.vsbs
      ensures Safe(s', d, k) <==>
              var at := LookupMapping(s.maps, k); at.Some? && at.value in o ==> at.value == o[|o| - 1]
    {
      SafeAfter(s, o, s', d, k);
    }
    hide Track, Untouched, Safe, Settled, MapsOk;
    LostOrNot(s, o, s', d);
  }

  lemma TrackMaps(s: Exec, o: seq<nat>, s': Exec)
    requires Track(s, o, s') && MapsOk(s.maps)
    ensures MapsOk(s'.maps)
  {
    forall i | 0 <= i < |s.maps| ensures s'.maps[i].off == s.maps[i].off && s'.maps[i].End() == s.maps[i].End() {
      assert SameRange(s.maps[i], s'.maps[i]);
    }
  }

  lemma SafeAfter(s: Exec, o: seq<nat>, s': Exec, d: Decoder, k: nat)
    requires Settled(s, d) && Track(s, o, s') && Untouched(s, o, s', d) && k in s.code.vsbs
    ensures k in s'.code.vsbs
    ensures Safe(s', d, k) <==>
            var at := LookupMapping(s.maps, k); at.Some? && at.value in o ==> at.value == o[|o| - 1]
  {
    var at := LookupMapping(s.maps, k);
    assert LookupMapping(s'.maps, k) == at;
    if at.Some? {
      SettledShut(s, d, k);
      PendingLast(s, o, s', at.value);
      assert SameRange(s.maps[at.value], s'.maps[at.value]);
    }
  }

  lemma LostOrNot(s: Exec, o: seq<nat>, s': Exec, d: Decoder)
    requires MapsOk(s'.maps) && s'.code == s.code && (forall j, k :: 0 <= j < k < |o| ==> o[j] != o[k])
    requires forall k :: k in s.code.vsbs ==>
      (Safe(s', d, k) <==> var at := LookupMapping(s.maps, k); at.Some? && at.value in o ==> at.value == o[|o| - 1])
    ensures Fresh(s', d) <==> forall j :: 0 <= j < |o| - 1 ==> Bare(s, o[j])
  {
    hide Safe, LookupMapping;
    if Fresh(s', d) {
      forall j, k | 0 <= j < |o| - 1 && k in s.code.vsbs ensures LookupMapping(s.maps, k) != Some(o[j]) {
        assert Safe(s', d, k);
      }
    }
    if forall j :: 0 <= j < |o| - 1 ==> Bare(s, o[j]) {
      forall k | k in s'.code.vsbs ensures Safe(s', d, k) {
        var at := LookupMapping(s.maps, k);
        if at.Some? && at.value in o {
          var j :| 0 <= j < |o| && o[j] == at.value;
          HasCached(s, k, o[j]);
        }
      }
    }
  }

  lemma HasCached(s: Exec, k: nat, i: nat)
    requires k in s.code.vsbs && LookupMapping(s.maps, k) == Some(i)
    ensures !Bare(s, i)
  {
  }

  /** Stores that fault on one mapping at most lose nothing. */
  lemma OneFaultLosesNone(s: Exec, ws: seq<(nat, byte)>)
    requires MapsOk(s.maps) && s.toFlush.0 == 0 && WriteAll(s, ws).Fine? && OneFaultAll(s, ws)
    ensures NoneLost(s, ws)
  {
    TrackStart(s);
    TrackAll(s, [], s, ws);
  }

  /** What is cached inside no write-protected mapping stays so whatever is stored: nothing will ever ask for its flush. */
  lemma OpenStays(s: Exec, d: Decoder, ws: seq<(nat, byte)>, k: nat)
    requires MapsOk(s.maps) && s.toFlush.0 == 0 && WriteAll(s, ws).Fine? && k in s.code.vsbs
    requires LookupMapping(s.maps, k).Some?
    requires
      var m := s.maps[LookupMapping(s.maps, k).value];
      m.cur.w || k + |s.code.vsbs[k].bytes| >= m.End()
    ensures !Fresh(WriteAll(s, ws).s, d)
  {
    hide WriteAll, HitAll;
    var s', o, i := WriteAll(s, ws).s, Opened(s, ws), LookupMapping(s.maps, k).value;
    TrackStart(s);
    TrackAll(s, [], s, ws);
    assert LookupMapping(s'.maps, k) == Some(i) && SameRange(s.maps[i], s'.maps[i]);
    PendingLast(s, o, s', i);
    hide LookupMapping;
    assert !Safe(s', d, k);
  }
}
