/** The direct-mapped cache that stands in front of each translation map. */
module DirectMapped {
  import opened Options

  /** An address with what was last put for it; the empty cache holds address 0 and nothing. */
  datatype Entry<+T> = Entry(ptr: nat, t: Option<T>)

  const SLOTS: nat := 4096

  /** The two low address bits are ignored. */
  function SlotOf(p: nat): (i: nat)
    ensures i < SLOTS
  {
    p / 4 % SLOTS
  }

  /** Every entry sits in its slot, and none disagrees with the map behind the cache. */
  predicate Agrees<T(==)>(ents: seq<Entry<T>>, m: map<nat, T>) {
    |ents| == SLOTS &&
    forall i :: 0 <= i < SLOTS && ents[i].t.Some? ==>
      SlotOf(ents[i].ptr) == i && ents[i].ptr in m && m[ents[i].ptr] == ents[i].t.value
  }

  function Find<T>(m: map<nat, T>, p: nat): Option<T> {
    if p in m then Some(m[p]) else None
  }

  class DirectCache<T(==)> {
    const ents: array<Entry<T>>

    constructor ()
      ensures fresh(ents) && Agrees(ents[..], map[])
    {
      ents := new Entry<T>[SLOTS](_ => Entry(0, None));
    }

    method Put(p: nat, t: Option<T>)
      requires ents.Length == SLOTS
      modifies ents
      ensures ents[..] == old(ents[..])[p / 4 % 4096 := Entry(p, t)]
    {
      ents[SlotOf(p)] := Entry(p, t);
    }

    /** Only an entry for this very address counts, whatever else shares its slot. */
    method Get(p: nat) returns (t: Option<T>)
      requires ents.Length == SLOTS
      ensures t == Hit(ents[..], p)
    {
      var e := ents[SlotOf(p)];
      t := if e.ptr == p then e.t else None;
    }

    method Flush()
      requires ents.Length == SLOTS
      modifies ents
      ensures ents[..] == seq(SLOTS, i => Entry(0, None))
    {
      var i := 0;
      while i < SLOTS
        invariant 0 <= i <= SLOTS && forall k :: 0 <= k < i ==> ents[k] == Entry(0, None)
      {
        ents[i] := Entry(0, None);
        i := i + 1;
      }
    }
  }

  function Hit<T>(ents: seq<Entry<T>>, p: nat): Option<T>
    requires |ents| == SLOTS
  {
    if ents[SlotOf(p)].ptr == p then ents[SlotOf(p)].t else None
  }

  /** What the program does to a cache and its map: cached lookup, insertion, removal, clearing, overwriting with nothing. */
  datatype Op<T> = Lookup(p: nat) | Insert(p: nat, v: T) | Remove(p: nat) | Forget(p: nat) | Clear

  datatype Both<T> = Both(ents: seq<Entry<T>>, m: map<nat, T>)

  /** Lookup goes to the direct cache, then to the map, and then fills the direct cache. */
  function Apply<T>(s: Both<T>, op: Op<T>): Both<T>
    requires |s.ents| == SLOTS
  {
    match op
    case Lookup(p) =>
      if Hit(s.ents, p).None? && p in s.m then s.(ents := s.ents[SlotOf(p) := Entry(p, Some(s.m[p]))]) else s
    case Insert(p, v) => Both(s.ents[SlotOf(p) := Entry(p, Some(v))], s.m[p := v])
    case Remove(p) => Both(s.ents[SlotOf(p) := Entry(p, None)], s.m - {p})
    case Forget(p) => s.(ents := s.ents[SlotOf(p) := Entry(p, None)])
    case Clear => Both(seq(SLOTS, i => Entry(0, None)), map[])
  }

  function Answer<T>(s: Both<T>, p: nat): Option<T>
    requires |s.ents| == SLOTS
  {
    if Hit(s.ents, p).Some? then Hit(s.ents, p) else Find(s.m, p)
  }

  function ApplyAll<T>(s: Both<T>, ops: seq<Op<T>>): (r: Both<T>)
    requires |s.ents| == SLOTS
    ensures |r.ents| == SLOTS
    decreases |ops|
  {
    if ops == [] then s else ApplyAll(Apply(s, ops[0]), ops[1..])
  }

  /** The same operations on the map alone. */
  function Plain<T>(m: map<nat, T>, ops: seq<Op<T>>): map<nat, T>
    decreases |ops|
  {
    if ops == [] then m
    else
      var m' :=
        match ops[0]
        case Insert(p, v) => m[p := v]
        case Remove(p) => m - {p}
        case Clear => map[]
        case _ => m;
      Plain(m', ops[1..])
  }

  lemma {:induction false} RunAgrees<T>(s: Both<T>, ops: seq<Op<T>>)
    requires Agrees(s.ents, s.m)
    ensures var r := ApplyAll(s, ops); Agrees(r.ents, r.m) && r.m == Plain(s.m, ops)
    decreases |ops|
  {
    if ops != [] {
      RunAgrees(Apply(s, ops[0]), ops[1..]);
    }
  }

  /** The cache is invisible: after any operations every cached lookup is a plain map lookup. */
  lemma CacheInvisible<T>(s: Both<T>, ops: seq<Op<T>>, p: nat)
    requires Agrees(s.ents, s.m)
    ensures Answer(ApplyAll(s, ops), p) == Find(Plain(s.m, ops), p)
  {
    RunAgrees(s, ops);
  }

  lemma DropAgrees<T>(ents: seq<Entry<T>>, m: map<nat, T>, p: nat)
    requires Agrees(ents, m)
    ensures Agrees(ents[SlotOf(p) := Entry(p, None)], m - {p})
  {
  }

  /** A new address may be added to the map without telling the cache. */
  lemma AddAgrees<T>(ents: seq<Entry<T>>, m: map<nat, T>, p: nat, v: T)
    requires Agrees(ents, m) && (p in m ==> m[p] == v)
    ensures Agrees(ents, m[p := v])
  {
  }

  lemma PutAgrees<T>(ents: seq<Entry<T>>, m: map<nat, T>, p: nat, v: T)
    requires Agrees(ents, m)
    ensures Agrees(ents[SlotOf(p) := Entry(p, Some(v))], m[p := v])
  {
  }
}
