/** Signal numbers and signal sets translated between host and target. */
module Signals {

  /** Signals are 1 to 64; the tables have a slot for each, and one for zero. */
  const NSIG: nat := 65
  const SIGRTMIN: nat := 32
  const SIGRTMAX: nat := 64

  predicate IsSignal(i: int) {
    1 <= i < NSIG
  }

  /** The table once the numbers given explicitly are in and the rest stand for themselves. */
  function Completed(given: seq<nat>): (r: seq<nat>) {
    seq(|given|, i requires 0 <= i < |given| => if i > 0 && given[i] == 0 then i else given[i])
  }

  /** The numbers given explicitly on a target with the generic numbering: 1..31 as they are, and the real-time ends swapped. */
  function Generic(): seq<nat> {
    seq(NSIG, i => if i == SIGRTMIN then SIGRTMAX else if i == SIGRTMAX then SIGRTMIN else if i < SIGRTMIN then i else 0)
  }

  /** A table that maps the signals one to one onto themselves. */
  ghost predicate OneToOne(tbl: seq<nat>) {
    && |tbl| == NSIG
    && (forall i :: IsSignal(i) ==> IsSignal(tbl[i]))
    && (forall i, j :: IsSignal(i) && IsSignal(j) && tbl[i] == tbl[j] ==> i == j)
  }

  /** Each table undoes the other. */
  ghost predicate Inverse(a: seq<nat>, b: seq<nat>) {
    && |a| == |b| == NSIG
    && (forall i :: IsSignal(i) ==> IsSignal(a[i]) && b[a[i]] == i)
    && (forall i :: IsSignal(i) ==> IsSignal(b[i]) && a[b[i]] == i)
  }

  /** Signals 32 and 64 change places, all others are themselves. */
  predicate EndsSwapped(tbl: seq<nat>) {
    |tbl| == 65 && tbl[32] == 64 && tbl[64] == 32 && forall i :: 1 <= i < 64 && i != 32 ==> tbl[i] == i
  }

  lemma GenericOneToOne()
    ensures OneToOne(Completed(Generic())) && EndsSwapped(Completed(Generic()))
  {
    forall i: nat | IsSignal(i) ensures Completed(Generic())[i] == Swapped(i) {
      GenericAt(i);
    }
    SwappedOneToOne(Completed(Generic()));
  }

  /** The generic translation of one signal: the ends of the real-time range change places. */
  function Swapped(i: nat): nat {
    if i == SIGRTMIN then SIGRTMAX else if i == SIGRTMAX then SIGRTMIN else i
  }

  lemma SwappedOneToOne(c: seq<nat>)
    requires |c| == NSIG && forall i: nat :: IsSignal(i) ==> c[i] == Swapped(i)
    ensures OneToOne(c)
  {
    assert forall i: nat :: IsSignal(i) ==> IsSignal(c[i]) && Swapped(c[i]) == i;
  }

  lemma GenericAt(i: int)
    requires IsSignal(i)
    ensures Completed(Generic())[i] == Swapped(i)
  {
  }

  // ---- counting: a one-to-one table reaches every signal

  function Below(n: nat): set<int> {
    set i | 1 <= i < n && IsSignal(i)
  }

  function Image(tbl: seq<nat>, n: nat): set<int>
    requires n <= |tbl|
  {
    set i | 1 <= i < n :: tbl[i] as int
  }

  lemma {:induction false} BelowSize(n: nat)
    requires n <= NSIG
    ensures |Below(n)| == if n == 0 then 0 else n - 1
  {
    if n <= 1 {
      assert Below(n) == {};
    } else {
      BelowSize(n - 1);
      assert Below(n) == Below(n - 1) + {n - 1};
    }
  }

  lemma {:induction false} ImageSize(tbl: seq<nat>, n: nat)
    requires OneToOne(tbl) && 1 <= n <= NSIG
    ensures |Image(tbl, n)| == n - 1 && Image(tbl, n) <= Below(NSIG)
  {
    if n == 1 {
      assert Image(tbl, n) == {};
    } else {
      ImageSize(tbl, n - 1);
      assert Image(tbl, n) == Image(tbl, n - 1) + {tbl[n - 1] as int};
      assert tbl[n - 1] as int !in Image(tbl, n - 1);
    }
  }

  /** Every signal is the translation of some signal. */
  lemma Reached(tbl: seq<nat>, t: int) returns (i: int)
    requires OneToOne(tbl) && IsSignal(t)
    ensures IsSignal(i) && tbl[i] == t
  {
    ImageSize(tbl, NSIG);
    BelowSize(NSIG);
    SameSize(Image(tbl, NSIG), Below(NSIG));
    i := Preimage(tbl, t);
  }

  lemma Preimage(tbl: seq<nat>, t: int) returns (i: int)
    requires |tbl| == NSIG && t in Image(tbl, NSIG)
    ensures IsSignal(i) && tbl[i] == t
  {
    i := 1;
    while i < NSIG - 1 && tbl[i] != t
      invariant 1 <= i < NSIG && forall k :: 1 <= k < i ==> tbl[k] != t
    {
      i := i + 1;
    }
  }

  lemma SameSize(a: set<int>, b: set<int>)
    requires a <= b && |a| == |b|
    ensures a == b
  {
    assert b == a + (b - a);
    assert |b - a| == 0;
    assert b - a == {};
  }

  /** The table turned round swaps the same two signals. */
  lemma InverseSwapped(a: seq<nat>, b: seq<nat>)
    requires Inverse(a, b) && EndsSwapped(a)
    ensures EndsSwapped(b)
  {
    assert IsSignal(32) && IsSignal(64);
    forall i | 1 <= i < 64 && i != 32 ensures b[i] == i {
      assert IsSignal(i) && a[i] == i;
    }
  }

  /** A signal number through a table; numbers past the table stay as they are. */
  function Translate(tbl: seq<nat>, sig: nat): nat {
    if sig < |tbl| then tbl[sig] else sig
  }

  /** Of two tables that undo each other, each brings back every number the other was given. */
  lemma SignalBack(a: seq<nat>, b: seq<nat>, sig: nat)
    requires Inverse(a, b) && sig > 0
    ensures Translate(b, Translate(a, sig)) == sig && Translate(a, Translate(b, sig)) == sig
  {
    if sig < NSIG {
      assert IsSignal(sig);
    }
  }

  class SignalTables {
    const hostToTarget: array<nat>
    const targetToHost: array<nat>

    constructor ()
      ensures fresh(hostToTarget) && fresh(targetToHost) && hostToTarget != targetToHost
      ensures hostToTarget[..] == targetToHost[..] == seq(NSIG, _ => 0)
    {
      hostToTarget := new nat[NSIG](_ => 0);
      targetToHost := new nat[NSIG](_ => 0);
    }

    /** The explicit entries of a target with the generic numbering. */
    method FillHostToTargetSignalTable()
      requires hostToTarget[..] == seq(NSIG, _ => 0)
      modifies hostToTarget
      ensures hostToTarget[..] == Generic()
      ensures hostToTarget.Length == 65 && hostToTarget[32] == 64 && hostToTarget[64] == 32
      ensures forall k :: 1 <= k < 32 ==> hostToTarget[k] == k
      ensures forall k :: 33 <= k < 64 ==> hostToTarget[k] == 0
    {
      var i := 1;
      while i < SIGRTMIN
        invariant 1 <= i <= SIGRTMIN && hostToTarget.Length == NSIG
        invariant forall k :: 0 <= k < NSIG ==> hostToTarget[k] == if k < i then k else 0
      {
        hostToTarget[i] := i;
        i := i + 1;
      }
      hostToTarget[SIGRTMIN] := SIGRTMAX;
      hostToTarget[SIGRTMAX] := SIGRTMIN;
    }

    /** Fills the gaps, then turns the table round: the second table undoes the first exactly when that is one to one. */
    method SignalInit()
      requires hostToTarget != targetToHost && hostToTarget.Length == targetToHost.Length == NSIG
      requires forall i :: 0 <= i < NSIG ==> hostToTarget[i] < NSIG
      modifies hostToTarget, targetToHost
      ensures hostToTarget[..] == Completed(old(hostToTarget[..]))
      ensures Inverse(hostToTarget[..], targetToHost[..]) <==> OneToOne(hostToTarget[..])
    {
      CompletedInside(hostToTarget[..]);
      hide OneToOne, Completed, Inverse;
      FillGaps();
      TurnRound();
    }

    /** Both tables as the program sets them up for a target with the generic numbering. */
    method SetUp()
      requires hostToTarget != targetToHost && hostToTarget[..] == targetToHost[..] == seq(NSIG, _ => 0)
      modifies hostToTarget, targetToHost
      ensures EndsSwapped(hostToTarget[..]) && EndsSwapped(targetToHost[..])
    {
      hide OneToOne, Inverse, EndsSwapped;
      FillHostToTargetSignalTable();
      GenericInside(hostToTarget[..]);
      SignalInit();
      GenericOneToOne();
      InverseSwapped(hostToTarget[..], targetToHost[..]);
    }

    method FillGaps()
      requires hostToTarget.Length == NSIG
      modifies hostToTarget
      ensures hostToTarget[..] == Completed(old(hostToTarget[..]))
    {
      ghost var full := Completed(hostToTarget[..]);
      var i := 1;
      while i < NSIG
        invariant 1 <= i <= NSIG
        invariant forall k :: 0 <= k < NSIG ==> hostToTarget[k] == if k < i then full[k] else old(hostToTarget[k])
      {
        if hostToTarget[i] == 0 {
          hostToTarget[i] := i;
        }
        i := i + 1;
      }
    }

    method TurnRound()
      requires hostToTarget != targetToHost && hostToTarget.Length == targetToHost.Length == NSIG
      requires forall i :: IsSignal(i) ==> IsSignal(hostToTarget[..][i])
      modifies targetToHost
      ensures Inverse(hostToTarget[..], targetToHost[..]) <==> OneToOne(hostToTarget[..])
    {
      ghost var full := hostToTarget[..];
      var i := 1;
      while i < NSIG
        invariant 1 <= i <= NSIG
        invariant OneToOne(full) ==> forall k :: 1 <= k < i ==> IsSignal(full[k]) && targetToHost[full[k]] == k
      {
        assert IsSignal(i) && IsSignal(full[i]);
        if OneToOne(full) {
          forall k | 1 <= k < i ensures full[k] != full[i] {
            Apart(full, k, i);
          }
        }
        targetToHost[hostToTarget[i]] := i;
        i := i + 1;
      }
      if OneToOne(full) {
        TurnedRound(full, targetToHost[..]);
      }
      InverseOneToOne(full, targetToHost[..]);
    }

    method HostToTargetSignal(sig: nat) returns (r: nat)
      requires hostToTarget.Length == NSIG
      ensures r == Translate(hostToTarget[..], sig)
      ensures EndsSwapped(hostToTarget[..]) && sig > 0 ==> r == if sig == 32 then 64 else if sig == 64 then 32 else sig
      ensures targetToHost.Length == NSIG && Inverse(hostToTarget[..], targetToHost[..]) && sig > 0 ==>
              Translate(targetToHost[..], r) == sig
    {
      r := if sig >= NSIG then sig else hostToTarget[sig];
      if targetToHost.Length == NSIG && Inverse(hostToTarget[..], targetToHost[..]) && sig > 0 {
        SignalBack(hostToTarget[..], targetToHost[..], sig);
      }
    }

    method TargetToHostSignal(sig: nat) returns (r: nat)
      requires targetToHost.Length == NSIG
      ensures r == Translate(targetToHost[..], sig)
      ensures EndsSwapped(targetToHost[..]) && sig > 0 ==> r == if sig == 32 then 64 else if sig == 64 then 32 else sig
      ensures hostToTarget.Length == NSIG && Inverse(hostToTarget[..], targetToHost[..]) && sig > 0 ==>
              Translate(hostToTarget[..], r) == sig
    {
      r := if sig >= NSIG then sig else targetToHost[sig];
      if hostToTarget.Length == NSIG && Inverse(hostToTarget[..], targetToHost[..]) && sig > 0 {
        SignalBack(hostToTarget[..], targetToHost[..], sig);
      }
    }

    /** The target set holds exactly the translations of the host set's signals. */
    method HostToTargetSigset(d: SigSet, s: set<int>)
      requires d.Valid() && hostToTarget.Length == NSIG && (forall i :: IsSignal(i) ==> IsSignal(hostToTarget[i]))
      requires (d.words as object) != (hostToTarget as object)
      modifies d.words
      ensures d.Valid() && d.Members() == Translated(old(hostToTarget[..]), s, NSIG)
      ensures EndsSwapped(old(hostToTarget[..])) ==> PartnersOf(d.Members(), s)
    {
      SwappedSet(hostToTarget[..], s);
      hide EndsSwapped, PartnersOf;
      d.Empty();
      var i := 1;
      while i < NSIG
        invariant 1 <= i <= NSIG && d.Valid() && hostToTarget[..] == old(hostToTarget[..])
        invariant d.Members() == Translated(hostToTarget[..], s, i)
      {
        TranslatedStep(hostToTarget[..], s, i);
        if i in s {
          var t := HostToTargetSignal(i);
          assert IsSignal(i) && IsSignal(hostToTarget[i]);
          d.Add(t);
        }
        i := i + 1;
      }
    }

    method TargetToHostSigset(s: SigSet) returns (d: set<int>)
      requires s.Valid() && targetToHost.Length == NSIG
      ensures d == Translated(targetToHost[..], s.Members(), NSIG)
      ensures EndsSwapped(targetToHost[..]) ==> PartnersOf(d, s.Members())
    {
      SwappedSet(targetToHost[..], s.Members());
      hide EndsSwapped, PartnersOf;
      d := {};
      var i := 1;
      while i < NSIG
        invariant 1 <= i <= NSIG
        invariant d == Translated(targetToHost[..], s.Members(), i)
      {
        TranslatedStep(targetToHost[..], s.Members(), i);
        var member := s.IsMember(i);
        if member {
          var h := TargetToHostSignal(i);
          d := d + {h as int};
        }
        i := i + 1;
      }
    }

    /** A host set survives the way to the target and back: its signals return, each exactly itself. */
    method ThereAndBack(d: SigSet, s: set<int>) returns (back: set<int>)
      requires d.Valid() && Inverse(hostToTarget[..], targetToHost[..])
      requires (d.words as object) != (hostToTarget as object) && (d.words as object) != (targetToHost as object)
      requires forall i :: i in s ==> IsSignal(i)
      modifies d.words
      ensures back == s
    {
      hide Translated;
      ghost var a, b := hostToTarget[..], targetToHost[..];
      InverseParts(a, b);
      hide Inverse;
      assert forall i :: IsSignal(i) ==> IsSignal(a[i]) && hostToTarget[i] == a[i];
      HostToTargetSigset(d, s);
      back := TargetToHostSigset(d);
      assert targetToHost[..] == b;
      TranslatedBack(a, b, s);
    }
  }

  /** The translations of the signals of a set below n. */
  function Translated(tbl: seq<nat>, s: set<int>, n: nat): set<int>
    requires n <= |tbl|
  {
    set i | 1 <= i < n && i in s :: tbl[i] as int
  }

  /** A signal is in one set exactly when its partner is in the other: 32 for 64, 64 for 32, and every other one for itself. */
  predicate PartnersOf(d: set<int>, s: set<int>) {
    && (32 in d <==> 64 in s) && (64 in d <==> 32 in s)
    && (forall i :: 1 <= i < 64 && i != 32 ==> (i in d <==> i in s))
    && (forall i :: i in d ==> 1 <= i <= 64)
  }

  lemma SwappedSet(tbl: seq<nat>, s: set<int>)
    requires |tbl| == NSIG
    ensures EndsSwapped(tbl) ==> PartnersOf(Translated(tbl, s, NSIG), s)
  {
    if EndsSwapped(tbl) {
      var d := Translated(tbl, s, NSIG);
      assert 32 in s ==> tbl[32] as int in d;
      assert 64 in s ==> tbl[64] as int in d;
      forall i | 1 <= i < 64 && i != 32 ensures i in d <==> i in s {
        assert i in s ==> tbl[i] as int in d;
      }
    }
  }

  lemma GenericInside(tbl: seq<nat>)
    requires tbl == Generic()
    ensures forall i :: 0 <= i < NSIG ==> tbl[i] < NSIG
  {
  }

  lemma TranslatedStep(tbl: seq<nat>, s: set<int>, i: nat)
    requires 1 <= i < |tbl|
    ensures Translated(tbl, s, i + 1) == if i in s then Translated(tbl, s, i) + {tbl[i] as int} else Translated(tbl, s, i)
    ensures Translated(tbl, s, 1) == {}
  {
  }

  lemma InverseParts(a: seq<nat>, b: seq<nat>)
    requires Inverse(a, b)
    ensures |a| == |b| == NSIG && forall i :: IsSignal(i) ==> IsSignal(a[i]) && IsSignal(b[i])
  {
  }

  lemma Apart(tbl: seq<nat>, i: int, j: int)
    requires OneToOne(tbl) && IsSignal(i) && IsSignal(j) && i != j
    ensures tbl[i] != tbl[j]
  {
  }

  lemma TurnedRound(a: seq<nat>, b: seq<nat>)
    requires OneToOne(a) && |b| == NSIG
    requires forall k :: 1 <= k < NSIG ==> IsSignal(a[k]) && b[a[k]] == k
    ensures Inverse(a, b)
  {
    forall t | IsSignal(t) ensures IsSignal(b[t]) && a[b[t]] == t {
      var h := Reached(a, t);
      assert b[a[h]] == h;
    }
    forall i | IsSignal(i) ensures IsSignal(a[i]) && b[a[i]] == i {
    }
  }

  lemma InverseOneToOne(a: seq<nat>, b: seq<nat>)
    ensures Inverse(a, b) ==> OneToOne(a)
  {
    if Inverse(a, b) {
      forall i, j | IsSignal(i) && IsSignal(j) && a[i] == a[j] ensures i == j {
        assert b[a[i]] == i && b[a[j]] == j;
      }
    }
  }

  lemma CompletedInside(given: seq<nat>)
    requires |given| == NSIG && forall i :: 0 <= i < NSIG ==> given[i] < NSIG
    ensures forall i :: IsSignal(i) ==> IsSignal(Completed(given)[i])
  {
  }

  /** Translating a set and translating it back. */
  lemma TranslatedBack(a: seq<nat>, b: seq<nat>, s: set<int>)
    requires Inverse(a, b) && forall i :: i in s ==> IsSignal(i)
    ensures Translated(b, Translated(a, s, NSIG), NSIG) == s
  {
    var t := Translated(a, s, NSIG);
    var back := Translated(b, t, NSIG);
    forall x | x in s ensures x in back {
      assert IsSignal(x) && IsSignal(a[x]) && b[a[x]] == x && a[x] as int in t;
    }
    forall x | x in back ensures x in s {
      var i :| 1 <= i < NSIG && i in t && x == b[i] as int;
      var k :| 1 <= k < NSIG && k in s && i == a[k] as int;
      assert IsSignal(k) && b[a[k]] == k;
    }
  }

  /** A set of signals in words of 32 or 64 bits; a word is the set of its one bits. */
  class SigSet {
    const bpw: nat
    const words: array<set<int>>

    ghost predicate Valid()
      reads words
    {
      (bpw == 32 || bpw == 64) && words.Length * bpw == 64 &&
      forall w :: 0 <= w < words.Length ==> forall b :: b in words[w] ==> 0 <= b < bpw
    }

    ghost function Members(): set<int>
      requires Valid()
      reads words
    {
      set i | 1 <= i < NSIG && Bit(i)
    }

    ghost predicate Bit(i: int)
      requires Valid() && IsSignal(i)
      reads words
    {
      WordOf(i, bpw, words.Length);
      (i - 1) % bpw in words[(i - 1) / bpw]
    }

    constructor (bpw: nat)
      requires bpw == 32 || bpw == 64
      ensures Valid() && this.bpw == bpw && fresh(words) && Members() == {}
    {
      this.bpw := bpw;
      words := new set<int>[64 / bpw](_ => {});
    }

    method Empty()
      requires Valid()
      modifies words
      ensures Valid() && Members() == {}
    {
      var i := 0;
      while i < words.Length
        invariant 0 <= i <= words.Length && forall w :: 0 <= w < i ==> words[w] == {}
      {
        words[i] := {};
        i := i + 1;
      }
      forall k | IsSignal(k) ensures !Bit(k) {
        WordOf(k, bpw, words.Length);
      }
    }

    method Add(signum: int)
      requires Valid() && IsSignal(signum)
      modifies words
      ensures Valid() && Members() == old(Members()) + {signum}
    {
      WordOf(signum, bpw, words.Length);
      var n := signum - 1;
      words[n / bpw] := words[n / bpw] + {n % bpw};
      forall k | IsSignal(k) ensures Bit(k) <==> old(Bit(k)) || k == signum {
        WordOf(k, bpw, words.Length);
        SamePlace(k - 1, n, bpw);
      }
    }

    method IsMember(signum: int) returns (r: bool)
      requires Valid() && IsSignal(signum)
      ensures r <==> signum in Members()
    {
      WordOf(signum, bpw, words.Length);
      var n := signum - 1;
      r := n % bpw in words[n / bpw];
    }
  }

  lemma WordOf(i: int, bpw: nat, n: nat)
    requires (bpw == 32 || bpw == 64) && n * bpw == 64 && IsSignal(i)
    ensures 0 <= (i - 1) / bpw < n && 0 <= (i - 1) % bpw < bpw
  {
  }

  lemma SamePlace(x: int, y: int, bpw: nat)
    requires bpw > 0
    ensures x / bpw == y / bpw && x % bpw == y % bpw <==> x == y
  {
    assert x == x / bpw * bpw + x % bpw && y == y / bpw * bpw + y % bpw;
  }
}
