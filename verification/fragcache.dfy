/**
 The fragment cache: for every fragment length a file of sorted fragments and a buffer of
 fragments not yet written, together holding a set.
 */
module FragCaches {
  import opened Bits

  type Frag = seq<byte>

  // ---- memcmp

  /** Bytes compared from the front; fragments of one file have one length. */
  predicate Less(a: Frag, b: Frag)
    decreases |a|
  {
    if a == [] || b == [] then a == [] && b != []
    else a[0] < b[0] || (a[0] == b[0] && Less(a[1..], b[1..]))
  }

  /** Of two fragments of one length the smaller one is that with the smaller byte where they first differ. */
  lemma {:induction false} LessFirst(a: Frag, b: Frag)
    requires |a| == |b|
    ensures Less(a, b) <==> exists k :: 0 <= k < |a| && a[..k] == b[..k] && a[k] < b[k]
    decreases |a|
  {
    if a != [] {
      var x, y := a[1..], b[1..];
      LessFirst(x, y);
      if Less(a, b) {
        if a[0] < b[0] {
          assert a[..0] == b[..0];
        } else {
          var k :| 0 <= k < |x| && x[..k] == y[..k] && x[k] < y[k];
          assert a[..k + 1] == [a[0]] + x[..k] && b[..k + 1] == [b[0]] + y[..k] && a[k + 1] == x[k];
        }
      }
      if k :| 0 <= k < |a| && a[..k] == b[..k] && a[k] < b[k] {
        if k > 0 {
          assert a[0] == a[..k][0] == b[..k][0] == b[0];
          assert x[..k - 1] == a[..k][1..] == b[..k][1..] == y[..k - 1];
        }
      }
    }
  }

  lemma {:induction false} LessTotal(a: Frag, b: Frag)
    ensures !(Less(a, b) && Less(b, a)) && (Less(a, b) || Less(b, a) || a == b)
    ensures a == b ==> !Less(a, b)
    decreases |a|
  {
    if a != [] && b != [] {
      LessTotal(a[1..], b[1..]);
      assert a == [a[0]] + a[1..] && b == [b[0]] + b[1..];
    }
  }

  lemma {:induction false} LessTrans(a: Frag, b: Frag, c: Frag)
    requires Less(a, b) && Less(b, c)
    ensures Less(a, c)
    decreases |a|
  {
    if a != [] && a[0] == b[0] && b[0] == c[0] {
      LessTrans(a[1..], b[1..], c[1..]);
    }
  }

  /** Strictly ascending: sorted, and nothing twice. */
  predicate Ascends(s: seq<Frag>) {
    forall i, j :: 0 <= i < j < |s| ==> Less(s[i], s[j])
  }

  function Insert(f: Frag, s: seq<Frag>): seq<Frag> {
    if s == [] || Less(f, s[0]) then [f] + s else [s[0]] + Insert(f, s[1..])
  }

  /** What sorting a file leaves. */
  function Sorted(s: seq<Frag>): seq<Frag> {
    if s == [] then [] else Insert(s[0], Sorted(s[1..]))
  }

  lemma {:induction false} InsertHolds(f: Frag, s: seq<Frag>, x: Frag)
    ensures x in Insert(f, s) <==> x == f || x in s
    ensures |Insert(f, s)| == |s| + 1
    decreases |s|
  {
    if s != [] && !Less(f, s[0]) {
      InsertHolds(f, s[1..], x);
    }
  }

  lemma {:induction false} InsertAscends(f: Frag, s: seq<Frag>)
    requires Ascends(s) && f !in s
    ensures Ascends(Insert(f, s))
    decreases |s|
  {
    if s != [] {
      LessTotal(f, s[0]);
      var rest := s[1..];
      if Less(f, s[0]) {
        forall j | 0 <= j < |s| ensures Less(f, s[j]) {
          if j > 0 {
            LessTrans(f, s[0], s[j]);
          }
        }
      } else {
        InsertAscends(f, rest);
        var r := Insert(f, rest);
        forall j | 0 <= j < |r| ensures Less(s[0], r[j]) {
          InsertHolds(f, rest, r[j]);
          if r[j] != f {
            var k :| 0 <= k < |rest| && rest[k] == r[j];
            assert s[k + 1] == r[j];
          }
        }
      }
    }
  }

  predicate Distinct(s: seq<Frag>) {
    forall i, j :: 0 <= i < j < |s| ==> s[i] != s[j]
  }

  /** Sorting keeps the fragments, and puts distinct ones in ascending order. */
  lemma {:induction false} SortedOk(s: seq<Frag>)
    ensures |Sorted(s)| == |s| && forall x :: x in Sorted(s) <==> x in s
    ensures Distinct(s) ==> Ascends(Sorted(s))
    decreases |s|
  {
    if s != [] {
      SortedOk(s[1..]);
      forall x ensures x in Sorted(s) <==> x in s {
        InsertHolds(s[0], Sorted(s[1..]), x);
        assert s == [s[0]] + s[1..];
      }
      InsertHolds(s[0], Sorted(s[1..]), s[0]);
      if Distinct(s) {
        assert s[0] !in s[1..];
        InsertAscends(s[0], Sorted(s[1..]));
      }
    }
  }

  const FLUSH_FCF_TRIGGER: nat := 1024

  class FCFile {
    const len: nat
    var mapped: seq<Frag>
    var buffer: seq<Frag>

    /** The file is sorted, no fragment is held twice, and the buffer has not outgrown its bound. */
    ghost predicate Valid()
      reads this
    {
      Ascends(mapped) && Distinct(mapped + buffer) && |buffer| <= FLUSH_FCF_TRIGGER
    }

    ghost function Contents(): set<Frag>
      reads this
    {
      set f | f in mapped + buffer
    }

    /** Opens a file as it was left. */
    constructor (len: nat, onDisk: seq<Frag>)
      requires len > 0 && Ascends(onDisk)
      ensures Valid() && this.len == len && mapped == onDisk && buffer == []
      ensures Contents() == set f | f in onDisk
    {
      this.len, mapped, buffer := len, onDisk, [];
      new;
      AscendsDistinct(onDisk);
      assert onDisk + [] == onDisk;
    }

    /** Binary search. */
    method ContainsFile(f: Frag) returns (found: bool)
      requires Ascends(mapped)
      ensures found <==> f in mapped
    {
      var lo, hi := 0, |mapped|;
      while lo < hi
        invariant 0 <= lo <= hi <= |mapped|
        invariant forall i :: 0 <= i < |mapped| && !(lo <= i < hi) ==> mapped[i] != f
      {
        var mid := (lo + hi) / 2;
        LessTotal(f, mapped[mid]);
        if Less(f, mapped[mid]) {
          forall i | mid <= i < |mapped| ensures mapped[i] != f {
            NotBeyond(mapped, f, mid, i);
          }
          hi := mid;
        } else if Less(mapped[mid], f) {
          forall i | 0 <= i <= mid ensures mapped[i] != f {
            NotBefore(mapped, f, mid, i);
          }
          lo := mid + 1;
        } else {
          return true;
        }
      }
      found := false;
    }

    method ContainsBuffer(f: Frag) returns (found: bool)
      ensures found <==> f in buffer
    {
      var i := 0;
      while i < |buffer|
        invariant 0 <= i <= |buffer| && f !in buffer[..i]
      {
        if f == buffer[i] {
          return true;
        }
        i := i + 1;
      }
      found := false;
    }

    method Contains(f: Frag) returns (found: bool)
      requires Valid()
      ensures found <==> f in Contents()
    {
      found := ContainsFile(f);
      if !found {
        found := ContainsBuffer(f);
      }
    }

    /** Appends the buffer to the file and sorts the file: nothing is lost, nothing is invented. */
    method Flush()
      requires Ascends(mapped) && Distinct(mapped + buffer)
      modifies this
      ensures Valid() && buffer == [] && Contents() == old(Contents()) && |mapped| == old(|mapped| + |buffer|)
    {
      if |buffer| == 0 {
        return;
      }
      var i := 0;
      ghost var all := mapped + buffer;
      while i < |buffer|
        invariant 0 <= i <= |buffer| && mapped + buffer[i..] == all && buffer == old(buffer)
      {
        mapped := mapped + [buffer[i]];
        i := i + 1;
      }
      assert mapped == all;
      buffer := [];
      SortedOk(mapped);
      mapped := Sorted(mapped);
      AscendsDistinct(mapped);
      assert mapped + [] == mapped;
    }

    /** The program asserts that the fragment is new. */
    method Add(f: Frag)
      requires Valid() && f !in Contents()
      modifies this
      ensures Valid() && Contents() == old(Contents()) + {f}
      ensures |mapped| + |buffer| == old(|mapped| + |buffer|) + 1
      ensures old(|buffer|) < 1024 ==> mapped == old(mapped) && buffer == old(buffer) + [f]
      ensures old(|buffer|) == 1024 ==> buffer == []
    {
      DistinctMore(mapped + buffer, f);
      assert mapped + (buffer + [f]) == mapped + buffer + [f];
      buffer := buffer + [f];
      if |buffer| > FLUSH_FCF_TRIGGER {
        Flush();
      }
    }
  }

  lemma AscendsDistinct(s: seq<Frag>)
    requires Ascends(s)
    ensures Distinct(s)
  {
    forall i, j | 0 <= i < j < |s| ensures s[i] != s[j] {
      LessTotal(s[i], s[j]);
    }
  }

  lemma DistinctMore(s: seq<Frag>, f: Frag)
    requires Distinct(s) && f !in s
    ensures Distinct(s + [f])
  {
  }

  lemma NotBeyond(s: seq<Frag>, f: Frag, mid: nat, i: nat)
    requires Ascends(s) && mid <= i < |s| && Less(f, s[mid])
    ensures s[i] != f
  {
    if mid < i {
      LessTrans(f, s[mid], s[i]);
    }
    LessTotal(f, s[i]);
  }

  lemma NotBefore(s: seq<Frag>, f: Frag, mid: nat, i: nat)
    requires Ascends(s) && i <= mid < |s| && Less(s[mid], f)
    ensures s[i] != f
  {
    if i < mid {
      LessTrans(s[i], s[mid], f);
    }
    LessTotal(s[i], f);
  }

  // ---- all lengths

  class FragCache {
    var cachetab: seq<FCFile?>
    /** The files as they are on disk before they are opened. */
    const onDisk: nat -> seq<Frag>

    ghost function Repr(): set<object>
      reads this
    {
      {this} + set i | 0 <= i < |cachetab| && cachetab[i] != null :: cachetab[i] as object
    }

    ghost predicate Valid()
      reads Repr()
    {
      && (forall i, j :: 0 <= i < j < |cachetab| && cachetab[i] != null ==> cachetab[i] != cachetab[j])
      && (forall i :: 0 <= i < |cachetab| && cachetab[i] != null ==> cachetab[i].Valid() && cachetab[i].len == i)
      && (forall n :: Ascends(onDisk(n)))
    }

    /** The fragments of one length: of the open file, or of the file on disk. */
    ghost function Held(n: nat): set<Frag>
      reads Repr()
    {
      if n < |cachetab| && cachetab[n] != null then cachetab[n].Contents() else set f | f in onDisk(n)
    }

    constructor (onDisk: nat -> seq<Frag>)
      requires forall n :: Ascends(onDisk(n))
      ensures Valid() && fresh(Repr()) && forall n :: Held(n) == set f | f in onDisk(n)
    {
      this.onDisk, cachetab := onDisk, [];
    }

    method GetFCFile(n: nat) returns (r: FCFile)
      requires Valid() && n > 0
      modifies this
      ensures Valid() && fresh(Repr() - old(Repr()))
      ensures n < |cachetab| && cachetab[n] == r
      ensures forall k :: Held(k) == old(Held(k))
    {
      if |cachetab| > n && cachetab[n] != null {
        r := cachetab[n];
      } else {
        r := new FCFile(n, onDisk(n));
        if |cachetab| <= n {
          cachetab := cachetab + seq(n + 1 - |cachetab|, _ => null);
        }
        cachetab := cachetab[n := r];
      }
    }

    /** True exactly when the fragment was not there before. */
    method AddFragment(f: Frag) returns (added: bool)
      requires Valid() && f != []
      modifies Repr()
      ensures Valid() && fresh(Repr() - old(Repr()))
      ensures added <==> f !in old(Held(|f|))
      ensures forall k :: Held(k) == if k == |f| then old(Held(k)) + {f} else old(Held(k))
    {
      var fcf := GetFCFile(|f|);
      var found := fcf.Contains(f);
      if found {
        return false;
      }
      fcf.Add(f);
      added := true;
    }

    /** One fragment after the other, as they are translated. */
    method AddFragments(fs: seq<Frag>) returns (answers: seq<bool>)
      requires Valid() && forall f :: f in fs ==> f != []
      modifies Repr()
      ensures Valid() && fresh(Repr() - old(Repr()))
      ensures answers == Answers((set f | f in fs && f in old(Held(|f|))), fs)
      ensures forall k :: Held(k) == old(Held(k)) + Sized(fs, k)
    {
      hide Ascends, FCFile.Valid, FCFile.Contents, Sized, Answers, Valid, Held;
      ghost var held := set f | f in fs && f in Held(|f|);
      SizedStart(fs);
      answers := [];
      var i := 0;
      while i < |fs|
        invariant 0 <= i <= |fs| && Valid() && fresh(Repr() - old(Repr()))
        invariant forall k :: Held(k) == old(Held(k)) + Sized(fs[..i], k)
        invariant |answers| == i
        invariant forall j :: 0 <= j < i ==> (answers[j] <==> fs[j] !in held && fs[j] !in fs[..j])
      {
        assert fs[i] in fs;
        var added := AddFragment(fs[i]);
        SizedStep(fs, i);
        SizedHas(fs, i);
        answers := answers + [added];
        i := i + 1;
      }
      assert fs[..|fs|] == fs;
      AnswersAre(held, fs, answers);
    }
  }

  /** The fragments of one length. */
  function Sized(fs: seq<Frag>, k: nat): set<Frag> {
    set f | f in fs && |f| == k
  }

  lemma SizedStart(fs: seq<Frag>)
    ensures forall k: nat :: Sized(fs[..0], k) == {}
  {
  }

  lemma SizedHas(fs: seq<Frag>, i: nat)
    requires i < |fs|
    ensures fs[i] in Sized(fs[..i], |fs[i]|) <==> fs[i] in fs[..i]
  {
  }

  lemma SizedStep(fs: seq<Frag>, i: nat)
    requires i < |fs|
    ensures forall k: nat :: Sized(fs[..i + 1], k) == if k == |fs[i]| then Sized(fs[..i], k) + {fs[i]} else Sized(fs[..i], k)
  {
    assert fs[..i + 1] == fs[..i] + [fs[i]];
  }

  /** The answers to a run of additions, starting from the fragments held. */
  function Answers(held: set<Frag>, fs: seq<Frag>): (r: seq<bool>)
    ensures |r| == |fs|
    decreases |fs|
  {
    if fs == [] then [] else [fs[0] !in held] + Answers(held + {fs[0]}, fs[1..])
  }

  /** A fragment is reported as new exactly once: the first time, and only if it was not there at the start. */
  lemma {:induction false} AddedOnce(held: set<Frag>, fs: seq<Frag>, i: nat)
    requires i < |fs|
    ensures Answers(held, fs)[i] <==> fs[i] !in held && fs[i] !in fs[..i]
    decreases |fs|
  {
    if i > 0 {
      AddedOnce(held + {fs[0]}, fs[1..], i - 1);
      assert fs[1..][i - 1] == fs[i];
      assert fs[..i] == [fs[0]] + fs[1..][..i - 1];
    }
  }

  /** Answers that are right one by one are the answers. */
  lemma AnswersAre(held: set<Frag>, fs: seq<Frag>, answers: seq<bool>)
    requires |answers| == |fs|
    requires forall j :: 0 <= j < |fs| ==> (answers[j] <==> fs[j] !in held && fs[j] !in fs[..j])
    ensures answers == Answers(held, fs)
  {
    forall j | 0 <= j < |fs| ensures answers[j] == Answers(held, fs)[j] {
      AddedOnce(held, fs, j);
    }
  }
}
