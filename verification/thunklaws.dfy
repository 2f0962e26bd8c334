/**
 What conversion guarantees: it writes the leaves and nothing else, it keeps numbers, and
 converting there and back restores an object exactly when its longs fit the narrower side.
 */
module ThunkLaws {
  import opened Bits
  import opened Wrapping
  import opened ThunkTypes
  import opened ThunkLayout
  import opened ThunkConversion

  /** Byte j belongs to some leaf; the other bytes of an object are padding. */
  predicate Covers(abi: Abi, ls: seq<Leaf>, side: Side, j: nat) {
    exists i :: 0 <= i < |ls| && At(ls[i], side) <= j < At(ls[i], side) + Width(abi, ls[i], side)
  }

  lemma {:induction false} AscendingInside(abi: Abi, ls: seq<Leaf>, side: Side, lo: nat, hi: nat)
    requires Ascending(abi, ls, side, lo, hi)
    ensures lo <= hi && Inside(abi, ls, side, hi)
    ensures forall i :: 0 <= i < |ls| ==> lo <= At(ls[i], side)
    decreases |ls|
  {
    hide Width;
    if ls != [] {
      AscendingInside(abi, ls[1..], side, At(ls[0], side) + Width(abi, ls[0], side), hi);
      forall i | 0 <= i < |ls| ensures lo <= At(ls[i], side) && At(ls[i], side) + Width(abi, ls[i], side) <= hi {
        if i > 0 {
          assert ls[i] == ls[1..][i - 1];
        }
      }
    }
  }

  lemma InsideMore(abi: Abi, ls: seq<Leaf>, side: Side, len: nat, len': nat)
    requires Inside(abi, ls, side, len) && len <= len'
    ensures Inside(abi, ls, side, len')
  {
    hide Width;
  }

  /** Nothing below the first leaf is written. */
  lemma {:induction false} ApplyBelow(abi: Abi, ls: seq<Leaf>, to: Side, src: seq<byte>, dst: seq<byte>, lo: nat, j: nat)
    requires Inside(abi, ls, Other(to), |src|) && Inside(abi, ls, to, |dst|)
    requires (forall i :: 0 <= i < |ls| ==> lo <= At(ls[i], to)) && j < lo && j < |dst|
    ensures Apply(abi, ls, to, src, dst)[j] == dst[j]
    decreases |ls|
  {
    hide Width, LeafBytes;
    if ls != [] {
      ApplyBelow(abi, ls[1..], to, src, Splice(dst, At(ls[0], to), LeafBytes(abi, ls[0], to, src)), lo, j);
    }
  }

  /** Every leaf arrives, and every byte that is not part of a leaf stays. */
  lemma {:induction false} ApplyWrites(abi: Abi, ls: seq<Leaf>, to: Side, src: seq<byte>, dst: seq<byte>, lo: nat, hi: nat)
    requires Ascending(abi, ls, to, lo, hi) && hi <= |dst|
    requires Inside(abi, ls, Other(to), |src|) && Inside(abi, ls, to, |dst|)
    ensures
      var r := Apply(abi, ls, to, src, dst);
      && (forall i :: 0 <= i < |ls| ==>
            Part(r, At(ls[i], to), Width(abi, ls[i], to)) == LeafBytes(abi, ls[i], to, src))
      && (forall j :: 0 <= j < |dst| && !Covers(abi, ls, to, j) ==> r[j] == dst[j])
    decreases |ls|
  {
    hide Width, LeafBytes, Splice;
    if ls != [] {
      var first, rest := ls[0], ls[1..];
      var at, w := At(first, to), Width(abi, first, to);
      var dst' := Splice(dst, at, LeafBytes(abi, first, to, src));
      ApplyWrites(abi, rest, to, src, dst', at + w, hi);
      AscendingInside(abi, rest, to, at + w, hi);
      var r := Apply(abi, ls, to, src, dst);
      forall i | 0 <= i < |ls| ensures Part(r, At(ls[i], to), Width(abi, ls[i], to)) == LeafBytes(abi, ls[i], to, src) {
        if i > 0 {
          assert ls[i] == rest[i - 1];
        } else {
          FirstStays(abi, rest, to, src, dst', at, w, r, LeafBytes(abi, first, to, src));
        }
      }
      forall j | 0 <= j < |dst| && !Covers(abi, ls, to, j) ensures r[j] == dst[j] {
        NotCovered(abi, ls, to, j);
      }
    }
  }

  lemma NotCovered(abi: Abi, ls: seq<Leaf>, side: Side, j: nat)
    requires ls != [] && !Covers(abi, ls, side, j)
    ensures !Covers(abi, ls[1..], side, j) && !(At(ls[0], side) <= j < At(ls[0], side) + Width(abi, ls[0], side))
  {
    hide Width;
    forall i | 0 <= i < |ls[1..]|
      ensures !(At(ls[1..][i], side) <= j < At(ls[1..][i], side) + Width(abi, ls[1..][i], side))
    {
      assert ls[1..][i] == ls[i + 1];
    }
  }

  lemma FirstStays(abi: Abi, rest: seq<Leaf>, to: Side, src: seq<byte>, dst: seq<byte>, at: nat, w: nat, r: seq<byte>, bs: seq<byte>)
    requires Inside(abi, rest, Other(to), |src|) && Inside(abi, rest, to, |dst|)
    requires at + w <= |dst| && |bs| == w && r == Apply(abi, rest, to, src, dst)
    requires forall j :: at <= j < at + w ==> dst[j] == bs[j - at]
    requires forall i :: 0 <= i < |rest| ==> at + w <= At(rest[i], to)
    ensures Part(r, at, w) == bs
  {
    hide Width, Apply;
    forall j | at <= j < at + w ensures r[j] == bs[j - at] {
      ApplyBelow(abi, rest, to, src, dst, at + w, j);
    }
  }

  /** The object at so on one side becomes the object at dest on side to. */
  function Converted(abi: Abi, reg: seq<Entry>, t: Ty, to: Side, src: seq<byte>, so: nat, dst: seq<byte>, dest: nat): (r: seq<byte>)
    requires RegOk(abi, reg) && ThunkTypes.Below(t, |reg|)
    requires so + Size(abi, reg, t, Other(to)) <= |src| && dest + Size(abi, reg, t, to) <= |dst|
    ensures |r| == |dst|
  {
    var ls := LeavesAt(abi, reg, t, to, so, dest);
    LeavesFit(abi, reg, t, to, so, dest, |src|, |dst|);
    Apply(abi, ls, to, src, dst)
  }

  function LeavesAt(abi: Abi, reg: seq<Entry>, t: Ty, to: Side, so: nat, dest: nat): seq<Leaf>
    requires RegOk(abi, reg) && ThunkTypes.Below(t, |reg|)
  {
    if to == Host then Leaves(abi, reg, |reg|, t, so, dest) else Leaves(abi, reg, |reg|, t, dest, so)
  }

  lemma LeavesFit(abi: Abi, reg: seq<Entry>, t: Ty, to: Side, so: nat, dest: nat, sl: nat, dl: nat)
    requires RegOk(abi, reg) && ThunkTypes.Below(t, |reg|)
    requires so + Size(abi, reg, t, Other(to)) <= sl && dest + Size(abi, reg, t, to) <= dl
    ensures
      var ls := LeavesAt(abi, reg, t, to, so, dest);
      && Ascending(abi, ls, to, dest, dest + Size(abi, reg, t, to))
      && Ascending(abi, ls, Other(to), so, so + Size(abi, reg, t, Other(to)))
      && Inside(abi, ls, Other(to), sl) && Inside(abi, ls, to, dl)
  {
    hide Leaves, Size, RegOk, Ascending, Inside;
    var ot, oh := if to == Host then so else dest, if to == Host then dest else so;
    LeavesAscend(abi, reg, |reg|, t, ot, oh, Host);
    LeavesAscend(abi, reg, |reg|, t, ot, oh, Target);
    var ls := LeavesAt(abi, reg, t, to, so, dest);
    AscendingInside(abi, ls, to, dest, dest + Size(abi, reg, t, to));
    AscendingInside(abi, ls, Other(to), so, so + Size(abi, reg, t, Other(to)));
    InsideMore(abi, ls, to, dest + Size(abi, reg, t, to), dl);
    InsideMore(abi, ls, Other(to), so + Size(abi, reg, t, Other(to)), sl);
  }

  /** Conversion writes inside the destination object only, and there it leaves the padding alone. */
  lemma ConversionFrame(abi: Abi, reg: seq<Entry>, t: Ty, to: Side, src: seq<byte>, so: nat, dst: seq<byte>, dest: nat, j: nat)
    requires RegOk(abi, reg) && ThunkTypes.Below(t, |reg|)
    requires so + Size(abi, reg, t, Other(to)) <= |src| && dest + Size(abi, reg, t, to) <= |dst| && j < |dst|
    requires Converted(abi, reg, t, to, src, so, dst, dest)[j] != dst[j]
    ensures dest <= j < dest + Size(abi, reg, t, to) && Covers(abi, LeavesAt(abi, reg, t, to, so, dest), to, j)
  {
    hide LeavesAt, Size, RegOk, Apply, Width;
    var ls := LeavesAt(abi, reg, t, to, so, dest);
    LeavesFit(abi, reg, t, to, so, dest, |src|, |dst|);
    ApplyWrites(abi, ls, to, src, dst, dest, dest + Size(abi, reg, t, to));
    AscendingInside(abi, ls, to, dest, dest + Size(abi, reg, t, to));
  }

  // ---- there and back

  /** The bytes that the other side drops are those it would put back. */
  predicate LeafFits(abi: Abi, l: Leaf, from: Side, src: seq<byte>)
    requires At(l, from) + Width(abi, l, from) <= |src|
  {
    var bs, k := Part(src, At(l, from), Width(abi, l, from)), Width(abi, l, Other(from));
    k < |bs| ==> bs[k..] == Fill(bs[..k], |bs| - k, l.kind.Long?)
  }

  lemma ResizeBack(bs: seq<byte>, k: nat, signed: bool)
    ensures Resize(Resize(bs, k, signed), |bs|, signed) == bs <==> (k < |bs| ==> bs[k..] == Fill(bs[..k], |bs| - k, signed))
  {
    if k < |bs| {
      var back := bs[..k] + Fill(bs[..k], |bs| - k, signed);
      assert bs == bs[..k] + bs[k..];
      assert back[k..] == Fill(bs[..k], |bs| - k, signed);
      if back == bs {
        assert bs[k..] == back[k..];
      }
    }
  }

  ghost predicate AllFit(abi: Abi, ls: seq<Leaf>, from: Side, src: seq<byte>)
    requires Inside(abi, ls, from, |src|)
  {
    forall i :: 0 <= i < |ls| ==> LeafFits(abi, ls[i], from, src)
  }

  /** The leaves of an object, cut, extended and converted back. */
  lemma LeafBack(abi: Abi, l: Leaf, from: Side, src: seq<byte>, mid: seq<byte>)
    requires At(l, from) + Width(abi, l, from) <= |src| && At(l, Other(from)) + Width(abi, l, Other(from)) <= |mid|
    requires Part(mid, At(l, Other(from)), Width(abi, l, Other(from))) == LeafBytes(abi, l, Other(from), src)
    ensures LeafBytes(abi, l, from, mid) == Part(src, At(l, from), Width(abi, l, from)) <==> LeafFits(abi, l, from, src)
  {
    hide Width, Resize, Part;
    var bs := Part(src, At(l, from), Width(abi, l, from));
    assert Other(Other(from)) == from;
    ResizeBack(bs, Width(abi, l, Other(from)), l.kind.Long?);
  }

  lemma {:induction false} RoundTripLeaves(abi: Abi, ls: seq<Leaf>, from: Side, src: seq<byte>, mid0: seq<byte>, back0: seq<byte>,
                                           lo: nat, hi: nat, lo': nat, hi': nat)
    requires Ascending(abi, ls, from, lo, hi) && Ascending(abi, ls, Other(from), lo', hi')
    requires hi <= |src| == |back0| && hi' <= |mid0|
    requires Inside(abi, ls, from, |src|) && Inside(abi, ls, Other(from), |mid0|)
    ensures Other(Other(from)) == from
    ensures
      var mid := Apply(abi, ls, Other(from), src, mid0);
      var back := Apply(abi, ls, from, mid, back0);
      (forall j :: 0 <= j < |src| && Covers(abi, ls, from, j) ==> back[j] == src[j]) <==> AllFit(abi, ls, from, src)
  {
    hide Width, Apply, LeafBytes, LeafFits, Covers, Ascending;
    var mid := Apply(abi, ls, Other(from), src, mid0);
    var back := Apply(abi, ls, from, mid, back0);
    ApplyWrites(abi, ls, Other(from), src, mid0, lo', hi');
    ApplyWrites(abi, ls, from, mid, back0, lo, hi);
    forall i | 0 <= i < |ls|
      ensures Part(back, At(ls[i], from), Width(abi, ls[i], from)) == Part(src, At(ls[i], from), Width(abi, ls[i], from))
              <==> LeafFits(abi, ls[i], from, src)
    {
      LeafBack(abi, ls[i], from, src, mid);
    }
    SameParts(abi, ls, from, src, back);
  }

  /** Two objects agree on all data bytes when they agree on all leaves. */
  lemma SameParts(abi: Abi, ls: seq<Leaf>, side: Side, a: seq<byte>, b: seq<byte>)
    requires |a| == |b| && Inside(abi, ls, side, |a|)
    ensures (forall j :: 0 <= j < |a| && Covers(abi, ls, side, j) ==> b[j] == a[j]) <==>
            (forall i :: 0 <= i < |ls| ==> Part(b, At(ls[i], side), Width(abi, ls[i], side)) == Part(a, At(ls[i], side), Width(abi, ls[i], side)))
  {
    hide Width;
    if forall j :: 0 <= j < |a| && Covers(abi, ls, side, j) ==> b[j] == a[j] {
      forall i | 0 <= i < |ls|
        ensures Part(b, At(ls[i], side), Width(abi, ls[i], side)) == Part(a, At(ls[i], side), Width(abi, ls[i], side))
      {
        var at, w := At(ls[i], side), Width(abi, ls[i], side);
        forall j | at <= j < at + w ensures b[j] == a[j] {
          assert Covers(abi, ls, side, j);
        }
      }
    }
    if forall i :: 0 <= i < |ls| ==> Part(b, At(ls[i], side), Width(abi, ls[i], side)) == Part(a, At(ls[i], side), Width(abi, ls[i], side)) {
      forall j | 0 <= j < |a| && Covers(abi, ls, side, j) ensures b[j] == a[j] {
        var i :| 0 <= i < |ls| && At(ls[i], side) <= j < At(ls[i], side) + Width(abi, ls[i], side);
        var at, w := At(ls[i], side), Width(abi, ls[i], side);
        assert Part(b, at, w)[j - at] == Part(a, at, w)[j - at];
      }
    }
  }

  lemma SameLeaves(abi: Abi, reg: seq<Entry>, t: Ty, from: Side, so: nat, mo: nat)
    requires RegOk(abi, reg) && ThunkTypes.Below(t, |reg|)
    ensures LeavesAt(abi, reg, t, Other(from), so, mo) == LeavesAt(abi, reg, t, from, mo, so)
    ensures Other(Other(from)) == from
  {
  }

  /**
   Converting an object to the other side and back restores every byte of it that is not
   padding if and only if every long in it fits the width it has on the other side.
   */
  lemma RoundTrip(abi: Abi, reg: seq<Entry>, t: Ty, from: Side, src: seq<byte>, so: nat, mid0: seq<byte>, mo: nat, back0: seq<byte>)
    requires RegOk(abi, reg) && ThunkTypes.Below(t, |reg|) && Other(Other(from)) == from
    requires so + Size(abi, reg, t, from) <= |src| == |back0| && mo + Size(abi, reg, t, Other(from)) <= |mid0|
    ensures Inside(abi, LeavesAt(abi, reg, t, from, mo, so), from, |src|)
    ensures
      var mid := Converted(abi, reg, t, Other(from), src, so, mid0, mo);
      var back := Converted(abi, reg, t, from, mid, mo, back0, so);
      var ls := LeavesAt(abi, reg, t, from, mo, so);
      (forall j :: 0 <= j < |src| && Covers(abi, ls, from, j) ==> back[j] == src[j]) <==> AllFit(abi, ls, from, src)
  {
    hide LeavesAt, Size, RegOk, Apply, Width, Covers, AllFit, Inside;
    var ls := LeavesAt(abi, reg, t, from, mo, so);
    SameLeaves(abi, reg, t, from, so, mo);
    LeavesFit(abi, reg, t, from, mo, so, |mid0|, |src|);
    RoundTripLeaves(abi, ls, from, src, mid0, back0, so, so + Size(abi, reg, t, from), mo, mo + Size(abi, reg, t, Other(from)));
  }

  predicate AllScalar(ls: seq<Leaf>) {
    forall i :: 0 <= i < |ls| ==> Scalar(ls[i].kind)
  }

  lemma ScalarConcat(a: seq<Leaf>, b: seq<Leaf>)
    requires AllScalar(a) && AllScalar(b)
    ensures AllScalar(a + b)
  {
  }

  /** Longs are no narrower on the other side: nothing can be lost. */
  lemma WideningFits(abi: Abi, ls: seq<Leaf>, from: Side, src: seq<byte>)
    requires Inside(abi, ls, from, |src|) && LongSize(abi, from) <= LongSize(abi, Other(from))
    requires AllScalar(ls)
    ensures AllFit(abi, ls, from, src)
  {
    forall i | 0 <= i < |ls| ensures LeafFits(abi, ls[i], from, src) {
      WidthKnown(abi, ls[i], from);
    }
  }

  lemma WidthKnown(abi: Abi, l: Leaf, from: Side)
    requires Scalar(l.kind)
    ensures Width(abi, l, from) == Width(abi, l, Other(from)) ||
            (Width(abi, l, from) == LongSize(abi, from) && Width(abi, l, Other(from)) == LongSize(abi, Other(from)))
  {
  }

  lemma {:induction false} LeavesScalar(abi: Abi, reg: seq<Entry>, n: nat, t: Ty, ot: nat, oh: nat)
    requires RegOk(abi, reg) && ThunkTypes.Below(t, n) && n <= |reg|
    ensures AllScalar(Leaves(abi, reg, n, t, ot, oh))
    decreases n, t, 0
  {
    hide RegOk;
    match t
    case Array(count, elem) => ArrayScalar(abi, reg, n, elem, count, ot, oh);
    case Struct(id) =>
      FieldsBelow(abi, reg, id);
      FieldsScalar(abi, reg, id, reg[id].fields, reg[id].target.offsets, reg[id].host.offsets, ot, oh);
    case _ =>
  }

  lemma {:induction false} ArrayScalar(abi: Abi, reg: seq<Entry>, n: nat, elem: Ty, count: nat, ot: nat, oh: nat)
    requires RegOk(abi, reg) && ThunkTypes.Below(elem, n) && n <= |reg|
    ensures AllScalar(ArrayLeaves(abi, reg, n, elem, count, ot, oh))
    decreases n, elem, 1 + count
  {
    hide RegOk, Size, Leaves, Scalar;
    if count > 0 {
      var ot', oh' := ot + Size(abi, reg, elem, Target), oh + Size(abi, reg, elem, Host);
      LeavesScalar(abi, reg, n, elem, ot, oh);
      ArrayScalar(abi, reg, n, elem, count - 1, ot', oh');
      ScalarConcat(Leaves(abi, reg, n, elem, ot, oh), ArrayLeaves(abi, reg, n, elem, count - 1, ot', oh'));
    }
  }

  lemma {:induction false} FieldsScalar(abi: Abi, reg: seq<Entry>, n: nat, fields: seq<Ty>, tos: seq<nat>, hos: seq<nat>, ot: nat,
                                        oh: nat)
    requires RegOk(abi, reg) && AllBelow(fields, n) && n <= |reg| && |tos| == |hos| == |fields|
    ensures AllScalar(FieldLeaves(abi, reg, n, fields, tos, hos, ot, oh))
    decreases n, fields, 0
  {
    hide RegOk, Leaves, Scalar;
    if fields != [] {
      LeavesScalar(abi, reg, n, fields[0], ot + tos[0], oh + hos[0]);
      FieldsScalar(abi, reg, n, fields[1..], tos[1..], hos[1..], ot, oh);
      ScalarConcat(Leaves(abi, reg, n, fields[0], ot + tos[0], oh + hos[0]),
                   FieldLeaves(abi, reg, n, fields[1..], tos[1..], hos[1..], ot, oh));
    }
  }

  /** With a 32-bit target on a 64-bit host, or equal widths, target to host and back restores everything. */
  lemma TargetRestored(abi: Abi, reg: seq<Entry>, t: Ty, src: seq<byte>, so: nat, mid0: seq<byte>, mo: nat, back0: seq<byte>, j: nat)
    requires RegOk(abi, reg) && ThunkTypes.Below(t, |reg|) && abi.target <= abi.host
    requires so + Size(abi, reg, t, Target) <= |src| == |back0| && mo + Size(abi, reg, t, Host) <= |mid0|
    requires j < |src| && Covers(abi, LeavesAt(abi, reg, t, Target, mo, so), Target, j)
    ensures
      var mid := Converted(abi, reg, t, Host, src, so, mid0, mo);
      Converted(abi, reg, t, Target, mid, mo, back0, so)[j] == src[j]
  {
    hide Size, RegOk, Apply, Width, Covers, Leaves, Converted, Inside;
    var ls := LeavesAt(abi, reg, t, Target, mo, so);
    RoundTrip(abi, reg, t, Target, src, so, mid0, mo, back0);
    LeavesScalar(abi, reg, |reg|, t, so, mo);
    WideningFits(abi, ls, Target, src);
  }

  // ---- numbers

  /** A little-endian number. */
  function Number(bs: seq<byte>): nat {
    if bs == [] then 0 else bs[0] + 256 * Number(bs[1..])
  }

  lemma {:induction false} NumberBound(bs: seq<byte>)
    ensures Number(bs) < Pow2(8 * |bs|)
    decreases |bs|
  {
    if bs != [] {
      NumberBound(bs[1..]);
      Pow2Add(8, 8 * (|bs| - 1));
      assert Pow2(8) == 256;
      assert 8 + 8 * (|bs| - 1) == 8 * |bs|;
    }
  }

  lemma {:induction false} NumberConcat(a: seq<byte>, b: seq<byte>)
    ensures Number(a + b) == Number(a) + Pow2(8 * |a|) * Number(b)
    decreases |a|
  {
    if a == [] {
      assert a + b == b;
    } else {
      assert (a + b)[1..] == a[1..] + b;
      NumberConcat(a[1..], b);
      Pow2Add(8, 8 * (|a| - 1));
      assert Pow2(8) == 256;
      assert 8 + 8 * (|a| - 1) == 8 * |a|;
      hide Pow2;
      Regroup(Pow2(8 * (|a| - 1)), Pow2(8 * |a|), Number(b));
    }
  }

  lemma Regroup(p: nat, q: nat, x: nat)
    requires q == 256 * p
    ensures 256 * (p * x) == q * x
  {
  }

  /** Filling with sign bytes or zeros. */
  lemma {:induction false} NumberFill(b: byte, k: nat)
    requires b == 0 || b == 255
    ensures Number(seq(k, i => b)) == if b == 0 then 0 else Pow2(8 * k) - 1
    decreases k
  {
    if k > 0 {
      assert seq(k, i => b)[1..] == seq(k - 1, i => b);
      NumberFill(b, k - 1);
      Pow2Add(8, 8 * (k - 1));
      assert Pow2(8) == 256;
      assert 8 + 8 * (k - 1) == 8 * k;
    }
  }

  /** Cutting keeps the low part of the number; extending an unsigned one keeps it all. */
  lemma ResizeNumber(bs: seq<byte>, k: nat)
    ensures Number(Resize(bs, k, false)) == Number(bs) % Pow2(8 * k)
  {
    if k <= |bs| {
      CutNumber(bs, k);
    } else {
      NumberFill(0, k - |bs|);
      NumberConcat(bs, Fill(bs, k - |bs|, false));
      NumberBound(bs);
      Pow2Mono(8 * |bs|, 8 * k);
      SmallRest(Number(bs), Pow2(8 * k));
      MulZero(Pow2(8 * |bs|));
    }
  }

  lemma MulZero(p: nat)
    ensures p * 0 == 0
  {
  }

  lemma SmallRest(x: nat, p: nat)
    requires x < p
    ensures x % p == x
  {
  }

  lemma CutNumber(bs: seq<byte>, k: nat)
    requires k <= |bs|
    ensures Number(bs[..k]) == Number(bs) % Pow2(8 * k) && Number(bs[k..]) == Number(bs) / Pow2(8 * k)
  {
    hide Pow2, Number;
    assert bs == bs[..k] + bs[k..];
    NumberConcat(bs[..k], bs[k..]);
    NumberBound(bs[..k]);
    var p, lo, hi := Pow2(8 * k), Number(bs[..k]), Number(bs[k..]);
    assert p * hi == hi * p;
    DivModUnique(Number(bs), p, hi, lo);
  }

  /** Only zeros make zero. */
  lemma {:induction false} ZeroBytes(bs: seq<byte>)
    ensures Number(bs) == 0 <==> bs == seq(|bs|, i => 0 as byte)
    decreases |bs|
  {
    if bs != [] {
      ZeroBytes(bs[1..]);
      assert seq(|bs|, i => 0 as byte)[1..] == seq(|bs| - 1, i => 0 as byte);
      if Number(bs) == 0 {
        assert bs == [0] + bs[1..];
        assert seq(|bs|, i => 0 as byte) == [0] + seq(|bs| - 1, i => 0 as byte);
      }
    }
  }

  /** An unsigned long fits the narrower side exactly when its value does. */
  lemma UnsignedFits(abi: Abi, l: Leaf, from: Side, src: seq<byte>)
    requires At(l, from) + Width(abi, l, from) <= |src| && !l.kind.Long?
    ensures LeafFits(abi, l, from, src) <==>
            Number(Part(src, At(l, from), Width(abi, l, from))) < Pow2(8 * Width(abi, l, Other(from)))
  {
    hide Width, Pow2;
    var bs, k := Part(src, At(l, from), Width(abi, l, from)), Width(abi, l, Other(from));
    NumberBound(bs);
    if k < |bs| {
      CutNumber(bs, k);
      ZeroBytes(bs[k..]);
      assert Fill(bs[..k], |bs| - k, false) == seq(|bs| - k, i => 0 as byte);
      DivZero(Number(bs), Pow2(8 * k));
    } else {
      Pow2Mono(8 * |bs|, 8 * k);
    }
  }

  lemma DivZero(x: nat, p: nat)
    requires p > 0
    ensures x / p == 0 <==> x < p
  {
    if x < p {
      DivModUnique(x, p, 0, x);
    } else {
      var q := x / p;
      assert x == q * p + x % p;
      assert q == 0 ==> q * p == 0;
    }
  }

  lemma {:induction false} NumberInjective(a: seq<byte>, b: seq<byte>)
    requires |a| == |b| && Number(a) == Number(b)
    ensures a == b
    decreases |a|
  {
    if a != [] {
      assert a[0] == b[0] && Number(a[1..]) == Number(b[1..]);
      NumberInjective(a[1..], b[1..]);
      assert a == [a[0]] + a[1..] && b == [b[0]] + b[1..];
    }
  }

  /** The top bit of the last byte is the sign. */
  lemma TopBit(bs: seq<byte>)
    requires bs != []
    ensures bs[|bs| - 1] >= 128 <==> Number(bs) >= Pow2(8 * |bs| - 1)
  {
    var n := |bs| - 1;
    var low, top := bs[..n], bs[n];
    assert bs == low + [top];
    NumberConcat(low, [top]);
    assert Number([top]) == top by {
      assert [top][1..] == [];
    }
    NumberBound(low);
    var p := Pow2(8 * n);
    Pow2Add(8 * n, 7);
    assert Pow2(7) == 128;
    assert 8 * n + 7 == 8 * |bs| - 1;
    TopSplit(Number(low), p, top);
  }

  lemma TopSplit(low: nat, p: nat, top: nat)
    requires low < p
    ensures top >= 128 <==> low + p * top >= p * 128
  {
    if top >= 128 {
      assert p * top == p * 128 + p * (top - 128);
    } else {
      assert p * 128 == p * top + p * (128 - top);
      assert p * (128 - top) == p + p * (127 - top);
    }
  }

  /** Sign extension keeps the signed value. */
  lemma ResizeSigned(bs: seq<byte>, k: nat)
    requires 0 < |bs| <= k
    ensures Signed(Number(Resize(bs, k, true)), 8 * k) == Signed(Number(bs), 8 * |bs|)
  {
    hide Resize;
    var n, m := |bs|, k - |bs|;
    TopBit(bs);
    NumberBound(bs);
    Pow2Add(8 * n, 8 * m);
    assert 8 * n + 8 * m == 8 * k;
    Double(8 * n);
    Double(8 * k);
    ResizedNumber(bs, k);
    hide Pow2, Number;
    ExtendCore(Number(bs), Pow2(8 * n), Pow2(8 * m), Pow2(8 * n - 1), Pow2(8 * k), Pow2(8 * k - 1), Number(Resize(bs, k, true)));
  }

  lemma ExtendCore(v: nat, p: nat, q: nat, half: nat, pq: nat, half': nat, num: nat)
    requires p == 2 * half && pq == p * q && pq == 2 * half' && v < p && q > 0
    requires num == if v >= half then v + p * (q - 1) else v
    ensures (if num >= half' then num - pq else num) == (if v >= half then v - p else v)
  {
    MinusOne(p, q);
    ExtendParts(v, p, p * (q - 1), pq, half, half');
  }

  /** The number after sign extension: all ones above a set sign bit. */
  lemma ResizedNumber(bs: seq<byte>, k: nat)
    requires 0 < |bs| <= k
    ensures Number(Resize(bs, k, true)) ==
            if bs[|bs| - 1] >= 128 then Number(bs) + Pow2(8 * |bs|) * (Pow2(8 * (k - |bs|)) - 1) else Number(bs)
  {
    var n := |bs|;
    var b: byte := if bs[n - 1] >= 128 then 255 else 0;
    NumberFill(b, k - n);
    NumberConcat(bs, seq(k - n, i => b));
    assert Resize(bs, k, true) == bs + seq(k - n, i => b) by {
      hide Number;
    }
    MulZero(Pow2(8 * n));
  }

  lemma MinusOne(p: nat, q: nat)
    requires q > 0
    ensures p * q == p * (q - 1) + p && p * (q - 1) >= 0
  {
  }

  lemma ExtendParts(v: nat, p: nat, x: nat, pq: nat, half: nat, half': nat)
    requires p == 2 * half && pq == x + p && pq == 2 * half' && v < p
    ensures v >= half ==> v + x >= half' && v + x - pq == v - p
    ensures v < half ==> v < half'
  {
  }

  /** Cutting keeps the signed value modulo the smaller power. */
  lemma SignedCut(v: nat, n: nat, k: nat)
    requires 0 < k <= n && v < Pow2(n)
    ensures (Signed(v, n) - Signed(v % Pow2(k), k)) % Pow2(k) == 0
  {
    hide *;
    Pow2Add(k, n - k);
    assert k + (n - k) == n;
    SignedIs(v, n);
    SignedIs(v % Pow2(k), k);
    CutParts(Signed(v, n), Signed(v % Pow2(k), k), v, Pow2(n), Pow2(n - 1), Pow2(k), Pow2(k - 1), Pow2(n - k));
  }

  lemma CutParts(x: int, y: int, v: nat, pn: nat, hn: nat, p: nat, hk: nat, q: nat)
    requires p > 0 && pn == p * q
    requires x == (if v >= hn then v - pn else v) && y == (if v % p >= hk then v % p - p else v % p)
    ensures (x - y) % p == 0
  {
    DivParts(v, p);
    CutCore(x, y, v, pn, hn, p, hk, v / p, v % p, q);
  }

  lemma DivParts(v: nat, p: nat)
    requires p > 0
    ensures v == v / p * p + v % p
  {
  }

  lemma SignedIs(v: nat, n: nat)
    requires n > 0
    ensures Signed(v, n) == if v >= Pow2(n - 1) then v - Pow2(n) else v
  {
  }

  lemma CutCore(x: int, y: int, v: int, pn: int, hn: int, p: nat, hk: int, d: int, r: int, q: int)
    requires p > 0 && pn == p * q && v == d * p + r
    requires x == (if v >= hn then v - pn else v) && y == (if r >= hk then r - p else r)
    ensures (x - y) % p == 0
  {
    var a, b := if v >= hn then q else 0, if r >= hk then 1 else 0;
    Distribute(d, a, b, p);
    assert a * p == if v >= hn then pn else 0;
    assert b * p == if r >= hk then p else 0;
    AddMultiple(0, d - a + b, p);
    assert x - y == 0 + (d - a + b) * p;
  }

  lemma Distribute(d: int, a: int, b: int, p: int)
    ensures (d - a + b) * p == d * p - a * p + b * p
  {
  }

  lemma InRangeSame(x: int, y: int, n: nat)
    requires n > 0 && (x - y) % Pow2(n) == 0 && InRange(x, n) && InRange(y, n)
    ensures x == y
  {
    hide Pow2;
    var p := Pow2(n);
    var q := (x - y) / p;
    assert x - y == q * p;
    assert (-q) * p == -(q * p);
    if q >= 1 {
      MulAtLeast(q, p);
    } else if q <= -1 {
      MulAtLeast(-q, p);
    }
  }

  /** Cutting to k bytes loses nothing of a signed number exactly when it is in range for k bytes. */
  lemma SignedBytes(bs: seq<byte>, k: nat)
    requires 0 < k < |bs|
    ensures bs[k..] == Fill(bs[..k], |bs| - k, true) <==> InRange(Signed(Number(bs), 8 * |bs|), 8 * k)
  {
    hide Pow2, Number, Signed, Resize, Fill, InRange;
    var n, low := |bs|, bs[..k];
    var again := Resize(low, n, true);
    ResizeSigned(low, n);
    NumberBound(low);
    NumberBound(bs);
    NumberBound(again);
    SignedRange(Number(low), 8 * k);
    CutNumber(bs, k);
    SignedCut(Number(bs), 8 * n, 8 * k);
    TailSame(bs, k, true);
    if InRange(Signed(Number(bs), 8 * n), 8 * k) {
      InRangeSame(Signed(Number(bs), 8 * n), Signed(Number(low), 8 * k), 8 * k);
      SignedInjective(Number(bs), Number(again), 8 * n);
      NumberInjective(bs, again);
    }
  }

  lemma TailSame(bs: seq<byte>, k: nat, signed: bool)
    requires k < |bs|
    ensures bs == Resize(bs[..k], |bs|, signed) <==> bs[k..] == Fill(bs[..k], |bs| - k, signed)
  {
    hide Fill;
    var low := bs[..k];
    var again := low + Fill(low, |bs| - k, signed);
    assert bs == low + bs[k..];
    assert again[k..] == Fill(low, |bs| - k, signed);
  }

  lemma SignedInjective(x: nat, y: nat, n: nat)
    requires n > 0 && x < Pow2(n) && y < Pow2(n) && Signed(x, n) == Signed(y, n)
    ensures x == y
  {
  }

  /** A signed long fits the narrower side exactly when its value is in range there. */
  lemma SignedFits(abi: Abi, l: Leaf, from: Side, src: seq<byte>)
    requires At(l, from) + Width(abi, l, from) <= |src| && l.kind.Long?
    requires 0 < Width(abi, l, Other(from)) < Width(abi, l, from)
    ensures
      var bs := Part(src, At(l, from), Width(abi, l, from));
      LeafFits(abi, l, from, src) <==> InRange(Signed(Number(bs), 8 * |bs|), 8 * Width(abi, l, Other(from)))
  {
    hide Width, Pow2, Number, Signed, Fill, InRange;
    SignedBytes(Part(src, At(l, from), Width(abi, l, from)), Width(abi, l, Other(from)));
  }

  // ---- alignment

  /** Every leaf sits at a multiple of its own width. */
  predicate LeavesAligned(abi: Abi, ls: seq<Leaf>, side: Side) {
    forall i :: 0 <= i < |ls| ==> Width(abi, ls[i], side) > 0 && At(ls[i], side) % Width(abi, ls[i], side) == 0
  }

  lemma AlignedConcat(abi: Abi, a: seq<Leaf>, b: seq<Leaf>, side: Side)
    requires LeavesAligned(abi, a, side) && LeavesAligned(abi, b, side)
    ensures LeavesAligned(abi, a + b, side)
  {
    hide Width;
  }

  lemma SumAligned(o: nat, x: nat, big: nat, small: nat)
    requires PowerAlign(big) && PowerAlign(small) && small <= big && o % big == 0 && x % small == 0
    ensures (o + x) % small == 0
  {
  }

  /**
   An object that starts at a multiple of its alignment has every scalar in it at a multiple of
   that scalar's width, elements of arrays and nested structs included.
   */
  lemma {:induction false} LeavesStayAligned(abi: Abi, reg: seq<Entry>, n: nat, t: Ty, ot: nat, oh: nat, side: Side)
    requires RegOk(abi, reg) && ThunkTypes.Below(t, n) && n <= |reg|
    requires PowerAlign(Align(abi, reg, t, side)) && (if side == Host then oh else ot) % Align(abi, reg, t, side) == 0
    ensures LeavesAligned(abi, Leaves(abi, reg, n, t, ot, oh), side)
    decreases n, t, 0
  {
    hide RegOk, Place, AlignUp;
    match t
    case Ptr(_) =>
    case Array(count, elem) => ArrayStaysAligned(abi, reg, n, elem, count, ot, oh, side);
    case Struct(id) =>
      FieldsBelow(abi, reg, id);
      var e := reg[id];
      LayoutLaws(abi, reg, id, side);
      var end: nat :| Stacked(abi, reg, e.fields, side, On(e, side).offsets, 0, end) && LeastAligned(On(e, side).size, end, On(e, side).align);
      FieldsStayAligned(abi, reg, id, e.fields, e.target.offsets, e.host.offsets, ot, oh, side, 0, end, On(e, side).align);
    case _ => ScalarAligned(abi, reg, t, ot, oh, side);
  }

  lemma ScalarAligned(abi: Abi, reg: seq<Entry>, t: Ty, ot: nat, oh: nat, side: Side)
    requires Scalar(t) && PowerAlign(Align(abi, reg, t, side)) && (if side == Host then oh else ot) % Align(abi, reg, t, side) == 0
    ensures LeavesAligned(abi, [Leaf(t, ot, oh)], side)
  {
    assert Width(abi, Leaf(t, ot, oh), side) == Align(abi, reg, t, side);
  }

  lemma {:induction false} ArrayStaysAligned(abi: Abi, reg: seq<Entry>, n: nat, elem: Ty, count: nat, ot: nat, oh: nat, side: Side)
    requires RegOk(abi, reg) && ThunkTypes.Below(elem, n) && n <= |reg|
    requires PowerAlign(Align(abi, reg, elem, side)) && (if side == Host then oh else ot) % Align(abi, reg, elem, side) == 0
    ensures LeavesAligned(abi, ArrayLeaves(abi, reg, n, elem, count, ot, oh), side)
    decreases n, elem, 1 + count
  {
    hide RegOk, Size, Leaves, Align, LeavesAligned;
    if count == 0 {
      NoneAligned(abi, side);
    } else {
      var ot', oh' := ot + Size(abi, reg, elem, Target), oh + Size(abi, reg, elem, Host);
      LeavesStayAligned(abi, reg, n, elem, ot, oh, side);
      BelowMore(elem, n, |reg|);
      SizeMultiple(abi, reg, elem, side);
      SumAligned(if side == Host then oh else ot, Size(abi, reg, elem, side), Align(abi, reg, elem, side), Align(abi, reg, elem, side));
      ArrayStaysAligned(abi, reg, n, elem, count - 1, ot', oh', side);
      AlignedConcat(abi, Leaves(abi, reg, n, elem, ot, oh), ArrayLeaves(abi, reg, n, elem, count - 1, ot', oh'), side);
    }
  }

  lemma NoneAligned(abi: Abi, side: Side)
    ensures LeavesAligned(abi, [], side)
  {
  }

  lemma {:induction false} FieldsStayAligned(abi: Abi, reg: seq<Entry>, n: nat, fields: seq<Ty>, tos: seq<nat>, hos: seq<nat>,
                                             ot: nat, oh: nat, side: Side, lo: nat, hi: nat, big: nat)
    requires RegOk(abi, reg) && AllBelow(fields, n) && n <= |reg| && |tos| == |hos| == |fields|
    requires Stacked(abi, reg, fields, side, if side == Host then hos else tos, lo, hi)
    requires PowerAlign(big) && (if side == Host then oh else ot) % big == 0
    requires forall i :: 0 <= i < |fields| ==> Align(abi, reg, fields[i], side) <= big
    ensures LeavesAligned(abi, FieldLeaves(abi, reg, n, fields, tos, hos, ot, oh), side)
    decreases n, fields, 0
  {
    hide RegOk, Size, Leaves, Align, LeavesAligned;
    if fields == [] {
      NoneAligned(abi, side);
    } else {
      var os := if side == Host then hos else tos;
      var f := fields[0];
      AlignPower(abi, reg, n, f, side);
      SumAligned(if side == Host then oh else ot, os[0], big, Align(abi, reg, f, side));
      LeavesStayAligned(abi, reg, n, f, ot + tos[0], oh + hos[0], side);
      FieldsStayAligned(abi, reg, n, fields[1..], tos[1..], hos[1..], ot, oh, side, os[0] + Size(abi, reg, f, side), hi, big);
      AlignedConcat(abi, Leaves(abi, reg, n, f, ot + tos[0], oh + hos[0]),
                    FieldLeaves(abi, reg, n, fields[1..], tos[1..], hos[1..], ot, oh), side);
    }
  }
}
