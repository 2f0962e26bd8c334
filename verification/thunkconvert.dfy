/**
 Conversion of objects between the two layouts: the scalar leaves of a type, with their
 offsets on both sides, are copied, cut or extended one by one.
 */
module ThunkConversion {
  import opened Bits
  import opened ThunkTypes
  import opened ThunkLayout

  /** A scalar inside an object, with its offset under either layout. */
  datatype Leaf = Leaf(kind: Ty, target: nat, host: nat)

  function At(l: Leaf, side: Side): nat {
    if side == Host then l.host else l.target
  }

  predicate Scalar(t: Ty) {
    !t.Ptr? && !t.Array? && !t.Struct?
  }

  function Width(abi: Abi, l: Leaf, side: Side): nat {
    Size(abi, [], l.kind, side)
  }

  /** The leaves of a type placed at the two offsets, in the order in which they are converted. */
  function Leaves(abi: Abi, reg: seq<Entry>, n: nat, t: Ty, ot: nat, oh: nat): seq<Leaf>
    requires RegOk(abi, reg) && ThunkTypes.Below(t, n) && n <= |reg|
    decreases n, t, 0
  {
    match t
    case Ptr(_) => []
    case Array(count, elem) => ArrayLeaves(abi, reg, n, elem, count, ot, oh)
    case Struct(id) =>
      FieldsBelow(abi, reg, id);
      var e := reg[id];
      FieldLeaves(abi, reg, id, e.fields, e.target.offsets, e.host.offsets, ot, oh)
    case _ => [Leaf(t, ot, oh)]
  }

  function ArrayLeaves(abi: Abi, reg: seq<Entry>, n: nat, elem: Ty, count: nat, ot: nat, oh: nat): seq<Leaf>
    requires RegOk(abi, reg) && ThunkTypes.Below(elem, n) && n <= |reg|
    decreases n, elem, 1 + count
  {
    if count == 0 then []
    else
      Leaves(abi, reg, n, elem, ot, oh) +
      ArrayLeaves(abi, reg, n, elem, count - 1, ot + Size(abi, reg, elem, Target), oh + Size(abi, reg, elem, Host))
  }

  function FieldLeaves(abi: Abi, reg: seq<Entry>, n: nat, fields: seq<Ty>, tos: seq<nat>, hos: seq<nat>, ot: nat, oh: nat): seq<Leaf>
    requires RegOk(abi, reg) && AllBelow(fields, n) && n <= |reg| && |tos| == |hos| == |fields|
    decreases n, fields, 0
  {
    if fields == [] then []
    else
      Leaves(abi, reg, n, fields[0], ot + tos[0], oh + hos[0]) +
      FieldLeaves(abi, reg, n, fields[1..], tos[1..], hos[1..], ot, oh)
  }

  predicate AllBelow(fields: seq<Ty>, n: nat) {
    forall i :: 0 <= i < |fields| ==> ThunkTypes.Below(fields[i], n)
  }

  lemma FieldsBelow(abi: Abi, reg: seq<Entry>, id: nat)
    requires RegOk(abi, reg) && id < |reg|
    ensures AllBelow(reg[id].fields, id)
    ensures |reg[id].fields| == |reg[id].target.offsets| == |reg[id].host.offsets|
  {
    assert EntryOk(abi, reg, id);
  }

  // ---- one leaf

  /** The bytes that extend a number: copies of the sign when it is signed, zeros otherwise. */
  function Fill(bs: seq<byte>, k: nat, signed: bool): (r: seq<byte>)
    ensures |r| == k
  {
    var b: byte := if signed && |bs| > 0 && bs[|bs| - 1] >= 128 then 255 else 0;
    seq(k, i => b)
  }

  /** A little-endian number cut or extended to k bytes. */
  function Resize(bs: seq<byte>, k: nat, signed: bool): (r: seq<byte>)
    ensures |r| == k
  {
    if k <= |bs| then bs[..k] else bs + Fill(bs, k - |bs|, signed)
  }

  function Part(s: seq<byte>, at: nat, k: nat): (r: seq<byte>)
    requires at + k <= |s|
    ensures |r| == k
  {
    s[at..at + k]
  }

  function Splice(s: seq<byte>, at: nat, bs: seq<byte>): (r: seq<byte>)
    requires at + |bs| <= |s|
    ensures |r| == |s|
    ensures forall j :: 0 <= j < |s| ==> r[j] == if at <= j < at + |bs| then bs[j - at] else s[j]
  {
    s[..at] + bs + s[at + |bs|..]
  }

  function Other(side: Side): Side {
    if side == Host then Target else Host
  }

  /** What a leaf becomes on side to. */
  function LeafBytes(abi: Abi, l: Leaf, to: Side, src: seq<byte>): (r: seq<byte>)
    requires At(l, Other(to)) + Width(abi, l, Other(to)) <= |src|
    ensures |r| == Width(abi, l, to)
  {
    Resize(Part(src, At(l, Other(to)), Width(abi, l, Other(to))), Width(abi, l, to), l.kind.Long?)
  }

  /** All leaves end within len bytes. */
  predicate Inside(abi: Abi, ls: seq<Leaf>, side: Side, len: nat) {
    forall i :: 0 <= i < |ls| ==> At(ls[i], side) + Width(abi, ls[i], side) <= len
  }

  /** The leaves converted one after the other. */
  function Apply(abi: Abi, ls: seq<Leaf>, to: Side, src: seq<byte>, dst: seq<byte>): (r: seq<byte>)
    requires Inside(abi, ls, Other(to), |src|) && Inside(abi, ls, to, |dst|)
    ensures |r| == |dst|
    decreases |ls|
  {
    if ls == [] then dst
    else Apply(abi, ls[1..], to, src, Splice(dst, At(ls[0], to), LeafBytes(abi, ls[0], to, src)))
  }

  lemma {:induction false} ApplyConcat(abi: Abi, a: seq<Leaf>, b: seq<Leaf>, to: Side, src: seq<byte>, dst: seq<byte>)
    requires Inside(abi, a, Other(to), |src|) && Inside(abi, a, to, |dst|)
    requires Inside(abi, b, Other(to), |src|) && Inside(abi, b, to, |dst|)
    ensures Inside(abi, a + b, Other(to), |src|) && Inside(abi, a + b, to, |dst|)
    ensures Apply(abi, a + b, to, src, dst) == Apply(abi, b, to, src, Apply(abi, a, to, src, dst))
    decreases |a|
  {
    hide LeafBytes, Splice, Width;
    InsideConcat(abi, a, b, to, |dst|);
    InsideConcat(abi, a, b, Other(to), |src|);
    if a == [] {
      assert a + b == b;
    } else {
      assert (a + b)[1..] == a[1..] + b && (a + b)[0] == a[0];
      ApplyConcat(abi, a[1..], b, to, src, Splice(dst, At(a[0], to), LeafBytes(abi, a[0], to, src)));
    }
  }

  lemma InsideConcat(abi: Abi, a: seq<Leaf>, b: seq<Leaf>, side: Side, len: nat)
    requires Inside(abi, a, side, len) && Inside(abi, b, side, len)
    ensures Inside(abi, a + b, side, len)
  {
    hide Width;
  }

  // ---- leaves ascend and do not overlap

  predicate Ascending(abi: Abi, ls: seq<Leaf>, side: Side, lo: nat, hi: nat)
    decreases |ls|
  {
    if ls == [] then lo <= hi
    else lo <= At(ls[0], side) && Ascending(abi, ls[1..], side, At(ls[0], side) + Width(abi, ls[0], side), hi)
  }

  lemma {:induction false} AscendingConcat(abi: Abi, a: seq<Leaf>, b: seq<Leaf>, side: Side, lo: nat, mid: nat, mid': nat, hi: nat)
    requires Ascending(abi, a, side, lo, mid) && mid <= mid' && Ascending(abi, b, side, mid', hi)
    ensures Ascending(abi, a + b, side, lo, hi)
    decreases |a|
  {
    hide Width;
    if a == [] {
      assert a + b == b;
      AscendingLower(abi, b, side, lo, mid', hi);
    } else {
      assert (a + b)[1..] == a[1..] + b && (a + b)[0] == a[0];
      AscendingConcat(abi, a[1..], b, side, At(a[0], side) + Width(abi, a[0], side), mid, mid', hi);
    }
  }

  lemma AscendingLower(abi: Abi, ls: seq<Leaf>, side: Side, lo: nat, lo': nat, hi: nat)
    requires Ascending(abi, ls, side, lo', hi) && lo <= lo'
    ensures Ascending(abi, ls, side, lo, hi)
  {
  }

  lemma {:induction false} AscendingHigher(abi: Abi, ls: seq<Leaf>, side: Side, lo: nat, hi: nat, hi': nat)
    requires Ascending(abi, ls, side, lo, hi) && hi <= hi'
    ensures Ascending(abi, ls, side, lo, hi')
    decreases |ls|
  {
    hide Width;
    if ls != [] {
      AscendingHigher(abi, ls[1..], side, At(ls[0], side) + Width(abi, ls[0], side), hi, hi');
    }
  }

  lemma {:induction false} LeavesAscend(abi: Abi, reg: seq<Entry>, n: nat, t: Ty, ot: nat, oh: nat, side: Side)
    requires RegOk(abi, reg) && ThunkTypes.Below(t, n) && n <= |reg|
    ensures
      var o := if side == Host then oh else ot;
      Ascending(abi, Leaves(abi, reg, n, t, ot, oh), side, o, o + Size(abi, reg, t, side))
    decreases n, t, 0
  {
    hide RegOk, AlignUp, Place;
    var o := if side == Host then oh else ot;
    match t
    case Ptr(_) =>
    case Array(count, elem) => ArrayAscends(abi, reg, n, elem, count, ot, oh, side);
    case Struct(id) =>
      FieldsBelow(abi, reg, id);
      var e := reg[id];
      LayoutLaws(abi, reg, id, side);
      var end: nat :| Stacked(abi, reg, e.fields, side, On(e, side).offsets, 0, end) && LeastAligned(On(e, side).size, end, On(e, side).align);
      FieldsAscend(abi, reg, id, e.fields, e.target.offsets, e.host.offsets, ot, oh, side, 0, end);
      AscendingHigher(abi, Leaves(abi, reg, n, t, ot, oh), side, o, o + end, o + On(e, side).size);
    case _ => OneLeaf(abi, reg, t, ot, oh, side);
  }

  lemma OneLeaf(abi: Abi, reg: seq<Entry>, t: Ty, ot: nat, oh: nat, side: Side)
    requires Scalar(t)
    ensures
      var o := if side == Host then oh else ot;
      Ascending(abi, [Leaf(t, ot, oh)], side, o, o + Size(abi, reg, t, side))
  {
    assert [Leaf(t, ot, oh)][1..] == [];
  }

  /** The length of count elements. */
  function Span(count: nat, s: nat): nat {
    count * s
  }

  lemma SpanStep(count: nat, s: nat)
    ensures Span(0, s) == 0
    ensures count > 0 ==> Span(count, s) == s + Span(count - 1, s)
  {
    if count > 0 {
      assert count * s == s + (count - 1) * s;
    }
  }

  lemma {:induction false} ArrayAscends(abi: Abi, reg: seq<Entry>, n: nat, elem: Ty, count: nat, ot: nat, oh: nat, side: Side)
    requires RegOk(abi, reg) && ThunkTypes.Below(elem, n) && n <= |reg|
    ensures
      var o := if side == Host then oh else ot;
      Ascending(abi, ArrayLeaves(abi, reg, n, elem, count, ot, oh), side, o, o + Span(count, Size(abi, reg, elem, side)))
    decreases n, elem, 1 + count
  {
    hide RegOk, Size, Leaves, Span, Ascending;
    var o := if side == Host then oh else ot;
    var s := Size(abi, reg, elem, side);
    SpanStep(count, s);
    if count == 0 {
      NoneAscend(abi, side, o);
    } else {
      var ot', oh' := ot + Size(abi, reg, elem, Target), oh + Size(abi, reg, elem, Host);
      LeavesAscend(abi, reg, n, elem, ot, oh, side);
      ArrayAscends(abi, reg, n, elem, count - 1, ot', oh', side);
      AscendingConcat(abi, Leaves(abi, reg, n, elem, ot, oh), ArrayLeaves(abi, reg, n, elem, count - 1, ot', oh'), side,
                      o, o + s, o + s, o + s + Span(count - 1, s));
    }
  }

  lemma NoneAscend(abi: Abi, side: Side, o: nat)
    ensures Ascending(abi, [], side, o, o)
  {
  }

  lemma {:induction false} FieldsAscend(abi: Abi, reg: seq<Entry>, n: nat, fields: seq<Ty>, tos: seq<nat>, hos: seq<nat>,
                                        ot: nat, oh: nat, side: Side, lo: nat, hi: nat)
    requires RegOk(abi, reg) && AllBelow(fields, n) && n <= |reg| && |tos| == |hos| == |fields|
    requires Stacked(abi, reg, fields, side, if side == Host then hos else tos, lo, hi)
    ensures
      var o := if side == Host then oh else ot;
      Ascending(abi, FieldLeaves(abi, reg, n, fields, tos, hos, ot, oh), side, o + lo, o + hi)
    decreases n, fields, 0
  {
    hide RegOk, Size, Leaves, Align;
    var o := if side == Host then oh else ot;
    var os := if side == Host then hos else tos;
    if fields != [] {
      var s := Size(abi, reg, fields[0], side);
      LeavesAscend(abi, reg, n, fields[0], ot + tos[0], oh + hos[0], side);
      FieldsAscend(abi, reg, n, fields[1..], tos[1..], hos[1..], ot, oh, side, os[0] + s, hi);
      var first := Leaves(abi, reg, n, fields[0], ot + tos[0], oh + hos[0]);
      AscendingLower(abi, first, side, o + lo, o + os[0], o + os[0] + s);
      AscendingConcat(abi, first, FieldLeaves(abi, reg, n, fields[1..], tos[1..], hos[1..], ot, oh), side, o + lo,
                      o + os[0] + s, o + os[0] + s, o + hi);
    }
  }
}
