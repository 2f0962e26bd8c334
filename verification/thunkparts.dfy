/**
 Conversion part by part: what becomes of a scalar, of an element of an array and of a field of
 a struct is what converting that part alone would make of it, at its own offsets on both sides.
 */
module ThunkParts {
  import opened Bits
  import opened ThunkTypes
  import opened ThunkLayout
  import opened ThunkConversion
  import opened ThunkLaws
  import opened ThunkNumbers

  // ---- runs of leaves

  /** Nothing past the last leaf is written. */
  lemma {:induction false} ApplyAbove(abi: Abi, ls: seq<Leaf>, to: Side, src: seq<byte>, dst: seq<byte>, hi: nat, j: nat)
    requires Inside(abi, ls, Other(to), |src|) && Inside(abi, ls, to, |dst|)
    requires Inside(abi, ls, to, hi) && hi <= j < |dst|
    ensures Apply(abi, ls, to, src, dst)[j] == dst[j]
    decreases |ls|
  {
    hide Width, LeafBytes;
    if ls != [] {
      ApplyAbove(abi, ls[1..], to, src, Splice(dst, At(ls[0], to), LeafBytes(abi, ls[0], to, src)), hi, j);
    }
  }

  /** What a byte becomes depends on no other byte of the destination. */
  lemma {:induction false} ApplyAgree(abi: Abi, ls: seq<Leaf>, to: Side, src: seq<byte>, dst: seq<byte>, dst': seq<byte>, j: nat)
    requires |dst| == |dst'| && Inside(abi, ls, Other(to), |src|) && Inside(abi, ls, to, |dst|)
    requires j < |dst| && dst[j] == dst'[j]
    ensures Apply(abi, ls, to, src, dst)[j] == Apply(abi, ls, to, src, dst')[j]
    decreases |ls|
  {
    hide Width, LeafBytes;
    if ls != [] {
      var at, bs := At(ls[0], to), LeafBytes(abi, ls[0], to, src);
      ApplyAgree(abi, ls[1..], to, src, Splice(dst, at, bs), Splice(dst', at, bs), j);
    }
  }

  /** Between leaves that end below lo and leaves that start at hi or later, only those in the middle matter. */
  lemma MiddleLeaves(abi: Abi, a: seq<Leaf>, b: seq<Leaf>, c: seq<Leaf>, to: Side, src: seq<byte>, dst: seq<byte>,
                     lo: nat, hi: nat, j: nat)
    requires Inside(abi, a, Other(to), |src|) && Inside(abi, a, to, |dst|)
    requires Inside(abi, b, Other(to), |src|) && Inside(abi, b, to, |dst|)
    requires Inside(abi, c, Other(to), |src|) && Inside(abi, c, to, |dst|)
    requires Inside(abi, a, to, lo) && (forall i :: 0 <= i < |c| ==> hi <= At(c[i], to)) && lo <= j < hi && j < |dst|
    ensures Inside(abi, a + (b + c), Other(to), |src|) && Inside(abi, a + (b + c), to, |dst|)
    ensures Apply(abi, a + (b + c), to, src, dst)[j] == Apply(abi, b, to, src, dst)[j]
  {
    hide Apply, Width;
    InsideConcat(abi, b, c, to, |dst|);
    InsideConcat(abi, b, c, Other(to), |src|);
    ApplyConcat(abi, a, b + c, to, src, dst);
    var d := Apply(abi, a, to, src, dst);
    ApplyConcat(abi, b, c, to, src, d);
    ApplyBelow(abi, c, to, src, Apply(abi, b, to, src, d), hi, j);
    ApplyAbove(abi, a, to, src, dst, lo, j);
    ApplyAgree(abi, b, to, src, d, dst, j);
  }

  // ---- elements of arrays

  lemma {:induction false} ArrayCut(abi: Abi, reg: seq<Entry>, n: nat, elem: Ty, count: nat, i: nat, ot: nat, oh: nat)
    requires RegOk(abi, reg) && ThunkTypes.Below(elem, n) && n <= |reg| && i <= count
    ensures
      ArrayLeaves(abi, reg, n, elem, count, ot, oh) ==
      ArrayLeaves(abi, reg, n, elem, i, ot, oh) +
      ArrayLeaves(abi, reg, n, elem, count - i, ot + Span(i, Size(abi, reg, elem, Target)), oh + Span(i, Size(abi, reg, elem, Host)))
    decreases i
  {
    hide RegOk, Leaves, Size, Span;
    SpanStep(i, Size(abi, reg, elem, Target));
    SpanStep(i, Size(abi, reg, elem, Host));
    if i > 0 {
      ArrayCut(abi, reg, n, elem, count - 1, i - 1, ot + Size(abi, reg, elem, Target), oh + Size(abi, reg, elem, Host));
    }
  }

  lemma SpanWhole(count: nat, i: nat, s: nat)
    requires i < count
    ensures Span(count, s) == Span(i, s) + (s + Span(count - i - 1, s))
  {
    assert count * s == i * s + (count - i) * s;
    assert (count - i) * s == s + (count - i - 1) * s;
  }

  /** Element i of an array starts i element sizes into it, on either side. */
  lemma ArrayByElement(abi: Abi, reg: seq<Entry>, elem: Ty, count: nat, to: Side, src: seq<byte>, so: nat, dst: seq<byte>, dest: nat,
                       i: nat, j: nat)
    requires RegOk(abi, reg) && ThunkTypes.Below(elem, |reg|) && i < count
    requires so + Span(count, Size(abi, reg, elem, Other(to))) <= |src| && dest + Span(count, Size(abi, reg, elem, to)) <= |dst|
    requires ElementAt(abi, reg, elem, to, dest, i) <= j < ElementAt(abi, reg, elem, to, dest, i) + Size(abi, reg, elem, to)
    ensures ThunkTypes.Below(Array(count, elem), |reg|) && j < |dst|
    ensures so + Size(abi, reg, Array(count, elem), Other(to)) <= |src| && dest + Size(abi, reg, Array(count, elem), to) <= |dst|
    ensures ElementAt(abi, reg, elem, Other(to), so, i) + Size(abi, reg, elem, Other(to)) <= |src|
    ensures ElementAt(abi, reg, elem, to, dest, i) + Size(abi, reg, elem, to) <= |dst|
    ensures
      Converted(abi, reg, Array(count, elem), to, src, so, dst, dest)[j] ==
      Converted(abi, reg, elem, to, src, ElementAt(abi, reg, elem, Other(to), so, i), dst, ElementAt(abi, reg, elem, to, dest, i))[j]
  {
    hide *;
    BelowArray(count, elem, |reg|);
    ElementInside(abi, reg, elem, count, to, i);
    ElementInside(abi, reg, elem, count, Other(to), i);
    var ls, b := LeavesAt(abi, reg, Array(count, elem), to, so, dest),
                 LeavesAt(abi, reg, elem, to, ElementAt(abi, reg, elem, Other(to), so, i), ElementAt(abi, reg, elem, to, dest, i));
    LeavesFit(abi, reg, Array(count, elem), to, so, dest, |src|, |dst|);
    LeavesFit(abi, reg, elem, to, ElementAt(abi, reg, elem, Other(to), so, i), ElementAt(abi, reg, elem, to, dest, i), |src|, |dst|);
    var a, c := ElementParts(abi, reg, elem, count, to, so, dest, i);
    PartsInside(abi, a, b, c, Other(to), |src|);
    PartsInside(abi, a, b, c, to, |dst|);
    var at := ElementAt(abi, reg, elem, to, dest, i);
    MiddleLeaves(abi, a, b, c, to, src, dst, at, at + Size(abi, reg, elem, to), j);
    ConvertedIs(abi, reg, Array(count, elem), to, src, so, dst, dest);
    ConvertedIs(abi, reg, elem, to, src, ElementAt(abi, reg, elem, Other(to), so, i), dst, at);
  }

  /** Where element i of an array at o starts. */
  function ElementAt(abi: Abi, reg: seq<Entry>, elem: Ty, side: Side, o: nat, i: nat): nat {
    o + i * Size(abi, reg, elem, side)
  }

  lemma BelowArray(count: nat, elem: Ty, n: nat)
    requires ThunkTypes.Below(elem, n)
    ensures ThunkTypes.Below(Array(count, elem), n)
  {
  }

  lemma ConvertedIs(abi: Abi, reg: seq<Entry>, t: Ty, to: Side, src: seq<byte>, so: nat, dst: seq<byte>, dest: nat)
    requires RegOk(abi, reg) && ThunkTypes.Below(t, |reg|)
    requires so + Size(abi, reg, t, Other(to)) <= |src| && dest + Size(abi, reg, t, to) <= |dst|
    ensures Inside(abi, LeavesAt(abi, reg, t, to, so, dest), Other(to), |src|)
    ensures Inside(abi, LeavesAt(abi, reg, t, to, so, dest), to, |dst|)
    ensures Converted(abi, reg, t, to, src, so, dst, dest) == Apply(abi, LeavesAt(abi, reg, t, to, so, dest), to, src, dst)
  {
    hide RegOk, LeavesAt, Size, Apply, Inside;
    LeavesFit(abi, reg, t, to, so, dest, |src|, |dst|);
  }

  lemma ElementInside(abi: Abi, reg: seq<Entry>, elem: Ty, count: nat, side: Side, i: nat)
    requires i < count
    ensures Size(abi, reg, Array(count, elem), side) == Span(count, Size(abi, reg, elem, side))
    ensures forall o: nat ::
      ElementAt(abi, reg, elem, side, o, i) + Size(abi, reg, elem, side) <= o + Span(count, Size(abi, reg, elem, side))
  {
    SpanWhole(count, i, Size(abi, reg, elem, side));
    forall o: nat
      ensures ElementAt(abi, reg, elem, side, o, i) + Size(abi, reg, elem, side) <= o + Span(count, Size(abi, reg, elem, side))
    {
      AtSpan(abi, reg, elem, side, o, i);
    }
  }

  lemma AtSpan(abi: Abi, reg: seq<Entry>, elem: Ty, side: Side, o: nat, i: nat)
    ensures ElementAt(abi, reg, elem, side, o, i) == o + Span(i, Size(abi, reg, elem, side))
  {
    hide Size;
  }

  /** The leaves of an array before and after those of element i. */
  lemma ElementParts(abi: Abi, reg: seq<Entry>, elem: Ty, count: nat, to: Side, so: nat, dest: nat, i: nat)
    returns (a: seq<Leaf>, c: seq<Leaf>)
    requires RegOk(abi, reg) && ThunkTypes.Below(elem, |reg|) && ThunkTypes.Below(Array(count, elem), |reg|) && i < count
    ensures
      var b := LeavesAt(abi, reg, elem, to, ElementAt(abi, reg, elem, Other(to), so, i), ElementAt(abi, reg, elem, to, dest, i));
      LeavesAt(abi, reg, Array(count, elem), to, so, dest) == a + (b + c)
    ensures Inside(abi, a, to, ElementAt(abi, reg, elem, to, dest, i))
    ensures forall x :: 0 <= x < |c| ==> ElementAt(abi, reg, elem, to, dest, i) + Size(abi, reg, elem, to) <= At(c[x], to)
  {
    hide RegOk, Leaves, ArrayLeaves, Inside, Ascending, Size, Span, ElementAt, At;
    var n, ot, oh := |reg|, if to == Host then so else dest, if to == Host then dest else so;
    var st, sh := Size(abi, reg, elem, Target), Size(abi, reg, elem, Host);
    var k := Size(abi, reg, elem, to);
    ElementLeaves(abi, reg, elem, count, i, ot, oh);
    AtSpan(abi, reg, elem, to, dest, i);
    AtSpan(abi, reg, elem, Other(to), so, i);
    a := ArrayLeaves(abi, reg, n, elem, i, ot, oh);
    c := ArrayLeaves(abi, reg, n, elem, count - i - 1, ot + Span(i, st) + st, oh + Span(i, sh) + sh);
    ArrayAscends(abi, reg, n, elem, i, ot, oh, to);
    AscendingInside(abi, a, to, dest, dest + Span(i, k));
    ArrayAscends(abi, reg, n, elem, count - i - 1, ot + Span(i, st) + st, oh + Span(i, sh) + sh, to);
    AscendingInside(abi, c, to, dest + Span(i, k) + k, dest + Span(i, k) + k + Span(count - i - 1, k));
  }

  lemma ElementLeaves(abi: Abi, reg: seq<Entry>, elem: Ty, count: nat, i: nat, ot: nat, oh: nat)
    requires RegOk(abi, reg) && ThunkTypes.Below(elem, |reg|) && i < count
    ensures
      var st, sh := Size(abi, reg, elem, Target), Size(abi, reg, elem, Host);
      Leaves(abi, reg, |reg|, Array(count, elem), ot, oh) ==
      ArrayLeaves(abi, reg, |reg|, elem, i, ot, oh) +
      (Leaves(abi, reg, |reg|, elem, ot + Span(i, st), oh + Span(i, sh)) +
       ArrayLeaves(abi, reg, |reg|, elem, count - i - 1, ot + Span(i, st) + st, oh + Span(i, sh) + sh))
  {
    hide RegOk, Size, Span;
    ArrayCut(abi, reg, |reg|, elem, count, i, ot, oh);
  }

  lemma PartsInside(abi: Abi, a: seq<Leaf>, b: seq<Leaf>, c: seq<Leaf>, side: Side, len: nat)
    requires Inside(abi, a + (b + c), side, len)
    ensures Inside(abi, a, side, len) && Inside(abi, b, side, len) && Inside(abi, c, side, len)
  {
    hide Width;
    var all := a + (b + c);
    forall i | 0 <= i < |a| ensures At(a[i], side) + Width(abi, a[i], side) <= len {
      assert all[i] == a[i];
    }
    forall i | 0 <= i < |b| ensures At(b[i], side) + Width(abi, b[i], side) <= len {
      assert all[|a| + i] == b[i];
    }
    forall i | 0 <= i < |c| ensures At(c[i], side) + Width(abi, c[i], side) <= len {
      assert all[|a| + |b| + i] == c[i];
    }
  }

  // ---- fields of structs

  lemma {:induction false} FieldCut(abi: Abi, reg: seq<Entry>, n: nat, fields: seq<Ty>, tos: seq<nat>, hos: seq<nat>, i: nat, ot: nat,
                                    oh: nat)
    requires RegOk(abi, reg) && AllBelow(fields, n) && n <= |reg| && |tos| == |hos| == |fields| && i <= |fields|
    ensures
      FieldLeaves(abi, reg, n, fields, tos, hos, ot, oh) ==
      FieldLeaves(abi, reg, n, fields[..i], tos[..i], hos[..i], ot, oh) +
      FieldLeaves(abi, reg, n, fields[i..], tos[i..], hos[i..], ot, oh)
    decreases i
  {
    hide RegOk, Leaves;
    if i == 0 {
      assert fields[0..] == fields && tos[0..] == tos && hos[0..] == hos;
    } else {
      FieldCut(abi, reg, n, fields[1..], tos[1..], hos[1..], i - 1, ot, oh);
      assert fields[..i][1..] == fields[1..][..i - 1] && tos[..i][1..] == tos[1..][..i - 1] && hos[..i][1..] == hos[1..][..i - 1];
      assert fields[1..][i - 1..] == fields[i..] && tos[1..][i - 1..] == tos[i..] && hos[1..][i - 1..] == hos[i..];
    }
  }

  /** The fields before i end where field i may start. */
  lemma {:induction false} StackedCut(abi: Abi, reg: seq<Entry>, fields: seq<Ty>, side: Side, os: seq<nat>, lo: nat, hi: nat, i: nat)
    returns (mid: nat)
    requires Stacked(abi, reg, fields, side, os, lo, hi) && i < |fields|
    ensures Stacked(abi, reg, fields[..i], side, os[..i], lo, mid) && mid <= os[i]
    ensures Stacked(abi, reg, fields[i + 1..], side, os[i + 1..], os[i] + Size(abi, reg, fields[i], side), hi)
    decreases i
  {
    hide Size, Align, LeastAligned;
    if i == 0 {
      mid := lo;
      LeastFrom(os[0], lo, Align(abi, reg, fields[0], side));
    } else {
      mid := StackedCut(abi, reg, fields[1..], side, os[1..], os[0] + Size(abi, reg, fields[0], side), hi, i - 1);
      assert fields[..i][1..] == fields[1..][..i - 1] && os[..i][1..] == os[1..][..i - 1];
      assert fields[1..][i..] == fields[i + 1..] && os[1..][i..] == os[i + 1..];
    }
  }

  lemma LeastFrom(at: nat, lo: nat, align: nat)
    requires LeastAligned(at, lo, align)
    ensures lo <= at
  {
  }

  /** Field i of a struct starts at its own offset, on either side. */
  lemma StructByField(abi: Abi, reg: seq<Entry>, id: nat, to: Side, src: seq<byte>, so: nat, dst: seq<byte>, dest: nat, i: nat, j: nat)
    requires RegOk(abi, reg) && id < |reg| && i < |reg[id].fields|
    requires so + On(reg[id], Other(to)).size <= |src| && dest + On(reg[id], to).size <= |dst|
    requires |On(reg[id], to).offsets| == |On(reg[id], Other(to)).offsets| == |reg[id].fields|
    requires
      var at := dest + On(reg[id], to).offsets[i];
      at <= j < at + Size(abi, reg, reg[id].fields[i], to)
    ensures ThunkTypes.Below(Struct(id), |reg|) && ThunkTypes.Below(reg[id].fields[i], |reg|) && j < |dst|
    ensures so + On(reg[id], Other(to)).offsets[i] + Size(abi, reg, reg[id].fields[i], Other(to)) <= |src|
    ensures dest + On(reg[id], to).offsets[i] + Size(abi, reg, reg[id].fields[i], to) <= |dst|
    ensures
      Converted(abi, reg, Struct(id), to, src, so, dst, dest)[j] ==
      Converted(abi, reg, reg[id].fields[i], to, src, so + On(reg[id], Other(to)).offsets[i], dst,
                dest + On(reg[id], to).offsets[i])[j]
  {
    hide RegOk, Leaves, FieldLeaves, Apply, Inside, Width, Ascending, Size, Stacked, LeastAligned;
    var e, f := reg[id], reg[id].fields[i];
    FieldsBelow(abi, reg, id);
    BelowMore(f, id, |reg|);
    FieldRoom(abi, reg, id, to, i);
    FieldRoom(abi, reg, id, Other(to), i);
    StructSize(abi, reg, id, to);
    StructSize(abi, reg, id, Other(to));
    var ot, oh := if to == Host then so else dest, if to == Host then dest else so;
    var a := FieldLeaves(abi, reg, id, e.fields[..i], e.target.offsets[..i], e.host.offsets[..i], ot, oh);
    var b := Leaves(abi, reg, id, f, ot + e.target.offsets[i], oh + e.host.offsets[i]);
    var c := FieldLeaves(abi, reg, id, e.fields[i + 1..], e.target.offsets[i + 1..], e.host.offsets[i + 1..], ot, oh);
    StructLeaves(abi, reg, id, i, ot, oh);
    LeavesFit(abi, reg, Struct(id), to, so, dest, |src|, |dst|);
    LeavesFit(abi, reg, f, to, so + On(e, Other(to)).offsets[i], dest + On(e, to).offsets[i], |src|, |dst|);
    assert LeavesAt(abi, reg, Struct(id), to, so, dest) == a + (b + c);
    LeavesSame(abi, reg, id, |reg|, f, ot + e.target.offsets[i], oh + e.host.offsets[i]);
    assert LeavesAt(abi, reg, f, to, so + On(e, Other(to)).offsets[i], dest + On(e, to).offsets[i]) == b;
    PartsInside(abi, a, b, c, Other(to), |src|);
    PartsInside(abi, a, b, c, to, |dst|);
    FieldBounds(abi, reg, id, to, i, ot, oh);
    MiddleLeaves(abi, a, b, c, to, src, dst, dest + On(e, to).offsets[i], dest + On(e, to).offsets[i] + Size(abi, reg, f, to), j);
  }

  lemma StructSize(abi: Abi, reg: seq<Entry>, id: nat, side: Side)
    requires id < |reg|
    ensures Size(abi, reg, Struct(id), side) == On(reg[id], side).size
  {
  }

  lemma StructLeaves(abi: Abi, reg: seq<Entry>, id: nat, i: nat, ot: nat, oh: nat)
    requires RegOk(abi, reg) && id < |reg| && i < |reg[id].fields|
    requires AllBelow(reg[id].fields, id) && |reg[id].fields| == |reg[id].target.offsets| == |reg[id].host.offsets|
    ensures
      var e := reg[id];
      Leaves(abi, reg, |reg|, Struct(id), ot, oh) ==
      FieldLeaves(abi, reg, id, e.fields[..i], e.target.offsets[..i], e.host.offsets[..i], ot, oh) +
      (Leaves(abi, reg, id, e.fields[i], ot + e.target.offsets[i], oh + e.host.offsets[i]) +
       FieldLeaves(abi, reg, id, e.fields[i + 1..], e.target.offsets[i + 1..], e.host.offsets[i + 1..], ot, oh))
  {
    hide RegOk;
    var e := reg[id];
    FieldCut(abi, reg, id, e.fields, e.target.offsets, e.host.offsets, i, ot, oh);
    assert e.fields[i..][1..] == e.fields[i + 1..] && e.fields[i..][0] == e.fields[i];
    assert e.target.offsets[i..][1..] == e.target.offsets[i + 1..] && e.host.offsets[i..][1..] == e.host.offsets[i + 1..];
  }

  /** The leaves of a type do not depend on how many structs there are beyond those it mentions. */
  lemma {:induction false} LeavesSame(abi: Abi, reg: seq<Entry>, n: nat, n': nat, t: Ty, ot: nat, oh: nat)
    requires RegOk(abi, reg) && ThunkTypes.Below(t, n) && ThunkTypes.Below(t, n') && n <= |reg| && n' <= |reg|
    ensures Leaves(abi, reg, n, t, ot, oh) == Leaves(abi, reg, n', t, ot, oh)
    decreases t, 0
  {
    hide RegOk;
    if t.Array? {
      ArraySame(abi, reg, n, n', t.elem, t.n, ot, oh);
    }
  }

  lemma {:induction false} ArraySame(abi: Abi, reg: seq<Entry>, n: nat, n': nat, elem: Ty, count: nat, ot: nat, oh: nat)
    requires RegOk(abi, reg) && ThunkTypes.Below(elem, n) && ThunkTypes.Below(elem, n') && n <= |reg| && n' <= |reg|
    ensures ArrayLeaves(abi, reg, n, elem, count, ot, oh) == ArrayLeaves(abi, reg, n', elem, count, ot, oh)
    decreases elem, 1 + count
  {
    hide RegOk, Leaves, Size;
    if count > 0 {
      LeavesSame(abi, reg, n, n', elem, ot, oh);
      ArraySame(abi, reg, n, n', elem, count - 1, ot + Size(abi, reg, elem, Target), oh + Size(abi, reg, elem, Host));
    }
  }

  lemma FieldRoom(abi: Abi, reg: seq<Entry>, id: nat, side: Side, i: nat)
    requires RegOk(abi, reg) && id < |reg| && i < |reg[id].fields|
    ensures |On(reg[id], side).offsets| == |reg[id].fields|
    ensures On(reg[id], side).offsets[i] + Size(abi, reg, reg[id].fields[i], side) <= On(reg[id], side).size
  {
    hide RegOk, Stacked, LeastAligned, Size, Align;
    LayoutLaws(abi, reg, id, side);
    var fs, l := reg[id].fields, On(reg[id], side);
    var end: nat :| Stacked(abi, reg, fs, side, l.offsets, 0, end) && LeastAligned(l.size, end, l.align);
    StackedApart(abi, reg, fs, side, l.offsets, 0, end, i, i);
    LeastFrom(l.size, end, l.align);
  }

  /** Leaves of earlier fields end before field i, those of later ones start after it. */
  lemma FieldBounds(abi: Abi, reg: seq<Entry>, id: nat, side: Side, i: nat, ot: nat, oh: nat)
    requires RegOk(abi, reg) && id < |reg| && i < |reg[id].fields| && AllBelow(reg[id].fields, id)
    requires |reg[id].fields| == |reg[id].target.offsets| == |reg[id].host.offsets|
    ensures
      var e, o := reg[id], if side == Host then oh else ot;
      var a := FieldLeaves(abi, reg, id, e.fields[..i], e.target.offsets[..i], e.host.offsets[..i], ot, oh);
      var c := FieldLeaves(abi, reg, id, e.fields[i + 1..], e.target.offsets[i + 1..], e.host.offsets[i + 1..], ot, oh);
      && Inside(abi, a, side, o + On(e, side).offsets[i])
      && forall x :: 0 <= x < |c| ==> o + On(e, side).offsets[i] + Size(abi, reg, e.fields[i], side) <= At(c[x], side)
  {
    hide RegOk, Stacked, LeastAligned, Size, Align, FieldLeaves, Inside, Ascending;
    LayoutLaws(abi, reg, id, side);
    var e, l := reg[id], On(reg[id], side);
    var o := if side == Host then oh else ot;
    var end: nat :| Stacked(abi, reg, e.fields, side, l.offsets, 0, end) && LeastAligned(l.size, end, l.align);
    var mid := StackedCut(abi, reg, e.fields, side, l.offsets, 0, end, i);
    FieldsAscend(abi, reg, id, e.fields[..i], e.target.offsets[..i], e.host.offsets[..i], ot, oh, side, 0, mid);
    var a := FieldLeaves(abi, reg, id, e.fields[..i], e.target.offsets[..i], e.host.offsets[..i], ot, oh);
    AscendingInside(abi, a, side, o, o + mid);
    InsideMore(abi, a, side, o + mid, o + l.offsets[i]);
    var after := l.offsets[i] + Size(abi, reg, e.fields[i], side);
    FieldsAscend(abi, reg, id, e.fields[i + 1..], e.target.offsets[i + 1..], e.host.offsets[i + 1..], ot, oh, side, after, end);
    var c := FieldLeaves(abi, reg, id, e.fields[i + 1..], e.target.offsets[i + 1..], e.host.offsets[i + 1..], ot, oh);
    AscendingInside(abi, c, side, o + after, o + end);
  }

  // ---- scalars

  /** Scalars of one width on both sides are copied byte for byte; a pointer with a target is left alone. */
  lemma FixedCopied(abi: Abi, reg: seq<Entry>, t: Ty, to: Side, src: seq<byte>, so: nat, dst: seq<byte>, dest: nat, w: nat)
    requires RegOk(abi, reg) && ThunkTypes.Below(t, |reg|)
    requires
      match t
      case Char => w == 1
      case Short => w == 2
      case Int => w == 4
      case LongLong => w == 8
      case ULongLong => w == 8
      case Ptr(_) => w == 0
      case _ => false
    requires so + Size(abi, reg, t, Other(to)) <= |src| && dest + Size(abi, reg, t, to) <= |dst|
    ensures so + w <= |src| && dest + w <= |dst|
    ensures Converted(abi, reg, t, to, src, so, dst, dest) == dst[..dest] + src[so..so + w] + dst[dest + w..]
  {
    hide *;
    FixedLeaf(abi, reg, t, to, so, dest, w);
    ConvertedIs(abi, reg, t, to, src, so, dst, dest);
    if t.Ptr? {
      assert src[so..so + w] == [];
      NoLeaves(abi, to, src, dst);
    } else {
      var l := LongLeaf(t, to, so, dest);
      OneApplied(abi, l, to, src, dst);
      CopiedBytes(abi, l, to, src, w);
      assert Splice(dst, dest, src[so..so + w]) == dst[..dest] + src[so..so + w] + dst[dest + w..] by {
        Spliced(dst, dest, src[so..so + w]);
      }
    }
  }

  lemma FixedLeaf(abi: Abi, reg: seq<Entry>, t: Ty, to: Side, so: nat, dest: nat, w: nat)
    requires RegOk(abi, reg) && ThunkTypes.Below(t, |reg|)
    requires
      match t
      case Char => w == 1
      case Short => w == 2
      case Int => w == 4
      case LongLong => w == 8
      case ULongLong => w == 8
      case Ptr(_) => w == 0
      case _ => false
    ensures Size(abi, reg, t, to) >= w && Size(abi, reg, t, Other(to)) >= w
    ensures LeavesAt(abi, reg, t, to, so, dest) == if t.Ptr? then [] else [LongLeaf(t, to, so, dest)]
    ensures
      var l := LongLeaf(t, to, so, dest);
      && At(l, to) == dest && At(l, Other(to)) == so
      && (!t.Ptr? ==> Width(abi, l, to) == w && Width(abi, l, Other(to)) == w)
  {
    hide RegOk;
  }

  lemma NoLeaves(abi: Abi, to: Side, src: seq<byte>, dst: seq<byte>)
    ensures Inside(abi, [], Other(to), |src|) && Inside(abi, [], to, |dst|) && Apply(abi, [], to, src, dst) == dst
  {
  }

  lemma Spliced(s: seq<byte>, at: nat, bs: seq<byte>)
    requires at + |bs| <= |s|
    ensures Splice(s, at, bs) == s[..at] + bs + s[at + |bs|..]
  {
  }

  lemma CopiedBytes(abi: Abi, l: Leaf, to: Side, src: seq<byte>, w: nat)
    requires Width(abi, l, to) == w && Width(abi, l, Other(to)) == w && At(l, Other(to)) + w <= |src|
    ensures LeafBytes(abi, l, to, src) == src[At(l, Other(to))..At(l, Other(to)) + w]
  {
    hide Width;
  }
}
