/**
 Longs under the two layouts, in the bytes that each side's own ABI gives them: what conversion
 does to their numbers, which of them survive the way there and back, and where they sit.
 */
module ThunkNumbers {
  import opened Bits
  import opened Wrapping
  import opened ThunkTypes
  import opened ThunkLayout
  import opened ThunkConversion
  import opened ThunkLaws

  /** The types whose width depends on the side. */
  predicate LongLike(t: Ty) {
    t == Long || t == ULong || t == PtrVoid
  }

  /** A long takes n bytes on the side it comes from and k on the other. */
  predicate LongBytes(abi: Abi, from: Side, n: nat, k: nat) {
    match from
    case Target => n == abi.target && k == abi.host
    case Host => n == abi.host && k == abi.target
  }

  lemma LongSides(abi: Abi, reg: seq<Entry>, t: Ty, from: Side, n: nat, k: nat)
    requires LongLike(t) && LongBytes(abi, from, n, k)
    ensures Size(abi, reg, t, from) == n && Size(abi, reg, t, Other(from)) == k && Other(Other(from)) == from
    ensures ThunkTypes.Below(t, |reg|) && Scalar(t)
  {
  }

  function LongLeaf(t: Ty, to: Side, so: nat, dest: nat): Leaf {
    if to == Host then Leaf(t, so, dest) else Leaf(t, dest, so)
  }

  lemma LongLeaves(abi: Abi, reg: seq<Entry>, t: Ty, to: Side, so: nat, dest: nat)
    requires RegOk(abi, reg) && LongLike(t)
    ensures LeavesAt(abi, reg, t, to, so, dest) == [LongLeaf(t, to, so, dest)]
    ensures At(LongLeaf(t, to, so, dest), to) == dest && At(LongLeaf(t, to, so, dest), Other(to)) == so
  {
  }

  /** One long is read whole, resized, and put down; nothing else changes. */
  lemma LongMoved(abi: Abi, reg: seq<Entry>, t: Ty, from: Side, n: nat, k: nat, src: seq<byte>, so: nat, dst: seq<byte>, dest: nat)
    requires RegOk(abi, reg) && LongLike(t) && LongBytes(abi, from, n, k) && so + n <= |src| && dest + k <= |dst|
    ensures Size(abi, reg, t, from) == n && Size(abi, reg, t, Other(from)) == k && Other(Other(from)) == from
    ensures Converted(abi, reg, t, Other(from), src, so, dst, dest) == dst[..dest] + Resize(src[so..so + n], k, t.Long?) + dst[dest + k..]
  {
    hide RegOk, Size, Leaves, Resize, Inside;
    var to := Other(from);
    LongSides(abi, reg, t, from, n, k);
    LongSides(abi, [], t, from, n, k);
    LongLeaves(abi, reg, t, to, so, dest);
    LeavesFit(abi, reg, t, to, so, dest, |src|, |dst|);
    OneApplied(abi, LongLeaf(t, to, so, dest), to, src, dst);
  }

  lemma OneApplied(abi: Abi, l: Leaf, to: Side, src: seq<byte>, dst: seq<byte>)
    requires Inside(abi, [l], Other(to), |src|) && Inside(abi, [l], to, |dst|)
    ensures At(l, Other(to)) + Width(abi, l, Other(to)) <= |src| && At(l, to) + Width(abi, l, to) <= |dst|
    ensures Apply(abi, [l], to, src, dst) == Splice(dst, At(l, to), LeafBytes(abi, l, to, src))
  {
    hide LeafBytes, Width;
    assert [l][0] == l && [l][1..] == [];
  }

  /**
   Converting a long reads the bytes a long has where it comes from and writes those it has where
   it goes, and no others. Cut, it keeps the low part of its number; otherwise a signed one keeps
   its signed value and an unsigned one its number.
   */
  lemma LongConverts(abi: Abi, reg: seq<Entry>, t: Ty, from: Side, n: nat, k: nat, src: seq<byte>, so: nat, dst: seq<byte>, dest: nat)
    requires RegOk(abi, reg) && LongLike(t) && LongBytes(abi, from, n, k) && so + n <= |src| && dest + k <= |dst|
    ensures Size(abi, reg, t, from) == n && Size(abi, reg, t, Other(from)) == k && Other(Other(from)) == from && n > 0 && k > 0
    ensures
      var r := Converted(abi, reg, t, Other(from), src, so, dst, dest);
      var x, y := Number(src[so..so + n]), Number(r[dest..dest + k]);
      && r[..dest] == dst[..dest] && r[dest + k..] == dst[dest + k..]
      && (k <= n ==> y == x % Pow2(8 * k))
      && (k >= n && t.Long? ==> Signed(y, 8 * k) == Signed(x, 8 * n))
      && (k >= n && !t.Long? ==> y == x)
  {
    hide RegOk, Size, Resize, Number, Converted, Signed;
    AbiBytes(abi, reg, from, n, k);
    LongMoved(abi, reg, t, from, n, k, src, so, dst, dest);
    var bs := src[so..so + n];
    if k <= n {
      CutNumber(bs, k);
      Shortened(bs, k, t.Long?);
    } else if t.Long? {
      ResizeSigned(bs, k);
    } else {
      ResizeNumber(bs, k);
      NumberBound(bs);
      Pow2Mono(8 * n, 8 * k);
      SmallRest(Number(bs), Pow2(8 * k));
    }
    if k == n {
      NumberBound(bs);
      SmallRest(Number(bs), Pow2(8 * k));
    }
  }

  lemma AbiBytes(abi: Abi, reg: seq<Entry>, from: Side, n: nat, k: nat)
    requires RegOk(abi, reg) && LongBytes(abi, from, n, k)
    ensures (n == 4 || n == 8) && (k == 4 || k == 8)
  {
  }

  lemma Shortened(bs: seq<byte>, k: nat, signed: bool)
    requires k <= |bs|
    ensures Resize(bs, k, signed) == bs[..k]
  {
  }

  /** The range of the signed or the unsigned numbers of k bytes. */
  predicate Representable(x: int, k: nat, signed: bool)
    requires k > 0
  {
    if signed then 0 - Pow2(8 * k - 1) <= x < Pow2(8 * k - 1) else 0 <= x < Pow2(8 * k)
  }

  /** The value of the bytes of a long. */
  function LongValue(t: Ty, bs: seq<byte>): int
    requires bs != []
  {
    if t.Long? then Signed(Number(bs), 8 * |bs|) else Number(bs)
  }

  /** A long comes back from the other side exactly when its value is one that the other side's long can have. */
  lemma LongReturns(abi: Abi, reg: seq<Entry>, t: Ty, from: Side, n: nat, k: nat, src: seq<byte>, so: nat, mid0: seq<byte>, mo: nat,
                    back0: seq<byte>)
    requires RegOk(abi, reg) && LongLike(t) && LongBytes(abi, from, n, k)
    requires so + n <= |src| == |back0| && mo + k <= |mid0|
    ensures Size(abi, reg, t, from) == n && Size(abi, reg, t, Other(from)) == k && Other(Other(from)) == from && n > 0 && k > 0
    ensures
      var mid := Converted(abi, reg, t, Other(from), src, so, mid0, mo);
      var back := Converted(abi, reg, t, from, mid, mo, back0, so);
      back[so..so + n] == src[so..so + n] <==> Representable(LongValue(t, src[so..so + n]), k, t.Long?)
  {
    hide RegOk, Size, Resize, Number, Converted, Representable, LongValue;
    AbiBytes(abi, reg, from, n, k);
    LongMoved(abi, reg, t, from, n, k, src, so, mid0, mo);
    var mid := Converted(abi, reg, t, Other(from), src, so, mid0, mo);
    assert LongBytes(abi, Other(from), k, n);
    LongMoved(abi, reg, t, Other(from), k, n, mid, mo, back0, so);
    assert mid[mo..mo + k] == Resize(src[so..so + n], k, t.Long?);
    ReturnExact(t, src[so..so + n], k);
  }

  lemma ReturnExact(t: Ty, bs: seq<byte>, k: nat)
    requires bs != [] && k > 0
    ensures Resize(Resize(bs, k, t.Long?), |bs|, t.Long?) == bs <==> Representable(LongValue(t, bs), k, t.Long?)
  {
    hide Resize, Number, Signed, Fill, Pow2;
    ResizeBack(bs, k, t.Long?);
    NumberBound(bs);
    Double(8 * |bs|);
    Double(8 * k);
    if k >= |bs| {
      Pow2Mono(8 * |bs|, 8 * k);
      Pow2Mono(8 * |bs| - 1, 8 * k - 1);
      SignedRange(Number(bs), 8 * |bs|);
    } else if t.Long? {
      SignedBytes(bs, k);
    } else {
      CutNumber(bs, k);
      ZeroBytes(bs[k..]);
      assert Fill(bs[..k], |bs| - k, false) == seq(|bs| - k, i => 0 as byte) by {
        FillZeros(bs[..k], |bs| - k);
      }
      DivZero(Number(bs), Pow2(8 * k));
    }
  }

  lemma FillZeros(bs: seq<byte>, k: nat)
    ensures Fill(bs, k, false) == seq(k, i => 0 as byte)
  {
  }

  /** An int and a long, for a 32-bit target on a 64-bit host: the long starts at 4 on one side and at 8 on the other. */
  lemma IntThenLong(reg: seq<Entry>)
    ensures LayoutOf(Abi(4, 8), reg, [Int, Long], Target) == Layout([0, 4], 8, 4)
    ensures LayoutOf(Abi(4, 8), reg, [Int, Long], Host) == Layout([0, 8], 16, 8)
  {
    hide AlignUp;
    assert [Int, Long][1..] == [Long] && [Long][1..] == [];
    Rounded(0, 4, 0);
    Rounded(4, 4, 4);
    Rounded(8, 4, 8);
    Rounded(4, 8, 8);
    Rounded(16, 8, 16);
  }

  lemma Rounded(offset: nat, align: nat, r: nat)
    requires PowerAlign(align) && offset + align <= 0x8000_0000 && r % align == 0 && offset <= r < offset + align
    ensures AlignUp(offset, align) == r
  {
    hide AlignUp;
    AlignUpLeast(offset, align);
    assert AlignUp(offset, align) <= r;
  }
}
