/** The layout that registration gives a struct: aligned, ascending, disjoint, and as tight as can be. */
module ThunkLayout {
  import opened ThunkTypes

  datatype Placed = Placed(offsets: seq<nat>, end: nat, maxAlign: nat)

  function Max(a: nat, b: nat): nat {
    if b > a then b else a
  }

  /** Fields one after the other, each at the next aligned offset. */
  function Place(abi: Abi, reg: seq<Entry>, fields: seq<Ty>, side: Side, offset: nat, maxAlign: nat): (p: Placed)
    ensures |p.offsets| == |fields|
    decreases |fields|
  {
    if fields == [] then Placed([], offset, maxAlign)
    else
      var align := Align(abi, reg, fields[0], side);
      var at := AlignUp(offset, align);
      var p := Place(abi, reg, fields[1..], side, at + Size(abi, reg, fields[0], side), Max(maxAlign, align));
      Placed([at] + p.offsets, p.end, p.maxAlign)
  }

  function LayoutOf(abi: Abi, reg: seq<Entry>, fields: seq<Ty>, side: Side): Layout {
    var p := Place(abi, reg, fields, side, 0, 1);
    Layout(p.offsets, AlignUp(p.end, p.maxAlign), p.maxAlign)
  }

  /** No offset on the way leaves the range of a 32-bit integer. */
  predicate Fits(abi: Abi, reg: seq<Entry>, fields: seq<Ty>, side: Side, offset: nat)
    decreases |fields|
  {
    offset + 8 <= 0x8000_0000 &&
    (fields == [] ||
     Fits(abi, reg, fields[1..], side,
          AlignUp(offset, Align(abi, reg, fields[0], side)) + Size(abi, reg, fields[0], side)))
  }

  /** Each struct was laid out from structs registered before it. */
  predicate EntryOk(abi: Abi, reg: seq<Entry>, id: nat)
    requires id < |reg|
  {
    var e := reg[id];
    && (forall i :: 0 <= i < |e.fields| ==> ThunkTypes.Below(e.fields[i], id))
    && e.target == LayoutOf(abi, reg, e.fields, Target) && Fits(abi, reg, e.fields, Target, 0)
    && e.host == LayoutOf(abi, reg, e.fields, Host) && Fits(abi, reg, e.fields, Host, 0)
  }

  predicate RegOk(abi: Abi, reg: seq<Entry>) {
    AbiOk(abi) && forall id :: 0 <= id < |reg| ==> EntryOk(abi, reg, id)
  }

  // ---- alignments are powers of two

  predicate AllPower(abi: Abi, reg: seq<Entry>, fields: seq<Ty>, side: Side) {
    forall i :: 0 <= i < |fields| ==> PowerAlign(Align(abi, reg, fields[i], side))
  }

  lemma {:induction false} AlignPower(abi: Abi, reg: seq<Entry>, n: nat, t: Ty, side: Side)
    requires RegOk(abi, reg) && ThunkTypes.Below(t, n) && n <= |reg|
    ensures PowerAlign(Align(abi, reg, t, side))
    decreases n, t
  {
    hide LayoutOf, Fits;
    match t
    case Array(_, elem) => AlignPower(abi, reg, n, elem, side);
    case Struct(id) =>
      var e := reg[id];
      assert EntryOk(abi, reg, id);
      forall i | 0 <= i < |e.fields| ensures PowerAlign(Align(abi, reg, e.fields[i], side)) {
        AlignPower(abi, reg, id, e.fields[i], side);
      }
      LayoutAlign(abi, reg, e.fields, side);
    case _ =>
  }

  lemma {:induction false} PlaceAlign(abi: Abi, reg: seq<Entry>, fields: seq<Ty>, side: Side, offset: nat, ma: nat)
    requires AllPower(abi, reg, fields, side) && PowerAlign(ma)
    ensures
      var a := Place(abi, reg, fields, side, offset, ma).maxAlign;
      && PowerAlign(a) && a >= ma
      && (forall i :: 0 <= i < |fields| ==> a >= Align(abi, reg, fields[i], side))
      && (a == ma || exists i :: 0 <= i < |fields| && a == Align(abi, reg, fields[i], side))
    decreases |fields|
  {
    hide AlignUp, Size, Align;
    if fields != [] {
      var align := Align(abi, reg, fields[0], side);
      var rest := fields[1..];
      assert PowerAlign(align);
      forall i | 0 <= i < |rest| ensures PowerAlign(Align(abi, reg, rest[i], side)) {
        assert rest[i] == fields[i + 1];
      }
      var next := AlignUp(offset, align) + Size(abi, reg, fields[0], side);
      PlaceAlign(abi, reg, rest, side, next, Max(ma, align));
      var a := Place(abi, reg, rest, side, next, Max(ma, align)).maxAlign;
      forall i | 0 <= i < |fields| ensures a >= Align(abi, reg, fields[i], side) {
        if i > 0 {
          assert fields[i] == rest[i - 1];
        }
      }
      if a != Max(ma, align) {
        var i :| 0 <= i < |rest| && a == Align(abi, reg, rest[i], side);
        assert fields[i + 1] == rest[i];
      }
    }
  }

  /** A struct is aligned to the largest alignment among its fields. */
  lemma LayoutAlign(abi: Abi, reg: seq<Entry>, fields: seq<Ty>, side: Side)
    requires AllPower(abi, reg, fields, side)
    ensures
      var a := LayoutOf(abi, reg, fields, side).align;
      && PowerAlign(a)
      && (forall i :: 0 <= i < |fields| ==> a >= Align(abi, reg, fields[i], side))
      && (a == 1 || exists i :: 0 <= i < |fields| && a == Align(abi, reg, fields[i], side))
  {
    PlaceAlign(abi, reg, fields, side, 0, 1);
  }

  // ---- offsets

  /** The least multiple of align from lo on. */
  ghost predicate LeastAligned(at: nat, lo: nat, align: nat) {
    align > 0 && at % align == 0 && lo <= at && forall m: nat :: m % align == 0 && m >= lo ==> at <= m
  }

  /** Each field starts at the least aligned offset after the one before it; the last ends at hi. */
  ghost predicate Stacked(abi: Abi, reg: seq<Entry>, fields: seq<Ty>, side: Side, offsets: seq<nat>, lo: nat, hi: nat)
    decreases |fields|
  {
    |offsets| == |fields| &&
    if fields == [] then lo == hi
    else
      && LeastAligned(offsets[0], lo, Align(abi, reg, fields[0], side))
      && Stacked(abi, reg, fields[1..], side, offsets[1..], offsets[0] + Size(abi, reg, fields[0], side), hi)
  }

  lemma {:induction false} PlaceStacks(abi: Abi, reg: seq<Entry>, fields: seq<Ty>, side: Side, offset: nat, ma: nat)
    requires AllPower(abi, reg, fields, side) && Fits(abi, reg, fields, side, offset)
    ensures
      var p := Place(abi, reg, fields, side, offset, ma);
      Stacked(abi, reg, fields, side, p.offsets, offset, p.end) && p.end + 8 <= 0x8000_0000
    decreases |fields|
  {
    hide AlignUp, Size, Align;
    if fields != [] {
      var align := Align(abi, reg, fields[0], side);
      assert PowerAlign(align);
      AlignUpLeast(offset, align);
      var at := AlignUp(offset, align);
      var rest := fields[1..];
      forall i | 0 <= i < |rest| ensures PowerAlign(Align(abi, reg, rest[i], side)) {
        assert rest[i] == fields[i + 1];
      }
      var next := at + Size(abi, reg, fields[0], side);
      PlaceStacks(abi, reg, rest, side, next, Max(ma, align));
      var p := Place(abi, reg, fields, side, offset, ma);
      assert p.offsets[0] == at && p.offsets[1..] == Place(abi, reg, rest, side, next, Max(ma, align)).offsets;
    }
  }

  /** Where a field ends. */
  function FieldEnd(abi: Abi, reg: seq<Entry>, fields: seq<Ty>, side: Side, offsets: seq<nat>, i: nat): nat
    requires i < |fields| == |offsets|
  {
    offsets[i] + Size(abi, reg, fields[i], side)
  }

  /** Stacked fields are aligned, ascend, and do not overlap. */
  lemma {:induction false} StackedApart(abi: Abi, reg: seq<Entry>, fields: seq<Ty>, side: Side, offsets: seq<nat>, lo: nat,
                                        hi: nat, i: nat, j: nat)
    requires Stacked(abi, reg, fields, side, offsets, lo, hi) && i <= j < |fields|
    ensures lo <= offsets[i] && FieldEnd(abi, reg, fields, side, offsets, i) <= hi
    ensures LeastAligned(offsets[i], if i == 0 then lo else FieldEnd(abi, reg, fields, side, offsets, i - 1),
                         Align(abi, reg, fields[i], side))
    ensures i < j ==> FieldEnd(abi, reg, fields, side, offsets, i) <= offsets[j]
    decreases |fields|
  {
    hide Size, Align;
    var next := offsets[0] + Size(abi, reg, fields[0], side);
    var fs, os := fields[1..], offsets[1..];
    StackedLo(abi, reg, fs, side, os, next, hi);
    if i > 0 {
      StackedApart(abi, reg, fs, side, os, next, hi, i - 1, j - 1);
      assert fields[i] == fs[i - 1] && offsets[i] == os[i - 1] && offsets[j] == os[j - 1];
      if i > 1 {
        assert fields[i - 1] == fs[i - 2] && offsets[i - 1] == os[i - 2];
      }
    } else if j > 0 {
      StackedApart(abi, reg, fs, side, os, next, hi, j - 1, j - 1);
      assert offsets[j] == os[j - 1];
    }
  }

  lemma {:induction false} StackedLo(abi: Abi, reg: seq<Entry>, fields: seq<Ty>, side: Side, offsets: seq<nat>, lo: nat, hi: nat)
    requires Stacked(abi, reg, fields, side, offsets, lo, hi)
    ensures lo <= hi
    decreases |fields|
  {
    hide Size, Align;
    if fields != [] {
      StackedLo(abi, reg, fields[1..], side, offsets[1..], offsets[0] + Size(abi, reg, fields[0], side), hi);
    }
  }

  /** The layout of a registered struct, on either side. */
  lemma LayoutLaws(abi: Abi, reg: seq<Entry>, id: nat, side: Side)
    requires RegOk(abi, reg) && id < |reg|
    ensures
      var e := reg[id];
      var l := On(e, side);
      && |l.offsets| == |e.fields| && PowerAlign(l.align)
      && (exists end: nat :: Stacked(abi, reg, e.fields, side, l.offsets, 0, end) && LeastAligned(l.size, end, l.align))
      && (forall i :: 0 <= i < |e.fields| ==> l.align >= Align(abi, reg, e.fields[i], side))
      && (l.align == 1 || exists i :: 0 <= i < |e.fields| && l.align == Align(abi, reg, e.fields[i], side))
  {
    hide Stacked, LeastAligned, Place, AlignUp, Fits;
    var fields := reg[id].fields;
    assert EntryOk(abi, reg, id);
    forall i | 0 <= i < |fields| ensures PowerAlign(Align(abi, reg, fields[i], side)) {
      AlignPower(abi, reg, id, fields[i], side);
    }
    LayoutAlign(abi, reg, fields, side);
    PlaceStacks(abi, reg, fields, side, 0, 1);
    var p := Place(abi, reg, fields, side, 0, 1);
    var l := On(reg[id], side);
    assert l == LayoutOf(abi, reg, fields, side);
    AlignUpLeast(p.end, l.align);
    LeastIs(p.end, l.align);
    assert Stacked(abi, reg, fields, side, l.offsets, 0, p.end) && LeastAligned(l.size, p.end, l.align);
  }

  lemma LeastIs(lo: nat, align: nat)
    requires PowerAlign(align) && lo + align <= 0x8000_0000
    ensures LeastAligned(AlignUp(lo, align), lo, align)
  {
    hide AlignUp;
    AlignUpLeast(lo, align);
  }

  /** Fields of a registered struct, in the words of the offsets themselves. */
  lemma FieldsApart(abi: Abi, reg: seq<Entry>, id: nat, side: Side, i: nat, j: nat)
    requires RegOk(abi, reg) && id < |reg| && i < j < |reg[id].fields|
    ensures
      var fs, l := reg[id].fields, On(reg[id], side);
      && |l.offsets| == |fs|
      && Align(abi, reg, fs[i], side) > 0 && l.offsets[i] % Align(abi, reg, fs[i], side) == 0
      && FieldEnd(abi, reg, fs, side, l.offsets, i) <= l.offsets[j]
      && FieldEnd(abi, reg, fs, side, l.offsets, j) <= l.size
      && l.align > 0 && l.size % l.align == 0
  {
    hide Stacked, AlignUp, Size, Align, EntryOk;
    LayoutLaws(abi, reg, id, side);
    var fs, l := reg[id].fields, On(reg[id], side);
    var end: nat :| Stacked(abi, reg, fs, side, l.offsets, 0, end) && LeastAligned(l.size, end, l.align);
    StackedApart(abi, reg, fs, side, l.offsets, 0, end, i, j);
    StackedApart(abi, reg, fs, side, l.offsets, 0, end, j, j);
  }

  /** Sizes are multiples of alignments, so the elements of an array stay aligned. */
  lemma {:induction false} SizeMultiple(abi: Abi, reg: seq<Entry>, t: Ty, side: Side)
    requires RegOk(abi, reg) && ThunkTypes.Below(t, |reg|)
    ensures Align(abi, reg, t, side) > 0 && Size(abi, reg, t, side) % Align(abi, reg, t, side) == 0
    decreases t
  {
    AlignPower(abi, reg, |reg|, t, side);
    match t
    case Array(n, elem) =>
      SizeMultiple(abi, reg, elem, side);
      ArrayMultiple(n, Size(abi, reg, elem, side), Align(abi, reg, elem, side));
    case Struct(id) =>
      LayoutLaws(abi, reg, id, side);
    case _ =>
  }

  lemma ArrayMultiple(n: nat, s: nat, a: nat)
    requires a > 0 && s % a == 0
    ensures n * s % a == 0
  {
    assert s == s / a * a;
    assert n * s == (n * (s / a)) * a;
    MulMod(n * (s / a), a);
  }
}
