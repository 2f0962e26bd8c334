/** Registration and conversion as the program runs them: loops over descriptor cells and byte buffers. */
module Thunks {
  import opened Options
  import opened Bits
  import opened ThunkTypes
  import opened ThunkLayout
  import opened ThunkConversion
  import opened ThunkLaws

  // ---- descriptors of structs: the cells of the fields, then a null cell

  function FieldCells(fields: seq<Ty>): seq<int> {
    if fields == [] then [TYPE_NULL] else Cells(fields[0]) + FieldCells(fields[1..])
  }

  /** The type at the start of some cells, and the cells after it. */
  function Decode(cs: seq<int>): (r: Option<(Ty, seq<int>)>)
    ensures r.Some? ==> |r.value.1| < |cs|
    decreases |cs|
  {
    if cs == [] then None
    else if cs[0] == TYPE_CHAR then Some((Char, cs[1..]))
    else if cs[0] == TYPE_SHORT then Some((Short, cs[1..]))
    else if cs[0] == TYPE_INT then Some((Int, cs[1..]))
    else if cs[0] == TYPE_LONG then Some((Long, cs[1..]))
    else if cs[0] == TYPE_ULONG then Some((ULong, cs[1..]))
    else if cs[0] == TYPE_PTRVOID then Some((PtrVoid, cs[1..]))
    else if cs[0] == TYPE_LONGLONG then Some((LongLong, cs[1..]))
    else if cs[0] == TYPE_ULONGLONG then Some((ULongLong, cs[1..]))
    else if cs[0] == TYPE_PTR then
      (match Decode(cs[1..])
       case Some((t, rest)) => Some((Ptr(t), rest))
       case None => None)
    else if cs[0] == TYPE_ARRAY && |cs| > 1 && cs[1] >= 0 then
      (match Decode(cs[2..])
       case Some((t, rest)) => Some((Array(cs[1], t), rest))
       case None => None)
    else if cs[0] == TYPE_STRUCT && |cs| > 1 && cs[1] >= 0 then Some((Struct(cs[1]), cs[2..]))
    else None
  }

  function DecodeFields(cs: seq<int>): seq<Ty>
    decreases |cs|
  {
    match Decode(cs)
    case Some((t, rest)) => [t] + DecodeFields(rest)
    case None => []
  }

  /** Cells can be read back as the type they were written from. */
  lemma {:induction false} DecodeCells(t: Ty, rest: seq<int>)
    ensures Decode(Cells(t) + rest) == Some((t, rest))
    decreases t
  {
    var cs := Cells(t) + rest;
    match t
    case Ptr(to) =>
      assert cs[1..] == Cells(to) + rest;
      DecodeCells(to, rest);
    case Array(n, elem) =>
      assert cs[2..] == Cells(elem) + rest;
      DecodeCells(elem, rest);
    case Struct(id) => assert cs[2..] == rest;
    case _ => assert cs[1..] == rest;
  }

  lemma {:induction false} DecodeFieldCells(fields: seq<Ty>)
    ensures DecodeFields(FieldCells(fields)) == fields
    decreases |fields|
  {
    hide Decode, Cells;
    if fields == [] {
      NullStops();
    } else {
      DecodeCells(fields[0], FieldCells(fields[1..]));
      DecodeFieldCells(fields[1..]);
    }
  }

  lemma NullStops()
    ensures Decode([TYPE_NULL]) == None
  {
  }

  /** Where conversion leaves the descriptor: past the type, except that it steps into a pointer type. */
  function ConvNext(cs: seq<int>): Option<seq<int>> {
    if cs != [] && cs[0] == TYPE_PTR then Some(cs[1..]) else TypeNext(cs)
  }

  /** Conversion and skipping consume the same cells exactly when the type is not a pointer with a target. */
  lemma NextAgrees(t: Ty, rest: seq<int>)
    ensures ConvNext(Cells(t) + rest) == TypeNext(Cells(t) + rest) <==> !t.Ptr?
  {
    NextSkips(t, rest);
    if t.Ptr? {
      assert (Cells(t) + rest)[1..] == Cells(t.to) + rest;
      assert |Cells(t.to) + rest| > |rest|;
    }
  }

  // ---- registering one more struct does not disturb the others

  lemma {:induction false} SizeExtend(abi: Abi, reg: seq<Entry>, e: Entry, t: Ty, side: Side)
    requires ThunkTypes.Below(t, |reg|)
    ensures Size(abi, reg + [e], t, side) == Size(abi, reg, t, side)
    ensures Align(abi, reg + [e], t, side) == Align(abi, reg, t, side)
    decreases t
  {
    if t.Array? {
      SizeExtend(abi, reg, e, t.elem, side);
    }
  }

  lemma {:induction false} PlaceExtend(abi: Abi, reg: seq<Entry>, e: Entry, fields: seq<Ty>, side: Side, offset: nat, ma: nat)
    requires AllBelow(fields, |reg|)
    ensures Place(abi, reg + [e], fields, side, offset, ma) == Place(abi, reg, fields, side, offset, ma)
    ensures Fits(abi, reg + [e], fields, side, offset) == Fits(abi, reg, fields, side, offset)
    decreases |fields|
  {
    hide Size, Align, AlignUp, ThunkTypes.Below;
    if fields != [] {
      SizeExtend(abi, reg, e, fields[0], side);
      var align := Align(abi, reg, fields[0], side);
      PlaceExtend(abi, reg, e, fields[1..], side, AlignUp(offset, align) + Size(abi, reg, fields[0], side), Max(ma, align));
    }
  }

  lemma AllBelowMore(fields: seq<Ty>, n: nat, n': nat)
    requires AllBelow(fields, n) && n <= n'
    ensures AllBelow(fields, n')
  {
    forall i | 0 <= i < |fields| ensures ThunkTypes.Below(fields[i], n') {
      BelowMore(fields[i], n, n');
    }
  }

  function NewEntry(abi: Abi, reg: seq<Entry>, fields: seq<Ty>): Entry {
    Entry(fields, LayoutOf(abi, reg, fields, Target), LayoutOf(abi, reg, fields, Host))
  }

  lemma Registered(abi: Abi, reg: seq<Entry>, fields: seq<Ty>)
    requires RegOk(abi, reg) && AllBelow(fields, |reg|)
    requires Fits(abi, reg, fields, Target, 0) && Fits(abi, reg, fields, Host, 0)
    ensures RegOk(abi, reg + [NewEntry(abi, reg, fields)])
  {
    hide Fits, Place, AlignUp, ThunkTypes.Below;
    var e := NewEntry(abi, reg, fields);
    var reg' := reg + [e];
    forall id | 0 <= id < |reg'| ensures EntryOk(abi, reg', id) {
      var fs := reg'[id].fields;
      if id < |reg| {
        assert EntryOk(abi, reg, id);
        AllBelowMore(fs, id, |reg|);
      }
      PlaceExtend(abi, reg, e, fs, Target, 0, 1);
      PlaceExtend(abi, reg, e, fs, Host, 0, 1);
    }
  }

  class Thunk {
    const abi: Abi
    var entries: seq<Entry>

    constructor (abi: Abi)
      requires AbiOk(abi)
      ensures this.abi == abi && entries == [] && RegOk(abi, entries)
    {
      this.abi, entries := abi, [];
    }

    /** Counts the fields, lays them out for both sides, and files the struct under the next number. */
    method RegisterStruct(types: seq<int>, ghost fields: seq<Ty>)
      requires RegOk(abi, entries) && types == FieldCells(fields) && AllBelow(fields, |entries|)
      requires Fits(abi, entries, fields, Target, 0) && Fits(abi, entries, fields, Host, 0)
      modifies this
      ensures entries == old(entries) + [NewEntry(abi, old(entries), fields)] && RegOk(abi, entries)
    {
      hide Fits, Place, AlignUp, LayoutOf, RegOk, TypeNext, Cells, ThunkTypes.Below;
      var typePtr, fieldCount := types, 0;
      HeadCell(fields);
      while typePtr[0] != TYPE_NULL
        invariant 0 <= fieldCount <= |fields| && typePtr == FieldCells(fields[fieldCount..])
        invariant entries == old(entries)
        invariant typePtr != [] && (typePtr[0] == TYPE_NULL <==> fieldCount == |fields|)
        decreases |fields| - fieldCount
      {
        NextField(fields, fieldCount);
        typePtr := TypeNext(typePtr).value;
        fieldCount := fieldCount + 1;
        HeadCell(fields[fieldCount..]);
      }
      var target := LayoutFields(types, fieldCount, Target, fields);
      var host := LayoutFields(types, fieldCount, Host, fields);
      DecodeFieldCells(fields);
      Registered(abi, entries, fields);
      entries := entries + [Entry(DecodeFields(types), target, host)];
    }

    method LayoutFields(types: seq<int>, fieldCount: nat, side: Side, ghost fields: seq<Ty>) returns (l: Layout)
      requires types == FieldCells(fields) && fieldCount == |fields| && AllBelow(fields, |entries|)
      ensures l == LayoutOf(abi, entries, fields, side)
    {
      hide AlignUp, TypeNext, TypeSize, TypeAlign, Size, Align, Cells, FieldCells, Place, ThunkTypes.Below, Continues;
      assert fields[0..] == fields;
      var typePtr := types;
      var offset: nat, maxAlign: nat, offsets: seq<nat> := 0, 1, [];
      ghost var goal := Place(abi, entries, fields, side, 0, 1);
      ContinueEnds(goal, offsets, offset, maxAlign, goal);
      var j := 0;
      while j < fieldCount
        invariant 0 <= j <= |fields| && typePtr == FieldCells(fields[j..])
        invariant Continues(offsets, Place(abi, entries, fields[j..], side, offset, maxAlign), goal)
      {
        NextField(fields, j);
        CellsSize(abi, entries, fields[j], FieldCells(fields[j + 1..]), side);
        var size: nat := TypeSize(abi, entries, typePtr, side);
        var align: nat := TypeAlign(abi, entries, typePtr, side);
        var at := AlignUp(offset, align);
        PlaceStep(abi, entries, fields, j, side, offset, maxAlign);
        ContinueStep(offsets, at, Place(abi, entries, fields[j + 1..], side, at + size, Max(maxAlign, align)), goal);
        offsets := offsets + [at];
        offset := at + size;
        if align > maxAlign {
          maxAlign := align;
        }
        typePtr := TypeNext(typePtr).value;
        j := j + 1;
      }
      PlaceNone(abi, entries, fields[j..], side, offset, maxAlign);
      ContinueEnds(goal, offsets, offset, maxAlign, goal);
      l := Layout(offsets, AlignUp(offset, maxAlign), maxAlign);
    }

    // ---- conversion

    method StoreBytes(dst: array<byte>, d: nat, bs: seq<byte>)
      requires d + |bs| <= dst.Length
      modifies dst
      ensures dst[..] == Splice(old(dst[..]), d, bs)
    {
      var i := 0;
      while i < |bs|
        invariant 0 <= i <= |bs|
        invariant forall j :: 0 <= j < dst.Length ==> dst[j] == if d <= j < d + i then bs[j - d] else old(dst[j])
      {
        dst[d + i] := bs[i];
        i := i + 1;
      }
    }

    /**
     Converts the object at s, of the type the cells describe, into the place at d. The place
     may not be part of the source buffer, and a pointer with a target may only be the last field
     of a struct: conversion would lose step with the offsets after it.
     */
    method ThunkConvert(dst: array<byte>, d: nat, src: array<byte>, s: nat, cs: seq<int>, toHost: bool,
                        ghost t: Ty, ghost rest: seq<int>, ghost n: nat) returns (next: seq<int>)
      requires RegOk(abi, entries) && InStep(entries, n, t) && ThunkTypes.Below(t, n) && n <= |entries| && cs == Cells(t) + rest
      requires dst != src && Fit(abi, Placement(abi, entries, n, t, toHost, s, d), toHost, src[..], dst[..])
      modifies dst
      ensures Fit(abi, Placement(abi, entries, n, t, toHost, s, d), toHost, src[..], old(dst[..]))
      ensures dst[..] == Apply(abi, Placement(abi, entries, n, t, toHost, s, d), SideOf(toHost), src[..], old(dst[..]))
      ensures Some(next) == ConvNext(cs)
      decreases n, t, 1
    {
      hide RegOk, Size, Apply, Placement, TypeNext, InStep, Fit;
      NextSkips(t, rest);
      if cs[0] == TYPE_PTR {
        PtrNothing(abi, entries, n, t, toHost, s, d, src[..], dst[..]);
        next := cs[1..];
      } else if cs[0] == TYPE_ARRAY {
        ConvertArray(dst, d, src, s, cs, toHost, t, rest, n);
        next := TypeNext(cs).value;
      } else if cs[0] == TYPE_STRUCT {
        ConvertStruct(dst, d, src, s, cs, toHost, t, rest, n);
        next := cs[2..];
      } else {
        ConvertScalar(dst, d, src, s, cs, toHost, t, rest, n);
        next := cs[1..];
      }
    }

    /** Converts a whole object: both places need only be as large as the type is on their side. */
    method ConvertObject(dst: array<byte>, d: nat, src: array<byte>, s: nat, cs: seq<int>, toHost: bool, ghost t: Ty)
      requires RegOk(abi, entries) && InStep(entries, |entries|, t) && ThunkTypes.Below(t, |entries|) && cs == Cells(t) && dst != src
      requires s + Size(abi, entries, t, Other(SideOf(toHost))) <= src.Length
      requires d + Size(abi, entries, t, SideOf(toHost)) <= dst.Length
      modifies dst
      ensures dst[..] == Converted(abi, entries, t, SideOf(toHost), src[..], s, old(dst[..]), d)
    {
      hide RegOk, InStep, Size, Apply, Cells, Leaves, Inside, TypeNext;
      LeavesFit(abi, entries, t, SideOf(toHost), s, d, src.Length, dst.Length);
      assert cs == Cells(t) + [];
      var next := ThunkConvert(dst, d, src, s, cs, toHost, t, [], |entries|);
    }

    /** Numbers are copied, cut, or extended by the sign of a TYPE_LONG. */
    method ConvertScalar(dst: array<byte>, d: nat, src: array<byte>, s: nat, cs: seq<int>, toHost: bool,
                         ghost t: Ty, ghost rest: seq<int>, ghost n: nat)
      requires RegOk(abi, entries) && ThunkTypes.Below(t, n) && n <= |entries| && cs == Cells(t) + rest && Scalar(t)
      requires dst != src && Fit(abi, Placement(abi, entries, n, t, toHost, s, d), toHost, src[..], dst[..])
      modifies dst
      ensures Fit(abi, Placement(abi, entries, n, t, toHost, s, d), toHost, src[..], old(dst[..]))
      ensures dst[..] == Apply(abi, Placement(abi, entries, n, t, toHost, s, d), SideOf(toHost), src[..], old(dst[..]))
    {
      hide RegOk, Size, Apply, Placement, Fit, Splice, Resize, TypeSize, Cells, Scalar;
      ScalarCells(t, rest);
      BelowMore(t, n, |entries|);
      CellsSize(abi, entries, t, rest, Target);
      CellsSize(abi, entries, t, rest, Host);
      var from: nat := TypeSize(abi, entries, cs, if toHost then Target else Host);
      var to: nat := TypeSize(abi, entries, cs, if toHost then Host else Target);
      ScalarPlaced(abi, entries, n, t, toHost, s, d, src[..], dst[..], from, to);
      StoreBytes(dst, d, Resize(src[s..s + from], to, cs[0] == TYPE_LONG));
    }

    method ConvertArray(dst: array<byte>, d: nat, src: array<byte>, s: nat, cs: seq<int>, toHost: bool,
                        ghost t: Ty, ghost rest: seq<int>, ghost n: nat)
      requires RegOk(abi, entries) && InStep(entries, n, t) && ThunkTypes.Below(t, n) && n <= |entries| && cs == Cells(t) + rest
      requires dst != src && Fit(abi, Placement(abi, entries, n, t, toHost, s, d), toHost, src[..], dst[..]) && t.Array?
      modifies dst
      ensures Fit(abi, Placement(abi, entries, n, t, toHost, s, d), toHost, src[..], old(dst[..]))
      ensures dst[..] == Apply(abi, Placement(abi, entries, n, t, toHost, s, d), SideOf(toHost), src[..], old(dst[..]))
      decreases n, t, 0
    {
      hide RegOk, Size, Apply, Placement, ArrayPlacement, TypeSize, ConvNext, InStep, Fit, Progress;
      ghost var elem, whole, dst0 := t.elem, Placement(abi, entries, n, t, toHost, s, d), dst[..];
      assert cs[2..] == Cells(elem) + rest;
      ElemInStep(entries, n, t);
      BelowMore(elem, n, |entries|);
      CellsSize(abi, entries, elem, rest, Target);
      CellsSize(abi, entries, elem, rest, Host);
      var arrayLength: nat, elemCells := cs[1], cs[2..];
      var dstSize: nat := TypeSize(abi, entries, elemCells, if toHost then Host else Target);
      var srcSize: nat := TypeSize(abi, entries, elemCells, if toHost then Target else Host);
      var di: nat, si: nat := d, s;
      ghost var done := [];
      ArrayIs(abi, entries, n, t, toHost, s, d);
      ProgressStart(abi, whole, toHost, src[..], dst0);
      var i := 0;
      while i < arrayLength
        invariant 0 <= i <= arrayLength
        invariant Progress(abi, whole, done, ArrayPlacement(abi, entries, n, elem, arrayLength - i, toHost, si, di), toHost,
                           src[..], dst0, dst[..])
      {
        ghost var first := Placement(abi, entries, n, elem, toHost, si, di);
        ghost var todo := ArrayPlacement(abi, entries, n, elem, arrayLength - i - 1, toHost, si + srcSize, di + dstSize);
        ArrayStep(abi, entries, n, elem, arrayLength - i, toHost, si, di);
        ghost var before := dst[..];
        ProgressNext(abi, whole, done, first, todo, toHost, src[..], dst0, before);
        var next := ThunkConvert(dst, di, src, si, elemCells, toHost, elem, rest, n);
        ProgressStep(abi, whole, done, first, todo, toHost, src[..], dst0, before, dst[..]);
        done := done + first;
        di, si := di + dstSize, si + srcSize;
        i := i + 1;
      }
      ArrayNone(abi, entries, n, elem, toHost, si, di);
      ProgressEnd(abi, whole, done, toHost, src[..], dst0, dst[..]);
    }

    method ConvertStruct(dst: array<byte>, d: nat, src: array<byte>, s: nat, cs: seq<int>, toHost: bool,
                         ghost t: Ty, ghost rest: seq<int>, ghost n: nat)
      requires RegOk(abi, entries) && InStep(entries, n, t) && ThunkTypes.Below(t, n) && n <= |entries| && cs == Cells(t) + rest
      requires dst != src && Fit(abi, Placement(abi, entries, n, t, toHost, s, d), toHost, src[..], dst[..]) && t.Struct?
      modifies dst
      ensures Fit(abi, Placement(abi, entries, n, t, toHost, s, d), toHost, src[..], old(dst[..]))
      ensures dst[..] == Apply(abi, Placement(abi, entries, n, t, toHost, s, d), SideOf(toHost), src[..], old(dst[..]))
      decreases n, t, 0
    {
      hide RegOk, Size, Apply, Placement, FieldPlacement, TypeNext, InStep, Fit, Progress, FieldCells, Cells, ThunkTypes.Below;
      ghost var id, whole, dst0 := t.id, Placement(abi, entries, n, t, toHost, s, d), dst[..];
      StructCells(t, rest);
      BelowId(t, n);
      var se := entries[cs[1]];
      FieldsBelow(abi, entries, id);
      var fieldTypes := FieldCells(se.fields);
      var dstOffsets := if toHost then se.host.offsets else se.target.offsets;
      var srcOffsets := if toHost then se.target.offsets else se.host.offsets;
      ghost var done := [];
      StructIs(abi, entries, n, t, toHost, s, d);
      ProgressStart(abi, whole, toHost, src[..], dst0);
      assert se.fields[0..] == se.fields && srcOffsets[0..] == srcOffsets && dstOffsets[0..] == dstOffsets;
      var i := 0;
      while i < |se.fields|
        invariant 0 <= i <= |se.fields| && (i < |se.fields| ==> fieldTypes == FieldCells(se.fields[i..]))
        invariant AllBelow(se.fields[i..], id)
        invariant Progress(abi, whole, done, FieldPlacement(abi, entries, id, se.fields[i..], srcOffsets[i..], dstOffsets[i..],
                                                            toHost, s, d), toHost, src[..], dst0, dst[..])
      {
        var f, so, do := se.fields[i], srcOffsets[i], dstOffsets[i];
        FieldStep(abi, entries, id, se.fields, srcOffsets, dstOffsets, i, toHost, s, d);
        NextField(se.fields, i);
        ghost var first := Placement(abi, entries, id, f, toHost, s + so, d + do);
        ghost var todo := FieldPlacement(abi, entries, id, se.fields[i + 1..], srcOffsets[i + 1..], dstOffsets[i + 1..], toHost, s, d);
        ghost var before := dst[..];
        ProgressNext(abi, whole, done, first, todo, toHost, src[..], dst0, before);
        FieldInStep(entries, n, t, i);
        NextAgrees(f, FieldCells(se.fields[i + 1..]));
        fieldTypes := ThunkConvert(dst, d + do, src, s + so, fieldTypes, toHost, f, FieldCells(se.fields[i + 1..]), id);
        ProgressStep(abi, whole, done, first, todo, toHost, src[..], dst0, before, dst[..]);
        done := done + first;
        i := i + 1;
      }
      FieldNone(abi, entries, id, se.fields[i..], srcOffsets[i..], dstOffsets[i..], toHost, s, d);
      ProgressEnd(abi, whole, done, toHost, src[..], dst0, dst[..]);
    }
  }

  function SideOf(toHost: bool): Side {
    if toHost then Host else Target
  }

  /** The leaves of an object read at s and written at d. */
  ghost function Placement(abi: Abi, reg: seq<Entry>, n: nat, t: Ty, toHost: bool, s: nat, d: nat): seq<Leaf>
    requires RegOk(abi, reg) && ThunkTypes.Below(t, n) && n <= |reg|
  {
    if toHost then Leaves(abi, reg, n, t, s, d) else Leaves(abi, reg, n, t, d, s)
  }

  /** Both objects lie inside their buffers. */
  ghost predicate Fit(abi: Abi, ls: seq<Leaf>, toHost: bool, src: seq<byte>, dst: seq<byte>) {
    Inside(abi, ls, Other(SideOf(toHost)), |src|) && Inside(abi, ls, SideOf(toHost), |dst|)
  }

  /**
   In the structs that t is made of only the last field may be a pointer with a target: after
   one, conversion is out of step with the offsets (NextAgrees).
   */
  predicate InStep(reg: seq<Entry>, n: nat, t: Ty)
    decreases n, t
  {
    match t
    case Array(_, elem) => InStep(reg, n, elem)
    case Struct(id) =>
      id < n && id < |reg| &&
      forall i :: 0 <= i < |reg[id].fields| ==>
        (reg[id].fields[i].Ptr? ==> i == |reg[id].fields| - 1) && InStep(reg, id, reg[id].fields[i])
    case _ => true
  }

  ghost function ArrayPlacement(abi: Abi, reg: seq<Entry>, n: nat, elem: Ty, count: nat, toHost: bool, s: nat, d: nat): seq<Leaf>
    requires RegOk(abi, reg) && ThunkTypes.Below(elem, n) && n <= |reg|
  {
    if toHost then ArrayLeaves(abi, reg, n, elem, count, s, d) else ArrayLeaves(abi, reg, n, elem, count, d, s)
  }

  ghost function FieldPlacement(abi: Abi, reg: seq<Entry>, n: nat, fields: seq<Ty>, sos: seq<nat>, dos: seq<nat>, toHost: bool,
                                s: nat, d: nat): seq<Leaf>
    requires RegOk(abi, reg) && AllBelow(fields, n) && n <= |reg| && |sos| == |dos| == |fields|
  {
    if toHost then FieldLeaves(abi, reg, n, fields, sos, dos, s, d) else FieldLeaves(abi, reg, n, fields, dos, sos, d, s)
  }

  lemma ArrayIs(abi: Abi, reg: seq<Entry>, n: nat, t: Ty, toHost: bool, s: nat, d: nat)
    requires RegOk(abi, reg) && ThunkTypes.Below(t, n) && n <= |reg| && t.Array?
    ensures Placement(abi, reg, n, t, toHost, s, d) == ArrayPlacement(abi, reg, n, t.elem, t.n, toHost, s, d)
  {
    hide RegOk;
  }

  lemma ArrayStep(abi: Abi, reg: seq<Entry>, n: nat, elem: Ty, count: nat, toHost: bool, s: nat, d: nat)
    requires RegOk(abi, reg) && ThunkTypes.Below(elem, n) && n <= |reg| && count > 0
    ensures ArrayPlacement(abi, reg, n, elem, count, toHost, s, d) ==
            Placement(abi, reg, n, elem, toHost, s, d) +
            ArrayPlacement(abi, reg, n, elem, count - 1, toHost, s + Size(abi, reg, elem, if toHost then Target else Host),
                           d + Size(abi, reg, elem, if toHost then Host else Target))
  {
    hide RegOk, Leaves, Size;
  }

  lemma ArrayNone(abi: Abi, reg: seq<Entry>, n: nat, elem: Ty, toHost: bool, s: nat, d: nat)
    requires RegOk(abi, reg) && ThunkTypes.Below(elem, n) && n <= |reg|
    ensures ArrayPlacement(abi, reg, n, elem, 0, toHost, s, d) == []
  {
    hide RegOk;
  }

  lemma ScalarCells(t: Ty, rest: seq<int>)
    requires Scalar(t)
    ensures (Cells(t) + rest)[0] == TYPE_LONG <==> t.Long?
  {
  }

  lemma StructCells(t: Ty, rest: seq<int>)
    requires t.Struct?
    ensures |Cells(t) + rest| >= 2 && (Cells(t) + rest)[1] == t.id
  {
  }

  lemma BelowId(t: Ty, n: nat)
    requires t.Struct? && ThunkTypes.Below(t, n)
    ensures t.id < n
  {
  }

  lemma StructIs(abi: Abi, reg: seq<Entry>, n: nat, t: Ty, toHost: bool, s: nat, d: nat)
    requires RegOk(abi, reg) && ThunkTypes.Below(t, n) && n <= |reg| && t.Struct?
    ensures
      (FieldsBelow(abi, reg, t.id);
       var e := reg[t.id];
       Placement(abi, reg, n, t, toHost, s, d) ==
         FieldPlacement(abi, reg, t.id, e.fields, if toHost then e.target.offsets else e.host.offsets,
                        if toHost then e.host.offsets else e.target.offsets, toHost, s, d))
  {
    hide RegOk;
    FieldsBelow(abi, reg, t.id);
  }

  lemma FieldStep(abi: Abi, reg: seq<Entry>, n: nat, fields: seq<Ty>, sos: seq<nat>, dos: seq<nat>, i: nat, toHost: bool, s: nat,
                  d: nat)
    requires RegOk(abi, reg) && n <= |reg| && |sos| == |dos| == |fields| && i < |fields| && AllBelow(fields[i..], n)
    ensures ThunkTypes.Below(fields[i], n) && AllBelow(fields[i + 1..], n)
    ensures FieldPlacement(abi, reg, n, fields[i..], sos[i..], dos[i..], toHost, s, d) ==
            Placement(abi, reg, n, fields[i], toHost, s + sos[i], d + dos[i]) +
            FieldPlacement(abi, reg, n, fields[i + 1..], sos[i + 1..], dos[i + 1..], toHost, s, d)
  {
    hide RegOk, Leaves, ThunkTypes.Below;
    assert fields[i..][0] == fields[i] && fields[i..][1..] == fields[i + 1..];
    assert sos[i..][0] == sos[i] && sos[i..][1..] == sos[i + 1..];
    assert dos[i..][0] == dos[i] && dos[i..][1..] == dos[i + 1..];
    var now, later := fields[i..], fields[i + 1..];
    forall j | 0 <= j < |later| ensures ThunkTypes.Below(later[j], n) {
      assert later[j] == now[j + 1];
    }
  }

  lemma FieldNone(abi: Abi, reg: seq<Entry>, n: nat, fields: seq<Ty>, sos: seq<nat>, dos: seq<nat>, toHost: bool, s: nat, d: nat)
    requires RegOk(abi, reg) && AllBelow(fields, n) && n <= |reg| && |sos| == |dos| == |fields| && fields == []
    ensures FieldPlacement(abi, reg, n, fields, sos, dos, toHost, s, d) == []
  {
    hide RegOk;
  }

  lemma FieldInStep(reg: seq<Entry>, n: nat, t: Ty, i: nat)
    requires InStep(reg, n, t) && t.Struct? && t.id < |reg| && i < |reg[t.id].fields|
    ensures InStep(reg, t.id, reg[t.id].fields[i])
    ensures reg[t.id].fields[i].Ptr? ==> i == |reg[t.id].fields| - 1
  {
  }

  lemma ElemInStep(reg: seq<Entry>, n: nat, t: Ty)
    requires InStep(reg, n, t) && t.Array?
    ensures InStep(reg, n, t.elem)
  {
  }

  lemma PtrNothing(abi: Abi, reg: seq<Entry>, n: nat, t: Ty, toHost: bool, s: nat, d: nat, src: seq<byte>, dst: seq<byte>)
    requires RegOk(abi, reg) && ThunkTypes.Below(t, n) && n <= |reg| && t.Ptr?
    ensures
      var ls := Placement(abi, reg, n, t, toHost, s, d);
      Fit(abi, ls, toHost, src, dst) && Apply(abi, ls, SideOf(toHost), src, dst) == dst
  {
    hide RegOk;
  }

  /** A scalar is one leaf. */
  lemma ScalarPlaced(abi: Abi, reg: seq<Entry>, n: nat, t: Ty, toHost: bool, s: nat, d: nat, src: seq<byte>, dst: seq<byte>,
                     from: nat, to: nat)
    requires RegOk(abi, reg) && ThunkTypes.Below(t, n) && n <= |reg| && Scalar(t)
    requires from == Size(abi, reg, t, if toHost then Target else Host) && to == Size(abi, reg, t, if toHost then Host else Target)
    requires Fit(abi, Placement(abi, reg, n, t, toHost, s, d), toHost, src, dst)
    ensures s + from <= |src| && d + to <= |dst|
    ensures Apply(abi, Placement(abi, reg, n, t, toHost, s, d), SideOf(toHost), src, dst) ==
            Splice(dst, d, Resize(src[s..s + from], to, t.Long?))
  {
    hide *;
    var l := OneLeafOf(t, toHost, s, d);
    ScalarLeaf(abi, reg, n, t, toHost, s, d);
    ScalarSize(abi, reg, t, Target);
    ScalarSize(abi, reg, t, Host);
    FitOne(abi, l, toHost, src, dst);
    OneSides(abi, t, toHost, s, d);
    ApplyOne(abi, l, SideOf(toHost), src, dst);
    OneBytes(abi, l, SideOf(toHost), src);
  }

  function OneLeafOf(t: Ty, toHost: bool, s: nat, d: nat): Leaf {
    if toHost then Leaf(t, s, d) else Leaf(t, d, s)
  }

  lemma FitOne(abi: Abi, l: Leaf, toHost: bool, src: seq<byte>, dst: seq<byte>)
    requires Fit(abi, [l], toHost, src, dst)
    ensures At(l, Other(SideOf(toHost))) + Width(abi, l, Other(SideOf(toHost))) <= |src|
    ensures At(l, SideOf(toHost)) + Width(abi, l, SideOf(toHost)) <= |dst|
  {
    hide Width;
    assert [l][0] == l;
  }

  lemma OneSides(abi: Abi, t: Ty, toHost: bool, s: nat, d: nat)
    ensures
      var l := OneLeafOf(t, toHost, s, d);
      At(l, SideOf(toHost)) == d && At(l, Other(SideOf(toHost))) == s && l.kind == t
    ensures Width(abi, OneLeafOf(t, toHost, s, d), SideOf(toHost)) == Size(abi, [], t, if toHost then Host else Target)
    ensures Width(abi, OneLeafOf(t, toHost, s, d), Other(SideOf(toHost))) == Size(abi, [], t, if toHost then Target else Host)
  {
    hide Size;
  }

  lemma OneBytes(abi: Abi, l: Leaf, to: Side, src: seq<byte>)
    requires At(l, Other(to)) + Width(abi, l, Other(to)) <= |src|
    ensures LeafBytes(abi, l, to, src) ==
            Resize(src[At(l, Other(to))..At(l, Other(to)) + Width(abi, l, Other(to))], Width(abi, l, to), l.kind.Long?)
  {
    hide Width, Resize;
  }

  lemma ScalarLeaf(abi: Abi, reg: seq<Entry>, n: nat, t: Ty, toHost: bool, s: nat, d: nat)
    requires RegOk(abi, reg) && ThunkTypes.Below(t, n) && n <= |reg| && Scalar(t)
    ensures Placement(abi, reg, n, t, toHost, s, d) == [OneLeafOf(t, toHost, s, d)]
  {
    hide RegOk;
  }

  lemma ApplyOne(abi: Abi, l: Leaf, to: Side, src: seq<byte>, dst: seq<byte>)
    requires At(l, Other(to)) + Width(abi, l, Other(to)) <= |src| && At(l, to) + Width(abi, l, to) <= |dst|
    ensures Inside(abi, [l], Other(to), |src|) && Inside(abi, [l], to, |dst|)
    ensures Apply(abi, [l], to, src, dst) == Splice(dst, At(l, to), LeafBytes(abi, l, to, src))
  {
    hide Splice, LeafBytes, Width;
    assert [l][1..] == [];
  }

  lemma ScalarSize(abi: Abi, reg: seq<Entry>, t: Ty, side: Side)
    requires Scalar(t)
    ensures Size(abi, reg, t, side) == Size(abi, [], t, side)
  {
  }

  // ---- how far a conversion has got

  ghost predicate Progress(abi: Abi, whole: seq<Leaf>, done: seq<Leaf>, todo: seq<Leaf>, toHost: bool, src: seq<byte>,
                           dst0: seq<byte>, now: seq<byte>)
  {
    && whole == done + todo && |now| == |dst0|
    && Fit(abi, done, toHost, src, dst0) && Fit(abi, todo, toHost, src, dst0)
    && now == Apply(abi, done, SideOf(toHost), src, dst0)
  }

  lemma ProgressStart(abi: Abi, whole: seq<Leaf>, toHost: bool, src: seq<byte>, dst0: seq<byte>)
    requires Fit(abi, whole, toHost, src, dst0)
    ensures Progress(abi, whole, [], whole, toHost, src, dst0, dst0)
  {
  }

  lemma FitParts(abi: Abi, a: seq<Leaf>, b: seq<Leaf>, toHost: bool, src: seq<byte>, dst: seq<byte>)
    ensures Fit(abi, a + b, toHost, src, dst) <==> Fit(abi, a, toHost, src, dst) && Fit(abi, b, toHost, src, dst)
  {
    hide Width;
    InsideParts(abi, a, b, SideOf(toHost), |dst|);
    InsideParts(abi, a, b, Other(SideOf(toHost)), |src|);
  }

  lemma InsideParts(abi: Abi, a: seq<Leaf>, b: seq<Leaf>, side: Side, len: nat)
    ensures Inside(abi, a + b, side, len) <==> Inside(abi, a, side, len) && Inside(abi, b, side, len)
  {
    hide Width;
    var ls := a + b;
    if Inside(abi, ls, side, len) {
      forall i | 0 <= i < |a| ensures At(a[i], side) + Width(abi, a[i], side) <= len {
        assert ls[i] == a[i];
      }
      forall i | 0 <= i < |b| ensures At(b[i], side) + Width(abi, b[i], side) <= len {
        assert ls[|a| + i] == b[i];
      }
    }
  }

  lemma ProgressNext(abi: Abi, whole: seq<Leaf>, done: seq<Leaf>, first: seq<Leaf>, todo: seq<Leaf>, toHost: bool, src: seq<byte>,
                     dst0: seq<byte>, now: seq<byte>)
    requires Progress(abi, whole, done, first + todo, toHost, src, dst0, now)
    ensures Fit(abi, first, toHost, src, now)
  {
    FitParts(abi, first, todo, toHost, src, dst0);
    hide Apply;
  }

  lemma ProgressStep(abi: Abi, whole: seq<Leaf>, done: seq<Leaf>, first: seq<Leaf>, todo: seq<Leaf>, toHost: bool, src: seq<byte>,
                     dst0: seq<byte>, now: seq<byte>, next: seq<byte>)
    requires Progress(abi, whole, done, first + todo, toHost, src, dst0, now)
    requires Fit(abi, first, toHost, src, now) && next == Apply(abi, first, SideOf(toHost), src, now)
    ensures Progress(abi, whole, done + first, todo, toHost, src, dst0, next)
  {
    hide Apply, Inside;
    FitParts(abi, first, todo, toHost, src, dst0);
    FitParts(abi, done, first, toHost, src, dst0);
    ApplyConcat(abi, done, first, SideOf(toHost), src, dst0);
    assert done + (first + todo) == done + first + todo;
  }

  lemma ProgressEnd(abi: Abi, whole: seq<Leaf>, done: seq<Leaf>, toHost: bool, src: seq<byte>, dst0: seq<byte>, now: seq<byte>)
    requires Progress(abi, whole, done, [], toHost, src, dst0, now)
    ensures Fit(abi, whole, toHost, src, dst0) && now == Apply(abi, whole, SideOf(toHost), src, dst0)
  {
    hide Apply, Inside;
    assert done + [] == done;
  }

  /** The fields placed so far, and those still to be placed, make up the whole. */
  ghost predicate Continues(offsets: seq<nat>, rest: Placed, whole: Placed) {
    whole == Placed(offsets + rest.offsets, rest.end, rest.maxAlign)
  }

  lemma ContinueEnds(p: Placed, offsets: seq<nat>, end: nat, ma: nat, whole: Placed)
    ensures Continues([], p, p)
    ensures Continues(offsets, Placed([], end, ma), whole) ==> whole == Placed(offsets, end, ma)
  {
    assert [] + p.offsets == p.offsets && offsets + [] == offsets;
  }

  lemma ContinueStep(offsets: seq<nat>, at: nat, rest: Placed, whole: Placed)
    requires Continues(offsets, Placed([at] + rest.offsets, rest.end, rest.maxAlign), whole)
    ensures Continues(offsets + [at], rest, whole)
  {
    assert offsets + ([at] + rest.offsets) == offsets + [at] + rest.offsets;
  }

  lemma HeadCell(fields: seq<Ty>)
    ensures FieldCells(fields) != [] && (FieldCells(fields)[0] == TYPE_NULL <==> fields == [])
  {
  }

  lemma NextField(fields: seq<Ty>, j: nat)
    requires j < |fields|
    ensures FieldCells(fields[j..]) == Cells(fields[j]) + FieldCells(fields[j + 1..])
    ensures TypeNext(FieldCells(fields[j..])) == Some(FieldCells(fields[j + 1..]))
  {
    hide Cells, TypeNext;
    assert fields[j..][1..] == fields[j + 1..] && fields[j..][0] == fields[j];
    NextSkips(fields[j], FieldCells(fields[j + 1..]));
  }

  lemma PlaceStep(abi: Abi, reg: seq<Entry>, fields: seq<Ty>, j: nat, side: Side, offset: nat, ma: nat)
    requires j < |fields|
    ensures
      var align := Align(abi, reg, fields[j], side);
      var at := AlignUp(offset, align);
      var p := Place(abi, reg, fields[j + 1..], side, at + Size(abi, reg, fields[j], side), Max(ma, align));
      Place(abi, reg, fields[j..], side, offset, ma) == Placed([at] + p.offsets, p.end, p.maxAlign)
  {
    hide AlignUp, Size, Align;
    assert fields[j..][1..] == fields[j + 1..] && fields[j..][0] == fields[j];
  }

  lemma PlaceNone(abi: Abi, reg: seq<Entry>, fields: seq<Ty>, side: Side, offset: nat, ma: nat)
    requires fields == []
    ensures Place(abi, reg, fields, side, offset, ma) == Placed([], offset, ma)
  {
  }
}
