/**
 Type descriptors of the system-call thunks: the cells they are written in, their sizes and
 alignments under the two layouts, and the layout that registration computes for a struct.
 */
module ThunkTypes {
  import opened Options
  import opened Bits

  const TYPE_NULL := 0
  const TYPE_CHAR := 1
  const TYPE_SHORT := 2
  const TYPE_INT := 3
  const TYPE_LONG := 4
  const TYPE_ULONG := 5
  const TYPE_PTRVOID := 6
  const TYPE_LONGLONG := 7
  const TYPE_ULONGLONG := 8
  const TYPE_PTR := 9
  const TYPE_ARRAY := 10
  const TYPE_STRUCT := 11

  datatype Ty =
    | Char | Short | Int | Long | ULong | PtrVoid | LongLong | ULongLong
    | Ptr(to: Ty)
    | Array(n: nat, elem: Ty)
    | Struct(id: nat)

  /** The cells a type is written in. */
  function Cells(t: Ty): (cs: seq<int>)
    ensures |cs| > 0
  {
    match t
    case Char => [TYPE_CHAR]
    case Short => [TYPE_SHORT]
    case Int => [TYPE_INT]
    case Long => [TYPE_LONG]
    case ULong => [TYPE_ULONG]
    case PtrVoid => [TYPE_PTRVOID]
    case LongLong => [TYPE_LONGLONG]
    case ULongLong => [TYPE_ULONGLONG]
    case Ptr(to) => [TYPE_PTR] + Cells(to)
    case Array(n, elem) => [TYPE_ARRAY, n] + Cells(elem)
    case Struct(id) => [TYPE_STRUCT, id]
  }

  /** Skips one type; None stands for the null pointer that an unknown code gives. */
  function TypeNext(cs: seq<int>): Option<seq<int>>
    decreases |cs|
  {
    if cs == [] then None
    else if TYPE_CHAR <= cs[0] <= TYPE_ULONGLONG then Some(cs[1..])
    else if cs[0] == TYPE_PTR then TypeNext(cs[1..])
    else if cs[0] == TYPE_ARRAY && |cs| > 1 then TypeNext(cs[2..])
    else if cs[0] == TYPE_STRUCT && |cs| > 1 then Some(cs[2..])
    else None
  }

  /** Skipping reads exactly the cells of the type. */
  lemma {:induction false} NextSkips(t: Ty, rest: seq<int>)
    ensures TypeNext(Cells(t) + rest) == Some(rest)
    ensures
      match t
      case Char => Cells(t) == [1]
      case Short => Cells(t) == [2]
      case Int => Cells(t) == [3]
      case Long => Cells(t) == [4]
      case ULong => Cells(t) == [5]
      case PtrVoid => Cells(t) == [6]
      case LongLong => Cells(t) == [7]
      case ULongLong => Cells(t) == [8]
      case Ptr(to) => Cells(t) == [9] + Cells(to)
      case Array(n, elem) => Cells(t) == [10, n] + Cells(elem)
      case Struct(id) => Cells(t) == [11, id]
    decreases t
  {
    var cs := Cells(t) + rest;
    match t
    case Ptr(to) =>
      assert cs[1..] == Cells(to) + rest;
      NextSkips(to, rest);
    case Array(n, elem) =>
      assert cs[2..] == Cells(elem) + rest;
      NextSkips(elem, rest);
    case Struct(id) => assert cs[2..] == rest;
    case _ => assert cs[1..] == rest;
  }

  // ---- sizes and alignments

  datatype Side = Target | Host

  /** Bytes in a long on either side: four or eight. */
  datatype Abi = Abi(target: nat, host: nat)

  predicate AbiOk(abi: Abi) {
    (abi.target == 4 || abi.target == 8) && (abi.host == 4 || abi.host == 8)
  }

  datatype Layout = Layout(offsets: seq<nat>, size: nat, align: nat)
  datatype Entry = Entry(fields: seq<Ty>, target: Layout, host: Layout)

  function On(e: Entry, side: Side): Layout {
    if side == Host then e.host else e.target
  }

  function LongSize(abi: Abi, side: Side): nat {
    if side == Host then abi.host else abi.target
  }

  function Size(abi: Abi, reg: seq<Entry>, t: Ty, side: Side): nat {
    match t
    case Char => 1
    case Short => 2
    case Int => 4
    case LongLong => 8
    case ULongLong => 8
    case Array(n, elem) => n * Size(abi, reg, elem, side)
    case Struct(id) => if id < |reg| then On(reg[id], side).size else 0
    case _ => LongSize(abi, side)
  }

  function Align(abi: Abi, reg: seq<Entry>, t: Ty, side: Side): nat {
    match t
    case Char => 1
    case Short => 2
    case Int => 4
    case LongLong => 8
    case ULongLong => 8
    case Array(n, elem) => Align(abi, reg, elem, side)
    case Struct(id) => if id < |reg| then On(reg[id], side).align else 1
    case _ => LongSize(abi, side)
  }

  /** The same read off the cells; -1 where the code is unknown. */
  function TypeSize(abi: Abi, reg: seq<Entry>, cs: seq<int>, side: Side): int
    decreases |cs|
  {
    if cs == [] then -1
    else if cs[0] == TYPE_CHAR then 1
    else if cs[0] == TYPE_SHORT then 2
    else if cs[0] == TYPE_INT then 4
    else if cs[0] == TYPE_LONGLONG || cs[0] == TYPE_ULONGLONG then 8
    else if cs[0] == TYPE_LONG || cs[0] == TYPE_ULONG || cs[0] == TYPE_PTRVOID || cs[0] == TYPE_PTR then LongSize(abi, side)
    else if cs[0] == TYPE_ARRAY && |cs| > 1 then cs[1] * TypeSize(abi, reg, cs[2..], side)
    else if cs[0] == TYPE_STRUCT && |cs| > 1 && 0 <= cs[1] < |reg| then On(reg[cs[1]], side).size
    else -1
  }

  function TypeAlign(abi: Abi, reg: seq<Entry>, cs: seq<int>, side: Side): int
    decreases |cs|
  {
    if cs == [] then -1
    else if cs[0] == TYPE_CHAR then 1
    else if cs[0] == TYPE_SHORT then 2
    else if cs[0] == TYPE_INT then 4
    else if cs[0] == TYPE_LONGLONG || cs[0] == TYPE_ULONGLONG then 8
    else if cs[0] == TYPE_LONG || cs[0] == TYPE_ULONG || cs[0] == TYPE_PTRVOID || cs[0] == TYPE_PTR then LongSize(abi, side)
    else if cs[0] == TYPE_ARRAY && |cs| > 1 then TypeAlign(abi, reg, cs[2..], side)
    else if cs[0] == TYPE_STRUCT && |cs| > 1 && 0 <= cs[1] < |reg| then On(reg[cs[1]], side).align
    else -1
  }

  /** Every struct mentioned has a number below n. */
  predicate Below(t: Ty, n: nat) {
    match t
    case Ptr(to) => Below(to, n)
    case Array(_, elem) => Below(elem, n)
    case Struct(id) => id < n
    case _ => true
  }

  lemma {:induction false} BelowMore(t: Ty, n: nat, n': nat)
    requires Below(t, n) && n <= n'
    ensures Below(t, n')
    decreases t
  {
    match t
    case Ptr(to) => BelowMore(to, n, n');
    case Array(_, elem) => BelowMore(elem, n, n');
    case _ =>
  }

  /** A scalar of n bytes is aligned to them. */
  predicate Plain(size: int, align: int, n: nat) {
    size == n && align == n
  }

  /**
   Sizes and alignments read off the cells, type by type. Longs and pointers take the bytes of
   a long of their own side; structs what was registered for it.
   */
  lemma {:induction false} CellsSize(abi: Abi, reg: seq<Entry>, t: Ty, rest: seq<int>, side: Side)
    requires Below(t, |reg|)
    ensures TypeSize(abi, reg, Cells(t) + rest, side) == Size(abi, reg, t, side)
    ensures TypeAlign(abi, reg, Cells(t) + rest, side) == Align(abi, reg, t, side)
    ensures
      var s, a := TypeSize(abi, reg, Cells(t) + rest, side), TypeAlign(abi, reg, Cells(t) + rest, side);
      match t
      case Char => Plain(s, a, 1)
      case Short => Plain(s, a, 2)
      case Int => Plain(s, a, 4)
      case LongLong => Plain(s, a, 8)
      case ULongLong => Plain(s, a, 8)
      case Long => Plain(s, a, match side case Target => abi.target case Host => abi.host)
      case ULong => Plain(s, a, match side case Target => abi.target case Host => abi.host)
      case PtrVoid => Plain(s, a, match side case Target => abi.target case Host => abi.host)
      case Ptr(_) => Plain(s, a, match side case Target => abi.target case Host => abi.host)
      case Array(n, elem) => s == n * Size(abi, reg, elem, side) && a == Align(abi, reg, elem, side)
      case Struct(id) =>
        match side
        case Target => s == reg[id].target.size && a == reg[id].target.align
        case Host => s == reg[id].host.size && a == reg[id].host.align
    decreases t
  {
    if t.Array? {
      assert (Cells(t) + rest)[2..] == Cells(t.elem) + rest;
      CellsSize(abi, reg, t.elem, rest, side);
    }
  }

  // ---- rounding up by masking

  /** Bitwise and of the low n bits. */
  function BitAnd(x: nat, y: nat, n: nat): nat {
    if n == 0 then 0 else (x % 2) * (y % 2) + 2 * BitAnd(x / 2, y / 2, n - 1)
  }

  lemma {:induction false} AllOnes(x: nat, n: nat)
    requires x < Pow2(n)
    ensures BitAnd(x, Pow2(n) - 1, n) == x
    decreases n
  {
    if n > 0 {
      assert (Pow2(n) - 1) / 2 == Pow2(n - 1) - 1 && (Pow2(n) - 1) % 2 == 1;
      AllOnes(x / 2, n - 1);
    }
  }

  /** Masking with the complement of 2^k - 1 rounds down to a multiple of 2^k. */
  lemma {:induction false} MaskRounds(x: nat, k: nat, n: nat)
    requires k <= n && x < Pow2(n)
    ensures Pow2(k) <= Pow2(n) && BitAnd(x, Pow2(n) - Pow2(k), n) == x / Pow2(k) * Pow2(k)
    decreases n
  {
    if k == 0 {
      AllOnes(x, n);
      assert x / 1 == x;
    } else {
      hide BitAnd, Pow2;
      Double(n);
      Double(k);
      MaskRounds(x / 2, k - 1, n - 1);
      DoubleBlock(x, Pow2(k - 1));
      MaskStep(x, Pow2(n - 1) - Pow2(k - 1), n);
    }
  }

  lemma DoubleBlock(x: nat, p: nat)
    requires p > 0
    ensures x / (2 * p) * (2 * p) == 2 * (x / 2 / p * p)
  {
    HalfThen(x, p);
    var d := x / 2 / p;
    assert d * (2 * p) == 2 * (d * p);
  }

  lemma MaskStep(x: nat, y: nat, n: nat)
    requires n > 0
    ensures BitAnd(x, 2 * y, n) == 2 * BitAnd(x / 2, y, n - 1)
  {
    assert 2 * y % 2 == 0 && 2 * y / 2 == y;
  }

  /** (offset + align - 1) & ~(align - 1) on 32-bit integers. */
  function AlignUp(offset: nat, align: nat): nat {
    if align == 0 || align > Pow2(32) then offset else BitAnd(offset + align - 1, Pow2(32) - align, 32)
  }

  predicate PowerAlign(a: nat) {
    a == 1 || a == 2 || a == 4 || a == 8
  }

  /** The least multiple of the alignment that is not below the offset. */
  lemma AlignUpLeast(offset: nat, align: nat)
    requires PowerAlign(align) && offset + align <= 0x8000_0000
    ensures
      var r := AlignUp(offset, align);
      r % align == 0 && offset <= r < offset + align
    ensures forall m: nat :: m % align == 0 && m >= offset ==> AlignUp(offset, align) <= m
  {
    var k := if align == 1 then 0 else if align == 2 then 1 else if align == 4 then 2 else 3;
    SmallPowers();
    Pow32();
    hide BitAnd, Pow2;
    RoundUp(offset, align, k);
    forall m: nat | m % align == 0 && m >= offset ensures AlignUp(offset, align) <= m {
      LeastMultiple(offset + align - 1, m, align);
    }
  }

  lemma SmallPowers()
    ensures Pow2(0) == 1 && Pow2(1) == 2 && Pow2(2) == 4 && Pow2(3) == 8
  {
  }

  lemma RoundUp(offset: nat, align: nat, k: nat)
    requires k <= 32 && align == Pow2(k) && offset + align <= Pow2(32)
    ensures AlignUp(offset, align) == (offset + align - 1) / align * align
    ensures AlignUp(offset, align) % align == 0 && offset <= AlignUp(offset, align) < offset + align
  {
    var x := offset + align - 1;
    MaskRounds(x, k, 32);
    hide BitAnd, Pow2;
    RoundBounds(x, align);
  }

  lemma RoundBounds(x: nat, a: nat)
    requires a > 0
    ensures x < x / a * a + a && x / a * a <= x && x / a * a % a == 0
  {
    MulMod(x / a, a);
    assert x == x / a * a + x % a;
  }

  lemma MulMod(k: nat, n: nat)
    requires n > 0
    ensures k * n % n == 0
  {
    DivModUnique(k * n, n, k, 0);
  }

  lemma LeastMultiple(x: nat, m: nat, a: nat)
    requires a > 0 && m % a == 0 && m + a > x
    ensures x / a * a <= m
  {
    var q, d := x / a, m / a;
    assert m == d * a && q * a <= x;
    assert (d + 1) * a == d * a + a;
    MulLess(q, d + 1, a);
    MulLeq(q, d, a);
  }

  lemma MulLess(p: nat, q: nat, a: nat)
    requires p * a < q * a
    ensures p < q
  {
    if p >= q {
      MulLeq(q, p, a);
    }
  }

  lemma MulLeq(p: nat, q: nat, a: nat)
    requires p <= q
    ensures p * a <= q * a
  {
    assert q * a == p * a + (q - p) * a;
    assert (q - p) * a >= 0;
  }
}
