/**
 Vector and scalar operators that the emitter expands into several fixed-width instructions.
 Each expansion, written with the instructions it uses, is shown to compute the exact integer
 result that the operator stands for, for lanes of any width.
 */
module VexOps {
  import opened Bits
  import opened Wrapping

  // ---- the instructions

  function ZExt(v: nat): nat {
    v
  }

  function SExt(v: nat, n: nat, m: nat): nat
    requires n > 0
  {
    SignExtend(v, n, m)
  }

  function Add(a: nat, b: nat, m: nat): nat {
    Wrap(a + b, m)
  }

  function Sub(a: nat, b: nat, m: nat): nat {
    Wrap(a - b, m)
  }

  function Mul(a: nat, b: nat, m: nat): nat {
    Wrap(a * b, m)
  }

  function Trunc(v: nat, n: nat): nat {
    v % Pow2(n)
  }

  function LShr(v: nat, s: nat): nat {
    hide *;
    v / Pow2(s)
  }

  function Shl(v: nat, s: nat, m: nat): nat {
    Wrap(v * Pow2(s), m)
  }

  function SMax(a: nat, b: nat, m: nat): nat
    requires m > 0
  {
    if Signed(a, m) < Signed(b, m) then b else a
  }

  function SMin(a: nat, b: nat, m: nat): nat
    requires m > 0
  {
    if Signed(a, m) > Signed(b, m) then b else a
  }

  function UMin(a: nat, b: nat): nat {
    if a > b then b else a
  }

  /** How a lane is read: as a signed or an unsigned number, and widened accordingly. */
  function Value(v: nat, n: nat, signed: bool): int
    requires n > 0
  {
    if signed then Signed(v, n) else v
  }

  function Ext(v: nat, n: nat, m: nat, signed: bool): nat
    requires n > 0
  {
    if signed then SExt(v, n, m) else ZExt(v)
  }

  function Clamp(x: int, lo: int, hi: int): int {
    if x > hi then hi else if x < lo then lo else x
  }

  /** Widening keeps the value: the pattern is the value wrapped at the new width. */
  lemma ExtIs(v: nat, n: nat, m: nat, signed: bool)
    requires 0 < n <= m && v < Pow2(n)
    ensures Ext(v, n, m, signed) == Wrap(Value(v, n, signed), m) && Ext(v, n, m, signed) < Pow2(m)
  {
    Pow2Mono(n, m);
    if !signed {
      DivModUnique(v, Pow2(m), 0, v);
    }
  }

  // ---- saturating addition and subtraction: widen by one bit, clamp, cut

  /** OPSAT with both clamps, signed lanes. */
  function QSigned(a: nat, b: nat, n: nat, sub: bool): nat
    requires n > 0
  {
    var x, y := SExt(a, n, n + 1), SExt(b, n, n + 1);
    var partial := if sub then Sub(x, y, n + 1) else Add(x, y, n + 1);
    var hi, lo := SExt(Pow2(n - 1) - 1, n, n + 1), SExt(Pow2(n - 1), n, n + 1);
    Trunc(SMax(SMin(partial, hi, n + 1), lo, n + 1), n)
  }

  /** OPSAT with the upper clamp only, unsigned lanes. */
  function QAddUnsigned(a: nat, b: nat, n: nat): nat {
    var partial := Add(ZExt(a), ZExt(b), n + 1);
    Trunc(UMin(partial, ZExt(Pow2(n) - 1)), n)
  }

  /** OPSAT with the lower clamp only, which compares as signed, unsigned lanes. */
  function QSubUnsigned(a: nat, b: nat, n: nat): nat {
    var partial := Sub(ZExt(a), ZExt(b), n + 1);
    Trunc(SMax(partial, 0, n + 1), n)
  }

  lemma QSignedSaturates(a: nat, b: nat, n: nat, sub: bool)
    requires n > 0 && a < Pow2(n) && b < Pow2(n)
    ensures
      var exact := if sub then Signed(a, n) - Signed(b, n) else Signed(a, n) + Signed(b, n);
      Signed(QSigned(a, b, n, sub), n) == Clamp(exact, 0 - Pow2(n - 1), Pow2(n - 1) - 1)
  {
    var m := n + 1;
    var s, t := Signed(a, n), Signed(b, n);
    var exact := if sub then s - t else s + t;
    var x, y := SExt(a, n, m), SExt(b, n, m);
    var partial := if sub then Sub(x, y, m) else Add(x, y, m);
    var hi, lo := SExt(Pow2(n - 1) - 1, n, m), SExt(Pow2(n - 1), n, m);
    Double(n);
    Double(m);
    SignedRange(a, n);
    SignedRange(b, n);
    ExtIs(a, n, m, true);
    ExtIs(b, n, m, true);
    WrapAdd(s, t, m);
    WrapSub(s, t, m);
    ExtendValue(Pow2(n - 1) - 1, n, m);
    ExtendValue(Pow2(n - 1), n, m);
    hide Pow2, SignExtend, Wrap;
    assert partial == Wrap(exact, m);
    SignedWrap(exact, m);
    WrapBound(exact, m);
    ClampedCut(partial, hi, lo, n);
  }

  lemma WrapBound(x: int, m: nat)
    ensures Wrap(x, m) < Pow2(m)
  {
  }

  /** Clamping patterns clamps their values, and a value in range survives the cut. */
  lemma ClampedCut(partial: nat, hi: nat, lo: nat, n: nat)
    requires n > 0 && partial < Pow2(n + 1) && hi < Pow2(n + 1) && lo < Pow2(n + 1)
    requires Signed(hi, n + 1) == Pow2(n - 1) - 1 && Signed(lo, n + 1) == 0 - Pow2(n - 1)
    ensures Signed(Trunc(SMax(SMin(partial, hi, n + 1), lo, n + 1), n), n) ==
            Clamp(Signed(partial, n + 1), 0 - Pow2(n - 1), Pow2(n - 1) - 1)
  {
    var m := n + 1;
    var e := SMax(SMin(partial, hi, m), lo, m);
    Double(n);
    hide Pow2, Signed;
    SignedTrunc(e, m, n);
  }

  /** A signed value that fits the smaller width survives the cut. */
  lemma SignedTrunc(e: nat, m: nat, n: nat)
    requires 0 < n <= m && e < Pow2(m) && InRange(Signed(e, m), n)
    ensures Signed(Trunc(e, n), n) == Signed(e, m)
  {
    WrapSigned(e, m);
    WrapCut(Signed(e, m), m, n);
    SignedWrap(Signed(e, m), n);
  }

  lemma QAddUnsignedSaturates(a: nat, b: nat, n: nat)
    requires a < Pow2(n) && b < Pow2(n)
    ensures QAddUnsigned(a, b, n) == Clamp(a + b, 0, Pow2(n) - 1)
  {
    Double(n + 1);
    DivModUnique(a + b, Pow2(n + 1), 0, a + b);
    var r := Clamp(a + b, 0, Pow2(n) - 1);
    DivModUnique(r, Pow2(n), 0, r);
  }

  lemma QSubUnsignedSaturates(a: nat, b: nat, n: nat)
    requires a < Pow2(n) && b < Pow2(n)
    ensures QSubUnsigned(a, b, n) == Clamp(a - b, 0, Pow2(n) - 1)
  {
    Double(n + 1);
    SignedWrap(a - b, n + 1);
    if a >= b {
      DivModUnique(a - b, Pow2(n + 1), 0, a - b);
      DivModUnique(a - b, Pow2(n), 0, a - b);
    } else {
      DivModUnique(0, Pow2(n), 0, 0);
    }
  }

  // ---- high half of a product, averages, halving: widen, shift right, cut

  function MulHi(a: nat, b: nat, n: nat, signed: bool): nat
    requires n > 0
  {
    Trunc(LShr(Mul(Ext(a, n, 2 * n, signed), Ext(b, n, 2 * n, signed), 2 * n), n), n)
  }

  function Avg(a: nat, b: nat, n: nat, signed: bool): nat
    requires n > 0
  {
    var sum := Add(Ext(a, n, 2 * n, signed), Ext(b, n, 2 * n, signed), 2 * n);
    Trunc(LShr(Add(sum, 1, 2 * n), 1), n)
  }

  function Halve(a: nat, b: nat, n: nat, signed: bool, sub: bool): nat
    requires n > 0
  {
    var x, y := Ext(a, n, 2 * n, signed), Ext(b, n, 2 * n, signed);
    Trunc(LShr(if sub then Sub(x, y, 2 * n) else Add(x, y, 2 * n), 1), n)
  }

  /** Bits s+n-1..s of a number, however it was wrapped. */
  lemma MiddleBits(x: int, m: nat, s: nat, n: nat)
    requires s + n <= m
    ensures Trunc(LShr(Wrap(x, m), s), n) == Wrap(x / Pow2(s), n)
  {
    HighBits(x, m, s);
    WrapCut(x / Pow2(s), m - s, n);
  }

  /** The high half is the product divided by 2^n, rounded down, whether the lanes are signed or not. */
  lemma MulHiExact(a: nat, b: nat, n: nat, signed: bool)
    requires n > 0 && a < Pow2(n) && b < Pow2(n)
    ensures MulHi(a, b, n, signed) == Wrap(Value(a, n, signed) * Value(b, n, signed) / Pow2(n), n)
  {
    var x, y := Value(a, n, signed), Value(b, n, signed);
    ExtIs(a, n, 2 * n, signed);
    ExtIs(b, n, 2 * n, signed);
    hide Pow2, Ext, Value, Wrap;
    WrapMul(x, y, 2 * n);
    MiddleBits(x * y, 2 * n, n, n);
  }

  /** The average is half of the exact sum plus one, rounded down. */
  lemma AvgExact(a: nat, b: nat, n: nat, signed: bool)
    requires n > 0 && a < Pow2(n) && b < Pow2(n)
    ensures Avg(a, b, n, signed) == Wrap((Value(a, n, signed) + Value(b, n, signed) + 1) / 2, n)
  {
    hide *;
    var x, y, m := Value(a, n, signed), Value(b, n, signed), 2 * n;
    ExtIs(a, n, m, signed);
    ExtIs(b, n, m, signed);
    AddIs(x, y, m);
    WrapOne(m);
    AddIs(x + y, 1, m);
    AvgIs(a, b, n, signed);
    HalfBits(x + y + 1, n);
  }

  lemma AddIs(x: int, y: int, m: nat)
    ensures Add(Wrap(x, m), Wrap(y, m), m) == Wrap(x + y, m)
  {
    WrapAdd(x, y, m);
  }

  lemma SubIs(x: int, y: int, m: nat)
    ensures Sub(Wrap(x, m), Wrap(y, m), m) == Wrap(x - y, m)
  {
    WrapSub(x, y, m);
  }

  lemma AvgIs(a: nat, b: nat, n: nat, signed: bool)
    requires n > 0
    ensures
      var sum := Add(Ext(a, n, 2 * n, signed), Ext(b, n, 2 * n, signed), 2 * n);
      Avg(a, b, n, signed) == Trunc(LShr(Add(sum, 1, 2 * n), 1), n)
  {
    hide Ext, Add, LShr, Trunc;
  }

  lemma HalveIs(a: nat, b: nat, n: nat, signed: bool, sub: bool)
    requires n > 0
    ensures
      var x, y := Ext(a, n, 2 * n, signed), Ext(b, n, 2 * n, signed);
      Halve(a, b, n, signed, sub) == Trunc(LShr(if sub then Sub(x, y, 2 * n) else Add(x, y, 2 * n), 1), n)
  {
    hide Ext, Add, Sub, LShr, Trunc;
  }

  lemma HalfBits(x: int, n: nat)
    requires n > 0
    ensures Trunc(LShr(Wrap(x, 2 * n), 1), n) == Wrap(x / 2, n)
  {
    MiddleBits(x, 2 * n, 1, n);
    PowerOne();
  }

  lemma WrapOne(m: nat)
    requires m > 0
    ensures Wrap(1, m) == 1
  {
    Double(m);
    DivModUnique(1, Pow2(m), 0, 1);
  }

  lemma PowerOne()
    ensures Pow2(1) == 2
  {
  }

  /** Halving addition and subtraction give bits n..1 of the exact sum or difference. */
  lemma HalveExact(a: nat, b: nat, n: nat, signed: bool, sub: bool)
    requires n > 0 && a < Pow2(n) && b < Pow2(n)
    ensures
      var x, y := Value(a, n, signed), Value(b, n, signed);
      Halve(a, b, n, signed, sub) == Wrap((if sub then x - y else x + y) / 2, n)
  {
    hide *;
    var x, y, m := Value(a, n, signed), Value(b, n, signed), 2 * n;
    ExtIs(a, n, m, signed);
    ExtIs(b, n, m, signed);
    AddIs(x, y, m);
    SubIs(x, y, m);
    HalveIs(a, b, n, signed, sub);
    HalfBits(if sub then x - y else x + y, n);
  }

  // ---- saturating narrowing: clamp between two constants as signed, cut

  function Narrow(e: nat, c: nat, negC: nat, m: nat, n: nat): nat
    requires m > 0
  {
    Trunc(SMax(SMin(e, c, m), negC, m), n)
  }

  /** To an unsigned lane of half the width. */
  lemma NarrowUnsigned(e: nat, n: nat)
    requires n > 0 && e < Pow2(2 * n)
    ensures Narrow(e, Pow2(n) - 1, 0, 2 * n, n) == Clamp(Signed(e, 2 * n), 0, Pow2(n) - 1)
  {
    hide Pow2, Signed;
    var m, p := 2 * n, Pow2(n);
    Pow2Mono(n, m - 1);
    SignedSmall(p - 1, m);
    SignedSmall(0, m);
    SignedNonNegative(e, m);
    var r := SMax(SMin(e, p - 1, m), 0, m);
    assert r == Clamp(Signed(e, m), 0, p - 1);
    SmallCut(r, n);
  }

  lemma SignedSmall(v: nat, m: nat)
    requires m > 0 && v < Pow2(m - 1)
    ensures Signed(v, m) == v
  {
  }

  lemma SignedNonNegative(v: nat, m: nat)
    requires m > 0 && v < Pow2(m)
    ensures Signed(v, m) >= 0 ==> Signed(v, m) == v
  {
  }

  lemma SmallCut(r: nat, n: nat)
    requires r < Pow2(n)
    ensures Trunc(r, n) == r
  {
    DivModUnique(r, Pow2(n), 0, r);
  }

  /** To a signed lane of half the width; the lower bound is given as a pattern of the full width. */
  lemma NarrowSigned(e: nat, n: nat)
    requires n > 0 && e < Pow2(2 * n)
    ensures Pow2(2 * n) >= Pow2(n - 1)
    ensures Signed(Narrow(e, Pow2(n - 1) - 1, Pow2(2 * n) - Pow2(n - 1), 2 * n, n), n) ==
            Clamp(Signed(e, 2 * n), 0 - Pow2(n - 1), Pow2(n - 1) - 1)
  {
    var m := 2 * n;
    Pow2Mono(n, m);
    Pow2Mono(n - 1, m - 1);
    Double(n);
    Double(m);
    var hi, lo := Pow2(n - 1) - 1, Pow2(m) - Pow2(n - 1);
    assert Signed(hi, m) == hi && Signed(lo, m) == 0 - Pow2(n - 1);
    var r := SMax(SMin(e, hi, m), lo, m);
    hide Pow2, Signed;
    assert Signed(r, m) == Clamp(Signed(e, m), 0 - Pow2(n - 1), Pow2(n - 1) - 1);
    SignedTrunc(r, m, n);
  }

  // ---- shifts of all lanes by one amount

  /** A whole vector cast to lanes of n bits, the lowest first. */
  function BitCast(v: nat, n: nat, lanes: nat): seq<nat> {
    seq(lanes, i requires 0 <= i < lanes => v / Pow2(n * i) % Pow2(n))
  }

  /** The lanes of two vectors that the mask names. */
  function Shuffle(v1: seq<nat>, v2: seq<nat>, mask: seq<nat>): seq<nat>
    requires forall i :: 0 <= i < |mask| ==> mask[i] < |v1| + |v2|
  {
    seq(|mask|, i requires 0 <= i < |mask| => (v1 + v2)[mask[i]])
  }

  /**
   The shift amount in every lane. A constant is cut to the lane and repeated; otherwise the
   amount is widened to the whole vector, cast to lanes, and lane zero is copied to all lanes.
   */
  function Amounts(amount: nat, n: nat, lanes: nat, constant: bool): seq<nat> {
    if constant then seq(lanes, i => Trunc(amount, n))
    else if lanes == 0 then []
    else Shuffle(BitCast(ZExt(amount), n, lanes), BitCast(ZExt(amount), n, lanes), seq(lanes, i => 0))
  }

  /** An amount that fits a lane reaches every lane unchanged, whichever way it is spread. */
  lemma AmountsKeep(amount: nat, n: nat, lanes: nat, constant: bool, i: nat)
    requires amount < Pow2(n) && i < lanes
    ensures |Amounts(amount, n, lanes, constant)| == lanes && Amounts(amount, n, lanes, constant)[i] == amount
  {
    SmallCut(amount, n);
    if !constant {
      assert n * 0 == 0 && Pow2(0) == 1;
      assert BitCast(amount, n, lanes)[0] == amount / Pow2(n * 0) % Pow2(n);
    }
  }

  datatype ShiftOp = Left | RightLogical | RightArithmetic

  datatype Shifted = Poison | Lane(v: nat)

  /** One lane shifted; the instruction has no value for an amount of the lane width or more. */
  function Shift(op: ShiftOp, v: nat, s: nat, n: nat): Shifted
    requires n > 0
  {
    if s >= n then Poison
    else match op
      case Left => Lane(Shl(v, s, n))
      case RightLogical => Lane(LShr(v, s))
      case RightArithmetic => Lane(Wrap(Signed(v, n) / Pow2(s), n))
  }

  /** The shift of all lanes by one amount. */
  function ShiftAll(op: ShiftOp, v: seq<nat>, amount: nat, n: nat, constant: bool): (r: seq<Shifted>)
    requires n > 0
  {
    var amounts := Amounts(amount, n, |v|, constant);
    seq(|v|, i requires 0 <= i < |v| => Shift(op, v[i], if i < |amounts| then amounts[i] else 0, n))
  }

  /**
   For an eight-bit amount every lane has a value exactly when the amount is less than the lane
   width, and then it is the lane times, or divided by, the power of two: rounded down for the
   logical shift of the unsigned lane and for the arithmetic shift of the signed one.
   */
  lemma ShiftAllExact(op: ShiftOp, v: seq<nat>, amount: nat, n: nat, constant: bool, i: nat)
    requires i < |v| && v[i] < Pow2(n) && amount < 256 && n >= 8
    ensures |ShiftAll(op, v, amount, n, constant)| == |v|
    ensures
      var r := ShiftAll(op, v, amount, n, constant)[i];
      && (r.Lane? <==> amount < n)
      && (r.Lane? ==>
            match op
            case Left => r.v == Wrap(v[i] * Pow2(amount), n)
            case RightLogical => r.v == v[i] / Pow2(amount)
            case RightArithmetic => Signed(r.v, n) == Signed(v[i], n) / Pow2(amount))
  {
    Pow2Mono(8, n);
    assert Pow2(8) == 256;
    AmountsKeep(amount, n, |v|, constant, i);
    hide Pow2, Amounts, Signed;
    AShrDivides(v[i], amount, n);
  }

  /** Shifting the sign in divides the signed value, rounding down. */
  lemma AShrDivides(v: nat, s: nat, n: nat)
    requires n > 0 && v < Pow2(n)
    ensures Signed(Wrap(Signed(v, n) / Pow2(s), n), n) == Signed(v, n) / Pow2(s)
  {
    SignedRange(v, n);
    Double(n);
    hide Pow2, Signed, Wrap;
    QuotientRange(Signed(v, n), Pow2(s), Pow2(n - 1));
    SignedWrap(Signed(v, n) / Pow2(s), n);
  }

  lemma QuotientRange(x: int, d: nat, h: nat)
    requires d > 0 && 0 <= x + h < 2 * h
    ensures 0 <= x / d + h < 2 * h
  {
    var q, r := x / d, x % d;
    assert x == q * d + r;
    assert (q + 1) * d == q * d + d;
    if q >= 0 {
      MulGrows(q, d);
    } else {
      MulShrinks(q + 1, d);
    }
  }

  lemma MulGrows(k: int, d: nat)
    requires k >= 0 && d > 0
    ensures k * d >= k
  {
    assert k * d == k + k * (d - 1);
    assert k * (d - 1) >= 0;
  }

  lemma MulShrinks(k: int, d: nat)
    requires k <= 0 && d > 0
    ensures k * d <= k
  {
    MulGrows(-k, d);
    assert (-k) * d == -(k * d);
  }

  // ---- packed division

  /** Quotient in the low half, remainder in the high half. */
  function DivModU(a: nat, b: nat, h: nat): nat
    requires b > 0
  {
    BitOr(ZExt(Trunc(a / ZExt(b), h)), Shl(a % ZExt(b), h, 2 * h), 2 * h)
  }

  /** Division that truncates toward zero, and its remainder. */
  function SDiv(x: int, y: int): int
    requires y != 0
  {
    if x >= 0 && y > 0 then x / y
    else if x >= 0 then -(x / -y)
    else if y > 0 then -(-x / y)
    else -x / -y
  }

  function SRem(x: int, y: int): int
    requires y != 0
  {
    x - SDiv(x, y) * y
  }

  function DivModS(a: nat, b: nat, h: nat): nat
    requires h > 0 && Signed(b, h) != 0
  {
    var w := 2 * h;
    var x, y := Signed(a, w), Signed(SExt(b, h, w), w);
    if y == 0 then 0
    else BitOr(ZExt(Trunc(Wrap(SDiv(x, y), w), h)), Shl(Wrap(SRem(x, y), w), h, w), w)
  }

  function LowHalf(r: nat, h: nat): nat {
    r % Pow2(h)
  }

  function HighHalf(r: nat, h: nat): nat {
    hide *;
    r / Pow2(h)
  }

  /** Packing a low half with a shifted high one. */
  lemma Packed(lo: nat, hi: nat, h: nat)
    requires lo < Pow2(h)
    ensures
      var r := BitOr(lo, Shl(hi, h, 2 * h), 2 * h);
      LowHalf(r, h) == lo && HighHalf(r, h) == hi % Pow2(h)
  {
    var p := Pow2(h);
    ShlHalf(hi, h);
    WrapBelow(hi * p, 2 * h);
    var top := hi % p;
    MultipleMod(top, p);
    OrDisjoint(lo, Shl(hi, h, 2 * h), h, 2 * h);
    DivModUnique(lo + top * p, p, top, lo);
  }

  lemma WrapBelow(x: int, m: nat)
    ensures Wrap(x, m) < Pow2(m)
  {
  }

  lemma MultipleMod(k: nat, p: nat)
    requires p > 0
    ensures k * p % p == 0
  {
    DivModUnique(k * p, p, k, 0);
  }

  /** Shifting left by half the width keeps the low half only. */
  lemma ShlHalf(hi: nat, h: nat)
    ensures Shl(hi, h, 2 * h) == hi % Pow2(h) * Pow2(h)
  {
    Pow2Add(h, h);
    assert h + h == 2 * h;
    hide Pow2;
    ShiftCore(hi, Pow2(h));
  }

  lemma ShiftCore(hi: nat, p: nat)
    requires p > 0
    ensures p * p > 0 && hi * p % (p * p) == hi % p * p
  {
    var q, r := hi / p, hi % p;
    MulAtLeast(p, p);
    assert hi * p == q * (p * p) + r * p by {
      assert hi == q * p + r;
      assert (q * p + r) * p == (q * p) * p + r * p;
      assert (q * p) * p == q * (p * p);
    }
    assert r * p < p * p by {
      assert p * p == r * p + (p - r) * p;
      MulAtLeast(p - r, p);
    }
    DivModUnique(hi * p, p * p, q, r * p);
  }

  /** Unpacking gives a correct division exactly when the quotient fits its half. */
  lemma DivModUExact(a: nat, b: nat, h: nat)
    requires 0 < b < Pow2(h) && a < Pow2(2 * h)
    ensures
      var r := DivModU(a, b, h);
      && HighHalf(r, h) == a % b < b
      && (a == LowHalf(r, h) * b + HighHalf(r, h) <==> a / b < Pow2(h))
  {
    hide *;
    var q, m, p := a / b, a % b, Pow2(h);
    DivModUIs(a, b, h, q, m);
    SmallCut(m, h);
    TruncIs(m, h);
    Packed(q % p, m, h);
    UnpackCore(a, b, q, m, p);
  }

  lemma TruncIs(v: nat, n: nat)
    ensures Trunc(v, n) == v % Pow2(n)
  {
  }

  lemma DivModUIs(a: nat, b: nat, h: nat, q: nat, m: nat)
    requires b > 0 && q == a / b && m == a % b
    ensures DivModU(a, b, h) == BitOr(q % Pow2(h), Shl(m, h, 2 * h), 2 * h)
    ensures a == q * b + m && m < b
  {
    hide BitOr, Shl;
  }

  lemma UnpackCore(a: nat, b: nat, q: nat, m: nat, p: nat)
    requires b > 0 && p > 0 && a == q * b + m
    ensures a == q % p * b + m <==> q < p
  {
    var l := q % p;
    if q < p {
      DivModUnique(q, p, 0, q);
    } else {
      assert (q - l) * b == q * b - l * b;
      MulAtLeast(q - l, b);
    }
  }

  /** The truncating remainder is smaller than the divisor. */
  lemma SRemSmall(x: int, y: int)
    requires y != 0
    ensures (if y > 0 then -y else y) < SRem(x, y) < (if y > 0 then y else -y)
    ensures SRem(x, y) == 0 || (SRem(x, y) > 0 <==> x > 0)
  {
    var u, v := if x >= 0 then x else -x, if y > 0 then y else -y;
    var q, r := u / v, u % v;
    assert u == q * v + r;
    assert SDiv(x, y) == if (x >= 0) == (y > 0) then q else -q;
    assert (-q) * y == -(q * y) && q * (-v) == -(q * v);
  }

  /** Signed packed division, apart from the one quotient that overflows: again exact exactly when the quotient fits. */
  lemma DivModSExact(a: nat, b: nat, h: nat)
    requires h > 0 && a < Pow2(2 * h) && b < Pow2(h) && Signed(b, h) != 0
    ensures
      var x, y, r := Signed(a, 2 * h), Signed(b, h), DivModS(a, b, h);
      && Signed(HighHalf(r, h), h) == SRem(x, y)
      && (Signed(LowHalf(r, h), h) == SDiv(x, y) <==> InRange(SDiv(x, y), h))
  {
    var w := 2 * h;
    var x, y := Signed(a, w), Signed(b, h);
    ExtendValue(b, h, w);
    var q, m := SDiv(x, y), SRem(x, y);
    WrapCut(q, w, h);
    WrapCut(m, w, h);
    WrapBelow(q, h);
    SRemSmall(x, y);
    SignedRange(b, h);
    Double(h);
    SignedWrap(m, h);
    SignedRange(Wrap(q, h), h);
    hide Pow2, Wrap, Signed, SignExtend, SDiv, SRem;
    Packed(Wrap(q, h), Wrap(m, w), h);
    if InRange(q, h) {
      SignedWrap(q, h);
    }
  }
}
