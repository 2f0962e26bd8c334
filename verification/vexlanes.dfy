/** The loops over lanes and bits around the scalar operators. */
module VexLanes {
  import opened Bits
  import opened Wrapping
  import opened VexOps
  import VexIR

  predicate Lanes(v: seq<nat>, n: nat) {
    forall i :: 0 <= i < |v| ==> v[i] < Pow2(n)
  }

  method QSignedLanes(v1: seq<nat>, v2: seq<nat>, n: nat, sub: bool) returns (result: seq<nat>)
    requires n > 0 && |v1| == |v2| && Lanes(v1, n) && Lanes(v2, n)
    ensures |result| == |v1|
    ensures forall i :: 0 <= i < |v1| ==>
      Signed(result[i], n) ==
      Clamp(if sub then Signed(v1[i], n) - Signed(v2[i], n) else Signed(v1[i], n) + Signed(v2[i], n),
            0 - Pow2(n - 1), Pow2(n - 1) - 1)
  {
    hide Pow2, Signed, QSigned, Clamp;
    result := seq(|v1|, _ => 0);
    var i := 0;
    while i < |v1|
      invariant 0 <= i <= |v1| && |result| == |v1|
      invariant forall k :: 0 <= k < i ==>
        Signed(result[k], n) ==
        Clamp(if sub then Signed(v1[k], n) - Signed(v2[k], n) else Signed(v1[k], n) + Signed(v2[k], n),
              0 - Pow2(n - 1), Pow2(n - 1) - 1)
    {
      QSignedSaturates(v1[i], v2[i], n, sub);
      result := result[i := QSigned(v1[i], v2[i], n, sub)];
      i := i + 1;
    }
  }

  method QUnsignedLanes(v1: seq<nat>, v2: seq<nat>, n: nat, sub: bool) returns (result: seq<nat>)
    requires |v1| == |v2| && Lanes(v1, n) && Lanes(v2, n)
    ensures |result| == |v1|
    ensures forall i :: 0 <= i < |v1| ==>
      result[i] == Clamp(if sub then v1[i] as int - v2[i] else v1[i] + v2[i], 0, Pow2(n) - 1)
  {
    hide Pow2, QAddUnsigned, QSubUnsigned, Clamp;
    result := seq(|v1|, _ => 0);
    var i := 0;
    while i < |v1|
      invariant 0 <= i <= |v1| && |result| == |v1|
      invariant forall k :: 0 <= k < i ==>
        result[k] == Clamp(if sub then v1[k] as int - v2[k] else v1[k] + v2[k], 0, Pow2(n) - 1)
    {
      QAddUnsignedSaturates(v1[i], v2[i], n);
      QSubUnsignedSaturates(v1[i], v2[i], n);
      result := result[i := if sub then QSubUnsigned(v1[i], v2[i], n) else QAddUnsigned(v1[i], v2[i], n)];
      i := i + 1;
    }
  }

  method AvgLanes(v1: seq<nat>, v2: seq<nat>, n: nat, signed: bool) returns (result: seq<nat>)
    requires n > 0 && |v1| == |v2| && Lanes(v1, n) && Lanes(v2, n)
    ensures |result| == |v1|
    ensures forall i :: 0 <= i < |v1| ==>
      result[i] == Wrap((Value(v1[i], n, signed) + Value(v2[i], n, signed) + 1) / 2, n)
  {
    hide Pow2, Avg, Value, Wrap;
    result := seq(|v1|, _ => 0);
    var i := 0;
    while i < |v1|
      invariant 0 <= i <= |v1| && |result| == |v1|
      invariant forall k :: 0 <= k < i ==>
        result[k] == Wrap((Value(v1[k], n, signed) + Value(v2[k], n, signed) + 1) / 2, n)
    {
      AvgExact(v1[i], v2[i], n, signed);
      result := result[i := Avg(v1[i], v2[i], n, signed)];
      i := i + 1;
    }
  }

  method HalveLanes(v1: seq<nat>, v2: seq<nat>, n: nat, signed: bool, sub: bool) returns (result: seq<nat>)
    requires n > 0 && |v1| == |v2| && Lanes(v1, n) && Lanes(v2, n)
    ensures |result| == |v1|
    ensures forall i :: 0 <= i < |v1| ==>
      result[i] ==
      Wrap((if sub then Value(v1[i], n, signed) - Value(v2[i], n, signed)
            else Value(v1[i], n, signed) + Value(v2[i], n, signed)) / 2, n)
  {
    hide Pow2, Halve, Value, Wrap;
    result := seq(|v1|, _ => 0);
    var i := 0;
    while i < |v1|
      invariant 0 <= i <= |v1| && |result| == |v1|
      invariant forall k :: 0 <= k < i ==>
        result[k] ==
        Wrap((if sub then Value(v1[k], n, signed) - Value(v2[k], n, signed)
              else Value(v1[k], n, signed) + Value(v2[k], n, signed)) / 2, n)
    {
      HalveExact(v1[i], v2[i], n, signed, sub);
      result := result[i := Halve(v1[i], v2[i], n, signed, sub)];
      i := i + 1;
    }
  }

  /** Lanes of the second operand come first. */
  method NarrowLanes(v1: seq<nat>, v2: seq<nat>, n: nat) returns (result: seq<nat>)
    requires n > 0 && |v1| == |v2| && Lanes(v1, 2 * n) && Lanes(v2, 2 * n)
    ensures |result| == 2 * |v1|
    ensures forall i :: 0 <= i < |v1| ==>
      && result[i] == Clamp(Signed(v2[i], 2 * n), 0, Pow2(n) - 1)
      && result[|v1| + i] == Clamp(Signed(v1[i], 2 * n), 0, Pow2(n) - 1)
  {
    hide Pow2, Narrow, Signed, Clamp;
    result := seq(2 * |v1|, _ => 0);
    var i := 0;
    while i < |v2|
      invariant 0 <= i <= |v2| && |result| == 2 * |v1|
      invariant forall k :: 0 <= k < i ==> result[k] == Clamp(Signed(v2[k], 2 * n), 0, Pow2(n) - 1)
    {
      NarrowUnsigned(v2[i], n);
      result := result[i := Narrow(v2[i], Pow2(n) - 1, 0, 2 * n, n)];
      i := i + 1;
    }
    i := 0;
    while i < |v1|
      invariant 0 <= i <= |v1| && |result| == 2 * |v1|
      invariant forall k :: 0 <= k < |v1| ==> result[k] == Clamp(Signed(v2[k], 2 * n), 0, Pow2(n) - 1)
      invariant forall k :: 0 <= k < i ==> result[|v1| + k] == Clamp(Signed(v1[k], 2 * n), 0, Pow2(n) - 1)
    {
      NarrowUnsigned(v1[i], n);
      result := result[|v1| + i := Narrow(v1[i], Pow2(n) - 1, 0, 2 * n, n)];
      i := i + 1;
    }
  }

  /** The comparison picks the larger or the smaller of two lanes as the operator reads them. */
  method SelectLanes(v1: seq<nat>, v2: seq<nat>, n: nat, signed: bool, greater: bool) returns (result: seq<nat>)
    requires n > 0 && |v1| == |v2|
    ensures |result| == |v1|
    ensures forall i :: 0 <= i < |v1| ==>
      && (result[i] == v1[i] || result[i] == v2[i])
      && (greater ==> Value(result[i], n, signed) >= Value(v1[i], n, signed) && Value(result[i], n, signed) >= Value(v2[i], n, signed))
      && (!greater ==> Value(result[i], n, signed) <= Value(v1[i], n, signed) && Value(result[i], n, signed) <= Value(v2[i], n, signed))
  {
    hide Value;
    result := seq(|v1|, _ => 0);
    var i := 0;
    while i < |v1|
      invariant 0 <= i <= |v1| && |result| == |v1|
      invariant forall k :: 0 <= k < i ==>
        && (result[k] == v1[k] || result[k] == v2[k])
        && (greater ==> Value(result[k], n, signed) >= Value(v1[k], n, signed) && Value(result[k], n, signed) >= Value(v2[k], n, signed))
        && (!greater ==> Value(result[k], n, signed) <= Value(v1[k], n, signed) && Value(result[k], n, signed) <= Value(v2[k], n, signed))
    {
      var a, b := Value(v1[i], n, signed), Value(v2[i], n, signed);
      result := result[i := if (if greater then a > b else a < b) then v1[i] else v2[i]];
      i := i + 1;
    }
  }

  // ---- repeating a byte by doubling

  /** k copies of a byte. */
  function Repeat(x: nat, k: nat): nat {
    if k == 0 then 0 else x + 256 * Repeat(x, k - 1)
  }

  lemma {:induction false} RepeatAdd(x: nat, j: nat, k: nat)
    ensures Repeat(x, j + k) == Repeat(x, j) + Pow2(8 * j) * Repeat(x, k)
    decreases j
  {
    if j == 0 {
      assert Pow2(0) == 1;
    } else {
      RepeatAdd(x, j - 1, k);
      RepeatStep(x, j);
      RepeatStep(x, j + k);
      EightMore(j);
      hide Pow2, Repeat;
      Scale(Repeat(x, j - 1), Pow2(8 * (j - 1)), Repeat(x, k));
    }
  }

  lemma RepeatStep(x: nat, k: nat)
    requires k > 0
    ensures Repeat(x, k) == x + 256 * Repeat(x, k - 1)
  {
  }

  lemma {:induction false} RepeatBound(x: nat, k: nat)
    requires x < 256
    ensures Repeat(x, k) < Pow2(8 * k)
    decreases k
  {
    if k > 0 {
      RepeatBound(x, k - 1);
      EightMore(k);
    }
  }

  /** Or-ing a repetition with itself shifted past its end doubles it. */
  lemma RepeatTwice(x: nat, k: nat, m: nat)
    requires x < 256 && 16 * k <= m
    ensures BitOr(Repeat(x, k), Shl(Repeat(x, k), 8 * k, m), m) == Repeat(x, 2 * k)
  {
    var r, p := Repeat(x, k), Pow2(8 * k);
    RepeatBound(x, k);
    RepeatBound(x, 2 * k);
    RepeatAdd(x, k, k);
    assert k + k == 2 * k && 8 * (2 * k) == 16 * k;
    Pow2Mono(16 * k, m);
    MulCommutes(r, p);
    SmallWrap(r * p, m);
    MultipleMod(r, p);
    hide Pow2, Repeat;
    OrDisjoint(r, r * p, 8 * k, m);
  }

  lemma MulCommutes(a: nat, b: nat)
    ensures a * b == b * a
  {
  }

  lemma SmallWrap(x: nat, m: nat)
    requires x < Pow2(m)
    ensures Wrap(x, m) == x
  {
    DivModUnique(x, Pow2(m), 0, x);
  }

  method Dup8x16(x: nat) returns (v: nat)
    requires x < 256
    ensures v == Repeat(x, 16)
  {
    v := ZExt(x);
    assert Repeat(x, 1) == x;
    ghost var k := 1;
    var i := 1;
    var shift := 8;
    while i <= 4
      invariant 1 <= i <= 5 && k == (if i == 1 then 1 else if i == 2 then 2 else if i == 3 then 4 else if i == 4 then 8 else 16)
      invariant v == Repeat(x, k) && shift == 8 * k
    {
      hide Repeat, Shl, BitOr;
      RepeatTwice(x, k, 128);
      v := BitOr(v, Shl(v, shift, 128), 128);
      k, shift := 2 * k, 2 * shift;
      i := i + 1;
    }
  }

  // ---- gathering top bits, and spreading mask bits

  /** Bits placed one after the other. */
  function Gather(bits: seq<nat>): nat {
    if bits == [] then 0 else Gather(bits[..|bits| - 1]) + bits[|bits| - 1] * Pow2(|bits| - 1)
  }

  predicate AllBits(bits: seq<nat>) {
    forall i :: 0 <= i < |bits| ==> bits[i] < 2
  }

  lemma {:induction false} GatherBound(bits: seq<nat>)
    requires AllBits(bits)
    ensures Gather(bits) < Pow2(|bits|)
    decreases |bits|
  {
    if bits != [] {
      var n := |bits| - 1;
      GatherBound(bits[..n]);
      Double(|bits|);
      hide Pow2, Gather;
      BitTimes(bits[n], Pow2(n));
      GatherStep(bits);
    }
  }

  lemma GatherStep(bits: seq<nat>)
    requires bits != []
    ensures Gather(bits) == Gather(bits[..|bits| - 1]) + bits[|bits| - 1] * Pow2(|bits| - 1)
  {
  }

  lemma BitTimes(b: nat, p: nat)
    requires b < 2
    ensures b * p <= p
  {
  }

  /** Bit i of the gathered word is bit i of the row. */
  lemma {:induction false} GatherBit(bits: seq<nat>, i: nat)
    requires AllBits(bits) && i < |bits|
    ensures Gather(bits) / Pow2(i) % 2 == bits[i]
    decreases |bits|
  {
    var n := |bits| - 1;
    var low := bits[..n];
    GatherStep(bits);
    GatherBound(low);
    if i == n {
      hide Pow2, Gather;
      DivModUnique(Gather(bits), Pow2(n), bits[n], Gather(low));
    } else {
      GatherBit(low, i);
      assert low[i] == bits[i];
      Pow2Add(i + 1, n - i - 1);
      assert i + 1 + (n - i - 1) == n;
      Double(i + 1);
      hide Pow2, Gather;
      HigherBit(Gather(low), bits[n], Pow2(i), Pow2(n - i - 1), Pow2(n));
    }
  }

  /** Adding a multiple of 2p leaves the bit at p alone. */
  lemma HigherBit(x: nat, b: nat, p: nat, q: nat, top: nat)
    requires p > 0 && top == 2 * p * q
    ensures (x + b * top) / p % 2 == x / p % 2
  {
    var d, e := x / p, b * q;
    assert b * top == 2 * e * p by {
      assert b * (2 * p * q) == 2 * (b * q) * p;
    }
    assert x == d * p + x % p;
    assert (d + 2 * e) * p == d * p + 2 * e * p;
    DivModUnique(x + b * top, p, d + 2 * e, x % p);
    EvenMore(d, e);
  }

  lemma EvenMore(d: nat, e: nat)
    ensures (d + 2 * e) % 2 == d % 2
  {
  }

  /** Bit i of the result is the top bit of byte i. */
  method GetMSBs(v: seq<nat>) returns (ret: nat)
    requires Lanes(v, 8)
    ensures forall i :: 0 <= i < |v| ==> (ret / Pow2(i) % 2 == 1 <==> v[i] >= 128)
    ensures ret < Pow2(|v|)
  {
    hide Pow2, BitOr, Shl, LShr, Gather;
    ghost var bits := [];
    ret := 0;
    GatherNone();
    var i := 0;
    while i < |v|
      invariant 0 <= i <= |v| && |bits| == i && AllBits(bits) && ret == Gather(bits)
      invariant forall k :: 0 <= k < i ==> (bits[k] == 1 <==> v[k] >= 128)
    {
      var b := LShr(v[i], 7);
      TopBitOf(v[i]);
      OrBit(bits, b, |v|);
      ret := BitOr(ret, Shl(ZExt(b), i, |v|), |v|);
      bits := bits + [b];
      i := i + 1;
    }
    GatherBound(bits);
    forall k | 0 <= k < |v| ensures ret / Pow2(k) % 2 == 1 <==> v[k] >= 128 {
      GatherBit(bits, k);
    }
  }

  lemma GatherNone()
    ensures Gather([]) == 0
  {
  }

  lemma TopBitOf(x: nat)
    requires x < Pow2(8)
    ensures LShr(x, 7) < 2 && (LShr(x, 7) == 1 <==> x >= 128)
  {
    assert Pow2(8) == 256 && Pow2(7) == 128;
  }

  /** Or-ing the next bit in. */
  lemma OrBit(bits: seq<nat>, b: nat, m: nat)
    requires AllBits(bits) && b < 2 && |bits| < m
    ensures BitOr(Gather(bits), Shl(b, |bits|, m), m) == Gather(bits + [b])
  {
    var n := |bits|;
    var p := Pow2(n);
    GatherBound(bits);
    Pow2Mono(n + 1, m);
    Double(n + 1);
    BitTimes(b, p);
    SmallWrap(b * p, m);
    MultipleMod(b, p);
    GatherStep(bits + [b]);
    assert (bits + [b])[..n] == bits;
    hide Pow2, Gather;
    OrDisjoint(Gather(bits), b * p, n, m);
  }

  /** The byte mask that a V128 or V256 constant is made of, eight bytes at a time. */
  method Bitmask8ToBytemask64(w8: nat) returns (w64: nat)
    requires w8 < 256
    ensures w64 == VexIR.MaskBytes(w8, 8)
  {
    hide Pow2, BitOr, Shl, VexIR.MaskBytes;
    w64 := 0;
    MaskNone(w8);
    var i := 0;
    while i < 8
      invariant 0 <= i <= 8 && w64 == VexIR.MaskBytes(w8, i)
    {
      MaskStep(w8, i);
      if w8 / Pow2(i) % 2 == 1 {
        w64 := BitOr(w64, Shl(0xFF, 8 * i, 64), 64);
      }
      i := i + 1;
    }
  }

  lemma MaskNone(w: nat)
    ensures VexIR.MaskBytes(w, 0) == 0
  {
  }

  lemma {:induction false} MaskMore(w: nat, k: nat)
    ensures VexIR.MaskBytes(w, k + 1) == VexIR.MaskBytes(w, k) + (if w / Pow2(k) % 2 == 1 then 0xFF else 0) * Pow2(8 * k)
    ensures VexIR.MaskBytes(w, k) < Pow2(8 * k)
    decreases k
  {
    if k == 0 {
      assert Pow2(0) == 1 && w / 1 == w;
      assert VexIR.MaskBytes(w / 2, 0) == 0;
    } else {
      MaskMore(w / 2, k - 1);
      HalfShift(w, k);
      EightMore(k);
      var f := if w / Pow2(k) % 2 == 1 then 0xFF else 0;
      assert VexIR.MaskBytes(w, k + 1) == (if w % 2 == 1 then 0xFF else 0) + 256 * VexIR.MaskBytes(w / 2, k);
      assert 256 * (f * Pow2(8 * (k - 1))) == f * Pow2(8 * k);
    }
  }

  lemma HalfShift(w: nat, k: nat)
    requires k > 0
    ensures w / 2 / Pow2(k - 1) == w / Pow2(k)
  {
    Double(k);
    hide Pow2;
    HalfThen(w, Pow2(k - 1));
  }

  lemma MaskStep(w: nat, i: nat)
    requires i < 8
    ensures VexIR.MaskBytes(w, i + 1) ==
            if w / Pow2(i) % 2 == 1 then BitOr(VexIR.MaskBytes(w, i), Shl(0xFF, 8 * i, 64), 64) else VexIR.MaskBytes(w, i)
  {
    hide Pow2, BitOr, VexIR.MaskBytes, Wrap;
    MaskMore(w, i);
    ShiftedFF(i);
    ShlIs(0xFF, 8 * i, 64);
    MultipleMod(0xFF, Pow2(8 * i));
    if w / Pow2(i) % 2 == 1 {
      OrDisjoint(VexIR.MaskBytes(w, i), 0xFF * Pow2(8 * i), 8 * i, 64);
    }
  }

  lemma ShlIs(v: nat, s: nat, m: nat)
    requires v * Pow2(s) < Pow2(m)
    ensures Shl(v, s, m) == v * Pow2(s)
  {
    SmallWrap(v * Pow2(s), m);
  }

  lemma ShiftedFF(i: nat)
    requires i < 8
    ensures 0xFF * Pow2(8 * i) < Pow2(64)
  {
    Pow2Add(8 * i, 8);
    assert Pow2(8) == 256;
    Pow2Mono(8 * i + 8, 64);
    hide Pow2;
  }

  /** Wide masks are put together from the masks of their bytes. */
  lemma {:induction false} MaskConcat(w: nat, j: nat, k: nat)
    ensures VexIR.MaskBytes(w, j + k) ==
            VexIR.MaskBytes(Trunc(w, j), j) + Pow2(8 * j) * VexIR.MaskBytes(LShr(w, j), k)
    decreases j
  {
    if j == 0 {
      assert Pow2(0) == 1 && w / 1 == w;
      MaskNone(w % 1);
    } else {
      MaskConcat(w / 2, j - 1, k);
      MaskUnfold(w, j + k);
      MaskUnfold(w % Pow2(j), j);
      HalfShift(w, j);
      HalfRest(w, j);
      EightMore(j);
      hide Pow2, VexIR.MaskBytes;
      Scale(VexIR.MaskBytes(w / 2 % Pow2(j - 1), j - 1), Pow2(8 * (j - 1)), VexIR.MaskBytes(w / Pow2(j), k));
    }
  }

  lemma MaskUnfold(w: nat, k: nat)
    requires k > 0
    ensures VexIR.MaskBytes(w, k) == (if w % 2 == 1 then 0xFF else 0) + 256 * VexIR.MaskBytes(w / 2, k - 1)
  {
  }

  lemma HalfRest(w: nat, j: nat)
    requires j > 0
    ensures w % Pow2(j) % 2 == w % 2 && w % Pow2(j) / 2 == w / 2 % Pow2(j - 1)
  {
    Double(j);
    hide Pow2;
    HalfParts(w, Pow2(j - 1));
  }

  lemma HalfParts(w: nat, p: nat)
    requires p > 0
    ensures w % (2 * p) % 2 == w % 2 && w % (2 * p) / 2 == w / 2 % p
  {
    var h := w / 2;
    var q, r := h / p, h % p;
    assert q * (2 * p) == 2 * (q * p);
    DivModUnique(w, 2 * p, q, 2 * r + w % 2);
  }

  // ---- counting zeros

  /** The number of trailing zero bits, or the width for zero. */
  method CountTrailingZeros(v0: nat, w: nat) returns (ret: nat)
    requires v0 < Pow2(w)
    ensures if v0 == 0 then ret == w else v0 % Pow2(ret) == 0 && v0 / Pow2(ret) % 2 == 1
  {
    if v0 == 0 {
      return w;
    }
    var v := v0;
    ret := 0;
    assert Pow2(0) == 1;
    while v % 2 == 0
      invariant v > 0 && v0 == v * Pow2(ret)
      decreases v
    {
      Double(ret + 1);
      assert v == 2 * (v / 2);
      assert (2 * (v / 2)) * Pow2(ret) == (v / 2) * (2 * Pow2(ret));
      ret := ret + 1;
      v := v / 2;
    }
    hide Pow2;
    DivModUnique(v0, Pow2(ret), v, 0);
  }

  /** The number of leading zero bits, or the width for zero. */
  method CountLeadingZeros(v0: nat, w: nat) returns (ret: nat)
    requires v0 < Pow2(w)
    ensures if v0 == 0 then ret == w else ret < w && Pow2(w - 1 - ret) <= v0 < Pow2(w - ret)
  {
    if v0 == 0 {
      return w;
    }
    assert Pow2(0) == 1;
    var v := v0;
    ret := 0;
    Double(w);
    while v < Pow2(w - 1)
      invariant ret < w && v == v0 * Pow2(ret) && 0 < v < Pow2(w) && v0 < Pow2(w - ret)
      decreases Pow2(w) - v
    {
      ShiftUp(v0, w, ret, v);
      ret := ret + 1;
      v := Wrap(2 * v, w);
    }
    TopReached(v0, w, ret, v);
  }

  lemma ShiftUp(v0: nat, w: nat, ret: nat, v: nat)
    requires 0 < w && ret < w && v == v0 * Pow2(ret) && 0 < v < Pow2(w - 1)
    ensures ret + 1 < w && v0 < Pow2(w - ret - 1) && Wrap(2 * v, w) == 2 * v == v0 * Pow2(ret + 1)
    ensures Pow2(w) == 2 * Pow2(w - 1)
  {
    Double(w);
    Double(ret + 1);
    SmallWrap(2 * v, w);
    assert 2 * (v0 * Pow2(ret)) == v0 * (2 * Pow2(ret));
    Pow2Add(w - 1 - ret, ret);
    assert w - 1 - ret + ret == w - 1;
    if v0 >= Pow2(w - 1 - ret) {
      MulLeast(v0, Pow2(w - 1 - ret), Pow2(ret));
    }
    assert Pow2(0) == 1;
  }

  lemma TopReached(v0: nat, w: nat, ret: nat, v: nat)
    requires 0 < w && ret < w && v == v0 * Pow2(ret) && v >= Pow2(w - 1)
    ensures Pow2(w - 1 - ret) <= v0
  {
    Pow2Add(w - 1 - ret, ret);
    assert w - 1 - ret + ret == w - 1;
    hide Pow2;
    LessFactor(v0, Pow2(w - 1 - ret), Pow2(ret));
  }

  lemma LessFactor(a: nat, b: nat, p: nat)
    requires p > 0 && a * p >= b * p
    ensures a >= b
  {
    if a < b {
      MulStrict(a, b, p);
    }
  }

  lemma MulStrict(a: nat, b: nat, p: nat)
    requires p > 0 && a < b
    ensures a * p < b * p
  {
    assert b * p == a * p + (b - a) * p;
    MulAtLeast(b - a, p);
  }
}
