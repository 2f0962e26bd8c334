/**
 The lockstep checker: a shadow process runs the guest natively, one instruction at a time,
 and is compared with the translated guest whenever that has left a superblock. A superblock
 that loops back into itself defers the shadow until the loop is left.
 */
module ExecChk {

  /** A deterministic machine. */
  datatype World<!S> = World(step: S -> S, pc: S -> nat)

  function Iter<S>(w: World<S>, s: S, n: nat): S {
    if n == 0 then s else Iter(w, w.step(s), n - 1)
  }

  datatype Block = Block(addr: nat, end: nat, syscall: bool)

  datatype Chk<S> = Chk(guest: S, shadow: S, deferred: bool, lo: nat, hi: nat, hitSyscall: bool)

  datatype Verdict = Fine | MismatchBefore | MismatchAfter

  predicate InBounds(a: nat, lo: nat, hi: nat) {
    lo <= a < hi
  }

  /** The first k states from s are in bounds. */
  ghost predicate Stays<S>(w: World<S>, s: S, lo: nat, hi: nat, k: nat) {
    forall j: nat :: j < k ==> InBounds(w.pc(Iter(w, s, j)), lo, hi)
  }

  /** Stepping through the bounds from s ends k instructions later. */
  ghost predicate Leaves<S>(w: World<S>, s: S, lo: nat, hi: nat, k: nat) {
    Stays(w, s, lo, hi, k) && !InBounds(w.pc(Iter(w, s, k)), lo, hi)
  }

  lemma {:induction false} IterAdd<S>(w: World<S>, s: S, m: nat, n: nat)
    ensures Iter(w, s, m + n) == Iter(w, Iter(w, s, m), n)
    decreases m
  {
    if m > 0 {
      IterAdd(w, w.step(s), m - 1, n);
    }
  }

  lemma LeavesOnce<S>(w: World<S>, s: S, lo: nat, hi: nat, j: nat, k: nat)
    requires Leaves(w, s, lo, hi, j) && Leaves(w, s, lo, hi, k)
    ensures j == k
  {
  }

  lemma StaysMore<S>(w: World<S>, s: S, lo: nat, hi: nat, m: nat, n: nat)
    requires Stays(w, s, lo, hi, m) && Stays(w, Iter(w, s, m), lo, hi, n)
    ensures Stays(w, s, lo, hi, m + n) && Iter(w, s, m + n) == Iter(w, Iter(w, s, m), n)
  {
    IterAdd(w, s, m, n);
    forall j: nat | j < m + n ensures InBounds(w.pc(Iter(w, s, j)), lo, hi) {
      if j >= m {
        IterAdd(w, s, m, j - m);
      }
    }
  }

  /** One superblock run: n instructions of the guest, then the shadow's part. */
  ghost predicate ChkStep<S(!new)>(w: World<S>, c: Chk<S>, b: Block, n: nat, c': Chk<S>, v: Verdict) {
    if !c.deferred && c.shadow != c.guest then v == MismatchBefore && c' == c
    else
      var g := Iter(w, c.guest, n);
      var inside := InBounds(w.pc(g), b.addr, b.end);
      if c.deferred && inside then c' == c.(guest := g) && v == Fine
      else if !c.deferred && !inside then
        exists k: nat :: Leaves(w, c.shadow, b.addr, b.end, k) &&
          c' == c.(guest := g, shadow := Iter(w, c.shadow, k), hitSyscall := c.hitSyscall || b.syscall) &&
          v == if b.syscall || c'.shadow == g then Fine else MismatchAfter
      else if c.deferred && !inside then
        exists k: nat :: Leaves(w, c.shadow, c.lo, c.hi, k) &&
          c' == Chk(g, Iter(w, c.shadow, k), false, 0, 0, c.hitSyscall) &&
          v == if c'.shadow == g then Fine else MismatchAfter
      else c' == c.(guest := g, deferred := true, lo := b.addr, hi := b.end) && v == Fine
  }

  /**
   The translator is right: the superblock at the guest's address ran n of its instructions,
   and left its bounds at most at the end.
   */
  ghost predicate RightRun<S>(w: World<S>, s: S, b: Block, n: nat) {
    w.pc(s) == b.addr && n > 0 && Stays(w, s, b.addr, b.end, n)
  }

  /** An exit into the superblock itself goes to its start. */
  predicate OwnStart<S>(w: World<S>, s: S, b: Block, n: nat) {
    var a := w.pc(Iter(w, s, n));
    InBounds(a, b.addr, b.end) ==> a == b.addr
  }

  /** The shadow is never ahead; it waits at the start of the superblock that the guest still loops in. */
  ghost predicate InStep<S>(w: World<S>, c: Chk<S>, m: nat) {
    && c.guest == Iter(w, c.shadow, m)
    && (if c.deferred then Stays(w, c.shadow, c.lo, c.hi, m) && w.pc(c.guest) == c.lo else m == 0)
  }

  /** While deferred, the guest is at the start of the same superblock again. */
  predicate SameBlock<S>(c: Chk<S>, b: Block) {
    c.deferred ==> b.addr == c.lo && b.end == c.hi
  }

  /** One step keeps the shadow in step and reports nothing. */
  lemma StepInStep<S(!new)>(w: World<S>, c: Chk<S>, b: Block, n: nat, c': Chk<S>, v: Verdict, m: nat) returns (m': nat)
    requires InStep(w, c, m) && RightRun(w, c.guest, b, n) && OwnStart(w, c.guest, b, n) && SameBlock(c, b)
    requires ChkStep(w, c, b, n, c', v)
    ensures v == Fine && InStep(w, c', m') && (!c'.deferred ==> c'.shadow == c'.guest)
  {
    var g := Iter(w, c.guest, n);
    if InBounds(w.pc(g), b.addr, b.end) {
      StaysMore(w, c.shadow, b.addr, b.end, m, n);
      m' := m + n;
    } else if c.deferred {
      StaysMore(w, c.shadow, c.lo, c.hi, m, n);
      var k: nat :| Leaves(w, c.shadow, c.lo, c.hi, k) && c' == Chk(g, Iter(w, c.shadow, k), false, 0, 0, c.hitSyscall);
      LeavesOnce(w, c.shadow, c.lo, c.hi, m + n, k);
      m' := 0;
    } else {
      var k: nat :| Leaves(w, c.shadow, b.addr, b.end, k) &&
        c' == c.(guest := g, shadow := Iter(w, c.shadow, k), hitSyscall := c.hitSyscall || b.syscall);
      LeavesOnce(w, c.shadow, b.addr, b.end, n, k);
      m' := 0;
    }
  }

  /** One element of a run: the superblock, the instructions it ran, the state afterwards, and what was reported. */
  datatype Event<S> = Event(b: Block, n: nat, after: Chk<S>, v: Verdict)

  ghost predicate Run<S(!new)>(w: World<S>, c: Chk<S>, es: seq<Event<S>>)
    decreases |es|
  {
    es == [] || (ChkStep(w, c, es[0].b, es[0].n, es[0].after, es[0].v) && Run(w, es[0].after, es[1..]))
  }

  /** The translator is right all along, loops go to their own starts, and superblocks are fixed by their addresses. */
  ghost predicate Lawful<S>(w: World<S>, c: Chk<S>, es: seq<Event<S>>)
    decreases |es|
  {
    es == [] ||
    (RightRun(w, c.guest, es[0].b, es[0].n) && OwnStart(w, c.guest, es[0].b, es[0].n) && SameBlock(c, es[0].b) &&
     Lawful(w, es[0].after, es[1..]))
  }

  /** Over a whole run no mismatch is reported, and whenever the shadow is not deferred it equals the guest. */
  lemma {:induction false} NeverMismatched<S(!new)>(w: World<S>, c: Chk<S>, es: seq<Event<S>>, m: nat, i: nat)
    requires InStep(w, c, m) && Run(w, c, es) && Lawful(w, c, es) && i < |es|
    ensures es[i].v == Fine
    ensures !es[i].after.deferred ==> es[i].after.shadow == es[i].after.guest
    ensures exists k: nat :: InStep(w, es[i].after, k)
    decreases |es|
  {
    hide InStep, ChkStep, RightRun, OwnStart;
    var m' := StepInStep(w, c, es[0].b, es[0].n, es[0].after, es[0].v, m);
    if i > 0 {
      NeverMismatched(w, es[0].after, es[1..], m', i - 1);
      assert es[1..][i - 1] == es[i];
    }
  }

  // ---- exactly when the shadow is where the guest is

  /** The guest is m instructions ahead of the shadow on the native run; not at all unless the shadow is deferred. */
  ghost predicate Lags<S>(w: World<S>, c: Chk<S>, m: nat) {
    c.guest == Iter(w, c.shadow, m) && (!c.deferred ==> m == 0)
  }

  /** The native run does not come back to an earlier state within k instructions. */
  ghost predicate NoRepeat<S>(w: World<S>, s: S, k: nat) {
    forall i: nat, j: nat :: i < j <= k ==> Iter(w, s, i) != Iter(w, s, j)
  }

  /** Stepping out of the bounds ends in the state reached after n instructions exactly when the run leaves there for the first time. */
  lemma LeavesExact<S>(w: World<S>, s: S, lo: nat, hi: nat, k: nat, n: nat)
    requires Leaves(w, s, lo, hi, k) && NoRepeat(w, s, n)
    ensures Iter(w, s, k) == Iter(w, s, n) <==> Leaves(w, s, lo, hi, n)
  {
    if Leaves(w, s, lo, hi, n) {
      LeavesOnce(w, s, lo, hi, k, n);
    }
  }

  /** The bounds that the shadow is stepped through when the guest is found outside its superblock. */
  function Lo<S>(c: Chk<S>, b: Block): nat {
    if c.deferred then c.lo else b.addr
  }

  function Hi<S>(c: Chk<S>, b: Block): nat {
    if c.deferred then c.hi else b.end
  }

  /**
   When the guest is outside its superblock, the shadow catches up with it exactly when the
   native run leaves the recorded bounds for the first time where the guest is. A mismatch is
   reported exactly when it does not, unless the superblock ends in a system call right away.
   */
  lemma CatchUpExact<S(!new)>(w: World<S>, c: Chk<S>, b: Block, n: nat, c': Chk<S>, v: Verdict, m: nat)
    requires Lags(w, c, m) && NoRepeat(w, c.shadow, m + n) && ChkStep(w, c, b, n, c', v)
    requires !InBounds(w.pc(Iter(w, c.guest, n)), b.addr, b.end)
    ensures c'.guest == Iter(w, c.shadow, m + n) && !c'.deferred
    ensures c'.shadow == c'.guest <==> Leaves(w, c.shadow, Lo(c, b), Hi(c, b), m + n)
    ensures v == Fine <==> Leaves(w, c.shadow, Lo(c, b), Hi(c, b), m + n) || (!c.deferred && b.syscall)
  {
    IterAdd(w, c.shadow, m, n);
    if c.deferred {
      var k: nat :| Leaves(w, c.shadow, c.lo, c.hi, k) &&
        c' == Chk(Iter(w, c.guest, n), Iter(w, c.shadow, k), false, 0, 0, c.hitSyscall);
      LeavesExact(w, c.shadow, c.lo, c.hi, k, m + n);
    } else {
      var k: nat :| Leaves(w, c.shadow, b.addr, b.end, k) &&
        c' == c.(guest := Iter(w, c.guest, n), shadow := Iter(w, c.shadow, k), hitSyscall := c.hitSyscall || b.syscall);
      LeavesExact(w, c.shadow, b.addr, b.end, k, m + n);
    }
  }

  function Total<S>(es: seq<Event<S>>): nat {
    if es == [] then 0 else es[0].n + Total(es[1..])
  }

  /**
   What the native run from s has to do: whenever a superblock is left, it leaves the bounds
   recorded when the shadow fell behind, and for the first time since then. m is how far the
   guest is ahead.
   */
  ghost predicate LeavesInTime<S>(w: World<S>, s: S, deferred: bool, lo: nat, hi: nat, m: nat, es: seq<Event<S>>)
    decreases |es|
  {
    es == [] ||
    var b, n := es[0].b, m + es[0].n;
    var l, h := if deferred then lo else b.addr, if deferred then hi else b.end;
    if InBounds(w.pc(Iter(w, s, n)), b.addr, b.end) then LeavesInTime(w, s, true, l, h, n, es[1..])
    else Leaves(w, s, l, h, n) && LeavesInTime(w, Iter(w, s, n), false, 0, 0, 0, es[1..])
  }

  /** Nothing is reported, and at the end the shadow is deferred or equal to the guest. */
  predicate AllFine<S(==)>(es: seq<Event<S>>) {
    (forall i :: 0 <= i < |es| ==> es[i].v == Fine) &&
    (es != [] ==> es[|es| - 1].after.deferred || es[|es| - 1].after.shadow == es[|es| - 1].after.guest)
  }

  lemma AllFineRest<S>(es: seq<Event<S>>)
    requires es != []
    ensures AllFine(es) <==>
            es[0].v == Fine && AllFine(es[1..]) &&
            (es[1..] == [] ==> es[0].after.deferred || es[0].after.shadow == es[0].after.guest)
  {
    var r := es[1..];
    if es[0].v == Fine && AllFine(r) {
      forall i | 0 <= i < |es| ensures es[i].v == Fine {
        if i > 0 {
          assert r[i - 1] == es[i];
        }
      }
    }
    if AllFine(es) {
      forall i | 0 <= i < |r| ensures r[i].v == Fine {
        assert r[i] == es[i + 1];
      }
    }
  }

  lemma NoRepeatRest<S>(w: World<S>, s: S, k: nat, n: nat)
    requires NoRepeat(w, s, k + n)
    ensures NoRepeat(w, s, k) && NoRepeat(w, Iter(w, s, k), n)
  {
    forall i: nat, j: nat | i < j <= n ensures Iter(w, Iter(w, s, k), i) != Iter(w, Iter(w, s, k), j) {
      IterAdd(w, s, k, i);
      IterAdd(w, s, k, j);
      assert k + i < k + j <= k + n;
    }
  }

  /** A shadow that is out of step without being deferred is reported at once. */
  lemma OutOfStep<S(!new)>(w: World<S>, c: Chk<S>, es: seq<Event<S>>)
    requires es != [] && Run(w, c, es) && !c.deferred && c.shadow != c.guest
    ensures !AllFine(es)
  {
    assert es[0].v == MismatchBefore;
  }

  lemma StillInside<S(!new)>(w: World<S>, c: Chk<S>, b: Block, n: nat, c': Chk<S>, v: Verdict, m: nat)
    requires Lags(w, c, m) && ChkStep(w, c, b, n, c', v) && InBounds(w.pc(Iter(w, c.guest, n)), b.addr, b.end)
    ensures v == Fine && Lags(w, c', m + n) && c'.shadow == c.shadow && c'.deferred && c'.lo == Lo(c, b) && c'.hi == Hi(c, b)
    ensures Iter(w, c.shadow, m + n) == c'.guest
  {
    IterAdd(w, c.shadow, m, n);
  }

  /** A whole run of a right translation passes exactly when the native run leaves all bounds in time. */
  lemma {:induction false} RunExact<S(!new)>(w: World<S>, c: Chk<S>, es: seq<Event<S>>, m: nat)
    requires Lags(w, c, m) && Run(w, c, es) && NoRepeat(w, c.shadow, m + Total(es))
    ensures AllFine(es) <==> LeavesInTime(w, c.shadow, c.deferred, c.lo, c.hi, m, es)
    decreases |es|
  {
    hide ChkStep, Leaves, NoRepeat, AllFine;
    if es == [] {
      EmptyFine<S>(es);
    } else {
      var e, rest := es[0], es[1..];
      AllFineRest(es);
      IterAdd(w, c.shadow, m, e.n);
      NoRepeatRest(w, c.shadow, m + e.n, Total(rest));
      if InBounds(w.pc(Iter(w, c.guest, e.n)), e.b.addr, e.b.end) {
        StillInside(w, c, e.b, e.n, e.after, e.v, m);
        RunExact(w, e.after, rest, m + e.n);
      } else {
        CatchUpExact(w, c, e.b, e.n, e.after, e.v, m);
        if e.after.shadow == e.after.guest {
          RunExact(w, e.after, rest, 0);
          BoundsForgotten(w, e.after, rest);
        } else if rest != [] {
          OutOfStep(w, e.after, rest);
        }
      }
    }
  }

  lemma EmptyFine<S>(es: seq<Event<S>>)
    requires es == []
    ensures AllFine(es)
  {
  }

  /** Bounds play no part while the shadow is not deferred. */
  lemma BoundsForgotten<S>(w: World<S>, c: Chk<S>, es: seq<Event<S>>)
    requires !c.deferred
    ensures LeavesInTime(w, c.shadow, false, c.lo, c.hi, 0, es) == LeavesInTime(w, c.shadow, false, 0, 0, 0, es)
  {
  }

  // ---- where the checker stops short

  /** The program asserts this before it handles a system call. */
  predicate SysCallAllowed<S>(c: Chk<S>) {
    c.hitSyscall && !c.deferred
  }

  /** A system call that ends a superblock is only accepted if the shadow was not deferred. */
  lemma SysCallExact<S(!new)>(w: World<S>, c: Chk<S>, b: Block, n: nat, c': Chk<S>, v: Verdict)
    requires ChkStep(w, c, b, n, c', v) && v == Fine && b.syscall && !InBounds(w.pc(Iter(w, c.guest, n)), b.addr, b.end)
    ensures SysCallAllowed(c') <==> !c.deferred || c.hitSyscall
  {
  }

  /** The superblock ends in a system call and is left at once, by a guest that the shadow agreed with. */
  predicate MarksSysCall<S(==)>(w: World<S>, c: Chk<S>, b: Block, n: nat) {
    b.syscall && !c.deferred && c.shadow == c.guest && !InBounds(w.pc(Iter(w, c.guest, n)), b.addr, b.end)
  }

  ghost predicate SomeMarks<S>(w: World<S>, c: Chk<S>, es: seq<Event<S>>)
    decreases |es|
  {
    es != [] && (MarksSysCall(w, c, es[0].b, es[0].n) || SomeMarks(w, es[0].after, es[1..]))
  }

  /** The flag is raised by such superblocks and by nothing else, and once raised it stays up. */
  lemma {:induction false} HitSyscallExact<S(!new)>(w: World<S>, c: Chk<S>, es: seq<Event<S>>)
    requires Run(w, c, es)
    ensures (if es == [] then c else es[|es| - 1].after).hitSyscall <==> c.hitSyscall || SomeMarks(w, c, es)
    decreases |es|
  {
    if es != [] {
      hide Iter, InBounds, Leaves;
      HitSyscallExact(w, es[0].after, es[1..]);
    }
  }

  /** A machine whose states are moments, with the program counter running 0 1 2 1 2 3 4 9. */
  function Clock(): World<int> {
    World((t: int) => t + 1, (t: int) => ClockPc(t))
  }

  function ClockPc(t: int): nat {
    if t < 0 then 0 else if t < 3 then t else if t < 5 then t - 2 else if t == 5 then 3 else if t == 6 then 4 else 9
  }

  lemma {:induction false} ClockIter(t: int, n: nat)
    ensures Iter(Clock(), t, n) == t + n
    decreases n
  {
    if n > 0 {
      ClockIter(t + 1, n - 1);
    }
  }

  /**
   A superblock at 0..3 that exits to 1 rather than to its start hands over to another one,
   at 1..5. The shadow is then stepped out of the first bounds, which is too early, and a
   right translation is reported as wrong.
   */
  lemma ForeignReentryMismatches()
    ensures
      var w := Clock();
      var a, b := Block(0, 3, false), Block(1, 5, false);
      var c0: Chk<int> := Chk(0, 0, false, 0, 0, false);
      var c1: Chk<int> := Chk(3, 0, true, 0, 3, false);
      var c2: Chk<int> := Chk(7, 5, false, 0, 0, false);
      && RightRun(w, c0.guest, a, 3) && !OwnStart(w, c0.guest, a, 3) && ChkStep(w, c0, a, 3, c1, Fine)
      && RightRun(w, c1.guest, b, 4) && ChkStep(w, c1, b, 4, c2, MismatchAfter)
  {
    var w := Clock();
    forall t: int, n: nat ensures Iter(w, t, n) == t + n {
      ClockIter(t, n);
    }
    assert Leaves(w, 0, 0, 3, 5) by {
      assert Iter(w, 0, 5) == 5;
    }
    var g := Iter(w, 3, 4);
    assert g == 7 && w.pc(7) == 9;
  }

  // ---- the checker as the program runs it

  class VexExecChk<S(==, !new)> {
    const w: World<S>
    var guest: S
    var shadow: S
    var isDeferred: bool
    var hitSyscall: bool
    var deferredBoundStart: nat
    var deferredBoundEnd: nat

    ghost function State(): Chk<S>
      reads this
    {
      Chk(guest, shadow, isDeferred, deferredBoundStart, deferredBoundEnd, hitSyscall)
    }

    constructor (w: World<S>, s: S)
      ensures this.w == w && State() == Chk(s, s, false, 0, 0, false)
    {
      this.w, guest, shadow := w, s, s;
      isDeferred, hitSyscall, deferredBoundStart, deferredBoundEnd := false, false, 0, 0;
    }

    /** Single steps until the program counter is out of bounds, which it is after k steps. */
    method StepThroughBounds(lo: nat, hi: nat, ghost k: nat)
      requires Leaves(w, shadow, lo, hi, k)
      modifies this`shadow
      ensures shadow == Iter(w, old(shadow), k)
    {
      ghost var i := 0;
      while InBounds(w.pc(shadow), lo, hi)
        invariant i <= k && shadow == Iter(w, old(shadow), i)
        decreases k - i
      {
        IterAdd(w, old(shadow), i, 1);
        shadow := w.step(shadow);
        i := i + 1;
      }
      assert i == k;
    }

    /** Runs the superblock for n instructions and lets the shadow follow; k says when it gets out. */
    method DoVexSB(b: Block, n: nat, ghost k: nat) returns (v: Verdict)
      requires
        var g := Iter(w, guest, n);
        !InBounds(w.pc(g), b.addr, b.end) && (isDeferred || shadow == guest) ==>
          Leaves(w, shadow, if isDeferred then deferredBoundStart else b.addr, if isDeferred then deferredBoundEnd else b.end, k)
      modifies this
      ensures ChkStep(w, old(State()), b, n, State(), v)
    {
      if !isDeferred && shadow != guest {
        return MismatchBefore;
      }
      guest := Iter(w, guest, n);
      var newIpInBounds := InBounds(w.pc(guest), b.addr, b.end);
      v := Fine;
      if isDeferred && newIpInBounds {
        return;
      } else if !isDeferred && !newIpInBounds {
        StepThroughBounds(b.addr, b.end, k);
        if b.syscall {
          hitSyscall := true;
          return;
        }
      } else if isDeferred {
        StepThroughBounds(deferredBoundStart, deferredBoundEnd, k);
        isDeferred, deferredBoundStart, deferredBoundEnd := false, 0, 0;
      } else {
        isDeferred, deferredBoundStart, deferredBoundEnd := true, b.addr, b.end;
        return;
      }
      v := if guest == shadow then Fine else MismatchAfter;
    }
  }
}
