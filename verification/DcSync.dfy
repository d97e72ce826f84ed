/** The distributed-clock synchronisation of the EtherCAT work loop: the conversion of the
    gains to fixed point, the PI controller whose integral term never resets, and the
    accumulation of wake-up times that the controller steers. */
module DcSync {
  import opened Arithmetic

  const INT64_MAX := 0x7fff_ffff_ffff_ffff
  const SCALE := 32768
  const KP := 1638
  const KI := 327

  // ---------------------------------------------------------------- fixed-point gains

  /** The branch that tests 81928 shadows the two below it, so from 8192 on the value needs
      more than 15 bits, and from 81928 on nothing is written at all. */
  method DoubleToFixed(f: real, value0: int, base0: int) returns (value: int, base: int)
    ensures f < 1.0 ==> base == 15
    ensures 1.0 <= f < 8192.0 ==> 2 <= base <= 14 && 16384 <= value < 32768
    ensures 8192.0 <= f < 81928.0 ==> base == 2 && 32768 <= value < 327712
    ensures f < 81928.0 ==> base >= 0 && value == Trunc(Pow2(base) as real * f)
    ensures f >= 81928.0 ==> value == value0 && base == base0
  {
    Powers();
    hide Pow2, Trunc;
    ghost var x := f;
    value, base := value0, base0;
    if f < 1.0 {
      base, value, x := 15, Trunc(32768.0 * f), 32768.0 * f;
    } else if f < 2.0 {
      base, value, x := 14, Trunc(16384.0 * f), 16384.0 * f;
    } else if f < 4.0 {
      base, value, x := 13, Trunc(8192.0 * f), 8192.0 * f;
    } else if f < 8.0 {
      base, value, x := 12, Trunc(4096.0 * f), 4096.0 * f;
    } else if f < 16.0 {
      base, value, x := 11, Trunc(2048.0 * f), 2048.0 * f;
    } else if f < 32.0 {
      base, value, x := 10, Trunc(1024.0 * f), 1024.0 * f;
    } else if f < 64.0 {
      base, value, x := 9, Trunc(512.0 * f), 512.0 * f;
    } else if f < 128.0 {
      base, value, x := 8, Trunc(256.0 * f), 256.0 * f;
    } else if f < 256.0 {
      base, value, x := 7, Trunc(128.0 * f), 128.0 * f;
    } else if f < 512.0 {
      base, value, x := 6, Trunc(64.0 * f), 64.0 * f;
    } else if f < 1024.0 {
      base, value, x := 5, Trunc(32.0 * f), 32.0 * f;
    } else if f < 2048.0 {
      base, value, x := 4, Trunc(16.0 * f), 16.0 * f;
    } else if f < 4096.0 {
      base, value, x := 3, Trunc(8.0 * f), 8.0 * f;
    } else if f < 81928.0 {
      base, value, x := 2, Trunc(4.0 * f), 4.0 * f;
    } else if f < 16384.0 {
      base, value, x := 1, Trunc(2.0 * f), 2.0 * f;
    } else if f < 32768.0 {
      base, value, x := 0, Trunc(1.0 * f), 1.0 * f;
    }
    TruncBounds(x);
  }

  lemma TruncBounds(x: real)
    ensures x >= 0.0 ==> Trunc(x) as real <= x < Trunc(x) as real + 1.0
  {
  }

  lemma Powers()
    ensures Pow2(2) == 4 && Pow2(3) == 8 && Pow2(4) == 16 && Pow2(5) == 32 && Pow2(6) == 64
    ensures Pow2(7) == 128 && Pow2(8) == 256 && Pow2(9) == 512 && Pow2(10) == 1024
    ensures Pow2(11) == 2048 && Pow2(12) == 4096 && Pow2(13) == 8192 && Pow2(14) == 16384
    ensures Pow2(15) == 32768
  {
  }

  // ---------------------------------------------------------------- phase error

  function PhaseError(refTime: int, cycle: int, shift: int): int
    requires cycle > 0
  {
    var e := Rem(refTime - shift, cycle);
    if e > cycle / 2 then e - cycle else e
  }

  ghost predicate Congruent(a: int, b: int, m: int) {
    exists k: int :: a == b + m * k
  }

  lemma RemCongruent(a: int, b: int)
    requires b > 0
    ensures Congruent(a, Rem(a, b), b) && -b < Rem(a, b) < b
    ensures a >= 0 ==> Rem(a, b) >= 0
    ensures a < 0 ==> Rem(a, b) <= 0
  {
    if a >= 0 {
      assert a == Rem(a, b) + b * (a / b);
    } else {
      assert a == Rem(a, b) + b * -((-a) / b);
    }
  }

  /** The error is the phase modulo the cycle. It is the representative nearest to zero
      whenever the reference is not before the shift, and for earlier references exactly
      when they are at most half a cycle before a clock edge: the source folds only one way. */
  lemma PhaseErrorNearest(refTime: int, cycle: int, shift: int)
    requires cycle > 0
    ensures var e := PhaseError(refTime, cycle, shift);
            && Congruent(refTime - shift, e, cycle)
            && -cycle < e <= cycle / 2
            && (-cycle <= 2 * e <= cycle <==> refTime >= shift || 2 * ((shift - refTime) % cycle) <= cycle)
  {
    var a := refTime - shift;
    var e := Rem(a, cycle);
    RemCongruent(a, cycle);
    if e > cycle / 2 {
      var k :| a == e + cycle * k;
      assert a == (e - cycle) + cycle * (k + 1);
    }
  }

  lemma NearestUnique(a: int, e: int, e': int, cycle: int)
    requires cycle > 0 && Congruent(a, e, cycle) && Congruent(a, e', cycle)
    requires -cycle < 2 * e <= cycle && -cycle < 2 * e' <= cycle
    ensures e == e'
  {
    var k :| a == e + cycle * k;
    var k' :| a == e' + cycle * k';
    var j := k' - k;
    assert e - e' == cycle * j;
    assert j >= 1 ==> cycle * j >= cycle;
    assert j <= -1 ==> cycle * j <= -cycle;
  }

  // A reference before the shift keeps an error of nearly a whole cycle.
  lemma EarlyReferenceNotFolded()
    ensures PhaseError(0, 1000000, 999999) == -999999
  {
  }

  // ---------------------------------------------------------------- the PI controller

  function Sum(es: seq<int>): int {
    if es == [] then 0 else Sum(es[..|es| - 1]) + es[|es| - 1]
  }

  // Integral term after the errors es, starting from i0.
  function ITerm(i0: int, es: seq<int>): int {
    i0 + KI * Sum(es)
  }

  // Controller output on the last of the errors es. Shifting right rounds down.
  function Adjust(i0: int, es: seq<int>): int
    requires es != []
  {
    -(es[|es| - 1] * KP / SCALE) - ITerm(i0, es) / SCALE
  }

  // SCALE times the exact proportional-integral law, sign reversed.
  function Law(i0: int, es: seq<int>): int
    requires es != []
  {
    KP * es[|es| - 1] + ITerm(i0, es)
  }

  function Drift(i0: int, es: seq<int>): int {
    if es == [] then 0 else Drift(i0, es[..|es| - 1]) + Adjust(i0, es)
  }

  function LawSum(i0: int, es: seq<int>): int {
    if es == [] then 0 else LawSum(i0, es[..|es| - 1]) + Law(i0, es)
  }

  /** Rounding never accumulates: at every step of every run the output exceeds the exact
      law by at least nothing and by less than two nanoseconds. */
  lemma AdjustFollowsLaw(i0: int, es: seq<int>)
    requires es != []
    ensures 0 <= SCALE * Adjust(i0, es) + Law(i0, es) < 2 * SCALE
  {
  }

  // The wake-up times drift from the nominal grid by the summed law, within 2 ns a cycle.
  lemma {:induction false} DriftFollowsLaw(i0: int, es: seq<int>)
    ensures 0 <= SCALE * Drift(i0, es) + LawSum(i0, es) <= (2 * SCALE - 1) * |es|
  {
    if es != [] {
      DriftFollowsLaw(i0, es[..|es| - 1]);
      AdjustFollowsLaw(i0, es);
    }
  }

  lemma SumOne(e: int)
    ensures Sum([e]) == e
  {
  }

  class PiController {
    var iTerm: int

    constructor ()
      ensures iTerm == 0
    {
      iTerm := 0;
    }

    method CalcDcPiSync(refTime: int, cycle: int, shift: int) returns (adjTime: int)
      requires cycle > 0
      modifies this
      ensures var e := PhaseError(refTime, cycle, shift);
              iTerm == ITerm(old(iTerm), [e]) && adjTime == Adjust(old(iTerm), [e])
    {
      SumOne(PhaseError(refTime, cycle, shift));
      var kp, kpBase := DoubleToFixed(0.05, 0, 0);
      var ki, kiBase := DoubleToFixed(0.01, 0, 0);
      Powers();
      assert kp == KP && ki == KI && Pow2(kpBase) == SCALE == Pow2(kiBase);

      var error := Rem(refTime - shift, cycle);
      if error > cycle / 2 {
        error := error - cycle;
      }
      var pTerm := error * kp;
      iTerm := iTerm + error * ki;
      adjTime := -(pTerm / Pow2(kpBase)) - iTerm / Pow2(kiBase);
    }
  }

  // ---------------------------------------------------------------- the work loop

  function ToInt32(x: int): int {
    (x + 0x8000_0000) % 0x1_0000_0000 - 0x8000_0000
  }

  function Shift(cycle: int): int {
    ToInt32(cycle / 2 - 20000)
  }

  function Errors(dcTimes: seq<int>, cycle: int): (es: seq<int>)
    requires cycle > 0
    ensures |es| == |dcTimes|
  {
    seq(|dcTimes|, i requires 0 <= i < |dcTimes| => PhaseError(dcTimes[i], cycle, Shift(cycle)))
  }

  lemma AppendError(i0: int, es: seq<int>, e: int)
    ensures ITerm(i0, es + [e]) == ITerm(ITerm(i0, es), [e])
    ensures Adjust(i0, es + [e]) == Adjust(ITerm(i0, es), [e])
    ensures Drift(i0, es + [e]) == Drift(i0, es) + Adjust(i0, es + [e])
  {
    var fs := es + [e];
    assert fs[..|fs| - 1] == es && fs[|fs| - 1] == e;
    SumOne(e);
  }

  // The k-th instant the loop sleeps until, counted from the aligned start.
  function WakeAt(i0: int, aligned: int, dcTimes: seq<int>, cycle: int, enableDc: bool, k: nat): int
    requires cycle > 0 && k <= |dcTimes|
  {
    aligned + (k + 1) * cycle + (if enableDc then Drift(i0, Errors(dcTimes[..k], cycle)) else 0)
  }

  lemma NextWake(i0: int, aligned: int, dcTimes: seq<int>, cycle: int, k: nat)
    requires cycle > 0 && k < |dcTimes|
    ensures var es, es' := Errors(dcTimes[..k], cycle), Errors(dcTimes[..k + 1], cycle);
            var e := PhaseError(dcTimes[k], cycle, Shift(cycle));
            && WakeAt(i0, aligned, dcTimes, cycle, true, k + 1)
               == WakeAt(i0, aligned, dcTimes, cycle, true, k) + cycle + Adjust(i0, es')
            && WakeAt(i0, aligned, dcTimes, cycle, false, k + 1)
               == WakeAt(i0, aligned, dcTimes, cycle, false, k) + cycle
            && ITerm(i0, es') == ITerm(ITerm(i0, es), [e])
            && Adjust(i0, es') == Adjust(ITerm(i0, es), [e])
  {
    hide Adjust, ITerm, Drift, PhaseError;
    var es, e := Errors(dcTimes[..k], cycle), PhaseError(dcTimes[k], cycle, Shift(cycle));
    AppendError(i0, es, e);
    assert Errors(dcTimes[..k + 1], cycle) == es + [e];
    assert (k + 2) * cycle == (k + 1) * cycle + cycle;
  }

  // Where the loop's clock is moved before the first cycle.
  function AlignedStart(start: int, firstDc: nat, cycle: int): int
    requires cycle > 0
  {
    start + 10 * cycle - firstDc % cycle
  }

  /** One pass of the loop per DC time read. `wakes` are the instants slept until. The
      loop's own reference accumulator always equals the last DC time read, so the errors
      fed to the controller depend on that reading alone. */
  method WorkLoop(pi: PiController, start: int, firstDc: nat, dcTimes: seq<int>, cycle: int, enableDc: bool)
    returns (wakes: seq<int>, aligned: int)
    requires cycle > 0
    modifies pi
    ensures aligned == if enableDc then AlignedStart(start, firstDc, cycle) else start
    ensures pi.iTerm == if enableDc then ITerm(old(pi.iTerm), Errors(dcTimes, cycle)) else old(pi.iTerm)
    ensures |wakes| == |dcTimes|
    ensures forall k :: 0 <= k < |wakes| ==>
              wakes[k] == WakeAt(old(pi.iTerm), aligned, dcTimes, cycle, enableDc, k)
  {
    hide Adjust, PhaseError;
    var shift := ToInt32(cycle / 2 - 20000);
    var dcRef, lastDc, offset := 0, 0, 0;
    var now := start;
    if enableDc {
      now := now + (10 * cycle - firstDc % cycle);
    }
    aligned := now;
    wakes := [];
    ghost var i0 := pi.iTerm;
    assert 1 * cycle == cycle && Errors(dcTimes[..0], cycle) == [];
    for k := 0 to |dcTimes|
      invariant |wakes| == k && dcRef == lastDc
      invariant pi.iTerm == if enableDc then ITerm(i0, Errors(dcTimes[..k], cycle)) else i0
      invariant enableDc ==> now + cycle + offset == WakeAt(i0, aligned, dcTimes, cycle, true, k)
      invariant !enableDc ==> now + cycle == WakeAt(i0, aligned, dcTimes, cycle, false, k)
      invariant forall j :: 0 <= j < k ==> wakes[j] == WakeAt(i0, aligned, dcTimes, cycle, enableDc, j)
    {
      NextWake(i0, aligned, dcTimes, cycle, k);
      if enableDc {
        now := now + (cycle + offset);
        wakes := wakes + [now];
        dcRef := dcRef + (dcTimes[k] - lastDc);
        lastDc := dcTimes[k];
        offset := pi.CalcDcPiSync(dcRef, cycle, shift);
      } else {
        now := now + cycle;
        wakes := wakes + [now];
      }
    }
    assert dcTimes[..|dcTimes|] == dcTimes;
  }

  /** The work loop's aligned start, with clocks enabled, is more than nine and at most ten
      cycles ahead. If the distributed clock showed `firstDc` at `lag` after the loop read its own
      clock, it falls on an edge of the distributed clock exactly when the lag is a whole
      number of cycles; read at the same instant, it does. */
  lemma AlignedToClockEdge(start: int, firstDc: nat, cycle: int, lag: int)
    requires cycle > 0
    ensures var aligned := AlignedStart(start, firstDc, cycle);
            && 9 * cycle < aligned - start <= 10 * cycle
            && ((firstDc + (aligned - (start + lag))) % cycle == 0 <==> lag % cycle == 0)
  {
    var k, q, r := firstDc / cycle, lag / cycle, lag % cycle;
    var at := firstDc + (AlignedStart(start, firstDc, cycle) - (start + lag));
    assert firstDc == k * cycle + firstDc % cycle && lag == q * cycle + r;
    EdgesAhead(k, q, r, cycle);
    assert at == k * cycle + 10 * cycle - q * cycle - r;
    if r == 0 {
      Divides(at, k + 10 - q, 0, cycle);
    } else {
      Divides(at, k + 9 - q, cycle - r, cycle);
    }
  }

  lemma EdgesAhead(k: int, q: int, r: int, cycle: int)
    ensures (k + 10 - q) * cycle == k * cycle + 10 * cycle - q * cycle
    ensures (k + 9 - q) * cycle + (cycle - r) == k * cycle + 10 * cycle - q * cycle - r
  {
  }

  /** The controller aims 20 us before the middle of the cycle exactly while that moment fits a
      32-bit number: for cycles from zero up to about 4.29 s. */
  lemma ShiftExactly(cycle: int)
    requires cycle >= 0
    ensures 2 * (Shift(cycle) + 20_000) == cycle - cycle % 2 <==> cycle <= 4_294_967_295 + 40_000
  {
  }

  // ---------------------------------------------------------------- sixty-four bits

  function Wrap64(x: int): int {
    (x + 0x8000_0000_0000_0000) % 0x1_0000_0000_0000_0000 - 0x8000_0000_0000_0000
  }

  // The integral term as the machine keeps it, every operation wrapping.
  function MachineITerm(es: seq<int>): int {
    if es == [] then 0 else Wrap64(MachineITerm(es[..|es| - 1]) + Wrap64(es[|es| - 1] * KI))
  }

  function MachineAdjust(es: seq<int>): int
    requires es != []
  {
    Wrap64(Wrap64(-(Wrap64(es[|es| - 1] * KP) / SCALE)) - MachineITerm(es) / SCALE)
  }

  ghost predicate Centred(es: seq<int>, cycle: int) {
    forall i :: 0 <= i < |es| ==> -cycle <= 2 * es[i] <= cycle
  }

  lemma LateReferencesCentred(dcTimes: seq<int>, cycle: int)
    requires cycle > 0
    requires forall i :: 0 <= i < |dcTimes| ==> dcTimes[i] >= Shift(cycle)
    ensures Centred(Errors(dcTimes, cycle), cycle)
  {
  }

  lemma {:induction false} SumBound(es: seq<int>, half: int)
    requires half >= 0
    requires forall i :: 0 <= i < |es| ==> -half <= es[i] <= half
    ensures -half * |es| <= Sum(es) <= half * |es|
  {
    if es != [] {
      SumBound(es[..|es| - 1], half);
      assert half * |es| == half * (|es| - 1) + half;
    }
  }

  lemma {:induction false} MachineITermExact(es: seq<int>, half: int)
    requires half >= 0
    requires forall i :: 0 <= i < |es| ==> -half <= es[i] <= half
    requires KI * (half * |es|) <= INT64_MAX
    ensures MachineITerm(es) == ITerm(0, es)
  {
    hide Wrap64;
    if es != [] {
      var rest, e := es[..|es| - 1], es[|es| - 1];
      Monotone(half, |rest|, |es|);
      MachineITermExact(rest, half);
      SumBound(es, half);
      Monotone(half, 1, |es|);
      WrapExact(e * KI);
      WrapExact(KI * Sum(es));
      assert KI * Sum(es) == KI * Sum(rest) + e * KI;
    }
  }

  lemma WrapExact(x: int)
    requires -INT64_MAX - 1 <= x <= INT64_MAX
    ensures Wrap64(x) == x
  {
  }

  lemma Monotone(k: nat, a: nat, b: nat)
    requires a <= b
    ensures 0 <= k * a <= k * b
  {
  }

  /** For every run of at most n centred errors the machine's 64-bit controller computes
      the exact integers, provided n * 327 * (cycle / 2) stays representable; */
  lemma SafeStepCount(es: seq<int>, cycle: nat, n: nat)
    requires es != [] && |es| <= n && Centred(es, cycle)
    requires KP * (cycle / 2) <= INT64_MAX && KI * (cycle / 2 * n) <= INT64_MAX
    ensures MachineITerm(es) == ITerm(0, es) && MachineAdjust(es) == Adjust(0, es)
  {
    var half := cycle / 2;
    Monotone(half, |es|, n);
    MachineITermExact(es, half);
    SumBound(es, half);
    var e, i := es[|es| - 1], ITerm(0, es);
    hide Sum, MachineITerm, Wrap64;
    WrapExact(e * KP);
    WrapExact(-(e * KP / SCALE));
    WrapExact(-(e * KP / SCALE) - i / SCALE);
  }

  /** and the count is the best possible: one step more and the largest error, repeated,
      takes the integral term out of range. */
  lemma SafeStepCountTight(cycle: nat, n: nat)
    requires KI * (cycle / 2 * n) > INT64_MAX
    ensures var es := seq(n, _ => cycle / 2);
            Centred(es, cycle) && ITerm(0, es) > INT64_MAX && MachineITerm(es) != ITerm(0, es)
  {
    var es := seq(n, _ => cycle / 2);
    SumConstant(n, cycle / 2);
    assert n > 0;
    var x := MachineITerm(es[..|es| - 1]) + Wrap64(es[|es| - 1] * KI);
    assert Wrap64(x) <= INT64_MAX;
  }

  lemma {:induction false} SumConstant(n: nat, e: int)
    ensures Sum(seq(n, _ => e)) == e * n
  {
    if n > 0 {
      SumConstant(n - 1, e);
      assert seq(n, _ => e)[..n - 1] == seq(n - 1, _ => e);
      assert e * n == e * (n - 1) + e;
    }
  }

  // ---------------------------------------------------------------- the whole loop in 64 bits

  predicate Int64(x: int) {
    -INT64_MAX - 1 <= x <= INT64_MAX
  }

  function LastOr(dcTimes: seq<int>, other: int): int {
    if dcTimes == [] then other else dcTimes[|dcTimes| - 1]
  }

  // The reference as the machine accumulates it, one difference of readings at a time.
  function MachineRef(dcTimes: seq<int>): int {
    if dcTimes == [] then 0
    else
      var rest := dcTimes[..|dcTimes| - 1];
      Wrap64(MachineRef(rest) + Wrap64(dcTimes[|dcTimes| - 1] - LastOr(rest, 0)))
  }

  function MachineError(refTime: int, cycle: int, shift: int): int
    requires cycle > 0
  {
    var e := Rem(Wrap64(refTime - shift), cycle);
    if e > cycle / 2 then Wrap64(e - cycle) else e
  }

  function MachineErrors(dcTimes: seq<int>, cycle: int): (es: seq<int>)
    requires cycle > 0
    ensures |es| == |dcTimes|
  {
    seq(|dcTimes|, i requires 0 <= i < |dcTimes| =>
      MachineError(MachineRef(dcTimes[..i + 1]), cycle, Shift(cycle)))
  }

  // A wrapped difference, added back, is undone.
  lemma WrapUndoes(a: int, b: int)
    requires Int64(a) && Int64(b)
    ensures Wrap64(a + Wrap64(b - a)) == b
  {
  }

  lemma {:induction false} MachineRefExact(dcTimes: seq<int>)
    requires forall i :: 0 <= i < |dcTimes| ==> Int64(dcTimes[i])
    ensures MachineRef(dcTimes) == LastOr(dcTimes, 0)
  {
    if dcTimes != [] {
      var rest := dcTimes[..|dcTimes| - 1];
      MachineRefExact(rest);
      WrapUndoes(LastOr(rest, 0), dcTimes[|dcTimes| - 1]);
    }
  }

  lemma MachineErrorExact(refTime: int, cycle: int, shift: int)
    requires 0 < cycle <= INT64_MAX && Int64(refTime - shift)
    ensures MachineError(refTime, cycle, shift) == PhaseError(refTime, cycle, shift)
  {
    hide Wrap64;
    WrapExact(refTime - shift);
    RemCongruent(refTime - shift, cycle);
    var e := Rem(refTime - shift, cycle);
    if e > cycle / 2 {
      WrapExact(e - cycle);
    }
  }

  /** From the clock readings on: while each is a 64-bit number past the shift, and its distance
      from the shift is one too, everything the loop computes in wrapping 64-bit arithmetic, the
      accumulated reference and the phase subtraction included, is exact for n steps. */
  lemma SafeRun(dcTimes: seq<int>, cycle: int, n: nat)
    requires 0 < cycle <= INT64_MAX && dcTimes != [] && |dcTimes| <= n
    requires forall i :: 0 <= i < |dcTimes| ==>
               Int64(dcTimes[i]) && 0 <= dcTimes[i] - Shift(cycle) <= INT64_MAX
    requires KP * (cycle / 2) <= INT64_MAX && KI * (cycle / 2 * n) <= INT64_MAX
    ensures var es := MachineErrors(dcTimes, cycle);
            && es == Errors(dcTimes, cycle)
            && MachineITerm(es) == ITerm(0, Errors(dcTimes, cycle))
            && MachineAdjust(es) == Adjust(0, Errors(dcTimes, cycle))
  {
    hide Wrap64, MachineITerm, MachineAdjust, Adjust, ITerm, Rem;
    forall i | 0 <= i < |dcTimes|
      ensures MachineErrors(dcTimes, cycle)[i] == Errors(dcTimes, cycle)[i]
    {
      MachineRefExact(dcTimes[..i + 1]);
      MachineErrorExact(dcTimes[i], cycle, Shift(cycle));
    }
    LateReferencesCentred(dcTimes, cycle);
    SafeStepCount(Errors(dcTimes, cycle), cycle, n);
  }
}
