/** The joystick's velocity limiter: a box-constrained quadratic programme whose answer is
    integrated into the published state, and the axis values that feed it. */
module VelLimiter {
  import opened Arithmetic

  type Vec = seq<real>

  // ---------------------------------------------------------------- the programme

  // Cost of the rate x at one coordinate that is off its target by d = target - state.
  function Cost1(dt: real, d: real, x: real): real {
    0.5 * Sq(dt) * Sq(x) + (-d * dt) * x
  }

  // x' H x / 2 + g' x with H = dt^2 I and g = (state - target) dt.
  function Cost(dt: real, d: Vec, x: Vec): real
    requires |d| == |x|
  {
    if d == [] then 0.0 else Cost1(dt, d[0], x[0]) + Cost(dt, d[1..], x[1..])
  }

  ghost predicate Feasible(lb: Vec, ub: Vec, x: Vec) {
    |x| == |lb| == |ub| && forall i :: 0 <= i < |x| ==> lb[i] <= x[i] <= ub[i]
  }

  // What the solver promises: a feasible point that no feasible point beats.
  ghost predicate IsMinimiser(dt: real, d: Vec, lb: Vec, ub: Vec, x: Vec)
    requires |d| == |lb|
  {
    Feasible(lb, ub, x) && forall y :: Feasible(lb, ub, y) ==> Cost(dt, d, x) <= Cost(dt, d, y)
  }

  function Clamp(lo: real, hi: real, x: real): real {
    if x < lo then lo else if x > hi then hi else x
  }

  function BestRate(dt: real, d: Vec, lb: Vec, ub: Vec): (x: Vec)
    requires dt != 0.0 && |d| == |lb| == |ub|
    ensures |x| == |d|
  {
    seq(|d|, i requires 0 <= i < |d| => Clamp(lb[i], ub[i], d[i] / dt))
  }

  ghost predicate Box(lb: Vec, ub: Vec) {
    |lb| == |ub| && forall i :: 0 <= i < |lb| ==> lb[i] <= ub[i]
  }

  function Dist(x: Vec, y: Vec): real
    requires |x| == |y|
  {
    if x == [] then 0.0 else Sq(x[0] - y[0]) + Dist(x[1..], y[1..])
  }

  // Moving away from the clamped optimum costs at least half of dt^2 times the squared move.
  lemma GrowthAt(dt: real, d: real, lo: real, hi: real, x: real)
    requires dt != 0.0 && lo <= x <= hi
    ensures var c := Clamp(lo, hi, d / dt);
            Cost1(dt, d, x) - Cost1(dt, d, c) >= 0.5 * Sq(dt) * Sq(x - c)
  {
  }

  lemma {:induction false} Growth(dt: real, d: Vec, lb: Vec, ub: Vec, x: Vec)
    requires dt != 0.0 && |d| == |lb| && Feasible(lb, ub, x)
    ensures Cost(dt, d, x) - Cost(dt, d, BestRate(dt, d, lb, ub))
         >= 0.5 * Sq(dt) * Dist(x, BestRate(dt, d, lb, ub))
  {
    hide Sq, Cost1, Clamp;
    if d != [] {
      var c := BestRate(dt, d, lb, ub);
      GrowthAt(dt, d[0], lb[0], ub[0], x[0]);
      Growth(dt, d[1..], lb[1..], ub[1..], x[1..]);
      assert c[1..] == BestRate(dt, d[1..], lb[1..], ub[1..]);
      Distribute(0.5 * Sq(dt), Sq(x[0] - c[0]), Dist(x[1..], c[1..]));
    }
  }

  lemma {:induction false} DistZero(x: Vec, y: Vec)
    requires |x| == |y|
    ensures Dist(x, y) >= 0.0
    ensures Dist(x, y) == 0.0 ==> x == y
  {
    hide Sq;
    if x != [] {
      DistZero(x[1..], y[1..]);
      SquareNonNegative(x[0] - y[0]);
      assert x == [x[0]] + x[1..] && y == [y[0]] + y[1..];
    }
  }

  /** The programme has exactly one minimiser: the coordinatewise clamp of the rate that
      would reach the target in one period. */
  lemma MinimiserIsClamp(dt: real, d: Vec, lb: Vec, ub: Vec, x: Vec)
    requires dt != 0.0 && Box(lb, ub) && |d| == |lb|
    ensures IsMinimiser(dt, d, lb, ub, x) <==> x == BestRate(dt, d, lb, ub)
  {
    hide Sq;
    var c := BestRate(dt, d, lb, ub);
    var h := 0.5 * Sq(dt);
    SquareNonNegative(dt);
    forall y | Feasible(lb, ub, y)
      ensures Cost(dt, d, c) + h * Dist(y, c) <= Cost(dt, d, y) && h * Dist(y, c) >= 0.0
    {
      Growth(dt, d, lb, ub, y);
      DistZero(y, c);
      MulNonNegative(h, Dist(y, c));
    }
    assert Feasible(lb, ub, c);
    if IsMinimiser(dt, d, lb, ub, x) {
      DistZero(x, c);
      ZeroFactor(h, Dist(x, c));
    }
  }

  // ---------------------------------------------------------------- the limiter

  // One update of one coordinate: s moves for one period at the clamped rate.
  function Move1(dt: real, lo: real, hi: real, s: real, t: real): real
    requires dt != 0.0
  {
    s + Clamp(lo, hi, (t - s) / dt) * dt
  }

  function Minus(t: Vec, s: Vec): (d: Vec)
    requires |t| == |s|
    ensures |d| == |s|
  {
    seq(|s|, i requires 0 <= i < |s| => t[i] - s[i])
  }

  function Move(dt: real, lb: Vec, ub: Vec, s: Vec, t: Vec): (s': Vec)
    requires dt != 0.0 && |s| == |t| == |lb| == |ub|
    ensures |s'| == |s|
  {
    seq(|s|, i requires 0 <= i < |s| => Move1(dt, lb[i], ub[i], s[i], t[i]))
  }

  function Fill(n: nat, x: real): (v: Vec)
    ensures |v| == n
  {
    seq(n, _ => x)
  }

  class JoyVelLimiter {
    const dim: nat
    const dt: real
    const lb: Vec
    const ub: Vec
    var state: Vec

    ghost predicate Valid()
      reads this
    {
      |state| == |lb| == |ub| == dim
    }

    constructor Uniform(dim: nat, dt: real, velLimit: real)
      ensures Valid() && this.dim == dim && this.dt == dt
      ensures lb == Fill(dim, -velLimit) && ub == Fill(dim, velLimit) && state == Fill(dim, 0.0)
    {
      this.dim, this.dt := dim, dt;
      lb, ub, state := Fill(dim, -velLimit), Fill(dim, velLimit), Fill(dim, 0.0);
    }

    constructor Boxed(dim: nat, dt: real, lb: Vec, ub: Vec)
      requires |lb| == dim && |ub| == dim
      ensures Valid() && this.dim == dim && this.dt == dt
      ensures this.lb == lb && this.ub == ub && state == Fill(dim, 0.0)
    {
      this.dim, this.dt, this.lb, this.ub := dim, dt, lb, ub;
      state := Fill(dim, 0.0);
    }

    // Bounds of the wrong size are refused.
    static method Create(dim: nat, dt: real, lb: Vec, ub: Vec) returns (limiter: JoyVelLimiter?)
      ensures limiter == null <==> |lb| != dim || |ub| != dim
      ensures limiter != null ==>
                fresh(limiter) && limiter.Valid() && limiter.dim == dim && limiter.dt == dt
                && limiter.lb == lb && limiter.ub == ub && limiter.state == Fill(dim, 0.0)
    {
      limiter := null;
      if |lb| == dim && |ub| == dim {
        limiter := new JoyVelLimiter.Boxed(dim, dt, lb, ub);
      }
    }

    method Reset()
      requires Valid()
      modifies this
      ensures Valid() && state == Fill(dim, 0.0)
    {
      state := Fill(dim, 0.0);
    }

    /** `xOpt` is what the solver returned, bound only by its contract. The caller passes a
        target with an entry for every axis of its device; only the first dim are looked at. */
    method Update(target: Vec, xOpt: Vec) returns (output: Vec)
      requires Valid() && |target| >= dim
      requires IsMinimiser(dt, Minus(target[..dim], state), lb, ub, xOpt)
      modifies this
      ensures Valid() && output == state
      ensures state == if dt != 0.0 then Move(dt, lb, ub, old(state), target[..dim]) else old(state)
    {
      var s0 := state;
      state := seq(|s0|, i requires 0 <= i < |s0| && |xOpt| == |s0| => s0[i] + xOpt[i] * dt);
      output := state;
      if dt != 0.0 {
        MinimiserIsClamp(dt, Minus(target[..dim], s0), lb, ub, xOpt);
        assert forall i :: 0 <= i < dim ==> xOpt[i] == Clamp(lb[i], ub[i], (target[i] - s0[i]) / dt);
        assert forall i :: 0 <= i < dim ==> state[i] == Move1(dt, lb[i], ub[i], s0[i], target[i]);
      } else {
        assert state == s0;
      }
    }
  }

  // ---------------------------------------------------------------- over many updates

  ghost predicate Between(a: real, b: real, x: real) {
    a <= x <= b || b <= x <= a
  }

  // The same step without the division: at most dt * hi up, at most dt * lo down.
  lemma MoveByAtMost(dt: real, lo: real, hi: real, s: real, t: real)
    requires dt > 0.0 && lo <= hi
    ensures Move1(dt, lo, hi, s, t) == s + Clamp(lo * dt, hi * dt, t - s)
    ensures lo * dt <= Move1(dt, lo, hi, s, t) - s <= hi * dt
  {
  }

  ghost predicate NeverOvershoots(dt: real, lo: real, hi: real)
    requires dt > 0.0
  {
    forall s, t :: Between(s, t, Move1(dt, lo, hi, s, t))
  }

  /** The limiter goes towards its target without passing it exactly when zero is an
      admissible rate, which neither constructor checks. */
  lemma OvershootCondition(dt: real, lo: real, hi: real)
    requires dt > 0.0 && lo <= hi
    ensures NeverOvershoots(dt, lo, hi) <==> lo <= 0.0 <= hi
  {
    if lo <= 0.0 <= hi {
      forall s, t
        ensures Between(s, t, Move1(dt, lo, hi, s, t))
      {
        MoveByAtMost(dt, lo, hi, s, t);
        SignOfBounds(dt, lo, hi);
      }
    } else {
      MoveByAtMost(dt, lo, hi, 0.0, 0.0);
      if lo > 0.0 {
        MulPositive(lo, dt);
      } else {
        MulPositive(-hi, dt);
      }
      assert !Between(0.0, 0.0, Move1(dt, lo, hi, 0.0, 0.0));
    }
  }

  lemma SignOfBounds(dt: real, lo: real, hi: real)
    requires dt > 0.0 && lo <= 0.0 <= hi
    ensures lo * dt <= 0.0 <= hi * dt
  {
  }

  // n updates towards a target that does not move.
  function MoveN(dt: real, lo: real, hi: real, s: real, t: real, n: nat): real
    requires dt != 0.0
    decreases n
  {
    if n == 0 then s else MoveN(dt, lo, hi, Move1(dt, lo, hi, s, t), t, n - 1)
  }

  // The same with the travel of one period given as bounds.
  function StepTo(down: real, up: real, s: real, t: real, n: nat): real
    decreases n
  {
    if n == 0 then s else StepTo(down, up, s + Clamp(down, up, t - s), t, n - 1)
  }

  lemma {:induction false} MoveIsStepTo(dt: real, lo: real, hi: real, s: real, t: real, n: nat)
    requires dt > 0.0 && lo <= hi
    ensures MoveN(dt, lo, hi, s, t, n) == StepTo(lo * dt, hi * dt, s, t, n)
    decreases n
  {
    if n > 0 {
      MoveByAtMost(dt, lo, hi, s, t);
      MoveIsStepTo(dt, lo, hi, Move1(dt, lo, hi, s, t), t, n - 1);
    }
  }

  lemma {:induction false} StepToUp(down: real, up: real, s: real, t: real, n: nat)
    requires down <= 0.0 <= up && s <= t
    ensures var far := s + (n as real) * up;
            StepTo(down, up, s, t, n) == if far < t then far else t
    decreases n
  {
    if n > 0 {
      OneMore(n, up);
      MulNonNegative((n - 1) as real, up);
      StepToUp(down, up, s + Clamp(down, up, t - s), t, n - 1);
    }
  }

  lemma {:induction false} StepToDown(down: real, up: real, s: real, t: real, n: nat)
    requires down <= 0.0 <= up && t <= s
    ensures var far := s + (n as real) * down;
            StepTo(down, up, s, t, n) == if far > t then far else t
    decreases n
  {
    if n > 0 {
      OneMore(n, down);
      NegateBound(n - 1, down);
      StepToDown(down, up, s + Clamp(down, up, t - s), t, n - 1);
    }
  }

  lemma StepToClamp(down: real, up: real, s: real, t: real, n: nat)
    requires down <= 0.0 <= up
    ensures StepTo(down, up, s, t, n) == s + Clamp((n as real) * down, (n as real) * up, t - s)
    ensures (n as real) * down <= 0.0 <= (n as real) * up
  {
    MulNonNegative(n as real, up);
    NegateBound(n, down);
    if s <= t {
      StepToUp(down, up, s, t, n);
    } else {
      StepToDown(down, up, s, t, n);
    }
  }

  lemma NegateBound(n: nat, down: real)
    requires down <= 0.0
    ensures (n as real) * down <= 0.0
  {
  }

  /** A coordinate has arrived at a constant target exactly when n periods at the bounding
      rate cover the distance; until then it has moved by just that much. */
  lemma Approach(dt: real, lo: real, hi: real, s: real, t: real, n: nat)
    requires dt > 0.0 && lo <= 0.0 <= hi
    ensures MoveN(dt, lo, hi, s, t, n) == t
            <==> (n as real) * (lo * dt) <= t - s <= (n as real) * (hi * dt)
    ensures MoveN(dt, lo, hi, s, t, n)
            == s + Clamp((n as real) * (lo * dt), (n as real) * (hi * dt), t - s)
  {
    hide MoveN, StepTo;
    SignOfBounds(dt, lo, hi);
    MoveIsStepTo(dt, lo, hi, s, t, n);
    StepToClamp(lo * dt, hi * dt, s, t, n);
  }

  lemma OneMore(n: nat, x: real)
    requires n > 0
    ensures (n as real) * x == x + ((n - 1) as real) * x
  {
  }

  ghost predicate Within(v: Vec, lo: real, hi: real) {
    forall i :: 0 <= i < |v| ==> lo <= v[i] <= hi
  }

  ghost predicate ZeroRateAllowed(lb: Vec, ub: Vec) {
    |lb| == |ub| && forall i :: 0 <= i < |lb| ==> lb[i] <= 0.0 <= ub[i]
  }

  function Follow(dt: real, lb: Vec, ub: Vec, s: Vec, targets: seq<Vec>): (s': Vec)
    requires dt != 0.0 && |s| == |lb| == |ub|
    requires forall k :: 0 <= k < |targets| ==> |targets[k]| == |s|
    ensures |s'| == |s|
    decreases |targets|
  {
    if targets == [] then s
    else Follow(dt, lb, ub, Move(dt, lb, ub, s, targets[0]), targets[1..])
  }

  /** Over any sequence of targets the state stays in every interval that holds its start
      and all targets seen. */
  lemma {:induction false} StaysInHull(dt: real, lb: Vec, ub: Vec, s: Vec, targets: seq<Vec>, lo: real, hi: real)
    requires dt > 0.0 && |s| == |lb| && ZeroRateAllowed(lb, ub)
    requires forall k :: 0 <= k < |targets| ==> |targets[k]| == |s| && Within(targets[k], lo, hi)
    requires Within(s, lo, hi)
    ensures Within(Follow(dt, lb, ub, s, targets), lo, hi)
    decreases |targets|
  {
    if targets != [] {
      var t := targets[0];
      var s' := Move(dt, lb, ub, s, t);
      forall i | 0 <= i < |s|
        ensures lo <= s'[i] <= hi
      {
        OvershootCondition(dt, lb[i], ub[i]);
        assert Between(s[i], t[i], Move1(dt, lb[i], ub[i], s[i], t[i]));
      }
      StaysInHull(dt, lb, ub, s', targets[1..], lo, hi);
    }
  }

  // ---------------------------------------------------------------- bounds on the output

  ghost predicate Sized(n: nat, targets: seq<Vec>) {
    forall k :: 0 <= k < |targets| ==> |targets[k]| == n
  }

  // Coordinate i of every run from rest stays at or below b while its targets are at most q.
  ghost predicate CappedBy(dt: real, lb: Vec, ub: Vec, i: nat, q: real, b: real)
    requires dt != 0.0 && |lb| == |ub| && i < |lb|
  {
    forall targets :: Sized(|lb|, targets) && (forall k :: 0 <= k < |targets| ==> targets[k][i] <= q) ==>
      Follow(dt, lb, ub, Fill(|lb|, 0.0), targets)[i] <= b
  }

  ghost predicate FlooredBy(dt: real, lb: Vec, ub: Vec, i: nat, q: real, b: real)
    requires dt != 0.0 && |lb| == |ub| && i < |lb|
  {
    forall targets :: Sized(|lb|, targets) && (forall k :: 0 <= k < |targets| ==> targets[k][i] >= q) ==>
      Follow(dt, lb, ub, Fill(|lb|, 0.0), targets)[i] >= b
  }

  lemma {:induction false} Capped(dt: real, lb: Vec, ub: Vec, s: Vec, targets: seq<Vec>, i: nat, q: real, b: real)
    requires dt > 0.0 && |s| == |lb| && ZeroRateAllowed(lb, ub) && i < |s| && Sized(|s|, targets)
    requires s[i] <= b && (q <= b || ub[i] == 0.0)
    requires forall k :: 0 <= k < |targets| ==> targets[k][i] <= q
    ensures Follow(dt, lb, ub, s, targets)[i] <= b
    decreases |targets|
  {
    if targets != [] {
      MoveByAtMost(dt, lb[i], ub[i], s[i], targets[0][i]);
      SignOfBounds(dt, lb[i], ub[i]);
      Capped(dt, lb, ub, Move(dt, lb, ub, s, targets[0]), targets[1..], i, q, b);
    }
  }

  lemma {:induction false} Floored(dt: real, lb: Vec, ub: Vec, s: Vec, targets: seq<Vec>, i: nat, q: real, b: real)
    requires dt > 0.0 && |s| == |lb| && ZeroRateAllowed(lb, ub) && i < |s| && Sized(|s|, targets)
    requires s[i] >= b && (q >= b || lb[i] == 0.0)
    requires forall k :: 0 <= k < |targets| ==> targets[k][i] >= q
    ensures Follow(dt, lb, ub, s, targets)[i] >= b
    decreases |targets|
  {
    if targets != [] {
      MoveByAtMost(dt, lb[i], ub[i], s[i], targets[0][i]);
      SignOfBounds(dt, lb[i], ub[i]);
      Floored(dt, lb, ub, Move(dt, lb, ub, s, targets[0]), targets[1..], i, q, b);
    }
  }

  // A target held for n updates moves each coordinate on its own.
  lemma {:induction false} FollowHeld(dt: real, lb: Vec, ub: Vec, s: Vec, t: Vec, n: nat, i: nat)
    requires dt != 0.0 && |s| == |t| == |lb| == |ub| && i < |s|
    ensures Follow(dt, lb, ub, s, seq(n, _ => t))[i] == MoveN(dt, lb[i], ub[i], s[i], t[i], n)
    decreases n
  {
    if n > 0 {
      assert seq(n, _ => t)[1..] == seq(n - 1, _ => t);
      FollowHeld(dt, lb, ub, Move(dt, lb, ub, s, t), t, n - 1, i);
    }
  }

  // Coordinate i arrives at q when q is held for enough updates.
  lemma HeldReaches(dt: real, lb: Vec, ub: Vec, i: nat, q: real, n: nat)
    requires dt > 0.0 && ZeroRateAllowed(lb, ub) && i < |lb|
    requires (n as real) * (lb[i] * dt) <= q <= (n as real) * (ub[i] * dt)
    ensures exists targets :: Sized(|lb|, targets) && (forall k :: 0 <= k < |targets| ==> targets[k][i] == q)
                              && Follow(dt, lb, ub, Fill(|lb|, 0.0), targets)[i] == q
  {
    var held := seq(n, _ => Fill(|lb|, q));
    Approach(dt, lb[i], ub[i], 0.0, q, n);
    hide MoveN;
    FollowHeld(dt, lb, ub, Fill(|lb|, 0.0), Fill(|lb|, q), n, i);
    assert Sized(|lb|, held) && Follow(dt, lb, ub, Fill(|lb|, 0.0), held)[i] == q;
  }

  /** However a coordinate's targets vary below q, its output stays at or below b exactly when
      q does, or when the coordinate cannot rise at all: the rate bound caps nothing. */
  lemma OutputCapExactly(dt: real, lb: Vec, ub: Vec, i: nat, q: real, b: real)
    requires dt > 0.0 && ZeroRateAllowed(lb, ub) && i < |lb| && b >= 0.0
    ensures CappedBy(dt, lb, ub, i, q, b) <==> q <= b || ub[i] == 0.0
  {
    var rest := Fill(|lb|, 0.0);
    if q <= b || ub[i] == 0.0 {
      forall targets | Sized(|lb|, targets) && forall k :: 0 <= k < |targets| ==> targets[k][i] <= q
        ensures Follow(dt, lb, ub, rest, targets)[i] <= b
      {
        Capped(dt, lb, ub, rest, targets, i, q, b);
      }
    } else {
      MulPositive(ub[i], dt);
      var n := Enough(q, ub[i] * dt);
      NegateBound(n, lb[i] * dt);
      SignOfBounds(dt, lb[i], ub[i]);
      HeldReaches(dt, lb, ub, i, q, n);
    }
  }

  lemma OutputFloorExactly(dt: real, lb: Vec, ub: Vec, i: nat, q: real, b: real)
    requires dt > 0.0 && ZeroRateAllowed(lb, ub) && i < |lb| && b <= 0.0
    ensures FlooredBy(dt, lb, ub, i, q, b) <==> q >= b || lb[i] == 0.0
  {
    var rest := Fill(|lb|, 0.0);
    if q >= b || lb[i] == 0.0 {
      forall targets | Sized(|lb|, targets) && forall k :: 0 <= k < |targets| ==> targets[k][i] >= q
        ensures Follow(dt, lb, ub, rest, targets)[i] >= b
      {
        Floored(dt, lb, ub, rest, targets, i, q, b);
      }
    } else {
      MulPositive(-lb[i], dt);
      var n := Enough(-q, -(lb[i] * dt));
      MulNonNegative(n as real, ub[i] * dt);
      SignOfBounds(dt, lb[i], ub[i]);
      HeldReaches(dt, lb, ub, i, q, n);
    }
  }

  // Held at the stick's end, a coordinate configured with 0.5 at 20 Hz reaches 1.
  lemma RateBoundIsNoOutputBound()
    ensures MoveN(0.05, -0.5, 0.5, 0.0, 1.0, 40) == 1.0
  {
    Approach(0.05, -0.5, 0.5, 0.0, 1.0, 40);
  }

  // With axis values for targets the published velocity never leaves [-1, 1].
  lemma FollowsStickWithinUnit(dt: real, lb: Vec, ub: Vec, targets: seq<Vec>)
    requires dt > 0.0 && ZeroRateAllowed(lb, ub)
    requires forall k :: 0 <= k < |targets| ==> |targets[k]| == |lb| && Within(targets[k], -1.0, 1.0)
    ensures Within(Follow(dt, lb, ub, Fill(|lb|, 0.0), targets), -1.0, 1.0)
  {
    StaysInHull(dt, lb, ub, Fill(|lb|, 0.0), targets, -1.0, 1.0);
  }
}

/** The joystick's axis values, the targets of the limiter. */
module Joystick {
  import opened Arithmetic
  import opened VelLimiter

  const DEADZONE: real := 32767.0 * 0.05
  const AXIS_SCALE: real := -1.0 / (1.0 - 0.05) / 32767.0

  // The published value of a raw reading: sign reversed, flat around the centre.
  function AxisValue(val: int): real {
    var v := if val == -32768 then -32767.0 else val as real;
    (if v > DEADZONE then v - DEADZONE else if v < -DEADZONE then v + DEADZONE else 0.0) * AXIS_SCALE
  }

  /** Every reading the driver can report lands in [-1, 1], with both ends reached, the
      deadzone flat, and the ordering reversed. */
  lemma AxisRange(val: int)
    requires -32768 <= val <= 32767
    ensures -1.0 <= AxisValue(val) <= 1.0
    ensures AxisValue(32767) == -1.0 && AxisValue(-32767) == 1.0 == AxisValue(-32768)
    ensures AxisValue(val) == 0.0 <==> -1638 <= val <= 1638
    ensures val != -32768 ==> AxisValue(-val) == -AxisValue(val)
    ensures forall w :: -32768 <= w <= val ==> AxisValue(w) >= AxisValue(val)
  {
  }

  datatype Hat = Hat(left: bool, right: bool, up: bool, down: bool)

  // What the driver remembers of its device.
  datatype Stick = Stick(axis: Vec, id: int)

  // `initial` gives the axes whose initial reading the driver knows.
  datatype Event =
    | AxisMoved(which: int, index: nat, raw: int)
    | HatMoved(which: int, firstHat: int, hat: nat, pressed: Hat)
    | Opened(id: int, numAxes: nat, numHats: nat, initial: map<nat, int>)
    | Removed(which: int)

  // Readings are 16-bit integers.
  predicate Readable(ev: Event) {
    && (ev.AxisMoved? ==> -32768 <= ev.raw <= 32767)
    && (ev.Opened? ==> forall i :: i in ev.initial ==> -32768 <= ev.initial[i] <= 32767)
  }

  // One of a hat's two axes: `minus` wins over `plus`, and an axis not pressed keeps its value
  // while the other axis is.
  function HatAxis(before: real, plus: bool, minus: bool, other: bool): real {
    if minus then -1.0 else if plus then 1.0 else if other then before else 0.0
  }

  function Hear(s: Stick, ev: Event): Stick {
    match ev
    case AxisMoved(which, index, value) =>
      if which == s.id && index < |s.axis| then s.(axis := s.axis[index := AxisValue(value)]) else s
    case HatMoved(which, numAxes, hat, value) =>
      var i := numAxes + hat * 2;
      if which == s.id && numAxes >= 0 && i + 1 < |s.axis| then
        var x := HatAxis(s.axis[i], value.left, value.right, value.up || value.down);
        var y := HatAxis(s.axis[i + 1], value.up, value.down, value.left || value.right);
        s.(axis := s.axis[i := x][i + 1 := y])
      else s
    case Opened(id, numAxes, numHats, initial) =>
      Stick(seq(numAxes + numHats * 2, i requires 0 <= i =>
              if i < numAxes && i in initial then AxisValue(initial[i])
              else if i < |s.axis| then s.axis[i] else 0.0), id)
    case Removed(which) => if which == s.id then s.(axis := []) else s
  }

  /** Whatever the device reports, every axis stays in [-1, 1]. */
  lemma HearWithin(s: Stick, ev: Event)
    requires Within(s.axis, -1.0, 1.0) && Readable(ev)
    ensures Within(Hear(s, ev).axis, -1.0, 1.0)
  {
    match ev
    case AxisMoved(_, _, value) => AxisRange(value);
    case HatMoved(_, _, _, _) =>
    case Removed(_) =>
    case Opened(_, numAxes, numHats, initial) =>
      forall i | 0 <= i < numAxes && i in initial
        ensures -1.0 <= AxisValue(initial[i]) <= 1.0
      {
        AxisRange(initial[i]);
      }
  }

  /** A hat is a stick at its ends: pressing one side of it alone puts its axis where a stick
      pushed fully to that side would (raw readings fall to the left and forwards), leaves its
      other axis, and lets both go back to rest when centred. */
  lemma HatLikeStick(s: Stick, firstHat: int, hat: nat)
    requires firstHat >= 0 && firstHat + hat * 2 + 1 < |s.axis|
    ensures var x := firstHat + hat * 2;
            var left := Hear(s, HatMoved(s.id, firstHat, hat, Hat(true, false, false, false)));
            var right := Hear(s, HatMoved(s.id, firstHat, hat, Hat(false, true, false, false)));
            var up := Hear(s, HatMoved(s.id, firstHat, hat, Hat(false, false, true, false)));
            var down := Hear(s, HatMoved(s.id, firstHat, hat, Hat(false, false, false, true)));
            var rest := Hear(s, HatMoved(s.id, firstHat, hat, Hat(false, false, false, false)));
            && left == Hear(s, AxisMoved(s.id, x, -32767)) && right == Hear(s, AxisMoved(s.id, x, 32767))
            && up == Hear(s, AxisMoved(s.id, x + 1, -32767)) && down == Hear(s, AxisMoved(s.id, x + 1, 32767))
            && rest == Hear(Hear(s, AxisMoved(s.id, x, 0)), AxisMoved(s.id, x + 1, 0))
  {
    AxisRange(32767);
    AxisRange(0);
    hide AxisValue;
    var x := firstHat + hat * 2;
    assert s.axis[x + 1 := s.axis[x + 1]] == s.axis && s.axis[x := s.axis[x]] == s.axis;
  }

  /** A moved axis takes its own value and leaves the rest; what another device reports, or an
      axis this one does not have, changes nothing. */
  lemma OnlyItsOwn(s: Stick, which: int, index: nat, raw: int, j: nat)
    requires j < |s.axis|
    ensures var r := Hear(s, AxisMoved(which, index, raw));
            && r.id == s.id && |r.axis| == |s.axis|
            && r.axis[j] == if which == s.id && j == index then AxisValue(raw) else s.axis[j]
    ensures which != s.id ==> forall first, hat, h :: Hear(s, HatMoved(which, first, hat, h)) == s
    ensures which != s.id ==> Hear(s, Removed(which)) == s
  {
  }

  /** Opening a device with a known initial reading is opening it without and then hearing that
      reading; opened with none, it keeps the axes it had and starts the others at rest. */
  lemma OpenedThenMoved(s: Stick, id: int, axes: nat, hats: nat, initial: map<nat, int>, i: nat, raw: int, j: nat)
    requires i < axes
    ensures Hear(s, Opened(id, axes, hats, initial[i := raw]))
            == Hear(Hear(s, Opened(id, axes, hats, initial)), AxisMoved(id, i, raw))
    ensures var r := Hear(s, Opened(id, axes, hats, map[]));
            && r.id == id && |r.axis| == axes + 2 * hats
            && (j < |r.axis| ==> r.axis[j] == if j < |s.axis| then s.axis[j] else 0.0)
  {
    hide AxisValue;
    var a := Hear(s, Opened(id, axes, hats, initial[i := raw]));
    var b := Hear(Hear(s, Opened(id, axes, hats, initial)), AxisMoved(id, i, raw));
    assert a.axis == b.axis;
  }

  // Nanoseconds: changes within a millisecond of the first are reported together.
  const COALESCE_INTERVAL := 1_000_000

  class Joy {
    var axis: Vec
    var instanceId: int
    var publishSoon: bool
    var publishSoonTime: int

    ghost predicate Valid()
      reads this
    {
      Within(axis, -1.0, 1.0)
    }

    ghost function Value(): Stick
      reads this
    {
      Stick(axis, instanceId)
    }

    constructor (now: int)
      ensures Valid() && Value() == Stick([], 0) && !publishSoon && publishSoonTime == now
    {
      axis, instanceId := [], 0;
      publishSoon, publishSoonTime := false, now;
    }

    method ConvertRawAxisValueToROS(raw: int) returns (r: real)
      requires -32768 <= raw <= 32767
      ensures r == AxisValue(raw) && -1.0 <= r <= 1.0
    {
      var val := raw;
      if val == -32768 {
        val := -32767;
      }
      var v := val as real;
      if v > DEADZONE {
        v := v - DEADZONE;
      } else if v < -DEADZONE {
        v := v + DEADZONE;
      } else {
        v := 0.0;
      }
      r := v * AXIS_SCALE;
      AxisRange(raw);
    }

    /** Events of another device or of an axis this device does not have are ignored. The first
        change of a burst is held back; a later one is reported once the interval is over. */
    method HandleJoyAxis(which: int, index: nat, value: int, now: int) returns (publish: bool)
      requires Valid() && -32768 <= value <= 32767
      modifies this`axis, this`publishSoon, this`publishSoonTime
      ensures Valid() && Value() == Hear(old(Value()), AxisMoved(which, index, value))
      ensures var held := axis != old(axis) && !old(publishSoon);
              && (publish <==> axis != old(axis) && old(publishSoon)
                               && now - old(publishSoonTime) >= COALESCE_INTERVAL)
              && publishSoon == ((old(publishSoon) || held) && !publish)
              && publishSoonTime == if held then now else old(publishSoonTime)
    {
      publish := false;
      if which != instanceId {
        return;
      }
      if index >= |axis| {
        return;
      }
      var last := axis[index];
      var r := ConvertRawAxisValueToROS(value);
      ghost var before := axis;
      axis := axis[index := r];
      if last != axis[index] {
        assert axis[index] != before[index];
        if COALESCE_INTERVAL > 0 && !publishSoon {
          publishSoon := true;
          publishSoonTime := now;
        } else {
          if now - publishSoonTime >= COALESCE_INTERVAL {
            publish := true;
            publishSoon := false;
          }
        }
      } else {
        assert axis == before;
      }
    }

    /** A hat drives the pair of axes behind the sticks. */
    method HandleJoyHatMotion(which: int, numAxes: int, hat: nat, value: Hat) returns (publish: bool)
      requires Valid()
      modifies this`axis
      ensures Valid() && Value() == Hear(old(Value()), HatMoved(which, numAxes, hat, value))
      ensures publish <==> which == instanceId && numAxes >= 0 && numAxes + hat * 2 + 1 < |axis|
    {
      publish := false;
      if which != instanceId {
        return;
      }
      if numAxes < 0 {
        return;
      }
      var i: nat := numAxes + hat * 2;
      if i + 1 >= |axis| {
        return;
      }
      if value.left {
        axis := axis[i := 1.0];
      }
      if value.right {
        axis := axis[i := -1.0];
      }
      if value.up {
        axis := axis[i + 1 := 1.0];
      }
      if value.down {
        axis := axis[i + 1 := -1.0];
      }
      if value == Hat(false, false, false, false) {
        axis := axis[i := 0.0];
        axis := axis[i + 1 := 0.0];
      }
      publish := true;
      assert axis == Hear(old(Value()), HatMoved(which, numAxes, hat, value)).axis;
    }

    method OpenDevice(id: int, numAxes: nat, numHats: nat, initial: map<nat, int>)
      requires Valid() && Readable(Opened(id, numAxes, numHats, initial))
      modifies this`axis, this`instanceId
      ensures Valid() && Value() == Hear(old(Value()), Opened(id, numAxes, numHats, initial))
    {
      instanceId := id;
      var size := numAxes + numHats * 2;
      var before := axis;
      axis := seq(size, i requires 0 <= i => if i < |before| then before[i] else 0.0);
      ghost var resized := axis;
      for k := 0 to numAxes
        invariant Valid() && |axis| == size && instanceId == id
        invariant forall i :: 0 <= i < size ==>
                    axis[i] == if i < k && i in initial then AxisValue(initial[i]) else resized[i]
      {
        if k in initial {
          var r := ConvertRawAxisValueToROS(initial[k]);
          axis := axis[k := r];
        }
      }
      assert axis == Hear(old(Value()), Opened(id, numAxes, numHats, initial)).axis;
    }

    method HandleJoyDeviceRemoved(which: int)
      requires Valid()
      modifies this`axis
      ensures Valid() && Value() == Hear(old(Value()), Removed(which))
    {
      if which != instanceId {
        return;
      }
      axis := [];
    }
  }
}

/** The main loop's velocity pass: the mapped axes are the limiter's targets. */
module TwistLoop {
  import opened VelLimiter
  import opened Joystick

  // The axes mapped to a twist's components, in the fixed order of the components.
  predicate Mapped(picks: seq<nat>, axis: Vec) {
    |picks| <= |axis| && forall i :: 0 <= i < |picks| ==> picks[i] < |axis|
  }

  function Picks(axis: Vec, picks: seq<nat>): (t: Vec)
    requires Mapped(picks, axis)
    ensures |t| == |picks|
  {
    seq(|picks|, i requires 0 <= i < |picks| => axis[picks[i]])
  }

  /** One pass while the enabling buttons are held. The target has an entry for every axis of
      the device; those behind the mapped ones are whatever its memory held. */
  method TwistPass(joy: Joy, limiter: JoyVelLimiter, picks: seq<nat>, memory: Vec, xOpt: Vec) returns (state: Vec)
    requires limiter.Valid() && |picks| == limiter.dim && Mapped(picks, joy.axis) && |memory| == |joy.axis|
    requires IsMinimiser(limiter.dt, Minus(Picks(joy.axis, picks), limiter.state), limiter.lb, limiter.ub, xOpt)
    modifies limiter
    ensures limiter.Valid() && state == limiter.state
    ensures state == if limiter.dt != 0.0
                     then Move(limiter.dt, limiter.lb, limiter.ub, old(limiter.state), Picks(joy.axis, picks))
                     else old(limiter.state)
  {
    var target := memory;
    for idx := 0 to |picks|
      invariant |target| == |memory| && target[..idx] == Picks(joy.axis, picks)[..idx]
    {
      target := target[idx := joy.axis[picks[idx]]];
    }
    assert target[..limiter.dim] == Picks(joy.axis, picks);
    state := limiter.Update(target, xOpt);
  }

  datatype Act = Driver(ev: Event) | Pass

  datatype Loop = Loop(stick: Stick, state: Vec)

  datatype Limits = Limits(dt: real, lb: Vec, ub: Vec, picks: seq<nat>)

  ghost predicate Proper(c: Limits) {
    c.dt > 0.0 && ZeroRateAllowed(c.lb, c.ub) && |c.picks| == |c.lb|
  }

  // A pass indexes the axes it maps without a check.
  predicate Legal(c: Limits, l: Loop, a: Act) {
    match a
    case Driver(ev) => Readable(ev)
    case Pass => Mapped(c.picks, l.stick.axis)
  }

  ghost function Do(c: Limits, l: Loop, a: Act): (l': Loop)
    requires Proper(c) && Legal(c, l, a) && |l.state| == |c.lb|
    ensures |l'.state| == |c.lb|
  {
    match a
    case Driver(ev) => l.(stick := Hear(l.stick, ev))
    case Pass => l.(state := Move(c.dt, c.lb, c.ub, l.state, Picks(l.stick.axis, c.picks)))
  }

  ghost predicate LegalRun(c: Limits, l: Loop, acts: seq<Act>)
    requires Proper(c) && |l.state| == |c.lb|
    decreases |acts|
  {
    acts == [] || (Legal(c, l, acts[0]) && LegalRun(c, Do(c, l, acts[0]), acts[1..]))
  }

  ghost function Run(c: Limits, l: Loop, acts: seq<Act>): Loop
    requires Proper(c) && |l.state| == |c.lb| && LegalRun(c, l, acts)
    decreases |acts|
  {
    if acts == [] then l else Run(c, Do(c, l, acts[0]), acts[1..])
  }

  lemma PassWithin(c: Limits, l: Loop)
    requires Proper(c) && |l.state| == |c.lb| && Legal(c, l, Pass)
    requires Within(l.stick.axis, -1.0, 1.0) && Within(l.state, -1.0, 1.0)
    ensures Within(Do(c, l, Pass).state, -1.0, 1.0)
  {
    StaysInHull(c.dt, c.lb, c.ub, l.state, [Picks(l.stick.axis, c.picks)], -1.0, 1.0);
  }

  lemma {:induction false} KeepsWithin(c: Limits, l: Loop, acts: seq<Act>)
    requires Proper(c) && |l.state| == |c.lb| && LegalRun(c, l, acts)
    requires Within(l.stick.axis, -1.0, 1.0) && Within(l.state, -1.0, 1.0)
    ensures Within(Run(c, l, acts).stick.axis, -1.0, 1.0) && Within(Run(c, l, acts).state, -1.0, 1.0)
    decreases |acts|
  {
    if acts != [] {
      match acts[0] {
        case Driver(ev) => HearWithin(l.stick, ev);
        case Pass => PassWithin(c, l);
      }
      KeepsWithin(c, Do(c, l, acts[0]), acts[1..]);
    }
  }

  /** From power-on, over any interleaving of device events and velocity passes, the published
      velocity never leaves [-1, 1]: the axes it follows cannot. */
  lemma VelocityWithinUnit(c: Limits, acts: seq<Act>)
    requires Proper(c) && LegalRun(c, Loop(Stick([], 0), Fill(|c.lb|, 0.0)), acts)
    ensures Within(Run(c, Loop(Stick([], 0), Fill(|c.lb|, 0.0)), acts).state, -1.0, 1.0)
  {
    KeepsWithin(c, Loop(Stick([], 0), Fill(|c.lb|, 0.0)), acts);
  }
}
