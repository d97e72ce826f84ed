/** The transmissions between motors and joints: transforms that store through shared data
    spaces, one motor per joint or a parallel ankle of two, and the manager's two passes. */
module Transmissions {
  import opened Arithmetic

  datatype Fields = Fields(effort: real, velocity: real, position: real, kp: real, kd: real)

  class DataSpace {
    var cmd: Fields
    var state: Fields

    constructor ()
      ensures cmd == state == Fields(0.0, 0.0, 0.0, 0.0, 0.0)
    {
      cmd, state := Fields(0.0, 0.0, 0.0, 0.0, 0.0), Fields(0.0, 0.0, 0.0, 0.0, 0.0);
    }
  }

  datatype Actuator = Actuator(direction: real, space: DataSpace)

  // The entries f1a, f1b, f2a, f2b that map motor torques to joint torques.
  datatype Jac = Jac(a1: real, b1: real, a2: real, b2: real)

  function Det(f: Jac): real {
    f.b2 * f.a1 - f.b1 * f.a2
  }

  type Regular = f: Jac | Det(f) != 0.0 witness Jac(1.0, 0.0, 0.0, 1.0)

  datatype Pair = Pair(first: real, second: real)

  // The geometry of a linkage, not computed here: joint angles from motor angles, motor angles
  // from joint angles, and the entries above at a pose.
  datatype Geometry = Geometry(forward: Pair -> Pair, inverse: Pair -> Pair, jac: (Pair, Pair) -> Regular)

  datatype Side = Left | Right

  datatype Trans =
    | Simple(actuator: Actuator, joint: DataSpace)
    | Ankle(side: Side, left: Actuator, right: Actuator, pitch: DataSpace, roll: DataSpace, geo: Geometry)

  // On the right the left motor is number 5 and the right motor 6; on the left, the reverse.
  function Motor5(t: Trans): Actuator
    requires t.Ankle?
  {
    if t.side == Right then t.left else t.right
  }

  function Motor6(t: Trans): Actuator
    requires t.Ankle?
  {
    if t.side == Right then t.right else t.left
  }

  function Joints(t: Trans): set<DataSpace> {
    match t
    case Simple(_, joint) => {joint}
    case Ankle(_, _, _, pitch, roll, _) => {pitch, roll}
  }

  function Motors(t: Trans): set<DataSpace> {
    match t
    case Simple(actuator, _) => {actuator.space}
    case Ankle(_, left, right, _, _, _) => {left.space, right.space}
  }

  // Every handle of a transmission is bound to a space of its own.
  predicate Bound(t: Trans) {
    && Joints(t) !! Motors(t)
    && (t.Ankle? ==> t.pitch != t.roll && t.left.space != t.right.space)
  }

  // ---------------------------------------------------------------- values

  datatype Space = Space(cmd: Fields, state: Fields)

  type Store = map<DataSpace, Space>

  ghost predicate Holds(st: Store, t: Trans) {
    Joints(t) + Motors(t) <= st.Keys
  }

  // Torques of the joints from those of the motors, and velocities by the inverse transpose.
  function JointTorque(f: Jac, m: Pair): Pair {
    Pair(f.a1 * m.first + f.b1 * m.second, f.a2 * m.first + f.b2 * m.second)
  }

  // The inverse's entries as they are computed, two of them over the negated determinant.
  function Inverse(f: Regular): Jac {
    Jac(f.b2 / (f.b2 * f.a1 - f.b1 * f.a2), -f.b1 / (f.b2 * f.a1 - f.b1 * f.a2),
        NegDet(f, f.a2), NegDet(f, -f.a1))
  }

  function NegDet(f: Regular, x: real): real {
    x / (f.a2 * f.b1 - f.a1 * f.b2)
  }

  function Transposed(f: Jac): Jac {
    Jac(f.a1, f.a2, f.b1, f.b2)
  }

  function JointVelocity(f: Regular, m: Pair): Pair {
    JointTorque(Transposed(Inverse(f)), m)
  }

  function MotorTorque(f: Regular, j: Pair): Pair {
    Pair((f.b2 * j.first - f.b1 * j.second) / (f.b2 * f.a1 - f.b1 * f.a2),
         NegDet(f, f.a2 * j.first - f.a1 * j.second))
  }

  // A 2 by 2 inverse by the adjugate, as the matrix library takes it.
  function Adjugate(f: Regular): Jac {
    Jac(f.b2 / Det(f), -f.b1 / Det(f), -f.a2 / Det(f), f.a1 / Det(f))
  }

  lemma InverseIsAdjugate(f: Regular)
    ensures Inverse(f) == Adjugate(f)
  {
  }

  lemma InverseRegular(f: Regular)
    ensures Det(Transposed(Inverse(f))) != 0.0
    ensures Adjugate(Transposed(Inverse(f))) == Transposed(f)
  {
    InverseIsAdjugate(f);
    var d := Det(f);
    var g := Transposed(Inverse(f));
    ScaledDet(f, d, g);
    Quarter(f.a1, d, Det(g));
    Quarter(f.b1, d, Det(g));
    Quarter(f.a2, d, Det(g));
    Quarter(f.b2, d, Det(g));
    NegQuotient(f.b1, d);
    NegQuotient(f.a2, d);
  }

  lemma NegQuotient(x: real, d: real)
    requires d != 0.0
    ensures -x / d == -(x / d)
  {
  }

  lemma ScaledDet(f: Regular, d: real, g: Jac)
    requires d == Det(f)
    requires g == Jac(f.b2 / d, -f.a2 / d, -f.b1 / d, f.a1 / d)
    ensures Det(g) * d == 1.0
  {
  }

  lemma Quarter(x: real, d: real, e: real)
    requires d != 0.0 && e * d == 1.0
    ensures e != 0.0 && x / d / e == x
  {
  }

  function MotorVelocity(f: Regular, j: Pair): Pair {
    InverseRegular(f);
    JointTorque(Adjugate(Transposed(Inverse(f))), j)
  }

  function Dot(p: Pair, q: Pair): real {
    p.first * q.first + p.second * q.second
  }

  ghost predicate LeftInverse(f: Jac, g: Jac) {
    && f.a1 * g.a1 + f.b1 * g.a2 == 1.0 && f.a1 * g.b1 + f.b1 * g.b2 == 0.0
    && f.a2 * g.a1 + f.b2 * g.a2 == 0.0 && f.a2 * g.b1 + f.b2 * g.b2 == 1.0
  }

  ghost predicate RightInverse(f: Jac, g: Jac) {
    && f.a1 * g.a1 + f.a2 * g.b1 == 1.0 && f.a1 * g.a2 + f.a2 * g.b2 == 0.0
    && f.b1 * g.a1 + f.b2 * g.b1 == 0.0 && f.b1 * g.a2 + f.b2 * g.b2 == 1.0
  }

  lemma InverseLeft(f: Regular)
    ensures LeftInverse(f, Inverse(f))
  {
  }

  lemma InverseRight(f: Regular)
    ensures RightInverse(f, Inverse(f))
  {
  }

  lemma Composed(a: real, b: real, p: real, q: real, r: real, s: real, m: Pair)
    ensures a * (p * m.first + q * m.second) + b * (r * m.first + s * m.second)
            == Prod(a * p + b * r, m.first) + Prod(a * q + b * s, m.second)
  {
  }

  lemma UnitProduct(x: real)
    ensures Prod(1.0, x) == x && Prod(0.0, x) == 0.0
  {
  }

  lemma UpProduct(f: Jac, g: Jac, m: Pair, v: Pair)
    requires RightInverse(f, g)
    ensures Dot(JointTorque(f, m), JointTorque(Transposed(g), v)) == Dot(m, v)
  {
  }

  lemma PowerUp(f: Regular, m: Pair, v: Pair)
    ensures Dot(JointTorque(f, m), JointVelocity(f, v)) == Dot(m, v)
  {
    hide Inverse, Dot, JointTorque;
    InverseRight(f);
    UpProduct(f, Inverse(f), m, v);
  }

  lemma TorqueByInverse(f: Regular, j: Pair)
    ensures MotorTorque(f, j) == JointTorque(Inverse(f), j)
  {
  }

  lemma VelocityByTranspose(f: Regular, j: Pair)
    ensures MotorVelocity(f, j) == JointTorque(Transposed(f), j)
  {
    InverseRegular(f);
  }

  lemma PowerDown(f: Regular, t: Pair, v: Pair)
    ensures Dot(MotorTorque(f, t), MotorVelocity(f, v)) == Dot(t, v)
  {
    InverseLeft(f);
    TorqueByInverse(f, t);
    VelocityByTranspose(f, v);
    hide Inverse, MotorTorque, MotorVelocity;
    DownProduct(f, Inverse(f), t, v);
  }

  lemma DownProduct(f: Jac, g: Jac, t: Pair, v: Pair)
    requires LeftInverse(f, g)
    ensures Dot(JointTorque(g, t), JointTorque(Transposed(f), v)) == Dot(t, v)
  {
  }

  lemma ThereAndBack(f: Regular, m: Pair, v: Pair)
    ensures MotorTorque(f, JointTorque(f, m)) == m
    ensures MotorVelocity(f, JointVelocity(f, v)) == v
  {
    InverseLeft(f);
    InverseRight(f);
    TorqueByInverse(f, JointTorque(f, m));
    VelocityByTranspose(f, JointVelocity(f, v));
    hide Inverse, MotorTorque, MotorVelocity;
    TorqueBack(f, Inverse(f), m);
    VelocityBack(f, Inverse(f), v);
  }

  lemma TorqueBack(f: Jac, g: Jac, m: Pair)
    requires RightInverse(f, g)
    ensures JointTorque(g, JointTorque(f, m)) == m
  {
    Composed(g.a1, g.b1, f.a1, f.b1, f.a2, f.b2, m);
    Composed(g.a2, g.b2, f.a1, f.b1, f.a2, f.b2, m);
    assert g.a1 * f.a1 + g.b1 * f.a2 == 1.0 && g.a1 * f.b1 + g.b1 * f.b2 == 0.0;
    assert g.a2 * f.a1 + g.b2 * f.a2 == 0.0 && g.a2 * f.b1 + g.b2 * f.b2 == 1.0;
    UnitProduct(m.first);
    UnitProduct(m.second);
  }

  lemma VelocityBack(f: Jac, g: Jac, v: Pair)
    requires LeftInverse(f, g)
    ensures JointTorque(Transposed(f), JointTorque(Transposed(g), v)) == v
  {
  }

  // ---------------------------------------------------------------- transforms on values

  function Put(f: Fields, effort: real, velocity: real, position: real): Fields {
    f.(effort := effort, velocity := velocity, position := position)
  }

  function Toward(a: Actuator, x: real): real {
    x * a.direction
  }

  function MotorPose(t: Trans, st: Store): Pair
    requires t.Ankle? && Motors(t) <= st.Keys
  {
    Pair(Toward(Motor5(t), st[Motor5(t).space].state.position),
         Toward(Motor6(t), st[Motor6(t).space].state.position))
  }

  // The left ankle takes the velocity of motor 6 for its torque.
  function MeasuredTorque(t: Trans, st: Store): Pair
    requires t.Ankle? && Motors(t) <= st.Keys
  {
    var s6 := st[Motor6(t).space].state;
    Pair(Toward(Motor5(t), st[Motor5(t).space].state.effort),
         Toward(Motor6(t), if t.side == Right then s6.effort else s6.velocity))
  }

  function MeasuredVelocity(t: Trans, st: Store): Pair
    requires t.Ankle? && Motors(t) <= st.Keys
  {
    Pair(Toward(Motor5(t), st[Motor5(t).space].state.velocity),
         Toward(Motor6(t), st[Motor6(t).space].state.velocity))
  }

  // The joint states a transform stores.
  ghost function UpOut(t: Trans, st: Store): (out: map<DataSpace, Fields>)
    requires Bound(t) && Holds(st, t)
    ensures out.Keys == Joints(t)
  {
    match t
    case Simple(a, joint) =>
      var m := st[a.space].state;
      map[joint := Put(st[joint].state, Toward(a, m.effort), Toward(a, m.velocity), Toward(a, m.position))]
    case Ankle(_, _, _, pitch, roll, geo) =>
      var q := geo.forward(MotorPose(t, st));
      var f := geo.jac(q, MotorPose(t, st));
      var tau, qd := JointTorque(f, MeasuredTorque(t, st)), JointVelocity(f, MeasuredVelocity(t, st));
      map[pitch := Put(st[pitch].state, tau.first, qd.first, q.first),
          roll := Put(st[roll].state, tau.second, qd.second, q.second)]
  }

  // The actuator commands a transform stores.
  ghost function DownOut(t: Trans, st: Store): (out: map<DataSpace, Fields>)
    requires Bound(t) && Holds(st, t)
    ensures out.Keys == Motors(t)
  {
    match t
    case Simple(a, joint) =>
      var c := st[joint].cmd;
      map[a.space := Fields(Toward(a, c.effort), Toward(a, c.velocity), Toward(a, c.position), c.kp, c.kd)]
    case Ankle(_, _, _, pitch, roll, geo) =>
      var p, r := st[pitch].cmd, st[roll].cmd;
      var qm := geo.inverse(Pair(p.position, r.position));
      var f := geo.jac(Pair(st[pitch].state.position, st[roll].state.position), MotorPose(t, st));
      var tau, qd := MotorTorque(f, Pair(p.effort, r.effort)), MotorVelocity(f, Pair(p.velocity, r.velocity));
      var a5, a6 := Motor5(t), Motor6(t);
      map[a5.space := Fields(Toward(a5, tau.first), Toward(a5, qd.first), Toward(a5, qm.first), p.kp, p.kd),
          a6.space := Fields(Toward(a6, tau.second), Toward(a6, qd.second), Toward(a6, qm.second), r.kp, r.kd)]
  }

  ghost function StoreStates(st: Store, out: map<DataSpace, Fields>): (st': Store)
    ensures st'.Keys == st.Keys
  {
    map s | s in st :: if s in out then st[s].(state := out[s]) else st[s]
  }

  ghost function StoreCmds(st: Store, out: map<DataSpace, Fields>): (st': Store)
    ensures st'.Keys == st.Keys
  {
    map s | s in st :: if s in out then st[s].(cmd := out[s]) else st[s]
  }

  // ---------------------------------------------------------------- power

  function Power(f: Fields): real {
    f.effort * f.velocity
  }

  predicate Signed(a: Actuator) {
    a.direction == 1.0 || a.direction == -1.0
  }

  predicate SignedBoth(t: Trans)
    requires t.Ankle?
  {
    Signed(t.left) && Signed(t.right)
  }

  lemma TwiceSigned(a: Actuator, x: real, y: real)
    requires Signed(a)
    ensures Toward(a, x) * Toward(a, y) == x * y
    ensures Toward(a, Toward(a, x)) == x
  {
  }

  /** Whatever the pose, the right ankle hands on the motors' power unchanged: upward, */
  lemma RightAnkleUpPower(t: Trans, st: Store)
    requires t.Ankle? && t.side == Right && Bound(t) && Holds(st, t) && SignedBoth(t)
    ensures var out := UpOut(t, st);
            Power(out[t.pitch]) + Power(out[t.roll])
            == Power(st[t.left.space].state) + Power(st[t.right.space].state)
  {
    hide JointTorque, JointVelocity;
    var f := t.geo.jac(t.geo.forward(MotorPose(t, st)), MotorPose(t, st));
    var l, r := st[t.left.space].state, st[t.right.space].state;
    PowerUp(f, MeasuredTorque(t, st), MeasuredVelocity(t, st));
    TwiceSigned(t.left, l.effort, l.velocity);
    TwiceSigned(t.right, r.effort, r.velocity);
  }

  lemma AnkleDownEntries(t: Trans, st: Store, f: Regular, tau: Pair, qd: Pair)
    requires t.Ankle? && Bound(t) && Holds(st, t)
    requires f == t.geo.jac(Pair(st[t.pitch].state.position, st[t.roll].state.position), MotorPose(t, st))
    requires tau == MotorTorque(f, Pair(st[t.pitch].cmd.effort, st[t.roll].cmd.effort))
    requires qd == MotorVelocity(f, Pair(st[t.pitch].cmd.velocity, st[t.roll].cmd.velocity))
    ensures var out := DownOut(t, st);
            && Power(out[Motor5(t).space]) == Toward(Motor5(t), tau.first) * Toward(Motor5(t), qd.first)
            && Power(out[Motor6(t).space]) == Toward(Motor6(t), tau.second) * Toward(Motor6(t), qd.second)
  {
    hide MotorTorque, MotorVelocity, MotorPose, Toward;
  }

  /** and downward, from the joints' commands to the motors'. */
  lemma AnkleDownPower(t: Trans, st: Store)
    requires t.Ankle? && Bound(t) && Holds(st, t) && SignedBoth(t)
    ensures var out := DownOut(t, st);
            Power(out[t.left.space]) + Power(out[t.right.space]) == Power(st[t.pitch].cmd) + Power(st[t.roll].cmd)
  {
    hide DownOut, Toward, MotorPose, MotorTorque, MotorVelocity;
    var p, r := st[t.pitch].cmd, st[t.roll].cmd;
    var f := t.geo.jac(Pair(st[t.pitch].state.position, st[t.roll].state.position), MotorPose(t, st));
    var tau, qd := MotorTorque(f, Pair(p.effort, r.effort)), MotorVelocity(f, Pair(p.velocity, r.velocity));
    AnkleDownEntries(t, st, f, tau, qd);
    PowerDown(f, Pair(p.effort, r.effort), Pair(p.velocity, r.velocity));
    TwiceSigned(Motor5(t), tau.first, qd.first);
    TwiceSigned(Motor6(t), tau.second, qd.second);
  }

  /** The left ankle's upward transform keeps power exactly when its left motor stands still or
      reports the same number for torque and velocity. */
  lemma LeftAnkleUpPower(t: Trans, st: Store)
    requires t.Ankle? && t.side == Left && Bound(t) && Holds(st, t) && SignedBoth(t)
    ensures var out := UpOut(t, st);
            var m6 := st[t.left.space].state;
            (Power(out[t.pitch]) + Power(out[t.roll])
             == Power(st[t.left.space].state) + Power(st[t.right.space].state))
            <==> m6.velocity == 0.0 || m6.effort == m6.velocity
  {
    hide Prod, UpOut;
    var l := st[t.left.space].state;
    LeftAnkleUpSum(t, st);
    VelocityForTorque(l.effort, l.velocity);
  }

  lemma LeftAnkleUpSum(t: Trans, st: Store)
    requires t.Ankle? && t.side == Left && Bound(t) && Holds(st, t) && SignedBoth(t)
    ensures var out := UpOut(t, st);
            Power(out[t.pitch]) + Power(out[t.roll])
            == Power(st[t.right.space].state)
               + Prod(st[t.left.space].state.velocity, st[t.left.space].state.velocity)
  {
    hide JointTorque, JointVelocity;
    var f := t.geo.jac(t.geo.forward(MotorPose(t, st)), MotorPose(t, st));
    var l, r := st[t.left.space].state, st[t.right.space].state;
    PowerUp(f, MeasuredTorque(t, st), MeasuredVelocity(t, st));
    TwiceSigned(t.left, l.velocity, l.velocity);
    TwiceSigned(t.right, r.effort, r.velocity);
  }

  lemma VelocityForTorque(effort: real, velocity: real)
    ensures Prod(velocity, velocity) == effort * velocity <==> velocity == 0.0 || effort == velocity
  {
  }

  lemma SimplePower(t: Trans, st: Store)
    requires t.Simple? && Bound(t) && Holds(st, t)
    ensures Power(UpOut(t, st)[t.joint]) == Power(st[t.actuator.space].state)
            <==> Signed(t.actuator) || Power(st[t.actuator.space].state) == 0.0
    ensures Power(DownOut(t, st)[t.actuator.space]) == Power(st[t.joint].cmd)
            <==> Signed(t.actuator) || Power(st[t.joint].cmd) == 0.0
  {
    SquaredDirection(t.actuator, st[t.actuator.space].state);
    SquaredDirection(t.actuator, st[t.joint].cmd);
  }

  lemma SquaredDirection(a: Actuator, f: Fields)
    ensures Toward(a, f.effort) * Toward(a, f.velocity) == Power(f) <==> Signed(a) || Power(f) == 0.0
  {
    var d, p := a.direction, Power(f);
    assert Toward(a, f.effort) * Toward(a, f.velocity) == p * (d * d);
    assert p * (d * d) - p == p * ((d - 1.0) * (d + 1.0));
    if p != 0.0 && p * (d * d) == p {
      Cancel((d - 1.0) * (d + 1.0), 0.0, p);
      UnitRoots(d);
    }
  }

  lemma UnitRoots(d: real)
    requires (d - 1.0) * (d + 1.0) == 0.0
    ensures d == 1.0 || d == -1.0
  {
  }

  // ---------------------------------------------------------------- there and back

  // The joints' measured states handed back as their commands.
  ghost function Mirrored(st: Store, joints: set<DataSpace>): (st': Store)
    ensures st'.Keys == st.Keys
  {
    map s | s in st :: if s in joints then st[s].(cmd := st[s].state) else st[s]
  }

  /** Commanding a right ankle's measured joint torques and velocities gives each motor the
      torque and velocity it was measured with; the left ankle gives its left motor the
      velocity for a torque. */
  lemma AnkleRoundTrip(t: Trans, st: Store)
    requires t.Ankle? && Bound(t) && Holds(st, t) && SignedBoth(t)
    ensures var out := DownOut(t, Mirrored(StoreStates(st, UpOut(t, st)), Joints(t)));
            var l, r := st[t.left.space].state, st[t.right.space].state;
            && out[t.left.space].velocity == l.velocity && out[t.right.space].velocity == r.velocity
            && out[t.right.space].effort == r.effort
            && out[t.left.space].effort == if t.side == Right then l.effort else l.velocity
  {
    hide JointTorque, JointVelocity, MotorTorque, MotorVelocity;
    var up := StoreStates(st, UpOut(t, st));
    var st' := Mirrored(up, Joints(t));
    var l, r := st[t.left.space].state, st[t.right.space].state;
    assert st'[t.left.space].state == l && st'[t.right.space].state == r;
    assert MotorPose(t, st') == MotorPose(t, st);
    var q := t.geo.forward(MotorPose(t, st));
    var f := t.geo.jac(q, MotorPose(t, st));
    ThereAndBack(f, MeasuredTorque(t, st), MeasuredVelocity(t, st));
    TwiceSigned(t.left, l.effort, 0.0);
    TwiceSigned(t.left, l.velocity, 0.0);
    TwiceSigned(t.right, r.effort, 0.0);
    TwiceSigned(t.right, r.velocity, 0.0);
    AnkleBack(t, st, st', q);
  }

  // What the downward transform computes from the mirrored store.
  lemma AnkleBack(t: Trans, st: Store, st': Store, q: Pair)
    requires t.Ankle? && Bound(t) && Holds(st, t)
    requires st' == Mirrored(StoreStates(st, UpOut(t, st)), Joints(t)) && q == t.geo.forward(MotorPose(t, st))
    requires MotorPose(t, st') == MotorPose(t, st)
    ensures var out, f := DownOut(t, st'), t.geo.jac(q, MotorPose(t, st));
            var tau := MotorTorque(f, JointTorque(f, MeasuredTorque(t, st)));
            var qd := MotorVelocity(f, JointVelocity(f, MeasuredVelocity(t, st)));
            var a5, a6 := Motor5(t), Motor6(t);
            && out[a5.space].effort == Toward(a5, tau.first) && out[a6.space].effort == Toward(a6, tau.second)
            && out[a5.space].velocity == Toward(a5, qd.first) && out[a6.space].velocity == Toward(a6, qd.second)
  {
  }

  /** And the positions: the joint angles handed back give each motor its own measured position
      exactly when the inverse kinematics undoes the forward kinematics at the measured pose. */
  lemma AnklePositionsBack(t: Trans, st: Store)
    requires t.Ankle? && Bound(t) && Holds(st, t) && SignedBoth(t)
    ensures var out := DownOut(t, Mirrored(StoreStates(st, UpOut(t, st)), Joints(t)));
            (out[t.left.space].position == st[t.left.space].state.position
             && out[t.right.space].position == st[t.right.space].state.position)
            <==> t.geo.inverse(t.geo.forward(MotorPose(t, st))) == MotorPose(t, st)
  {
    hide JointTorque, JointVelocity, MotorTorque, MotorVelocity;
    var st' := Mirrored(StoreStates(st, UpOut(t, st)), Joints(t));
    var pose := MotorPose(t, st);
    var qm := t.geo.inverse(t.geo.forward(pose));
    MirroredPose(t, st);
    var a5, a6 := Motor5(t), Motor6(t);
    SignedInverse(a5, qm.first, st[a5.space].state.position);
    SignedInverse(a6, qm.second, st[a6.space].state.position);
  }

  lemma MirroredPose(t: Trans, st: Store)
    requires t.Ankle? && Bound(t) && Holds(st, t)
    ensures var out := DownOut(t, Mirrored(StoreStates(st, UpOut(t, st)), Joints(t)));
            var qm := t.geo.inverse(t.geo.forward(MotorPose(t, st)));
            && out[Motor5(t).space].position == Toward(Motor5(t), qm.first)
            && out[Motor6(t).space].position == Toward(Motor6(t), qm.second)
  {
    hide JointTorque, JointVelocity, MotorTorque, MotorVelocity, Toward, MotorPose;
  }

  // A signed number is x exactly when the number is the signed x.
  lemma SignedInverse(a: Actuator, y: real, x: real)
    requires Signed(a)
    ensures Toward(a, y) == x <==> y == Toward(a, x)
  {
  }

  /** The gains go where the joints' angles do: on the right ankle pitch's to the left motor and
      roll's to the right one, on the left ankle the other way round. */
  lemma AnkleGains(t: Trans, st: Store)
    requires t.Ankle? && Bound(t) && Holds(st, t)
    ensures var out, p, r := DownOut(t, st), st[t.pitch].cmd, st[t.roll].cmd;
            var l, q := out[t.left.space], out[t.right.space];
            if t.side == Right then l.kp == p.kp && l.kd == p.kd && q.kp == r.kp && q.kd == r.kd
            else q.kp == p.kp && q.kd == p.kd && l.kp == r.kp && l.kd == r.kd
  {
    hide MotorTorque, MotorVelocity, MotorPose, Toward;
  }

  lemma SimpleRoundTrip(t: Trans, st: Store)
    requires t.Simple? && Bound(t) && Holds(st, t) && Signed(t.actuator)
    ensures var out := DownOut(t, Mirrored(StoreStates(st, UpOut(t, st)), Joints(t)))[t.actuator.space];
            var m := st[t.actuator.space].state;
            out.effort == m.effort && out.velocity == m.velocity && out.position == m.position
    ensures var out, c := DownOut(t, st)[t.actuator.space], st[t.joint].cmd; out.kp == c.kp && out.kd == c.kd
  {
  }

  // ---------------------------------------------------------------- the manager's passes

  ghost predicate AllBound(ts: seq<Trans>, st: Store) {
    forall i :: 0 <= i < |ts| ==> Bound(ts[i]) && Holds(st, ts[i])
  }

  // No two transmissions share a space.
  ghost predicate Disjoint(ts: seq<Trans>) {
    forall i, j :: 0 <= i < j < |ts| ==> Joints(ts[i]) + Motors(ts[i]) !! Joints(ts[j]) + Motors(ts[j])
  }

  // One after the other, in the order of registration.
  ghost function PassUp(ts: seq<Trans>, st: Store): (st': Store)
    requires AllBound(ts, st)
    ensures st'.Keys == st.Keys
  {
    if ts == [] then st
    else
      var rest := PassUp(ts[..|ts| - 1], st);
      StoreStates(rest, UpOut(ts[|ts| - 1], rest))
  }

  ghost function PassDown(ts: seq<Trans>, st: Store): (st': Store)
    requires AllBound(ts, st)
    ensures st'.Keys == st.Keys
  {
    if ts == [] then st
    else
      var rest := PassDown(ts[..|ts| - 1], st);
      StoreCmds(rest, DownOut(ts[|ts| - 1], rest))
  }

  // Every transform applied alone to the store the pass began with.
  ghost predicate UpAlone(ts: seq<Trans>, st: Store, st': Store)
    requires AllBound(ts, st)
  {
    && st'.Keys == st.Keys
    && (forall i, s :: 0 <= i < |ts| && s in Joints(ts[i]) ==> st'[s] == st[s].(state := UpOut(ts[i], st)[s]))
    && (forall s :: s in st && (forall i :: 0 <= i < |ts| ==> s !in Joints(ts[i])) ==> st'[s] == st[s])
  }

  ghost predicate DownAlone(ts: seq<Trans>, st: Store, st': Store)
    requires AllBound(ts, st)
  {
    && st'.Keys == st.Keys
    && (forall i, s :: 0 <= i < |ts| && s in Motors(ts[i]) ==> st'[s] == st[s].(cmd := DownOut(ts[i], st)[s]))
    && (forall s :: s in st && (forall i :: 0 <= i < |ts| ==> s !in Motors(ts[i])) ==> st'[s] == st[s])
  }

  // A transform only looks at its own spaces.
  lemma Local(t: Trans, st: Store, st': Store)
    requires Bound(t) && Holds(st, t) && Holds(st', t)
    requires forall s :: s in Joints(t) + Motors(t) ==> st[s] == st'[s]
    ensures UpOut(t, st) == UpOut(t, st') && DownOut(t, st) == DownOut(t, st')
  {
  }

  lemma {:induction false} UpUntouched(ts: seq<Trans>, st: Store, s: DataSpace)
    requires AllBound(ts, st) && s in st && forall i :: 0 <= i < |ts| ==> s !in Joints(ts[i])
    ensures PassUp(ts, st)[s] == st[s]
  {
    if ts != [] {
      UpUntouched(ts[..|ts| - 1], st, s);
    }
  }

  lemma {:induction false} DownUntouched(ts: seq<Trans>, st: Store, s: DataSpace)
    requires AllBound(ts, st) && s in st && forall i :: 0 <= i < |ts| ==> s !in Motors(ts[i])
    ensures PassDown(ts, st)[s] == st[s]
  {
    if ts != [] {
      DownUntouched(ts[..|ts| - 1], st, s);
    }
  }

  lemma {:induction false} UpEach(ts: seq<Trans>, st: Store, i: nat, s: DataSpace)
    requires AllBound(ts, st) && Disjoint(ts) && i < |ts| && s in Joints(ts[i])
    ensures PassUp(ts, st)[s] == st[s].(state := UpOut(ts[i], st)[s])
  {
    hide UpOut;
    var rest, last := ts[..|ts| - 1], ts[|ts| - 1];
    var before := PassUp(rest, st);
    if i < |rest| {
      UpEach(rest, st, i, s);
      assert s !in Joints(last);
    } else {
      forall r | r in Joints(last) + Motors(last)
        ensures before[r] == st[r]
      {
        assert forall j :: 0 <= j < |rest| ==> r !in Joints(rest[j]);
        UpUntouched(rest, st, r);
      }
      Local(last, before, st);
    }
  }

  lemma {:induction false} DownEach(ts: seq<Trans>, st: Store, i: nat, s: DataSpace)
    requires AllBound(ts, st) && Disjoint(ts) && i < |ts| && s in Motors(ts[i])
    ensures PassDown(ts, st)[s] == st[s].(cmd := DownOut(ts[i], st)[s])
  {
    var rest, last := ts[..|ts| - 1], ts[|ts| - 1];
    var before := PassDown(rest, st);
    if i < |rest| {
      DownEach(rest, st, i, s);
      assert s !in Motors(last);
    } else {
      forall r | r in Joints(last) + Motors(last)
        ensures before[r] == st[r]
      {
        assert forall j :: 0 <= j < |rest| ==> r !in Motors(rest[j]);
        DownUntouched(rest, st, r);
      }
      Local(last, before, st);
    }
  }

  /** A pass over transmissions that share nothing has the effect of each applied alone: it
      changes only joint states going up and only actuator commands going down. */
  lemma PassIsPointwise(ts: seq<Trans>, st: Store)
    requires AllBound(ts, st) && Disjoint(ts)
    ensures UpAlone(ts, st, PassUp(ts, st)) && DownAlone(ts, st, PassDown(ts, st))
  {
    hide UpOut, DownOut;
    forall i, s | 0 <= i < |ts| && s in Joints(ts[i])
      ensures PassUp(ts, st)[s] == st[s].(state := UpOut(ts[i], st)[s])
    {
      UpEach(ts, st, i, s);
    }
    forall i, s | 0 <= i < |ts| && s in Motors(ts[i])
      ensures PassDown(ts, st)[s] == st[s].(cmd := DownOut(ts[i], st)[s])
    {
      DownEach(ts, st, i, s);
    }
    forall s | s in st && forall i :: 0 <= i < |ts| ==> s !in Joints(ts[i])
      ensures PassUp(ts, st)[s] == st[s]
    {
      UpUntouched(ts, st, s);
    }
    forall s | s in st && forall i :: 0 <= i < |ts| ==> s !in Motors(ts[i])
      ensures PassDown(ts, st)[s] == st[s]
    {
      DownUntouched(ts, st, s);
    }
  }

  lemma UpUnique(ts: seq<Trans>, ts': seq<Trans>, st: Store, u: Store, u': Store)
    requires AllBound(ts, st) && AllBound(ts', st) && forall t :: t in ts <==> t in ts'
    requires UpAlone(ts, st, u) && UpAlone(ts', st, u')
    ensures u == u'
  {
    hide UpOut, Bound;
    forall s | s in st
      ensures u[s] == u'[s]
    {
      if i :| 0 <= i < |ts| && s in Joints(ts[i]) {
        assert ts[i] in ts';
        var j :| 0 <= j < |ts'| && ts'[j] == ts[i];
        assert u'[s] == st[s].(state := UpOut(ts'[j], st)[s]);
      } else {
        assert forall j :: 0 <= j < |ts'| ==> ts'[j] in ts && s !in Joints(ts'[j]);
      }
    }
  }

  lemma DownUnique(ts: seq<Trans>, ts': seq<Trans>, st: Store, d: Store, d': Store)
    requires AllBound(ts, st) && AllBound(ts', st) && forall t :: t in ts <==> t in ts'
    requires DownAlone(ts, st, d) && DownAlone(ts', st, d')
    ensures d == d'
  {
    hide DownOut, Bound;
    forall s | s in st
      ensures d[s] == d'[s]
    {
      if i :| 0 <= i < |ts| && s in Motors(ts[i]) {
        assert ts[i] in ts';
        var j :| 0 <= j < |ts'| && ts'[j] == ts[i];
        assert d'[s] == st[s].(cmd := DownOut(ts'[j], st)[s]);
      } else {
        assert forall j :: 0 <= j < |ts'| ==> ts'[j] in ts && s !in Motors(ts'[j]);
      }
    }
  }

  /** The order of registration makes no difference. */
  lemma OrderMakesNoDifference(ts: seq<Trans>, ts': seq<Trans>, st: Store)
    requires AllBound(ts, st) && Disjoint(ts) && Disjoint(ts') && forall t :: t in ts <==> t in ts'
    ensures AllBound(ts', st) && PassUp(ts, st) == PassUp(ts', st) && PassDown(ts, st) == PassDown(ts', st)
  {
    forall i | 0 <= i < |ts'|
      ensures Bound(ts'[i]) && Holds(st, ts'[i])
    {
      assert ts'[i] in ts;
    }
    PassIsPointwise(ts, st);
    PassIsPointwise(ts', st);
    UpUnique(ts, ts', st, PassUp(ts, st), PassUp(ts', st));
    DownUnique(ts, ts', st, PassDown(ts, st), PassDown(ts', st));
  }

  // ---------------------------------------------------------------- the objects

  ghost function Snapshot(all: set<DataSpace>): (st: Store)
    reads all
    ensures st.Keys == all
  {
    map s | s in all :: Space(s.cmd, s.state)
  }

  method SimpleUp(t: Trans, ghost all: set<DataSpace>)
    requires t.Simple? && Bound(t) && Joints(t) + Motors(t) <= all
    modifies t.joint`state
    ensures Snapshot(all) == StoreStates(old(Snapshot(all)), UpOut(t, old(Snapshot(all))))
  {
    ghost var want := StoreStates(Snapshot(all), UpOut(t, Snapshot(all)));
    var a, joint := t.actuator, t.joint;
    joint.state := joint.state.(effort := a.space.state.effort * a.direction);
    joint.state := joint.state.(velocity := a.space.state.velocity * a.direction);
    joint.state := joint.state.(position := a.space.state.position * a.direction);
    assert forall s :: s in all ==> Snapshot(all)[s] == want[s];
  }

  method SimpleDown(t: Trans, ghost all: set<DataSpace>)
    requires t.Simple? && Bound(t) && Joints(t) + Motors(t) <= all
    modifies t.actuator.space`cmd
    ensures Snapshot(all) == StoreCmds(old(Snapshot(all)), DownOut(t, old(Snapshot(all))))
  {
    ghost var want := StoreCmds(Snapshot(all), DownOut(t, Snapshot(all)));
    var a, c := t.actuator, t.joint.cmd;
    a.space.cmd := a.space.cmd.(effort := c.effort * a.direction);
    a.space.cmd := a.space.cmd.(velocity := c.velocity * a.direction);
    a.space.cmd := a.space.cmd.(position := c.position * a.direction);
    a.space.cmd := a.space.cmd.(kp := c.kp);
    a.space.cmd := a.space.cmd.(kd := c.kd);
    assert forall s :: s in all ==> Snapshot(all)[s] == want[s];
  }

  method AnkleStates(t: Trans, ghost all: set<DataSpace>) returns (pitch: Fields, roll: Fields)
    requires t.Ankle? && Bound(t) && Joints(t) + Motors(t) <= all
    ensures UpOut(t, Snapshot(all)) == map[t.pitch := pitch, t.roll := roll]
  {
    ghost var st := Snapshot(all);
    var m5, m6 := Motor5(t), Motor6(t);
    var pose := Pair(m5.space.state.position * m5.direction, m6.space.state.position * m6.direction);
    var q := t.geo.forward(pose);
    var taum5 := m5.space.state.effort * m5.direction;
    var taum6 := (if t.side == Right then m6.space.state.effort else m6.space.state.velocity) * m6.direction;
    var f := t.geo.jac(q, pose);
    assert pose == MotorPose(t, st) && Pair(taum5, taum6) == MeasuredTorque(t, st);
    var tauj := JointTorque(f, Pair(taum5, taum6));
    var qdm := Pair(m5.space.state.velocity * m5.direction, m6.space.state.velocity * m6.direction);
    assert qdm == MeasuredVelocity(t, st);
    var qd := JointVelocity(f, qdm);
    pitch := t.pitch.state.(position := q.first, velocity := qd.first, effort := tauj.first);
    roll := t.roll.state.(position := q.second, velocity := qd.second, effort := tauj.second);
    assert st[t.pitch].state == t.pitch.state && st[t.roll].state == t.roll.state;
    assert UpOut(t, st)[t.pitch] == pitch;
    assert UpOut(t, st)[t.roll] == roll;
  }

  method AnkleCmds(t: Trans, ghost all: set<DataSpace>) returns (cmd5: Fields, cmd6: Fields)
    requires t.Ankle? && Bound(t) && Joints(t) + Motors(t) <= all
    ensures DownOut(t, Snapshot(all)) == map[Motor5(t).space := cmd5, Motor6(t).space := cmd6]
  {
    ghost var st := Snapshot(all);
    var m5, m6 := Motor5(t), Motor6(t);
    var p, r := t.pitch.cmd, t.roll.cmd;
    var qm := t.geo.inverse(Pair(p.position, r.position));
    var pose := Pair(m5.space.state.position * m5.direction, m6.space.state.position * m6.direction);
    var f := t.geo.jac(Pair(t.pitch.state.position, t.roll.state.position), pose);
    assert pose == MotorPose(t, st);
    var tau := MotorTorque(f, Pair(p.effort, r.effort));
    var qd := MotorVelocity(f, Pair(p.velocity, r.velocity));
    cmd5 := Fields(Toward(m5, tau.first), Toward(m5, qd.first), Toward(m5, qm.first), p.kp, p.kd);
    cmd6 := Fields(Toward(m6, tau.second), Toward(m6, qd.second), Toward(m6, qm.second), r.kp, r.kd);
    assert st[t.pitch] == Space(t.pitch.cmd, t.pitch.state) && st[t.roll] == Space(t.roll.cmd, t.roll.state);
    assert DownOut(t, st)[m5.space] == cmd5;
    assert DownOut(t, st)[m6.space] == cmd6;
  }

  method AnkleUp(t: Trans, ghost all: set<DataSpace>)
    requires t.Ankle? && Bound(t) && Joints(t) + Motors(t) <= all
    modifies t.pitch`state, t.roll`state
    ensures Snapshot(all) == StoreStates(old(Snapshot(all)), UpOut(t, old(Snapshot(all))))
  {
    hide UpOut;
    ghost var want := StoreStates(Snapshot(all), UpOut(t, Snapshot(all)));
    var pitch, roll := AnkleStates(t, all);
    t.pitch.state := pitch;
    t.roll.state := roll;
    assert forall s :: s in all ==> Snapshot(all)[s] == want[s];
  }

  method AnkleDown(t: Trans, ghost all: set<DataSpace>)
    requires t.Ankle? && Bound(t) && Joints(t) + Motors(t) <= all
    modifies t.left.space`cmd, t.right.space`cmd
    ensures Snapshot(all) == StoreCmds(old(Snapshot(all)), DownOut(t, old(Snapshot(all))))
  {
    hide DownOut;
    ghost var want := StoreCmds(Snapshot(all), DownOut(t, Snapshot(all)));
    var cmd5, cmd6 := AnkleCmds(t, all);
    Motor5(t).space.cmd := cmd5;
    Motor6(t).space.cmd := cmd6;
    assert forall s :: s in all ==> Snapshot(all)[s] == want[s];
  }

  class TransmissionManager {
    var transmissions: seq<Trans>

    constructor ()
      ensures transmissions == []
    {
      transmissions := [];
    }

    method RegisterTransmission(t: Trans)
      modifies this
      ensures transmissions == old(transmissions) + [t]
    {
      transmissions := transmissions + [t];
    }

    method TransformActuatorToJoint(ghost all: set<DataSpace>)
      requires AllBound(transmissions, Snapshot(all))
      modifies all
      ensures Snapshot(all) == PassUp(transmissions, old(Snapshot(all)))
      ensures forall s :: s in all ==> s.cmd == old(s.cmd)
    {
      hide UpOut;
      ghost var before := Snapshot(all);
      for i := 0 to |transmissions|
        invariant Snapshot(all) == PassUp(transmissions[..i], before)
        invariant forall s :: s in all ==> s.cmd == old(s.cmd)
      {
        var t := transmissions[i];
        assert transmissions[..i + 1][..i] == transmissions[..i];
        assert Bound(t) && Holds(before, t);
        match t
        case Simple(_, _) => SimpleUp(t, all);
        case Ankle(_, _, _, _, _, _) => AnkleUp(t, all);
      }
      assert transmissions[..|transmissions|] == transmissions;
    }

    method TransformJointToActuator(ghost all: set<DataSpace>)
      requires AllBound(transmissions, Snapshot(all))
      modifies all
      ensures Snapshot(all) == PassDown(transmissions, old(Snapshot(all)))
      ensures forall s :: s in all ==> s.state == old(s.state)
    {
      hide DownOut;
      ghost var before := Snapshot(all);
      for i := 0 to |transmissions|
        invariant Snapshot(all) == PassDown(transmissions[..i], before)
        invariant forall s :: s in all ==> s.state == old(s.state)
      {
        var t := transmissions[i];
        assert transmissions[..i + 1][..i] == transmissions[..i];
        assert Bound(t) && Holds(before, t);
        match t
        case Simple(_, _) => SimpleDown(t, all);
        case Ankle(_, _, _, _, _, _) => AnkleDown(t, all);
      }
      assert transmissions[..|transmissions|] == transmissions;
    }
  }
}
