/** The joint-space controllers: the gather of measured joint states by name that all
    controllers share, and the PD controller in its transition, keep and plan modes. */
module PdControl {
  import opened Arithmetic

  datatype JointState = JointState(name: seq<string>, position: seq<real>, velocity: seq<real>, effort: seq<real>)

  datatype JointCmd = JointCmd(name: string, position: real, velocity: real, effort: real,
                               damping: real, stiffness: real)

  const MODE_STEPS := 2000

  // What a controller is configured with.
  datatype Config = Config(names: seq<string>, initState: seq<real>, stiffness: seq<real>, damping: seq<real>,
                           isKeep: bool, isPlan: bool)

  ghost predicate Sized(c: Config) {
    |c.initState| == |c.stiffness| == |c.damping| == |c.names|
  }

  // The mutable part of a PD controller.
  datatype Pd = Pd(position: seq<real>, velocity: seq<real>, effort: seq<real>, start: seq<real>, percent: real)

  ghost predicate Fits(c: Config, p: Pd) {
    |p.position| == |p.velocity| == |p.effort| == |p.start| == |c.names|
  }

  // ---------------------------------------------------------------- gathering by name

  // How many of the names come before the first one the index does not know.
  function Known(names: seq<string>, index: map<string, int>): (k: nat)
    ensures k <= |names|
    ensures forall i :: 0 <= i < k ==> names[i] in index
    ensures k < |names| ==> names[k] !in index
  {
    if names == [] || names[0] !in index then 0 else 1 + Known(names[1..], index)
  }

  ghost predicate IndexInto(index: map<string, int>, names: seq<string>, msg: JointState) {
    && |msg.position| == |msg.velocity| == |msg.effort|
    && forall i :: 0 <= i < |names| && names[i] in index ==> 0 <= index[names[i]] < |msg.position|
  }

  // The first k entries taken from the message by name, the others as they were.
  ghost predicate Gathered(names: seq<string>, index: map<string, int>, k: nat, from: seq<real>,
                           before: seq<real>, after: seq<real>)
    requires k <= |names| && forall i :: 0 <= i < k ==> names[i] in index && 0 <= index[names[i]] < |from|
  {
    && |after| == |before| == |names|
    && (forall i :: 0 <= i < k ==> after[i] == from[index[names[i]]])
    && (forall i :: k <= i < |names| ==> after[i] == before[i])
  }

  function Gather(names: seq<string>, index: map<string, int>, from: seq<real>): (r: seq<real>)
    requires forall i :: 0 <= i < |names| ==> names[i] in index && 0 <= index[names[i]] < |from|
    ensures |r| == |names|
  {
    seq(|names|, i requires 0 <= i < |names| => from[index[names[i]]])
  }

  function SetJointState(c: Config, p: Pd, msg: JointState, index: map<string, int>): Pd
    requires IndexInto(index, c.names, msg) && forall i :: 0 <= i < |c.names| ==> c.names[i] in index
  {
    p.(position := Gather(c.names, index, msg.position),
       velocity := Gather(c.names, index, msg.velocity),
       effort := Gather(c.names, index, msg.effort))
  }

  // ---------------------------------------------------------------- the PD controller

  // The trajectory generator is not part of this model: restarting it leaves no trace here.
  function Restart(p: Pd): Pd {
    p.(start := p.position, percent := 0.0)
  }

  // `next` is the planned point, when the trajectory still has one.
  datatype Next = End | Point(angles: seq<real>)

  function Update(c: Config, p: Pd, next: Next): Pd {
    if c.isKeep then p
    else if c.isPlan then (match next case End => p case Point(a) => p.(start := a))
    else
      var percent := p.percent + 1.0 / 2.0 / 1000.0;
      p.(percent := if percent < 1.0 then percent else 1.0)
  }

  function Desired(c: Config, p: Pd, i: nat): real
    requires Sized(c) && Fits(c, p) && i < |c.names|
  {
    if c.isKeep || c.isPlan then p.start[i] else p.start[i] * (1.0 - p.percent) + c.initState[i] * p.percent
  }

  function Command(c: Config, p: Pd): (r: seq<JointCmd>)
    requires Sized(c) && Fits(c, p)
    ensures |r| == |c.names|
  {
    seq(|c.names|, i requires 0 <= i < |c.names| =>
      JointCmd(c.names[i], Desired(c, p, i), 0.0, 0.0, c.damping[i], c.stiffness[i]))
  }

  class PDController {
    const config: Config
    var position: seq<real>
    var velocity: seq<real>
    var effort: seq<real>
    var startAngles: seq<real>
    var percent: real

    ghost function Value(): Pd
      reads this
    {
      Pd(position, velocity, effort, startAngles, percent)
    }

    ghost predicate Valid()
      reads this
    {
      Sized(config) && Fits(config, Value())
    }

    constructor (config: Config)
      requires Sized(config)
      ensures Valid() && this.config == config
      ensures var zeros := seq(|config.names|, _ => 0.0); Value() == Pd(zeros, zeros, zeros, zeros, 0.0)
    {
      this.config := config;
      var zeros := seq(|config.names|, _ => 0.0);
      position, velocity, effort, startAngles, percent := zeros, zeros, zeros, zeros, 0.0;
    }

    /** A name the index does not know aborts the gather half-way, as the source's exception
        does. */
    method SetJointStateData(msg: JointState, index: map<string, int>) returns (ok: bool)
      requires Valid() && IndexInto(index, config.names, msg)
      modifies this`position, this`velocity, this`effort
      ensures Valid()
      ensures var k := Known(config.names, index);
              && (ok <==> k == |config.names|)
              && Gathered(config.names, index, k, msg.position, old(position), position)
              && Gathered(config.names, index, k, msg.velocity, old(velocity), velocity)
              && Gathered(config.names, index, k, msg.effort, old(effort), effort)
      ensures ok ==> Value() == SetJointState(config, old(Value()), msg, index)
    {
      var names := config.names;
      for i := 0 to |names|
        invariant i <= Known(names, index)
        invariant Gathered(names, index, i, msg.position, old(position), position)
        invariant Gathered(names, index, i, msg.velocity, old(velocity), velocity)
        invariant Gathered(names, index, i, msg.effort, old(effort), effort)
      {
        if names[i] !in index {
          return false;
        }
        var from := index[names[i]];
        position := position[i := msg.position[from]];
        velocity := velocity[i := msg.velocity[from]];
        effort := effort[i := msg.effort[from]];
      }
      ok := true;
      assert position == Gather(names, index, msg.position);
      assert velocity == Gather(names, index, msg.velocity);
      assert effort == Gather(names, index, msg.effort);
    }

    method RestartController()
      requires Valid()
      modifies this`startAngles, this`percent
      ensures Valid() && Value() == Restart(old(Value()))
    {
      startAngles := position;
      percent := 0.0;
    }

    method UpdateStep(next: Next)
      requires Valid() && (next.Point? ==> |next.angles| == |config.names|)
      modifies this`startAngles, this`percent
      ensures Valid() && Value() == Update(config, old(Value()), next)
    {
      if config.isKeep {
        return;
      } else if config.isPlan {
        if next.Point? {
          startAngles := next.angles;
        }
        return;
      }
      percent := percent + 1.0 / 2.0 / 1000.0;
      if !(percent < 1.0) {
        percent := 1.0;
      }
    }

    method GetJointCmdData() returns (cmd: seq<JointCmd>)
      requires Valid()
      ensures cmd == Command(config, Value())
    {
      cmd := [];
      ghost var whole := Command(config, Value());
      for i := 0 to |config.names|
        invariant cmd == whole[..i]
      {
        var pos: real;
        if config.isKeep {
          pos := startAngles[i];
        } else if config.isPlan {
          pos := startAngles[i];
        } else {
          pos := startAngles[i] * (1.0 - percent) + config.initState[i] * percent;
        }
        assert pos == Desired(config, Value(), i);
        cmd := cmd + [JointCmd(config.names[i], pos, 0.0, 0.0, config.damping[i], config.stiffness[i])];
      }
    }
  }

  // ---------------------------------------------------------------- the transition

  function UpdateN(c: Config, p: Pd, nexts: seq<Next>): Pd {
    if nexts == [] then p else Update(c, UpdateN(c, p, nexts[..|nexts| - 1]), nexts[|nexts| - 1])
  }

  lemma {:induction false} PercentAfter(c: Config, p: Pd, nexts: seq<Next>)
    requires !c.isKeep && !c.isPlan && p.percent == 0.0
    ensures var q := UpdateN(c, p, nexts);
            && q.percent == (if |nexts| < MODE_STEPS then |nexts| as real / 2000.0 else 1.0)
            && q == p.(percent := q.percent)
  {
    if nexts != [] {
      PercentAfter(c, p, nexts[..|nexts| - 1]);
    }
  }

  // The point a of the way from s to t.
  function Along(s: real, t: real, a: real): real {
    s + a * (t - s)
  }

  function Progress(n: nat): real {
    if n < MODE_STEPS then n as real / 2000.0 else 1.0
  }

  /** After a restart the transition moves each joint along the segment from where it was
      measured to its target, is at the target exactly from step 2000 on, and, when the two
      differ, not before. */
  lemma Transition(c: Config, p: Pd, nexts: seq<Next>, i: nat)
    requires Sized(c) && Fits(c, p) && !c.isKeep && !c.isPlan && i < |c.names|
    ensures var q := UpdateN(c, Restart(p), nexts);
            && Fits(c, q)
            && Command(c, q)[i].position == Along(p.position[i], c.initState[i], Progress(|nexts|))
            && (Command(c, q)[i].position == c.initState[i]
                <==> |nexts| >= MODE_STEPS || p.position[i] == c.initState[i])
  {
    PercentAfter(c, Restart(p), nexts);
    var q := UpdateN(c, Restart(p), nexts);
    assert q.start == p.position && q.percent == Progress(|nexts|);
    DesiredAlong(c, q, i);
    Arrived(p.position[i], c.initState[i], q.percent);
  }

  // The point the plan came to last, or the given one before the first.
  function LastPoint(start: seq<real>, nexts: seq<Next>): seq<real> {
    if nexts == [] then start
    else match nexts[|nexts| - 1]
      case Point(a) => a
      case End => LastPoint(start, nexts[..|nexts| - 1])
  }

  /** Holding, the joints are commanded where they were measured at the restart, however many
      updates pass; planning, at the point the plan came to last, after its end for good. */
  lemma {:induction false} HeldOrPlanned(c: Config, p: Pd, nexts: seq<Next>)
    requires c.isKeep || c.isPlan
    ensures UpdateN(c, Restart(p), nexts)
            == Restart(p).(start := if c.isKeep then p.position else LastPoint(p.position, nexts))
  {
    if nexts != [] {
      HeldOrPlanned(c, p, nexts[..|nexts| - 1]);
    }
  }

  /** In every mode a joint is commanded by its own name, with its own gains, at rest and without
      a torque of its own. */
  lemma CommandGains(c: Config, p: Pd, i: nat)
    requires Sized(c) && Fits(c, p) && i < |c.names|
    ensures var e := Command(c, p)[i];
            && e.name == c.names[i] && e.stiffness == c.stiffness[i] && e.damping == c.damping[i]
            && e.velocity == 0.0 && e.effort == 0.0
  {
  }

  lemma DesiredAlong(c: Config, q: Pd, i: nat)
    requires Sized(c) && Fits(c, q) && !c.isKeep && !c.isPlan && i < |c.names|
    ensures Command(c, q)[i].position == Along(q.start[i], c.initState[i], q.percent)
  {
  }

  lemma Arrived(s: real, t: real, a: real)
    ensures Along(s, t, a) == t <==> a == 1.0 || s == t
  {
    assert t - Along(s, t, a) == (1.0 - a) * (t - s);
    if Along(s, t, a) == t && s != t {
      Cancel(1.0 - a, 0.0, t - s);
    }
  }
}
