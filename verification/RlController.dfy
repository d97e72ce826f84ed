/** The learned walking controllers: a sliding window of observations kept in place in one
    flat buffer, the decimated inference step, and the low-pass filters behind the commands. */
module RlControl {
  import opened Arithmetic
  import LP = LowPassFilter
  import PD = PdControl

  type JointCmd = PD.JointCmd

  datatype Scales = Scales(linVel: real, angVel: real, dofPos: real, dofVel: real, quat: real)

  datatype Config = Config(names: seq<string>, initState: seq<real>, stiffness: seq<real>, damping: seq<real>,
                           inParallel: set<string>, actions: nat, obsSize: nat, hist: nat, decimation: int,
                           obsClip: real, actClip: real, actionScale: real, scales: Scales)

  // The sizes the vector library insists on; decimation divides.
  predicate Sized(c: Config) {
    && |c.names| == |c.initState| == |c.stiffness| == |c.damping| == c.actions
    && c.obsSize == 11 + 3 * c.actions && c.hist >= 1 && c.decimation >= 1
  }

  // What the sensors and the joystick deliver; the gait phase comes as its sine and cosine.
  datatype Sense = Sense(sinPhase: real, cosPhase: real, cmdX: real, cmdY: real, cmdYaw: real,
                         pos: seq<real>, vel: seq<real>, angVel: seq<real>, euler: seq<real>)

  predicate Full(c: Config, s: Sense) {
    |s.pos| == |s.vel| == c.actions && |s.angVel| == |s.euler| == 3
  }

  // The filters are built with these two numbers whatever the configuration file says.
  const WC := 100.0
  const TS := 0.001

  function Coeffs(): LP.Coeffs {
    LP.CoeffsOf(WC, TS)
  }

  datatype Rl = Rl(history: seq<real>, first: bool, loopCount: int, actions: seq<real>, lastActions: seq<real>,
                   observations: seq<real>, filters: seq<LP.Memory>, pos: seq<real>, vel: seq<real>)

  // Entries of n frames of the given size.
  function Room(size: nat, n: nat): nat {
    size * n
  }

  predicate Fits(c: Config, r: Rl) {
    && |r.history| == |r.observations| == Room(c.obsSize, c.hist)
    && |r.actions| == |r.lastActions| == |r.filters| == |r.pos| == |r.vel| == c.actions
  }

  // ---------------------------------------------------------------- specification of the steps

  function Scale(v: seq<real>, k: real): (r: seq<real>)
    ensures |r| == |v|
  {
    seq(|v|, i requires 0 <= i < |v| => v[i] * k)
  }

  function Minus(v: seq<real>, w: seq<real>): (r: seq<real>)
    requires |v| == |w|
    ensures |r| == |v|
  {
    seq(|v|, i requires 0 <= i < |v| => v[i] - w[i])
  }

  function RawObs(c: Config, s: Sense, last: seq<real>): (o: seq<real>)
    requires Sized(c) && Full(c, s) && |last| == c.actions
    ensures |o| == c.obsSize
    ensures o[5 + 2 * c.actions..5 + 3 * c.actions] == last
  {
    [s.sinPhase, s.cosPhase, s.cmdX * c.scales.linVel, s.cmdY * c.scales.linVel, s.cmdYaw]
    + Scale(Minus(s.pos, c.initState), c.scales.dofPos) + Scale(s.vel, c.scales.dofVel)
    + last
    + Scale(s.angVel, c.scales.angVel) + Scale(s.euler, c.scales.quat)
  }

  function Zeros(n: nat): (z: seq<real>)
    ensures |z| == n
  {
    seq(n, _ => 0.0)
  }

  // The observation of a tick; the first after a restart says nothing about earlier actions.
  function Frame(c: Config, r: Rl, s: Sense): (o: seq<real>)
    requires Sized(c) && Full(c, s) && Fits(c, r)
    ensures |o| == c.obsSize
  {
    RawObs(c, s, if r.first then Zeros(c.actions) else r.lastActions)
  }

  function Repeat(f: seq<real>, n: nat): (h: seq<real>)
    ensures |h| == Room(|f|, n)
  {
    if n == 0 then [] else Repeat(f, n - 1) + f
  }

  function Shift(h: seq<real>, f: seq<real>): (h': seq<real>)
    requires |f| <= |h|
    ensures |h'| == |h|
  {
    h[|f|..] + f
  }

  function Clip(limit: real, x: real): real {
    var below := if x < limit then x else limit;
    if -limit < below then below else -limit
  }

  function ClipAll(limit: real, v: seq<real>): (r: seq<real>)
    ensures |r| == |v|
  {
    seq(|v|, i requires 0 <= i < |v| => Clip(limit, v[i]))
  }

  predicate Serial(c: Config, i: nat)
    requires i < |c.names|
  {
    c.names[i] !in c.inParallel
  }

  function FreshFilters(c: Config, pos: seq<real>): (m: seq<LP.Memory>)
    requires Sized(c) && |pos| == c.actions
    ensures |m| == c.actions
  {
    seq(c.actions, i requires 0 <= i < c.actions => LP.Constant(if Serial(c, i) then pos[i] else 0.0))
  }

  lemma OneFrameFits(c: Config)
    requires Sized(c)
    ensures c.obsSize <= Room(c.obsSize, c.hist)
  {
  }

  function Observe(c: Config, r: Rl, s: Sense): (r': Rl)
    requires Sized(c) && Full(c, s) && Fits(c, r)
    ensures Fits(c, r')
  {
    OneFrameFits(c);
    var f := Frame(c, r, s);
    var h := Shift(if r.first then Repeat(f, c.hist) else r.history, f);
    r.(history := h, observations := ClipAll(c.obsClip, h), first := false,
       filters := if r.first then FreshFilters(c, r.pos) else r.filters)
  }

  predicate Observes(c: Config, r: Rl)
    requires Sized(c)
  {
    r.loopCount % c.decimation == 0
  }

  // `answer` is what the network makes of the observations, when it is asked.
  function Update(c: Config, r: Rl, s: Sense, answer: seq<real>): (r': Rl)
    requires Sized(c) && Full(c, s) && Fits(c, r) && |answer| == c.actions
    ensures Fits(c, r')
  {
    var seen := r.(pos := s.pos, vel := s.vel);
    var acted := if Observes(c, r) then Observe(c, seen, s).(actions := ClipAll(c.actClip, answer)) else seen;
    acted.(loopCount := r.loopCount + 1)
  }

  function Target(c: Config, r: Rl, i: nat): real
    requires Sized(c) && Fits(c, r) && i < c.actions
  {
    TargetOf(c, r.actions[i], i)
  }

  function TargetOf(c: Config, action: real, i: nat): real
    requires Sized(c) && i < c.actions
  {
    action * c.actionScale + c.initState[i]
  }

  // What joint i's filter is fed: a position, or for a parallel joint a torque.
  function Fed(c: Config, r: Rl, i: nat): real
    requires Sized(c) && Fits(c, r) && i < c.actions
  {
    if Serial(c, i) then Target(c, r, i)
    else c.stiffness[i] * (Target(c, r, i) - r.pos[i]) + c.damping[i] * (0.0 - r.vel[i])
  }

  function Smoothed(c: Config, r: Rl, i: nat): real
    requires Sized(c) && Fits(c, r) && i < c.actions
  {
    LP.Output(Coeffs(), r.filters[i], Fed(c, r, i))
  }

  function Cmd(c: Config, r: Rl, i: nat): JointCmd
    requires Sized(c) && Fits(c, r) && i < c.actions
  {
    if Serial(c, i) then PD.JointCmd(c.names[i], Smoothed(c, r, i), 0.0, 0.0, c.damping[i], c.stiffness[i])
    else PD.JointCmd(c.names[i], 0.0, 0.0, Smoothed(c, r, i), 0.0, 0.0)
  }

  function Commands(c: Config, r: Rl): (cmds: seq<JointCmd>)
    requires Sized(c) && Fits(c, r)
    ensures |cmds| == c.actions
  {
    seq(c.actions, i requires 0 <= i < c.actions => Cmd(c, r, i))
  }

  function AfterCommand(c: Config, r: Rl): (r': Rl)
    requires Sized(c) && Fits(c, r)
    ensures Fits(c, r')
  {
    r.(filters := seq(c.actions, i requires 0 <= i < c.actions => LP.Step(Coeffs(), r.filters[i], Fed(c, r, i))),
       lastActions := r.actions)
  }

  // ---------------------------------------------------------------- runs

  datatype Event = Restart | Tick(sense: Sense, answer: seq<real>)

  predicate Proper(c: Config, ev: Event) {
    ev.Tick? ==> Full(c, ev.sense) && |ev.answer| == c.actions
  }

  predicate AllProper(c: Config, evs: seq<Event>) {
    forall i :: 0 <= i < |evs| ==> Proper(c, evs[i])
  }

  // A tick of the main loop updates the controller and then asks it for its commands.
  function Step(c: Config, r: Rl, ev: Event): (r': Rl)
    requires Sized(c) && Fits(c, r) && Proper(c, ev)
    ensures Fits(c, r')
  {
    match ev
    case Restart => r.(first := true)
    case Tick(s, answer) => AfterCommand(c, Update(c, r, s, answer))
  }

  function Run(c: Config, r: Rl, evs: seq<Event>): (r': Rl)
    requires Sized(c) && Fits(c, r) && AllProper(c, evs)
    ensures Fits(c, r')
  {
    if evs == [] then r else Step(c, Run(c, r, evs[..|evs| - 1]), evs[|evs| - 1])
  }

  // The observations made since the last restart and the clipped answers they got.
  datatype Log = Log(frames: seq<seq<real>>, answers: seq<seq<real>>)

  function Note(c: Config, r: Rl, log: Log, ev: Event): Log
    requires Sized(c) && Fits(c, r) && Proper(c, ev)
  {
    match ev
    case Restart => Log([], [])
    case Tick(s, answer) =>
      if Observes(c, r) then Log(log.frames + [Frame(c, r, s)], log.answers + [ClipAll(c.actClip, answer)])
      else log
  }

  function LogOf(c: Config, r: Rl, evs: seq<Event>): Log
    requires Sized(c) && Fits(c, r) && AllProper(c, evs)
  {
    if evs == [] then Log([], [])
    else var rest := evs[..|evs| - 1]; Note(c, Run(c, r, rest), LogOf(c, r, rest), evs[|evs| - 1])
  }

  function Flat(frames: seq<seq<real>>): seq<real> {
    if frames == [] then [] else frames[0] + Flat(frames[1..])
  }

  function Window(frames: seq<seq<real>>, n: nat): (w: seq<seq<real>>)
    requires frames != []
    ensures |w| == n
  {
    seq(n, i requires 0 <= i < n => frames[if |frames| + i < n then 0 else |frames| - n + i])
  }

  function ActionPart(c: Config, f: seq<real>): seq<real>
    requires Sized(c) && |f| == c.obsSize
  {
    f[5 + 2 * c.actions..5 + 3 * c.actions]
  }

  lemma {:induction false} FlatAppend(fs: seq<seq<real>>, f: seq<real>)
    ensures Flat(fs + [f]) == Flat(fs) + f
  {
    if fs == [] {
      assert [f][1..] == [] && [] + [f] == [f];
      assert Flat([f]) == f + Flat([]);
    } else {
      assert (fs + [f])[1..] == fs[1..] + [f];
      FlatAppend(fs[1..], f);
      assert Flat(fs + [f]) == fs[0] + (Flat(fs[1..]) + f);
    }
  }

  lemma {:induction false} FlatRepeat(f: seq<real>, n: nat)
    ensures Repeat(f, n) == Flat(seq(n, _ => f))
    decreases n
  {
    if n > 0 {
      FlatRepeat(f, n - 1);
      FlatAppend(seq(n - 1, _ => f), f);
      assert seq(n, _ => f) == seq(n - 1, _ => f) + [f];
    }
  }

  // Shifting the flat buffer is dropping the oldest frame and appending the new one.
  lemma ShiftWindow(frames: seq<seq<real>>, f: seq<real>, n: nat)
    requires frames != [] && n >= 1 && |f| <= |Flat(Window(frames, n))|
    requires |Window(frames, n)[0]| == |f|
    ensures Shift(Flat(Window(frames, n)), f) == Flat(Window(frames + [f], n))
  {
    var w := Window(frames, n);
    FlatAppend(w[1..], f);
    assert Flat(w) == w[0] + Flat(w[1..]);
    assert Window(frames + [f], n) == w[1..] + [f];
  }

  lemma ShiftFirst(f: seq<real>, n: nat)
    requires n >= 1 && |f| <= Room(|f|, n)
    ensures Shift(Repeat(f, n), f) == Flat(Window([f], n))
  {
    FlatRepeat(f, n);
    assert Window([f], n) == seq(n, _ => f);
    assert Window([f] + [f], n) == seq(n, _ => f);
    ShiftWindow([f], f, n);
  }

  lemma {:induction false} SlotOfFlat(fs: seq<seq<real>>, size: nat, i: nat)
    requires i < |fs| && forall j :: 0 <= j < |fs| ==> |fs[j]| == size
    ensures 0 <= i * size <= i * size + size <= |Flat(fs)|
    ensures Flat(fs)[i * size..i * size + size] == fs[i]
  {
    var rest := Flat(fs[1..]);
    if i > 0 {
      SlotOfFlat(fs[1..], size, i - 1);
      assert i * size == size + (i - 1) * size;
      assert Flat(fs)[i * size..i * size + size] == rest[(i - 1) * size..(i - 1) * size + size];
    }
  }

  predicate Inv(c: Config, r: Rl, log: Log)
    requires Sized(c) && Fits(c, r)
  {
    && (r.first <==> log.frames == [])
    && |log.answers| == |log.frames|
    && (forall j :: 0 <= j < |log.frames| ==> |log.frames[j]| == c.obsSize)
    && (forall j :: 0 <= j < |log.frames| ==>
          ActionPart(c, log.frames[j]) == if j == 0 then Zeros(c.actions) else log.answers[j - 1])
    && (log.frames != [] ==>
          && r.history == Flat(Window(log.frames, c.hist))
          && r.observations == ClipAll(c.obsClip, r.history)
          && r.actions == r.lastActions == log.answers[|log.answers| - 1])
  }

  lemma ObserveKeeps(c: Config, r: Rl, s: Sense, answer: seq<real>, log: Log)
    requires Sized(c) && Fits(c, r) && Full(c, s) && |answer| == c.actions && Inv(c, r, log) && Observes(c, r)
    ensures Inv(c, Step(c, r, Tick(s, answer)), Note(c, r, log, Tick(s, answer)))
  {
    hide Room, Flat, Window, RawObs, Repeat, Shift, ClipAll, FreshFilters, ActionPart;
    WindowNext(c, r, Frame(c, r, s), log);
    FrameActions(c, r, s, log);
  }

  lemma FrameActions(c: Config, r: Rl, s: Sense, log: Log)
    requires Sized(c) && Fits(c, r) && Full(c, s) && Inv(c, r, log)
    ensures ActionPart(c, Frame(c, r, s))
            == if log.frames == [] then Zeros(c.actions) else log.answers[|log.answers| - 1]
  {
  }

  lemma WindowNext(c: Config, r: Rl, f: seq<real>, log: Log)
    requires Sized(c) && Fits(c, r) && Inv(c, r, log) && |f| == c.obsSize
    ensures c.obsSize <= Room(c.obsSize, c.hist)
    ensures Shift(if r.first then Repeat(f, c.hist) else r.history, f) == Flat(Window(log.frames + [f], c.hist))
  {
    OneFrameFits(c);
    if r.first {
      ShiftFirst(f, c.hist);
      assert log.frames + [f] == [f];
    } else {
      ShiftWindow(log.frames, f, c.hist);
    }
  }

  lemma StepKeeps(c: Config, r: Rl, log: Log, ev: Event)
    requires Sized(c) && Fits(c, r) && Proper(c, ev) && Inv(c, r, log)
    ensures Inv(c, Step(c, r, ev), Note(c, r, log, ev))
  {
    if ev.Tick? && Observes(c, r) {
      ObserveKeeps(c, r, ev.sense, ev.answer, log);
    }
  }

  lemma {:induction false} InvAlways(c: Config, r: Rl, evs: seq<Event>)
    requires Sized(c) && Fits(c, r) && r.first && AllProper(c, evs)
    ensures Inv(c, Run(c, r, evs), LogOf(c, r, evs))
  {
    if evs != [] {
      var rest := evs[..|evs| - 1];
      InvAlways(c, r, rest);
      StepKeeps(c, Run(c, r, rest), LogOf(c, r, rest), evs[|evs| - 1]);
    }
  }

  lemma SlotByInv(c: Config, r: Rl, log: Log, i: nat)
    requires Sized(c) && Fits(c, r) && Inv(c, r, log) && log.frames != [] && i < c.hist
    ensures var m := |log.frames| - c.hist + i;
            && 0 <= i * c.obsSize <= i * c.obsSize + c.obsSize <= |r.history|
            && r.history[i * c.obsSize..i * c.obsSize + c.obsSize] == log.frames[if m < 0 then 0 else m]
  {
    hide ActionPart, ClipAll, Flat;
    SlotOfFlat(Window(log.frames, c.hist), c.obsSize, i);
  }

  /** After any run: slot i of the buffer is observation max(0, k - (hist - 1) + i) of the k + 1
      made since the last restart, whatever came before it; each observation's action part is
      the clipped answer to the one before it, or zero in the first; and the network is shown
      the buffer, clipped. */
  lemma HistoryOfRun(c: Config, r: Rl, evs: seq<Event>, i: nat, j: nat)
    requires Sized(c) && Fits(c, r) && r.first && AllProper(c, evs)
    requires i < c.hist && j < |LogOf(c, r, evs).frames|
    ensures var r', log := Run(c, r, evs), LogOf(c, r, evs);
            var k := |log.frames| - 1;
            var m := k - (c.hist - 1) + i;
            && 0 <= i * c.obsSize <= i * c.obsSize + c.obsSize <= |r'.history|
            && r'.history[i * c.obsSize..i * c.obsSize + c.obsSize] == log.frames[if m < 0 then 0 else m]
            && |log.frames[j]| == c.obsSize && |log.answers| == k + 1
            && ActionPart(c, log.frames[j]) == (if j == 0 then Zeros(c.actions) else log.answers[j - 1])
            && r'.observations == ClipAll(c.obsClip, r'.history)
  {
    hide Run, LogOf, ActionPart, ClipAll, Inv;
    InvAlways(c, r, evs);
    RestByInv(c, Run(c, r, evs), LogOf(c, r, evs), j);
    SlotByInv(c, Run(c, r, evs), LogOf(c, r, evs), i);
  }

  lemma RestByInv(c: Config, r: Rl, log: Log, j: nat)
    requires Sized(c) && Fits(c, r) && Inv(c, r, log) && j < |log.frames|
    ensures |log.frames[j]| == c.obsSize && |log.answers| == |log.frames|
    ensures ActionPart(c, log.frames[j]) == if j == 0 then Zeros(c.actions) else log.answers[j - 1]
    ensures r.observations == ClipAll(c.obsClip, r.history)
  {
    hide ActionPart, ClipAll, Flat, Window;
  }

  /** Every network input is within the clip bounds exactly when the bound is not negative. */
  lemma ClippedWithin(limit: real, v: seq<real>)
    requires v != []
    ensures (forall i :: 0 <= i < |v| ==> -limit <= ClipAll(limit, v)[i] <= limit) <==> limit >= 0.0
    ensures forall i :: 0 <= i < |v| && -limit <= v[i] <= limit ==> ClipAll(limit, v)[i] == v[i]
  {
    var o := ClipAll(limit, v);
    if forall i :: 0 <= i < |v| ==> -limit <= o[i] <= limit {
      assert -limit <= o[0] <= limit;
    }
  }

  predicate Alike(c: Config, r: Rl, r': Rl)
    requires Sized(c) && Fits(c, r) && Fits(c, r')
  {
    && r.loopCount % c.decimation == r'.loopCount % c.decimation
    && r.first == r'.first
    && (!r.first ==> r' == r.(loopCount := r'.loopCount))
  }

  lemma ModAdd(n: int, j: nat, d: int)
    requires d >= 1 && n % d + j <= d
    ensures (n + j) % d == if n % d + j < d then n % d + j else 0
  {
    var q := n / d;
    assert n == q * d + n % d;
    if n % d + j < d {
      Divides(n + j, q, n % d + j, d);
    } else {
      assert (q + 1) * d == q * d + d;
      Divides(n + j, q + 1, 0, d);
    }
  }

  lemma AlikeUpdate(c: Config, r: Rl, r': Rl, s: Sense, answer: seq<real>)
    requires Sized(c) && Fits(c, r) && Fits(c, r') && Full(c, s) && |answer| == c.actions && Alike(c, r, r')
    ensures var q, q' := Update(c, r, s, answer), Update(c, r', s, answer);
            && q.first == q'.first && (!q.first ==> q' == q.(loopCount := q'.loopCount, lastActions := q'.lastActions))
            && q.loopCount == r.loopCount + 1 && q'.loopCount == r'.loopCount + 1
  {
  }

  lemma AlikeCommand(c: Config, q: Rl, q': Rl)
    requires Sized(c) && Fits(c, q) && Fits(c, q') && q' == q.(loopCount := q'.loopCount, lastActions := q'.lastActions)
    ensures AfterCommand(c, q') == AfterCommand(c, q).(loopCount := q'.loopCount)
  {
    forall i | 0 <= i < c.actions
      ensures Fed(c, q, i) == Fed(c, q', i)
    {
    }
  }

  lemma AlikeStep(c: Config, r: Rl, r': Rl, ev: Event)
    requires Sized(c) && Fits(c, r) && Fits(c, r') && Proper(c, ev) && Alike(c, r, r')
    ensures Alike(c, Step(c, r, ev), Step(c, r', ev))
  {
    hide Update;
    match ev
    case Restart =>
    case Tick(s, answer) =>
      ModAdd(r.loopCount, 1, c.decimation);
      ModAdd(r'.loopCount, 1, c.decimation);
      var q, q' := Update(c, r, s, answer), Update(c, r', s, answer);
      AlikeUpdate(c, r, r', s, answer);
      if !q.first {
        assert q' == q.(loopCount := q'.loopCount, lastActions := q'.lastActions);
        AlikeCommand(c, q, q');
      }
  }

  /** A restart forgets everything but the phase of the decimation counter: two controllers
      with any pasts, restarted and then run alike, are equal in history, network input,
      actions and filters from the first observation on. */
  lemma {:induction false} ForgetsThePast(c: Config, r: Rl, r': Rl, evs: seq<Event>)
    requires Sized(c) && Fits(c, r) && Fits(c, r') && AllProper(c, evs)
    requires r.loopCount % c.decimation == r'.loopCount % c.decimation
    ensures Alike(c, Run(c, Step(c, r, Restart), evs), Run(c, Step(c, r', Restart), evs))
  {
    if evs != [] {
      var rest := evs[..|evs| - 1];
      ForgetsThePast(c, r, r', rest);
      hide Step;
      AlikeStep(c, Run(c, Step(c, r, Restart), rest), Run(c, Step(c, r', Restart), rest), evs[|evs| - 1]);
    }
  }

  // ---------------------------------------------------------------- decimation

  predicate OnlyTicks(evs: seq<Event>) {
    forall i :: 0 <= i < |evs| ==> evs[i].Tick?
  }

  // Multiples of d in [0, n).
  function Multiples(n: nat, d: int): int
    requires d >= 1
  {
    (n + d - 1) / d
  }

  lemma MultiplesNext(n: nat, d: int)
    requires d >= 1
    ensures Multiples(n + 1, d) == Multiples(n, d) + if n % d == 0 then 1 else 0
  {
    var q, m := n / d, n % d;
    assert n == q * d + m;
    assert (q + 1) * d == q * d + d;
    if m == 0 {
      Divides(n + d - 1, q, d - 1, d);
      Divides(n + d, q + 1, 0, d);
    } else {
      Divides(n + d - 1, q + 1, m - 1, d);
      Divides(n + d, q + 1, m, d);
    }
  }

  lemma AskedOnce(c: Config, r: Rl, log: Log, ev: Event)
    requires Sized(c) && Fits(c, r) && Proper(c, ev) && ev.Tick?
    ensures Step(c, r, ev).loopCount == r.loopCount + 1
    ensures |Note(c, r, log, ev).frames| == |log.frames| + if r.loopCount % c.decimation == 0 then 1 else 0
  {
  }

  /** Over any number of ticks the network is asked once for every multiple of the decimation
      that the loop counter passes, a counter that restarts do not touch. */
  lemma {:induction false} AskedEveryDecimation(c: Config, r: Rl, evs: seq<Event>)
    requires Sized(c) && Fits(c, r) && AllProper(c, evs) && OnlyTicks(evs) && r.loopCount >= 0
    ensures Run(c, r, evs).loopCount == r.loopCount + |evs|
    ensures |LogOf(c, r, evs).frames|
            == Multiples(r.loopCount + |evs|, c.decimation) - Multiples(r.loopCount, c.decimation)
  {
    hide Multiples, Step, Note;
    if evs != [] {
      var rest := evs[..|evs| - 1];
      AskedEveryDecimation(c, r, rest);
      MultiplesNext(r.loopCount + |rest|, c.decimation);
      AskedOnce(c, Run(c, r, rest), LogOf(c, r, rest), evs[|evs| - 1]);
    }
  }

  /** Until the counter next reaches a multiple, a restarted controller goes on commanding the
      actions it was left with, through filters that were not initialised anew. */
  lemma {:induction false} StaleUntilAsked(c: Config, r: Rl, evs: seq<Event>)
    requires Sized(c) && Fits(c, r) && AllProper(c, evs) && OnlyTicks(evs)
    requires 0 < r.loopCount % c.decimation
    requires |evs| <= c.decimation - r.loopCount % c.decimation
    ensures var q := Run(c, Step(c, r, Restart), evs);
            && q.first && q.actions == r.actions && q.history == r.history && q.observations == r.observations
            && q.loopCount == r.loopCount + |evs|
  {
    hide Observe;
    if evs != [] {
      var rest := evs[..|evs| - 1];
      StaleUntilAsked(c, r, rest);
      ModAdd(r.loopCount, |rest|, c.decimation);
      var q := Run(c, Step(c, r, Restart), rest);
      assert !Observes(c, q);
    }
  }

  // ---------------------------------------------------------------- the first command

  predicate Between(a: real, y: real, b: real) {
    (a < b ==> a < y < b) && (b < a ==> b < y < a) && (a == b ==> y == a)
  }

  /** In the tick of the first observation every command starts from where the joint is: the
      position published for a serial joint lies strictly between the measured and the wanted
      one, the torque for a parallel joint between none and the wanted one. */
  lemma StartsWithoutJump(c: Config, r: Rl, s: Sense, answer: seq<real>, i: nat)
    requires Sized(c) && Fits(c, r) && Full(c, s) && |answer| == c.actions && i < c.actions
    requires r.first && Observes(c, r)
    ensures var q := Update(c, r, s, answer);
            var cmd := Cmd(c, q, i);
            && q.pos == s.pos && Target(c, q, i) == Clip(c.actClip, answer[i]) * c.actionScale + c.initState[i]
            && (Serial(c, i) ==> Between(s.pos[i], cmd.position, Target(c, q, i)) && cmd.effort == 0.0)
            && (!Serial(c, i) ==> Between(0.0, cmd.effort, Fed(c, q, i)) && cmd.position == 0.0)
  {
    hide Fed, LP.Output, LP.CoeffsOf, RawObs, Shift, Repeat, ClipAll;
    var q := Update(c, r, s, answer);
    FirstTick(c, r, s, answer, i);
    LP.BumplessStart(WC, TS, if Serial(c, i) then s.pos[i] else 0.0, Fed(c, q, i));
    if Serial(c, i) {
      FedSerial(c, q, i);
    }
  }

  lemma FirstTick(c: Config, r: Rl, s: Sense, answer: seq<real>, i: nat)
    requires Sized(c) && Fits(c, r) && Full(c, s) && |answer| == c.actions && i < c.actions
    requires r.first && Observes(c, r)
    ensures var q := Update(c, r, s, answer);
            && q.pos == s.pos && q.actions[i] == Clip(c.actClip, answer[i])
            && q.filters[i] == LP.Constant(if Serial(c, i) then s.pos[i] else 0.0)
  {
    hide RawObs, Shift, Repeat, Clip;
  }

  lemma FedSerial(c: Config, r: Rl, i: nat)
    requires Sized(c) && Fits(c, r) && i < c.actions && Serial(c, i)
    ensures Fed(c, r, i) == Target(c, r, i)
  {
  }

  // ---------------------------------------------------------------- what the commands do

  /** The torque meant for a parallel joint is a damped spring's: at rest it pulls towards the
      target, at the target it opposes the motion, and motion loses damping * velocity^2 to it
      beyond what the spring takes or gives. */
  lemma TorqueIsDampedSpring(c: Config, r: Rl, i: nat)
    requires Sized(c) && Fits(c, r) && i < c.actions && !Serial(c, i)
    ensures r.vel[i] == 0.0 && c.stiffness[i] > 0.0 ==>
              && (Fed(c, r, i) > 0.0 <==> r.pos[i] < Target(c, r, i))
              && (Fed(c, r, i) < 0.0 <==> r.pos[i] > Target(c, r, i))
    ensures r.pos[i] == Target(c, r, i) && c.damping[i] > 0.0 ==>
              && (Fed(c, r, i) < 0.0 <==> r.vel[i] > 0.0)
              && (Fed(c, r, i) > 0.0 <==> r.vel[i] < 0.0)
    ensures Fed(c, r, i) * r.vel[i]
            == c.stiffness[i] * (Target(c, r, i) - r.pos[i]) * r.vel[i] - c.damping[i] * Sq(r.vel[i])
  {
    SpringSigns(c.stiffness[i], Target(c, r, i) - r.pos[i], c.damping[i], r.vel[i]);
  }

  lemma SpringSigns(k: real, gap: real, d: real, v: real)
    ensures var f := k * gap + d * (0.0 - v);
            && (v == 0.0 && k > 0.0 ==> (f > 0.0 <==> gap > 0.0) && (f < 0.0 <==> gap < 0.0))
            && (gap == 0.0 && d > 0.0 ==> (f < 0.0 <==> v > 0.0) && (f > 0.0 <==> v < 0.0))
            && f * v == k * gap * v - d * Sq(v)
  {
    var f := k * gap + d * (0.0 - v);
    assert d * (0.0 - v) == -(d * v) && d * Sq(v) == d * v * v;
    if v == 0.0 && k > 0.0 {
      SignOfProduct(k, gap);
      assert f == k * gap;
    }
    if gap == 0.0 && d > 0.0 {
      SignOfProduct(d, v);
      assert f == -(d * v);
    }
    assert f * v == k * gap * v - d * v * v;
  }

  lemma SignOfProduct(k: real, x: real)
    requires k > 0.0
    ensures (k * x > 0.0 <==> x > 0.0) && (k * x < 0.0 <==> x < 0.0)
  {
    if x > 0.0 {
      MulPositive(k, x);
    } else if x < 0.0 {
      MulPositive(k, -x);
    }
  }

  /** The first torque published after a restart already acts so: held at its target a moving
      parallel joint is braked, and a resting one is pulled towards its target. */
  lemma FirstTorqueActsAsSpring(c: Config, r: Rl, s: Sense, answer: seq<real>, i: nat)
    requires Sized(c) && Fits(c, r) && Full(c, s) && |answer| == c.actions && i < c.actions
    requires r.first && Observes(c, r) && !Serial(c, i) && c.stiffness[i] > 0.0 && c.damping[i] > 0.0
    ensures var q := Update(c, r, s, answer);
            var effort := Cmd(c, q, i).effort;
            && (s.pos[i] == Target(c, q, i) ==> (effort < 0.0 <==> s.vel[i] > 0.0) && (effort > 0.0 <==> s.vel[i] < 0.0))
            && (s.vel[i] == 0.0 ==> (effort > 0.0 <==> s.pos[i] < Target(c, q, i))
                                    && (effort < 0.0 <==> s.pos[i] > Target(c, q, i)))
  {
    hide Fed, Cmd, Target;
    StartsWithoutJump(c, r, s, answer, i);
    TorqueIsDampedSpring(c, Update(c, r, s, answer), i);
  }

  /** A serial joint is commanded by position with its configured gains; a parallel joint by
      torque alone, with none. */
  lemma CommandGains(c: Config, r: Rl, i: nat)
    requires Sized(c) && Fits(c, r) && i < c.actions
    ensures var e := Commands(c, r)[i];
            && e.name == c.names[i] && e.velocity == 0.0
            && (Serial(c, i) ==> e.stiffness == c.stiffness[i] && e.damping == c.damping[i] && e.effort == 0.0)
            && (!Serial(c, i) ==> e.stiffness == 0.0 && e.damping == 0.0 && e.position == 0.0)
  {
  }

  // What joint i's filter is fed over a run of ticks.
  function FedOver(c: Config, r: Rl, evs: seq<Event>, i: nat): (us: seq<real>)
    requires Sized(c) && Fits(c, r) && AllProper(c, evs) && OnlyTicks(evs) && i < c.actions
    ensures |us| == |evs|
  {
    if evs == [] then []
    else
      var rest, ev := evs[..|evs| - 1], evs[|evs| - 1];
      FedOver(c, r, rest, i) + [Fed(c, Update(c, Run(c, r, rest), ev.sense, ev.answer), i)]
  }

  /** Each joint has a filter of its own: over any run of ticks after the first observation it is
      the filter run on what that joint alone was fed. */
  lemma {:induction false} FilterOfRun(c: Config, r: Rl, evs: seq<Event>, i: nat)
    requires Sized(c) && Fits(c, r) && AllProper(c, evs) && OnlyTicks(evs) && i < c.actions && !r.first
    ensures !Run(c, r, evs).first
    ensures Run(c, r, evs).filters[i] == LP.Run(Coeffs(), r.filters[i], FedOver(c, r, evs, i))
  {
    if evs != [] {
      var rest, ev := evs[..|evs| - 1], evs[|evs| - 1];
      FilterOfRun(c, r, rest, i);
      FilterOfTick(c, Run(c, r, rest), ev, i);
      hide Step, Fed, Update, LP.Step;
      LP.RunAppend(Coeffs(), r.filters[i], FedOver(c, r, rest, i),
                   Fed(c, Update(c, Run(c, r, rest), ev.sense, ev.answer), i));
    }
  }

  lemma FilterOfTick(c: Config, r: Rl, ev: Event, i: nat)
    requires Sized(c) && Fits(c, r) && Proper(c, ev) && ev.Tick? && i < c.actions && !r.first
    ensures var q := Update(c, r, ev.sense, ev.answer);
            && !Step(c, r, ev).first
            && Step(c, r, ev).filters[i] == LP.Step(Coeffs(), r.filters[i], Fed(c, q, i))
  {
    hide Fed, LP.Step, RawObs, ClipAll, Shift;
  }

  // Every answer keeps joint i's action at a.
  predicate HoldsAction(c: Config, evs: seq<Event>, i: nat, a: real) {
    forall k :: 0 <= k < |evs| ==> evs[k].Tick? && i < |evs[k].answer| && Clip(c.actClip, evs[k].answer[i]) == a
  }

  lemma {:induction false} HeldTarget(c: Config, r: Rl, evs: seq<Event>, i: nat)
    requires Sized(c) && Fits(c, r) && AllProper(c, evs) && i < c.actions && Serial(c, i)
    requires HoldsAction(c, evs, i, r.actions[i])
    ensures OnlyTicks(evs) && FedOver(c, r, evs, i) == LP.Hold(Target(c, r, i), |evs|)
    ensures Run(c, r, evs).actions[i] == r.actions[i]
  {
    hide TargetOf, Step, Update, Fed, Clip;
    if evs != [] {
      var rest, ev := evs[..|evs| - 1], evs[|evs| - 1];
      HeldTarget(c, r, rest, i);
      HeldOnce(c, Run(c, r, rest), ev, i);
      assert LP.Hold(Target(c, r, i), |evs|) == LP.Hold(Target(c, r, i), |rest|) + [Target(c, r, i)];
    }
  }

  lemma HeldOnce(c: Config, r: Rl, ev: Event, i: nat)
    requires Sized(c) && Fits(c, r) && Proper(c, ev) && ev.Tick? && i < c.actions && Serial(c, i)
    requires Clip(c.actClip, ev.answer[i]) == r.actions[i]
    ensures Fed(c, Update(c, r, ev.sense, ev.answer), i) == Target(c, r, i)
    ensures Step(c, r, ev).actions[i] == r.actions[i]
  {
    hide Clip, LP.Step, RawObs, Shift, TargetOf;
  }

  /** While the network keeps a serial joint's action, the position published for it comes within
      any eps of scale * action + initial position for good, whatever the filter held before. */
  lemma HeldActionReached(c: Config, r: Rl, i: nat, eps: real) returns (k: nat)
    requires Sized(c) && Fits(c, r) && i < c.actions && Serial(c, i) && !r.first && eps > 0.0
    ensures forall evs, ev | AllProper(c, evs + [ev]) && HoldsAction(c, evs + [ev], i, r.actions[i]) && |evs| >= k ::
              -eps < Published(c, r, evs, ev, i) - TargetOf(c, r.actions[i], i) < eps
  {
    hide Published, HoldsAction, TargetOf, LP.Hold, LP.Run, LP.Held, LP.CoeffsOf;
    var u, m := Target(c, r, i), r.filters[i];
    var k0 := LP.Converges(WC, TS, m, u, eps);
    k := 2 * k0 + 1;
    forall evs, ev | AllProper(c, evs + [ev]) && HoldsAction(c, evs + [ev], i, r.actions[i]) && |evs| >= k
      ensures -eps < Published(c, r, evs, ev, i) - TargetOf(c, r.actions[i], i) < eps
    {
      PublishedHeld(c, r, evs, ev, i);
      LP.HoldRun(WC, TS, m, u, |evs| + 1);
    }
  }

  // The position published for joint i in the last tick of a run.
  function Published(c: Config, r: Rl, evs: seq<Event>, ev: Event, i: nat): real
    requires Sized(c) && Fits(c, r) && AllProper(c, evs + [ev]) && i < c.actions
  {
    assert (evs + [ev])[|evs|] == ev && forall k :: 0 <= k < |evs| ==> (evs + [ev])[k] == evs[k];
    if ev.Tick? then Cmd(c, Update(c, Run(c, r, evs), ev.sense, ev.answer), i).position else 0.0
  }

  lemma PublishedHeld(c: Config, r: Rl, evs: seq<Event>, ev: Event, i: nat)
    requires Sized(c) && Fits(c, r) && i < c.actions && Serial(c, i) && !r.first
    requires AllProper(c, evs + [ev]) && HoldsAction(c, evs + [ev], i, r.actions[i])
    ensures Published(c, r, evs, ev, i) == LP.Run(Coeffs(), r.filters[i], LP.Hold(Target(c, r, i), |evs| + 1)).y1
  {
    var all := evs + [ev];
    assert all[..|all| - 1] == evs && all[|evs|] == ev;
    HeldTarget(c, r, all, i);
    FilterOfRun(c, r, all, i);
    HeldOnLast(c, r, evs, ev, i);
  }

  // The filter's latest output is the position just published.
  lemma HeldOnLast(c: Config, r: Rl, evs: seq<Event>, ev: Event, i: nat)
    requires Sized(c) && Fits(c, r) && i < c.actions && Serial(c, i) && !r.first
    requires AllProper(c, evs + [ev]) && ev.Tick? && OnlyTicks(evs)
    ensures Published(c, r, evs, ev, i) == Run(c, r, evs + [ev]).filters[i].y1
  {
    assert (evs + [ev])[..|evs|] == evs && (evs + [ev])[|evs|] == ev;
    FilterOfRun(c, r, evs, i);
    var q := Run(c, r, evs);
    var p := Update(c, q, ev.sense, ev.answer);
    UpdateKeepsFilters(c, q, ev.sense, ev.answer);
    hide Update, Fed;
  }

  lemma UpdateKeepsFilters(c: Config, r: Rl, s: Sense, answer: seq<real>)
    requires Sized(c) && Full(c, s) && Fits(c, r) && |answer| == c.actions && !r.first
    ensures Update(c, r, s, answer).filters == r.filters
  {
  }

  // ---------------------------------------------------------------- what the network sees

  /** Every entry of an observation by its place. */
  lemma ObservationLayout(c: Config, s: Sense, last: seq<real>, a: nat, d: nat)
    requires Sized(c) && Full(c, s) && |last| == c.actions && a < c.actions && d < 3
    ensures var o, n := RawObs(c, s, last), c.actions;
            && o[0] == s.sinPhase && o[1] == s.cosPhase
            && o[2] == s.cmdX * c.scales.linVel && o[3] == s.cmdY * c.scales.linVel && o[4] == s.cmdYaw
            && o[5 + a] == (s.pos[a] - c.initState[a]) * c.scales.dofPos
            && o[5 + n + a] == s.vel[a] * c.scales.dofVel
            && o[5 + 2 * n + a] == last[a]
            && o[5 + 3 * n + d] == s.angVel[d] * c.scales.angVel
            && o[8 + 3 * n + d] == s.euler[d] * c.scales.quat
  {
  }

  /** What the network is shown as the newest frame: this tick's scaled readings, joint by joint,
      and the last actions unless it is the first frame, all clipped. */
  lemma NewestFrame(c: Config, r: Rl, s: Sense, answer: seq<real>, a: nat, d: nat)
    requires Sized(c) && Full(c, s) && Fits(c, r) && |answer| == c.actions && Observes(c, r)
    requires a < c.actions && d < 3
    ensures var o, n := Update(c, r, s, answer).observations, c.actions;
            var at := |o| - c.obsSize;
            && at >= 0
            && o[at + 2] == Clip(c.obsClip, s.cmdX * c.scales.linVel)
            && o[at + 3] == Clip(c.obsClip, s.cmdY * c.scales.linVel)
            && o[at + 4] == Clip(c.obsClip, s.cmdYaw)
            && o[at + 5 + a] == Clip(c.obsClip, (s.pos[a] - c.initState[a]) * c.scales.dofPos)
            && o[at + 5 + n + a] == Clip(c.obsClip, s.vel[a] * c.scales.dofVel)
            && o[at + 5 + 2 * n + a] == Clip(c.obsClip, if r.first then 0.0 else r.lastActions[a])
            && o[at + 5 + 3 * n + d] == Clip(c.obsClip, s.angVel[d] * c.scales.angVel)
            && o[at + 8 + 3 * n + d] == Clip(c.obsClip, s.euler[d] * c.scales.quat)
  {
    hide Update, Observes, RawObs, Clip, Room, Zeros, Fits;
    var n, last := c.actions, if r.first then Zeros(c.actions) else r.lastActions;
    LastFits(c, r);
    ObservationLayout(c, s, last, a, d);
    ZeroAt(n, a);
    FrameShown(c, r, s, answer, 2);
    FrameShown(c, r, s, answer, 3);
    FrameShown(c, r, s, answer, 4);
    FrameShown(c, r, s, answer, 5 + a);
    FrameShown(c, r, s, answer, 5 + n + a);
    FrameShown(c, r, s, answer, 5 + 2 * n + a);
    FrameShown(c, r, s, answer, 5 + 3 * n + d);
    FrameShown(c, r, s, answer, 8 + 3 * n + d);
  }

  lemma LastFits(c: Config, r: Rl)
    requires Fits(c, r)
    ensures |r.lastActions| == c.actions
  {
  }

  lemma FrameShown(c: Config, r: Rl, s: Sense, answer: seq<real>, j: nat)
    requires Sized(c) && Full(c, s) && Fits(c, r) && |answer| == c.actions && Observes(c, r) && j < c.obsSize
    ensures var f := RawObs(c, s, if r.first then Zeros(c.actions) else r.lastActions);
            var o := Update(c, r, s, answer).observations;
            |o| >= c.obsSize && o[|o| - c.obsSize + j] == Clip(c.obsClip, f[j])
  {
    hide Update, Observes, RawObs, Clip, Repeat, Room, Shift, Zeros;
    var f := RawObs(c, s, if r.first then Zeros(c.actions) else r.lastActions);
    var h := if r.first then Repeat(f, c.hist) else r.history;
    Observed(c, r, s, answer);
    ShiftedTail(h, f);
    TailOfClip(c.obsClip, Shift(h, f), f);
  }

  lemma ZeroAt(n: nat, a: nat)
    requires a < n
    ensures Zeros(n)[a] == 0.0
  {
  }

  lemma Observed(c: Config, r: Rl, s: Sense, answer: seq<real>)
    requires Sized(c) && Full(c, s) && Fits(c, r) && |answer| == c.actions && Observes(c, r)
    ensures var f := RawObs(c, s, if r.first then Zeros(c.actions) else r.lastActions);
            && c.obsSize <= Room(c.obsSize, c.hist)
            && Update(c, r, s, answer).observations
               == ClipAll(c.obsClip, Shift(if r.first then Repeat(f, c.hist) else r.history, f))
  {
    hide RawObs, ClipAll, Shift, Repeat, Room, FreshFilters;
    OneFrameFits(c);
  }

  lemma TailOfClip(limit: real, h: seq<real>, f: seq<real>)
    requires |f| <= |h| && forall j :: 0 <= j < |f| ==> h[|h| - |f| + j] == f[j]
    ensures forall j :: 0 <= j < |f| ==> ClipAll(limit, h)[|h| - |f| + j] == Clip(limit, f[j])
  {
    hide Clip;
  }

  lemma ShiftedTail(h: seq<real>, f: seq<real>)
    requires |f| <= |h|
    ensures forall j :: 0 <= j < |f| ==> Shift(h, f)[|h| - |f| + j] == f[j]
  {
  }

  // ---------------------------------------------------------------- the controller object

  type Filter = LP.DigitalLpFilter

  function Arrays(fs: seq<Filter>): set<array<real>> {
    (set i | 0 <= i < |fs| :: fs[i].inPrev) + (set i | 0 <= i < |fs| :: fs[i].outPrev)
  }

  // One filter per joint, none sharing its memory with another.
  ghost predicate Bank(fs: seq<Filter>)
    reads fs
  {
    && (forall i :: 0 <= i < |fs| ==> fs[i].Valid() && fs[i].wc == WC && fs[i].ts == TS)
    && (forall i, j :: 0 <= i < j < |fs| ==> fs[i] != fs[j])
    && (forall i, j :: 0 <= i < |fs| && 0 <= j < |fs| ==> fs[i].inPrev != fs[j].outPrev)
    && (forall i, j :: 0 <= i < j < |fs| ==> fs[i].inPrev != fs[j].inPrev && fs[i].outPrev != fs[j].outPrev)
  }

  ghost function MemAt(fs: seq<Filter>, i: nat): LP.Memory
    requires i < |fs| && Bank(fs)
    reads fs, Arrays(fs)
  {
    assert fs[i].inPrev in Arrays(fs) && fs[i].outPrev in Arrays(fs);
    fs[i].Mem()
  }

  ghost function Mems(fs: seq<Filter>): (m: seq<LP.Memory>)
    requires Bank(fs)
    reads fs, Arrays(fs)
    ensures |m| == |fs|
  {
    seq(|fs|, i requires 0 <= i < |fs| && Bank(fs) reads fs, Arrays(fs) => MemAt(fs, i))
  }

  method Feed(fs: seq<Filter>, i: nat, u: real) returns (y: real)
    requires Bank(fs) && i < |fs|
    modifies fs[i], Arrays(fs)
    ensures Bank(fs)
    ensures Mems(fs) == old(Mems(fs))[i := LP.Step(Coeffs(), old(Mems(fs))[i], u)]
    ensures y == LP.Output(Coeffs(), old(Mems(fs))[i], u)
  {
    assert fs[i].inPrev in Arrays(fs) && fs[i].outPrev in Arrays(fs);
    fs[i].Input(u);
    y := fs[i].lpfOut;
  }

  method InitFilter(fs: seq<Filter>, i: nat, q: real)
    requires Bank(fs) && i < |fs|
    modifies Arrays(fs)
    ensures Bank(fs) && Mems(fs) == old(Mems(fs))[i := LP.Constant(q)]
  {
    assert fs[i].inPrev in Arrays(fs) && fs[i].outPrev in Arrays(fs);
    fs[i].Init(q);
  }

  lemma NextDone(done: seq<LP.Memory>, before: seq<LP.Memory>, i: nat)
    requires i < |done| == |before|
    ensures (done[..i] + before[i..])[i := done[i]] == done[..i + 1] + before[i + 1..]
  {
  }

  // The filters start from the measured position, or from no torque for a parallel joint.
  method InitFilters(c: Config, fs: seq<Filter>, pos: seq<real>)
    requires Sized(c) && Bank(fs) && |fs| == |pos| == c.actions
    modifies Arrays(fs)
    ensures Bank(fs) && Mems(fs) == FreshFilters(c, pos)
  {
    ghost var done, before := FreshFilters(c, pos), Mems(fs);
    for i := 0 to |c.names|
      invariant Bank(fs) && Mems(fs) == done[..i] + before[i..]
    {
      var q := if c.names[i] !in c.inParallel then pos[i] else 0.0;
      assert done[i] == LP.Constant(q);
      hide Bank, FreshFilters, Mems;
      NextDone(done, before, i);
      InitFilter(fs, i, q);
    }
  }

  method NewFilters(n: nat) returns (fs: seq<Filter>)
    ensures Bank(fs) && |fs| == n && fresh(fs) && fresh(Arrays(fs))
    ensures Mems(fs) == seq(n, _ => LP.Constant(0.0))
  {
    fs := [];
    for i := 0 to n
      invariant Bank(fs) && |fs| == i && fresh(fs) && fresh(Arrays(fs))
      invariant Mems(fs) == seq(i, _ => LP.Constant(0.0))
    {
      var f := new LP.DigitalLpFilter(WC, TS);
      BankMore(fs, f);
      OneMoreRest(i);
      fs := fs + [f];
    }
  }

  lemma OneMoreRest(n: nat)
    ensures seq(n + 1, _ => LP.Constant(0.0)) == seq(n, _ => LP.Constant(0.0)) + [LP.Constant(0.0)]
  {
  }

  lemma BankMore(fs: seq<Filter>, f: Filter)
    requires Bank(fs) && f.Valid() && f.wc == WC && f.ts == TS
    requires f !in fs && f.inPrev !in Arrays(fs) && f.outPrev !in Arrays(fs)
    ensures Bank(fs + [f]) && Arrays(fs + [f]) == Arrays(fs) + {f.inPrev, f.outPrev}
    ensures Mems(fs + [f]) == Mems(fs) + [f.Mem()]
  {
    hide Bank, Arrays;
    ArraysMore(fs, f);
    forall k | 0 <= k < |fs|
      ensures Apart(fs[k], f)
    {
      ApartFromAll(fs, f, k);
    }
    BankOneMore(fs, f);
    var m, m' := Mems(fs), Mems(fs + [f]);
    forall k | 0 <= k < |m'|
      ensures m'[k] == (m + [f.Mem()])[k]
    {
    }
  }

  lemma ArraysMore(fs: seq<Filter>, f: Filter)
    ensures Arrays(fs + [f]) == Arrays(fs) + {f.inPrev, f.outPrev}
  {
    var gs := fs + [f];
    assert gs[|fs|] == f;
    forall k | 0 <= k < |fs|
      ensures fs[k].inPrev in Arrays(gs) && fs[k].outPrev in Arrays(gs)
    {
      assert gs[k] == fs[k];
    }
  }

  ghost predicate Apart(g: Filter, f: Filter) {
    g != f && g.inPrev != f.inPrev && g.inPrev != f.outPrev && g.outPrev != f.inPrev && g.outPrev != f.outPrev
  }

  lemma ApartFromAll(fs: seq<Filter>, f: Filter, k: nat)
    requires f !in fs && f.inPrev !in Arrays(fs) && f.outPrev !in Arrays(fs) && k < |fs|
    ensures Apart(fs[k], f)
  {
  }

  lemma BankOneMore(fs: seq<Filter>, f: Filter)
    requires Bank(fs) && f.Valid() && f.wc == WC && f.ts == TS
    requires forall k :: 0 <= k < |fs| ==> Apart(fs[k], f)
    ensures Bank(fs + [f])
  {
  }

  class RLController {
    const config: Config
    const history: array<real>
    const filters: seq<Filter>
    var observations: seq<real>
    var actions: seq<real>
    var lastActions: seq<real>
    var first: bool
    var loopCount: int
    var jointPos: seq<real>
    var jointVel: seq<real>

    ghost predicate Owned()
      reads this, filters
    {
      && Sized(config) && Bank(filters) && |filters| == config.actions
      && history !in Arrays(filters) && history.Length == Room(config.obsSize, config.hist)
    }

    ghost function Value(): Rl
      requires Owned()
      reads this, history, filters, Arrays(filters)
    {
      Rl(history[..], first, loopCount, actions, lastActions, observations, Mems(filters), jointPos, jointVel)
    }

    ghost predicate Valid()
      reads this, history, filters, Arrays(filters)
    {
      Owned() && Fits(config, Value())
    }

    // The history is left as it was found: the first observation fills it.
    constructor (config: Config)
      requires Sized(config)
      ensures Valid() && this.config == config && first && loopCount == 0
      ensures actions == lastActions == Zeros(config.actions)
      ensures fresh(history) && fresh(filters) && fresh(Arrays(filters))
    {
      this.config := config;
      history := new real[Room(config.obsSize, config.hist)];
      var fs := NewFilters(config.actions);
      filters := fs;
      observations := Zeros(Room(config.obsSize, config.hist));
      actions, lastActions := Zeros(config.actions), Zeros(config.actions);
      jointPos, jointVel := Zeros(config.actions), Zeros(config.actions);
      first, loopCount := true, 0;
    }

    method RestartController()
      requires Valid()
      modifies this`first
      ensures Valid() && Value() == Step(config, old(Value()), Restart)
    {
      first := true;
    }

    // Every slot of the buffer gets the same frame.
    method FillHistory(frame: seq<real>)
      requires history.Length == Room(|frame|, config.hist)
      modifies history
      ensures history[..] == Repeat(frame, config.hist)
    {
      var size := |frame|;
      for n := 0 to config.hist
        invariant size * n <= history.Length
        invariant history[..size * n] == Repeat(frame, n)
      {
        SlotRoom(size, n, config.hist);
        for k := 0 to size
          invariant history[..size * n] == Repeat(frame, n)
          invariant history[size * n..size * n + k] == frame[..k]
        {
          history[size * n + k] := frame[k];
        }
        assert history[..size * (n + 1)] == history[..size * n] + history[size * n..size * n + size];
      }
      assert history[..size * config.hist] == history[..];
    }

    // The overlapping head-from-tail copy, in ascending order, then the new frame.
    method ShiftHistory(frame: seq<real>)
      requires |frame| <= history.Length
      modifies history
      ensures history[..] == Shift(old(history[..]), frame)
    {
      var size, keep := |frame|, history.Length - |frame|;
      for k := 0 to keep
        invariant forall j :: 0 <= j < k ==> history[j] == old(history[j + size])
        invariant forall j :: k <= j < history.Length ==> history[j] == old(history[j])
      {
        history[k] := history[k + size];
      }
      for k := 0 to size
        invariant forall j :: 0 <= j < keep ==> history[j] == old(history[j + size])
        invariant forall j :: 0 <= j < k ==> history[keep + j] == frame[j]
      {
        history[keep + k] := frame[k];
      }
      ShiftByEntry(old(history[..]), history[..], frame);
    }

    // The part of the first observation that holds the last actions is zeroed.
    method MaskActions(s: Sense, obs0: seq<real>) returns (obs: seq<real>)
      requires Sized(config) && Full(config, s) && |lastActions| == config.actions
      requires obs0 == RawObs(config, s, lastActions)
      ensures obs == RawObs(config, s, Zeros(config.actions))
    {
      hide RawObs;
      obs := obs0;
      assert Zeros(0) + lastActions[0..] == lastActions;
      for k := 5 + config.actions * 2 to 5 + config.actions * 3
        invariant |obs| == config.obsSize
        invariant obs == RawObs(config, s, Zeros(k - 5 - config.actions * 2) + lastActions[k - 5 - config.actions * 2..])
      {
        MaskNext(config, s, lastActions, k - 5 - config.actions * 2);
        obs := obs[k := 0.0];
      }
      assert Zeros(config.actions) + lastActions[config.actions..] == Zeros(config.actions);
    }

    method ComputeObservation(s: Sense)
      requires Valid() && Full(config, s)
      modifies this`first, this`observations, history, Arrays(filters)
      ensures Valid() && Value() == Observe(config, old(Value()), s)
    {
      hide RawObs, FreshFilters, Repeat, Shift, ClipAll, Room, Bank, Mems, Zeros;
      OneFrameFits(config);
      var obs := RawObs(config, s, lastActions);
      if first {
        obs := FirstFrame(s, obs);
        first := false;
      }
      assert obs == old(Frame(config, Value(), s));
      ShiftHistory(obs);
      observations := ClipAll(config.obsClip, history[..]);
    }

    // The filters start anew, and every slot shows the frame without its last actions.
    method FirstFrame(s: Sense, obs0: seq<real>) returns (obs: seq<real>)
      requires Valid() && Full(config, s) && obs0 == RawObs(config, s, lastActions)
      modifies history, Arrays(filters)
      ensures Owned() && obs == RawObs(config, s, Zeros(config.actions))
      ensures Mems(filters) == FreshFilters(config, jointPos) && history[..] == Repeat(obs, config.hist)
    {
      hide RawObs, FreshFilters, Repeat, Room, Bank, Mems, Zeros;
      InitFilters(config, filters, jointPos);
      obs := MaskActions(s, obs0);
      FillHistory(obs);
    }

    method ComputeActions(answer: seq<real>)
      requires Valid() && |answer| == config.actions
      modifies this`actions
      ensures Valid() && Value() == old(Value()).(actions := ClipAll(config.actClip, answer))
    {
      for i := 0 to config.actions
        invariant |actions| == config.actions && forall k :: 0 <= k < i ==> actions[k] == answer[k]
      {
        actions := actions[i := answer[i]];
      }
      for i := 0 to config.actions
        invariant |actions| == config.actions
        invariant forall k :: 0 <= k < i ==> actions[k] == Clip(config.actClip, answer[k])
        invariant forall k :: i <= k < config.actions ==> actions[k] == answer[k]
      {
        hide Clip;
        actions := actions[i := Clip(config.actClip, actions[i])];
      }
      assert actions == ClipAll(config.actClip, answer);
    }

    method UpdateStep(s: Sense, answer: seq<real>)
      requires Valid() && Full(config, s) && |answer| == config.actions
      modifies this, history, Arrays(filters)
      ensures Valid() && Value() == Update(config, old(Value()), s, answer)
    {
      hide Observe, ClipAll, Bank, Mems, Arrays, Room;
      jointPos, jointVel := s.pos, s.vel;
      if loopCount % config.decimation == 0 {
        ComputeObservation(s);
        ComputeActions(answer);
      }
      loopCount := loopCount + 1;
    }

    method GetJointCmdData() returns (cmds: seq<JointCmd>)
      requires Valid()
      modifies this`lastActions, filters, Arrays(filters)
      ensures Valid() && Value() == AfterCommand(config, old(Value()))
      ensures cmds == Commands(config, old(Value()))
    {
      cmds := CommandAll(Value());
    }

    // The first i joints' filters and last actions are done, the others as they were in r.
    ghost predicate CommandedTo(r: Rl, i: nat)
      requires Sized(config) && Fits(config, r) && i <= config.actions
      reads this, filters, Arrays(filters)
    {
      && Owned() && r.actions == actions && r.pos == jointPos && r.vel == jointVel
      && |lastActions| == config.actions && lastActions[..i] == actions[..i]
      && Mems(filters) == AfterCommand(config, r).filters[..i] + r.filters[i..]
    }

    lemma CommandStart(r: Rl)
      requires Valid() && r == Value()
      ensures CommandedTo(r, 0)
    {
    }

    method CommandAll(ghost r: Rl) returns (cmds: seq<JointCmd>)
      requires Valid() && r == Value()
      modifies this`lastActions, filters, Arrays(filters)
      ensures CommandedTo(r, config.actions) && cmds == Commands(config, r)
    {
      hide CommandedTo, Cmd, Bank, Mems, Room, Arrays;
      cmds := [];
      CommandStart(r);
      for i := 0 to config.actions
        invariant CommandedTo(r, i) && |cmds| == i && forall k :: 0 <= k < i ==> cmds[k] == Cmd(config, r, k)
      {
        var cmd := CommandNext(i, r);
        cmds := cmds + [cmd];
      }
    }

    method CommandNext(i: nat, ghost r: Rl) returns (cmd: JointCmd)
      requires Sized(config) && Fits(config, r) && i < config.actions && CommandedTo(r, i)
      modifies this`lastActions, filters, Arrays(filters)
      ensures CommandedTo(r, i + 1) && cmd == Cmd(config, r, i)
    {
      ghost var done := AfterCommand(config, r).filters;
      assert done[i] == LP.Step(Coeffs(), r.filters[i], Fed(config, r, i));
      hide AfterCommand, Cmd, Fed, Mems, Bank, LP.Step, Coeffs;
      cmd := CommandOf(i, r, done);
      lastActions := lastActions[i := actions[i]];
    }

    method CommandOf(i: nat, ghost r: Rl, ghost done: seq<LP.Memory>) returns (cmd: JointCmd)
      requires Owned() && i < config.actions && Fits(config, r) && |done| == config.actions
      requires r.actions == actions && r.pos == jointPos && r.vel == jointVel
      requires done[i] == LP.Step(Coeffs(), r.filters[i], Fed(config, r, i))
      requires Mems(filters) == done[..i] + r.filters[i..]
      modifies filters, Arrays(filters)
      ensures Owned() && Mems(filters) == done[..i + 1] + r.filters[i + 1..]
      ensures cmd == Cmd(config, r, i)
    {
      hide Bank, Mems;
      var c := config;
      var wanted := actions[i] * c.actionScale + c.initState[i];
      NextDone(done, r.filters, i);
      assert Mems(filters)[i] == r.filters[i];
      assert wanted == Target(c, r, i);
      if c.names[i] !in c.inParallel {
        assert wanted == Fed(c, r, i);
        var y := Feed(filters, i, wanted);
        cmd := PD.JointCmd(c.names[i], y, 0.0, 0.0, c.damping[i], c.stiffness[i]);
      } else {
        var torque := c.stiffness[i] * (wanted - jointPos[i]) + c.damping[i] * (0.0 - jointVel[i]);
        assert torque == Fed(c, r, i);
        var y := Feed(filters, i, torque);
        cmd := PD.JointCmd(c.names[i], 0.0, 0.0, y, 0.0, 0.0);
      }
    }
  }

  lemma ShiftByEntry(h: seq<real>, h': seq<real>, frame: seq<real>)
    requires |frame| <= |h| == |h'|
    requires forall j :: 0 <= j < |h| - |frame| ==> h'[j] == h[j + |frame|]
    requires forall j :: 0 <= j < |frame| ==> h'[|h| - |frame| + j] == frame[j]
    ensures h' == Shift(h, frame)
  {
  }

  lemma MaskNext(c: Config, s: Sense, last: seq<real>, k: nat)
    requires Sized(c) && Full(c, s) && |last| == c.actions && k < c.actions
    ensures RawObs(c, s, Zeros(k) + last[k..])[5 + c.actions * 2 + k := 0.0]
            == RawObs(c, s, Zeros(k + 1) + last[k + 1..])
  {
  }

  lemma SlotRoom(size: nat, n: nat, hist: nat)
    requires n < hist
    ensures size * n + size == size * (n + 1) <= size * hist
  {
  }
}
