/** The mode state machine of the controller, the throttle in front of it, and the mode
    graph the robot ships with. */
module Modes {

  // Mode names N and trigger topics T are strings; only their equality matters.
  datatype State<N, T> = State(name: N, trigger: T, pre: seq<N>, controllers: seq<string>)

  // States in the order of the configuration file, whose keys are distinct.
  type Config<N, T> = seq<State<N, T>>

  ghost predicate DistinctNames<N, T>(cfg: Config<N, T>) {
    forall i, j :: 0 <= i < j < |cfg| ==> cfg[i].name != cfg[j].name
  }

  predicate Accepts<N(==), T(==)>(s: State<N, T>, trigger: T, current: N) {
    s.trigger == trigger && current in s.pre
  }

  datatype Option<T> = None | Some(value: T)

  // The first state of the file that the trigger can reach from here.
  function Fire<N(==), T(==)>(cfg: Config<N, T>, current: N, trigger: T): Option<State<N, T>> {
    if cfg == [] then None
    else if Accepts(cfg[0], trigger, current) then Some(cfg[0])
    else Fire(cfg[1..], current, trigger)
  }

  function Bucket<N(==), T(==)>(cfg: Config<N, T>, trigger: T): seq<State<N, T>> {
    if cfg == [] then []
    else (if cfg[0].trigger == trigger then [cfg[0]] else []) + Bucket(cfg[1..], trigger)
  }

  function BucketOf<N(==), T(==)>(buckets: map<T, seq<State<N, T>>>, trigger: T): seq<State<N, T>> {
    if trigger in buckets then buckets[trigger] else []
  }

  lemma BucketEmpty<N, T>(trigger: T)
    ensures Bucket<N, T>([], trigger) == []
  {
  }

  lemma BucketStep<N, T>(cfg: Config<N, T>, trigger: T)
    requires cfg != []
    ensures Bucket(cfg, trigger) == (if cfg[0].trigger == trigger then [cfg[0]] else []) + Bucket(cfg[1..], trigger)
  {
  }

  lemma {:induction false} BucketAppend<N, T>(cfg: Config<N, T>, s: State<N, T>, trigger: T)
    ensures Bucket(cfg + [s], trigger) == Bucket(cfg, trigger) + if s.trigger == trigger then [s] else []
  {
    if cfg == [] {
      assert cfg + [s] == [s] && [s][1..] == [];
      BucketEmpty<N, T>(trigger);
    } else {
      var rest := cfg[1..];
      assert (cfg + [s])[1..] == rest + [s] && (cfg + [s])[0] == cfg[0];
      BucketAppend(rest, s, trigger);
      BucketStep(cfg, trigger);
      BucketStep(cfg + [s], trigger);
    }
  }

  lemma {:induction false} FireInBucket<N, T>(cfg: Config<N, T>, current: N, trigger: T)
    ensures Fire(cfg, current, trigger) == Fire(Bucket(cfg, trigger), current, trigger)
  {
    if cfg != [] {
      FireInBucket(cfg[1..], current, trigger);
      var b := Bucket(cfg, trigger);
      if cfg[0].trigger == trigger {
        assert b[0] == cfg[0] && b[1..] == Bucket(cfg[1..], trigger);
      } else {
        assert b == Bucket(cfg[1..], trigger);
      }
    }
  }

  lemma {:induction false} FireFound<N, T>(cfg: Config<N, T>, current: N, trigger: T)
    ensures var r := Fire(cfg, current, trigger);
            match r
            case Some(s) => s in cfg && Accepts(s, trigger, current)
            case None => forall s :: s in cfg ==> !Accepts(s, trigger, current)
  {
    if cfg != [] {
      FireFound(cfg[1..], current, trigger);
    }
  }

  ghost predicate Indexes<N, T(!new)>(buckets: map<T, seq<State<N, T>>>, cfg: Config<N, T>) {
    forall t :: BucketOf(buckets, t) == Bucket(cfg, t)
  }

  lemma IndexNext<N, T(!new)>(buckets: map<T, seq<State<N, T>>>, cfg: Config<N, T>, s: State<N, T>)
    requires Indexes(buckets, cfg)
    ensures Indexes(buckets[s.trigger := BucketOf(buckets, s.trigger) + [s]], cfg + [s])
  {
    var after := buckets[s.trigger := BucketOf(buckets, s.trigger) + [s]];
    forall t
      ensures BucketOf(after, t) == Bucket(cfg + [s], t)
    {
      BucketAppend(cfg, s, t);
      assert BucketOf(buckets, t) == Bucket(cfg, t);
    }
  }

  lemma IndexTouch<N, T(!new)>(buckets: map<T, seq<State<N, T>>>, cfg: Config<N, T>, t: T)
    requires Indexes(buckets, cfg) && t !in buckets
    ensures Indexes(buckets[t := []], cfg)
  {
  }

  // The mode is one of the configuration's, and the controllers are its list.
  ghost predicate Consistent<N, T>(cfg: Config<N, T>, current: N, controllers: seq<string>) {
    exists s :: s in cfg && s.name == current && s.controllers == controllers
  }

  class StateMachine<N(==), T(==,!new)> {
    var buckets: map<T, seq<State<N, T>>>
    var current: N
    var controllers: seq<string>

    ghost predicate Runs(cfg: Config<N, T>)
      reads this
    {
      Indexes(buckets, cfg) && Consistent(cfg, current, controllers)
    }

    constructor (initial: N)
      ensures current == initial && buckets == map[] && controllers == []
    {
      current, buckets, controllers := initial, map[], [];
    }

    /** The first state of the file is current afterwards: it heads its own trigger's list. */
    method Init(cfg: Config<N, T>)
      requires cfg != []
      modifies this
      ensures Runs(cfg) && current == cfg[0].name && controllers == cfg[0].controllers
    {
      hide Bucket;
      buckets := map[];
      EmptyIndex<N, T>();
      for i := 0 to |cfg|
        invariant Indexes(buckets, cfg[..i])
      {
        IndexNext(buckets, cfg[..i], cfg[i]);
        assert cfg[..i + 1] == cfg[..i] + [cfg[i]];
        buckets := buckets[cfg[i].trigger := BucketOf(buckets, cfg[i].trigger) + [cfg[i]]];
      }
      assert cfg[..|cfg|] == cfg;
      FirstHeadsBucket(cfg);
      assert BucketOf(buckets, cfg[0].trigger) == Bucket(cfg, cfg[0].trigger);
      current := cfg[0].name;
      controllers := buckets[cfg[0].trigger][0].controllers;
      assert cfg[0] in cfg;
    }

    // Looking an unknown trigger up creates an empty list for it.
    method OnEvent(trigger: T, ghost cfg: Config<N, T>) returns (moved: bool)
      requires Runs(cfg)
      modifies this
      ensures Runs(cfg)
      ensures var r := Fire(cfg, old(current), trigger);
              && moved == r.Some?
              && current == (if moved then r.value.name else old(current))
              && controllers == (if moved then r.value.controllers else old(controllers))
    {
      hide Bucket;
      if trigger !in buckets {
        IndexTouch(buckets, cfg, trigger);
        buckets := buckets[trigger := []];
      }
      var states := buckets[trigger];
      assert states == BucketOf(buckets, trigger) == Bucket(cfg, trigger);
      FireInBucket(cfg, current, trigger);
      FireFound(cfg, current, trigger);
      BucketTriggers(cfg, trigger);
      for i := 0 to |states|
        invariant Fire(cfg, current, trigger) == Fire(states[i..], current, trigger)
        invariant current == old(current) && controllers == old(controllers)
        invariant Indexes(buckets, cfg)
      {
        assert states[i] in states && states[i..][1..] == states[i + 1..];
        if current in states[i].pre {
          current := states[i].name;
          controllers := states[i].controllers;
          MemberConsistent(cfg, states[i]);
          return true;
        }
      }
      moved := false;
    }
  }

  lemma MemberConsistent<N, T>(cfg: Config<N, T>, s: State<N, T>)
    requires s in cfg
    ensures Consistent(cfg, s.name, s.controllers)
  {
  }

  lemma EmptyIndex<N, T(!new)>()
    ensures Indexes<N, T>(map[], [])
  {
  }

  lemma FirstHeadsBucket<N, T>(cfg: Config<N, T>)
    requires cfg != []
    ensures var b := Bucket(cfg, cfg[0].trigger); b != [] && b[0] == cfg[0]
  {
  }

  lemma {:induction false} BucketTriggers<N, T>(cfg: Config<N, T>, trigger: T)
    ensures forall s :: s in Bucket(cfg, trigger) ==> s.trigger == trigger && s in cfg
  {
    if cfg != [] {
      BucketTriggers(cfg[1..], trigger);
    }
  }

  // ---------------------------------------------------------------- order of the file

  ghost predicate SameStates<N, T>(cfg: Config<N, T>, cfg': Config<N, T>) {
    multiset(cfg) == multiset(cfg')
  }

  // No two states that share a trigger can be entered from the same state.
  ghost predicate Unambiguous<N(!new), T>(cfg: Config<N, T>) {
    forall i, j, c :: 0 <= i < j < |cfg| && cfg[i].trigger == cfg[j].trigger && c in cfg[i].pre ==> c !in cfg[j].pre
  }

  ghost predicate OrderFree<N(!new), T(!new)>(cfg: Config<N, T>) {
    forall cfg', c, t :: SameStates(cfg, cfg') ==> Fire(cfg', c, t) == Fire(cfg, c, t)
  }

  lemma SameMembers<N, T>(cfg: Config<N, T>, cfg': Config<N, T>, s: State<N, T>)
    requires SameStates(cfg, cfg')
    ensures s in cfg <==> s in cfg'
  {
    assert s in cfg <==> s in multiset(cfg);
    assert s in cfg' <==> s in multiset(cfg');
  }

  lemma OnlyOneAccepts<N(!new), T>(cfg: Config<N, T>, s: State<N, T>, s': State<N, T>, c: N, t: T)
    requires Unambiguous(cfg) && s in cfg && s' in cfg && Accepts(s, t, c) && Accepts(s', t, c)
    ensures s == s'
  {
  }

  function ToFront<N, T>(cfg: Config<N, T>, i: nat): Config<N, T>
    requires i < |cfg|
  {
    [cfg[i]] + cfg[..i] + cfg[i + 1..]
  }

  lemma ToFrontSame<N, T>(cfg: Config<N, T>, i: nat)
    requires i < |cfg|
    ensures SameStates(cfg, ToFront(cfg, i))
  {
    assert cfg == cfg[..i] + [cfg[i]] + cfg[i + 1..];
  }

  /** What an event does is independent of the order of the states in the file exactly when
      the states sharing a trigger have disjoint predecessors. */
  lemma OrderCondition<N(!new), T(!new)>(cfg: Config<N, T>)
    requires DistinctNames(cfg)
    ensures OrderFree(cfg) <==> Unambiguous(cfg)
  {
    if Unambiguous(cfg) {
      forall cfg', c, t | SameStates(cfg, cfg')
        ensures Fire(cfg', c, t) == Fire(cfg, c, t)
      {
        FireFound(cfg, c, t);
        FireFound(cfg', c, t);
        var r, r' := Fire(cfg, c, t), Fire(cfg', c, t);
        if r.Some? {
          SameMembers(cfg, cfg', r.value);
        }
        if r'.Some? {
          SameMembers(cfg, cfg', r'.value);
        }
        if r.Some? && r'.Some? {
          OnlyOneAccepts(cfg, r.value, r'.value, c, t);
        }
      }
    }
    if OrderFree(cfg) {
      forall i, j, c | 0 <= i < j < |cfg| && cfg[i].trigger == cfg[j].trigger && c in cfg[i].pre
        ensures c !in cfg[j].pre
      {
        var t := cfg[i].trigger;
        ToFrontSame(cfg, i);
        ToFrontSame(cfg, j);
        assert Fire(ToFront(cfg, i), c, t) == Some(cfg[i]);
        assert Fire(ToFront(cfg, j), c, t) == Fire(cfg, c, t) == Some(cfg[i]);
        assert cfg[i].name != cfg[j].name;
      }
    }
  }

  // ---------------------------------------------------------------- runs and the shipped graph

  function After<N(==), T(==)>(cfg: Config<N, T>, current: N, trigger: T): N {
    match Fire(cfg, current, trigger)
    case Some(s) => s.name
    case None => current
  }

  // The modes gone through, the starting one first.
  function Trace<N(==), T(==)>(cfg: Config<N, T>, start: N, triggers: seq<T>): (tr: seq<N>)
    ensures |tr| == |triggers| + 1
  {
    if triggers == [] then [start]
    else
      var tr := Trace(cfg, start, triggers[..|triggers| - 1]);
      tr + [After(cfg, tr[|tr| - 1], triggers[|triggers| - 1])]
  }

  // The states of `area` can be entered only from `area` itself or through the gate.
  ghost predicate Gated<N, T>(cfg: Config<N, T>, area: set<N>, gate: N) {
    forall s, p :: s in cfg && s.name in area && p in s.pre ==> p in area || p == gate
  }

  // The run has been at the gate and has stayed out of `low` from then on.
  ghost predicate PassedSince<N>(tr: seq<N>, gate: N, low: set<N>) {
    exists i :: 0 <= i < |tr| && tr[i] == gate && forall j :: i <= j < |tr| ==> tr[j] !in low
  }

  /** Every run that is inside the gated area has come through the gate since it last was in
      any state of `low`. */
  lemma {:induction false} ThroughTheGate<N, T>(cfg: Config<N, T>, area: set<N>, gate: N, low: set<N>,
                                          start: N, triggers: seq<T>)
    requires Gated(cfg, area, gate) && area !! low && gate !in low && gate !in area && start !in area
    ensures var tr := Trace(cfg, start, triggers);
            tr[|tr| - 1] in area + {gate} ==> PassedSince(tr, gate, low)
  {
    var tr := Trace(cfg, start, triggers);
    var last := |tr| - 1;
    if tr[last] == gate {
      assert PassedSince(tr, gate, low);
    } else if triggers != [] && tr[last] in area {
      var rest := triggers[..|triggers| - 1];
      var tr' := Trace(cfg, start, rest);
      var c, t := tr'[|tr'| - 1], triggers[|triggers| - 1];
      ThroughTheGate(cfg, area, gate, low, start, rest);
      FireFound(cfg, c, t);
      assert c in area + {gate};
      var i :| 0 <= i < |tr'| && tr'[i] == gate && forall j :: i <= j < |tr'| ==> tr'[j] !in low;
      assert tr[i] == gate;
      assert forall j :: i <= j < |tr| ==> tr[j] !in low;
    }
  }

  ghost predicate RunsAlike<N, T(!new)>(cfg: Config<N, T>, cfg': Config<N, T>)
    requires cfg != [] && cfg' != []
  {
    forall ts: seq<T> :: Trace(cfg, cfg[0].name, ts) == Trace(cfg', cfg'[0].name, ts)
  }

  /** With disjoint predecessors two files of the same states run alike under every sequence of
      triggers exactly when they begin with the same mode: that is all their order decides. */
  lemma OrderDecidesOnlyTheStart<N(!new), T(!new)>(cfg: Config<N, T>, cfg': Config<N, T>)
    requires DistinctNames(cfg) && Unambiguous(cfg) && SameStates(cfg, cfg') && cfg != [] && cfg' != []
    ensures RunsAlike(cfg, cfg') <==> cfg[0].name == cfg'[0].name
  {
    OrderCondition(cfg);
    var none: seq<T> := [];
    assert Trace(cfg, cfg[0].name, none)[0] == cfg[0].name && Trace(cfg', cfg'[0].name, none)[0] == cfg'[0].name;
    if cfg[0].name == cfg'[0].name {
      forall ts: seq<T>
        ensures Trace(cfg, cfg[0].name, ts) == Trace(cfg', cfg'[0].name, ts)
      {
        SameTrace(cfg, cfg', cfg[0].name, ts);
      }
    }
  }

  lemma {:induction false} SameTrace<N(!new), T(!new)>(cfg: Config<N, T>, cfg': Config<N, T>, start: N, ts: seq<T>)
    requires OrderFree(cfg) && SameStates(cfg, cfg')
    ensures Trace(cfg, start, ts) == Trace(cfg', start, ts)
  {
    if ts != [] {
      SameTrace(cfg, cfg', start, ts[..|ts| - 1]);
    }
  }

  datatype Name = Idle | Keep | Zero | Stand | WalkLeg | WalkLegArm | StandPlan | KeepPlan | WalkLegPlan | Misspelt
  datatype Topic = IdleMode | KeepMode | ZeroMode | StandMode | WalkMode | WalkMode2 | PlanMode

  // The shipped robot_states; Misspelt is the name "wa_&_plan", which no state has.
  function Shipped(n: Name): State<Name, Topic>
    requires n != Misspelt
  {
    match n
    case Idle =>
      State(n, IdleMode, [Keep, StandPlan, KeepPlan, WalkLegPlan, Zero, Stand, WalkLeg, WalkLegArm], ["pd_idle"])
    case Keep =>
      State(n, KeepMode, [Idle, StandPlan, KeepPlan, Misspelt, Zero, Stand, WalkLeg, WalkLegArm], ["pd_keep"])
    case Zero => State(n, ZeroMode, [Idle, Keep, Stand, StandPlan], ["pd_zero"])
    case Stand =>
      State(n, StandMode, [Zero, StandPlan, KeepPlan, WalkLegPlan, WalkLeg, WalkLegArm], ["pd_zero", "pd_stand"])
    case WalkLeg =>
      State(n, WalkMode, [StandPlan, WalkLegPlan, Stand, WalkLegArm], ["pd_zero", "pd_stand", "rl_walk_leg"])
    case WalkLegArm =>
      State(n, WalkMode2, [StandPlan, WalkLegPlan, Stand, WalkLeg], ["pd_zero", "pd_stand", "rl_walk_leg_shoulder"])
    case StandPlan => State(n, PlanMode, [Stand, StandPlan], ["pd_zero", "pd_stand", "pd_plan"])
    case KeepPlan => State(n, PlanMode, [Keep, KeepPlan], ["pd_keep", "pd_plan"])
    case WalkLegPlan =>
      State(n, PlanMode, [WalkLeg, WalkLegPlan], ["pd_zero", "pd_stand", "rl_walk_leg", "pd_plan"])
  }

  const SHIPPED: Config<Name, Topic> :=
    [ Shipped(Idle), Shipped(Keep), Shipped(Zero), Shipped(Stand), Shipped(WalkLeg), Shipped(WalkLegArm),
      Shipped(StandPlan), Shipped(KeepPlan), Shipped(WalkLegPlan) ]

  lemma ShippedByName(i: nat)
    requires i < |SHIPPED|
    ensures SHIPPED[i].name != Misspelt && SHIPPED[i] == Shipped(SHIPPED[i].name)
  {
  }

  lemma ShippedPre(n: Name, c: Name)
    requires n != Misspelt && c in Shipped(n).pre
    ensures n in WALKING ==> c in WALKING || c == Stand
    ensures Shipped(n).trigger == PlanMode ==>
              match n case StandPlan => c in {Stand, StandPlan} case KeepPlan => c in {Keep, KeepPlan}
                      case _ => c in {WalkLeg, WalkLegPlan}
    ensures n == Keep ==> c != WalkLegPlan
  {
  }

  lemma SharedTrigger(m: Name, n: Name)
    requires m != Misspelt && n != Misspelt && m != n && Shipped(m).trigger == Shipped(n).trigger
    ensures Shipped(m).trigger == PlanMode
    ensures m in {StandPlan, KeepPlan, WalkLegPlan} && n in {StandPlan, KeepPlan, WalkLegPlan}
  {
  }

  const WALKING: set<Name> := {WalkLeg, WalkLegArm, WalkLegPlan, StandPlan}
  const RESTING: set<Name> := {Idle, Keep, Zero, KeepPlan}

  /** On the robot as shipped, no run walks, or plans while standing, without having stood
      since it last rested. */
  lemma WalkingNeedsStanding(triggers: seq<Topic>)
    ensures var tr := Trace(SHIPPED, Idle, triggers);
            tr[|tr| - 1] in WALKING ==> PassedSince(tr, Stand, RESTING)
  {
    hide Shipped;
    forall s, p | s in SHIPPED && s.name in WALKING && p in s.pre
      ensures p in WALKING || p == Stand
    {
      var i :| 0 <= i < |SHIPPED| && SHIPPED[i] == s;
      ShippedByName(i);
      ShippedPre(s.name, p);
    }
    ThroughTheGate(SHIPPED, WALKING, Stand, RESTING, Idle, triggers);
  }

  lemma ShippedNames()
    ensures DistinctNames(SHIPPED)
  {
  }

  lemma ShippedApart(i: nat, j: nat, c: Name)
    requires i < j < |SHIPPED| && SHIPPED[i].trigger == SHIPPED[j].trigger && c in SHIPPED[i].pre
    ensures c !in SHIPPED[j].pre
  {
    hide Shipped;
    ShippedNames();
    ShippedByName(i);
    ShippedByName(j);
    var m, n := SHIPPED[i].name, SHIPPED[j].name;
    SharedTrigger(m, n);
    ShippedPre(m, c);
    if c in Shipped(n).pre {
      ShippedPre(n, c);
    }
  }

  // The three planning states share a trigger and do not depend on their order in the file.
  lemma ShippedOrderFree()
    ensures DistinctNames(SHIPPED) && OrderFree(SHIPPED)
  {
    hide Shipped;
    ShippedNames();
    forall i, j, c | 0 <= i < j < |SHIPPED| && SHIPPED[i].trigger == SHIPPED[j].trigger && c in SHIPPED[i].pre
      ensures c !in SHIPPED[j].pre
    {
      ShippedApart(i, j, c);
    }
    OrderCondition(SHIPPED);
  }

  /** On the robot as shipped the hold trigger works in every mode but keep itself and, by a
      misspelt predecessor, planning a walk; */
  lemma HoldableModes(c: Name)
    requires c != Misspelt
    ensures Fire(SHIPPED, c, KeepMode).Some? <==> c != Keep && c != WalkLegPlan
    ensures Fire(SHIPPED, c, KeepMode).Some? ==> Fire(SHIPPED, c, KeepMode).value.name == Keep
  {
    hide Shipped;
    FireFound(SHIPPED, c, KeepMode);
    KeepState();
    assert SHIPPED[1] == Shipped(Keep) && SHIPPED[1] in SHIPPED;
    var r := Fire(SHIPPED, c, KeepMode);
    if r.Some? {
      var i :| 0 <= i < |SHIPPED| && SHIPPED[i] == r.value;
      ShippedByName(i);
      KeepTrigger(r.value.name);
    }
  }

  // from there the robot must pass another mode first, which the idle trigger offers.
  lemma CannotHoldWhilePlanningWalk()
    ensures Fire(SHIPPED, WalkLegPlan, KeepMode) == None
    ensures Trace(SHIPPED, WalkLegPlan, [IdleMode, KeepMode]) == [WalkLegPlan, Idle, Keep]
  {
    HoldableModes(WalkLegPlan);
    HoldableModes(Idle);
    assert Fire(SHIPPED, WalkLegPlan, IdleMode) == Some(Shipped(Idle));
    hide Shipped;
    assert [IdleMode, KeepMode][..1] == [IdleMode] && [IdleMode][..0] == [];
    assert Trace(SHIPPED, WalkLegPlan, [IdleMode]) == [WalkLegPlan, Idle];
  }

  lemma KeepState()
    ensures Shipped(Keep).name == Keep && Shipped(Keep).trigger == KeepMode
    ensures forall c :: c in Shipped(Keep).pre <==> c != Keep && c != WalkLegPlan
  {
  }

  lemma KeepTrigger(n: Name)
    requires n != Misspelt && Shipped(n).trigger == KeepMode
    ensures n == Keep
  {
  }
}

/** Mode triggers: each goes through a one-second throttle before the state machine sees it. */
module Triggers {
  import opened Modes

  // Nanoseconds; the throttle's milliseconds(1000) against the clock's resolution.
  const INTERVAL := 1_000_000_000

  datatype Port<N> = Port(last: int, current: N)

  // One trigger: the window is taken before the state machine is asked.
  function OnTrigger<N(==), T(==)>(cfg: Config<N, T>, p: Port<N>, now: int, topic: T): Port<N> {
    if now - p.last >= INTERVAL then Port(now, After(cfg, p.current, topic)) else p
  }

  predicate Fires<N(==), T(==)>(cfg: Config<N, T>, p: Port<N>, now: int, topic: T) {
    now - p.last >= INTERVAL && Fire(cfg, p.current, topic).Some?
  }

  class TriggerPort<N(==), T(==,!new)> {
    const machine: StateMachine<N, T>
    var last: int

    ghost function Value(): Port<N>
      reads this, machine
    {
      Port(last, machine.current)
    }

    constructor (machine: StateMachine<N, T>, now: int)
      ensures this.machine == machine && last == now
    {
      this.machine, last := machine, now;
    }

    method Throttler(now: int, interval: int) returns (pass: bool)
      modifies this
      ensures pass <==> now - old(last) >= interval
      ensures last == if pass then now else old(last)
    {
      var elapsed := now - last;
      if elapsed >= interval {
        last := now;
        return true;
      }
      pass := false;
    }

    // Answers whether the active controllers have to be restarted.
    method Trigger(now: int, topic: T, ghost cfg: Config<N, T>) returns (fired: bool)
      requires machine.Runs(cfg)
      modifies this, machine
      ensures machine.Runs(cfg)
      ensures Value() == OnTrigger(cfg, old(Value()), now, topic)
      ensures fired == Fires(cfg, old(Value()), now, topic)
      ensures machine.controllers == if fired then Fire(cfg, old(machine.current), topic).value.controllers
                                     else old(machine.controllers)
    {
      var pass := Throttler(now, INTERVAL);
      fired := false;
      if pass {
        fired := machine.OnEvent(topic, cfg);
      }
    }
  }

  datatype Press<T> = Press(now: int, topic: T)

  function RunPresses<N(==), T(==)>(cfg: Config<N, T>, p: Port<N>, evs: seq<Press<T>>): Port<N> {
    if evs == [] then p
    else var q := RunPresses(cfg, p, evs[..|evs| - 1]);
         OnTrigger(cfg, q, evs[|evs| - 1].now, evs[|evs| - 1].topic)
  }

  function Accepted<N(==), T(==)>(cfg: Config<N, T>, p: Port<N>, evs: seq<Press<T>>): nat {
    if evs == [] then 0
    else var rest := evs[..|evs| - 1];
         var ev := evs[|evs| - 1];
         Accepted(cfg, p, rest) + if Fires(cfg, RunPresses(cfg, p, rest), ev.now, ev.topic) then 1 else 0
  }

  ghost predicate Monotone<T>(start: int, evs: seq<Press<T>>) {
    && (forall i :: 0 <= i < |evs| ==> start <= evs[i].now)
    && (forall i, j :: 0 <= i < j < |evs| ==> evs[i].now <= evs[j].now)
  }

  /** n accepted mode changes take at least n seconds by the clock that stamped them, even if
      that clock is set back in between and whatever rejected presses came along. */
  lemma {:induction false} OneChangeASecond<N, T>(cfg: Config<N, T>, p: Port<N>, evs: seq<Press<T>>)
    ensures RunPresses(cfg, p, evs).last >= p.last + INTERVAL * Accepted(cfg, p, evs)
    ensures Accepted(cfg, p, evs) > 0 ==>
              exists i :: 0 <= i < |evs| && evs[i].now >= p.last + INTERVAL * Accepted(cfg, p, evs)
    ensures Accepted(cfg, p, evs) > 0 && Monotone(p.last, evs) ==>
              evs[|evs| - 1].now >= p.last + INTERVAL * Accepted(cfg, p, evs)
  {
    if evs != [] {
      var rest := evs[..|evs| - 1];
      OneChangeASecond(cfg, p, rest);
      var q, ev := RunPresses(cfg, p, rest), evs[|evs| - 1];
      if Accepted(cfg, p, rest) > 0 {
        var i :| 0 <= i < |rest| && rest[i].now >= p.last + INTERVAL * Accepted(cfg, p, rest);
        assert evs[i] == rest[i];
      }
    }
  }

  /** A press that the state machine rejects still takes the window: a valid one in the
      following second is lost. */
  lemma RejectedTakesWindow<N, T>(cfg: Config<N, T>, p: Port<N>, now: int, topic: T, later: int, next: T)
    requires now - p.last >= INTERVAL && Fire(cfg, p.current, topic) == None
    requires later < now + INTERVAL
    ensures var q := OnTrigger(cfg, p, now, topic);
            q == Port(now, p.current) && !Fires(cfg, q, later, next) && OnTrigger(cfg, q, later, next) == q
  {
  }
}
