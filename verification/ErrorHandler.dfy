/** The bus supervisor: once every 100 ms it looks at the working counter, nudges slaves that
    left the operational state, counts bad ticks, and latches a lost link. */
module BusSupervisor {

  const SAFE_OP := 4
  const OPERATIONAL := 8
  const FAULT := 16
  const ACK := 16
  const WKC_ERROR_CNT := 10

  // Slaves are numbered from 1.
  datatype Id = Id(number: int)

  // One entry of the master's slave table.
  datatype Slave = Slave(state: int, group: int, lost: bool)

  // What the EtherCAT master library answers about one slave in one tick: the state it reads,
  // and for each service the handler may call, whether it succeeded and the state it left.
  datatype Answer = Answer(read: int, reconfigured: bool, reconfigState: int, checked: int,
                           recovered: bool, recoverState: int)

  datatype Nudge = Nothing | Wrote(state: int)

  datatype Outcome = Outcome(slave: Slave, check: bool, nudge: Nudge)

  // The part for a slave of group 0 that is not operational.
  function Repair(s: Slave, a: Answer): Outcome {
    if s.state == SAFE_OP + FAULT then Outcome(s.(state := SAFE_OP + ACK), true, Wrote(SAFE_OP + ACK))
    else if s.state == SAFE_OP then Outcome(s.(state := OPERATIONAL), true, Wrote(OPERATIONAL))
    else if s.state > 0 then
      Outcome(s.(state := a.reconfigState, lost := s.lost && !a.reconfigured), true, Nothing)
    else if !s.lost then Outcome(s.(state := a.checked, lost := a.checked == 0), true, Nothing)
    else Outcome(s, true, Nothing)
  }

  function Revive(s: Slave, a: Answer): Slave {
    if !s.lost then s
    else if s.state == 0 then s.(state := a.recoverState, lost := !a.recovered)
    else s.(lost := false)
  }

  // One slave of one bad tick.
  function Handle(s: Slave, a: Answer): Outcome {
    var read := s.(state := a.read);
    var o := if read.group == 0 && read.state != OPERATIONAL then Repair(read, a)
             else Outcome(read, false, Nothing);
    o.(slave := Revive(o.slave, a))
  }

  // The handler's memory; `nodes` holds the state each driver node was last told.
  datatype Memory = Memory(latched: bool, count: int, check: bool, slaves: map<Id, Slave>, nodes: map<Id, int>)

  // The counter is read twice in a tick: for resuming, then for judging.
  datatype Input = Input(wkcResume: int, wkcJudge: int, answers: map<Id, Answer>)

  predicate Covered(m: Memory, i: Input) {
    m.nodes.Keys <= m.slaves.Keys <= i.answers.Keys && Id(0) !in m.nodes
  }

  function Refreshed(slaves: map<Id, Slave>, answers: map<Id, Answer>): (r: map<Id, Slave>)
    requires slaves.Keys <= answers.Keys
    ensures r.Keys == slaves.Keys
  {
    map id | id in slaves :: slaves[id].(state := answers[id].read)
  }

  predicate Waits(m: Memory, expected: int, i: Input) {
    m.latched && i.wkcResume != expected
  }

  predicate Bad(m: Memory, expected: int, i: Input) {
    i.wkcJudge < expected || m.check
  }

  function Repaired(m: Memory, i: Input): Memory
    requires Covered(m, i)
  {
    m.(check := exists id :: id in m.nodes && Handle(m.slaves[id], i.answers[id]).check,
       slaves := map id | id in m.slaves ::
                   if id in m.nodes then Handle(m.slaves[id], i.answers[id]).slave
                   else m.slaves[id].(state := i.answers[id].read),
       nodes := map id | id in m.nodes :: Handle(m.slaves[id], i.answers[id]).slave.state)
  }

  function Step(m: Memory, expected: int, i: Input): (m': Memory)
    requires Covered(m, i)
    ensures m'.nodes.Keys == m.nodes.Keys && m'.slaves.Keys == m.slaves.Keys
  {
    if Waits(m, expected, i) then m
    else
      var count := if m.latched then 0 else m.count;
      if Bad(m, expected, i) then Repaired(m, i).(count := count + 1, latched := count + 1 >= WKC_ERROR_CNT)
      else m.(count := 0, latched := false)
  }

  // What the tick asks of each driver node's slave.
  function Nudges(m: Memory, expected: int, i: Input): map<Id, Nudge>
    requires Covered(m, i)
  {
    map id | id in m.nodes ::
      if Waits(m, expected, i) || !Bad(m, expected, i) then Nothing else Handle(m.slaves[id], i.answers[id]).nudge
  }

  // The nodes in `done` have been handled, the others only read.
  ghost predicate PartRepaired(was: Memory, i: Input, done: seq<Id>, now: Memory, nudges: map<Id, Nudge>)
    requires Covered(was, i)
  {
    && now.nodes.Keys == was.nodes.Keys && now.slaves.Keys == was.slaves.Keys
    && now.latched == was.latched && now.count == was.count
    && (forall id :: id in done ==> id in was.nodes)
    && (now.check <==> exists id :: id in done && Handle(was.slaves[id], i.answers[id]).check)
    && (forall id :: id in was.slaves ==>
          now.slaves[id] == if id in done then Handle(was.slaves[id], i.answers[id]).slave
                            else was.slaves[id].(state := i.answers[id].read))
    && (forall id :: id in was.nodes ==>
          now.nodes[id] == if id in done then Handle(was.slaves[id], i.answers[id]).slave.state else was.nodes[id])
    && nudges == map id | id in done :: Handle(was.slaves[id], i.answers[id]).nudge
  }

  lemma PartNext(was: Memory, i: Input, done: seq<Id>, id: Id, before: Memory, nudges: map<Id, Nudge>,
                 now: Memory, nudge: Nudge)
    requires Covered(was, i) && PartRepaired(was, i, done, before, nudges) && id in was.nodes
    requires var o := Handle(was.slaves[id], i.answers[id]);
             && now == before.(check := before.check || o.check, slaves := before.slaves[id := o.slave],
                               nodes := before.nodes[id := o.slave.state])
             && nudge == o.nudge
    ensures PartRepaired(was, i, done + [id], now, nudges[id := nudge])
  {
    hide Handle;
  }

  lemma PartDone(was: Memory, i: Input, done: seq<Id>, now: Memory, nudges: map<Id, Nudge>)
    requires Covered(was, i) && PartRepaired(was, i, done, now, nudges)
    requires forall id :: id in done <==> id in was.nodes
    ensures now == Repaired(was, i)
    ensures nudges == map id | id in was.nodes :: Handle(was.slaves[id], i.answers[id]).nudge
  {
    hide Handle;
  }

  lemma PartStart(was: Memory, i: Input)
    requires Covered(was, i)
    ensures PartRepaired(was, i, [], was.(check := false, slaves := Refreshed(was.slaves, i.answers)), map[])
  {
  }

  class ErrorHandler {
    const expected: int
    const order: seq<Id>
    var latched: bool
    var count: int
    var check: bool
    var slaves: map<Id, Slave>
    var nodes: map<Id, int>

    ghost function Value(): Memory
      reads this
    {
      Memory(latched, count, check, slaves, nodes)
    }

    // The order in which the node table happens to be walked.
    ghost predicate Walks()
      reads this`nodes
    {
      && (forall id :: id in order <==> id in nodes)
      && (forall i, j :: 0 <= i < j < |order| ==> order[i] != order[j])
    }

    constructor (expected: int, order: seq<Id>, slaves: map<Id, Slave>, nodes: map<Id, int>)
      ensures this.expected == expected && this.order == order && Value() == Memory(false, 0, false, slaves, nodes)
    {
      this.expected, this.order, this.slaves, this.nodes := expected, order, slaves, nodes;
      latched, count, check := false, 0, false;
    }

    // Id 0 stands for every node.
    method UpdateSlaveState(state: int, id: Id)
      requires Walks() && (id != Id(0) ==> id in nodes)
      modifies this`nodes
      ensures nodes == if id != Id(0) then old(nodes)[id := state] else map n | n in old(nodes) :: state
    {
      if id != Id(0) {
        if state == nodes[id] {
          return;
        }
        nodes := nodes[id := state];
      } else {
        UpdateEvery(state);
      }
    }

    method UpdateEvery(state: int)
      requires Walks()
      modifies this`nodes
      ensures nodes == map n | n in old(nodes) :: state
    {
      for i := 0 to |order|
        invariant nodes.Keys == old(nodes).Keys
        invariant forall n :: n in old(nodes) ==> nodes[n] == if n in order[..i] then state else old(nodes)[n]
      {
        assert order[i] in order && order[..i + 1] == order[..i] + [order[i]];
        if state != nodes[order[i]] {
          nodes := nodes[order[i] := state];
        }
      }
      assert order[..|order|] == order;
    }

    // One node's turn in a bad tick; `s` is the table's entry before the tick.
    method HandleNode(id: Id, a: Answer, ghost s: Slave) returns (nudge: Nudge)
      requires Walks() && id in slaves && id in nodes && id != Id(0) && slaves[id] == s.(state := a.read)
      modifies this`check, this`slaves, this`nodes
      ensures check == (old(check) || Handle(s, a).check)
      ensures slaves == old(slaves)[id := Handle(s, a).slave]
      ensures nodes == old(nodes)[id := Handle(s, a).slave.state]
      ensures nudge == Handle(s, a).nudge
    {
      nudge := Nothing;
      var e := slaves[id];
      if e.group == 0 && e.state != OPERATIONAL {
        check := true;
        if e.state == SAFE_OP + FAULT {
          e := e.(state := SAFE_OP + ACK);
          nudge := Wrote(e.state);
        } else if e.state == SAFE_OP {
          e := e.(state := OPERATIONAL);
          nudge := Wrote(e.state);
        } else if e.state > 0 {
          e := e.(state := a.reconfigState);
          if a.reconfigured {
            e := e.(lost := false);
          }
        } else if !e.lost {
          e := e.(state := a.checked);
          if e.state == 0 {
            e := e.(lost := true);
          }
        }
      }
      if e.lost {
        if e.state == 0 {
          e := e.(state := a.recoverState);
          if a.recovered {
            e := e.(lost := false);
          }
        } else {
          e := e.(lost := false);
        }
      }
      slaves := slaves[id := e];
      UpdateSlaveState(e.state, id);
    }

    method RepairNth(i: Input, k: nat, ghost was: Memory, nudges0: map<Id, Nudge>) returns (nudges: map<Id, Nudge>)
      requires Covered(was, i) && Walks() && k < |order| && PartRepaired(was, i, order[..k], Value(), nudges0)
      modifies this`check, this`slaves, this`nodes
      ensures Walks() && PartRepaired(was, i, order[..k] + [order[k]], Value(), nudges)
    {
      var id := order[k];
      ghost var before := Value();
      assert id in order && id !in order[..k];
      var nudge := HandleNode(id, i.answers[id], was.slaves[id]);
      PartNext(was, i, order[..k], id, before, nudges0, Value(), nudge);
      nudges := nudges0[id := nudge];
    }

    // Whatever the order, every node is handled as if it were alone.
    method RepairAll(i: Input) returns (nudges: map<Id, Nudge>)
      requires Walks() && Covered(Value(), i)
      modifies this`check, this`slaves, this`nodes
      ensures Value() == Repaired(old(Value()), i)
      ensures nudges == map id | id in old(nodes) :: Handle(old(slaves)[id], i.answers[id]).nudge
    {
      hide Repaired, PartRepaired, Handle;
      ghost var was := Value();
      PartStart(was, i);
      check := false;
      slaves := Refreshed(slaves, i.answers);
      nudges := map[];
      for k := 0 to |order|
        invariant Walks() && PartRepaired(was, i, order[..k], Value(), nudges)
      {
        assert order[..k + 1] == order[..k] + [order[k]];
        nudges := RepairNth(i, k, was, nudges);
      }
      assert order[..|order|] == order;
      PartDone(was, i, order, Value(), nudges);
    }

    method TickOnce(i: Input) returns (nudges: map<Id, Nudge>)
      requires Walks() && Covered(Value(), i)
      modifies this
      ensures Value() == Step(old(Value()), expected, i)
      ensures nudges == Nudges(old(Value()), expected, i)
    {
      hide Handle;
      nudges := map id | id in nodes :: Nothing;
      if latched {
        if i.wkcResume != expected {
          return;
        }
        latched := false;
        count := 0;
      }
      if i.wkcJudge < expected || check {
        nudges := RepairAll(i);
        count := count + 1;
        if count >= WKC_ERROR_CNT {
          latched := true;
        }
      } else {
        count := 0;
      }
    }
  }

  // ---------------------------------------------------------------- lost slaves

  // Nothing is heard of the slave in this tick: it reads as gone, or its configuring failed and
  // left it so.
  predicate Silent(s: Slave, a: Answer) {
    if s.group == 0 && a.read != OPERATIONAL && a.read != SAFE_OP && a.read != SAFE_OP + FAULT && a.read > 0
    then a.reconfigState == 0 && !a.reconfigured
    else a.read == 0 && (s.group == 0 && !s.lost ==> a.checked == 0)
  }

  /** A slave counts as lost after a bad tick exactly when nothing was heard of it, recovering it
      failed, and it was lost before or read as gone in the group that is looked after. */
  lemma LostExactly(s: Slave, a: Answer)
    requires a.read >= 0
    ensures Handle(s, a).slave.lost <==>
            Silent(s, a) && !a.recovered && (s.lost || (s.group == 0 && a.read == 0))
  {
  }

  /** After a bad tick every driver node has been told the state its slave's entry holds, and a
      slave outside group 0, an operational one, or one that reads as gone is never written. */
  lemma ToldAndSpared(m: Memory, i: Input, id: Id)
    requires Covered(m, i) && id in m.nodes
    ensures var r := Repaired(m, i); r.nodes[id] == r.slaves[id].state
    ensures m.slaves[id].group != 0 || i.answers[id].read == OPERATIONAL || i.answers[id].read == 0 ==>
              Handle(m.slaves[id], i.answers[id]).nudge == Nothing
    ensures Repaired(m, i).check <==>
            exists k :: k in m.nodes && m.slaves[k].group == 0 && i.answers[k].read != OPERATIONAL
  {
    CheckOf(m, i);
  }

  lemma CheckOf(m: Memory, i: Input)
    requires Covered(m, i)
    ensures forall k :: k in m.nodes ==>
              (Handle(m.slaves[k], i.answers[k]).check <==> m.slaves[k].group == 0 && i.answers[k].read != OPERATIONAL)
  {
  }

  // ---------------------------------------------------------------- the latch

  function Start(slaves: map<Id, Slave>, nodes: map<Id, int>): Memory {
    Memory(false, 0, false, slaves, nodes)
  }

  predicate AllCovered(m: Memory, ins: seq<Input>) {
    forall k :: 0 <= k < |ins| ==> Covered(m, ins[k])
  }

  function Run(m: Memory, expected: int, ins: seq<Input>): (m': Memory)
    requires AllCovered(m, ins)
    ensures m'.nodes.Keys == m.nodes.Keys && m'.slaves.Keys == m.slaves.Keys
  {
    if ins == [] then m else Step(Run(m, expected, ins[..|ins| - 1]), expected, ins[|ins| - 1])
  }

  // What became of a tick: Wait changes nothing, Resumed is a bad tick that ends a latch.
  datatype Kind = Wait | Good | BadTick | Resumed

  function KindOf(m: Memory, expected: int, i: Input): Kind {
    if Waits(m, expected, i) then Wait
    else if !Bad(m, expected, i) then Good
    else if m.latched then Resumed
    else BadTick
  }

  function Kinds(m: Memory, expected: int, ins: seq<Input>): (ks: seq<Kind>)
    requires AllCovered(m, ins)
    ensures |ks| == |ins|
  {
    if ins == [] then []
    else Kinds(m, expected, ins[..|ins| - 1])
         + [KindOf(Run(m, expected, ins[..|ins| - 1]), expected, ins[|ins| - 1])]
  }

  // The last n ticks are bad without a break, and nothing before belongs to the same streak.
  ghost predicate Streak(ks: seq<Kind>, n: nat) {
    && n <= |ks|
    && (forall k :: |ks| - n <= k < |ks| ==> ks[k] == BadTick || (ks[k] == Resumed && k == |ks| - n))
    && (n == |ks| || (n > 0 && ks[|ks| - n] == Resumed) || ks[|ks| - n - 1] == Good)
  }

  // Ten bad ticks without a break, then only waiting.
  ghost predicate LostAt(ks: seq<Kind>, t: nat) {
    && t + WKC_ERROR_CNT <= |ks|
    && (ks[t] == BadTick || ks[t] == Resumed)
    && (forall k :: t < k < t + WKC_ERROR_CNT ==> ks[k] == BadTick)
    && (forall k :: t + WKC_ERROR_CNT <= k < |ks| ==> ks[k] == Wait)
  }

  lemma StreakGrows(ks: seq<Kind>, n: nat)
    requires Streak(ks, n)
    ensures Streak(ks + [BadTick], n + 1)
  {
  }

  lemma StreakRestarts(ks: seq<Kind>, k: Kind)
    requires k == Good || k == Resumed
    ensures Streak(ks + [k], if k == Good then 0 else 1)
    ensures forall t :: !LostAt(ks + [k], t)
  {
  }

  // A streak has only one length.
  lemma StreakUnique(ks: seq<Kind>, n: nat, t: nat)
    requires Streak(ks, n) && LostAt(ks, t) && t + WKC_ERROR_CNT == |ks|
    ensures n >= WKC_ERROR_CNT
  {
  }

  // The link counts as lost exactly when the counter is ten; an unlatched counter is the
  // length of the current streak; the link is lost exactly when ten bad ticks came without a
  // break and only waiting since.
  ghost predicate LatchInv(m: Memory, ks: seq<Kind>) {
    && 0 <= m.count <= WKC_ERROR_CNT
    && (m.latched <==> m.count == WKC_ERROR_CNT)
    && (!m.latched ==> Streak(ks, m.count))
    && (m.latched <==> exists t :: LostAt(ks, t))
  }

  /** Flag and counter mean just that in every state any run of ticks can reach. */
  lemma {:induction false} LatchExactly(slaves: map<Id, Slave>, nodes: map<Id, int>, expected: int, ins: seq<Input>)
    requires AllCovered(Start(slaves, nodes), ins)
    ensures var m, ks := Run(Start(slaves, nodes), expected, ins), Kinds(Start(slaves, nodes), expected, ins);
            LatchInv(m, ks)
  {
    hide Repaired;
    var m0 := Start(slaves, nodes);
    if ins != [] {
      var rest := ins[..|ins| - 1];
      LatchExactly(slaves, nodes, expected, rest);
      LatchStep(Run(m0, expected, rest), Kinds(m0, expected, rest), expected, ins[|ins| - 1]);
    }
  }

  lemma LatchStep(m: Memory, ks: seq<Kind>, expected: int, i: Input)
    requires Covered(m, i) && LatchInv(m, ks)
    ensures LatchInv(Step(m, expected, i), ks + [KindOf(m, expected, i)])
  {
    var k := KindOf(m, expected, i);
    var m', ks' := Step(m, expected, i), ks + [k];
    hide Repaired;
    if k == Wait {
      var t :| LostAt(ks, t);
      assert LostAt(ks', t);
    } else if k == BadTick {
      StreakGrows(ks, m.count);
      if m.count + 1 == WKC_ERROR_CNT {
        assert LostAt(ks', |ks'| - WKC_ERROR_CNT);
      } else if t :| LostAt(ks', t) {
        assert ks'[|ks'| - 1] == BadTick;
        StreakUnique(ks', m.count + 1, t);
      }
    } else {
      StreakRestarts(ks, k);
    }
  }

  /** A latched handler does something in a tick exactly when the counter reads the expected
      value, neither less nor more. */
  lemma ResumesExactly(m: Memory, expected: int, i: Input)
    requires Covered(m, i) && m.latched && m.count == WKC_ERROR_CNT
    ensures Step(m, expected, i) == m <==> i.wkcResume != expected
    ensures i.wkcResume != expected ==> forall id :: id in m.nodes ==> Nudges(m, expected, i)[id] == Nothing
  {
  }

  // Over any run of other readings the handler changes nothing and asks nothing of any slave.
  lemma {:induction false} SilentWhileLatched(m: Memory, expected: int, ins: seq<Input>, k: nat)
    requires AllCovered(m, ins) && m.latched && k < |ins|
    requires forall j :: 0 <= j < |ins| ==> ins[j].wkcResume != expected
    ensures Run(m, expected, ins) == m
    ensures forall id :: id in m.nodes ==> Nudges(Run(m, expected, ins[..k]), expected, ins[k])[id] == Nothing
  {
    UnchangedWhileLatched(m, expected, ins);
    UnchangedWhileLatched(m, expected, ins[..k]);
  }

  lemma {:induction false} UnchangedWhileLatched(m: Memory, expected: int, ins: seq<Input>)
    requires AllCovered(m, ins) && m.latched
    requires forall j :: 0 <= j < |ins| ==> ins[j].wkcResume != expected
    ensures Run(m, expected, ins) == m
  {
    if ins != [] {
      UnchangedWhileLatched(m, expected, ins[..|ins| - 1]);
    }
  }

  // ---------------------------------------------------------------- slaves that obey

  // The slaves as they are, beside the handler's picture of them.
  datatype World = World(mem: Memory, bus: map<Id, int>)

  // A slave in error goes to safe-operational when acknowledged, and on when told to.
  function Respond(state: int, n: Nudge): int {
    if n == Wrote(SAFE_OP + ACK) && state == SAFE_OP + FAULT then SAFE_OP
    else if n == Wrote(OPERATIONAL) && state == SAFE_OP then OPERATIONAL
    else state
  }

  predicate Wired(w: World) {
    && w.bus.Keys == w.mem.nodes.Keys && w.mem.nodes.Keys <= w.mem.slaves.Keys && Id(0) !in w.mem.nodes
    && (forall id :: id in w.bus ==> w.mem.slaves[id].group == 0)
    && (forall id :: id in w.bus ==> w.bus[id] == SAFE_OP + FAULT || w.bus[id] == SAFE_OP || w.bus[id] == OPERATIONAL)
  }

  predicate AllOperational(w: World) {
    forall id :: id in w.bus ==> w.bus[id] == OPERATIONAL
  }

  predicate AnyFault(w: World) {
    exists id :: id in w.bus && w.bus[id] == SAFE_OP + FAULT
  }

  // The library reads the true states, and the counter falls short exactly while some slave
  // is not operational.
  predicate Honest(w: World, expected: int, i: Input)
    requires Wired(w)
  {
    && Covered(w.mem, i)
    && (forall id :: id in w.bus ==> i.answers[id].read == w.bus[id])
    && (if AllOperational(w) then i.wkcResume == i.wkcJudge == expected
        else i.wkcResume < expected && i.wkcJudge < expected)
  }

  lemma GroupKept(m: Memory, expected: int, i: Input, id: Id)
    requires Covered(m, i) && id in m.slaves
    ensures Step(m, expected, i).slaves[id].group == m.slaves[id].group
  {
  }

  function WorldStep(w: World, expected: int, i: Input): (w': World)
    requires Wired(w) && Honest(w, expected, i)
    ensures Wired(w')
  {
    var mem := Step(w.mem, expected, i);
    assert forall id :: id in w.bus ==> mem.slaves[id].group == 0 by {
      forall id | id in w.bus
        ensures mem.slaves[id].group == 0
      {
        GroupKept(w.mem, expected, i, id);
      }
    }
    World(mem, map id | id in w.bus :: Respond(w.bus[id], Nudges(w.mem, expected, i)[id]))
  }

  predicate HonestRun(w: World, expected: int, ins: seq<Input>)
    requires Wired(w)
    decreases |ins|
  {
    ins == [] || (Honest(w, expected, ins[0]) && HonestRun(WorldStep(w, expected, ins[0]), expected, ins[1..]))
  }

  function WorldRun(w: World, expected: int, ins: seq<Input>): (w': World)
    requires Wired(w) && HonestRun(w, expected, ins)
    ensures Wired(w')
    decreases |ins|
  {
    if ins == [] then w else WorldRun(WorldStep(w, expected, ins[0]), expected, ins[1..])
  }

  // Ticks until every slave is operational, when they are handled.
  function Level(w: World): nat {
    if AnyFault(w) then 2 else if AllOperational(w) then 0 else 1
  }

  // How many more ticks will be bad: one after the last repair, to see that all is well.
  function Need(w: World): nat {
    if Level(w) > 0 then Level(w) + 1 else if w.mem.check then 1 else 0
  }

  lemma HandledStep(w: World, expected: int, i: Input)
    requires Wired(w) && Honest(w, expected, i) && !w.mem.latched && Bad(w.mem, expected, i)
    ensures var w' := WorldStep(w, expected, i);
            && (w'.mem.check <==> Level(w) > 0)
            && Level(w') == (if Level(w) == 0 then 0 else Level(w) - 1)
            && w'.mem.count == w.mem.count + 1
            && forall id :: id in w.bus && w.bus[id] == OPERATIONAL ==> w'.mem.nodes[id] == OPERATIONAL
  {
    var w' := WorldStep(w, expected, i);
    forall id | id in w.bus
      ensures Handle(w.mem.slaves[id], i.answers[id]).check <==> w.bus[id] != OPERATIONAL
      ensures w'.bus[id] == if w.bus[id] == SAFE_OP + FAULT then SAFE_OP else OPERATIONAL
      ensures w.bus[id] == OPERATIONAL ==> Handle(w.mem.slaves[id], i.answers[id]).slave.state == OPERATIONAL
    {
      HandledSlave(w, expected, i, id);
    }
    if AnyFault(w) {
      var id :| id in w.bus && w.bus[id] == SAFE_OP + FAULT;
      assert w'.bus[id] == SAFE_OP;
    }
    assert !AnyFault(w');
  }

  lemma HandledSlave(w: World, expected: int, i: Input, id: Id)
    requires Wired(w) && Honest(w, expected, i) && !w.mem.latched && Bad(w.mem, expected, i) && id in w.bus
    ensures var o := Handle(w.mem.slaves[id], i.answers[id]);
            && (o.check <==> w.bus[id] != OPERATIONAL)
            && (w.bus[id] == OPERATIONAL ==> o.slave.state == OPERATIONAL)
            && WorldStep(w, expected, i).bus[id] == if w.bus[id] == SAFE_OP + FAULT then SAFE_OP else OPERATIONAL
  {
  }

  lemma NeedStep(w: World, expected: int, i: Input)
    requires Wired(w) && Honest(w, expected, i) && !w.mem.latched && w.mem.count >= 0
    ensures var w' := WorldStep(w, expected, i);
            if Need(w) > 0 then Need(w') == Need(w) - 1 && w'.mem.count == w.mem.count + 1
            else Need(w') == 0 && w'.mem.count == 0 && !w'.mem.latched && w'.mem.check == w.mem.check
  {
    assert Bad(w.mem, expected, i) <==> Need(w) > 0;
    if Need(w) > 0 {
      HandledStep(w, expected, i);
    } else {
      var w' := WorldStep(w, expected, i);
      assert w'.bus == w.bus;
    }
  }

  /** When the slaves obey and there is still room in the counter, no run latches, and once the
      needed ticks are over every slave is operational and the counter is back at zero; */
  lemma {:induction false} RestoredInTime(w: World, expected: int, ins: seq<Input>)
    requires Wired(w) && HonestRun(w, expected, ins)
    requires !w.mem.latched && w.mem.count >= 0 && w.mem.count + Need(w) < WKC_ERROR_CNT
    ensures var w' := WorldRun(w, expected, ins);
            && !w'.mem.latched
            && (|ins| > Need(w) ==> AllOperational(w') && w'.mem.count == 0 && !w'.mem.check)
    decreases |ins|
  {
    if ins != [] {
      NeedStep(w, expected, ins[0]);
      hide Step, Nudges;
      RestoredInTime(WorldStep(w, expected, ins[0]), expected, ins[1..]);
    }
  }

  /** without that room the link is declared lost in the very tick that fills the counter. */
  lemma {:induction false} LatchesForLackOfRoom(w: World, expected: int, ins: seq<Input>)
    requires Wired(w) && HonestRun(w, expected, ins)
    requires !w.mem.latched && 0 <= w.mem.count < WKC_ERROR_CNT <= w.mem.count + Need(w)
    requires |ins| == WKC_ERROR_CNT - w.mem.count
    ensures WorldRun(w, expected, ins).mem.latched
    decreases |ins|
  {
    NeedStep(w, expected, ins[0]);
    var w' := WorldStep(w, expected, ins[0]);
    assert w'.mem.latched <==> w'.mem.count >= WKC_ERROR_CNT;
    hide Step, Nudges;
    if |ins| > 1 {
      LatchesForLackOfRoom(w', expected, ins[1..]);
    }
  }

  /** A latched handler waits for slaves that wait for it: unless all are operational already,
      nothing ever changes again. */
  lemma {:induction false} DeadlockOnceLatched(w: World, expected: int, ins: seq<Input>)
    requires Wired(w) && HonestRun(w, expected, ins) && w.mem.latched && !AllOperational(w)
    ensures WorldRun(w, expected, ins) == w
    decreases |ins|
  {
    if ins != [] {
      var w' := WorldStep(w, expected, ins[0]);
      assert w'.bus == w.bus;
      DeadlockOnceLatched(w, expected, ins[1..]);
    }
  }

  lemma {:induction false} OperationalStays(w: World, expected: int, ins: seq<Input>)
    requires Wired(w) && HonestRun(w, expected, ins) && AllOperational(w)
    ensures AllOperational(WorldRun(w, expected, ins))
    decreases |ins|
  {
    if ins != [] {
      var w' := WorldStep(w, expected, ins[0]);
      forall id | id in w.bus
        ensures w'.bus[id] == OPERATIONAL
      {
      }
      OperationalStays(w', expected, ins[1..]);
    }
  }

  /** From any unlatched state, obedient slaves are all operational after any two or more ticks
      exactly unless one of them is in error when the counter has a single tick left. */
  lemma RecoversExactly(w: World, expected: int, ins: seq<Input>)
    requires Wired(w) && HonestRun(w, expected, ins) && |ins| >= 2
    requires !w.mem.latched && 0 <= w.mem.count < WKC_ERROR_CNT
    ensures AllOperational(WorldRun(w, expected, ins)) <==> !(w.mem.count == WKC_ERROR_CNT - 1 && AnyFault(w))
  {
    var w1 := WorldStep(w, expected, ins[0]);
    NeedStep(w, expected, ins[0]);
    FirstTick(w, expected, ins[0]);
    hide Step, Nudges, Level, AnyFault;
    if AllOperational(w1) {
      OperationalStays(w1, expected, ins[1..]);
    } else if w1.mem.latched {
      DeadlockOnceLatched(w1, expected, ins[1..]);
    } else {
      var w2 := WorldStep(w1, expected, ins[1]);
      assert ins[1..][0] == ins[1];
      NeedStep(w1, expected, ins[1]);
      LevelZero(w2);
      OperationalStays(w2, expected, ins[1..][1..]);
    }
  }

  lemma LevelZero(w: World)
    ensures AllOperational(w) <==> Level(w) == 0
    ensures AnyFault(w) <==> Level(w) == 2
    ensures Level(w) <= 2
  {
  }

  lemma FirstTick(w: World, expected: int, i: Input)
    requires Wired(w) && Honest(w, expected, i) && !w.mem.latched && 0 <= w.mem.count < WKC_ERROR_CNT
    ensures var w' := WorldStep(w, expected, i);
            && (!AllOperational(w') ==> w'.mem.count == w.mem.count + 1)
            && (w'.mem.latched <==> w'.mem.count == WKC_ERROR_CNT)
            && (AllOperational(w') <==> !AnyFault(w))
  {
  }
}
