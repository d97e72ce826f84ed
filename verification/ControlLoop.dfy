/** The control module's own state: the persistent command message that the active controllers
    overwrite every tick, the offsets taken out of the measured positions and put back into
    the published ones, and the callbacks that feed the controllers. */
module ControlLoop {
  import opened Modes
  import opened Triggers
  import PD = PdControl

  type JointCmd = PD.JointCmd
  type JointState = PD.JointState
  type Output = seq<JointCmd>

  // ---------------------------------------------------------------- the command message

  // A joint nobody listed is sent to slot 0, the value a fresh map entry gets.
  function SlotOf(cmdIndex: map<string, nat>, name: string): nat {
    if name in cmdIndex then cmdIndex[name] else 0
  }

  function OffsetOf(offsets: map<string, real>, name: string): real {
    if name in offsets then offsets[name] else 0.0
  }

  function Publish(offsets: map<string, real>, e: JointCmd): JointCmd {
    e.(position := e.position + OffsetOf(offsets, e.name))
  }

  // The last entry of one controller's output that goes to slot j.
  function LastEntry(cmdIndex: map<string, nat>, out: Output, j: nat): Option<JointCmd> {
    if out == [] then None
    else if SlotOf(cmdIndex, out[|out| - 1].name) == j then Some(out[|out| - 1])
    else LastEntry(cmdIndex, out[..|out| - 1], j)
  }

  // The entry of the last controller of one tick that has any for slot j.
  function LastOwner(cmdIndex: map<string, nat>, outs: seq<Output>, j: nat): Option<JointCmd> {
    if outs == [] then None
    else
      var e := LastEntry(cmdIndex, outs[|outs| - 1], j);
      if e.Some? then e else LastOwner(cmdIndex, outs[..|outs| - 1], j)
  }

  // Slot j after the ticks: from the most recent tick in which any controller owned it.
  function SlotAfter(cmdIndex: map<string, nat>, offsets: map<string, real>, initial: JointCmd,
                     ticks: seq<seq<Output>>, j: nat): JointCmd
  {
    if ticks == [] then initial
    else
      match LastOwner(cmdIndex, ticks[|ticks| - 1], j)
      case Some(e) => Publish(offsets, e)
      case None => SlotAfter(cmdIndex, offsets, initial, ticks[..|ticks| - 1], j)
  }

  ghost predicate Owns(cmdIndex: map<string, nat>, out: Output, j: nat) {
    exists e :: e in out && SlotOf(cmdIndex, e.name) == j
  }

  lemma {:induction false} LastEntryOwned(cmdIndex: map<string, nat>, out: Output, j: nat)
    ensures LastEntry(cmdIndex, out, j).Some? <==> Owns(cmdIndex, out, j)
  {
    if out != [] {
      LastEntryOwned(cmdIndex, out[..|out| - 1], j);
      assert out == out[..|out| - 1] + [out[|out| - 1]];
    }
  }

  lemma {:induction false} LastEntryAt(cmdIndex: map<string, nat>, out: Output, j: nat, i: nat)
    requires i < |out| && SlotOf(cmdIndex, out[i].name) == j
    requires forall k :: i < k < |out| ==> SlotOf(cmdIndex, out[k].name) != j
    ensures LastEntry(cmdIndex, out, j) == Some(out[i])
  {
    if i < |out| - 1 {
      LastEntryAt(cmdIndex, out[..|out| - 1], j, i);
    }
  }

  ghost predicate OwnedIn(cmdIndex: map<string, nat>, outs: seq<Output>, j: nat) {
    exists c :: 0 <= c < |outs| && Owns(cmdIndex, outs[c], j)
  }

  lemma {:induction false} LastOwnerExists(cmdIndex: map<string, nat>, outs: seq<Output>, j: nat)
    ensures LastOwner(cmdIndex, outs, j).Some? <==> OwnedIn(cmdIndex, outs, j)
  {
    hide LastEntry, Owns;
    if outs != [] {
      var rest, last := outs[..|outs| - 1], outs[|outs| - 1];
      LastOwnerExists(cmdIndex, rest, j);
      LastEntryOwned(cmdIndex, last, j);
      if c :| 0 <= c < |outs| && Owns(cmdIndex, outs[c], j) {
        assert c < |rest| ==> rest[c] == outs[c];
      }
      if c :| 0 <= c < |rest| && Owns(cmdIndex, rest[c], j) {
        assert rest[c] == outs[c];
      }
    }
  }

  lemma {:induction false} LastOwnerAt(cmdIndex: map<string, nat>, outs: seq<Output>, j: nat, c: nat)
    requires c < |outs| && Owns(cmdIndex, outs[c], j)
    requires forall d :: c < d < |outs| ==> !Owns(cmdIndex, outs[d], j)
    ensures LastOwner(cmdIndex, outs, j) == LastEntry(cmdIndex, outs[c], j)
  {
    hide LastEntry, Owns;
    LastEntryOwned(cmdIndex, outs[|outs| - 1], j);
    if c < |outs| - 1 {
      LastOwnerAt(cmdIndex, outs[..|outs| - 1], j, c);
    }
  }

  // Entry i of controller c in tick t is the last of the whole run that goes to slot j.
  ghost predicate LastWrite(cmdIndex: map<string, nat>, ticks: seq<seq<Output>>, j: nat, t: nat, c: nat, i: nat) {
    && t < |ticks| && c < |ticks[t]| && i < |ticks[t][c]|
    && SlotOf(cmdIndex, ticks[t][c][i].name) == j
    && (forall k :: i < k < |ticks[t][c]| ==> SlotOf(cmdIndex, ticks[t][c][k].name) != j)
    && (forall d :: c < d < |ticks[t]| ==> !Owns(cmdIndex, ticks[t][d], j))
    && (forall u :: t < u < |ticks| ==> !OwnedIn(cmdIndex, ticks[u], j))
  }

  /** Each slot holds what the last controller of the active list that owns the joint said in
      the most recent tick in which any did; */
  lemma {:induction false} LastWriterWins(cmdIndex: map<string, nat>, offsets: map<string, real>, initial: JointCmd,
                                          ticks: seq<seq<Output>>, j: nat, t: nat, c: nat, i: nat)
    requires LastWrite(cmdIndex, ticks, j, t, c, i)
    ensures SlotAfter(cmdIndex, offsets, initial, ticks, j) == Publish(offsets, ticks[t][c][i])
    ensures var slot, e := SlotAfter(cmdIndex, offsets, initial, ticks, j), ticks[t][c][i];
            && slot.name == e.name && slot.velocity == e.velocity && slot.effort == e.effort
            && slot.damping == e.damping && slot.stiffness == e.stiffness
            && slot.position == e.position + (if e.name in offsets then offsets[e.name] else 0.0)
  {
    var rest, last := ticks[..|ticks| - 1], ticks[|ticks| - 1];
    LastOwnerExists(cmdIndex, last, j);
    if t < |rest| {
      LastWriterWins(cmdIndex, offsets, initial, rest, j, t, c, i);
    } else {
      assert ticks[t][c][i] in ticks[t][c];
      LastOwnerAt(cmdIndex, last, j, c);
      LastEntryAt(cmdIndex, last[c], j, i);
    }
  }

  /** and its initial value if none ever did. */
  lemma {:induction false} UnownedKeepsInitial(cmdIndex: map<string, nat>, offsets: map<string, real>,
                                               initial: JointCmd, ticks: seq<seq<Output>>, j: nat)
    requires forall t :: 0 <= t < |ticks| ==> !OwnedIn(cmdIndex, ticks[t], j)
    ensures SlotAfter(cmdIndex, offsets, initial, ticks, j) == initial
  {
    if ticks != [] {
      LastOwnerExists(cmdIndex, ticks[|ticks| - 1], j);
      UnownedKeepsInitial(cmdIndex, offsets, initial, ticks[..|ticks| - 1], j);
    }
  }

  // ---------------------------------------------------------------- one tick

  // `joints` is the configured joint list, `probe` the entry of the joint-state index that the
  // callback looks at to tell whether the index has been filled.
  datatype Setup = Setup(cfg: Modes.Config<string, string>, confs: map<string, PD.Config>, joints: set<string>,
                         probe: string, cmdIndex: map<string, nat>, size: nat, offsets: map<string, real>)

  ghost predicate WellFormed(st: Setup) {
    && st.size > 0 && (forall n :: n in st.cmdIndex ==> st.cmdIndex[n] < st.size)
    && (forall k :: k in st.confs ==> PD.Sized(st.confs[k]))
    && (forall k, i :: k in st.confs && 0 <= i < |st.confs[k].names| ==> st.confs[k].names[i] in st.joints)
    && st.offsets.Keys <= st.joints && st.probe in st.joints
  }

  type Pds = map<string, PD.Pd>

  ghost predicate Ready(st: Setup, pds: Pds) {
    pds.Keys == st.confs.Keys && forall k :: k in pds ==> PD.Fits(st.confs[k], pds[k])
  }

  function WriteEntry(st: Setup, slots: seq<JointCmd>, e: JointCmd): (r: seq<JointCmd>)
    ensures |r| == |slots|
  {
    var j := SlotOf(st.cmdIndex, e.name);
    if j < |slots| then slots[j := Publish(st.offsets, e)] else slots
  }

  function MergeOne(st: Setup, slots: seq<JointCmd>, out: Output): (r: seq<JointCmd>)
    ensures |r| == |slots|
  {
    if out == [] then slots else WriteEntry(st, MergeOne(st, slots, out[..|out| - 1]), out[|out| - 1])
  }

  function Merge(st: Setup, slots: seq<JointCmd>, outs: seq<Output>): (r: seq<JointCmd>)
    ensures |r| == |slots|
  {
    if outs == [] then slots else MergeOne(st, Merge(st, slots, outs[..|outs| - 1]), outs[|outs| - 1])
  }

  lemma {:induction false} MergeOneSlot(st: Setup, slots: seq<JointCmd>, out: Output, j: nat)
    requires j < |slots|
    ensures MergeOne(st, slots, out)[j]
            == match LastEntry(st.cmdIndex, out, j) case Some(e) => Publish(st.offsets, e) case None => slots[j]
  {
    if out != [] {
      MergeOneSlot(st, slots, out[..|out| - 1], j);
    }
  }

  lemma {:induction false} MergeSlot(st: Setup, slots: seq<JointCmd>, outs: seq<Output>, j: nat)
    requires j < |slots|
    ensures Merge(st, slots, outs)[j]
            == match LastOwner(st.cmdIndex, outs, j) case Some(e) => Publish(st.offsets, e) case None => slots[j]
  {
    if outs != [] {
      var rest := outs[..|outs| - 1];
      MergeSlot(st, slots, rest, j);
      MergeOneSlot(st, Merge(st, slots, rest), outs[|outs| - 1], j);
    }
  }

  function NextOf(nexts: map<string, PD.Next>, k: string): PD.Next {
    if k in nexts then nexts[k] else PD.End
  }

  ghost predicate GoodNexts(st: Setup, nexts: map<string, PD.Next>) {
    forall k :: k in nexts && k in st.confs && nexts[k].Point? ==> |nexts[k].angles| == |st.confs[k].names|
  }

  function TickPds(st: Setup, pds: Pds, active: seq<string>, nexts: map<string, PD.Next>): (r: Pds)
    ensures r.Keys == pds.Keys
  {
    if active == [] then pds
    else
      var r := TickPds(st, pds, active[..|active| - 1], nexts);
      var k := active[|active| - 1];
      if k in r && k in st.confs then r[k := PD.Update(st.confs[k], r[k], NextOf(nexts, k))] else r
  }

  // The learned controllers' outputs are inputs here: see their own model.
  ghost function OutputOf(st: Setup, pds: Pds, k: string, others: map<string, Output>): Output
    requires WellFormed(st) && Ready(st, pds)
  {
    if k in pds then PD.Command(st.confs[k], pds[k]) else if k in others then others[k] else []
  }

  lemma {:induction false} TickReady(st: Setup, pds: Pds, active: seq<string>, nexts: map<string, PD.Next>)
    requires WellFormed(st) && Ready(st, pds) && GoodNexts(st, nexts)
    ensures Ready(st, TickPds(st, pds, active, nexts))
  {
    if active != [] {
      TickReady(st, pds, active[..|active| - 1], nexts);
    }
  }

  ghost function TickOuts(st: Setup, pds: Pds, active: seq<string>, nexts: map<string, PD.Next>,
                          others: map<string, Output>): (r: seq<Output>)
    requires WellFormed(st) && Ready(st, pds) && GoodNexts(st, nexts)
    ensures |r| == |active|
  {
    if active == [] then []
    else
      TickReady(st, pds, active, nexts);
      TickOuts(st, pds, active[..|active| - 1], nexts, others)
      + [OutputOf(st, TickPds(st, pds, active, nexts), active[|active| - 1], others)]
  }

  // ---------------------------------------------------------------- measured joint states

  function FillIndex(index: map<string, int>, names: seq<string>): (r: map<string, int>)
    ensures index.Keys <= r.Keys
  {
    if names == [] then index
    else FillIndex(index, names[..|names| - 1])[names[|names| - 1] := |names| - 1]
  }

  // The index is filled from a message as long as the probed entry is still unset.
  function IndexFor(st: Setup, index: map<string, int>, names: seq<string>): (r: map<string, int>)
    ensures index.Keys <= r.Keys
  {
    if st.probe in index && index[st.probe] == -1 then FillIndex(index, names) else index
  }

  // Every indexed joint has a place of its own in the message.
  ghost predicate Covers(index: map<string, int>, msg: JointState) {
    && |msg.position| == |msg.velocity| == |msg.effort|
    && (forall n :: n in index ==> 0 <= index[n] < |msg.position|)
    && (forall m, n :: m in index && n in index && m != n ==> index[m] != index[n])
  }

  ghost predicate Lowered(index: map<string, int>, offsets: map<string, real>, names: set<string>,
                          before: seq<real>, after: seq<real>)
    requires names <= offsets.Keys <= index.Keys
    requires forall n :: n in index ==> 0 <= index[n] < |before|
  {
    && |after| == |before|
    && forall n :: n in index ==>
         after[index[n]] == before[index[n]] - if n in names then offsets[n] else 0.0
  }

  ghost predicate Untouched(index: map<string, int>, before: seq<real>, after: seq<real>) {
    |after| == |before| && forall i :: 0 <= i < |before| && (forall n :: n in index ==> index[n] != i) ==>
                             after[i] == before[i]
  }

  /** The offsets are taken out of a copy of the message, one configured joint at a time. */
  method Compensate(index: map<string, int>, offsets: map<string, real>, msg: JointState) returns (temp: JointState)
    requires offsets.Keys <= index.Keys && Covers(index, msg)
    ensures temp == msg.(position := temp.position)
    ensures Lowered(index, offsets, offsets.Keys, msg.position, temp.position)
    ensures Untouched(index, msg.position, temp.position)
  {
    var position := msg.position;
    var todo := offsets.Keys;
    while todo != {}
      invariant todo <= offsets.Keys
      invariant Lowered(index, offsets, offsets.Keys - todo, msg.position, position)
      invariant Untouched(index, msg.position, position)
    {
      var n :| n in todo;
      todo := todo - {n};
      position := position[index[n] := position[index[n]] - offsets[n]];
    }
    temp := msg.(position := position);
    assert offsets.Keys - todo == offsets.Keys;
  }

  // ---------------------------------------------------------------- runs

  ghost function OffsetAt(index: map<string, int>, offsets: map<string, real>, i: int): real {
    if exists n :: n in offsets && n in index && index[n] == i
    then var n :| n in offsets && n in index && index[n] == i; offsets[n]
    else 0.0
  }

  ghost function Compensated(index: map<string, int>, offsets: map<string, real>, msg: JointState): JointState {
    msg.(position := seq(|msg.position|, i requires 0 <= i < |msg.position| =>
                         msg.position[i] - OffsetAt(index, offsets, i)))
  }

  lemma OffsetAtJoint(index: map<string, int>, offsets: map<string, real>, msg: JointState, n: string)
    requires offsets.Keys <= index.Keys && Covers(index, msg) && n in index
    ensures OffsetAt(index, offsets, index[n]) == OffsetOf(offsets, n)
  {
  }

  lemma CompensatedIs(index: map<string, int>, offsets: map<string, real>, msg: JointState, temp: JointState)
    requires offsets.Keys <= index.Keys && Covers(index, msg)
    requires temp == msg.(position := temp.position)
    requires Lowered(index, offsets, offsets.Keys, msg.position, temp.position)
    requires Untouched(index, msg.position, temp.position)
    ensures temp == Compensated(index, offsets, msg)
  {
  }

  datatype System = System(port: Port<string>, active: seq<string>, pds: Pds, index: map<string, int>,
                           slots: seq<JointCmd>)

  datatype Event =
    | Trigger(now: int, topic: string)
    | Joints(msg: JointState)
    | Tick(nexts: map<string, PD.Next>, others: map<string, Output>)

  ghost predicate Sound(st: Setup, s: System) {
    && Ready(st, s.pds) && st.joints <= s.index.Keys && |s.slots| == st.size
  }

  ghost predicate Legal(st: Setup, s: System, ev: Event) {
    match ev
    case Trigger(_, _) => true
    case Joints(msg) => Covers(IndexFor(st, s.index, msg.name), msg)
    case Tick(nexts, _) => GoodNexts(st, nexts)
  }

  function RestartAll(pds: Pds, names: seq<string>): Pds {
    map k | k in pds :: if k in names then PD.Restart(pds[k]) else pds[k]
  }

  ghost function MeasureAll(st: Setup, pds: Pds, index: map<string, int>, msg: JointState): Pds
    requires WellFormed(st) && Ready(st, pds) && st.joints <= index.Keys && Covers(index, msg)
  {
    map k | k in pds :: PD.SetJointState(st.confs[k], pds[k], Compensated(index, st.offsets, msg), index)
  }

  ghost function Step(st: Setup, s: System, ev: Event): System
    requires WellFormed(st) && Sound(st, s) && Legal(st, s, ev)
  {
    match ev
    case Trigger(now, topic) =>
      var next := s.(port := OnTrigger(st.cfg, s.port, now, topic));
      if Fires(st.cfg, s.port, now, topic) then
        var active := Fire(st.cfg, s.port.current, topic).value.controllers;
        next.(active := active, pds := RestartAll(s.pds, active))
      else next
    case Joints(msg) =>
      var index := IndexFor(st, s.index, msg.name);
      s.(index := index, pds := MeasureAll(st, s.pds, index, msg))
    case Tick(nexts, others) =>
      s.(pds := TickPds(st, s.pds, s.active, nexts),
         slots := Merge(st, s.slots, TickOuts(st, s.pds, s.active, nexts, others)))
  }

  lemma StepSound(st: Setup, s: System, ev: Event)
    requires WellFormed(st) && Sound(st, s) && Legal(st, s, ev)
    ensures Sound(st, Step(st, s, ev))
  {
    if ev.Tick? {
      TickReady(st, s.pds, s.active, ev.nexts);
    }
  }

  // What the outside has seen: the last message, and for each controller the message that was
  // the last at its latest restart.
  datatype Seen = Seen(last: Option<JointState>, latched: map<string, JointState>)

  ghost function Note(st: Setup, s: System, h: Seen, ev: Event): Seen {
    match ev
    case Joints(msg) => h.(last := Some(msg))
    case Tick(_, _) => h
    case Trigger(now, topic) =>
      if Fires(st.cfg, s.port, now, topic) && h.last.Some? then
        var active := Fire(st.cfg, s.port.current, topic).value.controllers;
        h.(latched := map k | k in s.pds && (k in active || k in h.latched) ::
             if k in active then h.last.value else h.latched[k])
      else h
  }

  // Position i of the values is what the message measured there, less the offset.
  ghost predicate Reads(st: Setup, c: PD.Config, index: map<string, int>, msg: JointState, values: seq<real>)
    requires st.joints <= index.Keys && forall i :: 0 <= i < |c.names| ==> c.names[i] in st.joints
  {
    && |values| == |c.names|
    && forall i :: 0 <= i < |c.names| ==>
         && 0 <= index[c.names[i]] < |msg.position|
         && values[i] == msg.position[index[c.names[i]]] - OffsetOf(st.offsets, c.names[i])
  }

  ghost predicate Inv(st: Setup, s: System, h: Seen)
    requires WellFormed(st) && Sound(st, s)
  {
    && (h.last.Some? ==> forall n :: n in s.index ==> s.index[n] >= 0)
    && (h.last.None? ==> h.latched == map[])
    && (h.last.Some? ==> forall k :: k in s.pds ==>
          Reads(st, st.confs[k], s.index, h.last.value, s.pds[k].position))
    && h.latched.Keys <= s.pds.Keys
    && (forall k :: k in h.latched && (st.confs[k].isKeep || !st.confs[k].isPlan) ==>
          Reads(st, st.confs[k], s.index, h.latched[k], s.pds[k].start))
  }

  lemma MeasureReads(st: Setup, pds: Pds, index: map<string, int>, msg: JointState, k: string)
    requires WellFormed(st) && Ready(st, pds) && st.joints <= index.Keys && Covers(index, msg) && k in pds
    ensures var r := MeasureAll(st, pds, index, msg);
            Reads(st, st.confs[k], index, msg, r[k].position) && r[k].start == pds[k].start
  {
    var names := st.confs[k].names;
    var r := MeasureAll(st, pds, index, msg)[k];
    forall i | 0 <= i < |names|
      ensures r.position[i] == msg.position[index[names[i]]] - OffsetOf(st.offsets, names[i])
    {
      OffsetAtJoint(index, st.offsets, msg, names[i]);
    }
  }

  lemma {:induction false} TickKeeps(st: Setup, pds: Pds, active: seq<string>, nexts: map<string, PD.Next>, k: string)
    requires k in pds && k in st.confs
    ensures TickPds(st, pds, active, nexts)[k].position == pds[k].position
    ensures st.confs[k].isKeep || !st.confs[k].isPlan ==> TickPds(st, pds, active, nexts)[k].start == pds[k].start
  {
    if active != [] {
      TickKeeps(st, pds, active[..|active| - 1], nexts, k);
    }
  }

  lemma JointsKeepInv(st: Setup, s: System, h: Seen, msg: JointState)
    requires WellFormed(st) && Sound(st, s) && Legal(st, s, Joints(msg)) && Inv(st, s, h)
    requires Sound(st, Step(st, s, Joints(msg)))
    ensures Inv(st, Step(st, s, Joints(msg)), Note(st, s, h, Joints(msg)))
  {
    hide Reads, Compensated, PD.SetJointState;
    var s' := Step(st, s, Joints(msg));
    var index := IndexFor(st, s.index, msg.name);
    if h.last.Some? {
      assert s.index[st.probe] >= 0;
      assert index == s.index;
    }
    forall k | k in s'.pds
      ensures Reads(st, st.confs[k], index, msg, s'.pds[k].position) && s'.pds[k].start == s.pds[k].start
    {
      MeasureReads(st, s.pds, index, msg, k);
    }
  }

  lemma TickKeepsInv(st: Setup, s: System, h: Seen, ev: Event)
    requires WellFormed(st) && Sound(st, s) && ev.Tick? && Legal(st, s, ev) && Inv(st, s, h)
    requires Sound(st, Step(st, s, ev))
    ensures Inv(st, Step(st, s, ev), Note(st, s, h, ev))
  {
    hide Reads, TickPds, Merge, TickOuts;
    var s' := Step(st, s, ev);
    forall k | k in s.pds
      ensures s'.pds[k].position == s.pds[k].position
      ensures st.confs[k].isKeep || !st.confs[k].isPlan ==> s'.pds[k].start == s.pds[k].start
    {
      TickKeeps(st, s.pds, s.active, ev.nexts, k);
    }
  }

  lemma TriggerKeepsInv(st: Setup, s: System, h: Seen, ev: Event)
    requires WellFormed(st) && Sound(st, s) && ev.Trigger? && Inv(st, s, h) && Sound(st, Step(st, s, ev))
    ensures Inv(st, Step(st, s, ev), Note(st, s, h, ev))
  {
    hide Reads, OnTrigger, Fire, RestartAll;
    if Fires(st.cfg, s.port, ev.now, ev.topic) {
      Restarted(s.pds, Fire(st.cfg, s.port.current, ev.topic).value.controllers);
    }
  }

  lemma Restarted(pds: Pds, names: seq<string>)
    ensures var r := RestartAll(pds, names);
            && r.Keys == pds.Keys
            && forall k :: k in pds ==> r[k].position == pds[k].position
                                        && r[k].start == if k in names then pds[k].position else pds[k].start
  {
  }

  lemma StepKeepsInv(st: Setup, s: System, h: Seen, ev: Event)
    requires WellFormed(st) && Sound(st, s) && Legal(st, s, ev) && Inv(st, s, h)
    ensures Sound(st, Step(st, s, ev)) && Inv(st, Step(st, s, ev), Note(st, s, h, ev))
  {
    hide Inv, Note, Step, Sound, Legal;
    StepSound(st, s, ev);
    match ev
    case Trigger(_, _) => TriggerKeepsInv(st, s, h, ev);
    case Joints(msg) => JointsKeepInv(st, s, h, msg);
    case Tick(_, _) => TickKeepsInv(st, s, h, ev);
  }

  ghost predicate LegalRun(st: Setup, s: System, evs: seq<Event>)
    requires WellFormed(st) && Sound(st, s)
    decreases |evs|, 0
  {
    evs == [] || (LegalRun(st, s, evs[..|evs| - 1])
                  && Legal(st, Run(st, s, evs[..|evs| - 1]), evs[|evs| - 1]))
  }

  ghost function Run(st: Setup, s: System, evs: seq<Event>): (r: System)
    requires WellFormed(st) && Sound(st, s) && LegalRun(st, s, evs)
    ensures Sound(st, r)
    decreases |evs|, 1
  {
    if evs == [] then s
    else
      var q := Run(st, s, evs[..|evs| - 1]);
      StepSound(st, q, evs[|evs| - 1]);
      Step(st, q, evs[|evs| - 1])
  }

  ghost function RunSeen(st: Setup, s: System, h: Seen, evs: seq<Event>): Seen
    requires WellFormed(st) && Sound(st, s) && LegalRun(st, s, evs)
    decreases |evs|
  {
    if evs == [] then h
    else
      var rest := evs[..|evs| - 1];
      Note(st, Run(st, s, rest), RunSeen(st, s, h, rest), evs[|evs| - 1])
  }

  // What the active controllers said in each tick of the run.
  ghost function Said(st: Setup, s: System, evs: seq<Event>): seq<seq<Output>>
    requires WellFormed(st) && Sound(st, s) && LegalRun(st, s, evs)
    decreases |evs|
  {
    if evs == [] then []
    else
      var rest, ev := evs[..|evs| - 1], evs[|evs| - 1];
      var q := Run(st, s, rest);
      Said(st, s, rest)
      + (if ev.Tick? then [TickOuts(st, q.pds, q.active, ev.nexts, ev.others)] else [])
  }

  lemma {:induction false} InvAlways(st: Setup, s: System, h: Seen, evs: seq<Event>)
    requires WellFormed(st) && Sound(st, s) && LegalRun(st, s, evs) && Inv(st, s, h)
    ensures Inv(st, Run(st, s, evs), RunSeen(st, s, h, evs))
    decreases |evs|
  {
    if evs != [] {
      var rest := evs[..|evs| - 1];
      InvAlways(st, s, h, rest);
      StepKeepsInv(st, Run(st, s, rest), RunSeen(st, s, h, rest), evs[|evs| - 1]);
    }
  }

  lemma SlotOfStep(st: Setup, q: System, ev: Event, initial: JointCmd, said: seq<seq<Output>>, j: nat)
    requires WellFormed(st) && Sound(st, q) && Legal(st, q, ev) && j < st.size
    requires q.slots[j] == SlotAfter(st.cmdIndex, st.offsets, initial, said, j)
    ensures var more := if ev.Tick? then [TickOuts(st, q.pds, q.active, ev.nexts, ev.others)] else [];
            Step(st, q, ev).slots[j] == SlotAfter(st.cmdIndex, st.offsets, initial, said + more, j)
  {
    hide Merge, TickOuts, LastOwner, Publish, TickPds, MeasureAll, RestartAll;
    if ev.Tick? {
      var outs := TickOuts(st, q.pds, q.active, ev.nexts, ev.others);
      MergeSlot(st, q.slots, outs, j);
      assert (said + [outs])[..|said|] == said;
    } else {
      assert said + [] == said;
    }
  }

  /** Over any run of ticks, triggers and messages the published slots are the last writers'. */
  lemma {:induction false} SlotsOfRun(st: Setup, s: System, evs: seq<Event>, j: nat)
    requires WellFormed(st) && Sound(st, s) && LegalRun(st, s, evs) && j < st.size
    ensures Run(st, s, evs).slots[j] == SlotAfter(st.cmdIndex, st.offsets, s.slots[j], Said(st, s, evs), j)
    decreases |evs|
  {
    hide Step, SlotAfter, TickOuts, WellFormed;
    if evs != [] {
      var rest := evs[..|evs| - 1];
      SlotsOfRun(st, s, rest, j);
      SlotOfStep(st, Run(st, s, rest), evs[|evs| - 1], s.slots[j], Said(st, s, rest), j);
    } else {
      SlotAtStart(st, s.slots[j], j);
    }
  }

  lemma SlotAtStart(st: Setup, initial: JointCmd, j: nat)
    ensures SlotAfter(st.cmdIndex, st.offsets, initial, [], j) == initial
  {
  }

  // No two joints of the controller share a slot.
  ghost predicate OwnSlots(st: Setup, c: PD.Config) {
    forall i, j :: 0 <= i < j < |c.names| ==>
      SlotOf(st.cmdIndex, c.names[i]) != SlotOf(st.cmdIndex, c.names[j])
  }

  // What the tick's c-th controller says.
  lemma {:induction false} OutOf(st: Setup, pds: Pds, active: seq<string>, nexts: map<string, PD.Next>,
                                 others: map<string, Output>, c: nat)
    requires WellFormed(st) && Ready(st, pds) && GoodNexts(st, nexts) && c < |active|
    ensures Ready(st, TickPds(st, pds, active[..c + 1], nexts))
    ensures TickOuts(st, pds, active, nexts, others)[c]
            == OutputOf(st, TickPds(st, pds, active[..c + 1], nexts), active[c], others)
  {
    TickReady(st, pds, active[..c + 1], nexts);
    if c < |active| - 1 {
      var rest := active[..|active| - 1];
      OutOf(st, pds, rest, nexts, others, c);
      assert rest[..c + 1] == active[..c + 1];
    } else {
      assert active[..c + 1] == active;
    }
  }

  // The c-th active controller is the last in the list that owns the slot of its joint i.
  ghost predicate LastToOwn(st: Setup, outs: seq<Output>, names: seq<string>, c: nat, i: nat) {
    && c < |outs| && i < |names|
    && forall d :: c < d < |outs| ==> !Owns(st.cmdIndex, outs[d], SlotOf(st.cmdIndex, names[i]))
  }

  // What the c-th active controller, the last to own its joint i, says of it is published.
  lemma PublishedEntry(st: Setup, s: System, nexts: map<string, PD.Next>, others: map<string, Output>, c: nat, i: nat)
    requires WellFormed(st) && Sound(st, s) && GoodNexts(st, nexts)
    requires c < |s.active| && s.active[c] in s.pds && OwnSlots(st, st.confs[s.active[c]])
    requires LastToOwn(st, TickOuts(st, s.pds, s.active, nexts, others), st.confs[s.active[c]].names, c, i)
    ensures Ready(st, TickPds(st, s.pds, s.active[..c + 1], nexts))
    ensures var k, p := st.confs[s.active[c]], TickPds(st, s.pds, s.active[..c + 1], nexts)[s.active[c]];
            var j := SlotOf(st.cmdIndex, k.names[i]);
            j < st.size && Step(st, s, Tick(nexts, others)).slots[j] == Publish(st.offsets, PD.Command(k, p)[i])
  {
    hide TickPds, TickOuts, Merge, Publish, LastOwner, LastEntry;
    var outs := TickOuts(st, s.pds, s.active, nexts, others);
    var k := st.confs[s.active[c]];
    var j := SlotOf(st.cmdIndex, k.names[i]);
    OutOf(st, s.pds, s.active, nexts, others, c);
    assert outs[c] == PD.Command(k, TickPds(st, s.pds, s.active[..c + 1], nexts)[s.active[c]]);
    assert outs[c][i] in outs[c];
    LastEntryAt(st.cmdIndex, outs[c], j, i);
    LastOwnerAt(st.cmdIndex, outs, j, c);
    MergeSlot(st, s.slots, outs, j);
  }

  /** A joint is published with the gains its owner is configured with: in any state, for any
      place in the active list, if no later controller owns the joint. */
  lemma PublishedGains(st: Setup, s: System, nexts: map<string, PD.Next>, others: map<string, Output>, c: nat, i: nat)
    requires WellFormed(st) && Sound(st, s) && GoodNexts(st, nexts)
    requires c < |s.active| && s.active[c] in s.pds && OwnSlots(st, st.confs[s.active[c]])
    requires LastToOwn(st, TickOuts(st, s.pds, s.active, nexts, others), st.confs[s.active[c]].names, c, i)
    ensures var k := st.confs[s.active[c]];
            var j := SlotOf(st.cmdIndex, k.names[i]);
            && j < st.size
            && var slot := Step(st, s, Tick(nexts, others)).slots[j];
               && slot.name == k.names[i] && slot.stiffness == k.stiffness[i] && slot.damping == k.damping[i]
               && slot.velocity == 0.0 && slot.effort == 0.0
  {
    hide TickPds, TickOuts, Step, PD.Command;
    PublishedEntry(st, s, nexts, others, c, i);
    PD.CommandGains(st.confs[s.active[c]], TickPds(st, s.pds, s.active[..c + 1], nexts)[s.active[c]], i);
  }

  // The c-th active controller is a keep controller that was restarted after some message, and
  // nobody later in the list owns its joint i.
  ghost predicate Holding(st: Setup, s: System, h: Seen, nexts: map<string, PD.Next>, others: map<string, Output>,
                          c: nat, i: nat)
    requires WellFormed(st) && Sound(st, s) && GoodNexts(st, nexts)
  {
    && c < |s.active| && s.active[c] in s.pds && s.active[c] in h.latched
    && st.confs[s.active[c]].isKeep && OwnSlots(st, st.confs[s.active[c]])
    && LastToOwn(st, TickOuts(st, s.pds, s.active, nexts, others), st.confs[s.active[c]].names, c, i)
  }

  lemma KeptEntry(st: Setup, s: System, h: Seen, nexts: map<string, PD.Next>, others: map<string, Output>,
                  c: nat, i: nat)
    requires WellFormed(st) && Sound(st, s) && GoodNexts(st, nexts) && Inv(st, s, h)
    requires Holding(st, s, h, nexts, others, c, i)
    ensures var n, m := st.confs[s.active[c]].names[i], h.latched[s.active[c]];
            && n in s.index && 0 <= s.index[n] < |m.position| && SlotOf(st.cmdIndex, n) < st.size
            && Step(st, s, Tick(nexts, others)).slots[SlotOf(st.cmdIndex, n)].position == m.position[s.index[n]]
  {
    var k := s.active[c];
    var n := st.confs[k].names[i];
    PublishedEntry(st, s, nexts, others, c, i);
    TickKeeps(st, s.pds, s.active[..c + 1], nexts, k);
    assert Reads(st, st.confs[k], s.index, h.latched[k], s.pds[k].start);
    assert n in s.index;
  }

  // The joint's slot: the raw position that was measured at the restart, at rest, and the gains of
  // the configuration.
  ghost predicate HoldsRaw(st: Setup, s: System, h: Seen, slots: seq<JointCmd>, c: nat, i: nat) {
    && c < |s.active| && s.active[c] in st.confs && s.active[c] in h.latched
    && var k, m := st.confs[s.active[c]], h.latched[s.active[c]];
       && i < |k.names| == |k.stiffness| == |k.damping| && k.names[i] in s.index
       && var at, j := s.index[k.names[i]], SlotOf(st.cmdIndex, k.names[i]);
          && 0 <= at < |m.position| && j < |slots|
          && slots[j].name == k.names[i] && slots[j].position == m.position[at]
          && slots[j].velocity == 0.0 && slots[j].effort == 0.0
          && slots[j].stiffness == k.stiffness[i] && slots[j].damping == k.damping[i]
  }

  /** Holding: in any reachable state with a keep controller among the active that was restarted
      after some joint message, the tick publishes, for each of its joints that no later active
      controller owns, the raw position that message measured, the offset taken out coming back
      exactly, and the controller's own gains. */
  lemma KeepHolds(st: Setup, s0: System, evs: seq<Event>, nexts: map<string, PD.Next>,
                  others: map<string, Output>, c: nat, i: nat)
    requires WellFormed(st) && Sound(st, s0) && LegalRun(st, s0, evs) && GoodNexts(st, nexts)
    requires Holding(st, Run(st, s0, evs), RunSeen(st, s0, Seen(None, map[]), evs), nexts, others, c, i)
    ensures var s := Run(st, s0, evs);
            HoldsRaw(st, s, RunSeen(st, s0, Seen(None, map[]), evs), Step(st, s, Tick(nexts, others)).slots, c, i)
  {
    hide Run, RunSeen, LegalRun, TickOuts, Step, Inv, Holding, HoldsRaw;
    InvAlways(st, s0, Seen(None, map[]), evs);
    HoldsIn(st, Run(st, s0, evs), RunSeen(st, s0, Seen(None, map[]), evs), nexts, others, c, i);
  }

  lemma HoldsIn(st: Setup, s: System, h: Seen, nexts: map<string, PD.Next>, others: map<string, Output>, c: nat, i: nat)
    requires WellFormed(st) && Sound(st, s) && GoodNexts(st, nexts) && Inv(st, s, h)
    requires Holding(st, s, h, nexts, others, c, i)
    ensures HoldsRaw(st, s, h, Step(st, s, Tick(nexts, others)).slots, c, i)
  {
    hide TickOuts, TickPds, Merge, Inv, OwnSlots;
    StepSound(st, s, Tick(nexts, others));
    KeptEntry(st, s, h, nexts, others, c, i);
    PublishedGains(st, s, nexts, others, c, i);
  }

  // ---------------------------------------------------------------- the index by name

  // Every place the index gives is the name's place in the list; -1 is no place yet.
  ghost predicate Places(index: map<string, int>, names: seq<string>) {
    forall n :: n in index ==> index[n] == -1 || (0 <= index[n] < |names| && names[index[n]] == n)
  }

  /** Filling puts each name of the message at its last place there and leaves other names. */
  lemma {:induction false} FilledIndex(index: map<string, int>, names: seq<string>, n: string)
    ensures n in names ==>
              && n in FillIndex(index, names) && 0 <= FillIndex(index, names)[n] < |names|
              && names[FillIndex(index, names)[n]] == n
              && forall k :: FillIndex(index, names)[n] < k < |names| ==> names[k] != n
    ensures n !in names ==> (n in FillIndex(index, names) <==> n in index)
                            && (n in index ==> FillIndex(index, names)[n] == index[n])
  {
    if names != [] {
      assert names == names[..|names| - 1] + [names[|names| - 1]];
      FilledIndex(index, names[..|names| - 1], n);
    }
  }

  lemma PlacesKept(st: Setup, index: map<string, int>, names: seq<string>)
    requires Places(index, names)
    ensures Places(IndexFor(st, index, names), names)
  {
    forall n | n in IndexFor(st, index, names)
      ensures var r := IndexFor(st, index, names)[n]; r == -1 || (0 <= r < |names| && names[r] == n)
    {
      FilledIndex(index, names, n);
      hide FillIndex;
    }
  }

  // Every message lists the same names, as one publisher's do.
  ghost predicate SameNames(evs: seq<Event>, names: seq<string>) {
    forall e :: 0 <= e < |evs| && evs[e].Joints? ==> evs[e].msg.name == names
  }

  ghost predicate AllNamed(h: Seen, names: seq<string>) {
    && (h.last.Some? ==> h.last.value.name == names)
    && (forall k :: k in h.latched ==> h.latched[k].name == names)
  }

  lemma {:induction false} PlacesOfRun(st: Setup, s: System, h: Seen, evs: seq<Event>, names: seq<string>)
    requires WellFormed(st) && Sound(st, s) && LegalRun(st, s, evs)
    requires SameNames(evs, names) && Places(s.index, names) && AllNamed(h, names)
    ensures Places(Run(st, s, evs).index, names) && AllNamed(RunSeen(st, s, h, evs), names)
    decreases |evs|
  {
    hide Places, AllNamed, WellFormed, Sound, Step, Note;
    if evs != [] {
      var rest, ev := evs[..|evs| - 1], evs[|evs| - 1];
      PlacesOfRun(st, s, h, rest, names);
      PlacesOfStep(st, Run(st, s, rest), RunSeen(st, s, h, rest), ev, names);
    }
  }

  lemma PlacesOfStep(st: Setup, s: System, h: Seen, ev: Event, names: seq<string>)
    requires WellFormed(st) && Sound(st, s) && Legal(st, s, ev)
    requires ev.Joints? ==> ev.msg.name == names
    requires Places(s.index, names) && AllNamed(h, names)
    ensures Places(Step(st, s, ev).index, names) && AllNamed(Note(st, s, h, ev), names)
  {
    hide TickPds, TickOuts, Merge, MeasureAll, FillIndex, Fire, OnTrigger;
    if ev.Joints? {
      PlacesKept(st, s.index, names);
    }
  }

  /** Holding, by name: when all messages list the same names and the index starts unset, the
      position a keep controller holds is the one its message gave under the joint's own name. */
  lemma KeepHoldsByName(st: Setup, s0: System, evs: seq<Event>, names: seq<string>, nexts: map<string, PD.Next>,
                        others: map<string, Output>, c: nat, i: nat)
    requires WellFormed(st) && Sound(st, s0) && LegalRun(st, s0, evs) && GoodNexts(st, nexts)
    requires SameNames(evs, names) && forall n :: n in s0.index ==> s0.index[n] == -1
    requires Holding(st, Run(st, s0, evs), RunSeen(st, s0, Seen(None, map[]), evs), nexts, others, c, i)
    ensures var s, h := Run(st, s0, evs), RunSeen(st, s0, Seen(None, map[]), evs);
            && HoldsRaw(st, s, h, Step(st, s, Tick(nexts, others)).slots, c, i)
            && var m, n := h.latched[s.active[c]], st.confs[s.active[c]].names[i];
               s.index[n] < |m.name| && m.name[s.index[n]] == n
  {
    hide Run, RunSeen, LegalRun, TickOuts, Step, WellFormed, Sound, Holding;
    KeepHolds(st, s0, evs, nexts, others, c, i);
    PlacesOfRun(st, s0, Seen(None, map[]), evs, names);
  }

  // The controllers in todo as they were, the others as they will be.
  function Mixed(before: Pds, after: Pds, todo: set<string>): Pds
    requires before.Keys == after.Keys
  {
    map k | k in before :: if k in todo then before[k] else after[k]
  }

  lemma TickNext(st: Setup, pds: Pds, names: seq<string>, i: nat, nexts: map<string, PD.Next>,
                 others: map<string, Output>, slots: seq<JointCmd>)
    requires WellFormed(st) && Ready(st, pds) && GoodNexts(st, nexts) && i < |names|
    ensures var r, r' := TickPds(st, pds, names[..i], nexts), TickPds(st, pds, names[..i + 1], nexts);
            var k := names[i];
            && r' == (if k in r then r[k := PD.Update(st.confs[k], r[k], NextOf(nexts, k))] else r)
            && Ready(st, r')
            && Merge(st, slots, TickOuts(st, pds, names[..i + 1], nexts, others))
               == MergeOne(st, Merge(st, slots, TickOuts(st, pds, names[..i], nexts, others)),
                           OutputOf(st, r', k, others))
  {
    TickReady(st, pds, names[..i + 1], nexts);
    assert names[..i + 1][..i] == names[..i];
    var outs := TickOuts(st, pds, names[..i + 1], nexts, others);
    assert outs[..|outs| - 1] == TickOuts(st, pds, names[..i], nexts, others);
  }

  // Restarting twice is restarting once.
  lemma RestartMore(pds: Pds, names: seq<string>, i: nat)
    requires i < |names|
    ensures var r := RestartAll(pds, names[..i]);
            RestartAll(pds, names[..i + 1])
            == if names[i] in pds then r[names[i] := PD.Restart(r[names[i]])] else r
  {
  }

  // ---------------------------------------------------------------- the module itself

  class ControlModule {
    const st: Setup
    const port: TriggerPort<string, string>
    const controllers: map<string, PD.PDController>
    var index: map<string, int>
    var slots: seq<JointCmd>

    ghost function PdValues(): (r: Pds)
      reads controllers.Values
      ensures r.Keys == controllers.Keys
    {
      map k | k in controllers :: controllers[k].Value()
    }

    ghost predicate Wired()
      reads controllers.Values
    {
      && controllers.Keys == st.confs.Keys
      && (forall k, l :: k in controllers && l in controllers && k != l ==> controllers[k] != controllers[l])
      && (forall k :: k in controllers ==> controllers[k].Valid() && controllers[k].config == st.confs[k])
    }

    ghost function Value(): System
      reads this, port, port.machine, controllers.Values
    {
      System(port.Value(), port.machine.controllers, PdValues(), index, slots)
    }

    ghost predicate Valid()
      reads this, port, port.machine, controllers.Values
    {
      && WellFormed(st) && Wired() && port.machine.Runs(st.cfg)
      && st.joints <= index.Keys && |slots| == st.size
    }

    constructor (st: Setup, port: TriggerPort<string, string>, controllers: map<string, PD.PDController>)
      requires WellFormed(st) && controllers.Keys == st.confs.Keys && port.machine.Runs(st.cfg)
      requires forall k, l :: k in controllers && l in controllers && k != l ==> controllers[k] != controllers[l]
      requires forall k :: k in controllers ==> controllers[k].Valid() && controllers[k].config == st.confs[k]
      ensures Valid() && this.st == st && this.port == port && this.controllers == controllers
      ensures index == map n | n in st.joints :: -1
      ensures slots == seq(st.size, _ => PD.JointCmd("", 0.0, 0.0, 0.0, 0.0, 0.0))
    {
      this.st, this.port, this.controllers := st, port, controllers;
      index := map n | n in st.joints :: -1;
      slots := seq(st.size, _ => PD.JointCmd("", 0.0, 0.0, 0.0, 0.0, 0.0));
    }

    lemma ValidSound()
      requires Valid()
      ensures Sound(st, Value())
    {
    }

    // The two kinds of change a callback makes to one controller.
    method RestartOne(k: string)
      requires Wired() && k in controllers
      modifies controllers[k]
      ensures Wired() && PdValues() == old(PdValues())[k := PD.Restart(old(PdValues())[k])]
    {
      hide PD.PDController.Valid, PD.PDController.Value, PD.Restart;
      controllers[k].RestartController();
    }

    method UpdateOne(k: string, next: PD.Next)
      requires Wired() && k in controllers
      requires next.Point? ==> |next.angles| == |st.confs[k].names|
      modifies controllers[k]
      ensures Wired() && PdValues() == old(PdValues())[k := PD.Update(st.confs[k], old(PdValues())[k], next)]
    {
      hide PD.PDController.Valid, PD.PDController.Value, PD.Update;
      controllers[k].UpdateStep(next);
    }

    method RestartNamed(names: seq<string>)
      requires Wired()
      modifies controllers.Values
      ensures Wired() && PdValues() == RestartAll(old(PdValues()), names)
    {
      hide PD.Restart;
      for i := 0 to |names|
        invariant Wired()
        invariant PdValues() == RestartAll(old(PdValues()), names[..i])
      {
        RestartMore(old(PdValues()), names, i);
        if names[i] in controllers {
          RestartOne(names[i]);
        }
      }
      assert names[..|names|] == names;
    }

    // A trigger the throttle and the state machine let through restarts its controllers.
    method TriggerCallback(now: int, topic: string)
      requires Valid()
      modifies port, port.machine, controllers.Values
      ensures Valid() && Sound(st, old(Value()))
      ensures Value() == Step(st, old(Value()), Trigger(now, topic))
    {
      hide Fire, OnTrigger, Fires, RestartAll, WellFormed;
      ValidSound();
      var fired := port.Trigger(now, topic, st.cfg);
      if fired {
        RestartNamed(port.machine.controllers);
      }
    }

    method MeasureOne(k: string, temp: JointState)
      requires Wired() && k in controllers && PD.IndexInto(index, st.confs[k].names, temp)
      requires forall i :: 0 <= i < |st.confs[k].names| ==> st.confs[k].names[i] in index
      modifies controllers[k]
      ensures Wired()
      ensures PdValues() == old(PdValues())[k := PD.SetJointState(st.confs[k], old(PdValues())[k], temp, index)]
    {
      hide PD.PDController.Valid, PD.PDController.Value, PD.SetJointState, PD.Gathered;
      var ok := controllers[k].SetJointStateData(temp, index);
      assert PD.Known(st.confs[k].names, index) == |st.confs[k].names|;
    }

    method MeasureNext(k: string, msg: JointState, temp: JointState, ghost before: Pds, ghost todo: set<string>)
      requires Valid() && Ready(st, before) && Covers(index, msg) && temp == Compensated(index, st.offsets, msg)
      requires k in controllers && k in todo
      requires PdValues() == Mixed(before, MeasureAll(st, before, index, msg), todo)
      modifies controllers[k]
      ensures Wired() && PdValues() == Mixed(before, MeasureAll(st, before, index, msg), todo - {k})
    {
      hide PD.SetJointState, PD.Sized, PD.Fits, PD.PDController.Valid, PD.PDController.Value;
      MeasureOne(k, temp);
    }

    method MeasureEvery(msg: JointState, temp: JointState)
      requires Valid() && Covers(index, msg) && temp == Compensated(index, st.offsets, msg)
      modifies controllers.Values
      ensures Valid() && Sound(st, old(Value()))
      ensures PdValues() == MeasureAll(st, old(PdValues()), index, msg)
    {
      hide Compensated, PD.SetJointState, PD.Sized, PD.Fits, PD.PDController.Valid, PD.PDController.Value, Covers;
      ValidSound();
      ghost var before := PdValues();
      var todo := controllers.Keys;
      while todo != {}
        invariant todo <= controllers.Keys && Wired()
        invariant PdValues() == Mixed(before, MeasureAll(st, before, index, msg), todo)
      {
        var k :| k in todo;
        MeasureNext(k, msg, temp, before, todo);
        todo := todo - {k};
      }
    }

    method FillOnce(names: seq<string>)
      modifies this`index
      ensures index == IndexFor(st, old(index), names)
    {
      if st.probe in index && index[st.probe] == -1 {
        for i := 0 to |names|
          invariant index == FillIndex(old(index), names[..i])
        {
          assert names[..i + 1][..i] == names[..i];
          index := index[names[i] := i];
        }
        assert names[..|names|] == names;
      }
    }

    // The index is filled once; then the offsets come out and every controller, active or
    // not, takes its joints by name.
    method JointStateCallback(msg: JointState)
      requires Valid() && Covers(IndexFor(st, index, msg.name), msg)
      modifies this`index, controllers.Values
      ensures Valid() && Sound(st, old(Value()))
      ensures Value() == Step(st, old(Value()), Joints(msg))
    {
      hide Compensated, Lowered, Untouched, Covers, MeasureAll, IndexFor;
      ValidSound();
      FillOnce(msg.name);
      var temp := Compensate(index, st.offsets, msg);
      CompensatedIs(index, st.offsets, msg, temp);
      MeasureEvery(msg, temp);
    }

    // One controller's output written over the command message, entry by entry.
    method WriteOutput(out: Output)
      requires WellFormed(st) && |slots| == st.size
      modifies this`slots
      ensures slots == MergeOne(st, old(slots), out)
    {
      for i := 0 to |out|
        invariant |slots| == st.size && slots == MergeOne(st, old(slots), out[..i])
      {
        assert out[..i + 1][..i] == out[..i];
        var j := if out[i].name in st.cmdIndex then st.cmdIndex[out[i].name] else 0;
        var offset := if out[i].name in st.offsets then st.offsets[out[i].name] else 0.0;
        slots := slots[j := PD.JointCmd(out[i].name, out[i].position + offset, out[i].velocity, out[i].effort,
                                        out[i].damping, out[i].stiffness)];
      }
      assert out[..|out|] == out;
    }

    lemma NextSized(nexts: map<string, PD.Next>, k: string)
      requires GoodNexts(st, nexts)
      ensures k in st.confs && NextOf(nexts, k).Point? ==> |NextOf(nexts, k).angles| == |st.confs[k].names|
    {
    }

    method TickController(k: string, nexts: map<string, PD.Next>, others: map<string, Output>)
      requires Valid() && GoodNexts(st, nexts)
      modifies this`slots, controllers.Values
      ensures Valid() && Ready(st, PdValues())
      ensures PdValues() == var r := old(PdValues());
                            if k in r then r[k := PD.Update(st.confs[k], r[k], NextOf(nexts, k))] else r
      ensures slots == MergeOne(st, old(slots), OutputOf(st, PdValues(), k, others))
    {
      hide PD.Update, MergeOne, PD.Command, NextOf, PD.PDController.Value, GoodNexts, PD.Sized, PD.Fits;
      NextSized(nexts, k);
      var out: Output := [];
      if k in controllers {
        UpdateOne(k, NextOf(nexts, k));
        out := controllers[k].GetJointCmdData();
      } else if k in others {
        out := others[k];
      }
      ValidSound();
      WriteOutput(out);
    }

    ghost predicate TickedTo(before: Pds, slots0: seq<JointCmd>, names: seq<string>, nexts: map<string, PD.Next>,
                             others: map<string, Output>)
      requires WellFormed(st) && Ready(st, before) && GoodNexts(st, nexts)
      reads this, controllers.Values
    {
      && PdValues() == TickPds(st, before, names, nexts)
      && slots == Merge(st, slots0, TickOuts(st, before, names, nexts, others))
    }

    method TickNth(names: seq<string>, i: nat, nexts: map<string, PD.Next>, others: map<string, Output>,
                   ghost before: Pds, ghost slots0: seq<JointCmd>)
      requires Valid() && Ready(st, before) && GoodNexts(st, nexts)
      requires i < |names| && TickedTo(before, slots0, names[..i], nexts, others)
      modifies this`slots, controllers.Values
      ensures Valid() && TickedTo(before, slots0, names[..i + 1], nexts, others)
    {
      hide TickPds, TickOuts, Merge, PD.Update, OutputOf, MergeOne, Ready, GoodNexts;
      TickNext(st, before, names, i, nexts, others, slots0);
      TickController(names[i], nexts, others);
    }

    method TickNamed(names: seq<string>, nexts: map<string, PD.Next>, others: map<string, Output>)
      requires Valid() && GoodNexts(st, nexts)
      modifies this`slots, controllers.Values
      ensures Valid() && Ready(st, old(PdValues()))
      ensures TickedTo(old(PdValues()), old(slots), names, nexts, others)
    {
      ValidSound();
      for i := 0 to |names|
        invariant Valid() && TickedTo(old(PdValues()), old(slots), names[..i], nexts, others)
      {
        TickNth(names, i, nexts, others, old(PdValues()), old(slots));
      }
      assert names[..|names|] == names;
    }

    // One pass of the main loop; the controllers that are not PD controllers say `others`.
    method TickOnce(nexts: map<string, PD.Next>, others: map<string, Output>)
      requires Valid() && GoodNexts(st, nexts)
      modifies this`slots, controllers.Values
      ensures Valid() && Sound(st, old(Value()))
      ensures Value() == Step(st, old(Value()), Tick(nexts, others))
    {
      hide TickPds, TickOuts, Merge;
      ValidSound();
      TickNamed(port.machine.controllers, nexts, others);
    }
  }
}
