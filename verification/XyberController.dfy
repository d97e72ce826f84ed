/** The registry that names domain controllers and actuators and routes commands by name. */
module XyberControllerModel {
  import opened PowerFlow
  import opened DcuPacket

  datatype ActuatorType = R86 | R52 | L28 | OmniPicker | Unknown

  const M_2PI: real := 6.283185307179586

  function DefaultParam(maxTorque: real): MitParam {
    MitParam(-M_2PI, M_2PI, -2.0 * M_2PI, 2.0 * M_2PI, -maxTorque, maxTorque, 0.0, 500.0, 0.0, 8.0)
  }

  function DeviceOf(t: ActuatorType, id: nat, channel: nat): (d: Device)
    requires t != Unknown
    ensures d.id == id && d.channel == channel
  {
    match t
    case R86 => Device(Rotary, id, channel, DefaultParam(100.0))
    case R52 => Device(Rotary, id, channel, DefaultParam(50.0))
    case L28 => Device(Linear, id, channel, DefaultParam(0.0))
    case OmniPicker => Device(Picker, id, channel, DefaultParam(0.0))
  }

  /** A freshly attached rotary actuator has a range for every quantity, so that an in-range
      command survives its frame: the codes come back, and position and velocity fed back read
      less than a quantum low. */
  lemma FreshActuatorUnderstood(t: ActuatorType, id: nat, channel: nat, m: Mit, recv: Slot)
    requires t == R86 || t == R52
    ensures var d := DeviceOf(t, id, channel); d.kind == Rotary && Ranged(d.mit)
    ensures var p := DeviceOf(t, id, channel).mit;
            InRange(p, m) && recv[..4] == PackMit(MitEncode(p, m))[..4] ==>
              && UnpackMit(PackMit(MitEncode(p, m))) == MitEncode(p, m)
              && GetPosition(p, recv) <= m.pos < GetPosition(p, recv) + Quantum(p.posMin, p.posMax, 16)
              && GetVelocity(p, recv) <= m.vel < GetVelocity(p, recv) + Quantum(p.velMin, p.velMax, 12)
  {
    hide PackMit, UnpackMit, MitEncode, GetPosition, GetVelocity, Quantum;
    var p := DeviceOf(t, id, channel).mit;
    if InRange(p, m) && recv[..4] == PackMit(MitEncode(p, m))[..4] {
      CommandSurvivesFrame(p, m, recv);
    }
  }

  const TURN: real := 6.283185307179586

  /** What the ends of a fresh rotary actuator's codes stand for: a turn either way, two turns a
      second, 500 and 8 for the gains, and 100 Nm for the larger kind, 50 Nm for the smaller. */
  lemma FreshScales(t: ActuatorType, id: nat, channel: nat)
    requires t == R86 || t == R52
    ensures var p := DeviceOf(t, id, channel).mit;
            var torque := if t == R86 then 100.0 else 50.0;
            && MitUintToFloat(0, p.posMin, p.posMax, 16) == -TURN
            && MitUintToFloat(65535, p.posMin, p.posMax, 16) == TURN
            && MitUintToFloat(0, p.velMin, p.velMax, 12) == -2.0 * TURN
            && MitUintToFloat(4095, p.velMin, p.velMax, 12) == 2.0 * TURN
            && MitUintToFloat(0, p.toqMin, p.toqMax, 12) == -torque
            && MitUintToFloat(4095, p.toqMin, p.toqMax, 12) == torque
            && MitUintToFloat(0, p.kpMin, p.kpMax, 12) == 0.0 && MitUintToFloat(4095, p.kpMin, p.kpMax, 12) == 500.0
            && MitUintToFloat(0, p.kdMin, p.kdMax, 12) == 0.0 && MitUintToFloat(4095, p.kdMin, p.kdMax, 12) == 8.0
  {
    hide MitUintToFloat, FullScale;
    FullScales();
    var p := DeviceOf(t, id, channel).mit;
    Ends(p.posMin, p.posMax, 16);
    Ends(p.velMin, p.velMax, 12);
    Ends(p.toqMin, p.toqMax, 12);
    Ends(p.kpMin, p.kpMax, 12);
    Ends(p.kdMin, p.kdMax, 12);
  }

  lemma Ends(lo: real, hi: real, bits: nat)
    requires lo < hi && bits > 0
    ensures MitUintToFloat(0, lo, hi, bits) == lo && MitUintToFloat(FullScale(bits), lo, hi, bits) == hi
  {
    DecodeWithin(0, lo, hi, bits);
    DecodeWithin(FullScale(bits), lo, hi, bits);
  }

  // The other kinds have a packet of their own.
  lemma KindsOfDevices(t: ActuatorType, id: nat, channel: nat)
    requires t != Unknown
    ensures var d := DeviceOf(t, id, channel);
            && d.id == id && d.channel == channel
            && (d.kind == Rotary <==> t == R86 || t == R52) && (d.kind == Linear <==> t == L28)
            && (d.kind == Picker <==> t == OmniPicker)
  {
  }

  // ---------------------------------------------------------------- the registry on values

  // The controllers by name, and for each actuator's name that of its controller.
  datatype Registry = Registry(nodes: map<string, Node>, owner: map<string, string>)

  datatype Call =
    | Create(dcu: string)
    | Attach(dcu: string, channel: nat, kind: ActuatorType, name: string, id: nat)
    | Tell(ev: Event)

  ghost predicate SoundAll(reg: Registry) {
    && (forall n :: n in reg.nodes ==> Sound(reg.nodes[n].bus))
    && (forall a :: a in reg.owner ==> reg.owner[a] in reg.nodes)
    && (forall n, a :: n in reg.nodes && a in reg.nodes[n].bus.devices ==> a in reg.owner && reg.owner[a] == n)
  }

  ghost predicate Legal(call: Call) {
    call.Attach? ==> call.channel < 3
                     && (call.id > 0 && call.kind != Unknown ==> InPacket(DeviceOf(call.kind, call.id, call.channel)))
  }

  predicate Accepts(reg: Registry, call: Call)
    requires call.Attach?
  {
    call.id != 0 && call.dcu in reg.nodes && call.name !in reg.owner && call.kind != Unknown
  }

  ghost function Step(enc: FloatBytes, reg: Registry, call: Call): (r: Registry)
    requires SoundAll(reg) && Legal(call)
    ensures SoundAll(r)
  {
    match call
    case Create(dcu) => if dcu in reg.nodes then reg else reg.(nodes := reg.nodes[dcu := FreshNode()])
    case Attach(dcu, channel, kind, name, id) =>
      if Accepts(reg, call) then
        var node := Register(enc, reg.nodes[dcu], name, DeviceOf(kind, id, channel));
        Registry(reg.nodes[dcu := node], reg.owner[name := dcu])
      else reg
    case Tell(ev) =>
      if ev.name in reg.owner then
        var dcu := reg.owner[ev.name];
        reg.(nodes := reg.nodes[dcu := reg.nodes[dcu].(bus := Apply(enc, reg.nodes[dcu].bus, ev))])
      else reg
  }

  ghost predicate AllLegal(calls: seq<Call>) {
    forall i :: 0 <= i < |calls| ==> Legal(calls[i])
  }

  ghost function Run(enc: FloatBytes, reg: Registry, calls: seq<Call>): (r: Registry)
    requires SoundAll(reg) && AllLegal(calls)
    ensures SoundAll(r)
  {
    if calls == [] then reg else Step(enc, Run(enc, reg, calls[..|calls| - 1]), calls[|calls| - 1])
  }

  // What reaches one controller.
  datatype Letter = Enrol(name: string, d: Device) | Deliver(ev: Event)

  ghost predicate Enrolable(letters: seq<Letter>) {
    forall i :: 0 <= i < |letters| && letters[i].Enrol? ==> InPacket(letters[i].d)
  }

  ghost function Receive(enc: FloatBytes, node: Node, l: Letter): (r: Node)
    requires Sound(node.bus) && (l.Enrol? ==> InPacket(l.d))
    ensures Sound(r.bus)
  {
    if l.Enrol? then Register(enc, node, l.name, l.d) else node.(bus := Apply(enc, node.bus, l.ev))
  }

  ghost function NodeRun(enc: FloatBytes, node: Node, letters: seq<Letter>): (r: Node)
    requires Sound(node.bus) && Enrolable(letters)
    ensures Sound(r.bus)
  {
    if letters == [] then node
    else Receive(enc, NodeRun(enc, node, letters[..|letters| - 1]), letters[|letters| - 1])
  }

  // The letters a call sends to the controller, in a given state of the registry.
  ghost function LettersOf(reg: Registry, call: Call, dcu: string): (ls: seq<Letter>)
    requires Legal(call)
    ensures Enrolable(ls)
  {
    match call
    case Create(_) => []
    case Attach(to, channel, kind, name, id) =>
      if to == dcu && Accepts(reg, call) then [Enrol(name, DeviceOf(kind, id, channel))] else []
    case Tell(ev) => if ev.name in reg.owner && reg.owner[ev.name] == dcu then [Deliver(ev)] else []
  }

  ghost function Mail(enc: FloatBytes, reg: Registry, calls: seq<Call>, dcu: string): (ls: seq<Letter>)
    requires SoundAll(reg) && AllLegal(calls)
    ensures Enrolable(ls)
  {
    if calls == [] then []
    else
      var rest := calls[..|calls| - 1];
      Mail(enc, reg, rest, dcu) + LettersOf(Run(enc, reg, rest), calls[|calls| - 1], dcu)
  }

  function Empty(): Registry {
    Registry(map[], map[])
  }

  lemma NodeStep(enc: FloatBytes, node: Node, letters: seq<Letter>, l: Letter)
    requires Sound(node.bus) && Enrolable(letters) && (l.Enrol? ==> InPacket(l.d))
    ensures Enrolable(letters + [l])
    ensures NodeRun(enc, node, letters + [l]) == Receive(enc, NodeRun(enc, node, letters), l)
  {
    assert (letters + [l])[..|letters|] == letters;
  }

  /** Over any interleaving of creations, attachments, commands and parameter changes, each
      controller is what its own mail alone makes of a fresh one, and nothing is delivered to a
      name before a controller of that name exists. */
  lemma {:induction false} EachControllerByItsOwnMail(enc: FloatBytes, calls: seq<Call>, dcu: string)
    requires AllLegal(calls)
    ensures var r, mail := Run(enc, Empty(), calls), Mail(enc, Empty(), calls, dcu);
            && (dcu in r.nodes <==> Create(dcu) in calls)
            && (dcu in r.nodes ==> r.nodes[dcu] == NodeRun(enc, FreshNode(), mail))
            && (dcu !in r.nodes ==> mail == [])
  {
    if calls != [] {
      var rest, call := calls[..|calls| - 1], calls[|calls| - 1];
      assert calls == rest + [call];
      EachControllerByItsOwnMail(enc, rest, dcu);
      MailStep(enc, Run(enc, Empty(), rest), Mail(enc, Empty(), rest, dcu), call, dcu);
    }
  }

  lemma MailStep(enc: FloatBytes, reg: Registry, mail: seq<Letter>, call: Call, dcu: string)
    requires SoundAll(reg) && Legal(call) && Enrolable(mail)
    requires dcu in reg.nodes ==> reg.nodes[dcu] == NodeRun(enc, FreshNode(), mail)
    requires dcu !in reg.nodes ==> mail == []
    ensures var r, more := Step(enc, reg, call), mail + LettersOf(reg, call, dcu);
            && (dcu in r.nodes <==> dcu in reg.nodes || call == Create(dcu))
            && (dcu in r.nodes ==> r.nodes[dcu] == NodeRun(enc, FreshNode(), more))
            && (dcu !in r.nodes ==> more == [])
  {
    hide Apply, Register;
    var ls := LettersOf(reg, call, dcu);
    if ls == [] {
      assert mail + ls == mail;
    } else {
      NodeStep(enc, FreshNode(), mail, ls[0]);
    }
  }

  /** An attachment the full channel turned away routes its name to a controller that does not
      know it: over any further calls it stays unknown, and whatever is sent to it has no
      effect anywhere. */
  lemma {:induction false} TurnedAwayForEver(enc: FloatBytes, reg: Registry, calls: seq<Call>, ev: Event)
    requires SoundAll(reg) && AllLegal(calls)
    requires ev.name in reg.owner && ev.name !in reg.nodes[reg.owner[ev.name]].bus.devices
    ensures var r := Run(enc, reg, calls);
            && ev.name in r.owner && r.owner[ev.name] == reg.owner[ev.name]
            && ev.name !in r.nodes[r.owner[ev.name]].bus.devices
            && Step(enc, r, Tell(ev)) == r
  {
    if calls != [] {
      var rest, call := calls[..|calls| - 1], calls[|calls| - 1];
      TurnedAwayForEver(enc, reg, rest, ev);
      StillUnknown(enc, Run(enc, reg, rest), call, ev);
    } else {
      StillUnknown(enc, reg, Tell(ev), ev);
    }
  }

  lemma StillUnknown(enc: FloatBytes, reg: Registry, call: Call, ev: Event)
    requires SoundAll(reg) && Legal(call)
    requires ev.name in reg.owner && ev.name !in reg.nodes[reg.owner[ev.name]].bus.devices
    ensures var r := Step(enc, reg, call);
            && ev.name in r.owner && r.owner[ev.name] == reg.owner[ev.name]
            && ev.name !in r.nodes[r.owner[ev.name]].bus.devices
            && Step(enc, r, Tell(ev)) == r
  {
    hide Overlay, SlotAt, Bind, SlotOffset, InPacket;
    if call.Tell? {
      var node := reg.nodes[reg.owner[ev.name]];
      ApplyAddresses(enc, node.bus, call.ev);
      hide Apply;
      TellOutcome(enc, reg, call.ev);
    }
    TellUnknown(enc, Step(enc, reg, call), ev);
  }

  lemma TellUnknown(enc: FloatBytes, reg: Registry, ev: Event)
    requires SoundAll(reg) && ev.name in reg.owner && ev.name !in reg.nodes[reg.owner[ev.name]].bus.devices
    ensures Step(enc, reg, Tell(ev)) == reg
  {
  }

  /** An accepted attachment is known to its controller exactly when the channel had room. */
  lemma AttachOutcome(enc: FloatBytes, reg: Registry, dcu: string, channel: nat, t: ActuatorType, name: string, id: nat)
    requires SoundAll(reg) && Legal(Attach(dcu, channel, t, name, id))
    ensures var r := Step(enc, reg, Attach(dcu, channel, t, name, id));
            && (forall n :: n in reg.nodes && n != dcu ==> n in r.nodes && r.nodes[n] == reg.nodes[n])
            && (name !in reg.owner && name in r.owner ==>
                  && dcu in reg.nodes && r.owner == reg.owner[name := dcu] && t != Unknown
                  && (name in r.nodes[dcu].bus.devices
                      <==> |ListOf(reg.nodes[dcu], channel)| < MAX_CHANNEL_DEVICES)
                  && (name in r.nodes[dcu].bus.devices ==>
                        r.nodes[dcu].bus.devices == reg.nodes[dcu].bus.devices[name := DeviceOf(t, id, channel)]))
            && (name in reg.owner ==> r == reg)
  {
    hide Overlay, Bind, SlotAt, SlotOffset;
  }

  // ---------------------------------------------------------------- traffic

  function Tells(evs: seq<Event>): (calls: seq<Call>)
    ensures |calls| == |evs|
  {
    seq(|evs|, i requires 0 <= i < |evs| => Tell(evs[i]))
  }

  // The events addressed to the controller's actuators.
  function Addressed(owner: map<string, string>, evs: seq<Event>, dcu: string): seq<Event> {
    if evs == [] then []
    else (if evs[0].name in owner && owner[evs[0].name] == dcu then [evs[0]] else []) + Addressed(owner, evs[1..], dcu)
  }

  lemma {:induction false} AddressedAppend(owner: map<string, string>, evs: seq<Event>, ev: Event, dcu: string)
    ensures Addressed(owner, evs + [ev], dcu)
            == Addressed(owner, evs, dcu) + if ev.name in owner && owner[ev.name] == dcu then [ev] else []
  {
    if evs == [] {
      assert [] + [ev] == [ev] && [ev][1..] == [];
    } else {
      assert (evs + [ev])[1..] == evs[1..] + [ev];
      AddressedAppend(owner, evs[1..], ev, dcu);
    }
  }

  lemma {:induction false} OwnOfAddressed(owner: map<string, string>, evs: seq<Event>, name: string, dcu: string)
    requires name in owner && owner[name] == dcu
    ensures Own(Addressed(owner, evs, dcu), name) == Own(evs, name)
  {
    if evs != [] {
      var ev, rest := evs[0], evs[1..];
      OwnOfAddressed(owner, rest, name, dcu);
      if ev.name in owner && owner[ev.name] == dcu {
        OwnCons(ev, Addressed(owner, rest, dcu), name);
        OwnCons(ev, rest, name);
        assert [ev] + rest == evs;
      } else {
        assert [] + Addressed(owner, rest, dcu) == Addressed(owner, rest, dcu);
        OwnCons(ev, rest, name);
        assert [ev] + rest == evs && [] + Own(rest, name) == Own(rest, name);
      }
    }
  }

  lemma OwnCons(ev: Event, rest: seq<Event>, name: string)
    ensures Own([ev] + rest, name) == (if ev.name == name then [ev] else []) + Own(rest, name)
  {
    assert ([ev] + rest)[1..] == rest;
  }

  lemma TellStep(enc: FloatBytes, reg: Registry, ev: Event, dcu: string)
    requires SoundAll(reg) && dcu in reg.nodes
    ensures var r := Step(enc, reg, Tell(ev));
            && r.owner == reg.owner && dcu in r.nodes
            && r.nodes[dcu].bus == if ev.name in reg.owner && reg.owner[ev.name] == dcu
                                   then Apply(enc, reg.nodes[dcu].bus, ev) else reg.nodes[dcu].bus
  {
    hide Apply;
  }

  // Once attached, every controller's packet is the run of the events addressed to it.
  lemma {:induction false} TrafficIsRun(enc: FloatBytes, reg: Registry, evs: seq<Event>, dcu: string)
    requires SoundAll(reg) && dcu in reg.nodes
    ensures AllLegal(Tells(evs))
    ensures var r := Run(enc, reg, Tells(evs));
            && r.owner == reg.owner && dcu in r.nodes
            && r.nodes[dcu].bus == DcuPacket.Run(enc, reg.nodes[dcu].bus, Addressed(reg.owner, evs, dcu))
  {
    hide Step, Apply;
    if evs != [] {
      var rest, ev := evs[..|evs| - 1], evs[|evs| - 1];
      TrafficIsRun(enc, reg, rest, dcu);
      assert Tells(evs)[..|evs| - 1] == Tells(rest) && evs == rest + [ev];
      var mid, own := Run(enc, reg, Tells(rest)), Addressed(reg.owner, rest, dcu);
      TellStep(enc, mid, ev, dcu);
      AddressedAppend(reg.owner, rest, ev, dcu);
      if ev.name in reg.owner && reg.owner[ev.name] == dcu {
        RunAppend(enc, reg.nodes[dcu].bus, own, ev);
      } else {
        assert own + [] == own;
      }
    } else {
      assert Tells(evs) == [];
    }
  }

  /** On a robot whose controllers are properly addressed, after any traffic whatever over the
      registry an attached actuator's slot is what the commands and parameter changes in its own
      name alone make of it. */
  lemma SlotAcrossRegistry(enc: FloatBytes, reg: Registry, evs: seq<Event>, name: string)
    requires SoundAll(reg) && name in reg.owner
    requires var bus := reg.nodes[reg.owner[name]].bus; name in bus.devices && WellAddressed(bus.devices)
    ensures AllLegal(Tells(evs))
    ensures var dcu, r := reg.owner[name], Run(enc, reg, Tells(evs));
            var bus := reg.nodes[dcu].bus;
            var d := bus.devices[name];
            && dcu in r.nodes && name in r.nodes[dcu].bus.devices
            && (SlotAt(r.nodes[dcu].bus.buf, SlotOffset(d)), r.nodes[dcu].bus.devices[name])
               == PrivateRun(enc, SlotAt(bus.buf, SlotOffset(d)), d, Own(evs, name))
  {
    hide PrivateRun, SlotAt, WellAddressed, Run, DcuPacket.Run;
    var dcu := reg.owner[name];
    TrafficIsRun(enc, reg, evs, dcu);
    SlotsArePrivate(enc, reg.nodes[dcu].bus, Addressed(reg.owner, evs, dcu), name);
    OwnOfAddressed(reg.owner, evs, name, dcu);
  }

  lemma TellOutcome(enc: FloatBytes, reg: Registry, ev: Event)
    requires SoundAll(reg)
    ensures var r := Step(enc, reg, Tell(ev));
            if ev.name in reg.owner then
              var node := reg.nodes[reg.owner[ev.name]];
              r == Registry(reg.nodes[reg.owner[ev.name] := Node(Apply(enc, node.bus, ev), node.lists)], reg.owner)
            else r == reg
  {
    hide Apply;
  }

  lemma AttachStep(enc: FloatBytes, reg: Registry, dcu: string, channel: nat, t: ActuatorType, name: string, id: nat)
    requires SoundAll(reg) && Legal(Attach(dcu, channel, t, name, id))
    ensures var r := Step(enc, reg, Attach(dcu, channel, t, name, id));
            if id != 0 && dcu in reg.nodes && name !in reg.owner && t != Unknown then
              && name !in reg.nodes[dcu].bus.devices && InPacket(DeviceOf(t, id, channel))
              && r == Registry(reg.nodes[dcu := Register(enc, reg.nodes[dcu], name, DeviceOf(t, id, channel))],
                               reg.owner[name := dcu])
            else r == reg
  {
    hide Register;
  }

  // ---------------------------------------------------------------- the registry object

  class XyberController {
    const enc: FloatBytes
    var dcus: map<string, Dcu>
    var owner: map<string, Dcu>
    ghost var model: Registry

    ghost predicate Apart()
      reads this`dcus
    {
      forall n, m :: n in dcus && m in dcus && n != m ==>
        dcus[n] != dcus[m] && dcus[n].sendBuf != dcus[m].sendBuf
    }

    ghost predicate Mirrors(nodes: map<string, Node>)
      reads this`dcus, Frame()
    {
      && dcus.Keys == nodes.Keys
      && (forall n :: n in dcus ==> dcus[n].Valid() && dcus[n].enc == enc && dcus[n].Value() == nodes[n])
    }

    ghost predicate Routes(names: map<string, string>)
      reads this`dcus, this`owner
    {
      && owner.Keys == names.Keys
      && (forall a :: a in owner ==> names[a] in dcus && owner[a] == dcus[names[a]])
    }

    ghost predicate Valid()
      reads this, Frame()
    {
      && (forall n :: n in dcus ==> dcus[n].Valid())
      && Apart() && Mirrors(model.nodes) && Routes(model.owner) && SoundAll(model)
    }

    ghost function Frame(): set<object>
      reads this`dcus
    {
      dcus.Values + set d | d in dcus.Values :: d.sendBuf
    }

    constructor (enc: FloatBytes)
      ensures Valid() && dcus == map[] && owner == map[] && this.enc == enc && model == Empty()
    {
      this.enc, dcus, owner, model := enc, map[], map[], Empty();
    }

    lemma AllValid(nodes: map<string, Node>)
      requires Mirrors(nodes)
      ensures forall n :: n in dcus ==> dcus[n].Valid()
    {
    }

    // The registry on values takes its next state; the objects stay as they are.
    ghost method Remodel(next: Registry)
      requires Apart() && Mirrors(next.nodes) && Routes(next.owner) && SoundAll(next)
      modifies this`model
      ensures model == next && Valid()
    {
      hide Apart, SoundAll, Dcu.Valid, Dcu.Value;
      model := next;
    }

    lemma FreshAgree(n: string)
      requires Mirrors(model.nodes) && n in dcus
      ensures dcus[n].Valid() && dcus[n].Value() == model.nodes[n]
    {
    }

    lemma DevicesOf(n: string)
      requires Mirrors(model.nodes) && n in dcus
      ensures dcus[n].devices == model.nodes[n].bus.devices
    {
    }

    lemma StatesAgree()
      requires Valid()
      ensures forall n :: n in dcus ==> dcus[n].Valid() && dcus[n].State() == model.nodes[n].bus
    {
    }

    lemma ListsAgree(n: string, channel: nat)
      requires Valid() && n in dcus
      ensures dcus[n].devices == model.nodes[n].bus.devices
      ensures dcus[n].Attached(channel) == |ListOf(model.nodes[n], channel)|
    {
    }

    lemma KeysAgree()
      requires Mirrors(model.nodes) && Routes(model.owner)
      ensures dcus.Keys == model.nodes.Keys && owner.Keys == model.owner.Keys
      ensures forall a :: a in owner ==> model.owner[a] in dcus && owner[a] == dcus[model.owner[a]]
    {
    }

    method CreateDcu(name: string, id: nat) returns (ok: bool)
      requires Valid()
      modifies this`dcus, this`model
      ensures Valid() && (ok <==> name !in old(dcus))
      ensures model == Step(enc, old(model), Create(name))
      ensures !ok ==> dcus == old(dcus)
      ensures ok ==> && dcus.Keys == old(dcus).Keys + {name} && fresh(dcus[name]) && fresh(dcus[name].sendBuf)
                     && dcus[name].ecatId == id && dcus[name].Value() == FreshNode()
                     && (forall n :: n in old(dcus) ==> dcus[n] == old(dcus)[n])
    {
      hide Mirrors, Routes, Apart, SoundAll, Dcu.Valid, Dcu.Value, Dcu.State;
      KeysAgree();
      if name in dcus {
        return false;
      }
      ghost var next := Step(enc, model, Create(name));
      AddMirrored(name, id);
      Remodel(next);
      FreshAgree(name);
      ok := true;
    }

    method AddMirrored(name: string, id: nat)
      requires Apart() && Mirrors(model.nodes) && Routes(model.owner) && name !in dcus
      modifies this`dcus
      ensures Apart() && Mirrors(model.nodes[name := FreshNode()]) && Routes(model.owner)
      ensures fresh(dcus[name]) && fresh(dcus[name].sendBuf) && dcus[name].ecatId == id
      ensures dcus.Keys == old(dcus).Keys + {name} && forall n :: n in old(dcus) ==> dcus[n] == old(dcus)[n]
    {
      hide Apart, Dcu.Valid, Dcu.Value, FreshNode;
      AddDcu(name, id);
    }

    method AddDcu(name: string, id: nat)
      requires Apart() && Mirrors(model.nodes) && name !in dcus
      modifies this`dcus
      ensures Apart() && dcus.Keys == old(dcus).Keys + {name}
      ensures fresh(dcus[name]) && fresh(dcus[name].sendBuf)
      ensures dcus[name].ecatId == id && dcus[name].enc == enc && dcus[name].Valid() && dcus[name].Value() == FreshNode()
      ensures forall n :: n in old(dcus) ==> dcus[n] == old(dcus)[n]
    {
      hide Dcu.Valid, Dcu.Value, FreshNode;
      var d := new Dcu(id, enc);
      dcus := dcus[name := d];
      assert forall n :: n in dcus && n != name ==> dcus[n] == old(dcus)[n];
    }

    // One controller's new value, the others' being as they were.
    method RegisterAt(dcuName: string, name: string, d: Device)
      requires Apart() && Mirrors(model.nodes) && SoundAll(model) && InPacket(d)
      requires dcuName in dcus && name !in model.nodes[dcuName].bus.devices
      modifies dcus[dcuName], dcus[dcuName].sendBuf
      ensures Mirrors(model.nodes[dcuName := Register(enc, model.nodes[dcuName], name, d)])
    {
      hide Register, InPacket, Dcu.Valid, Dcu.Value;
      DevicesOf(dcuName);
      assert forall n :: n in dcus && n != dcuName ==> dcus[n] != dcus[dcuName];
      dcus[dcuName].RegisterActuator(name, d);
    }

    method Enroll(dcuName: string, name: string, d: Device)
      requires Apart() && Mirrors(model.nodes) && Routes(model.owner) && SoundAll(model) && InPacket(d)
      requires dcuName in dcus && name !in owner && name !in model.nodes[dcuName].bus.devices
      modifies this`owner, dcus[dcuName], dcus[dcuName].sendBuf
      ensures owner == old(owner)[name := dcus[dcuName]] && Routes(model.owner[name := dcuName])
      ensures Mirrors(model.nodes[dcuName := Register(enc, model.nodes[dcuName], name, d)])
    {
      hide Register, InPacket, Dcu.Valid, Dcu.Value, SoundAll, Apart;
      RegisterAt(dcuName, name, d);
      owner := owner[name := dcus[dcuName]];
    }

    /** The first attachment of a name wins. The answer does not tell whether the channel had
        room: an actuator turned away by its domain controller is still routed to it, and
        nothing sent to it will ever leave. */
    method AttachActuator(dcuName: string, channel: nat, t: ActuatorType, name: string, id: nat)
      returns (ok: bool)
      requires Valid() && Legal(Attach(dcuName, channel, t, name, id))
      modifies this`owner, this`model, Frame()
      ensures Valid() && model == Step(enc, old(model), Attach(dcuName, channel, t, name, id))
      ensures ok <==> id != 0 && dcuName in dcus && name !in old(owner) && t != Unknown
      ensures owner == if ok then old(owner)[name := dcus[dcuName]] else old(owner)
      ensures ok ==> (name in dcus[dcuName].devices
                      <==> old(dcus[dcuName].Attached(channel)) < MAX_CHANNEL_DEVICES)
      ensures ok && name in dcus[dcuName].devices ==>
                dcus[dcuName].devices == old(dcus[dcuName].devices)[name := DeviceOf(t, id, channel)]
      ensures forall n :: n in dcus && (n != dcuName || !ok) ==> dcus[n].State() == old(dcus[n].State())
    {
      hide Step, Register, DeviceOf, Apart, Mirrors, Routes, SoundAll, ListOf, Dcu.State, Dcu.Valid, Dcu.Attached;
      AttachOutcome(enc, model, dcuName, channel, t, name, id);
      KeysAgree();
      StatesAgree();
      AttachStep(enc, model, dcuName, channel, t, name, id);
      ok := false;
      if id == 0 || dcuName !in dcus || name in owner || t == Unknown {
        return;
      }
      ghost var next := Step(enc, model, Attach(dcuName, channel, t, name, id));
      ListsAgree(dcuName, channel);
      Enroll(dcuName, name, DeviceOf(t, id, channel));
      model := next;
      AllValid(model.nodes);
      StatesAgree();
      ListsAgree(dcuName, channel);
      ok := true;
    }

    method ForwardCmd(dcu: Dcu, name: string, m: Mit, ghost dcuName: string)
      requires Apart() && Mirrors(model.nodes) && SoundAll(model) && dcuName in dcus && dcu == dcus[dcuName]
      modifies dcu.sendBuf
      ensures Mirrors(Told(model, dcuName, Send(name, DcuPacket.SetMitCmd(m))))
    {
      hide Apply, Dcu.Valid, Dcu.Value, Dcu.State;
      assert forall n :: n in dcus && n != dcuName ==> dcus[n] != dcu;
      dcu.Command(name, DcuPacket.SetMitCmd(m));
    }

    method ForwardParam(dcu: Dcu, name: string, p: MitParam, ghost dcuName: string)
      requires Apart() && Mirrors(model.nodes) && SoundAll(model) && dcuName in dcus && dcu == dcus[dcuName]
      modifies dcu`devices
      ensures Mirrors(Told(model, dcuName, SetParam(name, p)))
    {
      hide Apply, Dcu.Valid, Dcu.Value, Dcu.State;
      assert forall n :: n in dcus && n != dcuName ==> dcus[n] != dcu;
      dcu.SetMitParam(name, p);
    }

    // The nodes after one of them was told of the event.
    ghost function Told(reg: Registry, dcuName: string, ev: Event): map<string, Node>
      requires SoundAll(reg) && dcuName in reg.nodes
    {
      reg.nodes[dcuName := Node(Apply(enc, reg.nodes[dcuName].bus, ev), reg.nodes[dcuName].lists)]
    }

    /** A command by name reaches the one controller that owns the name, and no other. */
    method SetMitCmd(name: string, m: Mit)
      requires Valid()
      modifies this`model, Frame()
      ensures Valid() && model == Step(enc, old(model), Tell(Send(name, DcuPacket.SetMitCmd(m))))
      ensures name in owner ==>
                owner[name].State() == Apply(enc, old(owner[name].State()), Send(name, DcuPacket.SetMitCmd(m)))
      ensures forall n :: n in dcus && (name !in owner || dcus[n] != owner[name]) ==>
                dcus[n].State() == old(dcus[n].State())
    {
      hide Step, Apply, SoundAll, Apart, Mirrors, Routes, Dcu.State, Dcu.Valid;
      KeysAgree();
      StatesAgree();
      ghost var next := Step(enc, model, Tell(Send(name, DcuPacket.SetMitCmd(m))));
      TellOutcome(enc, model, Send(name, DcuPacket.SetMitCmd(m)));
      if name in owner {
        ForwardCmd(owner[name], name, m, model.owner[name]);
      }
      model := next;
      AllValid(model.nodes);
      StatesAgree();
    }

    method SetMitParam(name: string, p: MitParam)
      requires Valid()
      modifies this`model, Frame()
      ensures Valid() && model == Step(enc, old(model), Tell(SetParam(name, p)))
      ensures name in owner ==> owner[name].State() == Apply(enc, old(owner[name].State()), SetParam(name, p))
      ensures forall n :: n in dcus && (name !in owner || dcus[n] != owner[name]) ==>
                dcus[n].State() == old(dcus[n].State())
    {
      hide Step, Apply, SoundAll, Apart, Mirrors, Routes, Dcu.State, Dcu.Valid;
      KeysAgree();
      StatesAgree();
      ghost var next := Step(enc, model, Tell(SetParam(name, p)));
      TellOutcome(enc, model, SetParam(name, p));
      if name in owner {
        ForwardParam(owner[name], name, p, model.owner[name]);
      }
      model := next;
      AllValid(model.nodes);
      StatesAgree();
    }
  }
}
