/** The send packet of one domain controller: three CAN channels of eight slots with a
    control byte each, written in place by the commands of up to 24 actuators. */
module DcuPacket {
  import opened Arithmetic
  import opened PowerFlow

  const PACKET_SIZE := 240
  const CHANNEL_SIZE := 65
  const IMU_CMD := 195
  const BROADCAST_ID := 255
  const MAX_CHANNEL_DEVICES := 8

  datatype Kind = Rotary | Linear | Picker

  datatype Device = Device(kind: Kind, id: nat, channel: nat, mit: MitParam)

  datatype Command =
    | RequestState(state: byte)
    | ClearError
    | SetHomingPosition
    | SaveConfig
    | SetMode(mode: byte)
    | SetEffort(x: real)
    | SetVelocity(x: real)
    | SetPosition(x: real)
    | SetMitCmd(m: Mit)

  datatype Event = Send(name: string, cmd: Command) | SetParam(name: string, p: MitParam)

  // The four bytes of a single-precision number in memory.
  type Word = w: seq<byte> | |w| == 4 witness [0, 0, 0, 0]
  type FloatBytes = real -> Word

  // ---------------------------------------------------------------- one actuator

  function Min1(x: real): real {
    if x > 1.0 then 1.0 else x
  }

  // What a command leaves in the eight bytes of its actuator.
  function Write(enc: FloatBytes, d: Device, slot: Slot, cmd: Command): Slot {
    match d.kind
    case Rotary =>
      (match cmd
       case RequestState(state) => [0x01, state] + slot[2..]
       case ClearError => [0x02] + slot[1..]
       case SetHomingPosition => [0x03] + slot[1..]
       case SaveConfig => [0xCC, 123] + slot[2..]
       case SetMode(mode) => [0x0B, mode] + slot[2..]
       case SetEffort(x) => [0x67] + enc(x) + slot[5..]
       case SetVelocity(x) => [0x66] + enc(x) + slot[5..]
       case SetPosition(x) => [0x65] + enc(x) + slot[5..]
       case SetMitCmd(m) => PackMit(MitEncode(d.mit, m)))
    case Linear =>
      (match cmd
       case SetEffort(x) => slot[..4] + enc(x)
       case SetPosition(x) => enc(x) + slot[4..]
       case SetMitCmd(m) => enc(m.pos) + slot[4..]
       case _ => slot)
    case Picker =>
      (match cmd
       case SetMitCmd(m) =>
         [slot[0], Byte(Trunc(255.0 * Min1(m.pos))), Byte(Trunc(255.0 * Min1(m.toq))), 255, 255, 255] + slot[6..]
       case _ => slot)
  }

  function SetParamOf(d: Device, p: MitParam): Device {
    if d.kind == Rotary then d.(mit := p) else d
  }

  // An actuator on its own: its slot and parameters after a history of its own events.
  function PrivateRun(enc: FloatBytes, slot: Slot, d: Device, evs: seq<Event>): (r: (Slot, Device))
    decreases |evs|
  {
    if evs == [] then (slot, d)
    else match evs[0]
      case Send(_, cmd) => PrivateRun(enc, Write(enc, d, slot, cmd), d, evs[1..])
      case SetParam(_, p) => PrivateRun(enc, slot, SetParamOf(d, p), evs[1..])
  }

  function Own(evs: seq<Event>, name: string): seq<Event> {
    if evs == [] then []
    else (if evs[0].name == name then [evs[0]] else []) + Own(evs[1..], name)
  }

  // ---------------------------------------------------------------- the flat packet

  function CtrlOffset(channel: nat): nat {
    CHANNEL_SIZE * channel
  }

  function SlotOffset(d: Device): (off: int)
    ensures d.id >= 1 ==> off >= 1
  {
    CtrlOffset(d.channel) + 1 + 8 * (d.id - 1)
  }

  ghost predicate InPacket(d: Device) {
    d.channel < 3 && 1 <= d.id && SlotOffset(d) + 8 <= PACKET_SIZE
  }

  function CtrlCode(id: nat): byte
    requires id > 0
  {
    if id == BROADCAST_ID then 255 else Byte(Pow2(id - 1))
  }

  function CommandCtrl(d: Device, cmd: Command): byte
    requires d.id > 0
  {
    if cmd.SetMitCmd? then CtrlCode(BROADCAST_ID) else CtrlCode(d.id)
  }

  function SlotAt(buf: seq<byte>, off: nat): Slot
    requires off + 8 <= |buf|
  {
    buf[off..off + 8]
  }

  function Overlay(buf: seq<byte>, off: nat, slot: Slot): (r: seq<byte>)
    requires off + 8 <= |buf|
    ensures |r| == |buf|
  {
    buf[..off] + slot + buf[off + 8..]
  }

  datatype Bus = Bus(buf: seq<byte>, devices: map<string, Device>)

  ghost predicate Sound(bus: Bus) {
    |bus.buf| == PACKET_SIZE && forall n :: n in bus.devices ==> InPacket(bus.devices[n])
  }

  ghost function Apply(enc: FloatBytes, bus: Bus, ev: Event): (r: Bus)
    requires Sound(bus)
    ensures Sound(r)
  {
    if ev.name !in bus.devices then bus
    else
      var d := bus.devices[ev.name];
      match ev
      case SetParam(name, p) => bus.(devices := bus.devices[name := SetParamOf(d, p)])
      case Send(_, cmd) =>
        var off := SlotOffset(d);
        var written := Overlay(bus.buf, off, Write(enc, d, SlotAt(bus.buf, off), cmd));
        bus.(buf := written[CtrlOffset(d.channel) := CommandCtrl(d, cmd)])
  }

  ghost function Run(enc: FloatBytes, bus: Bus, evs: seq<Event>): (r: Bus)
    requires Sound(bus)
    ensures Sound(r)
    decreases |evs|
  {
    if evs == [] then bus else Run(enc, Apply(enc, bus, evs[0]), evs[1..])
  }

  // The addressing a configuration must respect, and which attaching does not check.
  ghost predicate WellAddressed(devices: map<string, Device>) {
    && (forall n :: n in devices ==> 1 <= devices[n].id <= 8 && devices[n].channel < 3)
    && (forall n, m :: n in devices && m in devices && n != m ==>
          devices[n].channel != devices[m].channel || devices[n].id != devices[m].id)
  }

  const L28_MAX_CUR: real := 2.5

  // Binding an actuator to its slot; the linear kind starts with a default current.
  function Bind(enc: FloatBytes, d: Device, slot: Slot): Slot {
    if d.kind == Linear then slot[..4] + enc(L28_MAX_CUR) else slot
  }

  // ---------------------------------------------------------------- addressing

  /** A slot lies in its own channel's data exactly for identifiers 1 to 8. */
  lemma SlotInChannel(d: Device)
    ensures CtrlOffset(d.channel) < SlotOffset(d) && SlotOffset(d) + 8 <= CtrlOffset(d.channel + 1)
            <==> 1 <= d.id <= 8
  {
  }

  /** Two slots addressed so are apart exactly when channel or identifier differ. */
  lemma SlotsDisjoint(d: Device, e: Device)
    requires 1 <= d.id <= 8 && 1 <= e.id <= 8
    ensures SlotOffset(d) + 8 <= SlotOffset(e) || SlotOffset(e) + 8 <= SlotOffset(d)
            <==> d.channel != e.channel || d.id != e.id
  {
  }

  // Identifier 9, which attaching accepts, writes over the next channel's control byte.
  lemma NinthOverwritesControl(kind: Kind, mit: MitParam)
    ensures SlotOffset(Device(kind, 9, 0, mit)) == CtrlOffset(1)
  {
  }

  // ---------------------------------------------------------------- refinement

  ghost predicate SameAddresses(devices: map<string, Device>, devices': map<string, Device>) {
    && devices.Keys == devices'.Keys
    && forall n :: n in devices ==> devices[n].channel == devices'[n].channel && devices[n].id == devices'[n].id
  }

  lemma ApplyAddresses(enc: FloatBytes, bus: Bus, ev: Event)
    requires Sound(bus)
    ensures SameAddresses(bus.devices, Apply(enc, bus, ev).devices)
    ensures WellAddressed(bus.devices) ==> WellAddressed(Apply(enc, bus, ev).devices)
  {
  }

  // A command writes its actuator's slot and its channel's control byte, and nothing else.
  lemma ApplyBytes(enc: FloatBytes, bus: Bus, ev: Event)
    requires Sound(bus) && WellAddressed(bus.devices)
    requires ev.Send? && ev.name in bus.devices
    ensures var d, r := bus.devices[ev.name], Apply(enc, bus, ev).buf;
            && SlotAt(r, SlotOffset(d)) == Write(enc, d, SlotAt(bus.buf, SlotOffset(d)), ev.cmd)
            && r[CtrlOffset(d.channel)] == CommandCtrl(d, ev.cmd)
            && forall i | 0 <= i < PACKET_SIZE && i != CtrlOffset(d.channel)
                          && (i < SlotOffset(d) || SlotOffset(d) + 8 <= i) :: r[i] == bus.buf[i]
  {
  }

  lemma ApplyOther(enc: FloatBytes, bus: Bus, ev: Event, n: string)
    requires Sound(bus) && WellAddressed(bus.devices)
    requires n in bus.devices && n != ev.name
    ensures var off := SlotOffset(bus.devices[n]);
            SlotAt(Apply(enc, bus, ev).buf, off) == SlotAt(bus.buf, off)
  {
  }

  lemma ApplyLocal(enc: FloatBytes, bus: Bus, ev: Event, n: string)
    requires Sound(bus) && WellAddressed(bus.devices) && n in bus.devices
    ensures var d, r := bus.devices[n], Apply(enc, bus, ev);
            && n in r.devices && SlotOffset(r.devices[n]) == SlotOffset(d)
            && (SlotAt(r.buf, SlotOffset(d)), r.devices[n])
               == PrivateRun(enc, SlotAt(bus.buf, SlotOffset(d)), d, Own([ev], n))
  {
    assert [ev][1..] == [];
    if ev.name != n {
      ApplyOther(enc, bus, ev, n);
    } else if ev.Send? {
      ApplyBytes(enc, bus, ev);
      hide Write;
    }
  }

  lemma {:induction false} PrivateAppend(enc: FloatBytes, slot: Slot, d: Device, a: seq<Event>, b: seq<Event>)
    ensures var (slot', d') := PrivateRun(enc, slot, d, a);
            PrivateRun(enc, slot, d, a + b) == PrivateRun(enc, slot', d', b)
    decreases |a|
  {
    if a == [] {
      assert a + b == b;
    } else {
      assert (a + b)[1..] == a[1..] + b;
      match a[0]
      case Send(_, cmd) => PrivateAppend(enc, Write(enc, d, slot, cmd), d, a[1..], b);
      case SetParam(_, p) => PrivateAppend(enc, slot, SetParamOf(d, p), a[1..], b);
    }
  }

  /** The packet refines one private history per actuator: after any interleaving of events
      each slot, and each parameter set, is what the actuator's own events alone make of it. */
  lemma {:induction false} SlotsArePrivate(enc: FloatBytes, bus: Bus, evs: seq<Event>, n: string)
    requires Sound(bus) && WellAddressed(bus.devices) && n in bus.devices
    ensures var r, d := Run(enc, bus, evs), bus.devices[n];
            && n in r.devices
            && (SlotAt(r.buf, SlotOffset(d)), r.devices[n])
               == PrivateRun(enc, SlotAt(bus.buf, SlotOffset(d)), d, Own(evs, n))
    decreases |evs|
  {
    hide Apply, Write;
    if evs != [] {
      var d, ev := bus.devices[n], evs[0];
      var next := Apply(enc, bus, ev);
      ApplyAddresses(enc, bus, ev);
      ApplyLocal(enc, bus, ev, n);
      SlotsArePrivate(enc, next, evs[1..], n);
      PrivateAppend(enc, SlotAt(bus.buf, SlotOffset(d)), d, Own([ev], n), Own(evs[1..], n));
      assert Own([ev], n) + Own(evs[1..], n) == Own(evs, n) by {
        assert [ev][1..] == [];
      }
    }
  }

  // The control byte after the events: decided by the last command on the channel.
  function LastCtrl(devices: map<string, Device>, channel: nat, evs: seq<Event>, initial: byte): byte
    requires forall n :: n in devices ==> devices[n].id > 0
  {
    if evs == [] then initial
    else
      var ev := evs[|evs| - 1];
      if ev.Send? && ev.name in devices && devices[ev.name].channel == channel
      then CommandCtrl(devices[ev.name], ev.cmd)
      else LastCtrl(devices, channel, evs[..|evs| - 1], initial)
  }

  lemma {:induction false} RunAppend(enc: FloatBytes, bus: Bus, evs: seq<Event>, ev: Event)
    requires Sound(bus)
    ensures Run(enc, bus, evs + [ev]) == Apply(enc, Run(enc, bus, evs), ev)
    decreases |evs|
  {
    hide Apply;
    if evs == [] {
      assert [ev][1..] == [];
    } else {
      assert (evs + [ev])[1..] == evs[1..] + [ev];
      RunAppend(enc, Apply(enc, bus, evs[0]), evs[1..], ev);
    }
  }

  ghost predicate OwnedByte(devices: map<string, Device>, i: int) {
    || i == CtrlOffset(0) || i == CtrlOffset(1) || i == CtrlOffset(2)
    || exists n :: n in devices && SlotOffset(devices[n]) <= i < SlotOffset(devices[n]) + 8
  }

  lemma ApplyControl(enc: FloatBytes, bus: Bus, ev: Event, ch: nat)
    requires Sound(bus) && WellAddressed(bus.devices) && ch < 3
    ensures Apply(enc, bus, ev).buf[CtrlOffset(ch)]
            == if ev.Send? && ev.name in bus.devices && bus.devices[ev.name].channel == ch
               then CommandCtrl(bus.devices[ev.name], ev.cmd) else bus.buf[CtrlOffset(ch)]
  {
  }

  lemma ControlStep(enc: FloatBytes, devices: map<string, Device>, mid: Bus, ev: Event, ch: nat)
    requires Sound(mid) && WellAddressed(mid.devices) && SameAddresses(devices, mid.devices) && ch < 3
    ensures var r := Apply(enc, mid, ev);
            && WellAddressed(r.devices) && SameAddresses(devices, r.devices)
            && r.buf[CtrlOffset(ch)]
               == if ev.Send? && ev.name in devices && devices[ev.name].channel == ch
                  then CommandCtrl(devices[ev.name], ev.cmd) else mid.buf[CtrlOffset(ch)]
  {
    ApplyAddresses(enc, mid, ev);
    ApplyControl(enc, mid, ev, ch);
  }

  /** Each control byte holds the code of the last command sent on its channel; */
  lemma {:induction false} ControlBytes(enc: FloatBytes, bus: Bus, evs: seq<Event>, ch: nat)
    requires Sound(bus) && WellAddressed(bus.devices) && ch < 3
    ensures WellAddressed(Run(enc, bus, evs).devices) && SameAddresses(bus.devices, Run(enc, bus, evs).devices)
    ensures Run(enc, bus, evs).buf[CtrlOffset(ch)] == LastCtrl(bus.devices, ch, evs, bus.buf[CtrlOffset(ch)])
    decreases |evs|
  {
    if evs != [] {
      var evs', ev := evs[..|evs| - 1], evs[|evs| - 1];
      assert evs == evs' + [ev];
      ControlBytes(enc, bus, evs', ch);
      RunAppend(enc, bus, evs', ev);
      hide Apply, Run, WellAddressed, CommandCtrl;
      ControlStep(enc, bus.devices, Run(enc, bus, evs'), ev, ch);
    }
  }

  lemma ApplyOtherByte(enc: FloatBytes, bus: Bus, ev: Event, i: nat)
    requires Sound(bus) && WellAddressed(bus.devices)
    requires i < PACKET_SIZE && !OwnedByte(bus.devices, i)
    ensures var next := Apply(enc, bus, ev);
            WellAddressed(next.devices) && !OwnedByte(next.devices, i) && next.buf[i] == bus.buf[i]
  {
    ApplyAddresses(enc, bus, ev);
    SameOwned(bus.devices, Apply(enc, bus, ev).devices, i);
    if ev.Send? && ev.name in bus.devices {
      ApplyBytes(enc, bus, ev);
      var d := bus.devices[ev.name];
      assert d.channel == 0 || d.channel == 1 || d.channel == 2;
      assert i != CtrlOffset(d.channel);
    }
  }

  lemma SameOwned(devices: map<string, Device>, devices': map<string, Device>, i: nat)
    requires SameAddresses(devices, devices')
    ensures OwnedByte(devices, i) <==> OwnedByte(devices', i)
  {
  }

  /** and the bytes of no actuator and no channel, the inertial sensor's command among them,
      are never touched. */
  lemma {:induction false} OtherBytesUntouched(enc: FloatBytes, bus: Bus, evs: seq<Event>, i: nat)
    requires Sound(bus) && WellAddressed(bus.devices)
    requires i < PACKET_SIZE && !OwnedByte(bus.devices, i)
    ensures Run(enc, bus, evs).buf[i] == bus.buf[i]
    decreases |evs|
  {
    hide Apply, OwnedByte, WellAddressed;
    if evs != [] {
      ApplyOtherByte(enc, bus, evs[0], i);
      OtherBytesUntouched(enc, Apply(enc, bus, evs[0]), evs[1..], i);
    }
  }

  lemma InertialByteUnowned(devices: map<string, Device>)
    requires WellAddressed(devices)
    ensures !OwnedByte(devices, IMU_CMD)
  {
  }

  // ---------------------------------------------------------------- what the slots mean

  // Bit id - 1 of a control byte: whether the channel forwards that identifier's slot.
  predicate Selected(ctrl: int, id: nat)
    requires id > 0
  {
    ctrl / Pow2(id - 1) % 2 == 1
  }

  /** A command's control byte selects its own actuator, and any other on the channel exactly
      when it is a MIT command, which goes to all of them. */
  lemma ControlSelects(d: Device, cmd: Command, id: nat)
    requires 1 <= d.id <= 8 && 1 <= id <= 8
    ensures Selected(CommandCtrl(d, cmd), id) <==> cmd.SetMitCmd? || id == d.id
  {
    PowersOfBytes();
  }

  lemma PowersOfBytes()
    ensures Pow2(0) == 1 && Pow2(1) == 2 && Pow2(2) == 4 && Pow2(3) == 8
    ensures Pow2(4) == 16 && Pow2(5) == 32 && Pow2(6) == 64 && Pow2(7) == 128
  {
    assert Pow2(3) == 8;
  }

  // The protocol's command codes, as the actuator reads them.
  datatype Request =
    | State(state: byte)
    | Clear
    | Home
    | Save
    | Mode(mode: byte)
    | Position(w: Word)
    | Velocity(w: Word)
    | Current(w: Word)
    | Other

  function ReadRequest(slot: Slot): Request {
    match slot[0]
    case 0x01 => State(slot[1])
    case 0x02 => Clear
    case 0x03 => Home
    case 0x0B => Mode(slot[1])
    case 0x65 => Position(slot[1..5])
    case 0x66 => Velocity(slot[1..5])
    case 0x67 => Current(slot[1..5])
    case 0xCC => if slot[1] == 123 then Save else Other
    case _ => Other
  }

  function Requested(enc: FloatBytes, cmd: Command): Request
    requires !cmd.SetMitCmd?
  {
    match cmd
    case RequestState(state) => State(state)
    case ClearError => Clear
    case SetHomingPosition => Home
    case SaveConfig => Save
    case SetMode(mode) => Mode(mode)
    case SetPosition(x) => Position(enc(x))
    case SetVelocity(x) => Velocity(enc(x))
    case SetEffort(x) => Current(enc(x))
  }

  /** A rotary actuator reads every request as what was asked, argument included, and the bytes
      behind the longest request are never touched by one. */
  lemma RequestUnderstood(enc: FloatBytes, d: Device, slot: Slot, cmd: Command)
    requires d.kind == Rotary && !cmd.SetMitCmd?
    ensures ReadRequest(Write(enc, d, slot, cmd)) == Requested(enc, cmd)
    ensures Write(enc, d, slot, cmd)[5..] == slot[5..]
  {
    hide PackMit, MitEncode;
    var r := Write(enc, d, slot, cmd);
    assert cmd.SetPosition? || cmd.SetVelocity? || cmd.SetEffort? ==> r[1..5] == enc(cmd.x);
  }

  /** New ranges hold from the next MIT command of the same actuator on, whatever its slot held and
      whatever its ranges were; they mean nothing to the other kinds. */
  lemma RangesTakeEffect(enc: FloatBytes, slot: Slot, d: Device, name: string, p: MitParam, m: Mit)
    ensures var told := PrivateRun(enc, slot, d, [SetParam(name, p), Send(name, SetMitCmd(m))]);
            && (d.kind == Rotary ==> told.0 == PackMit(MitEncode(p, m)) && told.1.mit == p)
            && (d.kind != Rotary ==> told == PrivateRun(enc, slot, d, [Send(name, SetMitCmd(m))]))
            && told.1.id == d.id && told.1.channel == d.channel && told.1.kind == d.kind
  {
    hide PackMit, MitEncode, Byte, Trunc;
    var a, b := SetParam(name, p), Send(name, SetMitCmd(m));
    var e := SetParamOf(d, p);
    assert [a, b][1..] == [b] && [b][1..] == [];
    assert PrivateRun(enc, slot, d, [a, b]) == PrivateRun(enc, slot, e, [b]);
    assert PrivateRun(enc, slot, e, [b]) == PrivateRun(enc, Write(enc, e, slot, b.cmd), e, []);
  }

  // A linear actuator's slot: a position and a current limit.
  function LinearPosition(slot: Slot): Word {
    slot[..4]
  }

  function LinearCurrent(slot: Slot): Word {
    slot[4..]
  }

  /** For a linear actuator position and current are set independently, a MIT command sets its
      position, and it starts with the default current. */
  lemma LinearFields(enc: FloatBytes, d: Device, slot: Slot, cmd: Command)
    requires d.kind == Linear
    ensures var r := Write(enc, d, slot, cmd);
            && LinearPosition(r) == (match cmd
                                     case SetPosition(x) => enc(x)
                                     case SetMitCmd(m) => enc(m.pos)
                                     case _ => LinearPosition(slot))
            && LinearCurrent(r) == (if cmd.SetEffort? then enc(cmd.x) else LinearCurrent(slot))
    ensures LinearPosition(Bind(enc, d, slot)) == LinearPosition(slot) && LinearCurrent(Bind(enc, d, slot)) == enc(2.5)
  {
  }

  /** A picker's opening and grip, from 0 to 1, lose less than one part in 255, downwards; more
      than 1 counts as 1; speed and the two ramps are always full, and the first byte and the
      last two are left alone. */
  lemma PickerFields(enc: FloatBytes, d: Device, slot: Slot, m: Mit)
    requires d.kind == Picker && m.pos >= 0.0 && m.toq >= 0.0
    ensures var r := Write(enc, d, slot, SetMitCmd(m));
            && r[1] as real <= 255.0 * m.pos && (m.pos <= 1.0 ==> 255.0 * m.pos < r[1] as real + 1.0)
            && (m.pos >= 1.0 ==> r[1] == 255)
            && r[2] as real <= 255.0 * m.toq && (m.toq <= 1.0 ==> 255.0 * m.toq < r[2] as real + 1.0)
            && (m.toq >= 1.0 ==> r[2] == 255)
            && r[3] == r[4] == r[5] == 255 && r[0] == slot[0] && r[6..] == slot[6..]
  {
    hide PackMit, MitEncode;
    PickerByte(m.pos);
    PickerByte(m.toq);
    hide Trunc, Byte, Min1;
  }

  lemma PickerByte(x: real)
    requires x >= 0.0
    ensures var b := Byte(Trunc(255.0 * Min1(x)));
            && b as real <= 255.0 * x && (x <= 1.0 ==> 255.0 * x < b as real + 1.0) && (x >= 1.0 ==> b == 255)
  {
  }

  // ---------------------------------------------------------------- registration

  // All names on one channel's list.
  ghost predicate ChannelList(devices: map<string, Device>, channel: nat, names: seq<string>) {
    && (forall i :: 0 <= i < |names| ==> names[i] in devices && devices[names[i]].channel == channel)
    && (forall i, j :: 0 <= i < j < |names| ==> names[i] != names[j])
  }

  lemma {:induction false} DistinctInRange(ids: seq<int>, pool: set<int>)
    requires forall i :: 0 <= i < |ids| ==> ids[i] in pool
    requires forall i, j :: 0 <= i < j < |ids| ==> ids[i] != ids[j]
    ensures |ids| <= |pool|
    decreases |ids|
  {
    if ids != [] {
      DistinctInRange(ids[1..], pool - {ids[0]});
    }
  }

  function Identifiers(): set<int> {
    {1, 2, 3, 4, 5, 6, 7, 8}
  }

  lemma EightIdentifiers()
    ensures |Identifiers()| == 8 && forall x: int :: 1 <= x <= 8 ==> x in Identifiers()
  {
  }

  function IdOf(devices: map<string, Device>, name: string): int {
    if name in devices then devices[name].id else 0
  }

  /** With identifiers 1 to 8, distinct on each channel, the ninth registration on a channel
      cannot come up: there is always room for an actuator that is properly addressed. */
  lemma AlwaysRoom(devices: map<string, Device>, names: seq<string>, name: string, d: Device)
    requires name !in devices && WellAddressed(devices[name := d])
    requires ChannelList(devices, d.channel, names)
    ensures |names| < MAX_CHANNEL_DEVICES
  {
    var all, list := devices[name := d], names + [name];
    assert ChannelList(all, d.channel, list);
    var ids := seq(|list|, i requires 0 <= i < |list| => IdOf(all, list[i]));
    EightIdentifiers();
    DistinctInRange(ids, Identifiers());
  }

  lemma SameOverlay(buf: seq<byte>, off: nat)
    requires off + 8 <= |buf|
    ensures Overlay(buf, off, SlotAt(buf, off)) == buf
  {
  }

  lemma ValueIsOverlay(buf: seq<byte>, off: nat, code: byte, w: Word)
    requires off + 8 <= |buf|
    ensures Overlay(buf, off, [code] + w + SlotAt(buf, off)[5..]) == buf[off := code][..off + 1] + w + buf[off + 5..]
  {
    assert buf[off := code][..off + 1] == buf[..off] + [code];
    assert buf[off + 5..] == buf[off + 5..off + 8] + buf[off + 8..];
  }

  lemma HalfIsOverlay(buf: seq<byte>, off: nat, w: Word)
    requires off + 8 <= |buf|
    ensures Overlay(buf, off, w + SlotAt(buf, off)[4..]) == buf[..off] + w + buf[off + 4..]
    ensures Overlay(buf, off, SlotAt(buf, off)[..4] + w) == buf[..off + 4] + w + buf[off + 8..]
  {
    assert buf[off + 4..] == buf[off + 4..off + 8] + buf[off + 8..];
    assert buf[..off + 4] == buf[..off] + buf[off..off + 4];
  }

  lemma IsOverlay(before: seq<byte>, after: seq<byte>, off: nat, slot: Slot)
    requires off + 8 <= |before| == |after|
    requires forall i :: 0 <= i < |before| && (i < off || off + 8 <= i) ==> after[i] == before[i]
    requires forall i :: 0 <= i < 8 ==> after[off + i] == slot[i]
    ensures after == Overlay(before, off, slot)
  {
  }

  lemma ChannelListMore(devices: map<string, Device>, channels: map<nat, seq<string>>, name: string, d: Device)
    requires forall ch :: ch in channels ==> ChannelList(devices, ch, channels[ch])
    requires name !in devices && d.channel in channels
    ensures var channels' := channels[d.channel := channels[d.channel] + [name]];
            forall ch :: ch in channels' ==> ChannelList(devices[name := d], ch, channels'[ch])
  {
  }

  // A controller: its packet and actuators, and the list of each channel that has any.
  datatype Node = Node(bus: Bus, lists: map<nat, seq<string>>)

  function FreshNode(): (node: Node)
    ensures Sound(node.bus)
  {
    Node(Bus(seq(PACKET_SIZE, _ => 0), map[]), map[])
  }

  function ListOf(node: Node, channel: nat): seq<string> {
    if channel in node.lists then node.lists[channel] else []
  }

  // A full channel turns the actuator away.
  ghost function Register(enc: FloatBytes, node: Node, name: string, d: Device): (r: Node)
    requires Sound(node.bus) && InPacket(d)
    ensures Sound(r.bus)
  {
    if |ListOf(node, d.channel)| >= MAX_CHANNEL_DEVICES then node
    else
      var off := SlotOffset(d);
      Node(Bus(Overlay(node.bus.buf, off, Bind(enc, d, SlotAt(node.bus.buf, off))), node.bus.devices[name := d]),
           node.lists[d.channel := ListOf(node, d.channel) + [name]])
  }

  const STATE_ENABLE := 1
  const POLLS := 100

  class Dcu {
    const ecatId: int
    const enc: FloatBytes
    const sendBuf: array<byte>
    var devices: map<string, Device>
    var channels: map<nat, seq<string>>

    ghost predicate Valid()
      reads this
    {
      && sendBuf.Length == PACKET_SIZE
      && (forall n :: n in devices ==> InPacket(devices[n]))
      && (forall ch :: ch in channels ==> ChannelList(devices, ch, channels[ch]))
    }

    ghost function State(): (bus: Bus)
      requires Valid()
      reads this, sendBuf
      ensures Sound(bus)
    {
      Bus(sendBuf[..], devices)
    }

    function Attached(channel: nat): nat
      reads this
    {
      if channel in channels then |channels[channel]| else 0
    }

    ghost function Value(): (node: Node)
      requires Valid()
      reads this, sendBuf
    {
      Node(State(), channels)
    }

    constructor (ecatId: int, enc: FloatBytes)
      ensures Valid() && fresh(sendBuf) && this.ecatId == ecatId && this.enc == enc && Value() == FreshNode()
      ensures State() == Bus(seq(PACKET_SIZE, _ => 0), map[]) && forall ch :: Attached(ch) == 0
    {
      this.ecatId, this.enc := ecatId, enc;
      sendBuf := new byte[PACKET_SIZE](_ => 0);
      devices, channels := map[], map[];
    }

    method PutFloat(x: real, off: nat)
      requires off + 4 <= sendBuf.Length
      modifies sendBuf
      ensures sendBuf[..] == old(sendBuf[..off]) + enc(x) + old(sendBuf[off + 4..])
    {
      var b := enc(x);
      sendBuf[off] := b[0];
      sendBuf[off + 1] := b[1];
      sendBuf[off + 2] := b[2];
      sendBuf[off + 3] := b[3];
    }

    // A full channel turns the actuator away, silently as far as the caller can tell.
    method RegisterActuator(name: string, d: Device)
      requires Valid() && InPacket(d) && name !in devices
      modifies this, sendBuf
      ensures Valid()
      ensures old(Attached(d.channel)) >= MAX_CHANNEL_DEVICES ==>
                State() == old(State()) && forall ch :: Attached(ch) == old(Attached(ch))
      ensures old(Attached(d.channel)) < MAX_CHANNEL_DEVICES ==>
                && devices == old(devices)[name := d]
                && sendBuf[..] == Overlay(old(sendBuf[..]), SlotOffset(d),
                                          Bind(enc, d, SlotAt(old(sendBuf[..]), SlotOffset(d))))
                && forall ch :: Attached(ch) == old(Attached(ch)) + if ch == d.channel then 1 else 0
      ensures Value() == Register(enc, old(Value()), name, d)
    {
      hide Overlay, SlotAt;
      if d.channel !in channels {
        channels := channels[d.channel := []];
      }
      if |channels[d.channel]| >= MAX_CHANNEL_DEVICES {
        return;
      }
      var off := SlotOffset(d);
      SameOverlay(sendBuf[..], off);
      if d.kind == Linear {
        WriteHalf(off, true, L28_MAX_CUR);
      }
      ChannelListMore(devices, channels, name, d);
      devices := devices[name := d];
      channels := channels[d.channel := channels[d.channel] + [name]];
    }

    method SetChannelId(channel: nat, id: nat)
      requires sendBuf.Length == PACKET_SIZE && channel < 3 && id > 0
      modifies sendBuf
      ensures sendBuf[..] == old(sendBuf[..])[CtrlOffset(channel) := CtrlCode(id)]
    {
      sendBuf[CtrlOffset(channel)] := if id == BROADCAST_ID then 255 else Byte(Pow2(id - 1));
    }

    // The rotary actuator's one-byte and two-byte requests, and its single-value commands.
    method WriteRequest(d: Device, cmd: Command)
      requires sendBuf.Length == PACKET_SIZE && InPacket(d) && d.kind == Rotary && !cmd.SetMitCmd?
      modifies sendBuf
      ensures sendBuf[..] == Overlay(old(sendBuf[..]), SlotOffset(d),
                                     Write(enc, d, SlotAt(old(sendBuf[..]), SlotOffset(d)), cmd))
    {
      hide PackMit, MitEncode, Byte, Trunc, Overlay, SlotAt;
      var off := SlotOffset(d);
      match cmd {
        case RequestState(state) => WriteTwo(off, 0x01, state);
        case ClearError => WriteOne(off, 0x02);
        case SetHomingPosition => WriteOne(off, 0x03);
        case SaveConfig => WriteTwo(off, 0xCC, 123);
        case SetMode(mode) => WriteTwo(off, 0x0B, mode);
        case SetEffort(x) => WriteValue(off, 0x67, x);
        case SetVelocity(x) => WriteValue(off, 0x66, x);
        case SetPosition(x) => WriteValue(off, 0x65, x);
      }
    }

    method WriteOne(off: nat, code: byte)
      requires off + 8 <= sendBuf.Length
      modifies sendBuf
      ensures sendBuf[..] == Overlay(old(sendBuf[..]), off, [code] + SlotAt(old(sendBuf[..]), off)[1..])
    {
      sendBuf[off] := code;
    }

    method WriteTwo(off: nat, code: byte, arg: byte)
      requires off + 8 <= sendBuf.Length
      modifies sendBuf
      ensures sendBuf[..] == Overlay(old(sendBuf[..]), off, [code, arg] + SlotAt(old(sendBuf[..]), off)[2..])
    {
      sendBuf[off], sendBuf[off + 1] := code, arg;
    }

    // A command code and the bytes of a single-precision number.
    method WriteValue(off: nat, code: byte, x: real)
      requires off + 8 <= sendBuf.Length
      modifies sendBuf
      ensures sendBuf[..] == Overlay(old(sendBuf[..]), off, [code] + enc(x) + SlotAt(old(sendBuf[..]), off)[5..])
    {
      ValueIsOverlay(sendBuf[..], off, code, enc(x));
      hide Overlay, SlotAt;
      sendBuf[off] := code;
      PutFloat(x, off + 1);
    }

    method WriteHalf(off: nat, upper: bool, x: real)
      requires off + 8 <= sendBuf.Length
      modifies sendBuf
      ensures var slot := SlotAt(old(sendBuf[..]), off);
              sendBuf[..] == Overlay(old(sendBuf[..]), off, if upper then slot[..4] + enc(x) else enc(x) + slot[4..])
    {
      HalfIsOverlay(sendBuf[..], off, enc(x));
      hide Overlay, SlotAt;
      PutFloat(x, if upper then off + 4 else off);
    }

    method WriteMit(d: Device, m: Mit)
      requires sendBuf.Length == PACKET_SIZE && InPacket(d)
      modifies sendBuf
      ensures sendBuf[..] == Overlay(old(sendBuf[..]), SlotOffset(d), PackMit(MitEncode(d.mit, m)))
    {
      hide MitEncode, Or, Byte;
      var off := SlotOffset(d);
      var c := MitEncode(d.mit, m);
      sendBuf[off] := Byte(c.pos / 256);
      sendBuf[off + 1] := Byte(c.pos);
      sendBuf[off + 2] := Byte(c.vel / 16);
      sendBuf[off + 3] := Byte(Or(c.vel % 16 * 16, Byte(c.kp / 256)));
      sendBuf[off + 4] := Byte(c.kp);
      sendBuf[off + 5] := Byte(c.kd / 16);
      sendBuf[off + 6] := Byte(Or(c.kd % 16 * 16, Byte(c.toq / 256)));
      sendBuf[off + 7] := Byte(c.toq);
      IsOverlay(old(sendBuf[..]), sendBuf[..], off, PackMit(c));
    }

    // The linear actuator and the picker answer only some commands.
    method WriteLinear(d: Device, cmd: Command)
      requires sendBuf.Length == PACKET_SIZE && InPacket(d) && d.kind == Linear
      modifies sendBuf
      ensures sendBuf[..] == Overlay(old(sendBuf[..]), SlotOffset(d),
                                     Write(enc, d, SlotAt(old(sendBuf[..]), SlotOffset(d)), cmd))
    {
      hide PackMit, MitEncode, Byte, Trunc;
      var off := SlotOffset(d);
      match cmd {
        case SetEffort(x) => WriteHalf(off, true, x);
        case SetPosition(x) => WriteHalf(off, false, x);
        case SetMitCmd(m) => WriteHalf(off, false, m.pos);
        case _ =>
      }
    }

    method WritePicker(d: Device, cmd: Command)
      requires sendBuf.Length == PACKET_SIZE && InPacket(d) && d.kind == Picker
      modifies sendBuf
      ensures sendBuf[..] == Overlay(old(sendBuf[..]), SlotOffset(d),
                                     Write(enc, d, SlotAt(old(sendBuf[..]), SlotOffset(d)), cmd))
    {
      hide Byte, Trunc, PackMit, MitEncode, SlotOffset;
      var off := SlotOffset(d);
      if cmd.SetMitCmd? {
        var pos, cur := cmd.m.pos, cmd.m.toq;
        if pos > 1.0 {
          pos := 1.0;
        }
        if cur > 1.0 {
          cur := 1.0;
        }
        sendBuf[off + 1], sendBuf[off + 2] := Byte(Trunc(255.0 * pos)), Byte(Trunc(255.0 * cur));
        sendBuf[off + 3], sendBuf[off + 4], sendBuf[off + 5] := 255, 255, 255;
      }
      IsOverlay(old(sendBuf[..]), sendBuf[..], off, Write(enc, d, SlotAt(old(sendBuf[..]), off), cmd));
    }

    /** Any command that writes a slot and then points the channel at it. */
    method Command(name: string, cmd: Command)
      requires Valid()
      modifies sendBuf
      ensures Valid() && State() == Apply(enc, old(State()), Send(name, cmd))
      ensures Value() == Node(Apply(enc, old(Value()).bus, Send(name, cmd)), old(Value()).lists)
    {
      if name !in devices {
        return;
      }
      var d := devices[name];
      match d.kind {
        case Rotary =>
          if cmd.SetMitCmd? {
            WriteMit(d, cmd.m);
          } else {
            WriteRequest(d, cmd);
          }
        case Linear => WriteLinear(d, cmd);
        case Picker => WritePicker(d, cmd);
      }
      SetChannelId(d.channel, if cmd.SetMitCmd? then BROADCAST_ID else d.id);
    }

    method SetMitParam(name: string, p: MitParam)
      requires Valid()
      modifies this`devices
      ensures Valid() && State() == Apply(enc, old(State()), SetParam(name, p))
      ensures Value() == Node(Apply(enc, old(Value()).bus, SetParam(name, p)), old(Value()).lists)
    {
      if name !in devices {
        return;
      }
      var d := devices[name];
      if d.kind == Rotary {
        d := d.(mit := p);
      }
      devices := devices[name := d];
    }

    /** `readings` are the power states seen by the polls, one every ten milliseconds. */
    method EnableActuator(name: string, readings: seq<byte>) returns (ok: bool)
      requires Valid() && |readings| == POLLS
      modifies sendBuf
      ensures Valid()
      ensures name !in devices || devices[name].kind != Rotary ==> State() == old(State())
      ensures name !in devices ==> !ok
      ensures name in devices && devices[name].kind != Rotary ==> ok
      ensures name in devices && devices[name].kind == Rotary ==>
                && State() == Apply(enc, old(State()), Send(name, RequestState(STATE_ENABLE)))
                && (ok <==> STATE_ENABLE in readings)
    {
      if name !in devices {
        return false;
      }
      if devices[name].kind != Rotary {
        return true;
      }
      Command(name, RequestState(STATE_ENABLE));
      ok := false;
      for i := 0 to POLLS
        invariant !ok && STATE_ENABLE !in readings[..i]
      {
        if readings[i] == STATE_ENABLE {
          ok := true;
          break;
        }
      }
    }
  }
}
