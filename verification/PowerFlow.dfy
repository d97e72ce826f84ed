/** The MIT frame of the rotary actuators: five quantised quantities packed into eight
    bytes, and the feedback getters that undo the packing. */
module PowerFlow {
  import opened Arithmetic

  type byte = b: int | 0 <= b < 256

  function Byte(x: int): byte {
    x % 256
  }

  // ---------------------------------------------------------------- one quantity

  function FullScale(bits: nat): (f: nat)
    requires bits > 0
    ensures f > 0
  {
    2 * Pow2(bits - 1) - 1
  }

  function MitFloatToUint(x: real, lo: real, hi: real, bits: nat): int
    requires lo != hi && bits > 0
  {
    Trunc((x - lo) * FullScale(bits) as real / (hi - lo))
  }

  function MitUintToFloat(code: int, lo: real, hi: real, bits: nat): real
    requires bits > 0
  {
    code as real * (hi - lo) / FullScale(bits) as real + lo
  }

  function Quantum(lo: real, hi: real, bits: nat): real
    requires bits > 0
  {
    (hi - lo) / FullScale(bits) as real
  }

  // The exact number of quanta between lo and x, before the cast drops the fraction.
  function Quanta(x: real, lo: real, hi: real, bits: nat): real
    requires lo != hi && bits > 0
  {
    (x - lo) * FullScale(bits) as real / (hi - lo)
  }

  lemma QuantaInverse(x: real, lo: real, hi: real, bits: nat)
    requires lo < hi && bits > 0
    ensures Quantum(lo, hi, bits) > 0.0
    ensures Prod(FullScale(bits) as real, Quantum(lo, hi, bits)) == hi - lo
    ensures MitFloatToUint(x, lo, hi, bits) == Trunc(Quanta(x, lo, hi, bits))
    ensures Prod(Quanta(x, lo, hi, bits), Quantum(lo, hi, bits)) == x - lo
  {
  }

  lemma DecodeInQuanta(code: int, lo: real, hi: real, bits: nat)
    requires bits > 0
    ensures MitUintToFloat(code, lo, hi, bits) == Prod(code as real, Quantum(lo, hi, bits)) + lo
  {
  }

  lemma LessQuanta(a: real, b: real, q: real)
    requires q > 0.0
    ensures a < b <==> Prod(a, q) < Prod(b, q)
    ensures a <= b <==> Prod(a, q) <= Prod(b, q)
  {
  }

  lemma ProdValues(a: int, q: real)
    ensures Prod(0.0, q) == 0.0 && Prod(-1.0, q) == -q
    ensures Prod((a + 1) as real, q) == Prod(a as real, q) + q
  {
  }

  /** From the bottom of the range up, decoding the code gives the value rounded down by
      less than one quantum. */
  lemma DecodeAfterEncode(x: real, lo: real, hi: real, bits: nat)
    requires lo < hi && bits > 0 && lo <= x
    ensures var y := MitUintToFloat(MitFloatToUint(x, lo, hi, bits), lo, hi, bits);
            y <= x < y + Quantum(lo, hi, bits)
  {
    hide Quanta, Quantum, MitFloatToUint, MitUintToFloat, FullScale, Prod;
    QuantaInverse(x, lo, hi, bits);
    var z, q := Quanta(x, lo, hi, bits), Quantum(lo, hi, bits);
    var code := Trunc(z);
    DecodeInQuanta(code, lo, hi, bits);
    ProdValues(code, q);
    LessQuanta(0.0, z, q);
    LessQuanta(code as real, z, q);
    LessQuanta(z, (code + 1) as real, q);
  }

  lemma EncodeMonotone(x: real, y: real, lo: real, hi: real, bits: nat)
    requires lo < hi && bits > 0 && x <= y
    ensures MitFloatToUint(x, lo, hi, bits) <= MitFloatToUint(y, lo, hi, bits)
  {
    hide Quanta, Quantum, MitFloatToUint, FullScale, Prod;
    QuantaInverse(x, lo, hi, bits);
    QuantaInverse(y, lo, hi, bits);
    LessQuanta(Quanta(x, lo, hi, bits), Quanta(y, lo, hi, bits), Quantum(lo, hi, bits));
  }

  lemma EncodeAfterDecode(code: nat, lo: real, hi: real, bits: nat)
    requires lo < hi && bits > 0
    ensures MitFloatToUint(MitUintToFloat(code, lo, hi, bits), lo, hi, bits) == code
  {
    hide Quanta, Quantum, MitFloatToUint, MitUintToFloat, FullScale;
    var x := MitUintToFloat(code, lo, hi, bits);
    DecodeInQuanta(code, lo, hi, bits);
    QuantaInverse(x, lo, hi, bits);
    Cancel(code as real, Quanta(x, lo, hi, bits), Quantum(lo, hi, bits));
  }

  /** The code fits its field exactly for values less than a quantum outside the range:
      nothing is clamped. */
  lemma FitsExactly(x: real, lo: real, hi: real, bits: nat)
    requires lo < hi && bits > 0
    ensures 0 <= MitFloatToUint(x, lo, hi, bits) <= FullScale(bits)
            <==> lo - Quantum(lo, hi, bits) < x < hi + Quantum(lo, hi, bits)
  {
    hide Quanta, Quantum, MitFloatToUint, FullScale, Prod;
    QuantaInverse(x, lo, hi, bits);
    var z, q, f := Quanta(x, lo, hi, bits), Quantum(lo, hi, bits), FullScale(bits);
    ProdValues(f, q);
    LessQuanta(-1.0, z, q);
    LessQuanta(z, (f + 1) as real, q);
  }

  // ---------------------------------------------------------------- the frame

  datatype MitCodes = MitCodes(pos: int, vel: int, kp: int, kd: int, toq: int)

  ghost predicate InFields(c: MitCodes) {
    && 0 <= c.pos < 65536 && 0 <= c.vel < 4096 && 0 <= c.kp < 4096
    && 0 <= c.kd < 4096 && 0 <= c.toq < 4096
  }

  function Or(a: nat, b: nat): nat {
    if a == 0 then b
    else 2 * Or(a / 2, b / 2) + (if a % 2 == 1 || b % 2 == 1 then 1 else 0)
  }

  lemma OrStep(a: nat, b: nat)
    requires a > 0
    ensures Or(2 * a, b) == 2 * Or(a, b / 2) + b % 2
  {
  }

  lemma OrOfDisjoint(high: nat, low: nat)
    requires low < 16
    ensures Or(high * 16, low) == high * 16 + low
  {
    OrEmpty(low);
    hide Or;
    if high > 0 {
      Bits(low);
      OrStep(8 * high, low);
      OrStep(4 * high, low / 2);
      OrStep(2 * high, low / 4);
      OrStep(high, low / 8);
      OrNothing(high);
    }
  }

  lemma OrEmpty(low: nat)
    ensures Or(0, low) == low
  {
  }

  lemma Bits(low: nat)
    requires low < 16
    ensures low / 2 / 2 == low / 4 && low / 4 / 2 == low / 8 && low / 8 / 2 == 0
    ensures low == 2 * (2 * (2 * (low / 8 % 2) + low / 4 % 2) + low / 2 % 2) + low % 2
  {
  }

  lemma OrNothing(a: nat)
    ensures Or(a, 0) == a
  {
  }

  type Slot = s: seq<byte> | |s| == 8 witness [0, 0, 0, 0, 0, 0, 0, 0]

  function PackMit(c: MitCodes): Slot {
    [ Byte(c.pos / 256), Byte(c.pos),
      Byte(c.vel / 16), Byte(Or(c.vel % 16 * 16, Byte(c.kp / 256))), Byte(c.kp),
      Byte(c.kd / 16), Byte(Or(c.kd % 16 * 16, Byte(c.toq / 256))), Byte(c.toq) ]
  }

  function Word16(high: int, low: int): int {
    high * 256 + low
  }

  // A field that takes a byte and the upper half of the next, and the field that follows it.
  function High12(s0: int, s1: int): int {
    s0 * 16 + s1 / 16
  }

  function Low12(s1: int, s2: int): int {
    s1 % 16 * 256 + s2
  }

  // The five fields of a frame, as the actuator reads them.
  function UnpackMit(s: Slot): MitCodes {
    MitCodes(Word16(s[0], s[1]), High12(s[2], s[3]), Low12(s[3], s[4]), High12(s[5], s[6]), Low12(s[6], s[7]))
  }

  lemma PairRoundTrip(a: int, b: int)
    requires 0 <= a < 4096 && 0 <= b < 4096
    ensures var mid := Byte(Or(a % 16 * 16, Byte(b / 256)));
            High12(Byte(a / 16), mid) == a && Low12(mid, Byte(b)) == b
  {
    hide Or, Byte;
    var ah, al, bh, bl := a / 16, a % 16, b / 256, b % 256;
    ByteExact(ah);
    ByteExact(bh);
    ByteExact(al * 16 + bh);
    ByteLow(b);
    OrOfDisjoint(al, bh);
    Nibbles(al, bh);
  }

  lemma ByteExact(x: int)
    requires 0 <= x < 256
    ensures Byte(x) == x
  {
  }

  lemma ByteLow(b: int)
    ensures Byte(b) == b % 256
  {
  }

  lemma Nibbles(h: int, l: int)
    requires 0 <= h < 16 && 0 <= l < 16
    ensures (h * 16 + l) / 16 == h && (h * 16 + l) % 16 == l && 0 <= h * 16 + l < 256
  {
  }

  /** The frame carries five codes without loss exactly when each fits its field; a gain that
      does not fit spills into the neighbouring velocity or damping nibble. */
  lemma PackLossless(c: MitCodes)
    ensures UnpackMit(PackMit(c)) == c <==> InFields(c)
  {
    hide Or, Byte, High12, Low12, Word16;
    PackOnto(PackMit(c));
    if InFields(c) {
      WordRoundTrip(c.pos);
      PairRoundTrip(c.vel, c.kp);
      PairRoundTrip(c.kd, c.toq);
    }
  }

  lemma WordRoundTrip(w: int)
    requires 0 <= w < 65536
    ensures Word16(Byte(w / 256), Byte(w)) == w
  {
  }

  // Every frame is the packing of exactly one tuple of codes.
  lemma PackOnto(s: Slot)
    ensures InFields(UnpackMit(s)) && PackMit(UnpackMit(s)) == s
  {
    hide Or, Word16, High12, Low12, Byte;
    WordBytes(s[0], s[1]);
    PairBytes(s[2], s[3], s[4]);
    PairBytes(s[5], s[6], s[7]);
  }

  lemma WordBytes(b0: int, b1: int)
    requires 0 <= b0 < 256 && 0 <= b1 < 256
    ensures var w := Word16(b0, b1); 0 <= w < 65536 && Byte(w / 256) == b0 && Byte(w) == b1
  {
  }

  lemma PairBytes(b0: int, b1: int, b2: int)
    requires 0 <= b0 < 256 && 0 <= b1 < 256 && 0 <= b2 < 256
    ensures var a, b := High12(b0, b1), Low12(b1, b2);
            && 0 <= a < 4096 && 0 <= b < 4096
            && Byte(a / 16) == b0 && Byte(Or(a % 16 * 16, Byte(b / 256))) == b1 && Byte(b) == b2
  {
    hide Or;
    var h, l := b1 / 16, b1 % 16;
    Nibbles(h, l);
    assert (b0 * 16 + h) / 16 == b0 && (b0 * 16 + h) % 16 == h;
    assert (l * 256 + b2) / 256 == l && (l * 256 + b2) % 256 == b2;
    OrOfDisjoint(h, l);
  }

  lemma SpillCorruptsVelocity()
    ensures UnpackMit(PackMit(MitCodes(0, 0, 4096, 0, 0))).vel == 1
  {
    var s := PackMit(MitCodes(0, 0, 4096, 0, 0));
    assert s[3] == 16;
  }

  // ---------------------------------------------------------------- commands and feedback

  datatype MitParam = MitParam(
    posMin: real, posMax: real, velMin: real, velMax: real, toqMin: real, toqMax: real,
    kpMin: real, kpMax: real, kdMin: real, kdMax: real)

  ghost predicate Ranged(p: MitParam) {
    p.posMin < p.posMax && p.velMin < p.velMax && p.toqMin < p.toqMax && p.kpMin < p.kpMax && p.kdMin < p.kdMax
  }

  datatype Mit = Mit(pos: real, vel: real, toq: real, kp: real, kd: real)

  ghost predicate InRange(p: MitParam, m: Mit) {
    && p.posMin <= m.pos <= p.posMax && p.velMin <= m.vel <= p.velMax && p.toqMin <= m.toq <= p.toqMax
    && p.kpMin <= m.kp <= p.kpMax && p.kdMin <= m.kd <= p.kdMax
  }

  // A range of zero width makes the source divide by zero; the quotient is left out.
  function Encode(x: real, lo: real, hi: real, bits: nat): int
    requires bits > 0
  {
    if lo == hi then 0 else MitFloatToUint(x, lo, hi, bits)
  }

  function MitEncode(p: MitParam, m: Mit): MitCodes {
    MitCodes(
      Encode(m.pos, p.posMin, p.posMax, 16),
      Encode(m.vel, p.velMin, p.velMax, 12),
      Encode(m.kp, p.kpMin, p.kpMax, 12),
      Encode(m.kd, p.kdMin, p.kdMax, 12),
      Encode(m.toq, p.toqMin, p.toqMax, 12))
  }

  function GetPosition(p: MitParam, recv: Slot): real {
    MitUintToFloat(Word16(recv[0], recv[1]), p.posMin, p.posMax, 16)
  }

  function GetVelocity(p: MitParam, recv: Slot): real {
    MitUintToFloat(High12(recv[2], recv[3]), p.velMin, p.velMax, 12)
  }

  function GetEffort(p: MitParam, recv: Slot): real {
    MitUintToFloat(Low12(recv[3], recv[4]), p.toqMin, p.toqMax, 12)
  }

  lemma FullScales()
    ensures FullScale(16) == 65535 && FullScale(12) == 4095
  {
    assert Pow2(3) == 8;
    assert Pow2(7) == 128;
    assert Pow2(11) == 2048;
    assert Pow2(15) == 32768;
  }

  lemma InRangeFits(x: real, lo: real, hi: real, bits: nat)
    requires lo < hi && lo <= x <= hi && bits > 0
    ensures 0 <= Encode(x, lo, hi, bits) <= FullScale(bits)
  {
    QuantaInverse(x, lo, hi, bits);
    FitsExactly(x, lo, hi, bits);
  }

  // The code, read in its quantity's own range, is at most x and less than a quantum below it.
  ghost predicate ReadsAs(code: int, x: real, lo: real, hi: real, bits: nat)
    requires lo < hi && bits > 0
  {
    MitUintToFloat(code, lo, hi, bits) <= x < MitUintToFloat(code, lo, hi, bits) + Quantum(lo, hi, bits)
  }

  /** A command in range survives the frame: the actuator recovers all five codes, each field
      reads as its own quantity's commanded value, and a position or velocity echoed as
      feedback reads back at most one quantum low. */
  lemma CommandSurvivesFrame(p: MitParam, m: Mit, recv: Slot)
    requires Ranged(p) && InRange(p, m)
    requires recv[..4] == PackMit(MitEncode(p, m))[..4]
    ensures UnpackMit(PackMit(MitEncode(p, m))) == MitEncode(p, m)
    ensures var c := UnpackMit(PackMit(MitEncode(p, m)));
            && ReadsAs(c.pos, m.pos, p.posMin, p.posMax, 16) && ReadsAs(c.vel, m.vel, p.velMin, p.velMax, 12)
            && ReadsAs(c.kp, m.kp, p.kpMin, p.kpMax, 12) && ReadsAs(c.kd, m.kd, p.kdMin, p.kdMax, 12)
            && ReadsAs(c.toq, m.toq, p.toqMin, p.toqMax, 12)
    ensures GetPosition(p, recv) <= m.pos < GetPosition(p, recv) + Quantum(p.posMin, p.posMax, 16)
    ensures GetVelocity(p, recv) <= m.vel < GetVelocity(p, recv) + Quantum(p.velMin, p.velMax, 12)
  {
    hide Quantum, MitFloatToUint, MitUintToFloat, FullScale, PackMit, UnpackMit;
    FullScales();
    InRangeFits(m.pos, p.posMin, p.posMax, 16);
    InRangeFits(m.vel, p.velMin, p.velMax, 12);
    InRangeFits(m.kp, p.kpMin, p.kpMax, 12);
    InRangeFits(m.kd, p.kdMin, p.kdMax, 12);
    InRangeFits(m.toq, p.toqMin, p.toqMax, 12);
    var s := PackMit(MitEncode(p, m));
    PackLossless(MitEncode(p, m));
    assert forall i :: 0 <= i < 4 ==> recv[i] == recv[..4][i] == s[..4][i] == s[i];
    DecodeAfterEncode(m.pos, p.posMin, p.posMax, 16);
    UnpackHead(s);
    DecodeAfterEncode(m.vel, p.velMin, p.velMax, 12);
    DecodeAfterEncode(m.kp, p.kpMin, p.kpMax, 12);
    DecodeAfterEncode(m.kd, p.kdMin, p.kdMax, 12);
    DecodeAfterEncode(m.toq, p.toqMin, p.toqMax, 12);
  }

  lemma UnpackHead(s: Slot)
    ensures UnpackMit(s).pos == Word16(s[0], s[1]) && UnpackMit(s).vel == High12(s[2], s[3])
  {
  }

  /** Feedback puts the torque where a command has its stiffness: a frame that holds codes for
      position, velocity and torque is read as those three, each in its own range. */
  lemma FeedbackRead(p: MitParam, recv: Slot, pos: int, vel: int, toq: int)
    requires Ranged(p) && InFields(MitCodes(pos, vel, toq, 0, 0))
    requires recv[..5] == PackMit(MitCodes(pos, vel, toq, 0, 0))[..5]
    ensures GetPosition(p, recv) == MitUintToFloat(pos, p.posMin, p.posMax, 16)
    ensures GetVelocity(p, recv) == MitUintToFloat(vel, p.velMin, p.velMax, 12)
    ensures GetEffort(p, recv) == MitUintToFloat(toq, p.toqMin, p.toqMax, 12)
    ensures p.posMin <= GetPosition(p, recv) <= p.posMax && p.velMin <= GetVelocity(p, recv) <= p.velMax
    ensures p.toqMin <= GetEffort(p, recv) <= p.toqMax
  {
    hide PackMit, MitUintToFloat, FullScale;
    var c := MitCodes(pos, vel, toq, 0, 0);
    var s := PackMit(c);
    PackLossless(c);
    assert forall i :: 0 <= i < 5 ==> recv[i] == recv[..5][i] == s[..5][i] == s[i];
    FullScales();
    DecodeWithin(pos, p.posMin, p.posMax, 16);
    DecodeWithin(vel, p.velMin, p.velMax, 12);
    DecodeWithin(toq, p.toqMin, p.toqMax, 12);
  }

  // A code covers its range from end to end.
  lemma DecodeWithin(code: int, lo: real, hi: real, bits: nat)
    requires lo < hi && bits > 0 && 0 <= code <= FullScale(bits)
    ensures lo <= MitUintToFloat(code, lo, hi, bits) <= hi
    ensures code == 0 ==> MitUintToFloat(code, lo, hi, bits) == lo
    ensures code == FullScale(bits) ==> MitUintToFloat(code, lo, hi, bits) == hi
  {
    var w, f := hi - lo, FullScale(bits) as real;
    var d := code as real * w / f;
    Quotient(code as real * w, f);
    MulNonNegative(code as real, w);
    MulNonNegative(f - code as real, w);
    assert (f - code as real) * w == f * w - code as real * w;
    DividedWithin(d, f, w, code as real * w);
  }

  lemma NotAbove(a: real, b: real, f: real)
    requires f > 0.0 && a * f <= b * f
    ensures a <= b
  {
    if a > b {
      MulPositive(a - b, f);
    }
  }

  lemma DividedWithin(d: real, f: real, w: real, n: real)
    requires f > 0.0 && d * f == n && 0.0 <= n <= f * w
    ensures 0.0 <= d <= w && (n == 0.0 ==> d == 0.0) && (n == f * w ==> d == w)
  {
    NotAbove(0.0, d, f);
    NotAbove(d, w, f);
    if n == 0.0 {
      Cancel(d, 0.0, f);
    } else if n == f * w {
      Cancel(d, w, f);
    }
  }
}
