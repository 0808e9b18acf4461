/**
 * The remote-gamepad channel: browser events, the 20-byte wire format, and a sender that
 * transmits only changes.
 *
 * The receiver is RetroArch as the source describes it: a packet that is not exactly 20 bytes
 * long cancels all input of the player; a joypad packet sets or clears one button, an analog
 * packet one of four axes. `axis_to_i16` is modelled over the reals.
 */
module Gamepad {
  import opened Wrappers

  type u8 = x: int | 0 <= x < 0x100
  type u16 = x: int | 0 <= x < 0x1_0000
  type i16 = x: int | -0x8000 <= x < 0x8000
  type i32 = x: int | -0x8000_0000 <= x < 0x8000_0000
  type Packet = seq<u8>

  const RETRO_DEVICE_JOYPAD: i32 := 1
  const RETRO_DEVICE_ANALOG: i32 := 5
  const REMOTE_MESSAGE_LEN := 20

  // ----- buttons ----------------------------------------------------------

  datatype RetroPadButton =
    | B | Y | Select | Start | Up | Down | Left | Right | A | X | L | R | L2 | R2 | L3 | R3

  type ButtonId = x: int | 0 <= x < 16

  /** The discriminant of a button: its position in the joypad bitmask. */
  function Id(b: RetroPadButton): ButtonId {
    match b
    case B => 0 case Y => 1 case Select => 2 case Start => 3
    case Up => 4 case Down => 5 case Left => 6 case Right => 7
    case A => 8 case X => 9 case L => 10 case R => 11
    case L2 => 12 case R2 => 13 case L3 => 14 case R3 => 15
  }

  // Bitmasks are unsigned 16-bit numbers; `|`, `& !` and the bit test are defined digit by
  // digit in base two.

  /** `1u16 << id`. */
  function Bit(id: nat): (m: nat)
    ensures m > 0
    decreases id
  {
    if id == 0 then 1 else 2 * Bit(id - 1)
  }

  /** `a & (1 << i) != 0`. */
  predicate Test(a: nat, i: nat)
    decreases i
  {
    if i == 0 then a % 2 == 1 else Test(a / 2, i - 1)
  }

  /** `a | b`. */
  function Or(a: nat, b: nat): nat
    decreases a + b
  {
    if a == 0 && b == 0 then 0
    else 2 * Or(a / 2, b / 2) + if a % 2 == 1 || b % 2 == 1 then 1 else 0
  }

  /** `a & !b`. */
  function AndNot(a: nat, b: nat): nat
    decreases a
  {
    if a == 0 then 0
    else 2 * AndNot(a / 2, b / 2) + if a % 2 == 1 && b % 2 == 0 then 1 else 0
  }

  lemma {:induction false} TestOfZero(i: nat)
    ensures !Test(0, i)
    decreases i
  {
    if i == 0 {
    } else {
      TestOfZero(i - 1);
    }
  }

  lemma {:induction false} TestOfBit(k: nat, i: nat)
    ensures Test(Bit(k), i) <==> i == k
    decreases i
  {
    if i == 0 {
    } else if k == 0 {
      TestOfZero(i - 1);
    } else {
      TestOfBit(k - 1, i - 1);
    }
  }

  lemma OrDigits(a: nat, b: nat)
    ensures Or(a, b) / 2 == Or(a / 2, b / 2)
    ensures Or(a, b) % 2 == 1 <==> a % 2 == 1 || b % 2 == 1
  {
  }

  lemma AndNotDigits(a: nat, b: nat)
    ensures AndNot(a, b) / 2 == AndNot(a / 2, b / 2)
    ensures AndNot(a, b) % 2 == 1 <==> a % 2 == 1 && b % 2 != 1
  {
  }

  lemma {:induction false} TestOfOr(a: nat, b: nat, i: nat)
    ensures Test(Or(a, b), i) <==> Test(a, i) || Test(b, i)
    decreases i
  {
    OrDigits(a, b);
    if i == 0 {
    } else {
      TestOfOr(a / 2, b / 2, i - 1);
    }
  }

  lemma {:induction false} TestOfAndNot(a: nat, b: nat, i: nat)
    ensures Test(AndNot(a, b), i) <==> Test(a, i) && !Test(b, i)
    decreases i
  {
    AndNotDigits(a, b);
    if i == 0 {
    } else {
      TestOfAndNot(a / 2, b / 2, i - 1);
    }
  }

  /** A mask whose first n digits are all it has is determined by them. */
  lemma {:induction false} SameDigitsSameMask(a: nat, b: nat, n: nat)
    requires a < Bit(n) && b < Bit(n)
    requires forall i :: 0 <= i < n ==> Test(a, i) == Test(b, i)
    ensures a == b
    decreases n
  {
    if n == 0 {
    } else {
      forall i | 0 <= i < n - 1 ensures Test(a / 2, i) == Test(b / 2, i) {
        assert Test(a, i + 1) == Test(b, i + 1);
      }
      SameDigitsSameMask(a / 2, b / 2, n - 1);
      assert Test(a, 0) == Test(b, 0);
    }
  }

  lemma {:induction false} MaskStaysShort(a: nat, b: nat, n: nat)
    requires a < Bit(n) && b < Bit(n)
    ensures Or(a, b) < Bit(n) && AndNot(a, b) < Bit(n)
    decreases n
  {
    if n == 0 {
    } else {
      MaskStaysShort(a / 2, b / 2, n - 1);
    }
  }

  lemma {:induction false} BitGrows(i: nat, n: nat)
    requires i < n
    ensures Bit(i) < Bit(n)
    decreases n
  {
    if i + 1 < n {
      BitGrows(i, n - 1);
    }
  }

  lemma SixteenBits()
    ensures Bit(16) == 0x1_0000
  {
    assert Bit(4) == 16;
    assert Bit(8) == 256;
    assert Bit(12) == 4096;
  }

  /** The buttons a bitmask stands for. */
  function HeldSet(buttons: u16): set<ButtonId> {
    set id: ButtonId | 0 <= id < 16 && Test(buttons, id)
  }

  /** The mask after pressing or releasing one button, as `apply` computes it. */
  function WithButton(buttons: u16, id: ButtonId, pressed: bool): (next: u16)
    ensures HeldSet(next) == if pressed then HeldSet(buttons) + {id} else HeldSet(buttons) - {id}
  {
    SixteenBits();
    BitGrows(id, 16);
    MaskStaysShort(buttons, Bit(id), 16);
    PressAndRelease(buttons, id);
    if pressed then Or(buttons, Bit(id)) else AndNot(buttons, Bit(id))
  }

  lemma PressAndRelease(buttons: nat, id: ButtonId)
    ensures forall i: ButtonId :: Test(Or(buttons, Bit(id)), i) <==> Test(buttons, i) || i == id
    ensures forall i: ButtonId :: Test(AndNot(buttons, Bit(id)), i) <==> Test(buttons, i) && i != id
  {
    forall i: ButtonId
      ensures Test(Or(buttons, Bit(id)), i) <==> Test(buttons, i) || i == id
      ensures Test(AndNot(buttons, Bit(id)), i) <==> Test(buttons, i) && i != id
    {
      TestOfOr(buttons, Bit(id), i);
      TestOfAndNot(buttons, Bit(id), i);
      TestOfBit(id, i);
    }
  }

  /** Different masks stand for different sets of buttons. */
  lemma HeldSetIsFaithful(a: u16, b: u16)
    ensures a == b <==> HeldSet(a) == HeldSet(b)
  {
    if HeldSet(a) == HeldSet(b) {
      SixteenBits();
      forall i | 0 <= i < 16 ensures Test(a, i) == Test(b, i) {
        var id: ButtonId := i;
        assert id in HeldSet(a) <==> id in HeldSet(b);
      }
      SameDigitsSameMask(a, b, 16);
    }
  }

  lemma NothingHeld()
    ensures HeldSet(0) == {}
  {
    forall id: ButtonId ensures !Test(0, id) {
      TestOfZero(id);
    }
  }

  // ----- wire format --------------------------------------------------------

  datatype Message = Message(port: i32, device: i32, index: i32, id: i32, state: u16)

  /** Two's complement of a 32-bit integer, as an unsigned number. */
  function Unsigned32(x: i32): (r: int)
    ensures 0 <= r < 0x1_0000_0000
  {
    if x < 0 then x + 0x1_0000_0000 else x
  }

  function Signed32(x: int): i32
    requires 0 <= x < 0x1_0000_0000
  {
    if x < 0x8000_0000 then x else x - 0x1_0000_0000
  }

  /** `value as u16`, and RetroArch's reading of it as an int16_t. */
  function Unsigned16(x: i16): u16 { if x < 0 then x + 0x1_0000 else x }

  function Signed16(x: u16): i16 { if x < 0x8000 then x else x - 0x1_0000 }

  function Le32(x: i32): Packet {
    var u := Unsigned32(x);
    [u % 0x100, u / 0x100 % 0x100, u / 0x1_0000 % 0x100, u / 0x100_0000]
  }

  function FromLe32(p: Packet): i32
    requires |p| == 4
  {
    var b0: int, b1: int, b2: int, b3: int := p[0], p[1], p[2], p[3];
    Signed32(b0 + 0x100 * b1 + 0x1_0000 * b2 + 0x100_0000 * b3)
  }

  function Le16(x: u16): Packet { [x % 0x100, x / 0x100] }

  function FromLe16(p: Packet): u16
    requires |p| == 2
  {
    var b0: int, b1: int := p[0], p[1];
    b0 + 0x100 * b1
  }

  function EncodeMessage(m: Message): (p: Packet)
    ensures |p| == REMOTE_MESSAGE_LEN
  {
    Le32(m.port) + Le32(m.device) + Le32(m.index) + Le32(m.id) + Le16(m.state) + [0, 0]
  }

  /** The message of `encode_joypad`. */
  function Joypad(port: i32, id: i32, pressed: bool): Message {
    Message(port, RETRO_DEVICE_JOYPAD, 0, id, if pressed then 1 else 0)
  }

  /** The message of `encode_analog`. */
  function Analog(port: i32, stick: i32, axis: i32, value: i16): Message {
    Message(port, RETRO_DEVICE_ANALOG, stick, axis, Unsigned16(value))
  }

  function Decode(p: Packet): Message
    requires |p| == REMOTE_MESSAGE_LEN
  {
    Message(FromLe32(p[0..4]), FromLe32(p[4..8]), FromLe32(p[8..12]), FromLe32(p[12..16]), FromLe16(p[16..18]))
  }

  lemma Le32RoundTrip(x: i32)
    ensures FromLe32(Le32(x)) == x
  {
    var u := Unsigned32(x);
    FourDigits(u);
    assert Signed32(u) == x;
  }

  lemma FourDigits(u: int)
    requires 0 <= u < 0x1_0000_0000
    ensures u == u % 0x100 + 0x100 * (u / 0x100 % 0x100)
                 + 0x1_0000 * (u / 0x1_0000 % 0x100) + 0x100_0000 * (u / 0x100_0000)
  {
    var a := u / 0x100;
    var b := a / 0x100;
    assert b == u / 0x1_0000 && b / 0x100 == u / 0x100_0000;
  }

  /** Encoding loses nothing: every field of every message comes back. */
  lemma MessageRoundTrip(m: Message)
    ensures Decode(EncodeMessage(m)) == m
    ensures EncodeMessage(m)[18..20] == [0, 0]
  {
    var p := EncodeMessage(m);
    Le32RoundTrip(m.port);
    Le32RoundTrip(m.device);
    Le32RoundTrip(m.index);
    Le32RoundTrip(m.id);
    assert p[0..4] == Le32(m.port) && p[4..8] == Le32(m.device);
    assert p[8..12] == Le32(m.index) && p[12..16] == Le32(m.id);
    assert p[16..18] == Le16(m.state);
  }

  /** Every 16-bit axis value survives the trip through the unsigned state field. */
  lemma AnalogValueRoundTrip(port: i32, stick: i32, axis: i32, value: i16)
    ensures Signed16(Decode(EncodeMessage(Analog(port, stick, axis, value))).state) == value
  {
    MessageRoundTrip(Analog(port, stick, axis, value));
  }

  lemma Le32OfByte(x: u8)
    ensures Le32(x) == [x, 0, 0, 0]
  {
  }

  lemma BytesOfMessage(port: u8, device: u8, index: u8, id: u8, state: u16)
    ensures EncodeMessage(Message(port, device, index, id, state))
         == [port, 0, 0, 0, device, 0, 0, 0, index, 0, 0, 0, id, 0, 0, 0, state % 0x100, state / 0x100, 0, 0]
  {
    Le32OfByte(port);
    Le32OfByte(device);
    Le32OfByte(index);
    Le32OfByte(id);
    var two := Le32(port) + Le32(device);
    assert two == [port, 0, 0, 0, device, 0, 0, 0];
    var three := two + Le32(index);
    assert three == [port, 0, 0, 0, device, 0, 0, 0, index, 0, 0, 0];
    var four := three + Le32(id);
    assert four == [port, 0, 0, 0, device, 0, 0, 0, index, 0, 0, 0, id, 0, 0, 0];
    assert EncodeMessage(Message(port, device, index, id, state)) == four + Le16(state) + [0, 0];
  }

  /** The twenty bytes of a joypad message, little end first, as libretro's struct has them. */
  lemma JoypadLayout(port: u8, id: ButtonId, pressed: bool)
    ensures EncodeMessage(Joypad(port, id, pressed))
         == [port, 0, 0, 0, 1, 0, 0, 0, 0, 0, 0, 0, id, 0, 0, 0, if pressed then 1 else 0, 0, 0, 0]
  {
    BytesOfMessage(port, 1, 0, id, if pressed then 1 else 0);
  }

  /** And those of an analog message: stick in the index, axis in the id, the value in two's complement. */
  lemma AnalogLayout(port: u8, stick: u8, axis: u8, value: i16)
    ensures var bits := if value < 0 then value + 0x1_0000 else value;
            var bytes := [port, 0, 0, 0, 5, 0, 0, 0, stick, 0, 0, 0, axis, 0, 0, 0, bits % 0x100, bits / 0x100, 0, 0];
            EncodeMessage(Analog(port, stick, axis, value)) == bytes
  {
    BytesOfMessage(port, 5, stick, axis, Unsigned16(value));
  }

  /** Fills the 20-byte buffer field by field; the last two bytes stay zero. */
  method FillMessage(m: Message) returns (buf: array<u8>)
    ensures fresh(buf) && buf[..] == EncodeMessage(m)
  {
    buf := new u8[REMOTE_MESSAGE_LEN](i => 0);
    CopyFromSlice(buf, 0, Le32(m.port));
    CopyFromSlice(buf, 4, Le32(m.device));
    assert buf[..8] == Le32(m.port) + Le32(m.device);
    CopyFromSlice(buf, 8, Le32(m.index));
    assert buf[..12] == buf[..8] + Le32(m.index);
    CopyFromSlice(buf, 12, Le32(m.id));
    assert buf[..16] == buf[..12] + Le32(m.id);
    CopyFromSlice(buf, 16, Le16(m.state));
    assert buf[..18] == buf[..16] + Le16(m.state);
    assert buf[18] == 0 && buf[19] == 0;
    assert buf[..] == buf[..18] + [0, 0];
  }

  method CopyFromSlice(buf: array<u8>, from: nat, bytes: Packet)
    requires from + |bytes| <= buf.Length
    modifies buf
    ensures forall k :: 0 <= k < buf.Length ==>
              buf[k] == if from <= k < from + |bytes| then bytes[k - from] else old(buf[k])
    ensures buf[..from] == old(buf[..from])
  {
    for i := 0 to |bytes|
      invariant forall k :: 0 <= k < buf.Length ==>
                  buf[k] == if from <= k < from + i then bytes[k - from] else old(buf[k])
    {
      buf[from + i] := bytes[i];
    }
  }

  // ----- events and the receiver ----------------------------------------------

  datatype GamepadEvent =
    | Button(button: RetroPadButton, pressed: bool)
    | Axis(stick: i32, axis: i32, value: i16)

  /** What a game sees: the held buttons, and X and Y of the left and the right stick. */
  datatype Pad = Pad(held: set<ButtonId>, axes: seq<i16>)

  const NEUTRAL := Pad({}, [0, 0, 0, 0])

  function Clamp01(x: i32): (r: nat)
    ensures r <= 1
    ensures 0 <= x <= 1 ==> r == x
  {
    if x < 0 then 0 else if x > 1 then 1 else x
  }

  function AxisIndex(stick: i32, axis: i32): (k: nat)
    ensures k < 4
  {
    2 * Clamp01(stick) + Clamp01(axis)
  }

  predicate InRange(e: GamepadEvent) {
    e.Axis? ==> 0 <= e.stick <= 1 && 0 <= e.axis <= 1
  }

  /** The reference meaning of an event. */
  function Play(pad: Pad, e: GamepadEvent): Pad
    requires |pad.axes| == 4
  {
    match e
    case Button(b, pressed) => pad.(held := if pressed then pad.held + {Id(b)} else pad.held - {Id(b)})
    case Axis(stick, axis, value) => pad.(axes := pad.axes[AxisIndex(stick, axis) := value])
  }

  /** The receiver's own reading, in its own numbers: device 1 is the joypad, device 5 the analog sticks. */
  function ReceiveMessage(pad: Pad, m: Message): Pad
    requires |pad.axes| == 4
  {
    if m.device == 1 && 0 <= m.id < 16 then
      pad.(held := if m.state != 0 then pad.held + {m.id as ButtonId} else pad.held - {m.id as ButtonId})
    else if m.device == 5 && 0 <= m.index <= 1 && 0 <= m.id <= 1 then
      pad.(axes := pad.axes[2 * m.index + m.id := Signed16(m.state)])
    else pad
  }

  function ReceiveAll(pad: Pad, ms: seq<Message>): (r: Pad)
    requires |pad.axes| == 4
    ensures |r.axes| == 4
    decreases |ms|
  {
    if ms == [] then pad else ReceiveMessage(ReceiveAll(pad, ms[..|ms| - 1]), ms[|ms| - 1])
  }

  /** A packet of the wrong length cancels every input of the player. */
  function Receive(pad: Pad, p: Packet): Pad
    requires |pad.axes| == 4
  {
    if |p| != 20 then NEUTRAL else ReceiveMessage(pad, Decode(p))
  }

  function ReceiveBytes(pad: Pad, ps: seq<Packet>): (r: Pad)
    requires |pad.axes| == 4
    ensures |r.axes| == 4
    decreases |ps|
  {
    if ps == [] then pad else Receive(ReceiveBytes(pad, ps[..|ps| - 1]), ps[|ps| - 1])
  }

  function Wire(ms: seq<Message>): (ps: seq<Packet>)
    ensures |ps| == |ms|
    decreases |ms|
  {
    if ms == [] then [] else Wire(ms[..|ms| - 1]) + [EncodeMessage(ms[|ms| - 1])]
  }

  /** Over the wire the receiver reads exactly the messages that were sent. */
  lemma {:induction false} WireIsFaithful(pad: Pad, ms: seq<Message>)
    requires |pad.axes| == 4
    ensures ReceiveBytes(pad, Wire(ms)) == ReceiveAll(pad, ms)
    decreases |ms|
  {
    if ms == [] {
    } else {
      var n := |ms| - 1;
      WireIsFaithful(pad, ms[..n]);
      MessageRoundTrip(ms[n]);
      assert Wire(ms)[..n] == Wire(ms[..n]) && Wire(ms)[n] == EncodeMessage(ms[n]);
    }
  }

  lemma ReceiveOneMore(pad: Pad, ms: seq<Message>, m: Message)
    requires |pad.axes| == 4
    ensures ReceiveAll(pad, ms + [m]) == ReceiveMessage(ReceiveAll(pad, ms), m)
    ensures Wire(ms + [m]) == Wire(ms) + [EncodeMessage(m)]
  {
    assert (ms + [m])[..|ms|] == ms;
  }

  function MessageOf(e: GamepadEvent): Message {
    match e
    case Button(b, pressed) => Joypad(0, Id(b), pressed)
    case Axis(stick, axis, value) => Analog(0, stick, axis, value)
  }

  /** A message means to the receiver what its event means, for events in range. */
  lemma MessageMeansEvent(pad: Pad, e: GamepadEvent)
    requires |pad.axes| == 4 && InRange(e)
    ensures ReceiveMessage(pad, MessageOf(e)) == Play(pad, e)
  {
  }

  datatype Command = Event(event: GamepadEvent) | Release

  predicate CommandInRange(c: Command) { c.Event? ==> InRange(c.event) }

  function PlayCommand(pad: Pad, c: Command): Pad
    requires |pad.axes| == 4
  {
    match c
    case Event(e) => Play(pad, e)
    case Release => NEUTRAL
  }

  function PlayAll(pad: Pad, commands: seq<Command>): (r: Pad)
    requires |pad.axes| == 4
    ensures |r.axes| == 4
    decreases |commands|
  {
    if commands == [] then pad
    else PlayCommand(PlayAll(pad, commands[..|commands| - 1]), commands[|commands| - 1])
  }

  /** Every button released and every axis recentred, held or not. */
  function ReleaseEverything(id: nat): seq<Message>
    requires id <= 20
    decreases 20 - id
  {
    if id == 20 then []
    else [if id < 16 then Joypad(0, id, false) else Recentring(id - 16)] + ReleaseEverything(id + 1)
  }

  /** What a sender would send that suppresses nothing. */
  function Unsuppressed(c: Command): seq<Message> {
    match c
    case Event(e) => [MessageOf(e)]
    case Release => ReleaseEverything(0)
  }

  function AllMessages(commands: seq<Command>): seq<Message>
    decreases |commands|
  {
    if commands == [] then [] else AllMessages(commands[..|commands| - 1]) + Unsuppressed(commands[|commands| - 1])
  }

  /** What is still to be released from the `id`-th of the twenty messages on. */
  predicate ReleasedUpTo(pad: Pad, id: nat) {
    && |pad.axes| == 4 && id <= 20
    && (forall k :: k in pad.held ==> k >= id)
    && (forall k :: 0 <= k < 4 && k + 16 < id ==> pad.axes[k] == 0)
  }

  lemma OneReleaseMore(pad: Pad, id: nat)
    requires ReleasedUpTo(pad, id) && id < 20
    ensures ReleasedUpTo(ReceiveMessage(pad, if id < 16 then Joypad(0, id, false) else Recentring(id - 16)), id + 1)
  {
    if id >= 16 {
      RecentreOne(pad, id - 16);
    }
  }

  lemma {:induction false} ReleaseEverythingDelivers(pad: Pad, id: nat)
    requires ReleasedUpTo(pad, id)
    ensures ReceiveAll(pad, ReleaseEverything(id)) == NEUTRAL
    decreases 20 - id
  {
    if id == 20 {
      assert pad.held == {} && pad.axes == NEUTRAL.axes;
    } else {
      var m := if id < 16 then Joypad(0, id, false) else Recentring(id - 16);
      OneReleaseMore(pad, id);
      ReceiveFirst(pad, m, ReleaseEverything(id + 1));
      ReleaseEverythingDelivers(ReceiveMessage(pad, m), id + 1);
    }
  }

  lemma UnsuppressedPlays(pad: Pad, c: Command)
    requires |pad.axes| == 4 && CommandInRange(c)
    ensures ReceiveAll(pad, Unsuppressed(c)) == PlayCommand(pad, c)
  {
    match c
    case Event(e) =>
      MessageMeansEvent(pad, e);
      ReceiveOneMore(pad, [], MessageOf(e));
      assert [] + [MessageOf(e)] == [MessageOf(e)];
    case Release => ReleaseEverythingDelivers(pad, 0);
  }

  lemma {:induction false} AllMessagesPlayAll(pad: Pad, commands: seq<Command>)
    requires |pad.axes| == 4 && forall k :: 0 <= k < |commands| ==> CommandInRange(commands[k])
    ensures ReceiveAll(pad, AllMessages(commands)) == PlayAll(pad, commands)
    decreases |commands|
  {
    if commands != [] {
      var n := |commands| - 1;
      AllMessagesPlayAll(pad, commands[..n]);
      ReceiveAppend(pad, AllMessages(commands[..n]), Unsuppressed(commands[n]));
      UnsuppressedPlays(PlayAll(pad, commands[..n]), commands[n]);
    }
  }

  /**
   * Sending every event and, on every release, all sixteen buttons and four axes gives the
   * receiver the same pad as the sender of changes does (see `RemoteGamepad.Drive`).
   */
  lemma SendingEverythingGivesTheSame(pad: Pad, commands: seq<Command>)
    requires |pad.axes| == 4 && forall k :: 0 <= k < |commands| ==> CommandInRange(commands[k])
    ensures ReceiveBytes(pad, Wire(AllMessages(commands))) == PlayAll(pad, commands)
  {
    AllMessagesPlayAll(pad, commands);
    WireIsFaithful(pad, AllMessages(commands));
  }

  // ----- what the game sees -----------------------------------------------

  /** The receiver's numbering of the joypad buttons, libretro's. */
  function LibretroButton(id: ButtonId): RetroPadButton {
    if id == 0 then B else if id == 1 then Y else if id == 2 then Select else if id == 3 then Start
    else if id == 4 then Up else if id == 5 then Down else if id == 6 then Left else if id == 7 then Right
    else if id == 8 then A else if id == 9 then X else if id == 10 then L else if id == 11 then R
    else if id == 12 then L2 else if id == 13 then R2 else if id == 14 then L3 else R3
  }

  datatype Game = Game(held: set<RetroPadButton>, leftX: i16, leftY: i16, rightX: i16, rightY: i16)

  function Seen(pad: Pad): Game
    requires |pad.axes| == 4
  {
    Game(set id | id in pad.held :: LibretroButton(id), pad.axes[0], pad.axes[1], pad.axes[2], pad.axes[3])
  }

  /** What an event is meant to do, in the game's own terms. */
  function PlayGame(g: Game, c: Command): Game {
    match c
    case Release => Game({}, 0, 0, 0, 0)
    case Event(Button(b, pressed)) => g.(held := if pressed then g.held + {b} else g.held - {b})
    case Event(Axis(stick, axis, value)) =>
      if stick == 0 then if axis == 0 then g.(leftX := value) else g.(leftY := value)
      else if axis == 0 then g.(rightX := value) else g.(rightY := value)
  }

  function PlayGameAll(g: Game, commands: seq<Command>): Game
    decreases |commands|
  {
    if commands == [] then g
    else PlayGame(PlayGameAll(g, commands[..|commands| - 1]), commands[|commands| - 1])
  }

  /** Sender and receiver number the buttons alike, and no two of them the same. */
  lemma NumbersAgree(b: RetroPadButton, id: ButtonId)
    ensures LibretroButton(Id(b)) == b
    ensures Id(LibretroButton(id)) == id
  {
  }

  lemma SeenHolds(pad: Pad, b: RetroPadButton)
    requires |pad.axes| == 4
    ensures b in Seen(pad).held <==> Id(b) in pad.held
  {
    NumbersAgree(b, 0);
    forall id | id in pad.held && LibretroButton(id) == b ensures id == Id(b) {
      NumbersAgree(b, id);
    }
  }

  lemma SeenPlaysButton(pad: Pad, b: RetroPadButton, pressed: bool)
    requires |pad.axes| == 4
    ensures Seen(Play(pad, Button(b, pressed))) == PlayGame(Seen(pad), Event(Button(b, pressed)))
  {
    var after := Play(pad, Button(b, pressed));
    forall k: RetroPadButton
      ensures k in Seen(after).held <==> k in PlayGame(Seen(pad), Event(Button(b, pressed))).held
    {
      SeenHolds(pad, k);
      SeenHolds(after, k);
      NumbersAgree(k, 0);
      NumbersAgree(b, 0);
    }
  }

  lemma SeenPlays(pad: Pad, c: Command)
    requires |pad.axes| == 4 && CommandInRange(c)
    ensures Seen(PlayCommand(pad, c)) == PlayGame(Seen(pad), c)
  {
    match c
    case Release =>
    case Event(Button(b, pressed)) => SeenPlaysButton(pad, b, pressed);
    case Event(Axis(stick, axis, value)) =>
  }

  /** A message does in the game what its event is meant to do: the button named is the button moved. */
  lemma MessageReachesTheGame(pad: Pad, e: GamepadEvent)
    requires |pad.axes| == 4 && InRange(e)
    ensures Seen(ReceiveMessage(pad, MessageOf(e))) == PlayGame(Seen(pad), Event(e))
  {
    MessageMeansEvent(pad, e);
    SeenPlays(pad, Event(e));
  }

  lemma {:induction false} SeenPlaysAll(pad: Pad, commands: seq<Command>)
    requires |pad.axes| == 4 && forall k :: 0 <= k < |commands| ==> CommandInRange(commands[k])
    ensures Seen(PlayAll(pad, commands)) == PlayGameAll(Seen(pad), commands)
    decreases |commands|
  {
    if commands != [] {
      var n := |commands| - 1;
      SeenPlaysAll(pad, commands[..n]);
      SeenPlays(PlayAll(pad, commands[..n]), commands[n]);
    }
  }

  /** Whether the last command that says anything about b was a press of it. */
  predicate LastPressed(commands: seq<Command>, b: RetroPadButton, before: bool)
    decreases |commands|
  {
    if commands == [] then before
    else
      var n := |commands| - 1;
      match commands[n]
      case Release => false
      case Event(Button(k, pressed)) => if k == b then pressed else LastPressed(commands[..n], b, before)
      case Event(Axis(_, _, _)) => LastPressed(commands[..n], b, before)
  }

  /** A button is held exactly if the last thing that happened to it was a press. */
  lemma {:induction false} HeldIffLastPressed(g: Game, commands: seq<Command>, b: RetroPadButton)
    ensures b in PlayGameAll(g, commands).held <==> LastPressed(commands, b, b in g.held)
    decreases |commands|
  {
    if commands != [] {
      HeldIffLastPressed(g, commands[..|commands| - 1], b);
    }
  }

  // ----- the sender -------------------------------------------------------

  /** One player's channel. `socket` is the wire, lossless and in order; `sent` is what it carries. */
  class RemoteGamepad {
    var buttons: u16
    const axes: array2<i16>
    var socket: seq<Packet>
    ghost var sent: seq<Message>

    constructor ()
      ensures fresh(axes) && Agrees()
      ensures State() == NEUTRAL && sent == []
    {
      buttons := 0;
      axes := new i16[2, 2]((s, a) => 0);
      socket, sent := [], [];
      new;
      NothingHeld();
    }

    ghost predicate Valid()
      reads this`socket, this`sent
    {
      Shaped() && socket == Wire(sent)
    }

    predicate Shaped() {
      axes.Length0 == 2 && axes.Length1 == 2
    }

    /** The sender's own idea of the pad. */
    function State(): (pad: Pad)
      requires Shaped()
      reads this, axes
      ensures |pad.axes| == 4
    {
      Pad(HeldSet(buttons), [axes[0, 0], axes[0, 1], axes[1, 0], axes[1, 1]])
    }

    /** The receiver, having folded everything sent, has the same idea. */
    ghost predicate Agrees()
      reads this, axes
    {
      Valid() && ReceiveAll(NEUTRAL, sent) == State()
    }

    method Send(m: Message)
      requires Valid()
      modifies this`socket, this`sent
      ensures Valid() && sent == old(sent) + [m]
      ensures ReceiveAll(NEUTRAL, sent) == ReceiveMessage(old(ReceiveAll(NEUTRAL, sent)), m)
    {
      ReceiveOneMore(NEUTRAL, sent, m);
      var packet := FillMessage(m);
      socket := socket + [packet[..]];
      sent := sent + [m];
    }

    /** Applies an event: a packet goes out exactly when the state changes. */
    method Apply(e: GamepadEvent)
      requires Agrees() && InRange(e)
      modifies this, axes
      ensures Agrees()
      ensures State() == Play(old(State()), e)
      ensures sent == old(sent) + if State() == old(State()) then [] else [MessageOf(e)]
    {
      match e
      case Button(button, pressed) => ApplyButton(button, pressed);
      case Axis(stick, axis, value) => ApplyAxis(stick, axis, value);
    }

    method ApplyButton(button: RetroPadButton, pressed: bool)
      requires Agrees()
      modifies this
      ensures Agrees()
      ensures State() == Play(old(State()), Button(button, pressed))
      ensures Seen(State()) == PlayGame(Seen(old(State())), Event(Button(button, pressed)))
      ensures sent == old(sent) + if State() == old(State()) then [] else [MessageOf(Button(button, pressed))]
    {
      SeenPlaysButton(State(), button, pressed);
      var next := WithButton(buttons, Id(button), pressed);
      HeldSetIsFaithful(next, buttons);
      if next == buttons {
        return;
      }
      MessageMeansEvent(State(), Button(button, pressed));
      Send(Joypad(0, Id(button), pressed));
      buttons := next;
    }

    method ApplyAxis(stick: i32, axis: i32, value: i16)
      requires Agrees() && InRange(Axis(stick, axis, value))
      modifies this`socket, this`sent, axes
      ensures Agrees()
      ensures State() == Play(old(State()), Axis(stick, axis, value))
      ensures sent == old(sent) + if State() == old(State()) then [] else [MessageOf(Axis(stick, axis, value))]
    {
      var s, a := Clamp01(stick), Clamp01(axis);
      ghost var before := State();
      AxisIsIndexed(s, a);
      if axes[s, a] == value {
        StoreSame(before, AxisIndex(stick, axis));
        return;
      }
      MessageMeansEvent(before, Axis(stick, axis, value));
      Send(Analog(0, stick, axis, value));
      StoreAxis(s, a, value);
      assert State().axes[AxisIndex(stick, axis)] == value;
    }

    lemma AxisIsIndexed(s: nat, a: nat)
      requires Shaped() && s < 2 && a < 2
      ensures State().axes[2 * s + a] == axes[s, a]
    {
      if s == 0 && a == 0 {
      } else if s == 0 {
      } else if a == 0 {
      } else {
      }
    }

    method StoreAxis(s: nat, a: nat, value: i16)
      requires Shaped() && s < 2 && a < 2
      modifies axes
      ensures State() == old(State()).(axes := old(State()).axes[2 * s + a := value])
      ensures old(State()).axes[2 * s + a] == old(axes[s, a])
    {
      ghost var before := State().axes;
      axes[s, a] := value;
      var k := 2 * s + a;
      assert State().axes[0] == before[k := value][0];
      assert State().axes[1] == before[k := value][1];
      assert State().axes[2] == before[k := value][2];
      assert State().axes[3] == before[k := value][3];
      assert State().axes == before[k := value];
    }

    /** Releases every held button, then recentres every deflected axis. */
    method ReleaseAll()
      requires Agrees()
      modifies this, axes
      ensures Agrees() && State() == NEUTRAL
      ensures sent == old(sent) + ReleasePackets(old(buttons), 0) + RecentrePackets(old(State()).axes, 0)
    {
      ghost var before, mask, start := State(), buttons, sent;
      ReleaseButtons();
      RecentreAxes();
      ReleaseAllDelivers(start, before, mask);
    }

    /** Agreement is about the bytes: the receiver, reading the wire, sees the sender's state. */
    lemma AgreementReachesTheWire()
      requires Agrees()
      ensures ReceiveBytes(NEUTRAL, socket) == State()
    {
      WireIsFaithful(NEUTRAL, sent);
    }

    /**
     * Any sequence of events and releases: what the receiver reads off the wire is what the
     * sender believes, which is what playing every command, repeated ones included, would give.
     */
    method Drive(commands: seq<Command>)
      requires Agrees() && forall k :: 0 <= k < |commands| ==> CommandInRange(commands[k])
      modifies this, axes
      ensures Agrees()
      ensures State() == PlayAll(old(State()), commands)
      ensures ReceiveBytes(NEUTRAL, socket) == PlayAll(old(State()), commands)
      ensures ReceiveBytes(NEUTRAL, socket) == ReceiveBytes(old(State()), Wire(AllMessages(commands)))
      ensures Seen(ReceiveBytes(NEUTRAL, socket)) == PlayGameAll(Seen(old(State())), commands)
      ensures forall b :: b in Seen(ReceiveBytes(NEUTRAL, socket)).held
                          <==> LastPressed(commands, b, b in Seen(old(State())).held)
      ensures old(sent) <= sent
    {
      ghost var before, start := State(), sent;
      for k := 0 to |commands|
        invariant Agrees() && State() == PlayAll(before, commands[..k])
        invariant start <= sent
      {
        assert commands[..k + 1][..k] == commands[..k];
        match commands[k]
        case Event(e) => Apply(e);
        case Release => ReleaseAll();
      }
      assert commands[..|commands|] == commands;
      AgreementReachesTheWire();
      SendingEverythingGivesTheSame(before, commands);
      SeenPlaysAll(before, commands);
      forall b
        ensures b in PlayGameAll(Seen(before), commands).held <==> LastPressed(commands, b, b in Seen(before).held)
      {
        HeldIffLastPressed(Seen(before), commands, b);
      }
    }

    method ReleaseButtons()
      requires Valid()
      modifies this`buttons, this`socket, this`sent
      ensures Valid() && State() == Pad({}, old(State()).axes)
      ensures sent == old(sent) + ReleasePackets(old(buttons), 0)
    {
      if buttons != 0 {
        SendReleases();
        buttons := 0;
      } else {
        NothingToRelease(0);
      }
      NothingHeld();
    }

    method SendReleases()
      requires Valid()
      modifies this`socket, this`sent
      ensures Valid() && sent == old(sent) + ReleasePackets(buttons, 0)
    {
      ghost var all, start := ReleasePackets(buttons, 0), sent;
      for id := 0 to 16
        invariant Valid() && sent + ReleasePackets(buttons, id) == start + all
      {
        SendRelease(id);
      }
    }

    method SendRelease(id: ButtonId)
      requires Valid()
      modifies this`socket, this`sent
      ensures Valid()
      ensures sent + ReleasePackets(buttons, id + 1) == old(sent) + ReleasePackets(buttons, id)
    {
      if Test(buttons, id) {
        Send(Joypad(0, id, false));
        assert ReleasePackets(buttons, id) == [Joypad(0, id, false)] + ReleasePackets(buttons, id + 1);
        assert sent + ReleasePackets(buttons, id + 1) == old(sent) + ReleasePackets(buttons, id);
      } else {
        assert ReleasePackets(buttons, id) == ReleasePackets(buttons, id + 1);
      }
    }

    method RecentreAxes()
      requires Valid()
      modifies this`socket, this`sent, axes
      ensures Valid() && State() == Pad(old(State()).held, NEUTRAL.axes)
      ensures sent == old(sent) + RecentrePackets(old(State()).axes, 0)
    {
      ghost var before := State();
      assert Recentred(before.axes, 4) == NEUTRAL.axes && Recentred(before.axes, 0) == before.axes;
      for stick := 0 to 2
        invariant Valid() && State() == Pad(before.held, Recentred(before.axes, 2 * stick))
        invariant sent + RecentrePackets(before.axes, 2 * stick) == old(sent) + RecentrePackets(before.axes, 0)
      {
        for axis := 0 to 2
          invariant Valid() && State() == Pad(before.held, Recentred(before.axes, 2 * stick + axis))
          invariant sent + RecentrePackets(before.axes, 2 * stick + axis) == old(sent) + RecentrePackets(before.axes, 0)
        {
          RecentreAxis(stick, axis, before.axes);
        }
      }
    }

    /** One turn of the two loops: with every earlier axis at rest, recentre this one. */
    method RecentreAxis(stick: i32, axis: i32, ghost before: seq<i16>)
      requires Valid() && 0 <= stick < 2 && 0 <= axis < 2
      requires |before| == 4 && State().axes == Recentred(before, 2 * stick + axis)
      modifies this`socket, this`sent, axes
      ensures Valid() && State() == Pad(old(State()).held, Recentred(before, 2 * stick + axis + 1))
      ensures sent + RecentrePackets(before, 2 * stick + axis + 1)
           == old(sent) + RecentrePackets(before, 2 * stick + axis)
    {
      ghost var k := 2 * stick + axis;
      AxisIsIndexed(stick, axis);
      RecentredNext(before, k);
      RecentreUnfolds(sent, before, k);
      if axes[stick, axis] != 0 {
        Send(Analog(0, stick, axis, 0));
        StoreAxis(stick, axis, 0);
      }
    }
  }

  /** The packets `release_all` sends for the buttons from `id` on. */
  function ReleasePackets(buttons: u16, id: nat): seq<Message>
    requires id <= 16
    decreases 16 - id, buttons
  {
    if id == 16 then []
    else (if Test(buttons, id) then [Joypad(0, id, false)] else []) + ReleasePackets(buttons, id + 1)
  }

  /** The message that brings axis k to rest. */
  function Recentring(k: nat): Message
    requires k < 4
  {
    if k < 2 then Analog(0, 0, k, 0) else Analog(0, 1, k - 2, 0)
  }

  /** The packets `release_all` sends for the axes from k on. */
  function RecentrePackets(axes: seq<i16>, k: nat): seq<Message>
    requires |axes| == 4 && k <= 4
    decreases 4 - k, axes
  {
    if k == 4 then []
    else (if axes[k] != 0 then [Recentring(k)] else []) + RecentrePackets(axes, k + 1)
  }

  lemma RecentreUnfolds(ms: seq<Message>, axes: seq<i16>, k: nat)
    requires |axes| == 4 && k < 4
    ensures axes[k] != 0 ==> ms + RecentrePackets(axes, k) == ms + [Recentring(k)] + RecentrePackets(axes, k + 1)
    ensures axes[k] == 0 ==> RecentrePackets(axes, k) == RecentrePackets(axes, k + 1)
  {
  }

  lemma {:induction false} NothingToRelease(id: nat)
    requires id <= 16
    ensures ReleasePackets(0, id) == []
    decreases 16 - id
  {
    if id < 16 {
      TestOfZero(id);
      NothingToRelease(id + 1);
    }
  }

  lemma {:induction false} ReceiveAppend(pad: Pad, ps: seq<Message>, qs: seq<Message>)
    requires |pad.axes| == 4
    ensures ReceiveAll(pad, ps + qs) == ReceiveAll(ReceiveAll(pad, ps), qs)
    decreases |qs|
  {
    if qs == [] {
      assert ps + qs == ps;
    } else {
      var n := |qs| - 1;
      assert (ps + qs)[..|ps + qs| - 1] == ps + qs[..n];
      ReceiveAppend(pad, ps, qs[..n]);
    }
  }

  lemma ReceiveFirst(pad: Pad, p: Message, ps: seq<Message>)
    requires |pad.axes| == 4
    ensures ReceiveAll(pad, [p] + ps) == ReceiveAll(ReceiveMessage(pad, p), ps)
  {
    ReceiveAppend(pad, [p], ps);
    assert ReceiveAll(pad, [p]) == ReceiveMessage(ReceiveAll(pad, []), p);
  }

  /** The release packets clear, at the receiver, exactly the buttons from `id` on. */
  lemma {:induction false} ReleaseDelivers(pad: Pad, buttons: u16, id: nat)
    requires |pad.axes| == 4 && id <= 16
    requires pad.held == From(HeldSet(buttons), id)
    ensures ReceiveAll(pad, ReleasePackets(buttons, id)) == Pad({}, pad.axes)
    decreases 16 - id
  {
    if id < 16 {
      var held := From(HeldSet(buttons), id + 1);
      ReleaseDelivers(Pad(held, pad.axes), buttons, id + 1);
      if Test(buttons, id) {
        assert held == pad.held - {id};
        ReceiveFirst(pad, Joypad(0, id, false), ReleasePackets(buttons, id + 1));
      } else {
        assert held == pad.held;
        assert ReleasePackets(buttons, id) == ReleasePackets(buttons, id + 1);
      }
    }
  }

  lemma RecentreOne(pad: Pad, k: nat)
    requires |pad.axes| == 4 && k < 4
    ensures ReceiveMessage(pad, Recentring(k)) == Pad(pad.held, pad.axes[k := 0])
  {
    MessageMeansEvent(pad, Axis(if k < 2 then 0 else 1, if k < 2 then k else k - 2, 0));
  }

  lemma RecentredNext(axes: seq<i16>, k: nat)
    requires |axes| == 4 && k < 4
    ensures Recentred(axes, k)[k := 0] == Recentred(axes, k + 1)
    ensures axes[k] == 0 ==> Recentred(axes, k) == Recentred(axes, k + 1)
  {
  }

  /** The recentring packets bring, at the receiver, the axes from k on to rest. */
  lemma {:induction false} RecentreDelivers(held: set<ButtonId>, axes: seq<i16>, k: nat)
    requires |axes| == 4 && k <= 4
    ensures ReceiveAll(Pad(held, Recentred(axes, k)), RecentrePackets(axes, k)) == Pad(held, NEUTRAL.axes)
    decreases 4 - k
  {
    var here := Pad(held, Recentred(axes, k));
    if k == 4 {
      assert here.axes == NEUTRAL.axes;
    } else {
      RecentreDelivers(held, axes, k + 1);
      RecentredNext(axes, k);
      if axes[k] != 0 {
        RecentreOne(here, k);
        ReceiveFirst(here, Recentring(k), RecentrePackets(axes, k + 1));
      } else {
        assert RecentrePackets(axes, k) == RecentrePackets(axes, k + 1);
      }
    }
  }

  /** Everything `release_all` sends, after what was sent before, brings the receiver to neutral. */
  lemma ReleaseAllDelivers(start: seq<Message>, pad: Pad, buttons: u16)
    requires |pad.axes| == 4 && pad.held == HeldSet(buttons) && ReceiveAll(NEUTRAL, start) == pad
    ensures ReceiveAll(NEUTRAL, start + ReleasePackets(buttons, 0) + RecentrePackets(pad.axes, 0)) == NEUTRAL
  {
    ReceiveAppend(NEUTRAL, start, ReleasePackets(buttons, 0));
    ReceiveAppend(NEUTRAL, start + ReleasePackets(buttons, 0), RecentrePackets(pad.axes, 0));
    ReleaseDelivers(pad, buttons, 0);
    assert Recentred(pad.axes, 0) == pad.axes;
    RecentreDelivers({}, pad.axes, 0);
  }

  /** Overwriting an axis with the value it has changes nothing. */
  lemma StoreSame(pad: Pad, k: nat)
    requires k < |pad.axes|
    ensures pad.axes[k := pad.axes[k]] == pad.axes
  {
  }

  /** The buttons not yet released when the loop has reached `id`. */
  function From(held: set<ButtonId>, id: nat): (r: set<ButtonId>)
    ensures id == 0 ==> r == held
    ensures id == 16 ==> r == {}
  {
    set k | k in held && k >= id
  }

  /** The first n axes at rest, the others as they were. */
  function Recentred(axes: seq<i16>, n: nat): (r: seq<i16>)
    requires |axes| == 4 && n <= 4
    ensures |r| == 4
  {
    seq(4, k requires 0 <= k < 4 => if k < n then 0 else axes[k])
  }

  // ----- axis scaling -----------------------------------------------------

  function Abs(x: real): (r: real)
    ensures r >= 0.0
  {
    if x < 0.0 then -x else x
  }

  function Clamp(x: real, lo: real, hi: real): (r: real)
    requires lo <= hi
    ensures lo <= r <= hi
    ensures lo <= x <= hi ==> r == x
  {
    if x < lo then lo else if x > hi then hi else x
  }

  /** Rounding half away from zero, on a value that is not negative. */
  function Round(x: real): (r: int)
    requires x >= 0.0
    ensures r >= 0
    ensures r as real - 0.5 <= x < r as real + 0.5
  {
    (x + 0.5).Floor
  }

  /** The deflection left after the deadzone, rescaled to [0, 1]. */
  function Magnitude(v: real, dz: real): (m: real)
    requires 0.0 <= dz <= 0.95
    ensures 0.0 <= m
  {
    if Abs(v) <= dz then 0.0 else
      QuotientGrows(0.0, Abs(v) - dz, 1.0 - dz);
      (Abs(v) - dz) / (1.0 - dz)
  }

  function AxisToI16(value: real, deadzone: real): int {
    var v := Clamp(value, -1.0, 1.0);
    var dz := Clamp(deadzone, 0.0, 0.95);
    if Abs(v) <= dz then 0
    else (if v < 0.0 then -1 else 1) * Round(Magnitude(v, dz) * 32767.0)
  }

  lemma MagnitudeBounds(v: real, dz: real)
    requires 0.0 <= dz <= 0.95 && Abs(v) <= 1.0
    ensures Magnitude(v, dz) <= 1.0
    ensures Abs(v) == 1.0 ==> Magnitude(v, dz) == 1.0
    ensures Magnitude(v, dz) == 0.0 <==> Abs(v) <= dz
  {
    if Abs(v) > dz {
      var n, d := Abs(v) - dz, 1.0 - dz;
      assert 0.0 < n <= d;
      QuotientAtMostOne(n, d);
    }
  }

  lemma QuotientAtMostOne(n: real, d: real)
    requires 0.0 < n <= d
    ensures 0.0 < n / d <= 1.0 && (n == d ==> n / d == 1.0)
  {
    assert (n / d) * d == n;
  }

  lemma QuotientGrows(m: real, n: real, d: real)
    requires 0.0 <= m <= n && 0.0 < d
    ensures m / d <= n / d
  {
    assert (n - m) / d >= 0.0;
  }

  lemma MagnitudeGrowsWithDeflection(u: real, v: real, dz: real)
    requires 0.0 <= dz <= 0.95 && Abs(u) <= Abs(v) <= 1.0
    ensures Magnitude(u, dz) <= Magnitude(v, dz)
  {
    if Abs(u) > dz {
      QuotientGrows(Abs(u) - dz, Abs(v) - dz, 1.0 - dz);
    }
  }

  lemma MagnitudeShrinksWithDeadzone(v: real, small: real, large: real)
    requires 0.0 <= small <= large <= 0.95 && Abs(v) <= 1.0
    ensures Magnitude(v, large) <= Magnitude(v, small)
  {
    var a := Abs(v);
    if a > large {
      var p, q := Magnitude(v, large), Magnitude(v, small);
      assert p * (1.0 - large) == a - large && q * (1.0 - small) == a - small;
      CrossMultiply(a, small, large, p, q);
    }
  }

  /** (a - l)/(1 - l) <= (a - s)/(1 - s) for s <= l < a <= 1. */
  lemma CrossMultiply(a: real, s: real, l: real, p: real, q: real)
    requires 0.0 <= s <= l < a <= 1.0 && l < 1.0
    requires p * (1.0 - l) == a - l && q * (1.0 - s) == a - s
    ensures p <= q
  {
    assert (1.0 - s) * (1.0 - q) == 1.0 - a;
    PositiveFactor(1.0 - s, 1.0 - q);
    assert q * (1.0 - l) == q * (1.0 - s) - q * (l - s);
    assert (1.0 - l) * (q - p) == (1.0 - q) * (l - s);
    PositiveFactor(1.0 - l, q - p);
  }

  lemma PositiveFactor(c: real, x: real)
    requires c > 0.0 && c * x >= 0.0
    ensures x >= 0.0
  {
  }

  lemma RoundIsMonotone(x: real, y: real)
    requires 0.0 <= x <= y
    ensures Round(x) <= Round(y)
  {
  }

  /** The unsigned output for a clamped deflection. */
  function Output(v: real, dz: real): (r: int)
    requires 0.0 <= dz <= 0.95
    ensures r >= 0
  {
    Round(Magnitude(v, dz) * 32767.0)
  }

  lemma OutputIsMagnitude(value: real, deadzone: real)
    ensures var v := Clamp(value, -1.0, 1.0); var dz := Clamp(deadzone, 0.0, 0.95);
            AxisToI16(value, deadzone) == if v < 0.0 then -Output(v, dz) else Output(v, dz)
  {
  }

  lemma OutputGrows(u: real, v: real, dz: real)
    requires 0.0 <= dz <= 0.95 && Abs(u) <= Abs(v) <= 1.0
    ensures Output(u, dz) <= Output(v, dz)
  {
    MagnitudeGrowsWithDeflection(u, v, dz);
    RoundIsMonotone(Magnitude(u, dz) * 32767.0, Magnitude(v, dz) * 32767.0);
  }

  /** More deflection, never less output, over the whole real line. */
  lemma AxisIsMonotone(u: real, v: real, deadzone: real)
    requires u <= v
    ensures AxisToI16(u, deadzone) <= AxisToI16(v, deadzone)
  {
    var a, b, dz := Clamp(u, -1.0, 1.0), Clamp(v, -1.0, 1.0), Clamp(deadzone, 0.0, 0.95);
    OutputIsMagnitude(u, deadzone);
    OutputIsMagnitude(v, deadzone);
    if a >= 0.0 {
      OutputGrows(a, b, dz);
    } else if b < 0.0 {
      OutputGrows(b, a, dz);
    }
  }

  /** The two directions of a stick behave alike. */
  lemma AxisIsOdd(value: real, deadzone: real)
    ensures AxisToI16(-value, deadzone) == -AxisToI16(value, deadzone)
  {
    var v, dz := Clamp(value, -1.0, 1.0), Clamp(deadzone, 0.0, 0.95);
    assert Clamp(-value, -1.0, 1.0) == -v && Abs(-v) == Abs(v);
    assert Magnitude(-v, dz) == Magnitude(v, dz);
    assert v == 0.0 ==> Magnitude(v, dz) == 0.0;
    OutputIsMagnitude(value, deadzone);
    OutputIsMagnitude(-value, deadzone);
  }

  /**
   * The output never reaches -32768, is full at full deflection, and is zero exactly where
   * the rescaled deflection rounds to zero: everywhere in the deadzone and just above it.
   */
  lemma AxisRange(value: real, deadzone: real)
    ensures var v := Clamp(value, -1.0, 1.0); var dz := Clamp(deadzone, 0.0, 0.95);
            && -32767 <= AxisToI16(value, deadzone) <= 32767
            && (value >= 1.0 ==> AxisToI16(value, deadzone) == 32767)
            && (value <= -1.0 ==> AxisToI16(value, deadzone) == -32767)
            && (Abs(v) <= dz ==> AxisToI16(value, deadzone) == 0)
            && (AxisToI16(value, deadzone) == 0 <==> Magnitude(v, dz) * 32767.0 < 0.5)
  {
    var v, dz := Clamp(value, -1.0, 1.0), Clamp(deadzone, 0.0, 0.95);
    MagnitudeBounds(v, dz);
    OutputIsMagnitude(value, deadzone);
    RoundIsMonotone(Magnitude(v, dz) * 32767.0, 32767.0);
  }

  lemma MagnitudeIsLinear(v: real, dz: real)
    requires 0.0 <= dz <= 0.95 && Abs(v) > dz
    ensures Magnitude(v, dz) * (1.0 - dz) == Abs(v) - dz
  {
  }

  /** `out` times d is within half of d of `lin` times 32767. */
  predicate OnLine(out: real, lin: real, d: real) {
    -0.5 * d <= out * d - lin * 32767.0 <= 0.5 * d
  }

  lemma RoundScaled(m: real, d: real, lin: real)
    requires m >= 0.0 && d > 0.0 && m * d == lin
    ensures OnLine(Round(m * 32767.0) as real, lin, d)
  {
    var out := Round(m * 32767.0) as real;
    var r := out - m * 32767.0;
    ScaleBounds(r, d);
    assert r * d == out * d - m * d * 32767.0;
  }

  lemma ScaleBounds(r: real, d: real)
    requires -0.5 <= r <= 0.5 && d > 0.0
    ensures -0.5 * d <= r * d <= 0.5 * d
  {
    assert (0.5 - r) * d >= 0.0 && (0.5 + r) * d >= 0.0;
  }

  lemma OutputIsLinear(v: real, dz: real)
    requires 0.0 <= dz <= 0.95 && Abs(v) > dz
    ensures OnLine(Output(v, dz) as real, Abs(v) - dz, 1.0 - dz)
  {
    MagnitudeIsLinear(v, dz);
    RoundScaled(Magnitude(v, dz), 1.0 - dz, Abs(v) - dz);
  }

  /**
   * Outside the deadzone the output is linear in the deflection, from zero at its edge to 32767 at
   * full deflection, up to the rounding to a whole number, and has the sign of the deflection.
   */
  lemma AxisIsLinear(value: real, deadzone: real)
    ensures var v := Clamp(value, -1.0, 1.0); var dz := Clamp(deadzone, 0.0, 0.95);
            Abs(v) > dz ==>
              OnLine((if v < 0.0 then -AxisToI16(value, deadzone) else AxisToI16(value, deadzone)) as real,
                     Abs(v) - dz, 1.0 - dz)
  {
    var v, dz := Clamp(value, -1.0, 1.0), Clamp(deadzone, 0.0, 0.95);
    if Abs(v) > dz {
      OutputIsMagnitude(value, deadzone);
      OutputIsLinear(v, dz);
    }
  }

  /** A wider deadzone never gives a stronger output. */
  lemma AxisShrinksWithDeadzone(value: real, small: real, large: real)
    requires small <= large
    ensures var a, b := AxisToI16(value, large), AxisToI16(value, small);
            (if a < 0 then -a else a) <= (if b < 0 then -b else b)
  {
    var v, s, l := Clamp(value, -1.0, 1.0), Clamp(small, 0.0, 0.95), Clamp(large, 0.0, 0.95);
    MagnitudeShrinksWithDeadzone(v, s, l);
    RoundIsMonotone(Magnitude(v, l) * 32767.0, Magnitude(v, s) * 32767.0);
    OutputIsMagnitude(value, small);
    OutputIsMagnitude(value, large);
  }

  // ----- parsing ----------------------------------------------------------

  /** The fields of a JSON object that the parser looks at; None where absent or of another type. */
  datatype Json = Json(
    kind: Option<string>,
    index: Option<nat>,       // a 64-bit unsigned integer
    pressed: Option<bool>,
    stick: Option<int>,       // a 64-bit signed integer
    axis: Option<int>,
    value: Option<real>
  )

  /** The W3C standard layout, faces swapped: A is the bottom button of a browser pad. */
  function BrowserGamepadButton(index: nat): Option<RetroPadButton> {
    match index
    case 0 => Some(A) case 1 => Some(B) case 2 => Some(X) case 3 => Some(Y)
    case 4 => Some(L) case 5 => Some(R) case 6 => Some(L2) case 7 => Some(R2)
    case 8 => Some(Select) case 9 => Some(Start) case 10 => Some(L3) case 11 => Some(R3)
    case 12 => Some(Up) case 13 => Some(Down) case 14 => Some(Left) case 15 => Some(Right)
    case _ => None
  }

  /** Distinct browser buttons drive distinct RetroPad buttons, and every one is reachable. */
  lemma LayoutIsABijection(b: RetroPadButton)
    ensures exists i: nat :: i < 16 && BrowserGamepadButton(i) == Some(b)
    ensures forall i: nat, j: nat ::
              BrowserGamepadButton(i).Some? && BrowserGamepadButton(i) == BrowserGamepadButton(j) ==> i == j
  {
    assert BrowserGamepadButton(Position(b)) == Some(b);
  }

  function Position(b: RetroPadButton): nat {
    match b
    case A => 0 case B => 1 case X => 2 case Y => 3 case L => 4 case R => 5 case L2 => 6 case R2 => 7
    case Select => 8 case Start => 9 case L3 => 10 case R3 => 11
    case Up => 12 case Down => 13 case Left => 14 case Right => 15
  }

  /** `x as i32` on a wider integer. */
  function TruncateI32(x: int): i32 { Signed32(x % 0x1_0000_0000) }

  function ParseGamepadEvent(data: Json, deadzone: real): (e: Option<GamepadEvent>)
    ensures e.Some? ==> InRange(e.value)
  {
    if data.kind == Some("gamepadbutton") then
      if data.index.None? || data.pressed.None? then None else
        match BrowserGamepadButton(data.index.value % 0x1_0000_0000)
        case None => None
        case Some(b) => Some(Button(b, data.pressed.value))
    else if data.kind == Some("gamepadaxis") then
      if data.stick.None? || data.axis.None? || data.value.None? then None else
        AxisRange(data.value.value, deadzone);
        Some(Axis(Clamp01(TruncateI32(data.stick.value)), Clamp01(TruncateI32(data.axis.value)),
                  AxisToI16(data.value.value, deadzone)))
    else None
  }

  /** The message a browser sends for a standard button, and for a stick. */
  function ButtonJson(index: nat, pressed: bool): Json {
    Json(Some("gamepadbutton"), Some(index), Some(pressed), None, None, None)
  }

  function AxisJson(stick: int, axis: int, value: real): Json {
    Json(Some("gamepadaxis"), None, None, Some(stick), Some(axis), Some(value))
  }

  lemma KindsDiffer()
    ensures "gamepadbutton" != "gamepadaxis"
  {
    assert |"gamepadbutton"| == 13 && |"gamepadaxis"| == 11;
  }

  /**
   * What a browser sends comes through as what was meant: each RetroPad button by its standard
   * position, each stick axis by its indices, scaled; and a message is dropped exactly if a field
   * it needs is missing or its button has no counterpart.
   */
  lemma ParseMeansWhatWasSent(b: RetroPadButton, pressed: bool, stick: int, axis: int, value: real,
                              data: Json, deadzone: real)
    requires 0 <= stick <= 1 && 0 <= axis <= 1
    ensures ParseGamepadEvent(ButtonJson(Position(b), pressed), deadzone) == Some(Button(b, pressed))
    ensures var r := ParseGamepadEvent(AxisJson(stick, axis, value), deadzone);
            r.Some? && r.value.Axis? && r.value.stick == stick && r.value.axis == axis
            && r.value.value == AxisToI16(value, deadzone)
    ensures ParseGamepadEvent(data, deadzone).Some? ==> InRange(ParseGamepadEvent(data, deadzone).value)
    ensures ParseGamepadEvent(data, deadzone).None? <==>
              && !(data.kind == Some("gamepadbutton") && data.index.Some? && data.pressed.Some?
                   && data.index.value % 0x1_0000_0000 < 16)
              && !(data.kind == Some("gamepadaxis") && data.stick.Some? && data.axis.Some? && data.value.Some?)
  {
    KindsDiffer();
    assert BrowserGamepadButton(Position(b)) == Some(b);
    assert TruncateI32(stick) == stick && TruncateI32(axis) == axis;
  }

  /** Stick and axis numbers wrap at 32 bits, then are clamped to 0 and 1. */
  lemma StickIndicesAreClamped(stick: i32, axis: i32, k: int, value: real, deadzone: real)
    ensures var r := ParseGamepadEvent(AxisJson(stick + k * 0x1_0000_0000, axis, value), deadzone);
            r.Some? && r.value.Axis?
            && r.value.stick == (if stick < 0 then 0 else if stick > 1 then 1 else stick)
            && r.value.axis == (if axis < 0 then 0 else if axis > 1 then 1 else axis)
  {
    KindsDiffer();
    WrapsAround(stick, k);
    WrapsAround(axis, 0);
    assert axis + 0 * 0x1_0000_0000 == axis;
  }

  lemma WrapsAround(x: i32, k: int)
    ensures TruncateI32(x + k * 0x1_0000_0000) == x
  {
  }
}
