/** The ST7789 command protocol as both drivers speak it.

    The controller tells command bytes from parameter bytes by the level of its
    D/C line when the byte arrives: low for a command, high for a parameter or
    pixel data.  This module gives the event scripts of the driver's protocol
    operations and `Received`, the controller's side of the wire: the sequence
    of command and parameter bytes a trace delivers. */
module St7789 {
  import opened Hardware
  import Bits

  // Command bytes the drivers send (the other constants they declare are never sent).
  const SWRESET: byte := 0x01
  const SLPOUT: byte := 0x11
  const NORON: byte := 0x13
  const INVON: byte := 0x21
  const DISPON: byte := 0x29
  const CASET: byte := 0x2A
  const RASET: byte := 0x2B
  const RAMWR: byte := 0x2C
  const MADCTL: byte := 0x36
  const COLMOD: byte := 0x3A

  /** COLMOD parameter: 16 bits per pixel */
  const COLOR_MODE_16BIT: byte := 0x55

  /** What the controller latches from one byte. */
  datatype Packet = Command(code: byte) | Parameter(value: byte)

  function Latch(bytes: seq<byte>, level: Level): (ps: seq<Packet>)
    ensures |ps| == |bytes|
    ensures forall i :: 0 <= i < |bytes| ==>
      ps[i] == if level == Low then Command(bytes[i]) else Parameter(bytes[i])
  {
    if bytes == [] then []
    else [if level == Low then Command(bytes[0]) else Parameter(bytes[0])] + Latch(bytes[1..], level)
  }

  /** The packets the controller receives from `events`, given the D/C level `level` when they start.
      A write that raised delivers nothing. */
  function Received(events: seq<Event>, dc: nat, level: Level): seq<Packet>
  {
    if events == [] then []
    else match events[0]
      case SetPin(p, l) => Received(events[1..], dc, if p == dc then l else level)
      case SpiWrite(bytes) => Latch(bytes, level) + Received(events[1..], dc, level)
      case SpiError(_) => Received(events[1..], dc, level)
      case Delay(_) => Received(events[1..], dc, level)
  }

  /** The D/C level after `events`. */
  function LevelAfter(events: seq<Event>, dc: nat, level: Level): Level
  {
    if events == [] then level
    else match events[0]
      case SetPin(p, l) => LevelAfter(events[1..], dc, if p == dc then l else level)
      case _ => LevelAfter(events[1..], dc, level)
  }

  /** The levels driven on `pin`, in order. */
  function PinLevels(events: seq<Event>, pin: nat): seq<Level>
  {
    if events == [] then []
    else (match events[0]
      case SetPin(p, l) => if p == pin then [l] else []
      case _ => []) + PinLevels(events[1..], pin)
  }

  lemma {:induction false} ReceivedAppend(a: seq<Event>, b: seq<Event>, dc: nat, level: Level)
    ensures Received(a + b, dc, level) == Received(a, dc, level) + Received(b, dc, LevelAfter(a, dc, level))
    decreases |a|
  {
    if a == [] {
      assert a + b == b;
    } else {
      assert (a + b)[0] == a[0] && (a + b)[1..] == a[1..] + b;
      match a[0]
      case SetPin(p, l) =>
        ReceivedAppend(a[1..], b, dc, if p == dc then l else level);
      case SpiWrite(bytes) =>
        ReceivedAppend(a[1..], b, dc, level);
      case SpiError(_) =>
        ReceivedAppend(a[1..], b, dc, level);
      case Delay(_) =>
        ReceivedAppend(a[1..], b, dc, level);
    }
  }

  lemma {:induction false} LevelAfterAppend(a: seq<Event>, b: seq<Event>, dc: nat, level: Level)
    ensures LevelAfter(a + b, dc, level) == LevelAfter(b, dc, LevelAfter(a, dc, level))
    decreases |a|
  {
    if a == [] {
      assert a + b == b;
    } else {
      assert (a + b)[0] == a[0] && (a + b)[1..] == a[1..] + b;
      match a[0]
      case SetPin(p, l) =>
        LevelAfterAppend(a[1..], b, dc, if p == dc then l else level);
      case _ =>
        LevelAfterAppend(a[1..], b, dc, level);
    }
  }

  lemma {:induction false} PinLevelsAppend(a: seq<Event>, b: seq<Event>, pin: nat)
    ensures PinLevels(a + b, pin) == PinLevels(a, pin) + PinLevels(b, pin)
    decreases |a|
  {
    if a == [] {
      assert a + b == b;
    } else {
      assert (a + b)[0] == a[0] && (a + b)[1..] == a[1..] + b;
      PinLevelsAppend(a[1..], b, pin);
    }
  }

  /** Neither writes to the bus nor moves the D/C line. */
  predicate Quiet(events: seq<Event>, dc: nat)
  {
    forall i :: 0 <= i < |events| ==> !events[i].SpiWrite? && !(events[i].SetPin? && events[i].pin == dc)
  }

  lemma {:induction false} QuietReceivesNothing(events: seq<Event>, dc: nat, level: Level)
    requires Quiet(events, dc)
    ensures Received(events, dc, level) == [] && LevelAfter(events, dc, level) == level
    decreases |events|
  {
    if events != [] {
      assert Quiet(events[1..], dc) by {
        forall i | 0 <= i < |events[1..]| ensures !events[1..][i].SpiWrite? {
          assert events[1..][i] == events[i + 1];
        }
      }
      QuietReceivesNothing(events[1..], dc, level);
    }
  }

  // ---------------------------------------------------------------------------
  // The protocol operations as event scripts

  /** write_cmd (D/C low, then the command byte on its own) and
      write_data (D/C high, then the parameter byte on its own) */
  function PacketEvents(dc: nat, p: Packet): seq<Event>
  {
    match p
    case Command(c) => [SetPin(dc, Low), SpiWrite([c])]
    case Parameter(d) => [SetPin(dc, High), SpiWrite([d])]
  }

  /** The events of sending `packets` one byte at a time, each after setting D/C. */
  function Send(dc: nat, packets: seq<Packet>): seq<Event>
    decreases |packets|
  {
    if packets == [] then []
    else Send(dc, packets[..|packets| - 1]) + PacketEvents(dc, packets[|packets| - 1])
  }

  lemma SendOne(dc: nat, packets: seq<Packet>, p: Packet)
    ensures Send(dc, packets + [p]) == Send(dc, packets) + PacketEvents(dc, p)
  {
    assert (packets + [p])[..|packets|] == packets;
  }

  lemma {:induction false} SendAppend(dc: nat, a: seq<Packet>, b: seq<Packet>)
    ensures Send(dc, a + b) == Send(dc, a) + Send(dc, b)
    decreases |b|
  {
    if b == [] {
      assert a + b == a;
    } else {
      var b' := b[..|b| - 1];
      assert a + b == (a + b') + [b[|b| - 1]];
      SendOne(dc, a + b', b[|b| - 1]);
      SendAppend(dc, a, b');
      SendOne(dc, b', b[|b| - 1]);
      assert b' + [b[|b| - 1]] == b;
    }
  }

  function LastLevel(packets: seq<Packet>, level: Level): Level
  {
    if packets == [] then level
    else if packets[|packets| - 1].Command? then Low else High
  }

  lemma PacketDelivers(dc: nat, p: Packet, level: Level)
    ensures Received(PacketEvents(dc, p), dc, level) == [p]
    ensures LevelAfter(PacketEvents(dc, p), dc, level) == if p.Command? then Low else High
  {
    var e := PacketEvents(dc, p);
    var l := if p.Command? then Low else High;
    assert e[1..][1..] == [];
    assert Received(e[1..][1..], dc, l) == [] && LevelAfter(e[1..][1..], dc, l) == l;
    assert LevelAfter(e[1..], dc, l) == l;
    assert |e[1..][0].bytes| == 1;
  }

  /** Whatever the D/C level was, the controller receives exactly the packets sent. */
  lemma {:induction false} SendDelivers(dc: nat, packets: seq<Packet>, level: Level)
    ensures Received(Send(dc, packets), dc, level) == packets
    ensures LevelAfter(Send(dc, packets), dc, level) == LastLevel(packets, level)
    decreases |packets|
  {
    if packets != [] {
      var init, p := packets[..|packets| - 1], packets[|packets| - 1];
      SendDelivers(dc, init, level);
      ReceivedAppend(Send(dc, init), PacketEvents(dc, p), dc, level);
      LevelAfterAppend(Send(dc, init), PacketEvents(dc, p), dc, level);
      PacketDelivers(dc, p, LastLevel(init, level));
      assert init + [p] == packets;
    }
  }

  /** Every byte goes out in a write of its own, right after the D/C line is set for it. */
  predicate Tagged(events: seq<Event>, dc: nat)
  {
    forall i :: 0 <= i < |events| && events[i].SpiWrite? ==>
      |events[i].bytes| == 1 && 0 < i && events[i - 1].SetPin? && events[i - 1].pin == dc
  }

  lemma {:induction false} SendTagged(dc: nat, packets: seq<Packet>)
    ensures Tagged(Send(dc, packets), dc)
    ensures Writes(Send(dc, packets)) == |packets|
    decreases |packets|
  {
    if packets != [] {
      var init, p := packets[..|packets| - 1], packets[|packets| - 1];
      SendTagged(dc, init);
      var a, b := Send(dc, init), PacketEvents(dc, p);
      assert Send(dc, packets) == a + b;
      WritesAppend(a, b);
      assert b[1..][1..] == [];
      assert Writes(b[1..]) == 1 + Writes(b[1..][1..]);
      forall i | 0 <= i < |a + b| && (a + b)[i].SpiWrite?
        ensures |(a + b)[i].bytes| == 1 && 0 < i && (a + b)[i - 1].SetPin? && (a + b)[i - 1].pin == dc
      {
        if i < |a| {
          assert (a + b)[i] == a[i] && (a + b)[i - 1] == a[i - 1];
        } else {
          assert i == |a| + 1;
        }
      }
    }
  }

  /** Packet by packet: the `k`-th packet is sent as D/C set to Low for a command and High for
      a parameter, followed by one SPI write of its byte alone. */
  lemma {:induction false} SendPairs(dc: nat, packets: seq<Packet>)
    ensures |Send(dc, packets)| == 2 * |packets|
    ensures forall k :: 0 <= k < |packets| ==>
      Send(dc, packets)[2 * k] == SetPin(dc, if packets[k].Command? then Low else High) &&
      Send(dc, packets)[2 * k + 1] ==
        SpiWrite([if packets[k].Command? then packets[k].code else packets[k].value])
    decreases |packets|
  {
    if packets != [] {
      var init, p := packets[..|packets| - 1], packets[|packets| - 1];
      SendPairs(dc, init);
      var a, b := Send(dc, init), PacketEvents(dc, p);
      assert Send(dc, packets) == a + b;
      forall k | 0 <= k < |packets|
        ensures (a + b)[2 * k] == SetPin(dc, if packets[k].Command? then Low else High)
        ensures (a + b)[2 * k + 1] ==
          SpiWrite([if packets[k].Command? then packets[k].code else packets[k].value])
      {
        if k < |init| {
          assert packets[k] == init[k];
        }
      }
    }
  }

  /** write_cmd */
  function CmdEvents(dc: nat, cmd: byte): seq<Event>
  {
    PacketEvents(dc, Command(cmd))
  }

  /** write_data */
  function DataEvents(dc: nat, data: byte): seq<Event>
  {
    PacketEvents(dc, Parameter(data))
  }

  /** reset: RST high, low, high, 10 ms after each */
  function ResetEvents(rst: nat): seq<Event>
  {
    [SetPin(rst, High), Delay(10), SetPin(rst, Low), Delay(10), SetPin(rst, High), Delay(10)]
  }

  datatype Option<T> = None | Some(value: T)

  /** The MADCTL parameter of each orientation; no parameter for any other value. */
  function MadctlByte(orientation: int): (r: Option<byte>)
    ensures r.Some? <==> 0 <= orientation <= 3
  {
    if orientation == 0 then Some(0x00)       // portrait
    else if orientation == 1 then Some(0x60)  // landscape
    else if orientation == 2 then Some(0xC0)  // portrait flipped
    else if orientation == 3 then Some(0xA0)  // landscape flipped
    else None
  }

  /** set_orientation: the MADCTL command, then its parameter if the orientation is known */
  function OrientationPackets(orientation: int): seq<Packet>
  {
    [Command(MADCTL)] +
      match MadctlByte(orientation)
      case Some(b) => [Parameter(b)]
      case None => []
  }

  /** initialize_display: reset pulse, software reset, sleep out, 16-bit colour, orientation 3,
      inversion on, normal mode, display on, with the settle delays between. */
  function InitEvents(dc: nat, rst: nat): seq<Event>
  {
    ResetEvents(rst)
    + CmdEvents(dc, SWRESET) + [Delay(150)]
    + CmdEvents(dc, SLPOUT) + [Delay(150)]
    + CmdEvents(dc, COLMOD) + DataEvents(dc, COLOR_MODE_16BIT)
    + Send(dc, OrientationPackets(3))
    + CmdEvents(dc, INVON)
    + CmdEvents(dc, NORON) + [Delay(50)]
    + CmdEvents(dc, DISPON) + [Delay(150)]
  }

  /** The high byte of a sixteen-bit coordinate, which set_window computes as `x >> 8` */
  function HighByte(x: nat): (r: byte)
    requires x < 0x10000
  {
    x / 256
  }

  /** The low byte of a coordinate, which set_window computes as `x & 0xFF` */
  function LowByte(x: nat): (r: byte)
  {
    x % 256
  }

  predicate Coordinate(x: int)
  {
    0 <= x < 0x10000
  }

  /** set_window: CASET with the column range, RASET with the row range, then RAMWR;
      each bound high byte first. */
  function WindowPackets(xs: nat, ys: nat, xe: nat, ye: nat): seq<Packet>
    requires Coordinate(xs) && Coordinate(ys) && Coordinate(xe) && Coordinate(ye)
  {
    [Command(CASET),
     Parameter(HighByte(xs)), Parameter(LowByte(xs)), Parameter(HighByte(xe)), Parameter(LowByte(xe)),
     Command(RASET),
     Parameter(HighByte(ys)), Parameter(LowByte(ys)), Parameter(HighByte(ye)), Parameter(LowByte(ye)),
     Command(RAMWR)]
  }

  // ---------------------------------------------------------------------------
  // What the controller receives

  /** Sending packets never touches a pin other than D/C. */
  lemma {:induction false} SendLeavesPins(dc: nat, packets: seq<Packet>, pin: nat)
    requires pin != dc
    ensures PinLevels(Send(dc, packets), pin) == []
    decreases |packets|
  {
    if packets != [] {
      var init, p := packets[..|packets| - 1], packets[|packets| - 1];
      SendLeavesPins(dc, init, pin);
      PinLevelsAppend(Send(dc, init), PacketEvents(dc, p), pin);
      var e := PacketEvents(dc, p);
      assert e[1..][1..] == [];
      assert PinLevels(e[1..], pin) == [];
    }
  }

  /** The window is set by CASET with the column bounds and RASET with the row bounds,
      both high byte first, then RAMWR: eleven one-byte writes, each right after D/C is set,
      and the line is left low. */
  lemma WindowDelivers(dc: nat, xs: nat, ys: nat, xe: nat, ye: nat, level: Level)
    requires Coordinate(xs) && Coordinate(ys) && Coordinate(xe) && Coordinate(ye)
    ensures var events := Send(dc, WindowPackets(xs, ys, xe, ye));
      Received(events, dc, level) ==
        [Command(0x2A), Parameter(xs / 256), Parameter(xs % 256), Parameter(xe / 256), Parameter(xe % 256),
         Command(0x2B), Parameter(ys / 256), Parameter(ys % 256), Parameter(ye / 256), Parameter(ye % 256),
         Command(0x2C)] &&
      Writes(events) == 11 && Tagged(events, dc) && LevelAfter(events, dc, level) == Low
  {
    SendDelivers(dc, WindowPackets(xs, ys, xe, ye), level);
    SendTagged(dc, WindowPackets(xs, ys, xe, ye));
  }

  /** set_window's `x >> 8` and `x & 0xFF` are the coordinate's two bytes, and they give it back. */
  lemma CoordinateBytes(x: nat)
    requires Coordinate(x)
    ensures Bits.Shr(x, 8) == HighByte(x) && Bits.And(x, 0xFF) == LowByte(x)
    ensures HighByte(x) * 256 + LowByte(x) == x
  {
    Bits.HighLowBytes(x);
  }

  /** set_orientation sends MADCTL, then one parameter for orientations 0 to 3 and none otherwise. */
  lemma OrientationDelivers(dc: nat, orientation: int, level: Level)
    ensures Received(Send(dc, OrientationPackets(orientation)), dc, level) ==
      if orientation == 0 then [Command(0x36), Parameter(0x00)]
      else if orientation == 1 then [Command(0x36), Parameter(0x60)]
      else if orientation == 2 then [Command(0x36), Parameter(0xC0)]
      else if orientation == 3 then [Command(0x36), Parameter(0xA0)]
      else [Command(0x36)]
  {
    SendDelivers(dc, OrientationPackets(orientation), level);
  }

  // MADCTL bits: MY (row address order), MX (column address order), MV (row/column exchange)
  const MY := 0x80
  const MX := 0x40
  const MV := 0x20

  predicate HasBit(b: nat, bit: nat)
  {
    Bits.And(b, bit) != 0
  }

  /** `b & 2^k` is set exactly when bit `k` of `b` is one. */
  lemma BitTest(b: nat, k: nat)
    ensures HasBit(b, Bits.Pow2(k)) <==> Bits.Shr(b, k) % 2 == 1
  {
    Bits.AndBit(b, k);
    Bits.ShlMul(Bits.Shr(b, k) % 2, k);
  }

  /** The two landscape orientations exchange rows and columns, the portrait ones do not, and
      orientations two apart are half a turn apart: both address orders are reversed. */
  lemma MadctlGeometry(orientation: int)
    requires 0 <= orientation <= 3
    ensures var b := MadctlByte(orientation).value;
      (HasBit(b, MV) <==> orientation % 2 == 1)
    ensures orientation < 2 ==>
      var b, c := MadctlByte(orientation).value, MadctlByte(orientation + 2).value;
      HasBit(b, MY) != HasBit(c, MY) && HasBit(b, MX) != HasBit(c, MX) && HasBit(b, MV) == HasBit(c, MV)
  {
    MadctlBits(0x00);
    MadctlBits(0x60);
    MadctlBits(0xC0);
    MadctlBits(0xA0);
  }

  lemma MadctlBits(b: nat)
    ensures HasBit(b, MV) <==> Bits.Shr(b, 5) % 2 == 1
    ensures HasBit(b, MX) <==> Bits.Shr(b, 6) % 2 == 1
    ensures HasBit(b, MY) <==> Bits.Shr(b, 7) % 2 == 1
  {
    assert Bits.Pow2(5) == MV && Bits.Pow2(6) == MX && Bits.Pow2(7) == MY;
    BitTest(b, 5);
    BitTest(b, 6);
    BitTest(b, 7);
  }

  lemma PinLevelsOne(x: Event, pin: nat)
    ensures PinLevels([x], pin) == if x.SetPin? && x.pin == pin then [x.level] else []
  {
    assert [x][1..] == [];
  }

  /** The levels driven on the reset line by the reset pulse. */
  lemma ResetPulse(rst: nat)
    ensures PinLevels(ResetEvents(rst), rst) == [High, Low, High]
  {
    var e := ResetEvents(rst);
    assert e == [e[0]] + [e[1]] + [e[2]] + [e[3]] + [e[4]] + [e[5]];
    PinLevelsOne(e[0], rst);
    PinLevelsOne(e[1], rst);
    PinLevelsOne(e[2], rst);
    PinLevelsOne(e[3], rst);
    PinLevelsOne(e[4], rst);
    PinLevelsOne(e[5], rst);
    PinLevelsAppend([e[0]] + [e[1]] + [e[2]] + [e[3]] + [e[4]], [e[5]], rst);
    PinLevelsAppend([e[0]] + [e[1]] + [e[2]] + [e[3]], [e[4]], rst);
    PinLevelsAppend([e[0]] + [e[1]] + [e[2]], [e[3]], rst);
    PinLevelsAppend([e[0]] + [e[1]], [e[2]], rst);
    PinLevelsAppend([e[0]], [e[1]], rst);
  }

  /** The reset pulse writes nothing to the bus and leaves D/C alone. */
  lemma ResetQuiet(rst: nat, dc: nat)
    requires rst != dc
    ensures Quiet(ResetEvents(rst), dc) && Writes(ResetEvents(rst)) == 0
  {
    QuietWrites(ResetEvents(rst), dc);
  }

  lemma {:induction false} QuietWrites(events: seq<Event>, dc: nat)
    requires Quiet(events, dc)
    ensures Writes(events) == 0
    decreases |events|
  {
    if events != [] {
      assert Quiet(events[1..], dc) by {
        forall i | 0 <= i < |events[1..]| ensures !events[1..][i].SpiWrite? {
          assert events[1..][i] == events[i + 1];
        }
      }
      QuietWrites(events[1..], dc);
    }
  }

  lemma AppendSend(prefix: seq<Event>, dc: nat, packets: seq<Packet>, level: Level, pin: nat)
    ensures Received(prefix + Send(dc, packets), dc, level) == Received(prefix, dc, level) + packets
    ensures pin != dc ==> PinLevels(prefix + Send(dc, packets), pin) == PinLevels(prefix, pin)
  {
    ReceivedAppend(prefix, Send(dc, packets), dc, level);
    SendDelivers(dc, packets, LevelAfter(prefix, dc, level));
    PinLevelsAppend(prefix, Send(dc, packets), pin);
    if pin != dc {
      SendLeavesPins(dc, packets, pin);
    }
  }

  lemma AppendDelay(prefix: seq<Event>, dc: nat, ms: nat, level: Level, pin: nat)
    ensures Received(prefix + [Delay(ms)], dc, level) == Received(prefix, dc, level)
    ensures PinLevels(prefix + [Delay(ms)], pin) == PinLevels(prefix, pin)
  {
    ReceivedAppend(prefix, [Delay(ms)], dc, level);
    QuietReceivesNothing([Delay(ms)], dc, LevelAfter(prefix, dc, level));
    PinLevelsAppend(prefix, [Delay(ms)], pin);
    PinLevelsOne(Delay(ms), pin);
  }

  lemma AppendPacket(prefix: seq<Event>, dc: nat, p: Packet, level: Level, pin: nat)
    ensures Received(prefix + PacketEvents(dc, p), dc, level) == Received(prefix, dc, level) + [p]
    ensures pin != dc ==> PinLevels(prefix + PacketEvents(dc, p), pin) == PinLevels(prefix, pin)
  {
    var none: seq<Packet> := [];
    SendOne(dc, none, p);
    assert none + [p] == [p];
    assert Send(dc, [p]) == [] + PacketEvents(dc, p) == PacketEvents(dc, p);
    AppendSend(prefix, dc, [p], level, pin);
  }

  /** Initialization drives the reset line high, low, high, and then the controller receives,
      in this order: SWRESET, SLPOUT, COLMOD with 0x55, MADCTL with 0xA0, INVON, NORON, DISPON. */
  lemma InitDelivers(dc: nat, rst: nat, level: Level)
    requires rst != dc
    ensures Received(InitEvents(dc, rst), dc, level) ==
      [Command(0x01), Command(0x11), Command(0x3A), Parameter(0x55), Command(0x36), Parameter(0xA0),
       Command(0x21), Command(0x13), Command(0x29)]
    ensures PinLevels(InitEvents(dc, rst), rst) == [High, Low, High]
    ensures ResetEvents(rst) <= InitEvents(dc, rst) && Writes(ResetEvents(rst)) == 0
  {
    var e := ResetEvents(rst);
    ResetQuiet(rst, dc);
    ResetPulse(rst);
    QuietReceivesNothing(e, dc, level);
    AppendPacket(e, dc, Command(SWRESET), level, rst);
    e := e + CmdEvents(dc, SWRESET);
    AppendDelay(e, dc, 150, level, rst);
    e := e + [Delay(150)];
    AppendPacket(e, dc, Command(SLPOUT), level, rst);
    e := e + CmdEvents(dc, SLPOUT);
    AppendDelay(e, dc, 150, level, rst);
    e := e + [Delay(150)];
    AppendPacket(e, dc, Command(COLMOD), level, rst);
    e := e + CmdEvents(dc, COLMOD);
    AppendPacket(e, dc, Parameter(COLOR_MODE_16BIT), level, rst);
    e := e + DataEvents(dc, COLOR_MODE_16BIT);
    AppendSend(e, dc, OrientationPackets(3), level, rst);
    e := e + Send(dc, OrientationPackets(3));
    AppendPacket(e, dc, Command(INVON), level, rst);
    e := e + CmdEvents(dc, INVON);
    AppendPacket(e, dc, Command(NORON), level, rst);
    e := e + CmdEvents(dc, NORON);
    AppendDelay(e, dc, 50, level, rst);
    e := e + [Delay(50)];
    AppendPacket(e, dc, Command(DISPON), level, rst);
    e := e + CmdEvents(dc, DISPON);
    AppendDelay(e, dc, 150, level, rst);
    e := e + [Delay(150)];
    assert e == InitEvents(dc, rst);
  }

  /** The orientation script, one write at a time. */
  lemma OrientationFlat(dc: nat, orientation: int)
    ensures MadctlByte(orientation).None? ==> Send(dc, OrientationPackets(orientation)) == CmdEvents(dc, MADCTL)
    ensures MadctlByte(orientation).Some? ==>
      Send(dc, OrientationPackets(orientation)) == CmdEvents(dc, MADCTL) + DataEvents(dc, MadctlByte(orientation).value)
  {
    var none: seq<Packet> := [];
    SendOne(dc, none, Command(MADCTL));
    assert none + [Command(MADCTL)] == [Command(MADCTL)];
    assert [] + CmdEvents(dc, MADCTL) == CmdEvents(dc, MADCTL);
    if MadctlByte(orientation).Some? {
      SendOne(dc, [Command(MADCTL)], Parameter(MadctlByte(orientation).value));
    }
  }

  /** One range of set_window after what was sent before: the command, then its four
      parameter bytes, one write each. */
  lemma RangeFlat(dc: nat, pre: seq<Packet>, cmd: byte, a: byte, b: byte, c: byte, d: byte)
    ensures Send(dc, pre + [Command(cmd), Parameter(a), Parameter(b), Parameter(c), Parameter(d)]) ==
      Send(dc, pre) + CmdEvents(dc, cmd) + DataEvents(dc, a) + DataEvents(dc, b) + DataEvents(dc, c) + DataEvents(dc, d)
  {
    var q1 := pre + [Command(cmd)];
    var q2 := q1 + [Parameter(a)];
    var q3 := q2 + [Parameter(b)];
    var q4 := q3 + [Parameter(c)];
    SendOne(dc, pre, Command(cmd));
    SendOne(dc, q1, Parameter(a));
    SendOne(dc, q2, Parameter(b));
    SendOne(dc, q3, Parameter(c));
    SendOne(dc, q4, Parameter(d));
    assert q4 + [Parameter(d)] == pre + [Command(cmd), Parameter(a), Parameter(b), Parameter(c), Parameter(d)];
  }

  /** The window script, one write at a time: the order set_window issues them in. */
  lemma WindowFlat(dc: nat, xs: nat, ys: nat, xe: nat, ye: nat)
    requires Coordinate(xs) && Coordinate(ys) && Coordinate(xe) && Coordinate(ye)
    ensures Send(dc, WindowPackets(xs, ys, xe, ye)) ==
      CmdEvents(dc, CASET)
      + DataEvents(dc, HighByte(xs)) + DataEvents(dc, LowByte(xs))
      + DataEvents(dc, HighByte(xe)) + DataEvents(dc, LowByte(xe))
      + CmdEvents(dc, RASET)
      + DataEvents(dc, HighByte(ys)) + DataEvents(dc, LowByte(ys))
      + DataEvents(dc, HighByte(ye)) + DataEvents(dc, LowByte(ye))
      + CmdEvents(dc, RAMWR)
  {
    var none: seq<Packet> := [];
    var columns := [Command(CASET), Parameter(HighByte(xs)), Parameter(LowByte(xs)), Parameter(HighByte(xe)), Parameter(LowByte(xe))];
    var rows := [Command(RASET), Parameter(HighByte(ys)), Parameter(LowByte(ys)), Parameter(HighByte(ye)), Parameter(LowByte(ye))];
    RangeFlat(dc, none, CASET, HighByte(xs), LowByte(xs), HighByte(xe), LowByte(xe));
    assert none + columns == columns;
    assert [] + CmdEvents(dc, CASET) == CmdEvents(dc, CASET);
    RangeFlat(dc, columns, RASET, HighByte(ys), LowByte(ys), HighByte(ye), LowByte(ye));
    SendOne(dc, columns + rows, Command(RAMWR));
    assert columns + rows + [Command(RAMWR)] == WindowPackets(xs, ys, xe, ye);
  }

  // ---------------------------------------------------------------------------
  // The controller's MADCTL register

  /** What the controller holds of MADCTL: the last value written, and whether the next
      parameter byte goes to MADCTL (it follows the command). */
  datatype Madctl = Madctl(setting: Option<byte>, awaiting: bool)

  /** The MADCTL register after the controller has taken in `packets`: a command selects
      where the following parameter goes, and only the parameter right after MADCTL sets it. */
  function Configure(packets: seq<Packet>, m: Madctl): Madctl
    decreases |packets|
  {
    if packets == [] then m
    else match packets[0]
      case Command(c) => Configure(packets[1..], Madctl(m.setting, c == MADCTL))
      case Parameter(v) => Configure(packets[1..], if m.awaiting then Madctl(Some(v), false) else m)
  }

  lemma {:induction false} ConfigureAppend(a: seq<Packet>, b: seq<Packet>, m: Madctl)
    ensures Configure(a + b, m) == Configure(b, Configure(a, m))
    decreases |a|
  {
    if a != [] {
      assert (a + b)[0] == a[0] && (a + b)[1..] == a[1..] + b;
      var next := match a[0]
        case Command(c) => Madctl(m.setting, c == MADCTL)
        case Parameter(v) => if m.awaiting then Madctl(Some(v), false) else m;
      assert Configure(a, m) == Configure(a[1..], next);
      assert Configure(a + b, m) == Configure(a[1..] + b, next);
      ConfigureAppend(a[1..], b, next);
    } else {
      assert a + b == b;
    }
  }

  /** What a script leaves in MADCTL is what its second part makes of what its first part left. */
  lemma ConfigureThen(a: seq<Event>, b: seq<Event>, dc: nat, level: Level, m: Madctl)
    ensures Configure(Received(a + b, dc, level), m) ==
      Configure(Received(b, dc, LevelAfter(a, dc, level)), Configure(Received(a, dc, level), m))
  {
    ReceivedAppend(a, b, dc, level);
    ConfigureAppend(Received(a, dc, level), Received(b, dc, LevelAfter(a, dc, level)), m);
  }

  /** Packets without a MADCTL command leave a settled register as it is. */
  lemma {:induction false} ConfigureKeeps(packets: seq<Packet>, setting: Option<byte>)
    requires forall i :: 0 <= i < |packets| ==> packets[i] != Command(MADCTL)
    ensures Configure(packets, Madctl(setting, false)) == Madctl(setting, false)
    decreases |packets|
  {
    if packets != [] {
      assert forall i :: 0 <= i < |packets[1..]| ==> packets[1..][i] == packets[i + 1];
      ConfigureKeeps(packets[1..], setting);
    }
  }

  /** set_orientation leaves the controller with the orientation's MADCTL byte, whatever it held
      before; an unknown orientation leaves the old setting and the register waiting for a byte. */
  lemma OrientationConfigures(dc: nat, orientation: int, level: Level, m: Madctl)
    ensures var after := Configure(Received(Send(dc, OrientationPackets(orientation)), dc, level), m);
      match MadctlByte(orientation)
      case Some(b) => after == Madctl(Some(b), false)
      case None => after == Madctl(m.setting, true)
  {
    OrientationDelivers(dc, orientation, level);
  }

  /** After initialization the controller is in orientation 3: MADCTL holds 0xA0. */
  lemma InitConfigures(dc: nat, rst: nat, level: Level, m: Madctl)
    requires rst != dc
    ensures Configure(Received(InitEvents(dc, rst), dc, level), m) == Madctl(Some(0xA0), false)
  {
    InitDelivers(dc, rst, level);
    var ps: seq<Packet> := [Command(0x01), Command(0x11), Command(0x3A), Parameter(0x55), Command(0x36),
      Parameter(0xA0), Command(0x21), Command(0x13), Command(0x29)];
    var settled := Madctl(Some(0xA0), false);
    assert Configure(ps, m) == Configure(ps[3..], Madctl(m.setting, false));
    assert Configure(ps[3..], Madctl(m.setting, false)) == Configure(ps[5..], Madctl(m.setting, true));
    assert Configure(ps[5..], Madctl(m.setting, true)) == Configure(ps[6..], settled);
    ConfigureKeeps(ps[6..], Some(0xA0));
  }
}
