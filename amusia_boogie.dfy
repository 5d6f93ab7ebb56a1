/** amusia_boogie.py: the same driver as module-level functions over global GPIO and SPI
    state, with a fixed configuration, a clear-screen routine and a streaming loop.

    The module's globals become the constants below and a `Board` passed to every
    operation.  A write that raises propagates out of every function here: nothing in
    the script catches it, so it ends the program. */
module AmusiaBoogie {
  import opened Hardware
  import opened St7789
  import opened Rgb565
  import opened Transfer
  import opened Playback

  const RST_PIN: nat := 27
  const DC_PIN: nat := 25
  const BL_PIN: nat := 24
  const WIDTH: nat := 320
  const HEIGHT: nat := 240

  /** write_cmd: D/C low, then the command byte */
  method WriteCmd(hw: Board, cmd: byte) returns (ok: bool)
    modifies hw
    ensures Performs(old(hw.State()), hw.State(), hw.faults, CmdEvents(DC_PIN, cmd), ok)
  {
    ghost var s0 := hw.State();
    hw.Output(DC_PIN, Low);
    ghost var s1 := hw.State();
    ok := hw.WriteBytes([cmd]);
    Then(s0, s1, hw.State(), hw.faults, [SetPin(DC_PIN, Low)], [SpiWrite([cmd])], ok);
    assert [SetPin(DC_PIN, Low)] + [SpiWrite([cmd])] == CmdEvents(DC_PIN, cmd);
  }

  /** write_data: D/C high, then the parameter byte */
  method WriteData(hw: Board, data: byte) returns (ok: bool)
    modifies hw
    ensures Performs(old(hw.State()), hw.State(), hw.faults, DataEvents(DC_PIN, data), ok)
  {
    ghost var s0 := hw.State();
    hw.Output(DC_PIN, High);
    ghost var s1 := hw.State();
    ok := hw.WriteBytes([data]);
    Then(s0, s1, hw.State(), hw.faults, [SetPin(DC_PIN, High)], [SpiWrite([data])], ok);
    assert [SetPin(DC_PIN, High)] + [SpiWrite([data])] == DataEvents(DC_PIN, data);
  }

  /** reset: the hardware reset pulse on RST; no SPI write, so it cannot fail */
  method Reset(hw: Board)
    modifies hw
    ensures Performs(old(hw.State()), hw.State(), hw.faults, ResetEvents(RST_PIN), true)
  {
    ghost var s0 := hw.State();
    ghost var s := s0;
    ghost var done: seq<Event>;
    hw.Output(RST_PIN, High);
    done := [SetPin(RST_PIN, High)];
    s := hw.State();
    hw.Sleep(10);
    Then(s0, s, hw.State(), hw.faults, done, [Delay(10)], true);
    done := done + [Delay(10)];
    s := hw.State();
    hw.Output(RST_PIN, Low);
    Then(s0, s, hw.State(), hw.faults, done, [SetPin(RST_PIN, Low)], true);
    done := done + [SetPin(RST_PIN, Low)];
    s := hw.State();
    hw.Sleep(10);
    Then(s0, s, hw.State(), hw.faults, done, [Delay(10)], true);
    done := done + [Delay(10)];
    s := hw.State();
    hw.Output(RST_PIN, High);
    Then(s0, s, hw.State(), hw.faults, done, [SetPin(RST_PIN, High)], true);
    done := done + [SetPin(RST_PIN, High)];
    s := hw.State();
    hw.Sleep(10);
    Then(s0, s, hw.State(), hw.faults, done, [Delay(10)], true);
    done := done + [Delay(10)];
    assert done == ResetEvents(RST_PIN);
  }

  /** set_orientation: MADCTL, then the parameter of orientations 0 to 3; nothing more for
      any other value */
  method SetOrientation(hw: Board, orientation: int) returns (ok: bool)
    modifies hw
    ensures Performs(old(hw.State()), hw.State(), hw.faults, Send(DC_PIN, OrientationPackets(orientation)), ok)
  {
    ghost var s0 := hw.State();
    OrientationFlat(DC_PIN, orientation);
    ok := WriteCmd(hw, MADCTL);
    if !ok {
      if MadctlByte(orientation).Some? {
        AbortRest(s0, hw.State(), hw.faults, CmdEvents(DC_PIN, MADCTL), DataEvents(DC_PIN, MadctlByte(orientation).value));
      }
      return;
    }
    ghost var s := hw.State();
    match MadctlByte(orientation) {
      case Some(b) =>
        ok := WriteData(hw, b);
        Then(s0, s, hw.State(), hw.faults, CmdEvents(DC_PIN, MADCTL), DataEvents(DC_PIN, b), ok);
      case None =>
    }
  }

  /** init: the steps of InitEvents in order; the first write that raises ends it */
  method Init(hw: Board) returns (ok: bool)
    modifies hw
    ensures Performs(old(hw.State()), hw.State(), hw.faults, InitEvents(DC_PIN, RST_PIN), ok)
  {
    ghost var s0 := hw.State();
    ghost var s: Snapshot;
    ghost var done: seq<Event>;
    Reset(hw);
    done := ResetEvents(RST_PIN);
    s := hw.State();
    ok := WriteCmd(hw, SWRESET);
    Then(s0, s, hw.State(), hw.faults, done, CmdEvents(DC_PIN, SWRESET), ok);
    if !ok {
      ghost var failed := done + CmdEvents(DC_PIN, SWRESET);
      AbortRest(s0, hw.State(), hw.faults, failed, [Delay(150)]);
      failed := failed + [Delay(150)];
      AbortRest(s0, hw.State(), hw.faults, failed, CmdEvents(DC_PIN, SLPOUT));
      failed := failed + CmdEvents(DC_PIN, SLPOUT);
      AbortRest(s0, hw.State(), hw.faults, failed, [Delay(150)]);
      failed := failed + [Delay(150)];
      AbortRest(s0, hw.State(), hw.faults, failed, CmdEvents(DC_PIN, COLMOD));
      failed := failed + CmdEvents(DC_PIN, COLMOD);
      AbortRest(s0, hw.State(), hw.faults, failed, DataEvents(DC_PIN, COLOR_MODE_16BIT));
      failed := failed + DataEvents(DC_PIN, COLOR_MODE_16BIT);
      AbortRest(s0, hw.State(), hw.faults, failed, Send(DC_PIN, OrientationPackets(3)));
      failed := failed + Send(DC_PIN, OrientationPackets(3));
      AbortRest(s0, hw.State(), hw.faults, failed, CmdEvents(DC_PIN, INVON));
      failed := failed + CmdEvents(DC_PIN, INVON);
      AbortRest(s0, hw.State(), hw.faults, failed, CmdEvents(DC_PIN, NORON));
      failed := failed + CmdEvents(DC_PIN, NORON);
      AbortRest(s0, hw.State(), hw.faults, failed, [Delay(50)]);
      failed := failed + [Delay(50)];
      AbortRest(s0, hw.State(), hw.faults, failed, CmdEvents(DC_PIN, DISPON));
      failed := failed + CmdEvents(DC_PIN, DISPON);
      AbortRest(s0, hw.State(), hw.faults, failed, [Delay(150)]);
      failed := failed + [Delay(150)];
      return;
    }
    done := done + CmdEvents(DC_PIN, SWRESET);
    s := hw.State();
    hw.Sleep(150);
    Then(s0, s, hw.State(), hw.faults, done, [Delay(150)], true);
    done := done + [Delay(150)];
    s := hw.State();
    ok := WriteCmd(hw, SLPOUT);
    Then(s0, s, hw.State(), hw.faults, done, CmdEvents(DC_PIN, SLPOUT), ok);
    if !ok {
      ghost var failed := done + CmdEvents(DC_PIN, SLPOUT);
      AbortRest(s0, hw.State(), hw.faults, failed, [Delay(150)]);
      failed := failed + [Delay(150)];
      AbortRest(s0, hw.State(), hw.faults, failed, CmdEvents(DC_PIN, COLMOD));
      failed := failed + CmdEvents(DC_PIN, COLMOD);
      AbortRest(s0, hw.State(), hw.faults, failed, DataEvents(DC_PIN, COLOR_MODE_16BIT));
      failed := failed + DataEvents(DC_PIN, COLOR_MODE_16BIT);
      AbortRest(s0, hw.State(), hw.faults, failed, Send(DC_PIN, OrientationPackets(3)));
      failed := failed + Send(DC_PIN, OrientationPackets(3));
      AbortRest(s0, hw.State(), hw.faults, failed, CmdEvents(DC_PIN, INVON));
      failed := failed + CmdEvents(DC_PIN, INVON);
      AbortRest(s0, hw.State(), hw.faults, failed, CmdEvents(DC_PIN, NORON));
      failed := failed + CmdEvents(DC_PIN, NORON);
      AbortRest(s0, hw.State(), hw.faults, failed, [Delay(50)]);
      failed := failed + [Delay(50)];
      AbortRest(s0, hw.State(), hw.faults, failed, CmdEvents(DC_PIN, DISPON));
      failed := failed + CmdEvents(DC_PIN, DISPON);
      AbortRest(s0, hw.State(), hw.faults, failed, [Delay(150)]);
      failed := failed + [Delay(150)];
      return;
    }
    done := done + CmdEvents(DC_PIN, SLPOUT);
    s := hw.State();
    hw.Sleep(150);
    Then(s0, s, hw.State(), hw.faults, done, [Delay(150)], true);
    done := done + [Delay(150)];
    s := hw.State();
    ok := WriteCmd(hw, COLMOD);
    Then(s0, s, hw.State(), hw.faults, done, CmdEvents(DC_PIN, COLMOD), ok);
    if !ok {
      ghost var failed := done + CmdEvents(DC_PIN, COLMOD);
      AbortRest(s0, hw.State(), hw.faults, failed, DataEvents(DC_PIN, COLOR_MODE_16BIT));
      failed := failed + DataEvents(DC_PIN, COLOR_MODE_16BIT);
      AbortRest(s0, hw.State(), hw.faults, failed, Send(DC_PIN, OrientationPackets(3)));
      failed := failed + Send(DC_PIN, OrientationPackets(3));
      AbortRest(s0, hw.State(), hw.faults, failed, CmdEvents(DC_PIN, INVON));
      failed := failed + CmdEvents(DC_PIN, INVON);
      AbortRest(s0, hw.State(), hw.faults, failed, CmdEvents(DC_PIN, NORON));
      failed := failed + CmdEvents(DC_PIN, NORON);
      AbortRest(s0, hw.State(), hw.faults, failed, [Delay(50)]);
      failed := failed + [Delay(50)];
      AbortRest(s0, hw.State(), hw.faults, failed, CmdEvents(DC_PIN, DISPON));
      failed := failed + CmdEvents(DC_PIN, DISPON);
      AbortRest(s0, hw.State(), hw.faults, failed, [Delay(150)]);
      failed := failed + [Delay(150)];
      return;
    }
    done := done + CmdEvents(DC_PIN, COLMOD);
    s := hw.State();
    ok := WriteData(hw, COLOR_MODE_16BIT);
    Then(s0, s, hw.State(), hw.faults, done, DataEvents(DC_PIN, COLOR_MODE_16BIT), ok);
    if !ok {
      ghost var failed := done + DataEvents(DC_PIN, COLOR_MODE_16BIT);
      AbortRest(s0, hw.State(), hw.faults, failed, Send(DC_PIN, OrientationPackets(3)));
      failed := failed + Send(DC_PIN, OrientationPackets(3));
      AbortRest(s0, hw.State(), hw.faults, failed, CmdEvents(DC_PIN, INVON));
      failed := failed + CmdEvents(DC_PIN, INVON);
      AbortRest(s0, hw.State(), hw.faults, failed, CmdEvents(DC_PIN, NORON));
      failed := failed + CmdEvents(DC_PIN, NORON);
      AbortRest(s0, hw.State(), hw.faults, failed, [Delay(50)]);
      failed := failed + [Delay(50)];
      AbortRest(s0, hw.State(), hw.faults, failed, CmdEvents(DC_PIN, DISPON));
      failed := failed + CmdEvents(DC_PIN, DISPON);
      AbortRest(s0, hw.State(), hw.faults, failed, [Delay(150)]);
      failed := failed + [Delay(150)];
      return;
    }
    done := done + DataEvents(DC_PIN, COLOR_MODE_16BIT);
    s := hw.State();
    ok := SetOrientation(hw, 3);
    Then(s0, s, hw.State(), hw.faults, done, Send(DC_PIN, OrientationPackets(3)), ok);
    if !ok {
      ghost var failed := done + Send(DC_PIN, OrientationPackets(3));
      AbortRest(s0, hw.State(), hw.faults, failed, CmdEvents(DC_PIN, INVON));
      failed := failed + CmdEvents(DC_PIN, INVON);
      AbortRest(s0, hw.State(), hw.faults, failed, CmdEvents(DC_PIN, NORON));
      failed := failed + CmdEvents(DC_PIN, NORON);
      AbortRest(s0, hw.State(), hw.faults, failed, [Delay(50)]);
      failed := failed + [Delay(50)];
      AbortRest(s0, hw.State(), hw.faults, failed, CmdEvents(DC_PIN, DISPON));
      failed := failed + CmdEvents(DC_PIN, DISPON);
      AbortRest(s0, hw.State(), hw.faults, failed, [Delay(150)]);
      failed := failed + [Delay(150)];
      return;
    }
    done := done + Send(DC_PIN, OrientationPackets(3));
    s := hw.State();
    ok := WriteCmd(hw, INVON);
    Then(s0, s, hw.State(), hw.faults, done, CmdEvents(DC_PIN, INVON), ok);
    if !ok {
      ghost var failed := done + CmdEvents(DC_PIN, INVON);
      AbortRest(s0, hw.State(), hw.faults, failed, CmdEvents(DC_PIN, NORON));
      failed := failed + CmdEvents(DC_PIN, NORON);
      AbortRest(s0, hw.State(), hw.faults, failed, [Delay(50)]);
      failed := failed + [Delay(50)];
      AbortRest(s0, hw.State(), hw.faults, failed, CmdEvents(DC_PIN, DISPON));
      failed := failed + CmdEvents(DC_PIN, DISPON);
      AbortRest(s0, hw.State(), hw.faults, failed, [Delay(150)]);
      failed := failed + [Delay(150)];
      return;
    }
    done := done + CmdEvents(DC_PIN, INVON);
    s := hw.State();
    ok := WriteCmd(hw, NORON);
    Then(s0, s, hw.State(), hw.faults, done, CmdEvents(DC_PIN, NORON), ok);
    if !ok {
      ghost var failed := done + CmdEvents(DC_PIN, NORON);
      AbortRest(s0, hw.State(), hw.faults, failed, [Delay(50)]);
      failed := failed + [Delay(50)];
      AbortRest(s0, hw.State(), hw.faults, failed, CmdEvents(DC_PIN, DISPON));
      failed := failed + CmdEvents(DC_PIN, DISPON);
      AbortRest(s0, hw.State(), hw.faults, failed, [Delay(150)]);
      failed := failed + [Delay(150)];
      return;
    }
    done := done + CmdEvents(DC_PIN, NORON);
    s := hw.State();
    hw.Sleep(50);
    Then(s0, s, hw.State(), hw.faults, done, [Delay(50)], true);
    done := done + [Delay(50)];
    s := hw.State();
    ok := WriteCmd(hw, DISPON);
    Then(s0, s, hw.State(), hw.faults, done, CmdEvents(DC_PIN, DISPON), ok);
    if !ok {
      ghost var failed := done + CmdEvents(DC_PIN, DISPON);
      AbortRest(s0, hw.State(), hw.faults, failed, [Delay(150)]);
      failed := failed + [Delay(150)];
      return;
    }
    done := done + CmdEvents(DC_PIN, DISPON);
    s := hw.State();
    hw.Sleep(150);
    Then(s0, s, hw.State(), hw.faults, done, [Delay(150)], true);
    done := done + [Delay(150)];
    ok := true;
  }

  /** set_window: CASET and the column bounds, RASET and the row bounds, RAMWR */
  method SetWindow(hw: Board, xStart: nat, yStart: nat, xEnd: nat, yEnd: nat) returns (ok: bool)
    requires Coordinate(xStart) && Coordinate(yStart) && Coordinate(xEnd) && Coordinate(yEnd)
    modifies hw
    ensures Performs(old(hw.State()), hw.State(), hw.faults,
      Send(DC_PIN, WindowPackets(xStart, yStart, xEnd, yEnd)), ok)
  {
    ghost var s0 := hw.State();
    ghost var s: Snapshot;
    ghost var done: seq<Event>;
    WindowFlat(DC_PIN, xStart, yStart, xEnd, yEnd);
    ok := WriteCmd(hw, CASET);
    if !ok {
      ghost var failed := CmdEvents(DC_PIN, CASET);
      AbortRest(s0, hw.State(), hw.faults, failed, DataEvents(DC_PIN, HighByte(xStart)));
      failed := failed + DataEvents(DC_PIN, HighByte(xStart));
      AbortRest(s0, hw.State(), hw.faults, failed, DataEvents(DC_PIN, LowByte(xStart)));
      failed := failed + DataEvents(DC_PIN, LowByte(xStart));
      AbortRest(s0, hw.State(), hw.faults, failed, DataEvents(DC_PIN, HighByte(xEnd)));
      failed := failed + DataEvents(DC_PIN, HighByte(xEnd));
      AbortRest(s0, hw.State(), hw.faults, failed, DataEvents(DC_PIN, LowByte(xEnd)));
      failed := failed + DataEvents(DC_PIN, LowByte(xEnd));
      AbortRest(s0, hw.State(), hw.faults, failed, CmdEvents(DC_PIN, RASET));
      failed := failed + CmdEvents(DC_PIN, RASET);
      AbortRest(s0, hw.State(), hw.faults, failed, DataEvents(DC_PIN, HighByte(yStart)));
      failed := failed + DataEvents(DC_PIN, HighByte(yStart));
      AbortRest(s0, hw.State(), hw.faults, failed, DataEvents(DC_PIN, LowByte(yStart)));
      failed := failed + DataEvents(DC_PIN, LowByte(yStart));
      AbortRest(s0, hw.State(), hw.faults, failed, DataEvents(DC_PIN, HighByte(yEnd)));
      failed := failed + DataEvents(DC_PIN, HighByte(yEnd));
      AbortRest(s0, hw.State(), hw.faults, failed, DataEvents(DC_PIN, LowByte(yEnd)));
      failed := failed + DataEvents(DC_PIN, LowByte(yEnd));
      AbortRest(s0, hw.State(), hw.faults, failed, CmdEvents(DC_PIN, RAMWR));
      failed := failed + CmdEvents(DC_PIN, RAMWR);
      return;
    }
    done := CmdEvents(DC_PIN, CASET);
    s := hw.State();
    ok := WriteData(hw, HighByte(xStart));
    Then(s0, s, hw.State(), hw.faults, done, DataEvents(DC_PIN, HighByte(xStart)), ok);
    if !ok {
      ghost var failed := done + DataEvents(DC_PIN, HighByte(xStart));
      AbortRest(s0, hw.State(), hw.faults, failed, DataEvents(DC_PIN, LowByte(xStart)));
      failed := failed + DataEvents(DC_PIN, LowByte(xStart));
      AbortRest(s0, hw.State(), hw.faults, failed, DataEvents(DC_PIN, HighByte(xEnd)));
      failed := failed + DataEvents(DC_PIN, HighByte(xEnd));
      AbortRest(s0, hw.State(), hw.faults, failed, DataEvents(DC_PIN, LowByte(xEnd)));
      failed := failed + DataEvents(DC_PIN, LowByte(xEnd));
      AbortRest(s0, hw.State(), hw.faults, failed, CmdEvents(DC_PIN, RASET));
      failed := failed + CmdEvents(DC_PIN, RASET);
      AbortRest(s0, hw.State(), hw.faults, failed, DataEvents(DC_PIN, HighByte(yStart)));
      failed := failed + DataEvents(DC_PIN, HighByte(yStart));
      AbortRest(s0, hw.State(), hw.faults, failed, DataEvents(DC_PIN, LowByte(yStart)));
      failed := failed + DataEvents(DC_PIN, LowByte(yStart));
      AbortRest(s0, hw.State(), hw.faults, failed, DataEvents(DC_PIN, HighByte(yEnd)));
      failed := failed + DataEvents(DC_PIN, HighByte(yEnd));
      AbortRest(s0, hw.State(), hw.faults, failed, DataEvents(DC_PIN, LowByte(yEnd)));
      failed := failed + DataEvents(DC_PIN, LowByte(yEnd));
      AbortRest(s0, hw.State(), hw.faults, failed, CmdEvents(DC_PIN, RAMWR));
      failed := failed + CmdEvents(DC_PIN, RAMWR);
      return;
    }
    done := done + DataEvents(DC_PIN, HighByte(xStart));
    s := hw.State();
    ok := WriteData(hw, LowByte(xStart));
    Then(s0, s, hw.State(), hw.faults, done, DataEvents(DC_PIN, LowByte(xStart)), ok);
    if !ok {
      ghost var failed := done + DataEvents(DC_PIN, LowByte(xStart));
      AbortRest(s0, hw.State(), hw.faults, failed, DataEvents(DC_PIN, HighByte(xEnd)));
      failed := failed + DataEvents(DC_PIN, HighByte(xEnd));
      AbortRest(s0, hw.State(), hw.faults, failed, DataEvents(DC_PIN, LowByte(xEnd)));
      failed := failed + DataEvents(DC_PIN, LowByte(xEnd));
      AbortRest(s0, hw.State(), hw.faults, failed, CmdEvents(DC_PIN, RASET));
      failed := failed + CmdEvents(DC_PIN, RASET);
      AbortRest(s0, hw.State(), hw.faults, failed, DataEvents(DC_PIN, HighByte(yStart)));
      failed := failed + DataEvents(DC_PIN, HighByte(yStart));
      AbortRest(s0, hw.State(), hw.faults, failed, DataEvents(DC_PIN, LowByte(yStart)));
      failed := failed + DataEvents(DC_PIN, LowByte(yStart));
      AbortRest(s0, hw.State(), hw.faults, failed, DataEvents(DC_PIN, HighByte(yEnd)));
      failed := failed + DataEvents(DC_PIN, HighByte(yEnd));
      AbortRest(s0, hw.State(), hw.faults, failed, DataEvents(DC_PIN, LowByte(yEnd)));
      failed := failed + DataEvents(DC_PIN, LowByte(yEnd));
      AbortRest(s0, hw.State(), hw.faults, failed, CmdEvents(DC_PIN, RAMWR));
      failed := failed + CmdEvents(DC_PIN, RAMWR);
      return;
    }
    done := done + DataEvents(DC_PIN, LowByte(xStart));
    s := hw.State();
    ok := WriteData(hw, HighByte(xEnd));
    Then(s0, s, hw.State(), hw.faults, done, DataEvents(DC_PIN, HighByte(xEnd)), ok);
    if !ok {
      ghost var failed := done + DataEvents(DC_PIN, HighByte(xEnd));
      AbortRest(s0, hw.State(), hw.faults, failed, DataEvents(DC_PIN, LowByte(xEnd)));
      failed := failed + DataEvents(DC_PIN, LowByte(xEnd));
      AbortRest(s0, hw.State(), hw.faults, failed, CmdEvents(DC_PIN, RASET));
      failed := failed + CmdEvents(DC_PIN, RASET);
      AbortRest(s0, hw.State(), hw.faults, failed, DataEvents(DC_PIN, HighByte(yStart)));
      failed := failed + DataEvents(DC_PIN, HighByte(yStart));
      AbortRest(s0, hw.State(), hw.faults, failed, DataEvents(DC_PIN, LowByte(yStart)));
      failed := failed + DataEvents(DC_PIN, LowByte(yStart));
      AbortRest(s0, hw.State(), hw.faults, failed, DataEvents(DC_PIN, HighByte(yEnd)));
      failed := failed + DataEvents(DC_PIN, HighByte(yEnd));
      AbortRest(s0, hw.State(), hw.faults, failed, DataEvents(DC_PIN, LowByte(yEnd)));
      failed := failed + DataEvents(DC_PIN, LowByte(yEnd));
      AbortRest(s0, hw.State(), hw.faults, failed, CmdEvents(DC_PIN, RAMWR));
      failed := failed + CmdEvents(DC_PIN, RAMWR);
      return;
    }
    done := done + DataEvents(DC_PIN, HighByte(xEnd));
    s := hw.State();
    ok := WriteData(hw, LowByte(xEnd));
    Then(s0, s, hw.State(), hw.faults, done, DataEvents(DC_PIN, LowByte(xEnd)), ok);
    if !ok {
      ghost var failed := done + DataEvents(DC_PIN, LowByte(xEnd));
      AbortRest(s0, hw.State(), hw.faults, failed, CmdEvents(DC_PIN, RASET));
      failed := failed + CmdEvents(DC_PIN, RASET);
      AbortRest(s0, hw.State(), hw.faults, failed, DataEvents(DC_PIN, HighByte(yStart)));
      failed := failed + DataEvents(DC_PIN, HighByte(yStart));
      AbortRest(s0, hw.State(), hw.faults, failed, DataEvents(DC_PIN, LowByte(yStart)));
      failed := failed + DataEvents(DC_PIN, LowByte(yStart));
      AbortRest(s0, hw.State(), hw.faults, failed, DataEvents(DC_PIN, HighByte(yEnd)));
      failed := failed + DataEvents(DC_PIN, HighByte(yEnd));
      AbortRest(s0, hw.State(), hw.faults, failed, DataEvents(DC_PIN, LowByte(yEnd)));
      failed := failed + DataEvents(DC_PIN, LowByte(yEnd));
      AbortRest(s0, hw.State(), hw.faults, failed, CmdEvents(DC_PIN, RAMWR));
      failed := failed + CmdEvents(DC_PIN, RAMWR);
      return;
    }
    done := done + DataEvents(DC_PIN, LowByte(xEnd));
    s := hw.State();
    ok := WriteCmd(hw, RASET);
    Then(s0, s, hw.State(), hw.faults, done, CmdEvents(DC_PIN, RASET), ok);
    if !ok {
      ghost var failed := done + CmdEvents(DC_PIN, RASET);
      AbortRest(s0, hw.State(), hw.faults, failed, DataEvents(DC_PIN, HighByte(yStart)));
      failed := failed + DataEvents(DC_PIN, HighByte(yStart));
      AbortRest(s0, hw.State(), hw.faults, failed, DataEvents(DC_PIN, LowByte(yStart)));
      failed := failed + DataEvents(DC_PIN, LowByte(yStart));
      AbortRest(s0, hw.State(), hw.faults, failed, DataEvents(DC_PIN, HighByte(yEnd)));
      failed := failed + DataEvents(DC_PIN, HighByte(yEnd));
      AbortRest(s0, hw.State(), hw.faults, failed, DataEvents(DC_PIN, LowByte(yEnd)));
      failed := failed + DataEvents(DC_PIN, LowByte(yEnd));
      AbortRest(s0, hw.State(), hw.faults, failed, CmdEvents(DC_PIN, RAMWR));
      failed := failed + CmdEvents(DC_PIN, RAMWR);
      return;
    }
    done := done + CmdEvents(DC_PIN, RASET);
    s := hw.State();
    ok := WriteData(hw, HighByte(yStart));
    Then(s0, s, hw.State(), hw.faults, done, DataEvents(DC_PIN, HighByte(yStart)), ok);
    if !ok {
      ghost var failed := done + DataEvents(DC_PIN, HighByte(yStart));
      AbortRest(s0, hw.State(), hw.faults, failed, DataEvents(DC_PIN, LowByte(yStart)));
      failed := failed + DataEvents(DC_PIN, LowByte(yStart));
      AbortRest(s0, hw.State(), hw.faults, failed, DataEvents(DC_PIN, HighByte(yEnd)));
      failed := failed + DataEvents(DC_PIN, HighByte(yEnd));
      AbortRest(s0, hw.State(), hw.faults, failed, DataEvents(DC_PIN, LowByte(yEnd)));
      failed := failed + DataEvents(DC_PIN, LowByte(yEnd));
      AbortRest(s0, hw.State(), hw.faults, failed, CmdEvents(DC_PIN, RAMWR));
      failed := failed + CmdEvents(DC_PIN, RAMWR);
      return;
    }
    done := done + DataEvents(DC_PIN, HighByte(yStart));
    s := hw.State();
    ok := WriteData(hw, LowByte(yStart));
    Then(s0, s, hw.State(), hw.faults, done, DataEvents(DC_PIN, LowByte(yStart)), ok);
    if !ok {
      ghost var failed := done + DataEvents(DC_PIN, LowByte(yStart));
      AbortRest(s0, hw.State(), hw.faults, failed, DataEvents(DC_PIN, HighByte(yEnd)));
      failed := failed + DataEvents(DC_PIN, HighByte(yEnd));
      AbortRest(s0, hw.State(), hw.faults, failed, DataEvents(DC_PIN, LowByte(yEnd)));
      failed := failed + DataEvents(DC_PIN, LowByte(yEnd));
      AbortRest(s0, hw.State(), hw.faults, failed, CmdEvents(DC_PIN, RAMWR));
      failed := failed + CmdEvents(DC_PIN, RAMWR);
      return;
    }
    done := done + DataEvents(DC_PIN, LowByte(yStart));
    s := hw.State();
    ok := WriteData(hw, HighByte(yEnd));
    Then(s0, s, hw.State(), hw.faults, done, DataEvents(DC_PIN, HighByte(yEnd)), ok);
    if !ok {
      ghost var failed := done + DataEvents(DC_PIN, HighByte(yEnd));
      AbortRest(s0, hw.State(), hw.faults, failed, DataEvents(DC_PIN, LowByte(yEnd)));
      failed := failed + DataEvents(DC_PIN, LowByte(yEnd));
      AbortRest(s0, hw.State(), hw.faults, failed, CmdEvents(DC_PIN, RAMWR));
      failed := failed + CmdEvents(DC_PIN, RAMWR);
      return;
    }
    done := done + DataEvents(DC_PIN, HighByte(yEnd));
    s := hw.State();
    ok := WriteData(hw, LowByte(yEnd));
    Then(s0, s, hw.State(), hw.faults, done, DataEvents(DC_PIN, LowByte(yEnd)), ok);
    if !ok {
      ghost var failed := done + DataEvents(DC_PIN, LowByte(yEnd));
      AbortRest(s0, hw.State(), hw.faults, failed, CmdEvents(DC_PIN, RAMWR));
      failed := failed + CmdEvents(DC_PIN, RAMWR);
      return;
    }
    done := done + DataEvents(DC_PIN, LowByte(yEnd));
    s := hw.State();
    ok := WriteCmd(hw, RAMWR);
    Then(s0, s, hw.State(), hw.faults, done, CmdEvents(DC_PIN, RAMWR), ok);
    if !ok { return; }
    done := done + CmdEvents(DC_PIN, RAMWR);
  }

  // ---------------------------------------------------------------------------
  // clear_display

  /** `(color >> 8) & 0xFF` on a Python integer */
  function ColorHigh(color: int): byte
  {
    (color / 256) % 256
  }

  /** `color & 0xFF` on a Python integer */
  function ColorLow(color: int): byte
  {
    color % 256
  }

  /** For a colour that is not negative, the two bytes are the source's bitwise expressions.
      (For a negative colour Python's `>>` rounds down and `& 0xFF` takes the remainder
      modulo 256, which is what Dafny's `/` and `%` compute.) */
  lemma ColorBits(color: nat)
    ensures ColorHigh(color) == Bits.And(Bits.Shr(color, 8), 0xFF)
    ensures ColorLow(color) == Bits.And(color, 0xFF)
  {
    assert Bits.Pow2(8) == 256;
    Bits.ShrDiv(color, 8, 256);
    Bits.ShrDiv(color / 256, 8, 256);
  }

  /** The two bytes are the colour's low sixteen bits, high byte first; a colour in 0..0xFFFF
      comes back whole. */
  lemma ColorBytes(color: int)
    ensures ColorHigh(color) * 256 + ColorLow(color) == color % 65536
    ensures 0 <= color < 65536 ==> ColorHigh(color) * 256 + ColorLow(color) == color
  {
    var q := color / 256;
    assert color == 256 * q + ColorLow(color);
    assert q == 256 * (q / 256) + ColorHigh(color);
    Bits.DivModUnique(color, 65536, q / 256, ColorHigh(color) * 256 + ColorLow(color));
  }

  /** Clearing with the RGB565 value of a pixel sends that pixel's own two frame bytes, once
      per pixel of the panel. */
  lemma ClearMatchesFrame(p: Triple)
    ensures var v := Pack(p.c0, p.c1, p.c2);
      [ColorHigh(v), ColorLow(v)] == PixelBytes(p)
  {
    var v := Pack(p.c0, p.c1, p.c2);
    PackFields(p.c0, p.c1, p.c2);
    Bits.DivModUnique(v / 256, 256, 0, v / 256);
  }

  /** clear_display: the window over the whole panel, D/C high, then the colour in blocks */
  method ClearDisplay(hw: Board, color: int) returns (ok: bool)
    modifies hw
    ensures Performs(old(hw.State()), hw.State(), hw.faults,
      ClearEvents(DC_PIN, WIDTH, HEIGHT, ColorHigh(color), ColorLow(color)), ok)
  {
    ghost var s0 := hw.State();
    ghost var window := PanelWindow(DC_PIN, WIDTH, HEIGHT);
    ok := SetWindow(hw, 0, 0, WIDTH - 1, HEIGHT - 1);
    var highByte := (color / 256) % 256;
    var lowByte := color % 256;
    if !ok {
      AbortRest(s0, hw.State(), hw.faults, window, [SetPin(DC_PIN, High)]);
      AbortRest(s0, hw.State(), hw.faults, window + [SetPin(DC_PIN, High)], FillEvents(highByte, lowByte, WIDTH * HEIGHT));
      return;
    }
    ghost var s := hw.State();
    hw.Output(DC_PIN, High);
    Then(s0, s, hw.State(), hw.faults, window, [SetPin(DC_PIN, High)], true);
    s := hw.State();
    ok := SendFill(hw, highByte, lowByte, WIDTH * HEIGHT);
    Then(s0, s, hw.State(), hw.faults, window + [SetPin(DC_PIN, High)], FillEvents(highByte, lowByte, WIDTH * HEIGHT), ok);
  }

  /** On this panel clearing is 150 writes of 1024 bytes after the window, 153600 bytes of
      alternating high and low colour bytes in all, and no shorter remainder write. */
  lemma ClearPanel(color: int)
    ensures var fill := FillEvents(ColorHigh(color), ColorLow(color), WIDTH * HEIGHT);
      |fill| == 150 && Writes(fill) == 150 &&
      (forall i :: 0 <= i < 150 ==> fill[i] == SpiWrite(Fill(ColorHigh(color), ColorLow(color), 512))) &&
      |Payload(fill)| == 2 * WIDTH * HEIGHT
  {
    var hi, lo := ColorHigh(color), ColorLow(color);
    FillPanel(hi, lo, WIDTH * HEIGHT);
    BlocksShape(Fill(hi, lo, 512), 150);
    OnlyWrites(FillEvents(hi, lo, WIDTH * HEIGHT));
    FillDelivers(hi, lo, WIDTH * HEIGHT);
    FillLayout(hi, lo, WIDTH * HEIGHT);
  }

  // ---------------------------------------------------------------------------
  // display_frame

  /** display_frame's script for a frame at panel size */
  function FrameScript(frame: Frame): seq<Event>
  {
    FrameEvents(DC_PIN, WIDTH, HEIGHT, Encode(FrameToRgb(frame)))
  }

  /** display_frame: convert to RGB565, set the window over the whole panel, raise D/C and send
      the buffer in chunks of 4096 bytes; a write that raises propagates. */
  method DisplayFrame(hw: Board, frame: Frame) returns (ok: bool)
    requires |frame| == WIDTH * HEIGHT
    modifies hw
    ensures Performs(old(hw.State()), hw.State(), hw.faults, FrameScript(frame), ok)
  {
    ghost var s0 := hw.State();
    var buffer := ConvertFrame(frame);
    ghost var window := PanelWindow(DC_PIN, WIDTH, HEIGHT);
    ok := SetWindow(hw, 0, 0, WIDTH - 1, HEIGHT - 1);
    if !ok {
      AbortRest(s0, hw.State(), hw.faults, window, [SetPin(DC_PIN, High)]);
      AbortRest(s0, hw.State(), hw.faults, window + [SetPin(DC_PIN, High)], ChunkEvents(buffer, CHUNK_SIZE));
      return;
    }
    ghost var s := hw.State();
    hw.Output(DC_PIN, High);
    Then(s0, s, hw.State(), hw.faults, window, [SetPin(DC_PIN, High)], true);
    s := hw.State();
    ok := SendChunks(hw, buffer, CHUNK_SIZE);
    Then(s0, s, hw.State(), hw.faults, window + [SetPin(DC_PIN, High)], ChunkEvents(buffer, CHUNK_SIZE), ok);
  }

  // ---------------------------------------------------------------------------
  // stream_video and the main program

  /** The scripts of the frames shown, one after another */
  function ShowEvents(shown: seq<Frame>): seq<Event>
  {
    if shown == [] then [] else FrameScript(shown[0]) + ShowEvents(shown[1..])
  }

  predicate PanelSized(frames: seq<Frame>)
  {
    forall i :: 0 <= i < |frames| ==> |frames[i]| == WIDTH * HEIGHT
  }

  /** Showing `a` and then `b` is showing `a + b`. */
  lemma {:induction false} ShowEventsAppend(a: seq<Frame>, b: seq<Frame>)
    ensures ShowEvents(a + b) == ShowEvents(a) + ShowEvents(b)
    decreases |a|
  {
    if a == [] {
      assert a + b == b;
    } else {
      assert (a + b)[0] == a[0] && (a + b)[1..] == a[1..] + b;
      ShowEventsAppend(a[1..], b);
      SeqAssoc(FrameScript(a[0]), ShowEvents(a[1..]), ShowEvents(b));
    }
  }

  lemma ShowOne(frame: Frame)
    ensures ShowEvents([frame]) == FrameScript(frame)
  {
    assert [frame][1..] == [];
    assert FrameScript(frame) + [] == FrameScript(frame);
  }

  /** Showing one more frame after the frames shown so far */
  lemma ShowNext(s0: Snapshot, s1: Snapshot, s2: Snapshot, faults: set<nat>, shown: seq<Frame>, frame: Frame, ok: bool)
    requires Performs(s0, s1, faults, ShowEvents(shown), true)
    requires Performs(s1, s2, faults, FrameScript(frame), ok)
    ensures Performs(s0, s2, faults, ShowEvents(shown + [frame]), ok)
  {
    Then(s0, s1, s2, faults, ShowEvents(shown), FrameScript(frame), ok);
    ShowOne(frame);
    ShowEventsAppend(shown, [frame]);
  }

  /** A frame that failed to show ends the stream, whatever was still to be shown. */
  lemma ShowFailed(s0: Snapshot, s1: Snapshot, faults: set<nat>, shown: seq<Frame>, rest: seq<Frame>)
    requires Performs(s0, s1, faults, ShowEvents(shown), false)
    ensures Performs(s0, s1, faults, ShowEvents(shown + rest), false)
  {
    AbortRest(s0, s1, faults, ShowEvents(shown), ShowEvents(rest));
    ShowEventsAppend(shown, rest);
  }

  /** The display step of stream_video's loop: display_frame on the frame just read, one more
      frame shown */
  method ShowFrame(hw: Board, frame: Frame, ghost s0: Snapshot, ghost shown: seq<Frame>) returns (ok: bool)
    requires |frame| == WIDTH * HEIGHT
    requires Performs(s0, hw.State(), hw.faults, ShowEvents(shown), true)
    modifies hw
    ensures Performs(s0, hw.State(), hw.faults, ShowEvents(shown + [frame]), ok)
  {
    ghost var s := hw.State();
    ok := DisplayFrame(hw, frame);
    ShowNext(s0, s, hw.State(), hw.faults, shown, frame, ok);
  }

  /** stream_video, for a budget of passes of its loop: a capture that did not open shows
      nothing; otherwise each pass reads a frame, rewinds or stops on a failed read, shows the
      frame and stops on the quit key.  The frames shown are those of `Play`; a write that
      raises ends the stream with the error. */
  method StreamVideo(hw: Board, src: Source, isOpen: bool, frames: seq<Frame>, keys: seq<int>, budget: nat)
    returns (ok: bool)
    requires PanelSized(frames)
    modifies hw
    ensures Performs(old(hw.State()), hw.State(), hw.faults,
      if isOpen then ShowEvents(Play(src, Capture(frames, 0), keys, budget).0) else [], ok)
  {
    ghost var s0 := hw.State();
    Nothing(s0, hw.faults);
    ok := true;
    if !isOpen {
      return;
    }
    ghost var all := Play(src, Capture(frames, 0), keys, budget).0;
    ghost var shown: seq<Frame> := [];
    assert all == shown + all;
    var cap := Capture(frames, 0);
    var pending := keys;
    var passes := budget;
    while passes > 0
      invariant cap.frames == frames
      invariant all == shown + Play(src, cap, pending, passes).0
      invariant Performs(s0, hw.State(), hw.faults, ShowEvents(shown), true)
      invariant ok
    {
      var read := ReadFrame(cap);
      if read.0.Failed? {
        if Rewinds(src) {
          RewindPass(all, shown, src, cap, pending, passes);
          cap := Capture(cap.frames, 0);
          passes := passes - 1;
        } else {
          StopPass(all, shown, src, cap, pending, passes);
          return;
        }
      } else {
        var frame := read.0.frame;
        ShownPass(all, shown, src, cap, pending, passes);
        ok := ShowFrame(hw, frame, s0, shown);
        shown := shown + [frame];
        if QuitNow(pending) {
          return;
        }
        if !ok {
          ShowFailed(s0, hw.State(), hw.faults, shown, Play(src, read.1, NextKeys(pending), passes - 1).0);
          return;
        }
        cap := read.1;
        pending := NextKeys(pending);
        passes := passes - 1;
      }
    }
    NoPass(all, shown, src, cap, pending);
  }

  /** The start of the program: the backlight at import, init, landscape orientation, and
      the panel cleared to black */
  function StartupEvents(): seq<Event>
  {
    [SetPin(BL_PIN, High)] + InitEvents(DC_PIN, RST_PIN) + Send(DC_PIN, OrientationPackets(1))
    + ClearEvents(DC_PIN, WIDTH, HEIGHT, ColorHigh(0), ColorLow(0))
  }

  /** The whole script: the startup, then stream_video on the default camera (`video_source = 0`)
      for a budget of passes; the first write that raises ends the program. */
  method Program(hw: Board, isOpen: bool, frames: seq<Frame>, keys: seq<int>, budget: nat) returns (ok: bool)
    requires PanelSized(frames)
    modifies hw
    ensures Performs(old(hw.State()), hw.State(), hw.faults,
      StartupEvents() + (if isOpen then ShowEvents(Play(Camera(0), Capture(frames, 0), keys, budget).0) else []), ok)
  {
    ghost var s0 := hw.State();
    ghost var rest := if isOpen then ShowEvents(Play(Camera(0), Capture(frames, 0), keys, budget).0) else [];
    ghost var clear := ClearEvents(DC_PIN, WIDTH, HEIGHT, ColorHigh(0), ColorLow(0));
    hw.Output(BL_PIN, High);
    ghost var s := hw.State();
    ghost var done := [SetPin(BL_PIN, High)];
    ok := Init(hw);
    Then(s0, s, hw.State(), hw.faults, done, InitEvents(DC_PIN, RST_PIN), ok);
    if !ok {
      ghost var failed := done + InitEvents(DC_PIN, RST_PIN);
      AbortRest(s0, hw.State(), hw.faults, failed, Send(DC_PIN, OrientationPackets(1)));
      failed := failed + Send(DC_PIN, OrientationPackets(1));
      AbortRest(s0, hw.State(), hw.faults, failed, clear);
      failed := failed + clear;
      AbortRest(s0, hw.State(), hw.faults, failed, rest);
      return;
    }
    done := done + InitEvents(DC_PIN, RST_PIN);
    s := hw.State();
    ok := SetOrientation(hw, 1);
    Then(s0, s, hw.State(), hw.faults, done, Send(DC_PIN, OrientationPackets(1)), ok);
    if !ok {
      ghost var failed := done + Send(DC_PIN, OrientationPackets(1));
      AbortRest(s0, hw.State(), hw.faults, failed, clear);
      failed := failed + clear;
      AbortRest(s0, hw.State(), hw.faults, failed, rest);
      return;
    }
    done := done + Send(DC_PIN, OrientationPackets(1));
    s := hw.State();
    ok := ClearDisplay(hw, 0x0000);
    Then(s0, s, hw.State(), hw.faults, done, clear, ok);
    if !ok {
      AbortRest(s0, hw.State(), hw.faults, done + clear, rest);
      return;
    }
    done := done + clear;
    s := hw.State();
    ok := StreamVideo(hw, Camera(0), isOpen, frames, keys, budget);
    Then(s0, s, hw.State(), hw.faults, done, rest, ok);
  }

  // ---------------------------------------------------------------------------
  // What the controller ends up configured as

  /** No frame carries a MADCTL command: a frame reaches the controller as the window
      commands and pixel data. */
  lemma {:induction false} ShowKeepsMadctl(shown: seq<Frame>, level: Level, setting: Option<byte>)
    ensures Configure(Received(ShowEvents(shown), DC_PIN, level), Madctl(setting, false)) == Madctl(setting, false)
    decreases |shown|
  {
    if shown != [] {
      var f := FrameScript(shown[0]);
      var buffer := Encode(FrameToRgb(shown[0]));
      ReceivedAppend(f, ShowEvents(shown[1..]), DC_PIN, level);
      FrameDelivers(DC_PIN, WIDTH, HEIGHT, buffer, level);
      WindowKeepsMadctl(buffer, setting);
      ConfigureAppend(Received(f, DC_PIN, level), Received(ShowEvents(shown[1..]), DC_PIN, LevelAfter(f, DC_PIN, level)), Madctl(setting, false));
      ShowKeepsMadctl(shown[1..], LevelAfter(f, DC_PIN, level), setting);
    }
  }

  /** The window over the panel followed by pixel data holds no MADCTL command. */
  lemma WindowKeepsMadctl(data: seq<byte>, setting: Option<byte>)
    ensures Configure(WindowPackets(0, 0, WIDTH - 1, HEIGHT - 1) + Latch(data, High), Madctl(setting, false)) ==
      Madctl(setting, false)
  {
    var ps := WindowPackets(0, 0, WIDTH - 1, HEIGHT - 1) + Latch(data, High);
    forall i | 0 <= i < |ps|
      ensures ps[i] != Command(MADCTL)
    {
      if i >= 11 {
        assert ps[i] == Latch(data, High)[i - 11];
      }
    }
    ConfigureKeeps(ps, setting);
  }

  /** clear_display sends no MADCTL command. */
  lemma ClearKeepsMadctl(color: int, level: Level, setting: Option<byte>)
    ensures Configure(Received(ClearEvents(DC_PIN, WIDTH, HEIGHT, ColorHigh(color), ColorLow(color)), DC_PIN, level),
      Madctl(setting, false)) == Madctl(setting, false)
  {
    ClearDelivers(DC_PIN, WIDTH, HEIGHT, ColorHigh(color), ColorLow(color), level);
    WindowKeepsMadctl(Fill(ColorHigh(color), ColorLow(color), WIDTH * HEIGHT), setting);
  }

  /** After the startup the controller is in landscape: init leaves orientation 3 (0xA0),
      set_orientation(1) then writes 0x60, and the clear does not touch MADCTL. */
  lemma StartupOrientation(level: Level, m: Madctl)
    ensures Configure(Received(StartupEvents(), DC_PIN, level), m) == Madctl(Some(0x60), false)
  {
    var e1: seq<Event> := [SetPin(BL_PIN, High)];
    var e2 := InitEvents(DC_PIN, RST_PIN);
    var e3 := Send(DC_PIN, OrientationPackets(1));
    var e4 := ClearEvents(DC_PIN, WIDTH, HEIGHT, ColorHigh(0), ColorLow(0));
    assert e1[1..] == [];
    assert Received(e1, DC_PIN, level) == [];
    ConfigureThen(e1, e2, DC_PIN, level, m);
    InitConfigures(DC_PIN, RST_PIN, LevelAfter(e1, DC_PIN, level), m);
    ConfigureThen(e1 + e2, e3, DC_PIN, level, m);
    OrientationConfigures(DC_PIN, 1, LevelAfter(e1 + e2, DC_PIN, level), Madctl(Some(0xA0), false));
    ConfigureThen(e1 + e2 + e3, e4, DC_PIN, level, m);
    ClearKeepsMadctl(0, LevelAfter(e1 + e2 + e3, DC_PIN, level), Some(0x60));
  }

  /** Whatever the controller held before and however far the stream gets, the last MADCTL byte
      the program sends is 0x60: no frame touches MADCTL after the startup. */
  lemma ProgramOrientation(shown: seq<Frame>, level: Level, m: Madctl)
    ensures Configure(Received(StartupEvents() + ShowEvents(shown), DC_PIN, level), m) == Madctl(Some(0x60), false)
  {
    ConfigureThen(StartupEvents(), ShowEvents(shown), DC_PIN, level, m);
    StartupOrientation(level, m);
    ShowKeepsMadctl(shown, LevelAfter(StartupEvents(), DC_PIN, level), Some(0x60));
  }

  /** With the default camera and no quit key, the program shows each frame the camera
      delivers once, in order, and then ends of its own accord (given passes enough). */
  lemma ProgramCamera(frames: seq<Frame>, keys: seq<int>, budget: nat)
    requires budget > |frames| && NoQuit(keys)
    ensures Play(Camera(0), Capture(frames, 0), keys, budget) == (frames, SourceEnded)
  {
    CameraPlaysOnce(Capture(frames, 0), keys, budget);
    assert frames[0..] == frames;
  }
}
