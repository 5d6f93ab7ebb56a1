/** The object-oriented driver: class ST7789Display of display_controller.py.

    The display object owns a board (the GPIO lines and the SPI bus) and the
    panel geometry.  Every method that talks to the panel is proved against
    an event script of St7789 or Transfer: it performs that script, up to
    and including the first SPI write that raises, and reports whether it
    completed.  A raised exception is the result `false`; display_frame
    catches it and carries on, initialization passes it to the caller. */
module DisplayController {
  import opened Hardware
  import opened St7789
  import opened Rgb565
  import opened Transfer

  class ST7789Display {
    const hw: Board
    const width: int
    const height: int
    const rstPin: nat
    const dcPin: nat
    const blPin: nat

    /** The constructor up to the initialization: the configuration is stored and the
        backlight switched on. */
    constructor (hw: Board, width: int, height: int, rstPin: nat, dcPin: nat, blPin: nat)
      modifies hw
      ensures this.hw == hw && this.width == width && this.height == height
      ensures this.rstPin == rstPin && this.dcPin == dcPin && this.blPin == blPin
      ensures Performs(old(hw.State()), hw.State(), hw.faults, [SetPin(blPin, High)], true)
    {
      this.hw := hw;
      this.width, this.height := width, height;
      this.rstPin, this.dcPin, this.blPin := rstPin, dcPin, blPin;
      new;
      hw.Output(blPin, High);
    }

    /** Constructing a display: the backlight, then the initialization, whose failure
        propagates, so that no display object results. */
    static method Create(hw: Board, width: int, height: int, rstPin: nat, dcPin: nat, blPin: nat)
      returns (display: ST7789Display?)
      modifies hw
      ensures Performs(old(hw.State()), hw.State(), hw.faults,
        [SetPin(blPin, High)] + InitEvents(dcPin, rstPin), display != null)
      ensures display != null ==>
        fresh(display) && display.hw == hw &&
        display.width == width && display.height == height &&
        display.rstPin == rstPin && display.dcPin == dcPin && display.blPin == blPin
    {
      ghost var s0 := hw.State();
      var d := new ST7789Display(hw, width, height, rstPin, dcPin, blPin);
      ghost var s1 := hw.State();
      var ok := d.InitializeDisplay();
      Then(s0, s1, hw.State(), hw.faults, [SetPin(blPin, High)], InitEvents(dcPin, rstPin), ok);
      display := if ok then d else null;
    }

    /** write_cmd: D/C low, then the command byte */
    method WriteCmd(cmd: byte) returns (ok: bool)
      modifies hw
      ensures Performs(old(hw.State()), hw.State(), hw.faults, CmdEvents(dcPin, cmd), ok)
    {
      ghost var s0 := hw.State();
      hw.Output(dcPin, Low);
      ghost var s1 := hw.State();
      ok := hw.WriteBytes([cmd]);
      Then(s0, s1, hw.State(), hw.faults, [SetPin(dcPin, Low)], [SpiWrite([cmd])], ok);
      assert [SetPin(dcPin, Low)] + [SpiWrite([cmd])] == CmdEvents(dcPin, cmd);
    }

    /** write_data: D/C high, then the parameter byte */
    method WriteData(data: byte) returns (ok: bool)
      modifies hw
      ensures Performs(old(hw.State()), hw.State(), hw.faults, DataEvents(dcPin, data), ok)
    {
      ghost var s0 := hw.State();
      hw.Output(dcPin, High);
      ghost var s1 := hw.State();
      ok := hw.WriteBytes([data]);
      Then(s0, s1, hw.State(), hw.faults, [SetPin(dcPin, High)], [SpiWrite([data])], ok);
      assert [SetPin(dcPin, High)] + [SpiWrite([data])] == DataEvents(dcPin, data);
    }

    /** reset: the hardware reset pulse; it uses no SPI write, so it cannot fail */
    method Reset()
      modifies hw
      ensures Performs(old(hw.State()), hw.State(), hw.faults, ResetEvents(rstPin), true)
    {
      ghost var s0 := hw.State();
      ghost var s := s0;
      ghost var done: seq<Event>;
      hw.Output(rstPin, High);
      done := [SetPin(rstPin, High)];
      s := hw.State();
      hw.Sleep(10);
      Then(s0, s, hw.State(), hw.faults, done, [Delay(10)], true);
      done := done + [Delay(10)];
      s := hw.State();
      hw.Output(rstPin, Low);
      Then(s0, s, hw.State(), hw.faults, done, [SetPin(rstPin, Low)], true);
      done := done + [SetPin(rstPin, Low)];
      s := hw.State();
      hw.Sleep(10);
      Then(s0, s, hw.State(), hw.faults, done, [Delay(10)], true);
      done := done + [Delay(10)];
      s := hw.State();
      hw.Output(rstPin, High);
      Then(s0, s, hw.State(), hw.faults, done, [SetPin(rstPin, High)], true);
      done := done + [SetPin(rstPin, High)];
      s := hw.State();
      hw.Sleep(10);
      Then(s0, s, hw.State(), hw.faults, done, [Delay(10)], true);
      done := done + [Delay(10)];
      assert done == ResetEvents(rstPin);
    }

    /** set_orientation: MADCTL, then the parameter of orientations 0 to 3; nothing more for
        any other value */
    method SetOrientation(orientation: int) returns (ok: bool)
      modifies hw
      ensures Performs(old(hw.State()), hw.State(), hw.faults, Send(dcPin, OrientationPackets(orientation)), ok)
    {
      ghost var s0 := hw.State();
      OrientationFlat(dcPin, orientation);
      ok := WriteCmd(MADCTL);
      if !ok {
        if MadctlByte(orientation).Some? {
          AbortRest(s0, hw.State(), hw.faults, CmdEvents(dcPin, MADCTL), DataEvents(dcPin, MadctlByte(orientation).value));
        }
        return;
      }
      ghost var s := hw.State();
      match MadctlByte(orientation) {
        case Some(b) =>
          ok := WriteData(b);
          Then(s0, s, hw.State(), hw.faults, CmdEvents(dcPin, MADCTL), DataEvents(dcPin, b), ok);
        case None =>
      }
    }

    /** initialize_display: the steps of InitEvents in order, stopping at the first failure */
    method InitializeDisplay() returns (ok: bool)
      modifies hw
      ensures Performs(old(hw.State()), hw.State(), hw.faults, InitEvents(dcPin, rstPin), ok)
    {
      ghost var s0 := hw.State();
      ghost var s: Snapshot;
      ghost var done: seq<Event>;
      Reset();
      done := ResetEvents(rstPin);
      s := hw.State();
      ok := WriteCmd(SWRESET);
      Then(s0, s, hw.State(), hw.faults, done, CmdEvents(dcPin, SWRESET), ok);
      if !ok {
        ghost var failed := done + CmdEvents(dcPin, SWRESET);
        AbortRest(s0, hw.State(), hw.faults, failed, [Delay(150)]);
        failed := failed + [Delay(150)];
        AbortRest(s0, hw.State(), hw.faults, failed, CmdEvents(dcPin, SLPOUT));
        failed := failed + CmdEvents(dcPin, SLPOUT);
        AbortRest(s0, hw.State(), hw.faults, failed, [Delay(150)]);
        failed := failed + [Delay(150)];
        AbortRest(s0, hw.State(), hw.faults, failed, CmdEvents(dcPin, COLMOD));
        failed := failed + CmdEvents(dcPin, COLMOD);
        AbortRest(s0, hw.State(), hw.faults, failed, DataEvents(dcPin, COLOR_MODE_16BIT));
        failed := failed + DataEvents(dcPin, COLOR_MODE_16BIT);
        AbortRest(s0, hw.State(), hw.faults, failed, Send(dcPin, OrientationPackets(3)));
        failed := failed + Send(dcPin, OrientationPackets(3));
        AbortRest(s0, hw.State(), hw.faults, failed, CmdEvents(dcPin, INVON));
        failed := failed + CmdEvents(dcPin, INVON);
        AbortRest(s0, hw.State(), hw.faults, failed, CmdEvents(dcPin, NORON));
        failed := failed + CmdEvents(dcPin, NORON);
        AbortRest(s0, hw.State(), hw.faults, failed, [Delay(50)]);
        failed := failed + [Delay(50)];
        AbortRest(s0, hw.State(), hw.faults, failed, CmdEvents(dcPin, DISPON));
        failed := failed + CmdEvents(dcPin, DISPON);
        AbortRest(s0, hw.State(), hw.faults, failed, [Delay(150)]);
        failed := failed + [Delay(150)];
        return;
      }
      done := done + CmdEvents(dcPin, SWRESET);
      s := hw.State();
      hw.Sleep(150);
      Then(s0, s, hw.State(), hw.faults, done, [Delay(150)], true);
      done := done + [Delay(150)];
      s := hw.State();
      ok := WriteCmd(SLPOUT);
      Then(s0, s, hw.State(), hw.faults, done, CmdEvents(dcPin, SLPOUT), ok);
      if !ok {
        ghost var failed := done + CmdEvents(dcPin, SLPOUT);
        AbortRest(s0, hw.State(), hw.faults, failed, [Delay(150)]);
        failed := failed + [Delay(150)];
        AbortRest(s0, hw.State(), hw.faults, failed, CmdEvents(dcPin, COLMOD));
        failed := failed + CmdEvents(dcPin, COLMOD);
        AbortRest(s0, hw.State(), hw.faults, failed, DataEvents(dcPin, COLOR_MODE_16BIT));
        failed := failed + DataEvents(dcPin, COLOR_MODE_16BIT);
        AbortRest(s0, hw.State(), hw.faults, failed, Send(dcPin, OrientationPackets(3)));
        failed := failed + Send(dcPin, OrientationPackets(3));
        AbortRest(s0, hw.State(), hw.faults, failed, CmdEvents(dcPin, INVON));
        failed := failed + CmdEvents(dcPin, INVON);
        AbortRest(s0, hw.State(), hw.faults, failed, CmdEvents(dcPin, NORON));
        failed := failed + CmdEvents(dcPin, NORON);
        AbortRest(s0, hw.State(), hw.faults, failed, [Delay(50)]);
        failed := failed + [Delay(50)];
        AbortRest(s0, hw.State(), hw.faults, failed, CmdEvents(dcPin, DISPON));
        failed := failed + CmdEvents(dcPin, DISPON);
        AbortRest(s0, hw.State(), hw.faults, failed, [Delay(150)]);
        failed := failed + [Delay(150)];
        return;
      }
      done := done + CmdEvents(dcPin, SLPOUT);
      s := hw.State();
      hw.Sleep(150);
      Then(s0, s, hw.State(), hw.faults, done, [Delay(150)], true);
      done := done + [Delay(150)];
      s := hw.State();
      ok := WriteCmd(COLMOD);
      Then(s0, s, hw.State(), hw.faults, done, CmdEvents(dcPin, COLMOD), ok);
      if !ok {
        ghost var failed := done + CmdEvents(dcPin, COLMOD);
        AbortRest(s0, hw.State(), hw.faults, failed, DataEvents(dcPin, COLOR_MODE_16BIT));
        failed := failed + DataEvents(dcPin, COLOR_MODE_16BIT);
        AbortRest(s0, hw.State(), hw.faults, failed, Send(dcPin, OrientationPackets(3)));
        failed := failed + Send(dcPin, OrientationPackets(3));
        AbortRest(s0, hw.State(), hw.faults, failed, CmdEvents(dcPin, INVON));
        failed := failed + CmdEvents(dcPin, INVON);
        AbortRest(s0, hw.State(), hw.faults, failed, CmdEvents(dcPin, NORON));
        failed := failed + CmdEvents(dcPin, NORON);
        AbortRest(s0, hw.State(), hw.faults, failed, [Delay(50)]);
        failed := failed + [Delay(50)];
        AbortRest(s0, hw.State(), hw.faults, failed, CmdEvents(dcPin, DISPON));
        failed := failed + CmdEvents(dcPin, DISPON);
        AbortRest(s0, hw.State(), hw.faults, failed, [Delay(150)]);
        failed := failed + [Delay(150)];
        return;
      }
      done := done + CmdEvents(dcPin, COLMOD);
      s := hw.State();
      ok := WriteData(COLOR_MODE_16BIT);
      Then(s0, s, hw.State(), hw.faults, done, DataEvents(dcPin, COLOR_MODE_16BIT), ok);
      if !ok {
        ghost var failed := done + DataEvents(dcPin, COLOR_MODE_16BIT);
        AbortRest(s0, hw.State(), hw.faults, failed, Send(dcPin, OrientationPackets(3)));
        failed := failed + Send(dcPin, OrientationPackets(3));
        AbortRest(s0, hw.State(), hw.faults, failed, CmdEvents(dcPin, INVON));
        failed := failed + CmdEvents(dcPin, INVON);
        AbortRest(s0, hw.State(), hw.faults, failed, CmdEvents(dcPin, NORON));
        failed := failed + CmdEvents(dcPin, NORON);
        AbortRest(s0, hw.State(), hw.faults, failed, [Delay(50)]);
        failed := failed + [Delay(50)];
        AbortRest(s0, hw.State(), hw.faults, failed, CmdEvents(dcPin, DISPON));
        failed := failed + CmdEvents(dcPin, DISPON);
        AbortRest(s0, hw.State(), hw.faults, failed, [Delay(150)]);
        failed := failed + [Delay(150)];
        return;
      }
      done := done + DataEvents(dcPin, COLOR_MODE_16BIT);
      s := hw.State();
      ok := SetOrientation(3);
      Then(s0, s, hw.State(), hw.faults, done, Send(dcPin, OrientationPackets(3)), ok);
      if !ok {
        ghost var failed := done + Send(dcPin, OrientationPackets(3));
        AbortRest(s0, hw.State(), hw.faults, failed, CmdEvents(dcPin, INVON));
        failed := failed + CmdEvents(dcPin, INVON);
        AbortRest(s0, hw.State(), hw.faults, failed, CmdEvents(dcPin, NORON));
        failed := failed + CmdEvents(dcPin, NORON);
        AbortRest(s0, hw.State(), hw.faults, failed, [Delay(50)]);
        failed := failed + [Delay(50)];
        AbortRest(s0, hw.State(), hw.faults, failed, CmdEvents(dcPin, DISPON));
        failed := failed + CmdEvents(dcPin, DISPON);
        AbortRest(s0, hw.State(), hw.faults, failed, [Delay(150)]);
        failed := failed + [Delay(150)];
        return;
      }
      done := done + Send(dcPin, OrientationPackets(3));
      s := hw.State();
      ok := WriteCmd(INVON);
      Then(s0, s, hw.State(), hw.faults, done, CmdEvents(dcPin, INVON), ok);
      if !ok {
        ghost var failed := done + CmdEvents(dcPin, INVON);
        AbortRest(s0, hw.State(), hw.faults, failed, CmdEvents(dcPin, NORON));
        failed := failed + CmdEvents(dcPin, NORON);
        AbortRest(s0, hw.State(), hw.faults, failed, [Delay(50)]);
        failed := failed + [Delay(50)];
        AbortRest(s0, hw.State(), hw.faults, failed, CmdEvents(dcPin, DISPON));
        failed := failed + CmdEvents(dcPin, DISPON);
        AbortRest(s0, hw.State(), hw.faults, failed, [Delay(150)]);
        failed := failed + [Delay(150)];
        return;
      }
      done := done + CmdEvents(dcPin, INVON);
      s := hw.State();
      ok := WriteCmd(NORON);
      Then(s0, s, hw.State(), hw.faults, done, CmdEvents(dcPin, NORON), ok);
      if !ok {
        ghost var failed := done + CmdEvents(dcPin, NORON);
        AbortRest(s0, hw.State(), hw.faults, failed, [Delay(50)]);
        failed := failed + [Delay(50)];
        AbortRest(s0, hw.State(), hw.faults, failed, CmdEvents(dcPin, DISPON));
        failed := failed + CmdEvents(dcPin, DISPON);
        AbortRest(s0, hw.State(), hw.faults, failed, [Delay(150)]);
        failed := failed + [Delay(150)];
        return;
      }
      done := done + CmdEvents(dcPin, NORON);
      s := hw.State();
      hw.Sleep(50);
      Then(s0, s, hw.State(), hw.faults, done, [Delay(50)], true);
      done := done + [Delay(50)];
      s := hw.State();
      ok := WriteCmd(DISPON);
      Then(s0, s, hw.State(), hw.faults, done, CmdEvents(dcPin, DISPON), ok);
      if !ok {
        ghost var failed := done + CmdEvents(dcPin, DISPON);
        AbortRest(s0, hw.State(), hw.faults, failed, [Delay(150)]);
        failed := failed + [Delay(150)];
        return;
      }
      done := done + CmdEvents(dcPin, DISPON);
      s := hw.State();
      hw.Sleep(150);
      Then(s0, s, hw.State(), hw.faults, done, [Delay(150)], true);
      done := done + [Delay(150)];
      ok := true;
    }

    /** set_window: CASET and the column bounds, RASET and the row bounds, RAMWR */
    method SetWindow(xStart: nat, yStart: nat, xEnd: nat, yEnd: nat) returns (ok: bool)
      requires Coordinate(xStart) && Coordinate(yStart) && Coordinate(xEnd) && Coordinate(yEnd)
      modifies hw
      ensures Performs(old(hw.State()), hw.State(), hw.faults,
        Send(dcPin, WindowPackets(xStart, yStart, xEnd, yEnd)), ok)
    {
      ghost var s0 := hw.State();
      ghost var s: Snapshot;
      ghost var done: seq<Event>;
      WindowFlat(dcPin, xStart, yStart, xEnd, yEnd);
      ok := WriteCmd(CASET);
      if !ok {
        ghost var failed := CmdEvents(dcPin, CASET);
        AbortRest(s0, hw.State(), hw.faults, failed, DataEvents(dcPin, HighByte(xStart)));
        failed := failed + DataEvents(dcPin, HighByte(xStart));
        AbortRest(s0, hw.State(), hw.faults, failed, DataEvents(dcPin, LowByte(xStart)));
        failed := failed + DataEvents(dcPin, LowByte(xStart));
        AbortRest(s0, hw.State(), hw.faults, failed, DataEvents(dcPin, HighByte(xEnd)));
        failed := failed + DataEvents(dcPin, HighByte(xEnd));
        AbortRest(s0, hw.State(), hw.faults, failed, DataEvents(dcPin, LowByte(xEnd)));
        failed := failed + DataEvents(dcPin, LowByte(xEnd));
        AbortRest(s0, hw.State(), hw.faults, failed, CmdEvents(dcPin, RASET));
        failed := failed + CmdEvents(dcPin, RASET);
        AbortRest(s0, hw.State(), hw.faults, failed, DataEvents(dcPin, HighByte(yStart)));
        failed := failed + DataEvents(dcPin, HighByte(yStart));
        AbortRest(s0, hw.State(), hw.faults, failed, DataEvents(dcPin, LowByte(yStart)));
        failed := failed + DataEvents(dcPin, LowByte(yStart));
        AbortRest(s0, hw.State(), hw.faults, failed, DataEvents(dcPin, HighByte(yEnd)));
        failed := failed + DataEvents(dcPin, HighByte(yEnd));
        AbortRest(s0, hw.State(), hw.faults, failed, DataEvents(dcPin, LowByte(yEnd)));
        failed := failed + DataEvents(dcPin, LowByte(yEnd));
        AbortRest(s0, hw.State(), hw.faults, failed, CmdEvents(dcPin, RAMWR));
        failed := failed + CmdEvents(dcPin, RAMWR);
        return;
      }
      done := CmdEvents(dcPin, CASET);
      s := hw.State();
      ok := WriteData(HighByte(xStart));
      Then(s0, s, hw.State(), hw.faults, done, DataEvents(dcPin, HighByte(xStart)), ok);
      if !ok {
        ghost var failed := done + DataEvents(dcPin, HighByte(xStart));
        AbortRest(s0, hw.State(), hw.faults, failed, DataEvents(dcPin, LowByte(xStart)));
        failed := failed + DataEvents(dcPin, LowByte(xStart));
        AbortRest(s0, hw.State(), hw.faults, failed, DataEvents(dcPin, HighByte(xEnd)));
        failed := failed + DataEvents(dcPin, HighByte(xEnd));
        AbortRest(s0, hw.State(), hw.faults, failed, DataEvents(dcPin, LowByte(xEnd)));
        failed := failed + DataEvents(dcPin, LowByte(xEnd));
        AbortRest(s0, hw.State(), hw.faults, failed, CmdEvents(dcPin, RASET));
        failed := failed + CmdEvents(dcPin, RASET);
        AbortRest(s0, hw.State(), hw.faults, failed, DataEvents(dcPin, HighByte(yStart)));
        failed := failed + DataEvents(dcPin, HighByte(yStart));
        AbortRest(s0, hw.State(), hw.faults, failed, DataEvents(dcPin, LowByte(yStart)));
        failed := failed + DataEvents(dcPin, LowByte(yStart));
        AbortRest(s0, hw.State(), hw.faults, failed, DataEvents(dcPin, HighByte(yEnd)));
        failed := failed + DataEvents(dcPin, HighByte(yEnd));
        AbortRest(s0, hw.State(), hw.faults, failed, DataEvents(dcPin, LowByte(yEnd)));
        failed := failed + DataEvents(dcPin, LowByte(yEnd));
        AbortRest(s0, hw.State(), hw.faults, failed, CmdEvents(dcPin, RAMWR));
        failed := failed + CmdEvents(dcPin, RAMWR);
        return;
      }
      done := done + DataEvents(dcPin, HighByte(xStart));
      s := hw.State();
      ok := WriteData(LowByte(xStart));
      Then(s0, s, hw.State(), hw.faults, done, DataEvents(dcPin, LowByte(xStart)), ok);
      if !ok {
        ghost var failed := done + DataEvents(dcPin, LowByte(xStart));
        AbortRest(s0, hw.State(), hw.faults, failed, DataEvents(dcPin, HighByte(xEnd)));
        failed := failed + DataEvents(dcPin, HighByte(xEnd));
        AbortRest(s0, hw.State(), hw.faults, failed, DataEvents(dcPin, LowByte(xEnd)));
        failed := failed + DataEvents(dcPin, LowByte(xEnd));
        AbortRest(s0, hw.State(), hw.faults, failed, CmdEvents(dcPin, RASET));
        failed := failed + CmdEvents(dcPin, RASET);
        AbortRest(s0, hw.State(), hw.faults, failed, DataEvents(dcPin, HighByte(yStart)));
        failed := failed + DataEvents(dcPin, HighByte(yStart));
        AbortRest(s0, hw.State(), hw.faults, failed, DataEvents(dcPin, LowByte(yStart)));
        failed := failed + DataEvents(dcPin, LowByte(yStart));
        AbortRest(s0, hw.State(), hw.faults, failed, DataEvents(dcPin, HighByte(yEnd)));
        failed := failed + DataEvents(dcPin, HighByte(yEnd));
        AbortRest(s0, hw.State(), hw.faults, failed, DataEvents(dcPin, LowByte(yEnd)));
        failed := failed + DataEvents(dcPin, LowByte(yEnd));
        AbortRest(s0, hw.State(), hw.faults, failed, CmdEvents(dcPin, RAMWR));
        failed := failed + CmdEvents(dcPin, RAMWR);
        return;
      }
      done := done + DataEvents(dcPin, LowByte(xStart));
      s := hw.State();
      ok := WriteData(HighByte(xEnd));
      Then(s0, s, hw.State(), hw.faults, done, DataEvents(dcPin, HighByte(xEnd)), ok);
      if !ok {
        ghost var failed := done + DataEvents(dcPin, HighByte(xEnd));
        AbortRest(s0, hw.State(), hw.faults, failed, DataEvents(dcPin, LowByte(xEnd)));
        failed := failed + DataEvents(dcPin, LowByte(xEnd));
        AbortRest(s0, hw.State(), hw.faults, failed, CmdEvents(dcPin, RASET));
        failed := failed + CmdEvents(dcPin, RASET);
        AbortRest(s0, hw.State(), hw.faults, failed, DataEvents(dcPin, HighByte(yStart)));
        failed := failed + DataEvents(dcPin, HighByte(yStart));
        AbortRest(s0, hw.State(), hw.faults, failed, DataEvents(dcPin, LowByte(yStart)));
        failed := failed + DataEvents(dcPin, LowByte(yStart));
        AbortRest(s0, hw.State(), hw.faults, failed, DataEvents(dcPin, HighByte(yEnd)));
        failed := failed + DataEvents(dcPin, HighByte(yEnd));
        AbortRest(s0, hw.State(), hw.faults, failed, DataEvents(dcPin, LowByte(yEnd)));
        failed := failed + DataEvents(dcPin, LowByte(yEnd));
        AbortRest(s0, hw.State(), hw.faults, failed, CmdEvents(dcPin, RAMWR));
        failed := failed + CmdEvents(dcPin, RAMWR);
        return;
      }
      done := done + DataEvents(dcPin, HighByte(xEnd));
      s := hw.State();
      ok := WriteData(LowByte(xEnd));
      Then(s0, s, hw.State(), hw.faults, done, DataEvents(dcPin, LowByte(xEnd)), ok);
      if !ok {
        ghost var failed := done + DataEvents(dcPin, LowByte(xEnd));
        AbortRest(s0, hw.State(), hw.faults, failed, CmdEvents(dcPin, RASET));
        failed := failed + CmdEvents(dcPin, RASET);
        AbortRest(s0, hw.State(), hw.faults, failed, DataEvents(dcPin, HighByte(yStart)));
        failed := failed + DataEvents(dcPin, HighByte(yStart));
        AbortRest(s0, hw.State(), hw.faults, failed, DataEvents(dcPin, LowByte(yStart)));
        failed := failed + DataEvents(dcPin, LowByte(yStart));
        AbortRest(s0, hw.State(), hw.faults, failed, DataEvents(dcPin, HighByte(yEnd)));
        failed := failed + DataEvents(dcPin, HighByte(yEnd));
        AbortRest(s0, hw.State(), hw.faults, failed, DataEvents(dcPin, LowByte(yEnd)));
        failed := failed + DataEvents(dcPin, LowByte(yEnd));
        AbortRest(s0, hw.State(), hw.faults, failed, CmdEvents(dcPin, RAMWR));
        failed := failed + CmdEvents(dcPin, RAMWR);
        return;
      }
      done := done + DataEvents(dcPin, LowByte(xEnd));
      s := hw.State();
      ok := WriteCmd(RASET);
      Then(s0, s, hw.State(), hw.faults, done, CmdEvents(dcPin, RASET), ok);
      if !ok {
        ghost var failed := done + CmdEvents(dcPin, RASET);
        AbortRest(s0, hw.State(), hw.faults, failed, DataEvents(dcPin, HighByte(yStart)));
        failed := failed + DataEvents(dcPin, HighByte(yStart));
        AbortRest(s0, hw.State(), hw.faults, failed, DataEvents(dcPin, LowByte(yStart)));
        failed := failed + DataEvents(dcPin, LowByte(yStart));
        AbortRest(s0, hw.State(), hw.faults, failed, DataEvents(dcPin, HighByte(yEnd)));
        failed := failed + DataEvents(dcPin, HighByte(yEnd));
        AbortRest(s0, hw.State(), hw.faults, failed, DataEvents(dcPin, LowByte(yEnd)));
        failed := failed + DataEvents(dcPin, LowByte(yEnd));
        AbortRest(s0, hw.State(), hw.faults, failed, CmdEvents(dcPin, RAMWR));
        failed := failed + CmdEvents(dcPin, RAMWR);
        return;
      }
      done := done + CmdEvents(dcPin, RASET);
      s := hw.State();
      ok := WriteData(HighByte(yStart));
      Then(s0, s, hw.State(), hw.faults, done, DataEvents(dcPin, HighByte(yStart)), ok);
      if !ok {
        ghost var failed := done + DataEvents(dcPin, HighByte(yStart));
        AbortRest(s0, hw.State(), hw.faults, failed, DataEvents(dcPin, LowByte(yStart)));
        failed := failed + DataEvents(dcPin, LowByte(yStart));
        AbortRest(s0, hw.State(), hw.faults, failed, DataEvents(dcPin, HighByte(yEnd)));
        failed := failed + DataEvents(dcPin, HighByte(yEnd));
        AbortRest(s0, hw.State(), hw.faults, failed, DataEvents(dcPin, LowByte(yEnd)));
        failed := failed + DataEvents(dcPin, LowByte(yEnd));
        AbortRest(s0, hw.State(), hw.faults, failed, CmdEvents(dcPin, RAMWR));
        failed := failed + CmdEvents(dcPin, RAMWR);
        return;
      }
      done := done + DataEvents(dcPin, HighByte(yStart));
      s := hw.State();
      ok := WriteData(LowByte(yStart));
      Then(s0, s, hw.State(), hw.faults, done, DataEvents(dcPin, LowByte(yStart)), ok);
      if !ok {
        ghost var failed := done + DataEvents(dcPin, LowByte(yStart));
        AbortRest(s0, hw.State(), hw.faults, failed, DataEvents(dcPin, HighByte(yEnd)));
        failed := failed + DataEvents(dcPin, HighByte(yEnd));
        AbortRest(s0, hw.State(), hw.faults, failed, DataEvents(dcPin, LowByte(yEnd)));
        failed := failed + DataEvents(dcPin, LowByte(yEnd));
        AbortRest(s0, hw.State(), hw.faults, failed, CmdEvents(dcPin, RAMWR));
        failed := failed + CmdEvents(dcPin, RAMWR);
        return;
      }
      done := done + DataEvents(dcPin, LowByte(yStart));
      s := hw.State();
      ok := WriteData(HighByte(yEnd));
      Then(s0, s, hw.State(), hw.faults, done, DataEvents(dcPin, HighByte(yEnd)), ok);
      if !ok {
        ghost var failed := done + DataEvents(dcPin, HighByte(yEnd));
        AbortRest(s0, hw.State(), hw.faults, failed, DataEvents(dcPin, LowByte(yEnd)));
        failed := failed + DataEvents(dcPin, LowByte(yEnd));
        AbortRest(s0, hw.State(), hw.faults, failed, CmdEvents(dcPin, RAMWR));
        failed := failed + CmdEvents(dcPin, RAMWR);
        return;
      }
      done := done + DataEvents(dcPin, HighByte(yEnd));
      s := hw.State();
      ok := WriteData(LowByte(yEnd));
      Then(s0, s, hw.State(), hw.faults, done, DataEvents(dcPin, LowByte(yEnd)), ok);
      if !ok {
        ghost var failed := done + DataEvents(dcPin, LowByte(yEnd));
        AbortRest(s0, hw.State(), hw.faults, failed, CmdEvents(dcPin, RAMWR));
        failed := failed + CmdEvents(dcPin, RAMWR);
        return;
      }
      done := done + DataEvents(dcPin, LowByte(yEnd));
      s := hw.State();
      ok := WriteCmd(RAMWR);
      Then(s0, s, hw.State(), hw.faults, done, CmdEvents(dcPin, RAMWR), ok);
      if !ok { return; }
      done := done + CmdEvents(dcPin, RAMWR);
    }

    /** display_frame on a frame already at panel size: convert to RGB565, set the window
        over the whole panel, raise D/C and send the buffer in chunks of 4096 bytes.  A write
        that raises ends the frame; the error is caught, so the caller sees no failure. */
    method DisplayFrame(frame: seq<Triple>)
      requires Extent(width) && Extent(height)
      requires |frame| == width * height
      modifies hw
      ensures Tries(old(hw.State()), hw.State(), hw.faults,
        FrameEvents(dcPin, width, height, Encode(FrameToRgb(frame))))
    {
      ghost var s0 := hw.State();
      var buffer := ConvertFrame(frame);
      ghost var window := PanelWindow(dcPin, width, height);
      var ok := SetWindow(0, 0, width - 1, height - 1);
      if !ok {
        AbortRest(s0, hw.State(), hw.faults, window, [SetPin(dcPin, High)]);
        AbortRest(s0, hw.State(), hw.faults, window + [SetPin(dcPin, High)], ChunkEvents(buffer, CHUNK_SIZE));
        Caught(s0, hw.State(), hw.faults, FrameEvents(dcPin, width, height, buffer), false);
        return;
      }
      ghost var s := hw.State();
      hw.Output(dcPin, High);
      Then(s0, s, hw.State(), hw.faults, window, [SetPin(dcPin, High)], true);
      s := hw.State();
      ok := SendChunks(hw, buffer, CHUNK_SIZE);
      Then(s0, s, hw.State(), hw.faults, window + [SetPin(dcPin, High)], ChunkEvents(buffer, CHUNK_SIZE), ok);
      Caught(s0, hw.State(), hw.faults, FrameEvents(dcPin, width, height, buffer), ok);
    }
  }
}
