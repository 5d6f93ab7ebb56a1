# ST7789 SPI display drivers, modelled in Dafny

This project models the two Python drivers of the `spi-display` block. They drive
an ST7789 TFT panel over one SPI bus and three GPIO lines: reset (RST),
data/command select (D/C) and backlight (BL).

- `display_controller.py` has class `ST7789Display`. It provides command and data
  writes, the reset pulse, the orientation (MADCTL) setting, initialization, the
  address window, and `display_frame`. That method converts a BGR frame to RGB565
  and sends it in 4096-byte chunks, catching a failed write.
- `amusia_boogie.py` holds the same driver as module-level functions over global
  GPIO/SPI state. It adds `clear_display`, which fills the panel with one colour
  in 1024-byte blocks, and `stream_video`, the read/show/quit loop. Its top-level
  program runs `init()`, `set_orientation(1)`, `clear_display(0)` and then
  `stream_video(0)`.

How the model works:

- **Board (`Hardware`).** The board is a class named `Board`. It holds an
  append-only trace of events (`SetPin`, `SpiWrite`, `SpiError`, `Delay`), the
  number of SPI writes attempted, and a fault oracle. The oracle is the set of
  write ordinals for which `spi.writebytes` raises.
- **Scripts.** Every driver operation is a method with a pure event script beside
  it, and it is proved to perform that script. `Performs` says that a method which
  completed did exactly its script. A method that failed did `Run` of the script:
  the events up to the first write that raised, recorded as `SpiError`. So a
  raised exception is the result `ok == false`, and an early return stands for
  the unwinding.
- **What the panel receives (`St7789`).** `Received` decodes a trace into the
  command and parameter bytes the controller latches. Each byte is tagged by the
  D/C level in force when it is written. `Configure` follows the MADCTL register
  through those packets.
- **Chunks and fills (`Transfer`).** This module holds the chunked transfer of
  `display_frame` and the block fill of `clear_display`, each with its payload and
  shape lemmas.
- **Pixels (`Rgb565`).** The RGB565 conversion is specified arithmetically and
  proved equal to the source's bitwise expression. The bitwise operators `&`, `|`,
  `<<` and `>>` on naturals are in `Bits`.
- **The loop (`Playback`).** The `stream_video` loop is written as decisions on
  values: a capture, recorded key codes, and a budget of passes.

## Model

| member | source | states |
|---|---|---|
| Hardware.Board.Output | balena/blocks/spi-display/display_controller.py:67 | `GPIO.output` appends exactly one `SetPin` event and never fails |
| Hardware.Board.WriteBytes | balena/blocks/spi-display/display_controller.py:68 | `spi.writebytes` is one attempted write. It completes unless its ordinal is faulty, and then it is recorded as an error with `ok` false |
| Hardware.Board.Sleep | balena/blocks/spi-display/display_controller.py:76 | `time.sleep` appends one `Delay` and nothing else |
| Hardware.RunCompletes | balena/blocks/spi-display/display_controller.py:174-179 | a script completes if and only if none of the writes it attempts has a faulty ordinal |
| Hardware.RunPerforms | balena/blocks/spi-display/display_controller.py:174-176 | a completed script has performed exactly its own events, and attempted exactly its writes |
| Hardware.RunStops | balena/blocks/spi-display/display_controller.py:174-179 | a failed script stopped at a write whose ordinal is faulty: everything before it was performed, and nothing after it |
| Hardware.RunAppend | balena/blocks/spi-display/display_controller.py:99-122 | running `a + b` runs `a` and, only if `a` completed, runs `b` from where `a` left the bus |
| Hardware.Then | balena/blocks/spi-display/display_controller.py:99-122 | performing `a` to completion and then `b` is performing `a + b` |
| Hardware.Caught | balena/blocks/spi-display/display_controller.py:178-179 | a caught failure leaves the bus exactly as the failed run left it |
| St7789.PacketDelivers | balena/blocks/spi-display/display_controller.py:66-72 | write_cmd delivers its byte as a command and leaves D/C low. write_data delivers its byte as a parameter and leaves D/C high |
| St7789.SendDelivers | balena/blocks/spi-display/display_controller.py:66-72 | any sequence of command/data writes is received by the controller as exactly that sequence of packets |
| St7789.SendTagged | balena/blocks/spi-display/display_controller.py:66-72 | there is one SPI write per packet, it carries one byte, and the event just before it sets the D/C line |
| St7789.SendPairs | balena/blocks/spi-display/display_controller.py:66-72 | packet `k` becomes events `2k` and `2k+1`: D/C set Low for a command or High for a parameter, then one SPI write of that byte alone |
| St7789.Latch | balena/blocks/spi-display/display_controller.py:168-176 | bytes sent with D/C held at one level are all commands (low) or all parameters (high), one packet per byte |
| St7789.ResetPulse | balena/blocks/spi-display/display_controller.py:74-80 | reset drives RST high, low, high, in that order |
| St7789.ResetQuiet | balena/blocks/spi-display/amusia_boogie.py:64-70 | the reset pulse writes nothing on SPI and does not touch D/C |
| St7789.MadctlByte | balena/blocks/spi-display/display_controller.py:90-97 | an orientation has a MADCTL parameter if and only if it is 0, 1, 2 or 3 |
| St7789.OrientationDelivers | balena/blocks/spi-display/display_controller.py:89-97 | the controller receives MADCTL followed by 0x00, 0x60, 0xC0 or 0xA0 for orientations 0 to 3, and MADCTL alone for any other value |
| St7789.OrientationFlat | balena/blocks/spi-display/amusia_boogie.py:81-91 | set_orientation is write_cmd(MADCTL), then one write_data for a known orientation and none otherwise |
| St7789.MadctlGeometry | balena/blocks/spi-display/display_controller.py:83-88 | the row/column-exchange bit is set exactly for the landscape orientations 1 and 3. Flipping by 180 degrees toggles both mirror bits and keeps the exchange bit |
| St7789.MadctlBits | balena/blocks/spi-display/amusia_boogie.py:84-91 | MV, MX and MY are bits 5, 6 and 7 of the MADCTL byte |
| St7789.InitDelivers | balena/blocks/spi-display/display_controller.py:99-122 | initialization starts with the reset pulse, which sends nothing. The controller then receives SWRESET, SLPOUT, COLMOD 0x55, MADCTL 0xA0, INVON, NORON and DISPON, in that order |
| St7789.InitConfigures | balena/blocks/spi-display/amusia_boogie.py:94-115 | after initialization MADCTL holds 0xA0, whatever it held before |
| St7789.OrientationConfigures | balena/blocks/spi-display/amusia_boogie.py:81-91 | set_orientation leaves MADCTL holding its byte for orientations 0 to 3. For any other value the setting is unchanged and the controller is left awaiting a parameter |
| St7789.CoordinateBytes | balena/blocks/spi-display/display_controller.py:132-135 | for a 16-bit coordinate, `x >> 8` and `x & 0xFF` are its high and low bytes, and together they give back `x` |
| St7789.WindowDelivers | balena/blocks/spi-display/display_controller.py:129-145 | set_window delivers CASET with xs and xe as high/low bytes, then RASET with ys and ye, then RAMWR. That is 11 one-byte writes, each tagged with its D/C level, and D/C ends low |
| St7789.RangeFlat | balena/blocks/spi-display/amusia_boogie.py:122-126 | one range is the command write followed by four data writes, in order |
| St7789.WindowFlat | balena/blocks/spi-display/amusia_boogie.py:120-136 | set_window is exactly the 11 writes: CASET, four x bytes, RASET, four y bytes, RAMWR |
| Transfer.ChunksReassemble | balena/blocks/spi-display/display_controller.py:174-176 | the chunks of a buffer, concatenated in order, are the buffer |
| Transfer.ChunkShapes | balena/blocks/spi-display/display_controller.py:171-176 | a buffer of L bytes takes ⌈L/4096⌉ writes. Each write is non-empty and at most the chunk size, and all but the last are exactly the chunk size |
| Transfer.SendChunks | balena/blocks/spi-display/amusia_boogie.py:188-193 | the `range(0, len, chunk_size)` loop performs the chunk script and stops at the first write that raises |
| Transfer.FillLayout | balena/blocks/spi-display/amusia_boogie.py:151 | `[high, low] * n` has 2n bytes: high at even positions, low at odd ones |
| Transfer.FillAppend | balena/blocks/spi-display/amusia_boogie.py:151 | n + m repetitions are n repetitions followed by m |
| Transfer.BlocksPayload | balena/blocks/spi-display/amusia_boogie.py:156-157 | k blocks of m colour pairs carry the colour pair m·k times |
| Transfer.FillDelivers | balena/blocks/spi-display/amusia_boogie.py:150-162 | the whole blocks plus the remainder carry the colour pair exactly once per pixel |
| Transfer.FillShape | balena/blocks/spi-display/amusia_boogie.py:150-162 | there are total/512 writes of 1024 bytes, plus one write of 2·(total mod 512) bytes when that is not zero, and no other writes |
| Transfer.FillPanel | balena/blocks/spi-display/amusia_boogie.py:153-162 | on the 320×240 panel the fill is exactly 150 writes of the 1024-byte block, with no remainder |
| Transfer.SendFill | balena/blocks/spi-display/amusia_boogie.py:156-162 | the block loop and the remainder write perform the fill script, stopping at the first write that raises |
| Transfer.FrameDelivers | balena/blocks/spi-display/display_controller.py:167-176 | display_frame delivers the window (0, 0, w-1, h-1) and then every buffer byte as pixel data. D/C is raised once after the window and never toggled, and there are 11 + ⌈L/4096⌉ writes |
| Transfer.ClearDelivers | balena/blocks/spi-display/amusia_boogie.py:141-162 | clear_display delivers the full-panel window and then the colour pair once per pixel as data, with D/C raised once |
| Rgb565.BgrToRgbTwice | balena/blocks/spi-display/display_controller.py:154 | the `COLOR_BGR2RGB` channel swap is its own inverse, so no two pixels convert alike |
| Rgb565.FrameToRgbTwice | balena/blocks/spi-display/amusia_boogie.py:171-174 | converting a frame keeps its pixel count, and converting it twice gives back the frame, order included |
| Rgb565.PackValue | balena/blocks/spi-display/display_controller.py:162 | the source's mask-shift-or expression, `r & 0xF8` shifted left by 8, `g & 0xFC` shifted left by 3 and `b >> 3`, equals the 5-6-5 arithmetic packing |
| Rgb565.PackFields | balena/blocks/spi-display/amusia_boogie.py:179 | the packed value fits 16 bits. Its top 5 bits are r/8, the middle 6 are g/4 and the low 5 are b/8 |
| Rgb565.Unpack | balena/blocks/spi-display/display_controller.py:162 | expanding a 16-bit value gives channels whose truncated low bits are zero |
| Rgb565.PackUnpack | balena/blocks/spi-display/display_controller.py:162 | every 16-bit value is the packing of some pixel, so packing loses nothing of the 16 bits |
| Rgb565.UnpackPack | balena/blocks/spi-display/amusia_boogie.py:179 | packing keeps exactly the top 5/6/5 bits of r, g and b; the rest is truncated, not rounded |
| Rgb565.PixelBytesValue | balena/blocks/spi-display/display_controller.py:162-164 | a pixel's two bytes are `(rgb >> 8) & 0xFF` and `rgb & 0xFF`, and they form the packed value in big-endian order |
| Rgb565.PixelBytesFields | balena/blocks/spi-display/amusia_boogie.py:179-181 | the high byte is r's 5 bits and g's top 3 bits. The low byte is g's next 3 bits and b's 5 bits |
| Rgb565.White | balena/blocks/spi-display/display_controller.py:160-164 | (255, 255, 255) is sent as FF FF |
| Rgb565.Black | balena/blocks/spi-display/display_controller.py:160-164 | (0, 0, 0) is sent as 00 00 |
| Rgb565.FullRed | balena/blocks/spi-display/display_controller.py:160-164 | the RGB triple (248, 0, 0), which the channel swap makes of the decoder's BGR pixel (0, 0, 248), is sent as F8 00 |
| Rgb565.Uint8HighByteLost | balena/blocks/spi-display/amusia_boogie.py:178-180 | with every operation wrapped to `uint8`, as NumPy 2 evaluates it, the high byte appended for every pixel is 0 |
| Rgb565.Uint8White | balena/blocks/spi-display/amusia_boogie.py:178-181 | under that evaluation white is not sent as the bytes of its RGB565 value |
| Rgb565.EncodeLayout | balena/blocks/spi-display/display_controller.py:157-164 | the buffer has two bytes per pixel, and pixel i is at positions 2i and 2i+1 |
| Rgb565.ConvertFrame | balena/blocks/spi-display/amusia_boogie.py:171-181 | the per-pixel append loop builds the encoding of the channel-swapped frame: 2 bytes per pixel, high byte first |
| Playback.ReadsInOrder | balena/blocks/spi-display/amusia_boogie.py:217 | successive `cap.read()` calls from a position return the source's frames from there in order, then fail every time, and leave the capture at the end |
| Playback.EndOfStream | balena/blocks/spi-display/amusia_boogie.py:219-226 | a failed read rewinds to frame 0 for every source but the default camera. It ends the loop exactly for the default camera |
| Playback.CameraPlaysOnce | balena/blocks/spi-display/amusia_boogie.py:215-226 | without a quit key the default camera shows its remaining frames once, in order, and then the loop ends |
| Playback.RewindingCycles | balena/blocks/spi-display/amusia_boogie.py:219-224 | a rewinding source without a quit key never ends by itself. It shows its frames cyclically from the current position, at least one frame for every two passes: 2·shown + 1 ≥ passes, and 2·shown ≥ passes when the read position is before the end |
| Playback.QuitsAtFirstKey | balena/blocks/spi-display/amusia_boogie.py:231-233 | the loop quits right after showing the frame at which the first `q` key is read, and no earlier key was a `q`. Only the default camera ends by running out |
| Playback.ShownFromSource | balena/blocks/spi-display/amusia_boogie.py:215-229 | every frame shown is a frame of the source |
| Playback.RewindPass | balena/blocks/spi-display/amusia_boogie.py:222-224 | one-step unfolding of `Play` for the loop's proof: after a failed read on a rewinding source, the frames still to be shown are those of the next pass from frame 0 |
| Playback.StopPass | balena/blocks/spi-display/amusia_boogie.py:225-226 | one-step unfolding of `Play` for the loop's proof: after a failed read on the default camera, no frame remains to be shown |
| Playback.ShownPass | balena/blocks/spi-display/amusia_boogie.py:228-233 | one-step unfolding of `Play` for the loop's proof: a frame read is the next one shown, and the rest is nothing on a `q` and otherwise the next pass from the advanced capture with the next key |
| AmusiaBoogie.WriteCmd | balena/blocks/spi-display/amusia_boogie.py:54-56 | D/C low, then the one-byte command write |
| AmusiaBoogie.WriteData | balena/blocks/spi-display/amusia_boogie.py:59-61 | D/C high, then the one-byte data write |
| AmusiaBoogie.Reset | balena/blocks/spi-display/amusia_boogie.py:64-70 | the RST pulse with its three 10 ms delays, which cannot fail |
| AmusiaBoogie.SetOrientation | balena/blocks/spi-display/amusia_boogie.py:73-91 | performs the orientation script for any integer, stopping at a write that raises |
| AmusiaBoogie.Init | balena/blocks/spi-display/amusia_boogie.py:94-117 | performs the initialization script step by step. A raised write propagates, and later steps are not performed |
| AmusiaBoogie.SetWindow | balena/blocks/spi-display/amusia_boogie.py:120-136 | performs the 11-write window script, stopping at the first write that raises |
| AmusiaBoogie.ColorBits | balena/blocks/spi-display/amusia_boogie.py:143-145 | for a colour that is not negative, the two bytes are exactly `(color >> 8) & 0xFF` and `color & 0xFF` |
| AmusiaBoogie.ColorBytes | balena/blocks/spi-display/amusia_boogie.py:143-145 | `(color >> 8) & 0xFF` and `color & 0xFF` form `color` mod 65536, which is the colour itself for a 16-bit colour |
| AmusiaBoogie.ClearMatchesFrame | balena/blocks/spi-display/amusia_boogie.py:143-145 | clearing to the RGB565 value of a pixel sends the same two bytes as display_frame sends for that pixel |
| AmusiaBoogie.ClearDisplay | balena/blocks/spi-display/amusia_boogie.py:139-162 | performs the full-panel window, then D/C high, then the fill, stopping at the first write that raises |
| AmusiaBoogie.ClearPanel | balena/blocks/spi-display/amusia_boogie.py:150-162 | on the 320×240 panel clear_display makes 150 data writes of the same 1024-byte block. They carry 2·320·240 bytes |
| AmusiaBoogie.DisplayFrame | balena/blocks/spi-display/amusia_boogie.py:165-193 | converts the frame and performs the full-panel window, then D/C high, then the 4096-byte chunks. A raised write propagates |
| AmusiaBoogie.ShowFrame | balena/blocks/spi-display/amusia_boogie.py:228-229 | showing one more frame extends the script of the frames shown so far by that frame's script |
| AmusiaBoogie.StreamVideo | balena/blocks/spi-display/amusia_boogie.py:196-238 | a source that cannot be opened does nothing. Otherwise the loop performs the frame script of exactly the frames `Play` shows, and a raised write ends it |
| AmusiaBoogie.Program | balena/blocks/spi-display/amusia_boogie.py:241-256 | the program performs backlight on, init, set_orientation(1), clear_display(0) and then streaming from the default camera, in that order. The first raised write ends it |
| AmusiaBoogie.WindowKeepsMadctl | balena/blocks/spi-display/amusia_boogie.py:184-193 | the window and pixel data never change the MADCTL setting |
| AmusiaBoogie.ClearKeepsMadctl | balena/blocks/spi-display/amusia_boogie.py:139-162 | clearing the display never changes the MADCTL setting |
| AmusiaBoogie.ShowKeepsMadctl | balena/blocks/spi-display/amusia_boogie.py:228-229 | any number of frames shown never change the MADCTL setting |
| AmusiaBoogie.StartupOrientation | balena/blocks/spi-display/amusia_boogie.py:242-250 | after startup MADCTL holds 0x60: the landscape byte written last, not init's 0xA0 |
| AmusiaBoogie.ProgramOrientation | balena/blocks/spi-display/amusia_boogie.py:241-256 | MADCTL holds 0x60 for the whole of streaming, however many frames are shown |
| AmusiaBoogie.ProgramCamera | balena/blocks/spi-display/amusia_boogie.py:252-256 | with the default camera and no `q`, the program shows every camera frame once and then the loop ends |
| DisplayController.ST7789Display.constructor | balena/blocks/spi-display/display_controller.py:17-35 | stores the geometry and the pins, and switches the backlight on |
| DisplayController.ST7789Display.Create | balena/blocks/spi-display/display_controller.py:17-64 | constructing performs backlight on and then initialization. It yields a display exactly when initialization completed |
| DisplayController.ST7789Display.WriteCmd | balena/blocks/spi-display/display_controller.py:66-68 | D/C low, then the one-byte command write |
| DisplayController.ST7789Display.WriteData | balena/blocks/spi-display/display_controller.py:70-72 | D/C high, then the one-byte data write |
| DisplayController.ST7789Display.Reset | balena/blocks/spi-display/display_controller.py:74-80 | the RST pulse with its delays, which cannot fail |
| DisplayController.ST7789Display.SetOrientation | balena/blocks/spi-display/display_controller.py:82-97 | performs the orientation script for any integer |
| DisplayController.ST7789Display.InitializeDisplay | balena/blocks/spi-display/display_controller.py:99-127 | performs the initialization script. A raised write is re-raised, and later steps are not performed |
| DisplayController.ST7789Display.SetWindow | balena/blocks/spi-display/display_controller.py:129-145 | performs the 11-write window script |
| DisplayController.ST7789Display.DisplayFrame | balena/blocks/spi-display/display_controller.py:147-179 | tries the frame script: window, D/C high, chunks. It stops at the first write that raises, and the error is caught, not propagated |

## Behaviour worth noting

- Initialization sends only reset, SWRESET, SLPOUT, COLMOD 0x55, MADCTL,
  INVON, NORON and DISPON. INVON is sent unconditionally. No porch, gate, power
  or gamma tables are sent.
- set_orientation writes MADCTL for every orientation. For an orientation
  outside 0 to 3 it writes no parameter, and nothing reports the value as invalid.
  `St7789.OrientationConfigures` records that the controller is then left
  awaiting a parameter.
- A failed SPI write is caught only by display_frame in `display_controller.py`.
  In `amusia_boogie.py` nothing catches it, so it ends the program.
- Neither `display_frame` nor `stream_video` paces frames. The only wait in
  `stream_video` is the key poll `cv2.waitKey(1)` after each frame, which waits
  at most 1 ms; the model reduces it to one recorded key code per frame. Only
  the left-out `play_video` sleeps for 1/30 s.

## Left out

- Network, files and the Go servers: `play_video` and `main` of
  `display_controller.py` (HTTP fetch, temporary file, retry loop) and the Go
  video servers are outside the driver core.
- cv2: `VideoCapture`, `isOpened`, `resize` and `waitKey` are inputs of the model.
  The frames come already at panel size, `isOpen` is a parameter, and key codes
  are a recorded sequence. `release` and `destroyAllWindows` are not modelled.
- Environment configuration, `GPIO.setmode`/`setup`, SPI `open`/speed/mode,
  `GPIO.cleanup` and `spi.close`: setup and teardown with no effect on the event
  trace. The configuration is passed as constructor parameters instead.
- Timing: `time.sleep` becomes a `Delay` event with its duration in ms. No time
  passes in the model.
- Logging, `print` and `KeyboardInterrupt` are not modelled.
- Failures other than a raised `spi.writebytes` (GPIO errors, cv2 errors) are not
  modelled.
- Unused constants (NOP, RDDID, RDDST, SLPIN, PTLON, INVOFF, DISPOFF, RAMRD,
  PTLAR) and the unused `buffer_bytes = bytes(buffer)` are left out.
- Rgb565.Pack: it computes over unbounded integers. `r, g, b = pixel` makes the
  channels `numpy.uint8` scalars, and the model assumes NumPy 1.x scalar
  promotion. That evaluates `((r & 0xF8) << 8) | ...` in a wide integer type,
  which matches the model. NumPy 2 evaluates it in `uint8` instead (see
  "## Findings").
- Playback.Play: the loop has no bound of its own (it ends only on `q` or a
  failed read of the default camera), so the model follows it for a
  budget of passes. `StreamVideo` and `Program` cover the behaviour within that
  budget.
- AmusiaBoogie.DisplayFrame: requires a frame of exactly 320×240 pixels, because
  `cv2.resize` is not modelled.
- DisplayController.ST7789Display.DisplayFrame: requires a frame of the display's
  width times height pixels, because `cv2.resize` is not modelled.
- AmusiaBoogie.SetWindow: requires coordinates 0..65535, so that both bytes of
  each coordinate are bytes. What spidev sends outside that range is not modelled.
- DisplayController.ST7789Display.SetWindow: requires coordinates 0..65535, so
  that both bytes of each coordinate are bytes. What spidev sends outside that
  range is not modelled.
- DisplayController.ST7789Display.DisplayFrame: requires a width and height of
  1..65536, read from the environment without a check in the source. That keeps
  the window's end coordinates `width - 1` and `height - 1` within 0..65535. What
  spidev sends outside that range is not modelled. The constructor and
  `Create` accept any integer size, as the source does.

## Findings

| source | as written | input that shows it | evidently intended | confidence | as-written member | corrected member |
|---|---|---|---|---|---|---|
| balena/blocks/spi-display/amusia_boogie.py:178-181 | the channels are `numpy.uint8` scalars. Under NumPy 2 (NEP 50) promotion, `(r & 0xF8) << 8` stays `uint8` and is 0, so `(rgb >> 8) & 0xFF` is 0 for every pixel | pixel (255, 255, 255) is sent as 00 FF | the RGB565 value over wide integers, so that white is sent as FF FF | low: it holds only with NumPy 2 installed; under NumPy 1.x the code is right; not executed | Rgb565.Uint8White | Rgb565.White |
