/** Bulk transfers to display RAM.

    After RAMWR and with D/C high, both drivers stream pixel bytes without
    touching the D/C line again: display_frame sends the converted frame in
    chunks of 4096 bytes, clear_display sends blocks of 1024 bytes of one
    colour and then a shorter block for the pixels left over.  This module
    gives the event scripts of those transfers, the scripts of the whole
    frame and clear operations, and the chunk loop itself. */
module Transfer {
  import opened Hardware
  import opened St7789

  /** display_frame's chunk size, in bytes */
  const CHUNK_SIZE: nat := 4096

  /** clear_display's block: 1024 bytes, that is 512 pixels of two bytes */
  const BLOCK_PIXELS: nat := 512

  // ---------------------------------------------------------------------------
  // Chunked writes of a buffer

  /** The writes of `for i in range(0, len(buffer), size): spi.writebytes(buffer[i:i+size])` */
  function ChunkEvents(buffer: seq<byte>, size: nat): seq<Event>
    requires size > 0
    decreases |buffer|
  {
    if buffer == [] then []
    else
      var n := if |buffer| < size then |buffer| else size;
      [SpiWrite(buffer[..n])] + ChunkEvents(buffer[n..], size)
  }

  /** The chunk starting at `i` is `buffer[i:i+size]`, with Python's clamping of the end. */
  lemma ChunkAt(buffer: seq<byte>, size: nat, i: nat)
    requires size > 0 && i < |buffer|
    ensures var end := if i + size <= |buffer| then i + size else |buffer|;
      ChunkEvents(buffer[i..], size) == [SpiWrite(buffer[i..end])] + ChunkEvents(buffer[end..], size)
  {
    var end := if i + size <= |buffer| then i + size else |buffer|;
    assert buffer[i..][..end - i] == buffer[i..end];
    assert buffer[i..][end - i..] == buffer[end..];
  }

  /** Putting the chunks back together gives the buffer, byte for byte. */
  lemma {:induction false} ChunksReassemble(buffer: seq<byte>, size: nat)
    requires size > 0
    ensures Payload(ChunkEvents(buffer, size)) == buffer
    decreases |buffer|
  {
    if buffer != [] {
      var n := if |buffer| < size then |buffer| else size;
      var e := ChunkEvents(buffer, size);
      ChunksReassemble(buffer[n..], size);
      assert e[0] == SpiWrite(buffer[..n]) && e[1..] == ChunkEvents(buffer[n..], size);
      assert buffer[..n] + buffer[n..] == buffer;
    }
  }

  /** A buffer of `L` bytes goes out in `ceil(L / size)` writes, each of between one and
      `size` bytes, and every write but the last is a full `size` bytes. */
  lemma {:induction false} ChunkShapes(buffer: seq<byte>, size: nat)
    requires size > 0
    ensures var e := ChunkEvents(buffer, size);
      |e| == (|buffer| + size - 1) / size &&
      (forall i :: 0 <= i < |e| ==> e[i].SpiWrite? && 0 < |e[i].bytes| <= size) &&
      (forall i :: 0 <= i < |e| - 1 ==> |e[i].bytes| == size)
    decreases |buffer|
  {
    var L := |buffer|;
    if buffer == [] {
      Bits.DivModUnique(size - 1, size, 0, size - 1);
    } else {
      var n := if L < size then L else size;
      var e, rest := ChunkEvents(buffer, size), ChunkEvents(buffer[n..], size);
      ChunkShapes(buffer[n..], size);
      assert e == [SpiWrite(buffer[..n])] + rest;
      CeilStep(L, size);
      forall i | 0 <= i < |e|
        ensures e[i].SpiWrite? && 0 < |e[i].bytes| <= size
        ensures i < |e| - 1 ==> |e[i].bytes| == size
      {
        if i > 0 {
          assert e[i] == rest[i - 1];
        }
      }
    }
  }

  /** `ceil(L / size)` is one more than the count for what is left after one chunk. */
  lemma CeilStep(L: nat, size: nat)
    requires 0 < L && 0 < size
    ensures var rest := if L < size then 0 else L - size;
      (L + size - 1) / size == 1 + (rest + size - 1) / size
  {
    if L <= size {
      Bits.DivModUnique(L + size - 1, size, 1, L - 1);
      Bits.DivModUnique(size - 1, size, 0, size - 1);
    } else {
      var q, r := (L - 1) / size, (L - 1) % size;
      assert L - 1 == size * q + r;
      assert L + size - 1 == size * (q + 1) + r;
      Bits.DivModUnique(L + size - 1, size, q + 1, r);
    }
  }

  /** A script of writes only attempts one write per event. */
  lemma {:induction false} OnlyWrites(e: seq<Event>)
    requires forall i :: 0 <= i < |e| ==> e[i].SpiWrite?
    ensures Writes(e) == |e|
    decreases |e|
  {
    if e != [] {
      assert forall i :: 0 <= i < |e[1..]| ==> e[1..][i] == e[i + 1];
      OnlyWrites(e[1..]);
    }
  }

  lemma LatchAppend(a: seq<byte>, b: seq<byte>, level: Level)
    ensures Latch(a + b, level) == Latch(a, level) + Latch(b, level)
  {
  }

  /** Writes alone deliver their bytes at the D/C level already set, and leave it alone. */
  lemma {:induction false} WritesReceived(e: seq<Event>, dc: nat, level: Level)
    requires forall i :: 0 <= i < |e| ==> e[i].SpiWrite?
    ensures Received(e, dc, level) == Latch(Payload(e), level)
    ensures LevelAfter(e, dc, level) == level
    decreases |e|
  {
    if e != [] {
      assert forall i :: 0 <= i < |e[1..]| ==> e[1..][i] == e[i + 1];
      WritesReceived(e[1..], dc, level);
      LatchAppend(e[0].bytes, Payload(e[1..]), level);
    }
  }

  // ---------------------------------------------------------------------------
  // Solid fill in blocks

  /** `[high, low] * n`: `n` pixels of one colour */
  function Fill(high: byte, low: byte, n: nat): seq<byte>
  {
    if n == 0 then [] else Fill(high, low, n - 1) + [high, low]
  }

  /** The fill alternates the high and the low byte, starting with the high one. */
  lemma {:induction false} FillLayout(high: byte, low: byte, n: nat)
    ensures |Fill(high, low, n)| == 2 * n
    ensures forall i :: 0 <= i < 2 * n ==> Fill(high, low, n)[i] == if i % 2 == 0 then high else low
  {
    if n > 0 {
      FillLayout(high, low, n - 1);
    }
  }

  lemma {:induction false} FillAppend(high: byte, low: byte, m: nat, n: nat)
    ensures Fill(high, low, m + n) == Fill(high, low, m) + Fill(high, low, n)
    decreases n
  {
    if n > 0 {
      FillAppend(high, low, m, n - 1);
    }
  }

  /** `k` writes of the same block */
  function Blocks(block: seq<byte>, k: nat): seq<Event>
  {
    if k == 0 then [] else Blocks(block, k - 1) + [SpiWrite(block)]
  }

  lemma {:induction false} BlocksShape(block: seq<byte>, k: nat)
    ensures |Blocks(block, k)| == k
    ensures forall i :: 0 <= i < k ==> Blocks(block, k)[i] == SpiWrite(block)
  {
    if k > 0 {
      BlocksShape(block, k - 1);
    }
  }

  lemma {:induction false} BlocksPrefix(block: seq<byte>, j: nat, k: nat)
    requires j <= k
    ensures Blocks(block, j) <= Blocks(block, k)
    decreases k
  {
    if j < k {
      BlocksPrefix(block, j, k - 1);
    }
  }

  /** `k` blocks of `m` pixels carry `m * k` pixels. */
  lemma {:induction false} BlocksPayload(high: byte, low: byte, m: nat, k: nat)
    ensures Payload(Blocks(Fill(high, low, m), k)) == Fill(high, low, m * k)
  {
    if k > 0 {
      var b := Fill(high, low, m);
      BlocksPayload(high, low, m, k - 1);
      PayloadAppend(Blocks(b, k - 1), [SpiWrite(b)]);
      PayloadOne(b);
      MulStep(m, k);
      FillAppend(high, low, m * (k - 1), m);
    }
  }

  lemma PayloadOne(b: seq<byte>)
    ensures Payload([SpiWrite(b)]) == b
  {
    assert Payload([SpiWrite(b)]) == b + Payload([]);
  }

  lemma MulStep(m: nat, k: nat)
    requires k > 0
    ensures m * (k - 1) + m == m * k
  {
  }

  /** The write for the pixels left over after the whole blocks, if there are any */
  function Remainder(high: byte, low: byte, n: nat): seq<Event>
  {
    if n > 0 then [SpiWrite(Fill(high, low, n))] else []
  }

  /** clear_display's writes for `total` pixels: whole blocks of 512 pixels, then the rest */
  function FillEvents(high: byte, low: byte, total: nat): seq<Event>
  {
    Blocks(Fill(high, low, BLOCK_PIXELS), total / BLOCK_PIXELS) + Remainder(high, low, total % BLOCK_PIXELS)
  }

  /** `k` blocks of `m` pixels and then the remainder write carry `m * k + r` pixels. */
  lemma BlocksThenRemainder(high: byte, low: byte, m: nat, k: nat, r: nat)
    ensures Payload(Blocks(Fill(high, low, m), k) + Remainder(high, low, r)) == Fill(high, low, m * k + r)
  {
    var blocks, rest := Blocks(Fill(high, low, m), k), Remainder(high, low, r);
    var n: nat := m * k;
    BlocksPayload(high, low, m, k);
    RemainderPayload(high, low, r);
    PayloadAppend(blocks, rest);
    FillAppend(high, low, n, r);
  }

  lemma RemainderPayload(high: byte, low: byte, r: nat)
    ensures Payload(Remainder(high, low, r)) == Fill(high, low, r)
  {
    if r > 0 {
      assert Payload(Remainder(high, low, r)) == Fill(high, low, r) + Payload([]);
    }
  }

  /** The blocks and the remainder together carry exactly `total` pixels of the colour. */
  lemma FillDelivers(high: byte, low: byte, total: nat)
    ensures Payload(FillEvents(high, low, total)) == Fill(high, low, total)
  {
    var k, r := total / BLOCK_PIXELS, total % BLOCK_PIXELS;
    BlocksThenRemainder(high, low, BLOCK_PIXELS, k, r);
    assert BLOCK_PIXELS * k + r == total;
  }

  /** `total / 512` writes of 1024 bytes, then one of `2 * (total % 512)` bytes exactly when
      that remainder is not zero. */
  lemma FillShape(high: byte, low: byte, total: nat)
    ensures var e, k, r := FillEvents(high, low, total), total / 512, total % 512;
      |e| == k + (if r > 0 then 1 else 0) && Writes(e) == |e| &&
      (forall i :: 0 <= i < k ==> e[i].SpiWrite? && |e[i].bytes| == 1024) &&
      (r > 0 ==> e[k].SpiWrite? && |e[k].bytes| == 2 * r)
  {
    var k, r := total / 512, total % 512;
    var blocks := Blocks(Fill(high, low, 512), k);
    BlocksShape(Fill(high, low, 512), k);
    FillLayout(high, low, 512);
    FillLayout(high, low, r);
    var e := FillEvents(high, low, total);
    assert forall i :: 0 <= i < k ==> e[i] == blocks[i];
    OnlyWrites(e);
  }

  /** On the 320 by 240 panel the fill is exactly 150 whole blocks: no remainder write. */
  lemma FillPanel(high: byte, low: byte, total: nat)
    requires total == 320 * 240
    ensures FillEvents(high, low, total) == Blocks(Fill(high, low, 512), 150)
  {
    assert total / 512 == 150 && total % 512 == 0;
  }

  // ---------------------------------------------------------------------------
  // Whole operations

  predicate Extent(n: int)
  {
    1 <= n <= 0x10000
  }

  /** The window over the whole panel, as `set_window(0, 0, width-1, height-1)` sends it */
  function PanelWindow(dc: nat, width: nat, height: nat): seq<Event>
    requires Extent(width) && Extent(height)
  {
    Send(dc, WindowPackets(0, 0, width - 1, height - 1))
  }

  /** display_frame after the conversion: the window, D/C high, then the buffer in chunks */
  function FrameEvents(dc: nat, width: nat, height: nat, buffer: seq<byte>): seq<Event>
    requires Extent(width) && Extent(height)
  {
    PanelWindow(dc, width, height) + [SetPin(dc, High)] + ChunkEvents(buffer, CHUNK_SIZE)
  }

  /** clear_display: the window, D/C high, then the pixels of one colour in blocks */
  function ClearEvents(dc: nat, width: nat, height: nat, high: byte, low: byte): seq<Event>
    requires Extent(width) && Extent(height)
  {
    PanelWindow(dc, width, height) + [SetPin(dc, High)] + FillEvents(high, low, width * height)
  }

  /** After the window and the D/C line set high, only writes follow, so the controller
      takes every byte of `data` as pixel data. */
  lemma PixelPhase(dc: nat, width: nat, height: nat, data: seq<Event>, level: Level)
    requires Extent(width) && Extent(height)
    requires forall i :: 0 <= i < |data| ==> data[i].SpiWrite?
    ensures var w := PanelWindow(dc, width, height);
      Received(w + [SetPin(dc, High)] + data, dc, level) ==
        WindowPackets(0, 0, width - 1, height - 1) + Latch(Payload(data), High) &&
      PinLevels(w + [SetPin(dc, High)] + data, dc) == PinLevels(w, dc) + [High] &&
      Writes(w + [SetPin(dc, High)] + data) == 11 + |data|
  {
    var w := PanelWindow(dc, width, height);
    var p: seq<Event> := [SetPin(dc, High)];
    WindowDelivers(dc, 0, 0, width - 1, height - 1, level);
    SendDelivers(dc, WindowPackets(0, 0, width - 1, height - 1), level);
    ReceivedAppend(w, p, dc, level);
    LevelAfterAppend(w, p, dc, level);
    assert p[1..] == [];
    assert Received(p, dc, Low) == [] && LevelAfter(p, dc, Low) == High;
    ReceivedAppend(w + p, data, dc, level);
    WritesReceived(data, dc, High);
    PinLevelsAppend(w, p, dc);
    PinLevelsAppend(w + p, data, dc);
    PinLevelsOne(SetPin(dc, High), dc);
    NoPins(data, dc);
    WritesAppend(w, p);
    WritesAppend(w + p, data);
    OnlyWrites(data);
  }

  lemma {:induction false} NoPins(e: seq<Event>, pin: nat)
    requires forall i :: 0 <= i < |e| ==> e[i].SpiWrite?
    ensures PinLevels(e, pin) == []
    decreases |e|
  {
    if e != [] {
      assert forall i :: 0 <= i < |e[1..]| ==> e[1..][i] == e[i + 1];
      NoPins(e[1..], pin);
    }
  }

  /** A frame reaches the controller as the window over the whole panel followed by every
      byte of the buffer as pixel data.  D/C goes high once, after the window, and stays high
      through all `ceil(L / 4096)` chunk writes. */
  lemma FrameDelivers(dc: nat, width: nat, height: nat, buffer: seq<byte>, level: Level)
    requires Extent(width) && Extent(height)
    ensures var e := FrameEvents(dc, width, height, buffer);
      Received(e, dc, level) == WindowPackets(0, 0, width - 1, height - 1) + Latch(buffer, High) &&
      PinLevels(e, dc) == PinLevels(PanelWindow(dc, width, height), dc) + [High] &&
      Writes(e) == 11 + (|buffer| + CHUNK_SIZE - 1) / CHUNK_SIZE
  {
    ChunkShapes(buffer, CHUNK_SIZE);
    ChunksReassemble(buffer, CHUNK_SIZE);
    PixelPhase(dc, width, height, ChunkEvents(buffer, CHUNK_SIZE), level);
  }

  /** Clearing reaches the controller as the window over the whole panel followed by
      `width * height` pixels of the colour, high byte first; D/C goes high once. */
  lemma ClearDelivers(dc: nat, width: nat, height: nat, high: byte, low: byte, level: Level)
    requires Extent(width) && Extent(height)
    ensures var e := ClearEvents(dc, width, height, high, low);
      Received(e, dc, level) == WindowPackets(0, 0, width - 1, height - 1) + Latch(Fill(high, low, width * height), High) &&
      PinLevels(e, dc) == PinLevels(PanelWindow(dc, width, height), dc) + [High]
  {
    var total := width * height;
    FillShape(high, low, total);
    FillDelivers(high, low, total);
    PixelPhase(dc, width, height, FillEvents(high, low, total), level);
  }

  // ---------------------------------------------------------------------------
  // The chunk loop

  /** `for i in range(0, len(buffer), size): spi.writebytes(buffer[i:i+size])`; stops at the
      first write that raises. */
  method SendChunks(hw: Board, buffer: seq<byte>, size: nat) returns (ok: bool)
    requires size > 0
    modifies hw
    ensures Performs(old(hw.State()), hw.State(), hw.faults, ChunkEvents(buffer, size), ok)
  {
    ghost var s0 := hw.State();
    ghost var script := ChunkEvents(buffer, size);
    ghost var done: seq<Event> := [];
    assert buffer[0..] == buffer && script == done + script;
    ok := true;
    var i := 0;
    while i < |buffer|
      invariant script == done + ChunkEvents(buffer[Clamp(i, |buffer|)..], size)
      invariant Performs(s0, hw.State(), hw.faults, done, true)
      invariant ok
    {
      var end := if i + size <= |buffer| then i + size else |buffer|;
      var chunk := buffer[i..end];
      ChunkStep(script, done, buffer, size, i);
      ghost var s1 := hw.State();
      ok := hw.WriteBytes(chunk);
      WriteStep(s0, s1, hw.State(), hw.faults, script, done, [SpiWrite(chunk)], ChunkEvents(buffer[end..], size), ok);
      if !ok {
        return;
      }
      done := done + [SpiWrite(chunk)];
      i := i + size;
    }
    ChunkEnd(script, done, buffer, size, i);
  }

  /** One write of a loop, after `done` and before `rest`: completed, it extends what was
      done; failed, it ends the whole script. */
  lemma WriteStep(s0: Snapshot, s1: Snapshot, s2: Snapshot, faults: set<nat>,
                  script: seq<Event>, done: seq<Event>, step: seq<Event>, rest: seq<Event>, ok: bool)
    requires script == done + step + rest
    requires Performs(s0, s1, faults, done, true)
    requires Performs(s1, s2, faults, step, ok)
    ensures ok ==> Performs(s0, s2, faults, done + step, true)
    ensures !ok ==> Performs(s0, s2, faults, script, false)
  {
    Then(s0, s1, s2, faults, done, step, ok);
    if !ok {
      AbortRest(s0, s2, faults, done + step, rest);
    }
  }

  /** Python's clamping of a slice start to the length */
  function Clamp(i: nat, n: nat): nat
  {
    if i <= n then i else n
  }

  /** One turn of the chunk loop: the chunk at `i` is the next write of the script. */
  lemma ChunkStep(script: seq<Event>, done: seq<Event>, buffer: seq<byte>, size: nat, i: nat)
    requires size > 0 && i < |buffer|
    requires script == done + ChunkEvents(buffer[Clamp(i, |buffer|)..], size)
    ensures var end := if i + size <= |buffer| then i + size else |buffer|;
      end == Clamp(i + size, |buffer|) &&
      script == done + [SpiWrite(buffer[i..end])] + ChunkEvents(buffer[end..], size)
  {
    var end := if i + size <= |buffer| then i + size else |buffer|;
    ChunkAt(buffer, size, i);
    SeqAssoc(done, [SpiWrite(buffer[i..end])], ChunkEvents(buffer[end..], size));
  }

  /** Past the end of the buffer the loop has sent the whole script. */
  lemma ChunkEnd(script: seq<Event>, done: seq<Event>, buffer: seq<byte>, size: nat, i: nat)
    requires size > 0 && i >= |buffer|
    requires script == done + ChunkEvents(buffer[Clamp(i, |buffer|)..], size)
    ensures script == done
  {
    assert buffer[Clamp(i, |buffer|)..] == [];
    assert done + [] == done;
  }

  // ---------------------------------------------------------------------------
  // The fill loop

  /** clear_display after D/C is raised: `total // 512` writes of the 1024-byte block
      `[high, low] * 512`, then one write of the pixels left over, if any; stops at the first
      write that raises. */
  method SendFill(hw: Board, high: byte, low: byte, total: nat) returns (ok: bool)
    modifies hw
    ensures Performs(old(hw.State()), hw.State(), hw.faults, FillEvents(high, low, total), ok)
  {
    ghost var s0 := hw.State();
    var bufferSize := 1024;
    var colorBytes := Fill(high, low, bufferSize / 2);
    var chunks := total / (bufferSize / 2);
    var remaining := total % (bufferSize / 2);
    ghost var script := FillEvents(high, low, total);
    assert script == Blocks(colorBytes, chunks) + Remainder(high, low, remaining);
    Nothing(s0, hw.faults);
    ok := true;
    var i := 0;
    while i < chunks
      invariant 0 <= i <= chunks
      invariant Performs(s0, hw.State(), hw.faults, Blocks(colorBytes, i), true)
      invariant ok
    {
      ghost var s := hw.State();
      ok := hw.WriteBytes(colorBytes);
      Then(s0, s, hw.State(), hw.faults, Blocks(colorBytes, i), [SpiWrite(colorBytes)], ok);
      if !ok {
        BlocksPrefix(colorBytes, i + 1, chunks);
        assert Blocks(colorBytes, chunks) <= script;
        Abort(s0, hw.State(), hw.faults, Blocks(colorBytes, i + 1), script);
        return;
      }
      i := i + 1;
    }
    if remaining > 0 {
      ghost var s := hw.State();
      ok := hw.WriteBytes(Fill(high, low, remaining));
      Then(s0, s, hw.State(), hw.faults, Blocks(colorBytes, chunks), [SpiWrite(Fill(high, low, remaining))], ok);
      assert Performs(s0, hw.State(), hw.faults, Blocks(colorBytes, chunks) + Remainder(high, low, remaining), ok);
    } else {
      assert script == Blocks(colorBytes, chunks) + [] == Blocks(colorBytes, chunks);
    }
  }
}
