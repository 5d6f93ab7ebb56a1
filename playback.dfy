/** The loop of stream_video in amusia_boogie.py, as decisions on values.

    The video capture is modelled as the frames its source delivers and the
    position of the next read.  Each pass of `while True` reads a frame; a
    failed read rewinds every source but the default camera (`video_path != 0`)
    and ends the loop for the default camera; a frame read is shown and then
    the key code from `cv2.waitKey(1)` decides whether to quit.  The loop has
    no bound of its own, so `Play` follows it for a budget of passes. */
module Playback {
  import opened Rgb565

  /** `video_path`: a camera index or a path to a video file */
  datatype Source = Camera(index: int) | File(path: seq<char>)

  /** `video_path != 0`: the sources that are rewound when a read fails */
  predicate Rewinds(src: Source)
  {
    src != Camera(0)
  }

  /** A frame as cv2 delivers it, already at panel size: pixels in row order */
  type Frame = seq<Triple>

  /** An open capture: the frames of its source and the index of the next one */
  datatype Capture = Capture(frames: seq<Frame>, pos: nat)

  /** `cap.read()`: the next frame, or a failed read once the frames are used up */
  datatype Read = Got(frame: Frame) | Failed

  function ReadFrame(cap: Capture): (r: (Read, Capture))
    ensures r.0.Got? <==> cap.pos < |cap.frames|
    ensures r.0.Got? ==> r.0.frame == cap.frames[cap.pos] && r.1 == Capture(cap.frames, cap.pos + 1)
    ensures r.0.Failed? ==> r.1 == cap
  {
    if cap.pos < |cap.frames| then (Got(cap.frames[cap.pos]), Capture(cap.frames, cap.pos + 1))
    else (Failed, cap)
  }

  /** `n` calls of `cap.read()` in a row: what each returned, and the capture after them */
  function ReadMany(cap: Capture, n: nat): (seq<Read>, Capture)
    decreases n
  {
    if n == 0 then ([], cap)
    else
      var r := ReadFrame(cap);
      var rest := ReadMany(r.1, n - 1);
      ([r.0] + rest.0, rest.1)
  }

  /** Reads from position `pos` return the frames from there in order, then fail every time
      and leave the capture at the end. */
  lemma {:induction false} ReadsInOrder(frames: seq<Frame>, pos: nat, n: nat)
    requires pos <= |frames|
    ensures var (rs, after) := ReadMany(Capture(frames, pos), n);
      |rs| == n &&
      (forall i :: 0 <= i < n ==> rs[i] == if pos + i < |frames| then Got(frames[pos + i]) else Failed) &&
      after == Capture(frames, if pos + n <= |frames| then pos + n else |frames|)
    decreases n
  {
    if n > 0 {
      var next := if pos < |frames| then pos + 1 else pos;
      ReadsInOrder(frames, next, n - 1);
      var rest := ReadMany(Capture(frames, next), n - 1).0;
      var rs := ReadMany(Capture(frames, pos), n).0;
      assert rs == [ReadFrame(Capture(frames, pos)).0] + rest;
      forall i | 0 < i < n
        ensures rs[i] == if pos + i < |frames| then Got(frames[pos + i]) else Failed
      {
        assert rs[i] == rest[i - 1];
      }
    }
  }

  /** `cv2.waitKey(1) & 0xFF == ord('q')`; Python's `& 0xFF` on any integer is its remainder
      modulo 256, and no key pressed reads as -1 */
  predicate QuitKey(code: int)
  {
    code % 256 == 113
  }

  /** The key codes after the one just used; once the recorded codes run out, no key is pressed. */
  function NextKeys(keys: seq<int>): seq<int>
  {
    if keys == [] then [] else keys[1..]
  }

  predicate QuitNow(keys: seq<int>)
  {
    |keys| > 0 && QuitKey(keys[0])
  }

  /** One pass of the loop body */
  datatype Pass = Show(frame: Frame, next: Capture) | Rewind(next: Capture) | Stop

  function Decide(src: Source, cap: Capture): Pass
  {
    match ReadFrame(cap).0
    case Got(frame) => Show(frame, ReadFrame(cap).1)
    case Failed => if Rewinds(src) then Rewind(Capture(cap.frames, 0)) else Stop
  }

  /** Why the loop ended: the quit key, the default camera failing to deliver, or the end of
      the budget of passes the model follows */
  datatype End = Quit | SourceEnded | Unfinished

  /** The frames shown in up to `fuel` passes of the loop, and how the loop ended */
  function Play(src: Source, cap: Capture, keys: seq<int>, fuel: nat): (seq<Frame>, End)
    decreases fuel
  {
    if fuel == 0 then ([], Unfinished)
    else match Decide(src, cap)
      case Stop => ([], SourceEnded)
      case Rewind(next) => Play(src, next, keys, fuel - 1)
      case Show(frame, next) =>
        if QuitNow(keys) then ([frame], Quit)
        else
          var rest := Play(src, next, NextKeys(keys), fuel - 1);
          ([frame] + rest.0, rest.1)
  }

  /** The end-of-stream policy: a failed read rewinds a file (or any camera but the default
      one) to frame 0 and goes on, and ends the loop for the default camera. */
  lemma EndOfStream(src: Source, cap: Capture)
    requires cap.pos >= |cap.frames|
    ensures Rewinds(src) ==> Decide(src, cap) == Rewind(Capture(cap.frames, 0))
    ensures !Rewinds(src) <==> Decide(src, cap) == Stop
    ensures src == Camera(0) <==> Decide(src, cap).Stop?
  {
  }

  predicate NoQuit(keys: seq<int>)
  {
    forall i :: 0 <= i < |keys| ==> !QuitKey(keys[i])
  }

  lemma NoQuitNext(keys: seq<int>)
    requires NoQuit(keys)
    ensures !QuitNow(keys) && NoQuit(NextKeys(keys))
  {
    if keys != [] {
      assert forall i :: 0 <= i < |keys[1..]| ==> keys[1..][i] == keys[i + 1];
    }
  }

  /** With no quit key, the default camera shows the rest of its frames once, in order, and
      then the loop ends. */
  lemma {:induction false} CameraPlaysOnce(cap: Capture, keys: seq<int>, fuel: nat)
    requires cap.pos <= |cap.frames| && fuel > |cap.frames| - cap.pos
    requires NoQuit(keys)
    ensures Play(Camera(0), cap, keys, fuel) == (cap.frames[cap.pos..], SourceEnded)
    decreases fuel
  {
    if cap.pos < |cap.frames| {
      var next := Capture(cap.frames, cap.pos + 1);
      NoQuitNext(keys);
      CameraPlaysOnce(next, NextKeys(keys), fuel - 1);
      assert cap.frames[cap.pos..] == [cap.frames[cap.pos]] + cap.frames[cap.pos + 1..];
    } else {
      assert cap.frames[cap.pos..] == [];
    }
  }

  /** `shown` goes round `frames` starting at `pos`: the `j`-th is frame `(pos + j) mod n`. */
  predicate Cycles(shown: seq<Frame>, frames: seq<Frame>, pos: nat)
    requires |frames| > 0
  {
    forall j :: 0 <= j < |shown| ==> shown[j] == frames[(pos + j) % |frames|]
  }

  /** Going round from just after `pos`, preceded by the frame at `pos`, goes round from `pos`. */
  lemma CyclesCons(shown: seq<Frame>, frames: seq<Frame>, pos: nat)
    requires pos < |frames| && Cycles(shown, frames, pos + 1)
    ensures Cycles([frames[pos]] + shown, frames, pos)
  {
    var all := [frames[pos]] + shown;
    forall j | 0 <= j < |all|
      ensures all[j] == frames[(pos + j) % |frames|]
    {
      if j == 0 {
        Bits.DivModUnique(pos, |frames|, 0, pos);
      } else {
        assert all[j] == shown[j - 1];
        assert pos + 1 + (j - 1) == pos + j;
      }
    }
  }

  /** Going round from 0 is going round from a full turn. */
  lemma CyclesTurn(shown: seq<Frame>, frames: seq<Frame>)
    requires |frames| > 0 && Cycles(shown, frames, 0)
    ensures Cycles(shown, frames, |frames|)
  {
    var n := |frames|;
    forall j | 0 <= j < |shown|
      ensures shown[j] == frames[(n + j) % n]
    {
      assert shown[j] == frames[(0 + j) % n];
      Bits.DivModUnique(n + j, n, j / n + 1, j % n);
    }
  }

  /** With no quit key, a source that rewinds never ends the loop on its own, and shows its
      frames round and round from the read position: at least one frame for every two passes,
      since a rewind is always followed by a frame. */
  lemma {:induction false} RewindingCycles(src: Source, cap: Capture, keys: seq<int>, fuel: nat)
    requires Rewinds(src) && |cap.frames| > 0 && cap.pos <= |cap.frames|
    requires NoQuit(keys)
    ensures Play(src, cap, keys, fuel).1 == Unfinished
    ensures Cycles(Play(src, cap, keys, fuel).0, cap.frames, cap.pos)
    ensures 2 * |Play(src, cap, keys, fuel).0| + 1 >= fuel
    ensures cap.pos < |cap.frames| ==> 2 * |Play(src, cap, keys, fuel).0| >= fuel
    decreases fuel
  {
    if fuel > 0 {
      if cap.pos < |cap.frames| {
        var next := Capture(cap.frames, cap.pos + 1);
        NoQuitNext(keys);
        RewindingCycles(src, next, NextKeys(keys), fuel - 1);
        var rest := Play(src, next, NextKeys(keys), fuel - 1).0;
        assert Play(src, cap, keys, fuel).0 == [cap.frames[cap.pos]] + rest;
        CyclesCons(rest, cap.frames, cap.pos);
      } else {
        var start := Capture(cap.frames, 0);
        RewindingCycles(src, start, keys, fuel - 1);
        CyclesTurn(Play(src, start, keys, fuel - 1).0, cap.frames);
      }
    }
  }

  /** The loop ends with Quit exactly at the first frame whose key code is the quit key: the
      frames before it all had other codes. */
  lemma {:induction false} QuitsAtFirstKey(src: Source, cap: Capture, keys: seq<int>, fuel: nat)
    ensures var (shown, end) := Play(src, cap, keys, fuel);
      (end == Quit ==> 0 < |shown| <= |keys| && QuitKey(keys[|shown| - 1])) &&
      (forall j :: 0 <= j < |keys| && j < |shown| - (if end == Quit then 1 else 0) ==> !QuitKey(keys[j])) &&
      (end == SourceEnded ==> src == Camera(0))
    decreases fuel
  {
    if fuel > 0 {
      match Decide(src, cap)
      case Stop =>
      case Rewind(next) => QuitsAtFirstKey(src, next, keys, fuel - 1);
      case Show(frame, next) =>
        if !QuitNow(keys) {
          QuitsAtFirstKey(src, next, NextKeys(keys), fuel - 1);
          var rest := Play(src, next, NextKeys(keys), fuel - 1);
          if keys != [] {
            assert forall j :: 0 <= j < |keys| - 1 ==> NextKeys(keys)[j] == keys[j + 1];
          }
        }
    }
  }

  /** Every frame shown is one of the source's frames. */
  lemma {:induction false} ShownFromSource(src: Source, cap: Capture, keys: seq<int>, fuel: nat)
    ensures forall j :: 0 <= j < |Play(src, cap, keys, fuel).0| ==> Play(src, cap, keys, fuel).0[j] in cap.frames
    decreases fuel
  {
    if fuel > 0 {
      match Decide(src, cap)
      case Stop =>
      case Rewind(next) => ShownFromSource(src, next, keys, fuel - 1);
      case Show(frame, next) =>
        if !QuitNow(keys) {
          ShownFromSource(src, next, NextKeys(keys), fuel - 1);
        }
    }
  }

  /** One pass of the loop whose read fails on a source that rewinds: nothing is shown and the
      loop goes round again from frame 0. */
  lemma RewindPass(all: seq<Frame>, shown: seq<Frame>, src: Source, cap: Capture, keys: seq<int>, fuel: nat)
    requires all == shown + Play(src, cap, keys, fuel).0
    requires fuel > 0 && ReadFrame(cap).0.Failed? && Rewinds(src)
    ensures all == shown + Play(src, Capture(cap.frames, 0), keys, fuel - 1).0
  {
    assert Decide(src, cap) == Rewind(Capture(cap.frames, 0));
  }

  /** One pass whose read fails on the default camera: nothing more is shown. */
  lemma StopPass(all: seq<Frame>, shown: seq<Frame>, src: Source, cap: Capture, keys: seq<int>, fuel: nat)
    requires all == shown + Play(src, cap, keys, fuel).0
    requires fuel > 0 && ReadFrame(cap).0.Failed? && !Rewinds(src)
    ensures all == shown
  {
    assert Decide(src, cap) == Stop;
    assert shown + [] == shown;
  }

  /** One pass whose read delivers a frame: the frame is shown, then the loop ends on the quit
      key or goes on from the next position with the next key code. */
  lemma ShownPass(all: seq<Frame>, shown: seq<Frame>, src: Source, cap: Capture, keys: seq<int>, fuel: nat)
    requires all == shown + Play(src, cap, keys, fuel).0
    requires fuel > 0 && ReadFrame(cap).0.Got?
    ensures var frame := ReadFrame(cap).0.frame;
      if QuitNow(keys) then all == shown + [frame]
      else all == shown + [frame] + Play(src, ReadFrame(cap).1, NextKeys(keys), fuel - 1).0
  {
    var frame := ReadFrame(cap).0.frame;
    assert Decide(src, cap) == Show(frame, ReadFrame(cap).1);
    if !QuitNow(keys) {
      var rest := Play(src, ReadFrame(cap).1, NextKeys(keys), fuel - 1).0;
      assert shown + ([frame] + rest) == shown + [frame] + rest;
    }
  }

  /** With no passes left nothing more is shown. */
  lemma NoPass(all: seq<Frame>, shown: seq<Frame>, src: Source, cap: Capture, keys: seq<int>)
    requires all == shown + Play(src, cap, keys, 0).0
    ensures all == shown
  {
    assert shown + [] == shown;
  }
}
