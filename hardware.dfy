/** The hardware the drivers talk to: GPIO output lines and one SPI bus.

    Everything the drivers do to the hardware is recorded as an append-only
    trace of events.  An SPI write can raise; which writes do is not known to
    the driver, so the board carries a fault oracle: the set of ordinal numbers
    (0 for the first write ever attempted, 1 for the next, ...) of the writes
    that fail.  A failed write is recorded as `SpiError` and reported to the
    caller, as spidev's `writebytes` raises an exception. */
module Hardware {

  type byte = x: int | 0 <= x < 256

  datatype Level = Low | High

  datatype Event =
    | SetPin(pin: nat, level: Level)    // GPIO.output(pin, level)
    | SpiWrite(bytes: seq<byte>)        // spi.writebytes(bytes), completed
    | SpiError(bytes: seq<byte>)        // spi.writebytes(bytes), raised
    | Delay(ms: nat)                    // time.sleep(ms / 1000)

  /** Number of SPI writes a script asks for. */
  function Writes(script: seq<Event>): nat
  {
    if script == [] then 0
    else (if script[0].SpiWrite? then 1 else 0) + Writes(script[1..])
  }

  /** What running a script does when the next SPI write has ordinal `n`. */
  datatype Outcome = Outcome(events: seq<Event>, attempts: nat, ok: bool)

  /** No write with ordinal in `[n, n + count)` fails. */
  ghost predicate Clear(n: nat, count: nat, faults: set<nat>)
  {
    forall k :: n <= k < n + count ==> k !in faults
  }

  /** Runs `script` in order, stopping after the first SPI write that fails.
      On success exactly the script is performed. */
  function Run(script: seq<Event>, n: nat, faults: set<nat>): Outcome
    decreases |script|
  {
    if script == [] then Outcome([], 0, true)
    else
      var e := script[0];
      if e.SpiWrite? && n in faults then Outcome([SpiError(e.bytes)], 1, false)
      else
        var o := Run(script[1..], if e.SpiWrite? then n + 1 else n, faults);
        Outcome([e] + o.events, (if e.SpiWrite? then 1 else 0) + o.attempts, o.ok)
  }

  /** A script completes exactly when none of the writes it attempts is a faulty one. */
  lemma {:induction false} RunCompletes(script: seq<Event>, n: nat, faults: set<nat>)
    ensures Run(script, n, faults).ok <==> Clear(n, Writes(script), faults)
    decreases |script|
  {
    if script != [] {
      var e := script[0];
      var next := if e.SpiWrite? then n + 1 else n;
      RunCompletes(script[1..], next, faults);
      if e.SpiWrite? && n in faults {
        assert !Clear(n, Writes(script), faults);
      }
    }
  }

  /** A script that completes has performed exactly its events and attempted exactly its writes. */
  lemma {:induction false} RunPerforms(script: seq<Event>, n: nat, faults: set<nat>)
    ensures var o := Run(script, n, faults);
      o.ok ==> o.events == script && o.attempts == Writes(script)
    decreases |script|
  {
    if script != [] {
      var e := script[0];
      RunPerforms(script[1..], if e.SpiWrite? then n + 1 else n, faults);
      assert [e] + script[1..] == script;
    }
  }

  /** A script that fails has performed the events before its `k`-th, the `k`-th
      being a write whose ordinal is faulty, and then records that write's error. */
  lemma {:induction false} RunStops(script: seq<Event>, n: nat, faults: set<nat>)
    requires !Run(script, n, faults).ok
    ensures var o := Run(script, n, faults); var k := |o.events| - 1;
      0 <= k < |script| && script[k].SpiWrite? &&
      o.events == script[..k] + [SpiError(script[k].bytes)] &&
      o.attempts == Writes(script[..k]) + 1 && n + Writes(script[..k]) in faults
    decreases |script|
  {
    var e := script[0];
    if e.SpiWrite? && n in faults {
      assert script[..0] == [];
    } else {
      var next := if e.SpiWrite? then n + 1 else n;
      var rest := script[1..];
      RunStops(rest, next, faults);
      var o := Run(rest, next, faults);
      assert Run(script, n, faults) == Outcome([e] + o.events, (if e.SpiWrite? then 1 else 0) + o.attempts, o.ok);
      var k := |o.events| - 1;
      assert script[..k + 1] == [e] + rest[..k];
      assert Writes(script[..k + 1]) == (if e.SpiWrite? then 1 else 0) + Writes(rest[..k]) by {
        assert script[..k + 1][1..] == rest[..k];
      }
    }
  }

  lemma {:induction false} WritesAppend(a: seq<Event>, b: seq<Event>)
    ensures Writes(a + b) == Writes(a) + Writes(b)
    decreases |a|
  {
    if a == [] {
      assert a + b == b;
    } else {
      assert (a + b)[1..] == a[1..] + b;
      WritesAppend(a[1..], b);
    }
  }

  /** Running `a + b` runs `a`, then, if `a` completed, runs `b` from where `a` left the bus. */
  lemma {:induction false} RunAppend(a: seq<Event>, b: seq<Event>, n: nat, faults: set<nat>)
    ensures Run(a + b, n, faults) ==
      var oa := Run(a, n, faults);
      if oa.ok then
        var ob := Run(b, n + oa.attempts, faults);
        Outcome(oa.events + ob.events, oa.attempts + ob.attempts, ob.ok)
      else oa
    decreases |a|
  {
    if a == [] {
      assert a + b == b;
    } else {
      var e := a[0];
      assert (a + b)[0] == e && (a + b)[1..] == a[1..] + b;
      if !(e.SpiWrite? && n in faults) {
        var next := if e.SpiWrite? then n + 1 else n;
        RunAppend(a[1..], b, next, faults);
        var oa := Run(a[1..], next, faults);
        if oa.ok {
          var ob := Run(b, next + oa.attempts, faults);
          assert [e] + (oa.events + ob.events) == ([e] + oa.events) + ob.events;
        }
      }
    }
  }

  /** The observable state of the bus: what has happened and how many writes were attempted. */
  datatype Snapshot = Snapshot(trace: seq<Event>, writes: nat)

  /** Going from `before` to `after` is exactly the effect of running `script`, with result `ok`:
      a completed script has been performed as it stands and none of its writes was a faulty
      one; a failed one has been performed by `Run` up to the write that raised. */
  ghost predicate Performs(before: Snapshot, after: Snapshot, faults: set<nat>, script: seq<Event>, ok: bool)
  {
    if ok then
      Clear(before.writes, Writes(script), faults) &&
      after == Snapshot(before.trace + script, before.writes + Writes(script))
    else
      var o := Run(script, before.writes, faults);
      !o.ok && after == Snapshot(before.trace + o.events, before.writes + o.attempts)
  }

  /** Performs is what `Run` does, whichever way the script ends. */
  lemma PerformsRun(before: Snapshot, after: Snapshot, faults: set<nat>, script: seq<Event>, ok: bool)
    ensures Performs(before, after, faults, script, ok) <==>
      var o := Run(script, before.writes, faults);
      after == Snapshot(before.trace + o.events, before.writes + o.attempts) && ok == o.ok
  {
    RunCompletes(script, before.writes, faults);
    RunPerforms(script, before.writes, faults);
  }

  lemma Nothing(s: Snapshot, faults: set<nat>)
    ensures Performs(s, s, faults, [], true)
  {
    assert s.trace + [] == s.trace;
  }

  /** Sequential composition: `a` completed, then `b` ran. */
  lemma Then(s0: Snapshot, s1: Snapshot, s2: Snapshot, faults: set<nat>, a: seq<Event>, b: seq<Event>, ok: bool)
    requires Performs(s0, s1, faults, a, true)
    requires Performs(s1, s2, faults, b, ok)
    ensures Performs(s0, s2, faults, a + b, ok)
  {
    PerformsRun(s0, s1, faults, a, true);
    PerformsRun(s1, s2, faults, b, ok);
    PerformsRun(s0, s2, faults, a + b, ok);
    var oa, ob := Run(a, s0.writes, faults), Run(b, s1.writes, faults);
    RunAppend(a, b, s0.writes, faults);
    SeqAssoc(s0.trace, oa.events, ob.events);
  }

  lemma SeqAssoc<T>(x: seq<T>, y: seq<T>, z: seq<T>)
    ensures x + y + z == x + (y + z)
  {
  }

  /** A failure inside a prefix of a script is the failure of the whole script. */
  lemma Abort(s0: Snapshot, s1: Snapshot, faults: set<nat>, done: seq<Event>, script: seq<Event>)
    requires Performs(s0, s1, faults, done, false)
    requires done <= script
    ensures Performs(s0, s1, faults, script, false)
  {
    assert script == done + script[|done|..];
    RunAppend(done, script[|done|..], s0.writes, faults);
  }

  /** From `before` to `after` the script ran until it completed or its first write failed:
      the effect of a caller that catches the failure and carries on. */
  ghost predicate Tries(before: Snapshot, after: Snapshot, faults: set<nat>, script: seq<Event>)
  {
    Performs(before, after, faults, script, Run(script, before.writes, faults).ok)
  }

  /** Whichever way a script ended, catching its failure is trying it. */
  lemma Caught(before: Snapshot, after: Snapshot, faults: set<nat>, script: seq<Event>, ok: bool)
    requires Performs(before, after, faults, script, ok)
    ensures Tries(before, after, faults, script)
  {
    PerformsRun(before, after, faults, script, ok);
  }

  /** A script that failed stays failed whatever was to follow it. */
  lemma AbortRest(s0: Snapshot, s1: Snapshot, faults: set<nat>, done: seq<Event>, rest: seq<Event>)
    requires Performs(s0, s1, faults, done, false)
    ensures Performs(s0, s1, faults, done + rest, false)
  {
    Abort(s0, s1, faults, done, done + rest);
  }

  /** The bytes the bus carried: the contents of the completed writes, in order. */
  function Payload(events: seq<Event>): seq<byte>
  {
    if events == [] then []
    else (if events[0].SpiWrite? then events[0].bytes else []) + Payload(events[1..])
  }

  lemma {:induction false} PayloadAppend(a: seq<Event>, b: seq<Event>)
    ensures Payload(a + b) == Payload(a) + Payload(b)
    decreases |a|
  {
    if a == [] {
      assert a + b == b;
    } else {
      assert (a + b)[0] == a[0] && (a + b)[1..] == a[1..] + b;
      PayloadAppend(a[1..], b);
    }
  }

  /** The GPIO lines and the SPI bus of the board the panel is wired to. */
  class Board {
    var trace: seq<Event>
    var writes: nat
    const faults: set<nat>

    function State(): Snapshot
      reads this
    {
      Snapshot(trace, writes)
    }

    constructor (faults: set<nat>)
      ensures trace == [] && writes == 0 && this.faults == faults
    {
      trace, writes := [], 0;
      this.faults := faults;
    }

    /** GPIO.output(pin, level) */
    method Output(pin: nat, level: Level)
      modifies this
      ensures Performs(old(State()), State(), faults, [SetPin(pin, level)], true)
    {
      trace := trace + [SetPin(pin, level)];
    }

    /** spi.writebytes(bytes); `ok` is false where spidev raises */
    method WriteBytes(bytes: seq<byte>) returns (ok: bool)
      modifies this
      ensures Performs(old(State()), State(), faults, [SpiWrite(bytes)], ok)
    {
      ok := writes !in faults;
      trace := trace + [if ok then SpiWrite(bytes) else SpiError(bytes)];
      writes := writes + 1;
      assert [SpiWrite(bytes)][..0] == [];
    }

    /** time.sleep(ms / 1000): recorded, not timed */
    method Sleep(ms: nat)
      modifies this
      ensures Performs(old(State()), State(), faults, [Delay(ms)], true)
    {
      trace := trace + [Delay(ms)];
    }
  }
}
