/**
 * exec.go: `idleWriter`, which wraps the `top` command's output writer and
 * reports when the output goes quiet. Starting and waiting for the command,
 * its pipes and `IdleCmd.Buffer` are process plumbing and are not modelled.
 */
module Exec {
  import opened Stall

  newtype byte = x: int | 0 <= x < 256

  /**
   * `idleWriter.notifyOnIdle`, run over the events its loop receives: it
   * starts armed (`stalled := false`) and emits what the watcher machine
   * emits, turn by turn.
   */
  method NotifyOnIdle(events: seq<Event>) returns (stalled: bool, emits: seq<Emit>)
    ensures Run(Armed, events) == (PhaseOf(stalled), emits)
  {
    stalled := false;
    emits := [];
    for k := 0 to |events|
      invariant Run(Armed, events[..k]) == (PhaseOf(stalled), emits)
    {
      RunAppend(Armed, events[..k], events[k]);
      assert events[..k + 1] == events[..k] + [events[k]];
      if stalled {
        // `<-w.heartbeat`: only a heartbeat ends the wait.
        if events[k].Heartbeat? {
          stalled := false;
        }
        emits := emits + [Quiet];
      } else {
        match events[k]
        case Heartbeat =>
          emits := emits + [Quiet];
        case Timeout(listening) =>
          stalled := true;
          // The idle send does not block: without a listener the tick is dropped.
          emits := emits + [Offered(listening)];
      }
    }
    assert events[..|events|] == events;
  }

  /** An `io.Writer` wrapped by `IdleWriter`, together with its watcher's state. */
  class IdleWriter {
    /** Everything the wrapped writer has been given, in order. */
    var written: seq<byte>
    /** The watcher goroutine's `stalled` flag. */
    var phase: Phase

    /** `IdleWriter(w, d, idle)`: nothing written yet, watcher armed. */
    constructor ()
      ensures written == [] && phase == Armed
    {
      written := [];
      phase := Armed;
    }

    /**
     * `Write`: a blocking heartbeat first, which the watcher always takes
     * (re-arming it), then the same bytes to the wrapped writer, whose
     * result is returned. The wrapped writer is a `bufio.Writer` of
     * 4069 * 1024 bytes in front of an `io.Pipe` whose reading end is never
     * closed, so a write may wait for the reader but always completes with
     * `len(p)`; the waiting is not modelled.
     */
    method Write(p: seq<byte>) returns (n: int)
      modifies this
      ensures phase == Step(old(phase), Heartbeat).0 == Armed
      ensures written == old(written) + p
      ensures n == |p|
    {
      phase := Step(phase, Heartbeat).0;
      written := written + p;
      n := |p|;
    }

    /** The watcher's timer fires before any heartbeat. */
    method TimerFires(listening: bool) returns (e: Emit)
      modifies this
      ensures (phase, e) == Step(old(phase), Timeout(listening))
      ensures written == old(written)
      ensures e.Offered? <==> old(phase) == Armed
    {
      var (ph, out) := Step(phase, Timeout(listening));
      phase, e := ph, out;
    }
  }
}
