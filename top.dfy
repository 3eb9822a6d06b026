/**
 * top.go: the `Top` collector of this revision. A copy goroutine appends
 * the command's output to `buffer`; on every idle tick `watch` scans the
 * buffer into `results` (not on the first tick), empties the buffer, and
 * from the second tick on offers a `NextTick`. Locking, goroutines and the
 * `top` process itself are not modelled; `watch`'s local `counter` is kept
 * as a field so that one turn of its loop is one method call.
 *
 * The output reaches the buffer through a `timeoutWriter`, modelled at the
 * end of the module.
 */
module Top {
  import opened Wrappers
  import opened GoStrings
  import opened TopParse
  import opened Stall
  import Exec

  class Top {
    /** `t.buffer`: output received since the last idle tick. */
    var buffer: string
    /** `t.scanner`: the lines of the buffer it reads... */
    var lines: seq<string>
    /** ...and how many of them it has handed out. */
    var pos: nat
    var results: seq<Process>
    /** `watch`'s count of idle ticks seen. */
    var counter: nat

    ghost predicate Valid()
      reads this
    {
      pos <= |lines|
    }

    /** `NewTop`, before any output: empty buffer, no results, no tick seen. */
    constructor ()
      ensures Valid() && buffer == "" && results == [] && counter == 0
    {
      buffer := "";
      lines := [];
      pos := 0;
      results := [];
      counter := 0;
    }

    /** `ProcessList`: the records of the last frame scanned. */
    function ProcessList(): (ps: seq<Process>)
      reads this
      ensures ps == results
    {
      results
    }

    /** The copy goroutine's `io.Copy` into `t.buffer`. */
    method Copy(p: string)
      modifies this`buffer
      ensures buffer == old(buffer) + p
    {
      buffer := buffer + p;
    }

    /** `t.scanner.Scan()` followed by `t.scanner.Text()`. */
    method Scan() returns (more: bool, text: string)
      requires Valid()
      modifies this`pos
      ensures Valid()
      ensures more <==> old(pos) < |lines|
      ensures text == LineAt(lines, old(pos))
      ensures pos == if more then old(pos) + 1 else old(pos)
    {
      more := pos < |lines|;
      text := "";
      if more {
        text := lines[pos];
        pos := pos + 1;
      }
    }

    /** `nextLine`: the next line, or "" once the input is exhausted. */
    method NextLine() returns (line: string)
      requires Valid()
      modifies this`pos
      ensures Valid()
      ensures line == LineAt(lines, old(pos))
      ensures pos == if old(pos) < |lines| then old(pos) + 1 else old(pos)
    {
      var more, text := Scan();
      line := text;
    }

    /** `nextFields`. */
    method NextFields() returns (fs: seq<string>)
      requires Valid()
      modifies this`pos
      ensures Valid()
      ensures fs == Fields(LineAt(lines, old(pos)))
      ensures pos == if old(pos) < |lines| then old(pos) + 1 else old(pos)
    {
      var line := NextLine();
      fs := Fields(line);
    }

    /** `chompHeader`: skips the eleven preamble lines, or what there is of them. */
    method ChompHeader()
      requires Valid()
      modifies this`pos
      ensures Valid()
      ensures pos == if old(pos) + PreambleLines <= |lines| then old(pos) + PreambleLines else |lines|
    {
      var skipped := NextLine(); // "Processes: ..."
      skipped := NextLine(); // date and time
      skipped := NextLine(); // "Load Avg: ..."
      skipped := NextLine(); // "CPU usage: ..."
      skipped := NextLine(); // "SharedLibs: ..."
      skipped := NextLine(); // "MemRegions: ..."
      skipped := NextLine(); // "PhysMem: ..."
      skipped := NextLine(); // "VM: ..."
      skipped := NextLine(); // "Networks: ..."
      skipped := NextLine(); // "Disks: ..."
      skipped := NextLine(); // ""
    }

    /** `scanResults` on a fresh scanner: exactly the frame the lines describe. */
    method ScanResults() returns (r: Result<seq<Process>, Fatal>)
      requires Valid() && pos == 0
      modifies this`pos
      ensures Valid()
      ensures r == FrameOf(lines)
    {
      ChompHeader();
      var fs := NextFields();
      if fs != ExpectedHeaders {
        return Err(UnexpectedFields);
      }
      assert |lines| > PreambleLines;
      assert pos == PreambleLines + 1;
      var found := ScanRows();
      r := Ok(found);
    }

    /** The `for t.scanner.Scan()` loop of `scanResults`: every remaining line, parsed, in order. */
    method ScanRows() returns (found: seq<Process>)
      requires Valid()
      modifies this`pos
      ensures Valid() && pos == |lines|
      ensures found == ParseRows(lines[old(pos)..])
    {
      ghost var start := pos;
      found := [];
      var more, text := Scan();
      while more
        invariant Valid() && start <= pos <= |lines|
        invariant more ==> start < pos && text == lines[pos - 1]
        invariant !more ==> pos == |lines|
        invariant |found| == pos - start - (if more then 1 else 0)
        invariant forall i :: 0 <= i < |found| ==> found[i] == ParseTopLine(lines[start + i])
        decreases |lines| - pos, more
      {
        var entry := ParseTopLine(text);
        found := found + [entry];
        more, text := Scan();
      }
      assert found == ParseRows(lines[start..]);
    }

    /**
     * One turn of `watch`'s loop, on an idle tick. The first tick only
     * discards the buffer; later ticks scan it (a bad header is fatal).
     * Every tick empties the buffer, and from the second on a `NextTick` is
     * offered: the result says whether one was.
     */
    method OnIdle() returns (r: Result<bool, Fatal>)
      requires Valid()
      modifies this
      ensures Valid()
      ensures old(counter) == 0 ==> r == Ok(false) && results == old(results)
      ensures old(counter) > 0 ==> lines == SplitLines(old(buffer)) && r.Ok? == FrameOf(lines).Ok?
      ensures old(counter) > 0 && r.Ok? ==> results == FrameOf(lines).value
      ensures r.Ok? ==> buffer == "" && counter == old(counter) + 1 && r.value == (counter > 1)
    {
      if counter > 0 {
        lines, pos := SplitLines(buffer), 0;
        var frame := ScanResults();
        if frame.Err? {
          return Err(frame.error);
        }
        results := frame.value;
      }
      buffer := "";
      counter := counter + 1;
      r := Ok(counter > 1);
    }
  }

  /**
   * `timeoutWriter`: the `top` command's stdout. Each write offers a
   * heartbeat without blocking and forwards the bytes to the pipe; the
   * watcher goroutine's state is kept beside it.
   */
  class TimeoutWriter {
    /** Everything forwarded to the pipe, in order. */
    var piped: seq<Exec.byte>
    /** `notifyOnTimeout`'s `stalled` flag. */
    var phase: Phase

    /** `timeoutPipe`: nothing written, watcher armed. */
    constructor ()
      ensures piped == [] && phase == Armed
    {
      piped := [];
      phase := Armed;
    }

    /**
     * `Write`: the heartbeat reaches the watcher only if it is receiving at
     * that moment (otherwise it is dropped and the write goes on); the bytes
     * go to the pipe unchanged.
     */
    method Write(p: seq<Exec.byte>, watcherReceiving: bool) returns (n: int)
      modifies this
      ensures phase == if watcherReceiving then Step(old(phase), Heartbeat).0 else old(phase)
      ensures piped == old(piped) + p
      ensures n == |p|
    {
      if watcherReceiving {
        phase := Step(phase, Heartbeat).0;
      }
      piped := piped + p;
      n := |p|;
    }

    /** The watcher's `time.After(d)` fires before any heartbeat. */
    method TimerFires(listening: bool) returns (e: Emit)
      modifies this
      ensures (phase, e) == Step(old(phase), Timeout(listening))
      ensures piped == old(piped)
      ensures e.Offered? <==> old(phase) == Armed
    {
      var (ph, out) := Step(phase, Timeout(listening));
      phase, e := ph, out;
    }
  }

  /** `notifyOnTimeout`, run over the events its loop receives. */
  method NotifyOnTimeout(events: seq<Event>) returns (stalled: bool, emits: seq<Emit>)
    ensures Run(Armed, events) == (PhaseOf(stalled), emits)
  {
    stalled := false;
    emits := [];
    for k := 0 to |events|
      invariant Run(Armed, events[..k]) == (PhaseOf(stalled), emits)
    {
      RunAppend(Armed, events[..k], events[k]);
      assert events[..k + 1] == events[..k] + [events[k]];
      if stalled {
        // Waiting on the heartbeat channel alone.
        if events[k].Heartbeat? {
          stalled := false;
        }
        emits := emits + [Quiet];
      } else {
        match events[k]
        case Heartbeat =>
          emits := emits + [Quiet];
        case Timeout(listening) =>
          stalled := true;
          emits := emits + [Offered(listening)];
      }
    }
    assert events[..|events|] == events;
  }
}
