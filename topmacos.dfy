/**
 * top_macos.go: the `Top` collector of the macOS revision. The command runs
 * under an `IdleCmd` (exec.go), whose `BufStdout` collects the output and
 * whose `Idle` channel ticks when the output goes quiet; on every tick
 * `watch` scans the buffer (not on the first tick, which comes before any
 * output), empties it, and from the second tick on offers a `NextTick`,
 * since macOS `top`'s first figures are meaningless. `BufStdout` is not
 * declared in exec.go; it is modelled as the text the command has written.
 * The parsing it shares with top.go is module TopParse.
 */
module TopMacos {
  import opened Wrappers
  import opened GoStrings
  import opened TopParse

  class Top {
    /** `t.cmd.BufStdout`: the command's output received since the last idle tick. */
    var bufStdout: string
    /** `t.scanner`: the lines of the buffer it reads... */
    var lines: seq<string>
    /** ...and how many of them it has handed out. */
    var pos: nat
    var results: seq<Process>
    /** `watch`'s count of idle ticks seen. */
    var counter: nat

    ghost predicate Valid()
      reads this
    {
      pos <= |lines|
    }

    /** `NewTop`, before any output: empty buffer, no results, no tick seen. */
    constructor ()
      ensures Valid() && bufStdout == "" && results == [] && counter == 0
    {
      bufStdout := "";
      lines := [];
      pos := 0;
      results := [];
      counter := 0;
    }

    /** `ProcessList`: the records of the last frame scanned. */
    function ProcessList(): (ps: seq<Process>)
      reads this
      ensures ps == results
    {
      results
    }

    /** Output of the command reaching `BufStdout`. */
    method Receive(p: string)
      modifies this`bufStdout
      ensures bufStdout == old(bufStdout) + p
    {
      bufStdout := bufStdout + p;
    }

    /** `t.scanner.Scan()` followed by `t.scanner.Text()`. */
    method Scan() returns (more: bool, text: string)
      requires Valid()
      modifies this`pos
      ensures Valid()
      ensures more <==> old(pos) < |lines|
      ensures text == LineAt(lines, old(pos))
      ensures pos == if more then old(pos) + 1 else old(pos)
    {
      more := pos < |lines|;
      text := "";
      if more {
        text := lines[pos];
        pos := pos + 1;
      }
    }

    /** `nextLine`: the next line, or "" once the input is exhausted. */
    method NextLine() returns (line: string)
      requires Valid()
      modifies this`pos
      ensures Valid()
      ensures line == LineAt(lines, old(pos))
      ensures pos == if old(pos) < |lines| then old(pos) + 1 else old(pos)
    {
      var more, text := Scan();
      line := text;
    }

    /** `nextFields`. */
    method NextFields() returns (fs: seq<string>)
      requires Valid()
      modifies this`pos
      ensures Valid()
      ensures fs == Fields(LineAt(lines, old(pos)))
      ensures pos == if old(pos) < |lines| then old(pos) + 1 else old(pos)
    {
      var line := NextLine();
      fs := Fields(line);
    }

    /** `chompHeader`: skips the eleven preamble lines, or what there is of them. */
    method ChompHeader()
      requires Valid()
      modifies this`pos
      ensures Valid()
      ensures pos == if old(pos) + PreambleLines <= |lines| then old(pos) + PreambleLines else |lines|
    {
      var skipped := NextLine(); // "Processes: ..."
      skipped := NextLine(); // date and time
      skipped := NextLine(); // "Load Avg: ..."
      skipped := NextLine(); // "CPU usage: ..."
      skipped := NextLine(); // "SharedLibs: ..."
      skipped := NextLine(); // "MemRegions: ..."
      skipped := NextLine(); // "PhysMem: ..."
      skipped := NextLine(); // "VM: ..."
      skipped := NextLine(); // "Networks: ..."
      skipped := NextLine(); // "Disks: ..."
      skipped := NextLine(); // ""
    }

    /** `scanResults` on a fresh scanner: exactly the frame the lines describe. */
    method ScanResults() returns (r: Result<seq<Process>, Fatal>)
      requires Valid() && pos == 0
      modifies this`pos
      ensures Valid()
      ensures r == FrameOf(lines)
    {
      ChompHeader();
      var fs := NextFields();
      if fs != ExpectedHeaders {
        return Err(UnexpectedFields);
      }
      assert |lines| > PreambleLines;
      assert pos == PreambleLines + 1;
      var found := ScanRows();
      r := Ok(found);
    }

    /** The `for t.scanner.Scan()` loop of `scanResults`: every remaining line, parsed, in order. */
    method ScanRows() returns (found: seq<Process>)
      requires Valid()
      modifies this`pos
      ensures Valid() && pos == |lines|
      ensures found == ParseRows(lines[old(pos)..])
    {
      ghost var start := pos;
      found := [];
      var more, text := Scan();
      while more
        invariant Valid() && start <= pos <= |lines|
        invariant more ==> start < pos && text == lines[pos - 1]
        invariant !more ==> pos == |lines|
        invariant |found| == pos - start - (if more then 1 else 0)
        invariant forall i :: 0 <= i < |found| ==> found[i] == ParseTopLine(lines[start + i])
        decreases |lines| - pos, more
      {
        var entry := ParseTopLine(text);
        found := found + [entry];
        more, text := Scan();
      }
      assert found == ParseRows(lines[start..]);
    }

    /**
     * One turn of `watch`'s loop, on an idle tick. The first tick only
     * discards the buffer; later ticks scan it (a bad header is fatal).
     * Every tick empties the buffer, and from the second on a `NextTick` is
     * offered: the result says whether one was.
     */
    method OnIdle() returns (r: Result<bool, Fatal>)
      requires Valid()
      modifies this
      ensures Valid()
      ensures old(counter) == 0 ==> r == Ok(false) && results == old(results)
      ensures old(counter) > 0 ==> lines == SplitLines(old(bufStdout)) && r.Ok? == FrameOf(lines).Ok?
      ensures old(counter) > 0 && r.Ok? ==> results == FrameOf(lines).value
      ensures r.Ok? ==> bufStdout == "" && counter == old(counter) + 1 && r.value == (counter > 1)
    {
      if counter > 0 {
        lines, pos := SplitLines(bufStdout), 0;
        var frame := ScanResults();
        if frame.Err? {
          return Err(frame.error);
        }
        results := frame.value;
      }
      bufStdout := "";
      counter := counter + 1;
      r := Ok(counter > 1);
    }
  }
}
