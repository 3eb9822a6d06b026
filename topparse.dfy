/**
 * The text format of `top -l 0 -stats pid,cpu,th,pstate,time,pageins,command`
 * and how one idle-delimited burst of it is turned into process records.
 *
 * `parseTopLine`, `chompHeader`, `nextLine` and `scanResults` are written
 * identically in top.go and top_macos.go; this module is the specification
 * both revisions' scanners (modules Top and TopMacos) are proved against.
 */
module TopParse {
  import opened Wrappers
  import opened GoStrings

  /** One row of `top`: every column kept as the text `top` printed. */
  datatype Process = Process(
    Pid: string,
    Command: string,
    Cpu: string,
    Threads: string,
    State: string,
    Time: string,
    Pageins: string)

  /** `Process{}`, Go's zero value. */
  const ZeroProcess: Process := Process("", "", "", "", "", "", "")

  /** Summary lines before the column headers ("Processes: ...", ..., ""). */
  const PreambleLines: nat := 11

  const ExpectedHeaders: seq<string> := ["PID", "%CPU", "#TH", "STATE", "TIME", "PAGEINS", "COMMAND"]

  /** The `log.Fatal` of `scanResults`: the header row is not the expected one. */
  datatype Fatal = UnexpectedFields

  /**
   * `parseTopLine`. Six fixed columns, then the command, whose words are
   * re-joined with single spaces. A row with fewer than six fields makes the
   * Go code index out of range; the deferred `recover` swallows the panic
   * and the zero `Process` is returned.
   */
  function ParseTopLine(line: string): (p: Process)
    ensures p == ZeroProcess <==> |Fields(line)| < 6
    ensures |Fields(line)| >= 6 ==> [p.Pid, p.Cpu, p.Threads, p.State, p.Time, p.Pageins] == Fields(line)[..6]
  {
    var fs := Fields(line);
    if |fs| < 6 then ZeroProcess
    else
      assert IsWord(fs[0]);
      Process(
      Pid := fs[0],
      Command := Join(fs[6..], " "),
      Cpu := fs[1],
      Threads := fs[2],
      State := fs[3],
      Time := fs[4],
      Pageins := fs[5])
  }

  /** `nextLine`: the line at position `k`, or "" once the scanner is exhausted. */
  function LineAt(lines: seq<string>, k: nat): string {
    if k < |lines| then lines[k] else ""
  }

  /** The loop of `scanResults`: one record per remaining line, in order. */
  function ParseRows(rows: seq<string>): (ps: seq<Process>)
    ensures |ps| == |rows|
    ensures forall i :: 0 <= i < |rows| ==> ps[i] == ParseTopLine(rows[i])
  {
    if rows == [] then [] else [ParseTopLine(rows[0])] + ParseRows(rows[1..])
  }

  /**
   * `scanResults` on the lines of one burst: skip the preamble, demand the
   * expected header row, then parse every line after it.
   */
  function FrameOf(lines: seq<string>): (r: Result<seq<Process>, Fatal>)
    ensures r.Ok? <==> |lines| > PreambleLines && Fields(lines[PreambleLines]) == ExpectedHeaders
    ensures r.Ok? ==> |r.value| == |lines| - PreambleLines - 1
    ensures r.Ok? ==> forall i :: 0 <= i < |r.value| ==> r.value[i] == ParseTopLine(lines[PreambleLines + 1 + i])
  {
    if Fields(LineAt(lines, PreambleLines)) != ExpectedHeaders then Err(UnexpectedFields)
    else Ok(ParseRows(lines[PreambleLines + 1..]))
  }

  // ---------------------------------------------------------------------------
  // Properties

  /** A row with at least six fields fills the columns in order; the command keeps its words. */
  lemma ParseTopLineFields(line: string)
    requires |Fields(line)| >= 6
    ensures var fs, p := Fields(line), ParseTopLine(line);
            && p.Pid == fs[0] && p.Cpu == fs[1] && p.Threads == fs[2]
            && p.State == fs[3] && p.Time == fs[4] && p.Pageins == fs[5]
            && Fields(p.Command) == fs[6..]
            && (|fs| == 6 <==> p.Command == "")
  {
    var fs := Fields(line);
    FieldsOfJoin(fs[6..]);
    if |fs| > 6 {
      JoinOfWordsNotBlank(fs[6..]);
    }
  }

  /** The zero record comes back exactly for the rows with fewer than six fields. */
  lemma ZeroProcessIffShort(line: string)
    ensures ParseTopLine(line) == ZeroProcess <==> |Fields(line)| < 6
  {
    var fs := Fields(line);
    if |fs| >= 6 {
      assert IsWord(fs[0]);
    }
  }

  /** The blank line at the end of a burst is no exception: it yields the zero record. */
  lemma BlankLineIsZero(w: string)
    requires AllSpace(w)
    ensures ParseTopLine(w) == ZeroProcess
  {
    FieldsOfSpaces(w);
  }

  /** A row printed as single-space-separated words is read back word for word. */
  lemma ParseTopLineOfRow(fs: seq<string>)
    requires AllWords(fs) && |fs| >= 6
    ensures ParseTopLine(Join(fs, " ")) ==
            Process(fs[0], Join(fs[6..], " "), fs[1], fs[2], fs[3], fs[4], fs[5])
  {
    FieldsOfJoin(fs);
  }

  /**
   * One of `top`'s junk rows, where STATE and TIME run together: it has six
   * fields, so PAGEINS takes the command's name and the command is lost.
   */
  lemma JunkRowLosesCommand(pid: string, cpu: string, th: string, stateTime: string, pageins: string, cmd: string)
    requires AllWords([pid, cpu, th, stateTime, pageins, cmd])
    ensures var p := ParseTopLine(Join([pid, cpu, th, stateTime, pageins, cmd], " "));
            p.Time == pageins && p.Pageins == cmd && p.Command == ""
  {
    var fs := [pid, cpu, th, stateTime, pageins, cmd];
    FieldsOfJoin(fs);
    assert fs[6..] == [];
  }

  /** `nextLine` returns "" past the end, so a burst of at most eleven lines always fails the header check. */
  lemma ShortBurstIsFatal(lines: seq<string>)
    requires |lines| <= PreambleLines
    ensures FrameOf(lines) == Err(UnexpectedFields)
  {
  }

  /** A well-formed burst: preamble, header row, then the rows, which are all kept. */
  lemma FrameOfWellFormed(preamble: seq<string>, header: string, rows: seq<string>)
    requires |preamble| == PreambleLines && Fields(header) == ExpectedHeaders
    ensures FrameOf(preamble + [header] + rows) == Ok(ParseRows(rows))
  {
    var lines := preamble + [header] + rows;
    assert lines[PreambleLines] == header;
    assert lines[PreambleLines + 1..] == rows;
  }

  /** End to end: a burst `top` wrote line by line is read back as one record per row, in order. */
  lemma FrameOfOutput(preamble: seq<string>, header: string, rows: seq<string>)
    requires |preamble| == PreambleLines && Fields(header) == ExpectedHeaders
    requires forall i :: 0 <= i < |preamble| ==> IsLine(preamble[i])
    requires IsLine(header) && forall i :: 0 <= i < |rows| ==> IsLine(rows[i])
    ensures FrameOf(SplitLines(Terminated(preamble + [header] + rows))) == Ok(ParseRows(rows))
  {
    var lines := preamble + [header] + rows;
    LinesOfBurst(preamble, header, rows);
    SplitLinesOfTerminated(lines);
    FrameOfWellFormed(preamble, header, rows);
  }

  lemma LinesOfBurst(preamble: seq<string>, header: string, rows: seq<string>)
    requires forall i :: 0 <= i < |preamble| ==> IsLine(preamble[i])
    requires IsLine(header) && forall i :: 0 <= i < |rows| ==> IsLine(rows[i])
    ensures forall i :: 0 <= i < |preamble + [header] + rows| ==> IsLine((preamble + [header] + rows)[i])
  {
    var lines := preamble + [header] + rows;
    forall i | 0 <= i < |lines|
      ensures IsLine(lines[i])
    {
      if i < |preamble| {
        assert lines[i] == preamble[i];
      } else if i == |preamble| {
        assert lines[i] == header;
      } else {
        assert lines[i] == rows[i - |preamble| - 1];
      }
    }
  }

  /** Whatever the preamble says, the records depend only on the lines after the header. */
  lemma FrameIgnoresPreamble(p1: seq<string>, p2: seq<string>, rest: seq<string>)
    requires |p1| == |p2| == PreambleLines
    ensures FrameOf(p1 + rest) == FrameOf(p2 + rest)
  {
    var l1, l2 := p1 + rest, p2 + rest;
    assert l1[PreambleLines..] == rest == l2[PreambleLines..];
    if |rest| > 0 {
      assert l1[PreambleLines] == rest[0] == l2[PreambleLines];
      assert l1[PreambleLines + 1..] == rest[1..] == l2[PreambleLines + 1..];
    }
  }
}
