/**
 * main.go: the watcher itself. On every `NextTick` the main loop picks the
 * Spotify process out of `top`'s latest frame and hands it to the tracker,
 * which keeps a moving average of its CPU and decides whether to kill it.
 *
 * The `SpotifyState` script run and the `kill` system call are outside the
 * model: the script run's outcome is an input to `Observe`, and a kill is
 * an outcome naming the pid. Command-line parsing, printing and the metrics
 * agent are not modelled. `Observe` uses the `State` of spotify_macos.go,
 * the revision that defines `StateForeground`.
 */
module Watcher {
  import opened Wrappers
  import opened GoStrings
  import opened GoStrconv
  import opened TopParse
  import opened MovingAverage
  import SM = SpotifyMacos

  /** `options`, as the command line sets them. */
  datatype Options = Options(
    topInterval: int,
    idleThreshold: real,
    busyThreshold: real,
    avgWindow: int,
    forceful: bool,
    verbose: bool)

  /** Why `Observe` returned an error (which the main loop turns into `log.Fatal`). */
  datatype Failure =
    | CpuUnreadable(cpuErr: NumError)
    | StateUnreadable(stateErr: SM.StateError)
    | PidUnreadable(pidErr: NumError)

  /** How a call of `Observe` ended. */
  datatype Outcome =
    | WindowReset      // no Spotify process: the average starts over
    | Ignored          // Spotify is frontmost and the watcher is not forceful
    | Spared           // sampled; no kill this time
    | Killed(pid: int) // sampled; `kill(pid)` is called
    | Failed(failure: Failure)

  datatype Action = Spare | Kill

  /** Go's `>` on a float64: NaN is above nothing. */
  predicate Above(x: Float, threshold: real) {
    x.Real? && x.v > threshold
  }

  /** True for the two states in which Spotify may legitimately be busy. */
  predicate Excused(state: SM.State) {
    state == SM.StatePlaying || state == SM.StateForeground
  }

  /** The decision at the end of `Observe`, once the sample is in the window. */
  function Decide(samples: int, average: Float, state: SM.State, o: Options): (a: Action)
    ensures a == Kill <==>
            samples == o.avgWindow &&
            (Above(average, o.busyThreshold) || (!Excused(state) && Above(average, o.idleThreshold)))
  {
    if samples == o.avgWindow then
      if Above(average, o.busyThreshold) then Kill
      else if Excused(state) then Spare
      else if Above(average, o.idleThreshold) then Kill
      else Spare
    else Spare
  }

  /** `tracker.Kill` up to the system call: the pid to signal, or why there is none. */
  function KillTarget(p: Process): (r: Result<int, NumError>)
    ensures r.Ok? ==> MinInt64 <= r.value <= MaxInt64
    ensures r.Ok? ==> |p.Pid| > 0
  {
    Atoi(p.Pid)
  }

  /** The outcome of a sampled observation with `samples` samples averaging `average`. */
  function Verdict(p: Process, samples: int, average: Float, state: SM.State, o: Options): (out: Outcome)
    ensures out == Spared <==> Decide(samples, average, state, o) == Spare
    ensures out.Killed? <==> Decide(samples, average, state, o) == Kill && KillTarget(p).Ok?
    ensures out.Killed? ==> out.pid == KillTarget(p).value
    ensures out.Failed? <==> Decide(samples, average, state, o) == Kill && KillTarget(p).Err?
    ensures out.Failed? ==> out.failure == PidUnreadable(KillTarget(p).error)
  {
    match Decide(samples, average, state, o)
    case Spare => Spared
    case Kill =>
      match KillTarget(p)
      case Ok(pid) => Killed(pid)
      case Err(e) => Failed(PidUnreadable(e))
  }

  /** How far `Observe` gets before it touches the window. */
  datatype Stage = ResetWindow | Stop(out: Outcome) | Sampled(cpu: real, state: SM.State)

  /**
   * The checks `Observe` makes in order: the zero record resets the window;
   * an unreadable %CPU, an unreadable state, or Spotify frontmost without
   * `forceful` end the call; anything else is a sample in a known state.
   */
  function Triage(p: Process, run: Result<string, string>, o: Options): (s: Stage)
    ensures s == ResetWindow <==> p == ZeroProcess
    ensures p != ZeroProcess && ParseFloat(p.Cpu).Err? ==> s == Stop(Failed(CpuUnreadable(ParseFloat(p.Cpu).error)))
    ensures s.Stop? ==> !s.out.Spared? && !s.out.Killed? && s.out != WindowReset
    ensures p != ZeroProcess && ParseFloat(p.Cpu).Ok? && SM.SpotifyState(run).err.Some? ==>
              s == Stop(Failed(StateUnreadable(SM.SpotifyState(run).err.value)))
    ensures p != ZeroProcess && ParseFloat(p.Cpu).Ok? && SM.SpotifyState(run).err.None? &&
            SM.SpotifyState(run).s == SM.StateForeground && !o.forceful ==>
              s == Stop(Ignored)
    ensures p != ZeroProcess && ParseFloat(p.Cpu).Ok? && SM.SpotifyState(run).err.None? &&
            (SM.SpotifyState(run).s != SM.StateForeground || o.forceful) ==>
              s == Sampled(ParseFloat(p.Cpu).value, SM.SpotifyState(run).s)
    ensures s.Sampled? ==>
              ParseFloat(p.Cpu) == Ok(s.cpu) && SM.SpotifyState(run) == SM.Answer(s.state, None) &&
              (s.state != SM.StateForeground || o.forceful)
  {
    if p == ZeroProcess then ResetWindow
    else
      match ParseFloat(p.Cpu)
      case Err(e) => Stop(Failed(CpuUnreadable(e)))
      case Ok(cpu) =>
        var answer := SM.SpotifyState(run);
        if answer.err.Some? then Stop(Failed(StateUnreadable(answer.err.value)))
        else if answer.s == SM.StateForeground && !o.forceful then Stop(Ignored)
        else Sampled(cpu, answer.s)
  }

  /** The state script is consulted only for a record with a readable %CPU: otherwise its answer does not matter. */
  lemma NoQueryBeforeCpu(p: Process, run1: Result<string, string>, run2: Result<string, string>, o: Options)
    requires p == ZeroProcess || ParseFloat(p.Cpu).Err?
    ensures Triage(p, run1, o) == Triage(p, run2, o)
  {
  }

  /** Frontmost Spotify is never sampled unless the watcher is forceful, whatever its %CPU. */
  lemma ForegroundIgnored(p: Process, out: string, o: Options)
    requires p != ZeroProcess && ParseFloat(p.Cpu).Ok? && !o.forceful
    requires SM.ParseOutput(out) == Ok(SM.StateForeground)
    ensures Triage(p, Ok(out), o) == Stop(Ignored)
  {
  }

  // ---------------------------------------------------------------------------
  // The decision

  /** No kill before the window holds `avgWindow` samples. */
  lemma NoKillUnlessFull(samples: int, average: Float, state: SM.State, o: Options)
    requires samples != o.avgWindow
    ensures Decide(samples, average, state, o) == Spare
  {
  }

  /** A full window averaging above the busy threshold is killed, whatever the state. */
  lemma BusyKills(average: Float, state: SM.State, o: Options)
    requires Above(average, o.busyThreshold)
    ensures Decide(o.avgWindow, average, state, o) == Kill
  {
  }

  /** Playing or frontmost, Spotify is spared up to the busy threshold. */
  lemma ExcusedSpared(samples: int, average: Float, state: SM.State, o: Options)
    requires Excused(state) && !Above(average, o.busyThreshold)
    ensures Decide(samples, average, state, o) == Spare
  {
  }

  /** In any other state, a full window averaging above the idle threshold is killed. */
  lemma IdleHighKills(average: Float, state: SM.State, o: Options)
    requires !Excused(state) && Above(average, o.idleThreshold)
    ensures Decide(o.avgWindow, average, state, o) == Kill
  {
  }

  /** A higher average never turns a kill into a reprieve. */
  lemma DecideMonotone(samples: int, a1: real, a2: real, state: SM.State, o: Options)
    requires a1 <= a2 && Decide(samples, Real(a1), state, o) == Kill
    ensures Decide(samples, Real(a2), state, o) == Kill
  {
  }

  /** An empty window's NaN average never kills. */
  lemma NaNNeverKills(samples: int, state: SM.State, o: Options)
    ensures Decide(samples, NaN, state, o) == Spare
  {
  }

  /** `Kill` finds the pid in every record `top` could print for it. */
  lemma KillTargetOfPid(pid: nat, p: Process)
    requires pid <= MaxInt64 && p.Pid == Itoa(pid)
    ensures KillTarget(p) == Ok(pid)
  {
    AtoiOfItoa(pid);
  }

  /** `Kill` refuses the zero record and any pid with a character that is not a digit. */
  lemma KillTargetRejects(p: Process, i: nat)
    requires i < |p.Pid| && !IsDigit(p.Pid[i]) && !(i == 0 && (p.Pid[0] == '+' || p.Pid[0] == '-'))
    ensures KillTarget(p).Err?
  {
    var (neg, body) := Sign(p.Pid);
    if body != p.Pid {
      assert body[i - 1] == p.Pid[i];
    }
  }

  lemma ZeroProcessHasNoTarget()
    ensures KillTarget(ZeroProcess) == Err(ErrSyntax)
  {
  }

  // ---------------------------------------------------------------------------
  // The tracker

  /** `tracker`: the moving average of Spotify's CPU, with the options it runs under. */
  class Tracker {
    const avgCpu: MovingAvg
    const opts: Options

    ghost predicate Valid()
      reads this, avgCpu, avgCpu.buf
    {
      avgCpu.Valid() && avgCpu.size == opts.avgWindow
    }

    /** `newTracker` after `NewMovingAvg` has accepted the window size. */
    constructor (opts: Options, avgCpu: MovingAvg)
      requires avgCpu.Valid() && avgCpu.size == opts.avgWindow
      ensures this.opts == opts && this.avgCpu == avgCpu
      ensures Valid()
    {
      this.opts := opts;
      this.avgCpu := avgCpu;
    }

    /**
     * `Observe`, given what running the state script would produce: the
     * checks of `Triage`, then a reset of the window or a sample.
     */
    method Observe(p: Process, run: Result<string, string>) returns (out: Outcome)
      requires Valid()
      modifies avgCpu, avgCpu.buf
      ensures Valid()
      ensures Triage(p, run, opts) == ResetWindow ==>
                out == WindowReset && avgCpu.Window() == [] && avgCpu.History == []
      ensures Triage(p, run, opts).Stop? ==>
                out == Triage(p, run, opts).out && unchanged(avgCpu) && avgCpu.buf[..] == old(avgCpu.buf[..])
      ensures Triage(p, run, opts).Sampled? ==>
                var Sampled(cpu, state) := Triage(p, run, opts);
                avgCpu.History == old(avgCpu.History) + [cpu] &&
                out == Verdict(p, |avgCpu.Window()|, Mean(LastN(avgCpu.History, opts.avgWindow)), state, opts)
    {
      match Triage(p, run, opts)
      case ResetWindow =>
        avgCpu.Reset();
        out := WindowReset;
      case Stop(early) =>
        out := early;
      case Sampled(cpu, state) =>
        out := Sample(p, cpu, state);
    }

    /** The rest of `Observe`: append the sample, then act on the new window. */
    method Sample(p: Process, cpu: real, state: SM.State) returns (out: Outcome)
      requires Valid()
      modifies avgCpu, avgCpu.buf
      ensures Valid()
      ensures avgCpu.History == old(avgCpu.History) + [cpu]
      ensures out == Verdict(p, |avgCpu.Window()|, Mean(LastN(avgCpu.History, opts.avgWindow)), state, opts)
    {
      avgCpu.Append(cpu);
      var samples := avgCpu.Length();
      var average := avgCpu.Value();
      out := Respond(p, samples, average, state);
    }

    /** The end of `Observe`: kill or spare, given the window's length and average. */
    method Respond(p: Process, samples: int, average: Float, state: SM.State) returns (out: Outcome)
      ensures out == Verdict(p, samples, average, state, opts)
    {
      if samples == opts.avgWindow {
        if Above(average, opts.busyThreshold) {
          out := KillProcess(p);
          return;
        }
        if state == SM.StatePlaying || state == SM.StateForeground {
          return Spared;
        }
        if Above(average, opts.idleThreshold) {
          out := KillProcess(p);
          return;
        }
      }
      return Spared;
    }

    /** `tracker.Kill`: an unreadable pid is an error and nothing is killed. */
    method KillProcess(p: Process) returns (out: Outcome)
      ensures out.Killed? <==> KillTarget(p).Ok?
      ensures out.Killed? ==> out.pid == KillTarget(p).value
      ensures KillTarget(p).Err? ==> out == Failed(PidUnreadable(KillTarget(p).error))
    {
      var pid := Atoi(p.Pid);
      if pid.Err? {
        return Failed(PidUnreadable(pid.error));
      }
      out := Killed(pid.value);
    }
  }

  /** `newTracker`: `NewMovingAvg` panics on a window below one sample, which leaves no tracker. */
  method NewTracker(opts: Options) returns (t: Tracker?)
    ensures t == null <==> opts.avgWindow <= 0
    ensures t != null ==> fresh(t) && t.Valid() && t.opts == opts && t.avgCpu.Window() == []
  {
    var m := NewMovingAvg(opts.avgWindow);
    if m == null {
      return null;
    }
    t := new Tracker(opts, m);
  }

  /** A kill needs `avgWindow` samples since the last reset: at least that many observations were sampled. */
  lemma KillNeedsFullWindow(history: seq<real>, average: Float, state: SM.State, o: Options)
    requires o.avgWindow > 0
    requires Decide(|LastN(history, o.avgWindow)|, average, state, o) == Kill
    ensures |history| >= o.avgWindow
  {
  }

  // ---------------------------------------------------------------------------
  // Picking the subject out of a frame

  /** The records the main loop shows and reports: commands starting with "Spotify". */
  function Shown(list: seq<Process>): (r: seq<Process>)
    ensures |r| <= |list|
    ensures forall i :: 0 <= i < |r| ==> r[i] in list && HasPrefix(r[i].Command, "Spotify")
    ensures forall i :: 0 <= i < |list| && HasPrefix(list[i].Command, "Spotify") ==> list[i] in r
  {
    if list == [] then []
    else
      var rest := Shown(list[..|list| - 1]);
      var last := list[|list| - 1];
      if HasPrefix(last.Command, "Spotify") then rest + [last] else rest
  }

  /** The observed subject: the last record whose command is exactly "Spotify", or the zero record. */
  function Subject(list: seq<Process>): (p: Process)
    ensures p == ZeroProcess <==> forall i :: 0 <= i < |list| ==> list[i].Command != "Spotify"
    ensures p != ZeroProcess ==>
              p.Command == "Spotify" &&
              exists i :: 0 <= i < |list| && list[i] == p &&
                forall j :: i < j < |list| ==> list[j].Command != "Spotify"
  {
    if list == [] then ZeroProcess
    else
      var last := list[|list| - 1];
      if last.Command == "Spotify" then last
      else
        var p := Subject(list[..|list| - 1]);
        assert forall i :: 0 <= i < |list| - 1 ==> list[..|list| - 1][i] == list[i];
        p
  }

  /** The loop over `top.ProcessList()` (main.go), one record at a time. */
  method SelectSubject(list: seq<Process>) returns (spotify: Process, shown: seq<Process>)
    ensures spotify == Subject(list)
    ensures shown == Shown(list)
  {
    spotify := ZeroProcess;
    shown := [];
    for k := 0 to |list|
      invariant spotify == Subject(list[..k])
      invariant shown == Shown(list[..k])
    {
      var p := list[k];
      assert list[..k + 1][..k] == list[..k];
      if HasPrefix(p.Command, "Spotify") {
        shown := shown + [p];
        if p.Command == "Spotify" {
          spotify := p;
        }
      }
    }
    assert list[..|list|] == list;
  }

  /** Only a record named exactly "Spotify" is chosen, and it is always among those shown. */
  lemma SubjectIsShown(list: seq<Process>)
    requires Subject(list) != ZeroProcess
    ensures Subject(list) in Shown(list)
  {
    var p := Subject(list);
    var i :| 0 <= i < |list| && list[i] == p && forall j :: i < j < |list| ==> list[j].Command != "Spotify";
    assert HasPrefix(p.Command, "Spotify");
  }
}
