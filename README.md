# SpotifyWatcher, modelled in Dafny

SpotifyWatcher is a macOS watchdog. It runs `top` continuously and cuts the output into frames: a frame ends when the output goes quiet. From each frame it picks the Spotify process and keeps a moving average of its CPU. When the average stays too high, it kills Spotify. The actual threshold depends on the state Spotify reports: frontmost, playing, or otherwise.

The repository holds divergent revisions of the same pieces, and each one is modelled separately:

- `math.go`: the moving-average ring buffer. Module `MovingAverage` (class `MovingAvg`) models it over a Dafny array.
- `top.go` and `top_macos.go`: two revisions of the `top` collector.
  - They share the parser, which module `TopParse` states as functions.
  - Module `Top` has its own scanner class, idle gate and `timeoutWriter`.
  - Module `TopMacos` has its own scanner class and idle gate, over `IdleCmd`.
- `exec.go`: `idleWriter`. Module `Exec` models it, proved against the two-state idle machine of module `Stall`. The same machine underlies `top.go`'s `timeoutWriter`.
- `spotify_macos.go` and `state_macos.go`: two revisions of the state label. Modules `SpotifyMacos` (string states) and `StateMacos` (integer states) model them.
- `main.go`: the kill decision of `tracker.Observe`, `tracker.Kill`, and the main loop's choice of the subject. Module `Watcher` models them. `main.go` refers to `StateForeground`, so it uses the `spotify_macos.go` revision.

Go library behaviour the code relies on is written out in modules `GoStrings` and `GoStrconv`:

- `strings.Fields`, `Join`, `TrimSpace` and `HasPrefix`, with `unicode.IsSpace`
- the line splitting of a `bufio.Scanner`
- `strconv.Atoi` and `ParseFloat`

Some Go mechanisms are modelled differently:

- Goroutines and timers become explicit events.
- A `log.Fatal`, or a panic, becomes an error result.
- The recovered panic in `parseTopLine` becomes the zero record it returns.

## Model

| member | source | states |
|---|---|---|
| MovingAverage.NewMovingAvg | math.go:28-34 | No window (the panic) exactly when `size <= 0`; otherwise a fresh, valid, empty window of capacity `size` |
| MovingAverage.MovingAvg.Init | math.go:32-33 | A new window is valid, empty, of capacity `size`, and has seen no samples |
| MovingAverage.MovingAvg.Append | math.go:11-18 | Keeps the invariant: `len <= size`, `0 <= idx < size`, `idx == len` while growing, and the ring read from `idx` is exactly the last `size` samples appended. While growing, the length rises by one and the sample is added at the end. Once full, slot `idx` is overwritten and it held the oldest sample. `idx` advances modulo `size` |
| MovingAverage.MovingAvg.Value | math.go:20-26 | The loop's total over the stored samples, divided by their count, is the mean of the last `size` samples appended; NaN on an empty window |
| MovingAverage.MovingAvg.Reset | main.go:59 | Empties the window and its history and keeps the capacity |
| MovingAverage.MovingAvg.Length | main.go:78 | `len(window)`, which is the number of samples since the reset, capped at `size` |
| MovingAverage.Mean | math.go:20-26 | NaN exactly for no samples; otherwise mean times count equals the sum |
| MovingAverage.SumPermutation | math.go:21-24 | The total does not depend on the order of the samples |
| MovingAverage.MeanPermutation | math.go:20-26 | The mean does not depend on the order of the samples |
| MovingAverage.MeanRotation | math.go:20-26 | The mean of the ring in slot order equals the mean in age order |
| MovingAverage.LastNAppend | math.go:11-17 | The last `n` samples after one more append: the old ones plus the new one while fewer than `n`, else the oldest dropped |
| MovingAverage.RingOrderAppend | math.go:12-16 | Writing at `idx` and advancing it turns the age-ordered ring into the old one plus the sample, with the oldest dropped once full |
| MovingAverage.AppendKeepsOrder | math.go:11-18 | If the ring held the last `size` samples before `Append(f)`, it holds the last `size` samples of the history extended by `f` after it |
| MovingAverage.RingGrow | math.go:12-16 | Growing: the sample lands after the existing ones |
| MovingAverage.RingOverwriteInside | math.go:15-16 | Full, with the cursor not on the last slot: the oldest is dropped and the sample becomes the newest |
| MovingAverage.RingOverwriteLast | math.go:15-16 | Full, with the cursor on the last slot (it wraps to 0): the oldest is dropped and the sample becomes the newest |
| MovingAverage.FixtureSlidingMeans | math_test.go:9-35 | For capacity 5, each of the 22 sliding means of the test table is exactly its expected value (e.g. 0.12 after the ninth sample) |
| GoStrings.Fields | top.go:179 | Every field is non-empty and free of spaces |
| GoStrings.Join | top.go:189 | An empty list joins to ""; otherwise the result starts with the first part |
| GoStrings.FieldsOfJoin | top.go:188-189 | Splitting words joined by single spaces gives the words back |
| GoStrings.NormalizeIdempotent | top.go:188-189 | Re-joining fields with single spaces and splitting again changes nothing (runs of spaces collapse) |
| GoStrings.FieldsOfSpaces | top.go:179 | A blank line has no fields |
| GoStrings.JoinOfWordsNotBlank | top.go:189 | A command of one or more words joins to a non-empty string |
| GoStrings.TrimLeft | spotify_macos.go:57 | Drops exactly the leading white space |
| GoStrings.TrimRight | spotify_macos.go:57 | Drops exactly the trailing white space |
| GoStrings.TrimSpace | spotify_macos.go:57 | The result neither starts nor ends with white space |
| GoStrings.TrimSpacePadded | spotify_macos.go:57 | Any white space around a trimmed text is removed and the text is kept |
| GoStrings.HasPrefix | main.go:162 | True exactly when the string is the prefix followed by some text |
| GoStrings.SplitLines | top.go:112 | Empty input gives no lines and any other input at least one; no line contains a newline |
| GoStrings.SplitLinesOfTerminated | top.go:199-200 | Scanning newline-terminated output yields exactly the lines written, in order |
| GoStrconv.AtoiOfItoa | main.go:49 | `Atoi` reads back every pid that fits a 64-bit int |
| GoStrconv.ParseFloatOfTenths | main.go:62 | `ParseFloat` reads back exactly every one-decimal `%CPU` figure `top` prints |
| GoStrconv.ScanDigits | main.go:49 | The digit loop of `Atoi`, left to right. It succeeds exactly on a digit string worth at most 64 bits, with that value. A digit string worth more is a range error |
| GoStrconv.ScanDigitsErrSticks | main.go:49 | Once the scan has failed on a prefix, the characters after it do not change the error |
| GoStrconv.Atoi | main.go:49 | A result always fits a 64-bit int and is the signed value of the digits after the optional sign; a bare sign or the empty string is a syntax error |
| GoStrconv.AtoiOverflowFirst | main.go:49 | Digits worth more than 64 bits followed by anything, e.g. "99999999999999999999x", give a range error, not a syntax error |
| GoStrconv.ParseFloat | main.go:62 | The empty string is a syntax error; a plain digit string reads as its integer value; an accepted text holds only digits, points and a leading sign |
| TopParse.ParseRows | top.go:199-202 | One record per line, in order, each being `parseTopLine` of that line |
| TopParse.ParseTopLine | top.go:162-192 | The zero record exactly for a row of fewer than six fields (the recovered panic); otherwise the first six fields fill PID, %CPU, #TH, STATE, TIME and PAGEINS in order. top_macos.go:94-124 is the same function |
| TopParse.FrameOf | top.go:194-207 | Succeeds exactly when there is a 12th line and its fields are the expected headers. The result then has one record per later line, in order |
| TopParse.ParseTopLineFields | top.go:179-190 | With at least six fields, fields 0..5 become Pid, Cpu, Threads, State, Time and Pageins. The command's fields are the rest, and the command is "" exactly when there are six fields |
| TopParse.ZeroProcessIffShort | top.go:173-190 | The zero record comes back exactly for lines of fewer than six fields (the recovered panic) |
| TopParse.BlankLineIsZero | top.go:173-190 | A blank line yields the zero record, not an error |
| TopParse.ParseTopLineOfRow | top.go:179-190 | A row of words is read back positionally, and the command is the remaining words joined by single spaces |
| TopParse.JunkRowLosesCommand | top.go:163-172 | In a junk row where STATE and TIME run together, the command name lands in Pageins and Command is "" |
| TopParse.ShortBurstIsFatal | top.go:132-140 | Past the end `nextLine` gives "", so a burst of at most 11 lines always fails the header check |
| TopParse.FrameOfWellFormed | top.go:194-207 | Preamble, header row, then rows: every row is kept |
| TopParse.FrameOfOutput | top.go:112-113 | A burst written line by line, then scanned, gives one record per row, in order |
| TopParse.FrameIgnoresPreamble | top.go:146-158 | The 11 preamble lines are discarded whatever they say |
| Top.Top.constructor | top.go:42-49 | Starts with an empty buffer, no results and no idle tick seen |
| Top.Top.ProcessList | top.go:51-53 | Returns the stored `results`, which `OnIdle` sets to the frame of the last burst it scanned |
| Top.Top.Copy | top.go:79 | The command's output is appended to the buffer |
| Top.Top.Scan | top.go:133-134 | Yields the next line and advances exactly when one remains |
| Top.Top.NextLine | top.go:132-140 | The next line, or "" once the input is exhausted |
| Top.Top.NextFields | top.go:142-144 | The fields of the next line |
| Top.Top.ChompHeader | top.go:146-158 | Skips exactly 11 lines, or all the lines if there are fewer |
| Top.Top.ScanResults | top.go:194-207 | The loop's result is exactly `FrameOf` of the scanned lines, including the fatal header error |
| Top.Top.ScanRows | top.go:199-202 | Reads the scanner to the end; the records are `ParseRows` of the remaining lines, one per line, in order |
| Top.Top.OnIdle | top.go:101-130 | First tick: no parse and no tick offered. Later ticks: the buffer's lines are parsed into the results (a bad header is fatal). The buffer is emptied on every tick, and a tick is offered exactly from the second one on |
| Top.TimeoutWriter.constructor | top.go:259-265 | Nothing written and the watcher armed |
| Top.TimeoutWriter.Write | top.go:216-225 | The heartbeat re-arms the watcher only if it is receiving; the send never blocks. The bytes go to the pipe unchanged and their count is returned |
| Top.TimeoutWriter.TimerFires | top.go:245-253 | The timer stalls an armed watcher and offers one idle tick; the pipe is untouched |
| Top.NotifyOnTimeout | top.go:231-257 | The loop's flag and notifications after any run of events are exactly those of the Armed/Stalled machine started armed |
| TopMacos.Top.constructor | top_macos.go:33-35 | Starts with an empty buffer, no results and no idle tick seen |
| TopMacos.Top.ProcessList | top_macos.go:38-40 | Returns the stored `results`, which `OnIdle` sets to the frame of the last burst it scanned |
| TopMacos.Top.Receive | exec.go:53-56 | The command's output is appended to `BufStdout` |
| TopMacos.Top.Scan | top_macos.go:65-66 | Yields the next line and advances exactly when one remains |
| TopMacos.Top.NextLine | top_macos.go:64-72 | The next line, or "" once the input is exhausted |
| TopMacos.Top.NextFields | top_macos.go:74-76 | The fields of the next line |
| TopMacos.Top.ChompHeader | top_macos.go:78-90 | Skips exactly 11 lines, or all the lines if there are fewer |
| TopMacos.Top.ScanResults | top_macos.go:126-139 | Exactly `FrameOf` of the scanned lines: the header must equal the expected list, then one record per line, in order |
| TopMacos.Top.ScanRows | top_macos.go:131-134 | Reads the scanner to the end; the records are `ParseRows` of the remaining lines, one per line, in order |
| TopMacos.Top.OnIdle | top_macos.go:42-62 | First tick: no parse. Later ticks parse `BufStdout`. `BufStdout` is reset on every tick, and a tick is offered exactly when `counter > 1` |
| Stall.Run | exec.go:78-97 | Runs the loop over a sequence of events: the final phase and one emit per event, most of them `Quiet` |
| Stall.ArmedHeartbeat | exec.go:85-86 | Armed: a heartbeat keeps it armed and sends nothing |
| Stall.Step | exec.go:80-96 | One turn of the loop. The watcher ends armed exactly after a heartbeat. A tick is offered exactly when an armed watcher times out, and it is delivered exactly when someone is listening |
| Stall.StalledHeartbeat | exec.go:81-83 | Stalled: a heartbeat re-arms it without sending |
| Stall.ArmedTimeout | exec.go:87-93 | Armed: a timeout stalls it and offers one idle tick, dropped without a receiver |
| Stall.AtMostOneOfferWithoutHeartbeat | exec.go:78-97 | Without heartbeats at most one idle tick is offered, and none at all from Stalled |
| Stall.SilenceOffersOnce | exec.go:78-97 | From Armed, any silence offers exactly one idle tick |
| Stall.OffersBoundedByHeartbeats | exec.go:78-97 | Idle offers never exceed heartbeats plus one: one per stall |
| Stall.HeartbeatRearms | exec.go:81-86 | After a heartbeat the watcher is armed, whatever came before |
| Stall.RunAppend | exec.go:80-96 | One more event continues the run by one step |
| Exec.NotifyOnIdle | exec.go:78-97 | The loop's flag and notifications after any run of events are exactly those of the Armed/Stalled machine started armed (`stalled = false`) |
| Exec.IdleWriter.constructor | exec.go:102-106 | Nothing written and the watcher armed |
| Exec.IdleWriter.Write | exec.go:73-76 | The heartbeat comes first and always re-arms the watcher. Then the same bytes go to the wrapped writer and their count is returned |
| Exec.IdleWriter.TimerFires | exec.go:87-93 | An idle tick is offered exactly when the watcher was armed; nothing is written |
| SpotifyMacos.FromLabel | spotify_macos.go:57-70 | A label is accepted exactly when it is one of the five reported states, and it names that state; anything else is the "bad output" error |
| SpotifyMacos.ParseOutput | spotify_macos.go:57-70 | The output is accepted exactly when, trimmed, it is one of the five reported labels; the state is then the one whose `String()` is that label. Otherwise the error is "bad output" |
| SpotifyMacos.String | spotify_macos.go:24-29 | Never empty; a reported state prints as the very label that `SpotifyState` maps back to it |
| SpotifyMacos.SpotifyState | spotify_macos.go:52-72 | On any error the state stays `StateUnknown`. A failed script run is reported as that failure. Without an error the state is one of the five reported ones |
| SpotifyMacos.StringOfState | spotify_macos.go:24-29 | "(unknown)" for `StateUnknown`, the label itself otherwise |
| SpotifyMacos.ReportedAreTrimmed | spotify_macos.go:15-21 | The five reported labels carry no surrounding white space |
| SpotifyMacos.ParseOutputOfString | spotify_macos.go:57-67 | Round trip: each reported state's `String()`, with any white space around it, parses back to that state |
| SpotifyMacos.NeverClosing | spotify_macos.go:57-70 | `StateClosing` and `StateUnknown` are never the answer to a successful query |
| SpotifyMacos.SpotifyStateOfOutput | spotify_macos.go:52-72 | A run's output is answered without error exactly when it parses, and then with the parsed state. Otherwise the answer is `StateUnknown` with the "bad output" error |
| StateMacos.FromLabel | state_macos.go:43-56 | Only a known state is produced, and its `String()` is the label matched; anything else is the "bad output" error |
| StateMacos.ParseOutput | state_macos.go:43-56 | An accepted output is, trimmed, the `String()` of the known state it gives; otherwise the error is "bad output" |
| StateMacos.SpotifyState | state_macos.go:38-58 | On any error the state stays `StateUnknown` (zero). A failed script run is reported as that failure. Without an error the state is one of the five known ones |
| StateMacos.ConstantsAreConsecutive | state_macos.go:29-36 | The constants are 0 to 5 in declaration order |
| StateMacos.String | state_macos.go:13-27 | "unknown" exactly for `StateUnknown` and every integer outside the five known states |
| StateMacos.StringInjective | state_macos.go:13-27 | The five known states have pairwise different labels |
| StateMacos.FromLabelIff | state_macos.go:43-56 | A trimmed output is accepted exactly when it is some known state's label, and it names that state |
| StateMacos.ParseOutputOfString | state_macos.go:43-53 | Round trip: each known state's `String()`, with any white space around it, parses back to that state |
| StateMacos.LabelOfKnown | state_macos.go:43-56 | Each known state's label is matched back to that state and has no white space at either end |
| StateMacos.SpotifyStateOfOutput | state_macos.go:38-58 | A run's output is answered without error exactly when it parses, else with `StateUnknown` and the "bad output" error |
| Watcher.Triage | main.go:56-77 | The checks before the window is touched, in order. The zero record, and only it, resets the window. An unreadable `%CPU` fails with its parse error. A failed state query fails with its error. Frontmost Spotify without `forceful` is ignored. Every other record is sampled with its `%CPU` and state |
| Watcher.NoQueryBeforeCpu | main.go:57-67 | For the zero record or an unreadable `%CPU`, the state query's answer makes no difference |
| Watcher.ForegroundIgnored | main.go:72-75 | Frontmost without `forceful`: ignored, nothing appended |
| Watcher.NoKillUnlessFull | main.go:83 | No kill unless the sample count equals `avgWindow` |
| Watcher.BusyKills | main.go:84-87 | With a full window, an average above `busyThreshold` kills whatever the state |
| Watcher.ExcusedSpared | main.go:88-90 | Playing or frontmost, at or below `busyThreshold`: no kill |
| Watcher.IdleHighKills | main.go:91-94 | With a full window in any other state, an average above `idleThreshold` kills |
| Watcher.Decide | main.go:83-95 | A kill happens exactly when the window is full and either the average is above `busyThreshold`, or Spotify is neither playing nor frontmost and the average is above `idleThreshold` |
| Watcher.Verdict | main.go:83-95 | Spared exactly when the decision is to spare. Killed exactly when the decision is to kill and `Atoi` reads the pid, and then it is that pid. Failed with the `Atoi` error exactly when the pid is unreadable |
| Watcher.DecideMonotone | main.go:82-96 | A higher average never turns a kill into a reprieve |
| Watcher.NaNNeverKills | main.go:85 | A NaN average compares above nothing and never kills |
| Watcher.KillTarget | main.go:49-52 | A pid is only found in a non-empty `Pid` and fits a 64-bit int |
| Watcher.KillTargetOfPid | main.go:49 | The decimal pid `top` prints is the pid signalled |
| Watcher.KillTargetRejects | main.go:49-52 | A pid with a non-digit (other than a leading sign) is an error and nothing is killed |
| Watcher.ZeroProcessHasNoTarget | main.go:49-52 | The zero record's empty pid is a syntax error |
| Watcher.Tracker.constructor | main.go:43-45 | The tracker's window has capacity `avgWindow` |
| Watcher.NewTracker | main.go:43-45 | No tracker (the `NewMovingAvg` panic) exactly when `avgWindow <= 0`; otherwise an empty window |
| Watcher.Tracker.Observe | main.go:56-97 | The zero record resets the window. An early stop returns its outcome with the window untouched. A sample is appended, and the decision is taken on the last `avgWindow` samples |
| Watcher.Tracker.Sample | main.go:77-96 | Appends the sample, then kills, spares or fails as `Decide` and `Kill` say for the new window's length and mean |
| Watcher.Tracker.Respond | main.go:87-96 | The kill-or-spare step returns exactly the outcome `Verdict` gives for the window length, average and state |
| Watcher.Tracker.KillProcess | main.go:47-54 | Kills exactly when the pid parses, and then that pid; otherwise returns the parse error |
| Watcher.KillNeedsFullWindow | main.go:77-83 | A kill needs at least `avgWindow` samples since the last reset |
| Watcher.Shown | main.go:161-164 | Exactly the records whose command starts with "Spotify" are shown and reported |
| Watcher.Subject | main.go:161-168 | The zero record exactly when no command is "Spotify"; otherwise the last record whose command is exactly "Spotify" |
| Watcher.SelectSubject | main.go:133-168 | The loop ends with `Subject` and `Shown` of the frame |
| Watcher.SubjectIsShown | main.go:161-168 | The chosen record is always among those shown |

## Left out

- Goroutines, channels, `select`, `time.After` and the `RWMutex` are not modelled. Each turn of a watcher loop is one step driven by an explicit event: a heartbeat, or a timeout that records whether a receiver was waiting. `watch`'s loop is one `OnIdle` call per idle tick.
- Process plumbing is not modelled: `exec.Command`, `Start`/`Wait`, `io.Copy`, `io.Pipe`, `RunIdleCmd`, `IdleCmd.Buffer`, `startAndWait` and `IdlePipe`. Output reaching the buffers is the `Copy`/`Receive` methods.
- `IdleCmd.BufStdout`, which top_macos.go reads, is not declared in exec.go. It is modelled as the text the command has written.
- The AppleScript runs (`osascript`, `./SpotifyState.applescript`), `TellSpotifyToQuit` and the `kill` system call are external. A script run's outcome is an input. A kill is the outcome `Killed(pid)`, and the kill's own error is not modelled.
- Not modelled: the metrics agent (influxdb.go), `parseOptions`/docopt, main_test.go, and all printing and logging (`%.2f` formatting included).
- `MovingAvg.Reset`, `Length` and `Average` are called by main.go but not defined in math.go. They are modelled as emptying the window, `len(window)` and `Value`.
- The `FloatWindow` of math_test.go (median, quantile, sum function) has no implementation in the source and is not modelled. Only the table of sliding means is, and it is checked against `MovingAvg`.
- GoStrconv.ParseFloat: accepts plain decimal numerals only (sign, digits, at most one point). It rejects exponents, "Inf", "NaN", hexadecimal and underscores, which Go accepts. Values are exact reals, with no rounding to float64.
- Floating-point rounding throughout: samples, sums and means are reals.
- The 64 KiB line limit of `bufio.Scanner` and the `log.Fatal` on `scanner.Err()` are not modelled; every line is accepted.
- Buffers hold text as code points; byte-level UTF-8 decoding is not modelled. `idleWriter` and `timeoutWriter` carry bytes.
- Top.Top.OnIdle: on the fatal header error it states nothing about the buffer or counter, because the process exits.
- TopMacos.Top.OnIdle: the same as for `Top.Top.OnIdle`.
- A `NextTick` offered with no receiver is dropped. Each `OnIdle` call reports only whether one was offered.
- Breach counting and a graceful quit before the kill: this revision's `Observe` has neither and kills directly (main.go:83-95).
