/**
 * spotify_macos.go: Spotify's state as a text label, as the AppleScript
 * run through `osascript` prints it. Running the script is outside the
 * model: `SpotifyState` takes what `CombinedOutput` returned.
 */
module SpotifyMacos {
  import opened Wrappers
  import opened GoStrings

  /** `type State string`: any label; the constants below are the ones the program names. */
  type State = string

  const StateUnknown: State := ""
  const StateForeground: State := "foreground"
  const StateStopped: State := "stopped"
  const StatePlaying: State := "playing"
  const StatePaused: State := "paused"
  const StateClosing: State := "closing"
  const StateClosed: State := "closed"

  /** The states the script's output can name. */
  const Reported: set<State> := {StateForeground, StateStopped, StatePlaying, StatePaused, StateClosed}

  /** `State.String`: never empty; a reported state prints as the label the script gave for it. */
  function String(s: State): (t: string)
    ensures t != ""
    ensures s in Reported ==> FromLabel(t) == Ok(s)
  {
    if s == StateUnknown then "(unknown)" else s
  }

  /** Why `SpotifyState` failed: the script could not be run, or printed something else. */
  datatype StateError = ScriptFailed(reason: string) | BadOutput

  /** The `switch` of `SpotifyState`, on an already trimmed label. */
  function FromLabel(t: string): (r: Result<State, StateError>)
    ensures r.Ok? <==> t in Reported
    ensures r.Ok? ==> r.value == t
    ensures r.Err? ==> r.error == BadOutput
  {
    match t
    case "foreground" => Ok(StateForeground)
    case "stopped" => Ok(StateStopped)
    case "playing" => Ok(StatePlaying)
    case "paused" => Ok(StatePaused)
    case "closed" => Ok(StateClosed)
    case _ => Err(BadOutput)
  }

  /** How `SpotifyState` reads the output: trimmed of surrounding whitespace, then matched. */
  function ParseOutput(out: string): (r: Result<State, StateError>)
    ensures r.Ok? <==> TrimSpace(out) in Reported
    ensures r.Ok? ==> String(r.value) == TrimSpace(out)
    ensures r.Err? ==> r.error == BadOutput
  {
    FromLabel(TrimSpace(out))
  }

  /** `SpotifyState`'s two results: the state, and the error if there was one. */
  datatype Answer = Answer(s: State, err: Option<StateError>)

  /**
   * `SpotifyState`, given the script run's outcome: the combined output, or
   * the reason it failed. On any error `s` keeps its zero value.
   */
  function SpotifyState(run: Result<string, string>): (a: Answer)
    ensures a.err.Some? ==> a.s == StateUnknown
    ensures run.Err? ==> a.err == Some(ScriptFailed(run.error))
    ensures a.err.None? ==> a.s in Reported
  {
    if run.Err? then Answer(StateUnknown, Some(ScriptFailed(run.error)))
    else
      match ParseOutput(run.value)
      case Ok(s) => Answer(s, None)
      case Err(e) => Answer(StateUnknown, Some(e))
  }

  // ---------------------------------------------------------------------------
  // Properties

  /** `String` names the unknown state "(unknown)" and prints every other label as it is. */
  lemma StringOfState(s: State)
    ensures s == StateUnknown ==> String(s) == "(unknown)"
    ensures s != StateUnknown ==> String(s) == s
  {
  }

  /** The labels carry no surrounding space, so they survive trimming. */
  lemma ReportedAreTrimmed(s: State)
    requires s in Reported
    ensures s != [] && !IsSpace(s[0]) && !IsSpace(s[|s| - 1])
  {
  }

  /** Round trip: each reported state's label, with any whitespace around it, parses back to that state. */
  lemma ParseOutputOfString(s: State, w1: string, w2: string)
    requires s in Reported && AllSpace(w1) && AllSpace(w2)
    ensures ParseOutput(w1 + String(s) + w2) == Ok(s)
  {
    ReportedAreTrimmed(s);
    TrimSpacePadded(w1, s, w2);
  }

  /** `StateClosing` and `StateUnknown` are never reported without an error. */
  lemma NeverClosing(run: Result<string, string>)
    ensures SpotifyState(run).err.None? ==> SpotifyState(run).s != StateClosing && SpotifyState(run).s != StateUnknown
  {
  }

  /** A successful run is answered without error exactly when its output parses, and with that state. */
  lemma SpotifyStateOfOutput(out: string)
    ensures SpotifyState(Ok(out)).err.None? <==> ParseOutput(out).Ok?
    ensures ParseOutput(out).Ok? ==> SpotifyState(Ok(out)).s == ParseOutput(out).value
    ensures ParseOutput(out).Err? ==> SpotifyState(Ok(out)) == Answer(StateUnknown, Some(BadOutput))
  {
  }
}
