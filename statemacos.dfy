/**
 * state_macos.go: the earlier revision of Spotify's state, an integer
 * enumeration read from the output of `./SpotifyState.applescript`.
 * Running the script is outside the model: `SpotifyState` takes what
 * `CombinedOutput` returned.
 */
module StateMacos {
  import opened Wrappers
  import opened GoStrings

  /** `type State int`: any integer; the named constants count up from 0. */
  type State = int

  const StateUnknown: State := 0
  const StateActive: State := 1
  const StateStopped: State := 2
  const StatePlaying: State := 3
  const StatePaused: State := 4
  const StateClosed: State := 5

  /** The states with a label of their own. */
  predicate Known(s: State) {
    StateActive <= s <= StateClosed
  }

  /** `State.String`: the label of a known state, "unknown" for any other integer. */
  function String(s: State): (t: string)
    ensures t == "unknown" <==> !Known(s)
  {
    if s == StateActive then "active"
    else if s == StateStopped then "stopped"
    else if s == StatePlaying then "playing"
    else if s == StatePaused then "paused"
    else if s == StateClosed then "closed"
    else "unknown"
  }

  /** Why `SpotifyState` failed: the script could not be run, or printed something else. */
  datatype StateError = ScriptFailed(reason: string) | BadOutput

  /** The `switch` of `SpotifyState`, on an already trimmed label. */
  function FromLabel(t: string): (r: Result<State, StateError>)
    ensures r.Ok? ==> Known(r.value) && String(r.value) == t
    ensures r.Err? ==> r.error == BadOutput
  {
    match t
    case "active" => Ok(StateActive)
    case "stopped" => Ok(StateStopped)
    case "playing" => Ok(StatePlaying)
    case "paused" => Ok(StatePaused)
    case "closed" => Ok(StateClosed)
    case _ => Err(BadOutput)
  }

  /** How `SpotifyState` reads the output: trimmed of surrounding whitespace, then matched. */
  function ParseOutput(out: string): (r: Result<State, StateError>)
    ensures r.Ok? ==> Known(r.value) && String(r.value) == TrimSpace(out)
    ensures r.Err? ==> r.error == BadOutput
  {
    FromLabel(TrimSpace(out))
  }

  /** `SpotifyState`'s two results: the state, and the error if there was one. */
  datatype Answer = Answer(s: State, err: Option<StateError>)

  /**
   * `SpotifyState`, given the script run's outcome: the combined output, or
   * the reason it failed. On any error `s` keeps its zero value, `StateUnknown`.
   */
  function SpotifyState(run: Result<string, string>): (a: Answer)
    ensures a.err.Some? ==> a.s == StateUnknown
    ensures run.Err? ==> a.err == Some(ScriptFailed(run.error))
    ensures a.err.None? ==> Known(a.s)
  {
    if run.Err? then Answer(StateUnknown, Some(ScriptFailed(run.error)))
    else
      match ParseOutput(run.value)
      case Ok(s) => Answer(s, None)
      case Err(e) => Answer(StateUnknown, Some(e))
  }

  // ---------------------------------------------------------------------------
  // Properties

  /** The constants are 0, 1, ..., 5, as `iota` numbers them. */
  lemma ConstantsAreConsecutive()
    ensures [StateUnknown, StateActive, StateStopped, StatePlaying, StatePaused, StateClosed] == [0, 1, 2, 3, 4, 5]
  {
  }

  /** The labels are pairwise different, so `String` loses nothing on the known states. */
  lemma StringInjective(s: State, t: State)
    requires Known(s) && Known(t) && String(s) == String(t)
    ensures s == t
  {
  }

  /** A trimmed output is understood exactly when it is the label of a known state, and then it names that state. */
  lemma FromLabelIff(t: string)
    ensures FromLabel(t).Ok? <==> exists s :: Known(s) && String(s) == t
    ensures FromLabel(t).Ok? ==> String(FromLabel(t).value) == t
  {
    if FromLabel(t).Ok? {
      assert Known(FromLabel(t).value) && String(FromLabel(t).value) == t;
    }
  }

  /** Round trip: each known state's label, with any whitespace around it, parses back to that state. */
  lemma ParseOutputOfString(s: State, w1: string, w2: string)
    requires Known(s) && AllSpace(w1) && AllSpace(w2)
    ensures ParseOutput(w1 + String(s) + w2) == Ok(s)
  {
    LabelOfKnown(s);
    TrimSpacePadded(w1, String(s), w2);
  }

  /** Each known state's label is understood as that state and carries no surrounding space. */
  lemma LabelOfKnown(s: State)
    requires Known(s)
    ensures FromLabel(String(s)) == Ok(s)
    ensures var t := String(s); t != [] && !IsSpace(t[0]) && !IsSpace(t[|t| - 1])
  {
  }

  /** A successful run is answered without error exactly when its output parses, and with that state. */
  lemma SpotifyStateOfOutput(out: string)
    ensures SpotifyState(Ok(out)).err.None? <==> ParseOutput(out).Ok?
    ensures ParseOutput(out).Ok? ==> SpotifyState(Ok(out)).s == ParseOutput(out).value
    ensures ParseOutput(out).Err? ==> SpotifyState(Ok(out)) == Answer(StateUnknown, Some(BadOutput))
  {
  }
}
