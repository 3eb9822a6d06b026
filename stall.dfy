/**
 * The idle watcher behind `idleWriter.notifyOnIdle` (exec.go) and
 * `timeoutWriter.notifyOnTimeout` (top.go): a loop over one flag,
 * `stalled`. Real time and goroutines are abstracted into events: a
 * heartbeat (a write happened) and a timeout (the watcher's `time.After(d)`
 * fired first). A timeout carries whether someone was receiving on the idle
 * channel at that moment, because the idle send does not block.
 */
module Stall {

  /** Armed: waiting for a heartbeat or the timer. Stalled: idle reported, waiting for a heartbeat. */
  datatype Phase = Armed | Stalled

  datatype Event = Heartbeat | Timeout(listening: bool)

  /** What one turn of the loop sends on the idle channel. */
  datatype Emit = Quiet | Offered(delivered: bool)

  /**
   * One turn of the loop. A stalled watcher runs no timer, so a timeout
   * cannot reach it; should one be fed in, nothing happens.
   */
  function Step(ph: Phase, e: Event): (r: (Phase, Emit))
    ensures r.0 == Armed <==> e.Heartbeat?
    ensures r.1.Offered? <==> ph == Armed && e.Timeout?
    ensures r.1.Offered? ==> r.1.delivered == e.listening
  {
    match ph
    case Stalled =>
      if e.Heartbeat? then (Armed, Quiet) else (Stalled, Quiet)
    case Armed =>
      match e
      case Heartbeat => (Armed, Quiet)
      case Timeout(listening) => (Stalled, Offered(listening))
  }

  /** The loop over a finite run of events: the final phase and one emit per event. */
  function Run(ph: Phase, es: seq<Event>): (r: (Phase, seq<Emit>))
    ensures |r.1| == |es|
    decreases |es|
  {
    if es == [] then (ph, [])
    else
      var (ph', e) := Step(ph, es[0]);
      var (last, rest) := Run(ph', es[1..]);
      (last, [e] + rest)
  }

  function Offers(emits: seq<Emit>): nat {
    if emits == [] then 0 else (if emits[0].Offered? then 1 else 0) + Offers(emits[1..])
  }

  function Heartbeats(es: seq<Event>): nat {
    if es == [] then 0 else (if es[0].Heartbeat? then 1 else 0) + Heartbeats(es[1..])
  }

  // ---------------------------------------------------------------------------
  // Properties

  /** Armed: a heartbeat keeps it armed and sends nothing. */
  lemma ArmedHeartbeat()
    ensures Step(Armed, Heartbeat) == (Armed, Quiet)
  {
  }

  /** Stalled: the next heartbeat re-arms it, silently. */
  lemma StalledHeartbeat()
    ensures Step(Stalled, Heartbeat) == (Armed, Quiet)
  {
  }

  /** A timeout in Armed stalls and offers exactly one idle tick, delivered only to a listener. */
  lemma ArmedTimeout(listening: bool)
    ensures Step(Armed, Timeout(listening)) == (Stalled, Offered(listening))
  {
  }

  /** Without heartbeats the watcher offers at most one idle tick, however long the silence. */
  lemma {:induction false} AtMostOneOfferWithoutHeartbeat(ph: Phase, es: seq<Event>)
    requires Heartbeats(es) == 0
    ensures Offers(Run(ph, es).1) <= (if ph == Armed then 1 else 0)
    ensures es != [] ==> Run(ph, es).0 == Stalled
    decreases |es|
  {
    if es != [] {
      var (ph', e) := Step(ph, es[0]);
      AtMostOneOfferWithoutHeartbeat(ph', es[1..]);
    }
  }

  /** From Armed, silence (a non-empty run of timeouts) offers exactly one idle tick. */
  lemma {:induction false} SilenceOffersOnce(es: seq<Event>)
    requires es != [] && Heartbeats(es) == 0
    ensures Offers(Run(Armed, es).1) == 1
  {
    AtMostOneOfferWithoutHeartbeat(Stalled, es[1..]);
  }

  /** Idle offers never outnumber heartbeats by more than one: one offer per stall. */
  lemma {:induction false} OffersBoundedByHeartbeats(ph: Phase, es: seq<Event>)
    ensures Offers(Run(ph, es).1) + (if ph == Stalled then 1 else 0) <= Heartbeats(es) + 1
    decreases |es|
  {
    if es != [] {
      var (ph', e) := Step(ph, es[0]);
      OffersBoundedByHeartbeats(ph', es[1..]);
    }
  }

  /** A heartbeat always leaves the watcher armed, whatever came before. */
  lemma {:induction false} HeartbeatRearms(ph: Phase, es: seq<Event>)
    ensures Run(ph, es + [Heartbeat]).0 == Armed
    decreases |es|
  {
    if es == [] {
      assert es + [Heartbeat] == [Heartbeat];
    } else {
      assert (es + [Heartbeat])[1..] == es[1..] + [Heartbeat];
      HeartbeatRearms(Step(ph, es[0]).0, es[1..]);
    }
  }

  /** Running one more event continues the run: the loop can be read left to right. */
  lemma {:induction false} RunAppend(ph: Phase, es: seq<Event>, e: Event)
    ensures Run(ph, es + [e]) == (Step(Run(ph, es).0, e).0, Run(ph, es).1 + [Step(Run(ph, es).0, e).1])
    decreases |es|
  {
    if es == [] {
      assert es + [e] == [e];
      assert [e][1..] == [];
      assert Run(ph, [e]) == (Step(ph, e).0, [Step(ph, e).1] + []);
      assert [] + [Step(ph, e).1] == [Step(ph, e).1] + [];
    } else {
      assert (es + [e])[0] == es[0];
      assert (es + [e])[1..] == es[1..] + [e];
      var (ph', first) := Step(ph, es[0]);
      RunAppend(ph', es[1..], e);
      var (mid, rest) := Run(ph', es[1..]);
      assert [first] + (rest + [Step(mid, e).1]) == ([first] + rest) + [Step(mid, e).1];
    }
  }

  /** The `stalled` flag of the Go loops as a phase. */
  function PhaseOf(stalled: bool): Phase {
    if stalled then Stalled else Armed
  }
}
