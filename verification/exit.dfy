/**
 * The cooperative shutdown protocol. A `RequestExit` event installs the
 * `Exiting` marker resource in the First stage of a tick; during the tick any
 * subsystem may vote to postpone by calling `delay()`; in the Last stage
 * `perform_exit` either emits `AppExit` (and arms the watchdog that kills the
 * process after the grace period) or, when delayed, waits one more tick. The
 * vote is reset at every finalisation attempt, so a delay lasts one tick.
 */
module Exit {
  import opened Common

  /** Grace period, in milliseconds, of the watchdog armed on exit. */
  const ForceExitDelayMs: nat := 1000

  /** The marker resource. */
  datatype Exiting = Exiting(delay: bool, forceExitDelayMs: Option<nat>)

  /**
   * Everything the protocol touches: pending `RequestExit` events, the
   * marker, the number of `AppExit` events emitted and the grace periods of
   * the watchdogs armed so far (the watchdog thread itself is not modelled).
   */
  datatype ExitState = ExitState(requests: nat, marker: Option<Exiting>, appExits: nat, watchdogs: seq<nat>)

  const Quiet: ExitState := ExitState(0, None, 0, [])

  /** `exit_requested`: consume every pending request; if there was one, install a fresh marker. */
  function Requested(s: ExitState): (t: ExitState)
    ensures t.requests == 0 && t.appExits == s.appExits && t.watchdogs == s.watchdogs
    ensures s.requests > 0 ==> t.marker == Some(Exiting(false, Some(ForceExitDelayMs)))
    ensures s.requests == 0 ==> t.marker == s.marker
  {
    s.(requests := 0, marker := if s.requests > 0 then Some(Exiting(false, Some(ForceExitDelayMs))) else s.marker)
  }

  /** `Exiting::delay`, called by a subsystem that holds the marker. */
  function Delayed(s: ExitState): (t: ExitState)
    requires s.marker.Some?
  {
    s.(marker := Some(s.marker.value.(delay := true)))
  }

  /** `perform_exit` */
  function Performed(s: ExitState): (t: ExitState)
  {
    match s.marker
    case None => s
    case Some(e) =>
      var fired :=
        if e.delay then s
        else s.(appExits := s.appExits + 1,
                watchdogs := s.watchdogs + if e.forceExitDelayMs.Some? then [e.forceExitDelayMs.value] else []);
      fired.(marker := Some(e.(delay := false)))
  }

  /** One tick of the protocol: latch, then the subsystems' votes, then finalisation. */
  function Cycle(s: ExitState, delay: bool): ExitState {
    var latched := Requested(s);
    Performed(if delay && latched.marker.Some? then Delayed(latched) else latched)
  }

  /** Consecutive ticks, one vote each. */
  function Run(s: ExitState, votes: seq<bool>): ExitState
    decreases |votes|
  {
    if votes == [] then s else Run(Cycle(s, votes[0]), votes[1..])
  }

  class ExitCoordinator {
    var requests: nat
    var marker: Option<Exiting>
    var appExits: nat
    var watchdogs: seq<nat>

    function State(): ExitState
      reads this
    {
      ExitState(requests, marker, appExits, watchdogs)
    }

    constructor ()
      ensures State() == Quiet
    {
      requests, marker, appExits, watchdogs := 0, None, 0, [];
    }

    /** Send a `RequestExit` event. */
    method RequestExit()
      modifies this
      ensures State() == old(State()).(requests := old(requests) + 1)
    {
      requests := requests + 1;
    }

    /** `exit_requested`, run in the First stage. */
    method ExitRequested()
      modifies this
      ensures State() == Requested(old(State()))
    {
      if requests > 0 {
        marker := Some(Exiting(false, Some(ForceExitDelayMs)));
      }
      requests := 0;
    }

    /** `Exiting::delay` */
    method Delay()
      requires marker.Some?
      modifies this
      ensures State() == Delayed(old(State()))
    {
      marker := Some(marker.value.(delay := true));
    }

    /** `perform_exit`, run in the Last stage. */
    method PerformExit()
      modifies this
      ensures State() == Performed(old(State()))
    {
      if marker.Some? {
        var e := marker.value;
        if !e.delay {
          appExits := appExits + 1;
          if e.forceExitDelayMs.Some? {
            watchdogs := watchdogs + [e.forceExitDelayMs.value];
          }
        }
        marker := Some(e.(delay := false));
      }
    }
  }

  // ---------------------------------------------------------------------------
  // Properties of the protocol

  /** Delaying twice is delaying once. */
  lemma DelayIdempotent(s: ExitState)
    requires s.marker.Some?
    ensures Delayed(Delayed(s)) == Delayed(s)
  {
  }

  /**
   * Finalisation: without a marker nothing happens; with one, AppExit is
   * emitted and the watchdog armed with the marker's grace period exactly
   * when nobody delayed; either way the vote is reset.
   */
  lemma PerformExitOutcome(s: ExitState)
    ensures s.marker.None? ==> Performed(s) == s
    ensures s.marker.Some? ==>
      && Performed(s).marker == Some(s.marker.value.(delay := false))
      && Performed(s).requests == s.requests
      && Performed(s).appExits == s.appExits + (if s.marker.value.delay then 0 else 1)
      && Performed(s).watchdogs == s.watchdogs +
           (if !s.marker.value.delay && s.marker.value.forceExitDelayMs.Some? then [s.marker.value.forceExitDelayMs.value] else [])
  {
  }

  /** As long as some subsystem delays on every tick, the process does not exit. */
  lemma {:induction false} AlwaysDelayedNeverExits(s: ExitState, votes: seq<bool>)
    requires s.marker.Some? || s.requests > 0
    requires forall i | 0 <= i < |votes| :: votes[i]
    ensures Run(s, votes).appExits == s.appExits
    ensures Run(s, votes).watchdogs == s.watchdogs
    decreases |votes|
  {
    if votes != [] {
      var t := Cycle(s, true);
      assert t.appExits == s.appExits && t.watchdogs == s.watchdogs && t.marker.Some?;
      AlwaysDelayedNeverExits(t, votes[1..]);
    }
  }

  /**
   * Eventual termination: after a request, the process exits on the first
   * tick in which nobody delays, not before, and arms exactly one 1000 ms
   * watchdog.
   */
  lemma {:induction false} ExitsOnFirstUndelayedTick(s: ExitState, votes: seq<bool>, k: nat)
    requires s.requests > 0 || s.marker == Some(Exiting(false, Some(ForceExitDelayMs)))
    requires k < |votes| && !votes[k]
    requires forall i | 0 <= i < k :: votes[i]
    ensures Run(s, votes[..k]).appExits == s.appExits
    ensures Run(s, votes[..k + 1]).appExits == s.appExits + 1
    ensures Run(s, votes[..k + 1]).watchdogs == s.watchdogs + [ForceExitDelayMs]
    decreases k
  {
    var t := Cycle(s, votes[0]);
    if k == 0 {
      assert votes[..1] == [votes[0]] && votes[..1][1..] == [];
      assert Run(s, votes[..1]) == Run(t, []);
    } else {
      assert t.appExits == s.appExits && t.watchdogs == s.watchdogs;
      assert t.marker == Some(Exiting(false, Some(ForceExitDelayMs)));
      ExitsOnFirstUndelayedTick(t, votes[1..], k - 1);
      assert votes[..k][1..] == votes[1..][..k - 1];
      assert votes[..k + 1][1..] == votes[1..][..k];
    }
  }

  /**
   * Latency: a request that arrives after this tick's latch is not acted on
   * by this tick's finalisation; the next tick latches it and, when nobody
   * delays, exits, arming the watchdog.
   */
  lemma RequestExitsNextTick(s: ExitState)
    requires s.requests > 0
    ensures s.marker.None? ==> Performed(s).appExits == s.appExits
    ensures Cycle(s, false).appExits == s.appExits + 1
    ensures Cycle(s, false).watchdogs == s.watchdogs + [ForceExitDelayMs]
  {
  }
}
