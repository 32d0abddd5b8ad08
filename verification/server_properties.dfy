/** Properties of the local server's lifecycle, over any sequence of ticks. */
module ServerProperties {
  import opened Common
  import opened ServerStates
  import Msg = LocalServerMessages
  import opened Save
  import Exit
  import opened ServerMachine

  // ---------------------------------------------------------------------------
  // What command handling can do

  /**
   * Command handling never changes the state, the public state or the
   * start-up flag; it only queues the transition its state allows, stores a
   * save configuration, and broadcasts Off; only NotRunning touches the disk,
   * and a panic ends it.
   */
  lemma {:induction false} CommandsHandledFacts(m: Machine, d: Disk, denied: set<Path>, ron: Ron, cmds: seq<Msg.Command>)
    ensures var (r, d') := CommandsHandled(m, d, denied, ron, cmds);
      && r.state == m.state && r.started == m.started && r.publicState == m.publicState
      && |r.outbox| >= |m.outbox| && r.outbox[..|m.outbox|] == m.outbox
      && (forall i | |m.outbox| <= i < |r.outbox| :: r.outbox[i] == Msg.Off)
      && (m.panicked ==> r == m && d' == d)
      && (r.queued == m.queued || (m.state == NotRunning && r.queued == Some(Loading)) || (m.state == Loading && r.queued == Some(Unloading)))
      && (m.state != NotRunning ==> d' == d && r.outbox == m.outbox)
      && (WellFormed(d) ==> WellFormed(d'))
    decreases |cmds|
  {
    if cmds != [] {
      var (r0, d0) := CommandsHandled(m, d, denied, ron, cmds[..|cmds| - 1]);
      CommandsHandledFacts(m, d, denied, ron, cmds[..|cmds| - 1]);
      CommandedFacts(r0, d0, denied, ron, cmds[|cmds| - 1]);
    }
  }

  /** The same facts for one command. */
  lemma CommandedFacts(m: Machine, d: Disk, denied: set<Path>, ron: Ron, cmd: Msg.Command)
    ensures var (r, d') := Commanded(m, d, denied, ron, cmd);
      && r.state == m.state && r.started == m.started && r.publicState == m.publicState
      && (r.outbox == m.outbox || r.outbox == m.outbox + [Msg.Off])
      && (m.panicked ==> r == m && d' == d)
      && (r.queued == m.queued || (m.state == NotRunning && r.queued == Some(Loading)) || (m.state == Loading && r.queued == Some(Unloading)))
      && (m.state != NotRunning ==> d' == d && r.outbox == m.outbox)
      && (WellFormed(d) ==> WellFormed(d'))
  {
    if !m.panicked && m.state == NotRunning && cmd.CreateStartServer? && WellFormed(d) {
      LoadOrCreateKeepsWellFormed(d, denied, ron, cmd.path);
    }
  }

  // ---------------------------------------------------------------------------
  // The lifecycle invariant

  /** A public state the server can broadcast: never Running, and a loading fraction in [0, 1). */
  predicate Broadcastable(p: Msg.PublicState) {
    p != Msg.Running && (p.Loading? ==> 0.0 <= p.completion < 1.0)
  }

  /**
   * What holds between ticks: the server is never Running or Paused; no
   * transition is left queued unless the process panicked; the public state
   * matches the server state; Exiting is only reached under the exit marker;
   * the disk stays well formed.
   */
  ghost predicate Inv(w: World) {
    var m := w.machine;
    && WellFormed(w.disk)
    && m.state != Running && m.state != Paused
    && (m.queued.Some? ==> m.panicked)
    && (!m.started ==> m.state == NotRunning && m.publicState == Msg.Off)
    && (m.state == Exiting ==> w.exit.marker.Some?)
    && (w.exit.marker.Some? ==> !w.exit.marker.value.delay)
    && (m.started && m.state == NotRunning ==> m.publicState == Msg.Off)
    && (m.started && m.state == Loading ==> m.publicState.Loading?)
    && (m.state == Unloading ==> m.publicState == Msg.ShuttingDown)
    && Broadcastable(m.publicState)
    && (forall i | 0 <= i < |m.outbox| :: Broadcastable(m.outbox[i]))
  }

  lemma InitialInv(d: Disk, e: Exit.ExitState)
    requires WellFormed(d) && e.marker.None?
    ensures Inv(World(Initial, d, e))
  {
  }

  lemma SmoothStaysBelowOne(c: real)
    requires 0.0 <= c < 1.0
    ensures c < Smooth(c) < 1.0
  {
  }

  /** Start-up and the update handlers keep the invariant's state facts and add only broadcastable states. */
  lemma UpdateStep(w: World)
    requires Inv(w) && !w.machine.panicked
    ensures var u := Updated(Started(w.machine));
      && u.started && u.state == w.machine.state && u.saveConfig == w.machine.saveConfig
      && (u.queued.Some? ==> u.panicked || (u.state == Unloading && u.queued == Some(NotRunning)))
      && (u.state == NotRunning ==> u.publicState == Msg.Off)
      && (u.state == Loading ==> u.publicState.Loading?)
      && (u.state == Unloading ==> u.publicState == Msg.ShuttingDown)
      && Broadcastable(u.publicState)
      && (forall i | 0 <= i < |u.outbox| :: Broadcastable(u.outbox[i]))
  {
    var s := Started(w.machine);
    assert Broadcastable(s.publicState) && forall i | 0 <= i < |s.outbox| :: Broadcastable(s.outbox[i]);
    if s.state == Loading && s.publicState.Loading? {
      SmoothStaysBelowOne(s.publicState.completion);
    }
  }

  /** The shutdown check and the transition keep the invariant, given what command handling left. */
  lemma TransitionStep(h: Machine, d: Disk, latched: Exit.ExitState, e': Exit.ExitState)
    requires WellFormed(d) && !h.panicked && h.started
    requires h.state != Running && h.state != Paused
    requires h.queued.Some? ==>
      || (h.state == Unloading && h.queued == Some(NotRunning))
      || (h.state == NotRunning && h.queued == Some(Loading))
      || (h.state == Loading && h.queued == Some(Unloading))
    requires h.state == Exiting ==> latched.marker.Some?
    requires latched.marker.Some? ==> e'.marker.Some?
    requires e'.marker.Some? ==> !e'.marker.value.delay
    requires h.state == NotRunning ==> h.publicState == Msg.Off
    requires h.state == Loading ==> h.publicState.Loading?
    requires h.state == Unloading ==> h.publicState == Msg.ShuttingDown
    requires Broadcastable(h.publicState) && forall i | 0 <= i < |h.outbox| :: Broadcastable(h.outbox[i])
    ensures Inv(World(Transitioned(ShutdownChecked(h, latched.marker.Some?)), d, e'))
  {
    var c := ShutdownChecked(h, latched.marker.Some?);
    var t := Transitioned(c);
    assert forall i | 0 <= i < |t.outbox| :: Broadcastable(t.outbox[i]) by {
      if c.queued.Some? {
        assert t == Entered(c.(state := c.queued.value, queued := None));
      }
    }
  }

  /** Every tick keeps the lifecycle invariant. */
  lemma TickKeepsInv(w: World, denied: set<Path>, ron: Ron, cmds: seq<Msg.Command>, delay: bool)
    requires Inv(w)
    ensures Inv(Ticked(w, denied, ron, cmds, delay))
  {
    if !w.machine.panicked {
      var latched := Exit.Requested(w.exit);
      var u := Updated(Started(w.machine));
      UpdateStep(w);
      var (h, d) := CommandsHandled(u, w.disk, denied, ron, cmds);
      CommandsHandledFacts(u, w.disk, denied, ron, cmds);
      assert forall i | 0 <= i < |h.outbox| :: Broadcastable(h.outbox[i]) by {
        forall i | 0 <= i < |h.outbox|
          ensures Broadcastable(h.outbox[i])
        {
          if i < |u.outbox| {
            assert h.outbox[i] == h.outbox[..|u.outbox|][i];
          }
        }
      }
      if !h.panicked {
        TransitionStep(h, d, latched, Exit.Cycle(w.exit, delay));
      }
    }
  }

  // ---------------------------------------------------------------------------
  // Runs of ticks

  /** The input of one tick: the commands sent and whether some subsystem postpones the exit. */
  datatype Input = Input(cmds: seq<Msg.Command>, delay: bool)

  function Run(w: World, denied: set<Path>, ron: Ron, inputs: seq<Input>): World
    decreases |inputs|
  {
    if inputs == [] then w
    else Run(Ticked(w, denied, ron, inputs[0].cmds, inputs[0].delay), denied, ron, inputs[1..])
  }

  lemma {:induction false} RunKeepsInv(w: World, denied: set<Path>, ron: Ron, inputs: seq<Input>)
    requires Inv(w)
    ensures Inv(Run(w, denied, ron, inputs))
    decreases |inputs|
  {
    if inputs != [] {
      TickKeepsInv(w, denied, ron, inputs[0].cmds, inputs[0].delay);
      RunKeepsInv(Ticked(w, denied, ron, inputs[0].cmds, inputs[0].delay), denied, ron, inputs[1..]);
    }
  }

  /**
   * From start-up, whatever the commands and exit votes: the server is never
   * Running or Paused, never broadcasts Running, every loading fraction it
   * broadcasts is in [0, 1), and it is only Exiting under the exit marker.
   */
  lemma NeverRunning(d: Disk, denied: set<Path>, ron: Ron, inputs: seq<Input>)
    requires WellFormed(d)
    ensures var w := Run(World(Initial, d, Exit.Quiet), denied, ron, inputs);
      && w.machine.state != Running && w.machine.state != Paused
      && (forall i | 0 <= i < |w.machine.outbox| :: w.machine.outbox[i] != Msg.Running)
      && (forall i | 0 <= i < |w.machine.outbox| :: w.machine.outbox[i].Loading? ==> 0.0 <= w.machine.outbox[i].completion < 1.0)
      && (w.machine.state == Exiting ==> w.exit.marker.Some?)
      && WellFormed(w.disk)
  {
    InitialInv(d, Exit.Quiet);
    RunKeepsInv(World(Initial, d, Exit.Quiet), denied, ron, inputs);
  }

  // ---------------------------------------------------------------------------
  // Loading progress

  function Power(r: real, n: nat): real {
    if n == 0 then 1.0 else r * Power(r, n - 1)
  }

  /** The completion broadcast after `n` updates in Loading, starting from the 0.0 set on entry. */
  function Progress(n: nat): real {
    if n == 0 then 0.0 else Smooth(Progress(n - 1))
  }

  /** Closed form: after `n` updates the remaining distance is 0.99 to the power `n`. */
  lemma {:induction false} ProgressClosedForm(n: nat)
    ensures Progress(n) == 1.0 - Power(0.99, n)
  {
    if n > 0 {
      ProgressClosedForm(n - 1);
    }
  }

  /** The progress starts at 0, strictly increases and never reaches 1. */
  lemma {:induction false} ProgressBounds(n: nat)
    ensures 0.0 <= Progress(n) < Progress(n + 1) < 1.0
  {
    if n > 0 {
      ProgressBounds(n - 1);
    }
    SmoothStaysBelowOne(Progress(n));
  }

  /** In Loading, start requests change nothing. */
  lemma {:induction false} LoadingIgnoresStarts(m: Machine, d: Disk, denied: set<Path>, ron: Ron, cmds: seq<Msg.Command>)
    requires m.state == Loading
    requires forall i | 0 <= i < |cmds| :: cmds[i].CreateStartServer?
    ensures CommandsHandled(m, d, denied, ron, cmds) == (m, d)
    decreases |cmds|
  {
    if cmds != [] {
      LoadingIgnoresStarts(m, d, denied, ron, cmds[..|cmds| - 1]);
    }
  }

  /**
   * A tick in Loading without a stop request or an exit: the state stays
   * Loading, the completion advances one smoothing step, and exactly that one
   * public state is broadcast.
   */
  lemma LoadingTick(w: World, denied: set<Path>, ron: Ron, cmds: seq<Msg.Command>, delay: bool)
    requires Inv(w) && !w.machine.panicked && w.machine.started && w.machine.state == Loading
    requires forall i | 0 <= i < |cmds| :: cmds[i].CreateStartServer?
    requires w.exit.requests == 0 && w.exit.marker.None?
    ensures var c := w.machine.publicState.completion;
      var w' := Ticked(w, denied, ron, cmds, delay);
      && w'.machine == w.machine.(publicState := Msg.Loading(Smooth(c)), outbox := w.machine.outbox + [Msg.Loading(Smooth(c))])
      && w'.disk == w.disk && w'.exit == w.exit
  {
    LoadingIgnoresStarts(Updated(w.machine), w.disk, denied, ron, cmds);
  }

  /** `n` idle ticks in Loading, from the entry value on: the state stays Loading, with completion Progress(n), one broadcast per tick. */
  lemma {:induction false} LoadingProgresses(w: World, denied: set<Path>, ron: Ron, inputs: seq<Input>, k: nat)
    requires Inv(w) && !w.machine.panicked && w.machine.started && w.machine.state == Loading
    requires w.machine.publicState == Msg.Loading(Progress(k))
    requires w.exit.requests == 0 && w.exit.marker.None?
    requires forall i | 0 <= i < |inputs| :: inputs[i].cmds == []
    ensures var w' := Run(w, denied, ron, inputs);
      && w'.machine.state == Loading && !w'.machine.panicked
      && w'.machine.publicState == Msg.Loading(Progress(k + |inputs|))
      && |w'.machine.outbox| == |w.machine.outbox| + |inputs|
      && w'.machine.outbox[..|w.machine.outbox|] == w.machine.outbox
    decreases |inputs|
  {
    if inputs != [] {
      var w1 := Ticked(w, denied, ron, inputs[0].cmds, inputs[0].delay);
      LoadingTick(w, denied, ron, inputs[0].cmds, inputs[0].delay);
      TickKeepsInv(w, denied, ron, inputs[0].cmds, inputs[0].delay);
      assert forall i | 0 <= i < |inputs[1..]| :: inputs[1..][i].cmds == [] by {
        forall i | 0 <= i < |inputs[1..]| ensures inputs[1..][i].cmds == [] {
          assert inputs[1..][i] == inputs[i + 1];
        }
      }
      LoadingProgresses(w1, denied, ron, inputs[1..], k + 1);
      var w' := Run(w1, denied, ron, inputs[1..]);
      assert w'.machine.outbox[..|w1.machine.outbox|] == w1.machine.outbox;
      assert w'.machine.outbox[..|w.machine.outbox|] == w1.machine.outbox[..|w.machine.outbox|];
    }
  }

  // ---------------------------------------------------------------------------
  // Shutdown

  /** Exiting is terminal: a tick changes neither the server nor its disk, and broadcasts nothing. */
  lemma ExitingIsTerminal(w: World, denied: set<Path>, ron: Ron, cmds: seq<Msg.Command>, delay: bool)
    requires Inv(w) && w.machine.state == Exiting
    ensures Ticked(w, denied, ron, cmds, delay).machine == w.machine
    ensures Ticked(w, denied, ron, cmds, delay).disk == w.disk
  {
    if !w.machine.panicked {
      UnhandledCommandsIgnored(w.machine, w.disk, denied, ron, cmds);
    }
  }

  /**
   * Shutdown wins: once the exit marker is latched, a tick that does not
   * panic leaves the server Exiting whatever the commands and whatever
   * transition they queued; entering Exiting broadcasts nothing, and the
   * process exits in that same tick unless some subsystem delays it.
   */
  lemma ShutdownWins(w: World, denied: set<Path>, ron: Ron, cmds: seq<Msg.Command>, delay: bool)
    requires Inv(w) && !w.machine.panicked
    requires w.exit.requests > 0 || w.exit.marker.Some?
    requires !CommandsHandled(Updated(Started(w.machine)), w.disk, denied, ron, cmds).0.panicked
    ensures var w' := Ticked(w, denied, ron, cmds, delay);
      && w'.machine.state == Exiting
      && w'.machine.outbox == CommandsHandled(Updated(Started(w.machine)), w.disk, denied, ron, cmds).0.outbox
      && w'.exit.appExits == w.exit.appExits + (if delay then 0 else 1)
  {
    CommandsHandledFacts(Updated(Started(w.machine)), w.disk, denied, ron, cmds);
  }

  /**
   * The update, command and shutdown handlers of one state are not ordered
   * relative to each other. Were the shutdown check to run first, its queued
   * Exiting would make Unloading's update and Loading's stop command request a
   * second transition, whose refusal panics.
   */
  lemma ShutdownFirstPanics(m: Machine, force: bool)
    requires !m.panicked
    ensures m.state == Unloading ==> Updated(ShutdownChecked(m, true)).panicked
    ensures m.state == Loading ==> LoadingCommand(ShutdownChecked(m, true), Msg.StopServer(force)).panicked
    ensures m.state == Unloading && m.queued.None? ==> !ShutdownChecked(Updated(m), true).panicked
    ensures m.state == Loading && m.queued.None? ==> !ShutdownChecked(LoadingCommand(m, Msg.StopServer(force)), true).panicked
  {
  }

  // ---------------------------------------------------------------------------
  // Commands in NotRunning

  /** A start request for a save that loads: stored with the directory as its path, Loading queued, nothing written or broadcast, whatever the flag. */
  lemma StartExistingSave(m: Machine, d: Disk, denied: set<Path>, ron: Ron, path: Path, only: bool)
    requires m.state == NotRunning && !m.panicked && m.queued.None?
    requires LoadPath(d, denied, ron, path).Ok?
    ensures Commanded(m, d, denied, ron, Msg.CreateStartServer(path, only))
         == (m.(saveConfig := Some(SaveConfig(path)), queued := Some(Loading)), d)
  {
    ExistingIsReadOnly(d, denied, ron, path);
  }

  /**
   * A start request that creates the save writes the default configuration.
   * With the only-if-not-existing flag the server broadcasts Off and stays
   * NotRunning, without storing it; otherwise it stores the configuration,
   * whose path is the file, and queues Loading.
   */
  lemma StartCreatedSave(m: Machine, d: Disk, denied: set<Path>, ron: Ron, path: Path, only: bool)
    requires m.state == NotRunning && !m.panicked && m.queued.None?
    requires LoadOrCreate(d, denied, ron, path).0.Ok? && LoadOrCreate(d, denied, ron, path).0.value.Created?
    ensures var (m', d') := Commanded(m, d, denied, ron, Msg.CreateStartServer(path, only));
      && d' == LoadOrCreate(d, denied, ron, path).1
      && ConfigPath(path) in d'.files && ron.pretty.Some? && d'.files[ConfigPath(path)] == ron.pretty.value + "\n"
      && (only ==> m' == m.(outbox := m.outbox + [Msg.Off]))
      && (!only ==> m' == m.(saveConfig := Some(SaveConfig(ConfigPath(path))), queued := Some(Loading)))
  {
    CreatedWritesDefaultConfig(d, denied, ron, path);
  }

  /** A start request whose save cannot be loaded or created broadcasts Off and changes nothing else in the server. */
  lemma StartFailed(m: Machine, d: Disk, denied: set<Path>, ron: Ron, path: Path, only: bool)
    requires m.state == NotRunning && !m.panicked
    requires LoadOrCreate(d, denied, ron, path).0.Err?
    ensures Commanded(m, d, denied, ron, Msg.CreateStartServer(path, only))
         == (m.(outbox := m.outbox + [Msg.Off]), LoadOrCreate(d, denied, ron, path).1)
  {
  }

  /** A corrupt save is reported and left alone: Off is broadcast, the disk is unchanged and the server stays NotRunning. */
  lemma StartCorruptSave(m: Machine, d: Disk, denied: set<Path>, ron: Ron, path: Path, only: bool)
    requires m.state == NotRunning && !m.panicked && WellFormed(d)
    requires ConfigPath(path) in d.files && LoadPath(d, denied, ron, path).Err?
    ensures Commanded(m, d, denied, ron, Msg.CreateStartServer(path, only)) == (m.(outbox := m.outbox + [Msg.Off]), d)
  {
    CorruptConfigNeverOverwritten(d, denied, ron, path);
  }

  /** Stop requests, with any force value, change nothing in NotRunning. */
  lemma {:induction false} NotRunningIgnoresStops(m: Machine, d: Disk, denied: set<Path>, ron: Ron, cmds: seq<Msg.Command>)
    requires m.state == NotRunning
    requires forall i | 0 <= i < |cmds| :: cmds[i].StopServer?
    ensures CommandsHandled(m, d, denied, ron, cmds) == (m, d)
    decreases |cmds|
  {
    if cmds != [] {
      NotRunningIgnoresStops(m, d, denied, ron, cmds[..|cmds| - 1]);
    }
  }

  // ---------------------------------------------------------------------------
  // Commands in Loading and Unloading

  function Stops(cmds: seq<Msg.Command>): nat {
    if cmds == [] then 0 else Stops(cmds[..|cmds| - 1]) + if cmds[|cmds| - 1].StopServer? then 1 else 0
  }

  /**
   * In Loading, start requests are refused and the first stop request, with
   * any force value, queues Unloading; a second stop in the same tick is
   * refused by the state queue and the handler panics.
   */
  lemma {:induction false} LoadingStops(m: Machine, d: Disk, denied: set<Path>, ron: Ron, cmds: seq<Msg.Command>)
    requires m.state == Loading && !m.panicked && m.queued.None?
    ensures var (r, d') := CommandsHandled(m, d, denied, ron, cmds);
      && d' == d
      && (Stops(cmds) == 0 ==> r == m)
      && (Stops(cmds) == 1 ==> r == m.(queued := Some(Unloading)))
      && (Stops(cmds) >= 2 <==> r.panicked)
    decreases |cmds|
  {
    if cmds != [] {
      LoadingStops(m, d, denied, ron, cmds[..|cmds| - 1]);
    }
  }

  /** Unloading ignores every command: the server is already stopping and cannot start. */
  lemma UnloadingIgnoresCommands(m: Machine, d: Disk, denied: set<Path>, ron: Ron, cmds: seq<Msg.Command>)
    requires m.state == Unloading
    ensures CommandsHandled(m, d, denied, ron, cmds) == (m, d)
  {
    UnhandledCommandsIgnored(m, d, denied, ron, cmds);
  }

  /** Without an exit, Unloading lasts one tick and returns to NotRunning, which broadcasts Off. */
  lemma UnloadingReturnsToNotRunning(w: World, denied: set<Path>, ron: Ron, cmds: seq<Msg.Command>, delay: bool)
    requires Inv(w) && !w.machine.panicked && w.machine.state == Unloading
    requires w.exit.requests == 0 && w.exit.marker.None?
    ensures var w' := Ticked(w, denied, ron, cmds, delay);
      && w'.machine == w.machine.(state := NotRunning, publicState := Msg.Off, outbox := w.machine.outbox + [Msg.Off])
      && w'.disk == w.disk
  {
    UnhandledCommandsIgnored(Updated(w.machine), w.disk, denied, ron, cmds);
  }
}
