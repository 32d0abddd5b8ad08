/**
 * The local server's lifecycle: the handlers each server state registers, the
 * framework's state queue as far as the handlers use it, and one application
 * tick that runs them between the exit protocol's latch and finalisation.
 *
 * A transition requested during a tick takes effect at the end of the tick's
 * update step, where the new state's enter handler runs; its update handlers
 * run from the next tick on. The commands sent during a tick are handled by
 * the command handler of the state the server is in during that tick.
 */
module ServerMachine {
  import opened Common
  import opened ServerStates
  import Msg = LocalServerMessages
  import opened Save
  import Exit

  /** Everything the server's handlers read or write, apart from the disk and the exit protocol. */
  datatype Machine = Machine(
    state: ServerState,
    queued: Option<ServerState>,          // the transition requested in this tick
    started: bool,                        // whether the initial state has been entered
    publicState: Msg.PublicState,         // the shared public-state resource
    saveConfig: Option<SaveConfig>,       // the stored save configuration
    outbox: seq<Msg.PublicState>,         // every public state broadcast so far
    panicked: bool)                       // a handler's `expect` failed; the process aborts

  const Initial: Machine := Machine(InitialState, None, false, Msg.InitialPublicState, None, [], false)

  // ---------------------------------------------------------------------------
  // The framework's state queue

  /** `State::set`: refused, so the caller's `expect` panics, when already in the target or a transition is already queued. */
  function StateSet(m: Machine, target: ServerState): (r: Machine)
    ensures r.state == m.state && r.outbox == m.outbox && r.publicState == m.publicState && r.saveConfig == m.saveConfig
    ensures r.panicked <==> m.panicked || m.state == target || m.queued.Some?
    ensures !r.panicked ==> r.queued == Some(target)
  {
    if m.state == target || m.queued.Some? then m.(panicked := true) else m.(queued := Some(target))
  }

  /** `State::overwrite_replace`: replaces whatever is queued; refused only when already in the target. */
  function StateReplaced(m: Machine, target: ServerState): (r: Machine)
    ensures r.state == m.state && r.outbox == m.outbox && r.publicState == m.publicState && r.saveConfig == m.saveConfig
    ensures r.panicked <==> m.panicked || m.state == target
    ensures m.state != target ==> r.queued == Some(target)
  {
    if m.state == target then m.(panicked := true) else m.(queued := Some(target))
  }

  /** Writes the public-state resource and broadcasts the new value. */
  function Published(m: Machine, p: Msg.PublicState): (r: Machine)
    ensures r.publicState == p && r.outbox == m.outbox + [p]
  {
    m.(publicState := p, outbox := m.outbox + [p])
  }

  // ---------------------------------------------------------------------------
  // Enter handlers

  /** The enter handler of the state the machine is in; Exiting only logs, Running and Paused have none. */
  function Entered(m: Machine): (r: Machine)
    ensures r.state == m.state && r.queued == m.queued && r.saveConfig == m.saveConfig && r.panicked == m.panicked
    ensures m.state == NotRunning ==> r == Published(m, Msg.Off)
    ensures m.state == Loading ==> r == Published(m, Msg.Loading(0.0))
    ensures m.state == Unloading ==> r == Published(m, Msg.ShuttingDown)
    ensures !ObservesCommandsAndShutdown(m.state) ==> r == m
  {
    match m.state
    case NotRunning => Published(m, Msg.Off)
    case Loading => Published(m, Msg.Loading(0.0))
    case Unloading => Published(m, Msg.ShuttingDown)
    case _ => m
  }

  // ---------------------------------------------------------------------------
  // Update handlers

  /** One step of the loading progress: a hundredth of the remaining distance to completion. */
  function Smooth(c: real): (r: real)
    ensures 1.0 - r == (1.0 - c) * (99.0 / 100.0)
  {
    c + (1.0 - c) * 0.01
  }

  /** The update handler of the state the machine is in. */
  function Updated(m: Machine): (r: Machine)
    ensures r.state == m.state && r.saveConfig == m.saveConfig
    ensures m.state == Loading ==> r.queued == m.queued && r.panicked == m.panicked
    ensures m.state == Loading ==> r.outbox == m.outbox + [r.publicState]
    ensures m.state == Loading && m.publicState.Loading? ==> r.publicState == Msg.Loading(Smooth(m.publicState.completion))
    ensures m.state == Loading && !m.publicState.Loading? ==> r.publicState == m.publicState
    ensures m.state == Unloading ==> r == StateSet(m, NotRunning)
    ensures m.state != Loading && m.state != Unloading ==> r == m
  {
    match m.state
    case Loading =>
      var p := if m.publicState.Loading? then Msg.Loading(Smooth(m.publicState.completion)) else m.publicState;
      m.(publicState := p, outbox := m.outbox + [p])
    case Unloading => StateSet(m, NotRunning)
    case _ => m
  }

  // ---------------------------------------------------------------------------
  // Command handlers

  /** NotRunning's handling of one command, with the disk it may change. */
  function NotRunningCommand(m: Machine, d: Disk, denied: set<Path>, ron: Ron, cmd: Msg.Command): (Machine, Disk)
  {
    match cmd
    case StopServer(_) => (m, d)
    case CreateStartServer(path, configOnlyIfNotExisting) =>
      var (loaded, d') := LoadOrCreate(d, denied, ron, path);
      if loaded.Err? || (loaded.value.Created? && configOnlyIfNotExisting) then (m.(outbox := m.outbox + [Msg.Off]), d')
      else (StateSet(m.(saveConfig := Some(loaded.value.config)), Loading), d')
  }

  /** Loading's handling of one command: a stop request unloads, a start request is refused. */
  function LoadingCommand(m: Machine, cmd: Msg.Command): Machine {
    match cmd
    case CreateStartServer(_, _) => m
    case StopServer(_) => StateSet(m, Unloading)
  }

  /**
   * One command, handled by the state the machine is in. Unloading logs and
   * ignores both kinds; Running, Paused and Exiting have no command handler.
   * After a panic nothing more is handled.
   */
  function Commanded(m: Machine, d: Disk, denied: set<Path>, ron: Ron, cmd: Msg.Command): (Machine, Disk)
  {
    if m.panicked then (m, d)
    else match m.state
      case NotRunning => NotRunningCommand(m, d, denied, ron, cmd)
      case Loading => (LoadingCommand(m, cmd), d)
      case _ => (m, d)
  }

  /** The commands of one tick, handled in arrival order. */
  function CommandsHandled(m: Machine, d: Disk, denied: set<Path>, ron: Ron, cmds: seq<Msg.Command>): (Machine, Disk)
    decreases |cmds|
  {
    if cmds == [] then (m, d)
    else
      var (m', d') := CommandsHandled(m, d, denied, ron, cmds[..|cmds| - 1]);
      Commanded(m', d', denied, ron, cmds[|cmds| - 1])
  }

  // ---------------------------------------------------------------------------
  // Shutdown check, transitions, start-up

  /** Each state that observes shutdown overwrites whatever is queued with Exiting while the marker is present. */
  function ShutdownChecked(m: Machine, exiting: bool): (r: Machine)
    ensures exiting && ObservesCommandsAndShutdown(m.state) ==> r.queued == Some(Exiting) && r.panicked == m.panicked
    ensures !(exiting && ObservesCommandsAndShutdown(m.state)) ==> r == m
    ensures r.state == m.state && r.outbox == m.outbox && r.publicState == m.publicState && r.saveConfig == m.saveConfig
  {
    if exiting && ObservesCommandsAndShutdown(m.state) then StateReplaced(m, Exiting) else m
  }

  /** Applies the queued transition, if any, and runs the new state's enter handler (exit handlers only log). */
  function Transitioned(m: Machine): (r: Machine)
    ensures r.queued == None && r.saveConfig == m.saveConfig && r.panicked == m.panicked
    ensures m.queued.Some? ==> r.state == m.queued.value
    ensures m.queued.None? ==> r == m
  {
    if m.queued.Some? then Entered(m.(state := m.queued.value, queued := None)) else m
  }

  /** On the first tick the initial state is entered. */
  function Started(m: Machine): (r: Machine)
    ensures r.started && r.state == m.state && r.queued == m.queued
    ensures m.started ==> r == m
  {
    if m.started then m else Entered(m.(started := true))
  }

  // ---------------------------------------------------------------------------
  // One tick of the application

  /** The server, the disk it saves to and the exit protocol. */
  datatype World = World(machine: Machine, disk: Disk, exit: Exit.ExitState)

  /**
   * One tick: latch exit requests (First stage); start-up, update, command
   * handling and the shutdown check, then the queued transition; finalise the
   * exit protocol (Last stage), where `delay` is whether some subsystem
   * postponed the exit during the tick. A panic freezes everything.
   */
  function Ticked(w: World, denied: set<Path>, ron: Ron, cmds: seq<Msg.Command>, delay: bool): World {
    if w.machine.panicked then w
    else
      var latched := Exit.Requested(w.exit);
      var (handled, d) := CommandsHandled(Updated(Started(w.machine)), w.disk, denied, ron, cmds);
      if handled.panicked then World(handled, d, latched)
      else World(Transitioned(ShutdownChecked(handled, latched.marker.Some?)), d, Exit.Cycle(w.exit, delay))
  }

  /** A panic ends command handling: later commands change nothing. */
  lemma {:induction false} PanicStopsCommands(m: Machine, d: Disk, denied: set<Path>, ron: Ron, cmds: seq<Msg.Command>, i: nat)
    requires i <= |cmds|
    requires CommandsHandled(m, d, denied, ron, cmds[..i]).0.panicked
    ensures CommandsHandled(m, d, denied, ron, cmds) == CommandsHandled(m, d, denied, ron, cmds[..i])
    decreases |cmds| - i
  {
    if i < |cmds| {
      assert cmds[..i + 1][..i] == cmds[..i];
      PanicStopsCommands(m, d, denied, ron, cmds, i + 1);
    } else {
      assert cmds[..i] == cmds;
    }
  }

  /** Running, Paused and Exiting register no command handler: their commands change nothing. */
  lemma {:induction false} UnhandledCommandsIgnored(m: Machine, d: Disk, denied: set<Path>, ron: Ron, cmds: seq<Msg.Command>)
    requires m.state != NotRunning && m.state != Loading
    ensures CommandsHandled(m, d, denied, ron, cmds) == (m, d)
    decreases |cmds|
  {
    if cmds != [] {
      UnhandledCommandsIgnored(m, d, denied, ron, cmds[..|cmds| - 1]);
    }
  }

  // ---------------------------------------------------------------------------
  // The server as an object

  class LocalServer {
    var state: ServerState
    var queued: Option<ServerState>
    var started: bool
    var publicState: Msg.PublicState
    var saveConfig: Option<SaveConfig>
    var outbox: seq<Msg.PublicState>
    var panicked: bool
    const fs: FileSystem
    const exit: Exit.ExitCoordinator

    function Snapshot(): Machine
      reads this
    {
      Machine(state, queued, started, publicState, saveConfig, outbox, panicked)
    }

    function Everything(): World
      reads this, fs, exit
    {
      World(Snapshot(), fs.Contents(), exit.State())
    }

    ghost predicate Valid()
      reads this, fs
    {
      fs.Valid()
    }

    constructor (fs: FileSystem, exit: Exit.ExitCoordinator)
      ensures Snapshot() == Initial && this.fs == fs && this.exit == exit
    {
      state, queued, started := InitialState, None, false;
      publicState, saveConfig, outbox, panicked := Msg.InitialPublicState, None, [], false;
      this.fs, this.exit := fs, exit;
    }

    method Set(target: ServerState)
      modifies this
      ensures Snapshot() == StateSet(old(Snapshot()), target)
    {
      if state == target || queued.Some? {
        panicked := true;
      } else {
        queued := Some(target);
      }
    }

    method OverwriteReplace(target: ServerState)
      modifies this
      ensures Snapshot() == StateReplaced(old(Snapshot()), target)
    {
      if state == target {
        panicked := true;
      } else {
        queued := Some(target);
      }
    }

    method Send(p: Msg.PublicState)
      modifies this
      ensures Snapshot() == old(Snapshot()).(outbox := old(outbox) + [p])
    {
      outbox := outbox + [p];
    }

    /** NotRunning's enter handler. */
    method NotRunningOnEnter()
      modifies this
      ensures Snapshot() == Published(old(Snapshot()), Msg.Off)
    {
      publicState := Msg.Off;
      Send(publicState);
    }

    /** Loading's enter handler. */
    method LoadingOnEnter()
      modifies this
      ensures Snapshot() == Published(old(Snapshot()), Msg.Loading(0.0))
    {
      publicState := Msg.Loading(0.0);
      Send(publicState);
    }

    /** Unloading's enter handler. */
    method UnloadingOnEnter()
      modifies this
      ensures Snapshot() == Published(old(Snapshot()), Msg.ShuttingDown)
    {
      publicState := Msg.ShuttingDown;
      Send(publicState);
    }

    /** Runs the enter handler registered for the current state. */
    method OnEnter()
      modifies this
      ensures Snapshot() == Entered(old(Snapshot()))
    {
      match state
      case NotRunning => NotRunningOnEnter();
      case Loading => LoadingOnEnter();
      case Unloading => UnloadingOnEnter();
      case _ =>
    }

    /** Loading's update handler: advance the progress and broadcast it. */
    method LoadingOnUpdate()
      requires state == Loading
      modifies this
      ensures Snapshot() == Updated(old(Snapshot()))
    {
      if publicState.Loading? {
        var completion := publicState.completion;
        completion := completion + (1.0 - completion) * 0.01;
        publicState := Msg.Loading(completion);
      }
      Send(publicState);
    }

    /** Unloading's update handler: go back to NotRunning. */
    method UnloadingOnUpdate()
      requires state == Unloading
      modifies this
      ensures Snapshot() == Updated(old(Snapshot()))
    {
      Set(NotRunning);
    }

    /** Runs the update handler registered for the current state. */
    method OnUpdate()
      modifies this
      ensures Snapshot() == Updated(old(Snapshot()))
    {
      match state
      case Loading => LoadingOnUpdate();
      case Unloading => UnloadingOnUpdate();
      case _ =>
    }

    /** NotRunning's command handler: start requests load or create the save; stop requests are ignored. */
    method NotRunningOnServerPublicCmd(cmds: seq<Msg.Command>)
      requires Valid() && state == NotRunning
      modifies this, fs
      ensures Valid()
      ensures (Snapshot(), fs.Contents()) == CommandsHandled(old(Snapshot()), old(fs.Contents()), fs.denied, fs.ron, cmds)
    {
      var i := 0;
      while i < |cmds|
        invariant 0 <= i <= |cmds| && Valid() && state == NotRunning
        invariant (Snapshot(), fs.Contents()) == CommandsHandled(old(Snapshot()), old(fs.Contents()), fs.denied, fs.ron, cmds[..i])
      {
        if panicked {
          PanicStopsCommands(old(Snapshot()), old(fs.Contents()), fs.denied, fs.ron, cmds, i);
          return;
        }
        assert cmds[..i + 1][..i] == cmds[..i];
        match cmds[i] {
          case CreateStartServer(path, configOnlyIfNotExisting) =>
            var loaded := fs.LoadOrCreatePath(path);
            if loaded.Err? {
              Send(Msg.Off);
            } else if loaded.value.Created? && configOnlyIfNotExisting {
              Send(Msg.Off);
            } else {
              saveConfig := Some(loaded.value.config);
              Set(Loading);
            }
          case StopServer(_) =>
        }
        i := i + 1;
      }
      assert cmds[..i] == cmds;
    }

    /** Loading's command handler: a stop request unloads, a start request is refused. */
    method LoadingOnServerPublicCmd(cmds: seq<Msg.Command>)
      requires state == Loading
      modifies this
      ensures (Snapshot(), fs.Contents()) == CommandsHandled(old(Snapshot()), fs.Contents(), fs.denied, fs.ron, cmds)
    {
      var i := 0;
      while i < |cmds|
        invariant 0 <= i <= |cmds| && state == Loading
        invariant (Snapshot(), fs.Contents()) == CommandsHandled(old(Snapshot()), fs.Contents(), fs.denied, fs.ron, cmds[..i])
      {
        if panicked {
          PanicStopsCommands(old(Snapshot()), fs.Contents(), fs.denied, fs.ron, cmds, i);
          return;
        }
        assert cmds[..i + 1][..i] == cmds[..i];
        match cmds[i] {
          case CreateStartServer(_, _) =>
          case StopServer(_) => Set(Unloading);
        }
        i := i + 1;
      }
      assert cmds[..i] == cmds;
    }
  
    /** Unloading's command handler: the server is already stopping and cannot start; both kinds are ignored. */
    method UnloadingOnServerPublicCmd(cmds: seq<Msg.Command>)
      requires state == Unloading
      ensures (Snapshot(), fs.Contents()) == CommandsHandled(Snapshot(), fs.Contents(), fs.denied, fs.ron, cmds)
    {
      for i := 0 to |cmds|
        invariant (Snapshot(), fs.Contents()) == CommandsHandled(Snapshot(), fs.Contents(), fs.denied, fs.ron, cmds[..i])
      {
        assert cmds[..i + 1][..i] == cmds[..i];
        match cmds[i] {
          case CreateStartServer(_, _) =>
          case StopServer(_) =>
        }
      }
      assert cmds[..|cmds|] == cmds;
    }

    /** Runs the command handler registered for the current state, if any. */
    method OnServerPublicCmd(cmds: seq<Msg.Command>)
      requires Valid()
      modifies this, fs
      ensures Valid()
      ensures (Snapshot(), fs.Contents()) == CommandsHandled(old(Snapshot()), old(fs.Contents()), fs.denied, fs.ron, cmds)
    {
      match state
      case NotRunning => NotRunningOnServerPublicCmd(cmds);
      case Loading => LoadingOnServerPublicCmd(cmds);
      case Unloading => UnloadingOnServerPublicCmd(cmds);
      case _ => UnhandledCommandsIgnored(Snapshot(), fs.Contents(), fs.denied, fs.ron, cmds);
    }

    /** The shutdown check of NotRunning, Loading and Unloading. */
    method OnShutdown()
      modifies this
      ensures Snapshot() == ShutdownChecked(old(Snapshot()), exit.marker.Some?)
    {
      if ObservesCommandsAndShutdown(state) && exit.marker.Some? {
        OverwriteReplace(Exiting);
      }
    }

    /** Applies the queued transition and enters the new state. */
    method ApplyTransition()
      modifies this
      ensures Snapshot() == Transitioned(old(Snapshot()))
    {
      if queued.Some? {
        state, queued := queued.value, None;
        OnEnter();
      }
    }

    /** One application tick; `cmds` are the commands sent since the last one. */
    method Tick(cmds: seq<Msg.Command>, delay: bool)
      requires Valid()
      modifies this, fs, exit
      ensures Valid()
      ensures Everything() == Ticked(old(Everything()), fs.denied, fs.ron, cmds, delay)
    {
      if panicked {
        return;
      }
      exit.ExitRequested();
      if !started {
        started := true;
        OnEnter();
      }
      OnUpdate();
      OnServerPublicCmd(cmds);
      if panicked {
        return;
      }
      OnShutdown();
      ApplyTransition();
      if delay && exit.marker.Some? {
        exit.Delay();
      }
      exit.PerformExit();
    }
  }
}
