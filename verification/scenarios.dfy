/** Whole-application runs of the server together with the engine's glue. */
module Scenarios {
  import opened Common
  import opened ServerStates
  import Msg = LocalServerMessages
  import opened Save
  import Exit
  import opened ServerMachine
  import opened ServerProperties
  import opened Engine

  /**
   * A dedicated server given a save that does not exist yet: the engine sends
   * one create-only start request; the first tick enters NotRunning (Off),
   * creates the save and broadcasts Off again; the watcher skips the first Off
   * and requests exit for the second; the next tick latches the request, the
   * server jumps to Exiting and the process exits with a 1000 ms watchdog.
   */
  lemma FreshSaveExitsAfterCreating(d: Disk, denied: set<Path>, ron: Ron, configDir: Path, path: Path)
    requires WellFormed(d)
    requires LoadOrCreate(d, denied, ron, path).0.Ok? && LoadOrCreate(d, denied, ron, path).0.value.Created?
    ensures var plan := Planned(Defaults(configDir).(gameConfigurationPath := Some(path)), Features(true, false, false));
      var w1 := Ticked(World(Initial, d, Exit.Quiet), denied, ron, plan.initialCommands, false);
      && plan.offWatcher
      && w1.machine.state == NotRunning && w1.machine.saveConfig == None
      && w1.machine.outbox == [Msg.Off, Msg.Off]
      && ConfigPath(path) in w1.disk.files
      && RequestsFor(false, w1.machine.outbox) == 1
      && var w2 := Ticked(w1.(exit := w1.exit.(requests := 1)), denied, ron, [], false);
         && w2.machine.state == Exiting && w2.machine.outbox == w1.machine.outbox
         && w2.exit.appExits == 1 && w2.exit.watchdogs == [Exit.ForceExitDelayMs]
  {
    var plan := Planned(Defaults(configDir).(gameConfigurationPath := Some(path)), Features(true, false, false));
    var cmd := Msg.CreateStartServer(path, true);
    assert plan.initialCommands == [cmd];
    var m0 := Started(Initial);
    assert m0 == Initial.(started := true, outbox := [Msg.Off]);
    assert Updated(m0) == m0;
    assert [cmd][..0] == [];
    assert CommandsHandled(m0, d, denied, ron, [cmd]) == Commanded(m0, d, denied, ron, cmd);
    StartCreatedSave(m0, d, denied, ron, path, true);
    var h := m0.(outbox := [Msg.Off, Msg.Off]);
    var d1 := LoadOrCreate(d, denied, ron, path).1;
    assert Exit.Requested(Exit.Quiet) == Exit.Quiet && Exit.Cycle(Exit.Quiet, false) == Exit.Quiet;
    var w1 := Ticked(World(Initial, d, Exit.Quiet), denied, ron, plan.initialCommands, false);
    assert w1 == World(h, d1, Exit.Quiet);
    assert [Msg.Off, Msg.Off][1..] == [Msg.Off] && [Msg.Off][1..] == [];
    assert RequestsFor(false, [Msg.Off, Msg.Off]) == 1;
    var e1 := Exit.Quiet.(requests := 1);
    assert Started(h) == h && Updated(h) == h;
    assert CommandsHandled(h, d1, denied, ron, []) == (h, d1);
    assert Exit.Requested(e1).marker.Some?;
    assert Transitioned(ShutdownChecked(h, true)) == h.(state := Exiting);
  }

  /** The first tick of a client starting an existing save. */
  lemma ExistingSaveFirstTick(d: Disk, denied: set<Path>, ron: Ron, path: Path)
    requires LoadPath(d, denied, ron, path).Ok?
    ensures Ticked(World(Initial, d, Exit.Quiet), denied, ron, [Msg.CreateStartServer(path, false)], false)
         == World(Initial.(state := Loading, started := true, saveConfig := Some(SaveConfig(path)),
                           publicState := Msg.Loading(0.0), outbox := [Msg.Off, Msg.Loading(0.0)]), d, Exit.Quiet)
  {
    var cmd := Msg.CreateStartServer(path, false);
    var m0 := Started(Initial);
    assert m0 == Initial.(started := true, outbox := [Msg.Off]);
    assert Updated(m0) == m0;
    assert [cmd][..0] == [];
    assert CommandsHandled(m0, d, denied, ron, [cmd]) == Commanded(m0, d, denied, ron, cmd);
    StartExistingSave(m0, d, denied, ron, path, false);
    assert Exit.Requested(Exit.Quiet) == Exit.Quiet && Exit.Cycle(Exit.Quiet, false) == Exit.Quiet;
  }

  /**
   * A client starting an existing save: the first tick enters NotRunning,
   * loads the save and queues Loading, whose entry broadcasts Loading(0.0);
   * the second tick advances it to Loading(0.01).
   */
  lemma ExistingSaveStartsLoading(d: Disk, denied: set<Path>, ron: Ron, path: Path)
    requires WellFormed(d)
    requires LoadPath(d, denied, ron, path).Ok?
    ensures var w1 := Ticked(World(Initial, d, Exit.Quiet), denied, ron, [Msg.CreateStartServer(path, false)], false);
      && w1.machine.state == Loading && w1.machine.saveConfig == Some(SaveConfig(path)) && w1.disk == d
      && w1.machine.outbox == [Msg.Off, Msg.Loading(0.0)]
      && Ticked(w1, denied, ron, [], false).machine.outbox == [Msg.Off, Msg.Loading(0.0), Msg.Loading(0.01)]
  {
    var cmd := Msg.CreateStartServer(path, false);
    ExistingSaveFirstTick(d, denied, ron, path);
    var w1 := Ticked(World(Initial, d, Exit.Quiet), denied, ron, [cmd], false);
    InitialInv(d, Exit.Quiet);
    TickKeepsInv(World(Initial, d, Exit.Quiet), denied, ron, [cmd], false);
    LoadingTick(w1, denied, ron, [], false);
    assert Smooth(0.0) == 0.01;
  }

  /**
   * Stopping while loading: the stop queues Unloading, whose entry broadcasts
   * ShuttingDown after this tick's progress; the next tick returns to
   * NotRunning, which broadcasts Off.
   */
  lemma StopWhileLoading(w: World, denied: set<Path>, ron: Ron, force: bool)
    requires Inv(w) && !w.machine.panicked && w.machine.started && w.machine.state == Loading
    requires w.exit.requests == 0 && w.exit.marker.None?
    ensures var c := w.machine.publicState.completion;
      var w1 := Ticked(w, denied, ron, [Msg.StopServer(force)], false);
      var w2 := Ticked(w1, denied, ron, [], false);
      && w1.machine.state == Unloading
      && w1.machine.outbox == w.machine.outbox + [Msg.Loading(Smooth(c)), Msg.ShuttingDown]
      && w2.machine.state == NotRunning
      && w2.machine.outbox == w1.machine.outbox + [Msg.Off]
      && w2.disk == w.disk
  {
    LoadingStops(Updated(w.machine), w.disk, denied, ron, [Msg.StopServer(force)]);
    assert Stops([Msg.StopServer(force)]) == 1 by {
      assert [Msg.StopServer(force)][..0] == [];
    }
    var w1 := Ticked(w, denied, ron, [Msg.StopServer(force)], false);
    TickKeepsInv(w, denied, ron, [Msg.StopServer(force)], false);
    UnloadingReturnsToNotRunning(w1, denied, ron, [], false);
  }
}
