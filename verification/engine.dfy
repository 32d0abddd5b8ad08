/**
 * The engine's start-up glue: parsing the client type, the engine builder,
 * what running it installs and sends, and the watcher that asks the process
 * to exit once a server without an interactive client turns Off.
 */
module Engine {
  import opened Common
  import Msg = LocalServerMessages
  import Exit

  // ---------------------------------------------------------------------------
  // Client type

  datatype ClientType = Logger | Wgpu | Tui

  /** The crate features the build was made with. */
  datatype Features = Features(server: bool, clientWgpu: bool, clientTui: bool)

  /** Lower-cases the ASCII letters and leaves every other character alone. */
  function Lowercase(s: string): (r: string)
    ensures |r| == |s|
    ensures forall i | 0 <= i < |s| :: r[i] == (if 'A' <= s[i] <= 'Z' then s[i] - 'A' + 'a' else s[i])
  {
    if s == [] then [] else
      [if 'A' <= s[0] <= 'Z' then s[0] - 'A' + 'a' else s[0]] + Lowercase(s[1..])
  }

  const InvalidClientType: string := "invalid value (logger, wgpu, or tui"

  /** `ClientType::from_str`: the lower-cased input must name a client type whose feature is enabled. */
  function ParseClientType(s: string, f: Features): (r: Result<ClientType, string>)
    ensures r.Err? ==> r.error == InvalidClientType
  {
    var l := Lowercase(s);
    if l == "logger" then Ok(Logger)
    else if l == "wgpu" && f.clientWgpu then Ok(Wgpu)
    else if l == "tui" && f.clientTui then Ok(Tui)
    else Err(InvalidClientType)
  }

  /** The name each client type is parsed from. */
  function Name(t: ClientType): string {
    match t
    case Logger => "logger"
    case Wgpu => "wgpu"
    case Tui => "tui"
  }

  predicate Enabled(t: ClientType, f: Features) {
    match t
    case Logger => true
    case Wgpu => f.clientWgpu
    case Tui => f.clientTui
  }

  lemma LowercaseIdempotent(s: string)
    ensures Lowercase(Lowercase(s)) == Lowercase(s)
  {
  }

  /**
   * Parsing accepts exactly the strings that lower-case to the name of an
   * enabled client type, and yields that type; case does not matter.
   */
  lemma ParseClientTypeExact(s: string, f: Features, t: ClientType)
    ensures ParseClientType(s, f) == Ok(t) <==> Lowercase(s) == Name(t) && Enabled(t, f)
    ensures ParseClientType(s, f) == ParseClientType(Lowercase(s), f)
  {
    LowercaseIdempotent(s);
  }

  /** A name spelled in capitals parses like the name. */
  lemma ParseIgnoresCase(t: ClientType, f: Features, s: string)
    requires |s| == |Name(t)|
    requires forall i | 0 <= i < |s| :: s[i] == Name(t)[i] || s[i] == Name(t)[i] - 'a' + 'A'
    ensures ParseClientType(s, f) == (if Enabled(t, f) then Ok(t) else Err(InvalidClientType))
  {
    assert Lowercase(s) == Name(t);
    ParseClientTypeExact(s, f, t);
  }

  // ---------------------------------------------------------------------------
  // The engine builder

  datatype LevelFilter = Off | Error | Warn | Info | Debug | Trace

  datatype Settings = Settings(
    configDir: Path,
    loggingLevelOverride: Option<LevelFilter>,
    includeServer: bool,
    clientType: ClientType,
    gameConfigurationPath: Option<Path>)

  /** What `Engine::new` starts with: a server, the logger client, no overrides and no game to load. */
  function Defaults(configDir: Path): Settings {
    Settings(configDir, None, true, Logger, None)
  }

  class Engine {
    var configDir: Path
    var loggingLevelOverride: Option<LevelFilter>
    var includeServer: bool
    var clientType: ClientType
    var gameConfigurationPath: Option<Path>

    function Snapshot(): Settings
      reads this
    {
      Settings(configDir, loggingLevelOverride, includeServer, clientType, gameConfigurationPath)
    }

    constructor (configDir: Path)
      ensures Snapshot() == Defaults(configDir)
    {
      this.configDir := configDir;
      loggingLevelOverride, includeServer, clientType, gameConfigurationPath := None, true, Logger, None;
    }

    method OverrideLoggingLevel(level: Option<LevelFilter>) returns (self: Engine)
      modifies this
      ensures self == this && Snapshot() == old(Snapshot()).(loggingLevelOverride := level)
    {
      loggingLevelOverride := level;
      return this;
    }

    method SetIncludeServer(includeServer: bool) returns (self: Engine)
      modifies this
      ensures self == this && Snapshot() == old(Snapshot()).(includeServer := includeServer)
    {
      this.includeServer := includeServer;
      return this;
    }

    method SetClientType(clientType: ClientType) returns (self: Engine)
      modifies this
      ensures self == this && Snapshot() == old(Snapshot()).(clientType := clientType)
    {
      this.clientType := clientType;
      return this;
    }

    method LoadGameConfiguration(path: Option<Path>) returns (self: Engine)
      modifies this
      ensures self == this && Snapshot() == old(Snapshot()).(gameConfigurationPath := path)
    {
      gameConfigurationPath := path;
      return this;
    }

    /** What `custom_run` installs and sends before handing the application to the runner. */
    method CustomRun(f: Features) returns (plan: AppPlan)
      ensures plan == Planned(Snapshot(), f)
    {
      var cmds := [];
      if f.server && gameConfigurationPath.Some? {
        cmds := cmds + [Msg.CreateStartServer(gameConfigurationPath.value, true)];
      }
      plan := AppPlan(includeServer && f.server, clientType, clientType == Logger, cmds);
    }
  }

  /** `Engine::new`: fails when setting up logging fails. */
  method NewEngine(configDir: Path, loggingFailure: Option<string>) returns (r: Result<Engine, string>)
    ensures r.Err? <==> loggingFailure.Some?
    ensures r.Err? ==> r.error == loggingFailure.value
    ensures r.Ok? ==> fresh(r.value) && r.value.Snapshot() == Defaults(configDir)
  {
    if loggingFailure.Some? {
      return Err(loggingFailure.value);
    }
    var e := new Engine(configDir);
    return Ok(e);
  }

  // ---------------------------------------------------------------------------
  // Running the engine

  /**
   * The application `custom_run` builds: whether the server plugins are
   * added, which client plugins, whether the server-off watcher is installed,
   * and the commands queued before the first tick.
   */
  datatype AppPlan = AppPlan(server: bool, client: ClientType, offWatcher: bool, initialCommands: seq<Msg.Command>)

  function Planned(s: Settings, f: Features): (p: AppPlan)
    ensures p.server <==> s.includeServer && f.server
    ensures p.client == s.clientType
    ensures p.offWatcher <==> s.clientType == Logger
    ensures |p.initialCommands| <= 1
    ensures p.initialCommands != [] <==> f.server && s.gameConfigurationPath.Some?
    ensures p.initialCommands != [] ==> p.initialCommands[0] == Msg.CreateStartServer(s.gameConfigurationPath.value, true)
  {
    AppPlan(s.includeServer && f.server, s.clientType, s.clientType == Logger,
            if f.server && s.gameConfigurationPath.Some? then [Msg.CreateStartServer(s.gameConfigurationPath.value, true)] else [])
  }

  /** A freshly built engine runs the server with the logger client and its watcher, and sends nothing. */
  lemma DefaultPlan(configDir: Path, f: Features)
    requires f.server
    ensures Planned(Defaults(configDir), f) == AppPlan(true, Logger, true, [])
  {
  }

  // ---------------------------------------------------------------------------
  // Exit when the server turns Off

  /** Whether the first Off has been skipped after `events`, starting from `skipped`. */
  function SkippedAfter(skipped: bool, events: seq<Msg.PublicState>): bool
    decreases |events|
  {
    if events == [] then skipped
    else SkippedAfter(skipped || events[0] == Msg.Off, events[1..])
  }

  /** How many exit requests the watcher sends for `events`, starting from `skipped`. */
  function RequestsFor(skipped: bool, events: seq<Msg.PublicState>): nat
    decreases |events|
  {
    if events == [] then 0
    else (if skipped && events[0] == Msg.Off then 1 else 0) + RequestsFor(skipped || events[0] == Msg.Off, events[1..])
  }

  function OffCount(events: seq<Msg.PublicState>): nat
    decreases |events|
  {
    if events == [] then 0 else (if events[0] == Msg.Off then 1 else 0) + OffCount(events[1..])
  }

  /** Independent count: one request per Off except the very first one the watcher ever sees. */
  lemma {:induction false} RequestsCountOffs(skipped: bool, events: seq<Msg.PublicState>)
    ensures skipped ==> RequestsFor(skipped, events) == OffCount(events)
    ensures !skipped ==> RequestsFor(skipped, events) == if OffCount(events) == 0 then 0 else OffCount(events) - 1
    ensures SkippedAfter(skipped, events) <==> skipped || OffCount(events) > 0
    decreases |events|
  {
    if events != [] {
      RequestsCountOffs(skipped || events[0] == Msg.Off, events[1..]);
    }
  }

  /** The flag persists between ticks: watching two batches is watching their concatenation. */
  lemma {:induction false} WatchingInBatches(skipped: bool, a: seq<Msg.PublicState>, b: seq<Msg.PublicState>)
    ensures RequestsFor(skipped, a + b) == RequestsFor(skipped, a) + RequestsFor(SkippedAfter(skipped, a), b)
    ensures SkippedAfter(skipped, a + b) == SkippedAfter(SkippedAfter(skipped, a), b)
    decreases |a|
  {
    if a != [] {
      assert (a + b)[1..] == a[1..] + b;
      WatchingInBatches(skipped || a[0] == Msg.Off, a[1..], b);
    } else {
      assert a + b == b;
    }
  }

  /** `shut_down_when_server_is_off`, with its persistent skipped-first flag. */
  class OffWatcher {
    var skippedFirst: bool
    const exit: Exit.ExitCoordinator

    constructor (exit: Exit.ExitCoordinator)
      ensures !skippedFirst && this.exit == exit
    {
      skippedFirst := false;
      this.exit := exit;
    }

    /** Reads the public states broadcast since the last call, sending an exit request for each Off but the first ever. */
    method Watch(events: seq<Msg.PublicState>)
      modifies this, exit
      ensures skippedFirst == SkippedAfter(old(skippedFirst), events)
      ensures exit.State() == old(exit.State()).(requests := old(exit.requests) + RequestsFor(old(skippedFirst), events))
    {
      for i := 0 to |events|
        invariant skippedFirst == SkippedAfter(old(skippedFirst), events[..i])
        invariant exit.State() == old(exit.State()).(requests := old(exit.requests) + RequestsFor(old(skippedFirst), events[..i]))
      {
        WatchingInBatches(old(skippedFirst), events[..i], [events[i]]);
        assert events[..i + 1] == events[..i] + [events[i]];
        if events[i] == Msg.Off {
          if skippedFirst {
            exit.RequestExit();
          } else {
            skippedFirst := true;
          }
        }
      }
      assert events[..|events|] == events;
    }
  }
}
