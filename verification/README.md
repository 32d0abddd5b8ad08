# Mechaenetia core, modelled in Dafny

This project models the logic at the centre of the Mechaenetia game engine and proves properties of it:

- **The local server's lifecycle.** It has six states: NotRunning, Loading, Running, Paused, Unloading and Exiting.
  - Each state has enter, update, command and shutdown handlers.
  - Those handlers write a public state and broadcast it.
  - The save store loads or creates `<dir>/config.ron` on an abstract disk.
  - The cooperative exit protocol works per tick: request, delay vote, then finalise with a watchdog.
  - The engine's glue parses the client type and holds the builder settings. It queues the initial start command and runs the watcher that asks for exit when the server turns Off.
- **Small shared structures:**
  - the global registry of boolean switches and the log appender gated by one switch;
  - the log4rs component deserialisers that extract `kind` from a map;
  - the appender that rolls the log file on launch;
  - the i18n bundle bookkeeping and lookup fallback, with Fluent abstracted as a map from message id to message;
  - chunk coordinates and their arithmetic, the chunk store and the world registry.
- **Translators and validators:**
  - the terminal-to-engine key translation, which produces bracketed press and release events;
  - the build helper's quote-aware command splitter and its directory and environment stacks;
  - the build helper's colour flag, command dispatch, cargo-deny version prefix check and license checker.

How the source's form carries over:

- Code that changes state in place becomes classes. Examples are the server, the exit coordinator, the engine builder, the watcher, the filesystem, the switch registry, the appenders, the i18n resource, the chunk and world stores and the environment helper.
- Each method is proved against a reference function of the old state.
- Pure code becomes datatypes, functions and lemmas.

The simplifications:

- The disk is a set of directories and a map from file paths to contents.
- The RON codec is a pair of uninterpreted functions.
- The loading progress is an exact `real`.
- Clocks, threads and the process exit are left out.

Three behaviours of the code a reader might not expect:

- Running and Paused register no handlers, so an exit request does not move the server out of them. Neither state is ever entered anyway (`ServerProperties.NeverRunning`).
- The Unloading command handler names its start command `StartServer { title }`. The command type has no such variant, so it is treated as the create-and-start command, which Unloading ignores either way.
- `src/universal/local_server.rs` is an older revision that does not declare the command and public-state types the server states use. The model declares them from their uses.

## Model

| member | source | states |
|---|---|---|
| ServerStates.StatesAndHandlers | src/server/states/mod.rs:9-28 | There are exactly six states. Handlers exist for all but Running and Paused. Commands and shutdown are observed in NotRunning, Loading and Unloading only. |
| Common.Join | src/server/save.rs:30 | An absolute path replaces the base. A relative one is appended component-wise to it. |
| Common.Child | src/server/save.rs:48-49 | Pushing one name adds exactly that component. |
| Common.Ancestors | src/server/save.rs:44-47 | The directories `create_dir_all` makes sure exist: the path itself, and only prefixes of it with the same root. |
| Save.ConfigPath | src/server/save.rs:30 | The config file is the child `config.ron` of the save directory, whose parent is the directory. |
| Save.ReadToString | src/server/save.rs:31-32 | A read succeeds exactly on an existing, permitted file and returns its contents. |
| Save.CreateDirAll | src/server/save.rs:44-47 | Creating a directory adds every ancestor and no file. It fails exactly when the path is denied or a file is in the way. |
| Save.WriteFile | src/server/save.rs:66-67 | A write succeeds exactly when the parent directory exists and the target is not a directory or denied. It then sets exactly that file. |
| Save.LoadPath | src/server/save.rs:28-37 | Loads exactly when `config.ron` is readable and parses. The loaded `save_path` is the directory. A parse failure is `RonError`. A read failure is `LoadError` "reading config.ron file". |
| Save.FileSystem.constructor | src/server/save.rs:39 | The filesystem object starts with the given well-formed disk. |
| Save.FileSystem.CreateDirs | src/server/save.rs:44-47 | The step changes the disk exactly as `CreateDirAll` says, or reports its error and changes nothing. |
| Save.FileSystem.Write | src/server/save.rs:66-67 | The step changes the disk exactly as `WriteFile` says, or reports its error and changes nothing. |
| Save.FileSystem.LoadOrCreatePath | src/server/save.rs:39-70 | The step-by-step method gives the reference result and disk of `LoadOrCreate`, and keeps the disk well formed. |
| Save.ExistingIsReadOnly | src/server/save.rs:41-43 | A config that loads yields Existing with the directory as its path, and the disk is unchanged. |
| Save.CorruptConfigNeverOverwritten | src/server/save.rs:48-52 | An existing `config.ron` that does not load yields `InvalidSave(<dir>/config.ron)`, and nothing is written. |
| Save.LoadOrCreateKeepsExistingFiles | src/server/save.rs:39-70 | No call changes or removes an existing file or directory. At most `config.ron` is added. |
| Save.LoadOrCreateKeepsWellFormed | src/server/save.rs:39-70 | Every outcome leaves the disk well formed. |
| Save.CreatedWritesDefaultConfig | src/server/save.rs:48-69 | Created means `config.ron` was absent and is now the pretty default plus a newline. The directory was created if missing, and the Created path is the file, not the directory. |
| Save.CreatedThenExisting | src/server/save.rs:39-70 | With a codec that reads back what it writes, a second call on a created save yields Existing and writes nothing. |
| Save.LoadOrCreateErrors | src/server/save.rs:44-67 | Each failure carries its own error: "creating save directory", `InvalidSave` of the file path, `RonError` from serialising, or "writing empty configuration". |
| Exit.Requested | src/universal/exit.rs:61-69 | Pending requests are consumed. If there was one, a fresh marker with no delay and a 1000 ms watchdog is installed or replaces the old one. Otherwise the marker is untouched. |
| Exit.ExitCoordinator.constructor | src/universal/exit.rs:7-12 | No request, no marker, no exit and no watchdog yet. |
| Exit.ExitCoordinator.RequestExit | src/universal/exit.rs:54-59 | Sending a request adds exactly one pending request. |
| Exit.ExitCoordinator.ExitRequested | src/universal/exit.rs:61-69 | The First-stage system changes the state as `Requested` says. |
| Exit.ExitCoordinator.Delay | src/universal/exit.rs:31-33 | Sets the marker's delay vote and nothing else. |
| Exit.ExitCoordinator.PerformExit | src/universal/exit.rs:36-52 | The Last-stage system changes the state as `Performed` says. |
| Exit.DelayIdempotent | src/universal/exit.rs:31-33 | Delaying twice is delaying once. |
| Exit.PerformExitOutcome | src/universal/exit.rs:36-52 | Without a marker nothing happens. With one, AppExit is emitted and the watchdog armed exactly when nobody delayed, and the vote is always reset. |
| Exit.AlwaysDelayedNeverExits | src/universal/exit.rs:36-52 | While some subsystem delays on every tick, no AppExit is emitted and no watchdog is armed. |
| Exit.ExitsOnFirstUndelayedTick | src/universal/exit.rs:36-69 | After a request, the process exits exactly on the first tick nobody delays, once, with a 1000 ms watchdog. |
| Exit.RequestExitsNextTick | src/universal/exit.rs:7-12 | A request that arrives after the tick's latch does not exit in that tick's finalisation. Latched on the next tick with no delay, it exits then and arms one watchdog. |
| ServerMachine.StateSet | src/server/states/not_running.rs:77-79 | `State::set` queues the target. It panics when the state is already the target or a transition is already queued. |
| ServerMachine.StateReplaced | src/server/states/not_running.rs:35-41 | `overwrite_replace` replaces any queued transition. It fails only when the state is already the target. |
| ServerMachine.Published | src/server/states/not_running.rs:23-24 | Writes the public state and broadcasts exactly that value. |
| ServerMachine.Entered | src/server/states/not_running.rs:18-25 | Entering NotRunning broadcasts Off. Entering Loading broadcasts Loading(0.0) (src/server/states/loading.rs:18-26). Entering Unloading broadcasts ShuttingDown. Exiting, Running and Paused change nothing. |
| ServerMachine.Smooth | src/server/states/loading.rs:34 | One smoothing step multiplies the remaining distance to 1 by 0.99. |
| ServerMachine.Updated | src/server/states/loading.rs:28-37 | Loading smooths its progress and broadcasts once. Unloading sets NotRunning (src/server/states/unloading.rs:26-31). Other states change nothing. |
| ServerMachine.ShutdownChecked | src/server/states/loading.rs:43-49 | Under the exit marker, NotRunning, Loading and Unloading overwrite any queued transition with Exiting. Nothing else changes. |
| ServerMachine.Transitioned | src/server/states/mod.rs:24-28 | The queued transition, if any, is applied and runs the new state's enter handler. The queue is emptied. |
| ServerMachine.Started | src/server/states/mod.rs:24 | The first tick enters the initial state, and later ticks do nothing here. |
| ServerMachine.PanicStopsCommands | src/server/states/not_running.rs:77-79 | Once a failed `set` has panicked, the remaining commands change nothing. |
| ServerMachine.UnhandledCommandsIgnored | src/server/states/exiting.rs:3-8 | Outside NotRunning and Loading, commands change nothing. Unloading's handler ignores them, and Running, Paused and Exiting have no handler. |
| ServerMachine.LocalServer.constructor | src/server/states/mod.rs:24 | The server starts in NotRunning with public state Off, nothing queued or stored, and an empty outbox. |
| ServerMachine.LocalServer.Set | src/server/states/not_running.rs:77-79 | Changes the server exactly as `StateSet`. |
| ServerMachine.LocalServer.OverwriteReplace | src/server/states/not_running.rs:37-39 | Changes the server exactly as `StateReplaced`. |
| ServerMachine.LocalServer.Send | src/server/states/not_running.rs:58 | Appends exactly one broadcast. |
| ServerMachine.LocalServer.NotRunningOnEnter | src/server/states/not_running.rs:18-25 | Sets the public state to Off and broadcasts it once. |
| ServerMachine.LocalServer.LoadingOnEnter | src/server/states/loading.rs:18-26 | Sets the public state to Loading(0.0) and broadcasts it once. |
| ServerMachine.LocalServer.UnloadingOnEnter | src/server/states/unloading.rs:17-24 | Sets the public state to ShuttingDown and broadcasts it once. |
| ServerMachine.LocalServer.OnEnter | src/server/states/exiting.rs:10-12 | Dispatches to the registered enter handler as `Entered` says. Exiting's only logs. |
| ServerMachine.LocalServer.LoadingOnUpdate | src/server/states/loading.rs:28-37 | Advances the progress in place and broadcasts it, as `Updated` says. |
| ServerMachine.LocalServer.UnloadingOnUpdate | src/server/states/unloading.rs:26-31 | Sets NotRunning on every update, as `Updated` says. |
| ServerMachine.LocalServer.OnUpdate | src/server/states/exiting.rs:14-16 | Dispatches to the registered update handler as `Updated` says. Exiting's only logs. |
| ServerMachine.LocalServer.NotRunningOnServerPublicCmd | src/server/states/not_running.rs:43-86 | The command loop gives the reference `CommandsHandled` result on the server and the disk, in arrival order. |
| ServerMachine.LocalServer.LoadingOnServerPublicCmd | src/server/states/loading.rs:51-68 | The command loop gives the reference result. A stop sets Unloading, and a start is refused. |
| ServerMachine.LocalServer.UnloadingOnServerPublicCmd | src/server/states/unloading.rs:45-56 | Every command is ignored. |
| ServerMachine.LocalServer.OnServerPublicCmd | src/server/states/mod.rs:25-28 | Dispatches to the registered command handler and gives the reference result. |
| ServerMachine.LocalServer.OnShutdown | src/server/states/unloading.rs:37-43 | Changes the server exactly as `ShutdownChecked` does under the current marker. |
| ServerMachine.LocalServer.ApplyTransition | src/server/states/mod.rs:24-28 | Applies the queued transition and enters the new state, as `Transitioned` says. |
| ServerMachine.LocalServer.Tick | src/universal/exit.rs:7-12 | One tick in stage order gives the reference `Ticked` world: latch, start-up, update, commands, shutdown check, transition, finalisation. |
| ServerProperties.CommandsHandledFacts | src/server/states/not_running.rs:49-85 | Command handling never changes the state or the public state. It broadcasts only Off and queues only what its state allows. Only NotRunning touches the disk, which stays well formed. |
| ServerProperties.CommandedFacts | src/server/states/not_running.rs:50-84 | The same facts for a single command. |
| ServerProperties.InitialInv | src/server/states/mod.rs:24 | The initial server satisfies the lifecycle invariant. |
| ServerProperties.SmoothStaysBelowOne | src/server/states/loading.rs:34 | A progress in [0, 1) strictly increases and stays below 1. |
| ServerProperties.UpdateStep | src/server/states/loading.rs:28-37 | Start-up and update keep the invariant's state facts and broadcast only legal states. |
| ServerProperties.TransitionStep | src/server/states/loading.rs:43-49 | The shutdown check and the transition keep the invariant. |
| ServerProperties.TickKeepsInv | src/server/states/mod.rs:21-29 | Every tick keeps the invariant. |
| ServerProperties.RunKeepsInv | src/server/states/mod.rs:21-29 | Any sequence of ticks keeps the invariant. |
| ServerProperties.NeverRunning | src/server/states/loading.rs:28-68 | From start-up the server is never Running or Paused. Running is never broadcast, and every broadcast progress is in [0, 1). Exiting happens only under the exit marker. |
| ServerProperties.ProgressClosedForm | src/server/states/loading.rs:34 | After n updates the progress is 1 − 0.99ⁿ. |
| ServerProperties.ProgressBounds | src/server/states/loading.rs:33-35 | Starting from 0, the progress strictly increases and never reaches 1. |
| ServerProperties.LoadingIgnoresStarts | src/server/states/loading.rs:57-59 | In Loading, start requests change nothing. |
| ServerProperties.LoadingTick | src/server/states/loading.rs:28-37 | An idle Loading tick smooths the progress, broadcasts it once and changes nothing else. |
| ServerProperties.LoadingProgresses | src/server/states/loading.rs:36 | n idle ticks stay in Loading with progress Progress(n), one broadcast per tick. |
| ServerProperties.ExitingIsTerminal | src/server/states/exiting.rs:10-20 | A tick in Exiting changes neither the server nor the disk and broadcasts nothing. |
| ServerProperties.ShutdownWins | src/server/states/not_running.rs:35-41 | Under a request or marker the server ends the tick in Exiting, whatever transition the commands queued. The process exits unless delayed. |
| ServerProperties.ShutdownFirstPanics | src/server/states/loading.rs:9-14 | Were the shutdown check to run before the other handlers of its state, Unloading's update and Loading's stop command would panic on the already queued transition. In the order the model uses, neither panics. |
| ServerProperties.StartExistingSave | src/server/states/not_running.rs:65-79 | An existing save is stored with the directory as its path and Loading is queued, whatever the flag. Nothing is written or broadcast. |
| ServerProperties.StartCreatedSave | src/server/states/not_running.rs:66-79 | A created save writes the default config. With the flag set the server broadcasts Off and stays put without storing it. Without the flag it stores the config, whose path is the file, and queues Loading. |
| ServerProperties.StartFailed | src/server/states/not_running.rs:56-64 | A load-or-create failure broadcasts Off and changes nothing else in the server. |
| ServerProperties.StartCorruptSave | src/server/states/not_running.rs:56-64 | A corrupt save broadcasts Off and leaves the server and the disk unchanged. |
| ServerProperties.NotRunningIgnoresStops | src/server/states/not_running.rs:81-83 | In NotRunning, stop requests with any force change nothing. |
| ServerProperties.LoadingStops | src/server/states/loading.rs:60-64 | No stop leaves Loading untouched. One stop queues Unloading. A second stop in the same tick panics the failed `set`. |
| ServerProperties.UnloadingIgnoresCommands | src/server/states/unloading.rs:45-56 | Unloading ignores every command. |
| ServerProperties.UnloadingReturnsToNotRunning | src/server/states/unloading.rs:26-31 | Without an exit, Unloading lasts one tick and returns to NotRunning, which broadcasts Off. |
| Engine.Lowercase | src/core/mod.rs:44 | Lower-cases exactly the ASCII capitals, position by position. |
| Engine.LowercaseIdempotent | src/core/mod.rs:44 | Lower-casing twice is lower-casing once. |
| Engine.ParseClientType | src/core/mod.rs:40-53 | Every failure is the message "invalid value (logger, wgpu, or tui". |
| Engine.ParseClientTypeExact | src/core/mod.rs:40-53 | Parsing yields a type exactly when the lower-cased input is its name and its feature is enabled. The input's case does not matter. |
| Engine.ParseIgnoresCase | src/core/mod.rs:44-50 | A name in any mix of cases parses to its type if enabled, and fails otherwise. |
| Engine.Engine.constructor | src/core/mod.rs:75-82 | Defaults: server included, Logger client, no logging override, no game configuration. |
| Engine.NewEngine | src/core/mod.rs:72-83 | Fails exactly when logging set-up fails, with its error. Otherwise the new engine holds the defaults. |
| Engine.Engine.OverrideLoggingLevel | src/core/mod.rs:148-151 | Changes exactly the logging override and returns the same engine. |
| Engine.Engine.SetIncludeServer | src/core/mod.rs:153-156 | Changes exactly the include-server flag and returns the same engine. |
| Engine.Engine.SetClientType | src/core/mod.rs:158-161 | Changes exactly the client type and returns the same engine. |
| Engine.Engine.LoadGameConfiguration | src/core/mod.rs:163-170 | Changes exactly the game configuration path and returns the same engine. |
| Engine.Engine.CustomRun | src/core/mod.rs:89-146 | Builds the plan `Planned` gives for the current settings. |
| Engine.Planned | src/core/mod.rs:108-143 | The server plugins run when included and built. The Logger client gets the off-watcher. At most one command is sent. It is the create-only start command, sent exactly when the server is built and a game configuration is set. |
| Engine.DefaultPlan | src/core/mod.rs:72-143 | A fresh engine runs the server with the Logger client and its watcher, and sends no command. |
| Engine.RequestsCountOffs | src/core/mod.rs:173-189 | The watcher requests exit once per Off, except the very first Off it ever sees. Other states never trigger a request. |
| Engine.WatchingInBatches | src/core/mod.rs:176 | Because the skipped flag persists, watching two batches is watching their concatenation. |
| Engine.OffWatcher.constructor | src/core/mod.rs:176 | The skipped flag starts false. |
| Engine.OffWatcher.Watch | src/core/mod.rs:173-189 | The event loop updates the flag and sends requests as the reference `SkippedAfter` and `RequestsFor` say. |
| ConditionalMap.Flag.constructor | src/universal/conditional_map.rs:30 | A new switch holds the given value. |
| ConditionalMap.Flag.Store | src/client_tui/mod.rs:25-26 | Storing sets the switch's value. |
| ConditionalMap.Registry.constructor | src/universal/conditional_map.rs:4-8 | The registry starts empty. |
| ConditionalMap.Registry.GetById | src/universal/conditional_map.rs:15-22 | None exactly for an id never created. Otherwise the shared switch itself. |
| ConditionalMap.Registry.GetOrCreateById | src/universal/conditional_map.rs:24-32 | A new id gets a fresh switch set to the default. An existing id returns its switch unchanged, and the default is ignored. Afterwards `GetById` returns that same switch, and other ids are unaffected. |
| LogValues.SplitKind | src/core/logger/conditional_append_appender.rs:31-41 | A non-map is refused. The `kind` entry is removed and read as a string. A missing kind falls back, or is a missing-field error. The remaining map never holds `kind`. |
| LogValues.SplitJoined | src/core/logger/conditional_append_appender.rs:31-41 | Writing a component reference as a map and reading it back gives it back. |
| LogValues.JoinedSplit | src/core/logger/conditional_append_appender.rs:31-41 | Reading a map that names its kind and writing it back gives the map back. |
| LogValues.RequiredKind | src/core/logger/conditional_append_appender.rs:26-43 | The `deserialize` shared by the conditional appender's inner appender and the launch-roll appender's appender and roller (src/core/logger/launch_roll_file_appender.rs, lines 24-41 and 49-66). A missing kind is `missing_field("kind")`. A success is the input map minus `kind`. |
| ConditionalAppend.ParseConfig | src/core/logger/conditional_append_appender.rs:12-18 | Unknown fields are refused. An absent `default_enabled` stays absent. |
| ConditionalAppend.ConfigRoundTrip | src/core/logger/conditional_append_appender.rs:12-18 | Encoding a configuration and parsing it gives it back. |
| ConditionalAppend.ConditionallyAppendAppender.constructor | src/core/logger/conditional_append_appender.rs:60-67 | The appender holds the wrapped appender, the id and the shared switch. |
| ConditionalAppend.ConditionallyAppendAppender.Append | src/core/logger/conditional_append_appender.rs:79-85 | Forwards the record, with its result, exactly when the switch is on. Otherwise it succeeds without writing. |
| ConditionalAppend.ConditionallyAppendAppender.Flush | src/core/logger/conditional_append_appender.rs:87-89 | Flushing is always forwarded. |
| LogValues.InnerError | src/core/logger/conditional_append_appender.rs:58 | `Deserializers::deserialize` succeeds exactly when the kind is registered and its own deserializer accepts the configuration. For a registered kind, the error is that deserializer's rejection. |
| ConditionalAppend.Deserialize | src/core/logger/conditional_append_appender.rs:53-68 | When the inner appender cannot be built, because its kind is unregistered or its deserializer rejects its configuration, the method returns that error before the switch is looked up, and the registry is untouched. Otherwise the switch is shared by id. A new id starts at the default, true when absent. An existing id keeps its current value. |
| ConditionalAppend.ConsoleSilenced | src/client_tui/mod.rs:25-26 | Once the terminal client switches `console` off, the console appender writes nothing. |
| LaunchRoll.DeserializePolicy | src/core/logger/launch_roll_file_appender.rs:74-91 | A missing kind means "compound" with the whole map as configuration. Otherwise the map minus `kind`. |
| LaunchRoll.ParseConfig | src/core/logger/launch_roll_file_appender.rs:10-16 | All three fields are required, and no other field is allowed. |
| LaunchRoll.ConfigRoundTrip | src/core/logger/launch_roll_file_appender.rs:10-16 | Encoding a configuration and parsing it gives it back. |
| LaunchRoll.LogFiles.constructor | src/core/logger/launch_roll_file_appender.rs:106-107 | The directory holds the given regular files, and nothing has been rolled. |
| LaunchRoll.LogFiles.Roll | src/core/logger/launch_roll_file_appender.rs:110 | A successful roll moves exactly that file away. A failure leaves everything. |
| LaunchRoll.LaunchedRollsOnlyFiles | src/core/logger/launch_roll_file_appender.rs:101-116 | The roller is built and run only on an existing file. If the roller cannot be built (lines 108-109) or the roll fails, the result is that error and the file stays. Once the file is rolled, an appender that cannot be built (line 113) still fails, and the file is gone. A success yields the inner appender's kind. |
| LaunchRoll.Deserialize | src/core/logger/launch_roll_file_appender.rs:101-116 | The method gives the reference result. It rolls exactly when the path is an existing file, the roller can be built and the roll succeeds. |
| I18n.Added | src/universal/i18n.rs:173 | `add_resource` keeps every message already present and adds the new ids. |
| I18n.AddedOverriding | src/universal/i18n.rs:171 | `add_resource_overriding` lets the resource's messages win. |
| I18n.UnloadedZero | src/universal/i18n.rs:140-147 | No handle of a bundle is left to load exactly when all are loaded. |
| I18n.FullyLoadedIffNoneRemaining | src/universal/i18n.rs:140-155 | `is_fully_loaded` holds exactly when `remaining_to_load` is 0. |
| I18n.Find | src/universal/i18n.rs:165 | The first position tracking the handle, or None when none does. |
| I18n.FirstTracking | src/universal/i18n.rs:164-165 | The first bundle tracking the handle, or None when none does. |
| I18n.FirstTrackingAt | src/universal/i18n.rs:195-201 | The bundle the search stops at is the first one tracking the handle. |
| I18n.Reloaded | src/universal/i18n.rs:216-227 | A helper: rebuilding keeps the bundle's locales. What the rebuilt bundle holds is stated by `I18n.I18N.ReloadBundleAssetsAt`. |
| I18n.SwapRemove | src/universal/i18n.rs:202 | `swap_remove`: one element fewer. The prefix is kept, the last element takes the removed place, and the rest follow in order. |
| I18n.SwapRemoveMultiset | src/universal/i18n.rs:202 | Exactly the removed element goes. |
| I18n.InitBundle | src/universal/i18n.rs:234-266 | One tracked handle per file of the folder, in order, loaded exactly when its asset is available, with the language as the only locale. |
| I18n.InitBundles | src/universal/i18n.rs:284-287 | Fails exactly when some language's folder cannot be loaded, naming such a language. Otherwise it gives one fresh bundle per language, in order. |
| I18n.FirstValueIsFirst | src/universal/i18n.rs:339-347 | A lookup yields the value of the first bundle, in order, that has one. |
| I18n.FirstValueNone | src/universal/i18n.rs:339-359 | A lookup finds nothing exactly when no bundle has a value for the id. |
| I18n.FirstAttributeIsFirst | src/universal/i18n.rs:418-425 | An attribute lookup yields the attribute of the first bundle, in order, that has it. |
| I18n.FirstAttributeNone | src/universal/i18n.rs:418-438 | An attribute lookup finds nothing exactly when no bundle has the attribute. |
| I18n.AssetUpdatedOnlyLoads | src/universal/i18n.rs:163-182 | An unavailable asset changes nothing. Otherwise only the first bundle tracking the handle changes, where the handle becomes loaded. No flag goes from loaded to unloaded, and no handle or locale changes. |
| I18n.RemainingAfterUpdate | src/universal/i18n.rs:163-182 | An update lowers the count left to load by one exactly when it loads a handle not yet loaded. It never raises it. |
| I18n.LanguageChangeIdempotent | src/universal/i18n.rs:275-298 | Asking again for the current languages, or after a failure, changes nothing and announces nothing. |
| I18n.LanguageChangeFollowsRequest | src/universal/i18n.rs:275-291 | After a successful switch there is one bundle per requested language, in order. |
| I18n.FreshBundlesLoadedIffAvailable | src/universal/i18n.rs:284-290 | Fresh bundles are fully loaded exactly when every file of every folder is available. |
| I18n.I18N.constructor | src/universal/i18n.rs:133-138 | The resource starts with no bundles. |
| I18n.I18N.UpdateBundleForMatchingHandleAsset | src/universal/i18n.rs:157-187 | The loop changes the bundles as `AssetUpdated` says. It announces a change exactly when the asset was available and everything is then loaded. |
| I18n.I18N.ReloadBundleAssetsAt | src/universal/i18n.rs:210-230 | A fresh bundle with the same locales is refilled, overriding, from the available files in order. It announces a change when everything is loaded. |
| I18n.I18N.RemoveTrackedHandle | src/universal/i18n.rs:189-208 | Without a tracking bundle: None, and nothing changes. Otherwise the handle is swap-removed from the first tracking bundle, which is reloaded, and the `todo!()` is reached. |
| I18n.I18N.ChangeLanguageTo | src/universal/i18n.rs:268-299 | Rebuilds only when the count or some first locale differs. A folder failure is returned and changes nothing. A change is announced when the new bundles are fully loaded. |
| I18n.I18N.LanguageAssetLoaded | src/universal/i18n.rs:104-124 | Applies the asset events in order. A removal that reaches the `todo!()` stops everything. |
| I18n.I18N.ChangeLanguage | src/universal/i18n.rs:515-530 | Only the last request of the frame is acted on. A failure changes nothing. |
| I18n.I18N.Get | src/universal/i18n.rs:339-360 | Returns the text of the first bundle with a value, or `##~id~##`. |
| I18n.I18N.GetAttr | src/universal/i18n.rs:418-439 | Returns the attribute of the first bundle that has it, or `##~id~@@~attr~##`. |
| I18n.I18N.GetCurrentLanguage | src/universal/i18n.rs:507-512 | The first locale of the first bundle, or the undetermined language. |
| KeyboardTransform.CharKeys | src/client_tui/tui_plugin/transform_event_keyboard.rs:83-186 | With the corrected table (see Findings): at most two presses, all with a key code. The last carries the character's own code as scan code, and a first of two is RShift with scan code 0. |
| KeyboardTransform.UpperCaseKeys | src/client_tui/tui_plugin/transform_event_keyboard.rs:84-109 | 'A'..'Z' give RShift(0) then the letter with its ASCII code. |
| KeyboardTransform.LowerCaseKeys | src/client_tui/tui_plugin/transform_event_keyboard.rs:110-135 | 'a'..'z' give the same letter key with the lower-case ASCII code, without shift. |
| KeyboardTransform.DigitKeys | src/client_tui/tui_plugin/transform_event_keyboard.rs:136-145 | Digits give their number key with their ASCII code. |
| KeyboardTransform.SymbolKeys | src/client_tui/tui_plugin/transform_event_keyboard.rs:146-185 | Symbols follow the same scan-code rule, with '\\' corrected to 92. Unknown characters give nothing. |
| KeyboardTransform.CharKeysAsWritten | src/client_tui/tui_plugin/transform_event_keyboard.rs:152 | The table as written differs from the corrected one only at '\\'. |
| KeyboardTransform.BackslashScanCodeAsWritten | src/client_tui/tui_plugin/transform_event_keyboard.rs:152-164 | As written, '\\' gets scan code 124, which is not its code and is the same event as the key of '\|'. |
| KeyboardTransform.KeyPresses | src/client_tui/tui_plugin/transform_event_keyboard.rs:31-187 | With the corrected table for characters (see Findings): every event is a press. Null gives one event without key code and scan code 0. BackTab gives LShift(0), Tab(9). F1..F24 give F{n} with scan code 265+n, and other numbers give nothing. |
| KeyboardTransform.ModifierKeys | src/client_tui/tui_plugin/transform_event_keyboard.rs:188-218 | The nested test selects the subsequence of LShift, LControl, LAlt whose bits are set. |
| KeyboardTransform.ModifierPresses | src/client_tui/tui_plugin/transform_event_keyboard.rs:220 | Each modifier is pressed with scan code 0. |
| KeyboardTransform.Releases | src/client_tui/tui_plugin/transform_event_keyboard.rs:222-226 | The releases of the events in reverse order. |
| KeyboardTransform.ReleasesAppend | src/client_tui/tui_plugin/transform_event_keyboard.rs:222-226 | Releasing a concatenation releases the second part first. |
| KeyboardTransform.ToEngineEvents | src/client_tui/tui_plugin/transform_event_keyboard.rs:220-231 | Modifier presses, then key presses, then all their releases in reverse. The length is twice the presses. Every press is matched at its mirror position by its own release. Modifiers are LShift, LControl or LAlt with scan code 0. |
| KeyboardTransform.Bracketed | src/client_tui/tui_plugin/transform_event_keyboard.rs:228-231 | The chain of presses and reversed releases is properly nested, for any modifiers and key presses. |
| KeyboardTransform.PressesThenReleases | src/client_tui/tui_plugin/transform_event_keyboard.rs:221-225 | Presses followed by their reversed releases mirror each other. |
| KeyboardTransform.PressesAreBracketed | src/client_tui/tui_plugin/transform_event_keyboard.rs:220-231 | Every event that goes down comes back up with the same key and scan code, innermost first. |
| KeyboardTransform.UnknownKeyOnlyModifiers | src/client_tui/tui_plugin/transform_event_keyboard.rs:179-185 | A key without table entry still sends its modifiers down and up. |
| ChunkTypes.AsU16 | src/mechaenetia/game_data/chunks/chunk.rs:34-36 | `as u16` keeps the value modulo 2¹⁶. |
| ChunkTypes.TruncateU16 | src/mechaenetia/game_data/chunks/chunk.rs:115-117 | The cast is exact below 2¹⁶. |
| ChunkTypes.Area | src/mechaenetia/game_data/chunks/chunk.rs:33-38 | Each component is reinterpreted as unsigned: a negative v becomes v + 65536. |
| ChunkTypes.Sub | src/mechaenetia/game_data/chunks/chunk.rs:111-120 | `a - b` is the per-axis absolute difference. |
| ChunkTypes.Volume | src/mechaenetia/game_data/chunks/chunk.rs:59-61 | The product of the three extents fits a 64-bit `usize`, and is 0 exactly when one extent is 0. |
| ChunkTypes.VolumeFits | src/mechaenetia/game_data/chunks/chunk.rs:59-61 | Three 16-bit factors multiply to less than 2⁴⁸. |
| ChunkTypes.NewChunk | src/mechaenetia/game_data/chunks/chunk.rs:82-90 | Stores the location and edge length, with edge³ tiles, at least one. |
| ChunkTypes.SubSymmetric | src/mechaenetia/game_data/chunks/chunk.rs:114-119 | `a - b == b - a`. |
| ChunkTypes.SubSelf | src/mechaenetia/game_data/chunks/chunk.rs:114-119 | `a - a` is all zeros, with zero volume. |
| ChunkTypes.SubFitsU16 | src/mechaenetia/game_data/chunks/chunk.rs:115-117 | Two i16 values are at most 65535 apart, so the u16 cast loses nothing. |
| ChunkStore.Chunks.constructor | src/mechaenetia/game_data/chunks/mod.rs:14-19 | An empty store with the given edge length. |
| ChunkStore.Chunks.GetChunk | src/mechaenetia/game_data/chunks/mod.rs:21-27 | None exactly when the coordinate is absent. Otherwise the stored chunk. |
| ChunkStore.Chunks.GetOrCreateChunk | src/mechaenetia/game_data/chunks/mod.rs:29-37 | `inserted` holds exactly when the coordinate was absent. An existing chunk is returned unchanged. A new one has the coordinate and the store's edge length. Nothing else changes. |
| WorldData.World.constructor | src/mechaenetia/game_data/worlds/world/mod.rs:17-25 | The world holds its id, name and generator, and an empty chunk store sized by the generator. |
| WorldData.World.GetChunk | src/mechaenetia/game_data/worlds/world/mod.rs:27-33 | Delegates to the chunk store. |
| WorldData.World.GetOrGenerateChunkNow | src/mechaenetia/game_data/worlds/world/mod.rs:35-41 | Returns the chunk at the coordinate, creating it with the generator's edge length when absent. The generator does not touch it. |
| WorldData.GenerateTwice | src/mechaenetia/game_data/worlds/world/mod.rs:35-41 | Asking twice returns the same chunk and inserts at most one. |
| WorldStore.IndexOf | src/mechaenetia/game_data/worlds/mod.rs:52-54 | The position of a name, or None exactly when it is absent. |
| WorldStore.IndexOfDistinct | src/mechaenetia/game_data/worlds/mod.rs:52-54 | With distinct names, a name's position is the one place it occurs. |
| WorldStore.IndexOfAppend | src/mechaenetia/game_data/worlds/mod.rs:26 | Appending a fresh name finds it last and leaves every other lookup unchanged. |
| WorldStore.Worlds.constructor | src/mechaenetia/game_data/worlds/mod.rs:15-21 | The registry starts empty. |
| WorldStore.Worlds.CreateWorld | src/mechaenetia/game_data/worlds/mod.rs:24-29 | The id is the count before the call. A duplicate name trips the assertion, so callers pass a fresh one. Existing worlds are untouched. The new world knows its id and name, and both lookups find it. |
| WorldStore.Worlds.GetWorld | src/mechaenetia/game_data/worlds/mod.rs:31-36 | For a valid id, the world with that id and name. |
| WorldStore.Worlds.GetWorldName | src/mechaenetia/game_data/worlds/mod.rs:45-50 | For a valid id, a registered name. |
| WorldStore.Worlds.GetWorldIdByName | src/mechaenetia/game_data/worlds/mod.rs:52-54 | None exactly for an unknown name. Otherwise the id at which that name is stored. |
| WorldStore.NameAndIdInverse | src/mechaenetia/game_data/worlds/mod.rs:45-54 | The id of the name of an id is that id. |
| NotBash.JoinWithHead | xtask/src/not_bash.rs:126 | Joining distributes over a prefix of the first piece. |
| NotBash.Split | xtask/src/not_bash.rs:126 | Splitting on a character gives at least one piece, none holding the separator, and joining them back gives the input. |
| NotBash.SplitWithoutSeparator | xtask/src/not_bash.rs:126 | Without a separator there is a single piece. |
| NotBash.WordStart | xtask/src/not_bash.rs:130 | The first non-whitespace index at or after i. |
| NotBash.WordEnd | xtask/src/not_bash.rs:130 | The first whitespace index at or after i. |
| NotBash.WordsFrom | xtask/src/not_bash.rs:130 | The words of a suffix are non-empty runs without whitespace whose concatenation is the suffix's non-whitespace characters. |
| NotBash.Words | xtask/src/not_bash.rs:130 | `split_ascii_whitespace`: non-empty tokens without whitespace, in order, losing only whitespace. That the runs are maximal is stated by `NotBash.WordsOfLayout` and `NotBash.WordsHaveLayout`. |
| NotBash.WordsFromLayout | xtask/src/not_bash.rs:130 | A suffix laid out as tokens between whitespace gaps, non-empty between two tokens, splits into exactly those tokens. |
| NotBash.WordsOfLayout | xtask/src/not_bash.rs:130 | Tokens laid out between whitespace gaps, non-empty between two tokens, split back into exactly those tokens, so the split is the maximal one. |
| NotBash.SeparatedCons | xtask/src/not_bash.rs:130 | A gap and a token put in front of a layout give a layout of the longer string. |
| NotBash.LayoutCons | xtask/src/not_bash.rs:130 | The first gap and word of a suffix, put in front of the layout of the rest, lay out the whole suffix. |
| NotBash.WordsFromHaveLayout | xtask/src/not_bash.rs:130 | The words of a suffix, put back between the whitespace gaps they were cut from, give the suffix back. |
| NotBash.WordsHaveLayout | xtask/src/not_bash.rs:130 | Every string is its words laid out between whitespace gaps that are non-empty between two words: the converse of `WordsOfLayout`. |
| NotBash.JoinedLayout | xtask/src/not_bash.rs:130 | Joining words with single spaces lays them out between single-space gaps, with no gap at either end. |
| NotBash.WordsOfJoined | xtask/src/not_bash.rs:130 | Non-empty tokens without whitespace, joined by single spaces, split back into exactly themselves. |
| NotBash.ShellExpand | xtask/src/not_bash.rs:124-134 | The push loop gives the reference `Expanded` of the quote split. |
| NotBash.NoQuotesIsWords | xtask/src/not_bash.rs:124-134 | Input without quotes yields exactly its whitespace split. |
| NotBash.ArgumentsAreQuotedOrTokens | xtask/src/not_bash.rs:127-131 | Every argument is a quoted piece or a non-empty token without whitespace. |
| NotBash.QuotedPiecesKept | xtask/src/not_bash.rs:127-128 | Every quoted piece, even empty or with spaces, is an argument. |
| NotBash.AfterPushd | xtask/src/not_bash.rs:152-157 | Entering a directory keeps the stack non-empty with the process in its top directory. |
| NotBash.AfterPopd | xtask/src/not_bash.rs:158-161 | Leaving a directory keeps the stack non-empty with the process in its top directory. |
| NotBash.PushdPopd | xtask/src/not_bash.rs:152-161 | pushd then popd restores everything. |
| NotBash.PushEnvPopEnv | xtask/src/not_bash.rs:162-175 | push_env then pop_env restores the variable's previous value, or its absence. |
| NotBash.Env.constructor | xtask/src/not_bash.rs:144-147 | The directory stack starts with the current directory, and no override is saved. |
| NotBash.Env.Cwd | xtask/src/not_bash.rs:176-178 | The current directory is one the directory stack holds. |
| NotBash.Env.Pushd | xtask/src/not_bash.rs:152-157 | Changes the state as `AfterPushd` says. The new cwd is the old cwd joined with the argument. |
| NotBash.Env.Popd | xtask/src/not_bash.rs:158-161 | Changes the state as `AfterPopd` says. |
| NotBash.Env.PushEnv | xtask/src/not_bash.rs:162-166 | Changes the state as `AfterPushEnv` says. |
| NotBash.Env.PopEnv | xtask/src/not_bash.rs:167-175 | Changes the state as `AfterPopEnv` says. |
| Xtask.Color | xtask/src/main.rs:14-31 | The setting is always "always" or "never". |
| Xtask.LastColorFlagWins | xtask/src/main.rs:21-29 | The last `--color` or `--no-color` decides. |
| Xtask.NoColorFlagKeepsDefault | xtask/src/main.rs:16-20 | Without flags, whether stdout is a terminal decides. |
| Xtask.Dispatch | xtask/src/main.rs:32-43 | Only `checks` runs the checks. A missing command, `--help` or `-h` prints help. Any other command is reported as unknown before the help. |
| Xtask.FindFrom | xtask/src/main.rs:70 | The first occurrence of the pattern at or after a position, or None when there is none. |
| Xtask.SplitOnce | xtask/src/main.rs:70 | None exactly when the pattern never occurs. Otherwise the split is at its first occurrence, and the two pieces rebuild the input around it. |
| Xtask.CargoDenyVersion | xtask/src/main.rs:70-73 | Accepted exactly when the output starts with "cargo-deny ". The version is what follows. |
| Xtask.SkipLeading | xtask/src/main.rs:169 | The first non-whitespace index at or after i. |
| Xtask.SkipTrailing | xtask/src/main.rs:169 | The end of a range once its trailing whitespace is dropped. |
| Xtask.Trim | xtask/src/main.rs:169 | `trim` keeps the slice between the leading and the trailing whitespace. That slice is empty or starts and ends with non-whitespace. |
| Xtask.Message | xtask/src/main.rs:174-180 | Every error message is non-empty. |
| Xtask.PackageErrorsIffUnacceptable | xtask/src/main.rs:167-182 | A package records no error exactly when it is acceptable. Acceptable means a license that, trimmed, matches its special case or is in the allowed list. |
| Xtask.SpecialCaseMismatchErrors | xtask/src/main.rs:170-178 | A special-cased mismatch records the special-case error. An "Unknown license" error follows when the license is also not allowed. |
| Xtask.PolicyGplInHouse | xtask/src/main.rs:119-161 | The GPL is not in the allowed list, and every special case is the GPL. |
| Xtask.GplOnlyForTheProject | xtask/src/main.rs:134-161 | A GPL dependency is acceptable exactly when it is one of the project's own crates. |
| Xtask.RenderEmpty | xtask/src/main.rs:184 | The rendered errors are empty exactly when there are none. |
| Xtask.AllErrorsEmpty | xtask/src/main.rs:166-184 | No errors exactly when every package is acceptable. |
| Xtask.RenderAppend | xtask/src/main.rs:174-180 | Rendering distributes over concatenation. |
| Xtask.CheckPackage | xtask/src/main.rs:168-181 | One loop iteration appends that package's rendered errors. |
| Xtask.CheckLicenses | xtask/src/main.rs:106-186 | The error text is the rendering of all packages' errors, in order. The check passes exactly when every package is acceptable. |
| Scenarios.FreshSaveExitsAfterCreating | src/core/mod.rs:132-143 | A dedicated server given a new save creates it, broadcasts Off twice, and exits on the next tick with a 1000 ms watchdog: the watcher skips the first Off and requests exit on the second. |
| Scenarios.ExistingSaveFirstTick | src/server/states/not_running.rs:65-79 | The first tick with an existing save stores it and enters Loading, broadcasting Off then Loading(0.0). |
| Scenarios.ExistingSaveStartsLoading | src/server/states/loading.rs:18-37 | The next idle tick broadcasts Loading(0.01). |
| Scenarios.StopWhileLoading | src/server/states/loading.rs:60-64 | A stop while loading broadcasts ShuttingDown after the tick's progress. The next tick returns to NotRunning and broadcasts Off. |

## Left out

- Floating point: the loading progress is an exact `real`. The f32 rounding of `c += (1 - c) * 0.01` is not modelled.
- Concurrency: the watchdog thread, its sleep and `std::process::exit(0)` are left out. An armed watchdog is recorded with its grace period.
- The switch registry's lock and atomics are left out. The registry is a map of shared `Flag` objects.
- Logging calls (`trace!`, `info!`, `warn!`, `error!`) and logger set-up are left out. A failed logger set-up is a parameter of `Engine.NewEngine`.
- Bevy's scheduler is reduced to one fixed stage order per tick:
  - per-reader event cursors are not modelled, so commands are delivered to the current state's handlers in the tick they were sent;
  - the same-frame re-run of state transitions and the plugin wiring are not modelled;
  - the terminal client's `draw` and the other rendering systems are not modelled.
- Running and Paused have no handlers in the source, so nothing is modelled for them.
- The RON codec is abstract: `accepts` and `pretty` are uninterpreted. Only the round-trip assumption `RoundTrips` is used, and only in `Save.CreatedThenExisting`.
- The asset server is abstract:
  - `load_folder` is a map from language to handles;
  - assets are a map from handle to parsed resource;
  - `scan_languages_on_fs` is not modelled because it reads the filesystem;
  - Fluent pattern formatting, its errors and the `*_with_args*` variants are not modelled, so a message's text is its value.
- I18n.I18N.ReloadBundleAssetsAt: the final `todo!()` panics in the source. The model returns normally, and `RemoveTrackedHandle` reports `Unimplemented` so that callers stop there.
- Chunk tiles: `Chunk::iter_tiles_mut` and `generate_tiles_in_chunk` are `todo!()`. A chunk's tiles are unit values.
- `get_chunk_mut` and `get_world_mut` are modelled as plain lookups. Mutation through the returned reference is not modelled.
- The log4rs `Deserializers` registry is abstract: a set of registered kind names. Whether a kind's own deserializer accepts a configuration is a parameter (`rejected`), and the components it builds are not modelled beyond their kind.
- ServerProperties.ShutdownWins: rests on the order the model gives the three handlers that one state registers for each tick: update, then commands, then the shutdown check. This is the registration order. The source declares no order between them. In another order the shutdown check's queued Exiting makes Unloading's `set(NotRunning)` (src/server/states/unloading.rs:26-31), Loading's `set(Unloading)` on a stop command (src/server/states/loading.rs:62-64) and NotRunning's `set(Loading)` on a start command (src/server/states/not_running.rs:77-79) fail their `expect` and panic. `ServerProperties.ShutdownFirstPanics` states the first two. The row under Findings records this race.
- ConditionalAppend.ParseConfig: the error it returns assumes a fixed precedence. Unknown fields are reported first, all of them together. Then the fields are checked in declaration order. The derived serde deserializer reports the first problem it meets while walking the map in the map's own order, naming only that one unknown field. Which error a map with several problems yields is therefore not modelled. Whether some error is returned, and the success case, are.
- LaunchRoll.ParseConfig: the same fixed precedence of errors as `ConditionalAppend.ParseConfig`, for the same reason.
- Engine.Lowercase: lowers only the ASCII capitals, while Rust's `to_lowercase` also lowers non-ASCII letters. The parse result is unaffected. Only two non-ASCII characters lower to anything containing an ASCII letter: the Kelvin sign U+212A becomes `k`, which none of `logger`, `wgpu` and `tui` contains, and U+0130 becomes `i` followed by the non-ASCII U+0307. Every other non-ASCII character stays non-ASCII, so no non-ASCII input lowers to one of the three names.
- WorldStore.Worlds.GetWorldName: its contract promises only a registered name. The exact name is stated by `WorldStore.NameAndIdInverse` and `CreateWorld`.
- The build helper's process runner (`run_process`), `rm_rf` and `date_iso` are external processes and clocks. The `cargo metadata` JSON is given as a sequence of packages.
- The semver check of the cargo-deny version is not modelled. Only the prefix check before it is.
- `set_current_dir` and `set_var` are modelled as the abstract process directory and variable map. Their failures are not modelled.
- The `Pushd` and `PushEnv` guards' `Drop` is not modelled. It calls `Popd` and `PopEnv`, which are modelled.
- The terminal client's plugin group and its escape and window-close systems are not modelled. Only its switching-off of the `console` switch is (`ConditionalAppend.ConsoleSilenced`).
- `src/universal/local_server.rs`, `src/main.rs`, the client state stubs and the user interfaces are not part of this model.

## Findings

| source | as written | input that shows it | evidently intended | confidence | as-written member | corrected member |
|---|---|---|---|---|---|---|
| src/client_tui/tui_plugin/transform_event_keyboard.rs:152 | `'\\'` maps to Backslash with scan code 124 | the character `\`: its event is identical to the Backslash event of `\|` (line 164), and 124 is not its code | scan code 92, the character's own code, as for every other printable character | high (not executed) | KeyboardTransform.BackslashScanCodeAsWritten | KeyboardTransform.SymbolKeys |
| src/server/states/loading.rs:9-14 | update, command and shutdown handlers in one set with no order between them | a stop command in Loading, or any tick in Unloading, while the exit marker is present, with the shutdown check run first: the later `set` finds Exiting queued and its `expect` panics | the shutdown check ordered after the other handlers, so that Exiting replaces whatever they queued | low (not executed) | ServerProperties.ShutdownFirstPanics | ServerProperties.ShutdownWins |
