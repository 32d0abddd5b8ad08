/**
 * The states of the local server and which of them the server plugin
 * registers handlers for.
 */
module ServerStates {

  datatype ServerState = NotRunning | Loading | Running | Paused | Unloading | Exiting

  /** The state the plugin installs when it is built. */
  const InitialState: ServerState := NotRunning

  /**
   * States with registered handlers (enter, update, exit). Running and Paused
   * have none: nothing is done on entering them, on a tick in them, or on a
   * command or shutdown request while in them.
   */
  predicate HasHandlers(s: ServerState) {
    s == Exiting || s == Loading || s == Unloading || s == NotRunning
  }

  /** States whose update set also reads commands and checks for shutdown. */
  predicate ObservesCommandsAndShutdown(s: ServerState) {
    s == NotRunning || s == Loading || s == Unloading
  }

  /** The enumeration is exactly six states, and the handler sets nest. */
  lemma StatesAndHandlers(s: ServerState)
    ensures s in {NotRunning, Loading, Running, Paused, Unloading, Exiting}
    ensures HasHandlers(s) <==> s != Running && s != Paused
    ensures ObservesCommandsAndShutdown(s) <==> HasHandlers(s) && s != Exiting
  {
  }
}

/**
 * The messages exchanged between the local server and its clients: commands
 * sent to the server and the public state it broadcasts.
 */
module LocalServerMessages {
  import opened Common

  /** Loading carries the completion fraction, exact here rather than floating point. */
  datatype PublicState = Off | Loading(completion: real) | Running | ShuttingDown

  datatype Command =
    | CreateStartServer(path: Path, configOnlyIfNotExisting: bool)
    | StopServer(force: bool)

  /** The public state resource before any handler has run. */
  const InitialPublicState: PublicState := Off
}
