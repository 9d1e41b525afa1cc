/**
 * The remote console's server reference as a state machine. The manager holds
 * at most one HTTP server; starting is guarded by "is there a reference
 * already", and disabling stops the server but keeps the reference, so a
 * stopped (or failed) server is never replaced or restarted.
 */
module Lifecycle {
  import opened Wrappers

  const RconPort: int := 3005
  const ConsolePath: string := "/checkConn"
  const ChatPath: string := "/rconchat"

  /** The two websocket services the server exposes, in registration order. */
  const ServicePaths: seq<string> := [ConsolePath, ChatPath]

  datatype Server = Server(port: int, paths: seq<string>, listening: bool)

  /**
   * How a start request ended: a new server was created (and its listener
   * came up or failed to bind), or a server already existed and only a
   * warning was logged.
   */
  datatype StartOutcome = Created(bound: bool) | AlreadyListening

  /**
   * A start request. `bound` says whether the listener managed to bind the
   * port; the reference is assigned before the listener starts, so it is kept
   * even when binding fails.
   */
  function Start(ref: Option<Server>, bound: bool): (r: (Option<Server>, StartOutcome))
    ensures ref.Some? ==> r == (ref, AlreadyListening)
    ensures ref.None? ==> r.1 == Created(bound) && r.0.Some? &&
                          r.0.value.port == RconPort &&
                          r.0.value.paths == ServicePaths &&
                          r.0.value.listening == bound
  {
    if ref.Some? then (ref, AlreadyListening)
    else (Some(Server(RconPort, ServicePaths, bound)), Created(bound))
  }

  /** A disable request: stop the server if there is one; never clear the reference. */
  function Disable(ref: Option<Server>): (r: Option<Server>)
    ensures r.Some? <==> ref.Some?
    ensures r.Some? ==> !r.value.listening &&
                        r.value.port == ref.value.port && r.value.paths == ref.value.paths
  {
    match ref
    case None => None
    case Some(server) => Some(server.(listening := false))
  }

  /** An enable (which starts the server) or a disable of the manager. */
  datatype LifecycleOp = Enable(bound: bool) | DisableOp

  /** The reference after a run of operations, and how many servers the run created. */
  function RunLifecycle(ref: Option<Server>, ops: seq<LifecycleOp>): (Option<Server>, nat)
    decreases |ops|
  {
    if ops == [] then (ref, 0)
    else
      var next := match ops[0]
                  case Enable(bound) => Start(ref, bound).0
                  case DisableOp => Disable(ref);
      var (last, created) := RunLifecycle(next, ops[1..]);
      (last, created + if ref.None? && ops[0].Enable? then 1 else 0)
  }

  /**
   * Once a reference exists, no run creates another server: the port and
   * paths never change, and the server listens at the end only if it was
   * listening at the start.
   */
  lemma {:induction false} ExistingServerIsNeverReplaced(ref: Option<Server>, ops: seq<LifecycleOp>)
    requires ref.Some?
    ensures var (last, created) := RunLifecycle(ref, ops);
            created == 0 && last.Some? &&
            last.value.port == ref.value.port && last.value.paths == ref.value.paths &&
            (last.value.listening ==> ref.value.listening)
    decreases |ops|
  {
    if ops != [] {
      var next := match ops[0]
                  case Enable(bound) => Start(ref, bound).0
                  case DisableOp => Disable(ref);
      ExistingServerIsNeverReplaced(next, ops[1..]);
    }
  }

  /**
   * From no server, any run creates at most one server; a reference exists at
   * the end exactly when one was created, and it serves exactly the console
   * and chat paths on the fixed port.
   */
  lemma {:induction false} AtMostOneServer(ops: seq<LifecycleOp>)
    ensures var (last, created) := RunLifecycle(None, ops);
            created <= 1 &&
            (last.Some? <==> created == 1) &&
            (last.Some? ==> last.value.port == RconPort && last.value.paths == ServicePaths)
    decreases |ops|
  {
    if ops != [] {
      match ops[0]
      case DisableOp =>
        AtMostOneServer(ops[1..]);
      case Enable(bound) =>
        ExistingServerIsNeverReplaced(Start(None, bound).0, ops[1..]);
    }
  }

  /** A stopped server stays stopped: enabling the manager again is a no-op. */
  lemma StoppedServerCannotRestart(ref: Option<Server>, bound: bool)
    requires ref.Some?
    ensures Start(Disable(ref), bound) == (Disable(ref), AlreadyListening)
    ensures !Start(Disable(ref), bound).0.value.listening
  {
  }
}
