/**
 * The parts of the sentry-go client library that the adapter uses, as data.
 * Clients, hubs and scopes are opaque handles; the calls made on them are
 * recorded as effects by the routing core rather than executed.
 */
module Sentry {

  /** A `*sentry.Client`. */
  datatype Client = Client(id: nat)

  /**
   * A `*sentry.Hub`: one handed in by the caller, the hub `sentry.NewHub(client, scope)`
   * would build, or a clone of the process-wide current hub (`CurrentHub().Clone()`),
   * whose client is the one `NewCore` bound to the current hub.
   */
  datatype Hub =
    | HubHandle(id: nat)
    | NewHub(client: Client, scope: Scope)
    | CurrentHubClone

  /** A `*sentry.Scope`: one handed in by the caller, or the top scope of a hub (`hub.Scope()`). */
  datatype Scope =
    | ScopeHandle(id: nat)
    | TopScope(hub: Hub)

  /** `sentry.Level`. */
  datatype SentryLevel = LevelDebug | LevelInfo | LevelWarning | LevelError | LevelFatal

  /** `sentry.Frame`, reduced to the attributes the frame filter reads plus its location. */
  datatype Frame = Frame(functionName: string, moduleName: string, filename: string, lineno: int)

  /** `sentry.Stacktrace`. */
  datatype Stacktrace = Stacktrace(frames: seq<Frame>)

  /** `sentry.Exception`. */
  datatype Exception = Exception(exceptionType: string, value: string, stacktrace: Stacktrace)
}
