/** The package-wide defaults every new core starts from. */
module Defaults {
  import opened Zapcore
  import opened Exceptions

  /** One second of `time.Duration`, in nanoseconds. */
  const Second: int := 1_000_000_000

  /** The unexported `config` record: the settings that have a package default. */
  datatype Config = Config(
    level: Level,
    flushTimeout: int,
    platform: string,
    environment: string,
    disableStacktrace: bool,
    stackTraceFrameFilter: FrameFilter,
    exceptionProvider: ExceptionProvider)

  /** `defaults`: events from Error up, a five-second flush, stacktraces on, no exceptions yet. */
  const defaults: Config := Config(
    ErrorLevel,
    5 * Second,
    "Golang",
    "",
    false,
    DefaultStacktraceFrameFilter,
    NopExceptionProvider)
}
