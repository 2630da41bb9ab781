/** Mapping zap's levels onto Sentry's, and the level gate the core reports to zap. */
module Levels {
  import opened Zapcore
  import opened Sentry

  /** `zapToSentryLevels`: the documented correspondence for zap's seven levels. */
  const ZapToSentryLevels: map<Level, SentryLevel> := map[
    DebugLevel := LevelDebug,
    InfoLevel := LevelInfo,
    WarnLevel := LevelWarning,
    ErrorLevel := LevelError,
    DPanicLevel := LevelFatal,
    PanicLevel := LevelFatal,
    FatalLevel := LevelFatal
  ]

  /**
   * `zapToSentryLevel`: a table lookup falling back to fatal, so every level, known or
   * not, has a Sentry level. Each Sentry level below fatal has exactly one zap level.
   */
  function ZapToSentryLevel(lvl: Level): (r: SentryLevel)
    ensures r == LevelDebug <==> lvl == DebugLevel
    ensures r == LevelInfo <==> lvl == InfoLevel
    ensures r == LevelWarning <==> lvl == WarnLevel
    ensures r == LevelError <==> lvl == ErrorLevel
    ensures r == LevelFatal <==> !(DebugLevel <= lvl <= ErrorLevel)
  {
    if lvl in ZapToSentryLevels then ZapToSentryLevels[lvl] else LevelFatal
  }

  /** Sentry's levels in increasing severity. */
  function SentryRank(l: SentryLevel): nat
  {
    match l
    case LevelDebug => 0
    case LevelInfo => 1
    case LevelWarning => 2
    case LevelError => 3
    case LevelFatal => 4
  }

  /** From Debug upwards the mapping never makes a more severe zap level less severe in Sentry. */
  lemma ZapToSentryLevelMonotone(a: Level, b: Level)
    requires DebugLevel <= a <= b
    ensures SentryRank(ZapToSentryLevel(a)) <= SentryRank(ZapToSentryLevel(b))
  {
  }

  /**
   * `LevelEnabler`: admits an entry if it reaches the event threshold, or breadcrumbs are
   * enabled and it reaches the breadcrumb threshold.
   */
  datatype LevelEnabler = LevelEnabler(level: Level, enableBreadcrumbs: bool, breadcrumbsLevel: Level)
  {
    predicate Enabled(lvl: Level): (admitted: bool)
      ensures admitted <==> lvl >= (if enableBreadcrumbs && breadcrumbsLevel < level then breadcrumbsLevel else level)
    {
      LevelEnabled(level, lvl) || (enableBreadcrumbs && LevelEnabled(breadcrumbsLevel, lvl))
    }
  }

  /** The gate admits exactly the levels at or above the lower of the thresholds in force. */
  lemma EnablerThreshold(e: LevelEnabler, lvl: Level)
    ensures e.Enabled(lvl) <==> lvl >= (if e.enableBreadcrumbs && e.breadcrumbsLevel < e.level then e.breadcrumbsLevel else e.level)
  {
  }

  /** Whatever the gate admits, it admits every more severe level too. */
  lemma EnablerMonotone(e: LevelEnabler, lvl: Level, higher: Level)
    requires e.Enabled(lvl) && lvl <= higher
    ensures e.Enabled(higher)
  {
  }

  /** With breadcrumbs off, the gate is the event threshold alone. */
  lemma EnablerWithoutBreadcrumbs(e: LevelEnabler, lvl: Level)
    requires !e.enableBreadcrumbs
    ensures e.Enabled(lvl) <==> LevelEnabled(e.level, lvl)
  {
  }
}
