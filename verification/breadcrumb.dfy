/** The breadcrumb settings of a core, the breadcrumb gate and the breadcrumb builder. */
module Breadcrumbs {
  import opened Zapcore
  import opened Levels
  import S = Sentry

  const BreadcrumbTypeDefault: string := "default"
  const BreadcrumbTypeInfo: string := "info"
  const BreadcrumbTypeDebug: string := "debug"

  /** The part of `sentry.Breadcrumb` the adapter fills; the category is never set and stays empty. */
  datatype Breadcrumb = Breadcrumb(
    breadcrumbType: string,
    category: string,
    message: string,
    data: map<string, Value>,
    level: S.SentryLevel,
    timestamp: Time)

  /** `zapLevelToBreadcrumbType`: Info and Debug have their own types, every other level the default one. */
  function ZapLevelToBreadcrumbType(lvl: Level): (r: string)
    ensures r == BreadcrumbTypeInfo <==> lvl == InfoLevel
    ensures r == BreadcrumbTypeDebug <==> lvl == DebugLevel
    ensures r == BreadcrumbTypeDefault <==> lvl != InfoLevel && lvl != DebugLevel
  {
    if lvl == InfoLevel then BreadcrumbTypeInfo
    else if lvl == DebugLevel then BreadcrumbTypeDebug
    else BreadcrumbTypeDefault
  }

  /** `breadcrumbs`: shared by a core and every core derived from it; only options write it. */
  class Breadcrumbs {
    /** Whether breadcrumbs are collected at all. */
    var enabled: bool
    /** The level at and above which breadcrumbs are collected. */
    var level: Level
    /** Stored by `WithGlobalBreadcrumbs`; nothing reads it. */
    var localOnly: bool

    /** `newBreadcrumbs`: disabled, local only, level at Go's zero value (Info). */
    constructor ()
      ensures !enabled && level == InfoLevel && localOnly
    {
      enabled := false;
      level := InfoLevel;
      localOnly := true;
    }

    /** The breadcrumb gate: collection is on and the level reaches the breadcrumb threshold. */
    predicate Enabled(lvl: Level): (admitted: bool)
      reads this
      ensures !enabled ==> !admitted
      ensures enabled ==> (admitted <==> lvl >= level)
    {
      enabled && LevelEnabled(level, lvl)
    }

    /**
     * `breadcrumbs.new`: message, time and data are carried over untouched; level and type
     * both follow the entry's level, so they agree with each other.
     */
    function New(ent: Entry, data: map<string, Value>): (bc: Breadcrumb)
      ensures bc.message == ent.message && bc.timestamp == ent.time && bc.data == data
      ensures bc.category == ""
      ensures bc.level == ZapToSentryLevel(ent.level)
      ensures bc.breadcrumbType == ZapLevelToBreadcrumbType(ent.level)
      ensures bc.breadcrumbType == BreadcrumbTypeInfo <==> bc.level == S.LevelInfo
      ensures bc.breadcrumbType == BreadcrumbTypeDebug <==> bc.level == S.LevelDebug
    {
      Breadcrumb(ZapLevelToBreadcrumbType(ent.level), "", ent.message, data, ZapToSentryLevel(ent.level), ent.time)
    }
  }

  /** With collection off, no level passes the gate. */
  lemma DisabledAdmitsNothing(b: Breadcrumbs, lvl: Level)
    requires !b.enabled
    ensures !b.Enabled(lvl)
  {
  }

  /** With collection on, the gate admits exactly the levels at or above the breadcrumb level. */
  lemma EnabledAtOrAbove(b: Breadcrumbs, lvl: Level)
    requires b.enabled
    ensures b.Enabled(lvl) <==> lvl >= b.level
  {
  }
}
