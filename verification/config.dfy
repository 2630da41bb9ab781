/**
 * The functional options a core is configured with, and `NewCore`, which applies them
 * in order and validates the result.
 */
module Config {
  import W = Wrappers
  import Z = Zapcore
  import opened Levels
  import opened Exceptions
  import opened Breadcrumbs
  import opened Events
  import opened Defaults
  import C = Core
  import S = Sentry

  /** A Go `error`, by its message. */
  type Error = string

  const ErrStacktraceDisabled: Error := "stacktrace disabled, don't pass stacktrace frame filter opt"
  const ErrZeroFlushTimeout: Error := "flush timeout can't be 0"
  const ErrBreadcrumbLevel: Error := "breadcrumb level must be lower than error level"

  /** `Option`: one constructor per option function of the package. */
  datatype Option =
    | Level(lvl: Z.Level)
    | WithTags(tags: map<string, string>)
    | WithEnvironment(env: string)
    | WithPlaform(platform: string)
    | UseStacktraceFrameFilter(ff: FrameFilter)
    | DisableStacktrace
    | WithBreadcrumbs(level: Z.Level)
    | WithGlobalBreadcrumbs
    | WithFlushTimeout(after: int)
    | UseHub(hub: W.Option<S.Hub>)  // `None` is a nil hub pointer
    | ConvertFieldsToTags(keys: seq<string>)

  /** Everything an option can write: the core's own settings and those of its events and breadcrumbs. */
  datatype Settings = Settings(
    level: Z.Level,
    flushTimeout: int,
    sentryHub: W.Option<S.Hub>,
    environment: string,
    platform: string,
    registeredTagKeys: set<string>,
    disabledStacktrace: bool,
    stackTraceFrameFilter: FrameFilter,
    exceptionProvider: ExceptionProvider,
    tags: map<string, string>,
    breadcrumbsEnabled: bool,
    breadcrumbsLevel: Z.Level,
    localOnly: bool)

  /** The settings of a core as they stand. */
  function SettingsOf(c: C.Core): Settings
    reads c, c.events, c.breadcrumbs
  {
    Settings(
      c.level, c.flushTimeout, c.sentryHub,
      c.events.environment, c.events.platform, c.events.registeredTagKeys,
      c.events.disabledStacktrace, c.events.stackTraceFrameFilter, c.events.exceptionProvider, c.events.tags,
      c.breadcrumbs.enabled, c.breadcrumbs.level, c.breadcrumbs.localOnly)
  }

  /**
   * The settings `NewCore` starts from. `Defaults.Config` holds only what the package
   * default record holds; the rest is what `newEvents`, `newBreadcrumbs` and the core
   * literal of `NewCore` leave at their zero values or set themselves.
   */
  const Initial: Settings := Settings(
    defaults.level, defaults.flushTimeout, W.None,
    defaults.environment, defaults.platform, {},
    defaults.disableStacktrace, defaults.stackTraceFrameFilter, defaults.exceptionProvider, map[],
    false, Z.InfoLevel, true)

  /**
   * What applying one option does. Only two options can fail: a frame filter once
   * stacktraces are disabled, and a zero flush timeout. Only `DisableStacktrace` touches
   * the exception provider, and it sets the nop one.
   */
  function ApplyOption(s: Settings, o: Option): (r: W.Result<Settings, Error>)
    ensures r.Failure? <==> (o.UseStacktraceFrameFilter? && s.disabledStacktrace) || (o.WithFlushTimeout? && o.after == 0)
    ensures r.Failure? ==> r.error == if o.WithFlushTimeout? then ErrZeroFlushTimeout else ErrStacktraceDisabled
    ensures r.Success? && o.DisableStacktrace? ==> r.value.exceptionProvider == NopExceptionProvider
    ensures r.Success? && !o.DisableStacktrace? ==> r.value.exceptionProvider == s.exceptionProvider
  {
    match o
    case Level(lvl) => W.Success(s.(level := lvl))
    case WithTags(tags) => W.Success(s.(tags := tags))
    case WithEnvironment(env) => W.Success(s.(environment := env))
    case WithPlaform(platform) => W.Success(s.(platform := platform))
    case UseStacktraceFrameFilter(ff) =>
      if s.disabledStacktrace then W.Failure(ErrStacktraceDisabled)
      else W.Success(s.(stackTraceFrameFilter := ff))
    case DisableStacktrace => W.Success(s.(disabledStacktrace := true, exceptionProvider := NopExceptionProvider))
    case WithBreadcrumbs(level) => W.Success(s.(breadcrumbsEnabled := true, breadcrumbsLevel := level))
    case WithGlobalBreadcrumbs => W.Success(s.(localOnly := false))
    case WithFlushTimeout(after) =>
      if after == 0 then W.Failure(ErrZeroFlushTimeout)
      else W.Success(s.(flushTimeout := after))
    case UseHub(hub) => W.Success(s.(sentryHub := hub))
    case ConvertFieldsToTags(keys) => W.Success(s.(registeredTagKeys := set k | k in keys))
  }

  /** Applying options in order, stopping at the first that fails. */
  function ApplyAll(s: Settings, opts: seq<Option>): W.Result<Settings, Error>
    decreases |opts|
  {
    if opts == [] then W.Success(s)
    else
      match ApplyOption(s, opts[0])
      case Failure(e) => W.Failure(e)
      case Success(next) => ApplyAll(next, opts[1..])
  }

  /** The breadcrumb threshold above the event threshold, which construction rejects. */
  predicate BreadcrumbsTooLoud(s: Settings)
  {
    s.breadcrumbsEnabled && s.breadcrumbsLevel > s.level
  }

  /** The last step of construction: the filtering provider unless stacktraces are disabled. */
  function WithProvider(s: Settings): Settings
  {
    if s.disabledStacktrace then s
    else s.(exceptionProvider := NewExceptionProvider(s.stackTraceFrameFilter))
  }

  /** What `NewCore` builds for `factory`'s outcome and `opts`, or the error it returns. */
  function Constructed(factory: W.Result<S.Client, Error>, opts: seq<Option>): W.Result<Settings, Error>
  {
    if factory.Failure? then W.Failure(factory.error)
    else
      match ApplyAll(Initial, opts)
      case Failure(e) => W.Failure(e)
      case Success(s) => if BreadcrumbsTooLoud(s) then W.Failure(ErrBreadcrumbLevel) else W.Success(WithProvider(s))
  }

  /** An option closure run on a core: writes its one setting, or fails without writing. */
  method Apply(o: Option, c: C.Core) returns (err: W.Outcome<Error>)
    modifies c, c.events, c.breadcrumbs
    ensures c.events == old(c.events) && c.breadcrumbs == old(c.breadcrumbs)
    ensures c.enabler == old(c.enabler) && c.client == old(c.client)
    ensures c.sentryScope == old(c.sentryScope) && c.fields == old(c.fields)
    ensures ApplyOption(old(SettingsOf(c)), o).Failure? ==>
      err == W.Fail(ApplyOption(old(SettingsOf(c)), o).error) && SettingsOf(c) == old(SettingsOf(c))
    ensures ApplyOption(old(SettingsOf(c)), o).Success? ==>
      err == W.Pass && SettingsOf(c) == ApplyOption(old(SettingsOf(c)), o).value
  {
    match o {
    case Level(lvl) =>
      c.level := lvl;
    case WithTags(tags) =>
      c.events.tags := tags;
    case WithEnvironment(env) =>
      c.events.environment := env;
    case WithPlaform(platform) =>
      c.events.platform := platform;
    case UseStacktraceFrameFilter(ff) =>
      if c.events.disabledStacktrace {
        return W.Fail(ErrStacktraceDisabled);
      }
      c.events.stackTraceFrameFilter := ff;
    case DisableStacktrace =>
      c.events.disabledStacktrace := true;
      c.events.exceptionProvider := NopExceptionProvider;
    case WithBreadcrumbs(level) =>
      c.breadcrumbs.enabled := true;
      c.breadcrumbs.level := level;
    case WithGlobalBreadcrumbs =>
      c.breadcrumbs.localOnly := false;
    case WithFlushTimeout(after) =>
      if after == 0 {
        return W.Fail(ErrZeroFlushTimeout);
      }
      c.flushTimeout := after;
    case UseHub(hub) =>
      c.sentryHub := hub;
    case ConvertFieldsToTags(keys) =>
      var registered: set<string> := {};
      for i := 0 to |keys|
        invariant registered == set j | 0 <= j < i :: keys[j]
      {
        registered := registered + {keys[i]};
      }
      c.events.registeredTagKeys := registered;
    }
    return W.Pass;
  }

  /**
   * `NewCore`: fails with the factory's error, or with the first failing option's error
   * (later options are not applied), or when breadcrumbs are enabled above the event
   * level; otherwise returns a fresh core with no fields and no scope whose gate follows
   * its thresholds and whose exception provider filters stacks unless they are disabled.
   */
  method NewCore(factory: W.Result<S.Client, Error>, opts: seq<Option>) returns (r: W.Result<C.Core, Error>)
    ensures r.Failure? <==> Constructed(factory, opts).Failure?
    ensures r.Failure? ==> r.error == Constructed(factory, opts).error
    ensures r.Success? ==>
      && fresh(r.value)
      && SettingsOf(r.value) == Constructed(factory, opts).value
      && r.value.client == factory.value
      && r.value.fields == map[] && r.value.sentryScope.None?
      && r.value.Valid()
  {
    if factory.Failure? {
      return W.Failure(factory.error);
    }
    var client := factory.value;
    var bcs := new Breadcrumbs();
    var evs := new Events();
    var core := new C.Core(client, defaults.flushTimeout, defaults.level, bcs, evs);
    assert SettingsOf(core) == Initial;

    for i := 0 to |opts|
      invariant fresh(core) && fresh(bcs) && fresh(evs)
      invariant core.events == evs && core.breadcrumbs == bcs
      invariant core.client == client && core.fields == map[] && core.sentryScope.None?
      invariant ApplyAll(Initial, opts) == ApplyAll(SettingsOf(core), opts[i..])
    {
      assert opts[i..][1..] == opts[i + 1..];
      var err := Apply(opts[i], core);
      if err.Fail? {
        return W.Failure(err.error);
      }
    }
    assert opts[|opts|..] == [];

    if core.breadcrumbs.enabled && core.breadcrumbs.level > core.level {
      return W.Failure(ErrBreadcrumbLevel);
    }
    core.enabler := W.Some(LevelEnabler(core.level, core.breadcrumbs.enabled, core.breadcrumbs.level));

    if !core.events.disabledStacktrace {
      core.events.exceptionProvider := NewExceptionProvider(core.events.stackTraceFrameFilter);
    }
    return W.Success(core);
  }

  /** Applying two runs of options is applying the first and, if it succeeds, the second. */
  lemma {:induction false} ApplyAllAppend(s: Settings, a: seq<Option>, b: seq<Option>)
    ensures ApplyAll(s, a + b) == match ApplyAll(s, a)
                                 case Failure(e) => W.Failure(e)
                                 case Success(t) => ApplyAll(t, b)
    decreases |a|
  {
    if a == [] {
      assert a + b == b;
    } else {
      assert (a + b)[0] == a[0];
      assert (a + b)[1..] == a[1..] + b;
      match ApplyOption(s, a[0])
      case Failure(e) =>
      case Success(next) => ApplyAllAppend(next, a[1..], b);
    }
  }

  /** The first option that fails decides the outcome: its error is returned and no later option counts. */
  lemma FirstErrorAborts(s: Settings, opts: seq<Option>, i: nat)
    requires i < |opts|
    requires ApplyAll(s, opts[..i]).Success?
    requires ApplyOption(ApplyAll(s, opts[..i]).value, opts[i]).Failure?
    ensures ApplyAll(s, opts) == W.Failure(ApplyOption(ApplyAll(s, opts[..i]).value, opts[i]).error)
  {
    assert opts == opts[..i] + opts[i..];
    ApplyAllAppend(s, opts[..i], opts[i..]);
  }

  /** No option installs the filtering provider: a nop provider stays nop through any options. */
  lemma {:induction false} ApplyAllKeepsNopProvider(s: Settings, opts: seq<Option>)
    requires s.exceptionProvider == NopExceptionProvider
    requires ApplyAll(s, opts).Success?
    ensures ApplyAll(s, opts).value.exceptionProvider == NopExceptionProvider
    decreases |opts|
  {
    if opts != [] {
      ApplyAllKeepsNopProvider(ApplyOption(s, opts[0]).value, opts[1..]);
    }
  }

  /**
   * A constructed core has the filtering provider, with the configured frame filter,
   * exactly when stacktraces are not disabled, and the nop provider otherwise.
   */
  lemma ConstructedProvider(factory: W.Result<S.Client, Error>, opts: seq<Option>)
    requires Constructed(factory, opts).Success?
    ensures var s := Constructed(factory, opts).value;
      && (!s.disabledStacktrace ==> s.exceptionProvider == DefaultExceptionProvider(s.stackTraceFrameFilter))
      && (s.disabledStacktrace ==> s.exceptionProvider == NopExceptionProvider)
  {
    ApplyAllKeepsNopProvider(Initial, opts);
  }

  /**
   * Once the options apply, construction fails exactly when breadcrumbs are enabled at a
   * level above the event level; equal levels are accepted.
   */
  lemma ConstructedThresholds(client: S.Client, opts: seq<Option>)
    requires ApplyAll(Initial, opts).Success?
    ensures var s := ApplyAll(Initial, opts).value;
      && (Constructed(W.Success(client), opts).Failure? <==> s.breadcrumbsEnabled && s.breadcrumbsLevel > s.level)
      && (Constructed(W.Success(client), opts).Failure? ==> Constructed(W.Success(client), opts).error == ErrBreadcrumbLevel)
  {
  }

  /** Breadcrumbs from Fatal with events from Error are rejected; breadcrumbs from Error are accepted. */
  lemma BreadcrumbLevelExamples(client: S.Client)
    ensures Constructed(W.Success(client), [WithBreadcrumbs(Z.FatalLevel)]) == W.Failure(ErrBreadcrumbLevel)
    ensures Constructed(W.Success(client), [WithBreadcrumbs(Z.ErrorLevel)]).Success?
  {
    var loud, equal := [WithBreadcrumbs(Z.FatalLevel)], [WithBreadcrumbs(Z.ErrorLevel)];
    assert loud[1..] == [] && equal[1..] == [];
    assert ApplyAll(Initial, loud) == W.Success(Initial.(breadcrumbsEnabled := true, breadcrumbsLevel := Z.FatalLevel));
    assert ApplyAll(Initial, equal) == W.Success(Initial.(breadcrumbsEnabled := true, breadcrumbsLevel := Z.ErrorLevel));
  }

  /** A frame filter is accepted before `DisableStacktrace` and rejected after it. */
  lemma FrameFilterOrder(s: Settings, ff: FrameFilter)
    requires !s.disabledStacktrace
    ensures ApplyAll(s, [UseStacktraceFrameFilter(ff), DisableStacktrace]).Success?
    ensures ApplyAll(s, [DisableStacktrace, UseStacktraceFrameFilter(ff)]) == W.Failure(ErrStacktraceDisabled)
  {
    var before, after := [UseStacktraceFrameFilter(ff), DisableStacktrace], [DisableStacktrace, UseStacktraceFrameFilter(ff)];
    assert before[1..] == [DisableStacktrace] && before[1..][1..] == [];
    assert after[1..] == [UseStacktraceFrameFilter(ff)];
    var filtered := s.(stackTraceFrameFilter := ff);
    assert ApplyAll(s, before) == ApplyAll(filtered, [DisableStacktrace]);
    var disabled := s.(disabledStacktrace := true, exceptionProvider := NopExceptionProvider);
    assert ApplyAll(s, after) == ApplyAll(disabled, [UseStacktraceFrameFilter(ff)]);
  }

  /** A later `ConvertFieldsToTags` replaces the registered keys of an earlier one rather than adding to them. */
  lemma ConvertFieldsToTagsReplaces(s: Settings, first: seq<string>, second: seq<string>)
    ensures ApplyAll(s, [ConvertFieldsToTags(first), ConvertFieldsToTags(second)]).Success?
    ensures ApplyAll(s, [ConvertFieldsToTags(first), ConvertFieldsToTags(second)]).value.registeredTagKeys
         == set k | k in second
  {
    var opts := [ConvertFieldsToTags(first), ConvertFieldsToTags(second)];
    assert opts[1..] == [ConvertFieldsToTags(second)] && opts[1..][1..] == [];
    var once := s.(registeredTagKeys := set k | k in first);
    assert ApplyOption(s, opts[0]) == W.Success(once);
    assert ApplyAll(s, opts) == ApplyAll(once, opts[1..]);
    var twice := once.(registeredTagKeys := set k | k in second);
    assert ApplyOption(once, opts[1]) == W.Success(twice);
    assert ApplyAll(once, opts[1..]) == ApplyAll(twice, []);
  }

  /** Applying a two-option run is applying the first option and then the second. */
  lemma ApplyPair(s: Settings, a: Option, b: Option)
    ensures ApplyAll(s, [a, b]) == match ApplyOption(s, a)
                                   case Failure(e) => W.Failure(e)
                                   case Success(t) => ApplyOption(t, b)
  {
    assert [a, b][1..] == [b] && [b][1..] == [];
    match ApplyOption(s, a)
    case Failure(e) =>
    case Success(t) =>
      assert ApplyAll(s, [a, b]) == ApplyAll(t, [b]);
      match ApplyOption(t, b)
      case Failure(e) =>
      case Success(u) =>
        assert ApplyAll(t, [b]) == ApplyAll(u, []);
  }

  /** `UseHub(nil)` after `UseHub(h)` leaves the core without a configured hub again. */
  lemma UseNilHubResets(s: Settings, h: S.Hub)
    ensures ApplyAll(s, [UseHub(W.Some(h)), UseHub(W.None)]) == W.Success(s.(sentryHub := W.None))
  {
    ApplyPair(s, UseHub(W.Some(h)), UseHub(W.None));
    var hubbed := s.(sentryHub := W.Some(h));
    assert ApplyOption(s, UseHub(W.Some(h))) == W.Success(hubbed);
    assert ApplyOption(hubbed, UseHub(W.None)) == W.Success(hubbed.(sentryHub := W.None));
  }
}
