/**
 * The routing core: a zap core that derives child cores carrying accumulated fields,
 * resolves the Sentry scope and hub a call attaches to, and turns each written entry
 * into a breadcrumb, an event and a flush, each under its own condition.
 */
module Core {
  import opened Wrappers
  import opened Zapcore
  import opened Levels
  import opened Exceptions
  import opened Breadcrumbs
  import opened Events
  import Maps
  import S = Sentry

  /** The breadcrumb limit passed to every `AddBreadcrumb`. */
  const MaxLimit: int := 1000
  const ZapSentryScopeKey: string := "_zapsentry_scope_"
  const ZapSentryHubKey: string := "_zapsentry_hub_"

  /** A call the core makes on sentry-go, recorded instead of performed. */
  datatype Effect =
    | AddBreadcrumb(dest: S.Scope, breadcrumb: Breadcrumb, limit: int)
    | CaptureEvent(hub: S.Hub, event: Event)
    | Flush(client: S.Client, timeout: int)

  predicate IsAddBreadcrumb(e: Effect) { e.AddBreadcrumb? }
  predicate IsCaptureEvent(e: Effect) { e.CaptureEvent? }
  predicate IsFlush(e: Effect) { e.Flush? }

  /** The effects satisfying `p`, in their order. */
  function Select(effects: seq<Effect>, p: Effect -> bool): seq<Effect>
  {
    if effects == [] then []
    else (if p(effects[0]) then [effects[0]] else []) + Select(effects[1..], p)
  }

  lemma {:induction false} SelectAppend(a: seq<Effect>, b: seq<Effect>, p: Effect -> bool)
    ensures Select(a + b, p) == Select(a, p) + Select(b, p)
  {
    if a == [] {
      assert a + b == b;
    } else {
      var head := if p(a[0]) then [a[0]] else [];
      SelectAppend(a[1..], b, p);
      assert (a + b)[0] == a[0];
      assert (a + b)[1..] == a[1..] + b;
      calc {
        Select(a + b, p);
        head + Select(a[1..] + b, p);
        head + (Select(a[1..], p) + Select(b, p));
        (head + Select(a[1..], p)) + Select(b, p);
        Select(a, p) + Select(b, p);
      }
    }
  }

  /** Selecting by a property every effect has keeps them all. */
  lemma {:induction false} SelectAll(effects: seq<Effect>, p: Effect -> bool)
    requires forall i :: 0 <= i < |effects| ==> p(effects[i])
    ensures Select(effects, p) == effects
  {
    if effects != [] {
      SelectAll(effects[1..], p);
    }
  }

  /** Selecting by a property no effect has keeps none. */
  lemma {:induction false} SelectNone(effects: seq<Effect>, p: Effect -> bool)
    requires forall i :: 0 <= i < |effects| ==> !p(effects[i])
    ensures Select(effects, p) == []
  {
    if effects != [] {
      SelectNone(effects[1..], p);
    }
  }

  /** zap's `CheckedEntry`, reduced to its entry and the cores that will write it. */
  datatype CheckedEntry = CheckedEntry(entry: Entry, cores: seq<Core>)

  /** `CheckedEntry.AddCore`: a nil checked entry is first made for `ent`. */
  function AddCore(ce: Option<CheckedEntry>, ent: Entry, c: Core): (r: CheckedEntry)
    ensures ce.None? ==> r == CheckedEntry(ent, [c])
    ensures ce.Some? ==> r == ce.value.(cores := ce.value.cores + [c])
  {
    match ce
    case None => CheckedEntry(ent, [c])
    case Some(e) => e.(cores := e.cores + [c])
  }

  /** `getScope`: the scope a scope marker carries; any other field carries none. */
  function GetScope(field: Field): (r: Option<S.Scope>)
    ensures r.Some? <==> field.ftype == SkipType && field.key == ZapSentryScopeKey && field.iface.ScopePtr?
    ensures r.Some? ==> r.value == field.iface.scope
  {
    if field.ftype == SkipType && field.key == ZapSentryScopeKey then
      match field.iface
      case ScopePtr(scope) => Some(scope)
      case _ => None
    else None
  }

  /** `getHub`: the hub a hub marker carries; any other field carries none, and no field carries both. */
  function GetHub(field: Field): (r: Option<S.Hub>)
    ensures r.Some? <==> field.ftype == SkipType && field.key == ZapSentryHubKey && field.iface.HubPtr?
    ensures r.Some? ==> r.value == field.iface.hub && GetScope(field).None?
  {
    if field.ftype == SkipType && field.key == ZapSentryHubKey then
      match field.iface
      case HubPtr(hub) => Some(hub)
      case _ => None
    else None
  }

  /** The scope of the first scope marker in `fs`, if any. */
  function FirstScope(fs: seq<Field>): (r: Option<S.Scope>)
    ensures r.None? <==> forall i :: 0 <= i < |fs| ==> GetScope(fs[i]).None?
    ensures r.Some? ==> exists i :: 0 <= i < |fs| && GetScope(fs[i]) == r && forall j :: 0 <= j < i ==> GetScope(fs[j]).None?
  {
    if fs == [] then None
    else if GetScope(fs[0]).Some? then GetScope(fs[0])
    else
      var r := FirstScope(fs[1..]);
      assert forall i :: 0 < i < |fs| ==> fs[i] == fs[1..][i - 1];
      r
  }

  /** The hub of the first hub marker in `fs`, if any. */
  function FirstHub(fs: seq<Field>): (r: Option<S.Hub>)
    ensures r.None? <==> forall i :: 0 <= i < |fs| ==> GetHub(fs[i]).None?
    ensures r.Some? ==> exists i :: 0 <= i < |fs| && GetHub(fs[i]) == r && forall j :: 0 <= j < i ==> GetHub(fs[j]).None?
  {
    if fs == [] then None
    else if GetHub(fs[0]).Some? then GetHub(fs[0])
    else
      var r := FirstHub(fs[1..]);
      assert forall i :: 0 < i < |fs| ==> fs[i] == fs[1..][i - 1];
      r
  }

  /**
   * `WrapScope`: a marker that `GetScope` reads back and that adds nothing to the encoded
   * fields. A nil scope (`None`) gives a marker that carries no scope at all.
   */
  function WrapScope(scope: Option<S.Scope>): (f: Field)
    ensures GetScope(f) == scope && GetHub(f) == None
    ensures Encode(f) == map[]
  {
    Field(ZapSentryScopeKey, SkipType, 0, "", match scope case Some(s) => ScopePtr(s) case None => NilPayload)
  }

  /** `NewScope`: a marker for `created`, the scope `sentry.NewScope()` returned. */
  function NewScope(created: S.Scope): (f: Field)
    ensures GetScope(f) == Some(created) && GetHub(f) == None
    ensures Encode(f) == map[]
  {
    WrapScope(Some(created))
  }

  /**
   * `WrapHub`: a marker that `GetHub` reads back and that adds nothing to the encoded
   * fields. A nil hub (`None`) gives a marker that carries no hub at all.
   */
  function WrapHub(hub: Option<S.Hub>): (f: Field)
    ensures GetHub(f) == hub && GetScope(f) == None
    ensures Encode(f) == map[]
  {
    Field(ZapSentryHubKey, SkipType, 0, "", match hub case Some(h) => HubPtr(h) case None => NilPayload)
  }

  /** Markers around a nil scope or hub are passed over when looking for the first one. */
  lemma NilMarkersSkipped(fs: seq<Field>)
    ensures FirstScope([WrapScope(None)] + fs) == FirstScope(fs)
    ensures FirstHub([WrapHub(None)] + fs) == FirstHub(fs)
  {
    assert ([WrapScope(None)] + fs)[1..] == fs;
    assert ([WrapHub(None)] + fs)[1..] == fs;
  }

  /** `core.hub()` for a core whose hub is `h`: that hub, or a clone of the current hub. */
  function HubOrCurrent(h: Option<S.Hub>): S.Hub
  {
    match h
    case Some(hub) => hub
    case None => S.CurrentHubClone
  }

  /** `core`. */
  class Core {
    /** The embedded `zapcore.LevelEnabler`; nil until `NewCore` sets it. */
    var enabler: Option<LevelEnabler>
    var level: Level
    var flushTimeout: int
    var events: Events
    var breadcrumbs: Breadcrumbs
    var client: S.Client
    var sentryHub: Option<S.Hub>
    var sentryScope: Option<S.Scope>
    var fields: map<string, Value>

    /** A core whose gate is the one `NewCore` installs for its level and breadcrumb settings. */
    ghost predicate Valid()
      reads this, breadcrumbs
    {
      enabler == Some(LevelEnabler(level, breadcrumbs.enabled, breadcrumbs.level))
    }

    /** The struct literal `NewCore` starts from: no fields, hub, scope or gate yet. */
    constructor (client: S.Client, flushTimeout: int, level: Level, breadcrumbs: Breadcrumbs, events: Events)
      ensures this.client == client && this.flushTimeout == flushTimeout && this.level == level
      ensures this.breadcrumbs == breadcrumbs && this.events == events
      ensures fields == map[] && sentryHub.None? && sentryScope.None? && enabler.None?
    {
      this.client := client;
      this.flushTimeout := flushTimeout;
      this.level := level;
      this.fields := map[];
      this.breadcrumbs := breadcrumbs;
      this.events := events;
      this.enabler := None;
      this.sentryHub := None;
      this.sentryScope := None;
    }

    /** The struct literal `with` returns. */
    constructor Derived(enabler: Option<LevelEnabler>, breadcrumbs: Breadcrumbs, events: Events, client: S.Client,
                        sentryScope: Option<S.Scope>, sentryHub: Option<S.Hub>, level: Level, flushTimeout: int,
                        fields: map<string, Value>)
      ensures this.enabler == enabler && this.breadcrumbs == breadcrumbs && this.events == events
      ensures this.client == client && this.sentryScope == sentryScope && this.sentryHub == sentryHub
      ensures this.level == level && this.flushTimeout == flushTimeout && this.fields == fields
    {
      this.enabler := enabler;
      this.breadcrumbs := breadcrumbs;
      this.events := events;
      this.client := client;
      this.sentryScope := sentryScope;
      this.sentryHub := sentryHub;
      this.level := level;
      this.flushTimeout := flushTimeout;
      this.fields := fields;
    }

    /** `hub()`: the core's own hub, or else a clone of the current hub. */
    function Hub(): (h: S.Hub)
      reads this
      ensures sentryHub.Some? ==> h == sentryHub.value
      ensures sentryHub.None? ==> h == S.CurrentHubClone
    {
      HubOrCurrent(sentryHub)
    }

    /** `scope()`: the core's own scope, or else the top scope of its hub. */
    function Scope(): (s: S.Scope)
      reads this
      ensures sentryScope.Some? ==> s == sentryScope.value
      ensures sentryScope.None? ==> s == S.TopScope(Hub())
    {
      match sentryScope
      case Some(scope) => scope
      case None => S.TopScope(Hub())
    }

    /** `Check`: the core adds itself to the checked entry exactly when its gate admits the level. */
    function Check(ent: Entry, ce: Option<CheckedEntry>): (r: Option<CheckedEntry>)
      reads this
      requires enabler.Some?
      ensures !enabler.value.Enabled(ent.level) ==> r == ce
      ensures enabler.value.Enabled(ent.level) ==> r.Some? && r.value.cores == (if ce.Some? then ce.value.cores else []) + [this]
    {
      if enabler.value.Enabled(ent.level) then Some(AddCore(ce, ent, this)) else ce
    }

    /** `findScope`: the first scope marker's scope, or else `scope()`. */
    method FindScope(fs: seq<Field>) returns (scope: S.Scope)
      ensures FirstScope(fs).Some? ==> scope == FirstScope(fs).value
      ensures FirstScope(fs).None? ==> scope == Scope()
    {
      for i := 0 to |fs|
        invariant forall j :: 0 <= j < i ==> GetScope(fs[j]).None?
      {
        var s := GetScope(fs[i]);
        if s.Some? {
          return s.value;
        }
      }
      return Scope();
    }

    /** `findHub`: the first hub marker's hub and true, or else `hub()` and false. */
    method FindHub(fs: seq<Field>) returns (hub: S.Hub, found: bool)
      ensures found <==> FirstHub(fs).Some?
      ensures found ==> hub == FirstHub(fs).value
      ensures !found ==> hub == Hub()
    {
      for i := 0 to |fs|
        invariant forall j :: 0 <= j < i ==> GetHub(fs[j]).None?
      {
        var h := GetHub(fs[i]);
        if h.Some? {
          return h.value, true;
        }
      }
      return Hub(), false;
    }

    /** The fields of a core derived with `fs`: the encoded `fs` written over this core's fields. */
    function ChildFields(fs: seq<Field>): (m: map<string, Value>)
      reads this
      ensures m.Keys == fields.Keys + EncodeFields(fs).Keys
      ensures forall k :: k in EncodeFields(fs) ==> m[k] == EncodeFields(fs)[k]
      ensures forall k :: k in fields && k !in EncodeFields(fs) ==> m[k] == fields[k]
    {
      fields + EncodeFields(fs)
    }

    /** The scope of a core derived with `fs`. */
    function ChildScope(fs: seq<Field>): S.Scope
      reads this
    {
      match FirstScope(fs)
      case Some(scope) => scope
      case None => Scope()
    }

    /** The hub of a core derived with `fs`: a hub marker's, or exactly this core's own, possibly none. */
    function ChildHub(fs: seq<Field>): Option<S.Hub>
      reads this
    {
      match FirstHub(fs)
      case Some(hub) => Some(hub)
      case None => sentryHub
    }

    /**
     * `with` (and `With`): a fresh core whose fields are a copy of this core's with the
     * encoded `fs` written over them, whose scope is the first scope marker's, else this
     * core's scope, and whose hub is the first hub marker's, else this core's own hub
     * (the hub `sentry.NewHub` builds is dropped). Everything else is shared or copied.
     */
    method With(fs: seq<Field>) returns (child: Core)
      ensures fresh(child)
      ensures child.fields == ChildFields(fs)
      ensures child.sentryScope == Some(ChildScope(fs))
      ensures child.sentryHub == ChildHub(fs)
      ensures child.enabler == enabler && child.level == level && child.flushTimeout == flushTimeout
      ensures child.events == events && child.breadcrumbs == breadcrumbs && child.client == client
    {
      var m := Maps.Overlay(map[], fields);

      var enc: map<string, Value> := map[];
      for i := 0 to |fs|
        invariant enc == EncodeFields(fs[..i])
      {
        assert fs[..i + 1][..i] == fs[..i];
        enc := enc + Encode(fs[i]);
      }
      assert fs[..|fs|] == fs;

      m := Maps.Overlay(m, enc);
      assert m == ChildFields(fs);

      var scope := FindScope(fs);
      var hub, found := FindHub(fs);
      var childHub := Some(hub);
      if !found {
        if sentryHub.None? {
          childHub := Some(S.NewHub(client, scope));
        }
        childHub := sentryHub;
      }

      child := new Core.Derived(enabler, breadcrumbs, events, client, Some(scope), childHub, level, flushTimeout, m);
    }

    /** The breadcrumb `Write` adds for `ent` and `fs`, if any. */
    function BreadcrumbEffects(ent: Entry, fs: seq<Field>): seq<Effect>
      reads this, breadcrumbs
    {
      if breadcrumbs.Enabled(ent.level) && sentryScope.Some?
      then [AddBreadcrumb(S.TopScope(HubOrCurrent(ChildHub(fs))), breadcrumbs.New(ent, ChildFields(fs)), MaxLimit)]
      else []
    }

    /** The event `Write` captures for `ent` and `fs`, if any. */
    function CaptureEffects(ent: Entry, fs: seq<Field>, trace: Option<seq<S.Frame>>): seq<Effect>
      reads this, events
    {
      if LevelEnabled(level, ent.level)
      then [CaptureEvent(HubOrCurrent(ChildHub(fs)), events.EventFor(ent, fs, ChildFields(fs), trace))]
      else []
    }

    /** The flush `Write` issues for `ent`, if any. */
    function FlushEffects(ent: Entry): seq<Effect>
      reads this
    {
      if ent.level > ErrorLevel then [Flush(client, flushTimeout)] else []
    }

    /** What `Write` does for `ent` and `fs`, in order; `trace` is the stack at the time of the call. */
    function WriteEffects(ent: Entry, fs: seq<Field>, trace: Option<seq<S.Frame>>): seq<Effect>
      reads this, events, breadcrumbs
    {
      BreadcrumbEffects(ent, fs) + CaptureEffects(ent, fs, trace) + FlushEffects(ent)
    }

    /**
     * `Write`: derives a child with `fs`; adds a breadcrumb to the child hub's scope when the
     * breadcrumb gate admits the level and this core has a scope of its own; captures an
     * event on the child hub when the level reaches the event level; flushes above Error.
     * It never fails.
     */
    method Write(ent: Entry, fs: seq<Field>, trace: Option<seq<S.Frame>>) returns (effects: seq<Effect>, err: Outcome<string>)
      ensures effects == WriteEffects(ent, fs, trace)
      ensures err == Pass
    {
      var clone := With(fs);
      var added, captured, flushed := [], [], [];

      // Breadcrumbs only for a core with a scope of its own, never into the global scope.
      if breadcrumbs.Enabled(ent.level) && sentryScope.Some? {
        var breadcrumb := breadcrumbs.New(ent, clone.fields);
        added := [AddBreadcrumb(S.TopScope(clone.Hub()), breadcrumb, MaxLimit)];
      }
      assert added == BreadcrumbEffects(ent, fs);

      if LevelEnabled(level, ent.level) {
        var event := events.New(ent, fs, clone.fields, trace);
        captured := [CaptureEvent(clone.Hub(), event)];
      }
      assert captured == CaptureEffects(ent, fs, trace);

      // An entry above Error may end the process: flush what is buffered.
      if ent.level > ErrorLevel {
        var syncErr;
        flushed, syncErr := Sync();
      }
      return added + captured + flushed, Pass;
    }

    /** `Sync`: one flush of this core's client with its timeout; it never fails. */
    method Sync() returns (effects: seq<Effect>, err: Outcome<string>)
      ensures effects == [Flush(client, flushTimeout)] && err == Pass
    {
      return [Flush(client, flushTimeout)], Pass;
    }
  }

  /** Breadcrumbs, then captures, then flushes: such a run is its three selections laid end to end. */
  lemma SplitByKind(bc: seq<Effect>, ev: seq<Effect>, fl: seq<Effect>)
    requires forall i :: 0 <= i < |bc| ==> bc[i].AddBreadcrumb?
    requires forall i :: 0 <= i < |ev| ==> ev[i].CaptureEvent?
    requires forall i :: 0 <= i < |fl| ==> fl[i].Flush?
    ensures var effects := bc + ev + fl;
      effects == Select(effects, IsAddBreadcrumb) + Select(effects, IsCaptureEvent) + Select(effects, IsFlush)
  {
    var effects := bc + ev + fl;
    assert Select(effects, IsAddBreadcrumb) == bc by {
      SelectAppend(bc + ev, fl, IsAddBreadcrumb);
      SelectAppend(bc, ev, IsAddBreadcrumb);
      SelectAll(bc, IsAddBreadcrumb);
      SelectNone(ev, IsAddBreadcrumb);
      SelectNone(fl, IsAddBreadcrumb);
    }
    assert Select(effects, IsCaptureEvent) == ev by {
      SelectAppend(bc + ev, fl, IsCaptureEvent);
      SelectAppend(bc, ev, IsCaptureEvent);
      SelectNone(bc, IsCaptureEvent);
      SelectAll(ev, IsCaptureEvent);
      SelectNone(fl, IsCaptureEvent);
    }
    assert Select(effects, IsFlush) == fl by {
      SelectAppend(bc + ev, fl, IsFlush);
      SelectAppend(bc, ev, IsFlush);
      SelectNone(bc, IsFlush);
      SelectNone(ev, IsFlush);
      SelectAll(fl, IsFlush);
    }
  }

  /** `Write` makes no calls other than its breadcrumb, its capture and its flush, in that order. */
  lemma WriteOrder(c: Core, ent: Entry, fs: seq<Field>, trace: Option<seq<S.Frame>>)
    ensures var effects := c.WriteEffects(ent, fs, trace);
      effects == Select(effects, IsAddBreadcrumb) + Select(effects, IsCaptureEvent) + Select(effects, IsFlush)
  {
    SplitByKind(c.BreadcrumbEffects(ent, fs), c.CaptureEffects(ent, fs, trace), c.FlushEffects(ent));
  }

  /** Selecting from `Write`'s effects selects from its breadcrumb, capture and flush parts in turn. */
  lemma SelectWrite(c: Core, ent: Entry, fs: seq<Field>, trace: Option<seq<S.Frame>>, p: Effect -> bool)
    ensures Select(c.WriteEffects(ent, fs, trace), p)
         == Select(c.BreadcrumbEffects(ent, fs), p) + Select(c.CaptureEffects(ent, fs, trace), p) + Select(c.FlushEffects(ent), p)
  {
    var bc, ev, fl := c.BreadcrumbEffects(ent, fs), c.CaptureEffects(ent, fs, trace), c.FlushEffects(ent);
    SelectAppend(bc + ev, fl, p);
    SelectAppend(bc, ev, p);
  }

  /**
   * `Write` adds exactly one breadcrumb when the breadcrumb gate admits the level and the
   * writing core has a scope of its own, and none otherwise; it goes to the top scope of
   * the child's hub with the limit 1000.
   */
  lemma WriteAddsBreadcrumb(c: Core, ent: Entry, fs: seq<Field>, trace: Option<seq<S.Frame>>)
    ensures var added := Select(c.WriteEffects(ent, fs, trace), IsAddBreadcrumb);
      && |added| == (if c.breadcrumbs.Enabled(ent.level) && c.sentryScope.Some? then 1 else 0)
      && forall e :: e in added ==>
           && e.dest == S.TopScope(HubOrCurrent(c.ChildHub(fs)))
           && e.breadcrumb == c.breadcrumbs.New(ent, c.ChildFields(fs))
           && e.limit == MaxLimit
  {
    SelectWrite(c, ent, fs, trace, IsAddBreadcrumb);
  }

  /** A core with no scope of its own, such as the one `NewCore` returns, never adds a breadcrumb. */
  lemma NoScopeNoBreadcrumb(c: Core, ent: Entry, fs: seq<Field>, trace: Option<seq<S.Frame>>)
    requires c.sentryScope.None?
    ensures Select(c.WriteEffects(ent, fs, trace), IsAddBreadcrumb) == []
  {
    SelectWrite(c, ent, fs, trace, IsAddBreadcrumb);
  }

  /** `Write` captures exactly one event, on the child's hub, when the level reaches the event level, and none otherwise. */
  lemma WriteCapturesEvent(c: Core, ent: Entry, fs: seq<Field>, trace: Option<seq<S.Frame>>)
    ensures var captured := Select(c.WriteEffects(ent, fs, trace), IsCaptureEvent);
      && |captured| == (if ent.level >= c.level then 1 else 0)
      && forall e :: e in captured ==>
           e == CaptureEvent(HubOrCurrent(c.ChildHub(fs)), c.events.EventFor(ent, fs, c.ChildFields(fs), trace))
  {
    SelectWrite(c, ent, fs, trace, IsCaptureEvent);
  }

  /** `Write` flushes the client once with the configured timeout exactly when the level is above Error. */
  lemma WriteFlushes(c: Core, ent: Entry, fs: seq<Field>, trace: Option<seq<S.Frame>>)
    ensures Select(c.WriteEffects(ent, fs, trace), IsFlush)
         == if ent.level > ErrorLevel then [Flush(c.client, c.flushTimeout)] else []
  {
    SelectWrite(c, ent, fs, trace, IsFlush);
  }

  /**
   * Without a hub marker, a scope marker does not redirect the breadcrumb: it still goes to
   * the top scope of the writing core's own hub (or of a clone of the current hub), because
   * the hub built for the marker's scope is dropped.
   */
  lemma ScopeMarkerKeepsBreadcrumbHub(c: Core, ent: Entry, fs: seq<Field>, trace: Option<seq<S.Frame>>)
    requires FirstHub(fs).None?
    ensures forall e :: e in Select(c.WriteEffects(ent, fs, trace), IsAddBreadcrumb) ==> e.AddBreadcrumb? && e.dest == S.TopScope(c.Hub())
  {
    SelectWrite(c, ent, fs, trace, IsAddBreadcrumb);
  }

  /** An entry the core's gate turns away in `Check` would get neither a breadcrumb nor an event from `Write`. */
  lemma CheckGuardsWrite(c: Core, ent: Entry, fs: seq<Field>, trace: Option<seq<S.Frame>>)
    requires c.Valid()
    requires c.Check(ent, None).None?
    ensures Select(c.WriteEffects(ent, fs, trace), IsAddBreadcrumb) == []
    ensures Select(c.WriteEffects(ent, fs, trace), IsCaptureEvent) == []
  {
    SelectWrite(c, ent, fs, trace, IsAddBreadcrumb);
    SelectWrite(c, ent, fs, trace, IsCaptureEvent);
  }
}
