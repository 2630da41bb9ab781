# zapsentry core, modelled in Dafny

zapsentry is a `zapcore.Core` for the zap logger that sends log entries to Sentry. A core is
built by `NewCore` from a client factory and a list of options. Its `Check` admits an entry
when the entry's level reaches either the event level or, with breadcrumbs on, the
breadcrumb level. Its `Write` does three things:

- when breadcrumbs are on, the entry's level reaches the breadcrumb level and the core has a
  scope of its own, it adds a breadcrumb to the top scope of the child core's hub;
- when the entry's level reaches the event level, it captures an event on the child core's hub;
- it flushes the client for levels above Error.

`With` derives child cores. A child carries the encoded fields, plus the hub and scope that
marker fields name. An event carries:

- the entry's message, time and mapped Sentry level;
- the accumulated fields as extra data;
- tags drawn from registered field keys, with the statically configured tags winning;
- optionally one exception, whose stack is the configured frame filter applied to the
  current stack; the default filter cuts it at the first adapter or zap frame outside a
  `_test` module.

The model is split into modules that follow the Go files:

| module | file | models |
|---|---|---|
| `Wrappers` | `wrappers.dfy` | `Option`, `Result` and `Outcome` values. |
| `Sentry` | `sentry.dfy` | Opaque client, hub and scope handles; Sentry levels, frames, stacks and exceptions. |
| `Zapcore` | `zapcore.dfy` | zap levels, entries and fields, and the map-object encoding of fields. |
| `Maps` | `maps.dfy` | The copy loop that overlays one Go map on another. |
| `Levels` | `level.dfy` | `level.go`: the level mapping and the combined level gate. |
| `Exceptions` | `exception.dfy` | `exception.go`: frame filtering and the exception providers. |
| `Breadcrumbs` | `breadcrumb.dfy` | `breadcrumb.go`: the breadcrumb gate and breadcrumb construction. |
| `Defaults` | `defaults.dfy` | The `defaults` record of `config.go`. |
| `Events` | `event.dfy` | `event.go`: event construction and tag extraction. |
| `Core` | `core.dfy` | `core.go`: the core object, `With`, `Check`, `Write` and `Sync`. |
| `Config` | `config.dfy` | `config.go` options and `NewCore`. |

The Go core mutates objects in place, and the model keeps that form:

- `core`, `events` and `breadcrumbs` are Dafny classes.
- The options are one datatype, applied by a method that writes the fields.
- `NewCore`, `With`, `tagsFromFields` and `FilterFrames` keep their loops, proved against
  specification functions on values.

Calls into sentry-go become effect records, returned in order: `AddBreadcrumb`,
`CaptureEvent` and `Flush`. The stack at the time of a `Write` is a parameter (`trace`).

## Model

| member | source | states |
|---|---|---|
| `Levels.ZapToSentryLevel` | level.go:19-37 | Debug, Info, Warn and Error map to their Sentry namesakes (each as an if-and-only-if). Every other level, including the panic levels and unmapped values, maps to Fatal. |
| `Levels.ZapToSentryLevelMonotone` | level.go:19-27 | The mapping preserves the order of levels from Debug upwards. |
| `Levels.LevelEnabler.Enabled` | level.go:14-16 | The combined gate admits a level exactly when it reaches the smaller of the event threshold and, if breadcrumbs are on, the breadcrumb threshold. |
| `Levels.EnablerThreshold` | level.go:14-16 | The combined gate admits a level exactly when it reaches the smaller of the event threshold and, if breadcrumbs are on, the breadcrumb threshold. |
| `Levels.EnablerMonotone` | level.go:14-16 | A level the combined gate admits, it admits at every higher level too. |
| `Levels.EnablerWithoutBreadcrumbs` | level.go:14-16 | With breadcrumbs off, the combined gate is the event threshold alone. |
| `Exceptions.Filtered` | exception.go:81-98 | The filtered stack is a prefix of the raw stack. It holds no adapter or zap frame (test-module frames excepted). When shorter, it stops exactly at the first such frame. |
| `Exceptions.FilterFrames` | exception.go:81-98 | The loop with its early exit computes `Filtered`: a prefix free of internal frames, cut at the first internal one. |
| `Exceptions.FilteredIdempotent` | exception.go:81-98 | Filtering an already filtered stack changes nothing. |
| `Exceptions.FilteredUnique` | exception.go:81-98 | Any prefix free of internal frames that is followed by an internal frame, or is the whole stack, is the filtered stack. |
| `Exceptions.TestFramesKept` | exception.go:88-92 | A frame of a module ending in `_test` is never internal. |
| `Exceptions.TruncationExample` | exception.go:81-98 | [app, app, adapter, zap, app] filters to [app, app]. An adapter `_test` frame is kept. |
| `Exceptions.ExceptionProvider.Exception` | exception.go:24-62 | The nop provider reports no exception. The default provider reports none when no stack is available. Otherwise it reports one exception: the entry message is its type, the caller's trimmed path its value, and the stack passes through the provider's filter. |
| `Exceptions.NewExceptionProvider` | exception.go:43-45 | Builds the default provider around the given filter. |
| `Exceptions.DefaultProviderStack` | exception.go:51-62 | With the default filter, the one reported stack is the raw stack cut at its first internal frame. |
| `Breadcrumbs.ZapLevelToBreadcrumbType` | breadcrumb.go:55-64 | Info maps to "info" and Debug to "debug", each as an if-and-only-if. Every other level maps to "default". |
| `Breadcrumbs.Breadcrumbs.constructor` | breadcrumb.go:33-35 | A new gate is disabled and local-only, with level Info (zap's zero level). |
| `Breadcrumbs.Breadcrumbs.Enabled` | breadcrumb.go:39-41 | A disabled gate admits nothing. An enabled gate admits exactly the levels at or above its own. |
| `Breadcrumbs.DisabledAdmitsNothing` | breadcrumb.go:39-41 | A disabled breadcrumb gate admits no level. |
| `Breadcrumbs.EnabledAtOrAbove` | breadcrumb.go:39-41 | An enabled breadcrumb gate admits exactly the levels at or above its own. |
| `Breadcrumbs.Breadcrumbs.New` | breadcrumb.go:44-52 | The breadcrumb carries the entry's message and time, the given data, an empty category, the mapped Sentry level and the level's type. Its type is "info"/"debug" exactly when its level is Info/Debug. |
| `Events.Events.constructor` | event.go:28-38 | A new event builder has platform "Golang", an empty environment, no registered keys or tags, stacktraces on, the default frame filter and the nop provider. |
| `Events.Events.New` | event.go:40-62 | The event carries the entry's message, time and mapped level, the extra data, the builder's platform and environment, and the provider's exceptions. Its tag keys are the extracted keys plus the static ones. A static tag wins over an extracted one. |
| `Events.Events.TagsFromFields` | event.go:64-84 | The loop with its skips computes `TagsFrom` over all the fields. |
| `Events.Contribution` | event.go:64-84 | A field whose key is not registered contributes no tag. Nor does a field of any type but string, object-marshaler or reflect. A registered string field contributes exactly its key and value. |
| `Events.Events.TryAddObjectTag` | event.go:86-101 | Adds the tags of a payload that supplies them, later keys winning. Leaves the tags unchanged for a nil payload, a payload without tags, or a payload that yields no tags. |
| `Events.ObjectTags` | event.go:86-101 | A payload that is not a tag supplier, or that supplies no tags, yields none. |
| `Events.TagsFromAppend` | event.go:64-84 | Extracting tags from two runs of fields is extracting from each in turn, the later run winning on shared keys. |
| `Events.FieldWithoutTagsIgnored` | event.go:64-84 | A field that contributes nothing can be removed without changing the tags. |
| `Events.StringFieldTag` | event.go:74-77 | A registered string field's value is the tag for its key unless a later field sets that key. |
| `Events.TaggerFieldTags` | event.go:70-81 | A registered object or reflect field that supplies tags contributes each of them unless a later field sets that key. |
| `Events.TagsFromSound` | event.go:64-84 | Every extracted tag comes from some field. |
| `Events.MergeTags` | event.go:56-60 | The tags are the union of the extracted and static tags, the static value winning on a shared key. |
| `Zapcore.Encode` | core.go:173-177 | A skip field encodes to nothing. Any other field encodes to exactly its own key, keeping its payload. |
| `Zapcore.EncodedKeys` | core.go:173-177 | A key is in the encoding of a run of fields exactly when some non-skip field has it. |
| `Maps.Overlay` | core.go:167-182 | The copy loop yields the union of the two maps, the source winning on shared keys. |
| `Core.AddCore` | core.go:80-85 | Admitting an entry appends the core to the checked entry, creating one when there is none. |
| `Core.Core.Check` | core.go:80-85 | An entry the combined gate turns away leaves the checked entry as it was. An admitted entry gets this core appended. |
| `Core.GetScope` | core.go:133-140 | A field carries a scope exactly when it is a skip field with key `_zapsentry_scope_` and a scope payload, and then it carries that scope. |
| `Core.GetHub` | core.go:142-150 | A field carries a hub exactly when it is a skip field with key `_zapsentry_hub_` and a hub payload, and then it carries that hub and no scope. |
| `Core.FirstScope` | core.go:115-122 | The scope of the first field carrying a scope, if any; none exactly when no field carries one. |
| `Core.FirstHub` | core.go:124-131 | The hub of the first field carrying a hub, if any; none exactly when no field carries one. |
| `Core.Core.FindScope` | core.go:115-122 | The loop returns the first carried scope, or else `scope()`: the core's own scope, or else the top scope of `hub()`. |
| `Core.Core.FindHub` | core.go:124-131 | The loop reports a hub exactly when some field carries one, and returns the first; otherwise `hub()`: the configured hub, or else a clone of the current hub. |
| `Core.Core.Hub` | core.go:152-157 | The configured hub, or else a clone of the current hub. |
| `Core.Core.Scope` | core.go:159-164 | The core's own scope, or else the top scope of its hub. |
| `Core.WrapScope` | core.go:220-225 | The marker field round-trips to its scope, or to no scope for a nil one. It carries no hub and adds no encoded field. |
| `Core.NewScope` | core.go:206-211 | The marker field carries the new scope, carries no hub and adds no encoded field. |
| `Core.WrapHub` | core.go:213-218 | The marker field round-trips to its hub, or to no hub for a nil one. It carries no scope and adds no encoded field. |
| `Core.NilMarkersSkipped` | core.go:115-150 | A marker around a nil scope or hub is passed over in the search for the first marker. |
| `Core.Core.ChildFields` | core.go:166-182 | The child's fields are the parent's plus the encoded new fields, the new ones winning on a shared key. |
| `Core.Core.constructor` | core.go:46-53 | The root core has the given client, flush timeout, level, breadcrumbs and events, no fields, no configured hub or scope, and no gate yet. |
| `Core.Core.Derived` | core.go:193-203 | A derived core has exactly the gate, breadcrumbs, events, client, scope, hub, level, timeout and fields it is given. |
| `Core.Core.With` | core.go:166-204 | Builds a new child with those fields and with the carried scope, or else the parent's `scope()` (its own scope, or else the top scope of its `hub()`), so every derived core has a scope of its own. A carried hub is used if there is one. Without a hub marker the child keeps the parent's own hub, possibly none; the `NewHub` result is dropped. Level, timeout, builders and client are shared. |
| `Core.Core.Write` | core.go:87-108 | Returns exactly the breadcrumb, capture and flush effects of `WriteEffects`, and never fails. |
| `Core.Core.Sync` | core.go:110-113 | One flush of the core's client with its timeout; never fails. |
| `Core.WriteOrder` | core.go:87-108 | `Write`'s calls are its breadcrumbs, then its captures, then its flushes. |
| `Core.WriteAddsBreadcrumb` | core.go:90-94 | One breadcrumb exactly when the breadcrumb gate admits the level and the core has its own scope. It goes to the top scope of the child's hub, is built from the child's fields, and uses the limit 1000. |
| `Core.NoScopeNoBreadcrumb` | core.go:90-91 | A core without its own scope never adds a breadcrumb. |
| `Core.WriteCapturesEvent` | core.go:96-99 | One event exactly when the level reaches the event level. It is captured on the child's hub and built from the entry, the fields and the child's fields. |
| `Core.WriteFlushes` | core.go:101-106 | One flush, with the configured timeout, exactly when the level is above Error. |
| `Core.ScopeMarkerKeepsBreadcrumbHub` | core.go:184-191 | Without a hub marker, breadcrumbs still go to the top scope of the writing core's `hub()`: its configured hub, or else a clone of the current hub. |
| `Core.CheckGuardsWrite` | core.go:80-108 | An entry that `Check` turns away would get neither a breadcrumb nor an event from `Write`. |
| `Config.ApplyOption` | config.go:36-122 | An option fails exactly in two cases: `UseStacktraceFrameFilter` after stacktraces are disabled, and `WithFlushTimeout(0)`. It fails with the Go error message. Only `DisableStacktrace` changes the provider, to the nop one. |
| `Config.Apply` | config.go:36-122 | Running an option on a core writes that option's setting and nothing else. On failure it returns the error and changes nothing. |
| `Config.NewCore` | core.go:39-74 | Fails with the factory's error, with the first failing option's error, or when breadcrumbs are above the event level. Otherwise it returns a new core: its settings are the options applied in order, it has no fields and no scope, and its gate agrees with its thresholds. |
| `Config.ApplyAllAppend` | core.go:54-59 | Applying two runs of options is applying the first and then, if it succeeded, the second. |
| `Config.FirstErrorAborts` | core.go:54-59 | The first failing option's error is the result, whatever follows it. |
| `Config.ApplyAllKeepsNopProvider` | config.go:74-80 | No option installs a filtering provider. |
| `Config.ConstructedProvider` | core.go:69-71 | A constructed core has the default provider with its configured filter exactly when stacktraces are on, and the nop provider otherwise. |
| `Config.ConstructedThresholds` | core.go:61-63 | Once the options apply, construction fails exactly when breadcrumbs are on at a level above the event level, with the Go message. |
| `Config.BreadcrumbLevelExamples` | core.go:61-63 | Breadcrumbs at Fatal with the default Error event level are rejected. Breadcrumbs at Error are accepted. |
| `Config.FrameFilterOrder` | config.go:64-80 | Setting a filter and then disabling stacktraces succeeds. The reverse order fails. |
| `Config.ApplyPair` | core.go:54-59 | A run of two options applies the first and, if it succeeds, the second; the first error stops the run. |
| `Config.UseNilHubResets` | config.go:107-112 | `UseHub(nil)` after `UseHub(h)` clears the configured hub again. |
| `Config.ConvertFieldsToTagsReplaces` | config.go:114-122 | A second `ConvertFieldsToTags` replaces the registered keys instead of adding to them. |

## Left out

- `sentry.CurrentHub().BindClient(client)` in `NewCore` is not modelled. The global hub is outside the model.
- sentry-go is represented by opaque handles: the client, hubs and scopes. Its breadcrumb ring buffer, event delivery and flush waiting are not modelled; `AddBreadcrumb` and `Flush` are effect records, and `CaptureEvent`'s returned event id is dropped as in the Go code.
- `sentry.CurrentHub().Clone()` is one symbolic handle. Two clones are not told apart, and the real hub is not modelled as a clone of anything.
- `sentry.NewStacktrace()` is the `trace` parameter of `Write` and `Exception`. `None` stands for the nil stack.
- zap's `MapObjectEncoder` and `Field.AddTo` are reduced to "one key per non-skip field". `AddTo`'s `<key>Error` entries, inline marshalers' flattened keys and namespaces are not modelled.
- `getHub`'s `log.Println` (core.go:145) is not modelled.
- A custom `StacktraceFrameFilter` is a pure function of the frames. `UseStacktraceFrameFilter(nil)` is not modelled: Go accepts it, and every later event captured with a stack available then panics in `FilterFrames` (exception.go:57).
- `WithTags` keeps the caller's map by reference (config.go:45), and every event reads it (event.go:57), so later changes by the caller show up in events. The model stores a snapshot of the map when the option is applied.
- A `Tagger` is its tag map, and a nil map is `None`.
- `zapcore.CheckedEntry` is reduced to the entry and its list of cores.
- `Time` is an opaque stamp. `time.Duration` is an integer count of nanoseconds.
- Levels are unbounded integers, not `int8`. Wrap-around is never reached by the level comparisons here.
- The nop core returned on failure is represented by the `Failure` result.
- `breadcrumbs.localOnly` is modelled as a field that `WithGlobalBreadcrumbs` clears. Nothing in the core reads it.
- core.go:64-67 builds the `LevelEnabler` with field names (`level`, `breadcrumbs`) that level.go:8-12 does not declare. The model follows level.go: the gate holds the event level, the breadcrumb flag and the breadcrumb level, filled from the core at construction. `Core.Valid` ties them to the core's fields, and nothing changes those fields after construction.
- `Core.Core.Write`: its breadcrumb and event gates, and `Check`, read the breadcrumbs object shared with the parent. Nothing in the model mutates it after construction, and that is all the model covers.
