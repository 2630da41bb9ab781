/** Building the Sentry event for a log entry, and extracting its tags from the entry's fields. */
module Events {
  import opened Wrappers
  import opened Zapcore
  import opened Levels
  import opened Exceptions
  import opened Defaults
  import Maps
  import S = Sentry

  /** The part of `sentry.Event` the adapter fills. */
  datatype Event = Event(
    message: string,
    timestamp: Time,
    level: S.SentryLevel,
    extra: map<string, Value>,
    platform: string,
    environment: string,
    exception: seq<S.Exception>,
    tags: map<string, string>)

  /** The tags a `Tagger` payload adds: its `Tags()`, unless that is nil or the payload is no `Tagger`. */
  function ObjectTags(p: Payload): (tags: map<string, string>)
    ensures !p.Tagger? ==> tags == map[]
    ensures p.Tagger? && p.tags.None? ==> tags == map[]
  {
    match p
    case Tagger(Some(t)) => t
    case _ => map[]
  }

  /**
   * The tags one field contributes: none unless its key is registered; then a string
   * field its own key and string, an object or reflected field its `Tagger` tags, any
   * other type none.
   */
  function Contribution(registered: set<string>, f: Field): (tags: map<string, string>)
    ensures f.key !in registered ==> tags == map[]
    ensures f.ftype !in {StringType, ObjectMarshalerType, ReflectType} ==> tags == map[]
    ensures f.key in registered && f.ftype == StringType ==> tags == map[f.key := f.str]
  {
    if f.key !in registered then map[]
    else if f.ftype == ObjectMarshalerType || f.ftype == ReflectType then ObjectTags(f.iface)
    else if f.ftype == StringType then map[f.key := f.str]
    else map[]
  }

  /** The tags extracted from `fs`: each field's contribution written over those of the fields before it. */
  function TagsFrom(registered: set<string>, fs: seq<Field>): map<string, string>
  {
    if fs == [] then map[]
    else TagsFrom(registered, fs[..|fs| - 1]) + Contribution(registered, fs[|fs| - 1])
  }

  /** Extracting from two runs of fields is extracting from each and letting the second win. */
  lemma {:induction false} TagsFromAppend(registered: set<string>, a: seq<Field>, b: seq<Field>)
    ensures TagsFrom(registered, a + b) == TagsFrom(registered, a) + TagsFrom(registered, b)
  {
    if b == [] {
      assert a + b == a;
    } else {
      var init, last := b[..|b| - 1], b[|b| - 1];
      TagsFromAppend(registered, a, init);
      assert (a + b)[..|a + b| - 1] == a + init;
      assert (a + b)[|a + b| - 1] == last;
      var ta, ti, c := TagsFrom(registered, a), TagsFrom(registered, init), Contribution(registered, last);
      calc {
        TagsFrom(registered, a + b);
        TagsFrom(registered, a + init) + c;
        (ta + ti) + c;
        { Maps.UnionAssociative(ta, ti, c); }
        ta + (ti + c);
        ta + TagsFrom(registered, b);
      }
    }
  }

  /** A field that contributes nothing (unregistered key, other type, no tags) can be dropped. */
  lemma FieldWithoutTagsIgnored(registered: set<string>, a: seq<Field>, f: Field, b: seq<Field>)
    requires Contribution(registered, f) == map[]
    ensures TagsFrom(registered, a + [f] + b) == TagsFrom(registered, a + b)
  {
    TagsFromAppend(registered, a + [f], b);
    TagsFromAppend(registered, a, b);
    assert (a + [f])[..|a + [f]| - 1] == a;
  }

  /**
   * A registered string field sets its key to its string unless a later field sets that
   * key again: when fields repeat a key, the later one wins.
   */
  lemma StringFieldTag(registered: set<string>, a: seq<Field>, f: Field, b: seq<Field>)
    requires f.key in registered && f.ftype == StringType
    requires f.key !in TagsFrom(registered, b)
    ensures f.key in TagsFrom(registered, a + [f] + b)
    ensures TagsFrom(registered, a + [f] + b)[f.key] == f.str
  {
    TagsFromAppend(registered, a + [f], b);
    assert (a + [f])[..|a + [f]| - 1] == a;
  }

  /**
   * A registered object or reflected field whose `Tagger` returns tags sets each of them,
   * unless a later field sets that key again.
   */
  lemma TaggerFieldTags(registered: set<string>, a: seq<Field>, f: Field, b: seq<Field>, k: string)
    requires f.key in registered && (f.ftype == ObjectMarshalerType || f.ftype == ReflectType)
    requires f.iface.Tagger? && f.iface.tags.Some? && k in f.iface.tags.value
    requires k !in TagsFrom(registered, b)
    ensures k in TagsFrom(registered, a + [f] + b)
    ensures TagsFrom(registered, a + [f] + b)[k] == f.iface.tags.value[k]
  {
    TagsFromAppend(registered, a + [f], b);
    assert (a + [f])[..|a + [f]| - 1] == a;
  }

  /** Every extracted tag was contributed by some field. */
  lemma {:induction false} TagsFromSound(registered: set<string>, fs: seq<Field>, k: string)
    requires k in TagsFrom(registered, fs)
    ensures exists i :: 0 <= i < |fs| && k in Contribution(registered, fs[i])
  {
    var init := fs[..|fs| - 1];
    if k in Contribution(registered, fs[|fs| - 1]) {
    } else {
      TagsFromSound(registered, init, k);
      var i :| 0 <= i < |init| && k in Contribution(registered, init[i]);
      assert fs[i] == init[i];
    }
  }

  /** The event's tags: the extracted ones with the static ones written over them. */
  function MergeTags(extracted: map<string, string>, staticTags: map<string, string>): (tags: map<string, string>)
    ensures tags.Keys == extracted.Keys + staticTags.Keys
    ensures forall k :: k in staticTags ==> tags[k] == staticTags[k]
    ensures forall k :: k in extracted && k !in staticTags ==> tags[k] == extracted[k]
  {
    extracted + staticTags
  }

  /** `events`: shared by a core and every core derived from it; only options write it. */
  class Events {
    var environment: string
    var platform: string
    /** The keys whose fields may become tags (`registeredTagKeys`; its byte values are always 1). */
    var registeredTagKeys: set<string>
    var disabledStacktrace: bool
    var stackTraceFrameFilter: FrameFilter
    var exceptionProvider: ExceptionProvider
    /** The static tags set by `WithTags`. */
    var tags: map<string, string>

    /** `newEvents`: the defaults, no registered keys, no static tags, no exceptions. */
    constructor ()
      ensures environment == "" && platform == "Golang"
      ensures registeredTagKeys == {} && tags == map[]
      ensures !disabledStacktrace
      ensures stackTraceFrameFilter == DefaultStacktraceFrameFilter
      ensures exceptionProvider == NopExceptionProvider
    {
      platform := defaults.platform;
      environment := defaults.environment;
      disabledStacktrace := defaults.disableStacktrace;
      stackTraceFrameFilter := defaults.stackTraceFrameFilter;
      exceptionProvider := defaults.exceptionProvider;
      registeredTagKeys := {};
      tags := map[];
    }

    /** The event `New` builds; `extra` is the merged field map of the writing core. */
    function EventFor(ent: Entry, fs: seq<Field>, extra: map<string, Value>, trace: Option<seq<S.Frame>>): Event
      reads this
    {
      Event(
        ent.message,
        ent.time,
        ZapToSentryLevel(ent.level),
        extra,
        platform,
        environment,
        exceptionProvider.Exception(ent, trace),
        MergeTags(TagsFrom(registeredTagKeys, fs), tags))
    }

    /**
     * `events.new`: message and time from the entry, the mapped level, the given extra
     * data, the configured platform and environment, the provider's exceptions, and the
     * extracted tags under the static ones.
     */
    method New(ent: Entry, fs: seq<Field>, extra: map<string, Value>, trace: Option<seq<S.Frame>>) returns (event: Event)
      ensures event == EventFor(ent, fs, extra, trace)
      ensures event.message == ent.message && event.timestamp == ent.time
      ensures event.level == ZapToSentryLevel(ent.level)
      ensures event.extra == extra && event.platform == platform
      ensures event.environment == environment
      ensures event.exception == exceptionProvider.Exception(ent, trace)
      ensures event.tags.Keys == TagsFrom(registeredTagKeys, fs).Keys + tags.Keys
      ensures forall k :: k in tags ==> event.tags[k] == tags[k]
      ensures forall k :: k in event.tags && k !in tags ==> event.tags[k] == TagsFrom(registeredTagKeys, fs)[k]
    {
      event := Event(ent.message, ent.time, ZapToSentryLevel(ent.level), extra, platform, "", [], map[]);
      event := event.(exception := exceptionProvider.Exception(ent, trace));
      if environment != "" {
        event := event.(environment := environment);
      }
      var extracted := TagsFromFields(fs);
      var merged := Maps.Overlay(extracted, tags);
      event := event.(tags := merged);
    }

    /** `tagsFromFields`: walks the fields in order, each registered one adding its tags. */
    method TagsFromFields(fs: seq<Field>) returns (result: map<string, string>)
      ensures result == TagsFrom(registeredTagKeys, fs)
    {
      result := map[];
      for i := 0 to |fs|
        invariant result == TagsFrom(registeredTagKeys, fs[..i])
      {
        assert fs[..i + 1][..i] == fs[..i];
        var f := fs[i];
        if f.key !in registeredTagKeys {
          continue;
        }
        if f.ftype == ObjectMarshalerType {
          result := TryAddObjectTag(f, result);
          continue;
        }
        if f.ftype == StringType {
          result := result[f.key := f.str];
          continue;
        }
        if f.ftype == ReflectType {
          result := TryAddObjectTag(f, result);
          continue;
        }
      }
      assert fs[..|fs|] == fs;
    }

    /**
     * `tryAddObjectTag`: a nil payload, a payload that is no `Tagger`, or a nil `Tags()`
     * leaves the tags as they are; otherwise every returned pair is written over them.
     */
    method TryAddObjectTag(field: Field, tags: map<string, string>) returns (result: map<string, string>)
      ensures result == tags + ObjectTags(field.iface)
      ensures field.iface.NilPayload? ==> result == tags
      ensures !field.iface.Tagger? ==> result == tags
      ensures field.iface.Tagger? && field.iface.tags.None? ==> result == tags
    {
      if field.iface.NilPayload? {
        return tags;
      }
      if !field.iface.Tagger? {
        return tags;
      }
      var objectTags := field.iface.tags;
      if objectTags.None? {
        return tags;
      }
      result := Maps.Overlay(tags, objectTags.value);
    }
  }
}
