/**
 * The parts of zap's `zapcore` package that the adapter consumes: ordered levels,
 * log entries, typed fields and the map encoder that fields are added to.
 */
module Zapcore {
  import Sentry
  import opened Wrappers

  /** `zapcore.Level`: an ordered severity, more severe is larger. */
  type Level = int

  const DebugLevel: Level := -1
  const InfoLevel: Level := 0
  const WarnLevel: Level := 1
  const ErrorLevel: Level := 2
  const DPanicLevel: Level := 3
  const PanicLevel: Level := 4
  const FatalLevel: Level := 5

  /** `Level.Enabled`: a threshold admits every level at or above it. */
  predicate LevelEnabled(threshold: Level, lvl: Level)
  {
    lvl >= threshold
  }

  /** `time.Time`, opaque: it is only ever copied. */
  datatype Time = Time(unixNanos: int)

  /** `zapcore.EntryCaller`, reduced to what `TrimmedPath()` returns for it. */
  datatype EntryCaller = EntryCaller(trimmedPath: string)

  /** `zapcore.Entry`. */
  datatype Entry = Entry(level: Level, time: Time, message: string, caller: EntryCaller)

  /** `zapcore.FieldType`: the types the adapter distinguishes, the rest lumped together. */
  datatype FieldType =
    | StringType
    | ObjectMarshalerType
    | ReflectType
    | SkipType
    | OtherType(name: string)

  /**
   * What a field's `Interface` holds: nothing, a sentry scope or hub (marker fields),
   * a value implementing `Tagger` (whose `Tags()` may return nil), or any other value.
   */
  datatype Payload =
    | NilPayload
    | ScopePtr(scope: Sentry.Scope)
    | HubPtr(hub: Sentry.Hub)
    | Tagger(tags: Option<map<string, string>>)
    | OpaquePayload(id: nat)

  /** `zapcore.Field`. */
  datatype Field = Field(key: string, ftype: FieldType, integer: int, str: string, iface: Payload)

  /** What `Field.AddTo` stores in a `MapObjectEncoder` under the field's key. */
  datatype Value = Value(ftype: FieldType, integer: int, str: string, iface: Payload)

  /** The entries one field adds to the encoder: a skip field adds none, any other its key. */
  function Encode(f: Field): (m: map<string, Value>)
    ensures f.ftype == SkipType ==> m == map[]
    ensures f.ftype != SkipType ==> m.Keys == {f.key} && m[f.key].iface == f.iface
  {
    if f.ftype == SkipType then map[]
    else map[f.key := Value(f.ftype, f.integer, f.str, f.iface)]
  }

  /** The encoder's map after adding `fs` in order: a later field overwrites an earlier key. */
  function EncodeFields(fs: seq<Field>): map<string, Value>
  {
    if fs == [] then map[] else EncodeFields(fs[..|fs| - 1]) + Encode(fs[|fs| - 1])
  }

  /** A key is encoded exactly when some non-skip field carries it. */
  lemma {:induction false} EncodedKeys(fs: seq<Field>, k: string)
    ensures k in EncodeFields(fs) <==> exists i :: 0 <= i < |fs| && fs[i].key == k && fs[i].ftype != SkipType
  {
    if fs != [] {
      var init := fs[..|fs| - 1];
      EncodedKeys(init, k);
      if k in EncodeFields(init) {
        var i :| 0 <= i < |init| && init[i].key == k && init[i].ftype != SkipType;
        assert fs[i] == init[i];
      }
      if exists i :: 0 <= i < |fs| && fs[i].key == k && fs[i].ftype != SkipType {
        var i :| 0 <= i < |fs| && fs[i].key == k && fs[i].ftype != SkipType;
        if i < |init| {
          assert init[i] == fs[i];
        }
      }
    }
  }
}
