/**
 * Stack-frame filtering and the two exception providers: one that never reports an
 * exception, and one that turns the current stack into a single synthetic exception.
 */
module Exceptions {
  import opened Wrappers
  import opened Zapcore
  import S = Sentry

  const ZapsentryModulePrefix: string := "github.com/TheZeroSlave/zapsentry"
  const ZapFunctionPrefix: string := "go.uber.org/zap"
  const TestModuleSuffix: string := "_test"

  /** `strings.HasPrefix`. */
  predicate HasPrefix(s: string, prefix: string)
  {
    |prefix| <= |s| && s[..|prefix|] == prefix
  }

  /** `strings.HasSuffix`. */
  predicate HasSuffix(s: string, suffix: string)
  {
    |suffix| <= |s| && s[|s| - |suffix|..] == suffix
  }

  /**
   * A frame of the adapter itself or of zap's internals, at which filtering stops;
   * frames of a `_test` module never count as internal.
   */
  predicate IsInternalFrame(f: S.Frame)
  {
    (HasPrefix(f.moduleName, ZapsentryModulePrefix) || HasPrefix(f.functionName, ZapFunctionPrefix))
    && !HasSuffix(f.moduleName, TestModuleSuffix)
  }

  /** The frames before the first internal one: what the default filter keeps. */
  function Filtered(frames: seq<S.Frame>): (r: seq<S.Frame>)
    ensures |r| <= |frames| && r == frames[..|r|]
    ensures forall i :: 0 <= i < |r| ==> !IsInternalFrame(r[i])
    ensures |r| < |frames| ==> IsInternalFrame(frames[|r|])
  {
    if frames == [] || IsInternalFrame(frames[0]) then []
    else [frames[0]] + Filtered(frames[1..])
  }

  /** Filtering its own output changes nothing. */
  lemma {:induction false} FilteredIdempotent(frames: seq<S.Frame>)
    ensures Filtered(Filtered(frames)) == Filtered(frames)
  {
    if frames != [] && !IsInternalFrame(frames[0]) {
      FilteredIdempotent(frames[1..]);
      var r := Filtered(frames[1..]);
      assert ([frames[0]] + r)[0] == frames[0];
      assert ([frames[0]] + r)[1..] == r;
    }
  }

  /** A prefix free of internal frames that stops at the end or at an internal frame is the filter's output. */
  lemma {:induction false} FilteredUnique(frames: seq<S.Frame>, k: nat)
    requires k <= |frames|
    requires forall i :: 0 <= i < k ==> !IsInternalFrame(frames[i])
    requires k < |frames| ==> IsInternalFrame(frames[k])
    ensures Filtered(frames) == frames[..k]
  {
    if k > 0 {
      FilteredUnique(frames[1..], k - 1);
      assert frames[..k] == [frames[0]] + frames[1..][..k - 1];
    }
  }

  /** A frame from a `_test` module is never where filtering stops. */
  lemma TestFramesKept(f: S.Frame)
    requires HasSuffix(f.moduleName, TestModuleSuffix)
    ensures !IsInternalFrame(f)
  {
  }

  /**
   * Application frames before an adapter frame and a zap frame are kept and everything
   * from the adapter frame on is dropped; an adapter frame from its `_test` module is kept.
   */
  lemma TruncationExample()
    ensures var app := S.Frame("main.handle", "example.com/app", "main.go", 12);
      var adapter := S.Frame("github.com/TheZeroSlave/zapsentry.(*core).Write", "github.com/TheZeroSlave/zapsentry", "core.go", 97);
      var facade := S.Frame("go.uber.org/zap.(*Logger).Error", "go.uber.org/zap", "logger.go", 40);
      var test := S.Frame("github.com/TheZeroSlave/zapsentry_test.TestWrite", "github.com/TheZeroSlave/zapsentry_test", "core_test.go", 5);
      && Filtered([app, app, adapter, facade, app]) == [app, app]
      && Filtered([test, app]) == [test, app]
  {
    var app := S.Frame("main.handle", "example.com/app", "main.go", 12);
    var adapter := S.Frame("github.com/TheZeroSlave/zapsentry.(*core).Write", "github.com/TheZeroSlave/zapsentry", "core.go", 97);
    var facade := S.Frame("go.uber.org/zap.(*Logger).Error", "go.uber.org/zap", "logger.go", 40);
    var test := S.Frame("github.com/TheZeroSlave/zapsentry_test.TestWrite", "github.com/TheZeroSlave/zapsentry_test", "core_test.go", 5);
    assert !HasPrefix(app.moduleName, ZapsentryModulePrefix) && !HasPrefix(app.functionName, ZapFunctionPrefix);
    assert adapter.moduleName[|adapter.moduleName| - 5..] != TestModuleSuffix by {
      assert adapter.moduleName[|adapter.moduleName| - 1] == 'y';
    }
    assert adapter.moduleName[..|ZapsentryModulePrefix|] == ZapsentryModulePrefix;
    FilteredUnique([app, app, adapter, facade, app], 2);
    assert [app, app, adapter, facade, app][..2] == [app, app];
    assert test.moduleName[|test.moduleName| - 5..] == TestModuleSuffix;
    FilteredUnique([test, app], 2);
    assert [test, app][..2] == [test, app];
  }

  /**
   * `DefaultStacktraceFrameFilter.FilterFrames`: copies frames until the first internal
   * one and drops it and everything after it.
   */
  method FilterFrames(frames: seq<S.Frame>) returns (filtered: seq<S.Frame>)
    ensures filtered == Filtered(frames)
    ensures |filtered| <= |frames| && filtered == frames[..|filtered|]
    ensures forall i :: 0 <= i < |filtered| ==> !IsInternalFrame(filtered[i])
    ensures |filtered| < |frames| ==> IsInternalFrame(frames[|filtered|])
  {
    if |frames| == 0 {
      return [];
    }
    filtered := [];
    var i := 0;
    while i < |frames|
      invariant 0 <= i <= |frames|
      invariant filtered == frames[..i]
      invariant forall j :: 0 <= j < i ==> !IsInternalFrame(frames[j])
    {
      if IsInternalFrame(frames[i]) {
        break;
      }
      filtered := filtered + [frames[i]];
      i := i + 1;
    }
    FilteredUnique(frames, i);
  }

  /** `StacktraceFrameFilter`: the default filter, or one supplied by the application. */
  datatype FrameFilter =
    | DefaultStacktraceFrameFilter
    | CustomFrameFilter(filterFrames: seq<S.Frame> -> seq<S.Frame>)
  {
    /** The frames this filter keeps. */
    function Apply(frames: seq<S.Frame>): seq<S.Frame>
    {
      match this
      case DefaultStacktraceFrameFilter => Filtered(frames)
      case CustomFrameFilter(filterFrames) => filterFrames(frames)
    }
  }

  /**
   * `ExceptionProvider`. `trace` is what `sentry.NewStacktrace()` yields at the time of
   * the call: the current stack, outermost frame first, or nothing when it is unavailable.
   */
  datatype ExceptionProvider =
    | NopExceptionProvider
    | DefaultExceptionProvider(frameFilter: FrameFilter)
  {
    /**
     * The nop provider never reports an exception. The default provider reports none
     * without a stack, and otherwise exactly one, named after the message, located at the
     * caller, carrying the filtered stack.
     */
    function Exception(ent: Entry, trace: Option<seq<S.Frame>>): (r: seq<S.Exception>)
      ensures NopExceptionProvider? ==> r == []
      ensures DefaultExceptionProvider? && trace.None? ==> r == []
      ensures DefaultExceptionProvider? && trace.Some? ==>
        && |r| == 1
        && r[0].exceptionType == ent.message
        && r[0].value == ent.caller.trimmedPath
        && r[0].stacktrace.frames == frameFilter.Apply(trace.value)
      decreases if NopExceptionProvider? then 0 else 1
    {
      match this
      case NopExceptionProvider => []
      case DefaultExceptionProvider(ff) =>
        match trace
        case None => NopExceptionProvider.Exception(ent, trace)
        case Some(frames) =>
          [S.Exception(ent.message, ent.caller.trimmedPath, S.Stacktrace(ff.Apply(frames)))]
    }
  }

  /** `NewExceptionProvider`. */
  function NewExceptionProvider(ff: FrameFilter): (p: ExceptionProvider)
    ensures p.DefaultExceptionProvider? && p.frameFilter == ff
  {
    DefaultExceptionProvider(ff)
  }

  /**
   * With the default filter, a reported exception's stack is a prefix of the raw stack
   * holding no internal frame, cut exactly at the first internal one.
   */
  lemma DefaultProviderStack(ent: Entry, frames: seq<S.Frame>)
    ensures var r := DefaultExceptionProvider(DefaultStacktraceFrameFilter).Exception(ent, Some(frames));
      var kept := r[0].stacktrace.frames;
      && |r| == 1
      && kept == frames[..|kept|]
      && (forall i :: 0 <= i < |kept| ==> !IsInternalFrame(kept[i]))
      && (|kept| < |frames| ==> IsInternalFrame(frames[|kept|]))
  {
  }
}
