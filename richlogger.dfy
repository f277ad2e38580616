/**
  The rich logger: a decorator that gates each call on its severity, enriches
  the fields of every record it lets through (accumulated fields, explicit
  fields, caller, trace, span, context-injected fields, in that order) and hands
  exactly one record to the writer's matching channel.
 */
module RichLog {
  import opened Logx

  /** The three pieces of per-instance state of a rich logger, as a value. */
  datatype LoggerState = LoggerState(ctx: Option<Context>, callerSkip: nat, fields: seq<LogField>)

  /** No context, no extra caller skip, no accumulated fields. */
  function Default(): LoggerState {
    LoggerState(None, 0, [])
  }

  function DurationField(d: int): LogField {
    LogField(DurationKey, DurationText(d))
  }

  /** Package-level `WithCallerSkip`: a default logger unless `skip` is positive. */
  function WithCallerSkip(skip: int): (s: LoggerState)
    ensures skip <= 0 ==> s == Default()
    ensures skip > 0 ==> s.callerSkip == skip && s.ctx == None && s.fields == []
  {
    if skip <= 0 then Default() else LoggerState(None, skip, [])
  }

  /** Package-level `WithContext`: a logger bound to `ctx` and nothing else. */
  function WithContext(ctx: Option<Context>): (s: LoggerState)
    ensures s.ctx == ctx && s.callerSkip == 0 && s.fields == []
  {
    LoggerState(ctx, 0, [])
  }

  /** Package-level `WithDuration`: a logger whose only field is the duration. */
  function WithDuration(d: int): (s: LoggerState)
    ensures s.ctx == None && s.callerSkip == 0
    ensures |s.fields| == 1 && s.fields[0].key == DurationKey && s.fields[0].value == DurationText(d)
  {
    LoggerState(None, 0, [DurationField(d)])
  }

  /** A fluent mutator call on an existing logger. */
  datatype Mutation =
    | SetCallerSkip(skip: int)
    | SetContext(ctx: Option<Context>)
    | AddDuration(d: int)

  /** The state a fluent mutator leaves behind. */
  function Apply(s: LoggerState, m: Mutation): LoggerState {
    match m
    case SetCallerSkip(skip) => if skip <= 0 then s else s.(callerSkip := skip)
    case SetContext(ctx) => s.(ctx := ctx)
    case AddDuration(d) => s.(fields := s.fields + [DurationField(d)])
  }

  /** The state after a chain of fluent mutator calls, applied left to right. */
  function ApplyAll(s: LoggerState, ms: seq<Mutation>): LoggerState
    decreases |ms|
  {
    if ms == [] then s else ApplyAll(Apply(s, ms[0]), ms[1..])
  }

  function CallerField(s: LoggerState, env: Env): LogField {
    LogField(CallerKey, Str(env.getCaller(env.callerDepth + s.callerSkip)))
  }

  function TraceFields(ctx: Option<Context>, env: Env): seq<LogField> {
    if ctx.Some? && env.traceIdFromContext(ctx.value) != ""
    then [LogField(TraceKey, Str(env.traceIdFromContext(ctx.value)))]
    else []
  }

  function SpanFields(ctx: Option<Context>, env: Env): seq<LogField> {
    if ctx.Some? && env.spanIdFromContext(ctx.value) != ""
    then [LogField(SpanKey, Str(env.spanIdFromContext(ctx.value)))]
    else []
  }

  /** The fields injected into the context, when the stored value has the expected type. */
  function StoredFields(ctx: Option<Context>): seq<LogField> {
    if ctx.Some? && ctx.value.stored.FieldList? then ctx.value.stored.fields else []
  }

  /** The final field list of a record: accumulated, explicit, caller, trace,
      span, context-injected. */
  function FieldsFor(s: LoggerState, env: Env, explicit: seq<LogField>): seq<LogField> {
    s.fields + explicit + [CallerField(s, env)]
    + TraceFields(s.ctx, env) + SpanFields(s.ctx, env) + StoredFields(s.ctx)
  }

  /** The severity that gates each channel; slow records share the error gate. */
  function LevelOf(c: Channel): Level {
    match c
    case DebugChannel => DebugLevel
    case InfoChannel => InfoLevel
    case ErrorChannel => ErrorLevel
    case SlowChannel => ErrorLevel
  }

  /** What the writer receives from one dispatch on channel `c`. */
  function Emitted(s: LoggerState, env: Env, c: Channel, v: Value, explicit: seq<LogField>): seq<Record> {
    if env.shallLog(LevelOf(c)) then [Record(c, v, FieldsFor(s, env, explicit))] else []
  }

  /** A rich logger instance, whose fluent mutators change it in place. */
  class RichLogger {
    var ctx: Option<Context>
    var callerSkip: nat
    var fields: seq<LogField>

    function State(): LoggerState
      reads this
    {
      LoggerState(ctx, callerSkip, fields)
    }

    /** Allocates a logger holding `s`, as the package-level constructors do. */
    constructor (s: LoggerState)
      ensures ctx == s.ctx && callerSkip == s.callerSkip && fields == s.fields
      ensures State() == s
    {
      ctx := s.ctx;
      callerSkip := s.callerSkip;
      fields := s.fields;
    }

    /** Sets the caller skip when `skip` is positive; otherwise changes nothing. */
    method WithCallerSkip(skip: int) returns (r: RichLogger)
      modifies this`callerSkip
      ensures r == this
      ensures skip <= 0 ==> callerSkip == old(callerSkip)
      ensures skip > 0 ==> callerSkip == skip
      ensures ctx == old(ctx) && fields == old(fields)
      ensures State() == Apply(old(State()), SetCallerSkip(skip))
    {
      if skip <= 0 {
        return this;
      }
      callerSkip := skip;
      return this;
    }

    /** Binds the logger to `c`. */
    method WithContext(c: Option<Context>) returns (r: RichLogger)
      modifies this`ctx
      ensures r == this
      ensures ctx == c
      ensures callerSkip == old(callerSkip) && fields == old(fields)
      ensures State() == Apply(old(State()), SetContext(c))
    {
      ctx := c;
      return this;
    }

    /** Appends one duration field after the accumulated fields. */
    method WithDuration(d: int) returns (r: RichLogger)
      modifies this`fields
      ensures r == this
      ensures |fields| == |old(fields)| + 1
      ensures fields[..|old(fields)|] == old(fields)
      ensures fields[|old(fields)|] == LogField(DurationKey, DurationText(d))
      ensures ctx == old(ctx) && callerSkip == old(callerSkip)
      ensures State() == Apply(old(State()), AddDuration(d))
    {
      fields := fields + [LogField(DurationKey, DurationText(d))];
      return this;
    }

    /** Builds the final field list of one record by successive appends. */
    method BuildFields(env: Env, explicit: seq<LogField>) returns (r: seq<LogField>)
      ensures r == FieldsFor(State(), env, explicit)
    {
      r := fields + explicit;
      r := r + [LogField(CallerKey, Str(env.getCaller(env.callerDepth + callerSkip)))];

      if ctx.None? {
        return;
      }

      var traceId := env.traceIdFromContext(ctx.value);
      if |traceId| > 0 {
        r := r + [LogField(TraceKey, Str(traceId))];
      }

      var spanId := env.spanIdFromContext(ctx.value);
      if |spanId| > 0 {
        r := r + [LogField(SpanKey, Str(spanId))];
      }

      var val := ctx.value.stored;
      if !val.NoValue? {
        if val.FieldList? {
          r := r + val.fields;
        }
      }
    }

    // Dispatch routines: one gate check, then at most one record.

    method LogDebug(env: Env, w: Writer, v: Value, explicit: seq<LogField>)
      modifies w
      ensures env.shallLog(DebugLevel) ==>
        w.records == old(w.records) + [Record(DebugChannel, v, FieldsFor(State(), env, explicit))]
      ensures !env.shallLog(DebugLevel) ==> w.records == old(w.records)
      ensures w.records == old(w.records) + Emitted(State(), env, DebugChannel, v, explicit)
    {
      if env.shallLog(DebugLevel) {
        var fs := BuildFields(env, explicit);
        w.Write(DebugChannel, v, fs);
      }
    }

    method LogError(env: Env, w: Writer, v: Value, explicit: seq<LogField>)
      modifies w
      ensures env.shallLog(ErrorLevel) ==>
        w.records == old(w.records) + [Record(ErrorChannel, v, FieldsFor(State(), env, explicit))]
      ensures !env.shallLog(ErrorLevel) ==> w.records == old(w.records)
      ensures w.records == old(w.records) + Emitted(State(), env, ErrorChannel, v, explicit)
    {
      if env.shallLog(ErrorLevel) {
        var fs := BuildFields(env, explicit);
        w.Write(ErrorChannel, v, fs);
      }
    }

    method LogInfo(env: Env, w: Writer, v: Value, explicit: seq<LogField>)
      modifies w
      ensures env.shallLog(InfoLevel) ==>
        w.records == old(w.records) + [Record(InfoChannel, v, FieldsFor(State(), env, explicit))]
      ensures !env.shallLog(InfoLevel) ==> w.records == old(w.records)
      ensures w.records == old(w.records) + Emitted(State(), env, InfoChannel, v, explicit)
    {
      if env.shallLog(InfoLevel) {
        var fs := BuildFields(env, explicit);
        w.Write(InfoChannel, v, fs);
      }
    }

    method LogSlow(env: Env, w: Writer, v: Value, explicit: seq<LogField>)
      modifies w
      ensures env.shallLog(ErrorLevel) ==>
        w.records == old(w.records) + [Record(SlowChannel, v, FieldsFor(State(), env, explicit))]
      ensures !env.shallLog(ErrorLevel) ==> w.records == old(w.records)
      ensures w.records == old(w.records) + Emitted(State(), env, SlowChannel, v, explicit)
    {
      if env.shallLog(ErrorLevel) {
        var fs := BuildFields(env, explicit);
        w.Write(SlowChannel, v, fs);
      }
    }

    // The sixteen entry points: four message shapes on each of four channels.

    method Debug(env: Env, w: Writer, v: seq<Value>)
      modifies w
      ensures w.records == old(w.records) + Emitted(State(), env, DebugChannel, Sprint(v), [])
    {
      LogDebug(env, w, Sprint(v), []);
    }

    method Debugf(env: Env, w: Writer, format: string, v: seq<Value>)
      modifies w
      ensures w.records == old(w.records) + Emitted(State(), env, DebugChannel, Sprintf(format, v), [])
    {
      LogDebug(env, w, Sprintf(format, v), []);
    }

    method Debugv(env: Env, w: Writer, v: Value)
      modifies w
      ensures w.records == old(w.records) + Emitted(State(), env, DebugChannel, v, [])
    {
      LogDebug(env, w, v, []);
    }

    method Debugw(env: Env, w: Writer, msg: string, explicit: seq<LogField>)
      modifies w
      ensures w.records == old(w.records) + Emitted(State(), env, DebugChannel, Str(msg), explicit)
    {
      LogDebug(env, w, Str(msg), explicit);
    }

    method Error(env: Env, w: Writer, v: seq<Value>)
      modifies w
      ensures w.records == old(w.records) + Emitted(State(), env, ErrorChannel, Sprint(v), [])
    {
      LogError(env, w, Sprint(v), []);
    }

    method Errorf(env: Env, w: Writer, format: string, v: seq<Value>)
      modifies w
      ensures w.records == old(w.records) + Emitted(State(), env, ErrorChannel, Sprintf(format, v), [])
    {
      LogError(env, w, Sprintf(format, v), []);
    }

    /** Unlike the other `v` forms, the error form stringifies its value. */
    method Errorv(env: Env, w: Writer, v: Value)
      modifies w
      ensures w.records == old(w.records) + Emitted(State(), env, ErrorChannel, Sprint([v]), [])
    {
      LogError(env, w, Sprint([v]), []);
    }

    method Errorw(env: Env, w: Writer, msg: string, explicit: seq<LogField>)
      modifies w
      ensures w.records == old(w.records) + Emitted(State(), env, ErrorChannel, Str(msg), explicit)
    {
      LogError(env, w, Str(msg), explicit);
    }

    method Info(env: Env, w: Writer, v: seq<Value>)
      modifies w
      ensures w.records == old(w.records) + Emitted(State(), env, InfoChannel, Sprint(v), [])
    {
      LogInfo(env, w, Sprint(v), []);
    }

    method Infof(env: Env, w: Writer, format: string, v: seq<Value>)
      modifies w
      ensures w.records == old(w.records) + Emitted(State(), env, InfoChannel, Sprintf(format, v), [])
    {
      LogInfo(env, w, Sprintf(format, v), []);
    }

    method Infov(env: Env, w: Writer, v: Value)
      modifies w
      ensures w.records == old(w.records) + Emitted(State(), env, InfoChannel, v, [])
    {
      LogInfo(env, w, v, []);
    }

    method Infow(env: Env, w: Writer, msg: string, explicit: seq<LogField>)
      modifies w
      ensures w.records == old(w.records) + Emitted(State(), env, InfoChannel, Str(msg), explicit)
    {
      LogInfo(env, w, Str(msg), explicit);
    }

    method Slow(env: Env, w: Writer, v: seq<Value>)
      modifies w
      ensures w.records == old(w.records) + Emitted(State(), env, SlowChannel, Sprint(v), [])
    {
      LogSlow(env, w, Sprint(v), []);
    }

    method Slowf(env: Env, w: Writer, format: string, v: seq<Value>)
      modifies w
      ensures w.records == old(w.records) + Emitted(State(), env, SlowChannel, Sprintf(format, v), [])
    {
      LogSlow(env, w, Sprintf(format, v), []);
    }

    method Slowv(env: Env, w: Writer, v: Value)
      modifies w
      ensures w.records == old(w.records) + Emitted(State(), env, SlowChannel, v, [])
    {
      LogSlow(env, w, v, []);
    }

    method Sloww(env: Env, w: Writer, msg: string, explicit: seq<LogField>)
      modifies w
      ensures w.records == old(w.records) + Emitted(State(), env, SlowChannel, Str(msg), explicit)
    {
      LogSlow(env, w, Str(msg), explicit);
    }
  }
}
