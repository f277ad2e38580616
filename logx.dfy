/**
  The vocabulary the rich logger works with: log fields, the values they carry,
  request contexts, severity levels and output channels, and the collaborators
  the logger consults but does not implement (the severity gate, the caller
  resolver, the trace/span providers and the writer that receives records).
 */
module Logx {

  datatype Option<T> = None | Some(value: T)

  /** A value handed to a log field or used as a message (Go's `interface{}`).
      String formatting is not modelled: `Sprint` and `Sprintf` stand for the
      string that `fmt.Sprint` / `fmt.Sprintf` would produce from their
      arguments, and `DurationText(d)` for the rendering of a duration of `d`
      nanoseconds. */
  datatype Value =
    | Str(s: string)
    | DurationText(d: int)
    | Sprint(args: seq<Value>)
    | Sprintf(format: string, args: seq<Value>)
    | Opaque(id: nat)

  /** An ordered key/value pair; keys need not be unique within a list. */
  datatype LogField = LogField(key: string, value: Value)

  /** What a context holds under the package-private fields key: nothing, a
      list of fields of the expected type, or a value of some other type. */
  datatype ContextValue =
    | NoValue
    | FieldList(fields: seq<LogField>)
    | OtherValue(v: Value)

  /** A request-scoped context; `id` distinguishes contexts that carry
      different tracing information. */
  datatype Context = Context(id: nat, stored: ContextValue)

  datatype Level = DebugLevel | InfoLevel | ErrorLevel

  datatype Channel = DebugChannel | InfoChannel | ErrorChannel | SlowChannel

  const CallerKey: string := "caller"
  const TraceKey: string := "trace"
  const SpanKey: string := "span"
  const DurationKey: string := "duration"

  /** The collaborators, as uninterpreted inputs: the process-wide severity
      gate, the base stack depth and the caller resolver, and the providers
      that read the trace id and span id out of a context ("" when absent). */
  datatype Env = Env(
    shallLog: Level -> bool,
    callerDepth: int,
    getCaller: int -> string,
    traceIdFromContext: Context -> string,
    spanIdFromContext: Context -> string)

  /** One call received by the writer: its channel, its message and its fields. */
  datatype Record = Record(channel: Channel, message: Value, fields: seq<LogField>)

  /** A writer that records every call it receives, in order. */
  class Writer {
    var records: seq<Record>

    constructor ()
      ensures records == []
    {
      records := [];
    }

    /** Hands one record to the channel `c`. */
    method Write(c: Channel, v: Value, fields: seq<LogField>)
      modifies this
      ensures records == old(records) + [Record(c, v, fields)]
    {
      records := records + [Record(c, v, fields)];
    }
  }
}
