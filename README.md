# Rich logger model

A Dafny model of go-zero's rich logger (`core/logx/richlogger.go`). The rich logger
is a decorator that sits between call sites and the log writer. Each instance holds
three pieces of state:

- an optional request context;
- a caller-skip count;
- a list of accumulated fields.

Every terminal call (`Debug`, `Infof`, `Errorw`, `Slowv`, … sixteen in all) goes to
one of four dispatch routines. A dispatch routine asks the severity gate about its
level. If the gate rejects it, nothing happens. Otherwise it builds the final field
list and hands exactly one `(message, fields)` record to the writer's matching channel.
The field list is always built in this order:

1. accumulated fields;
2. explicit fields;
3. the caller field;
4. the trace field, if the trace id is non-empty;
5. the span field, if the span id is non-empty;
6. the fields stored in the context, if the stored value has the expected type.

Files:

- `logx.dfy` (module `Logx`) has the shared vocabulary: `LogField` and the `Value`s it
  carries, `Context`, `Level` and `Channel`. It also holds the collaborators the logger
  consults, bundled as an `Env`: the gate `shallLog`, the base depth `callerDepth`, the
  caller resolver `getCaller`, and the trace and span providers. Last, it has a
  `Writer` that records every call it receives.
- `richlogger.dfy` (module `RichLog`) has the logger's state as a value
  (`LoggerState`). It has the package-level constructors as functions and the fluent
  mutators as a `Mutation` datatype with `Apply`/`ApplyAll`. It defines the field-list
  specification `FieldsFor` and the per-dispatch output `Emitted`. The class
  `RichLogger` holds the three fields, updated in place. Its members are:
  - the three fluent mutators, which change one field each and return the receiver;
  - `BuildFields`, written as the source's chain of appends and proved equal to
    `FieldsFor`;
  - the four dispatch routines and the sixteen entry points.
- `richlogger_facts.dfy` (module `RichLogFacts`) has the lemmas:
  - the rules for field order and presence;
  - dispatch makes at most one writer call, and slow calls share the error gate;
  - over any sequence of calls (`Replay`), the writer receives exactly the calls the
    gate admits, in order, and successive calls on one object produce that `Replay`;
  - over any chain of fluent calls (`ApplyAll`), durations accumulate in order, and
    the last positive caller skip and the last context win; successive method calls on
    one object produce that `ApplyAll`.

Two details of the code that the model keeps as they are:

- The fluent mutators change the receiver in place and return it; the model's
  class methods do the same.
- A stored context value of another type is silently ignored:
  `ContextValue.OtherValue` is kept and proved to contribute nothing.

## Model

| member | source | states |
|---|---|---|
| `RichLog.WithCallerSkip` | core/logx/richlogger.go:12-21 | a skip of zero or less gives the default logger (no context, skip 0, no fields); a positive skip gives a logger with exactly that skip and nothing else set |
| `RichLog.WithContext` | core/logx/richlogger.go:23-28 | the logger is bound to the given context and has no skip and no fields |
| `RichLog.WithDuration` | core/logx/richlogger.go:30-35 | the logger has no context and no skip, and exactly one field, keyed `duration`, holding the rendered duration |
| `RichLog.RichLogger.constructor` | core/logx/richlogger.go:37-41 | a freshly allocated logger holds exactly the given context, skip and fields |
| `RichLog.RichLogger.WithCallerSkip` | core/logx/richlogger.go:107-114 | returns the receiver; a skip of zero or less changes nothing, and a positive skip replaces only `callerSkip`; the new state is the `SetCallerSkip` step of the mutation model |
| `RichLog.RichLogger.WithContext` | core/logx/richlogger.go:116-119 | returns the receiver; replaces only `ctx` |
| `RichLog.RichLogger.WithDuration` | core/logx/richlogger.go:121-124 | returns the receiver; `fields` grows by one, the earlier fields are kept as they were, the new last field is the `duration` field, and the context and skip do not change |
| `RichLog.RichLogger.BuildFields` | core/logx/richlogger.go:126-152 | the list built by the successive appends equals `FieldsFor`: accumulated, explicit, caller, then trace, span and context-injected fields, each under its presence rule |
| `RichLog.RichLogger.LogDebug` | core/logx/richlogger.go:154-158 | if the gate admits the debug level, the writer gets exactly one debug record, with the message unchanged and the built fields; otherwise the writer is untouched |
| `RichLog.RichLogger.LogError` | core/logx/richlogger.go:160-164 | the same rule for the error level and the error channel |
| `RichLog.RichLogger.LogInfo` | core/logx/richlogger.go:166-170 | the same rule for the info level and the info channel |
| `RichLog.RichLogger.LogSlow` | core/logx/richlogger.go:172-176 | gated on the error level, delivered to the slow channel |
| `RichLog.RichLogger.Debug` | core/logx/richlogger.go:43-45 | debug channel; the message is the `Sprint` of the values; no explicit fields |
| `RichLog.RichLogger.Debugf` | core/logx/richlogger.go:47-49 | debug channel; the message is the `Sprintf` of format and values |
| `RichLog.RichLogger.Debugv` | core/logx/richlogger.go:51-53 | debug channel; the value is passed through unchanged as the message |
| `RichLog.RichLogger.Debugw` | core/logx/richlogger.go:55-57 | debug channel; the literal message string and the explicit fields |
| `RichLog.RichLogger.Error` | core/logx/richlogger.go:59-61 | error channel; `Sprint` of the values |
| `RichLog.RichLogger.Errorf` | core/logx/richlogger.go:63-65 | error channel; `Sprintf` of format and values |
| `RichLog.RichLogger.Errorv` | core/logx/richlogger.go:67-69 | error channel; the value is stringified (`Sprint` of the one value), unlike the other `v` forms |
| `RichLog.RichLogger.Errorw` | core/logx/richlogger.go:71-73 | error channel; literal message and explicit fields |
| `RichLog.RichLogger.Info` | core/logx/richlogger.go:75-77 | info channel; `Sprint` of the values |
| `RichLog.RichLogger.Infof` | core/logx/richlogger.go:79-81 | info channel; `Sprintf` of format and values |
| `RichLog.RichLogger.Infov` | core/logx/richlogger.go:83-85 | info channel; value passed through unchanged |
| `RichLog.RichLogger.Infow` | core/logx/richlogger.go:87-89 | info channel; literal message and explicit fields |
| `RichLog.RichLogger.Slow` | core/logx/richlogger.go:91-93 | slow channel; `Sprint` of the values |
| `RichLog.RichLogger.Slowf` | core/logx/richlogger.go:95-97 | slow channel; `Sprintf` of format and values |
| `RichLog.RichLogger.Slowv` | core/logx/richlogger.go:99-101 | slow channel; value passed through unchanged |
| `RichLog.RichLogger.Sloww` | core/logx/richlogger.go:103-105 | slow channel; literal message and explicit fields |
| `Logx.Writer.Write` | core/logx/richlogger.go:156-174 | a recording writer standing for the four sink calls at lines 156, 162, 168 and 174: each call appends exactly one record to the channel it names |
| `RichLogFacts.NoContextFields` | core/logx/richlogger.go:127-132 | with no context, the list is the accumulated fields, then the explicit fields, then the caller field, so its length is their sum plus one |
| `RichLogFacts.CallerFieldPosition` | core/logx/richlogger.go:127-128 | the caller field is always present, at index (number of accumulated fields + number of explicit fields), resolved at depth `callerDepth + callerSkip`; the fields before it are the accumulated then the explicit ones |
| `RichLogFacts.EnrichmentTail` | core/logx/richlogger.go:130-151 | after the caller field: a trace field exactly when a context is bound and its trace id is non-empty, then a span field exactly when its span id is non-empty, then the context-injected fields, and nothing else |
| `RichLogFacts.TraceBeforeSpan` | core/logx/richlogger.go:134-142 | when both ids are present, the trace field comes right after the caller field and the span field right after the trace field |
| `RichLogFacts.StoredValueRule` | core/logx/richlogger.go:144-149 | a stored field list of the expected type ends the list, whole and in order; a missing value or a value of another type appends nothing |
| `RichLogFacts.FullContextRoundTrip` | core/logx/richlogger.go:126-152 | a context with both ids and an injected list gives exactly accumulated + explicit + caller + trace + span + injected, with nothing dropped and nothing repeated |
| `RichLogFacts.DispatchAtMostOnce` | core/logx/richlogger.go:154-176 | one dispatch produces at most one record; it produces one exactly when the gate admits the channel's level, on that channel, with the message unchanged and the fields of `FieldsFor` |
| `RichLogFacts.SlowSharesErrorGate` | core/logx/richlogger.go:160-176 | slow calls are suppressed exactly when error calls are; when admitted, the two records differ only in their channel |
| `RichLogFacts.ReplayDeliversAdmitted` | core/logx/richlogger.go:154-176 | over any sequence of calls through one logger, each call with its own gate setting and call site, the writer receives one record per call its gate admits, in call order, each with the call's channel and message and the fields built with that call's own caller resolver and providers |
| `RichLogFacts.ReplayOnlyAdmittedLevels` | core/logx/richlogger.go:154-176 | every admitted call passed its own gate, and when every call passes its gate all of them are admitted, in order |
| `RichLogFacts.AdmittedSnoc` | core/logx/richlogger.go:154-176 | a call appended to any sequence is admitted, after all earlier admitted calls, exactly when its own gate passes it; together with the previous row this fixes the admitted calls as exactly the passing ones, in order |
| `RichLogFacts.ReplaySnoc` | core/logx/richlogger.go:154-176 | one more call adds exactly what its own dispatch emits after what the earlier calls produced |
| `RichLogFacts.Dispatch` | core/logx/richlogger.go:43-105 | routing one call by channel to its dispatch routine adds exactly that channel's `Emitted` records to the writer |
| `RichLogFacts.DispatchExtendsReplay` | core/logx/richlogger.go:154-176 | on one instance, if the writer holds a sequence's `Replay`, one more call leaves the longer sequence's `Replay`; so any sequence of calls on the object yields its `Replay` |
| `RichLogFacts.TwoCalls` | core/logx/richlogger.go:154-176 | two successive calls on one instance leave the writer with the `Replay` of both, in order |
| `RichLogFacts.ReplaySilentWhenGated` | core/logx/richlogger.go:154-176 | when each call's gate rejects it, the writer receives nothing |
| `RichLogFacts.PackageFormsAreFluentFromDefault` | core/logx/richlogger.go:12-35 | each package-level constructor yields the state its fluent method would leave on a default logger |
| `RichLogFacts.ApplyAllFields` | core/logx/richlogger.go:121-124 | over any chain of fluent calls, the earlier fields are kept and one duration field is appended per `WithDuration`, in call order |
| `RichLogFacts.CallerSkipUntouched` | core/logx/richlogger.go:107-114 | a chain without a positive `WithCallerSkip` leaves the skip unchanged |
| `RichLogFacts.LastCallerSkipWins` | core/logx/richlogger.go:107-114 | the last positive `WithCallerSkip` of a chain decides the skip |
| `RichLogFacts.ContextUntouched` | core/logx/richlogger.go:116-119 | a chain without `WithContext` leaves the context unchanged |
| `RichLogFacts.LastContextWins` | core/logx/richlogger.go:116-119 | the last `WithContext` of a chain decides the context |
| `RichLogFacts.ApplyAllSnoc` | core/logx/richlogger.go:107-124 | one more mutator appended to a chain acts on the state the chain left |
| `RichLogFacts.Mutate` | core/logx/richlogger.go:107-124 | one fluent method call on the object returns it and leaves the `Apply` of its mutation |
| `RichLogFacts.MutateExtendsChain` | core/logx/richlogger.go:107-124 | if the object holds a chain's `ApplyAll`, one more fluent method call leaves the longer chain's `ApplyAll`; so any chain of method calls on one instance yields its `ApplyAll` |
| `RichLogFacts.Chain` | core/logx/richlogger.go:107-124 | two chained fluent method calls on one instance leave the `ApplyAll` of both, and return the receiver |

## Left out

- The real writer (`getWriter()`) and its output. The model has a recording `Writer`
  that keeps every record it receives.
- The process-wide level store behind `shallLog`. The gate is the `Env.shallLog`
  parameter, taken as arbitrary.
- Caller-stack inspection (`getCaller`) and the OpenTelemetry span-context calls at
  core/logx/richlogger.go:178-194. These are foreign runtime and library code, so they
  are uninterpreted `Env` functions that return strings. The trace and span providers
  take the whole `Context`.
- The value of `callerDepth` and of the key constants. They are defined in other logx
  files, which are not part of this model. `callerDepth` is the `Env.callerDepth`
  parameter. The keys are go-zero's logx constants `caller`, `trace`, `span` and
  `duration`.
- `Field` (in the logx fields file) is not part of this model. Every value this file
  passes to it is a string, so the model builds the `LogField` pair directly.
- String formatting (`fmt.Sprint`, `fmt.Sprintf`, `timex.ReprOfDuration`). These are
  foreign. The model records what was formatted rather than the resulting string, as
  the `Value` constructors `Sprint`, `Sprintf` and `DurationText`. Two messages equal
  as Go strings but made differently (`Info("a", "b")` and `Infof("%s%s", "a", "b")`)
  are therefore distinct values in the model.
- Go's dynamic type assertion on the stored context value. It is replaced by the
  three-way `ContextValue` datatype. A typed-nil `[]LogField` behaves as an empty
  `FieldList`.
- Go slice aliasing in `append(l.fields, ...)`, and concurrent use of a shared
  instance. Fields are a value `seq`, so the model cannot show one instance's fields
  being overwritten through another's.
- Go's fixed-width `int`. `callerDepth + callerSkip` is unbounded here, so overflow for
  huge skips is not modelled. `callerSkip` is a `nat`, because only positive skips are
  ever stored.
- That a gated-out call builds no fields is not stated as a contract. `buildFields` is
  only called inside the gate's branch, and the model's dispatch routines do the same,
  but `BuildFields` has no visible effect for a contract to mention.
- The `Logger` interface type of the results. The fluent methods return the
  `RichLogger` object itself.
