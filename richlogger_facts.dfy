/**
  What the rich logger promises: the order and presence rules of the field
  list, the gate-then-one-record rule of dispatch, and how chains of fluent
  mutator calls and sequences of log calls compose.
 */
module RichLogFacts {
  import opened Logx
  import opened RichLog

  // ---------------------------------------------------------------- fields

  /** Without a context a record carries the accumulated fields, the explicit
      fields and the caller field, and nothing else. */
  lemma NoContextFields(s: LoggerState, env: Env, explicit: seq<LogField>)
    requires s.ctx.None?
    ensures FieldsFor(s, env, explicit)
      == s.fields + explicit + [LogField(CallerKey, Str(env.getCaller(env.callerDepth + s.callerSkip)))]
    ensures |FieldsFor(s, env, explicit)| == |s.fields| + |explicit| + 1
  {
  }

  /** The caller field is always present, right after the accumulated and
      explicit fields, and is resolved at the base depth plus the skip. */
  lemma CallerFieldPosition(s: LoggerState, env: Env, explicit: seq<LogField>)
    ensures |s.fields| + |explicit| < |FieldsFor(s, env, explicit)|
    ensures FieldsFor(s, env, explicit)[..|s.fields| + |explicit|] == s.fields + explicit
    ensures FieldsFor(s, env, explicit)[|s.fields| + |explicit|]
      == LogField(CallerKey, Str(env.getCaller(env.callerDepth + s.callerSkip)))
  {
  }

  /** The tail after the caller field: a trace field exactly when a context
      is bound and its trace id is non-empty, then a span field under the same
      rule for the span id, then the context-injected fields. */
  lemma EnrichmentTail(s: LoggerState, env: Env, explicit: seq<LogField>)
    ensures var r := FieldsFor(s, env, explicit);
      var k := |s.fields| + |explicit| + 1;
      var hasTrace := s.ctx.Some? && env.traceIdFromContext(s.ctx.value) != "";
      var hasSpan := s.ctx.Some? && env.spanIdFromContext(s.ctx.value) != "";
      var t := if hasTrace then 1 else 0;
      var p := if hasSpan then 1 else 0;
      && |r| == k + t + p + |StoredFields(s.ctx)|
      && (hasTrace ==> r[k] == LogField(TraceKey, Str(env.traceIdFromContext(s.ctx.value))))
      && (hasSpan ==> r[k + t] == LogField(SpanKey, Str(env.spanIdFromContext(s.ctx.value))))
      && r[k + t + p..] == StoredFields(s.ctx)
  {
  }

  /** When both ids are present, the trace field comes immediately before the
      span field. */
  lemma TraceBeforeSpan(s: LoggerState, env: Env, explicit: seq<LogField>, c: Context)
    requires s.ctx == Some(c)
    requires env.traceIdFromContext(c) != "" && env.spanIdFromContext(c) != ""
    ensures var k := |s.fields| + |explicit| + 1;
      && k + 1 < |FieldsFor(s, env, explicit)|
      && FieldsFor(s, env, explicit)[k] == LogField(TraceKey, Str(env.traceIdFromContext(c)))
      && FieldsFor(s, env, explicit)[k + 1] == LogField(SpanKey, Str(env.spanIdFromContext(c)))
  {
    EnrichmentTail(s, env, explicit);
  }

  /** A stored value of the expected type is appended whole, in order, at the
      end; any other stored value (or none) appends nothing. */
  lemma StoredValueRule(s: LoggerState, env: Env, explicit: seq<LogField>, c: Context)
    requires s.ctx == Some(c)
    ensures var r := FieldsFor(s, env, explicit);
      && (c.stored.FieldList? ==> |c.stored.fields| <= |r| && r[|r| - |c.stored.fields|..] == c.stored.fields)
      && (!c.stored.FieldList? ==>
            r == s.fields + explicit + [CallerField(s, env)] + TraceFields(s.ctx, env) + SpanFields(s.ctx, env))
  {
  }

  /** A context with both ids and an injected list yields exactly the caller,
      trace, span and all injected fields after the accumulated and explicit
      ones: nothing dropped, nothing repeated. */
  lemma FullContextRoundTrip(s: LoggerState, env: Env, explicit: seq<LogField>, c: Context, injected: seq<LogField>)
    requires s.ctx == Some(c) && c.stored == FieldList(injected)
    requires env.traceIdFromContext(c) != "" && env.spanIdFromContext(c) != ""
    ensures FieldsFor(s, env, explicit)
      == s.fields + explicit
         + [ LogField(CallerKey, Str(env.getCaller(env.callerDepth + s.callerSkip))),
             LogField(TraceKey, Str(env.traceIdFromContext(c))),
             LogField(SpanKey, Str(env.spanIdFromContext(c))) ]
         + injected
  {
  }

  // -------------------------------------------------------------- dispatch

  /** Each dispatch makes no sink call when the gate rejects its level and
      otherwise exactly one, on its own channel, with the message unchanged. */
  lemma DispatchAtMostOnce(s: LoggerState, env: Env, c: Channel, v: Value, explicit: seq<LogField>)
    ensures |Emitted(s, env, c, v, explicit)| <= 1
    ensures Emitted(s, env, c, v, explicit) != [] <==> env.shallLog(LevelOf(c))
    ensures forall r | r in Emitted(s, env, c, v, explicit) ::
      r.channel == c && r.message == v && r.fields == FieldsFor(s, env, explicit)
  {
  }

  /** Slow calls pass the gate exactly when error calls do, and then differ
      from them only in the channel. */
  lemma SlowSharesErrorGate(s: LoggerState, env: Env, v: Value, explicit: seq<LogField>)
    ensures Emitted(s, env, SlowChannel, v, explicit) == [] <==> Emitted(s, env, ErrorChannel, v, explicit) == []
    ensures Emitted(s, env, SlowChannel, v, explicit) != [] ==>
      && Emitted(s, env, SlowChannel, v, explicit) == [Record(SlowChannel, v, FieldsFor(s, env, explicit))]
      && Emitted(s, env, ErrorChannel, v, explicit) == [Record(ErrorChannel, v, FieldsFor(s, env, explicit))]
  {
  }

  /** One terminal call: its channel, its message, its explicit fields, and
      the collaborators as they stand at that call (the gate's setting and the
      call site the caller resolver sees can differ from call to call). */
  datatype Call = Call(channel: Channel, message: Value, explicit: seq<LogField>, env: Env)

  predicate Passes(c: Call) {
    c.env.shallLog(LevelOf(c.channel))
  }

  /** The calls the gate lets through, in order. */
  function Admitted(calls: seq<Call>): seq<Call>
    decreases |calls|
  {
    if |calls| == 0 then []
    else (if Passes(calls[0]) then [calls[0]] else []) + Admitted(calls[1..])
  }

  function RecordOf(s: LoggerState, c: Call): Record {
    Record(c.channel, c.message, FieldsFor(s, c.env, c.explicit))
  }

  /** What the writer receives from a sequence of calls through one logger. */
  function Replay(s: LoggerState, calls: seq<Call>): seq<Record>
    decreases |calls|
  {
    if |calls| == 0 then []
    else Emitted(s, calls[0].env, calls[0].channel, calls[0].message, calls[0].explicit) + Replay(s, calls[1..])
  }

  /** The writer receives one record per admitted call, in call order, each
      built with that call's own collaborators, and none for a gated call. */
  lemma {:induction false} ReplayDeliversAdmitted(s: LoggerState, calls: seq<Call>)
    ensures |Replay(s, calls)| == |Admitted(calls)| <= |calls|
    ensures forall i | 0 <= i < |Admitted(calls)| ::
      Replay(s, calls)[i] == RecordOf(s, Admitted(calls)[i])
    decreases |calls|
  {
    if |calls| != 0 {
      ReplayDeliversAdmitted(s, calls[1..]);
    }
  }

  /** Every admitted call passed its gate, and a sequence of passing calls is
      admitted whole; `AdmittedSnoc` gives the ordering rule for mixed
      sequences. */
  lemma {:induction false} ReplayOnlyAdmittedLevels(s: LoggerState, calls: seq<Call>)
    ensures forall i | 0 <= i < |Admitted(calls)| :: Passes(Admitted(calls)[i])
    ensures (forall i | 0 <= i < |calls| :: Passes(calls[i])) ==> Admitted(calls) == calls
    decreases |calls|
  {
    if |calls| != 0 {
      ReplayOnlyAdmittedLevels(s, calls[1..]);
      assert forall i | 0 <= i < |calls[1..]| :: calls[1..][i] == calls[i + 1];
      if forall i | 0 <= i < |calls| :: Passes(calls[i]) {
        assert Passes(calls[0]);
        assert [calls[0]] + calls[1..] == calls;
      }
    }
  }

  /** Admission keeps call order and decides each call on its own gate: a
      call appended to a sequence is admitted, after all the earlier admitted
      calls, exactly when it passes. */
  lemma {:induction false} AdmittedSnoc(calls: seq<Call>, c: Call)
    ensures Admitted(calls + [c]) == Admitted(calls) + (if Passes(c) then [c] else [])
    decreases |calls|
  {
    if |calls| == 0 {
      assert calls + [c] == [c];
      assert [c][1..] == [];
    } else {
      var head := if Passes(calls[0]) then [calls[0]] else [];
      var tail := if Passes(c) then [c] else [];
      assert (calls + [c])[0] == calls[0];
      assert (calls + [c])[1..] == calls[1..] + [c];
      assert Admitted(calls + [c]) == head + Admitted(calls[1..] + [c]);
      AdmittedSnoc(calls[1..], c);
      assert Admitted(calls) == head + Admitted(calls[1..]);
      calc {
        Admitted(calls + [c]);
        head + (Admitted(calls[1..]) + tail);
        (head + Admitted(calls[1..])) + tail;
      }
    }
  }

  /** One more call appends exactly what its own dispatch emits. */
  lemma {:induction false} ReplaySnoc(s: LoggerState, calls: seq<Call>, c: Call)
    ensures Replay(s, calls + [c]) == Replay(s, calls) + Emitted(s, c.env, c.channel, c.message, c.explicit)
    decreases |calls|
  {
    if |calls| == 0 {
      assert calls + [c] == [c];
      assert [c][1..] == [];
    } else {
      assert (calls + [c])[1..] == calls[1..] + [c];
      ReplaySnoc(s, calls[1..], c);
    }
  }

  /** One terminal call through the logger, routed by channel as the entry
      points route it. */
  method Dispatch(l: RichLogger, w: Writer, c: Call)
    modifies w
    ensures w.records == old(w.records) + Emitted(l.State(), c.env, c.channel, c.message, c.explicit)
  {
    match c.channel
    case DebugChannel => l.LogDebug(c.env, w, c.message, c.explicit);
    case InfoChannel => l.LogInfo(c.env, w, c.message, c.explicit);
    case ErrorChannel => l.LogError(c.env, w, c.message, c.explicit);
    case SlowChannel => l.LogSlow(c.env, w, c.message, c.explicit);
  }

  /** If the writer holds what a sequence of calls through `l` produced, one
      more call through `l` leaves what the longer sequence produces: so any
      sequence of calls on one instance yields its `Replay`. */
  method DispatchExtendsReplay(l: RichLogger, w: Writer, ghost before: seq<Record>, ghost calls: seq<Call>, c: Call)
    requires w.records == before + Replay(l.State(), calls)
    modifies w
    ensures w.records == before + Replay(l.State(), calls + [c])
  {
    Dispatch(l, w, c);
    ReplaySnoc(l.State(), calls, c);
  }

  /** Two successive calls on one instance, as the writer sees them. */
  method TwoCalls(l: RichLogger, w: Writer, a: Call, b: Call)
    modifies w
    ensures w.records == old(w.records) + Replay(l.State(), [a, b])
  {
    ghost var before := w.records;
    assert Replay(l.State(), []) == [];
    DispatchExtendsReplay(l, w, before, [], a);
    assert [] + [a] == [a];
    DispatchExtendsReplay(l, w, before, [a], b);
    assert [a] + [b] == [a, b];
  }

  /** When the gate rejects every call, the writer is never invoked. */
  lemma {:induction false} ReplaySilentWhenGated(s: LoggerState, calls: seq<Call>)
    requires forall i | 0 <= i < |calls| :: !Passes(calls[i])
    ensures Replay(s, calls) == []
    decreases |calls|
  {
    if |calls| != 0 {
      assert !Passes(calls[0]);
      assert forall i | 0 <= i < |calls[1..]| :: calls[1..][i] == calls[i + 1];
      ReplaySilentWhenGated(s, calls[1..]);
    }
  }

  // ------------------------------------------------------------- mutators

  /** Each package-level constructor gives the state its fluent method leaves
      on a default logger. */
  lemma PackageFormsAreFluentFromDefault(skip: int, ctx: Option<Context>, d: int)
    ensures WithCallerSkip(skip) == Apply(Default(), SetCallerSkip(skip))
    ensures WithContext(ctx) == Apply(Default(), SetContext(ctx))
    ensures WithDuration(d) == Apply(Default(), AddDuration(d))
  {
  }

  /** The duration fields a chain of mutator calls appends, in order. */
  function DurationFields(ms: seq<Mutation>): seq<LogField>
    decreases |ms|
  {
    if ms == [] then []
    else (if ms[0].AddDuration? then [DurationField(ms[0].d)] else []) + DurationFields(ms[1..])
  }

  /** A chain of mutator calls keeps the earlier fields and appends one
      duration field per `WithDuration` call, in call order. */
  lemma {:induction false} ApplyAllFields(s: LoggerState, ms: seq<Mutation>)
    ensures ApplyAll(s, ms).fields == s.fields + DurationFields(ms)
    decreases |ms|
  {
    if ms != [] {
      ApplyAllFields(Apply(s, ms[0]), ms[1..]);
    }
  }

  predicate SetsSkip(m: Mutation) {
    m.SetCallerSkip? && m.skip > 0
  }

  /** A chain with no positive `WithCallerSkip` leaves the skip as it was. */
  lemma {:induction false} CallerSkipUntouched(s: LoggerState, ms: seq<Mutation>)
    requires forall j | 0 <= j < |ms| :: !SetsSkip(ms[j])
    ensures ApplyAll(s, ms).callerSkip == s.callerSkip
    decreases |ms|
  {
    if ms != [] {
      assert !SetsSkip(ms[0]);
      assert forall j | 0 <= j < |ms[1..]| :: ms[1..][j] == ms[j + 1];
      CallerSkipUntouched(Apply(s, ms[0]), ms[1..]);
    }
  }

  /** The last positive `WithCallerSkip` of a chain decides the skip. */
  lemma {:induction false} LastCallerSkipWins(s: LoggerState, ms: seq<Mutation>, i: nat)
    requires i < |ms| && SetsSkip(ms[i])
    requires forall j | i < j < |ms| :: !SetsSkip(ms[j])
    ensures ApplyAll(s, ms).callerSkip == ms[i].skip
    decreases |ms|
  {
    assert forall j | 0 <= j < |ms[1..]| :: ms[1..][j] == ms[j + 1];
    if i == 0 {
      CallerSkipUntouched(Apply(s, ms[0]), ms[1..]);
    } else {
      LastCallerSkipWins(Apply(s, ms[0]), ms[1..], i - 1);
    }
  }

  /** A chain with no `WithContext` leaves the context as it was. */
  lemma {:induction false} ContextUntouched(s: LoggerState, ms: seq<Mutation>)
    requires forall j | 0 <= j < |ms| :: !ms[j].SetContext?
    ensures ApplyAll(s, ms).ctx == s.ctx
    decreases |ms|
  {
    if ms != [] {
      assert !ms[0].SetContext?;
      assert forall j | 0 <= j < |ms[1..]| :: ms[1..][j] == ms[j + 1];
      ContextUntouched(Apply(s, ms[0]), ms[1..]);
    }
  }

  /** The last `WithContext` of a chain decides the context. */
  lemma {:induction false} LastContextWins(s: LoggerState, ms: seq<Mutation>, i: nat)
    requires i < |ms| && ms[i].SetContext?
    requires forall j | i < j < |ms| :: !ms[j].SetContext?
    ensures ApplyAll(s, ms).ctx == ms[i].ctx
    decreases |ms|
  {
    assert forall j | 0 <= j < |ms[1..]| :: ms[1..][j] == ms[j + 1];
    if i == 0 {
      ContextUntouched(Apply(s, ms[0]), ms[1..]);
    } else {
      LastContextWins(Apply(s, ms[0]), ms[1..], i - 1);
    }
  }

  /** One more mutator appended to a chain acts on the state the chain left. */
  lemma {:induction false} ApplyAllSnoc(s: LoggerState, ms: seq<Mutation>, m: Mutation)
    ensures ApplyAll(s, ms + [m]) == Apply(ApplyAll(s, ms), m)
    decreases |ms|
  {
    if ms == [] {
      assert ms + [m] == [m];
      assert [m][1..] == [];
    } else {
      assert (ms + [m])[1..] == ms[1..] + [m];
      ApplyAllSnoc(Apply(s, ms[0]), ms[1..], m);
    }
  }

  /** One fluent method call on the object, chosen by the mutation. */
  method Mutate(l: RichLogger, m: Mutation) returns (r: RichLogger)
    modifies l
    ensures r == l
    ensures l.State() == Apply(old(l.State()), m)
  {
    match m
    case SetCallerSkip(skip) => r := l.WithCallerSkip(skip);
    case SetContext(ctx) => r := l.WithContext(ctx);
    case AddDuration(d) => r := l.WithDuration(d);
  }

  /** If the object holds what a chain of fluent calls left, one more fluent
      call leaves what the longer chain leaves: so any chain of method calls
      on one instance yields its `ApplyAll`. */
  method MutateExtendsChain(l: RichLogger, ghost s0: LoggerState, ghost ms: seq<Mutation>, m: Mutation)
    returns (r: RichLogger)
    requires l.State() == ApplyAll(s0, ms)
    modifies l
    ensures r == l
    ensures l.State() == ApplyAll(s0, ms + [m])
  {
    r := Mutate(l, m);
    ApplyAllSnoc(s0, ms, m);
  }

  /** Two chained fluent calls on one instance. */
  method Chain(l: RichLogger, m1: Mutation, m2: Mutation) returns (r: RichLogger)
    modifies l
    ensures r == l
    ensures l.State() == ApplyAll(old(l.State()), [m1, m2])
  {
    ghost var s0 := l.State();
    assert ApplyAll(s0, []) == s0;
    r := MutateExtendsChain(l, s0, [], m1);
    assert [] + [m1] == [m1];
    r := MutateExtendsChain(r, s0, [m1], m2);
    assert [m1] + [m2] == [m1, m2];
  }
}
