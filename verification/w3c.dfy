/**
 * The W3C trace-context propagator (`propagatorW3c` in ddtrace/tracer/textmap.go): injection
 * writes `traceparent` and `tracestate`; extraction is not implemented and panics.
 */
module W3C {
  import opened Base
  import opened Text
  import opened Numbers
  import opened Carrier
  import opened Context
  import opened Tracestate

  const TraceparentHeader: string := "traceparent"
  const TracestateHeader: string := "tracestate"

  /** The trace-flags field: sampled (`01`) when a priority of at least `PriorityAutoKeep` is set. */
  function Flags(ctx: SpanContext): (f: string)
    ensures f == "01" <==> ctx.priority.Some? && ctx.priority.value >= PriorityAutoKeep
    ensures f == "01" || f == "00"
  {
    if ctx.priority.Some? && ctx.priority.value >= PriorityAutoKeep then "01" else "00"
  }

  /** `00-%032x-%016x-<flags>`: version, the 64-bit trace ID widened to 128 bits, span ID, flags. */
  function Traceparent(ctx: SpanContext): string {
    "00-" + Hex32(ctx.traceID) + "-" + Hex16(ctx.spanID) + "-" + Flags(ctx)
  }

  /** The `traceparent` value has the fixed 55-byte layout and its fields read back as the IDs and the sampling decision. */
  lemma TraceparentFields(ctx: SpanContext)
    ensures var tp := Traceparent(ctx);
      && |tp| == 55
      && tp[..3] == "00-" && tp[35] == '-' && tp[52] == '-'
      && tp[3..19] == "0000000000000000"
      && ParseHex(tp[19..35]) == Some(ctx.traceID)
      && ParseHex(tp[36..52]) == Some(ctx.spanID)
      && (tp[53..] == "01" <==> ctx.priority.Some? && ctx.priority.value >= PriorityAutoKeep)
  {
    var tp := Traceparent(ctx);
    Hex32IsPaddedHex16(ctx.traceID);
    ParseHex16(ctx.traceID);
    ParseHex16(ctx.spanID);
    assert tp[19..35] == Hex16(ctx.traceID);
    assert tp[36..52] == Hex16(ctx.spanID);
    assert tp[53..] == Flags(ctx);
  }

  /** `ctx.trace.propagatingTags["tracestate"]`: the stored value, "" when absent. */
  function StoredState(t: TraceState): string {
    var tags := t.PropagatingTags();
    if TracestateHeader in tags then tags[TracestateHeader] else ""
  }

  /**
   * Whether `tracestate` is composed afresh: the context was updated since extraction, or it
   * has propagating tags (a non-nil map) whose stored value is not a `dd=` list.
   */
  predicate Recompose(ctx: SpanContext)
    requires ctx.trace.Some?
  {
    ctx.updated || (ctx.trace.value.propagatingTags.Some? && !HasPrefix(StoredState(ctx.trace.value), "dd="))
  }

  /**
   * `injectTextMap` for the W3C format: the writes, in order, and the outcome. A nil trace
   * panics after `traceparent` is written, and so does `composeTracestate` when it panics.
   */
  function InjectPlan(arg: InjectedContext, writable: bool, tagOrder: seq<string>): (r: Injection)
    requires arg.Own? ==> TagOrderFits(arg.ctx, tagOrder)
    ensures r.ctx == arg
  {
    if !writable then Injection([], Some(ErrInvalidCarrier), arg)
    else if arg.Foreign? || arg.ctx.traceID == 0 || arg.ctx.spanID == 0 then Injection([], Some(ErrInvalidSpanContext), arg)
    else
      var ctx := arg.ctx;
      var tp := (TraceparentHeader, Traceparent(ctx));
      if ctx.trace.None? then Injection([tp], Some(Panic("nil pointer dereference")), arg)
      else
        var stored := StoredState(ctx.trace.value);
        if Recompose(ctx) then
          match Compose(ctx, PriorityValue(ctx), stored, tagOrder)
          case Ok(ts) => Injection([tp, (TracestateHeader, ts)], None, arg)
          case Err(e) => Injection([tp], Some(e), arg)
        else Injection([tp, (TracestateHeader, stored)], None, arg)
  }

  /**
   * The outcomes of the W3C injection: an invalid carrier or span context writes nothing;
   * otherwise `traceparent` comes first; a nil trace panics after it; on success `tracestate`
   * follows, either the stored value or a freshly composed `dd=s:<p>;...` list.
   */
  lemma InjectPlanOutcomes(arg: InjectedContext, writable: bool, tagOrder: seq<string>)
    requires arg.Own? ==> TagOrderFits(arg.ctx, tagOrder)
    ensures var r := InjectPlan(arg, writable, tagOrder);
      && (!writable ==> r.err == Some(ErrInvalidCarrier) && r.writes == [])
      && (writable && (arg.Foreign? || arg.ctx.traceID == 0 || arg.ctx.spanID == 0) ==>
          r.err == Some(ErrInvalidSpanContext) && r.writes == [])
      && (writable && arg.Own? && arg.ctx.traceID != 0 && arg.ctx.spanID != 0 ==>
          1 <= |r.writes| <= 2 && r.writes[0] == (TraceparentHeader, Traceparent(arg.ctx)))
      && (writable && arg.Own? && arg.ctx.trace.None? && arg.ctx.traceID != 0 && arg.ctx.spanID != 0 ==>
          r.err == Some(Panic("nil pointer dereference")))
      && (r.err.None? ==> arg.Own? && arg.ctx.trace.Some? && |r.writes| == 2 && r.writes[1].0 == TracestateHeader)
      && (r.err.None? && !Recompose(arg.ctx) ==> r.writes[1].1 == StoredState(arg.ctx.trace.value))
      && (r.err.None? && Recompose(arg.ctx) ==> HasPrefix(r.writes[1].1, "dd=s:" + Itoa(PriorityValue(arg.ctx)) + ";"))
  {
  }

  /** `Inject` for the W3C format, writing into a `TextMapCarrier` (null: not a writer). */
  method Inject(arg: InjectedContext, carrier: TextMapCarrier?, tagOrder: seq<string>) returns (err: Option<Error>)
    requires arg.Own? ==> TagOrderFits(arg.ctx, tagOrder)
    modifies carrier
    ensures var plan := InjectPlan(arg, carrier != null, tagOrder);
      err == plan.err && (carrier != null ==> carrier.entries == ApplySets(old(carrier.entries), plan.writes))
  {
    if carrier == null {
      return Some(ErrInvalidCarrier);
    }
    if arg.Foreign? || arg.ctx.traceID == 0 || arg.ctx.spanID == 0 {
      return Some(ErrInvalidSpanContext);
    }
    var ctx := arg.ctx;
    var flags := if ctx.priority.Some? && ctx.priority.value >= PriorityAutoKeep then "01" else "00";
    var tp := "00-" + Hex32(ctx.traceID) + "-" + Hex16(ctx.spanID) + "-" + flags;
    carrier.Set(TraceparentHeader, tp);
    ApplySetsSnoc(old(carrier.entries), [], TraceparentHeader, tp);
    if ctx.trace.None? {
      return Some(Panic("nil pointer dereference"));
    }
    var tags := ctx.trace.value.PropagatingTags();
    var stored := if TracestateHeader in tags then tags[TracestateHeader] else "";
    var ts := stored;
    if ctx.updated || (ctx.trace.value.propagatingTags.Some? && !HasPrefix(stored, "dd=")) {
      var composed := ComposeTracestate(ctx, PriorityValue(ctx), stored, tagOrder);
      if composed.Err? {
        return Some(composed.error);
      }
      ts := composed.value;
    }
    carrier.Set(TracestateHeader, ts);
    ApplySetsSnoc(old(carrier.entries), [(TraceparentHeader, tp)], TracestateHeader, ts);
    assert [(TraceparentHeader, tp)] + [(TracestateHeader, ts)] == [(TraceparentHeader, tp), (TracestateHeader, ts)];
    return None;
  }

  /** A `dd=` state carried over from extraction, with nothing updated since, is written back verbatim. */
  lemma InjectPassesStoredState(ctx: SpanContext, tagOrder: seq<string>)
    requires TagOrderFits(ctx, tagOrder) && ctx.traceID != 0 && ctx.spanID != 0
    requires ctx.trace.Some? && !ctx.updated && HasPrefix(StoredState(ctx.trace.value), "dd=")
    ensures InjectPlan(Own(ctx), true, tagOrder) ==
      Injection([(TraceparentHeader, Traceparent(ctx)), (TracestateHeader, StoredState(ctx.trace.value))], None, Own(ctx))
  {
  }

  /**
   * An updated context with no origin and no `_dd.p.` tags gets a fresh `dd=s:<p>;,` state
   * when nothing was stored: the previous value's (empty) segment leaves a trailing `,`.
   */
  lemma InjectFreshState(ctx: SpanContext, tagOrder: seq<string>)
    requires TagOrderFits(ctx, tagOrder) && ctx.traceID != 0 && ctx.spanID != 0
    requires ctx.trace.Some? && ctx.updated && ctx.origin == "" && StoredState(ctx.trace.value) == ""
    requires forall i :: 0 <= i < |tagOrder| ==> !HasPrefix(tagOrder[i], DDTagPrefix)
    ensures InjectPlan(Own(ctx), true, tagOrder).writes ==
      [(TraceparentHeader, Traceparent(ctx)), (TracestateHeader, "dd=s:" + Itoa(PriorityValue(ctx)) + ";,")]
  {
    ComposeBare(ctx, PriorityValue(ctx), tagOrder);
  }

  /** `Extract` is unimplemented: every call panics with "implement me". */
  function ExtractResult(reader: Reader): (r: Result<SpanContext, Error>)
    ensures r.Err? && r.error.Panic?
  {
    Err(Panic("implement me"))
  }
}
