/**
 * The span context that crosses process boundaries, the per-trace state it refers to, the
 * errors propagators report, and the helpers from elsewhere in the tracer that the
 * propagators call.
 */
module Context {
  import opened Base
  import opened Carrier
  import opened Numbers

  /**
   * The outcomes a propagator reports. The first four are the tracer's exported errors;
   * `Panic` stands for a Go run-time panic (or an explicit `panic`) on that path, which
   * unwinds through the chained propagator just as an error return aborts it.
   */
  datatype Error =
    | ErrInvalidCarrier
    | ErrInvalidSpanContext
    | ErrSpanContextNotFound
    | ErrSpanContextCorrupted
    | Panic(reason: string)

  /** The trace tag under which propagation problems are recorded. */
  const KeyPropagationError: string := "_dd.propagation_error"

  /**
   * The parts of the per-trace state the propagators touch: the propagating tags (a Go map
   * that may be nil, modelled as None) and the trace-level tags written by `setTag`.
   */
  datatype TraceState = TraceState(propagatingTags: Option<map<string, string>>, tags: map<string, string>) {
    /** Reading the propagating tags, where a nil map reads as empty. */
    function PropagatingTags(): map<string, string> {
      propagatingTags.GetOr(map[])
    }

    /** `trace.setTag`: records one trace-level tag. */
    function SetTag(key: string, value: string): (t: TraceState)
      ensures t.propagatingTags == propagatingTags
      ensures key in t.tags && t.tags[key] == value
      ensures forall k :: k != key ==> (k in t.tags <==> k in tags)
    {
      this.(tags := tags[key := value])
    }
  }

  /** `newTrace()`: a fresh trace with no propagating tags (a nil map) and no tags. */
  const NewTrace: TraceState := TraceState(None, map[])

  /**
   * The tracer's `spanContext`: 64-bit trace and span IDs (zero means absent), the sampling
   * priority if one was decided, the origin, the baggage items, the `updated` flag and the
   * trace the context belongs to (None for a nil trace).
   */
  datatype SpanContext = SpanContext(
    traceID: U64,
    spanID: U64,
    priority: Option<Int64>,
    origin: string,
    baggage: map<string, string>,
    updated: bool,
    trace: Option<TraceState>)

  /** The zero value `var ctx spanContext` that extraction starts from. */
  const EmptySpanContext: SpanContext := SpanContext(0, 0, None, "", map[], false, None)

  /** `ctx.samplingPriority()`: the priority, reading 0 when none is set. */
  function PriorityValue(ctx: SpanContext): int {
    if ctx.priority.Some? then ctx.priority.value else 0
  }

  /** The `ext.PriorityAutoKeep` sampling priority. */
  const PriorityAutoKeep: int := 1

  /**
   * The `ddtrace.SpanContext` interface value handed to `Inject`: one of this tracer's
   * `*spanContext` values, or a span context of some other implementation.
   */
  datatype InjectedContext = Own(ctx: SpanContext) | Foreign

  /**
   * Helpers defined in files that are not part of this model, taken as parameters:
   * `parseUint64`, `isValidPropagatableTag` (true when it returns no error) and
   * `parsePropagatableTraceTags` (the map it returns, None for nil, and whether it failed).
   */
  datatype Helpers = Helpers(
    parseUint64: string -> Option<U64>,
    isValidPropagatableTag: (string, string) -> bool,
    parsePropagatableTraceTags: string -> (Option<map<string, string>>, bool))

  /** `parseUint64` reads back every base-10 form `strconv.FormatUint` produces. */
  ghost predicate ParsesDecimal(h: Helpers) {
    forall x: U64 :: h.parseUint64(Decimal(x)) == Some(x)
  }

  /**
   * What one injector does: the `Set` calls it makes on the carrier, in order, the error it
   * returns, and the span context as it leaves it (injection may record a tag on the trace).
   */
  datatype Injection = Injection(writes: seq<(string, string)>, err: Option<Error>, ctx: InjectedContext)

  /** The map orders an injection needs fit the context: one for the baggage, one for the tags. */
  predicate OrdersFit(arg: InjectedContext, bagOrder: seq<string>, tagOrder: seq<string>) {
    arg.Own? ==>
      && IsKeyOrder(bagOrder, arg.ctx.baggage)
      && (arg.ctx.trace.Some? ==> IsKeyOrder(tagOrder, arg.ctx.trace.value.PropagatingTags()))
  }

  /** The tag order fits the context's trace (any order will do for a nil trace). */
  predicate TagOrderFits(ctx: SpanContext, order: seq<string>) {
    ctx.trace.Some? ==> IsKeyOrder(order, ctx.trace.value.PropagatingTags())
  }
}
