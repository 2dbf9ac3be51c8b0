/**
 * The Datadog header format (`propagator` in ddtrace/tracer/textmap.go): decimal IDs under
 * configurable headers, the sampling priority, the origin, baggage under a prefix, and the
 * propagating trace tags serialised into `x-datadog-tags`.
 */
module Datadog {
  import opened Base
  import opened Text
  import opened Numbers
  import opened Carrier
  import opened Context

  const DefaultBaggageHeaderPrefix: string := "ot-baggage-"
  const DefaultTraceIDHeader: string := "x-datadog-trace-id"
  const DefaultParentIDHeader: string := "x-datadog-parent-id"
  const DefaultPriorityHeader: string := "x-datadog-sampling-priority"
  const OriginHeader: string := "x-datadog-origin"
  const TraceTagsHeader: string := "x-datadog-tags"

  /** Incoming `x-datadog-tags` values longer than this are not parsed. */
  const PropagationExtractMaxSize: int := 512

  /** `PropagatorConfig`. */
  datatype Config = Config(
    baggagePrefix: string,
    traceHeader: string,
    parentHeader: string,
    priorityHeader: string,
    maxTagsHeaderLen: int,
    b3: bool)

  /** `NewPropagator`'s defaulting: each empty header name (or prefix) takes its default. */
  function WithDefaults(cfg: Config): (c: Config)
    ensures c.baggagePrefix != "" && c.traceHeader != "" && c.parentHeader != "" && c.priorityHeader != ""
    ensures cfg.traceHeader != "" ==> c.traceHeader == cfg.traceHeader
    ensures cfg.parentHeader != "" ==> c.parentHeader == cfg.parentHeader
    ensures cfg.priorityHeader != "" ==> c.priorityHeader == cfg.priorityHeader
    ensures cfg.baggagePrefix != "" ==> c.baggagePrefix == cfg.baggagePrefix
    ensures cfg.traceHeader == "" ==> c.traceHeader == DefaultTraceIDHeader
    ensures cfg.parentHeader == "" ==> c.parentHeader == DefaultParentIDHeader
    ensures cfg.priorityHeader == "" ==> c.priorityHeader == DefaultPriorityHeader
    ensures cfg.baggagePrefix == "" ==> c.baggagePrefix == DefaultBaggageHeaderPrefix
    ensures c.maxTagsHeaderLen == cfg.maxTagsHeaderLen && c.b3 == cfg.b3
  {
    cfg.(
      baggagePrefix := if cfg.baggagePrefix == "" then DefaultBaggageHeaderPrefix else cfg.baggagePrefix,
      traceHeader := if cfg.traceHeader == "" then DefaultTraceIDHeader else cfg.traceHeader,
      parentHeader := if cfg.parentHeader == "" then DefaultParentIDHeader else cfg.parentHeader,
      priorityHeader := if cfg.priorityHeader == "" then DefaultPriorityHeader else cfg.priorityHeader)
  }

  /** The configuration `NewPropagator(nil)` settles on, for a given tags header budget. */
  function DefaultConfig(maxTagsHeaderLen: int): Config {
    Config(DefaultBaggageHeaderPrefix, DefaultTraceIDHeader, DefaultParentIDHeader, DefaultPriorityHeader,
      maxTagsHeaderLen, false)
  }

  // ---------------------------------------------------------------------------------------
  // Propagating tags: `marshalPropagatingTags`

  /** One more `k=v` pair on the builder, comma-separated from what is there. */
  function AppendTag(sb: string, k: string, v: string): string {
    (if |sb| > 0 then sb + "," else sb) + k + "=" + v
  }

  /**
   * The marshalling loop from builder `sb` and trace `t` on, over the tags in visiting order:
   * an invalid pair is skipped and records `encoding_error`; the first valid pair that would
   * take `len(sb) + len(k) + len(v)` over the budget empties the builder, records
   * `inject_max_size` and ends the loop.
   */
  function MarshalFrom(max: int, valid: (string, string) -> bool, tags: map<string, string>,
                       order: seq<string>, sb: string, t: TraceState): (string, TraceState)
    requires forall i :: 0 <= i < |order| ==> order[i] in tags
    decreases |order|
  {
    if order == [] then (sb, t)
    else
      var k := order[0];
      var v := tags[k];
      if !valid(k, v) then MarshalFrom(max, valid, tags, order[1..], sb, t.SetTag(KeyPropagationError, "encoding_error"))
      else if |sb| + |k| + |v| > max then ("", t.SetTag(KeyPropagationError, "inject_max_size"))
      else MarshalFrom(max, valid, tags, order[1..], AppendTag(sb, k, v), t)
  }

  /** What `marshalPropagatingTags` returns, and the context with its trace as left behind. */
  function MarshalResult(cfg: Config, h: Helpers, ctx: SpanContext, order: seq<string>): (string, SpanContext)
    requires TagOrderFits(ctx, order)
  {
    if ctx.trace.None? then ("", ctx)
    else
      var t := ctx.trace.value;
      var r := MarshalFrom(cfg.maxTagsHeaderLen, h.isValidPropagatableTag, t.PropagatingTags(), order, "", t);
      (r.0, ctx.(trace := Some(r.1)))
  }

  /** `marshalPropagatingTags`: grows a builder over the trace's propagating tags. */
  method MarshalPropagatingTags(cfg: Config, h: Helpers, ctx: SpanContext, order: seq<string>)
    returns (s: string, ctx': SpanContext)
    requires TagOrderFits(ctx, order)
    ensures (s, ctx') == MarshalResult(cfg, h, ctx, order)
    ensures ctx.trace.None? ==> s == "" && ctx' == ctx
  {
    if ctx.trace.None? {
      return "", ctx;
    }
    var t := ctx.trace.value;
    var tags := t.PropagatingTags();
    ghost var t0 := t;
    var sb := "";
    var i := 0;
    while i < |order|
      invariant 0 <= i <= |order|
      invariant MarshalFrom(cfg.maxTagsHeaderLen, h.isValidPropagatableTag, tags, order[i..], sb, t)
             == MarshalFrom(cfg.maxTagsHeaderLen, h.isValidPropagatableTag, tags, order, "", t0)
    {
      var k := order[i];
      var v := tags[k];
      assert order[i..][0] == k && order[i..][1..] == order[i + 1..];
      if !h.isValidPropagatableTag(k, v) {
        t := t.SetTag(KeyPropagationError, "encoding_error");
        i := i + 1;
      } else if |sb| + |k| + |v| > cfg.maxTagsHeaderLen {
        sb := "";
        t := t.SetTag(KeyPropagationError, "inject_max_size");
        assert (sb, t) == MarshalFrom(cfg.maxTagsHeaderLen, h.isValidPropagatableTag, tags, order, "", t0);
        break;
      } else {
        if |sb| > 0 {
          sb := sb + ",";
        }
        sb := sb + k + "=" + v;
        i := i + 1;
      }
    }
    return sb, ctx.(trace := Some(t));
  }

  /** The valid pairs, in visiting order. */
  function ValidPairs(valid: (string, string) -> bool, tags: map<string, string>, order: seq<string>): (r: seq<(string, string)>)
    requires forall i :: 0 <= i < |order| ==> order[i] in tags
    ensures |r| <= |order|
    ensures forall j :: 0 <= j < |r| ==> valid(r[j].0, r[j].1)
  {
    if order == [] then []
    else
      var rest := ValidPairs(valid, tags, order[1..]);
      if valid(order[0], tags[order[0]]) then [(order[0], tags[order[0]])] + rest else rest
  }

  /** `k=v` pairs appended to `sb`, comma-separated. */
  function JoinTags(sb: string, pairs: seq<(string, string)>): string
    decreases |pairs|
  {
    if pairs == [] then sb else JoinTags(AppendTag(sb, pairs[0].0, pairs[0].1), pairs[1..])
  }

  /** Appending `pairs` to `sb` meets a pair whose `len(sb) + len(k) + len(v)` is over `max`. */
  predicate Overflows(max: int, sb: string, pairs: seq<(string, string)>)
    decreases |pairs|
  {
    pairs != [] &&
      (|sb| + |pairs[0].0| + |pairs[0].1| > max || Overflows(max, AppendTag(sb, pairs[0].0, pairs[0].1), pairs[1..]))
  }

  /**
   * Marshalling is all-or-nothing: when the valid pairs fit the budget the result is exactly
   * their comma-joined `k=v` list, otherwise it is empty and `inject_max_size` is recorded;
   * invalid pairs are skipped and leave `encoding_error` behind, and with neither the trace
   * is untouched.
   */
  lemma {:induction false} MarshalFromCharacterised(max: int, valid: (string, string) -> bool, tags: map<string, string>,
                                                    order: seq<string>, sb: string, t: TraceState)
    requires forall i :: 0 <= i < |order| ==> order[i] in tags
    ensures var r := MarshalFrom(max, valid, tags, order, sb, t);
      var ps := ValidPairs(valid, tags, order);
      && r.1.propagatingTags == t.propagatingTags
      && (Overflows(max, sb, ps) ==> r.0 == "" && KeyPropagationError in r.1.tags && r.1.tags[KeyPropagationError] == "inject_max_size")
      && (!Overflows(max, sb, ps) ==> r.0 == JoinTags(sb, ps))
      && (!Overflows(max, sb, ps) && |ps| == |order| ==> r.1 == t)
      && (!Overflows(max, sb, ps) && |ps| < |order| ==> KeyPropagationError in r.1.tags && r.1.tags[KeyPropagationError] == "encoding_error")
    decreases |order|
  {
    if order != [] {
      var k := order[0];
      var v := tags[k];
      var rest := ValidPairs(valid, tags, order[1..]);
      if !valid(k, v) {
        var t' := t.SetTag(KeyPropagationError, "encoding_error");
        MarshalFromCharacterised(max, valid, tags, order[1..], sb, t');
        var r := MarshalFrom(max, valid, tags, order[1..], sb, t');
        if !Overflows(max, sb, rest) && |rest| == |order[1..]| {
          assert r.1 == t';
        }
      } else if |sb| + |k| + |v| > max {
      } else {
        MarshalFromCharacterised(max, valid, tags, order[1..], AppendTag(sb, k, v), t);
      }
    }
  }

  /** Appending `k=v` pairs to a builder only lengthens it. */
  lemma {:induction false} JoinTagsKeepsPrefix(sb: string, pairs: seq<(string, string)>)
    ensures |JoinTags(sb, pairs)| >= |sb|
    ensures pairs != [] ==> JoinTags(sb, pairs) != ""
    decreases |pairs|
  {
    if pairs != [] {
      JoinTagsKeepsPrefix(AppendTag(sb, pairs[0].0, pairs[0].1), pairs[1..]);
    }
  }

  /**
   * The marshalled header is never longer than the budget plus two: the budget check counts
   * the bytes of the builder, the key and the value, but not the `,` and `=` added with them.
   */
  lemma {:induction false} MarshalFromLength(max: int, valid: (string, string) -> bool, tags: map<string, string>,
                                             order: seq<string>, sb: string, t: TraceState)
    requires forall i :: 0 <= i < |order| ==> order[i] in tags
    requires sb == "" || |sb| <= max + 2
    ensures var r := MarshalFrom(max, valid, tags, order, sb, t);
      r.0 == "" || |r.0| <= max + 2
    decreases |order|
  {
    if order != [] {
      var k := order[0];
      var v := tags[k];
      if !valid(k, v) {
        MarshalFromLength(max, valid, tags, order[1..], sb, t.SetTag(KeyPropagationError, "encoding_error"));
      } else if |sb| + |k| + |v| <= max {
        MarshalFromLength(max, valid, tags, order[1..], AppendTag(sb, k, v), t);
      }
    }
  }

  /** `marshalPropagatingTags` is empty or at most `MaxTagsHeaderLen + 2` bytes long. */
  lemma MarshalLength(cfg: Config, h: Helpers, ctx: SpanContext, order: seq<string>)
    requires TagOrderFits(ctx, order)
    ensures var s := MarshalResult(cfg, h, ctx, order).0;
      s == "" || |s| <= cfg.maxTagsHeaderLen + 2
  {
    if ctx.trace.Some? {
      var t := ctx.trace.value;
      MarshalFromLength(cfg.maxTagsHeaderLen, h.isValidPropagatableTag, t.PropagatingTags(), order, "", t);
    }
  }

  /** The `+ 2` is reached: two one-byte tags under a budget of 5 give a 7-byte header. */
  lemma MarshalCanExceedBudget()
    ensures MarshalFrom(5, (k, v) => true, map["a" := "b", "c" := "d"], ["a", "c"], "", NewTrace).0 == "a=b,c=d"
  {
    var tags := map["a" := "b", "c" := "d"];
    var order := ["a", "c"];
    assert order[1..] == ["c"] && order[1..][1..] == [];
    assert AppendTag("", "a", "b") == "a=b";
    assert AppendTag("a=b", "c", "d") == "a=b,c=d";
  }

  // ---------------------------------------------------------------------------------------
  // Injection: `propagator.Inject` / `injectTextMap`

  /** The baggage items written under `prefix + key`, in visiting order. */
  function BaggageHeaders(prefix: string, baggage: map<string, string>, order: seq<string>): (w: seq<(string, string)>)
    requires forall i :: 0 <= i < |order| ==> order[i] in baggage
    ensures |w| == |order|
  {
    seq(|order|, i requires 0 <= i < |order| => (prefix + order[i], baggage[order[i]]))
  }

  /** The IDs (base 10), the priority if set and the origin if non-empty. */
  function HeaderWrites(cfg: Config, ctx: SpanContext): seq<(string, string)> {
    [(cfg.traceHeader, Decimal(ctx.traceID)), (cfg.parentHeader, Decimal(ctx.spanID))]
    + (if ctx.priority.Some? then [(cfg.priorityHeader, Itoa(ctx.priority.value))] else [])
    + (if ctx.origin != "" then [(OriginHeader, ctx.origin)] else [])
  }

  /**
   * What `Inject` does to a carrier (`writable` says whether it is a `TextMapWriter`): an
   * invalid carrier or span context is reported before anything is written; otherwise the
   * IDs, priority, origin and baggage are written, then, with a positive budget, the
   * marshalled tags when they are non-empty.
   */
  function InjectPlan(cfg: Config, h: Helpers, arg: InjectedContext, writable: bool,
                      bagOrder: seq<string>, tagOrder: seq<string>): (r: Injection)
    requires OrdersFit(arg, bagOrder, tagOrder)
    ensures !writable ==> r == Injection([], Some(ErrInvalidCarrier), arg)
    ensures writable && (arg.Foreign? || arg.ctx.traceID == 0 || arg.ctx.spanID == 0) ==>
      r == Injection([], Some(ErrInvalidSpanContext), arg)
    ensures r.err.None? <==> writable && arg.Own? && arg.ctx.traceID != 0 && arg.ctx.spanID != 0
    ensures r.err.None? ==> r.ctx.Own? && r.ctx.ctx == arg.ctx.(trace := r.ctx.ctx.trace)
    ensures r.err.None? ==>
      |r.writes| >= 2 && r.writes[0] == (cfg.traceHeader, Decimal(arg.ctx.traceID))
      && r.writes[1] == (cfg.parentHeader, Decimal(arg.ctx.spanID))
    ensures r.err.None? && r.ctx.ctx.trace.Some? ==>
      arg.ctx.trace.Some? && r.ctx.ctx.trace.value.propagatingTags == arg.ctx.trace.value.propagatingTags
    ensures r.err.None? && arg.ctx.trace.None? ==> r.ctx == arg
  {
    if !writable then Injection([], Some(ErrInvalidCarrier), arg)
    else if arg.Foreign? || arg.ctx.traceID == 0 || arg.ctx.spanID == 0 then
      Injection([], Some(ErrInvalidSpanContext), arg)
    else
      var ctx := arg.ctx;
      var base := HeaderWrites(cfg, ctx) + BaggageHeaders(cfg.baggagePrefix, ctx.baggage, bagOrder);
      if cfg.maxTagsHeaderLen <= 0 then Injection(base, None, arg)
      else
        var m := MarshalResult(cfg, h, ctx, tagOrder);
        MarshalKeepsTags(cfg, h, ctx, tagOrder);
        Injection(base + (if |m.0| > 0 then [(TraceTagsHeader, m.0)] else []), None, Own(m.1))
  }

  lemma MarshalKeepsTags(cfg: Config, h: Helpers, ctx: SpanContext, order: seq<string>)
    requires TagOrderFits(ctx, order)
    ensures var c := MarshalResult(cfg, h, ctx, order).1;
      c == ctx.(trace := c.trace) && (c.trace.Some? <==> ctx.trace.Some?)
      && (c.trace.Some? ==> c.trace.value.propagatingTags == ctx.trace.value.propagatingTags)
  {
    if ctx.trace.Some? {
      var t := ctx.trace.value;
      MarshalFromCharacterised(cfg.maxTagsHeaderLen, h.isValidPropagatableTag, t.PropagatingTags(), order, "", t);
    }
  }

  /** Writes the IDs, the priority if set and the origin if non-empty, in that order. */
  method WriteHeaders(cfg: Config, ctx: SpanContext, carrier: TextMapCarrier)
    modifies carrier
    ensures carrier.entries == ApplySets(old(carrier.entries), HeaderWrites(cfg, ctx))
  {
    ghost var written: seq<(string, string)> := [];
    carrier.Set(cfg.traceHeader, Decimal(ctx.traceID));
    ApplySetsSnoc(old(carrier.entries), written, cfg.traceHeader, Decimal(ctx.traceID));
    written := written + [(cfg.traceHeader, Decimal(ctx.traceID))];
    carrier.Set(cfg.parentHeader, Decimal(ctx.spanID));
    ApplySetsSnoc(old(carrier.entries), written, cfg.parentHeader, Decimal(ctx.spanID));
    written := written + [(cfg.parentHeader, Decimal(ctx.spanID))];
    if ctx.priority.Some? {
      carrier.Set(cfg.priorityHeader, Itoa(ctx.priority.value));
      ApplySetsSnoc(old(carrier.entries), written, cfg.priorityHeader, Itoa(ctx.priority.value));
      written := written + [(cfg.priorityHeader, Itoa(ctx.priority.value))];
    }
    if ctx.origin != "" {
      carrier.Set(OriginHeader, ctx.origin);
      ApplySetsSnoc(old(carrier.entries), written, OriginHeader, ctx.origin);
      written := written + [(OriginHeader, ctx.origin)];
    }
    assert written == HeaderWrites(cfg, ctx);
  }

  /** Writes each baggage item under `prefix + key`, in visiting order. */
  method WriteBaggage(prefix: string, baggage: map<string, string>, order: seq<string>, carrier: TextMapCarrier)
    requires forall i :: 0 <= i < |order| ==> order[i] in baggage
    modifies carrier
    ensures carrier.entries == ApplySets(old(carrier.entries), BaggageHeaders(prefix, baggage, order))
  {
    assert BaggageHeaders(prefix, baggage, order[..0]) == [];
    var i := 0;
    while i < |order|
      invariant 0 <= i <= |order|
      invariant carrier.entries == ApplySets(old(carrier.entries), BaggageHeaders(prefix, baggage, order[..i]))
    {
      var k := order[i];
      carrier.Set(prefix + k, baggage[k]);
      ApplySetsSnoc(old(carrier.entries), BaggageHeaders(prefix, baggage, order[..i]), prefix + k, baggage[k]);
      assert BaggageHeaders(prefix, baggage, order[..i + 1])
          == BaggageHeaders(prefix, baggage, order[..i]) + [(prefix + k, baggage[k])];
      i := i + 1;
    }
    assert order[..i] == order;
  }

  /** `Inject` for the Datadog format, writing into a `TextMapCarrier` (null: not a writer). */
  method Inject(cfg: Config, h: Helpers, arg: InjectedContext, carrier: TextMapCarrier?,
                bagOrder: seq<string>, tagOrder: seq<string>)
    returns (err: Option<Error>, arg': InjectedContext)
    requires OrdersFit(arg, bagOrder, tagOrder)
    modifies carrier
    ensures var plan := InjectPlan(cfg, h, arg, carrier != null, bagOrder, tagOrder);
      && err == plan.err && arg' == plan.ctx
      && (carrier != null ==> carrier.entries == ApplySets(old(carrier.entries), plan.writes))
  {
    if carrier == null {
      return Some(ErrInvalidCarrier), arg;
    }
    if arg.Foreign? || arg.ctx.traceID == 0 || arg.ctx.spanID == 0 {
      return Some(ErrInvalidSpanContext), arg;
    }
    var ctx := arg.ctx;
    ghost var base := HeaderWrites(cfg, ctx) + BaggageHeaders(cfg.baggagePrefix, ctx.baggage, bagOrder);
    WriteHeaders(cfg, ctx, carrier);
    WriteBaggage(cfg.baggagePrefix, ctx.baggage, bagOrder, carrier);
    ApplySetsAppend(old(carrier.entries), HeaderWrites(cfg, ctx), BaggageHeaders(cfg.baggagePrefix, ctx.baggage, bagOrder));
    if cfg.maxTagsHeaderLen <= 0 {
      return None, arg;
    }
    var s, ctx' := MarshalPropagatingTags(cfg, h, ctx, tagOrder);
    if |s| > 0 {
      ApplySetsSnoc(old(carrier.entries), base, TraceTagsHeader, s);
      carrier.Set(TraceTagsHeader, s);
    } else {
      assert base + [] == base;
    }
    return None, Own(ctx');
  }

  // ---------------------------------------------------------------------------------------
  // Extraction: `propagator.Extract` / `extractTextMap` / `unmarshalPropagatingTags`

  /** Which case of `extractTextMap`'s switch a lower-cased key falls into (first match wins). */
  datatype KeyKind = TraceKey | ParentKey | PriorityKey | OriginKey | TagsKey | BaggageKey(name: string) | OtherKey

  function Classify(cfg: Config, key: string): KeyKind {
    if key == cfg.traceHeader then TraceKey
    else if key == cfg.parentHeader then ParentKey
    else if key == cfg.priorityHeader then PriorityKey
    else if key == OriginHeader then OriginKey
    else if key == TraceTagsHeader then TagsKey
    else if HasPrefix(key, cfg.baggagePrefix) then BaggageKey(TrimPrefix(key, cfg.baggagePrefix))
    else OtherKey
  }

  /**
   * `unmarshalPropagatingTags`: creates the trace if there is none; a value over 512 bytes
   * sets no propagating tags and records `extract_max_size`; otherwise the parsed map
   * replaces the propagating tags and a parse failure records `decoding_error`.
   */
  function UnmarshalPropagatingTags(h: Helpers, trace: Option<TraceState>, v: string): (t: TraceState)
    ensures var t0 := trace.GetOr(NewTrace);
      && (|v| > PropagationExtractMaxSize ==>
            t.propagatingTags == t0.propagatingTags && t.tags == t0.tags[KeyPropagationError := "extract_max_size"])
      && (|v| <= PropagationExtractMaxSize ==> t.propagatingTags == h.parsePropagatableTraceTags(v).0)
      && (|v| <= PropagationExtractMaxSize && h.parsePropagatableTraceTags(v).1 ==>
            t.tags == t0.tags[KeyPropagationError := "decoding_error"])
      && (|v| <= PropagationExtractMaxSize && !h.parsePropagatableTraceTags(v).1 ==> t.tags == t0.tags)
  {
    var t := trace.GetOr(NewTrace);
    if |v| > PropagationExtractMaxSize then t.SetTag(KeyPropagationError, "extract_max_size")
    else
      var parsed := h.parsePropagatableTraceTags(v);
      var t' := t.(propagatingTags := parsed.0);
      if parsed.1 then t'.SetTag(KeyPropagationError, "decoding_error") else t'
  }

  /** One call of the `ForeachKey` handler on the local context. */
  function ExtractStep(cfg: Config, h: Helpers, ctx: SpanContext, k: string, v: string): Result<SpanContext, Error> {
    match Classify(cfg, Lower(k))
    case TraceKey => (match h.parseUint64(v) case None => Err(ErrSpanContextCorrupted) case Some(id) => Ok(ctx.(traceID := id)))
    case ParentKey => (match h.parseUint64(v) case None => Err(ErrSpanContextCorrupted) case Some(id) => Ok(ctx.(spanID := id)))
    case PriorityKey => (match Atoi(v) case None => Err(ErrSpanContextCorrupted) case Some(p) => Ok(ctx.(priority := Some(p))))
    case OriginKey => Ok(ctx.(origin := v))
    case TagsKey => Ok(ctx.(trace := Some(UnmarshalPropagatingTags(h, ctx.trace, v))))
    case BaggageKey(name) => Ok(ctx.(baggage := ctx.baggage[name := v]))
    case OtherKey => Ok(ctx)
  }

  /** `ForeachKey` with that handler: stops at the first error. */
  function ExtractVisits(cfg: Config, h: Helpers, ctx: SpanContext, pairs: seq<(string, string)>): Result<SpanContext, Error>
    decreases |pairs|
  {
    if pairs == [] then Ok(ctx)
    else
      match ExtractStep(cfg, h, ctx, pairs[0].0, pairs[0].1)
      case Err(e) => Err(e)
      case Ok(c) => ExtractVisits(cfg, h, c, pairs[1..])
  }

  /** An extracted context is returned only with a trace ID and a parent ID or synthetic origin. */
  predicate ValidExtracted(ctx: SpanContext) {
    ctx.traceID != 0 && (ctx.spanID != 0 || ctx.origin == "synthetics")
  }

  /** What `Extract` returns for a carrier. */
  function ExtractResult(cfg: Config, h: Helpers, reader: Reader): (r: Result<SpanContext, Error>)
    ensures r.Ok? ==> ValidExtracted(r.value)
    ensures r.Err? ==> r.error in {ErrInvalidCarrier, ErrSpanContextNotFound, ErrSpanContextCorrupted}
    ensures r == Err(ErrInvalidCarrier) <==> reader.NotAReader?
  {
    match reader
    case NotAReader => Err(ErrInvalidCarrier)
    case TextMap(pairs) =>
      ExtractVisitsErrors(cfg, h, EmptySpanContext, pairs);
      match ExtractVisits(cfg, h, EmptySpanContext, pairs)
      case Err(e) => Err(e)
      case Ok(c) => if ValidExtracted(c) then Ok(c) else Err(ErrSpanContextNotFound)
  }

  /** The handler accepts the pair: IDs parse with `parseUint64` and a priority with `Atoi`. */
  predicate Readable(cfg: Config, h: Helpers, k: string, v: string) {
    match Classify(cfg, Lower(k))
    case TraceKey => h.parseUint64(v).Some?
    case ParentKey => h.parseUint64(v).Some?
    case PriorityKey => Atoi(v).Some?
    case _ => true
  }

  /** The visit fails exactly when some pair is unreadable, and then with `ErrSpanContextCorrupted`. */
  lemma {:induction false} ExtractVisitsErrors(cfg: Config, h: Helpers, ctx: SpanContext, pairs: seq<(string, string)>)
    ensures var r := ExtractVisits(cfg, h, ctx, pairs);
      && (r.Err? ==> r.error == ErrSpanContextCorrupted)
      && (r.Err? <==> exists i :: 0 <= i < |pairs| && !Readable(cfg, h, pairs[i].0, pairs[i].1))
    decreases |pairs|
  {
    if pairs != [] {
      match ExtractStep(cfg, h, ctx, pairs[0].0, pairs[0].1)
      case Err(e) =>
      case Ok(c) =>
        ExtractVisitsErrors(cfg, h, c, pairs[1..]);
        if exists i :: 0 <= i < |pairs| && !Readable(cfg, h, pairs[i].0, pairs[i].1) {
          var i :| 0 <= i < |pairs| && !Readable(cfg, h, pairs[i].0, pairs[i].1);
          assert i > 0;
          assert !Readable(cfg, h, pairs[1..][i - 1].0, pairs[1..][i - 1].1);
        }
        if exists i :: 0 <= i < |pairs[1..]| && !Readable(cfg, h, pairs[1..][i].0, pairs[1..][i].1) {
          var i :| 0 <= i < |pairs[1..]| && !Readable(cfg, h, pairs[1..][i].0, pairs[1..][i].1);
          assert !Readable(cfg, h, pairs[i + 1].0, pairs[i + 1].1);
        }
    }
  }

  /** The `ForeachKey` handler of `extractTextMap`: one carrier entry applied to the context. */
  method HandleKey(cfg: Config, h: Helpers, ctx: SpanContext, k: string, v: string) returns (r: Result<SpanContext, Error>)
    ensures r == ExtractStep(cfg, h, ctx, k, v)
  {
    var key := Lower(k);
    if key == cfg.traceHeader {
      var id := h.parseUint64(v);
      if id.None? {
        return Err(ErrSpanContextCorrupted);
      }
      return Ok(ctx.(traceID := id.value));
    } else if key == cfg.parentHeader {
      var id := h.parseUint64(v);
      if id.None? {
        return Err(ErrSpanContextCorrupted);
      }
      return Ok(ctx.(spanID := id.value));
    } else if key == cfg.priorityHeader {
      var p := Atoi(v);
      if p.None? {
        return Err(ErrSpanContextCorrupted);
      }
      return Ok(ctx.(priority := Some(p.value)));
    } else if key == OriginHeader {
      return Ok(ctx.(origin := v));
    } else if key == TraceTagsHeader {
      return Ok(ctx.(trace := Some(UnmarshalPropagatingTags(h, ctx.trace, v))));
    } else if HasPrefix(key, cfg.baggagePrefix) {
      return Ok(ctx.(baggage := ctx.baggage[TrimPrefix(key, cfg.baggagePrefix) := v]));
    }
    return Ok(ctx);
  }

  /** `Extract` for the Datadog format: a loop over the visits that fills in a local context. */
  method Extract(cfg: Config, h: Helpers, reader: Reader) returns (r: Result<SpanContext, Error>)
    ensures r == ExtractResult(cfg, h, reader)
  {
    if reader.NotAReader? {
      return Err(ErrInvalidCarrier);
    }
    var pairs := reader.pairs;
    var ctx := EmptySpanContext;
    var i := 0;
    while i < |pairs|
      invariant 0 <= i <= |pairs|
      invariant ExtractVisits(cfg, h, ctx, pairs[i..]) == ExtractVisits(cfg, h, EmptySpanContext, pairs)
    {
      assert pairs[i..][0] == pairs[i] && pairs[i..][1..] == pairs[i + 1..];
      var step := HandleKey(cfg, h, ctx, pairs[i].0, pairs[i].1);
      if step.Err? {
        return Err(step.error);
      }
      ctx := step.value;
      i := i + 1;
    }
    if ctx.traceID == 0 || (ctx.spanID == 0 && ctx.origin != "synthetics") {
      return Err(ErrSpanContextNotFound);
    }
    return Ok(ctx);
  }
}
