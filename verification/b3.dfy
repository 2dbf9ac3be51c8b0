/**
 * The B3 header format (`propagatorB3` in ddtrace/tracer/textmap.go): the trace and span IDs
 * as 16 lower-case hexadecimal digits and the sampling decision as `1` or `0`.
 */
module B3 {
  import opened Base
  import opened Text
  import opened Numbers
  import opened Carrier
  import opened Context

  const TraceIDHeader: string := "x-b3-traceid"
  const SpanIDHeader: string := "x-b3-spanid"
  const SampledHeader: string := "x-b3-sampled"

  /** The sampled flag written for a priority: keep (`1`) from `PriorityAutoKeep` up, drop (`0`) below. */
  function SampledFlag(p: int): (s: string)
    ensures s == "1" <==> p >= PriorityAutoKeep
    ensures s == "0" <==> p < PriorityAutoKeep
  {
    if p >= PriorityAutoKeep then "1" else "0"
  }

  /** The IDs, then the sampled flag if a priority is set. */
  function HeaderWrites(ctx: SpanContext): seq<(string, string)> {
    [(TraceIDHeader, Hex16(ctx.traceID)), (SpanIDHeader, Hex16(ctx.spanID))]
    + (if ctx.priority.Some? then [(SampledHeader, SampledFlag(ctx.priority.value))] else [])
  }

  /**
   * What `Inject` does: an invalid carrier or span context is reported before anything is
   * written; otherwise the two IDs are written and the sampled flag when a priority is set.
   */
  function InjectPlan(arg: InjectedContext, writable: bool): (r: Injection)
    ensures r.ctx == arg
    ensures !writable ==> r.err == Some(ErrInvalidCarrier)
    ensures writable && (arg.Foreign? || arg.ctx.traceID == 0 || arg.ctx.spanID == 0) ==>
      r.err == Some(ErrInvalidSpanContext)
    ensures r.err.Some? ==> r.writes == []
    ensures r.err.None? <==> writable && arg.Own? && arg.ctx.traceID != 0 && arg.ctx.spanID != 0
    ensures r.err.None? ==>
      && |r.writes| == (if arg.ctx.priority.Some? then 3 else 2)
      && r.writes[0] == (TraceIDHeader, Hex16(arg.ctx.traceID))
      && r.writes[1] == (SpanIDHeader, Hex16(arg.ctx.spanID))
  {
    if !writable then Injection([], Some(ErrInvalidCarrier), arg)
    else if arg.Foreign? || arg.ctx.traceID == 0 || arg.ctx.spanID == 0 then Injection([], Some(ErrInvalidSpanContext), arg)
    else Injection(HeaderWrites(arg.ctx), None, arg)
  }

  /** `Inject` for the B3 format, writing into a `TextMapCarrier` (null: not a writer). */
  method Inject(arg: InjectedContext, carrier: TextMapCarrier?) returns (err: Option<Error>)
    modifies carrier
    ensures var plan := InjectPlan(arg, carrier != null);
      err == plan.err && (carrier != null ==> carrier.entries == ApplySets(old(carrier.entries), plan.writes))
  {
    if carrier == null {
      return Some(ErrInvalidCarrier);
    }
    if arg.Foreign? || arg.ctx.traceID == 0 || arg.ctx.spanID == 0 {
      return Some(ErrInvalidSpanContext);
    }
    var ctx := arg.ctx;
    ghost var written: seq<(string, string)> := [];
    carrier.Set(TraceIDHeader, Hex16(ctx.traceID));
    ApplySetsSnoc(old(carrier.entries), written, TraceIDHeader, Hex16(ctx.traceID));
    written := written + [(TraceIDHeader, Hex16(ctx.traceID))];
    carrier.Set(SpanIDHeader, Hex16(ctx.spanID));
    ApplySetsSnoc(old(carrier.entries), written, SpanIDHeader, Hex16(ctx.spanID));
    written := written + [(SpanIDHeader, Hex16(ctx.spanID))];
    if ctx.priority.Some? {
      ApplySetsSnoc(old(carrier.entries), written, SampledHeader, SampledFlag(ctx.priority.value));
      if ctx.priority.value >= PriorityAutoKeep {
        carrier.Set(SampledHeader, "1");
      } else {
        carrier.Set(SampledHeader, "0");
      }
      written := written + [(SampledHeader, SampledFlag(ctx.priority.value))];
    }
    assert written == HeaderWrites(ctx);
    return None;
  }

  /** Which case of the extractor's switch a lower-cased key falls into. */
  datatype KeyKind = TraceKey | SpanKey | SampledKey | OtherKey

  function Classify(key: string): KeyKind {
    if key == TraceIDHeader then TraceKey
    else if key == SpanIDHeader then SpanKey
    else if key == SampledHeader then SampledKey
    else OtherKey
  }

  /** A trace ID longer than 16 digits keeps only its last 16: the low 64 bits of a 128-bit ID. */
  function TrimTraceID(v: string): (r: string)
    ensures |r| == if |v| > 16 then 16 else |v|
    ensures r == v[|v| - |r|..]
  {
    if |v| > 16 then v[|v| - 16..] else v
  }

  /** One call of the `ForeachKey` handler on the local context. */
  function ExtractStep(ctx: SpanContext, k: string, v: string): Result<SpanContext, Error> {
    match Classify(Lower(k))
    case TraceKey => (match ParseHex(TrimTraceID(v)) case None => Err(ErrSpanContextCorrupted) case Some(id) => Ok(ctx.(traceID := id)))
    case SpanKey => (match ParseHex(v) case None => Err(ErrSpanContextCorrupted) case Some(id) => Ok(ctx.(spanID := id)))
    case SampledKey => (match Atoi(v) case None => Err(ErrSpanContextCorrupted) case Some(p) => Ok(ctx.(priority := Some(p))))
    case OtherKey => Ok(ctx)
  }

  /** `ForeachKey` with that handler: stops at the first error. */
  function ExtractVisits(ctx: SpanContext, pairs: seq<(string, string)>): Result<SpanContext, Error>
    decreases |pairs|
  {
    if pairs == [] then Ok(ctx)
    else
      match ExtractStep(ctx, pairs[0].0, pairs[0].1)
      case Err(e) => Err(e)
      case Ok(c) => ExtractVisits(c, pairs[1..])
  }

  /** The handler accepts the pair. */
  predicate Readable(k: string, v: string) {
    match Classify(Lower(k))
    case TraceKey => ParseHex(TrimTraceID(v)).Some?
    case SpanKey => ParseHex(v).Some?
    case SampledKey => Atoi(v).Some?
    case OtherKey => true
  }

  /** The visit fails exactly when some pair is unreadable, and then with `ErrSpanContextCorrupted`. */
  lemma {:induction false} ExtractVisitsErrors(ctx: SpanContext, pairs: seq<(string, string)>)
    ensures var r := ExtractVisits(ctx, pairs);
      && (r.Err? ==> r.error == ErrSpanContextCorrupted)
      && (r.Err? <==> exists i :: 0 <= i < |pairs| && !Readable(pairs[i].0, pairs[i].1))
    decreases |pairs|
  {
    if pairs != [] {
      match ExtractStep(ctx, pairs[0].0, pairs[0].1)
      case Err(e) =>
      case Ok(c) =>
        ExtractVisitsErrors(c, pairs[1..]);
        if exists i :: 0 <= i < |pairs| && !Readable(pairs[i].0, pairs[i].1) {
          var i :| 0 <= i < |pairs| && !Readable(pairs[i].0, pairs[i].1);
          assert i > 0;
          assert !Readable(pairs[1..][i - 1].0, pairs[1..][i - 1].1);
        }
        if exists i :: 0 <= i < |pairs[1..]| && !Readable(pairs[1..][i].0, pairs[1..][i].1) {
          var i :| 0 <= i < |pairs[1..]| && !Readable(pairs[1..][i].0, pairs[1..][i].1);
          assert !Readable(pairs[i + 1].0, pairs[i + 1].1);
        }
    }
  }

  /** What `Extract` returns for a carrier: both IDs are needed, there is no synthetics exception. */
  function ExtractResult(reader: Reader): (r: Result<SpanContext, Error>)
    ensures r.Ok? ==> r.value.traceID != 0 && r.value.spanID != 0
    ensures r.Ok? ==> r.value.origin == "" && r.value.baggage == map[] && r.value.trace.None?
    ensures r.Err? ==> r.error in {ErrInvalidCarrier, ErrSpanContextNotFound, ErrSpanContextCorrupted}
    ensures r == Err(ErrInvalidCarrier) <==> reader.NotAReader?
  {
    match reader
    case NotAReader => Err(ErrInvalidCarrier)
    case TextMap(pairs) =>
      ExtractVisitsErrors(EmptySpanContext, pairs);
      ExtractVisitsKeeps(EmptySpanContext, pairs);
      match ExtractVisits(EmptySpanContext, pairs)
      case Err(e) => Err(e)
      case Ok(c) => if c.traceID == 0 || c.spanID == 0 then Err(ErrSpanContextNotFound) else Ok(c)
  }

  /** The B3 extractor sets only the IDs and the priority. */
  lemma {:induction false} ExtractVisitsKeeps(ctx: SpanContext, pairs: seq<(string, string)>)
    ensures var r := ExtractVisits(ctx, pairs);
      r.Ok? ==> r.value == ctx.(traceID := r.value.traceID, spanID := r.value.spanID, priority := r.value.priority)
    decreases |pairs|
  {
    if pairs != [] && ExtractStep(ctx, pairs[0].0, pairs[0].1).Ok? {
      ExtractVisitsKeeps(ExtractStep(ctx, pairs[0].0, pairs[0].1).value, pairs[1..]);
    }
  }

  /** The `ForeachKey` handler of the B3 `extractTextMap`. */
  method HandleKey(ctx: SpanContext, k: string, v: string) returns (r: Result<SpanContext, Error>)
    ensures r == ExtractStep(ctx, k, v)
  {
    var key := Lower(k);
    if key == TraceIDHeader {
      var w := v;
      if |w| > 16 {
        w := w[|w| - 16..];
      }
      var id := ParseHex(w);
      if id.None? {
        return Err(ErrSpanContextCorrupted);
      }
      return Ok(ctx.(traceID := id.value));
    } else if key == SpanIDHeader {
      var id := ParseHex(v);
      if id.None? {
        return Err(ErrSpanContextCorrupted);
      }
      return Ok(ctx.(spanID := id.value));
    } else if key == SampledHeader {
      var p := Atoi(v);
      if p.None? {
        return Err(ErrSpanContextCorrupted);
      }
      return Ok(ctx.(priority := Some(p.value)));
    }
    return Ok(ctx);
  }

  /** `Extract` for the B3 format: a loop over the visits that fills in a local context. */
  method Extract(reader: Reader) returns (r: Result<SpanContext, Error>)
    ensures r == ExtractResult(reader)
  {
    if reader.NotAReader? {
      return Err(ErrInvalidCarrier);
    }
    var pairs := reader.pairs;
    var ctx := EmptySpanContext;
    var i := 0;
    while i < |pairs|
      invariant 0 <= i <= |pairs|
      invariant ExtractVisits(ctx, pairs[i..]) == ExtractVisits(EmptySpanContext, pairs)
    {
      assert pairs[i..][0] == pairs[i] && pairs[i..][1..] == pairs[i + 1..];
      var step := HandleKey(ctx, pairs[i].0, pairs[i].1);
      if step.Err? {
        return Err(step.error);
      }
      ctx := step.value;
      i := i + 1;
    }
    if ctx.traceID == 0 || ctx.spanID == 0 {
      return Err(ErrSpanContextNotFound);
    }
    return Ok(ctx);
  }

  // ---------------------------------------------------------------------------------------
  // Properties

  /** The value of the last visited entry whose lower-cased key falls into `kind`. */
  function LastValue(pairs: seq<(string, string)>, kind: KeyKind): Option<string> {
    if pairs == [] then None
    else
      var later := LastValue(pairs[1..], kind);
      if later.Some? then later
      else if Classify(Lower(pairs[0].0)) == kind then Some(pairs[0].1)
      else None
  }

  /** A successful visit sets each field from the last entry for it, or leaves it. */
  lemma {:induction false} ExtractVisitsSummary(ctx: SpanContext, pairs: seq<(string, string)>)
    requires ExtractVisits(ctx, pairs).Ok?
    ensures var c := ExtractVisits(ctx, pairs).value;
      && c.traceID == (match LastValue(pairs, TraceKey) case None => ctx.traceID case Some(v) => ParseHex(TrimTraceID(v)).GetOr(0))
      && c.spanID == (match LastValue(pairs, SpanKey) case None => ctx.spanID case Some(v) => ParseHex(v).GetOr(0))
      && c.priority == (match LastValue(pairs, SampledKey) case None => ctx.priority case Some(v) => Atoi(v))
    decreases |pairs|
  {
    if pairs != [] {
      ExtractVisitsSummary(ExtractStep(ctx, pairs[0].0, pairs[0].1).value, pairs[1..]);
      match Classify(Lower(pairs[0].0))
      case TraceKey =>
      case SpanKey =>
      case SampledKey =>
      case OtherKey =>
    }
  }

  /** If every entry of a kind carries `v`, the last one does; one exists exactly when the last does. */
  lemma {:induction false} LastValueUnique(pairs: seq<(string, string)>, kind: KeyKind, v: string)
    requires forall i :: 0 <= i < |pairs| && Classify(Lower(pairs[i].0)) == kind ==> pairs[i].1 == v
    ensures LastValue(pairs, kind) == None || LastValue(pairs, kind) == Some(v)
    ensures LastValue(pairs, kind).Some? <==> exists i :: 0 <= i < |pairs| && Classify(Lower(pairs[i].0)) == kind
  {
    if pairs != [] {
      LastValueUnique(pairs[1..], kind, v);
      if exists i :: 0 <= i < |pairs| && Classify(Lower(pairs[i].0)) == kind {
        var i :| 0 <= i < |pairs| && Classify(Lower(pairs[i].0)) == kind;
        if i > 0 {
          assert Classify(Lower(pairs[1..][i - 1].0)) == kind;
        }
      }
      if LastValue(pairs[1..], kind).Some? {
        var i :| 0 <= i < |pairs[1..]| && Classify(Lower(pairs[1..][i].0)) == kind;
        assert Classify(Lower(pairs[i + 1].0)) == kind;
      }
    }
  }

  lemma HeadersAreLower()
    ensures IsLower(TraceIDHeader) && IsLower(SpanIDHeader) && IsLower(SampledHeader)
  {
  }

  /** The extractor classifies each header the injector writes as that header's field. */
  lemma HeaderKinds()
    ensures Classify(Lower(TraceIDHeader)) == TraceKey
    ensures Classify(Lower(SpanIDHeader)) == SpanKey
    ensures Classify(Lower(SampledHeader)) == SampledKey
  {
    HeadersAreLower();
    LowerFixesLower(TraceIDHeader);
    LowerFixesLower(SpanIDHeader);
    LowerFixesLower(SampledHeader);
  }

  /** A 16-digit ID is read back exactly, and trimming leaves it alone. */
  lemma ReadHex16(x: U64)
    ensures TrimTraceID(Hex16(x)) == Hex16(x) && ParseHex(Hex16(x)) == Some(x)
  {
    ParseHex16(x);
  }

  /** Each visited entry carries what the context holds for the field its key names. */
  predicate ReadsBack(ctx: SpanContext, pairs: seq<(string, string)>) {
    forall i :: 0 <= i < |pairs| ==>
      var kind := Classify(Lower(pairs[i].0));
      && (kind == TraceKey ==> pairs[i].1 == Hex16(ctx.traceID))
      && (kind == SpanKey ==> pairs[i].1 == Hex16(ctx.spanID))
      && (kind == SampledKey ==> ctx.priority.Some? && pairs[i].1 == SampledFlag(ctx.priority.value))
      && kind != OtherKey
  }

  /** The entries of a carrier the injector filled read back as the context. */
  lemma InjectedReadsBack(ctx: SpanContext, pairs: seq<(string, string)>)
    requires IsVisitOrder(pairs, ApplySets(map[], HeaderWrites(ctx)))
    ensures ReadsBack(ctx, pairs)
  {
    var w := HeaderWrites(ctx);
    HeaderKinds();
    forall i | 0 <= i < |pairs|
      ensures var kind := Classify(Lower(pairs[i].0));
        && (kind == TraceKey ==> pairs[i].1 == Hex16(ctx.traceID))
        && (kind == SpanKey ==> pairs[i].1 == Hex16(ctx.spanID))
        && (kind == SampledKey ==> ctx.priority.Some? && pairs[i].1 == SampledFlag(ctx.priority.value))
        && kind != OtherKey
    {
      VisitedWasWritten(w, pairs, i);
    }
  }

  /** Entries that read back as a context are all readable. */
  lemma ReadsBackReadable(ctx: SpanContext, pairs: seq<(string, string)>)
    requires ReadsBack(ctx, pairs)
    ensures ExtractVisits(EmptySpanContext, pairs).Ok?
  {
    ReadHex16(ctx.traceID);
    ReadHex16(ctx.spanID);
    if ctx.priority.Some? {
      ReadFlag(ctx.priority.value);
    }
    forall i | 0 <= i < |pairs| ensures Readable(pairs[i].0, pairs[i].1) {
    }
    ExtractVisitsErrors(EmptySpanContext, pairs);
  }

  /** The last ID entries in a carrier the injector filled carry the context's IDs. */
  lemma InjectedLastIDs(ctx: SpanContext, pairs: seq<(string, string)>)
    requires IsVisitOrder(pairs, ApplySets(map[], HeaderWrites(ctx)))
    requires ReadsBack(ctx, pairs)
    ensures LastValue(pairs, TraceKey) == Some(Hex16(ctx.traceID))
    ensures LastValue(pairs, SpanKey) == Some(Hex16(ctx.spanID))
  {
    var w := HeaderWrites(ctx);
    HeaderKinds();
    WrittenIsVisited(w, pairs, 0);
    LastValueUnique(pairs, TraceKey, Hex16(ctx.traceID));
    WrittenIsVisited(w, pairs, 1);
    LastValueUnique(pairs, SpanKey, Hex16(ctx.spanID));
  }

  /** The last sampled entry in a carrier the injector filled is the flag, and there is one iff a priority is set. */
  lemma InjectedLastSampled(ctx: SpanContext, pairs: seq<(string, string)>)
    requires IsVisitOrder(pairs, ApplySets(map[], HeaderWrites(ctx)))
    requires ReadsBack(ctx, pairs)
    ensures LastValue(pairs, SampledKey) == (if ctx.priority.Some? then Some(SampledFlag(ctx.priority.value)) else None)
  {
    var w := HeaderWrites(ctx);
    HeaderKinds();
    var flag := if ctx.priority.Some? then SampledFlag(ctx.priority.value) else "";
    if ctx.priority.Some? {
      WrittenIsVisited(w, pairs, 2);
    }
    LastValueUnique(pairs, SampledKey, flag);
  }

  /**
   * Round trip: a context injected in the B3 format into an empty carrier is extracted with
   * the same IDs, whatever order the carrier visits its entries in; the priority comes back
   * as the sampled flag, 1 for a kept trace and 0 for a dropped one.
   */
  lemma InjectExtractRoundTrip(ctx: SpanContext, pairs: seq<(string, string)>)
    requires ctx.traceID != 0 && ctx.spanID != 0
    requires IsVisitOrder(pairs, ApplySets(map[], InjectPlan(Own(ctx), true).writes))
    ensures var r := ExtractResult(TextMap(pairs));
      && r.Ok? && r.value.traceID == ctx.traceID && r.value.spanID == ctx.spanID
      && r.value.priority == (if ctx.priority.Some? then Some(if ctx.priority.value >= PriorityAutoKeep then 1 else 0) else None)
  {
    assert InjectPlan(Own(ctx), true).writes == HeaderWrites(ctx);
    InjectedReadsBack(ctx, pairs);
    ReadsBackReadable(ctx, pairs);
    ExtractVisitsSummary(EmptySpanContext, pairs);
    InjectedLastIDs(ctx, pairs);
    InjectedLastSampled(ctx, pairs);
    ReadHex16(ctx.traceID);
    ReadHex16(ctx.spanID);
    if ctx.priority.Some? {
      ReadFlag(ctx.priority.value);
    }
  }

  /** The sampled flag reads back as 1 for a kept trace and 0 for a dropped one. */
  lemma ReadFlag(p: int)
    ensures Atoi(SampledFlag(p)) == Some(if p >= PriorityAutoKeep then 1 else 0)
  {
    assert Atoi("1") == Some(1) && Atoi("0") == Some(0);
  }

  /**
   * A 128-bit trace ID written as 32 hexadecimal digits keeps only its low 64 bits: the
   * extractor reads the last 16 digits.
   */
  lemma Extract128BitTraceID(ctx: SpanContext, x: nat)
    requires x < Pow16(32)
    ensures ExtractStep(ctx, TraceIDHeader, HexDigits(x, 32)) == Ok(ctx.(traceID := x % 0x1_0000_0000_0000_0000))
  {
    var v := HexDigits(x, 32);
    HexDigitsSuffix(x, 16, 16);
    assert TrimTraceID(v) == HexDigits(x, 16);
    HexDigitsMod(x, 16);
    Pow16Of16();
    assert ParseHex(HexDigits(x, 16)) == Some(x % 0x1_0000_0000_0000_0000);
    HeaderKinds();
  }
}
