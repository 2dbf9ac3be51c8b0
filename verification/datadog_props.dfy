/**
 * What Datadog extraction computes, summarised field by field over the visited entries, and
 * the round trip: a context injected into an empty carrier is extracted back, whatever order
 * `ForeachKey` visits the entries in.
 */
module DatadogProps {
  import opened Base
  import opened Text
  import opened Numbers
  import opened Carrier
  import opened Context
  import opened Datadog

  /** The value of the last visited entry whose lower-cased key falls into `kind`. */
  function LastValue(cfg: Config, pairs: seq<(string, string)>, kind: KeyKind): Option<string> {
    if pairs == [] then None
    else
      var later := LastValue(cfg, pairs[1..], kind);
      if later.Some? then later
      else if Classify(cfg, Lower(pairs[0].0)) == kind then Some(pairs[0].1)
      else None
  }

  /** The baggage items the visited entries carry, as `(name, value)` writes in visiting order. */
  function BaggageItems(cfg: Config, pairs: seq<(string, string)>): seq<(string, string)> {
    if pairs == [] then [] else ItemOf(cfg, pairs[0]) + BaggageItems(cfg, pairs[1..])
  }

  /** The baggage item one entry carries, if its key has the baggage prefix. */
  function ItemOf(cfg: Config, p: (string, string)): (r: seq<(string, string)>)
    ensures |r| <= 1
    ensures |r| == 1 <==> Classify(cfg, Lower(p.0)).BaggageKey?
    ensures |r| == 1 ==> r[0] == (Classify(cfg, Lower(p.0)).name, p.1)
  {
    match Classify(cfg, Lower(p.0))
    case BaggageKey(name) => [(name, p.1)]
    case _ => []
  }

  /**
   * A successful visit sets each ID to the last corresponding header parsed, the priority to
   * the last priority header read by `Atoi`, the origin to the last origin header, and the
   * baggage as the baggage headers write it in turn; a field whose header is absent keeps its
   * value.
   */
  lemma ExtractVisitsSummary(cfg: Config, h: Helpers, ctx: SpanContext, pairs: seq<(string, string)>)
    requires ExtractVisits(cfg, h, ctx, pairs).Ok?
    ensures var c := ExtractVisits(cfg, h, ctx, pairs).value;
      && c.traceID == (match LastValue(cfg, pairs, TraceKey) case None => ctx.traceID case Some(v) => h.parseUint64(v).GetOr(0))
      && c.spanID == (match LastValue(cfg, pairs, ParentKey) case None => ctx.spanID case Some(v) => h.parseUint64(v).GetOr(0))
      && c.priority == (match LastValue(cfg, pairs, PriorityKey) case None => ctx.priority case Some(v) => Atoi(v))
      && c.origin == LastValue(cfg, pairs, OriginKey).GetOr(ctx.origin)
      && c.baggage == ApplySets(ctx.baggage, BaggageItems(cfg, pairs))
      && c.updated == ctx.updated
  {
    ExtractVisitsHeaders(cfg, h, ctx, pairs);
    ExtractVisitsBaggage(cfg, h, ctx, pairs);
  }

  /** The ID, priority and origin part of `ExtractVisitsSummary`. */
  lemma {:induction false} ExtractVisitsHeaders(cfg: Config, h: Helpers, ctx: SpanContext, pairs: seq<(string, string)>)
    requires ExtractVisits(cfg, h, ctx, pairs).Ok?
    ensures var c := ExtractVisits(cfg, h, ctx, pairs).value;
      && c.traceID == (match LastValue(cfg, pairs, TraceKey) case None => ctx.traceID case Some(v) => h.parseUint64(v).GetOr(0))
      && c.spanID == (match LastValue(cfg, pairs, ParentKey) case None => ctx.spanID case Some(v) => h.parseUint64(v).GetOr(0))
      && c.priority == (match LastValue(cfg, pairs, PriorityKey) case None => ctx.priority case Some(v) => Atoi(v))
      && c.origin == LastValue(cfg, pairs, OriginKey).GetOr(ctx.origin)
      && c.updated == ctx.updated
    decreases |pairs|
  {
    if pairs != [] {
      var c1 := ExtractStep(cfg, h, ctx, pairs[0].0, pairs[0].1).value;
      ExtractVisitsHeaders(cfg, h, c1, pairs[1..]);
      match Classify(cfg, Lower(pairs[0].0))
      case TraceKey =>
      case ParentKey =>
      case PriorityKey =>
      case OriginKey =>
      case TagsKey =>
      case BaggageKey(_) =>
      case OtherKey =>
    }
  }

  /** The baggage part of `ExtractVisitsSummary`. */
  lemma {:induction false} ExtractVisitsBaggage(cfg: Config, h: Helpers, ctx: SpanContext, pairs: seq<(string, string)>)
    requires ExtractVisits(cfg, h, ctx, pairs).Ok?
    ensures ExtractVisits(cfg, h, ctx, pairs).value.baggage == ApplySets(ctx.baggage, BaggageItems(cfg, pairs))
    decreases |pairs|
  {
    if pairs != [] {
      var c1 := ExtractStep(cfg, h, ctx, pairs[0].0, pairs[0].1).value;
      ExtractVisitsBaggage(cfg, h, c1, pairs[1..]);
      match Classify(cfg, Lower(pairs[0].0))
      case BaggageKey(name) =>
        var items := BaggageItems(cfg, pairs[1..]);
        assert BaggageItems(cfg, pairs) == [(name, pairs[0].1)] + items;
        assert ([(name, pairs[0].1)] + items)[1..] == items;
      case _ =>
        assert ItemOf(cfg, pairs[0]) == [];
        assert BaggageItems(cfg, pairs) == BaggageItems(cfg, pairs[1..]);
    }
  }

  /** If every entry of a kind carries `v`, the last one does; one exists exactly when the last does. */
  lemma {:induction false} LastValueUnique(cfg: Config, pairs: seq<(string, string)>, kind: KeyKind, v: string)
    requires forall i :: 0 <= i < |pairs| && Classify(cfg, Lower(pairs[i].0)) == kind ==> pairs[i].1 == v
    ensures LastValue(cfg, pairs, kind) == None || LastValue(cfg, pairs, kind) == Some(v)
    ensures LastValue(cfg, pairs, kind).Some? <==> exists i :: 0 <= i < |pairs| && Classify(cfg, Lower(pairs[i].0)) == kind
  {
    if pairs != [] {
      LastValueUnique(cfg, pairs[1..], kind, v);
      if exists i :: 0 <= i < |pairs| && Classify(cfg, Lower(pairs[i].0)) == kind {
        var i :| 0 <= i < |pairs| && Classify(cfg, Lower(pairs[i].0)) == kind;
        if i > 0 {
          assert Classify(cfg, Lower(pairs[1..][i - 1].0)) == kind;
        }
      }
      if LastValue(cfg, pairs[1..], kind).Some? {
        var i :| 0 <= i < |pairs[1..]| && Classify(cfg, Lower(pairs[1..][i].0)) == kind;
        assert Classify(cfg, Lower(pairs[i + 1].0)) == kind;
      }
    }
  }

  /** The baggage item written last under a name is the last entry whose key gives that name. */
  lemma {:induction false} BaggageItemsLast(cfg: Config, pairs: seq<(string, string)>, name: string)
    ensures LastWrite(BaggageItems(cfg, pairs), name) == LastValue(cfg, pairs, BaggageKey(name))
  {
    if pairs != [] {
      BaggageItemsLast(cfg, pairs[1..], name);
      var head := ItemOf(cfg, pairs[0]);
      var rest := BaggageItems(cfg, pairs[1..]);
      if |head| == 1 {
        assert (head + rest)[1..] == rest;
        assert (head + rest)[0] == head[0];
      } else {
        assert head + rest == rest;
      }
    }
  }

  /** Extraction fails with `ErrSpanContextCorrupted` exactly when some ID or priority header does not parse. */
  lemma ExtractCorruptedIff(cfg: Config, h: Helpers, pairs: seq<(string, string)>)
    ensures ExtractResult(cfg, h, TextMap(pairs)) == Err(ErrSpanContextCorrupted) <==>
      exists i :: 0 <= i < |pairs| && !Readable(cfg, h, pairs[i].0, pairs[i].1)
  {
    ExtractVisitsErrors(cfg, h, EmptySpanContext, pairs);
  }

  /** A carrier without a trace ID header yields `ErrSpanContextNotFound` unless some entry is corrupt. */
  lemma ExtractNeedsTraceID(cfg: Config, h: Helpers, pairs: seq<(string, string)>)
    requires forall i :: 0 <= i < |pairs| ==> Classify(cfg, Lower(pairs[i].0)) != TraceKey
    ensures ExtractResult(cfg, h, TextMap(pairs)) in {Err(ErrSpanContextNotFound), Err(ErrSpanContextCorrupted)}
  {
    var r := ExtractVisits(cfg, h, EmptySpanContext, pairs);
    ExtractVisitsErrors(cfg, h, EmptySpanContext, pairs);
    if r.Ok? {
      ExtractVisitsSummary(cfg, h, EmptySpanContext, pairs);
      LastValueUnique(cfg, pairs, TraceKey, "");
    }
  }

  /** A configured trace header name with an upper-case letter is never matched, so extraction always fails. */
  lemma UpperCaseTraceHeaderUnread(cfg: Config, h: Helpers, pairs: seq<(string, string)>)
    requires !IsLower(cfg.traceHeader)
    ensures ExtractResult(cfg, h, TextMap(pairs)) in {Err(ErrSpanContextNotFound), Err(ErrSpanContextCorrupted)}
  {
    forall i | 0 <= i < |pairs| ensures Classify(cfg, Lower(pairs[i].0)) != TraceKey {
      LowerFixesLower(pairs[i].0);
    }
    ExtractNeedsTraceID(cfg, h, pairs);
  }

  /**
   * A carrier with a readable trace ID and no parent ID is extracted exactly when its last
   * origin header says `synthetics`, and then with span ID 0.
   */
  lemma ExtractSynthetics(cfg: Config, h: Helpers, pairs: seq<(string, string)>, traceID: U64)
    requires ExtractVisits(cfg, h, EmptySpanContext, pairs).Ok?
    requires LastValue(cfg, pairs, TraceKey).Some? && h.parseUint64(LastValue(cfg, pairs, TraceKey).value) == Some(traceID)
    requires traceID != 0
    requires LastValue(cfg, pairs, ParentKey) == None
    ensures var r := ExtractResult(cfg, h, TextMap(pairs));
      && (r.Ok? <==> LastValue(cfg, pairs, OriginKey) == Some("synthetics"))
      && (r.Ok? ==> r.value.traceID == traceID && r.value.spanID == 0 && r.value.origin == "synthetics")
  {
    ExtractVisitsSummary(cfg, h, EmptySpanContext, pairs);
  }

  /** A lower-case trace header name sets the trace ID. */
  lemma TraceHeaderStep(cfg: Config, h: Helpers, ctx: SpanContext, v: string)
    requires IsLower(cfg.traceHeader)
    ensures ExtractStep(cfg, h, ctx, cfg.traceHeader, v) ==
      (match h.parseUint64(v) case None => Err(ErrSpanContextCorrupted) case Some(id) => Ok(ctx.(traceID := id)))
  {
    LowerFixesLower(cfg.traceHeader);
  }

  /** An origin header sets the origin unless a configured header name shadows it. */
  lemma OriginHeaderStep(cfg: Config, h: Helpers, ctx: SpanContext, v: string)
    requires cfg.traceHeader != OriginHeader && cfg.parentHeader != OriginHeader && cfg.priorityHeader != OriginHeader
    ensures ExtractStep(cfg, h, ctx, OriginHeader, v) == Ok(ctx.(origin := v))
  {
    HeadersLower();
    LowerFixesLower(OriginHeader);
  }

  /**
   * Header names the extractor finds again: lower-case (it lower-cases every key before
   * comparing), pairwise distinct, and none of them starting with the baggage prefix.
   */
  predicate ReadableNames(cfg: Config) {
    && IsLower(cfg.traceHeader) && IsLower(cfg.parentHeader) && IsLower(cfg.priorityHeader)
    && IsLower(cfg.baggagePrefix)
    && cfg.traceHeader != cfg.parentHeader && cfg.traceHeader != cfg.priorityHeader
    && cfg.parentHeader != cfg.priorityHeader
    && cfg.traceHeader != OriginHeader && cfg.parentHeader != OriginHeader && cfg.priorityHeader != OriginHeader
    && cfg.traceHeader != TraceTagsHeader && cfg.parentHeader != TraceTagsHeader && cfg.priorityHeader != TraceTagsHeader
    && !HasPrefix(cfg.traceHeader, cfg.baggagePrefix) && !HasPrefix(cfg.parentHeader, cfg.baggagePrefix)
    && !HasPrefix(cfg.priorityHeader, cfg.baggagePrefix)
    && !HasPrefix(OriginHeader, cfg.baggagePrefix) && !HasPrefix(TraceTagsHeader, cfg.baggagePrefix)
  }

  /** The default names (what `NewPropagator` settles on without a configuration) are readable. */
  lemma DefaultNamesReadable(max: int)
    ensures ReadableNames(DefaultConfig(max))
  {
    HeadersLower();
    assert DefaultTraceIDHeader[0] == 'x' && DefaultParentIDHeader[0] == 'x' && DefaultPriorityHeader[0] == 'x';
    assert OriginHeader[0] == 'x' && TraceTagsHeader[0] == 'x' && DefaultBaggageHeaderPrefix[0] == 'o';
  }

  /** Under readable names, each header name is read back as its own field. */
  lemma NamesKinds(cfg: Config)
    requires ReadableNames(cfg)
    ensures Classify(cfg, Lower(cfg.traceHeader)) == TraceKey
    ensures Classify(cfg, Lower(cfg.parentHeader)) == ParentKey
    ensures Classify(cfg, Lower(cfg.priorityHeader)) == PriorityKey
    ensures Classify(cfg, Lower(OriginHeader)) == OriginKey
    ensures Classify(cfg, Lower(TraceTagsHeader)) == TagsKey
  {
    HeadersLower();
    LowerFixesLower(cfg.traceHeader);
    LowerFixesLower(cfg.parentHeader);
    LowerFixesLower(cfg.priorityHeader);
    LowerFixesLower(OriginHeader);
    LowerFixesLower(TraceTagsHeader);
  }

  /** A baggage header `<prefix><name>` with a lower-case name is read back as baggage item `name`. */
  lemma BaggageHeaderKind(cfg: Config, name: string)
    requires ReadableNames(cfg) && IsLower(name)
    ensures Classify(cfg, Lower(cfg.baggagePrefix + name)) == BaggageKey(name)
  {
    var key := cfg.baggagePrefix + name;
    LowerConcat(cfg.baggagePrefix, name);
    LowerFixesLower(cfg.baggagePrefix);
    LowerFixesLower(name);
    assert key[..|cfg.baggagePrefix|] == cfg.baggagePrefix;
    assert HasPrefix(key, cfg.baggagePrefix);
  }

  /** The writes the Datadog injector makes before the tags header. */
  function PlainWrites(cfg: Config, ctx: SpanContext, bagOrder: seq<string>): seq<(string, string)>
    requires IsKeyOrder(bagOrder, ctx.baggage)
  {
    HeaderWrites(cfg, ctx) + BaggageHeaders(cfg.baggagePrefix, ctx.baggage, bagOrder)
  }

  /** `w` is the plain writes followed by writes under the tags header only. */
  predicate PlainThenTags(cfg: Config, ctx: SpanContext, bagOrder: seq<string>, w: seq<(string, string)>)
    requires IsKeyOrder(bagOrder, ctx.baggage)
  {
    var p := PlainWrites(cfg, ctx, bagOrder);
    && |p| <= |w| && w[..|p|] == p
    && forall j :: |p| <= j < |w| ==> w[j].0 == TraceTagsHeader
  }

  /** A successful injection writes the IDs, priority, origin and baggage, then at most a tags header. */
  lemma PlanWrites(cfg: Config, h: Helpers, ctx: SpanContext, bagOrder: seq<string>, tagOrder: seq<string>)
    requires OrdersFit(Own(ctx), bagOrder, tagOrder) && ctx.traceID != 0 && ctx.spanID != 0
    ensures PlainThenTags(cfg, ctx, bagOrder, InjectPlan(cfg, h, Own(ctx), true, bagOrder, tagOrder).writes)
  {
    var p := PlainWrites(cfg, ctx, bagOrder);
    var w := InjectPlan(cfg, h, Own(ctx), true, bagOrder, tagOrder).writes;
    if cfg.maxTagsHeaderLen > 0 {
      var m := MarshalResult(cfg, h, ctx, tagOrder);
      var t := if |m.0| > 0 then [(TraceTagsHeader, m.0)] else [];
      assert w == p + t;
      assert (p + t)[..|p|] == p;
    } else {
      assert w[..|p|] == p;
    }
  }

  /**
   * How the extractor reads back each write of the injector: the ID headers give the IDs, the
   * priority and origin headers exist only when set and carry them, the tags header is read
   * as tags, and every other header is a baggage item of the context.
   */
  lemma WriteKind(cfg: Config, ctx: SpanContext, bagOrder: seq<string>, w: seq<(string, string)>, j: int)
    requires ReadableNames(cfg)
    requires IsKeyOrder(bagOrder, ctx.baggage)
    requires forall k :: k in ctx.baggage ==> IsLower(k)
    requires PlainThenTags(cfg, ctx, bagOrder, w) && 0 <= j < |w|
    ensures var kind := Classify(cfg, Lower(w[j].0));
      && (kind == TraceKey ==> w[j].1 == Decimal(ctx.traceID))
      && (kind == ParentKey ==> w[j].1 == Decimal(ctx.spanID))
      && (kind == PriorityKey ==> ctx.priority.Some? && w[j].1 == Itoa(ctx.priority.value))
      && (kind == OriginKey ==> w[j].1 == ctx.origin)
      && kind != OtherKey
      && (kind.BaggageKey? ==> kind.name in ctx.baggage && w[j].1 == ctx.baggage[kind.name])
  {
    var p := PlainWrites(cfg, ctx, bagOrder);
    var hw := HeaderWrites(cfg, ctx);
    NamesKinds(cfg);
    if j < |p| {
      assert w[j] == w[..|p|][j];
      if j < |hw| {
        assert p[j] == hw[j];
      } else {
        var k := bagOrder[j - |hw|];
        assert p[j] == (cfg.baggagePrefix + k, ctx.baggage[k]);
        BaggageHeaderKind(cfg, k);
      }
    }
  }

  /** Each visited entry carries what the context holds for the field its key names. */
  predicate ReadsBack(cfg: Config, ctx: SpanContext, pairs: seq<(string, string)>) {
    forall i :: 0 <= i < |pairs| ==>
      var kind := Classify(cfg, Lower(pairs[i].0));
      && (kind == TraceKey ==> pairs[i].1 == Decimal(ctx.traceID))
      && (kind == ParentKey ==> pairs[i].1 == Decimal(ctx.spanID))
      && (kind == PriorityKey ==> ctx.priority.Some? && pairs[i].1 == Itoa(ctx.priority.value))
      && (kind == OriginKey ==> pairs[i].1 == ctx.origin)
      && (kind.BaggageKey? ==> kind.name in ctx.baggage && pairs[i].1 == ctx.baggage[kind.name])
  }

  lemma WritesReadBack(cfg: Config, ctx: SpanContext, bagOrder: seq<string>, w: seq<(string, string)>,
                       pairs: seq<(string, string)>)
    requires ReadableNames(cfg)
    requires IsKeyOrder(bagOrder, ctx.baggage)
    requires forall k :: k in ctx.baggage ==> IsLower(k)
    requires PlainThenTags(cfg, ctx, bagOrder, w)
    requires IsVisitOrder(pairs, ApplySets(map[], w))
    ensures ReadsBack(cfg, ctx, pairs)
  {
    forall i | 0 <= i < |pairs|
      ensures var kind := Classify(cfg, Lower(pairs[i].0));
        && (kind == TraceKey ==> pairs[i].1 == Decimal(ctx.traceID))
        && (kind == ParentKey ==> pairs[i].1 == Decimal(ctx.spanID))
        && (kind == PriorityKey ==> ctx.priority.Some? && pairs[i].1 == Itoa(ctx.priority.value))
        && (kind == OriginKey ==> pairs[i].1 == ctx.origin)
        && (kind.BaggageKey? ==> kind.name in ctx.baggage && pairs[i].1 == ctx.baggage[kind.name])
    {
      VisitedWasWritten(w, pairs, i);
      var j :| 0 <= j < |w| && w[j] == pairs[i];
      WriteKind(cfg, ctx, bagOrder, w, j);
    }
  }

  /** Entries that read back as the context are all readable when `parseUint64` reads base 10. */
  lemma ReadsBackReadable(cfg: Config, h: Helpers, ctx: SpanContext, pairs: seq<(string, string)>)
    requires ParsesDecimal(h) && ReadsBack(cfg, ctx, pairs)
    ensures ExtractVisits(cfg, h, EmptySpanContext, pairs).Ok?
  {
    forall i | 0 <= i < |pairs| ensures Readable(cfg, h, pairs[i].0, pairs[i].1) {
      if ctx.priority.Some? {
        AtoiItoa(ctx.priority.value);
      }
    }
    ExtractVisitsErrors(cfg, h, EmptySpanContext, pairs);
  }

  /** The last baggage entry for `name` carries the context's item, and there is one iff the context has it. */
  lemma ReadsBackBaggageLast(cfg: Config, ctx: SpanContext, bagOrder: seq<string>, w: seq<(string, string)>,
                             pairs: seq<(string, string)>, name: string)
    requires ReadableNames(cfg)
    requires IsKeyOrder(bagOrder, ctx.baggage)
    requires forall k :: k in ctx.baggage ==> IsLower(k)
    requires PlainThenTags(cfg, ctx, bagOrder, w)
    requires IsVisitOrder(pairs, ApplySets(map[], w))
    requires ReadsBack(cfg, ctx, pairs)
    ensures LastValue(cfg, pairs, BaggageKey(name)) == (if name in ctx.baggage then Some(ctx.baggage[name]) else None)
  {
    var v := if name in ctx.baggage then ctx.baggage[name] else "";
    LastValueUnique(cfg, pairs, BaggageKey(name), v);
    if name in ctx.baggage {
      var j := BaggageWriteAt(cfg, ctx, bagOrder, w, name);
      WrittenIsVisited(w, pairs, j);
      BaggageHeaderKind(cfg, name);
    }
  }

  /** Where the injector writes the header of a baggage item. */
  lemma BaggageWriteAt(cfg: Config, ctx: SpanContext, bagOrder: seq<string>, w: seq<(string, string)>, name: string)
    returns (j: int)
    requires IsKeyOrder(bagOrder, ctx.baggage)
    requires PlainThenTags(cfg, ctx, bagOrder, w)
    requires name in ctx.baggage
    ensures 0 <= j < |w| && w[j] == (cfg.baggagePrefix + name, ctx.baggage[name])
  {
    var p := PlainWrites(cfg, ctx, bagOrder);
    var hw := HeaderWrites(cfg, ctx);
    var b :| 0 <= b < |bagOrder| && bagOrder[b] == name;
    j := |hw| + b;
    assert w[j] == w[..|p|][j] == p[j];
  }

  /** One baggage item read back: present exactly when the context has it, with its value. */
  lemma ReadsBackBaggageItem(cfg: Config, ctx: SpanContext, bagOrder: seq<string>, w: seq<(string, string)>,
                             pairs: seq<(string, string)>, name: string)
    requires ReadableNames(cfg)
    requires IsKeyOrder(bagOrder, ctx.baggage)
    requires forall k :: k in ctx.baggage ==> IsLower(k)
    requires PlainThenTags(cfg, ctx, bagOrder, w)
    requires IsVisitOrder(pairs, ApplySets(map[], w))
    requires ReadsBack(cfg, ctx, pairs)
    ensures var r := ApplySets(map[], BaggageItems(cfg, pairs));
      && (name in r <==> name in ctx.baggage)
      && (name in ctx.baggage ==> r[name] == ctx.baggage[name])
  {
    ApplySetsLookup(map[], BaggageItems(cfg, pairs), name);
    BaggageItemsLast(cfg, pairs, name);
    ReadsBackBaggageLast(cfg, ctx, bagOrder, w, pairs, name);
  }

  /** The baggage read back from a carrier the injector filled is the context's baggage. */
  lemma ReadsBackBaggage(cfg: Config, ctx: SpanContext, bagOrder: seq<string>, w: seq<(string, string)>,
                         pairs: seq<(string, string)>)
    requires ReadableNames(cfg)
    requires IsKeyOrder(bagOrder, ctx.baggage)
    requires forall k :: k in ctx.baggage ==> IsLower(k)
    requires PlainThenTags(cfg, ctx, bagOrder, w)
    requires IsVisitOrder(pairs, ApplySets(map[], w))
    requires ReadsBack(cfg, ctx, pairs)
    ensures ApplySets(map[], BaggageItems(cfg, pairs)) == ctx.baggage
  {
    var r := ApplySets(map[], BaggageItems(cfg, pairs));
    forall name
      ensures name in r <==> name in ctx.baggage
      ensures name in ctx.baggage ==> r[name] == ctx.baggage[name]
    {
      ReadsBackBaggageItem(cfg, ctx, bagOrder, w, pairs, name);
    }
    assert r == ctx.baggage;
  }

  /** The IDs read back from a carrier the injector filled. */
  lemma ReadsBackIDs(cfg: Config, ctx: SpanContext, bagOrder: seq<string>, w: seq<(string, string)>,
                     pairs: seq<(string, string)>)
    requires ReadableNames(cfg)
    requires IsKeyOrder(bagOrder, ctx.baggage)
    requires PlainThenTags(cfg, ctx, bagOrder, w)
    requires IsVisitOrder(pairs, ApplySets(map[], w))
    requires ReadsBack(cfg, ctx, pairs)
    ensures LastValue(cfg, pairs, TraceKey) == Some(Decimal(ctx.traceID))
    ensures LastValue(cfg, pairs, ParentKey) == Some(Decimal(ctx.spanID))
  {
    var p := PlainWrites(cfg, ctx, bagOrder);
    NamesKinds(cfg);
    assert w[0] == w[..|p|][0] == (cfg.traceHeader, Decimal(ctx.traceID));
    WrittenIsVisited(w, pairs, 0);
    LastValueUnique(cfg, pairs, TraceKey, Decimal(ctx.traceID));
    assert w[1] == w[..|p|][1] == (cfg.parentHeader, Decimal(ctx.spanID));
    WrittenIsVisited(w, pairs, 1);
    LastValueUnique(cfg, pairs, ParentKey, Decimal(ctx.spanID));
  }

  /** The priority and the origin read back from a carrier the injector filled. */
  lemma ReadsBackPriorityOrigin(cfg: Config, ctx: SpanContext, bagOrder: seq<string>, w: seq<(string, string)>,
                                pairs: seq<(string, string)>)
    requires ReadableNames(cfg)
    requires IsKeyOrder(bagOrder, ctx.baggage)
    requires PlainThenTags(cfg, ctx, bagOrder, w)
    requires IsVisitOrder(pairs, ApplySets(map[], w))
    requires ReadsBack(cfg, ctx, pairs)
    ensures (match LastValue(cfg, pairs, PriorityKey) case None => None case Some(v) => Atoi(v)) == ctx.priority
    ensures LastValue(cfg, pairs, OriginKey).GetOr("") == ctx.origin
  {
    var p := PlainWrites(cfg, ctx, bagOrder);
    var hw := HeaderWrites(cfg, ctx);
    NamesKinds(cfg);
    if ctx.priority.Some? {
      assert w[2] == w[..|p|][2] == (cfg.priorityHeader, Itoa(ctx.priority.value));
      WrittenIsVisited(w, pairs, 2);
      LastValueUnique(cfg, pairs, PriorityKey, Itoa(ctx.priority.value));
      AtoiItoa(ctx.priority.value);
    } else {
      LastValueUnique(cfg, pairs, PriorityKey, "");
    }
    LastValueUnique(cfg, pairs, OriginKey, ctx.origin);
    if ctx.origin != "" {
      var o := |hw| - 1;
      assert w[o] == w[..|p|][o] == (OriginHeader, ctx.origin);
      WrittenIsVisited(w, pairs, o);
    }
  }

  /** The IDs, the priority and the origin read back from a carrier the injector filled. */
  lemma ReadsBackHeaders(cfg: Config, h: Helpers, ctx: SpanContext, bagOrder: seq<string>, w: seq<(string, string)>,
                         pairs: seq<(string, string)>)
    requires ParsesDecimal(h)
    requires ReadableNames(cfg)
    requires IsKeyOrder(bagOrder, ctx.baggage)
    requires PlainThenTags(cfg, ctx, bagOrder, w)
    requires IsVisitOrder(pairs, ApplySets(map[], w))
    requires ReadsBack(cfg, ctx, pairs)
    requires ExtractVisits(cfg, h, EmptySpanContext, pairs).Ok?
    ensures var c := ExtractVisits(cfg, h, EmptySpanContext, pairs).value;
      c.traceID == ctx.traceID && c.spanID == ctx.spanID && c.priority == ctx.priority && c.origin == ctx.origin
  {
    ExtractVisitsSummary(cfg, h, EmptySpanContext, pairs);
    ReadsBackIDs(cfg, ctx, bagOrder, w, pairs);
    ReadsBackPriorityOrigin(cfg, ctx, bagOrder, w, pairs);
  }

  /**
   * Round trip: a context injected in the Datadog format into an empty carrier is extracted
   * with the same IDs, priority, origin and baggage, whatever the tags budget and whatever
   * order the carrier visits its entries in, provided the header names are readable,
   * `parseUint64` reads back base-10 IDs and the baggage keys are lower-case (extraction
   * lower-cases every key).
   */
  lemma InjectExtractRoundTrip(h: Helpers, cfg: Config, ctx: SpanContext, bagOrder: seq<string>, tagOrder: seq<string>,
                               pairs: seq<(string, string)>)
    requires ParsesDecimal(h) && ReadableNames(cfg)
    requires ctx.traceID != 0 && ctx.spanID != 0
    requires forall k :: k in ctx.baggage ==> IsLower(k)
    requires OrdersFit(Own(ctx), bagOrder, tagOrder)
    requires IsVisitOrder(pairs, ApplySets(map[], InjectPlan(cfg, h, Own(ctx), true, bagOrder, tagOrder).writes))
    ensures var r := ExtractResult(cfg, h, TextMap(pairs));
      && r.Ok?
      && r.value.traceID == ctx.traceID && r.value.spanID == ctx.spanID
      && r.value.priority == ctx.priority && r.value.origin == ctx.origin
      && r.value.baggage == ctx.baggage
  {
    var w := InjectPlan(cfg, h, Own(ctx), true, bagOrder, tagOrder).writes;
    PlanWrites(cfg, h, ctx, bagOrder, tagOrder);
    WritesReadBack(cfg, ctx, bagOrder, w, pairs);
    ReadsBackReadable(cfg, h, ctx, pairs);
    ReadsBackHeaders(cfg, h, ctx, bagOrder, w, pairs);
    ReadsBackBaggage(cfg, ctx, bagOrder, w, pairs);
    ExtractVisitsSummary(cfg, h, EmptySpanContext, pairs);
  }

  /** The default header names are lower-case, so the extractor's `ToLower` leaves them as they are. */
  lemma HeadersLower()
    ensures IsLower(DefaultTraceIDHeader) && IsLower(DefaultParentIDHeader) && IsLower(DefaultPriorityHeader)
    ensures IsLower(OriginHeader) && IsLower(TraceTagsHeader) && IsLower(DefaultBaggageHeaderPrefix)
  {
    IdHeadersLower();
  }

  /** The ID and priority half of `HeadersLower`, checked on its own to keep each proof small. */
  lemma IdHeadersLower()
    ensures IsLower(DefaultTraceIDHeader) && IsLower(DefaultParentIDHeader) && IsLower(DefaultPriorityHeader)
  {
  }
}
