/**
 * Propagator selection and the chained propagator (ddtrace/tracer/textmap.go): `NewPropagator`
 * picks the injectors and extractors from the configuration and the propagation-style
 * settings, `getPropagators` parses a comma-separated style list, and `chainedPropagator`
 * injects with every injector and extracts with the first extractor that finds a context.
 */
module Chain {
  import opened Base
  import opened Text
  import opened Carrier
  import opened Context
  import Datadog
  import B3
  import W3C

  /** The propagators the chain is made of: Datadog (with its configuration), B3 and W3C. */
  datatype Propagator = DatadogFormat(cfg: Datadog.Config) | B3Format | W3CFormat

  /** `chainedPropagator`: the injectors and the extractors, in order. */
  datatype Chained = Chained(injectors: seq<Propagator>, extractors: seq<Propagator>)

  /**
   * The propagation-style environment variables, "" when unset:
   * `DD_TRACE_PROPAGATION_STYLE_INJECT`, `DD_PROPAGATION_STYLE_INJECT`,
   * `DD_TRACE_PROPAGATION_STYLE_EXTRACT`, `DD_PROPAGATION_STYLE_EXTRACT` and
   * `DD_TRACE_PROPAGATION_STYLE`.
   */
  datatype Env = Env(inject: string, injectDeprecated: string, extract: string, extractDeprecated: string, generic: string)

  /** The injection style: the current variable, else the deprecated one. */
  function InjectStyle(env: Env): string {
    if env.inject != "" then env.inject else env.injectDeprecated
  }

  /** The extraction style: the current variable, else the deprecated one. */
  function ExtractStyle(env: Env): string {
    if env.extract != "" then env.extract else env.extractDeprecated
  }

  // ---------------------------------------------------------------------------------------
  // `getPropagators`

  /** The list used when no style is set, or when a style names nothing usable. */
  function Defaults(cfg: Datadog.Config): (r: seq<Propagator>)
    ensures |r| >= 1 && r[0] == DatadogFormat(cfg)
    ensures B3Format in r <==> cfg.b3
  {
    [DatadogFormat(cfg)] + (if cfg.b3 then [B3Format] else [])
  }

  /**
   * What one style token adds: `datadog` adds the Datadog propagator, `b3` and `b3multi` add
   * B3 unless `cfg.b3` already put it first; anything else (including `none`) adds nothing.
   * The token is lower-cased but not trimmed.
   */
  function TokenProps(cfg: Datadog.Config, token: string): (r: seq<Propagator>)
    ensures |r| <= 1
  {
    var v := Lower(token);
    if v == "datadog" then [DatadogFormat(cfg)]
    else if (v == "b3" || v == "b3multi") && !cfg.b3 then [B3Format]
    else []
  }

  /** The propagators the tokens add, in order. */
  function Recognised(cfg: Datadog.Config, tokens: seq<string>): seq<Propagator>
    decreases |tokens|
  {
    if tokens == [] then [] else Recognised(cfg, tokens[..|tokens| - 1]) + TokenProps(cfg, tokens[|tokens| - 1])
  }

  /**
   * `getPropagators(cfg, ps)`, with `generic` standing for `DD_TRACE_PROPAGATION_STYLE`: an
   * empty style falls back to the generic one, and to the defaults when that is empty too;
   * exactly `none` gives no propagator; otherwise B3 first when `cfg.b3`, then what the
   * tokens name, and the defaults if that is nothing.
   */
  function Selection(cfg: Datadog.Config, ps: string, generic: string): seq<Propagator> {
    var style := if ps == "" then generic else ps;
    if style == "" then Defaults(cfg)
    else if style == "none" then []
    else
      var list := (if cfg.b3 then [B3Format] else []) + Recognised(cfg, Split(style, ','));
      if list == [] then Defaults(cfg) else list
  }

  /** `getPropagators`: appends to the list token by token. */
  method GetPropagators(cfg: Datadog.Config, ps: string, generic: string) returns (list: seq<Propagator>)
    ensures list == Selection(cfg, ps, generic)
  {
    var defaults := [DatadogFormat(cfg)];
    if cfg.b3 {
      defaults := defaults + [B3Format];
    }
    var style := ps;
    if style == "" {
      if generic != "" {
        style := generic;
      } else {
        return defaults;
      }
    }
    if style == "none" {
      return [];
    }
    list := [];
    if cfg.b3 {
      list := list + [B3Format];
    }
    var tokens := Split(style, ',');
    list := AddTokens(cfg, list, tokens);
    if list == [] {
      return defaults;
    }
  }

  /** The loop of `getPropagators`: appends what each token adds, in order. */
  method AddTokens(cfg: Datadog.Config, first: seq<Propagator>, tokens: seq<string>) returns (list: seq<Propagator>)
    ensures list == first + Recognised(cfg, tokens)
  {
    list := first;
    var i := 0;
    while i < |tokens|
      invariant 0 <= i <= |tokens|
      invariant list == first + Recognised(cfg, tokens[..i])
    {
      var add := AddToken(cfg, tokens[i]);
      list := list + add;
      assert tokens[..i + 1][..i] == tokens[..i];
      i := i + 1;
    }
    assert tokens[..i] == tokens;
  }

  /** The body of `getPropagators`' loop: the propagators one token adds. */
  method AddToken(cfg: Datadog.Config, token: string) returns (add: seq<Propagator>)
    ensures add == TokenProps(cfg, token)
  {
    add := [];
    var v := Lower(token);
    if v == "datadog" {
      add := [DatadogFormat(cfg)];
    } else if v == "b3" || v == "b3multi" {
      if !cfg.b3 {
        add := [B3Format];
      }
    }
  }

  // Properties of the selection

  /** `Recognised` distributes over concatenation of token lists. */
  lemma {:induction false} RecognisedAppend(cfg: Datadog.Config, a: seq<string>, b: seq<string>)
    ensures Recognised(cfg, a + b) == Recognised(cfg, a) + Recognised(cfg, b)
    decreases |b|
  {
    if b == [] {
      assert a + b == a;
    } else {
      var b' := b[..|b| - 1];
      assert (a + b)[..|a + b| - 1] == a + b';
      RecognisedAppend(cfg, a, b');
    }
  }

  /** A token naming no propagator is skipped: removing it changes nothing. */
  lemma RecognisedSkips(cfg: Datadog.Config, a: seq<string>, v: string, b: seq<string>)
    requires TokenProps(cfg, v) == []
    ensures Recognised(cfg, a + [v] + b) == Recognised(cfg, a + b)
  {
    assert Recognised(cfg, [v]) == [] by {
      assert [v][..0] == [];
    }
    RecognisedAppend(cfg, a, [v]);
    assert Recognised(cfg, a + [v]) == Recognised(cfg, a);
    RecognisedAppend(cfg, a + [v], b);
    RecognisedAppend(cfg, a, b);
  }

  /** With `cfg.b3` the tokens only ever add Datadog propagators. */
  lemma {:induction false} RecognisedNoB3(cfg: Datadog.Config, tokens: seq<string>)
    requires cfg.b3
    ensures B3Format !in Recognised(cfg, tokens)
    decreases |tokens|
  {
    if tokens != [] {
      RecognisedNoB3(cfg, tokens[..|tokens| - 1]);
    }
  }

  /** Exactly `none` disables propagation. */
  lemma SelectionNone(cfg: Datadog.Config, generic: string)
    ensures Selection(cfg, "none", generic) == []
  {
  }

  /** With no style set anywhere the defaults are used: Datadog, then B3 when `cfg.b3`. */
  lemma SelectionUnset(cfg: Datadog.Config)
    ensures Selection(cfg, "", "") == [DatadogFormat(cfg)] + (if cfg.b3 then [B3Format] else [])
  {
  }

  /** An empty style defers to the generic style. */
  lemma SelectionGeneric(cfg: Datadog.Config, generic: string)
    requires generic != ""
    ensures Selection(cfg, "", generic) == Selection(cfg, generic, "")
  {
  }

  /**
   * With `cfg.b3` and a style other than `none`, B3 comes first and only once, and the
   * defaults are never needed.
   */
  lemma SelectionWithB3(cfg: Datadog.Config, ps: string)
    requires cfg.b3 && ps != "" && ps != "none"
    ensures var r := Selection(cfg, ps, "");
      && r == [B3Format] + Recognised(cfg, Split(ps, ','))
      && B3Format !in r[1..]
  {
    var r := Selection(cfg, ps, "");
    RecognisedNoB3(cfg, Split(ps, ','));
    assert r[1..] == Recognised(cfg, Split(ps, ','));
  }

  /** Without `cfg.b3`, a style other than `none` gives what its tokens name, or the defaults if nothing. */
  lemma SelectionWithoutB3(cfg: Datadog.Config, ps: string)
    requires !cfg.b3 && ps != "" && ps != "none"
    ensures var named := Recognised(cfg, Split(ps, ','));
      Selection(cfg, ps, "") == if named == [] then [DatadogFormat(cfg)] else named
  {
  }

  /**
   * `none` is case-sensitive: `None` is an unrecognised token, so without `cfg.b3` the
   * defaults are used, and with it the list is B3 alone.
   */
  lemma SelectionNoneCaseSensitive(cfg: Datadog.Config)
    ensures Selection(cfg, "None", "") == if cfg.b3 then [B3Format] else [DatadogFormat(cfg)]
  {
    SplitSingle("None", ',');
    assert Lower("None") == "none" by {
      assert forall i :: 0 <= i < 4 ==> Lower("None")[i] == "none"[i];
    }
    assert TokenProps(cfg, "None") == [];
    assert Recognised(cfg, ["None"]) == Recognised(cfg, []) + TokenProps(cfg, "None");
  }

  // ---------------------------------------------------------------------------------------
  // `NewPropagator`

  /** The zero `PropagatorConfig` that `NewPropagator(nil, ...)` starts from. */
  const ZeroConfig: Datadog.Config := Datadog.Config("", "", "", "", 0, false)

  /**
   * `NewPropagator`: fills in the default header names (also in the caller's configuration,
   * returned as `cfg'`); explicit propagators serve as both injectors and extractors;
   * otherwise each side is selected from its style setting.
   */
  method NewPropagator(cfg: Option<Datadog.Config>, propagators: seq<Propagator>, env: Env)
    returns (r: Chained, cfg': Datadog.Config)
    ensures cfg' == Datadog.WithDefaults(cfg.GetOr(ZeroConfig))
    ensures |propagators| > 0 ==> r == Chained(propagators, propagators)
    ensures |propagators| == 0 ==>
      && r.injectors == Selection(cfg', InjectStyle(env), env.generic)
      && r.extractors == Selection(cfg', ExtractStyle(env), env.generic)
  {
    cfg' := Datadog.WithDefaults(cfg.GetOr(ZeroConfig));
    if |propagators| > 0 {
      return Chained(propagators, propagators), cfg';
    }
    var injectors := GetPropagators(cfg', InjectStyle(env), env.generic);
    var extractors := GetPropagators(cfg', ExtractStyle(env), env.generic);
    r := Chained(injectors, extractors);
  }

  // ---------------------------------------------------------------------------------------
  // `chainedPropagator.Inject`

  /**
   * What one propagator's `Inject` does. The map orders stand for the orders Go's iteration
   * happens to take; orders that do not fit the context describe no run and write nothing.
   */
  function PlanOf(h: Helpers, p: Propagator, arg: InjectedContext, writable: bool,
                  bagOrder: seq<string>, tagOrder: seq<string>): (r: Injection)
    ensures OrdersFit(arg, bagOrder, tagOrder) ==> OrdersFit(r.ctx, bagOrder, tagOrder)
  {
    if !OrdersFit(arg, bagOrder, tagOrder) then Injection([], None, arg)
    else
      match p
      case DatadogFormat(cfg) => Datadog.InjectPlan(cfg, h, arg, writable, bagOrder, tagOrder)
      case B3Format => B3.InjectPlan(arg, writable)
      case W3CFormat => W3C.InjectPlan(arg, writable, tagOrder)
  }

  /** The behaviour of every injector for one carrier and one pair of map orders. */
  function Injectors(h: Helpers, writable: bool, bagOrder: seq<string>, tagOrder: seq<string>):
    (Propagator, InjectedContext) -> Injection
  {
    (p, arg) => PlanOf(h, p, arg, writable, bagOrder, tagOrder)
  }

  /**
   * The chained injection, for any behaviour `step` of the single injectors: every injector
   * in turn, each seeing the context as the previous one left it, stopping at the first
   * error, which is returned.
   */
  function InjectChain(step: (Propagator, InjectedContext) -> Injection, ps: seq<Propagator>, arg: InjectedContext): Injection
    decreases |ps|
  {
    if ps == [] then Injection([], None, arg)
    else
      var first := step(ps[0], arg);
      if first.err.Some? then first
      else
        var rest := InjectChain(step, ps[1..], first.ctx);
        Injection(first.writes + rest.writes, rest.err, rest.ctx)
  }

  /** Injectors after a failing one are never called: once a prefix of the chain fails, the rest changes nothing. */
  lemma {:induction false} InjectChainStops(step: (Propagator, InjectedContext) -> Injection, ps: seq<Propagator>,
                                            more: seq<Propagator>, arg: InjectedContext)
    requires InjectChain(step, ps, arg).err.Some?
    ensures InjectChain(step, ps + more, arg) == InjectChain(step, ps, arg)
    decreases |ps|
  {
    assert (ps + more)[0] == ps[0] && (ps + more)[1..] == ps[1..] + more;
    var p := step(ps[0], arg);
    if p.err.None? {
      InjectChainStops(step, ps[1..], more, p.ctx);
    }
  }

  /** When a prefix of the chain succeeds, the rest continues from the context it left, after its writes. */
  lemma {:induction false} InjectChainContinues(step: (Propagator, InjectedContext) -> Injection, ps: seq<Propagator>,
                                                more: seq<Propagator>, arg: InjectedContext)
    requires InjectChain(step, ps, arg).err.None?
    ensures var first := InjectChain(step, ps, arg);
      var rest := InjectChain(step, more, first.ctx);
      InjectChain(step, ps + more, arg) == Injection(first.writes + rest.writes, rest.err, rest.ctx)
    decreases |ps|
  {
    if ps == [] {
      assert ps + more == more;
    } else {
      assert (ps + more)[0] == ps[0] && (ps + more)[1..] == ps[1..] + more;
      var p := step(ps[0], arg);
      InjectChainContinues(step, ps[1..], more, p.ctx);
      var f1 := InjectChain(step, ps[1..], p.ctx);
      var rest := InjectChain(step, more, f1.ctx);
      assert p.writes + (f1.writes + rest.writes) == (p.writes + f1.writes) + rest.writes;
    }
  }

  /** The error of a chained injection is the error of one of its injectors. */
  lemma {:induction false} InjectChainError(step: (Propagator, InjectedContext) -> Injection, ps: seq<Propagator>, arg: InjectedContext)
    ensures var r := InjectChain(step, ps, arg);
      r.err.Some? ==> exists i, c :: 0 <= i < |ps| && step(ps[i], c).err == r.err
    decreases |ps|
  {
    if ps != [] {
      var p := step(ps[0], arg);
      if p.err.None? {
        InjectChainError(step, ps[1..], p.ctx);
        var r := InjectChain(step, ps[1..], p.ctx);
        if r.err.Some? {
          var i, c :| 0 <= i < |ps[1..]| && step(ps[1..][i], c).err == r.err;
          assert step(ps[i + 1], c).err == r.err;
        }
      }
    }
  }

  /** Injecting into something that is not a writer fails with the first injector, writing nothing. */
  lemma NotWritable(h: Helpers, ps: seq<Propagator>, arg: InjectedContext, bagOrder: seq<string>, tagOrder: seq<string>)
    requires OrdersFit(arg, bagOrder, tagOrder) && ps != []
    ensures InjectChain(Injectors(h, false, bagOrder, tagOrder), ps, arg) == Injection([], Some(ErrInvalidCarrier), arg)
  {
    W3C.InjectPlanOutcomes(arg, false, tagOrder);
  }

  /** One injector's `Inject` on the carrier. */
  method InjectWith(h: Helpers, p: Propagator, arg: InjectedContext, carrier: TextMapCarrier?,
                    bagOrder: seq<string>, tagOrder: seq<string>) returns (err: Option<Error>, arg': InjectedContext)
    requires OrdersFit(arg, bagOrder, tagOrder)
    modifies carrier
    ensures var plan := PlanOf(h, p, arg, carrier != null, bagOrder, tagOrder);
      && err == plan.err && arg' == plan.ctx
      && (carrier != null ==> carrier.entries == ApplySets(old(carrier.entries), plan.writes))
  {
    arg' := arg;
    match p
    case DatadogFormat(cfg) => err, arg' := Datadog.Inject(cfg, h, arg, carrier, bagOrder, tagOrder);
    case B3Format => err := B3.Inject(arg, carrier);
    case W3CFormat => err := W3C.Inject(arg, carrier, tagOrder);
  }

  /** The chained `Inject`: calls each injector on the carrier and returns the first error. */
  method Inject(h: Helpers, c: Chained, arg: InjectedContext, carrier: TextMapCarrier?,
                bagOrder: seq<string>, tagOrder: seq<string>) returns (err: Option<Error>)
    requires OrdersFit(arg, bagOrder, tagOrder)
    modifies carrier
    ensures var plan := InjectChain(Injectors(h, carrier != null, bagOrder, tagOrder), c.injectors, arg);
      err == plan.err && (carrier != null ==> carrier.entries == ApplySets(old(carrier.entries), plan.writes))
  {
    ghost var step := Injectors(h, carrier != null, bagOrder, tagOrder);
    var ps := c.injectors;
    var cur := arg;
    ghost var done: seq<(string, string)> := [];
    var i := 0;
    while i < |ps|
      invariant 0 <= i <= |ps| && OrdersFit(cur, bagOrder, tagOrder)
      invariant carrier != null ==> carrier.entries == ApplySets(old(carrier.entries), done)
      invariant ChainFrom(step, ps, arg, i, cur, done)
    {
      ghost var plan := step(ps[i], cur);
      var e, next := InjectWith(h, ps[i], cur, carrier, bagOrder, tagOrder);
      if carrier != null {
        ApplySetsAppend(old(carrier.entries), done, plan.writes);
      }
      ChainAdvance(step, ps, arg, i, cur, done);
      if e.Some? {
        return e;
      }
      done := done + plan.writes;
      cur := next;
      i := i + 1;
    }
    ChainDone(step, ps, arg, cur, done);
    return None;
  }

  /** The loop state of the chained `Inject`: `done` written, the injectors from `i` on still to run from `cur`. */
  ghost predicate ChainFrom(step: (Propagator, InjectedContext) -> Injection, ps: seq<Propagator>, arg: InjectedContext,
                            i: int, cur: InjectedContext, done: seq<(string, string)>)
    requires 0 <= i <= |ps|
  {
    var rest := InjectChain(step, ps[i..], cur);
    InjectChain(step, ps, arg) == Injection(done + rest.writes, rest.err, rest.ctx)
  }

  /** One injector further: its error ends the chain; otherwise its writes join the done ones. */
  lemma ChainAdvance(step: (Propagator, InjectedContext) -> Injection, ps: seq<Propagator>, arg: InjectedContext,
                     i: int, cur: InjectedContext, done: seq<(string, string)>)
    requires 0 <= i < |ps| && ChainFrom(step, ps, arg, i, cur, done)
    ensures var plan := step(ps[i], cur);
      && (plan.err.Some? ==> InjectChain(step, ps, arg).err == plan.err)
      && (plan.err.None? ==> ChainFrom(step, ps, arg, i + 1, plan.ctx, done + plan.writes))
  {
    assert ps[i..][0] == ps[i] && ps[i..][1..] == ps[i + 1..];
    var plan := step(ps[i], cur);
    if plan.err.None? {
      var after := InjectChain(step, ps[i + 1..], plan.ctx);
      assert done + (plan.writes + after.writes) == (done + plan.writes) + after.writes;
    }
  }

  /** With every injector run, the chain's writes are the done ones and it reports no error. */
  lemma ChainDone(step: (Propagator, InjectedContext) -> Injection, ps: seq<Propagator>, arg: InjectedContext,
                  cur: InjectedContext, done: seq<(string, string)>)
    requires ChainFrom(step, ps, arg, |ps|, cur, done)
    ensures InjectChain(step, ps, arg).writes == done && InjectChain(step, ps, arg).err.None?
  {
    assert ps[|ps|..] == [];
    assert done + [] == done;
  }

  // ---------------------------------------------------------------------------------------
  // `chainedPropagator.Extract`

  /** What one propagator's `Extract` returns (W3C extraction is unimplemented and panics). */
  function ExtractOne(h: Helpers, p: Propagator, reader: Reader): Result<SpanContext, Error> {
    match p
    case DatadogFormat(cfg) => Datadog.ExtractResult(cfg, h, reader)
    case B3Format => B3.ExtractResult(reader)
    case W3CFormat => W3C.ExtractResult(reader)
  }

  /**
   * The chained extraction: the first extractor that returns a context wins; "not found"
   * moves on to the next one; any other error ends the search.
   */
  function ExtractChain(h: Helpers, ps: seq<Propagator>, reader: Reader): (r: Result<SpanContext, Error>)
    ensures r.Ok? ==> exists i :: 0 <= i < |ps| && ExtractOne(h, ps[i], reader) == r
    ensures r.Err? ==> r.error == ErrSpanContextNotFound || exists i :: 0 <= i < |ps| && ExtractOne(h, ps[i], reader) == r
    decreases |ps|
  {
    if ps == [] then Err(ErrSpanContextNotFound)
    else
      var first := ExtractOne(h, ps[0], reader);
      if first.Ok? || first.error != ErrSpanContextNotFound then first
      else
        var r := ExtractChain(h, ps[1..], reader);
        assert forall i :: 0 <= i < |ps| - 1 ==> ps[1..][i] == ps[i + 1];
        r
  }

  /**
   * The outcome is that of the first extractor whose outcome is not "not found", all those
   * before it having found nothing.
   */
  lemma {:induction false} ExtractChainFirstDecisive(h: Helpers, ps: seq<Propagator>, reader: Reader, i: int)
    requires 0 <= i < |ps|
    requires forall j :: 0 <= j < i ==> ExtractOne(h, ps[j], reader) == Err(ErrSpanContextNotFound)
    requires ExtractOne(h, ps[i], reader) != Err(ErrSpanContextNotFound)
    ensures ExtractChain(h, ps, reader) == ExtractOne(h, ps[i], reader)
    decreases i
  {
    if i > 0 {
      assert ExtractOne(h, ps[0], reader) == Err(ErrSpanContextNotFound);
      ExtractChainFirstDecisive(h, ps[1..], reader, i - 1);
    }
  }

  /** When every extractor finds nothing (or there is none), the chain finds nothing. */
  lemma {:induction false} ExtractChainExhausted(h: Helpers, ps: seq<Propagator>, reader: Reader)
    requires forall j :: 0 <= j < |ps| ==> ExtractOne(h, ps[j], reader) == Err(ErrSpanContextNotFound)
    ensures ExtractChain(h, ps, reader) == Err(ErrSpanContextNotFound)
    decreases |ps|
  {
    if ps != [] {
      assert ExtractOne(h, ps[0], reader) == Err(ErrSpanContextNotFound);
      ExtractChainExhausted(h, ps[1..], reader);
    }
  }

  /** One extractor's `Extract`. */
  method ExtractWith(h: Helpers, p: Propagator, reader: Reader) returns (r: Result<SpanContext, Error>)
    ensures r == ExtractOne(h, p, reader)
  {
    match p
    case DatadogFormat(cfg) => r := Datadog.Extract(cfg, h, reader);
    case B3Format => r := B3.Extract(reader);
    case W3CFormat => r := Err(Panic("implement me"));
  }

  /** The chained `Extract`: asks each extractor in turn. */
  method Extract(h: Helpers, c: Chained, reader: Reader) returns (r: Result<SpanContext, Error>)
    ensures r == ExtractChain(h, c.extractors, reader)
  {
    var ps := c.extractors;
    var i := 0;
    while i < |ps|
      invariant 0 <= i <= |ps|
      invariant ExtractChain(h, ps[i..], reader) == ExtractChain(h, ps, reader)
    {
      assert ps[i..][0] == ps[i] && ps[i..][1..] == ps[i + 1..];
      var res := ExtractWith(h, ps[i], reader);
      if res.Ok? || res.error != ErrSpanContextNotFound {
        return res;
      }
      i := i + 1;
    }
    return Err(ErrSpanContextNotFound);
  }
}
