# Trace-context propagation and AppSec actions, modelled in Dafny

This project models two parts of dd-trace-go.

**The tracer's text-map propagation engine** (`ddtrace/tracer/textmap.go`) moves a span
context across process boundaries through key/value carriers. A span context holds:

- a trace ID and a span ID;
- an optional sampling priority;
- an origin;
- baggage items;
- the trace's propagating tags.

The engine has these parts:

- `TextMapCarrier`: the plain-map carrier, written with `Set` and read with `ForeachKey`.
- Propagator selection: `NewPropagator` and `getPropagators` pick propagators from the configuration and the propagation-style settings.
- The chained propagator: it injects with every injector and extracts with the first extractor that finds a context.
- The Datadog format: decimal IDs under configurable headers, baggage under a prefix, and the `x-datadog-tags` codec with its size budgets.
- The B3 format: 16-digit hexadecimal IDs and the `x-b3-sampled` flag.
- W3C injection: `traceparent`, laid out as in section 3.2 of the W3C Trace Context Recommendation, and `tracestate` (section 3.3), recomposed by `composeTracestate` under its byte and member budgets. W3C extraction is not implemented in the source; it only panics.

**The AppSec block and redirect actions**
(`internal/appsec/dyngo/instrumentation/sharedsec/actions.go`):

- `pairs`, which appends to a gRPC metadata map in place;
- the block handler's choice between the HTML and JSON templates, including the Accept-header rule;
- the gRPC block and redirect wrappers;
- the two action constructors and `Blocking`.

## How the model is built

**Values and state.**
- A span context is a `datatype` (`Context.SpanContext`).
- The trace it points to is a value inside it (`Context.TraceState`). An operation that records a trace tag returns the updated context.
- `TextMapCarrier` is a `class` whose `entries` map is updated by `Set`.
- Extraction reads a `Reader`: the sequence of (key, value) pairs that `ForeachKey` hands to its callback, or a value that is not a reader.

**Each operation has a specification function and a method.**
- The specification functions are the `InjectPlan`s (the `Set` calls an injector makes, in order, with its error), `ExtractVisits`/`ExtractResult`, `Compose`, `MarshalResult` and `Selection`.
- The methods do what the Go code does step by step: they set carrier entries, grow a builder in a loop, fill a local context key by key, or append to a list. Each method is proved equal to its function, and the properties are proved about the functions.

**Go map iteration order is a parameter.** It is unspecified in Go, so it is an explicit input: the baggage order, the tag order, or the visit order. There is one baggage order and one tag order per chained call, shared by every injector of that call. Every property holds for every order.

**A Go panic is an outcome.** It becomes `Error.Panic(reason)`, which ends the chained injection as an error return would.

**Helpers from elsewhere in the tracer are parameters.** `parseUint64`, `isValidPropagatableTag` and `parsePropagatableTraceTags` are fields of `Context.Helpers`. Of these, a round trip assumes only that `parseUint64` reads back base-10 output (`ParsesDecimal`). The Datadog round trip also assumes header names the extractor can find again: lower-case, pairwise distinct and outside the baggage prefix (`DatadogProps.ReadableNames`).

**Two bounds follow the code rather than the round figures usually quoted for it.**
- `s[:255-b.Len()]` in `composeTracestate` panics whenever the builder is longer than 255 bytes, not only when it holds exactly 256. A builder of exactly 255 bytes gives an empty slice and no panic (`Tracestate.OldLoop`, `Tracestate.LongOriginPanics`).
- The Datadog member of `tracestate` is not capped at 256 bytes. The code does not count the `;` it adds before a tag, so the member can reach 257 bytes (`Tracestate.ComposeLength`).

**These quirks are reproduced as written:**
- `dd=s:<p>;;t.` when there is no origin;
- a trailing `,` after an empty previous state;
- a truncated segment appended without a `,`;
- separators not counted in the length checks;
- the `SplitAfterN` panic at 32 members;
- `none` matched case-sensitively and only as the whole style;
- tokens lower-cased but not trimmed;
- a configured Datadog header name with an upper-case letter: injection writes it as given, but extraction lower-cases every key before comparing, so it is never matched (`DatadogProps.UpperCaseTraceHeaderUnread`).

**`composeTracestate` is neither order-independent nor idempotent.**
- Two visiting orders of the same propagating tags give two different `tracestate` values (`Tracestate.ComposeDependsOnTagOrder`).
- An old-state segment cut to fit the budget is appended without a `,`, so it becomes part of the `dd=` member. Composing again from that result drops the piece along with the member (`Tracestate.ComposeDropsTruncated`).

## Model

| member | source | states |
|---|---|---|
| Carrier.TextMapCarrier.Set | ddtrace/tracer/textmap.go:54-56 | the key now holds the value and every other entry is unchanged |
| Carrier.TextMapCarrier.ForeachKey | ddtrace/tracer/textmap.go:59-66 | the callback is called once per entry with that entry's value, in whatever order the map iteration takes |
| Carrier.ApplySetsLookup | ddtrace/tracer/textmap.go:54-56 | after a series of `Set` calls, each key holds its last written value, or its old value if it was never written |
| Carrier.ApplySetsAppend | ddtrace/tracer/textmap.go:54-56 | two batches of `Set` calls made one after the other act as one batch |
| Carrier.ApplySetsFromEmpty | ddtrace/tracer/textmap.go:54-56 | in a carrier filled from empty, a key is present iff it was written, and it holds one of its writes |
| Carrier.VisitedWasWritten | ddtrace/tracer/textmap.go:54-66 | every entry read back from a carrier filled from empty is one of the writes |
| Carrier.WrittenIsVisited | ddtrace/tracer/textmap.go:54-66 | every key written into a carrier filled from empty is visited when it is read |
| Base.ToUint32 | internal/appsec/dyngo/instrumentation/sharedsec/actions.go:99-110 | `uint32(status)` keeps an in-range status and otherwise agrees with it modulo 2^32 |
| Datadog.WithDefaults | ddtrace/tracer/textmap.go:143-157 | each empty header name or prefix becomes its default (`x-datadog-trace-id`, `x-datadog-parent-id`, `x-datadog-sampling-priority`, `ot-baggage-`); names that are set, the tags budget and the B3 flag are kept |
| Chain.NewPropagator | ddtrace/tracer/textmap.go:142-180 | the configuration gets its defaults; explicit propagators are both the injectors and the extractors; otherwise each side is chosen from its style (current variable, then the deprecated one) |
| Chain.Defaults | ddtrace/tracer/textmap.go:195-199 | the default list starts with Datadog and holds B3 iff `cfg.B3` |
| Chain.TokenProps | ddtrace/tracer/textmap.go:215-228 | one style token adds at most one propagator |
| Chain.GetPropagators | ddtrace/tracer/textmap.go:194-234 | the list built token by token is the selection the style describes |
| Chain.AddTokens | ddtrace/tracer/textmap.go:214-229 | the loop appends, in token order, what each token names |
| Chain.AddToken | ddtrace/tracer/textmap.go:215-228 | `datadog` adds Datadog; `b3` and `b3multi` add B3 unless `cfg.B3` already did; any other lower-cased token adds nothing |
| Chain.RecognisedAppend | ddtrace/tracer/textmap.go:214-229 | the tokens' contributions concatenate |
| Chain.RecognisedSkips | ddtrace/tracer/textmap.go:223-227 | removing an unrecognised token (including `none` inside a list) changes nothing |
| Chain.RecognisedNoB3 | ddtrace/tracer/textmap.go:218-222 | with `cfg.B3` no token adds B3 again |
| Chain.SelectionNone | ddtrace/tracer/textmap.go:207-209 | a style of exactly `none` gives no propagators |
| Chain.SelectionUnset | ddtrace/tracer/textmap.go:200-205 | with no style set anywhere the result is `[Datadog]`, or `[Datadog, B3]` with `cfg.B3` |
| Chain.SelectionGeneric | ddtrace/tracer/textmap.go:200-203 | an empty style takes the generic style's selection |
| Chain.SelectionWithB3 | ddtrace/tracer/textmap.go:210-233 | with `cfg.B3` the list starts with B3, never holds it again, and never falls back to the defaults |
| Chain.SelectionWithoutB3 | ddtrace/tracer/textmap.go:210-233 | without `cfg.B3` the result is what the tokens name, or `[Datadog]` when they name nothing |
| Chain.SelectionNoneCaseSensitive | ddtrace/tracer/textmap.go:207-228 | `None` does not disable propagation: it is an unknown token, giving `[Datadog]`, or `[B3]` with `cfg.B3` |
| Chain.InjectChainStops | ddtrace/tracer/textmap.go:239-247 | once an injector fails, later injectors are not called and the chain returns that error |
| Chain.InjectChainContinues | ddtrace/tracer/textmap.go:239-247 | after a successful prefix, the rest of the chain runs on the context it left, and its writes come after the prefix's |
| Chain.InjectChainError | ddtrace/tracer/textmap.go:239-247 | the chain's error is an error that one of its injectors returns |
| Chain.NotWritable | ddtrace/tracer/textmap.go:239-247 | a carrier that is not a writer fails with `ErrInvalidCarrier` at the first injector and nothing is written |
| Chain.InjectWith | ddtrace/tracer/textmap.go:240-244 | one injector's call sets the carrier entries and returns the error its plan describes |
| Chain.Inject | ddtrace/tracer/textmap.go:239-247 | the carrier receives the chain's writes in order, and the first error is returned |
| Chain.ExtractChain | ddtrace/tracer/textmap.go:250-264 | a found context comes from one of the extractors; an error is either "not found" or an extractor's own error |
| Chain.ExtractChainFirstDecisive | ddtrace/tracer/textmap.go:250-264 | the result is that of the first extractor that does not report "not found", when all before it do |
| Chain.ExtractChainExhausted | ddtrace/tracer/textmap.go:250-264 | when every extractor reports "not found", or there are none, the chain reports `ErrSpanContextNotFound` |
| Chain.ExtractWith | ddtrace/tracer/textmap.go:251-252 | one extractor's call returns what that format's extraction specifies (W3C panics) |
| Chain.Extract | ddtrace/tracer/textmap.go:250-264 | the loop with early return gives the chained extraction result |
| Datadog.InjectPlan | ddtrace/tracer/textmap.go:272-306 | an invalid carrier or span context is reported and nothing is written; otherwise there is no error, the IDs are written first in base 10, and only the trace's tags can change, never its propagating tags |
| Datadog.WriteHeaders | ddtrace/tracer/textmap.go:287-294 | the carrier gets the IDs, the priority if set and the origin if non-empty, in that order |
| Datadog.WriteBaggage | ddtrace/tracer/textmap.go:296-298 | each baggage item is set under prefix + key, in visiting order |
| Datadog.Inject | ddtrace/tracer/textmap.go:272-306 | the carrier receives exactly the plan's writes and the plan's error is returned |
| Datadog.MarshalPropagatingTags | ddtrace/tracer/textmap.go:309-336 | the builder loop produces the marshalled string and the trace tags the specification gives; a nil trace gives `""` |
| Datadog.MarshalFromCharacterised | ddtrace/tracer/textmap.go:315-333 | all or nothing: when the valid pairs fit, the result is exactly their comma-joined `k=v` list; otherwise it is empty and `inject_max_size` is recorded. Invalid pairs are skipped and record `encoding_error`. Propagating tags never change |
| Datadog.MarshalFromLength | ddtrace/tracer/textmap.go:322-332 | the builder never exceeds the budget plus 2 |
| Datadog.MarshalLength | ddtrace/tracer/textmap.go:309-336 | the header is empty or at most `MaxTagsHeaderLen + 2` bytes |
| Datadog.MarshalCanExceedBudget | ddtrace/tracer/textmap.go:322-332 | the `+ 2` is reached: `a=b,c=d` fits a budget of 5 |
| Datadog.MarshalKeepsTags | ddtrace/tracer/textmap.go:309-336 | marshalling changes only the trace's tags, and neither creates nor removes the trace |
| Datadog.UnmarshalPropagatingTags | ddtrace/tracer/textmap.go:390-407 | a missing trace is created; a value over 512 bytes keeps the propagating tags and records `extract_max_size`; otherwise the parsed map replaces them and a parse error records `decoding_error` |
| Datadog.ExtractResult | ddtrace/tracer/textmap.go:338-387 | a returned context has a trace ID and either a parent ID or origin `synthetics`; the only errors are invalid carrier (iff the carrier is not a reader), not found and corrupted |
| Datadog.ExtractVisitsErrors | ddtrace/tracer/textmap.go:348-381 | visiting fails iff some ID or priority value does not parse, and then with `ErrSpanContextCorrupted` |
| Datadog.HandleKey | ddtrace/tracer/textmap.go:349-380 | the callback applies one lower-cased key to the local context as the switch says |
| Datadog.Extract | ddtrace/tracer/textmap.go:338-387 | the loop over the visits gives the extraction result |
| DatadogProps.ExtractVisitsSummary | ddtrace/tracer/textmap.go:347-381 | each field of the extracted context comes from the last entry for it, and the baggage from every prefixed entry in order |
| DatadogProps.ExtractVisitsBaggage | ddtrace/tracer/textmap.go:373-377 | keys with the baggage prefix become items named by the key without the prefix, with the value verbatim |
| DatadogProps.ExtractCorruptedIff | ddtrace/tracer/textmap.go:347-383 | extraction reports `ErrSpanContextCorrupted` iff some ID or priority header does not parse |
| DatadogProps.ExtractNeedsTraceID | ddtrace/tracer/textmap.go:384-386 | without a trace ID header the result is "not found" or "corrupted" |
| DatadogProps.ExtractSynthetics | ddtrace/tracer/textmap.go:347-386 | for any carrier whose last trace ID header parses to a non-zero ID and that has no parent ID header, extraction succeeds iff the last origin header is `synthetics`, and then with span ID 0 |
| DatadogProps.UpperCaseTraceHeaderUnread | ddtrace/tracer/textmap.go:349-386 | a trace header name configured with an upper-case letter is never matched, because keys are lower-cased first, so extraction always fails with "not found" or "corrupted" |
| DatadogProps.TraceHeaderStep | ddtrace/tracer/textmap.go:351-357 | a lower-case trace header name sets the trace ID, or reports corruption when the value does not parse |
| DatadogProps.OriginHeaderStep | ddtrace/tracer/textmap.go:368-369 | the origin header sets the origin unless a configured header name shadows it |
| DatadogProps.DefaultNamesReadable | ddtrace/tracer/textmap.go:78-100 | the default names are lower-case, pairwise distinct and outside the `ot-baggage-` prefix, so the round trip covers `NewPropagator(nil)` |
| DatadogProps.NamesKinds | ddtrace/tracer/textmap.go:351-372 | under readable names, each configured header, the origin header and the tags header is read back as its own field |
| DatadogProps.BaggageHeaderKind | ddtrace/tracer/textmap.go:373-377 | under readable names, `<prefix><name>` with a lower-case name reads back as baggage item `name` |
| DatadogProps.PlanWrites | ddtrace/tracer/textmap.go:281-305 | a successful injection writes the IDs, the priority, the origin and the baggage, and after them at most the tags header |
| DatadogProps.WritesReadBack | ddtrace/tracer/textmap.go:281-305 | every entry the injector writes, the tags header included, carries what the context holds for the field its key names |
| DatadogProps.ReadsBackBaggage | ddtrace/tracer/textmap.go:373-377 | the baggage read back from an injected carrier equals the context's baggage |
| DatadogProps.ReadsBackHeaders | ddtrace/tracer/textmap.go:347-381 | the IDs, priority and origin read back from an injected carrier are the context's |
| DatadogProps.InjectExtractRoundTrip | ddtrace/tracer/textmap.go:281-387 | for any readable header names and any tags budget, a context injected into an empty carrier is extracted with the same IDs, priority, origin and baggage, whatever the visit order, when the baggage keys are lower-case |
| DatadogProps.HeadersLower | ddtrace/tracer/textmap.go:68-100 | the default header names are lower-case, so the extractor's lower-casing matches them |
| B3.SampledFlag | ddtrace/tracer/textmap.go:432-438 | the flag is `1` iff the priority is at least `PriorityAutoKeep`, else `0` |
| B3.InjectPlan | ddtrace/tracer/textmap.go:419-443 | an invalid carrier or span context is reported and nothing is written; otherwise both IDs are written as 16 hex digits, and the flag only when a priority is set |
| B3.Inject | ddtrace/tracer/textmap.go:419-443 | the carrier receives exactly the plan's writes and the plan's error is returned |
| B3.TrimTraceID | ddtrace/tracer/textmap.go:462-464 | a trace ID longer than 16 characters keeps its last 16 |
| B3.ExtractResult | ddtrace/tracer/textmap.go:445-490 | a returned context has both IDs non-zero and no origin, baggage or trace (no trace because `setSamplingPriority` is modelled without its effect on the trace); the only errors are invalid carrier (iff not a reader), not found and corrupted |
| B3.ExtractVisitsErrors | ddtrace/tracer/textmap.go:455-482 | visiting fails iff some ID or sampled value does not parse, and then with `ErrSpanContextCorrupted` |
| B3.ExtractVisitsKeeps | ddtrace/tracer/textmap.go:455-479 | the B3 callback changes only the IDs and the priority |
| B3.HandleKey | ddtrace/tracer/textmap.go:456-481 | the callback applies one lower-cased key to the local context |
| B3.Extract | ddtrace/tracer/textmap.go:445-490 | the loop over the visits gives the extraction result |
| B3.ExtractVisitsSummary | ddtrace/tracer/textmap.go:455-482 | each ID and the priority come from the last entry for them |
| B3.ReadFlag | ddtrace/tracer/textmap.go:432-438 | the sampled flag reads back as priority 1 (kept) or 0 (dropped) |
| B3.InjectExtractRoundTrip | ddtrace/tracer/textmap.go:428-490 | a B3-injected context is extracted with the same IDs in any visit order; the priority comes back as 1 or 0 |
| B3.Extract128BitTraceID | ddtrace/tracer/textmap.go:461-467 | a 128-bit trace ID written as 32 hexadecimal digits is read as its low 64 bits, the ID modulo 2^64 |
| W3C.Flags | ddtrace/tracer/textmap.go:514-520 | the flags are `01` iff a priority of at least 1 is set, else `00` |
| W3C.TraceparentFields | ddtrace/tracer/textmap.go:521 | `traceparent` is 55 bytes: version `00`, the trace ID zero-padded to 32 hex digits, the span ID in 16, and the flags, each reading back |
| W3C.InjectPlanOutcomes | ddtrace/tracer/textmap.go:501-532 | invalid carrier or span context: nothing written. Otherwise `traceparent` comes first, and a nil trace panics after it. On success `tracestate` follows: the stored value, or, when recomposing, a value starting `dd=s:<p>;` |
| W3C.Inject | ddtrace/tracer/textmap.go:501-532 | the carrier receives exactly the plan's writes and the plan's error (or panic) is returned |
| W3C.InjectPassesStoredState | ddtrace/tracer/textmap.go:522-531 | an unchanged context with a stored `dd=` state writes it back verbatim |
| W3C.InjectFreshState | ddtrace/tracer/textmap.go:522-531 | an updated context with no origin, no `_dd.p.` tags and no stored state writes `dd=s:<p>;,` |
| W3C.ExtractResult | ddtrace/tracer/textmap.go:586-589 | W3C extraction always panics |
| Tracestate.Sanitize | ddtrace/tracer/textmap.go:535-536 | the result holds no special byte and no byte outside printable ASCII, and is no longer than the input |
| Tracestate.SanitizeClean | ddtrace/tracer/textmap.go:535-536 | a clean string is left unchanged |
| Tracestate.SanitizeIdempotent | ddtrace/tracer/textmap.go:535-536 | sanitizing twice is sanitizing once |
| Tracestate.OriginText | ddtrace/tracer/textmap.go:542-546 | the origin as written holds no `,`, `;` or `:` and only printable ASCII |
| Tracestate.TagText | ddtrace/tracer/textmap.go:553-556 | a tag member starts `t.`, holds no `,` and only printable ASCII |
| Tracestate.TagLoop | ddtrace/tracer/textmap.go:549-564 | the tag loop only appends to the builder and keeps the member count at most 32; a builder it has grown is at most 257 bytes (the 256-byte budget plus an uncounted `;`) |
| Tracestate.OldLoop | ddtrace/tracer/textmap.go:566-583 | without a panic, the old-state loop only appends to the builder, and a builder it has grown is at most 255 bytes |
| Tracestate.Members | ddtrace/tracer/textmap.go:538-564 | the `dd=` member starts `dd=s:<p>;` and counts at most 32 members |
| Tracestate.Compose | ddtrace/tracer/textmap.go:534-585 | a composed value starts `dd=s:<p>;` |
| Tracestate.ComposeTracestate | ddtrace/tracer/textmap.go:534-585 | the builder code returns the composed value or its panic |
| Tracestate.WriteMembers | ddtrace/tracer/textmap.go:538-564 | the priority, origin and tag loop build the `dd=` member |
| Tracestate.WriteOldState | ddtrace/tracer/textmap.go:566-583 | the loop over the old segments gives the old-state result, panics included |
| Tracestate.OldLoopDropsDD | ddtrace/tracer/textmap.go:570-572 | old segments starting `dd=` are dropped: removing them first changes nothing |
| Tracestate.OldLoopSafe | ddtrace/tracer/textmap.go:573-583 | with fewer than 32 members and a builder of at most 255 bytes, the old-state loop does not panic |
| Tracestate.OldLoopPanicsAtCapacity | ddtrace/tracer/textmap.go:574-578 | at 32 members even an empty old state panics in `SplitAfterN(...)[0]` |
| Tracestate.EmptyOldStateTrailingComma | ddtrace/tracer/textmap.go:566-583 | an empty old state leaves a trailing `,` |
| Tracestate.ComposeBare | ddtrace/tracer/textmap.go:538-583 | no origin and no `_dd.p.` tags with an empty old state give `dd=s:<p>;,` |
| Tracestate.ComposeDoubleSemicolon | ddtrace/tracer/textmap.go:538-561 | without an origin, the first tag follows `dd=s:<p>;` with another `;` |
| Tracestate.LongOriginPanics | ddtrace/tracer/textmap.go:542-583 | a clean origin of 248 bytes or more puts the builder past 255 bytes, so an empty old state panics in the slice |
| Tracestate.ComposeDropsTruncated | ddtrace/tracer/textmap.go:566-583 | a segment cut to fit is appended without a `,`, so composing again from the result drops it: composition is not idempotent |
| Tracestate.ComposeDependsOnTagOrder | ddtrace/tracer/textmap.go:549-561 | the two visiting orders of the tags `_dd.p.a=1` and `_dd.p.b=2` give `…;t.a:1;t.b:2,` and `…;t.b:2;t.a:1,` |
| Tracestate.ComposeLength | ddtrace/tracer/textmap.go:549-561 | without an origin the composed value is at most 257 bytes: the 256-byte budget plus one `;` it does not count |
| Actions.Pairs | internal/appsec/dyngo/instrumentation/sharedsec/actions.go:140-149 | an odd argument count panics with the formatted message and changes nothing; a nil map panics on the first write; otherwise each value is appended under its lower-cased key in place, and the same map is returned |
| Actions.AppendPairsLookup | internal/appsec/dyngo/instrumentation/sharedsec/actions.go:144-147 | each key holds its old values followed by the values given for it, in order; a key is present iff it was before or is given a value |
| Actions.FixedTemplate | internal/appsec/dyngo/instrumentation/sharedsec/actions.go:71-75 | `json` and `html` use their template whatever the Accept header |
| Actions.AcceptTemplateIff | internal/appsec/dyngo/instrumentation/sharedsec/actions.go:77-85 | the default handler serves HTML iff `text/html` occurs in Accept with no `application/json` at or before it |
| Actions.CallGRPC | internal/appsec/dyngo/instrumentation/sharedsec/actions.go:99-110 | block: `(uint32(status), "Request blocked")`, metadata untouched. Redirect: `location` appended in the caller's map, then `(uint32(status), "Redirected")`. A nil map panics |
| Actions.RedirectMetadata | internal/appsec/dyngo/instrumentation/sharedsec/actions.go:105-110 | after a redirect, `location` ends with the target and every other key is as it was |
| Actions.ActionKinds | internal/appsec/dyngo/instrumentation/sharedsec/actions.go:113-127 | block actions block and redirect actions do not; both answer gRPC with the given status |

## Left out

- `HTTPHeadersCarrier` (textmap.go:24-44): it relies on `net/http` header canonicalisation. Only `TextMapCarrier` is modelled.
- Environment variables are read through an `Env` parameter. Deprecation warnings and every `log` call are left out.
- `trace.mu` locking is left out; the model is sequential.
- DatadogProps.InjectExtractRoundTrip: does not claim that the propagating tags come back, because that depends on `parsePropagatableTraceTags`, a parameter. It assumes readable header names (`DatadogProps.ReadableNames`); an upper-case configured name breaks the round trip (`DatadogProps.UpperCaseTraceHeaderUnread`).
- Chain.Inject: every injector of one chained call sees the same baggage order and tag order. Go iterates each map afresh, so two injectors could see two different orders.
- B3.ExtractResult: the "no trace" clause holds because `setSamplingPriority` is modelled without its effect on the trace. In the tracer, setting the priority may touch the trace.
- Shared pointers are not modelled: the trace is a value inside the span context, so aliasing between contexts that share one trace is not captured.
- The regular expressions of `composeTracestate` become `Tracestate.Sanitize`, a character mapping with the same effect. No regular-expression engine is modelled.
- Go map iteration order is a parameter, and properties hold for every order. Go's randomisation of that order is not modelled.
- `parseUint64`, `isValidPropagatableTag` and `parsePropagatableTraceTags` live in files that are not part of this model; they are parameters (`Context.Helpers`).
- `newTrace`, `trace.setTag`, `samplingPriority` and `setBaggageItem` live in span_context.go, which is not part of this model.
  - They are modelled by their visible effect: a fresh trace with no tags; one tag recorded; the priority read (0 when unset); one item set.
  - `setSamplingPriority` is modelled as recording the priority on the context only. Any effect it has on the trace, on the sampling decision or on the `updated` flag is not modelled.
- Extraction never sets `updated`; it starts from the zero context.
- `ToLower` is modelled on ASCII letters only. Strings are byte sequences, and Unicode case mapping is not modelled.
- User-supplied `Propagator` implementations are not modelled. A chain holds the Datadog, B3 and W3C propagators only.
- W3C extraction is not implemented in the source; it is modelled as its panic (`W3C.ExtractResult`).
- Template loading in `init` (actions.go:34-45) is not modelled. The block handlers' `ServeHTTP`, which writes the status, the Content-Type and the payload bytes, is modelled only as the choice of template (`Actions.ServedTemplate`).
- `http.RedirectHandler`'s response is not modelled. The redirect action is modelled only by its data, the location and the status.
- HTTP status codes are unbounded integers; the width of Go's `int` is modelled only where `uint32(status)` truncates it.
- `NewPropagator` fills the defaults into the caller's configuration in place. The model returns the filled-in configuration as `cfg'`; aliasing with the caller's pointer is not modelled.
- `Actions.Action.Blocking`, `HTTP` and `GRPC` are plain field reads (actions.go:63-65, 129-137); `Actions.ActionKinds` states what they give for each constructor.
