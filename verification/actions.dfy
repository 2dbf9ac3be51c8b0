/**
 * The AppSec block and redirect actions (internal/appsec/dyngo/instrumentation/sharedsec/actions.go):
 * the HTTP block handler's choice between the HTML and JSON templates, the gRPC wrappers
 * with their status codes and errors, and `pairs`, which appends to a gRPC metadata map.
 */
module Actions {
  import opened Base
  import opened Text
  import opened Numbers

  // ---------------------------------------------------------------------------------------
  // `pairs`

  /** A gRPC metadata map (`map[string][]string`), which `pairs` updates in place. */
  class Metadata {
    var md: map<string, seq<string>>

    constructor (m: map<string, seq<string>>)
      ensures md == m
    {
      md := m;
    }
  }

  /** `md[key]`: the values under `key`, an empty (nil) slice when it is absent. */
  function Values(m: map<string, seq<string>>, key: string): seq<string> {
    if key in m then m[key] else []
  }

  /** The map after appending each pair's value under its lower-cased key, pair by pair. */
  function AppendPairs(m: map<string, seq<string>>, kv: seq<string>): map<string, seq<string>>
    requires |kv| % 2 == 0
    decreases |kv|
  {
    if kv == [] then m
    else
      var before := AppendPairs(m, kv[..|kv| - 2]);
      var key := Lower(kv[|kv| - 2]);
      before[key := Values(before, key) + [kv[|kv| - 1]]]
  }

  /** The values of the pairs whose lower-cased key is `key`, in argument order. */
  function PairValues(kv: seq<string>, key: string): seq<string>
    requires |kv| % 2 == 0
    decreases |kv|
  {
    if kv == [] then [] else (if Lower(kv[0]) == key then [kv[1]] else []) + PairValues(kv[2..], key)
  }

  /** `PairValues` read from the last pair backwards. */
  lemma {:induction false} PairValuesSnoc(kv: seq<string>, key: string)
    requires |kv| % 2 == 0 && kv != []
    ensures PairValues(kv, key) ==
      PairValues(kv[..|kv| - 2], key) + (if Lower(kv[|kv| - 2]) == key then [kv[|kv| - 1]] else [])
    decreases |kv|
  {
    if |kv| > 2 {
      PairValuesSnoc(kv[2..], key);
      assert kv[2..][..|kv| - 4] == kv[..|kv| - 2][2..];
      assert kv[..|kv| - 2][0] == kv[0] && kv[..|kv| - 2][1] == kv[1];
    } else {
      assert kv[2..] == [];
    }
  }

  /**
   * After `pairs`, each key holds its old values followed by the values given for it, in
   * order; a key is present iff it was present or is given a value.
   */
  lemma {:induction false} AppendPairsLookup(m: map<string, seq<string>>, kv: seq<string>, key: string)
    requires |kv| % 2 == 0
    ensures Values(AppendPairs(m, kv), key) == Values(m, key) + PairValues(kv, key)
    ensures key in AppendPairs(m, kv) <==> key in m || PairValues(kv, key) != []
    decreases |kv|
  {
    if kv != [] {
      AppendPairsLookup(m, kv[..|kv| - 2], key);
      PairValuesSnoc(kv, key);
    }
  }

  /** The panic message for an odd number of arguments. */
  function OddPairsMessage(n: int): string {
    "metadata: Pairs got the odd number of input pairs for metadata: " + Itoa(n)
  }

  /** The run-time panic of a write to a nil map. */
  const NilMapPanic: string := "assignment to entry in nil map"

  /**
   * `pairs(md, kv...)`: an odd number of arguments panics; otherwise each value is appended
   * under its lower-cased key, in place, and the same map is returned (`null` is a nil map,
   * which panics on the first write).
   */
  method Pairs(md: Metadata?, kv: seq<string>) returns (r: Metadata?, panicked: Option<string>)
    modifies md
    ensures |kv| % 2 == 1 ==> panicked == Some(OddPairsMessage(|kv|)) && (md != null ==> md.md == old(md.md))
    ensures |kv| % 2 == 0 && md == null && kv != [] ==> panicked == Some(NilMapPanic)
    ensures |kv| % 2 == 0 && (md != null || kv == []) ==>
      panicked == None && r == md && (md != null ==> md.md == AppendPairs(old(md.md), kv))
  {
    if |kv| % 2 == 1 {
      return md, Some(OddPairsMessage(|kv|));
    }
    if md == null {
      if kv != [] {
        return md, Some(NilMapPanic);
      }
      return md, None;
    }
    var i := 0;
    while i < |kv|
      invariant 0 <= i <= |kv| && i % 2 == 0
      invariant md.md == AppendPairs(old(md.md), kv[..i])
    {
      var key := Lower(kv[i]);
      assert kv[..i + 2][..i] == kv[..i];
      assert kv[..i + 2][i] == kv[i] && kv[..i + 2][i + 1] == kv[i + 1];
      md.md := md.md[key := Values(md.md, key) + [kv[i + 1]]];
      i := i + 2;
    }
    assert kv[..i] == kv;
    return md, None;
  }

  // ---------------------------------------------------------------------------------------
  // HTTP block handler

  /** The two block-response templates. */
  datatype Template = HTMLTemplate | JSONTemplate

  /** The Content-Type each template is served with. */
  function ContentType(t: Template): string {
    match t
    case HTMLTemplate => "text/html"
    case JSONTemplate => "application/json"
  }

  /** An HTTP handler of an action: a fixed-template block, a block that reads Accept, or a redirect. */
  datatype HttpHandler =
    | BlockHandler(status: int, template: Template)
    | NegotiatingBlockHandler(status: int)
    | RedirectHandler(location: string, status: int)

  /** `NewBlockHandler`: `json` and `html` fix the template; anything else decides per request. */
  function NewBlockHandler(status: int, template: string): HttpHandler {
    if template == "json" then BlockHandler(status, JSONTemplate)
    else if template == "html" then BlockHandler(status, HTMLTemplate)
    else NegotiatingBlockHandler(status)
  }

  /** The per-request choice: HTML when `text/html` occurs in Accept before any `application/json`. */
  function AcceptTemplate(accept: string): Template {
    var htmlIdx := Index(accept, "text/html");
    var jsonIdx := Index(accept, "application/json");
    if htmlIdx != -1 && (jsonIdx == -1 || htmlIdx < jsonIdx) then HTMLTemplate else JSONTemplate
  }

  /** The template a block handler answers with for a request with the given Accept header. */
  function ServedTemplate(h: HttpHandler, accept: string): Option<Template> {
    match h
    case BlockHandler(_, t) => Some(t)
    case NegotiatingBlockHandler(_) => Some(AcceptTemplate(accept))
    case RedirectHandler(_, _) => None
  }

  /** A `json` or `html` template is used whatever the Accept header says. */
  lemma FixedTemplate(status: int, accept: string)
    ensures ServedTemplate(NewBlockHandler(status, "json"), accept) == Some(JSONTemplate)
    ensures ServedTemplate(NewBlockHandler(status, "html"), accept) == Some(HTMLTemplate)
  {
  }

  /**
   * HTML is chosen iff `text/html` occurs at some position with no `application/json` at or
   * before it.
   */
  lemma AcceptTemplateIff(accept: string)
    ensures AcceptTemplate(accept) == HTMLTemplate <==>
      exists i :: OccursAt(accept, "text/html", i) && forall j :: 0 <= j <= i ==> !OccursAt(accept, "application/json", j)
  {
    var htmlIdx := Index(accept, "text/html");
    var jsonIdx := Index(accept, "application/json");
    if AcceptTemplate(accept) == HTMLTemplate {
      assert OccursAt(accept, "text/html", htmlIdx);
      forall j | 0 <= j <= htmlIdx ensures !OccursAt(accept, "application/json", j) {
        if j == htmlIdx && OccursAt(accept, "application/json", j) {
          // `text/html` and `application/json` cannot start at the same position
          assert false;
        }
      }
    } else {
      forall i | OccursAt(accept, "text/html", i)
        ensures exists j :: 0 <= j <= i && OccursAt(accept, "application/json", j)
      {
        assert htmlIdx != -1 && htmlIdx <= i;
        assert jsonIdx != -1 && jsonIdx <= htmlIdx;
        assert OccursAt(accept, "application/json", jsonIdx);
      }
    }
  }

  // ---------------------------------------------------------------------------------------
  // gRPC wrappers and actions

  /** A gRPC wrapper: `newGRPCBlockHandler(status)` or `newGRPCRedirectHandler(status, loc)`. */
  datatype GRPCWrapper = GRPCBlock(status: Int64) | GRPCRedirect(status: Int64, location: string)

  /**
   * Calling a gRPC wrapper on a metadata map: the block wrapper ignores the map and returns
   * `uint32(status)` with "Request blocked"; the redirect wrapper appends the location under
   * `location` (panicking on a nil map) and returns `uint32(status)` with "Redirected".
   */
  method CallGRPC(w: GRPCWrapper, md: Metadata?) returns (code: U32, err: string, panicked: Option<string>)
    modifies md
    ensures w.GRPCBlock? ==>
      code == ToUint32(w.status) && err == "Request blocked" && panicked == None && (md != null ==> md.md == old(md.md))
    ensures w.GRPCRedirect? && md == null ==> panicked == Some(NilMapPanic)
    ensures w.GRPCRedirect? && md != null ==>
      && code == ToUint32(w.status) && err == "Redirected" && panicked == None
      && md.md == AppendPairs(old(md.md), ["location", w.location])
  {
    match w
    case GRPCBlock(status) =>
      return ToUint32(status), "Request blocked", None;
    case GRPCRedirect(status, loc) =>
      var _, p := Pairs(md, ["location", loc]);
      if p.Some? {
        return 0, "", p;
      }
      return ToUint32(status), "Redirected", None;
  }

  /** After a redirect, `location` ends with the target and every other key is as it was. */
  lemma RedirectMetadata(m: map<string, seq<string>>, loc: string, key: string)
    ensures Values(AppendPairs(m, ["location", loc]), "location") == Values(m, "location") + [loc]
    ensures key != "location" ==> Values(AppendPairs(m, ["location", loc]), key) == Values(m, key)
    ensures key != "location" ==> (key in AppendPairs(m, ["location", loc]) <==> key in m)
  {
    LocationIsLower();
    AppendPairsLookup(m, ["location", loc], "location");
    AppendPairsLookup(m, ["location", loc], key);
    assert ["location", loc][2..] == [];
  }

  lemma LocationIsLower()
    ensures Lower("location") == "location"
  {
    assert IsLower("location");
    LowerFixesLower("location");
  }

  /** `Action`: the HTTP handler, the gRPC wrapper and whether the action blocks. */
  datatype Action = Action(http: HttpHandler, grpc: GRPCWrapper, blocking: bool) {
    /** `Blocking`. */
    function Blocking(): bool {
      blocking
    }
  }

  /** `NewBlockRequestAction`: a blocking action with a block handler on both sides. */
  function NewBlockRequestAction(httpStatus: int, grpcStatus: Int64, template: string): Action {
    Action(NewBlockHandler(httpStatus, template), GRPCBlock(grpcStatus), true)
  }

  /** `NewRedirectRequestAction`: a non-blocking action redirecting to `loc`. */
  function NewRedirectRequestAction(status: Int64, loc: string): Action {
    Action(RedirectHandler(loc, status), GRPCRedirect(status, loc), false)
  }

  /** Block actions block, redirect actions do not, and both answer gRPC with the given status. */
  lemma ActionKinds(httpStatus: int, grpcStatus: Int64, template: string, status: Int64, loc: string)
    ensures NewBlockRequestAction(httpStatus, grpcStatus, template).Blocking()
    ensures !NewRedirectRequestAction(status, loc).Blocking()
    ensures NewBlockRequestAction(httpStatus, grpcStatus, template).grpc.status == grpcStatus
    ensures NewRedirectRequestAction(status, loc).grpc.status == status
  {
  }
}
