/**
 * `composeTracestate` (ddtrace/tracer/textmap.go): the W3C `tracestate` value the tracer
 * writes, a `dd=` list member carrying the sampling priority, the origin and the `_dd.p.`
 * propagating tags, followed by the other vendors' members of the previous value.
 *
 * The two regular expressions of the source are expressed as `Sanitize`, a character mapping:
 * each byte of the special set becomes `_`, and so does each maximal run of bytes outside the
 * printable ASCII range 0x20-0x7E.
 */
module Tracestate {
  import opened Base
  import opened Text
  import opened Numbers
  import opened Carrier
  import opened Context

  /** The prefix of the propagating tags that go into `tracestate`. */
  const DDTagPrefix: string := "_dd.p."

  /** The byte budgets of the tag loop and of the old-state loop, and the member limit. */
  const TagBudget: int := 256
  const OldStateBudget: int := 255
  const MaxMembers: int := 32

  /** Bytes the tag keys must not contain (`keyRgx` without its run class). */
  const KeySpecials: set<char> := {',', '='}
  /** Bytes the origin and tag values must not contain (`valueRgx` without its run class). */
  const ValueSpecials: set<char> := {',', ';', ':'}

  predicate Printable(c: char) {
    ' ' <= c <= '~'
  }

  /** Neither a special byte nor a byte outside printable ASCII occurs in `s`. */
  predicate Clean(s: string, specials: set<char>) {
    forall i :: 0 <= i < |s| ==> Printable(s[i]) && s[i] !in specials
  }

  /** `s` without its leading run of non-printable bytes. */
  function SkipUnprintable(s: string): (r: string)
    ensures |r| <= |s| && r == s[|s| - |r|..]
    ensures r == [] || Printable(r[0])
    ensures s != [] && !Printable(s[0]) ==> |r| < |s|
  {
    if s != [] && !Printable(s[0]) then SkipUnprintable(s[1..]) else s
  }

  /** `ReplaceAllString(s, "_")` for the pattern `<specials>|[^\x20-\x7E]+`. */
  function Sanitize(s: string, specials: set<char>): (r: string)
    requires '_' !in specials
    ensures Clean(r, specials)
    ensures |r| <= |s|
    decreases |s|
  {
    if s == [] then []
    else
      var head := if !Printable(s[0]) || s[0] in specials then "_" else [s[0]];
      var rest := Sanitize(if !Printable(s[0]) then SkipUnprintable(s) else s[1..], specials);
      CleanConcat(head, rest, specials);
      head + rest
  }

  lemma CleanConcat(a: string, b: string, specials: set<char>)
    requires Clean(a, specials) && Clean(b, specials)
    ensures Clean(a + b, specials)
  {
    assert forall i :: |a| <= i < |a + b| ==> (a + b)[i] == b[i - |a|];
  }

  /** A clean string is left as it is. */
  lemma {:induction false} SanitizeClean(s: string, specials: set<char>)
    requires '_' !in specials && Clean(s, specials)
    ensures Sanitize(s, specials) == s
    decreases |s|
  {
    if s != [] {
      assert Clean(s[1..], specials);
      SanitizeClean(s[1..], specials);
    }
  }

  /** Sanitizing twice is sanitizing once. */
  lemma SanitizeIdempotent(s: string, specials: set<char>)
    requires '_' !in specials
    ensures Sanitize(Sanitize(s, specials), specials) == Sanitize(s, specials)
  {
    SanitizeClean(Sanitize(s, specials), specials);
  }

  /** The origin as written into `o:`. */
  function OriginText(origin: string): (r: string)
    ensures Clean(r, ValueSpecials)
  {
    Sanitize(origin, ValueSpecials)
  }

  /**
   * The member text for a `_dd.p.<key>` tag: `t.<key>:<value>`, the key cleaned of `,`, `=` and
   * non-printable runs, the value cleaned of `,`, `;`, `:` and non-printable runs and with
   * `=` turned into `~`. The key may still hold `;` and `:`.
   */
  function TagText(k: string, v: string): (r: string)
    requires HasPrefix(k, DDTagPrefix)
    ensures HasPrefix(r, "t.")
    ensures ',' !in r
    ensures forall i :: 0 <= i < |r| ==> Printable(r[i])
  {
    var key := Sanitize(k[|DDTagPrefix|..], KeySpecials);
    var value := ReplaceChar(Sanitize(v, ValueSpecials), '=', '~');
    assert forall i :: 0 <= i < |value| ==> Printable(value[i]) && value[i] != ',' && value[i] != '=';
    var r := "t." + key + ":" + value;
    assert forall i :: 0 <= i < |r| ==> Printable(r[i]) && r[i] != ',' by {
      forall i | 0 <= i < |r| ensures Printable(r[i]) && r[i] != ',' {
        if i < 2 + |key| + 1 {
        } else {
          assert r[i] == value[i - 3 - |key|];
        }
      }
    }
    r
  }

  /**
   * The tag loop from builder `b` and member count `n` on, over the tags in visiting order:
   * tags without the `_dd.p.` prefix are skipped; a tag is appended as `;<text>` while
   * `len(b) + len(text) <= 256` (the `;` is not counted) and fewer than 32 members are
   * listed; the first tag that misses either ends the loop.
   */
  function TagLoop(tags: map<string, string>, order: seq<string>, b: string, n: nat): (r: (string, nat))
    requires forall i :: 0 <= i < |order| ==> order[i] in tags
    requires n <= MaxMembers
    ensures n <= r.1 <= MaxMembers
    ensures HasPrefix(r.0, b)
    ensures |r.0| <= |b| || |r.0| <= TagBudget + 1
    decreases |order|
  {
    if order == [] then (b, n)
    else if !HasPrefix(order[0], DDTagPrefix) then TagLoop(tags, order[1..], b, n)
    else
      var tag := TagText(order[0], tags[order[0]]);
      if |b| + |tag| <= TagBudget && n < MaxMembers then
        var r := TagLoop(tags, order[1..], b + ";" + tag, n + 1);
        PrefixTrans(r.0, b + ";" + tag, b);
        r
      else (b, n)
  }

  lemma PrefixTrans(a: string, b: string, c: string)
    requires HasPrefix(a, b) && HasPrefix(b, c)
    ensures HasPrefix(a, c)
  {
    assert a[..|c|] == b[..|c|];
  }

  /**
   * The old-state loop over the segments of the previous value, split at `,`: segments
   * starting with `dd=` are dropped; a segment that fits (`len(b) + len(s) < 255`, the `,`
   * not counted) is appended as `,<s>` while the member count allows, or else cut by
   * `SplitAfterN(s, ";", 32 - n)[0]`, which panics for `n == 32`; the first segment that does
   * not fit ends the loop, after appending, without a `,`, its longest `;`-terminated part
   * within the budget (exclusive of that `;`), and `s[:255 - len(b)]` panics when the builder
   * is already longer than 255. The member count is not advanced by this loop.
   */
  function OldLoop(segs: seq<string>, b: string, n: nat): (r: Result<string, Error>)
    requires n <= MaxMembers
    ensures r.Ok? ==> HasPrefix(r.value, b)
    ensures r.Ok? ==> |r.value| <= |b| || |r.value| <= OldStateBudget
    decreases |segs|
  {
    if segs == [] then Ok(b)
    else
      var s := segs[0];
      if HasPrefix(s, "dd=") then OldLoop(segs[1..], b, n)
      else if |b| + |s| < OldStateBudget then
        if n + Count(s, ';') < MaxMembers then
          var r := OldLoop(segs[1..], b + "," + s, n);
          if r.Ok? then PrefixTrans(r.value, b + "," + s, b); r else r
        else if MaxMembers - n == 0 then Err(Panic("index out of range"))
        else
          var part := SplitAfterFirst(s, ';', MaxMembers - n);
          var r := OldLoop(segs[1..], b + "," + part, n);
          if r.Ok? then PrefixTrans(r.value, b + "," + part, b); r else r
      else if |b| > OldStateBudget then Err(Panic("slice bounds out of range"))
      else
        var j := LastIndex(s[..OldStateBudget - |b|], ';');
        Ok(if j != -1 then b + s[..j] else b)
  }

  /** The `dd=` member as the builder holds it before the old state: `dd=s:<p>;`, then `o:<origin>` if any, then the tags. */
  function Members(ctx: SpanContext, p: Int64, order: seq<string>): (r: (string, nat))
    requires ctx.trace.Some? && TagOrderFits(ctx, order)
    ensures HasPrefix(r.0, "dd=s:" + Itoa(p) + ";")
    ensures r.1 <= MaxMembers
  {
    var b0 := "dd=s:" + Itoa(p) + ";";
    var b1 := if ctx.origin != "" then b0 + "o:" + OriginText(ctx.origin) else b0;
    var n1 := if ctx.origin != "" then 2 else 1;
    var r := TagLoop(ctx.trace.value.PropagatingTags(), order, b1, n1);
    PrefixTrans(r.0, b1, b0);
    r
  }

  /** What `composeTracestate` returns, or the panic it raises (a nil trace panics on the tag loop). */
  function Compose(ctx: SpanContext, p: Int64, oldState: string, order: seq<string>): (r: Result<string, Error>)
    requires TagOrderFits(ctx, order)
    ensures r.Ok? ==> HasPrefix(r.value, "dd=s:" + Itoa(p) + ";")
  {
    if ctx.trace.None? then Err(Panic("nil pointer dereference"))
    else
      var m := Members(ctx, p, order);
      var r := OldLoop(Split(oldState, ','), m.0, m.1);
      if r.Ok? then PrefixTrans(r.value, m.0, "dd=s:" + Itoa(p) + ";"); r else r
  }

  /** `composeTracestate`: grows a builder through the tag loop and the old-state loop. */
  method ComposeTracestate(ctx: SpanContext, p: Int64, oldState: string, order: seq<string>) returns (r: Result<string, Error>)
    requires TagOrderFits(ctx, order)
    ensures r == Compose(ctx, p, oldState, order)
  {
    if ctx.trace.None? {
      return Err(Panic("nil pointer dereference"));
    }
    var b, n := WriteMembers(ctx, p, order);
    r := WriteOldState(Split(oldState, ','), b, n);
  }

  /** The first half of `composeTracestate`: the priority, the origin and the tag loop. */
  method WriteMembers(ctx: SpanContext, p: Int64, order: seq<string>) returns (b: string, n: nat)
    requires ctx.trace.Some? && TagOrderFits(ctx, order)
    ensures (b, n) == Members(ctx, p, order)
  {
    var tags := ctx.trace.value.PropagatingTags();
    b := "dd=s:" + Itoa(p) + ";";
    n := 1;
    if ctx.origin != "" {
      b := b + "o:" + Sanitize(ctx.origin, ValueSpecials);
      n := n + 1;
    }
    var i := 0;
    while i < |order|
      invariant 0 <= i <= |order| && n <= MaxMembers
      invariant TagLoop(tags, order[i..], b, n) == Members(ctx, p, order)
    {
      var k := order[i];
      assert order[i..][0] == k && order[i..][1..] == order[i + 1..];
      if !HasPrefix(k, DDTagPrefix) {
        i := i + 1;
      } else {
        var tag := TagText(k, tags[k]);
        if |b| + |tag| <= TagBudget && n < MaxMembers {
          b := b + ";" + tag;
          n := n + 1;
          i := i + 1;
        } else {
          break;
        }
      }
    }
  }

  /** The second half of `composeTracestate`: the loop over the previous value's segments. */
  method WriteOldState(segs: seq<string>, b0: string, n: nat) returns (r: Result<string, Error>)
    requires n <= MaxMembers
    ensures r == OldLoop(segs, b0, n)
  {
    var b := b0;
    var j := 0;
    while j < |segs|
      invariant 0 <= j <= |segs|
      invariant OldLoop(segs[j..], b, n) == OldLoop(segs, b0, n)
    {
      var s := segs[j];
      assert segs[j..][0] == s && segs[j..][1..] == segs[j + 1..];
      if HasPrefix(s, "dd=") {
        j := j + 1;
      } else if |b| + |s| < OldStateBudget {
        if n + Count(s, ';') < MaxMembers {
          b := b + "," + s;
        } else if MaxMembers - n == 0 {
          return Err(Panic("index out of range"));
        } else {
          b := b + "," + SplitAfterFirst(s, ';', MaxMembers - n);
        }
        j := j + 1;
      } else {
        if |b| > OldStateBudget {
          return Err(Panic("slice bounds out of range"));
        }
        var cut := LastIndex(s[..OldStateBudget - |b|], ';');
        if cut != -1 {
          b := b + s[..cut];
        }
        return Ok(b);
      }
    }
    return Ok(b);
  }

  // ---------------------------------------------------------------------------------------
  // Properties

  /** Segments starting with `dd=` are dropped: removing them first changes nothing. */
  function WithoutDD(segs: seq<string>): (r: seq<string>)
    ensures forall i :: 0 <= i < |r| ==> !HasPrefix(r[i], "dd=")
  {
    if segs == [] then []
    else if HasPrefix(segs[0], "dd=") then WithoutDD(segs[1..])
    else [segs[0]] + WithoutDD(segs[1..])
  }

  lemma {:induction false} OldLoopDropsDD(segs: seq<string>, b: string, n: nat)
    requires n <= MaxMembers
    ensures OldLoop(segs, b, n) == OldLoop(WithoutDD(segs), b, n)
    decreases |segs|
  {
    if segs != [] {
      var rest := WithoutDD(segs[1..]);
      if !HasPrefix(segs[0], "dd=") {
        assert ([segs[0]] + rest)[0] == segs[0] && ([segs[0]] + rest)[1..] == rest;
        var s := segs[0];
        if |b| + |s| < OldStateBudget {
          if n + Count(s, ';') < MaxMembers {
            OldLoopDropsDD(segs[1..], b + "," + s, n);
          } else if MaxMembers - n != 0 {
            OldLoopDropsDD(segs[1..], b + "," + SplitAfterFirst(s, ';', MaxMembers - n), n);
          }
        }
      } else {
        OldLoopDropsDD(segs[1..], b, n);
      }
    }
  }

  /** With room for one more member and a builder within the budget, the old-state loop does not panic. */
  lemma {:induction false} OldLoopSafe(segs: seq<string>, b: string, n: nat)
    requires n < MaxMembers && |b| <= OldStateBudget
    ensures OldLoop(segs, b, n).Ok?
    decreases |segs|
  {
    if segs != [] {
      var s := segs[0];
      if HasPrefix(s, "dd=") {
        OldLoopSafe(segs[1..], b, n);
      } else if |b| + |s| < OldStateBudget {
        if n + Count(s, ';') < MaxMembers {
          OldLoopSafe(segs[1..], b + "," + s, n);
        } else {
          var part := SplitAfterFirst(s, ';', MaxMembers - n);
          OldLoopSafe(segs[1..], b + "," + part, n);
        }
      }
    }
  }

  /** At 32 members even an empty old state panics, in `SplitAfterN(s, ";", 0)[0]`. */
  lemma OldLoopPanicsAtCapacity(b: string)
    requires |b| < OldStateBudget
    ensures OldLoop(Split("", ','), b, MaxMembers) == Err(Panic("index out of range"))
  {
    assert Split("", ',') == [""];
  }

  /** An empty old state, with room left, leaves a trailing `,`. */
  lemma EmptyOldStateTrailingComma(b: string, n: nat)
    requires |b| < OldStateBudget && n < MaxMembers
    ensures OldLoop(Split("", ','), b, n) == Ok(b + ",")
  {
    assert Split("", ',') == [""];
    assert [""][1..] == [];
  }

  /**
   * A context with no origin and no `_dd.p.` tags composes `dd=s:<p>;,` from an empty old
   * state: the member's trailing `;` and the list's trailing `,`.
   */
  lemma ComposeBare(ctx: SpanContext, p: Int64, order: seq<string>)
    requires ctx.trace.Some? && TagOrderFits(ctx, order)
    requires ctx.origin == ""
    requires forall i :: 0 <= i < |order| ==> !HasPrefix(order[i], DDTagPrefix)
    ensures Compose(ctx, p, "", order) == Ok("dd=s:" + Itoa(p) + ";,")
  {
    var b0 := "dd=s:" + Itoa(p) + ";";
    TagLoopSkipsOthers(ctx.trace.value.PropagatingTags(), order, b0, 1);
    ItoaLength(p);
    assert Members(ctx, p, order) == (b0, 1);
    EmptyOldStateTrailingComma(b0, 1);
    assert b0 + "," == "dd=s:" + Itoa(p) + ";,";
  }

  /**
   * Without an origin, the first `_dd.p.` tag follows the priority's own `;` with another:
   * the member starts `dd=s:<p>;;t.`.
   */
  lemma ComposeDoubleSemicolon(ctx: SpanContext, p: Int64, oldState: string, order: seq<string>)
    requires ctx.trace.Some? && TagOrderFits(ctx, order)
    requires ctx.origin == "" && order != [] && HasPrefix(order[0], DDTagPrefix)
    requires |TagText(order[0], ctx.trace.value.PropagatingTags()[order[0]])| <= TagBudget - 26
    ensures Compose(ctx, p, oldState, order).Ok? ==>
      HasPrefix(Compose(ctx, p, oldState, order).value, "dd=s:" + Itoa(p) + ";;t.")
  {
    var tags := ctx.trace.value.PropagatingTags();
    var b0 := "dd=s:" + Itoa(p) + ";";
    var tag := TagText(order[0], tags[order[0]]);
    ItoaLength(p);
    var m := TagLoop(tags, order[1..], b0 + ";" + tag, 2);
    assert Members(ctx, p, order) == m;
    assert HasPrefix(b0 + ";" + tag, "dd=s:" + Itoa(p) + ";;t.") by {
      assert tag[..2] == "t.";
      assert (b0 + ";" + tag)[..|b0| + 3] == b0 + ";" + tag[..2];
    }
    PrefixTrans(m.0, b0 + ";" + tag, "dd=s:" + Itoa(p) + ";;t.");
    var r := Compose(ctx, p, oldState, order);
    if r.Ok? {
      PrefixTrans(r.value, m.0, "dd=s:" + Itoa(p) + ";;t.");
    }
  }

  /**
   * A (clean) origin of 248 bytes or more puts the builder past 255 bytes, and an empty old
   * state then panics in `s[:255-b.Len()]`.
   */
  lemma LongOriginPanics(ctx: SpanContext, p: Int64, order: seq<string>)
    requires ctx.trace.Some? && TagOrderFits(ctx, order)
    requires Clean(ctx.origin, ValueSpecials) && |ctx.origin| >= 248
    ensures Compose(ctx, p, "", order) == Err(Panic("slice bounds out of range"))
  {
    SanitizeClean(ctx.origin, ValueSpecials);
    var m := Members(ctx, p, order);
    assert |m.0| > OldStateBudget;
    assert Split("", ',') == [""];
  }

  /** Without an origin the composed value is at most 257 bytes: 256 plus one uncounted `;`. */
  lemma ComposeLength(ctx: SpanContext, p: Int64, oldState: string, order: seq<string>)
    requires TagOrderFits(ctx, order) && ctx.origin == ""
    ensures Compose(ctx, p, oldState, order).Ok? ==> |Compose(ctx, p, oldState, order).value| <= TagBudget + 1
  {
    ItoaLength(p);
  }

  lemma {:induction false} TagLoopSkipsOthers(tags: map<string, string>, order: seq<string>, b: string, n: nat)
    requires forall i :: 0 <= i < |order| ==> order[i] in tags
    requires forall i :: 0 <= i < |order| ==> !HasPrefix(order[i], DDTagPrefix)
    requires n <= MaxMembers
    ensures TagLoop(tags, order, b, n) == (b, n)
    decreases |order|
  {
    if order != [] {
      TagLoopSkipsOthers(tags, order[1..], b, n);
    }
  }

  /** The priority member holds no `,`: `Itoa` writes only digits and a sign. */
  lemma PriorityMemberNoComma(p: Int64)
    ensures ',' !in "dd=s:" + Itoa(p) + ";"
  {
    ItoaChars(p);
  }

  /**
   * Composition is not idempotent: an old-state segment that does not fit is cut at its last
   * `;` within the budget and appended without a `,`, so it joins the `dd=` member, and
   * composing again from the result drops it along with that member.
   */
  lemma ComposeDropsTruncated(ctx: SpanContext, p: Int64, order: seq<string>, s: string)
    requires ctx.trace.Some? && TagOrderFits(ctx, order) && ctx.origin == ""
    requires forall i :: 0 <= i < |order| ==> !HasPrefix(order[i], DDTagPrefix)
    requires ',' !in s && !HasPrefix(s, "dd=")
    requires var b0 := "dd=s:" + Itoa(p) + ";";
      |b0| <= OldStateBudget <= |b0| + |s| && LastIndex(s[..OldStateBudget - |b0|], ';') > 0
    ensures var b0 := "dd=s:" + Itoa(p) + ";";
      var j := LastIndex(s[..OldStateBudget - |b0|], ';');
      && Compose(ctx, p, s, order) == Ok(b0 + s[..j])
      && Compose(ctx, p, b0 + s[..j], order) == Ok(b0)
      && b0 + s[..j] != b0
  {
    var b0 := "dd=s:" + Itoa(p) + ";";
    var j := LastIndex(s[..OldStateBudget - |b0|], ';');
    MembersBare(ctx, p, order);
    SplitSingle(s, ',');
    OldLoopCuts(b0, s);
    PriorityMemberNoComma(p);
    CutJoinsMember(b0, s, j);
    OldLoopDropsMember(b0, b0 + s[..j]);
  }

  /** A single old-state segment that does not fit is cut at its last `;` within the budget. */
  lemma OldLoopCuts(b: string, s: string)
    requires !HasPrefix(s, "dd=") && |b| <= OldStateBudget <= |b| + |s|
    ensures var j := LastIndex(s[..OldStateBudget - |b|], ';');
      OldLoop([s], b, 1) == Ok(if j != -1 then b + s[..j] else b)
  {
  }

  /** A single old-state segment that is a `dd=` member is dropped. */
  lemma OldLoopDropsMember(b: string, t: string)
    requires HasPrefix(t, "dd=")
    ensures OldLoop([t], b, 1) == Ok(b)
  {
    assert [t][1..] == [];
  }

  /** The cut piece, glued to the `dd=` member without a `,`, is one segment starting with `dd=`. */
  lemma CutJoinsMember(b: string, s: string, j: int)
    requires ',' !in b && ',' !in s && HasPrefix(b, "dd=") && 0 <= j <= |s|
    ensures Split(b + s[..j], ',') == [b + s[..j]] && HasPrefix(b + s[..j], "dd=")
  {
    var t := b + s[..j];
    assert forall c :: c in s[..j] ==> c in s;
    assert ',' !in t;
    SplitSingle(t, ',');
    assert t[..3] == b[..3];
  }

  /** With no origin and no `_dd.p.` tags the builder holds the priority member alone. */
  lemma MembersBare(ctx: SpanContext, p: Int64, order: seq<string>)
    requires ctx.trace.Some? && TagOrderFits(ctx, order) && ctx.origin == ""
    requires forall i :: 0 <= i < |order| ==> !HasPrefix(order[i], DDTagPrefix)
    ensures Members(ctx, p, order) == ("dd=s:" + Itoa(p) + ";", 1)
  {
    TagLoopSkipsOthers(ctx.trace.value.PropagatingTags(), order, "dd=s:" + Itoa(p) + ";", 1);
  }

  /**
   * Composition depends on the order the tags are visited in: the two orders of the same two
   * `_dd.p.` tags give two different values.
   */
  lemma ComposeDependsOnTagOrder(ctx: SpanContext, p: Int64)
    requires ctx.trace.Some? && ctx.origin == ""
    requires ctx.trace.value.PropagatingTags() == map["_dd.p.a" := "1", "_dd.p.b" := "2"]
    ensures TagOrderFits(ctx, ["_dd.p.a", "_dd.p.b"]) && TagOrderFits(ctx, ["_dd.p.b", "_dd.p.a"])
    ensures var b0 := "dd=s:" + Itoa(p) + ";";
      && Compose(ctx, p, "", ["_dd.p.a", "_dd.p.b"]) == Ok(b0 + ";t.a:1;t.b:2,")
      && Compose(ctx, p, "", ["_dd.p.b", "_dd.p.a"]) == Ok(b0 + ";t.b:2;t.a:1,")
  {
    var b0 := "dd=s:" + Itoa(p) + ";";
    var tags := ctx.trace.value.PropagatingTags();
    TwoTagOrders(tags);
    ItoaLength(p);
    SimpleTagTexts();
    ComposeTwoTags(ctx, p, "_dd.p.a", "_dd.p.b", "t.a:1", "t.b:2");
    ComposeTwoTags(ctx, p, "_dd.p.b", "_dd.p.a", "t.b:2", "t.a:1");
    Glue(b0);
  }

  /** The two composed values, with their pieces run together. */
  lemma Glue(b0: string)
    ensures b0 + ";" + "t.a:1" + ";" + "t.b:2" + "," == b0 + ";t.a:1;t.b:2,"
    ensures b0 + ";" + "t.b:2" + ";" + "t.a:1" + "," == b0 + ";t.b:2;t.a:1,"
  {
  }

  /** Both orders of a two-entry map visit it. */
  lemma TwoTagOrders(tags: map<string, string>)
    requires tags == map["_dd.p.a" := "1", "_dd.p.b" := "2"]
    ensures IsKeyOrder(["_dd.p.a", "_dd.p.b"], tags) && IsKeyOrder(["_dd.p.b", "_dd.p.a"], tags)
    ensures "_dd.p.a" in tags && tags["_dd.p.a"] == "1" && "_dd.p.b" in tags && tags["_dd.p.b"] == "2"
  {
  }

  /** The member texts of `_dd.p.a=1` and `_dd.p.b=2`. */
  lemma SimpleTagTexts()
    ensures HasPrefix("_dd.p.a", DDTagPrefix) && TagText("_dd.p.a", "1") == "t.a:1"
    ensures HasPrefix("_dd.p.b", DDTagPrefix) && TagText("_dd.p.b", "2") == "t.b:2"
  {
    TagTextSimple("_dd.p.a", "a", "1");
    TagTextSimple("_dd.p.b", "b", "2");
  }

  /** Composing from an empty old state with two `_dd.p.` tags that fit, visited in a given order. */
  lemma ComposeTwoTags(ctx: SpanContext, p: Int64, k1: string, k2: string, t1: string, t2: string)
    requires ctx.trace.Some? && ctx.origin == "" && |Itoa(p)| <= 20
    requires IsKeyOrder([k1, k2], ctx.trace.value.PropagatingTags())
    requires k1 in ctx.trace.value.PropagatingTags() && k2 in ctx.trace.value.PropagatingTags()
    requires HasPrefix(k1, DDTagPrefix) && HasPrefix(k2, DDTagPrefix)
    requires TagText(k1, ctx.trace.value.PropagatingTags()[k1]) == t1
    requires TagText(k2, ctx.trace.value.PropagatingTags()[k2]) == t2
    requires |t1| + |t2| <= 200
    ensures Compose(ctx, p, "", [k1, k2]) == Ok("dd=s:" + Itoa(p) + ";" + ";" + t1 + ";" + t2 + ",")
  {
    var tags := ctx.trace.value.PropagatingTags();
    var b0 := "dd=s:" + Itoa(p) + ";";
    TwoTagLoop(tags, k1, k2, b0);
    var b := b0 + ";" + t1 + ";" + t2;
    assert Members(ctx, p, [k1, k2]) == (b, 3);
    EmptyOldStateTrailingComma(b, 3);
  }

  /** Two `_dd.p.` tags that fit are both appended, in visiting order. */
  lemma TwoTagLoop(tags: map<string, string>, k1: string, k2: string, b: string)
    requires k1 in tags && k2 in tags && HasPrefix(k1, DDTagPrefix) && HasPrefix(k2, DDTagPrefix)
    requires |b| + |TagText(k1, tags[k1])| + |TagText(k2, tags[k2])| + 1 <= TagBudget
    ensures TagLoop(tags, [k1, k2], b, 1) == (b + ";" + TagText(k1, tags[k1]) + ";" + TagText(k2, tags[k2]), 3)
  {
    var b1 := b + ";" + TagText(k1, tags[k1]);
    assert [k1, k2][1..] == [k2] && [k2][1..] == [];
    assert TagLoop(tags, [k1, k2], b, 1) == TagLoop(tags, [k2], b1, 2);
  }

  /** The member text of a `_dd.p.` tag whose key and value are clean one-letter strings. */
  lemma TagTextSimple(k: string, key: string, v: string)
    requires k == DDTagPrefix + key && |key| == 1 && |v| == 1
    requires Printable(key[0]) && key[0] !in {',', '=', ';', ':'} && Printable(v[0]) && v[0] !in {',', '=', ';', ':'}
    ensures HasPrefix(k, DDTagPrefix) && TagText(k, v) == "t." + key + ":" + v
  {
    assert k[..|DDTagPrefix|] == DDTagPrefix && k[|DDTagPrefix|..] == key;
    SanitizeClean(key, KeySpecials);
    SanitizeClean(v, ValueSpecials);
    assert ReplaceChar(v, '=', '~') == v;
  }
}
