/**
 * Carriers: the textual key/value containers that span contexts are written to and read from.
 * `TextMapCarrier` is a plain map written by `Set`; reading goes through `ForeachKey`, which
 * visits every entry once in an order the model leaves to the caller (Go randomises map
 * iteration).
 */
module Carrier {
  import opened Base

  /** The map that results from performing the given `Set(key, value)` calls in order. */
  function ApplySets(m: map<string, string>, writes: seq<(string, string)>): map<string, string>
    decreases |writes|
  {
    if writes == [] then m else ApplySets(m[writes[0].0 := writes[0].1], writes[1..])
  }

  /** The value of the last write to `key`, if any. */
  function LastWrite(writes: seq<(string, string)>, key: string): Option<string> {
    if writes == [] then None
    else
      var later := LastWrite(writes[1..], key);
      if later.Some? then later else if writes[0].0 == key then Some(writes[0].1) else None
  }

  /** After a sequence of `Set` calls, each key holds its last write, or its old value. */
  lemma {:induction false} ApplySetsLookup(m: map<string, string>, writes: seq<(string, string)>, key: string)
    ensures var r := ApplySets(m, writes);
      match LastWrite(writes, key)
      case Some(v) => key in r && r[key] == v
      case None => (key in r <==> key in m) && (key in m ==> r[key] == m[key])
    decreases |writes|
  {
    if writes != [] {
      ApplySetsLookup(m[writes[0].0 := writes[0].1], writes[1..], key);
    }
  }

  lemma {:induction false} ApplySetsAppend(m: map<string, string>, a: seq<(string, string)>, b: seq<(string, string)>)
    ensures ApplySets(m, a + b) == ApplySets(ApplySets(m, a), b)
    decreases |a|
  {
    if a != [] {
      assert (a + b)[0] == a[0] && (a + b)[1..] == a[1..] + b;
      ApplySetsAppend(m[a[0].0 := a[0].1], a[1..], b);
    } else {
      assert a + b == b;
    }
  }

  /** One more `Set` call after a sequence of them. */
  lemma ApplySetsSnoc(m: map<string, string>, w: seq<(string, string)>, k: string, v: string)
    ensures ApplySets(m, w + [(k, v)]) == ApplySets(m, w)[k := v]
  {
    ApplySetsAppend(m, w, [(k, v)]);
  }

  /** Starting from an empty carrier, the keys present are those written, each holding one of its writes. */
  lemma {:induction false} ApplySetsFromEmpty(writes: seq<(string, string)>, key: string)
    ensures var r := ApplySets(map[], writes);
      && (key in r <==> exists j :: 0 <= j < |writes| && writes[j].0 == key)
      && (key in r ==> exists j :: 0 <= j < |writes| && writes[j] == (key, r[key]))
  {
    ApplySetsLookup(map[], writes, key);
    LastWriteFound(writes, key);
  }

  lemma {:induction false} LastWriteFound(writes: seq<(string, string)>, key: string)
    ensures LastWrite(writes, key).Some? <==> exists j :: 0 <= j < |writes| && writes[j].0 == key
    ensures LastWrite(writes, key).Some? ==>
      exists j :: 0 <= j < |writes| && writes[j] == (key, LastWrite(writes, key).value)
  {
    if writes != [] {
      LastWriteFound(writes[1..], key);
      var later := LastWrite(writes[1..], key);
      if later.Some? {
        var j :| 0 <= j < |writes[1..]| && writes[1..][j] == (key, later.value);
        assert writes[j + 1] == (key, later.value);
      } else if exists j :: 0 <= j < |writes| && writes[j].0 == key {
        var j :| 0 <= j < |writes| && writes[j].0 == key;
        if j > 0 {
          assert writes[1..][j - 1].0 == key;
        }
      }
    }
  }

  /** The keys of a sequence of pairs are pairwise distinct. */
  predicate DistinctKeys(pairs: seq<(string, string)>) {
    forall i, j :: 0 <= i < j < |pairs| ==> pairs[i].0 != pairs[j].0
  }

  /** `order` lists every key of `m` exactly once. */
  predicate IsKeyOrder(order: seq<string>, m: map<string, string>) {
    && (forall i, j :: 0 <= i < j < |order| ==> order[i] != order[j])
    && (forall i :: 0 <= i < |order| ==> order[i] in m)
    && (forall k :: k in m ==> k in order)
  }

  /** `pairs` visits every entry of `m` exactly once, in some order. */
  predicate IsVisitOrder(pairs: seq<(string, string)>, m: map<string, string>) {
    && DistinctKeys(pairs)
    && (forall i :: 0 <= i < |pairs| ==> pairs[i].0 in m && m[pairs[i].0] == pairs[i].1)
    && (forall k :: k in m ==> exists i :: 0 <= i < |pairs| && pairs[i].0 == k)
  }

  /** Every entry visited in a carrier filled from empty is one of the writes made to it. */
  lemma VisitedWasWritten(writes: seq<(string, string)>, pairs: seq<(string, string)>, i: int)
    requires IsVisitOrder(pairs, ApplySets(map[], writes)) && 0 <= i < |pairs|
    ensures exists j :: 0 <= j < |writes| && writes[j] == pairs[i]
  {
    ApplySetsFromEmpty(writes, pairs[i].0);
  }

  /** Every key written to a carrier filled from empty is visited. */
  lemma WrittenIsVisited(writes: seq<(string, string)>, pairs: seq<(string, string)>, j: int)
    requires IsVisitOrder(pairs, ApplySets(map[], writes)) && 0 <= j < |writes|
    ensures exists i :: 0 <= i < |pairs| && pairs[i].0 == writes[j].0
  {
    ApplySetsFromEmpty(writes, writes[j].0);
  }

  /** The entries of `m` in the order `order` lists their keys. */
  function Entries(m: map<string, string>, order: seq<string>): (pairs: seq<(string, string)>)
    requires forall i :: 0 <= i < |order| ==> order[i] in m
    ensures |pairs| == |order|
    ensures forall i :: 0 <= i < |order| ==> pairs[i] == (order[i], m[order[i]])
  {
    if order == [] then [] else [(order[0], m[order[0]])] + Entries(m, order[1..])
  }

  /** What an extractor is handed: a readable carrier (its visits, in order) or some other value. */
  datatype Reader = TextMap(pairs: seq<(string, string)>) | NotAReader

  /** `TextMapCarrier`: a Go `map[string]string` usable as both writer and reader. */
  class TextMapCarrier {
    var entries: map<string, string>

    constructor (m: map<string, string>)
      ensures entries == m
    {
      entries := m;
    }

    /** `Set` implements the writer side: the key now holds the value, nothing else changes. */
    method Set(key: string, val: string)
      modifies this
      ensures entries == old(entries)[key := val]
    {
      entries := entries[key := val];
    }

    /**
     * `ForeachKey` implements the reader side: the pairs its handler is called with, when Go's
     * map iteration happens to visit the keys in the order `order`.
     */
    function ForeachKey(order: seq<string>): (pairs: seq<(string, string)>)
      reads this
      requires IsKeyOrder(order, entries)
      ensures IsVisitOrder(pairs, entries)
    {
      var pairs := Entries(entries, order);
      assert forall k :: k in entries ==> exists i :: 0 <= i < |pairs| && pairs[i].0 == k by {
        forall k | k in entries ensures exists i :: 0 <= i < |pairs| && pairs[i].0 == k {
          var i :| 0 <= i < |order| && order[i] == k;
          assert pairs[i].0 == k;
        }
      }
      pairs
    }
  }
}
