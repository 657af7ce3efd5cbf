/**
 * In every successful conversion calls and results are paired: the validator maps results
 * injectively to earlier calls, the converter maps them onto all calls, and the two maps are
 * built differently.
 */
module Pairing {
  import opened Core
  import opened Caches
  import opened Provenance
  import opened Exchange
  import opened Normalize
  import opened Translate

  // ----- counting

  function CallItems(items: seq<Item>): nat {
    if items == [] then 0 else CallItems(items[..|items| - 1]) + if items[|items| - 1].CallItem? then 1 else 0
  }

  function ResultItems(items: seq<Item>): nat {
    if items == [] then 0 else ResultItems(items[..|items| - 1]) + if items[|items| - 1].ResultItem? then 1 else 0
  }

  function Keys(items: seq<Item>): set<Id> {
    if items == [] then {}
    else Keys(items[..|items| - 1]) + if items[|items| - 1].CallItem? then {CallKey(items[|items| - 1])} else {}
  }

  function Calls(f: seq<(string, Part)>): nat {
    if f == [] then 0 else Calls(f[..|f| - 1]) + if f[|f| - 1].1.call.Some? then 1 else 0
  }

  function Responses(f: seq<(string, Part)>): nat {
    if f == [] then 0 else Responses(f[..|f| - 1]) + if f[|f| - 1].1.response.Some? then 1 else 0
  }

  /** No prefix holds more responses than calls. */
  predicate Balanced(f: seq<(string, Part)>) {
    Responses(f) <= Calls(f) && (f == [] || Balanced(f[..|f| - 1]))
  }

  predicate AllSigned(f: seq<(string, Part)>) {
    forall i :: 0 <= i < |f| && f[i].1.call.Some? ==> f[i].1.sig != ""
  }

  // ----- the validator's side: results inject into earlier calls

  lemma {:induction false} ValidatorCounts(items: seq<Item>, r: Registry, cache: Cache)
    requires Pair(items, r, cache).Ok?
    ensures var seen := Pair(items, r, cache).value;
            && seen.calls == Keys(items) && |seen.calls| == CallItems(items)
            && |seen.results| == ResultItems(items) && seen.results <= seen.calls
  {
    hide ResultOwner, PairOne;
    if items != [] {
      ValidatorCounts(items[..|items| - 1], r, cache);
      PairOneCounts(Pair(items[..|items| - 1], r, cache).value, items[|items| - 1], r, cache);
    }
  }

  lemma PairOneCounts(seen: Seen, item: Item, r: Registry, cache: Cache)
    requires PairOne(seen, item, r, cache).Ok? && seen.results <= seen.calls
    ensures var seen' := PairOne(seen, item, r, cache).value;
            && seen'.calls == seen.calls + (if item.CallItem? then {CallKey(item)} else {})
            && |seen'.calls| == |seen.calls| + (if item.CallItem? then 1 else 0)
            && |seen'.results| == |seen.results| + (if item.ResultItem? then 1 else 0) && seen'.results <= seen'.calls
  {
    hide ResultOwner;
  }

  lemma SubsetSize<T>(a: set<T>, b: set<T>)
    requires a <= b
    ensures |a| <= |b|
  {
    assert b == a + (b - a);
  }

  lemma {:induction false} PairPrefix(items: seq<Item>, n: nat, r: Registry, cache: Cache)
    requires n <= |items| && Pair(items, r, cache).Ok?
    ensures Pair(items[..n], r, cache).Ok?
    decreases |items|
  {
    hide PairOne;
    if n == |items| {
      assert items[..n] == items;
    } else {
      PairPrefix(items[..|items| - 1], n, r, cache);
      assert items[..|items| - 1][..n] == items[..n];
    }
  }

  lemma ResultsBounded(items: seq<Item>, n: nat, cache: Cache)
    requires n <= |items| && Validate(items, cache).Ok?
    ensures ResultItems(items[..n]) <= CallItems(items[..n])
  {
    hide Pair, Register, AllCarrierNames;
    var reg := Register(items, cache).value;
    var r := reg.(alias := AllCarrierNames(reg.alias, items));
    PairPrefix(items, n, r, cache);
    ValidatorCounts(items[..n], r, cache);
    var seen := Pair(items[..n], r, cache).value;
    SubsetSize(seen.results, seen.calls);
  }

  // ----- the converter's side: every call is answered

  lemma {:induction false} AnsweredSize(t: Tables, items: seq<Item>)
    ensures |Answered(t, items)| <= ResultItems(items)
  {
    if items != [] {
      AnsweredSize(t, items[..|items| - 1]);
    }
  }

  lemma EmittedCall(t: Tables, cache: Cache, answered: set<Id>, item: Item, lead: Id)
    requires item.CallItem? && EmitCall(t, cache, answered, item, lead).Ok?
    ensures CallKey(item) in answered
    ensures var p := EmitCall(t, cache, answered, item, lead).value;
            p.call.Some? && p.response.None? && p.sig != "" && Substantial(p)
  {
    hide FindVerified, FindCached, RecordedSibling, LeadSig, OutboundId, ClassifyToolCall, NativeSig, Conflicted;
  }

  /** What the emitted parts of the first `n` items look like. */
  lemma {:induction false} EmittedParts(t: Tables, cache: Cache, answered: set<Id>, items: seq<Item>, n: nat, hash: seq<Item> -> string)
    requires n <= |items| && EmitAll(t, cache, answered, items, n, hash).Ok?
    ensures var f := Flatten(EmitAll(t, cache, answered, items, n, hash).value);
            && Keys(items[..n]) <= answered
            && Calls(f) == CallItems(items[..n]) && Responses(f) == ResultItems(items[..n])
            && AllSigned(f) && (forall i :: 0 <= i < |f| ==> Substantial(f[i].1))
            && ((forall m :: 0 <= m <= n ==> ResultItems(items[..m]) <= CallItems(items[..m])) ==> Balanced(f))
  {
    hide EmitItem, Substantial, Flatten;
    if n == 0 {
      NothingFlattens();
    } else {
      EmittedParts(t, cache, answered, items, n - 1, hash);
      assert items[..n][..n - 1] == items[..n - 1];
      var before := EmitAll(t, cache, answered, items, n - 1, hash).value;
      var cs := EmitItem(t, cache, answered, items, n - 1, hash).value;
      OneItem(t, cache, answered, items, n - 1, hash);
      if cs == [] {
        assert before + cs == before;
      } else {
        FlattenOne(before, cs[0]);
        assert cs == [cs[0]];
        PartSnoc(Flatten(before), (cs[0].role, cs[0].parts[0]));
      }
    }
  }

  lemma {:induction false} EmittedItems(t: Tables, cache: Cache, answered: set<Id>, items: seq<Item>, n: nat, hash: seq<Item> -> string, idx: nat)
    requires idx < n <= |items| && EmitAll(t, cache, answered, items, n, hash).Ok?
    ensures EmitItem(t, cache, answered, items, idx, hash).Ok?
  {
    hide EmitItem;
    if idx < n - 1 {
      EmittedItems(t, cache, answered, items, n - 1, hash, idx);
    }
  }

  lemma FlattenOne(before: seq<Content>, c: Content)
    requires |c.parts| == 1
    ensures Flatten(before + [c]) == Flatten(before) + [(c.role, c.parts[0])]
  {
    FlattenSnoc(before, c);
  }

  lemma PartSnoc(f: seq<(string, Part)>, x: (string, Part))
    ensures var g := f + [x];
            && Calls(g) == Calls(f) + (if x.1.call.Some? then 1 else 0)
            && Responses(g) == Responses(f) + (if x.1.response.Some? then 1 else 0)
            && (AllSigned(g) <==> AllSigned(f) && (x.1.call.Some? ==> x.1.sig != ""))
            && (Balanced(g) <==> Balanced(f) && Responses(g) <= Calls(g))
  {
    var g := f + [x];
    assert g[..|f|] == f && g[|f|] == x;
    assert forall i :: 0 <= i < |f| ==> g[i] == f[i];
  }

  /** One item gives at most one content with one part, of the item's own kind. */
  lemma OneItem(t: Tables, cache: Cache, answered: set<Id>, items: seq<Item>, idx: nat, hash: seq<Item> -> string)
    requires idx < |items| && EmitItem(t, cache, answered, items, idx, hash).Ok?
    ensures var cs := EmitItem(t, cache, answered, items, idx, hash).value;
            && |cs| <= 1
            && (cs == [] ==> !items[idx].CallItem? && !items[idx].ResultItem?)
            && (cs != [] ==>
                  && |cs[0].parts| == 1
                  && Substantial(cs[0].parts[0])
                  && (cs[0].parts[0].call.Some? <==> items[idx].CallItem?)
                  && (cs[0].parts[0].response.Some? <==> items[idx].ResultItem?)
                  && (items[idx].CallItem? ==> cs[0].parts[0].sig != "" && CallKey(items[idx]) in answered))
  {
    hide EmitCall, LeadOf, TextSig, NameOf, ResponseId;
    if items[idx].CallItem? {
      EmittedCall(t, cache, answered, items[idx], LeadOf(t, cache, items, idx));
    }
  }

  /** The pigeonhole: as many results as calls. */
  lemma CountsMeet(items: seq<Item>, cache: Cache, answered: set<Id>)
    requires Validate(items, cache).Ok? && Keys(items) <= answered && |answered| <= ResultItems(items)
    ensures CallItems(items) == ResultItems(items)
  {
    hide Pair, Register, AllCarrierNames;
    var reg := Register(items, cache).value;
    var r := reg.(alias := AllCarrierNames(reg.alias, items));
    ValidatorCounts(items, r, cache);
    var seen := Pair(items, r, cache).value;
    SubsetSize(seen.results, seen.calls);
    SubsetSize(Keys(items), answered);
  }

  /**
   * Whenever conversion succeeds, with any cache and any carriers, the contents hold exactly as
   * many function responses as calls, no prefix holds more responses than calls, and every call
   * carries a signature.
   */
  lemma ConversionIsPaired(items: seq<Item>, cache: Cache, hash: seq<Item> -> string)
    requires Convert(items, cache, hash).Ok?
    ensures var f := Flatten(Convert(items, cache, hash).value);
            Calls(f) == Responses(f) && Balanced(f) && AllSigned(f)
  {
    hide Validate, Scan, EmitAll, Flatten, Normalized, Answered, Calls, Responses, Balanced, AllSigned, Keys, CallItems, ResultItems;
    var t := Scan(items, cache);
    var answered := Answered(t, items);
    var raw := RawContents(items, cache, hash).value;
    EmittedParts(t, cache, answered, items, |items|, hash);
    assert items[..|items|] == items;
    forall m | 0 <= m <= |items|
      ensures ResultItems(items[..m]) <= CallItems(items[..m])
    {
      ResultsBounded(items, m, cache);
    }
    AnsweredSize(t, items);
    CountsMeet(items, cache, answered);
    NormalizedKeeps(raw);
    KeepAll(Flatten(raw));
  }
}
