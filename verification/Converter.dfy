/** The converter as it runs: loops that fill local maps, then one pass that emits. */
module Converter {
  import opened Core
  import opened Turns
  import opened Outputs
  import opened Caches
  import opened Exchange
  import opened Normalize
  import opened Translate

  method PreScanCalls(items: seq<Item>) returns (callAlias: map<Id, Id>, callNames: map<Id, string>)
    ensures Tables(callAlias, callNames, map[], map[], {}) == ScanCalls(items)
  {
    callAlias, callNames := map[], map[];
    for i := 0 to |items|
      invariant Tables(callAlias, callNames, map[], map[], {}) == ScanCalls(items[..i])
    {
      assert items[..i + 1][..i] == items[..i];
      if items[i].CallItem? {
        var key := CallKey(items[i]);
        var ids := [key, items[i].callId, items[i].itemId];
        callAlias := PutAll(callAlias, ids, key);
        if items[i].name != "" {
          callNames := PutAll(callNames, ids, items[i].name);
        }
      }
    }
    assert items[..|items|] == items;
  }

  method PreScanCarrier(t0: Tables, carrier: Carrier) returns (t: Tables)
    ensures var scanned := ScanParts(t0, carrier.parts);
            t == scanned.(siblings := scanned.siblings + CarrierSiblings(carrier))
  {
    hide ScanPart;
    t := t0;
    var parts := carrier.parts;
    for k := 0 to |parts|
      invariant t == ScanParts(t0, parts[..k])
    {
      assert parts[..k + 1][..k] == parts[..k];
      t := PreScanPart(t, parts[k]);
    }
    assert parts[..|parts|] == parts;
    t := t.(siblings := t.siblings + CarrierSiblings(carrier));
  }

  method PreScanPart(t0: Tables, p: Record) returns (t: Tables)
    ensures t == ScanPart(t0, p)
  {
    t := t0;
    if p.TextRec? && p.sig != "" {
      if p.itemId != NO_ID {
        t := t.(texts := t.texts[p.itemId := (p.text, p.sig)]);
      }
    } else if p.CallRec? {
      var v := Verified(p.name, Persisted(p.args), p.sig, p.upstreamId);
      var tools := PutAll(t.tools, [p.callId, p.itemId, JoinedId(p.callId, p.itemId)], v);
      if p.upstreamId != NO_ID {
        if p.upstreamId !in tools {
          tools := tools[p.upstreamId := v];
        }
        if p.callId in t.alias && p.upstreamId !in t.alias {
          t := t.(alias := t.alias[p.upstreamId := t.alias[p.callId]]);
        }
      }
      t := t.(tools := tools);
    }
  }

  method PreScan(items: seq<Item>, cache: Cache) returns (t: Tables)
    ensures t == Scan(items, cache)
  {
    hide ScanParts, CarrierSiblings, ScanCall, GetTool;
    var callAlias, callNames := PreScanCalls(items);
    t := Tables(callAlias, callNames, map[], map[], {});
    ghost var t1 := t;
    for i := 0 to |items|
      invariant t == ScanCarriers(t1, items[..i])
    {
      assert items[..i + 1][..i] == items[..i];
      if items[i].ReasoningItem? && items[i].carrier.Some? {
        t := PreScanCarrier(t, items[i].carrier.value);
      }
    }
    assert items[..|items|] == items;
    ghost var t2 := t;
    for i := 0 to |items|
      invariant t == ScanCache(t2, cache, items[..i])
    {
      assert items[..i + 1][..i] == items[..i];
      t := ScanCacheItem(t, cache, MentionedId(items[i]));
    }
  }

  method MatchOutputs(t: Tables, items: seq<Item>) returns (hasMatchingOutput: set<Id>)
    ensures hasMatchingOutput == Answered(t, items)
  {
    hasMatchingOutput := {};
    for i := 0 to |items|
      invariant hasMatchingOutput == Answered(t, items[..i])
    {
      assert items[..i + 1][..i] == items[..i];
      if items[i].ResultItem? && items[i].callId != NO_ID {
        hasMatchingOutput := hasMatchingOutput + {AliasOr(t, items[i].callId)};
      }
    }
    assert items[..|items|] == items;
  }

  /** Scans each group of adjacent calls once and notes its lead under every index of the group. */
  method GroupLeads(t: Tables, cache: Cache, items: seq<Item>) returns (leads: map<nat, Id>)
    ensures forall idx :: 0 <= idx < |items| && items[idx].CallItem? ==> idx in leads && leads[idx] == LeadOf(t, cache, items, idx)
  {
    hide GroupSig;
    leads := map[];
    var i := 0;
    while i < |items|
      invariant i <= |items|
      invariant forall idx :: 0 <= idx < i && items[idx].CallItem? ==> idx in leads && leads[idx] == LeadOf(t, cache, items, idx)
      invariant i == 0 || i == |items| || !InRun(items[i]) || NoCallIn(items, RunStart(items, i), i)
    {
      if items[i].CallItem? {
        var j, lead := ScanGroup(t, cache, items, i);
        GroupLead(t, cache, items, i, j, lead);
        for k := i to j
          invariant forall idx :: 0 <= idx < k && items[idx].CallItem? ==> idx in leads && leads[idx] == LeadOf(t, cache, items, idx)
        {
          leads := leads[k := lead];
        }
        i := j;
      } else {
        SkipOne(items, i);
        i := i + 1;
      }
    }
  }

  /** From the first call of a run to its end: the end, and the first signed call. */
  method ScanGroup(t: Tables, cache: Cache, items: seq<Item>, i: nat) returns (j: nat, lead: Id)
    requires i < |items| && items[i].CallItem?
    ensures i < j <= |items| && j == RunEnd(items, i) && lead == LeadIn(t, cache, items, i, j)
  {
    hide GroupSig;
    j, lead := i, NO_ID;
    while j < |items| && InRun(items[j])
      invariant i <= j <= |items|
      invariant RunEnd(items, j) == RunEnd(items, i)
      invariant forall hi :: j <= hi <= |items| ==>
                  LeadIn(t, cache, items, i, hi) == if lead != NO_ID then lead else LeadIn(t, cache, items, j, hi)
    {
      if items[j].CallItem? && lead == NO_ID && GroupSig(t, cache, items[j]) != "" && CallKey(items[j]) != NO_ID {
        lead := CallKey(items[j]);
      }
      j := j + 1;
    }
  }

  predicate NoCallIn(items: seq<Item>, lo: nat, hi: nat) {
    forall k :: lo <= k < hi && k < |items| ==> !items[k].CallItem?
  }

  lemma SkipOne(items: seq<Item>, i: nat)
    requires i < |items| && !items[i].CallItem?
    requires i == 0 || !InRun(items[i]) || NoCallIn(items, RunStart(items, i), i)
    ensures i + 1 == |items| || !InRun(items[i + 1]) || NoCallIn(items, RunStart(items, i + 1), i + 1)
  {
  }

  lemma {:induction false} RunStartStays(items: seq<Item>, i: nat, k: nat)
    requires i <= k < |items| && forall m :: i <= m < k ==> InRun(items[m])
    ensures RunStart(items, k) == RunStart(items, i)
  {
    if i < k {
      RunStartStays(items, i, k - 1);
    }
  }

  lemma {:induction false} RunEndStays(items: seq<Item>, i: nat, k: nat)
    requires i <= k <= |items| && forall m :: i <= m < k ==> InRun(items[m])
    ensures RunEnd(items, i) == RunEnd(items, k)
    decreases k - i
  {
    if i < k {
      RunEndStays(items, i + 1, k);
    }
  }

  lemma {:induction false} RunEndInRun(items: seq<Item>, i: nat)
    requires i <= |items|
    ensures forall m :: i <= m < RunEnd(items, i) ==> InRun(items[m])
    ensures RunEnd(items, i) < |items| ==> !InRun(items[RunEnd(items, i)])
    decreases |items| - i
  {
    if i < |items| && InRun(items[i]) {
      RunEndInRun(items, i + 1);
    }
  }

  lemma {:induction false} LeadSkips(t: Tables, cache: Cache, items: seq<Item>, lo: nat, mid: nat, hi: nat)
    requires lo <= mid <= hi <= |items| && NoCallIn(items, lo, mid)
    ensures LeadIn(t, cache, items, lo, hi) == LeadIn(t, cache, items, mid, hi)
    decreases mid - lo
  {
    hide GroupSig;
    if lo < mid {
      LeadSkips(t, cache, items, lo + 1, mid, hi);
    }
  }

  /** The lead found from the first call of a run is the lead of every call in it. */
  lemma GroupLead(t: Tables, cache: Cache, items: seq<Item>, i: nat, j: nat, lead: Id)
    requires i < |items| && items[i].CallItem? && j == RunEnd(items, i) && lead == LeadIn(t, cache, items, i, j)
    requires i == 0 || NoCallIn(items, RunStart(items, i), i)
    ensures forall k :: i <= k < j ==> LeadOf(t, cache, items, k) == lead
    ensures j == |items| || !InRun(items[j])
  {
    hide LeadIn, RunStart, RunEnd;
    RunEndInRun(items, i);
    forall k | i <= k < j
      ensures LeadOf(t, cache, items, k) == lead
    {
      RunStartStays(items, i, k);
      RunEndStays(items, i, k);
      StartBelow(items, i);
      LeadSkips(t, cache, items, RunStart(items, i), i, j);
    }
  }

  lemma StartBelow(items: seq<Item>, i: nat)
    requires i < |items|
    ensures i == 0 ==> RunStart(items, i) == 0
  {
  }

  method EmitContents(t: Tables, cache: Cache, answered: set<Id>, items: seq<Item>, leads: map<nat, Id>, hash: seq<Item> -> string)
    returns (r: Result<seq<Content>, ConvertError>)
    requires forall idx :: 0 <= idx < |items| && items[idx].CallItem? ==> idx in leads && leads[idx] == LeadOf(t, cache, items, idx)
    ensures r == EmitAll(t, cache, answered, items, |items|, hash)
  {
    hide EmitCall, LeadOf, EmitResult, TextSig;
    var rawContents: seq<Content> := [];
    for idx := 0 to |items|
      invariant EmitAll(t, cache, answered, items, idx, hash) == Ok(rawContents)
    {
      match items[idx]
      case ReasoningItem(_) =>
        assert rawContents + [] == rawContents;
      case CallItem(_, _, _, _, _, _) =>
        var part := EmitCall(t, cache, answered, items[idx], leads[idx]);
        if part.Err? {
          EmitFails(t, cache, answered, items, idx, hash);
          return Err(part.error);
        }
        rawContents := rawContents + [Content("model", [part.value])];
      case ResultItem(_, _) =>
        rawContents := rawContents + [Content("user", [EmitResult(t, cache, items[idx])])];
      case MessageItem(role, _, _, _, text, _) =>
        assert rawContents + [] == rawContents;
        if IsSystem(items[idx]) || text == "" {
        } else if role == "assistant" {
          rawContents := rawContents + [Content("model", [TextPart(text, TextSig(t, cache, items[idx], hash(items[..idx])))])];
        } else {
          rawContents := rawContents + [Content("user", [TextPart(text, "")])];
        }
    }
    return Ok(rawContents);
  }

  lemma {:induction false} EmitFailsUpTo(t: Tables, cache: Cache, answered: set<Id>, items: seq<Item>, idx: nat, n: nat, hash: seq<Item> -> string)
    requires idx < n <= |items| && EmitAll(t, cache, answered, items, idx + 1, hash).Err?
    ensures EmitAll(t, cache, answered, items, n, hash) == EmitAll(t, cache, answered, items, idx + 1, hash)
  {
    hide EmitItem;
    if idx + 1 < n {
      EmitFailsUpTo(t, cache, answered, items, idx, n - 1, hash);
    }
  }

  /** The first rejected call decides the result. */
  lemma EmitFails(t: Tables, cache: Cache, answered: set<Id>, items: seq<Item>, idx: nat, hash: seq<Item> -> string)
    requires idx < |items| && items[idx].CallItem? && EmitAll(t, cache, answered, items, idx, hash).Ok?
    requires EmitCall(t, cache, answered, items[idx], LeadOf(t, cache, items, idx)).Err?
    ensures EmitAll(t, cache, answered, items, |items|, hash) ==
            Err(EmitCall(t, cache, answered, items[idx], LeadOf(t, cache, items, idx)).error)
  {
    hide EmitCall, LeadOf;
    EmitFailsUpTo(t, cache, answered, items, idx, |items|, hash);
  }

  method ConvertResponses(items: seq<Item>, cache: Cache, hash: seq<Item> -> string) returns (r: Result<seq<Content>, ConvertError>)
    ensures r == Convert(items, cache, hash)
  {
    hide Validate, Scan, EmitAll, Normalized, Answered;
    var valid := ValidateExchange(items, cache);
    if valid.Err? {
      return Err(Invalid(valid.error));
    }
    var t := PreScan(items, cache);
    var answered := MatchOutputs(t, items);
    var leads := GroupLeads(t, cache, items);
    var raw := EmitContents(t, cache, answered, items, leads, hash);
    if raw.Err? {
      return Err(raw.error);
    }
    var contents := NormalizeAlternatingContents(raw.value);
    if |contents| == 0 {
      return Err(NoContents);
    }
    return Ok(contents);
  }
}
