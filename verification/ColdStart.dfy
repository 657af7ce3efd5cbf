/**
 * Histories that the bridge never saw: without carriers and with an empty cache everything a
 * client sends goes through as it is, or the conversion fails.
 */
module ColdStart {
  import opened Core
  import opened Caches
  import opened Exchange
  import opened ExchangeSpec
  import opened Normalize
  import opened Translate
  import opened ScanLaws
  import opened RoundTripLaws
  import opened EmissionLaws

  // ----- what should come out, in terms of the items alone

  /** The call that takes an identifier. */
  function OwnerOf(items: seq<Item>, id: Id): (r: Option<nat>)
    ensures r.Some? ==> r.value < |items| && Takes(items[r.value], id)
    ensures r.None? ==> !Taken(items, id)
  {
    if items == [] then None
    else if Takes(items[|items| - 1], id) then Some(|items| - 1)
    else
      assert items == items[..|items| - 1] + [items[|items| - 1]];
      TakenSnoc(items[..|items| - 1], items[|items| - 1], id);
      OwnerOf(items[..|items| - 1], id)
  }

  function ColdCall(item: Item): Part
    requires item.CallItem?
  {
    CallPart(item.name, item.args, CallKey(item), if item.sig != "" then item.sig else MIGRATION_MARKER)
  }

  /** The response carries the name and the id of the call it answers. */
  function ColdResponse(items: seq<Item>, item: Item): Part
    requires item.ResultItem?
  {
    match OwnerOf(items, item.callId)
    case None => Part("", false, "", None, Some(FunctionResponse(Unnamed(item.callId), item.output, item.callId)))
    case Some(i) =>
      var call := items[i];
      Part("", false, "", None,
           Some(FunctionResponse(if call.name != "" then Called(call.name) else Unnamed(CallKey(call)), item.output, CallKey(call))))
  }

  function ColdParts(items: seq<Item>, n: nat): seq<(string, Part)>
    requires n <= |items|
  {
    if n == 0 then []
    else
      ColdParts(items, n - 1) +
      match items[n - 1]
      case ReasoningItem(_) => []
      case CallItem(_, _, _, _, _, _) => [("model", ColdCall(items[n - 1]))]
      case ResultItem(_, _) => [("user", ColdResponse(items, items[n - 1]))]
      case MessageItem(role, _, _, _, text, sig) =>
        if IsSystem(items[n - 1]) || text == "" then []
        else if role == "assistant" then [("model", TextPart(text, sig))]
        else [("user", TextPart(text, ""))]
  }

  predicate AllAnswered(items: seq<Item>) {
    forall i :: 0 <= i < |items| && items[i].CallItem? ==> exists k :: 0 <= k < |items| && OwnedBy(items, k, i)
  }

  /** Only calls and reasoning items from item `x` to item `y`, both included. */
  predicate InOneRun(items: seq<Item>, x: nat, y: nat)
    requires x < |items| && y < |items|
  {
    RunBetween(items, x, y + 1) && RunBetween(items, y, x + 1)
  }

  /** No unsigned call, unless foreign, stands in one run with a signed one. */
  predicate NoSuspects(items: seq<Item>) {
    forall x, y {:trigger InOneRun(items, x, y)} :: 0 <= x < |items| && 0 <= y < |items| && items[x].CallItem? && items[y].CallItem? ==>
      items[x].sig == "" && !items[x].foreign && items[y].sig != "" ==> !InOneRun(items, x, y)
  }

  // ----- what the tables and the cache know: nothing

  lemma NothingCached(max: Capacity, a: Id, b: Id)
    ensures FindCached(Fresh(max), a, b).None? && CachedUpstream(Fresh(max), a) == NO_ID && CachedName(Fresh(max), a) == ""
    ensures CachedSig(Fresh(max), a) == "" && GetMessage(Fresh(max), a) == "" && !IsVerifiedSibling(Fresh(max), a, b)
  {
  }

  lemma ColdScan(items: seq<Item>, max: Capacity)
    requires NoCarriers(items) && WellPaired(items)
    ensures NamesExact(items, Scan(items, Fresh(max)))
  {
    hide ScanCalls, ScanCarriers, ScanCache, Mentions, CallsNamed, ResultsPaired;
    ScanCallsExact(items);
    NoCarrierScanned(ScanCalls(items), items);
    AllMentioned(items, ScanCalls(items));
    KnownCacheScanned(ScanCalls(items), Fresh(max), items);
  }

  /** A signed call of the run leads it. */
  lemma ColdLead(items: seq<Item>, t: Tables, max: Capacity, x: nat)
    requires NamesExact(items, t) && CallsNamed(items) && x < |items| && items[x].CallItem? && items[x].sig == ""
    ensures OtherLead(items[x], LeadOf(t, Fresh(max), items, x)) <==>
            exists y :: 0 <= y < |items| && items[y].CallItem? && items[y].sig != "" && InOneRun(items, x, y)
  {
    hide NamesExact, CallsNamed, GroupSig, RunStart, RunEnd, RunBetween, LeadIn;
    var lo, hi := RunStart(items, x), RunEnd(items, x);
    forall y | 0 <= y < |items|
      ensures lo <= y < hi <==> InOneRun(items, x, y)
      ensures Eligible(t, Fresh(max), items[y]) <==> items[y].CallItem? && items[y].sig != ""
    {
      RunIs(items, x, y);
      ColdEligible(items, t, max, y);
    }
    assert lo <= x < hi by { RunIs(items, x, x); SelfRun(items, x); }
    if y :| 0 <= y < |items| && items[y].CallItem? && items[y].sig != "" && InOneRun(items, x, y) {
      FirstEligible(t, Fresh(max), items, lo, hi, y);
      var m :| lo <= m < hi && Eligible(t, Fresh(max), items[m]) && LeadIn(t, Fresh(max), items, lo, hi) == CallKey(items[m]);
      KeyIsId(items, m);
      OtherKeys(items, m, x);
    } else {
      NoLead(t, Fresh(max), items, lo, hi);
    }
  }

  lemma SelfRun(items: seq<Item>, x: nat)
    requires x < |items| && InRun(items[x])
    ensures RunBetween(items, x, x + 1)
  {
  }

  lemma OtherKeys(items: seq<Item>, m: nat, x: nat)
    requires CallsNamed(items) && m < |items| && x < |items| && items[m].CallItem? && items[x].CallItem? && m != x
    ensures CallKey(items[m]) != CallKey(items[x])
  {
    hide CallsNamed;
    if CallKey(items[m]) == CallKey(items[x]) {
      SameKey(items, m, x);
    }
  }

  lemma {:induction false} FirstEligible(t: Tables, cache: Cache, items: seq<Item>, lo: nat, hi: nat, y: nat)
    requires lo <= y < hi <= |items| && Eligible(t, cache, items[y])
    ensures exists m :: lo <= m < hi && Eligible(t, cache, items[m]) && LeadIn(t, cache, items, lo, hi) == CallKey(items[m])
    decreases hi - lo
  {
    hide GroupSig;
    if Eligible(t, cache, items[lo]) {
      LeadAt(t, cache, items, lo, lo, hi);
    } else {
      FirstEligible(t, cache, items, lo + 1, hi, y);
      var m :| lo + 1 <= m < hi && Eligible(t, cache, items[m]) && LeadIn(t, cache, items, lo + 1, hi) == CallKey(items[m]);
      assert LeadIn(t, cache, items, lo, hi) == CallKey(items[m]);
    }
  }

  lemma ColdEligible(items: seq<Item>, t: Tables, max: Capacity, y: nat)
    requires NamesExact(items, t) && CallsNamed(items) && y < |items|
    ensures Eligible(t, Fresh(max), items[y]) <==> items[y].CallItem? && items[y].sig != ""
  {
    hide FindCached, CallsNamed, CachedSig;
    if items[y].CallItem? {
      var id := CallKey(items[y]);
      KeyIsId(items, y);
      NothingCached(max, id, items[y].itemId);
      NothingCached(max, items[y].itemId, id);
      NothingCached(max, JoinedId(id, items[y].itemId), id);
    }
  }

  // ----- each item

  lemma {:induction false} AnsweredMember(t: Tables, items: seq<Item>, x: Id)
    ensures x in Answered(t, items) <==>
            exists k :: 0 <= k < |items| && items[k].ResultItem? && items[k].callId != NO_ID && AliasOr(t, items[k].callId) == x
  {
    hide AliasOr;
    if items != [] {
      var n := |items| - 1;
      AnsweredMember(t, items[..n], x);
      if x in Answered(t, items[..n]) {
        var k :| 0 <= k < n && items[..n][k].ResultItem? && items[..n][k].callId != NO_ID && AliasOr(t, items[..n][k].callId) == x;
        assert items[k].callId == items[..n][k].callId;
      }
      if k :| 0 <= k < |items| && items[k].ResultItem? && items[k].callId != NO_ID && AliasOr(t, items[k].callId) == x {
        if k < n {
          assert items[..n][k] == items[k];
        }
      }
    }
  }

  /** Under exact tables a result answers the call that takes its id. */
  lemma ColdOwner(items: seq<Item>, t: Tables, k: nat, i: nat)
    requires NamesExact(items, t) && CallsNamed(items) && k < |items| && i < |items| && OwnedBy(items, k, i)
    ensures AliasOr(t, items[k].callId) == CallKey(items[i]) && OwnerOf(items, items[k].callId) == Some(i)
  {
    hide CallsNamed, Taken;
    var id := items[k].callId;
    assert Takes(items[i], id);
    assert NameIs(t, id, items[i]);
    KeyIsId(items, i);
    TakenBy(items, i, id);
    OneOwner(items, i, OwnerOf(items, id).value, id);
  }

  lemma ColdAnswered(items: seq<Item>, t: Tables, i: nat)
    requires NamesExact(items, t) && WellPaired(items) && i < |items| && items[i].CallItem?
    ensures CallKey(items[i]) in Answered(t, items) <==> exists k :: 0 <= k < |items| && OwnedBy(items, k, i)
  {
    hide NamesExact, CallsNamed, AliasOr, OwnedBy, Answered;
    var x := CallKey(items[i]);
    AnsweredMember(t, items, x);
    if k :| 0 <= k < |items| && OwnedBy(items, k, i) {
      ColdOwner(items, t, k, i);
      OwnedFacts(items, k, i);
    }
    if x in Answered(t, items) {
      var k :| 0 <= k < |items| && items[k].ResultItem? && items[k].callId != NO_ID && AliasOr(t, items[k].callId) == x;
      var j :| 0 <= j < k && OwnedBy(items, k, j);
      ColdOwner(items, t, k, j);
      OwnedFacts(items, k, j);
      SameKey(items, i, j);
    }
  }

  lemma OwnedFacts(items: seq<Item>, k: nat, i: nat)
    requires k < |items| && i < |items| && OwnedBy(items, k, i)
    ensures items[i].CallItem? && items[k].ResultItem? && items[k].callId != NO_ID
  {
  }

  lemma ColdSendable(items: seq<Item>, t: Tables, max: Capacity, x: nat)
    requires NamesExact(items, t) && WellPaired(items) && x < |items| && items[x].CallItem?
    ensures Sendable(t, Fresh(max), Answered(t, items), items, x) <==>
            && (exists k :: 0 <= k < |items| && OwnedBy(items, k, x))
            && (items[x].sig == "" && !items[x].foreign ==>
                  forall y :: 0 <= y < |items| && items[y].CallItem? && items[y].sig != "" ==> !InOneRun(items, x, y))
    ensures CallSent(t, Fresh(max), items, x) == ColdCall(items[x])
  {
    hide NamesExact, CallsNamed, ResultsPaired, OwnedBy, Answered, LeadOf, InOneRun, FindCached, FindVerified, Conflicted, LeadSig;
    var item := items[x];
    NothingCached(max, CallKey(item), item.itemId);
    NothingFound(Fresh(max), item);
    NothingVerified(items, t, CallKey(item), item.itemId);
    ColdAnswered(items, t, x);
    UnknownCallSent(t, Fresh(max), items, x);
    NoSiblings(items, t, max, LeadOf(t, Fresh(max), items, x), CallKey(item), item.itemId);
    if item.sig == "" {
      ColdLead(items, t, max, x);
    }
  }

  lemma NothingVerified(items: seq<Item>, t: Tables, a: Id, b: Id)
    requires NamesExact(items, t)
    ensures FindVerified(t, a, b).None?
  {
  }

  lemma NoSiblings(items: seq<Item>, t: Tables, max: Capacity, lead: Id, a: Id, b: Id)
    requires NamesExact(items, t)
    ensures !RecordedSibling(t, Fresh(max), lead, a, b)
  {
  }

  lemma ColdResult(items: seq<Item>, t: Tables, max: Capacity, k: nat)
    requires NamesExact(items, t) && WellPaired(items) && k < |items| && items[k].ResultItem?
    ensures EmitResult(t, Fresh(max), items[k]) == ColdResponse(items, items[k])
  {
    hide CallsNamed, GetTool, Taken;
    var i :| 0 <= i < k && OwnedBy(items, k, i);
    ColdOwner(items, t, k, i);
    var id := items[k].callId;
    assert Takes(items[i], id) && NameIs(t, id, items[i]);
    KeyIsId(items, i);
    assert NameIs(t, CallKey(items[i]), items[i]);
    NothingCached(max, id, id);
    NothingCached(max, CallKey(items[i]), id);
  }

  lemma ColdText(items: seq<Item>, t: Tables, max: Capacity, item: Item, prefixHash: string)
    requires NamesExact(items, t) && item.MessageItem?
    ensures TextSig(t, Fresh(max), item, prefixHash) == item.sig
  {
    NothingCached(max, item.id, item.itemId);
  }

  lemma {:induction false} ColdPartsAre(items: seq<Item>, t: Tables, max: Capacity, n: nat, hash: seq<Item> -> string)
    requires NamesExact(items, t) && WellPaired(items) && n <= |items|
    ensures PartsTo(t, Fresh(max), items, n, hash) == ColdParts(items, n)
  {
    hide NamesExact, WellPaired, CallSent, ColdCall, EmitResult, ColdResponse, TextSig, IsSystem;
    if n > 0 {
      ColdPartsAre(items, t, max, n - 1, hash);
      match items[n - 1]
      case CallItem(_, _, _, _, _, _) => ColdSendable(items, t, max, n - 1);
      case ResultItem(_, _) => ColdResult(items, t, max, n - 1);
      case MessageItem(_, _, _, _, _, _) => ColdText(items, t, max, items[n - 1], hash(items[..n - 1]));
      case _ =>
    }
  }

  /**
   * A history that the bridge never saw converts if and only if it is well paired, every call is
   * answered, no unsigned call stands in one run with a signed one unless it is foreign, and
   * anything is left to send. Then everything goes through in order: each call under its own id with
   * the client's own signature or, without one, the replay marker; each response under the name and
   * id of its call; each text in its role, the assistant's with its own signature.
   */
  lemma ColdConversion(items: seq<Item>, max: Capacity, hash: seq<Item> -> string)
    requires NoCarriers(items)
    ensures var sent := Convert(items, Fresh(max), hash);
            && (sent.Ok? <==> WellPaired(items) && AllAnswered(items) && NoSuspects(items) && ColdParts(items, |items|) != [])
            && (sent.Ok? ==> Flatten(sent.value) == ColdParts(items, |items|))
  {
    hide NoCarriers, WellPaired, Convert, Flatten, Validate, Scan, Answered, PartsTo, ColdParts, NamesExact, Sendable, OwnedBy, InOneRun;
    var t := Scan(items, Fresh(max));
    ConversionIs(items, Fresh(max), hash);
    ValidatorIsExact(items, Fresh(max));
    if WellPaired(items) {
      ColdScan(items, max);
      ColdPartsAre(items, t, max, |items|, hash);
      forall x | 0 <= x < |items| && items[x].CallItem?
        ensures Sendable(t, Fresh(max), Answered(t, items), items, x) <==>
                && (exists k :: 0 <= k < |items| && OwnedBy(items, k, x))
                && (items[x].sig == "" && !items[x].foreign ==>
                      forall y :: 0 <= y < |items| && items[y].CallItem? && items[y].sig != "" ==> !InOneRun(items, x, y))
      {
        ColdSendable(items, t, max, x);
      }
    }
  }
}
