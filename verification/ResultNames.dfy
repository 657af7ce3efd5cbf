/** By which identifiers a result may name its call. */
module ResultNames {
  import opened Core
  import opened Turns
  import opened Caches
  import opened Provenance
  import opened Exchange
  import opened ExchangeSpec
  import opened Normalize
  import opened Translate
  import opened ScanLaws
  import opened RoundTrip
  import opened SessionLaws
  import opened EmissionLaws

  /** A history with one call and one result, in which the call is replayed as it was and the cache remembers it. */
  predicate OneCall(item: Item, r: Record, cache: Cache) {
    && Minted(r) && r.sig != "" && Recalled(cache, r) && Replays(item, r) && Unaltered(item, r)
    && (r.upstreamId.Name? && (GetTool(cache, r.upstreamId).None? || GetTool(cache, r.upstreamId) == GetTool(cache, r.callId)))
  }

  /** The call's three ids, and whatever else the cache leads to its record. */
  predicate NamesRecord(cache: Cache, r: Record, name: Id)
    requires r.CallRec?
  {
    name != NO_ID && (name in {r.callId, r.itemId, r.upstreamId} || (GetTool(cache, name).Some? && GetTool(cache, name) == GetTool(cache, r.callId)))
  }

  /** The identifiers that lead the converter from the result to the call. */
  predicate LeadsTo(reasoning: seq<Item>, item: Item, r: Record, cache: Cache, name: Id)
    requires r.CallRec? && item.CallItem?
  {
    || name == r.callId || name == item.itemId || GetTool(cache, name).Some?
    || (name == r.upstreamId && reasoning != [])
  }

  // ----- the converter's aliases

  /** The aliases are the item's own ids and, once a carrier was scanned, the upstream id; all name the call. */
  ghost predicate Aliases(t: Tables, item: Item, u: Id, scanned: bool)
    requires item.CallItem?
  {
    && (forall x :: x in t.alias <==> x in IdsOf(item) || (scanned && x == u && u != NO_ID))
    && (forall x :: x in t.alias ==> t.alias[x] == item.callId)
  }

  lemma PartAliases(t: Tables, item: Item, r: Record, p: Record, scanned: bool)
    requires Replays(item, r) && Minted(r) && r.upstreamId.Name? && Aliases(t, item, r.upstreamId, scanned)
    requires p.CallRec? ==> p.callId.CallId? && (p.callId == r.callId ==> p == r)
    ensures Aliases(ScanPart(t, p), item, r.upstreamId, scanned || p == r)
  {
    hide PutAll, SameCall, JoinedId;
    assert item.callId in IdsOf(item);
    if p.CallRec? && p.callId != r.callId {
      assert p.callId !in t.alias;
    }
  }

  lemma {:induction false} PartsAliases(t: Tables, item: Item, parts: seq<Record>, i: nat, n: nat, scanned: bool)
    requires DistinctCalls(parts) && i < |parts| && Replays(item, parts[i]) && Minted(parts[i]) && parts[i].upstreamId.Name?
    requires Aliases(t, item, parts[i].upstreamId, scanned) && n <= |parts|
    ensures Aliases(ScanParts(t, parts[..n]), item, parts[i].upstreamId, scanned || i < n)
  {
    hide Aliases, ScanPart;
    if n > 0 {
      PartsAliases(t, item, parts, i, n - 1, scanned);
      assert parts[..n][..n - 1] == parts[..n - 1];
      if parts[n - 1].CallRec? {
        OtherCalls(parts, i, n - 1);
      }
      PartAliases(ScanParts(t, parts[..n - 1]), item, parts[i], parts[n - 1], scanned || i < n - 1);
    } else {
      assert parts[..0] == [];
    }
  }

  lemma OtherCalls(parts: seq<Record>, i: nat, j: nat)
    requires DistinctCalls(parts) && i < |parts| && j < |parts| && parts[i].CallRec? && parts[j].CallRec?
    ensures parts[j].callId.CallId? && (parts[j].callId == parts[i].callId ==> i == j)
  {
  }

  lemma SameAliases(t: Tables, t': Tables, item: Item, u: Id, scanned: bool)
    requires item.CallItem? && Aliases(t, item, u, scanned) && t'.alias == t.alias
    ensures Aliases(t', item, u, scanned)
  {
  }

  lemma {:induction false} CarriersAliases(t: Tables, item: Item, reasoning: seq<Item>, ctx: Ctx, ps: seq<Part>, i: nat)
    requires ctx.Valid() && i < |Built(ctx, ps).parts| && OnlyOwnReasoning(reasoning, ctx, ps) && Replays(item, Built(ctx, ps).parts[i])
    requires Built(ctx, ps).parts[i].upstreamId.Name? && Aliases(t, item, Built(ctx, ps).parts[i].upstreamId, false)
    ensures Aliases(ScanCarriers(t, reasoning), item, Built(ctx, ps).parts[i].upstreamId, reasoning != [])
  {
    hide ScanParts, Final, Run, CarrierSiblings, DistinctCalls, DistinctItems, OnlyOwnReasoning, Aliases;
    if reasoning != [] {
      var n, parts := |reasoning| - 1, Built(ctx, ps).parts;
      LastOwn(reasoning, ctx, ps);
      BuiltCalls(ctx, ps);
      CarriersAliases(t, item, reasoning[..n], ctx, ps, i);
      PartsAliases(ScanCarriers(t, reasoning[..n]), item, parts, i, |parts|, n != 0);
      assert parts[..|parts|] == parts;
      SameAliases(ScanParts(ScanCarriers(t, reasoning[..n]), parts), ScanCarriers(t, reasoning), item, parts[i].upstreamId, true);
    }
  }

  lemma CallsAliases(reasoning: seq<Item>, item: Item, name: Id, output: string, u: Id)
    requires item.CallItem? && item.callId.CallId? && OnlyReasoning(reasoning)
    ensures Aliases(ScanCalls(Answering(reasoning, item, name, output)), item, u, false)
    ensures NameIs(ScanCalls(Answering(reasoning, item, name, output)), item.callId, item)
  {
    hide ScanCalls, CallsNamed;
    var items, n := Answering(reasoning, item, name, output), |reasoning|;
    assert items[n] == item && forall k :: 0 <= k < |items| && items[k].CallItem? ==> k == n;
    ExchangeNamed(reasoning, item, name, output);
    ScanCallsExact(items);
    var t := ScanCalls(items);
    forall x
      ensures x in t.alias <==> x in IdsOf(item)
      ensures x in t.alias ==> t.alias[x] == item.callId
    {
      if x in t.alias {
        assert Taken(items, x);
      }
      if x in IdsOf(item) {
        assert Takes(items[n], x);
        assert NameIs(t, x, items[n]);
      }
    }
    assert Takes(items[n], item.callId);
  }

  /** The scan of the cache adds the result's name if its record is the call's. */
  lemma CacheAliases(t: Tables, reasoning: seq<Item>, item: Item, name: Id, output: string, cache: Cache, r: Record, scanned: bool)
    requires OnlyReasoning(reasoning) && OneCall(item, r, cache) && Aliases(t, item, r.upstreamId, scanned)
    requires NamesRecord(cache, r, name)
    ensures var t' := ScanCache(t, cache, Answering(reasoning, item, name, output));
            && (name in t'.alias <==> name in IdsOf(item) || (scanned && name == r.upstreamId) || GetTool(cache, name).Some?)
            && (name in t'.alias ==> t'.alias[name] == item.callId)
            && t' == t.(alias := t'.alias) && item.callId in t'.alias && t'.alias[item.callId] == item.callId
  {
    hide GetTool, RecordOf, Unaltered;
    Ends(reasoning + [item], ResultItem(name, output));
    Ends(reasoning, item);
    ReasoningUnscanned(t, cache, reasoning);
    assert item.callId in IdsOf(item);
    assert ScanCacheItem(t, cache, item.callId) == t;
    if GetTool(cache, name).Some? {
      StoredFields(GetTool(cache, r.callId).value, r);
    }
  }

  lemma {:induction false} ReasoningUnscanned(t: Tables, cache: Cache, reasoning: seq<Item>)
    requires OnlyReasoning(reasoning)
    ensures ScanCache(t, cache, reasoning) == t
  {
    if reasoning != [] {
      ReasoningUnscanned(t, cache, reasoning[..|reasoning| - 1]);
    }
  }

  // ----- the validator's aliases

  ghost predicate AllTo(alias: map<Id, Id>, key: Id) {
    key in alias && forall x :: x in alias ==> alias[x] == key
  }

  lemma CacheNamesTo(alias: map<Id, Id>, cache: Cache, id: Id, key: Id)
    requires AllTo(alias, key)
    ensures AllTo(CacheNames(alias, cache, id, key), key)
    ensures GetTool(cache, id).Some? ==>
              var rec, alias' := GetTool(cache, id).value, CacheNames(alias, cache, id, key);
              (rec.upstreamId != NO_ID ==> rec.upstreamId in alias') && (rec.itemId != NO_ID ==> rec.itemId in alias')
  {
    hide GetTool;
  }

  lemma {:induction false} CarrierNamesTo(alias: map<Id, Id>, parts: seq<Record>, key: Id)
    requires AllTo(alias, key)
    ensures AllTo(CarrierNames(alias, parts), key) && alias.Keys <= CarrierNames(alias, parts).Keys
  {
    if parts != [] {
      CarrierNamesTo(alias, parts[..|parts| - 1], key);
    }
  }

  lemma {:induction false} AllCarrierNamesTo(alias: map<Id, Id>, items: seq<Item>, key: Id)
    requires AllTo(alias, key)
    ensures AllTo(AllCarrierNames(alias, items), key) && alias.Keys <= AllCarrierNames(alias, items).Keys
  {
    hide AllTo, CarrierNames;
    if items != [] {
      var n := |items| - 1;
      AllCarrierNamesTo(alias, items[..n], key);
      if HasCarrier(items[n]) {
        CarrierNamesTo(AllCarrierNames(alias, items[..n]), items[n].carrier.value.parts, key);
      }
    }
  }

  lemma Registers(reasoning: seq<Item>, item: Item, name: Id, output: string, cache: Cache, r: Record)
    requires OnlyReasoning(reasoning) && OneCall(item, r, cache)
    ensures var reg := Register(Answering(reasoning, item, name, output), cache);
            reg.Ok? && AllTo(reg.value.alias, r.callId) && reg.value.calls == {r.callId}
            && forall x :: x in {r.callId, r.itemId, r.upstreamId} && x != NO_ID ==> x in reg.value.alias
  {
    hide CacheNames, GetTool, RecordOf, Unaltered;
    Ends(reasoning + [item], ResultItem(name, output));
    Ends(reasoning, item);
    ReasoningRegisters(reasoning, cache);
    assert Register(reasoning + [item], cache) == RegisterCall(Registry(map[], {}), cache, item);
    var own: map<Id, Id> := map[item.callId := item.callId];
    var named := if item.itemId != NO_ID then own[item.itemId := item.callId] else own;
    CacheNamesTo(named, cache, item.callId, item.callId);
    CacheNamesTo(CacheNames(named, cache, item.callId, item.callId), cache, item.itemId, item.callId);
    RecalledFields(cache, r);
    NamesKept(CacheNames(named, cache, item.callId, item.callId), cache, item.itemId, item.callId, r.itemId);
    if r.upstreamId != NO_ID {
      NamesKept(CacheNames(named, cache, item.callId, item.callId), cache, item.itemId, item.callId, r.upstreamId);
    }
  }

  lemma RecalledFields(cache: Cache, r: Record)
    requires r.CallRec? && Recalled(cache, r)
    ensures GetTool(cache, r.callId).Some?
    ensures var rec := GetTool(cache, r.callId).value; rec.bridgeId == r.callId && rec.itemId == r.itemId && rec.upstreamId == r.upstreamId
  {
    hide GetTool;
  }

  /** The validator accepts all three names of the call. */
  lemma AnyNameIsValid(reasoning: seq<Item>, item: Item, name: Id, output: string, cache: Cache, r: Record)
    requires OnlyReasoning(reasoning) && OneCall(item, r, cache)
    requires NamesRecord(cache, r, name)
    ensures Validate(Answering(reasoning, item, name, output), cache).Ok?
  {
    hide Register, AllCarrierNames, GetTool, AllTo, Recalled, Unaltered;
    var items := Answering(reasoning, item, name, output);
    Registers(reasoning, item, name, output, cache, r);
    var reg := Register(items, cache).value;
    AllCarrierNamesTo(reg.alias, items, r.callId);
    var reg' := reg.(alias := AllCarrierNames(reg.alias, items));
    Ends(reasoning + [item], ResultItem(name, output));
    Ends(reasoning, item);
    ReasoningPairs(reasoning, reg', cache);
    assert PairOne(Seen({}, {}), item, reg', cache) == Ok(Seen({} + {item.callId}, {}));
    assert Pair(reasoning + [item], reg', cache) == PairOne(Seen({}, {}), item, reg', cache);
    OwnedName(reg'.alias, r.callId, name);
    OwnedName(reg'.alias, r.callId, r.callId);
    assert ResultOwner(reg'.alias, cache, name) == r.callId by { RecalledFields(cache, r); }
  }

  lemma OwnedName(alias: map<Id, Id>, key: Id, x: Id)
    requires AllTo(alias, key)
    ensures key in alias && (x in alias ==> alias[x] == key)
  {
  }

  // ----- the theorem

  lemma AnsweredIs(t: Tables, reasoning: seq<Item>, item: Item, name: Id, output: string, x: Id)
    requires OnlyReasoning(reasoning) && item.CallItem? && name != NO_ID
    ensures x in Answered(t, Answering(reasoning, item, name, output)) <==> x == AliasOr(t, name)
  {
    hide AliasOr;
    Ends(reasoning + [item], ResultItem(name, output));
    Ends(reasoning, item);
    NoneAnswered(t, reasoning);
  }

  lemma {:induction false} NoneAnswered(t: Tables, reasoning: seq<Item>)
    requires OnlyReasoning(reasoning)
    ensures Answered(t, reasoning) == {}
  {
    if reasoning != [] {
      NoneAnswered(t, reasoning[..|reasoning| - 1]);
    }
  }

  /** What the tables say of the call, its result and its names. */
  lemma Scanned(
    reasoning: seq<Item>, item: Item, name: Id, output: string, cache: Cache, ctx: Ctx, ps: seq<Part>, i: nat)
    requires ctx.Valid() && i < |Built(ctx, ps).parts| && OneCall(item, Built(ctx, ps).parts[i], cache) && OnlyOwnReasoning(reasoning, ctx, ps)
    requires NamesRecord(cache, Built(ctx, ps).parts[i], name)
    ensures var t, r := Scan(Answering(reasoning, item, name, output), cache), Built(ctx, ps).parts[i];
            && (AliasOr(t, name) == r.callId <==> LeadsTo(reasoning, item, r, cache, name))
            && NameIs(t, r.callId, item) && CarrierAgrees(t, item, r) && UpstreamFits(t, item, r) && (t.tools == map[] || CallKnown(t, r))
            && (forall x :: x in t.names ==> t.names[x] == item.name)
  {
    hide ScanCalls, ScanCarriers, ScanCache, Final, Run, Built, Unaltered, Recalled, OnlyOwnReasoning, OnlyReasoning, Aliases, CarrierAgrees, UpstreamFits;
    var items, r := Answering(reasoning, item, name, output), Built(ctx, ps).parts[i];
    assert OnlyReasoning(reasoning) by { OwnIsReasoning(reasoning, ctx, ps); }
    CallsAliases(reasoning, item, name, output, r.upstreamId);
    CarriersAliases(ScanCalls(items), item, reasoning, ctx, ps, i);
    ExchangeScan(ScanCalls(items), reasoning, item, name, output);
    CarrierScansKeep(ScanCalls(items), reasoning);
    CacheAliases(ScanCarriers(ScanCalls(items), items), reasoning, item, name, output, cache, r, reasoning != []);
    OwnCarrierFits(reasoning, item, name, output, cache, ctx, ps, i);
    OwnScanned(ScanCalls(items), reasoning, ctx, ps, i);
    CallScanKeepsTools(items);
    OneName(reasoning, item, name, output);
  }

  lemma OneName(reasoning: seq<Item>, item: Item, name: Id, output: string)
    requires item.CallItem? && item.callId.CallId? && OnlyReasoning(reasoning)
    ensures forall x :: x in ScanCalls(Answering(reasoning, item, name, output)).names ==>
                          ScanCalls(Answering(reasoning, item, name, output)).names[x] == item.name
  {
    hide ScanCalls, CallsNamed;
    var items, n := Answering(reasoning, item, name, output), |reasoning|;
    assert items[n] == item && forall k :: 0 <= k < |items| && items[k].CallItem? ==> k == n;
    ExchangeNamed(reasoning, item, name, output);
    ScanCallsExact(items);
    forall x | x in ScanCalls(items).names
      ensures ScanCalls(items).names[x] == item.name
    {
      assert Taken(items, x);
      assert Takes(items[n], x);
    }
  }

  /** The response to the call, by whichever of its names it is found. */
  lemma NamedResult(t: Tables, cache: Cache, item: Item, name: Id, r: Record, output: string)
    requires OneCall(item, r, cache) && NamesRecord(cache, r, name) && AliasOr(t, name) == r.callId
    requires NameIs(t, r.callId, item) && (t.tools == map[] || CallKnown(t, r)) && forall x :: x in t.names ==> t.names[x] == item.name
    requires r.upstreamId != NO_ID
    ensures EmitResult(t, cache, ResultItem(name, output)) == RecalledResponse(r, output)
  {
    hide GetTool, RecordOf, AliasOr;
    StoredFields(GetTool(cache, r.callId).value, r);
  }

  /**
   * A result may name its call by call id, item id, upstream id or any cached alias, as far as
   * validation goes. The exchange then converts exactly when the converter itself can follow the
   * name: the call id, the item id if the client sends it with the call, what the cache still leads
   * to the record, and the upstream id only through a carrier. Otherwise the answered call is
   * rejected as unanswered.
   */
  lemma ResultByAnyName(
    reasoning: seq<Item>, item: Item, name: Id, output: string, cache: Cache, hash: seq<Item> -> string, ctx: Ctx, ps: seq<Part>, i: nat)
    requires ctx.Valid() && i < |Built(ctx, ps).parts| && OneCall(item, Built(ctx, ps).parts[i], cache) && OnlyOwnReasoning(reasoning, ctx, ps)
    requires var r := Built(ctx, ps).parts[i]; r.upstreamId != NO_ID && NamesRecord(cache, r, name)
    ensures var items, r := Answering(reasoning, item, name, output), Built(ctx, ps).parts[i];
            && Validate(items, cache).Ok?
            && Convert(items, cache, hash) ==
               if LeadsTo(reasoning, item, r, cache, name) then
                 Ok([Content("model", [CallPart(r.name, item.args, r.upstreamId, r.sig)]), Content("user", [RecalledResponse(r, output)])])
               else Err(Rejected(NoResult(Native)))
  {
    hide Validate, Scan, EmitAll, Normalized, Answered, Recalled, EmitCall, EmitResult, OutboundId, LeadOf, Unaltered, Built,
         RecalledResponse, Answering, CarrierAgrees, UpstreamFits, OnlyReasoning, OnlyOwnReasoning, LeadsTo, AliasOr, NameIs;
    var items, r := Answering(reasoning, item, name, output), Built(ctx, ps).parts[i];
    var t := Scan(items, cache);
    assert |items| == |reasoning| + 2 by { AnsweringSize(reasoning, item, name, output); }
    var lead := LeadOf(t, cache, items, |reasoning|);
    assert OnlyReasoning(reasoning) by { OwnIsReasoning(reasoning, ctx, ps); }
    SameName(item, r);
    AnyNameIsValid(reasoning, item, name, output, cache, r);
    Scanned(reasoning, item, name, output, cache, ctx, ps, i);
    AnsweredIs(t, reasoning, item, name, output, r.callId);
    EmitTwo(t, cache, Answered(t, items), reasoning, item, name, output, hash);
    if LeadsTo(reasoning, item, r, cache, name) {
      CachedCallComesBack(t, cache, Answered(t, items), item, r, lead);
      RecalledOutbound(t, cache, item, r);
      NamedResult(t, cache, item, name, r, output);
      var p := CallPart(r.name, item.args, r.upstreamId, r.sig);
      ResponseIsSubstantial(r, output);
      TwoAlternate(p, RecalledResponse(r, output));
      NormalStays([Content("model", [p]), Content("user", [RecalledResponse(r, output)])]);
    } else {
      UnansweredCall(t, cache, Answered(t, items), item, r, lead);
    }
  }

  lemma AnsweringSize(reasoning: seq<Item>, item: Item, name: Id, output: string)
    ensures |Answering(reasoning, item, name, output)| == |reasoning| + 2
  {
  }

  lemma SameName(item: Item, r: Record)
    requires r.CallRec? && item.CallItem?
    ensures Unaltered(item, r) ==> item.name == r.name
  {
  }

  /** A call that only lacks its result is rejected for that. */
  lemma UnansweredCall(t: Tables, cache: Cache, answered: set<Id>, item: Item, r: Record, lead: Id)
    requires Minted(r) && r.sig != "" && Recalled(cache, r) && Replays(item, r) && Unaltered(item, r) && CarrierAgrees(t, item, r)
    requires r.callId !in answered
    ensures EmitCall(t, cache, answered, item, lead) == Err(Rejected(NoResult(Native)))
  {
    hide Recalled, Unaltered, CarrierAgrees, EmitCall, Conflicted, Consistent, KnownCall, KnownSig, Unsuspected, OutboundId;
    CachedCallComesBack(t, cache, {r.callId}, item, r, lead);
    EmittedCallIs(t, cache, {r.callId}, item, lead);
    CachedCallComesBack(t, cache, answered, item, r, lead);
    RejectedCallIs(t, cache, answered, item, lead);
    assert KnownCall(t, cache, item) by { RecalledIsKnown(t, cache, item, r); }
  }

  lemma RecalledIsKnown(t: Tables, cache: Cache, item: Item, r: Record)
    requires Minted(r) && r.sig != "" && Recalled(cache, r) && Replays(item, r) && Unaltered(item, r)
    ensures KnownCall(t, cache, item)
  {
    hide GetTool, FindVerified;
  }

  // ----- a call replayed under its upstream id

  /** The tables know the upstream id as the record's, or, before its carrier was scanned, not at all. */
  predicate UpstreamKnown(t: Tables, r: Record, scanned: bool)
    requires r.CallRec?
  {
    if scanned then r.upstreamId in t.tools && t.tools[r.upstreamId] == VerifiedOf(r) else r.upstreamId !in t.tools
  }

  lemma PartUpstream(t: Tables, r: Record, p: Record, scanned: bool)
    requires r.CallRec? && r.upstreamId.Name? && r.upstreamId != NO_ID && UpstreamKnown(t, r, scanned)
    requires p.CallRec? ==> p.callId.CallId? && p.itemId.ItemId? && (p.upstreamId == r.upstreamId ==> p == r)
    ensures UpstreamKnown(ScanPart(t, p), r, scanned || p == r)
  {
    if p.CallRec? {
      PutThree(t.tools, p.callId, p.itemId, JoinedId(p.callId, p.itemId), VerifiedOf(p));
    }
  }

  lemma {:induction false} PartsUpstream(t: Tables, parts: seq<Record>, i: nat, n: nat, scanned: bool)
    requires DistinctCalls(parts) && DistinctUpstream(parts) && i < |parts| && n <= |parts|
    requires parts[i].CallRec? && parts[i].upstreamId.Name? && parts[i].upstreamId != NO_ID && UpstreamKnown(t, parts[i], scanned)
    ensures UpstreamKnown(ScanParts(t, parts[..n]), parts[i], scanned || i < n)
  {
    hide UpstreamKnown, ScanPart, VerifiedOf;
    if n > 0 {
      PartsUpstream(t, parts, i, n - 1, scanned);
      assert parts[..n][..n - 1] == parts[..n - 1];
      PartUpstream(ScanParts(t, parts[..n - 1]), parts[i], parts[n - 1], scanned || i < n - 1);
    } else {
      assert parts[..0] == [];
    }
  }

  lemma {:induction false} CarriersUpstream(t: Tables, reasoning: seq<Item>, ctx: Ctx, ps: seq<Part>, i: nat)
    requires ctx.Valid() && i < |Built(ctx, ps).parts| && OnlyOwnReasoning(reasoning, ctx, ps) && t.tools == map[]
    requires var r := Built(ctx, ps).parts[i]; r.CallRec? && r.upstreamId.Name? && r.upstreamId != NO_ID
    ensures UpstreamKnown(ScanCarriers(t, reasoning), Built(ctx, ps).parts[i], reasoning != [])
  {
    hide ScanParts, CarrierSiblings, DistinctCalls, DistinctItems, DistinctUpstream, OnlyOwnReasoning, Built, UpstreamKnown;
    if reasoning == [] {
      assert UpstreamKnown(t, Built(ctx, ps).parts[i], false) by { NothingKnown(t, Built(ctx, ps).parts[i]); }
    } else {
      var n, parts := |reasoning| - 1, Built(ctx, ps).parts;
      LastOwn(reasoning, ctx, ps);
      BuiltCalls(ctx, ps);
      BuiltUpstream(ctx, ps);
      CarriersUpstream(t, reasoning[..n], ctx, ps, i);
      PartsUpstream(ScanCarriers(t, reasoning[..n]), parts, i, |parts|, n != 0);
      assert parts[..|parts|] == parts;
      assert ScanCarriers(t, reasoning).tools == ScanParts(ScanCarriers(t, reasoning[..n]), parts).tools;
      SameKnown(ScanParts(ScanCarriers(t, reasoning[..n]), parts), ScanCarriers(t, reasoning), parts[i]);
    }
  }

  lemma NothingKnown(t: Tables, r: Record)
    requires r.CallRec? && t.tools == map[]
    ensures UpstreamKnown(t, r, false)
  {
  }

  lemma SameKnown(t: Tables, t': Tables, r: Record)
    requires r.CallRec? && UpstreamKnown(t, r, true) && t'.tools == t.tools
    ensures UpstreamKnown(t', r, true)
  {
  }

  lemma BuiltUpstream(ctx: Ctx, ps: seq<Part>)
    requires ctx.Valid()
    ensures DistinctUpstream(Built(ctx, ps).parts)
  {
    hide Run, Final, DistinctUpstream, WellIndexed;
    RunWF(ctx, ps);
    FinalWF(Run(ctx, ps));
  }

  /** The only call of a history leads its group, or nothing does. */
  lemma {:induction false} OnlyLead(t: Tables, cache: Cache, items: seq<Item>, lo: nat, hi: nat, n: nat)
    requires lo <= hi <= |items| && n < |items| && items[n].CallItem? && forall k :: 0 <= k < |items| && items[k].CallItem? ==> k == n
    ensures LeadIn(t, cache, items, lo, hi) in {NO_ID, CallKey(items[n])}
    decreases hi - lo
  {
    hide GroupSig;
    if lo < hi {
      OnlyLead(t, cache, items, lo + 1, hi, n);
    }
  }

  /** The client sends the call under the upstream id alone. */
  predicate UnderUpstream(item: Item, r: Record, cache: Cache) {
    && r.CallRec? && r.upstreamId.Name? && r.upstreamId != NO_ID && GetTool(cache, r.upstreamId).None?
    && item.CallItem? && item.callId == r.upstreamId && item.itemId == NO_ID
  }

  lemma UpstreamScanned(reasoning: seq<Item>, item: Item, output: string, cache: Cache, ctx: Ctx, ps: seq<Part>, i: nat)
    requires ctx.Valid() && i < |Built(ctx, ps).parts| && OnlyOwnReasoning(reasoning, ctx, ps) && reasoning != []
    requires UnderUpstream(item, Built(ctx, ps).parts[i], cache)
    ensures var items, r := Answering(reasoning, item, item.callId, output), Built(ctx, ps).parts[i];
            var t := Scan(items, cache);
            && Validate(items, cache).Ok? && NameIs(t, item.callId, item) && item.callId in Answered(t, items)
            && UpstreamKnown(t, r, true)
  {
    hide ScanCalls, ScanCarriers, ScanCache, Validate, Answered, Built, OnlyOwnReasoning, OnlyReasoning, UpstreamKnown, CallsNamed, GetTool;
    var items, n := Answering(reasoning, item, item.callId, output), |reasoning|;
    assert OnlyReasoning(reasoning) by { OwnIsReasoning(reasoning, ctx, ps); }
    assert items[n] == item && items[n + 1] == ResultItem(item.callId, output);
    UpstreamPaired(reasoning, item, output);
    assert NamesFit(items, cache) by { OnlyCallFits(reasoning, item, output, cache); }
    WellPairedIsValid(items, cache);
    ScanCallsExact(items);
    assert Takes(items[n], item.callId);
    assert NameIs(ScanCalls(items), item.callId, items[n]);
    CallScanKeepsTools(items);
    CarriersUpstream(ScanCalls(items), reasoning, ctx, ps, i);
    ExchangeScan(ScanCalls(items), reasoning, item, item.callId, output);
    CarrierScansKeep(ScanCalls(items), items);
    CacheScanKeepsNames(ScanCarriers(ScanCalls(items), items), cache, items, item.callId);
    CacheScanKeepsTools(ScanCarriers(ScanCalls(items), items), cache, items);
    SameKnown(ScanCarriers(ScanCalls(items), items), Scan(items, cache), Built(ctx, ps).parts[i]);
    AnsweredHas(Scan(items, cache), items, n + 1);
  }

  lemma UpstreamPaired(reasoning: seq<Item>, item: Item, output: string)
    requires item.CallItem? && item.callId != NO_ID && OnlyReasoning(reasoning)
    ensures WellPaired(Answering(reasoning, item, item.callId, output))
  {
    var items, n := Answering(reasoning, item, item.callId, output), |reasoning|;
    assert items[n] == item && items[n + 1] == ResultItem(item.callId, output);
    assert item.callId in IdsOf(item);
    assert forall k :: 0 <= k < |items| && items[k].CallItem? ==> k == n;
    assert forall k :: 0 <= k < |items| && items[k].ResultItem? ==> k == n + 1;
    assert OwnedBy(items, n + 1, n);
  }

  lemma OnlyCallFits(reasoning: seq<Item>, item: Item, output: string, cache: Cache)
    requires item.CallItem? && item.itemId == NO_ID && GetTool(cache, item.callId).None? && OnlyReasoning(reasoning)
    ensures NamesFit(Answering(reasoning, item, item.callId, output), cache)
  {
    hide GetTool;
    var items, n := Answering(reasoning, item, item.callId, output), |reasoning|;
    assert forall k :: 0 <= k < |items| && items[k].CallItem? ==> items[k] == item;
  }

  lemma UpstreamEvidence(t: Tables, cache: Cache, item: Item, r: Record, lead: Id)
    requires UnderUpstream(item, r, cache) && UpstreamKnown(t, r, true) && lead in {NO_ID, item.callId}
    ensures !Conflicted(cache, item) && (Consistent(t, cache, item) <==> SameCall(r.name, r.args, item)) && KnownCall(t, cache, item)
    ensures KnownSig(t, cache, item, lead) == if item.sig != "" then item.sig else r.sig
    ensures OutboundId(t, cache, item) == r.upstreamId
  {
    hide GetTool;
    assert GetTool(cache, NO_ID).None? by { NoTool(cache); }
    assert FindCached(cache, item.callId, NO_ID).None?;
    assert FindVerified(t, item.callId, NO_ID) == Some(VerifiedOf(r));
  }

  lemma NoTool(cache: Cache)
    ensures GetTool(cache, NO_ID).None?
  {
  }

  /**
   * Beside its carrier a call that comes back under its upstream id is known: it converts exactly
   * when its content is the record's and it is signed, by the client or in the record.
   */
  lemma CallUnderUpstreamId(
    reasoning: seq<Item>, item: Item, output: string, cache: Cache, hash: seq<Item> -> string, ctx: Ctx, ps: seq<Part>, i: nat)
    requires ctx.Valid() && i < |Built(ctx, ps).parts| && OnlyOwnReasoning(reasoning, ctx, ps) && reasoning != []
    requires UnderUpstream(item, Built(ctx, ps).parts[i], cache)
    ensures var r := Built(ctx, ps).parts[i];
            var sent, sig := Convert(Answering(reasoning, item, item.callId, output), cache, hash), if item.sig != "" then item.sig else r.sig;
            && (sent.Ok? <==> SameCall(r.name, r.args, item) && sig != "")
            && (sent.Ok? ==>
                  sent == Ok([Content("model", [CallPart(r.name, item.args, r.upstreamId, sig)]),
                              Content("user", [RecalledResponse(r.(callId := r.upstreamId), output)])]))
  {
    hide Validate, Scan, EmitAll, Normalized, Answered, EmitCall, EmitResult, OutboundId, LeadOf, Built, RecalledResponse, Answering, OnlyReasoning,
         OnlyOwnReasoning, GetTool, UpstreamKnown, NameIs, Conflicted, Consistent, KnownCall, KnownSig, Unsuspected;
    var items, r := Answering(reasoning, item, item.callId, output), Built(ctx, ps).parts[i];
    var t := Scan(items, cache);
    assert |items| == |reasoning| + 2 by { AnsweringSize(reasoning, item, item.callId, output); }
    var lead := LeadOf(t, cache, items, |reasoning|);
    assert OnlyReasoning(reasoning) by { OwnIsReasoning(reasoning, ctx, ps); }
    UpstreamScanned(reasoning, item, output, cache, ctx, ps, i);
    assert lead in {NO_ID, item.callId} by { ExchangeLead(t, cache, reasoning, item, item.callId, output); }
    UpstreamEvidence(t, cache, item, r, lead);
    EmittedCallIs(t, cache, Answered(t, items), item, lead);
    EmitTwo(t, cache, Answered(t, items), reasoning, item, item.callId, output, hash);
    if EmitCall(t, cache, Answered(t, items), item, lead).Ok? {
      UpstreamResult(t, cache, item, r, output);
      var p, q := EmitCall(t, cache, Answered(t, items), item, lead).value, EmitResult(t, cache, ResultItem(item.callId, output));
      ResponseIsSubstantial(r.(callId := r.upstreamId), output);
      TwoAlternate(p, q);
      NormalStays([Content("model", [p]), Content("user", [q])]);
    }
  }

  lemma ExchangeLead(t: Tables, cache: Cache, reasoning: seq<Item>, item: Item, name: Id, output: string)
    requires item.CallItem? && item.callId != NO_ID && OnlyReasoning(reasoning)
    ensures |reasoning| < |Answering(reasoning, item, name, output)|
    ensures LeadOf(t, cache, Answering(reasoning, item, name, output), |reasoning|) in {NO_ID, item.callId}
  {
    hide LeadIn, RunStart, RunEnd;
    var items, n := Answering(reasoning, item, name, output), |reasoning|;
    assert items[n] == item && forall k :: 0 <= k < |items| && items[k].CallItem? ==> k == n;
    OnlyLead(t, cache, items, RunStart(items, n), RunEnd(items, n), n);
  }

  lemma UpstreamResult(t: Tables, cache: Cache, item: Item, r: Record, output: string)
    requires UnderUpstream(item, r, cache) && UpstreamKnown(t, r, true) && NameIs(t, item.callId, item) && item.name == r.name
    ensures EmitResult(t, cache, ResultItem(item.callId, output)) == RecalledResponse(r.(callId := r.upstreamId), output)
  {
    hide GetTool;
  }

  // ----- the upstream id as a result's name, known from the carrier alone

  /** The cache knows none of the call's names. */
  predicate Uncached(cache: Cache, r: Record)
    requires r.CallRec?
  {
    forall id :: id in {r.callId, r.itemId, Joined(r.callId, r.itemId), r.upstreamId} ==> GetTool(cache, id).None?
  }

  lemma {:induction false} CarrierGivesName(alias: map<Id, Id>, parts: seq<Record>, i: nat, n: nat)
    requires i < |parts| && parts[i].CallRec? && parts[i].upstreamId != NO_ID && parts[i].callId != NO_ID && parts[i].callId in alias && n <= |parts|
    ensures alias.Keys <= CarrierNames(alias, parts[..n]).Keys && (i < n ==> parts[i].upstreamId in CarrierNames(alias, parts[..n]))
  {
    if n > 0 {
      CarrierGivesName(alias, parts, i, n - 1);
      assert parts[..n][..n - 1] == parts[..n - 1];
    } else {
      assert parts[..0] == [];
    }
  }

  lemma {:induction false} CarriersGiveName(alias: map<Id, Id>, reasoning: seq<Item>, ctx: Ctx, ps: seq<Part>, i: nat)
    requires ctx.Valid() && i < |Built(ctx, ps).parts| && OnlyOwnReasoning(reasoning, ctx, ps)
    requires var r := Built(ctx, ps).parts[i]; r.CallRec? && r.upstreamId != NO_ID && r.callId != NO_ID && r.callId in alias
    ensures alias.Keys <= AllCarrierNames(alias, reasoning).Keys
    ensures reasoning != [] ==> Built(ctx, ps).parts[i].upstreamId in AllCarrierNames(alias, reasoning)
  {
    hide CarrierNames, Built, OnlyOwnReasoning;
    if reasoning != [] {
      var n, parts := |reasoning| - 1, Built(ctx, ps).parts;
      LastOwn(reasoning, ctx, ps);
      CarriersGiveName(alias, reasoning[..n], ctx, ps, i);
      CarrierGivesName(AllCarrierNames(alias, reasoning[..n]), parts, i, |parts|);
      assert parts[..|parts|] == parts;
    }
  }

  /** The client replays the call as it was, and the carrier shows it. */
  predicate CarriedCall(item: Item, r: Record, cache: Cache) {
    Minted(r) && r.upstreamId.Name? && r.upstreamId != NO_ID && Uncached(cache, r) && Replays(item, r) && SameCall(r.name, r.args, item)
    && (item.sig != "" || r.sig != "")
  }

  lemma CarriedIsValid(reasoning: seq<Item>, item: Item, output: string, cache: Cache, ctx: Ctx, ps: seq<Part>, i: nat)
    requires ctx.Valid() && i < |Built(ctx, ps).parts| && OnlyOwnReasoning(reasoning, ctx, ps) && reasoning != []
    requires CarriedCall(item, Built(ctx, ps).parts[i], cache)
    ensures Validate(Answering(reasoning, item, Built(ctx, ps).parts[i].upstreamId, output), cache).Ok?
  {
    hide AllCarrierNames, GetTool, AllTo, Built, OnlyOwnReasoning, SameCall, CacheNames;
    var r := Built(ctx, ps).parts[i];
    var items := Answering(reasoning, item, r.upstreamId, output);
    assert OnlyReasoning(reasoning) by { OwnIsReasoning(reasoning, ctx, ps); }
    Ends(reasoning + [item], ResultItem(r.upstreamId, output));
    Ends(reasoning, item);
    ReasoningRegisters(reasoning, cache);
    assert GetTool(cache, NO_ID).None? by { NoTool(cache); }
    var own: map<Id, Id> := map[item.callId := item.callId];
    var alias := if item.itemId != NO_ID then own[item.itemId := item.callId] else own;
    assert CacheNames(alias, cache, item.callId, item.callId) == alias by { NoNames(alias, cache, item.callId, item.callId); }
    assert CacheNames(alias, cache, item.itemId, item.callId) == alias by { NoNames(alias, cache, item.itemId, item.callId); }
    var none: set<Id> := {};
    assert none + {r.callId} == {r.callId};
    assert Register(reasoning + [item], cache) == RegisterCall(Registry(map[], none), cache, item);
    assert Register(reasoning + [item], cache) == Ok(Registry(alias, {r.callId}));
    assert Register(items, cache) == Ok(Registry(alias, {r.callId}));
    assert AllTo(alias, r.callId) by { StartsTo(alias, item, r.callId); }
    AllCarrierNamesTo(alias, items, r.callId);
    CarriersGiveName(alias, reasoning, ctx, ps, i);
    assert AllCarrierNames(alias, items) == AllCarrierNames(alias, reasoning) by { LastTwoGiveNone(alias, reasoning, item, r.upstreamId, output); }
    var reg := Registry(AllCarrierNames(alias, items), {r.callId});
    OwnedName(reg.alias, r.callId, r.upstreamId);
    ReasoningPairs(reasoning, reg, cache);
    assert PairOne(Seen({}, {}), item, reg, cache) == Ok(Seen({} + {item.callId}, {}));
    assert Pair(reasoning + [item], reg, cache) == PairOne(Seen({}, {}), item, reg, cache);
  }

  lemma NoNames(alias: map<Id, Id>, cache: Cache, id: Id, target: Id)
    requires GetTool(cache, id).None?
    ensures CacheNames(alias, cache, id, target) == alias
  {
    hide GetTool;
  }

  lemma StartsTo(alias: map<Id, Id>, item: Item, key: Id)
    requires item.CallItem? && item.callId == key
    requires alias == (if item.itemId != NO_ID then map[key := key][item.itemId := key] else map[key := key])
    ensures AllTo(alias, key)
  {
  }

  lemma LastTwoGiveNone(alias: map<Id, Id>, reasoning: seq<Item>, item: Item, name: Id, output: string)
    requires item.CallItem?
    ensures AllCarrierNames(alias, Answering(reasoning, item, name, output)) == AllCarrierNames(alias, reasoning)
  {
    Ends(reasoning + [item], ResultItem(name, output));
    Ends(reasoning, item);
  }

  lemma CarriedIsScanned(reasoning: seq<Item>, item: Item, output: string, cache: Cache, ctx: Ctx, ps: seq<Part>, i: nat)
    requires ctx.Valid() && i < |Built(ctx, ps).parts| && OnlyOwnReasoning(reasoning, ctx, ps) && reasoning != []
    requires CarriedCall(item, Built(ctx, ps).parts[i], cache)
    ensures var r := Built(ctx, ps).parts[i];
            var t := Scan(Answering(reasoning, item, r.upstreamId, output), cache);
            && AliasOr(t, r.upstreamId) == r.callId && NameIs(t, r.callId, item) && CallKnown(t, r)
            && forall x :: x in t.names ==> t.names[x] == item.name
  {
    hide ScanCalls, ScanCarriers, ScanCache, Final, Run, Built, OnlyOwnReasoning, OnlyReasoning, Aliases, SameCall, GetTool, Uncached;
    var r := Built(ctx, ps).parts[i];
    var items := Answering(reasoning, item, r.upstreamId, output);
    assert OnlyReasoning(reasoning) by { OwnIsReasoning(reasoning, ctx, ps); }
    CallsAliases(reasoning, item, r.upstreamId, output, r.upstreamId);
    CarriersAliases(ScanCalls(items), item, reasoning, ctx, ps, i);
    ExchangeScan(ScanCalls(items), reasoning, item, r.upstreamId, output);
    CarrierScansKeep(ScanCalls(items), reasoning);
    OwnScanned(ScanCalls(items), reasoning, ctx, ps, i);
    OneName(reasoning, item, r.upstreamId, output);
    var t := ScanCarriers(ScanCalls(items), items);
    assert r.upstreamId in t.alias && t.alias[r.upstreamId] == r.callId by { NamedUpstream(t, item, r.upstreamId); }
    CacheScanKeepsNames(t, cache, items, r.upstreamId);
    CacheScanKeepsNames(t, cache, items, r.callId);
    CacheScanKeepsTools(t, cache, items);
  }

  lemma NamedUpstream(t: Tables, item: Item, u: Id)
    requires item.CallItem? && Aliases(t, item, u, true) && u != NO_ID
    ensures u in t.alias && t.alias[u] == item.callId
  {
  }

  lemma CarriedEvidence(t: Tables, cache: Cache, item: Item, r: Record, lead: Id)
    requires CarriedCall(item, r, cache) && CallKnown(t, r) && lead in {NO_ID, item.callId}
    ensures !Conflicted(cache, item) && Consistent(t, cache, item) && KnownCall(t, cache, item)
    ensures KnownSig(t, cache, item, lead) == if item.sig != "" then item.sig else r.sig
    ensures OutboundId(t, cache, item) == r.upstreamId
  {
    hide GetTool;
    assert GetTool(cache, NO_ID).None? by { NoTool(cache); }
    assert FindCached(cache, item.callId, item.itemId).None?;
    assert FindVerified(t, item.callId, item.itemId) == Some(VerifiedOf(r));
  }

  lemma CarriedResult(t: Tables, cache: Cache, item: Item, r: Record, output: string)
    requires CarriedCall(item, r, cache) && CallKnown(t, r) && NameIs(t, r.callId, item) && AliasOr(t, r.upstreamId) == r.callId
    requires forall x :: x in t.names ==> t.names[x] == item.name
    ensures EmitResult(t, cache, ResultItem(r.upstreamId, output)) == RecalledResponse(r, output)
  {
    hide GetTool, AliasOr;
    assert GetTool(cache, r.callId).None? && GetTool(cache, r.upstreamId).None?;
  }

  /** With its carrier a call and a result that names it by the upstream id convert also where the cache knows nothing. */
  lemma CarriedResultByUpstreamId(
    reasoning: seq<Item>, item: Item, output: string, cache: Cache, hash: seq<Item> -> string, ctx: Ctx, ps: seq<Part>, i: nat)
    requires ctx.Valid() && i < |Built(ctx, ps).parts| && OnlyOwnReasoning(reasoning, ctx, ps) && reasoning != []
    requires CarriedCall(item, Built(ctx, ps).parts[i], cache)
    ensures var r := Built(ctx, ps).parts[i];
            Convert(Answering(reasoning, item, r.upstreamId, output), cache, hash) ==
            Ok([Content("model", [CallPart(r.name, item.args, r.upstreamId, if item.sig != "" then item.sig else r.sig)]),
                Content("user", [RecalledResponse(r, output)])])
  {
    hide Validate, Scan, EmitAll, Normalized, Answered, EmitCall, EmitResult, OutboundId, LeadOf, Built, RecalledResponse, Answering, OnlyReasoning,
         OnlyOwnReasoning, GetTool, Uncached, CallKnown, NameIs, Conflicted, Consistent, KnownCall, KnownSig, Unsuspected, AliasOr;
    var r := Built(ctx, ps).parts[i];
    var items := Answering(reasoning, item, r.upstreamId, output);
    var t := Scan(items, cache);
    assert |items| == |reasoning| + 2 by { AnsweringSize(reasoning, item, r.upstreamId, output); }
    var lead := LeadOf(t, cache, items, |reasoning|);
    assert OnlyReasoning(reasoning) by { OwnIsReasoning(reasoning, ctx, ps); }
    CarriedIsValid(reasoning, item, output, cache, ctx, ps, i);
    CarriedIsScanned(reasoning, item, output, cache, ctx, ps, i);
    ExchangeLead(t, cache, reasoning, item, r.upstreamId, output);
    AnsweredIs(t, reasoning, item, r.upstreamId, output, r.callId);
    CarriedEvidence(t, cache, item, r, lead);
    EmittedCallIs(t, cache, Answered(t, items), item, lead);
    EmitTwo(t, cache, Answered(t, items), reasoning, item, r.upstreamId, output, hash);
    CarriedResult(t, cache, item, r, output);
    var p, q := EmitCall(t, cache, Answered(t, items), item, lead).value, RecalledResponse(r, output);
    ResponseIsSubstantial(r, output);
    TwoAlternate(p, q);
    NormalStays([Content("model", [p]), Content("user", [q])]);
  }
}
