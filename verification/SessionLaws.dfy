/** A signed call replayed from the cache keeps its own signature, whatever other turns did. */
module SessionLaws {
  import opened Core
  import opened Turns
  import opened Caches
  import opened CacheLaws
  import opened Exchange
  import opened ExchangeSpec
  import opened Normalize
  import opened Translate
  import opened Pairing
  import opened ScanLaws
  import opened RoundTrip
  import opened Sessions

  // ----- the cache remembers the call

  /** The operation neither stores a record under the call's ids nor claims its call id. */
  predicate Avoids(op: Op, r: Record)
    requires r.CallRec?
  {
    op.PutToolOp? ==>
      && op.rec.bridgeId != r.callId && op.rec.bridgeId != r.itemId
      && forall k :: 0 <= k < |op.aliases| ==> op.aliases[k] != r.callId
  }

  /** The bridge minted both ids. */
  predicate Minted(r: Record) {
    r.CallRec? && r.callId.CallId? && r.itemId.ItemId?
  }

  predicate Unused(c: Cache, r: Record)
    requires r.CallRec?
  {
    r.callId !in c.aliases && r.itemId !in c.records
  }

  lemma {:induction false} BindsOthers(c: Cache, id: Id, aliases: seq<Id>, x: Id)
    requires forall k :: 0 <= k < |aliases| ==> aliases[k] != x
    ensures x in BindAliases(c, id, aliases).aliases <==> x in c.aliases
    ensures BindAliases(c, id, aliases).records == c.records
  {
    if aliases != [] {
      BindsOthers(c, id, aliases[..|aliases| - 1], x);
    }
  }

  lemma UnusedStays(c: Cache, op: Op, r: Record)
    requires Inv(c) && Legal(c, op) && r.CallRec? && Avoids(op, r) && Unused(c, r)
    ensures Unused(Apply(c, op), r)
  {
    hide Inv, Legal, Refused, Admit, KeepSig, Load, PutBounded, TrimSpace, Evicted;
    match op
    case PutToolOp(rec, aliases) =>
      if !Refused(c, rec) {
        KeptSig(c, rec);
        InvOrder(c);
        AdmitIs(c, KeepSig(c, rec));
        BindsOthers(Admit(c, KeepSig(c, rec)), rec.bridgeId, aliases, r.callId);
      }
    case Restart(o) => RestartIs(c, o);
    case _ =>
  }

  lemma InvOrder(c: Cache)
    requires Inv(c)
    ensures ToolOrderInv(c) && AliasInv(c)
  {
  }

  predicate Remembered(c: Cache, r: Record)
    requires r.CallRec?
  {
    && r.callId in c.records && RecordOf(c.records[r.callId], r)
    && r.itemId !in c.records && Tied(c, r.itemId, r.callId)
  }

  lemma PutRemembers(c: Cache, ctx: Ctx, r: Record)
    requires Inv(c) && Minted(r) && Unused(c, r) && r.sig != MIGRATION_MARKER
    ensures Remembered(Apply(c, PutCallOp(ctx, r)), r)
  {
    hide ToolOrderInv, TableInv, Admit, Evicted, BindAlias;
    var rec := CacheRecord(ctx, r);
    assert r.callId !in c.records;
    AdmitIs(c, rec);
    AdmitKeeps(c, rec);
    var c1 := Admit(c, rec);
    BindTwo(c1, r.callId, r.itemId, Joined(r.callId, r.itemId));
    BindFirst(c1, r.callId, r.itemId);
    var c2 := BindAlias(c1, r.callId, r.itemId);
    BindKeeps(c1, r.callId, r.itemId);
    BindTied(c2, r.callId, Joined(r.callId, r.itemId), r.itemId, r.callId);
    BindKeeps(c2, r.callId, Joined(r.callId, r.itemId));
  }

  lemma BindTwo(c: Cache, id: Id, a: Id, b: Id)
    ensures BindAliases(c, id, [a, b]) == BindAlias(BindAlias(c, id, a), id, b)
  {
    hide BindAlias;
    assert [a, b][..|[a, b]| - 1] == [a];
    assert [a][..|[a]| - 1] == [];
    assert BindAliases(c, id, []) == c;
    assert BindAliases(c, id, [a]) == BindAlias(c, id, a);
  }

  lemma BindFirst(c: Cache, id: Id, a: Id)
    requires a != NO_ID && a !in c.records
    ensures Tied(BindAlias(c, id, a), a, id)
  {
  }

  /** Any other operation after which the record is still live has left it as it was. */
  lemma AvoidKeeps(c: Cache, op: Op, r: Record)
    requires Inv(c) && Legal(c, op) && r.CallRec? && Avoids(op, r) && r.callId in Apply(c, op).records
    ensures r.callId in c.records
    ensures Remembered(c, r) ==> Remembered(Apply(c, op), r)
  {
    hide Inv, Legal, Refused, PutTool, KeepSig, Load, PutBounded, TrimSpace, Evicted, Tied;
    if op.PutToolOp? {
      PutToolKeeps(c, op.rec, op.aliases);
      if Refused(c, op.rec) {
        RefusedPut(c, op.rec, op.aliases);
      }
    } else if op.Restart? {
      RestartIs(c, op.orders);
      SavedRecord(c, r.callId);
    }
    if r.callId in c.records && Tied(c, r.itemId, r.callId) {
      ApplyTied(c, op, r.itemId, r.callId);
    }
  }

  lemma SavedRecord(c: Cache, k: Id)
    ensures k in Save(c).records <==> k in c.records
    ensures k in c.records ==> Save(c).records[k] == PersistedRecord(c.records[k])
  {
  }

  /** Operation `k` stores the call, and every other one avoids it. */
  predicate StoredOnce(ops: seq<Op>, k: nat, ctx: Ctx, r: Record)
    requires r.CallRec?
  {
    && k < |ops| && ops[k] == PutCallOp(ctx, r)
    && forall j :: 0 <= j < |ops| && j != k ==> Avoids(ops[j], r)
  }

  lemma {:induction false} UnusedBefore(max: Capacity, ops: seq<Op>, r: Record)
    requires LegalRun(Fresh(max), ops) && r.CallRec? && forall j :: 0 <= j < |ops| ==> Avoids(ops[j], r)
    ensures Unused(RunFrom(Fresh(max), ops), r)
  {
    hide Apply, Avoids, Legal;
    if ops != [] {
      var n := |ops| - 1;
      UnusedBefore(max, ops[..n], r);
      RunKeeps(max, ops[..n]);
      UnusedStays(RunFrom(Fresh(max), ops[..n]), ops[n], r);
    }
  }

  /** If the record is live at the end of the run, the cache still remembers the call. */
  lemma {:induction false} StillRemembered(max: Capacity, ops: seq<Op>, k: nat, ctx: Ctx, r: Record)
    requires LegalRun(Fresh(max), ops) && Minted(r) && r.sig != MIGRATION_MARKER && StoredOnce(ops, k, ctx, r)
    requires r.callId in RunFrom(Fresh(max), ops).records
    ensures Remembered(RunFrom(Fresh(max), ops), r)
  {
    hide Apply, Avoids, Legal, Remembered, Unused, Inv;
    var n := |ops| - 1;
    RunKeeps(max, ops[..n]);
    var before := RunFrom(Fresh(max), ops[..n]);
    if k == n {
      UnusedBefore(max, ops[..n], r);
      PutRemembers(before, ctx, r);
    } else {
      AvoidKeeps(before, ops[n], r);
      StillRemembered(max, ops[..n], k, ctx, r);
    }
  }

  // ----- a turn stores each of its calls once, and avoids the calls of other turns

  lemma {:induction false} PartsAvoid(ctx: Ctx, parts: seq<Record>, prefixHash: string, r: Record)
    requires Minted(r) && forall i :: 0 <= i < |parts| && parts[i].CallRec? ==>
      Minted(parts[i]) && parts[i].callId != r.callId && parts[i].itemId != r.itemId
    ensures forall j :: 0 <= j < |PartOps(ctx, parts, prefixHash)| ==> Avoids(PartOps(ctx, parts, prefixHash)[j], r)
  {
    if parts != [] {
      PartsAvoid(ctx, parts[..|parts| - 1], prefixHash, r);
    }
  }

  lemma {:induction false} SiblingsAvoid(siblings: map<Id, seq<Id>>, leads: seq<Id>, r: Record)
    requires r.CallRec?
    ensures forall j :: 0 <= j < |SiblingOps(siblings, leads)| ==> Avoids(SiblingOps(siblings, leads)[j], r)
  {
    if leads != [] {
      SiblingsAvoid(siblings, leads[..|leads| - 1], r);
    }
  }

  lemma CallPartOps(ctx: Ctx, r: Record, prefixHash: string)
    requires r.CallRec?
    ensures var ops := RecordOps(ctx, r, prefixHash);
            |ops| > 0 && ops[0] == PutCallOp(ctx, r) && forall j :: 0 < j < |ops| ==> Avoids(ops[j], r)
  {
  }

  lemma {:induction false} PartsStoreOnce(ctx: Ctx, parts: seq<Record>, prefixHash: string, i: nat)
    requires i < |parts| && Minted(parts[i])
    requires forall j :: 0 <= j < |parts| && parts[j].CallRec? ==> Minted(parts[j])
    requires forall j :: 0 <= j < |parts| && j != i && parts[j].CallRec? ==> parts[j].callId != parts[i].callId && parts[j].itemId != parts[i].itemId
    ensures StoredOnce(PartOps(ctx, parts, prefixHash), |PartOps(ctx, parts[..i], prefixHash)|, ctx, parts[i])
    decreases |parts|
  {
    hide RecordOps, Avoids, PutCallOp;
    var n := |parts| - 1;
    if i == n {
      PartsAvoid(ctx, parts[..n], prefixHash, parts[i]);
      CallPartOps(ctx, parts[n], prefixHash);
    } else {
      assert parts[..n][..i] == parts[..i];
      PartsStoreOnce(ctx, parts[..n], prefixHash, i);
      OneAvoids(ctx, parts[n], prefixHash, parts[i]);
    }
  }

  lemma OneAvoids(ctx: Ctx, p: Record, prefixHash: string, r: Record)
    requires Minted(r) && (p.CallRec? ==> Minted(p) && p.callId != r.callId && p.itemId != r.itemId)
    ensures forall j :: 0 <= j < |RecordOps(ctx, p, prefixHash)| ==> Avoids(RecordOps(ctx, p, prefixHash)[j], r)
  {
  }

  lemma BuiltCalls(ctx: Ctx, ps: seq<Part>)
    requires ctx.Valid()
    ensures var parts := Built(ctx, ps).parts;
            && (forall i :: 0 <= i < |parts| && parts[i].CallRec? ==>
                  Minted(parts[i]) && parts[i].callId.key.turn == ctx.turnId && parts[i].itemId.key.turn == ctx.turnId)
            && DistinctItems(parts) && DistinctCalls(parts)
  {
    hide Run, DistinctItems, DistinctCalls, Final;
    RunWF(ctx, ps);
    FinalWF(Run(ctx, ps));
    var d := Final(Run(ctx, ps));
    DistinctIds(d);
    assert d.ctx == ctx by { FinalCtx(ctx, ps); }
    forall i | 0 <= i < |d.parts| && d.parts[i].CallRec?
      ensures Minted(d.parts[i]) && d.parts[i].callId.key.turn == ctx.turnId && d.parts[i].itemId.key.turn == ctx.turnId
    {
      assert OwnIds(ctx, d.parts, i);
    }
  }

  lemma {:induction false} FinalCtx(ctx: Ctx, ps: seq<Part>)
    ensures Run(ctx, ps).ctx == ctx && Final(Run(ctx, ps)).ctx == ctx
  {
    if ps != [] {
      FinalCtx(ctx, ps[..|ps| - 1]);
    }
  }

  /** Populating the cache stores each call of the turn exactly once. */
  lemma TurnStoresOnce(ctx: Ctx, ps: seq<Part>, prefixHash: string, leads: seq<Id>, i: nat)
    requires ctx.Valid() && i < |Built(ctx, ps).parts| && Built(ctx, ps).parts[i].CallRec?
    ensures var t := Built(ctx, ps);
            StoredOnce(TurnOps(t, prefixHash, leads), |PartOps(ctx, t.parts[..i], prefixHash)|, ctx, t.parts[i])
  {
    hide Built, DistinctItems, DistinctCalls, PartOps, SiblingOps, Avoids, PutCallOp;
    var t := Built(ctx, ps);
    BuiltCalls(ctx, ps);
    assert t.ctx == ctx by { BuiltCtx(ctx, ps); }
    forall j | 0 <= j < |t.parts| && j != i && t.parts[j].CallRec?
      ensures t.parts[j].callId != t.parts[i].callId && t.parts[j].itemId != t.parts[i].itemId
    {
      Distinct(t.parts, i, j);
      Distinct(t.parts, j, i);
    }
    PartsStoreOnce(ctx, t.parts, prefixHash, i);
    SiblingsAvoid(t.siblings, leads, t.parts[i]);
  }

  lemma BuiltCtx(ctx: Ctx, ps: seq<Part>)
    ensures Built(ctx, ps).ctx == ctx
  {
    FinalCtx(ctx, ps);
  }

  lemma Distinct(parts: seq<Record>, i: nat, j: nat)
    requires DistinctItems(parts) && DistinctCalls(parts) && i < |parts| && j < |parts| && parts[i].CallRec? && parts[j].CallRec?
    ensures i < j ==> parts[i].callId != parts[j].callId && parts[i].itemId != parts[j].itemId
  {
  }

  /** A turn with another turn id avoids the calls of this one, even with equal upstream ids. */
  lemma OtherTurnAvoids(ctx: Ctx, ps: seq<Part>, i: nat, ctx': Ctx, ps': seq<Part>, prefixHash: string, leads: seq<Id>)
    requires ctx.Valid() && ctx'.Valid() && ctx.turnId != ctx'.turnId
    requires i < |Built(ctx, ps).parts| && Built(ctx, ps).parts[i].CallRec?
    ensures var ops := TurnOps(Built(ctx', ps'), prefixHash, leads);
            forall j :: 0 <= j < |ops| ==> Avoids(ops[j], Built(ctx, ps).parts[i])
  {
    hide Built, DistinctItems, DistinctCalls, PartOps, SiblingOps, Avoids;
    var r, t := Built(ctx, ps).parts[i], Built(ctx', ps');
    BuiltCalls(ctx, ps);
    BuiltCalls(ctx', ps');
    PartsAvoid(t.ctx, t.parts, prefixHash, r);
    SiblingsAvoid(t.siblings, leads, r);
  }

  // ----- replaying the call from the cache alone

  predicate Recalled(cache: Cache, r: Record)
    requires r.CallRec?
  {
    && GetTool(cache, r.callId).Some? && RecordOf(GetTool(cache, r.callId).value, r)
    && (GetTool(cache, r.itemId).None? || GetTool(cache, r.itemId) == GetTool(cache, r.callId))
  }

  lemma RememberedIsRecalled(cache: Cache, r: Record)
    requires Minted(r) && Remembered(cache, r)
    ensures Recalled(cache, r)
  {
  }

  /** The client replays the call under its own ids; item id and signature may be stripped. */
  predicate Replays(item: Item, r: Record) {
    && r.CallRec? && item.CallItem? && item.callId == r.callId
    && (item.itemId == r.itemId || item.itemId == NO_ID)
  }

  /** Name and arguments as they were, and no foreign signature. */
  predicate Unaltered(item: Item, r: Record)
    requires r.CallRec? && item.CallItem?
  {
    SameCall(r.name, r.args, item) && (item.sig == "" || item.sig == r.sig)
  }

  lemma SameStored(rec: ToolRecord, r: Record, item: Item)
    requires r.CallRec? && item.CallItem? && RecordOf(rec, r)
    ensures SameCall(rec.name, rec.args, item) <==> SameCall(r.name, r.args, item)
  {
  }

  /** Carrier and cache agree on the call: same name and arguments, and no second signature. */
  predicate CarrierAgrees(t: Tables, item: Item, r: Record)
    requires r.CallRec? && item.CallItem?
  {
    match FindVerified(t, r.callId, item.itemId)
    case None => true
    case Some(v) => SameCall(v.name, v.args, item) && (item.sig != "" || v.sig == "" || v.sig == r.sig)
  }

  lemma RecalledEvidence(t: Tables, cache: Cache, answered: set<Id>, item: Item, r: Record)
    requires Minted(r) && Recalled(cache, r) && Replays(item, r)
    ensures var ev, v := OwnEvidence(t, cache, answered, item), FindVerified(t, r.callId, item.itemId);
            var same, vsame := SameCall(r.name, r.args, item), v.Some? ==> SameCall(v.value.name, v.value.args, item);
            && ev.hasCache && ev.cacheSig == r.sig && ev.cacheMismatch == !same && ev.carrierMismatch == !vsame
            && ev.carrierSig == (if vsame && same && item.sig != "" then item.sig else if v.Some? && vsame then v.value.sig else "")
            && (ev.hasCarrier <==> v.Some? || (vsame && same && item.sig != ""))
            && (ev.hasMatchingOutput <==> r.callId in answered)
            && !ev.nativeTurnUnverified && !ev.recordedSibling
  {
    hide GetTool, SameCall, RecordOf, FindVerified;
    var rec := GetTool(cache, r.callId).value;
    SameStored(rec, r, item);
    assert rec.sig == r.sig && !rec.legacy by { StoredFields(rec, r); }
  }

  lemma NoConflict(cache: Cache, item: Item, r: Record)
    requires Minted(r) && Recalled(cache, r) && Replays(item, r)
    ensures !Conflicted(cache, item)
  {
    hide GetTool, RecordOf;
    StoredFields(GetTool(cache, r.callId).value, r);
  }

  /**
   * The cached call is emitted exactly when it is answered and unaltered and no carrier contradicts
   * the cache, and always with its own signature.
   */
  lemma CachedCallComesBack(t: Tables, cache: Cache, answered: set<Id>, item: Item, r: Record, lead: Id)
    requires Minted(r) && r.sig != "" && Recalled(cache, r) && Replays(item, r)
    ensures var sent := EmitCall(t, cache, answered, item, lead);
            && (sent.Ok? <==> r.callId in answered && Unaltered(item, r) && CarrierAgrees(t, item, r))
            && (sent.Ok? ==> sent.value == CallPart(item.name, item.args, OutboundId(t, cache, item), r.sig))
  {
    hide GetTool, RecordOf, SameCall, OwnEvidence, Conflicted, RecordedSibling, LeadSig, FindVerified, OutboundId;
    RecalledEvidence(t, cache, answered, item, r);
    NoConflict(cache, item, r);
  }

  /** What carriers know under the call's ids names no other upstream id. */
  predicate UpstreamFits(t: Tables, item: Item, r: Record)
    requires r.CallRec? && item.CallItem?
  {
    match FindVerified(t, r.callId, item.itemId)
    case None => true
    case Some(v) => v.upstreamId == NO_ID || v.upstreamId == OutId(r)
  }

  lemma RecalledOutbound(t: Tables, cache: Cache, item: Item, r: Record)
    requires Minted(r) && Recalled(cache, r) && Replays(item, r) && UpstreamFits(t, item, r)
    ensures OutboundId(t, cache, item) == OutId(r)
  {
    hide GetTool, RecordOf, FindVerified;
    StoredFields(GetTool(cache, r.callId).value, r);
  }

  /** No carrier of the history vouches for the call's ids under another upstream id. */
  ghost predicate UpstreamAgrees(items: seq<Item>, r: Record)
    requires r.CallRec?
  {
    forall id, v :: id in {r.callId, r.itemId, Joined(r.callId, r.itemId)} && VouchedBy(items, id, v) ==>
      v.upstreamId == NO_ID || v.upstreamId == OutId(r)
  }

  lemma AgreeingFits(items: seq<Item>, cache: Cache, item: Item, r: Record)
    requires Minted(r) && Replays(item, r) && UpstreamAgrees(items, r)
    ensures UpstreamFits(Scan(items, cache), item, r)
  {
    hide Scan, VouchedBy;
    var t := Scan(items, cache);
    forall id | id in {r.callId, r.itemId, Joined(r.callId, r.itemId)} && id in t.tools
      ensures t.tools[id].upstreamId == NO_ID || t.tools[id].upstreamId == OutId(r)
    {
      ToolsAreVouched(items, cache, id);
    }
  }

  lemma {:induction false} EmittedPart(t: Tables, cache: Cache, answered: set<Id>, items: seq<Item>, n: nat, hash: seq<Item> -> string, idx: nat, c: Content)
    requires idx < n <= |items| && EmitAll(t, cache, answered, items, n, hash).Ok?
    requires |c.parts| == 1 && EmitItem(t, cache, answered, items, idx, hash) == Ok([c])
    ensures (c.role, c.parts[0]) in Flatten(EmitAll(t, cache, answered, items, n, hash).value)
  {
    hide EmitItem, Flatten;
    var before := EmitAll(t, cache, answered, items, n - 1, hash).value;
    var cs := EmitItem(t, cache, answered, items, n - 1, hash).value;
    if idx < n - 1 {
      EmittedPart(t, cache, answered, items, n - 1, hash, idx, c);
      FlattenConcat(before, cs);
    } else {
      FlattenSnoc(before, c);
      assert Tagged(c.role, c.parts)[0] == (c.role, c.parts[0]);
    }
  }

  /**
   * A conversion in which the call is replayed, with any carriers, either fails or sends it on with
   * its own signature, and under its own upstream id unless some carrier names another one.
   */
  lemma RecalledConversion(items: seq<Item>, idx: nat, cache: Cache, hash: seq<Item> -> string, r: Record)
    requires idx < |items| && Replays(items[idx], r)
    requires Minted(r) && r.sig != "" && Recalled(cache, r)
    ensures var sent, id := Convert(items, cache, hash), OutboundId(Scan(items, cache), cache, items[idx]);
            && (sent.Ok? ==> ("model", CallPart(items[idx].name, items[idx].args, id, r.sig)) in Flatten(sent.value))
            && (UpstreamAgrees(items, r) ==> id == OutId(r))
            && (!Unaltered(items[idx], r) ==> sent.Err?)
  {
    hide Validate, Scan, EmitAll, Normalized, Flatten, KeepSubstantial, Answered, Recalled, Unaltered, CarrierAgrees, EmitCall, OutId, LeadOf, Alternating,
         Replays, Minted, OutboundId, UpstreamAgrees, UpstreamFits;
    var t := Scan(items, cache);
    assert items[idx].CallItem? && r.CallRec? by { ReplaysCall(items[idx], r); }
    if UpstreamAgrees(items, r) {
      AgreeingFits(items, cache, items[idx], r);
      RecalledOutbound(t, cache, items[idx], r);
    }
    if Convert(items, cache, hash).Ok? {
      var answered := Answered(t, items);
      EmittedItems(t, cache, answered, items, |items|, hash, idx);
      CachedCallComesBack(t, cache, answered, items[idx], r, LeadOf(t, cache, items, idx));
      var p := CallPart(items[idx].name, items[idx].args, OutboundId(t, cache, items[idx]), r.sig);
      EmittedPart(t, cache, answered, items, |items|, hash, idx, Content("model", [p]));
      NormalizedKeeps(RawContents(items, cache, hash).value);
      KeptIn(Flatten(RawContents(items, cache, hash).value), ("model", p));
    }
  }

  lemma ReplaysCall(item: Item, r: Record)
    requires Replays(item, r)
    ensures item.CallItem? && r.CallRec?
  {
  }

  // ----- a text replayed from the cache alone

  /**
   * A replayed text that comes without a signature takes one from a carrier that holds this very
   * text under its id, or the only one that was put for this text after this very prefix since the
   * entry exists, or none: whatever carriers the history holds and whatever else the run did.
   */
  lemma CachedTextIsSound(max: Capacity, ops: seq<Op>, items: seq<Item>, item: Item, prefixHash: string)
    requires LegalRun(Fresh(max), ops) && item.MessageItem? && item.sig == ""
    ensures var cache := RunFrom(Fresh(max), ops);
            var sig := TextSig(Scan(items, cache), cache, item, prefixHash);
            || sig == "" || TextBy(items, item.id, item.text, sig) || TextBy(items, item.itemId, item.text, sig)
            || PutsSinceEntry(Fresh(max), ops, TrimSpace(ResponsesContextKey(prefixHash, item.text))) == {sig}
  {
    hide RunFrom, PutsSinceEntry, GetContext, ResponsesContextKey, TrimSpace, Scan, TextBy;
    var cache := RunFrom(Fresh(max), ops);
    var t := Scan(items, cache);
    ContextLookupIsSound(max, ops, ResponsesContextKey(prefixHash, item.text));
    if item.id in t.texts {
      TextsAreVouched(items, cache, item.id);
    }
    if item.itemId in t.texts {
      TextsAreVouched(items, cache, item.itemId);
    }
  }

  // ----- the smallest exchange: the call and its result, after any reasoning items

  function Exchanged(reasoning: seq<Item>, item: Item, output: string): seq<Item>
    requires item.CallItem?
  {
    Answering(reasoning, item, item.callId, output)
  }

  /** The same with a result that names its call by any identifier. */
  function Answering(reasoning: seq<Item>, item: Item, name: Id, output: string): seq<Item> {
    reasoning + [item] + [ResultItem(name, output)]
  }

  predicate OnlyReasoning(items: seq<Item>) {
    forall i :: 0 <= i < |items| ==> items[i].ReasoningItem?
  }

  function RecalledResponse(r: Record, output: string): Part
    requires r.CallRec?
  {
    Part("", false, "", None,
         Some(FunctionResponse(if r.name == "" then Unnamed(r.callId) else Called(r.name), output, OutId(r))))
  }

  lemma Ends(items: seq<Item>, last: Item)
    ensures (items + [last])[..|items + [last]| - 1] == items && (items + [last])[|items + [last]| - 1] == last
  {
  }

  lemma NamesKept(alias: map<Id, Id>, cache: Cache, id: Id, target: Id, x: Id)
    requires x in alias
    ensures x in CacheNames(alias, cache, id, target) && CacheNames(alias, cache, id, target)[x] == alias[x]
  {
    hide GetTool;
  }

  lemma {:induction false} ReasoningRegisters(reasoning: seq<Item>, cache: Cache)
    requires OnlyReasoning(reasoning)
    ensures Register(reasoning, cache) == Ok(Registry(map[], {}))
  {
    if reasoning != [] {
      ReasoningRegisters(reasoning[..|reasoning| - 1], cache);
    }
  }

  lemma ExchangeRegisters(reasoning: seq<Item>, item: Item, output: string, cache: Cache)
    requires item.CallItem? && item.callId.CallId? && OnlyReasoning(reasoning)
    ensures Register(Exchanged(reasoning, item, output), cache).Ok?
    ensures var alias := Register(Exchanged(reasoning, item, output), cache).value.alias;
            item.callId in alias && alias[item.callId] == item.callId
  {
    hide CacheNames;
    Ends(reasoning + [item], ResultItem(item.callId, output));
    Ends(reasoning, item);
    ReasoningRegisters(reasoning, cache);
    assert Register(reasoning + [item], cache) == RegisterCall(Registry(map[], {}), cache, item);
    var own: map<Id, Id> := map[item.callId := item.callId];
    var named := if item.itemId != NO_ID then own[item.itemId := item.callId] else own;
    NamesKept(named, cache, item.callId, item.callId, item.callId);
    NamesKept(CacheNames(named, cache, item.callId, item.callId), cache, item.itemId, item.callId, item.callId);
  }

  lemma {:induction false} ReasoningPairs(reasoning: seq<Item>, r: Registry, cache: Cache)
    requires OnlyReasoning(reasoning)
    ensures Pair(reasoning, r, cache) == Ok(Seen({}, {}))
  {
    if reasoning != [] {
      ReasoningPairs(reasoning[..|reasoning| - 1], r, cache);
    }
  }

  lemma ExchangeIsValid(reasoning: seq<Item>, item: Item, output: string, cache: Cache)
    requires item.CallItem? && item.callId.CallId? && OnlyReasoning(reasoning)
    ensures Validate(Exchanged(reasoning, item, output), cache).Ok?
  {
    hide Register, AllCarrierNames, GetTool;
    var items := Exchanged(reasoning, item, output);
    ExchangeRegisters(reasoning, item, output, cache);
    var reg := Register(items, cache).value;
    AllCarrierNamesExtend(reg.alias, items);
    var r := reg.(alias := AllCarrierNames(reg.alias, items));
    Ends(reasoning + [item], ResultItem(item.callId, output));
    Ends(reasoning, item);
    ReasoningPairs(reasoning, r, cache);
    assert PairOne(Seen({}, {}), item, r, cache) == Ok(Seen({} + {item.callId}, {}));
    assert Pair(reasoning + [item], r, cache) == PairOne(Seen({}, {}), item, r, cache);
  }

  lemma {:induction false} CacheScanKeepsNames(t: Tables, cache: Cache, items: seq<Item>, x: Id)
    requires x in t.alias && t.alias[x] != NO_ID
    ensures var t' := ScanCache(t, cache, items);
            x in t'.alias && t'.alias[x] == t.alias[x] && t'.names == t.names
  {
    hide GetTool;
    if items != [] {
      CacheScanKeepsNames(t, cache, items[..|items| - 1], x);
    }
  }

  lemma {:induction false} PartScansKeep(t: Tables, parts: seq<Record>)
    ensures Keeps(t, ScanParts(t, parts))
  {
    if parts != [] {
      PartScansKeep(t, parts[..|parts| - 1]);
    }
  }

  lemma {:induction false} CarrierScansKeep(t: Tables, items: seq<Item>)
    ensures Keeps(t, ScanCarriers(t, items))
  {
    hide ScanParts;
    if items != [] {
      var n := |items| - 1;
      CarrierScansKeep(t, items[..n]);
      if HasCarrier(items[n]) {
        PartScansKeep(ScanCarriers(t, items[..n]), items[n].carrier.value.parts);
      }
    }
  }

  lemma ExchangeIsScanned(reasoning: seq<Item>, item: Item, output: string, cache: Cache)
    requires item.CallItem? && item.callId.CallId? && OnlyReasoning(reasoning)
    ensures var t := Scan(Exchanged(reasoning, item, output), cache);
            NameIs(t, item.callId, item) && item.callId in Answered(t, Exchanged(reasoning, item, output))
  {
    hide ScanCalls, ScanCache, ScanCarriers, Answered, CallsNamed;
    var items, n := Exchanged(reasoning, item, output), |reasoning|;
    assert items[n] == item && items[n + 1] == ResultItem(item.callId, output);
    ExchangeNamed(reasoning, item, item.callId, output);
    ScanCallsExact(items);
    assert Takes(items[n], item.callId);
    assert NameIs(ScanCalls(items), item.callId, items[n]);
    CarrierScansKeep(ScanCalls(items), items);
    CacheScanKeepsNames(ScanCarriers(ScanCalls(items), items), cache, items, item.callId);
    AnsweredHas(Scan(items, cache), items, n + 1);
  }

  lemma ExchangeNamed(reasoning: seq<Item>, item: Item, name: Id, output: string)
    requires item.CallItem? && item.callId.CallId? && OnlyReasoning(reasoning)
    ensures CallsNamed(Answering(reasoning, item, name, output))
  {
    var items, n := Answering(reasoning, item, name, output), |reasoning|;
    assert item.callId in IdsOf(item);
    assert forall i :: 0 <= i < |items| && items[i].CallItem? ==> i == n;
  }

  lemma RecalledResult(t: Tables, cache: Cache, item: Item, r: Record, output: string)
    requires Minted(r) && Recalled(cache, r) && Replays(item, r) && item.name == r.name && NameIs(t, r.callId, item)
    requires UpstreamFits(t, item, r)
    ensures EmitResult(t, cache, ResultItem(r.callId, output)) == RecalledResponse(r, output)
  {
    hide GetTool, RecordOf;
    StoredFields(GetTool(cache, r.callId).value, r);
    assert AliasOr(t, r.callId) == r.callId;
  }

  lemma NormalStays(cs: seq<Content>)
    requires Alternating(cs)
    ensures Normalized(cs) == cs
  {
    hide Normalized, Flatten;
    NormalizedKeeps(cs);
    FlattenSubstantial(cs);
    KeepAll(Flatten(cs));
    NormalFormIsUnique(Normalized(cs), cs);
  }

  lemma {:induction false} ReasoningEmits(t: Tables, cache: Cache, answered: set<Id>, items: seq<Item>, n: nat, hash: seq<Item> -> string)
    requires n <= |items| && OnlyReasoning(items[..n])
    ensures EmitAll(t, cache, answered, items, n, hash) == Ok([])
  {
    if n > 0 {
      assert items[..n][..n - 1] == items[..n - 1];
      assert items[n - 1] == items[..n][n - 1];
      ReasoningEmits(t, cache, answered, items, n - 1, hash);
      assert EmitItem(t, cache, answered, items, n - 1, hash) == Ok([]);
      var none: seq<Content> := [];
      assert none + none == none;
    }
  }

  lemma ExchangedSize(reasoning: seq<Item>, item: Item, output: string)
    requires item.CallItem?
    ensures |Exchanged(reasoning, item, output)| == |reasoning| + 2
  {
  }

  lemma EmitTwo(t: Tables, cache: Cache, answered: set<Id>, reasoning: seq<Item>, item: Item, name: Id, output: string, hash: seq<Item> -> string)
    requires item.CallItem? && OnlyReasoning(reasoning)
    ensures var items := Answering(reasoning, item, name, output);
            EmitAll(t, cache, answered, items, |items|, hash) ==
            match EmitCall(t, cache, answered, item, LeadOf(t, cache, items, |reasoning|))
            case Err(e) => Err(e)
            case Ok(p) => Ok([Content("model", [p]), Content("user", [EmitResult(t, cache, ResultItem(name, output))])])
  {
    hide EmitCall, EmitResult, LeadOf;
    var items, n := Answering(reasoning, item, name, output), |reasoning|;
    assert items[..n] == reasoning && items[n] == item && items[n + 1] == ResultItem(name, output);
    ReasoningEmits(t, cache, answered, items, n, hash);
    var q := EmitResult(t, cache, ResultItem(name, output));
    assert EmitItem(t, cache, answered, items, n + 1, hash) == Ok([Content("user", [q])]);
    if EmitCall(t, cache, answered, item, LeadOf(t, cache, items, n)).Ok? {
      var p := EmitCall(t, cache, answered, item, LeadOf(t, cache, items, n)).value;
      assert EmitItem(t, cache, answered, items, n, hash) == Ok([Content("model", [p])]);
      assert [] + [Content("model", [p])] == [Content("model", [p])];
      assert EmitAll(t, cache, answered, items, n + 1, hash) == Ok([Content("model", [p])]);
      assert [Content("model", [p])] + [Content("user", [q])] == [Content("model", [p]), Content("user", [q])];
    }
  }

  /**
   * The call with its result, after any reasoning items that name no other upstream id, converts
   * exactly when it is unaltered and no carrier contradicts the cache; and then to these two contents.
   */
  lemma RecalledExchange(reasoning: seq<Item>, item: Item, output: string, cache: Cache, hash: seq<Item> -> string, r: Record)
    requires OnlyReasoning(reasoning) && Replays(item, r) && Minted(r) && r.sig != "" && Recalled(cache, r)
    requires UpstreamFits(Scan(Exchanged(reasoning, item, output), cache), item, r)
    ensures var items := Exchanged(reasoning, item, output);
            var sent := Convert(items, cache, hash);
            && (sent.Ok? <==> Unaltered(item, r) && CarrierAgrees(Scan(items, cache), item, r))
            && (sent.Ok? ==>
                  sent == Ok([Content("model", [CallPart(r.name, item.args, OutId(r), r.sig)]), Content("user", [RecalledResponse(r, output)])]))
  {
    hide Validate, Scan, EmitAll, Normalized, Answered, Recalled, EmitCall, EmitResult, OutId, OutboundId, LeadOf, NameIs, EqualToolArgs,
         RecalledResponse, Answering, CarrierAgrees, UpstreamFits, OnlyReasoning;
    var items := Exchanged(reasoning, item, output);
    var t := Scan(items, cache);
    assert |reasoning| < |items| by { ExchangedSize(reasoning, item, output); }
    var lead := LeadOf(t, cache, items, |reasoning|);
    ExchangeIsValid(reasoning, item, output, cache);
    ExchangeIsScanned(reasoning, item, output, cache);
    CachedCallComesBack(t, cache, Answered(t, items), item, r, lead);
    RecalledOutbound(t, cache, item, r);
    EmitTwo(t, cache, Answered(t, items), reasoning, item, item.callId, output, hash);
    if EmitCall(t, cache, Answered(t, items), item, lead).Ok? {
      RecalledResult(t, cache, item, r, output);
      var p := CallPart(r.name, item.args, OutId(r), r.sig);
      ResponseIsSubstantial(r, output);
      TwoAlternate(p, RecalledResponse(r, output));
      NormalStays([Content("model", [p]), Content("user", [RecalledResponse(r, output)])]);
    }
  }

  lemma ResponseIsSubstantial(r: Record, output: string)
    requires r.CallRec?
    ensures Substantial(RecalledResponse(r, output))
  {
  }

  lemma TwoAlternate(p: Part, q: Part)
    requires Substantial(p) && Substantial(q)
    ensures Alternating([Content("model", [p]), Content("user", [q])])
  {
  }

  // ----- the turn's own reasoning item

  /** Reasoning items whose carriers hold the records of the turn, as they are listed or as they are streamed. */
  predicate OnlyOwnReasoning(items: seq<Item>, ctx: Ctx, ps: seq<Part>) {
    forall i :: 0 <= i < |items| ==>
      items[i].ReasoningItem? && items[i].carrier.Some? && items[i].carrier.value.parts == Built(ctx, ps).parts
  }

  lemma {:induction false} OwnCallKnown(t: Tables, parts: seq<Record>, i: nat)
    requires DistinctCalls(parts) && i < |parts| && parts[i].CallRec?
    ensures CallKnown(ScanParts(t, parts), parts[i])
  {
    hide ScanPart, CallKnown, VerifiedOf;
    var n := |parts| - 1;
    assert forall j :: 0 <= j < n ==> parts[..n][j] == parts[j];
    var before := ScanParts(t, parts[..n]);
    if i < n {
      OwnCallKnown(t, parts[..n], i);
      KnownStays(before, parts[n], parts[i]);
    } else {
      ScanCallPart(before, parts[n], parts[n].callId);
    }
  }

  lemma KnownStays(t: Tables, p: Record, r: Record)
    requires r.CallRec? && r.callId.CallId? && CallKnown(t, r)
    requires p.CallRec? ==> p.callId.CallId? && p.itemId.ItemId? && p.callId != r.callId
    ensures CallKnown(ScanPart(t, p), r)
  {
    hide VerifiedOf;
    if p.CallRec? {
      ScanCallPart(t, p, r.callId);
    }
  }

  lemma {:induction false} OwnScanned(t: Tables, reasoning: seq<Item>, ctx: Ctx, ps: seq<Part>, i: nat)
    requires ctx.Valid() && i < |Built(ctx, ps).parts| && Built(ctx, ps).parts[i].CallRec? && OnlyOwnReasoning(reasoning, ctx, ps)
    ensures if reasoning == [] then ScanCarriers(t, reasoning) == t else CallKnown(ScanCarriers(t, reasoning), Built(ctx, ps).parts[i])
  {
    hide ScanParts, CallKnown, Final, Run, CarrierSiblings, DistinctCalls, DistinctItems, OnlyOwnReasoning;
    if reasoning != [] {
      var n := |reasoning| - 1;
      LastOwn(reasoning, ctx, ps);
      BuiltCalls(ctx, ps);
      OwnCallKnown(ScanCarriers(t, reasoning[..n]), Built(ctx, ps).parts, i);
      SameTools(ScanParts(ScanCarriers(t, reasoning[..n]), Built(ctx, ps).parts), ScanCarriers(t, reasoning), Built(ctx, ps).parts[i]);
    }
  }

  lemma LastOwn(reasoning: seq<Item>, ctx: Ctx, ps: seq<Part>)
    requires reasoning != [] && OnlyOwnReasoning(reasoning, ctx, ps)
    ensures HasCarrier(reasoning[|reasoning| - 1]) && reasoning[|reasoning| - 1].carrier.value.parts == Built(ctx, ps).parts
    ensures OnlyOwnReasoning(reasoning[..|reasoning| - 1], ctx, ps)
  {
  }

  lemma SameTools(t: Tables, t': Tables, r: Record)
    requires r.CallRec? && CallKnown(t, r) && t'.tools == t.tools
    ensures CallKnown(t', r)
  {
  }

  lemma ExchangeScan(t: Tables, reasoning: seq<Item>, item: Item, name: Id, output: string)
    requires item.CallItem?
    ensures ScanCarriers(t, Answering(reasoning, item, name, output)) == ScanCarriers(t, reasoning)
  {
    Ends(reasoning + [item], ResultItem(name, output));
    Ends(reasoning, item);
  }

  /** The turn's own carrier agrees with the cache on an unaltered call. */
  lemma OwnCarrierFits(reasoning: seq<Item>, item: Item, name: Id, output: string, cache: Cache, ctx: Ctx, ps: seq<Part>, i: nat)
    requires ctx.Valid() && i < |Built(ctx, ps).parts| && Replays(item, Built(ctx, ps).parts[i]) && OnlyOwnReasoning(reasoning, ctx, ps)
    requires Unaltered(item, Built(ctx, ps).parts[i])
    ensures var t := Scan(Answering(reasoning, item, name, output), cache);
            CarrierAgrees(t, item, Built(ctx, ps).parts[i]) && UpstreamFits(t, item, Built(ctx, ps).parts[i])
  {
    hide Built, ScanCalls, ScanCache, ScanCarriers, Answering, OnlyOwnReasoning, DistinctCalls, DistinctItems;
    var r, items := Built(ctx, ps).parts[i], Answering(reasoning, item, name, output);
    BuiltCalls(ctx, ps);
    OwnScanned(ScanCalls(items), reasoning, ctx, ps, i);
    ExchangeScan(ScanCalls(items), reasoning, item, name, output);
    CallScanKeepsTools(items);
    CacheScanKeepsTools(ScanCarriers(ScanCalls(items), items), cache, items);
  }

  // ----- the theorem

  /** A run in which turn A is populated once and everything else avoids its call `i`. */
  ghost predicate RunAround(max: Capacity, before: seq<Op>, t: Turn, prefixHash: string, leads: seq<Id>, later: seq<Op>, r: Record) {
    && r.CallRec?
    && LegalRun(Fresh(max), before + TurnOps(t, prefixHash, leads) + later)
    && (forall j :: 0 <= j < |before| ==> Avoids(before[j], r))
    && (forall j :: 0 <= j < |later| ==> Avoids(later[j], r))
  }

  function CacheAfter(max: Capacity, before: seq<Op>, t: Turn, prefixHash: string, leads: seq<Id>, later: seq<Op>): Cache {
    RunFrom(Fresh(max), before + TurnOps(t, prefixHash, leads) + later)
  }

  lemma SegmentStoresOnce(a: seq<Op>, b: seq<Op>, c: seq<Op>, k: nat, ctx: Ctx, r: Record)
    requires r.CallRec? && StoredOnce(b, k, ctx, r)
    requires forall j :: 0 <= j < |a| ==> Avoids(a[j], r)
    requires forall j :: 0 <= j < |c| ==> Avoids(c[j], r)
    ensures StoredOnce(a + b + c, |a| + k, ctx, r)
  {
    hide Avoids, PutCallOp;
  }

  lemma TurnIsRecalled(max: Capacity, ctx: Ctx, ps: seq<Part>, i: nat, before: seq<Op>, prefixHash: string, leads: seq<Id>, later: seq<Op>)
    requires ctx.Valid() && i < |Built(ctx, ps).parts|
    requires var r := Built(ctx, ps).parts[i];
      && RunAround(max, before, Built(ctx, ps), prefixHash, leads, later, r) && r.sig != MIGRATION_MARKER
      && r.callId in CacheAfter(max, before, Built(ctx, ps), prefixHash, leads, later).records
    ensures Minted(Built(ctx, ps).parts[i])
    ensures Recalled(CacheAfter(max, before, Built(ctx, ps), prefixHash, leads, later), Built(ctx, ps).parts[i])
  {
    hide Built, TurnOps, LegalRun, RunFrom, Recalled, Avoids, PartOps, Remembered, DistinctItems, DistinctCalls, StoredOnce;
    var t, r := Built(ctx, ps), Built(ctx, ps).parts[i];
    BuiltCalls(ctx, ps);
    TurnStoresOnce(ctx, ps, prefixHash, leads, i);
    var k := |PartOps(ctx, t.parts[..i], prefixHash)|;
    var ops := before + TurnOps(t, prefixHash, leads) + later;
    SegmentStoresOnce(before, TurnOps(t, prefixHash, leads), later, k, ctx, r);
    StillRemembered(max, ops, |before| + k, ctx, r);
    RememberedIsRecalled(RunFrom(Fresh(max), ops), r);
  }

  /**
   * Sessions do not interfere. A turn is populated into a cache before and after which anything
   * may happen, other turns and restarts included, that stores nothing under the ids of one of
   * its signed calls. As long as the record is live, a client that replays the call, among any
   * items and with any carriers, gets it converted with its own signature or not at all, and under
   * its own upstream id unless a carrier vouches for its ids under another one; a replay with
   * another name, other arguments or another signature is rejected; and the unaltered call with a
   * result converts, with or without its own turn's carrier before it.
   */
  lemma SessionsDoNotInterfere(
    max: Capacity, ctx: Ctx, ps: seq<Part>, i: nat, before: seq<Op>, prefixHash: string, leads: seq<Id>, later: seq<Op>,
    items: seq<Item>, idx: nat, reasoning: seq<Item>, output: string, hash: seq<Item> -> string)
    requires ctx.Valid() && i < |Built(ctx, ps).parts|
    requires var r := Built(ctx, ps).parts[i];
      && RunAround(max, before, Built(ctx, ps), prefixHash, leads, later, r) && r.sig != "" && r.sig != MIGRATION_MARKER
      && r.callId in CacheAfter(max, before, Built(ctx, ps), prefixHash, leads, later).records
    requires idx < |items| && Replays(items[idx], Built(ctx, ps).parts[i]) && OnlyOwnReasoning(reasoning, ctx, ps)
    ensures var r := Built(ctx, ps).parts[i];
            var cache := CacheAfter(max, before, Built(ctx, ps), prefixHash, leads, later);
            var sent, id := Convert(items, cache, hash), OutboundId(Scan(items, cache), cache, items[idx]);
            && (sent.Ok? ==> ("model", CallPart(items[idx].name, items[idx].args, id, r.sig)) in Flatten(sent.value))
            && (UpstreamAgrees(items, r) ==> id == OutId(r))
            && (!Unaltered(items[idx], r) ==> sent.Err?)
            && (Unaltered(items[idx], r) ==>
                  Convert(Exchanged(reasoning, items[idx], output), cache, hash) ==
                  Ok([Content("model", [CallPart(r.name, items[idx].args, OutId(r), r.sig)]),
                      Content("user", [RecalledResponse(r, output)])]))
  {
    hide Built, TurnOps, RunFrom, Recalled, Convert, Flatten, Unaltered, RecalledResponse, CarrierAgrees, UpstreamFits, UpstreamAgrees, Answering,
         OutboundId, Scan, OnlyReasoning, OnlyOwnReasoning;
    TurnIsRecalled(max, ctx, ps, i, before, prefixHash, leads, later);
    var r := Built(ctx, ps).parts[i];
    var cache := CacheAfter(max, before, Built(ctx, ps), prefixHash, leads, later);
    RecalledConversion(items, idx, cache, hash, r);
    if Unaltered(items[idx], r) {
      OwnCarrierFits(reasoning, items[idx], items[idx].callId, output, cache, ctx, ps, i);
      assert OnlyReasoning(reasoning) by { OwnIsReasoning(reasoning, ctx, ps); }
      RecalledExchange(reasoning, items[idx], output, cache, hash, r);
    }
  }

  lemma OwnIsReasoning(reasoning: seq<Item>, ctx: Ctx, ps: seq<Part>)
    requires OnlyOwnReasoning(reasoning, ctx, ps)
    ensures OnlyReasoning(reasoning)
  {
  }
}
