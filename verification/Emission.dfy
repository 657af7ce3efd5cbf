/** What the converter sends, item by item: contents, ids and the signature of every call. */
module EmissionLaws {
  import opened Core
  import opened Caches
  import opened Provenance
  import opened Exchange
  import opened Normalize
  import opened Translate
  import opened Outlines

  // ----- one call, whatever is known of it

  /** The record's content is not the call's; an old record may leave name and arguments open. */
  predicate Differs(rec: ToolRecord, item: Item)
    requires item.CallItem?
  {
    if rec.legacy then
      || (rec.name != "" && rec.name != item.name)
      || (rec.args != NilArgs && !EqualToolArgs(rec.args, item.args))
    else rec.name != item.name || !EqualToolArgs(rec.args, item.args)
  }

  /** A record counts unless it is an old one about other content. */
  function CountedRecord(cache: Cache, item: Item): Option<ToolRecord>
    requires item.CallItem?
  {
    var rec := FindCached(cache, CallKey(item), item.itemId);
    if rec.Some? && Differs(rec.value, item) then None else rec
  }

  function CachedSigOf(cache: Cache, item: Item): string
    requires item.CallItem?
  {
    match CountedRecord(cache, item) case None => "" case Some(rec) => rec.sig
  }

  /** The client's own signature, or else the carrier's. */
  function ShownSigOf(t: Tables, item: Item): string
    requires item.CallItem?
  {
    if item.sig != "" then item.sig
    else match FindVerified(t, CallKey(item), item.itemId) case None => "" case Some(v) => v.sig
  }

  /** Nothing known of the call is about other content, and no two known signatures differ. */
  predicate Consistent(t: Tables, cache: Cache, item: Item)
    requires item.CallItem?
  {
    var v, rec := FindVerified(t, CallKey(item), item.itemId), FindCached(cache, CallKey(item), item.itemId);
    && (v.Some? ==> v.value.name == item.name && EqualToolArgs(v.value.args, item.args))
    && (rec.Some? && Differs(rec.value, item) ==> rec.value.legacy && v.Some?)
    && (CachedSigOf(cache, item) == "" || ShownSigOf(t, item) == "" || CachedSigOf(cache, item) == ShownSigOf(t, item))
  }

  /** Someone vouches for the call: its own signature, a carrier or the cache. */
  predicate KnownCall(t: Tables, cache: Cache, item: Item)
    requires item.CallItem?
  {
    item.sig != "" || FindVerified(t, CallKey(item), item.itemId).Some? || CountedRecord(cache, item).Some?
  }

  predicate OtherLead(item: Item, lead: Id)
    requires item.CallItem?
  {
    lead != NO_ID && lead != CallKey(item)
  }

  predicate LentBy(t: Tables, cache: Cache, item: Item, lead: Id)
    requires item.CallItem?
  {
    OtherLead(item, lead) && RecordedSibling(t, cache, lead, CallKey(item), item.itemId)
  }

  /** The signature of a known call: the cache's, else its own, else the carrier's, else its lead's. */
  function KnownSig(t: Tables, cache: Cache, item: Item, lead: Id): string
    requires item.CallItem?
  {
    if CachedSigOf(cache, item) != "" then CachedSigOf(cache, item)
    else if ShownSigOf(t, item) != "" then ShownSigOf(t, item)
    else if LentBy(t, cache, item, lead) then LeadSig(t, cache, lead)
    else ""
  }

  /** An unknown call may not stand in a group that another signed call leads, unless it is foreign. */
  predicate Unsuspected(t: Tables, cache: Cache, item: Item, lead: Id)
    requires item.CallItem?
  {
    item.foreign || !OtherLead(item, lead) || LentBy(t, cache, item, lead)
  }

  lemma EvidenceIs(t: Tables, cache: Cache, answered: set<Id>, item: Item)
    requires item.CallItem?
    ensures var ev, v := OwnEvidence(t, cache, answered, item), FindVerified(t, CallKey(item), item.itemId);
            && !ev.nativeTurnUnverified && !ev.recordedSibling && ev.hasMatchingOutput == (CallKey(item) in answered)
            && ev.affirmativelyForeign == item.foreign
            && (Consistent(t, cache, item) ==>
                  && !ev.carrierMismatch && !ev.cacheMismatch && !Contradictory(ev) && ev.cacheSig == CachedSigOf(cache, item)
                  && ev.carrierSig == ShownSigOf(t, item) && ev.hasCache == CountedRecord(cache, item).Some?
                  && ev.hasCarrier == (v.Some? || item.sig != ""))
            && (!Consistent(t, cache, item) ==> ev.carrierMismatch || ev.cacheMismatch || Contradictory(ev))
  {
    hide FindVerified, FindCached, EqualToolArgs;
  }

  lemma WithLead(t: Tables, cache: Cache, answered: set<Id>, item: Item, lead: Id)
    requires item.CallItem?
    ensures var full := FullEvidence(t, cache, answered, item, lead);
            && full.hasMatchingOutput == (CallKey(item) in answered)
            && (!Consistent(t, cache, item) ==> Untrusted(full))
            && (Consistent(t, cache, item) ==> Claimed(full) == KnownCall(t, cache, item))
            && (Consistent(t, cache, item) && KnownCall(t, cache, item) ==> !Untrusted(full) && NativeSig(full) == KnownSig(t, cache, item, lead))
            && (Consistent(t, cache, item) && !KnownCall(t, cache, item) ==> Untrusted(full) == !Unsuspected(t, cache, item, lead))
  {
    hide FindVerified, FindCached, OwnEvidence, RecordedSibling, LeadSig, Consistent, CountedRecord;
    EvidenceIs(t, cache, answered, item);
  }

  /**
   * A call is sent exactly when it is answered, its two ids name one record, nothing known of it
   * contradicts it, and either some signature is known for it or it is unknown and unsuspected. It
   * is sent under its name and arguments with the first known signature, or with the replay marker
   * if nothing at all is known of it.
   */
  lemma EmittedCallIs(t: Tables, cache: Cache, answered: set<Id>, item: Item, lead: Id)
    requires item.CallItem?
    ensures var sent := EmitCall(t, cache, answered, item, lead);
            && (sent.Ok? <==>
                  && CallKey(item) in answered && !Conflicted(cache, item) && Consistent(t, cache, item)
                  && if KnownCall(t, cache, item) then KnownSig(t, cache, item, lead) != "" else Unsuspected(t, cache, item, lead))
            && (sent.Ok? ==>
                  sent.value == CallPart(item.name, item.args, OutboundId(t, cache, item),
                                         if KnownCall(t, cache, item) then KnownSig(t, cache, item, lead) else MIGRATION_MARKER))
  {
    hide FullEvidence, ResolveToolSignature, Conflicted, OutboundId, Consistent, KnownCall, KnownSig, Unsuspected, Untrusted, Claimed, NativeSig;
    WithLead(t, cache, answered, item, lead);
  }

  /** Why a call is not sent. */
  lemma RejectedCallIs(t: Tables, cache: Cache, answered: set<Id>, item: Item, lead: Id)
    requires item.CallItem? && EmitCall(t, cache, answered, item, lead).Err?
    ensures EmitCall(t, cache, answered, item, lead).error ==
            if Conflicted(cache, item) then IdentityConflict(CallKey(item), item.itemId)
            else if !Consistent(t, cache, item) then Rejected(ContentMismatch)
            else if !KnownCall(t, cache, item) && !Unsuspected(t, cache, item, lead) then Rejected(UnverifiedInNativeTurn)
            else if CallKey(item) !in answered then
              Rejected(NoResult(if KnownCall(t, cache, item) then Native else if item.foreign then Foreign else Unknown))
            else Rejected(NativeStateMissing)
  {
    hide FullEvidence, ResolveToolSignature, Conflicted, OutboundId, Consistent, KnownCall, KnownSig, Unsuspected, Untrusted, Claimed, NativeSig;
    WithLead(t, cache, answered, item, lead);
    SuspectIsFlagged(t, cache, answered, item, lead);
  }

  /** The flag of a suspect is raised for unknown calls only, among those that are not trusted. */
  lemma SuspectIsFlagged(t: Tables, cache: Cache, answered: set<Id>, item: Item, lead: Id)
    requires item.CallItem?
    ensures var full := FullEvidence(t, cache, answered, item, lead);
            && (!Consistent(t, cache, item) ==> !full.nativeTurnUnverified)
            && (Consistent(t, cache, item) && !KnownCall(t, cache, item) ==> full.nativeTurnUnverified == !Unsuspected(t, cache, item, lead))
            && full.affirmativelyForeign == item.foreign
  {
    hide FindVerified, FindCached, OwnEvidence, RecordedSibling, LeadSig, Consistent, CountedRecord;
    EvidenceIs(t, cache, answered, item);
  }

  // ----- two ids of one call

  /** The record may be a partial account of a call with this content and signature. */
  predicate Accounts(rec: ToolRecord, name: string, args: Args, sig: string) {
    && (rec.name == "" || rec.name == name) && (rec.args == NilArgs || EqualToolArgs(rec.args, args)) && (rec.sig == "" || rec.sig == sig)
  }

  /** Two records are of one call: the same record, or old partial accounts of a common one. */
  ghost predicate SameOrigin(a: ToolRecord, b: ToolRecord) {
    if !a.legacy && !b.legacy then a.bridgeId == b.bridgeId
    else exists name, args, sig :: Accounts(a, name, args, sig) && Accounts(b, name, args, sig)
  }

  /** The two ids of a call conflict exactly when both are cached and their records cannot be of one call. */
  lemma ConflictIs(cache: Cache, item: Item)
    requires item.CallItem?
    ensures Conflicted(cache, item) <==>
            && CallKey(item) != NO_ID && item.itemId != NO_ID && GetTool(cache, CallKey(item)).Some? && GetTool(cache, item.itemId).Some?
            && !SameOrigin(GetTool(cache, CallKey(item)).value, GetTool(cache, item.itemId).value)
  {
    hide GetTool;
    if CallKey(item) != NO_ID && item.itemId != NO_ID && GetTool(cache, CallKey(item)).Some? && GetTool(cache, item.itemId).Some? {
      var a, b := GetTool(cache, CallKey(item)).value, GetTool(cache, item.itemId).value;
      var name, args, sig := if a.name != "" then a.name else b.name, if a.args != NilArgs then a.args else b.args, if a.sig != "" then a.sig else b.sig;
      assert !Conflicted(cache, item) && (a.legacy || b.legacy) ==> Accounts(a, name, args, sig) && Accounts(b, name, args, sig);
    }
  }

  // ----- every id under which a call may be known

  function Vouched(t: Tables, id: Id): Option<Verified> {
    if id != NO_ID && id in t.tools then Some(t.tools[id]) else None
  }

  predicate OnRecordAs(t: Tables, cache: Cache, lead: Id, id: Id) {
    (lead, id) in t.siblings || IsVerifiedSibling(cache, lead, id)
  }

  /** Carriers and cache are asked for a call by its call id, then by its item id, then by both joined; siblings by either. */
  lemma LookupsAre(t: Tables, cache: Cache, lead: Id, callId: Id, itemId: Id)
    ensures FindCached(cache, callId, itemId) == FirstOf([GetTool(cache, callId), GetTool(cache, itemId), GetTool(cache, JoinedId(callId, itemId))], None)
    ensures FindVerified(t, callId, itemId) == FirstOf([Vouched(t, callId), Vouched(t, itemId), Vouched(t, JoinedId(callId, itemId))], None)
    ensures RecordedSibling(t, cache, lead, callId, itemId) <==>
            OnRecordAs(t, cache, lead, callId) || (itemId != NO_ID && OnRecordAs(t, cache, lead, itemId))
  {
    hide GetTool, IsVerifiedSibling;
    ThreeEntries(GetTool(cache, callId), GetTool(cache, itemId), GetTool(cache, JoinedId(callId, itemId)), None);
    ThreeEntries(Vouched(t, callId), Vouched(t, itemId), Vouched(t, JoinedId(callId, itemId)), None);
  }

  // ----- leads

  /** The call is not what is known of it: in a current record, else in a carrier, else in an old record. */
  predicate AlteredForGroup(t: Tables, cache: Cache, item: Item)
    requires item.CallItem?
  {
    var v, rec := FindVerified(t, CallKey(item), item.itemId), FindCached(cache, CallKey(item), item.itemId);
    if v.Some? && (rec.None? || rec.value.legacy) then !SameCall(v.value.name, v.value.args, item)
    else rec.Some? && !SameCall(rec.value.name, rec.value.args, item)
  }

  /** A call can lead its group exactly when it is unaltered and signed: by a carrier, by itself, or in the cache under any of its ids. */
  lemma LeaderIs(t: Tables, cache: Cache, item: Item)
    requires item.CallItem?
    ensures var v, rec := FindVerified(t, CallKey(item), item.itemId), FindCached(cache, CallKey(item), item.itemId);
            GroupSig(t, cache, item) != "" <==>
            && !AlteredForGroup(t, cache, item)
            && (|| item.sig != "" || ((rec.None? || rec.value.legacy) && v.Some? && v.value.sig != "")
                || CachedSig(cache, CallKey(item)) != "" || CachedSig(cache, item.itemId) != ""
                || CachedSig(cache, JoinedId(CallKey(item), item.itemId)) != "")
  {
    hide FindVerified, GetTool, EqualToolArgs;
  }

  /** A lead lends what its carrier says, or else what the cache knows. */
  lemma LeadLends(t: Tables, cache: Cache, lead: Id)
    ensures var carried := if lead in t.tools then t.tools[lead].sig else "";
            (carried != "" ==> LeadSig(t, cache, lead) == carried) && (carried == "" ==> LeadSig(t, cache, lead) == CachedSig(cache, lead))
  {
  }

  // ----- responses

  /** The signature a carrier shows for this very text under this id. */
  function CarriedSig(t: Tables, id: Id, text: string): string {
    if id in t.texts && t.texts[id].0 == text then t.texts[id].1 else ""
  }

  /**
   * A text goes out signed by itself, else by the carrier that holds it under its id or item id, else
   * by prefix and text if the cache signed its message.
   */
  lemma TextSignatureIs(t: Tables, cache: Cache, item: Item, prefixHash: string)
    requires item.MessageItem? && forall id :: id in t.texts ==> t.texts[id].1 != ""
    ensures TextSig(t, cache, item, prefixHash) ==
            FirstOf([item.sig, CarriedSig(t, item.id, item.text), CarriedSig(t, item.itemId, item.text),
                     if GetMessage(cache, item.id) != "" then GetContext(cache, ResponsesContextKey(prefixHash, item.text)) else ""], "")
  {
    hide GetContext, ResponsesContextKey;
    FourEntries(item.sig, CarriedSig(t, item.id, item.text), CarriedSig(t, item.itemId, item.text),
                if GetMessage(cache, item.id) != "" then GetContext(cache, ResponsesContextKey(prefixHash, item.text)) else "", "");
  }

  function NameIn(t: Tables, id: Id): string {
    if id in t.names then t.names[id] else ""
  }

  function UpstreamIn(t: Tables, id: Id): Id {
    if id in t.tools then t.tools[id].upstreamId else NO_ID
  }

  /**
   * A response goes out with the result's text, under the first name and the first upstream id
   * known for its call, the history's before the cache's, each by the call's id before the result's.
   */
  lemma ResponseIs(t: Tables, cache: Cache, item: Item)
    requires item.ResultItem?
    ensures var x, id := item.callId, AliasOr(t, item.callId);
            var name := FirstOf([NameIn(t, id), NameIn(t, x), CachedName(cache, id), CachedName(cache, x)], "");
            var up := FirstOf([UpstreamIn(t, id), UpstreamIn(t, x), CachedUpstream(cache, id), CachedUpstream(cache, x)], NO_ID);
            EmitResult(t, cache, item) ==
            Part("", false, "", None,
                 Some(FunctionResponse(if name == "" then Unnamed(id) else Called(name), item.output, if up == NO_ID then id else up)))
  {
    hide GetTool, AliasOr;
    var x, id := item.callId, AliasOr(t, item.callId);
    FourEntries(NameIn(t, id), NameIn(t, x), CachedName(cache, id), CachedName(cache, x), "");
    FourEntries(UpstreamIn(t, id), UpstreamIn(t, x), CachedUpstream(cache, id), CachedUpstream(cache, x), NO_ID);
  }

  lemma NothingFound(cache: Cache, item: Item)
    requires item.CallItem? && FindCached(cache, CallKey(item), item.itemId).None?
    ensures !Conflicted(cache, item) && CountedRecord(cache, item).None? && CachedSigOf(cache, item) == ""
  {
    hide GetTool;
  }

  /**
   * A call that neither a carrier nor the cache knows keeps the client's own signature and its own
   * id; only if it has none it is sent with the replay marker, or rejected as a suspect.
   */
  lemma UnknownCallIs(t: Tables, cache: Cache, answered: set<Id>, item: Item, lead: Id)
    requires item.CallItem? && FindVerified(t, CallKey(item), item.itemId).None? && FindCached(cache, CallKey(item), item.itemId).None?
    ensures var sent := EmitCall(t, cache, answered, item, lead);
            && (sent.Ok? <==> CallKey(item) in answered && (item.sig != "" || Unsuspected(t, cache, item, lead)))
            && (sent.Ok? ==> sent.value == CallPart(item.name, item.args, CallKey(item), if item.sig != "" then item.sig else MIGRATION_MARKER))
  {
    hide FindVerified, FindCached, EmitCall, Conflicted, CountedRecord, CachedSigOf, RecordedSibling, LeadSig;
    NothingFound(cache, item);
    EmittedCallIs(t, cache, answered, item, lead);
  }

  // ----- the whole conversion, item by item

  /** The call is sent at all. */
  predicate Sendable(t: Tables, cache: Cache, answered: set<Id>, items: seq<Item>, idx: nat)
    requires idx < |items| && items[idx].CallItem?
  {
    var item, lead := items[idx], LeadOf(t, cache, items, idx);
    && CallKey(item) in answered && !Conflicted(cache, item) && Consistent(t, cache, item)
    && if KnownCall(t, cache, item) then KnownSig(t, cache, item, lead) != "" else Unsuspected(t, cache, item, lead)
  }

  function CallSent(t: Tables, cache: Cache, items: seq<Item>, idx: nat): Part
    requires idx < |items| && items[idx].CallItem?
  {
    var item := items[idx];
    CallPart(item.name, item.args, OutboundId(t, cache, item),
             if KnownCall(t, cache, item) then KnownSig(t, cache, item, LeadOf(t, cache, items, idx)) else MIGRATION_MARKER)
  }

  /** What one item adds to the flattened contents. */
  function ItemParts(t: Tables, cache: Cache, items: seq<Item>, idx: nat, hash: seq<Item> -> string): seq<(string, Part)>
    requires idx < |items|
  {
    match items[idx]
    case ReasoningItem(_) => []
    case CallItem(_, _, _, _, _, _) => [("model", CallSent(t, cache, items, idx))]
    case ResultItem(_, _) => [("user", EmitResult(t, cache, items[idx]))]
    case MessageItem(role, _, _, _, text, _) =>
      if IsSystem(items[idx]) || text == "" then []
      else if role == "assistant" then [("model", TextPart(text, TextSig(t, cache, items[idx], hash(items[..idx]))))]
      else [("user", TextPart(text, ""))]
  }

  function PartsTo(t: Tables, cache: Cache, items: seq<Item>, n: nat, hash: seq<Item> -> string): seq<(string, Part)>
    requires n <= |items|
  {
    if n == 0 then [] else PartsTo(t, cache, items, n - 1, hash) + ItemParts(t, cache, items, n - 1, hash)
  }

  lemma OneItemIs(t: Tables, cache: Cache, answered: set<Id>, items: seq<Item>, idx: nat, hash: seq<Item> -> string)
    requires idx < |items|
    ensures var sent := EmitItem(t, cache, answered, items, idx, hash);
            && (sent.Ok? <==> items[idx].CallItem? ==> Sendable(t, cache, answered, items, idx))
            && (sent.Ok? ==> Flatten(sent.value) == ItemParts(t, cache, items, idx, hash))
  {
    hide EmitCall, Flatten, LeadOf, TextSig, EmitResult, Conflicted, Consistent, KnownCall, KnownSig, Unsuspected, OutboundId;
    NothingFlattens();
    if items[idx].CallItem? {
      EmittedCallIs(t, cache, answered, items[idx], LeadOf(t, cache, items, idx));
    }
    forall role: string, p: Part
      ensures Flatten([Content(role, [p])]) == [(role, p)]
    {
      OneContent(Content(role, [p]));
    }
  }

  lemma {:induction false} AllItemsAre(t: Tables, cache: Cache, answered: set<Id>, items: seq<Item>, n: nat, hash: seq<Item> -> string)
    requires n <= |items|
    ensures var sent := EmitAll(t, cache, answered, items, n, hash);
            && (sent.Ok? <==> forall idx :: 0 <= idx < n && items[idx].CallItem? ==> Sendable(t, cache, answered, items, idx))
            && (sent.Ok? ==> Flatten(sent.value) == PartsTo(t, cache, items, n, hash))
  {
    hide EmitItem, Flatten, Sendable, ItemParts;
    if n == 0 {
      NothingFlattens();
    } else {
      AllItemsAre(t, cache, answered, items, n - 1, hash);
      OneItemIs(t, cache, answered, items, n - 1, hash);
      var before, last := EmitAll(t, cache, answered, items, n - 1, hash), EmitItem(t, cache, answered, items, n - 1, hash);
      if before.Ok? && last.Ok? {
        FlattenConcat(before.value, last.value);
      }
    }
  }

  lemma {:induction false} PartsSubstantial(t: Tables, cache: Cache, items: seq<Item>, n: nat, hash: seq<Item> -> string)
    requires n <= |items|
    ensures forall i :: 0 <= i < |PartsTo(t, cache, items, n, hash)| ==> Substantial(PartsTo(t, cache, items, n, hash)[i].1)
  {
    hide OutboundId, KnownCall, KnownSig, TextSig, NameOf, ResponseId;
    if n > 0 {
      PartsSubstantial(t, cache, items, n - 1, hash);
    }
  }

  /**
   * The conversion of an item list, exactly. It succeeds if and only if the list is valid, every
   * call can be sent, and anything is left to send; and then its contents are, item by item, the
   * calls under their names, arguments and ids with their signatures, the responses, and the texts,
   * those of the assistant as the model's and all others but the system's as the user's.
   */
  lemma ConversionIs(items: seq<Item>, cache: Cache, hash: seq<Item> -> string)
    ensures var t := Scan(items, cache);
            var parts := PartsTo(t, cache, items, |items|, hash);
            var sent := Convert(items, cache, hash);
            && (sent.Ok? <==>
                  && Validate(items, cache).Ok? && parts != []
                  && forall idx :: 0 <= idx < |items| && items[idx].CallItem? ==> Sendable(t, cache, Answered(t, items), items, idx))
            && (sent.Ok? ==> Flatten(sent.value) == parts)
  {
    hide Validate, Scan, Answered, EmitAll, Flatten, Normalized, KeepSubstantial, PartsTo, Sendable, Substantial, Alternating;
    var t := Scan(items, cache);
    AllItemsAre(t, cache, Answered(t, items), items, |items|, hash);
    PartsSubstantial(t, cache, items, |items|, hash);
    var raw := RawContents(items, cache, hash);
    if raw.Ok? {
      NormalizedKeeps(raw.value);
      KeepAll(Flatten(raw.value));
      EmptyFlatten(Normalized(raw.value));
    }
  }

  // ----- what it says

  function ItemLines(item: Item): seq<Line> {
    match item
    case ReasoningItem(_) => []
    case CallItem(_, _, name, args, _, _) => [CallLine("model", name, args)]
    case ResultItem(_, output) => [ResultLine("user", output)]
    case MessageItem(role, _, _, _, text, _) =>
      if IsSystem(item) || text == "" then [] else [TextLine(if role == "assistant" then "model" else "user", text)]
  }

  function AllLines(items: seq<Item>): seq<Line> {
    if items == [] then [] else AllLines(items[..|items| - 1]) + ItemLines(items[|items| - 1])
  }

  lemma {:induction false} PartsSay(t: Tables, cache: Cache, items: seq<Item>, n: nat, hash: seq<Item> -> string)
    requires n <= |items|
    ensures Lines(PartsTo(t, cache, items, n, hash)) == AllLines(items[..n])
  {
    hide OutboundId, KnownCall, KnownSig, TextSig, NameOf, ResponseId, IsSystem;
    if n > 0 {
      PartsSay(t, cache, items, n - 1, hash);
      assert items[..n][..n - 1] == items[..n - 1];
      LinesConcat(PartsTo(t, cache, items, n - 1, hash), ItemParts(t, cache, items, n - 1, hash));
    }
  }

  /** A converted history says what its items say, in their order and nothing else. */
  lemma ConversionSays(items: seq<Item>, cache: Cache, hash: seq<Item> -> string)
    requires Convert(items, cache, hash).Ok?
    ensures Lines(Flatten(Convert(items, cache, hash).value)) == AllLines(items)
  {
    hide Convert, Flatten, PartsTo, Lines, AllLines, Sendable, Validate;
    ConversionIs(items, cache, hash);
    PartsSay(Scan(items, cache), cache, items, |items|, hash);
    assert items[..|items|] == items;
  }

  /**
   * In a converted history every call that no carrier and no cached record knows is sent, at its
   * place, under its own id with the client's own signature, and with the replay marker only if the
   * client shows none.
   */
  lemma UnknownCallsConvert(items: seq<Item>, idx: nat, cache: Cache, hash: seq<Item> -> string)
    requires Convert(items, cache, hash).Ok? && idx < |items| && items[idx].CallItem?
    requires var t, item := Scan(items, cache), items[idx];
             FindVerified(t, CallKey(item), item.itemId).None? && FindCached(cache, CallKey(item), item.itemId).None?
    ensures var item, at := items[idx], |AllLines(items[..idx])|;
            var f := Flatten(Convert(items, cache, hash).value);
            && at < |f|
            && f[at] == ("model", CallPart(item.name, item.args, CallKey(item), if item.sig != "" then item.sig else MIGRATION_MARKER))
  {
    hide Convert, Flatten, Sendable, Validate, Scan, FindVerified, FindCached, AllLines;
    var t := Scan(items, cache);
    ConversionIs(items, cache, hash);
    PartAt(t, cache, items, |items|, hash, idx);
    UnknownCallSent(t, cache, items, idx);
  }

  lemma UnknownCallSent(t: Tables, cache: Cache, items: seq<Item>, idx: nat)
    requires idx < |items| && items[idx].CallItem?
    requires FindVerified(t, CallKey(items[idx]), items[idx].itemId).None? && FindCached(cache, CallKey(items[idx]), items[idx].itemId).None?
    ensures var item := items[idx];
            CallSent(t, cache, items, idx) == CallPart(item.name, item.args, CallKey(item), if item.sig != "" then item.sig else MIGRATION_MARKER)
  {
    hide FindVerified, FindCached, LeadOf, RecordedSibling, LeadSig;
  }

  lemma {:induction false} PartAt(t: Tables, cache: Cache, items: seq<Item>, n: nat, hash: seq<Item> -> string, idx: nat)
    requires idx < n <= |items| && items[idx].CallItem?
    ensures var at := |AllLines(items[..idx])|;
            at < |PartsTo(t, cache, items, n, hash)| && PartsTo(t, cache, items, n, hash)[at] == ("model", CallSent(t, cache, items, idx))
  {
    hide CallSent, AllLines, Lines, ItemParts;
    PartsSay(t, cache, items, n - 1, hash);
    if idx < n - 1 {
      PartAt(t, cache, items, n - 1, hash, idx);
    } else {
      SameSize(PartsTo(t, cache, items, n - 1, hash));
      assert ItemParts(t, cache, items, idx, hash) == [("model", CallSent(t, cache, items, idx))] by { CallItemParts(t, cache, items, idx, hash); }
    }
  }

  lemma CallItemParts(t: Tables, cache: Cache, items: seq<Item>, idx: nat, hash: seq<Item> -> string)
    requires idx < |items| && items[idx].CallItem?
    ensures ItemParts(t, cache, items, idx, hash) == [("model", CallSent(t, cache, items, idx))]
  {
    hide CallSent, TextSig, EmitResult;
  }

  lemma SameSize(f: seq<(string, Part)>)
    ensures |Lines(f)| == |f|
  {
  }
}
