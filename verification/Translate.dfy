/** Conversion of replayed Responses items into upstream contents. */
module Translate {
  import opened Core
  import opened Turns
  import opened Outputs
  import opened Caches
  import opened Provenance
  import opened Exchange
  import opened Normalize

  /** A tool call that a carrier vouches for. */
  datatype Verified = Verified(name: string, args: Args, sig: string, upstreamId: Id)

  /** What the pre-scans learn before any item is emitted. */
  datatype Tables = Tables(
    alias: map<Id, Id>,
    names: map<Id, string>,
    texts: map<Id, (string, string)>,
    tools: map<Id, Verified>,
    siblings: set<(Id, Id)>)

  datatype ConvertError =
    | Invalid(error: ValidationError)
    | IdentityConflict(callId: Id, itemId: Id)
    | Rejected(policy: PolicyError)
    | NoContents

  // ----- pre-scans

  function PutAll<V>(m: map<Id, V>, ids: seq<Id>, v: V): map<Id, V>
    decreases |ids|
  {
    if ids == [] then m
    else if ids[0] == NO_ID then PutAll(m, ids[1..], v)
    else PutAll(m[ids[0] := v], ids[1..], v)
  }

  function ScanCall(t: Tables, item: Item): Tables {
    if !item.CallItem? then t
    else
      var ids := [CallKey(item), item.callId, item.itemId];
      t.(alias := PutAll(t.alias, ids, CallKey(item)),
         names := if item.name == "" then t.names else PutAll(t.names, ids, item.name))
  }

  function ScanCalls(items: seq<Item>): Tables {
    if items == [] then Tables(map[], map[], map[], map[], {})
    else ScanCall(ScanCalls(items[..|items| - 1]), items[|items| - 1])
  }

  function JoinedId(callId: Id, itemId: Id): Id {
    if callId != NO_ID && itemId != NO_ID then Joined(callId, itemId) else NO_ID
  }

  function ScanPart(t: Tables, p: Record): Tables {
    match p
    case TextRec(_, id, text, sig) =>
      if sig == "" || id == NO_ID then t else t.(texts := t.texts[id := (text, sig)])
    case CallRec(_, itemId, callId, upstreamId, name, args, sig) =>
      var v := Verified(name, Persisted(args), sig, upstreamId);
      var tools := PutAll(t.tools, [callId, itemId, JoinedId(callId, itemId)], v);
      if upstreamId == NO_ID then t.(tools := tools)
      else
        t.(tools := if upstreamId in tools then tools else tools[upstreamId := v],
           alias := if callId in t.alias && upstreamId !in t.alias then t.alias[upstreamId := t.alias[callId]] else t.alias)
  }

  function ScanParts(t: Tables, parts: seq<Record>): Tables {
    if parts == [] then t else ScanPart(ScanParts(t, parts[..|parts| - 1]), parts[|parts| - 1])
  }

  function CarrierSiblings(c: Carrier): set<(Id, Id)> {
    set lead, i | lead in c.siblings && 0 <= i < |c.siblings[lead]| :: (lead, c.siblings[lead][i])
  }

  function ScanCarriers(t: Tables, items: seq<Item>): Tables {
    if items == [] then t
    else
      var before, last := ScanCarriers(t, items[..|items| - 1]), items[|items| - 1];
      if last.ReasoningItem? && last.carrier.Some? then
        var scanned := ScanParts(before, last.carrier.value.parts);
        scanned.(siblings := scanned.siblings + CarrierSiblings(last.carrier.value))
      else before
  }

  /** The call id an item mentions, for calls and results. */
  function MentionedId(item: Item): Id {
    if item.CallItem? || item.ResultItem? then item.callId else NO_ID
  }

  function ScanCacheItem(t: Tables, cache: Cache, id: Id): Tables {
    if id == NO_ID || (id in t.alias && t.alias[id] != NO_ID) then t
    else match GetTool(cache, id)
      case None => t
      case Some(rec) => if rec.bridgeId in t.alias then t.(alias := t.alias[id := t.alias[rec.bridgeId]]) else t
  }

  function ScanCache(t: Tables, cache: Cache, items: seq<Item>): Tables {
    if items == [] then t
    else ScanCacheItem(ScanCache(t, cache, items[..|items| - 1]), cache, MentionedId(items[|items| - 1]))
  }

  function Scan(items: seq<Item>, cache: Cache): Tables {
    ScanCache(ScanCarriers(ScanCalls(items), items), cache, items)
  }

  function AliasOr(t: Tables, id: Id): Id {
    if id in t.alias && t.alias[id] != NO_ID then t.alias[id] else id
  }

  /** The calls that some result answers. */
  function Answered(t: Tables, items: seq<Item>): set<Id> {
    if items == [] then {}
    else
      var last := items[|items| - 1];
      Answered(t, items[..|items| - 1]) + if last.ResultItem? && last.callId != NO_ID then {AliasOr(t, last.callId)} else {}
  }

  // ----- evidence about one call

  function FindVerified(t: Tables, callId: Id, itemId: Id): Option<Verified> {
    if callId != NO_ID && callId in t.tools then Some(t.tools[callId])
    else if itemId != NO_ID && itemId in t.tools then Some(t.tools[itemId])
    else if callId != NO_ID && itemId != NO_ID && Joined(callId, itemId) in t.tools then Some(t.tools[Joined(callId, itemId)])
    else None
  }

  function FindCached(cache: Cache, callId: Id, itemId: Id): Option<ToolRecord> {
    if GetTool(cache, callId).Some? then GetTool(cache, callId)
    else if GetTool(cache, itemId).Some? then GetTool(cache, itemId)
    else GetTool(cache, JoinedId(callId, itemId))
  }

  predicate SameCall(name: string, args: Args, item: Item)
    requires item.CallItem?
  {
    name == item.name && EqualToolArgs(args, item.args)
  }

  /** The signature the group scan takes from carrier or cache; None when the content was altered. */
  function ContentSig(t: Tables, cache: Cache, item: Item): Option<string>
    requires item.CallItem?
  {
    var id := CallKey(item);
    var rec := FindCached(cache, id, item.itemId);
    var v := FindVerified(t, id, item.itemId);
    if rec.Some? && !rec.value.legacy then
      if SameCall(rec.value.name, rec.value.args, item) then Some(rec.value.sig) else None
    else if v.Some? then
      if SameCall(v.value.name, v.value.args, item) then Some(v.value.sig) else None
    else if rec.Some? then
      if SameCall(rec.value.name, rec.value.args, item) then Some(rec.value.sig) else None
    else Some("")
  }

  function CachedSig(cache: Cache, id: Id): string {
    match GetTool(cache, id) case None => "" case Some(rec) => rec.sig
  }

  /** The signature with which a call can lead its group; empty if it cannot. */
  function GroupSig(t: Tables, cache: Cache, item: Item): string {
    if !item.CallItem? then ""
    else
      var content := ContentSig(t, cache, item);
      var id := CallKey(item);
      if content.None? then ""
      else if content.value != "" then content.value
      else if item.sig != "" then item.sig
      else if CachedSig(cache, id) != "" then CachedSig(cache, id)
      else if CachedSig(cache, item.itemId) != "" then CachedSig(cache, item.itemId)
      else CachedSig(cache, JoinedId(id, item.itemId))
  }

  /** Calls and reasoning items form runs; everything else ends a group. */
  predicate InRun(item: Item) {
    item.CallItem? || item.ReasoningItem?
  }

  function RunStart(items: seq<Item>, idx: nat): (s: nat)
    requires idx < |items|
    ensures s <= idx
  {
    if idx > 0 && InRun(items[idx - 1]) then RunStart(items, idx - 1) else idx
  }

  function RunEnd(items: seq<Item>, idx: nat): (e: nat)
    requires idx <= |items|
    ensures idx <= e <= |items|
    decreases |items| - idx
  {
    if idx < |items| && InRun(items[idx]) then RunEnd(items, idx + 1) else idx
  }

  /** The first signed call in items[lo..hi]. */
  function LeadIn(t: Tables, cache: Cache, items: seq<Item>, lo: nat, hi: nat): Id
    requires lo <= hi <= |items|
    decreases hi - lo
  {
    if lo == hi then NO_ID
    else if items[lo].CallItem? && GroupSig(t, cache, items[lo]) != "" && CallKey(items[lo]) != NO_ID then CallKey(items[lo])
    else LeadIn(t, cache, items, lo + 1, hi)
  }

  function LeadOf(t: Tables, cache: Cache, items: seq<Item>, idx: nat): Id
    requires idx < |items|
  {
    LeadIn(t, cache, items, RunStart(items, idx), RunEnd(items, idx))
  }

  predicate RecordedSibling(t: Tables, cache: Cache, lead: Id, callId: Id, itemId: Id) {
    || (lead, callId) in t.siblings
    || (itemId != NO_ID && (lead, itemId) in t.siblings)
    || IsVerifiedSibling(cache, lead, callId)
    || (itemId != NO_ID && IsVerifiedSibling(cache, lead, itemId))
  }

  function LeadSig(t: Tables, cache: Cache, lead: Id): string {
    if lead in t.tools && t.tools[lead].sig != "" then t.tools[lead].sig else CachedSig(cache, lead)
  }

  /** Evidence from carrier, cache and item, before the group is considered. */
  function OwnEvidence(t: Tables, cache: Cache, answered: set<Id>, item: Item): Evidence
    requires item.CallItem?
  {
    var id := CallKey(item);
    var v := FindVerified(t, id, item.itemId);
    var rec := FindCached(cache, id, item.itemId);
    var hasCarrier := v.Some?;
    var carrierMismatch := v.Some? && !SameCall(v.value.name, v.value.args, item);
    var carrierSig := if v.Some? && !carrierMismatch then v.value.sig else "";
    var altered := rec.Some? && !rec.value.legacy && !SameCall(rec.value.name, rec.value.args, item);
    var legacyAltered := rec.Some? && rec.value.legacy &&
                         ((rec.value.name != "" && rec.value.name != item.name) ||
                          (rec.value.args != NilArgs && !EqualToolArgs(rec.value.args, item.args)));
    var legacyCounts := legacyAltered && (!hasCarrier || carrierMismatch);
    var hasCache := rec.Some? && (!legacyAltered || legacyCounts);
    var cacheMismatch := altered || legacyCounts;
    var cacheSig := if rec.Some? && !legacyAltered then rec.value.sig else "";
    var signedByItem := !carrierMismatch && !cacheMismatch && item.sig != "";
    Evidence(hasCarrier || signedByItem, if signedByItem then item.sig else carrierSig, carrierMismatch,
             hasCache, cacheSig, cacheMismatch, false, "", id in answered, item.foreign, false)
  }

  function FullEvidence(t: Tables, cache: Cache, answered: set<Id>, item: Item, lead: Id): Evidence
    requires item.CallItem?
  {
    var ev := OwnEvidence(t, cache, answered, item);
    var id := CallKey(item);
    if ev.carrierMismatch || ev.cacheMismatch || lead == NO_ID || lead == id then ev
    else if RecordedSibling(t, cache, lead, id, item.itemId) then ev.(recordedSibling := true, siblingLeadSig := LeadSig(t, cache, lead))
    else if !ev.affirmativelyForeign && !ev.hasCarrier && (!ev.hasCache || ev.cacheSig == "") then ev.(nativeTurnUnverified := true)
    else ev
  }

  /** call_id and id must not resolve to different records. */
  predicate Conflicted(cache: Cache, item: Item)
    requires item.CallItem?
  {
    var id := CallKey(item);
    id != NO_ID && item.itemId != NO_ID && GetTool(cache, id).Some? && GetTool(cache, item.itemId).Some? &&
    var a, b := GetTool(cache, id).value, GetTool(cache, item.itemId).value;
    if !a.legacy && !b.legacy then a.bridgeId != b.bridgeId
    else
      || (a.name != "" && b.name != "" && a.name != b.name)
      || (a.args != NilArgs && b.args != NilArgs && !EqualToolArgs(a.args, b.args))
      || (a.sig != "" && b.sig != "" && a.sig != b.sig)
  }

  // ----- emission

  function OutboundId(t: Tables, cache: Cache, item: Item): Id
    requires item.CallItem?
  {
    var id := CallKey(item);
    var v, rec := FindVerified(t, id, item.itemId), FindCached(cache, id, item.itemId);
    if v.Some? && v.value.upstreamId != NO_ID then v.value.upstreamId
    else if rec.Some? && rec.value.upstreamId != NO_ID then rec.value.upstreamId
    else id
  }

  function CallPart(name: string, args: Args, id: Id, sig: string): Part {
    Part("", false, sig, Some(FunctionCall(name, args, id)), None)
  }

  function EmitCall(t: Tables, cache: Cache, answered: set<Id>, item: Item, lead: Id): Result<Part, ConvertError>
    requires item.CallItem?
  {
    if Conflicted(cache, item) then Err(IdentityConflict(CallKey(item), item.itemId))
    else match ResolveToolSignature(FullEvidence(t, cache, answered, item, lead))
      case Err(e) => Err(Rejected(e))
      case Ok(sig) => Ok(CallPart(item.name, item.args, OutboundId(t, cache, item), sig))
  }

  function CachedUpstream(cache: Cache, id: Id): Id {
    match GetTool(cache, id) case None => NO_ID case Some(rec) => rec.upstreamId
  }

  function CachedName(cache: Cache, id: Id): string {
    match GetTool(cache, id) case None => "" case Some(rec) => rec.name
  }

  function ResponseId(t: Tables, cache: Cache, callId: Id): Id {
    var id := AliasOr(t, callId);
    if id in t.tools && t.tools[id].upstreamId != NO_ID then t.tools[id].upstreamId
    else if callId in t.tools && t.tools[callId].upstreamId != NO_ID then t.tools[callId].upstreamId
    else if CachedUpstream(cache, id) != NO_ID then CachedUpstream(cache, id)
    else if CachedUpstream(cache, callId) != NO_ID then CachedUpstream(cache, callId)
    else id
  }

  function NameOf(t: Tables, cache: Cache, callId: Id): ResponseName {
    var id := AliasOr(t, callId);
    if id in t.names && t.names[id] != "" then Called(t.names[id])
    else if callId in t.names && t.names[callId] != "" then Called(t.names[callId])
    else if CachedName(cache, id) != "" then Called(CachedName(cache, id))
    else if CachedName(cache, callId) != "" then Called(CachedName(cache, callId))
    else Unnamed(id)
  }

  function EmitResult(t: Tables, cache: Cache, item: Item): Part
    requires item.ResultItem?
  {
    Part("", false, "", None,
         Some(FunctionResponse(NameOf(t, cache, item.callId), item.output, ResponseId(t, cache, item.callId))))
  }

  predicate IsSystem(item: Item)
    requires item.MessageItem?
  {
    item.role == "system" || item.role == "developer" || item.kind == "system" || item.kind == "developer"
  }

  function ResponsesContextKey(prefixHash: string, text: string): string {
    if prefixHash == "" then TrimSpace(text) else prefixHash + ":" + TrimSpace(text)
  }

  function TextSig(t: Tables, cache: Cache, item: Item, prefixHash: string): string
    requires item.MessageItem?
  {
    if item.sig != "" then item.sig
    else if item.id in t.texts && t.texts[item.id].0 == item.text then t.texts[item.id].1
    else if item.itemId in t.texts && t.texts[item.itemId].0 == item.text then t.texts[item.itemId].1
    else if item.id != NO_ID && GetMessage(cache, item.id) != "" then GetContext(cache, ResponsesContextKey(prefixHash, item.text))
    else ""
  }

  function TextPart(text: string, sig: string): Part {
    Part(text, false, sig, None, None)
  }

  /** The contents one item gives; none for reasoning, system and empty messages. */
  function EmitItem(t: Tables, cache: Cache, answered: set<Id>, items: seq<Item>, idx: nat, hash: seq<Item> -> string)
    : Result<seq<Content>, ConvertError>
    requires idx < |items|
  {
    match items[idx]
    case ReasoningItem(_) => Ok([])
    case CallItem(_, _, _, _, _, _) =>
      (match EmitCall(t, cache, answered, items[idx], LeadOf(t, cache, items, idx))
       case Err(e) => Err(e)
       case Ok(p) => Ok([Content("model", [p])]))
    case ResultItem(_, _) => Ok([Content("user", [EmitResult(t, cache, items[idx])])])
    case MessageItem(role, _, _, _, text, _) =>
      if IsSystem(items[idx]) || text == "" then Ok([])
      else if role == "assistant" then Ok([Content("model", [TextPart(text, TextSig(t, cache, items[idx], hash(items[..idx])))])])
      else Ok([Content("user", [TextPart(text, "")])])
  }

  function EmitAll(t: Tables, cache: Cache, answered: set<Id>, items: seq<Item>, n: nat, hash: seq<Item> -> string)
    : Result<seq<Content>, ConvertError>
    requires n <= |items|
  {
    if n == 0 then Ok([])
    else match EmitAll(t, cache, answered, items, n - 1, hash)
      case Err(e) => Err(e)
      case Ok(before) =>
        match EmitItem(t, cache, answered, items, n - 1, hash)
        case Err(e) => Err(e)
        case Ok(cs) => Ok(before + cs)
  }

  function RawContents(items: seq<Item>, cache: Cache, hash: seq<Item> -> string): Result<seq<Content>, ConvertError> {
    match Validate(items, cache)
    case Err(e) => Err(Invalid(e))
    case Ok(_) =>
      var t := Scan(items, cache);
      EmitAll(t, cache, Answered(t, items), items, |items|, hash)
  }

  function Convert(items: seq<Item>, cache: Cache, hash: seq<Item> -> string): Result<seq<Content>, ConvertError> {
    match RawContents(items, cache, hash)
    case Err(e) => Err(e)
    case Ok(raw) => if Normalized(raw) == [] then Err(NoContents) else Ok(Normalized(raw))
  }
}
