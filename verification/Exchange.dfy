/** Replayed items, and the validation of call and result pairing. */
module Exchange {
  import opened Core
  import opened Turns
  import opened Outputs
  import opened Caches

  /** One item of a replayed conversation. A carrier that does not decode is no carrier. */
  datatype Item =
    | ReasoningItem(carrier: Option<Carrier>)
    | CallItem(callId: Id, itemId: Id, name: string, args: Args, sig: string, foreign: bool)
    | ResultItem(callId: Id, output: string)
    | MessageItem(role: string, kind: string, id: Id, itemId: Id, text: string, sig: string)

  datatype ValidationError =
    | MissingCallId
    | DuplicateCall(id: Id)
    | ConflictingId(id: Id)
    | ResultBeforeCall(id: Id)
    | OrphanResult(id: Id)
    | DuplicateResult(id: Id)
    | MissingResultId

  function CanonicalId(callId: Id, itemId: Id): Id {
    if callId != NO_ID then callId else itemId
  }

  function CallKey(item: Item): Id
    requires item.CallItem?
  {
    CanonicalId(item.callId, item.itemId)
  }

  // ----- first pass: register identifiers

  datatype Registry = Registry(alias: map<Id, Id>, calls: set<Id>)

  function AddIfAbsent(alias: map<Id, Id>, id: Id, target: Id): map<Id, Id> {
    if id == NO_ID || id in alias then alias else alias[id := target]
  }

  /** Upstream and item ids of a cached record become further names of the call. */
  function CacheNames(alias: map<Id, Id>, cache: Cache, id: Id, target: Id): map<Id, Id> {
    match GetTool(cache, id)
    case None => alias
    case Some(rec) => AddIfAbsent(AddIfAbsent(alias, rec.upstreamId, target), rec.itemId, target)
  }

  function RegisterCall(r: Registry, cache: Cache, item: Item): Result<Registry, ValidationError>
    requires item.CallItem?
  {
    var key := CallKey(item);
    if key == NO_ID then Err(MissingCallId)
    else if key in r.calls then Err(DuplicateCall(key))
    else if key in r.alias && r.alias[key] != key then Err(ConflictingId(key))
    else
      var alias := r.alias[key := key];
      if item.itemId != NO_ID && item.itemId != key && item.itemId in alias && alias[item.itemId] != key then
        Err(ConflictingId(item.itemId))
      else
        var named := if item.itemId != NO_ID then alias[item.itemId := key] else alias;
        Ok(Registry(CacheNames(CacheNames(named, cache, item.callId, key), cache, item.itemId, key), r.calls + {key}))
  }

  function Register(items: seq<Item>, cache: Cache): Result<Registry, ValidationError> {
    if items == [] then Ok(Registry(map[], {}))
    else
      var last := items[|items| - 1];
      match Register(items[..|items| - 1], cache)
      case Err(e) => Err(e)
      case Ok(r) => if last.CallItem? then RegisterCall(r, cache, last) else Ok(r)
  }

  // ----- second pass: upstream ids named by carriers

  function CarrierNames(alias: map<Id, Id>, parts: seq<Record>): map<Id, Id> {
    if parts == [] then alias
    else
      var before, p := CarrierNames(alias, parts[..|parts| - 1]), parts[|parts| - 1];
      if p.CallRec? && p.upstreamId != NO_ID && p.callId != NO_ID && p.callId in before then
        AddIfAbsent(before, p.upstreamId, before[p.callId])
      else before
  }

  function AllCarrierNames(alias: map<Id, Id>, items: seq<Item>): map<Id, Id> {
    if items == [] then alias
    else
      var before, last := AllCarrierNames(alias, items[..|items| - 1]), items[|items| - 1];
      if last.ReasoningItem? && last.carrier.Some? then CarrierNames(before, last.carrier.value.parts) else before
  }

  // ----- third pass: pair results with earlier calls

  datatype Seen = Seen(calls: set<Id>, results: set<Id>)

  /** The call a result id belongs to. */
  function ResultOwner(alias: map<Id, Id>, cache: Cache, id: Id): Id {
    if id in alias && alias[id] != NO_ID then alias[id]
    else match GetTool(cache, id)
      case None => id
      case Some(rec) =>
        var owner := if rec.bridgeId in alias && alias[rec.bridgeId] != NO_ID then alias[rec.bridgeId] else rec.bridgeId;
        if owner == NO_ID then id else owner
  }

  function PairOne(seen: Seen, item: Item, r: Registry, cache: Cache): Result<Seen, ValidationError> {
    match item
    case CallItem(callId, itemId, _, _, _, _) =>
      var key := CanonicalId(callId, itemId);
      if key in seen.results then Err(ResultBeforeCall(key))
      else if key in seen.calls then Err(DuplicateCall(key))
      else Ok(seen.(calls := seen.calls + {key}))
    case ResultItem(id, _) =>
      if id == NO_ID then Err(MissingResultId)
      else
        var owner := ResultOwner(r.alias, cache, id);
        if owner !in seen.calls then Err(if owner in r.calls || id in r.calls then ResultBeforeCall(id) else OrphanResult(id))
        else if owner in seen.results then Err(DuplicateResult(id))
        else Ok(seen.(results := seen.results + {owner}))
    case _ => Ok(seen)
  }

  function Pair(items: seq<Item>, r: Registry, cache: Cache): Result<Seen, ValidationError> {
    if items == [] then Ok(Seen({}, {}))
    else
      match Pair(items[..|items| - 1], r, cache)
      case Err(e) => Err(e)
      case Ok(seen) => PairOne(seen, items[|items| - 1], r, cache)
  }

  function Validate(items: seq<Item>, cache: Cache): Result<Seen, ValidationError> {
    match Register(items, cache)
    case Err(e) => Err(e)
    case Ok(r) => Pair(items, r.(alias := AllCarrierNames(r.alias, items)), cache)
  }

  // ----- the validator as loops over maps

  method RegisterAll(items: seq<Item>, cache: Cache) returns (r: Result<Registry, ValidationError>)
    ensures r == Register(items, cache)
  {
    hide CacheNames;
    var reg := Registry(map[], {});
    for i := 0 to |items|
      invariant Register(items[..i], cache) == Ok(reg)
    {
      assert items[..i + 1][..i] == items[..i];
      if items[i].CallItem? {
        var next := RegisterCall(reg, cache, items[i]);
        if next.Err? {
          RegisterFails(items, i, cache);
          return Err(next.error);
        }
        reg := next.value;
      }
    }
    assert items[..|items|] == items;
    return Ok(reg);
  }

  lemma {:induction false} RegisterFails(items: seq<Item>, i: nat, cache: Cache)
    requires i < |items| && Register(items[..i + 1], cache).Err?
    ensures Register(items, cache) == Register(items[..i + 1], cache)
    decreases |items|
  {
    hide RegisterCall;
    if |items| == i + 1 {
      assert items[..i + 1] == items;
    } else {
      assert items[..|items| - 1][..i + 1] == items[..i + 1];
      RegisterFails(items[..|items| - 1], i, cache);
    }
  }

  method NameFromCarriers(alias: map<Id, Id>, items: seq<Item>) returns (named: map<Id, Id>)
    ensures named == AllCarrierNames(alias, items)
  {
    named := alias;
    for i := 0 to |items|
      invariant named == AllCarrierNames(alias, items[..i])
    {
      assert items[..i + 1][..i] == items[..i];
      if items[i].ReasoningItem? && items[i].carrier.Some? {
        var parts := items[i].carrier.value.parts;
        ghost var before := named;
        for k := 0 to |parts|
          invariant named == CarrierNames(before, parts[..k])
        {
          assert parts[..k + 1][..k] == parts[..k];
          var p := parts[k];
          if p.CallRec? && p.upstreamId != NO_ID && p.callId != NO_ID && p.callId in named && p.upstreamId !in named {
            named := named[p.upstreamId := named[p.callId]];
          }
        }
        assert parts[..|parts|] == parts;
      }
    }
    assert items[..|items|] == items;
  }

  method ValidateExchange(items: seq<Item>, cache: Cache) returns (result: Result<Seen, ValidationError>)
    ensures result == Validate(items, cache)
  {
    hide Register, AllCarrierNames, ResultOwner;
    var registered := RegisterAll(items, cache);
    if registered.Err? {
      return Err(registered.error);
    }
    var alias := NameFromCarriers(registered.value.alias, items);
    var r := registered.value.(alias := alias);
    var seen := Seen({}, {});
    for i := 0 to |items|
      invariant Pair(items[..i], r, cache) == Ok(seen)
    {
      assert items[..i + 1][..i] == items[..i];
      var next := PairOne(seen, items[i], r, cache);
      if next.Err? {
        PairFails(items, i, r, cache);
        return Err(next.error);
      }
      seen := next.value;
    }
    assert items[..|items|] == items;
    return Ok(seen);
  }

  lemma {:induction false} PairFails(items: seq<Item>, i: nat, r: Registry, cache: Cache)
    requires i < |items| && Pair(items[..i + 1], r, cache).Err?
    ensures Pair(items, r, cache) == Pair(items[..i + 1], r, cache)
    decreases |items|
  {
    hide PairOne;
    if |items| == i + 1 {
      assert items[..i + 1] == items;
    } else {
      assert items[..|items| - 1][..i + 1] == items[..i + 1];
      PairFails(items[..|items| - 1], i, r, cache);
    }
  }

  // ----- without cache and carriers: the declarative specification

  function IdsOf(item: Item): set<Id>
    requires item.CallItem?
  {
    {item.callId, item.itemId} - {NO_ID}
  }

  predicate NoCarriers(items: seq<Item>) {
    forall i :: 0 <= i < |items| ==> !(items[i].ReasoningItem? && items[i].carrier.Some?)
  }

  predicate Apart(items: seq<Item>, i: nat, j: nat)
    requires i < |items| && j < |items|
  {
    items[i].CallItem? && items[j].CallItem? ==> IdsOf(items[i]) !! IdsOf(items[j])
  }

  /** Every call has an id, and no identifier belongs to two calls. */
  predicate CallsNamed(items: seq<Item>) {
    && (forall i :: 0 <= i < |items| && items[i].CallItem? ==> IdsOf(items[i]) != {})
    && (forall i, j {:trigger Apart(items, i, j)} :: 0 <= i < j < |items| ==> Apart(items, i, j))
  }

  predicate OwnedBy(items: seq<Item>, k: nat, i: nat)
    requires k < |items| && i < |items|
  {
    items[i].CallItem? && items[k].ResultItem? && items[k].callId != NO_ID && items[k].callId in IdsOf(items[i])
  }

  /** Every result names an earlier call, and no call has two results. */
  predicate ResultsPaired(items: seq<Item>, n: nat)
    requires n <= |items|
  {
    && (forall k :: 0 <= k < n && items[k].ResultItem? ==> exists i :: 0 <= i < k && OwnedBy(items, k, i))
    && (forall k, l, i :: 0 <= k < l < n && 0 <= i < |items| ==> !(OwnedBy(items, k, i) && OwnedBy(items, l, i)))
  }

  predicate WellPaired(items: seq<Item>) {
    CallsNamed(items) && ResultsPaired(items, |items|)
  }
}
