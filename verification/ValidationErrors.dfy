/** What the errors of the validators mean: each names a fault that the history has. */
module ValidationErrors {
  import opened Core
  import opened Caches
  import opened Exchange
  import opened ExchangeSpec

  /** The call at `n` cannot be named as it is. */
  predicate CallFault(items: seq<Item>, n: nat, e: ValidationError)
    requires n < |items|
  {
    items[n].CallItem? &&
    match e
    case MissingCallId => IdsOf(items[n]) == {}
    case DuplicateCall(id) => id == CallKey(items[n]) && IsCall(items[..n], id)
    case ConflictingId(id) => Takes(items[n], id) && exists i :: 0 <= i < n && Takes(items[i], id) && CallKey(items[i]) != CallKey(items[n])
    case _ => false
  }

  /** The result at `n` does not answer an earlier, unanswered call. */
  predicate ResultFault(items: seq<Item>, n: nat, e: ValidationError)
    requires n < |items|
  {
    items[n].ResultItem? &&
    match e
    case MissingResultId => items[n].callId == NO_ID
    case ResultBeforeCall(id) => id == items[n].callId && exists i :: n < i < |items| && OwnedBy(items, n, i)
    case OrphanResult(id) => id == items[n].callId && id != NO_ID && !Taken(items, id)
    case DuplicateResult(id) => id == items[n].callId && exists k, i :: 0 <= k < n && 0 <= i < n && OwnedBy(items, k, i) && OwnedBy(items, n, i)
    case _ => false
  }

  predicate Fault(items: seq<Item>, e: ValidationError) {
    exists n :: 0 <= n < |items| && (CallFault(items, n, e) || ResultFault(items, n, e))
  }

  // ----- registration

  lemma RegisterCallFault(items: seq<Item>, r: Registry, cache: Cache, item: Item)
    requires Exact(items, r) && cache.records == map[] && item.CallItem? && RegisterCall(r, cache, item).Err?
    ensures CallFault(items + [item], |items|, RegisterCall(r, cache, item).error)
  {
    hide Exact, GetTool, Taken, IsCall;
    var all, n := items + [item], |items|;
    assert all[n] == item && all[..n] == items;
    assert forall i :: 0 <= i < n ==> all[i] == items[i];
    TakenUnder(items, r, CallKey(item));
    TakenUnder(items, r, item.itemId);
    CallIn(items, r, CallKey(item));
  }

  lemma CallIn(items: seq<Item>, r: Registry, x: Id)
    requires Exact(items, r)
    ensures x in r.calls <==> IsCall(items, x)
  {
  }

  lemma TakenUnder(items: seq<Item>, r: Registry, x: Id)
    requires Exact(items, r)
    ensures x in r.alias ==> x != NO_ID && exists i :: 0 <= i < |items| && Takes(items[i], x) && CallKey(items[i]) == r.alias[x]
  {
    if x in r.alias {
      var i :| 0 <= i < |items| && Takes(items[i], x);
    }
  }

  lemma {:induction false} RegisterFault(items: seq<Item>, cache: Cache)
    requires cache.records == map[] && Register(items, cache).Err?
    ensures exists n :: 0 <= n < |items| && CallFault(items, n, Register(items, cache).error)
  {
    hide CallFault, RegisterCall, Exact, CallsNamed;
    var before, last := items[..|items| - 1], items[|items| - 1];
    assert items == before + [last];
    RegisterSpec(before, cache);
    if Register(before, cache).Err? {
      RegisterFault(before, cache);
      var n :| 0 <= n < |before| && CallFault(before, n, Register(before, cache).error);
      CallFaultStays(before, last, n, Register(before, cache).error);
    } else {
      RegisterCallFault(before, Register(before, cache).value, cache, last);
    }
  }

  lemma CallFaultStays(items: seq<Item>, last: Item, n: nat, e: ValidationError)
    requires n < |items| && CallFault(items, n, e)
    ensures CallFault(items + [last], n, e)
  {
    hide IsCall;
    assert (items + [last])[..n] == items[..n];
    assert forall i :: 0 <= i <= n ==> (items + [last])[i] == items[i];
  }

  // ----- pairing

  lemma PairOneFault(items: seq<Item>, n: nat, seen: Seen, r: Registry, cache: Cache)
    requires CallsNamed(items) && Exact(items, r) && cache.records == map[] && n < |items| && SeenExact(items, n, seen) && items[n].ResultItem?
    requires PairOne(seen, items[n], r, cache).Err?
    ensures ResultFault(items, n, PairOne(seen, items[n], r, cache).error)
  {
    hide CallsNamed, Exact, ResultOwner, Taken, IsCall, SeenExact, OwnedBy;
    var id := items[n].callId;
    if id != NO_ID {
      OwnerIs(items, r, cache, id);
      if i :| 0 <= i < |items| && Takes(items[i], id) {
        TakenFault(items, n, seen, r, cache, i);
      } else {
        UntakenFault(items, n, seen, r, cache);
      }
    }
  }

  lemma UntakenFault(items: seq<Item>, n: nat, seen: Seen, r: Registry, cache: Cache)
    requires CallsNamed(items) && Exact(items, r) && cache.records == map[] && n < |items| && SeenExact(items, n, seen) && items[n].ResultItem?
    requires items[n].callId != NO_ID && forall i :: 0 <= i < |items| ==> !Takes(items[i], items[n].callId)
    ensures PairOne(seen, items[n], r, cache) == Err(OrphanResult(items[n].callId)) && !Taken(items, items[n].callId)
  {
    hide CallsNamed, ResultOwner;
    OwnerIs(items, r, cache, items[n].callId);
  }

  lemma TakenFault(items: seq<Item>, n: nat, seen: Seen, r: Registry, cache: Cache, i: nat)
    requires CallsNamed(items) && Exact(items, r) && cache.records == map[] && n < |items| && SeenExact(items, n, seen) && items[n].ResultItem?
    requires items[n].callId != NO_ID && i < |items| && Takes(items[i], items[n].callId) && PairOne(seen, items[n], r, cache).Err?
    ensures ResultFault(items, n, PairOne(seen, items[n], r, cache).error)
  {
    hide CallsNamed, ResultOwner, Taken, CallBefore, AnsweredBefore;
    OwnerIs(items, r, cache, items[n].callId);
    CallBeforeIs(items, n, i);
    AnsweredIs(items, n, i);
    assert OwnedBy(items, n, i);
    assert IsCall(items, CallKey(items[i]));
  }

  lemma {:induction false} PairFault(items: seq<Item>, n: nat, r: Registry, cache: Cache)
    requires n <= |items| && CallsNamed(items) && Exact(items, r) && cache.records == map[] && Pair(items[..n], r, cache).Err?
    ensures exists k :: 0 <= k < n && ResultFault(items, k, Pair(items[..n], r, cache).error)
  {
    hide CallsNamed, Exact, SeenExact, ResultsPaired, ResultFault, ResultOwner;
    assert items[..n][..n - 1] == items[..n - 1];
    PairSpec(items, n - 1, r, cache);
    if Pair(items[..n - 1], r, cache).Err? {
      PairFault(items, n - 1, r, cache);
    } else {
      var seen := Pair(items[..n - 1], r, cache).value;
      if items[n - 1].CallItem? {
        SeenCall(items, n - 1, seen);
      }
      PairOneFault(items, n - 1, seen, r, cache);
    }
  }

  /**
   * Without cached records and carriers every error of the validator is true: the call it names has
   * no id, repeats an earlier call or claims an identifier of one; the result it names has no id,
   * comes before its call, has none, or is the second one of its call.
   */
  lemma ErrorsAreTrue(items: seq<Item>, cache: Cache)
    requires cache.records == map[] && NoCarriers(items) && Validate(items, cache).Err?
    ensures Fault(items, Validate(items, cache).error)
  {
    hide CallsNamed, Exact, Register, Pair, NoCarriers, CallFault, ResultFault;
    RegisterSpec(items, cache);
    if Register(items, cache).Err? {
      RegisterFault(items, cache);
    } else {
      var r := Register(items, cache).value;
      NoCarrierNames(r.alias, items);
      assert items[..|items|] == items;
      PairFault(items, |items|, r, cache);
    }
  }
}
