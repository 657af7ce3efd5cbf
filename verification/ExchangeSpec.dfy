/** Without cache and carriers the validator accepts exactly the well-paired lists. */
module ExchangeSpec {
  import opened Core
  import opened Caches
  import opened Exchange
  import Turns

  // ----- registration

  predicate Takes(item: Item, x: Id) {
    item.CallItem? && x in IdsOf(item)
  }

  predicate Taken(items: seq<Item>, x: Id) {
    exists i :: 0 <= i < |items| && Takes(items[i], x)
  }

  predicate IsCall(items: seq<Item>, x: Id) {
    exists i :: 0 <= i < |items| && items[i].CallItem? && CallKey(items[i]) == x
  }

  /** The registry knows exactly the identifiers of the calls, each under its call. */
  ghost predicate Exact(items: seq<Item>, r: Registry) {
    && (forall x :: x in r.alias <==> Taken(items, x))
    && (forall x :: x in r.calls <==> IsCall(items, x)) && NO_ID !in r.calls
    && (forall i, x :: 0 <= i < |items| && Takes(items[i], x) ==> x in r.alias && r.alias[x] == CallKey(items[i]))
  }

  lemma TakenSnoc(items: seq<Item>, item: Item, x: Id)
    ensures Taken(items + [item], x) <==> Taken(items, x) || Takes(item, x)
  {
    var all := items + [item];
    assert all[|items|] == item;
    if Taken(items, x) {
      var i :| 0 <= i < |items| && Takes(items[i], x);
      assert Takes(all[i], x);
    }
  }

  lemma IsCallSnoc(items: seq<Item>, item: Item, x: Id)
    ensures IsCall(items + [item], x) <==> IsCall(items, x) || (item.CallItem? && CallKey(item) == x)
  {
    var all := items + [item];
    assert all[|items|] == item;
    if IsCall(items, x) {
      var i :| 0 <= i < |items| && items[i].CallItem? && CallKey(items[i]) == x;
      assert all[i].CallItem? && CallKey(all[i]) == x;
    }
  }

  /** Distinct from every registered identifier. */
  predicate Free(items: seq<Item>, item: Item)
    requires item.CallItem?
  {
    IdsOf(item) != {} && forall x :: x in IdsOf(item) ==> !Taken(items, x)
  }

  lemma ApartPrefix(items: seq<Item>, item: Item, i: nat, j: nat)
    requires i < |items| && j < |items|
    ensures Apart(items + [item], i, j) <==> Apart(items, i, j)
  {
  }

  lemma NamedPrefix(items: seq<Item>, item: Item)
    requires CallsNamed(items + [item])
    ensures CallsNamed(items) && (item.CallItem? ==> Free(items, item))
  {
    var all := items + [item];
    assert all[|items|] == item && forall i :: 0 <= i < |items| ==> all[i] == items[i];
    forall i, j {:trigger Apart(items, i, j)} | 0 <= i < j < |items|
      ensures Apart(items, i, j)
    {
      ApartPrefix(items, item, i, j);
      assert Apart(all, i, j);
    }
    if item.CallItem? {
      forall i | 0 <= i < |items| && items[i].CallItem?
        ensures IdsOf(items[i]) !! IdsOf(item)
      {
        assert Apart(all, i, |items|);
      }
    }
  }

  lemma NamedSnoc(items: seq<Item>, item: Item)
    requires CallsNamed(items) && (item.CallItem? ==> Free(items, item))
    ensures CallsNamed(items + [item])
  {
    var all := items + [item];
    assert all[|items|] == item && forall i :: 0 <= i < |items| ==> all[i] == items[i];
    forall i, j {:trigger Apart(all, i, j)} | 0 <= i < j < |all|
      ensures Apart(all, i, j)
    {
      if j < |items| {
        ApartPrefix(items, item, i, j);
        assert Apart(items, i, j);
      } else if items[i].CallItem? && item.CallItem? {
        forall x | x in IdsOf(items[i])
          ensures x !in IdsOf(item)
        {
          assert Takes(items[i], x);
          assert Taken(items, x);
        }
      }
    }
  }

  /** One call registers exactly when its identifiers are free. */
  lemma RegisterOne(items: seq<Item>, r: Registry, cache: Cache, item: Item)
    requires Exact(items, r) && cache.records == map[] && item.CallItem?
    ensures RegisterCall(r, cache, item).Ok? <==> Free(items, item)
    ensures RegisterCall(r, cache, item).Ok? ==> RegisterCall(r, cache, item).value == Registered(r, item)
  {
    hide Taken, IsCall, GetTool, Free, Exact;
    FreeIs(items, item);
    NoRecords(cache, item.callId);
    NoRecords(cache, item.itemId);
    KeyFacts(items, r, CallKey(item));
    KeyFacts(items, r, item.itemId);
  }

  lemma FreeIs(items: seq<Item>, item: Item)
    requires item.CallItem?
    ensures Free(items, item) <==>
            CallKey(item) != NO_ID && !Taken(items, CallKey(item)) && (item.itemId == NO_ID || !Taken(items, item.itemId))
  {
    hide Taken;
    assert item.callId in IdsOf(item) <==> item.callId != NO_ID;
    assert item.itemId in IdsOf(item) <==> item.itemId != NO_ID;
  }

  function Registered(r: Registry, item: Item): Registry
    requires item.CallItem?
  {
    var alias := r.alias[CallKey(item) := CallKey(item)];
    Registry(if item.itemId != NO_ID then alias[item.itemId := CallKey(item)] else alias, r.calls + {CallKey(item)})
  }

  lemma NoRecords(cache: Cache, x: Id)
    requires cache.records == map[]
    ensures GetTool(cache, x) == None
  {
  }

  /** A taken identifier is known under some registered call. */
  lemma KeyFacts(items: seq<Item>, r: Registry, x: Id)
    requires Exact(items, r)
    ensures x in r.alias <==> Taken(items, x)
    ensures x in r.alias ==> r.alias[x] in r.calls
    ensures x in r.calls ==> x in r.alias
  {
    if x in r.alias {
      var i :| 0 <= i < |items| && Takes(items[i], x);
      assert IsCall(items, CallKey(items[i]));
    }
    if x in r.calls {
      var i :| 0 <= i < |items| && items[i].CallItem? && CallKey(items[i]) == x;
      assert Takes(items[i], x);
    }
  }

  lemma ExactSnoc(items: seq<Item>, r: Registry, item: Item)
    requires Exact(items, r) && (item.CallItem? ==> Free(items, item))
    ensures Exact(items + [item], if item.CallItem? then Registered(r, item) else r)
  {
    hide Taken, IsCall;
    var all := items + [item];
    var r' := if item.CallItem? then Registered(r, item) else r;
    assert all[|items|] == item && forall i :: 0 <= i < |items| ==> all[i] == items[i];
    forall x
      ensures x in r'.alias <==> Taken(all, x)
      ensures x in r'.calls <==> IsCall(all, x)
    {
      TakenSnoc(items, item, x);
      IsCallSnoc(items, item, x);
    }
    forall i, x | 0 <= i < |all| && Takes(all[i], x)
      ensures x in r'.alias && r'.alias[x] == CallKey(all[i])
    {
      TakenSnoc(items, item, x);
    }
  }

  lemma {:induction false} RegisterSpec(items: seq<Item>, cache: Cache)
    requires cache.records == map[]
    ensures Register(items, cache).Ok? <==> CallsNamed(items)
    ensures Register(items, cache).Ok? ==> Exact(items, Register(items, cache).value)
  {
    hide Exact, Free, CallsNamed, RegisterCall;
    if items == [] {
      Nothing();
    } else {
      var before, last := items[..|items| - 1], items[|items| - 1];
      assert items == before + [last];
      RegisterSpec(before, cache);
      if CallsNamed(items) {
        NamedPrefix(before, last);
      }
      if Register(before, cache).Ok? {
        if last.CallItem? {
          RegisterOne(before, Register(before, cache).value, cache, last);
        }
        if last.CallItem? ==> Free(before, last) {
          NamedSnoc(before, last);
          ExactSnoc(before, Register(before, cache).value, last);
        }
      }
    }
  }

  lemma Nothing()
    ensures CallsNamed([]) && Exact([], Registry(map[], {}))
  {
  }

  // ----- pairing

  /** The calls and the answered calls among the first `n` items. */
  predicate CallBefore(items: seq<Item>, n: nat, x: Id)
    requires n <= |items|
  {
    exists i :: 0 <= i < n && items[i].CallItem? && CallKey(items[i]) == x
  }

  predicate AnsweredBefore(items: seq<Item>, n: nat, x: Id)
    requires n <= |items|
  {
    exists k, i :: 0 <= k < n && 0 <= i < |items| && OwnedBy(items, k, i) && CallKey(items[i]) == x
  }

  ghost predicate SeenExact(items: seq<Item>, n: nat, seen: Seen)
    requires n <= |items|
  {
    && (forall x :: x in seen.calls <==> CallBefore(items, n, x))
    && (forall x :: x in seen.results <==> AnsweredBefore(items, n, x))
    && seen.results <= seen.calls
  }

  /** Distinct calls have distinct keys, and an identifier has one owner. */
  lemma OneOwner(items: seq<Item>, i: nat, j: nat, x: Id)
    requires CallsNamed(items) && i < |items| && j < |items|
    requires Takes(items[i], x) && Takes(items[j], x)
    ensures i == j
  {
    ApartBoth(items, i, j);
  }

  lemma ApartBoth(items: seq<Item>, i: nat, j: nat)
    requires CallsNamed(items) && i < |items| && j < |items|
    ensures (i < j ==> Apart(items, i, j)) && (j < i ==> Apart(items, j, i))
  {
  }

  lemma SameKey(items: seq<Item>, i: nat, j: nat)
    requires CallsNamed(items) && i < |items| && j < |items|
    requires items[i].CallItem? && items[j].CallItem? && CallKey(items[i]) == CallKey(items[j])
    ensures i == j
  {
    hide CallsNamed;
    KeyIsId(items, i);
    KeyIsId(items, j);
    OneOwner(items, i, j, CallKey(items[i]));
  }

  lemma KeyIsId(items: seq<Item>, i: nat)
    requires CallsNamed(items) && i < |items| && items[i].CallItem?
    ensures Takes(items[i], CallKey(items[i])) && CallKey(items[i]) != NO_ID
  {
  }

  /** The owner of a result id, where the exact registry knows it. */
  lemma OwnerIs(items: seq<Item>, r: Registry, cache: Cache, id: Id)
    requires Exact(items, r) && CallsNamed(items) && cache.records == map[] && id != NO_ID
    ensures forall i :: 0 <= i < |items| && Takes(items[i], id) ==> ResultOwner(r.alias, cache, id) == CallKey(items[i])
    ensures !Taken(items, id) ==> ResultOwner(r.alias, cache, id) == id && !IsCall(items, id)
  {
    hide CallsNamed, GetTool;
    NoRecords(cache, id);
    forall i | 0 <= i < |items| && Takes(items[i], id)
      ensures ResultOwner(r.alias, cache, id) == CallKey(items[i])
    {
      KeyIsId(items, i);
    }
    if IsCall(items, id) {
      var i :| 0 <= i < |items| && items[i].CallItem? && CallKey(items[i]) == id;
      KeyIsId(items, i);
    }
  }

  /** The result at `n` is fine: an earlier call owns it, and no earlier result answered that call. */
  predicate GoodResult(items: seq<Item>, n: nat)
    requires n < |items|
  {
    items[n].ResultItem? ==>
      exists i :: 0 <= i < n && OwnedBy(items, n, i) && forall k :: 0 <= k < n ==> !OwnedBy(items, k, i)
  }

  lemma PairedSnoc(items: seq<Item>, n: nat)
    requires CallsNamed(items) && n < |items| && ResultsPaired(items, n)
    ensures ResultsPaired(items, n + 1) <==> GoodResult(items, n)
  {
    hide CallsNamed;
    if GoodResult(items, n) && items[n].ResultItem? {
      var i :| 0 <= i < n && OwnedBy(items, n, i) && forall k :: 0 <= k < n ==> !OwnedBy(items, k, i);
      forall k, j | 0 <= k < n && 0 <= j < |items| && OwnedBy(items, n, j)
        ensures !OwnedBy(items, k, j)
      {
        OneOwner(items, i, j, items[n].callId);
      }
    }
  }

  lemma SeenCall(items: seq<Item>, n: nat, seen: Seen)
    requires CallsNamed(items) && n < |items| && SeenExact(items, n, seen) && items[n].CallItem?
    ensures CallKey(items[n]) !in seen.calls && CallKey(items[n]) !in seen.results
    ensures SeenExact(items, n + 1, seen.(calls := seen.calls + {CallKey(items[n])}))
  {
    hide CallsNamed, AnsweredBefore;
    var key := CallKey(items[n]);
    if CallBefore(items, n, key) {
      var i :| 0 <= i < n && items[i].CallItem? && CallKey(items[i]) == key;
      SameKey(items, i, n);
    }
    forall x
      ensures CallBefore(items, n + 1, x) <==> CallBefore(items, n, x) || x == key
      ensures AnsweredBefore(items, n + 1, x) <==> AnsweredBefore(items, n, x)
    {
      if x == key {
        assert items[n].CallItem? && CallKey(items[n]) == x;
      }
      AnsweredSnoc(items, n, x);
    }
  }

  lemma AnsweredSnoc(items: seq<Item>, n: nat, x: Id)
    requires n < |items|
    ensures AnsweredBefore(items, n + 1, x) <==>
            AnsweredBefore(items, n, x) || exists i :: 0 <= i < |items| && OwnedBy(items, n, i) && CallKey(items[i]) == x
  {
  }

  lemma SeenOther(items: seq<Item>, n: nat, seen: Seen)
    requires n < |items| && SeenExact(items, n, seen) && !items[n].CallItem? && !items[n].ResultItem?
    ensures SeenExact(items, n + 1, seen)
  {
    hide AnsweredBefore;
    forall x
      ensures CallBefore(items, n + 1, x) <==> CallBefore(items, n, x)
      ensures AnsweredBefore(items, n + 1, x) <==> AnsweredBefore(items, n, x)
    {
      AnsweredSnoc(items, n, x);
    }
  }

  lemma SeenResult(items: seq<Item>, n: nat, seen: Seen, r: Registry, cache: Cache)
    requires CallsNamed(items) && Exact(items, r) && cache.records == map[]
    requires n < |items| && SeenExact(items, n, seen) && items[n].ResultItem?
    ensures PairOne(seen, items[n], r, cache).Ok? <==> GoodResult(items, n)
    ensures PairOne(seen, items[n], r, cache).Ok? ==> SeenExact(items, n + 1, PairOne(seen, items[n], r, cache).value)
  {
    hide CallsNamed, Exact, ResultOwner, Taken, IsCall;
    var id := items[n].callId;
    if id != NO_ID {
      OwnerIs(items, r, cache, id);
      if i :| 0 <= i < |items| && Takes(items[i], id) {
        OwnedResult(items, n, seen, r, cache, i);
      } else {
        UnownedResult(items, n, seen, r, cache);
      }
    }
  }

  lemma UnownedResult(items: seq<Item>, n: nat, seen: Seen, r: Registry, cache: Cache)
    requires CallsNamed(items) && Exact(items, r) && cache.records == map[]
    requires n < |items| && SeenExact(items, n, seen) && items[n].ResultItem? && items[n].callId != NO_ID
    requires forall i :: 0 <= i < |items| ==> !Takes(items[i], items[n].callId)
    ensures PairOne(seen, items[n], r, cache).Err? && !GoodResult(items, n)
  {
    hide CallsNamed, ResultOwner;
    OwnerIs(items, r, cache, items[n].callId);
  }

  lemma OwnedResult(items: seq<Item>, n: nat, seen: Seen, r: Registry, cache: Cache, i: nat)
    requires CallsNamed(items) && Exact(items, r) && cache.records == map[]
    requires n < |items| && SeenExact(items, n, seen) && items[n].ResultItem? && items[n].callId != NO_ID
    requires i < |items| && Takes(items[i], items[n].callId)
    ensures PairOne(seen, items[n], r, cache).Ok? <==> GoodResult(items, n)
    ensures PairOne(seen, items[n], r, cache).Ok? ==> SeenExact(items, n + 1, PairOne(seen, items[n], r, cache).value)
  {
    hide CallsNamed, Exact, ResultOwner;
    var key := CallKey(items[i]);
    OwnerIs(items, r, cache, items[n].callId);
    CallBeforeIs(items, n, i);
    AnsweredIs(items, n, i);
    forall j | 0 <= j < |items| && OwnedBy(items, n, j)
      ensures j == i
    {
      OneOwner(items, i, j, items[n].callId);
    }
    assert OwnedBy(items, n, i);
    forall x
      ensures CallBefore(items, n + 1, x) <==> CallBefore(items, n, x)
      ensures AnsweredBefore(items, n + 1, x) <==> AnsweredBefore(items, n, x) || x == key
    {
      AnsweredSnoc(items, n, x);
    }
  }

  lemma CallBeforeIs(items: seq<Item>, n: nat, i: nat)
    requires CallsNamed(items) && n <= |items| && i < |items| && items[i].CallItem?
    ensures CallBefore(items, n, CallKey(items[i])) <==> i < n
  {
    hide CallsNamed;
    if CallBefore(items, n, CallKey(items[i])) {
      var j :| 0 <= j < n && items[j].CallItem? && CallKey(items[j]) == CallKey(items[i]);
      SameKey(items, i, j);
    }
  }

  lemma AnsweredIs(items: seq<Item>, n: nat, i: nat)
    requires CallsNamed(items) && n <= |items| && i < |items| && items[i].CallItem?
    ensures AnsweredBefore(items, n, CallKey(items[i])) <==> exists k :: 0 <= k < n && OwnedBy(items, k, i)
  {
    hide CallsNamed;
    if AnsweredBefore(items, n, CallKey(items[i])) {
      var k, j :| 0 <= k < n && 0 <= j < |items| && OwnedBy(items, k, j) && CallKey(items[j]) == CallKey(items[i]);
      SameKey(items, i, j);
    }
  }

  lemma {:induction false} PairSpec(items: seq<Item>, n: nat, r: Registry, cache: Cache)
    requires n <= |items| && CallsNamed(items) && Exact(items, r) && cache.records == map[]
    ensures Pair(items[..n], r, cache).Ok? <==> ResultsPaired(items, n)
    ensures Pair(items[..n], r, cache).Ok? ==> SeenExact(items, n, Pair(items[..n], r, cache).value)
  {
    hide CallsNamed, Exact, SeenExact, ResultsPaired, GoodResult, ResultOwner;
    if n == 0 {
      NothingSeen(items);
    } else {
      assert items[..n][..n - 1] == items[..n - 1];
      PairSpec(items, n - 1, r, cache);
      if ResultsPaired(items, n) {
        PairedPrefix(items, n);
      }
      if Pair(items[..n - 1], r, cache).Ok? {
        var seen := Pair(items[..n - 1], r, cache).value;
        PairedSnoc(items, n - 1);
        match items[n - 1]
        case CallItem(_, _, _, _, _, _) =>
          SeenCall(items, n - 1, seen);
          NotAResult(items, n - 1);
        case ResultItem(_, _) => SeenResult(items, n - 1, seen, r, cache);
        case _ =>
          SeenOther(items, n - 1, seen);
          NotAResult(items, n - 1);
      }
    }
  }

  lemma NotAResult(items: seq<Item>, n: nat)
    requires n < |items| && !items[n].ResultItem?
    ensures GoodResult(items, n)
  {
  }

  lemma PairedPrefix(items: seq<Item>, n: nat)
    requires 0 < n <= |items| && ResultsPaired(items, n)
    ensures ResultsPaired(items, n - 1)
  {
  }

  lemma NothingSeen(items: seq<Item>)
    ensures ResultsPaired(items, 0) && SeenExact(items, 0, Seen({}, {}))
  {
  }

  lemma {:induction false} NoCarrierNames(alias: map<Id, Id>, items: seq<Item>)
    requires NoCarriers(items)
    ensures AllCarrierNames(alias, items) == alias
  {
    if items != [] {
      NoCarrierNames(alias, items[..|items| - 1]);
    }
  }

  /**
   * Without cached records and carriers, validation accepts exactly the lists in which every call
   * has an id, no identifier belongs to two calls, every result names an earlier call and no call
   * has two results.
   */
  lemma ValidatorIsExact(items: seq<Item>, cache: Cache)
    requires cache.records == map[] && NoCarriers(items)
    ensures Validate(items, cache).Ok? <==> WellPaired(items)
  {
    hide CallsNamed, ResultsPaired, Exact, Register, Pair, SeenExact, NoCarriers;
    RegisterSpec(items, cache);
    if CallsNamed(items) {
      var r := Register(items, cache).value;
      NoCarrierNames(r.alias, items);
      PairSpec(items, |items|, r, cache);
      assert items[..|items|] == items;
    }
  }

  // ----- carriers add names but change no owner

  lemma {:induction false} CarrierNamesExtend(alias: map<Id, Id>, parts: seq<Turns.Record>)
    ensures forall x :: x in alias ==> x in CarrierNames(alias, parts) && CarrierNames(alias, parts)[x] == alias[x]
  {
    if parts != [] {
      CarrierNamesExtend(alias, parts[..|parts| - 1]);
    }
  }

  lemma {:induction false} AllCarrierNamesExtend(alias: map<Id, Id>, items: seq<Item>)
    ensures forall x :: x in alias ==> x in AllCarrierNames(alias, items) && AllCarrierNames(alias, items)[x] == alias[x]
  {
    hide CarrierNames;
    if items != [] {
      var n := |items| - 1;
      AllCarrierNamesExtend(alias, items[..n]);
      if items[n].ReasoningItem? && items[n].carrier.Some? {
        CarrierNamesExtend(AllCarrierNames(alias, items[..n]), items[n].carrier.value.parts);
      }
    }
  }

  predicate ResultsKnown(items: seq<Item>, alias: map<Id, Id>) {
    forall k :: 0 <= k < |items| && items[k].ResultItem? ==> items[k].callId in alias && alias[items[k].callId] != NO_ID
  }

  /** Where results are known by their ids, neither further names nor the cache matter. */
  lemma {:induction false} PairExtended(items: seq<Item>, r: Registry, alias: map<Id, Id>, cache: Cache, cache': Cache)
    requires ResultsKnown(items, r.alias)
    requires forall x :: x in r.alias ==> x in alias && alias[x] == r.alias[x]
    ensures Pair(items, r.(alias := alias), cache) == Pair(items, r, cache')
  {
    hide GetTool;
    if items != [] {
      PairExtended(items[..|items| - 1], r, alias, cache, cache');
    }
  }

  lemma ResultsAreKnown(items: seq<Item>, r: Registry)
    requires WellPaired(items) && Exact(items, r)
    ensures ResultsKnown(items, r.alias)
  {
    forall k | 0 <= k < |items| && items[k].ResultItem?
      ensures items[k].callId in r.alias && r.alias[items[k].callId] != NO_ID
    {
      var i :| 0 <= i < k && OwnedBy(items, k, i);
      assert Takes(items[i], items[k].callId);
      KeyIsId(items, i);
    }
  }

  // ----- the cache adds names too

  predicate OnlyOwn(items: seq<Item>, i: nat, y: Id) {
    forall j :: 0 <= j < |items| && Takes(items[j], y) ==> j == i
  }

  /** What the cache knows under an identifier of a call is no identifier of another call. */
  ghost predicate NamesFit(items: seq<Item>, cache: Cache) {
    forall i, x {:trigger Takes(items[i], x)} :: 0 <= i < |items| && Takes(items[i], x) && GetTool(cache, x).Some? ==>
      OnlyOwn(items, i, GetTool(cache, x).value.upstreamId) && OnlyOwn(items, i, GetTool(cache, x).value.itemId)
  }

  /** The registry knows the identifiers of the first `n` items, and none of later ones. */
  ghost predicate Loose(items: seq<Item>, n: nat, r: Registry) {
    && n <= |items|
    && (forall i, x {:trigger Takes(items[i], x)} :: 0 <= i < n && Takes(items[i], x) ==> x in r.alias && r.alias[x] == CallKey(items[i]))
    && (forall j, x {:trigger Takes(items[j], x)} :: 0 <= j < |items| && Takes(items[j], x) && x in r.alias ==> j < n)
    && (forall x :: x in r.calls <==> IsCall(items[..n], x))
  }

  /** `more` keeps the names of `alias` and adds only names that no call but `i` takes. */
  ghost predicate Extends(items: seq<Item>, i: nat, alias: map<Id, Id>, more: map<Id, Id>) {
    && (forall x :: x in alias ==> x in more && more[x] == alias[x])
    && (forall x :: x in more && x !in alias ==> OnlyOwn(items, i, x))
  }

  lemma CacheNamesExtend(items: seq<Item>, i: nat, alias: map<Id, Id>, cache: Cache, id: Id, target: Id)
    requires i < |items| && NamesFit(items, cache) && (id == NO_ID || Takes(items[i], id))
    ensures Extends(items, i, alias, CacheNames(alias, cache, id, target))
  {
    hide Takes, OnlyOwn;
  }

  lemma ExtendsTwice(items: seq<Item>, i: nat, a: map<Id, Id>, b: map<Id, Id>, c: map<Id, Id>)
    requires Extends(items, i, a, b) && Extends(items, i, b, c)
    ensures Extends(items, i, a, c)
  {
    hide OnlyOwn;
  }

  lemma LooseCall(items: seq<Item>, n: nat, r: Registry, cache: Cache)
    requires Loose(items, n, r) && n < |items| && items[n].CallItem? && CallsNamed(items) && NamesFit(items, cache)
    ensures RegisterCall(r, cache, items[n]).Ok? && Loose(items, n + 1, RegisterCall(r, cache, items[n]).value)
  {
    hide CallsNamed, CacheNames, NamesFit, IsCall, Extends, OnlyOwn;
    var item, key := items[n], CallKey(items[n]);
    KeyIsId(items, n);
    assert key !in r.alias;
    NewKey(items, n);
    assert item.itemId != NO_ID ==> Takes(item, item.itemId);
    assert item.callId != NO_ID ==> Takes(item, item.callId);
    var own := r.alias[key := key];
    var named := if item.itemId != NO_ID then own[item.itemId := key] else own;
    var once := CacheNames(named, cache, item.callId, key);
    var more := CacheNames(once, cache, item.itemId, key);
    CacheNamesExtend(items, n, named, cache, item.callId, key);
    CacheNamesExtend(items, n, once, cache, item.itemId, key);
    ExtendsTwice(items, n, named, once, more);
    LooseStep(items, n, r, named, more);
  }

  lemma NewKey(items: seq<Item>, n: nat)
    requires CallsNamed(items) && n < |items| && items[n].CallItem?
    ensures !IsCall(items[..n], CallKey(items[n]))
    ensures forall x :: IsCall(items[..n + 1], x) <==> IsCall(items[..n], x) || x == CallKey(items[n])
  {
    hide CallsNamed;
    if IsCall(items[..n], CallKey(items[n])) {
      var i :| 0 <= i < n && items[..n][i].CallItem? && CallKey(items[..n][i]) == CallKey(items[n]);
      SameKey(items, i, n);
    }
    assert items[..n + 1] == items[..n] + [items[n]];
    forall x
      ensures IsCall(items[..n + 1], x) <==> IsCall(items[..n], x) || x == CallKey(items[n])
    {
      IsCallSnoc(items[..n], items[n], x);
    }
  }

  lemma LooseStep(items: seq<Item>, n: nat, r: Registry, named: map<Id, Id>, more: map<Id, Id>)
    requires Loose(items, n, r) && n < |items| && items[n].CallItem? && CallsNamed(items)
    requires forall x :: IsCall(items[..n + 1], x) <==> IsCall(items[..n], x) || x == CallKey(items[n])
    requires named == (var own := r.alias[CallKey(items[n]) := CallKey(items[n])];
                       if items[n].itemId != NO_ID then own[items[n].itemId := CallKey(items[n])] else own)
    requires Extends(items, n, named, more)
    ensures Loose(items, n + 1, Registry(more, r.calls + {CallKey(items[n])}))
  {
    hide IsCall, CallsNamed;
    KeyIsId(items, n);
    forall i, x {:trigger Takes(items[i], x)} | 0 <= i < n + 1 && Takes(items[i], x)
      ensures x in more && more[x] == CallKey(items[i])
    {
      assert Takes(items[n], x) ==> i == n;
    }
    forall j, x {:trigger Takes(items[j], x)} | 0 <= j < |items| && Takes(items[j], x) && x in more
      ensures j < n + 1
    {
      if x in named && x !in r.alias {
        OneOwner(items, j, n, x);
      }
    }
  }

  lemma LooseOther(items: seq<Item>, n: nat, r: Registry)
    requires Loose(items, n, r) && n < |items| && !items[n].CallItem?
    ensures Loose(items, n + 1, r)
  {
    assert items[..n + 1] == items[..n] + [items[n]];
    hide IsCall;
    forall x
      ensures IsCall(items[..n + 1], x) <==> IsCall(items[..n], x)
    {
      IsCallSnoc(items[..n], items[n], x);
    }
  }

  lemma {:induction false} LooseRegister(items: seq<Item>, n: nat, cache: Cache)
    requires CallsNamed(items) && NamesFit(items, cache) && n <= |items|
    ensures Register(items[..n], cache).Ok? && Loose(items, n, Register(items[..n], cache).value)
  {
    hide CallsNamed, NamesFit, Loose, RegisterCall;
    if n == 0 {
      LooseNothing(items);
    } else {
      assert items[..n][..n - 1] == items[..n - 1];
      LooseRegister(items, n - 1, cache);
      if items[n - 1].CallItem? {
        LooseCall(items, n - 1, Register(items[..n - 1], cache).value, cache);
      } else {
        LooseOther(items, n - 1, Register(items[..n - 1], cache).value);
      }
    }
  }

  lemma LooseNothing(items: seq<Item>)
    ensures Loose(items, 0, Registry(map[], {}))
  {
  }

  lemma LooseExtends(items: seq<Item>, r: Registry, r': Registry)
    requires Exact(items, r) && Loose(items, |items|, r')
    ensures r'.calls == r.calls && forall x :: x in r.alias ==> x in r'.alias && r'.alias[x] == r.alias[x]
  {
    hide IsCall, Takes;
    assert items[..|items|] == items;
    forall x | x in r.alias
      ensures x in r'.alias && r'.alias[x] == r.alias[x]
    {
      var i :| 0 <= i < |items| && Takes(items[i], x);
    }
  }

  /**
   * A well-paired list stays valid whatever carriers it contains and whatever the cache knows, as
   * long as no name that the cache gives one call belongs to another.
   */
  lemma WellPairedIsValid(items: seq<Item>, cache: Cache)
    requires WellPaired(items) && NamesFit(items, cache)
    ensures Validate(items, cache).Ok?
  {
    hide CallsNamed, ResultsPaired, Exact, Register, Pair, SeenExact, AllCarrierNames, ResultsKnown, NamesFit, Loose;
    var none := Fresh(1);
    RegisterSpec(items, none);
    var r := Register(items, none).value;
    PairSpec(items, |items|, r, none);
    assert items[..|items|] == items;
    ResultsAreKnown(items, r);
    LooseRegister(items, |items|, cache);
    var r' := Register(items, cache).value;
    LooseExtends(items, r, r');
    AllCarrierNamesExtend(r'.alias, items);
    PairExtended(items, r, AllCarrierNames(r'.alias, items), cache, none);
  }
}
