/** What the pre-scans leave in the tables. */
module ScanLaws {
  import opened Core
  import opened Turns
  import opened Outputs
  import opened Caches
  import opened Exchange
  import opened ExchangeSpec
  import opened Translate

  function Put<V>(m: map<Id, V>, id: Id, v: V): map<Id, V> {
    if id == NO_ID then m else m[id := v]
  }

  lemma PutThree<V>(m: map<Id, V>, a: Id, b: Id, c: Id, v: V)
    ensures PutAll(m, [a, b, c], v) == Put(Put(Put(m, a, v), b, v), c, v)
  {
    assert [a, b, c][1..] == [b, c];
    assert [b, c][1..] == [c];
    assert [c][1..] == [];
    assert PutAll(Put(Put(Put(m, a, v), b, v), c, v), [], v) == Put(Put(Put(m, a, v), b, v), c, v);
    assert PutAll(Put(Put(m, a, v), b, v), [c], v) == Put(Put(Put(m, a, v), b, v), c, v);
    assert PutAll(Put(m, a, v), [b, c], v) == PutAll(Put(Put(m, a, v), b, v), [c], v);
  }

  // ----- the scan of calls

  lemma ScanCallIs(t: Tables, item: Item, x: Id)
    requires item.CallItem?
    ensures var t' := ScanCall(t, item);
            && (x in t'.alias <==> x in t.alias || x in IdsOf(item))
            && (x in IdsOf(item) ==> t'.alias[x] == CallKey(item))
            && (x !in IdsOf(item) && x in t.alias ==> t'.alias[x] == t.alias[x])
            && (x in t'.names <==> x in t.names || (x in IdsOf(item) && item.name != ""))
            && (x in IdsOf(item) && item.name != "" ==> t'.names[x] == item.name)
            && (x !in IdsOf(item) && x in t.names ==> t'.names[x] == t.names[x])
            && t'.texts == t.texts && t'.tools == t.tools && t'.siblings == t.siblings
  {
    PutThree(t.alias, CallKey(item), item.callId, item.itemId, CallKey(item));
    PutThree(t.names, CallKey(item), item.callId, item.itemId, item.name);
  }

  predicate NameIs(t: Tables, x: Id, item: Item)
    requires item.CallItem?
  {
    && x in t.alias && t.alias[x] == CallKey(item)
    && (x in t.names <==> item.name != "")
    && (x in t.names ==> t.names[x] == item.name)
  }

  /** The tables know exactly the identifiers of the calls, each under its call and its name. */
  ghost predicate NamesExact(items: seq<Item>, t: Tables) {
    && (forall x :: x in t.alias ==> Taken(items, x))
    && (forall x :: x in t.names ==> Taken(items, x))
    && (forall i, x {:trigger Takes(items[i], x)} :: 0 <= i < |items| && Takes(items[i], x) ==> NameIs(t, x, items[i]))
    && t.texts == map[] && t.tools == map[] && t.siblings == {}
  }

  lemma ExactStep(items: seq<Item>, t: Tables, item: Item)
    requires NamesExact(items, t) && (item.CallItem? ==> Free(items, item))
    ensures NamesExact(items + [item], ScanCall(t, item))
  {
    hide ScanCall, Taken;
    var all, t' := items + [item], ScanCall(t, item);
    assert all[|items|] == item && forall i :: 0 <= i < |items| ==> all[i] == items[i];
    if item.CallItem? {
      ScanCallIs(t, item, NO_ID);
      forall x
        ensures x in t'.alias ==> Taken(all, x)
        ensures x in t'.names ==> Taken(all, x)
      {
        ScanCallIs(t, item, x);
        TakenSnoc(items, item, x);
      }
      forall i, x {:trigger Takes(all[i], x)} | 0 <= i < |all| && Takes(all[i], x)
        ensures NameIs(t', x, all[i])
      {
        ScanCallIs(t, item, x);
        if i < |items| {
          TakenBy(items, i, x);
          assert Takes(items[i], x);
        }
      }
    } else {
      NoCallScanned(t, item);
      forall x
        ensures Taken(all, x) <==> Taken(items, x)
      {
        TakenSnoc(items, item, x);
      }
      forall i, x {:trigger Takes(all[i], x)} | 0 <= i < |all| && Takes(all[i], x)
        ensures NameIs(t', x, all[i])
      {
        assert Takes(items[i], x);
      }
    }
  }

  lemma NoCallScanned(t: Tables, item: Item)
    requires !item.CallItem?
    ensures ScanCall(t, item) == t
  {
  }

  lemma TakenBy(items: seq<Item>, i: nat, x: Id)
    requires i < |items| && Takes(items[i], x)
    ensures Taken(items, x)
  {
  }

  lemma {:induction false} ScanCallsExact(items: seq<Item>)
    requires CallsNamed(items)
    ensures NamesExact(items, ScanCalls(items))
  {
    hide CallsNamed, Free, ScanCall;
    if items == [] {
    } else {
      var before, last := items[..|items| - 1], items[|items| - 1];
      assert items == before + [last];
      NamedPrefix(before, last);
      ScanCallsExact(before);
      ExactStep(before, ScanCalls(before), last);
    }
  }

  // ----- the scan of carriers

  predicate HasCarrier(item: Item) {
    item.ReasoningItem? && item.carrier.Some?
  }

  function ScanCarrier(t: Tables, c: Carrier): Tables {
    var scanned := ScanParts(t, c.parts);
    scanned.(siblings := scanned.siblings + CarrierSiblings(c))
  }

  lemma {:induction false} NoCarrierScanned(t: Tables, items: seq<Item>)
    requires forall i :: 0 <= i < |items| ==> !HasCarrier(items[i])
    ensures ScanCarriers(t, items) == t
  {
    if items != [] {
      NoCarrierScanned(t, items[..|items| - 1]);
    }
  }

  lemma {:induction false} OneCarrierScanned(t: Tables, items: seq<Item>, k: nat)
    requires k < |items| && HasCarrier(items[k])
    requires forall i :: 0 <= i < |items| && i != k ==> !HasCarrier(items[i])
    ensures ScanCarriers(t, items) == ScanCarrier(t, items[k].carrier.value)
  {
    hide ScanParts, CarrierSiblings;
    var n := |items| - 1;
    if k == n {
      NoCarrierScanned(t, items[..n]);
    } else {
      OneCarrierScanned(t, items[..n], k);
    }
  }

  function VerifiedOf(r: Record): Verified
    requires r.CallRec?
  {
    Verified(r.name, Persisted(r.args), r.sig, r.upstreamId)
  }

  predicate CallKnown(t: Tables, r: Record)
    requires r.CallRec?
  {
    r.callId in t.tools && t.tools[r.callId] == VerifiedOf(r)
  }

  predicate TextKnown(t: Tables, r: Record)
    requires r.TextRec?
  {
    if r.sig == "" then r.itemId !in t.texts else r.itemId in t.texts && t.texts[r.itemId] == (r.text, r.sig)
  }

  predicate RecordKnown(t: Tables, r: Record) {
    if r.CallRec? then CallKnown(t, r) else TextKnown(t, r)
  }

  /** Ids of finished turns: call ids and item ids are minted, and no two records share one. */
  predicate ProperIds(parts: seq<Record>) {
    && DistinctItems(parts) && DistinctCalls(parts)
    && forall i :: 0 <= i < |parts| ==> parts[i].itemId != NO_ID
  }

  /** Names that calls gave stay, and aliases are only added. */
  ghost predicate Keeps(t: Tables, t': Tables) {
    t'.names == t.names && forall x :: x in t.alias ==> x in t'.alias && t'.alias[x] == t.alias[x]
  }

  lemma ScanCallPart(t: Tables, p: Record, id: Id)
    requires p.CallRec? && id.CallId? && p.callId.CallId? && p.itemId.ItemId?
    ensures var t' := ScanPart(t, p);
            && CallKnown(t', p)
            && (id in t.tools && id != p.callId ==> id in t'.tools && t'.tools[id] == t.tools[id])
            && Keeps(t, t') && t'.texts == t.texts && t'.siblings == t.siblings
  {
    PutThree(t.tools, p.callId, p.itemId, JoinedId(p.callId, p.itemId), VerifiedOf(p));
  }

  lemma ScanTextPart(t: Tables, p: Record)
    requires p.TextRec? && p.itemId != NO_ID
    ensures var t' := ScanPart(t, p);
            && t' == t.(texts := t'.texts)
            && (p.itemId !in t.texts ==> TextKnown(t', p))
            && (forall x :: x != p.itemId ==> (x in t'.texts <==> x in t.texts) && (x in t.texts ==> t'.texts[x] == t.texts[x]))
  {
  }

  ghost predicate AllKnown(t: Tables, parts: seq<Record>) {
    forall i {:trigger RecordKnown(t, parts[i])} {:trigger parts[i]} :: 0 <= i < |parts| ==> RecordKnown(t, parts[i])
  }

  /** What the tables knew before the records of `parts` were scanned is still there. */
  ghost predicate Adds(t: Tables, t': Tables, parts: seq<Record>) {
    && Keeps(t, t') && t'.siblings == t.siblings
    && (forall x :: x in t.texts ==> x in t'.texts && t'.texts[x] == t.texts[x])
    && (forall x :: x in t'.texts && x !in t.texts ==> exists i :: 0 <= i < |parts| && parts[i].TextRec? && parts[i].itemId == x)
    && (forall x: Id :: x.CallId? && x in t.tools && (forall i :: 0 <= i < |parts| && parts[i].CallRec? ==> parts[i].callId != x) ==>
          x in t'.tools && t'.tools[x] == t.tools[x])
  }

  /** After a carrier is scanned every record is known under its own id, and nothing known before is lost. */
  lemma {:induction false} ScanPartsKnow(t: Tables, parts: seq<Record>)
    requires ProperIds(parts) && forall i :: 0 <= i < |parts| && parts[i].TextRec? ==> parts[i].itemId !in t.texts
    ensures AllKnown(ScanParts(t, parts), parts) && Adds(t, ScanParts(t, parts), parts)
  {
    hide ScanPart, AllKnown, Adds, ProperIds;
    if parts == [] {
      NothingAdded(t);
    } else {
      var n := |parts| - 1;
      ProperPrefix(parts);
      ScanPartsKnow(t, parts[..n]);
      assert parts == parts[..n] + [parts[n]];
      OneMoreKnown(t, ScanParts(t, parts[..n]), parts[..n], parts[n]);
    }
  }

  lemma ProperPrefix(parts: seq<Record>)
    requires ProperIds(parts) && parts != []
    ensures ProperIds(parts[..|parts| - 1])
  {
  }

  lemma NothingAdded(t: Tables)
    ensures AllKnown(t, []) && Adds(t, t, [])
  {
  }

  lemma OneMoreKnown(t: Tables, before: Tables, parts: seq<Record>, last: Record)
    requires ProperIds(parts + [last]) && AllKnown(before, parts) && Adds(t, before, parts)
    requires last.TextRec? ==> last.itemId !in t.texts
    ensures AllKnown(ScanPart(before, last), parts + [last]) && Adds(t, ScanPart(before, last), parts + [last])
  {
    hide ScanPart, VerifiedOf;
    var all, t' := parts + [last], ScanPart(before, last);
    assert all[|parts|] == last && forall i :: 0 <= i < |parts| ==> all[i] == parts[i];
    if last.TextRec? {
      ScanTextPart(before, last);
      TextIsNew(t, before, parts, last);
    } else {
      ScanCallPart(before, last, last.callId);
    }
    forall i {:trigger RecordKnown(t', all[i])} | 0 <= i < |all|
      ensures RecordKnown(t', all[i])
    {
      if i < |parts| {
        assert RecordKnown(before, parts[i]);
        assert parts[i].itemId != last.itemId;
        if last.CallRec? && parts[i].CallRec? {
          ScanCallPart(before, last, parts[i].callId);
        }
      }
    }
    forall x: Id | x.CallId? && x in t.tools && (forall i :: 0 <= i < |all| && all[i].CallRec? ==> all[i].callId != x)
      ensures x in t'.tools && t'.tools[x] == t.tools[x]
    {
      assert forall i :: 0 <= i < |parts| ==> parts[i] == all[i];
      if last.CallRec? {
        ScanCallPart(before, last, x);
      }
    }
    forall x | x in t'.texts && x !in t.texts
      ensures exists i :: 0 <= i < |all| && all[i].TextRec? && all[i].itemId == x
    {
      if x in before.texts {
        var i :| 0 <= i < |parts| && parts[i].TextRec? && parts[i].itemId == x;
        assert all[i].itemId == x;
      } else {
        assert all[|parts|].itemId == x;
      }
    }
  }

  lemma TextIsNew(t: Tables, before: Tables, parts: seq<Record>, last: Record)
    requires ProperIds(parts + [last]) && Adds(t, before, parts) && last.TextRec? && last.itemId !in t.texts
    ensures last.itemId !in before.texts
  {
    var all := parts + [last];
    assert all[|parts|] == last && forall i :: 0 <= i < |parts| ==> all[i] == parts[i] && all[i].itemId != last.itemId;
  }

  // ----- what carriers vouch for

  /** A carrier's record makes a call known under this id. */
  predicate Vouches(p: Record, id: Id) {
    p.CallRec? && id != NO_ID && (id == p.callId || id == p.itemId || id == JoinedId(p.callId, p.itemId) || id == p.upstreamId)
  }

  predicate VouchedIn(parts: seq<Record>, id: Id, v: Verified) {
    exists j :: 0 <= j < |parts| && parts[j].CallRec? && Vouches(parts[j], id) && v == VerifiedOf(parts[j])
  }

  predicate VouchedBy(items: seq<Item>, id: Id, v: Verified) {
    exists x :: 0 <= x < |items| && HasCarrier(items[x]) && VouchedIn(items[x].carrier.value.parts, id, v)
  }

  lemma PartVouches(t: Tables, p: Record, id: Id)
    requires id in ScanPart(t, p).tools
    ensures || (id in t.tools && ScanPart(t, p).tools[id] == t.tools[id])
            || (p.CallRec? && Vouches(p, id) && ScanPart(t, p).tools[id] == VerifiedOf(p))
  {
    hide PutAll, JoinedId;
    if p.CallRec? {
      PutThreeAt(t.tools, p.callId, p.itemId, JoinedId(p.callId, p.itemId), VerifiedOf(p), id);
    }
  }

  lemma PutThreeAt<V>(m: map<Id, V>, a: Id, b: Id, c: Id, v: V, id: Id)
    ensures var m' := PutAll(m, [a, b, c], v);
            id in m' ==> (id in m && m'[id] == m[id]) || (id != NO_ID && (id == a || id == b || id == c) && m'[id] == v)
  {
    PutThree(m, a, b, c, v);
  }

  lemma {:induction false} PartsVouch(t: Tables, parts: seq<Record>, id: Id)
    requires id in ScanParts(t, parts).tools
    ensures (id in t.tools && ScanParts(t, parts).tools[id] == t.tools[id]) || VouchedIn(parts, id, ScanParts(t, parts).tools[id])
  {
    hide ScanPart, Vouches, VerifiedOf;
    if parts != [] {
      var n := |parts| - 1;
      var before := ScanParts(t, parts[..n]);
      PartVouches(before, parts[n], id);
      if id in before.tools && ScanParts(t, parts).tools[id] == before.tools[id] {
        PartsVouch(t, parts[..n], id);
        if VouchedIn(parts[..n], id, before.tools[id]) {
          var j :| 0 <= j < n && parts[..n][j].CallRec? && Vouches(parts[..n][j], id) && before.tools[id] == VerifiedOf(parts[..n][j]);
          assert Vouches(parts[j], id);
        }
      }
    }
  }

  lemma {:induction false} CarriersVouch(t: Tables, items: seq<Item>, id: Id)
    requires t.tools == map[] && id in ScanCarriers(t, items).tools
    ensures VouchedBy(items, id, ScanCarriers(t, items).tools[id])
  {
    hide ScanParts, VouchedIn;
    if items != [] {
      var n := |items| - 1;
      var before := ScanCarriers(t, items[..n]);
      if HasCarrier(items[n]) {
        PartsVouch(before, items[n].carrier.value.parts, id);
      }
      if id in before.tools && ScanCarriers(t, items).tools[id] == before.tools[id] {
        CarriersVouch(t, items[..n], id);
        var x :| 0 <= x < n && HasCarrier(items[..n][x]) && VouchedIn(items[..n][x].carrier.value.parts, id, before.tools[id]);
        assert HasCarrier(items[x]) && VouchedIn(items[x].carrier.value.parts, id, before.tools[id]);
      }
    }
  }

  lemma {:induction false} CacheScanKeepsTools(t: Tables, cache: Cache, items: seq<Item>)
    ensures ScanCache(t, cache, items).tools == t.tools && ScanCache(t, cache, items).texts == t.texts
  {
    if items != [] {
      CacheScanKeepsTools(t, cache, items[..|items| - 1]);
    }
  }

  lemma {:induction false} CallScanKeepsTools(items: seq<Item>)
    ensures ScanCalls(items).tools == map[] && ScanCalls(items).texts == map[]
  {
    if items != [] {
      CallScanKeepsTools(items[..|items| - 1]);
    }
  }

  /** Whatever the tables know of a call, some carrier vouches for. */
  lemma ToolsAreVouched(items: seq<Item>, cache: Cache, id: Id)
    requires id in Scan(items, cache).tools
    ensures VouchedBy(items, id, Scan(items, cache).tools[id])
  {
    hide ScanCache, ScanCarriers, ScanCalls, VouchedBy;
    CallScanKeepsTools(items);
    CacheScanKeepsTools(ScanCarriers(ScanCalls(items), items), cache, items);
    CarriersVouch(ScanCalls(items), items, id);
  }

  predicate TextIn(parts: seq<Record>, id: Id, text: string, sig: string) {
    exists j :: 0 <= j < |parts| && parts[j].TextRec? && parts[j].itemId == id && parts[j].text == text && parts[j].sig == sig
  }

  predicate TextBy(items: seq<Item>, id: Id, text: string, sig: string) {
    exists x :: 0 <= x < |items| && HasCarrier(items[x]) && TextIn(items[x].carrier.value.parts, id, text, sig)
  }

  lemma {:induction false} PartsHoldText(t: Tables, parts: seq<Record>, id: Id)
    requires id in ScanParts(t, parts).texts
    ensures var x := ScanParts(t, parts).texts[id]; (id in t.texts && x == t.texts[id]) || TextIn(parts, id, x.0, x.1)
  {
    if parts != [] {
      var n := |parts| - 1;
      var before, x := ScanParts(t, parts[..n]), ScanParts(t, parts).texts[id];
      if id in before.texts && x == before.texts[id] {
        PartsHoldText(t, parts[..n], id);
        if TextIn(parts[..n], id, x.0, x.1) {
          var j :| 0 <= j < n && parts[..n][j].TextRec? && parts[..n][j].itemId == id && parts[..n][j].text == x.0 && parts[..n][j].sig == x.1;
          assert parts[j].itemId == id;
        }
      } else {
        assert parts[n].itemId == id;
      }
    }
  }

  lemma {:induction false} CarriersHoldText(t: Tables, items: seq<Item>, id: Id)
    requires t.texts == map[] && id in ScanCarriers(t, items).texts
    ensures var x := ScanCarriers(t, items).texts[id]; TextBy(items, id, x.0, x.1)
  {
    hide ScanParts, TextIn;
    if items != [] {
      var n := |items| - 1;
      var before, v := ScanCarriers(t, items[..n]), ScanCarriers(t, items).texts[id];
      if HasCarrier(items[n]) {
        PartsHoldText(before, items[n].carrier.value.parts, id);
      }
      if id in before.texts && v == before.texts[id] {
        CarriersHoldText(t, items[..n], id);
        var x :| 0 <= x < n && HasCarrier(items[..n][x]) && TextIn(items[..n][x].carrier.value.parts, id, v.0, v.1);
        assert HasCarrier(items[x]) && TextIn(items[x].carrier.value.parts, id, v.0, v.1);
      }
    }
  }

  /** Whatever the tables know of a text, some carrier holds with this very signature. */
  lemma TextsAreVouched(items: seq<Item>, cache: Cache, id: Id)
    requires id in Scan(items, cache).texts
    ensures var x := Scan(items, cache).texts[id]; TextBy(items, id, x.0, x.1)
  {
    hide ScanCache, ScanCarriers, ScanCalls, TextBy;
    CallScanKeepsTools(items);
    CacheScanKeepsTools(ScanCarriers(ScanCalls(items), items), cache, items);
    CarriersHoldText(ScanCalls(items), items, id);
  }

  // ----- the scan of the cache, and the answered calls

  predicate Mentions(t: Tables, item: Item) {
    MentionedId(item) == NO_ID || (MentionedId(item) in t.alias && t.alias[MentionedId(item)] != NO_ID)
  }

  /** Where every mentioned id is known, the cache adds no names. */
  lemma {:induction false} KnownCacheScanned(t: Tables, cache: Cache, items: seq<Item>)
    requires forall i :: 0 <= i < |items| ==> Mentions(t, items[i])
    ensures ScanCache(t, cache, items) == t
  {
    hide GetTool;
    if items != [] {
      KnownCacheScanned(t, cache, items[..|items| - 1]);
      assert Mentions(t, items[|items| - 1]);
    }
  }

  /** Calls and results of a well-paired list mention only ids that the call scan knows. */
  lemma AllMentioned(h: seq<Item>, t: Tables)
    requires WellPaired(h) && NamesExact(h, ScanCalls(h)) && Keeps(ScanCalls(h), t)
    ensures forall m :: 0 <= m < |h| ==> Mentions(t, h[m])
  {
    hide ScanCalls, CallsNamed;
    forall m | 0 <= m < |h|
      ensures Mentions(t, h[m])
    {
      var id := MentionedId(h[m]);
      if h[m].ResultItem? {
        var i :| 0 <= i < m && OwnedBy(h, m, i);
        assert Takes(h[i], id);
        KeyIsId(h, i);
      } else if h[m].CallItem? && id != NO_ID {
        assert Takes(h[m], id);
        KeyIsId(h, m);
      }
    }
  }

  lemma {:induction false} ScanCarriersConcat(t: Tables, a: seq<Item>, b: seq<Item>)
    ensures ScanCarriers(t, a + b) == ScanCarriers(ScanCarriers(t, a), b)
  {
    hide ScanParts, CarrierSiblings;
    if b == [] {
      assert a + b == a;
    } else {
      ScanCarriersConcat(t, a, b[..|b| - 1]);
      assert (a + b)[..|a + b| - 1] == a + b[..|b| - 1];
    }
  }

  lemma {:induction false} AnsweredConcat(t: Tables, a: seq<Item>, b: seq<Item>)
    ensures Answered(t, a + b) == Answered(t, a) + Answered(t, b)
  {
    if b == [] {
      assert a + b == a;
    } else {
      AnsweredConcat(t, a, b[..|b| - 1]);
      assert (a + b)[..|a + b| - 1] == a + b[..|b| - 1];
    }
  }

  lemma {:induction false} AnsweredHas(t: Tables, items: seq<Item>, k: nat)
    requires k < |items| && items[k].ResultItem? && items[k].callId != NO_ID
    ensures AliasOr(t, items[k].callId) in Answered(t, items)
  {
    if k < |items| - 1 {
      AnsweredHas(t, items[..|items| - 1], k);
    }
  }
}
