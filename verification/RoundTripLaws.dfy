/** One replayed turn inside a history: what the scans know of it, and what its items emit. */
module RoundTripLaws {
  import opened Core
  import opened Turns
  import opened Outputs
  import opened TurnLaws
  import opened Caches
  import opened Provenance
  import opened Exchange
  import opened Normalize
  import opened Translate
  import opened Converter
  import opened Pairing
  import opened ScanLaws
  import opened RoundTrip

  // ----- the history is well paired

  lemma {:induction false} ResultsAre(parts: seq<Record>, output: Id -> string)
    requires DistinctCalls(parts)
    ensures ResultsHold(parts, Results(parts, output))
  {
    if parts != [] {
      var n := |parts| - 1;
      var before, rs := Results(parts[..n], output), Results(parts, output);
      ResultsAre(parts[..n], output);
      assert forall i :: 0 <= i < n ==> parts[..n][i] == parts[i];
      assert forall q :: 0 <= q < |before| ==> rs[q] == before[q];
      forall q {:trigger ResultAt(parts, rs, q)} | 0 <= q < |rs|
        ensures ResultAt(parts, rs, q)
      {
        if q < |before| {
          assert ResultAt(parts[..n], before, q);
          var i :| 0 <= i < n && parts[..n][i].CallRec? && parts[..n][i].callId == before[q].callId;
          assert parts[i].callId == rs[q].callId;
        }
      }
      forall q | 0 <= q < |before|
        ensures rs[q].ResultItem? && (parts[n].CallRec? ==> rs[q].callId != parts[n].callId)
      {
        assert ResultAt(parts[..n], before, q);
      }
      forall i | 0 <= i < |parts| && parts[i].CallRec?
        ensures Answers(rs, parts[i].callId)
      {
        if i < n {
          assert Answers(before, parts[..n][i].callId);
        } else {
          assert rs[|before|].callId == parts[i].callId;
        }
      }
    }
  }

  ghost predicate ResultsHold(parts: seq<Record>, rs: seq<Item>) {
    && (forall q {:trigger ResultAt(parts, rs, q)} :: 0 <= q < |rs| ==> ResultAt(parts, rs, q))
    && (forall q, q' :: 0 <= q < q' < |rs| ==> rs[q].ResultItem? && rs[q'].ResultItem? && rs[q].callId != rs[q'].callId)
    && (forall i :: 0 <= i < |parts| && parts[i].CallRec? ==> Answers(rs, parts[i].callId))
  }

  predicate ResultAt(parts: seq<Record>, rs: seq<Item>, q: nat)
    requires q < |rs|
  {
    rs[q].ResultItem? && OfCall(parts, rs[q].callId)
  }

  predicate OfCall(parts: seq<Record>, id: Id) {
    exists i :: 0 <= i < |parts| && parts[i].CallRec? && parts[i].callId == id
  }

  predicate Answers(rs: seq<Item>, id: Id) {
    exists q :: 0 <= q < |rs| && rs[q].ResultItem? && rs[q].callId == id
  }

  lemma SlotCall(d: Draft, c: Client, p: nat)
    requires p < Slots(d, c)
    ensures var item := SlotItem(d, c, p);
            && !item.ResultItem?
            && (item.CallItem? <==> !AtGap(d, c, p) && d.parts[Done(d, c, p)].CallRec?)
            && (item.CallItem? ==> item.callId == d.parts[Done(d, c, p)].callId && item.itemId == d.parts[Done(d, c, p)].itemId)
  {
    hide Carried;
    SlotFacts(d, c, p, 0);
  }

  lemma HistoryCall(d: Draft, c: Client, h: seq<Item>, x: nat)
    requires Shape(d, c, h) && x < |h| && h[x].CallItem? && DistinctCalls(d.parts)
    ensures 0 < x <= Slots(d, c) && !AtGap(d, c, x - 1) && Done(d, c, x - 1) < |d.parts|
    ensures d.parts[Done(d, c, x - 1)].CallRec? && h[x] == Sent(d.parts[Done(d, c, x - 1)], c)
    ensures SlotOf(d, c, Done(d, c, x - 1)) == x - 1
    ensures h[x].callId.CallId? && h[x].itemId.ItemId?
  {
    hide Sent, Slots, AtGap, Carried, Done, Results, DistinctCalls;
    if x > Slots(d, c) {
      assert h[x] == h[1 + Slots(d, c)..][x - 1 - Slots(d, c)];
      OnlyResults(d.parts, c.output, x - 1 - Slots(d, c));
    } else if x > 0 {
      SlotFacts(d, c, x - 1, 0);
      assert h[1 + (x - 1)] == SlotItem(d, c, x - 1);
      ProperCall(d, Done(d, c, x - 1), c);
    }
  }

  lemma ProperCall(d: Draft, i: nat, c: Client)
    requires i < |d.parts| && DistinctCalls(d.parts)
    ensures Sent(d.parts[i], c).CallItem? ==>
              d.parts[i].CallRec? && Sent(d.parts[i], c).callId == d.parts[i].callId && d.parts[i].callId.CallId?
              && Sent(d.parts[i], c).itemId == d.parts[i].itemId && d.parts[i].itemId.ItemId?
  {
  }

  lemma HistoryNamed(d: Draft, c: Client, h: seq<Item>)
    requires Shape(d, c, h) && DistinctItems(d.parts) && DistinctCalls(d.parts)
    ensures CallsNamed(h)
  {
    hide Shape;
    forall x | 0 <= x < |h| && h[x].CallItem?
      ensures IdsOf(h[x]) != {}
    {
      HistoryCall(d, c, h, x);
      assert h[x].callId in IdsOf(h[x]);
    }
    forall x, y {:trigger Apart(h, x, y)} | 0 <= x < y < |h|
      ensures Apart(h, x, y)
    {
      if h[x].CallItem? && h[y].CallItem? {
        HistoryCall(d, c, h, x);
        HistoryCall(d, c, h, y);
        ProperCall(d, Done(d, c, x - 1), c);
        ProperCall(d, Done(d, c, y - 1), c);
      }
    }
  }

  lemma HistoryResult(d: Draft, c: Client, h: seq<Item>, x: nat)
    requires Shape(d, c, h) && x < |h| && h[x].ResultItem?
    ensures Slots(d, c) < x && x - 1 - Slots(d, c) < |Results(d.parts, c.output)|
    ensures h[x] == Results(d.parts, c.output)[x - 1 - Slots(d, c)]
  {
    hide Results, Slots, SlotItem;
    if 0 < x <= Slots(d, c) {
      assert h[1 + (x - 1)] == SlotItem(d, c, x - 1);
      SlotCall(d, c, x - 1);
    } else if x > 0 {
      assert h[x] == h[1 + Slots(d, c)..][x - 1 - Slots(d, c)];
    }
  }

  lemma CallInHistory(d: Draft, c: Client, h: seq<Item>, i: nat)
    requires Shape(d, c, h) && i < |d.parts| && d.parts[i].CallRec?
    ensures SlotOf(d, c, i) < Slots(d, c) && 1 + SlotOf(d, c, i) < |h| && h[1 + SlotOf(d, c, i)] == Sent(d.parts[i], c)
    ensures h[1 + SlotOf(d, c, i)].CallItem? && h[1 + SlotOf(d, c, i)].callId == d.parts[i].callId
  {
    SlotFacts(d, c, 0, i);
    assert h[1 + SlotOf(d, c, i)] == SlotItem(d, c, SlotOf(d, c, i));
  }

  lemma HistoryPaired(d: Draft, c: Client, h: seq<Item>)
    requires Shape(d, c, h) && DistinctItems(d.parts) && DistinctCalls(d.parts)
    ensures WellPaired(h)
  {
    hide Shape, CallsNamed, Results, Slots, SlotOf, DistinctCalls, OfCall, Answers;
    HistoryNamed(d, c, h);
    ResultsAre(d.parts, c.output);
    forall k | 0 <= k < |h| && h[k].ResultItem?
      ensures exists i :: 0 <= i < k && OwnedBy(h, k, i)
    {
      HistoryResult(d, c, h, k);
      assert ResultAt(d.parts, Results(d.parts, c.output), k - 1 - Slots(d, c));
      OwnerOfResult(d, c, h, k);
    }
    forall k, l, i | 0 <= k < l < |h| && 0 <= i < |h|
      ensures !(OwnedBy(h, k, i) && OwnedBy(h, l, i))
    {
      if OwnedBy(h, k, i) && OwnedBy(h, l, i) {
        HistoryResult(d, c, h, k);
        HistoryResult(d, c, h, l);
        OwnedById(d, c, h, k, i);
        OwnedById(d, c, h, l, i);
      }
    }
  }

  lemma OwnerOfResult(d: Draft, c: Client, h: seq<Item>, k: nat)
    requires Shape(d, c, h) && DistinctCalls(d.parts) && k < |h| && h[k].ResultItem? && Slots(d, c) < k
    requires OfCall(d.parts, h[k].callId)
    ensures exists i :: 0 <= i < k && OwnedBy(h, k, i)
  {
    hide Shape, Slots, SlotOf, Sent;
    var i :| 0 <= i < |d.parts| && d.parts[i].CallRec? && d.parts[i].callId == h[k].callId;
    CallInHistory(d, c, h, i);
    assert OwnedBy(h, k, 1 + SlotOf(d, c, i));
  }

  lemma OwnedById(d: Draft, c: Client, h: seq<Item>, k: nat, i: nat)
    requires Shape(d, c, h) && DistinctCalls(d.parts) && k < |h| && i < |h| && OwnedBy(h, k, i)
    ensures h[k].callId == h[i].callId
  {
    hide Shape, Slots, Done, AtGap, SlotOf;
    HistoryCall(d, c, h, i);
    HistoryResult(d, c, h, k);
    ResultsAre(d.parts, c.output);
    assert ResultAt(d.parts, Results(d.parts, c.output), k - 1 - Slots(d, c));
    var j :| 0 <= j < |d.parts| && d.parts[j].CallRec? && d.parts[j].callId == h[k].callId;
  }

  // ----- what the scans know

  lemma CarrierPlace(d: Draft, c: Client, h: seq<Item>)
    requires Shape(d, c, h)
    ensures forall x :: 0 <= x < |h| && HasCarrier(h[x]) ==> Carried(d, c) && x == 1 + Gap(d)
    ensures Carried(d, c) ==> 1 + Gap(d) < |h| && h[1 + Gap(d)] == Item.ReasoningItem(Some(CarrierOf(d, c)))
  {
    hide Results, CarrierOf, Carried;
    forall x | 0 <= x < |h| && HasCarrier(h[x])
      ensures Carried(d, c) && x == 1 + Gap(d)
    {
      if 0 < x <= Slots(d, c) {
        assert h[1 + (x - 1)] == SlotItem(d, c, x - 1);
      } else if x > 0 {
        assert h[x] == Results(d.parts, c.output)[x - 1 - Slots(d, c)];
        OnlyResults(d.parts, c.output, x - 1 - Slots(d, c));
      }
    }
    if Carried(d, c) {
      assert h[1 + Gap(d)] == SlotItem(d, c, Gap(d));
    }
  }

  lemma {:induction false} OnlyResults(parts: seq<Record>, output: Id -> string, q: nat)
    requires q < |Results(parts, output)|
    ensures Results(parts, output)[q].ResultItem?
  {
    if q < |Results(parts[..|parts| - 1], output)| {
      OnlyResults(parts[..|parts| - 1], output, q);
    }
  }

  predicate NameKnown(t: Tables, r: Record)
    requires r.CallRec?
  {
    && r.callId in t.alias && t.alias[r.callId] == r.callId
    && (r.callId in t.names <==> WireName(r.name) != "")
    && (r.callId in t.names ==> t.names[r.callId] == WireName(r.name))
  }

  /** No carrier vouches for the call under any of its ids. */
  predicate Unvouched(t: Tables, r: Record)
    requires r.CallRec?
  {
    r.callId !in t.tools && r.itemId !in t.tools && Joined(r.callId, r.itemId) !in t.tools
  }

  /** What the scans of a replayed turn leave for one record. */
  predicate ReplayKnown(d: Draft, c: Client, t: Tables, r: Record) {
    if r.CallRec? then NameKnown(t, r) && (Carried(d, c) ==> CallKnown(t, r)) && (c.carries.Dropped? ==> Unvouched(t, r))
    else if Carried(d, c) then TextKnown(t, r)
    else r.itemId !in t.texts
  }

  /** Of the turn's calls the tables know the siblings that its carrier records. */
  ghost predicate SiblingsKnown(d: Draft, c: Client, t: Tables) {
    forall l, x :: 0 <= l < |d.parts| && d.parts[l].CallRec? ==>
      ((d.parts[l].callId, x) in t.siblings <==> Carried(d, c) && (d.parts[l].callId, x) in CarrierSiblings(CarrierOf(d, c)))
  }

  ghost predicate TablesKnow(d: Draft, c: Client, t: Tables) {
    && (forall i {:trigger ReplayKnown(d, c, t, d.parts[i])} :: 0 <= i < |d.parts| ==> ReplayKnown(d, c, t, d.parts[i]))
    && NO_ID !in t.texts && SiblingsKnown(d, c, t)
  }

  lemma Uncarried(d: Draft, i: nat)
    requires !NeedsReasoning(TurnOf(d)) && DistinctItems(d.parts) && DistinctCalls(d.parts) && i < |d.parts|
    ensures d.parts[i].sig == ""
  {
    hide ToolSigs, TextSigs;
    TablesExact(d);
  }

  lemma ProperCallId(d: Draft, i: nat)
    requires DistinctCalls(d.parts) && i < |d.parts| && d.parts[i].CallRec?
    ensures d.parts[i].callId.CallId? && d.parts[i].itemId.ItemId?
  {
  }

  lemma SameTables(t: Tables, t': Tables, r: Record)
    requires t'.tools == t.tools && t'.texts == t.texts && RecordKnown(t, r)
    ensures RecordKnown(t', r)
  {
  }

  // ----- one replayed call

  predicate SentAs(item: Item, r: Record) {
    && r.CallRec? && r.callId.CallId? && r.itemId.ItemId?
    && item.CallItem?
    && item == CallItem(r.callId, r.itemId, WireName(r.name), r.args, item.sig, false)
    && (item.sig == "" || item.sig == r.sig)
  }

  lemma ContentIsSame(r: Record, item: Item)
    requires SentAs(item, r)
    ensures SameCall(VerifiedOf(r).name, VerifiedOf(r).args, item) <==> WireName(r.name) == r.name
  {
    hide WireName;
  }

  lemma CachedIsSame(rec: ToolRecord, r: Record, item: Item)
    requires SentAs(item, r) && RecordOf(rec, r)
    ensures SameCall(rec.name, rec.args, item) <==> WireName(r.name) == r.name
    ensures rec.sig == r.sig && !rec.legacy && rec.upstreamId == r.upstreamId && rec.name == r.name && rec.bridgeId == r.callId
  {
    hide WireName;
  }

  /** A carrier vouches for the call, or none does and the cache remembers it. */
  predicate CallHeld(t: Tables, cache: Cache, r: Record)
    requires r.CallRec?
  {
    CallKnown(t, r) || (Unvouched(t, r) && GetTool(cache, r.callId).Some?)
  }

  lemma HeldVerified(t: Tables, cache: Cache, r: Record)
    requires r.CallRec? && r.callId.CallId? && r.itemId.ItemId? && CallHeld(t, cache, r)
    ensures var v := FindVerified(t, r.callId, r.itemId);
            if CallKnown(t, r) then v == Some(VerifiedOf(r)) else v.None? && FindCached(cache, r.callId, r.itemId).Some?
  {
    hide GetTool, VerifiedOf;
  }

  lemma CachedCall(cache: Cache, r: Record)
    requires r.CallRec? && r.callId.CallId? && r.itemId.ItemId? && Backed(cache, r)
    ensures var rec := FindCached(cache, r.callId, r.itemId); rec.Some? ==> RecordOf(rec.value, r)
    ensures forall x :: x in {r.callId, r.itemId, JoinedId(r.callId, r.itemId)} ==> CachedSig(cache, x) == "" || CachedSig(cache, x) == r.sig
  {
    hide GetTool, RecordOf;
    assert forall rec :: RecordOf(rec, r) ==> rec.sig == r.sig by { StoredSig(r); }
  }

  lemma StoredSig(r: Record)
    requires r.CallRec?
    ensures forall rec :: RecordOf(rec, r) ==> rec.sig == r.sig
  {
  }

  /** What is known of a replayed call, in either way: its own content and its own signature. */
  lemma OwnEvidenceIs(t: Tables, cache: Cache, answered: set<Id>, r: Record, item: Item)
    requires SentAs(item, r) && CallHeld(t, cache, r) && Backed(cache, r)
    ensures var same, ev := WireName(r.name) == r.name, OwnEvidence(t, cache, answered, item);
            && (ev.carrierMismatch || ev.cacheMismatch <==> !same)
            && (same ==> NativeSig(ev) == r.sig && !Contradictory(ev) && (ev.hasCarrier || ev.hasCache))
            && !ev.recordedSibling && ev.hasMatchingOutput == (r.callId in answered) && !ev.nativeTurnUnverified && !ev.affirmativelyForeign
  {
    hide SameCall, WireName, FindCached, FindVerified, RecordOf, Backed;
    ContentIsSame(r, item);
    CachedCall(cache, r);
    HeldVerified(t, cache, r);
    var rec := FindCached(cache, r.callId, r.itemId);
    if rec.Some? {
      CachedIsSame(rec.value, r, item);
    }
  }

  lemma NotConflicted(cache: Cache, r: Record, item: Item)
    requires SentAs(item, r) && Backed(cache, r)
    ensures !Conflicted(cache, item)
  {
    hide WireName, GetTool;
  }

  /** The signature the group's lead lends to a call; empty without a verified lead. */
  function Lent(t: Tables, cache: Cache, r: Record, lead: Id): string
    requires r.CallRec?
  {
    if lead != NO_ID && lead != r.callId && RecordedSibling(t, cache, lead, r.callId, r.itemId) then LeadSig(t, cache, lead)
    else ""
  }

  lemma CallComesBack(t: Tables, cache: Cache, answered: set<Id>, r: Record, item: Item, lead: Id)
    requires SentAs(item, r) && CallHeld(t, cache, r) && r.callId in answered && Backed(cache, r)
    ensures var sent := EmitCall(t, cache, answered, item, lead);
            && (sent.Ok? <==> WireName(r.name) == r.name && (r.sig != "" || Lent(t, cache, r, lead) != ""))
            && (sent.Ok? ==> sent.value == CallPart(r.name, r.args, OutId(r), if r.sig != "" then r.sig else Lent(t, cache, r, lead)))
  {
    hide WireName, FindCached, RecordedSibling, LeadSig, OwnEvidence, Conflicted, Backed, RecordOf, CallHeld, OutboundId;
    OwnEvidenceIs(t, cache, answered, r, item);
    NotConflicted(cache, r, item);
    OutboundIs(t, cache, r, item);
    assert CallKey(item) == r.callId;
  }

  lemma OutboundIs(t: Tables, cache: Cache, r: Record, item: Item)
    requires SentAs(item, r) && CallHeld(t, cache, r) && Backed(cache, r)
    ensures OutboundId(t, cache, item) == OutId(r)
  {
    hide WireName, FindCached, FindVerified, Backed;
    CachedCall(cache, r);
    HeldVerified(t, cache, r);
  }

  lemma GroupSigIs(t: Tables, cache: Cache, r: Record, item: Item)
    requires SentAs(item, r) && CallHeld(t, cache, r) && Backed(cache, r)
    ensures GroupSig(t, cache, item) == if WireName(r.name) == r.name then r.sig else ""
  {
    hide WireName, FindCached, FindVerified, SameCall, CachedSig, RecordOf, Backed;
    ContentIsSame(r, item);
    CachedCall(cache, r);
    HeldVerified(t, cache, r);
    var rec := FindCached(cache, r.callId, r.itemId);
    if rec.Some? {
      CachedIsSame(rec.value, r, item);
    }
  }

  // ----- siblings

  /** A call after the first one. */
  predicate LaterCall(parts: seq<Record>, id: Id) {
    exists i, f :: 0 <= f < i < |parts| && FirstCall(parts) == Some(f) && parts[i].CallRec? && parts[i].callId == id
  }

  predicate InTail(ids: seq<Id>, id: Id) {
    exists j :: 1 <= j < |ids| && ids[j] == id
  }

  lemma {:induction false} CallIdsAre(parts: seq<Record>, id: Id)
    ensures FirstCall(parts).None? <==> CallIds(parts) == []
    ensures FirstCall(parts).Some? ==> CallIds(parts)[0] == parts[FirstCall(parts).value].callId
    ensures InTail(CallIds(parts), id) <==> LaterCall(parts, id)
  {
    hide LaterCall, InTail;
    if parts == [] {
      TailOfNothing(parts, id);
    } else {
      var n := |parts| - 1;
      CallIdsAre(parts[..n], id);
      if parts[n].CallRec? {
        TailSnoc(CallIds(parts[..n]), parts[n].callId, id);
      } else {
        assert CallIds(parts) == CallIds(parts[..n]);
      }
      LaterSnoc(parts, id);
    }
  }

  lemma TailOfNothing(parts: seq<Record>, id: Id)
    requires parts == []
    ensures !InTail(CallIds(parts), id) && !LaterCall(parts, id)
  {
  }

  lemma TailSnoc(ids: seq<Id>, x: Id, id: Id)
    ensures InTail(ids + [x], id) <==> InTail(ids, id) || (ids != [] && x == id)
  {
    assert forall j :: 0 <= j < |ids| ==> (ids + [x])[j] == ids[j];
    assert (ids + [x])[|ids|] == x;
  }

  lemma LaterSnoc(parts: seq<Record>, id: Id)
    requires parts != []
    ensures var n := |parts| - 1;
            LaterCall(parts, id) <==>
            LaterCall(parts[..n], id) || (FirstCall(parts[..n]).Some? && parts[n].CallRec? && parts[n].callId == id)
  {
    var n := |parts| - 1;
    assert forall i :: 0 <= i < n ==> parts[..n][i] == parts[i];
    if LaterCall(parts[..n], id) {
      var i, f :| 0 <= f < i < n && FirstCall(parts[..n]) == Some(f) && parts[..n][i].CallRec? && parts[..n][i].callId == id;
      assert parts[i].callId == id;
    }
    if LaterCall(parts, id) {
      var i, f :| 0 <= f < i < |parts| && FirstCall(parts) == Some(f) && parts[i].CallRec? && parts[i].callId == id;
      assert FirstCall(parts[..n]) == Some(f);
      assert i < n ==> parts[..n][i].callId == id;
    }
  }

  lemma CarrierSiblingsAre(d: Draft, c: Client, lead: Id, id: Id)
    ensures (lead, id) in CarrierSiblings(CarrierOf(d, c)) <==>
            FirstCall(d.parts).Some? && lead == d.parts[FirstCall(d.parts).value].callId && LaterCall(d.parts, id)
  {
    hide ToolSigs, TextSigs, Order, CallIds, FirstCall, LaterCall;
    CallIdsAre(d.parts, id);
    var ids, s := CallIds(d.parts), Siblings(d.parts);
    if InTail(ids, id) && lead == ids[0] {
      var j :| 1 <= j < |ids| && ids[j] == id;
      assert lead in s && s[lead][j - 1] == id;
    }
    if (lead, id) in CarrierSiblings(CarrierOf(d, c)) {
      var j :| 0 <= j < |s[lead]| && s[lead][j] == id;
      assert ids[j + 1] == id;
    }
  }

  lemma LaterIs(parts: seq<Record>, i: nat)
    requires DistinctCalls(parts) && i < |parts| && parts[i].CallRec?
    ensures LaterCall(parts, parts[i].callId) <==> FirstCall(parts).Some? && FirstCall(parts).value < i
    ensures !LaterCall(parts, parts[i].itemId)
  {
  }

  /** The siblings on record: with a carrier the first call leads all later ones, and what the cache adds. */
  lemma SiblingsAre(d: Draft, c: Client, t: Tables, cache: Cache, l: nat, i: nat)
    requires TablesKnow(d, c, t) && DistinctCalls(d.parts)
    requires l < |d.parts| && d.parts[l].CallRec? && i < |d.parts| && d.parts[i].CallRec?
    ensures RecordedSibling(t, cache, d.parts[l].callId, d.parts[i].callId, d.parts[i].itemId) <==>
            SiblingOf(cache, d.parts, Carried(d, c), l, i)
  {
    hide DistinctCalls, CarrierSiblings, CarrierOf, LaterCall, FirstCall, Carried, IsVerifiedSibling;
    LaterIs(d.parts, i);
    CarrierSiblingsAre(d, c, d.parts[l].callId, d.parts[i].callId);
    CarrierSiblingsAre(d, c, d.parts[l].callId, d.parts[i].itemId);
    ProperCallId(d, i);
    if FirstCall(d.parts).Some? {
      SameCallId(d.parts, l, FirstCall(d.parts).value);
    }
  }

  lemma SameCallId(parts: seq<Record>, i: nat, j: nat)
    requires DistinctCalls(parts) && i < |parts| && j < |parts| && parts[i].CallRec? && parts[j].CallRec?
    ensures parts[i].callId == parts[j].callId <==> i == j
  {
  }

  // ----- the lead of a replayed call

  /** The call can lead its group. */
  predicate Eligible(t: Tables, cache: Cache, item: Item) {
    item.CallItem? && GroupSig(t, cache, item) != "" && CallKey(item) != NO_ID
  }

  lemma {:induction false} LeadAt(t: Tables, cache: Cache, h: seq<Item>, lo: nat, m: nat, hi: nat)
    requires lo <= m < hi <= |h| && Eligible(t, cache, h[m]) && forall x :: lo <= x < m ==> !Eligible(t, cache, h[x])
    ensures LeadIn(t, cache, h, lo, hi) == CallKey(h[m])
    decreases m - lo
  {
    hide GroupSig;
    if lo < m {
      LeadAt(t, cache, h, lo + 1, m, hi);
    }
  }

  lemma {:induction false} NoLead(t: Tables, cache: Cache, h: seq<Item>, lo: nat, hi: nat)
    requires lo <= hi <= |h| && forall x :: lo <= x < hi ==> !Eligible(t, cache, h[x])
    ensures LeadIn(t, cache, h, lo, hi) == NO_ID
    decreases hi - lo
  {
    hide GroupSig;
    if lo < hi {
      NoLead(t, cache, h, lo + 1, hi);
    }
  }

  lemma {:induction false} RunStartIs(h: seq<Item>, y: nat)
    requires y < |h|
    ensures RunBetween(h, RunStart(h, y), y) && (RunStart(h, y) > 0 ==> !InRun(h[RunStart(h, y) - 1]))
  {
    hide InRun;
    if y > 0 && InRun(h[y - 1]) {
      RunStartIs(h, y - 1);
    }
  }

  /** The run of item `y`: what is joined to it by calls and reasoning items alone. */
  lemma RunIs(h: seq<Item>, y: nat, m: nat)
    requires y < |h| && m < |h| && InRun(h[y])
    ensures RunStart(h, y) <= m < RunEnd(h, y) <==> RunBetween(h, m, y + 1) && RunBetween(h, y, m + 1)
  {
    hide InRun, RunStart, RunEnd;
    RunStartIs(h, y);
    RunEndInRun(h, y);
  }

  predicate RunBetween(h: seq<Item>, lo: nat, hi: nat) {
    hi <= |h| && forall x :: lo <= x < hi ==> InRun(h[x])
  }

  lemma SlotInRun(d: Draft, c: Client, h: seq<Item>, p: nat)
    requires Shape(d, c, h) && p < Slots(d, c)
    ensures 1 + p < |h|
    ensures InRun(h[1 + p]) <==> AtGap(d, c, p) || (Done(d, c, p) < |d.parts| && d.parts[Done(d, c, p)].CallRec?)
  {
    hide Carried, CarrierOf, Results;
    SlotFacts(d, c, p, 0);
    assert h[1 + p] == SlotItem(d, c, p);
  }

  /** Between two calls without a text between them the history is one run. */
  lemma OneRun(d: Draft, c: Client, h: seq<Item>, f: nat, i: nat)
    requires Shape(d, c, h) && f <= i < |d.parts| && forall m :: f <= m < i ==> d.parts[m].CallRec?
    ensures RunBetween(h, 1 + SlotOf(d, c, f), 1 + SlotOf(d, c, i))
  {
    hide Shape, Slots, SlotOf, Done, AtGap, InRun;
    SlotFacts(d, c, 0, i);
    ShapeSize(d, c, h);
    forall x | 1 + SlotOf(d, c, f) <= x < 1 + SlotOf(d, c, i)
      ensures InRun(h[x])
    {
      SlotInRun(d, c, h, x - 1);
      if !AtGap(d, c, x - 1) {
        RecordBetween(d, c, f, i, x - 1);
      }
    }
  }

  lemma RecordBetween(d: Draft, c: Client, f: nat, i: nat, p: nat)
    requires SlotOf(d, c, f) <= p < SlotOf(d, c, i) && !AtGap(d, c, p)
    ensures f <= Done(d, c, p) < i
  {
    hide Carried;
  }

  lemma NoTextInRun(d: Draft, c: Client, h: seq<Item>, f: nat, i: nat, m: nat)
    requires Shape(d, c, h) && f <= m < i < |d.parts| && RunBetween(h, 1 + SlotOf(d, c, f), 1 + SlotOf(d, c, i))
    ensures d.parts[m].CallRec?
  {
    hide Carried, Shape;
    SlotFacts(d, c, 0, m);
    SlotInRun(d, c, h, SlotOf(d, c, m));
    assert 1 + SlotOf(d, c, f) <= 1 + SlotOf(d, c, m) < 1 + SlotOf(d, c, i);
  }

  lemma SentCall(d: Draft, c: Client, h: seq<Item>, i: nat)
    requires Shape(d, c, h) && DistinctCalls(d.parts) && i < |d.parts| && d.parts[i].CallRec?
    ensures 1 + SlotOf(d, c, i) < |h| && SentAs(h[1 + SlotOf(d, c, i)], d.parts[i]) && CallKey(h[1 + SlotOf(d, c, i)]) == d.parts[i].callId
  {
    hide Shape, SlotOf, Slots, WireName;
    CallInHistory(d, c, h, i);
    ProperCallId(d, i);
  }

  lemma HeldCall(d: Draft, c: Client, h: seq<Item>, t: Tables, cache: Cache, i: nat)
    requires Known(d, c, h, t, cache) && Held(d, c) && i < |d.parts| && d.parts[i].CallRec?
    ensures CallHeld(t, cache, d.parts[i])
  {
    hide Carried, CallKnown, NameKnown, CarrierSiblings, CarrierOf, Shape, DistinctCalls, Backs, SiblingsKnown, GetTool;
    assert ReplayKnown(d, c, t, d.parts[i]);
  }

  lemma CallInRun(d: Draft, c: Client, h: seq<Item>, i: nat)
    requires Shape(d, c, h) && i < |d.parts| && d.parts[i].CallRec?
    ensures 1 + SlotOf(d, c, i) < |h| && InRun(h[1 + SlotOf(d, c, i)])
  {
    hide Shape, SlotOf, Slots;
    CallInHistory(d, c, h, i);
  }

  /** Calls of the turn are in one run of the history exactly when they are adjacent in the turn. */
  lemma AdjacentRun(d: Draft, c: Client, h: seq<Item>, i: nat, k: nat)
    requires Shape(d, c, h) && i < |d.parts| && k < |d.parts| && d.parts[i].CallRec? && d.parts[k].CallRec?
    ensures 1 + SlotOf(d, c, i) < |h| && 1 + SlotOf(d, c, k) < |h|
    ensures RunStart(h, 1 + SlotOf(d, c, i)) <= 1 + SlotOf(d, c, k) < RunEnd(h, 1 + SlotOf(d, c, i)) <==> Adjacent(d.parts, i, k)
  {
    hide Shape, SlotOf, InRun, RunStart, RunEnd;
    CallInRun(d, c, h, i);
    CallInRun(d, c, h, k);
    RunIs(h, 1 + SlotOf(d, c, i), 1 + SlotOf(d, c, k));
    if i <= k {
      SlotsOrdered(d, c, i, k);
      JoinedCalls(d, c, h, i, k);
    } else {
      SlotsOrdered(d, c, k, i);
      JoinedCalls(d, c, h, k, i);
    }
  }

  lemma JoinedCalls(d: Draft, c: Client, h: seq<Item>, f: nat, i: nat)
    requires Shape(d, c, h) && f <= i < |d.parts| && d.parts[i].CallRec?
    ensures RunBetween(h, 1 + SlotOf(d, c, f), 2 + SlotOf(d, c, i)) <==> forall m :: f <= m <= i ==> d.parts[m].CallRec?
  {
    hide Shape, SlotOf, InRun;
    CallInRun(d, c, h, i);
    if forall m :: f <= m <= i ==> d.parts[m].CallRec? {
      OneRun(d, c, h, f, i);
    }
    if RunBetween(h, 1 + SlotOf(d, c, f), 2 + SlotOf(d, c, i)) {
      assert RunBetween(h, 1 + SlotOf(d, c, f), 1 + SlotOf(d, c, i));
      forall m | f <= m < i
        ensures d.parts[m].CallRec?
      {
        NoTextInRun(d, c, h, f, i, m);
      }
    }
  }

  predicate NamesSurvive(parts: seq<Record>) {
    forall k :: 0 <= k < |parts| && parts[k].CallRec? ==> WireName(parts[k].name) == parts[k].name
  }

  /** The history holds the turn, and tables and cache know it. */
  ghost predicate Known(d: Draft, c: Client, h: seq<Item>, t: Tables, cache: Cache) {
    Shape(d, c, h) && DistinctCalls(d.parts) && TablesKnow(d, c, t) && Backs(cache, d.parts) && Remembers(cache, d.parts, c)
  }

  lemma KnownParts(d: Draft, c: Client, h: seq<Item>, t: Tables, cache: Cache)
    requires Known(d, c, h, t, cache)
    ensures Shape(d, c, h) && DistinctCalls(d.parts) && TablesKnow(d, c, t)
    ensures forall i :: 0 <= i < |d.parts| ==> Backed(cache, d.parts[i])
  {
    hide Shape, DistinctCalls, TablesKnow, Backed;
  }

  /** A call of the history can lead its group exactly when it is signed. */
  lemma EligibleIs(d: Draft, c: Client, h: seq<Item>, t: Tables, cache: Cache, k: nat)
    requires Known(d, c, h, t, cache) && Held(d, c) && NamesSurvive(d.parts) && k < |d.parts| && d.parts[k].CallRec?
    ensures 1 + SlotOf(d, c, k) < |h| && h[1 + SlotOf(d, c, k)].CallItem? && CallKey(h[1 + SlotOf(d, c, k)]) == d.parts[k].callId
    ensures Eligible(t, cache, h[1 + SlotOf(d, c, k)]) <==> d.parts[k].sig != ""
  {
    hide Known, Held, Shape, TablesKnow, DistinctCalls, GroupSig, WireName, SlotOf, CallHeld, Backed;
    KnownParts(d, c, h, t, cache);
    SentCall(d, c, h, k);
    HeldCall(d, c, h, t, cache, k);
    ProperCallId(d, k);
    GroupSigIs(t, cache, d.parts[k], h[1 + SlotOf(d, c, k)]);
  }

  /** An item that can lead call `i` belongs to a call that leads it. */
  lemma EligibleLeads(d: Draft, c: Client, h: seq<Item>, t: Tables, cache: Cache, i: nat, x: nat)
    requires Known(d, c, h, t, cache) && Held(d, c) && NamesSurvive(d.parts) && i < |d.parts| && d.parts[i].CallRec?
    requires 1 + SlotOf(d, c, i) < |h| && RunStart(h, 1 + SlotOf(d, c, i)) <= x < RunEnd(h, 1 + SlotOf(d, c, i)) && Eligible(t, cache, h[x])
    ensures exists k :: 0 <= k < |d.parts| && x == 1 + SlotOf(d, c, k) && Leads(d.parts, i, k)
  {
    hide Known, Shape, Carried, DistinctCalls, GroupSig, SlotOf, Adjacent, RunStart, RunEnd, Done, AtGap, Slots;
    KnownParts(d, c, h, t, cache);
    HistoryCall(d, c, h, x);
    var k := Done(d, c, x - 1);
    EligibleIs(d, c, h, t, cache, k);
    AdjacentRun(d, c, h, i, k);
    assert x == 1 + SlotOf(d, c, k) && Leads(d.parts, i, k);
  }

  /** The lead of a replayed call is the first signed one among its adjacent calls. */
  lemma LeadIs(d: Draft, c: Client, h: seq<Item>, t: Tables, cache: Cache, i: nat)
    requires Known(d, c, h, t, cache) && Held(d, c) && NamesSurvive(d.parts) && i < |d.parts| && d.parts[i].CallRec?
    ensures 1 + SlotOf(d, c, i) < |h|
    ensures LeadOf(t, cache, h, 1 + SlotOf(d, c, i)) ==
            match LeadFor(d.parts, i) case None => NO_ID case Some(l) => d.parts[l].callId
  {
    hide Known, Carried, NamesSurvive, Eligible, SlotOf, Leads, RunStart, RunEnd;
    KnownParts(d, c, h, t, cache);
    CallInRun(d, c, h, i);
    var y, l := 1 + SlotOf(d, c, i), LeadFor(d.parts, i);
    if l.Some? {
      assert d.parts[l.value].CallRec? && d.parts[l.value].sig != "" && Adjacent(d.parts, i, l.value) by { LeadsParts(d.parts, i, l.value); }
      EligibleIs(d, c, h, t, cache, l.value);
      AdjacentRun(d, c, h, i, l.value);
      forall x | RunStart(h, y) <= x < 1 + SlotOf(d, c, l.value)
        ensures !Eligible(t, cache, h[x])
      {
        if Eligible(t, cache, h[x]) {
          EligibleLeads(d, c, h, t, cache, i, x);
          var k :| 0 <= k < |d.parts| && x == 1 + SlotOf(d, c, k) && Leads(d.parts, i, k);
          SlotsOrdered(d, c, l.value, k);
        }
      }
      LeadAt(t, cache, h, RunStart(h, y), 1 + SlotOf(d, c, l.value), RunEnd(h, y));
    } else {
      forall x | RunStart(h, y) <= x < RunEnd(h, y)
        ensures !Eligible(t, cache, h[x])
      {
        if Eligible(t, cache, h[x]) {
          EligibleLeads(d, c, h, t, cache, i, x);
        }
      }
      NoLead(t, cache, h, RunStart(h, y), RunEnd(h, y));
    }
  }

  lemma LeadsParts(parts: seq<Record>, i: nat, k: nat)
    requires i < |parts| && k < |parts| && Leads(parts, i, k)
    ensures parts[k].CallRec? && parts[k].sig != "" && Adjacent(parts, i, k)
  {
  }

  lemma SlotsOrdered(d: Draft, c: Client, f: nat, i: nat)
    requires f <= i
    ensures SlotOf(d, c, f) <= SlotOf(d, c, i)
  {
    hide Carried;
  }

  /** What its lead lends to call `i`. */
  lemma LentIs(d: Draft, c: Client, h: seq<Item>, t: Tables, cache: Cache, i: nat)
    requires Known(d, c, h, t, cache) && Held(d, c) && NamesSurvive(d.parts)
    requires i < |d.parts| && d.parts[i].CallRec? && d.parts[i].sig == ""
    ensures 1 + SlotOf(d, c, i) < |h|
    ensures var lent, l := Lent(t, cache, d.parts[i], LeadOf(t, cache, h, 1 + SlotOf(d, c, i))), LeadFor(d.parts, i);
            if l.Some? && SiblingOf(cache, d.parts, Carried(d, c), l.value, i) then lent == ReplaySig(d.parts, i) && lent != "" else lent == ""
  {
    hide Known, TablesKnow, Carried, DistinctCalls, NamesSurvive, SlotOf, LeadFor, LeadOf, RecordedSibling, LeadSig, SiblingOf, Leads;
    KnownParts(d, c, h, t, cache);
    LeadIs(d, c, h, t, cache, i);
    var l := LeadFor(d.parts, i);
    if l.Some? {
      LeadsParts(d.parts, i, l.value);
      ProperCallId(d, l.value);
      SameCallId(d.parts, l.value, i);
      SiblingsAre(d, c, t, cache, l.value, i);
      LeadSigIs(d, c, h, t, cache, l.value);
    }
  }

  lemma LeadSigIs(d: Draft, c: Client, h: seq<Item>, t: Tables, cache: Cache, l: nat)
    requires Known(d, c, h, t, cache) && Held(d, c) && l < |d.parts| && d.parts[l].CallRec? && d.parts[l].sig != ""
    ensures LeadSig(t, cache, d.parts[l].callId) == d.parts[l].sig
  {
    hide Known, Held, RecordOf, GetTool;
    HeldCall(d, c, h, t, cache, l);
    KnownParts(d, c, h, t, cache);
    assert Backed(cache, d.parts[l]);
    StoredSig(d.parts[l]);
  }

  // ----- emission of a recoverable turn

  /** What every later step needs to know about the replayed history. */
  ghost predicate Ready(d: Draft, c: Client, h: seq<Item>, t: Tables, cache: Cache, answered: set<Id>) {
    && Known(d, c, h, t, cache) && ProperIds(d.parts) && h == History(TurnOf(d), c)
    && forall i :: 0 <= i < |d.parts| && d.parts[i].CallRec? ==> d.parts[i].callId in answered
  }

  lemma ReadyParts(d: Draft, c: Client, h: seq<Item>, t: Tables, cache: Cache, answered: set<Id>)
    requires Ready(d, c, h, t, cache, answered)
    ensures Known(d, c, h, t, cache) && Shape(d, c, h) && ProperIds(d.parts) && TablesKnow(d, c, t) && DistinctCalls(d.parts)
    ensures forall i :: 0 <= i < |d.parts| ==> Backed(cache, d.parts[i])
  {
    KnownParts(d, c, h, t, cache);
  }

  lemma NamesFaithful(cache: Cache, parts: seq<Record>, carried: bool)
    requires Recoverable(cache, parts, carried)
    ensures NamesSurvive(parts)
  {
    hide LeadFor, SiblingOf;
    forall k | 0 <= k < |parts| && parts[k].CallRec?
      ensures WireName(parts[k].name) == parts[k].name
    {
      assert CallRecoverable(cache, parts, carried, k);
      WireNameRoundTrip(parts[k].name);
    }
  }

  lemma FaithfulName(name: string)
    ensures WireName(name) == name <==> !StartsWithSeparator(name)
  {
    WireNameRoundTrip(name);
  }

  /** A call that can come back is never without evidence. */
  lemma RecoverableIsHeld(d: Draft, c: Client, cache: Cache, i: nat)
    requires ProperIds(d.parts) && Recoverable(cache, d.parts, Carried(d, c)) && i < |d.parts| && d.parts[i].CallRec?
    ensures Held(d, c)
  {
    hide NeedsReasoning, TurnOf, DistinctCalls, DistinctItems, SiblingOf;
    assert CallRecoverable(cache, d.parts, Carried(d, c), i);
    if !Held(d, c) {
      Uncarried(d, i);
      Uncarried(d, LeadFor(d.parts, i).value);
    }
  }

  lemma EmitCallSlot(d: Draft, c: Client, h: seq<Item>, t: Tables, cache: Cache, answered: set<Id>, hash: seq<Item> -> string, i: nat)
    requires Ready(d, c, h, t, cache, answered) && Recoverable(cache, d.parts, Carried(d, c)) && i < |d.parts| && d.parts[i].CallRec?
    ensures 1 + SlotOf(d, c, i) < |h| && h[1 + SlotOf(d, c, i)].CallItem?
    ensures EmitCall(t, cache, answered, h[1 + SlotOf(d, c, i)], LeadOf(t, cache, h, 1 + SlotOf(d, c, i))) ==
            Ok(ModelPart(d, c, cache, hash, i))
  {
    hide Known, Held, Shape, ProperIds, TablesKnow, Carried, SlotOf, CallHeld, Recoverable, LeadOf, EmitCall, Lent, LeadFor, SiblingOf, WireName,
         OutId, NamesSurvive, Backed;
    ReadyParts(d, c, h, t, cache, answered);
    NamesFaithful(cache, d.parts, Carried(d, c));
    RecoverableIsHeld(d, c, cache, i);
    SentCall(d, c, h, i);
    HeldCall(d, c, h, t, cache, i);
    SurvivingName(d.parts, i);
    var lead := LeadOf(t, cache, h, 1 + SlotOf(d, c, i));
    CallComesBack(t, cache, answered, d.parts[i], h[1 + SlotOf(d, c, i)], lead);
    if d.parts[i].sig == "" {
      LentIs(d, c, h, t, cache, i);
      CallIsRecoverable(cache, d.parts, Carried(d, c), i);
    }
  }

  lemma SurvivingName(parts: seq<Record>, i: nat)
    requires NamesSurvive(parts) && i < |parts| && parts[i].CallRec?
    ensures WireName(parts[i].name) == parts[i].name
  {
  }

  lemma CallIsRecoverable(cache: Cache, parts: seq<Record>, carried: bool, i: nat)
    requires Recoverable(cache, parts, carried) && i < |parts| && parts[i].CallRec? && parts[i].sig == ""
    ensures LeadFor(parts, i).Some? && SiblingOf(cache, parts, carried, LeadFor(parts, i).value, i)
  {
    hide LeadFor, SiblingOf;
    assert CallRecoverable(cache, parts, carried, i);
  }

  function RecordContents(d: Draft, c: Client, cache: Cache, hash: seq<Item> -> string, i: nat): seq<Content>
    requires i < |d.parts|
  {
    if d.parts[i].TextRec? && d.parts[i].text == "" then [] else [Content("model", [ModelPart(d, c, cache, hash, i)])]
  }

  lemma TextComesBack(d: Draft, c: Client, t: Tables, cache: Cache, i: nat, prefixHash: string)
    requires i < |d.parts| && d.parts[i].TextRec? && ReplayKnown(d, c, t, d.parts[i]) && NO_ID !in t.texts && Backed(cache, d.parts[i])
    requires d.parts[i].itemId != NO_ID
    ensures TextSig(t, cache, Sent(d.parts[i], c), prefixHash) == TextBack(d, c, cache, i, prefixHash)
  {
    hide GetContext, Carried;
  }

  /** The item of record `i` gives back the record. */
  lemma EmitRecord(d: Draft, c: Client, h: seq<Item>, t: Tables, cache: Cache, answered: set<Id>, hash: seq<Item> -> string, i: nat)
    requires Ready(d, c, h, t, cache, answered) && Recoverable(cache, d.parts, Carried(d, c)) && i < |d.parts|
    ensures 1 + SlotOf(d, c, i) < |h|
    ensures EmitItem(t, cache, answered, h, 1 + SlotOf(d, c, i), hash) == Ok(RecordContents(d, c, cache, hash, i))
  {
    hide Shape, Carried, CallKnown, Recoverable, LeadOf, EmitCall, WireName, TextSig, TextBack, CarrierSiblings, CarrierOf, NameKnown, Unvouched,
         DistinctItems, DistinctCalls, History, SiblingsKnown;
    var r, x := d.parts[i], 1 + SlotOf(d, c, i);
    RecordInHistory(d, c, h, i);
    if r.CallRec? {
      EmitCallSlot(d, c, h, t, cache, answered, hash, i);
    } else {
      assert ReplayKnown(d, c, t, r);
      TextComesBack(d, c, t, cache, i, hash(h[..x]));
      assert Before(d, c, i) == h[..x];
    }
  }

  lemma RecordInHistory(d: Draft, c: Client, h: seq<Item>, i: nat)
    requires Shape(d, c, h) && i < |d.parts|
    ensures SlotOf(d, c, i) < Slots(d, c) && 1 + SlotOf(d, c, i) < |h| && h[1 + SlotOf(d, c, i)] == Sent(d.parts[i], c)
  {
    SlotFacts(d, c, 0, i);
    assert h[1 + SlotOf(d, c, i)] == SlotItem(d, c, SlotOf(d, c, i));
  }

  /** Slot `p` emits one record, or nothing for the reasoning item. */
  lemma EmitSlot(d: Draft, c: Client, h: seq<Item>, t: Tables, cache: Cache, answered: set<Id>, hash: seq<Item> -> string, p: nat)
    requires Ready(d, c, h, t, cache, answered) && Recoverable(cache, d.parts, Carried(d, c)) && p < Slots(d, c)
    ensures 1 + p < |h| && Done(d, c, p) <= Done(d, c, p + 1) <= |d.parts|
    ensures var sent := EmitItem(t, cache, answered, h, 1 + p, hash);
            if AtGap(d, c, p) then sent == Ok([]) && Done(d, c, p + 1) == Done(d, c, p)
            else Done(d, c, p + 1) == Done(d, c, p) + 1 && sent == Ok(RecordContents(d, c, cache, hash, Done(d, c, p)))
  {
    hide ProperIds, Carried, Recoverable, EmitCall, TablesKnow, Results, RecordContents, Sent, LeadOf, TextSig;
    SlotFacts(d, c, p, 0);
    if AtGap(d, c, p) {
      assert h[1 + p] == SlotItem(d, c, p);
    } else {
      EmitRecord(d, c, h, t, cache, answered, hash, Done(d, c, p));
    }
  }

  lemma AppendRecord(d: Draft, c: Client, cache: Cache, hash: seq<Item> -> string, f: seq<Content>, n: nat, before: seq<(string, Part)>)
    requires n < |d.parts| && Flatten(f) == before + ModelParts(d, c, cache, hash, n)
    ensures Flatten(f + RecordContents(d, c, cache, hash, n)) == before + ModelParts(d, c, cache, hash, n + 1)
  {
    hide ModelPart, Flatten;
    if d.parts[n].TextRec? && d.parts[n].text == "" {
      assert f + [] == f;
    } else {
      FlattenSnoc(f, Content("model", [ModelPart(d, c, cache, hash, n)]));
      assert Tagged("model", [ModelPart(d, c, cache, hash, n)]) == [("model", ModelPart(d, c, cache, hash, n))];
    }
  }

  lemma PromptItem(d: Draft, c: Client, h: seq<Item>, t: Tables, cache: Cache, answered: set<Id>, hash: seq<Item> -> string)
    requires Shape(d, c, h)
    ensures |h| > 0 && EmitItem(t, cache, answered, h, 0, hash) ==
            Ok(if c.prompt == "" then [] else [Content("user", [TextPart(c.prompt, "")])])
  {
    hide Slots, Results, SlotItem;
  }

  lemma EmitPrompt(d: Draft, c: Client, h: seq<Item>, t: Tables, cache: Cache, answered: set<Id>, hash: seq<Item> -> string)
    requires Shape(d, c, h)
    ensures |h| > 0
    ensures var sent := EmitAll(t, cache, answered, h, 1, hash);
            sent.Ok? && Flatten(sent.value) == PromptParts(c)
  {
    hide Flatten, Shape, EmitItem;
    NothingFlattens();
    PromptItem(d, c, h, t, cache, answered, hash);
    assert EmitAll(t, cache, answered, h, 0, hash) == Ok([]);
    if c.prompt == "" {
      var none: seq<Content> := [];
      assert none + none == none;
      assert EmitAll(t, cache, answered, h, 1, hash) == Ok(none);
    } else {
      EmitNext(t, cache, answered, h, 0, hash, Content("user", [TextPart(c.prompt, "")]));
      assert [] + [("user", TextPart(c.prompt, ""))] == [("user", TextPart(c.prompt, ""))];
    }
  }

  lemma {:induction false} EmitSlots(d: Draft, c: Client, h: seq<Item>, t: Tables, cache: Cache, answered: set<Id>, hash: seq<Item> -> string, p: nat)
    requires Ready(d, c, h, t, cache, answered) && Recoverable(cache, d.parts, Carried(d, c)) && p <= Slots(d, c)
    ensures 1 + p <= |h| && Done(d, c, p) <= |d.parts|
    ensures var sent := EmitAll(t, cache, answered, h, 1 + p, hash);
            sent.Ok? && Flatten(sent.value) == PromptParts(c) + ModelParts(d, c, cache, hash, Done(d, c, p))
  {
    hide Ready, Recoverable, Done, AtGap, Slots, EmitItem, Flatten, RecordContents, ModelParts, PromptParts;
    if p == 0 {
      ReadyParts(d, c, h, t, cache, answered);
      SlotFacts(d, c, 0, 0);
      NoModelParts(d, c, cache, hash);
      EmitPrompt(d, c, h, t, cache, answered, hash);
      assert |h| >= 1 by { ShapeSize(d, c, h); }
      assert PromptParts(c) + [] == PromptParts(c);
    } else {
      EmitSlots(d, c, h, t, cache, answered, hash, p - 1);
      EmitSlot(d, c, h, t, cache, answered, hash, p - 1);
      var before := EmitAll(t, cache, answered, h, p, hash).value;
      if AtGap(d, c, p - 1) {
        assert before + [] == before;
      } else {
        AppendRecord(d, c, cache, hash, before, Done(d, c, p - 1), PromptParts(c));
      }
    }
  }

  lemma NoModelParts(d: Draft, c: Client, cache: Cache, hash: seq<Item> -> string)
    ensures ModelParts(d, c, cache, hash, 0) == []
  {
  }

  lemma ShapeSize(d: Draft, c: Client, h: seq<Item>)
    requires Shape(d, c, h)
    ensures |h| == 1 + Slots(d, c) + |Results(d.parts, c.output)|
  {
  }

  // ----- emission of the results

  lemma {:induction false} ResultsPrefix(parts: seq<Record>, n: nat, output: Id -> string)
    requires n <= |parts|
    ensures |Results(parts[..n], output)| <= |Results(parts, output)|
    ensures Results(parts, output)[..|Results(parts[..n], output)|] == Results(parts[..n], output)
    decreases |parts|
  {
    if n == |parts| {
      assert parts[..n] == parts;
    } else {
      assert parts[..|parts| - 1][..n] == parts[..n];
      ResultsPrefix(parts[..|parts| - 1], n, output);
    }
  }

  lemma ResultOfRecord(d: Draft, c: Client, h: seq<Item>, n: nat)
    requires Shape(d, c, h) && n < |d.parts| && d.parts[n].CallRec?
    ensures var x := 1 + Slots(d, c) + |Results(d.parts[..n], c.output)|;
            x < |h| && h[x] == ResultItem(d.parts[n].callId, c.output(d.parts[n].callId))
            && x + 1 == 1 + Slots(d, c) + |Results(d.parts[..n + 1], c.output)|
  {
    hide Slots, SlotItem;
    var before := Results(d.parts[..n], c.output);
    ResultsPrefix(d.parts, n + 1, c.output);
    assert d.parts[..n + 1][..n] == d.parts[..n];
    var rs := Results(d.parts, c.output);
    assert rs[|before|] == rs[..|before| + 1][|before|];
    assert h[1 + Slots(d, c) + |before|] == h[1 + Slots(d, c)..][|before|];
  }

  /** A call's result comes back under the call's outbound id and name. */
  lemma ResultComesBack(c: Client, t: Tables, cache: Cache, r: Record, output: string)
    requires r.CallRec? && r.callId != NO_ID && NameKnown(t, r) && CallHeld(t, cache, r) && WireName(r.name) == r.name && Backed(cache, r)
    requires output == c.output(r.callId)
    ensures EmitResult(t, cache, ResultItem(r.callId, output)) == ResponsePart(r, c.output)
  {
    hide WireName, GetTool;
    assert AliasOr(t, r.callId) == r.callId;
  }

  lemma KnownResult(d: Draft, c: Client, h: seq<Item>, t: Tables, cache: Cache, answered: set<Id>, i: nat)
    requires Ready(d, c, h, t, cache, answered) && Recoverable(cache, d.parts, Carried(d, c)) && i < |d.parts| && d.parts[i].CallRec?
    ensures var r := d.parts[i];
            r.callId != NO_ID && NameKnown(t, r) && CallHeld(t, cache, r) && WireName(r.name) == r.name && Backed(cache, r)
  {
    hide Known, Shape, Recoverable, Held, TablesKnow, NameKnown, CallHeld, WireName, Backed, NamesSurvive;
    ReadyParts(d, c, h, t, cache, answered);
    RecoverableIsHeld(d, c, cache, i);
    NamesFaithful(cache, d.parts, Carried(d, c));
    SurvivingName(d.parts, i);
    ProperCallId(d, i);
    HeldCall(d, c, h, t, cache, i);
    CallReplayed(d, c, t, i);
  }

  lemma CallReplayed(d: Draft, c: Client, t: Tables, i: nat)
    requires TablesKnow(d, c, t) && i < |d.parts| && d.parts[i].CallRec?
    ensures NameKnown(t, d.parts[i])
  {
    hide NameKnown, CallKnown, Unvouched, Carried, SiblingsKnown;
    assert ReplayKnown(d, c, t, d.parts[i]);
  }

  lemma {:induction false} EmitResults(d: Draft, c: Client, h: seq<Item>, t: Tables, cache: Cache, answered: set<Id>, hash: seq<Item> -> string, n: nat)
    requires Ready(d, c, h, t, cache, answered) && Recoverable(cache, d.parts, Carried(d, c)) && n <= |d.parts|
    ensures var x := 1 + Slots(d, c) + |Results(d.parts[..n], c.output)|;
            && x <= |h|
            && EmitAll(t, cache, answered, h, x, hash).Ok?
            && Flatten(EmitAll(t, cache, answered, h, x, hash).value) ==
               PromptParts(c) + ModelParts(d, c, cache, hash, |d.parts|) + ResponseParts(d.parts[..n], c.output)
  {
    hide Ready, Recoverable, Slots, Done, EmitItem, Flatten, ModelParts, PromptParts, NameKnown, CallKnown, WireName, EmitResult, ResponsePart;
    if n == 0 {
      EmitSlots(d, c, h, t, cache, answered, hash, Slots(d, c));
      SlotFacts(d, c, 0, 0);
      assert d.parts[..0] == [];
      assert PromptParts(c) + ModelParts(d, c, cache, hash, |d.parts|) + [] == PromptParts(c) + ModelParts(d, c, cache, hash, |d.parts|);
    } else {
      EmitResults(d, c, h, t, cache, answered, hash, n - 1);
      assert d.parts[..n][..n - 1] == d.parts[..n - 1];
      if d.parts[n - 1].CallRec? {
        var x := 1 + Slots(d, c) + |Results(d.parts[..n - 1], c.output)|;
        EmitOneResult(d, c, h, t, cache, answered, hash, n - 1, x);
        EmitNext(t, cache, answered, h, x, hash, Content("user", [ResponsePart(d.parts[n - 1], c.output)]));
      }
    }
  }

  lemma EmitNext(t: Tables, cache: Cache, answered: set<Id>, items: seq<Item>, x: nat, hash: seq<Item> -> string, c: Content)
    requires x < |items| && EmitAll(t, cache, answered, items, x, hash).Ok?
    requires |c.parts| == 1 && EmitItem(t, cache, answered, items, x, hash) == Ok([c])
    ensures EmitAll(t, cache, answered, items, x + 1, hash).Ok?
    ensures Flatten(EmitAll(t, cache, answered, items, x + 1, hash).value) ==
            Flatten(EmitAll(t, cache, answered, items, x, hash).value) + [(c.role, c.parts[0])]
  {
    hide Flatten, EmitItem;
    FlattenSnoc(EmitAll(t, cache, answered, items, x, hash).value, c);
    assert Tagged(c.role, c.parts) == [(c.role, c.parts[0])];
  }

  lemma EmitOneResult(d: Draft, c: Client, h: seq<Item>, t: Tables, cache: Cache, answered: set<Id>, hash: seq<Item> -> string, n: nat, x: nat)
    requires Ready(d, c, h, t, cache, answered) && Recoverable(cache, d.parts, Carried(d, c)) && n < |d.parts| && d.parts[n].CallRec?
    requires x == 1 + Slots(d, c) + |Results(d.parts[..n], c.output)|
    ensures x < |h| && x + 1 == 1 + Slots(d, c) + |Results(d.parts[..n + 1], c.output)|
    ensures EmitItem(t, cache, answered, h, x, hash) == Ok([Content("user", [ResponsePart(d.parts[n], c.output)])])
  {
    hide Ready, Recoverable, Slots, NameKnown, CallKnown, WireName, EmitResult, ResponsePart, Results, Shape;
    ReadyParts(d, c, h, t, cache, answered);
    ResultOfRecord(d, c, h, n);
    KnownResult(d, c, h, t, cache, answered, n);
    ResultComesBack(c, t, cache, d.parts[n], c.output(d.parts[n].callId));
  }

  // ----- both directions for one turn

  lemma {:induction false} ModelSubstantial(d: Draft, c: Client, cache: Cache, hash: seq<Item> -> string, n: nat)
    requires n <= |d.parts|
    ensures forall i :: 0 <= i < |ModelParts(d, c, cache, hash, n)| ==> Substantial(ModelParts(d, c, cache, hash, n)[i].1)
  {
    hide TextBack, ReplaySig;
    if n > 0 {
      ModelSubstantial(d, c, cache, hash, n - 1);
    }
  }

  lemma {:induction false} ResponsesSubstantial(parts: seq<Record>, output: Id -> string)
    ensures forall i :: 0 <= i < |ResponseParts(parts, output)| ==> Substantial(ResponseParts(parts, output)[i].1)
  {
    if parts != [] {
      ResponsesSubstantial(parts[..|parts| - 1], output);
    }
  }

  lemma CallIsAnswered(d: Draft, c: Client, h: seq<Item>, t: Tables, i: nat)
    requires Shape(d, c, h) && TablesKnow(d, c, t) && DistinctCalls(d.parts) && i < |d.parts| && d.parts[i].CallRec?
    ensures d.parts[i].callId in Answered(t, h)
  {
    hide DistinctCalls, Slots, SlotItem, Results, Answered, CarrierSiblings, CarrierOf, Carried, WireName, ResultAt;
    var rs := Results(d.parts, c.output);
    ResultsAre(d.parts, c.output);
    ProperCallId(d, i);
    assert ReplayKnown(d, c, t, d.parts[i]);
    assert Answers(rs, d.parts[i].callId);
    var q :| 0 <= q < |rs| && rs[q].ResultItem? && rs[q].callId == d.parts[i].callId;
    var x := 1 + Slots(d, c) + q;
    assert h[x] == h[1 + Slots(d, c)..][q];
    AnsweredHas(t, h, x);
  }

  /** In a successful conversion every call with a carrier or a record had a faithful name and a signature to use. */
  lemma HeldCallIsRecoverable(d: Draft, c: Client, h: seq<Item>, t: Tables, cache: Cache, answered: set<Id>, hash: seq<Item> -> string)
    requires Ready(d, c, h, t, cache, answered) && Held(d, c) && EmitAll(t, cache, answered, h, |h|, hash).Ok?
    ensures Recoverable(cache, d.parts, Carried(d, c))
  {
    hide Known, Held, Shape, ProperIds, Carried, TablesKnow, SlotOf, EmitAll, EmitCall, Lent, CallHeld, WireName, LeadOf, LeadFor, SiblingOf,
         StartsWithSeparator, Backed;
    ReadyParts(d, c, h, t, cache, answered);
    forall i | 0 <= i < |d.parts| && d.parts[i].CallRec?
      ensures WireName(d.parts[i].name) == d.parts[i].name
      ensures 1 + SlotOf(d, c, i) < |h|
      ensures d.parts[i].sig != "" || Lent(t, cache, d.parts[i], LeadOf(t, cache, h, 1 + SlotOf(d, c, i))) != ""
    {
      SentCall(d, c, h, i);
      HeldCall(d, c, h, t, cache, i);
      EmittedItems(t, cache, answered, h, |h|, hash, 1 + SlotOf(d, c, i));
      CallComesBack(t, cache, answered, d.parts[i], h[1 + SlotOf(d, c, i)], LeadOf(t, cache, h, 1 + SlotOf(d, c, i)));
    }
    forall i {:trigger CallRecoverable(cache, d.parts, Carried(d, c), i)} | 0 <= i < |d.parts|
      ensures CallRecoverable(cache, d.parts, Carried(d, c), i)
    {
      if d.parts[i].CallRec? {
        FaithfulName(d.parts[i].name);
        if d.parts[i].sig == "" {
          LentIs(d, c, h, t, cache, i);
        }
      }
    }
  }

  lemma {:induction false} CallExpected(d: Draft, c: Client, cache: Cache, hash: seq<Item> -> string, n: nat, i: nat)
    requires i < n <= |d.parts| && d.parts[i].CallRec?
    ensures exists j :: 0 <= j < |ModelParts(d, c, cache, hash, n)| && ModelParts(d, c, cache, hash, n)[j].1 == ModelPart(d, c, cache, hash, i)
  {
    hide ModelPart;
    var before := ModelParts(d, c, cache, hash, n - 1);
    if i < n - 1 {
      CallExpected(d, c, cache, hash, n - 1, i);
      var j :| 0 <= j < |before| && before[j].1 == ModelPart(d, c, cache, hash, i);
      assert ModelParts(d, c, cache, hash, n)[j] == before[j];
    } else {
      assert ModelParts(d, c, cache, hash, n)[|before|].1 == ModelPart(d, c, cache, hash, i);
    }
  }

  lemma ExpectedCallSigned(d: Draft, c: Client, cache: Cache, hash: seq<Item> -> string, i: nat)
    requires AllSigned(Expected(d, c, cache, hash)) && i < |d.parts| && d.parts[i].CallRec?
    ensures ReplaySig(d.parts, i) != ""
  {
    hide ModelParts, ResponseParts, PromptParts, ReplaySig;
    CallExpected(d, c, cache, hash, |d.parts|, i);
    var model := ModelParts(d, c, cache, hash, |d.parts|);
    var j :| 0 <= j < |model| && model[j].1 == ModelPart(d, c, cache, hash, i);
    assert Expected(d, c, cache, hash)[|PromptParts(c)| + j] == model[j];
  }

  /** A turn that needs no carrier has no signature that a call could come back with. */
  lemma UncarriedIsRecoverable(d: Draft, c: Client, cache: Cache, hash: seq<Item> -> string)
    requires ProperIds(d.parts) && !Held(d, c) && AllSigned(Expected(d, c, cache, hash))
    ensures Recoverable(cache, d.parts, Carried(d, c))
  {
    hide NeedsReasoning, TurnOf, DistinctItems, DistinctCalls, Expected, AllSigned, SiblingOf;
    forall i {:trigger CallRecoverable(cache, d.parts, Carried(d, c), i)} | 0 <= i < |d.parts|
      ensures CallRecoverable(cache, d.parts, Carried(d, c), i)
    {
      if d.parts[i].CallRec? {
        ExpectedCallSigned(d, c, cache, hash, i);
        Uncarried(d, i);
        Uncarried(d, LeadFor(d.parts, i).value);
      }
    }
  }
}
