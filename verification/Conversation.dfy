/**
 * Conversations of several turns: each is accumulated, rendered, and sent back by the client
 * with its results, and then all of them are converted at once, with a cache that may remember
 * any of the turns.
 */
module Conversations {
  import opened Core
  import opened Turns
  import opened Outputs
  import opened Caches
  import opened Exchange
  import opened ExchangeSpec
  import opened Normalize
  import opened Translate
  import opened Pairing
  import opened ScanLaws
  import opened RoundTrip
  import opened RoundTripLaws
  import opened Joining

  /** One turn of a conversation, and what the client adds to it. */
  datatype Round = Round(ctx: Ctx, ps: seq<Part>, client: Client)

  function Finished(r: Round): Draft {
    Final(Run(r.ctx, r.ps))
  }

  function Segment(r: Round): seq<Item> {
    History(Built(r.ctx, r.ps), r.client)
  }

  function Conversation(rounds: seq<Round>): seq<Item> {
    if rounds == [] then [] else Conversation(rounds[..|rounds| - 1]) + Segment(rounds[|rounds| - 1])
  }

  function ExpectedOf(r: Round, cache: Cache, hash: seq<Item> -> string): seq<(string, Part)> {
    Expected(Finished(r), r.client, cache, hash)
  }

  function ExpectedAll(rounds: seq<Round>, cache: Cache, hash: seq<Item> -> string): seq<(string, Part)> {
    if rounds == [] then []
    else
      var before := rounds[..|rounds| - 1];
      ExpectedAll(before, cache, hash) + ExpectedOf(rounds[|rounds| - 1], cache, After(hash, Conversation(before)))
  }

  /** Turns have ids and message ids of their own. */
  predicate Separate(rounds: seq<Round>) {
    forall j, k :: 0 <= j < k < |rounds| ==> rounds[j].ctx.turnId != rounds[k].ctx.turnId && rounds[j].ctx.base != rounds[k].ctx.base
  }

  /** What the cache holds under the ids of a round is its own, or nothing; it remembers what the client drops. */
  predicate RoundFits(r: Round, cache: Cache) {
    r.ctx.Valid() && Backs(cache, Finished(r).parts) && Remembers(cache, Finished(r).parts, r.client)
  }

  predicate UpstreamNamed(parts: seq<Record>) {
    forall i :: 0 <= i < |parts| && parts[i].CallRec? ==> parts[i].upstreamId.Name?
  }

  /** If the client drops a reasoning item, no carrier speaks for its calls under an upstream id. */
  predicate DropsApart(rounds: seq<Round>) {
    (exists k {:trigger rounds[k]} :: 0 <= k < |rounds| && rounds[k].client.carries.Dropped?) ==>
      forall k {:trigger rounds[k]} :: 0 <= k < |rounds| ==> UpstreamNamed(Finished(rounds[k]).parts)
  }

  predicate Coherent(rounds: seq<Round>, cache: Cache) {
    && Separate(rounds) && DropsApart(rounds)
    && forall k {:trigger rounds[k]} :: 0 <= k < |rounds| ==> RoundFits(rounds[k], cache)
  }

  // ----- one round

  predicate TurnMark(x: Id, turn: Id) {
    (x.CallId? || x.ItemId?) && x.key.turn == turn
  }

  predicate TextMark(x: Id, base: Id) {
    base.Name? && ((x == base && base != NO_ID) || (x.MsgId? && x.base == base))
  }

  predicate Marked(r: Record, ctx: Ctx) {
    if r.CallRec? then r.callId.CallId? && r.itemId.ItemId? && TurnMark(r.callId, ctx.turnId) && TurnMark(r.itemId, ctx.turnId)
    else TextMark(r.itemId, ctx.base)
  }

  ghost predicate RoundIs(r: Round) {
    var d := Finished(r);
    && d.ctx == r.ctx && ProperIds(d.parts) && Shape(d, r.client, Segment(r))
    && forall i {:trigger d.parts[i]} :: 0 <= i < |d.parts| ==> Marked(d.parts[i], r.ctx)
  }

  lemma {:induction false} RunCtx(ctx: Ctx, ps: seq<Part>)
    ensures Run(ctx, ps).ctx == ctx && Final(Run(ctx, ps)).ctx == ctx
  {
    if ps != [] {
      RunCtx(ctx, ps[..|ps| - 1]);
    }
  }

  lemma RoundFacts(r: Round)
    requires r.ctx.Valid()
    ensures RoundIs(r)
  {
    hide Run, Final, DistinctItems, DistinctCalls, Shape, History;
    RunWF(r.ctx, r.ps);
    FinalWF(Run(r.ctx, r.ps));
    RunCtx(r.ctx, r.ps);
    var d := Finished(r);
    DistinctIds(d);
    HistoryIs(d, r.client);
    forall i {:trigger d.parts[i]} | 0 <= i < |d.parts|
      ensures Marked(d.parts[i], r.ctx)
    {
      assert OwnIds(d.ctx, d.parts, i);
    }
  }

  lemma RoundParts(r: Round)
    requires RoundIs(r)
    ensures var d := Finished(r);
            && d.ctx == r.ctx && ProperIds(d.parts) && DistinctItems(d.parts) && DistinctCalls(d.parts) && Shape(d, r.client, Segment(r))
    ensures forall i {:trigger Finished(r).parts[i]} :: 0 <= i < |Finished(r).parts| ==> Marked(Finished(r).parts[i], r.ctx)
  {
    hide Finished, Segment, Shape, DistinctItems, DistinctCalls, Marked;
  }

  lemma SegmentBegins(r: Round)
    requires RoundIs(r)
    ensures Segment(r) != [] && Breaks(Segment(r))
  {
    hide Finished, Segment, Slots, Results, SlotItem, ProperIds;
  }

  /** A call of a segment is a call of the turn, under ids that carry its turn. */
  lemma SegmentCall(r: Round, x: nat)
    requires RoundIs(r) && x < |Segment(r)| && Segment(r)[x].CallItem?
    ensures exists i :: 0 <= i < |Finished(r).parts| && Finished(r).parts[i].CallRec? && Segment(r)[x] == Sent(Finished(r).parts[i], r.client)
    ensures forall y :: y in IdsOf(Segment(r)[x]) ==> TurnMark(y, r.ctx.turnId)
  {
    hide Finished, Segment, Shape, DistinctItems, DistinctCalls, WireName, Done, Slots, SlotOf, AtGap;
    RoundParts(r);
    var d := Finished(r);
    HistoryCall(d, r.client, Segment(r), x);
    assert Marked(d.parts[Done(d, r.client, x - 1)], r.ctx);
  }

  lemma SegmentPaired(r: Round)
    requires RoundIs(r)
    ensures WellPaired(Segment(r))
  {
    hide Finished, Segment, Shape, DistinctItems, DistinctCalls, WellPaired;
    RoundParts(r);
    HistoryPaired(Finished(r), r.client, Segment(r));
  }

  // ----- all rounds

  ghost predicate AllRounds(rounds: seq<Round>) {
    forall k {:trigger rounds[k]} :: 0 <= k < |rounds| ==> RoundIs(rounds[k])
  }

  predicate TurnOfSome(rounds: seq<Round>, x: Id) {
    exists k :: 0 <= k < |rounds| && TurnMark(x, rounds[k].ctx.turnId)
  }

  lemma {:induction false} ConversationCall(rounds: seq<Round>, x: nat)
    requires AllRounds(rounds) && x < |Conversation(rounds)| && Conversation(rounds)[x].CallItem?
    ensures exists k, i :: 0 <= k < |rounds| && 0 <= i < |Finished(rounds[k]).parts| && Finished(rounds[k]).parts[i].CallRec? &&
              Conversation(rounds)[x] == Sent(Finished(rounds[k]).parts[i], rounds[k].client)
    ensures forall y :: y in IdsOf(Conversation(rounds)[x]) ==> TurnOfSome(rounds, y)
  {
    hide Finished, Segment, RoundIs, Sent, TurnMark;
    var n := |rounds| - 1;
    var before := Conversation(rounds[..n]);
    if x < |before| {
      ConversationCall(rounds[..n], x);
      var k, i :| 0 <= k < n && 0 <= i < |Finished(rounds[..n][k]).parts| && Finished(rounds[..n][k]).parts[i].CallRec? &&
              Conversation(rounds[..n])[x] == Sent(Finished(rounds[..n][k]).parts[i], rounds[..n][k].client);
      assert rounds[..n][k] == rounds[k];
      assert Conversation(rounds)[x] == Sent(Finished(rounds[k]).parts[i], rounds[k].client);
      forall y | y in IdsOf(Conversation(rounds)[x])
        ensures TurnOfSome(rounds, y)
      {
        var j :| 0 <= j < n && TurnMark(y, rounds[..n][j].ctx.turnId);
        assert TurnMark(y, rounds[j].ctx.turnId);
      }
    } else {
      SegmentCall(rounds[n], x - |before|);
      assert Conversation(rounds)[x] == Segment(rounds[n])[x - |before|];
    }
  }

  lemma SeparatePrefix(rounds: seq<Round>)
    requires rounds != [] && Separate(rounds)
    ensures Separate(rounds[..|rounds| - 1])
  {
  }

  lemma {:induction false} ConversationPaired(rounds: seq<Round>)
    requires AllRounds(rounds) && Separate(rounds)
    ensures WellPaired(Conversation(rounds))
  {
    hide Segment, RoundIs, WellPaired, IdsOf;
    if rounds == [] {
      assert WellPaired([]) by { NothingPaired(); }
    } else {
      var n := |rounds| - 1;
      SeparatePrefix(rounds);
      ConversationPaired(rounds[..n]);
      SegmentPaired(rounds[n]);
      var a, b := Conversation(rounds[..n]), Segment(rounds[n]);
      forall i, j | 0 <= i < |a| && 0 <= j < |b| && a[i].CallItem? && b[j].CallItem?
        ensures IdsOf(a[i]) !! IdsOf(b[j])
      {
        ConversationCall(rounds[..n], i);
        SegmentCall(rounds[n], j);
      }
      WellPairedConcat(a, b);
    }
  }

  lemma NothingPaired()
    ensures WellPaired([])
  {
  }

  // ----- validation

  lemma CachedNamesFit(rounds: seq<Round>, cache: Cache)
    requires AllRounds(rounds) && Coherent(rounds, cache) && CallsNamed(Conversation(rounds))
    ensures NamesFit(Conversation(rounds), cache)
  {
    hide Conversation, CallsNamed, RoundIs, Finished, GetTool, Separate;
    var h := Conversation(rounds);
    forall i, x {:trigger Takes(h[i], x)} | 0 <= i < |h| && Takes(h[i], x) && GetTool(cache, x).Some?
      ensures OnlyOwn(h, i, GetTool(cache, x).value.upstreamId) && OnlyOwn(h, i, GetTool(cache, x).value.itemId)
    {
      ConversationCall(rounds, i);
      var k, p :| 0 <= k < |rounds| && 0 <= p < |Finished(rounds[k]).parts| && Finished(rounds[k]).parts[p].CallRec? &&
              h[i] == Sent(Finished(rounds[k]).parts[p], rounds[k].client);
      CachedNameFits(rounds, cache, i, x, rounds[k], p);
    }
  }

  lemma CachedNameFits(rounds: seq<Round>, cache: Cache, i: nat, x: Id, r: Round, p: nat)
    requires AllRounds(rounds) && CallsNamed(Conversation(rounds)) && RoundFits(r, cache)
    requires i < |Conversation(rounds)| && Takes(Conversation(rounds)[i], x) && GetTool(cache, x).Some?
    requires p < |Finished(r).parts| && Finished(r).parts[p].CallRec? && Conversation(rounds)[i] == Sent(Finished(r).parts[p], r.client)
    ensures OnlyOwn(Conversation(rounds), i, GetTool(cache, x).value.upstreamId)
    ensures OnlyOwn(Conversation(rounds), i, GetTool(cache, x).value.itemId)
  {
    hide Conversation, CallsNamed, AllRounds, Finished, GetTool;
    var h, rec, c := Conversation(rounds), GetTool(cache, x).value, Finished(r).parts[p];
    assert Backed(cache, c);
    assert RecordOf(rec, c) && !c.upstreamId.CallId? && !c.upstreamId.ItemId?;
    forall j | 0 <= j < |h|
      ensures !Takes(h[j], rec.upstreamId)
    {
      MintedIds(rounds, j, rec.upstreamId);
    }
    forall j | 0 <= j < |h| && Takes(h[j], rec.itemId)
      ensures j == i
    {
      assert Takes(h[i], rec.itemId);
      OneOwner(h, i, j, rec.itemId);
    }
  }

  lemma MintedIds(rounds: seq<Round>, j: nat, x: Id)
    requires AllRounds(rounds) && j < |Conversation(rounds)|
    ensures Takes(Conversation(rounds)[j], x) ==> x.CallId? || x.ItemId?
  {
    hide Conversation, AllRounds;
    if Takes(Conversation(rounds)[j], x) {
      ConversationCall(rounds, j);
    }
  }

  // ----- what the scans know of every round

  /** Records of the turn are known if its carrier is there, and not known at all if the client dropped it. */
  ghost predicate Learned(t: Tables, r: Round) {
    var d := Finished(r);
    && (forall i {:trigger d.parts[i]} :: 0 <= i < |d.parts| ==>
          if d.parts[i].CallRec? then Carried(d, r.client) ==> CallKnown(t, d.parts[i])
          else if Carried(d, r.client) then TextKnown(t, d.parts[i])
          else d.parts[i].itemId !in t.texts)
    && SiblingsKnown(d, r.client, t)
  }

  predicate BaseOfSome(rounds: seq<Round>, x: Id) {
    exists k :: 0 <= k < |rounds| && TextMark(x, rounds[k].ctx.base)
  }

  /** An id under which the carrier of some round vouches for its own calls. */
  predicate ToolMark(x: Id, turn: Id) {
    TurnMark(x, turn) || (x.Joined? && TurnMark(x.call, turn))
  }

  predicate CarriedToolOf(rounds: seq<Round>, x: Id) {
    exists k :: 0 <= k < |rounds| && Carried(Finished(rounds[k]), rounds[k].client) && ToolMark(x, rounds[k].ctx.turnId)
  }

  ghost predicate AllNamed(rounds: seq<Round>) {
    forall k {:trigger rounds[k]} :: 0 <= k < |rounds| ==> UpstreamNamed(Finished(rounds[k]).parts)
  }

  /** After the carriers of these rounds: all of them are learned, and nothing else. */
  ghost predicate LearnedAll(t0: Tables, t: Tables, rounds: seq<Round>) {
    && Keeps(t0, t)
    && (forall k {:trigger rounds[k]} :: 0 <= k < |rounds| ==> Learned(t, rounds[k]))
    && (forall x :: x in t.texts ==> BaseOfSome(rounds, x))
    && (forall p :: p in t.siblings ==> TurnOfSome(rounds, p.0))
    && (AllNamed(rounds) ==> forall x :: x in t.tools ==> x.Name? || CarriedToolOf(rounds, x))
  }

  lemma NothingLearned(t: Tables)
    requires t.texts == map[] && t.siblings == {} && t.tools == map[]
    ensures LearnedAll(t, t, [])
  {
  }

  lemma SegmentScan(r: Round, t: Tables)
    requires RoundIs(r)
    ensures ScanCarriers(t, Segment(r)) ==
            if Carried(Finished(r), r.client) then ScanCarrier(t, CarrierOf(Finished(r), r.client)) else t
  {
    hide Finished, Segment, Shape, ProperIds, CarrierOf, Carried, ScanCarriers, ScanCarrier;
    RoundParts(r);
    var d, h := Finished(r), Segment(r);
    CarrierPlace(d, r.client, h);
    if Carried(d, r.client) {
      OneCarrierScanned(t, h, 1 + Gap(d));
    } else {
      NoCarrierScanned(t, h);
    }
  }

  lemma OtherMarks(rounds: seq<Round>, r: Round)
    requires Separate(rounds + [r])
    ensures forall x :: TurnMark(x, r.ctx.turnId) ==> !TurnOfSome(rounds, x)
    ensures forall x :: TextMark(x, r.ctx.base) ==> !BaseOfSome(rounds, x)
    ensures forall k :: 0 <= k < |rounds| ==> rounds[k].ctx.turnId != r.ctx.turnId && rounds[k].ctx.base != r.ctx.base
  {
    var all := rounds + [r];
    assert all[|rounds|] == r && forall k :: 0 <= k < |rounds| ==> all[k] == rounds[k];
  }

  lemma SomeSnoc(rounds: seq<Round>, r: Round, x: Id)
    ensures TurnOfSome(rounds + [r], x) <==> TurnOfSome(rounds, x) || TurnMark(x, r.ctx.turnId)
    ensures BaseOfSome(rounds + [r], x) <==> BaseOfSome(rounds, x) || TextMark(x, r.ctx.base)
    ensures CarriedToolOf(rounds + [r], x) <==>
            CarriedToolOf(rounds, x) || (Carried(Finished(r), r.client) && ToolMark(x, r.ctx.turnId))
  {
    hide TurnMark, TextMark, ToolMark, Carried, Finished;
    var all := rounds + [r];
    assert all[|rounds|] == r && forall k :: 0 <= k < |rounds| ==> all[k] == rounds[k];
    if k :| 0 <= k < |rounds| && TurnMark(x, rounds[k].ctx.turnId) {
      assert TurnMark(x, all[k].ctx.turnId);
    }
    if k :| 0 <= k < |rounds| && TextMark(x, rounds[k].ctx.base) {
      assert TextMark(x, all[k].ctx.base);
    }
    if k :| 0 <= k < |rounds| && Carried(Finished(rounds[k]), rounds[k].client) && ToolMark(x, rounds[k].ctx.turnId) {
      assert Carried(Finished(all[k]), all[k].client) && ToolMark(x, all[k].ctx.turnId);
    }
    assert TurnMark(x, r.ctx.turnId) ==> TurnMark(x, all[|rounds|].ctx.turnId);
    assert TextMark(x, r.ctx.base) ==> TextMark(x, all[|rounds|].ctx.base);
    assert Carried(Finished(r), r.client) && ToolMark(x, r.ctx.turnId) ==>
           Carried(Finished(all[|rounds|]), all[|rounds|].client) && ToolMark(x, all[|rounds|].ctx.turnId);
  }

  /** A carrier's siblings are led by a call of its own turn. */
  lemma OwnSiblings(r: Round, p: (Id, Id))
    requires RoundIs(r) && p in CarrierSiblings(CarrierOf(Finished(r), r.client))
    ensures TurnMark(p.0, r.ctx.turnId)
  {
    hide Finished, Shape, ProperIds, CarrierOf, CarrierSiblings, LaterCall, FirstCall;
    CarrierSiblingsAre(Finished(r), r.client, p.0, p.1);
    RoundParts(r);
    assert Marked(Finished(r).parts[FirstCall(Finished(r).parts).value], r.ctx);
  }

  /** A round without a carrier leaves the tables as they are. */
  lemma UncarriedLearned(t0: Tables, t: Tables, rounds: seq<Round>, r: Round)
    requires RoundIs(r) && LearnedAll(t0, t, rounds) && Separate(rounds + [r]) && !Carried(Finished(r), r.client)
    ensures LearnedAll(t0, t, rounds + [r])
  {
    hide Finished, Carried, Separate, RoundIs, TurnMark, TextMark, CallKnown, Keeps, CarrierSiblings, CarriedToolOf, UpstreamNamed;
    var d := Finished(r);
    RoundParts(r);
    OwnTextsNew(t0, t, rounds, r);
    forall l, x | 0 <= l < |d.parts| && d.parts[l].CallRec?
      ensures (d.parts[l].callId, x) !in t.siblings
    {
      assert Marked(d.parts[l], r.ctx);
    }
    assert Learned(t, r);
    PrefixNamed(rounds, r);
    MoreRounds(t0, t, rounds, r);
  }

  lemma PrefixNamed(rounds: seq<Round>, r: Round)
    ensures AllNamed(rounds + [r]) <==> AllNamed(rounds) && UpstreamNamed(Finished(r).parts)
  {
    hide UpstreamNamed, Finished;
    var all := rounds + [r];
    assert all[|rounds|] == r && forall k :: 0 <= k < |rounds| ==> all[k] == rounds[k];
    if AllNamed(all) {
      assert UpstreamNamed(Finished(all[|rounds|]).parts);
      forall k {:trigger rounds[k]} | 0 <= k < |rounds|
        ensures UpstreamNamed(Finished(rounds[k]).parts)
      {
        assert all[k] == rounds[k];
      }
    }
  }

  lemma MoreRounds(t0: Tables, t: Tables, rounds: seq<Round>, r: Round)
    requires Keeps(t0, t) && Learned(t, r)
    requires forall k {:trigger rounds[k]} :: 0 <= k < |rounds| ==> Learned(t, rounds[k])
    requires forall x :: x in t.texts ==> BaseOfSome(rounds, x) || TextMark(x, r.ctx.base)
    requires forall p :: p in t.siblings ==> TurnOfSome(rounds, p.0) || TurnMark(p.0, r.ctx.turnId)
    requires AllNamed(rounds + [r]) ==>
               forall x :: x in t.tools ==>
                 x.Name? || CarriedToolOf(rounds, x) || (Carried(Finished(r), r.client) && ToolMark(x, r.ctx.turnId))
    ensures LearnedAll(t0, t, rounds + [r])
  {
    hide Finished, Learned, Keeps, TurnMark, TextMark, ToolMark, BaseOfSome, TurnOfSome, CarriedToolOf, AllNamed, Carried;
    forall x | x in t.texts
      ensures BaseOfSome(rounds + [r], x)
    {
      SomeSnoc(rounds, r, x);
    }
    forall p | p in t.siblings
      ensures TurnOfSome(rounds + [r], p.0)
    {
      SomeSnoc(rounds, r, p.0);
    }
    forall x | x in t.tools && AllNamed(rounds + [r])
      ensures x.Name? || CarriedToolOf(rounds + [r], x)
    {
      SomeSnoc(rounds, r, x);
    }
  }

  /** What the carrier of a round makes known, it makes known under the ids of its own turn. */
  lemma OwnTools(r: Round, t: Tables, x: Id)
    requires RoundIs(r) && UpstreamNamed(Finished(r).parts) && x in ScanParts(t, Finished(r).parts).tools && x !in t.tools
    ensures x.Name? || ToolMark(x, r.ctx.turnId)
  {
    hide Finished, RoundIs, ScanParts, VerifiedOf;
    RoundParts(r);
    var d := Finished(r);
    PartsVouch(t, d.parts, x);
    var v := ScanParts(t, d.parts).tools[x];
    var j :| 0 <= j < |d.parts| && d.parts[j].CallRec? && Vouches(d.parts[j], x) && v == VerifiedOf(d.parts[j]);
    assert Marked(d.parts[j], r.ctx);
  }

  /** The tables after the carrier of one more round. */
  lemma CarriedLearned(t0: Tables, t: Tables, rounds: seq<Round>, r: Round)
    requires AllRounds(rounds) && RoundIs(r) && LearnedAll(t0, t, rounds) && Separate(rounds + [r]) && Carried(Finished(r), r.client)
    ensures LearnedAll(t0, ScanCarrier(t, CarrierOf(Finished(r), r.client)), rounds + [r])
  {
    hide Finished, Carried, Separate, ProperIds, Shape, TextMark, TurnMark, CarrierSiblings, Keeps, ScanParts, RoundIs, AllKnown, Learned, SiblingsKnown,
         TurnOfSome, BaseOfSome, CarriedToolOf, ToolMark, AllNamed, UpstreamNamed;
    var d, t' := Finished(r), ScanCarrier(t, CarrierOf(Finished(r), r.client));
    OtherMarks(rounds, r);
    OwnTextsNew(t0, t, rounds, r);
    RoundParts(r);
    ScanPartsKnow(t, d.parts);
    var scanned := ScanParts(t, d.parts);
    KeepsOn(t0, t, scanned, t');
    forall p | p in t'.siblings
      ensures TurnOfSome(rounds, p.0) || TurnMark(p.0, r.ctx.turnId)
    {
      if p !in t.siblings {
        OwnSiblings(r, p);
      }
    }
    forall x | x in t'.texts
      ensures BaseOfSome(rounds, x) || TextMark(x, r.ctx.base)
    {
      if x !in t.texts {
        var i :| 0 <= i < |d.parts| && d.parts[i].TextRec? && d.parts[i].itemId == x;
        assert Marked(d.parts[i], r.ctx);
      }
    }
    PrefixNamed(rounds, r);
    forall x | x in t'.tools && AllNamed(rounds + [r])
      ensures x.Name? || CarriedToolOf(rounds, x) || ToolMark(x, r.ctx.turnId)
    {
      if x !in t.tools {
        OwnTools(r, t, x);
      }
    }
    OwnLearned(r, t, t');
    forall k {:trigger rounds[k]} | 0 <= k < |rounds|
      ensures Learned(t', rounds[k])
    {
      OthersStay(r, t, t', rounds[k]);
    }
    MoreRounds(t0, t', rounds, r);
  }

  lemma KeepsOn(t0: Tables, t: Tables, scanned: Tables, t': Tables)
    requires Keeps(t0, t) && Keeps(t, scanned) && t'.names == scanned.names && t'.alias == scanned.alias
    ensures Keeps(t0, t')
  {
  }

  lemma OwnTextsNew(t0: Tables, t: Tables, rounds: seq<Round>, r: Round)
    requires RoundIs(r) && LearnedAll(t0, t, rounds) && Separate(rounds + [r])
    ensures forall i :: 0 <= i < |Finished(r).parts| && Finished(r).parts[i].TextRec? ==> Finished(r).parts[i].itemId !in t.texts
    ensures forall p :: p in t.siblings ==> !TurnMark(p.0, r.ctx.turnId)
  {
    hide Finished, Separate, RoundIs, TextMark, TurnMark, Keeps, Learned, TurnOfSome, BaseOfSome, CarriedToolOf, AllNamed;
    OtherMarks(rounds, r);
    RoundParts(r);
    forall i | 0 <= i < |Finished(r).parts| && Finished(r).parts[i].TextRec?
      ensures Finished(r).parts[i].itemId !in t.texts
    {
      assert Marked(Finished(r).parts[i], r.ctx);
    }
  }

  lemma OwnLearned(r: Round, t: Tables, t': Tables)
    requires RoundIs(r) && Carried(Finished(r), r.client)
    requires AllKnown(ScanParts(t, Finished(r).parts), Finished(r).parts) && Adds(t, ScanParts(t, Finished(r).parts), Finished(r).parts)
    requires t' == ScanCarrier(t, CarrierOf(Finished(r), r.client)) && forall p :: p in t.siblings ==> !TurnMark(p.0, r.ctx.turnId)
    ensures Learned(t', r)
  {
    hide Finished, Carried, Shape, ProperIds, CarrierSiblings, ScanParts, CallKnown, TextKnown, RoundIs, TurnMark, Keeps;
    var d := Finished(r);
    RoundParts(r);
    forall i {:trigger d.parts[i]} | 0 <= i < |d.parts|
      ensures if d.parts[i].CallRec? then CallKnown(t', d.parts[i]) else TextKnown(t', d.parts[i])
    {
      assert RecordKnown(ScanParts(t, d.parts), d.parts[i]);
      SameTables(ScanParts(t, d.parts), t', d.parts[i]);
    }
    forall l, x | 0 <= l < |d.parts| && d.parts[l].CallRec?
      ensures (d.parts[l].callId, x) in t'.siblings <==> (d.parts[l].callId, x) in CarrierSiblings(CarrierOf(d, r.client))
    {
      assert Marked(d.parts[l], r.ctx);
    }
  }

  lemma RecordStays(r: Round, t: Tables, t': Tables, other: Round, i: nat)
    requires RoundIs(r) && RoundIs(other) && other.ctx.turnId != r.ctx.turnId && other.ctx.base != r.ctx.base
    requires Adds(t, t', Finished(r).parts) && i < |Finished(other).parts|
    ensures RecordKnown(t, Finished(other).parts[i]) ==> RecordKnown(t', Finished(other).parts[i])
    ensures Finished(other).parts[i].TextRec? && Finished(other).parts[i].itemId !in t.texts ==> Finished(other).parts[i].itemId !in t'.texts
  {
    hide Finished, Shape, ProperIds, RoundIs, Keeps;
    RoundParts(r);
    RoundParts(other);
    assert Marked(Finished(other).parts[i], other.ctx);
    assert forall j :: 0 <= j < |Finished(r).parts| ==> Marked(Finished(r).parts[j], r.ctx);
  }

  /** The carrier of round `r` changes nothing that is known of another round. */
  lemma OthersStay(r: Round, t: Tables, t': Tables, other: Round)
    requires RoundIs(r) && RoundIs(other) && other.ctx.turnId != r.ctx.turnId && other.ctx.base != r.ctx.base
    requires Adds(t, ScanParts(t, Finished(r).parts), Finished(r).parts) && t' == ScanCarrier(t, CarrierOf(Finished(r), r.client))
    requires Learned(t, other)
    ensures Learned(t', other)
  {
    hide Finished, Carried, Shape, ProperIds, CarrierSiblings, ScanParts, RoundIs, Adds, CallKnown, TextKnown, Marked;
    var d', scanned := Finished(other), ScanParts(t, Finished(r).parts);
    assert scanned.siblings == t.siblings by { AddsSiblings(t, scanned, Finished(r).parts); }
    forall i {:trigger d'.parts[i]} | 0 <= i < |d'.parts|
      ensures if d'.parts[i].CallRec? then Carried(d', other.client) ==> CallKnown(t', d'.parts[i])
              else if Carried(d', other.client) then TextKnown(t', d'.parts[i])
              else d'.parts[i].itemId !in t'.texts
    {
      RecordStays(r, t, scanned, other, i);
      if RecordKnown(scanned, d'.parts[i]) {
        SameTables(scanned, t', d'.parts[i]);
      }
    }
    SiblingsStay(r, t, t', other);
  }

  lemma AddsSiblings(t: Tables, t': Tables, parts: seq<Record>)
    requires Adds(t, t', parts)
    ensures t'.siblings == t.siblings
  {
  }

  lemma SiblingsStay(r: Round, t: Tables, t': Tables, other: Round)
    requires RoundIs(r) && RoundIs(other) && other.ctx.turnId != r.ctx.turnId
    requires t'.siblings == t.siblings + CarrierSiblings(CarrierOf(Finished(r), r.client))
    ensures SiblingsKnown(Finished(other), other.client, t) ==> SiblingsKnown(Finished(other), other.client, t')
  {
    hide Finished, ProperIds, CarrierSiblings, ScanParts, RoundIs, Keeps, Carried;
    var d' := Finished(other);
    RoundParts(other);
    forall l, x | 0 <= l < |d'.parts| && d'.parts[l].CallRec?
      ensures (d'.parts[l].callId, x) in t'.siblings <==> (d'.parts[l].callId, x) in t.siblings
    {
      assert Marked(d'.parts[l], other.ctx);
      if (d'.parts[l].callId, x) in CarrierSiblings(CarrierOf(Finished(r), r.client)) {
        OwnSiblings(r, (d'.parts[l].callId, x));
      }
    }
  }

  lemma {:induction false} CarriersScanned(rounds: seq<Round>, t: Tables)
    requires AllRounds(rounds) && Separate(rounds) && t.texts == map[] && t.siblings == {} && t.tools == map[]
    ensures LearnedAll(t, ScanCarriers(t, Conversation(rounds)), rounds)
  {
    hide Segment, RoundIs, Separate, LearnedAll, ScanCarriers, Finished, ScanCarrier, CarrierOf, Carried;
    if rounds == [] {
      NothingLearned(t);
      assert ScanCarriers(t, []) == t by { NothingScanned(t); }
    } else {
      var n := |rounds| - 1;
      SeparatePrefix(rounds);
      CarriersScanned(rounds[..n], t);
      ScanCarriersConcat(t, Conversation(rounds[..n]), Segment(rounds[n]));
      var before := ScanCarriers(t, Conversation(rounds[..n]));
      SegmentScan(rounds[n], before);
      assert rounds == rounds[..n] + [rounds[n]];
      if Carried(Finished(rounds[n]), rounds[n].client) {
        CarriedLearned(t, before, rounds[..n], rounds[n]);
      } else {
        UncarriedLearned(t, before, rounds[..n], rounds[n]);
      }
    }
  }

  lemma NothingScanned(t: Tables)
    ensures ScanCarriers(t, []) == t
  {
  }

  lemma {:induction false} InConversation(rounds: seq<Round>, k: nat, x: nat)
    requires k < |rounds| && x < |Segment(rounds[k])|
    ensures Segment(rounds[k])[x] in Conversation(rounds)
    decreases |rounds|
  {
    hide Segment;
    var n := |rounds| - 1;
    if k < n {
      assert rounds[..n][k] == rounds[k];
      InConversation(rounds[..n], k, x);
    }
  }

  lemma ConversationScanned(rounds: seq<Round>, cache: Cache)
    requires AllRounds(rounds) && Separate(rounds)
    ensures var h := Conversation(rounds);
            && WellPaired(h) && NamesExact(h, ScanCalls(h)) && LearnedAll(ScanCalls(h), Scan(h, cache), rounds)
  {
    hide Conversation, CallsNamed, ResultsPaired, AllRounds, Separate, ScanCalls, ScanCarriers, ScanCache, Taken, Learned, BaseOfSome, TurnOfSome, Keeps,
         Mentions, CarriedToolOf, AllNamed;
    var h := Conversation(rounds);
    ConversationPaired(rounds);
    ScanCallsExact(h);
    CarriersScanned(rounds, ScanCalls(h));
    AllMentioned(h, ScanCarriers(ScanCalls(h), h));
    KnownCacheScanned(ScanCarriers(ScanCalls(h), h), cache, h);
  }

  lemma CallNamed(rounds: seq<Round>, t: Tables, k: nat, i: nat)
    requires AllRounds(rounds) && NamesExact(Conversation(rounds), ScanCalls(Conversation(rounds))) && Keeps(ScanCalls(Conversation(rounds)), t)
    requires k < |rounds| && i < |Finished(rounds[k]).parts| && Finished(rounds[k]).parts[i].CallRec?
    ensures NameKnown(t, Finished(rounds[k]).parts[i])
  {
    hide Conversation, RoundIs, Finished, Segment, Shape, ProperIds, ScanCalls, SlotOf, Slots, Taken, WireName, DistinctItems, DistinctCalls;
    var r, h := rounds[k], Conversation(rounds);
    assert RoundIs(r);
    RoundParts(r);
    var d := Finished(r);
    SentCall(d, r.client, Segment(r), i);
    InConversation(rounds, k, 1 + SlotOf(d, r.client, i));
    var m :| 0 <= m < |h| && h[m] == Segment(r)[1 + SlotOf(d, r.client, i)];
    assert Takes(h[m], d.parts[i].callId);
    assert NameIs(ScanCalls(h), d.parts[i].callId, h[m]);
  }

  /** No carrier vouches for the calls of a round whose reasoning item the client dropped. */
  lemma DroppedUnvouched(rounds: seq<Round>, t: Tables, k: nat, i: nat)
    requires AllRounds(rounds) && Separate(rounds) && DropsApart(rounds) && k < |rounds| && rounds[k].client.carries.Dropped?
    requires AllNamed(rounds) ==> forall x :: x in t.tools ==> x.Name? || CarriedToolOf(rounds, x)
    requires i < |Finished(rounds[k]).parts| && Finished(rounds[k]).parts[i].CallRec?
    ensures Unvouched(t, Finished(rounds[k]).parts[i])
  {
    hide RoundIs, Finished, UpstreamNamed, Shape, ProperIds, DistinctItems, DistinctCalls;
    var r := Finished(rounds[k]).parts[i];
    assert RoundIs(rounds[k]);
    RoundParts(rounds[k]);
    assert Marked(r, rounds[k].ctx);
    assert AllNamed(rounds);
    forall x | x in {r.callId, r.itemId, Joined(r.callId, r.itemId)}
      ensures x !in t.tools
    {
      if CarriedToolOf(rounds, x) {
        var j :| 0 <= j < |rounds| && Carried(Finished(rounds[j]), rounds[j].client) && ToolMark(x, rounds[j].ctx.turnId);
        assert j != k;
      }
    }
  }

  /** After all scans the tables know every round. */
  lemma RoundScanned(rounds: seq<Round>, cache: Cache, k: nat)
    requires AllRounds(rounds) && Separate(rounds) && DropsApart(rounds) && k < |rounds|
    ensures TablesKnow(Finished(rounds[k]), rounds[k].client, Scan(Conversation(rounds), cache))
  {
    hide Conversation, AllRounds, Separate, DropsApart, RoundIs, Finished, Scan, ScanCalls, NamesExact, WellPaired, Carried, CallKnown, TextKnown, NameKnown,
         Keeps, TurnOfSome, SiblingsKnown, Unvouched, AllNamed, CarriedToolOf;
    ConversationScanned(rounds, cache);
    var d, c, t := Finished(rounds[k]), rounds[k].client, Scan(Conversation(rounds), cache);
    assert Learned(t, rounds[k]);
    forall i {:trigger ReplayKnown(d, c, t, d.parts[i])} | 0 <= i < |d.parts|
      ensures ReplayKnown(d, c, t, d.parts[i])
    {
      if d.parts[i].CallRec? {
        CallNamed(rounds, t, k, i);
        if c.carries.Dropped? {
          DroppedUnvouched(rounds, t, k, i);
        }
      }
    }
  }

  lemma {:induction false} AnsweredIn(rounds: seq<Round>, t: Tables, k: nat)
    requires k < |rounds|
    ensures Answered(t, Segment(rounds[k])) <= Answered(t, Conversation(rounds))
    decreases |rounds|
  {
    hide Segment, Answered;
    var n := |rounds| - 1;
    AnsweredConcat(t, Conversation(rounds[..n]), Segment(rounds[n]));
    if k < n {
      assert rounds[..n][k] == rounds[k];
      AnsweredIn(rounds[..n], t, k);
    }
  }

  ghost predicate RoundReady(r: Round, t: Tables, cache: Cache, answered: set<Id>) {
    Ready(Finished(r), r.client, Segment(r), t, cache, answered)
  }

  lemma SegmentIs(r: Round)
    ensures Segment(r) == History(TurnOf(Finished(r)), r.client)
  {
  }

  lemma AllReady(rounds: seq<Round>, cache: Cache, k: nat)
    requires AllRounds(rounds) && Coherent(rounds, cache) && k < |rounds|
    ensures var t := Scan(Conversation(rounds), cache); RoundReady(rounds[k], t, cache, Answered(t, Conversation(rounds)))
  {
    hide Conversation, Separate, DropsApart, RoundIs, Finished, Scan, Answered, TablesKnow, Backs, Remembers, Shape, DistinctItems, DistinctCalls, History;
    var r, t := rounds[k], Scan(Conversation(rounds), cache);
    var d := Finished(r);
    assert RoundIs(r) && RoundFits(r, cache);
    RoundParts(r);
    SegmentIs(r);
    RoundScanned(rounds, cache, k);
    AnsweredIn(rounds, t, k);
    forall i | 0 <= i < |d.parts| && d.parts[i].CallRec?
      ensures d.parts[i].callId in Answered(t, Conversation(rounds))
    {
      CallIsAnswered(d, r.client, Segment(r), t, i);
    }
  }

  // ----- emission of all rounds

  predicate RoundRecoverable(r: Round, cache: Cache) {
    Recoverable(cache, Finished(r).parts, Carried(Finished(r), r.client))
  }

  /** The whole segment comes back. */
  lemma SegmentEmitted(r: Round, t: Tables, cache: Cache, answered: set<Id>, hash: seq<Item> -> string)
    requires RoundReady(r, t, cache, answered) && RoundRecoverable(r, cache)
    ensures var sent := EmitAll(t, cache, answered, Segment(r), |Segment(r)|, hash);
            sent.Ok? && Flatten(sent.value) == ExpectedOf(r, cache, hash)
  {
    hide Finished, Segment, Ready, Recoverable, EmitAll, Flatten, ModelParts, ResponseParts, PromptParts, Slots, Results;
    var d, h := Finished(r), Segment(r);
    EmitResults(d, r.client, h, t, cache, answered, hash, |d.parts|);
    assert d.parts[..|d.parts|] == d.parts;
    ReadyParts(d, r.client, h, t, cache, answered);
    ShapeSize(d, r.client, h);
  }

  lemma {:induction false} RoundsEmitted(rounds: seq<Round>, t: Tables, cache: Cache, answered: set<Id>, hash: seq<Item> -> string)
    requires AllRounds(rounds)
    requires forall k {:trigger rounds[k]} :: 0 <= k < |rounds| ==>
               RoundReady(rounds[k], t, cache, answered) && RoundRecoverable(rounds[k], cache)
    ensures var sent := EmitAll(t, cache, answered, Conversation(rounds), |Conversation(rounds)|, hash);
            sent.Ok? && Flatten(sent.value) == ExpectedAll(rounds, cache, hash)
  {
    hide Finished, Segment, RoundReady, RoundRecoverable, EmitAll, Flatten, ExpectedOf, RoundIs, After;
    if rounds == [] {
      NothingFlattens();
      assert EmitAll(t, cache, answered, [], 0, hash) == Ok([]) by { NothingEmitted(t, cache, answered, hash); }
    } else {
      var n := |rounds| - 1;
      var a, b := Conversation(rounds[..n]), Segment(rounds[n]);
      RoundsEmitted(rounds[..n], t, cache, answered, hash);
      SegmentBegins(rounds[n]);
      SegmentEmitted(rounds[n], t, cache, answered, After(hash, a));
      EmitAllRight(t, cache, answered, a, b, |b|, hash);
      FlattenConcat(EmitAll(t, cache, answered, a, |a|, hash).value, EmitAll(t, cache, answered, b, |b|, After(hash, a)).value);
    }
  }

  lemma NothingEmitted(t: Tables, cache: Cache, answered: set<Id>, hash: seq<Item> -> string)
    ensures EmitAll(t, cache, answered, [], 0, hash) == Ok([])
  {
  }

  /** When everything is emitted, so is each segment. */
  lemma {:induction false} EachEmitted(rounds: seq<Round>, t: Tables, cache: Cache, answered: set<Id>, hash: seq<Item> -> string, k: nat)
    requires AllRounds(rounds) && k < |rounds| && EmitAll(t, cache, answered, Conversation(rounds), |Conversation(rounds)|, hash).Ok?
    ensures exists hash': seq<Item> -> string :: EmitAll(t, cache, answered, Segment(rounds[k]), |Segment(rounds[k])|, hash').Ok?
    decreases |rounds|
  {
    hide Segment, EmitAll, RoundIs, After;
    var n := |rounds| - 1;
    var a, b := Conversation(rounds[..n]), Segment(rounds[n]);
    SegmentBegins(rounds[n]);
    EmitAllRight(t, cache, answered, a, b, |b|, hash);
    if k < n {
      assert rounds[..n][k] == rounds[k];
      EachEmitted(rounds[..n], t, cache, answered, hash, k);
    } else {
      assert EmitAll(t, cache, answered, b, |b|, After(hash, a)).Ok?;
    }
  }

  // ----- the theorem

  predicate AllRecoverable(rounds: seq<Round>, cache: Cache) {
    forall k {:trigger rounds[k]} :: 0 <= k < |rounds| ==> RoundRecoverable(rounds[k], cache)
  }

  lemma {:induction false} AllExpectedKept(rounds: seq<Round>, cache: Cache, hash: seq<Item> -> string)
    ensures forall i :: 0 <= i < |ExpectedAll(rounds, cache, hash)| ==> Substantial(ExpectedAll(rounds, cache, hash)[i].1)
  {
    hide ExpectedOf, Substantial, Conversation, After;
    if rounds != [] {
      var before := rounds[..|rounds| - 1];
      AllExpectedKept(before, cache, hash);
      RoundExpectedKept(rounds[|rounds| - 1], cache, After(hash, Conversation(before)));
    }
  }

  lemma RoundExpectedKept(r: Round, cache: Cache, hash: seq<Item> -> string)
    ensures forall i :: 0 <= i < |ExpectedOf(r, cache, hash)| ==> Substantial(ExpectedOf(r, cache, hash)[i].1)
  {
    hide Finished, ModelParts, ResponseParts;
    ModelSubstantial(Finished(r), r.client, cache, hash, |Finished(r).parts|);
    ResponsesSubstantial(Finished(r).parts, r.client.output);
  }

  lemma AllRoundFacts(rounds: seq<Round>, cache: Cache)
    requires Coherent(rounds, cache)
    ensures AllRounds(rounds)
  {
    hide Separate, Backs, Finished, RoundIs;
    forall k {:trigger rounds[k]} | 0 <= k < |rounds|
      ensures RoundIs(rounds[k])
    {
      assert RoundFits(rounds[k], cache);
      RoundFacts(rounds[k]);
    }
  }

  lemma ConversationValid(rounds: seq<Round>, cache: Cache)
    requires AllRounds(rounds) && Coherent(rounds, cache)
    ensures Validate(Conversation(rounds), cache).Ok?
  {
    hide Conversation, AllRounds, Separate, Validate, RoundFits, NamesFit, CallsNamed, ResultsPaired;
    ConversationPaired(rounds);
    CachedNamesFit(rounds, cache);
    WellPairedIsValid(Conversation(rounds), cache);
  }

  lemma RecoverableComesBack(rounds: seq<Round>, cache: Cache, hash: seq<Item> -> string)
    requires Coherent(rounds, cache) && AllRecoverable(rounds, cache) && ExpectedAll(rounds, cache, hash) != []
    ensures var sent := Convert(Conversation(rounds), cache, hash);
            sent.Ok? && Flatten(sent.value) == ExpectedAll(rounds, cache, hash)
  {
    hide Conversation, Coherent, AllRounds, Validate, Scan, Answered, EmitAll, Normalized, Flatten, KeepSubstantial, Alternating, RoundReady, Recoverable,
         Finished, ExpectedAll, Substantial;
    var h := Conversation(rounds);
    var t := Scan(h, cache);
    AllRoundFacts(rounds, cache);
    ConversationValid(rounds, cache);
    forall k {:trigger rounds[k]} | 0 <= k < |rounds|
      ensures RoundReady(rounds[k], t, cache, Answered(t, h))
    {
      AllReady(rounds, cache, k);
    }
    RoundsEmitted(rounds, t, cache, Answered(t, h), hash);
    var raw := RawContents(h, cache, hash).value;
    NormalizedKeeps(raw);
    AllExpectedKept(rounds, cache, hash);
    KeepAll(ExpectedAll(rounds, cache, hash));
    NothingFlattens();
  }

  predicate RoundHeld(r: Round) {
    Held(Finished(r), r.client)
  }

  lemma HeldIsRecoverable(rounds: seq<Round>, cache: Cache, hash: seq<Item> -> string, k: nat)
    requires Coherent(rounds, cache) && k < |rounds| && RoundHeld(rounds[k]) && Convert(Conversation(rounds), cache, hash).Ok?
    ensures RoundRecoverable(rounds[k], cache)
  {
    hide Conversation, Coherent, AllRounds, Validate, Scan, Answered, EmitAll, Normalized, Ready, Recoverable, Finished, Segment, Carried, Held;
    var h, r := Conversation(rounds), rounds[k];
    var t := Scan(h, cache);
    AllRoundFacts(rounds, cache);
    AllReady(rounds, cache, k);
    EachEmitted(rounds, t, cache, Answered(t, h), hash, k);
    var hash': seq<Item> -> string :| EmitAll(t, cache, Answered(t, h), Segment(r), |Segment(r)|, hash').Ok?;
    HeldCallIsRecoverable(Finished(r), r.client, Segment(r), t, cache, Answered(t, h), hash');
  }

  lemma {:induction false} EachSigned(rounds: seq<Round>, cache: Cache, hash: seq<Item> -> string, k: nat)
    requires k < |rounds| && AllSigned(ExpectedAll(rounds, cache, hash))
    ensures AllSigned(ExpectedOf(rounds[k], cache, After(hash, Conversation(rounds[..k]))))
    decreases |rounds|
  {
    hide ExpectedOf, Conversation, After;
    var n := |rounds| - 1;
    var a, b := ExpectedAll(rounds[..n], cache, hash), ExpectedOf(rounds[n], cache, After(hash, Conversation(rounds[..n])));
    assert forall i :: 0 <= i < |a| ==> (a + b)[i] == a[i];
    assert forall i :: 0 <= i < |b| ==> (a + b)[|a| + i] == b[i];
    if k < n {
      assert rounds[..n][k] == rounds[k] && rounds[..n][..k] == rounds[..k];
      EachSigned(rounds[..n], cache, hash, k);
    }
  }

  lemma UnheldComesBack(rounds: seq<Round>, cache: Cache, hash: seq<Item> -> string, k: nat)
    requires Coherent(rounds, cache) && k < |rounds| && !RoundHeld(rounds[k]) && Convert(Conversation(rounds), cache, hash).Ok?
    requires Flatten(Convert(Conversation(rounds), cache, hash).value) == ExpectedAll(rounds, cache, hash)
    ensures RoundRecoverable(rounds[k], cache)
  {
    hide Conversation, Coherent, AllRounds, Convert, Flatten, ExpectedAll, AllSigned, Recoverable, Finished, Held, Carried, Expected, ProperIds, Shape,
         Segment, After;
    AllRoundFacts(rounds, cache);
    ConversionIsPaired(Conversation(rounds), cache, hash);
    EachSigned(rounds, cache, hash, k);
    assert RoundIs(rounds[k]) by { OfAll(rounds, k); }
    RoundParts(rounds[k]);
    UncarriedIsRecoverable(Finished(rounds[k]), rounds[k].client, cache, After(hash, Conversation(rounds[..k])));
  }

  lemma OfAll(rounds: seq<Round>, k: nat)
    requires AllRounds(rounds) && k < |rounds|
    ensures RoundIs(rounds[k])
  {
    hide RoundIs;
  }

  lemma OnlyRecoverableComesBack(rounds: seq<Round>, cache: Cache, hash: seq<Item> -> string)
    requires Coherent(rounds, cache) && Convert(Conversation(rounds), cache, hash).Ok?
    ensures Flatten(Convert(Conversation(rounds), cache, hash).value) == ExpectedAll(rounds, cache, hash) ==>
              AllRecoverable(rounds, cache) && ExpectedAll(rounds, cache, hash) != []
  {
    hide Conversation, Coherent, Flatten, ExpectedAll, RawContents, Normalized, RoundRecoverable, RoundHeld, Alternating;
    var sent := Convert(Conversation(rounds), cache, hash).value;
    if Flatten(sent) == ExpectedAll(rounds, cache, hash) {
      forall k {:trigger rounds[k]} | 0 <= k < |rounds|
        ensures RoundRecoverable(rounds[k], cache)
      {
        if RoundHeld(rounds[k]) {
          HeldIsRecoverable(rounds, cache, hash, k);
        } else {
          UnheldComesBack(rounds, cache, hash, k);
        }
      }
      NormalizedKeeps(RawContents(Conversation(rounds), cache, hash).value);
      EmptyFlatten(sent);
    }
  }

  /** The client sends the carrier or relies on the cache, and some call has no signature to come back with. */
  predicate HeldButLost(r: Round, cache: Cache) {
    RoundHeld(r) && !RoundRecoverable(r, cache)
  }

  /**
   * The round trip of a whole conversation, exactly. Take any turns with ids of their own,
   * accumulate and render each, let the client drop or stamp the reasoning item, strip signatures of
   * calls, show any signatures for texts and add one result per call, send everything back, and
   * convert with any cache in which the ids of these turns lead to their own records or to none, and
   * that remembers the calls whose reasoning item was dropped. What comes back is, turn by turn, the
   * prompt, the texts with the signature shown or else their own, the calls in order with their
   * signatures and upstream ids, each unsigned call with the signature of its lead, and the
   * responses under the ids of their calls: if and only if every turn is recoverable (and anything
   * is left to send). A turn with a carrier or records that is not recoverable makes the whole
   * conversion fail.
   */
  lemma ConversationRoundTrip(rounds: seq<Round>, cache: Cache, hash: seq<Item> -> string)
    requires Coherent(rounds, cache)
    ensures var sent, expected := Convert(Conversation(rounds), cache, hash), ExpectedAll(rounds, cache, hash);
            && (sent.Ok? && Flatten(sent.value) == expected <==> AllRecoverable(rounds, cache) && expected != [])
            && ((exists k {:trigger rounds[k]} :: 0 <= k < |rounds| && HeldButLost(rounds[k], cache)) ==> sent.Err?)
  {
    hide Conversation, Coherent, Convert, Flatten, ExpectedAll, AllRecoverable, RoundRecoverable, RoundHeld;
    if AllRecoverable(rounds, cache) && ExpectedAll(rounds, cache, hash) != [] {
      RecoverableComesBack(rounds, cache, hash);
    }
    if Convert(Conversation(rounds), cache, hash).Ok? {
      OnlyRecoverableComesBack(rounds, cache, hash);
      forall k {:trigger rounds[k]} | 0 <= k < |rounds|
        ensures !HeldButLost(rounds[k], cache)
      {
        if RoundHeld(rounds[k]) {
          HeldIsRecoverable(rounds, cache, hash, k);
        }
      }
    }
  }

  /** A carried text comes back with its own signature exactly when the client shows that one or none. */
  lemma OwnTextBack(d: Draft, c: Client, cache: Cache, i: nat, prefixHash: string)
    requires i < |d.parts| && d.parts[i].TextRec? && Carried(d, c)
    ensures var r := d.parts[i];
            TextBack(d, c, cache, i, prefixHash) == r.sig <==> c.textSig(r.itemId) == "" || c.textSig(r.itemId) == r.sig
  {
    hide Carried;
  }

  // ----- one turn and an empty cache

  /** The first call is signed and only calls lie between it and call `i`. */
  predicate FollowsSignedFirst(parts: seq<Record>, i: nat)
    requires i < |parts|
  {
    match FirstCall(parts)
    case None => false
    case Some(f) => parts[f].sig != "" && forall m :: f < m < i ==> parts[m].CallRec?
  }

  predicate CarriesItself(parts: seq<Record>) {
    forall i :: 0 <= i < |parts| && parts[i].CallRec? ==>
      !StartsWithSeparator(parts[i].name) && (parts[i].sig == "" ==> FollowsSignedFirst(parts, i))
  }

  lemma FirstCallLeads(parts: seq<Record>, i: nat)
    requires i < |parts| && parts[i].CallRec? && parts[i].sig == ""
    ensures FollowsSignedFirst(parts, i) <==> LeadFor(parts, i).Some? && FirstCall(parts) == LeadFor(parts, i) && LeadFor(parts, i).value < i
  {
    hide FirstCall;
    var f := FirstCall(parts).value;
    if FollowsSignedFirst(parts, i) {
      assert Leads(parts, i, f);
    }
  }

  lemma NothingBacked(max: Capacity, parts: seq<Record>)
    ensures Backs(Fresh(max), parts)
    ensures forall a, b :: !IsVerifiedSibling(Fresh(max), a, b)
  {
  }

  /** What a carrier brings back by itself, it brings back beside any cache. */
  lemma CarriesItselfAnywhere(cache: Cache, parts: seq<Record>)
    requires CarriesItself(parts)
    ensures Recoverable(cache, parts, true)
  {
    hide FollowsSignedFirst, LeadFor, FirstCall, IsVerifiedSibling, StartsWithSeparator;
    forall i {:trigger CallRecoverable(cache, parts, true, i)} | 0 <= i < |parts|
      ensures CallRecoverable(cache, parts, true, i)
    {
      if parts[i].CallRec? && parts[i].sig == "" {
        FirstCallLeads(parts, i);
      }
    }
  }

  lemma RecoverableAlone(max: Capacity, parts: seq<Record>)
    ensures Recoverable(Fresh(max), parts, true) <==> CarriesItself(parts)
  {
    hide FollowsSignedFirst, LeadFor, FirstCall, IsVerifiedSibling, StartsWithSeparator;
    NothingBacked(max, parts);
    forall i | 0 <= i < |parts| && parts[i].CallRec?
      ensures CallRecoverable(Fresh(max), parts, true, i) <==>
              !StartsWithSeparator(parts[i].name) && (parts[i].sig == "" ==> FollowsSignedFirst(parts, i))
    {
      if parts[i].sig == "" {
        FirstCallLeads(parts, i);
      }
    }
    if Recoverable(Fresh(max), parts, true) {
      assert forall i :: 0 <= i < |parts| ==> CallRecoverable(Fresh(max), parts, true, i);
    }
  }

  /** A turn that needs no carrier recovers no call, with or without one. */
  lemma NoCarrierNeeded(d: Draft, cache: Cache)
    requires ProperIds(d.parts) && !NeedsReasoning(TurnOf(d))
    ensures Recoverable(cache, d.parts, false) <==> Recoverable(cache, d.parts, true)
  {
    hide NeedsReasoning, TurnOf, DistinctItems, DistinctCalls, SiblingOf, StartsWithSeparator;
    forall i | 0 <= i < |d.parts|
      ensures CallRecoverable(cache, d.parts, false, i) <==> CallRecoverable(cache, d.parts, true, i)
    {
      if d.parts[i].CallRec? && LeadFor(d.parts, i).Some? {
        Uncarried(d, LeadFor(d.parts, i).value);
      }
    }
    assert forall i :: 0 <= i < |d.parts| ==> (CallRecoverable(cache, d.parts, false, i) <==> CallRecoverable(cache, d.parts, true, i));
  }

  /**
   * The round trip of one turn through its carrier alone, with an empty cache: the turn comes back
   * if and only if no tool name begins with "__" and each unsigned call follows the signed first
   * call without a text between (and anything is left to send).
   */
  lemma CarrierRoundTrip(ctx: Ctx, ps: seq<Part>, c: Client, max: Capacity, hash: seq<Item> -> string)
    requires ctx.Valid() && !c.carries.Dropped?
    ensures var t := Built(ctx, ps);
            var expected := Expected(Finished(Round(ctx, ps, c)), c, Fresh(max), hash);
            var sent := Convert(History(t, c), Fresh(max), hash);
            && (sent.Ok? && Flatten(sent.value) == expected <==> CarriesItself(t.parts) && expected != [])
            && (NeedsReasoning(t) && !CarriesItself(t.parts) ==> sent.Err?)
  {
    hide Run, History, Recoverable, CarriesItself, Expected, Convert, Flatten, Final, NeedsReasoning, ToolSigs, TextSigs, Siblings, Order, Backs,
         UpstreamNamed, ProperIds, Shape, Marked, After;
    var r := Round(ctx, ps, c);
    var d := Finished(r);
    NothingBacked(max, d.parts);
    RecoverableAlone(max, d.parts);
    RoundFacts(r);
    RoundParts(r);
    if !NeedsReasoning(TurnOf(d)) {
      NoCarrierNeeded(d, Fresh(max));
    }
    OneRound(r, Fresh(max), hash);
    assert [r][0] == r;
    ConversationRoundTrip([r], Fresh(max), hash);
    assert HeldButLost([r][0], Fresh(max)) <==> NeedsReasoning(TurnOf(d)) && !Recoverable(Fresh(max), d.parts, true);
  }

  lemma OneRound(r: Round, cache: Cache, hash: seq<Item> -> string)
    ensures Conversation([r]) == Segment(r) && ExpectedAll([r], cache, hash) == ExpectedOf(r, cache, hash)
  {
    hide Segment, Expected, Finished;
    assert [r][..0] == [];
    assert Conversation([]) + Segment(r) == Segment(r);
    SameHash(hash);
    assert ExpectedAll([], cache, hash) + ExpectedOf(r, cache, After(hash, [])) == ExpectedOf(r, cache, After(hash, []));
    SameExpected(r, cache, hash, After(hash, []));
  }

  lemma SameHash(hash: seq<Item> -> string)
    ensures forall s: seq<Item> :: After(hash, [])(s) == hash(s)
  {
    assert forall s: seq<Item> :: [] + s == s;
  }

  lemma SameExpected(r: Round, cache: Cache, hash: seq<Item> -> string, hash': seq<Item> -> string)
    requires forall s: seq<Item> :: hash'(s) == hash(s)
    ensures ExpectedOf(r, cache, hash') == ExpectedOf(r, cache, hash)
  {
    hide Finished, TextBack, Before;
    SameModel(Finished(r), r.client, cache, hash, hash', |Finished(r).parts|);
  }

  lemma {:induction false} SameModel(d: Draft, c: Client, cache: Cache, hash: seq<Item> -> string, hash': seq<Item> -> string, n: nat)
    requires n <= |d.parts| && forall s: seq<Item> :: hash'(s) == hash(s)
    ensures ModelParts(d, c, cache, hash', n) == ModelParts(d, c, cache, hash, n)
  {
    hide TextBack, Before, ReplaySig;
    if n > 0 {
      SameModel(d, c, cache, hash, hash', n - 1);
    }
  }
}
