/** A stored turn replayed in a chat: its unsigned calls take the signature of their recorded siblings. */
module ChatSiblings {
  import opened Core
  import opened Turns
  import opened Caches
  import opened Provenance
  import opened CacheLaws
  import opened Translate
  import opened RoundTrip
  import opened Conversations
  import opened ConversationSessions
  import opened Chats
  import opened ChatLaws
  import opened ChatEmission

  /** The chat call replays call `i` of the turn as it was, with its signature or without. */
  predicate OfTurn(parts: seq<Record>, call: ToolCall, i: nat) {
    && i < |parts| && parts[i].CallRec? && call.id == parts[i].callId && SameToolCall(parts[i].name, parts[i].args, call)
    && (call.sig == "" || call.sig == parts[i].sig)
  }

  /** Every call of the message replays one of the turn. */
  predicate FromTurn(parts: seq<Record>, m: Message) {
    m.details == [] && forall k :: 0 <= k < |m.calls| ==> exists i :: 0 <= i < |parts| && OfTurn(parts, m.calls[k], i)
  }

  /** Call `l` of the turn is signed and in the message, and one of the two calls is the turn's first. */
  predicate LendsIn(parts: seq<Record>, m: Message, l: nat, i: nat) {
    && l < |parts| && l != i && parts[l].CallRec? && parts[l].sig != ""
    && (FirstCall(parts) == Some(l) || FirstCall(parts) == Some(i))
    && exists k :: 0 <= k < |m.calls| && OfTurn(parts, m.calls[k], l)
  }

  /** Some call of the message lends this signature. */
  predicate LentIn(parts: seq<Record>, m: Message, i: nat, sig: string) {
    exists l: nat :: l < |parts| && LendsIn(parts, m, l, i) && parts[l].sig == sig
  }

  // ----- against a cache that knows the turn

  /** Every call of the turn is found as it was recorded, and the first one is on record with all others. */
  ghost predicate Knows(cache: Cache, parts: seq<Record>) {
    && DistinctCalls(parts)
    && (forall i :: 0 <= i < |parts| && parts[i].CallRec? ==>
          GetTool(cache, parts[i].callId).Some? && RecordOf(GetTool(cache, parts[i].callId).value, parts[i]) && parts[i].callId.CallId?)
    && (forall l: nat, i: nat :: l < |parts| && i < |parts| && l != i && parts[l].CallRec? && parts[i].CallRec? ==>
          (IsVerifiedSibling(cache, parts[l].callId, parts[i].callId) <==> FirstCall(parts) == Some(l) || FirstCall(parts) == Some(i)))
  }

  lemma SigOf(cache: Cache, parts: seq<Record>, call: ToolCall, i: nat)
    requires Knows(cache, parts) && OfTurn(parts, call, i)
    ensures CachedSig(cache, call.id) == parts[i].sig && OtherSig(call, cache) == parts[i].sig && CachedUpstream(cache, call.id) == parts[i].upstreamId
    ensures CountedRecord(cache, call).Some? && CachedSigOf(cache, call) == parts[i].sig && !DiffersFrom(GetTool(cache, call.id).value, call)
    ensures parts[i].sig != "" ==> LendableSig(call, cache) == parts[i].sig
    ensures call.id.CallId?
  {
    hide GetTool, IsVerifiedSibling, DistinctCalls, FirstCall;
    StoredFields(GetTool(cache, parts[i].callId).value, parts[i]);
  }

  /** Another call of the message lends exactly if it is signed and one of the two comes first in the turn. */
  lemma LendsIs(cache: Cache, parts: seq<Record>, m: Message, k: nat, call: ToolCall, l: nat, i: nat)
    requires Knows(cache, parts) && k < |m.calls| && OfTurn(parts, m.calls[k], l) && OfTurn(parts, call, i)
    ensures Lends(m.calls[k], call, cache) <==> LendsIn(parts, m, l, i)
  {
    hide IsVerifiedSibling, GetTool, DistinctCalls, FirstCall, OtherSig, RecordOf, SameToolCall;
    SigOf(cache, parts, m.calls[k], l);
    if l != i {
      OtherCall(parts, l, i);
    }
  }

  lemma OtherCall(parts: seq<Record>, l: nat, i: nat)
    requires DistinctCalls(parts) && l < |parts| && i < |parts| && l != i && parts[l].CallRec? && parts[i].CallRec?
    ensures parts[l].callId != parts[i].callId
  {
  }

  lemma TwoCallsIn(parts: seq<Record>, m: Message, call: ToolCall, l: nat, i: nat)
    requires DistinctCalls(parts) && LendsIn(parts, m, l, i) && call in m.calls && OfTurn(parts, call, i)
    ensures |m.calls| > 1
  {
    hide DistinctCalls, FirstCall;
    OtherCall(parts, l, i);
    var k :| 0 <= k < |m.calls| && OfTurn(parts, m.calls[k], l);
    assert m.calls[k].id != call.id;
  }

  lemma ClaimIs(parts: seq<Record>, m: Message, call: ToolCall, cache: Cache, i: nat)
    requires FromTurn(parts, m) && OfTurn(parts, call, i)
    ensures ClaimedSig(m, call, cache) == call.sig && (call.sig == "" || call.sig == parts[i].sig) && call.id == parts[i].callId
  {
    hide SameToolCall;
  }

  lemma FirstLender(m: Message, call: ToolCall, cache: Cache, k: nat) returns (first: nat)
    requires k < |m.calls| && Lends(m.calls[k], call, cache)
    ensures first < |m.calls| && Lends(m.calls[first], call, cache) && forall j :: 0 <= j < first ==> !Lends(m.calls[j], call, cache)
  {
    hide Lends;
    first := 0;
    while !Lends(m.calls[first], call, cache)
      invariant first <= k && forall j :: 0 <= j < first ==> !Lends(m.calls[j], call, cache)
      decreases k - first
    {
      first := first + 1;
    }
  }

  /** The lenders of the scan are those of the turn. */
  lemma LendersAre(cache: Cache, parts: seq<Record>, m: Message, call: ToolCall, i: nat)
    requires Knows(cache, parts) && FromTurn(parts, m) && call in m.calls && OfTurn(parts, call, i)
    ensures var lent := SiblingScan(m.calls, call, cache).1;
            && (lent.Some? <==> exists l: nat :: LendsIn(parts, m, l, i))
            && (lent.Some? ==> LentIn(parts, m, i, lent.value) && lent.value != "" && |m.calls| > 1)
  {
    hide GetTool, Knows, SiblingScan, OfTurn, Lends, SignedOther, LendableSig, FirstCall;
    SiblingScanIs(m.calls, call, cache);
    if k :| 0 <= k < |m.calls| && Lends(m.calls[k], call, cache) {
      var first := FirstLender(m, call, cache, k);
      var l: nat :| l < |parts| && OfTurn(parts, m.calls[first], l);
      LendsIs(cache, parts, m, first, call, l, i);
      SigOf(cache, parts, m.calls[first], l);
      assert DistinctCalls(parts) by { KnowsDistinct(cache, parts); }
      TwoCallsIn(parts, m, call, l, i);
    }
    if l: nat :| LendsIn(parts, m, l, i) {
      var k :| 0 <= k < |m.calls| && OfTurn(parts, m.calls[k], l);
      LendsIs(cache, parts, m, k, call, l, i);
    }
  }

  lemma KnowsDistinct(cache: Cache, parts: seq<Record>)
    requires Knows(cache, parts)
    ensures DistinctCalls(parts)
  {
  }

  /** What a call of the turn is sent as. */
  ghost predicate SentFromTurn(parts: seq<Record>, m: Message, call: ToolCall, i: nat, answered: set<Id>, sent: Result<Part, PolicyError>)
    requires OfTurn(parts, call, i)
  {
    && (sent.Ok? <==> call.id in answered && (parts[i].sig != "" || exists l: nat :: LendsIn(parts, m, l, i)))
    && (sent.Ok? ==>
          && sent.value.call == Some(FunctionCall(call.name, call.args, OutId(parts[i])))
          && sent.value == CallPart(call.name, call.args, OutId(parts[i]), sent.value.sig)
          && if parts[i].sig != "" then sent.value.sig == parts[i].sig else LentIn(parts, m, i, sent.value.sig))
  }

  lemma KnownTurn(cache: Cache, parts: seq<Record>, m: Message, call: ToolCall, answered: set<Id>, i: nat)
    requires Knows(cache, parts) && FromTurn(parts, m) && call in m.calls && OfTurn(parts, call, i)
    ensures SentFromTurn(parts, m, call, i, answered, EmitChatCall(m, call, answered, cache))
  {
    hide GetTool, Knows, EmitChatCall, SiblingScan, CachedUpstream, LendsIn, OfTurn, LentIn, FromTurn, ClaimedSig,
         Lends, SignedOther, LendableSig, CachedSigOf, CountedRecord, DiffersFrom, CachedSig, SameToolCall;
    assert i < |parts| && parts[i].CallRec? by { IsCallOf(parts, call, i); }
    SigOf(cache, parts, call, i);
    EmittedChatCallIs(m, call, answered, cache);
    ClaimIs(parts, m, call, cache, i);
    LendersAre(cache, parts, m, call, i);
  }

  lemma IsCallOf(parts: seq<Record>, call: ToolCall, i: nat)
    requires OfTurn(parts, call, i)
    ensures i < |parts| && parts[i].CallRec?
  {
  }

  // ----- against every reachable cache that holds the turn

  /** The turn was stored and its records are live. */
  ghost predicate Holds(max: Capacity, stored: seq<Stored>, b: Round) {
    && LegalRun(Fresh(max), OpsOf(stored)) && LeadsVisited(stored) && StoredApart(stored, b) && b.ctx.Valid() && FromUpstream(b.ps)
    && StoredIn(stored, b) && b.client.carries.Dropped? && RecordsLive(RunFrom(Fresh(max), OpsOf(stored)), b)
  }

  lemma HeldIsKnown(max: Capacity, stored: seq<Stored>, b: Round)
    requires Holds(max, stored, b)
    ensures Knows(RunFrom(Fresh(max), OpsOf(stored)), Finished(b).parts)
  {
    hide LegalRun, RunFrom, OpsOf, RoundIs, Finished, StoredApart, LeadsVisited, StoredIn, RecordOf, GetTool, Shape, DistinctItems, DistinctCalls,
         IsVerifiedSibling, FirstCall;
    RoundIsBacked(max, stored, b);
    RoundFacts(b);
    RoundParts(b);
    var parts, cache := Finished(b).parts, RunFrom(Fresh(max), OpsOf(stored));
    forall i | 0 <= i < |parts| && parts[i].CallRec?
      ensures GetTool(cache, parts[i].callId).Some? && RecordOf(GetTool(cache, parts[i].callId).value, parts[i]) && parts[i].callId.CallId?
    {
      assert Backed(cache, parts[i]) && Conversations.Marked(parts[i], b.ctx);
    }
    forall l: nat, i: nat | l < |parts| && i < |parts| && l != i && parts[l].CallRec? && parts[i].CallRec?
      ensures IsVerifiedSibling(cache, parts[l].callId, parts[i].callId) <==> FirstCall(parts) == Some(l) || FirstCall(parts) == Some(i)
    {
      CallsAreSiblings(max, stored, b, l, i);
    }
  }

  /**
   * A call of a stored turn replayed in a chat message with other calls of the turn is sent exactly
   * when it is answered and signed in the turn, or a signed one of the others can lend to it: the
   * turn's first call to any, and any to the first. It goes out under its upstream id with its own
   * signature, or else with that of such a sibling; whatever else the cache went through.
   */
  lemma StoredChatCallComesBack(max: Capacity, stored: seq<Stored>, b: Round, m: Message, call: ToolCall, answered: set<Id>, i: nat)
    requires Holds(max, stored, b) && FromTurn(Finished(b).parts, m) && call in m.calls && OfTurn(Finished(b).parts, call, i)
    ensures SentFromTurn(Finished(b).parts, m, call, i, answered, EmitChatCall(m, call, answered, RunFrom(Fresh(max), OpsOf(stored))))
  {
    hide RunFrom, OpsOf, Finished, Holds, EmitChatCall, SentFromTurn, OfTurn, FromTurn, Knows;
    HeldIsKnown(max, stored, b);
    KnownTurn(RunFrom(Fresh(max), OpsOf(stored)), Finished(b).parts, m, call, answered, i);
  }
}
