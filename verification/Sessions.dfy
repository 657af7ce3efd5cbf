/**
 * Turns in one cache: populating it, and replaying a signed call after any number of other
 * turns, restarts included.
 */
module Sessions {
  import opened Core
  import opened Turns
  import opened Caches
  import opened CacheLaws
  import opened CacheStore
  import opened Translate

  // ----- populating the cache with a turn

  function CacheAliases(callId: Id, itemId: Id): seq<Id> {
    if itemId == NO_ID then [] else if callId == NO_ID then [itemId] else [itemId, Joined(callId, itemId)]
  }

  function CacheRecord(ctx: Ctx, r: Record): ToolRecord
    requires r.CallRec?
  {
    ToolRecord(r.callId, r.itemId, r.upstreamId, r.name, r.args, r.sig, ctx.model, ctx.turnId, false)
  }

  function PutCallOp(ctx: Ctx, r: Record): Op
    requires r.CallRec?
  {
    PutToolOp(CacheRecord(ctx, r), CacheAliases(r.callId, r.itemId))
  }

  /** The puts for one record; tool calls begin with their tool record. */
  function RecordOps(ctx: Ctx, r: Record, prefixHash: string): seq<Op> {
    match r
    case TextRec(_, itemId, text, sig) =>
      if sig == "" then []
      else [PutMessageOp(itemId, sig)] + if prefixHash == "" then [] else [PutContextOp(ResponsesContextKey(prefixHash, text), sig)]
    case CallRec(_, itemId, callId, _, _, _, sig) =>
      [PutCallOp(ctx, r)] +
      if sig == "" then []
      else [PutMessageOp(callId, sig)] + if itemId == NO_ID then [] else [PutMessageOp(itemId, sig)]
  }

  function PartOps(ctx: Ctx, parts: seq<Record>, prefixHash: string): seq<Op> {
    if parts == [] then []
    else PartOps(ctx, parts[..|parts| - 1], prefixHash) + RecordOps(ctx, parts[|parts| - 1], prefixHash)
  }

  function SiblingOps(siblings: map<Id, seq<Id>>, leads: seq<Id>): seq<Op> {
    if leads == [] then []
    else
      var lead := leads[|leads| - 1];
      SiblingOps(siblings, leads[..|leads| - 1]) + if lead in siblings then [SiblingsOp(lead, siblings[lead])] else []
  }

  /** The cache operations of one turn; `leads` is the order in which the sibling map is visited. */
  function TurnOps(t: Turn, prefixHash: string, leads: seq<Id>): seq<Op> {
    PartOps(t.ctx, t.parts, prefixHash) + SiblingOps(t.siblings, leads)
  }

  lemma {:induction false} RunConcat(c: Cache, a: seq<Op>, b: seq<Op>)
    ensures RunFrom(c, a + b) == RunFrom(RunFrom(c, a), b)
  {
    hide Apply;
    if b == [] {
      assert a + b == a;
    } else {
      RunConcat(c, a, b[..|b| - 1]);
      assert (a + b)[..|a + b| - 1] == a + b[..|b| - 1];
    }
  }

  lemma RunOne(c: Cache, op: Op)
    ensures RunFrom(c, [op]) == Apply(c, op)
  {
    hide Apply;
    assert [op][..0] == [];
  }

  method PopulateRecord(ctx: Ctx, r: Record, prefixHash: string, cache: SignatureCache)
    modifies cache
    ensures cache.View() == RunFrom(old(cache.View()), RecordOps(ctx, r, prefixHash))
  {
    hide PutTool, PutContext, PutMessage, ResponsesContextKey, RunFrom;
    ghost var c := cache.View();
    match r
    case TextRec(_, itemId, text, sig) =>
      RunNone(c);
      if sig != "" {
        cache.PutMessageSignature(itemId, sig);
        RunOne(c, PutMessageOp(itemId, sig));
        if prefixHash != "" {
          cache.PutContextSignature(ResponsesContextKey(prefixHash, text), sig);
          RunMore(c, [PutMessageOp(itemId, sig)], PutContextOp(ResponsesContextKey(prefixHash, text), sig));
        }
        assert [PutMessageOp(itemId, sig)] + [] == [PutMessageOp(itemId, sig)];
      }
    case CallRec(_, itemId, callId, _, _, _, sig) =>
      cache.PutToolRecord(CacheRecord(ctx, r), CacheAliases(callId, itemId));
      RunOne(c, PutCallOp(ctx, r));
      assert [PutCallOp(ctx, r)] + [] == [PutCallOp(ctx, r)];
      if sig != "" {
        cache.PutMessageSignature(callId, sig);
        var ops := [PutCallOp(ctx, r)] + [PutMessageOp(callId, sig)];
        RunMore(c, [PutCallOp(ctx, r)], PutMessageOp(callId, sig));
        if itemId != NO_ID {
          cache.PutMessageSignature(itemId, sig);
          RunMore(c, ops, PutMessageOp(itemId, sig));
          assert ops + [PutMessageOp(itemId, sig)] == [PutCallOp(ctx, r)] + ([PutMessageOp(callId, sig)] + [PutMessageOp(itemId, sig)]);
        }
        assert [PutMessageOp(callId, sig)] + [] == [PutMessageOp(callId, sig)];
      }
  }

  lemma RunNone(c: Cache)
    ensures RunFrom(c, []) == c
  {
  }

  lemma RunMore(c: Cache, ops: seq<Op>, op: Op)
    ensures RunFrom(c, ops + [op]) == Apply(RunFrom(c, ops), op)
  {
    hide Apply;
    assert (ops + [op])[..|ops|] == ops;
  }

  method PopulateCache(t: Turn, prefixHash: string, cache: SignatureCache) returns (ghost leads: seq<Id>)
    modifies cache
    ensures Visits(leads, t.siblings.Keys)
    ensures cache.View() == RunFrom(old(cache.View()), TurnOps(t, prefixHash, leads))
  {
    hide RecordOps, RunFrom, Visits, Apply;
    ghost var c := cache.View();
    RunNone(c);
    for i := 0 to |t.parts|
      invariant cache.View() == RunFrom(c, PartOps(t.ctx, t.parts[..i], prefixHash))
    {
      assert t.parts[..i + 1][..i] == t.parts[..i];
      PopulateRecord(t.ctx, t.parts[i], prefixHash, cache);
      RunConcat(c, PartOps(t.ctx, t.parts[..i], prefixHash), RecordOps(t.ctx, t.parts[i], prefixHash));
    }
    assert t.parts[..|t.parts|] == t.parts;
    leads := PopulateSiblings(t.siblings, cache);
    RunConcat(c, PartOps(t.ctx, t.parts, prefixHash), SiblingOps(t.siblings, leads));
  }

  method PopulateSiblings(siblings: map<Id, seq<Id>>, cache: SignatureCache) returns (ghost leads: seq<Id>)
    modifies cache
    ensures Visits(leads, siblings.Keys)
    ensures cache.View() == RunFrom(old(cache.View()), SiblingOps(siblings, leads))
  {
    hide RunFrom, RecordSiblings;
    ghost var c := cache.View();
    RunNone(c);
    leads := [];
    var rest := siblings.Keys;
    while rest != {}
      invariant rest <= siblings.Keys && Visits(leads, siblings.Keys - rest)
      invariant cache.View() == RunFrom(c, SiblingOps(siblings, leads))
    {
      var lead :| lead in rest;
      cache.RecordTurnSiblings(lead, siblings[lead]);
      RunMore(c, SiblingOps(siblings, leads), SiblingsOp(lead, siblings[lead]));
      ElemsSnoc(leads, lead);
      assert (leads + [lead])[..|leads|] == leads;
      assert siblings.Keys - rest + {lead} == siblings.Keys - (rest - {lead});
      rest := rest - {lead};
      leads := leads + [lead];
    }
    assert siblings.Keys - {} == siblings.Keys;
  }
}
