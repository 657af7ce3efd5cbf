/** Conversations against a cache that any number of turns were stored in, restarts included. */
module ConversationSessions {
  import opened Core
  import opened Turns
  import opened Caches
  import opened CacheLaws
  import Exchange
  import opened Normalize
  import opened Translate
  import opened RoundTrip
  import opened Sessions
  import opened SessionLaws
  import opened Conversations
  import RoundTripLaws

  // ----- operations that leave a record alone

  predicate OwnId(r: Record, x: Id)
    requires r.CallRec?
  {
    x == r.callId || x == r.itemId || x == Joined(r.callId, r.itemId)
  }

  /** The operation stores under the ids of the record nothing but the record itself. */
  predicate Harmless(op: Op, ctx: Ctx, r: Record) {
    match r
    case TextRec(_, itemId, _, sig) => sig == "" && op.PutMessageOp? ==> op.id != itemId
    case CallRec(_, _, _, _, _, _, _) =>
      op.PutToolOp? ==>
        || op == PutCallOp(ctx, r)
        || (!OwnId(r, op.rec.bridgeId) && forall k :: 0 <= k < |op.aliases| ==> !OwnId(r, op.aliases[k]))
  }

  /** What the cache holds under the ids of the record is the record's own. */
  ghost predicate Guarded(c: Cache, r: Record) {
    match r
    case TextRec(_, itemId, _, sig) => sig == "" ==> itemId !in c.messages.sigs
    case CallRec(_, _, callId, _, _, _, _) =>
      && (forall x :: x in c.records && OwnId(r, x) ==> x == callId && RecordOf(c.records[x], r))
      && (forall x :: x in c.aliases && OwnId(r, x) ==> c.aliases[x] == callId)
  }

  lemma {:induction false} BindsValue(c: Cache, id: Id, aliases: seq<Id>, x: Id)
    ensures var c' := BindAliases(c, id, aliases);
            && c'.records == c.records && c'.messages == c.messages
            && (x in c'.aliases ==> (x in c.aliases && c'.aliases[x] == c.aliases[x]) || (x in aliases && c'.aliases[x] == id))
  {
    if aliases != [] {
      BindsValue(c, id, aliases[..|aliases| - 1], x);
    }
  }

  lemma PutKeepsAliases(c: Cache, rec: ToolRecord, aliases: seq<Id>, x: Id)
    requires Inv(c) && !Refused(c, rec)
    ensures var c' := PutTool(c, rec, aliases);
            && c'.messages == c.messages
            && (x in c'.aliases ==> (x in c.aliases && c'.aliases[x] == c.aliases[x]) || ((x in aliases || x == rec.bridgeId) && c'.aliases[x] == rec.bridgeId))
  {
    hide Inv, Refused, Admit, KeepSig, BindAliases;
    InvOrder(c);
    KeptSig(c, rec);
    AdmitIs(c, KeepSig(c, rec));
    BindsValue(Admit(c, KeepSig(c, rec)), rec.bridgeId, aliases, x);
  }

  lemma OwnPutGuards(c: Cache, ctx: Ctx, r: Record)
    requires Inv(c) && Minted(r) && Guarded(c, r) && !Refused(c, CacheRecord(ctx, r))
    ensures Guarded(Apply(c, PutCallOp(ctx, r)), r)
  {
    hide Inv, Refused, PutTool, Evicted;
    var rec, aliases := CacheRecord(ctx, r), CacheAliases(r.callId, r.itemId);
    PutToolKeeps(c, rec, aliases);
    assert RecordOf(KeepSig(c, rec), r);
    forall x | x in PutTool(c, rec, aliases).aliases && OwnId(r, x)
      ensures PutTool(c, rec, aliases).aliases[x] == r.callId
    {
      PutKeepsAliases(c, rec, aliases, x);
    }
  }

  lemma OtherPutGuards(c: Cache, rec: ToolRecord, aliases: seq<Id>, r: Record)
    requires Inv(c) && Minted(r) && Guarded(c, r) && !Refused(c, rec)
    requires !OwnId(r, rec.bridgeId) && forall k :: 0 <= k < |aliases| ==> !OwnId(r, aliases[k])
    ensures Guarded(PutTool(c, rec, aliases), r)
  {
    hide Inv, Refused, PutTool, Evicted, RecordOf, KeepSig;
    PutToolKeeps(c, rec, aliases);
    forall x | x in PutTool(c, rec, aliases).aliases && OwnId(r, x)
      ensures PutTool(c, rec, aliases).aliases[x] == r.callId
    {
      PutKeepsAliases(c, rec, aliases, x);
    }
  }

  lemma PersistedOf(rec: ToolRecord, r: Record)
    requires r.CallRec? && RecordOf(rec, r)
    ensures RecordOf(PersistedRecord(rec), r)
  {
  }

  lemma RestartGuards(c: Cache, o: Orders, r: Record)
    requires Inv(c) && Legal(c, Restart(o)) && Guarded(c, r)
    ensures Guarded(Apply(c, Restart(o)), r)
  {
    hide Inv, Legal, Load, RecordOf, Apply;
    RestartIs(c, o);
    if r.CallRec? {
      forall x | x in Save(c).records && OwnId(r, x)
        ensures x == r.callId && RecordOf(Save(c).records[x], r)
      {
        SavedRecord(c, x);
        PersistedOf(c.records[x], r);
      }
    }
  }

  lemma CallStaysGuarded(c: Cache, op: Op, ctx: Ctx, r: Record)
    requires Inv(c) && Legal(c, op) && Minted(r) && Harmless(op, ctx, r) && Guarded(c, r)
    ensures Guarded(Apply(c, op), r)
  {
    hide Inv, Legal, Guarded, Refused, PutTool, Load, PutBounded, TrimSpace, CacheRecord;
    match op
    case PutToolOp(rec, aliases) =>
      if Refused(c, rec) {
        RefusedPut(c, rec, aliases);
      } else if op == PutCallOp(ctx, r) {
        OwnPutGuards(c, ctx, r);
      } else {
        OtherPutGuards(c, rec, aliases, r);
      }
    case Restart(o) => RestartGuards(c, o, r);
    case _ => SameToolTables(c, Apply(c, op), r);
  }

  lemma SameToolTables(c: Cache, c': Cache, r: Record)
    requires r.CallRec? && Guarded(c, r) && c'.records == c.records && c'.aliases == c.aliases
    ensures Guarded(c', r)
  {
    hide RecordOf;
  }

  lemma TextStaysGuarded(c: Cache, op: Op, ctx: Ctx, r: Record)
    requires Inv(c) && Legal(c, op) && r.TextRec? && Harmless(op, ctx, r) && Guarded(c, r)
    ensures Guarded(Apply(c, op), r)
  {
    hide Inv, Legal, Refused, PutTool, Load, TrimSpace;
    match op
    case PutToolOp(rec, aliases) =>
      if Refused(c, rec) {
        RefusedPut(c, rec, aliases);
      } else {
        PutKeepsAliases(c, rec, aliases, r.itemId);
      }
    case Restart(o) => RestartIs(c, o);
    case _ =>
  }

  predicate MintedOrText(r: Record) {
    r.TextRec? || Minted(r)
  }

  /** Through every legal run of harmless operations the cache holds nothing foreign under the record's ids. */
  lemma {:induction false} RunGuards(max: Capacity, ops: seq<Op>, ctx: Ctx, r: Record)
    requires LegalRun(Fresh(max), ops) && MintedOrText(r) && forall j :: 0 <= j < |ops| ==> Harmless(ops[j], ctx, r)
    ensures Guarded(RunFrom(Fresh(max), ops), r)
  {
    hide Apply, Harmless, Legal, Guarded, Inv;
    if ops == [] {
      assert Guarded(Fresh(max), r) by { FreshGuarded(max, r); }
    } else {
      var n := |ops| - 1;
      RunGuards(max, ops[..n], ctx, r);
      RunKeeps(max, ops[..n]);
      if r.CallRec? {
        CallStaysGuarded(RunFrom(Fresh(max), ops[..n]), ops[n], ctx, r);
      } else {
        TextStaysGuarded(RunFrom(Fresh(max), ops[..n]), ops[n], ctx, r);
      }
    }
  }

  lemma FreshGuarded(max: Capacity, r: Record)
    ensures Guarded(Fresh(max), r)
  {
  }

  lemma GuardedIsBacked(c: Cache, r: Record)
    requires Guarded(c, r) && MintedOrText(r) && (r.CallRec? ==> r.upstreamId.Name?)
    ensures Backed(c, r)
  {
    hide RecordOf;
  }

  // ----- storing a turn is harmless to itself and to other turns

  /** No id is shared between the records. */
  predicate ApartFrom(p: Record, r: Record) {
    && p.itemId != r.itemId
    && (p.CallRec? && r.CallRec? ==> p.callId != r.callId)
  }

  predicate ProperKind(r: Record) {
    if r.CallRec? then Minted(r) else r.itemId.Name? || r.itemId.MsgId?
  }

  lemma RecordHarmless(ctx: Ctx, p: Record, prefixHash: string, ctx': Ctx, r: Record)
    requires ProperKind(p) && ProperKind(r) && ((ctx == ctx' && p == r) || ApartFrom(p, r))
    ensures forall j :: 0 <= j < |RecordOps(ctx, p, prefixHash)| ==> Harmless(RecordOps(ctx, p, prefixHash)[j], ctx', r)
  {
    hide ResponsesContextKey;
  }

  lemma {:induction false} PartsHarmless(ctx: Ctx, parts: seq<Record>, prefixHash: string, ctx': Ctx, r: Record)
    requires ProperKind(r) && forall i :: 0 <= i < |parts| ==> ProperKind(parts[i]) && ((ctx == ctx' && parts[i] == r) || ApartFrom(parts[i], r))
    ensures forall j :: 0 <= j < |PartOps(ctx, parts, prefixHash)| ==> Harmless(PartOps(ctx, parts, prefixHash)[j], ctx', r)
  {
    hide RecordOps, Harmless, ProperKind, ApartFrom;
    if parts != [] {
      var n := |parts| - 1;
      PartsHarmless(ctx, parts[..n], prefixHash, ctx', r);
      RecordHarmless(ctx, parts[n], prefixHash, ctx', r);
    }
  }

  lemma {:induction false} SiblingsHarmless(siblings: map<Id, seq<Id>>, leads: seq<Id>, ctx: Ctx, r: Record)
    ensures forall j :: 0 <= j < |SiblingOps(siblings, leads)| ==> Harmless(SiblingOps(siblings, leads)[j], ctx, r)
  {
    if leads != [] {
      SiblingsHarmless(siblings, leads[..|leads| - 1], ctx, r);
    }
  }

  /** The same turn, or one with another turn id and another message id. */
  predicate SameOrApart(a: Round, b: Round) {
    (a.ctx == b.ctx && a.ps == b.ps) || (a.ctx.turnId != b.ctx.turnId && a.ctx.base != b.ctx.base)
  }

  lemma RoundKinds(r: Round)
    requires RoundIs(r)
    ensures forall i {:trigger Finished(r).parts[i]} :: 0 <= i < |Finished(r).parts| ==> ProperKind(Finished(r).parts[i])
  {
    hide Finished;
    RoundParts(r);
    forall i {:trigger Finished(r).parts[i]} | 0 <= i < |Finished(r).parts|
      ensures ProperKind(Finished(r).parts[i])
    {
      assert Marked(Finished(r).parts[i], r.ctx);
    }
  }

  lemma RecordsApart(a: Round, b: Round, i: nat, j: nat)
    requires RoundIs(a) && RoundIs(b) && SameOrApart(a, b) && i < |Finished(a).parts| && j < |Finished(b).parts|
    ensures (a.ctx == b.ctx && Finished(a).parts[i] == Finished(b).parts[j]) || ApartFrom(Finished(a).parts[i], Finished(b).parts[j])
  {
    hide RoundIs, Finished, Run, Final, Marked, ApartFrom;
    RoundParts(a);
    RoundParts(b);
    var p, r := Finished(a).parts[i], Finished(b).parts[j];
    assert Marked(p, a.ctx) && Marked(r, b.ctx);
    if a.ctx != b.ctx || a.ps != b.ps {
      MarkedApart(p, a.ctx, r, b.ctx);
    } else {
      assert Finished(a) == Finished(b) by { SameFinished(a, b); }
      RecordsDiffer(Finished(a), i, j);
    }
  }

  lemma SameFinished(a: Round, b: Round)
    requires a.ctx == b.ctx && a.ps == b.ps
    ensures Finished(a) == Finished(b)
  {
    hide Run, Final;
  }

  lemma RecordsDiffer(d: Draft, i: nat, j: nat)
    requires DistinctItems(d.parts) && DistinctCalls(d.parts) && i < |d.parts| && j < |d.parts|
    ensures i == j || ApartFrom(d.parts[i], d.parts[j])
  {
  }

  lemma MarkedApart(p: Record, ctx: Ctx, r: Record, ctx': Ctx)
    requires Marked(p, ctx) && Marked(r, ctx') && ctx.turnId != ctx'.turnId && ctx.base != ctx'.base
    ensures ApartFrom(p, r)
  {
  }

  /** Storing turn `a` is harmless to every record of turn `b`. */
  lemma TurnIsHarmless(a: Round, b: Round, prefixHash: string, leads: seq<Id>, k: nat)
    requires RoundIs(a) && RoundIs(b) && SameOrApart(a, b) && k < |Finished(b).parts|
    ensures var ops := TurnOps(Built(a.ctx, a.ps), prefixHash, leads);
            forall j :: 0 <= j < |ops| ==> Harmless(ops[j], b.ctx, Finished(b).parts[k])
  {
    hide RoundIs, Run, Final, SameOrApart, ProperKind, ApartFrom, Harmless, PartOps, SiblingOps;
    var t, r := Built(a.ctx, a.ps), Finished(b).parts[k];
    RoundParts(a);
    RoundKinds(a);
    RoundKinds(b);
    assert t.parts == Finished(a).parts && t.ctx == a.ctx;
    forall i | 0 <= i < |t.parts|
      ensures ProperKind(t.parts[i]) && ((a.ctx == b.ctx && t.parts[i] == r) || ApartFrom(t.parts[i], r))
    {
      RecordsApart(a, b, i, k);
      assert t.parts[i] == Finished(a).parts[i];
    }
    PartsHarmless(t.ctx, t.parts, prefixHash, b.ctx, r);
    SiblingsHarmless(t.siblings, leads, b.ctx, r);
  }

  // ----- the upstream names its calls itself

  /** Call ids of the upstream are never ids that the bridge mints. */
  predicate FromUpstream(ps: seq<Part>) {
    forall i :: 0 <= i < |ps| && ps[i].call.Some? ==> ps[i].call.value.id.Name?
  }

  lemma {:induction false} RunNamed(ctx: Ctx, ps: seq<Part>)
    requires FromUpstream(ps)
    ensures UpstreamNamed(Run(ctx, ps).parts)
  {
    if ps != [] {
      RunNamed(ctx, ps[..|ps| - 1]);
      StepNamed(Run(ctx, ps[..|ps| - 1]), ps[|ps| - 1]);
    }
  }

  lemma StepNamed(d: Draft, p: Part)
    requires UpstreamNamed(d.parts) && (p.call.Some? ==> p.call.value.id.Name?)
    ensures UpstreamNamed(Step(d, p).parts)
  {
  }

  // ----- siblings: what storing a turn records, and nothing else

  /** The id belongs to some call of the turn. */
  predicate IdOf(parts: seq<Record>, x: Id) {
    exists i :: 0 <= i < |parts| && parts[i].CallRec? && OwnId(parts[i], x)
  }

  predicate FirstId(parts: seq<Record>, x: Id) {
    FirstCall(parts).Some? && parts[FirstCall(parts).value].callId == x
  }

  predicate LaterId(parts: seq<Record>, x: Id) {
    exists i :: 0 <= i < |parts| && parts[i].CallRec? && parts[i].callId == x && FirstCall(parts) != Some(i)
  }

  /** The operation relates calls of the turn as the turn does, or does not speak of them. */
  predicate RelatesOwn(op: Op, parts: seq<Record>) {
    op.SiblingsOp? ==>
      || (FirstId(parts, op.lead) && forall k :: 0 <= k < |op.siblings| ==> LaterId(parts, op.siblings[k]))
      || (!IdOf(parts, op.lead) && forall k :: 0 <= k < |op.siblings| ==> !IdOf(parts, op.siblings[k]))
  }

  ghost predicate AllGuarded(c: Cache, parts: seq<Record>) {
    forall i {:trigger parts[i]} :: 0 <= i < |parts| ==> Guarded(c, parts[i])
  }

  /** A recorded pair speaks of the turn's calls as the turn does, or not at all. */
  predicate PairOwn(parts: seq<Record>, k: Id, s: Id) {
    IdOf(parts, k) || IdOf(parts, s) ==> FirstId(parts, k) && LaterId(parts, s)
  }

  /** No other alias leads to a call of the turn, and siblings of its calls are the turn's own. */
  ghost predicate SiblingInv(c: Cache, parts: seq<Record>) {
    && (forall x, i :: x in c.aliases && 0 <= i < |parts| && parts[i].CallRec? && c.aliases[x] == parts[i].callId ==> OwnId(parts[i], x))
    && (forall k, s {:trigger PairOwn(parts, k, s)} {:trigger s in c.siblings[k]} :: k in c.siblings && s in c.siblings[k] ==> PairOwn(parts, k, s))
  }

  /** Ids outside the turn stay outside when made canonical, and its call ids are canonical. */
  lemma CanonicalIds(c: Cache, parts: seq<Record>, x: Id)
    requires Inv(c) && AllGuarded(c, parts) && SiblingInv(c, parts)
    ensures !IdOf(parts, x) ==> !IdOf(parts, Canonical(c, x))
    ensures forall i :: 0 <= i < |parts| && parts[i].CallRec? && OwnId(parts[i], x) ==> Canonical(c, x) == parts[i].callId || Canonical(c, x) == x
  {
    hide Inv, RecordOf;
    InvOrder(c);
    if x in c.aliases && c.aliases[x] != NO_ID && IdOf(parts, c.aliases[x]) {
      var i :| 0 <= i < |parts| && parts[i].CallRec? && OwnId(parts[i], c.aliases[x]);
      assert Guarded(c, parts[i]);
    }
    forall i | 0 <= i < |parts| && parts[i].CallRec? && OwnId(parts[i], x)
      ensures Canonical(c, x) == parts[i].callId || Canonical(c, x) == x
    {
      assert Guarded(c, parts[i]);
    }
  }

  lemma FirstIsId(parts: seq<Record>, x: Id)
    ensures FirstId(parts, x) || LaterId(parts, x) ==> IdOf(parts, x) && exists i :: 0 <= i < |parts| && parts[i].CallRec? && parts[i].callId == x
  {
    if FirstId(parts, x) {
      var f := FirstCall(parts).value;
      assert OwnId(parts[f], x) && parts[f].callId == x;
    }
    if LaterId(parts, x) {
      var i :| 0 <= i < |parts| && parts[i].CallRec? && parts[i].callId == x && FirstCall(parts) != Some(i);
      assert OwnId(parts[i], x);
    }
  }

  /** A call id of the turn is its own canonical id. */
  lemma CallIsCanonical(c: Cache, parts: seq<Record>, x: Id)
    requires Inv(c) && AllGuarded(c, parts) && SiblingInv(c, parts)
    ensures FirstId(parts, x) || LaterId(parts, x) ==> Canonical(c, x) == x
  {
    hide Inv, Guarded, SiblingInv, LaterId, FirstId, AllGuarded, OwnId;
    FirstIsId(parts, x);
    CanonicalIds(c, parts, x);
    if FirstId(parts, x) || LaterId(parts, x) {
      var i :| 0 <= i < |parts| && parts[i].CallRec? && parts[i].callId == x;
      assert OwnId(parts[i], x) by { IsOwn(parts[i]); }
    }
  }

  lemma IsOwn(r: Record)
    requires r.CallRec?
    ensures OwnId(r, r.callId) && OwnId(r, r.itemId)
  {
  }

  lemma {:induction false} OthersAre(c: Cache, parts: seq<Record>, lead: Id, ids: seq<Id>)
    requires Inv(c) && AllGuarded(c, parts) && SiblingInv(c, parts)
    ensures (forall k :: 0 <= k < |ids| ==> LaterId(parts, ids[k])) ==> forall s :: s in OtherCanonicals(c, lead, ids) ==> LaterId(parts, s) && s in ids
    ensures (forall k :: 0 <= k < |ids| ==> !IdOf(parts, ids[k])) ==> forall s :: s in OtherCanonicals(c, lead, ids) ==> !IdOf(parts, s)
  {
    hide Inv, SiblingInv, AllGuarded, LaterId, IdOf, Canonical;
    if ids != [] {
      var n := |ids| - 1;
      OthersAre(c, parts, lead, ids[..n]);
      CanonicalIds(c, parts, ids[n]);
      CallIsCanonical(c, parts, ids[n]);
    }
  }

  lemma SiblingsKept(c: Cache, parts: seq<Record>, lead: Id, ids: seq<Id>)
    requires Inv(c) && AllGuarded(c, parts) && SiblingInv(c, parts) && RelatesOwn(SiblingsOp(lead, ids), parts)
    ensures SiblingInv(RecordSiblings(c, lead, ids), parts)
  {
    hide Inv, AllGuarded, LaterId, FirstId, IdOf, Canonical, OwnId;
    var c', k0, op := RecordSiblings(c, lead, ids), Canonical(c, lead), SiblingsOp(lead, ids);
    assert op.lead == lead && op.siblings == ids;
    CanonicalIds(c, parts, lead);
    CallIsCanonical(c, parts, lead);
    OthersAre(c, parts, k0, ids);
    FirstIsId(parts, lead);
    forall k, s {:trigger PairOwn(parts, k, s)} | k in c'.siblings && s in c'.siblings[k]
      ensures PairOwn(parts, k, s)
    {
      if !(k == k0 && s in OtherCanonicals(c, k0, ids)) {
        assert k in c.siblings && s in c.siblings[k];
        assert PairOwn(parts, k, s);
      }
    }
  }

  lemma AliasesKept(c: Cache, op: Op, ctx: Ctx, parts: seq<Record>, x: Id, i: nat)
    requires Inv(c) && Legal(c, op) && SiblingInv(c, parts) && i < |parts| && Minted(parts[i]) && Harmless(op, ctx, parts[i])
    requires x in Apply(c, op).aliases && Apply(c, op).aliases[x] == parts[i].callId
    ensures OwnId(parts[i], x)
  {
    hide Inv, Legal, Refused, PutTool, Load, PutBounded, TrimSpace, CacheRecord, IdOf, FirstId, LaterId;
    match op
    case PutToolOp(rec, aliases) =>
      if Refused(c, rec) {
        RefusedPut(c, rec, aliases);
      } else {
        PutKeepsAliases(c, rec, aliases, x);
        OwnOpAliases(ctx, parts[i]);
      }
    case Restart(o) => RestartIs(c, o);
    case _ =>
  }

  lemma OwnOpAliases(ctx: Ctx, r: Record)
    requires Minted(r)
    ensures PutCallOp(ctx, r).rec.bridgeId == r.callId && forall x :: x in PutCallOp(ctx, r).aliases ==> OwnId(r, x)
  {
  }

  lemma SameSiblings(c: Cache, op: Op)
    requires Inv(c) && Legal(c, op) && !op.SiblingsOp?
    ensures Apply(c, op).siblings == c.siblings
  {
    hide Inv, Legal, Refused, Load, PutBounded, TrimSpace, KeepSig, Admit, BindAliases;
    match op
    case PutToolOp(rec, aliases) =>
      if !Refused(c, rec) {
        InvOrder(c);
        KeptSig(c, rec);
        AdmitIs(c, KeepSig(c, rec));
        BindAllSize(Admit(c, KeepSig(c, rec)), rec.bridgeId, aliases);
      }
    case Restart(o) => RestartIs(c, o);
    case _ =>
  }

  lemma SiblingInvStays(c: Cache, op: Op, ctx: Ctx, parts: seq<Record>)
    requires Inv(c) && Legal(c, op) && AllGuarded(c, parts) && SiblingInv(c, parts)
    requires forall i {:trigger parts[i]} :: 0 <= i < |parts| ==> MintedOrText(parts[i]) && Harmless(op, ctx, parts[i])
    requires RelatesOwn(op, parts)
    ensures SiblingInv(Apply(c, op), parts)
  {
    hide Inv, Legal, AllGuarded, Guarded, PutTool, Load, Harmless, RelatesOwn, OwnId, IdOf, FirstId, LaterId, RecordSiblings, PutBounded, TrimSpace;
    forall x, i | x in Apply(c, op).aliases && 0 <= i < |parts| && parts[i].CallRec? && Apply(c, op).aliases[x] == parts[i].callId
      ensures OwnId(parts[i], x)
    {
      assert MintedOrText(parts[i]) && Harmless(op, ctx, parts[i]);
      AliasesKept(c, op, ctx, parts, x, i);
    }
    if op.SiblingsOp? {
      SiblingsKept(c, parts, op.lead, op.siblings);
    } else {
      SameSiblings(c, op);
    }
  }

  ghost predicate RunHarmless(ops: seq<Op>, ctx: Ctx, parts: seq<Record>) {
    && (forall i {:trigger parts[i]} :: 0 <= i < |parts| ==> MintedOrText(parts[i]) && forall j :: 0 <= j < |ops| ==> Harmless(ops[j], ctx, parts[i]))
    && (forall j :: 0 <= j < |ops| ==> RelatesOwn(ops[j], parts))
  }

  lemma {:induction false} RunSiblings(max: Capacity, ops: seq<Op>, ctx: Ctx, parts: seq<Record>)
    requires LegalRun(Fresh(max), ops) && RunHarmless(ops, ctx, parts)
    ensures AllGuarded(RunFrom(Fresh(max), ops), parts) && SiblingInv(RunFrom(Fresh(max), ops), parts)
  {
    hide Apply, Harmless, RelatesOwn, Legal, Guarded, Inv, SiblingInv, MintedOrText;
    forall i {:trigger parts[i]} | 0 <= i < |parts|
      ensures Guarded(RunFrom(Fresh(max), ops), parts[i])
    {
      RunGuards(max, ops, ctx, parts[i]);
    }
    if ops == [] {
      assert SiblingInv(Fresh(max), parts) by { FreshSiblings(max, parts); }
    } else {
      var n := |ops| - 1;
      HarmlessPrefix(ops, ctx, parts);
      RunSiblings(max, ops[..n], ctx, parts);
      RunKeeps(max, ops[..n]);
      SiblingInvStays(RunFrom(Fresh(max), ops[..n]), ops[n], ctx, parts);
    }
  }

  lemma HarmlessPrefix(ops: seq<Op>, ctx: Ctx, parts: seq<Record>)
    requires RunHarmless(ops, ctx, parts) && ops != []
    ensures RunHarmless(ops[..|ops| - 1], ctx, parts)
  {
    hide Harmless, RelatesOwn, MintedOrText;
  }

  lemma FreshSiblings(max: Capacity, parts: seq<Record>)
    ensures SiblingInv(Fresh(max), parts)
  {
  }

  /** The turn's own sibling operation. */
  predicate OwnSiblingsOp(op: Op, parts: seq<Record>) {
    op.SiblingsOp? && CallIds(parts) != [] && op.lead == CallIds(parts)[0] && op.siblings == CallIds(parts)[1..]
  }

  /** Recorded siblings are never forgotten. */
  lemma SiblingsGrow(c: Cache, op: Op, k: Id)
    requires Inv(c) && Legal(c, op)
    ensures SiblingsOf(c, k) <= SiblingsOf(Apply(c, op), k)
  {
    hide Inv, Legal, Load, OtherCanonicals, Canonical;
    if op.SiblingsOp? {
    } else {
      SameSiblings(c, op);
    }
  }

  lemma {:induction false} AllRecorded(c: Cache, lead: Id, ids: seq<Id>, x: Id)
    requires x in ids && x != NO_ID && x != lead && Canonical(c, x) == x
    ensures x in OtherCanonicals(c, lead, ids)
  {
    hide Canonical;
    if x in ids[..|ids| - 1] {
      AllRecorded(c, lead, ids[..|ids| - 1], x);
    }
  }

  /** Once its sibling operation was performed, the first call leads every later one, for good. */
  lemma {:induction false} RunRecords(max: Capacity, ops: seq<Op>, ctx: Ctx, parts: seq<Record>, k: nat, i: nat)
    requires LegalRun(Fresh(max), ops) && RunHarmless(ops, ctx, parts) && DistinctCalls(parts)
    requires k < |ops| && OwnSiblingsOp(ops[k], parts)
    requires FirstCall(parts).Some? && FirstCall(parts).value < i < |parts| && parts[i].CallRec?
    ensures parts[i].callId in SiblingsOf(RunFrom(Fresh(max), ops), parts[FirstCall(parts).value].callId)
  {
    hide Apply, Harmless, RelatesOwn, Legal, Guarded, Inv, SiblingInv, MintedOrText, SiblingsOf, DistinctCalls, FirstCall, AllGuarded;
    var n := |ops| - 1;
    var before := RunFrom(Fresh(max), ops[..n]);
    HarmlessPrefix(ops, ctx, parts);
    RunKeeps(max, ops[..n]);
    if k < n {
      RunRecords(max, ops[..n], ctx, parts, k, i);
      SiblingsGrow(before, ops[n], parts[FirstCall(parts).value].callId);
    } else {
      RunSiblings(max, ops[..n], ctx, parts);
      OwnOpRecords(before, ops[n], parts, i);
    }
  }

  lemma OwnOpRecords(c: Cache, op: Op, parts: seq<Record>, i: nat)
    requires Inv(c) && AllGuarded(c, parts) && SiblingInv(c, parts) && OwnSiblingsOp(op, parts) && DistinctCalls(parts)
    requires FirstCall(parts).Some? && FirstCall(parts).value < i < |parts| && parts[i].CallRec?
    ensures parts[i].callId in SiblingsOf(Apply(c, op), parts[FirstCall(parts).value].callId)
  {
    hide Inv, AllGuarded, SiblingInv, DistinctCalls, FirstCall, Canonical, OtherCanonicals;
    var f := FirstCall(parts).value;
    var x := parts[i].callId;
    RoundTripLaws.CallIdsAre(parts, x);
    assert RoundTripLaws.LaterCall(parts, x);
    InTailIs(CallIds(parts), x);
    ProperCallIds(parts, f, i);
    assert FirstId(parts, parts[f].callId) && LaterId(parts, x);
    CallIsCanonical(c, parts, parts[f].callId);
    CallIsCanonical(c, parts, x);
    AllRecorded(c, parts[f].callId, op.siblings, x);
  }

  lemma InTailIs(ids: seq<Id>, x: Id)
    requires RoundTripLaws.InTail(ids, x)
    ensures ids != [] && x in ids[1..]
  {
    var j :| 1 <= j < |ids| && ids[j] == x;
    assert ids[1..][j - 1] == x;
  }

  lemma ProperCallIds(parts: seq<Record>, f: nat, i: nat)
    requires DistinctCalls(parts) && f < i < |parts| && parts[f].CallRec? && parts[i].CallRec?
    ensures parts[f].callId != NO_ID && parts[i].callId != NO_ID && parts[f].callId != parts[i].callId
  {
  }

  // ----- exactly which siblings a reachable cache verifies

  /** Calls `l` and `i` of the turn are siblings on record: exactly one of them is the first call. */
  predicate OneIsFirst(parts: seq<Record>, l: nat, i: nat) {
    l != i && (FirstCall(parts) == Some(l) || FirstCall(parts) == Some(i))
  }

  lemma PairIs(parts: seq<Record>, l: nat, i: nat)
    requires DistinctCalls(parts) && l < |parts| && i < |parts| && parts[l].CallRec? && parts[i].CallRec?
    ensures FirstId(parts, parts[l].callId) && LaterId(parts, parts[i].callId) <==> FirstCall(parts) == Some(l) && l != i
  {
    hide FirstCall;
    if FirstCall(parts).Some? {
      RoundTripLaws.SameCallId(parts, FirstCall(parts).value, l);
    }
    if LaterId(parts, parts[i].callId) {
      var j :| 0 <= j < |parts| && parts[j].CallRec? && parts[j].callId == parts[i].callId && FirstCall(parts) != Some(j);
      RoundTripLaws.SameCallId(parts, j, i);
    }
    if FirstCall(parts) == Some(l) && l != i {
      assert parts[i].callId == parts[i].callId && FirstCall(parts) != Some(i);
    }
  }

  lemma NoItemSiblings(parts: seq<Record>, i: nat)
    requires DistinctCalls(parts) && i < |parts| && parts[i].CallRec?
    ensures !FirstId(parts, parts[i].itemId) && !LaterId(parts, parts[i].itemId) && IdOf(parts, parts[i].itemId) && IdOf(parts, parts[i].callId)
  {
    hide FirstCall;
    IsOwn(parts[i]);
  }

  /** The cache verifies two calls of the turn as siblings only if one of them is the first call. */
  lemma OnlyWithFirst(c: Cache, parts: seq<Record>, l: nat, i: nat, x: Id)
    requires Inv(c) && AllGuarded(c, parts) && SiblingInv(c, parts) && DistinctCalls(parts)
    requires l < |parts| && i < |parts| && parts[l].CallRec? && parts[i].CallRec? && (x == parts[i].callId || x == parts[i].itemId)
    requires IsVerifiedSibling(c, parts[l].callId, x)
    ensures OneIsFirst(parts, l, i)
  {
    hide Inv, AllGuarded, DistinctCalls, FirstCall, FirstId, LaterId, IdOf;
    IsOwn(parts[i]);
    IsOwn(parts[l]);
    CanonicalIds(c, parts, parts[l].callId);
    CanonicalIds(c, parts, x);
    NoItemSiblings(parts, i);
    NoItemSiblings(parts, l);
    PairIs(parts, l, i);
    PairIs(parts, i, l);
  }

  /** With the turn's sibling operation in the run, every pair with the first call is verified. */
  lemma FirstIsVerified(max: Capacity, ops: seq<Op>, ctx: Ctx, parts: seq<Record>, k: nat, l: nat, i: nat)
    requires LegalRun(Fresh(max), ops) && RunHarmless(ops, ctx, parts) && DistinctCalls(parts)
    requires k < |ops| && OwnSiblingsOp(ops[k], parts)
    requires l < |parts| && i < |parts| && parts[l].CallRec? && parts[i].CallRec? && OneIsFirst(parts, l, i)
    ensures IsVerifiedSibling(RunFrom(Fresh(max), ops), parts[l].callId, parts[i].callId)
  {
    hide LegalRun, RunFrom, Harmless, RelatesOwn, Inv, SiblingInv, AllGuarded, DistinctCalls, SiblingsOf, Canonical, OwnSiblingsOp, FirstCall;
    var c := RunFrom(Fresh(max), ops);
    var f, later := if FirstCall(parts) == Some(l) then l else i, if FirstCall(parts) == Some(l) then i else l;
    FirstComes(parts, later);
    RunRecords(max, ops, ctx, parts, k, later);
    RunSiblings(max, ops, ctx, parts);
    RunKeeps(max, ops);
    ProperCallIds(parts, f, later);
    assert FirstId(parts, parts[f].callId) && LaterId(parts, parts[later].callId);
    CallIsCanonical(c, parts, parts[f].callId);
    CallIsCanonical(c, parts, parts[later].callId);
  }

  lemma FirstComes(parts: seq<Record>, i: nat)
    requires i < |parts| && parts[i].CallRec?
    ensures FirstCall(parts).Some? && FirstCall(parts).value <= i
  {
  }

  // ----- the theorem

  /** What happens to the cache: a turn is stored, or the bridge restarts. */
  datatype Stored = StoredTurn(turn: Round, prefixHash: string, leads: seq<Id>) | Restarted(orders: Orders)

  function OpsOf(stored: seq<Stored>): seq<Op> {
    if stored == [] then []
    else
      OpsOf(stored[..|stored| - 1]) +
      match stored[|stored| - 1]
      case StoredTurn(turn, prefixHash, leads) => TurnOps(Built(turn.ctx, turn.ps), prefixHash, leads)
      case Restarted(orders) => [Restart(orders)]
  }

  predicate SameTurn(a: Round, b: Round) {
    a.ctx == b.ctx && a.ps == b.ps
  }

  predicate StoredIn(stored: seq<Stored>, b: Round) {
    exists j :: 0 <= j < |stored| && stored[j].StoredTurn? && SameTurn(stored[j].turn, b)
  }

  /** Each stored turn is a turn of the conversation, or shares neither turn id nor message id with any of them. */
  predicate StoredApart(stored: seq<Stored>, b: Round) {
    forall j :: 0 <= j < |stored| && stored[j].StoredTurn? ==> stored[j].turn.ctx.Valid() && SameOrApart(stored[j].turn, b)
  }

  /** Every lead of a stored turn is visited. */
  ghost predicate LeadsVisited(stored: seq<Stored>) {
    forall j :: 0 <= j < |stored| && stored[j].StoredTurn? ==>
      Visits(stored[j].leads, Built(stored[j].turn.ctx, stored[j].turn.ps).siblings.Keys)
  }

  lemma {:induction false} StoredHarmless(stored: seq<Stored>, b: Round, k: nat)
    requires StoredApart(stored, b) && RoundIs(b) && k < |Finished(b).parts|
    ensures forall j :: 0 <= j < |OpsOf(stored)| ==> Harmless(OpsOf(stored)[j], b.ctx, Finished(b).parts[k])
  {
    hide RoundIs, Finished, Built, TurnOps, SameOrApart;
    if stored != [] {
      var n := |stored| - 1;
      StoredHarmless(stored[..n], b, k);
      if stored[n].StoredTurn? {
        RoundFacts(stored[n].turn);
        TurnIsHarmless(stored[n].turn, b, stored[n].prefixHash, stored[n].leads, k);
      }
    }
  }

  lemma KindIsMinted(r: Record)
    requires ProperKind(r)
    ensures MintedOrText(r)
  {
  }

  lemma PartsNoSiblings(ctx: Ctx, r: Record, prefixHash: string)
    ensures forall j :: 0 <= j < |RecordOps(ctx, r, prefixHash)| ==> !RecordOps(ctx, r, prefixHash)[j].SiblingsOp?
  {
    hide ResponsesContextKey;
  }

  lemma {:induction false} NoSiblingParts(ctx: Ctx, parts: seq<Record>, prefixHash: string)
    ensures forall j :: 0 <= j < |PartOps(ctx, parts, prefixHash)| ==> !PartOps(ctx, parts, prefixHash)[j].SiblingsOp?
  {
    hide RecordOps;
    if parts != [] {
      NoSiblingParts(ctx, parts[..|parts| - 1], prefixHash);
      PartsNoSiblings(ctx, parts[|parts| - 1], prefixHash);
    }
  }

  /** The sibling operations of a turn are its own one, once for each visit of its lead. */
  lemma {:induction false} SiblingOpsAre(parts: seq<Record>, leads: seq<Id>)
    ensures forall j :: 0 <= j < |SiblingOps(Siblings(parts), leads)| ==> OwnSiblingsOp(SiblingOps(Siblings(parts), leads)[j], parts)
    ensures |CallIds(parts)| > 1 && CallIds(parts)[0] in leads ==> |SiblingOps(Siblings(parts), leads)| > 0
  {
    hide CallIds;
    if leads != [] {
      SiblingOpsAre(parts, leads[..|leads| - 1]);
    }
  }

  lemma OwnOpRelates(op: Op, parts: seq<Record>)
    requires OwnSiblingsOp(op, parts) && DistinctCalls(parts)
    ensures RelatesOwn(op, parts)
  {
    hide CallIds, FirstCall;
    RoundTripLaws.CallIdsAre(parts, op.lead);
    assert FirstId(parts, op.lead);
    forall k | 0 <= k < |op.siblings|
      ensures LaterId(parts, op.siblings[k])
    {
      var x := op.siblings[k];
      RoundTripLaws.CallIdsAre(parts, x);
      assert CallIds(parts)[k + 1] == x;
      assert RoundTripLaws.InTail(CallIds(parts), x);
      var i, f :| 0 <= f < i < |parts| && FirstCall(parts) == Some(f) && parts[i].CallRec? && parts[i].callId == x;
    }
  }

  lemma {:induction false} CallIdMark(parts: seq<Record>, ctx: Ctx, x: Id)
    requires x in CallIds(parts) && forall i {:trigger parts[i]} :: 0 <= i < |parts| ==> Marked(parts[i], ctx)
    ensures x.CallId? && x.key.turn == ctx.turnId
  {
    var n := |parts| - 1;
    if x in CallIds(parts[..n]) {
      CallIdMark(parts[..n], ctx, x);
    } else {
      assert Marked(parts[n], ctx);
    }
  }

  lemma OtherTurnRelates(op: Op, a: Round, b: Round)
    requires RoundIs(a) && RoundIs(b) && a.ctx.turnId != b.ctx.turnId && OwnSiblingsOp(op, Finished(a).parts)
    ensures RelatesOwn(op, Finished(b).parts)
  {
    hide RoundIs, Finished, CallIds;
    RoundParts(a);
    RoundParts(b);
    var ids := CallIds(Finished(a).parts);
    forall x | x in ids
      ensures !IdOf(Finished(b).parts, x)
    {
      CallIdMark(Finished(a).parts, a.ctx, x);
      assert forall i :: 0 <= i < |Finished(b).parts| ==> Marked(Finished(b).parts[i], b.ctx);
    }
    assert forall k :: 0 <= k < |op.siblings| ==> op.siblings[k] in ids;
  }

  lemma TurnRelates(a: Round, b: Round, prefixHash: string, leads: seq<Id>)
    requires RoundIs(a) && RoundIs(b) && SameOrApart(a, b)
    ensures var ops := TurnOps(Built(a.ctx, a.ps), prefixHash, leads);
            forall j :: 0 <= j < |ops| ==> RelatesOwn(ops[j], Finished(b).parts)
  {
    hide RoundIs, Run, Final, RelatesOwn, PartOps, SiblingOps, Siblings, OwnSiblingsOp, DistinctCalls, DistinctItems, Shape;
    var t, ops := Built(a.ctx, a.ps), TurnOps(Built(a.ctx, a.ps), prefixHash, leads);
    var parts := PartOps(t.ctx, t.parts, prefixHash);
    NoSiblingParts(t.ctx, t.parts, prefixHash);
    SiblingOpsAre(t.parts, leads);
    RoundParts(a);
    forall j | 0 <= j < |ops|
      ensures RelatesOwn(ops[j], Finished(b).parts)
    {
      if j < |parts| {
        NotSiblings(ops[j], Finished(b).parts);
      } else {
        assert ops[j] == SiblingOps(t.siblings, leads)[j - |parts|];
        if SameTurn(a, b) {
          OwnOpRelates(ops[j], Finished(b).parts);
        } else {
          OtherTurnRelates(ops[j], a, b);
        }
      }
    }
  }

  lemma NotSiblings(op: Op, parts: seq<Record>)
    requires !op.SiblingsOp?
    ensures RelatesOwn(op, parts)
  {
  }

  lemma {:induction false} StoredRelates(stored: seq<Stored>, b: Round)
    requires StoredApart(stored, b) && RoundIs(b)
    ensures forall j :: 0 <= j < |OpsOf(stored)| ==> RelatesOwn(OpsOf(stored)[j], Finished(b).parts)
  {
    hide RoundIs, Finished, Built, TurnOps, SameOrApart, RelatesOwn;
    if stored != [] {
      var n := |stored| - 1;
      StoredRelates(stored[..n], b);
      match stored[n]
      case StoredTurn(turn, prefixHash, leads) =>
        RoundFacts(turn);
        TurnRelates(turn, b, prefixHash, leads);
      case Restarted(orders) => NotSiblings(Restart(orders), Finished(b).parts);
    }
  }

  /** A turn that was stored, with two calls or more, performed its sibling operation. */
  lemma {:induction false} StoredRelated(stored: seq<Stored>, b: Round)
    requires LeadsVisited(stored) && StoredIn(stored, b) && |CallIds(Finished(b).parts)| > 1
    ensures exists k :: 0 <= k < |OpsOf(stored)| && OwnSiblingsOp(OpsOf(stored)[k], Finished(b).parts)
  {
    hide OwnSiblingsOp, TurnOps, CallIds, Run, Final, Visits;
    var n := |stored| - 1;
    var before := OpsOf(stored[..n]);
    if StoredIn(stored[..n], b) {
      StoredRelated(stored[..n], b);
      var k :| 0 <= k < |before| && OwnSiblingsOp(before[k], Finished(b).parts);
      assert OpsOf(stored)[k] == before[k];
    } else {
      assert forall m :: 0 <= m < n ==> stored[..n][m] == stored[m];
      var j :| 0 <= j < |stored| && stored[j].StoredTurn? && SameTurn(stored[j].turn, b);
      assert j == n;
      var k := TurnRelated(b, stored[n].prefixHash, stored[n].leads);
      var ops := TurnOps(Built(b.ctx, b.ps), stored[n].prefixHash, stored[n].leads);
      assert OpsOf(stored) == before + ops;
      assert OpsOf(stored)[|before| + k] == ops[k];
    }
  }

  lemma TurnRelated(b: Round, prefixHash: string, leads: seq<Id>) returns (k: nat)
    requires Visits(leads, Built(b.ctx, b.ps).siblings.Keys) && |CallIds(Finished(b).parts)| > 1
    ensures var ops := TurnOps(Built(b.ctx, b.ps), prefixHash, leads);
            k < |ops| && OwnSiblingsOp(ops[k], Finished(b).parts)
  {
    hide OwnSiblingsOp, CallIds, Run, Final, PartOps, SiblingOps;
    var t := Built(b.ctx, b.ps);
    SiblingOpsAre(t.parts, leads);
    assert CallIds(t.parts)[0] in Elems(leads);
    k := |PartOps(t.ctx, t.parts, prefixHash)|;
    assert TurnOps(t, prefixHash, leads)[k] == SiblingOps(t.siblings, leads)[0];
  }

  /** On record: beside a carrier the first call and a later one; in the cache of a stored turn, in either direction. */
  predicate OnRecord(parts: seq<Record>, carried: bool, stored: bool, l: nat, i: nat) {
    l != i && ((FirstCall(parts) == Some(l) && (carried || stored)) || (FirstCall(parts) == Some(i) && stored))
  }

  predicate CallReturns(parts: seq<Record>, carried: bool, stored: bool, i: nat)
    requires i < |parts|
  {
    parts[i].CallRec? ==>
      && !StartsWithSeparator(parts[i].name)
      && (parts[i].sig == "" ==> LeadFor(parts, i).Some? && OnRecord(parts, carried, stored, LeadFor(parts, i).value, i))
  }

  /**
   * No tool name begins with "__", and each unsigned call has a signed lead among its adjacent calls,
   * and the lead is the turn's first call, or the turn was stored and the unsigned call is the first.
   */
  predicate Returns(parts: seq<Record>, carried: bool, stored: bool) {
    forall i {:trigger CallReturns(parts, carried, stored, i)} :: 0 <= i < |parts| ==> CallReturns(parts, carried, stored, i)
  }

  lemma RunIsHarmless(stored: seq<Stored>, b: Round)
    requires StoredApart(stored, b) && RoundIs(b)
    ensures RunHarmless(OpsOf(stored), b.ctx, Finished(b).parts)
  {
    hide RoundIs, Finished, OpsOf, StoredApart, Harmless, RelatesOwn, ProperKind;
    RoundKinds(b);
    StoredRelates(stored, b);
    forall i {:trigger Finished(b).parts[i]} | 0 <= i < |Finished(b).parts|
      ensures MintedOrText(Finished(b).parts[i])
      ensures forall j :: 0 <= j < |OpsOf(stored)| ==> Harmless(OpsOf(stored)[j], b.ctx, Finished(b).parts[i])
    {
      KindIsMinted(Finished(b).parts[i]);
      StoredHarmless(stored, b, i);
    }
  }

  lemma TwoCalls(parts: seq<Record>, l: nat, i: nat)
    requires OneIsFirst(parts, l, i) && l < |parts| && i < |parts| && parts[l].CallRec? && parts[i].CallRec?
    ensures |CallIds(parts)| > 1
  {
    var f, later := if FirstCall(parts) == Some(l) then l else i, if FirstCall(parts) == Some(l) then i else l;
    FirstComes(parts, later);
    RoundTripLaws.CallIdsAre(parts, parts[later].callId);
    assert RoundTripLaws.LaterCall(parts, parts[later].callId);
  }

  /** The operation relates no call of the turn to anything. */
  predicate Silent(op: Op, parts: seq<Record>) {
    op.SiblingsOp? ==> !IdOf(parts, op.lead) && forall k :: 0 <= k < |op.siblings| ==> !IdOf(parts, op.siblings[k])
  }

  lemma {:induction false} StoredSilent(stored: seq<Stored>, b: Round)
    requires StoredApart(stored, b) && RoundIs(b) && !StoredIn(stored, b)
    ensures forall j :: 0 <= j < |OpsOf(stored)| ==> Silent(OpsOf(stored)[j], Finished(b).parts)
  {
    hide RoundIs, Finished, Built, TurnOps, IdOf;
    if stored != [] {
      var n := |stored| - 1;
      assert forall m :: 0 <= m < n ==> stored[..n][m] == stored[m];
      StoredSilent(stored[..n], b);
      if stored[n].StoredTurn? {
        RoundFacts(stored[n].turn);
        assert SameOrApart(stored[n].turn, b) && !SameTurn(stored[n].turn, b);
        OtherTurnSilent(stored[n].turn, b, stored[n].prefixHash, stored[n].leads);
      }
    }
  }

  /** No recorded pair speaks of the turn's calls. */
  ghost predicate NoPairs(c: Cache, parts: seq<Record>) {
    forall k, s {:trigger s in c.siblings[k]} :: k in c.siblings && s in c.siblings[k] ==> !IdOf(parts, k) && !IdOf(parts, s)
  }

  lemma SilentKeeps(c: Cache, op: Op, parts: seq<Record>)
    requires Inv(c) && Legal(c, op) && AllGuarded(c, parts) && SiblingInv(c, parts) && NoPairs(c, parts) && Silent(op, parts)
    ensures NoPairs(Apply(c, op), parts)
  {
    hide Inv, Legal, AllGuarded, SiblingInv, PutTool, Load, IdOf, Canonical, OtherCanonicals, PutBounded, TrimSpace, LaterId;
    if op.SiblingsOp? {
      var lead, ids := op.lead, op.siblings;
      CanonicalIds(c, parts, lead);
      OthersAre(c, parts, Canonical(c, lead), ids);
    } else {
      SameSiblings(c, op);
    }
  }

  lemma {:induction false} RunSilent(max: Capacity, ops: seq<Op>, ctx: Ctx, parts: seq<Record>)
    requires LegalRun(Fresh(max), ops) && RunHarmless(ops, ctx, parts) && forall j :: 0 <= j < |ops| ==> Silent(ops[j], parts)
    ensures NoPairs(RunFrom(Fresh(max), ops), parts)
  {
    hide Apply, Harmless, RelatesOwn, Legal, Guarded, Inv, SiblingInv, MintedOrText, AllGuarded, Silent, IdOf;
    if ops != [] {
      var n := |ops| - 1;
      HarmlessPrefix(ops, ctx, parts);
      RunSilent(max, ops[..n], ctx, parts);
      RunKeeps(max, ops[..n]);
      RunSiblings(max, ops[..n], ctx, parts);
      SilentKeeps(RunFrom(Fresh(max), ops[..n]), ops[n], parts);
    }
  }

  lemma SilentUnverified(c: Cache, parts: seq<Record>, l: nat, x: Id)
    requires Inv(c) && AllGuarded(c, parts) && SiblingInv(c, parts) && NoPairs(c, parts)
    requires l < |parts| && parts[l].CallRec?
    ensures !IsVerifiedSibling(c, parts[l].callId, x)
  {
    hide Inv, AllGuarded, SiblingInv;
    IsOwn(parts[l]);
    CanonicalIds(c, parts, parts[l].callId);
    assert IdOf(parts, parts[l].callId);
  }

  /** In every reachable cache, exactly the pairs of a stored turn with its first call are siblings. */
  lemma SiblingsAreExact(max: Capacity, stored: seq<Stored>, b: Round, carried: bool, l: nat, i: nat)
    requires LegalRun(Fresh(max), OpsOf(stored)) && LeadsVisited(stored) && StoredApart(stored, b) && RoundIs(b)
    requires l < |Finished(b).parts| && i < |Finished(b).parts| && Finished(b).parts[l].CallRec? && Finished(b).parts[i].CallRec? && l != i
    ensures SiblingOf(RunFrom(Fresh(max), OpsOf(stored)), Finished(b).parts, carried, l, i) <==>
            OnRecord(Finished(b).parts, carried, StoredIn(stored, b), l, i)
  {
    hide LegalRun, RunFrom, OpsOf, RoundIs, Finished, StoredApart, LeadsVisited, RunHarmless, IsVerifiedSibling, Inv, AllGuarded, SiblingInv, NoPairs,
         StoredIn, DistinctCalls, DistinctItems, Shape, Silent, OwnSiblingsOp, FirstCall, CallIds;
    var parts, ops := Finished(b).parts, OpsOf(stored);
    var c := RunFrom(Fresh(max), ops);
    RoundParts(b);
    RunIsHarmless(stored, b);
    RunKeeps(max, ops);
    RunSiblings(max, ops, b.ctx, parts);
    FirstComes(parts, i);
    if StoredIn(stored, b) {
      forall x | (x == parts[i].callId || x == parts[i].itemId) && IsVerifiedSibling(c, parts[l].callId, x)
        ensures OneIsFirst(parts, l, i)
      {
        OnlyWithFirst(c, parts, l, i, x);
      }
      if OneIsFirst(parts, l, i) {
        TwoCalls(parts, l, i);
        StoredRelated(stored, b);
        var k :| 0 <= k < |ops| && OwnSiblingsOp(ops[k], parts);
        FirstIsVerified(max, ops, b.ctx, parts, k, l, i);
      }
    } else {
      StoredSilent(stored, b);
      RunSilent(max, ops, b.ctx, parts);
      SilentUnverified(c, parts, l, parts[i].callId);
      SilentUnverified(c, parts, l, parts[i].itemId);
    }
  }

  /** The same for the call ids alone. */
  lemma CallsAreSiblings(max: Capacity, stored: seq<Stored>, b: Round, l: nat, i: nat)
    requires LegalRun(Fresh(max), OpsOf(stored)) && LeadsVisited(stored) && StoredApart(stored, b) && RoundIs(b)
    requires l < |Finished(b).parts| && i < |Finished(b).parts| && Finished(b).parts[l].CallRec? && Finished(b).parts[i].CallRec? && l != i
    ensures IsVerifiedSibling(RunFrom(Fresh(max), OpsOf(stored)), Finished(b).parts[l].callId, Finished(b).parts[i].callId) <==>
            OnRecord(Finished(b).parts, false, StoredIn(stored, b), l, i)
  {
    hide LegalRun, RunFrom, OpsOf, RoundIs, Finished, StoredApart, LeadsVisited, RunHarmless, IsVerifiedSibling, StoredIn, DistinctCalls, DistinctItems,
         Shape, OwnSiblingsOp, FirstCall, CallIds;
    var parts, ops := Finished(b).parts, OpsOf(stored);
    SiblingsAreExact(max, stored, b, false, l, i);
    if OnRecord(parts, false, StoredIn(stored, b), l, i) {
      RoundParts(b);
      RunIsHarmless(stored, b);
      TwoCalls(parts, l, i);
      StoredRelated(stored, b);
      var k :| 0 <= k < |ops| && OwnSiblingsOp(ops[k], parts);
      FirstIsVerified(max, ops, b.ctx, parts, k, l, i);
    }
  }

  /** Which turns come back from a reachable cache depends on the turn, its carrier and whether it was stored. */
  lemma ReturnsIs(max: Capacity, stored: seq<Stored>, b: Round, carried: bool)
    requires LegalRun(Fresh(max), OpsOf(stored)) && LeadsVisited(stored) && StoredApart(stored, b) && RoundIs(b)
    ensures Recoverable(RunFrom(Fresh(max), OpsOf(stored)), Finished(b).parts, carried) <==> Returns(Finished(b).parts, carried, StoredIn(stored, b))
  {
    hide LegalRun, RunFrom, OpsOf, RoundIs, Finished, StoredApart, LeadsVisited, StoredIn, SiblingOf, OnRecord, StartsWithSeparator;
    var parts, c, s := Finished(b).parts, RunFrom(Fresh(max), OpsOf(stored)), StoredIn(stored, b);
    forall i | 0 <= i < |parts|
      ensures CallRecoverable(c, parts, carried, i) <==> CallReturns(parts, carried, s, i)
    {
      if parts[i].CallRec? && parts[i].sig == "" && LeadFor(parts, i).Some? {
        SiblingsAreExact(max, stored, b, carried, LeadFor(parts, i).value, i);
      }
    }
    if Recoverable(c, parts, carried) {
      assert forall i :: 0 <= i < |parts| ==> CallRecoverable(c, parts, carried, i);
    }
    if Returns(parts, carried, s) {
      assert forall i :: 0 <= i < |parts| ==> CallReturns(parts, carried, s, i);
    }
  }

  lemma OtherTurnSilent(a: Round, b: Round, prefixHash: string, leads: seq<Id>)
    requires RoundIs(a) && RoundIs(b) && a.ctx.turnId != b.ctx.turnId
    ensures var ops := TurnOps(Built(a.ctx, a.ps), prefixHash, leads);
            forall j :: 0 <= j < |ops| ==> Silent(ops[j], Finished(b).parts)
  {
    hide RoundIs, Run, Final, PartOps, SiblingOps, Siblings, IdOf, CallIds;
    var t, ops := Built(a.ctx, a.ps), TurnOps(Built(a.ctx, a.ps), prefixHash, leads);
    var parts := PartOps(t.ctx, t.parts, prefixHash);
    NoSiblingParts(t.ctx, t.parts, prefixHash);
    SiblingOpsAre(t.parts, leads);
    RoundParts(a);
    forall x | x in CallIds(t.parts)
      ensures !IdOf(Finished(b).parts, x)
    {
      assert t.parts == Finished(a).parts;
      CallIdMark(Finished(a).parts, a.ctx, x);
      MarkedElsewhere(b, x);
    }
    forall j | 0 <= j < |ops| && ops[j].SiblingsOp?
      ensures Silent(ops[j], Finished(b).parts)
    {
      assert j >= |parts| && ops[j] == SiblingOps(t.siblings, leads)[j - |parts|];
      assert OwnSiblingsOp(ops[j], t.parts);
      assert forall k :: 0 <= k < |ops[j].siblings| ==> ops[j].siblings[k] in CallIds(t.parts);
    }
  }

  lemma MarkedElsewhere(b: Round, x: Id)
    requires RoundIs(b) && x.CallId? && x.key.turn != b.ctx.turnId
    ensures !IdOf(Finished(b).parts, x)
  {
    hide RoundIs, Finished;
    RoundParts(b);
    assert forall i :: 0 <= i < |Finished(b).parts| ==> Marked(Finished(b).parts[i], b.ctx);
  }

  lemma RoundIsBacked(max: Capacity, stored: seq<Stored>, b: Round)
    requires LegalRun(Fresh(max), OpsOf(stored)) && b.ctx.Valid() && FromUpstream(b.ps) && StoredApart(stored, b)
    requires RecordsLive(RunFrom(Fresh(max), OpsOf(stored)), b)
    ensures RoundFits(b, RunFrom(Fresh(max), OpsOf(stored))) && UpstreamNamed(Finished(b).parts)
  {
    hide RoundIs, Run, OpsOf, StoredApart, Guarded, Backed, ProperKind, LegalRun, Harmless;
    var cache := RunFrom(Fresh(max), OpsOf(stored));
    RoundFacts(b);
    RoundKinds(b);
    RunNamed(b.ctx, b.ps);
    forall i {:trigger Finished(b).parts[i]} | 0 <= i < |Finished(b).parts|
      ensures Backed(cache, Finished(b).parts[i])
    {
      StoredHarmless(stored, b, i);
      KindIsMinted(Finished(b).parts[i]);
      RunGuards(max, OpsOf(stored), b.ctx, Finished(b).parts[i]);
      GuardedIsBacked(cache, Finished(b).parts[i]);
    }
    LiveIsRemembered(cache, b);
  }

  /** The calls whose reasoning item the client drops are still in the cache. */
  predicate RecordsLive(cache: Cache, b: Round) {
    b.client.carries.Dropped? ==> forall i :: 0 <= i < |Finished(b).parts| && Finished(b).parts[i].CallRec? ==> Finished(b).parts[i].callId in cache.records
  }

  lemma LiveIsRemembered(cache: Cache, b: Round)
    requires RecordsLive(cache, b) && RoundIs(b)
    ensures Remembers(cache, Finished(b).parts, b.client)
  {
    hide RoundIs, Finished;
    RoundParts(b);
    assert forall i :: 0 <= i < |Finished(b).parts| ==> Marked(Finished(b).parts[i], b.ctx);
  }

  /** Turns of their own, each from the upstream, and a history of the cache that mixes up none of them. */
  ghost predicate Served(max: Capacity, stored: seq<Stored>, rounds: seq<Round>) {
    && LegalRun(Fresh(max), OpsOf(stored)) && LeadsVisited(stored) && Separate(rounds)
    && forall k {:trigger rounds[k]} :: 0 <= k < |rounds| ==>
         && rounds[k].ctx.Valid() && FromUpstream(rounds[k].ps) && StoredApart(stored, rounds[k])
         && RecordsLive(RunFrom(Fresh(max), OpsOf(stored)), rounds[k])
  }

  predicate RoundReturns(r: Round, stored: seq<Stored>) {
    Returns(Finished(r).parts, Carried(Finished(r), r.client), StoredIn(stored, r))
  }

  predicate AllReturn(rounds: seq<Round>, stored: seq<Stored>) {
    forall k {:trigger rounds[k]} :: 0 <= k < |rounds| ==> RoundReturns(rounds[k], stored)
  }

  /**
   * Conversations come back whatever the cache went through: any turns of this and of other
   * conversations are stored in it, in any order and any number of times, with evictions and
   * restarts between, and then all turns of one conversation are sent back, each with its carrier,
   * or without it if its records are still live. The round trip is exact, in terms of the turns
   * alone: all of it comes back if and only if in every turn no tool name begins with "__", and each
   * unsigned call has a signed lead among its adjacent calls and one of the two is the turn's first
   * call (the lead, unless the turn was stored). A turn that does not return, sent with its carrier
   * or known to the cache, makes the conversion fail.
   */
  lemma StoredConversationRoundTrip(max: Capacity, stored: seq<Stored>, rounds: seq<Round>, hash: seq<Exchange.Item> -> string)
    requires Served(max, stored, rounds)
    ensures var cache := RunFrom(Fresh(max), OpsOf(stored));
            var sent, expected := Convert(Conversation(rounds), cache, hash), ExpectedAll(rounds, cache, hash);
            && (sent.Ok? && Flatten(sent.value) == expected <==> AllReturn(rounds, stored) && expected != [])
            && ((exists k {:trigger rounds[k]} :: 0 <= k < |rounds| && RoundHeld(rounds[k]) && !RoundReturns(rounds[k], stored)) ==> sent.Err?)
  {
    hide LegalRun, RunFrom, OpsOf, Separate, StoredApart, FromUpstream, RoundFits, Convert, Conversation, ExpectedAll, Flatten, LeadsVisited,
         RecordsLive, UpstreamNamed, RoundHeld, Recoverable, Returns, Finished, RoundIs, StoredIn;
    var cache := RunFrom(Fresh(max), OpsOf(stored));
    forall k {:trigger rounds[k]} | 0 <= k < |rounds|
      ensures RoundFits(rounds[k], cache) && UpstreamNamed(Finished(rounds[k]).parts)
      ensures RoundRecoverable(rounds[k], cache) <==> RoundReturns(rounds[k], stored)
    {
      RoundIsBacked(max, stored, rounds[k]);
      RoundFacts(rounds[k]);
      ReturnsIs(max, stored, rounds[k], Carried(Finished(rounds[k]), rounds[k].client));
    }
    ConversationRoundTrip(rounds, cache, hash);
    if k :| 0 <= k < |rounds| && RoundHeld(rounds[k]) && !RoundReturns(rounds[k], stored) {
      assert HeldButLost(rounds[k], cache);
    }
  }

  /**
   * From the cache alone: a stored turn whose records are live, replayed without its reasoning item,
   * comes back with the signature of its signed first call on every unsigned call that follows it.
   */
  lemma StoredTurnComesBack(max: Capacity, stored: seq<Stored>, b: Round, hash: seq<Exchange.Item> -> string)
    requires Served(max, stored, [b]) && StoredIn(stored, b) && b.client.carries.Dropped? && CarriesItself(Finished(b).parts)
    requires var cache := RunFrom(Fresh(max), OpsOf(stored)); ExpectedOf(b, cache, hash) != []
    ensures var cache := RunFrom(Fresh(max), OpsOf(stored));
            var sent := Convert(Segment(b), cache, hash);
            sent.Ok? && Flatten(sent.value) == ExpectedOf(b, cache, hash)
    ensures forall i :: 0 <= i < |Finished(b).parts| && Finished(b).parts[i].CallRec? && Finished(b).parts[i].sig == "" ==>
              FirstCall(Finished(b).parts).Some? && ReplaySig(Finished(b).parts, i) == Finished(b).parts[FirstCall(Finished(b).parts).value].sig
  {
    hide LegalRun, RunFrom, OpsOf, StoredApart, Convert, ExpectedOf, Segment, Flatten, LeadsVisited, FollowsSignedFirst, LeadFor, FirstCall,
         Finished, StartsWithSeparator, Carried, Served;
    var parts, cache := Finished(b).parts, RunFrom(Fresh(max), OpsOf(stored));
    StoredConversationRoundTrip(max, stored, [b], hash);
    OneRound(b, cache, hash);
    forall i {:trigger CallReturns(parts, Carried(Finished(b), b.client), true, i)} | 0 <= i < |parts|
      ensures CallReturns(parts, Carried(Finished(b), b.client), true, i)
    {
      if parts[i].CallRec? && parts[i].sig == "" {
        FirstCallLeads(parts, i);
      }
    }
    forall i | 0 <= i < |parts| && parts[i].CallRec? && parts[i].sig == ""
      ensures FirstCall(parts).Some? && ReplaySig(parts, i) == parts[FirstCall(parts).value].sig
    {
      FirstCallLeads(parts, i);
    }
    assert RoundReturns([b][0], stored);
  }
}
