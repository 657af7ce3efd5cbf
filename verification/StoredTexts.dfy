/** The signatures a turn leaves in the cache beside its records, and a text that finds its own again. */
module StoredTexts {
  import opened Core
  import opened Turns
  import opened Caches
  import opened CacheLaws
  import opened CacheLookups
  import opened Exchange
  import opened Translate
  import opened Sessions

  /** The record shows this signature under this id. */
  predicate Shows(r: Record, id: Id, sig: string) {
    r.sig == sig && (r.itemId == id || (r.CallRec? && r.callId == id))
  }

  predicate Puts(ops: seq<Op>, op: Op) {
    exists k :: 0 <= k < |ops| && ops[k] == op
  }

  lemma PutsConcat(a: seq<Op>, b: seq<Op>, op: Op)
    ensures Puts(a + b, op) <==> Puts(a, op) || Puts(b, op)
  {
    if Puts(a, op) {
      var k :| 0 <= k < |a| && a[k] == op;
      assert (a + b)[k] == op;
    }
    if Puts(b, op) {
      var k :| 0 <= k < |b| && b[k] == op;
      assert (a + b)[|a| + k] == op;
    }
  }

  lemma RecordPuts(ctx: Ctx, r: Record, prefixHash: string, id: Id, sig: string, key: string)
    requires id != NO_ID && sig != "" && r.itemId != NO_ID
    ensures Puts(RecordOps(ctx, r, prefixHash), PutMessageOp(id, sig)) <==> Shows(r, id, sig)
    ensures Puts(RecordOps(ctx, r, prefixHash), PutContextOp(key, sig)) <==>
            prefixHash != "" && r.TextRec? && r.sig == sig && key == ResponsesContextKey(prefixHash, r.text)
  {
    hide ResponsesContextKey;
    var ops := RecordOps(ctx, r, prefixHash);
    if r.TextRec? {
      assert r.sig != "" ==> ops[0] == PutMessageOp(r.itemId, r.sig);
      assert r.sig != "" && prefixHash != "" ==> ops[1] == PutContextOp(ResponsesContextKey(prefixHash, r.text), r.sig);
    } else {
      assert r.sig != "" ==> ops[1] == PutMessageOp(r.callId, r.sig) && ops[2] == PutMessageOp(r.itemId, r.sig);
    }
  }

  predicate ShownIn(parts: seq<Record>, id: Id, sig: string) {
    exists i :: 0 <= i < |parts| && Shows(parts[i], id, sig)
  }

  predicate TextAt(parts: seq<Record>, prefixHash: string, key: string, sig: string) {
    exists i :: 0 <= i < |parts| && parts[i].TextRec? && parts[i].sig == sig && key == ResponsesContextKey(prefixHash, parts[i].text)
  }

  lemma {:induction false} PartPuts(ctx: Ctx, parts: seq<Record>, prefixHash: string, id: Id, sig: string, key: string)
    requires id != NO_ID && sig != "" && forall i :: 0 <= i < |parts| ==> parts[i].itemId != NO_ID
    ensures Puts(PartOps(ctx, parts, prefixHash), PutMessageOp(id, sig)) <==> ShownIn(parts, id, sig)
    ensures Puts(PartOps(ctx, parts, prefixHash), PutContextOp(key, sig)) <==> prefixHash != "" && TextAt(parts, prefixHash, key, sig)
  {
    hide Puts, RecordOps, ResponsesContextKey, Shows;
    if parts == [] {
      NoPut(PutMessageOp(id, sig));
      NoPut(PutContextOp(key, sig));
    } else {
      var n := |parts| - 1;
      assert parts == parts[..n] + [parts[n]];
      PartPuts(ctx, parts[..n], prefixHash, id, sig, key);
      RecordPuts(ctx, parts[n], prefixHash, id, sig, key);
      PutsConcat(PartOps(ctx, parts[..n], prefixHash), RecordOps(ctx, parts[n], prefixHash), PutMessageOp(id, sig));
      PutsConcat(PartOps(ctx, parts[..n], prefixHash), RecordOps(ctx, parts[n], prefixHash), PutContextOp(key, sig));
      OneMore(parts[..n], parts[n], prefixHash, id, sig, key);
    }
  }

  lemma NoPut(op: Op)
    ensures !Puts([], op)
  {
  }

  lemma OneMore(parts: seq<Record>, r: Record, prefixHash: string, id: Id, sig: string, key: string)
    ensures ShownIn(parts + [r], id, sig) <==> ShownIn(parts, id, sig) || Shows(r, id, sig)
    ensures TextAt(parts + [r], prefixHash, key, sig) <==>
            TextAt(parts, prefixHash, key, sig) || (r.TextRec? && r.sig == sig && key == ResponsesContextKey(prefixHash, r.text))
  {
    hide Shows, ResponsesContextKey;
    var all := parts + [r];
    assert all[|parts|] == r && forall i :: 0 <= i < |parts| ==> all[i] == parts[i];
    if ShownIn(parts, id, sig) {
      var i :| 0 <= i < |parts| && Shows(parts[i], id, sig);
      assert Shows(all[i], id, sig);
    }
    if TextAt(parts, prefixHash, key, sig) {
      var i :| 0 <= i < |parts| && parts[i].TextRec? && parts[i].sig == sig && key == ResponsesContextKey(prefixHash, parts[i].text);
      assert all[i] == parts[i];
    }
  }

  lemma {:induction false} SiblingsPutNothing(siblings: map<Id, seq<Id>>, leads: seq<Id>)
    ensures forall k :: 0 <= k < |SiblingOps(siblings, leads)| ==> SiblingOps(siblings, leads)[k].SiblingsOp?
  {
    if leads != [] {
      SiblingsPutNothing(siblings, leads[..|leads| - 1]);
    }
  }

  /**
   * The signatures that storing a turn puts beside its records: exactly those of its signed records,
   * under their item ids and call ids, and those of its signed texts under prefix and text.
   */
  lemma TurnPuts(ctx: Ctx, ps: seq<Part>, prefixHash: string, leads: seq<Id>, id: Id, sig: string, key: string)
    requires ctx.Valid() && id != NO_ID && sig != ""
    ensures var t := Built(ctx, ps);
            var ops := TurnOps(t, prefixHash, leads);
            && (Puts(ops, PutMessageOp(id, sig)) <==> ShownIn(t.parts, id, sig))
            && (Puts(ops, PutContextOp(key, sig)) <==> prefixHash != "" && TextAt(t.parts, prefixHash, key, sig))
  {
    hide PartOps, SiblingOps, ShownIn, TextAt, Run, Final, WF;
    var t := Built(ctx, ps);
    RunWF(ctx, ps);
    FinalWF(Run(ctx, ps));
    DistinctIds(Final(Run(ctx, ps)));
    PartPuts(t.ctx, t.parts, prefixHash, id, sig, key);
    SiblingsPutNothing(t.siblings, leads);
    PutsConcat(PartOps(t.ctx, t.parts, prefixHash), SiblingOps(t.siblings, leads), PutMessageOp(id, sig));
    PutsConcat(PartOps(t.ctx, t.parts, prefixHash), SiblingOps(t.siblings, leads), PutContextOp(key, sig));
  }

  // ----- what was put during a run is still there

  /** The key stands in the order with fewer than `n` keys behind it. */
  predicate Within<K(==)>(t: Table<K>, k: K, n: nat) {
    exists p :: 0 <= p < |t.order| && t.order[p] == k && |t.order| - p <= n
  }

  lemma StaysWithin<K(!new)>(t: Table<K>, max: Capacity, k: K, other: K, sig: string, n: nat)
    requires TableInv(t, max) && n + (if other in t.sigs then 0 else 1) <= max
    requires other == k || (k in t.sigs && Within(t, k, n))
    ensures var t', n' := PutBounded(t, max, other, sig), n + if other in t.sigs then 0 else 1;
            && (other == k && k !in t.sigs ==> k in t'.sigs && Within(t', k, n'))
            && (k in t.sigs && Within(t, k, n) ==> k in t'.sigs && Within(t', k, n'))
  {
    hide TableInv, PutBounded;
    PutIs(t, max, other, sig, k);
    Bounded(t, max);
    var t' := PutBounded(t, max, other, sig);
    if k in t.sigs && Within(t, k, n) {
      var p :| 0 <= p < |t.order| && t.order[p] == k && |t.order| - p <= n;
      OldestAtNought(t, max, k, p);
      var gone := if other in t.sigs then 0 else Pushed(|t.order|, max, 1);
      assert t'.order[p - gone] == k;
    } else if k !in t.sigs {
      assert t'.order[|t'.order| - 1] == k;
    }
  }

  predicate PutFor<K(==)>(puts: seq<(K, string)>, k: K) {
    exists j :: 0 <= j < |puts| && puts[j].0 == k
  }

  /** Of at most as many new keys as the table has room for, each is found with the last signature put under it. */
  lemma {:induction false} PutIsHeld<K(!new)>(t: Table<K>, max: Capacity, puts: seq<(K, string)>, k: K, had: string)
    requires TableInv(t, max) && k !in t.sigs && Arrivals(t, max, puts) <= max
    ensures var t' := PutEach(t, max, puts);
            && TableInv(t', max)
            && (k in t'.sigs <==> PutFor(puts, k))
            && (k in t'.sigs ==> Within(t', k, Arrivals(t, max, puts)) && t'.sigs[k] == Latest(puts, k, had))
  {
    hide TableInv, PutBounded, Within;
    if puts != [] {
      var m := |puts| - 1;
      PutIsHeld(t, max, puts[..m], k, had);
      assert puts == puts[..m] + [puts[m]];
      assert PutFor(puts, k) <==> PutFor(puts[..m], k) || puts[m].0 == k by { PutForSnoc(puts[..m], puts[m], k); }
      var before := PutEach(t, max, puts[..m]);
      PutIs(before, max, puts[m].0, puts[m].1, k);
      if PutFor(puts, k) {
        StaysWithin(before, max, k, puts[m].0, puts[m].1, Arrivals(t, max, puts[..m]));
      }
    }
  }

  lemma PutForSnoc<K>(puts: seq<(K, string)>, last: (K, string), k: K)
    ensures PutFor(puts + [last], k) <==> PutFor(puts, k) || last.0 == k
  {
    var all := puts + [last];
    assert all[|puts|] == last && forall j :: 0 <= j < |puts| ==> all[j] == puts[j];
    if PutFor(puts, k) {
      var j :| 0 <= j < |puts| && puts[j].0 == k;
      assert all[j].0 == k;
    }
  }

  lemma {:induction false} PutsAreMessages(ops: seq<Op>, id: Id, sig: string)
    requires id != NO_ID && sig != "" && Puts(ops, PutMessageOp(id, sig))
    ensures PutFor(MessagePuts(ops), id)
  {
    var n := |ops| - 1;
    assert ops == ops[..n] + [ops[n]];
    PutsConcat(ops[..n], [ops[n]], PutMessageOp(id, sig));
    if Puts(ops[..n], PutMessageOp(id, sig)) {
      PutsAreMessages(ops[..n], id, sig);
      var j :| 0 <= j < |MessagePuts(ops[..n])| && MessagePuts(ops[..n])[j].0 == id;
      assert MessagePuts(ops)[j].0 == id;
    } else {
      assert MessagePuts(ops)[|MessagePuts(ops[..n])|].0 == id;
    }
  }

  lemma {:induction false} NoEmptyPut(puts: seq<(Id, string)>, k: Id, had: string)
    requires had != "" && forall j :: 0 <= j < |puts| ==> puts[j].1 != ""
    ensures Latest(puts, k, had) != ""
  {
    if puts != [] {
      NoEmptyPut(puts[..|puts| - 1], k, had);
    }
  }

  lemma {:induction false} MessagePutsSigned(ops: seq<Op>)
    ensures forall j :: 0 <= j < |MessagePuts(ops)| ==> MessagePuts(ops)[j].1 != ""
  {
    if ops != [] {
      MessagePutsSigned(ops[..|ops| - 1]);
    }
  }

  /** A message that was signed during the run is signed at its end. */
  lemma MessageIsHeld(c: Cache, ops: seq<Op>, id: Id, sig: string)
    requires Inv(c) && WithoutRestart(ops) && id != NO_ID && sig != "" && Puts(ops, PutMessageOp(id, sig))
    requires id !in c.messages.sigs && Arrivals(c.messages, c.maxSize, MessagePuts(ops)) <= c.maxSize
    ensures GetMessage(RunFrom(c, ops), id) == Latest(MessagePuts(ops), id, sig) != ""
  {
    hide TableInv, AliasInv, RecordInv, ToolOrderInv, RunFrom, MessagePuts, Puts, WithoutRestart;
    TablesAre(c, ops);
    PutsAreMessages(ops, id, sig);
    PutIsHeld(c.messages, c.maxSize, MessagePuts(ops), id, sig);
    MessagePutsSigned(ops);
    NoEmptyPut(MessagePuts(ops), id, sig);
  }

  // ----- contexts

  /** The operation puts this signature under this trimmed key. */
  predicate PutsContext(op: Op, k: string, sig: string) {
    op.PutContextOp? && TrimSpace(op.key) == k && op.sig == sig
  }

  predicate ContextPut(ops: seq<Op>, k: string, sig: string) {
    exists j :: 0 <= j < |ops| && PutsContext(ops[j], k, sig)
  }

  lemma ContextPutSnoc(ops: seq<Op>, op: Op, k: string, sig: string)
    ensures ContextPut(ops + [op], k, sig) <==> ContextPut(ops, k, sig) || PutsContext(op, k, sig)
  {
    hide PutsContext;
    var all := ops + [op];
    assert all[|ops|] == op && forall j :: 0 <= j < |ops| ==> all[j] == ops[j];
    if ContextPut(ops, k, sig) {
      var j :| 0 <= j < |ops| && PutsContext(ops[j], k, sig);
      assert PutsContext(all[j], k, sig);
    }
  }

  predicate Held(c: Cache, k: string, sig: string, n: nat) {
    k in c.contexts.sigs && c.contexts.sigs[k] == sig && Within(c.contexts, k, n)
  }

  /** An unambiguous key keeps its signature, and another signature makes it ambiguous. */
  lemma HeldStays(c: Cache, op: Op, k: string, sig: string, n: nat)
    requires Inv(c) && !op.Restart? && Held(c, k, sig, n) && sig != "" && k != "" && Name(k) !in Apply(c, op).ambiguous
    requires n + (if BringsContext(c, op) then 1 else 0) <= c.maxSize
    ensures Held(Apply(c, op), k, sig, n + if BringsContext(c, op) then 1 else 0)
    ensures forall s :: PutsContext(op, k, s) && s != "" ==> s == sig
  {
    hide TableInv, ToolOrderInv, AliasInv, RecordInv, Apply, TrimSpace, PutBounded;
    Bounded(c.contexts, c.maxSize);
    var p :| 0 <= p < |c.contexts.order| && c.contexts.order[p] == k && |c.contexts.order| - p <= n;
    ContextStays(c, op, p);
    var gone := Pushed(|c.contexts.order|, c.maxSize, if BringsContext(c, op) then 1 else 0);
    assert Apply(c, op).contexts.order[p - gone] == k;
    OtherSignature(c, op, k, sig);
  }

  lemma OtherSignature(c: Cache, op: Op, k: string, sig: string)
    requires k in c.contexts.sigs && c.contexts.sigs[k] == sig && sig != "" && k != "" && Name(k) !in Apply(c, op).ambiguous
    ensures forall s :: PutsContext(op, k, s) && s != "" ==> s == sig
  {
    hide TrimSpace, PutBounded, PutTool, Load;
  }

  /** The first put of a key that is not ambiguous stores it. */
  lemma FirstPut(c: Cache, op: Op, k: string, sig: string, n: nat)
    requires Inv(c) && PutsContext(op, k, sig) && sig != "" && k != "" && k !in c.contexts.sigs && Name(k) !in Apply(c, op).ambiguous
    requires n + 1 <= c.maxSize
    ensures BringsContext(c, op) && Held(Apply(c, op), k, sig, n + 1)
  {
    hide TableInv, ToolOrderInv, AliasInv, RecordInv, TrimSpace, PutBounded;
    PutIs(c.contexts, c.maxSize, k, sig, k);
    var t' := PutBounded(c.contexts, c.maxSize, k, sig);
    assert t'.order[|t'.order| - 1] == k;
  }

  lemma AbsentStays(c: Cache, op: Op, k: string)
    requires Inv(c) && !op.Restart? && k !in c.contexts.sigs && forall s :: !PutsContext(op, k, s) || s == ""
    ensures k !in Apply(c, op).contexts.sigs
  {
    hide TableInv, ToolOrderInv, AliasInv, RecordInv, TrimSpace, PutBounded, Apply;
    ContextsAfter(c, op);
    if op.PutContextOp? {
      assert PutsContext(op, TrimSpace(op.key), op.sig);
      PutIs(c.contexts, c.maxSize, TrimSpace(op.key), op.sig, k);
    }
  }

  /** A key that stayed unambiguous holds each signature that was put under it, so all were the same; without a put it is absent. */
  lemma {:induction false} ContextIsHeld(c: Cache, ops: seq<Op>, k: string)
    requires Inv(c) && WithoutRestart(ops) && k != "" && k !in c.contexts.sigs && Name(k) !in RunFrom(c, ops).ambiguous
    requires NewContexts(c, ops) <= c.maxSize
    ensures Inv(RunFrom(c, ops)) && RunFrom(c, ops).maxSize == c.maxSize
    ensures forall s :: s != "" && ContextPut(ops, k, s) ==> Held(RunFrom(c, ops), k, s, NewContexts(c, ops))
    ensures (forall s :: ContextPut(ops, k, s) ==> s == "") ==> k !in RunFrom(c, ops).contexts.sigs
  {
    hide Inv, Apply, Held, PutsContext, BringsContext, ContextPut;
    if ops == [] {
      forall s
        ensures !ContextPut([], k, s)
      {
        NoContextPut(k, s);
      }
    } else {
      var n := |ops| - 1;
      var before, op := RunFrom(c, ops[..n]), ops[n];
      assert ops == ops[..n] + [op] && !op.Restart?;
      RestOfRun(c, ops);
      ContextIsHeld(c, ops[..n], k);
      ApplyKeeps(before, op);
      ContextsAfter(before, op);
      forall s
        ensures ContextPut(ops, k, s) <==> ContextPut(ops[..n], k, s) || PutsContext(op, k, s)
      {
        ContextPutSnoc(ops[..n], op, k, s);
      }
      if s0 :| s0 != "" && ContextPut(ops[..n], k, s0) {
        HeldStays(before, op, k, s0, NewContexts(c, ops[..n]));
        forall s | s != "" && ContextPut(ops[..n], k, s)
          ensures s == s0
        {
          HeldOnce(before, k, s, s0, NewContexts(c, ops[..n]));
        }
      } else if s1 :| s1 != "" && PutsContext(op, k, s1) {
        PutBrings(before, op, k, s1);
        FirstPut(before, op, k, s1, NewContexts(c, ops[..n]));
        forall s | PutsContext(op, k, s)
          ensures s == s1
        {
          PutsOne(op, k, s, s1);
        }
      } else {
        AbsentStays(before, op, k);
      }
    }
  }

  lemma NoContextPut(k: string, s: string)
    ensures !ContextPut([], k, s)
  {
  }

  lemma PutsOne(op: Op, k: string, s: string, s': string)
    requires PutsContext(op, k, s) && PutsContext(op, k, s')
    ensures s == s'
  {
  }

  lemma HeldOnce(c: Cache, k: string, s: string, s': string, n: nat)
    requires Held(c, k, s, n) && Held(c, k, s', n)
    ensures s == s'
  {
  }

  lemma PutBrings(c: Cache, op: Op, k: string, sig: string)
    requires PutsContext(op, k, sig) && sig != "" && k != "" && k !in c.contexts.sigs && Name(k) !in Apply(c, op).ambiguous
    ensures BringsContext(c, op)
  {
    hide TrimSpace, PutBounded;
  }

  // ----- the text comes back

  /**
   * A turn is stored, and then anything but a restart happens. If no more messages and contexts
   * arrived than the cache has room for, a signed text of the turn that is replayed without its
   * reasoning item, after the same prefix, finds its signature in the cache, unless the same text
   * after this prefix was also signed differently.
   */
  lemma StoredTextComesBack(
    c: Cache, ctx: Ctx, ps: seq<Part>, i: nat, prefixHash: string, leads: seq<Id>, later: seq<Op>, t: Tables, item: Item)
    requires ctx.Valid() && Inv(c) && WithoutRestart(later) && i < |Built(ctx, ps).parts| && prefixHash != "" && t.texts == map[]
    requires var r := Built(ctx, ps).parts[i];
      && r.TextRec? && r.sig != "" && item.MessageItem? && item.id == r.itemId && item.text == r.text && item.sig == ""
      && r.itemId !in c.messages.sigs && TrimSpace(ResponsesContextKey(prefixHash, r.text)) !in c.contexts.sigs
      && TrimSpace(ResponsesContextKey(prefixHash, r.text)) != ""
    requires var ops := TurnOps(Built(ctx, ps), prefixHash, leads) + later;
      Arrivals(c.messages, c.maxSize, MessagePuts(ops)) <= c.maxSize && NewContexts(c, ops) <= c.maxSize
    ensures var r := Built(ctx, ps).parts[i];
            var cache := RunFrom(c, TurnOps(Built(ctx, ps), prefixHash, leads) + later);
            TextSig(t, cache, item, prefixHash) ==
            if Name(TrimSpace(ResponsesContextKey(prefixHash, r.text))) in cache.ambiguous then "" else r.sig
  {
    hide Inv, TurnOps, RunFrom, ResponsesContextKey, TrimSpace, Run, Final, Puts, ContextPut, MessagePuts, NewContexts, Arrivals, WithoutRestart;
    var r, turn := Built(ctx, ps).parts[i], TurnOps(Built(ctx, ps), prefixHash, leads);
    var ops, key := turn + later, ResponsesContextKey(prefixHash, r.text);
    RecordNamed(ctx, ps, i);
    TurnPuts(ctx, ps, prefixHash, leads, r.itemId, r.sig, key);
    assert Shows(r, r.itemId, r.sig);
    PutsConcat(turn, later, PutMessageOp(r.itemId, r.sig));
    PutsConcat(turn, later, PutContextOp(key, r.sig));
    assert WithoutRestart(ops) by { NoRestart(ctx, ps, prefixHash, leads, later); }
    MessageIsHeld(c, ops, r.itemId, r.sig);
    var k := TrimSpace(key);
    if Name(k) !in RunFrom(c, ops).ambiguous {
      ContextIsHeld(c, ops, k);
      PutIsContext(ops, key, r.sig);
    }
  }

  lemma PutIsContext(ops: seq<Op>, key: string, sig: string)
    requires Puts(ops, PutContextOp(key, sig))
    ensures ContextPut(ops, TrimSpace(key), sig)
  {
    hide TrimSpace;
    var j :| 0 <= j < |ops| && ops[j] == PutContextOp(key, sig);
    assert PutsContext(ops[j], TrimSpace(key), sig);
  }

  lemma RecordNamed(ctx: Ctx, ps: seq<Part>, i: nat)
    requires ctx.Valid() && i < |Built(ctx, ps).parts|
    ensures Built(ctx, ps).parts[i].itemId != NO_ID
  {
    hide Run, Final, WF;
    RunWF(ctx, ps);
    FinalWF(Run(ctx, ps));
    DistinctIds(Final(Run(ctx, ps)));
  }

  lemma {:induction false} PartsWithoutRestart(ctx: Ctx, parts: seq<Record>, prefixHash: string)
    ensures WithoutRestart(PartOps(ctx, parts, prefixHash))
  {
    hide ResponsesContextKey;
    if parts != [] {
      PartsWithoutRestart(ctx, parts[..|parts| - 1], prefixHash);
    }
  }

  lemma NoRestart(ctx: Ctx, ps: seq<Part>, prefixHash: string, leads: seq<Id>, later: seq<Op>)
    requires WithoutRestart(later)
    ensures WithoutRestart(TurnOps(Built(ctx, ps), prefixHash, leads) + later)
  {
    hide PartOps, SiblingOps, Run, Final;
    var t := Built(ctx, ps);
    PartsWithoutRestart(t.ctx, t.parts, prefixHash);
    SiblingsPutNothing(t.siblings, leads);
  }
}
