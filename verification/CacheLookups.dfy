/** What the cache answers: trimming, the bounded tables put by put, and what any saved file loads as. */
module CacheLookups {
  import opened Core
  import opened Caches
  import opened CacheLaws

  // ----- trimming

  /** `t` is `s` without the white space around it, and neither begins nor ends with white space. */
  ghost predicate TrimsTo(s: string, t: string) {
    && (t == "" || (!IsSpace(t[0]) && !IsSpace(t[|t| - 1])))
    && exists before: nat, after: nat :: Wraps(s, t, before, after)
  }

  predicate Wraps(s: string, t: string, before: nat, after: nat) {
    && before <= after <= |s| && s[before..after] == t
    && (forall i :: 0 <= i < before ==> IsSpace(s[i]))
    && (forall i :: after <= i < |s| ==> IsSpace(s[i]))
  }

  lemma {:induction false} TrimsToResult(s: string)
    ensures TrimsTo(s, TrimSpace(s))
    decreases |s|
  {
    hide IsSpace, Wraps;
    if s == "" {
      assert Wraps(s, "", 0, 0) by { WrapsItself(s); }
    } else if IsSpace(s[0]) {
      TrimsToResult(s[1..]);
      var before: nat, after: nat :| Wraps(s[1..], TrimSpace(s), before, after);
      WrapsLonger(s, TrimSpace(s), before, after);
    } else if IsSpace(s[|s| - 1]) {
      TrimsToResult(s[..|s| - 1]);
      var before: nat, after: nat :| Wraps(s[..|s| - 1], TrimSpace(s), before, after);
      WrapsLater(s, TrimSpace(s), before, after);
    } else {
      assert Wraps(s, s, 0, |s|) by { WrapsItself(s); }
    }
  }

  lemma WrapsItself(s: string)
    ensures Wraps(s, s, 0, |s|)
  {
    assert s[0..|s|] == s;
  }

  lemma WrapsLonger(s: string, t: string, before: nat, after: nat)
    requires s != "" && IsSpace(s[0]) && Wraps(s[1..], t, before, after)
    ensures Wraps(s, t, before + 1, after + 1)
  {
    var u := s[1..];
    assert |u| == |s| - 1 && forall i :: 1 <= i < |s| ==> s[i] == u[i - 1];
    assert s[before + 1..after + 1] == u[before..after];
  }

  lemma WrapsLater(s: string, t: string, before: nat, after: nat)
    requires s != "" && IsSpace(s[|s| - 1]) && Wraps(s[..|s| - 1], t, before, after)
    ensures Wraps(s, t, before, after)
  {
    var u := s[..|s| - 1];
    assert |u| == |s| - 1 && forall i :: 0 <= i < |u| ==> s[i] == u[i];
    assert s[before..after] == u[before..after];
  }

  lemma TrimIsUnique(s: string, t: string, u: string)
    requires TrimsTo(s, t) && TrimsTo(s, u)
    ensures t == u
  {
    hide IsSpace;
    if t != "" || u != "" {
      var b: nat, a: nat :| Wraps(s, t, b, a);
      var b': nat, a': nat :| Wraps(s, u, b', a');
      assert t != "" ==> s[b] == t[0] && s[a - 1] == t[|t| - 1];
      assert u != "" ==> s[b'] == u[0] && s[a' - 1] == u[|u| - 1];
    }
  }

  /** Trimming removes the white space around a text, all of it, and nothing else. */
  lemma TrimmingIsExact(s: string, t: string)
    ensures TrimSpace(s) == t <==> TrimsTo(s, t)
  {
    TrimsToResult(s);
    if TrimsTo(s, t) {
      TrimIsUnique(s, t, TrimSpace(s));
    }
  }

  // ----- the bounded tables

  function PutEach<K(==)>(t: Table<K>, max: Capacity, puts: seq<(K, string)>): Table<K> {
    if puts == [] then t
    else PutBounded(PutEach(t, max, puts[..|puts| - 1]), max, puts[|puts| - 1].0, puts[|puts| - 1].1)
  }

  /** How many of the puts found their key missing. */
  function Arrivals<K(==)>(t: Table<K>, max: Capacity, puts: seq<(K, string)>): nat {
    if puts == [] then 0
    else
      var before := puts[..|puts| - 1];
      Arrivals(t, max, before) + if puts[|puts| - 1].0 in PutEach(t, max, before).sigs then 0 else 1
  }

  /** How many of `n` arrivals pushed an older key out. */
  function Pushed(size: nat, max: Capacity, n: nat): nat {
    if size + n <= max then 0 else size + n - max
  }

  /** The last signature put under a key, or the one it had. */
  function Latest<K(==)>(puts: seq<(K, string)>, k: K, had: string): string {
    if puts == [] then had
    else if puts[|puts| - 1].0 == k then puts[|puts| - 1].1
    else Latest(puts[..|puts| - 1], k, had)
  }

  /**
   * One put: its own key gets the signature; the one other key that may change is the oldest, which
   * is lost exactly when the key is new and the table full.
   */
  lemma PutIs<K(!new)>(t: Table<K>, max: Capacity, k: K, sig: string, other: K)
    requires TableInv(t, max)
    ensures var t' := PutBounded(t, max, k, sig);
            var lost := k !in t.sigs && |t.order| >= max && other == t.order[0];
            && TableInv(t', max)
            && k in t'.sigs && t'.sigs[k] == sig
            && (other != k ==> (other in t'.sigs <==> other in t.sigs && !lost))
            && (other != k && other in t'.sigs ==> t'.sigs[other] == t.sigs[other])
            && (k in t.sigs ==> t'.order == t.order)
            && (k !in t.sigs ==> t'.order == t.order[Pushed(|t.order|, max, 1)..] + [k])
  {
    hide TableInv;
    PutBoundedKeeps(t, max, k, sig);
    Bounded(t, max);
  }

  lemma Bounded<K(!new)>(t: Table<K>, max: Capacity)
    requires TableInv(t, max)
    ensures |t.order| <= max && NoDup(t.order)
    ensures forall i :: 0 <= i < |t.order| ==> t.order[i] in t.sigs
  {
    assert forall i :: 0 <= i < |t.order| ==> t.order[i] in Elems(t.order);
  }

  /** First in, first out: every new key pushes the older ones one place ahead once the table is full. */
  lemma {:induction false} PlaceAfter<K(!new)>(t: Table<K>, max: Capacity, puts: seq<(K, string)>, p: nat)
    requires TableInv(t, max) && p < |t.order| && Pushed(|t.order|, max, Arrivals(t, max, puts)) <= p
    ensures var n, t' := Arrivals(t, max, puts), PutEach(t, max, puts);
            && TableInv(t', max) && |t'.order| == |t.order| + n - Pushed(|t.order|, max, n)
            && t'.order[p - Pushed(|t.order|, max, n)] == t.order[p]
            && t.order[p] in t'.sigs && t'.sigs[t.order[p]] == Latest(puts, t.order[p], t.sigs[t.order[p]])
  {
    hide TableInv, PutBounded;
    Bounded(t, max);
    if puts != [] {
      var m := |puts| - 1;
      PlaceAfter(t, max, puts[..m], p);
      var before := PutEach(t, max, puts[..m]);
      Bounded(before, max);
      PutIs(before, max, puts[m].0, puts[m].1, t.order[p]);
      OldestAtNought(before, max, t.order[p], p - Pushed(|t.order|, max, Arrivals(t, max, puts[..m])));
    }
  }

  lemma OldestAtNought<K(!new)>(t: Table<K>, max: Capacity, k: K, at: nat)
    requires TableInv(t, max) && at < |t.order| && t.order[at] == k
    ensures t.order[0] == k <==> at == 0
  {
  }

  /** A key stays, with the last signature put under it, until as many keys arrived as were to follow it; the next one removes it. */
  lemma KeyStays<K(!new)>(t: Table<K>, max: Capacity, puts: seq<(K, string)>, p: nat)
    requires TableInv(t, max) && p < |t.order| && |t.order| + Arrivals(t, max, puts) <= max + p
    ensures var k, t' := t.order[p], PutEach(t, max, puts);
            && k in t.sigs && k in t'.sigs && t'.sigs[k] == Latest(puts, k, t.sigs[k])
            && (|t.order| + Arrivals(t, max, puts) == max + p ==>
                  forall other, sig {:trigger PutBounded(t', max, other, sig)} :: other !in t'.sigs ==> k !in PutBounded(t', max, other, sig).sigs)
  {
    hide TableInv, PutBounded;
    var k, t' := t.order[p], PutEach(t, max, puts);
    Bounded(t, max);
    PlaceAfter(t, max, puts, p);
    Bounded(t', max);
    OldestAtNought(t', max, k, p - Pushed(|t.order|, max, Arrivals(t, max, puts)));
    forall other, sig | other !in t'.sigs && |t.order| + Arrivals(t, max, puts) == max + p
      ensures k !in PutBounded(t', max, other, sig).sigs
    {
      PutIs(t', max, other, sig, k);
    }
  }

  // ----- the same over runs of the cache

  predicate WithoutRestart(ops: seq<Op>) {
    forall i :: 0 <= i < |ops| ==> !ops[i].Restart?
  }

  function MessagePuts(ops: seq<Op>): seq<(Id, string)> {
    if ops == [] then []
    else
      var op := ops[|ops| - 1];
      MessagePuts(ops[..|ops| - 1]) + if op.PutMessageOp? && op.id != NO_ID && op.sig != "" then [(op.id, op.sig)] else []
  }

  function TextPuts(ops: seq<Op>): seq<(string, string)> {
    if ops == [] then []
    else
      var op := ops[|ops| - 1];
      TextPuts(ops[..|ops| - 1]) + if op.PutTextOp? && TrimSpace(op.text) != "" && op.sig != "" then [(TrimSpace(op.text), op.sig)] else []
  }

  /** The message and text tables see the puts made to them, in order, and nothing else. */
  lemma {:induction false} TablesAre(c: Cache, ops: seq<Op>)
    requires WithoutRestart(ops)
    ensures RunFrom(c, ops).maxSize == c.maxSize
    ensures RunFrom(c, ops).messages == PutEach(c.messages, c.maxSize, MessagePuts(ops))
    ensures RunFrom(c, ops).texts == PutEach(c.texts, c.maxSize, TextPuts(ops))
  {
    hide TrimSpace, PutEach, Apply;
    if ops == [] {
      NoPuts(c.messages, c.maxSize);
      NoPuts(c.texts, c.maxSize);
    } else {
      var n := |ops| - 1;
      TablesAre(c, ops[..n]);
      TablesStep(RunFrom(c, ops[..n]), ops[n]);
      assert !ops[n].Restart?;
      assert MessagePuts(ops[..n]) + [] == MessagePuts(ops[..n]) && TextPuts(ops[..n]) + [] == TextPuts(ops[..n]);
      match ops[n]
      case PutMessageOp(id, sig) => PutEachSnoc(c.messages, c.maxSize, MessagePuts(ops[..n]), id, sig);
      case PutTextOp(text, sig) => PutEachSnoc(c.texts, c.maxSize, TextPuts(ops[..n]), TrimSpace(text), sig);
      case _ =>
    }
  }

  lemma NoPuts<K>(t: Table<K>, max: Capacity)
    ensures PutEach(t, max, []) == t
  {
  }

  lemma TablesStep(c: Cache, op: Op)
    requires !op.Restart?
    ensures var c' := Apply(c, op);
            && c'.maxSize == c.maxSize
            && c'.messages == (if op.PutMessageOp? && op.id != NO_ID && op.sig != "" then PutBounded(c.messages, c.maxSize, op.id, op.sig) else c.messages)
            && c'.texts == (if op.PutTextOp? && TrimSpace(op.text) != "" && op.sig != "" then PutBounded(c.texts, c.maxSize, TrimSpace(op.text), op.sig)
                            else c.texts)
  {
    hide TrimSpace, PutTool, PutBounded;
    if op.PutToolOp? {
      ToolPutFields(c, op.rec, op.aliases);
    }
  }

  lemma PutEachSnoc<K>(t: Table<K>, max: Capacity, puts: seq<(K, string)>, k: K, sig: string)
    ensures PutEach(t, max, puts + [(k, sig)]) == PutBounded(PutEach(t, max, puts), max, k, sig)
  {
    assert (puts + [(k, sig)])[..|puts|] == puts;
  }

  lemma ToolPutFields(c: Cache, rec: ToolRecord, aliases: seq<Id>)
    ensures PutTool(c, rec, aliases).messages == c.messages && PutTool(c, rec, aliases).texts == c.texts
    ensures PutTool(c, rec, aliases).maxSize == c.maxSize
  {
    hide BindAliases, KeepSig;
    if !Refused(c, rec) {
      BindAllSize(Admit(c, KeepSig(c, rec)), rec.bridgeId, aliases);
    }
  }

  /** A message signature is found, as last put, for as long as fewer than `maxSize` other messages arrive. */
  lemma MessageIsFound(c: Cache, id: Id, sig: string, ops: seq<Op>)
    requires Inv(c) && id != NO_ID && sig != "" && id !in c.messages.sigs && WithoutRestart(ops)
    requires Arrivals(PutMessage(c, id, sig).messages, c.maxSize, MessagePuts(ops)) < c.maxSize
    ensures GetMessage(RunFrom(PutMessage(c, id, sig), ops), id) == Latest(MessagePuts(ops), id, sig)
  {
    hide TableInv, PutBounded, AliasInv, RecordInv, ToolOrderInv;
    var c' := PutMessage(c, id, sig);
    TablesAre(c', ops);
    PutIs(c.messages, c.maxSize, id, sig, id);
    KeyStays(c'.messages, c.maxSize, MessagePuts(ops), |c'.messages.order| - 1);
  }

  /** The same for a text, whatever white space surrounds it when it is put and when it is looked up. */
  lemma TextIsFound(c: Cache, text: string, sig: string, ops: seq<Op>, again: string)
    requires Inv(c) && sig != "" && TrimSpace(text) != "" && TrimSpace(text) !in c.texts.sigs && WithoutRestart(ops)
    requires TrimSpace(again) == TrimSpace(text)
    requires Arrivals(PutText(c, text, sig).texts, c.maxSize, TextPuts(ops)) < c.maxSize
    ensures GetText(RunFrom(PutText(c, text, sig), ops), again) == Latest(TextPuts(ops), TrimSpace(text), sig)
  {
    hide TableInv, PutBounded, AliasInv, RecordInv, ToolOrderInv, TrimSpace;
    var c', key := PutText(c, text, sig), TrimSpace(text);
    TablesAre(c', ops);
    PutIs(c.texts, c.maxSize, key, sig, key);
    KeyStays(c'.texts, c.maxSize, TextPuts(ops), |c'.texts.order| - 1);
  }

  // ----- how long a record lives

  predicate BringsRecord(c: Cache, op: Op) {
    op.PutToolOp? && !Refused(c, op.rec) && op.rec.bridgeId !in c.toolOrder
  }

  /** How many of the operations stored a record under a new id. */
  function NewRecords(c: Cache, ops: seq<Op>): nat {
    if ops == [] then 0
    else NewRecords(c, ops[..|ops| - 1]) + if BringsRecord(RunFrom(c, ops[..|ops| - 1]), ops[|ops| - 1]) then 1 else 0
  }

  lemma OrderAfter(c: Cache, op: Op)
    requires Inv(c) && !op.Restart?
    ensures Apply(c, op).maxSize == c.maxSize
    ensures Apply(c, op).toolOrder == if BringsRecord(c, op) then Queued(c, op.rec.bridgeId) else c.toolOrder
  {
    hide TableInv, ToolOrderInv, AliasInv, RecordInv, TrimSpace, PutBounded, BindAliases, KeepSig, Refused, Admit, Conflicts;
    if op.PutToolOp? && !Refused(c, op.rec) {
      KeptSig(c, op.rec);
      AdmitOrder(c, KeepSig(c, op.rec));
      BindAllSize(Admit(c, KeepSig(c, op.rec)), op.rec.bridgeId, op.aliases);
    }
  }

  lemma OrderHeld(c: Cache)
    requires Inv(c)
    ensures |c.toolOrder| <= c.maxSize
    ensures forall i :: 0 <= i < |c.toolOrder| ==> c.toolOrder[i] in c.records
  {
    assert forall i :: 0 <= i < |c.toolOrder| ==> c.toolOrder[i] in Elems(c.toolOrder);
  }

  /** One operation moves a record ahead by the place it may free, and keeps it unless it was the oldest of a full cache. */
  lemma LivesStep(c: Cache, op: Op, at: nat)
    requires Inv(c) && !op.Restart? && at < |c.toolOrder|
    requires BringsRecord(c, op) ==> Pushed(|c.toolOrder|, c.maxSize, 1) <= at
    ensures var c', n := Apply(c, op), if BringsRecord(c, op) then 1 else 0;
            var gone := Pushed(|c.toolOrder|, c.maxSize, n);
            && Inv(c') && c'.maxSize == c.maxSize && |c'.toolOrder| == |c.toolOrder| + n - gone
            && c'.toolOrder[at - gone] == c.toolOrder[at] && c.toolOrder[at] in c'.records
  {
    hide Inv, Apply, Refused;
    OrderHeld(c);
    OrderAfter(c, op);
    ApplyKeeps(c, op);
    OrderHeld(Apply(c, op));
  }

  /** A record lives until enough newer ones came; one just stored outlives `maxSize - 1` newer ones. */
  lemma {:induction false} RecordLives(c: Cache, ops: seq<Op>, p: nat)
    requires Inv(c) && WithoutRestart(ops) && p < |c.toolOrder| && |c.toolOrder| + NewRecords(c, ops) <= c.maxSize + p
    ensures LiveThroughout(c, ops, c.toolOrder[p])
    ensures var c', gone := RunFrom(c, ops), Pushed(|c.toolOrder|, c.maxSize, NewRecords(c, ops));
            && Inv(c') && c'.maxSize == c.maxSize && |c'.toolOrder| == |c.toolOrder| + NewRecords(c, ops) - gone
            && c'.toolOrder[p - gone] == c.toolOrder[p]
  {
    hide Inv, Apply, BringsRecord;
    OrderHeld(c);
    if ops != [] {
      var n := |ops| - 1;
      RecordLives(c, ops[..n], p);
      assert !ops[n].Restart?;
      OrderHeld(RunFrom(c, ops[..n]));
      LivesStep(RunFrom(c, ops[..n]), ops[n], p - Pushed(|c.toolOrder|, c.maxSize, NewRecords(c, ops[..n])));
    }
  }

  /** A record stored under a new id lives through `maxSize - 1` newer ones, and the next new one evicts it. */
  lemma StoredRecordLives(c: Cache, rec: ToolRecord, aliases: seq<Id>, ops: seq<Op>, next: Op)
    requires Inv(c) && BringsRecord(c, PutToolOp(rec, aliases)) && WithoutRestart(ops)
    requires NewRecords(PutTool(c, rec, aliases), ops) < c.maxSize
    ensures LiveThroughout(PutTool(c, rec, aliases), ops, rec.bridgeId)
    ensures var c' := PutTool(c, rec, aliases);
            NewRecords(c', ops) == c.maxSize - 1 && BringsRecord(RunFrom(c', ops), next) ==> rec.bridgeId !in Apply(RunFrom(c', ops), next).records
  {
    hide Inv, Refused, LiveThroughout, PutTool, RunFrom, NewRecords;
    var c' := PutTool(c, rec, aliases);
    assert Apply(c, PutToolOp(rec, aliases)) == c';
    OrderHeld(c);
    OrderAfter(c, PutToolOp(rec, aliases));
    ApplyKeeps(c, PutToolOp(rec, aliases));
    OrderHeld(c');
    RecordLives(c', ops, |c'.toolOrder| - 1);
    if NewRecords(c', ops) == c.maxSize - 1 && BringsRecord(RunFrom(c', ops), next) {
      OldestGoes(RunFrom(c', ops), next);
    }
  }

  lemma OldestGoes(c: Cache, op: Op)
    requires Inv(c) && BringsRecord(c, op) && |c.toolOrder| >= c.maxSize
    ensures c.toolOrder[0] !in Apply(c, op).records
  {
    hide TableInv, AliasInv, RecordInv, Refused, KeepSig, BindAliases, Admit, PutTool;
    PutToolKeeps(c, op.rec, op.aliases);
    assert c.toolOrder[0] in c.toolOrder;
  }

  // ----- context signatures

  predicate BringsContext(c: Cache, op: Op) {
    op.PutContextOp? && op.sig != "" &&
    var key := TrimSpace(op.key);
    key != "" && key !in c.contexts.sigs && Name(key) !in c.ambiguous
  }

  /** How many of the operations stored a new context key. */
  function NewContexts(c: Cache, ops: seq<Op>): nat {
    if ops == [] then 0
    else NewContexts(c, ops[..|ops| - 1]) + if BringsContext(RunFrom(c, ops[..|ops| - 1]), ops[|ops| - 1]) then 1 else 0
  }

  lemma ContextsAfter(c: Cache, op: Op)
    requires Inv(c) && !op.Restart?
    ensures Apply(c, op).maxSize == c.maxSize && c.ambiguous <= Apply(c, op).ambiguous
    ensures !op.PutContextOp? ==> Apply(c, op).contexts == c.contexts
    ensures op.PutContextOp? && !BringsContext(c, op) ==>
              var t, t' := c.contexts, Apply(c, op).contexts;
              t'.order == t.order && t'.sigs.Keys == t.sigs.Keys
              && forall k :: k in t.sigs && t.sigs[k] != "" ==> t'.sigs[k] == t.sigs[k] || Name(k) in Apply(c, op).ambiguous
    ensures BringsContext(c, op) ==> Apply(c, op).contexts == PutBounded(c.contexts, c.maxSize, TrimSpace(op.key), op.sig)
  {
    hide TableInv, ToolOrderInv, AliasInv, RecordInv, TrimSpace, BindAliases, KeepSig, Refused, Admit, PutBounded;
    if op.PutToolOp? && !Refused(c, op.rec) {
      AdmitOrder(c, KeepSig(c, op.rec));
      BindAllSize(Admit(c, KeepSig(c, op.rec)), op.rec.bridgeId, op.aliases);
    }
    if op.PutContextOp? {
      KnownPut(c.contexts, c.maxSize, TrimSpace(op.key), op.sig);
    }
  }

  lemma KnownPut<K>(t: Table<K>, max: Capacity, k: K, sig: string)
    ensures k in t.sigs ==> PutBounded(t, max, k, sig) == t.(sigs := t.sigs[k := sig])
  {
  }

  lemma ContextStays(c: Cache, op: Op, at: nat)
    requires Inv(c) && !op.Restart? && at < |c.contexts.order| && c.contexts.order[at] in c.contexts.sigs
    requires c.contexts.sigs[c.contexts.order[at]] != "" && Name(c.contexts.order[at]) !in Apply(c, op).ambiguous
    requires BringsContext(c, op) ==> Pushed(|c.contexts.order|, c.maxSize, 1) <= at
    ensures var t, t', n := c.contexts, Apply(c, op).contexts, if BringsContext(c, op) then 1 else 0;
            var gone := Pushed(|t.order|, c.maxSize, n);
            && Inv(Apply(c, op)) && Apply(c, op).maxSize == c.maxSize && |t'.order| == |t.order| + n - gone
            && t'.order[at - gone] == t.order[at] && t.order[at] in t'.sigs && t'.sigs[t.order[at]] == t.sigs[t.order[at]]
  {
    hide TableInv, ToolOrderInv, AliasInv, RecordInv, Apply, TrimSpace, PutBounded;
    ContextsAfter(c, op);
    ApplyKeeps(c, op);
    Bounded(c.contexts, c.maxSize);
    if op.PutContextOp? {
      PutIs(c.contexts, c.maxSize, TrimSpace(op.key), op.sig, c.contexts.order[at]);
      OldestAtNought(c.contexts, c.maxSize, c.contexts.order[at], at);
    }
  }

  lemma {:induction false} ContextLives(c: Cache, ops: seq<Op>, p: nat)
    requires Inv(c) && WithoutRestart(ops) && p < |c.contexts.order| && c.contexts.order[p] in c.contexts.sigs
    requires c.contexts.sigs[c.contexts.order[p]] != "" && Name(c.contexts.order[p]) !in RunFrom(c, ops).ambiguous
    requires |c.contexts.order| + NewContexts(c, ops) <= c.maxSize + p
    ensures var k, c', gone := c.contexts.order[p], RunFrom(c, ops), Pushed(|c.contexts.order|, c.maxSize, NewContexts(c, ops));
            && Inv(c') && c'.maxSize == c.maxSize && |c'.contexts.order| == |c.contexts.order| + NewContexts(c, ops) - gone
            && c'.contexts.order[p - gone] == k && k in c'.contexts.sigs && c'.contexts.sigs[k] == c.contexts.sigs[k]
  {
    hide TableInv, ToolOrderInv, AliasInv, RecordInv, Apply, BringsContext;
    Bounded(c.contexts, c.maxSize);
    if ops != [] {
      var n := |ops| - 1;
      assert !ops[n].Restart?;
      assert RunFrom(c, ops[..n]).ambiguous <= RunFrom(c, ops).ambiguous by { RestOfRun(c, ops); }
      ContextLives(c, ops[..n], p);
      Bounded(RunFrom(c, ops[..n]).contexts, c.maxSize);
      ContextStays(RunFrom(c, ops[..n]), ops[n], p - Pushed(|c.contexts.order|, c.maxSize, NewContexts(c, ops[..n])));
    }
  }

  lemma {:induction false} RunsOn(c: Cache, ops: seq<Op>)
    requires Inv(c) && WithoutRestart(ops)
    ensures Inv(RunFrom(c, ops))
  {
    hide Inv, Apply;
    if ops != [] {
      assert !ops[|ops| - 1].Restart?;
      RunsOn(c, ops[..|ops| - 1]);
      ApplyKeeps(RunFrom(c, ops[..|ops| - 1]), ops[|ops| - 1]);
    }
  }

  lemma RestOfRun(c: Cache, ops: seq<Op>)
    requires Inv(c) && WithoutRestart(ops) && ops != []
    ensures RunFrom(c, ops[..|ops| - 1]).ambiguous <= RunFrom(c, ops).ambiguous
  {
    hide Inv, Apply;
    assert !ops[|ops| - 1].Restart?;
    RunsOn(c, ops[..|ops| - 1]);
    ContextsAfter(RunFrom(c, ops[..|ops| - 1]), ops[|ops| - 1]);
  }

  /** A context signature is found while fewer than `maxSize` other contexts arrive, unless its key became ambiguous. */
  lemma ContextIsFound(c: Cache, key: string, sig: string, ops: seq<Op>)
    requires Inv(c) && WithoutRestart(ops) && BringsContext(c, PutContextOp(key, sig))
    requires NewContexts(PutContext(c, key, sig), ops) < c.maxSize
    ensures var c' := RunFrom(PutContext(c, key, sig), ops);
            GetContext(c', key) == if Name(TrimSpace(key)) in c'.ambiguous then "" else sig
  {
    hide TableInv, PutBounded, AliasInv, RecordInv, ToolOrderInv, TrimSpace, NewContexts, RunFrom;
    var c' := PutContext(c, key, sig);
    assert Apply(c, PutContextOp(key, sig)) == c';
    ApplyKeeps(c, PutContextOp(key, sig));
    PutIs(c.contexts, c.maxSize, TrimSpace(key), sig, TrimSpace(key));
    if Name(TrimSpace(key)) !in RunFrom(c', ops).ambiguous {
      ContextLives(c', ops, |c'.contexts.order| - 1);
    }
  }

  // ----- a record's content

  /** Updates of the record say its whole content. */
  predicate FullUpdates(ops: seq<Op>, k: Id) {
    forall i :: 0 <= i < |ops| && ops[i].PutToolOp? && ops[i].rec.bridgeId == k ==> ops[i].rec.name != "" && ops[i].rec.args != NilArgs && !ops[i].rec.legacy
  }

  lemma ContentStep(c: Cache, op: Op, k: Id)
    requires Inv(c) && Legal(c, op) && k in c.records && k in Apply(c, op).records && FullUpdates([op], k)
    requires c.records[k].name != "" && !NoArgs(c.records[k].args) && !c.records[k].legacy
    ensures var r, r' := c.records[k], Apply(c, op).records[k]; r'.name == r.name && r'.args == r.args && !r'.legacy
  {
    hide Inv, PutTool, Load, Evicted, TrimSpace, PutBounded;
    assert op == [op][0];
    match op
    case PutToolOp(rec, aliases) =>
      PutToolKeeps(c, rec, aliases);
      if Refused(c, rec) {
        assert PutTool(c, rec, aliases) == c by { RefusedPut(c, rec, aliases); }
      }
    case Restart(o) => RestartIs(c, o);
    case _ =>
  }

  /** While a record lives, no update that says its whole content can change it, restarts included. */
  lemma {:induction false} ContentIsFixed(c: Cache, ops: seq<Op>, k: Id)
    requires Inv(c) && LegalRun(c, ops) && LiveThroughout(c, ops, k) && k in c.records && FullUpdates(ops, k)
    requires c.records[k].name != "" && !NoArgs(c.records[k].args) && !c.records[k].legacy
    ensures var c' := RunFrom(c, ops);
            Inv(c') && k in c'.records && c'.records[k].name == c.records[k].name && c'.records[k].args == c.records[k].args && !c'.records[k].legacy
  {
    hide Inv, Apply, Legal;
    if ops != [] {
      var n := |ops| - 1;
      ContentIsFixed(c, ops[..n], k);
      LiveBefore(c, ops, k);
      ApplyKeeps(RunFrom(c, ops[..n]), ops[n]);
      assert FullUpdates([ops[n]], k);
      ContentStep(RunFrom(c, ops[..n]), ops[n], k);
    }
  }

  // ----- what a saved file loads as

  /** The keys of version 2 whose record is kept: those that hold no replay marker. */
  function KeptRecords(s: Snapshot): set<Id> {
    set k | k in s.records && s.records[k].sig != MIGRATION_MARKER
  }

  /** The ids whose record held the marker, under their key and under their own name. */
  function Marked(s: Snapshot): set<Id> {
    (set k | k in s.records && s.records[k].sig == MIGRATION_MARKER)
    + (set k | k in s.records && s.records[k].sig == MIGRATION_MARKER :: s.records[k].bridgeId)
  }

  /** The ids of an older file that are kept: named in any of its three tables, and not signed with the marker. */
  function KeptLegacy(s: Snapshot): set<Id> {
    set k | k in s.toolSigs.Keys + s.toolNames.Keys + s.toolArgs.Keys && !(k in s.toolSigs && s.toolSigs[k] == MIGRATION_MARKER)
  }

  function MarkedLegacy(s: Snapshot): set<Id> {
    set k | k in s.toolSigs && s.toolSigs[k] == MIGRATION_MARKER
  }

  predicate IsCurrent(s: Snapshot) {
    s.version >= 2 && s.records != map[]
  }

  function Value<K, V>(m: map<K, V>, k: K, otherwise: V): V {
    if k in m then m[k] else otherwise
  }

  /** Every saved alias names an id that stands for itself. */
  predicate DirectAliases(s: Snapshot) {
    forall a :: a in s.aliases ==> s.aliases[a] in s.aliases ==> s.aliases[s.aliases[a]] == s.aliases[a]
  }

  ghost predicate HasLegacy(r: ToolRecord, s: Snapshot, k: Id) {
    && r.bridgeId == k && r.itemId == NO_ID && r.upstreamId == NO_ID && r.model == "" && r.turnId == NO_ID && r.legacy
    && r.name == Value(s.toolNames, k, "") && r.args == Value(s.toolArgs, k, NilArgs) && r.sig == Value(s.toolSigs, k, "")
  }

  /** A load in progress: of the keys visited the kept ones are stored in the order visited, the others noted. */
  ghost predicate LegacyLoaded(l: Loading, s: Snapshot, visited: set<Id>) {
    && l.cache.records.Keys == visited * KeptLegacy(s) && l.migrated == visited * MarkedLegacy(s)
    && (forall k :: k in l.cache.records ==> HasLegacy(l.cache.records[k], s, k))
    && l.cache.aliases.Keys == l.cache.records.Keys && (forall k :: k in l.cache.aliases ==> l.cache.aliases[k] == k)
    && NoDup(l.cache.toolOrder) && Elems(l.cache.toolOrder) == l.cache.records.Keys
  }

  ghost predicate RecordsLoaded(l: Loading, s: Snapshot, visited: set<Id>) {
    && visited <= s.records.Keys && l.cache.records.Keys == visited * KeptRecords(s)
    && (forall k :: k in l.cache.records ==> l.cache.records[k] == s.records[k])
    && NoDup(l.cache.toolOrder) && Elems(l.cache.toolOrder) == l.cache.records.Keys
    && l.cache.aliases == map[]
    && (forall k :: k in visited && s.records[k].sig == MIGRATION_MARKER ==> k in l.migrated && s.records[k].bridgeId in l.migrated)
    && l.migrated <= Marked(s)
  }

  lemma LegacyStep(l: Loading, s: Snapshot, visited: set<Id>, k: Id)
    requires LegacyLoaded(l, s, visited) && k in LegacyKeys(s) && k !in visited
    ensures LegacyLoaded(LoadLegacy(l, s, k), s, visited + {k})
  {
    hide NoDup, Elems, HasLegacy, LegacyRecord;
    ElemsSnoc(l.cache.toolOrder, k);
    LegacyIs(s, k);
  }

  lemma LegacyIs(s: Snapshot, k: Id)
    ensures HasLegacy(LegacyRecord(s, k), s, k) && LegacyRecord(s, k).sig == Value(s.toolSigs, k, "")
    ensures k in LegacyKeys(s) <==> k in s.toolSigs.Keys + s.toolNames.Keys + s.toolArgs.Keys
  {
  }

  lemma {:induction false} LegaciesLoaded(c: Cache, s: Snapshot, order: seq<Id>)
    requires c.records == map[] && c.aliases == map[] && c.toolOrder == [] && NoDup(order) && Elems(order) <= LegacyKeys(s)
    ensures LegacyLoaded(LoadLegacies(Loading(c, {}), s, order), s, Elems(order))
  {
    hide LegacyLoaded, LoadLegacy, NoDup, Elems;
    if order == [] {
      ElemsEmpty<Id>();
      NothingLegacy(c, s);
    } else {
      var n := |order| - 1;
      assert order == order[..n] + [order[n]];
      ElemsSnoc(order[..n], order[n]);
      LegaciesLoaded(c, s, order[..n]);
      LegacyStep(LoadLegacies(Loading(c, {}), s, order[..n]), s, Elems(order[..n]), order[n]);
    }
  }

  lemma NothingLegacy(c: Cache, s: Snapshot)
    requires c.records == map[] && c.aliases == map[] && c.toolOrder == []
    ensures LegacyLoaded(Loading(c, {}), s, {})
  {
    ElemsEmpty<Id>();
  }

  lemma RecordStep(l: Loading, s: Snapshot, visited: set<Id>, k: Id)
    requires RecordsLoaded(l, s, visited) && k in s.records && k !in visited
    ensures RecordsLoaded(LoadRecord(l, s, k), s, visited + {k})
  {
    hide NoDup, Elems;
    ElemsSnoc(l.cache.toolOrder, k);
  }

  lemma {:induction false} AllRecordsLoaded(c: Cache, s: Snapshot, order: seq<Id>)
    requires c.records == map[] && c.aliases == map[] && c.toolOrder == [] && NoDup(order) && Elems(order) <= s.records.Keys
    ensures RecordsLoaded(LoadRecords(Loading(c, {}), s, order), s, Elems(order))
  {
    hide RecordsLoaded, LoadRecord, NoDup, Elems;
    if order == [] {
      ElemsEmpty<Id>();
      NothingLoaded(c, s);
    } else {
      var n := |order| - 1;
      assert order == order[..n] + [order[n]];
      ElemsSnoc(order[..n], order[n]);
      AllRecordsLoaded(c, s, order[..n]);
      RecordStep(LoadRecords(Loading(c, {}), s, order[..n]), s, Elems(order[..n]), order[n]);
    }
  }

  lemma NothingLoaded(c: Cache, s: Snapshot)
    requires c.records == map[] && c.aliases == map[] && c.toolOrder == []
    ensures RecordsLoaded(Loading(c, {}), s, {})
  {
    ElemsEmpty<Id>();
  }

  /** Of the aliases visited those that name a marked record are dropped and noted, all others kept. */
  ghost predicate AliasesLoaded(l: Loading, l0: Loading, s: Snapshot, visited: set<Id>) {
    && visited <= s.aliases.Keys && l.cache == l0.cache.(aliases := l.cache.aliases)
    && (forall a :: a in l.cache.aliases <==> a in visited && s.aliases[a] !in Marked(s))
    && (forall a :: a in l.cache.aliases ==> l.cache.aliases[a] == s.aliases[a])
    && (forall a :: a in l.migrated <==> a in Marked(s) || (a in visited && s.aliases[a] in Marked(s)))
  }

  lemma AliasStep(l: Loading, l0: Loading, s: Snapshot, visited: set<Id>, a: Id)
    requires AliasesLoaded(l, l0, s, visited) && a in s.aliases && DirectAliases(s)
    ensures AliasesLoaded(LoadAlias(l, s, a), l0, s, visited + {a})
  {
    hide Marked;
    assert s.aliases[a] in l.migrated <==> s.aliases[a] in Marked(s);
  }

  lemma {:induction false} AllAliasesLoaded(l0: Loading, s: Snapshot, order: seq<Id>)
    requires l0.cache.aliases == map[] && l0.migrated == Marked(s) && Elems(order) <= s.aliases.Keys && DirectAliases(s)
    ensures AliasesLoaded(LoadAliases(l0, s, order), l0, s, Elems(order))
  {
    hide LoadAlias, Elems, Marked;
    if order == [] {
      ElemsEmpty<Id>();
    } else {
      var n := |order| - 1;
      assert order == order[..n] + [order[n]];
      ElemsSnoc(order[..n], order[n]);
      AllAliasesLoaded(l0, s, order[..n]);
      AliasStep(LoadAliases(l0, s, order[..n]), l0, s, Elems(order[..n]), order[n]);
    }
  }

  /** The saved siblings of every id that is not dropped, less those that are. */
  ghost predicate SiblingsLoaded(c: Cache, s: Snapshot, dropped: set<Id>) {
    && (forall lead :: lead in c.siblings <==> lead in s.siblings && lead !in dropped)
    && (forall lead, sib :: lead in c.siblings ==> (sib in c.siblings[lead] <==> sib in s.siblings[lead] && sib !in dropped))
  }

  lemma SiblingsCome(max: Capacity, c: Cache, s: Snapshot, dropped: set<Id>)
    requires c.siblings == LoadSiblings(Fresh(max), s, dropped)
    ensures SiblingsLoaded(c, s, dropped)
  {
  }

  /**
   * An older file loads as exactly its unmarked ids, each a legacy record of that id alone with the
   * signature, name and arguments its three tables give, standing for itself and nothing else. The
   * siblings saved of them stay, and no marked id is among them.
   */
  lemma LegacyLoadIs(max: Capacity, s: Snapshot, o: Orders)
    requires !IsCurrent(s) && Visits(o.tools, LegacyKeys(s))
    ensures var c := Load(Fresh(max), s, o);
            && c.records.Keys == KeptLegacy(s) && (forall k :: k in c.records ==> HasLegacy(c.records[k], s, k))
            && c.aliases == (map k | k in KeptLegacy(s) :: k) && Visits(c.toolOrder, KeptLegacy(s))
            && SiblingsLoaded(c, s, MarkedLegacy(s))
  {
    hide LegacyLoaded, KeptLegacy, MarkedLegacy, NoDup, Elems, LoadLegacies, HasLegacy, LoadSiblings, LoadTable, SiblingsLoaded;
    LegaciesLoaded(Fresh(max), s, o.tools);
    LegaciesAll(LoadLegacies(Loading(Fresh(max), {}), s, o.tools), s);
    SameSiblings(max, s, o);
    SiblingsCome(max, Load(Fresh(max), s, o), s, MarkedLegacy(s));
  }

  lemma SameSiblings(max: Capacity, s: Snapshot, o: Orders)
    ensures Load(Fresh(max), s, o).siblings == LoadSiblings(Fresh(max), s, LoadTools(Fresh(max), s, o).migrated)
  {
    hide LoadTools, LoadSiblings, LoadTable;
  }

  lemma LegaciesAll(l: Loading, s: Snapshot)
    requires LegacyLoaded(l, s, LegacyKeys(s))
    ensures l.cache.records.Keys == KeptLegacy(s) && (forall k :: k in l.cache.records ==> HasLegacy(l.cache.records[k], s, k))
    ensures l.cache.aliases == (map k | k in KeptLegacy(s) :: k) && Visits(l.cache.toolOrder, KeptLegacy(s))
    ensures l.migrated == MarkedLegacy(s)
  {
    assert LegacyKeys(s) * KeptLegacy(s) == KeptLegacy(s);
    assert LegacyKeys(s) * MarkedLegacy(s) == MarkedLegacy(s);
  }

  /** A current file loads as exactly its unmarked records as saved, and, where its aliases are direct, all of them but those of marked records. */
  lemma CurrentLoadIs(max: Capacity, s: Snapshot, o: Orders)
    requires IsCurrent(s) && Visits(o.tools, s.records.Keys) && Visits(o.aliases, s.aliases.Keys) && DirectAliases(s)
    ensures var c := Load(Fresh(max), s, o);
            && c.records == (map k | k in KeptRecords(s) :: s.records[k]) && Visits(c.toolOrder, KeptRecords(s))
            && c.aliases == (map a | a in s.aliases && s.aliases[a] !in Marked(s) :: s.aliases[a])
            && SiblingsLoaded(c, s, Marked(s) + set a | a in s.aliases && s.aliases[a] in Marked(s))
  {
    hide RecordsLoaded, AliasesLoaded, KeptRecords, Marked, NoDup, Elems, LoadRecords, LoadAliases, LoadSiblings, LoadTable, DirectAliases, SiblingsLoaded;
    AllRecordsLoaded(Fresh(max), s, o.tools);
    var l := LoadRecords(Loading(Fresh(max), {}), s, o.tools);
    RecordsAll(l, s);
    AllAliasesLoaded(l, s, o.aliases);
    AliasesAll(LoadAliases(l, s, o.aliases), l, s);
    SameSiblings(max, s, o);
    SiblingsCome(max, Load(Fresh(max), s, o), s, Marked(s) + set a | a in s.aliases && s.aliases[a] in Marked(s));
  }

  lemma RecordsAll(l: Loading, s: Snapshot)
    requires RecordsLoaded(l, s, s.records.Keys)
    ensures l.cache.records == (map k | k in KeptRecords(s) :: s.records[k]) && Visits(l.cache.toolOrder, KeptRecords(s))
    ensures l.cache.aliases == map[] && l.migrated == Marked(s)
  {
    assert s.records.Keys * KeptRecords(s) == KeptRecords(s);
  }

  lemma AliasesAll(l: Loading, l0: Loading, s: Snapshot)
    requires AliasesLoaded(l, l0, s, s.aliases.Keys)
    ensures l.cache == l0.cache.(aliases := map a | a in s.aliases && s.aliases[a] !in Marked(s) :: s.aliases[a])
    ensures l.migrated == Marked(s) + set a | a in s.aliases && s.aliases[a] in Marked(s)
  {
    hide Marked;
  }
}
