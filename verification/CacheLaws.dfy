/** Invariants of the signature cache over every run of its operations, restarts included. */
module CacheLaws {
  import opened Core
  import opened Caches

  datatype Op =
    | PutToolOp(rec: ToolRecord, aliases: seq<Id>)
    | PutMessageOp(id: Id, sig: string)
    | PutTextOp(text: string, sig: string)
    | PutContextOp(key: string, sig: string)
    | SiblingsOp(lead: Id, siblings: seq<Id>)
    | Restart(orders: Orders)            // save, then load into a fresh cache

  function Apply(c: Cache, op: Op): Cache {
    match op
    case PutToolOp(rec, aliases) => PutTool(c, rec, aliases)
    case PutMessageOp(id, sig) => PutMessage(c, id, sig)
    case PutTextOp(text, sig) => PutText(c, text, sig)
    case PutContextOp(key, sig) => PutContext(c, key, sig)
    case SiblingsOp(lead, sibs) => RecordSiblings(c, lead, sibs)
    case Restart(o) => Load(Fresh(c.maxSize), Save(c), o)
  }

  /** A restart visits the saved maps completely, in any order; all other operations are always possible. */
  ghost predicate Legal(c: Cache, op: Op) {
    op.Restart? ==>
      && Visits(op.orders.tools, c.records.Keys) && Visits(op.orders.aliases, c.aliases.Keys)
      && Visits(op.orders.texts, c.texts.sigs.Keys) && Visits(op.orders.messages, c.messages.sigs.Keys)
      && Visits(op.orders.contexts, c.contexts.sigs.Keys)
  }

  function RunFrom(c: Cache, ops: seq<Op>): Cache {
    if ops == [] then c else Apply(RunFrom(c, ops[..|ops| - 1]), ops[|ops| - 1])
  }

  ghost predicate LegalRun(c: Cache, ops: seq<Op>) {
    ops == [] || (LegalRun(c, ops[..|ops| - 1]) && Legal(RunFrom(c, ops[..|ops| - 1]), ops[|ops| - 1]))
  }

  // ----- the invariant

  ghost predicate TableInv<K(!new)>(t: Table<K>, max: Capacity) {
    NoDup(t.order) && Elems(t.order) == t.sigs.Keys && |t.order| <= max
  }

  ghost predicate ToolOrderInv(c: Cache) {
    NoDup(c.toolOrder) && Elems(c.toolOrder) == c.records.Keys && |c.toolOrder| <= c.maxSize
  }

  /** Aliases name live records, and every record is its own alias. */
  ghost predicate AliasInv(c: Cache) {
    && (forall a :: a in c.aliases ==> a != NO_ID && c.aliases[a] in c.records)
    && (forall k :: k in c.records ==> k in c.aliases && c.aliases[k] == k)
  }

  ghost predicate RecordInv(c: Cache) {
    forall k :: k in c.records ==> k != NO_ID && c.records[k].bridgeId == k && c.records[k].sig != MIGRATION_MARKER
  }

  ghost predicate Inv(c: Cache) {
    && ToolOrderInv(c) && AliasInv(c) && RecordInv(c)
    && TableInv(c.texts, c.maxSize) && TableInv(c.messages, c.maxSize) && TableInv(c.contexts, c.maxSize)
  }

  // ----- orders as sets

  lemma ElemsSnoc<K>(s: seq<K>, k: K)
    ensures Elems(s + [k]) == Elems(s) + {k}
    ensures NoDup(s + [k]) <==> NoDup(s) && k !in Elems(s)
  {
    var t := s + [k];
    assert t[|s|] == k && forall i :: 0 <= i < |s| ==> t[i] == s[i];
    if NoDup(t) {
      assert NoDup(s);
    }
  }

  lemma ElemsTail<K>(s: seq<K>)
    requires s != [] && NoDup(s)
    ensures Elems(s[1..]) == Elems(s) - {s[0]} && NoDup(s[1..]) && s[0] in Elems(s)
  {
    var t := s[1..];
    assert forall i :: 0 <= i < |t| ==> t[i] == s[i + 1];
    forall x | x in Elems(s) && x != s[0]
      ensures x in Elems(t)
    {
      var i :| 0 <= i < |s| && s[i] == x;
      assert t[i - 1] == x;
    }
  }

  lemma {:induction false} ElemsSize<K>(s: seq<K>)
    requires NoDup(s)
    ensures |Elems(s)| == |s|
  {
    if s != [] {
      var n := |s| - 1;
      assert s == s[..n] + [s[n]];
      ElemsSnoc(s[..n], s[n]);
      ElemsSize(s[..n]);
    } else {
      assert Elems(s) == {};
    }
  }

  lemma PutBoundedKeeps<K(!new)>(t: Table<K>, max: Capacity, k: K, sig: string)
    requires TableInv(t, max)
    ensures TableInv(PutBounded(t, max, k, sig), max)
  {
    if k !in t.sigs {
      if |t.order| >= max {
        ElemsTail(t.order);
        ElemsSnoc(t.order[1..], k);
      } else {
        ElemsSnoc(t.order, k);
      }
    }
  }

  // ----- puts keep the invariant

  /** Full caches lose exactly the oldest record. */
  function Evicted(c: Cache, id: Id): set<Id> {
    if id !in c.toolOrder && |c.toolOrder| >= c.maxSize then {c.toolOrder[0]} else {}
  }

  /** The FIFO discipline on ids alone. */
  function Queued(c: Cache, id: Id): seq<Id> {
    if id in c.toolOrder then c.toolOrder
    else (if |c.toolOrder| >= c.maxSize then c.toolOrder[1..] else c.toolOrder) + [id]
  }

  lemma QueuedInv(c: Cache, id: Id)
    requires ToolOrderInv(c)
    ensures var q := Queued(c, id);
            NoDup(q) && Elems(q) == c.records.Keys - Evicted(c, id) + {id} && |q| <= c.maxSize && id !in Evicted(c, id)
  {
    hide NoDup, Elems;
    Members(c.toolOrder);
    if id !in c.toolOrder {
      if |c.toolOrder| >= c.maxSize {
        ElemsTail(c.toolOrder);
        ElemsSnoc(c.toolOrder[1..], id);
      } else {
        ElemsSnoc(c.toolOrder, id);
      }
    }
  }

  lemma Members<K>(s: seq<K>)
    ensures forall k :: k in s <==> k in Elems(s)
  {
  }

  lemma AdmitIs(c: Cache, rec: ToolRecord)
    requires ToolOrderInv(c)
    ensures var c', id := Admit(c, rec), rec.bridgeId;
            && id !in Evicted(c, id)
            && c'.records == (c.records - Evicted(c, id))[id := rec]
            && c'.aliases == (map a | a in c.aliases && c.aliases[a] !in Evicted(c, id) :: c.aliases[a])[id := id]
            && c'.ambiguous == c.ambiguous && c'.siblings == c.siblings && c'.maxSize == c.maxSize
            && c'.texts == c.texts && c'.messages == c.messages && c'.contexts == c.contexts
            && ToolOrderInv(c')
  {
    hide NoDup, Elems, ToolOrderInv;
    QueuedInv(c, rec.bridgeId);
    AdmitOrder(c, rec);
    AdmitRecords(c, rec);
    AdmitAliases(c, rec);
  }

  lemma AdmitOrder(c: Cache, rec: ToolRecord)
    requires ToolOrderInv(c)
    ensures var c' := Admit(c, rec);
            && c'.toolOrder == Queued(c, rec.bridgeId)
            && c'.ambiguous == c.ambiguous && c'.siblings == c.siblings && c'.maxSize == c.maxSize
            && c'.texts == c.texts && c'.messages == c.messages && c'.contexts == c.contexts
            && ToolOrderInv(c')
  {
    hide NoDup, Elems;
    QueuedInv(c, rec.bridgeId);
    AdmitRecords(c, rec);
  }

  lemma AdmitRecords(c: Cache, rec: ToolRecord)
    requires rec.bridgeId !in Evicted(c, rec.bridgeId)
    ensures Admit(c, rec).records == (c.records - Evicted(c, rec.bridgeId))[rec.bridgeId := rec]
  {
    assert c.records - {} == c.records;
  }

  lemma AdmitAliases(c: Cache, rec: ToolRecord)
    ensures Admit(c, rec).aliases ==
            (map a | a in c.aliases && c.aliases[a] !in Evicted(c, rec.bridgeId) :: c.aliases[a])[rec.bridgeId := rec.bridgeId]
  {
    var kept := map a | a in c.aliases && c.aliases[a] !in Evicted(c, rec.bridgeId) :: c.aliases[a];
    if Evicted(c, rec.bridgeId) == {} {
      assert kept == c.aliases;
    } else {
      assert kept == WithoutTarget(c.aliases, c.toolOrder[0]);
    }
  }

  lemma AdmitKeeps(c: Cache, rec: ToolRecord)
    requires Inv(c) && rec.bridgeId != NO_ID && rec.sig != MIGRATION_MARKER
    requires rec.bridgeId in c.aliases ==> c.aliases[rec.bridgeId] == rec.bridgeId
    ensures Inv(Admit(c, rec)) && rec.bridgeId in Admit(c, rec).records
  {
    hide Admit, TableInv, ToolOrderInv, Evicted;
    AdmitIs(c, rec);
  }

  lemma BindKeeps(c: Cache, id: Id, a: Id)
    requires Inv(c) && id in c.records
    ensures Inv(BindAlias(c, id, a)) && BindAlias(c, id, a).records == c.records
  {
    hide TableInv, ToolOrderInv, RecordInv, AliasInv;
    BindAliasInv(c, id, a);
    BindFields(c, id, a);
  }

  lemma BindAliasInv(c: Cache, id: Id, a: Id)
    requires AliasInv(c) && id in c.records
    ensures AliasInv(BindAlias(c, id, a))
  {
  }

  lemma BindFields(c: Cache, id: Id, a: Id)
    ensures BindAlias(c, id, a) == c.(aliases := BindAlias(c, id, a).aliases, ambiguous := BindAlias(c, id, a).ambiguous)
    ensures c.ambiguous <= BindAlias(c, id, a).ambiguous
    ensures ToolOrderInv(BindAlias(c, id, a)) <==> ToolOrderInv(c)
    ensures RecordInv(BindAlias(c, id, a)) <==> RecordInv(c)
  {
    hide NoDup, Elems;
  }

  lemma {:induction false} BindAllKeeps(c: Cache, id: Id, aliases: seq<Id>)
    requires Inv(c) && id in c.records
    ensures Inv(BindAliases(c, id, aliases)) && BindAliases(c, id, aliases).records == c.records
  {
    hide Inv, BindAlias;
    if aliases != [] {
      BindAllKeeps(c, id, aliases[..|aliases| - 1]);
      BindKeeps(BindAliases(c, id, aliases[..|aliases| - 1]), id, aliases[|aliases| - 1]);
    }
  }

  lemma KeptSig(c: Cache, rec: ToolRecord)
    requires Inv(c) && !Refused(c, rec)
    ensures KeepSig(c, rec).bridgeId == rec.bridgeId && KeepSig(c, rec).sig != MIGRATION_MARKER
    ensures rec.bridgeId in c.records && c.records[rec.bridgeId].sig != "" ==> KeepSig(c, rec).sig != ""
    ensures rec.bridgeId != NO_ID && (rec.bridgeId in c.aliases ==> c.aliases[rec.bridgeId] == rec.bridgeId)
  {
    hide ToolOrderInv, AliasInv, TableInv;
  }

  lemma PutToolKeeps(c: Cache, rec: ToolRecord, aliases: seq<Id>)
    requires Inv(c)
    ensures Inv(PutTool(c, rec, aliases))
    ensures !Refused(c, rec) ==>
              PutTool(c, rec, aliases).records == (c.records - Evicted(c, rec.bridgeId))[rec.bridgeId := KeepSig(c, rec)]
  {
    hide ToolOrderInv, AliasInv, RecordInv, TableInv, Refused, KeepSig, Admit, BindAliases, Evicted;
    if !Refused(c, rec) {
      KeptSig(c, rec);
      AdmitKeeps(c, KeepSig(c, rec));
      AdmitIs(c, KeepSig(c, rec));
      BindAllKeeps(Admit(c, KeepSig(c, rec)), rec.bridgeId, aliases);
    }
  }

  lemma PutContextKeeps(c: Cache, key: string, sig: string)
    requires Inv(c)
    ensures Inv(PutContext(c, key, sig))
  {
    hide TrimSpace, PutBounded;
    PutBoundedKeeps(c.contexts, c.maxSize, TrimSpace(key), sig);
  }

  // ----- a restart gives back the same cache, up to eviction order

  /** The entries of `m` at `keys`. */
  ghost predicate Restored<K(!new), V>(r: map<K, V>, m: map<K, V>, keys: set<K>) {
    r.Keys == keys && forall k :: k in r ==> k in m && r[k] == m[k]
  }

  lemma RestoredAll<K(!new), V>(r: map<K, V>, m: map<K, V>)
    requires Restored(r, m, m.Keys)
    ensures r == m
  {
  }

  lemma ElemsEmpty<K>()
    ensures var none: seq<K> := []; Elems(none) == {}
  {
  }

  lemma RestoredNone<K(!new), V>(m: map<K, V>)
    ensures var r: map<K, V> := map[]; Restored(r, m, {})
  {
  }

  lemma LoadRecordStep(l0: Loading, l: Loading, s: Snapshot, before: seq<Id>, k: Id)
    requires k in s.records && s.records[k].sig != MIGRATION_MARKER
    requires l == l0.(cache := l0.cache.(records := l.cache.records, toolOrder := before))
    requires Restored(l.cache.records, s.records, Elems(before))
    ensures var l' := LoadRecord(l, s, k);
            && Restored(l'.cache.records, s.records, Elems(before) + {k})
            && l' == l0.(cache := l0.cache.(records := l'.cache.records, toolOrder := before + [k]))
  {
    hide Elems;
  }

  lemma LoadAliasStep(l0: Loading, l: Loading, s: Snapshot, before: seq<Id>, k: Id)
    requires k in s.aliases && l0.migrated == {}
    requires l == l0.(cache := l0.cache.(aliases := l.cache.aliases))
    requires Restored(l.cache.aliases, s.aliases, Elems(before))
    ensures var l' := LoadAlias(l, s, k);
            && Restored(l'.cache.aliases, s.aliases, Elems(before) + {k})
            && l' == l0.(cache := l0.cache.(aliases := l'.cache.aliases))
  {
    hide Elems;
  }

  lemma {:induction false} LoadRecordsAll(l: Loading, s: Snapshot, order: seq<Id>)
    requires forall i :: 0 <= i < |order| ==> order[i] in s.records && s.records[order[i]].sig != MIGRATION_MARKER
    requires l.cache.records == map[] && l.cache.toolOrder == []
    ensures var l' := LoadRecords(l, s, order);
            && Restored(l'.cache.records, s.records, Elems(order))
            && l' == l.(cache := l.cache.(records := l'.cache.records, toolOrder := order))
  {
    hide Elems, Restored, LoadRecord;
    if order == [] {
      ElemsEmpty<Id>();
      RestoredNone<Id, ToolRecord>(s.records);
    } else {
      var n := |order| - 1;
      LoadRecordsAll(l, s, order[..n]);
      ElemsSnoc(order[..n], order[n]);
      assert order == order[..n] + [order[n]];
      LoadRecordStep(l, LoadRecords(l, s, order[..n]), s, order[..n], order[n]);
    }
  }

  lemma {:induction false} LoadAliasesAll(l: Loading, s: Snapshot, order: seq<Id>)
    requires forall i :: 0 <= i < |order| ==> order[i] in s.aliases
    requires l.cache.aliases == map[] && l.migrated == {}
    ensures var l' := LoadAliases(l, s, order);
            && Restored(l'.cache.aliases, s.aliases, Elems(order))
            && l' == l.(cache := l.cache.(aliases := l'.cache.aliases))
  {
    hide Elems, Restored, LoadAlias;
    if order == [] {
      ElemsEmpty<Id>();
      RestoredNone<Id, Id>(s.aliases);
    } else {
      var n := |order| - 1;
      LoadAliasesAll(l, s, order[..n]);
      ElemsSnoc(order[..n], order[n]);
      assert order == order[..n] + [order[n]];
      LoadAliasStep(l, LoadAliases(l, s, order[..n]), s, order[..n], order[n]);
    }
  }

  lemma VisitsAll<K>(order: seq<K>, keys: set<K>)
    requires Visits(order, keys)
    ensures NoDup(order) && Elems(order) == keys && |order| == |keys|
    ensures forall i :: 0 <= i < |order| ==> order[i] in keys
  {
    ElemsSize(order);
    assert forall i :: 0 <= i < |order| ==> order[i] in Elems(order);
  }

  /** Loading a cache's own snapshot: records and aliases come back, also when there is none. */
  lemma RestartTools(c: Cache, o: Orders)
    requires Inv(c) && Visits(o.tools, c.records.Keys) && Visits(o.aliases, c.aliases.Keys)
    ensures LoadTools(Fresh(c.maxSize), Save(c), o) ==
            Loading(Fresh(c.maxSize).(records := Save(c).records, toolOrder := o.tools, aliases := c.aliases), {})
  {
    hide TableInv, ToolOrderInv, LoadRecords, LoadAliases, Restored, AliasInv, Visits;
    var s := Save(c);
    VisitsAll(o.tools, c.records.Keys);
    VisitsAll(o.aliases, c.aliases.Keys);
    var l := Loading(Fresh(c.maxSize), {});
    SavedRecords(c);
    if c.records == map[] {
      NothingSaved(c, o);
    } else {
      LoadRecordsAll(l, s, o.tools);
      LoadAliasesAll(LoadRecords(l, s, o.tools), s, o.aliases);
      RestoredAll(LoadRecords(l, s, o.tools).cache.records, s.records);
      RestoredAll(LoadAliases(LoadRecords(l, s, o.tools), s, o.aliases).cache.aliases, s.aliases);
    }
  }

  lemma SavedRecords(c: Cache)
    requires RecordInv(c)
    ensures Save(c).records.Keys == c.records.Keys && RecordInv(c.(records := Save(c).records))
    ensures Save(c).records == map[] <==> c.records == map[]
    ensures forall k :: k in c.records ==> Save(c).records[k].sig != MIGRATION_MARKER
  {
  }

  lemma NothingSaved(c: Cache, o: Orders)
    requires AliasInv(c) && c.records == map[] && |o.tools| == |c.records.Keys|
    ensures c.aliases == map[] && Save(c).records == map[] && o.tools == []
    ensures LoadTools(Fresh(c.maxSize), Save(c), o) == Loading(Fresh(c.maxSize), {})
  {
    assert c.aliases == map[] by {
      if a :| a in c.aliases {
        assert c.aliases[a] in c.records;
      }
    }
    assert Save(c).records == map[];
  }

  /** Everything but eviction order and empty argument objects survives a restart. */
  lemma RestartIs(c: Cache, o: Orders)
    requires Inv(c) && Legal(c, Restart(o))
    ensures var c' := Apply(c, Restart(o));
            && c' == Cache(c.maxSize, Save(c).records, o.tools, c.aliases, c.ambiguous, c.siblings,
                           Table(c.texts.sigs, o.texts), Table(c.messages.sigs, o.messages), Table(c.contexts.sigs, o.contexts))
            && Inv(c')
  {
    hide LoadTools, TableInv, ToolOrderInv, Save, LoadSiblings, Visits, AliasInv, RecordInv;
    RestartTools(c, o);
    LoadedSiblings(c);
    LoadedTable(c.texts.sigs, o.texts);
    LoadedTable(c.messages.sigs, o.messages);
    LoadedTable(c.contexts.sigs, o.contexts);
    RestartTable(c.texts, c.maxSize, o.texts);
    RestartTable(c.messages, c.maxSize, o.messages);
    RestartTable(c.contexts, c.maxSize, o.contexts);
    SavedFields(c);
    RestartedTools(c, o, Apply(c, Restart(o)));
  }

  lemma SavedFields(c: Cache)
    ensures var s := Save(c);
            && s.version == 2 && s.aliases == c.aliases && s.ambiguous == c.ambiguous && s.siblings == c.siblings
            && s.texts == c.texts.sigs && s.messages == c.messages.sigs && s.contexts == c.contexts.sigs
  {
  }

  lemma LoadedTable<K>(sigs: map<K, string>, order: seq<K>)
    ensures LoadTable(Table(map[], []), sigs, order) == Table(sigs, order)
  {
    assert map[] + sigs == sigs;
  }

  lemma RestartedTools(c: Cache, o: Orders, c': Cache)
    requires Inv(c) && Visits(o.tools, c.records.Keys)
    requires c'.records == Save(c).records && c'.toolOrder == o.tools && c'.aliases == c.aliases && c'.maxSize == c.maxSize
    ensures ToolOrderInv(c') && AliasInv(c') && RecordInv(c')
  {
    hide TableInv, NoDup, Elems;
    VisitsAll(o.tools, c.records.Keys);
    ElemsSize(c.toolOrder);
    SavedRecords(c);
  }

  lemma RestartTable<K(!new)>(t: Table<K>, max: Capacity, order: seq<K>)
    requires TableInv(t, max) && Visits(order, t.sigs.Keys)
    ensures TableInv(Table(t.sigs, order), max)
  {
    ElemsSize(t.order);
    ElemsSize(order);
  }

  lemma LoadedSiblings(c: Cache)
    ensures LoadSiblings(Fresh(c.maxSize), Save(c), {}) == c.siblings
  {
    var m := LoadSiblings(Fresh(c.maxSize), Save(c), {});
    assert m.Keys == c.siblings.Keys;
    assert forall k :: k in m ==> m[k] == c.siblings[k];
  }

  lemma ApplyKeeps(c: Cache, op: Op)
    requires Inv(c) && Legal(c, op)
    ensures Inv(Apply(c, op)) && Apply(c, op).maxSize == c.maxSize
  {
    hide Inv, PutTool, PutContext, Load, Legal;
    match op
    case PutToolOp(rec, aliases) =>
      PutToolKeeps(c, rec, aliases);
      PutToolSize(c, rec, aliases);
    case PutMessageOp(id, sig) => MessageKeeps(c, id, sig);
    case PutTextOp(text, sig) => TextKeeps(c, text, sig);
    case PutContextOp(key, sig) =>
      PutContextKeeps(c, key, sig);
      PutContextSize(c, key, sig);
    case SiblingsOp(lead, sibs) => SiblingsKeep(c, lead, sibs);
    case Restart(o) => RestartIs(c, o);
  }

  lemma MessageKeeps(c: Cache, id: Id, sig: string)
    requires Inv(c)
    ensures Inv(PutMessage(c, id, sig)) && PutMessage(c, id, sig).maxSize == c.maxSize
  {
    hide PutBounded, TableInv;
    PutBoundedKeeps(c.messages, c.maxSize, id, sig);
  }

  lemma TextKeeps(c: Cache, text: string, sig: string)
    requires Inv(c)
    ensures Inv(PutText(c, text, sig)) && PutText(c, text, sig).maxSize == c.maxSize
  {
    hide PutBounded, TableInv, TrimSpace;
    PutBoundedKeeps(c.texts, c.maxSize, TrimSpace(text), sig);
  }

  lemma SiblingsKeep(c: Cache, lead: Id, sibs: seq<Id>)
    requires Inv(c)
    ensures Inv(RecordSiblings(c, lead, sibs)) && RecordSiblings(c, lead, sibs).maxSize == c.maxSize
  {
    hide TableInv;
  }

  lemma PutContextSize(c: Cache, key: string, sig: string)
    ensures PutContext(c, key, sig).maxSize == c.maxSize
  {
    hide PutBounded, TrimSpace;
  }

  lemma {:induction false} BindAllSize(c: Cache, id: Id, aliases: seq<Id>)
    ensures BindAliases(c, id, aliases) == c.(aliases := BindAliases(c, id, aliases).aliases, ambiguous := BindAliases(c, id, aliases).ambiguous)
    ensures c.ambiguous <= BindAliases(c, id, aliases).ambiguous
  {
    if aliases != [] {
      BindAllSize(c, id, aliases[..|aliases| - 1]);
    }
  }

  lemma PutToolSize(c: Cache, rec: ToolRecord, aliases: seq<Id>)
    ensures PutTool(c, rec, aliases).maxSize == c.maxSize
  {
    hide BindAliases, Refused, KeepSig;
    BindAllSize(Admit(c, KeepSig(c, rec)), rec.bridgeId, aliases);
  }

  /**
   * Over every run from an empty cache, restarts included: the tool order lists the records
   * without repetition and within the capacity, aliases name live records, every record is its
   * own alias, and no record holds the migration marker.
   */
  lemma {:induction false} RunKeeps(max: Capacity, ops: seq<Op>)
    requires LegalRun(Fresh(max), ops)
    ensures Inv(RunFrom(Fresh(max), ops)) && RunFrom(Fresh(max), ops).maxSize == max
  {
    hide Inv, Apply;
    if ops == [] {
      FreshInv(max);
    } else {
      RunKeeps(max, ops[..|ops| - 1]);
      ApplyKeeps(RunFrom(Fresh(max), ops[..|ops| - 1]), ops[|ops| - 1]);
    }
  }

  lemma FreshInv(max: Capacity)
    ensures Inv(Fresh(max))
  {
    assert forall s: seq<Id> :: s == [] ==> Elems(s) == {};
    assert forall s: seq<string> :: s == [] ==> Elems(s) == {};
  }

  // ----- signatures stay

  /** A live record that is signed stays signed. */
  lemma SignedStaysSigned(c: Cache, op: Op, k: Id)
    requires Inv(c) && Legal(c, op) && k in c.records && c.records[k].sig != "" && k in Apply(c, op).records
    ensures Apply(c, op).records[k].sig != ""
  {
    hide Inv, Refused, KeepSig, PutTool, Load, Evicted, TrimSpace, PutBounded;
    match op
    case PutToolOp(rec, aliases) =>
      PutToolKeeps(c, rec, aliases);
      if Refused(c, rec) {
        assert PutTool(c, rec, aliases) == c by { RefusedPut(c, rec, aliases); }
      } else {
        KeptSig(c, rec);
      }
    case Restart(o) => RestartIs(c, o);
    case _ =>
  }

  lemma RefusedPut(c: Cache, rec: ToolRecord, aliases: seq<Id>)
    requires Refused(c, rec)
    ensures PutTool(c, rec, aliases) == c
  {
  }

  // ----- aliases are never silently rebound

  /** `x` names record `b`, is ambiguous, or is `b` itself. */
  predicate Tied(c: Cache, x: Id, b: Id) {
    x == b || x in c.ambiguous || (x !in c.records && x in c.aliases && c.aliases[x] == b)
  }

  lemma TiedResolves(c: Cache, x: Id, b: Id)
    requires Inv(c) && b in c.records && Tied(c, x, b)
    ensures Resolve(c, x) in {None, Some(b), Some(x)}
  {
  }

  lemma ResolvedIsTied(c: Cache, x: Id, b: Id)
    requires Resolve(c, x) == Some(b)
    ensures Tied(c, x, b)
  {
  }

  lemma BindTied(c: Cache, id: Id, a: Id, x: Id, b: Id)
    requires Inv(c) && id in c.records && b in c.records && Tied(c, x, b)
    ensures Tied(BindAlias(c, id, a), x, b)
  {
    hide TableInv, ToolOrderInv;
  }

  lemma {:induction false} BindAllTied(c: Cache, id: Id, aliases: seq<Id>, x: Id, b: Id)
    requires Inv(c) && id in c.records && b in c.records && Tied(c, x, b)
    ensures Tied(BindAliases(c, id, aliases), x, b)
  {
    hide Inv, Tied, BindAlias;
    if aliases != [] {
      BindAllTied(c, id, aliases[..|aliases| - 1], x, b);
      BindAllKeeps(c, id, aliases[..|aliases| - 1]);
      BindTied(BindAliases(c, id, aliases[..|aliases| - 1]), id, aliases[|aliases| - 1], x, b);
    }
  }

  lemma AdmitTied(c: Cache, rec: ToolRecord, x: Id, b: Id)
    requires Inv(c) && !Refused(c, rec) && Tied(c, x, b) && b in Admit(c, KeepSig(c, rec)).records && b in c.records
    ensures Tied(Admit(c, KeepSig(c, rec)), x, b)
  {
    hide Admit, TableInv, ToolOrderInv, Conflicts;
    KeptSig(c, rec);
    AdmitIs(c, KeepSig(c, rec));
  }

  lemma ApplyTied(c: Cache, op: Op, x: Id, b: Id)
    requires Inv(c) && Legal(c, op) && b in c.records && Tied(c, x, b) && b in Apply(c, op).records
    ensures Tied(Apply(c, op), x, b)
  {
    hide Inv, Refused, Admit, Load, KeepSig, PutBounded, TrimSpace;
    match op
    case PutToolOp(rec, aliases) =>
      if !Refused(c, rec) {
        KeptSig(c, rec);
        AdmitKeeps(c, KeepSig(c, rec));
        BindAllKeeps(Admit(c, KeepSig(c, rec)), rec.bridgeId, aliases);
        AdmitTied(c, rec, x, b);
        BindAllTied(Admit(c, KeepSig(c, rec)), rec.bridgeId, aliases, x, b);
      }
    case Restart(o) => RestartIs(c, o);
    case _ =>
  }

  /** Record `b` is live after every prefix of the run. */
  predicate LiveThroughout(c: Cache, ops: seq<Op>, b: Id) {
    b in RunFrom(c, ops).records && (ops == [] || LiveThroughout(c, ops[..|ops| - 1], b))
  }

  lemma {:induction false} RunTied(c: Cache, ops: seq<Op>, x: Id, b: Id)
    requires Inv(c) && LegalRun(c, ops) && Tied(c, x, b) && LiveThroughout(c, ops, b)
    ensures Inv(RunFrom(c, ops)) && Tied(RunFrom(c, ops), x, b)
  {
    hide Inv, Tied, Apply;
    if ops != [] {
      var before := RunFrom(c, ops[..|ops| - 1]);
      RunTied(c, ops[..|ops| - 1], x, b);
      ApplyKeeps(before, ops[|ops| - 1]);
      LiveBefore(c, ops, b);
      ApplyTied(before, ops[|ops| - 1], x, b);
    }
  }

  lemma LiveBefore(c: Cache, ops: seq<Op>, b: Id)
    requires ops != [] && LiveThroughout(c, ops, b)
    ensures b in RunFrom(c, ops[..|ops| - 1]).records && b in RunFrom(c, ops).records
  {
  }

  /**
   * Once an identifier resolved to a record, then for as long as that record lives it resolves to
   * it, to nothing, or to a record whose own id it is; never to a third record.
   */
  lemma NoSilentRebinding(c: Cache, ops: seq<Op>, x: Id, b: Id)
    requires Inv(c) && LegalRun(c, ops) && Resolve(c, x) == Some(b) && LiveThroughout(c, ops, b)
    ensures Resolve(RunFrom(c, ops), x) in {None, Some(b), Some(x)}
  {
    hide Inv, Tied, Resolve;
    ResolvedIsTied(c, x, b);
    RunTied(c, ops, x, b);
    assert b in RunFrom(c, ops).records by { LiveNow(c, ops, b); }
    TiedResolves(RunFrom(c, ops), x, b);
  }

  lemma LiveNow(c: Cache, ops: seq<Op>, b: Id)
    requires LiveThroughout(c, ops, b)
    ensures b in RunFrom(c, ops).records
  {
  }

  /** The lift to whole runs: once signed, a record is signed for as long as it lives. */
  lemma {:induction false} SignedWhileLive(c: Cache, ops: seq<Op>, k: Id)
    requires Inv(c) && LegalRun(c, ops) && LiveThroughout(c, ops, k) && k in c.records && c.records[k].sig != ""
    ensures k in RunFrom(c, ops).records && RunFrom(c, ops).records[k].sig != "" && Inv(RunFrom(c, ops))
  {
    hide Inv, Apply, Legal;
    if ops != [] {
      var n := |ops| - 1;
      SignedWhileLive(c, ops[..n], k);
      LiveBefore(c, ops, k);
      ApplyKeeps(RunFrom(c, ops[..n]), ops[n]);
      SignedStaysSigned(RunFrom(c, ops[..n]), ops[n], k);
    }
  }

  // ----- ambiguity is forever

  lemma ApplyAmbiguous(c: Cache, op: Op)
    requires Inv(c) && Legal(c, op)
    ensures c.ambiguous <= Apply(c, op).ambiguous
  {
    hide Inv, Load, TrimSpace, PutBounded, Refused, KeepSig, BindAliases;
    match op
    case PutToolOp(rec, aliases) => BindAllSize(Admit(c, KeepSig(c, rec)), rec.bridgeId, aliases);
    case Restart(o) => RestartIs(c, o);
    case _ =>
  }

  lemma {:induction false} RunAmbiguous(c: Cache, ops: seq<Op>)
    requires Inv(c) && LegalRun(c, ops)
    ensures c.ambiguous <= RunFrom(c, ops).ambiguous && Inv(RunFrom(c, ops))
  {
    hide Inv, Apply;
    if ops != [] {
      RunAmbiguous(c, ops[..|ops| - 1]);
      ApplyKeeps(RunFrom(c, ops[..|ops| - 1]), ops[|ops| - 1]);
      ApplyAmbiguous(RunFrom(c, ops[..|ops| - 1]), ops[|ops| - 1]);
    }
  }

  /** An ambiguous identifier never again resolves through an alias, nor gives a context signature. */
  lemma AmbiguousForever(c: Cache, ops: seq<Op>, x: Id, key: string)
    requires Inv(c) && LegalRun(c, ops)
    ensures x in c.ambiguous ==> Resolve(RunFrom(c, ops), x) in {None, Some(x)}
    ensures Name(TrimSpace(key)) in c.ambiguous ==> GetContext(RunFrom(c, ops), key) == ""
  {
    hide Inv, TrimSpace;
    RunAmbiguous(c, ops);
  }

  /** The id is ambiguous and stands for itself. */
  predicate Unbound(c: Cache, x: Id) {
    x in c.ambiguous && (x in c.aliases ==> c.aliases[x] == x)
  }

  lemma {:induction false} BindUnbound(c: Cache, id: Id, aliases: seq<Id>, x: Id)
    requires Unbound(c, x)
    ensures Unbound(BindAliases(c, id, aliases), x)
  {
    if aliases != [] {
      BindUnbound(c, id, aliases[..|aliases| - 1], x);
    }
  }

  lemma ApplyUnbound(c: Cache, op: Op, x: Id)
    requires Inv(c) && Legal(c, op) && Unbound(c, x)
    ensures Unbound(Apply(c, op), x)
  {
    hide Inv, Load, TrimSpace, PutBounded, Refused, KeepSig, BindAliases, Admit;
    match op
    case PutToolOp(rec, aliases) =>
      if !Refused(c, rec) {
        AdmitUnbound(c, KeepSig(c, rec), x);
        BindUnbound(Admit(c, KeepSig(c, rec)), rec.bridgeId, aliases, x);
      }
    case Restart(o) => RestartIs(c, o);
    case _ =>
  }

  lemma AdmitUnbound(c: Cache, rec: ToolRecord, x: Id)
    requires Unbound(c, x)
    ensures Unbound(Admit(c, rec), x)
  {
  }

  /** An ambiguous identifier that stands for itself is never again bound to a record, not even as a sibling's. */
  lemma {:induction false} UnboundForever(c: Cache, ops: seq<Op>, x: Id)
    requires Inv(c) && LegalRun(c, ops) && Unbound(c, x)
    ensures Inv(RunFrom(c, ops)) && Unbound(RunFrom(c, ops), x) && Canonical(RunFrom(c, ops), x) == x
  {
    hide Inv, Apply;
    if ops != [] {
      UnboundForever(c, ops[..|ops| - 1], x);
      ApplyKeeps(RunFrom(c, ops[..|ops| - 1]), ops[|ops| - 1]);
      ApplyUnbound(RunFrom(c, ops[..|ops| - 1]), ops[|ops| - 1], x);
    }
  }

  /** A second record that claims an alias makes it ambiguous and unbinds it. */
  lemma SecondClaimUnbinds(c: Cache, id: Id, a: Id)
    requires a != NO_ID && a !in c.records && a in c.aliases && c.aliases[a] != id
    ensures Unbound(BindAlias(c, id, a), a)
  {
  }

  // ----- context signatures are sound

  /** The signatures put under a trimmed context key since it last entered the table. */
  function PutsSinceEntry(c: Cache, ops: seq<Op>, key: string): set<string> {
    if ops == [] then {}
    else SeenAfter(RunFrom(c, ops[..|ops| - 1]), PutsSinceEntry(c, ops[..|ops| - 1], key), ops[|ops| - 1], key)
  }

  /** A stored, unambiguous key holds the one signature put under it since it entered. */
  predicate ContextHolds(c: Cache, seen: set<string>, key: string) {
    key in c.contexts.sigs && Name(key) !in c.ambiguous ==> c.contexts.sigs[key] != "" && seen == {c.contexts.sigs[key]}
  }

  function SeenAfter(c: Cache, seen: set<string>, op: Op, key: string): set<string> {
    if op.PutContextOp? && op.sig != "" && TrimSpace(op.key) == key && key != "" then
      (if key in c.contexts.sigs then seen else {}) + {op.sig}
    else seen
  }

  lemma PutContextHolds(c: Cache, seen: set<string>, k: string, sig: string, key: string)
    requires Inv(c) && ContextHolds(c, seen, key)
    ensures ContextHolds(PutContext(c, k, sig), SeenAfter(c, seen, PutContextOp(k, sig), key), key)
  {
    hide TrimSpace, AliasInv, RecordInv, ToolOrderInv, TableInv;
  }

  lemma ContextStep(c: Cache, seen: set<string>, op: Op, key: string)
    requires Inv(c) && Legal(c, op) && ContextHolds(c, seen, key)
    ensures ContextHolds(Apply(c, op), SeenAfter(c, seen, op, key), key)
  {
    hide Inv, TrimSpace, Load, Refused, KeepSig, BindAliases, PutContext;
    match op
    case PutToolOp(rec, aliases) =>
      BindAllSize(Admit(c, KeepSig(c, rec)), rec.bridgeId, aliases);
    case PutContextOp(k, sig) => PutContextHolds(c, seen, k, sig, key);
    case Restart(o) => RestartIs(c, o);
    case _ =>
  }

  lemma {:induction false} RunContext(max: Capacity, ops: seq<Op>, key: string)
    requires LegalRun(Fresh(max), ops)
    ensures ContextHolds(RunFrom(Fresh(max), ops), PutsSinceEntry(Fresh(max), ops, key), key)
  {
    hide Inv, Apply, ContextHolds, TrimSpace;
    if ops == [] {
      FreshContext(max, key);
    } else {
      var n := |ops| - 1;
      RunContext(max, ops[..n], key);
      RunKeeps(max, ops[..n]);
      ContextStep(RunFrom(Fresh(max), ops[..n]), PutsSinceEntry(Fresh(max), ops[..n], key), ops[n], key);
    }
  }

  lemma FreshContext(max: Capacity, key: string)
    ensures ContextHolds(Fresh(max), {}, key)
  {
  }

  /** A context signature handed out is the only one put under its key since the key entered the cache. */
  lemma ContextLookupIsSound(max: Capacity, ops: seq<Op>, key: string)
    requires LegalRun(Fresh(max), ops)
    ensures var sig := GetContext(RunFrom(Fresh(max), ops), key);
            sig != "" ==> PutsSinceEntry(Fresh(max), ops, TrimSpace(key)) == {sig}
  {
    hide TrimSpace, RunFrom, PutsSinceEntry;
    RunContext(max, ops, TrimSpace(key));
  }

  // ----- a restart is transparent to every lookup

  /** A tool lookup after a restart gives the same record, with an empty argument object read as none. */
  lemma RestartIsTransparent(max: Capacity, ops: seq<Op>, o: Orders)
    requires LegalRun(Fresh(max), ops) && Legal(RunFrom(Fresh(max), ops), Restart(o))
    ensures var c := RunFrom(Fresh(max), ops);
            var c' := Apply(c, Restart(o));
            && (forall a :: Resolve(c', a) == Resolve(c, a))
            && (forall a :: GetTool(c', a) == match GetTool(c, a) case Some(r) => Some(PersistedRecord(r)) case None => None)
            && (forall id :: GetMessage(c', id) == GetMessage(c, id))
            && (forall text :: GetText(c', text) == GetText(c, text))
            && (forall key :: GetContext(c', key) == GetContext(c, key))
            && (forall lead, sib :: IsVerifiedSibling(c', lead, sib) <==> IsVerifiedSibling(c, lead, sib))
  {
    hide RunFrom, LegalRun, TrimSpace, Inv, Load;
    RunKeeps(max, ops);
    RestartIs(RunFrom(Fresh(max), ops), o);
  }

  /** The exception in a restart is visible: an empty argument object does come back as none. */
  lemma EmptyArgumentsAreForgotten(max: Capacity)
    ensures var rec := ToolRecord(Name("call"), NO_ID, NO_ID, "tool", Fields(map[]), "sig", "", NO_ID, false);
            var c := PutTool(Fresh(max), rec, []);
            var o := Orders([Name("call")], [Name("call")], [], [], []);
            GetTool(c, Name("call")) == Some(rec) && GetTool(Load(Fresh(max), Save(c), o), Name("call")) == Some(rec.(args := NilArgs))
  {
    var rec := ToolRecord(Name("call"), NO_ID, NO_ID, "tool", Fields(map[]), "sig", "", NO_ID, false);
    var c := PutTool(Fresh(max), rec, []);
    var o := Orders([Name("call")], [Name("call")], [], [], []);
    assert !Refused(Fresh(max), rec);
    assert c.records == map[rec.bridgeId := rec] && c.aliases == map[rec.bridgeId := rec.bridgeId];
    assert Save(c).records[rec.bridgeId] == rec.(args := NilArgs);
    var l := Loading(Fresh(max), {});
    assert [Name("call")][..0] == [];
    assert LoadRecords(l, Save(c), [Name("call")]) == LoadRecord(l, Save(c), Name("call"));
    assert LoadAliases(LoadRecords(l, Save(c), [Name("call")]), Save(c), [Name("call")]) ==
           LoadAlias(LoadRecords(l, Save(c), [Name("call")]), Save(c), Name("call"));
  }

  // ----- loading any snapshot

  predicate NoMarker(c: Cache) {
    forall k :: k in c.records ==> c.records[k].sig != MIGRATION_MARKER
  }

  lemma {:induction false} LoadRecordsNoMarker(l: Loading, s: Snapshot, order: seq<Id>)
    requires NoMarker(l.cache)
    ensures NoMarker(LoadRecords(l, s, order).cache)
  {
    if order != [] {
      LoadRecordsNoMarker(l, s, order[..|order| - 1]);
    }
  }

  lemma {:induction false} LoadLegaciesNoMarker(l: Loading, s: Snapshot, order: seq<Id>)
    requires NoMarker(l.cache)
    ensures NoMarker(LoadLegacies(l, s, order).cache)
  {
    if order != [] {
      LoadLegaciesNoMarker(l, s, order[..|order| - 1]);
    }
  }

  lemma {:induction false} LoadAliasesRecords(l: Loading, s: Snapshot, order: seq<Id>)
    ensures LoadAliases(l, s, order).cache.records == l.cache.records
  {
    if order != [] {
      LoadAliasesRecords(l, s, order[..|order| - 1]);
    }
  }

  /** No snapshot, current or legacy, well formed or not, brings a migration marker into the records. */
  lemma LoadNeverAdmitsMarker(c: Cache, s: Snapshot, o: Orders)
    requires NoMarker(c)
    ensures NoMarker(Load(c, s, o))
  {
    hide NoMarker;
    var l := Loading(c, {});
    LoadRecordsNoMarker(l, s, o.tools);
    LoadAliasesRecords(LoadRecords(l, s, o.tools), s, o.aliases);
    LoadLegaciesNoMarker(l, s, o.tools);
    SameMarkers(LoadRecords(l, s, o.tools).cache, LoadAliases(LoadRecords(l, s, o.tools), s, o.aliases).cache);
    SameMarkers(LoadTools(c, s, o).cache, Load(c, s, o));
  }

  lemma SameMarkers(c: Cache, c': Cache)
    requires c'.records == c.records
    ensures NoMarker(c) <==> NoMarker(c')
  {
  }
}
