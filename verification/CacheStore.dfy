/** The signature cache as the mutable object it is: each locked method is one step. */
module CacheStore {
  import opened Core
  import opened Caches

  method PutEntry<K(==)>(sigs0: map<K, string>, order0: seq<K>, max: Capacity, k: K, sig: string)
    returns (sigs: map<K, string>, order: seq<K>)
    ensures Table(sigs, order) == PutBounded(Table(sigs0, order0), max, k, sig)
  {
    sigs, order := sigs0, order0;
    if k !in sigs {
      if |order| >= max {
        var oldest := order[0];
        order := order[1..];
        sigs := sigs - {oldest};
      }
      order := order + [k];
    }
    sigs := sigs[k := sig];
  }

  class SignatureCache {
    const maxSize: Capacity
    var records: map<Id, ToolRecord>
    var aliases: map<Id, Id>
    var textSigs: map<string, string>
    var msgSigs: map<Id, string>
    var contextSigs: map<string, string>
    var ambiguous: set<Id>
    var turnSiblings: map<Id, set<Id>>
    var toolOrder: seq<Id>
    var textOrder: seq<string>
    var msgOrder: seq<Id>
    var contextOrder: seq<string>

    ghost function View(): Cache
      reads this
    {
      Cache(maxSize, records, toolOrder, aliases, ambiguous, turnSiblings,
            Table(textSigs, textOrder), Table(msgSigs, msgOrder), Table(contextSigs, contextOrder))
    }

    constructor (maxSize: int)
      ensures View() == Fresh(if maxSize <= 0 then 2000 else maxSize)
    {
      this.maxSize := if maxSize <= 0 then 2000 else maxSize;
      records, aliases, ambiguous, turnSiblings := map[], map[], {}, map[];
      textSigs, msgSigs, contextSigs := map[], map[], map[];
      toolOrder, textOrder, msgOrder, contextOrder := [], [], [], [];
    }

    method PutMessageSignature(id: Id, sig: string)
      modifies this`msgSigs, this`msgOrder
      ensures View() == PutMessage(old(View()), id, sig)
    {
      if id == NO_ID || sig == "" {
        return;
      }
      msgSigs, msgOrder := PutEntry(msgSigs, msgOrder, maxSize, id, sig);
    }

    method PutTextSignature(text: string, sig: string)
      modifies this`textSigs, this`textOrder
      ensures View() == PutText(old(View()), text, sig)
    {
      var trimmed := TrimSpace(text);
      if trimmed == "" || sig == "" {
        return;
      }
      textSigs, textOrder := PutEntry(textSigs, textOrder, maxSize, trimmed, sig);
    }

    method PutContextSignature(contextKey: string, sig: string)
      modifies this`contextSigs, this`contextOrder, this`ambiguous
      ensures View() == PutContext(old(View()), contextKey, sig)
    {
      hide TrimSpace, PutBounded;
      var key := TrimSpace(contextKey);
      if key == "" || sig == "" {
        return;
      }
      if key in contextSigs && contextSigs[key] != sig && contextSigs[key] != "" {
        ambiguous := ambiguous + {Name(key)};
        contextSigs := contextSigs[key := ""];
        return;
      }
      if Name(key) in ambiguous {
        return;
      }
      contextSigs, contextOrder := PutEntry(contextSigs, contextOrder, maxSize, key, sig);
    }

    /** Drops the oldest record and, in any order, the aliases that name it. */
    method EvictOldestTool()
      requires toolOrder != []
      modifies this`records, this`toolOrder, this`aliases
      ensures View() == EvictOldest(old(View()))
    {
      var oldest := toolOrder[0];
      toolOrder := toolOrder[1..];
      records := records - {oldest};
      var kept := aliases;
      var rest := aliases.Keys;
      while rest != {}
        invariant rest <= aliases.Keys
        invariant kept == map a | a in aliases && (a in rest || aliases[a] != oldest) :: aliases[a]
      {
        var a :| a in rest;
        if aliases[a] == oldest {
          kept := kept - {a};
        }
        rest := rest - {a};
      }
      assert kept == WithoutTarget(aliases, oldest);
      aliases := kept;
    }

    method AdmitRecord(rec: ToolRecord)
      modifies this`records, this`toolOrder, this`aliases
      ensures View() == Admit(old(View()), rec)
    {
      hide EvictOldest;
      records := records[rec.bridgeId := rec];
      var isNew := true;
      for i := 0 to |toolOrder|
        invariant isNew <==> rec.bridgeId !in toolOrder[..i]
      {
        if toolOrder[i] == rec.bridgeId {
          isNew := false;
          assert rec.bridgeId in toolOrder;
          break;
        }
      }
      assert toolOrder[..|toolOrder|] == toolOrder;
      if isNew {
        if |toolOrder| >= maxSize {
          EvictOldestTool();
        }
        toolOrder := toolOrder + [rec.bridgeId];
      }
      aliases := aliases[rec.bridgeId := rec.bridgeId];
    }

    method PutToolRecord(rec: ToolRecord, newAliases: seq<Id>)
      modifies this`records, this`toolOrder, this`aliases, this`ambiguous
      ensures View() == PutTool(old(View()), rec, newAliases)
    {
      hide Admit, BindAliases;
      var refused := IsRefused(rec);
      if refused {
        return;
      }
      var kept := rec;
      if rec.bridgeId in records {
        var known := records[rec.bridgeId];
        if known.sig != "" && rec.sig == "" {
          kept := rec.(sig := known.sig);
        }
      }
      assert kept == KeepSig(View(), rec);
      AdmitRecord(kept);
      BindAll(rec.bridgeId, newAliases);
    }

    method IsRefused(rec: ToolRecord) returns (refused: bool)
      ensures refused == Refused(View(), rec)
    {
      if rec.bridgeId == NO_ID || rec.sig == MIGRATION_MARKER {
        return true;
      }
      if rec.bridgeId in aliases && aliases[rec.bridgeId] != rec.bridgeId {
        return true;
      }
      if rec.bridgeId in records {
        var known := records[rec.bridgeId];
        return !known.legacy && known.name != "" && rec.name != "" &&
               (known.name != rec.name || (known.args != NilArgs && rec.args != NilArgs && known.args != rec.args));
      }
      return false;
    }

    method BindAll(id: Id, newAliases: seq<Id>)
      modifies this`aliases, this`ambiguous
      ensures View() == BindAliases(old(View()), id, newAliases)
    {
      for i := 0 to |newAliases|
        invariant View() == BindAliases(old(View()), id, newAliases[..i])
      {
        assert newAliases[..i + 1][..i] == newAliases[..i];
        BindOne(id, newAliases[i]);
      }
      assert newAliases[..|newAliases|] == newAliases;
    }

    method BindOne(id: Id, a: Id)
      modifies this`aliases, this`ambiguous
      ensures View() == BindAlias(old(View()), id, a)
    {
      var bound, marked := aliases, ambiguous;
      if a == NO_ID || (a in records && a != id) {
      } else if a in aliases && aliases[a] != id {
        bound, marked := bound - {a}, marked + {a};
      } else if a !in ambiguous {
        bound := bound[a := id];
      }
      aliases, ambiguous := bound, marked;
    }

    method GetToolRecord(alias: Id) returns (r: Option<ToolRecord>)
      ensures r == GetTool(View(), alias)
    {
      if alias == NO_ID {
        return None;
      }
      if alias in records {
        return Some(records[alias]);
      }
      if alias in ambiguous {
        return None;
      }
      var canonicalId := alias;
      if alias in aliases && aliases[alias] != NO_ID {
        canonicalId := aliases[alias];
      }
      return if canonicalId in records then Some(records[canonicalId]) else None;
    }

    method ResolveCanonicalId(alias: Id) returns (id: Id)
      ensures id == Canonical(View(), alias)
    {
      id := if alias in aliases && aliases[alias] != NO_ID then aliases[alias] else alias;
    }

    method RecordTurnSiblings(leadId: Id, siblingIds: seq<Id>)
      modifies this`turnSiblings
      ensures View() == RecordSiblings(old(View()), leadId, siblingIds)
    {
      if leadId == NO_ID || |siblingIds| == 0 {
        return;
      }
      ghost var c := View();
      var lead := ResolveCanonicalId(leadId);
      var sibs := if lead in turnSiblings then turnSiblings[lead] else {};
      ghost var start := sibs;
      for i := 0 to |siblingIds|
        invariant View() == c && sibs == start + OtherCanonicals(c, lead, siblingIds[..i])
      {
        assert siblingIds[..i + 1][..i] == siblingIds[..i];
        if siblingIds[i] != NO_ID {
          var sib := ResolveCanonicalId(siblingIds[i]);
          if sib != lead {
            sibs := sibs + {sib};
          }
        }
      }
      assert siblingIds[..|siblingIds|] == siblingIds;
      turnSiblings := turnSiblings[lead := sibs];
    }

    method SaveToSnapshot() returns (s: Snapshot)
      ensures s == Save(View())
    {
      s := Snapshot(2, map k | k in records :: PersistedRecord(records[k]), aliases,
                    textSigs, msgSigs, contextSigs, ambiguous, turnSiblings, map[], map[], map[]);
    }

    /** Loads a snapshot, visiting each of its maps in whatever order comes. */
    method LoadFromSnapshot(s: Snapshot) returns (ghost o: Orders)
      modifies this
      ensures View() == Load(old(View()), s, o)
      ensures Visits(o.tools, if s.version >= 2 && s.records != map[] then s.records.Keys else LegacyKeys(s))
      ensures s.version >= 2 && s.records != map[] ==> Visits(o.aliases, s.aliases.Keys)
      ensures Visits(o.texts, s.texts.Keys) && Visits(o.messages, s.messages.Keys) && Visits(o.contexts, s.contexts.Keys)
    {
      hide LoadTools, Visits, LegacyKeys, NewSiblings;
      ghost var toolVisit, aliasVisit, migrated := LoadToolsFrom(s);
      ghost var texts, messages, contexts := LoadTables(s);
      o := Orders(toolVisit, aliasVisit, texts, messages, contexts);
      ToolsByOrders(old(View()), s, o, Orders(toolVisit, aliasVisit, [], [], []));
    }

    method LoadToolsFrom(s: Snapshot) returns (ghost tools: seq<Id>, ghost aliasVisit: seq<Id>, ghost migrated: set<Id>)
      modifies this`records, this`toolOrder, this`aliases, this`turnSiblings
      ensures Visits(tools, if s.version >= 2 && s.records != map[] then s.records.Keys else LegacyKeys(s))
      ensures s.version >= 2 && s.records != map[] ==> Visits(aliasVisit, s.aliases.Keys)
      ensures var l := LoadTools(old(View()), s, Orders(tools, aliasVisit, [], [], []));
              migrated == l.migrated && View() == l.cache.(siblings := LoadSiblings(old(View()), s, l.migrated))
    {
      hide LoadRecords, LoadAliases, LoadLegacies, Visits, LegacyKeys, NewSiblings;
      tools, aliasVisit := [], [];
      var dropped: set<Id> := {};
      if s.version >= 2 && s.records != map[] {
        tools, dropped := LoadRecordsFrom(s);
        aliasVisit, dropped := LoadAliasesFrom(s, dropped);
      } else {
        tools, dropped := LoadLegaciesFrom(s);
      }
      migrated := dropped;
      assert Loading(View(), dropped) == LoadTools(old(View()), s, Orders(tools, aliasVisit, [], [], []));
      turnSiblings := turnSiblings + NewSiblings(turnSiblings, s, dropped);
    }

    method LoadTexts(s: Snapshot) returns (ghost order: seq<string>)
      modifies this`textSigs, this`textOrder
      ensures Visits(order, s.texts.Keys)
      ensures View() == old(View()).(texts := LoadTable(old(View().texts), s.texts, order))
    {
      hide Visits;
      var visit := AnyOrder(s.texts.Keys);
      textSigs, textOrder := textSigs + s.texts, textOrder + visit;
      order := visit;
    }

    method LoadMessages(s: Snapshot) returns (ghost order: seq<Id>)
      modifies this`msgSigs, this`msgOrder
      ensures Visits(order, s.messages.Keys)
      ensures View() == old(View()).(messages := LoadTable(old(View().messages), s.messages, order))
    {
      hide Visits;
      var visit := AnyOrder(s.messages.Keys);
      msgSigs, msgOrder := msgSigs + s.messages, msgOrder + visit;
      order := visit;
    }

    method LoadContexts(s: Snapshot) returns (ghost order: seq<string>)
      modifies this`contextSigs, this`contextOrder
      ensures Visits(order, s.contexts.Keys)
      ensures View() == old(View()).(contexts := LoadTable(old(View().contexts), s.contexts, order))
    {
      hide Visits;
      var visit := AnyOrder(s.contexts.Keys);
      contextSigs, contextOrder := contextSigs + s.contexts, contextOrder + visit;
      order := visit;
    }

    method LoadTables(s: Snapshot) returns (ghost texts: seq<string>, ghost messages: seq<Id>, ghost contexts: seq<string>)
      modifies this`textSigs, this`textOrder, this`msgSigs, this`msgOrder, this`contextSigs, this`contextOrder, this`ambiguous
      ensures Visits(texts, s.texts.Keys) && Visits(messages, s.messages.Keys) && Visits(contexts, s.contexts.Keys)
      ensures var c := old(View());
              View() == c.(texts := LoadTable(c.texts, s.texts, texts),
                           messages := LoadTable(c.messages, s.messages, messages),
                           contexts := LoadTable(c.contexts, s.contexts, contexts),
                           ambiguous := c.ambiguous + s.ambiguous)
    {
      hide Visits, LoadTable;
      texts := LoadTexts(s);
      messages := LoadMessages(s);
      contexts := LoadContexts(s);
      ambiguous := ambiguous + s.ambiguous;
    }

    method LoadRecordsFrom(s: Snapshot) returns (ghost order: seq<Id>, migrated: set<Id>)
      modifies this`records, this`toolOrder
      ensures Visits(order, s.records.Keys)
      ensures Loading(View(), migrated) == LoadRecords(Loading(old(View()), {}), s, order)
    {
      var visit := AnyOrder(s.records.Keys);
      order, migrated := visit, {};
      for i := 0 to |visit|
        invariant Loading(View(), migrated) == LoadRecords(Loading(old(View()), {}), s, visit[..i])
      {
        assert visit[..i + 1][..i] == visit[..i];
        var k := visit[i];
        if k in s.records {
          if s.records[k].sig == MIGRATION_MARKER {
            migrated := migrated + {k, s.records[k].bridgeId};
          } else {
            records := records[k := s.records[k]];
            toolOrder := toolOrder + [k];
          }
        }
      }
      assert visit[..|visit|] == visit;
    }

    method LoadAliasesFrom(s: Snapshot, migrated0: set<Id>) returns (ghost order: seq<Id>, migrated: set<Id>)
      modifies this`aliases
      ensures Visits(order, s.aliases.Keys)
      ensures Loading(View(), migrated) == LoadAliases(Loading(old(View()), migrated0), s, order)
    {
      var visit := AnyOrder(s.aliases.Keys);
      order, migrated := visit, migrated0;
      for i := 0 to |visit|
        invariant Loading(View(), migrated) == LoadAliases(Loading(old(View()), migrated0), s, visit[..i])
      {
        assert visit[..i + 1][..i] == visit[..i];
        var a := visit[i];
        if a in s.aliases {
          if s.aliases[a] in migrated {
            migrated := migrated + {a};
          } else {
            aliases := aliases[a := s.aliases[a]];
          }
        }
      }
      assert visit[..|visit|] == visit;
    }

    method LoadLegaciesFrom(s: Snapshot) returns (ghost order: seq<Id>, migrated: set<Id>)
      modifies this`records, this`toolOrder, this`aliases
      ensures Visits(order, LegacyKeys(s))
      ensures Loading(View(), migrated) == LoadLegacies(Loading(old(View()), {}), s, order)
    {
      hide LegacyRecord, LegacyKeys;
      var visit := AnyOrder(LegacyKeys(s));
      order, migrated := visit, {};
      for i := 0 to |visit|
        invariant Loading(View(), migrated) == LoadLegacies(Loading(old(View()), {}), s, visit[..i])
      {
        assert visit[..i + 1][..i] == visit[..i];
        var k := visit[i];
        if k in LegacyKeys(s) {
          var rec := LegacyRecord(s, k);
          if rec.sig == MIGRATION_MARKER {
            migrated := migrated + {k};
          } else {
            records := records[k := rec];
            aliases := aliases[k := k];
            toolOrder := toolOrder + [k];
          }
        }
      }
      assert visit[..|visit|] == visit;
    }
  }

  /** The keys of a map in an order of the runtime's choosing. */
  method AnyOrder<K(==,!new)>(keys: set<K>) returns (order: seq<K>)
    ensures Visits(order, keys)
  {
    order := [];
    var rest := keys;
    EmptyVisit<K>();
    while rest != {}
      invariant rest <= keys && Visits(order, keys - rest)
    {
      var k :| k in rest;
      VisitOne(order, keys - rest, k);
      order := order + [k];
      rest := rest - {k};
      assert keys - rest == keys - (rest + {k}) + {k};
    }
    assert keys - rest == keys;
  }

  lemma ToolsByOrders(c: Cache, s: Snapshot, o: Orders, o': Orders)
    requires o.tools == o'.tools && o.aliases == o'.aliases
    ensures LoadTools(c, s, o) == LoadTools(c, s, o')
    ensures LoadTools(c, s, o).cache.texts == c.texts && LoadTools(c, s, o).cache.messages == c.messages
    ensures LoadTools(c, s, o).cache.contexts == c.contexts && LoadTools(c, s, o).cache.ambiguous == c.ambiguous
  {
    hide LoadRecord, LoadAlias, LoadLegacy;
    var l := Loading(c, {});
    RecordsOnly(l, s, o.tools);
    AliasesOnly(LoadRecords(l, s, o.tools), s, o.aliases);
    LegaciesOnly(l, s, o.tools);
  }

  lemma {:induction false} RecordsOnly(l: Loading, s: Snapshot, order: seq<Id>)
    ensures var c, c' := l.cache, LoadRecords(l, s, order).cache;
            c'.texts == c.texts && c'.messages == c.messages && c'.contexts == c.contexts && c'.ambiguous == c.ambiguous
  {
    if order != [] {
      RecordsOnly(l, s, order[..|order| - 1]);
    }
  }

  lemma {:induction false} AliasesOnly(l: Loading, s: Snapshot, order: seq<Id>)
    ensures var c, c' := l.cache, LoadAliases(l, s, order).cache;
            c'.texts == c.texts && c'.messages == c.messages && c'.contexts == c.contexts && c'.ambiguous == c.ambiguous
  {
    if order != [] {
      AliasesOnly(l, s, order[..|order| - 1]);
    }
  }

  lemma {:induction false} LegaciesOnly(l: Loading, s: Snapshot, order: seq<Id>)
    ensures var c, c' := l.cache, LoadLegacies(l, s, order).cache;
            c'.texts == c.texts && c'.messages == c.messages && c'.contexts == c.contexts && c'.ambiguous == c.ambiguous
  {
    if order != [] {
      LegaciesOnly(l, s, order[..|order| - 1]);
    }
  }

  lemma EmptyVisit<K>()
    ensures var none: seq<K> := []; Visits(none, {})
  {
  }

  lemma VisitOne<K(!new)>(order: seq<K>, keys: set<K>, k: K)
    requires Visits(order, keys) && k !in keys
    ensures Visits(order + [k], keys + {k})
  {
    var t := order + [k];
    assert t[|order|] == k && forall i :: 0 <= i < |order| ==> t[i] == order[i];
    assert Elems(t) == Elems(order) + {k};
  }
}
