/** The signature cache as values: bounded FIFO tables, aliases, siblings and snapshots. */
module Caches {
  import opened Core

  datatype ToolRecord = ToolRecord(
    bridgeId: Id,
    itemId: Id,
    upstreamId: Id,
    name: string,
    args: Args,
    sig: string,
    model: string,
    turnId: Id,
    legacy: bool)

  type Capacity = n: nat | n > 0 witness 1

  /** A bounded table of signatures with its keys in order of arrival. */
  datatype Table<K> = Table(sigs: map<K, string>, order: seq<K>)

  datatype Cache = Cache(
    maxSize: Capacity,
    records: map<Id, ToolRecord>,
    toolOrder: seq<Id>,
    aliases: map<Id, Id>,
    ambiguous: set<Id>,
    siblings: map<Id, set<Id>>,
    texts: Table<string>,
    messages: Table<Id>,
    contexts: Table<string>)

  function Fresh(maxSize: Capacity): Cache {
    Cache(maxSize, map[], [], map[], {}, map[], Table(map[], []), Table(map[], []), Table(map[], []))
  }

  // ----- white space around texts and context keys

  predicate IsSpace(c: char) {
    c in {'\t', '\n', '\U{0B}', '\U{0C}', '\r', ' ', '\U{85}', '\U{A0}', '\U{1680}', '\U{2028}', '\U{2029}', '\U{202F}', '\U{205F}', '\U{3000}'}
    || '\U{2000}' <= c <= '\U{200A}'
  }

  function TrimSpace(s: string): string
    decreases |s|
  {
    if s == "" then ""
    else if IsSpace(s[0]) then TrimSpace(s[1..])
    else if IsSpace(s[|s| - 1]) then TrimSpace(s[..|s| - 1])
    else s
  }

  // ----- tool records

  function WithoutTarget(aliases: map<Id, Id>, target: Id): map<Id, Id> {
    map a | a in aliases && aliases[a] != target :: aliases[a]
  }

  /** Removes the oldest record together with every alias that names it. */
  function EvictOldest(c: Cache): Cache
    requires c.toolOrder != []
  {
    var oldest := c.toolOrder[0];
    c.(records := c.records - {oldest},
       toolOrder := c.toolOrder[1..],
       aliases := WithoutTarget(c.aliases, oldest))
  }

  /** Stores a record under its own id, evicting the oldest one when the cache is full. */
  function Admit(c: Cache, rec: ToolRecord): Cache {
    var c1 := c.(records := c.records[rec.bridgeId := rec]);
    var c2 :=
      if rec.bridgeId in c.toolOrder then c1
      else
        var c' := if |c.toolOrder| >= c.maxSize then EvictOldest(c1) else c1;
        c'.(toolOrder := c'.toolOrder + [rec.bridgeId]);
    c2.(aliases := c2.aliases[rec.bridgeId := rec.bridgeId])
  }

  /** Binds one alias; a second claimant makes it ambiguous for good. */
  function BindAlias(c: Cache, id: Id, a: Id): Cache {
    if a == NO_ID || (a in c.records && a != id) then c
    else if a in c.aliases && c.aliases[a] != id then c.(ambiguous := c.ambiguous + {a}, aliases := c.aliases - {a})
    else if a in c.ambiguous then c
    else c.(aliases := c.aliases[a := id])
  }

  function BindAliases(c: Cache, id: Id, aliases: seq<Id>): Cache {
    if aliases == [] then c
    else BindAlias(BindAliases(c, id, aliases[..|aliases| - 1]), id, aliases[|aliases| - 1])
  }

  /** A non-legacy record of the same id with another name or other arguments. */
  predicate Conflicts(c: Cache, rec: ToolRecord) {
    rec.bridgeId in c.records &&
    var known := c.records[rec.bridgeId];
    && !known.legacy && known.name != "" && rec.name != ""
    && (known.name != rec.name || (known.args != NilArgs && rec.args != NilArgs && known.args != rec.args))
  }

  predicate Refused(c: Cache, rec: ToolRecord) {
    || rec.bridgeId == NO_ID || rec.sig == MIGRATION_MARKER
    || (rec.bridgeId in c.aliases && c.aliases[rec.bridgeId] != rec.bridgeId)
    || Conflicts(c, rec)
  }

  /** An unsigned update keeps the signature already known. */
  function KeepSig(c: Cache, rec: ToolRecord): ToolRecord {
    if rec.bridgeId in c.records && rec.sig == "" then rec.(sig := c.records[rec.bridgeId].sig) else rec
  }

  function PutTool(c: Cache, rec: ToolRecord, aliases: seq<Id>): Cache {
    if Refused(c, rec) then c else BindAliases(Admit(c, KeepSig(c, rec)), rec.bridgeId, aliases)
  }

  /** The canonical id a call id or alias resolves to. */
  function Resolve(c: Cache, a: Id): Option<Id> {
    if a == NO_ID then None
    else if a in c.records then Some(a)
    else if a in c.ambiguous then None
    else if a in c.aliases && c.aliases[a] != NO_ID && c.aliases[a] in c.records then Some(c.aliases[a])
    else None
  }

  function GetTool(c: Cache, a: Id): (r: Option<ToolRecord>)
    ensures r == match Resolve(c, a) case Some(id) => Some(c.records[id]) case None => None
  {
    if a == NO_ID then None
    else if a in c.records then Some(c.records[a])
    else if a in c.ambiguous then None
    else
      var canonical := if a in c.aliases && c.aliases[a] != NO_ID then c.aliases[a] else a;
      if canonical in c.records then Some(c.records[canonical]) else None
  }

  // ----- bounded signature tables

  function PutBounded<K(==)>(t: Table<K>, max: Capacity, k: K, sig: string): Table<K> {
    if k in t.sigs then t.(sigs := t.sigs[k := sig])
    else if |t.order| >= max then Table((t.sigs - {t.order[0]})[k := sig], t.order[1..] + [k])
    else Table(t.sigs[k := sig], t.order + [k])
  }

  function PutMessage(c: Cache, id: Id, sig: string): Cache {
    if id == NO_ID || sig == "" then c else c.(messages := PutBounded(c.messages, c.maxSize, id, sig))
  }

  function GetMessage(c: Cache, id: Id): string {
    if id != NO_ID && id in c.messages.sigs then c.messages.sigs[id] else ""
  }

  function PutText(c: Cache, text: string, sig: string): Cache {
    var key := TrimSpace(text);
    if key == "" || sig == "" then c else c.(texts := PutBounded(c.texts, c.maxSize, key, sig))
  }

  function GetText(c: Cache, text: string): string {
    var key := TrimSpace(text);
    if key != "" && key in c.texts.sigs then c.texts.sigs[key] else ""
  }

  /** Two different signatures under one context key make the key ambiguous. */
  function PutContext(c: Cache, contextKey: string, sig: string): Cache {
    var key := TrimSpace(contextKey);
    if key == "" || sig == "" then c
    else if key in c.contexts.sigs && c.contexts.sigs[key] != sig && c.contexts.sigs[key] != "" then
      c.(ambiguous := c.ambiguous + {Name(key)}, contexts := c.contexts.(sigs := c.contexts.sigs[key := ""]))
    else if Name(key) in c.ambiguous then c
    else c.(contexts := PutBounded(c.contexts, c.maxSize, key, sig))
  }

  function GetContext(c: Cache, contextKey: string): string {
    var key := TrimSpace(contextKey);
    if key == "" || Name(key) in c.ambiguous || key !in c.contexts.sigs then "" else c.contexts.sigs[key]
  }

  // ----- siblings

  function Canonical(c: Cache, a: Id): Id {
    if a in c.aliases && c.aliases[a] != NO_ID then c.aliases[a] else a
  }

  function SiblingsOf(c: Cache, lead: Id): set<Id> {
    if lead in c.siblings then c.siblings[lead] else {}
  }

  /** The canonical ids of `ids` other than the lead's. */
  function OtherCanonicals(c: Cache, lead: Id, ids: seq<Id>): set<Id> {
    if ids == [] then {}
    else
      var id := ids[|ids| - 1];
      OtherCanonicals(c, lead, ids[..|ids| - 1]) + if id != NO_ID && Canonical(c, id) != lead then {Canonical(c, id)} else {}
  }

  function RecordSiblings(c: Cache, leadId: Id, siblingIds: seq<Id>): Cache {
    if leadId == NO_ID || siblingIds == [] then c
    else
      var lead := Canonical(c, leadId);
      c.(siblings := c.siblings[lead := SiblingsOf(c, lead) + OtherCanonicals(c, lead, siblingIds)])
  }

  predicate IsVerifiedSibling(c: Cache, leadId: Id, siblingId: Id) {
    && leadId != NO_ID && siblingId != NO_ID
    && var lead, sib := Canonical(c, leadId), Canonical(c, siblingId);
    && lead != sib
    && (sib in SiblingsOf(c, lead) || lead in SiblingsOf(c, sib))
  }

  // ----- snapshots

  datatype Snapshot = Snapshot(
    version: int,
    records: map<Id, ToolRecord>,
    aliases: map<Id, Id>,
    texts: map<string, string>,
    messages: map<Id, string>,
    contexts: map<string, string>,
    ambiguous: set<Id>,
    siblings: map<Id, set<Id>>,
    toolSigs: map<Id, string>,     // these three only in files of older versions
    toolNames: map<Id, string>,
    toolArgs: map<Id, Args>)

  /** The orders in which a load happens to visit the snapshot's maps. */
  datatype Orders = Orders(tools: seq<Id>, aliases: seq<Id>, texts: seq<string>, messages: seq<Id>, contexts: seq<string>)

  function PersistedRecord(r: ToolRecord): ToolRecord {
    r.(args := Persisted(r.args))
  }

  function Save(c: Cache): Snapshot {
    Snapshot(2, map k | k in c.records :: PersistedRecord(c.records[k]), c.aliases,
             c.texts.sigs, c.messages.sigs, c.contexts.sigs, c.ambiguous, c.siblings, map[], map[], map[])
  }

  datatype Loading = Loading(cache: Cache, migrated: set<Id>)

  function LoadRecord(l: Loading, s: Snapshot, k: Id): Loading {
    if k !in s.records then l
    else if s.records[k].sig == MIGRATION_MARKER then l.(migrated := l.migrated + {k, s.records[k].bridgeId})
    else
      l.(cache := l.cache.(records := l.cache.records[k := s.records[k]], toolOrder := l.cache.toolOrder + [k]))
  }

  function LoadRecords(l: Loading, s: Snapshot, order: seq<Id>): Loading {
    if order == [] then l else LoadRecord(LoadRecords(l, s, order[..|order| - 1]), s, order[|order| - 1])
  }

  function LoadAlias(l: Loading, s: Snapshot, a: Id): Loading {
    if a !in s.aliases then l
    else if s.aliases[a] in l.migrated then l.(migrated := l.migrated + {a})
    else l.(cache := l.cache.(aliases := l.cache.aliases[a := s.aliases[a]]))
  }

  function LoadAliases(l: Loading, s: Snapshot, order: seq<Id>): Loading {
    if order == [] then l else LoadAlias(LoadAliases(l, s, order[..|order| - 1]), s, order[|order| - 1])
  }

  function LegacyKeys(s: Snapshot): set<Id> {
    s.toolSigs.Keys + s.toolNames.Keys + s.toolArgs.Keys
  }

  function LegacyRecord(s: Snapshot, k: Id): ToolRecord {
    ToolRecord(k, NO_ID, NO_ID,
               if k in s.toolNames then s.toolNames[k] else "",
               if k in s.toolArgs then s.toolArgs[k] else NilArgs,
               if k in s.toolSigs then s.toolSigs[k] else "",
               "", NO_ID, true)
  }

  function LoadLegacy(l: Loading, s: Snapshot, k: Id): Loading {
    if k !in LegacyKeys(s) then l
    else if LegacyRecord(s, k).sig == MIGRATION_MARKER then l.(migrated := l.migrated + {k})
    else
      l.(cache := l.cache.(records := l.cache.records[k := LegacyRecord(s, k)],
                           aliases := l.cache.aliases[k := k],
                           toolOrder := l.cache.toolOrder + [k]))
  }

  function LoadLegacies(l: Loading, s: Snapshot, order: seq<Id>): Loading {
    if order == [] then l else LoadLegacy(LoadLegacies(l, s, order[..|order| - 1]), s, order[|order| - 1])
  }

  function LoadTools(c: Cache, s: Snapshot, o: Orders): Loading {
    var l := Loading(c, {});
    if s.version >= 2 && s.records != map[] then LoadAliases(LoadRecords(l, s, o.tools), s, o.aliases)
    else LoadLegacies(l, s, o.tools)
  }

  function LoadTable<K(==)>(t: Table<K>, sigs: map<K, string>, order: seq<K>): Table<K> {
    Table(t.sigs + sigs, t.order + order)
  }

  function LoadSiblings(c: Cache, s: Snapshot, migrated: set<Id>): map<Id, set<Id>> {
    c.siblings + NewSiblings(c.siblings, s, migrated)
  }

  function NewSiblings(siblings: map<Id, set<Id>>, s: Snapshot, migrated: set<Id>): map<Id, set<Id>> {
    map lead | lead in s.siblings && lead !in migrated :: (if lead in siblings then siblings[lead] else {}) + (s.siblings[lead] - migrated)
  }

  function Load(c: Cache, s: Snapshot, o: Orders): Cache {
    var l := LoadTools(c, s, o);
    l.cache.(texts := LoadTable(c.texts, s.texts, o.texts),
             messages := LoadTable(c.messages, s.messages, o.messages),
             contexts := LoadTable(c.contexts, s.contexts, o.contexts),
             ambiguous := c.ambiguous + s.ambiguous,
             siblings := LoadSiblings(c, s, l.migrated))
  }

  /** `order` visits every element of `keys` once. */
  ghost predicate Visits<K>(order: seq<K>, keys: set<K>) {
    NoDup(order) && Elems(order) == keys
  }

  ghost predicate NoDup<K>(s: seq<K>) {
    forall i, j :: 0 <= i < j < |s| ==> s[i] != s[j]
  }

  ghost function Elems<K>(s: seq<K>): set<K> {
    set i | 0 <= i < |s| :: s[i]
  }
}
