/** Client output items of a finished turn, and the opaque carrier inside its reasoning item. */
module Outputs {
  import opened Core
  import opened Turns

  /** The turn state carried, encoded, by a reasoning item. */
  datatype Carrier = Carrier(
    turnId: Id,
    model: string,
    parts: seq<Record>,
    toolSigs: map<Id, string>,
    siblings: map<Id, seq<Id>>,
    textSigs: map<Id, string>,
    outputOrder: seq<Id>)

  datatype OutItem =
    | ReasoningOut(id: Id, carrier: Option<Carrier>, summary: string)
    | CallOut(id: Id, callId: Id, namespace: string, name: string, args: Args, sig: string)
    | MessageOut(id: Id, text: string, sig: string)

  predicate NeedsReasoning(t: Turn) {
    t.thoughtSummary != "" || t.toolSigs != map[] || t.textSigs != map[]
  }

  function ItemOf(r: Record): OutItem {
    match r
    case TextRec(_, id, text, sig) => MessageOut(id, text, sig)
    case CallRec(_, id, callId, _, name, args, sig) =>
      CallOut(id, callId, SplitWireName(name).0, SplitWireName(name).1, args, sig)
  }

  function ReasoningItem(t: Turn): OutItem {
    ReasoningOut(
      t.ctx.reasoningId,
      Some(Carrier(t.ctx.turnId, t.ctx.model, t.parts, t.toolSigs, t.siblings, t.textSigs, t.outputOrder)),
      t.thoughtSummary)
  }

  // ----- the general algorithm: look ids up in a table, each at most once

  function PartTable(parts: seq<Record>, start: map<Id, OutItem>): map<Id, OutItem> {
    if parts == [] then start
    else
      var last := parts[|parts| - 1];
      PartTable(parts[..|parts| - 1], start)[last.itemId := ItemOf(last)]
  }

  function ItemTable(t: Turn): map<Id, OutItem> {
    PartTable(t.parts, if NeedsReasoning(t) then map[t.ctx.reasoningId := ReasoningItem(t)] else map[])
  }

  datatype Picked = Picked(items: seq<OutItem>, used: set<Id>)

  function PickOne(q: Picked, id: Id, table: map<Id, OutItem>): Picked {
    if id in table && id !in q.used then Picked(q.items + [table[id]], q.used + {id}) else q
  }

  function PickAll(start: Picked, ids: seq<Id>, table: map<Id, OutItem>): Picked {
    if ids == [] then start else PickOne(PickAll(start, ids[..|ids| - 1], table), ids[|ids| - 1], table)
  }

  /** Adds a reasoning item that the output order does not name. */
  function PickReasoning(q: Picked, t: Turn): Picked {
    if !NeedsReasoning(t) || t.ctx.reasoningId in q.used then q
    else
      Picked(if t.thoughtSummary != "" then [ReasoningItem(t)] + q.items else q.items + [ReasoningItem(t)],
             q.used + {t.ctx.reasoningId})
  }

  function OutputItems(t: Turn): seq<OutItem> {
    var ordered := PickAll(Picked([], {}), t.outputOrder, ItemTable(t));
    PickAll(PickReasoning(ordered, t), ItemIds(t.parts), ItemTable(t)).items
  }

  method BuildItemTable(t: Turn) returns (itemsById: map<Id, OutItem>)
    ensures itemsById == ItemTable(t)
  {
    itemsById := map[];
    if NeedsReasoning(t) {
      itemsById := itemsById[t.ctx.reasoningId := ReasoningItem(t)];
    }
    ghost var start := itemsById;
    for i := 0 to |t.parts|
      invariant itemsById == PartTable(t.parts[..i], start)
    {
      assert t.parts[..i + 1][..i] == t.parts[..i];
      itemsById := itemsById[t.parts[i].itemId := ItemOf(t.parts[i])];
    }
    assert t.parts[..|t.parts|] == t.parts;
  }

  method PickInOrder(items0: seq<OutItem>, used0: set<Id>, ids: seq<Id>, table: map<Id, OutItem>)
    returns (items: seq<OutItem>, used: set<Id>)
    ensures Picked(items, used) == PickAll(Picked(items0, used0), ids, table)
  {
    items, used := items0, used0;
    for i := 0 to |ids|
      invariant Picked(items, used) == PickAll(Picked(items0, used0), ids[..i], table)
    {
      assert ids[..i + 1][..i] == ids[..i];
      if ids[i] in table && ids[i] !in used {
        items, used := items + [table[ids[i]]], used + {ids[i]};
      }
    }
    assert ids[..|ids|] == ids;
  }

  method ToOutputItems(t: Turn) returns (items: seq<OutItem>)
    ensures items == OutputItems(t)
  {
    var itemsById := BuildItemTable(t);
    var used;
    items, used := PickInOrder([], {}, t.outputOrder, itemsById);
    if NeedsReasoning(t) && t.ctx.reasoningId !in used {
      items := if t.thoughtSummary != "" then [ReasoningItem(t)] + items else items + [ReasoningItem(t)];
      used := used + {t.ctx.reasoningId};
    }
    items, used := PickInOrder(items, used, ItemIds(t.parts), itemsById);
  }

  // ----- the items of a turn that the accumulator built

  function Items(parts: seq<Record>): (items: seq<OutItem>)
    ensures |items| == |parts|
    ensures forall i :: 0 <= i < |parts| ==> items[i] == ItemOf(parts[i])
  {
    seq(|parts|, i requires 0 <= i < |parts| => ItemOf(parts[i]))
  }

  /** One item per record in order; a needed reasoning item sits where the first thought came, else last. */
  function FinalItems(d: Draft): seq<OutItem> {
    var items := Items(d.parts);
    if !NeedsReasoning(TurnOf(d)) then items
    else if d.thoughtAt.Some? && d.thoughtAt.value <= |items| then
      items[..d.thoughtAt.value] + [ReasoningItem(TurnOf(d))] + items[d.thoughtAt.value..]
    else items + [ReasoningItem(TurnOf(d))]
  }

  function Lookups(ids: seq<Id>, table: map<Id, OutItem>): seq<OutItem> {
    if ids == [] then []
    else Lookups(ids[..|ids| - 1], table) + if ids[|ids| - 1] in table then [table[ids[|ids| - 1]]] else []
  }

  lemma {:induction false} LookupsConcat(a: seq<Id>, b: seq<Id>, table: map<Id, OutItem>)
    ensures Lookups(a + b, table) == Lookups(a, table) + Lookups(b, table)
  {
    if b == [] {
      assert a + b == a;
    } else {
      LookupsConcat(a, b[..|b| - 1], table);
      assert (a + b)[..|a + b| - 1] == a + b[..|b| - 1];
    }
  }

  lemma {:induction false} LookupsOfParts(ids: seq<Id>, parts: seq<Record>, table: map<Id, OutItem>)
    requires |ids| == |parts|
    requires forall i :: 0 <= i < |parts| ==> ids[i] == parts[i].itemId && ids[i] in table && table[ids[i]] == ItemOf(parts[i])
    ensures Lookups(ids, table) == Items(parts)
  {
    if ids != [] {
      var n := |ids| - 1;
      LookupsOfParts(ids[..n], parts[..n], table);
      assert Items(parts) == Items(parts[..n]) + [ItemOf(parts[n])];
    }
  }

  /** Distinct unused ids are picked in order; exactly the picked ids become used. */
  lemma {:induction false} PickFresh(start: Picked, ids: seq<Id>, table: map<Id, OutItem>)
    requires forall i, j :: 0 <= i < j < |ids| ==> ids[i] != ids[j]
    requires forall i :: 0 <= i < |ids| ==> ids[i] !in start.used
    ensures PickAll(start, ids, table).items == start.items + Lookups(ids, table)
    ensures forall i :: 0 <= i < |ids| && ids[i] in table ==> ids[i] in PickAll(start, ids, table).used
    ensures forall x :: x in PickAll(start, ids, table).used ==> x in start.used || (exists i :: 0 <= i < |ids| && ids[i] == x)
  {
    if ids == [] {
    } else {
      var n := |ids| - 1;
      PickFresh(start, ids[..n], table);
      forall x | x in PickAll(start, ids[..n], table).used && x !in start.used
        ensures exists i :: 0 <= i < n && ids[i] == x
      {
        var i :| 0 <= i < n && ids[..n][i] == x;
        assert ids[i] == x;
      }
      assert forall i :: 0 <= i < n ==> ids[i] == ids[..n][i];
    }
  }

  lemma {:induction false} PickUsed(start: Picked, ids: seq<Id>, table: map<Id, OutItem>)
    requires forall i :: 0 <= i < |ids| && ids[i] in table ==> ids[i] in start.used
    ensures PickAll(start, ids, table) == start
  {
    if ids != [] {
      PickUsed(start, ids[..|ids| - 1], table);
    }
  }

  lemma {:induction false} PartTableHolds(parts: seq<Record>, start: map<Id, OutItem>)
    requires DistinctItems(parts)
    ensures forall i :: 0 <= i < |parts| ==> parts[i].itemId in PartTable(parts, start) && PartTable(parts, start)[parts[i].itemId] == ItemOf(parts[i])
    ensures forall id :: (forall i :: 0 <= i < |parts| ==> parts[i].itemId != id) ==>
              (id in PartTable(parts, start) <==> id in start) && (id in start ==> PartTable(parts, start)[id] == start[id])
  {
    if parts != [] {
      var n := |parts| - 1;
      PartTableHolds(parts[..n], start);
      assert forall i :: 0 <= i < n ==> parts[i] == parts[..n][i];
    }
  }

  lemma ItemTableHolds(d: Draft)
    requires WF(d)
    ensures forall i :: 0 <= i < |d.parts| ==>
              d.parts[i].itemId in ItemTable(TurnOf(d)) && ItemTable(TurnOf(d))[d.parts[i].itemId] == ItemOf(d.parts[i])
    ensures d.ctx.reasoningId in ItemTable(TurnOf(d)) <==> NeedsReasoning(TurnOf(d))
    ensures NeedsReasoning(TurnOf(d)) ==> ItemTable(TurnOf(d))[d.ctx.reasoningId] == ReasoningItem(TurnOf(d))
  {
    hide WF, ToolSigs, TextSigs, Order, Siblings;
    DistinctIds(d);
    var t := TurnOf(d);
    PartTableHolds(d.parts, if NeedsReasoning(t) then map[t.ctx.reasoningId := ReasoningItem(t)] else map[]);
  }

  lemma OrderDistinct(d: Draft)
    requires WF(d)
    ensures var ids := Order(d);
            && (forall i, j :: 0 <= i < j < |ids| ==> ids[i] != ids[j])
            && (d.thoughtAt.None? ==> forall i :: 0 <= i < |ids| ==> ids[i] != d.ctx.reasoningId)
            && (d.thoughtAt.Some? ==> d.thoughtAt.value < |ids| && ids[d.thoughtAt.value] == d.ctx.reasoningId)
            && (forall i :: 0 <= i < |d.parts| ==>
                  var k := OrderPos(d, i);
                  k < |ids| && ids[k] == d.parts[i].itemId)
  {
    hide WF;
    DistinctIds(d);
    ThoughtNeedsReasoning(d);
    InsertDistinct(ItemIds(d.parts), if d.thoughtAt.Some? then d.thoughtAt.value else 0, d.ctx.reasoningId);
  }

  lemma InsertDistinct(ids: seq<Id>, k: nat, id: Id)
    requires k <= |ids|
    requires forall i, j :: 0 <= i < j < |ids| ==> ids[i] != ids[j]
    requires forall i :: 0 <= i < |ids| ==> ids[i] != id
    ensures var r := ids[..k] + [id] + ids[k..];
            && |r| == |ids| + 1 && r[k] == id
            && (forall i :: 0 <= i < |ids| ==> r[if k <= i then i + 1 else i] == ids[i])
            && (forall i, j :: 0 <= i < j < |r| ==> r[i] != r[j])
  {
  }

  /** The output index of record `i`. */
  function OrderPos(d: Draft, i: nat): nat {
    if d.thoughtAt.Some? && d.thoughtAt.value <= i then i + 1 else i
  }

  lemma LookupsOfOrder(d: Draft, table: map<Id, OutItem>)
    requires WF(d)
    requires forall i :: 0 <= i < |d.parts| ==> d.parts[i].itemId in table && table[d.parts[i].itemId] == ItemOf(d.parts[i])
    requires d.ctx.reasoningId in table <==> NeedsReasoning(TurnOf(d))
    requires NeedsReasoning(TurnOf(d)) ==> table[d.ctx.reasoningId] == ReasoningItem(TurnOf(d))
    ensures Lookups(Order(d), table) ==
            if NeedsReasoning(TurnOf(d)) && d.thoughtAt.None? then Items(d.parts) else FinalItems(d)
  {
    hide ToolSigs, TextSigs, Siblings, NeedsReasoning, WF, Lookups, ItemOf, ReasoningItem;
    ThoughtNeedsReasoning(d);
    OneLookup(d.ctx.reasoningId, table);
    var ids := ItemIds(d.parts);
    if d.thoughtAt.None? {
      LookupsOfParts(ids, d.parts, table);
    } else {
      var k := d.thoughtAt.value;
      LookupsOfParts(ids[..k], d.parts[..k], table);
      LookupsOfParts(ids[k..], d.parts[k..], table);
      LookupsConcat(ids[..k] + [d.ctx.reasoningId], ids[k..], table);
      LookupsConcat(ids[..k], [d.ctx.reasoningId], table);
      assert Items(d.parts[..k]) == Items(d.parts)[..k];
      assert Items(d.parts[k..]) == Items(d.parts)[k..];
      assert Items(d.parts)[..k] + Items(d.parts)[k..] == Items(d.parts);
    }
  }

  lemma OneLookup(id: Id, table: map<Id, OutItem>)
    ensures Lookups([id], table) == if id in table then [table[id]] else []
  {
    assert [id][..0] == [];
  }

  lemma ThoughtNeedsReasoning(d: Draft)
    requires WF(d)
    ensures d.thoughtAt.None? ==> d.thought == ""
    ensures d.thoughtAt.Some? ==> d.thoughtAt.value <= |d.parts|
  {
  }

  /** For every turn the accumulator can build, the output list is one item per record plus the reasoning item. */
  lemma OutputItemsAre(d: Draft)
    requires WF(d)
    ensures OutputItems(TurnOf(d)) == FinalItems(d)
  {
    hide WF, ToolSigs, TextSigs, Siblings, NeedsReasoning, Order, PickAll, Lookups, ItemTable;
    var t := TurnOf(d);
    var table := ItemTable(t);
    ItemTableHolds(d);
    OrderDistinct(d);
    LookupsOfOrder(d, table);
    PickFresh(Picked([], {}), t.outputOrder, table);
    ThoughtNeedsReasoning(d);
    var ordered := PickAll(Picked([], {}), t.outputOrder, table);
    assert ordered.items == Lookups(Order(d), table);
    forall i | 0 <= i < |d.parts|
      ensures ItemIds(t.parts)[i] in ordered.used
    {
      var k := OrderPos(d, i);
      assert t.outputOrder[k] in table;
    }
    if d.thoughtAt.Some? {
      assert NeedsReasoning(t) ==> t.outputOrder[d.thoughtAt.value] in table;
    }
    PickUsed(PickReasoning(ordered, t), ItemIds(t.parts), table);
  }
}
