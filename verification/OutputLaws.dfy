/** Output lists of any turn, also of one whose output order leaves things out or repeats them. */
module OutputLaws {
  import opened Core
  import opened Turns
  import opened Outputs

  /** Every entry of the table is under its own id. */
  predicate OwnEntries(table: map<Id, OutItem>) {
    forall id :: id in table ==> table[id].id == id
  }

  /** The picked items are entries of the table, one for every used id. */
  predicate PickedFrom(q: Picked, table: map<Id, OutItem>) {
    && (forall i :: 0 <= i < |q.items| ==> q.items[i].id in table && q.items[i] == table[q.items[i].id] && q.items[i].id in q.used)
    && (forall x :: x in q.used ==> exists i :: 0 <= i < |q.items| && q.items[i].id == x)
    && (forall i, j :: 0 <= i < j < |q.items| ==> q.items[i].id != q.items[j].id)
  }

  lemma PickLast(q: Picked, item: OutItem, table: map<Id, OutItem>)
    requires PickedFrom(q, table) && item.id in table && item == table[item.id] && item.id !in q.used
    ensures PickedFrom(Picked(q.items + [item], q.used + {item.id}), table)
  {
    var all := q.items + [item];
    assert all[|q.items|] == item && forall i :: 0 <= i < |q.items| ==> all[i] == q.items[i];
    forall x | x in q.used
      ensures exists i :: 0 <= i < |all| && all[i].id == x
    {
      var i :| 0 <= i < |q.items| && q.items[i].id == x;
      assert all[i].id == x;
    }
  }

  lemma PickFirst(q: Picked, item: OutItem, table: map<Id, OutItem>)
    requires PickedFrom(q, table) && item.id in table && item == table[item.id] && item.id !in q.used
    ensures PickedFrom(Picked([item] + q.items, q.used + {item.id}), table)
  {
    var all := [item] + q.items;
    assert all[0] == item && forall i :: 1 <= i < |all| ==> all[i] == q.items[i - 1];
    forall x | x in q.used
      ensures exists i :: 0 <= i < |all| && all[i].id == x
    {
      var i :| 0 <= i < |q.items| && q.items[i].id == x;
      assert all[i + 1].id == x;
    }
  }

  lemma {:induction false} PicksAll(start: Picked, ids: seq<Id>, table: map<Id, OutItem>)
    requires OwnEntries(table) && PickedFrom(start, table)
    ensures var q := PickAll(start, ids, table);
            && PickedFrom(q, table) && start.items <= q.items
            && forall x :: x in q.used <==> x in start.used || (x in ids && x in table)
  {
    hide PickedFrom;
    if ids != [] {
      var n := |ids| - 1;
      PicksAll(start, ids[..n], table);
      var before := PickAll(start, ids[..n], table);
      if ids[n] in table && ids[n] !in before.used {
        PickLast(before, table[ids[n]], table);
      }
      assert ids == ids[..n] + [ids[n]];
    }
  }

  predicate Distinct(t: Turn) {
    DistinctItems(t.parts) && forall i :: 0 <= i < |t.parts| ==> t.parts[i].itemId != t.ctx.reasoningId
  }

  predicate Shown(t: Turn, id: Id) {
    (NeedsReasoning(t) && id == t.ctx.reasoningId) || exists i :: 0 <= i < |t.parts| && t.parts[i].itemId == id
  }

  /** The item is the reasoning item or that of the record with its id. */
  predicate IsItemOf(t: Turn, item: OutItem) {
    (NeedsReasoning(t) && item == ReasoningItem(t)) || exists i :: 0 <= i < |t.parts| && item == ItemOf(t.parts[i])
  }

  lemma TableIs(t: Turn)
    requires Distinct(t)
    ensures var table := ItemTable(t);
            && OwnEntries(table) && (forall id :: id in table <==> Shown(t, id)) && forall id :: id in table ==> IsItemOf(t, table[id])
    ensures NeedsReasoning(t) ==> t.ctx.reasoningId in ItemTable(t) && ItemTable(t)[t.ctx.reasoningId] == ReasoningItem(t)
  {
    hide NeedsReasoning, PartTable, DistinctItems;
    var table := ItemTable(t);
    PartTableHolds(t.parts, if NeedsReasoning(t) then map[t.ctx.reasoningId := ReasoningItem(t)] else map[]);
    forall id
      ensures id in table <==> Shown(t, id)
      ensures id in table ==> table[id].id == id && IsItemOf(t, table[id])
    {
      if i :| 0 <= i < |t.parts| && t.parts[i].itemId == id {
        assert table[id] == ItemOf(t.parts[i]);
      }
    }
  }

  lemma NothingPicked(table: map<Id, OutItem>)
    ensures PickedFrom(Picked([], {}), table)
  {
  }

  lemma ReasoningPicked(q: Picked, t: Turn, table: map<Id, OutItem>)
    requires PickedFrom(q, table) && (NeedsReasoning(t) ==> t.ctx.reasoningId in table && table[t.ctx.reasoningId] == ReasoningItem(t))
    ensures PickedFrom(PickReasoning(q, t), table)
    ensures forall x :: x in PickReasoning(q, t).used <==> x in q.used || (NeedsReasoning(t) && x == t.ctx.reasoningId)
  {
    hide PickedFrom, NeedsReasoning;
    if NeedsReasoning(t) && t.ctx.reasoningId !in q.used {
      PickFirst(q, ReasoningItem(t), table);
      PickLast(q, ReasoningItem(t), table);
    }
  }

  /**
   * Whatever output order a turn comes with: every record and a needed reasoning item are listed
   * exactly once and nothing else is. A reasoning item that the order does not name comes first if it
   * has a summary, and otherwise after exactly the items the order names.
   */
  lemma ListedOnce(t: Turn)
    requires Distinct(t)
    ensures var items := OutputItems(t);
            && (forall i :: 0 <= i < |items| ==> IsItemOf(t, items[i]))
            && (forall id :: Shown(t, id) ==> exists i :: 0 <= i < |items| && items[i].id == id)
            && (forall i, j :: 0 <= i < j < |items| ==> items[i].id != items[j].id)
    ensures NeedsReasoning(t) && t.ctx.reasoningId !in t.outputOrder ==> LateReasoning(t)
  {
    hide NeedsReasoning, PickedFrom, ItemTable, PickAll, Shown, IsItemOf, Distinct, OwnEntries;
    var table := ItemTable(t);
    TableIs(t);
    NothingPicked(table);
    PicksAll(Picked([], {}), t.outputOrder, table);
    var ordered := PickAll(Picked([], {}), t.outputOrder, table);
    ReasoningPicked(ordered, t, table);
    var middle := PickReasoning(ordered, t);
    PicksAll(middle, ItemIds(t.parts), table);
    var all := PickAll(middle, ItemIds(t.parts), table);
    PickedEach(all, table);
    PickedEach(ordered, table);
    forall id | Shown(t, id)
      ensures id in all.used
    {
      ShownIsNamed(t, id);
    }
    if NeedsReasoning(t) && t.ctx.reasoningId !in t.outputOrder {
      var at := if t.thoughtSummary != "" then 0 else |ordered.items|;
      assert middle.items[at] == ReasoningItem(t) && all.items[at] == ReasoningItem(t);
      forall i | 0 <= i < |ordered.items|
        ensures ordered.items[i].id in t.outputOrder
      {
      }
      if t.thoughtSummary == "" {
        assert ordered.items <= all.items;
        forall i | 0 <= i < at
          ensures all.items[i].id in t.outputOrder
        {
          assert all.items[i] == ordered.items[i];
        }
        forall i | at < i < |all.items|
          ensures all.items[i].id !in t.outputOrder
        {
          LaterUnnamed(ordered, all, at, i);
        }
      }
      assert ReasoningAt(t, at);
    }
  }

  lemma LaterUnnamed(ordered: Picked, all: Picked, at: nat, i: nat)
    requires at == |ordered.items| && ordered.items <= all.items && at < i < |all.items|
    requires forall i, j :: 0 <= i < j < |all.items| ==> all.items[i].id != all.items[j].id
    ensures forall j :: 0 <= j < |ordered.items| ==> ordered.items[j].id != all.items[i].id
  {
    assert forall j :: 0 <= j < |ordered.items| ==> all.items[j] == ordered.items[j];
  }

  predicate ReasoningAt(t: Turn, at: nat) {
    at < |OutputItems(t)| && OutputItems(t)[at] == ReasoningItem(t)
  }

  predicate LateReasoning(t: Turn) {
    var items := OutputItems(t);
    if t.thoughtSummary != "" then ReasoningAt(t, 0)
    else exists at :: 0 <= at < |items| && ReasoningAt(t, at) && forall i :: 0 <= i < |items| && i != at ==> (i < at <==> items[i].id in t.outputOrder)
  }

  lemma PickedEach(q: Picked, table: map<Id, OutItem>)
    requires PickedFrom(q, table)
    ensures forall i :: 0 <= i < |q.items| ==> q.items[i].id in table && q.items[i] == table[q.items[i].id] && q.items[i].id in q.used
    ensures forall x :: x in q.used ==> exists i :: 0 <= i < |q.items| && q.items[i].id == x
    ensures forall i, j :: 0 <= i < j < |q.items| ==> q.items[i].id != q.items[j].id
  {
  }

  lemma ShownIsNamed(t: Turn, id: Id)
    requires Shown(t, id)
    ensures (NeedsReasoning(t) && id == t.ctx.reasoningId) || id in ItemIds(t.parts)
  {
    if i :| 0 <= i < |t.parts| && t.parts[i].itemId == id {
      assert ItemIds(t.parts)[i] == id;
    }
  }
}
