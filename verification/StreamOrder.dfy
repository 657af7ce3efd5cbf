/** The order of the events of each output item: every item passes through its stages, at one index. */
module StreamOrder {
  import opened Core
  import opened Turns
  import opened Outputs
  import opened Streams
  import opened StreamLaws
  import opened StreamEnd

  /** How far the client has been told about an item; `k` is its output index. */
  datatype Stage =
    | Unseen
    | Announced(k: nat)
    | Opened(k: nat)
    | TextEnded(k: nat)
    | PartEnded(k: nat)
    | ArgsEnded(k: nat)
    | Done(k: nat)
    | OutOfOrder

  function Only(e: bool, next: Stage): Stage {
    if e then next else OutOfOrder
  }

  /** A message without text may be completed at once; every other message opens and closes its part. */
  function Completing(st: Stage, k: nat, item: OutItem): Stage {
    match item
    case ReasoningOut(_, _, _) => Only(st == Announced(k), Done(k))
    case CallOut(_, _, _, _, _, _) => Only(st == ArgsEnded(k), Done(k))
    case MessageOut(_, text, _) => Only(st == PartEnded(k) || (st == Announced(k) && text == ""), Done(k))
  }

  /** What an event does to the stage of the item with this id. */
  function Next(st: Stage, e: Event, id: Id): Stage {
    match e
    case ItemAdded(k, item) => if item.id == id then Only(st == Unseen, Announced(k)) else st
    case PartAdded(k, x) => if x == id then Only(st == Announced(k), Opened(k)) else st
    case TextDelta(k, x, _) => if x == id then Only(st == Opened(k), st) else st
    case TextDone(k, x, _) => if x == id then Only(st == Opened(k), TextEnded(k)) else st
    case PartDone(k, x, _) => if x == id then Only(st == TextEnded(k), PartEnded(k)) else st
    case ReasoningDelta(k, x, _) => if x == id then Only(st == Announced(k), st) else st
    case ArgsDone(k, x, _, _, _, _) => if x == id then Only(st == Announced(k), ArgsEnded(k)) else st
    case ItemDone(k, item) => if item.id == id then Completing(st, k, item) else st
    case _ => st
  }

  function StageOf(es: seq<Event>, id: Id): Stage {
    if es == [] then Unseen else Next(StageOf(es[..|es| - 1], id), es[|es| - 1], id)
  }

  lemma StageSnoc(es: seq<Event>, e: Event, id: Id)
    ensures StageOf(es + [e], id) == Next(StageOf(es, id), e, id)
  {
    assert (es + [e])[..|es|] == es;
  }

  lemma StageTwo(es: seq<Event>, a: Event, b: Event, id: Id)
    ensures StageOf(es + [a, b], id) == Next(Next(StageOf(es, id), a, id), b, id)
  {
    hide StageOf, Next;
    StageSnoc(es, a, id);
    StageSnoc(es + [a], b, id);
    assert es + [a] + [b] == es + [a, b];
  }

  lemma StageThree(es: seq<Event>, a: Event, b: Event, c: Event, id: Id)
    ensures StageOf(es + [a, b, c], id) == Next(Next(Next(StageOf(es, id), a, id), b, id), c, id)
  {
    hide StageOf, Next;
    StageTwo(es, a, b, id);
    StageSnoc(es + [a, b], c, id);
    assert es + [a, b] + [c] == es + [a, b, c];
  }

  // ----- the stage each item is due to have

  function FindItem(parts: seq<Record>, id: Id): (r: Option<nat>)
    ensures r.Some? ==> r.value < |parts| && parts[r.value].itemId == id
    ensures r.None? ==> forall i :: 0 <= i < |parts| ==> parts[i].itemId != id
  {
    if parts == [] then None
    else if parts[|parts| - 1].itemId == id then Some(|parts| - 1)
    else FindItem(parts[..|parts| - 1], id)
  }

  lemma FindSnoc(parts: seq<Record>, r: Record, id: Id)
    ensures FindItem(parts + [r], id) == if r.itemId == id then Some(|parts|) else FindItem(parts, id)
  {
    assert (parts + [r])[..|parts|] == parts;
  }

  lemma {:induction false} FindUpdate(parts: seq<Record>, k: nat, r: Record, id: Id)
    requires k < |parts| && r.itemId == parts[k].itemId
    ensures FindItem(parts[k := r], id) == FindItem(parts, id)
  {
    var n := |parts| - 1;
    if k < n {
      assert parts[k := r][..n] == parts[..n][k := r];
      FindUpdate(parts[..n], k, r, id);
    } else {
      assert parts[k := r][..n] == parts[..n];
    }
  }

  lemma FindIs(parts: seq<Record>, i: nat)
    requires DistinctItems(parts) && i < |parts|
    ensures FindItem(parts, parts[i].itemId) == Some(i)
  {
  }

  function Due(d: Draft, i: nat): Stage
    requires i < |d.parts|
  {
    if d.parts[i].CallRec? then Announced(OrderPos(d, i))
    else if d.open && i == |d.parts| - 1 then Opened(OrderPos(d, i))
    else Done(OrderPos(d, i))
  }

  /** While the stream runs: calls and thoughts are announced, closed texts completed, the last text may be open. */
  function DueOf(d: Draft, id: Id): Stage {
    match FindItem(d.parts, id)
    case Some(i) => Due(d, i)
    case None => if id == d.ctx.reasoningId && d.thoughtAt.Some? then Announced(d.thoughtAt.value) else Unseen
  }

  ghost predicate Staged(d: Draft, es: seq<Event>) {
    forall id {:trigger StageOf(es, id)} :: StageOf(es, id) == DueOf(d, id)
  }

  lemma ReasoningIsNoItem(d: Draft)
    requires WF(d)
    ensures FindItem(d.parts, d.ctx.reasoningId) == None && DistinctItems(d.parts)
  {
    DistinctIds(d);
  }

  // ----- every step keeps the order

  lemma FlushStaged(s: Stream)
    requires Inv(s) && Staged(s.draft, s.events)
    ensures Staged(FlushMsg(s).draft, FlushMsg(s).events)
  {
    hide AllTold, CallsIndexed, Listed, StageOf, Next, FindItem, WF;
    OpenRecord(s.draft);
    if s.msgStarted {
      MessageStaged(s.draft, s.events, s.msgIndex);
    }
  }

  lemma MessageWalk(es: seq<Event>, index: nat, r: Record, id: Id)
    requires r.TextRec?
    ensures StageOf(es + MessageDone(index, r), id) ==
            if id != r.itemId then StageOf(es, id) else Only(StageOf(es, id) == Opened(index), Done(index))
  {
    hide StageOf;
    var m := MessageDone(index, r);
    StageThree(es, m[0], m[1], m[2], id);
    assert m == [m[0], m[1], m[2]];
  }

  lemma MessageStaged(d: Draft, es: seq<Event>, index: nat)
    requires WF(d) && d.open && Staged(d, es) && index == OrderPos(d, |d.parts| - 1)
    ensures d.parts != [] && Staged(Close(d), es + MessageDone(index, d.parts[|d.parts| - 1]))
  {
    hide StageOf, WF, OrderPos, MessageDone, FindItem;
    OpenRecord(d);
    var r := d.parts[|d.parts| - 1];
    var m := MessageDone(index, r);
    ReasoningIsNoItem(d);
    FindIs(d.parts, |d.parts| - 1);
    SamePlaces(d, Close(d));
    forall id {:trigger StageOf(es + m, id)}
      ensures StageOf(es + m, id) == DueOf(Close(d), id)
    {
      MessageWalk(es, index, r, id);
      assert StageOf(es, id) == DueOf(d, id);
    }
  }

  lemma ThoughtStaged(s0: Stream, p: Part)
    requires Inv(s0) && Staged(s0.draft, s0.events) && p.thought
    ensures Staged(OnPart(s0, p).draft, OnPart(s0, p).events)
  {
    hide AllTold, CallsIndexed, StageOf, FindItem, WF, FlushMsg, IndexedInOrder, ReasoningText, AddedIds;
    var s := FlushMsg(s0);
    FlushKeeps(s0);
    FlushStaged(s0);
    OpenRecord(s.draft);
    ReasoningIsNoItem(s.draft);
    var s1, s2 := StartReasoning(s), OnThought(s0, p);
    var rs := s.draft.ctx.reasoningId;
    forall id {:trigger StageOf(s2.events, id)}
      ensures StageOf(s2.events, id) == DueOf(s2.draft, id)
    {
      assert StageOf(s.events, id) == DueOf(s.draft, id);
      StageSnoc(s.events, ItemAdded(s.outputIndex, ReasoningStub(rs)), id);
      StageSnoc(s1.events, ReasoningDelta(s1.reasoningIndex, rs, p.text), id);
      assert s1.events + [] == s1.events;
    }
  }

  lemma CallStaged(s0: Stream, p: Part)
    requires Inv(s0) && Staged(s0.draft, s0.events) && !p.thought && p.call.Some?
    ensures Staged(OnPart(s0, p).draft, OnPart(s0, p).events)
  {
    hide Inv, StageOf, FlushMsg, Step, Staged;
    var s := FlushMsg(s0);
    FlushKeeps(s0);
    FlushStaged(s0);
    match FindUpstream(s.draft.parts, p.call.value.id)
    case Some(i) =>
      RepeatedCallKeeps(s, p, i);
      RepeatedCallStaged(s, p, i);
    case None =>
      NewCallKeeps(s, p);
      NewCallStaged(s, p);
  }

  lemma RepeatedCallStaged(s: Stream, p: Part, i: nat)
    requires Inv(s) && Staged(s.draft, s.events) && !p.thought && p.call.Some? && FindUpstream(s.draft.parts, p.call.value.id) == Some(i)
    requires !s.draft.open
    ensures Staged(Step(s.draft, p), s.events)
  {
    hide Inv, StageOf, FindItem, FindUpstream, OrderPos;
    var d, r := s.draft, MergeCall(s.draft.parts[i], p.call.value, p.sig);
    forall id {:trigger StageOf(s.events, id)}
      ensures StageOf(s.events, id) == DueOf(Step(d, p), id)
    {
      FindUpdate(d.parts, i, r, id);
      SamePlaces(d, Step(d, p));
    }
  }

  lemma SamePlaces(d: Draft, d': Draft)
    requires d'.thoughtAt == d.thoughtAt
    ensures forall i :: OrderPos(d', i) == OrderPos(d, i)
  {
  }

  lemma NewCallStaged(s: Stream, p: Part)
    requires Inv(s) && Staged(s.draft, s.events) && !p.thought && p.call.Some? && FindUpstream(s.draft.parts, p.call.value.id) == None
    requires !s.draft.open
    ensures Staged(Step(s.draft, p), s.events + [ItemAdded(s.outputIndex, CallStub(NewCall(s.draft, p.call.value, p.sig)))])
  {
    hide AllTold, CallsIndexed, StageOf, FindItem, FindUpstream, WF, IndexedInOrder, ReasoningText, AddedIds;
    var d, d', r := s.draft, Step(s.draft, p), NewCall(s.draft, p.call.value, p.sig);
    var e := ItemAdded(s.outputIndex, CallStub(r));
    OpenRecord(d);
    StepKeepsWF(d, p);
    NewItem(d, d', r);
    forall id {:trigger StageOf(s.events + [e], id)}
      ensures StageOf(s.events + [e], id) == DueOf(d', id)
    {
      assert StageOf(s.events, id) == DueOf(d, id);
      StageSnoc(s.events, e, id);
      FindSnoc(d.parts, r, id);
    }
  }

  lemma NewItem(d: Draft, d': Draft, r: Record)
    requires WF(d') && d'.parts == d.parts + [r] && d'.ctx == d.ctx
    ensures FindItem(d.parts, r.itemId) == None && r.itemId != d.ctx.reasoningId
  {
    hide WF, FindItem;
    DistinctIds(d');
    var n := |d.parts|;
    assert d'.parts[n] == r && forall i :: 0 <= i < n ==> d'.parts[i] == d.parts[i];
    assert forall i :: 0 <= i < n ==> d'.parts[i].itemId != d'.parts[n].itemId;
  }

  lemma NewTextStaged(s: Stream, p: Part)
    requires Inv(s) && Staged(s.draft, s.events) && !s.msgStarted && !p.thought && p.call.None? && p.text != ""
    ensures Staged(OnText(s, p).draft, OnText(s, p).events)
  {
    hide AllTold, CallsIndexed, StageOf, FindItem, WF, IndexedInOrder, ReasoningText, AddedIds;
    var d, d', r := s.draft, Step(s.draft, p), NewText(s.draft, p.text, p.sig);
    var k, id0 := s.outputIndex, r.itemId;
    OpenRecord(d);
    StepKeepsWF(d, p);
    NewItem(d, d', r);
    var es' := s.events + [ItemAdded(k, MessageStub(id0)), PartAdded(k, id0), TextDelta(k, id0, p.text)];
    assert OnText(s, p).events == es';
    forall id {:trigger StageOf(es', id)}
      ensures StageOf(es', id) == DueOf(d', id)
    {
      assert StageOf(s.events, id) == DueOf(d, id);
      StageThree(s.events, ItemAdded(k, MessageStub(id0)), PartAdded(k, id0), TextDelta(k, id0, p.text), id);
      FindSnoc(d.parts, r, id);
    }
  }

  lemma GrowStaged(s: Stream, p: Part)
    requires Inv(s) && Staged(s.draft, s.events) && s.msgStarted && CurrentSig(s.draft) == p.sig && !p.thought && p.call.None? && p.text != ""
    ensures Staged(Step(s.draft, p), s.events + [TextDelta(s.msgIndex, CurrentId(s.draft), p.text)])
  {
    hide AllTold, CallsIndexed, StageOf, FindItem, WF, Listed;
    var d, d' := s.draft, Step(s.draft, p);
    var n := |d.parts| - 1;
    OpenRecord(d);
    ReasoningIsNoItem(d);
    FindIs(d.parts, n);
    var e := TextDelta(s.msgIndex, CurrentId(d), p.text);
    forall id {:trigger StageOf(s.events + [e], id)}
      ensures StageOf(s.events + [e], id) == DueOf(d', id)
    {
      assert StageOf(s.events, id) == DueOf(d, id);
      StageSnoc(s.events, e, id);
      FindUpdate(d.parts, n, Grown(d.parts[n], p.text), id);
    }
  }

  lemma TextStaged(s: Stream, p: Part)
    requires Inv(s) && Staged(s.draft, s.events) && !p.thought && p.call.None? && p.text != ""
    ensures Staged(OnPart(s, p).draft, OnPart(s, p).events)
  {
    hide Inv, Staged, FlushMsg, Step;
    assert s.msgStarted == s.draft.open by { StartedIsOpen(s); }
    if s.msgStarted && CurrentSig(s.draft) == p.sig {
      GrowStaged(s, p);
    } else if s.msgStarted {
      FlushKeeps(s);
      FlushStaged(s);
      NewTextStaged(FlushMsg(s), p);
    } else {
      NewTextStaged(s, p);
    }
  }

  lemma StartedIsOpen(s: Stream)
    requires Inv(s)
    ensures s.msgStarted == s.draft.open
  {
  }

  lemma TailStaged(s: Stream, p: Part)
    requires Inv(s) && Staged(s.draft, s.events) && !p.thought && p.call.None? && p.text == ""
    ensures Staged(OnPart(s, p).draft, OnPart(s, p).events)
  {
    hide Inv, StageOf, FindItem, LastText;
    var d := s.draft;
    if p.sig != "" && LastText(d.parts).Some? {
      var i := LastText(d.parts).value;
      forall id {:trigger StageOf(s.events, id)}
        ensures StageOf(s.events, id) == DueOf(Step(d, p), id)
      {
        FindUpdate(d.parts, i, Signed(d.parts[i], p.sig), id);
      }
    }
  }

  /** After every prefix of the parts no event came out of order. */
  lemma {:induction false} RunStaged(ctx: Ctx, ps: seq<Part>)
    requires ctx.Valid()
    ensures Staged(StreamRun(ctx, ps).draft, StreamRun(ctx, ps).events)
  {
    hide Inv, OnPart, Staged;
    if ps == [] {
      assert Staged(Open(ctx).draft, Open(ctx).events) by { OpenStaged(ctx); }
    } else {
      var n := |ps| - 1;
      var s, p := StreamRun(ctx, ps[..n]), ps[n];
      RunKeeps(ctx, ps[..n]);
      RunStaged(ctx, ps[..n]);
      if p.thought {
        ThoughtStaged(s, p);
      } else if p.call.Some? {
        CallStaged(s, p);
      } else if p.text != "" {
        TextStaged(s, p);
      } else {
        TailStaged(s, p);
      }
    }
  }

  lemma OpenStaged(ctx: Ctx)
    ensures Staged(Start(ctx), [Created])
  {
    forall id {:trigger StageOf([Created], id)}
      ensures StageOf([Created], id) == DueOf(Start(ctx), id)
    {
      StageSnoc([], Created, id);
      assert [] + [Created] == [Created];
    }
  }

  // ----- the end of the stream

  /** The stage after the first `n` records were looked through for calls to complete. */
  function DueAfter(d: Draft, n: nat, id: Id): Stage {
    match FindItem(d.parts, id)
    case Some(i) => if i < n && d.parts[i].CallRec? then Done(OrderPos(d, i)) else Due(d, i)
    case None => DueOf(d, id)
  }

  lemma {:induction false} CallsStaged(d: Draft, es: seq<Event>, indexes: map<Id, nat>, n: nat)
    requires Staged(d, es) && CallsIndexed(d, indexes) && DistinctItems(d.parts) && n <= |d.parts|
    ensures forall id {:trigger DueAfter(d, n, id)} :: StageOf(es + CallsDone(d.parts[..n], indexes), id) == DueAfter(d, n, id)
  {
    hide StageOf, Next, FindItem, CallDone, DistinctItems, OrderPos, Due;
    if n == 0 {
      assert es + CallsDone(d.parts[..0], indexes) == es;
    } else {
      CallsStaged(d, es, indexes, n - 1);
      assert d.parts[..n][..n - 1] == d.parts[..n - 1];
      forall id {:trigger DueAfter(d, n, id)}
        ensures StageOf(es + CallsDone(d.parts[..n], indexes), id) == DueAfter(d, n, id)
      {
        assert StageOf(es + CallsDone(d.parts[..n - 1], indexes), id) == DueAfter(d, n - 1, id);
        FindIs(d.parts, n - 1);
        if d.parts[n - 1].CallRec? {
          CallStagedOne(d, es + CallsDone(d.parts[..n - 1], indexes), indexes, n - 1, id);
          assert es + CallsDone(d.parts[..n], indexes) ==
                 es + CallsDone(d.parts[..n - 1], indexes) + CallDone(indexes[d.parts[n - 1].callId], d.parts[n - 1]);
        } else {
          assert es + CallsDone(d.parts[..n], indexes) == es + CallsDone(d.parts[..n - 1], indexes);
        }
      }
    }
  }

  lemma CallStagedOne(d: Draft, es: seq<Event>, indexes: map<Id, nat>, n: nat, id: Id)
    requires CallsIndexed(d, indexes) && n < |d.parts| && d.parts[n].CallRec? && StageOf(es, id) == DueAfter(d, n, id)
    requires FindItem(d.parts, d.parts[n].itemId) == Some(n)
    ensures d.parts[n].callId in indexes
    ensures StageOf(es + CallDone(indexes[d.parts[n].callId], d.parts[n]), id) == DueAfter(d, n + 1, id)
  {
    hide StageOf, FindItem, OrderPos;
    var m := CallDone(indexes[d.parts[n].callId], d.parts[n]);
    StageTwo(es, m[0], m[1], id);
    assert m == [m[0], m[1]];
  }

  /** Every record is completed; the reasoning item is as before. */
  function ClosedOf(d: Draft, id: Id): Stage {
    match FindItem(d.parts, id)
    case Some(i) => Done(OrderPos(d, i))
    case None => DueOf(d, id)
  }

  lemma LastStaged(s: Stream)
    requires Inv(s) && Staged(s.draft, s.events)
    ensures forall id {:trigger ClosedOf(Close(s.draft), id)} :: StageOf(FlushMsg(AfterCalls(s)).events, id) == ClosedOf(Close(s.draft), id)
  {
    hide AllTold, Listed, StageOf, FindItem, WF, CallsDone, MessageDone, CallsIndexed, Due, OrderPos;
    var d := s.draft;
    ReasoningIsNoItem(d);
    OpenRecord(d);
    SamePlaces(d, Close(d));
    CallsStaged(d, s.events, s.fcIndexes, |d.parts|);
    assert d.parts[..|d.parts|] == d.parts;
    var es := AfterCalls(s).events;
    forall id {:trigger ClosedOf(Close(d), id)}
      ensures StageOf(FlushMsg(AfterCalls(s)).events, id) == ClosedOf(Close(d), id)
    {
      assert StageOf(es, id) == DueAfter(d, |d.parts|, id);
      if d.open {
        LastMessageStaged(d, es, s.msgIndex, id);
      } else {
        AllClosed(d, id);
      }
    }
  }

  lemma AllClosed(d: Draft, id: Id)
    requires !d.open
    ensures DueAfter(d, |d.parts|, id) == ClosedOf(d, id)
  {
  }

  lemma LastMessageStaged(d: Draft, es: seq<Event>, index: nat, id: Id)
    requires WF(d) && d.open && index == OrderPos(d, |d.parts| - 1) && StageOf(es, id) == DueAfter(d, |d.parts|, id)
    ensures d.parts != [] && StageOf(es + MessageDone(index, d.parts[|d.parts| - 1]), id) == ClosedOf(Close(d), id)
  {
    hide StageOf, WF, OrderPos, FindItem, MessageDone;
    OpenRecord(d);
    ReasoningIsNoItem(d);
    FindIs(d.parts, |d.parts| - 1);
    SamePlaces(d, Close(d));
    MessageWalk(es, index, d.parts[|d.parts| - 1], id);
  }

  /** Where the finished stream leaves each id. */
  function FinalStage(d: Draft, id: Id): Stage {
    match FindItem(d.parts, id)
    case Some(i) => Done(OrderPos(d, i))
    case None =>
      if id != d.ctx.reasoningId then Unseen
      else if NeedsReasoning(TurnOf(d)) then Done(if d.thoughtAt.Some? then d.thoughtAt.value else |d.parts|)
      else if d.thoughtAt.Some? then Announced(d.thoughtAt.value)
      else Unseen
  }

  lemma ReasoningStaged(s: Stream, d: Draft, id: Id)
    requires d.ctx == s.draft.ctx && FindItem(d.parts, d.ctx.reasoningId) == None && StageOf(s.events, id) == ClosedOf(d, id)
    requires s.reasoningStarted == d.thoughtAt.Some? && (s.reasoningStarted ==> s.reasoningIndex == d.thoughtAt.value)
    requires !s.reasoningStarted ==> s.outputIndex == |d.parts|
    ensures StageOf(EndReasoning(s, TurnOf(d)).events, id) == FinalStage(d, id)
  {
    hide StageOf, FindItem, NeedsReasoning, TurnOf, OrderPos;
    var t, rs := TurnOf(d), d.ctx.reasoningId;
    var s1 := StartReasoning(s);
    assert t.ctx == d.ctx by { TurnCtx(d); }
    StageSnoc(s.events, ItemAdded(s.outputIndex, ReasoningStub(rs)), id);
    StageSnoc(s1.events, ItemDone(s1.reasoningIndex, DoneReasoning(t)), id);
  }

  lemma EndedStaged(s: Stream, id: Id)
    requires Inv(s) && Staged(s.draft, s.events) && (s.draft.parts != [] || s.draft.thoughtAt.Some?)
    ensures StageOf(Ended(s).events, id) == FinalStage(Final(s.draft), id)
  {
    hide Inv, WF, StageOf, FindItem, EndReasoning, Staged, FinalStage, TurnOf, Ended;
    var d, s1 := Close(s.draft), FlushMsg(AfterCalls(s));
    LastStaged(s);
    assert StageOf(s1.events, id) == ClosedOf(d, id);
    EndedUnfolds(s);
    CountersAtEnd(s);
    ReasoningStaged(s1, d, id);
  }

  lemma CountersAtEnd(s: Stream)
    requires Inv(s)
    ensures var d, s1 := Close(s.draft), FlushMsg(AfterCalls(s));
            && d.ctx == s1.draft.ctx && FindItem(d.parts, d.ctx.reasoningId) == None
            && s1.reasoningStarted == d.thoughtAt.Some? && (s1.reasoningStarted ==> s1.reasoningIndex == d.thoughtAt.value)
            && (!s1.reasoningStarted ==> s1.outputIndex == |d.parts|)
  {
    hide AllTold, CallsIndexed, FindItem, WF, IndexedInOrder, ReasoningText, AddedIds, CallsDone, MessageDone;
    ReasoningIsNoItem(s.draft);
    OpenRecord(s.draft);
  }

  lemma EmptyStaged(s: Stream, id: Id)
    requires Inv(s) && Staged(s.draft, s.events) && s.draft.parts == [] && s.draft.thoughtAt.None?
    ensures StageOf(Ended(s).events, id) == FinalStage(Final(s.draft), id)
  {
    hide AllTold, CallsIndexed, StageOf, IndexedInOrder, ReasoningText, AddedIds;
    var d := Final(s.draft);
    var x := d.parts[0].itemId;
    EmptyTurn(s.draft);
    assert StageOf(s.events, id) == DueOf(s.draft, id) == Unseen;
    assert Ended(s).events == s.events + [ItemAdded(0, MessageStub(x)), ItemDone(0, MessageStub(x))] by { EmptyEvents(s); }
    StageTwo(s.events, ItemAdded(0, MessageStub(x)), ItemDone(0, MessageStub(x)), id);
    assert FindItem(d.parts, id) == if x == id then Some(0) else None;
  }

  lemma EmptyEvents(s: Stream)
    requires Inv(s) && s.draft.parts == [] && s.draft.thoughtAt.None?
    ensures var x := Final(s.draft).parts[0].itemId;
            Ended(s).events == s.events + [ItemAdded(0, MessageStub(x)), ItemDone(0, MessageStub(x))]
  {
    hide AllTold, CallsIndexed, IndexedInOrder, ReasoningText;
    var x := Final(s.draft).parts[0].itemId;
    EmptyTurn(s.draft);
    assert s.events + [] == s.events;
    assert s.events + [ItemAdded(0, MessageStub(x))] + [ItemDone(0, MessageStub(x))] ==
           s.events + [ItemAdded(0, MessageStub(x)), ItemDone(0, MessageStub(x))];
  }

  /**
   * No event of a stream ever comes out of order. Each item is announced once; a message opens its
   * part, sends its deltas, ends the text and the part, and is completed; a call ends its arguments
   * and is completed; a reasoning item sends its deltas and is completed; and all events of an item
   * carry the index that announced it. At the end every record of the turn is completed at its
   * place, and so is the reasoning item if the turn keeps it.
   */
  lemma EventsInOrder(ctx: Ctx, ps: seq<Part>, id: Id)
    requires ctx.Valid()
    ensures StageOf(Ended(StreamRun(ctx, ps)).events, id) == FinalStage(Final(Run(ctx, ps)), id)
    ensures StageOf(Ended(StreamRun(ctx, ps)).events, id) != OutOfOrder
  {
    hide Inv, Staged, StageOf, Ended, StreamRun;
    var s := StreamRun(ctx, ps);
    RunKeeps(ctx, ps);
    RunStaged(ctx, ps);
    StreamingDraft(ctx, ps);
    if s.draft.parts == [] && s.draft.thoughtAt.None? {
      EmptyStaged(s, id);
    } else {
      EndedStaged(s, id);
    }
  }
}
