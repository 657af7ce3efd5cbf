/** What a client has seen when a stream ends well, for every part sequence. */
module StreamEnd {
  import opened Core
  import opened Turns
  import opened Accumulators
  import opened Outputs
  import opened Streams
  import opened StreamLaws
  import TurnLaws
  import Decoder

  function OutIds(items: seq<OutItem>): (ids: seq<Id>)
    ensures |ids| == |items| && forall i :: 0 <= i < |items| ==> ids[i] == items[i].id
  {
    seq(|items|, i requires 0 <= i < |items| => items[i].id)
  }

  /** The events told everything about a finished record, once, at its output index. */
  predicate FullyTold(r: Record, pos: nat, t: Trace) {
    match r
    case CallRec(_, id, callId, _, name, args, sig) =>
      var (namespace, bare) := SplitWireName(name);
      t == Trace("", [], [ArgsDone(pos, id, callId, namespace, bare, args)], [(pos, CallOut(id, callId, namespace, bare, args, sig))])
    case TextRec(_, id, text, _) =>
      && t.deltas == text && t.textsDone == (if text == "" then [] else [text]) && t.argsDone == []
      && |t.itemsDone| == 1 && t.itemsDone[0].0 == pos
      && t.itemsDone[0].1.MessageOut? && t.itemsDone[0].1.id == id && t.itemsDone[0].1.text == text
  }

  predicate FinishedAt(d: Draft, es: seq<Event>, i: nat)
    requires i < |d.parts|
  {
    FullyTold(d.parts[i], OrderPos(d, i), TraceOf(es, d.parts[i].itemId))
  }

  ghost predicate AllFinished(d: Draft, es: seq<Event>) {
    && (forall i {:trigger FinishedAt(d, es, i)} :: 0 <= i < |d.parts| ==> FinishedAt(d, es, i))
    && (forall id :: id !in ItemSet(d.parts) && id != d.ctx.reasoningId ==> TraceOf(es, id) == SILENT)
  }

  /** Reasoning was announced only if the finished turn keeps its reasoning item. */
  predicate ReasoningKept(d: Draft) {
    d.thoughtAt.Some? ==> NeedsReasoning(TurnOf(d))
  }

  // ----- completing the calls

  lemma {:induction false} CallsDoneHeard(es: seq<Event>, parts: seq<Record>, indexes: map<Id, nat>)
    requires DistinctItems(parts)
    requires forall i :: 0 <= i < |parts| && parts[i].CallRec? ==> parts[i].callId in indexes && TraceOf(es, parts[i].itemId) == SILENT
    ensures var es' := es + CallsDone(parts, indexes);
            && AddedIds(es') == AddedIds(es)
            && (IndexedInOrder(es') <==> IndexedInOrder(es))
            && ReasoningText(es') == ReasoningText(es)
            && (forall i :: 0 <= i < |parts| && parts[i].CallRec? ==>
                  var k := indexes[parts[i].callId];
                  TraceOf(es', parts[i].itemId) == Trace("", [], [CallDone(k, parts[i])[0]], [(k, ItemOf(parts[i]))]))
            && (forall id :: (forall i :: 0 <= i < |parts| && parts[i].CallRec? ==> parts[i].itemId != id) ==>
                  TraceOf(es', id) == TraceOf(es, id))
  {
    hide AddedIds, IndexedInOrder, ReasoningText, TraceOf, CallDone, ItemOf;
    if parts == [] {
      assert es + CallsDone(parts, indexes) == es;
    } else {
      var n := |parts| - 1;
      var r := parts[n];
      CallsDoneHeard(es, parts[..n], indexes);
      var before := es + CallsDone(parts[..n], indexes);
      assert forall i :: 0 <= i < n ==> parts[i] == parts[..n][i];
      if r.CallRec? {
        CallDoneHeard(before, indexes[r.callId], r);
        assert es + CallsDone(parts, indexes) == before + CallDone(indexes[r.callId], r);
        assert TraceOf(before, r.itemId) == SILENT;
      } else {
        assert es + CallsDone(parts, indexes) == before;
      }
    }
  }

  function AfterCalls(s: Stream): Stream {
    s.(events := s.events + CallsDone(s.draft.parts, s.fcIndexes))
  }

  lemma CallTold(r: Record, pos: nat, t: Trace)
    requires r.CallRec?
    ensures FullyTold(r, pos, t) <==> t == Trace("", [], [CallDone(pos, r)[0]], [(pos, ItemOf(r))])
  {
    hide SplitWireName;
  }

  /** After completing the calls, only an open text is left unfinished. */
  lemma CallsFinished(s: Stream, i: nat)
    requires Inv(s) && i < |s.draft.parts| && !(s.draft.open && i == |s.draft.parts| - 1)
    requires s.draft.parts[i].TextRec? ==> s.draft.parts[i].text != ""
    ensures FinishedAt(s.draft, AfterCalls(s).events, i)
  {
    hide WF, Listed, TraceOf, CallsDone, OrderPos, ItemSet;
    Calls(s);
    assert ToldAt(s.draft, s.events, i);
    if s.draft.parts[i].CallRec? {
      CallTold(s.draft.parts[i], OrderPos(s.draft, i), TraceOf(AfterCalls(s).events, s.draft.parts[i].itemId));
    }
  }

  lemma Calls(s: Stream)
    requires Inv(s)
    ensures var d, es' := s.draft, AfterCalls(s).events;
            && AddedIds(es') == Order(d) && IndexedInOrder(es') && ReasoningText(es') == d.thought
            && (forall i :: 0 <= i < |d.parts| && d.parts[i].CallRec? ==>
                  TraceOf(es', d.parts[i].itemId) ==
                  Trace("", [], [CallDone(OrderPos(d, i), d.parts[i])[0]], [(OrderPos(d, i), ItemOf(d.parts[i]))]))
            && (forall i :: 0 <= i < |d.parts| && d.parts[i].TextRec? ==>
                  TraceOf(es', d.parts[i].itemId) == TraceOf(s.events, d.parts[i].itemId))
            && (forall id :: id !in ItemSet(d.parts) ==> TraceOf(es', id) == SILENT)
  {
    hide WF, TraceOf, CallsDone, OrderPos, ItemSet, CallDone, ItemOf, AddedIds, IndexedInOrder, ReasoningText, Order;
    var d := s.draft;
    DistinctIds(d);
    forall i | 0 <= i < |d.parts| && d.parts[i].CallRec?
      ensures TraceOf(s.events, d.parts[i].itemId) == SILENT
    {
      assert ToldAt(d, s.events, i);
    }
    CallsDoneHeard(s.events, d.parts, s.fcIndexes);
    forall id | id !in ItemSet(d.parts)
      ensures TraceOf(AfterCalls(s).events, id) == SILENT
    {
      ItemSetMember(d.parts, id);
    }
  }

  // ----- closing the last message

  /** Texts of a draft other than the placeholder are never empty. */
  predicate NoEmptyText(d: Draft) {
    forall i :: 0 <= i < |d.parts| && d.parts[i].TextRec? ==> d.parts[i].text != ""
  }

  lemma StepNoEmptyText(d: Draft, p: Part)
    requires NoEmptyText(d)
    ensures NoEmptyText(Step(d, p))
  {
    hide FindUpstream, LastText, TextCount;
  }

  lemma {:induction false} RunNoEmptyText(ctx: Ctx, ps: seq<Part>)
    ensures NoEmptyText(Run(ctx, ps))
  {
    if ps != [] {
      RunNoEmptyText(ctx, ps[..|ps| - 1]);
      StepNoEmptyText(Run(ctx, ps[..|ps| - 1]), ps[|ps| - 1]);
    }
  }

  lemma LastMessage(s: Stream)
    requires Inv(s) && NoEmptyText(s.draft)
    ensures var s' := FlushMsg(AfterCalls(s));
            && s'.draft == Close(s.draft) && s'.outputIndex == s.outputIndex
            && s'.reasoningStarted == s.reasoningStarted && s'.reasoningIndex == s.reasoningIndex
            && AddedIds(s'.events) == Order(s.draft) && IndexedInOrder(s'.events) && ReasoningText(s'.events) == s.draft.thought
            && (forall id :: id !in ItemSet(s.draft.parts) ==> TraceOf(s'.events, id) == SILENT)
            && AllFinished(Close(s.draft), s'.events)
  {
    hide WF, TraceOf, CallsDone, ItemSet, CallDone, ItemOf, AddedIds, IndexedInOrder, ReasoningText, Order, MessageDone, AfterCalls, FullyTold,
         CallsIndexed;
    var d, s1 := s.draft, AfterCalls(s);
    var s' := FlushMsg(s1);
    Calls(s);
    OpenRecord(d);
    SameButEvents(s);
    if d.open {
      MessageDoneHeard(s1.events, s.msgIndex, d.parts[|d.parts| - 1]);
      ItemSetMember(d.parts, d.parts[|d.parts| - 1].itemId);
    }
    forall i {:trigger FinishedAt(Close(d), s'.events, i)} | 0 <= i < |d.parts|
      ensures FinishedAt(Close(d), s'.events, i)
    {
      if d.open && i == |d.parts| - 1 {
        LastFinished(s);
      } else {
        CallsFinished(s, i);
        OtherTrace(s, i);
      }
    }
  }

  lemma SameButEvents(s: Stream)
    ensures AfterCalls(s).draft == s.draft && AfterCalls(s).outputIndex == s.outputIndex
    ensures AfterCalls(s).msgStarted == s.msgStarted && AfterCalls(s).msgIndex == s.msgIndex
    ensures AfterCalls(s).reasoningStarted == s.reasoningStarted && AfterCalls(s).reasoningIndex == s.reasoningIndex
  {
  }

  lemma OtherTrace(s: Stream, i: nat)
    requires Inv(s) && i < |s.draft.parts| && !(s.draft.open && i == |s.draft.parts| - 1)
    requires FinishedAt(s.draft, AfterCalls(s).events, i)
    ensures FinishedAt(Close(s.draft), FlushMsg(AfterCalls(s)).events, i)
  {
    hide WF, TraceOf, CallsDone, ItemSet, Listed, CallsIndexed, AllTold, FullyTold, MessageDone;
    var d, s1 := s.draft, AfterCalls(s);
    DistinctIds(d);
    OpenRecord(d);
    if d.open {
      MessageDoneHeard(s1.events, s.msgIndex, d.parts[|d.parts| - 1]);
    }
  }

  lemma LastFinished(s: Stream)
    requires Inv(s) && NoEmptyText(s.draft) && s.draft.open && s.draft.parts != []
    ensures FinishedAt(Close(s.draft), FlushMsg(AfterCalls(s)).events, |s.draft.parts| - 1)
  {
    hide WF, TraceOf, CallsDone, ItemSet, Listed, CallsIndexed, MessageDone, CallDone, SplitWireName, AddedIds, IndexedInOrder, ReasoningText, Order;
    var d, s1 := s.draft, AfterCalls(s);
    var n := |d.parts| - 1;
    OpenRecord(d);
    Calls(s);
    MessageDoneHeard(s1.events, s.msgIndex, d.parts[n]);
    assert ToldAt(d, s.events, n);
  }

  // ----- completing the reasoning item

  lemma EndReasoningHeard(s: Stream, t: Turn)
    requires NeedsReasoning(t) && t.ctx == s.draft.ctx
    ensures var s' := EndReasoning(s, t);
            var rs := s.draft.ctx.reasoningId;
            && (forall id :: id != rs ==> TraceOf(s'.events, id) == TraceOf(s.events, id))
            && TraceOf(s'.events, rs) ==
               TraceOf(s.events, rs).(itemsDone := TraceOf(s.events, rs).itemsDone + [(s'.reasoningIndex, DoneReasoning(t))])
            && ReasoningText(s'.events) == ReasoningText(s.events)
            && s'.reasoningIndex == (if s.reasoningStarted then s.reasoningIndex else s.outputIndex)
            && AddedIds(s'.events) == AddedIds(s.events) + (if s.reasoningStarted then [] else [rs])
            && (IndexedInOrder(s'.events) <==> IndexedInOrder(s.events) && (s.reasoningStarted || s.outputIndex == |AddedIds(s.events)|))
            && s'.outputIndex == s.outputIndex + (if s.reasoningStarted then 0 else 1)
  {
    hide TraceOf, AddedIds, ReasoningText, IndexedInOrder, DoneReasoning, NeedsReasoning;
    var s1 := StartReasoning(s);
    Snoc(s.events, ItemAdded(s.outputIndex, ReasoningStub(s.draft.ctx.reasoningId)));
    Snoc(s1.events, ItemDone(s1.reasoningIndex, DoneReasoning(t)));
    DoneReasoningId(t);
    assert forall x: string :: x + "" == x;
  }

  lemma DoneReasoningId(t: Turn)
    ensures DoneReasoning(t).id == t.ctx.reasoningId
  {
  }

  // ----- the finished stream

  /** What the events of a finished stream say about a turn. */
  ghost predicate Complete(d: Draft, es: seq<Event>) {
    && IndexedInOrder(es)
    && (AddedIds(es) == OutIds(FinalItems(d)) <==> ReasoningKept(d))
    && AddedIds(es) == Order(d) + (if NeedsReasoning(TurnOf(d)) && d.thoughtAt.None? then [d.ctx.reasoningId] else [])
    && AllFinished(d, es)
    && (forall i :: 0 <= i < |d.parts| ==> OrderPos(d, i) < |AddedIds(es)| && AddedIds(es)[OrderPos(d, i)] == d.parts[i].itemId)
    && ReasoningText(es) == d.thought
    && ReasoningCompleted(d, es)
  }

  predicate ReasoningCompleted(d: Draft, es: seq<Event>) {
    var t := TraceOf(es, d.ctx.reasoningId);
    if NeedsReasoning(TurnOf(d)) then
      && |t.itemsDone| == 1 && t == SILENT.(itemsDone := t.itemsDone)
      && t.itemsDone[0].0 < |AddedIds(es)| && AddedIds(es)[t.itemsDone[0].0] == d.ctx.reasoningId
      && t.itemsDone[0].1 == ReasoningSaying(d, NO_ID, "")
    else t == SILENT
  }

  /** A reasoning item with everything the turn has to carry: records, signatures, siblings, order, and the thoughts. */
  function ReasoningSaying(d: Draft, turnId: Id, model: string): OutItem {
    ReasoningOut(d.ctx.reasoningId,
                 Some(Carrier(turnId, model, d.parts, ToolSigs(d.parts), Siblings(d.parts), TextSigs(d.parts), Order(d))),
                 d.thought)
  }

  /** The streamed reasoning item carries what the listed one carries, without turn id and model. */
  lemma ReasoningSays(d: Draft)
    ensures DoneReasoning(TurnOf(d)) == ReasoningSaying(d, NO_ID, "")
    ensures Outputs.ReasoningItem(TurnOf(d)) == ReasoningSaying(d, d.ctx.turnId, d.ctx.model)
  {
    hide ToolSigs, TextSigs, Siblings, Order;
  }

  lemma FinalIds(d: Draft)
    requires WF(d)
    ensures OutIds(Items(d.parts)) == ItemIds(d.parts)
    ensures NeedsReasoning(TurnOf(d)) ==>
              OutIds(FinalItems(d)) == if d.thoughtAt.Some? then Order(d) else Order(d) + [d.ctx.reasoningId]
    ensures !NeedsReasoning(TurnOf(d)) ==> OutIds(FinalItems(d)) == ItemIds(d.parts)
    ensures d.thoughtAt.Some? ==> |Order(d)| == |d.parts| + 1
    ensures d.thoughtAt.None? ==> Order(d) == ItemIds(d.parts)
  {
    hide NeedsReasoning, ToolSigs, TextSigs, Siblings, WellIndexed, DistinctUpstream;
  }

  /** A stream with at least one record or thought. */
  lemma EndedWithOutput(s: Stream)
    requires Inv(s) && NoEmptyText(s.draft) && (s.draft.parts != [] || s.draft.thoughtAt.Some?)
    ensures Complete(Final(s.draft), Ended(s).events)
  {
    hide WF, TraceOf, ItemSet, AddedIds, IndexedInOrder, ReasoningText, Order, AfterCalls, NeedsReasoning, FinalItems, Items, DoneReasoning,
         CallsIndexed, FlushMsg, AllTold, EndReasoning, TurnOf, FinishedAt;
    var d := Close(s.draft);
    var t := TurnOf(d);
    var s1 := FlushMsg(AfterCalls(s));
    LastMessage(s);
    OpenRecord(s.draft);
    CloseOrder(s.draft);
    FinalIds(d);
    OrderDistinct(d);
    ReasoningApart(d);
    assert t.ctx == d.ctx by { TurnCtx(d); }
    EndedUnfolds(s);
    ReasoningSays(d);
    if NeedsReasoning(t) {
      EndReasoningHeard(s1, t);
      FinishedElsewhere(d, s1.events, EndReasoning(s1, t).events);
    } else {
      EndReasoningSkipped(s1, t);
    }
  }

  lemma EndReasoningSkipped(s: Stream, t: Turn)
    requires !NeedsReasoning(t)
    ensures EndReasoning(s, t) == s
  {
  }

  lemma CloseOrder(d: Draft)
    ensures Order(Close(d)) == Order(d)
  {
  }

  lemma TurnCtx(d: Draft)
    ensures TurnOf(d).ctx == d.ctx
  {
  }

  lemma ReasoningApart(d: Draft)
    requires WF(d)
    ensures d.ctx.reasoningId !in ItemSet(d.parts)
  {
    DistinctIds(d);
    ItemSetMember(d.parts, d.ctx.reasoningId);
  }

  lemma EndedUnfolds(s: Stream)
    requires Inv(s) && (s.draft.parts != [] || s.draft.thoughtAt.Some?)
    ensures Final(s.draft) == Close(s.draft)
    ensures Ended(s).events == EndReasoning(FlushMsg(AfterCalls(s)), TurnOf(Close(s.draft))).events
  {
    hide AllTold, CallsIndexed, TurnOf, CallsDone, NeedsReasoning, TraceOf, AddedIds;
    OpenRecord(s.draft);
  }

  lemma FinishedElsewhere(d: Draft, es: seq<Event>, es': seq<Event>)
    requires AllFinished(d, es) && WF(d)
    requires forall id :: id != d.ctx.reasoningId ==> TraceOf(es', id) == TraceOf(es, id)
    ensures AllFinished(d, es')
  {
    hide TraceOf, FullyTold, OrderPos, ItemSet;
    DistinctIds(d);
    forall i {:trigger FinishedAt(d, es', i)} | 0 <= i < |d.parts|
      ensures FinishedAt(d, es', i)
    {
      assert FinishedAt(d, es, i);
    }
  }

  /** A stream with no output at all still announces and completes one empty message. */
  lemma EndedEmpty(s: Stream)
    requires Inv(s) && s.draft.parts == [] && s.draft.thoughtAt.None?
    ensures Complete(Final(s.draft), Ended(s).events)
  {
    hide TraceOf, AddedIds, IndexedInOrder, ReasoningText, SplitWireName, CallDone;
    var d := Final(s.draft);
    var id := d.parts[0].itemId;
    var t := TurnOf(d);
    EmptyTurn(s.draft);
    assert s.events + [] == s.events;
    Snoc(s.events, ItemAdded(0, MessageStub(id)));
    Snoc(s.events + [ItemAdded(0, MessageStub(id))], ItemDone(0, MessageStub(id)));
    assert Ended(s).events == s.events + [ItemAdded(0, MessageStub(id))] + [ItemDone(0, MessageStub(id))];
    assert FinishedAt(d, Ended(s).events, 0);
    assert ReasoningText(Ended(s).events) == "";
  }

  lemma OneText(r: Record)
    requires r.TextRec? && r.sig == ""
    ensures ToolSigs([r]) == map[] && TextSigs([r]) == map[] && ItemSet([r]) == {r.itemId} && Items([r]) == [ItemOf(r)]
  {
    assert [r][..0] == [];
    assert ToolSigs([]) == map[] && TextSigs([]) == map[] && ItemSet([]) == {};
  }

  lemma EmptyTurn(d: Draft)
    requires WF(d) && d.parts == [] && d.thoughtAt.None?
    ensures var f := Final(d);
            && !NeedsReasoning(TurnOf(f)) && OutIds(FinalItems(f)) == [f.parts[0].itemId]
            && ItemSet(f.parts) == {f.parts[0].itemId} && f.parts[0].itemId != d.ctx.reasoningId && f.thought == ""
            && !d.open
  {
    hide ToolSigs, TextSigs, ItemSet, Items;
    var r := TextRec(0, TextId(d.ctx.base, 0), "", "");
    OneText(r);
    assert Final(d).parts == [r];
    assert FinalItems(Final(d)) == Items([r]);
  }

  /**
   * On every successful stream: output indexes count up; the announced ids are those of the
   * final output list exactly when announced reasoning is kept; every record was completed once,
   * at the index that announced it, with its final text or its final merged arguments; text
   * deltas add up to the text, reasoning deltas to the thought summary; and the final event
   * carries that same output list.
   */
  lemma FinishedStream(ctx: Ctx, ps: seq<Part>, reason: string, usage: Option<Decoder.Usage>)
    requires ctx.Valid()
    ensures var d, s := Final(Run(ctx, ps)), StreamRun(ctx, ps);
            && Complete(d, Ended(s).events)
            && OnEnd(s, reason, usage) == Ended(s).events + [Completed(reason == "MAX_TOKENS", FinalItems(d), usage)]
  {
    hide Inv, Ended, Complete, FinalItems, OutputItems;
    var s := StreamRun(ctx, ps);
    RunKeeps(ctx, ps);
    StreamingDraft(ctx, ps);
    RunNoEmptyText(ctx, ps);
    RunWF(ctx, ps);
    FinalWF(s.draft);
    OutputItemsAre(Final(s.draft));
    if s.draft.parts == [] && s.draft.thoughtAt.None? {
      EndedEmpty(s);
    } else {
      EndedWithOutput(s);
    }
  }

  /** The deltas of a text item concatenate to the text of the record, and all of them to the visible text. */
  lemma DeltasAreTheText(ctx: Ctx, ps: seq<Part>)
    requires ctx.Valid()
    ensures var d, es := Final(Run(ctx, ps)), Ended(StreamRun(ctx, ps)).events;
            && (forall i :: 0 <= i < |d.parts| && d.parts[i].TextRec? ==> TraceOf(es, d.parts[i].itemId).deltas == d.parts[i].text)
            && TurnLaws.TextOf(d.parts) == TurnLaws.VisibleText(ps)
            && ReasoningText(es) == TurnLaws.ThoughtText(ps)
  {
    hide Ended, ReasoningText, TraceOf, FinalItems, ReasoningCompleted;
    FinishedStream(ctx, ps, "", None);
    TurnLaws.TextIsConserved(ctx, ps);
    TurnLaws.FinalText(Run(ctx, ps));
    var d, es := Final(Run(ctx, ps)), Ended(StreamRun(ctx, ps)).events;
    forall i | 0 <= i < |d.parts| && d.parts[i].TextRec?
      ensures TraceOf(es, d.parts[i].itemId).deltas == d.parts[i].text
    {
      assert FinishedAt(d, es, i);
    }
  }

  /** The first part of the finished turn is only read when it exists: nothing announced means a part is there. */
  lemma FirstPartExists(ctx: Ctx, ps: seq<Part>)
    requires ctx.Valid()
    ensures var s := StreamRun(ctx, ps);
            var t := Built(ctx, ps);
            EndReasoning(FlushMsg(AfterCalls(s)), t).outputIndex == 0 ==> t.parts != []
  {
    hide Inv, NeedsReasoning, AfterCalls, FlushMsg, Order, ToolSigs, TextSigs, Siblings, Run;
    var s := StreamRun(ctx, ps);
    RunKeeps(ctx, ps);
    StreamingDraft(ctx, ps);
    RunNoEmptyText(ctx, ps);
    LastMessage(s);
    if Final(s.draft).parts == [] {
      ThoughtCounted(s);
    }
  }

  lemma ThoughtCounted(s: Stream)
    requires Inv(s) && Final(s.draft).parts == []
    ensures s.outputIndex > 0
  {
    hide AllTold, CallsIndexed, IndexedInOrder, AddedIds, ReasoningText;
  }

  /** A thought without text or signatures is announced live but dropped from the final list. */
  lemma EmptyThoughtIsDropped(ctx: Ctx)
    requires ctx.Valid()
    ensures var ps := [Part("", true, "", None, None)];
            var d := Final(Run(ctx, ps));
            !ReasoningKept(d) && FinalItems(d) == [] && AddedIds(Ended(StreamRun(ctx, ps)).events) != OutIds(FinalItems(d))
  {
    var p := Part("", true, "", None, None);
    assert [p][..0] == [];
    assert Run(ctx, [p]) == Step(Run(ctx, []), p);
    var d := Final(Run(ctx, [p]));
    assert !NeedsReasoning(TurnOf(d));
    FinishedStream(ctx, [p], "", None);
  }

  // ----- the end of a part repeats the end of its text

  /** Every closed part repeats the text that was just completed, at the same index and for the same item. */
  predicate PartsEcho(es: seq<Event>) {
    forall i :: 0 <= i < |es| && es[i].PartDone? ==> i > 0 && es[i - 1] == TextDone(es[i].index, es[i].id, es[i].text)
  }

  predicate ClosesNone(es: seq<Event>) {
    forall i :: 0 <= i < |es| ==> !es[i].PartDone?
  }

  lemma EchoesOn(es: seq<Event>, more: seq<Event>)
    requires PartsEcho(es) && PartsEcho(more)
    ensures PartsEcho(es + more)
  {
    var all := es + more;
    forall i | 0 <= i < |all| && all[i].PartDone?
      ensures i > 0 && all[i - 1] == TextDone(all[i].index, all[i].id, all[i].text)
    {
      if i >= |es| {
        assert more[i - |es|] == all[i];
        assert more[i - |es| - 1] == all[i - 1];
      }
    }
  }

  lemma DoneEchoes(index: nat, r: Record)
    ensures PartsEcho(MessageDone(index, r))
  {
  }

  lemma FlushEchoes(s: Stream)
    requires PartsEcho(s.events)
    ensures PartsEcho(FlushMsg(s).events)
  {
    hide MessageDone, PartsEcho;
    if s.msgStarted && Pending(s.draft).Some? {
      DoneEchoes(s.msgIndex, Pending(s.draft).value);
      EchoesOn(s.events, MessageDone(s.msgIndex, Pending(s.draft).value));
    }
  }

  lemma PartEchoes(s: Stream, p: Part)
    requires PartsEcho(s.events)
    ensures PartsEcho(OnPart(s, p).events)
  {
    hide FlushMsg, Step, AddedBy, CallStub, CurrentId, CurrentSig;
    FlushEchoes(s);
  }

  lemma {:induction false} RunEchoes(ctx: Ctx, ps: seq<Part>)
    ensures PartsEcho(StreamRun(ctx, ps).events)
  {
    hide OnPart, PartsEcho;
    if ps == [] {
      assert PartsEcho([Created]) by { NothingClosed([Created]); }
    } else {
      RunEchoes(ctx, ps[..|ps| - 1]);
      PartEchoes(StreamRun(ctx, ps[..|ps| - 1]), ps[|ps| - 1]);
    }
  }

  lemma NothingClosed(es: seq<Event>)
    requires ClosesNone(es)
    ensures PartsEcho(es)
  {
  }

  lemma {:induction false} CallsClose(parts: seq<Record>, indexes: map<Id, nat>)
    ensures ClosesNone(CallsDone(parts, indexes))
  {
    hide SplitWireName, ItemOf;
    if parts != [] {
      CallsClose(parts[..|parts| - 1], indexes);
    }
  }

  /** On every stream the end of a text part repeats the completed text. */
  lemma PartsRepeatTexts(ctx: Ctx, ps: seq<Part>, reason: string, usage: Option<Decoder.Usage>)
    ensures PartsEcho(OnEnd(StreamRun(ctx, ps), reason, usage))
  {
    hide StreamRun, FlushMsg, CallsDone, PartsEcho, EndReasoning, EndEmpty, TurnOf, Final, OutputItems;
    var s := StreamRun(ctx, ps);
    RunEchoes(ctx, ps);
    CallsClose(s.draft.parts, s.fcIndexes);
    NothingClosed(CallsDone(s.draft.parts, s.fcIndexes));
    EchoesOn(s.events, CallsDone(s.draft.parts, s.fcIndexes));
    var s1 := FlushMsg(AfterCalls(s));
    FlushEchoes(AfterCalls(s));
    EndEchoes(s1, TurnOf(Final(s.draft)));
    var last := [Completed(reason == "MAX_TOKENS", OutputItems(TurnOf(Final(s.draft))), usage)];
    NothingClosed(last);
    EchoesOn(Ended(s).events, last);
  }

  lemma EndEchoes(s: Stream, t: Turn)
    requires PartsEcho(s.events)
    ensures PartsEcho(EndEmpty(EndReasoning(s, t), t).events)
  {
    hide DoneReasoning, NeedsReasoning;
  }
}
