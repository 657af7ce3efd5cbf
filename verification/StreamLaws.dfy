/** Laws of the event stream, for every part sequence. */
module StreamLaws {
  import opened Core
  import opened Turns
  import opened Accumulators
  import opened Outputs
  import opened Streams
  import Decoder

  // ----- streaming refines batch

  lemma FlushDraft(s: Stream, p: Part)
    requires WF(s.draft)
    ensures FlushMsg(s).draft == s.draft || FlushMsg(s).draft == Close(s.draft)
    ensures p.thought || p.call.Some? ==> Step(Close(s.draft), p) == Step(s.draft, p)
    ensures p.text != "" && CurrentSig(s.draft) != p.sig ==> Step(Close(s.draft), p) == Step(s.draft, p)
  {
  }

  /** The explicit flushes of the handler do not change the turn. */
  lemma {:induction false} StreamingDraft(ctx: Ctx, ps: seq<Part>)
    requires ctx.Valid()
    ensures StreamRun(ctx, ps).draft == Run(ctx, ps)
  {
    if ps != [] {
      var n := |ps| - 1;
      StreamingDraft(ctx, ps[..n]);
      RunWF(ctx, ps[..n]);
      PartDraft(StreamRun(ctx, ps[..n]), ps[n]);
    }
  }

  lemma PartDraft(s: Stream, p: Part)
    requires WF(s.draft)
    ensures OnPart(s, p).draft == Step(s.draft, p)
  {
    hide WF, Step, CurrentSig, Pending;
    FlushDraft(s, p);
  }

  /** On the same parts, the last streamed event is the batch response. */
  lemma StreamingRefinesBatch(ctx: Ctx, c: Decoder.Collected)
    requires ctx.Valid()
    ensures var events := OnEnd(StreamRun(ctx, c.parts), c.reason, c.usage);
            events[|events| - 1] == BatchResponse(c, ctx)
  {
    StreamingDraft(ctx, c.parts);
  }

  // ----- projections of an event list

  /** Ids announced by item-added events, in order. */
  function AddedIds(es: seq<Event>): seq<Id> {
    if es == [] then []
    else AddedIds(es[..|es| - 1]) + if es[|es| - 1].ItemAdded? then [es[|es| - 1].item.id] else []
  }

  /** Every item-added event carries the number of items announced before it. */
  predicate IndexedInOrder(es: seq<Event>) {
    es == [] ||
    (&& IndexedInOrder(es[..|es| - 1])
     && (es[|es| - 1].ItemAdded? ==> es[|es| - 1].index == |AddedIds(es[..|es| - 1])|))
  }

  function ReasoningText(es: seq<Event>): string {
    if es == [] then ""
    else ReasoningText(es[..|es| - 1]) + if es[|es| - 1].ReasoningDelta? then es[|es| - 1].delta else ""
  }

  /** What the events say about one item id. */
  datatype Trace = Trace(deltas: string, textsDone: seq<string>, argsDone: seq<Event>, itemsDone: seq<(nat, OutItem)>)

  const SILENT := Trace("", [], [], [])

  function Heard(t: Trace, e: Event, id: Id): Trace {
    match e
    case TextDelta(_, x, delta) => if x == id then t.(deltas := t.deltas + delta) else t
    case TextDone(_, x, text) => if x == id then t.(textsDone := t.textsDone + [text]) else t
    case ArgsDone(_, x, _, _, _, _) => if x == id then t.(argsDone := t.argsDone + [e]) else t
    case ItemDone(k, item) => if item.id == id then t.(itemsDone := t.itemsDone + [(k, item)]) else t
    case _ => t
  }

  function TraceOf(es: seq<Event>, id: Id): Trace {
    if es == [] then SILENT else Heard(TraceOf(es[..|es| - 1], id), es[|es| - 1], id)
  }

  lemma Snoc(es: seq<Event>, e: Event)
    ensures AddedIds(es + [e]) == AddedIds(es) + if e.ItemAdded? then [e.item.id] else []
    ensures IndexedInOrder(es + [e]) <==> IndexedInOrder(es) && (e.ItemAdded? ==> e.index == |AddedIds(es)|)
    ensures ReasoningText(es + [e]) == ReasoningText(es) + if e.ReasoningDelta? then e.delta else ""
    ensures forall id :: TraceOf(es + [e], id) == Heard(TraceOf(es, id), e, id)
  {
    assert (es + [e])[..|es|] == es;
  }

  lemma MessageDoneHeard(es: seq<Event>, index: nat, r: Record)
    requires r.TextRec?
    ensures var es' := es + MessageDone(index, r);
            && AddedIds(es') == AddedIds(es)
            && (IndexedInOrder(es') <==> IndexedInOrder(es))
            && ReasoningText(es') == ReasoningText(es)
            && (forall id :: TraceOf(es', id) ==
                             var t := TraceOf(es, id);
                             if id == r.itemId
                             then Trace(t.deltas, t.textsDone + [r.text], t.argsDone, t.itemsDone + [(index, ItemOf(r))])
                             else t)
  {
    hide AddedIds, IndexedInOrder, ReasoningText, TraceOf;
    var m := MessageDone(index, r);
    Snoc(es, m[0]);
    Snoc(es + [m[0]], m[1]);
    Snoc(es + [m[0]] + [m[1]], m[2]);
    assert es + m == es + [m[0]] + [m[1]] + [m[2]];
    assert forall s: string :: s + "" == s;
  }

  lemma CallDoneHeard(es: seq<Event>, index: nat, r: Record)
    requires r.CallRec?
    ensures var es' := es + CallDone(index, r);
            && AddedIds(es') == AddedIds(es)
            && (IndexedInOrder(es') <==> IndexedInOrder(es))
            && ReasoningText(es') == ReasoningText(es)
            && (forall id :: TraceOf(es', id) ==
                             var t := TraceOf(es, id);
                             if id == r.itemId
                             then Trace(t.deltas, t.textsDone, t.argsDone + [CallDone(index, r)[0]], t.itemsDone + [(index, ItemOf(r))])
                             else t)
  {
    hide AddedIds, IndexedInOrder, ReasoningText, TraceOf;
    var m := CallDone(index, r);
    Snoc(es, m[0]);
    Snoc(es + [m[0]], m[1]);
    assert es + m == es + [m[0]] + [m[1]];
    assert forall s: string :: s + "" == s;
  }

  // ----- the invariant of a running stream

  /** A closed record was completed once, at its own output index, with its own text. */
  predicate Told(r: Record, open: bool, pos: nat, t: Trace) {
    if r.CallRec? then t == SILENT
    else if open then t == Trace(r.text, [], [], [])
    else
      && t.deltas == r.text && t.textsDone == [r.text] && t.argsDone == []
      && |t.itemsDone| == 1 && t.itemsDone[0].0 == pos
      && t.itemsDone[0].1.MessageOut? && t.itemsDone[0].1.id == r.itemId && t.itemsDone[0].1.text == r.text
  }

  predicate ToldAt(d: Draft, es: seq<Event>, i: nat)
    requires i < |d.parts|
  {
    Told(d.parts[i], d.open && i == |d.parts| - 1, OrderPos(d, i), TraceOf(es, d.parts[i].itemId))
  }

  ghost predicate AllTold(d: Draft, es: seq<Event>) {
    && (forall i {:trigger ToldAt(d, es, i)} :: 0 <= i < |d.parts| ==> ToldAt(d, es, i))
    && (forall id :: id !in ItemSet(d.parts) ==> TraceOf(es, id) == SILENT)
  }

  predicate Listed(d: Draft, es: seq<Event>, outputIndex: nat) {
    && AddedIds(es) == Order(d) && IndexedInOrder(es) && outputIndex == |Order(d)|
    && ReasoningText(es) == d.thought
  }

  ghost predicate CallsIndexed(d: Draft, indexes: map<Id, nat>) {
    && (forall i :: 0 <= i < |d.parts| && d.parts[i].CallRec? ==> d.parts[i].callId in indexes && indexes[d.parts[i].callId] == OrderPos(d, i))
    && (forall id :: id in indexes ==> exists i :: 0 <= i < |d.parts| && d.parts[i].CallRec? && d.parts[i].callId == id)
  }

  predicate Counters(s: Stream) {
    && s.msgStarted == s.draft.open
    && (s.msgStarted ==> s.draft.parts != [] && s.msgIndex == OrderPos(s.draft, |s.draft.parts| - 1))
    && s.reasoningStarted == s.draft.thoughtAt.Some?
    && (s.reasoningStarted ==> s.reasoningIndex == s.draft.thoughtAt.value)
  }

  ghost predicate Inv(s: Stream) {
    && WF(s.draft) && Counters(s)
    && Listed(s.draft, s.events, s.outputIndex)
    && AllTold(s.draft, s.events)
    && CallsIndexed(s.draft, s.fcIndexes)
  }

  // ----- how the record traces move

  /** Records that the client cannot tell apart by id, kind and text. */
  predicate Alike(r: Record, r': Record) {
    r.TextRec? == r'.TextRec? && r.itemId == r'.itemId && (r.TextRec? ==> r.text == r'.text)
  }

  /** The draft changed at most in record `k`, and so did the traces. */
  lemma ToldUpdate(d: Draft, d': Draft, es: seq<Event>, es': seq<Event>, k: nat)
    requires AllTold(d, es) && k < |d.parts| == |d'.parts| && DistinctItems(d.parts)
    requires d'.parts[k].itemId == d.parts[k].itemId && ItemSet(d'.parts) == ItemSet(d.parts)
    requires forall i :: 0 <= i < |d.parts| ==>
               && OrderPos(d', i) == OrderPos(d, i)
               && (i != k ==> Alike(d.parts[i], d'.parts[i])
                              && (d'.open && i == |d.parts| - 1 <==> d.open && i == |d.parts| - 1))
    requires forall id :: id != d.parts[k].itemId ==> TraceOf(es', id) == TraceOf(es, id)
    requires ToldAt(d', es', k)
    ensures AllTold(d', es')
  {
    hide ItemSet, TraceOf, OrderPos;
    ItemSetMember(d.parts, d.parts[k].itemId);
    forall i {:trigger ToldAt(d', es', i)} | 0 <= i < |d'.parts|
      ensures ToldAt(d', es', i)
    {
      assert ToldAt(d, es, i);
    }
  }

  /** Record `k` was rewritten in a way the client cannot tell. */
  lemma ToldRewrite(d: Draft, d': Draft, es: seq<Event>, indexes: map<Id, nat>, k: nat, r: Record)
    requires AllTold(d, es) && CallsIndexed(d, indexes) && k < |d.parts| && DistinctItems(d.parts)
    requires d' == d.(parts := d.parts[k := r]) && Alike(d.parts[k], r) && ItemSet(d'.parts) == ItemSet(d.parts)
    requires r.CallRec? ==> r.callId == d.parts[k].callId
    ensures AllTold(d', es) && CallsIndexed(d', indexes)
  {
    hide ItemSet, TraceOf, AllTold, CallsIndexed;
    ToldOne(d, es, k);
    ToldUpdate(d, d', es, es, k);
    CallsSame(d, d', indexes);
  }

  /** A record was appended after closed ones, and only its trace moved. */
  lemma ToldSnoc(d: Draft, d': Draft, es: seq<Event>, es': seq<Event>, r: Record)
    requires AllTold(d, es) && !d.open && d'.parts == d.parts + [r] && DistinctItems(d'.parts)
    requires forall i :: 0 <= i < |d.parts| ==> OrderPos(d', i) == OrderPos(d, i)
    requires forall id :: id != r.itemId ==> TraceOf(es', id) == TraceOf(es, id)
    requires ToldAt(d', es', |d.parts|)
    ensures AllTold(d', es')
  {
    hide TraceOf, OrderPos, Told;
    var n := |d.parts|;
    assert d'.parts[..n] == d.parts;
    forall i {:trigger ToldAt(d', es', i)} | 0 <= i < |d'.parts|
      ensures ToldAt(d', es', i)
    {
      if i < n {
        assert ToldAt(d, es, i) && d'.parts[i] == d.parts[i] && d'.parts[n] == r;
      }
    }
    assert ItemSet(d'.parts) == ItemSet(d.parts) + {r.itemId};
  }

  /** The trace of an id that no record has yet. */
  lemma FreshSilent(d: Draft, d': Draft, es: seq<Event>, r: Record)
    requires AllTold(d, es) && d'.parts == d.parts + [r] && DistinctItems(d'.parts)
    ensures TraceOf(es, r.itemId) == SILENT
  {
    hide TraceOf, Told;
    ItemSetMember(d.parts, r.itemId);
    assert forall i :: 0 <= i < |d.parts| ==> d.parts[i] == d'.parts[i];
    assert d'.parts[|d.parts|] == r;
  }

  // ----- every step keeps the invariant

  lemma ToldFlush(d: Draft, es: seq<Event>, index: nat)
    requires WF(d) && d.open && AllTold(d, es) && index == OrderPos(d, |d.parts| - 1)
    ensures AllTold(Close(d), es + MessageDone(index, d.parts[|d.parts| - 1]))
  {
    hide TraceOf, ItemSet, MessageDone;
    var k := |d.parts| - 1;
    var es' := es + MessageDone(index, d.parts[k]);
    DistinctIds(d);
    MessageDoneHeard(es, index, d.parts[k]);
    assert ToldAt(d, es, k);
    ToldUpdate(d, Close(d), es, es', k);
  }

  lemma FlushKeeps(s: Stream)
    requires Inv(s)
    ensures Inv(FlushMsg(s)) && !FlushMsg(s).draft.open && !FlushMsg(s).msgStarted
    ensures FlushMsg(s).draft == Close(s.draft)
  {
    hide AllTold, WF, MessageDone;
    OpenRecord(s.draft);
    if s.msgStarted {
      ToldFlush(s.draft, s.events, s.msgIndex);
      MessageDoneHeard(s.events, s.msgIndex, s.draft.parts[|s.draft.parts| - 1]);
    }
  }

  lemma OpenRecord(d: Draft)
    requires WF(d)
    ensures WF(Close(d)) && (!d.open ==> Close(d) == d)
    ensures d.open ==> d.parts != [] && d.parts[|d.parts| - 1].TextRec?
    ensures d.thoughtAt.Some? ==> d.thoughtAt.value <= |d.parts|
    ensures |Order(d)| == |d.parts| + if d.thoughtAt.Some? then 1 else 0
  {
  }

  lemma ToldSame(d: Draft, d': Draft, es: seq<Event>, es': seq<Event>)
    requires AllTold(d, es) && d'.parts == d.parts && d'.open == d.open
    requires forall i :: 0 <= i < |d.parts| ==> OrderPos(d', i) == OrderPos(d, i)
    requires forall id :: TraceOf(es', id) == TraceOf(es, id)
    ensures AllTold(d', es')
  {
    hide TraceOf, OrderPos, Told, ItemSet;
    forall i {:trigger ToldAt(d', es', i)} | 0 <= i < |d'.parts|
      ensures ToldAt(d', es', i)
    {
      assert ToldAt(d, es, i);
    }
  }

  /** Announcing the reasoning item at the current end of the output order. */
  lemma StartReasoningKeeps(s: Stream)
    requires Inv(s) && !s.draft.open
    ensures var s' := StartReasoning(s);
            && s'.draft == s.draft && s'.msgStarted == s.msgStarted && s'.reasoningStarted && s'.fcIndexes == s.fcIndexes
            && s'.reasoningIndex == (if s.draft.thoughtAt.Some? then s.draft.thoughtAt.value else |s.draft.parts|)
            && AddedIds(s'.events) == (if s.draft.thoughtAt.Some? then Order(s.draft) else Order(s.draft) + [s.draft.ctx.reasoningId])
            && s'.outputIndex == |AddedIds(s'.events)| && IndexedInOrder(s'.events)
            && ReasoningText(s'.events) == s.draft.thought
            && (forall id :: TraceOf(s'.events, id) == TraceOf(s.events, id))
  {
    hide AllTold, CallsIndexed, WF;
    OpenRecord(s.draft);
    Snoc(s.events, ItemAdded(s.outputIndex, ReasoningStub(s.draft.ctx.reasoningId)));
    assert s.draft.thought + "" == s.draft.thought;
  }

  lemma ThoughtKeeps(s0: Stream, p: Part)
    requires Inv(s0) && p.thought
    ensures Inv(OnPart(s0, p))
  {
    hide AllTold, CallsIndexed, WF, TraceOf, AddedIds, ReasoningText, IndexedInOrder, FlushMsg, StartReasoning;
    var s1 := FlushMsg(s0);
    FlushKeeps(s0);
    StartReasoningKeeps(s1);
    var s2 := StartReasoning(s1);
    var s3 := OnThought(s0, p);
    OpenRecord(s1.draft);
    StepKeepsWF(s1.draft, p);
    ReasoningIsNew(s1.draft);
    Snoc(s2.events, ReasoningDelta(s2.reasoningIndex, s2.draft.ctx.reasoningId, p.text));
    assert s2.draft.thought + "" == s2.draft.thought;
    assert s2.events + [] == s2.events;
    ToldSame(s1.draft, s3.draft, s1.events, s3.events);
    CallsSame(s1.draft, s3.draft, s1.fcIndexes);
  }

  lemma CallsSame(d: Draft, d': Draft, indexes: map<Id, nat>)
    requires CallsIndexed(d, indexes) && |d'.parts| == |d.parts|
    requires forall i :: 0 <= i < |d.parts| ==>
               && OrderPos(d', i) == OrderPos(d, i) && d'.parts[i].CallRec? == d.parts[i].CallRec?
               && (d.parts[i].CallRec? ==> d'.parts[i].callId == d.parts[i].callId)
    ensures CallsIndexed(d', indexes)
  {
    hide OrderPos;
  }

  lemma CallsSnoc(d: Draft, d': Draft, r: Record, indexes: map<Id, nat>)
    requires CallsIndexed(d, indexes) && d'.parts == d.parts + [r] && DistinctCalls(d'.parts)
    requires forall i :: 0 <= i < |d.parts| ==> OrderPos(d', i) == OrderPos(d, i)
    ensures r.TextRec? ==> CallsIndexed(d', indexes)
    ensures r.CallRec? ==> r.callId !in indexes && CallsIndexed(d', indexes[r.callId := OrderPos(d', |d.parts|)])
  {
    hide OrderPos;
    var n := |d.parts|;
    assert d'.parts[n] == r && forall i :: 0 <= i < n ==> d'.parts[i] == d.parts[i];
    var indexes' := if r.CallRec? then indexes[r.callId := OrderPos(d', n)] else indexes;
    forall id | id in indexes'
      ensures exists i :: 0 <= i <= n && d'.parts[i].CallRec? && d'.parts[i].callId == id
    {
      if id in indexes {
        var i :| 0 <= i < n && d.parts[i].CallRec? && d.parts[i].callId == id;
        assert d'.parts[i].callId == id;
      } else {
        assert d'.parts[n].callId == id;
      }
    }
  }

  /** A repeated call emits nothing now. */
  lemma RepeatedCallKeeps(s: Stream, p: Part, i: nat)
    requires Inv(s) && !s.draft.open && !p.thought && p.call.Some? && FindUpstream(s.draft.parts, p.call.value.id) == Some(i)
    ensures AddedBy(s.draft, p).value.callId in s.fcIndexes
    ensures Inv(s.(draft := Step(s.draft, p)))
  {
    hide AllTold, WF, TraceOf, AddedIds, ReasoningText, IndexedInOrder, FindUpstream, ItemSet, CallsIndexed;
    var d, d' := s.draft, Step(s.draft, p);
    var r := MergeCall(d.parts[i], p.call.value, p.sig);
    StepKeepsWF(d, p);
    OpenRecord(d);
    RecordShape(d);
    CallUpdate(d, i, r);
    DistinctIds(d);
    ToldRewrite(d, d', s.events, s.fcIndexes, i, r);
    CallKnown(d, s.fcIndexes, i);
  }

  lemma RecordShape(d: Draft)
    requires WF(d)
    ensures forall i :: 0 <= i < |d.parts| ==> d.parts[i].index == i
  {
  }

  lemma ToldOne(d: Draft, es: seq<Event>, i: nat)
    requires AllTold(d, es) && i < |d.parts|
    ensures ToldAt(d, es, i)
  {
  }

  lemma CallKnown(d: Draft, indexes: map<Id, nat>, i: nat)
    requires CallsIndexed(d, indexes) && i < |d.parts| && d.parts[i].CallRec?
    ensures d.parts[i].callId in indexes && indexes[d.parts[i].callId] == OrderPos(d, i)
  {
  }

  /** A new call is announced at the end of the output order. */
  lemma NewCallKeeps(s: Stream, p: Part)
    requires Inv(s) && !s.draft.open && !p.thought && p.call.Some? && FindUpstream(s.draft.parts, p.call.value.id) == None
    ensures var r := NewCall(s.draft, p.call.value, p.sig);
            && r.callId !in s.fcIndexes
            && Inv(s.(draft := Step(s.draft, p), outputIndex := s.outputIndex + 1,
                      fcIndexes := s.fcIndexes[r.callId := s.outputIndex],
                      events := s.events + [ItemAdded(s.outputIndex, CallStub(r))]))
  {
    hide AllTold, WF, TraceOf, AddedIds, ReasoningText, IndexedInOrder, FindUpstream, ItemSet, CallsIndexed, Order;
    var d, d' := s.draft, Step(s.draft, p);
    var r := NewCall(d, p.call.value, p.sig);
    var e := ItemAdded(s.outputIndex, CallStub(r));
    StepKeepsWF(d, p);
    OpenRecord(d);
    DistinctIds(d');
    OrderSnoc(d, r);
    Snoc(s.events, e);
    assert d.thought + "" == d.thought;
    FreshSilent(d, d', s.events, r);
    ToldSnoc(d, d', s.events, s.events + [e], r);
    CallsSnoc(d, d', r, s.fcIndexes);
  }

  lemma CallKeeps(s0: Stream, p: Part)
    requires Inv(s0) && !p.thought && p.call.Some?
    ensures Inv(OnPart(s0, p))
  {
    hide Inv, FlushMsg, Step;
    var s := FlushMsg(s0);
    FlushKeeps(s0);
    match FindUpstream(s.draft.parts, p.call.value.id)
    case Some(i) => RepeatedCallKeeps(s, p, i);
    case None => NewCallKeeps(s, p);
  }

  lemma TailKeeps(s: Stream, p: Part)
    requires Inv(s) && !p.thought && p.call.None? && p.text == ""
    ensures Inv(OnPart(s, p))
  {
    hide AllTold, WF, TraceOf, AddedIds, ReasoningText, IndexedInOrder, ItemSet, CallsIndexed, LastText;
    var d, d' := s.draft, Step(s.draft, p);
    StepKeepsWF(d, p);
    OpenRecord(d);
    RecordShape(d);
    if p.sig != "" && LastText(d.parts).Some? {
      var i := LastText(d.parts).value;
      TextUpdate(d, i, Signed(d.parts[i], p.sig));
      DistinctIds(d);
      ToldRewrite(d, d', s.events, s.fcIndexes, i, Signed(d.parts[i], p.sig));
    }
  }

  /** More text for the open message. */
  lemma GrowKeeps(s: Stream, p: Part)
    requires Inv(s) && s.msgStarted && CurrentSig(s.draft) == p.sig && !p.thought && p.call.None? && p.text != ""
    ensures Inv(s.(draft := Step(s.draft, p), events := s.events + [TextDelta(s.msgIndex, CurrentId(s.draft), p.text)]))
  {
    hide AllTold, WF, TraceOf, AddedIds, ReasoningText, IndexedInOrder, ItemSet, CallsIndexed;
    var d, d' := s.draft, Step(s.draft, p);
    var e := TextDelta(s.msgIndex, CurrentId(d), p.text);
    var n := |d.parts| - 1;
    StepKeepsWF(d, p);
    OpenRecord(d);
    GrowKeepsIds(d, p.text);
    DistinctIds(d);
    Snoc(s.events, e);
    assert d.thought + "" == d.thought;
    ToldOne(d, s.events, n);
    ToldUpdate(d, d', s.events, s.events + [e], n);
    CallsSame(d, d', s.fcIndexes);
  }

  /** A new message is announced at the end of the output order, with its first text. */
  lemma NewTextKeeps(s: Stream, p: Part)
    requires Inv(s) && !s.msgStarted && !p.thought && p.call.None? && p.text != ""
    ensures Inv(OnText(s, p))
  {
    hide AllTold, WF, TraceOf, AddedIds, ReasoningText, IndexedInOrder, ItemSet, CallsIndexed, Order;
    var d, d' := s.draft, Step(s.draft, p);
    var r := NewText(d, p.text, p.sig);
    var id := r.itemId;
    var k := s.outputIndex;
    StepKeepsWF(d, p);
    OpenRecord(d);
    DistinctIds(d');
    OrderSnoc(d, r);
    NewMessageEvents(s.events, k, id, p.text);
    FreshSilent(d, d', s.events, r);
    ToldSnoc(d, d', s.events, OnText(s, p).events, r);
    CallsSnoc(d, d', r, s.fcIndexes);
  }

  lemma NewMessageEvents(es: seq<Event>, k: nat, id: Id, text: string)
    ensures var es' := es + [ItemAdded(k, MessageStub(id))] + [PartAdded(k, id)] + [TextDelta(k, id, text)];
            && AddedIds(es') == AddedIds(es) + [id]
            && (IndexedInOrder(es') <==> IndexedInOrder(es) && k == |AddedIds(es)|)
            && ReasoningText(es') == ReasoningText(es)
            && (forall x :: TraceOf(es', x) ==
                            if x == id then TraceOf(es, x).(deltas := TraceOf(es, x).deltas + text) else TraceOf(es, x))
  {
    hide TraceOf, AddedIds, ReasoningText, IndexedInOrder;
    Snoc(es, ItemAdded(k, MessageStub(id)));
    Snoc(es + [ItemAdded(k, MessageStub(id))], PartAdded(k, id));
    Snoc(es + [ItemAdded(k, MessageStub(id))] + [PartAdded(k, id)], TextDelta(k, id, text));
    assert forall s: string :: s + "" == s;
  }

  lemma TextKeeps(s: Stream, p: Part)
    requires Inv(s) && !p.thought && p.call.None? && p.text != ""
    ensures Inv(OnPart(s, p))
  {
    hide WF, Listed, AllTold, CallsIndexed, FlushMsg, Step;
    if s.msgStarted && CurrentSig(s.draft) == p.sig {
      GrowKeeps(s, p);
    } else if s.msgStarted {
      FlushKeeps(s);
      NewTextKeeps(FlushMsg(s), p);
    } else {
      NewTextKeeps(s, p);
    }
  }

  lemma {:induction false} RunKeeps(ctx: Ctx, ps: seq<Part>)
    requires ctx.Valid()
    ensures Inv(StreamRun(ctx, ps))
  {
    hide Inv, OnPart;
    if ps == [] {
      OpenKeeps(ctx);
    } else {
      var n := |ps| - 1;
      var s, p := StreamRun(ctx, ps[..n]), ps[n];
      RunKeeps(ctx, ps[..n]);
      if p.thought {
        ThoughtKeeps(s, p);
      } else if p.call.Some? {
        CallKeeps(s, p);
      } else if p.text != "" {
        TextKeeps(s, p);
      } else {
        TailKeeps(s, p);
      }
    }
  }

  lemma OpenKeeps(ctx: Ctx)
    requires ctx.Valid()
    ensures Inv(Open(ctx))
  {
    Snoc([], Created);
    assert [] + [Created] == [Created];
  }
}
