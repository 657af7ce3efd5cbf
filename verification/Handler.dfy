/** The streaming and batch handlers of the Responses protocol. */
module Handler {
  import opened Core
  import opened Turns
  import opened Accumulators
  import opened Outputs
  import opened Streams
  import opened Caches
  import opened CacheLaws
  import opened CacheStore
  import opened Sessions
  import StreamLaws
  import Decoder

  /** All events the streaming handler sends for an upstream stream. */
  function StreamEvents(ctx: Ctx, lines: seq<Decoder.Line>, end: Decoder.End): seq<Event> {
    match Decoder.Decoded(lines, end)
    case Ok(c) => OnEnd(StreamRun(ctx, c.parts), c.reason, c.usage)
    case Err(e) => StreamRun(ctx, Decoder.AllParts(lines[..Decoder.BeforeError(lines)])).events + [Failed(e)]
  }

  function BatchResult(ctx: Ctx, lines: seq<Decoder.Line>, end: Decoder.End): Event {
    match Decoder.Decoded(lines, end)
    case Ok(c) => BatchResponse(c, ctx)
    case Err(e) => Failed(e)
  }

  /** What either handler stores of an upstream stream: its turn, and nothing of a stream that fails. */
  function StoredOps(ctx: Ctx, lines: seq<Decoder.Line>, end: Decoder.End, prefixHash: string, leads: seq<Id>): seq<Op> {
    match Decoder.Decoded(lines, end)
    case Ok(c) => TurnOps(Built(ctx, c.parts), prefixHash, leads)
    case Err(_) => []
  }

  /** `leads` is an order in which the sibling map of the stream's turn can be visited. */
  ghost predicate VisitsLeads(ctx: Ctx, lines: seq<Decoder.Line>, end: Decoder.End, leads: seq<Id>) {
    Decoder.Decoded(lines, end).Ok? ==> Visits(leads, Built(ctx, Decoder.Decoded(lines, end).value.parts).siblings.Keys)
  }

  /** For every upstream stream the two handlers end alike: the same output, status and usage, or the same error. */
  lemma HandlersAgree(ctx: Ctx, lines: seq<Decoder.Line>, end: Decoder.End)
    requires ctx.Valid()
    ensures var events := StreamEvents(ctx, lines, end);
            events != [] && events[|events| - 1] == BatchResult(ctx, lines, end)
  {
    hide StreamRun, OnEnd, Decoder.Decoded, BatchResponse;
    match Decoder.Decoded(lines, end)
    case Ok(c) =>
      StreamLaws.StreamingRefinesBatch(ctx, c);
      EndNonEmpty(StreamRun(ctx, c.parts), c.reason, c.usage);
    case Err(e) =>
  }

  lemma EndNonEmpty(s: Stream, reason: string, usage: Option<Decoder.Usage>)
    ensures OnEnd(s, reason, usage) != []
  {
    hide Ended, OutputItems, Final;
  }

  method HandleNonStreaming(decoder: Decoder.UpstreamDecoder, ctx: Ctx, prefixHash: string, cache: SignatureCache)
    returns (response: Event, ghost leads: seq<Id>)
    requires ctx.Valid()
    requires decoder.Valid() && decoder.readErr.None? && !decoder.terminalReceived
    requires decoder.ToCome() == Decoder.Script(decoder.lines)
    modifies decoder, cache
    ensures response == BatchResult(ctx, decoder.lines, decoder.end)
    ensures VisitsLeads(ctx, decoder.lines, decoder.end, leads)
    ensures cache.View() == RunFrom(old(cache.View()), StoredOps(ctx, decoder.lines, decoder.end, prefixHash, leads))
  {
    hide Built, OutputItems, Decoder.Decoded, Decoder.Script, TurnOps, RunFrom, Visits;
    var acc := Decoder.AccumulateTurn(decoder);
    if acc.Err? {
      RunNone(cache.View());
      return Failed(acc.error), [];
    }
    var turn := BuildAuthoritativeTurn(acc.value.parts, ctx);
    leads := PopulateCache(turn, prefixHash, cache);
    var output := ToOutputItems(turn);
    response := Completed(acc.value.reason == "MAX_TOKENS", output, acc.value.usage);
  }

  class ResponsesStream {
    const acc: Accumulator
    var events: seq<Event>
    var outputIndex: nat
    var msgStarted: bool
    var msgIndex: nat
    var reasoningStarted: bool
    var reasoningIndex: nat
    var fcIndexes: map<Id, nat>
    var fcFinalized: set<Id>

    ghost function View(): Stream
      reads this, acc
    {
      Stream(acc.draft, events, outputIndex, msgStarted, msgIndex, reasoningStarted, reasoningIndex, fcIndexes)
    }

    ghost predicate Valid()
      reads this, acc
    {
      acc.Valid()
    }

    /** No call is completed before the upstream ends. */
    ghost predicate Running()
      reads this, acc
    {
      Valid() && fcFinalized == {}
    }

    constructor (ctx: Ctx)
      requires ctx.Valid()
      ensures Running() && fresh(acc) && View() == Open(ctx)
    {
      acc := new Accumulator(ctx);
      events, outputIndex := [Created], 0;
      msgStarted, msgIndex := false, 0;
      reasoningStarted, reasoningIndex := false, 0;
      fcIndexes, fcFinalized := map[], {};
    }

    method Send(e: Event)
      modifies this`events
      ensures events == old(events) + [e]
    {
      events := events + [e];
    }

    method EmitFlushedMsg(flushed: Option<Record>)
      modifies this`events, this`msgStarted
      ensures flushed.None? ==> events == old(events) && msgStarted == old(msgStarted)
      ensures flushed.Some? ==> events == old(events) + MessageDone(msgIndex, flushed.value) && !msgStarted
    {
      if flushed.None? {
        return;
      }
      var r := flushed.value;
      var text := if r.TextRec? then r.text else "";
      Send(TextDone(msgIndex, r.itemId, text));
      Send(PartDone(msgIndex, r.itemId, text));
      Send(ItemDone(msgIndex, ItemOf(r)));
      msgStarted := false;
    }

    method FlushCurrentMsg()
      requires Valid()
      modifies this, acc
      ensures Valid() && fcFinalized == old(fcFinalized) && View() == FlushMsg(old(View()))
    {
      hide Represents, MessageDone;
      if !msgStarted {
        return;
      }
      var flushed := acc.FlushPendingText();
      EmitFlushedMsg(flushed);
    }

    method StartReasoningItem(id: Id)
      requires acc.draft.ctx.reasoningId == id
      modifies this`events, this`reasoningStarted, this`reasoningIndex, this`outputIndex
      ensures View() == StartReasoning(old(View()))
    {
      if !reasoningStarted {
        reasoningStarted := true;
        reasoningIndex := outputIndex;
        outputIndex := outputIndex + 1;
        Send(ItemAdded(reasoningIndex, ReasoningStub(id)));
      }
    }

    method HandleThought(p: Part)
      requires Running() && p.thought
      modifies this, acc
      ensures Running() && View() == OnPart(old(View()), p)
    {
      hide Represents, FlushMsg, StartReasoning, Step;
      FlushCurrentMsg();
      var id := acc.turn.ctx.reasoningId;
      TurnCtxIs(acc.View(), acc.draft);
      StartReasoningItem(id);
      ghost var s := View();
      StartKeepsCtx(View(), p);
      var _, _ := acc.ProcessPart(p);
      if p.text != "" {
        Send(ReasoningDelta(reasoningIndex, id, p.text));
      }
      assert s.events + [] == s.events;
      assert View() == s.(draft := Step(s.draft, p), events := View().events);
    }

    method HandleCall(p: Part)
      requires Running() && !p.thought && p.call.Some?
      modifies this, acc
      ensures Running() && View() == OnPart(old(View()), p)
    {
      hide Represents, FlushMsg, Step;
      FlushCurrentMsg();
      ghost var s := View();
      var _, added := acc.ProcessPart(p);
      if added.Some? {
        var r := added.value;
        if r.CallRec? && r.callId !in fcIndexes {
          fcIndexes := fcIndexes[r.callId := outputIndex];
          Send(ItemAdded(outputIndex, CallStub(r)));
          outputIndex := outputIndex + 1;
        }
      }
    }

    method StartMessage(id: Id)
      requires id == CurrentId(acc.draft)
      modifies this`events, this`msgStarted, this`msgIndex, this`outputIndex
      ensures View() == StartMsg(old(View()))
    {
      if !msgStarted {
        msgStarted := true;
        msgIndex := outputIndex;
        outputIndex := outputIndex + 1;
        Send(ItemAdded(msgIndex, MessageStub(id)));
        Send(PartAdded(msgIndex, id));
      }
    }

    method HandleText(p: Part)
      requires Running() && !p.thought && p.call.None? && p.text != ""
      modifies this, acc
      ensures Running() && View() == OnPart(old(View()), p)
    {
      hide Represents, FlushMsg, StartMsg, Step, CurrentId, CurrentSig;
      BufferShown(acc.View(), acc.draft);
      if msgStarted && acc.currentTextSig != p.sig {
        FlushCurrentMsg();
      }
      ghost var s := View();
      var msgId := acc.CurrentTextId();
      BufferShown(acc.View(), acc.draft);
      StartMessage(msgId);
      StartKeepsDraft(s);
      var _, _ := acc.ProcessPart(p);
      Send(TextDelta(msgIndex, msgId, p.text));
    }

    method HandlePart(p: Part)
      requires Running()
      modifies this, acc
      ensures Running() && View() == OnPart(old(View()), p)
    {
      hide Represents, OnThought, OnCall, OnText;
      if p.thought {
        HandleThought(p);
      } else if p.call.Some? {
        HandleCall(p);
      } else if p.text != "" || p.sig != "" {
        if p.text == "" && p.sig != "" {
          var _, _ := acc.ProcessPart(p);
        } else {
          HandleText(p);
        }
      }
    }

    /** Completes the call `callId`, whose record is looked up by id. */
    method FinalizeCall(callId: Id, ghost i: nat)
      requires acc.Valid() && i < |acc.turn.parts| && acc.turn.parts[i].CallRec? && acc.turn.parts[i].callId == callId
      requires callId !in fcFinalized && callId != NO_ID
      modifies this`events, this`fcFinalized
      ensures fcFinalized == old(fcFinalized) + {callId}
      ensures events == old(events) + if callId in fcIndexes then CallDone(fcIndexes[callId], acc.turn.parts[i]) else []
    {
      hide Represents;
      fcFinalized := fcFinalized + {callId};
      if callId !in fcIndexes {
        return;
      }
      CommittedCalls(acc.View(), acc.draft);
      var k := 0;
      while !(acc.turn.parts[k].CallRec? && acc.turn.parts[k].callId == callId)
        invariant k <= i
        invariant forall j :: 0 <= j < k && acc.turn.parts[j].CallRec? ==> acc.turn.parts[j].callId != callId
        decreases i - k
      {
        k := k + 1;
      }
      assert k == i;
      var r := acc.turn.parts[k];
      var wire := SplitWireName(r.name);
      Send(ArgsDone(fcIndexes[callId], r.itemId, r.callId, wire.0, wire.1, r.args));
      Send(ItemDone(fcIndexes[callId], ItemOf(r)));
    }

    method FinalizeCalls()
      requires Running()
      modifies this`events, this`fcFinalized
      ensures events == old(events) + CallsDone(acc.draft.parts, fcIndexes)
    {
      hide Represents, CallDone;
      CommittedCalls(acc.View(), acc.draft);
      for i := 0 to |acc.turn.parts|
        invariant events == old(events) + CallsDone(acc.turn.parts[..i], fcIndexes)
        invariant forall j :: i <= j < |acc.turn.parts| && acc.turn.parts[j].CallRec? ==> acc.turn.parts[j].callId !in fcFinalized
      {
        var r := acc.turn.parts[i];
        assert acc.turn.parts[..i + 1][..i] == acc.turn.parts[..i];
        if r.CallRec? && r.callId !in fcFinalized {
          FinalizeCall(r.callId, i);
        }
      }
      assert acc.turn.parts[..|acc.turn.parts|] == acc.turn.parts;
      CommittedDone(acc.View(), acc.draft, fcIndexes);
    }

    method EndTurn(turn: Turn)
      requires turn.ctx == acc.draft.ctx
      modifies this`events, this`reasoningStarted, this`reasoningIndex, this`outputIndex
      ensures View() == EndEmpty(EndReasoning(old(View()), turn), turn)
    {
      hide StartReasoning, DoneReasoning;
      if NeedsReasoning(turn) {
        StartReasoningItem(turn.ctx.reasoningId);
        Send(ItemDone(reasoningIndex, DoneReasoning(turn)));
      }
      if outputIndex == 0 && |turn.parts| > 0 {
        outputIndex := 1;
        Send(ItemAdded(0, MessageStub(turn.parts[0].itemId)));
        Send(ItemDone(0, MessageStub(turn.parts[0].itemId)));
      }
    }

    method Complete(reason: string, usage: Option<Decoder.Usage>, prefixHash: string, cache: SignatureCache) returns (ghost leads: seq<Id>)
      requires Running()
      modifies this, acc, cache
      ensures events == OnEnd(old(View()), reason, usage)
      ensures Visits(leads, TurnOf(Final(old(acc.draft))).siblings.Keys)
      ensures cache.View() == RunFrom(old(cache.View()), TurnOps(TurnOf(Final(old(acc.draft))), prefixHash, leads))
    {
      hide Represents, CallsDone, FlushMsg, EndReasoning, EndEmpty, OutputItems, TurnOf, TurnOps, RunFrom, Visits;
      ghost var s := View();
      FinalizeCalls();
      assert View() == s.(events := s.events + CallsDone(s.draft.parts, s.fcIndexes));
      FlushCurrentMsg();
      ghost var s1 := View();
      FlushFinal(s.(events := s.events + CallsDone(s.draft.parts, s.fcIndexes)));
      var turn := acc.Finish();
      assert turn == TurnOf(Final(s.draft));
      FinalCtx(s.draft);
      EndAfterFinish(s1, acc.draft, turn);
      leads := PopulateCache(turn, prefixHash, cache);
      EndTurn(turn);
      var output := ToOutputItems(turn);
      Send(Completed(reason == "MAX_TOKENS", output, usage));
    }
  }

  // ----- facts about the accumulator that the handler reads

  lemma TurnCtxIs(f: State, d: Draft)
    requires Represents(f, d)
    ensures f.turn.ctx == d.ctx
  {
    hide WF, Indexed;
  }

  lemma StartKeepsCtx(s: Stream, p: Part)
    ensures Step(s.draft, p).ctx == s.draft.ctx
  {
  }

  lemma StartKeepsDraft(s: Stream)
    ensures StartMsg(s).draft == s.draft
  {
  }

  lemma BufferShown(f: State, d: Draft)
    requires Represents(f, d)
    ensures f.currentTextSig == CurrentSig(d)
    ensures TextId(f.base, f.textCount) == CurrentId(d)
  {
    hide WF, Indexed, TextCount;
  }

  lemma CommittedCalls(f: State, d: Draft)
    requires Represents(f, d)
    ensures forall i, j :: 0 <= i < j < |f.turn.parts| && f.turn.parts[i].CallRec? && f.turn.parts[j].CallRec? ==>
              f.turn.parts[i].callId != f.turn.parts[j].callId
    ensures forall i :: 0 <= i < |f.turn.parts| && f.turn.parts[i].CallRec? ==> f.turn.parts[i].callId != NO_ID
  {
    hide WF, Indexed, TextCount;
    DistinctIds(d);
    assert forall i :: 0 <= i < |f.turn.parts| ==> f.turn.parts[i] == d.parts[i];
  }

  lemma CommittedDone(f: State, d: Draft, indexes: map<Id, nat>)
    requires Represents(f, d)
    ensures CallsDone(f.turn.parts, indexes) == CallsDone(d.parts, indexes)
  {
    hide WF, Indexed, TextCount;
    if f.currentText != "" {
      assert d.parts[..|d.parts| - 1] == f.turn.parts;
    }
  }

  lemma FlushFinal(s: Stream)
    ensures Final(FlushMsg(s).draft) == Final(s.draft)
    ensures FlushMsg(s).draft.ctx == s.draft.ctx
  {
  }

  lemma FinalCtx(d: Draft)
    ensures TurnOf(Final(d)).ctx == d.ctx
  {
  }

  /** Ending a stream depends on its draft through the context alone. */
  lemma EndAfterFinish(s: Stream, d: Draft, t: Turn)
    requires d.ctx == s.draft.ctx
    ensures EndEmpty(EndReasoning(s.(draft := d), t), t).events == EndEmpty(EndReasoning(s, t), t).events
  {
  }

  /**
   * The streaming handler: every upstream stream is answered with the events the machine gives,
   * and the cache learns the turn that the batch handler would store.
   */
  method HandleStreaming(decoder: Decoder.UpstreamDecoder, ctx: Ctx, prefixHash: string, cache: SignatureCache)
    returns (events: seq<Event>, ghost leads: seq<Id>)
    requires ctx.Valid()
    requires decoder.Valid() && decoder.readErr.None? && !decoder.terminalReceived
    requires decoder.ToCome() == Decoder.Script(decoder.lines)
    modifies decoder, cache
    ensures events == StreamEvents(ctx, decoder.lines, decoder.end)
    ensures VisitsLeads(ctx, decoder.lines, decoder.end, leads)
    ensures cache.View() == RunFrom(old(cache.View()), StoredOps(ctx, decoder.lines, decoder.end, prefixHash, leads))
  {
    hide TurnOps, RunFrom, Visits, TurnOf, Final, Represents, OnPart, OnEnd, Decoder.Script, Decoder.CollectedFrom, Decoder.SawTerminal,
         Decoder.NoError, Decoder.BeforeError, Decoder.Decoded, Decoder.PendingEvents;
    Decoder.NothingConsumed();
    var stream := new ResponsesStream(ctx);
    var usage: Option<Decoder.Usage>, reason, terminalReceived := None, "", false;
    ghost var consumed: seq<Decoder.StreamEvent> := [];
    ghost var c := Decoder.Collected([], None, "");
    var readErr: Option<Decoder.DecodeError> := None;
    while readErr.None?
      invariant fresh(stream) && fresh(stream.acc) && stream.Running() && cache.View() == old(cache.View())
      invariant decoder.Valid()
      invariant c == Decoder.CollectedFrom(consumed) && c.usage == usage && c.reason == reason
      invariant stream.View() == StreamRun(ctx, c.parts)
      invariant readErr.None? ==>
                  && decoder.readErr.None? && consumed + decoder.ToCome() == Decoder.Script(decoder.lines)
                  && Decoder.NoError(consumed) && terminalReceived == decoder.terminalReceived == Decoder.SawTerminal(consumed)
      invariant readErr.Some? ==>
                  && Decoder.Decoded(decoder.lines, decoder.end) == Err(readErr.value)
                  && c.parts == Decoder.AllParts(decoder.lines[..Decoder.BeforeError(decoder.lines)])
      decreases readErr.None?, |decoder.ToCome()|
    {
      ghost var before := decoder.ToCome();
      var next := decoder.Next();
      if next.Event? && !next.event.ErrorEvent? {
        var e := next.event;
        assert consumed + before == consumed + [e] + before[1..];
        Decoder.OneEvent(consumed, e);
        match e {
          case PartEvent(p) =>
            assert (c.parts + [p])[..|c.parts|] == c.parts;
            stream.HandlePart(p);
            c := c.(parts := c.parts + [p]);
          case UsageEvent(u) =>
            usage := Some(u);
            c := c.(usage := usage);
          case TerminalEvent(finish) =>
            terminalReceived, reason := true, finish;
            c := c.(reason := reason);
        }
        consumed := consumed + [e];
      } else if next.Event? {
        assert consumed + before == consumed + [next.event] + before[1..];
        Decoder.ErrorDecoded(decoder.lines, decoder.end, consumed, next.event, before[1..]);
        PartsBeforeError(decoder.lines, consumed, next.event, before[1..]);
        readErr := Some(next.event.error);
      } else {
        assert consumed == Decoder.Script(decoder.lines) by {
          assert before == [] && consumed + [] == consumed;
        }
        Decoder.Exhausted(decoder.lines, decoder.end, consumed);
        PartsAtEnd(decoder.lines, consumed);
        if next.Failure? {
          readErr := Some(next.error);
        } else {
          break;
        }
      }
    }
    if readErr.None? && !terminalReceived {
      readErr := Some(Decoder.Premature);
    }
    if readErr.Some? {
      stream.Send(Failed(readErr.value));
      RunNone(cache.View());
      return stream.events, [];
    }
    StreamLaws.StreamingDraft(ctx, c.parts);
    leads := stream.Complete(reason, usage, prefixHash, cache);
    events := stream.events;
  }

  lemma PartsBeforeError(lines: seq<Decoder.Line>, consumed: seq<Decoder.StreamEvent>, e: Decoder.StreamEvent, rest: seq<Decoder.StreamEvent>)
    requires Decoder.Script(lines) == consumed + [e] + rest && Decoder.NoError(consumed) && e.ErrorEvent?
    ensures Decoder.CollectedFrom(consumed).parts == Decoder.AllParts(lines[..Decoder.BeforeError(lines)])
  {
    hide Decoder.Script, Decoder.NoError, Decoder.PartsOf, Decoder.AllParts;
    Decoder.ErrorReached(lines, consumed, e, rest);
    Decoder.ScriptSays(lines[..Decoder.BeforeError(lines)]);
  }

  lemma PartsAtEnd(lines: seq<Decoder.Line>, consumed: seq<Decoder.StreamEvent>)
    requires consumed == Decoder.Script(lines) && Decoder.NoError(consumed)
    ensures Decoder.CollectedFrom(consumed).parts == Decoder.AllParts(lines[..Decoder.BeforeError(lines)])
  {
    hide Decoder.Script, Decoder.NoError, Decoder.PartsOf, Decoder.AllParts, Decoder.BeforeError;
    Decoder.WholeScript(lines);
    assert lines[..|lines|] == lines;
  }
}
