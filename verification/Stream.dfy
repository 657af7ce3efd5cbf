/** The Responses stream as a machine that emits events part by part. */
module Streams {
  import opened Core
  import opened Turns
  import opened Accumulators
  import opened Outputs
  import Decoder

  /** Events sent to the client; the sequence number of an event is its position. */
  datatype Event =
    | Created
    | ItemAdded(index: nat, item: OutItem)
    | PartAdded(index: nat, id: Id)
    | TextDelta(index: nat, id: Id, delta: string)
    | TextDone(index: nat, id: Id, text: string)
    | PartDone(index: nat, id: Id, text: string)
    | ReasoningDelta(index: nat, id: Id, delta: string)
    | ArgsDone(index: nat, id: Id, callId: Id, namespace: string, name: string, args: Args)
    | ItemDone(index: nat, item: OutItem)
    | Failed(error: Decoder.DecodeError)
    | Completed(incomplete: bool, output: seq<OutItem>, usage: Option<Decoder.Usage>)

  datatype Stream = Stream(
    draft: Draft,
    events: seq<Event>,
    outputIndex: nat,
    msgStarted: bool,
    msgIndex: nat,
    reasoningStarted: bool,
    reasoningIndex: nat,
    fcIndexes: map<Id, nat>)

  function Open(ctx: Ctx): Stream {
    Stream(Start(ctx), [Created], 0, false, 0, false, 0, map[])
  }

  // ----- events of one output item

  function MessageDone(index: nat, r: Record): seq<Event> {
    [TextDone(index, r.itemId, if r.TextRec? then r.text else ""),
     PartDone(index, r.itemId, if r.TextRec? then r.text else ""),
     ItemDone(index, ItemOf(r))]
  }

  function MessageStub(id: Id): OutItem {
    MessageOut(id, "", "")
  }

  function ReasoningStub(id: Id): OutItem {
    ReasoningOut(id, None, "")
  }

  function CallStub(r: Record): OutItem
    requires r.CallRec?
  {
    CallOut(r.itemId, r.callId, SplitWireName(r.name).0, SplitWireName(r.name).1, NilArgs, r.sig)
  }

  function CallDone(index: nat, r: Record): seq<Event>
    requires r.CallRec?
  {
    [ArgsDone(index, r.itemId, r.callId, SplitWireName(r.name).0, SplitWireName(r.name).1, r.args),
     ItemDone(index, ItemOf(r))]
  }

  /** The carrier of the completed reasoning event, which leaves out model and turn id. */
  function DoneReasoning(t: Turn): OutItem {
    ReasoningOut(
      t.ctx.reasoningId,
      Some(Carrier(NO_ID, "", t.parts, t.toolSigs, t.siblings, t.textSigs, t.outputOrder)),
      t.thoughtSummary)
  }

  // ----- one part

  /** Closes the open message, announcing its final text. */
  function FlushMsg(s: Stream): Stream {
    if !s.msgStarted then s
    else match Pending(s.draft)
      case None => s.(draft := Close(s.draft))
      case Some(r) => s.(draft := Close(s.draft), events := s.events + MessageDone(s.msgIndex, r), msgStarted := false)
  }

  function StartReasoning(s: Stream): Stream {
    if s.reasoningStarted then s
    else
      s.(reasoningStarted := true, reasoningIndex := s.outputIndex, outputIndex := s.outputIndex + 1,
         events := s.events + [ItemAdded(s.outputIndex, ReasoningStub(s.draft.ctx.reasoningId))])
  }

  function OnThought(s0: Stream, p: Part): Stream {
    var s := StartReasoning(FlushMsg(s0));
    s.(draft := Step(s.draft, p),
       events := s.events + if p.text == "" then [] else [ReasoningDelta(s.reasoningIndex, s.draft.ctx.reasoningId, p.text)])
  }

  function OnCall(s0: Stream, p: Part): Stream
    requires !p.thought && p.call.Some?
  {
    var s := FlushMsg(s0);
    var added := AddedBy(s.draft, p).value;
    var s' := s.(draft := Step(s.draft, p));
    if !added.CallRec? || added.callId in s.fcIndexes then s'
    else
      s'.(outputIndex := s.outputIndex + 1,
          fcIndexes := s.fcIndexes[added.callId := s.outputIndex],
          events := s.events + [ItemAdded(s.outputIndex, CallStub(added))])
  }

  function CurrentSig(d: Draft): string {
    if d.open && d.parts != [] then d.parts[|d.parts| - 1].sig else ""
  }

  function CurrentId(d: Draft): Id {
    if d.open && d.parts != [] then d.parts[|d.parts| - 1].itemId else TextId(d.ctx.base, TextCount(d.parts))
  }

  function StartMsg(s: Stream): Stream {
    if s.msgStarted then s
    else
      s.(msgStarted := true, msgIndex := s.outputIndex, outputIndex := s.outputIndex + 1,
         events := s.events + [ItemAdded(s.outputIndex, MessageStub(CurrentId(s.draft)))] + [PartAdded(s.outputIndex, CurrentId(s.draft))])
  }

  function OnText(s0: Stream, p: Part): Stream {
    var s := StartMsg(if s0.msgStarted && CurrentSig(s0.draft) != p.sig then FlushMsg(s0) else s0);
    s.(draft := Step(s.draft, p), events := s.events + [TextDelta(s.msgIndex, CurrentId(s.draft), p.text)])
  }

  function OnPart(s: Stream, p: Part): Stream {
    if p.thought then OnThought(s, p)
    else if p.call.Some? then OnCall(s, p)
    else if p.text != "" then OnText(s, p)
    else s.(draft := Step(s.draft, p))
  }

  function StreamRun(ctx: Ctx, ps: seq<Part>): Stream {
    if ps == [] then Open(ctx) else OnPart(StreamRun(ctx, ps[..|ps| - 1]), ps[|ps| - 1])
  }

  // ----- the end of the stream

  function CallsDone(parts: seq<Record>, indexes: map<Id, nat>): seq<Event> {
    if parts == [] then []
    else
      var last := parts[|parts| - 1];
      CallsDone(parts[..|parts| - 1], indexes) +
      if last.CallRec? && last.callId in indexes then CallDone(indexes[last.callId], last) else []
  }

  function EndReasoning(s: Stream, t: Turn): Stream {
    if !NeedsReasoning(t) then s
    else
      var s' := StartReasoning(s);
      s'.(events := s'.events + [ItemDone(s'.reasoningIndex, DoneReasoning(t))])
  }

  function EndEmpty(s: Stream, t: Turn): Stream {
    if s.outputIndex != 0 || t.parts == [] then s
    else
      s.(outputIndex := 1,
         events := s.events + [ItemAdded(0, MessageStub(t.parts[0].itemId))] + [ItemDone(0, MessageStub(t.parts[0].itemId))])
  }

  /** Everything announced before the final event. */
  function Ended(s: Stream): Stream {
    var s1 := FlushMsg(s.(events := s.events + CallsDone(s.draft.parts, s.fcIndexes)));
    var t := TurnOf(Final(s.draft));
    EndEmpty(EndReasoning(s1, t), t)
  }

  function OnEnd(s: Stream, reason: string, usage: Option<Decoder.Usage>): seq<Event> {
    Ended(s).events + [Completed(reason == "MAX_TOKENS", OutputItems(TurnOf(Final(s.draft))), usage)]
  }

  /** The response of the batch handler: its status flag, output and usage. */
  function BatchResponse(c: Decoder.Collected, ctx: Ctx): Event {
    Completed(c.reason == "MAX_TOKENS", OutputItems(Built(ctx, c.parts)), c.usage)
  }
}
