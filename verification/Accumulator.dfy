/**
 * The incremental accumulator. It buffers the text that can still grow, counts texts and keeps
 * lookup maps beside the turn; `Valid` ties all of it to a draft of the coalescing machine.
 */
module Accumulators {
  import opened Core
  import opened Turns

  /** The text record a call of FlushPendingText commits, if any. */
  function Pending(d: Draft): Option<Record> {
    if d.open && d.parts != [] then Some(d.parts[|d.parts| - 1]) else None
  }

  /** The record that must be committed before `p` can be taken. */
  function FlushedBy(d: Draft, p: Part): Option<Record> {
    if p.thought || p.call.Some? then Pending(d)
    else if p.text != "" && !Extends(d, p) then Pending(d)
    else None
  }

  /** The call record a part creates or updates. */
  function AddedBy(d: Draft, p: Part): Option<Record> {
    if p.thought || p.call.None? then None
    else match FindUpstream(d.parts, p.call.value.id)
      case Some(i) => Some(MergeCall(d.parts[i], p.call.value, p.sig))
      case None => Some(NewCall(d, p.call.value, p.sig))
  }

  /** The accumulator's fields. */
  datatype State = State(
    turn: Turn,
    base: Id,
    thoughtBuilder: string,
    hasThought: bool,
    currentText: string,
    currentTextSig: string,
    currentTextId: Id,
    textCount: nat,
    toolCallIds: seq<Id>,
    recordedItems: set<Id>,
    upstreamToBridge: map<Id, Id>,
    upstreamToItem: map<Id, Id>)

  /** The text being buffered, as the record it would become. */
  function Buffer(f: State): Record {
    TextRec(|f.turn.parts|, TextId(f.base, f.textCount), f.currentText, f.currentTextSig)
  }

  /** The committed records and the buffered text together are the draft's records. */
  predicate Buffered(f: State, d: Draft) {
    && f.turn.ctx == d.ctx && f.base == d.ctx.base
    && (f.currentTextSig != "" ==> f.currentText != "")
    && d.open == (f.currentText != "")
    && d.parts == (if f.currentText == "" then f.turn.parts else f.turn.parts + [Buffer(f)])
    && f.textCount == TextCount(f.turn.parts)
    && (f.currentTextId == NO_ID || f.currentTextId == TextId(f.base, f.textCount))
    && f.thoughtBuilder == d.thought && f.hasThought == d.thoughtAt.Some?
    && f.turn.thoughtSummary == "" && f.turn.siblings == map[]
  }

  /** The lookup maps are the ones the committed records determine. */
  ghost predicate UpstreamMaps(parts: seq<Record>, bridge: map<Id, Id>, item: map<Id, Id>) {
    && bridge.Keys == item.Keys
    && (forall u :: u in bridge <==> FindUpstream(parts, u).Some?)
    && (forall u :: u in bridge ==>
          var r := parts[FindUpstream(parts, u).value];
          bridge[u] == r.callId && item[u] == r.itemId)
  }

  /** Every id of the output order, as a set. */
  function Known(d: Draft): set<Id> {
    ItemSet(d.parts) + if d.thoughtAt.Some? then {d.ctx.reasoningId} else {}
  }

  ghost predicate Indexed(f: State, d: Draft) {
    && f.turn.outputOrder == Order(d)
    && f.recordedItems == Known(d)
    && f.turn.toolSigs == ToolSigs(f.turn.parts)
    && f.turn.textSigs == TextSigs(f.turn.parts)
    && f.toolCallIds == CallIds(f.turn.parts)
    && UpstreamMaps(f.turn.parts, f.upstreamToBridge, f.upstreamToItem)
  }

  /** The fields hold exactly what the draft says. */
  ghost predicate Represents(f: State, d: Draft) {
    WF(d) && Buffered(f, d) && Indexed(f, d)
  }

  /** Fields after committing the buffered text. */
  function Flushed(f: State): State {
    if f.currentText == "" then f
    else
      var r := Buffer(f);
      f.(turn := f.turn.(parts := f.turn.parts + [r],
                         textSigs := if r.sig == "" then f.turn.textSigs else f.turn.textSigs[r.itemId := r.sig]),
         textCount := f.textCount + 1, currentText := "", currentTextSig := "", currentTextId := NO_ID)
  }

  /** Fields after recording an output id. */
  function Recorded(f: State, id: Id): State {
    if id == NO_ID || id in f.recordedItems then f
    else f.(recordedItems := f.recordedItems + {id},
            turn := f.turn.(outputOrder := f.turn.outputOrder + [id]))
  }

  /** Fields after a thought, once no text is buffered. */
  function Thought(f: State, text: string): State {
    Recorded(f.(hasThought := true, thoughtBuilder := f.thoughtBuilder + text), f.turn.ctx.reasoningId)
  }

  function SignedTool(sigs: map<Id, string>, r: Record, sig: string): map<Id, string>
    requires r.CallRec?
  {
    if sig == "" then sigs else sigs[r.callId := sig][r.itemId := sig]
  }

  /** Fields after record `i` became `r`. */
  function Merged(f: State, i: nat, r: Record, sig: string): State
    requires i < |f.turn.parts| && r.CallRec?
  {
    f.(turn := f.turn.(parts := f.turn.parts[i := r], toolSigs := SignedTool(f.turn.toolSigs, r, sig)))
  }

  /** Fields after a new call record. */
  function Added(f: State, r: Record): State
    requires r.CallRec?
  {
    f.(turn := f.turn.(parts := f.turn.parts + [r],
                       toolSigs := SignedTool(f.turn.toolSigs, r, r.sig),
                       outputOrder := f.turn.outputOrder + [r.itemId]),
       recordedItems := f.recordedItems + {r.itemId},
       toolCallIds := f.toolCallIds + [r.callId],
       upstreamToBridge := Bound(f.upstreamToBridge, r.upstreamId, r.callId),
       upstreamToItem := Bound(f.upstreamToItem, r.upstreamId, r.itemId))
  }

  function Bound(m: map<Id, Id>, u: Id, id: Id): map<Id, Id> {
    if u == NO_ID then m else m[u := id]
  }

  /** Fields after committed text `i` was signed. */
  function TextSigned(f: State, i: nat, sig: string): State
    requires i < |f.turn.parts| && f.turn.parts[i].TextRec?
  {
    f.(turn := f.turn.(parts := f.turn.parts[i := Signed(f.turn.parts[i], sig)],
                       textSigs := f.turn.textSigs[f.turn.parts[i].itemId := sig]))
  }

  /** Fields after buffering more text. */
  function Buffering(f: State, p: Part): State {
    Recorded(f, TextId(f.base, f.textCount)).(
      currentText := f.currentText + p.text,
      currentTextSig := if p.sig != "" then p.sig else f.currentTextSig)
  }

  class Accumulator {
    var turn: Turn
    const base: Id
    var thoughtBuilder: string
    var hasThought: bool
    var currentText: string
    var currentTextSig: string
    var currentTextId: Id
    var textCount: nat
    var toolCallIds: seq<Id>
    var recordedItems: set<Id>
    var upstreamToBridge: map<Id, Id>
    var upstreamToItem: map<Id, Id>
    ghost var draft: Draft

    ghost function View(): State
      reads this
    {
      State(turn, base, thoughtBuilder, hasThought, currentText, currentTextSig, currentTextId, textCount,
             toolCallIds, recordedItems, upstreamToBridge, upstreamToItem)
    }

    ghost predicate Valid()
      reads this
    {
      Represents(View(), draft)
    }

    constructor (ctx: Ctx)
      requires ctx.Valid()
      ensures Valid() && draft == Start(ctx)
    {
      turn := Turn(ctx, "", [], [], map[], map[], map[]);
      base := ctx.base;
      thoughtBuilder, hasThought := "", false;
      currentText, currentTextSig, currentTextId := "", "", NO_ID;
      textCount, toolCallIds, recordedItems := 0, [], {};
      upstreamToBridge, upstreamToItem := map[], map[];
      draft := Start(ctx);
    }

    method RecordOutputItemId(id: Id)
      modifies this`turn, this`recordedItems
      ensures View() == Recorded(old(View()), id)
    {
      if id == NO_ID || id in recordedItems {
        return;
      }
      recordedItems := recordedItems + {id};
      turn := turn.(outputOrder := turn.outputOrder + [id]);
    }

    /** The client id of the text being accumulated, chosen on first use. */
    method CurrentTextId() returns (id: Id)
      requires Valid()
      modifies this`currentTextId
      ensures Valid() && id == TextId(base, textCount) && View() == old(View()).(currentTextId := id)
    {
      if currentTextId == NO_ID {
        if textCount == 0 && base != NO_ID {
          currentTextId := base;
        } else {
          currentTextId := MsgId(base, textCount);
        }
      }
      id := currentTextId;
      IdChosen(old(View()), draft, id);
    }

    method FlushPendingText() returns (flushed: Option<Record>)
      requires Valid()
      modifies this
      ensures Valid() && draft == Close(old(draft)) && flushed == Pending(old(draft))
      ensures currentText == "" && turn.parts == draft.parts
    {
      hide Represents;
      Exposed(View(), draft);
      FlushRepresents(View(), draft);
      flushed := None;
      if currentText != "" || currentTextSig != "" {
        var msgId := CurrentTextId();
        textCount := textCount + 1;
        var record := TextRec(|turn.parts|, msgId, currentText, currentTextSig);
        turn := turn.(parts := turn.parts + [record]);
        if currentTextSig != "" {
          turn := turn.(textSigs := turn.textSigs[msgId := currentTextSig]);
        }
        currentText, currentTextSig, currentTextId := "", "", NO_ID;
        flushed := Some(record);
      }
      assert View() == Flushed(old(View()));
      draft := Close(draft);
    }

    method ProcessThought(p: Part) returns (flushed: Option<Record>)
      requires Valid() && p.thought
      modifies this
      ensures Valid() && draft == Step(old(draft), p) && flushed == FlushedBy(old(draft), p)
    {
      hide Represents, TextCount;
      flushed := FlushPendingText();
      ghost var f := View();
      Exposed(f, draft);
      ThoughtRepresents(f, draft, p);
      hasThought := true;
      if p.text != "" {
        thoughtBuilder := thoughtBuilder + p.text;
      }
      assert thoughtBuilder == f.thoughtBuilder + p.text;
      RecordOutputItemId(turn.ctx.reasoningId);
      assert View() == Thought(f, p.text);
      draft := Step(draft, p);
    }

    /** A repeated call updates its record in place; a new one is appended under minted ids. */
    method ProcessCall(p: Part) returns (flushed: Option<Record>, added: Record)
      requires Valid() && !p.thought && p.call.Some?
      modifies this
      ensures Valid() && draft == Step(old(draft), p)
      ensures flushed == FlushedBy(old(draft), p) && Some(added) == AddedBy(old(draft), p)
    {
      hide Represents, TextCount, Buffered, WF;
      flushed := FlushPendingText();
      var fc := p.call.value;
      LookupCall(View(), draft, fc);
      var known := fc.id in upstreamToBridge;
      var key := MintKey(turn.ctx.turnId, base, fc.id, |turn.parts|);
      var bridgeId := if known then upstreamToBridge[fc.id] else CallId(key);
      var itemId := if known then upstreamToItem[fc.id] else ItemId(key);

      var i := 0;
      while i < |turn.parts| && !(turn.parts[i].CallRec? && turn.parts[i].callId == bridgeId)
        invariant i <= |turn.parts|
        invariant forall j :: 0 <= j < i && turn.parts[j].CallRec? ==> turn.parts[j].callId != bridgeId
      {
        i := i + 1;
      }
      if i < |turn.parts| {
        added := UpdateCall(p, i);
      } else {
        added := CallRec(|turn.parts|, itemId, bridgeId, fc.id, fc.name, fc.args, p.sig);
        AddCall(p, added);
      }
    }

    method UpdateCall(p: Part, i: nat) returns (updated: Record)
      requires Valid() && !draft.open && turn.parts == draft.parts
      requires !p.thought && p.call.Some? && FindUpstream(draft.parts, p.call.value.id) == Some(i)
      modifies this
      ensures Valid() && draft == Step(old(draft), p) && Some(updated) == AddedBy(old(draft), p)
    {
      hide Represents, TextCount;
      ghost var f := View();
      Exposed(f, draft);
      MergeRepresents(f, draft, p, i);
      updated := MergeCall(turn.parts[i], p.call.value, p.sig);
      turn := turn.(parts := turn.parts[i := updated]);
      if p.sig != "" {
        turn := turn.(toolSigs := turn.toolSigs[updated.callId := p.sig][updated.itemId := p.sig]);
      }
      assert View() == Merged(f, i, updated, p.sig);
      draft := Step(draft, p);
    }

    method AddCall(p: Part, record: Record)
      requires Valid() && !draft.open && turn.parts == draft.parts
      requires !p.thought && p.call.Some? && FindUpstream(draft.parts, p.call.value.id) == None
      requires record == NewCall(draft, p.call.value, p.sig)
      modifies this
      ensures Valid() && draft == Step(old(draft), p)
    {
      hide Represents, TextCount, Buffered, Step;
      ghost var f := View();
      IdlePending(f, draft);
      NewCallRepresents(f, draft, p);
      turn := turn.(parts := turn.parts + [record]);
      RecordOutputItemId(record.itemId);
      toolCallIds := toolCallIds + [record.callId];
      if record.upstreamId != NO_ID {
        upstreamToBridge := upstreamToBridge[record.upstreamId := record.callId];
        upstreamToItem := upstreamToItem[record.upstreamId := record.itemId];
      }
      if p.sig != "" {
        turn := turn.(toolSigs := turn.toolSigs[record.callId := p.sig][record.itemId := p.sig]);
      }
      assert View() == Added(f, record);
      draft := Step(draft, p);
    }

    /** A part that carries a signature and no text signs the latest text. */
    method ProcessTail(p: Part)
      requires Valid() && !p.thought && p.call.None? && p.text == "" && p.sig != ""
      modifies this
      ensures Valid() && draft == Step(old(draft), p)
    {
      hide Represents, TextCount, Buffered;
      ghost var f := View();
      TailRepresents(f, draft, p);
      if currentText != "" {
        currentTextSig := p.sig;
        assert View() == f.(currentTextSig := p.sig);
      } else {
        var i := |turn.parts|;
        while i > 0 && !turn.parts[i - 1].TextRec?
          invariant 0 <= i <= |turn.parts|
          invariant forall k :: i <= k < |turn.parts| ==> turn.parts[k].CallRec?
        {
          i := i - 1;
        }
        LastTextIs(turn.parts, i);
        if i > 0 {
          var r := turn.parts[i - 1];
          turn := turn.(parts := turn.parts[i - 1 := Signed(r, p.sig)],
                        textSigs := turn.textSigs[r.itemId := p.sig]);
          assert View() == TextSigned(f, i - 1, p.sig);
        }
      }
      draft := Step(draft, p);
    }

    method ProcessText(p: Part) returns (flushed: Option<Record>)
      requires Valid() && !p.thought && p.call.None? && p.text != ""
      modifies this
      ensures Valid() && draft == Step(old(draft), p) && flushed == FlushedBy(old(draft), p)
    {
      hide Represents, TextCount, Step, Buffered;
      flushed := None;
      SignatureBoundary(View(), draft, p);
      if currentText != "" && currentTextSig != p.sig {
        flushed := FlushPendingText();
      }
      var msgId := CurrentTextId();
      ghost var f := View();
      TextRepresents(f, draft, p);
      RecordOutputItemId(msgId);
      currentText := currentText + p.text;
      if p.sig != "" {
        currentTextSig := p.sig;
      }
      assert View() == Buffering(f, p);
      draft := Step(draft, p);
    }

    method ProcessPart(p: Part) returns (flushed: Option<Record>, added: Option<Record>)
      requires Valid()
      modifies this
      ensures Valid() && draft == Step(old(draft), p)
      ensures flushed == FlushedBy(old(draft), p) && added == AddedBy(old(draft), p)
    {
      hide Represents, TextCount;
      flushed, added := None, None;
      if p.thought {
        flushed := ProcessThought(p);
      } else if p.call.Some? {
        var record;
        flushed, record := ProcessCall(p);
        added := Some(record);
      } else if p.text != "" || p.sig != "" {
        if p.text == "" && p.sig != "" {
          ProcessTail(p);
        } else {
          flushed := ProcessText(p);
        }
      }
    }

    method Finish() returns (t: Turn)
      requires Valid()
      modifies this
      ensures t == TurnOf(Final(old(draft))) && draft == Close(old(draft))
    {
      hide Represents, TextCount;
      var _ := FlushPendingText();
      Exposed(View(), draft);
      FinishRepresents(View(), draft);
      if |turn.parts| == 0 && !hasThought {
        var msgId := if base == NO_ID then MsgId(NO_ID, 0) else base;
        turn := turn.(parts := turn.parts + [TextRec(0, msgId, "", "")]);
        RecordOutputItemId(msgId);
      }
      turn := turn.(thoughtSummary := thoughtBuilder);
      if |toolCallIds| > 1 {
        turn := turn.(siblings := turn.siblings[toolCallIds[0] := toolCallIds[1..]]);
      }
      t := turn;
    }
  }

  /** The batch path: every part in order, then Finish. */
  method BuildAuthoritativeTurn(parts: seq<Part>, ctx: Ctx) returns (t: Turn)
    requires ctx.Valid()
    ensures t == Built(ctx, parts)
  {
    var acc := new Accumulator(ctx);
    for i := 0 to |parts|
      invariant fresh(acc) && acc.Valid() && acc.draft == Run(ctx, parts[..i])
    {
      assert parts[..i + 1][..i] == parts[..i];
      var _, _ := acc.ProcessPart(parts[i]);
    }
    assert parts[..|parts|] == parts;
    t := acc.Finish();
  }

  // ----- each change of the fields follows the draft

  lemma Exposed(f: State, d: Draft)
    requires Represents(f, d)
    ensures Buffered(f, d) && f.toolCallIds == CallIds(f.turn.parts)
  {
    hide WF;
  }

  lemma IdlePending(f: State, d: Draft)
    requires Represents(f, d)
    ensures !d.open ==> f.currentText == ""
  {
    hide WF, Indexed;
  }

  lemma IdChosen(f: State, d: Draft, id: Id)
    requires Represents(f, d) && id == TextId(f.base, f.textCount)
    ensures Represents(f.(currentTextId := id), d)
  {
    hide WF;
  }

  lemma FlushRepresents(f: State, d: Draft)
    requires Represents(f, d)
    ensures Represents(Flushed(f), Close(d))
    ensures Pending(d) == if f.currentText == "" then None else Some(Buffer(f))
    ensures Flushed(f).currentText == "" && Flushed(f).currentTextSig == "" && Flushed(f).turn.parts == d.parts
  {
    hide WF, TextCount, ItemSet, CallIds, ToolSigs, TextSigs, FindUpstream, ItemIds, UpstreamMaps;
    Basics(d);
    if f.currentText != "" {
      TablesSnoc(f.turn.parts, Buffer(f));
      UpstreamMapsText(f.turn.parts, Buffer(f), f.upstreamToBridge, f.upstreamToItem);
    }
  }

  lemma ThoughtRepresents(f: State, d: Draft, p: Part)
    requires Represents(f, d) && f.currentText == "" && p.thought
    ensures Represents(Thought(f, p.text), Step(d, p))
  {
    hide WF, UpstreamMaps, TextCount, ItemSet, CallIds, ToolSigs, TextSigs, FindUpstream, ItemIds;
    Basics(d);
    StepKeepsWF(d, p);
    ReasoningIsNew(d);
  }

  /** What the upstream map and the search by call id find is the record with the same upstream id. */
  lemma LookupCall(f: State, d: Draft, fc: FunctionCall)
    requires Represents(f, d) && f.turn.parts == d.parts
    ensures f.turn.ctx == d.ctx && f.base == d.ctx.base
    ensures match FindUpstream(d.parts, fc.id)
            case Some(i) =>
              && fc.id in f.upstreamToBridge && fc.id in f.upstreamToItem
              && f.upstreamToBridge[fc.id] == d.parts[i].callId
              && (forall j :: 0 <= j < |d.parts| && d.parts[j].CallRec? && d.parts[j].callId == d.parts[i].callId ==> j == i)
            case None =>
              && fc.id !in f.upstreamToBridge
              && (forall j :: 0 <= j < |d.parts| && d.parts[j].CallRec? ==>
                    d.parts[j].callId != CallId(MintKey(d.ctx.turnId, d.ctx.base, fc.id, |d.parts|)))
  {
    hide TextCount, ItemSet, CallIds, ToolSigs, TextSigs, ItemIds, DistinctUpstream;
    forall j | 0 <= j < |d.parts| && d.parts[j].CallRec?
      ensures d.parts[j].callId == CallId(MintKey(d.ctx.turnId, d.ctx.base, d.parts[j].upstreamId, j))
    {
      assert OwnIds(d.ctx, d.parts, j);
    }
  }

  /** Merging into a call record changes no table but the tool signatures. */
  lemma MergeRepresents(f: State, d: Draft, p: Part, i: nat)
    requires Represents(f, d) && f.currentText == "" && !p.thought && p.call.Some?
    requires f.turn.parts == d.parts && FindUpstream(d.parts, p.call.value.id) == Some(i)
    ensures Represents(Merged(f, i, MergeCall(d.parts[i], p.call.value, p.sig), p.sig), Step(d, p))
  {
    hide WF, TextCount, ItemSet, CallIds, ToolSigs, TextSigs, FindUpstream, ItemIds, UpstreamMaps;
    var r := MergeCall(d.parts[i], p.call.value, p.sig);
    Basics(d);
    StepKeepsWF(d, p);
    CallUpdate(d, i, r);
    UpstreamMapsUpdate(d.parts, i, r, f.upstreamToBridge, f.upstreamToItem);
  }

  /** Appending a new call under its minted ids. */
  lemma NewCallRepresents(f: State, d: Draft, p: Part)
    requires Represents(f, d) && f.currentText == "" && !p.thought && p.call.Some?
    requires FindUpstream(d.parts, p.call.value.id) == None
    ensures var r := NewCall(d, p.call.value, p.sig);
            r.itemId !in f.recordedItems && Represents(Added(f, r), Step(d, p))
  {
    hide WF, TextCount, ItemSet, CallIds, ToolSigs, TextSigs, FindUpstream, ItemIds, UpstreamMaps, Order;
    var r := NewCall(d, p.call.value, p.sig);
    StepKeepsWF(d, p);
    OrderSnoc(d, r);
    NewItemId(d, Step(d, p), r);
    TablesSnoc(d.parts, r);
    UpstreamMapsSnoc(d.parts, r, f.upstreamToBridge, f.upstreamToItem);
  }

  lemma TailRepresents(f: State, d: Draft, p: Part)
    requires Represents(f, d) && !p.thought && p.call.None? && p.text == "" && p.sig != ""
    ensures f.currentText != "" ==> Represents(f.(currentTextSig := p.sig), Step(d, p))
    ensures f.currentText == "" ==>
              match LastText(f.turn.parts)
              case None => Represents(f, Step(d, p))
              case Some(i) => Represents(TextSigned(f, i, p.sig), Step(d, p))
  {
    if f.currentText != "" {
      BufferedTail(f, d, p);
    } else {
      CommittedTail(f, d, p);
    }
  }

  lemma BufferedTail(f: State, d: Draft, p: Part)
    requires Represents(f, d) && !p.thought && p.call.None? && p.text == "" && p.sig != "" && f.currentText != ""
    ensures Represents(f.(currentTextSig := p.sig), Step(d, p))
  {
    hide WF, TextCount, ItemSet, CallIds, ToolSigs, TextSigs, FindUpstream, ItemIds, UpstreamMaps;
    Basics(d);
    StepKeepsWF(d, p);
    var i := |d.parts| - 1;
    assert LastText(d.parts) == Some(i);
    TextUpdate(d, i, Signed(d.parts[i], p.sig));
  }

  lemma CommittedTail(f: State, d: Draft, p: Part)
    requires Represents(f, d) && !p.thought && p.call.None? && p.text == "" && p.sig != "" && f.currentText == ""
    ensures match LastText(f.turn.parts)
            case None => Represents(f, Step(d, p))
            case Some(i) => Represents(TextSigned(f, i, p.sig), Step(d, p))
  {
    hide WF, TextCount, ItemSet, CallIds, ToolSigs, TextSigs, FindUpstream, ItemIds, LastText, UpstreamMaps;
    Basics(d);
    StepKeepsWF(d, p);
    if LastText(d.parts).Some? {
      var i := LastText(d.parts).value;
      var r := Signed(d.parts[i], p.sig);
      TextUpdate(d, i, r);
      UpstreamMapsUpdate(d.parts, i, r, f.upstreamToBridge, f.upstreamToItem);
    }
  }

  lemma LastTextIs(parts: seq<Record>, i: nat)
    requires i <= |parts| && (i > 0 ==> parts[i - 1].TextRec?)
    requires forall k :: i <= k < |parts| ==> parts[k].CallRec?
    ensures LastText(parts) == if i > 0 then Some(i - 1) else None
  {
  }

  /** A text with another signature closes the buffered one first; nothing else changes. */
  lemma SignatureBoundary(f: State, d: Draft, p: Part)
    requires Represents(f, d) && !p.thought && p.call.None? && p.text != ""
    ensures Extends(d, p) <==> f.currentText != "" && f.currentTextSig == p.sig
    ensures f.currentText != "" && f.currentTextSig != p.sig ==>
              Step(Close(d), p) == Step(d, p) && FlushedBy(d, p) == Pending(d)
    ensures f.currentText == "" || f.currentTextSig == p.sig ==> FlushedBy(d, p) == None
  {
    hide WF, Indexed, TextCount;
  }

  lemma TextRepresents(f: State, d: Draft, p: Part)
    requires Represents(f, d) && !p.thought && p.call.None? && p.text != ""
    requires f.currentText != "" ==> f.currentTextSig == p.sig
    ensures Represents(Buffering(f, p), Step(d, p))
  {
    hide WF, UpstreamMaps, TextCount, ItemSet, CallIds, ToolSigs, TextSigs, FindUpstream, ItemIds;
    Basics(d);
    StepKeepsWF(d, p);
    if f.currentText == "" {
      var r := NewText(d, p.text, p.sig);
      OrderSnoc(d, r);
      NewItemId(d, Step(d, p), r);
      TablesSnoc(d.parts, r);
      assert f.currentText + p.text == p.text;
    } else {
      var n := |d.parts| - 1;
      var r := Grown(d.parts[n], p.text);
      GrowKeepsIds(d, p.text);
      assert d.parts[n := r] == f.turn.parts + [r];
    }
  }

  lemma FinishRepresents(f: State, d: Draft)
    requires Represents(f, d) && f.currentText == "" && !d.open
    ensures |f.turn.parts| == 0 && !f.hasThought ==>
              var r := TextRec(0, TextId(f.base, 0), "", "");
              Recorded(f, r.itemId).turn.(parts := [r], thoughtSummary := d.thought) == TurnOf(Final(d))
    ensures !(|f.turn.parts| == 0 && !f.hasThought) ==>
              f.turn.(thoughtSummary := d.thought, siblings := Siblings(d.parts)) == TurnOf(Final(d))
  {
    if |f.turn.parts| == 0 && !f.hasThought {
      var r := TextRec(0, TextId(f.base, 0), "", "");
      assert d.parts == [] && Order(d) == [];
      assert Final(d).parts == [r] && [r][..0] == [];
      assert Order(Final(d)) == [r.itemId];
      assert r.itemId != NO_ID;
      assert f.recordedItems == {};
    }
  }

  // ----- how one step changes the derived tables

  lemma TablesSnoc(parts: seq<Record>, r: Record)
    ensures ItemIds(parts + [r]) == ItemIds(parts) + [r.itemId]
    ensures TextCount(parts + [r]) == TextCount(parts) + if r.TextRec? then 1 else 0
    ensures ItemSet(parts + [r]) == ItemSet(parts) + {r.itemId}
    ensures CallIds(parts + [r]) == CallIds(parts) + if r.CallRec? then [r.callId] else []
    ensures ToolSigs(parts + [r]) ==
            if r.CallRec? && r.sig != "" then ToolSigs(parts)[r.callId := r.sig][r.itemId := r.sig] else ToolSigs(parts)
    ensures TextSigs(parts + [r]) ==
            if r.TextRec? && r.sig != "" then TextSigs(parts)[r.itemId := r.sig] else TextSigs(parts)
  {
    assert (parts + [r])[..|parts|] == parts;
  }

  lemma Basics(d: Draft)
    requires WF(d)
    ensures WF(Close(d)) && d.ctx.Valid()
    ensures d.thoughtAt.Some? ==> d.thoughtAt.value <= |d.parts|
    ensures d.thoughtAt.None? ==> d.thought == ""
    ensures forall i :: 0 <= i < |d.parts| ==> d.parts[i].index == i
  {
  }

  /** The first thought puts the reasoning id at the end of the output order. */
  lemma ReasoningIsNew(d: Draft)
    requires WF(d)
    ensures d.ctx.reasoningId != NO_ID
    ensures d.thoughtAt.None? ==>
              && d.ctx.reasoningId !in Known(d)
              && forall open, thought :: Order(Draft(d.ctx, d.parts, open, thought, Some(|d.parts|))) == Order(d) + [d.ctx.reasoningId]
  {
    DistinctIds(d);
    ItemSetMember(d.parts, d.ctx.reasoningId);
    var ids := ItemIds(d.parts);
    assert ids[..|ids|] == ids && ids[|ids|..] == [];
  }

  lemma GrowKeepsIds(d: Draft, text: string)
    requires WF(d) && d.open
    ensures var n := |d.parts| - 1;
            && d.parts[n].itemId in Known(d) && d.parts[n].TextRec?
            && ItemIds(d.parts[n := Grown(d.parts[n], text)]) == ItemIds(d.parts)
            && ItemSet(d.parts[n := Grown(d.parts[n], text)]) == ItemSet(d.parts)
  {
    var n := |d.parts| - 1;
    UpdateKeepsIds(d.ctx, d.parts, n, Grown(d.parts[n], text));
    ItemSetMember(d.parts, d.parts[n].itemId);
  }

  /** The id of an appended record is new to the output order. */
  lemma NewItemId(d: Draft, d': Draft, r: Record)
    requires WF(d) && WF(d') && d'.ctx == d.ctx && d'.parts == d.parts + [r]
    ensures r.itemId !in Known(d) && r.itemId != NO_ID
  {
    DistinctIds(d');
    ItemSetMember(d.parts, r.itemId);
    assert d'.parts[|d.parts|] == r;
    assert forall i :: 0 <= i < |d.parts| ==> d'.parts[i] == d.parts[i];
  }

  /** Rewriting a call record changes at most the tool signatures. */
  lemma CallUpdate(d: Draft, i: nat, r: Record)
    requires WF(d) && i < |d.parts| && d.parts[i].CallRec? && r.CallRec?
    requires r.index == i && r.itemId == d.parts[i].itemId && r.callId == d.parts[i].callId && r.upstreamId == d.parts[i].upstreamId
    ensures ItemIds(d.parts[i := r]) == ItemIds(d.parts) && ItemSet(d.parts[i := r]) == ItemSet(d.parts)
    ensures CallIds(d.parts[i := r]) == CallIds(d.parts)
    ensures TextSigs(d.parts[i := r]) == TextSigs(d.parts)
    ensures TextCount(d.parts[i := r]) == TextCount(d.parts)
    ensures r.sig == d.parts[i].sig ==> ToolSigs(d.parts[i := r]) == ToolSigs(d.parts)
    ensures r.sig != "" ==> ToolSigs(d.parts[i := r]) == ToolSigs(d.parts)[r.callId := r.sig][r.itemId := r.sig]
  {
    DistinctIds(d);
    UpdateKeepsIds(d.ctx, d.parts, i, r);
    hide WF;
    TextSigsSame(d.parts, i, r);
    TextCountUpdate(d.parts, i, r);
    if r.sig == d.parts[i].sig {
      ToolSigsSame(d.parts, i, r);
    }
    if r.sig != "" {
      ToolSigsUpdate(d.parts, i, r);
    }
  }

  /** Signing a text changes at most the text signatures. */
  lemma TextUpdate(d: Draft, i: nat, r: Record)
    requires WF(d) && i < |d.parts| && d.parts[i].TextRec? && r.TextRec?
    requires r.index == i && r.itemId == d.parts[i].itemId && r.sig != ""
    ensures ItemIds(d.parts[i := r]) == ItemIds(d.parts) && ItemSet(d.parts[i := r]) == ItemSet(d.parts)
    ensures CallIds(d.parts[i := r]) == CallIds(d.parts)
    ensures ToolSigs(d.parts[i := r]) == ToolSigs(d.parts)
    ensures TextCount(d.parts[i := r]) == TextCount(d.parts)
    ensures TextSigs(d.parts[i := r]) == TextSigs(d.parts)[r.itemId := r.sig]
  {
    DistinctIds(d);
    UpdateKeepsIds(d.ctx, d.parts, i, r);
    hide WF;
    ToolSigsSame(d.parts, i, r);
    TextCountUpdate(d.parts, i, r);
    TextSigsUpdate(d.parts, i, r);
  }

  lemma OrderSnoc(d: Draft, r: Record)
    requires WF(d)
    ensures forall open, thought :: Order(Draft(d.ctx, d.parts + [r], open, thought, d.thoughtAt)) == Order(d) + [r.itemId]
  {
    assert ItemIds(d.parts + [r]) == ItemIds(d.parts) + [r.itemId];
    if d.thoughtAt.Some? {
      var k, ids := d.thoughtAt.value, ItemIds(d.parts);
      assert (ids + [r.itemId])[..k] == ids[..k];
      assert (ids + [r.itemId])[k..] == ids[k..] + [r.itemId];
    }
  }

  lemma UpstreamMapsText(parts: seq<Record>, r: Record, bridge: map<Id, Id>, item: map<Id, Id>)
    requires UpstreamMaps(parts, bridge, item) && r.TextRec?
    ensures UpstreamMaps(parts + [r], bridge, item)
  {
    hide FindUpstream;
    forall u
      ensures FindUpstream(parts + [r], u) == FindUpstream(parts, u)
    {
      FindUpstreamSnoc(parts, r, u);
    }
  }

  lemma UpstreamMapsUpdate(parts: seq<Record>, i: nat, r: Record, bridge: map<Id, Id>, item: map<Id, Id>)
    requires UpstreamMaps(parts, bridge, item) && i < |parts| && r.CallRec? == parts[i].CallRec?
    requires r.CallRec? ==> r.upstreamId == parts[i].upstreamId && r.callId == parts[i].callId && r.itemId == parts[i].itemId
    ensures UpstreamMaps(parts[i := r], bridge, item)
  {
    hide FindUpstream;
    forall u
      ensures FindUpstream(parts[i := r], u) == FindUpstream(parts, u)
    {
      FindUpstreamUpdate(parts, i, r, u);
    }
  }

  lemma UpstreamMapsSnoc(parts: seq<Record>, r: Record, bridge: map<Id, Id>, item: map<Id, Id>)
    requires UpstreamMaps(parts, bridge, item) && r.CallRec? && FindUpstream(parts, r.upstreamId) == None
    ensures UpstreamMaps(parts + [r], Bound(bridge, r.upstreamId, r.callId), Bound(item, r.upstreamId, r.itemId))
  {
    hide FindUpstream;
    forall u
      ensures FindUpstream(parts + [r], u) == if u != NO_ID && r.upstreamId == u then Some(|parts|) else FindUpstream(parts, u)
    {
      FindUpstreamSnoc(parts, r, u);
    }
  }
}
