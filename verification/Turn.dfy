/**
 * The authoritative turn: a simple coalescing machine over upstream parts (`Draft`, `Step`)
 * and the incremental accumulator that refines it.
 */
module Turns {
  import opened Core

  /** One part of a finished model turn. */
  datatype Record =
    | TextRec(index: nat, itemId: Id, text: string, sig: string)
    | CallRec(index: nat, itemId: Id, callId: Id, upstreamId: Id, name: string, args: Args, sig: string)

  /** What identifies a turn before its first part arrives. */
  datatype Ctx = Ctx(turnId: Id, base: Id, reasoningId: Id, model: string) {
    predicate Valid() {
      base.Name? && reasoningId.ReasoningId?
    }
  }

  datatype Turn = Turn(
    ctx: Ctx,
    thoughtSummary: string,
    outputOrder: seq<Id>,
    parts: seq<Record>,
    toolSigs: map<Id, string>,
    textSigs: map<Id, string>,
    siblings: map<Id, seq<Id>>)

  // ----- tables derived from a list of records

  function TextCount(parts: seq<Record>): nat {
    if parts == [] then 0
    else TextCount(parts[..|parts| - 1]) + if parts[|parts| - 1].TextRec? then 1 else 0
  }

  function ItemIds(parts: seq<Record>): (ids: seq<Id>)
    ensures |ids| == |parts|
    ensures forall i :: 0 <= i < |parts| ==> ids[i] == parts[i].itemId
  {
    seq(|parts|, i requires 0 <= i < |parts| => parts[i].itemId)
  }

  function ItemSet(parts: seq<Record>): set<Id> {
    if parts == [] then {} else ItemSet(parts[..|parts| - 1]) + {parts[|parts| - 1].itemId}
  }

  function CallIds(parts: seq<Record>): seq<Id> {
    if parts == [] then []
    else
      var last := parts[|parts| - 1];
      CallIds(parts[..|parts| - 1]) + if last.CallRec? then [last.callId] else []
  }

  /** callId and itemId of every signed call, with its signature. */
  function ToolSigs(parts: seq<Record>): map<Id, string> {
    if parts == [] then map[]
    else
      var m := ToolSigs(parts[..|parts| - 1]);
      var last := parts[|parts| - 1];
      if last.CallRec? && last.sig != "" then m[last.callId := last.sig][last.itemId := last.sig] else m
  }

  /** itemId of every signed text, with its signature. */
  function TextSigs(parts: seq<Record>): map<Id, string> {
    if parts == [] then map[]
    else
      var m := TextSigs(parts[..|parts| - 1]);
      var last := parts[|parts| - 1];
      if last.TextRec? && last.sig != "" then m[last.itemId := last.sig] else m
  }

  function Siblings(parts: seq<Record>): map<Id, seq<Id>> {
    var calls := CallIds(parts);
    if |calls| > 1 then map[calls[0] := calls[1..]] else map[]
  }

  /** The call record that already carries an upstream id. */
  function FindUpstream(parts: seq<Record>, u: Id): (r: Option<nat>)
    ensures r.Some? ==> u != NO_ID && r.value < |parts| && parts[r.value].CallRec? && parts[r.value].upstreamId == u
    ensures r.None? && u != NO_ID ==> forall i :: 0 <= i < |parts| && parts[i].CallRec? ==> parts[i].upstreamId != u
  {
    if u == NO_ID || parts == [] then None
    else
      var n := |parts| - 1;
      if parts[n].CallRec? && parts[n].upstreamId == u then Some(n)
      else FindUpstream(parts[..n], u)
  }

  /** The latest text record. */
  function LastText(parts: seq<Record>): (r: Option<nat>)
    ensures r.Some? ==> r.value < |parts| && parts[r.value].TextRec?
    ensures forall i :: (if r.Some? then r.value < i < |parts| else 0 <= i < |parts|) ==> parts[i].CallRec?
  {
    if parts == [] then None
    else
      var n := |parts| - 1;
      if parts[n].TextRec? then Some(n) else LastText(parts[..n])
  }

  // ----- the coalescing machine

  /**
   * A turn under construction: the records so far, whether the last one is a text that can
   * still grow, the thoughts, and how many records existed when the first thought arrived.
   */
  datatype Draft = Draft(ctx: Ctx, parts: seq<Record>, open: bool, thought: string, thoughtAt: Option<nat>)

  function Start(ctx: Ctx): Draft {
    Draft(ctx, [], false, "", None)
  }

  function TextId(base: Id, n: nat): Id {
    if n == 0 && base != NO_ID then base else MsgId(base, n)
  }

  function Close(d: Draft): Draft {
    d.(open := false)
  }

  function Signed(r: Record, sig: string): Record
    requires r.TextRec?
  {
    TextRec(r.index, r.itemId, r.text, sig)
  }

  function Grown(r: Record, text: string): Record
    requires r.TextRec?
  {
    TextRec(r.index, r.itemId, r.text + text, r.sig)
  }

  function NewText(d: Draft, text: string, sig: string): Record {
    TextRec(|d.parts|, TextId(d.ctx.base, TextCount(d.parts)), text, sig)
  }

  function NewCall(d: Draft, fc: FunctionCall, sig: string): Record {
    var key := MintKey(d.ctx.turnId, d.ctx.base, fc.id, |d.parts|);
    CallRec(|d.parts|, ItemId(key), CallId(key), fc.id, fc.name, fc.args, sig)
  }

  function MergeCall(r: Record, fc: FunctionCall, sig: string): Record
    requires r.CallRec?
  {
    CallRec(r.index, r.itemId, r.callId, r.upstreamId,
            if fc.name != "" then fc.name else r.name,
            if fc.args != NilArgs then fc.args else r.args,
            if sig != "" then sig else r.sig)
  }

  predicate Extends(d: Draft, p: Part) {
    d.open && d.parts != [] && d.parts[|d.parts| - 1].TextRec? && d.parts[|d.parts| - 1].sig == p.sig
  }

  function Step(d: Draft, p: Part): Draft {
    if p.thought then
      d.(open := false,
         thought := d.thought + p.text,
         thoughtAt := if d.thoughtAt.Some? then d.thoughtAt else Some(|d.parts|))
    else if p.call.Some? then
      var fc := p.call.value;
      match FindUpstream(d.parts, fc.id)
      case Some(i) => d.(open := false, parts := d.parts[i := MergeCall(d.parts[i], fc, p.sig)])
      case None => d.(open := false, parts := d.parts + [NewCall(d, fc, p.sig)])
    else if p.text != "" then
      if Extends(d, p) then
        var n := |d.parts| - 1;
        d.(parts := d.parts[n := Grown(d.parts[n], p.text)])
      else d.(open := true, parts := d.parts + [NewText(d, p.text, p.sig)])
    else if p.sig != "" then
      match LastText(d.parts)
      case Some(i) => d.(parts := d.parts[i := Signed(d.parts[i], p.sig)])
      case None => d
    else d
  }

  function Run(ctx: Ctx, ps: seq<Part>): Draft {
    if ps == [] then Start(ctx) else Step(Run(ctx, ps[..|ps| - 1]), ps[|ps| - 1])
  }

  /** The draft whose turn is handed out: a turn without parts and thoughts gets one empty text. */
  function Final(d: Draft): Draft {
    if d.parts == [] && d.thoughtAt.None? then
      d.(parts := [TextRec(0, TextId(d.ctx.base, 0), "", "")], open := false)
    else Close(d)
  }

  /** Output ids in order of first appearance; the reasoning item sits where the first thought came. */
  function Order(d: Draft): seq<Id> {
    var ids := ItemIds(d.parts);
    if d.thoughtAt.Some? && d.thoughtAt.value <= |ids| then
      ids[..d.thoughtAt.value] + [d.ctx.reasoningId] + ids[d.thoughtAt.value..]
    else ids
  }

  function TurnOf(d: Draft): Turn {
    Turn(d.ctx, d.thought, Order(d), d.parts, ToolSigs(d.parts), TextSigs(d.parts), Siblings(d.parts))
  }

  /** The batch path on a whole part list. */
  function Built(ctx: Ctx, ps: seq<Part>): Turn {
    TurnOf(Final(Run(ctx, ps)))
  }

  // ----- what every draft keeps

  predicate WellIndexed(ctx: Ctx, parts: seq<Record>) {
    && (forall i :: 0 <= i < |parts| ==> parts[i].index == i)
    && (forall i {:trigger OwnIds(ctx, parts, i)} :: 0 <= i < |parts| ==> OwnIds(ctx, parts, i))
  }

  /** The ids of a record are minted from its position alone. */
  predicate OwnIds(ctx: Ctx, parts: seq<Record>, i: nat)
    requires i < |parts|
  {
    var r := parts[i];
    if r.TextRec? then r.itemId == TextId(ctx.base, TextCount(parts[..i]))
    else
      var key := MintKey(ctx.turnId, ctx.base, r.upstreamId, i);
      r.callId == CallId(key) && r.itemId == ItemId(key)
  }

  predicate DistinctUpstream(parts: seq<Record>) {
    forall i, j :: 0 <= i < j < |parts| && parts[i].CallRec? && parts[j].CallRec? && parts[i].upstreamId == parts[j].upstreamId
      ==> parts[i].upstreamId == NO_ID
  }

  predicate DistinctItems(parts: seq<Record>) {
    forall i, j :: 0 <= i < j < |parts| ==> parts[i].itemId != parts[j].itemId
  }

  predicate DistinctCalls(parts: seq<Record>) {
    forall i :: 0 <= i < |parts| && parts[i].CallRec? ==>
      parts[i].callId.CallId? && parts[i].itemId.ItemId?
      && forall j :: 0 <= j < i && parts[j].CallRec? ==> parts[i].callId != parts[j].callId
  }

  ghost predicate WF(d: Draft) {
    && d.ctx.Valid()
    && WellIndexed(d.ctx, d.parts)
    && DistinctUpstream(d.parts)
    && (d.open ==> d.parts != [] && d.parts[|d.parts| - 1].TextRec? && d.parts[|d.parts| - 1].text != "")
    && (d.thoughtAt.Some? ==> d.thoughtAt.value <= |d.parts|)
    && (d.thoughtAt.None? ==> d.thought == "")
  }

  /** Two record lists with the same shape have the same text counts. */
  lemma TextCountUpdate(parts: seq<Record>, i: nat, r: Record)
    requires i < |parts| && r.TextRec? == parts[i].TextRec?
    ensures TextCount(parts[i := r]) == TextCount(parts)
  {
    var n := |parts| - 1;
    if i == n {
      assert parts[i := r][..n] == parts[..n];
    } else {
      TextCountUpdate(parts[..n], i, r);
      assert parts[i := r][..n] == parts[..n][i := r];
    }
  }

  /** Changing the text, name, arguments or signature of a record keeps every id in place. */
  lemma UpdateKeepsIds(ctx: Ctx, parts: seq<Record>, i: nat, r: Record)
    requires WellIndexed(ctx, parts) && i < |parts|
    requires r.TextRec? == parts[i].TextRec? && r.index == i && r.itemId == parts[i].itemId
    requires r.CallRec? ==> r.callId == parts[i].callId && r.upstreamId == parts[i].upstreamId
    ensures WellIndexed(ctx, parts[i := r])
    ensures ItemIds(parts[i := r]) == ItemIds(parts)
    ensures CallIds(parts[i := r]) == CallIds(parts)
    ensures ItemSet(parts[i := r]) == ItemSet(parts)
  {
    ItemSetUpdate(parts, i, r);
    forall k {:trigger OwnIds(ctx, parts[i := r], k)} | 0 <= k < |parts|
      ensures OwnIds(ctx, parts[i := r], k)
    {
      assert OwnIds(ctx, parts, k);
      if i < k {
        TextCountUpdate(parts[..k], i, r);
        assert parts[i := r][..k] == parts[..k][i := r];
      } else {
        assert parts[i := r][..k] == parts[..k];
      }
    }
    CallIdsUpdate(parts, i, r);
  }

  lemma ItemSetUpdate(parts: seq<Record>, i: nat, r: Record)
    requires i < |parts| && r.itemId == parts[i].itemId
    ensures ItemSet(parts[i := r]) == ItemSet(parts)
  {
    var n := |parts| - 1;
    if i == n {
      assert parts[i := r][..n] == parts[..n];
    } else {
      ItemSetUpdate(parts[..n], i, r);
      assert parts[i := r][..n] == parts[..n][i := r];
    }
  }

  lemma ItemSetMember(parts: seq<Record>, id: Id)
    ensures id in ItemSet(parts) <==> exists i :: 0 <= i < |parts| && parts[i].itemId == id
  {
    if parts != [] {
      ItemSetMember(parts[..|parts| - 1], id);
    }
  }

  lemma CallIdsUpdate(parts: seq<Record>, i: nat, r: Record)
    requires i < |parts| && r.TextRec? == parts[i].TextRec?
    requires r.CallRec? ==> r.callId == parts[i].callId
    ensures CallIds(parts[i := r]) == CallIds(parts)
  {
    var n := |parts| - 1;
    if i == n {
      assert parts[i := r][..n] == parts[..n];
    } else {
      CallIdsUpdate(parts[..n], i, r);
      assert parts[i := r][..n] == parts[..n][i := r];
    }
  }

  lemma AppendKeepsIds(ctx: Ctx, parts: seq<Record>, r: Record)
    requires WellIndexed(ctx, parts) && r.index == |parts|
    requires OwnIds(ctx, parts + [r], |parts|)
    ensures WellIndexed(ctx, parts + [r])
  {
    forall k | 0 <= k <= |parts|
      ensures OwnIds(ctx, parts + [r], k)
    {
      if k < |parts| {
        assert OwnIds(ctx, parts, k);
        assert (parts + [r])[..k] == parts[..k];
      }
    }
  }

  lemma CallKeepsWF(d: Draft, fc: FunctionCall, sig: string)
    requires WF(d)
    ensures match FindUpstream(d.parts, fc.id)
            case Some(i) => WF(d.(open := false, parts := d.parts[i := MergeCall(d.parts[i], fc, sig)]))
            case None => WF(d.(open := false, parts := d.parts + [NewCall(d, fc, sig)]))
  {
    match FindUpstream(d.parts, fc.id)
    case Some(i) => UpdateKeepsIds(d.ctx, d.parts, i, MergeCall(d.parts[i], fc, sig));
    case None => AppendKeepsIds(d.ctx, d.parts, NewCall(d, fc, sig));
  }

  lemma TextKeepsWF(d: Draft, text: string, sig: string)
    requires WF(d) && text != ""
    ensures WF(d.(open := true, parts := d.parts + [NewText(d, text, sig)]))
    ensures d.open ==> WF(d.(parts := d.parts[|d.parts| - 1 := Grown(d.parts[|d.parts| - 1], text)]))
  {
    var r := NewText(d, text, sig);
    assert (d.parts + [r])[..|d.parts|] == d.parts;
    AppendKeepsIds(d.ctx, d.parts, r);
    if d.open {
      UpdateKeepsIds(d.ctx, d.parts, |d.parts| - 1, Grown(d.parts[|d.parts| - 1], text));
    }
  }

  lemma TailKeepsWF(d: Draft, i: nat, sig: string)
    requires WF(d) && i < |d.parts| && d.parts[i].TextRec?
    ensures WF(d.(parts := d.parts[i := Signed(d.parts[i], sig)]))
  {
    UpdateKeepsIds(d.ctx, d.parts, i, Signed(d.parts[i], sig));
  }

  /** Every step keeps indexes, ids and the distinctness of upstream ids. */
  lemma StepKeepsWF(d: Draft, p: Part)
    requires WF(d)
    ensures WF(Step(d, p))
  {
    if p.thought {
    } else if p.call.Some? {
      CallKeepsWF(d, p.call.value, p.sig);
    } else if p.text != "" {
      TextKeepsWF(d, p.text, p.sig);
    } else if LastText(d.parts).Some? {
      TailKeepsWF(d, LastText(d.parts).value, p.sig);
    }
  }

  lemma {:induction false} RunWF(ctx: Ctx, ps: seq<Part>)
    requires ctx.Valid()
    ensures WF(Run(ctx, ps))
  {
    if ps != [] {
      RunWF(ctx, ps[..|ps| - 1]);
      StepKeepsWF(Run(ctx, ps[..|ps| - 1]), ps[|ps| - 1]);
    }
  }

  lemma FinalWF(d: Draft)
    requires WF(d)
    ensures WF(Final(d))
  {
    if d.parts == [] && d.thoughtAt.None? {
      assert Final(d).parts[..0] == [];
      assert OwnIds(d.ctx, Final(d).parts, 0);
    }
  }

  lemma TextCountMonotone(parts: seq<Record>, i: nat, j: nat)
    requires i <= j <= |parts|
    ensures TextCount(parts[..i]) <= TextCount(parts[..j])
    decreases j
  {
    if i < j {
      TextCountMonotone(parts, i, j - 1);
      assert parts[..j][..j - 1] == parts[..j - 1];
    }
  }

  /** Item ids of a draft are pairwise distinct, and so are its call ids; none is the reasoning id. */
  lemma DistinctIds(d: Draft)
    requires WF(d)
    ensures DistinctItems(d.parts) && DistinctCalls(d.parts)
    ensures forall i :: 0 <= i < |d.parts| ==> d.parts[i].itemId != d.ctx.reasoningId && d.parts[i].itemId != NO_ID
    ensures forall i :: 0 <= i < |d.parts| && d.parts[i].TextRec? ==> d.parts[i].itemId.Name? || d.parts[i].itemId.MsgId?
  {
    forall i | 0 <= i < |d.parts|
      ensures d.parts[i].itemId != d.ctx.reasoningId && d.parts[i].itemId != NO_ID
      ensures d.parts[i].CallRec? ==> d.parts[i].itemId.ItemId? && d.parts[i].callId.CallId?
      ensures d.parts[i].TextRec? ==> d.parts[i].itemId.Name? || d.parts[i].itemId.MsgId?
    {
      assert OwnIds(d.ctx, d.parts, i);
    }
    forall i, j | 0 <= i < j < |d.parts|
      ensures d.parts[i].itemId != d.parts[j].itemId
      ensures d.parts[i].CallRec? && d.parts[j].CallRec? ==> d.parts[i].callId != d.parts[j].callId
    {
      assert OwnIds(d.ctx, d.parts, i) && OwnIds(d.ctx, d.parts, j);
      if d.parts[i].TextRec? {
        TextCountMonotone(d.parts, i + 1, j);
        assert d.parts[..i + 1][..i] == d.parts[..i];
      }
    }
  }

  // ----- lookup of upstream ids

  lemma {:induction false} FindUpstreamUpdate(parts: seq<Record>, i: nat, r: Record, u: Id)
    requires i < |parts| && r.CallRec? == parts[i].CallRec?
    requires r.CallRec? ==> r.upstreamId == parts[i].upstreamId
    ensures FindUpstream(parts[i := r], u) == FindUpstream(parts, u)
  {
    var n := |parts| - 1;
    if i == n {
      assert parts[i := r][..n] == parts[..n];
    } else {
      assert parts[i := r][..n] == parts[..n][i := r];
      FindUpstreamUpdate(parts[..n], i, r, u);
    }
  }

  lemma FindUpstreamSnoc(parts: seq<Record>, r: Record, u: Id)
    ensures FindUpstream(parts + [r], u) ==
            if r.CallRec? && u != NO_ID && r.upstreamId == u then Some(|parts|) else FindUpstream(parts, u)
  {
    assert (parts + [r])[..|parts|] == parts;
  }

  // ----- signature tables

  lemma {:induction false} ToolSigsUpdate(parts: seq<Record>, i: nat, r: Record)
    requires i < |parts| && DistinctItems(parts) && DistinctCalls(parts)
    requires parts[i].CallRec? && r.CallRec? && r.sig != ""
    requires r.callId == parts[i].callId && r.itemId == parts[i].itemId
    ensures ToolSigs(parts[i := r]) == ToolSigs(parts)[r.callId := r.sig][r.itemId := r.sig]
  {
    var n := |parts| - 1;
    var last := parts[n];
    if i == n {
      assert parts[i := r][..n] == parts[..n];
    } else {
      assert parts[i := r][..n] == parts[..n][i := r];
      ToolSigsUpdate(parts[..n], i, r);
      assert last.CallRec? ==> {last.callId, last.itemId} !! {r.callId, r.itemId};
    }
  }

  lemma {:induction false} ToolSigsSame(parts: seq<Record>, i: nat, r: Record)
    requires i < |parts| && parts[i].TextRec? == r.TextRec?
    requires r.CallRec? ==> r.sig == parts[i].sig && r.callId == parts[i].callId && r.itemId == parts[i].itemId
    ensures ToolSigs(parts[i := r]) == ToolSigs(parts)
  {
    var n := |parts| - 1;
    if i == n {
      assert parts[i := r][..n] == parts[..n];
    } else {
      ToolSigsSame(parts[..n], i, r);
      assert parts[i := r][..n] == parts[..n][i := r];
    }
  }

  lemma {:induction false} TextSigsUpdate(parts: seq<Record>, i: nat, r: Record)
    requires i < |parts| && DistinctItems(parts)
    requires parts[i].TextRec? && r.TextRec? && r.sig != "" && r.itemId == parts[i].itemId
    ensures TextSigs(parts[i := r]) == TextSigs(parts)[r.itemId := r.sig]
  {
    var n := |parts| - 1;
    if i == n {
      assert parts[i := r][..n] == parts[..n];
    } else {
      assert parts[i := r][..n] == parts[..n][i := r];
      TextSigsUpdate(parts[..n], i, r);
    }
  }

  lemma {:induction false} TextSigsSame(parts: seq<Record>, i: nat, r: Record)
    requires i < |parts| && parts[i].CallRec? && r.CallRec?
    ensures TextSigs(parts[i := r]) == TextSigs(parts)
  {
    var n := |parts| - 1;
    if i == n {
      assert parts[i := r][..n] == parts[..n];
    } else {
      TextSigsSame(parts[..n], i, r);
      assert parts[i := r][..n] == parts[..n][i := r];
    }
  }
}
