/** What the stream announces of an item: all that is known of it when its first part arrives. */
module Announcements {
  import opened Core
  import opened Turns
  import opened Accumulators
  import opened TurnLaws
  import opened RecordLaws
  import opened Outputs
  import opened Streams
  import opened StreamLaws

  /** The first announcement of an item. */
  function AnnouncedAs(es: seq<Event>, id: Id): Option<OutItem> {
    if es == [] then None
    else if AnnouncedAs(es[..|es| - 1], id).Some? then AnnouncedAs(es[..|es| - 1], id)
    else if es[|es| - 1].ItemAdded? && es[|es| - 1].item.id == id then Some(es[|es| - 1].item)
    else None
  }

  lemma AnnouncedSnoc(es: seq<Event>, e: Event, id: Id)
    ensures AnnouncedAs(es + [e], id) ==
            if AnnouncedAs(es, id).Some? then AnnouncedAs(es, id) else if e.ItemAdded? && e.item.id == id then Some(e.item) else None
  {
    assert (es + [e])[..|es|] == es;
  }

  predicate Quiet(es: seq<Event>) {
    forall i :: 0 <= i < |es| ==> !es[i].ItemAdded?
  }

  lemma {:induction false} QuietSame(es: seq<Event>, more: seq<Event>, id: Id)
    requires Quiet(more)
    ensures AnnouncedAs(es + more, id) == AnnouncedAs(es, id)
  {
    if more == [] {
      assert es + more == es;
    } else {
      var n := |more| - 1;
      QuietSame(es, more[..n], id);
      assert es + more == es + more[..n] + [more[n]];
      AnnouncedSnoc(es + more[..n], more[n], id);
    }
  }

  /** The announcement of the record that part `p` begins: an empty message, or the call as that part gives it. */
  function Announcing(r: Record, p: Part): OutItem {
    match r
    case TextRec(_, id, _, _) => MessageOut(id, "", "")
    case CallRec(_, id, callId, _, _, _, _) =>
      if p.call.Some? then
        CallOut(id, callId, SplitWireName(p.call.value.name).0, SplitWireName(p.call.value.name).1, NilArgs, p.sig)
      else CallOut(id, callId, "", "", NilArgs, "")
  }

  /** Every record was announced by the part that begins it, the thoughts by an empty reasoning item, and nothing else. */
  ghost predicate AllAnnounced(parts: seq<Record>, thought: bool, rs: Id, ps: seq<Part>, es: seq<Event>) {
    && |parts| == |Openers(ps)|
    && (forall i {:trigger parts[i]} :: 0 <= i < |parts| ==> AnnouncedAs(es, parts[i].itemId) == Some(Announcing(parts[i], ps[Openers(ps)[i]])))
    && AnnouncedAs(es, rs) == (if thought then Some(ReasoningOut(rs, None, "")) else None)
    && (forall id :: id !in ItemSet(parts) && id != rs ==> AnnouncedAs(es, id) == None)
  }

  ghost predicate Holds(s: Stream, ps: seq<Part>) {
    AllAnnounced(s.draft.parts, s.draft.thoughtAt.Some?, s.draft.ctx.reasoningId, ps, s.events)
  }

  /** The same records, kinds and ids, and no new announcement. */
  lemma SameAnnounced(parts: seq<Record>, parts': seq<Record>, thought: bool, rs: Id, ps: seq<Part>, p: Part, es: seq<Event>, es': seq<Event>)
    requires AllAnnounced(parts, thought, rs, ps, es) && Openers(ps + [p]) == Openers(ps) && |parts'| == |parts| && ItemSet(parts') == ItemSet(parts)
    requires forall i {:trigger parts'[i]} :: 0 <= i < |parts| ==>
               parts'[i].CallRec? == parts[i].CallRec? && parts'[i].itemId == parts[i].itemId && (parts[i].CallRec? ==> parts'[i].callId == parts[i].callId)
    requires forall id :: AnnouncedAs(es', id) == AnnouncedAs(es, id)
    ensures AllAnnounced(parts', thought, rs, ps + [p], es')
  {
    hide AnnouncedAs, ItemSet, Openers, SplitWireName;
  }

  /** One more record, announced as its part begins. */
  lemma MoreAnnounced(parts: seq<Record>, r: Record, thought: bool, rs: Id, ps: seq<Part>, p: Part, es: seq<Event>, es': seq<Event>)
    requires AllAnnounced(parts, thought, rs, ps, es) && Openers(ps + [p]) == Openers(ps) + [|ps|] && DistinctItems(parts + [r]) && r.itemId != rs
    requires forall id :: AnnouncedAs(es', id) == if id == r.itemId && AnnouncedAs(es, id).None? then Some(Announcing(r, p)) else AnnouncedAs(es, id)
    ensures AllAnnounced(parts + [r], thought, rs, ps + [p], es')
  {
    hide AnnouncedAs, ItemSet, Openers, SplitWireName, Announcing;
    var all := parts + [r];
    assert all[|parts|] == r && forall i :: 0 <= i < |parts| ==> all[i] == parts[i];
    ItemSetMember(parts, r.itemId);
    assert all[..|parts|] == parts;
    assert forall i :: 0 <= i < |parts| ==> all[i].itemId != all[|parts|].itemId;
    assert ItemSet(all) == ItemSet(parts) + {r.itemId} by { ItemSetSnoc(parts, r); }
  }

  lemma ItemSetSnoc(parts: seq<Record>, r: Record)
    ensures ItemSet(parts + [r]) == ItemSet(parts) + {r.itemId}
  {
    assert (parts + [r])[..|parts|] == parts;
  }

  lemma OpenersSnoc(ps: seq<Part>, p: Part)
    ensures Openers(ps + [p]) == Openers(ps) + if Opens(ps + [p], |ps|) then [|ps|] else []
  {
    assert (ps + [p])[..|ps|] == ps;
  }

  /** The machine appends a record exactly for parts that begin one. */
  lemma StepOpens(ctx: Ctx, ps: seq<Part>, p: Part)
    requires ctx.Valid()
    ensures var d, d' := Run(ctx, ps), Step(Run(ctx, ps), p);
            && |d.parts| == |Openers(ps)| && |d'.parts| == |Openers(ps + [p])|
            && (Opens(ps + [p], |ps|) ==> d'.parts == d.parts + [d'.parts[|d.parts|]])
            && (!Opens(ps + [p], |ps|) ==> |d'.parts| == |d.parts|)
            && WF(d) && WF(d')
  {
    hide WF, Openers, Opens, FindUpstream, LastText, TextCount;
    RecordsAre(ctx, ps);
    assert (ps + [p])[..|ps|] == ps;
    assert Run(ctx, ps + [p]) == Step(Run(ctx, ps), p);
    RecordsAre(ctx, ps + [p]);
    OpenersSnoc(ps, p);
    RunWF(ctx, ps);
    RunWF(ctx, ps + [p]);
  }

  lemma MessageDoneQuiet(index: nat, r: Record)
    ensures Quiet(MessageDone(index, r))
  {
  }

  lemma FlushQuiet(s: Stream, id: Id)
    ensures AnnouncedAs(FlushMsg(s).events, id) == AnnouncedAs(s.events, id) && FlushMsg(s).draft.parts == s.draft.parts
    ensures FlushMsg(s).draft.ctx == s.draft.ctx && FlushMsg(s).draft.thoughtAt == s.draft.thoughtAt && FlushMsg(s).outputIndex == s.outputIndex
    ensures FlushMsg(s).reasoningStarted == s.reasoningStarted && FlushMsg(s).fcIndexes == s.fcIndexes
  {
    hide MessageDone, AnnouncedAs;
    if s.msgStarted && Pending(s.draft).Some? {
      MessageDoneQuiet(s.msgIndex, Pending(s.draft).value);
      QuietSame(s.events, MessageDone(s.msgIndex, Pending(s.draft).value), id);
    }
  }

  lemma ThoughtHolds(ctx: Ctx, ps: seq<Part>, s0: Stream, p: Part)
    requires ctx.Valid() && s0 == StreamRun(ctx, ps) && Holds(s0, ps) && p.thought
    ensures Holds(OnPart(s0, p), ps + [p])
  {
    hide AnnouncedAs, ItemSet, Openers, FlushMsg, StreamRun, Run, StreamLaws.Inv, WF;
    StreamLaws.RunKeeps(ctx, ps);
    StartedIs(s0);
    var s, s' := FlushMsg(s0), OnPart(s0, p);
    var rs := s.draft.ctx.reasoningId;
    OpenersSnoc(ps, p);
    forall id
      ensures AnnouncedAs(s'.events, id) == if id == rs then Some(ReasoningOut(rs, None, "")) else AnnouncedAs(s0.events, id)
    {
      FlushQuiet(s0, id);
      AnnouncedSnoc(s.events, ItemAdded(s.outputIndex, ReasoningStub(rs)), id);
      AnnouncedSnoc(StartReasoning(s).events, ReasoningDelta(StartReasoning(s).reasoningIndex, rs, p.text), id);
      assert StartReasoning(s).events + [] == StartReasoning(s).events;
    }
    FlushQuiet(s0, rs);
    NoReasoningRecord(s0.draft);
    ThoughtAnnounced(s0.draft.parts, s0.draft.thoughtAt.Some?, rs, ps, p, s0.events, s'.events);
  }

  lemma ThoughtAnnounced(parts: seq<Record>, thought: bool, rs: Id, ps: seq<Part>, p: Part, es: seq<Event>, es': seq<Event>)
    requires AllAnnounced(parts, thought, rs, ps, es) && Openers(ps + [p]) == Openers(ps) && rs !in ItemSet(parts)
    requires forall i {:trigger parts[i]} :: 0 <= i < |parts| ==> parts[i].itemId != rs
    requires forall id :: AnnouncedAs(es', id) == if id == rs then Some(ReasoningOut(rs, None, "")) else AnnouncedAs(es, id)
    ensures AllAnnounced(parts, true, rs, ps + [p], es')
  {
    hide AnnouncedAs, ItemSet, Openers, SplitWireName;
  }

  lemma StartedIs(s: Stream)
    requires StreamLaws.Inv(s)
    ensures s.reasoningStarted == s.draft.thoughtAt.Some? && s.msgStarted == s.draft.open && WF(s.draft)
    ensures forall i :: 0 <= i < |s.draft.parts| && s.draft.parts[i].CallRec? ==> s.draft.parts[i].callId in s.fcIndexes
  {
  }

  lemma NoReasoningRecord(d: Draft)
    requires WF(d)
    ensures d.ctx.reasoningId !in ItemSet(d.parts) && forall i {:trigger d.parts[i]} :: 0 <= i < |d.parts| ==> d.parts[i].itemId != d.ctx.reasoningId
  {
    DistinctIds(d);
    ItemSetMember(d.parts, d.ctx.reasoningId);
  }

  lemma CallHolds(ctx: Ctx, ps: seq<Part>, s0: Stream, p: Part)
    requires ctx.Valid() && s0 == StreamRun(ctx, ps) && Holds(s0, ps) && !p.thought && p.call.Some?
    ensures Holds(OnPart(s0, p), ps + [p])
  {
    hide AnnouncedAs, ItemSet, Openers, Opens, FlushMsg, StreamRun, Run, StreamLaws.Inv, WF, AllAnnounced;
    var s, d := FlushMsg(s0), s0.draft;
    StreamLaws.RunKeeps(ctx, ps);
    StreamingDraft(ctx, ps);
    FlushKeeps(s0);
    StepOpens(ctx, ps, p);
    OpenersSnoc(ps, p);
    match FindUpstream(d.parts, p.call.value.id)
    case Some(i) =>
      RepeatedCallKeeps(s, p, i);
      forall id
        ensures AnnouncedAs(OnPart(s0, p).events, id) == AnnouncedAs(s0.events, id)
      {
        FlushQuiet(s0, id);
      }
      FlushQuiet(s0, NO_ID);
      SameIds(d.parts, i, MergeCall(d.parts[i], p.call.value, p.sig));
      SameAnnounced(d.parts, d.parts[i := MergeCall(d.parts[i], p.call.value, p.sig)], d.thoughtAt.Some?, d.ctx.reasoningId,
                    ps, p, s0.events, OnPart(s0, p).events);
    case None =>
      NewCallKeeps(s, p);
      var r := NewCall(d, p.call.value, p.sig);
      FlushQuiet(s0, NO_ID);
      forall id
        ensures AnnouncedAs(OnPart(s0, p).events, id) ==
                if id == r.itemId && AnnouncedAs(s0.events, id).None? then Some(Announcing(r, p)) else AnnouncedAs(s0.events, id)
      {
        FlushQuiet(s0, id);
        AnnouncedSnoc(s.events, ItemAdded(s.outputIndex, CallStub(r)), id);
      }
      NewIds(d, Step(d, p), r);
      MoreAnnounced(d.parts, r, d.thoughtAt.Some?, d.ctx.reasoningId, ps, p, s0.events, OnPart(s0, p).events);
  }

  lemma {:induction false} SameIds(parts: seq<Record>, i: nat, r: Record)
    requires i < |parts| && r.itemId == parts[i].itemId
    ensures ItemSet(parts[i := r]) == ItemSet(parts)
  {
    var n := |parts| - 1;
    if i < n {
      assert parts[i := r][..n] == parts[..n][i := r];
      SameIds(parts[..n], i, r);
    } else {
      assert parts[i := r][..n] == parts[..n];
    }
  }

  lemma NewIds(d: Draft, d': Draft, r: Record)
    requires WF(d') && d'.parts == d.parts + [r] && d'.ctx == d.ctx
    ensures DistinctItems(d.parts + [r]) && r.itemId != d.ctx.reasoningId
  {
    hide WF;
    DistinctIds(d');
    assert d'.parts[|d.parts|] == r;
  }

  lemma TextHolds(ctx: Ctx, ps: seq<Part>, s0: Stream, p: Part)
    requires ctx.Valid() && s0 == StreamRun(ctx, ps) && Holds(s0, ps) && !p.thought && p.call.None? && p.text != ""
    ensures Holds(OnPart(s0, p), ps + [p])
  {
    hide AnnouncedAs, ItemSet, Openers, Opens, FlushMsg, StreamRun, Run, StreamLaws.Inv, WF, AllAnnounced, Texts, Groups;
    var d := s0.draft;
    StreamLaws.RunKeeps(ctx, ps);
    StreamingDraft(ctx, ps);
    StartedIs(s0);
    OpenRecord(d);
    StepOpens(ctx, ps, p);
    OpenersSnoc(ps, p);
    TextsAreGroups(ctx, ps);
    TextOpens(ps, p);
    if s0.msgStarted && CurrentSig(d) == p.sig {
      var n := |d.parts| - 1;
      forall id
        ensures AnnouncedAs(OnPart(s0, p).events, id) == AnnouncedAs(s0.events, id)
      {
        AnnouncedSnoc(s0.events, TextDelta(s0.msgIndex, CurrentId(d), p.text), id);
      }
      SameIds(d.parts, n, Grown(d.parts[n], p.text));
      SameAnnounced(d.parts, d.parts[n := Grown(d.parts[n], p.text)], d.thoughtAt.Some?, d.ctx.reasoningId, ps, p, s0.events, OnPart(s0, p).events);
    } else {
      var s := if s0.msgStarted then FlushMsg(s0) else s0;
      if s0.msgStarted {
        FlushKeeps(s0);
      }
      FlushQuiet(s0, NO_ID);
      NewTextHolds(s0, s, ps, p);
    }
  }

  lemma TextOpens(ps: seq<Part>, p: Part)
    requires IsText(p)
    ensures Opens(ps + [p], |ps|) <==> OpenSig(ps) != Some(p.sig)
  {
    assert (ps + [p])[..|ps|] == ps;
  }

  lemma NewTextHolds(s0: Stream, s: Stream, ps: seq<Part>, p: Part)
    requires Holds(s0, ps) && IsText(p) && !s.msgStarted && !s.draft.open && s.draft.parts == s0.draft.parts && s.draft.ctx == s0.draft.ctx
    requires s.draft.thoughtAt == s0.draft.thoughtAt && forall id :: AnnouncedAs(s.events, id) == AnnouncedAs(s0.events, id) || s != s0
    requires s == s0 || s == FlushMsg(s0)
    requires OnPart(s0, p) == OnText(s, p) && WF(Step(s.draft, p)) && Openers(ps + [p]) == Openers(ps) + [|ps|]
    ensures Holds(OnPart(s0, p), ps + [p])
  {
    hide AnnouncedAs, ItemSet, Openers, FlushMsg, WF, AllAnnounced;
    var d, r := s.draft, NewText(s.draft, p.text, p.sig);
    var k, id0 := s.outputIndex, r.itemId;
    forall id
      ensures AnnouncedAs(OnText(s, p).events, id) ==
              if id == id0 && AnnouncedAs(s0.events, id).None? then Some(Announcing(r, p)) else AnnouncedAs(s0.events, id)
    {
      FlushQuiet(s0, id);
      AnnouncedSnoc(s.events, ItemAdded(k, MessageStub(id0)), id);
      AnnouncedSnoc(s.events + [ItemAdded(k, MessageStub(id0))], PartAdded(k, id0), id);
      AnnouncedSnoc(s.events + [ItemAdded(k, MessageStub(id0))] + [PartAdded(k, id0)], TextDelta(k, id0, p.text), id);
    }
    NewIds(d, Step(d, p), r);
    MoreAnnounced(d.parts, r, d.thoughtAt.Some?, d.ctx.reasoningId, ps, p, s0.events, OnText(s, p).events);
  }

  lemma TailHolds(ctx: Ctx, ps: seq<Part>, s: Stream, p: Part)
    requires ctx.Valid() && s == StreamRun(ctx, ps) && Holds(s, ps) && !p.thought && p.call.None? && p.text == ""
    ensures Holds(OnPart(s, p), ps + [p])
  {
    hide AnnouncedAs, ItemSet, Openers, StreamRun, Run, AllAnnounced, LastText;
    var d := s.draft;
    OpenersSnoc(ps, p);
    assert d.parts == d.parts && s.events == s.events;
    if p.sig != "" && LastText(d.parts).Some? {
      var i := LastText(d.parts).value;
      SameIds(d.parts, i, Signed(d.parts[i], p.sig));
      SameAnnounced(d.parts, d.parts[i := Signed(d.parts[i], p.sig)], d.thoughtAt.Some?, d.ctx.reasoningId, ps, p, s.events, s.events);
    } else {
      SameAnnounced(d.parts, d.parts, d.thoughtAt.Some?, d.ctx.reasoningId, ps, p, s.events, s.events);
    }
  }

  lemma {:induction false} RunHolds(ctx: Ctx, ps: seq<Part>)
    requires ctx.Valid()
    ensures Holds(StreamRun(ctx, ps), ps)
  {
    hide OnPart, Holds;
    if ps == [] {
      assert Holds(Open(ctx), []) by { NothingAnnounced(ctx); }
    } else {
      var n := |ps| - 1;
      var s, p := StreamRun(ctx, ps[..n]), ps[n];
      assert ps[..n] + [p] == ps;
      RunHolds(ctx, ps[..n]);
      if p.thought {
        ThoughtHolds(ctx, ps[..n], s, p);
      } else if p.call.Some? {
        CallHolds(ctx, ps[..n], s, p);
      } else if p.text != "" {
        TextHolds(ctx, ps[..n], s, p);
      } else {
        TailHolds(ctx, ps[..n], s, p);
      }
    }
  }

  lemma NothingAnnounced(ctx: Ctx)
    ensures Holds(Open(ctx), [])
  {
    forall id
      ensures AnnouncedAs([Created], id) == None
    {
      AnnouncedSnoc([], Created, id);
      assert [] + [Created] == [Created];
    }
  }

  /**
   * After every prefix of a stream each record was announced once, with its own ids, by the part
   * that begins it: a message empty, a call under the namespace and name of that part with its
   * signature and without arguments; the thoughts by an empty reasoning item; and nothing else.
   */
  lemma AnnouncementsAre(ctx: Ctx, ps: seq<Part>)
    requires ctx.Valid()
    ensures AllAnnounced(Run(ctx, ps).parts, Run(ctx, ps).thoughtAt.Some?, ctx.reasoningId, ps, StreamRun(ctx, ps).events)
  {
    hide AllAnnounced, StreamRun, Run;
    RunHolds(ctx, ps);
    StreamingDraft(ctx, ps);
    RunCtx(ctx, ps);
  }

  lemma {:induction false} RunCtx(ctx: Ctx, ps: seq<Part>)
    ensures Run(ctx, ps).ctx == ctx
  {
    if ps != [] {
      RunCtx(ctx, ps[..|ps| - 1]);
    }
  }
}
