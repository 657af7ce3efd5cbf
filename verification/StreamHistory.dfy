/**
 * A client that keeps its items from the stream: what it collects from the completion events, and
 * what comes back when it sends that back.
 */
module StreamHistory {
  import opened Core
  import opened Turns
  import opened Accumulators
  import opened Outputs
  import opened Caches
  import opened Exchange
  import opened Normalize
  import opened Translate
  import opened Streams
  import opened StreamLaws
  import opened StreamEnd
  import opened RoundTrip
  import opened Conversations
  import opened Joining
  import TurnLaws

  // ----- items as they are completed

  /** The item completed at an output index. */
  function DoneAt(es: seq<Event>, k: nat): Option<OutItem> {
    if es == [] then None
    else
      var e := es[|es| - 1];
      if e.ItemDone? && e.index == k then Some(e.item) else DoneAt(es[..|es| - 1], k)
  }

  /** The items completed at the first `n` indexes. */
  function DoneItems(es: seq<Event>, n: nat): seq<OutItem> {
    if n == 0 then []
    else DoneItems(es, n - 1) + match DoneAt(es, n - 1) case None => [] case Some(item) => [item]
  }

  predicate DoneOnce(es: seq<Event>, k: nat, item: OutItem) {
    (k, item) in TraceOf(es, item.id).itemsDone
  }

  lemma {:induction false} DoneIsHeard(es: seq<Event>, k: nat)
    ensures DoneAt(es, k).Some? ==> DoneOnce(es, k, DoneAt(es, k).value)
    ensures forall item :: DoneOnce(es, k, item) ==> DoneAt(es, k).Some?
  {
    if es != [] {
      DoneIsHeard(es[..|es| - 1], k);
      forall item | DoneOnce(es, k, item)
        ensures DoneAt(es, k).Some?
      {
        assert DoneOnce(es[..|es| - 1], k, item) || es[|es| - 1] == ItemDone(k, item);
      }
    }
  }

  /** The signature with which a text was completed. */
  function DoneSig(es: seq<Event>, id: Id): string {
    var done := TraceOf(es, id).itemsDone;
    if done != [] && done[0].1.MessageOut? then done[0].1.sig else ""
  }

  /** An item as it was completed: a text under the signature it then had, a carrier without turn id and model. */
  function AsDone(item: OutItem, es: seq<Event>): OutItem {
    match item
    case ReasoningOut(id, carrier, summary) => ReasoningOut(id, Streamed(carrier), summary)
    case CallOut(_, _, _, _, _, _) => item
    case MessageOut(id, text, _) => MessageOut(id, text, DoneSig(es, id))
  }

  /** A record is completed at its place, and nothing else is completed there. */
  lemma RecordDone(d: Draft, es: seq<Event>, i: nat)
    requires Complete(d, es) && WF(d) && i < |d.parts|
    ensures DoneAt(es, OrderPos(d, i)) == Some(AsDone(ItemOf(d.parts[i]), es))
  {
    hide WF, TraceOf, OrderPos, ItemSet, IndexedInOrder, AddedIds, FinalItems, ReasoningText, ToolSigs, TextSigs, Siblings, Order, DoneAt;
    var k, r := OrderPos(d, i), d.parts[i];
    assert FinishedAt(d, es, i);
    DoneIsHeard(es, k);
    ItemIdIs(r);
    var done := TraceOf(es, r.itemId).itemsDone;
    assert done == [done[0]] && done[0] == (k, AsDone(ItemOf(r), es));
    assert DoneOnce(es, k, AsDone(ItemOf(r), es));
    PlaceTaken(d, es, k, DoneAt(es, k).value);
  }

  lemma ItemIdIs(r: Record)
    ensures ItemOf(r).id == r.itemId
  {
  }

  /** An item completed at an index has the id announced there. */
  lemma PlaceTaken(d: Draft, es: seq<Event>, k: nat, item: OutItem)
    requires Complete(d, es) && WF(d) && DoneOnce(es, k, item)
    ensures k < |AddedIds(es)| && AddedIds(es)[k] == item.id && TraceOf(es, item.id).itemsDone == [(k, item)]
  {
    hide WF, TraceOf, OrderPos, ItemSet, IndexedInOrder, AddedIds, FinalItems, ReasoningText, ToolSigs, TextSigs, Siblings, Order, NeedsReasoning, TurnOf;
    if item.id == d.ctx.reasoningId {
    } else {
      ItemSetMember(d.parts, item.id);
      if item.id in ItemSet(d.parts) {
        var i :| 0 <= i < |d.parts| && d.parts[i].itemId == item.id;
        assert FinishedAt(d, es, i);
      }
    }
  }

  lemma ReasoningDone(d: Draft, es: seq<Event>, k: nat)
    requires Complete(d, es) && WF(d) && NeedsReasoning(TurnOf(d)) && k < |AddedIds(es)| && AddedIds(es)[k] == d.ctx.reasoningId
    requires forall i, j :: 0 <= i < j < |AddedIds(es)| ==> AddedIds(es)[i] != AddedIds(es)[j]
    ensures DoneAt(es, k) == Some(AsDone(Outputs.ReasoningItem(TurnOf(d)), es))
  {
    hide WF, TraceOf, OrderPos, ItemSet, IndexedInOrder, AddedIds, FinalItems, ReasoningText, ToolSigs, TextSigs, Siblings, Order, NeedsReasoning, DoneAt,
         AllFinished;
    ReasoningSays(d);
    var done := TraceOf(es, d.ctx.reasoningId).itemsDone;
    assert done[0].0 == k;
    DoneIsHeard(es, k);
    assert DoneOnce(es, k, done[0].1);
    PlaceTaken(d, es, k, DoneAt(es, k).value);
  }

  /** A dropped reasoning item is never completed. */
  lemma NothingDone(d: Draft, es: seq<Event>, k: nat)
    requires Complete(d, es) && WF(d) && !NeedsReasoning(TurnOf(d)) && k < |AddedIds(es)| && AddedIds(es)[k] == d.ctx.reasoningId
    ensures DoneAt(es, k) == None
  {
    hide WF, TraceOf, OrderPos, ItemSet, IndexedInOrder, AddedIds, FinalItems, ReasoningText, Order, NeedsReasoning, DoneAt, AllFinished;
    DoneIsHeard(es, k);
    if DoneAt(es, k).Some? {
      PlaceTaken(d, es, k, DoneAt(es, k).value);
    }
  }

  // ----- the collected list

  function AllDone(items: seq<OutItem>, es: seq<Event>): seq<OutItem> {
    seq(|items|, i requires 0 <= i < |items| => AsDone(items[i], es))
  }

  /** How many items of the final list stand before index `k`: the index, less a reasoning item that was dropped. */
  function ListedBefore(d: Draft, k: nat): nat {
    if !NeedsReasoning(TurnOf(d)) && d.thoughtAt.Some? && d.thoughtAt.value < k then k - 1 else k
  }

  lemma FinalAt(d: Draft, i: nat)
    requires WF(d)
    ensures |FinalItems(d)| == |d.parts| + if NeedsReasoning(TurnOf(d)) then 1 else 0
    ensures i < |d.parts| ==> ListedBefore(d, OrderPos(d, i)) < |FinalItems(d)| && FinalItems(d)[ListedBefore(d, OrderPos(d, i))] == ItemOf(d.parts[i])
    ensures NeedsReasoning(TurnOf(d)) ==>
              var k := if d.thoughtAt.Some? then d.thoughtAt.value else |d.parts|; FinalItems(d)[k] == Outputs.ReasoningItem(TurnOf(d))
    ensures d.thoughtAt.Some? ==> d.thoughtAt.value <= |d.parts|
  {
    hide WF, ToolSigs, TextSigs, Siblings, NeedsReasoning, Order;
    ThoughtNeedsReasoning(d);
    OrderDistinct(d);
    WFThought(d);
  }

  lemma WFThought(d: Draft)
    requires WF(d)
    ensures d.thoughtAt.Some? ==> d.thoughtAt.value <= |d.parts|
  {
  }

  /** Where record `i` or the reasoning item was announced. */
  lemma Announced(d: Draft, es: seq<Event>, k: nat)
    requires Complete(d, es) && WF(d) && k < |AddedIds(es)|
    ensures |AddedIds(es)| == |d.parts| + if d.thoughtAt.Some? || NeedsReasoning(TurnOf(d)) then 1 else 0
    ensures var at := if d.thoughtAt.Some? then d.thoughtAt.value else |d.parts|;
            if k == at then AddedIds(es)[k] == d.ctx.reasoningId
            else exists i :: 0 <= i < |d.parts| && OrderPos(d, i) == k
    ensures forall i, j :: 0 <= i < j < |AddedIds(es)| ==> AddedIds(es)[i] != AddedIds(es)[j]
  {
    hide WF, AllFinished, IndexedInOrder, AddedIds, ReasoningText, NeedsReasoning, FinalItems, TurnOf, ReasoningCompleted;
    OrderDistinct(d);
    WFThought(d);
    ReasoningApart(d);
    OrderIs(d);
    var at := if d.thoughtAt.Some? then d.thoughtAt.value else |d.parts|;
    if k != at {
      var i := if d.thoughtAt.Some? && at < k then k - 1 else k;
      assert OrderPos(d, i) == k;
    }
  }

  lemma OrderIs(d: Draft)
    requires WF(d)
    ensures |Order(d)| == |d.parts| + if d.thoughtAt.Some? then 1 else 0
    ensures d.thoughtAt.None? ==> forall i :: 0 <= i < |Order(d)| ==> Order(d)[i] == d.parts[i].itemId
  {
  }

  /** The client collects the final list, each item as it was completed. */
  lemma {:induction false} DoneItemsAre(d: Draft, es: seq<Event>, n: nat)
    requires Complete(d, es) && WF(d) && n <= |AddedIds(es)|
    ensures ListedBefore(d, n) <= |FinalItems(d)| && DoneItems(es, n) == AllDone(FinalItems(d)[..ListedBefore(d, n)], es)
  {
    hide Complete, WF, AddedIds, DoneAt, AsDone, FinalItems, NeedsReasoning, TurnOf;
    FinalAt(d, 0);
    if n > 0 {
      var k := n - 1;
      DoneItemsAre(d, es, k);
      Announced(d, es, k);
      var at := if d.thoughtAt.Some? then d.thoughtAt.value else |d.parts|;
      if k == at && NeedsReasoning(TurnOf(d)) {
        ReasoningDone(d, es, k);
      } else if k == at {
        NothingDone(d, es, k);
      } else {
        var i :| 0 <= i < |d.parts| && OrderPos(d, i) == k;
        RecordDone(d, es, i);
        FinalAt(d, i);
      }
    }
  }

  /** All of the stream: as many items as the final list has, in its order. */
  lemma CollectedIsFinal(d: Draft, es: seq<Event>)
    requires Complete(d, es) && WF(d)
    ensures DoneItems(es, |AddedIds(es)|) == AllDone(FinalItems(d), es)
  {
    hide Complete, WF, AddedIds, DoneItems, AsDone, FinalItems, NeedsReasoning, TurnOf;
    DoneItemsAre(d, es, |AddedIds(es)|);
    FinalAt(d, 0);
    AnnouncedCount(d, es);
    assert FinalItems(d)[..|FinalItems(d)|] == FinalItems(d);
  }

  lemma AnnouncedCount(d: Draft, es: seq<Event>)
    requires Complete(d, es) && WF(d)
    ensures ListedBefore(d, |AddedIds(es)|) == |d.parts| + if NeedsReasoning(TurnOf(d)) then 1 else 0
  {
    hide WF, AllFinished, IndexedInOrder, AddedIds, ReasoningText, NeedsReasoning, FinalItems, TurnOf, ReasoningCompleted, Order;
    OrderIs(d);
    WFThought(d);
  }

  // ----- the signature a text is completed with

  lemma {:induction false} DoneGrows(es: seq<Event>, more: seq<Event>, id: Id)
    ensures TraceOf(es, id).itemsDone <= TraceOf(es + more, id).itemsDone
  {
    if more == [] {
      assert es + more == es;
    } else {
      var n := |more| - 1;
      DoneGrows(es, more[..n], id);
      assert (es + more)[..|es + more| - 1] == es + more[..n];
    }
  }

  /** Completing the open text says what its record then says. */
  lemma FlushTells(s: Stream)
    requires StreamLaws.Inv(s) && s.draft.open
    ensures s.draft.parts != []
    ensures var r := s.draft.parts[|s.draft.parts| - 1];
            (r.TextRec? && TraceOf(FlushMsg(s).events, r.itemId).itemsDone == [(s.msgIndex, ItemOf(r))])
  {
    hide WF, TraceOf, Listed, CallsIndexed, MessageDone;
    var d, n := s.draft, |s.draft.parts| - 1;
    OpenRecord(d);
    assert ToldAt(d, s.events, n);
    MessageDoneHeard(s.events, s.msgIndex, d.parts[n]);
  }

  lemma EndTells(s: Stream)
    requires StreamLaws.Inv(s) && s.draft.open
    ensures s.draft.parts != []
    ensures var r := s.draft.parts[|s.draft.parts| - 1];
            r.TextRec? && TraceOf(FlushMsg(AfterCalls(s)).events, r.itemId).itemsDone == [(s.msgIndex, ItemOf(r))]
  {
    hide WF, TraceOf, Listed, CallsIndexed, MessageDone, CallsDone;
    var d, n := s.draft, |s.draft.parts| - 1;
    OpenRecord(d);
    assert ToldAt(d, s.events, n);
    Calls(s);
    MessageDoneHeard(AfterCalls(s).events, s.msgIndex, d.parts[n]);
  }

  /** Part `n` ends the open text. */
  predicate Closes(ps: seq<Part>, n: nat)
    requires n < |ps|
  {
    ps[n].thought || ps[n].call.Some? || (TurnLaws.IsText(ps[n]) && TurnLaws.OpenSig(ps[..n]) != Some(ps[n].sig))
  }

  lemma ClosingFlushes(s: Stream, p: Part)
    requires StreamLaws.Inv(s) && s.msgStarted && (p.thought || p.call.Some? || (p.text != "" && CurrentSig(s.draft) != p.sig))
    ensures FlushMsg(s).events <= OnPart(s, p).events
  {
    hide StreamLaws.Inv, FlushMsg, Step;
  }

  lemma FlushGrows(s: Stream)
    ensures s.events <= FlushMsg(s).events
  {
    hide MessageDone;
  }

  lemma PartGrows(s: Stream, p: Part)
    ensures s.events <= OnPart(s, p).events
  {
    hide Step, FlushMsg, AddedBy, CallStub, CurrentId;
    FlushGrows(s);
  }

  lemma {:induction false} RunGrows(ctx: Ctx, ps: seq<Part>, n: nat)
    requires n <= |ps|
    ensures StreamRun(ctx, ps[..n]).events <= StreamRun(ctx, ps).events
    decreases |ps|
  {
    hide OnPart;
    if n == |ps| {
      assert ps[..n] == ps;
    } else {
      var m := |ps| - 1;
      assert ps[..m][..n] == ps[..n];
      RunGrows(ctx, ps[..m], n);
      PartGrows(StreamRun(ctx, ps[..m]), ps[m]);
    }
  }

  lemma EndGrows(s: Stream)
    ensures s.events <= FlushMsg(AfterCalls(s)).events <= Ended(s).events
  {
    hide CallsDone, TurnOf, Final, NeedsReasoning, MessageDone;
  }

  lemma DoneStays(es: seq<Event>, es': seq<Event>, id: Id, k: nat, item: OutItem)
    requires es <= es' && TraceOf(es, id).itemsDone == [(k, item)]
    ensures TraceOf(es', id).itemsDone != [] && TraceOf(es', id).itemsDone[0] == (k, item)
  {
    hide TraceOf;
    assert es' == es + es'[|es|..];
    DoneGrows(es, es'[|es|..], id);
  }

  /** A text is completed with the signature that it had when it closed, or when the stream ended. */
  lemma ClosedTextIsDone(ctx: Ctx, ps: seq<Part>, n: nat)
    requires ctx.Valid() && n <= |ps| && TurnLaws.OpenSig(ps[..n]).Some? && (n == |ps| || Closes(ps, n))
    ensures var parts := Run(ctx, ps[..n]).parts;
            parts != [] && DoneSig(Ended(StreamRun(ctx, ps)).events, parts[|parts| - 1].itemId) == TurnLaws.OpenSig(ps[..n]).value
  {
    hide StreamRun, Run, Ended, TraceOf, OnPart, FlushMsg, AfterCalls, TurnLaws.OpenSig, TurnLaws.Texts, TurnLaws.Groups;
    var s := StreamRun(ctx, ps[..n]);
    StreamLaws.RunKeeps(ctx, ps[..n]);
    StreamingDraft(ctx, ps[..n]);
    TurnLaws.TextsAreGroups(ctx, ps[..n]);
    var r := s.draft.parts[|s.draft.parts| - 1];
    EndGrows(StreamRun(ctx, ps));
    if n == |ps| {
      assert ps[..n] == ps;
      EndTells(s);
      DoneStays(FlushMsg(AfterCalls(s)).events, Ended(s).events, r.itemId, s.msgIndex, ItemOf(r));
    } else {
      FlushTells(s);
      assert ps[..n + 1][..n] == ps[..n] && StreamRun(ctx, ps[..n + 1]) == OnPart(s, ps[n]) by { RunSnoc(ctx, ps, n); }
      MessageOpen(s);
      ClosingFlushes(s, ps[n]);
      RunGrows(ctx, ps, n + 1);
      DoneStays(FlushMsg(s).events, Ended(StreamRun(ctx, ps)).events, r.itemId, s.msgIndex, ItemOf(r));
    }
  }

  lemma RunSnoc(ctx: Ctx, ps: seq<Part>, n: nat)
    requires n < |ps|
    ensures ps[..n + 1][..n] == ps[..n] && StreamRun(ctx, ps[..n + 1]) == OnPart(StreamRun(ctx, ps[..n]), ps[n])
  {
    hide OnPart;
    assert ps[..n + 1][..n] == ps[..n];
  }

  lemma MessageOpen(s: Stream)
    requires StreamLaws.Inv(s) && s.draft.open && s.draft.parts != []
    ensures s.msgStarted && CurrentSig(s.draft) == s.draft.parts[|s.draft.parts| - 1].sig
  {
  }

  /** A signed text, a thought, and a second signature for the text. */
  const RESIGNED := [Part("a", false, "s", None, None), Part("", true, "", None, None), Part("", false, "t", None, None)]

  /**
   * A text that is signed again after it was completed: the stream showed the first signature, the
   * finished turn has the second. A client that keeps the streamed one gets that one back.
   */
  lemma StaleSignature(ctx: Ctx)
    requires ctx.Valid()
    ensures var parts, es := Built(ctx, RESIGNED).parts, Ended(StreamRun(ctx, RESIGNED)).events;
            |parts| == 1 && parts[0].TextRec? && parts[0].sig == "t" && DoneSig(es, parts[0].itemId) == "s"
  {
    hide Ended, TraceOf, StreamRun;
    var one, two := RESIGNED[..1], RESIGNED[..2];
    assert one == [RESIGNED[0]] && one[..0] == [] && two[..1] == one && RESIGNED[..2] == two;
    assert Run(ctx, []) == Start(ctx);
    assert Run(ctx, one) == Step(Run(ctx, []), RESIGNED[0]);
    assert Run(ctx, two) == Step(Run(ctx, one), RESIGNED[1]);
    assert Run(ctx, RESIGNED) == Step(Run(ctx, two), RESIGNED[2]);
    assert TurnLaws.OpenSig([]) == None;
    assert TurnLaws.OpenSig(one) == Some("s");
    ClosedTextIsDone(ctx, RESIGNED, 1);
  }

  // ----- sending it back

  /** The events of the stream of a round. */
  function EventsOf(r: Round): seq<Event> {
    Ended(StreamRun(r.ctx, r.ps)).events
  }

  /** An item of the stream as the client sends it back; it may keep or strip the signature of a text. */
  function ReplayDone(item: OutItem, c: Client): Item {
    match item
    case ReasoningOut(_, carrier, _) => Item.ReasoningItem(carrier)
    case CallOut(id, callId, namespace, name, args, sig) =>
      CallItem(callId, id, JoinWireName(namespace, name), args, if id in c.kept then sig else "", false)
    case MessageOut(id, text, sig) => MessageItem("assistant", "message", id, NO_ID, text, if id in c.kept then sig else "")
  }

  function ReplayAllDone(items: seq<OutItem>, c: Client): seq<Item> {
    seq(|items|, i requires 0 <= i < |items| => ReplayDone(items[i], c))
  }

  /** The history that a client builds from the completion events. */
  function LiveSegment(r: Round): seq<Item> {
    var es := EventsOf(r);
    [Prompt(r.client)] + ReplayAllDone(SentBack(DoneItems(es, |AddedIds(es)|), r.client), r.client) + Results(Built(r.ctx, r.ps).parts, r.client.output)
  }

  /** The same round, listed: the client shows the signatures of the stream for its texts and streams its carriers. */
  function Relisted(r: Round): Round {
    var es := EventsOf(r);
    var textSig := (id: Id) => if id in r.client.kept then DoneSig(es, id) else "";
    Round(r.ctx, r.ps, r.client.(textSig := textSig, carries := if r.client.carries.Dropped? then Dropped else AsStreamed))
  }

  lemma {:induction false} WithoutReasoningDone(items: seq<OutItem>, es: seq<Event>)
    ensures WithoutReasoning(AllDone(items, es)) == AllDone(WithoutReasoning(items), es)
  {
    hide TraceOf;
    if items != [] {
      var n := |items| - 1;
      WithoutReasoningDone(items[..n], es);
      assert AllDone(items, es)[..n] == AllDone(items[..n], es);
      assert AllDone(items, es)[n] == AsDone(items[n], es);
    }
  }

  lemma OneReplayed(item: OutItem, r: Round)
    ensures ReplayDone(AsDone(item, EventsOf(r)), r.client) == Replay(item, Relisted(r).client)
            || (item.ReasoningOut? && r.client.carries.Dropped?)
  {
    hide EventsOf, DoneSig;
  }

  lemma {:induction false} NoReasoningLeft(items: seq<OutItem>)
    ensures forall i :: 0 <= i < |WithoutReasoning(items)| ==> !WithoutReasoning(items)[i].ReasoningOut?
  {
    if items != [] {
      NoReasoningLeft(items[..|items| - 1]);
    }
  }

  /** What a client keeps of the stream is a history of the finished turn, texts under the signatures they were completed with. */
  lemma LiveIsRelisted(r: Round)
    requires r.ctx.Valid()
    ensures LiveSegment(r) == Segment(Relisted(r))
  {
    hide Run, StreamRun, Ended, Complete, DoneItems, AddedIds, OutputItems, FinalItems, Replay, ReplayDone, AsDone, Results, WithoutReasoning, History;
    var d, es := Finished(r), EventsOf(r);
    FinishedStream(r.ctx, r.ps, "", None);
    RunWF(r.ctx, r.ps);
    FinalWF(Run(r.ctx, r.ps));
    CollectedIsFinal(d, es);
    OutputItemsAre(d);
    var c := Relisted(r).client;
    WithoutReasoningDone(FinalItems(d), es);
    NoReasoningLeft(FinalItems(d));
    var sent, done := SentBack(OutputItems(TurnOf(d)), c), SentBack(DoneItems(es, |AddedIds(es)|), r.client);
    assert done == AllDone(sent, es);
    forall i | 0 <= i < |sent|
      ensures ReplayDone(done[i], r.client) == Replay(sent[i], c)
    {
      OneReplayed(sent[i], r);
    }
    assert ReplayAllDone(done, r.client) == ReplayAll(sent, c);
    HistoryUnfolds(Built(r.ctx, r.ps), c);
  }

  lemma HistoryUnfolds(t: Turn, c: Client)
    ensures History(t, c) == [Prompt(c)] + ReplayAll(SentBack(OutputItems(t), c), c) + Results(t.parts, c.output)
  {
  }

  function LiveConversation(rounds: seq<Round>): seq<Item> {
    if rounds == [] then [] else LiveConversation(rounds[..|rounds| - 1]) + LiveSegment(rounds[|rounds| - 1])
  }

  function AllRelisted(rounds: seq<Round>): seq<Round> {
    seq(|rounds|, i requires 0 <= i < |rounds| => Relisted(rounds[i]))
  }

  lemma {:induction false} LiveConversationIs(rounds: seq<Round>)
    requires forall k :: 0 <= k < |rounds| ==> rounds[k].ctx.Valid()
    ensures LiveConversation(rounds) == Conversation(AllRelisted(rounds))
  {
    hide LiveSegment, Segment, Relisted;
    if rounds != [] {
      var n := |rounds| - 1;
      LiveConversationIs(rounds[..n]);
      LiveIsRelisted(rounds[n]);
      assert AllRelisted(rounds)[..n] == AllRelisted(rounds[..n]);
    }
  }

  /**
   * The round trip of conversations that clients build from the streamed events: what comes back is
   * what a listed history brings back, under the same exact condition, with the texts under the
   * signatures they were completed with or else their own.
   */
  lemma LiveRoundTrip(rounds: seq<Round>, cache: Cache, hash: seq<Item> -> string)
    requires Coherent(AllRelisted(rounds), cache)
    ensures var listed := AllRelisted(rounds);
            var sent, expected := Convert(LiveConversation(rounds), cache, hash), ExpectedAll(listed, cache, hash);
            && (sent.Ok? && Flatten(sent.value) == expected <==> AllRecoverable(listed, cache) && expected != [])
            && ((exists k {:trigger listed[k]} :: 0 <= k < |listed| && HeldButLost(listed[k], cache)) ==> sent.Err?)
  {
    hide Convert, Flatten, ExpectedAll, AllRecoverable, HeldButLost, LiveConversation, Conversation, Relisted, Backs, Remembers, DropsApart, Separate;
    var listed := AllRelisted(rounds);
    forall k | 0 <= k < |rounds|
      ensures rounds[k].ctx.Valid()
    {
      assert RoundFits(listed[k], cache);
      SameCtx(rounds[k]);
    }
    LiveConversationIs(rounds);
    ConversationRoundTrip(listed, cache, hash);
  }

  lemma SameCtx(r: Round)
    ensures Relisted(r).ctx == r.ctx && Relisted(r).ps == r.ps
  {
  }
}
