/**
 * The round trip of a turn: it is accumulated, rendered to output items, sent back by the client
 * with one result per call, and converted with a cache that may remember it.
 */
module RoundTrip {
  import opened Core
  import opened Turns
  import opened Outputs
  import opened Caches
  import opened Exchange
  import opened Translate

  /** What becomes of the reasoning item: left out, sent back from the final list, or as it was streamed. */
  datatype Carries = Dropped | AsListed | AsStreamed

  /**
   * What the client adds and chooses: a prompt, tool outputs, which calls keep their item signature,
   * any signature it shows for a text, and whether it sends the reasoning item back.
   */
  datatype Client = Client(prompt: string, output: Id -> string, kept: set<Id>, textSig: Id -> string, carries: Carries)

  /** The streamed carrier leaves out turn id and model. */
  function Streamed(carrier: Option<Carrier>): Option<Carrier> {
    match carrier case None => None case Some(c) => Some(c.(turnId := NO_ID, model := ""))
  }

  function Replay(item: OutItem, c: Client): Item {
    match item
    case ReasoningOut(_, carrier, _) => Item.ReasoningItem(if c.carries.AsStreamed? then Streamed(carrier) else carrier)
    case CallOut(id, callId, namespace, name, args, sig) =>
      CallItem(callId, id, JoinWireName(namespace, name), args, if id in c.kept then sig else "", false)
    case MessageOut(id, text, _) => MessageItem("assistant", "message", id, NO_ID, text, c.textSig(id))
  }

  function ReplayAll(items: seq<OutItem>, c: Client): (r: seq<Item>)
    ensures |r| == |items| && forall i :: 0 <= i < |items| ==> r[i] == Replay(items[i], c)
  {
    seq(|items|, i requires 0 <= i < |items| => Replay(items[i], c))
  }

  function WithoutReasoning(items: seq<OutItem>): seq<OutItem> {
    if items == [] then []
    else WithoutReasoning(items[..|items| - 1]) + if items[|items| - 1].ReasoningOut? then [] else [items[|items| - 1]]
  }

  /** The output items that the client sends back. */
  function SentBack(items: seq<OutItem>, c: Client): seq<OutItem> {
    if c.carries.Dropped? then WithoutReasoning(items) else items
  }

  /** One result per call, in the order of the calls. */
  function Results(parts: seq<Record>, output: Id -> string): seq<Item> {
    if parts == [] then []
    else
      var last := parts[|parts| - 1];
      Results(parts[..|parts| - 1], output) + if last.CallRec? then [ResultItem(last.callId, output(last.callId))] else []
  }

  function Prompt(c: Client): Item {
    MessageItem("user", "message", NO_ID, NO_ID, c.prompt, "")
  }

  function History(t: Turn, c: Client): seq<Item> {
    [Prompt(c)] + ReplayAll(SentBack(OutputItems(t), c), c) + Results(t.parts, c.output)
  }

  // ----- what should come back

  /** The first tool call of a turn. */
  function FirstCall(parts: seq<Record>): (r: Option<nat>)
    ensures r.Some? ==> r.value < |parts| && parts[r.value].CallRec?
    ensures forall i :: 0 <= i < (if r.Some? then r.value else |parts|) ==> parts[i].TextRec?
  {
    if parts == [] then None
    else
      match FirstCall(parts[..|parts| - 1])
      case Some(i) => Some(i)
      case None => if parts[|parts| - 1].CallRec? then Some(|parts| - 1) else None
  }

  /** Only calls from record `i` to record `k`, both included. */
  predicate Adjacent(parts: seq<Record>, i: nat, k: nat)
    requires i < |parts| && k < |parts|
  {
    (forall m :: i <= m <= k ==> parts[m].CallRec?) && forall m :: k <= m <= i ==> parts[m].CallRec?
  }

  predicate Leads(parts: seq<Record>, i: nat, k: nat)
    requires i < |parts| && k < |parts|
  {
    parts[k].CallRec? && parts[k].sig != "" && Adjacent(parts, i, k)
  }

  function LeadFrom(parts: seq<Record>, i: nat, k: nat): (r: Option<nat>)
    requires i < |parts| && k <= |parts|
    ensures r.Some? ==> k <= r.value < |parts| && Leads(parts, i, r.value)
    ensures forall m :: k <= m < (if r.Some? then r.value else |parts|) ==> !Leads(parts, i, m)
    decreases |parts| - k
  {
    if k == |parts| then None else if Leads(parts, i, k) then Some(k) else LeadFrom(parts, i, k + 1)
  }

  /** The first signed call among the adjacent ones of call `i`. */
  function LeadFor(parts: seq<Record>, i: nat): (r: Option<nat>)
    requires i < |parts|
    ensures r.Some? ==> r.value < |parts| && Leads(parts, i, r.value)
    ensures forall m :: 0 <= m < (if r.Some? then r.value else |parts|) ==> !Leads(parts, i, m)
  {
    LeadFrom(parts, i, 0)
  }

  /** An unsigned call is replayed with the signature of its lead. */
  function ReplaySig(parts: seq<Record>, i: nat): string
    requires i < |parts|
  {
    if parts[i].sig != "" then parts[i].sig
    else match LeadFor(parts, i) case None => "" case Some(l) => parts[l].sig
  }

  function OutId(r: Record): Id
    requires r.CallRec?
  {
    if r.upstreamId != NO_ID then r.upstreamId else r.callId
  }

  // ----- where each record stands in the history

  /** The history holds the turn's carrier. */
  predicate Carried(d: Draft, c: Client) {
    NeedsReasoning(TurnOf(d)) && !c.carries.Dropped?
  }

  /** Where the reasoning item sits among the output items. */
  function Gap(d: Draft): nat {
    if d.thoughtAt.Some? && d.thoughtAt.value <= |d.parts| then d.thoughtAt.value else |d.parts|
  }

  function Slots(d: Draft, c: Client): nat {
    |d.parts| + if Carried(d, c) then 1 else 0
  }

  predicate AtGap(d: Draft, c: Client, p: nat) {
    Carried(d, c) && p == Gap(d)
  }

  /** How many records come before slot `p`. */
  function Done(d: Draft, c: Client, p: nat): nat {
    if Carried(d, c) && Gap(d) < p then p - 1 else p
  }

  function SlotOf(d: Draft, c: Client, i: nat): nat {
    if Carried(d, c) && Gap(d) <= i then i + 1 else i
  }

  lemma SlotFacts(d: Draft, c: Client, p: nat, i: nat)
    ensures p < Slots(d, c) && !AtGap(d, c, p) ==> Done(d, c, p) < |d.parts| && SlotOf(d, c, Done(d, c, p)) == p
    ensures p < Slots(d, c) ==> Done(d, c, p + 1) == Done(d, c, p) + if AtGap(d, c, p) then 0 else 1
    ensures i < |d.parts| ==> SlotOf(d, c, i) < Slots(d, c) && !AtGap(d, c, SlotOf(d, c, i)) && Done(d, c, SlotOf(d, c, i)) == i
    ensures Done(d, c, 0) == 0 && Done(d, c, Slots(d, c)) == |d.parts|
  {
    hide Carried;
  }

  /** The history up to the item of record `i`. */
  function Before(d: Draft, c: Client, i: nat): seq<Item> {
    var h := History(TurnOf(d), c);
    if 1 + SlotOf(d, c, i) <= |h| then h[..1 + SlotOf(d, c, i)] else h
  }

  /**
   * The signature under which a text comes back: the one the client shows; else the turn's, from
   * its carrier; else what the cache holds for the text after this prefix.
   */
  function TextBack(d: Draft, c: Client, cache: Cache, i: nat, prefixHash: string): string
    requires i < |d.parts| && d.parts[i].TextRec?
  {
    var r := d.parts[i];
    if c.textSig(r.itemId) != "" then c.textSig(r.itemId)
    else if Carried(d, c) then r.sig
    else if GetMessage(cache, r.itemId) == "" then ""
    else GetContext(cache, ResponsesContextKey(prefixHash, r.text))
  }

  function ModelPart(d: Draft, c: Client, cache: Cache, hash: seq<Item> -> string, i: nat): Part
    requires i < |d.parts|
  {
    match d.parts[i]
    case TextRec(_, _, text, _) => TextPart(text, TextBack(d, c, cache, i, hash(Before(d, c, i))))
    case CallRec(_, _, _, _, name, args, _) => CallPart(name, args, OutId(d.parts[i]), ReplaySig(d.parts, i))
  }

  /** The first `n` records as upstream parts; only the empty text of an empty turn is dropped. */
  function ModelParts(d: Draft, c: Client, cache: Cache, hash: seq<Item> -> string, n: nat): seq<(string, Part)>
    requires n <= |d.parts|
  {
    if n == 0 then []
    else
      ModelParts(d, c, cache, hash, n - 1) +
      if d.parts[n - 1].TextRec? && d.parts[n - 1].text == "" then [] else [("model", ModelPart(d, c, cache, hash, n - 1))]
  }

  function ResponsePart(r: Record, output: Id -> string): Part
    requires r.CallRec?
  {
    Part("", false, "", None,
         Some(FunctionResponse(if r.name == "" then Unnamed(r.callId) else Called(r.name), output(r.callId), OutId(r))))
  }

  function ResponseParts(parts: seq<Record>, output: Id -> string): seq<(string, Part)> {
    if parts == [] then []
    else
      var last := parts[|parts| - 1];
      ResponseParts(parts[..|parts| - 1], output) + if last.CallRec? then [("user", ResponsePart(last, output))] else []
  }

  function PromptParts(c: Client): seq<(string, Part)> {
    if c.prompt == "" then [] else [("user", TextPart(c.prompt, ""))]
  }

  function Expected(d: Draft, c: Client, cache: Cache, hash: seq<Item> -> string): seq<(string, Part)> {
    PromptParts(c) + ModelParts(d, c, cache, hash, |d.parts|) + ResponseParts(d.parts, c.output)
  }

  // ----- what the cache may know of the turn

  /** The stored record is the call's own; a restart may have turned empty arguments into none. */
  predicate RecordOf(rec: ToolRecord, r: Record)
    requires r.CallRec?
  {
    && rec.bridgeId == r.callId && rec.itemId == r.itemId && rec.upstreamId == r.upstreamId
    && rec.name == r.name && rec.sig == r.sig && !rec.legacy
    && (rec.args == r.args || rec.args == Persisted(r.args))
  }

  lemma StoredFields(rec: ToolRecord, r: Record)
    requires r.CallRec? && RecordOf(rec, r)
    ensures rec.sig == r.sig && !rec.legacy && rec.upstreamId == r.upstreamId && rec.name == r.name && rec.bridgeId == r.callId
  {
  }

  /** An id of the call leads to its own record or to none. */
  predicate OwnOrNone(cache: Cache, r: Record, id: Id)
    requires r.CallRec?
  {
    GetTool(cache, id).Some? ==> RecordOf(GetTool(cache, id).value, r) && !r.upstreamId.CallId? && !r.upstreamId.ItemId?
  }

  /** What the cache holds under the ids of the record is its own, or nothing. */
  predicate Backed(cache: Cache, r: Record) {
    match r
    case TextRec(_, itemId, _, sig) => sig == "" ==> GetMessage(cache, itemId) == ""
    case CallRec(_, itemId, callId, _, _, _, _) =>
      OwnOrNone(cache, r, callId) && OwnOrNone(cache, r, itemId) && OwnOrNone(cache, r, Joined(callId, itemId))
  }

  predicate Backs(cache: Cache, parts: seq<Record>) {
    forall i {:trigger Backed(cache, parts[i])} {:trigger parts[i]} :: 0 <= i < |parts| ==> Backed(cache, parts[i])
  }

  /** The client sends the carrier, or relies on the cache. */
  predicate Held(d: Draft, c: Client) {
    Carried(d, c) || c.carries.Dropped?
  }

  /** What the client drops the cache remembers. */
  predicate Remembers(cache: Cache, parts: seq<Record>, c: Client) {
    c.carries.Dropped? ==> forall i :: 0 <= i < |parts| && parts[i].CallRec? ==> GetTool(cache, parts[i].callId).Some?
  }

  // ----- which turns come back

  /** A carrier records the calls after the first one as siblings of it; the cache may know more. */
  predicate SiblingOf(cache: Cache, parts: seq<Record>, carried: bool, l: nat, i: nat)
    requires l < |parts| && i < |parts| && parts[l].CallRec? && parts[i].CallRec?
  {
    || (carried && FirstCall(parts) == Some(l) && l < i)
    || IsVerifiedSibling(cache, parts[l].callId, parts[i].callId) || IsVerifiedSibling(cache, parts[l].callId, parts[i].itemId)
  }

  predicate CallRecoverable(cache: Cache, parts: seq<Record>, carried: bool, i: nat)
    requires i < |parts|
  {
    parts[i].CallRec? ==>
      && !StartsWithSeparator(parts[i].name)
      && (parts[i].sig == "" ==> LeadFor(parts, i).Some? && SiblingOf(cache, parts, carried, LeadFor(parts, i).value, i))
  }

  /** No tool name begins with "__", and each unsigned call is a recorded sibling of its lead. */
  predicate Recoverable(cache: Cache, parts: seq<Record>, carried: bool) {
    forall i {:trigger CallRecoverable(cache, parts, carried, i)} :: 0 <= i < |parts| ==> CallRecoverable(cache, parts, carried, i)
  }

  // ----- the history, slot by slot

  function CarrierOf(d: Draft, c: Client): Carrier {
    var streamed := c.carries.AsStreamed?;
    Carrier(if streamed then NO_ID else d.ctx.turnId, if streamed then "" else d.ctx.model, d.parts, ToolSigs(d.parts), Siblings(d.parts),
            TextSigs(d.parts), Order(d))
  }

  function WireName(name: string): string {
    JoinWireName(SplitWireName(name).0, SplitWireName(name).1)
  }

  /** A record as the client sends it back. */
  function Sent(r: Record, c: Client): Item {
    match r
    case TextRec(_, id, text, _) => MessageItem("assistant", "message", id, NO_ID, text, c.textSig(id))
    case CallRec(_, id, callId, _, name, args, sig) =>
      CallItem(callId, id, WireName(name), args, if id in c.kept then sig else "", false)
  }

  function SlotItem(d: Draft, c: Client, p: nat): Item
    requires p < Slots(d, c)
  {
    if AtGap(d, c, p) then Item.ReasoningItem(Some(CarrierOf(d, c)))
    else
      SlotFacts(d, c, p, 0);
      Sent(d.parts[Done(d, c, p)], c)
  }

  ghost predicate Shape(d: Draft, c: Client, h: seq<Item>) {
    && |h| == 1 + Slots(d, c) + |Results(d.parts, c.output)|
    && h[0] == Prompt(c)
    && (forall p {:trigger SlotItem(d, c, p)} :: 0 <= p < Slots(d, c) ==> h[1 + p] == SlotItem(d, c, p))
    && h[1 + Slots(d, c)..] == Results(d.parts, c.output)
  }

  lemma {:induction false} AllItems(items: seq<OutItem>)
    requires forall i :: 0 <= i < |items| ==> !items[i].ReasoningOut?
    ensures WithoutReasoning(items) == items
  {
    if items != [] {
      AllItems(items[..|items| - 1]);
    }
  }

  lemma {:induction false} WithoutOne(a: seq<OutItem>, r: OutItem, b: seq<OutItem>)
    requires r.ReasoningOut? && (forall i :: 0 <= i < |a| ==> !a[i].ReasoningOut?) && forall i :: 0 <= i < |b| ==> !b[i].ReasoningOut?
    ensures WithoutReasoning(a + [r] + b) == a + b
  {
    if b == [] {
      AllItems(a);
      assert a + [r] + b == a + [r];
      assert (a + [r])[..|a|] == a;
    } else {
      var n := |b| - 1;
      WithoutOne(a, r, b[..n]);
      assert (a + [r] + b)[..|a| + 1 + n] == a + [r] + b[..n];
    }
  }

  /** What is sent back, slot by slot. */
  lemma SentBackIs(d: Draft, c: Client)
    requires WF(d)
    ensures SentBack(FinalItems(d), c) == if Carried(d, c) then FinalItems(d) else Items(d.parts)
  {
    hide WF, NeedsReasoning, TurnOf;
    ThoughtNeedsReasoning(d);
    if c.carries.Dropped? {
      DroppedIsRest(d);
    }
  }

  lemma DroppedIsRest(d: Draft)
    ensures WithoutReasoning(FinalItems(d)) == Items(d.parts)
  {
    hide NeedsReasoning, TurnOf;
    var items := Items(d.parts);
    AllItems(items);
    if NeedsReasoning(TurnOf(d)) {
      var r := Outputs.ReasoningItem(TurnOf(d));
      if d.thoughtAt.Some? && d.thoughtAt.value <= |items| {
        WithoutOne(items[..d.thoughtAt.value], r, items[d.thoughtAt.value..]);
        assert items[..d.thoughtAt.value] + items[d.thoughtAt.value..] == items;
      } else {
        WithoutOne(items, r, []);
        assert items + [r] + [] == items + [r] && items + [] == items;
      }
    }
  }

  lemma ReplayedSlot(d: Draft, c: Client, p: nat)
    requires WF(d) && p < Slots(d, c)
    ensures var items := SentBack(FinalItems(d), c); |items| == Slots(d, c) && Replay(items[p], c) == SlotItem(d, c, p)
  {
    hide WF, ToolSigs, TextSigs, Siblings, NeedsReasoning, Order, SplitWireName, JoinWireName, SentBack;
    ThoughtNeedsReasoning(d);
    SentBackIs(d, c);
    SlotFacts(d, c, p, 0);
  }

  lemma SlotCount(d: Draft, c: Client)
    requires WF(d)
    ensures |SentBack(FinalItems(d), c)| == Slots(d, c)
  {
    hide WF, NeedsReasoning, SentBack;
    ThoughtNeedsReasoning(d);
    SentBackIs(d, c);
  }

  lemma HistoryIs(d: Draft, c: Client)
    requires WF(d)
    ensures Shape(d, c, History(TurnOf(d), c))
  {
    hide WF, FinalItems, SlotItem, Slots, OutputItems, Replay, SentBack;
    OutputItemsAre(d);
    SlotCount(d, c);
    forall p | 0 <= p < Slots(d, c)
      ensures Replay(SentBack(FinalItems(d), c)[p], c) == SlotItem(d, c, p)
    {
      ReplayedSlot(d, c, p);
    }
  }
}
