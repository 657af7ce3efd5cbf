/** Chat histories against the cache: replayed calls, and a result whose call is dropped. */
module ChatSessions {
  import opened Core
  import opened Turns
  import opened Caches
  import opened CacheLaws
  import opened Exchange
  import opened Normalize
  import opened Translate
  import opened RoundTrip
  import opened Sessions
  import opened SessionLaws
  import opened Pairing
  import opened Chats
  import opened ChatLaws

  // ----- a signed call replayed in a chat history

  predicate UnalteredCall(m: Message, call: ToolCall, cache: Cache, r: Record)
    requires r.CallRec?
  {
    SameToolCall(r.name, r.args, call) && (ClaimedSig(m, call, cache) == "" || ClaimedSig(m, call, cache) == r.sig)
  }

  lemma SameStoredCall(rec: ToolRecord, r: Record, call: ToolCall)
    requires r.CallRec? && RecordOf(rec, r)
    ensures SameToolCall(rec.name, rec.args, call) <==> SameToolCall(r.name, r.args, call)
  {
  }

  lemma RecalledChatEvidence(m: Message, call: ToolCall, answered: set<Id>, cache: Cache, r: Record)
    requires Minted(r) && r.sig != "" && Recalled(cache, r) && call.id == r.callId
    ensures var ev := ChatEvidence(m, call, answered, cache);
            && ev.hasCache && ev.cacheSig == r.sig && ev.cacheMismatch == !SameToolCall(r.name, r.args, call)
            && !ev.carrierMismatch && ev.carrierSig == ClaimedSig(m, call, cache)
            && (ev.hasCarrier <==> ev.carrierSig != "")
            && (ev.hasMatchingOutput <==> r.callId in answered)
            && !ev.nativeTurnUnverified && !ev.recordedSibling
  {
    hide GetTool, SameToolCall, RecordOf, SiblingScan, DetailsSig;
    var rec := GetTool(cache, r.callId).value;
    SameStoredCall(rec, r, call);
    StoredFields(rec, r);
  }

  /** The cached call is emitted exactly when it is answered and unaltered, with its own signature and upstream id. */
  lemma CachedChatCallComesBack(m: Message, call: ToolCall, answered: set<Id>, cache: Cache, r: Record)
    requires Minted(r) && r.sig != "" && Recalled(cache, r) && call.id == r.callId
    ensures var sent := EmitChatCall(m, call, answered, cache);
            && (sent.Ok? <==> r.callId in answered && UnalteredCall(m, call, cache, r))
            && (sent.Ok? ==> sent.value == CallPart(call.name, call.args, OutId(r), r.sig))
  {
    hide GetTool, RecordOf, SameToolCall, ChatEvidence, ClaimedSig;
    RecalledChatEvidence(m, call, answered, cache, r);
    StoredFields(GetTool(cache, r.callId).value, r);
  }

  lemma {:induction false} CallInMessage(m: Message, n: nat, answered: set<Id>, cache: Cache, k: nat)
    requires k < n <= |m.calls| && m.calls[k].name != "" && EmitCalls(m, n, answered, cache).Ok?
    ensures EmitChatCall(m, m.calls[k], answered, cache).Ok?
    ensures EmitChatCall(m, m.calls[k], answered, cache).value in EmitCalls(m, n, answered, cache).value
  {
    hide EmitChatCall;
    if k < n - 1 {
      CallInMessage(m, n - 1, answered, cache, k);
    }
  }

  lemma {:induction false} PartInMessages(
    t: ChatTables, cache: Cache, messages: seq<Message>, n: nat, hash: seq<Message> -> string, i: nat, c: Content, p: Part)
    requires i < n <= |messages| && EmitMessages(t, cache, messages, n, hash).Ok?
    requires EmitMessage(t, cache, messages, i, hash) == Ok([c]) && p in c.parts
    ensures (c.role, p) in Flatten(EmitMessages(t, cache, messages, n, hash).value)
  {
    hide EmitMessage, Flatten;
    var before := EmitMessages(t, cache, messages, n - 1, hash).value;
    if i < n - 1 {
      PartInMessages(t, cache, messages, n - 1, hash, i, c, p);
      FlattenConcat(before, EmitMessage(t, cache, messages, n - 1, hash).value);
    } else {
      FlattenSnoc(before, c);
      var k :| 0 <= k < |c.parts| && c.parts[k] == p;
      assert Tagged(c.role, c.parts)[k] == (c.role, p);
    }
  }

  lemma {:induction false} MessageIsOk(t: ChatTables, cache: Cache, messages: seq<Message>, n: nat, hash: seq<Message> -> string, i: nat)
    requires i < n <= |messages| && EmitMessages(t, cache, messages, n, hash).Ok?
    ensures EmitMessage(t, cache, messages, i, hash).Ok?
  {
    hide EmitMessage;
    if i < n - 1 {
      MessageIsOk(t, cache, messages, n - 1, hash, i);
    }
  }

  lemma AssistantContent(t: ChatTables, cache: Cache, messages: seq<Message>, i: nat, hash: seq<Message> -> string, p: Part)
    requires i < |messages| && messages[i].role == Assistant && EmitMessage(t, cache, messages, i, hash).Ok?
    requires EmitCalls(messages[i], |messages[i].calls|, t.answered, cache).Ok? ==>
               p in EmitCalls(messages[i], |messages[i].calls|, t.answered, cache).value
    ensures exists c: Content :: EmitMessage(t, cache, messages, i, hash) == Ok([c]) && c.role == "model" && p in c.parts
  {
    hide EmitCalls, ChatTextSig;
    var cs := EmitMessage(t, cache, messages, i, hash).value;
    assert |cs| == 1 && cs == [cs[0]] && p in cs[0].parts;
  }

  /** A chat conversion in which the call is replayed either fails or sends it on as the upstream knew it. */
  lemma RecalledChatConversion(messages: seq<Message>, i: nat, k: nat, cache: Cache, hash: seq<Message> -> string, r: Record)
    requires i < |messages| && messages[i].role == Assistant && k < |messages[i].calls|
    requires Minted(r) && r.sig != "" && Recalled(cache, r)
    requires messages[i].calls[k].id == r.callId && messages[i].calls[k].name != ""
    ensures var call := messages[i].calls[k];
            var sent := ConvertChat(messages, cache, hash);
            && (sent.Ok? ==> ("model", CallPart(call.name, call.args, OutId(r), r.sig)) in Flatten(sent.value))
            && (!UnalteredCall(messages[i], call, cache, r) ==> sent.Err?)
  {
    hide ValidateChat, LearnAll, Steps, EmitMessages, EmitMessage, EmitCalls, EmitChatCall, Normalized, Flatten, KeepSubstantial,
         Recalled, UnalteredCall, OutId, Alternating;
    var m := messages[i];
    if ConvertChat(messages, cache, hash).Ok? {
      var t := LearnAll(Steps(messages), cache);
      MessageIsOk(t, cache, messages, |messages|, hash, i);
      assert EmitCalls(m, |m.calls|, t.answered, cache).Ok? by { AssistantCallsOk(t, cache, messages, i, hash); }
      CallInMessage(m, |m.calls|, t.answered, cache, k);
      CachedChatCallComesBack(m, m.calls[k], t.answered, cache, r);
      var p := CallPart(m.calls[k].name, m.calls[k].args, OutId(r), r.sig);
      AssistantContent(t, cache, messages, i, hash, p);
      var c: Content :| EmitMessage(t, cache, messages, i, hash) == Ok([c]) && c.role == "model" && p in c.parts;
      PartInMessages(t, cache, messages, |messages|, hash, i, c, p);
      var raw := EmitMessages(t, cache, messages, |messages|, hash).value;
      NormalizedKeeps(raw);
      KeptIn(Flatten(raw), ("model", p));
    }
  }

  lemma AssistantCallsOk(t: ChatTables, cache: Cache, messages: seq<Message>, i: nat, hash: seq<Message> -> string)
    requires i < |messages| && messages[i].role == Assistant && EmitMessage(t, cache, messages, i, hash).Ok?
    ensures EmitCalls(messages[i], |messages[i].calls|, t.answered, cache).Ok?
  {
    hide EmitCalls, ChatTextSig;
  }

  /** The names by which a chat result is led to a recalled call: its call id, its upstream id, and its item id while the cache knows it. */
  predicate NamesCall(cache: Cache, r: Record, name: Id)
    requires r.CallRec?
  {
    && name != NO_ID
    && (|| name == r.callId
        || (name == r.upstreamId && (GetTool(cache, name).None? || GetTool(cache, name) == GetTool(cache, r.callId)))
        || (name == r.itemId && GetTool(cache, name).Some?))
  }

  /** The response of a recalled call: under its upstream id, and its recorded name unless the client names it. */
  function RecalledToolResult(t: ChatTables, m: Message, r: Record): Part
    requires r.CallRec?
  {
    var name := if m.name != "" then m.name else if r.name != "" then r.name else if m.callId in t.names then t.names[m.callId] else "";
    Part("", false, "", None, Some(FunctionResponse(if name == "" then Unnamed(m.callId) else Called(name), m.text,
                                               if r.upstreamId != NO_ID then r.upstreamId else m.callId)))
  }

  lemma RecalledChatResult(t: ChatTables, cache: Cache, m: Message, r: Record)
    requires Minted(r) && Recalled(cache, r) && NamesCall(cache, r, m.callId)
    requires m.callId == r.upstreamId && m.callId != r.callId ==> m.callId in t.names && t.names[m.callId] == r.name
    ensures EmitToolResult(t, cache, m) == RecalledToolResult(t, m, r)
  {
    hide GetTool, RecordOf;
    StoredFields(GetTool(cache, r.callId).value, r);
  }

  /** A converted chat answers the upstream under the call's upstream id, not under the bridge's. */
  lemma ChatResultComesBack(messages: seq<Message>, i: nat, cache: Cache, hash: seq<Message> -> string, r: Record)
    requires ConvertChat(messages, cache, hash).Ok? && i < |messages| && messages[i].role == Tool
    requires Minted(r) && Recalled(cache, r) && messages[i].callId == r.callId
    ensures ("user", RecalledToolResult(LearnAll(Steps(messages), cache), messages[i], r)) in Flatten(ConvertChat(messages, cache, hash).value)
  {
    hide ValidateChat, LearnAll, Steps, EmitMessages, EmitToolResult, Normalized, Flatten, KeepSubstantial, Recalled, RecalledToolResult, Alternating;
    var t := LearnAll(Steps(messages), cache);
    RecalledChatResult(t, cache, messages[i], r);
    ResponsePartIs(t, cache, messages[i]);
    var p := EmitToolResult(t, cache, messages[i]);
    assert EmitMessage(t, cache, messages, i, hash) == Ok([Content("user", [p])]);
    PartInMessages(t, cache, messages, |messages|, hash, i, Content("user", [p]), p);
    var raw := EmitMessages(t, cache, messages, |messages|, hash).value;
    NormalizedKeeps(raw);
    KeptIn(Flatten(raw), ("user", p));
  }

  // ----- the unaltered call with its result converts

  lemma TwoSteps(call: ToolCall, id: Id)
    ensures var steps := [CallStep(call), ResultStep(id)];
            && steps[..1] == [CallStep(call)] && [CallStep(call)][..0] == [] && steps[1] == ResultStep(id)
            && [CallStep(call)][0] == CallStep(call)
  {
  }

  predicate OneAnswered(m: Message, result: Message) {
    && m.role == Assistant && |m.calls| == 1 && m.calls[0].id != NO_ID && m.calls[0].name != ""
    && result.role == Tool && result.calls == []
  }

  lemma ExchangeSteps(m: Message, result: Message)
    requires OneAnswered(m, result)
    ensures Steps([m, result]) == [CallStep(m.calls[0]), ResultStep(result.callId)]
  {
    assert [m, result][..1] == [m] && [m][..0] == [];
    assert Steps([]) == [];
    assert Steps([m]) == [CallStep(m.calls[0])];
  }

  lemma ExchangeAlias(call: ToolCall, cache: Cache, r: Record, name: Id)
    requires Minted(r) && Recalled(cache, r) && call.id == r.callId && call.name != "" && NamesCall(cache, r, name)
    ensures var steps := [CallStep(call), ResultStep(name)];
            && (r.callId in StepAlias(steps, cache) && StepAlias(steps, cache)[r.callId] == r.callId)
            && ResultOwner(StepAlias(steps, cache), cache, name) == r.callId
            && r.callId in LearnAll(steps, cache).answered
            && (name == r.upstreamId ==> name in LearnAll(steps, cache).names && LearnAll(steps, cache).names[name] == call.name)
  {
    hide GetTool, RecordOf;
    StoredFields(GetTool(cache, r.callId).value, r);
    TwoSteps(call, name);
    assert StepAlias([], cache) == map[];
    assert StepAlias([CallStep(call)], cache) == BindCall(map[], cache, r.callId);
    assert LearnAll([], cache) == ChatTables(map[], map[], {});
    assert LearnAll([CallStep(call)], cache) == LearnCall(ChatTables(map[], map[], {}), cache, call);
  }

  lemma ExchangeIsValid(m: Message, result: Message, cache: Cache, r: Record)
    requires OneAnswered(m, result) && Minted(r) && Recalled(cache, r) && m.calls[0].id == r.callId && NamesCall(cache, r, result.callId)
    ensures ValidateChat([m, result], cache).Ok? && r.callId in LearnAll(Steps([m, result]), cache).answered
    ensures result.callId == r.upstreamId ==>
              result.callId in LearnAll(Steps([m, result]), cache).names && LearnAll(Steps([m, result]), cache).names[result.callId] == m.calls[0].name
  {
    hide Steps, StepAlias, StepCalls, LearnAll, ResultOwner, Recalled;
    var call := m.calls[0];
    var steps := [CallStep(call), ResultStep(result.callId)];
    ExchangeSteps(m, result);
    ExchangeAlias(call, cache, r, result.callId);
    ExchangeWalk(call, result.callId, StepAlias(steps, cache), StepCalls(steps), cache);
  }

  lemma ExchangeWalk(call: ToolCall, name: Id, alias: map<Id, Id>, calls: set<Id>, cache: Cache)
    requires call.id != NO_ID && call.id in alias && alias[call.id] == call.id && name != NO_ID && ResultOwner(alias, cache, name) == call.id
    ensures PairSteps([CallStep(call), ResultStep(name)], alias, calls, cache).Ok?
  {
    hide GetTool, ResultOwner;
    TwoSteps(call, name);
    assert PairSteps([], alias, calls, cache) == Ok(Seen({}, {}));
    assert PairSteps([CallStep(call)], alias, calls, cache) == PairStep(Seen({}, {}), CallStep(call), alias, calls, cache);
  }

  /** What the exchange is sent on as: the text of the message, the call and its response. */
  function ExchangeSent(m: Message, result: Message, cache: Cache, hash: seq<Message> -> string, r: Record): seq<(string, Part)>
    requires OneAnswered(m, result) && r.CallRec?
  {
    var t := LearnAll(Steps([m, result]), cache);
    (if m.text == "" then [] else [("model", TextPart(m.text, ChatTextSig(m, cache, hash([]))))]) +
    [("model", CallPart(m.calls[0].name, m.calls[0].args, OutId(r), r.sig)), ("user", RecalledToolResult(t, result, r))]
  }

  /**
   * An unaltered call that the cache remembers converts with its result, by whichever of its names
   * the result names it: its own signature, both under its upstream id.
   */
  lemma RecalledChatExchange(m: Message, result: Message, cache: Cache, hash: seq<Message> -> string, r: Record)
    requires OneAnswered(m, result) && Minted(r) && r.sig != "" && Recalled(cache, r) && m.calls[0].id == r.callId
    requires UnalteredCall(m, m.calls[0], cache, r) && NamesCall(cache, r, result.callId)
    ensures var sent := ConvertChat([m, result], cache, hash);
            sent.Ok? && Flatten(sent.value) == ExchangeSent(m, result, cache, hash, r)
  {
    hide ValidateChat, LearnAll, Steps, EmitMessages, EmitMessage, Normalized, Flatten, Recalled, UnalteredCall, OutId, Alternating,
         EmitToolResult, RecalledToolResult, KeepSubstantial, ChatTextSig;
    var messages, t := [m, result], LearnAll(Steps([m, result]), cache);
    ExchangeIsValid(m, result, cache, r);
    SameNameCalled(m, cache, r);
    var model := ExchangeContent(m, result, cache, hash, r);
    var reply := RecalledToolResult(t, result, r);
    RecalledChatResult(t, cache, result, r);
    ResponsePartIs(t, cache, result);
    assert EmitMessage(t, cache, messages, 1, hash) == Ok([Content("user", [reply])]) by { ToolContent(t, cache, messages, 1, hash); }
    TwoMessages(t, cache, messages, hash, model, Content("user", [reply]));
    var raw := [model, Content("user", [reply])];
    FlattenTwo(model, reply);
    NormalizedKeeps(raw);
    KeepAll(Flatten(raw));
    assert Flatten([]) == [] by { NoParts(); }
  }

  lemma SameNameCalled(m: Message, cache: Cache, r: Record)
    requires |m.calls| == 1 && r.CallRec? && UnalteredCall(m, m.calls[0], cache, r)
    ensures m.calls[0].name == r.name
  {
    hide ClaimedSig;
  }

  lemma NoParts()
    ensures Flatten([]) == []
  {
  }

  lemma ToolContent(t: ChatTables, cache: Cache, messages: seq<Message>, i: nat, hash: seq<Message> -> string)
    requires i < |messages| && messages[i].role == Tool
    ensures EmitMessage(t, cache, messages, i, hash) == Ok([Content("user", [EmitToolResult(t, cache, messages[i])])])
  {
    hide EmitToolResult;
  }

  lemma TwoMessages(t: ChatTables, cache: Cache, messages: seq<Message>, hash: seq<Message> -> string, a: Content, b: Content)
    requires |messages| == 2 && EmitMessage(t, cache, messages, 0, hash) == Ok([a]) && EmitMessage(t, cache, messages, 1, hash) == Ok([b])
    ensures EmitMessages(t, cache, messages, 2, hash) == Ok([a, b])
  {
    hide EmitMessage;
    assert EmitMessages(t, cache, messages, 0, hash) == Ok([]);
    assert [] + [a] == [a] && [a] + [b] == [a, b];
    assert EmitMessages(t, cache, messages, 1, hash) == Ok([a]);
  }

  lemma FlattenTwo(model: Content, reply: Part)
    requires model.role == "model" && reply.call.None? && reply.response.Some? && Substantial(reply)
    requires forall i :: 0 <= i < |model.parts| ==> Substantial(model.parts[i])
    ensures var f := Flatten([model, Content("user", [reply])]);
            f == Tagged("model", model.parts) + [("user", reply)] && forall i :: 0 <= i < |f| ==> Substantial(f[i].1)
  {
    hide Flatten, Substantial;
    NoParts();
    FlattenSnoc([], model);
    FlattenOne([model], Content("user", [reply]));
    assert [] + [model] == [model] && [model] + [Content("user", [reply])] == [model, Content("user", [reply])];
  }

  lemma ExchangeContent(m: Message, result: Message, cache: Cache, hash: seq<Message> -> string, r: Record) returns (c: Content)
    requires OneAnswered(m, result) && Minted(r) && r.sig != "" && Recalled(cache, r) && m.calls[0].id == r.callId
    requires UnalteredCall(m, m.calls[0], cache, r) && NamesCall(cache, r, result.callId)
    ensures var t := LearnAll(Steps([m, result]), cache);
            EmitMessage(t, cache, [m, result], 0, hash) == Ok([c])
    ensures c.role == "model" && forall i :: 0 <= i < |c.parts| ==> Substantial(c.parts[i])
    ensures Tagged("model", c.parts) + [("user", RecalledToolResult(LearnAll(Steps([m, result]), cache), result, r))] ==
            ExchangeSent(m, result, cache, hash, r)
  {
    hide LearnAll, Steps, EmitChatCall, Recalled, UnalteredCall, OutId, ChatTextSig, RecalledToolResult, Substantial;
    var t := LearnAll(Steps([m, result]), cache);
    ExchangeIsValid(m, result, cache, r);
    var call := CallPart(m.calls[0].name, m.calls[0].args, OutId(r), r.sig);
    CachedChatCallComesBack(m, m.calls[0], t.answered, cache, r);
    assert EmitCalls(m, 0, t.answered, cache) == Ok([]);
    assert [] + [call] == [call];
    assert EmitCalls(m, 1, t.answered, cache) == Ok([call]);
    assert [m, result][..0] == [];
    var sig := ChatTextSig(m, cache, hash([]));
    TextIsSubstantial(m.text, sig);
    CallIsSubstantial(m.calls[0], OutId(r), r.sig);
    c := Content("model", (if m.text == "" then [] else [TextPart(m.text, sig)]) + [call]);
  }

  lemma CallIsSubstantial(call: ToolCall, id: Id, sig: string)
    ensures Substantial(CallPart(call.name, call.args, id, sig))
  {
  }

  /**
   * Sessions do not interfere in chat histories either: after any run that stores nothing else
   * under the ids of a signed call, and while its record is live, a chat conversion that replays
   * the call by name sends it with its own signature and upstream id or fails; it fails when name,
   * arguments or signature were altered, and the unaltered call with its result converts.
   */
  lemma ChatSessionsDoNotInterfere(
    max: Capacity, ctx: Ctx, ps: seq<Core.Part>, n: nat, before: seq<Op>, prefixHash: string, leads: seq<Id>, later: seq<Op>,
    messages: seq<Message>, i: nat, k: nat, hash: seq<Message> -> string)
    requires ctx.Valid() && n < |Built(ctx, ps).parts|
    requires var r := Built(ctx, ps).parts[n];
      && RunAround(max, before, Built(ctx, ps), prefixHash, leads, later, r) && r.sig != "" && r.sig != MIGRATION_MARKER
      && r.callId in CacheAfter(max, before, Built(ctx, ps), prefixHash, leads, later).records
    requires i < |messages| && messages[i].role == Assistant && k < |messages[i].calls|
    requires messages[i].calls[k].id == Built(ctx, ps).parts[n].callId && messages[i].calls[k].name != ""
    ensures var r, call := Built(ctx, ps).parts[n], messages[i].calls[k];
            var cache := CacheAfter(max, before, Built(ctx, ps), prefixHash, leads, later);
            var sent := ConvertChat(messages, cache, hash);
            && (sent.Ok? ==> ("model", CallPart(call.name, call.args, OutId(r), r.sig)) in Flatten(sent.value))
            && (!UnalteredCall(messages[i], call, cache, r) ==> sent.Err?)
            && (|messages| == 2 && i == 0 && OneAnswered(messages[0], messages[1]) && NamesCall(cache, r, messages[1].callId)
                && UnalteredCall(messages[0], call, cache, r) ==>
                  sent.Ok? && Flatten(sent.value) == ExchangeSent(messages[0], messages[1], cache, hash, r))
  {
    hide Built, TurnOps, RunFrom, Recalled, ConvertChat, Flatten, UnalteredCall, ExchangeSent, NamesCall;
    TurnIsRecalled(max, ctx, ps, n, before, prefixHash, leads, later);
    var cache, r := CacheAfter(max, before, Built(ctx, ps), prefixHash, leads, later), Built(ctx, ps).parts[n];
    RecalledChatConversion(messages, i, k, cache, hash, r);
    if |messages| == 2 && i == 0 && OneAnswered(messages[0], messages[1]) && NamesCall(cache, r, messages[1].callId)
       && UnalteredCall(messages[0], messages[0].calls[k], cache, r) {
      assert messages == [messages[0], messages[1]];
      RecalledChatExchange(messages[0], messages[1], cache, hash, r);
    }
  }

  // ----- why pairing needs named calls

  const NAMELESS := ToolCall(Name("a"), "", NilArgs, "", false)

  /** A call without a name, and its result. */
  const ORPHANED := [
    Message(Assistant, NO_ID, "", NO_ID, "", [NAMELESS], "", [], false),
    Message(Tool, NO_ID, "", Name("a"), "done", [], "", [], false)]

  lemma OrphanSteps()
    ensures Steps(ORPHANED) == [CallStep(NAMELESS), ResultStep(Name("a"))]
  {
    assert ORPHANED[..1] == [ORPHANED[0]] && [ORPHANED[0]][..0] == [];
    assert Steps([]) == [];
    assert Steps([ORPHANED[0]]) == [CallStep(NAMELESS)];
  }

  lemma OrphanIsValid(max: Capacity)
    ensures ValidateChat(ORPHANED, Fresh(max)).Ok?
  {
    hide Steps;
    OrphanSteps();
    var steps := [CallStep(NAMELESS), ResultStep(Name("a"))];
    var cache := Fresh(max);
    assert steps[..1] == [CallStep(NAMELESS)] && [CallStep(NAMELESS)][..0] == [];
    assert CachedUpstream(cache, Name("a")) == NO_ID;
    var alias := StepAlias(steps, cache);
    assert StepAlias([], cache) == map[];
    assert StepAlias([CallStep(NAMELESS)], cache) == map[Name("a") := Name("a")];
    assert alias == map[Name("a") := Name("a")];
    OrphanWalk(alias, StepCalls(steps), cache);
  }

  lemma OrphanWalk(alias: map<Id, Id>, calls: set<Id>, cache: Cache)
    requires alias == map[Name("a") := Name("a")]
    ensures PairSteps([CallStep(NAMELESS), ResultStep(Name("a"))], alias, calls, cache).Ok?
  {
    var steps := [CallStep(NAMELESS), ResultStep(Name("a"))];
    assert steps[..1] == [CallStep(NAMELESS)] && [CallStep(NAMELESS)][..0] == [];
    assert PairSteps([], alias, calls, cache) == Ok(Seen({}, {}));
    assert PairSteps([CallStep(NAMELESS)], alias, calls, cache) == PairStep(Seen({}, {}), CallStep(NAMELESS), alias, calls, cache);
  }

  /** A call without a name passes validation and is dropped; its result stays, without a call. */
  lemma NamelessCallOrphansItsResult(max: Capacity, hash: seq<Message> -> string)
    ensures var sent := ConvertChat(ORPHANED, Fresh(max), hash);
            sent.Ok? && Calls(Flatten(sent.value)) == 0 && Responses(Flatten(sent.value)) == 1
  {
    hide ValidateChat, LearnAll, Steps, EmitToolResult, Normalized, Flatten, Alternating;
    var cache := Fresh(max);
    OrphanIsValid(max);
    var t := LearnAll(Steps(ORPHANED), cache);
    var p := EmitToolResult(t, cache, ORPHANED[1]);
    ResponsePartIs(t, cache, ORPHANED[1]);
    assert EmitMessages(t, cache, ORPHANED, 0, hash) == Ok([]);
    assert EmitCalls(ORPHANED[0], 0, t.answered, cache) == Ok([]);
    assert EmitMessage(t, cache, ORPHANED, 0, hash) == Ok([]);
    assert EmitMessages(t, cache, ORPHANED, 1, hash) == Ok([]);
    assert EmitMessage(t, cache, ORPHANED, 1, hash) == Ok([Content("user", [p])]);
    assert [] + [Content("user", [p])] == [Content("user", [p])];
    assert EmitMessages(t, cache, ORPHANED, 2, hash) == Ok([Content("user", [p])]);
    OneResponse(p);
  }

  lemma OneResponse(p: Part)
    requires p.response.Some? && p.call.None? && Substantial(p)
    ensures var cs := [Content("user", [p])];
            Normalized(cs) == cs && Calls(Flatten(cs)) == 0 && Responses(Flatten(cs)) == 1
  {
    hide Normalized;
    var cs := [Content("user", [p])];
    NormalStays(cs);
    assert cs[..0] == [] && Flatten([]) == [];
    assert Tagged("user", [p]) == [("user", p)];
    assert Flatten(cs) == [("user", p)];
    assert [("user", p)][..0] == [];
  }
}
