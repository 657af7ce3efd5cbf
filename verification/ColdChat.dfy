/** Chat histories that the bridge never saw: with an empty cache everything goes through as it is, or fails. */
module ColdChat {
  import opened Core
  import opened Caches
  import opened Exchange
  import opened Normalize
  import opened Translate
  import opened Chats
  import opened ChatEmission

  // ----- validation

  function StepResults(steps: seq<Step>): set<Id> {
    if steps == [] then {}
    else
      var last := steps[|steps| - 1];
      StepResults(steps[..|steps| - 1]) + if last.ResultStep? && last.callId != NO_ID then {last.callId} else {}
  }

  /** A new call, or the first result of an earlier call. */
  predicate GoodStep(steps: seq<Step>, n: nat)
    requires n < |steps|
  {
    match steps[n]
    case CallStep(call) => call.id == NO_ID || call.id !in StepCalls(steps[..n])
    case ResultStep(id) => id != NO_ID && id in StepCalls(steps[..n]) && id !in StepResults(steps[..n])
  }

  /** How a step that is not good is reported; a second call after the first was answered passes for a call that comes too late. */
  function FaultOf(steps: seq<Step>, n: nat): ValidationError
    requires n < |steps|
  {
    match steps[n]
    case CallStep(call) => if call.id in StepResults(steps[..n]) then ResultBeforeCall(call.id) else DuplicateCall(call.id)
    case ResultStep(id) =>
      if id == NO_ID then MissingResultId
      else if id in StepCalls(steps[..n]) then DuplicateResult(id)
      else if id in StepCalls(steps) then ResultBeforeCall(id)
      else OrphanResult(id)
  }

  function FirstBad(steps: seq<Step>, n: nat): (r: Option<nat>)
    requires n <= |steps|
    ensures r.Some? ==> r.value < n && !GoodStep(steps, r.value)
    ensures forall k :: 0 <= k < (if r.Some? then r.value else n) ==> GoodStep(steps, k)
  {
    if n == 0 then None
    else if FirstBad(steps, n - 1).Some? then FirstBad(steps, n - 1)
    else if GoodStep(steps, n - 1) then None
    else Some(n - 1)
  }

  predicate ChatPaired(steps: seq<Step>) {
    forall n :: 0 <= n < |steps| ==> GoodStep(steps, n)
  }

  lemma NothingKept(max: Capacity, a: Id, b: Id)
    ensures GetTool(Fresh(max), a) == None && CachedUpstream(Fresh(max), a) == NO_ID && CachedName(Fresh(max), a) == ""
    ensures CachedSig(Fresh(max), a) == "" && GetMessage(Fresh(max), a) == "" && !IsVerifiedSibling(Fresh(max), a, b)
  {
  }

  lemma {:induction false} ColdAlias(steps: seq<Step>, max: Capacity)
    ensures forall x :: x in StepAlias(steps, Fresh(max)) ==> StepAlias(steps, Fresh(max))[x] == x
  {
    hide CachedUpstream;
    if steps != [] {
      ColdAlias(steps[..|steps| - 1], max);
      if steps[|steps| - 1].CallStep? {
        NothingKept(max, steps[|steps| - 1].call.id, NO_ID);
      }
    }
  }

  lemma ColdOwner(alias: map<Id, Id>, max: Capacity, id: Id)
    requires forall x :: x in alias ==> alias[x] == x
    ensures ResultOwner(alias, Fresh(max), id) == id && OwnerOr(alias, id) == id
  {
  }

  lemma ColdStep(steps: seq<Step>, n: nat, max: Capacity)
    requires n < |steps| && StepResults(steps[..n]) <= StepCalls(steps[..n])
    ensures PairStep(Seen(StepCalls(steps[..n]), StepResults(steps[..n])), steps[n], StepAlias(steps, Fresh(max)), StepCalls(steps), Fresh(max)) ==
            if GoodStep(steps, n) then Ok(Seen(StepCalls(steps[..n + 1]), StepResults(steps[..n + 1]))) else Err(FaultOf(steps, n))
    ensures GoodStep(steps, n) ==> StepResults(steps[..n + 1]) <= StepCalls(steps[..n + 1])
  {
    hide StepAlias, ResultOwner, OwnerOr;
    assert steps[..n + 1][..n] == steps[..n];
    ColdAlias(steps, max);
    assert StepCalls(steps[..n]) + {} == StepCalls(steps[..n]) && StepResults(steps[..n]) + {} == StepResults(steps[..n]);
    match steps[n]
    case CallStep(call) => ColdOwner(StepAlias(steps, Fresh(max)), max, call.id);
    case ResultStep(id) => ColdOwner(StepAlias(steps, Fresh(max)), max, id);
  }

  lemma {:induction false} ColdWalk(steps: seq<Step>, n: nat, max: Capacity)
    requires n <= |steps|
    ensures PairSteps(steps[..n], StepAlias(steps, Fresh(max)), StepCalls(steps), Fresh(max)) ==
            match FirstBad(steps, n)
            case None => Ok(Seen(StepCalls(steps[..n]), StepResults(steps[..n])))
            case Some(k) => Err(FaultOf(steps, k))
    ensures FirstBad(steps, n) == None ==> StepResults(steps[..n]) <= StepCalls(steps[..n])
  {
    hide StepAlias, StepCalls, StepResults, PairStep, GoodStep, FaultOf;
    if n == 0 {
      NoSteps(max);
    } else {
      ColdWalk(steps, n - 1, max);
      assert steps[..n][..n - 1] == steps[..n - 1];
      if FirstBad(steps, n - 1) == None {
        ColdStep(steps, n - 1, max);
      }
    }
  }

  lemma NoSteps(max: Capacity)
    ensures StepCalls([]) == {} && StepResults([]) == {}
  {
  }

  /**
   * Without cached records a chat is valid exactly when every call id is new, and every result is the
   * first one of an earlier call; otherwise the first step at fault is reported, for what it is.
   */
  lemma ColdValidatorIsExact(messages: seq<Message>, max: Capacity)
    ensures var steps := Steps(messages);
            && (ValidateChat(messages, Fresh(max)).Ok? <==> ChatPaired(steps))
            && forall n {:trigger FaultOf(steps, n)} :: 0 <= n < |steps| && !GoodStep(steps, n) && (forall k :: 0 <= k < n ==> GoodStep(steps, k)) ==>
                 ValidateChat(messages, Fresh(max)) == Err(FaultOf(steps, n))
  {
    hide StepAlias, StepCalls, StepResults, PairSteps, GoodStep, FaultOf, Steps;
    var steps := Steps(messages);
    ColdWalk(steps, |steps|, max);
    assert steps[..|steps|] == steps;
  }

  // ----- what should come out, in terms of the messages alone

  function ColdDetails(details: seq<Detail>): string {
    if details == [] then ""
    else if details[0].data != "" then details[0].data
    else if details[0].signature != "" then details[0].signature
    else ColdDetails(details[1..])
  }

  /** A call claims its own signature; the only call of a message also that of the message's details. */
  function ColdClaim(m: Message, call: ToolCall): string {
    if call.sig != "" then call.sig else if |m.calls| == 1 then ColdDetails(m.details) else ""
  }

  function ColdCall(m: Message, call: ToolCall): Part {
    CallPart(call.name, call.args, call.id, if ColdClaim(m, call) != "" then ColdClaim(m, call) else MIGRATION_MARKER)
  }

  function ColdCalls(m: Message, calls: seq<ToolCall>): seq<(string, Part)> {
    if calls == [] then []
    else
      var last := calls[|calls| - 1];
      ColdCalls(m, calls[..|calls| - 1]) + if last.name == "" then [] else [("model", ColdCall(m, last))]
  }

  /** The name of the last named call with this id. */
  function NameCalled(steps: seq<Step>, id: Id): string {
    if steps == [] then ""
    else
      var last := steps[|steps| - 1];
      if last.CallStep? && last.call.id == id && id != NO_ID && last.call.name != "" then last.call.name else NameCalled(steps[..|steps| - 1], id)
  }

  function ColdResult(steps: seq<Step>, m: Message): Part {
    var name := if m.name != "" then m.name else NameCalled(steps, m.callId);
    Part("", false, "", None, Some(FunctionResponse(if name == "" then Unnamed(m.callId) else Called(name), m.text, m.callId)))
  }

  function ColdMessage(steps: seq<Step>, m: Message): seq<(string, Part)> {
    match m.role
    case System => []
    case Tool => [("user", ColdResult(steps, m))]
    case User => if m.text == "" then [] else [("user", TextPart(m.text, ""))]
    case Assistant =>
      (if m.text == "" then [] else [("model", TextPart(m.text, if m.sig != "" then m.sig else ColdDetails(m.details)))]) + ColdCalls(m, m.calls)
  }

  function ColdParts(steps: seq<Step>, messages: seq<Message>): seq<(string, Part)> {
    if messages == [] then [] else ColdParts(steps, messages[..|messages| - 1]) + ColdMessage(steps, messages[|messages| - 1])
  }

  /** An unsigned call stands alone, beside unsigned ones, or is foreign. */
  predicate ColdUnsuspected(m: Message, call: ToolCall) {
    || ColdClaim(m, call) != "" || m.foreign || call.foreign
    || forall k :: 0 <= k < |m.calls| ==> m.calls[k].id == NO_ID || m.calls[k].id == call.id || m.calls[k].sig == ""
  }

  predicate ColdSendable(steps: seq<Step>, m: Message) {
    m.role == Assistant ==> forall k :: 0 <= k < |m.calls| && m.calls[k].name != "" ==>
      m.calls[k].id in StepResults(steps) && ColdUnsuspected(m, m.calls[k])
  }

  // ----- what is learned

  lemma {:induction false} ColdLearned(steps: seq<Step>, max: Capacity)
    ensures var t := LearnAll(steps, Fresh(max));
            && t.answered == StepResults(steps) && (forall x :: x in t.alias ==> t.alias[x] == x)
            && forall id :: (if id in t.names then t.names[id] else "") == NameCalled(steps, id)
  {
    hide CachedUpstream, GetTool;
    if steps != [] {
      var n := |steps| - 1;
      ColdLearned(steps[..n], max);
      match steps[n]
      case CallStep(call) => NothingKept(max, call.id, NO_ID);
      case ResultStep(id) => NothingKept(max, id, NO_ID);
    }
  }

  lemma {:induction false} ColdDetailsAre(details: seq<Detail>, max: Capacity)
    ensures DetailsSig(details, Fresh(max)) == ColdDetails(details)
  {
    hide GetMessage;
    if details != [] {
      NothingKept(max, details[0].id, NO_ID);
      ColdDetailsAre(details[1..], max);
    }
  }

  lemma ColdSent(m: Message, call: ToolCall, answered: set<Id>, max: Capacity)
    requires call in m.calls
    ensures Sendable(m, call, answered, Fresh(max)) <==> call.id in answered && ColdUnsuspected(m, call)
    ensures SentCall(m, call, Fresh(max)) == ColdCall(m, call)
  {
    hide GetTool, DetailsSig, IsVerifiedSibling, CachedUpstream, CachedSig, SiblingScan;
    var cache := Fresh(max);
    NothingKept(max, call.id, NO_ID);
    ColdDetailsAre(m.details, max);
    forall k | 0 <= k < |m.calls|
      ensures !Lends(m.calls[k], call, cache)
      ensures SignedOther(m.calls[k], call, cache) <==> m.calls[k].id != NO_ID && m.calls[k].id != call.id && m.calls[k].sig != ""
    {
      NothingKept(max, m.calls[k].id, call.id);
    }
  }

  lemma {:induction false} ColdCallsAre(m: Message, n: nat, max: Capacity)
    requires n <= |m.calls|
    ensures CallParts(m, m.calls[..n], Fresh(max)) == ColdCalls(m, m.calls[..n])
  {
    hide SentCall, ColdCall;
    if n > 0 {
      assert m.calls[..n][..n - 1] == m.calls[..n - 1];
      ColdCallsAre(m, n - 1, max);
      ColdSent(m, m.calls[n - 1], {}, max);
    }
  }

  lemma ColdMessageIs(t: ChatTables, messages: seq<Message>, i: nat, hash: seq<Message> -> string, steps: seq<Step>, max: Capacity)
    requires i < |messages| && t.answered == StepResults(steps) && forall id :: (if id in t.names then t.names[id] else "") == NameCalled(steps, id)
    ensures MessageParts(t, Fresh(max), messages, i, hash) == ColdMessage(steps, messages[i])
    ensures AllSendable(t, Fresh(max), messages[i]) <==> ColdSendable(steps, messages[i])
  {
    hide CallParts, ColdCalls, Sendable, ColdUnsuspected, NameCalled, StepResults, GetTool, DetailsSig, GetContext, ResponsesContextKey;
    var m := messages[i];
    assert m.calls[..|m.calls|] == m.calls;
    ColdCallsAre(m, |m.calls|, max);
    ColdDetailsAre(m.details, max);
    NothingKept(max, m.callId, NO_ID);
    NothingKept(max, m.id, NO_ID);
    NoContext(max, ResponsesContextKey(hash(messages[..i]), m.text));
    forall k | 0 <= k < |m.calls|
      ensures Sendable(m, m.calls[k], t.answered, Fresh(max)) <==> m.calls[k].id in t.answered && ColdUnsuspected(m, m.calls[k])
    {
      ColdSent(m, m.calls[k], t.answered, max);
    }
  }

  lemma NoContext(max: Capacity, key: string)
    ensures GetContext(Fresh(max), key) == ""
  {
  }

  lemma {:induction false} ColdPartsAre(t: ChatTables, messages: seq<Message>, n: nat, hash: seq<Message> -> string, steps: seq<Step>, max: Capacity)
    requires n <= |messages| && t.answered == StepResults(steps) && forall id :: (if id in t.names then t.names[id] else "") == NameCalled(steps, id)
    ensures PartsTo(t, Fresh(max), messages, n, hash) == ColdParts(steps, messages[..n])
    ensures (forall i :: 0 <= i < n ==> AllSendable(t, Fresh(max), messages[i])) <==> forall i :: 0 <= i < n ==> ColdSendable(steps, messages[i])
  {
    hide MessageParts, ColdMessage, AllSendable, ColdSendable, NameCalled, StepResults;
    if n > 0 {
      assert messages[..n][..n - 1] == messages[..n - 1];
      ColdPartsAre(t, messages, n - 1, hash, steps, max);
      ColdMessageIs(t, messages, n - 1, hash, steps, max);
    }
  }

  /**
   * A chat that the bridge never saw converts if and only if it is paired, every named call of the
   * assistant is answered, no unsigned one of them stands beside a signed one unless it is foreign,
   * and anything is left to send. Then everything goes through in order: each named call under its
   * own id with the signature it claims or, without one, the replay marker; each result under its id
   * and the name the client or its call gives; each text in its role.
   */
  lemma ColdChatConversion(messages: seq<Message>, max: Capacity, hash: seq<Message> -> string)
    ensures var steps, sent := Steps(messages), ConvertChat(messages, Fresh(max), hash);
            && (sent.Ok? <==>
                  && ChatPaired(steps) && ColdParts(steps, messages) != []
                  && forall i :: 0 <= i < |messages| ==> ColdSendable(steps, messages[i]))
            && (sent.Ok? ==> Flatten(sent.value) == ColdParts(steps, messages))
  {
    hide ConvertChat, Flatten, ValidateChat, LearnAll, Steps, PartsTo, ColdParts, AllSendable, ColdSendable, StepResults, NameCalled, GoodStep;
    var steps, t := Steps(messages), LearnAll(Steps(messages), Fresh(max));
    ChatConversionIs(messages, Fresh(max), hash);
    ColdValidatorIsExact(messages, max);
    ColdLearned(steps, max);
    ColdPartsAre(t, messages, |messages|, hash, steps, max);
    assert messages[..|messages|] == messages;
  }
}
