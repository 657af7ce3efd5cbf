/** Conversion of a chat history into upstream contents. */
module Chats {
  import opened Core
  import opened Caches
  import opened Provenance
  import opened Exchange
  import opened Normalize
  import opened Translate

  datatype ToolCall = ToolCall(id: Id, name: string, args: Args, sig: string, foreign: bool)

  /** Roles after trimming and lower-casing; "developer" is System, unknown roles are User. */
  datatype Role = System | Assistant | Tool | User

  /** The signature sources of one reasoning detail, trimmed. */
  datatype Detail = Detail(id: Id, data: string, signature: string)

  datatype Message = Message(
    role: Role, id: Id, name: string, callId: Id, text: string, calls: seq<ToolCall>, sig: string,
    details: seq<Detail>, foreign: bool)

  // ----- validation

  /** A conversation as the validator walks it: the calls of each message, then its result. */
  datatype Step = CallStep(call: ToolCall) | ResultStep(callId: Id)

  function CallSteps(calls: seq<ToolCall>): (r: seq<Step>)
    ensures |r| == |calls| && forall i :: 0 <= i < |calls| ==> r[i] == CallStep(calls[i])
  {
    seq(|calls|, i requires 0 <= i < |calls| => CallStep(calls[i]))
  }

  function StepsOf(m: Message): seq<Step> {
    CallSteps(m.calls) + if m.role == Tool then [ResultStep(m.callId)] else []
  }

  function Steps(messages: seq<Message>): seq<Step> {
    if messages == [] then [] else Steps(messages[..|messages| - 1]) + StepsOf(messages[|messages| - 1])
  }

  /** Each call is known under its own id, and under the upstream id of its cached record. */
  function BindCall(alias: map<Id, Id>, cache: Cache, id: Id): map<Id, Id> {
    if id == NO_ID then alias
    else
      var own := alias[id := id];
      if CachedUpstream(cache, id) != NO_ID then own[CachedUpstream(cache, id) := id] else own
  }

  function StepAlias(steps: seq<Step>, cache: Cache): map<Id, Id> {
    if steps == [] then map[]
    else
      var before, last := StepAlias(steps[..|steps| - 1], cache), steps[|steps| - 1];
      if last.CallStep? then BindCall(before, cache, last.call.id) else before
  }

  function StepCalls(steps: seq<Step>): set<Id> {
    if steps == [] then {}
    else
      var last := steps[|steps| - 1];
      StepCalls(steps[..|steps| - 1]) + if last.CallStep? && last.call.id != NO_ID then {last.call.id} else {}
  }

  function OwnerOr(alias: map<Id, Id>, id: Id): Id {
    if id in alias && alias[id] != NO_ID then alias[id] else id
  }

  function PairStep(seen: Seen, step: Step, alias: map<Id, Id>, calls: set<Id>, cache: Cache): Result<Seen, ValidationError> {
    match step
    case CallStep(call) =>
      if call.id == NO_ID then Ok(seen)
      else
        var owner := OwnerOr(alias, call.id);
        if owner in seen.results then Err(ResultBeforeCall(call.id))
        else if owner in seen.calls then Err(DuplicateCall(call.id))
        else Ok(seen.(calls := seen.calls + {owner}))
    case ResultStep(id) =>
      if id == NO_ID then Err(MissingResultId)
      else
        var owner := ResultOwner(alias, cache, id);
        if owner !in seen.calls then Err(if owner in calls || id in calls then ResultBeforeCall(id) else OrphanResult(id))
        else if owner in seen.results then Err(DuplicateResult(id))
        else Ok(seen.(results := seen.results + {owner}))
  }

  function PairSteps(steps: seq<Step>, alias: map<Id, Id>, calls: set<Id>, cache: Cache): Result<Seen, ValidationError> {
    if steps == [] then Ok(Seen({}, {}))
    else
      match PairSteps(steps[..|steps| - 1], alias, calls, cache)
      case Err(e) => Err(e)
      case Ok(seen) => PairStep(seen, steps[|steps| - 1], alias, calls, cache)
  }

  function ValidateChat(messages: seq<Message>, cache: Cache): Result<Seen, ValidationError> {
    var steps := Steps(messages);
    PairSteps(steps, StepAlias(steps, cache), StepCalls(steps), cache)
  }

  // ----- what the converter learns in its own first pass

  datatype ChatTables = ChatTables(alias: map<Id, Id>, names: map<Id, string>, answered: set<Id>)

  function LearnCall(t: ChatTables, cache: Cache, call: ToolCall): ChatTables {
    if call.id == NO_ID || call.name == "" then t
    else
      var names := t.names[call.id := call.name];
      t.(alias := BindCall(t.alias, cache, call.id),
         names := if CachedUpstream(cache, call.id) != NO_ID then names[CachedUpstream(cache, call.id) := call.name] else names)
  }

  /** A result answers the call its id is an alias of, or its cached record, and its own id. */
  function LearnResult(t: ChatTables, cache: Cache, id: Id): ChatTables {
    if id == NO_ID then t
    else if id in t.alias then t.(answered := t.answered + {t.alias[id]} + {id})
    else if GetTool(cache, id).Some? then t.(answered := t.answered + {GetTool(cache, id).value.bridgeId} + {id})
    else t.(answered := t.answered + {id})
  }

  function Learn(t: ChatTables, cache: Cache, step: Step): ChatTables {
    match step
    case CallStep(call) => LearnCall(t, cache, call)
    case ResultStep(id) => LearnResult(t, cache, id)
  }

  function LearnAll(steps: seq<Step>, cache: Cache): ChatTables {
    if steps == [] then ChatTables(map[], map[], {})
    else Learn(LearnAll(steps[..|steps| - 1], cache), cache, steps[|steps| - 1])
  }

  // ----- signatures

  function DetailsSig(details: seq<Detail>, cache: Cache): string {
    if details == [] then ""
    else
      var d := details[0];
      if d.id != NO_ID && GetMessage(cache, d.id) != "" then GetMessage(cache, d.id)
      else if d.data != "" then d.data
      else if d.signature != "" then d.signature
      else DetailsSig(details[1..], cache)
  }

  function ChatTextSig(m: Message, cache: Cache, prefixHash: string): string {
    if m.sig != "" then m.sig
    else if DetailsSig(m.details, cache) != "" then DetailsSig(m.details, cache)
    else if m.id != NO_ID && GetMessage(cache, m.id) != "" then GetMessage(cache, m.id)
    else GetContext(cache, ResponsesContextKey(prefixHash, m.text))
  }

  predicate SameToolCall(name: string, args: Args, call: ToolCall) {
    name == call.name && EqualToolArgs(args, call.args)
  }

  function OtherSig(other: ToolCall, cache: Cache): string {
    if other.sig != "" then other.sig else CachedSig(cache, other.id)
  }

  /** Whether another call of the message is signed, and the signature of the first verified sibling lead. */
  function SiblingScan(others: seq<ToolCall>, call: ToolCall, cache: Cache): (bool, Option<string>) {
    if others == [] then (false, None)
    else
      var other := others[0];
      if other.id == NO_ID || other.id == call.id || OtherSig(other, cache) == "" then SiblingScan(others[1..], call, cache)
      else if IsVerifiedSibling(cache, other.id, call.id) then
        (true, Some(if CachedSig(cache, other.id) != "" then CachedSig(cache, other.id) else OtherSig(other, cache)))
      else (true, SiblingScan(others[1..], call, cache).1)
  }

  /** Evidence from the call itself, the cache, and the reasoning details of a message with one call. */
  function ChatOwnEvidence(m: Message, call: ToolCall, answered: set<Id>, cache: Cache): Evidence {
    var rec := GetTool(cache, call.id);
    var altered := rec.Some? && !rec.value.legacy && !SameToolCall(rec.value.name, rec.value.args, call);
    var legacyAltered := rec.Some? && rec.value.legacy &&
                         ((rec.value.name != "" && rec.value.name != call.name) ||
                          (rec.value.args != NilArgs && !EqualToolArgs(rec.value.args, call.args)));
    var legacyCounts := legacyAltered && call.sig == "";
    var detail := if call.sig == "" && |m.calls| == 1 then DetailsSig(m.details, cache) else "";
    Evidence(call.sig != "" || detail != "", if call.sig != "" then call.sig else detail, false,
             rec.Some? && (!legacyAltered || legacyCounts), if rec.Some? && !legacyAltered then rec.value.sig else "",
             altered || legacyCounts, false, "", call.id in answered, m.foreign || call.foreign, false)
  }

  function ChatEvidence(m: Message, call: ToolCall, answered: set<Id>, cache: Cache): Evidence {
    var ev := ChatOwnEvidence(m, call, answered, cache);
    if ev.cacheMismatch || ev.carrierSig != "" || ev.cacheSig != "" || |m.calls| <= 1 then ev
    else
      match SiblingScan(m.calls, call, cache)
      case (_, Some(sig)) => ev.(recordedSibling := true, siblingLeadSig := sig)
      case (native, None) => ev.(nativeTurnUnverified := native && !ev.affirmativelyForeign)
  }

  // ----- emission

  function ChatOutboundId(call: ToolCall, cache: Cache): Id {
    if CachedUpstream(cache, call.id) != NO_ID then CachedUpstream(cache, call.id) else call.id
  }

  function EmitChatCall(m: Message, call: ToolCall, answered: set<Id>, cache: Cache): Result<Part, PolicyError> {
    match ResolveToolSignature(ChatEvidence(m, call, answered, cache))
    case Err(e) => Err(e)
    case Ok(sig) => Ok(CallPart(call.name, call.args, ChatOutboundId(call, cache), sig))
  }

  /** The first `n` calls of a message; calls without a name are skipped. */
  function EmitCalls(m: Message, n: nat, answered: set<Id>, cache: Cache): Result<seq<Part>, PolicyError>
    requires n <= |m.calls|
  {
    if n == 0 then Ok([])
    else
      match EmitCalls(m, n - 1, answered, cache)
      case Err(e) => Err(e)
      case Ok(before) =>
        if m.calls[n - 1].name == "" then Ok(before)
        else match EmitChatCall(m, m.calls[n - 1], answered, cache)
          case Err(e) => Err(e)
          case Ok(p) => Ok(before + [p])
  }

  function ChatResponseName(t: ChatTables, cache: Cache, m: Message): ResponseName {
    if m.name != "" then Called(m.name)
    else if CachedName(cache, m.callId) != "" then Called(CachedName(cache, m.callId))
    else if m.callId in t.names && t.names[m.callId] != "" then Called(t.names[m.callId])
    else Unnamed(m.callId)
  }

  function EmitToolResult(t: ChatTables, cache: Cache, m: Message): Part {
    var id := if CachedUpstream(cache, m.callId) != NO_ID then CachedUpstream(cache, m.callId) else m.callId;
    Part("", false, "", None, Some(FunctionResponse(ChatResponseName(t, cache, m), m.text, id)))
  }

  function EmitMessage(t: ChatTables, cache: Cache, messages: seq<Message>, i: nat, hash: seq<Message> -> string)
    : Result<seq<Content>, PolicyError>
    requires i < |messages|
  {
    var m := messages[i];
    match m.role
    case System => Ok([])
    case Tool => Ok([Content("user", [EmitToolResult(t, cache, m)])])
    case User => Ok(if m.text == "" then [] else [Content("user", [TextPart(m.text, "")])])
    case Assistant =>
      match EmitCalls(m, |m.calls|, t.answered, cache)
      case Err(e) => Err(e)
      case Ok(called) =>
        var parts := (if m.text == "" then [] else [TextPart(m.text, ChatTextSig(m, cache, hash(messages[..i])))]) + called;
        Ok(if parts == [] then [] else [Content("model", parts)])
  }

  function EmitMessages(t: ChatTables, cache: Cache, messages: seq<Message>, n: nat, hash: seq<Message> -> string)
    : Result<seq<Content>, PolicyError>
    requires n <= |messages|
  {
    if n == 0 then Ok([])
    else
      match EmitMessages(t, cache, messages, n - 1, hash)
      case Err(e) => Err(e)
      case Ok(before) =>
        match EmitMessage(t, cache, messages, n - 1, hash)
        case Err(e) => Err(e)
        case Ok(cs) => Ok(before + cs)
  }

  function ConvertChat(messages: seq<Message>, cache: Cache, hash: seq<Message> -> string): Result<seq<Content>, ConvertError> {
    match ValidateChat(messages, cache)
    case Err(e) => Err(Invalid(e))
    case Ok(_) =>
      match EmitMessages(LearnAll(Steps(messages), cache), cache, messages, |messages|, hash)
      case Err(e) => Err(Rejected(e))
      case Ok(raw) => if Normalized(raw) == [] then Err(NoContents) else Ok(Normalized(raw))
  }

  // ----- the same as loops

  lemma StepsConcat(m: Message, k: nat)
    requires k < |m.calls|
    ensures CallSteps(m.calls[..k + 1]) == CallSteps(m.calls[..k]) + [CallStep(m.calls[k])]
  {
  }

  lemma LastStep(a: seq<Step>, step: Step)
    ensures (a + [step])[..|a + [step]| - 1] == a && (a + [step])[|a + [step]| - 1] == step
  {
  }

  method RegisterMessage(m: Message, alias0: map<Id, Id>, calls0: set<Id>, cache: Cache, ghost before: seq<Step>)
    returns (alias: map<Id, Id>, allCalls: set<Id>)
    requires alias0 == StepAlias(before, cache) && calls0 == StepCalls(before)
    ensures alias == StepAlias(before + StepsOf(m), cache) && allCalls == StepCalls(before + StepsOf(m))
  {
    hide BindCall, CallSteps;
    alias, allCalls := alias0, calls0;
    assert before + CallSteps(m.calls[..0]) == before;
    for k := 0 to |m.calls|
      invariant alias == StepAlias(before + CallSteps(m.calls[..k]), cache)
      invariant allCalls == StepCalls(before + CallSteps(m.calls[..k]))
    {
      StepsConcat(m, k);
      assert before + CallSteps(m.calls[..k + 1]) == before + CallSteps(m.calls[..k]) + [CallStep(m.calls[k])];
      LastStep(before + CallSteps(m.calls[..k]), CallStep(m.calls[k]));
      alias := BindCall(alias, cache, m.calls[k].id);
      if m.calls[k].id != NO_ID {
        allCalls := allCalls + {m.calls[k].id};
      }
    }
    assert m.calls[..|m.calls|] == m.calls;
    LastStep(before + CallSteps(m.calls), ResultStep(m.callId));
    assert before + StepsOf(m) ==
           if m.role == Tool then before + CallSteps(m.calls) + [ResultStep(m.callId)] else before + CallSteps(m.calls);
  }

  method RegisterChat(messages: seq<Message>, cache: Cache) returns (alias: map<Id, Id>, allCalls: set<Id>)
    ensures alias == StepAlias(Steps(messages), cache) && allCalls == StepCalls(Steps(messages))
  {
    hide StepsOf, StepAlias, StepCalls;
    alias, allCalls := map[], {};
    NoSteps(cache);
    for i := 0 to |messages|
      invariant alias == StepAlias(Steps(messages[..i]), cache) && allCalls == StepCalls(Steps(messages[..i]))
    {
      assert messages[..i + 1][..i] == messages[..i];
      alias, allCalls := RegisterMessage(messages[i], alias, allCalls, cache, Steps(messages[..i]));
    }
    assert messages[..|messages|] == messages;
  }

  lemma NoSteps(cache: Cache)
    ensures StepAlias([], cache) == map[] && StepCalls([]) == {}
  {
  }

  lemma {:induction false} PairFailsIn(steps: seq<Step>, n: nat, alias: map<Id, Id>, calls: set<Id>, cache: Cache)
    requires n <= |steps| && PairSteps(steps[..n], alias, calls, cache).Err?
    ensures PairSteps(steps, alias, calls, cache) == PairSteps(steps[..n], alias, calls, cache)
    decreases |steps|
  {
    hide PairStep;
    if n == |steps| {
      assert steps[..n] == steps;
    } else {
      assert steps[..|steps| - 1][..n] == steps[..n];
      PairFailsIn(steps[..|steps| - 1], n, alias, calls, cache);
    }
  }

  lemma {:induction false} StepsPrefix(messages: seq<Message>, i: nat)
    requires i <= |messages|
    ensures Steps(messages[..i]) <= Steps(messages)
    decreases |messages|
  {
    hide StepsOf;
    if i == |messages| {
      assert messages[..i] == messages;
    } else {
      assert messages[..|messages| - 1][..i] == messages[..i];
      StepsPrefix(messages[..|messages| - 1], i);
    }
  }

  /** Walks the calls of one message and then its result. */
  method ValidateMessage(m: Message, seen0: Seen, alias: map<Id, Id>, allCalls: set<Id>, cache: Cache, ghost before: seq<Step>)
    returns (result: Result<Seen, ValidationError>)
    requires PairSteps(before, alias, allCalls, cache) == Ok(seen0)
    ensures result == PairSteps(before + StepsOf(m), alias, allCalls, cache)
  {
    hide PairStep, CallSteps;
    var seen := seen0;
    ghost var all := before + StepsOf(m);
    assert before + CallSteps(m.calls[..0]) == before;
    for k := 0 to |m.calls|
      invariant PairSteps(before + CallSteps(m.calls[..k]), alias, allCalls, cache) == Ok(seen)
    {
      StepsConcat(m, k);
      ghost var upTo := before + CallSteps(m.calls[..k]);
      LastStep(upTo, CallStep(m.calls[k]));
      assert before + CallSteps(m.calls[..k + 1]) == upTo + [CallStep(m.calls[k])];
      var next := PairStep(seen, CallStep(m.calls[k]), alias, allCalls, cache);
      if next.Err? {
        CallStepsPrefix(m.calls, k + 1);
        assert all[..|upTo| + 1] == upTo + [CallStep(m.calls[k])];
        PairFailsIn(all, |upTo| + 1, alias, allCalls, cache);
        return Err(next.error);
      }
      seen := next.value;
    }
    assert m.calls[..|m.calls|] == m.calls;
    ghost var upTo := before + CallSteps(m.calls);
    if m.role != Tool {
      assert all == upTo;
      return Ok(seen);
    }
    assert all == upTo + [ResultStep(m.callId)];
    LastStep(upTo, ResultStep(m.callId));
    result := PairStep(seen, ResultStep(m.callId), alias, allCalls, cache);
  }

  method ValidateChatExchange(messages: seq<Message>, cache: Cache) returns (result: Result<Seen, ValidationError>)
    ensures result == ValidateChat(messages, cache)
  {
    hide StepsOf, StepAlias, StepCalls, PairSteps;
    var alias, allCalls := RegisterChat(messages, cache);
    var seen := Seen({}, {});
    NoPairs(alias, allCalls, cache);
    for i := 0 to |messages|
      invariant PairSteps(Steps(messages[..i]), alias, allCalls, cache) == Ok(seen)
    {
      assert messages[..i + 1][..i] == messages[..i];
      var next := ValidateMessage(messages[i], seen, alias, allCalls, cache, Steps(messages[..i]));
      if next.Err? {
        ghost var upTo := Steps(messages[..i + 1]);
        StepsPrefix(messages, i + 1);
        assert Steps(messages)[..|upTo|] == upTo;
        PairFailsIn(Steps(messages), |upTo|, alias, allCalls, cache);
        return next;
      }
      seen := next.value;
    }
    assert messages[..|messages|] == messages;
    return Ok(seen);
  }

  lemma NoPairs(alias: map<Id, Id>, calls: set<Id>, cache: Cache)
    ensures PairSteps([], alias, calls, cache) == Ok(Seen({}, {}))
  {
  }

  lemma CallStepsPrefix(calls: seq<ToolCall>, k: nat)
    requires k <= |calls|
    ensures CallSteps(calls[..k]) <= CallSteps(calls)
  {
  }

  method LearnTables(messages: seq<Message>, cache: Cache) returns (t: ChatTables)
    ensures t == LearnAll(Steps(messages), cache)
  {
    hide LearnCall, LearnResult, CallSteps;
    t := ChatTables(map[], map[], {});
    for i := 0 to |messages|
      invariant t == LearnAll(Steps(messages[..i]), cache)
    {
      assert messages[..i + 1][..i] == messages[..i];
      var m := messages[i];
      ghost var before := Steps(messages[..i]);
      assert before + CallSteps(m.calls[..0]) == before;
      for k := 0 to |m.calls|
        invariant t == LearnAll(before + CallSteps(m.calls[..k]), cache)
      {
        StepsConcat(m, k);
        assert before + CallSteps(m.calls[..k + 1]) == before + CallSteps(m.calls[..k]) + [CallStep(m.calls[k])];
        LastStep(before + CallSteps(m.calls[..k]), CallStep(m.calls[k]));
        t := LearnCall(t, cache, m.calls[k]);
      }
      assert m.calls[..|m.calls|] == m.calls;
      if m.role == Tool {
        assert Steps(messages[..i + 1]) == before + CallSteps(m.calls) + [ResultStep(m.callId)];
        LastStep(before + CallSteps(m.calls), ResultStep(m.callId));
        t := LearnResult(t, cache, m.callId);
      } else {
        assert Steps(messages[..i + 1]) == before + CallSteps(m.calls);
      }
    }
    assert messages[..|messages|] == messages;
  }

  /** Looks for a signed call in the same message that the cache knows as this call's sibling. */
  method FindSiblingLead(calls: seq<ToolCall>, call: ToolCall, cache: Cache) returns (hasNativeOther: bool, lead: Option<string>)
    ensures (hasNativeOther, lead) == SiblingScan(calls, call, cache)
  {
    hide IsVerifiedSibling, GetTool;
    hasNativeOther, lead := false, None;
    var k := 0;
    assert calls[0..] == calls;
    while k < |calls|
      invariant k <= |calls| && lead.None?
      invariant SiblingScan(calls, call, cache) ==
                (hasNativeOther || SiblingScan(calls[k..], call, cache).0, SiblingScan(calls[k..], call, cache).1)
    {
      assert calls[k..][1..] == calls[k + 1..];
      var other := calls[k];
      if other.id != NO_ID && other.id != call.id {
        var otherSig := OtherSig(other, cache);
        if otherSig != "" {
          hasNativeOther := true;
          if IsVerifiedSibling(cache, other.id, call.id) {
            lead := Some(if CachedSig(cache, other.id) != "" then CachedSig(cache, other.id) else otherSig);
            return;
          }
        }
      }
      k := k + 1;
    }
  }

  method EmitOneCall(m: Message, call: ToolCall, answered: set<Id>, cache: Cache) returns (r: Result<Part, PolicyError>)
    ensures r == EmitChatCall(m, call, answered, cache)
  {
    hide ChatOwnEvidence, SiblingScan, ResolveToolSignature;
    var ev := ChatOwnEvidence(m, call, answered, cache);
    if !ev.cacheMismatch && ev.carrierSig == "" && ev.cacheSig == "" && |m.calls| > 1 {
      var hasNativeOther, lead := FindSiblingLead(m.calls, call, cache);
      if lead.Some? {
        ev := ev.(recordedSibling := true, siblingLeadSig := lead.value);
      } else {
        ev := ev.(nativeTurnUnverified := hasNativeOther && !ev.affirmativelyForeign);
      }
    }
    var sig := ResolveToolSignature(ev);
    if sig.Err? {
      return Err(sig.error);
    }
    return Ok(CallPart(call.name, call.args, ChatOutboundId(call, cache), sig.value));
  }

  lemma {:induction false} CallsFail(m: Message, k: nat, n: nat, answered: set<Id>, cache: Cache)
    requires k <= n <= |m.calls| && EmitCalls(m, k, answered, cache).Err?
    ensures EmitCalls(m, n, answered, cache) == EmitCalls(m, k, answered, cache)
  {
    hide EmitChatCall;
    if k < n {
      CallsFail(m, k, n - 1, answered, cache);
    }
  }

  method EmitAssistantCalls(m: Message, answered: set<Id>, cache: Cache) returns (r: Result<seq<Part>, PolicyError>)
    ensures r == EmitCalls(m, |m.calls|, answered, cache)
  {
    hide EmitChatCall;
    var parts: seq<Part> := [];
    for k := 0 to |m.calls|
      invariant EmitCalls(m, k, answered, cache) == Ok(parts)
    {
      if m.calls[k].name != "" {
        var p := EmitOneCall(m, m.calls[k], answered, cache);
        if p.Err? {
          CallsFail(m, k + 1, |m.calls|, answered, cache);
          return Err(p.error);
        }
        parts := parts + [p.value];
      }
    }
    return Ok(parts);
  }

  lemma {:induction false} MessagesFail(t: ChatTables, cache: Cache, messages: seq<Message>, k: nat, n: nat, hash: seq<Message> -> string)
    requires k <= n <= |messages| && EmitMessages(t, cache, messages, k, hash).Err?
    ensures EmitMessages(t, cache, messages, n, hash) == EmitMessages(t, cache, messages, k, hash)
  {
    hide EmitMessage;
    if k < n {
      MessagesFail(t, cache, messages, k, n - 1, hash);
    }
  }

  method ConvertChatMessages(messages: seq<Message>, cache: Cache, hash: seq<Message> -> string) returns (r: Result<seq<Content>, ConvertError>)
    ensures r == ConvertChat(messages, cache, hash)
  {
    hide ValidateChat, LearnAll, Steps, EmitCalls, Normalized, ChatTextSig, EmitToolResult;
    var valid := ValidateChatExchange(messages, cache);
    if valid.Err? {
      return Err(Invalid(valid.error));
    }
    var t := LearnTables(messages, cache);
    var rawContents: seq<Content> := [];
    for i := 0 to |messages|
      invariant EmitMessages(t, cache, messages, i, hash) == Ok(rawContents)
    {
      var m := messages[i];
      assert rawContents + [] == rawContents;
      match m.role
      case System =>
      case Assistant =>
        var parts := if m.text == "" then [] else [TextPart(m.text, ChatTextSig(m, cache, hash(messages[..i])))];
        var called := EmitAssistantCalls(m, t.answered, cache);
        if called.Err? {
          MessagesFail(t, cache, messages, i + 1, |messages|, hash);
          return Err(Rejected(called.error));
        }
        parts := parts + called.value;
        if |parts| > 0 {
          rawContents := rawContents + [Content("model", parts)];
        }
      case Tool => rawContents := rawContents + [Content("user", [EmitToolResult(t, cache, m)])];
      case User =>
        if m.text != "" {
          rawContents := rawContents + [Content("user", [TextPart(m.text, "")])];
        }
    }
    var contents := NormalizeAlternatingContents(rawContents);
    return if |contents| == 0 then Err(NoContents) else Ok(contents);
  }
}
