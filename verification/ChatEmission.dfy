/** What the chat converter sends, message by message: texts, calls with their signatures, responses. */
module ChatEmission {
  import opened Core
  import opened Caches
  import opened Provenance
  import opened Normalize
  import opened Translate
  import opened Chats
  import opened ChatLaws
  import opened Outlines

  // ----- one call, whatever is known of it

  predicate DiffersFrom(rec: ToolRecord, call: ToolCall) {
    if rec.legacy then
      || (rec.name != "" && rec.name != call.name)
      || (rec.args != NilArgs && !EqualToolArgs(rec.args, call.args))
    else rec.name != call.name || !EqualToolArgs(rec.args, call.args)
  }

  /** The cached record of the call; an old one about other content does not count. */
  function CountedRecord(cache: Cache, call: ToolCall): Option<ToolRecord> {
    var rec := GetTool(cache, call.id);
    if rec.Some? && DiffersFrom(rec.value, call) then None else rec
  }

  function CachedSigOf(cache: Cache, call: ToolCall): string {
    match CountedRecord(cache, call) case None => "" case Some(rec) => rec.sig
  }

  predicate Consistent(m: Message, call: ToolCall, cache: Cache) {
    var rec := GetTool(cache, call.id);
    && (rec.Some? && DiffersFrom(rec.value, call) ==> rec.value.legacy && call.sig != "")
    && (CachedSigOf(cache, call) == "" || ClaimedSig(m, call, cache) == "" || CachedSigOf(cache, call) == ClaimedSig(m, call, cache))
  }

  predicate KnownCall(m: Message, call: ToolCall, cache: Cache) {
    ClaimedSig(m, call, cache) != "" || CountedRecord(cache, call).Some?
  }

  /** Another call of the message that is signed, by itself or in the cache. */
  predicate SignedOther(other: ToolCall, call: ToolCall, cache: Cache) {
    other.id != NO_ID && other.id != call.id && OtherSig(other, cache) != ""
  }

  predicate Lends(other: ToolCall, call: ToolCall, cache: Cache) {
    SignedOther(other, call, cache) && IsVerifiedSibling(cache, other.id, call.id)
  }

  /** What the call at `k` lends: its cached signature, or else its own. */
  function LendableSig(other: ToolCall, cache: Cache): string {
    if CachedSig(cache, other.id) != "" then CachedSig(cache, other.id) else other.sig
  }

  /** The first other call of the message that is signed and a verified sibling lends its signature. */
  lemma {:induction false} SiblingScanIs(others: seq<ToolCall>, call: ToolCall, cache: Cache)
    ensures var scan := SiblingScan(others, call, cache);
            && (scan.0 <==> exists k :: 0 <= k < |others| && SignedOther(others[k], call, cache))
            && (scan.1.Some? <==> exists k :: 0 <= k < |others| && Lends(others[k], call, cache))
            && (forall k :: 0 <= k < |others| && Lends(others[k], call, cache) && (forall j :: 0 <= j < k ==> !Lends(others[j], call, cache)) ==>
                  scan.1 == Some(LendableSig(others[k], cache)) && LendableSig(others[k], cache) != "")
  {
    hide IsVerifiedSibling, GetTool, SignedOther, Lends, LendableSig, SiblingScan;
    ScanStep(others, call, cache);
    if others != [] {
      SiblingScanIs(others[1..], call, cache);
      assert forall k :: 1 <= k < |others| ==> others[k] == others[1..][k - 1];
      assert forall k :: 0 <= k < |others| - 1 ==> others[1..][k] == others[k + 1];
    }
  }

  /** The scan in terms of its first call. */
  lemma ScanStep(others: seq<ToolCall>, call: ToolCall, cache: Cache)
    ensures others == [] ==> SiblingScan(others, call, cache) == (false, None)
    ensures others != [] ==>
              var head, rest := others[0], SiblingScan(others[1..], call, cache);
              SiblingScan(others, call, cache) ==
              if Lends(head, call, cache) then (true, Some(LendableSig(head, cache)))
              else if SignedOther(head, call, cache) then (true, rest.1)
              else rest
    ensures others != [] && Lends(others[0], call, cache) ==> LendableSig(others[0], cache) != "" && SignedOther(others[0], call, cache)
  {
    hide IsVerifiedSibling, GetTool;
  }

  predicate AnyLends(m: Message, call: ToolCall, cache: Cache) {
    exists k :: 0 <= k < |m.calls| && Lends(m.calls[k], call, cache)
  }

  /** The signature of a known call: the cache's, else the claimed one, else the one it is lent. */
  function KnownSig(m: Message, call: ToolCall, cache: Cache): string {
    if CachedSigOf(cache, call) != "" then CachedSigOf(cache, call)
    else if ClaimedSig(m, call, cache) != "" then ClaimedSig(m, call, cache)
    else match SiblingScan(m.calls, call, cache).1 case None => "" case Some(sig) => if |m.calls| > 1 then sig else ""
  }

  /** An unknown call may not stand beside a signed one, unless it is its sibling or foreign. */
  predicate Unsuspected(m: Message, call: ToolCall, cache: Cache) {
    || m.foreign || call.foreign || AnyLends(m, call, cache)
    || forall k :: 0 <= k < |m.calls| ==> !SignedOther(m.calls[k], call, cache)
  }

  lemma OwnEvidenceIs(m: Message, call: ToolCall, answered: set<Id>, cache: Cache)
    ensures var ev := ChatOwnEvidence(m, call, answered, cache);
            && !ev.nativeTurnUnverified && !ev.recordedSibling && ev.hasMatchingOutput == (call.id in answered)
            && ev.affirmativelyForeign == (m.foreign || call.foreign) && !ev.carrierMismatch
            && (Consistent(m, call, cache) ==>
                  && !ev.cacheMismatch && !Contradictory(ev) && ev.cacheSig == CachedSigOf(cache, call)
                  && ev.carrierSig == ClaimedSig(m, call, cache) && ev.hasCache == CountedRecord(cache, call).Some?
                  && ev.hasCarrier == (ClaimedSig(m, call, cache) != ""))
            && (!Consistent(m, call, cache) ==> ev.cacheMismatch || Contradictory(ev))
  {
    hide GetTool, EqualToolArgs, DetailsSig;
  }

  /** With a single call in the message there is no other call to be signed. */
  lemma OnlyCall(m: Message, call: ToolCall, cache: Cache)
    requires |m.calls| <= 1 && call in m.calls
    ensures !AnyLends(m, call, cache) && forall k :: 0 <= k < |m.calls| ==> !SignedOther(m.calls[k], call, cache)
  {
  }

  lemma WithSiblings(m: Message, call: ToolCall, answered: set<Id>, cache: Cache)
    requires call in m.calls
    ensures var full := ChatEvidence(m, call, answered, cache);
            && full.hasMatchingOutput == (call.id in answered)
            && (!Consistent(m, call, cache) ==> Untrusted(full))
            && (Consistent(m, call, cache) ==> Claimed(full) == KnownCall(m, call, cache))
            && (Consistent(m, call, cache) && KnownCall(m, call, cache) ==> !Untrusted(full) && NativeSig(full) == KnownSig(m, call, cache))
            && (Consistent(m, call, cache) && !KnownCall(m, call, cache) ==> Untrusted(full) == !Unsuspected(m, call, cache))
  {
    hide ChatOwnEvidence, SiblingScan, Consistent, CountedRecord, ClaimedSig, SignedOther, Lends;
    OwnEvidenceIs(m, call, answered, cache);
    SiblingScanIs(m.calls, call, cache);
    if |m.calls| <= 1 {
      OnlyCall(m, call, cache);
    }
  }

  predicate Sendable(m: Message, call: ToolCall, answered: set<Id>, cache: Cache) {
    && call.id in answered && Consistent(m, call, cache)
    && if KnownCall(m, call, cache) then KnownSig(m, call, cache) != "" else Unsuspected(m, call, cache)
  }

  function SentCall(m: Message, call: ToolCall, cache: Cache): Part {
    CallPart(call.name, call.args, if CachedUpstream(cache, call.id) != NO_ID then CachedUpstream(cache, call.id) else call.id,
             if KnownCall(m, call, cache) then KnownSig(m, call, cache) else MIGRATION_MARKER)
  }

  /**
   * A chat call is sent exactly when it is answered, nothing known of it contradicts it, and either
   * some signature is known for it or it is unknown and unsuspected; with the first known signature,
   * or with the replay marker if nothing at all is known of it.
   */
  lemma EmittedChatCallIs(m: Message, call: ToolCall, answered: set<Id>, cache: Cache)
    requires call in m.calls
    ensures var sent := EmitChatCall(m, call, answered, cache);
            && (sent.Ok? <==> Sendable(m, call, answered, cache))
            && (sent.Ok? ==> sent.value == SentCall(m, call, cache))
  {
    hide ChatEvidence, ResolveToolSignature, Consistent, KnownCall, KnownSig, Unsuspected, Untrusted, Claimed, NativeSig, GetTool;
    WithSiblings(m, call, answered, cache);
  }

  /**
   * A call that the cache does not know keeps the signature the client claims and its own id; only
   * if the client claims none it is sent with the replay marker, or rejected as a suspect.
   */
  lemma UnknownChatCallIs(m: Message, call: ToolCall, answered: set<Id>, cache: Cache)
    requires call in m.calls && GetTool(cache, call.id).None?
    ensures var sent, claimed := EmitChatCall(m, call, answered, cache), ClaimedSig(m, call, cache);
            && (sent.Ok? <==> call.id in answered && (claimed != "" || Unsuspected(m, call, cache)))
            && (sent.Ok? ==> sent.value == CallPart(call.name, call.args, call.id, if claimed != "" then claimed else MIGRATION_MARKER))
  {
    hide EmitChatCall, GetTool, Unsuspected, DetailsSig, SiblingScan;
    EmittedChatCallIs(m, call, answered, cache);
  }

  // ----- texts and responses

  /** What one reasoning detail offers: the signature cached under its id, else its data, else its signature. */
  function Offered(d: Detail, cache: Cache): string {
    if d.id != NO_ID && GetMessage(cache, d.id) != "" then GetMessage(cache, d.id) else if d.data != "" then d.data else d.signature
  }

  /** The details sign with what the first of them offers that offers anything. */
  lemma {:induction false} DetailsSignatureIs(details: seq<Detail>, cache: Cache)
    ensures var sig := DetailsSig(details, cache);
            && (sig == "" <==> forall k :: 0 <= k < |details| ==> Offered(details[k], cache) == "")
            && (sig != "" ==> exists k :: 0 <= k < |details| && Offered(details[k], cache) == sig && FirstToOffer(details, cache, k))
  {
    hide GetMessage;
    if details != [] {
      DetailsSignatureIs(details[1..], cache);
      assert forall k :: 1 <= k < |details| ==> details[k] == details[1..][k - 1];
      if Offered(details[0], cache) == "" && DetailsSig(details, cache) != "" {
        var k :| 0 <= k < |details[1..]| && Offered(details[1..][k], cache) == DetailsSig(details, cache) && FirstToOffer(details[1..], cache, k);
        assert details[k + 1] == details[1..][k];
        assert forall j :: 1 <= j < k + 1 ==> details[j] == details[1..][j - 1];
        assert FirstToOffer(details, cache, k + 1);
      } else if DetailsSig(details, cache) != "" {
        assert FirstToOffer(details, cache, 0);
      }
    }
  }

  predicate FirstToOffer(details: seq<Detail>, cache: Cache, k: nat) {
    k < |details| && forall j :: 0 <= j < k ==> Offered(details[j], cache) == ""
  }

  /** A text goes out signed by itself, else by its message's details, else under its message id, else by prefix and text. */
  lemma TextSignatureIs(m: Message, cache: Cache, prefixHash: string)
    ensures ChatTextSig(m, cache, prefixHash) ==
            FirstOf([m.sig, DetailsSig(m.details, cache), GetMessage(cache, m.id), GetContext(cache, ResponsesContextKey(prefixHash, m.text))], "")
  {
    hide DetailsSig, GetContext, ResponsesContextKey;
    FourEntries(m.sig, DetailsSig(m.details, cache), GetMessage(cache, m.id), GetContext(cache, ResponsesContextKey(prefixHash, m.text)), "");
  }

  /** A response is named by the client, else by the cache, else by the call of the history; its id is the cached upstream id, else its own. */
  lemma ToolResponseIs(t: ChatTables, cache: Cache, m: Message)
    ensures var name := FirstOf([m.name, CachedName(cache, m.callId), if m.callId in t.names then t.names[m.callId] else ""], "");
            var up := CachedUpstream(cache, m.callId);
            EmitToolResult(t, cache, m) ==
            Part("", false, "", None,
                 Some(FunctionResponse(if name == "" then Unnamed(m.callId) else Called(name), m.text, if up == NO_ID then m.callId else up)))
  {
    hide GetTool;
    ThreeEntries(m.name, CachedName(cache, m.callId), if m.callId in t.names then t.names[m.callId] else "", "");
  }

  // ----- the whole conversion, message by message

  function CallParts(m: Message, calls: seq<ToolCall>, cache: Cache): seq<(string, Part)> {
    if calls == [] then []
    else
      var last := calls[|calls| - 1];
      CallParts(m, calls[..|calls| - 1], cache) + if last.name == "" then [] else [("model", SentCall(m, last, cache))]
  }

  /** The text of a user goes as the user's, that of the assistant, before its calls, as the model's. */
  function MessageParts(t: ChatTables, cache: Cache, messages: seq<Message>, i: nat, hash: seq<Message> -> string): seq<(string, Part)>
    requires i < |messages|
  {
    var m := messages[i];
    match m.role
    case System => []
    case Tool => [("user", EmitToolResult(t, cache, m))]
    case User => if m.text == "" then [] else [("user", TextPart(m.text, ""))]
    case Assistant =>
      (if m.text == "" then [] else [("model", TextPart(m.text, ChatTextSig(m, cache, hash(messages[..i]))))]) + CallParts(m, m.calls, cache)
  }

  function PartsTo(t: ChatTables, cache: Cache, messages: seq<Message>, n: nat, hash: seq<Message> -> string): seq<(string, Part)>
    requires n <= |messages|
  {
    if n == 0 then [] else PartsTo(t, cache, messages, n - 1, hash) + MessageParts(t, cache, messages, n - 1, hash)
  }

  predicate AllSendable(t: ChatTables, cache: Cache, m: Message) {
    m.role == Assistant ==> forall k :: 0 <= k < |m.calls| && m.calls[k].name != "" ==> Sendable(m, m.calls[k], t.answered, cache)
  }

  lemma {:induction false} CallsAre(m: Message, n: nat, answered: set<Id>, cache: Cache)
    requires n <= |m.calls|
    ensures var sent := EmitCalls(m, n, answered, cache);
            && (sent.Ok? <==> forall k :: 0 <= k < n && m.calls[k].name != "" ==> Sendable(m, m.calls[k], answered, cache))
            && (sent.Ok? ==> Tagged("model", sent.value) == CallParts(m, m.calls[..n], cache))
  {
    hide EmitChatCall, Sendable, SentCall;
    if n > 0 {
      CallsAre(m, n - 1, answered, cache);
      EmittedChatCallIs(m, m.calls[n - 1], answered, cache);
      assert m.calls[..n][..n - 1] == m.calls[..n - 1];
    }
  }

  lemma TaggedConcat(role: string, a: seq<Part>, b: seq<Part>)
    ensures Tagged(role, a + b) == Tagged(role, a) + Tagged(role, b)
  {
  }

  lemma OneMessageIs(t: ChatTables, cache: Cache, messages: seq<Message>, i: nat, hash: seq<Message> -> string)
    requires i < |messages|
    ensures var sent := EmitMessage(t, cache, messages, i, hash);
            && (sent.Ok? <==> AllSendable(t, cache, messages[i]))
            && (sent.Ok? ==> Flatten(sent.value) == MessageParts(t, cache, messages, i, hash))
  {
    hide EmitCalls, Flatten, Sendable, CallParts, ChatTextSig, EmitToolResult;
    var m := messages[i];
    NothingFlattens();
    CallsAre(m, |m.calls|, t.answered, cache);
    assert m.calls[..|m.calls|] == m.calls;
    forall c: Content
      ensures Flatten([c]) == Tagged(c.role, c.parts)
    {
      OneContent(c);
    }
    if m.role == Assistant && EmitCalls(m, |m.calls|, t.answered, cache).Ok? {
      var text := if m.text == "" then [] else [TextPart(m.text, ChatTextSig(m, cache, hash(messages[..i])))];
      TaggedConcat("model", text, EmitCalls(m, |m.calls|, t.answered, cache).value);
    }
  }

  lemma {:induction false} AllMessagesAre(t: ChatTables, cache: Cache, messages: seq<Message>, n: nat, hash: seq<Message> -> string)
    requires n <= |messages|
    ensures var sent := EmitMessages(t, cache, messages, n, hash);
            && (sent.Ok? <==> forall i :: 0 <= i < n ==> AllSendable(t, cache, messages[i]))
            && (sent.Ok? ==> Flatten(sent.value) == PartsTo(t, cache, messages, n, hash))
  {
    hide EmitMessage, Flatten, AllSendable, MessageParts;
    if n == 0 {
      NothingFlattens();
    } else {
      AllMessagesAre(t, cache, messages, n - 1, hash);
      OneMessageIs(t, cache, messages, n - 1, hash);
      var before, last := EmitMessages(t, cache, messages, n - 1, hash), EmitMessage(t, cache, messages, n - 1, hash);
      if before.Ok? && last.Ok? {
        FlattenConcat(before.value, last.value);
      }
    }
  }

  lemma {:induction false} CallsSubstantial(m: Message, calls: seq<ToolCall>, cache: Cache)
    ensures forall i :: 0 <= i < |CallParts(m, calls, cache)| ==> Substantial(CallParts(m, calls, cache)[i].1)
  {
    hide KnownCall, KnownSig, GetTool;
    if calls != [] {
      CallsSubstantial(m, calls[..|calls| - 1], cache);
    }
  }

  lemma {:induction false} PartsSubstantial(t: ChatTables, cache: Cache, messages: seq<Message>, n: nat, hash: seq<Message> -> string)
    requires n <= |messages|
    ensures forall i :: 0 <= i < |PartsTo(t, cache, messages, n, hash)| ==> Substantial(PartsTo(t, cache, messages, n, hash)[i].1)
  {
    hide CallParts, ChatTextSig, EmitToolResult, Substantial;
    if n > 0 {
      var m := messages[n - 1];
      PartsSubstantial(t, cache, messages, n - 1, hash);
      CallsSubstantial(m, m.calls, cache);
      ResponsePartIs(t, cache, m);
      TextIsSubstantial(m.text, "");
      TextIsSubstantial(m.text, ChatTextSig(m, cache, hash(messages[..n - 1])));
    }
  }

  /**
   * The conversion of a chat, exactly. It succeeds if and only if the chat is valid, every named
   * call of an assistant message can be sent, and anything is left to send; and then its contents
   * are, message by message, the texts in their roles, the named calls with their signatures, and
   * the responses.
   */
  lemma ChatConversionIs(messages: seq<Message>, cache: Cache, hash: seq<Message> -> string)
    ensures var t := LearnAll(Steps(messages), cache);
            var parts := PartsTo(t, cache, messages, |messages|, hash);
            var sent := ConvertChat(messages, cache, hash);
            && (sent.Ok? <==>
                  && ValidateChat(messages, cache).Ok? && parts != []
                  && forall i :: 0 <= i < |messages| ==> AllSendable(t, cache, messages[i]))
            && (sent.Ok? ==> Flatten(sent.value) == parts)
  {
    hide ValidateChat, LearnAll, Steps, EmitMessages, Flatten, Normalized, KeepSubstantial, PartsTo, AllSendable, Substantial, Alternating;
    var t := LearnAll(Steps(messages), cache);
    AllMessagesAre(t, cache, messages, |messages|, hash);
    PartsSubstantial(t, cache, messages, |messages|, hash);
    var raw := EmitMessages(t, cache, messages, |messages|, hash);
    if raw.Ok? {
      NormalizedKeeps(raw.value);
      KeepAll(Flatten(raw.value));
      EmptyFlatten(Normalized(raw.value));
    }
  }

  // ----- what it says

  function CallLines(calls: seq<ToolCall>): seq<Line> {
    if calls == [] then []
    else
      var last := calls[|calls| - 1];
      CallLines(calls[..|calls| - 1]) + if last.name == "" then [] else [CallLine("model", last.name, last.args)]
  }

  function MessageLines(m: Message): seq<Line> {
    match m.role
    case System => []
    case Tool => [ResultLine("user", m.text)]
    case User => if m.text == "" then [] else [TextLine("user", m.text)]
    case Assistant => (if m.text == "" then [] else [TextLine("model", m.text)]) + CallLines(m.calls)
  }

  function AllLines(messages: seq<Message>): seq<Line> {
    if messages == [] then [] else AllLines(messages[..|messages| - 1]) + MessageLines(messages[|messages| - 1])
  }

  lemma {:induction false} CallsSay(m: Message, calls: seq<ToolCall>, cache: Cache)
    ensures Lines(CallParts(m, calls, cache)) == CallLines(calls)
  {
    hide KnownCall, KnownSig, GetTool;
    if calls != [] {
      CallsSay(m, calls[..|calls| - 1], cache);
    }
  }

  lemma OneLine(role: string, p: Part)
    ensures Lines([(role, p)]) == [LineOf(role, p)] && Lines([]) == []
  {
  }

  lemma MessageSays(t: ChatTables, cache: Cache, messages: seq<Message>, i: nat, hash: seq<Message> -> string)
    requires i < |messages|
    ensures Lines(MessageParts(t, cache, messages, i, hash)) == MessageLines(messages[i])
  {
    hide CallParts, CallLines, ChatTextSig, ChatResponseName, CachedUpstream, Lines;
    var m := messages[i];
    CallsSay(m, m.calls, cache);
    OneLine("user", EmitToolResult(t, cache, m));
    OneLine("user", TextPart(m.text, ""));
    OneLine("model", TextPart(m.text, ChatTextSig(m, cache, hash(messages[..i]))));
    if m.role == Assistant && m.text != "" {
      LinesConcat([("model", TextPart(m.text, ChatTextSig(m, cache, hash(messages[..i]))))], CallParts(m, m.calls, cache));
    } else if m.role == Assistant {
      assert [] + CallParts(m, m.calls, cache) == CallParts(m, m.calls, cache) && [] + CallLines(m.calls) == CallLines(m.calls);
    }
  }

  lemma {:induction false} PartsSay(t: ChatTables, cache: Cache, messages: seq<Message>, n: nat, hash: seq<Message> -> string)
    requires n <= |messages|
    ensures Lines(PartsTo(t, cache, messages, n, hash)) == AllLines(messages[..n])
  {
    hide MessageParts, MessageLines, Lines;
    if n == 0 {
      assert Lines([]) == [] by { NothingSaid(); }
    } else {
      PartsSay(t, cache, messages, n - 1, hash);
      MessageSays(t, cache, messages, n - 1, hash);
      assert messages[..n][..n - 1] == messages[..n - 1];
      LinesConcat(PartsTo(t, cache, messages, n - 1, hash), MessageParts(t, cache, messages, n - 1, hash));
    }
  }

  lemma NothingSaid()
    ensures Lines([]) == []
  {
  }

  /** A converted chat says what its messages say, in their order, in the right roles, and nothing else. */
  lemma ChatConversionSays(messages: seq<Message>, cache: Cache, hash: seq<Message> -> string)
    requires ConvertChat(messages, cache, hash).Ok?
    ensures Lines(Flatten(ConvertChat(messages, cache, hash).value)) == AllLines(messages)
  {
    hide ConvertChat, Flatten, PartsTo, Lines, AllLines, AllSendable, ValidateChat;
    ChatConversionIs(messages, cache, hash);
    PartsSay(LearnAll(Steps(messages), cache), cache, messages, |messages|, hash);
    assert messages[..|messages|] == messages;
  }
}
