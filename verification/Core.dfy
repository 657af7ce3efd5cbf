// Values shared by every part of the bridge: identifiers, JSON, upstream parts.
module Core {

  datatype Option<+T> = None | Some(value: T)

  datatype Result<+T, +E> = Ok(value: T) | Err(error: E)

  /** A decoded JSON value. */
  datatype Json =
    | Null
    | Bool(b: bool)
    | Num(n: real)
    | Str(s: string)
    | Arr(elems: seq<Json>)
    | Obj(fields: map<string, Json>)

  /** Tool arguments: Go's `map[string]any`, whose nil value is not the empty object. */
  datatype Args = NilArgs | Fields(m: map<string, Json>)

  predicate NoArgs(a: Args) {
    a == NilArgs || a == Fields(map[])
  }

  /** Argument equality of the replay translator: nil and the empty object agree. */
  predicate EqualToolArgs(a: Args, b: Args) {
    (NoArgs(a) && NoArgs(b)) || a == b
  }

  /** What an `omitempty` field keeps of the arguments: the empty object comes back as nil. */
  function Persisted(a: Args): Args {
    if NoArgs(a) then NilArgs else a
  }

  /** The inputs hashed into the ids of a new tool call. */
  datatype MintKey = MintKey(turn: Id, base: Id, upstream: Id, position: nat)

  /**
   * Identifiers. Clients and the upstream service send arbitrary names; the bridge
   * mints the others. Minting is injective, and the minted families are disjoint.
   */
  datatype Id =
    | Name(s: string)
    | ReasoningId(draw: nat)         // "rs_" and a random draw
    | MsgId(base: Id, n: nat)        // "<base>_<n>", or a random draw without a base
    | CallId(key: MintKey)           // "call_" and one half of the hash
    | ItemId(key: MintKey)           // "fc_" and the other half of the hash
    | Joined(call: Id, item: Id)     // "<call>_<item>"

  const NO_ID: Id := Name("")

  datatype FunctionCall = FunctionCall(name: string, args: Args, id: Id)

  /** A result names its function, or, when no name is known, its call id. */
  datatype ResponseName = Called(name: string) | Unnamed(id: Id)

  datatype FunctionResponse = FunctionResponse(name: ResponseName, response: string, id: Id)

  /** One element of an upstream message. */
  datatype Part = Part(
    text: string,
    thought: bool,
    sig: string,
    call: Option<FunctionCall>,
    response: Option<FunctionResponse>)

  datatype Content = Content(role: string, parts: seq<Part>)

  /** Replay instruction used in place of a signature; never evidence of ownership. */
  const MIGRATION_MARKER := "skip_thought_signature_validator"

  // ----- "namespace__name" tool names

  /** The first position of "__" in a name. */
  function FindSeparator(name: string): (r: Option<nat>)
    ensures r.Some? ==> r.value + 2 <= |name| && name[r.value] == '_' && name[r.value + 1] == '_'
    ensures forall k :: 0 <= k < |name| - 1 && (r.None? || k < r.value) ==> !(name[k] == '_' && name[k + 1] == '_')
  {
    if |name| < 2 then None
    else if name[0] == '_' && name[1] == '_' then Some(0)
    else match FindSeparator(name[1..])
      case None =>
        assert forall k :: 1 <= k < |name| - 1 ==> name[k] == name[1..][k - 1] && name[k + 1] == name[1..][k];
        None
      case Some(i) =>
        assert forall k :: 1 <= k < |name| - 1 ==> name[k] == name[1..][k - 1] && name[k + 1] == name[1..][k];
        Some(i + 1)
  }

  /** Namespace and bare name as they go to the client. */
  function SplitWireName(name: string): (string, string) {
    match FindSeparator(name)
    case None => ("", name)
    case Some(i) => (name[..i], name[i + 2..])
  }

  /** The name the translator rebuilds from what the client sends back. */
  function JoinWireName(namespace: string, name: string): string {
    if namespace == "" then name else namespace + "__" + name
  }

  /** The first "__" of a name is at position `n`, or there is none and `n` is its length. */
  predicate FirstSeparator(name: string, n: nat) {
    && n <= |name|
    && (n < |name| ==> n + 2 <= |name| && name[n] == '_' && name[n + 1] == '_')
    && forall k :: 0 <= k < |name| - 1 && k < n ==> !(name[k] == '_' && name[k + 1] == '_')
  }

  /** A name is cut at its first "__" and nowhere else; without one it is all bare. */
  lemma SplitNameIs(name: string, namespace: string, bare: string)
    ensures SplitWireName(name) == (namespace, bare) <==>
            || (FirstSeparator(name, |name|) && namespace == "" && bare == name)
            || (FirstSeparator(name, |namespace|) && name == namespace + "__" + bare)
  {
    hide FindSeparator;
    match FindSeparator(name)
    case None =>
    case Some(i) =>
      assert name == name[..i] + name[i..i + 2] + name[i + 2..] && name[i..i + 2] == "__";
      if FirstSeparator(name, |namespace|) && name == namespace + "__" + bare {
        assert |namespace| == i;
        assert namespace == name[..i] && bare == name[i + 2..];
      }
  }

  predicate StartsWithSeparator(name: string) {
    |name| >= 2 && name[0] == '_' && name[1] == '_'
  }

  /** A tool name survives the trip to the client and back exactly when it does not begin with "__". */
  lemma WireNameRoundTrip(name: string)
    ensures JoinWireName(SplitWireName(name).0, SplitWireName(name).1) == name <==> !StartsWithSeparator(name)
  {
    match FindSeparator(name)
    case None =>
    case Some(i) =>
      assert name == name[..i] + name[i..i + 2] + name[i + 2..];
      assert name[i..i + 2] == "__";
      if i == 0 {
        assert |SplitWireName(name).1| < |name|;
      }
  }
}
