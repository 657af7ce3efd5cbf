/** Where a replayed tool call comes from, and which signature it may carry. */
module Provenance {
  import opened Core

  datatype Origin = Native | Mismatched | Foreign | Unknown

  datatype Evidence = Evidence(
    hasCarrier: bool,
    carrierSig: string,
    carrierMismatch: bool,
    hasCache: bool,
    cacheSig: string,
    cacheMismatch: bool,
    recordedSibling: bool,
    siblingLeadSig: string,
    hasMatchingOutput: bool,
    affirmativelyForeign: bool,
    nativeTurnUnverified: bool)

  datatype PolicyError = ContentMismatch | UnverifiedInNativeTurn | NoResult(origin: Origin) | NativeStateMissing

  predicate Contradictory(ev: Evidence) {
    ev.hasCarrier && ev.hasCache && ev.carrierSig != "" && ev.cacheSig != "" && ev.carrierSig != ev.cacheSig
  }

  /** The bridge itself knows the call. */
  predicate Claimed(ev: Evidence) {
    ev.hasCarrier || ev.hasCache
  }

  /** The call was altered, or it is an unknown one among calls of a native turn. */
  predicate Untrusted(ev: Evidence) {
    || ev.carrierMismatch || ev.cacheMismatch || Contradictory(ev)
    || (!Claimed(ev) && !ev.affirmativelyForeign && ev.nativeTurnUnverified)
  }

  function ClassifyToolCall(ev: Evidence): Origin {
    if ev.carrierMismatch || ev.cacheMismatch then Mismatched
    else if Contradictory(ev) then Mismatched
    else if ev.hasCarrier then Native
    else if ev.hasCache then Native
    else if ev.affirmativelyForeign then Foreign
    else if ev.nativeTurnUnverified then Mismatched
    else Unknown
  }

  /** The signature of a native call: the cache's, else the carrier's, else its verified lead's. */
  function NativeSig(ev: Evidence): string {
    var own := if ev.hasCache && ev.cacheSig != "" then ev.cacheSig else ev.carrierSig;
    if own == "" && ev.recordedSibling then ev.siblingLeadSig else own
  }

  function ResolveToolSignature(ev: Evidence): (r: Result<string, PolicyError>)
    ensures r.Ok? <==> ev.hasMatchingOutput && !Untrusted(ev) && (Claimed(ev) ==> NativeSig(ev) != "")
    ensures r.Ok? ==> r.value == if Claimed(ev) then NativeSig(ev) else MIGRATION_MARKER
    ensures Untrusted(ev) ==> r == Err(if ev.nativeTurnUnverified then UnverifiedInNativeTurn else ContentMismatch)
    ensures !Untrusted(ev) && !ev.hasMatchingOutput ==>
              r == Err(NoResult(if Claimed(ev) then Native else if ev.affirmativelyForeign then Foreign else Unknown))
    ensures !Untrusted(ev) && ev.hasMatchingOutput && Claimed(ev) && NativeSig(ev) == "" ==> r == Err(NativeStateMissing)
  {
    match ClassifyToolCall(ev)
    case Mismatched => Err(if ev.nativeTurnUnverified then UnverifiedInNativeTurn else ContentMismatch)
    case Native =>
      if !ev.hasMatchingOutput then Err(NoResult(Native))
      else if NativeSig(ev) != "" then Ok(NativeSig(ev))
      else Err(NativeStateMissing)
    case Foreign => if ev.hasMatchingOutput then Ok(MIGRATION_MARKER) else Err(NoResult(Foreign))
    case Unknown => if ev.hasMatchingOutput then Ok(MIGRATION_MARKER) else Err(NoResult(Unknown))
  }

  /**
   * The policy as a contract: a known call with altered content or contradictory signatures is
   * always rejected, and the replay marker goes only to calls about which nothing native is known.
   */
  lemma PolicyHolds(ev: Evidence)
    ensures ev.carrierMismatch || ev.cacheMismatch || Contradictory(ev) ==> ResolveToolSignature(ev).Err?
    ensures ResolveToolSignature(ev) == Ok(MIGRATION_MARKER)
            && ev.carrierSig != MIGRATION_MARKER && ev.cacheSig != MIGRATION_MARKER && ev.siblingLeadSig != MIGRATION_MARKER
            ==> !ev.hasCarrier && !ev.hasCache && (ev.affirmativelyForeign || !ev.nativeTurnUnverified)
    ensures ev.hasCache && ev.cacheSig != "" && ResolveToolSignature(ev).Ok? ==> ResolveToolSignature(ev).value == ev.cacheSig
  {
  }
}
