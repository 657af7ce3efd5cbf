/**
 * What a finished turn says about the parts it was built from, stated without the machine:
 * nothing is lost, repeated calls merge, texts group, and the signature tables are exact.
 */
module TurnLaws {
  import opened Core
  import opened Turns

  predicate IsText(p: Part) {
    !p.thought && p.call.None? && p.text != ""
  }

  /** A signature without text, thought or call. */
  predicate IsTail(p: Part) {
    !p.thought && p.call.None? && p.text == "" && p.sig != ""
  }

  // ----- conservation of text

  function VisibleText(ps: seq<Part>): string {
    if ps == [] then "" else VisibleText(ps[..|ps| - 1]) + if IsText(ps[|ps| - 1]) then ps[|ps| - 1].text else ""
  }

  function ThoughtText(ps: seq<Part>): string {
    if ps == [] then "" else ThoughtText(ps[..|ps| - 1]) + if ps[|ps| - 1].thought then ps[|ps| - 1].text else ""
  }

  function TextOf(parts: seq<Record>): string {
    if parts == [] then "" else TextOf(parts[..|parts| - 1]) + if parts[|parts| - 1].TextRec? then parts[|parts| - 1].text else ""
  }

  lemma {:induction false} TextOfSame(parts: seq<Record>, i: nat, r: Record)
    requires i < |parts| && r.TextRec? == parts[i].TextRec?
    requires r.TextRec? ==> r.text == parts[i].text
    ensures TextOf(parts[i := r]) == TextOf(parts)
  {
    var n := |parts| - 1;
    if i == n {
      assert parts[i := r][..n] == parts[..n];
    } else {
      TextOfSame(parts[..n], i, r);
      assert parts[i := r][..n] == parts[..n][i := r];
    }
  }

  lemma TextOfSnoc(parts: seq<Record>, r: Record)
    ensures TextOf(parts + [r]) == TextOf(parts) + if r.TextRec? then r.text else ""
  {
    assert (parts + [r])[..|parts|] == parts;
  }

  lemma TextOfGrown(parts: seq<Record>, text: string)
    requires parts != [] && parts[|parts| - 1].TextRec?
    ensures TextOf(parts[|parts| - 1 := Grown(parts[|parts| - 1], text)]) == TextOf(parts) + text
  {
    var n := |parts| - 1;
    assert parts[n := Grown(parts[n], text)][..n] == parts[..n];
  }

  lemma StepConserves(d: Draft, p: Part)
    ensures TextOf(Step(d, p).parts) == TextOf(d.parts) + if IsText(p) then p.text else ""
    ensures Step(d, p).thought == d.thought + if p.thought then p.text else ""
  {
    hide TextOf;
    assert forall s: string :: s + "" == s;
    if p.thought {
    } else if p.call.Some? {
      var fc := p.call.value;
      match FindUpstream(d.parts, fc.id)
      case Some(i) => TextOfSame(d.parts, i, MergeCall(d.parts[i], fc, p.sig));
      case None => TextOfSnoc(d.parts, NewCall(d, fc, p.sig));
    } else if p.text != "" {
      TextOfSnoc(d.parts, NewText(d, p.text, p.sig));
      if Extends(d, p) {
        TextOfGrown(d.parts, p.text);
      }
    } else if LastText(d.parts).Some? {
      var i := LastText(d.parts).value;
      TextOfSame(d.parts, i, Signed(d.parts[i], p.sig));
    }
  }

  /** No visible or thought text is lost, duplicated or reordered. */
  lemma {:induction false} TextIsConserved(ctx: Ctx, ps: seq<Part>)
    ensures TextOf(Built(ctx, ps).parts) == VisibleText(ps)
    ensures Built(ctx, ps).thoughtSummary == ThoughtText(ps)
    ensures TextOf(Run(ctx, ps).parts) == VisibleText(ps) && Run(ctx, ps).thought == ThoughtText(ps)
  {
    if ps != [] {
      TextIsConserved(ctx, ps[..|ps| - 1]);
      StepConserves(Run(ctx, ps[..|ps| - 1]), ps[|ps| - 1]);
    }
    FinalText(Run(ctx, ps));
  }

  lemma FinalText(d: Draft)
    ensures TextOf(Final(d).parts) == TextOf(d.parts) && Final(d).thought == d.thought
  {
    if d.parts == [] && d.thoughtAt.None? {
      assert Final(d).parts[..0] == [];
    }
  }

  // ----- grouping of text fragments

  /** The signature that the text fragment still open at the end of `ps` carries. */
  function OpenSig(ps: seq<Part>): Option<string> {
    if ps == [] then None
    else
      var before, p := OpenSig(ps[..|ps| - 1]), ps[|ps| - 1];
      if p.thought || p.call.Some? then None
      else if IsText(p) then Some(p.sig)
      else if IsTail(p) && before.Some? then Some(p.sig)
      else before
  }

  /**
   * The texts a turn should hold, with their signatures: a fragment joins the previous one when
   * no thought or call lies between them and their signatures agree; a lone signature signs the
   * latest text, wherever that is.
   */
  function Groups(ps: seq<Part>): seq<(string, string)> {
    if ps == [] then []
    else
      var before, p := Groups(ps[..|ps| - 1]), ps[|ps| - 1];
      var n := |before| - 1;
      if IsText(p) then
        if before != [] && OpenSig(ps[..|ps| - 1]) == Some(p.sig) then before[n := (before[n].0 + p.text, p.sig)]
        else before + [(p.text, p.sig)]
      else if IsTail(p) && before != [] then before[n := (before[n].0, p.sig)]
      else before
  }

  function Texts(parts: seq<Record>): seq<(string, string)> {
    if parts == [] then []
    else
      var last := parts[|parts| - 1];
      Texts(parts[..|parts| - 1]) + if last.TextRec? then [(last.text, last.sig)] else []
  }

  lemma TextsSnoc(parts: seq<Record>, r: Record)
    ensures Texts(parts + [r]) == Texts(parts) + if r.TextRec? then [(r.text, r.sig)] else []
  {
    assert (parts + [r])[..|parts|] == parts;
  }

  lemma {:induction false} TextsCallUpdate(parts: seq<Record>, i: nat, r: Record)
    requires i < |parts| && r.CallRec? && parts[i].CallRec?
    ensures Texts(parts[i := r]) == Texts(parts)
  {
    var n := |parts| - 1;
    if i == n {
      assert parts[i := r][..n] == parts[..n];
    } else {
      TextsCallUpdate(parts[..n], i, r);
      assert parts[i := r][..n] == parts[..n][i := r];
    }
  }

  /** Rewriting the latest text record rewrites the last entry. */
  lemma {:induction false} TextsLastUpdate(parts: seq<Record>, i: nat, r: Record)
    requires LastText(parts) == Some(i) && r.TextRec?
    ensures Texts(parts) != [] && Texts(parts[i := r]) == Texts(parts)[|Texts(parts)| - 1 := (r.text, r.sig)]
    ensures Texts(parts)[|Texts(parts)| - 1] == (parts[i].text, parts[i].sig)
  {
    var n := |parts| - 1;
    if i == n {
      assert parts[i := r][..n] == parts[..n];
    } else {
      TextsLastUpdate(parts[..n], i, r);
      assert parts[i := r][..n] == parts[..n][i := r];
    }
  }

  lemma {:induction false} NoTexts(parts: seq<Record>)
    ensures LastText(parts).None? <==> Texts(parts) == []
  {
    if parts != [] {
      NoTexts(parts[..|parts| - 1]);
    }
  }

  predicate GroupsHold(d: Draft, ps: seq<Part>) {
    && Texts(d.parts) == Groups(ps)
    && d.open == OpenSig(ps).Some?
    && (d.open ==> d.parts != [] && d.parts[|d.parts| - 1].TextRec? && OpenSig(ps) == Some(d.parts[|d.parts| - 1].sig))
  }

  lemma StepGroups(d: Draft, ps: seq<Part>, p: Part)
    requires GroupsHold(d, ps)
    ensures GroupsHold(Step(d, p), ps + [p])
  {
    hide Texts;
    assert (ps + [p])[..|ps|] == ps;
    NoTexts(d.parts);
    var n := |d.parts| - 1;
    if p.thought {
    } else if p.call.Some? {
      var fc := p.call.value;
      match FindUpstream(d.parts, fc.id)
      case Some(i) => TextsCallUpdate(d.parts, i, MergeCall(d.parts[i], fc, p.sig));
      case None => TextsSnoc(d.parts, NewCall(d, fc, p.sig));
    } else if p.text != "" {
      TextsSnoc(d.parts, NewText(d, p.text, p.sig));
      if Extends(d, p) {
        assert LastText(d.parts) == Some(n);
        TextsLastUpdate(d.parts, n, Grown(d.parts[n], p.text));
      }
    } else if p.sig != "" && LastText(d.parts).Some? {
      var i := LastText(d.parts).value;
      TextsLastUpdate(d.parts, i, Signed(d.parts[i], p.sig));
    }
  }

  /** The text records of a turn are the groups of its fragments. */
  lemma {:induction false} TextsAreGroups(ctx: Ctx, ps: seq<Part>)
    ensures GroupsHold(Run(ctx, ps), ps)
  {
    if ps != [] {
      var n := |ps| - 1;
      TextsAreGroups(ctx, ps[..n]);
      StepGroups(Run(ctx, ps[..n]), ps[..n], ps[n]);
      assert ps[..n] + [ps[n]] == ps;
    }
  }

  // ----- merging of repeated calls

  predicate CallsUpstream(p: Part, u: Id) {
    !p.thought && p.call.Some? && p.call.value.id == u
  }

  predicate Mentioned(ps: seq<Part>, u: Id) {
    exists k :: 0 <= k < |ps| && CallsUpstream(ps[k], u)
  }

  /** The last non-empty name, arguments and signature sent under an upstream id. */
  function LastName(ps: seq<Part>, u: Id): string {
    if ps == [] then ""
    else
      var p := ps[|ps| - 1];
      if CallsUpstream(p, u) && p.call.value.name != "" then p.call.value.name else LastName(ps[..|ps| - 1], u)
  }

  function LastArgs(ps: seq<Part>, u: Id): Args {
    if ps == [] then NilArgs
    else
      var p := ps[|ps| - 1];
      if CallsUpstream(p, u) && p.call.value.args != NilArgs then p.call.value.args else LastArgs(ps[..|ps| - 1], u)
  }

  function LastSig(ps: seq<Part>, u: Id): string {
    if ps == [] then ""
    else
      var p := ps[|ps| - 1];
      if CallsUpstream(p, u) && p.sig != "" then p.sig else LastSig(ps[..|ps| - 1], u)
  }

  predicate MergeHolds(parts: seq<Record>, ps: seq<Part>, u: Id) {
    match FindUpstream(parts, u)
    case None => !Mentioned(ps, u) && LastName(ps, u) == "" && LastArgs(ps, u) == NilArgs && LastSig(ps, u) == ""
    case Some(i) =>
      && Mentioned(ps, u)
      && parts[i].name == LastName(ps, u) && parts[i].args == LastArgs(ps, u) && parts[i].sig == LastSig(ps, u)
  }

  lemma MentionedSnoc(ps: seq<Part>, p: Part, u: Id)
    ensures Mentioned(ps + [p], u) <==> Mentioned(ps, u) || CallsUpstream(p, u)
  {
    var qs := ps + [p];
    if Mentioned(ps, u) {
      var k :| 0 <= k < |ps| && CallsUpstream(ps[k], u);
      assert CallsUpstream(qs[k], u);
    }
    if CallsUpstream(p, u) {
      assert CallsUpstream(qs[|ps|], u);
    }
  }

  lemma CallMerges(d: Draft, ps: seq<Part>, p: Part, u: Id)
    requires MergeHolds(d.parts, ps, u) && u != NO_ID && !p.thought && p.call.Some?
    ensures MergeHolds(Step(d, p).parts, ps + [p], u)
  {
    hide FindUpstream, Mentioned;
    assert (ps + [p])[..|ps|] == ps;
    MentionedSnoc(ps, p, u);
    var fc := p.call.value;
    match FindUpstream(d.parts, fc.id)
    case Some(i) => FindUpstreamUpdate(d.parts, i, MergeCall(d.parts[i], fc, p.sig), u);
    case None => FindUpstreamSnoc(d.parts, NewCall(d, fc, p.sig), u);
  }

  lemma LastSnoc(ps: seq<Part>, p: Part, u: Id)
    requires !CallsUpstream(p, u)
    ensures LastName(ps + [p], u) == LastName(ps, u) && LastArgs(ps + [p], u) == LastArgs(ps, u)
    ensures LastSig(ps + [p], u) == LastSig(ps, u) && (Mentioned(ps + [p], u) <==> Mentioned(ps, u))
  {
    hide Mentioned;
    assert (ps + [p])[..|ps|] == ps;
    MentionedSnoc(ps, p, u);
  }

  lemma OtherPartsMerge(d: Draft, ps: seq<Part>, p: Part, u: Id)
    requires MergeHolds(d.parts, ps, u) && u != NO_ID && (p.thought || p.call.None?)
    ensures MergeHolds(Step(d, p).parts, ps + [p], u)
  {
    hide FindUpstream, Mentioned, LastText, LastName, LastArgs, LastSig, TextCount;
    LastSnoc(ps, p, u);
    if p.thought {
    } else if p.text != "" {
      FindUpstreamSnoc(d.parts, NewText(d, p.text, p.sig), u);
      if Extends(d, p) {
        var n := |d.parts| - 1;
        FindUpstreamUpdate(d.parts, n, Grown(d.parts[n], p.text), u);
      }
    } else if LastText(d.parts).Some? {
      var i := LastText(d.parts).value;
      FindUpstreamUpdate(d.parts, i, Signed(d.parts[i], p.sig), u);
    }
  }

  /**
   * A call record exists for exactly the upstream ids that were mentioned, one each, and holds
   * the last non-empty name, arguments and signature sent under its id.
   */
  lemma {:induction false} CallsMerge(ctx: Ctx, ps: seq<Part>, u: Id)
    requires u != NO_ID
    ensures MergeHolds(Run(ctx, ps).parts, ps, u)
  {
    if ps == [] {
      assert !Mentioned(ps, u);
    } else {
      var n := |ps| - 1;
      CallsMerge(ctx, ps[..n], u);
      assert ps[..n] + [ps[n]] == ps;
      if !ps[n].thought && ps[n].call.Some? {
        CallMerges(Run(ctx, ps[..n]), ps[..n], ps[n], u);
      } else {
        OtherPartsMerge(Run(ctx, ps[..n]), ps[..n], ps[n], u);
      }
    }
  }

  // ----- signature tables

  predicate SignedToolId(parts: seq<Record>, id: Id) {
    exists i :: 0 <= i < |parts| && parts[i].CallRec? && parts[i].sig != "" && (parts[i].callId == id || parts[i].itemId == id)
  }

  predicate SignedTextId(parts: seq<Record>, id: Id) {
    exists i :: 0 <= i < |parts| && parts[i].TextRec? && parts[i].sig != "" && parts[i].itemId == id
  }

  lemma {:induction false} ToolSigsExact(parts: seq<Record>, id: Id)
    requires DistinctItems(parts) && DistinctCalls(parts)
    ensures id in ToolSigs(parts) <==> SignedToolId(parts, id)
    ensures forall i :: 0 <= i < |parts| && parts[i].CallRec? && parts[i].sig != "" && (parts[i].callId == id || parts[i].itemId == id)
              ==> ToolSigs(parts)[id] == parts[i].sig
  {
    if parts != [] {
      var n := |parts| - 1;
      ToolSigsExact(parts[..n], id);
      if SignedToolId(parts[..n], id) {
        var i :| 0 <= i < n && parts[..n][i].CallRec? && parts[..n][i].sig != "" && (parts[..n][i].callId == id || parts[..n][i].itemId == id);
        assert parts[i] == parts[..n][i];
      }
      assert forall i :: 0 <= i < n ==> parts[i] == parts[..n][i];
    }
  }

  lemma {:induction false} TextSigsExact(parts: seq<Record>, id: Id)
    requires DistinctItems(parts)
    ensures id in TextSigs(parts) <==> SignedTextId(parts, id)
    ensures forall i :: 0 <= i < |parts| && parts[i].TextRec? && parts[i].sig != "" && parts[i].itemId == id
              ==> TextSigs(parts)[id] == parts[i].sig
  {
    if parts != [] {
      var n := |parts| - 1;
      TextSigsExact(parts[..n], id);
      if SignedTextId(parts[..n], id) {
        var i :| 0 <= i < n && parts[..n][i].TextRec? && parts[..n][i].sig != "" && parts[..n][i].itemId == id;
        assert parts[i] == parts[..n][i];
      }
      assert forall i :: 0 <= i < n ==> parts[i] == parts[..n][i];
    }
  }

  /**
   * Every built turn: records carry their positions, call and item ids are distinct, and the
   * signature tables list exactly the signed records.
   */
  lemma BuiltTurnIsConsistent(ctx: Ctx, ps: seq<Part>)
    requires ctx.Valid()
    ensures var t := Built(ctx, ps);
            && (forall i :: 0 <= i < |t.parts| ==> t.parts[i].index == i)
            && DistinctItems(t.parts) && DistinctCalls(t.parts)
            && (forall id :: id in t.toolSigs <==> SignedToolId(t.parts, id))
            && (forall id :: id in t.textSigs <==> SignedTextId(t.parts, id))
            && (forall i :: 0 <= i < |t.parts| && t.parts[i].sig != "" ==>
                  if t.parts[i].CallRec? then
                    t.parts[i].callId in t.toolSigs && t.toolSigs[t.parts[i].callId] == t.parts[i].sig
                    && t.parts[i].itemId in t.toolSigs && t.toolSigs[t.parts[i].itemId] == t.parts[i].sig
                  else t.parts[i].itemId in t.textSigs && t.textSigs[t.parts[i].itemId] == t.parts[i].sig)
  {
    var d := Final(Run(ctx, ps));
    RunWF(ctx, ps);
    FinalWF(Run(ctx, ps));
    DistinctIds(d);
    TablesExact(d);
  }

  lemma TablesExact(d: Draft)
    requires DistinctItems(d.parts) && DistinctCalls(d.parts)
    ensures forall id :: id in ToolSigs(d.parts) <==> SignedToolId(d.parts, id)
    ensures forall id :: id in TextSigs(d.parts) <==> SignedTextId(d.parts, id)
    ensures forall i :: 0 <= i < |d.parts| && d.parts[i].sig != "" ==>
              if d.parts[i].CallRec? then
                d.parts[i].callId in ToolSigs(d.parts) && ToolSigs(d.parts)[d.parts[i].callId] == d.parts[i].sig
                && d.parts[i].itemId in ToolSigs(d.parts) && ToolSigs(d.parts)[d.parts[i].itemId] == d.parts[i].sig
              else d.parts[i].itemId in TextSigs(d.parts) && TextSigs(d.parts)[d.parts[i].itemId] == d.parts[i].sig
  {
    hide DistinctItems, DistinctCalls, ToolSigs, TextSigs;
    forall id {
      ToolSigsExact(d.parts, id);
    }
    forall id {
      TextSigsExact(d.parts, id);
    }
    forall i | 0 <= i < |d.parts| && d.parts[i].sig != ""
      ensures if d.parts[i].CallRec? then
                d.parts[i].callId in ToolSigs(d.parts) && ToolSigs(d.parts)[d.parts[i].callId] == d.parts[i].sig
                && d.parts[i].itemId in ToolSigs(d.parts) && ToolSigs(d.parts)[d.parts[i].itemId] == d.parts[i].sig
              else d.parts[i].itemId in TextSigs(d.parts) && TextSigs(d.parts)[d.parts[i].itemId] == d.parts[i].sig
    {
      if d.parts[i].CallRec? {
        ToolSigsExact(d.parts, d.parts[i].callId);
        ToolSigsExact(d.parts, d.parts[i].itemId);
      } else {
        TextSigsExact(d.parts, d.parts[i].itemId);
      }
    }
  }
}
