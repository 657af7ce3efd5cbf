/** The records of a turn as a function of its parts, said without the machine that builds them. */
module RecordLaws {
  import opened Core
  import opened Turns
  import opened TurnLaws

  predicate IsCallPart(p: Part) {
    !p.thought && p.call.Some?
  }

  /** Part `k` begins a record: a call that repeats no earlier upstream id, or a text that joins no open one. */
  predicate Opens(ps: seq<Part>, k: nat)
    requires k < |ps|
  {
    if IsCallPart(ps[k]) then ps[k].call.value.id == NO_ID || !Mentioned(ps[..k], ps[k].call.value.id)
    else IsText(ps[k]) && OpenSig(ps[..k]) != Some(ps[k].sig)
  }

  /** The parts that begin records, in order. */
  function Openers(ps: seq<Part>): (ks: seq<nat>)
    ensures forall i :: 0 <= i < |ks| ==> ks[i] < |ps|
  {
    if ps == [] then []
    else
      var n := |ps| - 1;
      Openers(ps[..n]) + if Opens(ps, n) then [n] else []
  }

  /** How many of the first `i` records are texts. */
  function TextsBefore(ps: seq<Part>, i: nat): nat
    requires i <= |Openers(ps)|
  {
    if i == 0 then 0 else TextsBefore(ps, i - 1) + if IsCallPart(ps[Openers(ps)[i - 1]]) then 0 else 1
  }

  /**
   * What record `i` says: a call without an upstream id is its part, a call with one holds the last
   * non-empty fields sent under it, and a text is its group of fragments.
   */
  predicate Says(r: Record, ps: seq<Part>, i: nat)
    requires i < |Openers(ps)|
  {
    var p := ps[Openers(ps)[i]];
    if IsCallPart(p) then
      var u := p.call.value.id;
      && r.CallRec? && r.upstreamId == u
      && r.name == (if u == NO_ID then p.call.value.name else LastName(ps, u))
      && r.args == (if u == NO_ID then p.call.value.args else LastArgs(ps, u))
      && r.sig == (if u == NO_ID then p.sig else LastSig(ps, u))
    else
      r.TextRec? && TextsBefore(ps, i) < |Groups(ps)| && (r.text, r.sig) == Groups(ps)[TextsBefore(ps, i)]
  }

  // ----- kind and upstream id of every record

  predicate Outlined(r: Record, p: Part) {
    r.CallRec? == IsCallPart(p)
    && (r.CallRec? ==>
          && r.upstreamId == p.call.value.id
          && (p.call.value.id == NO_ID ==> r.name == p.call.value.name && r.args == p.call.value.args && r.sig == p.sig))
  }

  predicate Skeleton(parts: seq<Record>, ps: seq<Part>) {
    |parts| == |Openers(ps)| && forall i {:trigger parts[i]} :: 0 <= i < |parts| ==> Outlined(parts[i], ps[Openers(ps)[i]])
  }

  lemma SkeletonSnoc(parts: seq<Record>, ps: seq<Part>, p: Part, r: Record)
    requires Skeleton(parts, ps) && Opens(ps + [p], |ps|) && Outlined(r, p)
    ensures Skeleton(parts + [r], ps + [p])
  {
    hide Opens, Outlined;
    assert (ps + [p])[..|ps|] == ps;
  }

  lemma SkeletonSame(parts: seq<Record>, ps: seq<Part>, p: Part, i: nat, r: Record)
    requires Skeleton(parts, ps) && !Opens(ps + [p], |ps|) && i < |parts|
    requires forall q :: Outlined(parts[i], q) ==> Outlined(r, q)
    ensures Skeleton(parts[i := r], ps + [p])
  {
    hide Opens, Outlined;
    assert (ps + [p])[..|ps|] == ps;
  }

  lemma SkeletonStays(parts: seq<Record>, ps: seq<Part>, p: Part)
    requires Skeleton(parts, ps) && !Opens(ps + [p], |ps|)
    ensures Skeleton(parts, ps + [p])
  {
    hide Opens, Outlined;
    assert (ps + [p])[..|ps|] == ps;
  }

  lemma CallStep(ctx: Ctx, ps: seq<Part>, p: Part)
    requires Skeleton(Run(ctx, ps).parts, ps) && IsCallPart(p)
    ensures Skeleton(Step(Run(ctx, ps), p).parts, ps + [p])
  {
    hide Run, Skeleton, Mentioned;
    var d, fc := Run(ctx, ps), p.call.value;
    assert (ps + [p])[..|ps|] == ps;
    if fc.id != NO_ID {
      CallsMerge(ctx, ps, fc.id);
    }
    match FindUpstream(d.parts, fc.id)
    case Some(i) => SkeletonSame(d.parts, ps, p, i, MergeCall(d.parts[i], fc, p.sig));
    case None => SkeletonSnoc(d.parts, ps, p, NewCall(d, fc, p.sig));
  }

  lemma OtherStep(ctx: Ctx, ps: seq<Part>, p: Part)
    requires Skeleton(Run(ctx, ps).parts, ps) && !IsCallPart(p)
    ensures Skeleton(Step(Run(ctx, ps), p).parts, ps + [p])
  {
    hide Run, Skeleton, LastText, Texts, Groups;
    var d := Run(ctx, ps);
    assert (ps + [p])[..|ps|] == ps;
    TextsAreGroups(ctx, ps);
    if IsText(p) {
      if Extends(d, p) {
        var n := |d.parts| - 1;
        SkeletonSame(d.parts, ps, p, n, Grown(d.parts[n], p.text));
      } else {
        SkeletonSnoc(d.parts, ps, p, NewText(d, p.text, p.sig));
      }
    } else if IsTail(p) && LastText(d.parts).Some? {
      var i := LastText(d.parts).value;
      SkeletonSame(d.parts, ps, p, i, Signed(d.parts[i], p.sig));
    } else {
      SkeletonStays(d.parts, ps, p);
    }
  }

  lemma {:induction false} RunSkeleton(ctx: Ctx, ps: seq<Part>)
    ensures Skeleton(Run(ctx, ps).parts, ps)
  {
    hide Step, Skeleton;
    if ps == [] {
      assert Skeleton([], []) by { NothingOpened(); }
    } else {
      var n := |ps| - 1;
      RunSkeleton(ctx, ps[..n]);
      assert ps[..n] + [ps[n]] == ps;
      if IsCallPart(ps[n]) {
        CallStep(ctx, ps[..n], ps[n]);
      } else {
        OtherStep(ctx, ps[..n], ps[n]);
      }
    }
  }

  lemma NothingOpened()
    ensures Skeleton([], [])
  {
  }

  // ----- the contents

  lemma {:induction false} TextAt(parts: seq<Record>, ps: seq<Part>, i: nat)
    requires Skeleton(parts, ps) && i <= |parts|
    ensures |Texts(parts[..i])| == TextsBefore(ps, i)
  {
    hide Skeleton, Outlined, Openers;
    if i > 0 {
      SkeletonAt(parts, ps, i - 1);
      TextAt(parts, ps, i - 1);
      assert parts[..i][..i - 1] == parts[..i - 1];
    } else {
      assert parts[..0] == [];
      SkeletonSize(parts, ps);
    }
  }

  lemma SkeletonSize(parts: seq<Record>, ps: seq<Part>)
    requires Skeleton(parts, ps)
    ensures |parts| == |Openers(ps)|
  {
  }

  lemma SkeletonAt(parts: seq<Record>, ps: seq<Part>, i: nat)
    requires Skeleton(parts, ps) && i < |parts|
    ensures |parts| == |Openers(ps)| && Outlined(parts[i], ps[Openers(ps)[i]]) && parts[i].CallRec? == IsCallPart(ps[Openers(ps)[i]])
  {
    hide Openers, IsCallPart;
  }

  lemma {:induction false} TextsPrefix(parts: seq<Record>, i: nat)
    requires i < |parts| && parts[i].TextRec?
    ensures |Texts(parts[..i])| < |Texts(parts)| && Texts(parts)[|Texts(parts[..i])|] == (parts[i].text, parts[i].sig)
    decreases |parts|
  {
    var n := |parts| - 1;
    if i < n {
      assert parts[..n][..i] == parts[..i];
      TextsPrefix(parts[..n], i);
    }
  }

  /**
   * The record list of a turn, read off its parts: one record for each part that begins one, in
   * their order, and each says what its part, its upstream id or its group of fragments says.
   */
  lemma RecordsAre(ctx: Ctx, ps: seq<Part>)
    requires ctx.Valid()
    ensures |Run(ctx, ps).parts| == |Openers(ps)|
    ensures forall i :: 0 <= i < |Openers(ps)| ==> Says(Run(ctx, ps).parts[i], ps, i)
  {
    hide Run, Openers, Texts, Groups, OpenSig, TextsBefore, LastName, LastArgs, LastSig, WF, Skeleton;
    var parts := Run(ctx, ps).parts;
    RunSkeleton(ctx, ps);
    SkeletonSize(parts, ps);
    TextsAreGroups(ctx, ps);
    RunWF(ctx, ps);
    forall i | 0 <= i < |parts|
      ensures Says(parts[i], ps, i)
    {
      SkeletonAt(parts, ps, i);
      if parts[i].CallRec? {
        if parts[i].upstreamId != NO_ID {
          CallsMerge(ctx, ps, parts[i].upstreamId);
          OneRecord(Run(ctx, ps), i);
        }
      } else {
        TextAt(parts, ps, i);
        TextsPrefix(parts, i);
      }
    }
  }

  /** The record of an upstream id is the one that is found under it. */
  lemma OneRecord(d: Draft, i: nat)
    requires WF(d) && i < |d.parts| && d.parts[i].CallRec? && d.parts[i].upstreamId != NO_ID
    ensures FindUpstream(d.parts, d.parts[i].upstreamId) == Some(i)
  {
    hide FindUpstream, WellIndexed;
    var k := FindUpstream(d.parts, d.parts[i].upstreamId);
    assert k.Some?;
  }

  /** A built turn has these records; an empty one a single empty text. */
  lemma BuiltRecordsAre(ctx: Ctx, ps: seq<Part>)
    requires ctx.Valid()
    ensures var parts := Built(ctx, ps).parts;
            && (Openers(ps) != [] ==> |parts| == |Openers(ps)| && forall i :: 0 <= i < |parts| ==> Says(parts[i], ps, i))
            && (Openers(ps) == [] && (exists k :: 0 <= k < |ps| && ps[k].thought) ==> parts == [])
            && (Openers(ps) == [] && (forall k :: 0 <= k < |ps| ==> !ps[k].thought) ==>
                  |parts| == 1 && parts[0].TextRec? && parts[0].text == "" && parts[0].sig == "")
  {
    hide Run, Openers, Says;
    RecordsAre(ctx, ps);
    ThoughtPlace(ctx, ps);
  }

  function FirstThought(ps: seq<Part>): (r: Option<nat>)
    ensures r.Some? ==> r.value < |ps| && ps[r.value].thought
    ensures forall k :: 0 <= k < (if r.Some? then r.value else |ps|) ==> !ps[k].thought
  {
    if ps == [] then None
    else if FirstThought(ps[..|ps| - 1]).Some? then FirstThought(ps[..|ps| - 1])
    else if ps[|ps| - 1].thought then Some(|ps| - 1)
    else None
  }

  /** The reasoning item stands before the records that begin after the first thought. */
  lemma {:induction false} ThoughtPlace(ctx: Ctx, ps: seq<Part>)
    requires ctx.Valid()
    ensures Run(ctx, ps).thoughtAt == match FirstThought(ps) case None => None case Some(k) => Some(|Openers(ps[..k])|)
  {
    hide FindUpstream, LastText, TextCount, Openers;
    if ps != [] {
      var n := |ps| - 1;
      ThoughtPlace(ctx, ps[..n]);
      RecordsAre(ctx, ps[..n]);
      if FirstThought(ps[..n]).Some? {
        assert ps[..n][..FirstThought(ps[..n]).value] == ps[..FirstThought(ps[..n]).value];
      }
    }
  }
}
