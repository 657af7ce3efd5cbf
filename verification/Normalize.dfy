/** Merging of adjacent same-role contents. */
module Normalize {
  import opened Core

  predicate Substantial(p: Part) {
    p.text != "" || p.call.Some? || p.response.Some?
  }

  function CleanParts(ps: seq<Part>): seq<Part> {
    if ps == [] then []
    else CleanParts(ps[..|ps| - 1]) + if Substantial(ps[|ps| - 1]) then [ps[|ps| - 1]] else []
  }

  function Clean(cs: seq<Content>): seq<Content> {
    if cs == [] then []
    else
      var last := cs[|cs| - 1];
      Clean(cs[..|cs| - 1]) + if CleanParts(last.parts) != [] then [Content(last.role, CleanParts(last.parts))] else []
  }

  function AddContent(merged: seq<Content>, c: Content): seq<Content> {
    if merged != [] && merged[|merged| - 1].role == c.role then
      merged[|merged| - 1 := Content(c.role, merged[|merged| - 1].parts + c.parts)]
    else merged + [c]
  }

  function Merge(cs: seq<Content>): seq<Content> {
    if cs == [] then [] else AddContent(Merge(cs[..|cs| - 1]), cs[|cs| - 1])
  }

  function Normalized(cs: seq<Content>): seq<Content> {
    Merge(Clean(cs))
  }

  method CleanContents(contents: seq<Content>) returns (cleanContents: seq<Content>)
    ensures cleanContents == Clean(contents)
  {
    cleanContents := [];
    for i := 0 to |contents|
      invariant cleanContents == Clean(contents[..i])
    {
      assert contents[..i + 1][..i] == contents[..i];
      var cleanParts := CleanOne(contents[i].parts);
      if |cleanParts| > 0 {
        cleanContents := cleanContents + [Content(contents[i].role, cleanParts)];
      }
    }
    assert contents[..|contents|] == contents;
  }

  method CleanOne(parts: seq<Part>) returns (cleanParts: seq<Part>)
    ensures cleanParts == CleanParts(parts)
  {
    cleanParts := [];
    for k := 0 to |parts|
      invariant cleanParts == CleanParts(parts[..k])
    {
      assert parts[..k + 1][..k] == parts[..k];
      if parts[k].text == "" && parts[k].call.None? && parts[k].response.None? {
        continue;
      }
      cleanParts := cleanParts + [parts[k]];
    }
    assert parts[..|parts|] == parts;
  }

  method NormalizeAlternatingContents(contents: seq<Content>) returns (merged: seq<Content>)
    ensures merged == Normalized(contents)
  {
    hide Clean;
    var cleanContents := CleanContents(contents);
    if |cleanContents| <= 1 {
      MergeOne(cleanContents);
      return cleanContents;
    }
    merged := [];
    for i := 0 to |cleanContents|
      invariant merged == Merge(cleanContents[..i])
    {
      assert cleanContents[..i + 1][..i] == cleanContents[..i];
      var c := cleanContents[i];
      if |merged| == 0 {
        merged := [c];
        continue;
      }
      var last := merged[|merged| - 1];
      if last.role == c.role {
        merged := merged[|merged| - 1 := Content(last.role, last.parts + c.parts)];
      } else {
        merged := merged + [c];
      }
    }
    assert cleanContents[..|cleanContents|] == cleanContents;
  }

  lemma MergeOne(cs: seq<Content>)
    requires |cs| <= 1
    ensures Merge(cs) == cs
  {
    if cs != [] {
      assert cs[..0] == [] && cs == [cs[0]];
      assert Merge(cs[..0]) == [];
    }
  }

  // ----- the flattened conversation

  function Tagged(role: string, ps: seq<Part>): (r: seq<(string, Part)>)
    ensures |r| == |ps| && forall i :: 0 <= i < |ps| ==> r[i] == (role, ps[i])
  {
    seq(|ps|, i requires 0 <= i < |ps| => (role, ps[i]))
  }

  function Flatten(cs: seq<Content>): seq<(string, Part)> {
    if cs == [] then [] else Flatten(cs[..|cs| - 1]) + Tagged(cs[|cs| - 1].role, cs[|cs| - 1].parts)
  }

  function KeepSubstantial(ps: seq<(string, Part)>): seq<(string, Part)> {
    if ps == [] then []
    else KeepSubstantial(ps[..|ps| - 1]) + if Substantial(ps[|ps| - 1].1) then [ps[|ps| - 1]] else []
  }

  predicate Solid(c: Content) {
    c.parts != [] && forall k :: 0 <= k < |c.parts| ==> Substantial(c.parts[k])
  }

  predicate AllSolid(cs: seq<Content>) {
    forall i :: 0 <= i < |cs| ==> Solid(cs[i])
  }

  /** Adjacent roles differ, and neither a content nor a part is empty. */
  predicate Alternating(cs: seq<Content>) {
    AllSolid(cs) && forall i :: 0 < i < |cs| ==> cs[i - 1].role != cs[i].role
  }

  lemma FlattenSnoc(cs: seq<Content>, c: Content)
    ensures Flatten(cs + [c]) == Flatten(cs) + Tagged(c.role, c.parts)
  {
    assert (cs + [c])[..|cs|] == cs;
  }

  lemma {:induction false} KeepConcat(a: seq<(string, Part)>, b: seq<(string, Part)>)
    ensures KeepSubstantial(a + b) == KeepSubstantial(a) + KeepSubstantial(b)
  {
    if b == [] {
      assert a + b == a;
    } else {
      KeepConcat(a, b[..|b| - 1]);
      assert (a + b)[..|a + b| - 1] == a + b[..|b| - 1];
    }
  }

  lemma {:induction false} CleanTagged(role: string, ps: seq<Part>)
    ensures KeepSubstantial(Tagged(role, ps)) == Tagged(role, CleanParts(ps))
    ensures forall k :: 0 <= k < |CleanParts(ps)| ==> Substantial(CleanParts(ps)[k])
  {
    if ps != [] {
      var n := |ps| - 1;
      CleanTagged(role, ps[..n]);
      assert Tagged(role, ps)[..n] == Tagged(role, ps[..n]);
    }
  }

  lemma {:induction false} CleanKeeps(cs: seq<Content>)
    ensures Flatten(Clean(cs)) == KeepSubstantial(Flatten(cs)) && AllSolid(Clean(cs))
  {
    hide Flatten, Tagged, KeepSubstantial, CleanParts;
    if cs == [] {
      NothingFlattens();
    } else {
      var n := |cs| - 1;
      CleanKeeps(cs[..n]);
      CleanTagged(cs[n].role, cs[n].parts);
      KeepConcat(Flatten(cs[..n]), Tagged(cs[n].role, cs[n].parts));
      FlattenSnoc(cs[..n], cs[n]);
      assert cs == cs[..n] + [cs[n]];
      FlattenSnoc(Clean(cs[..n]), Content(cs[n].role, CleanParts(cs[n].parts)));
      NoneTagged(cs[n].role);
      var before, kept := Clean(cs[..n]), CleanParts(cs[n].parts);
      assert Clean(cs) == if kept == [] then before else before + [Content(cs[n].role, kept)];
      assert Flatten(Clean(cs)) == Flatten(before) + Tagged(cs[n].role, kept);
    }
  }

  lemma {:induction false} FlattenConcat(a: seq<Content>, b: seq<Content>)
    ensures Flatten(a + b) == Flatten(a) + Flatten(b)
  {
    hide Tagged, Flatten;
    if b == [] {
      NothingFlattens();
      assert a + b == a;
    } else {
      var before, c := b[..|b| - 1], b[|b| - 1];
      FlattenConcat(a, before);
      FlattenSnoc(a + before, c);
      FlattenSnoc(before, c);
      assert a + b == a + before + [c] && b == before + [c];
    }
  }

  lemma NothingFlattens()
    ensures Flatten([]) == [] && KeepSubstantial([]) == []
  {
  }

  lemma NoneTagged(role: string)
    ensures Tagged(role, []) == []
  {
  }

  lemma AddKeeps(merged: seq<Content>, c: Content)
    requires Alternating(merged) && Solid(c)
    ensures Alternating(AddContent(merged, c))
    ensures Flatten(AddContent(merged, c)) == Flatten(merged) + Tagged(c.role, c.parts)
  {
    hide Flatten, Tagged;
    var n := |merged| - 1;
    if merged != [] && merged[n].role == c.role {
      var joined := Content(c.role, merged[n].parts + c.parts);
      assert AddContent(merged, c) == merged[..n] + [joined];
      assert merged == merged[..n] + [merged[n]];
      FlattenSnoc(merged[..n], joined);
      FlattenSnoc(merged[..n], merged[n]);
      TaggedConcat(c.role, merged[n].parts, c.parts);
    } else {
      FlattenSnoc(merged, c);
    }
  }

  lemma TaggedConcat(role: string, a: seq<Part>, b: seq<Part>)
    ensures Tagged(role, a + b) == Tagged(role, a) + Tagged(role, b)
  {
  }

  lemma {:induction false} MergeKeeps(cs: seq<Content>)
    requires AllSolid(cs)
    ensures Alternating(Merge(cs)) && Flatten(Merge(cs)) == Flatten(cs)
  {
    hide AddContent, Alternating, Tagged, Solid;
    if cs == [] {
      assert Alternating([]) by { NothingAlternates(); }
    } else {
      MergeKeeps(cs[..|cs| - 1]);
      AddKeeps(Merge(cs[..|cs| - 1]), cs[|cs| - 1]);
    }
  }

  lemma NothingAlternates()
    ensures Alternating([])
  {
  }

  /** Normalizing alternates the roles and keeps the flattened parts except the empty ones. */
  lemma NormalizedKeeps(cs: seq<Content>)
    ensures Alternating(Normalized(cs)) && Flatten(Normalized(cs)) == KeepSubstantial(Flatten(cs))
  {
    hide Clean, Merge, Flatten, Alternating, KeepSubstantial, AllSolid;
    CleanKeeps(cs);
    MergeKeeps(Clean(cs));
  }

  // ----- the normal form is unique

  lemma FlattenLast(cs: seq<Content>)
    requires Alternating(cs) && cs != []
    ensures var n, m := |Flatten(cs)|, |cs[|cs| - 1].parts|;
            && 0 < m <= n && Flatten(cs)[n - m..] == Tagged(cs[|cs| - 1].role, cs[|cs| - 1].parts)
            && Flatten(cs)[..n - m] == Flatten(cs[..|cs| - 1])
            && (n > m ==> Flatten(cs)[n - m - 1].0 != cs[|cs| - 1].role)
  {
    if |cs| > 1 {
      FlattenLast(cs[..|cs| - 1]);
    }
  }

  /** Two alternating conversations with the same parts in the same order are the same. */
  lemma {:induction false} NormalFormIsUnique(a: seq<Content>, b: seq<Content>)
    requires Alternating(a) && Alternating(b) && Flatten(a) == Flatten(b)
    ensures a == b
  {
    hide Flatten, Alternating, Tagged;
    if a == [] || b == [] {
      EmptyFlatten(a);
      EmptyFlatten(b);
    } else {
      FlattenLast(a);
      FlattenLast(b);
      var x, y := a[|a| - 1], b[|b| - 1];
      SameLast(Flatten(a), x, y);
      PrefixAlternates(a);
      PrefixAlternates(b);
      NormalFormIsUnique(a[..|a| - 1], b[..|b| - 1]);
      assert a == a[..|a| - 1] + [x] && b == b[..|b| - 1] + [y];
    }
  }

  lemma EmptyFlatten(cs: seq<Content>)
    requires Alternating(cs)
    ensures Flatten(cs) == [] <==> cs == []
  {
    if cs != [] {
      assert cs[|cs| - 1].parts != [];
    }
  }

  lemma PrefixAlternates(cs: seq<Content>)
    requires Alternating(cs) && cs != []
    ensures Alternating(cs[..|cs| - 1])
  {
  }

  lemma SameLast(f: seq<(string, Part)>, x: Content, y: Content)
    requires 0 < |x.parts| <= |f| && 0 < |y.parts| <= |f|
    requires f[|f| - |x.parts|..] == Tagged(x.role, x.parts) && f[|f| - |y.parts|..] == Tagged(y.role, y.parts)
    requires |f| > |x.parts| ==> f[|f| - |x.parts| - 1].0 != x.role
    requires |f| > |y.parts| ==> f[|f| - |y.parts| - 1].0 != y.role
    ensures x == y
  {
    hide Tagged;
    TagAt(f, x, |f| - 1);
    TagAt(f, y, |f| - 1);
    NotLonger(f, x, y);
    NotLonger(f, y, x);
    forall i | 0 <= i < |x.parts|
      ensures x.parts[i] == y.parts[i]
    {
      TagAt(f, x, |f| - |x.parts| + i);
      TagAt(f, y, |f| - |x.parts| + i);
    }
    assert x.parts == y.parts;
  }

  lemma NotLonger(f: seq<(string, Part)>, x: Content, y: Content)
    requires 0 < |x.parts| <= |f| && 0 < |y.parts| <= |f| && x.role == y.role
    requires f[|f| - |y.parts|..] == Tagged(y.role, y.parts)
    requires |f| > |x.parts| ==> f[|f| - |x.parts| - 1].0 != x.role
    ensures |y.parts| <= |x.parts|
  {
  }

  lemma TagAt(f: seq<(string, Part)>, x: Content, i: nat)
    requires |x.parts| <= |f| && f[|f| - |x.parts|..] == Tagged(x.role, x.parts)
    requires |f| - |x.parts| <= i < |f|
    ensures f[i] == (x.role, x.parts[i - (|f| - |x.parts|)])
  {
    assert f[i] == f[|f| - |x.parts|..][i - (|f| - |x.parts|)];
  }

  lemma {:induction false} KeepAll(ps: seq<(string, Part)>)
    requires forall i :: 0 <= i < |ps| ==> Substantial(ps[i].1)
    ensures KeepSubstantial(ps) == ps
  {
    if ps != [] {
      KeepAll(ps[..|ps| - 1]);
    }
  }

  lemma {:induction false} KeptIn(ps: seq<(string, Part)>, x: (string, Part))
    requires x in ps && Substantial(x.1)
    ensures x in KeepSubstantial(ps)
  {
    if x in ps[..|ps| - 1] {
      KeptIn(ps[..|ps| - 1], x);
    }
  }

  lemma {:induction false} FlattenSubstantial(cs: seq<Content>)
    requires AllSolid(cs)
    ensures forall i :: 0 <= i < |Flatten(cs)| ==> Substantial(Flatten(cs)[i].1)
  {
    if cs != [] {
      FlattenSubstantial(cs[..|cs| - 1]);
      assert Solid(cs[|cs| - 1]);
    }
  }

  /** Normalizing twice equals normalizing once. */
  lemma NormalizingTwice(cs: seq<Content>)
    ensures Normalized(Normalized(cs)) == Normalized(cs)
  {
    hide Normalized, Flatten;
    var n := Normalized(cs);
    NormalizedKeeps(cs);
    NormalizedKeeps(n);
    FlattenSubstantial(n);
    KeepAll(Flatten(n));
    NormalFormIsUnique(Normalized(n), n);
  }
}
