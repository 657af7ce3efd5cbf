/** What a converted history says apart from ids and signatures, part by part. */
module Outlines {
  import opened Core
  import opened Normalize

  datatype Line =
    | CallLine(role: string, name: string, args: Args)
    | ResultLine(role: string, output: string)
    | TextLine(role: string, text: string)

  function LineOf(role: string, p: Part): Line {
    if p.call.Some? then CallLine(role, p.call.value.name, p.call.value.args)
    else if p.response.Some? then ResultLine(role, p.response.value.response)
    else TextLine(role, p.text)
  }

  function Lines(f: seq<(string, Part)>): seq<Line> {
    seq(|f|, i requires 0 <= i < |f| => LineOf(f[i].0, f[i].1))
  }

  lemma LinesConcat(f: seq<(string, Part)>, g: seq<(string, Part)>)
    ensures Lines(f + g) == Lines(f) + Lines(g)
  {
  }

  lemma OneContent(c: Content)
    ensures Flatten([c]) == Tagged(c.role, c.parts)
  {
    assert [c][..0] == [];
    assert Flatten([]) == [];
  }

  // ----- the first of several sources

  /** The first entry that is not `none`. */
  function FirstOf<T(==)>(entries: seq<T>, none: T): T {
    if entries == [] then none else if entries[0] != none then entries[0] else FirstOf(entries[1..], none)
  }

  lemma ThreeEntries<T>(a: T, b: T, c: T, none: T)
    ensures FirstOf([a, b, c], none) == if a != none then a else if b != none then b else c
  {
    assert [a, b, c][1..] == [b, c] && [b, c][1..] == [c];
    assert FirstOf([c], none) == c;
  }

  lemma FourEntries<T>(a: T, b: T, c: T, d: T, none: T)
    ensures FirstOf([a, b, c, d], none) == if a != none then a else if b != none then b else if c != none then c else d
  {
    assert [a, b, c, d][1..] == [b, c, d];
    ThreeEntries(b, c, d, none);
  }
}
