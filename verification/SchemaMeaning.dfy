/** Compiling weakens: what the client schema accepts, the compiled schema accepts. */
module SchemaMeaning {
  import opened Core
  import opened Schemas
  import opened SchemaLaws
  import Caches

  /**
   * What a schema means, by keyword. References lead to schemas; a keyword that holds no schemas
   * is any predicate of its value and the instance.
   */
  datatype Meaning = Meaning(refs: string -> Option<Schema>, leaf: (string, Json, Json) -> bool)

  /** Instance `x` meets every keyword of `node`; `fuel` bounds how deep schemas are followed. */
  ghost predicate Meets(node: Schema, x: Json, m: Meaning, fuel: nat)
    decreases fuel, 2
  {
    forall k {:trigger Holds(k, node[k], x, m, fuel)} {:trigger node[k]} :: k in node ==> Holds(k, node[k], x, m, fuel)
  }

  ghost predicate Allows(schema: Json, x: Json, m: Meaning, fuel: nat)
    decreases fuel, 0
  {
    match schema
    case Obj(fields) => fuel > 0 ==> Meets(fields, x, m, fuel - 1)
    case Bool(b) => b
    case _ => true
  }

  ghost predicate Holds(k: string, v: Json, x: Json, m: Meaning, fuel: nat)
    decreases fuel, 1
  {
    match KindOf(k)
    case Reference =>
      if !v.Str? || v.s == "" then true
      else if m.refs(v.s).None? then m.leaf(k, v, x)
      else fuel > 0 ==> Meets(m.refs(v.s).value, x, m, fuel - 1)
    case Metadata => true
    case Const => x == v
    case Enum => v.Arr? ==> x in v.elems
    case Required =>
      v.Arr? && x.Obj? ==> forall i {:trigger v.elems[i]} :: 0 <= i < |v.elems| && v.elems[i].Str? ==> v.elems[i].s in x.fields
    case AllOf => v.Arr? ==> forall i {:trigger v.elems[i]} :: 0 <= i < |v.elems| ==> Allows(v.elems[i], x, m, fuel)
    case AnyOf => v.Arr? ==> exists i {:trigger v.elems[i]} :: 0 <= i < |v.elems| && Allows(v.elems[i], x, m, fuel)
    case OneOf =>
      v.Arr? ==>
        exists i {:trigger v.elems[i]} :: 0 <= i < |v.elems| && Allows(v.elems[i], x, m, fuel) &&
          forall j {:trigger v.elems[j]} :: 0 <= j < |v.elems| && j != i ==> !Allows(v.elems[j], x, m, fuel)
    case Properties =>
      v.Obj? && x.Obj? ==>
        forall n {:trigger v.fields[n]} :: n in v.fields && n in x.fields ==> Allows(v.fields[n], x.fields[n], m, fuel)
    case Items =>
      if v.Arr? then m.leaf(k, v, x)
      else x.Arr? ==> forall i {:trigger x.elems[i]} :: 0 <= i < |x.elems| ==> Allows(v, x.elems[i], m, fuel)
    case _ => m.leaf(k, v, x)
  }

  // ----- the schemas for which weakening is sound

  /** The keyword has a Gemini form of its own. */
  predicate Leaves(k: string, v: Json) {
    match KindOf(k)
    case Const => true
    case OneOf => v.Arr? && v.elems != []
    case AnyOf => v.Arr? && v.elems != []
    case Properties => v.Obj? && exists n :: n in v.fields && v.fields[n].Obj?
    case Items => v.Obj?
    case Enum => v.Arr?
    case Ordering => v.Arr?
    case Plain => true
    case _ => false
  }

  predicate EmptyRequired(node: Schema) {
    "required" in node && node["required"] == Arr([])
  }

  /**
   * The compiled node still counts once it is merged as an allOf member, where an empty required
   * list is dropped. In a `strict` place any required list may be overwritten by an empty one.
   */
  predicate Shows(node: Schema, strict: bool, defs: Schema, depth: nat)
    decreases 66 - depth, 1
  {
    && depth <= MAX_DEPTH
    && exists k {:trigger node[k]} ::
         k in node && ShowsAt(k, node[k], strict || EmptyRequired(node), defs, depth)
  }

  predicate ShowsAt(k: string, v: Json, strict: bool, defs: Schema, depth: nat)
    requires depth <= MAX_DEPTH
    decreases 66 - depth, 0
  {
    match KindOf(k)
    case Reference =>
      v.Str? && v.s != "" && ResolveRef(v.s, defs).Some? && Shows(ResolveRef(v.s, defs).value.0, strict, defs, depth + 1)
    case AllOf =>
      v.Arr? && exists i {:trigger v.elems[i]} :: 0 <= i < |v.elems| && v.elems[i].Obj? && Shows(v.elems[i].fields, strict, defs, depth + 1)
    case Required => !strict && v.Arr? && v.elems != []
    case _ => Leaves(k, v)
  }

  /** The keyword leaves something in the compiled node. */
  predicate Kept(k: string, v: Json, defs: Schema, depth: nat) {
    match KindOf(k)
    case Reference => v.Str? && v.s != "" && ResolveRef(v.s, defs).Some?
    case AllOf =>
      v.Arr? && exists i {:trigger v.elems[i]} :: 0 <= i < |v.elems| && v.elems[i].Obj? && Shows(v.elems[i].fields, false, defs, depth + 1)
    case Required => v.Arr?
    case _ => Leaves(k, v)
  }

  predicate Keeps(node: Schema, defs: Schema, depth: nat) {
    exists k {:trigger Kept(k, node[k], defs, depth)} :: k in node && Kept(k, node[k], defs, depth)
  }

  /**
   * References resolve to what they mean and are acyclic, expansion stays within the depth,
   * every node keeps a keyword, anyOf and oneOf hold objects only, and there are no tuple items and
   * no additionalProperties.
   */
  ghost predicate Supported(node: Schema, m: Meaning, defs: Schema, stack: seq<string>, depth: nat)
    decreases 66 - depth, 1
  {
    && depth <= MAX_DEPTH && Keeps(node, defs, depth)
    && forall k {:trigger SupportedAt(k, node[k], m, defs, stack, depth)} {:trigger node[k]} :: k in node ==>
         SupportedAt(k, node[k], m, defs, stack, depth)
  }

  ghost predicate SupportedAt(k: string, v: Json, m: Meaning, defs: Schema, stack: seq<string>, depth: nat)
    requires depth <= MAX_DEPTH
    decreases 66 - depth, 0
  {
    match KindOf(k)
    case Reference =>
      v.Str? && v.s != "" ==>
        (match ResolveRef(v.s, defs)
         case None => m.refs(v.s) == None
         case Some((target, name)) =>
           m.refs(v.s) == Some(target) && name !in stack && Supported(target, m, defs, stack + [name], depth + 1))
    case OneOf => v.Arr? ==> forall i {:trigger v.elems[i]} :: 0 <= i < |v.elems| ==> v.elems[i].Obj? && Supported(v.elems[i].fields, m, defs, stack, depth + 1)
    case AnyOf => v.Arr? ==> forall i {:trigger v.elems[i]} :: 0 <= i < |v.elems| ==> v.elems[i].Obj? && Supported(v.elems[i].fields, m, defs, stack, depth + 1)
    case AllOf => v.Arr? ==> forall i {:trigger v.elems[i]} :: 0 <= i < |v.elems| && v.elems[i].Obj? ==> Supported(v.elems[i].fields, m, defs, stack, depth + 1)
    case Properties =>
      v.Obj? ==> forall n {:trigger v.fields[n]} :: n in v.fields && v.fields[n].Obj? ==> Supported(v.fields[n].fields, m, defs, stack, depth + 1)
    case Items => !v.Arr? && (v.Obj? ==> Supported(v.fields, m, defs, stack, depth + 1))
    case Additional => false
    case Unknown => k != "prefixItems"
    case _ => true
  }

  // ----- a supported node never falls back to the bare object

  /** An entry that merging into another node cannot lose. */
  predicate Counts(k: string, v: Json, strict: bool) {
    k != "required" || (!strict && v.Arr? && v.elems != [])
  }

  predicate Visible(out: Schema, strict: bool) {
    exists k {:trigger Counts(k, out[k], strict)} :: k in out && Counts(k, out[k], strict)
  }

  /** No required list is empty. */
  predicate ReqOk(out: Schema) {
    "required" in out ==> out["required"].Arr? && out["required"].elems != []
  }

  /** A node without the fallback: its own keywords over those of its target. */
  function Uncut(node: Schema, e: Env, s: Site): Schema
    requires s.depth <= MAX_DEPTH
  {
    var own := Siblings(node, e, s, e.visit(s.path, node.Keys));
    if TargetOf(node, e).None? then own
    else Node(TargetOf(node, e).value.0, e, Through(s, TargetOf(node, e).value.1)) + own
  }

  lemma TargetSupported(node: Schema, e: Env, s: Site, m: Meaning)
    requires Supported(node, m, e.defs, s.stack, s.depth) && TargetOf(node, e).Some?
    ensures var t := TargetOf(node, e).value;
            && t.1 !in s.stack && Supported(t.0, m, e.defs, s.stack + [t.1], s.depth + 1)
            && "$ref" in node && node["$ref"].Str? && node["$ref"].s != "" && m.refs(node["$ref"].s) == Some(t.0)
  {
    hide KindOf, ResolveRef, Keeps, Supported;
    Kinds();
    assert SupportedAt("$ref", node["$ref"], m, e.defs, s.stack, s.depth) by { SupportedKey(node, m, e.defs, s.stack, s.depth, "$ref"); }
  }

  lemma SupportedKey(node: Schema, m: Meaning, defs: Schema, stack: seq<string>, depth: nat, k: string)
    requires Supported(node, m, defs, stack, depth) && k in node
    ensures depth <= MAX_DEPTH && SupportedAt(k, node[k], m, defs, stack, depth)
  {
    hide SupportedAt, Keeps;
  }

  lemma MergedCounts(k: string, old0: Option<Json>, v: Json, strict: bool)
    requires old0.Some? && Counts(k, old0.value, strict)
    ensures MergedValue(k, old0, v).Some? && Counts(k, MergedValue(k, old0, v).value, strict)
  {
    hide Union;
    if k == "required" {
      UnionMembers(Elems(old0), Elems(Some(v)), old0.value.elems[0]);
    }
  }

  lemma MergedCountsToo(k: string, old0: Option<Json>, v: Json, h: nat, strict: bool)
    requires TidyAt(k, v, h) && Counts(k, v, strict)
    ensures MergedValue(k, old0, v).Some? && Counts(k, MergedValue(k, old0, v).value, strict)
  {
    hide KindOf, Union;
    Kinds();
    if k == "required" {
      UnionMembers(Elems(old0), v.elems, v.elems[0]);
    } else if k == "properties" {
      var n :| n in v.fields;
      assert n in FieldsOf(Some(v)) + FieldsOf(old0);
    }
  }

  lemma MergedStaysVisible(dst: Schema, src: Schema, strict: bool)
    requires Visible(dst, strict)
    ensures Visible(Merged(dst, src), strict)
  {
    hide MergedValue, Counts;
    var k :| k in dst && Counts(k, dst[k], strict);
    if k in src {
      MergedCounts(k, At(dst, k), src[k], strict);
    }
    assert k in Merged(dst, src) && Counts(k, Merged(dst, src)[k], strict);
  }

  lemma MergedVisible(dst: Schema, src: Schema, h: nat, strict: bool)
    requires Visible(src, strict) && Clean(src, h)
    ensures Visible(Merged(dst, src), strict)
  {
    hide MergedValue, TidyAt, Counts;
    var k :| k in src && Counts(k, src[k], strict);
    TidyGet(src, k, h);
    MergedCountsToo(k, At(dst, k), src[k], h, strict);
    assert k in Merged(dst, src) && Counts(k, Merged(dst, src)[k], strict);
  }

  lemma MergedReqOk(dst: Schema, src: Schema)
    requires ReqOk(dst)
    ensures ReqOk(Merged(dst, src))
  {
    hide Union;
    if "required" in dst && "required" in src {
      MergedCounts("required", At(dst, "required"), src["required"], false);
    }
  }

  lemma {:induction false} MergeAllReqOk(out: Schema, members: seq<Json>, e: Env, s: Site)
    requires s.depth <= MAX_DEPTH && ReqOk(out)
    ensures ReqOk(MergeAll(out, members, e, s))
    decreases |members|
  {
    hide Node, Merged, ReqOk;
    if members != [] {
      var n := |members| - 1;
      MergeAllReqOk(out, members[..n], e, s);
      if members[n].Obj? {
        MergedReqOk(MergeAll(out, members[..n], e, s), Node(members[n].fields, e, Below(s, AtMember("allOf", n))));
      }
    }
  }

  lemma {:induction false} SiblingsReqOk(node: Schema, e: Env, s: Site, keys: seq<string>)
    requires s.depth <= MAX_DEPTH && !EmptyRequired(node)
    ensures ReqOk(Siblings(node, e, s, keys))
    decreases |keys|
  {
    hide Keyword, ReqOk;
    if keys == [] {
      assert ReqOk(map[]) by { NothingReqOk(); }
    } else {
      var before, key := Siblings(node, e, s, keys[..|keys| - 1]), keys[|keys| - 1];
      SiblingsReqOk(node, e, s, keys[..|keys| - 1]);
      if key in node {
        KeywordReqOk(before, key, node[key], e, s);
      }
    }
  }

  lemma NothingReqOk()
    ensures ReqOk(map[])
  {
  }

  lemma KeywordReqOk(out: Schema, key: string, value: Json, e: Env, s: Site)
    requires s.depth <= MAX_DEPTH && ReqOk(out) && !(key == "required" && value == Arr([]))
    ensures ReqOk(Keyword(out, key, value, e, s))
  {
    hide KindOf, Node, Converted, Props, MergeAll;
    Kinds();
    if KindOf(key) == AllOf && value.Arr? {
      MergeAllReqOk(out, value.elems, e, s);
    }
  }

  /** What counts stays: only an empty required list could take it away. */
  lemma {:induction false} MergeAllStays(out: Schema, members: seq<Json>, e: Env, s: Site, strict: bool)
    requires s.depth <= MAX_DEPTH && Visible(out, strict)
    ensures Visible(MergeAll(out, members, e, s), strict)
    decreases |members|
  {
    hide Node, Merged, Visible;
    if members != [] {
      var n := |members| - 1;
      MergeAllStays(out, members[..n], e, s, strict);
      if members[n].Obj? {
        MergedStaysVisible(MergeAll(out, members[..n], e, s), Node(members[n].fields, e, Below(s, AtMember("allOf", n))), strict);
      }
    }
  }

  lemma PutStays(out: Schema, k: string, v: Json, strict: bool)
    requires Visible(out, strict) && (strict || Counts(k, v, strict))
    ensures Visible(out[k := v], strict)
  {
    var j :| j in out && Counts(j, out[j], strict);
    if j == k {
      assert Counts(k, out[k := v][k], strict);
    } else {
      assert out[k := v][j] == out[j];
    }
  }

  lemma KeywordStays(out: Schema, key: string, value: Json, e: Env, s: Site, strict: bool)
    requires s.depth <= MAX_DEPTH && Visible(out, strict) && (strict || !(key == "required" && value == Arr([])))
    ensures Visible(Keyword(out, key, value, e, s), strict)
  {
    hide KindOf, Node, Converted, Props, MergeAll, Visible;
    Kinds();
    match KindOf(key)
    case OneOf => OtherStays(out, "anyOf", strict);
    case AnyOf => OtherStays(out, "anyOf", strict);
    case AllOf =>
      if value.Arr? {
        MergeAllStays(out, value.elems, e, s, strict);
      }
    case Const => OtherStays(out, "enum", strict);
    case Properties => OtherStays(out, "properties", strict);
    case Items => OtherStays(out, "items", strict);
    case Required =>
      if value.Arr? {
        PutStays(out, key, value, strict);
      }
    case _ => OtherStays(out, key, strict);
  }

  lemma OtherStays(out: Schema, k: string, strict: bool)
    requires Visible(out, strict) && k != "required"
    ensures forall v {:trigger out[k := v]} :: Visible(out[k := v], strict)
  {
    hide Visible;
    forall v {:trigger out[k := v]}
      ensures Visible(out[k := v], strict)
    {
      PutStays(out, k, v, strict);
    }
  }

  lemma HoldsKey(out: Schema, k: string, strict: bool)
    requires k in out && Counts(k, out[k], strict)
    ensures Visible(out, strict)
  {
  }

  lemma NotEmpty(out: Schema, strict: bool)
    requires Visible(out, strict)
    ensures out != map[]
  {
    var k :| k in out && Counts(k, out[k], strict);
    assert k in out;
  }

  lemma {:induction false} UnionMembers(existing: seq<Json>, incoming: seq<Json>, r: Json)
    ensures r in Union(existing, incoming) <==> r in existing || r in incoming
  {
    if incoming != [] {
      UnionMembers(existing, incoming[..|incoming| - 1], r);
    }
  }

  /** Nothing that is there already moves, and what comes is new. */
  lemma {:induction false} UnionExtends(existing: seq<Json>, incoming: seq<Json>)
    ensures existing <= Union(existing, incoming)
    ensures forall i, j :: |existing| <= j < |Union(existing, incoming)| && 0 <= i < j ==> Union(existing, incoming)[i] != Union(existing, incoming)[j]
  {
    if incoming != [] {
      UnionExtends(existing, incoming[..|incoming| - 1]);
    }
  }

  /**
   * What a merge holds: every property of both sides, the first side's schema winning; exactly the
   * required names of both, the first side's first and no new one twice; and of any other keyword the
   * first side's value.
   */
  lemma MergedHas(dst: Schema, src: Schema)
    ensures var out := Merged(dst, src);
            var props, mine, theirs := FieldsOf(At(out, "properties")), FieldsOf(At(dst, "properties")), FieldsOf(At(src, "properties"));
            var req := Elems(At(out, "required"));
            && props.Keys == mine.Keys + theirs.Keys
            && (forall n :: n in props ==> props[n] == if n in mine then mine[n] else theirs[n])
            && (forall r :: r in req <==> r in Elems(At(dst, "required")) || r in Elems(At(src, "required")))
            && Elems(At(dst, "required")) <= req
            && (forall i, j :: |Elems(At(dst, "required"))| <= j < |req| && 0 <= i < j ==> req[i] != req[j])
            && (forall k :: k != "properties" && k != "required" ==> At(out, k) == if At(dst, k).Some? then At(dst, k) else At(src, k))
  {
    hide Union;
    var mine, theirs := FieldsOf(At(dst, "properties")), FieldsOf(At(src, "properties"));
    NothingJoined(theirs, mine);
    forall r
      ensures r in Union(Elems(At(dst, "required")), Elems(At(src, "required"))) <==>
              r in Elems(At(dst, "required")) || r in Elems(At(src, "required"))
    {
      UnionMembers(Elems(At(dst, "required")), Elems(At(src, "required")), r);
    }
    UnionExtends(Elems(At(dst, "required")), Elems(At(src, "required")));
  }

  lemma NothingJoined(a: Schema, b: Schema)
    ensures a + b == map[] ==> a == map[] && b == map[]
  {
    assert forall k :: k in a ==> k in a + b;
    assert forall k :: k in b ==> k in a + b;
  }

  predicate MemberHas(members: seq<Json>, e: Env, s: Site, i: nat, n: string)
    requires s.depth <= MAX_DEPTH && i < |members|
  {
    members[i].Obj? && n in FieldsOf(At(Node(members[i].fields, e, Below(s, AtMember("allOf", i))), "properties"))
  }

  predicate SomeMemberHas(members: seq<Json>, e: Env, s: Site, n: string)
    requires s.depth <= MAX_DEPTH
  {
    exists i :: 0 <= i < |members| && MemberHas(members, e, s, i, n)
  }

  lemma SomeMemberSnoc(members: seq<Json>, e: Env, s: Site, n: string)
    requires s.depth <= MAX_DEPTH && members != []
    ensures var k := |members| - 1; SomeMemberHas(members, e, s, n) <==> SomeMemberHas(members[..k], e, s, n) || MemberHas(members, e, s, k, n)
  {
    hide Node;
    var k := |members| - 1;
    assert forall i :: 0 <= i < k ==> (MemberHas(members[..k], e, s, i, n) <==> MemberHas(members, e, s, i, n));
  }

  /** All members of an allOf count: the compiled node has the properties of every one of them. */
  lemma {:induction false} AllOfCollects(out: Schema, members: seq<Json>, e: Env, s: Site, n: string)
    requires s.depth <= MAX_DEPTH
    ensures n in FieldsOf(At(MergeAll(out, members, e, s), "properties")) <==>
            n in FieldsOf(At(out, "properties")) || SomeMemberHas(members, e, s, n)
    decreases |members|
  {
    hide Node, Merged, MergedValue, SomeMemberHas;
    if members == [] {
      assert !SomeMemberHas(members, e, s, n) by { NoMember(e, s, n); }
    } else {
      var k := |members| - 1;
      AllOfCollects(out, members[..k], e, s, n);
      SomeMemberSnoc(members, e, s, n);
      if members[k].Obj? {
        MergedHas(MergeAll(out, members[..k], e, s), Node(members[k].fields, e, Below(s, AtMember("allOf", k))));
      }
    }
  }

  lemma NoMember(e: Env, s: Site, n: string)
    requires s.depth <= MAX_DEPTH
    ensures !SomeMemberHas([], e, s, n)
  {
  }

  lemma MergedGrows(dst: Schema, src: Schema)
    requires dst != map[]
    ensures Merged(dst, src) != map[]
  {
    hide MergedValue;
    var k :| k in dst;
    if k in src {
      MergedKeeps(k, At(dst, k), src[k]);
    }
    assert k in Merged(dst, src);
  }

  lemma {:induction false} MergeAllGrows(out: Schema, members: seq<Json>, e: Env, s: Site)
    requires s.depth <= MAX_DEPTH && out != map[]
    ensures MergeAll(out, members, e, s) != map[]
    decreases |members|
  {
    hide Node, Merged;
    if members != [] {
      var n := |members| - 1;
      MergeAllGrows(out, members[..n], e, s);
      if members[n].Obj? {
        MergedGrows(MergeAll(out, members[..n], e, s), Node(members[n].fields, e, Below(s, AtMember("allOf", n))));
      }
    }
  }

  lemma KeywordGrows(out: Schema, key: string, value: Json, e: Env, s: Site)
    requires s.depth <= MAX_DEPTH && out != map[]
    ensures Keyword(out, key, value, e, s) != map[]
  {
    hide KindOf, Node, Converted, Props, MergeAll;
    if KindOf(key) == AllOf && value.Arr? {
      MergeAllGrows(out, value.elems, e, s);
    }
  }

  lemma BranchLands(out: Schema, key: string, value: Json, e: Env, s: Site, m: Meaning)
    requires s.depth <= MAX_DEPTH && SupportedAt(key, value, m, e.defs, s.stack, s.depth) && Leaves(key, value)
    requires KindOf(key) == OneOf || KindOf(key) == AnyOf
    ensures Visible(Keyword(out, key, value, e, s), true)
  {
    hide KindOf, Node, Converted, Supported, Visible;
    ConvertedAll(value.elems, key, e, s);
    assert Keyword(out, key, value, e, s) == out["anyOf" := Arr(Converted(value.elems, key, e, s))];
    HoldsKey(Keyword(out, key, value, e, s), "anyOf", true);
  }

  lemma LeafLands(out: Schema, key: string, value: Json, e: Env, s: Site, m: Meaning)
    requires s.depth <= MAX_DEPTH && SupportedAt(key, value, m, e.defs, s.stack, s.depth) && Leaves(key, value)
    ensures Visible(Keyword(out, key, value, e, s), true)
  {
    hide KindOf, Node, Converted, Props, Supported, Visible;
    Kinds();
    match KindOf(key)
    case OneOf => BranchLands(out, key, value, e, s, m);
    case AnyOf => BranchLands(out, key, value, e, s, m);
    case Properties =>
      var n :| n in value.fields && value.fields[n].Obj?;
      PropsAt(value.fields, e, s, n);
      assert Props(value.fields, e, s) != map[];
      HoldsKey(Keyword(out, key, value, e, s), "properties", true);
    case Const => HoldsKey(Keyword(out, key, value, e, s), "enum", true);
    case Items => HoldsKey(Keyword(out, key, value, e, s), "items", true);
    case Enum => HoldsKey(Keyword(out, key, value, e, s), key, true);
    case Ordering => HoldsKey(Keyword(out, key, value, e, s), key, true);
    case Plain => HoldsKey(Keyword(out, key, value, e, s), key, true);
    case _ =>
  }

  /** A node that shows compiles to something that merging cannot lose, in every order of visits. */
  lemma {:induction false} NodeShows(node: Schema, e: Env, s: Site, m: Meaning, strict: bool)
    requires Supported(node, m, e.defs, s.stack, s.depth) && Shows(node, strict, e.defs, s.depth) && AnyOrder(e)
    ensures Visible(Node(node, e, s), strict)
    decreases 66 - s.depth, 3, 0
  {
    hide Siblings, Supported, SupportedAt, ShowsAt, AnyOrder, ResolveRef, KindOf, Visible, ReqOk;
    Kinds();
    var keys, inner := e.visit(s.path, node.Keys), strict || EmptyRequired(node);
    var own := Siblings(node, e, s, keys);
    var k :| k in node && ShowsAt(k, node[k], inner, e.defs, s.depth);
    if k == "$ref" {
      RefShows(node, e, s, inner);
      TargetSupported(node, e, s, m);
      var t := TargetOf(node, e).value;
      NodeShows(t.0, e, Through(s, t.1), m, inner);
      if !inner {
        SiblingsReqOk(node, e, s, keys);
      }
      OverlayVisible(Node(t.0, e, Through(s, t.1)), own, inner);
      Looser(Node(t.0, e, Through(s, t.1)) + own, inner, strict);
    } else {
      VisitedKey(e, s.path, node, k);
      SiblingsShow(node, e, s, m, keys, k, inner);
      Looser(own, inner, strict);
      if TargetOf(node, e).Some? {
        TargetSupported(node, e, s, m);
        var t := TargetOf(node, e).value;
        OverlayShown(Node(t.0, e, Through(s, t.1)), own, strict);
      }
    }
    ShownNode(node, e, s, strict);
  }

  lemma RefShows(node: Schema, e: Env, s: Site, strict: bool)
    requires s.depth <= MAX_DEPTH && "$ref" in node && ShowsAt("$ref", node["$ref"], strict, e.defs, s.depth)
    ensures TargetOf(node, e).Some? && Shows(TargetOf(node, e).value.0, strict, e.defs, s.depth + 1)
  {
    hide KindOf, ResolveRef, Shows;
    Kinds();
  }

  lemma OverlayVisible(under: Schema, over: Schema, strict: bool)
    requires Visible(under, strict) && (strict || ReqOk(over))
    ensures Visible(under + over, strict)
  {
    var k :| k in under && Counts(k, under[k], strict);
    HoldsKey(under + over, k, strict);
  }

  lemma OverlayShown(under: Schema, over: Schema, strict: bool)
    requires Visible(over, strict)
    ensures Visible(under + over, strict)
  {
    var k :| k in over && Counts(k, over[k], strict);
    HoldsKey(under + over, k, strict);
  }

  lemma Looser(out: Schema, inner: bool, strict: bool)
    requires Visible(out, inner) && (strict ==> inner)
    ensures Visible(out, strict)
  {
    var k :| k in out && Counts(k, out[k], inner);
    HoldsKey(out, k, strict);
  }

  /** What is visible before the fallback stays. */
  lemma ShownNode(node: Schema, e: Env, s: Site, strict: bool)
    requires s.depth <= MAX_DEPTH && (TargetOf(node, e).Some? ==> TargetOf(node, e).value.1 !in s.stack)
    requires Visible(Uncut(node, e, s), strict)
    ensures Node(node, e, s) == Uncut(node, e, s)
  {
    hide Siblings, TargetOf, Visible;
    NotEmpty(Uncut(node, e, s), strict);
  }

  lemma {:induction false} SiblingsShow(node: Schema, e: Env, s: Site, m: Meaning, keys: seq<string>, k: string, strict: bool)
    requires Supported(node, m, e.defs, s.stack, s.depth) && AnyOrder(e) && (EmptyRequired(node) ==> strict)
    requires s.depth <= MAX_DEPTH && k in node && k in keys && ShowsAt(k, node[k], strict, e.defs, s.depth) && KindOf(k) != Reference
    ensures Visible(Siblings(node, e, s, keys), strict)
    decreases 66 - s.depth, 2, |keys|
  {
    hide Keyword, Supported, SupportedAt, ShowsAt, KindOf, Visible, AnyOrder;
    var n := |keys| - 1;
    var before := Siblings(node, e, s, keys[..n]);
    if keys[n] == k {
      SupportedKey(node, m, e.defs, s.stack, s.depth, k);
      KeywordShows(before, k, node[k], e, s, m, strict);
    } else {
      SiblingsShow(node, e, s, m, keys[..n], k, strict);
      if keys[n] in node {
        KeywordStays(before, keys[n], node[keys[n]], e, s, strict);
      }
    }
  }

  lemma {:induction false} KeywordShows(out: Schema, key: string, value: Json, e: Env, s: Site, m: Meaning, strict: bool)
    requires s.depth <= MAX_DEPTH && SupportedAt(key, value, m, e.defs, s.stack, s.depth) && AnyOrder(e)
    requires ShowsAt(key, value, strict, e.defs, s.depth) && KindOf(key) != Reference
    ensures Visible(Keyword(out, key, value, e, s), strict)
    decreases 66 - s.depth, 1, 0
  {
    hide Supported, Shows, AnyOrder, KindOf, Visible, MergeAll, Leaves, Props, Converted, Node;
    Kinds();
    if KindOf(key) == AllOf {
      var i :| 0 <= i < |value.elems| && value.elems[i].Obj? && Shows(value.elems[i].fields, strict, e.defs, s.depth + 1);
      MergeAllShows(out, value.elems, e, s, m, i, strict);
    } else if KindOf(key) == Required {
      HoldsKey(out[key := value], key, strict);
    } else {
      LeafLands(out, key, value, e, s, m);
      Looser(Keyword(out, key, value, e, s), true, strict);
    }
  }

  lemma {:induction false} MergeAllShows(out: Schema, members: seq<Json>, e: Env, s: Site, m: Meaning, i: nat, strict: bool)
    requires s.depth <= MAX_DEPTH && AnyOrder(e) && i < |members| && members[i].Obj? && Shows(members[i].fields, strict, e.defs, s.depth + 1)
    requires forall j {:trigger members[j]} :: 0 <= j < |members| && members[j].Obj? ==> Supported(members[j].fields, m, e.defs, s.stack, s.depth + 1)
    ensures Visible(MergeAll(out, members, e, s), strict)
    decreases 66 - s.depth, 0, |members|
  {
    hide Node, Merged, Supported, Clean, Shows, Visible, AnyOrder;
    var n := |members| - 1;
    var before, below := MergeAll(out, members[..n], e, s), Below(s, AtMember("allOf", n));
    if i < n {
      MergeAllShows(out, members[..n], e, s, m, i, strict);
      if members[n].Obj? {
        MergedStaysVisible(before, Node(members[n].fields, e, below), strict);
      }
    } else {
      NodeShows(members[n].fields, e, below, m, strict);
      NodeIsClean(members[n].fields, e, below);
      MergedVisible(before, Node(members[n].fields, e, below), MAX_DEPTH - s.depth, strict);
    }
  }

  lemma KeptStays(out: Schema, key: string, value: Json, e: Env, s: Site, m: Meaning)
    requires s.depth <= MAX_DEPTH && SupportedAt(key, value, m, e.defs, s.stack, s.depth) && AnyOrder(e)
    requires Kept(key, value, e.defs, s.depth) && KindOf(key) != Reference
    ensures Keyword(out, key, value, e, s) != map[]
  {
    hide KindOf, MergeAll, Supported, Shows, Visible, AnyOrder, Leaves, Props, Converted, Node;
    if KindOf(key) == AllOf {
      var i :| 0 <= i < |value.elems| && value.elems[i].Obj? && Shows(value.elems[i].fields, false, e.defs, s.depth + 1);
      MergeAllShows(out, value.elems, e, s, m, i, false);
      NotEmpty(Keyword(out, key, value, e, s), false);
    } else if KindOf(key) == Required {
      assert key in Keyword(out, key, value, e, s);
    } else {
      LeafLands(out, key, value, e, s, m);
      NotEmpty(Keyword(out, key, value, e, s), true);
    }
  }

  lemma PropsAt(props: Schema, e: Env, s: Site, n: string)
    requires s.depth <= MAX_DEPTH && n in props && props[n].Obj?
    ensures n in Props(props, e, s) && Props(props, e, s)[n] == Obj(Node(props[n].fields, e, Below(s, AtProperty(n))))
  {
    hide Node;
  }

  /** Members that are all objects are converted one by one. */
  lemma {:induction false} ConvertedAll(members: seq<Json>, key: string, e: Env, s: Site)
    requires s.depth <= MAX_DEPTH && forall i {:trigger members[i]} :: 0 <= i < |members| ==> members[i].Obj?
    ensures |Converted(members, key, e, s)| == |members|
    ensures forall i {:trigger Converted(members, key, e, s)[i]} :: 0 <= i < |members| ==>
              Converted(members, key, e, s)[i] == Obj(Node(members[i].fields, e, Below(s, AtMember(key, i))))
    decreases |members|
  {
    hide Node;
    if members != [] {
      ConvertedAll(members[..|members| - 1], key, e, s);
    }
  }

  lemma {:induction false} SiblingsKeep(node: Schema, e: Env, s: Site, m: Meaning, keys: seq<string>, k: string)
    requires Supported(node, m, e.defs, s.stack, s.depth) && AnyOrder(e) && k in node && k in keys
    requires Kept(k, node[k], e.defs, s.depth) && KindOf(k) != Reference
    ensures s.depth <= MAX_DEPTH && Siblings(node, e, s, keys) != map[]
    decreases |keys|
  {
    hide Keyword, Supported, SupportedAt, Kept, KindOf, AnyOrder;
    SupportedKey(node, m, e.defs, s.stack, s.depth, k);
    var n := |keys| - 1;
    var before := Siblings(node, e, s, keys[..n]);
    if keys[n] == k {
      KeptStays(before, k, node[k], e, s, m);
    } else {
      SiblingsKeep(node, e, s, m, keys[..n], k);
      if keys[n] in node {
        KeywordGrows(before, keys[n], node[keys[n]], e, s);
      }
    }
  }

  /** A supported node compiles to its own keywords over those of its target; the fallback is never taken. */
  lemma NoFallback(node: Schema, e: Env, s: Site, m: Meaning)
    requires Supported(node, m, e.defs, s.stack, s.depth) && AnyOrder(e)
    ensures s.depth <= MAX_DEPTH && Node(node, e, s) == Uncut(node, e, s)
  {
    hide Siblings, SupportedAt, AnyOrder, ResolveRef, Kept, KindOf, Clean;
    var own := Siblings(node, e, s, e.visit(s.path, node.Keys));
    if TargetOf(node, e).Some? {
      TargetSupported(node, e, s, m);
      var t := TargetOf(node, e).value;
      NodeIsClean(t.0, e, Through(s, t.1));
      OverlayNonEmpty(Node(t.0, e, Through(s, t.1)), own, MAX_DEPTH - s.depth);
    } else {
      var k :| k in node && Kept(k, node[k], e.defs, s.depth);
      NotKeptRef(node, e, k, s.depth);
      VisitedKey(e, s.path, node, k);
      SiblingsKeep(node, e, s, m, e.visit(s.path, node.Keys), k);
    }
  }

  lemma OverlayNonEmpty(m: Schema, over: Schema, h: nat)
    requires Clean(m, h)
    ensures m + over != map[]
  {
    hide Tidy;
    var k :| k in m;
    assert k in m + over;
  }

  lemma NotKeptRef(node: Schema, e: Env, k: string, depth: nat)
    requires TargetOf(node, e).None? && k in node && Kept(k, node[k], e.defs, depth)
    ensures KindOf(k) != Reference
  {
    hide ResolveRef;
  }

  lemma VisitedKey(e: Env, path: seq<Place>, node: Schema, k: string)
    requires AnyOrder(e) && k in node
    ensures k in e.visit(path, node.Keys)
  {
    assert Caches.Visits(e.visit(path, node.Keys), node.Keys);
    assert k in Caches.Elems(e.visit(path, node.Keys));
  }

  // ----- weakening

  lemma MeetsPut(out: Schema, k: string, v: Json, x: Json, m: Meaning, g: nat)
    requires Meets(out, x, m, g) && Holds(k, v, x, m, g)
    ensures Meets(out[k := v], x, m, g)
  {
    hide Holds;
  }

  lemma MeetsOverlay(a: Schema, b: Schema, x: Json, m: Meaning, g: nat)
    requires Meets(a, x, m, g) && Meets(b, x, m, g)
    ensures Meets(a + b, x, m, g)
  {
    hide Holds;
  }

  lemma MeetsKey(node: Schema, k: string, x: Json, m: Meaning, f: nat)
    requires Meets(node, x, m, f) && k in node
    ensures Holds(k, node[k], x, m, f)
  {
    hide Holds;
  }

  /** What both schemas accept, their merge accepts. */
  lemma MergedMeets(dst: Schema, src: Schema, x: Json, m: Meaning, g: nat)
    requires Meets(dst, x, m, g) && Meets(src, x, m, g)
    ensures Meets(Merged(dst, src), x, m, g)
  {
    hide Holds, MergedValue;
    forall k | k in Merged(dst, src)
      ensures Holds(k, Merged(dst, src)[k], x, m, g)
    {
      if k in dst {
        MeetsKey(dst, k, x, m, g);
      }
      if k in src {
        MeetsKey(src, k, x, m, g);
        MergedHolds(k, At(dst, k), src[k], x, m, g);
      }
    }
  }

  lemma MergedHolds(k: string, old0: Option<Json>, v: Json, x: Json, m: Meaning, g: nat)
    requires Holds(k, v, x, m, g) && (old0.Some? ==> Holds(k, old0.value, x, m, g))
    ensures MergedValue(k, old0, v).Some? ==> Holds(k, MergedValue(k, old0, v).value, x, m, g)
  {
    hide Holds, KindOf, Union;
    if k == "properties" {
      PropertiesUnite(old0, v, x, m, g);
    } else if k == "required" {
      RequiredUnite(old0, v, x, m, g);
    }
  }

  lemma PropertiesUnite(old0: Option<Json>, v: Json, x: Json, m: Meaning, g: nat)
    requires Holds("properties", v, x, m, g) && (old0.Some? ==> Holds("properties", old0.value, x, m, g))
    ensures Holds("properties", Obj(FieldsOf(Some(v)) + FieldsOf(old0)), x, m, g)
  {
    hide KindOf, Allows;
    Kinds();
  }

  lemma RequiredUnite(old0: Option<Json>, v: Json, x: Json, m: Meaning, g: nat)
    requires Holds("required", v, x, m, g) && (old0.Some? ==> Holds("required", old0.value, x, m, g))
    ensures Holds("required", Arr(Union(Elems(old0), Elems(Some(v)))), x, m, g)
  {
    hide KindOf, Union;
    Kinds();
    var all := Union(Elems(old0), Elems(Some(v)));
    if x.Obj? {
      forall i | 0 <= i < |all| && all[i].Str?
        ensures all[i].s in x.fields
      {
        UnionMembers(Elems(old0), Elems(Some(v)), all[i]);
        if all[i] in Elems(old0) {
          var j :| 0 <= j < |Elems(old0)| && Elems(old0)[j] == all[i];
          assert old0.value.elems[j].Str?;
        } else {
          var j :| 0 <= j < |Elems(Some(v))| && Elems(Some(v))[j] == all[i];
          assert v.elems[j].Str?;
        }
      }
    }
  }

  /** Weakening of a node, at any place of the walk and for any order of visits. */
  lemma {:induction false} NodeWeakens(node: Schema, e: Env, s: Site, x: Json, m: Meaning, f: nat, g: nat)
    requires Supported(node, m, e.defs, s.stack, s.depth) && AnyOrder(e) && f + s.depth > MAX_DEPTH
    requires Meets(node, x, m, f)
    ensures Meets(Node(node, e, s), x, m, g)
    decreases 66 - s.depth, 3, 0
  {
    hide Siblings, Supported, AnyOrder, Meets, Holds, TargetOf, Node;
    NoFallback(node, e, s, m);
    SiblingsWeaken(node, e, s, e.visit(s.path, node.Keys), x, m, f, g);
    if TargetOf(node, e).Some? {
      TargetSupported(node, e, s, m);
      var t := TargetOf(node, e).value;
      MeetsKey(node, "$ref", x, m, f);
      FollowRef(node["$ref"], t.0, x, m, f);
      NodeWeakens(t.0, e, Through(s, t.1), x, m, f - 1, g);
      MeetsOverlay(Node(t.0, e, Through(s, t.1)), Siblings(node, e, s, e.visit(s.path, node.Keys)), x, m, g);
    }
  }

  lemma FollowRef(v: Json, target: Schema, x: Json, m: Meaning, f: nat)
    requires Holds("$ref", v, x, m, f) && v.Str? && v.s != "" && m.refs(v.s) == Some(target) && f > 0
    ensures Meets(target, x, m, f - 1)
  {
    hide Meets, KindOf;
    Kinds();
  }

  lemma {:induction false} SiblingsWeaken(node: Schema, e: Env, s: Site, keys: seq<string>, x: Json, m: Meaning, f: nat, g: nat)
    requires Supported(node, m, e.defs, s.stack, s.depth) && AnyOrder(e) && f + s.depth > MAX_DEPTH
    requires Meets(node, x, m, f)
    ensures s.depth <= MAX_DEPTH && Meets(Siblings(node, e, s, keys), x, m, g)
    decreases 66 - s.depth, 2, |keys|
  {
    hide Keyword, Supported, SupportedAt, AnyOrder, Meets, Holds;
    WithinDepth(node, m, e, s);
    if keys == [] {
      NothingMeets(x, m, g);
    } else {
      var before, key := Siblings(node, e, s, keys[..|keys| - 1]), keys[|keys| - 1];
      SiblingsWeaken(node, e, s, keys[..|keys| - 1], x, m, f, g);
      if key in node {
        SupportedKey(node, m, e.defs, s.stack, s.depth, key);
        MeetsKey(node, key, x, m, f);
        KeywordWeakens(before, key, node[key], e, s, x, m, f, g);
      }
    }
  }

  lemma WithinDepth(node: Schema, m: Meaning, e: Env, s: Site)
    requires Supported(node, m, e.defs, s.stack, s.depth)
    ensures s.depth <= MAX_DEPTH
  {
    hide SupportedAt, Keeps;
  }

  lemma NothingMeets(x: Json, m: Meaning, g: nat)
    ensures Meets(map[], x, m, g)
  {
  }

  lemma {:induction false} KeywordWeakens(out: Schema, key: string, value: Json, e: Env, s: Site, x: Json, m: Meaning, f: nat, g: nat)
    requires s.depth <= MAX_DEPTH && SupportedAt(key, value, m, e.defs, s.stack, s.depth) && AnyOrder(e) && f + s.depth > MAX_DEPTH
    requires Meets(out, x, m, g) && Holds(key, value, x, m, f)
    ensures Meets(Keyword(out, key, value, e, s), x, m, g)
    decreases 66 - s.depth, 1, 0
  {
    hide Supported, SupportedAt, AnyOrder, Meets, Holds, KindOf, Node, Converted, Props, MergeAll, WithAnyOf;
    match KindOf(key)
    case OneOf => AnyOfWeakens(out, key, value, e, s, x, m, f, g);
    case AnyOf => AnyOfWeakens(out, key, value, e, s, x, m, f, g);
    case AllOf =>
      if value.Arr? {
        AllOfParts(key, value, e, s, x, m, f);
        MergeAllWeakens(out, value.elems, e, s, x, m, f, g);
      }
    case Properties =>
      if value.Obj? && Props(value.fields, e, s) != map[] {
        PropertiesWeaken(key, value, e, s, x, m, f, g);
        MeetsPut(out, "properties", Obj(Props(value.fields, e, s)), x, m, g);
      }
    case Items =>
      NoTuple(key, value, e, s, m);
      if value.Obj? {
        ItemsWeaken(key, value, e, s, x, m, f, g);
        MeetsPut(out, "items", Obj(Node(value.fields, e, Below(s, AtItems))), x, m, g);
      }
    case _ =>
      ValueHolds(key, value, e, s, x, m, f, g);
      if KindOf(key) == Const {
        MeetsPut(out, "enum", Arr([value]), x, m, g);
      } else if KindOf(key) in {Required, Enum, Ordering, Plain} {
        MeetsPut(out, key, value, x, m, g);
      }
  }

  lemma NoTuple(key: string, value: Json, e: Env, s: Site, m: Meaning)
    requires s.depth <= MAX_DEPTH && SupportedAt(key, value, m, e.defs, s.stack, s.depth) && KindOf(key) == Items
    ensures !value.Arr?
  {
    hide KindOf, Supported;
  }

  /** Keywords without schemas mean the same at every depth; a constant is an enum of one. */
  lemma ValueHolds(key: string, value: Json, e: Env, s: Site, x: Json, m: Meaning, f: nat, g: nat)
    requires s.depth <= MAX_DEPTH && SupportedAt(key, value, m, e.defs, s.stack, s.depth) && Holds(key, value, x, m, f)
    ensures KindOf(key) != Additional
    ensures KindOf(key) == Const ==> Holds("enum", Arr([value]), x, m, g)
    ensures KindOf(key) in {Required, Enum, Ordering, Plain} ==> Holds(key, value, x, m, g)
  {
    hide KindOf, Supported;
    Kinds();
  }

  lemma {:induction false} AnyOfWeakens(out: Schema, key: string, value: Json, e: Env, s: Site, x: Json, m: Meaning, f: nat, g: nat)
    requires s.depth <= MAX_DEPTH && SupportedAt(key, value, m, e.defs, s.stack, s.depth) && AnyOrder(e) && f + s.depth > MAX_DEPTH
    requires KindOf(key) == OneOf || KindOf(key) == AnyOf
    requires Meets(out, x, m, g) && Holds(key, value, x, m, f)
    ensures Meets(WithAnyOf(out, key, value, e, s), x, m, g)
    decreases 66 - s.depth, 0, if value.Arr? then |value.elems| + 1 else 0
  {
    hide Supported, AnyOrder, Meets, KindOf, Node, Converted, Holds, SupportedAt;
    if value.Arr? {
      SomeBranch(key, value, e, s, x, m, f);
      ConvertedAll(value.elems, key, e, s);
      var i :| 0 <= i < |value.elems| && Allows(value.elems[i], x, m, f);
      var converted := Converted(value.elems, key, e, s);
      if g > 0 {
        NodeWeakens(value.elems[i].fields, e, Below(s, AtMember(key, i)), x, m, f - 1, g - 1);
      }
      assert Allows(converted[i], x, m, g);
      AnyOfHolds(converted, i, x, m, g);
      MeetsPut(out, "anyOf", Arr(converted), x, m, g);
    }
  }

  lemma SomeBranch(key: string, value: Json, e: Env, s: Site, x: Json, m: Meaning, f: nat)
    requires s.depth <= MAX_DEPTH && SupportedAt(key, value, m, e.defs, s.stack, s.depth) && Holds(key, value, x, m, f)
    requires value.Arr? && (KindOf(key) == OneOf || KindOf(key) == AnyOf)
    ensures exists i :: 0 <= i < |value.elems| && Allows(value.elems[i], x, m, f)
    ensures forall i {:trigger value.elems[i]} :: 0 <= i < |value.elems| ==>
              value.elems[i].Obj? && Supported(value.elems[i].fields, m, e.defs, s.stack, s.depth + 1)
  {
    hide Supported, Allows, KindOf;
    if KindOf(key) == OneOf {
      var i :| 0 <= i < |value.elems| && Allows(value.elems[i], x, m, f) &&
        forall j {:trigger value.elems[j]} :: 0 <= j < |value.elems| && j != i ==> !Allows(value.elems[j], x, m, f);
      assert Allows(value.elems[i], x, m, f);
    }
  }

  lemma AnyOfHolds(converted: seq<Json>, i: nat, x: Json, m: Meaning, g: nat)
    requires i < |converted| && Allows(converted[i], x, m, g)
    ensures Holds("anyOf", Arr(converted), x, m, g)
  {
    hide KindOf, Allows;
    Kinds();
    var v := Arr(converted);
    assert Allows(v.elems[i], x, m, g);
  }

  lemma AllOfParts(key: string, value: Json, e: Env, s: Site, x: Json, m: Meaning, f: nat)
    requires s.depth <= MAX_DEPTH && SupportedAt(key, value, m, e.defs, s.stack, s.depth) && Holds(key, value, x, m, f)
    requires value.Arr? && KindOf(key) == AllOf
    ensures forall i {:trigger value.elems[i]} :: 0 <= i < |value.elems| && value.elems[i].Obj? ==>
              Allows(value.elems[i], x, m, f) && Supported(value.elems[i].fields, m, e.defs, s.stack, s.depth + 1)
  {
    hide Supported, Allows, KindOf;
  }

  lemma {:induction false} MergeAllWeakens(out: Schema, members: seq<Json>, e: Env, s: Site, x: Json, m: Meaning, f: nat, g: nat)
    requires s.depth <= MAX_DEPTH && AnyOrder(e) && f + s.depth > MAX_DEPTH && Meets(out, x, m, g)
    requires forall i {:trigger members[i]} :: 0 <= i < |members| && members[i].Obj? ==>
               Allows(members[i], x, m, f) && Supported(members[i].fields, m, e.defs, s.stack, s.depth + 1)
    ensures Meets(MergeAll(out, members, e, s), x, m, g)
    decreases 66 - s.depth, 0, |members|
  {
    hide Node, Merged, Supported, AnyOrder, Meets;
    if members != [] {
      var n := |members| - 1;
      MergeAllWeakens(out, members[..n], e, s, x, m, f, g);
      if members[n].Obj? {
        var below := Below(s, AtMember("allOf", n));
        NodeWeakens(members[n].fields, e, below, x, m, f - 1, g);
        MergedMeets(MergeAll(out, members[..n], e, s), Node(members[n].fields, e, below), x, m, g);
      }
    }
  }

  lemma PropertyPart(key: string, value: Json, e: Env, s: Site, x: Json, m: Meaning, f: nat, n: string)
    requires s.depth <= MAX_DEPTH && SupportedAt(key, value, m, e.defs, s.stack, s.depth) && Holds(key, value, x, m, f)
    requires value.Obj? && KindOf(key) == Properties && n in value.fields && value.fields[n].Obj?
    ensures Supported(value.fields[n].fields, m, e.defs, s.stack, s.depth + 1)
    ensures x.Obj? && n in x.fields ==> Allows(value.fields[n], x.fields[n], m, f)
  {
    hide Supported, Allows, KindOf;
  }

  lemma {:induction false} PropertiesWeaken(key: string, value: Json, e: Env, s: Site, x: Json, m: Meaning, f: nat, g: nat)
    requires s.depth <= MAX_DEPTH && SupportedAt(key, value, m, e.defs, s.stack, s.depth) && AnyOrder(e) && f + s.depth > MAX_DEPTH
    requires value.Obj? && KindOf(key) == Properties && Holds(key, value, x, m, f)
    ensures Holds("properties", Obj(Props(value.fields, e, s)), x, m, g)
    decreases 66 - s.depth, 0, 0
  {
    hide Supported, SupportedAt, AnyOrder, Meets, KindOf, Node, Holds;
    var props := Props(value.fields, e, s);
    if x.Obj? {
      forall n | n in props && n in x.fields
        ensures Allows(props[n], x.fields[n], m, g)
      {
        PropertyPart(key, value, e, s, x, m, f, n);
        if g > 0 {
          NodeWeakens(value.fields[n].fields, e, Below(s, AtProperty(n)), x.fields[n], m, f - 1, g - 1);
        }
      }
    }
    PropertiesHold(props, x, m, g);
  }

  lemma PropertiesHold(props: Schema, x: Json, m: Meaning, g: nat)
    requires x.Obj? ==> forall n :: n in props && n in x.fields ==> Allows(props[n], x.fields[n], m, g)
    ensures Holds("properties", Obj(props), x, m, g)
  {
    hide KindOf, Allows;
    Kinds();
  }

  lemma ItemPart(key: string, value: Json, e: Env, s: Site, x: Json, m: Meaning, f: nat, i: nat)
    requires s.depth <= MAX_DEPTH && SupportedAt(key, value, m, e.defs, s.stack, s.depth) && Holds(key, value, x, m, f)
    requires value.Obj? && KindOf(key) == Items
    ensures Supported(value.fields, m, e.defs, s.stack, s.depth + 1)
    ensures x.Arr? && i < |x.elems| ==> Allows(value, x.elems[i], m, f)
  {
    hide Supported, Allows, KindOf;
  }

  lemma {:induction false} ItemsWeaken(key: string, value: Json, e: Env, s: Site, x: Json, m: Meaning, f: nat, g: nat)
    requires s.depth <= MAX_DEPTH && SupportedAt(key, value, m, e.defs, s.stack, s.depth) && AnyOrder(e) && f + s.depth > MAX_DEPTH
    requires value.Obj? && KindOf(key) == Items && Holds(key, value, x, m, f)
    ensures Holds("items", Obj(Node(value.fields, e, Below(s, AtItems))), x, m, g)
    decreases 66 - s.depth, 0, 0
  {
    hide Supported, SupportedAt, AnyOrder, Meets, KindOf, Node, Holds;
    var child := Obj(Node(value.fields, e, Below(s, AtItems)));
    if x.Arr? {
      forall i | 0 <= i < |x.elems|
        ensures Allows(child, x.elems[i], m, g)
      {
        ItemPart(key, value, e, s, x, m, f, i);
        if g > 0 {
          NodeWeakens(value.fields, e, Below(s, AtItems), x.elems[i], m, f - 1, g - 1);
        }
      }
    }
    ItemsHold(child, x, m, g);
  }

  lemma ItemsHold(child: Json, x: Json, m: Meaning, g: nat)
    requires child.Obj? && (x.Arr? ==> forall i :: 0 <= i < |x.elems| ==> Allows(child, x.elems[i], m, g))
    ensures Holds("items", child, x, m, g)
  {
    hide KindOf, Allows;
    Kinds();
  }

  // ----- enough fuel

  lemma {:induction false} SupportedStable(node: Schema, m: Meaning, defs: Schema, stack: seq<string>, depth: nat, x: Json, f: nat, f': nat)
    requires Supported(node, m, defs, stack, depth) && f + depth > MAX_DEPTH && f' + depth > MAX_DEPTH
    ensures Meets(node, x, m, f) <==> Meets(node, x, m, f')
    decreases 66 - depth, 2
  {
    hide SupportedAt, Keeps, Holds;
    forall k | k in node
      ensures Holds(k, node[k], x, m, f) <==> Holds(k, node[k], x, m, f')
    {
      HoldsStable(k, node[k], m, defs, stack, depth, x, f, f');
    }
  }

  lemma {:induction false} HoldsStable(k: string, v: Json, m: Meaning, defs: Schema, stack: seq<string>, depth: nat, x: Json, f: nat, f': nat)
    requires depth <= MAX_DEPTH && SupportedAt(k, v, m, defs, stack, depth) && f + depth > MAX_DEPTH && f' + depth > MAX_DEPTH
    ensures Holds(k, v, x, m, f) <==> Holds(k, v, x, m, f')
    decreases 66 - depth, 1
  {
    hide Supported, KindOf, ResolveRef, Allows, Meets;
    if KindOf(k) in {OneOf, AnyOf, AllOf} {
      BranchesStable(k, v, m, defs, stack, depth, x, f, f');
    } else if KindOf(k) == Properties {
      if v.Obj? && x.Obj? {
        forall n | n in v.fields && n in x.fields
          ensures Allows(v.fields[n], x.fields[n], m, f) <==> Allows(v.fields[n], x.fields[n], m, f')
        {
          AllowsStable(v.fields[n], m, defs, stack, depth, x.fields[n], f, f');
        }
      }
    } else if KindOf(k) == Items {
      if x.Arr? {
        forall i | 0 <= i < |x.elems|
          ensures Allows(v, x.elems[i], m, f) <==> Allows(v, x.elems[i], m, f')
        {
          AllowsStable(v, m, defs, stack, depth, x.elems[i], f, f');
        }
      }
    } else if KindOf(k) == Reference && v.Str? && v.s != "" && ResolveRef(v.s, defs).Some? {
      var t := ResolveRef(v.s, defs).value;
      SupportedStable(t.0, m, defs, stack + [t.1], depth + 1, x, f - 1, f' - 1);
    }
  }

  lemma {:induction false} BranchesStable(k: string, v: Json, m: Meaning, defs: Schema, stack: seq<string>, depth: nat, x: Json, f: nat, f': nat)
    requires depth <= MAX_DEPTH && SupportedAt(k, v, m, defs, stack, depth) && f + depth > MAX_DEPTH && f' + depth > MAX_DEPTH
    requires KindOf(k) in {OneOf, AnyOf, AllOf}
    ensures Holds(k, v, x, m, f) <==> Holds(k, v, x, m, f')
    decreases 66 - depth, 0, 1
  {
    hide Supported, KindOf, Allows, Meets;
    if v.Arr? {
      forall i {:trigger v.elems[i]} | 0 <= i < |v.elems|
        ensures Allows(v.elems[i], x, m, f) <==> Allows(v.elems[i], x, m, f')
      {
        AllowsStable(v.elems[i], m, defs, stack, depth, x, f, f');
      }
    }
  }

  lemma {:induction false} AllowsStable(v: Json, m: Meaning, defs: Schema, stack: seq<string>, depth: nat, x: Json, f: nat, f': nat)
    requires depth <= MAX_DEPTH && (v.Obj? ==> Supported(v.fields, m, defs, stack, depth + 1))
    requires f + depth > MAX_DEPTH && f' + depth > MAX_DEPTH
    ensures Allows(v, x, m, f) <==> Allows(v, x, m, f')
    decreases 66 - depth, 0, 0
  {
    hide Supported, Meets;
    if v.Obj? {
      SupportedStable(v.fields, m, defs, stack, depth + 1, x, f - 1, f' - 1);
    }
  }

  lemma {:induction false} CleanStable(node: Schema, h: nat, m: Meaning, x: Json, f: nat, f': nat)
    requires Tidy(node, h) && f >= h && f' >= h
    ensures Meets(node, x, m, f) <==> Meets(node, x, m, f')
    decreases h, 1
  {
    hide TidyAt, Holds;
    forall k | k in node
      ensures Holds(k, node[k], x, m, f) <==> Holds(k, node[k], x, m, f')
    {
      TidyGet(node, k, h);
      CleanHoldsStable(k, node[k], h, m, x, f, f');
    }
  }

  lemma {:induction false} CleanHoldsStable(k: string, v: Json, h: nat, m: Meaning, x: Json, f: nat, f': nat)
    requires TidyAt(k, v, h) && f >= h && f' >= h
    ensures Holds(k, v, x, m, f) <==> Holds(k, v, x, m, f')
    decreases h, 0
  {
    hide Tidy, KindOf, Meets;
    if KindOf(k) == AnyOf {
      forall i {:trigger v.elems[i]} | 0 <= i < |v.elems|
        ensures Allows(v.elems[i], x, m, f) <==> Allows(v.elems[i], x, m, f')
      {
        CleanStable(v.elems[i].fields, h - 1, m, x, f - 1, f' - 1);
      }
    } else if KindOf(k) == Properties && x.Obj? {
      forall n | n in v.fields && n in x.fields
        ensures Allows(v.fields[n], x.fields[n], m, f) <==> Allows(v.fields[n], x.fields[n], m, f')
      {
        CleanStable(v.fields[n].fields, h - 1, m, x.fields[n], f - 1, f' - 1);
      }
    } else if KindOf(k) == Items && x.Arr? {
      forall i | 0 <= i < |x.elems|
        ensures Allows(v, x.elems[i], m, f) <==> Allows(v, x.elems[i], m, f')
      {
        CleanStable(v.fields, h - 1, m, x.elems[i], f - 1, f' - 1);
      }
    }
  }

  /** What the document accepts, with fuel that a supported schema cannot exhaust. */
  ghost predicate Accepts(schema: Schema, x: Json, m: Meaning) {
    Meets(schema, x, m, MAX_DEPTH + 1)
  }

  /** Acceptance by a supported schema, and by any compiled one, does not depend on the fuel. */
  lemma FuelIsEnough(root: Schema, visit: (seq<Place>, set<string>) -> seq<string>, m: Meaning, x: Json, f: nat)
    requires f > MAX_DEPTH
    ensures Supported(root, m, Definitions(root), [], 0) ==> (Meets(root, x, m, f) <==> Accepts(root, x, m))
    ensures var out := Sanitized(Some(root), visit).value; Meets(out, x, m, f) <==> Accepts(out, x, m)
  {
    hide Supported, Meets, Node, Definitions, Tidy;
    if Supported(root, m, Definitions(root), [], 0) {
      SupportedStable(root, m, Definitions(root), [], 0, x, f, MAX_DEPTH + 1);
    }
    SanitizedIsClean(root, visit);
    CleanStable(Sanitized(Some(root), visit).value, MAX_DEPTH + 1, m, x, f, MAX_DEPTH + 1);
  }

  /**
   * Weakening is sound: every instance that a supported client schema accepts is accepted by the
   * compiled schema, for every order in which the maps are visited and every meaning of the
   * keywords that hold no schemas.
   */
  lemma SanitizingWeakens(root: Schema, visit: (seq<Place>, set<string>) -> seq<string>, m: Meaning, x: Json)
    requires AnyOrder(Env(map[], visit)) && Supported(root, m, Definitions(root), [], 0)
    requires Accepts(root, x, m)
    ensures Accepts(Sanitized(Some(root), visit).value, x, m)
  {
    hide Supported, Meets, Node, Definitions, AnyOrder;
    SameOrders(map[], Definitions(root), visit);
    NodeWeakens(root, Env(Definitions(root), visit), ROOT, x, m, MAX_DEPTH + 1, MAX_DEPTH + 1);
  }

  // ----- references: what they mean, and what the compiler finds

  function Entry(table: Schema, name: string): Option<Schema> {
    if '/' !in name && name in table && table[name].Obj? then Some(table[name].fields) else None
  }

  /** A local reference names an entry of the table it points into. */
  function Meant(root: Schema, ref: string): Option<Schema> {
    if AfterPrefix(ref, "#/$defs/").Some? then Entry(FieldsOf(At(root, "$defs")), AfterPrefix(ref, "#/$defs/").value)
    else if AfterPrefix(ref, "#/definitions/").Some? then
      Entry(FieldsOf(At(root, "definitions")), AfterPrefix(ref, "#/definitions/").value)
    else None
  }

  /** "definitions" has an entry of another value under a name that "$defs" also defines. */
  predicate Shadowed(root: Schema, ref: string) {
    AfterPrefix(ref, "#/$defs/").None? && AfterPrefix(ref, "#/definitions/").Some? &&
    var name := AfterPrefix(ref, "#/definitions/").value;
    var defs, definitions := FieldsOf(At(root, "$defs")), FieldsOf(At(root, "definitions"));
    name in defs && name in definitions && defs[name] != definitions[name]
  }

  /** A meaningful reference is resolved to what it means exactly when it is not shadowed by "$defs". */
  lemma ReferencesAgree(root: Schema, ref: string)
    requires Meant(root, ref).Some?
    ensures (ResolveRef(ref, Definitions(root)).Some? && ResolveRef(ref, Definitions(root)).value.0 == Meant(root, ref).value)
            <==> !Shadowed(root, ref)
  {
  }
}
