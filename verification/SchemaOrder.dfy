/** What a compiled node holds, and when the order in which its keywords are visited does not matter. */
module SchemaOrder {
  import opened Core
  import opened Schemas
  import opened SchemaLaws
  import opened SchemaMeaning
  import opened SchemaExact

  // ----- one node: its own keywords over those of its target

  /** The walk goes into the node: no cycle and no depth cut. */
  predicate Entered(node: Schema, e: Env, s: Site) {
    s.depth <= MAX_DEPTH && (TargetOf(node, e).Some? ==> TargetOf(node, e).value.1 !in s.stack)
  }

  /** The keyword `k` is what the node itself has to say at `at`. */
  predicate Own(node: Schema, e: Env, s: Site, k: string, at: string)
    requires s.depth <= MAX_DEPTH
  {
    k in node && KeyOf(k) == at && Landed(k, node[k], e, s).Some?
  }

  predicate Says(node: Schema, e: Env, s: Site, at: string)
    requires s.depth <= MAX_DEPTH
  {
    exists k :: k in node && Own(node, e, s, k, at)
  }

  /** Siblings under any complete order, place by place. */
  lemma SiblingsAt(node: Schema, e: Env, s: Site, at: string)
    requires s.depth <= MAX_DEPTH && Unclashed(node) && AnyOrder(e)
    ensures var own := Siblings(node, e, s, e.visit(s.path, node.Keys));
            && (forall k :: Own(node, e, s, k, at) ==> At(own, at) == Landed(k, node[k], e, s))
            && (!Says(node, e, s, at) ==> At(own, at) == None)
  {
    hide Landed, KeyOf, Unclashed, Siblings, AnyOrder;
    var keys := e.visit(s.path, node.Keys);
    EveryKeyLands(node, e, s, keys, at);
    forall k | k in node
      ensures k in keys
    {
      VisitedKey(e, s.path, node, k);
    }
    if !Says(node, e, s, at) {
      forall k | k in node && k in keys && KeyOf(k) == at
        ensures At(Siblings(node, e, s, keys), at) == None
      {
        assert !Own(node, e, s, k, at);
      }
    }
  }

  /**
   * A node that is entered, without allOf and without two keywords of one Gemini form, compiles for
   * every order of visits to its own keywords, each in its place, over those of its reference's
   * target; and to the bare object only if there is neither.
   */
  lemma NodeHolds(node: Schema, e: Env, s: Site, at: string)
    requires Entered(node, e, s) && Unclashed(node) && AnyOrder(e)
    ensures forall k :: Own(node, e, s, k, at) ==> At(Node(node, e, s), at) == Landed(k, node[k], e, s)
    ensures !Says(node, e, s, at) && TargetOf(node, e).Some? ==>
              At(Node(node, e, s), at) == At(Node(TargetOf(node, e).value.0, e, Through(s, TargetOf(node, e).value.1)), at)
    ensures !Says(node, e, s, at) && TargetOf(node, e).None? ==>
              At(Node(node, e, s), at) == None || (Node(node, e, s) == Bare(Description(node)) && forall k :: !Says(node, e, s, k))
  {
    hide Landed, KeyOf, Unclashed, Siblings, AnyOrder, Own, Says, TargetOf;
    var own := Siblings(node, e, s, e.visit(s.path, node.Keys));
    forall k
      ensures Says(node, e, s, k) ==> At(own, k).Some?
      ensures !Says(node, e, s, k) ==> At(own, k) == None
    {
      SiblingsAt(node, e, s, k);
      if Says(node, e, s, k) {
        SaysOwn(node, e, s, k);
      }
    }
    SiblingsAt(node, e, s, at);
    forall k | Own(node, e, s, k, at)
      ensures Says(node, e, s, at) && k in node && Landed(k, node[k], e, s).Some?
    {
      OwnSays(node, e, s, k, at);
    }
    if TargetOf(node, e).Some? {
      NeverEmpty(TargetOf(node, e).value.0, e, Through(s, TargetOf(node, e).value.1));
    }
  }

  /** A node that is not entered, for depth or as a cycle, is an object with its own description and nothing else. */
  lemma CutNodeIs(node: Schema, e: Env, s: Site)
    requires !Entered(node, e, s)
    ensures Node(node, e, s).Keys == {"type"} + if Described(node) then {"description"} else {}
    ensures Node(node, e, s)["type"] == Str("object") && (Described(node) ==> Node(node, e, s)["description"] == node["description"])
  {
    hide Siblings, ResolveRef;
  }

  predicate Described(node: Schema) {
    "description" in node && node["description"].Str? && node["description"].s != ""
  }

  lemma SaysOwn(node: Schema, e: Env, s: Site, at: string)
    requires s.depth <= MAX_DEPTH && Says(node, e, s, at)
    ensures exists k :: Own(node, e, s, k, at) && Landed(k, node[k], e, s).Some?
  {
    hide Landed;
    var k :| k in node && Own(node, e, s, k, at);
  }

  lemma OwnSays(node: Schema, e: Env, s: Site, k: string, at: string)
    requires s.depth <= MAX_DEPTH && Own(node, e, s, k, at)
    ensures Says(node, e, s, at) && k in node && Landed(k, node[k], e, s).Some?
  {
    hide Landed;
  }

  lemma NeverEmpty(node: Schema, e: Env, s: Site)
    ensures Node(node, e, s) != map[]
  {
    hide Siblings, TargetOf;
    assert Bare(Description(node)) != map[] by { assert "type" in Bare(Description(node)); }
  }

  // ----- where the order does not matter

  /** Nowhere that the walk goes is an allOf, or two keywords of one Gemini form on one node. */
  ghost predicate Calm(node: Schema, defs: Schema, stack: seq<string>, depth: nat)
    decreases 66 - depth, 1
  {
    depth <= MAX_DEPTH ==>
      && Unclashed(node)
      && (forall k {:trigger CalmAt(k, node[k], defs, stack, depth)} {:trigger node[k]} :: k in node ==> CalmAt(k, node[k], defs, stack, depth))
  }

  ghost predicate CalmAt(k: string, v: Json, defs: Schema, stack: seq<string>, depth: nat)
    requires depth <= MAX_DEPTH
    decreases 66 - depth, 0
  {
    match KindOf(k)
    case Reference =>
      v.Str? && v.s != "" ==>
        (match ResolveRef(v.s, defs)
         case None => true
         case Some((target, name)) => name !in stack ==> Calm(target, defs, stack + [name], depth + 1))
    case OneOf => CalmList(v, defs, stack, depth)
    case AnyOf => CalmList(v, defs, stack, depth)
    case Properties => v.Obj? ==> forall n {:trigger v.fields[n]} :: n in v.fields && v.fields[n].Obj? ==> Calm(v.fields[n].fields, defs, stack, depth + 1)
    case Items => (v.Obj? ==> Calm(v.fields, defs, stack, depth + 1)) && CalmList(v, defs, stack, depth)
    case _ => true
  }

  ghost predicate CalmList(v: Json, defs: Schema, stack: seq<string>, depth: nat)
    requires depth <= MAX_DEPTH
    decreases 66 - depth, 0, 0
  {
    v.Arr? ==> forall i {:trigger v.elems[i]} :: 0 <= i < |v.elems| && v.elems[i].Obj? ==> Calm(v.elems[i].fields, defs, stack, depth + 1)
  }

  ghost predicate SameDefs(e: Env, e': Env) {
    e.defs == e'.defs && AnyOrder(e) && AnyOrder(e')
  }

  lemma {:induction false} SameConverted(v: Json, n: nat, key: string, e: Env, e': Env, s: Site)
    requires s.depth <= MAX_DEPTH && SameDefs(e, e') && v.Arr? && n <= |v.elems| && CalmList(v, e.defs, s.stack, s.depth)
    ensures Converted(v.elems[..n], key, e, s) == Converted(v.elems[..n], key, e', s)
    decreases 66 - s.depth, 0, n
  {
    hide Node, AnyOrder, Calm;
    if n > 0 {
      SameConverted(v, n - 1, key, e, e', s);
      assert v.elems[..n][..n - 1] == v.elems[..n - 1] && v.elems[..n][n - 1] == v.elems[n - 1];
      if v.elems[n - 1].Obj? {
        SameNode(v.elems[n - 1].fields, e, e', Below(s, AtMember(key, n - 1)));
      }
    }
  }

  lemma {:induction false} SameLanded(k: string, v: Json, e: Env, e': Env, s: Site)
    requires s.depth <= MAX_DEPTH && SameDefs(e, e') && CalmAt(k, v, e.defs, s.stack, s.depth)
    ensures Landed(k, v, e, s) == Landed(k, v, e', s)
    decreases 66 - s.depth, 1, 0
  {
    hide Node, AnyOrder, Calm, Converted, KindOf, ResolveRef;
    match KindOf(k)
    case OneOf => SameList(k, v, e, e', s);
    case AnyOf => SameList(k, v, e, e', s);
    case Properties =>
      if v.Obj? {
        forall n | n in v.fields && v.fields[n].Obj?
          ensures Node(v.fields[n].fields, e, Below(s, AtProperty(n))) == Node(v.fields[n].fields, e', Below(s, AtProperty(n)))
        {
          SameNode(v.fields[n].fields, e, e', Below(s, AtProperty(n)));
        }
        assert Props(v.fields, e, s) == Props(v.fields, e', s);
      }
    case Items =>
      SameList(k, v, e, e', s);
      if v.Obj? {
        SameNode(v.fields, e, e', Below(s, AtItems));
      }
    case _ =>
  }

  lemma {:induction false} SameList(k: string, v: Json, e: Env, e': Env, s: Site)
    requires s.depth <= MAX_DEPTH && SameDefs(e, e') && CalmList(v, e.defs, s.stack, s.depth)
    ensures v.Arr? ==> Converted(v.elems, k, e, s) == Converted(v.elems, k, e', s)
    decreases 66 - s.depth, 0, if v.Arr? then |v.elems| + 1 else 0
  {
    hide AnyOrder, Calm, Converted;
    if v.Arr? {
      SameConverted(v, |v.elems|, k, e, e', s);
      assert v.elems[..|v.elems|] == v.elems;
    }
  }

  lemma {:induction false} SameSiblings(node: Schema, e: Env, e': Env, s: Site)
    requires s.depth <= MAX_DEPTH && SameDefs(e, e') && Calm(node, e.defs, s.stack, s.depth)
    ensures Siblings(node, e, s, e.visit(s.path, node.Keys)) == Siblings(node, e', s, e'.visit(s.path, node.Keys))
    decreases 66 - s.depth, 2, 0
  {
    hide AnyOrder, CalmAt, Siblings, Landed, Unclashed, KeyOf;
    forall k | k in node
      ensures Landed(k, node[k], e, s) == Landed(k, node[k], e', s)
    {
      SameLanded(k, node[k], e, e', s);
    }
    forall at
      ensures At(Siblings(node, e, s, e.visit(s.path, node.Keys)), at) == At(Siblings(node, e', s, e'.visit(s.path, node.Keys)), at)
    {
      SiblingsAt(node, e, s, at);
      SiblingsAt(node, e', s, at);
      if Says(node, e, s, at) {
        var k :| k in node && Own(node, e, s, k, at);
        assert Own(node, e', s, k, at);
      }
    }
    SameMaps(Siblings(node, e, s, e.visit(s.path, node.Keys)), Siblings(node, e', s, e'.visit(s.path, node.Keys)));
  }

  lemma {:induction false} SameNode(node: Schema, e: Env, e': Env, s: Site)
    requires SameDefs(e, e') && Calm(node, e.defs, s.stack, s.depth)
    ensures Node(node, e, s) == Node(node, e', s)
    decreases 66 - s.depth, 3, 0
  {
    hide AnyOrder, Siblings, Calm, ResolveRef;
    if s.depth <= MAX_DEPTH {
      SameSiblings(node, e, e', s);
      if TargetOf(node, e).Some? && TargetOf(node, e).value.1 !in s.stack {
        CalmTarget(node, e, s);
        SameNode(TargetOf(node, e).value.0, e, e', Through(s, TargetOf(node, e).value.1));
      }
    }
  }

  lemma CalmTarget(node: Schema, e: Env, s: Site)
    requires s.depth <= MAX_DEPTH && Calm(node, e.defs, s.stack, s.depth) && TargetOf(node, e).Some? && TargetOf(node, e).value.1 !in s.stack
    ensures Calm(TargetOf(node, e).value.0, e.defs, s.stack + [TargetOf(node, e).value.1], s.depth + 1)
  {
    hide KindOf, ResolveRef, Unclashed;
    Kinds();
    assert CalmAt("$ref", node["$ref"], e.defs, s.stack, s.depth);
  }

  /** On calm schemas every order in which the maps are visited gives the same compiled schema. */
  lemma SanitizingIsDeterministic(
    root: Schema, visit: (seq<Place>, set<string>) -> seq<string>, visit': (seq<Place>, set<string>) -> seq<string>)
    requires AnyOrder(Env(map[], visit)) && AnyOrder(Env(map[], visit')) && Calm(root, Definitions(root), [], 0)
    ensures Sanitized(Some(root), visit) == Sanitized(Some(root), visit')
  {
    hide AnyOrder, Calm, Node;
    var e, e' := Env(Definitions(root), visit), Env(Definitions(root), visit');
    SameOrders(e, visit);
    SameOrders(e', visit');
    SameNode(root, e, e', ROOT);
  }

  lemma SameOrders(e: Env, visit: (seq<Place>, set<string>) -> seq<string>)
    requires AnyOrder(Env(map[], visit)) && e.visit == visit
    ensures AnyOrder(e)
  {
    assert forall path, keys :: Env(map[], visit).visit(path, keys) == e.visit(path, keys);
  }

  // ----- where it does

  const TEXT := Obj(map["type" := Str("string")])

  /** A parameter of the node itself and one of its allOf member. */
  const MIXED := map["properties" := Obj(map["a" := TEXT]), "allOf" := Arr([Obj(map["properties" := Obj(map["b" := TEXT])])])]

  lemma OneProperty(name: string, e: Env, s: Site)
    requires s.depth <= MAX_DEPTH
    ensures Props(map[name := TEXT], e, s).Keys == {name}
  {
    hide Node;
    var props := Props(map[name := TEXT], e, s);
    assert name in props;
    assert forall n :: n in props ==> n == name;
  }

  /** Visited before the allOf the node's own properties stay beside the member's; visited after it they replace them. */
  lemma OrderMatters(e: Env, s: Site)
    requires s.depth < MAX_DEPTH && AnyOrder(e)
    ensures FieldsOf(At(Siblings(MIXED, e, s, ["properties", "allOf"]), "properties")).Keys == {"a", "b"}
    ensures FieldsOf(At(Siblings(MIXED, e, s, ["allOf", "properties"]), "properties")).Keys == {"a"}
  {
    hide Node, Props, MergeAll, AnyOrder, Keyword, Siblings;
    var own, list := MIXED["properties"], MIXED["allOf"];
    assert own == Obj(map["a" := TEXT]) && list == Arr([Obj(map["properties" := Obj(map["b" := TEXT])])]);
    OneProperty("a", e, s);
    TwoKeys("properties", "allOf", e, s);
    TwoKeys("allOf", "properties", e, s);
    OwnAfter(MergeAll(map[], list.elems, e, s), own, e, s);
    OwnAfter(map[], own, e, s);
    var first := Keyword(map[], "properties", own, e, s);
    assert MergeAll(first, list.elems, e, s) == Keyword(first, "allOf", list, e, s) by { ListIs(first, list, e, s); }
    assert MergeAll(map[], list.elems, e, s) == Keyword(map[], "allOf", list, e, s) by { ListIs(map[], list, e, s); }
    OneMember(list.elems, e, s);
    forall n
      ensures n in FieldsOf(At(MergeAll(first, list.elems, e, s), "properties")) <==> n == "a" || n == "b"
    {
      AllOfCollects(first, list.elems, e, s, n);
    }
  }

  lemma OwnAfter(out: Schema, own: Json, e: Env, s: Site)
    requires s.depth <= MAX_DEPTH && own == Obj(map["a" := TEXT]) && Props(own.fields, e, s).Keys == {"a"}
    ensures FieldsOf(At(Keyword(out, "properties", own, e, s), "properties")).Keys == {"a"}
  {
    hide Node, Props;
  }

  lemma ListIs(out: Schema, list: Json, e: Env, s: Site)
    requires s.depth <= MAX_DEPTH && list.Arr?
    ensures Keyword(out, "allOf", list, e, s) == MergeAll(out, list.elems, e, s)
  {
    hide Node, MergeAll;
  }

  lemma TwoKeys(j: string, k: string, e: Env, s: Site)
    requires s.depth <= MAX_DEPTH && j in MIXED && k in MIXED
    ensures Siblings(MIXED, e, s, [j, k]) == Keyword(Keyword(map[], j, MIXED[j], e, s), k, MIXED[k], e, s)
  {
    hide Keyword;
    assert [j, k][..1] == [j] && [j][..0] == [];
    assert Siblings(MIXED, e, s, []) == map[];
    assert Siblings(MIXED, e, s, [j]) == Keyword(map[], j, MIXED[j], e, s);
  }

  lemma OneMember(members: seq<Json>, e: Env, s: Site)
    requires s.depth < MAX_DEPTH && AnyOrder(e) && members == [Obj(map["properties" := Obj(map["b" := TEXT])])]
    ensures forall n :: SomeMemberHas(members, e, s, n) <==> n == "b"
  {
    hide AnyOrder, Node;
    var below := Below(s, AtMember("allOf", 0));
    assert members[0].fields == map["properties" := Obj(map["b" := TEXT])];
    PropertyStays(members[0].fields, e, below);
    forall n
      ensures SomeMemberHas(members, e, s, n) <==> n == "b"
    {
      assert MemberHas(members, e, s, 0, n) <==> n == "b";
    }
  }

  lemma PropertyStays(member: Schema, e: Env, s: Site)
    requires s.depth <= MAX_DEPTH && AnyOrder(e) && member == map["properties" := Obj(map["b" := TEXT])]
    ensures FieldsOf(At(Node(member, e, s), "properties")).Keys == {"b"}
  {
    hide AnyOrder, Node, Props;
    OneProperty("b", e, s);
    NodeHolds(member, e, s, "properties");
    assert Own(member, e, s, "properties", "properties");
  }
}
