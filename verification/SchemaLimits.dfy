/** Inputs for which compiling narrows a schema: why weakening needs its conditions. */
module SchemaLimits {
  import opened Core
  import opened Schemas
  import opened SchemaLaws
  import opened SchemaMeaning
  import opened SchemaExact
  import Caches
  import CacheLaws

  type Order = (seq<Place>, set<string>) -> seq<string>

  predicate Silent(k: string) {
    KindOf(k) in {Reference, Metadata, Unknown}
  }

  lemma {:induction false} NoSiblings(node: Schema, e: Env, s: Site, keys: seq<string>)
    requires s.depth <= MAX_DEPTH && forall k :: k in node ==> Silent(k)
    ensures Siblings(node, e, s, keys) == map[]
    decreases |keys|
  {
    hide KindOf;
    if keys != [] {
      NoSiblings(node, e, s, keys[..|keys| - 1]);
    }
  }

  lemma OneSibling(k: string, v: Json, e: Env, s: Site)
    requires AnyOrder(e) && s.depth <= MAX_DEPTH
    ensures Siblings(map[k := v], e, s, e.visit(s.path, {k})) == Keyword(map[], k, v, e, s)
  {
    hide Keyword;
    var keys := e.visit(s.path, {k});
    assert Caches.Visits(keys, {k});
    CacheLaws.ElemsSize(keys);
    assert keys[0] in Caches.Elems(keys);
    assert keys[..0] == [];
  }

  /** A node with a single keyword and no reference; `j` is any key of the result. */
  lemma OneKeyword(k: string, v: Json, e: Env, s: Site, j: string)
    requires AnyOrder(e) && s.depth <= MAX_DEPTH && k != "$ref" && j in Keyword(map[], k, v, e, s)
    ensures Node(map[k := v], e, s) == Keyword(map[], k, v, e, s)
  {
    hide Keyword, Siblings, AnyOrder;
    var node := map[k := v];
    assert node.Keys == {k};
    OneSibling(k, v, e, s);
    assert TargetOf(node, e) == None;
  }

  lemma RejectedBy(node: Schema, k: string, x: Json, m: Meaning, f: nat)
    requires k in node && !Holds(k, node[k], x, m, f)
    ensures !Meets(node, x, m, f)
  {
    hide Holds;
  }

  lemma EmptyIsBare(e: Env)
    ensures Node(map[], e, ROOT) == map["type" := Str("object")]
  {
    hide KindOf, Siblings;
    var none: Schema := map[];
    NoSiblings(none, e, ROOT, e.visit(ROOT.path, none.Keys));
    assert TargetOf(none, e) == None && Description(none) == "";
  }

  /** The empty schema accepts everything; compiled it accepts only what `{"type": "object"}` does. */
  lemma EmptySchemaIsNarrowed(visit: Order, m: Meaning, x: Json)
    requires !m.leaf("type", Str("object"), x)
    ensures Accepts(map[], x, m) && !Accepts(Sanitized(Some(map[]), visit).value, x, m)
  {
    hide KindOf, Node, Definitions;
    Kinds();
    EmptyIsBare(Env(Definitions(map[]), visit));
    RejectedBy(Sanitized(Some(map[]), visit).value, "type", x, m, MAX_DEPTH + 1);
  }

  // ----- a boolean branch is dropped

  const STRING: Schema := map["type" := Str("string")]

  const ANY_OR_STRING: Schema := map["anyOf" := Arr([Bool(true), Obj(STRING)])]

  lemma StringIsSame(e: Env, s: Site)
    requires AnyOrder(e) && s.depth <= MAX_DEPTH
    ensures Node(STRING, e, s) == STRING
  {
    hide KindOf, AnyOrder;
    Kinds();
    OneKeyword("type", Str("string"), e, s, "type");
  }

  lemma BranchDropped(e: Env, s: Site)
    requires AnyOrder(e) && s.depth < MAX_DEPTH
    ensures Keyword(map[], "anyOf", ANY_OR_STRING["anyOf"], e, s) == map["anyOf" := Arr([Obj(STRING)])]
  {
    hide KindOf, Node, AnyOrder;
    Kinds();
    var members := [Bool(true), Obj(STRING)];
    StringIsSame(e, Below(s, AtMember("anyOf", 1)));
    assert members[..1] == [Bool(true)] && [Bool(true)][..0] == [];
    assert Converted([], "anyOf", e, s) == [];
    assert Converted([Bool(true)], "anyOf", e, s) == [];
    assert Converted(members, "anyOf", e, s) == [Obj(STRING)];
  }

  /** `{"anyOf": [true, {"type": "string"}]}` accepts everything; compiled it accepts only strings. */
  lemma BooleanBranchIsNarrowed(visit: Order, m: Meaning, x: Json)
    requires AnyOrder(Env(map[], visit)) && !m.leaf("type", Str("string"), x)
    ensures Accepts(ANY_OR_STRING, x, m) && !Accepts(Sanitized(Some(ANY_OR_STRING), visit).value, x, m)
  {
    hide KindOf, Node, Definitions, AnyOrder, Keyword, Meets;
    Kinds();
    var e := Env(Definitions(ANY_OR_STRING), visit);
    SameOrders(map[], e.defs, visit);
    BranchDropped(e, ROOT);
    OneKeyword("anyOf", ANY_OR_STRING["anyOf"], e, ROOT, "anyOf");
    OnlyStrings(m, x);
    AnyBranch(m, x);
  }

  lemma AnyBranch(m: Meaning, x: Json)
    ensures Accepts(ANY_OR_STRING, x, m)
  {
    hide KindOf;
    Kinds();
    var v := ANY_OR_STRING["anyOf"];
    assert v.elems[0] == Bool(true) && Allows(v.elems[0], x, m, MAX_DEPTH + 1);
    assert Holds("anyOf", v, x, m, MAX_DEPTH + 1);
  }

  lemma OnlyStrings(m: Meaning, x: Json)
    requires !m.leaf("type", Str("string"), x)
    ensures !Accepts(map["anyOf" := Arr([Obj(STRING)])], x, m)
  {
    hide KindOf, Meets;
    Kinds();
    RejectedBy(STRING, "type", x, m, MAX_DEPTH);
    assert !Allows(Obj(STRING), x, m, MAX_DEPTH + 1);
    RejectedBy(map["anyOf" := Arr([Obj(STRING)])], "anyOf", x, m, MAX_DEPTH + 1);
  }

  // ----- an empty required list is lost in a merge

  const NOTHING_REQUIRED: Schema := map["required" := Arr([])]

  const ALL_OF_NOTHING: Schema := map["allOf" := Arr([Obj(NOTHING_REQUIRED)])]

  lemma NothingRequiredIsSame(e: Env, s: Site)
    requires AnyOrder(e) && s.depth <= MAX_DEPTH
    ensures Node(NOTHING_REQUIRED, e, s) == NOTHING_REQUIRED
  {
    hide KindOf, AnyOrder;
    Kinds();
    OneKeyword("required", Arr([]), e, s, "required");
  }

  lemma MemberIsLost(e: Env)
    requires AnyOrder(e)
    ensures Keyword(map[], "allOf", ALL_OF_NOTHING["allOf"], e, ROOT) == map[]
  {
    hide KindOf, AnyOrder, Node;
    Kinds();
    NothingRequiredIsSame(e, Below(ROOT, AtMember("allOf", 0)));
    OneMember(ALL_OF_NOTHING["allOf"], e, ROOT);
    assert MergedAt(map[], NOTHING_REQUIRED, "required") == None;
    assert Merged(map[], NOTHING_REQUIRED) == map[];
  }

  lemma AllOfNothingIsBare(e: Env)
    requires AnyOrder(e)
    ensures Node(ALL_OF_NOTHING, e, ROOT) == map["type" := Str("object")]
  {
    hide KindOf, AnyOrder, Siblings, Keyword;
    MemberIsLost(e);
    OneSibling("allOf", ALL_OF_NOTHING["allOf"], e, ROOT);
    assert ALL_OF_NOTHING.Keys == {"allOf"};
    assert TargetOf(ALL_OF_NOTHING, e) == None && Description(ALL_OF_NOTHING) == "";
  }

  lemma NothingAccepts(m: Meaning, x: Json)
    ensures Accepts(ALL_OF_NOTHING, x, m)
  {
    hide KindOf, Meets, Holds;
    NothingMet(m, x);
    OneMemberHolds(ALL_OF_NOTHING["allOf"], x, m, MAX_DEPTH + 1);
    MeetsOne("allOf", ALL_OF_NOTHING["allOf"], x, m, MAX_DEPTH + 1);
  }

  lemma NothingMet(m: Meaning, x: Json)
    ensures Meets(NOTHING_REQUIRED, x, m, MAX_DEPTH)
  {
    hide KindOf;
    Kinds();
  }

  /** `{"allOf": [{"required": []}]}` accepts everything; compiled it is the bare object. */
  lemma LostMemberIsNarrowed(visit: Order, m: Meaning, x: Json)
    requires AnyOrder(Env(map[], visit)) && !m.leaf("type", Str("object"), x)
    ensures Accepts(ALL_OF_NOTHING, x, m) && !Accepts(Sanitized(Some(ALL_OF_NOTHING), visit).value, x, m)
  {
    hide KindOf, Node, Definitions, AnyOrder, Meets;
    Kinds();
    var e := Env(Definitions(ALL_OF_NOTHING), visit);
    SameOrders(map[], e.defs, visit);
    AllOfNothingIsBare(e);
    NothingAccepts(m, x);
    RejectedBy(Sanitized(Some(ALL_OF_NOTHING), visit).value, "type", x, m, MAX_DEPTH + 1);
  }

  const NO_KEYS_REQUIRED: Schema := map["type" := Str("object"), "required" := Arr([])]

  /** The condition shuts out only what is lost: an empty list is supported wherever it stays. */
  lemma EmptyRequiredIsSupported(m: Meaning, defs: Schema)
    ensures Supported(NOTHING_REQUIRED, m, defs, [], 0) && Supported(NO_KEYS_REQUIRED, m, defs, [], 0)
    ensures !Supported(ALL_OF_NOTHING, m, defs, [], 0)
  {
    hide KindOf;
    Kinds();
    SupportedFlat(NOTHING_REQUIRED, m, defs, "required");
    SupportedFlat(NO_KEYS_REQUIRED, m, defs, "type");
    NothingShows(defs);
  }

  lemma SupportedFlat(node: Schema, m: Meaning, defs: Schema, k: string)
    requires k in node && Kept(k, node[k], defs, 0) && forall j :: j in node ==> KindOf(j) in {Required, Plain}
    ensures Supported(node, m, defs, [], 0)
  {
    hide KindOf, Kept;
  }

  lemma NothingShows(defs: Schema)
    ensures !Keeps(ALL_OF_NOTHING, defs, 0)
  {
    hide KindOf;
    Kinds();
    assert !Shows(NOTHING_REQUIRED, false, defs, 1);
  }

  // ----- recursion is cut

  const LOOP_REF := "#/$defs/" + "l"

  const AGAIN: Schema := map["$ref" := Str(LOOP_REF)]

  const LOOP: Schema := map["items" := Obj(AGAIN)]

  /** Nested arrays: a list of lists, to any depth. */
  const NESTED: Schema := map["$ref" := Str(LOOP_REF), "$defs" := Obj(map["l" := Obj(LOOP)])]

  lemma LoopResolves()
    ensures ResolveRef(LOOP_REF, map["l" := Obj(LOOP)]) == Some((LOOP, "l"))
  {
    assert LOOP_REF[..8] == "#/$defs/" && LOOP_REF[8..] == "l";
  }

  lemma AgainCut(e: Env, s: Site)
    requires e.defs == map["l" := Obj(LOOP)] && "l" in s.stack && s.depth <= MAX_DEPTH
    ensures Node(AGAIN, e, s) == map["type" := Str("object")]
  {
    hide KindOf, ResolveRef, Siblings;
    LoopResolves();
    assert TargetOf(AGAIN, e) == Some((LOOP, "l"));
    assert Description(AGAIN) == "";
  }

  lemma LoopNode(e: Env, s: Site)
    requires AnyOrder(e) && e.defs == map["l" := Obj(LOOP)] && "l" in s.stack && s.depth < MAX_DEPTH
    ensures Node(LOOP, e, s) == map["items" := Obj(map["type" := Str("object")])]
  {
    hide KindOf, AnyOrder, Node;
    Kinds();
    AgainCut(e, Below(s, AtItems));
    OneKeyword("items", Obj(AGAIN), e, s, "items");
  }

  lemma LoopCut(e: Env)
    requires AnyOrder(e) && e.defs == map["l" := Obj(LOOP)]
    ensures Node(NESTED, e, ROOT) == map["items" := Obj(map["type" := Str("object")])]
  {
    hide KindOf, ResolveRef, AnyOrder, Siblings;
    Kinds();
    DefsKind();
    LoopResolves();
    LoopNode(e, Through(ROOT, "l"));
    NoSiblings(NESTED, e, ROOT, e.visit(ROOT.path, NESTED.Keys));
    assert TargetOf(NESTED, e) == Some((LOOP, "l"));
    NestedNode(e, Node(LOOP, e, Through(ROOT, "l")));
  }

  lemma NestedNode(e: Env, items: Schema)
    requires TargetOf(NESTED, e) == Some((LOOP, "l")) && items == Node(LOOP, e, Through(ROOT, "l")) && "items" in items
    requires Siblings(NESTED, e, ROOT, e.visit(ROOT.path, NESTED.Keys)) == map[]
    ensures Node(NESTED, e, ROOT) == items
  {
    hide KindOf, TargetOf, Siblings;
    assert items + map[] == items;
  }

  lemma DefsKind()
    ensures KindOf("$defs") == Metadata
  {
  }

  lemma NestedDefinitions()
    ensures Definitions(NESTED) == map["l" := Obj(LOOP)]
  {
    assert "definitions" !in NESTED;
    assert At(NESTED, "$defs") == Some(Obj(map["l" := Obj(LOOP)]));
  }

  /** The recursive schema of nested arrays accepts `[[]]`; compiled it asks for objects inside. */
  lemma RecursionIsNarrowed(visit: Order, m: Meaning)
    requires AnyOrder(Env(map[], visit)) && m.refs(LOOP_REF) == Some(LOOP) && !m.leaf("type", Str("object"), Arr([]))
    ensures Accepts(NESTED, Arr([Arr([])]), m) && !Accepts(Sanitized(Some(NESTED), visit).value, Arr([Arr([])]), m)
  {
    hide KindOf, Node, Definitions, AnyOrder, Meets;
    var e := Env(Definitions(NESTED), visit);
    NestedDefinitions();
    SameOrders(map[], e.defs, visit);
    LoopCut(e);
    NestedAccepts(m);
    ItemsReject(m);
  }

  lemma ItemsReject(m: Meaning)
    requires !m.leaf("type", Str("object"), Arr([]))
    ensures !Accepts(map["items" := Obj(map["type" := Str("object")])], Arr([Arr([])]), m)
  {
    hide KindOf, Meets;
    Kinds();
    var bare: Schema := map["type" := Str("object")];
    var x := Arr([Arr([])]);
    RejectedBy(bare, "type", Arr([]), m, MAX_DEPTH);
    assert !Allows(Obj(bare), x.elems[0], m, MAX_DEPTH + 1);
    RejectedBy(map["items" := Obj(bare)], "items", x, m, MAX_DEPTH + 1);
  }

  lemma LoopAccepts(m: Meaning, x: Json, f: nat)
    requires x == Arr([])
    ensures Meets(LOOP, x, m, f)
  {
    hide KindOf;
    Kinds();
  }

  lemma NestedAccepts(m: Meaning)
    requires m.refs(LOOP_REF) == Some(LOOP)
    ensures Accepts(NESTED, Arr([Arr([])]), m)
  {
    hide KindOf, Meets;
    InnerAccepts(m);
    RefMeets(NESTED, LOOP, Arr([Arr([])]), m, MAX_DEPTH + 1);
  }

  lemma InnerAccepts(m: Meaning)
    requires m.refs(LOOP_REF) == Some(LOOP)
    ensures Meets(LOOP, Arr([Arr([])]), m, MAX_DEPTH)
  {
    hide KindOf, Meets, Holds;
    LoopAccepts(m, Arr([]), MAX_DEPTH - 2);
    RefMeets(AGAIN, LOOP, Arr([]), m, MAX_DEPTH - 1);
    ItemsHold(Obj(AGAIN), Arr([Arr([])]), m, MAX_DEPTH);
    MeetsOne("items", Obj(AGAIN), Arr([Arr([])]), m, MAX_DEPTH);
  }

  lemma MeetsOne(k: string, v: Json, x: Json, m: Meaning, f: nat)
    requires Holds(k, v, x, m, f)
    ensures Meets(map[k := v], x, m, f)
  {
    hide Holds;
  }

  lemma RefMeets(node: Schema, target: Schema, x: Json, m: Meaning, f: nat)
    requires node == AGAIN || node == NESTED
    requires m.refs(LOOP_REF) == Some(target) && f > 0 && Meets(target, x, m, f - 1)
    ensures Meets(node, x, m, f)
  {
    hide KindOf, Meets, Holds, LOOP;
    RefAlone(node);
    RefHolds(node["$ref"], target, x, m, f);
    AloneMeets(node, "$ref", x, m, f);
  }

  lemma RefAlone(node: Schema)
    requires node == AGAIN || node == NESTED
    ensures "$ref" in node && node["$ref"] == Str(LOOP_REF) && LOOP_REF != "" && Alone(node, "$ref")
  {
    hide KindOf;
    DefsKind();
  }
}
