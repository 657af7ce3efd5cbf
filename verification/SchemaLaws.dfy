/** Compiled schemas are clean, at most 65 levels deep, and compiling them again changes nothing. */
module SchemaLaws {
  import opened Core
  import opened Schemas
  import Caches

  /** The oracle visits every key of every node once; beyond that any order is possible. */
  ghost predicate AnyOrder(e: Env) {
    forall path, keys :: Caches.Visits(e.visit(path, keys), keys)
  }

  lemma Kinds()
    ensures forall k: string :: KindOf(k) == Properties <==> k == "properties"
    ensures forall k: string :: KindOf(k) == Items <==> k == "items"
    ensures forall k: string :: KindOf(k) == AnyOf <==> k == "anyOf"
    ensures forall k: string :: KindOf(k) == Required <==> k == "required"
    ensures forall k: string :: KindOf(k) == Enum <==> k == "enum"
    ensures KindOf("type") == Plain && KindOf("description") == Plain
    ensures forall k: string :: KindOf(k) == Reference <==> k == "$ref"
    ensures forall k: string :: KindOf(k) == Additional <==> k == "additionalProperties"
    ensures forall k: string :: KindOf(k) == Const <==> k == "const"
    ensures forall k: string :: KindOf(k) == OneOf <==> k == "oneOf"
    ensures forall k: string :: KindOf(k) == AllOf <==> k == "allOf"
  {
  }

  // ----- the accepted form

  predicate IsBare(m: Schema) {
    m == Bare(Description(m))
  }

  /** A schema position that Gemini accepts, with at most `h` levels below it; the last level is bare. */
  predicate Clean(m: Schema, h: nat)
    decreases h, 2
  {
    m != map[] && Tidy(m, h) && (h == 0 ==> IsBare(m))
  }

  predicate Tidy(m: Schema, h: nat)
    decreases h, 1
  {
    forall k {:trigger TidyAt(k, m[k], h)} {:trigger m[k]} :: k in m ==> TidyAt(k, m[k], h)
  }

  /** Only Gemini keywords, well formed, and accepted schemas below; never a "$ref". */
  predicate TidyAt(k: string, v: Json, h: nat)
    decreases h, 0
  {
    match KindOf(k)
    case Properties =>
      h > 0 && v.Obj? && v.fields != map[] &&
      forall n {:trigger v.fields[n]} :: n in v.fields ==> v.fields[n].Obj? && Clean(v.fields[n].fields, h - 1)
    case Items => h > 0 && v.Obj? && Clean(v.fields, h - 1)
    case AnyOf =>
      h > 0 && v.Arr? && v.elems != [] &&
      forall i {:trigger v.elems[i]} :: 0 <= i < |v.elems| ==> v.elems[i].Obj? && Clean(v.elems[i].fields, h - 1)
    case Additional => v.Bool?
    case Required => v.Arr?
    case Enum => v.Arr?
    case Ordering => v.Arr?
    case Plain => true
    case _ => false
  }

  predicate CleanChild(v: Json, h: nat) {
    v.Obj? && h > 0 && Clean(v.fields, h - 1)
  }

  lemma TidyPut(m: Schema, k: string, v: Json, h: nat)
    requires Tidy(m, h) && TidyAt(k, v, h)
    ensures Tidy(m[k := v], h)
  {
    hide TidyAt;
  }

  lemma TidyGet(m: Schema, k: string, h: nat)
    requires Tidy(m, h) && k in m
    ensures TidyAt(k, m[k], h)
  {
  }

  lemma BareIsClean(d: string, h: nat)
    ensures Clean(Bare(d), h)
  {
    hide KindOf, Bare;
    Kinds();
    BareKeys(d);
    assert Tidy(Bare(d), h);
  }

  lemma BareKeys(d: string)
    ensures Description(Bare(d)) == d && "type" in Bare(d)
    ensures forall k :: k in Bare(d) ==> k == "type" || k == "description"
  {
    assert "type" != "description";
  }

  lemma {:induction false} Higher(m: Schema, h: nat)
    requires Clean(m, h)
    ensures Clean(m, h + 1)
    decreases h, 1
  {
    hide TidyAt;
    forall k | k in m
      ensures TidyAt(k, m[k], h + 1)
    {
      HigherAt(k, m[k], h);
    }
  }

  lemma {:induction false} HigherAt(k: string, v: Json, h: nat)
    requires TidyAt(k, v, h)
    ensures TidyAt(k, v, h + 1)
    decreases h, 0
  {
    hide KindOf, Clean;
    match KindOf(k)
    case Properties =>
      forall n | n in v.fields
        ensures Clean(v.fields[n].fields, h)
      {
        Higher(v.fields[n].fields, h - 1);
      }
    case Items => Higher(v.fields, h - 1);
    case AnyOf =>
      forall i | 0 <= i < |v.elems|
        ensures Clean(v.elems[i].fields, h)
      {
        Higher(v.elems[i].fields, h - 1);
      }
    case _ =>
  }

  // ----- every result is clean

  lemma MergedTidy(dst: Schema, src: Schema, h: nat)
    requires Tidy(dst, h) && Tidy(src, h)
    ensures Tidy(Merged(dst, src), h)
  {
    hide TidyAt, MergedValue;
    forall k | k in Merged(dst, src)
      ensures TidyAt(k, Merged(dst, src)[k], h)
    {
      if k in src {
        MergedAtTidy(k, At(dst, k), src[k], h);
      }
    }
  }

  lemma MergedAtTidy(k: string, old0: Option<Json>, v: Json, h: nat)
    requires TidyAt(k, v, h) && (old0.Some? ==> TidyAt(k, old0.value, h))
    ensures MergedValue(k, old0, v).Some? ==> TidyAt(k, MergedValue(k, old0, v).value, h)
  {
    hide KindOf, Clean, Union;
    Kinds();
  }

  lemma {:induction false} NodeIsClean(node: Schema, e: Env, s: Site)
    requires s.depth <= MAX_DEPTH + 1
    ensures Clean(Node(node, e, s), MAX_DEPTH + 1 - s.depth)
    decreases 66 - s.depth, 3, 0
  {
    hide Siblings, TidyAt, Bare, TargetOf;
    BareIsClean(Description(node), MAX_DEPTH + 1 - s.depth);
    if s.depth <= MAX_DEPTH {
      var own := Siblings(node, e, s, e.visit(s.path, node.Keys));
      SiblingsTidy(node, e, s, e.visit(s.path, node.Keys));
      if TargetOf(node, e).Some? {
        var t := TargetOf(node, e).value;
        NodeIsClean(t.0, e, Through(s, t.1));
        Higher(Node(t.0, e, Through(s, t.1)), MAX_DEPTH - s.depth);
        OverlayTidy(Node(t.0, e, Through(s, t.1)), own, MAX_DEPTH + 1 - s.depth);
      }
    }
  }

  lemma OverlayTidy(m: Schema, over: Schema, h: nat)
    requires Tidy(m, h) && Tidy(over, h)
    ensures Tidy(m + over, h)
  {
    hide TidyAt;
  }

  lemma {:induction false} SiblingsTidy(node: Schema, e: Env, s: Site, keys: seq<string>)
    requires s.depth <= MAX_DEPTH
    ensures Tidy(Siblings(node, e, s, keys), MAX_DEPTH + 1 - s.depth)
    decreases 66 - s.depth, 2, |keys|
  {
    hide Keyword, TidyAt;
    if keys != [] {
      var before, key := Siblings(node, e, s, keys[..|keys| - 1]), keys[|keys| - 1];
      SiblingsTidy(node, e, s, keys[..|keys| - 1]);
      if key in node {
        KeywordTidy(before, key, node[key], e, s);
      }
    }
  }

  lemma {:induction false} KeywordTidy(out: Schema, key: string, value: Json, e: Env, s: Site)
    requires s.depth <= MAX_DEPTH && Tidy(out, MAX_DEPTH + 1 - s.depth)
    ensures Tidy(Keyword(out, key, value, e, s), MAX_DEPTH + 1 - s.depth)
    decreases 66 - s.depth, 1, 0
  {
    hide KindOf, Tidy, Clean, Node, Converted, MergeAll, Props, WithAnyOf;
    match KindOf(key)
    case OneOf => AnyOfTidy(out, key, value, e, s);
    case AnyOf => AnyOfTidy(out, key, value, e, s);
    case AllOf =>
      if value.Arr? {
        MergeAllTidy(out, value.elems, e, s);
      }
    case Properties => PropertiesTidy(out, key, value, e, s);
    case Items => ItemsTidy(out, key, value, e, s);
    case _ => ValueTidy(out, key, value, e, s);
  }

  lemma ValueTidy(out: Schema, key: string, value: Json, e: Env, s: Site)
    requires s.depth <= MAX_DEPTH && Tidy(out, MAX_DEPTH + 1 - s.depth)
    requires KindOf(key) !in {OneOf, AnyOf, AllOf, Properties, Items}
    ensures Tidy(Keyword(out, key, value, e, s), MAX_DEPTH + 1 - s.depth)
  {
    hide KindOf, Tidy, Clean, Node, Converted, MergeAll, Props, WithAnyOf;
    var h := MAX_DEPTH + 1 - s.depth;
    if KindOf(key) == Const {
      Kinds();
      TidyPut(out, "enum", Arr([value]), h);
    } else if TidyAt(key, value, h) {
      TidyPut(out, key, value, h);
    }
  }

  lemma {:induction false} PropertiesTidy(out: Schema, key: string, value: Json, e: Env, s: Site)
    requires s.depth <= MAX_DEPTH && Tidy(out, MAX_DEPTH + 1 - s.depth) && KindOf(key) == Properties
    ensures Tidy(Keyword(out, key, value, e, s), MAX_DEPTH + 1 - s.depth)
    decreases 66 - s.depth, 0, 1
  {
    hide KindOf, Tidy, Clean, Node, Props;
    Kinds();
    if value.Obj? && Props(value.fields, e, s) != map[] {
      PropsClean(value.fields, e, s);
      TidyPut(out, "properties", Obj(Props(value.fields, e, s)), MAX_DEPTH + 1 - s.depth);
    }
  }

  lemma {:induction false} ItemsTidy(out: Schema, key: string, value: Json, e: Env, s: Site)
    requires s.depth <= MAX_DEPTH && Tidy(out, MAX_DEPTH + 1 - s.depth) && KindOf(key) == Items
    ensures Tidy(Keyword(out, key, value, e, s), MAX_DEPTH + 1 - s.depth)
    decreases 66 - s.depth, 0, if value.Arr? then |value.elems| + 1 else 1
  {
    hide KindOf, Tidy, Clean, Node, Converted;
    Kinds();
    var h := MAX_DEPTH + 1 - s.depth;
    if value.Obj? {
      NodeIsClean(value.fields, e, Below(s, AtItems));
      TidyPut(out, "items", Obj(Node(value.fields, e, Below(s, AtItems))), h);
    } else if value.Arr? && Converted(value.elems, key, e, s) != [] {
      ConvertedClean(value.elems, key, e, s);
      TidyPut(out, "items", Converted(value.elems, key, e, s)[0], h);
    }
  }

  lemma {:induction false} AnyOfTidy(out: Schema, key: string, value: Json, e: Env, s: Site)
    requires s.depth <= MAX_DEPTH && Tidy(out, MAX_DEPTH + 1 - s.depth)
    ensures Tidy(WithAnyOf(out, key, value, e, s), MAX_DEPTH + 1 - s.depth)
    decreases 66 - s.depth, 0, if value.Arr? then |value.elems| + 1 else 0
  {
    hide KindOf, Tidy, Clean, Converted;
    Kinds();
    if value.Arr? && Converted(value.elems, key, e, s) != [] {
      ConvertedClean(value.elems, key, e, s);
      TidyPut(out, "anyOf", Arr(Converted(value.elems, key, e, s)), MAX_DEPTH + 1 - s.depth);
    }
  }

  lemma {:induction false} ConvertedClean(members: seq<Json>, key: string, e: Env, s: Site)
    requires s.depth <= MAX_DEPTH
    ensures forall i :: 0 <= i < |Converted(members, key, e, s)| ==> CleanChild(Converted(members, key, e, s)[i], MAX_DEPTH + 1 - s.depth)
    decreases 66 - s.depth, 0, |members|
  {
    hide Clean, Node;
    if members != [] {
      var last := members[|members| - 1];
      ConvertedClean(members[..|members| - 1], key, e, s);
      if last.Obj? {
        NodeIsClean(last.fields, e, Below(s, AtMember(key, |members| - 1)));
      }
    }
  }

  lemma {:induction false} MergeAllTidy(out: Schema, members: seq<Json>, e: Env, s: Site)
    requires s.depth <= MAX_DEPTH && Tidy(out, MAX_DEPTH + 1 - s.depth)
    ensures Tidy(MergeAll(out, members, e, s), MAX_DEPTH + 1 - s.depth)
    decreases 66 - s.depth, 0, |members|
  {
    hide Tidy, Node, Merged;
    if members != [] {
      var before, last := MergeAll(out, members[..|members| - 1], e, s), members[|members| - 1];
      MergeAllTidy(out, members[..|members| - 1], e, s);
      if last.Obj? {
        var below := Below(s, AtMember("allOf", |members| - 1));
        NodeIsClean(last.fields, e, below);
        Higher(Node(last.fields, e, below), MAX_DEPTH - s.depth);
        MergedTidy(before, Node(last.fields, e, below), MAX_DEPTH + 1 - s.depth);
      }
    }
  }

  lemma {:induction false} PropsClean(props: Schema, e: Env, s: Site)
    requires s.depth <= MAX_DEPTH
    ensures forall n :: n in Props(props, e, s) ==> CleanChild(Props(props, e, s)[n], MAX_DEPTH + 1 - s.depth)
    decreases 66 - s.depth, 0, 0
  {
    hide Clean, Node;
    forall n | n in Props(props, e, s)
      ensures CleanChild(Props(props, e, s)[n], MAX_DEPTH + 1 - s.depth)
    {
      NodeIsClean(props[n].fields, e, Below(s, AtProperty(n)));
    }
  }

  lemma OnlyGeminiKeys(m: Schema, h: nat)
    requires Tidy(m, h)
    ensures m.Keys <= GEMINI_KEYS
  {
    hide KindOf, GEMINI_KEYS;
    forall k | k in m
      ensures k in GEMINI_KEYS
    {
      TidyGet(m, k, h);
      GeminiKinds(k);
    }
  }

  lemma GeminiKinds(k: string)
    ensures KindOf(k) in {Properties, Items, AnyOf, Additional, Required, Enum, Ordering, Plain} ==> k in GEMINI_KEYS
  {
  }

  /**
   * For every schema and every order of visits the walk ends, and its result has only Gemini
   * keywords and no reference at any schema position, at most 65 levels below the root.
   */
  lemma SanitizedIsClean(root: Schema, visit: (seq<Place>, set<string>) -> seq<string>)
    ensures var out := Sanitized(Some(root), visit);
            out.Some? && Clean(out.value, MAX_DEPTH + 1) && out.value.Keys <= GEMINI_KEYS
  {
    hide Node, Tidy, Definitions;
    NodeIsClean(root, Env(Definitions(root), visit), ROOT);
    OnlyGeminiKeys(Sanitized(Some(root), visit).value, MAX_DEPTH + 1);
  }

  // ----- clean schemas stay as they are

  lemma {:induction false} NodeIsSame(m: Schema, e: Env, s: Site)
    requires AnyOrder(e) && s.depth <= MAX_DEPTH + 1 && Clean(m, MAX_DEPTH + 1 - s.depth)
    ensures Node(m, e, s) == m
    decreases 66 - s.depth, 3, 0
  {
    hide Siblings, TidyAt, Bare, KindOf, AnyOrder, ResolveRef;
    if s.depth <= MAX_DEPTH {
      NoReference(m, MAX_DEPTH + 1 - s.depth);
      var keys := e.visit(s.path, m.Keys);
      SiblingsSame(m, e, s, keys);
      VisitsAll(e, s.path, m);
    }
  }

  lemma NoReference(m: Schema, h: nat)
    requires Tidy(m, h)
    ensures "$ref" !in m
  {
    hide KindOf;
    Kinds();
    if "$ref" in m {
      TidyGet(m, "$ref", h);
    }
  }

  lemma VisitsAll(e: Env, path: seq<Place>, m: Schema)
    requires AnyOrder(e)
    ensures Only(m, Caches.Elems(e.visit(path, m.Keys))) == m
  {
    assert Caches.Visits(e.visit(path, m.Keys), m.Keys);
  }

  lemma {:induction false} SiblingsSame(m: Schema, e: Env, s: Site, keys: seq<string>)
    requires AnyOrder(e) && s.depth <= MAX_DEPTH && Tidy(m, MAX_DEPTH + 1 - s.depth)
    ensures Siblings(m, e, s, keys) == Only(m, Caches.Elems(keys))
    decreases 66 - s.depth, 2, |keys|
  {
    hide Keyword, TidyAt, AnyOrder, Tidy;
    if keys == [] {
      assert Only(m, Caches.Elems(keys)) == map[];
    } else {
      var n := |keys| - 1;
      SiblingsSame(m, e, s, keys[..n]);
      LastElem(keys);
      if keys[n] in m {
        TidyGet(m, keys[n], MAX_DEPTH + 1 - s.depth);
        KeywordSame(Only(m, Caches.Elems(keys[..n])), keys[n], m[keys[n]], e, s);
        assert Only(m, Caches.Elems(keys)) == Only(m, Caches.Elems(keys[..n]))[keys[n] := m[keys[n]]];
      } else {
        assert Only(m, Caches.Elems(keys)) == Only(m, Caches.Elems(keys[..n]));
      }
    }
  }

  lemma LastElem(keys: seq<string>)
    requires keys != []
    ensures Caches.Elems(keys) == Caches.Elems(keys[..|keys| - 1]) + {keys[|keys| - 1]}
  {
  }

  lemma {:induction false} KeywordSame(out: Schema, key: string, value: Json, e: Env, s: Site)
    requires AnyOrder(e) && s.depth <= MAX_DEPTH && TidyAt(key, value, MAX_DEPTH + 1 - s.depth)
    ensures Keyword(out, key, value, e, s) == out[key := value]
    decreases 66 - s.depth, 1, 0
  {
    hide KindOf, Clean, Node, Converted, Props, AnyOrder;
    Kinds();
    match KindOf(key)
    case AnyOf => ConvertedSame(value.elems, key, e, s);
    case Properties => PropsSame(value.fields, e, s);
    case Items => NodeIsSame(value.fields, e, Below(s, AtItems));
    case _ =>
  }

  lemma {:induction false} ConvertedSame(members: seq<Json>, key: string, e: Env, s: Site)
    requires AnyOrder(e) && s.depth <= MAX_DEPTH
    requires forall i :: 0 <= i < |members| ==> members[i].Obj? && Clean(members[i].fields, MAX_DEPTH - s.depth)
    ensures Converted(members, key, e, s) == members
    decreases 66 - s.depth, 0, |members|
  {
    hide Clean, Node, AnyOrder;
    if members != [] {
      var n := |members| - 1;
      ConvertedSame(members[..n], key, e, s);
      NodeIsSame(members[n].fields, e, Below(s, AtMember(key, n)));
      assert members == members[..n] + [members[n]];
    }
  }

  lemma {:induction false} PropsSame(props: Schema, e: Env, s: Site)
    requires AnyOrder(e) && s.depth <= MAX_DEPTH
    requires forall n :: n in props ==> props[n].Obj? && Clean(props[n].fields, MAX_DEPTH - s.depth)
    ensures Props(props, e, s) == props
    decreases 66 - s.depth, 0, 0
  {
    hide Clean, Node, AnyOrder;
    forall n | n in props
      ensures Node(props[n].fields, e, Below(s, AtProperty(n))) == props[n].fields
    {
      NodeIsSame(props[n].fields, e, Below(s, AtProperty(n)));
    }
  }

  /** Sanitizing a sanitized schema gives an equal schema, whatever the orders of the two passes. */
  lemma SanitizingTwice(root: Schema, visit: (seq<Place>, set<string>) -> seq<string>, again: (seq<Place>, set<string>) -> seq<string>)
    requires AnyOrder(Env(map[], again))
    ensures Sanitized(Sanitized(Some(root), visit), again) == Sanitized(Some(root), visit)
  {
    hide Node, Clean, AnyOrder, Definitions;
    SanitizedIsClean(root, visit);
    var out := Sanitized(Some(root), visit).value;
    assert AnyOrder(Env(Definitions(out), again)) by { SameOrders(map[], Definitions(out), again); }
    NodeIsSame(out, Env(Definitions(out), again), ROOT);
  }

  lemma SameOrders(defs: Schema, defs': Schema, visit: (seq<Place>, set<string>) -> seq<string>)
    requires AnyOrder(Env(defs, visit))
    ensures AnyOrder(Env(defs', visit))
  {
    forall path, keys
      ensures Caches.Visits(visit(path, keys), keys)
    {
      assert Caches.Visits(Env(defs, visit).visit(path, keys), keys);
    }
  }
}
