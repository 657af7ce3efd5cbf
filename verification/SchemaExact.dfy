/** Compiling keeps the meaning: where nothing is lost, both schemas accept the same instances. */
module SchemaExact {
  import opened Core
  import opened Schemas
  import opened SchemaLaws
  import opened SchemaMeaning
  import Caches

  /** Apart from `k` the node holds only draft metadata. */
  predicate Alone(node: Schema, k: string) {
    forall j {:trigger KindOf(j)} {:trigger node[j]} :: j in node ==> j == k || KindOf(j) == Metadata
  }

  // ----- what a schema will hold once it is compiled

  /** The keywords of a compiled node, the values of those that hold no schemas, and its property names. */
  datatype Sketch = Sketch(keys: set<string>, fixed: map<string, Json>, names: set<string>)

  const NO_SKETCH := Sketch({}, map[], {})

  /** Of a keyword in both, the first sketch keeps its value. */
  function Joined(a: Sketch, b: Sketch): Sketch {
    Sketch(a.keys + b.keys, b.fixed + a.fixed, a.names + b.names)
  }

  predicate IsFixed(k: string) {
    KindOf(k) in {Enum, Ordering, Plain}
  }

  function SketchOf(node: Schema, defs: Schema, depth: nat): Sketch
    decreases 66 - depth, 1, 0
  {
    if depth > MAX_DEPTH then NO_SKETCH
    else if "$ref" in node then
      if node["$ref"].Str? && ResolveRef(node["$ref"].s, defs).Some? then SketchOf(ResolveRef(node["$ref"].s, defs).value.0, defs, depth + 1)
      else NO_SKETCH
    else if "allOf" in node then
      if node["allOf"].Arr? then SketchAll(node["allOf"].elems, defs, depth) else NO_SKETCH
    else
      Sketch(set k | k in node && KindOf(k) != Metadata :: KeyOf(k),
             (map k | k in node && IsFixed(k) :: node[k]) + if "const" in node then map["enum" := Arr([node["const"]])] else map[],
             FieldsOf(At(node, "properties")).Keys)
  }

  function SketchAll(members: seq<Json>, defs: Schema, depth: nat): Sketch
    requires depth <= MAX_DEPTH
    decreases 66 - depth, 0, |members|
  {
    if members == [] then NO_SKETCH
    else
      var last := members[|members| - 1];
      Joined(SketchAll(members[..|members| - 1], defs, depth), if last.Obj? then SketchOf(last.fields, defs, depth + 1) else NO_SKETCH)
  }

  /** What is in both is a required list, properties of different names, or the same value. */
  predicate Clashless(a: Sketch, b: Sketch) {
    && a.names !! b.names
    && forall k :: k in a.keys && k in b.keys ==>
         k == "properties" || k == "required" || (k in a.fixed && k in b.fixed && a.fixed[k] == b.fixed[k])
  }

  /** No member clashes with those before it. */
  predicate MembersClashless(members: seq<Json>, defs: Schema, depth: nat)
    requires depth <= MAX_DEPTH
  {
    members == [] ||
    (&& MembersClashless(members[..|members| - 1], defs, depth)
     && members[|members| - 1].Obj?
     && Clashless(SketchAll(members[..|members| - 1], defs, depth), SketchOf(members[|members| - 1].fields, defs, depth + 1)))
  }

  /**
   * A supported schema in which every node is a bare reference, a list of allOf members that do not
   * clash, or made of keywords that have a Gemini form, const and enum not both, and all its branches
   * are objects.
   */
  ghost predicate Lossless(node: Schema, m: Meaning, defs: Schema, stack: seq<string>, depth: nat)
    decreases 66 - depth, 1
  {
    && depth <= MAX_DEPTH && Supported(node, m, defs, stack, depth)
    && !("const" in node && "enum" in node)
    && ("$ref" in node ==> Alone(node, "$ref"))
    && ("allOf" in node ==> Alone(node, "allOf"))
    && forall k {:trigger LosslessAt(k, node[k], m, defs, stack, depth)} {:trigger node[k]} :: k in node ==>
         LosslessAt(k, node[k], m, defs, stack, depth)
  }

  ghost predicate LosslessAt(k: string, v: Json, m: Meaning, defs: Schema, stack: seq<string>, depth: nat)
    requires depth <= MAX_DEPTH
    decreases 66 - depth, 0
  {
    match KindOf(k)
    case Reference =>
      v.Str? && v.s != "" &&
      (match ResolveRef(v.s, defs)
       case None => false
       case Some((target, name)) => Lossless(target, m, defs, stack + [name], depth + 1))
    case AllOf =>
      && v.Arr? && v.elems != [] && MembersClashless(v.elems, defs, depth)
      && forall i {:trigger v.elems[i]} :: 0 <= i < |v.elems| ==> v.elems[i].Obj? && Lossless(v.elems[i].fields, m, defs, stack, depth + 1)
    case AnyOf =>
      v.Arr? && v.elems != [] &&
      forall i {:trigger v.elems[i]} :: 0 <= i < |v.elems| ==> v.elems[i].Obj? && Lossless(v.elems[i].fields, m, defs, stack, depth + 1)
    case Properties =>
      v.Obj? && v.fields != map[] &&
      forall n {:trigger v.fields[n]} :: n in v.fields ==> v.fields[n].Obj? && Lossless(v.fields[n].fields, m, defs, stack, depth + 1)
    case Items => v.Obj? && Lossless(v.fields, m, defs, stack, depth + 1)
    case Metadata => true
    case Const => true
    case Required => v.Arr?
    case Enum => v.Arr?
    case Ordering => v.Arr?
    case Plain => true
    case _ => false
  }

  lemma LosslessKey(node: Schema, m: Meaning, defs: Schema, stack: seq<string>, depth: nat, k: string)
    requires Lossless(node, m, defs, stack, depth) && k in node
    ensures depth <= MAX_DEPTH && LosslessAt(k, node[k], m, defs, stack, depth)
  {
    hide LosslessAt, Supported, Alone;
  }

  lemma LosslessParts(node: Schema, m: Meaning, defs: Schema, stack: seq<string>, depth: nat)
    requires Lossless(node, m, defs, stack, depth)
    ensures depth <= MAX_DEPTH && Supported(node, m, defs, stack, depth)
    ensures !("const" in node && "enum" in node)
    ensures "$ref" in node ==> Alone(node, "$ref")
    ensures "allOf" in node ==> Alone(node, "allOf")
  {
    hide LosslessAt, Supported, Alone;
  }

  // ----- what each keyword becomes, in any schema without allOf

  function KeyOf(k: string): string {
    if KindOf(k) == Const then "enum" else if KindOf(k) == OneOf then "anyOf" else k
  }

  /** What the keyword leaves in the compiled node; nothing, if it is dropped. */
  function Landed(k: string, v: Json, e: Env, s: Site): Option<Json>
    requires s.depth <= MAX_DEPTH
  {
    match KindOf(k)
    case Const => Some(Arr([v]))
    case OneOf => if v.Arr? && Converted(v.elems, k, e, s) != [] then Some(Arr(Converted(v.elems, k, e, s))) else None
    case AnyOf => if v.Arr? && Converted(v.elems, k, e, s) != [] then Some(Arr(Converted(v.elems, k, e, s))) else None
    case Properties => if v.Obj? && Props(v.fields, e, s) != map[] then Some(Obj(Props(v.fields, e, s))) else None
    case Items =>
      if v.Obj? then Some(Obj(Node(v.fields, e, Below(s, AtItems))))
      else if v.Arr? && Converted(v.elems, k, e, s) != [] then Some(Converted(v.elems, k, e, s)[0])
      else None
    case Additional => if v.Bool? then Some(v) else None
    case Required => if v.Arr? then Some(v) else None
    case Enum => if v.Arr? then Some(v) else None
    case Ordering => if v.Arr? then Some(v) else None
    case Plain => Some(v)
    case _ => None
  }

  lemma KeywordLands(out: Schema, k: string, v: Json, e: Env, s: Site)
    requires s.depth <= MAX_DEPTH && KindOf(k) != AllOf
    ensures Keyword(out, k, v, e, s) == match Landed(k, v, e, s) case None => out case Some(w) => out[KeyOf(k) := w]
  {
    hide KindOf, Node, Converted, Props;
    Kinds();
  }

  /** No two keywords of the node have the same Gemini form. */
  predicate Unclashed(node: Schema) {
    && "allOf" !in node && !("const" in node && "enum" in node) && !("oneOf" in node && "anyOf" in node)
  }

  /** Two keywords never end in the same place. */
  lemma KeysApart(node: Schema, j: string, k: string)
    requires Unclashed(node) && j in node && k in node && j != k
    ensures KeyOf(j) != KeyOf(k)
  {
    hide KindOf;
    Kinds();
  }

  lemma NotAllOf(node: Schema, k: string)
    requires Unclashed(node) && k in node
    ensures KindOf(k) != AllOf
  {
    hide KindOf;
    Kinds();
  }

  /**
   * Without allOf, for every order of visits: each keyword ends in its own place with its own value
   * or is dropped, and nothing else is there.
   */
  lemma {:induction false} EveryKeyLands(node: Schema, e: Env, s: Site, keys: seq<string>, at: string)
    requires s.depth <= MAX_DEPTH && Unclashed(node)
    ensures forall k :: k in node && k in keys && KeyOf(k) == at ==> At(Siblings(node, e, s, keys), at) == Landed(k, node[k], e, s)
    ensures (forall k :: k in node && k in keys ==> KeyOf(k) != at) ==> At(Siblings(node, e, s, keys), at) == None
    decreases |keys|
  {
    hide Keyword, KindOf, KeyOf, Landed, Unclashed;
    if keys != [] {
      var n := |keys| - 1;
      var j := keys[n];
      EveryKeyLands(node, e, s, keys[..n], at);
      if j in node {
        NotAllOf(node, j);
        KeywordLands(Siblings(node, e, s, keys[..n]), j, node[j], e, s);
        forall k | k in node && k in keys && k != j
          ensures KeyOf(k) != KeyOf(j) && k in keys[..n]
        {
          KeysApart(node, j, k);
        }
        if KeyOf(j) == at && j !in keys[..n] {
          assert forall k :: k in node && k in keys[..n] ==> KeyOf(k) != at;
        }
      }
    }
  }

  // ----- the keywords of a lossless node

  predicate Simple(k: string) {
    KindOf(k) in {Const, AnyOf, Properties, Items, Required, Enum, Ordering, Plain}
  }

  /** Every simple keyword of a lossless node stays. */
  lemma SimpleStays(k: string, v: Json, e: Env, s: Site, m: Meaning)
    requires s.depth <= MAX_DEPTH && LosslessAt(k, v, m, e.defs, s.stack, s.depth) && Simple(k)
    ensures Landed(k, v, e, s).Some?
  {
    hide KindOf, Node, Converted, Props, Lossless, MembersClashless;
    if KindOf(k) == AnyOf {
      ConvertedAll(v.elems, k, e, s);
    } else if KindOf(k) == Properties {
      var n :| n in v.fields;
      PropsAt(v.fields, e, s, n);
      assert Props(v.fields, e, s) != map[];
    }
  }

  lemma SilentIs(out: Schema, k: string, v: Json, e: Env, s: Site)
    requires s.depth <= MAX_DEPTH && KindOf(k) in {Metadata, Reference}
    ensures Keyword(out, k, v, e, s) == out
  {
    hide KindOf, Node, Converted, Props;
  }

  lemma LosslessUnclashed(node: Schema, m: Meaning, defs: Schema, stack: seq<string>, depth: nat)
    requires Lossless(node, m, defs, stack, depth) && "$ref" !in node && "allOf" !in node
    ensures Unclashed(node)
  {
    hide KindOf, LosslessAt, Supported;
    Kinds();
    LosslessParts(node, m, defs, stack, depth);
    if "oneOf" in node {
      LosslessKey(node, m, defs, stack, depth, "oneOf");
      NoOneOf(node["oneOf"], m, defs, stack, depth);
    }
  }

  lemma NoOneOf(v: Json, m: Meaning, defs: Schema, stack: seq<string>, depth: nat)
    requires depth <= MAX_DEPTH
    ensures !LosslessAt("oneOf", v, m, defs, stack, depth)
  {
    hide KindOf;
    Kinds();
  }

  lemma PlainKey(node: Schema, m: Meaning, defs: Schema, stack: seq<string>, depth: nat, k: string)
    requires Lossless(node, m, defs, stack, depth) && "$ref" !in node && "allOf" !in node
    requires k in node && KindOf(k) != Metadata
    ensures Simple(k)
  {
    hide KindOf, Lossless;
    Kinds();
    LosslessKey(node, m, defs, stack, depth, k);
  }

  // ----- nodes with one reference or one allOf

  lemma {:induction false} AloneSiblings(node: Schema, e: Env, s: Site, keys: seq<string>, k: string)
    requires s.depth <= MAX_DEPTH && Alone(node, k) && k in node && Caches.NoDup(keys)
    ensures Siblings(node, e, s, keys) == if k in keys then Keyword(map[], k, node[k], e, s) else map[]
    decreases |keys|
  {
    hide Keyword, KindOf;
    if keys != [] {
      var n := |keys| - 1;
      AloneSiblings(node, e, s, keys[..n], k);
      if keys[n] in node && keys[n] != k {
        SilentIs(Siblings(node, e, s, keys[..n]), keys[n], node[keys[n]], e, s);
      }
    }
  }

  lemma AloneNode(node: Schema, e: Env, s: Site, k: string)
    requires s.depth <= MAX_DEPTH && Alone(node, k) && k in node && AnyOrder(e)
    ensures Siblings(node, e, s, e.visit(s.path, node.Keys)) == Keyword(map[], k, node[k], e, s)
  {
    hide Keyword, KindOf, Alone, Siblings;
    var keys := e.visit(s.path, node.Keys);
    assert Caches.Visits(keys, node.Keys);
    AloneSiblings(node, e, s, keys, k);
    VisitedKey(e, s.path, node, k);
  }

  // ----- the sketch of a lossless node

  /** The compiled node holds no more than its sketch says. */
  predicate Fits(node: Schema, a: Sketch) {
    && node.Keys <= a.keys && FieldsOf(At(node, "properties")).Keys <= a.names
    && forall k :: k in node && k in a.fixed ==> node[k] == a.fixed[k]
  }

  lemma {:induction false} FixedKeys(node: Schema, defs: Schema, depth: nat)
    ensures SketchOf(node, defs, depth).fixed.Keys <= SketchOf(node, defs, depth).keys
    decreases 66 - depth, 1, 0
  {
    hide KindOf, ResolveRef;
    Kinds();
    if depth <= MAX_DEPTH {
      if "$ref" in node {
        if node["$ref"].Str? && ResolveRef(node["$ref"].s, defs).Some? {
          FixedKeys(ResolveRef(node["$ref"].s, defs).value.0, defs, depth + 1);
        }
      } else if "allOf" in node {
        if node["allOf"].Arr? {
          FixedKeysAll(node["allOf"].elems, defs, depth);
        }
      } else {
        FlatFixed(node, defs, depth);
      }
    }
  }

  lemma FlatFixed(node: Schema, defs: Schema, depth: nat)
    requires depth <= MAX_DEPTH && "$ref" !in node && "allOf" !in node
    ensures SketchOf(node, defs, depth).fixed.Keys <= SketchOf(node, defs, depth).keys
  {
    hide KindOf;
    Kinds();
    var a := SketchOf(node, defs, depth);
    forall k | k in a.fixed
      ensures k in a.keys
    {
      if k in node && IsFixed(k) {
        assert KeyOf(k) == k;
      } else {
        assert KeyOf("const") == k;
      }
    }
  }

  lemma {:induction false} FixedKeysAll(members: seq<Json>, defs: Schema, depth: nat)
    requires depth <= MAX_DEPTH
    ensures SketchAll(members, defs, depth).fixed.Keys <= SketchAll(members, defs, depth).keys
    decreases 66 - depth, 0, |members|
  {
    hide SketchOf;
    if members != [] {
      FixedKeysAll(members[..|members| - 1], defs, depth);
      if members[|members| - 1].Obj? {
        FixedKeys(members[|members| - 1].fields, defs, depth + 1);
      }
    }
  }

  /** A merge fits the joined sketches. */
  lemma MergedFits(dst: Schema, src: Schema, a: Sketch, b: Sketch)
    requires Fits(dst, a) && Fits(src, b) && Clashless(a, b) && a.fixed.Keys <= a.keys && b.fixed.Keys <= b.keys
    requires "properties" !in a.fixed && "required" !in a.fixed && "properties" !in b.fixed && "required" !in b.fixed
    ensures Fits(Merged(dst, src), Joined(a, b))
  {
    hide MergedValue;
    MergedHas(dst, src);
    var out := Merged(dst, src);
    forall n | n in FieldsOf(At(out, "properties"))
      ensures n in a.names + b.names
    {
      assert n in FieldsOf(At(dst, "properties")) || n in FieldsOf(At(src, "properties"));
    }
    forall k | k in out && k in Joined(a, b).fixed
      ensures out[k] == Joined(a, b).fixed[k]
    {
      assert At(out, k) == if At(dst, k).Some? then At(dst, k) else At(src, k);
      AtKey(out, k);
      AtKey(dst, k);
      AtKey(src, k);
    }
  }

  /** Where nothing clashes, both schemas accept what their merge accepts. */
  lemma MergedExact(dst: Schema, src: Schema, a: Sketch, b: Sketch, h: nat, x: Json, m: Meaning, g: nat)
    requires Fits(dst, a) && Fits(src, b) && Clashless(a, b) && Tidy(dst, h) && Tidy(src, h)
    requires Meets(Merged(dst, src), x, m, g)
    ensures Meets(dst, x, m, g) && Meets(src, x, m, g)
  {
    hide Holds, MergedValue, TidyAt, Fits, Clashless;
    forall k | k in dst
      ensures Holds(k, dst[k], x, m, g)
    {
      TidyGet(dst, k, h);
      PartHolds(dst, src, a, b, k, dst[k], h, x, m, g);
    }
    forall k | k in src
      ensures Holds(k, src[k], x, m, g)
    {
      TidyGet(src, k, h);
      PartHolds(dst, src, a, b, k, src[k], h, x, m, g);
    }
  }

  /** A keyword of either side holds where the merged one does. */
  lemma PartHolds(dst: Schema, src: Schema, a: Sketch, b: Sketch, k: string, v: Json, h: nat, x: Json, m: Meaning, g: nat)
    requires Fits(dst, a) && Fits(src, b) && Clashless(a, b)
    requires (k in dst && v == dst[k]) || (k in src && v == src[k])
    requires TidyAt(k, v, h) && Meets(Merged(dst, src), x, m, g)
    ensures Holds(k, v, x, m, g)
  {
    hide Holds, MergedValue, TidyAt, Meets;
    var out := Merged(dst, src);
    MergedHas(dst, src);
    AtKey(out, k);
    AtKey(dst, k);
    AtKey(src, k);
    if k == "properties" {
      PropertiesPart(dst, src, a, b, v, h, x, m, g);
    } else if k == "required" {
      RequiredPart(dst, src, v, h, x, m, g);
    } else {
      assert At(out, k) == if At(dst, k).Some? then At(dst, k) else At(src, k);
      MeetsKey(out, k, x, m, g);
    }
  }

  lemma PropertiesPart(dst: Schema, src: Schema, a: Sketch, b: Sketch, v: Json, h: nat, x: Json, m: Meaning, g: nat)
    requires Fits(dst, a) && Fits(src, b) && a.names !! b.names
    requires ("properties" in dst && v == dst["properties"]) || ("properties" in src && v == src["properties"])
    requires TidyAt("properties", v, h) && Meets(Merged(dst, src), x, m, g)
    ensures Holds("properties", v, x, m, g)
  {
    hide Holds, Meets, MergedValue, Merged;
    MergedHas(dst, src);
    var out := Merged(dst, src);
    TidyProperties(v, h);
    var n :| n in v.fields;
    assert n in FieldsOf(At(out, "properties"));
    MeetsKey(out, "properties", x, m, g);
    forall n | n in v.fields
      ensures n in out["properties"].fields && out["properties"].fields[n] == v.fields[n]
    {
      assert n in FieldsOf(At(out, "properties"));
    }
    SubProperties(out["properties"], v, x, m, g);
  }

  lemma TidyProperties(v: Json, h: nat)
    requires TidyAt("properties", v, h)
    ensures v.Obj? && v.fields != map[]
  {
    hide KindOf;
    Kinds();
  }

  lemma SubProperties(all: Json, v: Json, x: Json, m: Meaning, g: nat)
    requires all.Obj? && v.Obj? && Holds("properties", all, x, m, g)
    requires forall n :: n in v.fields ==> n in all.fields && all.fields[n] == v.fields[n]
    ensures Holds("properties", v, x, m, g)
  {
    hide KindOf, Allows;
    Kinds();
  }

  lemma RequiredPart(dst: Schema, src: Schema, v: Json, h: nat, x: Json, m: Meaning, g: nat)
    requires ("required" in dst && v == dst["required"]) || ("required" in src && v == src["required"])
    requires TidyAt("required", v, h) && Meets(Merged(dst, src), x, m, g)
    ensures Holds("required", v, x, m, g)
  {
    hide KindOf, Meets, MergedValue, Merged;
    Kinds();
    MergedHas(dst, src);
    var out := Merged(dst, src);
    if v.elems != [] && x.Obj? {
      assert v.elems[0] in Elems(At(out, "required"));
      MeetsKey(out, "required", x, m, g);
      forall i | 0 <= i < |v.elems| && v.elems[i].Str?
        ensures v.elems[i].s in x.fields
      {
        assert v.elems[i] in Elems(At(out, "required"));
        var j :| 0 <= j < |out["required"].elems| && out["required"].elems[j] == v.elems[i];
      }
    }
  }

  // ----- the merge of all members

  predicate NoFixedLists(a: Sketch) {
    "properties" !in a.fixed && "required" !in a.fixed
  }

  lemma {:induction false} SketchLists(node: Schema, defs: Schema, depth: nat)
    ensures NoFixedLists(SketchOf(node, defs, depth))
    decreases 66 - depth, 1, 0
  {
    hide KindOf, ResolveRef, KeyOf;
    Kinds();
    if depth <= MAX_DEPTH {
      if "$ref" in node {
        if node["$ref"].Str? && ResolveRef(node["$ref"].s, defs).Some? {
          SketchLists(ResolveRef(node["$ref"].s, defs).value.0, defs, depth + 1);
        }
      } else if "allOf" in node && node["allOf"].Arr? {
        SketchListsAll(node["allOf"].elems, defs, depth);
      }
    }
  }

  lemma {:induction false} SketchListsAll(members: seq<Json>, defs: Schema, depth: nat)
    requires depth <= MAX_DEPTH
    ensures NoFixedLists(SketchAll(members, defs, depth))
    decreases 66 - depth, 0, |members|
  {
    hide SketchOf;
    if members != [] {
      SketchListsAll(members[..|members| - 1], defs, depth);
      if members[|members| - 1].Obj? {
        SketchLists(members[|members| - 1].fields, defs, depth + 1);
      }
    }
  }

  /** The merge of the first members fits their sketch. */
  lemma {:induction false} MembersFit(members: seq<Json>, e: Env, s: Site)
    requires s.depth <= MAX_DEPTH && MembersClashless(members, e.defs, s.depth)
    requires forall i :: 0 <= i < |members| ==>
               members[i].Obj? && Fits(Node(members[i].fields, e, Below(s, AtMember("allOf", i))), SketchOf(members[i].fields, e.defs, s.depth + 1))
    ensures Fits(MergeAll(map[], members, e, s), SketchAll(members, e.defs, s.depth))
    decreases |members|
  {
    hide Node, Merged, SketchOf, Fits, Clashless, NoFixedLists;
    if members == [] {
      assert Fits(map[], NO_SKETCH) by { NothingFits(); }
    } else {
      var n := |members| - 1;
      var a, b := SketchAll(members[..n], e.defs, s.depth), SketchOf(members[n].fields, e.defs, s.depth + 1);
      MembersFit(members[..n], e, s);
      FixedKeysAll(members[..n], e.defs, s.depth);
      FixedKeys(members[n].fields, e.defs, s.depth + 1);
      SketchListsAll(members[..n], e.defs, s.depth);
      SketchLists(members[n].fields, e.defs, s.depth + 1);
      FitTogether(MergeAll(map[], members[..n], e, s), Node(members[n].fields, e, Below(s, AtMember("allOf", n))), a, b);
    }
  }

  lemma FitTogether(dst: Schema, src: Schema, a: Sketch, b: Sketch)
    requires Fits(dst, a) && Fits(src, b) && Clashless(a, b) && a.fixed.Keys <= a.keys && b.fixed.Keys <= b.keys && NoFixedLists(a) && NoFixedLists(b)
    ensures Fits(Merged(dst, src), Joined(a, b))
  {
    hide Fits, Clashless, Merged;
    MergedFits(dst, src, a, b);
  }

  lemma NothingFits()
    ensures Fits(map[], NO_SKETCH)
  {
  }

  /** Each member accepts what the merge of all accepts. */
  lemma {:induction false} AllMerged(members: seq<Json>, e: Env, s: Site, x: Json, m: Meaning, g: nat)
    requires s.depth <= MAX_DEPTH && MembersClashless(members, e.defs, s.depth)
    requires forall i :: 0 <= i < |members| ==>
               members[i].Obj? && Fits(Node(members[i].fields, e, Below(s, AtMember("allOf", i))), SketchOf(members[i].fields, e.defs, s.depth + 1))
    requires Meets(MergeAll(map[], members, e, s), x, m, g)
    ensures forall i :: 0 <= i < |members| ==> Meets(Node(members[i].fields, e, Below(s, AtMember("allOf", i))), x, m, g)
    decreases |members|
  {
    hide Node, Merged, SketchOf, Fits, Clashless, Meets, Tidy;
    if members != [] {
      var n := |members| - 1;
      var a, b := SketchAll(members[..n], e.defs, s.depth), SketchOf(members[n].fields, e.defs, s.depth + 1);
      var dst, src := MergeAll(map[], members[..n], e, s), Node(members[n].fields, e, Below(s, AtMember("allOf", n)));
      MembersFit(members[..n], e, s);
      AllTidy(members[..n], e, s);
      NodeIsClean(members[n].fields, e, Below(s, AtMember("allOf", n)));
      CleanIsTidy(src, MAX_DEPTH - s.depth);
      MergedExact(dst, src, a, b, MAX_DEPTH + 1 - s.depth, x, m, g);
      AllMerged(members[..n], e, s, x, m, g);
    }
  }

  lemma CleanIsTidy(node: Schema, h: nat)
    requires Clean(node, h)
    ensures Tidy(node, h + 1)
  {
    hide TidyAt;
    Higher(node, h);
  }

  lemma AllTidy(members: seq<Json>, e: Env, s: Site)
    requires s.depth <= MAX_DEPTH
    ensures Tidy(MergeAll(map[], members, e, s), MAX_DEPTH + 1 - s.depth)
  {
    hide MergeAll, TidyAt;
    MergeAllTidy(map[], members, e, s);
  }

  /** A compiled lossless node fits its sketch, for every order of visits. */
  lemma {:induction false} NodeFits(node: Schema, e: Env, s: Site, m: Meaning)
    requires Lossless(node, m, e.defs, s.stack, s.depth) && AnyOrder(e)
    ensures Fits(Node(node, e, s), SketchOf(node, e.defs, s.depth))
    decreases 66 - s.depth, 1
  {
    hide Siblings, Lossless, LosslessAt, Supported, AnyOrder, Node, Keyword, Alone, KindOf, Fits, TargetOf;
    LosslessParts(node, m, e.defs, s.stack, s.depth);
    NoFallback(node, e, s, m);
    if "$ref" in node {
      RefFits(node, e, s, m);
    } else if "allOf" in node {
      NoRefTarget(node, e);
      AllOfFits(node, e, s, m);
    } else {
      NoRefTarget(node, e);
      FlatFits(node, e, s, m);
    }
  }

  lemma {:induction false} RefFits(node: Schema, e: Env, s: Site, m: Meaning)
    requires Lossless(node, m, e.defs, s.stack, s.depth) && AnyOrder(e) && "$ref" in node
    ensures Fits(Node(node, e, s), SketchOf(node, e.defs, s.depth))
    decreases 66 - s.depth, 0
  {
    hide Siblings, Lossless, LosslessAt, Supported, AnyOrder, Node, Keyword, Alone, KindOf, Fits, ResolveRef;
    Kinds();
    LosslessParts(node, m, e.defs, s.stack, s.depth);
    NoFallback(node, e, s, m);
    AloneNode(node, e, s, "$ref");
    SilentIs(map[], "$ref", node["$ref"], e, s);
    RefTarget(node, e, s, m);
    var t := TargetOf(node, e).value;
    assert Node(t.0, e, Through(s, t.1)) + map[] == Node(t.0, e, Through(s, t.1));
    NodeFits(t.0, e, Through(s, t.1), m);
  }

  lemma {:induction false} AllOfFits(node: Schema, e: Env, s: Site, m: Meaning)
    requires Lossless(node, m, e.defs, s.stack, s.depth) && AnyOrder(e) && "allOf" in node && "$ref" !in node
    requires s.depth <= MAX_DEPTH && Node(node, e, s) == Siblings(node, e, s, e.visit(s.path, node.Keys))
    ensures Fits(Node(node, e, s), SketchOf(node, e.defs, s.depth))
    decreases 66 - s.depth, 0
  {
    hide Siblings, Lossless, Supported, AnyOrder, Node, Alone, KindOf, MergeAll, MembersClashless, Fits;
    Kinds();
    LosslessParts(node, m, e.defs, s.stack, s.depth);
    LosslessKey(node, m, e.defs, s.stack, s.depth, "allOf");
    AloneNode(node, e, s, "allOf");
    AllOfIs(node["allOf"], e, s);
    var members := node["allOf"].elems;
    forall i | 0 <= i < |members|
      ensures Fits(Node(members[i].fields, e, Below(s, AtMember("allOf", i))), SketchOf(members[i].fields, e.defs, s.depth + 1))
    {
      NodeFits(members[i].fields, e, Below(s, AtMember("allOf", i)), m);
    }
    MembersFit(members, e, s);
  }

  lemma FlatFits(node: Schema, e: Env, s: Site, m: Meaning)
    requires Lossless(node, m, e.defs, s.stack, s.depth) && AnyOrder(e) && "allOf" !in node && "$ref" !in node
    requires s.depth <= MAX_DEPTH && Node(node, e, s) == Siblings(node, e, s, e.visit(s.path, node.Keys))
    ensures Fits(Node(node, e, s), SketchOf(node, e.defs, s.depth))
  {
    hide Siblings, Lossless, LosslessAt, Supported, AnyOrder, Node, KindOf, KeyOf, Landed, Unclashed;
    LosslessUnclashed(node, m, e.defs, s.stack, s.depth);
    var keys := e.visit(s.path, node.Keys);
    var out, a := Siblings(node, e, s, keys), SketchOf(node, e.defs, s.depth);
    forall at
      ensures at in out ==> exists k :: k in node && KeyOf(k) == at && Landed(k, node[k], e, s) == Some(out[at])
    {
      EveryKeyLands(node, e, s, keys, at);
      AtKey(out, at);
    }
    forall at | at in out
      ensures at in a.keys && (at in a.fixed ==> out[at] == a.fixed[at])
      ensures at == "properties" ==> FieldsOf(Some(out[at])).Keys <= a.names
    {
      var k :| k in node && KeyOf(k) == at && Landed(k, node[k], e, s) == Some(out[at]);
      LandedSketch(node, e, s, k, at, a);
    }
    AtKey(out, "properties");
  }

  lemma LandedSketch(node: Schema, e: Env, s: Site, k: string, at: string, a: Sketch)
    requires s.depth <= MAX_DEPTH && "$ref" !in node && "allOf" !in node && a == SketchOf(node, e.defs, s.depth) && Unclashed(node)
    requires k in node && KeyOf(k) == at && Landed(k, node[k], e, s).Some?
    ensures at in a.keys && (at in a.fixed ==> Landed(k, node[k], e, s).value == a.fixed[at])
    ensures at == "properties" ==> FieldsOf(Landed(k, node[k], e, s)).Keys <= a.names
  {
    hide KindOf, Landed, KeyOf, IsFixed;
    LandedNotSilent(k, node[k], e, s);
    if at in a.fixed {
      FixedLands(node, k, e, s);
    }
    if at == "properties" {
      PropertiesLand(k, node[k], e, s);
    }
  }

  lemma LandedNotSilent(k: string, v: Json, e: Env, s: Site)
    requires s.depth <= MAX_DEPTH && Landed(k, v, e, s).Some?
    ensures KindOf(k) != Metadata
  {
    hide KindOf;
  }

  lemma FixedLands(node: Schema, k: string, e: Env, s: Site)
    requires s.depth <= MAX_DEPTH && k in node && Unclashed(node) && Landed(k, node[k], e, s).Some?
    requires var fixed := (map j | j in node && IsFixed(j) :: node[j]) + if "const" in node then map["enum" := Arr([node["const"]])] else map[];
             KeyOf(k) in fixed
    ensures var fixed := (map j | j in node && IsFixed(j) :: node[j]) + if "const" in node then map["enum" := Arr([node["const"]])] else map[];
            Landed(k, node[k], e, s).value == fixed[KeyOf(k)]
  {
    hide KindOf, Node, Converted, Props;
    Kinds();
  }

  lemma PropertiesLand(k: string, v: Json, e: Env, s: Site)
    requires s.depth <= MAX_DEPTH && KeyOf(k) == "properties" && Landed(k, v, e, s).Some?
    ensures k == "properties" && v.Obj? && FieldsOf(Landed(k, v, e, s)).Keys <= v.fields.Keys
  {
    hide KindOf, Node, Converted;
    Kinds();
  }

  /** What the merge accepts, each compiled member accepts. */
  lemma MembersMeet(members: seq<Json>, e: Env, s: Site, x: Json, m: Meaning, g: nat)
    requires s.depth <= MAX_DEPTH && MembersClashless(members, e.defs, s.depth) && AnyOrder(e)
    requires forall i {:trigger members[i]} :: 0 <= i < |members| ==> members[i].Obj? && Lossless(members[i].fields, m, e.defs, s.stack, s.depth + 1)
    requires Meets(MergeAll(map[], members, e, s), x, m, g)
    ensures forall i :: 0 <= i < |members| ==> Meets(Node(members[i].fields, e, Below(s, AtMember("allOf", i))), x, m, g)
  {
    hide Lossless, AnyOrder, Meets, Node, MergeAll, MembersClashless, Fits, SketchOf;
    forall i | 0 <= i < |members|
      ensures Fits(Node(members[i].fields, e, Below(s, AtMember("allOf", i))), SketchOf(members[i].fields, e.defs, s.depth + 1))
    {
      NodeFits(members[i].fields, e, Below(s, AtMember("allOf", i)), m);
    }
    AllMerged(members, e, s, x, m, g);
  }

  // ----- exactness

  /** What the compiled node accepts, the node accepts. */
  lemma {:induction false} NodeExact(node: Schema, e: Env, s: Site, x: Json, m: Meaning, f: nat, g: nat)
    requires Lossless(node, m, e.defs, s.stack, s.depth) && AnyOrder(e) && g + s.depth > MAX_DEPTH
    requires Meets(Node(node, e, s), x, m, g)
    ensures Meets(node, x, m, f)
    decreases 66 - s.depth, 3, 0
  {
    hide Siblings, Lossless, LosslessAt, Supported, AnyOrder, Meets, Holds, TargetOf, Node, Keyword, Alone;
    LosslessParts(node, m, e.defs, s.stack, s.depth);
    NoFallback(node, e, s, m);
    if "$ref" in node {
      RefExact(node, e, s, x, m, f, g);
    } else if "allOf" in node {
      NoRefTarget(node, e);
      AllOfExact(node, e, s, x, m, f, g);
    } else {
      NoRefTarget(node, e);
      forall k | k in node
        ensures Holds(k, node[k], x, m, f)
      {
        KeywordExact(node, e, s, k, x, m, f, g);
      }
      MeetsAll(node, x, m, f);
    }
  }

  lemma NoRefTarget(node: Schema, e: Env)
    requires "$ref" !in node
    ensures TargetOf(node, e) == None
  {
  }

  lemma MeetsAll(node: Schema, x: Json, m: Meaning, f: nat)
    requires forall k :: k in node ==> Holds(k, node[k], x, m, f)
    ensures Meets(node, x, m, f)
  {
    hide Holds;
  }

  lemma AloneMeets(node: Schema, k: string, x: Json, m: Meaning, f: nat)
    requires k in node && Alone(node, k) && Holds(k, node[k], x, m, f)
    ensures Meets(node, x, m, f)
  {
    hide KindOf;
  }

  lemma {:induction false} RefExact(node: Schema, e: Env, s: Site, x: Json, m: Meaning, f: nat, g: nat)
    requires Lossless(node, m, e.defs, s.stack, s.depth) && AnyOrder(e) && g + s.depth > MAX_DEPTH && "$ref" in node
    requires Meets(Node(node, e, s), x, m, g)
    ensures Meets(node, x, m, f)
    decreases 66 - s.depth, 2, 0
  {
    hide Siblings, Lossless, LosslessAt, Supported, AnyOrder, Meets, Holds, TargetOf, Node, Keyword, Alone, KindOf;
    Kinds();
    LosslessParts(node, m, e.defs, s.stack, s.depth);
    NoFallback(node, e, s, m);
    AloneNode(node, e, s, "$ref");
    SilentIs(map[], "$ref", node["$ref"], e, s);
    RefTarget(node, e, s, m);
    var t := TargetOf(node, e).value;
    assert Node(t.0, e, Through(s, t.1)) + map[] == Node(t.0, e, Through(s, t.1));
    if f > 0 {
      NodeExact(t.0, e, Through(s, t.1), x, m, f - 1, g);
    }
    TargetSupported(node, e, s, m);
    RefHolds(node["$ref"], t.0, x, m, f);
    AloneMeets(node, "$ref", x, m, f);
  }

  lemma RefTarget(node: Schema, e: Env, s: Site, m: Meaning)
    requires Lossless(node, m, e.defs, s.stack, s.depth) && "$ref" in node
    ensures s.depth <= MAX_DEPTH && TargetOf(node, e).Some?
    ensures Lossless(TargetOf(node, e).value.0, m, e.defs, s.stack + [TargetOf(node, e).value.1], s.depth + 1)
  {
    hide Lossless, KindOf, ResolveRef;
    Kinds();
    LosslessKey(node, m, e.defs, s.stack, s.depth, "$ref");
  }

  lemma RefHolds(v: Json, target: Schema, x: Json, m: Meaning, f: nat)
    requires v.Str? && v.s != "" && m.refs(v.s) == Some(target) && (f > 0 ==> Meets(target, x, m, f - 1))
    ensures Holds("$ref", v, x, m, f)
  {
    hide Meets, KindOf;
    Kinds();
  }

  /** Every member of the list alone accepts what the merge of all accepts. */
  lemma {:induction false} AllOfExact(node: Schema, e: Env, s: Site, x: Json, m: Meaning, f: nat, g: nat)
    requires Lossless(node, m, e.defs, s.stack, s.depth) && AnyOrder(e) && g + s.depth > MAX_DEPTH && "allOf" in node
    requires s.depth <= MAX_DEPTH && Meets(Siblings(node, e, s, e.visit(s.path, node.Keys)), x, m, g)
    ensures Meets(node, x, m, f)
    decreases 66 - s.depth, 2, 0
  {
    hide Siblings, Lossless, Supported, AnyOrder, Meets, Holds, Node, Alone, KindOf, MergeAll, MembersClashless;
    Kinds();
    LosslessParts(node, m, e.defs, s.stack, s.depth);
    LosslessKey(node, m, e.defs, s.stack, s.depth, "allOf");
    AloneNode(node, e, s, "allOf");
    var members := node["allOf"].elems;
    AllOfIs(node["allOf"], e, s);
    MembersMeet(members, e, s, x, m, g);
    forall i | 0 <= i < |members|
      ensures f > 0 ==> Meets(members[i].fields, x, m, f - 1)
    {
      if f > 0 {
        NodeExact(members[i].fields, e, Below(s, AtMember("allOf", i)), x, m, f - 1, g);
      }
    }
    AllMembersHold(node["allOf"], x, m, f);
    AloneMeets(node, "allOf", x, m, f);
  }

  lemma AllOfIs(v: Json, e: Env, s: Site)
    requires s.depth <= MAX_DEPTH && v.Arr?
    ensures Keyword(map[], "allOf", v, e, s) == MergeAll(map[], v.elems, e, s)
  {
    hide KindOf, MergeAll;
    Kinds();
  }

  lemma AllMembersHold(v: Json, x: Json, m: Meaning, f: nat)
    requires v.Arr? && forall i :: 0 <= i < |v.elems| ==> v.elems[i].Obj? && (f > 0 ==> Meets(v.elems[i].fields, x, m, f - 1))
    ensures Holds("allOf", v, x, m, f)
  {
    hide KindOf, Meets;
    Kinds();
  }

  lemma OneMember(v: Json, e: Env, s: Site)
    requires s.depth <= MAX_DEPTH && v.Arr? && |v.elems| == 1 && v.elems[0].Obj?
    ensures Keyword(map[], "allOf", v, e, s) == Merged(map[], Node(v.elems[0].fields, e, Below(s, AtMember("allOf", 0))))
  {
    hide KindOf, Node, Merged;
    Kinds();
    assert v.elems[..0] == [];
    assert MergeAll(map[], [], e, s) == map[];
  }

  lemma OneMemberHolds(v: Json, x: Json, m: Meaning, f: nat)
    requires v.Arr? && |v.elems| == 1 && v.elems[0].Obj? && (f > 0 ==> Meets(v.elems[0].fields, x, m, f - 1))
    ensures Holds("allOf", v, x, m, f)
  {
    hide KindOf, Meets;
    Kinds();
  }

  lemma {:induction false} KeywordExact(node: Schema, e: Env, s: Site, k: string, x: Json, m: Meaning, f: nat, g: nat)
    requires Lossless(node, m, e.defs, s.stack, s.depth) && AnyOrder(e) && g + s.depth > MAX_DEPTH
    requires s.depth <= MAX_DEPTH && Meets(Siblings(node, e, s, e.visit(s.path, node.Keys)), x, m, g)
    requires "$ref" !in node && "allOf" !in node && k in node
    ensures Holds(k, node[k], x, m, f)
    decreases 66 - s.depth, 2, 0
  {
    hide Siblings, Lossless, LosslessAt, AnyOrder, Meets, Holds, KindOf, KeyOf, Landed, Simple, Unclashed;
    var out := Siblings(node, e, s, e.visit(s.path, node.Keys));
    LosslessKey(node, m, e.defs, s.stack, s.depth, k);
    if KindOf(k) == Metadata {
      MetadataHolds(k, node[k], x, m, f);
    } else {
      VisitedKey(e, s.path, node, k);
      LosslessUnclashed(node, m, e.defs, s.stack, s.depth);
      EveryKeyLands(node, e, s, e.visit(s.path, node.Keys), KeyOf(k));
      PlainKey(node, m, e.defs, s.stack, s.depth, k);
      SimpleStays(k, node[k], e, s, m);
      AtKey(out, KeyOf(k));
      MeetsKey(out, KeyOf(k), x, m, g);
      ValueExact(k, node[k], e, s, x, m, f, g);
    }
  }

  lemma AtKey(node: Schema, k: string)
    ensures At(node, k).Some? <==> k in node
    ensures k in node ==> At(node, k).value == node[k]
  {
  }

  lemma MetadataHolds(k: string, v: Json, x: Json, m: Meaning, f: nat)
    requires KindOf(k) == Metadata
    ensures Holds(k, v, x, m, f)
  {
  }

  lemma {:induction false} ValueExact(k: string, v: Json, e: Env, s: Site, x: Json, m: Meaning, f: nat, g: nat)
    requires s.depth <= MAX_DEPTH && LosslessAt(k, v, m, e.defs, s.stack, s.depth) && Simple(k) && AnyOrder(e) && g + s.depth > MAX_DEPTH
    requires Landed(k, v, e, s).Some? && Holds(KeyOf(k), Landed(k, v, e, s).value, x, m, g)
    ensures Holds(k, v, x, m, f)
    decreases 66 - s.depth, 1, 0
  {
    hide Lossless, AnyOrder, Meets, KindOf, Node, Converted, Props, Allows, MembersClashless;
    Kinds();
    if KindOf(k) == AnyOf {
      BranchExact(k, v, e, s, x, m, f, g);
    } else if KindOf(k) == Properties && x.Obj? {
      var c := Landed(k, v, e, s).value;
      forall n | n in v.fields && n in x.fields
        ensures Allows(v.fields[n], x.fields[n], m, f)
      {
        PropsAt(v.fields, e, s, n);
        assert Allows(c.fields[n], x.fields[n], m, g);
        ChildExact(v.fields[n], e, Below(s, AtProperty(n)), x.fields[n], m, f, g);
      }
    } else if KindOf(k) == Items && x.Arr? {
      forall i | 0 <= i < |x.elems|
        ensures Allows(v, x.elems[i], m, f)
      {
        ChildExact(v, e, Below(s, AtItems), x.elems[i], m, f, g);
      }
    }
  }

  lemma {:induction false} BranchExact(k: string, v: Json, e: Env, s: Site, x: Json, m: Meaning, f: nat, g: nat)
    requires s.depth <= MAX_DEPTH && LosslessAt(k, v, m, e.defs, s.stack, s.depth) && AnyOrder(e) && g + s.depth > MAX_DEPTH
    requires KindOf(k) == AnyOf && Holds(k, Arr(Converted(v.elems, k, e, s)), x, m, g)
    ensures Holds(k, v, x, m, f)
    decreases 66 - s.depth, 0, 0
  {
    hide Lossless, AnyOrder, Meets, KindOf, Node, Converted, Allows;
    ConvertedAll(v.elems, k, e, s);
    var c := Arr(Converted(v.elems, k, e, s));
    var i :| 0 <= i < |c.elems| && Allows(c.elems[i], x, m, g);
    ChildExact(v.elems[i], e, Below(s, AtMember(k, i)), x, m, f, g);
    assert Allows(v.elems[i], x, m, f);
  }

  lemma {:induction false} ChildExact(v: Json, e: Env, s: Site, x: Json, m: Meaning, f: nat, g: nat)
    requires 0 < s.depth && v.Obj? && Lossless(v.fields, m, e.defs, s.stack, s.depth) && AnyOrder(e) && g + s.depth > MAX_DEPTH + 1
    requires Allows(Obj(Node(v.fields, e, s)), x, m, g)
    ensures Allows(v, x, m, f)
    decreases 66 - s.depth, 4, 0
  {
    hide Lossless, AnyOrder, Meets, Node;
    LosslessParts(v.fields, m, e.defs, s.stack, s.depth);
    if f > 0 {
      NodeExact(v.fields, e, s, x, m, f - 1, g - 1);
    }
  }

  /**
   * Where nothing is lost the compiled schema means what the client schema means: references are
   * inlined, constants become enums and single allOf members are unwrapped without changing which
   * instances are accepted, for every order of visits and every meaning of the other keywords.
   */
  lemma SanitizingPreserves(root: Schema, visit: (seq<Place>, set<string>) -> seq<string>, m: Meaning, x: Json)
    requires AnyOrder(Env(map[], visit)) && Lossless(root, m, Definitions(root), [], 0)
    ensures Accepts(root, x, m) <==> Accepts(Sanitized(Some(root), visit).value, x, m)
  {
    hide Lossless, Supported, Meets, Node, Definitions, AnyOrder;
    SameOrders(map[], Definitions(root), visit);
    LosslessParts(root, m, Definitions(root), [], 0);
    if Accepts(root, x, m) {
      SanitizingWeakens(root, visit, m, x);
    } else if Accepts(Sanitized(Some(root), visit).value, x, m) {
      NodeExact(root, Env(Definitions(root), visit), ROOT, x, m, MAX_DEPTH + 1, MAX_DEPTH + 1);
    }
  }
}
