/**
 * The schema compiler: client JSON Schemas rewritten into the subset that Gemini accepts.
 * Functions fix the result for every order in which the maps may be visited; the methods are
 * the recursive walk with its loops.
 */
module Schemas {
  import opened Core

  type Schema = map<string, Json>

  const MAX_DEPTH := 64

  const GEMINI_KEYS := {
    "type", "format", "title", "description", "nullable", "default", "enum", "example", "items", "minItems", "maxItems",
    "properties", "required", "additionalProperties", "minProperties", "maxProperties", "minimum", "maximum", "minLength",
    "maxLength", "pattern", "anyOf", "propertyOrdering"}

  /** How the compiler treats a keyword. */
  datatype Kind =
    | Reference | Metadata | Const | OneOf | AllOf | Properties | Items | AnyOf | Additional
    | Required | Enum | Ordering | Plain | Unknown

  function KindOf(key: string): Kind {
    if key == "$ref" then Reference
    else if key in {"$defs", "definitions", "$schema", "$id", "$comment", "$anchor"} then Metadata
    else if key == "const" then Const
    else if key == "oneOf" then OneOf
    else if key == "allOf" then AllOf
    else if key == "properties" then Properties
    else if key == "items" then Items
    else if key == "anyOf" then AnyOf
    else if key == "additionalProperties" then Additional
    else if key == "required" then Required
    else if key == "enum" then Enum
    else if key == "propertyOrdering" then Ordering
    else if key in GEMINI_KEYS then Plain
    else Unknown
  }

  /** Where the walk stands: the references being expanded, the depth, and the way from the root. */
  datatype Place = AtRef | AtProperty(name: string) | AtItems | AtMember(key: string, index: nat)

  datatype Site = Site(stack: seq<string>, depth: nat, path: seq<Place>)

  function Below(s: Site, place: Place): Site {
    Site(s.stack, s.depth + 1, s.path + [place])
  }

  function Through(s: Site, name: string): Site {
    Site(s.stack + [name], s.depth + 1, s.path + [AtRef])
  }

  /** The definitions of the document, and the order in which the keys of each visited node come. */
  datatype Env = Env(defs: Schema, visit: (seq<Place>, set<string>) -> seq<string>)

  // ----- definitions and references

  function At(m: Schema, key: string): Option<Json> {
    if key in m then Some(m[key]) else None
  }

  function FieldsOf(v: Option<Json>): Schema {
    if v.Some? && v.value.Obj? then v.value.fields else map[]
  }

  /** "$defs" first, then "definitions". */
  function Definitions(schema: Schema): Schema {
    FieldsOf(At(schema, "definitions")) + FieldsOf(At(schema, "$defs"))
  }

  function AfterPrefix(ref: string, prefix: string): Option<string> {
    if |prefix| <= |ref| && ref[..|prefix|] == prefix then Some(ref[|prefix|..]) else None
  }

  /** The name in "#/$defs/name" or "#/definitions/name". */
  function LocalName(ref: string): Option<string> {
    var name := if AfterPrefix(ref, "#/$defs/").Some? then AfterPrefix(ref, "#/$defs/") else AfterPrefix(ref, "#/definitions/");
    if name.Some? && '/' in name.value then None else name
  }

  function ResolveRef(ref: string, defs: Schema): Option<(Schema, string)> {
    match LocalName(ref)
    case None => None
    case Some(name) => if name in defs && defs[name].Obj? then Some((defs[name].fields, name)) else None
  }

  /** A non-empty "$ref" string. */
  function RefOf(node: Schema): Option<string> {
    if "$ref" in node && node["$ref"].Str? && node["$ref"].s != "" then Some(node["$ref"].s) else None
  }

  // ----- fallback

  function Description(node: Schema): string {
    if "description" in node && node["description"].Str? then node["description"].s else ""
  }

  function Bare(description: string): Schema {
    if description == "" then map["type" := Str("object")]
    else map["type" := Str("object"), "description" := Str(description)]
  }

  function OrBare(out: Schema, node: Schema): Schema {
    if out == map[] then Bare(Description(node)) else out
  }

  // ----- merging allOf members

  /** Appends what is not there yet. */
  function Union(existing: seq<Json>, incoming: seq<Json>): seq<Json> {
    if incoming == [] then existing
    else
      var before, last := Union(existing, incoming[..|incoming| - 1]), incoming[|incoming| - 1];
      if last in before then before else before + [last]
  }

  function Elems(v: Option<Json>): seq<Json> {
    if v.Some? && v.value.Arr? then v.value.elems else []
  }

  /** Properties and required names accumulate; of any other keyword the first value stays. */
  function MergedValue(key: string, old0: Option<Json>, value: Json): Option<Json> {
    if key == "properties" then
      var all := FieldsOf(Some(value)) + FieldsOf(old0);
      if all == map[] then old0 else Some(Obj(all))
    else if key == "required" then
      var all := Union(Elems(old0), Elems(Some(value)));
      if all == [] then old0 else Some(Arr(all))
    else if old0.Some? then old0
    else Some(value)
  }

  function MergeKey(dst: Schema, key: string, value: Json): Schema {
    match MergedValue(key, At(dst, key), value)
    case None => dst
    case Some(v) => dst[key := v]
  }

  function MergedAt(dst: Schema, src: Schema, key: string): Option<Json> {
    if key in src then MergedValue(key, At(dst, key), src[key]) else At(dst, key)
  }

  /** Every key of `src` merged into `dst`; the keys do not affect each other. */
  function Merged(dst: Schema, src: Schema): Schema {
    map k | k in dst.Keys + src.Keys && MergedAt(dst, src, k).Some? :: MergedAt(dst, src, k).value
  }

  // ----- the walk

  function Node(node: Schema, e: Env, s: Site): Schema
    decreases 66 - s.depth, 3, 0
  {
    if s.depth > MAX_DEPTH then Bare(Description(node))
    else
      match TargetOf(node, e)
      case None => OrBare(Siblings(node, e, s, e.visit(s.path, node.Keys)), node)
      case Some((target, name)) =>
        if name in s.stack then Bare(Description(node))
        else OrBare(Node(target, e, Through(s, name)) + Siblings(node, e, s, e.visit(s.path, node.Keys)), node)
  }

  function TargetOf(node: Schema, e: Env): Option<(Schema, string)> {
    match RefOf(node)
    case None => None
    case Some(ref) => ResolveRef(ref, e.defs)
  }

  /** Every keyword on a node except "$ref", in the order of `keys`. */
  function Siblings(node: Schema, e: Env, s: Site, keys: seq<string>): Schema
    requires s.depth <= MAX_DEPTH
    decreases 66 - s.depth, 2, |keys|
  {
    if keys == [] then map[]
    else
      var before, key := Siblings(node, e, s, keys[..|keys| - 1]), keys[|keys| - 1];
      if key in node then Keyword(before, key, node[key], e, s) else before
  }

  function Keyword(out: Schema, key: string, value: Json, e: Env, s: Site): Schema
    requires s.depth <= MAX_DEPTH
    decreases 66 - s.depth, 1, 0
  {
    match KindOf(key)
    case Reference => out
    case Metadata => out
    case Const => out["enum" := Arr([value])]
    case OneOf => WithAnyOf(out, key, value, e, s)
    case AllOf => if value.Arr? then MergeAll(out, value.elems, e, s) else out
    case Properties =>
      if !value.Obj? || Props(value.fields, e, s) == map[] then out else out["properties" := Obj(Props(value.fields, e, s))]
    case Items =>
      if value.Obj? then out["items" := Obj(Node(value.fields, e, Below(s, AtItems)))]
      else if value.Arr? && Converted(value.elems, key, e, s) != [] then out["items" := Converted(value.elems, key, e, s)[0]]
      else out
    case AnyOf => WithAnyOf(out, key, value, e, s)
    case Additional => if value.Bool? then out[key := value] else out
    case Required => if value.Arr? then out[key := value] else out
    case Enum => if value.Arr? then out[key := value] else out
    case Ordering => if value.Arr? then out[key := value] else out
    case Plain => out[key := value]
    case Unknown => out
  }

  function WithAnyOf(out: Schema, key: string, value: Json, e: Env, s: Site): Schema
    requires s.depth <= MAX_DEPTH
    decreases 66 - s.depth, 0, if value.Arr? then |value.elems| + 1 else 0
  {
    if value.Arr? && Converted(value.elems, key, e, s) != [] then out["anyOf" := Arr(Converted(value.elems, key, e, s))] else out
  }

  /** The members that are objects, each compiled one level down. */
  function Converted(members: seq<Json>, key: string, e: Env, s: Site): seq<Json>
    requires s.depth <= MAX_DEPTH
    decreases 66 - s.depth, 0, |members|
  {
    if members == [] then []
    else
      var last := members[|members| - 1];
      Converted(members[..|members| - 1], key, e, s) +
      if last.Obj? then [Obj(Node(last.fields, e, Below(s, AtMember(key, |members| - 1))))] else []
  }

  function MergeAll(out: Schema, members: seq<Json>, e: Env, s: Site): Schema
    requires s.depth <= MAX_DEPTH
    decreases 66 - s.depth, 0, |members|
  {
    if members == [] then out
    else
      var before, last := MergeAll(out, members[..|members| - 1], e, s), members[|members| - 1];
      if last.Obj? then Merged(before, Node(last.fields, e, Below(s, AtMember("allOf", |members| - 1)))) else before
  }

  function Props(props: Schema, e: Env, s: Site): Schema
    requires s.depth <= MAX_DEPTH
    decreases 66 - s.depth, 0, 0
  {
    map name | name in props && props[name].Obj? :: Obj(Node(props[name].fields, e, Below(s, AtProperty(name))))
  }

  const ROOT := Site([], 0, [])

  function Sanitized(schema: Option<Schema>, visit: (seq<Place>, set<string>) -> seq<string>): Option<Schema> {
    match schema
    case None => None
    case Some(root) => Some(Node(root, Env(Definitions(root), visit), ROOT))
  }

  // ----- the same as loops

  method CollectDefinitions(schema: Schema) returns (defs: Schema)
    ensures defs == Definitions(schema)
  {
    defs := map[];
    var tables := [FieldsOf(At(schema, "$defs")), FieldsOf(At(schema, "definitions"))];
    for i := 0 to 2
      invariant defs == if i == 0 then map[] else if i == 1 then tables[0] else tables[1] + tables[0]
    {
      var raw, start := tables[i], defs;
      var rest := raw.Keys;
      while rest != {}
        invariant rest <= raw.Keys
        invariant defs == (map name | name in raw && name !in rest :: raw[name]) + start
      {
        var name :| name in rest;
        if name !in defs {
          defs := defs[name := raw[name]];
        }
        rest := rest - {name};
      }
      assert (map name | name in raw && name !in rest :: raw[name]) == raw;
    }
  }

  lemma MergeOneMore(dst: Schema, src: Schema, seen: set<string>, key: string)
    requires key in src && key !in seen
    ensures MergeKey(Merged(dst, Only(src, seen)), key, src[key]) == Merged(dst, Only(src, seen + {key}))
  {
    hide MergedValue;
    var before, after := Merged(dst, Only(src, seen)), Merged(dst, Only(src, seen + {key}));
    MergedKeeps(key, At(dst, key), src[key]);
    assert At(before, key) == At(dst, key);
    forall k | k != key
      ensures At(before, k) == At(after, k)
    {
      assert MergedAt(dst, Only(src, seen), k) == MergedAt(dst, Only(src, seen + {key}), k);
    }
    SameMaps(MergeKey(before, key, src[key]), after);
  }

  lemma MergedKeeps(key: string, old0: Option<Json>, value: Json)
    ensures old0.Some? ==> MergedValue(key, old0, value).Some?
  {
  }

  lemma SameMaps(m: Schema, m': Schema)
    requires forall k :: At(m, k) == At(m', k)
    ensures m == m'
  {
    assert forall k :: (k in m <==> At(m, k).Some?) && (k in m' <==> At(m', k).Some?);
    assert forall k :: k in m ==> At(m, k) == Some(m[k]) && At(m', k) == Some(m'[k]);
  }

  function Only(m: Schema, keys: set<string>): Schema {
    map k | k in m && k in keys :: m[k]
  }

  /** Folds a compiled allOf member into the accumulating node, key by key in any order. */
  method MergeSchemaInto(dst: Schema, src: Schema) returns (out: Schema)
    ensures out == Merged(dst, src)
  {
    hide MergeKey, Merged;
    out := dst;
    ghost var seen: set<string> := {};
    var rest := src.Keys;
    assert Only(src, {}) == map[];
    assert Merged(dst, map[]) == dst by { MergedNothing(dst); }
    while rest != {}
      invariant rest == src.Keys - seen && seen <= src.Keys
      invariant out == Merged(dst, Only(src, seen))
    {
      var key :| key in rest;
      MergeOneMore(dst, src, seen, key);
      out := MergeOne(out, key, src[key]);
      seen := seen + {key};
      rest := rest - {key};
    }
    assert Only(src, seen) == src;
  }

  lemma MergedNothing(dst: Schema)
    ensures Merged(dst, map[]) == dst
  {
  }

  method MergeOne(dst: Schema, key: string, value: Json) returns (out: Schema)
    ensures out == MergeKey(dst, key, value)
  {
    out := dst;
    if key == "properties" {
      var existing := FieldsOf(At(dst, key));
      assert map[] + existing == existing;
      if value.Obj? {
        existing := AddMissing(existing, value.fields);
      }
      if existing != map[] {
        out := out[key := Obj(existing)];
      }
    } else if key == "required" {
      var existing := if key in dst && dst[key].Arr? then dst[key].elems else [];
      if value.Arr? {
        existing := AppendMissing(existing, value.elems);
      }
      if existing != [] {
        out := out[key := Arr(existing)];
      }
    } else if key !in dst {
      out := out[key := value];
    }
    SameMaps(out, MergeKey(dst, key, value));
  }

  method AddMissing(existing0: Schema, incoming: Schema) returns (existing: Schema)
    ensures existing == incoming + existing0
  {
    existing := existing0;
    var rest := incoming.Keys;
    while rest != {}
      invariant rest <= incoming.Keys
      invariant existing == (map name | name in incoming && name !in rest :: incoming[name]) + existing0
    {
      var name :| name in rest;
      if name !in existing {
        existing := existing[name := incoming[name]];
      }
      rest := rest - {name};
    }
    assert (map name | name in incoming && name !in rest :: incoming[name]) == incoming;
  }

  method AppendMissing(existing0: seq<Json>, incoming: seq<Json>) returns (existing: seq<Json>)
    ensures existing == Union(existing0, incoming)
  {
    existing := existing0;
    for i := 0 to |incoming|
      invariant existing == Union(existing0, incoming[..i])
    {
      assert incoming[..i + 1][..i] == incoming[..i];
      if incoming[i] !in existing {
        existing := existing + [incoming[i]];
      }
    }
    assert incoming[..|incoming|] == incoming;
  }

  method SanitizeToolSchema(schema: Option<Schema>, visit: (seq<Place>, set<string>) -> seq<string>) returns (out: Option<Schema>)
    ensures out == Sanitized(schema, visit)
  {
    hide Node, Definitions;
    if schema.None? {
      return None;
    }
    var defs := CollectDefinitions(schema.value);
    var root := SanitizeNode(schema.value, Env(defs, visit), ROOT);
    return Some(root);
  }

  method SanitizeNode(node: Schema, e: Env, s: Site) returns (out: Schema)
    ensures out == Node(node, e, s)
    decreases 66 - s.depth, 3, 0
  {
    hide Siblings, ResolveRef;
    var description := Description(node);
    if s.depth > MAX_DEPTH {
      return Bare(description);
    }
    out := map[];
    var ref := RefOf(node);
    if ref.Some? {
      var found := ResolveRef(ref.value, e.defs);
      if found.None? {
        var resolved := SanitizeSiblings(node, e, s);
        return if |resolved| == 0 then Bare(description) else resolved;
      }
      if found.value.1 in s.stack {
        return Bare(description);
      }
      out := SanitizeNode(found.value.0, e, Through(s, found.value.1));
    }
    var own := SanitizeSiblings(node, e, s);
    assert map[] + own == own;
    out := out + own;
    if |out| == 0 {
      return Bare(description);
    }
  }

  method SanitizeSiblings(node: Schema, e: Env, s: Site) returns (out: Schema)
    requires s.depth <= MAX_DEPTH
    ensures out == Siblings(node, e, s, e.visit(s.path, node.Keys))
    decreases 66 - s.depth, 2, 0
  {
    hide Keyword;
    out := map[];
    var keys := e.visit(s.path, node.Keys);
    for i := 0 to |keys|
      invariant out == Siblings(node, e, s, keys[..i])
    {
      assert keys[..i + 1][..i] == keys[..i];
      if keys[i] in node {
        out := SanitizeKeyword(out, keys[i], node[keys[i]], e, s);
      }
    }
    assert keys[..|keys|] == keys;
  }

  method SanitizeKeyword(out0: Schema, key: string, value: Json, e: Env, s: Site) returns (out: Schema)
    requires s.depth <= MAX_DEPTH
    ensures out == Keyword(out0, key, value, e, s)
    decreases 66 - s.depth, 1, 0
  {
    hide Node, Converted, MergeAll, Props, KindOf;
    out := out0;
    match KindOf(key)
    case Const => out := out["enum" := Arr([value])];
    case OneOf => out := SanitizeAnyOf(out, key, value, e, s);
    case AnyOf => out := SanitizeAnyOf(out, key, value, e, s);
    case AllOf =>
      if value.Arr? {
        out := SanitizeAllOf(out, value.elems, e, s);
      }
    case Properties =>
      if value.Obj? {
        var converted := SanitizeProperties(value.fields, e, s);
        if converted != map[] {
          out := out["properties" := Obj(converted)];
        }
      }
    case Items =>
      if value.Obj? {
        var child := SanitizeNode(value.fields, e, Below(s, AtItems));
        out := out["items" := Obj(child)];
      } else if value.Arr? {
        var converted := SanitizeList(value.elems, key, e, s);
        if |converted| > 0 {
          out := out["items" := converted[0]];
        }
      }
    case Additional =>
      if value.Bool? {
        out := out[key := value];
      }
    case Required =>
      if value.Arr? {
        out := out[key := value];
      }
    case Enum =>
      if value.Arr? {
        out := out[key := value];
      }
    case Ordering =>
      if value.Arr? {
        out := out[key := value];
      }
    case Plain => out := out[key := value];
    case _ =>
  }

  method SanitizeAnyOf(out0: Schema, key: string, value: Json, e: Env, s: Site) returns (out: Schema)
    requires s.depth <= MAX_DEPTH
    ensures out == WithAnyOf(out0, key, value, e, s)
    decreases 66 - s.depth, 0, if value.Arr? then |value.elems| + 1 else 0
  {
    hide Converted;
    out := out0;
    if value.Arr? {
      var converted := SanitizeList(value.elems, key, e, s);
      if |converted| > 0 {
        out := out["anyOf" := Arr(converted)];
      }
    }
  }

  method SanitizeAllOf(out0: Schema, members: seq<Json>, e: Env, s: Site) returns (out: Schema)
    requires s.depth <= MAX_DEPTH
    ensures out == MergeAll(out0, members, e, s)
    decreases 66 - s.depth, 0, 0
  {
    hide Node, Merged;
    out := out0;
    for i := 0 to |members|
      invariant out == MergeAll(out0, members[..i], e, s)
    {
      assert members[..i + 1][..i] == members[..i];
      if members[i].Obj? {
        var member := SanitizeNode(members[i].fields, e, Below(s, AtMember("allOf", i)));
        out := MergeSchemaInto(out, member);
      }
    }
    assert members[..|members|] == members;
  }

  method SanitizeList(members: seq<Json>, key: string, e: Env, s: Site) returns (out: seq<Json>)
    requires s.depth <= MAX_DEPTH
    ensures out == Converted(members, key, e, s)
    decreases 66 - s.depth, 0, 0
  {
    hide Node;
    out := [];
    for i := 0 to |members|
      invariant out == Converted(members[..i], key, e, s)
    {
      assert members[..i + 1][..i] == members[..i];
      if members[i].Obj? {
        var member := SanitizeNode(members[i].fields, e, Below(s, AtMember(key, i)));
        out := out + [Obj(member)];
      }
    }
    assert members[..|members|] == members;
  }

  method SanitizeProperties(props: Schema, e: Env, s: Site) returns (converted: Schema)
    requires s.depth <= MAX_DEPTH
    ensures converted == Props(props, e, s)
    decreases 66 - s.depth, 0, 0
  {
    hide Node;
    converted := map[];
    var rest := props.Keys;
    while rest != {}
      invariant rest <= props.Keys
      invariant converted == map name | name in props && name !in rest && props[name].Obj? ::
                               Obj(Node(props[name].fields, e, Below(s, AtProperty(name))))
      decreases |rest|
    {
      var name :| name in rest;
      if props[name].Obj? {
        var child := SanitizeNode(props[name].fields, e, Below(s, AtProperty(name)));
        converted := converted[name := Obj(child)];
      }
      rest := rest - {name};
    }
  }
}
