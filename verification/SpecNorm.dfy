/** The schema normaliser of scripts/spec_diff.py: resolves `$ref`s, merges `allOf`, drops
    null alternatives, and keeps what the comparison is about. */
module SpecNorm {
  import opened Prelude

  datatype Kind = NoType | One(name: string) | Many(names: seq<string>)

  /** A `$ref`: a component, or a place inside one. */
  datatype RefPath = RefPath(component: string, inside: seq<Into>)

  datatype Into = IntoProperty(name: string) | IntoItems

  /** What the normaliser reads of a schema.  Enum values are strings as `str` prints them, null
      apart. */
  datatype Schema =
    | NotSchema
    | Schema(
        ref: Option<RefPath>,
        allOf: Subschemas,
        anyOf: Subschemas,
        oneOf: Subschemas,
        kind: Kind,
        values: Option<seq<Option<string>>>,
        constant: Option<string>,
        pattern: Option<string>,
        properties: Properties,
        required: Option<seq<string>>,
        items: Option<Schema>,
        additional: Option<Schema>)

  datatype Subschemas = NoSubschemas | Subschemas(list: seq<Schema>)

  datatype Properties = NoProperties | Properties(schemas: map<string, Schema>)

  type Components = map<string, Schema>

  const EMPTY: Schema := Schema(None, NoSubschemas, NoSubschemas, NoSubschemas, NoType, None, None, None, NoProperties,
                                None, None, None)

  /** A normalised value; a sorted list of strings is the multiset of its elements. */
  datatype Value =
    | Null
    | Flag(flag: bool)
    | Text(text: string)
    | Tuple(texts: seq<string>)
    | Sorted(elements: multiset<string>)
    | List(values: seq<Value>)
    | Dict(fields: map<string, Value>)

  function Fields(v: Value): map<string, Value> {
    if v.Dict? then v.fields else map[]
  }

  function Field(present: bool, key: string, v: Value): map<string, Value> {
    if present then map[key := v] else map[]
  }

  /** `s.get("type") == "null"` */
  predicate IsNull(s: Schema) {
    s.Schema? && s.kind == One("null")
  }

  // ---- allOf -------------------------------------------------------------------------------

  datatype Merge = Merge(properties: map<string, Value>, required: set<string>, kind: Option<Value>,
                         extra: map<string, Value>)

  function Kept(f: map<string, Value>, key: string): map<string, Value> {
    if key in f then map[key := f[key]] else map[]
  }

  function MergeOne(m: Merge, v: Value): Merge {
    var f := Fields(v);
    Merge(m.properties + (if "properties" in f then Fields(f["properties"]) else map[]),
          m.required + (if "required" in f && f["required"].Sorted? then set x | x in f["required"].elements else {}),
          if "type" in f then Some(f["type"]) else m.kind,
          m.extra + Kept(f, "enum") + Kept(f, "pattern") + Kept(f, "items"))
  }

  function MergeAll(m: Merge, vs: seq<Value>): Merge
    decreases |vs|
  {
    if vs == [] then m else MergeAll(MergeOne(m, vs[0]), vs[1..])
  }

  function Merged(vs: seq<Value>): Value {
    var m := MergeAll(Merge(map[], {}, None, map[]), vs);
    Dict(map["type" := if m.kind.Some? then m.kind.value else Text("object")]
         + m.extra
         + Field(m.properties != map[], "properties", Dict(m.properties))
         + Field(m.required != {}, "required", Sorted(multiset(m.required))))
  }

  // ---- Plain schemas -----------------------------------------------------------------------

  function NonNullNames(names: seq<string>): seq<string>
    decreases |names|
  {
    if names == [] then []
    else (if names[0] == "null" then [] else [names[0]]) + NonNullNames(names[1..])
  }

  /** The `type` entry: a nullable single type is that type, an object may leave it out. */
  function KindEntry(kind: Kind, hasProperties: bool): Option<Value> {
    var declared :=
      match kind
      case NoType => None
      case One(name) => Some(Text(name))
      case Many(names) =>
        var rest := NonNullNames(names);
        if |rest| == 1 then Some(Text(rest[0])) else if rest == [] then None else Some(Tuple(rest));
    if declared.None? then (if hasProperties then Some(Text("object")) else None)
    else if declared == Some(Text("")) then None
    else declared
  }

  function Texts(values: seq<Option<string>>): multiset<string>
    decreases |values|
  {
    if values == [] then multiset{}
    else (if values[0].Some? then multiset{values[0].value} else multiset{}) + Texts(values[1..])
  }

  function EnumEntry(values: Option<seq<Option<string>>>, constant: Option<string>): map<string, Value> {
    Field(values.Some?, "enum", Sorted(if values.Some? then Texts(values.value) else multiset{}))
    + Field(constant.Some?, "enum", Sorted(if constant.Some? then multiset{constant.value} else multiset{}))
  }

  /** The entries that hold no schemas themselves. */
  function Entries(kind: Option<Value>, enum: map<string, Value>, pattern: Option<string>,
                   required: Option<seq<string>>)
    : map<string, Value>
  {
    Field(kind.Some?, "type", if kind.Some? then kind.value else Null)
    + enum
    + Field(pattern.Some?, "pattern", Text(if pattern.Some? then pattern.value else ""))
    + Field(required.Some?, "required", Sorted(if required.Some? then multiset(required.value) else multiset{}))
  }

  function Scalars(s: Schema): map<string, Value>
    requires s.Schema?
  {
    Entries(KindEntry(s.kind, s.properties.Properties?), EnumEntry(s.values, s.constant), s.pattern, s.required)
  }

  predicate ShowsAdditional(s: Schema)
    requires s.Schema?
  {
    s.additional.Some? && s.additional.value.Schema?
  }

  function Assembled(scalars: map<string, Value>, hasProperties: bool, properties: map<string, Value>,
                     hasItems: bool, items: Value, showsAdditional: bool, additional: Value): Value
  {
    Dict(scalars
         + Field(hasProperties, "properties", Dict(properties))
         + Field(hasItems, "items", items)
         + Field(showsAdditional, "additionalProperties", additional))
  }

  /** A schema without references or combinators, given its normalised parts. */
  function Plain(s: Schema, properties: map<string, Value>, items: Value, additional: Value): Value
    requires s.Schema?
  {
    Assembled(Scalars(s), s.properties.Properties?, properties, s.items.Some?, items, ShowsAdditional(s), additional)
  }

  /** All the normaliser reads of a `$ref`: what follows its last slash. */
  function LastSegment(p: RefPath): string {
    if p.inside == [] then p.component
    else
      match p.inside[|p.inside| - 1]
      case IntoProperty(name) => name
      case IntoItems => "items"
  }

  // ---- norm_schema -------------------------------------------------------------------------

  /** Terminates on cyclic references too: each resolution uses up a component not yet seen. */
  function Norm(s: Schema, components: Components, seen: set<string>): Value
    decreases |components.Keys - seen|, s
  {
    if s.NotSchema? then Null
    else if s.ref.Some? then
      var name := LastSegment(s.ref.value);
      if name in seen then Dict(map["circular" := Text(name)])
      else if name in components then
        assert components.Keys - (seen + {name}) < components.Keys - seen;
        Smaller(components.Keys - (seen + {name}), components.Keys - seen);
        Norm(components[name], components, seen + {name})
      else Dict(map[])  // a missing component is the empty schema
    else if s.allOf.Subschemas? then Merged(NormAll(s.allOf.list, components, seen))
    else if s.anyOf.Subschemas? then Alternatives(NormNonNull(s.anyOf.list, components, seen))
    else if s.oneOf.Subschemas? then Alternatives(NormNonNull(s.oneOf.list, components, seen))
    else
      Plain(s,
            if s.properties.Properties?
            then map k | k in s.properties.schemas :: Norm(s.properties.schemas[k], components, seen) else map[],
            if s.items.Some? then Norm(s.items.value, components, seen) else Null,
            if s.additional.Some? then Norm(s.additional.value, components, seen) else Null)
  }

  function NormAll(ss: seq<Schema>, components: Components, seen: set<string>): seq<Value>
    decreases |components.Keys - seen|, ss
  {
    if ss == [] then []
    else [Norm(ss[0], components, seen)] + NormAll(ss[1..], components, seen)
  }

  function NormNonNull(ss: seq<Schema>, components: Components, seen: set<string>): seq<Value>
    decreases |components.Keys - seen|, ss
  {
    if ss == [] then []
    else (if IsNull(ss[0]) then [] else [Norm(ss[0], components, seen)]) + NormNonNull(ss[1..], components, seen)
  }

  function Alternatives(vs: seq<Value>): Value {
    if |vs| == 1 then vs[0] else Dict(map["anyOf" := List(vs)])
  }

  lemma Smaller<T>(a: set<T>, b: set<T>)
    requires a < b
    ensures |a| < |b|
  {
    var x :| x in b && x !in a;
    assert a <= b - {x};
    SmallerOrEqual(a, b - {x});
  }

  lemma SmallerOrEqual<T>(a: set<T>, b: set<T>)
    requires a <= b
    ensures |a| <= |b|
  {
    assert b == a + (b - a);
  }

  // ---- Inlining ----------------------------------------------------------------------------

  function Inside(s: Schema, steps: seq<Into>): Option<Schema>
    decreases |steps|
  {
    if steps == [] then Some(s)
    else if s.NotSchema? then None
    else match steps[0]
      case IntoProperty(name) =>
        if s.properties.Properties? && name in s.properties.schemas then Inside(s.properties.schemas[name], steps[1..])
        else None
      case IntoItems => if s.items.Some? then Inside(s.items.value, steps[1..]) else None
  }

  /** What a `$ref` refers to. */
  function Target(components: Components, p: RefPath): Option<Schema> {
    if p.component in components then Inside(components[p.component], p.inside) else None
  }

  /** The schema with references replaced by what they refer to, `depth` levels deep. */
  function Inline(s: Schema, components: Components, depth: nat): Schema
    decreases depth, s
  {
    if s.NotSchema? then s
    else if s.ref.Some? then
      var target := Target(components, s.ref.value);
      if target.None? then EMPTY
      else if depth == 0 then s
      else Inline(target.value, components, depth - 1)
    else
      s.(allOf := if s.allOf.Subschemas? then Subschemas(InlineAll(s.allOf.list, components, depth)) else NoSubschemas,
         anyOf := if s.anyOf.Subschemas? then Subschemas(InlineAll(s.anyOf.list, components, depth)) else NoSubschemas,
         oneOf := if s.oneOf.Subschemas? then Subschemas(InlineAll(s.oneOf.list, components, depth)) else NoSubschemas,
         properties := if s.properties.Properties?
                       then Properties(map k | k in s.properties.schemas ::
                                       Inline(s.properties.schemas[k], components, depth))
                       else NoProperties,
         items := if s.items.Some? then Some(Inline(s.items.value, components, depth)) else None,
         additional := if s.additional.Some? then Some(Inline(s.additional.value, components, depth)) else None)
  }

  function InlineAll(ss: seq<Schema>, components: Components, depth: nat): seq<Schema>
    decreases depth, ss
  {
    if ss == [] then []
    else [Inline(ss[0], components, depth)] + InlineAll(ss[1..], components, depth)
  }
}
