/** When `$ref` layout does not matter: for references without cycles, normalising a schema is
    normalising the schema with every reference inlined, unless a list of alternatives has a
    reference that hides a null type, or one with a null type beside it. */
module SpecLayout {
  import opened Prelude
  import opened SpecNorm

  // ---- Layouts -----------------------------------------------------------------------------

  /** Resolving the references of an alternative does not change whether it is a null type. */
  ghost predicate SameNull(s: Schema, components: Components, bound: nat) {
    forall depth: nat :: depth >= bound ==> IsNull(Inline(s, components, depth)) == IsNull(s)
  }

  /** Nor whether it is a schema object. */
  ghost predicate SameSort(s: Schema, components: Components, bound: nat) {
    forall depth: nat :: depth >= bound ==> Inline(s, components, depth).Schema? == s.Schema?
  }

  /** Every reference the normaliser comes to below `s` is to a whole component, ranked under
      `bound`, and alternatives and `additionalProperties` are what they resolve to. */
  ghost predicate Under(s: Schema, components: Components, rank: map<string, nat>, bound: nat)
    decreases s
  {
    s.Schema? ==>
      if s.ref.Some? then
        var p := s.ref.value;
        p.inside == [] && (p.component in components ==> p.component in rank && rank[p.component] < bound)
      else if s.allOf.Subschemas? then
        forall i :: 0 <= i < |s.allOf.list| ==> Under(s.allOf.list[i], components, rank, bound)
      else if s.anyOf.Subschemas? then
        forall i :: 0 <= i < |s.anyOf.list| ==>
          Under(s.anyOf.list[i], components, rank, bound) && SameNull(s.anyOf.list[i], components, bound)
      else if s.oneOf.Subschemas? then
        forall i :: 0 <= i < |s.oneOf.list| ==>
          Under(s.oneOf.list[i], components, rank, bound) && SameNull(s.oneOf.list[i], components, bound)
      else
        && (s.properties.Properties? ==>
             forall k | k in s.properties.schemas :: Under(s.properties.schemas[k], components, rank, bound))
        && (s.items.Some? ==> Under(s.items.value, components, rank, bound))
        && (s.additional.Some? ==>
             Under(s.additional.value, components, rank, bound) && SameSort(s.additional.value, components, bound))
  }

  /** Each ranked component refers to components of a lower rank only; what is never referred to
      need not be ranked. */
  ghost predicate Acyclic(components: Components, rank: map<string, nat>) {
    && rank.Keys <= components.Keys
    && (forall name | name in rank :: Under(components[name], components, rank, rank[name]))
  }

  /** The components being resolved all rank at or above `bound`. */
  ghost predicate Entered(seen: set<string>, rank: map<string, nat>, bound: nat) {
    forall name | name in seen :: name in rank && rank[name] >= bound
  }

  lemma {:induction false} LayoutAll(ss: seq<Schema>, components: Components, rank: map<string, nat>, seen: set<string>,
                                     bound: nat, depth: nat)
    requires Acyclic(components, rank) && Entered(seen, rank, bound) && bound <= depth
    requires forall i :: 0 <= i < |ss| ==> Under(ss[i], components, rank, bound)
    ensures NormAll(ss, components, seen) == NormAll(InlineAll(ss, components, depth), map[], {})
    decreases bound, ss, 0
  {
    if ss != [] {
      LayoutUnder(ss[0], components, rank, seen, bound, depth);
      LayoutAll(ss[1..], components, rank, seen, bound, depth);
    }
  }

  lemma {:induction false} LayoutNonNull(ss: seq<Schema>, components: Components, rank: map<string, nat>,
                                         seen: set<string>,
                                         bound: nat, depth: nat)
    requires Acyclic(components, rank) && Entered(seen, rank, bound) && bound <= depth
    requires forall i :: 0 <= i < |ss| ==> Under(ss[i], components, rank, bound) && SameNull(ss[i], components, bound)
    ensures NormNonNull(ss, components, seen) == NormNonNull(InlineAll(ss, components, depth), map[], {})
    decreases bound, ss, 0
  {
    if ss != [] {
      LayoutUnder(ss[0], components, rank, seen, bound, depth);
      LayoutNonNull(ss[1..], components, rank, seen, bound, depth);
      assert InlineAll(ss, components, depth)[1..] == InlineAll(ss[1..], components, depth);
    }
  }

  /** The parts of a plain schema are laid out without the exceptions, whatever the sort of its
      `additionalProperties`. */
  ghost predicate PartsUnder(s: Schema, components: Components, rank: map<string, nat>, bound: nat)
    requires s.Schema?
  {
    && (s.properties.Properties? ==>
         forall k | k in s.properties.schemas :: Under(s.properties.schemas[k], components, rank, bound))
    && (s.items.Some? ==> Under(s.items.value, components, rank, bound))
    && (s.additional.Some? ==> Under(s.additional.value, components, rank, bound))
  }

  predicate IsPlain(s: Schema) {
    s.Schema? && s.ref.None? && !s.allOf.Subschemas? && !s.anyOf.Subschemas? && !s.oneOf.Subschemas?
  }

  /** A plain schema whose parts' layout does not matter normalises as it would inlined exactly if
      inlining leaves `additionalProperties` a schema object or none. */
  lemma {:induction false} PlainAgreesIff(s: Schema, components: Components, rank: map<string, nat>, seen: set<string>,
                                          bound: nat, depth: nat)
    requires IsPlain(s) && PartsUnder(s, components, rank, bound)
    requires Acyclic(components, rank) && Entered(seen, rank, bound) && bound <= depth
    ensures Norm(s, components, seen) == Norm(Inline(s, components, depth), map[], {})
       <==> (s.additional.Some? ==> Inline(s.additional.value, components, depth).Schema? == s.additional.value.Schema?)
    decreases bound, s, 0
  {
    var t := Inline(s, components, depth);
    if s.properties.Properties? {
      forall k | k in s.properties.schemas
        ensures Norm(s.properties.schemas[k], components, seen)
                == Norm(Inline(s.properties.schemas[k], components, depth), map[], {})
      {
        LayoutUnder(s.properties.schemas[k], components, rank, seen, bound, depth);
      }
      assert (map k | k in s.properties.schemas :: Norm(s.properties.schemas[k], components, seen))
          == (map k | k in t.properties.schemas :: Norm(t.properties.schemas[k], map[], {}));
    }
    if s.items.Some? {
      LayoutUnder(s.items.value, components, rank, seen, bound, depth);
    }
    if s.additional.Some? {
      LayoutUnder(s.additional.value, components, rank, seen, bound, depth);
    }
    PlainSameIff(s, t,
                 if s.properties.Properties?
                 then map k | k in s.properties.schemas :: Norm(s.properties.schemas[k], components, seen) else map[],
                 if s.items.Some? then Norm(s.items.value, components, seen) else Null,
                 if s.additional.Some? then Norm(s.additional.value, components, seen) else Null);
  }

  lemma AdditionalShows(scalars: map<string, Value>, hasProperties: bool, properties: map<string, Value>,
                        hasItems: bool, items: Value, shows: bool, additional: Value)
    requires "additionalProperties" !in scalars
    ensures "additionalProperties" in Fields(Assembled(scalars, hasProperties, properties, hasItems, items, shows,
                                                       additional))
       <==> shows
  {
  }

  lemma EntriesKeys(kind: Option<Value>, enum: map<string, Value>, pattern: Option<string>,
                    required: Option<seq<string>>)
    ensures Entries(kind, enum, pattern, required).Keys <= {"type", "pattern", "required"} + enum.Keys
  {
  }

  lemma ScalarKeys(s: Schema)
    requires s.Schema?
    ensures "additionalProperties" !in Scalars(s)
  {
    var kind, enum := KindEntry(s.kind, s.properties.Properties?), EnumEntry(s.values, s.constant);
    EntriesKeys(kind, enum, s.pattern, s.required);
  }

  lemma PlainShows(s: Schema, properties: map<string, Value>, items: Value, additional: Value)
    requires s.Schema?
    ensures "additionalProperties" in Fields(Plain(s, properties, items, additional)) <==> ShowsAdditional(s)
  {
    ScalarKeys(s);
    AdditionalShows(Scalars(s), s.properties.Properties?, properties, s.items.Some?, items, ShowsAdditional(s),
                    additional);
  }

  lemma PlainSame(s: Schema, t: Schema, properties: map<string, Value>, items: Value, additional: Value)
    requires s.Schema? && t.Schema?
    requires t == s.(properties := t.properties, items := t.items, additional := t.additional)
    requires t.properties.Properties? == s.properties.Properties? && t.items.Some? == s.items.Some?
    requires ShowsAdditional(s) == ShowsAdditional(t)
    ensures Plain(t, properties, items, additional) == Plain(s, properties, items, additional)
  {
    ScalarsSame(s, t);
  }

  lemma PlainSameIff(s: Schema, t: Schema, properties: map<string, Value>, items: Value, additional: Value)
    requires s.Schema? && t.Schema?
    requires t == s.(properties := t.properties, items := t.items, additional := t.additional)
    requires t.properties.Properties? == s.properties.Properties? && t.items.Some? == s.items.Some?
    ensures Plain(t, properties, items, additional) == Plain(s, properties, items, additional)
       <==> ShowsAdditional(s) == ShowsAdditional(t)
  {
    PlainShows(s, properties, items, additional);
    PlainShows(t, properties, items, additional);
    if ShowsAdditional(s) == ShowsAdditional(t) {
      PlainSame(s, t, properties, items, additional);
    }
  }

  lemma ScalarsSame(s: Schema, t: Schema)
    requires s.Schema? && t.Schema?
    requires t == s.(properties := t.properties, items := t.items, additional := t.additional)
    requires t.properties.Properties? == s.properties.Properties?
    ensures Scalars(t) == Scalars(s)
  {
    assert t.kind == s.kind && t.values == s.values && t.constant == s.constant && t.pattern == s.pattern;
    assert t.required == s.required && t.properties.Properties? == s.properties.Properties?;
  }

  /** Normalising resolves references as inlining them would, at whatever point of a resolution. */
  lemma {:induction false} LayoutUnder(s: Schema, components: Components, rank: map<string, nat>, seen: set<string>,
                                       bound: nat, depth: nat)
    requires Acyclic(components, rank) && Entered(seen, rank, bound) && bound <= depth
    requires Under(s, components, rank, bound)
    ensures Norm(s, components, seen) == Norm(Inline(s, components, depth), map[], {})
    decreases bound, s, 1
  {
    if s.NotSchema? {
    } else if s.ref.Some? {
      var name := s.ref.value.component;
      if name in components {
        LayoutUnder(components[name], components, rank, seen + {name}, rank[name], depth - 1);
      }
    } else if s.allOf.Subschemas? {
      LayoutAll(s.allOf.list, components, rank, seen, bound, depth);
    } else if s.anyOf.Subschemas? {
      LayoutNonNull(s.anyOf.list, components, rank, seen, bound, depth);
    } else if s.oneOf.Subschemas? {
      LayoutNonNull(s.oneOf.list, components, rank, seen, bound, depth);
    } else {
      PlainAgreesIff(s, components, rank, seen, bound, depth);
    }
  }

  // ---- Main results ------------------------------------------------------------------------

  /** No reference is left where the normaliser looks. */
  ghost predicate NoReferences(s: Schema)
    decreases s
  {
    s.Schema? ==>
      && s.ref.None?
      && if s.allOf.Subschemas? then forall i :: 0 <= i < |s.allOf.list| ==> NoReferences(s.allOf.list[i])
         else if s.anyOf.Subschemas? then forall i :: 0 <= i < |s.anyOf.list| ==> NoReferences(s.anyOf.list[i])
         else if s.oneOf.Subschemas? then forall i :: 0 <= i < |s.oneOf.list| ==> NoReferences(s.oneOf.list[i])
         else
           && (s.properties.Properties? ==>
               forall k | k in s.properties.schemas :: NoReferences(s.properties.schemas[k]))
           && (s.items.Some? ==> NoReferences(s.items.value))
           && (s.additional.Some? ==> NoReferences(s.additional.value))
  }

  lemma {:induction false} InlineAllComplete(ss: seq<Schema>, components: Components, rank: map<string, nat>,
                                             bound: nat, depth: nat)
    requires Acyclic(components, rank) && bound <= depth
    requires forall i :: 0 <= i < |ss| ==> Under(ss[i], components, rank, bound)
    ensures |InlineAll(ss, components, depth)| == |ss|
    ensures forall i :: 0 <= i < |ss| ==> NoReferences(InlineAll(ss, components, depth)[i])
    decreases bound, ss, 0
  {
    if ss != [] {
      InlineComplete(ss[0], components, rank, bound, depth);
      InlineAllComplete(ss[1..], components, rank, bound, depth);
    }
  }

  /** Inlining deeper than every rank leaves no reference. */
  lemma {:induction false} InlineComplete(s: Schema, components: Components, rank: map<string, nat>, bound: nat,
                                          depth: nat)
    requires Acyclic(components, rank) && bound <= depth && Under(s, components, rank, bound)
    ensures NoReferences(Inline(s, components, depth))
    decreases bound, s, 1
  {
    if s.NotSchema? {
    } else if s.ref.Some? {
      var name := s.ref.value.component;
      if name in components {
        InlineComplete(components[name], components, rank, rank[name], depth - 1);
      }
    } else if s.allOf.Subschemas? {
      InlineAllComplete(s.allOf.list, components, rank, bound, depth);
    } else if s.anyOf.Subschemas? {
      InlineAllComplete(s.anyOf.list, components, rank, bound, depth);
    } else if s.oneOf.Subschemas? {
      InlineAllComplete(s.oneOf.list, components, rank, bound, depth);
    } else {
      if s.properties.Properties? {
        forall k | k in s.properties.schemas ensures NoReferences(Inline(s.properties.schemas[k], components, depth)) {
          InlineComplete(s.properties.schemas[k], components, rank, bound, depth);
        }
      }
      if s.items.Some? {
        InlineComplete(s.items.value, components, rank, bound, depth);
      }
      if s.additional.Some? {
        InlineComplete(s.additional.value, components, rank, bound, depth);
      }
    }
  }

  /** A schema of a document laid out without the exceptions. */
  ghost predicate LaidOut(s: Schema, components: Components, rank: map<string, nat>, bound: nat) {
    Acyclic(components, rank) && Under(s, components, rank, bound)
  }

  /** Two schemas, each in its own document, that say the same once their references are inlined
      normalise to the same value, and that of the inlined schema. */
  lemma LayoutIrrelevant(s: Schema, components: Components, rank: map<string, nat>, bound: nat, depth: nat,
                         t: Schema, components': Components, rank': map<string, nat>, bound': nat, depth': nat)
    requires LaidOut(s, components, rank, bound) && bound <= depth
    requires LaidOut(t, components', rank', bound') && bound' <= depth'
    requires Inline(s, components, depth) == Inline(t, components', depth')
    ensures NoReferences(Inline(s, components, depth))
    ensures Norm(s, components, {}) == Norm(Inline(s, components, depth), map[], {}) == Norm(t, components', {})
  {
    InlineComplete(s, components, rank, bound, depth);
    LayoutUnder(s, components, rank, {}, bound, depth);
    LayoutUnder(t, components', rank', {}, bound', depth');
  }

  // ---- Alternatives ------------------------------------------------------------------------

  /** How often a value nests alternatives. */
  function Nesting(v: Value): nat
    decreases v, 0
  {
    if v.Dict? && "anyOf" in v.fields && v.fields["anyOf"].List? then 1 + NestingAll(v.fields["anyOf"].values) else 0
  }

  function NestingAll(vs: seq<Value>): nat
    decreases vs
  {
    if vs == [] then 0 else Nesting(vs[0]) + NestingAll(vs[1..])
  }

  lemma {:induction false} NestingIn(vs: seq<Value>, v: Value)
    requires v in vs
    ensures Nesting(v) <= NestingAll(vs)
  {
    if vs[0] != v {
      NestingIn(vs[1..], v);
    }
  }

  /** `ws` are the values `vs`, or some of them. */
  ghost predicate Fewer(vs: seq<Value>, ws: seq<Value>, same: bool) {
    && (same ==> vs == ws)
    && |ws| <= |vs| && (forall w | w in ws :: w in vs)
    && (!same ==> |ws| < |vs|)
  }

  const NO_ALTERNATIVES: Value := Dict(map["anyOf" := List([])])

  /** Alternatives of which one list keeps only what normalises to no alternatives, and the other
      keeps none. */
  predicate Degenerate(vs: seq<Value>, ws: seq<Value>) {
    (vs == [] && ws == [NO_ALTERNATIVES]) || (ws == [] && vs == [NO_ALTERNATIVES])
  }

  lemma FewerDiffer(vs: seq<Value>, ws: seq<Value>)
    requires Fewer(vs, ws, false)
    ensures Alternatives(vs) == Alternatives(ws) <==> Degenerate(vs, ws)
  {
    if |vs| >= 2 {
      assert Fields(Alternatives(vs))["anyOf"] == List(vs);
      if |ws| == 1 {
        assert ws[0] in ws;
        NestingIn(vs, ws[0]);
        assert Nesting(Dict(map["anyOf" := List(vs)])) == 1 + NestingAll(vs);
      } else {
        assert Fields(Alternatives(ws))["anyOf"] == List(ws);
      }
    }
  }

  /** Which alternatives are null types, as written and once resolved. */
  ghost predicate NullsAmong(ss: seq<Schema>, ts: seq<Schema>) {
    |ss| == |ts| && forall i :: 0 <= i < |ss| && IsNull(ss[i]) ==> IsNull(ts[i])
  }

  /** What each alternative normalises to does not depend on resolving it first. */
  ghost predicate Agreeing(ss: seq<Schema>, ts: seq<Schema>, components: Components, components': Components,
                           seen: set<string>, seen': set<string>)
  {
    |ss| == |ts| && forall i :: 0 <= i < |ss| ==> Norm(ss[i], components, seen) == Norm(ts[i], components', seen')
  }

  lemma {:induction false} FewerKept(ss: seq<Schema>, ts: seq<Schema>, components: Components, components': Components,
                                     seen: set<string>, seen': set<string>)
    requires Agreeing(ss, ts, components, components', seen, seen') && NullsAmong(ss, ts)
    ensures Fewer(NormNonNull(ss, components, seen), NormNonNull(ts, components', seen'), NullsAmong(ts, ss))
  {
    if ss != [] {
      assert Agreeing(ss[1..], ts[1..], components, components', seen, seen');
      assert NullsAmong(ss[1..], ts[1..]);
      FewerKept(ss[1..], ts[1..], components, components', seen, seen');
      assert NullsAmong(ts, ss) <==> NullsAmong(ts[1..], ss[1..]) && (IsNull(ts[0]) ==> IsNull(ss[0])) by {
        assert forall i :: 0 <= i < |ss[1..]| ==> ss[1..][i] == ss[i + 1] && ts[1..][i] == ts[i + 1];
      }
    }
  }

  /** If references only hide null types, or only stand beside them, the kept alternatives are
      alike exactly if no alternative does, or in the degenerate case. */
  lemma KeptAgreeIff(ss: seq<Schema>, ts: seq<Schema>, components: Components, components': Components,
                     seen: set<string>, seen': set<string>)
    requires Agreeing(ss, ts, components, components', seen, seen') && NullsAmong(ss, ts)
    ensures var vs, ws := NormNonNull(ss, components, seen), NormNonNull(ts, components', seen');
            Alternatives(vs) == Alternatives(ws) <==> NullsAmong(ts, ss) || Degenerate(vs, ws)
  {
    FewerKept(ss, ts, components, components', seen, seen');
    if !NullsAmong(ts, ss) {
      FewerDiffer(NormNonNull(ss, components, seen), NormNonNull(ts, components', seen'));
    }
  }

  /** The alternatives the normaliser reads of a schema. */
  function AlternativesOf(s: Schema): Option<seq<Schema>> {
    if s.NotSchema? || s.ref.Some? || s.allOf.Subschemas? then None
    else if s.anyOf.Subschemas? then Some(s.anyOf.list)
    else if s.oneOf.Subschemas? then Some(s.oneOf.list)
    else None
  }

  lemma {:induction false} InlineAllAgrees(ss: seq<Schema>, components: Components, rank: map<string, nat>,
                                           seen: set<string>,
                                           bound: nat, depth: nat)
    requires Acyclic(components, rank) && Entered(seen, rank, bound) && bound <= depth
    requires forall i :: 0 <= i < |ss| ==> Under(ss[i], components, rank, bound)
    ensures Agreeing(ss, InlineAll(ss, components, depth), components, map[], seen, {})
  {
    if ss != [] {
      LayoutUnder(ss[0], components, rank, seen, bound, depth);
      InlineAllAgrees(ss[1..], components, rank, seen, bound, depth);
      var ts := InlineAll(ss, components, depth);
      forall i | 0 <= i < |ss| ensures Norm(ss[i], components, seen) == Norm(ts[i], map[], {}) {
        assert i > 0 ==> ss[i] == ss[1..][i - 1] && ts[i] == InlineAll(ss[1..], components, depth)[i - 1];
      }
    }
  }

  /** A list of alternatives whose own layout does not matter normalises as it would inlined exactly
      if inlining neither uncovers nor covers a null type among them, or in the degenerate case; as
      long as it does not do both at once. */
  lemma AlternativesAgreeIff(s: Schema, components: Components, rank: map<string, nat>, seen: set<string>, bound: nat,
                             depth: nat)
    requires Acyclic(components, rank) && Entered(seen, rank, bound) && bound <= depth && AlternativesOf(s).Some?
    requires forall i :: 0 <= i < |AlternativesOf(s).value| ==>
             Under(AlternativesOf(s).value[i], components, rank, bound)
    requires var ss := AlternativesOf(s).value; var ts := InlineAll(ss, components, depth);
             NullsAmong(ss, ts) || NullsAmong(ts, ss)
    ensures var ss := AlternativesOf(s).value; var ts := InlineAll(ss, components, depth);
            Norm(s, components, seen) == Norm(Inline(s, components, depth), map[], {})
            <==> (NullsAmong(ss, ts) && NullsAmong(ts, ss))
                 || Degenerate(NormNonNull(ss, components, seen), NormNonNull(ts, map[], {}))
  {
    var ss := AlternativesOf(s).value;
    var ts := InlineAll(ss, components, depth);
    InlineAllAgrees(ss, components, rank, seen, bound, depth);
    if NullsAmong(ss, ts) {
      KeptAgreeIff(ss, ts, components, map[], seen, {});
    } else {
      KeptAgreeIff(ts, ss, map[], components, {}, seen);
    }
  }

  /** The values of the alternatives that are not null types. */
  function Selected(values: seq<Value>, ss: seq<Schema>): seq<Value>
    requires |values| == |ss|
  {
    if ss == [] then []
    else (if IsNull(ss[0]) then [] else [values[0]]) + Selected(values[1..], ss[1..])
  }

  /** A single alternative that is itself the choice among the others. */
  predicate Collapsed(vs: seq<Value>, ws: seq<Value>) {
    |vs| != 1 && ws == [Dict(map["anyOf" := List(vs)])]
  }

  lemma AlternativesEqualIff(vs: seq<Value>, ws: seq<Value>)
    ensures Alternatives(vs) == Alternatives(ws) <==> vs == ws || Collapsed(vs, ws) || Collapsed(ws, vs)
  {
    if |vs| != 1 && |ws| != 1 {
      assert Fields(Alternatives(vs))["anyOf"] == List(vs) && Fields(Alternatives(ws))["anyOf"] == List(ws);
    }
  }

  lemma {:induction false} SelectedNorms(ss: seq<Schema>, ts: seq<Schema>, components: Components,
                                         components': Components, seen: set<string>, seen': set<string>)
    requires Agreeing(ss, ts, components, components', seen, seen')
    ensures |NormAll(ss, components, seen)| == |ss|
    ensures NormNonNull(ss, components, seen) == Selected(NormAll(ss, components, seen), ss)
    ensures NormNonNull(ts, components', seen') == Selected(NormAll(ss, components, seen), ts)
  {
    if ss != [] {
      assert Agreeing(ss[1..], ts[1..], components, components', seen, seen');
      SelectedNorms(ss[1..], ts[1..], components, components', seen, seen');
      assert NormAll(ss, components, seen)[1..] == NormAll(ss[1..], components, seen);
    }
  }

  /** Without that proviso, for nulls uncovered and covered alike: exactly if the values selected by
      the alternatives as written are those selected once they are inlined, or one selection is the
      choice among the other. */
  lemma SelectionsAgreeIff(s: Schema, components: Components, rank: map<string, nat>, seen: set<string>, bound: nat,
                           depth: nat)
    requires Acyclic(components, rank) && Entered(seen, rank, bound) && bound <= depth && AlternativesOf(s).Some?
    requires forall i :: 0 <= i < |AlternativesOf(s).value| ==>
             Under(AlternativesOf(s).value[i], components, rank, bound)
    ensures var ss := AlternativesOf(s).value;
            var ts, values := InlineAll(ss, components, depth), NormAll(ss, components, seen);
            && |values| == |ss| == |ts|
            && (Norm(s, components, seen) == Norm(Inline(s, components, depth), map[], {})
                <==> || Selected(values, ss) == Selected(values, ts)
                     || Collapsed(Selected(values, ss), Selected(values, ts))
                     || Collapsed(Selected(values, ts), Selected(values, ss)))
  {
    var ss := AlternativesOf(s).value;
    var ts, values := InlineAll(ss, components, depth), NormAll(ss, components, seen);
    InlineAllAgrees(ss, components, rank, seen, bound, depth);
    SelectedNorms(ss, ts, components, map[], seen, {});
    AlternativesEqualIff(Selected(values, ss), Selected(values, ts));
  }

  // ---- The exceptions ----------------------------------------------------------------------

  function OfKind(name: string): Schema {
    EMPTY.(kind := One(name))
  }

  function RefTo(name: string): Schema {
    EMPTY.(ref := Some(RefPath(name, [])))
  }

  /** A reference with a null type beside it. */
  function NullableRef(name: string): Schema {
    EMPTY.(ref := Some(RefPath(name, [])), kind := One("null"))
  }

  function AnyOf(ss: seq<Schema>): Schema {
    EMPTY.(anyOf := Subschemas(ss))
  }

  lemma NormPair(s: Schema, t: Schema, components: Components)
    ensures NormNonNull([s, t], components, {})
            == (if IsNull(s) then [] else [Norm(s, components, {})])
                + (if IsNull(t) then [] else [Norm(t, components, {})])
  {
    assert [s, t][1..] == [t] && [t][1..] == [];
    assert NormNonNull([t], components, {})
        == (if IsNull(t) then [] else [Norm(t, components, {})]) + NormNonNull([], components, {});
  }

  lemma InlinePair(s: Schema, t: Schema, components: Components, depth: nat)
    ensures InlineAll([s, t], components, depth) == [Inline(s, components, depth), Inline(t, components, depth)]
  {
    assert [s, t][1..] == [t] && [t][1..] == [];
    assert InlineAll([t], components, depth) == [Inline(t, components, depth)] + InlineAll([], components, depth);
  }

  /** Alternatives, one of which is kept in one layout and dropped in the other. */
  lemma OneDropped(s: Schema, t: Schema, components: Components)
    requires !IsNull(t) && IsNull(s) != IsNull(Inline(s, components, 1))
    requires "anyOf" !in Fields(Norm(t, components, {})) && Inline(t, components, 1) == t
    requires Norm(t, map[], {}) == Norm(t, components, {})
    ensures Norm(AnyOf([s, t]), components, {}) != Norm(Inline(AnyOf([s, t]), components, 1), map[], {})
  {
    var s' := Inline(s, components, 1);
    InlinePair(s, t, components, 1);
    NormPair(s, t, components);
    NormPair(s', t, map[]);
    assert Norm(AnyOf([s, t]), components, {}) == Alternatives(NormNonNull([s, t], components, {}));
    assert Inline(AnyOf([s, t]), components, 1) == AnyOf([s', t]);
    assert Norm(AnyOf([s', t]), map[], {}) == Alternatives(NormNonNull([s', t], map[], {}));
  }

  lemma KindOnly(name: string, components: Components)
    ensures "anyOf" !in Fields(Norm(OfKind(name), components, {}))
    ensures Norm(OfKind(name), components, {}) == Norm(OfKind(name), map[], {})
    ensures Inline(OfKind(name), components, 1) == OfKind(name)
  {
  }

  /** Behind a reference a null alternative is not recognised as one. */
  lemma HiddenNullMatters()
    ensures var components: Components := map["Nothing" := OfKind("null")];
            var s := AnyOf([RefTo("Nothing"), OfKind("string")]);
            Norm(s, components, {}) != Norm(Inline(s, components, 1), map[], {})
  {
    var components: Components := map["Nothing" := OfKind("null")];
    KindOnly("string", components);
    assert Inline(RefTo("Nothing"), components, 1) == OfKind("null");
    OneDropped(RefTo("Nothing"), OfKind("string"), components);
  }

  /** A reference beside `type: null` is dropped, whatever it refers to. */
  lemma NullBesideMatters()
    ensures var components: Components := map["Text" := OfKind("string")];
            var s := AnyOf([NullableRef("Text"), OfKind("integer")]);
            Norm(s, components, {}) != Norm(Inline(s, components, 1), map[], {})
  {
    var components: Components := map["Text" := OfKind("string")];
    KindOnly("integer", components);
    assert Inline(NullableRef("Text"), components, 1) == OfKind("string");
    OneDropped(NullableRef("Text"), OfKind("integer"), components);
  }

  /** When inlining uncovers one null type and covers another, the two may cancel out. */
  lemma BothMayCancel()
    ensures var components: Components := map["Nothing" := OfKind("null"),
                                              "Odd" := EMPTY.(allOf := Subschemas([OfKind("null")]))];
            var s := AnyOf([RefTo("Nothing"), NullableRef("Odd")]);
            Norm(s, components, {}) == Norm(Inline(s, components, 1), map[], {})
  {
    var odd := EMPTY.(allOf := Subschemas([OfKind("null")]));
    var components: Components := map["Nothing" := OfKind("null"), "Odd" := odd];
    var nullValue := Norm(OfKind("null"), map[], {});
    InlinePair(RefTo("Nothing"), NullableRef("Odd"), components, 1);
    assert Inline(RefTo("Nothing"), components, 1) == OfKind("null");
    assert InlineAll([OfKind("null")], components, 0) == [OfKind("null")];
    assert Inline(NullableRef("Odd"), components, 1) == odd;
    NormPair(RefTo("Nothing"), NullableRef("Odd"), components);
    NormPair(OfKind("null"), odd, map[]);
    assert Norm(RefTo("Nothing"), components, {}) == nullValue;
    NullMerges();
  }

  lemma NullMerges()
    ensures Norm(EMPTY.(allOf := Subschemas([OfKind("null")])), map[], {}) == Norm(OfKind("null"), map[], {})
  {
    var v := Norm(OfKind("null"), map[], {});
    assert v == Dict(map["type" := Text("null")]);
    assert NormAll([OfKind("null")], map[], {}) == [v];
    var empty := Merge(map[], {}, None, map[]);
    assert MergeAll(empty, [v]) == MergeAll(MergeOne(empty, v), []);
    assert MergeOne(empty, v) == Merge(map[], {}, Some(Text("null")), map[]);
  }

  /** A reference into a cycle is cut one round earlier than what it refers to. */
  lemma CycleMatters()
    ensures var components: Components := map["A" := EMPTY.(items := Some(RefTo("A")))];
            && Inline(RefTo("A"), components, 1) == components["A"]
            && Norm(RefTo("A"), components, {}) != Norm(components["A"], components, {})
  {
    var a := EMPTY.(items := Some(RefTo("A")));
    var components: Components := map["A" := a];
    var once, cut := Norm(a, components, {"A"}), Norm(RefTo("A"), components, {"A"});
    assert cut == Dict(map["circular" := Text("A")]);
    assert Norm(RefTo("A"), components, {}) == once by {
      assert {} + {"A"} == {"A"};
    }
    assert Fields(once)["items"] == cut;
    assert Fields(Norm(a, components, {}))["items"] == once;
  }

  /** `additionalProperties` that refers to what is no schema object counts as one. */
  lemma SortMatters()
    ensures var components: Components := map["Anything" := NotSchema];
            var s := EMPTY.(additional := Some(RefTo("Anything")));
            Norm(s, components, {}) != Norm(Inline(s, components, 1), map[], {})
  {
    var components: Components := map["Anything" := NotSchema];
    var s := EMPTY.(additional := Some(RefTo("Anything")));
    assert Inline(RefTo("Anything"), components, 1) == NotSchema;
    assert Inline(s, components, 1) == EMPTY.(additional := Some(NotSchema));
    assert "additionalProperties" in Fields(Norm(s, components, {}));
    assert "additionalProperties" !in Fields(Norm(Inline(s, components, 1), map[], {}));
  }

  /** A reference into a component is read as one to the component of the name it ends in. */
  lemma InsideMatters()
    ensures var order := EMPTY.(properties := Properties(map["id" := OfKind("integer")]));
            var components: Components := map["Order" := order, "id" := OfKind("string")];
            var s := EMPTY.(ref := Some(RefPath("Order", [IntoProperty("id")])));
            Norm(s, components, {}) != Norm(Inline(s, components, 1), map[], {})
  {
    var order := EMPTY.(properties := Properties(map["id" := OfKind("integer")]));
    var components: Components := map["Order" := order, "id" := OfKind("string")];
    var s := EMPTY.(ref := Some(RefPath("Order", [IntoProperty("id")])));
    assert Inside(order, [IntoProperty("id")]) == Inside(OfKind("integer"), []) by {
      assert [IntoProperty("id")][1..] == [];
    }
    assert Inline(s, components, 1) == Inline(OfKind("integer"), components, 0) == OfKind("integer");
    assert Norm(s, components, {}) == Norm(OfKind("string"), components, {"id"}) by {
      assert {} + {"id"} == {"id"};
    }
    assert Fields(Norm(OfKind("string"), components, {"id"}))["type"] == Text("string");
    assert Fields(Norm(OfKind("integer"), map[], {}))["type"] == Text("integer");
  }

  // ---- Schemas without a value -------------------------------------------------------------

  function NonNull(ss: seq<Schema>): (kept: seq<Schema>)
    ensures |kept| <= |ss| && forall s :: s in kept ==> s in ss
  {
    if ss == [] then [] else (if IsNull(ss[0]) then [] else [ss[0]]) + NonNull(ss[1..])
  }

  /** No schema object is found at the end of references and single alternatives. */
  predicate Valueless(s: Schema, components: Components, seen: set<string>)
    decreases |components.Keys - seen|, s
  {
    if s.NotSchema? then true
    else if s.ref.Some? then
      var name := LastSegment(s.ref.value);
      name in components && name !in seen &&
      (Smaller(components.Keys - (seen + {name}), components.Keys - seen);
       Valueless(components[name], components, seen + {name}))
    else
      var ss := AlternativesOf(s);
      ss.Some? &&
      var kept := NonNull(ss.value);
      |kept| == 1 && (assert kept[0] in ss.value; Valueless(kept[0], components, seen))
  }

  lemma {:induction false} NonNullNorms(ss: seq<Schema>, components: Components, seen: set<string>)
    ensures |NormNonNull(ss, components, seen)| == |NonNull(ss)|
    ensures |NonNull(ss)| == 1 ==> NormNonNull(ss, components, seen)[0] == Norm(NonNull(ss)[0], components, seen)
  {
    if ss != [] {
      NonNullNorms(ss[1..], components, seen);
    }
  }

  /** Exactly such schemas normalise to `None`. */
  lemma {:induction false} ValuelessIff(s: Schema, components: Components, seen: set<string>)
    ensures Norm(s, components, seen) == Null <==> Valueless(s, components, seen)
    decreases |components.Keys - seen|, s
  {
    if s.NotSchema? {
    } else if s.ref.Some? {
      var name := LastSegment(s.ref.value);
      if name in components && name !in seen {
        Smaller(components.Keys - (seen + {name}), components.Keys - seen);
        ValuelessIff(components[name], components, seen + {name});
      }
    } else if AlternativesOf(s).Some? {
      var ss := AlternativesOf(s).value;
      NonNullNorms(ss, components, seen);
      assert Norm(s, components, seen) == Alternatives(NormNonNull(ss, components, seen));
      if |NonNull(ss)| == 1 {
        assert NonNull(ss)[0] in ss;
        ValuelessIff(NonNull(ss)[0], components, seen);
      }
    }
  }
}
