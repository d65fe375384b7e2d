/** When a reference into a cycle matters: normalising a reference to a component against normalising
    the component itself. */
module SpecCycles {
  import opened Prelude
  import opened SpecNorm
  import opened SpecLayout

  // ---- What the normaliser comes to --------------------------------------------------------

  datatype Sought = ReferenceTo(name: string) | AllOf

  predicate Found(s: Schema, sought: Sought)
    requires s.Schema?
  {
    match sought
    case ReferenceTo(name) => s.ref.Some? && LastSegment(s.ref.value) == name
    case AllOf => s.ref.None? && s.allOf.Subschemas?
  }

  /** Resolving `s`, the normaliser comes to what is sought. */
  predicate Meets(s: Schema, components: Components, seen: set<string>, sought: Sought)
    decreases |components.Keys - seen|, s
  {
    && s.Schema?
    && (Found(s, sought) ||
        if s.ref.Some? then
          var name := LastSegment(s.ref.value);
          name in components && name !in seen &&
          (Smaller(components.Keys - (seen + {name}), components.Keys - seen);
           Meets(components[name], components, seen + {name}, sought))
        else if s.allOf.Subschemas? then
          exists i :: 0 <= i < |s.allOf.list| && Meets(s.allOf.list[i], components, seen, sought)
        else if s.anyOf.Subschemas? then
          exists i :: 0 <= i < |s.anyOf.list| && !IsNull(s.anyOf.list[i])
                      && Meets(s.anyOf.list[i], components, seen, sought)
        else if s.oneOf.Subschemas? then
          exists i :: 0 <= i < |s.oneOf.list| && !IsNull(s.oneOf.list[i])
                      && Meets(s.oneOf.list[i], components, seen, sought)
        else
          || (s.properties.Properties? &&
              exists k | k in s.properties.schemas :: Meets(s.properties.schemas[k], components, seen, sought))
          || (s.items.Some? && Meets(s.items.value, components, seen, sought))
          || (s.additional.Some? && Meets(s.additional.value, components, seen, sought)))
  }

  /** Some alternative that is kept meets what is sought. */
  predicate SomeMeets(ss: seq<Schema>, components: Components, seen: set<string>, sought: Sought) {
    exists i :: 0 <= i < |ss| && !IsNull(ss[i]) && Meets(ss[i], components, seen, sought)
  }

  /** The component a schema leads straight to, by itself or as its only alternative. */
  function First(s: Schema): Option<string> {
    if s.NotSchema? then None
    else if s.ref.Some? then Some(LastSegment(s.ref.value))
    else
      var ss := AlternativesOf(s);
      if ss.Some? && |NonNull(ss.value)| == 1 then
        assert NonNull(ss.value)[0] in ss.value;
        First(NonNull(ss.value)[0])
      else None
  }

  // ---- A component that is not met ---------------------------------------------------------

  lemma {:induction false} UnmetAll(ss: seq<Schema>, components: Components, seen: set<string>, a: string)
    requires a !in seen && forall i :: 0 <= i < |ss| ==> !Meets(ss[i], components, seen, ReferenceTo(a))
    ensures NormAll(ss, components, seen + {a}) == NormAll(ss, components, seen)
    decreases |components.Keys - seen|, ss, 0
  {
    if ss != [] {
      Unmet(ss[0], components, seen, a);
      UnmetAll(ss[1..], components, seen, a);
    }
  }

  lemma {:induction false} UnmetNonNull(ss: seq<Schema>, components: Components, seen: set<string>, a: string)
    requires a !in seen && !SomeMeets(ss, components, seen, ReferenceTo(a))
    ensures NormNonNull(ss, components, seen + {a}) == NormNonNull(ss, components, seen)
    decreases |components.Keys - seen|, ss, 0
  {
    if ss != [] {
      if !IsNull(ss[0]) {
        Unmet(ss[0], components, seen, a);
      }
      assert forall i :: 0 <= i < |ss[1..]| ==> ss[1..][i] == ss[i + 1];
      UnmetNonNull(ss[1..], components, seen, a);
    }
  }

  /** What is not met may be seen already. */
  lemma {:induction false} Unmet(s: Schema, components: Components, seen: set<string>, a: string)
    requires a !in seen && !Meets(s, components, seen, ReferenceTo(a))
    ensures Norm(s, components, seen + {a}) == Norm(s, components, seen)
    decreases |components.Keys - seen|, s, 1
  {
    if s.NotSchema? {
    } else if s.ref.Some? {
      var name := LastSegment(s.ref.value);
      if name in components && name !in seen {
        Smaller(components.Keys - (seen + {name}), components.Keys - seen);
        Unmet(components[name], components, seen + {name}, a);
        assert seen + {name} + {a} == seen + {a} + {name};
      }
    } else if s.allOf.Subschemas? {
      UnmetAll(s.allOf.list, components, seen, a);
    } else if s.anyOf.Subschemas? {
      UnmetNonNull(s.anyOf.list, components, seen, a);
    } else if s.oneOf.Subschemas? {
      UnmetNonNull(s.oneOf.list, components, seen, a);
    } else {
      UnmetPlain(s, components, seen, a);
    }
  }

  lemma {:induction false} UnmetPlain(s: Schema, components: Components, seen: set<string>, a: string)
    requires IsPlain(s) && a !in seen && !Meets(s, components, seen, ReferenceTo(a))
    ensures Norm(s, components, seen + {a}) == Norm(s, components, seen)
    decreases |components.Keys - seen|, s, 0
  {
    if s.properties.Properties? {
      forall k | k in s.properties.schemas
        ensures Norm(s.properties.schemas[k], components, seen + {a}) == Norm(s.properties.schemas[k], components, seen)
      {
        Unmet(s.properties.schemas[k], components, seen, a);
      }
      assert (map k | k in s.properties.schemas :: Norm(s.properties.schemas[k], components, seen + {a}))
          == (map k | k in s.properties.schemas :: Norm(s.properties.schemas[k], components, seen));
    }
    if s.items.Some? {
      Unmet(s.items.value, components, seen, a);
    }
    if s.additional.Some? {
      Unmet(s.additional.value, components, seen, a);
    }
  }

  // ---- A component that is met -------------------------------------------------------------

  function Circular(name: string): Value {
    Dict(map["circular" := Text(name)])
  }

  lemma AssembledShows(scalars: map<string, Value>, hasProperties: bool, properties: map<string, Value>,
                       hasItems: bool, items: Value, shows: bool, additional: Value)
    ensures var f := Fields(Assembled(scalars, hasProperties, properties, hasItems, items, shows, additional));
            && (hasProperties ==> "properties" in f && f["properties"] == Dict(properties))
            && (hasItems ==> "items" in f && f["items"] == items)
            && (shows ==> "additionalProperties" in f && f["additionalProperties"] == additional)
  {
  }

  /** Unequal parts make unequal schemas. */
  lemma PlainParts(s: Schema, properties: map<string, Value>, items: Value, additional: Value,
                   properties': map<string, Value>, items': Value, additional': Value)
    requires s.Schema?
    requires Plain(s, properties, items, additional) == Plain(s, properties', items', additional')
    ensures s.properties.Properties? ==> properties == properties'
    ensures s.items.Some? ==> items == items'
    ensures ShowsAdditional(s) ==> additional == additional'
  {
    AssembledParts(Scalars(s), s.properties.Properties?, s.items.Some?, ShowsAdditional(s), properties, items,
                   additional, properties', items', additional');
  }

  lemma AssembledParts(scalars: map<string, Value>, hasProperties: bool, hasItems: bool, shows: bool,
                       properties: map<string, Value>, items: Value, additional: Value,
                       properties': map<string, Value>, items': Value, additional': Value)
    requires Assembled(scalars, hasProperties, properties, hasItems, items, shows, additional)
          == Assembled(scalars, hasProperties, properties', hasItems, items', shows, additional')
    ensures hasProperties ==> properties == properties'
    ensures hasItems ==> items == items'
    ensures shows ==> additional == additional'
  {
    AssembledShows(scalars, hasProperties, properties, hasItems, items, shows, additional);
    AssembledShows(scalars, hasProperties, properties', hasItems, items', shows, additional');
  }

  lemma PlainNotCircular(s: Schema, properties: map<string, Value>, items: Value, additional: Value)
    requires s.Schema?
    ensures "circular" !in Fields(Plain(s, properties, items, additional))
  {
    EntriesKeys(KindEntry(s.kind, s.properties.Properties?), EnumEntry(s.values, s.constant), s.pattern, s.required);
    EnumKeys(s.values, s.constant);
    AssembledNotCircular(Scalars(s), s.properties.Properties?, properties, s.items.Some?, items, ShowsAdditional(s),
                         additional);
  }

  lemma EnumKeys(values: Option<seq<Option<string>>>, constant: Option<string>)
    ensures EnumEntry(values, constant).Keys <= {"enum"}
  {
  }

  lemma AssembledNotCircular(scalars: map<string, Value>, hasProperties: bool, properties: map<string, Value>,
                             hasItems: bool, items: Value, shows: bool, additional: Value)
    requires "circular" !in scalars
    ensures "circular" !in Fields(Assembled(scalars, hasProperties, properties, hasItems, items, shows, additional))
  {
  }

  /** What leads to another component already seen, or to none, is not cut at `a`. */
  lemma {:induction false} NotCut(s: Schema, components: Components, seen: set<string>, a: string)
    requires First(s).Some? ==> First(s).value in seen && First(s).value != a
    ensures Norm(s, components, seen) != Circular(a)
    decreases s
  {
    if s.NotSchema? {
    } else if s.ref.Some? {
      assert Norm(s, components, seen) == Circular(First(s).value);
      assert Fields(Norm(s, components, seen))["circular"] == Text(First(s).value);
    } else if s.allOf.Subschemas? {
      assert "type" in Fields(Norm(s, components, seen));
    } else if AlternativesOf(s).Some? {
      var ss := AlternativesOf(s).value;
      NonNullNorms(ss, components, seen);
      assert Norm(s, components, seen) == Alternatives(NormNonNull(ss, components, seen));
      if |NonNull(ss)| == 1 {
        assert NonNull(ss)[0] in ss;
        NotCut(NonNull(ss)[0], components, seen, a);
      } else {
        assert "anyOf" in Fields(Norm(s, components, seen));
      }
    } else {
      PlainNotCircular(s, if s.properties.Properties?
                          then map k | k in s.properties.schemas :: Norm(s.properties.schemas[k], components, seen)
                          else map[],
                       if s.items.Some? then Norm(s.items.value, components, seen) else Null,
                       if s.additional.Some? then Norm(s.additional.value, components, seen) else Null);
    }
  }

  /** `a` is no shortcut from here: the component `c`, which it stands for, leads to one seen already, or
      to none. */
  predicate NoShortcut(s: Schema, c: Schema, seen: set<string>, a: string) {
    First(c).Some? ==> First(c).value != a && (First(c).value in seen || First(s) == First(c))
  }

  lemma {:induction false} MetNonNull(ss: seq<Schema>, components: Components, seen: set<string>, a: string)
    requires a in components && a !in seen
    requires First(components[a]).Some? ==> First(components[a]).value != a
    requires forall i :: 0 <= i < |ss| ==> NoShortcut(ss[i], components[a], seen, a)
    requires !SomeMeets(ss, components, seen, AllOf) && SomeMeets(ss, components, seen, ReferenceTo(a))
    ensures NormNonNull(ss, components, seen + {a}) != NormNonNull(ss, components, seen)
    decreases |components.Keys - seen|, ss, 0
  {
    assert forall i :: 0 <= i < |ss[1..]| ==> ss[1..][i] == ss[i + 1];
    var head, head' := Norm(ss[0], components, seen), Norm(ss[0], components, seen + {a});
    var rest, rest' := NormNonNull(ss[1..], components, seen), NormNonNull(ss[1..], components, seen + {a});
    if !IsNull(ss[0]) && Meets(ss[0], components, seen, ReferenceTo(a)) {
      Met(ss[0], components, seen, a);
      assert NormNonNull(ss, components, seen)[0] == head && NormNonNull(ss, components, seen + {a})[0] == head';
    } else {
      MetNonNull(ss[1..], components, seen, a);
      if !IsNull(ss[0]) {
        assert NormNonNull(ss, components, seen)[1..] == rest;
        assert NormNonNull(ss, components, seen + {a})[1..] == rest';
      } else {
        assert [] + rest == rest && [] + rest' == rest';
      }
    }
  }

  lemma {:induction false} MetAlternatives(s: Schema, ss: seq<Schema>, components: Components, seen: set<string>,
                                           a: string)
    requires AlternativesOf(s) == Some(ss)
    requires a in components && a !in seen && NoShortcut(s, components[a], seen, a)
    requires !Meets(s, components, seen, AllOf) && Meets(s, components, seen, ReferenceTo(a))
    ensures Norm(s, components, seen + {a}) != Norm(s, components, seen)
    decreases |components.Keys - seen|, s, 0
  {
    NonNullNorms(ss, components, seen);
    NonNullNorms(ss, components, seen + {a});
    if |NonNull(ss)| == 1 {
      var only := NonNull(ss)[0];
      assert only in ss;
      OnlyMeets(ss, components, seen, AllOf);
      OnlyMeets(ss, components, seen, ReferenceTo(a));
      Met(only, components, seen, a);
    } else {
      assert First(s).None?;
      MetNonNull(ss, components, seen, a);
      var vs, ws := NormNonNull(ss, components, seen), NormNonNull(ss, components, seen + {a});
      assert Norm(s, components, seen) == Alternatives(vs) && Norm(s, components, seen + {a}) == Alternatives(ws);
      assert Fields(Alternatives(vs))["anyOf"] == List(vs) && Fields(Alternatives(ws))["anyOf"] == List(ws);
    }
  }

  /** An only alternative meets what the list meets. */
  lemma {:induction false} OnlyMeets(ss: seq<Schema>, components: Components, seen: set<string>, sought: Sought)
    requires |NonNull(ss)| == 1
    ensures SomeMeets(ss, components, seen, sought) <==> Meets(NonNull(ss)[0], components, seen, sought)
  {
    assert forall i :: 0 <= i < |ss[1..]| ==> ss[1..][i] == ss[i + 1];
    if IsNull(ss[0]) {
      OnlyMeets(ss[1..], components, seen, sought);
      assert SomeMeets(ss, components, seen, sought) <==> SomeMeets(ss[1..], components, seen, sought);
    } else {
      NoneKept(ss[1..]);
    }
  }

  lemma {:induction false} NoneKept(ss: seq<Schema>)
    requires NonNull(ss) == []
    ensures forall i :: 0 <= i < |ss| ==> IsNull(ss[i])
  {
    if ss != [] {
      NoneKept(ss[1..]);
      assert forall i :: 1 <= i < |ss| ==> ss[i] == ss[1..][i - 1];
    }
  }

  lemma {:induction false} MetPlain(s: Schema, components: Components, seen: set<string>, a: string)
    requires IsPlain(s) && a in components && a !in seen && NoShortcut(s, components[a], seen, a)
    requires !Meets(s, components, seen, AllOf) && Meets(s, components, seen, ReferenceTo(a))
    ensures Norm(s, components, seen + {a}) != Norm(s, components, seen)
    decreases |components.Keys - seen|, s, 0
  {
    var properties := if s.properties.Properties?
                      then map k | k in s.properties.schemas :: Norm(s.properties.schemas[k], components, seen)
                      else map[];
    var properties' := if s.properties.Properties?
                       then map k | k in s.properties.schemas :: Norm(s.properties.schemas[k], components, seen + {a})
                       else map[];
    var items := if s.items.Some? then Norm(s.items.value, components, seen) else Null;
    var items' := if s.items.Some? then Norm(s.items.value, components, seen + {a}) else Null;
    var additional := if s.additional.Some? then Norm(s.additional.value, components, seen) else Null;
    var additional' := if s.additional.Some? then Norm(s.additional.value, components, seen + {a}) else Null;
    if s.items.Some? && Meets(s.items.value, components, seen, ReferenceTo(a)) {
      Met(s.items.value, components, seen, a);
      assert items != items';
    } else if s.additional.Some? && Meets(s.additional.value, components, seen, ReferenceTo(a)) {
      Met(s.additional.value, components, seen, a);
      assert additional != additional' && ShowsAdditional(s);
    } else {
      var k :| k in s.properties.schemas && Meets(s.properties.schemas[k], components, seen, ReferenceTo(a));
      Met(s.properties.schemas[k], components, seen, a);
      assert properties[k] != properties'[k];
    }
    if Plain(s, properties, items, additional) == Plain(s, properties', items', additional') {
      PlainParts(s, properties, items, additional, properties', items', additional');
    }
  }

  /** What is met shows, unless it is merged away: it is cut one round earlier. */
  lemma {:induction false} Met(s: Schema, components: Components, seen: set<string>, a: string)
    requires a in components && a !in seen && NoShortcut(s, components[a], seen, a)
    requires !Meets(s, components, seen, AllOf) && Meets(s, components, seen, ReferenceTo(a))
    ensures Norm(s, components, seen + {a}) != Norm(s, components, seen)
    decreases |components.Keys - seen|, s, 1
  {
    if s.ref.Some? {
      var name := LastSegment(s.ref.value);
      if name == a {
        NotCut(components[a], components, seen + {a}, a);
      } else {
        Smaller(components.Keys - (seen + {name}), components.Keys - seen);
        Met(components[name], components, seen + {name}, a);
        assert seen + {name} + {a} == seen + {a} + {name};
      }
    } else if AlternativesOf(s).Some? {
      MetAlternatives(s, AlternativesOf(s).value, components, seen, a);
    } else {
      MetPlain(s, components, seen, a);
    }
  }

  // ---- Main results ------------------------------------------------------------------------

  /** A schema that leads straight to `a`, without another component in between, is cut at once. */
  lemma {:induction false} LeadsTo(s: Schema, components: Components, seen: set<string>, a: string)
    requires First(s) == Some(a) && a in components
    ensures Norm(s, components, seen)
            == if a in seen then Circular(a) else Norm(components[a], components, seen + {a})
    decreases s
  {
    if s.ref.None? {
      var ss := AlternativesOf(s).value;
      NonNullNorms(ss, components, seen);
      assert NonNull(ss)[0] in ss;
      LeadsTo(NonNull(ss)[0], components, seen, a);
      assert Norm(s, components, seen) == Alternatives(NormNonNull(ss, components, seen));
    }
  }

  /** A reference to a component normalises as the component does if resolving the component does not
      come back to it, or does nothing but that. */
  lemma CycleAgrees(a: string, components: Components, seen: set<string>)
    requires a in components && a !in seen
    requires !Meets(components[a], components, seen, ReferenceTo(a)) || First(components[a]) == Some(a)
    ensures Norm(RefTo(a), components, seen) == Norm(components[a], components, seen)
  {
    if First(components[a]) == Some(a) {
      LeadsTo(components[a], components, seen, a);
      LeadsTo(components[a], components, seen + {a}, a);
    } else {
      Unmet(components[a], components, seen, a);
    }
  }

  /** Where no `allOf` is merged, it does so only then. */
  lemma CycleAgreesIff(a: string, components: Components, seen: set<string>)
    requires a in components && a !in seen && !Meets(components[a], components, seen, AllOf)
    ensures Norm(RefTo(a), components, seen) == Norm(components[a], components, seen)
       <==> !Meets(components[a], components, seen, ReferenceTo(a)) || First(components[a]) == Some(a)
  {
    if Meets(components[a], components, seen, ReferenceTo(a)) && First(components[a]) != Some(a) {
      Met(components[a], components, seen, a);
    } else {
      CycleAgrees(a, components, seen);
    }
  }

  /** Merged away by an `allOf`, coming back to the component need not show. */
  lemma MergedCycleHidden()
    ensures var list := AnyOf([RefTo("A"), OfKind("string")]);
            var components: Components := map["A" := EMPTY.(allOf := Subschemas([list]))];
            && Meets(components["A"], components, {}, ReferenceTo("A")) && First(components["A"]) != Some("A")
            && Norm(RefTo("A"), components, {}) == Norm(components["A"], components, {})
  {
    var list := AnyOf([RefTo("A"), OfKind("string")]);
    var a := EMPTY.(allOf := Subschemas([list]));
    var components: Components := map["A" := a];
    assert Meets(RefTo("A"), components, {}, ReferenceTo("A"));
    assert list.anyOf.list[0] == RefTo("A");
    assert Meets(list, components, {}, ReferenceTo("A"));
    assert a.allOf.list[0] == list;
    MergesToNothing(components, {});
    MergesToNothing(components, {"A"});
    assert {} + {"A"} == {"A"};
  }

  lemma MergesToNothing(components: Components, seen: set<string>)
    ensures var list := AnyOf([RefTo("A"), OfKind("string")]);
            Norm(EMPTY.(allOf := Subschemas([list])), components, seen) == Dict(map["type" := Text("object")])
  {
    var list := AnyOf([RefTo("A"), OfKind("string")]);
    var kept := NormNonNull(list.anyOf.list, components, seen);
    assert list.anyOf.list[1..] == [OfKind("string")];
    NonNullNorms(list.anyOf.list, components, seen);
    var v := Norm(list, components, seen);
    assert v == Dict(map["anyOf" := List(kept)]);
    assert NormAll([list], components, seen) == [v];
    var empty := Merge(map[], {}, None, map[]);
    assert MergeOne(empty, v) == empty;
    assert MergeAll(empty, [v]) == MergeAll(MergeOne(empty, v), []);
  }
}
