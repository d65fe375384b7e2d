/** The structural comparison of scripts/spec_diff.py: `diff_values` appends one finding per
    difference between two normalised values. */
module SpecDiff {
  import opened Prelude
  import opened SpecNorm

  /** A reported line; its location is the path of keys the line spells out. */
  datatype Finding =
    | Extra(path: seq<string>)                                  // present in the generated schema only
    | Missing(path: seq<string>)                                // present in the spec only
    | Differs(path: seq<string>, spec: Value, generated: Value)
    | SchemeMissing                                             // no HTTP bearer scheme is declared
    | SecurityMissing                                           // bearer authentication is not required
  {
    predicate Located() {
      Extra? || Missing? || Differs?
    }
  }

  // ---- The order of keys -------------------------------------------------------------------

  /** Strings in the order `sorted` puts them. */
  predicate AtMost(a: string, b: string)
    decreases |a|
  {
    a == [] || (b != [] && (a[0] < b[0] || (a[0] == b[0] && AtMost(a[1..], b[1..]))))
  }

  lemma {:induction false} AtMostTotal(a: string, b: string)
    ensures AtMost(a, b) || AtMost(b, a)
    ensures AtMost(a, b) && AtMost(b, a) ==> a == b
    decreases |a|
  {
    if a != [] && b != [] {
      AtMostTotal(a[1..], b[1..]);
      assert a == [a[0]] + a[1..] && b == [b[0]] + b[1..];
    }
  }

  lemma {:induction false} AtMostTransitive(a: string, b: string, c: string)
    requires AtMost(a, b) && AtMost(b, c)
    ensures AtMost(a, c)
    decreases |a|
  {
    if a != [] && a[0] == b[0] == c[0] {
      AtMostTransitive(a[1..], b[1..], c[1..]);
    }
  }

  ghost predicate IsLeast(k: string, keys: set<string>) {
    k in keys && forall x | x in keys :: AtMost(k, x)
  }

  lemma {:induction false} LeastExists(keys: set<string>)
    requires keys != {}
    ensures exists k :: IsLeast(k, keys)
    decreases |keys|
  {
    var x :| x in keys;
    var rest := keys - {x};
    AtMostTotal(x, x);
    if rest == {} {
      assert keys == {x};
      assert IsLeast(x, keys);
    } else {
      LeastExists(rest);
      var y :| IsLeast(y, rest);
      AtMostTotal(x, y);
      if AtMost(x, y) {
        forall z | z in keys ensures AtMost(x, z) {
          if z != x {
            AtMostTransitive(x, y, z);
          }
        }
        assert IsLeast(x, keys);
      } else {
        assert IsLeast(y, keys);
      }
    }
  }

  ghost function Least(keys: set<string>): (k: string)
    requires keys != {}
    ensures IsLeast(k, keys)
  {
    LeastExists(keys);
    var k :| IsLeast(k, keys);
    k
  }

  lemma LeastUnique(k: string, keys: set<string>)
    requires IsLeast(k, keys)
    ensures k == Least(keys)
  {
    AtMostTotal(k, Least(keys));
  }

  // ---- The report --------------------------------------------------------------------------

  ghost function Report(path: seq<string>, spec: Value, generated: Value): seq<Finding>
    decreases spec, 2
  {
    if spec.Dict? && generated.Dict? then ReportKeys(path, spec, generated, spec.fields.Keys + generated.fields.Keys)
    else if spec != generated then [Differs(path, spec, generated)]
    else []
  }

  ghost function ReportKey(path: seq<string>, spec: Value, generated: Value, key: string): seq<Finding>
    requires spec.Dict? && generated.Dict? && key in spec.fields.Keys + generated.fields.Keys
    decreases spec, 0
  {
    if key !in spec.fields then [Extra(path + [key])]
    else if key !in generated.fields then [Missing(path + [key])]
    else Report(path + [key], spec.fields[key], generated.fields[key])
  }

  ghost function ReportKeys(path: seq<string>, spec: Value, generated: Value, keys: set<string>): seq<Finding>
    requires spec.Dict? && generated.Dict? && keys <= spec.fields.Keys + generated.fields.Keys
    decreases spec, 1, keys
  {
    if keys == {} then []
    else
      var key := Least(keys);
      ReportKey(path, spec, generated, key) + ReportKeys(path, spec, generated, keys - {key})
  }

  /** The first key, in order, is reported first. */
  lemma ReportLeast(path: seq<string>, spec: Value, generated: Value, keys: set<string>, key: string)
    requires spec.Dict? && generated.Dict? && keys <= spec.fields.Keys + generated.fields.Keys && IsLeast(key, keys)
    ensures ReportKeys(path, spec, generated, keys)
         == ReportKey(path, spec, generated, key) + ReportKeys(path, spec, generated, keys - {key})
  {
    LeastUnique(key, keys);
  }

  // ---- diff_values and compare -------------------------------------------------------------

  class Findings {
    var items: seq<Finding>

    constructor ()
      ensures items == []
    {
      items := [];
    }
  }

  method DiffValues(path: seq<string>, spec: Value, generated: Value, findings: Findings)
    modifies findings
    ensures findings.items == old(findings.items) + Report(path, spec, generated)
    decreases spec, 2
  {
    if spec.Dict? && generated.Dict? {
      DiffKeys(path, spec, generated, findings);
    } else if spec != generated {
      findings.items := findings.items + [Differs(path, spec, generated)];
    }
  }

  /** The loop over the keys of both values, in order. */
  method DiffKeys(path: seq<string>, spec: Value, generated: Value, findings: Findings)
    requires spec.Dict? && generated.Dict?
    modifies findings
    ensures findings.items == old(findings.items)
            + ReportKeys(path, spec, generated, spec.fields.Keys + generated.fields.Keys)
    decreases spec, 1
  {
    var rest := spec.fields.Keys + generated.fields.Keys;
    ghost var all, done := rest, [];
    while rest != {}
      invariant rest <= all
      invariant findings.items == old(findings.items) + done
      invariant done + ReportKeys(path, spec, generated, rest) == ReportKeys(path, spec, generated, all)
      decreases |rest|
    {
      LeastExists(rest);
      var key :| key in rest && forall x | x in rest :: AtMost(key, x);
      ReportLeast(path, spec, generated, rest, key);
      done := done + ReportKey(path, spec, generated, key);
      if key !in spec.fields {
        findings.items := findings.items + [Extra(path + [key])];
      } else if key !in generated.fields {
        findings.items := findings.items + [Missing(path + [key])];
      } else {
        DiffValues(path + [key], spec.fields[key], generated.fields[key], findings);
      }
      rest := rest - {key};
    }
  }

  // ---- What is reported --------------------------------------------------------------------

  /** What a value holds at a path of keys. */
  function At(v: Value, path: seq<string>): Option<Value>
    decreases |path|
  {
    if path == [] then Some(v)
    else if v.Dict? && path[0] in v.fields then At(v.fields[path[0]], path[1..])
    else None
  }

  predicate DictAt(v: Value, path: seq<string>) {
    At(v, path).Some? && At(v, path).value.Dict?
  }

  /** `f`, located at `path`, is a difference between the two values: a key that one of two
      dictionaries has and the other lacks, or two unequal values that are not dictionaries. */
  ghost predicate Difference(f: Finding, path: seq<string>, spec: Value, generated: Value) {
    match f
    case Extra(_) =>
      && path != [] && DictAt(spec, path[..|path| - 1]) && DictAt(generated, path[..|path| - 1])
      && At(spec, path).None? && At(generated, path).Some?
    case Missing(_) =>
      && path != [] && DictAt(spec, path[..|path| - 1]) && DictAt(generated, path[..|path| - 1])
      && At(spec, path).Some? && At(generated, path).None?
    case Differs(_, x, y) =>
      At(spec, path) == Some(x) && At(generated, path) == Some(y) && !(x.Dict? && y.Dict?) && x != y
    case _ => false
  }

  /** `f` is a difference, reported under the location the comparison started from. */
  ghost predicate Reportable(f: Finding, path: seq<string>, spec: Value, generated: Value) {
    f.Located() && path <= f.path && Difference(f, f.path[|path|..], spec, generated)
  }

  /** A difference below two dictionaries is one below a key of theirs. */
  lemma DifferenceBelow(f: Finding, q: seq<string>, spec: Value, generated: Value)
    requires spec.Dict? && generated.Dict?
    ensures Difference(f, q, spec, generated)
       <==> && q != []
            && (if q[0] in spec.fields && q[0] in generated.fields
                then Difference(f, q[1..], spec.fields[q[0]], generated.fields[q[0]])
                else |q| == 1 && ((f.Extra? && q[0] in generated.fields) || (f.Missing? && q[0] in spec.fields)))
  {
    if q != [] {
      var rest := q[1..];
      if |q| > 1 {
        assert q[..|q| - 1][1..] == rest[..|rest| - 1];
        assert q[..|q| - 1][0] == q[0];
      } else {
        assert rest == [] && q[..|q| - 1] == [];
        assert q[0] in spec.fields ==> At(spec, q) == Some(spec.fields[q[0]]);
        assert q[0] in generated.fields ==> At(generated, q) == Some(generated.fields[q[0]]);
        assert DictAt(spec, []) && DictAt(generated, []);
      }
    }
  }

  lemma {:induction false} KeyExact(f: Finding, path: seq<string>, spec: Value, generated: Value, key: string)
    requires spec.Dict? && generated.Dict? && key in spec.fields.Keys + generated.fields.Keys
    ensures f in ReportKey(path, spec, generated, key)
       <==> Reportable(f, path, spec, generated) && |f.path| > |path| && f.path[|path|] == key
    decreases spec, 0
  {
    if f.Located() && path <= f.path {
      DifferenceBelow(f, f.path[|path|..], spec, generated);
    }
    if key in spec.fields && key in generated.fields {
      ReportExact(f, path + [key], spec.fields[key], generated.fields[key]);
      if f.Located() && path <= f.path && |f.path| > |path| {
        assert f.path[|path|..][1..] == f.path[|path + [key]|..];
        assert path + [key] <= f.path <==> f.path[|path|] == key;
      }
    } else if f.Located() && path <= f.path && |f.path| == |path| + 1 {
      assert f.path == path + [f.path[|path|]];
    }
  }

  lemma {:induction false} KeysExact(f: Finding, path: seq<string>, spec: Value, generated: Value, keys: set<string>)
    requires spec.Dict? && generated.Dict? && keys <= spec.fields.Keys + generated.fields.Keys
    ensures f in ReportKeys(path, spec, generated, keys)
       <==> Reportable(f, path, spec, generated) && |f.path| > |path| && f.path[|path|] in keys
    decreases spec, 1, keys
  {
    if keys != {} {
      var key := Least(keys);
      KeyExact(f, path, spec, generated, key);
      KeysExact(f, path, spec, generated, keys - {key});
    }
  }

  /** The report is sound and complete: it lists exactly the differences. */
  lemma {:induction false} ReportExact(f: Finding, path: seq<string>, spec: Value, generated: Value)
    ensures f in Report(path, spec, generated) <==> Reportable(f, path, spec, generated)
    decreases spec, 2
  {
    if spec.Dict? && generated.Dict? {
      KeysExact(f, path, spec, generated, spec.fields.Keys + generated.fields.Keys);
      if f.Located() && path <= f.path {
        DifferenceBelow(f, f.path[|path|..], spec, generated);
      }
    } else if f.Located() && path <= f.path {
      var q := f.path[|path|..];
      if q == [] {
        assert f.path == path;
      } else {
        assert !DictAt(spec, q[..|q| - 1]) || !DictAt(generated, q[..|q| - 1]) by {
          if |q| > 1 {
            assert q[..|q| - 1][0] == q[0];
          }
        }
      }
    }
  }

  // ---- No difference, no finding -----------------------------------------------------------

  lemma {:induction false} KeysSilentIff(path: seq<string>, spec: Value, generated: Value, keys: set<string>)
    requires spec.Dict? && generated.Dict? && keys <= spec.fields.Keys + generated.fields.Keys
    ensures ReportKeys(path, spec, generated, keys) == []
       <==> forall k | k in keys :: k in spec.fields && k in generated.fields && spec.fields[k] == generated.fields[k]
    decreases spec, 1, keys
  {
    if keys != {} {
      var key := Least(keys);
      if key in spec.fields && key in generated.fields {
        SilentIff(path + [key], spec.fields[key], generated.fields[key]);
      }
      KeysSilentIff(path, spec, generated, keys - {key});
      assert forall k | k in keys :: k == key || k in keys - {key};
    }
  }

  /** `diff_values` adds no finding exactly if the values are equal at every depth. */
  lemma {:induction false} SilentIff(path: seq<string>, spec: Value, generated: Value)
    ensures Report(path, spec, generated) == [] <==> spec == generated
    decreases spec, 2
  {
    if spec.Dict? && generated.Dict? {
      KeysSilentIff(path, spec, generated, spec.fields.Keys + generated.fields.Keys);
      if Report(path, spec, generated) == [] {
        assert spec.fields.Keys == generated.fields.Keys;
        assert spec.fields == generated.fields;
      }
    }
  }

  // ---- Order of the report -----------------------------------------------------------------

  ghost predicate Earlier(p: seq<string>, q: seq<string>) {
    exists n: nat :: Splits(p, q, n)
  }

  predicate Splits(p: seq<string>, q: seq<string>, n: nat) {
    n < |p| && n < |q| && p[..n] == q[..n] && p[n] != q[n] && AtMost(p[n], q[n])
  }

  ghost predicate InOrder(items: seq<Finding>) {
    && (forall i :: 0 <= i < |items| ==> items[i].Located())
    && (forall i, j :: 0 <= i < j < |items| ==> Earlier(items[i].path, items[j].path))
  }

  lemma {:induction false} KeysInOrder(path: seq<string>, spec: Value, generated: Value, keys: set<string>)
    requires spec.Dict? && generated.Dict? && keys <= spec.fields.Keys + generated.fields.Keys
    ensures InOrder(ReportKeys(path, spec, generated, keys))
    decreases spec, 1, keys
  {
    if keys != {} {
      var key := Least(keys);
      var first, rest := ReportKey(path, spec, generated, key), ReportKeys(path, spec, generated, keys - {key});
      if key in spec.fields && key in generated.fields {
        ReportInOrder(path + [key], spec.fields[key], generated.fields[key]);
      }
      KeysInOrder(path, spec, generated, keys - {key});
      forall f, g | f in first && g in rest ensures f.Located() && g.Located() && Earlier(f.path, g.path) {
        KeyExact(f, path, spec, generated, key);
        KeysExact(g, path, spec, generated, keys - {key});
        assert f.path[..|path|] == path == g.path[..|path|];
        assert Splits(f.path, g.path, |path|);
      }
    }
  }

  /** Findings come sorted by location, and no location is reported twice. */
  lemma {:induction false} ReportInOrder(path: seq<string>, spec: Value, generated: Value)
    ensures InOrder(Report(path, spec, generated))
    ensures var r := Report(path, spec, generated);
            forall i, j :: 0 <= i < j < |r| ==> r[i] != r[j]
    decreases spec, 2
  {
    if spec.Dict? && generated.Dict? {
      KeysInOrder(path, spec, generated, spec.fields.Keys + generated.fields.Keys);
    }
    var r := Report(path, spec, generated);
    assert InOrder(r);
    forall i, j | 0 <= i < j < |r| ensures r[i] != r[j] {
      assert Earlier(r[i].path, r[j].path);
    }
  }
}
