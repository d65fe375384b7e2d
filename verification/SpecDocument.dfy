/** Documents in scripts/spec_diff.py: `norm_operation` and `norm_doc` bring each operation of an
    API document to a value, `compare` reports the drift between two documents. */
module SpecDocument {
  import opened Prelude
  import opened SpecNorm
  import opened SpecDiff
  import SpecLayout

  // ---- Documents ---------------------------------------------------------------------------

  datatype Place = InQuery | InHeader | InPath | InCookie

  /** A component, or a reference to one by name. */
  datatype OrRef<+T> = Reference(name: string) | Given(value: T)

  datatype Parameter = Parameter(place: Place, name: string, required: bool)

  /** What is read of a body: its required flag and the schema of its JSON content, or `NotSchema`.
      Of a response only that schema is read. */
  datatype RequestBody = RequestBody(required: bool, schema: Schema)

  datatype Operation = Operation(
    operationId: Option<string>,
    parameters: seq<OrRef<Parameter>>,
    body: Option<OrRef<RequestBody>>,
    responses: map<string, OrRef<Schema>>)

  datatype Verb = GetVerb | PostVerb | PutVerb | PatchVerb | DeleteVerb

  datatype PathItem = PathItem(parameters: seq<OrRef<Parameter>>, operations: map<Verb, Operation>)

  /** `bodies` and `pathItems` are components too, though the script never looks at them. */
  datatype Document = Document(
    paths: map<string, OrRef<PathItem>>,
    schemas: Components,
    parameters: map<string, OrRef<Parameter>>,
    responses: map<string, OrRef<Schema>>,
    bodies: map<string, OrRef<RequestBody>>,
    pathItems: map<string, OrRef<PathItem>>,
    bearerKind: Option<string>,
    bearerScheme: Option<string>,
    security: seq<map<string, seq<string>>>)

  /** How the script follows a reference: one step. */
  function Looked<T>(x: OrRef<T>, table: map<string, OrRef<T>>): Option<T> {
    if x.Given? then Some(x.value)
    else if x.name in table && table[x.name].Given? then Some(table[x.name].value)
    else None
  }

  // ---- norm_operation ----------------------------------------------------------------------

  function PlaceText(place: Place): string {
    match place
    case InQuery => "query"
    case InHeader => "header"
    case InPath => "path"
    case InCookie => "cookie"
  }

  /** The (place, name) pair a parameter is filed under, as one string. */
  function ParameterKey(place: Place, name: string): string {
    PlaceText(place) + " " + name
  }

  /** Later parameters replace earlier ones of the same place and name; `None` is the KeyError for
      a reference that leads to no parameter in one step. */
  function Filed(ps: seq<OrRef<Parameter>>, parameters: map<string, OrRef<Parameter>>): Option<map<string, bool>> {
    if ps == [] then Some(map[])
    else
      var before, last := Filed(ps[..|ps| - 1], parameters), Looked(ps[|ps| - 1], parameters);
      if before.None? || last.None? then None
      else Some(before.value[ParameterKey(last.value.place, last.value.name) := last.value.required])
  }

  /** The schema read of a response; a reference that leads to none in one step has none. */
  function ResponseRead(r: OrRef<Schema>, responses: map<string, OrRef<Schema>>): Schema {
    if Looked(r, responses).Some? then Looked(r, responses).value else NotSchema
  }

  /** What is read of a body; nothing of a reference. */
  function BodyRead(body: OrRef<RequestBody>): RequestBody {
    if body.Given? then body.value else RequestBody(false, NotSchema)
  }

  /** What is read of a path item; nothing of a reference. */
  function ItemRead(item: OrRef<PathItem>): PathItem {
    if item.Given? then item.value else PathItem([], map[])
  }

  function Flags(m: map<string, bool>): Value {
    Dict(map k | k in m :: Flag(m[k]))
  }

  function BodyValue(body: RequestBody, schemas: Components): Value {
    Dict(map["required" := Flag(body.required), "schema" := Norm(body.schema, schemas, {})])
  }

  function NormBody(body: Option<OrRef<RequestBody>>, schemas: Components): Value {
    if body.None? then Null else BodyValue(BodyRead(body.value), schemas)
  }

  function NormResponses(rs: map<string, OrRef<Schema>>, responses: map<string, OrRef<Schema>>,
                         schemas: Components): Value
  {
    Dict(map code | code in rs :: Norm(ResponseRead(rs[code], responses), schemas, {}))
  }

  function OperationValue(id: Option<string>, filed: map<string, bool>, request: Value, responses: Value): Value {
    Dict(map["operationId" := if id.Some? then Text(id.value) else Null,
             "params" := Flags(filed), "request" := request, "responses" := responses])
  }

  // ---- norm_doc ----------------------------------------------------------------------------

  function VerbText(verb: Verb): string {
    match verb
    case GetVerb => "GET"
    case PostVerb => "POST"
    case PutVerb => "PUT"
    case PatchVerb => "PATCH"
    case DeleteVerb => "DELETE"
  }

  /** A path and one of its methods. */
  type Endpoint = (string, Verb)

  /** The endpoint a key is made of. */
  function Decoded(key: string): Endpoint {
    if "GET " <= key then (key[4..], GetVerb)
    else if "POST " <= key then (key[5..], PostVerb)
    else if "PUT " <= key then (key[4..], PutVerb)
    else if "PATCH " <= key then (key[6..], PatchVerb)
    else if "DELETE " <= key then (key[7..], DeleteVerb)
    else ("", GetVerb)
  }

  lemma DecodesKey(at: Endpoint)
    ensures Decoded(VerbText(at.1) + " " + at.0) == at
  {
    var key := VerbText(at.1) + " " + at.0;
    assert key[|VerbText(at.1)| + 1..] == at.0;
    assert |key| >= 4 && key[0] == VerbText(at.1)[0] && key[1] == VerbText(at.1)[1];
  }

  /** Paths and methods make distinct keys. */
  function OperationKey(at: Endpoint): (key: string)
    ensures Decoded(key) == at
  {
    DecodesKey(at);
    VerbText(at.1) + " " + at.0
  }

  function OperationsOf(doc: Document): set<Endpoint> {
    set path, verb | path in doc.paths && verb in ItemRead(doc.paths[path]).operations :: (path, verb)
  }

  function OperationAt(doc: Document, at: Endpoint): Operation
    requires at in OperationsOf(doc)
  {
    ItemRead(doc.paths[at.0]).operations[at.1]
  }

  function ParametersAt(doc: Document, at: Endpoint): Option<map<string, bool>>
    requires at in OperationsOf(doc)
  {
    Filed(ItemRead(doc.paths[at.0]).parameters + OperationAt(doc, at).parameters, doc.parameters)
  }

  /** norm_operation */
  function NormOperation(doc: Document, at: Endpoint): Option<Value>
    requires at in OperationsOf(doc)
  {
    var op, filed := OperationAt(doc, at), ParametersAt(doc, at);
    if filed.None? then None
    else Some(OperationValue(op.operationId, filed.value, NormBody(op.body, doc.schemas),
                             NormResponses(op.responses, doc.responses, doc.schemas)))
  }

  predicate Resolvable(doc: Document) {
    forall at | at in OperationsOf(doc) :: ParametersAt(doc, at).Some?
  }

  function KeysOf(ats: set<Endpoint>): set<string> {
    set at | at in ats :: OperationKey(at)
  }

  /** The normalised operations at some endpoints, by key. */
  function Built(doc: Document, ats: set<Endpoint>): map<string, Value>
    requires forall at | at in ats :: at in OperationsOf(doc) && ParametersAt(doc, at).Some?
  {
    map k | k in KeysOf(ats) :: NormOperation(doc, Decoded(k)).value
  }

  lemma BuiltNext(doc: Document, ats: set<Endpoint>, at: Endpoint)
    requires forall x | x in ats :: x in OperationsOf(doc) && ParametersAt(doc, x).Some?
    requires at in OperationsOf(doc) && ParametersAt(doc, at).Some?
    ensures Built(doc, ats + {at}) == Built(doc, ats)[OperationKey(at) := NormOperation(doc, at).value]
  {
    assert KeysOf(ats + {at}) == KeysOf(ats) + {OperationKey(at)};
  }

  /** Of a document's endpoints, `done` have been normalised and `rest` have not. */
  ghost predicate BuiltSoFar(doc: Document, done: set<Endpoint>, rest: set<Endpoint>, operations: map<string, Value>) {
    && done + rest == OperationsOf(doc)
    && (forall at | at in done :: at in OperationsOf(doc) && ParametersAt(doc, at).Some?)
    && operations == Built(doc, done)
  }

  lemma BuiltOneMore(doc: Document, done: set<Endpoint>, rest: set<Endpoint>, operations: map<string, Value>,
                     at: Endpoint, value: Value)
    requires BuiltSoFar(doc, done, rest, operations) && at in rest && NormOperation(doc, at) == Some(value)
    ensures BuiltSoFar(doc, done + {at}, rest - {at}, operations[OperationKey(at) := value])
  {
    BuiltNext(doc, done, at);
  }

  lemma BuiltAll(doc: Document, done: set<Endpoint>, operations: map<string, Value>)
    requires BuiltSoFar(doc, done, {}, operations)
    ensures NormDoc(doc) == Some(operations)
  {
    assert done == OperationsOf(doc);
  }

  /** norm_doc */
  function NormDoc(doc: Document): Option<map<string, Value>> {
    if Resolvable(doc) then Some(Built(doc, OperationsOf(doc))) else None
  }

  /** The script's module globals: the components the document at hand declares. */
  class Normaliser {
    var parameters: map<string, OrRef<Parameter>>
    var responses: map<string, OrRef<Schema>>

    constructor ()
    {
      parameters, responses := map[], map[];
    }

    method FileParameters(ps: seq<OrRef<Parameter>>) returns (filed: Option<map<string, bool>>)
      ensures filed == Filed(ps, parameters)
    {
      var params: map<string, bool> := map[];
      for i := 0 to |ps|
        invariant Filed(ps[..i], parameters) == Some(params)
      {
        assert ps[..i + 1][..i] == ps[..i];
        var param := Looked(ps[i], parameters);
        if param.None? {
          UnfiledPrefix(ps, i + 1, parameters);
          return None;
        }
        params := params[ParameterKey(param.value.place, param.value.name) := param.value.required];
      }
      assert ps[..|ps|] == ps;
      return Some(params);
    }

    method NormaliseOperation(doc: Document, at: Endpoint) returns (value: Option<Value>)
      requires at in OperationsOf(doc) && parameters == doc.parameters && responses == doc.responses
      ensures value == NormOperation(doc, at)
    {
      var op := OperationAt(doc, at);
      var filed := FileParameters(ItemRead(doc.paths[at.0]).parameters + op.parameters);
      if filed.None? {
        return None;
      }
      return Some(OperationValue(op.operationId, filed.value, NormBody(op.body, doc.schemas),
                                 NormResponses(op.responses, responses, doc.schemas)));
    }

    method NormaliseDocument(doc: Document) returns (out: Option<map<string, Value>>)
      modifies this
      ensures parameters == doc.parameters && responses == doc.responses
      ensures out == NormDoc(doc)
    {
      parameters, responses := doc.parameters, doc.responses;
      var operations: map<string, Value>, rest := map[], OperationsOf(doc);
      ghost var done: set<Endpoint> := {};
      while rest != {}
        invariant parameters == doc.parameters && responses == doc.responses
        invariant BuiltSoFar(doc, done, rest, operations)
        decreases |rest|
      {
        var at :| at in rest;
        var value := NormaliseOperation(doc, at);
        if value.None? {
          assert ParametersAt(doc, at).None?;
          return None;
        }
        BuiltOneMore(doc, done, rest, operations, at, value.value);
        operations := operations[OperationKey(at) := value.value];
        rest, done := rest - {at}, done + {at};
      }
      BuiltAll(doc, done, operations);
      return Some(operations);
    }
  }

  lemma {:induction false} UnfiledPrefix(ps: seq<OrRef<Parameter>>, n: nat, parameters: map<string, OrRef<Parameter>>)
    requires n <= |ps| && Filed(ps[..n], parameters).None?
    ensures Filed(ps, parameters).None?
  {
    if n == |ps| {
      assert ps[..n] == ps;
    } else {
      assert ps[..|ps| - 1][..n] == ps[..n];
      UnfiledPrefix(ps[..|ps| - 1], n, parameters);
    }
  }

  // ---- compare -----------------------------------------------------------------------------

  function SecurityReport(doc: Document): seq<Finding> {
    (if doc.bearerKind != Some("http") || doc.bearerScheme != Some("bearer") then [SchemeMissing] else [])
    + (if map["bearerAuth" := []] !in doc.security then [SecurityMissing] else [])
  }

  /** The drift between two documents; `None` if a parameter reference of either leads nowhere. */
  ghost function Drift(spec: Document, generated: Document): Option<seq<Finding>> {
    var a, b := NormDoc(spec), NormDoc(generated);
    if a.None? || b.None? then None
    else Some(Report([], Dict(a.value), Dict(b.value)) + SecurityReport(generated))
  }

  method CheckSecurity(doc: Document, findings: Findings)
    modifies findings
    ensures findings.items == old(findings.items) + SecurityReport(doc)
  {
    if doc.bearerKind != Some("http") || doc.bearerScheme != Some("bearer") {
      findings.items := findings.items + [SchemeMissing];
    }
    if map["bearerAuth" := []] !in doc.security {
      findings.items := findings.items + [SecurityMissing];
    }
  }

  method Compare(spec: Document, generated: Document) returns (items: Option<seq<Finding>>)
    ensures items == Drift(spec, generated)
  {
    var findings := new Findings();
    var normaliser := new Normaliser();
    var specOperations := normaliser.NormaliseDocument(spec);
    if specOperations.None? {
      return None;
    }
    var operations := normaliser.NormaliseDocument(generated);
    if operations.None? {
      return None;
    }
    DiffKeys([], Dict(specOperations.value), Dict(operations.value), findings);
    assert findings.items == Report([], Dict(specOperations.value), Dict(operations.value));
    CheckSecurity(generated, findings);
    return Some(findings.items);
  }

  // ---- When there is no drift --------------------------------------------------------------

  predicate SameBody(body: Option<OrRef<RequestBody>>, schemas: Components,
                     body': Option<OrRef<RequestBody>>, schemas': Components)
  {
    && body.Some? == body'.Some?
    && (body.Some? ==>
         var read, read' := BodyRead(body.value), BodyRead(body'.value);
         && read.required == read'.required
         && Norm(read.schema, schemas, {}) == Norm(read'.schema, schemas', {}))
  }

  ghost predicate SameResponses(rs: map<string, OrRef<Schema>>, doc: Document, rs': map<string, OrRef<Schema>>,
                                doc': Document)
  {
    && rs.Keys == rs'.Keys
    && forall code | code in rs ::
         Norm(ResponseRead(rs[code], doc.responses), doc.schemas, {})
         == Norm(ResponseRead(rs'[code], doc'.responses), doc'.schemas, {})
  }

  /** The operation is the same in both documents, as far as the comparison goes: its id, its
      parameters and their required flags, its body's required flag and schema, and the schema of
      each of its responses. */
  ghost predicate SameOperation(doc: Document, doc': Document, at: Endpoint)
    requires at in OperationsOf(doc) && at in OperationsOf(doc')
  {
    var op, op' := OperationAt(doc, at), OperationAt(doc', at);
    && op.operationId == op'.operationId
    && ParametersAt(doc, at) == ParametersAt(doc', at)
    && SameBody(op.body, doc.schemas, op'.body, doc'.schemas)
    && SameResponses(op.responses, doc, op'.responses, doc')
  }

  lemma FlagsInjective(m: map<string, bool>, m': map<string, bool>)
    ensures Flags(m) == Flags(m') <==> m == m'
  {
    if Flags(m) == Flags(m') {
      assert m.Keys == Flags(m).fields.Keys == m'.Keys;
      assert forall k | k in m :: Flags(m).fields[k] == Flag(m[k]) && Flags(m').fields[k] == Flag(m'[k]);
    }
  }

  lemma BodyValueEqualIff(body: RequestBody, schemas: Components, body': RequestBody, schemas': Components)
    ensures BodyValue(body, schemas) == BodyValue(body', schemas')
       <==> body.required == body'.required && Norm(body.schema, schemas, {}) == Norm(body'.schema, schemas', {})
  {
    var v, v' := BodyValue(body, schemas), BodyValue(body', schemas');
    assert v.fields["required"] == Flag(body.required) && v'.fields["required"] == Flag(body'.required);
    assert v.fields["schema"] == Norm(body.schema, schemas, {})
        && v'.fields["schema"] == Norm(body'.schema, schemas', {});
  }

  lemma BodyEqualIff(body: Option<OrRef<RequestBody>>, schemas: Components,
                     body': Option<OrRef<RequestBody>>, schemas': Components)
    ensures NormBody(body, schemas) == NormBody(body', schemas') <==> SameBody(body, schemas, body', schemas')
  {
    if body.Some? && body'.Some? {
      BodyValueEqualIff(BodyRead(body.value), schemas, BodyRead(body'.value), schemas');
    }
  }

  lemma ResponsesEqualIff(rs: map<string, OrRef<Schema>>, doc: Document, rs': map<string, OrRef<Schema>>,
                          doc': Document)
    ensures NormResponses(rs, doc.responses, doc.schemas) == NormResponses(rs', doc'.responses, doc'.schemas)
       <==> SameResponses(rs, doc, rs', doc')
  {
    var f, f' := NormResponses(rs, doc.responses, doc.schemas).fields,
        NormResponses(rs', doc'.responses, doc'.schemas).fields;
    assert f.Keys == rs.Keys && f'.Keys == rs'.Keys;
    if SameResponses(rs, doc, rs', doc') {
      assert f == f';
    }
    if f == f' {
      assert forall code | code in rs :: f[code] == f'[code];
    }
  }

  lemma OperationEqualIff(doc: Document, doc': Document, at: Endpoint)
    requires at in OperationsOf(doc) && at in OperationsOf(doc')
    requires ParametersAt(doc, at).Some? && ParametersAt(doc', at).Some?
    ensures NormOperation(doc, at) == NormOperation(doc', at) <==> SameOperation(doc, doc', at)
  {
    var op, op' := OperationAt(doc, at), OperationAt(doc', at);
    var filed, filed' := ParametersAt(doc, at).value, ParametersAt(doc', at).value;
    FlagsInjective(filed, filed');
    BodyEqualIff(op.body, doc.schemas, op'.body, doc'.schemas);
    ResponsesEqualIff(op.responses, doc, op'.responses, doc');
    ValueEqualIff(op.operationId, filed, NormBody(op.body, doc.schemas),
                  NormResponses(op.responses, doc.responses, doc.schemas),
                  op'.operationId, filed', NormBody(op'.body, doc'.schemas),
                  NormResponses(op'.responses, doc'.responses, doc'.schemas));
  }

  lemma ValueEqualIff(id: Option<string>, filed: map<string, bool>, request: Value, responses: Value,
                      id': Option<string>, filed': map<string, bool>, request': Value, responses': Value)
    ensures OperationValue(id, filed, request, responses) == OperationValue(id', filed', request', responses')
            <==> id == id' && Flags(filed) == Flags(filed') && request == request' && responses == responses'
  {
    var f, f' := OperationValue(id, filed, request, responses).fields,
        OperationValue(id', filed', request', responses').fields;
    if f == f' {
      assert f["operationId"] == f'["operationId"] && f["params"] == f'["params"];
      assert f["request"] == f'["request"] && f["responses"] == f'["responses"];
    }
  }

  predicate BearerRequired(doc: Document) {
    doc.bearerKind == Some("http") && doc.bearerScheme == Some("bearer") && map["bearerAuth" := []] in doc.security
  }

  lemma KeysEqualIff(ats: set<Endpoint>, ats': set<Endpoint>)
    ensures KeysOf(ats) == KeysOf(ats') <==> ats == ats'
  {
    if KeysOf(ats) == KeysOf(ats') {
      forall at ensures at in ats <==> at in ats' {
        assert at in ats ==> OperationKey(at) in KeysOf(ats');
        assert at in ats' ==> OperationKey(at) in KeysOf(ats);
      }
    }
  }

  /** Two documents' normalised operations at the same endpoints are the same exactly if each is. */
  lemma BuiltAt(doc: Document, ats: set<Endpoint>, at: Endpoint)
    requires forall x | x in ats :: x in OperationsOf(doc) && ParametersAt(doc, x).Some?
    requires at in ats
    ensures OperationKey(at) in KeysOf(ats) && NormOperation(doc, at) == Some(Built(doc, ats)[OperationKey(at)])
  {
  }

  lemma KeyedBy(ats: set<Endpoint>, k: string) returns (at: Endpoint)
    requires k in KeysOf(ats)
    ensures at in ats && OperationKey(at) == k
  {
    at :| at in ats && OperationKey(at) == k;
  }

  lemma BuiltAlikeAt(doc: Document, doc': Document, ats: set<Endpoint>, k: string)
    requires forall at | at in ats :: at in OperationsOf(doc) && ParametersAt(doc, at).Some?
    requires forall at | at in ats :: at in OperationsOf(doc') && ParametersAt(doc', at).Some?
    requires k in KeysOf(ats) && forall at | at in ats :: NormOperation(doc, at) == NormOperation(doc', at)
    ensures k in Built(doc, ats) && k in Built(doc', ats) && Built(doc, ats)[k] == Built(doc', ats)[k]
  {
    var at := KeyedBy(ats, k);
    BuiltAt(doc, ats, at);
    BuiltAt(doc', ats, at);
  }

  lemma BuiltAlike(doc: Document, doc': Document, ats: set<Endpoint>)
    requires forall at | at in ats :: at in OperationsOf(doc) && ParametersAt(doc, at).Some?
    requires forall at | at in ats :: at in OperationsOf(doc') && ParametersAt(doc', at).Some?
    requires forall at | at in ats :: NormOperation(doc, at) == NormOperation(doc', at)
    ensures Built(doc, ats) == Built(doc', ats)
  {
    forall k | k in KeysOf(ats)
      ensures k in Built(doc, ats) && k in Built(doc', ats) && Built(doc, ats)[k] == Built(doc', ats)[k]
    {
      BuiltAlikeAt(doc, doc', ats, k);
    }
    SameMaps(Built(doc, ats), Built(doc', ats), KeysOf(ats));
  }

  lemma SameMaps(a: map<string, Value>, b: map<string, Value>, keys: set<string>)
    requires a.Keys == keys && b.Keys == keys && forall k | k in keys :: a[k] == b[k]
    ensures a == b
  {
  }

  lemma BuiltEqualIff(doc: Document, doc': Document, ats: set<Endpoint>)
    requires forall at | at in ats :: at in OperationsOf(doc) && ParametersAt(doc, at).Some?
    requires forall at | at in ats :: at in OperationsOf(doc') && ParametersAt(doc', at).Some?
    ensures Built(doc, ats) == Built(doc', ats)
       <==> forall at | at in ats :: NormOperation(doc, at) == NormOperation(doc', at)
  {
    if Built(doc, ats) == Built(doc', ats) {
      forall at | at in ats ensures NormOperation(doc, at) == NormOperation(doc', at) {
        BuiltAt(doc, ats, at);
        BuiltAt(doc', ats, at);
      }
    } else if forall at | at in ats :: NormOperation(doc, at) == NormOperation(doc', at) {
      BuiltAlike(doc, doc', ats);
    }
  }

  lemma DocEqualIff(spec: Document, generated: Document)
    requires Resolvable(spec) && Resolvable(generated)
    ensures NormDoc(spec) == NormDoc(generated)
       <==> && OperationsOf(spec) == OperationsOf(generated)
            && forall at | at in OperationsOf(spec) :: SameOperation(spec, generated, at)
  {
    var ats := OperationsOf(spec);
    KeysEqualIff(ats, OperationsOf(generated));
    assert NormDoc(spec).value.Keys == KeysOf(ats) && NormDoc(generated).value.Keys == KeysOf(OperationsOf(generated));
    if ats == OperationsOf(generated) {
      BuiltEqualIff(spec, generated, ats);
      forall at | at in ats
        ensures NormOperation(spec, at) == NormOperation(generated, at) <==> SameOperation(spec, generated, at)
      {
        OperationEqualIff(spec, generated, at);
      }
    }
  }

  /** `compare` finds no drift exactly if the documents have the same operations and the generated
      one asks for bearer authentication. */
  lemma NoDriftIff(spec: Document, generated: Document)
    requires Resolvable(spec) && Resolvable(generated)
    ensures Drift(spec, generated) == Some([])
       <==> && OperationsOf(spec) == OperationsOf(generated)
            && (forall at | at in OperationsOf(spec) :: SameOperation(spec, generated, at))
            && BearerRequired(generated)
  {
    var a, b := NormDoc(spec).value, NormDoc(generated).value;
    SilentIff([], Dict(a), Dict(b));
    assert Report([], Dict(a), Dict(b)) + SecurityReport(generated) == []
      <==> Report([], Dict(a), Dict(b)) == [] && SecurityReport(generated) == [];
    DocEqualIff(spec, generated);
  }

  // ---- Full resolution ---------------------------------------------------------------------

  /** What a component or reference stands for, however many references it goes through; `None`
      for one that leads nowhere or round in a circle. */
  function Resolved<T>(x: OrRef<T>, table: map<string, OrRef<T>>, seen: set<string>): Option<T>
    decreases |table.Keys - seen|
  {
    if x.Given? then Some(x.value)
    else if x.name in table && x.name !in seen then
      Smaller(table.Keys - (seen + {x.name}), table.Keys - seen);
      Resolved(table[x.name], table, seen + {x.name})
    else None
  }

  /** It is no reference to a reference. */
  predicate OneStep<T>(x: OrRef<T>, table: map<string, OrRef<T>>) {
    x.Reference? && x.name in table ==> table[x.name].Given?
  }

  /** One step finds what there is to find exactly if it is enough, or if there is nothing. */
  lemma LookedIff<T>(x: OrRef<T>, table: map<string, OrRef<T>>)
    ensures Looked(x, table) == Resolved(x, table, {}) <==> OneStep(x, table) || Resolved(x, table, {}).None?
  {
  }

  /** A response that stands for a schema is read as that exactly if it is no reference to a
      reference, or no schema object is found anyway. */
  lemma ResponseReadIff(r: OrRef<Schema>, responses: map<string, OrRef<Schema>>, schemas: Components)
    requires Resolved(r, responses, {}).Some?
    ensures Norm(ResponseRead(r, responses), schemas, {}) == Norm(Resolved(r, responses, {}).value, schemas, {})
       <==> OneStep(r, responses) || SpecLayout.Valueless(Resolved(r, responses, {}).value, schemas, {})
  {
    LookedIff(r, responses);
    SpecLayout.ValuelessIff(Resolved(r, responses, {}).value, schemas, {});
  }

  /** A body that stands for one is read as that exactly if it is no reference, or what it refers
      to is optional and has no schema object anyway. */
  lemma BodyReadIff(body: OrRef<RequestBody>, bodies: map<string, OrRef<RequestBody>>, schemas: Components)
    requires Resolved(body, bodies, {}).Some?
    ensures var meant := Resolved(body, bodies, {}).value;
            BodyValue(BodyRead(body), schemas) == BodyValue(meant, schemas)
            <==> body.Given? || (!meant.required && SpecLayout.Valueless(meant.schema, schemas, {}))
  {
    var meant := Resolved(body, bodies, {}).value;
    BodyValueEqualIff(BodyRead(body), schemas, meant, schemas);
    SpecLayout.ValuelessIff(meant.schema, schemas, {});
  }

  /** The path item at a path. */
  function ItemMeant(doc: Document, path: string): Option<PathItem>
    requires path in doc.paths
  {
    Resolved(doc.paths[path], doc.pathItems, {})
  }

  function EndpointsOf(doc: Document): set<Endpoint> {
    set path, verb | path in doc.paths && ItemMeant(doc, path).Some?
        && verb in ItemMeant(doc, path).value.operations :: (path, verb)
  }

  function OperationMeant(doc: Document, at: Endpoint): Operation
    requires at in EndpointsOf(doc)
  {
    ItemMeant(doc, at.0).value.operations[at.1]
  }

  function ParametersListed(doc: Document, at: Endpoint): seq<OrRef<Parameter>>
    requires at in EndpointsOf(doc)
  {
    ItemMeant(doc, at.0).value.parameters + OperationMeant(doc, at).parameters
  }

  /** The parameters a list stands for, by place and name, if each stands for one. */
  function ParametersMeant(ps: seq<OrRef<Parameter>>, parameters: map<string, OrRef<Parameter>>)
    : Option<map<string, bool>>
  {
    if ps == [] then Some(map[])
    else
      var before, last := ParametersMeant(ps[..|ps| - 1], parameters), Resolved(ps[|ps| - 1], parameters, {});
      if before.None? || last.None? then None
      else Some(before.value[ParameterKey(last.value.place, last.value.name) := last.value.required])
  }

  // ---- Layout ------------------------------------------------------------------------------

  /** How a document's references are laid out: the ranks of its schemas, and how deep to inline. */
  datatype Layout = Layout(rank: map<string, nat>, bound: nat, depth: nat)

  ghost predicate LaidOut(s: Schema, doc: Document, l: Layout) {
    l.bound <= l.depth && SpecLayout.LaidOut(s, doc.schemas, l.rank, l.bound)
  }

  /** Both schemas are laid out without the exceptions, and are the same once inlined. */
  ghost predicate SameInlined(s: Schema, doc: Document, l: Layout, s': Schema, doc': Document, l': Layout) {
    LaidOut(s, doc, l) && LaidOut(s', doc', l') && Inline(s, doc.schemas, l.depth) == Inline(s', doc'.schemas, l'.depth)
  }

  ghost predicate SameBodyMeant(body: OrRef<RequestBody>, doc: Document, l: Layout,
                                body': OrRef<RequestBody>, doc': Document, l': Layout)
  {
    var meant, meant' := Resolved(body, doc.bodies, {}), Resolved(body', doc'.bodies, {});
    && meant.Some? && meant'.Some?
    && meant.value.required == meant'.value.required
    && SameInlined(meant.value.schema, doc, l, meant'.value.schema, doc', l')
  }

  ghost predicate SameResponseMeant(r: OrRef<Schema>, doc: Document, l: Layout, r': OrRef<Schema>, doc': Document,
                                    l': Layout)
  {
    var meant, meant' := Resolved(r, doc.responses, {}), Resolved(r', doc'.responses, {});
    && meant.Some? == meant'.Some?
    && (meant.Some? ==> SameInlined(meant.value, doc, l, meant'.value, doc', l'))
  }

  /** The operation stands for the same in both documents: it differs at most in where references
      of any kind stand. */
  ghost predicate SameButLayout(doc: Document, l: Layout, doc': Document, l': Layout, at: Endpoint)
    requires at in EndpointsOf(doc) && at in EndpointsOf(doc')
  {
    var op, op' := OperationMeant(doc, at), OperationMeant(doc', at);
    var filed, filed' := ParametersMeant(ParametersListed(doc, at), doc.parameters),
                         ParametersMeant(ParametersListed(doc', at), doc'.parameters);
    && op.operationId == op'.operationId
    && filed.Some? && filed == filed'
    && op.body.Some? == op'.body.Some?
    && (op.body.Some? ==> SameBodyMeant(op.body.value, doc, l, op'.body.value, doc', l'))
    && op.responses.Keys == op'.responses.Keys
    && (forall code | code in op.responses ::
         SameResponseMeant(op.responses[code], doc, l, op'.responses[code], doc', l'))
  }

  predicate OneStepAt(doc: Document, at: Endpoint)
    requires at in EndpointsOf(doc)
  {
    var op := OperationMeant(doc, at);
    && (forall p | p in ParametersListed(doc, at) :: OneStep(p, doc.parameters))
    && (op.body.Some? ==> op.body.value.Given?)
    && (forall code | code in op.responses :: OneStep(op.responses[code], doc.responses))
  }

  /** No path item and no body is a reference, and no parameter or response refers to a reference. */
  predicate Direct(doc: Document) {
    && (forall path | path in doc.paths :: doc.paths[path].Given?)
    && (forall at | at in EndpointsOf(doc) :: OneStepAt(doc, at))
  }

  lemma InlinedNormAlike(s: Schema, doc: Document, l: Layout, s': Schema, doc': Document, l': Layout)
    requires SameInlined(s, doc, l, s', doc', l')
    ensures Norm(s, doc.schemas, {}) == Norm(s', doc'.schemas, {})
  {
    SpecLayout.LayoutIrrelevant(s, doc.schemas, l.rank, l.bound, l.depth, s', doc'.schemas, l'.rank, l'.bound,
                                l'.depth);
  }

  lemma {:induction false} ParametersRead(ps: seq<OrRef<Parameter>>, parameters: map<string, OrRef<Parameter>>)
    requires forall p | p in ps :: OneStep(p, parameters)
    ensures Filed(ps, parameters) == ParametersMeant(ps, parameters)
  {
    if ps != [] {
      assert ps[|ps| - 1] in ps;
      LookedIff(ps[|ps| - 1], parameters);
      ParametersRead(ps[..|ps| - 1], parameters);
    }
  }

  /** The script reads the operations of a direct document as what they stand for. */
  lemma DirectOperations(doc: Document)
    requires forall path | path in doc.paths :: doc.paths[path].Given?
    ensures OperationsOf(doc) == EndpointsOf(doc)
    ensures forall at | at in OperationsOf(doc) :: OperationAt(doc, at) == OperationMeant(doc, at)
  {
    forall path | path in doc.paths ensures ItemMeant(doc, path) == Some(ItemRead(doc.paths[path])) {
    }
    forall at: Endpoint ensures at in OperationsOf(doc) <==> at in EndpointsOf(doc) {
      assert at.0 in doc.paths ==> ItemMeant(doc, at.0) == Some(ItemRead(doc.paths[at.0]));
    }
  }

  lemma DirectParameters(doc: Document, at: Endpoint)
    requires Direct(doc) && at in OperationsOf(doc) && at in EndpointsOf(doc)
    ensures ParametersAt(doc, at) == ParametersMeant(ParametersListed(doc, at), doc.parameters)
  {
    assert OneStepAt(doc, at);
    ParametersRead(ParametersListed(doc, at), doc.parameters);
  }

  lemma ResponsesReadAlike(r: OrRef<Schema>, doc: Document, l: Layout, r': OrRef<Schema>, doc': Document, l': Layout)
    requires OneStep(r, doc.responses) && OneStep(r', doc'.responses) && SameResponseMeant(r, doc, l, r', doc', l')
    ensures Norm(ResponseRead(r, doc.responses), doc.schemas, {})
            == Norm(ResponseRead(r', doc'.responses), doc'.schemas, {})
  {
    LookedIff(r, doc.responses);
    LookedIff(r', doc'.responses);
    var meant, meant' := Resolved(r, doc.responses, {}), Resolved(r', doc'.responses, {});
    if meant.Some? {
      InlinedNormAlike(meant.value, doc, l, meant'.value, doc', l');
    }
  }

  lemma SameReading(spec: Document, l: Layout, generated: Document, l': Layout, at: Endpoint)
    requires Direct(spec) && Direct(generated)
    requires at in OperationsOf(spec) && at in EndpointsOf(spec) && OperationAt(spec, at) == OperationMeant(spec, at)
    requires at in OperationsOf(generated) && at in EndpointsOf(generated)
    requires OperationAt(generated, at) == OperationMeant(generated, at)
    requires SameButLayout(spec, l, generated, l', at)
    ensures ParametersAt(spec, at).Some? && ParametersAt(generated, at).Some? && SameOperation(spec, generated, at)
  {
    var op, op' := OperationAt(spec, at), OperationAt(generated, at);
    assert OneStepAt(spec, at) && OneStepAt(generated, at);
    DirectParameters(spec, at);
    DirectParameters(generated, at);
    if op.body.Some? {
      InlinedNormAlike(op.body.value.value.schema, spec, l, op'.body.value.value.schema, generated, l');
    }
    forall code | code in op.responses
      ensures Norm(ResponseRead(op.responses[code], spec.responses), spec.schemas, {})
           == Norm(ResponseRead(op'.responses[code], generated.responses), generated.schemas, {})
    {
      ResponsesReadAlike(op.responses[code], spec, l, op'.responses[code], generated, l');
    }
  }

  /** Direct documents whose operations stand for the same, wherever their references stand, show
      no drift. */
  lemma LayoutShowsNoDrift(spec: Document, l: Layout, generated: Document, l': Layout)
    requires Direct(spec) && Direct(generated) && BearerRequired(generated)
    requires EndpointsOf(spec) == EndpointsOf(generated)
    requires forall at | at in EndpointsOf(spec) :: SameButLayout(spec, l, generated, l', at)
    ensures Drift(spec, generated) == Some([])
  {
    DirectOperations(spec);
    DirectOperations(generated);
    forall at | at in OperationsOf(spec)
      ensures ParametersAt(spec, at).Some? && ParametersAt(generated, at).Some? && SameOperation(spec, generated, at)
    {
      SameReading(spec, l, generated, l', at);
    }
    NoDriftIff(spec, generated);
  }

  // ---- Indirect documents ------------------------------------------------------------------

  const AT: Endpoint := ("/payments", PostVerb)

  /** A document with one operation, which answers 200. */
  function Small(body: Option<OrRef<RequestBody>>, response: OrRef<Schema>, responses: map<string, OrRef<Schema>>,
                 bodies: map<string, OrRef<RequestBody>>): Document
  {
    Document(map[AT.0 := Given(PathItem([], map[PostVerb := Operation(None, [], body, map["200" := response])]))],
             map[], map[], responses, bodies, map[], Some("http"), Some("bearer"), [map["bearerAuth" := []]])
  }

  lemma SmallOperation(body: Option<OrRef<RequestBody>>, response: OrRef<Schema>, responses: map<string, OrRef<Schema>>,
                       bodies: map<string, OrRef<RequestBody>>)
    ensures var doc := Small(body, response, responses, bodies);
            && OperationsOf(doc) == {AT} && Resolvable(doc) && BearerRequired(doc)
            && OperationAt(doc, AT) == Operation(None, [], body, map["200" := response])
  {
    var doc := Small(body, response, responses, bodies);
    forall at: Endpoint ensures at in OperationsOf(doc) <==> at == AT {
    }
    assert OperationAt(doc, AT) == Operation(None, [], body, map["200" := response]);
    assert Filed([], map[]) == Some(map[]);
    assert ItemRead(doc.paths[AT.0]).parameters + OperationAt(doc, AT).parameters == [];
  }

  const TEXT: Schema := EMPTY.(kind := One("string"))

  lemma TextHasValue()
    ensures Norm(TEXT, map[], {}) != Null
  {
  }

  /** Responses that are read differently show. */
  lemma ResponsesDrift(r: OrRef<Schema>, r': OrRef<Schema>, responses: map<string, OrRef<Schema>>)
    requires Norm(ResponseRead(r, responses), map[], {}) != Norm(ResponseRead(r', responses), map[], {})
    ensures var drift := Drift(Small(None, r, responses, map[]), Small(None, r', responses, map[]));
            drift.Some? && drift != Some([])
  {
    var doc, doc' := Small(None, r, responses, map[]), Small(None, r', responses, map[]);
    SmallOperation(None, r, responses, map[]);
    SmallOperation(None, r', responses, map[]);
    var rs, rs' := OperationAt(doc, AT).responses, OperationAt(doc', AT).responses;
    assert rs["200"] == r && rs'["200"] == r';
    assert !SameResponses(rs, doc, rs', doc');
    NoDriftIff(doc, doc');
  }

  const ALIASED: map<string, OrRef<Schema>> := map["Error" := Given(TEXT), "Alias" := Reference("Error")]

  /** A response that refers to a reference is read as having no schema. */
  lemma ResponseChainDrifts()
    ensures Resolved(Reference("Alias"), ALIASED, {}) == Resolved(Reference("Error"), ALIASED, {}) == Some(TEXT)
    ensures var drift := Drift(Small(None, Reference("Alias"), ALIASED, map[]),
                               Small(None, Reference("Error"), ALIASED, map[]));
            drift.Some? && drift != Some([])
  {
    assert {} + {"Alias"} == {"Alias"};
    assert Resolved(Reference("Error"), ALIASED, {"Alias"}) == Some(TEXT);
    assert ResponseRead(Reference("Alias"), ALIASED) == NotSchema;
    assert ResponseRead(Reference("Error"), ALIASED) == TEXT;
    TextHasValue();
    ResponsesDrift(Reference("Alias"), Reference("Error"), ALIASED);
  }

  /** A body given by reference is read as optional and without a schema. */
  lemma BodyReferenceDrifts()
    ensures var body := RequestBody(true, TEXT);
            var bodies := map["Create" := Given(body)];
            var referred, written := Small(Some(Reference("Create")), Given(TEXT), map[], bodies),
                                     Small(Some(Given(body)), Given(TEXT), map[], bodies);
            && Resolved(Reference("Create"), bodies, {}) == Some(body)
            && Drift(referred, written).Some? && Drift(referred, written) != Some([])
  {
    var body := RequestBody(true, TEXT);
    var bodies := map["Create" := Given(body)];
    var referred, written := Small(Some(Reference("Create")), Given(TEXT), map[], bodies),
                             Small(Some(Given(body)), Given(TEXT), map[], bodies);
    SmallOperation(Some(Reference("Create")), Given(TEXT), map[], bodies);
    SmallOperation(Some(Given(body)), Given(TEXT), map[], bodies);
    assert !SameBody(Some(Reference("Create")), map[], Some(Given(body)), map[]);
    NoDriftIff(referred, written);
  }

  /** The operations of a path item given by reference are not seen at all. */
  lemma PathReferenceDrifts()
    ensures var written := Small(None, Given(TEXT), map[], map[]);
            var referred := written.(paths := map[AT.0 := Reference("Payments")],
                                     pathItems := map["Payments" := written.paths[AT.0]]);
            && EndpointsOf(referred) == EndpointsOf(written)
            && Drift(referred, written).Some? && Drift(referred, written) != Some([])
  {
    var written := Small(None, Given(TEXT), map[], map[]);
    var referred := written.(paths := map[AT.0 := Reference("Payments")],
                             pathItems := map["Payments" := written.paths[AT.0]]);
    SmallOperation(None, Given(TEXT), map[], map[]);
    assert ItemMeant(referred, AT.0) == Resolved(written.paths[AT.0], referred.pathItems, {"Payments"})
        == ItemMeant(written, AT.0) by {
      assert {} + {"Payments"} == {"Payments"};
    }
    assert AT !in OperationsOf(referred);
    assert Resolvable(referred) by {
      assert OperationsOf(referred) == {};
    }
    NoDriftIff(referred, written);
  }
}
