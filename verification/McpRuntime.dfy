/** The MCP tool runtime (mcp/runtime.py): auth, idempotency and audit around a tool body.
    Keys have no window here, and every authenticated call leaves one audit row. */
module McpRuntime {
  import opened Prelude

  type Id = nat

  /** A JSON object, by its fields. */
  type Payload = map<string, string>

  datatype Attribution = Attribution(owner: Id, agent: Id, credential: Id)

  /** How a tool body ends: with a result, a policy denial, another API error, or an exception
      that is none of the API's. */
  datatype BodyOutcome = Returns(result: Payload) | Denies(denial: string) | Fails(code: string) | Crashes

  datatype ResultStatus = OkStatus | DeniedStatus | ErrorStatus | ReplayedStatus | ConflictStatus

  datatype Audit = Audit(attribution: Attribution, tool: string, hash: string, key: Option<string>,
                         status: ResultStatus, requestId: string)

  datatype Record = Record(hash: string, body: Payload)

  /** One execution of a tool body, with what it stored under a key. */
  datatype Execution = Execution(credential: Id, key: Option<string>, stored: Option<Record>)

  datatype Call = Call(
    caller: Option<Attribution>,   // None: the token does not resolve to an MCP agent credential
    tool: string,
    hash: string,                  // over tool and arguments, taken as injective
    mutating: bool,
    key: Option<string>,
    freshKey: string,              // the generated key of a mutating call without one
    requestId: string)

  datatype Reply = Unauthenticated | Answer(payload: Payload) | ErrorReply(code: string) | Raised

  datatype Runtime = Runtime(keys: map<(Id, string), Record>, audits: seq<Audit>, log: seq<Execution>)

  const OUTCOME := "outcome"
  const REQUEST_ID := "request_id"

  function DeniedPayload(denial: string): Payload {
    map[OUTCOME := "policy_denied", "denial" := denial]
  }

  const CONFLICT: Payload := map["error" := "idempotency_conflict"]

  /** The key a call's result is stored under; an empty key counts as none given. */
  function KeyOf(c: Call): Option<string> {
    if c.key.Some? && c.key.value != "" then c.key else if c.mutating then Some(c.freshKey) else None
  }

  /** The result a finished body leaves to be stored and answered. */
  function ResultOf(b: BodyOutcome): Option<Payload> {
    match b
    case Returns(result) => Some(result)
    case Denies(denial) => Some(DeniedPayload(denial))
    case _ => None
  }

  function StatusOf(b: BodyOutcome): ResultStatus {
    match b
    case Returns(_) => OkStatus
    case Denies(_) => DeniedStatus
    case _ => ErrorStatus
  }

  function AuditOf(c: Call, status: ResultStatus): Audit
    requires c.caller.Some?
  {
    Audit(c.caller.value, c.tool, c.hash, KeyOf(c), status, c.requestId)
  }

  /** A call whose body, should it run, ends as `body`. */
  function RunTool(s: Runtime, c: Call, body: BodyOutcome): (Runtime, Reply) {
    if c.caller.None? then (s, Unauthenticated)
    else
      var credential := c.caller.value.credential;
      if c.mutating && c.key.Some? && (credential, c.key.value) in s.keys then
        var record := s.keys[(credential, c.key.value)];
        var replay := if record.hash != c.hash then CONFLICT else record.body;
        (s.(audits := s.audits + [AuditOf(c, if OUTCOME in replay then ReplayedStatus else ConflictStatus)]),
         Answer(replay[REQUEST_ID := c.requestId]))
      else
        var audits := s.audits + [AuditOf(c, StatusOf(body))];
        var result := ResultOf(body);
        var stored := if result.Some? && c.mutating then Some(Record(c.hash, result.value)) else None;
        var log := s.log + [Execution(credential, KeyOf(c), stored)];
        var keys := if stored.Some? then s.keys[(credential, KeyOf(c).value) := stored.value] else s.keys;
        (Runtime(keys, audits, log),
         match body
         case Fails(code) => ErrorReply(code)
         case Crashes => Raised
         case _ => Answer(result.value[REQUEST_ID := c.requestId]))
  }

  class ToolRuntime {
    var keys: map<(Id, string), Record>
    var audits: seq<Audit>
    ghost var log: seq<Execution>

    ghost function View(): Runtime
      reads this
    {
      Runtime(keys, audits, log)
    }

    constructor ()
      ensures View() == Runtime(map[], [], [])
    {
      keys, audits, log := map[], [], [];
    }

    method WriteAudit(c: Call, status: ResultStatus)
      modifies this`audits
      ensures audits == if c.caller.Some? then old(audits) + [AuditOf(c, status)] else old(audits)
    {
      if c.caller.Some? {
        audits := audits + [Audit(c.caller.value, c.tool, c.hash, KeyOf(c), status, c.requestId)];
      }
    }

    /** The stored answer to a key, if there is one. */
    method IdempotencyCheck(credential: Id, key: string, hash: string) returns (replay: Option<Payload>)
      ensures replay.Some? <==> (credential, key) in keys
      ensures replay.Some? ==>
                replay.value == if keys[(credential, key)].hash != hash then CONFLICT else keys[(credential, key)].body
    {
      if (credential, key) !in keys {
        return None;
      }
      var existing := keys[(credential, key)];
      if existing.hash != hash {
        return Some(CONFLICT);
      }
      return Some(existing.body);
    }

    method Call(c: Call, body: BodyOutcome) returns (reply: Reply)
      modifies this
      ensures (View(), reply) == RunTool(old(View()), c, body)
    {
      if c.caller.None? {
        WriteAudit(c, ErrorStatus);
        return Unauthenticated;
      }
      var credential := c.caller.value.credential;
      if c.mutating && c.key.Some? {
        var replay := IdempotencyCheck(credential, c.key.value, c.hash);
        if replay.Some? {
          WriteAudit(c, if OUTCOME in replay.value then ReplayedStatus else ConflictStatus);
          return Answer(replay.value[REQUEST_ID := c.requestId]);
        }
      }
      var key, status, result := KeyOf(c), ErrorStatus, None;
      match body {
        case Returns(value) =>
          status, result := OkStatus, Some(value);
        case Denies(denial) =>
          status, result := DeniedStatus, Some(DeniedPayload(denial));
        case Fails(code) =>
          log := log + [Execution(credential, key, None)];
          WriteAudit(c, status);
          return ErrorReply(code);
        case Crashes =>
          log := log + [Execution(credential, key, None)];
          WriteAudit(c, status);
          return Raised;
      }
      if c.mutating {
        keys := keys[(credential, key.value) := Record(c.hash, result.value)];
        log := log + [Execution(credential, key, Some(Record(c.hash, result.value)))];
      } else {
        log := log + [Execution(credential, key, None)];
      }
      WriteAudit(c, status);
      return Answer(result.value[REQUEST_ID := c.requestId]);
    }
  }

  // ---- Audit -------------------------------------------------------------------------------

  /** Every authenticated call leaves exactly one audit row of its own, on every path, whatever
      its body does; an unauthenticated call leaves none. */
  lemma OneAuditPerCall(s: Runtime, c: Call, body: BodyOutcome)
    ensures var s' := RunTool(s, c, body).0;
            match c.caller
            case None => s' == s
            case Some(_) =>
              && |s'.audits| == |s.audits| + 1 && s.audits <= s'.audits
              && s'.audits[|s.audits|] == AuditOf(c, s'.audits[|s.audits|].status)
  {
  }

  // ---- Runs --------------------------------------------------------------------------------

  datatype Invocation = Invocation(call: Call, body: BodyOutcome)

  function Run(calls: seq<Invocation>): Runtime {
    if calls == [] then Runtime(map[], [], [])
    else
      var last := calls[|calls| - 1];
      RunTool(Run(calls[..|calls| - 1]), last.call, last.body).0
  }

  /** The calls of a run that pass authentication. */
  function Authenticated(calls: seq<Invocation>): seq<Call> {
    if calls == [] then []
    else
      var last := calls[|calls| - 1].call;
      Authenticated(calls[..|calls| - 1]) + (if last.caller.Some? then [last] else [])
  }

  /** The audit table of a run lists exactly its authenticated calls, one row each, in order. */
  lemma {:induction false} RunAudits(calls: seq<Invocation>)
    ensures |Run(calls).audits| == |Authenticated(calls)|
    ensures forall i :: 0 <= i < |Run(calls).audits| ==>
              && Authenticated(calls)[i].caller.Some?
              && Run(calls).audits[i] == AuditOf(Authenticated(calls)[i], Run(calls).audits[i].status)
  {
    if calls != [] {
      var before, last := calls[..|calls| - 1], calls[|calls| - 1];
      RunAudits(before);
      OneAuditPerCall(Run(before), last.call, last.body);
    }
  }

  /** Generated keys are UUIDs: a call's is in nobody's store when the call is made. */
  ghost predicate FreshKeys(calls: seq<Invocation>) {
    forall i :: 0 <= i < |calls| && calls[i].call.caller.Some? ==>
      (calls[i].call.caller.value.credential, calls[i].call.freshKey) !in Run(calls[..i]).keys
  }

  /** What is stored under a key is what the one execution under it stored. */
  ghost predicate StoredOnce(s: Runtime) {
    && (forall i :: 0 <= i < |s.log| && s.log[i].stored.Some? ==>
         && s.log[i].key.Some?
         && (s.log[i].credential, s.log[i].key.value) in s.keys
         && s.keys[(s.log[i].credential, s.log[i].key.value)] == s.log[i].stored.value)
    && (forall i, j :: 0 <= i < j < |s.log| && s.log[i].stored.Some? && s.log[j].stored.Some? ==>
         (s.log[i].credential, s.log[i].key) != (s.log[j].credential, s.log[j].key))
  }

  lemma RunToolStores(s: Runtime, c: Call, body: BodyOutcome)
    requires StoredOnce(s)
    requires c.caller.Some? ==> (c.caller.value.credential, c.freshKey) !in s.keys
    ensures StoredOnce(RunTool(s, c, body).0)
  {
  }

  lemma {:induction false} RunStores(calls: seq<Invocation>)
    requires FreshKeys(calls)
    ensures StoredOnce(Run(calls))
  {
    if calls != [] {
      var before, last := calls[..|calls| - 1], calls[|calls| - 1];
      forall i | 0 <= i < |before| ensures before[..i] == calls[..i] && before[i] == calls[i] {
      }
      RunStores(before);
      RunToolStores(Run(before), last.call, last.body);
    }
  }

  /** Once a result has been stored under a key, no later call with that key runs a body: the
      same arguments get the same result with only `request_id` changed, any others a conflict. */
  lemma StoredCallReplays(calls: seq<Invocation>, i: nat, c: Call, body: BodyOutcome)
    requires FreshKeys(calls)
    requires var log := Run(calls).log;
             && i < |log| && log[i].stored.Some?
             && c.caller.Some? && c.mutating && c.key.Some?
             && (log[i].credential, log[i].key) == (c.caller.value.credential, c.key)
    ensures var s, stored := Run(calls), Run(calls).log[i].stored.value;
            var (s', reply) := RunTool(s, c, body);
            && s'.keys == s.keys && s'.log == s.log
            && reply == Answer((if c.hash == stored.hash then stored.body else CONFLICT)[REQUEST_ID := c.requestId])
  {
    RunStores(calls);
  }

  /** Repeating a call that stored its result runs no body again exactly if its key is not
      empty: a result is looked up under the key given, but stored under a generated one if
      that is empty.  The repeated answer then differs in `request_id` alone. */
  lemma RunsOnceIff(s: Runtime, first: Call, body: BodyOutcome, again: Call, other: BodyOutcome)
    requires first.caller.Some? && first.mutating && first.key.Some? && first.freshKey != ""
    requires (first.caller.value.credential, first.key.value) !in s.keys && ResultOf(body).Some?
    requires again == first.(requestId := again.requestId, freshKey := again.freshKey)
    ensures var (s1, reply1) := RunTool(s, first, body);
            var (s2, reply2) := RunTool(s1, again, other);
            && (s2.log == s1.log <==> first.key.value != "")
            && (first.key.value != "" ==>
                 reply1.Answer? && reply2 == Answer(reply1.payload[REQUEST_ID := again.requestId]))
  {
    var (s1, _) := RunTool(s, first, body);
    assert first.key.value == "" ==> |RunTool(s1, again, other).0.log| == |s1.log| + 1;
  }

  // ---- What a repeated call is audited as ---------------------------------------------------

  /** Every mutating tool's result carries an `outcome`. */
  predicate CarryOutcomes(calls: seq<Invocation>) {
    forall i :: 0 <= i < |calls| && calls[i].call.mutating && calls[i].body.Returns? ==> OUTCOME in calls[i].body.result
  }

  lemma {:induction false} RunCarriesOutcomes(calls: seq<Invocation>)
    requires CarryOutcomes(calls)
    ensures forall id | id in Run(calls).keys :: OUTCOME in Run(calls).keys[id].body
  {
    if calls != [] {
      var before, last := calls[..|calls| - 1], calls[|calls| - 1];
      assert forall i :: 0 <= i < |before| ==> before[i] == calls[i];
      RunCarriesOutcomes(before);
      var s := Run(before);
      assert Run(calls) == RunTool(s, last.call, last.body).0;
    }
  }

  /** A call that repeats a key is audited as a replay if its arguments are those of the call
      whose result is stored, as a conflict otherwise, and as nothing else; a call whose key has
      nothing stored is audited as neither. */
  lemma {:induction false} RepeatsAudited(calls: seq<Invocation>, c: Call, body: BodyOutcome)
    requires CarryOutcomes(calls) && c.caller.Some? && c.mutating && c.key.Some?
    ensures var s, id := Run(calls), (c.caller.value.credential, c.key.value);
            var status := RunTool(s, c, body).0.audits[|s.audits|].status;
            && (status == ReplayedStatus <==> id in s.keys && s.keys[id].hash == c.hash)
            && (status == ConflictStatus <==> id in s.keys && s.keys[id].hash != c.hash)
  {
    RunCarriesOutcomes(calls);
  }
}
