/** The REST idempotency middleware (api/middleware.py): a state machine over stored keys with
    a 24 h window. */
module RestIdempotency {
  import opened Prelude
  import opened Calendar

  type Id = nat

  const WINDOW := 24 * HOUR

  /** The SHA-256 over method, path and canonical body, as an injective value. */
  datatype Fingerprint = Fingerprint(verb: string, path: string, canonicalBody: string)

  datatype Request = Request(credential: Id, key: Option<string>, mutating: bool, versioned: bool, hash: Fingerprint)

  /** A response body, by what `json.loads` makes of it. */
  datatype Body = Empty | Json(value: string) | JsonNull | NotJson(bytes: string)

  type Headers = map<string, string>

  /** Headers other than the request id and the body's length. */
  datatype Response = Response(status: nat, headers: Headers, body: Body)

  const MARK := "idempotency-replayed"
  const CONTENT_TYPE := "content-type"

  /** A stored key; a `None` body is a null column. */
  datatype Record = Record(hash: Fingerprint, status: nat, body: Option<string>, createdAt: Time)

  datatype Reply =
    | PassedThrough(response: Response)
    | KeyRequired
    | Conflict
    | Handled(response: Response)
    | Replayed(response: Response)

  /** One execution of the handler under a key: when it started and when its response was
      recorded, if it was. */
  datatype Execution = Execution(credential: Id, key: string, hash: Fingerprint, response: Response,
                                 started: Time, finished: Time) {
    predicate Recorded() {
      response.status < 500
    }
  }

  datatype Store = Store(keys: map<(Id, string), Record>, log: seq<Execution>)

  function StoredBody(b: Body): Option<string> {
    if b.Json? then Some(b.value) else None
  }

  /** envelope_replay: headers are not stored, so a replay has only its own. */
  function ReplayOf(r: Record): Response {
    if r.body.None? then Response(r.status, map[MARK := "true"], Empty)
    else Response(r.status, map[MARK := "true", CONTENT_TYPE := "application/json"], Json(r.body.value))
  }

  function RecordOf(e: Execution): Record {
    Record(e.hash, e.response.status, StoredBody(e.response.body), e.finished)
  }

  predicate Guarded(r: Request) {
    r.mutating && r.versioned
  }

  predicate KeyAccepted(key: Option<string>) {
    key.Some? && 16 <= |key.value| <= 128
  }

  /** The keys left once an expired one has been deleted. */
  function Purged(keys: map<(Id, string), Record>, id: (Id, string), now: Time): map<(Id, string), Record> {
    if id in keys && keys[id].createdAt + WINDOW < now then keys - {id} else keys
  }

  /** A request that arrives at `now`; should its handler run, it answers `response` at `finish`. */
  function Serve(s: Store, now: Time, finish: Time, r: Request, response: Response): (Store, Reply) {
    if !Guarded(r) then (s, PassedThrough(response))
    else if !KeyAccepted(r.key) then (s, KeyRequired)
    else
      var id := (r.credential, r.key.value);
      var keys := Purged(s.keys, id, now);
      if id in keys then
        (s.(keys := keys), if keys[id].hash != r.hash then Conflict else Replayed(ReplayOf(keys[id])))
      else
        var e := Execution(r.credential, r.key.value, r.hash, response, now, finish);
        (Store(if e.Recorded() then keys[id := RecordOf(e)] else keys, s.log + [e]), Handled(response))
  }

  class IdempotencyMiddleware {
    var keys: map<(Id, string), Record>
    ghost var log: seq<Execution>

    ghost function View(): Store
      reads this
    {
      Store(keys, log)
    }

    constructor ()
      ensures View() == Store(map[], [])
    {
      keys, log := map[], [];
    }

    method Call(now: Time, finish: Time, r: Request, response: Response) returns (reply: Reply)
      modifies this
      ensures (View(), reply) == Serve(old(View()), now, finish, r, response)
    {
      if !r.mutating || !r.versioned {
        return PassedThrough(response);
      }
      if r.key.None? || |r.key.value| < 16 || |r.key.value| > 128 {
        return KeyRequired;
      }
      var id := (r.credential, r.key.value);
      var existing := if id in keys then Some(keys[id]) else None;
      if existing.Some? && existing.value.createdAt + WINDOW < now {
        keys := keys - {id};
        existing := None;
      }
      if existing.Some? {
        if existing.value.hash != r.hash {
          return Conflict;
        }
        return Replayed(ReplayOf(existing.value));
      }
      log := log + [Execution(r.credential, r.key.value, r.hash, response, now, finish)];
      if response.status < 500 {
        var body := if response.body.Json? then Some(response.body.value) else None;
        if id !in keys {
          keys := keys[id := Record(r.hash, response.status, body, finish)];
        }
      }
      return Handled(response);
    }
  }

  // ---- Serial runs -------------------------------------------------------------------------

  datatype Arrival = Arrival(now: Time, finish: Time, request: Request, response: Response)

  function Run(arrivals: seq<Arrival>): Store {
    if arrivals == [] then Store(map[], [])
    else
      var last := arrivals[|arrivals| - 1];
      Serve(Run(arrivals[..|arrivals| - 1]), last.now, last.finish, last.request, last.response).0
  }

  function Clock(arrivals: seq<Arrival>): Time {
    if arrivals == [] then 0 else arrivals[|arrivals| - 1].finish
  }

  /** Requests one after another. */
  predicate Serial(arrivals: seq<Arrival>) {
    && (forall i :: 0 <= i < |arrivals| ==> arrivals[i].now <= arrivals[i].finish)
    && (forall i :: 0 < i < |arrivals| ==> arrivals[i - 1].finish <= arrivals[i].now)
  }

  predicate Under(e: Execution, id: (Id, string)) {
    e.Recorded() && (e.credential, e.key) == id
  }

  /** Every recorded execution is the stored one, or older than it by more than the window, or,
      with nothing stored, longer ago than the window. */
  ghost predicate Inv(s: Store, clock: Time) {
    && (forall i :: 0 <= i < |s.log| ==> s.log[i].started <= s.log[i].finished <= clock)
    && (forall i :: 0 <= i < |s.log| && s.log[i].Recorded() ==>
         var id := (s.log[i].credential, s.log[i].key);
         if id in s.keys then s.keys[id] == RecordOf(s.log[i]) || s.log[i].finished + WINDOW < s.keys[id].createdAt
         else s.log[i].finished + WINDOW < clock)
    && (forall i, j :: 0 <= i < j < |s.log| && s.log[i].Recorded() && s.log[j].Recorded()
                       && (s.log[i].credential, s.log[i].key) == (s.log[j].credential, s.log[j].key) ==>
         s.log[i].finished + WINDOW < s.log[j].started)
    && (forall id | id in s.keys :: s.keys[id].createdAt <= clock)
  }

  lemma ServeInv(s: Store, clock: Time, now: Time, finish: Time, r: Request, response: Response)
    requires Inv(s, clock) && clock <= now <= finish
    ensures Inv(Serve(s, now, finish, r, response).0, finish)
  {
    var s' := Serve(s, now, finish, r, response).0;
    if Guarded(r) && KeyAccepted(r.key) {
      var id := (r.credential, r.key.value);
      forall i | 0 <= i < |s.log| && s.log[i].Recorded()
        ensures var x := (s.log[i].credential, s.log[i].key);
                && (x !in Purged(s.keys, id, now) ==> s.log[i].finished + WINDOW < now)
      {
      }
    }
  }

  lemma {:induction false} RunInv(arrivals: seq<Arrival>)
    requires Serial(arrivals)
    ensures Inv(Run(arrivals), Clock(arrivals))
  {
    if arrivals != [] {
      var before, last := arrivals[..|arrivals| - 1], arrivals[|arrivals| - 1];
      RunInv(before);
      ServeInv(Run(before), Clock(before), last.now, last.finish, last.request, last.response);
    }
  }

  /** Two recorded executions under one (credential, key) are more than the window apart. */
  lemma RecordedApart(arrivals: seq<Arrival>, i: nat, j: nat)
    requires Serial(arrivals)
    requires var log := Run(arrivals).log;
             i < j < |log| && log[i].Recorded() && log[j].Recorded()
             && (log[i].credential, log[i].key) == (log[j].credential, log[j].key)
    ensures Run(arrivals).log[i].finished + WINDOW < Run(arrivals).log[j].started
  {
    RunInv(arrivals);
  }

  /** Until the window has passed since a recorded execution, a request under its key runs no
      handler: the same hash is answered with the recorded response, any other with 409. */
  lemma WithinWindow(arrivals: seq<Arrival>, i: nat, next: Arrival)
    requires Serial(arrivals + [next])
    requires var log := Run(arrivals).log;
             && i < |log| && log[i].Recorded() && Guarded(next.request) && KeyAccepted(next.request.key)
             && (log[i].credential, log[i].key) == (next.request.credential, next.request.key.value)
             && next.now <= log[i].finished + WINDOW
    ensures var s, e := Run(arrivals), Run(arrivals).log[i];
            Serve(s, next.now, next.finish, next.request, next.response)
            == (s, if next.request.hash == e.hash then Replayed(ReplayOf(RecordOf(e))) else Conflict)
  {
    var all := arrivals + [next];
    assert forall k :: 0 <= k < |arrivals| ==> arrivals[k] == all[k];
    assert all[|arrivals|] == next;
    RunInv(arrivals);
    var s, e := Run(arrivals), Run(arrivals).log[i];
    assert Clock(arrivals) <= next.now;
    var id := (e.credential, e.key);
    assert id in s.keys && s.keys[id] == RecordOf(e);
  }

  // ---- What a replay carries ---------------------------------------------------------------

  /** A response as the service's routes and error handlers make them: JSON, or an empty body,
      with no headers of their own. */
  predicate Plain(r: Response) {
    || (r.body.Json? && r.headers - {MARK} == map[CONTENT_TYPE := "application/json"])
    || (r.body.Empty? && r.headers - {MARK} == map[])
  }

  /** Within the window the status that was sent is replayed always, the body exactly if it was
      JSON or empty, and the whole response, but for the replay's mark, exactly if it was plain. */
  lemma ReplayCarries(arrivals: seq<Arrival>, i: nat, next: Arrival)
    requires Serial(arrivals + [next])
    requires var log := Run(arrivals).log;
             && i < |log| && log[i].Recorded() && Guarded(next.request) && KeyAccepted(next.request.key)
             && (log[i].credential, log[i].key) == (next.request.credential, next.request.key.value)
             && next.now <= log[i].finished + WINDOW && next.request.hash == log[i].hash
    ensures var sent := Run(arrivals).log[i].response;
            var reply := Serve(Run(arrivals), next.now, next.finish, next.request, next.response).1;
            && reply.Replayed?
            && reply.response.status == sent.status
            && (reply.response.body == sent.body <==> sent.body.Json? || sent.body.Empty?)
            && (reply.response == sent.(headers := sent.headers[MARK := "true"]) <==> Plain(sent))
  {
    WithinWindow(arrivals, i, next);
    var sent := Run(arrivals).log[i].response;
    var rebuilt := ReplayOf(RecordOf(Run(arrivals).log[i])).headers;
    assert rebuilt - {MARK} == if sent.body.Json? then map[CONTENT_TYPE := "application/json"] else map[];
    MarkedIff(rebuilt, sent.headers);
  }

  lemma MarkedIff(marked: Headers, headers: Headers)
    requires MARK in marked && marked[MARK] == "true"
    ensures marked == headers[MARK := "true"] <==> marked - {MARK} == headers - {MARK}
  {
    if marked - {MARK} == headers - {MARK} {
      forall k ensures k in marked <==> k in headers[MARK := "true"] {
        assert k != MARK ==> (k in marked <==> k in marked - {MARK}) && (k in headers <==> k in headers - {MARK});
      }
      forall k | k in marked ensures marked[k] == headers[MARK := "true"][k] {
        assert k != MARK ==> (marked - {MARK})[k] == (headers - {MARK})[k];
      }
    }
    if marked == headers[MARK := "true"] {
      assert marked - {MARK} == headers - {MARK};
    }
  }

  /** A redirect, as the web framework answers a trailing slash, is replayed without its location. */
  lemma RedirectLosesLocation(request: Request, location: string, other: Response)
    requires Guarded(request) && KeyAccepted(request.key)
    ensures var redirect := Response(307, map["location" := location], Empty);
            var s := Run([Arrival(0, 0, request, redirect)]);
            Serve(s, 1, 1, request, other).1 == Replayed(Response(307, map[MARK := "true"], Empty))
  {
    var first := Arrival(0, 0, request, Response(307, map["location" := location], Empty));
    assert [first][..0] == [];
    assert Run([]) == Store(map[], []);
  }
}
