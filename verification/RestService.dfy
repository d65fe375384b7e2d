/** The REST surface in front of the money core: authentication, then the idempotency middleware, then
    one service call; next to it the calls that do not come through the middleware. */
module RestService {
  import opened Prelude
  import opened Models
  import opened Calendar
  import opened Tallies
  import opened Posting
  import opened PolicyEngine
  import opened PolicyGateModel
  import opened PaymentsModel
  import opened Machine
  import opened MoneyInvariant
  import opened Invariant
  import opened Steps
  import opened StepInvariant
  import opened RunInvariant
  import opened Stability
  import R = RestIdempotency

  datatype Service = Service(store: R.Store, db: State)

  const NEW := Service(R.Store(map[], []), EMPTY)

  /** A request to a route that makes the call `op`, with the text its answer is rendered as; or a call
      that does not come through the middleware. */
  datatype Happening =
    | Arrives(now: Time, finish: Time, request: R.Request, op: Op, text: string)
    | Elsewhere(now: Time, finish: Time, op: Op)

  datatype Answer = Refused | Answered(reply: R.Reply)

  /** The status an error is answered with; the last two are server faults. */
  function ErrorStatus(e: ApiError): nat {
    match e
    case Unauthorized => 401
    case InsufficientScope => 403
    case OwnerScopeRequired => 403
    case PolicyDenied => 403
    case NotFound => 404
    case ValidationError => 400
    case UnsupportedRoute => 400
    case InsufficientFunds => 409
    case QuoteExpired => 409
    case CancellationNotAllowed => 409
    case ApprovalNotPending => 409
    case ApprovalExpired => 409
    case LedgerImbalance => 500
    case RowMissing => 500
  }

  /** 201 for something created, 202 if it is held, 200 otherwise. */
  function SuccessStatus(op: Op, o: Outcome): nat {
    match op
    case CreatePaymentOp(_, _) => CreatedStatus(o)
    case CreateTransferOp(_, _) => CreatedStatus(o)
    case CreateAgentOp(_) => 201
    case CreateCounterpartyOp(_, _, _) => 201
    case CreateQuoteOp(_, _) => 201
    case _ => 200
  }

  function CreatedStatus(o: Outcome): nat {
    if o.result.Ok? && o.result.value < |o.state.actions| && o.state.actions[o.result.value].status == PendingApproval
    then 202 else 201
  }

  /** Every answer is a JSON document: the resource, or the error envelope. */
  function ResponseTo(op: Op, o: Outcome, text: string): R.Response {
    R.Response(if o.result.Ok? then SuccessStatus(op, o) else ErrorStatus(o.result.error),
               map[R.CONTENT_TYPE := "application/json"], R.Json(text))
  }

  predicate Admitted(s: Service, h: Happening) {
    PrincipalOf(h.op).Some? && Authentic(s.db, PrincipalOf(h.op).value)
  }

  /** The caller is authenticated before the middleware looks at the key; `o` is what the call comes to
      if it is made. */
  function Through(s: Service, h: Happening, o: Outcome): (Service, Answer) {
    if h.Elsewhere? then (s.(db := o.state), Refused)
    else if !Admitted(s, h) then (s, Refused)
    else
      var (store, reply) := R.Serve(s.store, h.now, h.finish, h.request, ResponseTo(h.op, o, h.text));
      (Service(store, if reply.Handled? || reply.PassedThrough? then o.state else s.db), Answered(reply))
  }

  function CallOf(s: Service, h: Happening): Outcome {
    Step(s.db, h.now, h.op)
  }

  function Serve(s: Service, h: Happening): (Service, Answer) {
    Through(s, h, CallOf(s, h))
  }

  function Run(hs: seq<Happening>): Service {
    if hs == [] then NEW else Serve(Run(hs[..|hs| - 1]), hs[|hs| - 1]).0
  }

  function Clock(hs: seq<Happening>): Time {
    if hs == [] then 0 else hs[|hs| - 1].finish
  }

  /** One call after another; the sweep does not come through the middleware. */
  ghost predicate Possible(hs: seq<Happening>) {
    hs == [] ||
    var before, last := hs[..|hs| - 1], hs[|hs| - 1];
    && Possible(before)
    && Clock(before) <= last.now <= last.finish
    && (last.Elsewhere? ==> Enabled(Run(before).db, last.now, last.op))
  }

  // ---- Both machines run as they do alone --------------------------------------------------

  predicate Made(h: Happening, a: Answer) {
    h.Elsewhere? || (a.Answered? && (a.reply.Handled? || a.reply.PassedThrough?))
  }

  /** The calls that were made to the money core. */
  function Calls(hs: seq<Happening>): seq<Event> {
    if hs == [] then []
    else
      var before, last := hs[..|hs| - 1], hs[|hs| - 1];
      if Made(last, Serve(Run(before), last).1) then Calls(before) + [Event(last.now, last.op)] else Calls(before)
  }

  /** A request as the middleware sees it, with what its handler would answer. */
  function ArrivalOf(h: Happening, o: Outcome): R.Arrival
    requires h.Arrives?
  {
    R.Arrival(h.now, h.finish, h.request, ResponseTo(h.op, o, h.text))
  }

  /** The requests that reached the middleware. */
  function Arrivals(hs: seq<Happening>): seq<R.Arrival> {
    if hs == [] then []
    else
      var before, last := hs[..|hs| - 1], hs[|hs| - 1];
      if Serve(Run(before), last).1.Answered? then Arrivals(before) + [ArrivalOf(last, CallOf(Run(before), last))]
      else Arrivals(before)
  }

  lemma MachineNext(s: State, start: Time, events: seq<Event>, last: Event)
    requires Machine.Possible(s, start, events) && Machine.Clock(start, events) <= last.now
    requires Enabled(Machine.Run(s, events), last.now, last.op)
    ensures Machine.Possible(s, start, events + [last]) && Machine.Clock(start, events + [last]) == last.now
    ensures Machine.Run(s, events + [last]) == Step(Machine.Run(s, events), last.now, last.op).state
  {
    assert (events + [last])[..|events|] == events;
  }

  lemma CallNext(s: Service, h: Happening, events: seq<Event>)
    requires s.db == Machine.Run(EMPTY, events) && Machine.Possible(EMPTY, 0, events)
    requires Machine.Clock(0, events) <= h.now && (h.Elsewhere? ==> Enabled(s.db, h.now, h.op))
    ensures Made(h, Serve(s, h).1) ==>
              var all := events + [Event(h.now, h.op)];
              && Serve(s, h).0.db == Machine.Run(EMPTY, all)
              && Machine.Possible(EMPTY, 0, all) && Machine.Clock(0, all) == h.now
    ensures !Made(h, Serve(s, h).1) ==> Serve(s, h).0.db == s.db
  {
    if Made(h, Serve(s, h).1) {
      MachineNext(EMPTY, 0, events, Event(h.now, h.op));
    }
  }

  /** The database is one the money core reaches on its own. */
  lemma {:induction false} RunsCalls(hs: seq<Happening>)
    requires Possible(hs)
    ensures Run(hs).db == Machine.Run(EMPTY, Calls(hs))
    ensures Machine.Possible(EMPTY, 0, Calls(hs)) && Machine.Clock(0, Calls(hs)) <= Clock(hs)
  {
    if hs == [] {
      assert Machine.Run(EMPTY, []) == EMPTY;
    } else {
      var before, last := hs[..|hs| - 1], hs[|hs| - 1];
      RunsCalls(before);
      CallNext(Run(before), last, Calls(before));
    }
  }

  lemma ArrivalNext(s: Service, h: Happening, o: Outcome, arrivals: seq<R.Arrival>)
    requires s.store == R.Run(arrivals) && R.Serial(arrivals) && R.Clock(arrivals) <= h.now <= h.finish
    ensures Through(s, h, o).1.Answered? ==>
              var all := arrivals + [ArrivalOf(h, o)];
              Through(s, h, o).0.store == R.Run(all) && R.Serial(all) && R.Clock(all) == h.finish
    ensures !Through(s, h, o).1.Answered? ==> Through(s, h, o).0.store == s.store
  {
    if h.Arrives? {
      var all := arrivals + [ArrivalOf(h, o)];
      assert all[..|arrivals|] == arrivals;
    }
  }

  /** The stored keys are those the middleware stores on its own. */
  lemma {:induction false} RunsArrivals(hs: seq<Happening>)
    requires Possible(hs)
    ensures Run(hs).store == R.Run(Arrivals(hs))
    ensures R.Serial(Arrivals(hs)) && R.Clock(Arrivals(hs)) <= Clock(hs)
  {
    if hs == [] {
      assert R.Run([]) == R.Store(map[], []);
    } else {
      var before, last := hs[..|hs| - 1], hs[|hs| - 1];
      RunsArrivals(before);
      ArrivalNext(Run(before), last, CallOf(Run(before), last), Arrivals(before));
    }
  }

  // ---- A repeated request ------------------------------------------------------------------

  type Key = (Id, string)

  predicate KeyedAs(h: Happening, id: Key) {
    && h.Arrives? && R.Guarded(h.request) && R.KeyAccepted(h.request.key)
    && (h.request.credential, h.request.key.value) == id
  }

  /** What is answered to the request if its handler runs. */
  function Sent(s: Service, h: Happening): R.Response
    requires h.Arrives?
  {
    ResponseTo(h.op, CallOf(s, h), h.text)
  }

  function ExecutionOf(h: Happening, o: Outcome): R.Execution
    requires h.Arrives? && h.request.key.Some?
  {
    R.Execution(h.request.credential, h.request.key.value, h.request.hash, ResponseTo(h.op, o, h.text), h.now,
                h.finish)
  }

  /** A server fault leaves the database as it was. */
  lemma FaultChangesNothing(s: State, now: Time, op: Op)
    requires PrincipalOf(op).Some? ==> Authentic(s, PrincipalOf(op).value)
    requires Step(s, now, op).result.Err? && ErrorStatus(Step(s, now, op).result.error) >= 500
    ensures Step(s, now, op).state == s
  {
    FailedCall(s, now, op);
  }

  /** A call that changes the database is recorded. */
  lemma ThroughRecorded(s: Service, h: Happening, o: Outcome, id: Key)
    requires KeyedAs(h, id) && Through(s, h, o).0.db != s.db
    requires o.result.Err? && ErrorStatus(o.result.error) >= 500 ==> o.state == s.db
    ensures Admitted(s, h) && R.Under(ExecutionOf(h, o), id)
    ensures Through(s, h, o).0.store.log == s.store.log + [ExecutionOf(h, o)]
  {
  }

  lemma ChangeRecorded(s: Service, h: Happening, id: Key)
    requires KeyedAs(h, id) && Serve(s, h).0.db != s.db
    ensures Admitted(s, h) && R.Under(ExecutionOf(h, CallOf(s, h)), id)
    ensures Serve(s, h).0.store.log == s.store.log + [ExecutionOf(h, CallOf(s, h))]
  {
    var o := CallOf(s, h);
    if Admitted(s, h) && o.result.Err? && ErrorStatus(o.result.error) >= 500 {
      FaultChangesNothing(s.db, h.now, h.op);
    }
    ThroughRecorded(s, h, o, id);
  }

  lemma {:induction false} PossiblePrefix(hs: seq<Happening>, i: nat)
    requires Possible(hs) && i <= |hs|
    ensures Possible(hs[..i])
    decreases |hs| - i
  {
    if i == |hs| {
      assert hs[..i] == hs;
    } else {
      PossiblePrefix(hs, i + 1);
      assert hs[..i + 1][..i] == hs[..i];
    }
  }

  /** The log of executions only grows. */
  lemma {:induction false} LogGrows(hs: seq<Happening>, i: nat)
    requires i <= |hs|
    ensures Run(hs[..i]).store.log <= Run(hs).store.log
  {
    if i == |hs| {
      assert hs[..i] == hs;
    } else {
      LogGrows(hs[..|hs| - 1], i);
      assert hs[..|hs| - 1][..i] == hs[..i];
    }
  }

  /** The call changed the database under the key. */
  predicate ChangedUnder(hs: seq<Happening>, i: nat, id: Key)
    requires i < |hs|
  {
    KeyedAs(hs[i], id) && Serve(Run(hs[..i]), hs[i]).0.db != Run(hs[..i]).db
  }

  lemma LoggedStays(hs: seq<Happening>, i: nat, id: Key) returns (n: nat)
    requires i < |hs| && ChangedUnder(hs, i, id)
    ensures n < |Run(hs).store.log|
    ensures Run(hs).store.log[n] == ExecutionOf(hs[i], CallOf(Run(hs[..i]), hs[i])) && R.Under(Run(hs).store.log[n], id)
  {
    ChangeRecorded(Run(hs[..i]), hs[i], id);
    assert hs[..i + 1][..i] == hs[..i];
    LogGrows(hs, i + 1);
    n := |Run(hs[..i]).store.log|;
  }

  /** What the middleware makes of a repeat. */
  lemma StoreRepeats(arrivals: seq<R.Arrival>, n: nat, next: R.Arrival, op: Op, o: Outcome, text: string)
    requires R.Serial(arrivals + [next]) && n < |R.Run(arrivals).log|
    requires var e := R.Run(arrivals).log[n];
             && e.Recorded() && e.response == ResponseTo(op, o, text)
             && R.Guarded(next.request) && R.KeyAccepted(next.request.key)
             && (e.credential, e.key) == (next.request.credential, next.request.key.value)
             && next.now <= e.finished + R.WINDOW
    ensures var s, e := R.Run(arrivals), R.Run(arrivals).log[n];
            R.Serve(s, next.now, next.finish, next.request, next.response)
            == (s, if next.request.hash != e.hash then R.Conflict
                   else R.Replayed(e.response.(headers := e.response.headers[R.MARK := "true"])))
  {
    R.WithinWindow(arrivals, n, next);
    var e := R.Run(arrivals).log[n];
    if next.request.hash == e.hash {
      R.ReplayCarries(arrivals, n, next);
      assert R.Plain(e.response);
    }
  }

  lemma ThroughRepeats(s: Service, again: Happening, o: Outcome, arrivals: seq<R.Arrival>, n: nat, id: Key,
                       op: Op, first: Outcome, text: string)
    requires s.store == R.Run(arrivals) && R.Serial(arrivals) && R.Clock(arrivals) <= again.now <= again.finish
    requires n < |s.store.log| && R.Under(s.store.log[n], id) && KeyedAs(again, id)
    requires s.store.log[n].response == ResponseTo(op, first, text) && again.now <= s.store.log[n].finished + R.WINDOW
    ensures Through(s, again, o).0 == s
    ensures var e := s.store.log[n];
            Through(s, again, o).1
            == if !Admitted(s, again) then Refused
               else if again.request.hash != e.hash then Answered(R.Conflict)
               else Answered(R.Replayed(e.response.(headers := e.response.headers[R.MARK := "true"])))
  {
    if Admitted(s, again) {
      ArrivalNext(s, again, o, arrivals);
      StoreRepeats(arrivals, n, ArrivalOf(again, o), op, first, text);
    }
  }

  /** After a call that changed the database, a request under its key changes nothing until the window has
      passed: the same request is answered with what was sent, marked as a replay, any other with 409. */
  lemma RepeatChangesNothing(hs: seq<Happening>, i: nat, again: Happening, id: Key)
    requires Possible(hs + [again]) && i < |hs| && ChangedUnder(hs, i, id) && KeyedAs(again, id)
    requires again.now <= hs[i].finish + R.WINDOW
    ensures Serve(Run(hs), again).0 == Run(hs)
    ensures var sent := Sent(Run(hs[..i]), hs[i]);
            Serve(Run(hs), again).1
            == if !Admitted(Run(hs), again) then Refused
               else if again.request.hash != hs[i].request.hash then Answered(R.Conflict)
               else Answered(R.Replayed(sent.(headers := sent.headers[R.MARK := "true"])))
  {
    assert (hs + [again])[..|hs|] == hs;
    RunsArrivals(hs);
    var o := CallOf(Run(hs), again);
    var n := LoggedStays(hs, i, id);
    ThroughRepeats(Run(hs), again, o, Arrivals(hs), n, id, hs[i].op, CallOf(Run(hs[..i]), hs[i]), hs[i].text);
  }

  // ---- One order, one journal --------------------------------------------------------------

  /** One more action: with its journal if it was executed, with none if it is held. */
  ghost predicate Ordered(s: State, s': State) {
    && |s'.actions| == |s.actions| + 1
    && s'.books.ledger == s.books.ledger + OrderJournal(s, s'.actions[|s.actions|])
  }

  /** The journal a new action is posted under, if it was executed. */
  function OrderJournal(s: State, row: Action): seq<LedgerEntry> {
    if row.status == Completed then JournalOf(row, NextJournal(s.books.ledger), ResourceOf(row, |s.actions|)) else []
  }

  lemma GatedOrders(s: State, now: Time, p: Principal, agent: Id, row: Action, context: ActionContext)
    requires BalanceRows(s.owners, s.agents, s.books.balances)
    requires Authentic(s, p) && agent < |s.agents|
    requires Fresh(s, now, p.owner, row) && Source(row) in s.books.balances
    requires Gated(s, now, p, agent, row, context).result.Ok?
    ensures Ordered(s, Gated(s, now, p, agent, row, context).state)
  {
    var s1 := GatedShape(s, now, p, agent, row, context);
  }

  lemma PaymentOrders(s: State, now: Time, p: Principal, body: PaymentBody)
    requires Inv(s, now) && Authentic(s, p) && CreatePayment(s, now, p, body).result.Ok?
    ensures Ordered(s, CreatePayment(s, now, p, body).state)
  {
    var s0, terms := CreatePaymentShape(s, now, p, body);
    GatedOrders(s0, now, p, body.agent, NewPayment(now, p, body, terms), PaymentContext(s0, now, p, body, terms));
  }

  lemma TransferOrders(s: State, now: Time, p: Principal, body: TransferBody)
    requires Inv(s, now) && Authentic(s, p) && CreateTransfer(s, now, p, body).result.Ok?
    ensures Ordered(s, CreateTransfer(s, now, p, body).state)
  {
    var s0, agent := CreateTransferShape(s, now, p, body);
    var row := NewTransfer(now, p, body);
    if p.credential.OwnerKey? {
      ExecuteNewShape(s0, now, p.owner, row);
    } else {
      GatedOrders(s0, now, p, agent, row, TransferContext(s0, now, agent, body));
    }
  }

  lemma StepOrders(s: State, now: Time, op: Op)
    requires Inv(s, now) && CreatesAction(op) && Step(s, now, op).result.Ok?
    ensures Ordered(s, Step(s, now, op).state)
  {
    match op
    case CreatePaymentOp(p, body) => PaymentOrders(s, now, p, body);
    case CreateTransferOp(p, body) => TransferOrders(s, now, p, body);
  }

  /** The entries a change of the database added to the ledger. */
  function Growth(s: State, s': State): seq<LedgerEntry> {
    if |s.books.ledger| <= |s'.books.ledger| then s'.books.ledger[|s.books.ledger|..] else []
  }

  /** The actions that the calls under a key created, by number, and the entries they posted. */
  function CreatedUnder(hs: seq<Happening>, id: Key): int {
    if hs == [] then 0
    else
      var before, last := hs[..|hs| - 1], hs[|hs| - 1];
      CreatedUnder(before, id)
      + (if KeyedAs(last, id) then |Serve(Run(before), last).0.db.actions| - |Run(before).db.actions| else 0)
  }

  function PostedUnder(hs: seq<Happening>, id: Key): seq<LedgerEntry> {
    if hs == [] then []
    else
      var before, last := hs[..|hs| - 1], hs[|hs| - 1];
      PostedUnder(before, id)
      + (if KeyedAs(last, id) then Growth(Run(before).db, Serve(Run(before), last).0.db) else [])
  }

  lemma ServiceInv(hs: seq<Happening>)
    requires Possible(hs)
    ensures Inv(Run(hs).db, Clock(hs))
  {
    RunsCalls(hs);
    EmptyInv(0);
    RunInv(EMPTY, 0, Calls(hs));
    AdvanceClock(Run(hs).db, Machine.Clock(0, Calls(hs)), Clock(hs));
  }

  /** The request was handled and created an action. */
  predicate OrdersUnder(hs: seq<Happening>, i: nat, id: Key)
    requires i < |hs|
  {
    && KeyedAs(hs[i], id) && CreatesAction(hs[i].op) && CallOf(Run(hs[..i]), hs[i]).result.Ok?
    && Serve(Run(hs[..i]), hs[i]).1 == Answered(R.Handled(Sent(Run(hs[..i]), hs[i])))
  }

  lemma OrderGrows(hs: seq<Happening>, i: nat, id: Key)
    requires Possible(hs) && i < |hs| && OrdersUnder(hs, i, id)
    ensures ChangedUnder(hs, i, id) && Ordered(Run(hs[..i]).db, Run(hs[..i + 1]).db)
    ensures CreatedUnder(hs[..i + 1], id) == CreatedUnder(hs[..i], id) + 1
    ensures var s, s' := Run(hs[..i]).db, Run(hs[..i + 1]).db;
            PostedUnder(hs[..i + 1], id) == PostedUnder(hs[..i], id) + OrderJournal(s, s'.actions[|s.actions|])
  {
    PossiblePrefix(hs, i + 1);
    assert hs[..i + 1][..i] == hs[..i];
    PossiblePrefix(hs, i);
    ServiceInv(hs[..i]);
    AdvanceClock(Run(hs[..i]).db, Clock(hs[..i]), hs[i].now);
    StepOrders(Run(hs[..i]).db, hs[i].now, hs[i].op);
  }

  lemma SameUnder(hs: seq<Happening>, id: Key)
    requires hs != []
    requires var before, last := hs[..|hs| - 1], hs[|hs| - 1];
             KeyedAs(last, id) ==> Serve(Run(before), last).0 == Run(before)
    ensures CreatedUnder(hs, id) == CreatedUnder(hs[..|hs| - 1], id)
    ensures PostedUnder(hs, id) == PostedUnder(hs[..|hs| - 1], id)
  {
  }

  /** The calls under the key created one action since then, and posted no more than its journal. */
  ghost predicate PlacedOnce(hs: seq<Happening>, i: nat, id: Key)
    requires i < |hs|
  {
    var s, s' := Run(hs[..i]).db, Run(hs[..i + 1]).db;
    && Ordered(s, s')
    && CreatedUnder(hs, id) == CreatedUnder(hs[..i], id) + 1
    && PostedUnder(hs, id) == PostedUnder(hs[..i], id) + OrderJournal(s, s'.actions[|s.actions|])
  }

  lemma PlacedBefore(hs: seq<Happening>, i: nat, id: Key)
    requires i + 1 < |hs| && PlacedOnce(hs[..|hs| - 1], i, id)
    requires CreatedUnder(hs, id) == CreatedUnder(hs[..|hs| - 1], id)
    requires PostedUnder(hs, id) == PostedUnder(hs[..|hs| - 1], id)
    ensures PlacedOnce(hs, i, id)
  {
    assert hs[..|hs| - 1][..i] == hs[..i] && hs[..|hs| - 1][..i + 1] == hs[..i + 1];
  }

  lemma OrdersBefore(hs: seq<Happening>, i: nat, id: Key)
    requires i + 1 < |hs| && OrdersUnder(hs, i, id)
    ensures OrdersUnder(hs[..|hs| - 1], i, id)
  {
    assert hs[..|hs| - 1][..i] == hs[..i];
  }

  lemma RepeatUnder(all: seq<Happening>, hs: seq<Happening>, again: Happening, i: nat, id: Key)
    requires all == hs + [again] && Possible(all) && i < |hs| && OrdersUnder(hs, i, id)
    requires KeyedAs(again, id) ==> again.now <= hs[i].finish + R.WINDOW
    ensures Possible(hs)
    ensures CreatedUnder(all, id) == CreatedUnder(hs, id) && PostedUnder(all, id) == PostedUnder(hs, id)
  {
    assert all[..|all| - 1] == hs;
    if KeyedAs(again, id) {
      OrderGrows(hs, i, id);
      RepeatChangesNothing(hs, i, again, id);
    }
    SameUnder(all, id);
  }

  lemma LastApart(hs: seq<Happening>) returns (before: seq<Happening>, last: Happening)
    requires hs != []
    ensures hs == before + [last] && before == hs[..|hs| - 1] && last == hs[|hs| - 1]
  {
    before, last := hs[..|hs| - 1], hs[|hs| - 1];
  }

  lemma RepeatLast(hs: seq<Happening>, i: nat, id: Key)
    requires Possible(hs) && i + 1 < |hs| && OrdersUnder(hs, i, id)
    requires KeyedAs(hs[|hs| - 1], id) ==> hs[|hs| - 1].now <= hs[i].finish + R.WINDOW
    ensures Possible(hs[..|hs| - 1]) && OrdersUnder(hs[..|hs| - 1], i, id)
    ensures CreatedUnder(hs, id) == CreatedUnder(hs[..|hs| - 1], id)
    ensures PostedUnder(hs, id) == PostedUnder(hs[..|hs| - 1], id)
  {
    var before, last := LastApart(hs);
    OrdersBefore(hs, i, id);
    RepeatUnder(hs, before, last, i, id);
  }

  /** An order is placed once: however often its key is used until the window has passed, and
      whatever else happens, the calls under the key created that one action and posted at most its
      journal. */
  lemma {:induction false} OrderedOnce(hs: seq<Happening>, i: nat, id: Key)
    requires Possible(hs) && i < |hs| && OrdersUnder(hs, i, id)
    requires forall j :: i < j < |hs| && KeyedAs(hs[j], id) ==> hs[j].now <= hs[i].finish + R.WINDOW
    ensures PlacedOnce(hs, i, id)
  {
    if i + 1 == |hs| {
      assert hs[..i + 1] == hs;
      OrderGrows(hs, i, id);
    } else {
      RepeatLast(hs, i, id);
      OrderedOnce(hs[..|hs| - 1], i, id);
      PlacedBefore(hs, i, id);
    }
  }

  lemma ServeExtends(hs: seq<Happening>, h: Happening)
    requires Possible(hs + [h])
    ensures Extends(Run(hs).db, Serve(Run(hs), h).0.db)
  {
    assert (hs + [h])[..|hs|] == hs;
    ThroughMade(Run(hs), h, CallOf(Run(hs), h));
    if Made(h, Serve(Run(hs), h).1) {
      ServiceInv(hs);
      StepExtends(Run(hs).db, Clock(hs), h.now, h.op);
    } else {
      ExtendsItself(Run(hs).db);
    }
  }

  lemma ThroughMade(s: Service, h: Happening, o: Outcome)
    ensures Through(s, h, o).0.db == if Made(h, Through(s, h, o).1) then o.state else s.db
    ensures h.Arrives? && Made(h, Through(s, h, o).1) ==> PrincipalOf(h.op).Some?
  {
  }

  lemma ExtendsItself(s: State)
    ensures Extends(s, s)
  {
  }

  lemma {:induction false} ServiceExtends(hs: seq<Happening>, i: nat)
    requires Possible(hs) && i <= |hs|
    ensures Extends(Run(hs[..i]).db, Run(hs).db)
  {
    if i == |hs| {
      assert hs[..i] == hs;
    } else {
      var before, last := hs[..|hs| - 1], hs[|hs| - 1];
      assert before[..i] == hs[..i] && before + [last] == hs;
      ServiceExtends(before, i);
      ServeExtends(before, last);
      ExtendsTransitive(Run(hs[..i]).db, Run(before).db, Run(hs).db);
    }
  }

  /** The action ordered is there at the end: with exactly one journal if it is completed by then, with
      none if it is not. */
  lemma OrderPostedOnce(hs: seq<Happening>, i: nat, id: Key)
    requires Possible(hs) && i < |hs| && OrdersUnder(hs, i, id)
    ensures var n, ordered, end := |Run(hs[..i]).db.actions|, Run(hs[..i + 1]).db, Run(hs).db;
            && n < |ordered.actions| <= |end.actions|
            && LaterAction(ordered.actions[n], end.actions[n])
            && PostedOnce(end.books.ledger, end.actions, ResourceOf(ordered.actions[n], n))
  {
    OrderGrows(hs, i, id);
    ServiceExtends(hs, i + 1);
    ServiceInv(hs);
  }
}
