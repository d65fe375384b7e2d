/** Two runs side by side: a request of an owner's is answered the same whether or not others have been
    using the service before it. */
module SameAnswers {
  import opened Prelude
  import opened Models
  import opened PolicyEngine
  import opened Calendar
  import opened BooksModel
  import opened BooksEffects
  import opened Tallies
  import opened PolicyGateModel
  import opened PaymentsModel
  import opened ApprovalsModel
  import opened Machine
  import opened MoneyInvariant
  import opened Invariant
  import opened Steps
  import opened StepInvariant
  import opened RunInvariant
  import opened Stability
  import opened Isolation
  import opened Guarantees

  // ---- Whose usage an action counts to -----------------------------------------------------

  /** A transfer is initiated by an agent of its owner's, if by an agent at all. */
  ghost predicate Initiated(agents: seq<Agent>, a: Action) {
    a.Transfer? && a.initiator.Some? ==> a.initiator.value < |agents| && agents[a.initiator.value].owner == a.owner
  }

  ghost predicate InitiatorInv(s: State) {
    forall i :: 0 <= i < |s.actions| ==> Initiated(s.agents, s.actions[i])
  }

  lemma NewTransferInitiated(s: State, now: Time, p: Principal, body: TransferBody)
    requires Inv(s, now) && Authentic(s, p) && CreateTransfer(s, now, p, body).result.Ok?
    ensures var s' := CreateTransfer(s, now, p, body).state;
            && |s'.actions| == |s.actions| + 1 && s'.agents == s.agents
            && Initiated(s.agents, s'.actions[|s.actions|])
  {
    var s0, agent := CreateTransferShape(s, now, p, body);
    var row := NewTransfer(now, p, body);
    if p.credential.OwnerKey? {
      ExecuteNewShape(s0, now, p.owner, row);
    } else {
      var s1 := GatedShape(s0, now, p, agent, row, TransferContext(s0, now, agent, body));
    }
  }

  lemma NewPaymentInitiated(s: State, now: Time, p: Principal, body: PaymentBody)
    requires Inv(s, now) && Authentic(s, p) && CreatePayment(s, now, p, body).result.Ok?
    ensures var s' := CreatePayment(s, now, p, body).state;
            |s'.actions| == |s.actions| + 1 && s'.actions[|s.actions|].Payment?
  {
    var s0, terms := CreatePaymentShape(s, now, p, body);
    var row := NewPayment(now, p, body, terms);
    var s1 := GatedShape(s0, now, p, body.agent, row, PaymentContext(s0, now, p, body, terms));
  }

  lemma KeepsInitiators(s: State, s': State)
    requires InitiatorInv(s) && Extends(s, s')
    requires forall i :: |s.actions| <= i < |s'.actions| ==> Initiated(s'.agents, s'.actions[i])
    ensures InitiatorInv(s')
  {
    forall i | 0 <= i < |s'.actions| ensures Initiated(s'.agents, s'.actions[i]) {
      if i < |s.actions| {
        assert LaterAction(s.actions[i], s'.actions[i]) && Initiated(s.agents, s.actions[i]);
        if s.actions[i].Transfer? && s.actions[i].initiator.Some? {
          assert LaterAgent(s.agents[s.actions[i].initiator.value], s'.agents[s.actions[i].initiator.value]);
        }
      }
    }
  }

  lemma PerformInitiators(s: State, now: Time, op: Op)
    requires Inv(s, now) && Enabled(s, now, op) && InitiatorInv(s)
    requires PrincipalOf(op).Some? ==> Authentic(s, PrincipalOf(op).value)
    requires Perform(s, now, op).result.Ok?
    ensures InitiatorInv(Perform(s, now, op).state)
  {
    PerformExtends(s, now, op);
    if CreatesAction(op) {
      CreatesInitiators(s, now, op);
    } else {
      KeepsInitiators(s, Perform(s, now, op).state);
    }
  }

  lemma CreatesInitiators(s: State, now: Time, op: Op)
    requires Inv(s, now) && InitiatorInv(s) && CreatesAction(op) && Authentic(s, op.p)
    requires Perform(s, now, op).result.Ok? && Extends(s, Perform(s, now, op).state)
    ensures InitiatorInv(Perform(s, now, op).state)
  {
    match op
    case CreatePaymentOp(p, body) => PaymentInitiators(s, now, p, body);
    case CreateTransferOp(p, body) => TransferInitiators(s, now, p, body);
  }

  lemma PaymentInitiators(s: State, now: Time, p: Principal, body: PaymentBody)
    requires Inv(s, now) && InitiatorInv(s) && Authentic(s, p) && CreatePayment(s, now, p, body).result.Ok?
    requires Extends(s, CreatePayment(s, now, p, body).state)
    ensures InitiatorInv(CreatePayment(s, now, p, body).state)
  {
    NewPaymentInitiated(s, now, p, body);
    KeepsInitiators(s, CreatePayment(s, now, p, body).state);
  }

  lemma TransferInitiators(s: State, now: Time, p: Principal, body: TransferBody)
    requires Inv(s, now) && InitiatorInv(s) && Authentic(s, p) && CreateTransfer(s, now, p, body).result.Ok?
    requires Extends(s, CreateTransfer(s, now, p, body).state)
    ensures InitiatorInv(CreateTransfer(s, now, p, body).state)
  {
    NewTransferInitiated(s, now, p, body);
    KeepsInitiators(s, CreateTransfer(s, now, p, body).state);
  }

  lemma StepInitiators(s: State, clock: Time, now: Time, op: Op)
    requires Inv(s, clock) && clock <= now && Enabled(s, now, op) && InitiatorInv(s)
    ensures InitiatorInv(Step(s, now, op).state)
  {
    AdvanceClock(s, clock, now);
    if (PrincipalOf(op).Some? ==> Authentic(s, PrincipalOf(op).value)) && Perform(s, now, op).result.Ok? {
      PerformInitiators(s, now, op);
    }
  }

  lemma {:induction false} RunInitiators(s: State, start: Time, events: seq<Event>)
    requires Inv(s, start) && Possible(s, start, events) && InitiatorInv(s)
    ensures InitiatorInv(Run(s, events))
  {
    if events != [] {
      var before, last := events[..|events| - 1], events[|events| - 1];
      RunInv(s, start, before);
      RunInitiators(s, start, before);
      StepInitiators(Run(s, before), Clock(start, before), last.now, last.op);
    }
  }

  lemma ReachableInitiators(s: State, clock: Time)
    requires Reachable(s, clock)
    ensures InitiatorInv(s)
  {
    var start: Time, events: seq<Event> :|
      Possible(EMPTY, start, events) && s == Run(EMPTY, events) && clock == Clock(start, events);
    EmptyInv(start);
    RunInitiators(EMPTY, start, events);
  }

  // ---- The same usage ----------------------------------------------------------------------

  lemma {:induction false} TotalFewer(m: Measure, xs: seq<Action>, ys: seq<Action>)
    requires |xs| <= |ys|
    requires forall i :: 0 <= i < |xs| ==> Weight(m, ys[i]) == Weight(m, xs[i])
    requires forall i :: |xs| <= i < |ys| ==> Weight(m, ys[i]) == 0
    ensures Total(m, ys) == Total(m, xs)
  {
    if |xs| == |ys| {
      TotalSame(m, xs, ys);
    } else {
      TotalFewer(m, xs, ys[..|ys| - 1]);
    }
  }

  /** Another owner's action does not count to an agent's usage. */
  lemma OthersSpend(s: State, clock: Time, i: Id, agent: Id, since: Time)
    requires Inv(s, clock) && InitiatorInv(s) && i < |s.actions| && agent < |s.agents|
    requires s.actions[i].owner != s.agents[agent].owner
    ensures Weight(Spend(agent, since), s.actions[i]) == 0 && Weight(Transactions(agent, since), s.actions[i]) == 0
  {
    assert ActionRow(s.owners, s.agents, s.quotes, s.actions[i], clock);
    assert Initiated(s.agents, s.actions[i]);
  }

  /** `t` is `s` after steps that concern `o` in nothing. */
  ghost predicate Beside(s: State, t: State, clock: Time, o: Id) {
    && Inv(s, clock) && Inv(t, clock) && InitiatorInv(s) && InitiatorInv(t)
    && Unaffected(s, t, o) && Extends(s, t)
  }

  lemma SameUsage(s: State, t: State, clock: Time, o: Id, agent: Id, since: Time)
    requires Beside(s, t, clock, o) && agent < |s.agents| && s.agents[agent].owner == o
    ensures Total(Spend(agent, since), t.actions) == Total(Spend(agent, since), s.actions)
    ensures Total(Transactions(agent, since), t.actions) == Total(Transactions(agent, since), s.actions)
  {
    forall i | 0 <= i < |t.actions|
      ensures i < |s.actions| ==>
                && Weight(Spend(agent, since), t.actions[i]) == Weight(Spend(agent, since), s.actions[i])
                && Weight(Transactions(agent, since), t.actions[i]) == Weight(Transactions(agent, since), s.actions[i])
      ensures i >= |s.actions| ==>
                Weight(Spend(agent, since), t.actions[i]) == 0 && Weight(Transactions(agent, since), t.actions[i]) == 0
    {
      if t.actions[i].owner != o {
        OthersSpend(t, clock, i, agent, since);
        if i < |s.actions| {
          OthersSpend(s, clock, i, agent, since);
        }
      }
    }
    TotalFewer(Spend(agent, since), s.actions, t.actions);
    TotalFewer(Transactions(agent, since), s.actions, t.actions);
  }

  lemma SameAggregates(s: State, t: State, clock: Time, o: Id, agent: Id, now: Time)
    requires Beside(s, t, clock, o) && agent < |s.agents| && s.agents[agent].owner == o
    ensures SpendAggregates(t.actions, agent, now) == SpendAggregates(s.actions, agent, now)
  {
    SameUsage(s, t, clock, o, agent, DayStart(now));
    SameUsage(s, t, clock, o, agent, MonthStart(now));
  }

  // ---- The same lookups --------------------------------------------------------------------

  lemma SameAuthentic(s: State, t: State, p: Principal)
    requires Unaffected(s, t, p.owner)
    ensures Authentic(t, p) == Authentic(s, p)
  {
  }

  lemma SameLookups(s: State, t: State, p: Principal, id: Id)
    requires Unaffected(s, t, p.owner)
    ensures GetAgent(t, p, id) == GetAgent(s, p, id) && GetCounterparty(t, p, id) == GetCounterparty(s, p, id)
    ensures GetPayment(t, p, id) == GetPayment(s, p, id) && GetApproval(t, p, id) == GetApproval(s, p, id)
  {
  }

  lemma SameQuote(s: State, t: State, now: Time, p: Principal, body: QuoteBody)
    requires Unaffected(s, t, p.owner)
    ensures QuoteFor(t, now, p, body) == QuoteFor(s, now, p, body)
  {
    SameLookups(s, t, p, body.agent);
  }

  lemma SameTerms(s: State, t: State, now: Time, p: Principal, body: PaymentBody)
    requires Unaffected(s, t, p.owner)
    ensures PaymentTerms(t, now, p, body) == PaymentTerms(s, now, p, body)
  {
    SameLookups(s, t, p, body.agent);
    SameLookups(s, t, p, body.counterparty);
    if GetCounterparty(s, p, body.counterparty).Ok? {
      SameAmounts(s, t, now, p, body, GetCounterparty(s, p, body.counterparty).value);
    }
  }

  lemma SameAmounts(s: State, t: State, now: Time, p: Principal, body: PaymentBody, c: Counterparty)
    requires Unaffected(s, t, p.owner)
    ensures ResolveAmounts(t, now, p, body, c) == ResolveAmounts(s, now, p, body, c)
  {
  }

  lemma SameValidity(s: State, t: State, p: Principal, body: TransferBody)
    requires Unaffected(s, t, p.owner)
    ensures ValidateTransfer(t, p, body) == ValidateTransfer(s, p, body)
  {
    SameHolder(s, t, p, body.source);
    SameHolder(s, t, p, body.destination);
  }

  lemma SameHolder(s: State, t: State, p: Principal, h: Holder)
    requires Unaffected(s, t, p.owner)
    ensures ValidateHolder(t, p, h) == ValidateHolder(s, p, h)
  {
    if h.AgentHolder? {
      SameLookups(s, t, p, h.agent);
    }
  }

  lemma SameDecision(s: State, t: State, p: Principal, agent: Id, context: ActionContext)
    requires Unaffected(s, t, p.owner) && agent < |s.agents| && s.agents[agent].owner == p.owner
    ensures Decide(t, p, agent, context) == Decide(s, p, agent, context)
  {
    assert t.agents[agent] == s.agents[agent];
    assert LoadActivePolicy(t, agent) == LoadActivePolicy(s, agent);
  }

  lemma SameContext(s: State, t: State, now: Time, p: Principal, body: PaymentBody, terms: Terms)
    requires Beside(s, t, now, p.owner) && PaymentTerms(s, now, p, body) == Ok(terms)
    ensures body.counterparty < |s.counterparties| && body.counterparty < |t.counterparties|
    ensures PaymentContext(t, now, p, body, terms) == PaymentContext(s, now, p, body, terms)
    ensures Decide(t, p, body.agent, PaymentContext(s, now, p, body, terms))
         == Decide(s, p, body.agent, PaymentContext(s, now, p, body, terms))
  {
    SameLookups(s, t, p, body.counterparty);
    SameAggregates(s, t, now, p.owner, body.agent, now);
    SameDecision(s, t, p, body.agent, PaymentContext(s, now, p, body, terms));
  }

  lemma SameTransferContext(s: State, t: State, now: Time, p: Principal, body: TransferBody)
    requires Beside(s, t, now, p.owner) && Authentic(s, p) && Authentic(t, p) && p.credential.AgentKey?
    ensures var agent, context := p.credential.agent, TransferContext(s, now, p.credential.agent, body);
            TransferContext(t, now, agent, body) == context
            && Decide(t, p, agent, context) == Decide(s, p, agent, context)
  {
    SameAggregates(s, t, now, p.owner, p.credential.agent, now);
    SameDecision(s, t, p, p.credential.agent, TransferContext(s, now, p.credential.agent, body));
  }

  lemma SameBalances(s: State, t: State, o: Id, h: Holder)
    requires Unaffected(s, t, o) && Holds(s.agents, h, o)
    ensures Avail(t.books, h) == Avail(s.books, h)
  {
    assert SameBalance(s.books, t.books, h);
  }

  // ---- The same answers --------------------------------------------------------------------

  /** The same error, or success in both; what is created gets an id of its own in each. */
  predicate SameAnswer(r: Result<Id>, r': Result<Id>, creates: bool) {
    if r.Err? || !creates then r' == r else r'.Ok?
  }

  /** What a valid, funded order is answered. */
  function GateAnswer(s: State, p: Principal, agent: Id, context: ActionContext): Result<Id>
    requires p.owner < |s.owners| && agent < |s.agents|
  {
    if p.credential.AgentKey? && Decide(s, p, agent, context).Deny? then Err(PolicyDenied) else Ok(|s.actions|)
  }

  lemma GatedAnswer(s: State, now: Time, p: Principal, agent: Id, row: Action, context: ActionContext)
    requires BalanceRows(s.owners, s.agents, s.books.balances)
    requires Authentic(s, p) && agent < |s.agents|
    requires Fresh(s, now, p.owner, row) && Source(row) in s.books.balances
    ensures Gated(s, now, p, agent, row, context).result == GateAnswer(s, p, agent, context)
  {
    if p.credential.OwnerKey? {
      ExecuteNewShape(s, now, p.owner, row);
    } else {
      var decision := Decide(s, p, agent, context);
      var s1 := Recorded(s, p, agent, context, decision);
      match decision
      case Hold(trigger) => HoldNewShape(s1, now, p, agent, row, trigger);
      case Allow => ExecuteNewShape(s1, now, p.owner, row);
      case Deny(_) =>
    }
  }

  /** What a payment request is answered. */
  function PaymentAnswer(s: State, now: Time, p: Principal, body: PaymentBody): Result<Id>
    requires Authentic(s, p)
  {
    match PaymentTerms(s, now, p, body)
    case Err(e) => Err(e)
    case Ok(terms) =>
      if Avail(s.books, AgentHolder(body.agent)) < terms.sourceAmount then Err(InsufficientFunds)
      else GateAnswer(s, p, body.agent, PaymentContext(s, now, p, body, terms))
  }

  lemma PaymentAnswered(s: State, now: Time, p: Principal, body: PaymentBody)
    requires Inv(s, now) && Authentic(s, p)
    ensures CreatePayment(s, now, p, body).result == PaymentAnswer(s, now, p, body)
  {
    if PaymentTerms(s, now, p, body).Ok? {
      var h, terms := AgentHolder(body.agent), PaymentTerms(s, now, p, body).value;
      OpenedInv(s, now, p.owner, h);
      if Avail(s.books, h) >= terms.sourceAmount {
        TermsOpened(s, now, p, body, h);
        var s0 := OpenedIn(s, p.owner, h);
        PaymentFresh(s0, now, p, body, terms);
        GatedAnswer(s0, now, p, body.agent, NewPayment(now, p, body, terms), PaymentContext(s0, now, p, body, terms));
        assert PaymentContext(s0, now, p, body, terms) == PaymentContext(s, now, p, body, terms);
      }
    }
  }

  lemma SamePaymentAnswer(s: State, t: State, now: Time, p: Principal, body: PaymentBody)
    requires Beside(s, t, now, p.owner) && Authentic(s, p) && Authentic(t, p)
    ensures SameAnswer(PaymentAnswer(s, now, p, body), PaymentAnswer(t, now, p, body), true)
  {
    SameTerms(s, t, now, p, body);
    if PaymentTerms(s, now, p, body).Ok? {
      SameBalances(s, t, p.owner, AgentHolder(body.agent));
      SameContext(s, t, now, p, body, PaymentTerms(s, now, p, body).value);
    }
  }

  lemma SamePayment(s: State, t: State, now: Time, p: Principal, body: PaymentBody)
    requires Beside(s, t, now, p.owner) && Authentic(s, p) && Authentic(t, p)
    ensures SameAnswer(CreatePayment(s, now, p, body).result, CreatePayment(t, now, p, body).result, true)
  {
    PaymentAnswered(s, now, p, body);
    PaymentAnswered(t, now, p, body);
    SamePaymentAnswer(s, t, now, p, body);
  }

  /** What a transfer request is answered. */
  function TransferAnswer(s: State, now: Time, p: Principal, body: TransferBody): Result<Id>
    requires Authentic(s, p)
  {
    match ValidateTransfer(s, p, body)
    case Err(e) => Err(e)
    case Ok(_) =>
      if Avail(s.books, body.source) < body.amount.amount then Err(InsufficientFunds)
      else if p.credential.OwnerKey? then Ok(|s.actions|)
      else GateAnswer(s, p, p.credential.agent, TransferContext(s, now, p.credential.agent, body))
  }

  lemma TransferAnswered(s: State, now: Time, p: Principal, body: TransferBody)
    requires Inv(s, now) && Authentic(s, p)
    ensures CreateTransfer(s, now, p, body).result == TransferAnswer(s, now, p, body)
  {
    if ValidateTransfer(s, p, body).Ok? {
      OpenedInv(s, now, p.owner, body.source);
      var s0 := OpenedIn(s, p.owner, body.source);
      if Avail(s.books, body.source) >= body.amount.amount {
        assert ValidateTransfer(s0, p, body).Ok?;
        TransferFresh(s0, now, p, body);
        if p.credential.OwnerKey? {
          ExecuteNewShape(s0, now, p.owner, NewTransfer(now, p, body));
        } else {
          var agent := p.credential.agent;
          GatedAnswer(s0, now, p, agent, NewTransfer(now, p, body), TransferContext(s0, now, agent, body));
          assert TransferContext(s0, now, agent, body) == TransferContext(s, now, agent, body);
        }
      }
    }
  }

  lemma SameTransferAnswer(s: State, t: State, now: Time, p: Principal, body: TransferBody)
    requires Beside(s, t, now, p.owner) && Authentic(s, p) && Authentic(t, p)
    ensures SameAnswer(TransferAnswer(s, now, p, body), TransferAnswer(t, now, p, body), true)
  {
    SameValidity(s, t, p, body);
    if ValidateTransfer(s, p, body).Ok? {
      SameBalances(s, t, p.owner, body.source);
      if p.credential.AgentKey? {
        SameTransferContext(s, t, now, p, body);
      }
    }
  }

  lemma SameTransfer(s: State, t: State, now: Time, p: Principal, body: TransferBody)
    requires Beside(s, t, now, p.owner) && Authentic(s, p) && Authentic(t, p)
    ensures SameAnswer(CreateTransfer(s, now, p, body).result, CreateTransfer(t, now, p, body).result, true)
  {
    TransferAnswered(s, now, p, body);
    TransferAnswered(t, now, p, body);
    SameTransferAnswer(s, t, now, p, body);
  }

  /** The number a new counterparty gets is not looked at. */
  lemma NumberIgnored(context: ActionContext, other: Id, agent: AgentContext, policy: Option<Policy>)
    requires context.actionType == CounterpartyType
    ensures Evaluate(context.(counterparty := Some(other)), agent, policy) == Evaluate(context, agent, policy)
  {
  }

  function CounterpartyContext(s: State, now: Time, agent: Id, id: Id): ActionContext {
    var (daily, monthly, today) := SpendAggregates(s.actions, agent, now);
    ActionContext(CounterpartyType, None, None, Some(id), Some(Unverified), false, None, daily, monthly, today)
  }

  lemma CounterpartyAnswered(s: State, now: Time, p: Principal, currency: Option<string>, country: Option<string>)
    requires Authentic(s, p)
    ensures CreateCounterparty(s, now, p, currency, country).result
            == if RequireScope(p, CounterpartiesCreate).Err? then Err(InsufficientScope)
               else if p.credential.AgentKey?
                    && Decide(s, p, p.credential.agent,
                              CounterpartyContext(s, now, p.credential.agent, |s.counterparties|)).Deny?
               then Err(PolicyDenied)
               else Ok(|s.counterparties|)
  {
    if p.credential.AgentKey? {
      var s1 := s.(counterparties := s.counterparties + [Counterparty(p.owner, currency, country, Unverified)]);
      assert Context(s1, now, p.credential.agent, CounterpartyType, None, None, Some(|s.counterparties|), false)
          == CounterpartyContext(s, now, p.credential.agent, |s.counterparties|);
    }
  }

  lemma SameCounterparty(s: State, t: State, now: Time, p: Principal, currency: Option<string>,
                         country: Option<string>)
    requires Beside(s, t, now, p.owner) && Authentic(s, p) && Authentic(t, p)
    ensures SameAnswer(CreateCounterparty(s, now, p, currency, country).result,
                       CreateCounterparty(t, now, p, currency, country).result, true)
  {
    CounterpartyAnswered(s, now, p, currency, country);
    CounterpartyAnswered(t, now, p, currency, country);
    if p.credential.AgentKey? {
      var agent := p.credential.agent;
      SameAggregates(s, t, now, p.owner, agent, now);
      var context := CounterpartyContext(s, now, agent, |s.counterparties|);
      SameDecision(s, t, p, agent, context);
      assert CounterpartyContext(t, now, agent, |t.counterparties|)
          == context.(counterparty := Some(|t.counterparties|));
      NumberIgnored(context, |t.counterparties|, AgentContext(t.agents[agent].status, t.owners[p.owner].verified),
                    LoadActivePolicy(t, agent));
    }
  }

  /** What a decision is checked for before anything is done. */
  function DecisionCheck(s: State, now: Time, p: Principal, k: Id): Result<Done> {
    var _ :- RequireOwner(p);
    var approval :- GetApproval(s, p, k);
    RequirePending(approval, now)
  }

  lemma DecisionAnswered(s: State, now: Time, p: Principal, k: Id)
    requires Inv(s, now) && p.owner < |s.owners|
    ensures var check := DecisionCheck(s, now, p, k);
            if check.Err? then Approve(s, now, p, k) == Err(check.error) && Reject(s, now, p, k) == Err(check.error)
            else Approve(s, now, p, k).Ok? && Reject(s, now, p, k).Ok?
  {
    if DecisionCheck(s, now, p, k).Ok? {
      DecisionSucceeds(s, now, p, k);
    }
  }

  lemma SameApproval(s: State, t: State, now: Time, p: Principal, k: Id)
    requires Beside(s, t, now, p.owner) && Authentic(s, p) && Authentic(t, p)
    ensures SameAnswer(Lift(s, Approve(s, now, p, k), k).result, Lift(t, Approve(t, now, p, k), k).result, false)
    ensures SameAnswer(Lift(s, Reject(s, now, p, k), k).result, Lift(t, Reject(t, now, p, k), k).result, false)
  {
    SameLookups(s, t, p, k);
    DecisionAnswered(s, now, p, k);
    DecisionAnswered(t, now, p, k);
  }

  lemma SameCancel(s: State, t: State, now: Time, p: Principal, id: Id)
    requires Beside(s, t, now, p.owner) && Authentic(s, p) && Authentic(t, p)
    ensures SameAnswer(Lift(s, CancelPayment(s, now, p, id), id).result,
                       Lift(t, CancelPayment(t, now, p, id), id).result, false)
  {
    SameLookups(s, t, p, id);
  }

  /** Whether the answer is the number of a new row. */
  predicate Creates(op: Op) {
    op.CreateAgentOp? || op.CreateCounterpartyOp? || op.CreateQuoteOp? || op.CreatePaymentOp? || op.CreateTransferOp?
  }

  lemma SameSetup(s: State, t: State, now: Time, op: Op)
    requires op.SetAgentStatus? || op.ReplacePolicy? || op.VerifyCounterparty? || op.ReadBalanceOp?
             || op.CreateAgentOp? || op.CreateQuoteOp?
    requires Unaffected(s, t, op.p.owner) && Authentic(s, op.p) && Authentic(t, op.p)
    ensures SameAnswer(Perform(s, now, op).result, Perform(t, now, op).result, Creates(op))
  {
    match op
    case SetAgentStatus(p, agent, _) => SameLookups(s, t, p, agent);
    case ReplacePolicy(p, agent, _) => SameLookups(s, t, p, agent);
    case VerifyCounterparty(p, c) => SameLookups(s, t, p, c);
    case ReadBalanceOp(p, agent) => SameLookups(s, t, p, if agent.Some? then agent.value else 0);
    case CreateQuoteOp(p, body) => SameQuote(s, t, now, p, body);
    case CreateAgentOp(_) =>
  }

  lemma SamePerformed(s: State, t: State, now: Time, op: Op)
    requires PrincipalOf(op).Some? && Beside(s, t, now, op.p.owner) && Authentic(s, op.p) && Authentic(t, op.p)
    ensures SameAnswer(Perform(s, now, op).result, Perform(t, now, op).result, Creates(op))
  {
    match op
    case CreatePaymentOp(p, body) => SamePayment(s, t, now, p, body);
    case CreateTransferOp(p, body) => SameTransfer(s, t, now, p, body);
    case CreateCounterpartyOp(p, currency, country) => SameCounterparty(s, t, now, p, currency, country);
    case CancelPaymentOp(p, id) => SameCancel(s, t, now, p, id);
    case ApproveOp(p, k) => SameApproval(s, t, now, p, k);
    case RejectOp(p, k) => SameApproval(s, t, now, p, k);
    case _ => SameSetup(s, t, now, op);
  }

  // ---- The same money ----------------------------------------------------------------------

  /** The owner's holders have the same money in both. */
  ghost predicate SameMoneyOf(agents: seq<Agent>, b: Books, c: Books, o: Id) {
    forall h: Holder | Holds(agents, h, o) :: Avail(c, h) == Avail(b, h) && Pend(c, h) == Pend(b, h)
  }

  lemma SameMoneyBeside(s: State, t: State, o: Id)
    requires Unaffected(s, t, o)
    ensures SameMoneyOf(s.agents, s.books, t.books, o)
  {
    forall h: Holder | Holds(s.agents, h, o)
      ensures Avail(t.books, h) == Avail(s.books, h) && Pend(t.books, h) == Pend(s.books, h)
    {
      assert SameBalance(s.books, t.books, h);
    }
  }

  /** Opening balances shows in no amount. */
  lemma SameMoneyOpened(agents: seq<Agent>, s: State, t: State, o: Id, h: Holder)
    requires SameMoneyOf(agents, s.books, t.books, o) && o < |s.owners| && o < |t.owners|
    ensures SameMoneyOf(agents, OpenedIn(s, o, h).books, OpenedIn(t, o, h).books, o)
  {
    OpenedEffect(s.books, o, OwnerCurrency(s, o), h);
    OpenedEffect(t.books, o, OwnerCurrency(t, o), h);
  }

  lemma SameMoneyExecuted(agents: seq<Agent>, b: Books, b': Books, c: Books, c': Books, row: Action, r: Resource,
                          q: Resource, fromReservation: bool, o: Id)
    requires SameMoneyOf(agents, b, c, o)
    requires ExecutedBooks(b, b', row, r, fromReservation) && ExecutedBooks(c, c', row, q, fromReservation)
    ensures SameMoneyOf(agents, b', c', o)
  {
  }

  lemma SameMoneyShuffled(agents: seq<Agent>, b: Books, c: Books, h: Holder, toPending: int, o: Id)
    requires SameMoneyOf(agents, b, c, o) && h in b.balances && h in c.balances
    ensures SameMoneyOf(agents, Changed(b, h, -toPending, toPending), Changed(c, h, -toPending, toPending), o)
  {
    ShuffleKeeps(b, h, toPending);
    ShuffleKeeps(c, h, toPending);
  }

  lemma SameMoneyNew(agents: seq<Agent>, s: State, s': State, t: State, t': State, row: Action, done: Action, o: Id)
    requires ExecutedNew(s, s', row, done) && ExecutedNew(t, t', row, done) && SameMoneyOf(agents, s.books, t.books, o)
    ensures SameMoneyOf(agents, s'.books, t'.books, o)
  {
    SameMoneyExecuted(agents, s.books, s'.books, t.books, t'.books, row, ResourceOf(row, |s.actions|),
                      ResourceOf(row, |t.actions|), false, o);
  }

  lemma SameMoneyHeld(agents: seq<Agent>, s: State, s': State, t: State, t': State, row: Action, held: Action,
                      approval: Approval, held': Action, approval': Approval, o: Id)
    requires HeldNew(s, s', row, held, approval) && HeldNew(t, t', row, held', approval')
    requires SameMoneyOf(agents, s.books, t.books, o)
    ensures SameMoneyOf(agents, s'.books, t'.books, o)
  {
    SameMoneyShuffled(agents, s.books, t.books, Source(row), row.amount, o);
  }

  lemma SameMoneyGated(agents: seq<Agent>, s: State, t: State, now: Time, p: Principal, agent: Id, row: Action,
                       context: ActionContext)
    requires BalanceRows(s.owners, s.agents, s.books.balances) && BalanceRows(t.owners, t.agents, t.books.balances)
    requires Authentic(s, p) && Authentic(t, p) && agent < |s.agents| && agent < |t.agents|
    requires Fresh(s, now, p.owner, row) && Source(row) in s.books.balances
    requires Fresh(t, now, p.owner, row) && Source(row) in t.books.balances
    requires Decide(s, p, agent, context) == Decide(t, p, agent, context)
    requires SameMoneyOf(agents, s.books, t.books, p.owner) && Gated(s, now, p, agent, row, context).result.Ok?
    requires Gated(t, now, p, agent, row, context).result.Ok?
    ensures SameMoneyOf(agents, Gated(s, now, p, agent, row, context).state.books,
                        Gated(t, now, p, agent, row, context).state.books, p.owner)
  {
    var s1 := GatedShape(s, now, p, agent, row, context);
    var t1 := GatedShape(t, now, p, agent, row, context);
    var s', t' := Gated(s, now, p, agent, row, context).state, Gated(t, now, p, agent, row, context).state;
    if p.credential.OwnerKey? || Decide(s, p, agent, context) == Allow {
      SameMoneyNew(agents, s1, s', t1, t', row, DoneRow(row, now), p.owner);
    } else {
      SameMoneyHeld(agents, s1, s', t1, t', row, HeldRow(row, now, |s1.approvals|), s'.approvals[|s1.approvals|],
                    HeldRow(row, now, |t1.approvals|), t'.approvals[|t1.approvals|], p.owner);
    }
  }

  lemma PaymentMoney(s: State, t: State, now: Time, p: Principal, body: PaymentBody)
    requires Beside(s, t, now, p.owner) && Authentic(s, p) && Authentic(t, p)
    requires CreatePayment(s, now, p, body).result.Ok? && CreatePayment(t, now, p, body).result.Ok?
    ensures SameMoneyOf(s.agents, CreatePayment(s, now, p, body).state.books,
                        CreatePayment(t, now, p, body).state.books, p.owner)
  {
    var s0, terms := CreatePaymentShape(s, now, p, body);
    var t0, terms' := CreatePaymentShape(t, now, p, body);
    SameTerms(s, t, now, p, body);
    SameContext(s, t, now, p, body, terms);
    SameMoneyBeside(s, t, p.owner);
    SameMoneyOpened(s.agents, s, t, p.owner, AgentHolder(body.agent));
    SameMoneyGated(s.agents, s0, t0, now, p, body.agent, NewPayment(now, p, body, terms),
                   PaymentContext(s, now, p, body, terms));
  }

  lemma SameMoneyDirect(agents: seq<Agent>, s: State, t: State, now: Time, o: Id, row: Action)
    requires BalanceRows(s.owners, s.agents, s.books.balances) && BalanceRows(t.owners, t.agents, t.books.balances)
    requires Fresh(s, now, o, row) && Fresh(t, now, o, row) && SameMoneyOf(agents, s.books, t.books, o)
    ensures SameMoneyOf(agents, ExecuteNew(s, now, o, row).state.books, ExecuteNew(t, now, o, row).state.books, o)
  {
    ExecuteNewShape(s, now, o, row);
    ExecuteNewShape(t, now, o, row);
    SameMoneyNew(agents, s, ExecuteNew(s, now, o, row).state, t, ExecuteNew(t, now, o, row).state, row,
                 DoneRow(row, now), o);
  }

  lemma TransferMoney(s: State, t: State, now: Time, p: Principal, body: TransferBody)
    requires Beside(s, t, now, p.owner) && Authentic(s, p) && Authentic(t, p)
    requires CreateTransfer(s, now, p, body).result.Ok? && CreateTransfer(t, now, p, body).result.Ok?
    ensures SameMoneyOf(s.agents, CreateTransfer(s, now, p, body).state.books,
                        CreateTransfer(t, now, p, body).state.books, p.owner)
  {
    var s0, agent := CreateTransferShape(s, now, p, body);
    var t0, agent' := CreateTransferShape(t, now, p, body);
    var row := NewTransfer(now, p, body);
    SameMoneyBeside(s, t, p.owner);
    SameMoneyOpened(s.agents, s, t, p.owner, body.source);
    if p.credential.OwnerKey? {
      SameMoneyDirect(s.agents, s0, t0, now, p.owner, row);
    } else {
      SameTransferContext(s, t, now, p, body);
      SameMoneyGated(s.agents, s0, t0, now, p, agent, row, TransferContext(s, now, agent, body));
    }
  }

  /** Releasing the same hold. */
  lemma ReleasedMoney(s: State, s': State, t: State, t': State, i: Id, row: Action, k: Id, approval: Approval,
                      approval': Approval, o: Id)
    requires SameMoneyOf(s.agents, s.books, t.books, o)
    requires ReleasedHold(s, s', i, row, k, approval) && ReleasedHold(t, t', i, row, k, approval')
    requires s.actions[i].owner == t.actions[i].owner == o && o < |s.owners| && o < |t.owners|
    ensures SameMoneyOf(s.agents, s'.books, t'.books, o)
  {
    SameMoneyOpened(s.agents, s, t, o, Source(row));
    SameMoneyShuffled(s.agents, OpenedIn(s, o, Source(row)).books, OpenedIn(t, o, Source(row)).books, Source(row),
                      -row.amount, o);
  }

  lemma CancelMoney(s: State, t: State, now: Time, p: Principal, id: Id)
    requires Beside(s, t, now, p.owner) && CancelPayment(s, now, p, id).Ok? && CancelPayment(t, now, p, id).Ok?
    ensures SameMoneyOf(s.agents, CancelPayment(s, now, p, id).value.books, CancelPayment(t, now, p, id).value.books,
                        p.owner)
  {
    CancelPaymentShape(s, now, p, id);
    CancelPaymentShape(t, now, p, id);
    SameLookups(s, t, p, id);
    SameMoneyBeside(s, t, p.owner);
    var s', t', k := CancelPayment(s, now, p, id).value, CancelPayment(t, now, p, id).value,
                     s.actions[id].approval.value;
    ReleasedMoney(s, s', t, t', id, CancelledRow(s.actions[id], now, CancelledByCaller), k, s'.approvals[k],
                  t'.approvals[k], p.owner);
  }

  /** What approving the hold of an action does to the books. */
  lemma ApprovedBooks(s: State, now: Time, p: Principal, k: Id) returns (i: Id)
    requires Inv(s, now) && p.owner < |s.owners| && Approve(s, now, p, k).Ok?
    requires !s.approvals[k].action.CounterpartyAction?
    ensures i == s.approvals[k].action.id < |s.actions| && s.actions[i].owner == p.owner
    ensures ExecutedBooks(s.books, Approve(s, now, p, k).value.books, s.actions[i], ResourceOf(s.actions[i], i), true)
  {
    i := s.approvals[k].action.id;
    CarriedOutShape(s, now, k, Approve(s, now, p, k).value.approvals[k]);
    assert ActionLinked(s.actions, s.approvals, i);
  }

  /** The action of an approval the owner decides is the same row in both. */
  lemma SameHold(s: State, t: State, now: Time, p: Principal, k: Id)
    requires Beside(s, t, now, p.owner) && GetApproval(s, p, k).Ok? && s.approvals[k].status == Pending
    ensures GetApproval(t, p, k).Ok? && t.approvals[k] == s.approvals[k]
    ensures var action := s.approvals[k].action;
            !action.CounterpartyAction? ==>
              action.id < |s.actions| && action.id < |t.actions| && t.actions[action.id] == s.actions[action.id]
  {
    SameLookups(s, t, p, k);
    if !s.approvals[k].action.CounterpartyAction? {
      var i := HoldOf(s, now, k);
      assert ActionLinked(s.actions, s.approvals, i);
    }
  }

  /** Deciding about a counterparty moves no money. */
  lemma CounterpartyMoney(s: State, now: Time, p: Principal, k: Id)
    requires p.owner < |s.owners| && k < |s.approvals| && s.approvals[k].action.CounterpartyAction?
    ensures Approve(s, now, p, k).Ok? ==> Approve(s, now, p, k).value.books == s.books
    ensures Reject(s, now, p, k).Ok? ==> Reject(s, now, p, k).value.books == s.books
  {
  }

  lemma ApproveMoney(s: State, t: State, now: Time, p: Principal, k: Id)
    requires Beside(s, t, now, p.owner) && Approve(s, now, p, k).Ok? && Approve(t, now, p, k).Ok?
    ensures SameMoneyOf(s.agents, Approve(s, now, p, k).value.books, Approve(t, now, p, k).value.books, p.owner)
  {
    SameHold(s, t, now, p, k);
    SameMoneyBeside(s, t, p.owner);
    if s.approvals[k].action.CounterpartyAction? {
      CounterpartyMoney(s, now, p, k);
      CounterpartyMoney(t, now, p, k);
    } else {
      var i := ApprovedBooks(s, now, p, k);
      var j := ApprovedBooks(t, now, p, k);
      SameMoneyExecuted(s.agents, s.books, Approve(s, now, p, k).value.books, t.books,
                        Approve(t, now, p, k).value.books, s.actions[i], ResourceOf(s.actions[i], i),
                        ResourceOf(s.actions[i], i), true, p.owner);
    }
  }

  lemma RejectedHold(s: State, now: Time, p: Principal, k: Id) returns (i: Id)
    requires Inv(s, now) && p.owner < |s.owners| && Reject(s, now, p, k).Ok?
    requires !s.approvals[k].action.CounterpartyAction?
    ensures i == s.approvals[k].action.id < |s.actions| && s.actions[i].owner == p.owner
    ensures var s' := Reject(s, now, p, k).value;
            k < |s'.approvals|
            && ReleasedHold(s, s', i, CancelledRow(s.actions[i], now, OwnerRejected), k, s'.approvals[k])
  {
    i := s.approvals[k].action.id;
    var s' := Reject(s, now, p, k).value;
    UnwoundShape(s, s', now, p.owner, k, OwnerRejected, s'.approvals[k]);
    assert ActionLinked(s.actions, s.approvals, i);
  }

  lemma RejectMoney(s: State, t: State, now: Time, p: Principal, k: Id)
    requires Beside(s, t, now, p.owner) && Reject(s, now, p, k).Ok? && Reject(t, now, p, k).Ok?
    ensures SameMoneyOf(s.agents, Reject(s, now, p, k).value.books, Reject(t, now, p, k).value.books, p.owner)
  {
    SameHold(s, t, now, p, k);
    SameMoneyBeside(s, t, p.owner);
    if s.approvals[k].action.CounterpartyAction? {
      CounterpartyMoney(s, now, p, k);
      CounterpartyMoney(t, now, p, k);
    } else {
      var i := RejectedHold(s, now, p, k);
      var j := RejectedHold(t, now, p, k);
      var s', t' := Reject(s, now, p, k).value, Reject(t, now, p, k).value;
      ReleasedMoney(s, s', t, t', i, CancelledRow(s.actions[i], now, OwnerRejected), k, s'.approvals[k],
                    t'.approvals[k], p.owner);
    }
  }

  /** Decides or cancels a hold. */
  predicate Settles(op: Op) {
    op.CancelPaymentOp? || op.ApproveOp? || op.RejectOp?
  }

  /** The other requests move no money. */
  lemma SetupMoves(s: State, now: Time, op: Op, h: Holder)
    requires PrincipalOf(op).Some? && Authentic(s, op.p) && Perform(s, now, op).result.Ok?
    requires !CreatesAction(op) && !Settles(op)
    ensures var b' := Perform(s, now, op).state.books;
            Avail(b', h) == Avail(s.books, h) && Pend(b', h) == Pend(s.books, h)
  {
  }

  lemma SetupMoney(s: State, t: State, now: Time, op: Op)
    requires PrincipalOf(op).Some? && Unaffected(s, t, op.p.owner) && Authentic(s, op.p) && Authentic(t, op.p)
    requires Perform(s, now, op).result.Ok? && Perform(t, now, op).result.Ok?
    requires !CreatesAction(op) && !Settles(op)
    ensures SameMoneyOf(s.agents, Perform(s, now, op).state.books, Perform(t, now, op).state.books, op.p.owner)
  {
    SameMoneyBeside(s, t, op.p.owner);
    forall h: Holder | Holds(s.agents, h, op.p.owner)
      ensures var b, c := Perform(s, now, op).state.books, Perform(t, now, op).state.books;
              Avail(c, h) == Avail(b, h) && Pend(c, h) == Pend(b, h)
    {
      SetupMoves(s, now, op, h);
      SetupMoves(t, now, op, h);
    }
  }

  lemma OrderedMoney(s: State, t: State, now: Time, op: Op)
    requires CreatesAction(op) && Beside(s, t, now, op.p.owner) && Authentic(s, op.p) && Authentic(t, op.p)
    requires Perform(s, now, op).result.Ok? && Perform(t, now, op).result.Ok?
    ensures SameMoneyOf(s.agents, Perform(s, now, op).state.books, Perform(t, now, op).state.books, op.p.owner)
  {
    match op
    case CreatePaymentOp(p, body) => PaymentMoney(s, t, now, p, body);
    case CreateTransferOp(p, body) => TransferMoney(s, t, now, p, body);
  }

  lemma SettledMoney(s: State, t: State, now: Time, op: Op)
    requires Settles(op) && Beside(s, t, now, op.p.owner) && Authentic(s, op.p) && Authentic(t, op.p)
    requires Perform(s, now, op).result.Ok? && Perform(t, now, op).result.Ok?
    ensures SameMoneyOf(s.agents, Perform(s, now, op).state.books, Perform(t, now, op).state.books, op.p.owner)
  {
    match op
    case CancelPaymentOp(p, id) => CancelMoney(s, t, now, p, id);
    case ApproveOp(p, k) => ApproveMoney(s, t, now, p, k);
    case RejectOp(p, k) => RejectMoney(s, t, now, p, k);
  }

  lemma PerformedMoney(s: State, t: State, now: Time, op: Op)
    requires PrincipalOf(op).Some? && Beside(s, t, now, op.p.owner) && Authentic(s, op.p) && Authentic(t, op.p)
    requires Perform(s, now, op).result.Ok? && Perform(t, now, op).result.Ok?
    ensures SameMoneyOf(s.agents, Perform(s, now, op).state.books, Perform(t, now, op).state.books, op.p.owner)
  {
    if CreatesAction(op) {
      OrderedMoney(s, t, now, op);
    } else if Settles(op) {
      SettledMoney(s, t, now, op);
    } else {
      SetupMoney(s, t, now, op);
    }
  }

  lemma FailedBooks(s: State, now: Time, op: Op)
    requires Step(s, now, op).result.Err?
    ensures Step(s, now, op).state.books == s.books
  {
  }

  // ---- Main results ------------------------------------------------------------------------

  lemma SameStep(s: State, t: State, now: Time, op: Op)
    requires PrincipalOf(op).Some? && Beside(s, t, now, op.p.owner)
    ensures SameAnswer(Step(s, now, op).result, Step(t, now, op).result, Creates(op))
    ensures SameMoneyOf(s.agents, Step(s, now, op).state.books, Step(t, now, op).state.books, op.p.owner)
  {
    SameAuthentic(s, t, op.p);
    if Authentic(s, op.p) {
      SamePerformed(s, t, now, op);
    }
    if Step(s, now, op).result.Ok? {
      PerformedMoney(s, t, now, op);
    } else {
      FailedBooks(s, now, op);
      FailedBooks(t, now, op);
      SameMoneyBeside(s, t, op.p.owner);
    }
  }

  lemma BesideRun(s: State, start: Time, events: seq<Event>, now: Time, o: Id)
    requires Inv(s, start) && InitiatorInv(s) && Possible(s, start, events) && o < |s.owners|
    requires ForeignRun(s, events, o) && start <= now && Clock(start, events) <= now
    ensures Beside(s, Run(s, events), now, o)
  {
    RunInv(s, start, events);
    AdvanceClock(s, start, now);
    AdvanceClock(Run(s, events), Clock(start, events), now);
    RunInitiators(s, start, events);
    RunUnaffected(s, start, events, o);
    RunExtends(s, start, events);
  }

  /** In every reachable database, a request of an owner's is answered the same, error for error, and
      leaves the owner's holders with the same money, whether it is made at once or after any run that
      does not concern the owner. */
  lemma AnswersUnaffected(s: State, start: Time, events: seq<Event>, now: Time, op: Op)
    requires Reachable(s, start) && Possible(s, start, events) && start <= now && Clock(start, events) <= now
    requires PrincipalOf(op).Some? && op.p.owner < |s.owners| && ForeignRun(s, events, op.p.owner)
    ensures SameAnswer(Step(s, now, op).result, Step(Run(s, events), now, op).result, Creates(op))
    ensures SameMoneyOf(s.agents, Step(s, now, op).state.books, Step(Run(s, events), now, op).state.books, op.p.owner)
  {
    ReachableInv(s, start);
    ReachableInitiators(s, start);
    BesideRun(s, start, events, now, op.p.owner);
    SameStep(s, Run(s, events), now, op);
  }
}
