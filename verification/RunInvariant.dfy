/** Every step of the machine keeps the invariant, so every reachable database has it. */
module RunInvariant {
  import opened Prelude
  import opened Models
  import opened PolicyEngine
  import opened Calendar
  import opened Sandbox
  import opened BooksEffects
  import opened PolicyGateModel
  import opened PaymentsModel
  import opened ApprovalsModel
  import opened Machine
  import opened MoneyInvariant
  import opened Invariant
  import opened Steps
  import opened StepInvariant
  import opened Sweep

  lemma AdvanceClock(s: State, clock: Time, now: Time)
    requires Inv(s, clock) && clock <= now
    ensures Inv(s, now)
  {
    RowsGrow(s, s, clock, now);
  }

  // ---- Setup operations --------------------------------------------------------------------

  lemma OnboardInv(s: State, now: Time, row: Owner)
    requires Inv(s, now)
    ensures Inv(s.(owners := s.owners + [row]), now)
  {
    RowsGrow(s, s.(owners := s.owners + [row]), now, now);
  }

  lemma FundInv(s: State, now: Time, h: Holder, amount: int)
    requires Inv(s, now) && FundExisting(s, h, amount).Ok?
    ensures Inv(FundExisting(s, h, amount).value, now)
  {
    var owner := HolderOwner(s, h).value;
    var currency := OwnerCurrency(s, owner);
    OwnedDenomination(s, h, owner, currency);
    FundEffect(s.books, owner, currency, h, amount);
    FundMoney(s.books, s.actions, owner, currency, h, amount);
  }

  /** Agents may be added, suspended, or given a new policy version, but never change owner. */
  lemma AgentsInv(s: State, s': State, now: Time)
    requires Inv(s, now)
    requires s' == s.(agents := s'.agents, policies := s'.policies)
    requires |s.agents| <= |s'.agents| && forall a :: 0 <= a < |s.agents| ==> s'.agents[a].owner == s.agents[a].owner
    requires AgentRows(s'.owners, s'.agents) && PolicyRows(s'.agents, s'.policies)
    ensures Inv(s', now)
  {
    RowsGrow(s, s', now, now);
  }

  lemma CreateAgentInv(s: State, now: Time, p: Principal)
    requires Inv(s, now) && p.owner < |s.owners| && CreateAgent(s, p).Ok?
    ensures Inv(CreateAgent(s, p).value, now)
  {
    var s1 := s.(agents := s.agents + [Agent(p.owner, Active, 0)]);
    AgentsInv(s, s1, now);
    OpenedInv(s1, now, p.owner, AgentHolder(|s.agents|));
  }

  lemma ChangeAgentInv(s: State, now: Time, p: Principal, agent: Id, status: AgentStatus, policy: Policy)
    requires Inv(s, now)
    ensures ChangeAgentStatus(s, p, agent, status).Ok? ==> Inv(ChangeAgentStatus(s, p, agent, status).value, now)
    ensures ChangePolicy(s, p, agent, policy).Ok? ==> Inv(ChangePolicy(s, p, agent, policy).value, now)
  {
    if ChangeAgentStatus(s, p, agent, status).Ok? {
      AgentsInv(s, ChangeAgentStatus(s, p, agent, status).value, now);
    }
    if ChangePolicy(s, p, agent, policy).Ok? {
      AgentsInv(s, ChangePolicy(s, p, agent, policy).value, now);
    }
  }

  lemma LinkedMoreCounterparties(s: State, counterparties: seq<Counterparty>)
    requires Linked(s.actions, s.approvals, s.counterparties)
    requires |s.counterparties| <= |counterparties|
    requires forall c :: 0 <= c < |s.counterparties| ==> counterparties[c].owner == s.counterparties[c].owner
    ensures Linked(s.actions, s.approvals, counterparties)
  {
    forall k: Id | k < |s.approvals| ensures ApprovalLinked(s.actions, s.approvals, counterparties, k) {
      assert ApprovalLinked(s.actions, s.approvals, s.counterparties, k);
    }
  }

  lemma LinkedCounterpartyApproval(actions: seq<Action>, approvals: seq<Approval>, counterparties: seq<Counterparty>,
                                   a: Approval)
    requires Linked(actions, approvals, counterparties)
    requires a.action.CounterpartyAction? && a.action.id < |counterparties|
    requires counterparties[a.action.id].owner == a.owner
    ensures Linked(actions, approvals + [a], counterparties)
  {
    var approvals' := approvals + [a];
    forall i: Id | i < |actions| ensures ActionLinked(actions, approvals', i) {
      assert ActionLinked(actions, approvals, i);
    }
    forall k: Id | k < |approvals'| ensures ApprovalLinked(actions, approvals', counterparties, k) {
      if k < |approvals| {
        assert ApprovalLinked(actions, approvals, counterparties, k);
      }
    }
  }

  lemma CreateCounterpartyInv(s: State, now: Time, p: Principal, currency: Option<Currency>, country: Option<string>)
    requires Inv(s, now) && Authentic(s, p)
    requires CreateCounterparty(s, now, p, currency, country).result.Ok?
    ensures Inv(CreateCounterparty(s, now, p, currency, country).state, now)
  {
    var s' := CreateCounterparty(s, now, p, currency, country).state;
    LinkedMoreCounterparties(s, s'.counterparties);
    if |s'.approvals| > |s.approvals| {
      LinkedCounterpartyApproval(s.actions, s.approvals, s'.counterparties, s'.approvals[|s.approvals|]);
    }
  }

  lemma VerifyInv(s: State, now: Time, p: Principal, c: Id)
    requires Inv(s, now) && Verify(s, p, c).Ok?
    ensures Inv(Verify(s, p, c).value, now)
  {
    LinkedMoreCounterparties(s, Verify(s, p, c).value.counterparties);
  }

  lemma CreateQuoteInv(s: State, now: Time, p: Principal, body: QuoteBody)
    requires Inv(s, now) && p.owner < |s.owners| && CreateQuote(s, now, p, body).result.Ok?
    ensures Inv(CreateQuote(s, now, p, body).state, now)
  {
    RowsGrow(s, CreateQuote(s, now, p, body).state, now, now);
  }

  lemma ReadBalanceInv(s: State, now: Time, p: Principal, agent: Option<Id>)
    requires Inv(s, now) && Authentic(s, p) && ReadBalance(s, p, agent).Ok?
    ensures Inv(ReadBalance(s, p, agent).value, now)
  {
    var h := if agent.Some? then AgentHolder(agent.value)
             else if p.credential.AgentKey? then AgentHolder(p.credential.agent) else Treasury(p.owner);
    OpenedInv(s, now, p.owner, h);
  }

  // ---- Steps and runs ----------------------------------------------------------------------

  lemma ChangeAgentStatusInv(s: State, now: Time, p: Principal, agent: Id, status: AgentStatus)
    requires Inv(s, now) && ChangeAgentStatus(s, p, agent, status).Ok?
    ensures Inv(ChangeAgentStatus(s, p, agent, status).value, now)
  {
    AgentsInv(s, ChangeAgentStatus(s, p, agent, status).value, now);
  }

  lemma SweepInv(s: State, now: Time, order: seq<Id>)
    requires Inv(s, now) && ListsStale(s, now, order)
    ensures ExpireAll(s, now, order).Ok? && Inv(ExpireAll(s, now, order).value, now)
  {
    assert AllPending(s, order);
    ExpireAllEffect(s, now, order);
  }

  lemma CancelPaymentInv(s: State, now: Time, p: Principal, id: Id)
    requires Inv(s, now) && p.owner < |s.owners| && CancelPayment(s, now, p, id).Ok?
    ensures Inv(CancelPayment(s, now, p, id).value, now)
  {
    CancelPaymentShape(s, now, p, id);
    var s', k := CancelPayment(s, now, p, id).value, s.actions[id].approval.value;
    ReleasedHoldInv(s, s', now, id, CancelledRow(s.actions[id], now, CancelledByCaller), k, s'.approvals[k]);
  }

  lemma PerformInv(s: State, now: Time, op: Op)
    requires Inv(s, now) && Enabled(s, now, op)
    requires PrincipalOf(op).Some? ==> Authentic(s, PrincipalOf(op).value)
    requires Perform(s, now, op).result.Ok?
    ensures Inv(Perform(s, now, op).state, now)
  {
    match op
    case OnboardOwner(row) => OnboardInv(s, now, row);
    case FundHolder(h, amount) => FundInv(s, now, h, amount);
    case CreateAgentOp(p) => CreateAgentInv(s, now, p);
    case SetAgentStatus(p, agent, status) => ChangeAgentStatusInv(s, now, p, agent, status);
    case ReplacePolicy(p, agent, policy) => ChangeAgentInv(s, now, p, agent, Active, policy);
    case CreateCounterpartyOp(p, currency, country) => CreateCounterpartyInv(s, now, p, currency, country);
    case VerifyCounterparty(p, c) => VerifyInv(s, now, p, c);
    case CreateQuoteOp(p, body) => CreateQuoteInv(s, now, p, body);
    case ReadBalanceOp(p, agent) => ReadBalanceInv(s, now, p, agent);
    case CreatePaymentOp(p, body) => CreatePaymentInv(s, now, p, body);
    case CancelPaymentOp(p, id) => CancelPaymentInv(s, now, p, id);
    case CreateTransferOp(p, body) => CreateTransferInv(s, now, p, body);
    case ApproveOp(p, k) => ApproveInv(s, now, p, k);
    case RejectOp(p, k) => RejectInv(s, now, p, k);
    case ExpireStaleOp(order) => SweepInv(s, now, order);
  }

  /** Every step keeps the invariant, whether it succeeds, fails or is denied. */
  lemma StepInv(s: State, clock: Time, now: Time, op: Op)
    requires Inv(s, clock) && clock <= now && Enabled(s, now, op)
    ensures Inv(Step(s, now, op).state, now)
  {
    AdvanceClock(s, clock, now);
    if PrincipalOf(op).Some? && !Authentic(s, PrincipalOf(op).value) {
    } else {
      var o := Perform(s, now, op);
      if o.result.Ok? {
        PerformInv(s, now, op);
      } else {
        RecordsInv(s, Settled(s, o).state, now);
      }
    }
  }

  /** The invariant holds after every possible run. */
  lemma {:induction false} RunInv(s: State, start: Time, events: seq<Event>)
    requires Inv(s, start) && Possible(s, start, events)
    ensures Inv(Run(s, events), Clock(start, events))
  {
    if events != [] {
      var before, last := events[..|events| - 1], events[|events| - 1];
      RunInv(s, start, before);
      StepInv(Run(s, before), Clock(start, before), last.now, last.op);
    }
  }

  /** A database the service can get into, starting empty. */
  ghost predicate Reachable(s: State, clock: Time) {
    exists start: Time, events: seq<Event> ::
      Possible(EMPTY, start, events) && s == Run(EMPTY, events) && clock == Clock(start, events)
  }

  lemma ReachableInv(s: State, clock: Time)
    requires Reachable(s, clock)
    ensures Inv(s, clock)
  {
    var start: Time, events: seq<Event> :|
      Possible(EMPTY, start, events) && s == Run(EMPTY, events) && clock == Clock(start, events);
    EmptyInv(start);
    RunInv(EMPTY, start, events);
  }
}
