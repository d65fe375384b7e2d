/** The service as a machine: one atomic step per service call, with the rollback of
    db.py around it, and runs of such steps under a clock that never goes back. */
module Machine {
  import opened Prelude
  import opened Models
  import opened PolicyEngine
  import opened Calendar
  import opened Sandbox
  import opened BooksModel
  import opened PolicyGateModel
  import opened PaymentsModel
  import opened ApprovalsModel

  datatype Op =
    | OnboardOwner(row: Owner)
    | FundHolder(holder: Holder, funding: int)
    | CreateAgentOp(p: Principal)
    | SetAgentStatus(p: Principal, agent: Id, status: AgentStatus)
    | ReplacePolicy(p: Principal, agent: Id, policy: Policy)
    | CreateCounterpartyOp(p: Principal, destinationCurrency: Option<Currency>, destinationCountry: Option<string>)
    | VerifyCounterparty(p: Principal, counterparty: Id)
    | CreateQuoteOp(p: Principal, quote: QuoteBody)
    | ReadBalanceOp(p: Principal, agentToRead: Option<Id>)
    | CreatePaymentOp(p: Principal, payment: PaymentBody)
    | CancelPaymentOp(p: Principal, id: Id)
    | CreateTransferOp(p: Principal, transfer: TransferBody)
    | ApproveOp(p: Principal, id: Id)
    | RejectOp(p: Principal, id: Id)
    | ExpireStaleOp(order: seq<Id>)

  /** The principal of a request; the bootstrap and the worker have none. */
  function PrincipalOf(op: Op): Option<Principal> {
    match op
    case OnboardOwner(_) => None
    case FundHolder(_, _) => None
    case ExpireStaleOp(_) => None
    case _ => Some(op.p)
  }

  function Lift(s: State, r: Result<State>, id: Id): Outcome {
    match r
    case Ok(s') => Outcome(s', Ok(id))
    case Err(e) => Outcome(s, Err(e))
  }

  // ---- Setup operations --------------------------------------------------------------------

  /** The owner a holder's money belongs to. */
  function HolderOwner(s: State, h: Holder): Option<Id> {
    match h
    case Treasury(owner) => if owner < |s.owners| then Some(owner) else None
    case AgentHolder(agent) => if agent < |s.agents| then Some(s.agents[agent].owner) else None
  }

  /** Inbound money for an existing holder, under the owner the holder belongs to. */
  function FundExisting(s: State, h: Holder, amount: int): Result<State> {
    match HolderOwner(s, h)
    case None => Err(RowMissing)
    case Some(owner) =>
      if owner >= |s.owners| then Err(RowMissing)
      else
        var books :- Fund(s.books, owner, OwnerCurrency(s, owner), h, amount);
        Ok(s.(books := books))
  }

  function CreateAgent(s: State, p: Principal): Result<State>
    requires p.owner < |s.owners|
  {
    var _ :- RequireOwner(p);
    var s1 := s.(agents := s.agents + [Agent(p.owner, Active, 0)]);
    Ok(OpenedIn(s1, p.owner, AgentHolder(|s.agents|)))
  }

  function ChangeAgentStatus(s: State, p: Principal, agent: Id, status: AgentStatus): Result<State> {
    var _ :- RequireOwner(p);
    var row :- GetAgent(s, p, agent);
    Ok(s.(agents := s.agents[agent := row.(status := status)]))
  }

  /** A policy is replaced whole, under the next version. */
  function ChangePolicy(s: State, p: Principal, agent: Id, policy: Policy): Result<State> {
    var _ :- RequireOwner(p);
    var row :- GetAgent(s, p, agent);
    var version := row.policyVersion + 1;
    Ok(s.(policies := s.policies[(agent, version) := policy],
          agents := s.agents[agent := row.(policyVersion := version)]))
  }

  /** An agent's new counterparty is evaluated, and may raise an approval of its own. */
  function CreateCounterparty(s: State, now: Time, p: Principal, destinationCurrency: Option<Currency>,
                              destinationCountry: Option<string>): Outcome
    requires Authentic(s, p)
  {
    var id := |s.counterparties|;
    var s1 := s.(counterparties := s.counterparties
                                   + [Counterparty(p.owner, destinationCurrency, destinationCountry, Unverified)]);
    if RequireScope(p, CounterpartiesCreate).Err? then Outcome(s, Err(InsufficientScope))
    else if p.credential.OwnerKey? then Outcome(s1, Ok(id))
    else
      var agent := p.credential.agent;
      var context := Context(s1, now, agent, CounterpartyType, None, None, Some(id), false);
      var decision := Decide(s1, p, agent, context);
      var s2 := Recorded(s1, p, agent, context, decision);
      match decision
      case Deny(_) => Outcome(s2, Err(PolicyDenied))
      case Hold(trigger) =>
        Outcome(s2.(approvals := s2.approvals + [NewApproval(s2, now, p, agent, trigger, CounterpartyAction(id))]),
                Ok(id))
      case Allow => Outcome(s2, Ok(id))
  }

  function Verify(s: State, p: Principal, id: Id): Result<State> {
    var _ :- RequireOwner(p);
    var _ :- GetCounterparty(s, p, id);
    Ok(WithCounterparty(s, id, Verified))
  }

  /** Reading one agent's balance, or listing balances; both open the balance they show first. */
  function ReadBalance(s: State, p: Principal, agent: Option<Id>): Result<State>
    requires p.owner < |s.owners|
  {
    var _ :- RequireScope(p, BalanceRead);
    match agent
    case Some(id) =>
      var _ :- GetAgent(s, p, id);
      Ok(OpenedIn(s, p.owner, AgentHolder(id)))
    case None =>
      Ok(OpenedIn(s, p.owner, if p.credential.AgentKey? then AgentHolder(p.credential.agent) else Treasury(p.owner)))
  }

  // ---- Steps and runs ----------------------------------------------------------------------

  /** What the service call does inside its transaction. */
  function Perform(s: State, now: Time, op: Op): Outcome
    requires PrincipalOf(op).Some? ==> Authentic(s, PrincipalOf(op).value)
  {
    match op
    case OnboardOwner(row) => Outcome(s.(owners := s.owners + [row]), Ok(|s.owners|))
    case FundHolder(h, amount) => Lift(s, FundExisting(s, h, amount), 0)
    case CreateAgentOp(p) => Lift(s, CreateAgent(s, p), |s.agents|)
    case SetAgentStatus(p, agent, status) => Lift(s, ChangeAgentStatus(s, p, agent, status), agent)
    case ReplacePolicy(p, agent, policy) => Lift(s, ChangePolicy(s, p, agent, policy), agent)
    case CreateCounterpartyOp(p, currency, country) => CreateCounterparty(s, now, p, currency, country)
    case VerifyCounterparty(p, id) => Lift(s, Verify(s, p, id), id)
    case CreateQuoteOp(p, body) => CreateQuote(s, now, p, body)
    case ReadBalanceOp(p, agent) => Lift(s, ReadBalance(s, p, agent), 0)
    case CreatePaymentOp(p, body) => CreatePayment(s, now, p, body)
    case CancelPaymentOp(p, id) => Lift(s, CancelPayment(s, now, p, id), id)
    case CreateTransferOp(p, body) => CreateTransfer(s, now, p, body)
    case ApproveOp(p, k) => Lift(s, Approve(s, now, p, k), k)
    case RejectOp(p, k) => Lift(s, Reject(s, now, p, k), k)
    case ExpireStaleOp(order) => Lift(s, ExpireAll(s, now, order), |order|)
  }

  /** A step that may happen: the sweep processes exactly the stale approvals, in some order. */
  ghost predicate Enabled(s: State, now: Time, op: Op) {
    op.ExpireStaleOp? ==> ListsStale(s, now, op.order)
  }

  /** Commit on success; on an error everything is rolled back but the denial record. */
  function Settled(s: State, o: Outcome): Outcome {
    if o.result.Ok? then o else Outcome(s.(denials := o.state.denials), o.result)
  }

  function Step(s: State, now: Time, op: Op): Outcome {
    if PrincipalOf(op).Some? && !Authentic(s, PrincipalOf(op).value) then Outcome(s, Err(Unauthorized))
    else Settled(s, Perform(s, now, op))
  }

  datatype Event = Event(now: Time, op: Op)

  /** The state after a run of events. */
  function Run(s: State, events: seq<Event>): State {
    if events == [] then s
    else
      var last := events[|events| - 1];
      Step(Run(s, events[..|events| - 1]), last.now, last.op).state
  }

  /** The clock reading after a run. */
  function Clock(start: Time, events: seq<Event>): Time {
    if events == [] then start else events[|events| - 1].now
  }

  /** A run that may happen from `s` at clock `start`. */
  ghost predicate Possible(s: State, start: Time, events: seq<Event>) {
    events == [] ||
    var before, last := events[..|events| - 1], events[|events| - 1];
    && Possible(s, start, before)
    && Clock(start, before) <= last.now
    && Enabled(Run(s, before), last.now, last.op)
  }
}
