/** The audit trail of the policy: every request an agent gets as far as its policy leaves exactly
    one record of the decision, whatever the decision was. */
module Evaluations {
  import opened Prelude
  import opened Models
  import opened PolicyEngine
  import opened Calendar
  import opened BooksModel
  import opened Tallies
  import opened PolicyGateModel
  import opened PaymentsModel
  import opened ApprovalsModel
  import opened Machine
  import opened Invariant
  import opened Steps
  import opened StepInvariant
  import opened RunInvariant

  /** The requests of an agent that its policy is asked about. */
  predicate ByAgent(op: Op) {
    (op.CreatePaymentOp? || op.CreateTransferOp? || op.CreateCounterpartyOp?) && op.p.credential.AgentKey?
  }

  /** The request passes every check that comes before the policy. */
  predicate Reaches(s: State, now: Time, op: Op)
    requires ByAgent(op) && Authentic(s, op.p)
  {
    match op
    case CreatePaymentOp(p, body) =>
      var terms := PaymentTerms(s, now, p, body);
      terms.Ok? && terms.value.sourceAmount <= Avail(s.books, AgentHolder(body.agent))
    case CreateTransferOp(p, body) =>
      ValidateTransfer(s, p, body).Ok? && body.amount.amount <= Avail(s.books, body.source)
    case CreateCounterpartyOp(p, _, _) => RequireScope(p, CounterpartiesCreate).Ok?
  }

  predicate Evaluated(s: State, now: Time, op: Op) {
    ByAgent(op) && Authentic(s, op.p) && Reaches(s, now, op)
  }

  /** One more record: with the request's own events, or, for a denial, among the denials. */
  predicate Added(s: State, s': State, e: Evaluation) {
    if e.decision.Deny? then s'.denials == s.denials + [e] && s'.events == s.events
    else s'.events == s.events + [e] && s'.denials == s.denials
  }

  /** What the engine is asked: the action, with the agent's current usage. */
  function Asked(s: State, now: Time, op: Op): ActionContext
    requires Evaluated(s, now, op)
  {
    match op
    case CreatePaymentOp(p, body) => PaymentContext(s, now, p, body, PaymentTerms(s, now, p, body).value)
    case CreateTransferOp(p, body) => TransferContext(s, now, p.credential.agent, body)
    case CreateCounterpartyOp(p, currency, country) =>
      var (daily, monthly, today) := SpendAggregates(s.actions, p.credential.agent, now);
      ActionContext(CounterpartyType, None, None, Some(|s.counterparties|), Some(Unverified), false, None, daily,
                    monthly, today)
  }

  /** The record due: the engine's decision under the agent's current policy. */
  function RecordDue(s: State, now: Time, op: Op): Evaluation
    requires Evaluated(s, now, op)
  {
    var asked := Asked(s, now, op);
    AnswerTo(s, op.p, asked)
  }

  function AnswerTo(s: State, p: Principal, asked: ActionContext): Evaluation
    requires Authentic(s, p) && p.credential.AgentKey?
  {
    var agent := p.credential.agent;
    Evaluation(p.owner, agent, p.credential, asked.actionType, asked.amount, s.agents[agent].policyVersion,
               Decide(s, p, agent, asked))
  }

  /** The call left the record `e` and no other, and ended as the recorded decision says: denied,
      held with one more approval, or carried out. */
  predicate Answers(s: State, o: Outcome, e: Evaluation) {
    && Added(s, o.state, e)
    && o.result.Ok? == !e.decision.Deny?
    && (e.decision.Deny? ==> o.result == Err(PolicyDenied))
    && |o.state.approvals| == |s.approvals| + (if e.decision.Hold? then 1 else 0)
  }

  lemma HeldAnswers(s: State, now: Time, p: Principal, agent: Id, row: Action, trigger: HoldTrigger)
    requires agent < |s.agents| && Source(row) in s.books.balances && Fresh(s, now, p.owner, row)
    ensures var o := HoldNew(s, now, p, agent, row, trigger);
            && o.result.Ok? && |o.state.approvals| == |s.approvals| + 1
            && o.state.events == s.events && o.state.denials == s.denials
  {
  }

  lemma AllowedAnswers(s: State, now: Time, owner: Id, row: Action)
    requires BalanceRows(s.owners, s.agents, s.books.balances) && Fresh(s, now, owner, row)
    ensures var o := ExecuteNew(s, now, owner, row);
            && o.result.Ok? && o.state.approvals == s.approvals
            && o.state.events == s.events && o.state.denials == s.denials
  {
    ExecuteNewShape(s, now, owner, row);
  }

  lemma GatedAnswers(s: State, now: Time, p: Principal, row: Action, context: ActionContext)
    requires BalanceRows(s.owners, s.agents, s.books.balances)
    requires Authentic(s, p) && p.credential.AgentKey?
    requires Fresh(s, now, p.owner, row) && Source(row) in s.books.balances
    ensures Answers(s, Settled(s, Gated(s, now, p, p.credential.agent, row, context)), AnswerTo(s, p, context))
  {
    var agent := p.credential.agent;
    var decision := Decide(s, p, agent, context);
    var s1 := Recorded(s, p, agent, context, decision);
    match decision
    case Hold(trigger) => HeldAnswers(s1, now, p, agent, row, trigger);
    case Allow => AllowedAnswers(s1, now, p.owner, row);
    case Deny(_) =>
  }

  lemma PaymentAnswers(s: State, now: Time, p: Principal, body: PaymentBody)
    requires Inv(s, now) && Evaluated(s, now, CreatePaymentOp(p, body))
    ensures Answers(s, Settled(s, CreatePayment(s, now, p, body)), RecordDue(s, now, CreatePaymentOp(p, body)))
  {
    var h, terms := AgentHolder(body.agent), PaymentTerms(s, now, p, body).value;
    TermsOpened(s, now, p, body, h);
    OpenedInv(s, now, p.owner, h);
    var s0 := OpenedIn(s, p.owner, h);
    PaymentFresh(s0, now, p, body, terms);
    var context := PaymentContext(s0, now, p, body, terms);
    GatedAnswers(s0, now, p, NewPayment(now, p, body, terms), context);
    assert CreatePayment(s, now, p, body) == Gated(s0, now, p, body.agent, NewPayment(now, p, body, terms), context);
    assert context == PaymentContext(s, now, p, body, terms);
  }

  lemma TransferAnswers(s: State, now: Time, p: Principal, body: TransferBody)
    requires Inv(s, now) && Evaluated(s, now, CreateTransferOp(p, body))
    ensures Answers(s, Settled(s, CreateTransfer(s, now, p, body)), RecordDue(s, now, CreateTransferOp(p, body)))
  {
    OpenedInv(s, now, p.owner, body.source);
    var s0 := OpenedIn(s, p.owner, body.source);
    assert ValidateTransfer(s0, p, body).Ok?;
    TransferFresh(s0, now, p, body);
    GatedAnswers(s0, now, p, NewTransfer(now, p, body), TransferContext(s0, now, p.credential.agent, body));
    assert TransferContext(s0, now, p.credential.agent, body) == TransferContext(s, now, p.credential.agent, body);
  }

  lemma CounterpartyAnswers(s: State, now: Time, p: Principal, currency: Option<string>, country: Option<string>)
    requires Evaluated(s, now, CreateCounterpartyOp(p, currency, country))
    ensures Answers(s, Settled(s, CreateCounterparty(s, now, p, currency, country)),
                    RecordDue(s, now, CreateCounterpartyOp(p, currency, country)))
  {
    var s1 := s.(counterparties := s.counterparties + [Counterparty(p.owner, currency, country, Unverified)]);
    assert Context(s1, now, p.credential.agent, CounterpartyType, None, None, Some(|s.counterparties|), false)
        == Asked(s, now, CreateCounterpartyOp(p, currency, country));
  }

  /** A call that does not reach the policy neither succeeds nor is denied, and leaves no record. */
  lemma NotReached(s: State, now: Time, op: Op)
    requires ByAgent(op) && Authentic(s, op.p) && !Reaches(s, now, op)
    ensures Perform(s, now, op).result.Err? && Perform(s, now, op).result != Err(PolicyDenied)
    ensures Perform(s, now, op).state.denials == s.denials
  {
  }

  lemma {:induction false} ExpireAllRecords(s: State, now: Time, ks: seq<Id>)
    ensures ExpireAll(s, now, ks).Ok? ==>
              ExpireAll(s, now, ks).value.events == s.events && ExpireAll(s, now, ks).value.denials == s.denials
  {
    if ks != [] {
      ExpireAllRecords(s, now, ks[..|ks| - 1]);
    }
  }

  /** An owner's request is not evaluated. */
  lemma OwnerRecords(s: State, now: Time, op: Op)
    requires op.CreatePaymentOp? || op.CreateTransferOp? || op.CreateCounterpartyOp?
    requires Authentic(s, op.p) && op.p.credential.OwnerKey?
    ensures var s' := Perform(s, now, op).state; s'.events == s.events && s'.denials == s.denials
  {
  }

  lemma OthersRecord(s: State, now: Time, op: Op)
    requires !ByAgent(op) && (PrincipalOf(op).Some? ==> Authentic(s, PrincipalOf(op).value))
    ensures var s' := Perform(s, now, op).state; s'.events == s.events && s'.denials == s.denials
  {
    match op
    case CreatePaymentOp(_, _) => OwnerRecords(s, now, op);
    case CreateTransferOp(_, _) => OwnerRecords(s, now, op);
    case CreateCounterpartyOp(_, _, _) => OwnerRecords(s, now, op);
    case ExpireStaleOp(order) => ExpireAllRecords(s, now, order);
    case _ =>
  }

  lemma PaymentStepAnswers(s: State, now: Time, p: Principal, body: PaymentBody)
    requires Inv(s, now) && Evaluated(s, now, CreatePaymentOp(p, body))
    ensures Answers(s, Step(s, now, CreatePaymentOp(p, body)), RecordDue(s, now, CreatePaymentOp(p, body)))
  {
    PaymentAnswers(s, now, p, body);
  }

  lemma TransferStepAnswers(s: State, now: Time, p: Principal, body: TransferBody)
    requires Inv(s, now) && Evaluated(s, now, CreateTransferOp(p, body))
    ensures Answers(s, Step(s, now, CreateTransferOp(p, body)), RecordDue(s, now, CreateTransferOp(p, body)))
  {
    TransferAnswers(s, now, p, body);
  }

  lemma CounterpartyStepAnswers(s: State, now: Time, p: Principal, currency: Option<string>, country: Option<string>)
    requires Inv(s, now) && Evaluated(s, now, CreateCounterpartyOp(p, currency, country))
    ensures Answers(s, Step(s, now, CreateCounterpartyOp(p, currency, country)),
                    RecordDue(s, now, CreateCounterpartyOp(p, currency, country)))
  {
    CounterpartyAnswers(s, now, p, currency, country);
  }

  lemma EvaluatedAnswers(s: State, now: Time, op: Op)
    requires Inv(s, now) && Evaluated(s, now, op)
    ensures Answers(s, Step(s, now, op), RecordDue(s, now, op))
  {
    match op
    case CreatePaymentOp(p, body) => PaymentStepAnswers(s, now, p, body);
    case CreateTransferOp(p, body) => TransferStepAnswers(s, now, p, body);
    case CreateCounterpartyOp(p, currency, country) => CounterpartyStepAnswers(s, now, p, currency, country);
  }

  /** A request an agent gets as far as its policy leaves exactly one record, of the engine's
      decision on the action under the agent's current usage and policy, and ends as the decision
      says; an agent's request that does not get so far neither succeeds nor is denied; and nothing
      else leaves a record. */
  lemma StepEvaluates(s: State, clock: Time, now: Time, op: Op)
    requires Inv(s, clock) && clock <= now
    ensures Evaluated(s, now, op) ==> Answers(s, Step(s, now, op), RecordDue(s, now, op))
    ensures !Evaluated(s, now, op) ==>
              && Step(s, now, op).state.events == s.events && Step(s, now, op).state.denials == s.denials
              && (ByAgent(op) ==> Step(s, now, op).result.Err? && Step(s, now, op).result != Err(PolicyDenied))
  {
    AdvanceClock(s, clock, now);
    if Evaluated(s, now, op) {
      EvaluatedAnswers(s, now, op);
    } else if PrincipalOf(op).Some? && !Authentic(s, PrincipalOf(op).value) {
    } else if ByAgent(op) {
      NotReached(s, now, op);
    } else {
      OthersRecord(s, now, op);
    }
  }

  /** The evaluations of a run: the requests agents got as far as their policies. */
  function EvaluationsIn(s: State, events: seq<Event>): nat {
    if events == [] then 0
    else
      var before, last := events[..|events| - 1], events[|events| - 1];
      EvaluationsIn(s, before) + (if Evaluated(Run(s, before), last.now, last.op) then 1 else 0)
  }

  function Records(s: State): nat {
    |s.events| + |s.denials|
  }

  /** A run adds exactly one record for each of its evaluations, and never loses one. */
  lemma {:induction false} RunEvaluates(s: State, start: Time, events: seq<Event>)
    requires Inv(s, start) && Possible(s, start, events)
    ensures Records(Run(s, events)) == Records(s) + EvaluationsIn(s, events)
    ensures s.events <= Run(s, events).events && s.denials <= Run(s, events).denials
  {
    if events != [] {
      var before, last := events[..|events| - 1], events[|events| - 1];
      RunEvaluates(s, start, before);
      RunInv(s, start, before);
      StepEvaluates(Run(s, before), Clock(start, before), last.now, last.op);
    }
  }
}
