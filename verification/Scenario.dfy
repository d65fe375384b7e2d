/** A scenario: an owner's agent has a payment held, the approval expires, and the agent cancels. */
module Scenario {
  import opened Prelude
  import opened Models
  import opened PolicyEngine
  import opened Calendar
  import opened BooksModel
  import opened BooksEffects
  import opened PolicyGateModel
  import opened PaymentsModel
  import opened ApprovalsModel
  import opened Machine
  import opened StepInvariant
  import opened RunInvariant
  import opened Guarantees

  lemma ReachStep(s: State, clock: Time, now: Time, op: Op)
    requires Reachable(s, clock) && clock <= now && Enabled(s, now, op)
    ensures Reachable(Step(s, now, op).state, now)
  {
    var start: Time, events: seq<Event> :|
      Possible(EMPTY, start, events) && s == Run(EMPTY, events) && clock == Clock(start, events);
    var next := events + [Event(now, op)];
    assert next[..|next| - 1] == events;
    assert Possible(EMPTY, start, next) && Run(EMPTY, next) == Step(s, now, op).state && Clock(start, next) == now;
  }

  const HUNDRED := 100_000_000_000
  const OWNER := Owner("USD", "US", true)
  const OWNER_KEY := Principal(0, OwnerKey(0), {})
  const AGENT := Principal(0, AgentKey(1, 0), {PaymentsCreate, PaymentsRead, CounterpartiesRead})

  /** Every payment needs the owner's approval, within an hour. */
  const POLICY := Policy(Limits(None, None, None, None), None, false, None, None,
                         ApprovalRules(Some(0), false, false, 1))

  const BODY := PaymentBody(0, 0, None, Some(Money(HUNDRED, "USD")))

  function Funded(policies: map<(Id, nat), Policy>, version: nat, counterparties: seq<Counterparty>): State {
    State([OWNER], [Agent(0, Active, version)], policies, counterparties, [],
          Books(map[AgentHolder(0) := Balance(0, "USD", HUNDRED, 0, [Money(HUNDRED, "USD")])],
                Pair(0, SystemAccount(Funding, "USD"), HolderAccount(AgentHolder(0), "USD"), HUNDRED, "USD",
                     FundingResource)),
          [], [], [], [])
  }

  const ONBOARDED := EMPTY.(owners := [OWNER])
  const CREATED := ONBOARDED.(agents := [Agent(0, Active, 0)],
                              books := Books(map[AgentHolder(0) := NewRow(0, "USD")], []))
  const READY := Funded(map[(0, 1) := POLICY], 1, [Counterparty(0, None, None, Unverified)])

  lemma OnboardStep()
    ensures Step(EMPTY, 0, OnboardOwner(OWNER)).state == ONBOARDED
    ensures Step(ONBOARDED, 0, CreateAgentOp(OWNER_KEY)).state == CREATED
  {
  }

  lemma FundStep()
    ensures Step(CREATED, 0, FundHolder(AgentHolder(0), HUNDRED)).state == Funded(map[], 0, [])
  {
    JournalEffect([], SystemAccount(Funding, "USD"), HolderAccount(AgentHolder(0), "USD"), HUNDRED, "USD",
                  FundingResource);
  }

  lemma PolicyStep()
    ensures Step(Funded(map[], 0, []), 0, ReplacePolicy(OWNER_KEY, 0, POLICY)).state
            == Funded(map[(0, 1) := POLICY], 1, [])
  {
  }

  lemma CounterpartyStep()
    ensures Step(Funded(map[(0, 1) := POLICY], 1, []), 0, CreateCounterpartyOp(OWNER_KEY, None, None)).state == READY
  {
  }

  lemma ReadyReachable()
    ensures Reachable(READY, 0)
  {
    EmptyReachable();
    ReachStep(EMPTY, 0, 0, OnboardOwner(OWNER));
    OnboardStep();
    ReachStep(ONBOARDED, 0, 0, CreateAgentOp(OWNER_KEY));
    ReachStep(CREATED, 0, 0, FundHolder(AgentHolder(0), HUNDRED));
    FundStep();
    ReachStep(Funded(map[], 0, []), 0, 0, ReplacePolicy(OWNER_KEY, 0, POLICY));
    PolicyStep();
    ReachStep(Funded(map[(0, 1) := POLICY], 1, []), 0, 0, CreateCounterpartyOp(OWNER_KEY, None, None));
    CounterpartyStep();
  }

  lemma EmptyReachable()
    ensures Reachable(EMPTY, 0)
  {
    assert Possible(EMPTY, 0, []) && Run(EMPTY, []) == EMPTY && Clock(0, []) == 0;
  }

  /** The engine holds the payment. */
  lemma PaymentGated()
    ensures PaymentTerms(READY, 0, AGENT, BODY) == Ok(Terms(HUNDRED, "USD", HUNDRED, "USD"))
    ensures OpenedIn(READY, 0, AgentHolder(0)) == READY && Avail(READY.books, AgentHolder(0)) == HUNDRED
    ensures Decide(READY, AGENT, 0, PaymentContext(READY, 0, AGENT, BODY, Terms(HUNDRED, "USD", HUNDRED, "USD")))
            == Hold(RequireApprovalAbove)
  {
  }

  /** The payment is held, and its approval is good for an hour. */
  ghost predicate HeldForAnHour(s: State) {
    && |s.owners| == |s.agents| == |s.actions| == |s.approvals| == 1
    && s.agents[0] == Agent(0, Active, 1)
    && s.actions[0].Payment? && s.actions[0].owner == s.actions[0].agent == 0
    && s.actions[0].status == PendingApproval && s.actions[0].approval == Some(0)
    && s.approvals[0].status == Pending && s.approvals[0].owner == 0 && s.approvals[0].expiresAt == HOUR
  }

  lemma PaymentStep()
    ensures HeldForAnHour(Step(READY, 0, CreatePaymentOp(AGENT, BODY)).state)
  {
    PaymentGated();
    var row := NewPayment(0, AGENT, BODY, Terms(HUNDRED, "USD", HUNDRED, "USD"));
    var context := PaymentContext(READY, 0, AGENT, BODY, Terms(HUNDRED, "USD", HUNDRED, "USD"));
    assert CreatePayment(READY, 0, AGENT, BODY) == Gated(READY, 0, AGENT, 0, row, context);
    var s1 := Recorded(READY, AGENT, 0, context, Hold(RequireApprovalAbove));
    assert LoadActivePolicy(s1, 0) == Some(POLICY);
  }

  lemma HeldReachable() returns (s: State)
    ensures Reachable(s, 0) && HeldForAnHour(s)
  {
    ReadyReachable();
    s := Step(READY, 0, CreatePaymentOp(AGENT, BODY)).state;
    ReachStep(READY, 0, 0, CreatePaymentOp(AGENT, BODY));
    PaymentStep();
  }

  /** There is a pending payment past its approval's expiry that the agent still cancels, although
      its owner can no longer approve or reject it. */
  lemma StalePaymentCancelled() returns (s: State, now: Time)
    ensures Reachable(s, 0)
    ensures |s.actions| == |s.approvals| == 1 && s.actions[0].status == PendingApproval && Stale(s.approvals[0], now)
    ensures |s.owners| == 1 && CancelPayment(s, now, AGENT, 0).Ok?
    ensures Approve(s, now, OWNER_KEY, 0) == Reject(s, now, OWNER_KEY, 0) == Err(ApprovalExpired)
  {
    s := HeldReachable();
    now := HOUR + 1;
    assert MayCancel(s, AGENT, 0);
    PendingAlwaysCancels(s, 0, now, AGENT, 0);
  }
}
