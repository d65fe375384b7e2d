/** What no step ever changes again: posted entries, decided approvals, finished actions, the
    money columns of any action, and stored policies. */
module Stability {
  import opened Prelude
  import opened Models
  import opened PolicyEngine
  import opened Calendar
  import opened Sandbox
  import opened BooksModel
  import opened Tallies
  import opened PolicyGateModel
  import opened PaymentsModel
  import opened ApprovalsModel
  import opened Machine
  import opened Invariant
  import opened Steps
  import opened StepInvariant
  import opened Sweep
  import opened RunInvariant

  /** The same action later on: a finished one is untouched, a pending one keeps its record. */
  ghost predicate LaterAction(a: Action, a': Action) {
    && SameAction(a, a') && a'.approval == a.approval
    && (a.status != PendingApproval || a'.status == PendingApproval ==> a' == a)
  }

  /** The same approval later on: a decided one is untouched. */
  ghost predicate LaterApproval(a: Approval, a': Approval) {
    && a'.owner == a.owner && a'.agent == a.agent && a'.action == a.action && a'.expiresAt == a.expiresAt
    && (a.status != Pending ==> a' == a)
  }

  ghost predicate LaterAgent(a: Agent, a': Agent) {
    a'.owner == a.owner && a.policyVersion <= a'.policyVersion
  }

  ghost predicate Extends(s: State, s': State) {
    && |s.actions| <= |s'.actions|
    && (forall i :: 0 <= i < |s.actions| ==> LaterAction(s.actions[i], s'.actions[i]))
    && |s.approvals| <= |s'.approvals|
    && (forall k :: 0 <= k < |s.approvals| ==> LaterApproval(s.approvals[k], s'.approvals[k]))
    && s.books.ledger <= s'.books.ledger
    && s.owners <= s'.owners
    && s.quotes <= s'.quotes
    && s.denials <= s'.denials
    && |s.agents| <= |s'.agents|
    && (forall a :: 0 <= a < |s.agents| ==> LaterAgent(s.agents[a], s'.agents[a]))
    && (forall key | key in s.policies :: key in s'.policies && s'.policies[key] == s.policies[key])
  }

  lemma ExtendsTransitive(s: State, s1: State, s2: State)
    requires Extends(s, s1) && Extends(s1, s2)
    ensures Extends(s, s2)
  {
    forall i | 0 <= i < |s.actions| ensures LaterAction(s.actions[i], s2.actions[i]) {
      assert LaterAction(s.actions[i], s1.actions[i]) && LaterAction(s1.actions[i], s2.actions[i]);
    }
    forall k | 0 <= k < |s.approvals| ensures LaterApproval(s.approvals[k], s2.approvals[k]) {
      assert LaterApproval(s.approvals[k], s1.approvals[k]) && LaterApproval(s1.approvals[k], s2.approvals[k]);
    }
  }

  // ---- Changes to money --------------------------------------------------------------------

  lemma ExecutedNewExtends(s: State, s': State, row: Action, row': Action)
    requires ExecutedNew(s, s', row, row')
    ensures Extends(s, s')
  {
  }

  lemma HeldNewExtends(s: State, s': State, row: Action, row': Action, approval: Approval)
    requires HeldNew(s, s', row, row', approval)
    ensures Extends(s, s')
  {
  }

  /** Deciding one pending approval and its pending action. */
  lemma DecidedExtends(s: State, s': State, i: Id, row: Action, k: Id, approval: Approval)
    requires OnHold(s, i, k)
    requires s' == s.(books := s'.books, actions := s.actions[i := row], approvals := s.approvals[k := approval])
    requires s.books.ledger <= s'.books.ledger
    requires SameAction(s.actions[i], row) && row.approval == Some(k) && row.status != PendingApproval
    requires LaterApproval(s.approvals[k], approval)
    ensures Extends(s, s') && |s'.actions| == |s.actions|
  {
  }

  // ---- One service call --------------------------------------------------------------------

  /** What a gated action comes to: executed at once, held, or nothing at all. */
  lemma GatedShape(s: State, now: Time, p: Principal, agent: Id, row: Action, context: ActionContext)
    returns (s1: State)
    requires BalanceRows(s.owners, s.agents, s.books.balances)
    requires Authentic(s, p) && agent < |s.agents|
    requires Fresh(s, now, p.owner, row) && Source(row) in s.books.balances
    requires Gated(s, now, p, agent, row, context).result.Ok?
    ensures OnlyRecords(s, s1) && Fresh(s1, now, p.owner, row) && s.denials == s1.denials
    ensures var s' := Gated(s, now, p, agent, row, context).state;
            if p.credential.OwnerKey? || Decide(s, p, agent, context) == Allow
            then ExecutedNew(s1, s', row, DoneRow(row, now))
            else Decide(s, p, agent, context).Hold?
                 && HeldNew(s1, s', row, HeldRow(row, now, |s1.approvals|), s'.approvals[|s1.approvals|])
  {
    if p.credential.OwnerKey? {
      s1 := s;
      ExecuteNewShape(s, now, p.owner, row);
    } else {
      var decision := Decide(s, p, agent, context);
      s1 := Recorded(s, p, agent, context, decision);
      match decision
      case Hold(trigger) =>
        HoldNewShape(s1, now, p, agent, row, trigger);
      case Allow =>
        ExecuteNewShape(s1, now, p.owner, row);
      case Deny(_) =>
    }
  }

  lemma GatedExtends(s: State, now: Time, p: Principal, agent: Id, row: Action, context: ActionContext)
    requires BalanceRows(s.owners, s.agents, s.books.balances)
    requires Authentic(s, p) && agent < |s.agents|
    requires Fresh(s, now, p.owner, row) && Source(row) in s.books.balances
    requires Gated(s, now, p, agent, row, context).result.Ok?
    ensures Extends(s, Gated(s, now, p, agent, row, context).state)
  {
    var s1 := GatedShape(s, now, p, agent, row, context);
    var s' := Gated(s, now, p, agent, row, context).state;
    if p.credential.OwnerKey? || Decide(s, p, agent, context) == Allow {
      ExecutedNewExtends(s1, s', row, DoneRow(row, now));
    } else {
      HeldNewExtends(s1, s', row, HeldRow(row, now, |s1.approvals|), s'.approvals[|s1.approvals|]);
    }
  }

  lemma CreatePaymentExtends(s: State, now: Time, p: Principal, body: PaymentBody)
    requires Inv(s, now) && Authentic(s, p) && CreatePayment(s, now, p, body).result.Ok?
    ensures Extends(s, CreatePayment(s, now, p, body).state)
  {
    var s0, terms := CreatePaymentShape(s, now, p, body);
    GatedExtends(s0, now, p, body.agent, NewPayment(now, p, body, terms), PaymentContext(s0, now, p, body, terms));
  }

  lemma CreateTransferExtends(s: State, now: Time, p: Principal, body: TransferBody)
    requires Inv(s, now) && Authentic(s, p) && CreateTransfer(s, now, p, body).result.Ok?
    ensures Extends(s, CreateTransfer(s, now, p, body).state)
  {
    var s0, agent := CreateTransferShape(s, now, p, body);
    var row := NewTransfer(now, p, body);
    if p.credential.OwnerKey? {
      ExecuteNewShape(s0, now, p.owner, row);
      ExecutedNewExtends(s0, ExecuteNew(s0, now, p.owner, row).state, row, DoneRow(row, now));
    } else {
      GatedExtends(s0, now, p, agent, row, TransferContext(s0, now, agent, body));
    }
  }

  lemma CancelExtends(s: State, now: Time, p: Principal, id: Id)
    requires Inv(s, now) && p.owner < |s.owners| && CancelPayment(s, now, p, id).Ok?
    ensures var s' := CancelPayment(s, now, p, id).value;
            Extends(s, s') && |s'.actions| == |s.actions|
  {
    CancelPaymentShape(s, now, p, id);
    var s', k := CancelPayment(s, now, p, id).value, s.actions[id].approval.value;
    DecidedExtends(s, s', id, CancelledRow(s.actions[id], now, CancelledByCaller), k, s'.approvals[k]);
  }

  lemma ApproveExtends(s: State, now: Time, p: Principal, k: Id)
    requires Inv(s, now) && p.owner < |s.owners| && Approve(s, now, p, k).Ok?
    ensures var s' := Approve(s, now, p, k).value;
            Extends(s, s') && |s'.actions| == |s.actions|
  {
    var s', approval := Approve(s, now, p, k).value, s.approvals[k];
    if !approval.action.CounterpartyAction? {
      CarriedOutShape(s, now, k, s'.approvals[k]);
      var i := approval.action.id;
      DecidedExtends(s, s', i, CarriedRow(s, now, i), k, s'.approvals[k]);
    }
  }

  lemma RejectExtends(s: State, now: Time, p: Principal, k: Id)
    requires Inv(s, now) && p.owner < |s.owners| && Reject(s, now, p, k).Ok?
    ensures var s' := Reject(s, now, p, k).value;
            Extends(s, s') && |s'.actions| == |s.actions|
  {
    var s', approval := Reject(s, now, p, k).value, s.approvals[k];
    if !approval.action.CounterpartyAction? {
      UnwoundShape(s, s', now, p.owner, k, OwnerRejected, s'.approvals[k]);
      var i := approval.action.id;
      DecidedExtends(s, s', i, CancelledRow(s.actions[i], now, OwnerRejected), k, s'.approvals[k]);
    }
  }

  lemma SweepExtends(s: State, now: Time, ks: seq<Id>)
    requires Inv(s, now) && ListsStale(s, now, ks)
    ensures ExpireAll(s, now, ks).Ok?
    ensures var s' := ExpireAll(s, now, ks).value;
            Extends(s, s') && |s'.actions| == |s.actions|
  {
    assert AllPending(s, ks);
    ExpireAllEffect(s, now, ks);
    var s' := ExpireAll(s, now, ks).value;
    forall i: Id | i < |s.actions| ensures LaterAction(s.actions[i], s'.actions[i]) {
      assert ActionLinked(s.actions, s.approvals, i);
    }
    forall k: Id | k < |s.approvals| ensures LaterApproval(s.approvals[k], s'.approvals[k]) {
      assert k in Elements(ks) ==> s.approvals[k].status == Pending;
    }
  }

  // ---- Setup -------------------------------------------------------------------------------

  lemma FundExtends(s: State, h: Holder, amount: int)
    requires FundExisting(s, h, amount).Ok?
    ensures Extends(s, FundExisting(s, h, amount).value)
  {
    var owner := HolderOwner(s, h).value;
    assert s.books.ledger <= Fund(s.books, owner, OwnerCurrency(s, owner), h, amount).value.ledger;
  }

  lemma CreateAgentExtends(s: State, p: Principal)
    requires p.owner < |s.owners| && CreateAgent(s, p).Ok?
    ensures Extends(s, CreateAgent(s, p).value)
  {
  }

  lemma ChangePolicyExtends(s: State, now: Time, p: Principal, agent: Id, policy: Policy)
    requires Inv(s, now) && ChangePolicy(s, p, agent, policy).Ok?
    ensures Extends(s, ChangePolicy(s, p, agent, policy).value)
  {
    assert (agent, s.agents[agent].policyVersion + 1) !in s.policies;
  }

  lemma CreateCounterpartyExtends(s: State, now: Time, p: Principal, currency: Option<Currency>,
                                  country: Option<string>)
    requires Authentic(s, p) && CreateCounterparty(s, now, p, currency, country).result.Ok?
    ensures var s' := CreateCounterparty(s, now, p, currency, country).state;
            Extends(s, s') && |s'.actions| == |s.actions|
  {
  }

  predicate CreatesAction(op: Op) {
    op.CreatePaymentOp? || op.CreateTransferOp?
  }

  lemma ChangeAgentStatusExtends(s: State, p: Principal, agent: Id, status: AgentStatus)
    requires ChangeAgentStatus(s, p, agent, status).Ok?
    ensures var s' := ChangeAgentStatus(s, p, agent, status).value;
            Extends(s, s') && |s'.actions| == |s.actions|
  {
  }

  lemma CreateQuoteExtends(s: State, now: Time, p: Principal, body: QuoteBody)
    requires Authentic(s, p) && CreateQuote(s, now, p, body).result.Ok?
    ensures var s' := CreateQuote(s, now, p, body).state;
            Extends(s, s') && |s'.actions| == |s.actions|
  {
  }

  lemma ReadBalanceExtends(s: State, p: Principal, agent: Option<Id>)
    requires p.owner < |s.owners| && ReadBalance(s, p, agent).Ok?
    ensures var s' := ReadBalance(s, p, agent).value;
            Extends(s, s') && |s'.actions| == |s.actions|
  {
  }

  lemma SetupExtends(s: State, now: Time, op: Op)
    requires op.OnboardOwner? || op.VerifyCounterparty?
    requires PrincipalOf(op).Some? ==> Authentic(s, PrincipalOf(op).value)
    requires Perform(s, now, op).result.Ok?
    ensures var s' := Perform(s, now, op).state;
            Extends(s, s') && |s'.actions| == |s.actions|
  {
  }

  lemma PerformExtends(s: State, now: Time, op: Op)
    requires Inv(s, now) && Enabled(s, now, op)
    requires PrincipalOf(op).Some? ==> Authentic(s, PrincipalOf(op).value)
    requires Perform(s, now, op).result.Ok?
    ensures var s' := Perform(s, now, op).state;
            Extends(s, s') && (!CreatesAction(op) ==> |s'.actions| == |s.actions|)
  {
    match op
    case CreatePaymentOp(p, body) => CreatePaymentExtends(s, now, p, body);
    case CancelPaymentOp(p, id) => CancelExtends(s, now, p, id);
    case CreateTransferOp(p, body) => CreateTransferExtends(s, now, p, body);
    case ApproveOp(p, k) => ApproveExtends(s, now, p, k);
    case RejectOp(p, k) => RejectExtends(s, now, p, k);
    case ExpireStaleOp(order) => SweepExtends(s, now, order);
    case FundHolder(h, amount) => FundExtends(s, h, amount);
    case CreateAgentOp(p) => CreateAgentExtends(s, p);
    case SetAgentStatus(p, agent, status) => ChangeAgentStatusExtends(s, p, agent, status);
    case CreateQuoteOp(p, body) => CreateQuoteExtends(s, now, p, body);
    case ReadBalanceOp(p, agent) => ReadBalanceExtends(s, p, agent);
    case ReplacePolicy(p, agent, policy) => ChangePolicyExtends(s, now, p, agent, policy);
    case CreateCounterpartyOp(p, currency, country) => CreateCounterpartyExtends(s, now, p, currency, country);
    case _ => SetupExtends(s, now, op);
  }

  ghost predicate DeniesAtMostOnce(s: State, o: Outcome) {
    if o.result == Err(PolicyDenied)
    then |o.state.denials| == |s.denials| + 1 && s.denials <= o.state.denials
        && o.state.denials[|s.denials|].decision.Deny?
    else o.state.denials == s.denials
  }

  lemma FailedGated(s: State, now: Time, p: Principal, agent: Id, row: Action, context: ActionContext)
    requires p.owner < |s.owners| && agent < |s.agents| && Source(row) in s.books.balances
    ensures DeniesAtMostOnce(s, Gated(s, now, p, agent, row, context))
  {
  }

  lemma FailedPayment(s: State, now: Time, p: Principal, body: PaymentBody)
    requires Authentic(s, p)
    ensures DeniesAtMostOnce(s, CreatePayment(s, now, p, body))
  {
    var r := PaymentTerms(s, now, p, body);
    if r.Ok? {
      var s0 := OpenedIn(s, p.owner, AgentHolder(body.agent));
      FailedGated(s0, now, p, body.agent, NewPayment(now, p, body, r.value), PaymentContext(s0, now, p, body, r.value));
    }
  }

  lemma FailedTransfer(s: State, now: Time, p: Principal, body: TransferBody)
    requires Authentic(s, p)
    ensures DeniesAtMostOnce(s, CreateTransfer(s, now, p, body))
  {
    if ValidateTransfer(s, p, body).Ok? && p.credential.AgentKey? {
      var s0, agent := OpenedIn(s, p.owner, body.source), p.credential.agent;
      FailedGated(s0, now, p, agent, NewTransfer(now, p, body), TransferContext(s0, now, agent, body));
    }
  }

  lemma FailedDecision(s: State, now: Time, p: Principal, k: Id)
    requires p.owner < |s.owners|
    ensures Approve(s, now, p, k) != Err(PolicyDenied) && Reject(s, now, p, k) != Err(PolicyDenied)
  {
  }

  lemma {:induction false} FailedSweep(s: State, now: Time, ks: seq<Id>)
    ensures ExpireAll(s, now, ks) != Err(PolicyDenied)
  {
    if ks != [] {
      FailedSweep(s, now, ks[..|ks| - 1]);
    }
  }

  /** A failed call leaves at most one more denial record behind, and nothing else. */
  lemma FailedCall(s: State, now: Time, op: Op)
    requires PrincipalOf(op).Some? ==> Authentic(s, PrincipalOf(op).value)
    requires Perform(s, now, op).result.Err?
    ensures var s' := Step(s, now, op).state;
            && s' == s.(denials := s'.denials)
            && (if Step(s, now, op).result == Err(PolicyDenied)
                then |s'.denials| == |s.denials| + 1 && s.denials <= s'.denials
                     && s'.denials[|s.denials|].decision.Deny?
                else s'.denials == s.denials)
  {
    match op
    case CreatePaymentOp(p, body) => FailedPayment(s, now, p, body);
    case CreateTransferOp(p, body) => FailedTransfer(s, now, p, body);
    case ApproveOp(p, k) => FailedDecision(s, now, p, k);
    case RejectOp(p, k) => FailedDecision(s, now, p, k);
    case ExpireStaleOp(order) => FailedSweep(s, now, order);
    case _ =>
  }

  lemma StepExtends(s: State, clock: Time, now: Time, op: Op)
    requires Inv(s, clock) && clock <= now && Enabled(s, now, op)
    ensures var s' := Step(s, now, op).state;
            Extends(s, s') && (!CreatesAction(op) ==> |s'.actions| == |s.actions|)
  {
    AdvanceClock(s, clock, now);
    if PrincipalOf(op).Some? && !Authentic(s, PrincipalOf(op).value) {
    } else if Perform(s, now, op).result.Ok? {
      PerformExtends(s, now, op);
    } else {
      FailedCall(s, now, op);
      DenialsExtend(s, Step(s, now, op).state);
    }
  }

  lemma DenialsExtend(s: State, s': State)
    requires s' == s.(denials := s'.denials) && s.denials <= s'.denials
    ensures Extends(s, s')
  {
  }

  /** Along any possible run an approval is decided at most once, a finished action never
      changes, and no posted entry is changed or removed. */
  lemma {:induction false} RunExtends(s: State, start: Time, events: seq<Event>)
    requires Inv(s, start) && Possible(s, start, events)
    ensures Extends(s, Run(s, events))
  {
    if events != [] {
      var before, last := events[..|events| - 1], events[|events| - 1];
      RunInv(s, start, before);
      RunExtends(s, start, before);
      StepExtends(Run(s, before), Clock(start, before), last.now, last.op);
      ExtendsTransitive(s, Run(s, before), Run(s, events));
    }
  }
}
