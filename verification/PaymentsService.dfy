/** services/policy_gate.py, payments.py and transfers.py: the request flows that create,
    execute and cancel payments and transfers, changing the session's tables in place.

    A failing method leaves its transaction to be rolled back by the caller, so on an error
    only the error and the separately committed denial records are promised. */
module PaymentsService {
  import opened Prelude
  import opened Models
  import opened PolicyEngine
  import opened Calendar
  import opened Sandbox
  import opened Tallies
  import opened PolicyGateModel
  import L = LedgerService
  import M = PaymentsModel

  // ---- policy_gate.py ----------------------------------------------------------------------

  /** Evaluates an action and records the evaluation. */
  method EvaluateAction(session: Session, now: Time, p: Principal, agent: Id, actionType: ActionType,
                        amount: Option<int>,
                        currency: Option<Currency>, counterparty: Option<Id>, isCrossBorder: bool)
    returns (decision: Decision)
    requires p.owner < |session.owners| && agent < |session.agents|
    requires counterparty.Some? ==> counterparty.value < |session.counterparties|
    modifies session`events, session`denials
    ensures var s := old(session.View());
            var context := Context(s, now, agent, actionType, amount, currency, counterparty, isCrossBorder);
            decision == Decide(s, p, agent, context) && session.View() == Recorded(s, p, agent, context, decision)
  {
    var s := session.View();
    var policy := LoadActivePolicy(s, agent);
    var (daily, monthly, today) := SpendAggregates(session.actions, agent, now);
    var status := if counterparty.Some? then Some(session.counterparties[counterparty.value].status) else None;
    var action := ActionContext(actionType, amount, currency, counterparty, status, isCrossBorder, None, daily,
                                monthly, today);
    decision := Evaluate(action, AgentContext(session.agents[agent].status, session.owners[p.owner].verified), policy);
    var record := Evaluation(p.owner, agent, p.credential, actionType, amount, session.agents[agent].policyVersion,
                             decision);
    if decision.Deny? {
      session.denials := session.denials + [record];
    } else {
      session.events := session.events + [record];
    }
  }

  method RaiseApproval(session: Session, now: Time, p: Principal, agent: Id, trigger: HoldTrigger,
                       action: ApprovalAction)
    returns (k: Id)
    requires agent < |session.agents|
    modifies session`approvals
    ensures k == |old(session.approvals)|
    ensures session.approvals
            == old(session.approvals) + [NewApproval(old(session.View()), now, p, agent, trigger, action)]
  {
    var policy := LoadActivePolicy(session.View(), agent);
    var hours := if policy.Some? then policy.value.approvals.autoExpireHours else 72;
    k := |session.approvals|;
    session.approvals := session.approvals
                       + [Approval(p.owner, agent, action, trigger, Pending, None, None, None, now + hours * HOUR)];
  }

  // ---- Execution ---------------------------------------------------------------------------

  method TimelineAdd(session: Session, id: Id, entry: TimelineStatus, now: Time)
    requires id < |session.actions|
    modifies session`actions
    ensures session.actions == old(session.actions)[id := M.Noted(old(session.actions[id]), entry, now)]
  {
    var row := session.actions[id];
    if row.Payment? {
      session.actions := session.actions[id := row.(timeline := row.timeline + [TimelineEntry(entry, now)])];
    }
  }

  /** Moves the money and settles the payment. */
  method ExecutePayment(session: Session, now: Time, owner: Id, id: Id, fromReservation: bool) returns (r: Result<Done>)
    requires owner < |session.owners| && id < |session.actions| && session.actions[id].Payment?
    modifies session`balances, session`ledger, session`actions
    ensures match M.ExecutePayment(old(session.View()), now, owner, id, fromReservation)
            case Ok(s) => r.Ok? && session.View() == s
            case Err(e) => r == Err(e)
  {
    var payment := session.actions[id];
    TimelineAdd(session, id, Reached(Processing), now);
    var posted := L.PayOut(session, owner, session.owners[owner].currency, AgentHolder(payment.agent), payment.amount,
                           PaymentResource(id), fromReservation);
    if posted.Err? {
      return Err(posted.error);
    }
    var result := Dispatch(payment.destinationCurrency != payment.currency);
    session.actions := session.actions[id := session.actions[id].(rail := Some(result.rail))];
    if result.status == DispatchCompleted {
      session.actions := session.actions[id := session.actions[id].(status := Completed, completedAt := Some(now))];
      TimelineAdd(session, id, Reached(Completed), now);
    }
    return Ok(Done.Done);
  }

  method ExecuteTransfer(session: Session, owner: Id, id: Id, fromReservation: bool) returns (r: Result<Done>)
    requires owner < |session.owners| && id < |session.actions| && session.actions[id].Transfer?
    modifies session`balances, session`ledger, session`actions
    ensures match M.ExecuteTransfer(old(session.View()), owner, id, fromReservation)
            case Ok(s) => r.Ok? && session.View() == s
            case Err(e) => r == Err(e)
  {
    var transfer := session.actions[id];
    var posted := L.InternalTransfer(session, owner, session.owners[owner].currency, transfer.source,
                                     transfer.destination,
                                     transfer.amount, TransferResource(id), fromReservation);
    if posted.Err? {
      return Err(posted.error);
    }
    session.actions := session.actions[id := WithStatus(session.actions[id], Completed)];
    return Ok(Done.Done);
  }

  /** Releases an approved hold, repricing it first if its quote expired. */
  method ExecuteApproved(session: Session, now: Time, owner: Id, id: Id) returns (r: Result<Done>)
    requires owner < |session.owners| && id < |session.actions| && session.actions[id].Payment?
    modifies session`balances, session`ledger, session`actions
    ensures match M.ExecuteApproved(old(session.View()), now, owner, id)
            case Ok(s) => r.Ok? && session.View() == s
            case Err(e) => r == Err(e)
  {
    var payment := session.actions[id];
    if payment.quote.Some? {
      if payment.quote.value >= |session.quotes| {
        return Err(RowMissing);
      }
      if session.quotes[payment.quote.value].expiresAt < now {
        var route := Quote(payment.currency, payment.destinationCurrency, Some(payment.amount), 0);
        if route.None? {
          return Err(UnsupportedRoute);
        }
        session.actions := session.actions[id := payment.(destinationAmount := route.value.destinationAmount)];
        TimelineAdd(session, id, Repriced, now);
      }
    }
    assert M.RepricedRow(old(session.View()), now, payment) == Ok(session.actions[id]);
    assert session.View() == old(session.View()).(actions := old(session.actions)[id := session.actions[id]]);
    r := ExecutePayment(session, now, owner, id, true);
  }

  // ---- New actions -------------------------------------------------------------------------

  method ExecuteNew(session: Session, now: Time, owner: Id, row: Action) returns (r: Result<Id>)
    requires owner < |session.owners|
    modifies session`balances, session`ledger, session`actions
    ensures var o := M.ExecuteNew(old(session.View()), now, owner, row);
            r == o.result && (r.Ok? ==> session.View() == o.state)
  {
    var id := |session.actions|;
    session.actions := session.actions + [row];
    var done;
    if row.Payment? {
      done := ExecutePayment(session, now, owner, id, false);
    } else {
      done := ExecuteTransfer(session, owner, id, false);
    }
    if done.Err? {
      return Err(done.error);
    }
    return Ok(id);
  }

  /** A held row, in the order its columns are set. */
  lemma HeldInSteps(row: Action, now: Time, k: Id)
    ensures M.Noted(WithStatus(row, PendingApproval), Reached(PendingApproval), now).(approval := Some(k))
            == M.HeldRow(row, now, k)
  {
  }

  method HoldNew(session: Session, now: Time, p: Principal, agent: Id, row: Action, trigger: HoldTrigger)
    returns (r: Result<Id>)
    requires agent < |session.agents| && Source(row) in session.balances
    modifies session`balances, session`actions, session`approvals
    ensures var o := M.HoldNew(old(session.View()), now, p, agent, row, trigger);
            r == o.result && (r.Ok? ==> session.View() == o.state)
  {
    var id := |session.actions|;
    session.actions := session.actions + [WithStatus(row, PendingApproval)];
    TimelineAdd(session, id, Reached(PendingApproval), now);
    var reserved := L.Reserve(session, Source(row), row.amount);
    if reserved.Err? {
      return Err(reserved.error);
    }
    var k := RaiseApproval(session, now, p, agent, trigger, M.ReferenceTo(row, id));
    session.actions := session.actions[id := session.actions[id].(approval := Some(k))];
    HeldInSteps(row, now, k);
    assert session.approvals
        == old(session.approvals) + [NewApproval(old(session.View()), now, p, agent, trigger, M.ReferenceTo(row, id))];
    assert session.actions == old(session.actions) + [M.HeldRow(row, now, k)];
    return Ok(id);
  }

  method CreatePayment(session: Session, now: Time, p: Principal, body: M.PaymentBody) returns (r: Result<Id>)
    requires Authentic(session.View(), p)
    modifies session
    ensures var o := M.CreatePayment(old(session.View()), now, p, body);
            r == o.result && session.denials == o.state.denials && (r.Ok? ==> session.View() == o.state)
  {
    var terms := M.PaymentTerms(session.View(), now, p, body);
    if terms.Err? {
      return Err(terms.error);
    }
    var t, h := terms.value, AgentHolder(body.agent);
    var balance := L.GetOrCreateBalance(session, p.owner, session.owners[p.owner].currency, h);
    if balance.available < t.sourceAmount {
      return Err(InsufficientFunds);
    }
    var payment := M.NewPayment(now, p, body, t);
    if p.credential.AgentKey? {
      var crossBorder := M.IsCrossBorder(session.owners[p.owner].country, t.sourceCurrency,
                                         session.counterparties[body.counterparty]);
      var decision := EvaluateAction(session, now, p, body.agent, PaymentType, Some(t.sourceAmount),
                                     Some(t.destinationCurrency), Some(body.counterparty), crossBorder);
      if decision.Deny? {
        return Err(PolicyDenied);
      }
      if decision.Hold? {
        r := HoldNew(session, now, p, body.agent, payment, decision.trigger);
        return;
      }
    }
    r := ExecuteNew(session, now, p.owner, payment);
  }

  method CreateTransfer(session: Session, now: Time, p: Principal, body: M.TransferBody) returns (r: Result<Id>)
    requires Authentic(session.View(), p)
    modifies session
    ensures var o := M.CreateTransfer(old(session.View()), now, p, body);
            r == o.result && session.denials == o.state.denials && (r.Ok? ==> session.View() == o.state)
  {
    var valid := M.ValidateTransfer(session.View(), p, body);
    if valid.Err? {
      return Err(valid.error);
    }
    var balance := L.GetOrCreateBalance(session, p.owner, session.owners[p.owner].currency, body.source);
    if balance.available < body.amount.amount {
      return Err(InsufficientFunds);
    }
    var transfer := M.NewTransfer(now, p, body);
    if p.credential.AgentKey? {
      var agent := p.credential.agent;
      var decision := EvaluateAction(session, now, p, agent, TransferType, Some(body.amount.amount),
                                     Some(body.amount.currency), None, false);
      if decision.Deny? {
        return Err(PolicyDenied);
      }
      if decision.Hold? {
        r := HoldNew(session, now, p, agent, transfer, decision.trigger);
        return;
      }
    }
    r := ExecuteNew(session, now, p.owner, transfer);
  }

  // ---- Cancellation ------------------------------------------------------------------------

  method CancelPayment(session: Session, now: Time, p: Principal, id: Id) returns (r: Result<Done>)
    requires p.owner < |session.owners|
    modifies session`balances, session`actions, session`approvals
    ensures match M.CancelPayment(old(session.View()), now, p, id)
            case Ok(s) => r.Ok? && session.View() == s
            case Err(e) => r == Err(e)
  {
    var scope := RequireScope(p, PaymentsCreate);
    if scope.Err? {
      return Err(scope.error);
    }
    var found := M.GetPayment(session.View(), p, id);
    if found.Err? {
      return Err(found.error);
    }
    var payment := found.value;
    if payment.status != PendingApproval {
      return Err(CancellationNotAllowed);
    }
    var h := AgentHolder(payment.agent);
    var _ := L.GetOrCreateBalance(session, p.owner, session.owners[p.owner].currency, h);
    L.ReleaseReservation(session, h, payment.amount);
    session.actions := session.actions[id := payment.(status := Cancelled, failureReason := Some(CancelledByCaller))];
    TimelineAdd(session, id, Reached(Cancelled), now);
    if payment.approval.Some? && payment.approval.value < |session.approvals| {
      var k := payment.approval.value;
      if session.approvals[k].status == Pending {
        session.approvals := session.approvals[k := session.approvals[k].(status := Expired, decidedAt := Some(now))];
      }
    }
    return Ok(Done.Done);
  }
}
