/** What the service calls come to, in terms of the changes of module Steps: creating, releasing
    and carrying out payments and transfers keep the invariant of the database. */
module StepInvariant {
  import opened Prelude
  import opened Models
  import opened PolicyEngine
  import opened Calendar
  import opened BooksModel
  import opened Tallies
  import opened PolicyGateModel
  import opened PaymentsModel
  import opened ApprovalsModel
  import opened MoneyInvariant
  import opened Invariant
  import opened Steps

  /** The tables of `s` with only evaluation records added. */
  ghost predicate OnlyRecords(s: State, s': State) {
    s' == s.(events := s'.events, denials := s'.denials)
  }

  lemma RecordsInv(s: State, s': State, now: Time)
    requires Inv(s, now) && OnlyRecords(s, s')
    ensures Inv(s', now)
  {
  }

  // ---- Creating payments and transfers -----------------------------------------------------

  lemma GatedInv(s: State, now: Time, p: Principal, agent: Id, row: Action, context: ActionContext)
    requires Inv(s, now) && Authentic(s, p) && agent < |s.agents|
    requires Fresh(s, now, p.owner, row) && Source(row) in s.books.balances
    requires Gated(s, now, p, agent, row, context).result.Ok?
    ensures Inv(Gated(s, now, p, agent, row, context).state, now)
  {
    if p.credential.OwnerKey? {
      ExecuteNewInv(s, now, p.owner, row);
    } else {
      var decision := Decide(s, p, agent, context);
      var s1 := Recorded(s, p, agent, context, decision);
      RecordsInv(s, s1, now);
      assert Fresh(s1, now, p.owner, row);
      match decision
      case Hold(trigger) =>
        HoldNewShape(s1, now, p, agent, row, trigger);
        HeldNewInv(s1, HoldNew(s1, now, p, agent, row, trigger).state, now, row, HeldRow(row, now, |s1.approvals|),
                   NewApproval(s1, now, p, agent, trigger, ReferenceTo(row, |s1.actions|)));
      case Allow =>
        ExecuteNewInv(s1, now, p.owner, row);
      case Deny(_) =>
    }
  }

  /** Accepted terms make a well-formed payment row. */
  lemma PaymentFresh(s: State, now: Time, p: Principal, body: PaymentBody, terms: Terms)
    requires RowsInv(s, now) && Authentic(s, p)
    requires PaymentTerms(s, now, p, body) == Ok(terms)
    requires terms.sourceAmount <= Avail(s.books, AgentHolder(body.agent))
    ensures Fresh(s, now, p.owner, NewPayment(now, p, body, terms))
    ensures body.agent < |s.agents| && s.agents[body.agent].owner == p.owner
    ensures body.counterparty < |s.counterparties|
  {
  }

  function PaymentContext(s: State, now: Time, p: Principal, body: PaymentBody, terms: Terms): ActionContext
    requires p.owner < |s.owners| && body.counterparty < |s.counterparties|
  {
    var crossBorder := IsCrossBorder(s.owners[p.owner].country, terms.sourceCurrency,
                                     s.counterparties[body.counterparty]);
    Context(s, now, body.agent, PaymentType, Some(terms.sourceAmount), Some(terms.destinationCurrency),
            Some(body.counterparty), crossBorder)
  }

  /** Opening a balance changes nothing the terms depend on. */
  lemma TermsOpened(s: State, now: Time, p: Principal, body: PaymentBody, h: Holder)
    requires p.owner < |s.owners|
    ensures PaymentTerms(OpenedIn(s, p.owner, h), now, p, body) == PaymentTerms(s, now, p, body)
  {
  }

  lemma CreatePaymentGated(s: State, now: Time, p: Principal, body: PaymentBody)
    requires Authentic(s, p) && CreatePayment(s, now, p, body).result.Ok?
    ensures PaymentTerms(s, now, p, body).Ok? && body.counterparty < |s.counterparties| && body.agent < |s.agents|
    ensures s.agents[body.agent].owner == p.owner
    ensures var s0, terms := OpenedIn(s, p.owner, AgentHolder(body.agent)), PaymentTerms(s, now, p, body).value;
            && terms.sourceAmount <= Avail(s0.books, AgentHolder(body.agent))
            && CreatePayment(s, now, p, body)
               == Gated(s0, now, p, body.agent, NewPayment(now, p, body, terms),
                        PaymentContext(s0, now, p, body, terms))
  {
  }

  /** A successful create_payment is a gated new payment on an opened balance. */
  lemma CreatePaymentShape(s: State, now: Time, p: Principal, body: PaymentBody) returns (s0: State, terms: Terms)
    requires Inv(s, now) && Authentic(s, p)
    requires CreatePayment(s, now, p, body).result.Ok?
    ensures PaymentTerms(s, now, p, body) == Ok(terms)
    ensures body.agent < |s.agents| && s.agents[body.agent].owner == p.owner
    ensures body.counterparty < |s.counterparties|
    ensures s0 == OpenedIn(s, p.owner, AgentHolder(body.agent)) && Inv(s0, now)
    ensures var row := NewPayment(now, p, body, terms);
            && Fresh(s0, now, p.owner, row)
            && CreatePayment(s, now, p, body)
               == Gated(s0, now, p, body.agent, row, PaymentContext(s0, now, p, body, terms))
  {
    CreatePaymentGated(s, now, p, body);
    var h := AgentHolder(body.agent);
    terms, s0 := PaymentTerms(s, now, p, body).value, OpenedIn(s, p.owner, h);
    TermsOpened(s, now, p, body, h);
    OpenedInv(s, now, p.owner, h);
    PaymentFresh(s0, now, p, body, terms);
  }

  lemma CreatePaymentInv(s: State, now: Time, p: Principal, body: PaymentBody)
    requires Inv(s, now) && Authentic(s, p)
    requires CreatePayment(s, now, p, body).result.Ok?
    ensures Inv(CreatePayment(s, now, p, body).state, now)
  {
    var s0, terms := CreatePaymentShape(s, now, p, body);
    GatedInv(s0, now, p, body.agent, NewPayment(now, p, body, terms), PaymentContext(s0, now, p, body, terms));
  }

  lemma TransferFresh(s: State, now: Time, p: Principal, body: TransferBody)
    requires Authentic(s, p)
    requires ValidateTransfer(s, p, body).Ok? && body.amount.amount <= Avail(s.books, body.source)
    ensures Fresh(s, now, p.owner, NewTransfer(now, p, body))
  {
  }

  function TransferContext(s: State, now: Time, agent: Id, body: TransferBody): ActionContext {
    Context(s, now, agent, TransferType, Some(body.amount.amount), Some(body.amount.currency), None, false)
  }

  /** A successful create_transfer is a gated new transfer on an opened balance. */
  lemma CreateTransferShape(s: State, now: Time, p: Principal, body: TransferBody) returns (s0: State, agent: Id)
    requires Inv(s, now) && Authentic(s, p)
    requires CreateTransfer(s, now, p, body).result.Ok?
    ensures ValidateTransfer(s, p, body).Ok?
    ensures s0 == OpenedIn(s, p.owner, body.source) && Inv(s0, now)
    ensures Fresh(s0, now, p.owner, NewTransfer(now, p, body))
    ensures p.credential.AgentKey? ==>
              agent == p.credential.agent && agent < |s.agents|
              && CreateTransfer(s, now, p, body)
                 == Gated(s0, now, p, agent, NewTransfer(now, p, body), TransferContext(s0, now, agent, body))
    ensures p.credential.OwnerKey? ==>
              CreateTransfer(s, now, p, body) == ExecuteNew(s0, now, p.owner, NewTransfer(now, p, body))
  {
    assert Belongs(s.owners, s.agents, body.source, p.owner, OwnerCurrency(s, p.owner));
    OpenedInv(s, now, p.owner, body.source);
    s0 := OpenedIn(s, p.owner, body.source);
    assert ValidateTransfer(s0, p, body).Ok?;
    TransferFresh(s0, now, p, body);
    agent := if p.credential.AgentKey? then p.credential.agent else 0;
  }

  lemma CreateTransferInv(s: State, now: Time, p: Principal, body: TransferBody)
    requires Inv(s, now) && Authentic(s, p)
    requires CreateTransfer(s, now, p, body).result.Ok?
    ensures Inv(CreateTransfer(s, now, p, body).state, now)
  {
    var s0, agent := CreateTransferShape(s, now, p, body);
    if p.credential.OwnerKey? {
      ExecuteNewInv(s0, now, p.owner, NewTransfer(now, p, body));
    } else {
      GatedInv(s0, now, p, agent, NewTransfer(now, p, body), TransferContext(s0, now, agent, body));
    }
  }

  // ---- Releasing and carrying out ----------------------------------------------------------

  lemma CancelPaymentShape(s: State, now: Time, p: Principal, id: Id)
    requires Inv(s, now) && p.owner < |s.owners|
    requires CancelPayment(s, now, p, id).Ok?
    ensures var s' := CancelPayment(s, now, p, id).value;
            && id < |s.actions| && s.actions[id].approval.Some?
            && var k := s.actions[id].approval.value;
               && OnHold(s, id, k)
               && ReleasedHold(s, s', id, CancelledRow(s.actions[id], now, CancelledByCaller), k, s'.approvals[k])
  {
    assert ActionLinked(s.actions, s.approvals, id);
    var row := s.actions[id];
    var s' := CancelPayment(s, now, p, id).value;
    assert s'.books == Release(OpenedIn(s, row.owner, Source(row)).books, Source(row), row.amount);
  }

  lemma UnwoundShape(s: State, s': State, now: Time, owner: Id, k: Id, reason: FailureReason, approval: Approval)
    requires Inv(s, now) && k < |s.approvals| && s.approvals[k].status == Pending && s.approvals[k].owner == owner
    requires owner < |s.owners| && !s.approvals[k].action.CounterpartyAction?
    requires approval.action == s.approvals[k].action && approval.owner == owner
             && approval.status in {Rejected, Expired}
    ensures Unwound(s, now, owner, s.approvals[k].action, reason).Ok?
    ensures var i := s.approvals[k].action.id;
            var s1 := Unwound(s, now, owner, s.approvals[k].action, reason).value;
            && OnHold(s, i, k)
            && ReleasedHold(s, s1.(approvals := s.approvals[k := approval]), i,
                            CancelledRow(s.actions[i], now, reason), k, approval)
  {
    assert ApprovalLinked(s.actions, s.approvals, s.counterparties, k);
    var i := s.approvals[k].action.id;
    assert ActionLinked(s.actions, s.approvals, i);
    var row := s.actions[i];
    var s1 := Unwound(s, now, owner, s.approvals[k].action, reason).value;
    assert s1.books == Release(OpenedIn(s, row.owner, Source(row)).books, Source(row), row.amount);
  }

  /** Deciding a counterparty's approval moves no money. */
  lemma CounterpartyDecisionInv(s: State, now: Time, k: Id, status: CounterpartyStatus, approval: Approval)
    requires Inv(s, now) && k < |s.approvals| && s.approvals[k].action.CounterpartyAction?
    requires approval.action == s.approvals[k].action && approval.owner == s.approvals[k].owner
    ensures var c := s.approvals[k].action.id;
            && c < |s.counterparties|
            && Inv(WithCounterparty(s, c, status).(approvals := s.approvals[k := approval]), now)
            && Inv(s.(approvals := s.approvals[k := approval]), now)
  {
    assert ApprovalLinked(s.actions, s.approvals, s.counterparties, k);
    var c := s.approvals[k].action.id;
    var s1 := WithCounterparty(s, c, status);
    LinkedDecideCounterparty(s.actions, s.approvals, s.counterparties, s1.counterparties, k, approval);
    LinkedDecideCounterparty(s.actions, s.approvals, s.counterparties, s.counterparties, k, approval);
  }

  lemma RejectInv(s: State, now: Time, p: Principal, k: Id)
    requires Inv(s, now) && p.owner < |s.owners|
    requires Reject(s, now, p, k).Ok?
    ensures Inv(Reject(s, now, p, k).value, now)
  {
    var s', approval := Reject(s, now, p, k).value, s.approvals[k];
    var decided := s'.approvals[k];
    if approval.action.CounterpartyAction? {
      CounterpartyDecisionInv(s, now, k, Blocked, decided);
    } else {
      UnwoundShape(s, s', now, p.owner, k, OwnerRejected, decided);
      var i := approval.action.id;
      ReleasedHoldInv(s, s', now, i, CancelledRow(s.actions[i], now, OwnerRejected), k, decided);
    }
  }

  lemma ExpireOneInv(s: State, now: Time, k: Id)
    requires Inv(s, now) && k < |s.approvals| && s.approvals[k].status == Pending
    ensures ExpireOne(s, now, k).Ok?
    ensures Inv(ExpireOne(s, now, k).value, now)
  {
    var approval := s.approvals[k];
    var decided := approval.(status := Expired, decidedAt := Some(now));
    if approval.action.CounterpartyAction? {
      CounterpartyDecisionInv(s, now, k, Blocked, decided);
    } else {
      UnwoundShape(s, s, now, approval.owner, k, ExpiredApproval, decided);
      var i := approval.action.id;
      ReleasedHoldInv(s, ExpireOne(s, now, k).value, now, i, CancelledRow(s.actions[i], now, ExpiredApproval), k,
                      decided);
    }
  }

  /** The row a held action ends as: repriced first, if it is a payment whose quote expired. */
  function CarriedRow(s: State, now: Time, i: Id): Action
    requires i < |s.actions|
  {
    if s.actions[i].Payment? && RepricedRow(s, now, s.actions[i]).Ok?
    then DoneRow(RepricedRow(s, now, s.actions[i]).value, now)
    else DoneRow(s.actions[i], now)
  }

  /** The hold that a pending approval of a payment or transfer is about. */
  lemma HoldOf(s: State, now: Time, k: Id) returns (i: Id)
    requires RowsInv(s, now) && k < |s.approvals| && s.approvals[k].status == Pending
    requires !s.approvals[k].action.CounterpartyAction?
    ensures OnHold(s, i, k) && s.approvals[k].action == ReferenceTo(s.actions[i], i)
    ensures s.actions[i].owner == s.approvals[k].owner
    ensures ActionRow(s.owners, s.agents, s.quotes, s.actions[i], now)
  {
    assert ApprovalLinked(s.actions, s.approvals, s.counterparties, k);
    i := s.approvals[k].action.id;
    assert ActionLinked(s.actions, s.approvals, i);
  }

  lemma CarriedRowSame(s: State, now: Time, i: Id)
    requires i < |s.actions| && ActionRow(s.owners, s.agents, s.quotes, s.actions[i], now)
    ensures SameAction(s.actions[i], CarriedRow(s, now, i)) && CarriedRow(s, now, i).status == Completed
    ensures CarriedRow(s, now, i).approval == s.actions[i].approval
    ensures s.actions[i].Payment? ==>
            RepricedRow(s, now, s.actions[i]).Ok? && SameMoney(s.actions[i], RepricedRow(s, now, s.actions[i]).value)
  {
  }

  /** Carrying a held action out executes its row on the reservation. */
  lemma CarriedOutExecutes(s: State, now: Time, owner: Id, i: Id)
    requires i < |s.actions| && owner < |s.owners| && OwnerCurrency(s, owner) == s.actions[i].currency
    requires ActionRow(s.owners, s.agents, s.quotes, s.actions[i], now)
    ensures var row := s.actions[i];
            CarriedOut(s, now, owner, ReferenceTo(row, i))
            == match ExecuteBooks(s.books, owner, row.currency, row, ResourceOf(row, i), true)
               case Err(e) => Err(e)
               case Ok(b) => Ok(s.(books := b, actions := s.actions[i := CarriedRow(s, now, i)]))
    ensures SameAction(s.actions[i], CarriedRow(s, now, i)) && CarriedRow(s, now, i).status == Completed
    ensures CarriedRow(s, now, i).approval == s.actions[i].approval
  {
    var row := s.actions[i];
    CarriedRowSame(s, now, i);
    if row.Payment? {
      var repriced := RepricedRow(s, now, row).value;
      var s0 := s.(actions := s.actions[i := repriced]);
      ExecuteShape(s0, now, owner, i, true);
      assert s.actions[i := repriced][i := DoneRow(repriced, now)] == s.actions[i := DoneRow(repriced, now)];
    } else {
      ExecuteShape(s, now, owner, i, true);
    }
  }

  lemma CarriedOutShape(s: State, now: Time, k: Id, approval: Approval)
    requires Inv(s, now) && k < |s.approvals| && s.approvals[k].status == Pending
    requires !s.approvals[k].action.CounterpartyAction?
    requires approval.action == s.approvals[k].action && approval.owner == s.approvals[k].owner
    requires approval.status == Approved
    ensures CarriedOut(s, now, approval.owner, approval.action).Ok?
    ensures var i := approval.action.id;
            var s1 := CarriedOut(s, now, approval.owner, approval.action).value;
            && OnHold(s, i, k)
            && ExecutedHold(s, s1.(approvals := s.approvals[k := approval]), i, CarriedRow(s, now, i), k, approval)
  {
    var i := HoldOf(s, now, k);
    var owner := approval.owner;
    var row := s.actions[i];
    OwnedDenomination(s, Source(row), owner, row.currency);
    if row.Transfer? {
      OwnedDenomination(s, row.destination, owner, row.currency);
    }
    ExecuteBooksEffect(s.books, owner, row, ResourceOf(row, i), true);
    ExecutedBalanceRows(s, owner, row, ResourceOf(row, i), true);
    CarriedOutExecutes(s, now, owner, i);
  }

  lemma ApproveInv(s: State, now: Time, p: Principal, k: Id)
    requires Inv(s, now) && p.owner < |s.owners|
    requires Approve(s, now, p, k).Ok?
    ensures Inv(Approve(s, now, p, k).value, now)
  {
    var s', approval := Approve(s, now, p, k).value, s.approvals[k];
    var decided := s'.approvals[k];
    if approval.action.CounterpartyAction? {
      CounterpartyDecisionInv(s, now, k, Verified, decided);
    } else {
      CarriedOutShape(s, now, k, decided);
      var i := approval.action.id;
      ExecutedHoldInv(s, s', now, i, CarriedRow(s, now, i), k, decided);
    }
  }
}
