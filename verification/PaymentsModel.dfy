/** Payments and transfers (services/payments.py, services/transfers.py) and quotes, as
    functions on the database state. */
module PaymentsModel {
  import opened Prelude
  import opened Models
  import opened PolicyEngine
  import opened Calendar
  import opened Sandbox
  import opened BooksModel
  import opened Tallies
  import opened PolicyGateModel

  datatype PaymentBody = PaymentBody(agent: Id, counterparty: Id, quote: Option<Id>, amount: Option<Money>)

  datatype TransferBody = TransferBody(source: Holder, destination: Holder, amount: Money)

  datatype QuoteBody = QuoteBody(
    agent: Id,
    sourceAmount: Option<Money>,
    destinationAmount: Option<Money>,
    destinationCurrency: Currency)

  datatype Terms = Terms(
    sourceAmount: int,
    sourceCurrency: Currency,
    destinationAmount: int,
    destinationCurrency: Currency)

  // ---- Shared ------------------------------------------------------------------------------

  function ResourceOf(a: Action, id: Id): Resource {
    if a.Payment? then PaymentResource(id) else TransferResource(id)
  }

  function ReferenceTo(a: Action, id: Id): ApprovalAction {
    if a.Payment? then PaymentAction(id) else TransferAction(id)
  }

  /** Appends to a payment's timeline; transfers keep none. */
  function Noted(a: Action, entry: TimelineStatus, now: Time): Action {
    if a.Payment? then a.(timeline := a.timeline + [TimelineEntry(entry, now)]) else a
  }

  function OpenedIn(s: State, owner: Id, h: Holder): State
    requires owner < |s.owners|
  {
    s.(books := Opened(s.books, owner, OwnerCurrency(s, owner), h))
  }

  // ---- Execution ---------------------------------------------------------------------------

  /** What dispatching does to a payment row whose journal has been posted. */
  function Dispatched(a: Action, now: Time): Action
    requires a.Payment?
  {
    var result := Dispatch(a.destinationCurrency != a.currency);
    var row := Noted(a, Reached(Processing), now).(rail := Some(result.rail));
    if result.status == DispatchCompleted
    then Noted(row.(status := Completed, completedAt := Some(now)), Reached(Completed), now)
    else row
  }

  /** _execute: post the journal, dispatch, and complete the payment. */
  function ExecutePayment(s: State, now: Time, owner: Id, id: Id, fromReservation: bool): Result<State>
    requires owner < |s.owners| && id < |s.actions| && s.actions[id].Payment?
  {
    var row := s.actions[id];
    var books :- PayOut(s.books, owner, OwnerCurrency(s, owner), AgentHolder(row.agent), row.amount,
                        PaymentResource(id), fromReservation);
    Ok(s.(books := books, actions := s.actions[id := Dispatched(row, now)]))
  }

  function ExecuteTransfer(s: State, owner: Id, id: Id, fromReservation: bool): Result<State>
    requires owner < |s.owners| && id < |s.actions| && s.actions[id].Transfer?
  {
    var row := s.actions[id];
    var books :- InternalTransfer(s.books, owner, OwnerCurrency(s, owner), row.source, row.destination, row.amount,
                                  TransferResource(id), fromReservation);
    Ok(s.(books := books, actions := s.actions[id := WithStatus(row, Completed)]))
  }

  function Execute(s: State, now: Time, owner: Id, id: Id, fromReservation: bool): Result<State>
    requires owner < |s.owners| && id < |s.actions|
  {
    if s.actions[id].Payment? then ExecutePayment(s, now, owner, id, fromReservation)
    else ExecuteTransfer(s, owner, id, fromReservation)
  }

  /** The payment with its destination repriced if its quote has expired. */
  function RepricedRow(s: State, now: Time, row: Action): Result<Action>
    requires row.Payment?
  {
    if row.quote.None? then Ok(row)
    else if row.quote.value >= |s.quotes| then Err(RowMissing)
    else if s.quotes[row.quote.value].expiresAt >= now then Ok(row)
    else
      match Quote(row.currency, row.destinationCurrency, Some(row.amount), 0)
      case None => Err(UnsupportedRoute)
      case Some(route) => Ok(Noted(row.(destinationAmount := route.destinationAmount), Repriced, now))
  }

  /** execute_approved: what is carried out is the repriced row, paid from the reservation. */
  function ExecuteApproved(s: State, now: Time, owner: Id, id: Id): Result<State>
    requires owner < |s.owners| && id < |s.actions| && s.actions[id].Payment?
  {
    var row :- RepricedRow(s, now, s.actions[id]);
    ExecutePayment(s.(actions := s.actions[id := row]), now, owner, id, true)
  }

  /** A new action is inserted and executed at once. */
  function ExecuteNew(s: State, now: Time, owner: Id, row: Action): Outcome
    requires owner < |s.owners|
  {
    var id := |s.actions|;
    match Execute(s.(actions := s.actions + [row]), now, owner, id, false)
    case Err(e) => Outcome(s, Err(e))
    case Ok(s') => Outcome(s', Ok(id))
  }

  /** The row of a held action. */
  function HeldRow(row: Action, now: Time, approval: Id): Action {
    Noted(row.(status := PendingApproval, approval := Some(approval)), Reached(PendingApproval), now)
  }

  /** A new action is inserted as pending, its funds reserved and an approval raised. */
  function HoldNew(s: State, now: Time, p: Principal, agent: Id, row: Action, trigger: HoldTrigger): Outcome
    requires agent < |s.agents| && Source(row) in s.books.balances
  {
    var id := |s.actions|;
    match Reserve(s.books, Source(row), row.amount)
    case Err(e) => Outcome(s, Err(e))
    case Ok(books) =>
      var approval := NewApproval(s, now, p, agent, trigger, ReferenceTo(row, id));
      Outcome(s.(books := books,
                 actions := s.actions + [HeldRow(row, now, |s.approvals|)],
                 approvals := s.approvals + [approval]), Ok(id))
  }

  /** Owner keys skip the policy; an agent's action is evaluated and executed, held or denied. */
  function Gated(s: State, now: Time, p: Principal, agent: Id, row: Action, context: ActionContext): Outcome
    requires p.owner < |s.owners| && agent < |s.agents| && Source(row) in s.books.balances
  {
    if p.credential.OwnerKey? then ExecuteNew(s, now, p.owner, row)
    else
      var decision := Decide(s, p, agent, context);
      var s1 := Recorded(s, p, agent, context, decision);
      match decision
      case Deny(_) => Outcome(s1, Err(PolicyDenied))
      case Hold(trigger) => HoldNew(s1, now, p, agent, row, trigger)
      case Allow => ExecuteNew(s1, now, p.owner, row)
  }

  // ---- Payments ----------------------------------------------------------------------------

  /** An absent or empty field of the counterparty's destination. */
  function Given(field: Option<string>): Option<string> {
    if field == Some("") then None else field
  }

  function IsCrossBorder(country: string, currency: Currency, c: Counterparty): bool {
    if Given(c.destinationCountry).Some? then c.destinationCountry.value != country
    else if Given(c.destinationCurrency).Some? then c.destinationCurrency.value != currency
    else false
  }

  /** _resolve_amounts: a quote or an amount, never both; cross-currency needs a quote. */
  function ResolveAmounts(s: State, now: Time, p: Principal, body: PaymentBody, c: Counterparty): Result<Terms>
    requires p.owner < |s.owners|
  {
    var currency := OwnerCurrency(s, p.owner);
    var destination := if Given(c.destinationCurrency).Some? then c.destinationCurrency.value else currency;
    match (body.quote, body.amount)
    case (Some(_), Some(_)) => Err(ValidationError)
    case (Some(id), None) =>
      if id < |s.quotes| && s.quotes[id].owner == p.owner && s.quotes[id].agent == body.agent then
        var q := s.quotes[id];
        if q.expiresAt < now then Err(QuoteExpired)
        else Ok(Terms(q.sourceAmount, q.sourceCurrency, q.destinationAmount, q.destinationCurrency))
      else Err(NotFound)
    case (None, None) => Err(ValidationError)
    case (None, Some(money)) =>
      if money.currency != currency then Err(ValidationError)
      else if destination != currency then Err(ValidationError)
      else Ok(Terms(money.amount, currency, money.amount, currency))
  }

  /** Everything `create_payment` checks before it looks at the balance. */
  function PaymentTerms(s: State, now: Time, p: Principal, body: PaymentBody): Result<Terms>
    requires p.owner < |s.owners|
  {
    var _ :- RequireScope(p, PaymentsCreate);
    var _ :- GetAgent(s, p, body.agent);
    var c :- GetCounterparty(s, p, body.counterparty);
    var terms :- ResolveAmounts(s, now, p, body, c);
    var _ :- Check(terms.sourceAmount > 0, ValidationError);
    Ok(terms)
  }

  function NewPayment(now: Time, p: Principal, body: PaymentBody, terms: Terms): Action {
    Payment(p.owner, body.agent, p.credential, body.counterparty, body.quote, terms.sourceAmount,
            terms.sourceCurrency, terms.destinationAmount, terms.destinationCurrency, Processing,
            None, None, None, [], now, None)
  }

  function CreatePayment(s: State, now: Time, p: Principal, body: PaymentBody): Outcome
    requires Authentic(s, p)
  {
    match PaymentTerms(s, now, p, body)
    case Err(e) => Outcome(s, Err(e))
    case Ok(terms) =>
      var h := AgentHolder(body.agent);
      var s0 := OpenedIn(s, p.owner, h);
      if Avail(s0.books, h) < terms.sourceAmount then Outcome(s0, Err(InsufficientFunds))
      else
        var crossBorder := IsCrossBorder(s.owners[p.owner].country, terms.sourceCurrency,
                                         s.counterparties[body.counterparty]);
        var context := Context(s0, now, body.agent, PaymentType, Some(terms.sourceAmount),
                               Some(terms.destinationCurrency), Some(body.counterparty), crossBorder);
        Gated(s0, now, p, body.agent, NewPayment(now, p, body, terms), context)
  }

  /** get_payment: owner-scoped, and an agent sees only its own. */
  function GetPayment(s: State, p: Principal, id: Id): (r: Result<Action>)
    ensures r.Ok? ==> id < |s.actions| && r.value == s.actions[id] && r.value.Payment? && r.value.owner == p.owner
    ensures r.Ok? && p.credential.AgentKey? ==> r.value.agent == p.credential.agent
  {
    var _ :- RequireScope(p, PaymentsRead);
    if && id < |s.actions| && s.actions[id].Payment? && s.actions[id].owner == p.owner
       && (p.credential.AgentKey? ==> s.actions[id].agent == p.credential.agent)
    then Ok(s.actions[id])
    else Err(NotFound)
  }

  /** The row of an action whose hold has been released; the sweep leaves no timeline entry. */
  function CancelledRow(a: Action, now: Time, reason: FailureReason): Action {
    if a.Transfer? then WithStatus(a, Cancelled)
    else
      var row := a.(status := Cancelled, failureReason := Some(reason));
      if reason == ExpiredApproval then row else Noted(row, Reached(Cancelled), now)
  }

  function CancelPayment(s: State, now: Time, p: Principal, id: Id): Result<State>
    requires p.owner < |s.owners|
  {
    var _ :- RequireScope(p, PaymentsCreate);
    var payment :- GetPayment(s, p, id);
    var _ :- Check(payment.status == PendingApproval, CancellationNotAllowed);
    var h := AgentHolder(payment.agent);
    var s0 := OpenedIn(s, p.owner, h);
    var approvals :=
      if payment.approval.Some? && payment.approval.value < |s.approvals|
         && s.approvals[payment.approval.value].status == Pending
      then
        var k := payment.approval.value;
        s.approvals[k := s.approvals[k].(status := Expired, decidedAt := Some(now))]
      else s.approvals;
    Ok(s0.(books := Release(s0.books, h, payment.amount),
           actions := s.actions[id := CancelledRow(payment, now, CancelledByCaller)],
           approvals := approvals))
  }

  // ---- Transfers ---------------------------------------------------------------------------

  /** Tenant check on one end of a transfer. */
  function ValidateHolder(s: State, p: Principal, h: Holder): Result<Done> {
    match h
    case Treasury(owner) => Check(owner == p.owner, ValidationError)
    case AgentHolder(agent) =>
      var _ :- GetAgent(s, p, agent);
      Ok(Done.Done)
  }

  function ValidateTransfer(s: State, p: Principal, body: TransferBody): Result<Done>
    requires p.owner < |s.owners|
  {
    var _ :- RequireScope(p, TransfersCreate);
    var _ :- Check(body.amount.amount > 0, ValidationError);
    var _ :- Check(body.amount.currency == OwnerCurrency(s, p.owner), ValidationError);
    var _ :- Check(body.source != body.destination, ValidationError);
    var _ :- Check(p.credential.AgentKey? ==> body.source == AgentHolder(p.credential.agent), ValidationError);
    var _ :- ValidateHolder(s, p, body.source);
    ValidateHolder(s, p, body.destination)
  }

  function NewTransfer(now: Time, p: Principal, body: TransferBody): Action {
    Transfer(p.owner, Acting(p), p.credential, body.source, body.destination, body.amount.amount,
             body.amount.currency, Completed, None, now)
  }

  function CreateTransfer(s: State, now: Time, p: Principal, body: TransferBody): Outcome
    requires Authentic(s, p)
  {
    match ValidateTransfer(s, p, body)
    case Err(e) => Outcome(s, Err(e))
    case Ok(_) =>
      var s0 := OpenedIn(s, p.owner, body.source);
      if Avail(s0.books, body.source) < body.amount.amount then Outcome(s0, Err(InsufficientFunds))
      else if p.credential.OwnerKey? then ExecuteNew(s0, now, p.owner, NewTransfer(now, p, body))
      else
        var agent := p.credential.agent;
        var context := Context(s0, now, agent, TransferType, Some(body.amount.amount),
                               Some(body.amount.currency), None, false);
        Gated(s0, now, p, agent, NewTransfer(now, p, body), context)
  }

  // ---- Quotes ------------------------------------------------------------------------------

  function CreateQuote(s: State, now: Time, p: Principal, body: QuoteBody): Outcome
    requires p.owner < |s.owners|
  {
    match QuoteFor(s, now, p, body)
    case Err(e) => Outcome(s, Err(e))
    case Ok(quote) => Outcome(s.(quotes := s.quotes + [quote]), Ok(|s.quotes|))
  }

  function QuoteFor(s: State, now: Time, p: Principal, body: QuoteBody): Result<QuoteRow>
    requires p.owner < |s.owners|
  {
    var currency := OwnerCurrency(s, p.owner);
    var _ :- RequireScope(p, QuotesCreate);
    var _ :- GetAgent(s, p, body.agent);
    var _ :- Check(body.sourceAmount.Some? != body.destinationAmount.Some?, ValidationError);
    var _ :- Check(body.sourceAmount.Some? ==> body.sourceAmount.value.currency == currency, ValidationError);
    var _ :- Check(body.destinationAmount.Some? ==> body.destinationAmount.value.currency == body.destinationCurrency,
                   ValidationError);
    match Quote(currency, body.destinationCurrency,
                if body.sourceAmount.Some? then Some(body.sourceAmount.value.amount) else None,
                if body.destinationAmount.Some? then body.destinationAmount.value.amount else 0)
    case None => Err(UnsupportedRoute)
    case Some(route) =>
      Ok(QuoteRow(p.owner, body.agent, route.sourceAmount, currency, route.destinationAmount,
                  body.destinationCurrency, now + TTL_MINUTES * MINUTE))
  }
}
