/** Quotes and the payments made from them: what repricing at approval can change. */
module Repricing {
  import opened Models
  import opened Calendar
  import opened Sandbox
  import opened PolicyGateModel
  import opened PaymentsModel
  import opened ApprovalsModel
  import opened Machine
  import opened Invariant
  import opened Steps
  import opened StepInvariant
  import opened RunInvariant
  import opened Stability

  predicate SourcePriced(q: QuoteRow) {
    var rate := Rate(q.sourceCurrency, q.destinationCurrency);
    rate.Some? && q.destinationAmount == DestinationFor(q.sourceAmount, rate.value)
  }

  predicate DestinationPriced(q: QuoteRow) {
    var rate := Rate(q.sourceCurrency, q.destinationCurrency);
    rate.Some? && q.sourceAmount == SourceFor(q.destinationAmount, rate.value)
  }

  /** A payment made from a quote has the quote's terms. */
  predicate Carries(a: Action, quotes: seq<QuoteRow>) {
    a.Payment? && a.quote.Some? ==>
      && a.quote.value < |quotes|
      && var q := quotes[a.quote.value];
         && a.amount == q.sourceAmount && a.currency == q.sourceCurrency
         && a.destinationAmount == q.destinationAmount && a.destinationCurrency == q.destinationCurrency
  }

  /** Every quote was priced from one of its ends, and pending payments have their quotes' terms. */
  ghost predicate PricedInv(s: State) {
    && (forall q :: 0 <= q < |s.quotes| ==> SourcePriced(s.quotes[q]) || DestinationPriced(s.quotes[q]))
    && (forall i :: 0 <= i < |s.actions| && s.actions[i].status == PendingApproval ==> Carries(s.actions[i], s.quotes))
  }

  lemma QuotePriced(s: State, now: Time, p: Principal, body: QuoteBody)
    requires p.owner < |s.owners| && QuoteFor(s, now, p, body).Ok?
    ensures SourcePriced(QuoteFor(s, now, p, body).value) || DestinationPriced(QuoteFor(s, now, p, body).value)
  {
  }

  lemma TermsCarried(s: State, now: Time, p: Principal, body: PaymentBody)
    requires p.owner < |s.owners| && PaymentTerms(s, now, p, body).Ok?
    ensures Carries(NewPayment(now, p, body, PaymentTerms(s, now, p, body).value), s.quotes)
  {
  }

  /** A new payment, executed or held, has its quote's terms. */
  lemma NewPaymentCarries(s: State, now: Time, p: Principal, body: PaymentBody)
    requires Inv(s, now) && Authentic(s, p) && CreatePayment(s, now, p, body).result.Ok?
    ensures var s' := CreatePayment(s, now, p, body).state;
            && |s'.actions| == |s.actions| + 1 && s'.quotes == s.quotes
            && Carries(s'.actions[|s.actions|], s.quotes)
  {
    var s0, terms := CreatePaymentShape(s, now, p, body);
    var row := NewPayment(now, p, body, terms);
    var s1 := GatedShape(s0, now, p, body.agent, row, PaymentContext(s0, now, p, body, terms));
    TermsCarried(s, now, p, body);
  }

  lemma NewTransferCarries(s: State, now: Time, p: Principal, body: TransferBody)
    requires Inv(s, now) && Authentic(s, p) && CreateTransfer(s, now, p, body).result.Ok?
    ensures var s' := CreateTransfer(s, now, p, body).state;
            && |s'.actions| == |s.actions| + 1 && s'.quotes == s.quotes
            && Carries(s'.actions[|s.actions|], s.quotes)
  {
    var s0, agent := CreateTransferShape(s, now, p, body);
    var row := NewTransfer(now, p, body);
    if p.credential.OwnerKey? {
      ExecuteNewShape(s0, now, p.owner, row);
    } else {
      var s1 := GatedShape(s0, now, p, agent, row, TransferContext(s0, now, agent, body));
    }
  }

  lemma {:induction false} SweepQuotes(s: State, now: Time, ks: seq<Id>)
    ensures ExpireAll(s, now, ks).Ok? ==> ExpireAll(s, now, ks).value.quotes == s.quotes
  {
    if ks != [] {
      SweepQuotes(s, now, ks[..|ks| - 1]);
    }
  }

  lemma QuotesKept(s: State, now: Time, op: Op)
    requires PrincipalOf(op).Some? ==> Authentic(s, PrincipalOf(op).value)
    requires Perform(s, now, op).result.Ok? && !CreatesAction(op) && !op.CreateQuoteOp?
    ensures Perform(s, now, op).state.quotes == s.quotes
  {
    if op.ExpireStaleOp? {
      SweepQuotes(s, now, op.order);
    }
  }

  /** Old quotes stay as they are, and a pending action stays as it is while it is pending. */
  lemma KeepsPriced(s: State, s': State)
    requires PricedInv(s) && Extends(s, s')
    requires forall q :: |s.quotes| <= q < |s'.quotes| ==> SourcePriced(s'.quotes[q]) || DestinationPriced(s'.quotes[q])
    requires forall i :: |s.actions| <= i < |s'.actions| ==> Carries(s'.actions[i], s'.quotes)
    ensures PricedInv(s')
  {
    forall i | 0 <= i < |s'.actions| && s'.actions[i].status == PendingApproval
      ensures Carries(s'.actions[i], s'.quotes)
    {
      assert i < |s.actions| ==> LaterAction(s.actions[i], s'.actions[i]);
    }
  }

  lemma OneMorePriced(s: State, s': State)
    requires PricedInv(s) && Extends(s, s')
    requires |s'.actions| == |s.actions| + 1 && s'.quotes == s.quotes && Carries(s'.actions[|s.actions|], s.quotes)
    ensures PricedInv(s')
  {
    KeepsPriced(s, s');
  }

  lemma CreatesPriced(s: State, now: Time, op: Op)
    requires Inv(s, now) && PricedInv(s) && CreatesAction(op) && Authentic(s, op.p) && Perform(s, now, op).result.Ok?
    requires Extends(s, Perform(s, now, op).state)
    ensures PricedInv(Perform(s, now, op).state)
  {
    match op
    case CreatePaymentOp(p, body) => NewPaymentPriced(s, now, p, body);
    case CreateTransferOp(p, body) => NewTransferPriced(s, now, p, body);
  }

  lemma NewPaymentPriced(s: State, now: Time, p: Principal, body: PaymentBody)
    requires Inv(s, now) && PricedInv(s) && Authentic(s, p) && CreatePayment(s, now, p, body).result.Ok?
    requires Extends(s, CreatePayment(s, now, p, body).state)
    ensures PricedInv(CreatePayment(s, now, p, body).state)
  {
    NewPaymentCarries(s, now, p, body);
    OneMorePriced(s, CreatePayment(s, now, p, body).state);
  }

  lemma NewTransferPriced(s: State, now: Time, p: Principal, body: TransferBody)
    requires Inv(s, now) && PricedInv(s) && Authentic(s, p) && CreateTransfer(s, now, p, body).result.Ok?
    requires Extends(s, CreateTransfer(s, now, p, body).state)
    ensures PricedInv(CreateTransfer(s, now, p, body).state)
  {
    NewTransferCarries(s, now, p, body);
    OneMorePriced(s, CreateTransfer(s, now, p, body).state);
  }

  lemma QuotesPriced(s: State, now: Time, p: Principal, body: QuoteBody)
    requires PricedInv(s) && p.owner < |s.owners| && CreateQuote(s, now, p, body).result.Ok?
    ensures PricedInv(CreateQuote(s, now, p, body).state)
  {
    QuotePriced(s, now, p, body);
  }

  lemma PerformPriced(s: State, now: Time, op: Op)
    requires Inv(s, now) && Enabled(s, now, op) && PricedInv(s)
    requires PrincipalOf(op).Some? ==> Authentic(s, PrincipalOf(op).value)
    requires Perform(s, now, op).result.Ok?
    ensures PricedInv(Perform(s, now, op).state)
  {
    PerformExtends(s, now, op);
    if CreatesAction(op) {
      CreatesPriced(s, now, op);
    } else if op.CreateQuoteOp? {
      QuotesPriced(s, now, op.p, op.quote);
    } else {
      QuotesKept(s, now, op);
      KeepsPriced(s, Perform(s, now, op).state);
    }
  }

  lemma StepPriced(s: State, clock: Time, now: Time, op: Op)
    requires Inv(s, clock) && clock <= now && Enabled(s, now, op) && PricedInv(s)
    ensures PricedInv(Step(s, now, op).state)
  {
    AdvanceClock(s, clock, now);
    if (PrincipalOf(op).Some? ==> Authentic(s, PrincipalOf(op).value)) && Perform(s, now, op).result.Ok? {
      PerformPriced(s, now, op);
    }
  }

  lemma {:induction false} RunPriced(s: State, start: Time, events: seq<Event>)
    requires Inv(s, start) && Possible(s, start, events) && PricedInv(s)
    ensures PricedInv(Run(s, events))
  {
    if events != [] {
      var before, last := events[..|events| - 1], events[|events| - 1];
      RunPriced(s, start, before);
      RunInv(s, start, before);
      StepPriced(Run(s, before), Clock(start, before), last.now, last.op);
    }
  }

  lemma ReachablePriced(s: State, clock: Time)
    requires Reachable(s, clock)
    ensures PricedInv(s)
  {
    var start: Time, events: seq<Event> :|
      Possible(EMPTY, start, events) && s == Run(EMPTY, events) && clock == Clock(start, events);
    EmptyInv(start);
    RunPriced(EMPTY, start, events);
  }

  /** Approving a payment made from a quote never changes what it costs.  It leaves the destination
      amount alone if the quote has not expired or was priced from its source, and otherwise moves
      it by at most half a cent times one plus the rate. */
  lemma ApprovalReprices(s: State, clock: Time, now: Time, o: Principal, k: Id)
    requires Reachable(s, clock) && clock <= now && o.owner < |s.owners| && Approve(s, now, o, k).Ok?
    requires s.approvals[k].action.PaymentAction? && s.approvals[k].action.id < |s.actions|
    requires var row := s.actions[s.approvals[k].action.id];
             row.Payment? && row.quote.Some? && row.quote.value < |s.quotes|
    ensures var i, s' := s.approvals[k].action.id, Approve(s, now, o, k).value;
            var row, q := s.actions[i], s.quotes[s.actions[i].quote.value];
            && i < |s'.actions| && s'.actions[i].Payment? && s'.actions[i].amount == row.amount
            && (now <= q.expiresAt || SourcePriced(q) ==> s'.actions[i].destinationAmount == row.destinationAmount)
            && Rate(q.sourceCurrency, q.destinationCurrency).Some?
            && var rate := Rate(q.sourceCurrency, q.destinationCurrency).value;
               2 * Abs(s'.actions[i].destinationAmount - row.destinationAmount) * RATE_SCALE
               <= CENT * (RATE_SCALE + rate)
  {
    ReachableInv(s, clock);
    ReachablePriced(s, clock);
    AdvanceClock(s, clock, now);
    var i := ApprovedCarries(s, now, o, k);
    RepriceBound(s, now, i);
  }

  /** Approving a payment carries its row out. */
  lemma ApprovedCarries(s: State, now: Time, o: Principal, k: Id) returns (i: Id)
    requires Inv(s, now) && o.owner < |s.owners| && Approve(s, now, o, k).Ok? && s.approvals[k].action.PaymentAction?
    ensures s.approvals[k].action == PaymentAction(i) && i < |s.actions| && s.actions[i].status == PendingApproval
    ensures s.actions[i].Payment? && |Approve(s, now, o, k).value.actions| == |s.actions|
    ensures Approve(s, now, o, k).value.actions[i] == CarriedRow(s, now, i)
  {
    i := HoldOf(s, now, k);
    CarriedOutExecutes(s, now, o.owner, i);
  }

  /** The row a payment with its quote's terms is carried out as. */
  lemma RepriceBound(s: State, now: Time, i: Id)
    requires i < |s.actions| && s.actions[i].Payment? && s.actions[i].quote.Some? && Carries(s.actions[i], s.quotes)
    requires var q := s.quotes[s.actions[i].quote.value]; SourcePriced(q) || DestinationPriced(q)
    ensures var row, q, row' := s.actions[i], s.quotes[s.actions[i].quote.value], CarriedRow(s, now, i);
            var rate := Rate(q.sourceCurrency, q.destinationCurrency).value;
            && row'.Payment? && row'.amount == row.amount
            && (now <= q.expiresAt || SourcePriced(q) ==> row'.destinationAmount == row.destinationAmount)
            && 2 * Abs(row'.destinationAmount - row.destinationAmount) * RATE_SCALE <= CENT * (RATE_SCALE + rate)
  {
    var q := s.quotes[s.actions[i].quote.value];
    var rate := Rate(q.sourceCurrency, q.destinationCurrency).value;
    if DestinationPriced(q) {
      RepriceDrift(q.destinationAmount, rate);
    }
  }
}
