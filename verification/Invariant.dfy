/** The invariant of the whole database. */
module Invariant {
  import opened Prelude
  import opened Models
  import opened PolicyEngine
  import opened Calendar
  import opened Sandbox
  import opened BooksModel
  import opened BooksEffects
  import opened Tallies
  import opened PolicyGateModel
  import opened PaymentsModel
  import opened MoneyInvariant

  // ---- Rows --------------------------------------------------------------------------------

  /** `h` is a holder of `owner`'s, and `owner` keeps its money in `currency`. */
  ghost predicate Belongs(owners: seq<Owner>, agents: seq<Agent>, h: Holder, owner: Id, currency: Currency) {
    && owner < |owners|
    && owners[owner].currency == currency
    && match h
       case Treasury(o) => o == owner
       case AgentHolder(a) => a < |agents| && agents[a].owner == owner
  }

  ghost predicate BalanceRows(owners: seq<Owner>, agents: seq<Agent>, balances: map<Holder, Balance>) {
    forall h | h in balances :: Belongs(owners, agents, h, balances[h].owner, balances[h].currency)
  }

  ghost predicate ActionRow(owners: seq<Owner>, agents: seq<Agent>, quotes: seq<QuoteRow>, a: Action, clock: Time) {
    && a.amount > 0
    && a.createdAt <= clock
    && a.status in {PendingApproval, Completed, Cancelled}
    && Belongs(owners, agents, Source(a), a.owner, a.currency)
    && (a.Payment? ==>
         && (a.quote.Some? ==> a.quote.value < |quotes|)
         && Rate(a.currency, a.destinationCurrency).Some?)
    && (a.Transfer? ==>
         && a.source != a.destination
         && Belongs(owners, agents, a.destination, a.owner, a.currency))
  }

  ghost predicate ActionRows(owners: seq<Owner>, agents: seq<Agent>, quotes: seq<QuoteRow>, actions: seq<Action>,
                             clock: Time)
  {
    forall i :: 0 <= i < |actions| ==> ActionRow(owners, agents, quotes, actions[i], clock)
  }

  ghost predicate AgentRows(owners: seq<Owner>, agents: seq<Agent>) {
    forall a :: 0 <= a < |agents| ==> agents[a].owner < |owners|
  }

  ghost predicate CounterpartyRows(owners: seq<Owner>, counterparties: seq<Counterparty>) {
    forall c :: 0 <= c < |counterparties| ==> counterparties[c].owner < |owners|
  }

  ghost predicate QuoteRows(quotes: seq<QuoteRow>, owners: seq<Owner>) {
    forall q :: 0 <= q < |quotes| ==>
      && quotes[q].owner < |owners|
      && quotes[q].sourceCurrency == owners[quotes[q].owner].currency
      && Rate(quotes[q].sourceCurrency, quotes[q].destinationCurrency).Some?
  }

  /** Every version up to the current one is stored, and no later one. */
  ghost predicate PolicyRows(agents: seq<Agent>, policies: map<(Id, nat), Policy>) {
    forall a: Id, v: nat :: (a, v) in policies <==> a < |agents| && 1 <= v <= agents[a].policyVersion
  }

  // ---- The approval queue ------------------------------------------------------------------

  /** The statuses an approval and its action have together. */
  predicate Agree(approval: ApprovalStatus, action: Status) {
    match approval
    case Pending => action == PendingApproval
    case Approved => action == Completed
    case Rejected => action == Cancelled
    case Expired => action == Cancelled
  }

  /** An action either has its own approval, or was executed at once. */
  ghost predicate ActionLinked(actions: seq<Action>, approvals: seq<Approval>, i: Id)
    requires i < |actions|
  {
    match actions[i].approval
    case None => actions[i].status == Completed
    case Some(k) =>
      && k < |approvals|
      && approvals[k].action == ReferenceTo(actions[i], i)
      && approvals[k].owner == actions[i].owner
      && Agree(approvals[k].status, actions[i].status)
  }

  ghost predicate ApprovalLinked(actions: seq<Action>, approvals: seq<Approval>, counterparties: seq<Counterparty>,
                                 k: Id)
    requires k < |approvals|
  {
    match approvals[k].action
    case CounterpartyAction(c) => c < |counterparties| && counterparties[c].owner == approvals[k].owner
    case PaymentAction(i) => i < |actions| && actions[i].Payment? && actions[i].approval == Some(k)
    case TransferAction(i) => i < |actions| && actions[i].Transfer? && actions[i].approval == Some(k)
  }

  ghost predicate Linked(actions: seq<Action>, approvals: seq<Approval>, counterparties: seq<Counterparty>) {
    && (forall i: Id :: i < |actions| ==> ActionLinked(actions, approvals, i))
    && (forall k: Id :: k < |approvals| ==> ApprovalLinked(actions, approvals, counterparties, k))
  }

  ghost predicate ApprovalRows(owners: seq<Owner>, approvals: seq<Approval>) {
    forall k :: 0 <= k < |approvals| ==> approvals[k].owner < |owners|
  }

  // ---- All together ------------------------------------------------------------------------

  ghost predicate RowsInv(s: State, clock: Time) {
    && AgentRows(s.owners, s.agents)
    && CounterpartyRows(s.owners, s.counterparties)
    && QuoteRows(s.quotes, s.owners)
    && PolicyRows(s.agents, s.policies)
    && BalanceRows(s.owners, s.agents, s.books.balances)
    && ActionRows(s.owners, s.agents, s.quotes, s.actions, clock)
    && ApprovalRows(s.owners, s.approvals)
    && Linked(s.actions, s.approvals, s.counterparties)
  }

  ghost predicate Inv(s: State, clock: Time) {
    RowsInv(s, clock) && MoneyInv(s.books, s.actions)
  }

  lemma EmptyInv(clock: Time)
    ensures Inv(EMPTY, clock)
  {
  }

  /** The clock may advance, and tables that rows only refer to may grow. */
  lemma RowsGrow(s: State, s': State, clock: Time, now: Time)
    requires RowsInv(s, clock) && clock <= now
    requires s.owners <= s'.owners && s.quotes <= s'.quotes
    requires |s.agents| <= |s'.agents| && forall a :: 0 <= a < |s.agents| ==> s'.agents[a].owner == s.agents[a].owner
    ensures ActionRows(s'.owners, s'.agents, s'.quotes, s.actions, now)
    ensures BalanceRows(s'.owners, s'.agents, s.books.balances)
  {
    assert forall o :: 0 <= o < |s.owners| ==> s'.owners[o] == s.owners[o];
  }

  lemma OwnedDenomination(s: State, h: Holder, owner: Id, currency: Currency)
    requires BalanceRows(s.owners, s.agents, s.books.balances)
    requires Belongs(s.owners, s.agents, h, owner, currency)
    ensures Denominated(s.books, h, currency)
  {
  }

  // ---- Opening -----------------------------------------------------------------------------

  lemma OpenedInv(s: State, clock: Time, owner: Id, h: Holder)
    requires Inv(s, clock) && owner < |s.owners| && Belongs(s.owners, s.agents, h, owner, OwnerCurrency(s, owner))
    ensures Inv(OpenedIn(s, owner, h), clock)
    ensures forall x: Holder :: Avail(OpenedIn(s, owner, h).books, x) == Avail(s.books, x)
  {
    OpenedMoney(s.books, s.actions, owner, OwnerCurrency(s, owner), h);
    OpenedEffect(s.books, owner, OwnerCurrency(s, owner), h);
  }
}
