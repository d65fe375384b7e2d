/** The rows the services keep (models/), the database state as a value, and the session
    through which the services change it.

    Ids are ULIDs: fresh and increasing.  A table is therefore a sequence, and a row's id is
    its position in it.  The `payments` and `transfers` tables are kept together as one
    sequence of tagged rows, so that the two interleave in id order. */
module Models {
  import opened Prelude
  import opened PolicyEngine
  import opened Calendar
  import opened Sandbox

  type Id = nat

  datatype Money = Money(amount: int, currency: Currency)

  datatype Owner = Owner(currency: Currency, country: string, verified: bool)

  datatype Agent = Agent(owner: Id, status: AgentStatus, policyVersion: nat)

  datatype Counterparty = Counterparty(
    owner: Id,
    destinationCurrency: Option<Currency>,
    destinationCountry: Option<string>,
    status: CounterpartyStatus)

  datatype QuoteRow = QuoteRow(
    owner: Id,
    agent: Id,
    sourceAmount: int,
    sourceCurrency: Currency,
    destinationAmount: int,
    destinationCurrency: Currency,
    expiresAt: Time)

  // ---- Ledger and balances -----------------------------------------------------------------

  datatype Holder = Treasury(owner: Id) | AgentHolder(agent: Id)

  datatype SystemName = Settlement | Funding

  /** One account per (holder, currency), plus the system accounts. */
  datatype Account =
    | HolderAccount(holder: Holder, currency: Currency)
    | SystemAccount(name: SystemName, currency: Currency)

  datatype Direction = Debit | Credit | OtherDirection(text: string)

  datatype EntrySpec = EntrySpec(account: Account, direction: Direction, amount: int, currency: Currency)

  datatype Resource = FundingResource | PaymentResource(id: Id) | TransferResource(id: Id)

  datatype LedgerEntry = LedgerEntry(journal: Id, spec: EntrySpec, resource: Resource)

  datatype Balance = Balance(
    owner: Id,
    currency: Currency,
    available: int,
    pendingOut: int,
    breakdown: seq<Money>)

  /** The materialised balances and the append-only ledger. */
  datatype Books = Books(balances: map<Holder, Balance>, ledger: seq<LedgerEntry>)

  // ---- Payments, transfers, approvals ------------------------------------------------------

  /** An owner key, or an agent's credential. */
  datatype Credential = OwnerKey(id: Id) | AgentKey(id: Id, agent: Id)

  datatype Scope =
    | PaymentsCreate | PaymentsRead | TransfersCreate | QuotesCreate
    | CounterpartiesCreate | CounterpartiesRead | ApprovalsRead | BalanceRead

  datatype Principal = Principal(owner: Id, credential: Credential, scopes: set<Scope>)

  datatype Status = PendingApproval | Processing | Completed | Failed | Cancelled | Returned

  datatype FailureReason = CancelledByCaller | OwnerRejected | ExpiredApproval

  datatype TimelineStatus = Reached(status: Status) | Repriced

  datatype TimelineEntry = TimelineEntry(entry: TimelineStatus, at: Time)

  datatype Action =
    | Payment(
        owner: Id,
        agent: Id,
        credential: Credential,
        counterparty: Id,
        quote: Option<Id>,
        amount: int,
        currency: Currency,
        destinationAmount: int,
        destinationCurrency: Currency,
        status: Status,
        approval: Option<Id>,
        failureReason: Option<FailureReason>,
        rail: Option<string>,
        timeline: seq<TimelineEntry>,
        createdAt: Time,
        completedAt: Option<Time>)
    | Transfer(
        owner: Id,
        initiator: Option<Id>,
        credential: Credential,
        source: Holder,
        destination: Holder,
        amount: int,
        currency: Currency,
        status: Status,
        approval: Option<Id>,
        createdAt: Time)

  /** The same row, payment or transfer, with another status. */
  function WithStatus(a: Action, status: Status): Action {
    a.(status := status)
  }

  datatype ApprovalStatus = Pending | Approved | Rejected | Expired

  /** (action_type, action_id) */
  datatype ApprovalAction = PaymentAction(id: Id) | TransferAction(id: Id) | CounterpartyAction(id: Id)

  datatype Approval = Approval(
    owner: Id,
    agent: Id,
    action: ApprovalAction,
    trigger: HoldTrigger,
    status: ApprovalStatus,
    repriced: Option<(int, int)>,
    decidedBy: Option<Id>,
    decidedAt: Option<Time>,
    expiresAt: int)

  /** A `policy.evaluation` activity event. */
  datatype Evaluation = Evaluation(
    owner: Id,
    agent: Id,
    credential: Credential,
    actionType: ActionType,
    amount: Option<int>,
    policyVersion: nat,
    decision: Decision)

  /** The whole database.  `events` and `denials` are the two ways a `policy.evaluation`
      event is committed: with the request's transaction, or in a session of its own. */
  datatype State = State(
    owners: seq<Owner>,
    agents: seq<Agent>,
    policies: map<(Id, nat), Policy>,
    counterparties: seq<Counterparty>,
    quotes: seq<QuoteRow>,
    books: Books,
    actions: seq<Action>,
    approvals: seq<Approval>,
    events: seq<Evaluation>,
    denials: seq<Evaluation>)

  const EMPTY := State([], [], map[], [], [], Books(map[], []), [], [], [], [])

  /** The tables as the services see and change them. */
  class Session {
    var owners: seq<Owner>
    var agents: seq<Agent>
    var policies: map<(Id, nat), Policy>
    var counterparties: seq<Counterparty>
    var quotes: seq<QuoteRow>
    var balances: map<Holder, Balance>
    var ledger: seq<LedgerEntry>
    var actions: seq<Action>
    var approvals: seq<Approval>
    var events: seq<Evaluation>
    var denials: seq<Evaluation>

    function BooksView(): Books
      reads this
    {
      Books(balances, ledger)
    }

    function View(): State
      reads this
    {
      State(owners, agents, policies, counterparties, quotes, BooksView(), actions, approvals, events, denials)
    }

    constructor ()
      ensures View() == EMPTY
    {
      owners, agents, policies, counterparties, quotes := [], [], map[], [], [];
      balances, ledger, actions, approvals, events, denials := map[], [], [], [], [], [];
    }

    /** Rolls the request's own transaction back (db.py): everything but the denial
        records, which were committed elsewhere. */
    method Rollback(saved: State)
      modifies this
      ensures View() == saved.(denials := old(denials))
    {
      owners, agents, policies := saved.owners, saved.agents, saved.policies;
      counterparties, quotes := saved.counterparties, saved.quotes;
      balances, ledger := saved.books.balances, saved.books.ledger;
      actions, approvals, events := saved.actions, saved.approvals, saved.events;
    }
  }
}
