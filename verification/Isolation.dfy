/** Tenant isolation: a request by one owner's principal changes nothing of another owner's,
    although the release of held funds and the balance lookups go by id alone. */
module Isolation {
  import opened Prelude
  import opened Models
  import opened PolicyEngine
  import opened Calendar
  import opened Sandbox
  import opened Posting
  import opened BooksModel
  import opened BooksEffects
  import opened Tallies
  import opened PolicyGateModel
  import opened PaymentsModel
  import opened ApprovalsModel
  import opened Machine
  import opened MoneyInvariant
  import opened Invariant
  import opened Steps
  import opened StepInvariant
  import opened Sweep
  import opened RunInvariant
  import opened Stability

  // ---- Books -------------------------------------------------------------------------------

  ghost predicate SameBalance(b: Books, b': Books, h: Holder) {
    && (h in b.balances <==> h in b'.balances)
    && (h in b.balances ==> b'.balances[h] == b.balances[h])
  }

  /** Entries were only added, and those on holder accounts only for holders of `q`'s. */
  ghost predicate OwnEntries(agents: seq<Agent>, l: seq<LedgerEntry>, l': seq<LedgerEntry>, q: Id) {
    && l <= l'
    && (forall j :: |l| <= j < |l'| && l'[j].spec.account.HolderAccount? ==>
        Holds(agents, l'[j].spec.account.holder, q))
  }

  predicate Holds(agents: seq<Agent>, h: Holder, q: Id) {
    match h
    case Treasury(owner) => owner == q
    case AgentHolder(a) => a < |agents| && agents[a].owner == q
  }

  ghost predicate OnlyBooksOf(agents: seq<Agent>, b: Books, b': Books, q: Id) {
    && (forall h: Holder :: !Holds(agents, h, q) ==> SameBalance(b, b', h))
    && OwnEntries(agents, b.ledger, b'.ledger, q)
  }

  lemma OnlyBooksChain(agents: seq<Agent>, b: Books, b1: Books, b2: Books, q: Id)
    requires OnlyBooksOf(agents, b, b1, q) && OnlyBooksOf(agents, b1, b2, q)
    ensures OnlyBooksOf(agents, b, b2, q)
  {
    forall h: Holder | !Holds(agents, h, q) ensures SameBalance(b, b2, h) {
      assert SameBalance(b, b1, h) && SameBalance(b1, b2, h);
    }
  }

  lemma BalancesOnly(agents: seq<Agent>, b: Books, owner: Id, currency: Currency, h: Holder, x: int, y: int, q: Id)
    requires Holds(agents, h, q)
    ensures OnlyBooksOf(agents, b, Opened(b, owner, currency, h), q)
    ensures h in b.balances ==> OnlyBooksOf(agents, b, Changed(b, h, x, y), q)
  {
  }

  /** Executing an action leaves every balance but its two holders' alone. */
  lemma ExecutedElsewhere(b: Books, owner: Id, row: Action, r: Resource, fromReservation: bool, h: Holder)
    requires ExecuteBooks(b, owner, row.currency, row, r, fromReservation).Ok?
    requires h != Source(row) && (row.Transfer? ==> h != row.destination)
    ensures SameBalance(b, ExecuteBooks(b, owner, row.currency, row, r, fromReservation).value, h)
  {
  }

  lemma ExecutedEntries(b: Books, owner: Id, row: Action, r: Resource, fromReservation: bool)
    requires ExecuteBooks(b, owner, row.currency, row, r, fromReservation).Ok?
    ensures ExecuteBooks(b, owner, row.currency, row, r, fromReservation).value.ledger
            == b.ledger + JournalOf(row, NextJournal(b.ledger), r)
  {
    JournalEffect(b.ledger, HolderAccount(Source(row), row.currency), Target(row), row.amount, row.currency, r);
  }

  lemma ExecuteBooksOnly(agents: seq<Agent>, b: Books, owner: Id, row: Action, r: Resource, fromReservation: bool,
                         q: Id)
    requires Holds(agents, Source(row), q) && (row.Transfer? ==> Holds(agents, row.destination, q))
    requires ExecuteBooks(b, owner, row.currency, row, r, fromReservation).Ok?
    ensures OnlyBooksOf(agents, b, ExecuteBooks(b, owner, row.currency, row, r, fromReservation).value, q)
  {
    ExecutedEntries(b, owner, row, r, fromReservation);
    var b' := ExecuteBooks(b, owner, row.currency, row, r, fromReservation).value;
    forall h: Holder | !Holds(agents, h, q) ensures SameBalance(b, b', h) {
      ExecutedElsewhere(b, owner, row, r, fromReservation, h);
    }
  }

  // ---- The whole database ------------------------------------------------------------------

  /** Rows were only added, and only rows of `q`'s were added or changed. */
  ghost predicate OnlyRowsOf<T(!new)>(xs: seq<T>, ys: seq<T>, owner: T -> Id, q: Id) {
    && |xs| <= |ys|
    && (forall i :: 0 <= i < |xs| && owner(xs[i]) != q ==> ys[i] == xs[i])
    && (forall i :: 0 <= i < |ys| ==> owner(ys[i]) == q || (i < |xs| && ys[i] == xs[i]))
  }

  /** Whatever changed from `s` to `s'` is `q`'s. */
  ghost predicate OnlyOf(s: State, s': State, q: Id) {
    && s'.owners == s.owners
    && OnlyRowsOf(s.agents, s'.agents, (a: Agent) => a.owner, q)
    && (forall a: Id, v: nat :: a < |s'.agents| && s'.agents[a].owner != q && (a, v) in s'.policies ==>
         (a, v) in s.policies && s'.policies[(a, v)] == s.policies[(a, v)])
    && OnlyRowsOf(s.counterparties, s'.counterparties, (c: Counterparty) => c.owner, q)
    && OnlyRowsOf(s.quotes, s'.quotes, (c: QuoteRow) => c.owner, q)
    && OnlyBooksOf(s'.agents, s.books, s'.books, q)
    && OnlyRowsOf(s.actions, s'.actions, (a: Action) => a.owner, q)
    && OnlyRowsOf(s.approvals, s'.approvals, (a: Approval) => a.owner, q)
  }

  // ---- Service calls -----------------------------------------------------------------------

  lemma ExecuteNewOnly(s: State, now: Time, owner: Id, row: Action)
    requires BalanceRows(s.owners, s.agents, s.books.balances) && Fresh(s, now, owner, row)
    ensures OnlyOf(s, ExecuteNew(s, now, owner, row).state, owner)
  {
    ExecuteNewShape(s, now, owner, row);
    FreshDenominated(s, now, owner, row);
    var inserted, r := s.(actions := s.actions + [row]), ResourceOf(row, |s.actions|);
    ExecuteShape(inserted, now, owner, |s.actions|, false);
    ExecuteBooksEffect(s.books, owner, row, r, false);
    assert ActionRow(s.owners, s.agents, s.quotes, WithStatus(row, Completed), now);
    ExecuteBooksOnly(s.agents, s.books, owner, row, r, false, owner);
    NewRowOnly(s, ExecuteNew(s, now, owner, row).state, DoneRow(row, now), owner);
  }

  /** One more action of `q`'s, and its money. */
  lemma NewRowOnly(s: State, s': State, row: Action, q: Id)
    requires s' == s.(books := s'.books, actions := s.actions + [row]) && row.owner == q
    requires OnlyBooksOf(s.agents, s.books, s'.books, q)
    ensures OnlyOf(s, s', q)
  {
  }

  lemma HoldNewOnly(s: State, now: Time, p: Principal, agent: Id, row: Action, trigger: HoldTrigger)
    requires agent < |s.agents| && Source(row) in s.books.balances
    requires Fresh(s, now, p.owner, row)
    ensures OnlyOf(s, HoldNew(s, now, p, agent, row, trigger).state, p.owner)
  {
    assert ActionRow(s.owners, s.agents, s.quotes, WithStatus(row, Completed), now);
    BalancesOnly(s.agents, s.books, p.owner, row.currency, Source(row), -row.amount, row.amount, p.owner);
  }

  lemma GatedOnly(s: State, now: Time, p: Principal, agent: Id, row: Action, context: ActionContext)
    requires BalanceRows(s.owners, s.agents, s.books.balances)
    requires Authentic(s, p) && agent < |s.agents|
    requires Fresh(s, now, p.owner, row) && Source(row) in s.books.balances
    ensures OnlyOf(s, Gated(s, now, p, agent, row, context).state, p.owner)
  {
    if p.credential.OwnerKey? {
      ExecuteNewOnly(s, now, p.owner, row);
    } else {
      var decision := Decide(s, p, agent, context);
      var s1 := Recorded(s, p, agent, context, decision);
      match decision
      case Hold(trigger) => HoldNewOnly(s1, now, p, agent, row, trigger);
      case Allow => ExecuteNewOnly(s1, now, p.owner, row);
      case Deny(_) =>
    }
  }

  lemma OpenedOnly(s: State, s': State, owner: Id, h: Holder)
    requires owner < |s.owners| && Holds(s.agents, h, owner)
    requires OnlyOf(OpenedIn(s, owner, h), s', owner) && s'.agents == s.agents
    ensures OnlyOf(s, s', owner)
  {
    var b := OpenedIn(s, owner, h).books;
    BalancesOnly(s.agents, s.books, owner, OwnerCurrency(s, owner), h, 0, 0, owner);
    OnlyBooksChain(s.agents, s.books, b, s'.books, owner);
  }

  lemma CreatePaymentOnly(s: State, now: Time, p: Principal, body: PaymentBody)
    requires Inv(s, now) && Authentic(s, p) && CreatePayment(s, now, p, body).result.Ok?
    ensures OnlyOf(s, CreatePayment(s, now, p, body).state, p.owner)
  {
    var s0, terms := CreatePaymentShape(s, now, p, body);
    var row, context := NewPayment(now, p, body, terms), PaymentContext(s0, now, p, body, terms);
    GatedOnly(s0, now, p, body.agent, row, context);
    var s1 := GatedShape(s0, now, p, body.agent, row, context);
    OpenedOnly(s, CreatePayment(s, now, p, body).state, p.owner, AgentHolder(body.agent));
  }

  lemma CreateTransferOnly(s: State, now: Time, p: Principal, body: TransferBody)
    requires Inv(s, now) && Authentic(s, p) && CreateTransfer(s, now, p, body).result.Ok?
    ensures OnlyOf(s, CreateTransfer(s, now, p, body).state, p.owner)
  {
    var s0, agent := CreateTransferShape(s, now, p, body);
    var row := NewTransfer(now, p, body);
    if p.credential.OwnerKey? {
      ExecuteNewOnly(s0, now, p.owner, row);
      ExecuteNewShape(s0, now, p.owner, row);
    } else {
      GatedOnly(s0, now, p, agent, row, TransferContext(s0, now, agent, body));
      var s1 := GatedShape(s0, now, p, agent, row, TransferContext(s0, now, agent, body));
    }
    OpenedOnly(s, CreateTransfer(s, now, p, body).state, p.owner, body.source);
  }

  /** Releasing a hold of `q`'s touches only `q`'s rows, though the lookup went by id. */
  lemma ReleasedOnly(s: State, s': State, now: Time, i: Id, row: Action, k: Id, approval: Approval)
    requires Inv(s, now) && OnHold(s, i, k) && ReleasedHold(s, s', i, row, k, approval)
    ensures OnlyOf(s, s', s.actions[i].owner)
  {
    var owner, h := s.actions[i].owner, Source(row);
    assert ActionRow(s.owners, s.agents, s.quotes, s.actions[i], now);
    assert ActionLinked(s.actions, s.approvals, i);
    var s0 := OpenedIn(s, owner, h);
    BalancesOnly(s.agents, s.books, owner, OwnerCurrency(s, owner), h, 0, 0, owner);
    BalancesOnly(s.agents, s0.books, owner, OwnerCurrency(s, owner), h, row.amount, -row.amount, owner);
    OnlyBooksChain(s.agents, s.books, s0.books, s'.books, owner);
  }

  lemma CancelOnly(s: State, now: Time, p: Principal, id: Id)
    requires Inv(s, now) && p.owner < |s.owners| && CancelPayment(s, now, p, id).Ok?
    ensures OnlyOf(s, CancelPayment(s, now, p, id).value, p.owner)
  {
    CancelPaymentShape(s, now, p, id);
    var s', k := CancelPayment(s, now, p, id).value, s.actions[id].approval.value;
    ReleasedOnly(s, s', now, id, CancelledRow(s.actions[id], now, CancelledByCaller), k, s'.approvals[k]);
  }

  lemma RejectOnly(s: State, now: Time, p: Principal, k: Id)
    requires Inv(s, now) && p.owner < |s.owners| && Reject(s, now, p, k).Ok?
    ensures OnlyOf(s, Reject(s, now, p, k).value, p.owner)
  {
    var s', approval := Reject(s, now, p, k).value, s.approvals[k];
    assert ApprovalLinked(s.actions, s.approvals, s.counterparties, k);
    if !approval.action.CounterpartyAction? {
      UnwoundShape(s, s', now, p.owner, k, OwnerRejected, s'.approvals[k]);
      var i := approval.action.id;
      assert ActionLinked(s.actions, s.approvals, i);
      ReleasedOnly(s, s', now, i, CancelledRow(s.actions[i], now, OwnerRejected), k, s'.approvals[k]);
    }
  }

  lemma ApproveOnly(s: State, now: Time, p: Principal, k: Id)
    requires Inv(s, now) && p.owner < |s.owners| && Approve(s, now, p, k).Ok?
    ensures OnlyOf(s, Approve(s, now, p, k).value, p.owner)
  {
    if s.approvals[k].action.CounterpartyAction? {
      assert ApprovalLinked(s.actions, s.approvals, s.counterparties, k);
    } else {
      CarriedOutOnly(s, now, k, Approve(s, now, p, k).value.approvals[k]);
    }
  }

  lemma CarriedOutOnly(s: State, now: Time, k: Id, approval: Approval)
    requires Inv(s, now) && k < |s.approvals| && s.approvals[k].status == Pending
    requires !s.approvals[k].action.CounterpartyAction?
    requires approval.owner == s.approvals[k].owner && approval.owner < |s.owners|
    requires CarriedOut(s, now, approval.owner, s.approvals[k].action).Ok?
    ensures OnlyOf(s,
                   CarriedOut(s, now, approval.owner, s.approvals[k].action).value
                   .(approvals := s.approvals[k := approval]),
                   approval.owner)
  {
    var i := HoldOf(s, now, k);
    var row := s.actions[i];
    CarriedOutExecutes(s, now, approval.owner, i);
    ExecuteBooksOnly(s.agents, s.books, approval.owner, row, ResourceOf(row, i), true, approval.owner);
  }

  /** The books of a carried-out action are those of executing its row. */
  lemma CarriedOutBooks(s: State, now: Time, k: Id)
    requires Inv(s, now) && k < |s.approvals| && s.approvals[k].status == Pending
    requires !s.approvals[k].action.CounterpartyAction?
    requires CarriedOut(s, now, s.approvals[k].owner, s.approvals[k].action).Ok?
    ensures s.approvals[k].action.id < |s.actions|
    ensures var i, owner := s.approvals[k].action.id, s.approvals[k].owner;
            var row := s.actions[i];
            ExecuteBooks(s.books, owner, row.currency, row, ResourceOf(row, i), true)
            == Ok(CarriedOut(s, now, owner, s.approvals[k].action).value.books)
  {
    var i := HoldOf(s, now, k);
    CarriedOutExecutes(s, now, s.approvals[k].owner, i);
  }

  lemma CreateAgentOnly(s: State, p: Principal)
    requires p.owner < |s.owners| && CreateAgent(s, p).Ok?
    ensures OnlyOf(s, CreateAgent(s, p).value, p.owner)
  {
    var s1 := s.(agents := s.agents + [Agent(p.owner, Active, 0)]);
    BalancesOnly(s1.agents, s.books, p.owner, OwnerCurrency(s, p.owner), AgentHolder(|s.agents|), 0, 0, p.owner);
  }

  lemma ReadBalanceOnly(s: State, p: Principal, agent: Option<Id>)
    requires Authentic(s, p) && ReadBalance(s, p, agent).Ok?
    ensures OnlyOf(s, ReadBalance(s, p, agent).value, p.owner)
  {
    var h := if agent.Some? then AgentHolder(agent.value)
             else if p.credential.AgentKey? then AgentHolder(p.credential.agent) else Treasury(p.owner);
    BalancesOnly(s.agents, s.books, p.owner, OwnerCurrency(s, p.owner), h, 0, 0, p.owner);
  }

  lemma SetupOnly(s: State, now: Time, op: Op)
    requires Inv(s, now) && PrincipalOf(op).Some? && Authentic(s, PrincipalOf(op).value)
    requires op.CreateAgentOp? || op.SetAgentStatus? || op.ReplacePolicy? || op.CreateCounterpartyOp?
             || op.VerifyCounterparty? || op.CreateQuoteOp? || op.ReadBalanceOp?
    requires Perform(s, now, op).result.Ok?
    ensures OnlyOf(s, Perform(s, now, op).state, op.p.owner)
  {
    match op
    case CreateAgentOp(p) => CreateAgentOnly(s, p);
    case SetAgentStatus(_, _, _) =>
    case ReplacePolicy(_, _, _) =>
    case CreateCounterpartyOp(p, currency, country) => CreateCounterpartyOnly(s, now, p, currency, country);
    case VerifyCounterparty(_, _) =>
    case CreateQuoteOp(_, _) =>
    case ReadBalanceOp(p, agent) => ReadBalanceOnly(s, p, agent);
  }

  lemma CreateCounterpartyOnly(s: State, now: Time, p: Principal, currency: Option<Currency>, country: Option<string>)
    requires Authentic(s, p) && CreateCounterparty(s, now, p, currency, country).result.Ok?
    ensures OnlyOf(s, CreateCounterparty(s, now, p, currency, country).state, p.owner)
  {
  }

  lemma DenialsOnly(s: State, s': State, q: Id)
    requires s' == s.(denials := s'.denials)
    ensures OnlyOf(s, s', q)
  {
  }

  lemma PerformOnly(s: State, now: Time, op: Op)
    requires Inv(s, now) && PrincipalOf(op).Some? && Authentic(s, op.p) && Perform(s, now, op).result.Ok?
    ensures OnlyOf(s, Perform(s, now, op).state, op.p.owner)
  {
    match op
    case CreatePaymentOp(p, body) => CreatePaymentOnly(s, now, p, body);
    case CreateTransferOp(p, body) => CreateTransferOnly(s, now, p, body);
    case CancelPaymentOp(p, id) => CancelOnly(s, now, p, id);
    case RejectOp(p, k) => RejectOnly(s, now, p, k);
    case ApproveOp(p, k) => ApproveOnly(s, now, p, k);
    case _ => SetupOnly(s, now, op);
  }

  /** Any request by a principal of `p.owner`'s, successful or not, changes only what is
      `p.owner`'s; every other owner's rows and balances are as before. */
  lemma StepOnly(s: State, clock: Time, now: Time, op: Op)
    requires Inv(s, clock) && clock <= now && PrincipalOf(op).Some?
    ensures OnlyOf(s, Step(s, now, op).state, PrincipalOf(op).value.owner)
  {
    AdvanceClock(s, clock, now);
    if !Authentic(s, PrincipalOf(op).value) || Perform(s, now, op).result.Err? {
      DenialsOnly(s, Step(s, now, op).state, PrincipalOf(op).value.owner);
    } else {
      PerformOnly(s, now, op);
    }
  }

  // ---- Runs --------------------------------------------------------------------------------

  /** The two tables have the same rows of `o`'s, in the same places. */
  ghost predicate SameRowsOf<T(!new)>(xs: seq<T>, ys: seq<T>, owner: T -> Id, o: Id) {
    && (forall i :: 0 <= i < |xs| && owner(xs[i]) == o ==> i < |ys| && ys[i] == xs[i])
    && (forall i :: 0 <= i < |ys| && owner(ys[i]) == o ==> i < |xs| && ys[i] == xs[i])
  }

  /** No entry on a holder account of `o`'s was added, and none of any kind was changed. */
  ghost predicate OthersEntries(agents: seq<Agent>, l: seq<LedgerEntry>, l': seq<LedgerEntry>, o: Id) {
    && l <= l'
    && (forall j :: |l| <= j < |l'| && l'[j].spec.account.HolderAccount? ==>
        !Holds(agents, l'[j].spec.account.holder, o))
  }

  ghost predicate SamePoliciesOf(agents: seq<Agent>, p: map<(Id, nat), Policy>, p': map<(Id, nat), Policy>, o: Id) {
    forall a: Id, v: nat :: a < |agents| && agents[a].owner == o ==>
      ((a, v) in p <==> (a, v) in p') && ((a, v) in p ==> p'[(a, v)] == p[(a, v)])
  }

  /** Nothing of `o`'s changed: not its own record, and none of its agents, policies,
      counterparties, quotes, balances, holder entries, actions and approvals. */
  ghost predicate Unaffected(s: State, s': State, o: Id) {
    && o < |s.owners| && o < |s'.owners| && s'.owners[o] == s.owners[o]
    && |s.agents| <= |s'.agents| && SameRowsOf(s.agents, s'.agents, (a: Agent) => a.owner, o)
    && SamePoliciesOf(s.agents, s.policies, s'.policies, o)
    && SameRowsOf(s.counterparties, s'.counterparties, (c: Counterparty) => c.owner, o)
    && SameRowsOf(s.quotes, s'.quotes, (c: QuoteRow) => c.owner, o)
    && (forall h: Holder :: Holds(s.agents, h, o) ==> SameBalance(s.books, s'.books, h))
    && OthersEntries(s'.agents, s.books.ledger, s'.books.ledger, o)
    && SameRowsOf(s.actions, s'.actions, (a: Action) => a.owner, o)
    && SameRowsOf(s.approvals, s'.approvals, (a: Approval) => a.owner, o)
  }

  lemma UnaffectedChain(s: State, s1: State, s2: State, o: Id)
    requires Unaffected(s, s1, o) && Unaffected(s1, s2, o)
    ensures Unaffected(s, s2, o)
  {
    forall h: Holder | Holds(s.agents, h, o) ensures SameBalance(s.books, s2.books, h) {
      assert SameBalance(s.books, s1.books, h) && SameBalance(s1.books, s2.books, h);
    }
    forall j | |s.books.ledger| <= j < |s2.books.ledger| && s2.books.ledger[j].spec.account.HolderAccount?
      ensures !Holds(s2.agents, s2.books.ledger[j].spec.account.holder, o)
    {
      if j < |s1.books.ledger| {
        assert s1.books.ledger[j] == s2.books.ledger[j];
      }
    }
  }

  /** A step that concerns `o` in nothing: a request of another owner's, a sweep that lists none
      of `o`'s approvals, money for somebody else's holder, or a new owner. */
  ghost predicate Foreign(s: State, op: Op, o: Id) {
    match op
    case OnboardOwner(_) => true
    case FundHolder(h, _) => HolderOwner(s, h) != Some(o)
    case ExpireStaleOp(order) => forall k | k in order :: k < |s.approvals| ==> s.approvals[k].owner != o
    case _ => op.p.owner != o
  }

  lemma OnlyOfOthers(s: State, s': State, q: Id, o: Id)
    requires OnlyOf(s, s', q) && Extends(s, s') && q != o && o < |s.owners|
    requires PolicyRows(s.agents, s.policies)
    ensures Unaffected(s, s', o)
  {
    forall h: Holder | Holds(s.agents, h, o) ensures SameBalance(s.books, s'.books, h) {
      assert !Holds(s'.agents, h, q);
    }
  }

  lemma RequestUnaffected(s: State, clock: Time, now: Time, op: Op, o: Id)
    requires Inv(s, clock) && clock <= now && PrincipalOf(op).Some? && op.p.owner != o && o < |s.owners|
    ensures Unaffected(s, Step(s, now, op).state, o)
  {
    StepOnly(s, clock, now, op);
    StepExtends(s, clock, now, op);
    OnlyOfOthers(s, Step(s, now, op).state, op.p.owner, o);
  }

  /** Money for another owner's holder. */
  lemma FundUnaffected(s: State, h: Holder, amount: int, o: Id)
    requires AgentRows(s.owners, s.agents) && o < |s.owners| && HolderOwner(s, h) != Some(o)
    requires FundExisting(s, h, amount).Ok?
    ensures Unaffected(s, FundExisting(s, h, amount).value, o)
  {
    var owner := HolderOwner(s, h).value;
    var c := OwnerCurrency(s, owner);
    JournalEffect(s.books.ledger, SystemAccount(Funding, c), HolderAccount(h, c), amount, c, FundingResource);
  }

  /** Releasing what other approvals hold leaves the reservations on `h` as they were. */
  lemma SweptReservation(s: State, s': State, now: Time, ks: set<Id>, h: Holder, o: Id)
    requires Inv(s, now) && Inv(s', now) && ExpiresExactly(s, s', now, ks) && Holds(s.agents, h, o)
    requires forall k | k in ks :: k < |s.approvals| ==> s.approvals[k].owner != o
    ensures Pend(s'.books, h) == Pend(s.books, h)
  {
    forall i | 0 <= i < |s.actions|
      ensures Weight(PendingFrom(h), s'.actions[i]) == Weight(PendingFrom(h), s.actions[i]) {
      assert ActionLinked(s.actions, s.approvals, i);
      assert ActionRow(s.owners, s.agents, s.quotes, s.actions[i], now);
    }
    TotalSame(PendingFrom(h), s.actions, s'.actions);
  }

  /** A sweep that lists none of `o`'s approvals, though it releases holds by id alone. */
  lemma SweepUnaffected(s: State, now: Time, ks: seq<Id>, o: Id)
    requires Inv(s, now) && ListsStale(s, now, ks) && o < |s.owners|
    requires forall k | k in ks :: k < |s.approvals| ==> s.approvals[k].owner != o
    ensures ExpireAll(s, now, ks).Ok? && Unaffected(s, ExpireAll(s, now, ks).value, o)
  {
    assert AllPending(s, ks);
    ExpireAllEffect(s, now, ks);
    var s' := ExpireAll(s, now, ks).value;
    forall h: Holder | Holds(s.agents, h, o) ensures SameBalance(s.books, s'.books, h) {
      SweptReservation(s, s', now, Elements(ks), h, o);
      if h in s.books.balances {
        assert SameRowBut(s.books.balances[h], s'.books.balances[h]);
        assert Synced(s.books.balances[h]);
      }
    }
    forall i: Id | i < |s.actions| && s.actions[i].owner == o ensures s'.actions[i] == s.actions[i] {
      assert ActionLinked(s.actions, s.approvals, i);
    }
  }

  /** A step that concerns `o` in nothing changes nothing of `o`'s. */
  lemma StepUnaffected(s: State, clock: Time, now: Time, op: Op, o: Id)
    requires Inv(s, clock) && clock <= now && Enabled(s, now, op) && o < |s.owners| && Foreign(s, op, o)
    ensures Unaffected(s, Step(s, now, op).state, o)
  {
    AdvanceClock(s, clock, now);
    if PrincipalOf(op).Some? {
      RequestUnaffected(s, clock, now, op, o);
    } else if Perform(s, now, op).result.Ok? {
      match op
      case OnboardOwner(_) =>
      case FundHolder(h, amount) => FundUnaffected(s, h, amount, o);
      case ExpireStaleOp(order) => SweepUnaffected(s, now, order, o);
    } else {
      FailedCall(s, now, op);
    }
  }

  /** A run of steps none of which concerns `o` when it happens. */
  ghost predicate ForeignRun(s: State, events: seq<Event>, o: Id) {
    events == [] ||
    var before, last := events[..|events| - 1], events[|events| - 1];
    ForeignRun(s, before, o) && Foreign(Run(s, before), last.op, o)
  }

  /** As long as others' requests, others' money, new owners and sweeps of others' approvals are
      all that happens, nothing of `o`'s changes. */
  lemma {:induction false} RunUnaffected(s: State, start: Time, events: seq<Event>, o: Id)
    requires Inv(s, start) && Possible(s, start, events) && o < |s.owners| && ForeignRun(s, events, o)
    ensures Unaffected(s, Run(s, events), o)
  {
    if events != [] {
      var before, last := events[..|events| - 1], events[|events| - 1];
      var s1 := Run(s, before);
      RunUnaffected(s, start, before, o);
      RunInv(s, start, before);
      StepUnaffected(s1, Clock(start, before), last.now, last.op, o);
      UnaffectedChain(s, s1, Run(s, events), o);
    }
  }
}
