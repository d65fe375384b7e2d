/** Each kind of change the services make to payments, transfers and approvals keeps the
    invariant of the database. */
module Steps {
  import opened Prelude
  import opened Models
  import opened PolicyEngine
  import opened Calendar
  import opened BooksModel
  import opened BooksEffects
  import opened Tallies
  import opened PolicyGateModel
  import opened PaymentsModel
  import opened MoneyInvariant
  import opened Invariant

  /** The row an executed action ends as. */
  function DoneRow(row: Action, now: Time): Action {
    if row.Payment? then Dispatched(row, now) else WithStatus(row, Completed)
  }

  lemma ExecuteShape(s: State, now: Time, owner: Id, id: Id, fromReservation: bool)
    requires owner < |s.owners| && id < |s.actions|
    ensures var row := s.actions[id];
            Execute(s, now, owner, id, fromReservation)
            == match ExecuteBooks(s.books, owner, OwnerCurrency(s, owner), row, ResourceOf(row, id), fromReservation)
               case Err(e) => Err(e)
               case Ok(b) => Ok(s.(books := b, actions := s.actions[id := DoneRow(row, now)]))
  {
  }

  /** The same record, up to status, approval, rail, timeline and the repriced destination. */
  ghost predicate SameAction(a: Action, a': Action) {
    && SameMoney(a, a')
    && a.owner == a'.owner && a.credential == a'.credential && a.createdAt == a'.createdAt
    && (a.Payment? ==> a.agent == a'.agent && a.quote == a'.quote && a.counterparty == a'.counterparty
                       && a.destinationCurrency == a'.destinationCurrency)
    && (a.Transfer? ==> a.initiator == a'.initiator && a.source == a'.source && a.destination == a'.destination)
  }

  lemma SameActionRow(owners: seq<Owner>, agents: seq<Agent>, quotes: seq<QuoteRow>, a: Action, a': Action, clock: Time)
    requires ActionRow(owners, agents, quotes, a, clock) && SameAction(a, a')
    requires a'.status in {PendingApproval, Completed, Cancelled}
    ensures ActionRow(owners, agents, quotes, a', clock)
  {
  }

  // ---- New actions -------------------------------------------------------------------------

  /** A validated new action, before it is executed or held. */
  ghost predicate Fresh(s: State, now: Time, owner: Id, row: Action) {
    && owner < |s.owners| && row.owner == owner && row.currency == OwnerCurrency(s, owner)
    && row.approval.None? && row.createdAt == now
    && ActionRow(s.owners, s.agents, s.quotes, WithStatus(row, Completed), now)
    && 0 < row.amount <= Avail(s.books, Source(row))
  }

  /** Executed at once: one more completed row, its journal, and its amount moved. */
  ghost predicate ExecutedNew(s: State, s': State, row: Action, row': Action) {
    && s' == s.(books := s'.books, actions := s.actions + [row'])
    && ExecutedBooks(s.books, s'.books, row, ResourceOf(row, |s.actions|), false)
    && SameAction(row, row') && row'.status == Completed && row'.approval == row.approval
    && (row.Payment? ==> row'.destinationAmount == row.destinationAmount)
  }

  lemma FreshDenominated(s: State, now: Time, owner: Id, row: Action)
    requires BalanceRows(s.owners, s.agents, s.books.balances) && Fresh(s, now, owner, row)
    ensures Denominated(s.books, Source(row), row.currency)
    ensures row.Transfer? ==> Denominated(s.books, row.destination, row.currency) && row.source != row.destination
  {
    assert ActionRow(s.owners, s.agents, s.quotes, WithStatus(row, Completed), now);
    OwnedDenomination(s, Source(row), owner, row.currency);
    if row.Transfer? {
      OwnedDenomination(s, row.destination, owner, row.currency);
    }
  }

  lemma ExecuteNewShape(s: State, now: Time, owner: Id, row: Action)
    requires BalanceRows(s.owners, s.agents, s.books.balances) && Fresh(s, now, owner, row)
    ensures ExecuteNew(s, now, owner, row).result == Ok(|s.actions|)
    ensures ExecutedNew(s, ExecuteNew(s, now, owner, row).state, row, DoneRow(row, now))
  {
    FreshDenominated(s, now, owner, row);
    var id, inserted := |s.actions|, s.(actions := s.actions + [row]);
    ExecuteShape(inserted, now, owner, id, false);
    ExecuteBooksEffect(s.books, owner, row, ResourceOf(row, id), false);
    assert (s.actions + [row])[id := DoneRow(row, now)] == s.actions + [DoneRow(row, now)];
  }

  /** Completed rows keep every balance row an owned one. */
  lemma ExecutedBalanceRows(s: State, owner: Id, row: Action, r: Resource, fromReservation: bool)
    requires BalanceRows(s.owners, s.agents, s.books.balances)
    requires Belongs(s.owners, s.agents, Source(row), owner, row.currency)
    requires row.Transfer? ==> Belongs(s.owners, s.agents, row.destination, owner, row.currency)
    requires ExecuteBooks(s.books, owner, row.currency, row, r, fromReservation).Ok?
    ensures BalanceRows(s.owners, s.agents,
                        ExecuteBooks(s.books, owner, row.currency, row, r, fromReservation).value.balances)
  {
    var b := ExecuteBooks(s.books, owner, row.currency, row, r, fromReservation).value;
    forall h | h in b.balances ensures Belongs(s.owners, s.agents, h, b.balances[h].owner, b.balances[h].currency) {
      ExecutedRow(s.books, owner, row, r, fromReservation, h);
    }
  }

  /** Executing an action opens balances for its two holders at most, and keeps every row's
      owner and currency. */
  lemma ExecutedRow(b: Books, owner: Id, row: Action, r: Resource, fromReservation: bool, h: Holder)
    requires ExecuteBooks(b, owner, row.currency, row, r, fromReservation).Ok?
    ensures var b' := ExecuteBooks(b, owner, row.currency, row, r, fromReservation).value;
            h in b'.balances ==>
              if h in b.balances then b'.balances[h].owner == b.balances[h].owner
                  && b'.balances[h].currency == b.balances[h].currency
              else (h == Source(row) || (row.Transfer? && h == row.destination))
                   && b'.balances[h].owner == owner && b'.balances[h].currency == row.currency
  {
    var b0 := Opened(b, owner, row.currency, Source(row));
    if row.Payment? {
      RowWithdrawn(b0, Source(row), row.amount, fromReservation, h);
    } else {
      RowWithdrawn(Opened(b0, owner, row.currency, row.destination), Source(row), row.amount, fromReservation, h);
    }
  }

  lemma RowWithdrawn(b: Books, source: Holder, amount: int, fromReservation: bool, h: Holder)
    requires source in b.balances && Withdrawn(b, source, amount, fromReservation).Ok?
    ensures var b' := Withdrawn(b, source, amount, fromReservation).value;
            && b'.balances.Keys == b.balances.Keys
            && (h in b.balances ==> b'.balances[h].owner == b.balances[h].owner
                                    && b'.balances[h].currency == b.balances[h].currency)
  {
  }

  lemma LinkedAppendDone(actions: seq<Action>, approvals: seq<Approval>, counterparties: seq<Counterparty>, row: Action)
    requires Linked(actions, approvals, counterparties) && row.approval.None? && row.status == Completed
    ensures Linked(actions + [row], approvals, counterparties)
  {
    var actions' := actions + [row];
    forall i: Id | i < |actions'| ensures ActionLinked(actions', approvals, i) {
      if i < |actions| {
        assert ActionLinked(actions, approvals, i);
      }
    }
    forall k: Id | k < |approvals| ensures ApprovalLinked(actions', approvals, counterparties, k) {
      assert ApprovalLinked(actions, approvals, counterparties, k);
    }
  }

  lemma ExecuteNewInv(s: State, now: Time, owner: Id, row: Action)
    requires Inv(s, now) && Fresh(s, now, owner, row)
    ensures Inv(ExecuteNew(s, now, owner, row).state, now)
  {
    ExecuteNewShape(s, now, owner, row);
    FreshDenominated(s, now, owner, row);
    var s', row' := ExecuteNew(s, now, owner, row).state, DoneRow(row, now);
    ExecuteNewMoney(s.books, s'.books, s.actions, row, row');
    LinkedAppendDone(s.actions, s.approvals, s.counterparties, row');
    SameActionRow(s.owners, s.agents, s.quotes, WithStatus(row, Completed), row', now);
    var inserted := s.(actions := s.actions + [row]);
    ExecuteShape(inserted, now, owner, |s.actions|, false);
    ExecuteBooksEffect(s.books, owner, row, ResourceOf(row, |s.actions|), false);
    ExecutedBalanceRows(s, owner, row, ResourceOf(row, |s.actions|), false);
  }

  /** Held: one more pending row with its own pending approval, and its amount reserved. */
  ghost predicate HeldNew(s: State, s': State, row: Action, row': Action, approval: Approval) {
    && Source(row) in s.books.balances
    && s' == s.(books := Changed(s.books, Source(row), -row.amount, row.amount),
                actions := s.actions + [row'],
                approvals := s.approvals + [approval])
    && SameAction(row, row') && row'.status == PendingApproval && row'.approval == Some(|s.approvals|)
    && (row.Payment? ==> row'.destinationAmount == row.destinationAmount)
    && approval.status == Pending && approval.action == ReferenceTo(row, |s.actions|) && approval.owner == row.owner
  }

  lemma HoldNewShape(s: State, now: Time, p: Principal, agent: Id, row: Action, trigger: HoldTrigger)
    requires agent < |s.agents| && Source(row) in s.books.balances && p.owner == row.owner
    requires Fresh(s, now, p.owner, row)
    ensures HoldNew(s, now, p, agent, row, trigger).result == Ok(|s.actions|)
    ensures HeldNew(s, HoldNew(s, now, p, agent, row, trigger).state, row, HeldRow(row, now, |s.approvals|),
                    NewApproval(s, now, p, agent, trigger, ReferenceTo(row, |s.actions|)))
  {
  }

  lemma LinkedAppendHeld(actions: seq<Action>, approvals: seq<Approval>, counterparties: seq<Counterparty>,
                         row: Action, approval: Approval)
    requires Linked(actions, approvals, counterparties)
    requires row.approval == Some(|approvals|) && row.status == PendingApproval
    requires approval.status == Pending && approval.action == ReferenceTo(row, |actions|) && approval.owner == row.owner
    ensures Linked(actions + [row], approvals + [approval], counterparties)
  {
    var actions', approvals' := actions + [row], approvals + [approval];
    forall i: Id | i < |actions'| ensures ActionLinked(actions', approvals', i) {
      if i < |actions| {
        assert ActionLinked(actions, approvals, i);
      }
    }
    forall k: Id | k < |approvals'| ensures ApprovalLinked(actions', approvals', counterparties, k) {
      if k < |approvals| {
        assert ApprovalLinked(actions, approvals, counterparties, k);
      }
    }
  }

  lemma AppendedRows(s: State, now: Time, row: Action, row': Action)
    requires ActionRows(s.owners, s.agents, s.quotes, s.actions, now)
    requires ActionRow(s.owners, s.agents, s.quotes, WithStatus(row, Completed), now) && SameAction(row, row')
    requires row'.status in {PendingApproval, Completed, Cancelled}
    ensures ActionRows(s.owners, s.agents, s.quotes, s.actions + [row'], now)
  {
    SameActionRow(s.owners, s.agents, s.quotes, WithStatus(row, Completed), row', now);
  }

  lemma HeldNewRows(s: State, s': State, now: Time, row: Action, row': Action, approval: Approval)
    requires RowsInv(s, now) && Fresh(s, now, row.owner, row) && HeldNew(s, s', row, row', approval)
    ensures RowsInv(s', now)
  {
    LinkedAppendHeld(s.actions, s.approvals, s.counterparties, row', approval);
    AppendedRows(s, now, row, row');
  }

  lemma HeldNewMoney(s: State, s': State, row: Action, row': Action, approval: Approval)
    requires MoneyInv(s.books, s.actions) && 0 < row.amount <= Avail(s.books, Source(row))
    requires HeldNew(s, s', row, row', approval)
    ensures MoneyInv(s'.books, s'.actions)
  {
    HoldMoney(s.books, s.actions, row');
  }

  lemma HeldNewInv(s: State, s': State, now: Time, row: Action, row': Action, approval: Approval)
    requires Inv(s, now) && Fresh(s, now, row.owner, row) && HeldNew(s, s', row, row', approval)
    ensures Inv(s', now)
  {
    HeldNewMoney(s, s', row, row', approval);
    HeldNewRows(s, s', now, row, row', approval);
  }

  // ---- Held actions ------------------------------------------------------------------------

  /** Deciding an action and its approval together keeps the two tables linked. */
  lemma LinkedDecide(actions: seq<Action>, approvals: seq<Approval>, counterparties: seq<Counterparty>,
                     i: Id, row: Action, k: Id, approval: Approval)
    requires Linked(actions, approvals, counterparties)
    requires i < |actions| && k < |approvals| && actions[i].approval == Some(k)
    requires row.approval == Some(k) && row.Payment? == actions[i].Payment? && row.owner == actions[i].owner
    requires approval.action == approvals[k].action && approval.owner == approvals[k].owner
    requires Agree(approval.status, row.status)
    ensures Linked(actions[i := row], approvals[k := approval], counterparties)
  {
    var actions', approvals' := actions[i := row], approvals[k := approval];
    assert ActionLinked(actions, approvals, i);
    forall j: Id | j < |actions'| ensures ActionLinked(actions', approvals', j) {
      assert ActionLinked(actions, approvals, j);
    }
    forall m: Id | m < |approvals'| ensures ApprovalLinked(actions', approvals', counterparties, m) {
      assert ApprovalLinked(actions, approvals, counterparties, m);
    }
  }

  /** Deciding an approval that is about a counterparty touches no action. */
  lemma LinkedDecideCounterparty(actions: seq<Action>, approvals: seq<Approval>, counterparties: seq<Counterparty>,
                                 counterparties': seq<Counterparty>, k: Id, approval: Approval)
    requires Linked(actions, approvals, counterparties)
    requires k < |approvals| && approvals[k].action.CounterpartyAction?
    requires approval.action == approvals[k].action && approval.owner == approvals[k].owner
    requires |counterparties'| == |counterparties|
    requires forall c :: 0 <= c < |counterparties| ==> counterparties'[c].owner == counterparties[c].owner
    ensures Linked(actions, approvals[k := approval], counterparties')
  {
    var approvals' := approvals[k := approval];
    forall j: Id | j < |actions| ensures ActionLinked(actions, approvals', j) {
      assert ActionLinked(actions, approvals, j);
    }
    forall m: Id | m < |approvals'| ensures ApprovalLinked(actions, approvals', counterparties', m) {
      assert ApprovalLinked(actions, approvals, counterparties, m);
    }
  }

  lemma UpdatedRows(s: State, i: Id, row: Action, now: Time)
    requires ActionRows(s.owners, s.agents, s.quotes, s.actions, now)
    requires i < |s.actions| && SameAction(s.actions[i], row) && row.status in {PendingApproval, Completed, Cancelled}
    ensures ActionRows(s.owners, s.agents, s.quotes, s.actions[i := row], now)
  {
    SameActionRow(s.owners, s.agents, s.quotes, s.actions[i], row, now);
  }

  /** The action and approval ids of a pending hold. */
  ghost predicate OnHold(s: State, i: Id, k: Id) {
    && i < |s.actions| && k < |s.approvals|
    && s.actions[i].status == PendingApproval && s.actions[i].approval == Some(k)
    && s.approvals[k].status == Pending
  }

  /** Released: the row cancelled, its approval closed, its amount available again. */
  ghost predicate ReleasedHold(s: State, s': State, i: Id, row: Action, k: Id, approval: Approval) {
    && i < |s.actions| && k < |s.approvals|
    && s' == s.(books := s'.books, actions := s.actions[i := row], approvals := s.approvals[k := approval])
    && Source(row) in s'.books.balances
    && (exists owner: Id :: owner < |s.owners| &&
         s'.books == Release(OpenedIn(s, owner, Source(row)).books, Source(row), row.amount)
         && s.actions[i].owner == owner)
    && SameAction(s.actions[i], row) && row.status == Cancelled && row.approval == Some(k)
    && approval.action == s.approvals[k].action && approval.owner == s.approvals[k].owner
    && approval.status in {Rejected, Expired}
  }

  lemma ReleasedHoldInv(s: State, s': State, now: Time, i: Id, row: Action, k: Id, approval: Approval)
    requires Inv(s, now) && OnHold(s, i, k) && ReleasedHold(s, s', i, row, k, approval)
    ensures Inv(s', now)
  {
    var owner, h := row.owner, Source(row);
    assert ActionRow(s.owners, s.agents, s.quotes, s.actions[i], now);
    OpenedInv(s, now, owner, h);
    var s0 := OpenedIn(s, owner, h);
    ReleaseMoney(s0.books, s.actions, i, row);
    LinkedDecide(s.actions, s.approvals, s.counterparties, i, row, k, approval);
    UpdatedRows(s, i, row, now);
  }

  /** Carried out: the row completed, its approval approved, its journal posted. */
  ghost predicate ExecutedHold(s: State, s': State, i: Id, row: Action, k: Id, approval: Approval) {
    && i < |s.actions| && k < |s.approvals|
    && s' == s.(books := s'.books, actions := s.actions[i := row], approvals := s.approvals[k := approval])
    && ExecutedBooks(s.books, s'.books, s.actions[i], ResourceOf(s.actions[i], i), true)
    && BalanceRows(s.owners, s.agents, s'.books.balances)
    && SameAction(s.actions[i], row) && row.status == Completed && row.approval == Some(k)
    && approval.action == s.approvals[k].action && approval.owner == s.approvals[k].owner
    && approval.status == Approved
  }

  lemma ExecutedHoldInv(s: State, s': State, now: Time, i: Id, row: Action, k: Id, approval: Approval)
    requires Inv(s, now) && OnHold(s, i, k) && ExecutedHold(s, s', i, row, k, approval)
    ensures Inv(s', now)
  {
    assert ActionRow(s.owners, s.agents, s.quotes, s.actions[i], now);
    ExecuteHeldMoney(s.books, s'.books, s.actions, i, row);
    LinkedDecide(s.actions, s.approvals, s.counterparties, i, row, k, approval);
    UpdatedRows(s, i, row, now);
  }
}
