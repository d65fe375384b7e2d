/** What holds in every database the service can get into. */
module Guarantees {
  import opened Prelude
  import opened Models
  import opened Calendar
  import opened Sandbox
  import opened BooksModel
  import opened BooksEffects
  import opened Tallies
  import opened PolicyGateModel
  import opened PaymentsModel
  import opened ApprovalsModel
  import opened MoneyInvariant
  import opened Invariant
  import opened StepInvariant
  import opened Sweep
  import opened RunInvariant

  // ---- Money -------------------------------------------------------------------------------

  /** For every holder the materialised balance agrees with the ledger and with the pending
      actions, and neither part of it is ever negative. */
  lemma BalancesAgree(s: State, clock: Time, h: Holder)
    requires Reachable(s, clock)
    ensures Avail(s.books, h) == Net(OfHolder(h), s.books.ledger) - Pend(s.books, h)
    ensures Pend(s.books, h) == Total(PendingFrom(h), s.actions)
    ensures Avail(s.books, h) >= 0 && Pend(s.books, h) >= 0
  {
    ReachableInv(s, clock);
    forall i | 0 <= i < |s.actions| ensures s.actions[i].amount > 0 {
      assert ActionRow(s.owners, s.agents, s.quotes, s.actions[i], clock);
    }
    TotalNonNegative(PendingFrom(h), s.actions);
  }

  /** A completed payment or transfer has exactly one journal under its id, from its source to
      its target; a pending or cancelled one has none, and there is no other status. */
  lemma PostedExactlyOnce(s: State, clock: Time, i: Id)
    requires Reachable(s, clock) && i < |s.actions|
    ensures var a, r := s.actions[i], ResourceOf(s.actions[i], i);
            if a.status == Completed
            then exists journal: Id :: EntriesFor(s.books.ledger, r) == JournalOf(a, journal, r)
            else a.status in {PendingApproval, Cancelled} && EntriesFor(s.books.ledger, r) == []
  {
    ReachableInv(s, clock);
    assert ActionRow(s.owners, s.agents, s.quotes, s.actions[i], clock);
    assert PostedOnce(s.books.ledger, s.actions, ResourceOf(s.actions[i], i));
  }

  /** No entry is posted for an id that is not an action's, or under the wrong type. */
  lemma NothingElsePosted(s: State, clock: Time, r: Resource)
    requires Reachable(s, clock) && !r.FundingResource?
    requires EntriesFor(s.books.ledger, r) != []
    ensures r.id < |s.actions| && r == ResourceOf(s.actions[r.id], r.id)
  {
    ReachableInv(s, clock);
    assert PostedOnce(s.books.ledger, s.actions, r);
  }

  /** Per currency: everything funded is owned by some holder or was settled by a completed
      payment; and every journal on its own balances. */
  lemma Conservation(s: State, clock: Time, c: Currency)
    requires Reachable(s, clock)
    ensures -Net(OfSystem(Funding, c), s.books.ledger)
            == Holdings(s.books.balances, c) + Total(SettledIn(c), s.actions)
    ensures Net(OfSystem(Settlement, c), s.books.ledger) == Total(SettledIn(c), s.actions)
    ensures forall j: Id :: Net(OfJournal(j, c), s.books.ledger) == 0
  {
    ReachableInv(s, clock);
  }

  // ---- The approval queue ------------------------------------------------------------------

  /** A pending approval of a payment or transfer. */
  predicate PendingOnAction(s: State, k: Id) {
    k < |s.approvals| && s.approvals[k].status == Pending && !s.approvals[k].action.CounterpartyAction?
  }

  /** Pending approvals of payments and transfers and pending actions are in one-to-one
      correspondence: each names the other. */
  lemma QueueMatches(s: State, clock: Time)
    requires Reachable(s, clock)
    ensures forall i: Id :: i < |s.actions| && s.actions[i].status == PendingApproval ==>
              && s.actions[i].approval.Some? && s.actions[i].approval.value < |s.approvals|
              && s.approvals[s.actions[i].approval.value].status == Pending
              && s.approvals[s.actions[i].approval.value].action == ReferenceTo(s.actions[i], i)
    ensures forall k: Id :: PendingOnAction(s, k) ==>
              && s.approvals[k].action.id < |s.actions|
              && s.actions[s.approvals[k].action.id].status == PendingApproval
              && s.actions[s.approvals[k].action.id].approval == Some(k)
  {
    ReachableInv(s, clock);
    forall i: Id | i < |s.actions| && s.actions[i].status == PendingApproval
      ensures s.actions[i].approval.Some? && s.actions[i].approval.value < |s.approvals|
      ensures s.approvals[s.actions[i].approval.value].status == Pending
      ensures s.approvals[s.actions[i].approval.value].action == ReferenceTo(s.actions[i], i)
    {
      assert ActionLinked(s.actions, s.approvals, i);
    }
    forall k: Id | k < |s.approvals| && s.approvals[k].status == Pending && !s.approvals[k].action.CounterpartyAction?
      ensures s.approvals[k].action.id < |s.actions|
      ensures s.actions[s.approvals[k].action.id].status == PendingApproval
      ensures s.actions[s.approvals[k].action.id].approval == Some(k)
    {
      assert ApprovalLinked(s.actions, s.approvals, s.counterparties, k);
      assert ActionLinked(s.actions, s.approvals, s.approvals[k].action.id);
    }
  }

  /** At any instant a pending approval is either the owner's to decide or the sweep's to
      expire, never both and never neither. */
  lemma DecidableOrStale(a: Approval, now: Time)
    ensures a.status == Pending ==> (Decidable(a, now) <==> !Stale(a, now))
    ensures a.status != Pending ==> !Decidable(a, now) && !Stale(a, now)
  {
  }

  /** What a principal may decide: it is the owner's key, and the approval its owner's. */
  predicate Deciding(s: State, p: Principal, k: Id) {
    p.credential.OwnerKey? && p.owner < |s.owners| && k < |s.approvals| && s.approvals[k].owner == p.owner
  }

  /** Approving and rejecting succeed exactly on the owner's pending, unexpired approvals:
      in particular an approval never fails for lack of funds. */
  lemma DecisionSucceedsIff(s: State, clock: Time, now: Time, p: Principal, k: Id)
    requires Reachable(s, clock) && clock <= now && p.owner < |s.owners|
    ensures Approve(s, now, p, k).Ok? <==> Deciding(s, p, k) && Decidable(s.approvals[k], now)
    ensures Reject(s, now, p, k).Ok? <==> Deciding(s, p, k) && Decidable(s.approvals[k], now)
  {
    ReachableInv(s, clock);
    AdvanceClock(s, clock, now);
    if Deciding(s, p, k) && Decidable(s.approvals[k], now) {
      DecisionSucceeds(s, now, p, k);
    }
  }

  lemma DecisionSucceeds(s: State, now: Time, p: Principal, k: Id)
    requires Inv(s, now) && Deciding(s, p, k) && Decidable(s.approvals[k], now)
    ensures Approve(s, now, p, k).Ok? && Reject(s, now, p, k).Ok?
  {
    var approval := s.approvals[k];
    assert ApprovalLinked(s.actions, s.approvals, s.counterparties, k);
    if !approval.action.CounterpartyAction? {
      CarriedOutShape(s, now, k, approval.(status := Approved));
      UnwoundShape(s, s, now, p.owner, k, OwnerRejected, approval.(status := Rejected));
    }
  }

  /** The payments a principal may cancel, if they are still pending. */
  predicate MayCancel(s: State, p: Principal, id: Id) {
    && RequireScope(p, PaymentsCreate).Ok? && RequireScope(p, PaymentsRead).Ok?
    && id < |s.actions| && s.actions[id].Payment? && s.actions[id].owner == p.owner
    && (p.credential.AgentKey? ==> s.actions[id].agent == p.credential.agent)
  }

  /** Cancelling succeeds exactly on the caller's own pending payments, and gives the amount back. */
  lemma CancelSucceedsIff(s: State, clock: Time, now: Time, p: Principal, id: Id)
    requires Reachable(s, clock) && clock <= now && p.owner < |s.owners|
    ensures CancelPayment(s, now, p, id).Ok? <==> MayCancel(s, p, id) && s.actions[id].status == PendingApproval
    ensures CancelPayment(s, now, p, id).Ok? ==>
              var s', row := CancelPayment(s, now, p, id).value, s.actions[id];
              && id < |s'.actions| && s'.actions[id].status == Cancelled
              && s'.books.ledger == s.books.ledger && Moved(s.books, s'.books, Source(row), row.amount, -row.amount)
  {
    ReachableInv(s, clock);
    AdvanceClock(s, clock, now);
    if CancelPayment(s, now, p, id).Ok? {
      CancelPaymentShape(s, now, p, id);
      CancelMoves(s, now, p, id);
    }
  }

  lemma CancelMoves(s: State, now: Time, p: Principal, id: Id)
    requires p.owner < |s.owners| && CancelPayment(s, now, p, id).Ok?
    ensures var s', row := CancelPayment(s, now, p, id).value, s.actions[id];
            s'.books.ledger == s.books.ledger && Moved(s.books, s'.books, Source(row), row.amount, -row.amount)
  {
    var row := s.actions[id];
    OpenedEffect(s.books, p.owner, OwnerCurrency(s, p.owner), Source(row));
    ShuffleKeeps(OpenedIn(s, p.owner, Source(row)).books, Source(row), -row.amount);
  }

  /** A pending payment can always be cancelled.  Once its approval is past its expiry that is all
      that can be done about it but to sweep it: nobody can approve or reject it any more. */
  lemma PendingAlwaysCancels(s: State, clock: Time, now: Time, p: Principal, id: Id)
    requires Reachable(s, clock) && clock <= now && p.owner < |s.owners|
    requires MayCancel(s, p, id) && s.actions[id].status == PendingApproval
    ensures CancelPayment(s, now, p, id).Ok?
    ensures s.actions[id].approval.Some? && s.actions[id].approval.value < |s.approvals|
    ensures var k := s.actions[id].approval.value;
            && (Stale(s.approvals[k], now) ==> forall o: Principal :: o.owner < |s.owners| ==>
                 Approve(s, now, o, k).Err? && Reject(s, now, o, k).Err?)
            && (!Stale(s.approvals[k], now) ==> forall o: Principal :: o.owner == p.owner && o.credential.OwnerKey? ==>
                 Approve(s, now, o, k).Ok? && Reject(s, now, o, k).Ok?)
  {
    QueueMatches(s, clock);
    ReachableInv(s, clock);
    assert ActionLinked(s.actions, s.approvals, id);
    CancelSucceedsIff(s, clock, now, p, id);
    var k := s.actions[id].approval.value;
    forall o: Principal | o.owner < |s.owners|
      ensures Approve(s, now, o, k).Ok? <==> Deciding(s, o, k) && Decidable(s.approvals[k], now)
      ensures Reject(s, now, o, k).Ok? <==> Deciding(s, o, k) && Decidable(s.approvals[k], now)
    {
      DecisionSucceedsIff(s, clock, now, o, k);
    }
    DecidableOrStale(s.approvals[k], now);
  }

  /** The sweep succeeds in every reachable database, in whatever order the rows come, and any
      two orders lead to the same database. */
  lemma SweepSucceeds(s: State, clock: Time, now: Time, ks: seq<Id>, js: seq<Id>)
    requires Reachable(s, clock) && clock <= now
    requires ListsStale(s, now, ks) && ListsStale(s, now, js)
    ensures ExpireAll(s, now, ks).Ok? && ExpireAll(s, now, ks) == ExpireAll(s, now, js)
  {
    ReachableInv(s, clock);
    AdvanceClock(s, clock, now);
    SweepOnce(s, now, ks);
    assert Elements(ks) == Elements(js);
    SweepOrderIrrelevant(s, now, ks, js);
  }

  // ---- Agents ------------------------------------------------------------------------------

  /** An agent's own transfer goes to its owner's treasury and nowhere else. */
  lemma AgentTransfersHome(s: State, now: Time, p: Principal, body: TransferBody)
    requires Authentic(s, p) && p.credential.AgentKey?
    requires CreateTransfer(s, now, p, body).result.Ok?
    ensures body.source == AgentHolder(p.credential.agent) && body.destination == Treasury(p.owner)
  {
  }
}
