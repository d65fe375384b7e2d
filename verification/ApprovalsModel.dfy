/** Approval decisions and the expiry sweep (services/approvals.py), as functions on the
    database state. */
module ApprovalsModel {
  import opened Prelude
  import opened Models
  import opened PolicyEngine
  import opened Calendar
  import opened BooksModel
  import opened Tallies
  import opened PolicyGateModel
  import opened PaymentsModel

  function GetApproval(s: State, p: Principal, k: Id): (r: Result<Approval>)
    ensures r.Ok? ==> k < |s.approvals| && r.value == s.approvals[k] && r.value.owner == p.owner
    ensures r.Ok? && p.credential.AgentKey? ==> r.value.agent == p.credential.agent
  {
    var _ :- RequireScope(p, ApprovalsRead);
    if && k < |s.approvals| && s.approvals[k].owner == p.owner
       && (p.credential.AgentKey? ==> s.approvals[k].agent == p.credential.agent)
    then Ok(s.approvals[k])
    else Err(NotFound)
  }

  function RequirePending(a: Approval, now: Time): Result<Done> {
    var _ :- Check(a.status == Pending, ApprovalNotPending);
    Check(now <= a.expiresAt, ApprovalExpired)
  }

  /** An approval the owner can still approve or reject. */
  predicate Decidable(a: Approval, now: Time) {
    RequirePending(a, now).Ok?
  }

  /** An approval the sweep picks up. */
  predicate Stale(a: Approval, now: Time) {
    a.status == Pending && a.expiresAt < now
  }

  /** `scalar_one()` on the action an approval is about. */
  predicate ActionFound(s: State, action: ApprovalAction) {
    match action
    case PaymentAction(id) => id < |s.actions| && s.actions[id].Payment?
    case TransferAction(id) => id < |s.actions| && s.actions[id].Transfer?
    case CounterpartyAction(id) => id < |s.counterparties|
  }

  function WithCounterparty(s: State, id: Id, status: CounterpartyStatus): State
    requires id < |s.counterparties|
  {
    s.(counterparties := s.counterparties[id := s.counterparties[id].(status := status)])
  }

  /** Carries an approved action out. */
  function CarriedOut(s: State, now: Time, owner: Id, action: ApprovalAction): Result<State>
    requires owner < |s.owners|
  {
    if !ActionFound(s, action) then Err(RowMissing)
    else match action
      case PaymentAction(id) => ExecuteApproved(s, now, owner, id)
      case TransferAction(id) => ExecuteTransfer(s, owner, id, true)
      case CounterpartyAction(id) => Ok(WithCounterparty(s, id, Verified))
  }

  /** The destination amounts before and after, if carrying the payment out repriced it. */
  function RepricingOf(s: State, s': State, action: ApprovalAction): Option<(int, int)> {
    match action
    case PaymentAction(id) =>
      if && id < |s.actions| && id < |s'.actions| && s.actions[id].Payment? && s'.actions[id].Payment?
         && s.actions[id].destinationAmount != s'.actions[id].destinationAmount
      then Some((s.actions[id].destinationAmount, s'.actions[id].destinationAmount))
      else None
    case _ => None
  }

  function Approve(s: State, now: Time, p: Principal, k: Id): Result<State>
    requires p.owner < |s.owners|
  {
    var _ :- RequireOwner(p);
    var approval :- GetApproval(s, p, k);
    var _ :- RequirePending(approval, now);
    var s1 :- CarriedOut(s, now, p.owner, approval.action);
    Ok(s1.(approvals := s.approvals[k := approval.(status := Approved, decidedBy := Some(p.owner),
                                                   decidedAt := Some(now),
                                                   repriced := RepricingOf(s, s1, approval.action))]))
  }

  /** _release_held_funds and the cancellation of the action it was for. */
  function Unwound(s: State, now: Time, owner: Id, action: ApprovalAction, reason: FailureReason): Result<State>
    requires owner < |s.owners|
  {
    if action.CounterpartyAction? then Ok(s)
    else if !ActionFound(s, action) then Err(RowMissing)
    else
      var row := s.actions[action.id];
      var s0 := OpenedIn(s, owner, Source(row));
      Ok(s0.(books := Release(s0.books, Source(row), row.amount),
             actions := s.actions[action.id := CancelledRow(row, now, reason)]))
  }

  function Reject(s: State, now: Time, p: Principal, k: Id): Result<State>
    requires p.owner < |s.owners|
  {
    var _ :- RequireOwner(p);
    var approval :- GetApproval(s, p, k);
    var _ :- RequirePending(approval, now);
    var s1 :- Unwound(s, now, p.owner, approval.action, OwnerRejected);
    var _ :- Check(approval.action.CounterpartyAction? ==> ActionFound(s, approval.action), RowMissing);
    var s2 := if approval.action.CounterpartyAction? then WithCounterparty(s1, approval.action.id, Blocked) else s1;
    Ok(s2.(approvals := s.approvals[k := approval.(status := Rejected, decidedBy := Some(p.owner),
                                                   decidedAt := Some(now))]))
  }

  // ---- The sweep ---------------------------------------------------------------------------

  /** Expires one approval picked up by the sweep. */
  function ExpireOne(s: State, now: Time, k: Id): Result<State> {
    if k >= |s.approvals| || s.approvals[k].owner >= |s.owners| then Err(RowMissing)
    else
      var approval := s.approvals[k];
      var s1 :- Unwound(s, now, approval.owner, approval.action, ExpiredApproval);
      Ok(s1.(approvals := s.approvals[k := approval.(status := Expired, decidedAt := Some(now))]))
  }

  /** Expires a list of approvals, in the order given. */
  function ExpireAll(s: State, now: Time, ks: seq<Id>): Result<State> {
    if ks == [] then Ok(s)
    else
      var s1 :- ExpireAll(s, now, ks[..|ks| - 1]);
      ExpireOne(s1, now, ks[|ks| - 1])
  }

  /** `ks` lists each stale approval once, in whatever order the query returns them. */
  ghost predicate ListsStale(s: State, now: Time, ks: seq<Id>) {
    && (forall i, j :: 0 <= i < j < |ks| ==> ks[i] != ks[j])
    && (forall k: Id :: k in ks <==> k < |s.approvals| && Stale(s.approvals[k], now))
  }
}
