/** services/approvals.py: deciding approvals and sweeping up the expired ones, and db.py's
    commit-or-rollback around a request. */
module ApprovalsService {
  import opened Prelude
  import opened Models
  import opened PolicyEngine
  import opened Calendar
  import opened Tallies
  import opened PolicyGateModel
  import A = ApprovalsModel
  import L = LedgerService
  import P = PaymentsService
  import opened Machine

  /** Releases the funds held for an action and cancels it. */
  method ReleaseHeldFunds(session: Session, now: Time, owner: Id, action: ApprovalAction, reason: FailureReason)
    returns (r: Result<Done>)
    requires owner < |session.owners|
    modifies session`balances, session`actions
    ensures match A.Unwound(old(session.View()), now, owner, action, reason)
            case Ok(s) => r.Ok? && session.View() == s
            case Err(e) => r == Err(e)
  {
    if action.CounterpartyAction? {
      return Ok(Done.Done);
    }
    if !A.ActionFound(session.View(), action) {
      return Err(RowMissing);
    }
    var id := action.id;
    var row := session.actions[id];
    var h := Source(row);
    var _ := L.GetOrCreateBalance(session, owner, session.owners[owner].currency, h);
    L.ReleaseReservation(session, h, row.amount);
    session.actions := session.actions[id := WithStatus(row, Cancelled)];
    if row.Payment? {
      session.actions := session.actions[id := session.actions[id].(failureReason := Some(reason))];
      if reason != ExpiredApproval {
        P.TimelineAdd(session, id, Reached(Cancelled), now);
      }
    }
    return Ok(Done.Done);
  }

  method Approve(session: Session, now: Time, p: Principal, k: Id) returns (r: Result<Done>)
    requires p.owner < |session.owners|
    modifies session`balances, session`ledger, session`actions, session`approvals, session`counterparties
    ensures match A.Approve(old(session.View()), now, p, k)
            case Ok(s) => r.Ok? && session.View() == s
            case Err(e) => r == Err(e)
  {
    var allowed := RequireOwner(p);
    if allowed.Err? {
      return Err(allowed.error);
    }
    var found := A.GetApproval(session.View(), p, k);
    if found.Err? {
      return Err(found.error);
    }
    var approval := found.value;
    var pending := A.RequirePending(approval, now);
    if pending.Err? {
      return Err(pending.error);
    }
    if !A.ActionFound(session.View(), approval.action) {
      return Err(RowMissing);
    }
    var id, repriced := approval.action.id, None;
    match approval.action {
      case PaymentAction(_) =>
        var before := session.actions[id].destinationAmount;
        var done := P.ExecuteApproved(session, now, p.owner, id);
        if done.Err? {
          return Err(done.error);
        }
        if session.actions[id].destinationAmount != before {
          repriced := Some((before, session.actions[id].destinationAmount));
        }
      case TransferAction(_) =>
        var done := P.ExecuteTransfer(session, p.owner, id, true);
        if done.Err? {
          return Err(done.error);
        }
      case CounterpartyAction(_) =>
        session.counterparties := session.counterparties[id := session.counterparties[id].(status := Verified)];
    }
    session.approvals := session.approvals[k := approval.(status := Approved, decidedBy := Some(p.owner),
                                                          decidedAt := Some(now), repriced := repriced)];
    return Ok(Done.Done);
  }

  method Reject(session: Session, now: Time, p: Principal, k: Id) returns (r: Result<Done>)
    requires p.owner < |session.owners|
    modifies session`balances, session`actions, session`approvals, session`counterparties
    ensures match A.Reject(old(session.View()), now, p, k)
            case Ok(s) => r.Ok? && session.View() == s
            case Err(e) => r == Err(e)
  {
    var allowed := RequireOwner(p);
    if allowed.Err? {
      return Err(allowed.error);
    }
    var found := A.GetApproval(session.View(), p, k);
    if found.Err? {
      return Err(found.error);
    }
    var approval := found.value;
    var pending := A.RequirePending(approval, now);
    if pending.Err? {
      return Err(pending.error);
    }
    var released := ReleaseHeldFunds(session, now, p.owner, approval.action, OwnerRejected);
    if released.Err? {
      return Err(released.error);
    }
    if approval.action.CounterpartyAction? {
      var c := approval.action.id;
      if c >= |session.counterparties| {
        return Err(RowMissing);
      }
      session.counterparties := session.counterparties[c := session.counterparties[c].(status := Blocked)];
    }
    session.approvals := session.approvals[k := approval.(status := Rejected, decidedBy := Some(p.owner),
                                                          decidedAt := Some(now))];
    return Ok(Done.Done);
  }

  // ---- The sweep ---------------------------------------------------------------------------

  /** The stale approvals; the query promises no order. */
  method QueryStale(session: Session, now: Time) returns (stale: seq<Id>)
    ensures A.ListsStale(session.View(), now, stale)
  {
    stale := [];
    for k := 0 to |session.approvals|
      invariant forall i, j :: 0 <= i < j < |stale| ==> stale[i] != stale[j]
      invariant forall x: Id :: x in stale <==> x < k && A.Stale(session.approvals[x], now)
    {
      if A.Stale(session.approvals[k], now) {
        stale := stale + [k];
      }
    }
  }

  method ExpireOne(session: Session, now: Time, k: Id) returns (r: Result<Done>)
    modifies session`balances, session`actions, session`approvals
    ensures match A.ExpireOne(old(session.View()), now, k)
            case Ok(s) => r.Ok? && session.View() == s
            case Err(e) => r == Err(e)
  {
    if k >= |session.approvals| || session.approvals[k].owner >= |session.owners| {
      return Err(RowMissing);
    }
    var approval := session.approvals[k];
    var released := ReleaseHeldFunds(session, now, approval.owner, approval.action, ExpiredApproval);
    if released.Err? {
      return Err(released.error);
    }
    session.approvals := session.approvals[k := approval.(status := Expired, decidedAt := Some(now))];
    return Ok(Done.Done);
  }

  /** Expires every stale approval and returns how many there were. */
  method ExpireStale(session: Session, now: Time) returns (r: Result<nat>, ghost order: seq<Id>)
    modifies session`balances, session`actions, session`approvals
    ensures A.ListsStale(old(session.View()), now, order)
    ensures match A.ExpireAll(old(session.View()), now, order)
            case Ok(s) => r == Ok(|order|) && session.View() == s
            case Err(e) => r == Err(e)
  {
    var stale := QueryStale(session, now);
    order := stale;
    for i := 0 to |stale|
      invariant A.ExpireAll(old(session.View()), now, stale[..i]) == Ok(session.View())
    {
      assert stale[..i + 1][..i] == stale[..i];
      var done := ExpireOne(session, now, stale[i]);
      if done.Err? {
        FailsFrom(old(session.View()), now, stale, i + 1);
        return Err(done.error), order;
      }
    }
    assert stale[..|stale|] == stale;
    return Ok(|stale|), order;
  }

  /** A sweep that fails on a prefix fails on the whole list. */
  lemma {:induction false} FailsFrom(s: State, now: Time, ks: seq<Id>, n: nat)
    requires n <= |ks| && A.ExpireAll(s, now, ks[..n]).Err?
    ensures A.ExpireAll(s, now, ks) == A.ExpireAll(s, now, ks[..n])
  {
    if n == |ks| {
      assert ks[..n] == ks;
    } else {
      assert ks[..|ks| - 1][..n] == ks[..n];
      FailsFrom(s, now, ks[..|ks| - 1], n);
    }
  }

  // ---- Requests ----------------------------------------------------------------------------

  predicate Served(op: Op) {
    op.CreatePaymentOp? || op.CancelPaymentOp? || op.CreateTransferOp? || op.ApproveOp? || op.RejectOp?
  }

  /** One request in its own transaction: committed if it succeeds, rolled back if it fails. */
  method Handle(session: Session, now: Time, op: Op) returns (r: Result<Id>)
    requires Served(op)
    modifies session
    ensures Outcome(session.View(), r) == Step(old(session.View()), now, op)
  {
    var saved := session.View();
    if !Authentic(saved, op.p) {
      return Err(Unauthorized);
    }
    match op {
      case CreatePaymentOp(p, body) =>
        r := P.CreatePayment(session, now, p, body);
      case CreateTransferOp(p, body) =>
        r := P.CreateTransfer(session, now, p, body);
      case CancelPaymentOp(p, id) =>
        var done := P.CancelPayment(session, now, p, id);
        r := if done.Ok? then Ok(id) else Err(done.error);
      case ApproveOp(p, k) =>
        var done := Approve(session, now, p, k);
        r := if done.Ok? then Ok(k) else Err(done.error);
      case RejectOp(p, k) =>
        var done := Reject(session, now, p, k);
        r := if done.Ok? then Ok(k) else Err(done.error);
    }
    if r.Err? {
      session.Rollback(saved);
    }
  }

  lemma SweepStep(s: State, now: Time, order: seq<Id>)
    ensures Step(s, now, ExpireStaleOp(order)).state
            == match A.ExpireAll(s, now, order) case Ok(s') => s' case Err(_) => s
  {
  }

  /** The worker's periodic sweep, in a transaction of its own. */
  method RunSweep(session: Session, now: Time) returns (r: Result<nat>, ghost order: seq<Id>)
    modifies session
    ensures Enabled(old(session.View()), now, ExpireStaleOp(order))
    ensures session.View() == Step(old(session.View()), now, ExpireStaleOp(order)).state
    ensures r.Ok? ==> r.value == |order|
  {
    var saved := session.View();
    r, order := ExpireStale(session, now);
    SweepStep(saved, now, order);
    if r.Err? {
      session.Rollback(saved);
    }
  }
}
