/** Sums over the payment and transfer rows: one recursion for every quantity the services or
    the proofs add up, with the aggregates of services/usage.py among them. */
module Tallies {
  import opened Prelude
  import opened Models
  import opened Calendar
  import opened Sandbox

  /** The holder an action takes its amount from. */
  function Source(a: Action): Holder {
    match a
    case Payment(_, agent, _, _, _, _, _, _, _, _, _, _, _, _, _, _) => AgentHolder(agent)
    case Transfer(_, _, _, source, _, _, _, _, _, _) => source
  }

  /** The account the action's amount ends up on. */
  function Target(a: Action): Account {
    if a.Payment? then SystemAccount(Settlement, a.currency) else HolderAccount(a.destination, a.currency)
  }

  /** Whether usage counts the action against the agent: its payments, whoever made them, and
      the transfers it initiated. */
  predicate SpendsFor(a: Action, agent: Id) {
    if a.Payment? then a.agent == agent else a.initiator == Some(agent)
  }

  predicate Counted(a: Action) {
    if a.Payment? then a.status in {PendingApproval, Processing, Completed, Returned}
    else a.status in {PendingApproval, Completed}
  }

  /** Executed by the agent's own credential without a hold. */
  predicate Direct(a: Action, agent: Id) {
    && SpendsFor(a, agent)
    && a.credential.AgentKey? && a.credential.agent == agent
    && a.approval.None?
    && a.status == Completed
  }

  datatype Measure =
    | PendingFrom(holder: Holder)
    | SettledIn(currency: Currency)
    | Spend(agent: Id, since: Time)
    | Transactions(agent: Id, since: Time)
    | DirectSpend(agent: Id, window: Window)
    | DirectTransactions(agent: Id, window: Window)

  predicate Selects(m: Measure, a: Action) {
    match m
    case PendingFrom(h) => a.status == PendingApproval && Source(a) == h
    case SettledIn(c) => a.Payment? && a.status == Completed && a.currency == c
    case Spend(agent, since) => SpendsFor(a, agent) && Counted(a) && a.createdAt >= since
    case Transactions(agent, since) => SpendsFor(a, agent) && Counted(a) && a.createdAt >= since
    case DirectSpend(agent, w) => Direct(a, agent) && w.Contains(a.createdAt)
    case DirectTransactions(agent, w) => Direct(a, agent) && w.Contains(a.createdAt)
  }

  function Weight(m: Measure, a: Action): int {
    if !Selects(m, a) then 0
    else if m.Transactions? || m.DirectTransactions? then 1
    else a.amount
  }

  function Total(m: Measure, actions: seq<Action>): int {
    if actions == [] then 0
    else Total(m, actions[..|actions| - 1]) + Weight(m, actions[|actions| - 1])
  }

  /** spend_aggregates: (daily spend, monthly spend, transactions today). */
  function SpendAggregates(actions: seq<Action>, agent: Id, now: Time): (int, int, int) {
    (Total(Spend(agent, DayStart(now)), actions),
     Total(Spend(agent, MonthStart(now)), actions),
     Total(Transactions(agent, DayStart(now)), actions))
  }

  lemma TotalAppend(m: Measure, actions: seq<Action>, a: Action)
    ensures Total(m, actions + [a]) == Total(m, actions) + Weight(m, a)
  {
    assert (actions + [a])[..|actions|] == actions;
  }

  lemma {:induction false} TotalUpdate(m: Measure, actions: seq<Action>, i: Id, a: Action)
    requires i < |actions|
    ensures Total(m, actions[i := a]) == Total(m, actions) - Weight(m, actions[i]) + Weight(m, a)
  {
    var n := |actions| - 1;
    if i == n {
      assert actions[i := a][..n] == actions[..n];
    } else {
      TotalUpdate(m, actions[..n], i, a);
      assert actions[i := a][..n] == actions[..n][i := a];
    }
  }

  /** A measure that weighs every row at most as much sums to at most as much. */
  lemma {:induction false} TotalLeq(m: Measure, n: Measure, actions: seq<Action>)
    requires forall i :: 0 <= i < |actions| ==> Weight(m, actions[i]) <= Weight(n, actions[i])
    ensures Total(m, actions) <= Total(n, actions)
  {
    if actions != [] {
      TotalLeq(m, n, actions[..|actions| - 1]);
    }
  }

  /** A measure is a sum of what each row weighs. */
  lemma {:induction false} TotalSame(m: Measure, actions: seq<Action>, actions': seq<Action>)
    requires |actions'| == |actions|
    requires forall i :: 0 <= i < |actions| ==> Weight(m, actions'[i]) == Weight(m, actions[i])
    ensures Total(m, actions') == Total(m, actions)
  {
    if actions != [] {
      TotalSame(m, actions[..|actions| - 1], actions'[..|actions| - 1]);
    }
  }

  lemma {:induction false} TotalNonNegative(m: Measure, actions: seq<Action>)
    requires forall i :: 0 <= i < |actions| ==> actions[i].amount > 0
    ensures Total(m, actions) >= 0
  {
    if actions != [] {
      TotalNonNegative(m, actions[..|actions| - 1]);
    }
  }

  /** A selected row is part of the sum. */
  lemma {:induction false} TotalAtLeast(m: Measure, actions: seq<Action>, i: Id)
    requires i < |actions|
    requires forall j :: 0 <= j < |actions| ==> actions[j].amount > 0
    ensures Weight(m, actions[i]) <= Total(m, actions)
  {
    var n := |actions| - 1;
    if i == n {
      TotalNonNegative(m, actions[..n]);
    } else {
      TotalAtLeast(m, actions[..n], i);
    }
  }
}
