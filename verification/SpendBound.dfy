/** What an agent can spend on its own: over any run during which its policy stays in force,
    the payments and transfers its own credential executed without a hold stay within the
    daily and monthly limits and the daily count. */
module SpendBound {
  import opened Prelude
  import opened Models
  import opened PolicyEngine
  import opened Calendar
  import opened Tallies
  import opened PolicyGateModel
  import opened PaymentsModel
  import opened Machine
  import opened Invariant
  import opened Steps
  import opened StepInvariant
  import opened RunInvariant
  import opened Stability

  /** The limit of a policy on a window, if it sets one. */
  function LimitOn(policy: Policy, w: Window): Option<int> {
    if w.DayWindow? then policy.limits.daily else policy.limits.monthly
  }

  function CountLimitOn(policy: Policy, w: Window): Option<int> {
    if w.DayWindow? then policy.limits.maxTransactionsPerDay else None
  }

  ghost predicate Within(amount: int, limit: Option<int>) {
    limit.Some? ==> amount <= limit.value
  }

  /** What `agent` spent directly in `w`, as (amount, number of actions). */
  function DirectUse(actions: seq<Action>, agent: Id, w: Window): (int, int) {
    (Total(DirectSpend(agent, w), actions), Total(DirectTransactions(agent, w), actions))
  }

  /** Either nothing was added to the direct use, or it is within the policy's limits. */
  ghost predicate Bounded(before: seq<Action>, after: seq<Action>, agent: Id, w: Window, policy: Option<Policy>) {
    || DirectUse(after, agent, w) == DirectUse(before, agent, w)
    || (policy.Some?
        && Within(DirectUse(after, agent, w).0, LimitOn(policy.value, w))
        && Within(DirectUse(after, agent, w).1, CountLimitOn(policy.value, w)))
  }

  /** Deciding held actions leaves the direct use alone. */
  lemma DirectUseKept(s: State, s': State, now: Time, agent: Id, w: Window)
    requires Inv(s, now) && Extends(s, s') && |s'.actions| == |s.actions|
    ensures DirectUse(s'.actions, agent, w) == DirectUse(s.actions, agent, w)
  {
    forall i: Id, m: Measure | i < |s.actions| && m in {DirectSpend(agent, w), DirectTransactions(agent, w)}
      ensures Weight(m, s'.actions[i]) == Weight(m, s.actions[i])
    {
      assert LaterAction(s.actions[i], s'.actions[i]);
      assert ActionLinked(s.actions, s.approvals, i);
    }
    TotalSame(DirectSpend(agent, w), s.actions, s'.actions);
    TotalSame(DirectTransactions(agent, w), s.actions, s'.actions);
  }

  /** Usage counts at least what was executed directly in the window. */
  lemma UsageCoversDirect(s: State, now: Time, agent: Id, w: Window)
    requires Inv(s, now) && w.Contains(now)
    ensures var (daily, monthly, today) := SpendAggregates(s.actions, agent, now);
            && DirectUse(s.actions, agent, w).0 <= (if w.DayWindow? then daily else monthly)
            && (w.DayWindow? ==> DirectUse(s.actions, agent, w).1 <= today)
  {
    WindowStart(w, now);
    forall i | 0 <= i < |s.actions| ensures s.actions[i].amount > 0 {
      assert ActionRow(s.owners, s.agents, s.quotes, s.actions[i], now);
    }
    TotalLeq(DirectSpend(agent, w), Spend(agent, w.Start()), s.actions);
    TotalLeq(DirectTransactions(agent, w), Transactions(agent, w.Start()), s.actions);
  }

  /** An action the engine allows fits within every limit. */
  lemma AllowFits(context: ActionContext, agent: AgentContext, policy: Option<Policy>)
    requires Evaluate(context, agent, policy) == Allow && Monetary(context.actionType) && context.amount.Some?
    ensures policy.Some?
    ensures Within(context.dailySpend + context.amount.value, policy.value.limits.daily)
    ensures Within(context.monthlySpend + context.amount.value, policy.value.limits.monthly)
    ensures Within(context.transactionsToday + 1, policy.value.limits.maxTransactionsPerDay)
  {
  }

  /** Adding a row keeps the bound if it is not a direct one of `a`'s, or was allowed. */
  lemma AppendBounded(s: State, now: Time, p: Principal, row: Action, context: ActionContext, w: Window, a: Id)
    requires Inv(s, now) && p.owner < |s.owners| && a < |s.agents| && row.createdAt == now
    requires Direct(row, a) ==>
               && Decide(s, p, a, context) == Allow
               && Monetary(context.actionType) && context.amount == Some(row.amount)
               && (context.dailySpend, context.monthlySpend, context.transactionsToday)
                  == SpendAggregates(s.actions, a, now)
    ensures Bounded(s.actions, s.actions + [row], a, w, LoadActivePolicy(s, a))
  {
    TotalAppend(DirectSpend(a, w), s.actions, row);
    TotalAppend(DirectTransactions(a, w), s.actions, row);
    if Direct(row, a) && w.Contains(now) {
      AllowFits(context, AgentContext(s.agents[a].status, s.owners[p.owner].verified), LoadActivePolicy(s, a));
      UsageCoversDirect(s, now, a, w);
    }
  }

  /** Executing a gated action keeps the acting agent within its policy's limits. */
  lemma GatedBounded(s: State, now: Time, p: Principal, agent: Id, row: Action, context: ActionContext, w: Window,
                     a: Id)
    requires Inv(s, now) && Authentic(s, p) && agent < |s.agents| && a < |s.agents|
    requires Fresh(s, now, p.owner, row) && Source(row) in s.books.balances
    requires Gated(s, now, p, agent, row, context).result.Ok?
    requires row.credential == p.credential && (p.credential.AgentKey? ==> agent == p.credential.agent)
    requires Monetary(context.actionType) && context.amount == Some(row.amount)
    requires (context.dailySpend, context.monthlySpend, context.transactionsToday)
             == SpendAggregates(s.actions, agent, now)
    ensures Bounded(s.actions, Gated(s, now, p, agent, row, context).state.actions, a, w, LoadActivePolicy(s, a))
  {
    var s1 := GatedShape(s, now, p, agent, row, context);
    var s' := Gated(s, now, p, agent, row, context).state;
    var row' := s'.actions[|s.actions|];
    assert s'.actions == s.actions + [row'];
    assert Direct(row', a) ==> p.credential.AgentKey? && agent == a && Decide(s, p, agent, context) == Allow;
    AppendBounded(s, now, p, row', context, w, a);
  }

  lemma CreatePaymentBounded(s: State, now: Time, p: Principal, body: PaymentBody, w: Window, a: Id)
    requires Inv(s, now) && Authentic(s, p) && CreatePayment(s, now, p, body).result.Ok? && a < |s.agents|
    ensures Bounded(s.actions, CreatePayment(s, now, p, body).state.actions, a, w, LoadActivePolicy(s, a))
  {
    var s0, terms := CreatePaymentShape(s, now, p, body);
    GatedBounded(s0, now, p, body.agent, NewPayment(now, p, body, terms), PaymentContext(s0, now, p, body, terms), w,
                 a);
  }

  lemma CreateTransferBounded(s: State, now: Time, p: Principal, body: TransferBody, w: Window, a: Id)
    requires Inv(s, now) && Authentic(s, p) && CreateTransfer(s, now, p, body).result.Ok? && a < |s.agents|
    ensures Bounded(s.actions, CreateTransfer(s, now, p, body).state.actions, a, w, LoadActivePolicy(s, a))
  {
    var s0, agent := CreateTransferShape(s, now, p, body);
    var row := NewTransfer(now, p, body);
    if p.credential.OwnerKey? {
      ExecuteNewShape(s0, now, p.owner, row);
      AppendBounded(s0, now, p, DoneRow(row, now), TransferContext(s0, now, agent, body), w, a);
    } else {
      GatedBounded(s0, now, p, agent, row, TransferContext(s0, now, agent, body), w, a);
    }
  }

  lemma StepBounded(s: State, clock: Time, now: Time, op: Op, w: Window, a: Id)
    requires Inv(s, clock) && clock <= now && Enabled(s, now, op) && a < |s.agents|
    ensures Bounded(s.actions, Step(s, now, op).state.actions, a, w, LoadActivePolicy(s, a))
  {
    AdvanceClock(s, clock, now);
    StepExtends(s, clock, now, op);
    if !CreatesAction(op) {
      DirectUseKept(s, Step(s, now, op).state, now, a, w);
    } else if Authentic(s, op.p) && Perform(s, now, op).result.Ok? {
      match op
      case CreatePaymentOp(p, body) => CreatePaymentBounded(s, now, p, body, w, a);
      case CreateTransferOp(p, body) => CreateTransferBounded(s, now, p, body, w, a);
    }
  }

  /** The policy an agent is under stays the same as long as its version does. */
  lemma SamePolicy(s: State, s': State, clock: Time, a: Id)
    requires Inv(s, clock) && Extends(s, s') && a < |s.agents|
    requires s'.agents[a].policyVersion == s.agents[a].policyVersion
    ensures LoadActivePolicy(s', a) == LoadActivePolicy(s, a)
  {
  }

  /** The bound over runs: while the policy version of `a` is the same at both ends, the run
      either added nothing to what `a` spent directly in the window, or left the whole window's
      direct spend (and, for a day, its count) within the policy's limits. */
  lemma {:induction false} RunBounded(s: State, start: Time, events: seq<Event>, w: Window, a: Id)
    requires Inv(s, start) && Possible(s, start, events) && a < |s.agents|
    requires var s' := Run(s, events); a < |s'.agents| && s'.agents[a].policyVersion == s.agents[a].policyVersion
    ensures Bounded(s.actions, Run(s, events).actions, a, w, LoadActivePolicy(s, a))
  {
    if events != [] {
      var before, last := events[..|events| - 1], events[|events| - 1];
      var s1 := Run(s, before);
      RunInv(s, start, before);
      RunExtends(s, start, before);
      StepExtends(s1, Clock(start, before), last.now, last.op);
      assert LaterAgent(s.agents[a], s1.agents[a]) && LaterAgent(s1.agents[a], Run(s, events).agents[a]);
      RunBounded(s, start, before, w, a);
      SamePolicy(s, s1, start, a);
      StepBounded(s1, Clock(start, before), last.now, last.op, w, a);
    }
  }

  /** For a window that lies ahead, the bound is on everything the agent spends directly in it. */
  lemma WindowAheadBounded(s: State, start: Time, events: seq<Event>, w: Window, a: Id)
    requires Inv(s, start) && Possible(s, start, events) && a < |s.agents| && start < w.Start()
    requires var s' := Run(s, events); a < |s'.agents| && s'.agents[a].policyVersion == s.agents[a].policyVersion
    ensures var used, policy := DirectUse(Run(s, events).actions, a, w), LoadActivePolicy(s, a);
            used == (0, 0) || (policy.Some? && Within(used.0, LimitOn(policy.value, w))
                               && Within(used.1, CountLimitOn(policy.value, w)))
  {
    NothingAhead(s, start, s.actions, w, a);
    RunBounded(s, start, events, w, a);
  }

  lemma {:induction false} NothingAhead(s: State, clock: Time, actions: seq<Action>, w: Window, a: Id)
    requires forall i :: 0 <= i < |actions| ==> ActionRow(s.owners, s.agents, s.quotes, actions[i], clock)
    requires clock < w.Start()
    ensures DirectUse(actions, a, w) == (0, 0)
  {
    if actions != [] {
      assert ActionRow(s.owners, s.agents, s.quotes, actions[|actions| - 1], clock);
      NothingAhead(s, clock, actions[..|actions| - 1], w, a);
    }
  }
}
