/** The policy engine (policy/engine.py, policy/types.py): a pure decision over an action,
    the acting agent and the agent's policy. */
module PolicyEngine {
  import opened Prelude

  datatype Limits = Limits(
    perTransaction: Option<int>,
    daily: Option<int>,
    monthly: Option<int>,
    maxTransactionsPerDay: Option<int>)

  datatype ApprovalRules = ApprovalRules(
    requireApprovalAbove: Option<int>,
    forNewCounterparties: bool,
    forCrossBorder: bool,
    autoExpireHours: int)

  /** Allowlists are only ever asked for membership, so a set stands for the list. */
  datatype Policy = Policy(
    limits: Limits,
    counterpartyAllowlist: Option<set<nat>>,
    verifiedCounterpartiesOnly: bool,
    merchantCategoryAllowlist: Option<set<string>>,
    currencyAllowlist: Option<set<string>>,
    approvals: ApprovalRules)

  datatype ActionType = PaymentType | TransferType | CounterpartyType | CardAuthorizationType

  datatype CounterpartyStatus = Unverified | Verified | Blocked

  datatype AgentStatus = Active | Suspended | Deactivated

  datatype ActionContext = ActionContext(
    actionType: ActionType,
    amount: Option<int>,
    currency: Option<string>,
    counterparty: Option<nat>,
    counterpartyStatus: Option<CounterpartyStatus>,
    isCrossBorder: bool,
    merchantCategory: Option<string>,
    dailySpend: int,
    monthlySpend: int,
    transactionsToday: int)

  datatype AgentContext = AgentContext(status: AgentStatus, ownerVerified: bool)

  datatype DenyRule =
    | NoPolicy
    | AgentNotActive
    | OwnerNotVerified
    | CounterpartyBlocked
    | CurrencyAllowlist
    | MerchantCategoryAllowlist
    | CounterpartyAllowlist
    | VerifiedCounterpartiesOnly

  datatype HoldTrigger =
    | PerTransactionLimit
    | DailyLimit
    | MonthlyLimit
    | MaxTransactionsPerDay
    | RequireApprovalAbove
    | NewCounterparty
    | CrossBorder

  datatype Decision = Allow | Hold(trigger: HoldTrigger) | Deny(rule: DenyRule)

  predicate Monetary(t: ActionType) {
    t.PaymentType? || t.TransferType? || t.CardAuthorizationType?
  }

  predicate Misses<T(==)>(allowlist: Option<set<T>>, item: Option<T>) {
    allowlist.Some? && item.Some? && item.value !in allowlist.value
  }

  predicate Exceeds(amount: int, limit: Option<int>) {
    limit.Some? && amount > limit.value
  }

  /** Deny rules first, in order; then hold rules, in order; the first hit decides. */
  function Evaluate(action: ActionContext, agent: AgentContext, policy: Option<Policy>): Decision {
    if policy.None? then Deny(NoPolicy)
    else
      var p := policy.value;
      if !agent.status.Active? then Deny(AgentNotActive)
      else if !agent.ownerVerified then Deny(OwnerNotVerified)
      else if action.counterpartyStatus == Some(Blocked) then Deny(CounterpartyBlocked)
      else if Misses(p.currencyAllowlist, action.currency) then Deny(CurrencyAllowlist)
      else if Misses(p.merchantCategoryAllowlist, action.merchantCategory) then Deny(MerchantCategoryAllowlist)
      else if action.actionType.PaymentType? && action.counterparty.Some?
              && Misses(p.counterpartyAllowlist, action.counterparty) then Deny(CounterpartyAllowlist)
      else if action.actionType.PaymentType? && action.counterparty.Some?
              && p.verifiedCounterpartiesOnly && action.counterpartyStatus != Some(Verified)
      then Deny(VerifiedCounterpartiesOnly)
      else if Monetary(action.actionType) && action.amount.Some?
              && EvaluateAmount(action, action.amount.value, p).Some?
      then Hold(EvaluateAmount(action, action.amount.value, p).value)
      else if (action.actionType.PaymentType? || action.actionType.CounterpartyType?)
              && p.approvals.forNewCounterparties && action.counterpartyStatus == Some(Unverified)
      then Hold(NewCounterparty)
      else if action.actionType.PaymentType? && p.approvals.forCrossBorder && action.isCrossBorder
      then Hold(CrossBorder)
      else Allow
  }

  function EvaluateAmount(action: ActionContext, amount: int, p: Policy): Option<HoldTrigger> {
    if Exceeds(amount, p.limits.perTransaction) then Some(PerTransactionLimit)
    else if Exceeds(action.dailySpend + amount, p.limits.daily) then Some(DailyLimit)
    else if Exceeds(action.monthlySpend + amount, p.limits.monthly) then Some(MonthlyLimit)
    else if Exceeds(action.transactionsToday + 1, p.limits.maxTransactionsPerDay) then Some(MaxTransactionsPerDay)
    else if Exceeds(amount, p.approvals.requireApprovalAbove) then Some(RequireApprovalAbove)
    else None
  }

  // ---- Severity and its monotonicity -------------------------------------------------------

  /** allow < hold < deny */
  function Severity(d: Decision): nat {
    match d
    case Allow => 0
    case Hold(_) => 1
    case Deny(_) => 2
  }

  /** `b` proposes at least what `a` proposes: the same categorical facts, at least the amount,
      the spend so far and the count, and cross-border if `a` is. */
  ghost predicate AtLeast(a: ActionContext, b: ActionContext) {
    && b == a.(amount := b.amount, isCrossBorder := b.isCrossBorder, dailySpend := b.dailySpend,
               monthlySpend := b.monthlySpend, transactionsToday := b.transactionsToday)
    && (a.amount.Some? ==> b.amount.Some? && a.amount.value <= b.amount.value)
    && (a.isCrossBorder ==> b.isCrossBorder)
    && a.dailySpend <= b.dailySpend
    && a.monthlySpend <= b.monthlySpend
    && a.transactionsToday <= b.transactionsToday
  }

  ghost predicate LimitTightened(p: Option<int>, q: Option<int>) {
    p.Some? ==> q.Some? && q.value <= p.value
  }

  ghost predicate AllowlistTightened<T(!new)>(p: Option<set<T>>, q: Option<set<T>>) {
    p.Some? ==> q.Some? && q.value <= p.value
  }

  /** `q` is `p` or stricter in any of its parts; having no policy at all is strictest. */
  ghost predicate Tightened(p: Option<Policy>, q: Option<Policy>) {
    q.Some? ==>
      && p.Some?
      && LimitTightened(p.value.limits.perTransaction, q.value.limits.perTransaction)
      && LimitTightened(p.value.limits.daily, q.value.limits.daily)
      && LimitTightened(p.value.limits.monthly, q.value.limits.monthly)
      && LimitTightened(p.value.limits.maxTransactionsPerDay, q.value.limits.maxTransactionsPerDay)
      && LimitTightened(p.value.approvals.requireApprovalAbove, q.value.approvals.requireApprovalAbove)
      && AllowlistTightened(p.value.counterpartyAllowlist, q.value.counterpartyAllowlist)
      && AllowlistTightened(p.value.merchantCategoryAllowlist, q.value.merchantCategoryAllowlist)
      && AllowlistTightened(p.value.currencyAllowlist, q.value.currencyAllowlist)
      && (p.value.verifiedCounterpartiesOnly ==> q.value.verifiedCounterpartiesOnly)
      && (p.value.approvals.forNewCounterparties ==> q.value.approvals.forNewCounterparties)
      && (p.value.approvals.forCrossBorder ==> q.value.approvals.forCrossBorder)
  }

  /** Asking for more, or under a stricter policy, never gets a milder answer. */
  lemma EvaluateIsMonotone(a: ActionContext, b: ActionContext, agent: AgentContext,
                           p: Option<Policy>, q: Option<Policy>)
    requires AtLeast(a, b) && Tightened(p, q)
    ensures Severity(Evaluate(a, agent, p)) <= Severity(Evaluate(b, agent, q))
  {
    if q.Some? && a.amount.Some? && EvaluateAmount(a, a.amount.value, p.value).Some? {
      assert EvaluateAmount(b, b.amount.value, q.value).Some?;
    }
  }

  // ---- Which rule answers ------------------------------------------------------------------

  /** The categorical facts under which each deny rule applies, independent of the others. */
  ghost predicate Forbids(rule: DenyRule, action: ActionContext, agent: AgentContext, policy: Option<Policy>) {
    match rule
    case NoPolicy => policy.None?
    case AgentNotActive => agent.status != Active
    case OwnerNotVerified => !agent.ownerVerified
    case CounterpartyBlocked => action.counterpartyStatus == Some(Blocked)
    case CurrencyAllowlist =>
      policy.Some? && policy.value.currencyAllowlist.Some? && action.currency.Some?
      && action.currency.value !in policy.value.currencyAllowlist.value
    case MerchantCategoryAllowlist =>
      policy.Some? && policy.value.merchantCategoryAllowlist.Some? && action.merchantCategory.Some?
      && action.merchantCategory.value !in policy.value.merchantCategoryAllowlist.value
    case CounterpartyAllowlist =>
      policy.Some? && policy.value.counterpartyAllowlist.Some? && action.actionType == PaymentType
      && action.counterparty.Some? && action.counterparty.value !in policy.value.counterpartyAllowlist.value
    case VerifiedCounterpartiesOnly =>
      policy.Some? && policy.value.verifiedCounterpartiesOnly && action.actionType == PaymentType
      && action.counterparty.Some? && action.counterpartyStatus != Some(Verified)
  }

  /** The facts under which each hold rule asks for the owner's approval. */
  ghost predicate AsksReview(trigger: HoldTrigger, action: ActionContext, policy: Policy) {
    match trigger
    case NewCounterparty =>
      policy.approvals.forNewCounterparties && action.counterpartyStatus == Some(Unverified)
      && action.actionType in {PaymentType, CounterpartyType}
    case CrossBorder =>
      policy.approvals.forCrossBorder && action.isCrossBorder && action.actionType == PaymentType
    case _ =>
      action.actionType != CounterpartyType && action.amount.Some? &&
      var amount := action.amount.value;
      match trigger
      case PerTransactionLimit => Exceeds(amount, policy.limits.perTransaction)
      case DailyLimit => Exceeds(action.dailySpend + amount, policy.limits.daily)
      case MonthlyLimit => Exceeds(action.monthlySpend + amount, policy.limits.monthly)
      case MaxTransactionsPerDay => Exceeds(action.transactionsToday + 1, policy.limits.maxTransactionsPerDay)
      case _ => Exceeds(amount, policy.approvals.requireApprovalAbove)
  }

  function DenyRank(rule: DenyRule): nat {
    match rule
    case NoPolicy => 0
    case AgentNotActive => 1
    case OwnerNotVerified => 2
    case CounterpartyBlocked => 3
    case CurrencyAllowlist => 4
    case MerchantCategoryAllowlist => 5
    case CounterpartyAllowlist => 6
    case VerifiedCounterpartiesOnly => 7
  }

  function HoldRank(trigger: HoldTrigger): nat {
    match trigger
    case PerTransactionLimit => 0
    case DailyLimit => 1
    case MonthlyLimit => 2
    case MaxTransactionsPerDay => 3
    case RequireApprovalAbove => 4
    case NewCounterparty => 5
    case CrossBorder => 6
  }

  ghost predicate IsFirstDeny(rule: DenyRule, action: ActionContext, agent: AgentContext, policy: Option<Policy>) {
    && Forbids(rule, action, agent, policy)
    && forall r: DenyRule :: Forbids(r, action, agent, policy) ==> DenyRank(rule) <= DenyRank(r)
  }

  ghost predicate IsFirstHold(trigger: HoldTrigger, action: ActionContext, policy: Policy) {
    && AsksReview(trigger, action, policy)
    && forall t: HoldTrigger :: AsksReview(t, action, policy) ==> HoldRank(trigger) <= HoldRank(t)
  }

  /** The decision is the first deny rule that applies, else the first hold rule that applies,
      else allow; so a deny always wins over a hold. */
  lemma EvaluateFirstHit(action: ActionContext, agent: AgentContext, policy: Option<Policy>)
    ensures match Evaluate(action, agent, policy)
            case Deny(rule) => IsFirstDeny(rule, action, agent, policy)
            case Hold(trigger) =>
              && (forall r: DenyRule :: !Forbids(r, action, agent, policy))
              && policy.Some? && IsFirstHold(trigger, action, policy.value)
            case Allow =>
              && (forall r: DenyRule :: !Forbids(r, action, agent, policy))
              && policy.Some? && (forall t: HoldTrigger :: !AsksReview(t, action, policy.value))
  {
    if policy.None? {
      assert Forbids(NoPolicy, action, agent, policy);
    }
  }

  /** A denial never depends on the amount, the spend totals, the count or the border flag. */
  lemma DenyIsCategorical(a: ActionContext, b: ActionContext, agent: AgentContext, policy: Option<Policy>,
                          rule: DenyRule)
    requires b == a.(amount := b.amount, isCrossBorder := b.isCrossBorder, dailySpend := b.dailySpend,
                     monthlySpend := b.monthlySpend, transactionsToday := b.transactionsToday)
    ensures Evaluate(a, agent, policy) == Deny(rule) <==> Evaluate(b, agent, policy) == Deny(rule)
  {
    EvaluateFirstHit(a, agent, policy);
    EvaluateFirstHit(b, agent, policy);
  }
}
