/** Authentication, tenant-scoped lookups (services/credentials.py, agents.py, counterparties.py)
    and the policy gate (services/policy_gate.py), as functions on the database state. */
module PolicyGateModel {
  import opened Prelude
  import opened Models
  import opened PolicyEngine
  import opened Calendar
  import opened Sandbox
  import opened Tallies

  /** What a request ends with: the state of its transaction, and its result or error. */
  datatype Outcome = Outcome(state: State, result: Result<Id>)

  function Acting(p: Principal): Option<Id> {
    if p.credential.AgentKey? then Some(p.credential.agent) else None
  }

  /** What resolve_token guarantees of a principal. */
  predicate Authentic(s: State, p: Principal) {
    && p.owner < |s.owners|
    && (p.credential.AgentKey? ==>
         && p.credential.agent < |s.agents|
         && s.agents[p.credential.agent].owner == p.owner
         && s.agents[p.credential.agent].status.Active?)
  }

  function RequireOwner(p: Principal): Result<Done> {
    Check(p.credential.OwnerKey?, OwnerScopeRequired)
  }

  /** Owner keys carry every scope. */
  function RequireScope(p: Principal, scope: Scope): Result<Done> {
    Check(p.credential.OwnerKey? || scope in p.scopes, InsufficientScope)
  }

  /** Owner-scoped; an agent may fetch only itself, and gets the same 404 for any other. */
  function GetAgent(s: State, p: Principal, id: Id): (r: Result<Agent>)
    ensures r.Ok? ==> id < |s.agents| && r.value == s.agents[id] && r.value.owner == p.owner
    ensures r.Ok? && p.credential.AgentKey? ==> id == p.credential.agent
  {
    if p.credential.AgentKey? && p.credential.agent != id then Err(NotFound)
    else if id < |s.agents| && s.agents[id].owner == p.owner then Ok(s.agents[id])
    else Err(NotFound)
  }

  function GetCounterparty(s: State, p: Principal, id: Id): (r: Result<Counterparty>)
    ensures r.Ok? ==> id < |s.counterparties| && r.value == s.counterparties[id] && r.value.owner == p.owner
  {
    var _ :- RequireScope(p, CounterpartiesRead);
    if id < |s.counterparties| && s.counterparties[id].owner == p.owner then Ok(s.counterparties[id])
    else Err(NotFound)
  }

  function OwnerCurrency(s: State, owner: Id): Currency
    requires owner < |s.owners|
  {
    s.owners[owner].currency
  }

  function LoadActivePolicy(s: State, agent: Id): Option<Policy>
    requires agent < |s.agents|
  {
    var version := s.agents[agent].policyVersion;
    if version == 0 then None
    else if (agent, version) in s.policies then Some(s.policies[(agent, version)])
    else None
  }

  function Context(s: State, now: Time, agent: Id, actionType: ActionType, amount: Option<int>,
                   currency: Option<Currency>, counterparty: Option<Id>, isCrossBorder: bool): ActionContext
    requires counterparty.Some? ==> counterparty.value < |s.counterparties|
  {
    var (daily, monthly, today) := SpendAggregates(s.actions, agent, now);
    ActionContext(actionType, amount, currency, counterparty,
                  if counterparty.Some? then Some(s.counterparties[counterparty.value].status) else None,
                  isCrossBorder, None, daily, monthly, today)
  }

  function Decide(s: State, p: Principal, agent: Id, context: ActionContext): Decision
    requires p.owner < |s.owners| && agent < |s.agents|
  {
    Evaluate(context, AgentContext(s.agents[agent].status, s.owners[p.owner].verified), LoadActivePolicy(s, agent))
  }

  /** Records the evaluation: a denial in a session of its own, anything else with the request. */
  function Recorded(s: State, p: Principal, agent: Id, context: ActionContext, decision: Decision): State
    requires agent < |s.agents|
  {
    var e := Evaluation(p.owner, agent, p.credential, context.actionType, context.amount,
                        s.agents[agent].policyVersion, decision);
    if decision.Deny? then s.(denials := s.denials + [e]) else s.(events := s.events + [e])
  }

  function ExpiryFor(s: State, agent: Id, now: Time): int
    requires agent < |s.agents|
  {
    var policy := LoadActivePolicy(s, agent);
    now + (if policy.Some? then policy.value.approvals.autoExpireHours else 72) * HOUR
  }

  /** raise_approval: the new approval takes the next id. */
  function NewApproval(s: State, now: Time, p: Principal, agent: Id, trigger: HoldTrigger,
                       action: ApprovalAction): Approval
    requires agent < |s.agents|
  {
    Approval(p.owner, agent, action, trigger, Pending, None, None, None, ExpiryFor(s, agent, now))
  }
}
