# Verification of the Agent OS money core

A Dafny model of Agent OS, the service through which an owner's software agents hold balances,
pay and transfer money under the owner's policy, and of the four smaller machines around it:
idempotency on REST and MCP, the sandbox's foreign-exchange arithmetic, cursor paging, and the
comparison of the API schema with its specification.

`dafny verify dfyconfig.toml` checks everything.

## What is modelled

**The money core** (`Models`, `Posting`, `Books`, `Tallies`, `PolicyGateModel`, `PaymentsModel`,
`ApprovalsModel`, `Machine`). The database is a `State`; the class `Session` holds its tables as
fields, and `LedgerService`, `PaymentsService` and `ApprovalsService` change them in place as the
services do. Every such method is proved to take the tables exactly where a function on values
says, or to fail with exactly its error; the theorems below are about those functions, and through
`ApprovalsService.Handle` and `RunSweep` about the methods. `Machine.Step` is one service call in
its transaction: committed, or rolled back but for the denial record, which has a session of its
own. `Machine.Run` is any sequence of calls under a clock that never goes back.

The central invariant (`Invariant.Inv`) ties four stores together: the balances, the append-only
ledger, the status of each payment and transfer, and the approval queue. `RunInvariant` proves it
for every reachable database; `Guarantees` draws what a reader wants from it. `Evaluations`,
`SpendBound`, `Holds`, `HeldRuns`, `Repricing`, `Sweep`, `Isolation`, `SameAnswers` and `Stability` are
the properties that span calls.

**Policy** (`PolicyEngine`): the ordered deny and hold rules, against an unordered reading of each
rule and an order of strictness on requests and policies.

**Idempotency** (`RestIdempotency`, `McpRuntime`): both machines over stored keys, with a ghost log
of handler executions that the theorems are about. `RestService` puts the REST one in front of the
money core.

**Arithmetic** (`Sandbox`, `Calendar`): money is an integer number of 10^-9 units, rates an integer
number of 10^-4; day and month windows are computed from the proleptic calendar.

**Schema comparison** (`SpecNorm`, `SpecLayout`, `SpecCycles`, `SpecDiff`, `SpecDocument`): the `$ref`-resolving
normaliser, which terminates on cyclic components; when the layout of references matters; the
structural comparison; and whole documents, up to "no drift is reported".

`Scenario` follows one payment from the empty database to the cancelling of its expired hold.

## Findings

- `scripts/spec_diff.py` promises that the layout of `$ref`s is normalised away. For documents that are
  direct (`SpecDocument.Direct`: no path item and no body is a reference, and no parameter or response
  refers to a reference) it is, as far as their schemas are laid out without the exceptions below
  (`SpecDocument.LayoutShowsNoDrift`). Otherwise a path item or a body given by reference is not read
  (`SpecDocument.PathReferenceDrifts`, `SpecDocument.BodyReferenceDrifts`), a response that refers to a
  reference is read as having no schema (`SpecDocument.ResponseChainDrifts`), and a parameter that does
  so makes the script fail; `SpecDocument.BodyReadIff` and `SpecDocument.ResponseReadIff` say exactly
  when a body or a response is read as what it stands for. In schemas:
  - a reference into a cycle is cut one round earlier than what it refers to (`SpecLayout.CycleMatters`):
    where no `allOf` is merged, exactly if resolving the component comes back to it and does not lead
    straight back to it (`SpecCycles.CycleAgreesIff`); an `allOf` may merge the difference away
    (`SpecCycles.MergedCycleHidden`);
  - a reference into a component is read as one to the component of the name it ends in
    (`SpecLayout.InsideMatters`);
  - a null type behind a reference is kept among alternatives, though dropped when written out
    (`SpecLayout.HiddenNullMatters`), and a reference beside `type: null` is dropped, whatever it refers
    to (`SpecLayout.NullBesideMatters`); `SpecLayout.AlternativesAgreeIff` is the exact condition for a
    list of alternatives in which not both occur; where both do they may cancel out
    (`SpecLayout.BothMayCancel`), and `SpecLayout.SelectionsAgreeIff` says exactly when;
  - an `additionalProperties` that refers to what is no schema object is kept, though left out when
    written so (`SpecLayout.SortMatters`); `SpecLayout.PlainAgreesIff` is the exact condition for a
    schema without combinators.
- The idempotency middleware promises to replay the original response. It stores no headers, so a
  replay carries the status always, the body if that is JSON or empty, and the whole response exactly
  if that has no headers of its own (`RestIdempotency.ReplayCarries`). The redirect the web framework
  answers for a trailing slash is replayed without its location (`RestIdempotency.RedirectLosesLocation`).
- An MCP call with an empty idempotency key is looked up under the empty key and stored under a
  generated one, so repeating it runs its body again: `McpRuntime.RunsOnceIff`.
- Pricing a whole-cent source forward and back is exact for every source exactly if the rate is 1 or
  more, and the mirror image holds for destinations: `Sandbox.SourceRoundTripIff`,
  `Sandbox.DestinationRoundTripIff`.

## Premises

- One service call is one atomic step with one clock reading; calls are serial.
- Dispatch answers `completed`, as the sandbox's does. `_execute` gives no status for anything else.
- A REST caller is authenticated before its key is looked at, each route makes one call, and every
  answer is a JSON document with the status its error or its route gives.
- Ids are fresh and increasing, so tables are sequences and a row's id is its position. Payments
  and transfers share one such sequence.
- Rows are values in their tables; the identity of row objects within a session is not modelled.
- The results of mutating MCP tools carry an `outcome`, as those of all six do (mcp/app.py); only
  what a repeated call is audited as depends on it.
- A `$ref` of a schema points into the schema components, at a component or at a property or the items
  below one; one of a parameter, response, body or path item names a component of that kind.
- SHA-256 over canonical JSON is injective. A generated MCP key is in nobody's store when it is
  made, and MCP keys are not reused over REST.
- A principal is what authentication returns: owner, credential, agent and scopes.
- Money is funded only to existing holders, under the owner they belong to.

## Model

| member | source | states |
|---|---|---|
| `Guarantees.BalancesAgree` | src/enos/services/ledger.py:3-7 | In every reachable database each holder's available is its net ledger credit less pending_out, pending_out is the sum of its pending actions, and neither is negative |
| `Guarantees.PostedExactlyOnce` | src/enos/services/payments.py:160-205 | A completed payment or transfer has exactly one journal under its id, from its source to its target; a pending or cancelled one has none; there is no other status |
| `Guarantees.NothingElsePosted` | src/enos/ledger/posting.py:55-69 | No entry stands under an id or type that is not an existing action's |
| `Guarantees.Conservation` | src/enos/services/ledger.py:97-110 | Per currency, what was funded is what all holders own plus what completed payments settled; every journal balances |
| `Guarantees.QueueMatches` | src/enos/services/approvals.py:50-79 | Pending approvals of money and pending actions name each other, one to one |
| `Guarantees.DecisionSucceedsIff` | src/enos/services/approvals.py:82-155 | Approve and reject succeed exactly for the owner's key on its pending, unexpired approvals; lack of funds or of a route never stops an approval |
| `Guarantees.CancelSucceedsIff` | src/enos/services/payments.py:270-284 | In every reachable database cancelling succeeds exactly with the scopes on a visible payment that is pending approval; it gives the amount back and posts nothing |
| `Guarantees.PendingAlwaysCancels` | src/enos/mcp/app.py:236 | A pending payment can always be cancelled; once its approval is past its expiry nobody can approve or reject it, until then its owner can do both |
| `Scenario.StalePaymentCancelled` | src/enos/services/approvals.py:50-54 | There is a reachable pending payment past its approval's expiry that its agent cancels while its owner's approval and rejection fail |
| `Guarantees.SweepSucceeds` | src/enos/services/approvals.py:181-210 | The sweep succeeds in every reachable database and any two orders of the stale rows end in the same one |
| `Guarantees.AgentTransfersHome` | src/enos/services/transfers.py:18-50 | An agent's own transfer can only go from its balance to its owner's treasury |
| `Evaluations.StepEvaluates` | src/enos/services/policy_gate.py:41-107 | An agent's payment, transfer or counterparty request that gets as far as its policy leaves exactly one record, of the engine's decision on the action under the agent's current usage and policy, and ends as that decision says; one that does not get so far neither succeeds nor is denied; nothing else leaves a record |
| `Evaluations.RunEvaluates` | src/enos/services/policy_gate.py:4-5 | A run adds exactly one record for each of its evaluations and loses none |
| `RunInvariant.StepInv` | src/enos/services/ledger.py:3-7 | Every service call keeps the invariant of the four stores, whether it succeeds, fails or is denied |
| `RunInvariant.RunInv` | src/enos/services/ledger.py:3-7 | Every run of service calls keeps the invariant of the four stores |
| `RunInvariant.ReachableInv` | src/enos/services/ledger.py:3-7 | Every database reachable from the empty one has the invariant |
| `SpendBound.UsageCoversDirect` | src/enos/services/usage.py:29-55 | The usage totals are at least what the agent's credential executed without a hold in the same day or month |
| `SpendBound.AllowFits` | src/enos/policy/engine.py:78-93 | An allowed monetary action fits within the daily, monthly and count limits together with the usage before it |
| `SpendBound.StepBounded` | src/enos/services/payments.py:116-157 | A call adds nothing to an agent's direct spend in a window, or leaves all of it within the policy's limits |
| `SpendBound.RunBounded` | src/enos/policy/engine.py:82-93 | A run over which the agent's policy version is the same at both ends adds nothing to its direct spend in a window or leaves all of it within the limits, whatever held, cancelled, approved or owner-made actions it interleaves |
| `SpendBound.WindowAheadBounded` | src/enos/services/usage.py:29-55 | For a day or month that lies ahead, everything the agent spends directly in it is within the limits |
| `Stability.FailedCall` | src/enos/db.py:30-38 | A failed call leaves the database as it was, but for one denial record exactly if the policy denied it |
| `Stability.StepExtends` | src/enos/services/approvals.py:50-54 | A call changes no posted entry, no decided approval, no finished action, no stored policy, and no money column of any action |
| `Stability.RunExtends` | src/enos/services/approvals.py:50-54 | Over any run an approval is decided at most once and a posted entry never changes |
| `Holds.ReserveThenExecute` | src/enos/services/ledger.py:124-166 | Reserving and executing from the reservation fails on the same inputs with the same error as executing directly, and ends in the same books |
| `Holds.ApproveHeld` | src/enos/services/approvals.py:82-118 | Approving a pending, unexpired hold cannot fail and executes exactly its row on its reservation |
| `Holds.HeldPaymentRefines` | src/enos/services/payments.py:129-152 | A payment held and then approved ends with the books, id and status of the owner making it directly, and the same destination unless its quote expired |
| `Holds.HeldTransferRefines` | src/enos/services/transfers.py:87-131 | A transfer held and then approved ends with the books, id and status of the owner making it directly |
| `Holds.ReleaseUndoesHold` | src/enos/services/ledger.py:124-136 | The release of a hold moves every balance back by what the hold moved it |
| `Holds.SweepLast` | src/enos/services/approvals.py:186-200 | A sweep that lists an approval ends as expiring all others it lists first and then that one |
| `Holds.HoldLeavesNoTrace` | src/enos/services/approvals.py:133-155 | Hold, any run, then reject, cancel or any sweep that lists the hold: balances differ only by the run's steps and the sweep's other expiries, no journal exists for the action, usage no longer counts it |
| `Holds.HeldCallLeavesNoTrace` | src/enos/services/payments.py:129-152 | The same chain from the service call on: an agent's payment or transfer request that is held, any run, then cancel, reject or sweep, leaves balances to the other steps and no journal |
| `HeldRuns.HeldCallRefines` | src/enos/services/approvals.py:82-118 | An agent's request that is held, any run during which it stays so, and its owner's approval: over the whole time every balance and account moves by what the run moved it and by what the owner's making the request at once would have; the action has exactly one journal and ends as it would have then, but for a destination repriced because its quote expired |
| `Sweep.ExpireAllEffect` | src/enos/services/approvals.py:188-200 | Expiring any pending approvals in any order succeeds, keeps the invariant, cancels exactly their actions, and only moves reservations back |
| `Sweep.SweepOnce` | src/enos/services/approvals.py:181-210 | The sweep expires exactly the stale approvals and a second one at the same time finds nothing |
| `Sweep.SweepOrderIrrelevant` | src/enos/services/approvals.py:186-200 | Two orders of the same approvals end in the same database, many holds on one balance included |
| `Sweep.SweepCount` | src/enos/services/approvals.py:210 | The returned count is the number of stale approvals |
| `Isolation.ReleasedOnly` | src/enos/services/approvals.py:57-79 | Releasing a hold, though looked up by id alone, touches only rows and balances of the approval's owner |
| `Isolation.StepOnly` | src/enos/services/ledger.py:56-60 | A request by one owner's principal changes no agent, policy, counterparty, quote, balance, holder entry, action or approval of another owner |
| `Isolation.SweepUnaffected` | src/enos/services/approvals.py:188-200 | A sweep that lists none of an owner's approvals changes nothing of that owner's |
| `Isolation.StepUnaffected` | src/enos/services/agents.py:12-20 | Another owner's request, money for another owner's holder, a new owner and a sweep of others' approvals change nothing of an owner's: agents, policies, counterparties, quotes, balances, holder entries, actions, approvals |
| `Isolation.RunUnaffected` | src/enos/services/agents.py:12-20 | Nor does any run of such steps |
| `SameAnswers.AnswersUnaffected` | src/enos/services/agents.py:12-20 | In every reachable database any request of an owner's is answered the same, error for error and up to the number of what it creates, and leaves the owner's holders with the same money, whether it is made at once or after any run that does not concern the owner |
| `BooksEffects.JournalEffect` | src/enos/ledger/posting.py:37-69 | Posting a two-entry journal succeeds exactly for positive amounts, moves the amount between its accounts on every line and keeps every other net |
| `BooksEffects.FundEffect` | src/enos/services/ledger.py:81-111 | Funding succeeds exactly for positive amounts, credits only that holder, and keeps the books' invariant |
| `BooksEffects.ShuffleKeeps` | src/enos/services/ledger.py:124-136 | Reserving and releasing move value between the two halves of one balance and keep the books' invariant |
| `BooksEffects.PayOutEffect` | src/enos/services/ledger.py:139-176 | A payout succeeds exactly for a positive amount that is reserved or available, debits only that holder, and keeps the books' invariant |
| `BooksEffects.TransferEffect` | src/enos/services/ledger.py:179-225 | An internal transfer succeeds exactly for a positive amount that is reserved or available at the source, moves it to the destination and nowhere else, and keeps the books' invariant |
| `Posting.PostableBalances` | src/enos/ledger/posting.py:37-53 | Accepted journals are exactly those with two or more entries, positive amounts, known directions and credits equal to debits in every currency |
| `Posting.CheckEntries` | src/enos/ledger/posting.py:37-53 | The running totals accept exactly those journals |
| `Posting.PostJournal` | src/enos/ledger/posting.py:29-69 | Appends one entry per spec under one new journal id, or fails and adds nothing |
| `LedgerService.GetOrCreateBalance` | src/enos/services/ledger.py:56-74 | Returns the holder's balance, opening an empty one in the owner's currency if there is none |
| `LedgerService.Fund` | src/enos/services/ledger.py:81-111 | Ends in the books of the specification, or fails with its error |
| `LedgerService.Reserve` | src/enos/services/ledger.py:124-129 | Ends in the books of the specification, or fails exactly if less than the amount is available |
| `LedgerService.ReleaseReservation` | src/enos/services/ledger.py:132-136 | Ends in the books of the specification; never fails |
| `LedgerService.Withdraw` | src/enos/services/ledger.py:162-167 | Takes the amount from the reservation unchecked, or from what is available if that suffices |
| `LedgerService.PayOut` | src/enos/services/ledger.py:139-176 | Ends in the books of the specification, or fails with its error |
| `LedgerService.InternalTransfer` | src/enos/services/ledger.py:179-225 | Ends in the books of the specification, or fails with its error |
| `PaymentsService.EvaluateAction` | src/enos/services/policy_gate.py:41-107 | Decides as the engine does on the current usage and policy, and records the evaluation where its outcome belongs |
| `PaymentsService.RaiseApproval` | src/enos/services/policy_gate.py:119-154 | Adds one pending approval that expires after the policy's hours, or 72 |
| `PaymentsService.TimelineAdd` | src/enos/services/payments.py:26-30 | Appends one entry to a payment's timeline and changes nothing else |
| `PaymentsService.ExecutePayment` | src/enos/services/payments.py:160-205 | Posts, dispatches and completes the payment as specified, or fails with the payout's error |
| `PaymentsService.ExecuteTransfer` | src/enos/services/transfers.py:117-131 | Moves the amount and completes the transfer as specified |
| `PaymentsService.ExecuteApproved` | src/enos/services/payments.py:208-226 | Reprices the destination exactly if the quote has expired, then executes on the reservation |
| `PaymentsService.ExecuteNew` | src/enos/services/payments.py:154-157 | Inserts a new action and executes it at once |
| `PaymentsService.HoldNew` | src/enos/services/payments.py:129-152 | Inserts a new action as pending, reserves its amount and raises its approval |
| `PaymentsService.CreatePayment` | src/enos/services/payments.py:79-157 | Checks in order, then executes, holds or denies as specified; a denial's record survives |
| `PaymentsService.CreateTransfer` | src/enos/services/transfers.py:26-114 | Checks in order, then executes, holds or denies the transfer as specified; a denial's record survives |
| `PaymentsService.CancelPayment` | src/enos/services/payments.py:270-306 | Releases the hold, cancels the payment and expires its approval as specified |
| `PaymentsModel.GetPayment` | src/enos/services/payments.py:229-237 | Finds only payments of the principal's owner, and for an agent only its own |
| `PolicyGateModel.GetAgent` | src/enos/services/agents.py:12-20 | Finds only agents of the principal's owner, and for an agent only itself |
| `PolicyGateModel.GetCounterparty` | src/enos/services/counterparties.py:75-85 | Finds only counterparties of the principal's owner |
| `ApprovalsModel.GetApproval` | src/enos/services/approvals.py:15-23 | Finds only approvals of the principal's owner, and for an agent only those it raised |
| `ApprovalsService.ReleaseHeldFunds` | src/enos/services/approvals.py:57-79 | Gives the held amount back to its source and cancels its action as specified |
| `ApprovalsService.Approve` | src/enos/services/approvals.py:82-130 | Carries the action out and records the decision and any repricing as specified, or fails with its error |
| `ApprovalsService.Reject` | src/enos/services/approvals.py:133-178 | Releases the hold, cancels or blocks, and records the decision as specified |
| `ApprovalsService.QueryStale` | src/enos/services/approvals.py:186-187 | Lists each pending approval past its expiry once, and no other |
| `ApprovalsService.ExpireOne` | src/enos/services/approvals.py:188-200 | Expires one approval as specified |
| `ApprovalsService.ExpireStale` | src/enos/services/approvals.py:181-210 | Expires all stale approvals, one after another, and returns how many there were |
| `ApprovalsService.Handle` | src/enos/db.py:30-38 | One money request in its transaction is exactly one step of the machine |
| `ApprovalsService.RunSweep` | src/enos/services/approvals.py:181-210 | The periodic sweep in its transaction is exactly one step of the machine |
| `Models.Session.Rollback` | src/enos/db.py:36-38 | Restores every table but the separately committed denials |
| `StepInvariant.CarriedOutExecutes` | src/enos/services/approvals.py:89-107 | Carrying a held action out executes its own row, repriced at most in its destination, on its reservation |
| `PolicyEngine.EvaluateFirstHit` | src/enos/policy/engine.py:26-118 | The decision is the first deny rule that applies, else the first hold rule, else allow, with each rule read on its own |
| `PolicyEngine.EvaluateIsMonotone` | src/enos/policy/engine.py:26-118 | A larger amount, usage or count, or a stricter policy, never makes the outcome milder |
| `PolicyEngine.DenyIsCategorical` | src/enos/policy/engine.py:27-75 | Whether and why an action is denied does not depend on amount, usage, count or border |
| `Calendar.WindowStart` | src/enos/services/usage.py:21-26 | At every instant of a UTC day or month the usage query starts exactly at its beginning |
| `Sandbox.Rate` | src/enos/providers/sandbox.py:72-78 | Rates are positive, and 1 within a currency |
| `Sandbox.RoundDiv` | src/enos/providers/sandbox.py:92 | Half-up rounding: nearest, ties away from zero |
| `Sandbox.SourceRoundTrip` | src/enos/providers/sandbox.py:90-96 | At a rate of 1 or more a whole-cent source survives pricing forward and back |
| `Sandbox.DestinationRoundTrip` | src/enos/providers/sandbox.py:90-96 | At a rate of 1 or less a whole-cent destination survives pricing back and forward |
| `Sandbox.SourceRoundTripIff` | src/enos/providers/sandbox.py:90-96 | Every whole-cent source survives exactly if the rate is 1 or more |
| `Sandbox.DestinationRoundTripIff` | src/enos/providers/sandbox.py:90-96 | Every whole-cent destination survives exactly if the rate is 1 or less |
| `Sandbox.SourceRoundTripFailsBelowOne` | src/enos/providers/sandbox.py:22 | 19 US cents priced to euros come back as 18 |
| `Sandbox.RepriceDrift` | src/enos/providers/sandbox.py:90-96 | Pricing a destination back and forward moves it by at most half a cent times one plus the rate |
| `Repricing.RunPriced` | src/enos/services/payments.py:53-64 | Over any run every quote was priced from one of its ends and every pending payment has its quote's terms |
| `Repricing.ApprovalReprices` | src/enos/services/payments.py:208-226 | In every reachable database approving a payment made from a quote never changes its source amount, leaves its destination alone if the quote is good or source-priced, and otherwise moves it by at most half a cent times one plus the rate |
| `Sandbox.Dispatch` | src/enos/providers/sandbox.py:110-114 | Every dispatch is completed at once |
| `RestIdempotency.IdempotencyMiddleware.Call` | src/enos/api/middleware.py:106-209 | Serves one request as specified: passed through, refused, replayed, in conflict, or handled and recorded |
| `RestIdempotency.RunInv` | src/enos/api/middleware.py:138-209 | Over any serial run each recorded execution is the stored one or older than it by more than the window |
| `RestIdempotency.RecordedApart` | src/enos/api/middleware.py:138-153 | Two recorded executions under one credential and key are more than 24 hours apart |
| `RestIdempotency.WithinWindow` | src/enos/api/middleware.py:155-165 | Until 24 hours after a recorded execution its key runs no handler: the same hash is replayed, any other gets 409 |
| `RestIdempotency.ReplayCarries` | src/enos/api/middleware.py:155-165 | In any serial run a replay inside the window carries the recorded status, the body exactly if it was JSON or empty, and the whole response, but for the replay's mark, exactly if it had no headers of its own |
| `RestIdempotency.RedirectLosesLocation` | src/enos/api/middleware.py:212-223 | A recorded redirect is replayed without its location |
| `RestService.RunsCalls` | src/enos/api/app.py:97-100 | In any run of the REST surface and the calls beside it the database is one the money core reaches on its own |
| `RestService.RunsArrivals` | src/enos/api/app.py:97-100 | In any such run the stored keys are those the idempotency middleware stores on its own |
| `RestService.RepeatChangesNothing` | src/enos/api/middleware.py:96-101 | After a call that changed the database, until the window has passed a request under its key changes neither the database nor the stored keys: the same request gets what was sent, marked as a replay, any other gets 409 |
| `RestService.OrderedOnce` | src/enos/api/middleware.py:96-101 | However often the key of a payment or transfer request is used until the window has passed, and whatever else happens, the calls under the key create one action and post its journal if it was executed, nothing if it is held |
| `RestService.OrderPostedOnce` | src/enos/services/payments.py:160-205 | That action is there at the end of any such run, with exactly one journal if it is completed by then and none if not |
| `McpRuntime.ToolRuntime.Call` | src/enos/mcp/runtime.py:75-144 | Serves one tool call as specified, on every path |
| `McpRuntime.ToolRuntime.WriteAudit` | src/enos/mcp/runtime.py:47-72 | Adds one row for a call that could be attributed, none otherwise |
| `McpRuntime.ToolRuntime.IdempotencyCheck` | src/enos/mcp/runtime.py:155-174 | Finds a stored result by credential and key, and a conflict if its arguments differ |
| `McpRuntime.OneAuditPerCall` | src/enos/mcp/runtime.py:136-144 | An authenticated call leaves exactly one audit row of its own on every path, any other call nothing |
| `McpRuntime.RunAudits` | src/enos/mcp/runtime.py:75-144 | The audit table of any run lists exactly its authenticated calls, one row each, in order |
| `McpRuntime.RunStores` | src/enos/mcp/runtime.py:106-134 | Over any run each key is stored by at most one execution, and holds what that one stored |
| `McpRuntime.StoredCallReplays` | src/enos/mcp/runtime.py:106-112 | Once a result is stored under a key no later call with it runs a body: the same arguments get the result with its own request_id, others a conflict |
| `McpRuntime.RunsOnceIff` | src/enos/mcp/runtime.py:87-134 | Repeating a call that stored its result runs no body again exactly if its key is not empty |
| `McpRuntime.RunCarriesOutcomes` | src/enos/mcp/runtime.py:120-134 | If the mutating tools' results carry an outcome, every stored result of any run does |
| `McpRuntime.RepeatsAudited` | src/enos/mcp/runtime.py:106-112 | After any such run a call whose key has a result is audited as a replay exactly for the same arguments and as a conflict exactly for others, and no other call is audited as either |
| `Paging.DescendingLists` | src/enos/services/payments.py:252-265 | A query lists exactly the matching ids below its cursor, each once, newest first |
| `Paging.AfterPage` | src/enos/services/payments.py:263-267 | What follows a page is what a query from its last id finds |
| `Paging.PagingIsComplete` | src/enos/services/payments.py:240-267 | With any limit of at least 1 paging ends and visits every row that matched at first exactly once, newest first, undisturbed by newer rows |
| `Paging.AnyWalk` | src/enos/services/payments.py:240-267 | However rows change between requests, paging descends strictly, ends within as many requests as there are rows, and then has visited every row that matched all along |
| `SpecLayout.InlineComplete` | scripts/spec_diff.py:34-38 | Inlining references without cycles to their depth leaves none where the normaliser looks |
| `SpecLayout.LayoutUnder` | scripts/spec_diff.py:30-95 | Normalising a schema whose references name whole components and have no cycle, and whose alternatives are null types exactly if what they resolve to is, equals normalising it with its references inlined, at whatever point of a resolution |
| `SpecLayout.LayoutIrrelevant` | scripts/spec_diff.py:7-9 | Two such schemas in two documents that say the same once inlined normalise to the same value |
| `SpecLayout.AlternativesAgreeIff` | scripts/spec_diff.py:60-65 | A list of alternatives normalises as it does inlined exactly if inlining uncovers and covers no null type among them, or in one degenerate case |
| `SpecLayout.SelectionsAgreeIff` | scripts/spec_diff.py:60-65 | Any list of alternatives normalises as it does inlined exactly if the values that the alternatives as written select are those they select inlined, or one selection is the choice among the other |
| `SpecLayout.HiddenNullMatters` | scripts/spec_diff.py:62 | A null type behind a reference is kept among alternatives and dropped when inlined |
| `SpecLayout.NullBesideMatters` | scripts/spec_diff.py:62 | A reference beside a null type is dropped and kept when inlined |
| `SpecLayout.BothMayCancel` | scripts/spec_diff.py:62-65 | Where both occur the two layouts may yet normalise alike |
| `SpecLayout.PlainAgreesIff` | scripts/spec_diff.py:67-95 | A schema without combinators whose parts' layout does not matter normalises as it does inlined exactly if inlining leaves `additionalProperties` a schema object or none |
| `SpecLayout.ValuelessIff` | scripts/spec_diff.py:30-38 | A schema normalises to `None` exactly if references and single alternatives end at no schema object |
| `SpecLayout.InsideMatters` | scripts/spec_diff.py:35 | A reference into a component is read as one to the component of the name it ends in |
| `SpecLayout.SortMatters` | scripts/spec_diff.py:91-94 | An `additionalProperties` that refers to no schema object is kept and left out when inlined |
| `SpecLayout.CycleMatters` | scripts/spec_diff.py:34-38 | A reference into a cycle and what it refers to normalise differently |
| `SpecCycles.CycleAgrees` | scripts/spec_diff.py:34-38 | A reference to a component normalises as the component does if resolving the component does not come back to it, or does nothing but that |
| `SpecCycles.CycleAgreesIff` | scripts/spec_diff.py:34-38 | Where no `allOf` is merged, it does so exactly then |
| `SpecCycles.MergedCycleHidden` | scripts/spec_diff.py:40-58 | Below an `allOf` a component may come back to itself and the two agree all the same |
| `SpecDiff.DiffValues` | scripts/spec_diff.py:152-162 | Appends exactly the report on two values to the findings |
| `SpecDiff.DiffKeys` | scripts/spec_diff.py:153-160 | The loop over the sorted keys of two dictionaries appends exactly the report on them |
| `SpecDiff.ReportExact` | scripts/spec_diff.py:152-162 | A finding is in the report exactly if it is a difference at its path: a key one dictionary lacks, or two unequal values not both dictionaries |
| `SpecDiff.SilentIff` | scripts/spec_diff.py:152-162 | Nothing is reported exactly if the values are equal at every depth |
| `SpecDiff.ReportInOrder` | scripts/spec_diff.py:154 | Findings come sorted by location and none is repeated |
| `SpecDocument.Normaliser.FileParameters` | scripts/spec_diff.py:99-106 | Files each parameter's required flag by place and name, later ones over earlier, references followed one step, or fails on one that finds no parameter there |
| `SpecDocument.Normaliser.NormaliseOperation` | scripts/spec_diff.py:98-129 | Brings an operation to the specified value, or fails on a parameter reference that finds no parameter in one step |
| `SpecDocument.Normaliser.NormaliseDocument` | scripts/spec_diff.py:136-149 | Sets the globals to the document's components and brings each of its operations, by method and path, to its value |
| `SpecDocument.Compare` | scripts/spec_diff.py:165-184 | Reports the drift between two documents, then the missing security entries |
| `SpecDocument.NoDriftIff` | scripts/spec_diff.py:165-184 | No drift is reported exactly if the documents have the same operations, alike in id, parameters, required flags, response codes and normalised schemas, and the generated one asks for bearer authentication |
| `SpecDocument.LookedIff` | scripts/spec_diff.py:101-103 | Following a reference one step finds what it stands for exactly if it is no reference to a reference, or stands for nothing |
| `SpecDocument.ResponseReadIff` | scripts/spec_diff.py:117-122 | A response is read as the schema it stands for exactly if it is no reference to a reference, or no schema object is found anyway |
| `SpecDocument.BodyReadIff` | scripts/spec_diff.py:108-115 | A body is read as what it stands for exactly if it is no reference, or that is optional and has no schema object |
| `SpecDocument.LayoutShowsNoDrift` | scripts/spec_diff.py:7-9 | Direct documents whose operations stand for the same once every reference is followed to its end, and whose schemas have none of the excepted layouts, show no drift |
| `SpecDocument.ResponseChainDrifts` | scripts/spec_diff.py:119-121 | A response given by a reference to a reference drifts from the same given by one reference |
| `SpecDocument.BodyReferenceDrifts` | scripts/spec_diff.py:108-115 | A body given by reference drifts from the same body written out |
| `SpecDocument.PathReferenceDrifts` | scripts/spec_diff.py:142-148 | A path item given by reference drifts from the same written out |

## Left out

- LedgerService.PayOut: on an error promises the error only, as do InternalTransfer and the request methods of PaymentsService and ApprovalsService; `ApprovalsService.Handle` states what the rollback makes of it.
- ApprovalsService.Handle: serves the five money requests; onboarding, funding, agents, policies, counterparties, quotes and reading balances are steps of the machine as functions, without methods of their own.
- ApprovalsService.RunSweep: states the order of the rows as a ghost result, since the query promises none.
- RestIdempotency.IdempotencyMiddleware.Call: one request at a time, handler included; a handler that raises is not distinguished from one that answers 500, and whether a body is JSON is given rather than parsed.
- RestService.OrderedOnce: calls come one after another; what an operation's answer says is a given text, and MCP calls, the sweep, onboarding and funding are calls beside the middleware.
- SameAnswers.AnswersUnaffected: compares each request with the same one made before the foreign run; a sequence of requests gets other ids from the first row it creates on, and a policy may allow a counterparty by an id that is not given yet, so two whole sequences need not be answered alike.
- McpRuntime.ToolRuntime.Call: the body of a tool is its outcome; what it does to the database is the money core's part.
- SpecDiff.DiffValues: a finding carries the path of keys and the two values, not the rendered line.
- SpecLayout.LayoutUnder: references name whole components without cycles, alternatives that are null types resolve to null types and others to others, and an `additionalProperties` that is a schema object resolves to one; the exceptions are lemmas of their own.
- SpecDocument.Compare: a parameter's place and name are one string, an order-preserving one, where the script has a pair; the rendered lines for whole operations are those of missing and extra keys.
- Concurrent interleavings of transactions: lookups take no row locks, and only serial steps are modelled.
- Dispatch results other than `completed`: no adapter in the repository produces them.
- Malformed schemas, on which the normaliser raises.
- Amounts beyond nine decimals and the 28-digit context of Python's Decimal: arithmetic is on exact integers.
- Ledger accounts as rows: an account is its holder and currency.
- Approval summaries, notes, timeline texts, fees on quotes beyond their amount, and activity events other than policy evaluations: no decision reads them.
- Cards, virtual accounts, webhooks, credential issuance, serialisation and request schemas: field copies and single-field updates.
- HTTP routing, body buffering, the job scheduler, migrations and MCP transport: plumbing.
- Card authorisations: the engine's rules for them are modelled, no service raises them here.
