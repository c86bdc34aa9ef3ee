# Verified model of the gateway's money, dispatch and health logic

The repository is an LLM gateway. A request is authenticated, its worst-case completion cost is reserved
against quota balances and calendar budgets, it is sent to upstream providers with failover, and the
reservation is settled at the exact cost. This project models that path and proves what it promises.

* **Ledger** (`Tables`, `Transactions`, `Store`). Each SQL transaction is one atomic step from tables to
  tables; `Transactions.Run` is any interleaving of steps by any clients, with free clocks, directories and
  crashes (a crash is a step that never comes). `Store.Repo` is the same code in imperative form, each method
  proved equal to its step. `Admission` and `Coverage` say exactly when a reservation is
  admitted and what it changes, `Handlers` what every other transaction answers and writes. Over every run:
  `Conservation` (money), `Lifecycle` (status machine), `ExactlyOnce`, `SpendBound`, `Alerts`, `Draws`,
  `Policies`, `Outcomes` (path independence, how a request's money ends), `Detour` (path independence across
  other transactions), `Recovery` (the retry loop drains), `History` (append-only tables).
* **Dispatch and billing** (`Dispatch`, `Failover`, `Billing`, `Prepare`, `Gateway`). The failover loop against an
  arbitrary outside world, the price snapshot, the estimate, the settlement classification, and one whole
  request from reservation to the deferred finalizer, among any other transactions.
* **Arithmetic** (`Cost`, `Calendar`, `Scope`). Int64 against big-integer cost, calendar periods across zone
  gaps and folds, the percent-encoded scope codec.
* **Selection and health** (`Selection`, `Routing`, `Breaker`, `Auth`, `Normalize`), and billing without the
  accounting coordinator (`QuotaStore`, `LegacyBilling`).

Four promises turn out to be false of the code; each has a concrete input and the exact condition.

* A period need not contain the instant it was computed for: when a fold takes the local date back across the
  start of a period (from 00:01 to 23:01), the repeated hour lies outside the period it is dated in
  (`Calendar.FoldLeavesItsPeriod`, with a day, a week and a month in `Calendar.FoldsThatLeaveTheirPeriod`);
  containment holds if and only if the local period never runs backwards (`Calendar.ContainmentExact`).
* The breaker view is keyed by "provider/endpoint", so names with slashes can collide, and after a real history
  of marks the view shows a healthy endpoint as open (`Breaker.SlashesClash`); the view tells every endpoint's
  health after every history and in every map order if and only if no two endpoints render alike
  (`Breaker.ViewAgreesExact`), which slash-free provider names guarantee.
* The comment beside `estimate` says it is never 0 when a rate exists; a small rate rounds to 0
  (`Billing.SmallRateReservesNothing`), exactly when the product is below half a unit
  (`Billing.ZeroEstimateExact`).
* Without the accounting coordinator a request is meant to cost exactly its actual charge, but a negative
  `max_tokens`, or one whose product with the rate overflows, makes the estimate -1, which is let through
  undebited and then settled as if it had been debited (`LegacyBilling.NegativeTokensOvercharge`,
  `LegacyBilling.OverflowingTokensOvercharge`): the charge is exact if and only if the token count is not
  negative, the product fits, and the difference to settle fits in 64 bits (`LegacyBilling.ChargeIsExact`).

## Model

| member | source | states |
|---|---|---|
| `Store.Repo.Reserve` | internal/store/accounting.go:58-209 | the whole new tables and reply are those of the atomic reservation step; an error leaves every table as it was |
| `Store.RunDebitScopes` | internal/store/accounting.go:142-166 | the quota loop debits each configured scope or aborts on currency or insufficient balance |
| `Store.RunDebitBudgets` | internal/store/accounting.go:181-206 | the policy loop opens the period's account and reserves on every covering policy in id order, or aborts |
| `Store.ScopesAreSorted` | internal/store/accounting.go:126-141 | the scopes are a strictly ascending permutation of those appended, so the lock order is total and no scope repeats |
| `Store.Repo.MarkDispatched` | internal/store/accounting.go:211-230 | marks a reserved row without result; idempotent; refuses anything else; no other row changes |
| `Store.Repo.RecordResult` | internal/store/accounting.go:250-277 | phase one of Finish: makes the result durable, accepts an equal one, refuses a different or late one |
| `Store.Repo.ApplyPending` | internal/store/accounting.go:294-326 | phase two of Finish: applies the durable result once |
| `Store.Repo.Finish` | internal/store/accounting.go:239-279 | an uncertain outcome marks the row; any other is recorded, then applied; exact tables and reply for every input |
| `Store.RunApplyItems` | internal/store/accounting.go:331-362 | the item loop settles every item of the reservation against its quota or account, or aborts |
| `Store.RunApplyReservation` | internal/store/accounting.go:331-386 | items, usage row, risk event and reservation row change together or not at all |
| `Store.RunEmit` | internal/store/accounting.go:396-409 | adds the threshold and overspend events the account now crosses and does not have |
| `Store.Repo.MarkUnknown` | internal/store/accounting.go:411-442 | moves an open row without result to unknown with one event; idempotent; refuses others |
| `Store.Repo.MarkStale` | internal/store/accounting.go:446-488 | marks the stale rows among those selected as one step and counts them; all or nothing |
| `Recovery.StaleMarksExactly` | internal/store/accounting.go:446-488 | exactly the listed rows that are reserved or dispatched, without result and last written before the cutoff become unknown; no other row changes |
| `Recovery.StaleFails` | internal/store/accounting.go:466-471 | it fails only when the tenant of a listed row is gone |
| `Recovery.StaleCountIs` | internal/store/accounting.go:476-487 | the count returned is how many rows were moved, however often each was listed |
| `Store.Repo.RetryPending` | internal/store/accounting.go:490-508 | replays each pending result of the batch in its own transaction and reports exactly the failures |
| `Recovery.RetryDrains` | internal/store/accounting.go:490-508 | a batch with every pending result leaves each final or reported as a range violation, and nothing else pending |
| `Store.Batch` | internal/store/accounting.go:490-500 | a batch is a prefix of the pending ids, of the clamped limit or all of them; 100 by default |
| `Store.Repo.Resolve` | internal/store/budget.go:328-374 | the version-checked operator resolution: exact tables and reply |
| `Store.Repo.Patch` | internal/store/budget.go:216-261 | the version-checked policy change: exact tables and reply |
| `Store.Repo.Create` | internal/store/budget.go:137-160 | validates, normalizes and appends a policy, or refuses |
| `Store.Repo.TopUp` | internal/store/quota.go:73-97 | currency-checked increment, creating the row when absent |
| `Handlers.SettlementWrites` | internal/store/accounting.go:363-386 | every field of the settled row, the usage row, and the risk event: present iff an earlier attempt was at risk, and otherwise only thresholds and overspends |
| `Handlers.ItemIs` | internal/store/accounting.go:336-362 | for one item: which error, or the exact balance, counters and item after it |
| `Handlers.SettlementGoesThrough` | internal/store/accounting.go:331-386 | in every reachable state a settlement goes through iff what each of its items draws on stays in its column range |
| `Handlers.UnknownIs` | internal/store/accounting.go:411-442 | for every row: unknown with its reason and one event per reservation, unchanged, or which error |
| `Handlers.RecordIs` | internal/store/accounting.go:252-274 | for every row and result: stored, accepted as equal, or which error |
| `Handlers.FinishIs` | internal/store/accounting.go:232-279 | exactly which settlements are malformed, and the composition of the phases otherwise |
| `Handlers.ResolveIs` | internal/store/budget.go:328-374 | exactly which resolutions are malformed, not found or in conflict, and else the settlement, status and event of each action |
| `Handlers.PatchIs` | internal/store/budget.go:216-261 | exactly which patches are refused and why, and else every field that changes |
| `Handlers.CreateIs` | internal/store/budget.go:62-160 | exactly which policies are refused and why, and else every field of the stored one: zone named, currency lowered, thresholds sorted |
| `Handlers.TopUpIs` | internal/store/quota.go:73-97 | exactly which top-ups are refused and why, and else the new balance and currency |
| `Conservation.NextConserves` | internal/store/accounting.go:142-206 | every transaction keeps each account equal to its items' sums and moves a scope's claim only by a top-up |
| `Conservation.RunConserves` | internal/store/accounting.go:331-362 | over every run, account counters are item sums and balance plus held plus spent is total credit |
| `Conservation.MarkStaleMovesNoMoney` | internal/store/accounting.go:444-488 | marking stale rows never refunds: quotas, accounts and items are untouched |
| `Admission.DebitScopesExact` | internal/store/accounting.go:142-166 | the quota loop commits iff every scope allows the request as the tables stood, and then takes exactly the estimate from each |
| `Admission.DebitBudgetsExact` | internal/store/accounting.go:181-206 | the policy loop commits iff every covering policy allows the request as the tables stood |
| `Admission.ReserveExact` | internal/store/accounting.go:58-209 | a new reservation is admitted iff it is entitled and every configured scope and covering budget has the currency and the funds |
| `Coverage.AdmittedIff` | internal/store/accounting.go:58-209 | from the request and the tables alone: admitted iff well named, owned, every configured scope funded in its currency, and every budget that applies (by tenant, group, application, application and environment, or key) funded or soft |
| `Coverage.OtherBudgetsHaveNoSay` | internal/store/accounting.go:172-178 | replacing a budget that does not apply by another that does not leaves every admission as it was |
| `Coverage.ItemsAre` | internal/store/accounting.go:126-206 | the new items are exactly one on each configured scope of the request and on the current account of each budget that applies, holding the estimate |
| `Coverage.AccountsAre` | internal/store/accounting.go:185-202 | those accounts have the estimate reserved, opened at the policy's limit where needed; all others are as they were |
| `Coverage.RowAndQuotasAre` | internal/store/accounting.go:59-98 | the new row's every field, the scopes that lose the estimate, and that nothing else changes |
| `Coverage.RefusedBecause` | internal/store/accounting.go:58-209 | which error a refused request gets: malformed, unknown tenant, not owned, else the scope or budget that stands in the way and why |
| `Coverage.RepeatIs` | internal/store/accounting.go:81-98 | a request under a taken id: accepted unchanged for the same tenant and request, else which error |
| `Draws.ReserveDrawsOnAll` | internal/store/accounting.go:126-206 | a new reservation holds its estimate on every configured scope and every covering budget, and on nothing else |
| `Draws.TargetsDistinct` | internal/store/accounting.go:126-206 | no reservation draws twice on one scope or account |
| `Draws.RunUniqueDraws` | internal/store/accounting.go:163-203 | the item uniqueness constraints hold in every run |
| `History.RepeatedReserve` | internal/store/accounting.go:89-98 | reserving an existing id changes nothing, and is refused for another identity |
| `ExactlyOnce.ReserveIsIdempotent` | internal/store/accounting.go:81-98 | a reservation that succeeded succeeds again after any run, drawing nothing more |
| `History.RunExtends` | internal/store/accounting.go:331-386 | no run removes a row, alters an identity or an item's origin, or rewrites events and usage |
| `Lifecycle.NextKeepsInv` | internal/store/accounting.go:211-488 | every transaction keeps what each status means for the row, its items and its usage rows |
| `Lifecycle.RunKeepsInv` | internal/store/accounting.go:211-488 | in every run: final means result present and applied; full funds are held exactly in reserved, dispatched and unknown; usage rows are exactly the applied receipts |
| `ExactlyOnce.NextOrders` | internal/store/accounting.go:211-230 | a transaction leaves a reservation's row, items and usage alone or raises its version |
| `ExactlyOnce.NextStatus` | internal/store/accounting.go:211-488 | every transaction moves a row along the status machine or leaves its status |
| `ExactlyOnce.RunOrders` | internal/store/accounting.go:239-326 | the same over whole runs, and a durable result is never replaced |
| `ExactlyOnce.AppliedIsFinal` | internal/store/accounting.go:363-386 | settled and released are absorbing over every later run |
| `ExactlyOnce.DurableResultStands` | internal/store/accounting.go:260-273 | a durable result is the only one ever: equal ones are accepted, others conflict, dispatch and operators are blocked |
| `ExactlyOnce.FinishIsRun` | internal/store/accounting.go:239-279 | a Finish call is a run of transactions |
| `ExactlyOnce.FinishHappensOnce` | internal/store/accounting.go:310-315 | after application any Finish, equal or not, changes nothing, and an equal one succeeds |
| `ExactlyOnce.RepeatedFinish` | internal/billing/plugin.go:132-184 | two Finish calls with one result, anything in between: no conflict, and the second at most replays a missing application |
| `ExactlyOnce.StaleResolveRefused` | internal/store/budget.go:343-351 | an operator who read the row before it changed is refused |
| `SpendBound.CommittedNeverDecreases` | internal/store/accounting.go:347-354 | what an account committed is never taken back |
| `SpendBound.RunBound` | internal/store/accounting.go:181-206 | net draws on an enforcing account stay within the highest limit it had |
| `SpendBound.SpendWithinLimit` | internal/store/accounting.go:181-206 | reserved plus committed exceeds that limit by no more than the items overshot their reservations |
| `Alerts.EmitAlerts` | internal/store/accounting.go:396-409 | after emission the account has an event for every threshold it crosses and for its overspend |
| `Alerts.EmitIsSound` | internal/store/accounting.go:396-409 | every event added names a policy threshold or limit the account stands across, with the committed or exceeding amount |
| `Alerts.RunAlerts` | internal/store/budget.go:234-255 | in every reachable state, limit patches included, committed > 0 and 100 x committed >= limit x t has its event for every threshold t, and committed > limit has its overspend |
| `Alerts.RunUnique` | internal/store/accounting.go:401-408 | each threshold and overspend is reported at most once in any run |
| `Policies.PatchTouchesOnePeriod` | internal/store/budget.go:234-255 | a patch moves no money, changes only the policy's limit, switch and version, and of all accounts at most the limit of the current one |
| `Policies.RunWellFormed` | internal/store/budget.go:62-94 | over every run policies stay valid, accounts are non-empty periods in their policy's currency, and no reservation draws on another currency |
| `Outcomes.ResolveSettles` | internal/store/budget.go:349-364 | a resolution settles the items at the given charge, at zero when it releases |
| `Outcomes.FinishSettles` | internal/store/accounting.go:239-279 | both phases of Finish settle the items at the result's charge |
| `Outcomes.PathIndependence` | internal/store/accounting.go:328-362 | releasing at risk and charging later leaves the balances of charging at once, released counter apart |
| `Outcomes.LateChargeMatchesDirect` | internal/store/budget.go:349-364 | the same for the actual transactions, the late charge coming from an operator or from Finish right after the release |
| `Detour.RunTwins` | internal/store/accounting.go:328-362 | a run after a direct settlement and the same run after a risk release differ only in that reservation, as long as each step is decided alike |
| `Detour.DetourMatchesDirect` | internal/store/budget.go:349-364 | with any such run in between, the late charge still comes to the funds of settling directly |
| `Detour.DivergentDecisionSplitsFunds` | internal/store/budget.go:349-364 | a reservation admitted only after the release makes the funds differ |
| `Outcomes.PendingResultApplies` | internal/store/accounting.go:294-326 | in every reachable state a pending result applies, short of a 64-bit column overflow |
| `Outcomes.FinishEndsRequest` | internal/store/accounting.go:239-386 | how a request's money ends for each outcome: parked with all items held, pending untouched on overflow, or settled with exactly its usage row |
| `Dispatch.FilterUpstreams` | internal/proxy/dispatcher.go:316-329 | keeps exactly the upstreams the route can reach, in order |
| `Dispatch.AccountingSnapshot` | internal/proxy/dispatcher.go:299-332 | builds the filtered configuration |
| `Dispatch.SnapshotPreservesPrices` | internal/proxy/dispatcher.go:299-332 | the snapshot resolves a provider as the full configuration does if it is reachable, and not at all otherwise |
| `Dispatch.ResolveInSnapshot` | internal/config/model.go:7-19 | filtering commutes with resolution on any model list |
| `Dispatch.Forward` | internal/proxy/dispatcher.go:192-243 | flags, breaker marks and result are those of the course of calls, for any replies and marker failures |
| `Dispatch.MismatchCount` | internal/proxy/dispatcher.go:430-438 | the mismatch counter reaches the number of candidates exactly when none of them serves the model |
| `Dispatch.CourseShape` | internal/proxy/dispatcher.go:202-242 | calls go to eligible candidates in order; all but the last ended in a server error or a timeout |
| `Failover.CourseFailsOver` | internal/proxy/dispatcher.go:202-242 | exactly the callable candidates before the stopping point are called; a server error or timeout is passed over and nothing else is; the loop stops after the first other reply, at a failed dispatch marker or at the end |
| `Failover.MarksAre` | internal/proxy/dispatcher.go:224-239 | the breaker hears a failure for every server error and timeout, a success for a success, and nothing else, in order |
| `Failover.ResultIs` | internal/proxy/dispatcher.go:192-243 | the reported endpoint, model, usage, position and failure for every way the loop can end |
| `Failover.ResolveIsFirst` | internal/config/model.go:7-19 | resolution finds the first upstream in configuration order, and nothing only when there is none |
| `Failover.KeyIs` | internal/proxy/preparer.go:36-50 | the endpoint and id a provider is called on, by protocol, order and defaults |
| `Dispatch.AttemptsArePriced` | internal/proxy/dispatcher.go:179-243 | every provider the loop can call resolves in the snapshot to the same upstream and price as in the full configuration |
| `Billing.Estimate` | internal/billing/plugin.go:256-283 | the int64 computation equals the exact rounded product, or -1 exactly when that is negative or not representable |
| `Billing.EstimateFromFields` | internal/billing/plugin.go:256-283 | from the fields alone: client limit, else largest default, else ceiling, at the highest rate, rounded half up; -1 for a negative count or a product beyond 64 bits |
| `Billing.GuardIsExact` | internal/billing/plugin.go:278-281 | the division guard refuses exactly the products that overflow |
| `Billing.EstimateCovers` | internal/billing/plugin.go:248-283 | any completion within the effective maximum costs at most the estimate at any resolvable provider |
| `Billing.AcceptedEstimateIsExact` | internal/billing/plugin.go:278-283 | an accepted estimate fits in 64 bits and is within half a unit of the product |
| `Billing.ZeroEstimateExact` | internal/billing/plugin.go:248-283 | the estimate is zero exactly when the product rounds to zero |
| `Billing.SmallRateReservesNothing` | internal/billing/plugin.go:248-283 | a positive rate whose estimate is zero |
| `Billing.CheckPrices` | internal/billing/plugin_accounting.go:29-52 | the checking loop computes the model's one currency, if it has one |
| `Billing.ChecksAre` | internal/billing/plugin_accounting.go:29-52 | exactly the catalogues that pass, from the fields of the first model of the alias |
| `Billing.ResolvedPriceIsSound` | internal/billing/plugin_accounting.go:41-52 | in any catalogue with the alias once, what was checked before reserving is what settlement charges: sound price, reservation's currency |
| `Billing.ReachablePriceIsSound` | internal/proxy/dispatcher.go:299-332 | at the snapshot the plugin uses: every reachable provider's configured price is sound and in the reservation's currency |
| `Billing.Reserve` | internal/billing/plugin_accounting.go:17-80 | estimate, checks, reservation step, id, finalizer and dispatch hooks, and reject status (402 only for insufficient funds) for every input |
| `Billing.Settle` | internal/billing/plugin.go:132-184 | sends the settlement due, once; whatever it writes, the settlement due stays equal, so the deferred finalizer repeats it |
| `Billing.SettlementIsValid` | internal/store/accounting.go:232-237 | every settlement the plugin sends is well formed |
| `Billing.CourseFlags` | internal/proxy/dispatcher.go:343-366 | the three accounting flags of any course, from its last call |
| `Billing.Classification` | internal/billing/plugin.go:138-235 | released iff every call was a build failure or a readable 4xx; known iff the last call succeeded with chargeable usage; unknown otherwise; risk iff known after earlier calls; the exact charge and every field of the usage row |
| `Billing.HitIsCovered` | internal/billing/plugin.go:248-296 | whichever provider answers, its completion charge is covered by the estimate made on the snapshot |
| `Gateway.Serve` | internal/proxy/router.go:525-577 | the strategy order, health filter, failover and breaker marks of one request lead to the settlement its calls stand for |
| `Gateway.Handle` | internal/proxy/router.go:485-577 | a whole request among any other transactions: rejected untouched, or ended as its calls dictate with at most one usage row; a charged or released reservation never changes again and the deferred finalizer has no further effect |
| `Gateway.CourseEnds` | internal/billing/plugin.go:132-184 | a settled course leaves the reservation charged with one usage row, released with none, or unknown with every item held |
| `Prepare.Prepare` | internal/proxy/preparer.go:71-86 | upstream model, default max_tokens, normalization exactly for Claude endpoints; the client's request is untouched |
| `Prepare.PickedEndpointIsUsed` | internal/proxy/preparer.go:36-66 | the carried endpoint id leads back to the picked endpoint, which speaks the client's protocol when one does |
| `Prepare.SentTokensWithinEstimate` | internal/normalize/normalize.go:34-38 | max_tokens sent with any attempt never exceeds what the estimate was made for |
| `Prepare.CompletionIsReserved` | internal/billing/plugin.go:248-283 | an upstream that keeps to max_tokens cannot charge more for completion than was reserved |
| `Cost.ComputeCheckedCost` | internal/billing/cost.go:61-81 | the accumulator form computes the checked amount, and an accepted one is a non-negative int64 |
| `Cost.CheckedCostFromFields` | internal/billing/cost.go:61-81 | from the fields alone: the two rounded quotients that make the charge, and exactly when it is an error |
| `Cost.FullPriceWithoutDiscount` | internal/billing/cost.go:39-41 | an unconfigured multiplier, or one of a million, charges the undiscounted price |
| `Cost.CostRefinesChecked` | internal/billing/cost.go:34-57 | the wrapping int64 form equals the big-integer form whenever its two totals fit |
| `Cost.DocumentedBoundsSuffice` | internal/billing/cost.go:25-57 | within the documented bounds nothing overflows and the forms agree |
| `Cost.DiscountNonNegative` | internal/billing/cost.go:83-93 | FullCost is at least Cost for every multiplier up to a million |
| `Cost.RoundingError` | internal/billing/cost.go:71-77 | two-stage rounding errs by at most 500,000 x (1,000,000 + cached tokens) at scale 10^12 |
| `Cost.CostRoundingError` | internal/billing/cost.go:51-56 | the same bound for the int64 form wherever it does not overflow |
| `Calendar.ComputeLocalDayStart` | internal/billing/period.go:43-70 | the probing loop computes the earliest candidate of the probed intervals |
| `Calendar.LocalDayStartExact` | internal/billing/period.go:43-70 | it is the first instant at or past the date iff that instant lies in a probed interval |
| `Calendar.LocalDayStartCorrect` | internal/billing/period.go:40-70 | it is that instant in every zone whose constant-offset intervals outlast the offset spread |
| `Calendar.PeriodGrid` | internal/billing/period.go:22-36 | days, Monday weeks and months partition the calendar |
| `Calendar.MonthStartExact` | internal/billing/period.go:32-33 | months begin where the Gregorian calendar says: 365 days a year, the counted leap days, and the days of the months before |
| `Calendar.CalendarCycle` | internal/billing/period.go:32-33 | the calendar repeats every 400 years, 146097 days |
| `Calendar.January2025` | internal/billing/period.go:22-37 | the day, week and month of a given instant in nanoseconds, and the two refusals |
| `Calendar.PeriodsTile` | internal/billing/period.go:10-38 | where the local period never runs backwards: start <= now < end, the same bounds throughout, the next period starts at end |
| `Calendar.ContainmentExact` | internal/billing/period.go:10-38 | for days, weeks and months: every instant lies in its own period iff the local period never runs backwards |
| `Calendar.DailyContainmentExact` | internal/billing/period.go:10-38 | for days the condition is that the local date never runs backwards, which suffices for every period |
| `Calendar.FoldLeavesItsPeriod` | internal/billing/period.go:10-38 | a fold back across any first day of a period puts an instant outside its own period |
| `Calendar.FoldsThatLeaveTheirPeriod` | internal/billing/period.go:10-38 | a day, a week and a month that do not contain one of their instants |
| `Scope.UnescapeEscape` | internal/billing/scope.go:11-13 | percent-decoding undoes percent-encoding for every byte string |
| `Scope.EscapeIs` | internal/billing/scope.go:11-13 | which bytes stay in a path segment, and the upper-case hexadecimal form of the others |
| `Scope.ParseExact` | internal/billing/scope.go:11-29 | parsing yields (t, g) iff both are non-empty and the scope is their encoding |
| `Scope.GroupScopeInjective` | internal/billing/scope.go:9-13 | distinct pairs never share a scope |
| `Selection.HrwOrder` | internal/proxy/affinity.go:136-156 | the in-place sort returns a permutation, highest score first, names ascending on equal scores, equal names in their order |
| `Selection.SortIsStable` | internal/proxy/affinity.go:145-150 | providers the comparison cannot tell apart keep their configuration order |
| `Selection.HrwIgnoresConfigOrder` | internal/proxy/affinity.go:126-156 | for distinct names the order does not depend on the configuration order, for any score function |
| `Selection.HrwRemoval` | internal/proxy/affinity.go:126-156 | removing a provider deletes it from every order and moves nothing else |
| `Routing.Router.Rotate` | internal/proxy/router_select.go:111-121 | position k holds provider (cursor + k) modulo the count, and the cursor advances |
| `Routing.RoundRobinIsFair` | internal/proxy/router_select.go:109-121 | after any calls on any aliases each provider headed exactly its share, quotient or one more |
| `Routing.FindPick` | internal/proxy/router_select.go:137-144 | the accumulating loop finds the element the draw falls on |
| `Routing.PickExact` | internal/proxy/router_select.go:137-144 | a draw selects an element iff it lies in that element's weight interval |
| `Routing.DrawsSelecting` | internal/proxy/router_select.go:123-157 | exactly weight-many draws select an element, one for a weight below one |
| `Routing.WeightedOrder` | internal/proxy/router_select.go:126-150 | terminates with a permutation, each element selected by its draw among those left |
| `Routing.FilterHealthy` | internal/proxy/router_select.go:95-107 | exactly the healthy candidates as an order-preserving subsequence, or all when none is; never empty for a non-empty list |
| `Routing.Router.Candidates` | internal/proxy/router_select.go:55-88 | absent iff no route; else the health-filtered strategy order of the route's own providers |
| `Breaker.CircuitBreaker.constructor` | internal/proxy/breaker.go:61-73 | defaults of five failures and thirty seconds |
| `Breaker.CircuitBreaker.Healthy` | internal/proxy/breaker.go:78-87 | closed, unknown or past the cooldown |
| `Breaker.CircuitBreaker.MarkFailure` | internal/proxy/breaker.go:92-110 | the new states after a failure, other endpoints untouched |
| `Breaker.CircuitBreaker.MarkSuccess` | internal/proxy/breaker.go:114-120 | the new states after a success |
| `Breaker.CircuitBreaker.Snapshot` | internal/proxy/breaker.go:133-149 | the view is that of some enumeration of the known endpoints, and agrees with health when no two render alike |
| `Breaker.OpenIffFailures` | internal/proxy/breaker.go:92-120 | open or half-open iff at least the threshold of failures followed the last success |
| `Breaker.CooldownNotExtended` | internal/proxy/breaker.go:97-104 | failures inside the cooldown change nothing |
| `Breaker.OpeningHasCause` | internal/proxy/breaker.go:92-110 | an opening time was stamped by a threshold failure or a failed trial, with only in-cooldown failures since |
| `Breaker.OthersNeverMatter` | internal/proxy/breaker.go:45-47 | an endpoint's state depends on its own marks alone |
| `Breaker.ViewAgreesExact` | internal/proxy/breaker.go:131-149 | the view shows closed, open and half-open as they are, after every history of marks and in every order, iff no two endpoints render alike |
| `Breaker.ClashMisreports` | internal/proxy/breaker.go:133-149 | for any two endpoints that render alike, a history and an order whose view shows the healthy one as open |
| `Breaker.SlashesClash` | internal/proxy/breaker.go:18-20 | two endpoints with one name and, at the default configuration, a history that misreports one of them |
| `Breaker.SlashFreeProvidersAreDistinct` | internal/proxy/breaker.go:18-20 | provider names without a slash never clash |
| `Auth.Authenticator.constructor` | internal/auth/auth.go:84-98 | default lifetimes |
| `Auth.Authenticator.Check` | internal/auth/auth.go:128-133 | a hit is an entry that has not expired at the call's clock reading |
| `Auth.Authenticator.Remember` | internal/auth/auth.go:141-147 | the entry expires its lifetime after the reading taken before the lookup |
| `Auth.Authenticator.Authenticate` | internal/auth/auth.go:105-150 | for every input: the cached answer while fresh, else the store's; accepted iff known and without expiry or before it; and the entry that is remembered |
| `Auth.RunKeepsInv` | internal/auth/auth.go:125-150 | every cached or pending answer is traced to a moment of the run at which the store gave it |
| `Auth.BoundedStaleness` | internal/auth/auth.go:105-150 | in every interleaving an answer is what the store held less than its lifetime before the call's clock reading, or later; the verdict is acceptance iff the key is known and unexpired at the second reading |
| `Auth.CallRunsThrough` | internal/auth/auth.go:105-150 | an uninterrupted call of the state machine comes to the verdict and cache of the sequential one |
| `Auth.WrittenAnswerIsServed` | internal/auth/auth.go:128-147 | a written answer is served to later calls until its lifetime after the writer's reading, whatever becomes of the store |
| `Auth.RevocationTakesEffect` | internal/auth/auth.go:55-63 | a revoked key is accepted by no call starting a full lifetime later |
| `Normalize.CollapseSystem` | internal/normalize/normalize.go:65-83 | one leading system message with the joined texts, the rest in order |
| `Normalize.MergeConsecutive` | internal/normalize/normalize.go:90-113 | the append-or-rewrite-last loop computes the merged list |
| `Normalize.MergedIsRuns` | internal/normalize/normalize.go:85-113 | output messages are the consecutive runs of the input, each of one role and without tool turns when longer than one, text joined by a blank line, other fields from the first |
| `Normalize.TextOfParts` | internal/adapter/adapter.go:61-91 | the text of multipart content is its text parts in order |
| `Normalize.JoinIs` | internal/normalize/normalize.go:80-109 | joined texts are separated by a blank line |
| `Normalize.NormalForm` | internal/normalize/normalize.go:31-113 | with both rewrites: one leading system message; adjacent equal roles only at tool turns; tool turns whole and in order; joined runs |
| `Normalize.NormalIsIdempotent` | internal/normalize/normalize.go:31-113 | rewriting twice is rewriting once |
| `Normalize.Apply` | internal/normalize/normalize.go:31-49 | a fresh request and message array; the input is unchanged |
| `QuotaStore.SortedQuotaScopes` | internal/store/quota.go:168-179 | in-place compaction yields each scope once, strictly ascending |
| `QuotaStore.QuotaRepo.TryDebit` | internal/store/quota.go:104-145 | succeeds iff every configured scope suffices; then each loses the amount once, else nothing changes |
| `QuotaStore.QuotaRepo.Settle` | internal/store/quota.go:150-166 | every configured scope moves once by the difference, or nothing does |
| `LegacyBilling.Bill` | internal/billing/plugin.go:96-196 | estimate, debit and settlement of one request: refused untouched, charged by both moves, or left debited when the settlement overflows |
| `LegacyBilling.EstimableExact` | internal/billing/plugin.go:256-283 | the estimate is -1 iff the token count is negative or the product does not fit |
| `LegacyBilling.ChargeIsExact` | internal/billing/plugin.go:186-196 | a settled request costs exactly its actual charge iff it was estimable and the difference to settle fits |
| `LegacyBilling.EstimableIsExact` | internal/billing/plugin.go:186-196 | for a charge that is not negative, estimable is the whole condition |
| `LegacyBilling.NegativeTokensOvercharge` | internal/adapter/adapter.go:244-249 | a request for -1 tokens passes an empty quota and costs one unit for nothing |
| `LegacyBilling.OverflowingTokensOvercharge` | internal/billing/plugin.go:278-281 | a request whose product overflows does the same |

## Left out

- HTTP handlers, codecs, adapters, SSE relay, log and trace capture: transport and JSON shaping; an upstream
  call is only an outcome (success with optional usage, build failure, 4xx with or without body, 5xx, timeout).
- Streaming: `ForwardStream` has the same failover loop as `Dispatch.Forward`; the relay after it, which can
  mark a broken stream uncertain, is not modelled.
- Dispatch without a preparer (the single-provider mode) and dispatch observers.
- `QuotaRepo.SetBalance`, an authoritative overwrite outside the conservation argument, and the asynchronous
  usage recorder, a lossy buffer.
- Row locks, lock order and deadlocks: a transaction is one atomic step.
- Store.Repo.MarkStale: which stale rows the 500-row query and the skipped locks leave is any list of ids, since
  it depends on what other clients have locked.
- Store.Repo.RetryPending: the pending rows its query returned, and their order, are any list of ids;
  `Recovery.RetryDrains` says what follows when the list holds every pending row.
- Database errors other than constraint and range violations, and the failure of a commit itself.
- Reservation and policy version counters are unbounded; their 64-bit overflow is not modelled.
- Listing, paging and the JSON forms of rows. Entity references are ids, so the canonical decimal
  check of a scope reference is built into the type. A usage row is tagged with its reservation so that the
  rows of one reservation can be named; of its attribution columns only provider, endpoint, currency and
  request id are kept.
- Unicode: lower-casing, case folding and white-space trimming are the ASCII parts. Sorting uses byte order,
  also where PostgreSQL would apply a collation.
- Time zones are given as finite transition lists with a last constant offset; the zone database and its rule
  strings are not modelled. Durations do not saturate, and the breaker's clock never reads Go's zero time.
- Randomness, SHA-256 and random ids are parameters: score functions, hash functions, draws and fresh ids are
  arbitrary. The sum of route weights is unbounded.
- Session-key extraction, the RBAC catalogue, admin CRUD, the desktop application and the web UI would only
  add easy members.
- Cost.DiscountNonNegative: stated where the undiscounted total fits in 64 bits; beyond it the int64 form wraps.
- Normalize.Apply: tool calls are values, so that the copy's tool-call slices are separate from the input's is
  not captured; content that is neither a string, an array nor null counts as null.
- Gateway.Handle: the dispatch markers are among the steps that come during the calls, and whether one fails is an
  outcome of the outside world, so the two are not tied to each other.
- Detour.DetourMatchesDirect: one way only; steps that are decided differently can also cancel out.
